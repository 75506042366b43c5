/** The atomic batch against two simpler ways of doing the same work: its operations run one by one
    through Put and Delete, and all of them applied at once to the original map. */
module AtomicBatches {
  import opened Common
  import opened Conditions
  import opened MockStorages

  datatype Command =
    | PutCommand(uri: string, data: Data, conds: Conditions)
    | DeleteCommand(uri: string, conds: Conditions)

  function AsOp(c: Command): BatchOp {
    match c
    case PutCommand(uri, data, conds) => BatchOp(PutKind, uri, data, conds)
    case DeleteCommand(uri, conds) => BatchOp(DeleteKind, uri, "", conds)
  }

  function AsOps(commands: seq<Command>): (ops: seq<BatchOp>)
    ensures |ops| == |commands| && forall i :: 0 <= i < |ops| ==> ops[i] == AsOp(commands[i])
  {
    if commands == [] then [] else [AsOp(commands[0])] + AsOps(commands[1..])
  }

  // ----- one by one -----

  /** What running the commands one by one leaves: the objects, a failure still armed, the errors met. */
  datatype Trail = Trail(objects: Objects, fault: Option<Fault>, errs: seq<Error>)

  /** One command through Put or Delete. */
  function RunOne(objects: Objects, c: Command): Result<Objects> {
    match c
    case PutCommand(uri, data, conds) => PutTo(objects, uri, data, conds)
    case DeleteCommand(uri, conds) => DeleteFrom(objects, uri, conds)
  }

  /** The same behind an armed failure. */
  function RunArmed(objects: Objects, fault: Option<Fault>, c: Command): Result<Objects> {
    if Hits(fault, c.uri) then Err(fault.value.error) else RunOne(objects, c)
  }

  function InOrder(objects: Objects, fault: Option<Fault>, commands: seq<Command>, stopOnError: bool): Trail
    decreases |commands|
  {
    if commands == [] then Trail(objects, fault, [])
    else
      var fault' := if Hits(fault, commands[0].uri) then None else fault;
      match RunArmed(objects, fault, commands[0])
      case Ok(next) => InOrder(next, fault', commands[1..], stopOnError)
      case Err(error) =>
        if stopOnError then Trail(objects, fault', [error])
        else
          var rest := InOrder(objects, fault', commands[1..], stopOnError);
          rest.(errs := [error] + rest.errs)
  }

  /** PutCommand.Execute or DeleteCommand.Execute. */
  method ExecuteOne(storage: MockStorage, c: Command) returns (err: Option<Error>)
    modifies storage
    ensures storage.fault == if Hits(old(storage.fault), c.uri) then None else old(storage.fault)
    ensures match RunArmed(old(storage.objects), old(storage.fault), c)
            case Ok(next) => err.None? && storage.objects == next
            case Err(error) => err == Some(error) && storage.objects == old(storage.objects)
  {
    match c {
      case PutCommand(uri, data, conds) =>
        var r := storage.Put(uri, data, conds);
        err := if r.Err? then Some(r.error) else None;
      case DeleteCommand(uri, conds) =>
        err := storage.Delete(uri, conds);
    }
  }

  /** BatchCommand.Execute: each command in turn, stopping at the first error if so configured. */
  method Execute(storage: MockStorage, commands: seq<Command>, stopOnError: bool) returns (errs: seq<Error>)
    modifies storage
    ensures Trail(storage.objects, storage.fault, errs) ==
              InOrder(old(storage.objects), old(storage.fault), commands, stopOnError)
  {
    hide RunArmed;
    errs := [];
    ghost var whole := InOrder(storage.objects, storage.fault, commands, stopOnError);
    for i := 0 to |commands|
      invariant stopOnError ==> errs == []
      invariant var rest := InOrder(storage.objects, storage.fault, commands[i..], stopOnError);
                whole == rest.(errs := errs + rest.errs)
    {
      assert commands[i..][0] == commands[i] && commands[i..][1..] == commands[i + 1..];
      var err := ExecuteOne(storage, commands[i]);
      if err.Some? {
        if stopOnError {
          return [err.value];
        }
        errs := errs + [err.value];
      }
    }
    assert commands[|commands|..] == [];
  }

  lemma {:induction false} BatchFromFront(objects: Objects, op: BatchOp, rest: seq<BatchOp>)
    ensures BatchRun(objects, [op] + rest) ==
              match BatchStep(objects, op)
              case Ok(next) => BatchRun(next, rest)
              case Err(error) => Err(error)
    decreases |rest|
  {
    var ops := [op] + rest;
    if rest == [] {
      assert ops[..0] == [];
    } else {
      assert ops[..|ops| - 1] == [op] + rest[..|rest| - 1];
      BatchFromFront(objects, op, rest[..|rest| - 1]);
    }
  }

  /** The batch succeeds exactly when running its operations in order through Put and Delete would succeed
      throughout, and then leaves the same objects; when it fails, it is with the first error that run meets. */
  lemma {:induction false} BatchRefinesSequence(objects: Objects, commands: seq<Command>)
    ensures var trail := InOrder(objects, None, commands, true);
            match BatchRun(objects, AsOps(commands))
            case Ok(next) => trail == Trail(next, None, [])
            case Err(error) => trail.errs == [error]
    decreases |commands|
  {
    if commands != [] {
      BatchFromFront(objects, AsOp(commands[0]), AsOps(commands[1..]));
      assert AsOps(commands) == [AsOp(commands[0])] + AsOps(commands[1..]);
      match RunOne(objects, commands[0])
      case Ok(next) => BatchRefinesSequence(next, commands[1..]);
      case Err(_) =>
    }
  }

  lemma {:induction false} SkipFromFront(objects: Objects, op: BatchOp, rest: seq<BatchOp>)
    ensures SkipRun(objects, [op] + rest) == SkipRun(Skip(objects, op), rest)
    decreases |rest|
  {
    var ops := [op] + rest;
    if rest == [] {
      assert ops[..0] == [];
    } else {
      assert ops[..|ops| - 1] == [op] + rest[..|rest| - 1];
      SkipFromFront(objects, op, rest[..|rest| - 1]);
    }
  }

  /** A best-effort commit leaves what a batch of separate commands leaves that does not stop on errors; it
      meets no error exactly when the atomic batch would succeed. */
  lemma {:induction false} SkipRefinesSequence(objects: Objects, commands: seq<Command>)
    ensures var trail := InOrder(objects, None, commands, false);
            && SkipRun(objects, AsOps(commands)) == trail.objects
            && (trail.errs == [] <==> BatchRun(objects, AsOps(commands)).Ok?)
    decreases |commands|
  {
    if commands != [] {
      SkipFromFront(objects, AsOp(commands[0]), AsOps(commands[1..]));
      BatchFromFront(objects, AsOp(commands[0]), AsOps(commands[1..]));
      assert AsOps(commands) == [AsOp(commands[0])] + AsOps(commands[1..]);
      SkipRefinesSequence(Skip(objects, AsOp(commands[0])), commands[1..]);
    }
  }

  // ----- all at once -----

  ghost predicate DistinctURIs(ops: seq<BatchOp>) {
    forall i, j :: 0 <= i < j < |ops| ==> ops[i].uri != ops[j].uri
  }

  /** The operation would succeed on these objects. */
  predicate Passes(objects: Objects, op: BatchOp) {
    BatchStep(objects, op).Ok?
  }

  /** What the operation leaves at its own URI. */
  function Effect(op: BatchOp): Option<Object> {
    if op.kind.PutKind? then Some(Stored(op.data)) else None
  }

  /** `next` is `objects` with the effects of the operations laid over it. */
  ghost predicate Overlays(objects: Objects, ops: seq<BatchOp>, next: Objects) {
    && (forall op :: op in ops ==> Lookup(next, op.uri) == Effect(op))
    && (forall uri :: (forall op :: op in ops ==> op.uri != uri) ==> Lookup(next, uri) == Lookup(objects, uri))
  }

  lemma StepAtURI(objects: Objects, op: BatchOp)
    ensures Passes(objects, op) ==>
              var next := BatchStep(objects, op).value;
              && Lookup(next, op.uri) == Effect(op)
              && forall uri :: uri != op.uri ==> Lookup(next, uri) == Lookup(objects, uri)
  {
  }

  lemma PassesAtURI(objects: Objects, objects': Objects, op: BatchOp)
    requires Lookup(objects, op.uri) == Lookup(objects', op.uri)
    ensures Passes(objects, op) == Passes(objects', op)
  {
  }

  /** With distinct URIs the batch succeeds exactly when every operation would succeed on the original
      objects, and then overlays exactly their effects. */
  lemma {:induction false} BatchIsOverlay(objects: Objects, ops: seq<BatchOp>)
    requires DistinctURIs(ops)
    ensures BatchRun(objects, ops).Ok? <==> forall op :: op in ops ==> Passes(objects, op)
    ensures BatchRun(objects, ops).Ok? ==> Overlays(objects, ops, BatchRun(objects, ops).value)
    decreases |ops|
  {
    if ops != [] {
      var n := |ops| - 1;
      var front, last := ops[..n], ops[n];
      assert ops == front + [last];
      BatchIsOverlay(objects, front);
      if BatchRun(objects, front).Ok? {
        var mid := BatchRun(objects, front).value;
        assert forall op :: op in front ==> op.uri != last.uri;
        assert Lookup(mid, last.uri) == Lookup(objects, last.uri);
        PassesAtURI(mid, objects, last);
        StepAtURI(mid, last);
      }
    }
  }

  lemma OverlayUnique(objects: Objects, ops: seq<BatchOp>, ops': seq<BatchOp>, next: Objects, next': Objects)
    requires multiset(ops) == multiset(ops')
    requires Overlays(objects, ops, next) && Overlays(objects, ops', next')
    ensures next == next'
  {
    SameMembers(ops, ops');
    forall uri ensures Lookup(next, uri) == Lookup(next', uri) {
      if op :| op in ops && op.uri == uri {
        assert op in ops';
      }
    }
    assert forall uri :: uri in next <==> Lookup(next, uri).Some?;
    assert forall uri :: uri in next' <==> Lookup(next', uri).Some?;
    assert forall uri :: uri in next ==> next[uri] == Lookup(next, uri).value;
    assert forall uri :: uri in next' ==> next'[uri] == Lookup(next', uri).value;
  }

  lemma SameMembers<T>(a: seq<T>, b: seq<T>)
    requires multiset(a) == multiset(b)
    ensures forall x :: x in a <==> x in b
  {
    forall x ensures x in a <==> x in b {
      assert x in a <==> x in multiset(a);
      assert x in b <==> x in multiset(b);
    }
  }

  /** For distinct URIs the order of the operations makes no difference: not to whether the batch succeeds,
      and not to what it leaves. */
  lemma {:induction false} OrderIrrelevant(objects: Objects, ops: seq<BatchOp>, ops': seq<BatchOp>)
    requires DistinctURIs(ops) && DistinctURIs(ops') && multiset(ops) == multiset(ops')
    ensures BatchRun(objects, ops).Ok? == BatchRun(objects, ops').Ok?
    ensures BatchRun(objects, ops).Ok? ==> BatchRun(objects, ops) == BatchRun(objects, ops')
  {
    BatchIsOverlay(objects, ops);
    BatchIsOverlay(objects, ops');
    SameMembers(ops, ops');
    if BatchRun(objects, ops).Ok? {
      OverlayUnique(objects, ops, ops', BatchRun(objects, ops).value, BatchRun(objects, ops').value);
    }
  }
}
