/** The in-memory backend: a map of objects changed in place, and the atomic batch that builds the next
    map on the side and swaps it in. */
module MockStorages {
  import opened Common
  import opened Conditions

  datatype Object = Object(data: Data, etag: ETag)

  type Objects = map<string, Object>

  datatype Kind = PutKind | DeleteKind | UnknownKind

  datatype BatchOp = BatchOp(kind: Kind, uri: string, data: Data, conds: Conditions)

  /** The failure armed by SetFailNext. */
  datatype Fault = Fault(uri: string, error: Error)

  function Stored(data: Data): Object {
    Object(data, Digest(data))
  }

  function CurrentETag(objects: Objects, uri: string): Option<ETag> {
    if uri in objects then Some(objects[uri].etag) else None
  }

  // ----- one operation -----

  function PutTo(objects: Objects, uri: string, data: Data, conds: Conditions): Result<Objects> {
    var refused := ApplyConditionalPut(CurrentETag(objects, uri), conds);
    if refused.Some? then Err(Error(refused.value, false)) else Ok(objects[uri := Stored(data)])
  }

  function DeleteFrom(objects: Objects, uri: string, conds: Conditions): Result<Objects> {
    var refused := ApplyConditionalDelete(CurrentETag(objects, uri), conds);
    if refused.Some? then Err(Error(refused.value, false))
    else if uri !in objects then Err(Error(NotFound, false))
    else Ok(objects - {uri})
  }

  function GetFrom(objects: Objects, uri: string, conds: Conditions): Result<Object> {
    if uri !in objects then Err(Error(NotFound, false))
    else
      var refused := ApplyConditionalGet(objects[uri].etag, conds);
      if refused.Some? then Err(Error(refused.value, false)) else Ok(objects[uri])
  }

  function HeadOf(objects: Objects, uri: string): Result<ETag> {
    if uri !in objects then Err(Error(NotFound, false)) else Ok(objects[uri].etag)
  }

  /** One operation of a batch on the map being built. */
  function BatchStep(next: Objects, op: BatchOp): Result<Objects> {
    match op.kind
    case PutKind => PutTo(next, op.uri, op.data, op.conds)
    case DeleteKind => DeleteFrom(next, op.uri, op.conds)
    case UnknownKind => Err(Error(InvalidOperation, false))
  }

  /** The whole batch: the map after every operation, or the first error. */
  function BatchRun(objects: Objects, ops: seq<BatchOp>): Result<Objects>
    decreases |ops|
  {
    if ops == [] then Ok(objects)
    else
      var before := BatchRun(objects, ops[..|ops| - 1]);
      if before.Err? then before else BatchStep(before.value, ops[|ops| - 1])
  }

  /** An operation that fails is passed over. */
  function Skip(next: Objects, op: BatchOp): Objects {
    match BatchStep(next, op)
    case Ok(after) => after
    case Err(_) => next
  }

  /** The operations one after the other, passing over those that fail. */
  function SkipRun(objects: Objects, ops: seq<BatchOp>): Objects
    decreases |ops|
  {
    if ops == [] then objects else Skip(SkipRun(objects, ops[..|ops| - 1]), ops[|ops| - 1])
  }

  predicate Hits(fault: Option<Fault>, uri: string) {
    fault.Some? && (fault.value.uri == "" || fault.value.uri == uri)
  }

  /** What is left of a commit's operations: the objects, a failure still armed, the last error met. */
  datatype Progress = Progress(objects: Objects, fault: Option<Fault>, err: Option<Error>)

  /** One operation of a commit behind an armed failure: a retriable one costs an attempt, if the context
      lives on, any other one the operation. */
  function Attempted(objects: Objects, fault: Option<Fault>, op: BatchOp, alive: bool): Progress {
    if Hits(fault, op.uri) && !fault.value.error.retriable then Progress(objects, None, Some(fault.value.error))
    else if Hits(fault, op.uri) && !alive then Progress(objects, None, Some(Error(Cancelled, false)))
    else
      var fault' := if Hits(fault, op.uri) then None else fault;
      match BatchStep(objects, op)
      case Ok(next) => Progress(next, fault', None)
      case Err(error) => Progress(objects, fault', Some(error))
  }

  /** All operations of a commit in order, passing over those that fail. */
  function AttemptedAll(objects: Objects, fault: Option<Fault>, ops: seq<BatchOp>, alive: bool): Progress
    decreases |ops|
  {
    if ops == [] then Progress(objects, fault, None)
    else
      var before := AttemptedAll(objects, fault, ops[..|ops| - 1], alive);
      var last := Attempted(before.objects, before.fault, ops[|ops| - 1], alive);
      if last.err.None? then last.(err := before.err) else last
  }

  class MockStorage {
    var objects: Objects
    var fault: Option<Fault>

    constructor ()
      ensures objects == map[] && fault.None?
    {
      objects, fault := map[], None;
    }

    /** Make the next operation on `uri`, or on any URI if it is empty, fail. */
    method SetFailNext(uri: string, error: Error)
      modifies this`fault
      ensures fault == Some(Fault(uri, error))
    {
      fault := Some(Fault(uri, error));
    }

    method CheckFailNext(uri: string) returns (err: Option<Error>)
      modifies this`fault
      ensures if Hits(old(fault), uri) then err == Some(old(fault).value.error) && fault.None?
              else err.None? && fault == old(fault)
    {
      if Hits(fault, uri) {
        err := Some(fault.value.error);
        fault := None;
      } else {
        err := None;
      }
    }

    method Get(uri: string, conds: Conditions) returns (r: Result<Object>)
      modifies this`fault
      ensures if Hits(old(fault), uri) then r == Err(old(fault).value.error) && fault.None?
              else r == GetFrom(objects, uri, conds) && fault == old(fault)
    {
      var armed := CheckFailNext(uri);
      if armed.Some? {
        return Err(armed.value);
      }
      if uri !in objects {
        return Err(Error(NotFound, false));
      }
      var found := objects[uri];
      if conds.ifMatch.Tag? && conds.ifMatch.etag != found.etag {
        return Err(Error(PreconditionFailed, false));
      }
      if conds.ifNoMatch.Tag? && conds.ifNoMatch.etag == found.etag {
        return Err(Error(NotModified, false));
      }
      return Ok(found);
    }

    method Head(uri: string) returns (r: Result<ETag>)
      modifies this`fault
      ensures if Hits(old(fault), uri) then r == Err(old(fault).value.error) && fault.None?
              else r == HeadOf(objects, uri) && fault == old(fault)
    {
      var armed := CheckFailNext(uri);
      if armed.Some? {
        return Err(armed.value);
      }
      if uri !in objects {
        return Err(Error(NotFound, false));
      }
      return Ok(objects[uri].etag);
    }

    /** On success the object is stored under the digest of its content; on any error nothing changes. */
    method Put(uri: string, data: Data, conds: Conditions) returns (r: Result<ETag>)
      modifies this
      ensures if Hits(old(fault), uri) then r == Err(old(fault).value.error) && fault.None? && objects == old(objects)
              else
                && fault == old(fault)
                && match PutTo(old(objects), uri, data, conds)
                   case Ok(next) => r == Ok(Digest(data)) && objects == next
                   case Err(error) => r == Err(error) && objects == old(objects)
    {
      var armed := CheckFailNext(uri);
      if armed.Some? {
        return Err(armed.value);
      }
      var existing := if uri in objects then Some(objects[uri].etag) else None;
      var refused := ApplyConditionalPut(existing, conds);
      if refused.Some? {
        return Err(Error(refused.value, false));
      }
      objects := objects[uri := Object(data, Digest(data))];
      return Ok(Digest(data));
    }

    /** On success the object is gone; on any error nothing changes. */
    method Delete(uri: string, conds: Conditions) returns (err: Option<Error>)
      modifies this
      ensures if Hits(old(fault), uri)
              then err == Some(old(fault).value.error) && fault.None? && objects == old(objects)
              else
                && fault == old(fault)
                && match DeleteFrom(old(objects), uri, conds)
                   case Ok(next) => err.None? && objects == next
                   case Err(error) => err == Some(error) && objects == old(objects)
    {
      err := CheckFailNext(uri);
      if err.Some? {
        return;
      }
      var existing := if uri in objects then Some(objects[uri].etag) else None;
      var refused := ApplyConditionalDelete(existing, conds);
      if refused.Some? {
        return Some(Error(refused.value, false));
      }
      if uri !in objects {
        return Some(Error(NotFound, false));
      }
      objects := objects - {uri};
    }

    /** Copy the map object by object, in whatever order its keys come. */
    method CopyObjects() returns (next: Objects)
      ensures next == objects
    {
      next := map[];
      var left := objects.Keys;
      while left != {}
        invariant left <= objects.Keys && next.Keys == objects.Keys - left
        invariant forall uri :: uri in next ==> next[uri] == objects[uri]
        decreases left
      {
        var uri :| uri in left;
        next := next[uri := Object(objects[uri].data, objects[uri].etag)];
        left := left - {uri};
      }
    }

    /** Every operation or none: the map is swapped only after the last condition has passed. */
    method ApplyAtomicBatch(ops: seq<BatchOp>) returns (err: Option<Error>)
      modifies this
      ensures if exists op :: op in ops && Hits(old(fault), op.uri)
              then err == Some(old(fault).value.error) && fault.None? && objects == old(objects)
              else
                && fault == old(fault)
                && match BatchRun(old(objects), ops)
                   case Ok(next) => err.None? && objects == next
                   case Err(error) => err == Some(error) && objects == old(objects)
    {
      for i := 0 to |ops|
        invariant fault == old(fault) && objects == old(objects)
        invariant forall op :: op in ops[..i] ==> !Hits(fault, op.uri)
      {
        err := CheckFailNext(ops[i].uri);
        if err.Some? {
          assert ops[i] in ops;
          return;
        }
        assert ops[..i + 1] == ops[..i] + [ops[i]];
      }
      assert ops[..|ops|] == ops;
      hide Hits, BatchRun;
      NothingRun(objects, ops);
      var next := CopyObjects();
      for i := 0 to |ops|
        invariant fault == old(fault) && objects == old(objects)
        invariant BatchRun(objects, ops[..i]) == Ok(next)
      {
        var op := ops[i];
        BatchOneMore(objects, ops, i);
        var existing := if op.uri in next then Some(next[op.uri].etag) else None;
        match op.kind {
          case PutKind =>
            var refused := ApplyConditionalPut(existing, op.conds);
            if refused.Some? {
              FailureIsFinal(objects, ops, i + 1);
              return Some(Error(refused.value, false));
            }
            next := next[op.uri := Object(op.data, Digest(op.data))];
          case DeleteKind =>
            var refused := ApplyConditionalDelete(existing, op.conds);
            if refused.Some? {
              FailureIsFinal(objects, ops, i + 1);
              return Some(Error(refused.value, false));
            }
            if op.uri !in next {
              FailureIsFinal(objects, ops, i + 1);
              return Some(Error(NotFound, false));
            }
            next := next - {op.uri};
          case UnknownKind =>
            FailureIsFinal(objects, ops, i + 1);
            return Some(Error(InvalidOperation, false));
        }
      }
      objects := next;
      return None;
    }
  }

  lemma NothingRun(objects: Objects, ops: seq<BatchOp>)
    ensures BatchRun(objects, ops[..0]) == Ok(objects)
  {
  }

  lemma BatchOneMore(objects: Objects, ops: seq<BatchOp>, i: nat)
    requires i < |ops|
    ensures var before := BatchRun(objects, ops[..i]);
            BatchRun(objects, ops[..i + 1]) == if before.Err? then before else BatchStep(before.value, ops[i])
  {
    assert ops[..i + 1][..i] == ops[..i];
  }

  /** An error in a prefix of a batch is the error of the whole batch. */
  lemma {:induction false} FailureIsFinal(objects: Objects, ops: seq<BatchOp>, i: nat)
    requires i <= |ops| && BatchRun(objects, ops[..i]).Err?
    ensures BatchRun(objects, ops) == BatchRun(objects, ops[..i])
    decreases |ops| - i
  {
    if i == |ops| {
      assert ops[..i] == ops;
    } else {
      assert ops[..i + 1][..i] == ops[..i];
      FailureIsFinal(objects, ops, i + 1);
    }
  }
}
