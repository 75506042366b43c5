/** Any sequence of calls on one transaction, whatever the backend answers in between: the overlay stays in
    order, conditions captured when a URI is first staged protect against lost updates, and a successful
    commit makes the backend what the transaction itself showed. */
module StagingTheorems {
  import opened Common
  import opened Conditions
  import opened MockStorages
  import opened AtomicBatches
  import opened Staging

  datatype Event =
    | PutCall(uri: string, data: Data, conds: Conditions)
    | DeleteCall(uri: string, conds: Conditions)
    | GetCall(uri: string, conds: Conditions)
    | HeadCall(uri: string)

  /** A call, whether the transaction had timed out by then, and what the backend's Head and Get would
      answer at that moment. */
  datatype Moment = Moment(event: Event, expired: bool, head: Result<ETag>, get: Result<Object>)

  function Call(tx: Tx, m: Moment): Tx {
    match m.event
    case PutCall(uri, data, conds) => StagePut(tx, m.expired, m.head, uri, data, conds).0
    case DeleteCall(uri, conds) => StageDelete(tx, m.expired, m.head, uri, conds).0
    case GetCall(uri, conds) => ReadTx(tx, m.expired, m.get, uri, conds).0
    case HeadCall(uri) => HeadTx(tx, m.expired, m.head, uri).0
  }

  function Play(tx: Tx, moments: seq<Moment>): Tx
    decreases |moments|
  {
    if moments == [] then tx
    else Call(Play(tx, moments[..|moments| - 1]), moments[|moments| - 1])
  }

  // ----- the overlay stays in order -----

  lemma StageKeepsOrder(tx: Tx, uri: string, op: Staged)
    requires Orderly(tx) && !op.kind.UnknownKind?
    ensures Orderly(Stage(tx, uri, op)) && tx.order <= Stage(tx, uri, op).order
  {
    var tx' := Stage(tx, uri, op);
    assert forall u :: u in tx'.order <==> u in tx.order || u == uri;
  }

  lemma LookupKeepsOrder(tx: Tx, uri: string, head: Result<ETag>)
    requires Orderly(tx)
    ensures Orderly(AfterLookup(tx, uri, head)) && AfterLookup(tx, uri, head).order == tx.order
  {
  }

  /** What the call stages, if it stages anything. */
  function StagedBy(tx: Tx, m: Moment): Option<Staged> {
    match m.event
    case PutCall(uri, data, conds) =>
      if StagePut(tx, m.expired, m.head, uri, data, conds).1.Some? then None
      else Some(Staged(PutKind, data, PutConditions(tx, uri, LookupETag(tx, uri, m.head).value, conds)))
    case DeleteCall(uri, conds) =>
      if StageDelete(tx, m.expired, m.head, uri, conds).1.Some? then None
      else Some(Staged(DeleteKind, "", DeleteConditions(tx, uri, LookupETag(tx, uri, m.head).value.value, conds)))
    case _ => None
  }

  /** Apart from the caches, a call changes just what it stages. */
  lemma CallShape(tx: Tx, m: Moment)
    ensures var tx' := Call(tx, m);
            && tx'.state == tx.state && tx'.closed == tx.closed && tx'.readOnly == tx.readOnly
            && match StagedBy(tx, m)
               case None => tx'.ops == tx.ops && tx'.order == tx.order
               case Some(op) =>
                 && tx' == Stage(AfterLookup(tx, m.event.uri, m.head), m.event.uri, op)
                 && LookupETag(tx, m.event.uri, m.head).Ok?
  {
    match m.event
    case PutCall(_, _, _) => hide StageDelete, ReadTx, HeadTx;
    case DeleteCall(_, _) => hide StagePut, ReadTx, HeadTx;
    case GetCall(_, _) => hide StagePut, StageDelete, HeadTx;
    case HeadCall(_) => hide StagePut, StageDelete, ReadTx;
  }

  lemma CallKeepsOrder(tx: Tx, m: Moment)
    requires Orderly(tx)
    ensures Orderly(Call(tx, m))
    ensures Call(tx, m).state == tx.state
    ensures tx.order <= Call(tx, m).order
  {
    CallShape(tx, m);
    LookupKeepsOrder(tx, m.event.uri, m.head);
    match StagedBy(tx, m)
    case Some(op) =>
      StageKeepsOrder(AfterLookup(tx, m.event.uri, m.head), m.event.uri, op);
    case None =>
      assert forall u :: u in Call(tx, m).items ==> u in Call(tx, m).meta;
  }

  /** However the transaction is used, its staging order lists each staged URI exactly once. */
  lemma {:induction false} PlayKeepsOrder(tx: Tx, moments: seq<Moment>)
    requires Orderly(tx)
    ensures Orderly(Play(tx, moments)) && tx.order <= Play(tx, moments).order
    decreases |moments|
  {
    if moments != [] {
      PlayKeepsOrder(tx, moments[..|moments| - 1]);
      CallKeepsOrder(Play(tx, moments[..|moments| - 1]), moments[|moments| - 1]);
    }
  }

  /** A staging call that returns an error stages nothing and unstages nothing. */
  lemma RejectedStagingChangesNothing(tx: Tx, expired: bool, head: Result<ETag>, uri: string, data: Data,
                                      conds: Conditions)
    ensures var (tx', err) := StagePut(tx, expired, head, uri, data, conds);
            err.Some? ==> tx'.ops == tx.ops && tx'.order == tx.order
    ensures var (tx', err) := StageDelete(tx, expired, head, uri, conds);
            err.Some? ==> tx'.ops == tx.ops && tx'.order == tx.order
    ensures tx.state != Active || tx.closed ==>
              && StagePut(tx, expired, head, uri, data, conds).1.Some?
              && StageDelete(tx, expired, head, uri, conds).1.Some?
  {
  }

  /** What the call returns, if that is an error. */
  function Refusal(tx: Tx, m: Moment): Option<Code> {
    match m.event
    case PutCall(uri, data, conds) => StagePut(tx, m.expired, m.head, uri, data, conds).1
    case DeleteCall(uri, conds) => StageDelete(tx, m.expired, m.head, uri, conds).1
    case GetCall(uri, conds) =>
      var r := ReadTx(tx, m.expired, m.get, uri, conds).1;
      if r.Err? then Some(r.error.code) else None
    case HeadCall(uri) =>
      var r := HeadTx(tx, m.expired, m.head, uri).1;
      if r.Err? then Some(r.error.code) else None
  }

  /** Nothing happens to a committed or rolled back transaction any more; one that is merely not active any
      more stages nothing, though reads may still fill its caches. */
  lemma {:induction false} EndedForGood(tx: Tx, moments: seq<Moment>)
    requires Orderly(tx) && tx.state != Active
    ensures Play(tx, moments).ops == tx.ops && Play(tx, moments).order == tx.order
    ensures Play(tx, moments).state == tx.state
    ensures tx.state.Committed? || tx.state.RolledBack? ==>
              Play(tx, moments) == tx && forall m: Moment :: Refusal(tx, m) == Some(TransactionClosed)
    decreases |moments|
  {
    if moments != [] {
      EndedForGood(tx, moments[..|moments| - 1]);
      CallShape(Play(tx, moments[..|moments| - 1]), moments[|moments| - 1]);
    }
  }

  // ----- baselines -----

  /** The call stages a put or delete of this URI with conditions of its own. */
  predicate Conditioned(m: Moment, uri: string) {
    (m.event.PutCall? || m.event.DeleteCall?) && m.event.uri == uri && m.event.conds != Unconditional
  }

  /** Every put and delete of this URI is staged without conditions of its own. */
  ghost predicate Unconditioned(moments: seq<Moment>, uri: string) {
    forall k :: 0 <= k < |moments| ==> !Conditioned(moments[k], uri)
  }

  /** What the lookup found when the URI was first staged. */
  function Captured(tx: Tx, moments: seq<Moment>, uri: string): Option<Option<ETag>>
    decreases |moments|
  {
    if moments == [] then None
    else
      var front, last := moments[..|moments| - 1], moments[|moments| - 1];
      var before := Captured(tx, front, uri);
      if before.Some? || uri !in Play(tx, moments).ops then before
      else
        match LookupETag(Play(tx, front), uri, last.head)
        case Ok(current) => Some(current)
        case Err(_) => None
  }

  /** The conditions that demand the object be still what was captured. */
  function Baseline(captured: Option<ETag>): Conditions {
    if captured.Some? then Conditions(Tag(captured.value), Unset) else Conditions(Unset, Tag(Star))
  }

  /** Later staging calls inherit the first one's baseline. */
  lemma {:induction false} BaselineInherited(readOnly: bool, moments: seq<Moment>, uri: string)
    requires Unconditioned(moments, uri)
    ensures var tx := Play(NewTx(readOnly), moments);
            var captured := Captured(NewTx(readOnly), moments, uri);
            && (uri in tx.ops <==> captured.Some?)
            && (uri in tx.ops ==> tx.ops[uri].conds == Baseline(captured.value))
    decreases |moments|
  {
    if moments != [] {
      var front, last := moments[..|moments| - 1], moments[|moments| - 1];
      assert forall k :: 0 <= k < |front| ==> front[k] == moments[k];
      BaselineInherited(readOnly, front, uri);
      InheritStep(Play(NewTx(readOnly), front), last, uri, Captured(NewTx(readOnly), front, uri));
    }
  }

  /** One more call: a URI staged before keeps its conditions, one staged now gets its baseline. */
  lemma InheritStep(tx: Tx, m: Moment, uri: string, captured: Option<Option<ETag>>)
    requires !Conditioned(m, uri)
    requires uri in tx.ops <==> captured.Some?
    requires uri in tx.ops ==> tx.ops[uri].conds == Baseline(captured.value)
    ensures uri in tx.ops ==> uri in Call(tx, m).ops && Call(tx, m).ops[uri].conds == tx.ops[uri].conds
    ensures uri !in tx.ops && uri in Call(tx, m).ops ==>
              && LookupETag(tx, uri, m.head).Ok? && m.event.uri == uri
              && Call(tx, m).ops[uri].conds == Baseline(LookupETag(tx, uri, m.head).value)
  {
    CallShape(tx, m);
  }

  /** Whether the staged operation goes through on `objects`, in terms of what was captured: a put, and a
      delete of something that was there, go through exactly if the object is still what it was; a delete
      of something that was absent, exactly if by now there is something. */
  lemma PublishesIffUnchanged(readOnly: bool, moments: seq<Moment>, uri: string, objects: Objects)
    requires Unconditioned(moments, uri)
    requires uri in Play(NewTx(readOnly), moments).ops
    ensures var tx := Play(NewTx(readOnly), moments);
            var captured := Captured(NewTx(readOnly), moments, uri);
            && captured.Some?
            && (Passes(objects, OpFor(tx, uri)) <==>
                  if captured.value.None? && tx.ops[uri].kind.DeleteKind? then uri in objects
                  else CurrentETag(objects, uri) == captured.value)
  {
    BaselineInherited(readOnly, moments, uri);
    PlayKeepsOrder(NewTx(readOnly), moments);
  }

  /** The call, made on `tx` while the URI was not staged, really asked the backend about it and was told
      `current`: the transaction knew nothing of the object, and neither had ended nor timed out. */
  predicate Asked(tx: Tx, m: Moment, uri: string, current: Option<ETag>) {
    && m.event.uri == uri && uri !in tx.ops && CheckState(tx, m.expired).None?
    && match m.event
       case GetCall(_, _) => (uri !in tx.items || uri !in tx.meta) && m.get.Ok? && current == Some(m.get.value.etag)
       case HeadCall(_) => uri !in tx.meta && m.head.Ok? && current == Some(m.head.value)
       case _ => StagingRefusal(tx, m.expired).None? && uri !in tx.meta && LookupETag(tx, uri, m.head) == Ok(current)
  }

  /** A cached ETag was cached before, or is what the backend has just answered. */
  lemma CacheStep(tx: Tx, m: Moment, uri: string)
    requires uri in Call(tx, m).meta && uri !in Call(tx, m).ops
    ensures uri !in tx.ops
    ensures (uri in tx.meta && Call(tx, m).meta[uri] == tx.meta[uri]) || Asked(tx, m, uri, Some(Call(tx, m).meta[uri]))
  {
    match m.event
    case PutCall(_, _, _) => hide StageDelete, ReadTx, HeadTx;
    case DeleteCall(_, _) => hide StagePut, ReadTx, HeadTx;
    case GetCall(_, _) => hide StagePut, StageDelete, HeadTx;
    case HeadCall(_) => hide StagePut, StageDelete, ReadTx;
  }

  lemma {:induction false} CacheWasAnswered(readOnly: bool, moments: seq<Moment>, uri: string) returns (k: nat)
    requires uri in Play(NewTx(readOnly), moments).meta && uri !in Play(NewTx(readOnly), moments).ops
    ensures k < |moments|
    ensures Asked(Play(NewTx(readOnly), moments[..k]), moments[k], uri, Some(Play(NewTx(readOnly), moments).meta[uri]))
    decreases |moments|
  {
    hide Call, Asked;
    var front, last := moments[..|moments| - 1], moments[|moments| - 1];
    var before := Play(NewTx(readOnly), front);
    CacheStep(before, last, uri);
    if uri in before.meta && before.meta[uri] == Play(NewTx(readOnly), moments).meta[uri] {
      k := CacheWasAnswered(readOnly, front, uri);
      assert front[..k] == moments[..k];
    } else {
      k := |moments| - 1;
    }
  }

  /** The captured state is one the backend reported for this URI, when it was asked by the first staging call
      or by an earlier call. */
  lemma {:induction false} CaptureWasAnswered(readOnly: bool, moments: seq<Moment>, uri: string) returns (k: nat)
    requires Captured(NewTx(readOnly), moments, uri).Some?
    ensures k < |moments| && uri !in Play(NewTx(readOnly), moments[..k]).ops
    ensures Asked(Play(NewTx(readOnly), moments[..k]), moments[k], uri, Captured(NewTx(readOnly), moments, uri).value)
    decreases |moments|
  {
    var front, last := moments[..|moments| - 1], moments[|moments| - 1];
    if Captured(NewTx(readOnly), front, uri).Some? {
      k := CaptureWasAnswered(readOnly, front, uri);
      assert front[..k] == moments[..k];
    } else {
      var before := Play(NewTx(readOnly), front);
      NothingCapturedYet(readOnly, front, uri);
      CallShape(before, last);
      FirstStagingLooks(before, last, uri);
      if uri in before.meta {
        k := CacheWasAnswered(readOnly, front, uri);
        assert front[..k] == moments[..k];
      } else {
        k := |moments| - 1;
      }
    }
  }

  /** The call that first stages a URI takes its state from the cache or asks the backend. */
  lemma FirstStagingLooks(tx: Tx, m: Moment, uri: string)
    requires uri !in tx.ops && uri in Call(tx, m).ops
    ensures m.event.uri == uri && LookupETag(tx, uri, m.head).Ok?
    ensures if uri in tx.meta then LookupETag(tx, uri, m.head) == Ok(Some(tx.meta[uri]))
            else Asked(tx, m, uri, LookupETag(tx, uri, m.head).value)
  {
    CallShape(tx, m);
  }

  lemma {:induction false} NothingCapturedYet(readOnly: bool, moments: seq<Moment>, uri: string)
    requires Captured(NewTx(readOnly), moments, uri).None?
    ensures uri !in Play(NewTx(readOnly), moments).ops
    decreases |moments|
  {
    if moments != [] {
      var front, last := moments[..|moments| - 1], moments[|moments| - 1];
      NothingCapturedYet(readOnly, front, uri);
      CallShape(Play(NewTx(readOnly), front), last);
    }
  }

  // ----- no lost updates -----

  /** Unless they are errors of some other kind, the backend's answers were true of what it held at each
      moment; other writers may have changed it in any way between two moments. */
  ghost predicate Truthful(moments: seq<Moment>, stores: seq<Objects>) {
    && |stores| == |moments|
    && forall k :: 0 <= k < |moments| ==> TrueOf(moments[k], stores[k])
  }

  predicate TrueOf(m: Moment, store: Objects) {
    && (match m.head
        case Ok(etag) => HeadOf(store, m.event.uri) == Ok(etag)
        case Err(error) => error.code == NotFound ==> m.event.uri !in store)
    && (m.event.GetCall? && m.get.Ok? ==> m.get == GetFrom(store, m.event.uri, m.event.conds))
  }

  /** A commit publishes an unconditioned staging only over the very state of the object that the backend
      reported when the first staging call, or an earlier call of the transaction, asked for it, whatever
      happened since. The one exception is a delete of a URI that was absent when first staged, for which see
      LostUpdateByDelete. */
  lemma {:induction false} NoLostUpdates(readOnly: bool, moments: seq<Moment>, stores: seq<Objects>, uri: string,
                                         before: Objects, after: Objects)
    returns (k: nat)
    requires Unconditioned(moments, uri) && Truthful(moments, stores)
    requires Published(Play(NewTx(readOnly), moments), before, after)
    requires uri in Play(NewTx(readOnly), moments).ops
    requires Play(NewTx(readOnly), moments).ops[uri].kind.PutKind?
             || Captured(NewTx(readOnly), moments, uri) != Some(None)
    ensures k < |moments| && uri !in Play(NewTx(readOnly), moments[..k]).ops
    ensures Asked(Play(NewTx(readOnly), moments[..k]), moments[k], uri, CurrentETag(stores[k], uri))
    ensures CurrentETag(before, uri) == CurrentETag(stores[k], uri)
  {
    var tx := Play(NewTx(readOnly), moments);
    BatchPasses(tx, before);
    PublishesIffUnchanged(readOnly, moments, uri, before);
    k := CaptureWasAnswered(readOnly, moments, uri);
    hide Play, Captured, Published;
    AskedTruthfully(Play(NewTx(readOnly), moments[..k]), moments[k], stores[k], uri, CurrentETag(before, uri));
  }

  lemma AskedTruthfully(tx: Tx, m: Moment, store: Objects, uri: string, current: Option<ETag>)
    requires Asked(tx, m, uri, current) && TrueOf(m, store)
    ensures current == CurrentETag(store, uri)
  {
  }

  const Absent: Error := Error(NotFound, false)

  /** A put and then a delete of a URI the backend does not hold. */
  function PutThenDelete(uri: string, mine: Data): seq<Moment> {
    [Moment(PutCall(uri, mine, Unconditional), false, Err(Absent), Err(Absent)),
     Moment(DeleteCall(uri, Unconditional), false, Err(Absent), Err(Absent))]
  }

  lemma PutThenDeleteStages(uri: string, mine: Data)
    ensures Play(NewTx(false), PutThenDelete(uri, mine)) ==
              Tx(Active, false, false, map[uri := Staged(DeleteKind, "", Baseline(None))], [uri], map[], map[])
    ensures Captured(NewTx(false), PutThenDelete(uri, mine), uri) == Some(None)
  {
    var moments := PutThenDelete(uri, mine);
    var first, second := moments[0], moments[1];
    var tx0 := NewTx(false);
    assert moments[..1] == [first] && [first][..0] == [];
    assert Play(tx0, []) == tx0;
    var tx1 := Tx(Active, false, false, map[uri := Staged(PutKind, mine, Baseline(None))], [uri], map[], map[]);
    assert Call(tx0, first) == tx1;
    assert Play(tx0, [first]) == tx1;
    assert Captured(tx0, [], uri) == None;
    assert Captured(tx0, [first], uri) == Some(None);
    var tx2 := Tx(Active, false, false, map[uri := Staged(DeleteKind, "", Baseline(None))], [uri], map[], map[]);
    assert Call(tx1, second).ops == tx2.ops;
    assert Call(tx1, second) == tx2;
  }

  /** The exception is real: a URI absent at first, put and then deleted in the transaction, is deleted at
      commit although another writer has created it meanwhile. */
  lemma LostUpdateByDelete(uri: string, mine: Data, theirs: Data)
    ensures var moments := PutThenDelete(uri, mine);
            && Unconditioned(moments, uri) && Truthful(moments, [map[], map[]])
            && var objects := map[uri := Stored(theirs)];
               var tx := Play(NewTx(false), moments);
               Preparable(tx, objects) && tx.order == [uri] && uri in tx.ops
               && BatchRun(objects, [OpFor(tx, uri)]) == Ok(map[])
  {
    var moments := PutThenDelete(uri, mine);
    PutThenDeleteStages(uri, mine);
    var tx := Play(NewTx(false), moments);
    var objects := map[uri := Stored(theirs)];
    var ops := [OpFor(tx, uri)];
    assert ops[..0] == [];
    assert BatchRun(objects, ops) == BatchStep(objects, ops[0]);
    assert objects - {uri} == map[];
  }

  // ----- commit shows what the transaction showed -----

  lemma BatchURIs(tx: Tx)
    requires Orderly(tx)
    ensures DistinctURIs(BatchOf(tx, tx.order))
    ensures forall uri :: uri in tx.ops ==> OpFor(tx, uri) in BatchOf(tx, tx.order)
    ensures forall op :: op in BatchOf(tx, tx.order) ==> op.uri in tx.ops && op == OpFor(tx, op.uri)
  {
    var ops := BatchOf(tx, tx.order);
    forall uri | uri in tx.ops ensures OpFor(tx, uri) in ops {
      assert uri in tx.order;
      var i :| 0 <= i < |tx.order| && tx.order[i] == uri;
      assert ops[i] == OpFor(tx, uri);
    }
  }

  /** A staged operation reads through the transaction as its effect reads from the backend. */
  lemma ReadsAsEffect(tx: Tx, next: Objects, uri: string, get: Result<Object>)
    requires !tx.closed && uri in tx.ops && !tx.ops[uri].kind.UnknownKind?
    requires Lookup(next, uri) == Effect(OpFor(tx, uri))
    ensures ReadTx(tx, false, get, uri, Unconditional).1 == GetFrom(next, uri, Unconditional)
  {
  }

  lemma BatchPasses(tx: Tx, objects: Objects)
    requires Orderly(tx)
    ensures var r := BatchRun(objects, BatchOf(tx, tx.order));
            && (r.Ok? <==> forall uri :: uri in tx.ops ==> Passes(objects, OpFor(tx, uri)))
            && (r.Ok? ==> Overlays(objects, BatchOf(tx, tx.order), r.value))
  {
    BatchURIs(tx);
    BatchIsOverlay(objects, BatchOf(tx, tx.order));
    hide BatchRun, Passes;
    var ops := BatchOf(tx, tx.order);
    if forall op :: op in ops ==> Passes(objects, op) {
      assert forall uri :: uri in tx.ops ==> OpFor(tx, uri) in ops;
    }
  }

  lemma StagedReadsAlike(tx: Tx, objects: Objects, next: Objects, uri: string, get: Result<Object>)
    requires Orderly(tx) && !tx.closed && uri in tx.ops
    requires Overlays(objects, BatchOf(tx, tx.order), next)
    ensures ReadTx(tx, false, get, uri, Unconditional).1 == GetFrom(next, uri, Unconditional)
  {
    BatchURIs(tx);
    assert OpFor(tx, uri) in BatchOf(tx, tx.order);
    hide BatchOf;
    ReadsAsEffect(tx, next, uri, get);
  }

  lemma OthersReadAlike(tx: Tx, objects: Objects, next: Objects, uri: string)
    requires Orderly(tx) && uri !in tx.ops
    requires Overlays(objects, BatchOf(tx, tx.order), next)
    ensures Lookup(next, uri) == Lookup(objects, uri)
  {
    BatchURIs(tx);
    hide BatchOf;
  }

  /** When the batch goes through, every staged URI reads from the backend as it read from the transaction,
      and every other URI reads as before; and the batch goes through exactly when each staged operation would
      on its own. */
  lemma CommitShowsView(tx: Tx, objects: Objects, get: Result<Object>)
    requires Orderly(tx) && !tx.closed
    ensures var r := BatchRun(objects, BatchOf(tx, tx.order));
            && (r.Ok? <==> forall uri :: uri in tx.ops ==> Passes(objects, OpFor(tx, uri)))
            && (r.Ok? ==>
                  && (forall uri :: uri in tx.ops ==>
                        ReadTx(tx, false, get, uri, Unconditional).1 == GetFrom(r.value, uri, Unconditional))
                  && (forall uri :: uri !in tx.ops ==> Lookup(r.value, uri) == Lookup(objects, uri)))
  {
    BatchPasses(tx, objects);
    hide BatchRun, Passes, ReadTx, GetFrom, BatchOf, Overlays;
    var r := BatchRun(objects, BatchOf(tx, tx.order));
    if r.Ok? {
      forall uri | uri in tx.ops
        ensures ReadTx(tx, false, get, uri, Unconditional).1 == GetFrom(r.value, uri, Unconditional)
      {
        StagedReadsAlike(tx, objects, r.value, uri, get);
      }
      forall uri | uri !in tx.ops ensures Lookup(r.value, uri) == Lookup(objects, uri) {
        OthersReadAlike(tx, objects, r.value, uri);
      }
    }
  }
}
