/** What staging and reading through a transaction mean: when a call is accepted, what the last accepted call
    for a URI leaves to be published, and what a read shows. */
module StagingMeaning {
  import opened Common
  import opened Conditions
  import opened MockStorages
  import opened AtomicBatches
  import opened Staging
  import opened StagingTheorems

  // ----- when a staging call is accepted -----

  /** Why the transaction takes no staging calls at all. */
  function Closed(tx: Tx, expired: bool): Option<Code> {
    if tx.closed then Some(TransactionClosed)
    else if expired then Some(Timeout)
    else if tx.state != Active then Some(TransactionClosed)
    else if tx.readOnly then Some(InvalidOperation)
    else None
  }

  /** A put is accepted exactly if the transaction takes staging calls, the object's state can be told, and the
      put's conditions hold of what the transaction itself would show for the URI. */
  lemma PutAcceptedIff(tx: Tx, expired: bool, head: Result<ETag>, uri: string, data: Data, conds: Conditions)
    requires Orderly(tx)
    ensures var err := StagePut(tx, expired, head, uri, data, conds).1;
            if Closed(tx, expired).Some? then err == Closed(tx, expired)
            else
              match HeadTx(tx, false, head, uri).1
              case Ok(etag) =>
                err == if MatchHolds(Some(etag), conds.ifMatch) && NoneMatchHolds(Some(etag), conds.ifNoMatch) then None
                       else Some(PreconditionFailed)
              case Err(error) =>
                err == if error.code != NotFound then Some(error.code)
                       else if MatchHolds(None, conds.ifMatch) && NoneMatchHolds(None, conds.ifNoMatch) then None
                       else Some(PreconditionFailed)
  {
    match LookupETag(tx, uri, head)
    case Ok(current) => ConditionsMeaning(current, conds);
    case Err(_) =>
  }

  /** A delete is accepted exactly if moreover the object is there. */
  lemma DeleteAcceptedIff(tx: Tx, expired: bool, head: Result<ETag>, uri: string, conds: Conditions)
    requires Orderly(tx)
    ensures var err := StageDelete(tx, expired, head, uri, conds).1;
            if Closed(tx, expired).Some? then err == Closed(tx, expired)
            else
              match HeadTx(tx, false, head, uri).1
              case Ok(etag) => err == if MatchHolds(Some(etag), conds.ifMatch) then None else Some(PreconditionFailed)
              case Err(error) =>
                err == if error.code != NotFound then Some(error.code)
                       else if MatchHolds(None, conds.ifMatch) then Some(NotFound)
                       else Some(PreconditionFailed)
  {
    match LookupETag(tx, uri, head)
    case Ok(current) => ConditionsMeaning(current, conds);
    case Err(_) =>
  }

  // ----- what is staged in the end -----

  predicate Accepted(tx: Tx, m: Moment, uri: string) {
    && m.event.uri == uri
    && match m.event
       case PutCall(_, data, conds) => StagePut(tx, m.expired, m.head, uri, data, conds).1.None?
       case DeleteCall(_, conds) => StageDelete(tx, m.expired, m.head, uri, conds).1.None?
       case _ => false
  }

  /** The last call that staged the URI. */
  function LastAccepted(readOnly: bool, moments: seq<Moment>, uri: string): (last: Option<nat>)
    ensures last.Some? ==> last.value < |moments|
    decreases |moments|
  {
    if moments == [] then None
    else if Accepted(Play(NewTx(readOnly), moments[..|moments| - 1]), moments[|moments| - 1], uri) then
      Some(|moments| - 1)
    else LastAccepted(readOnly, moments[..|moments| - 1], uri)
  }

  /** The put or delete asks for something itself, so that nothing is inherited. */
  predicate OwnConditions(e: Event) {
    match e
    case PutCall(_, _, conds) => conds.ifMatch != Unset || conds.ifNoMatch != Unset
    case DeleteCall(_, conds) => conds.ifMatch != Unset
    case _ => false
  }

  /** The staged operation does what the call asked for. */
  predicate AsAsked(e: Event, op: Staged) {
    match e
    case PutCall(_, data, conds) => op.kind == PutKind && op.data == data && (OwnConditions(e) ==> op.conds == conds)
    case DeleteCall(_, conds) => op.kind == DeleteKind && (OwnConditions(e) ==> op.conds == conds)
    case _ => false
  }

  lemma CallAsAsked(tx: Tx, m: Moment, uri: string)
    ensures Accepted(tx, m, uri) ==> uri in Call(tx, m).ops && AsAsked(m.event, Call(tx, m).ops[uri])
    ensures !Accepted(tx, m, uri) ==> Lookup(Call(tx, m).ops, uri) == Lookup(tx.ops, uri)
  {
    match m.event
    case PutCall(_, _, _) => hide StageDelete, ReadTx, HeadTx;
    case DeleteCall(_, _) => hide StagePut, ReadTx, HeadTx;
    case GetCall(_, _) => hide StagePut, StageDelete, HeadTx;
    case HeadCall(_) => hide StagePut, StageDelete, ReadTx;
  }

  /** A URI is staged exactly if some staging call for it was accepted, and what is staged is what the last of
      these asked for: its kind, its content, and its conditions if it gave any. */
  lemma {:induction false} LastAcceptedCounts(readOnly: bool, moments: seq<Moment>, uri: string)
    ensures var tx, last := Play(NewTx(readOnly), moments), LastAccepted(readOnly, moments, uri);
            && (uri in tx.ops <==> last.Some?)
            && (last.Some? ==> uri in tx.ops && AsAsked(moments[last.value].event, tx.ops[uri]))
    decreases |moments|
  {
    hide Call, Accepted, AsAsked;
    if moments != [] {
      var front, m := moments[..|moments| - 1], moments[|moments| - 1];
      LastAcceptedCounts(readOnly, front, uri);
      CallAsAsked(Play(NewTx(readOnly), front), m, uri);
    }
  }

  // ----- what a commit does with it -----

  /** The caller's own conditions, as the backend would judge them. */
  predicate Holds(e: Event, current: Option<ETag>) {
    match e
    case PutCall(_, _, conds) => MatchHolds(current, conds.ifMatch) && NoneMatchHolds(current, conds.ifNoMatch)
    case DeleteCall(_, conds) => MatchHolds(current, conds.ifMatch) && current.Some?
    case _ => true
  }

  /** An operation last staged with conditions of its own goes through exactly if these hold of the object by
      then. */
  lemma {:induction false} OwnConditionsDecide(readOnly: bool, moments: seq<Moment>, uri: string, objects: Objects)
    requires var last := LastAccepted(readOnly, moments, uri); last.Some? && OwnConditions(moments[last.value].event)
    ensures var tx, e := Play(NewTx(readOnly), moments), moments[LastAccepted(readOnly, moments, uri).value].event;
            uri in tx.ops && (Passes(objects, OpFor(tx, uri)) <==> Holds(e, CurrentETag(objects, uri)))
  {
    LastAcceptedCounts(readOnly, moments, uri);
    var op := Play(NewTx(readOnly), moments).ops[uri];
    hide Play, LastAccepted;
    ConditionsMeaning(CurrentETag(objects, uri), op.conds);
  }

  /** The object a URI holds once the call has been published. */
  function Left(e: Event): Option<Object> {
    if e.PutCall? then Some(Object(e.data, Digest(e.data))) else None
  }

  /** A successful commit leaves each staged URI as the last accepted call for it asked, and every other as it was;
      and where that call gave conditions, they held of the object that was replaced. */
  lemma {:induction false} CommitDoesAsAsked(readOnly: bool, moments: seq<Moment>, before: Objects, after: Objects,
                                             uri: string)
    requires Published(Play(NewTx(readOnly), moments), before, after)
    ensures match LastAccepted(readOnly, moments, uri)
            case None => Lookup(after, uri) == Lookup(before, uri)
            case Some(k) =>
              && Lookup(after, uri) == Left(moments[k].event)
              && (OwnConditions(moments[k].event) ==> Holds(moments[k].event, CurrentETag(before, uri)))
  {
    LastAcceptedCounts(readOnly, moments, uri);
    var tx, last := Play(NewTx(readOnly), moments), LastAccepted(readOnly, moments, uri);
    BatchPasses(tx, before);
    hide BatchRun;
    if last.Some? {
      BatchURIs(tx);
      assert OpFor(tx, uri) in BatchOf(tx, tx.order);
      if OwnConditions(moments[last.value].event) {
        OwnConditionsDecide(readOnly, moments, uri, before);
      }
    } else {
      OthersReadAlike(tx, before, after, uri);
    }
  }

  // ----- what a read shows -----

  /** What the transaction holds for the URI: staged content, a staged delete, cached content, or nothing. */
  function Held(tx: Tx, uri: string): Option<Option<Object>> {
    if uri in tx.ops then
      Some(if tx.ops[uri].kind == PutKind then Some(Object(tx.ops[uri].data, Digest(tx.ops[uri].data))) else None)
    else if uri in tx.items && uri in tx.meta then Some(Some(Object(tx.items[uri], tx.meta[uri])))
    else None
  }

  /** A read answers from what the transaction holds, under the same rule for tags as the backend, and else gives
      the backend's answer, which it caches if it is an object. */
  lemma ReadAnswers(tx: Tx, expired: bool, get: Result<Object>, uri: string, conds: Conditions)
    requires Orderly(tx)
    ensures var (tx', r) := ReadTx(tx, expired, get, uri, conds);
            if tx.closed then tx' == tx && r == Err(Error(TransactionClosed, false))
            else if expired then tx' == tx && r == Err(Error(Timeout, false))
            else
              match Held(tx, uri)
              case Some(None) => tx' == tx && r == Err(Error(NotFound, false))
              case Some(Some(found)) =>
                && tx' == tx
                && r == if !MatchTagHolds(found.etag, conds.ifMatch) then Err(Error(PreconditionFailed, false))
                        else if !NoneMatchTagHolds(found.etag, conds.ifNoMatch) then Err(Error(NotModified, false))
                        else Ok(found)
              case None =>
                && r == get
                && (get.Ok? ==>
                      tx' == tx.(items := tx.items[uri := get.value.data], meta := tx.meta[uri := get.value.etag]))
                && (get.Err? ==> tx' == tx)
  {
    match Held(tx, uri)
    case Some(Some(found)) => ConditionsMeaning(Some(found.etag), conds);
    case _ =>
  }

  lemma HeadAnswers(tx: Tx, expired: bool, head: Result<ETag>, uri: string)
    requires Orderly(tx)
    ensures var (tx', r) := HeadTx(tx, expired, head, uri);
            if tx.closed then tx' == tx && r == Err(Error(TransactionClosed, false))
            else if expired then tx' == tx && r == Err(Error(Timeout, false))
            else if uri in tx.ops then
              && tx' == tx
              && r == if tx.ops[uri].kind == PutKind then Ok(Digest(tx.ops[uri].data)) else Err(Error(NotFound, false))
            else if uri in tx.meta then tx' == tx && r == Ok(tx.meta[uri])
            else r == head && tx' == if head.Ok? then tx.(meta := tx.meta[uri := head.value]) else tx
  {
  }

  lemma CachedStays(tx: Tx, m: Moment, uri: string)
    requires uri in tx.items && uri in tx.meta && uri !in Call(tx, m).ops
    ensures Lookup(Call(tx, m).items, uri) == Some(tx.items[uri]) && Lookup(Call(tx, m).meta, uri) == Some(tx.meta[uri])
    ensures uri !in tx.ops
  {
    match m.event
    case PutCall(_, _, _) => hide StageDelete, ReadTx, HeadTx;
    case DeleteCall(_, _) => hide StagePut, ReadTx, HeadTx;
    case GetCall(_, _) => hide StagePut, StageDelete, HeadTx;
    case HeadCall(_) => hide StagePut, StageDelete, ReadTx;
  }

  /** Reads are repeatable: what a transaction has once read it goes on reading, whatever others write, until it
      stages the URI itself. */
  lemma {:induction false} ReadsAreRepeatable(tx: Tx, moments: seq<Moment>, uri: string)
    requires uri in tx.items && uri in tx.meta && uri !in Play(tx, moments).ops
    ensures uri !in tx.ops
    ensures Held(Play(tx, moments), uri) == Held(tx, uri) == Some(Some(Object(tx.items[uri], tx.meta[uri])))
    decreases |moments|
  {
    if moments != [] {
      var front, m := moments[..|moments| - 1], moments[|moments| - 1];
      UnstagedBefore(Play(tx, front), m, uri);
      hide Call;
      ReadsAreRepeatable(tx, front, uri);
      CachedStays(Play(tx, front), m, uri);
    }
  }

  lemma UnstagedBefore(tx: Tx, m: Moment, uri: string)
    requires uri !in Call(tx, m).ops
    ensures uri !in tx.ops
  {
    CallShape(tx, m);
  }
}
