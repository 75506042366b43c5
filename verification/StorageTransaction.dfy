/** StorageTransaction as the object it is, over the in-memory backend and the transaction coordinator. */
module StorageTransactions {
  import opened Common
  import opened Conditions
  import opened MockStorages
  import opened AtomicBatches
  import opened Staging
  import opened StagingTheorems

  class TransactionCoordinator {
    var transactions: set<string>

    constructor ()
      ensures transactions == {}
    {
      transactions := {};
    }

    method RegisterTransaction(id: string)
      modifies this
      ensures transactions == old(transactions) + {id}
    {
      transactions := transactions + {id};
    }

    method UnregisterTransaction(id: string)
      modifies this
      ensures transactions == old(transactions) - {id}
    {
      transactions := transactions - {id};
    }
  }

  /** What the hooks run before and after Prepare and before publishing return. */
  datatype Hooks = Hooks(prePrepare: Option<Code>, postPrepare: Option<Code>, preCommit: Option<Code>)

  class StorageTransaction {
    const id: string
    const storage: MockStorage
    const coordinator: TransactionCoordinator
    const readOnly: bool
    const allowPartial: bool
    const atomicBatches: bool
    var state: TxState
    var closed: bool
    var operations: map<string, Staged>
    var opOrder: seq<string>
    var items: map<string, Data>
    var metadata: map<string, ETag>

    function View(): Tx
      reads this
    {
      Tx(state, closed, readOnly, operations, opOrder, items, metadata)
    }

    /** The overlay is in order, and the coordinator knows the transaction exactly while it is not closed. */
    ghost predicate Valid()
      reads this, coordinator
    {
      Orderly(View()) && (id in coordinator.transactions <==> !closed)
    }

    constructor (id: string, storage: MockStorage, coordinator: TransactionCoordinator, readOnly: bool,
                 allowPartial: bool, atomicBatches: bool)
      modifies coordinator
      ensures Valid() && View() == NewTx(readOnly)
      ensures this.id == id && this.storage == storage && this.coordinator == coordinator
      ensures this.allowPartial == allowPartial && this.atomicBatches == atomicBatches
      ensures coordinator.transactions == old(coordinator.transactions) + {id}
    {
      this.id := id;
      this.storage := storage;
      this.coordinator := coordinator;
      this.readOnly := readOnly;
      this.allowPartial := allowPartial;
      this.atomicBatches := atomicBatches;
      state, closed := Active, false;
      operations, opOrder, items, metadata := map[], [], map[], map[];
      new;
      coordinator.RegisterTransaction(id);
    }

    function HeadAnswer(uri: string): Result<ETag>
      reads storage
    {
      if Hits(storage.fault, uri) then Err(storage.fault.value.error) else HeadOf(storage.objects, uri)
    }

    function GetAnswer(uri: string, conds: Conditions): Result<Object>
      reads storage
    {
      if Hits(storage.fault, uri) then Err(storage.fault.value.error) else GetFrom(storage.objects, uri, conds)
    }

    method LookupForCondition(uri: string) returns (r: Result<Option<ETag>>)
      modifies this`metadata, storage`fault
      ensures r == old(LookupETag(View(), uri, HeadAnswer(uri)))
      ensures View() == old(AfterLookup(View(), uri, HeadAnswer(uri)))
    {
      if uri in operations {
        return Ok(if operations[uri].kind.PutKind? then Some(Digest(operations[uri].data)) else None);
      }
      if uri in metadata {
        return Ok(Some(metadata[uri]));
      }
      var head := storage.Head(uri);
      if head.Err? {
        if head.error.code == NotFound {
          return Ok(None);
        }
        return Err(head.error);
      }
      metadata := metadata[uri := head.value];
      return Ok(Some(head.value));
    }

    /** Record the operation and, the first time, the URI's place in the order. */
    method Record(uri: string, op: Staged)
      modifies this`operations, this`opOrder
      ensures View() == Stage(old(View()), uri, op)
    {
      operations := operations[uri := op];
      var inOrder := false;
      for i := 0 to |opOrder|
        invariant !inOrder && uri !in opOrder[..i]
      {
        if opOrder[i] == uri {
          inOrder := true;
          break;
        }
      }
      if !inOrder {
        assert opOrder[..|opOrder|] == opOrder;
        opOrder := opOrder + [uri];
      }
    }

    method Put(uri: string, data: Data, conds: Conditions, expired: bool) returns (err: Option<Code>)
      requires Valid()
      modifies this`operations, this`opOrder, this`metadata, storage`fault
      ensures Valid()
      ensures (View(), err) == old(StagePut(View(), expired, HeadAnswer(uri), uri, data, conds))
    {
      CallKeepsOrder(View(), Moment(PutCall(uri, data, conds), expired, HeadAnswer(uri), Err(Absent)));
      if CheckState(View(), expired).Some? {
        return CheckState(View(), expired);
      }
      if state != Active {
        return Some(TransactionClosed);
      }
      if readOnly {
        return Some(InvalidOperation);
      }
      ghost var before := View();
      var found := LookupForCondition(uri);
      if found.Err? {
        return Some(found.error.code);
      }
      var refused := ApplyConditionalPut(found.value, conds);
      if refused.Some? {
        return refused;
      }
      var resolved := conds;
      if conds.ifMatch == Unset && conds.ifNoMatch == Unset {
        if uri in operations {
          resolved := operations[uri].conds;
        } else if found.value.Some? {
          resolved := conds.(ifMatch := Tag(found.value.value));
        } else {
          resolved := conds.(ifNoMatch := Tag(Star));
        }
      }
      Record(uri, Staged(PutKind, data, resolved));
      return None;
    }

    method Delete(uri: string, conds: Conditions, expired: bool) returns (err: Option<Code>)
      requires Valid()
      modifies this`operations, this`opOrder, this`metadata, storage`fault
      ensures Valid()
      ensures (View(), err) == old(StageDelete(View(), expired, HeadAnswer(uri), uri, conds))
    {
      CallKeepsOrder(View(), Moment(DeleteCall(uri, conds), expired, HeadAnswer(uri), Err(Absent)));
      if CheckState(View(), expired).Some? {
        return CheckState(View(), expired);
      }
      if state != Active {
        return Some(TransactionClosed);
      }
      if readOnly {
        return Some(InvalidOperation);
      }
      var found := LookupForCondition(uri);
      if found.Err? {
        return Some(found.error.code);
      }
      var refused := ApplyConditionalDelete(found.value, conds);
      if refused.Some? {
        return refused;
      }
      if found.value.None? {
        return Some(NotFound);
      }
      var resolved := conds;
      if conds.ifMatch == Unset {
        if uri in operations {
          resolved := operations[uri].conds;
        } else {
          resolved := conds.(ifMatch := Tag(found.value.value));
        }
      }
      Record(uri, Staged(DeleteKind, "", resolved));
      return None;
    }

    method Get(uri: string, conds: Conditions, expired: bool) returns (r: Result<Object>)
      requires Valid()
      modifies this`items, this`metadata, storage`fault
      ensures Valid()
      ensures (View(), r) == old(ReadTx(View(), expired, GetAnswer(uri, conds), uri, conds))
    {
      CallKeepsOrder(View(), Moment(GetCall(uri, conds), expired, Err(Absent), GetAnswer(uri, conds)));
      if CheckState(View(), expired).Some? {
        return Err(Error(CheckState(View(), expired).value, false));
      }
      if uri in operations && operations[uri].kind.DeleteKind? {
        return Err(Error(NotFound, false));
      }
      if uri in operations && operations[uri].kind.PutKind? {
        return Conditional(Stored(operations[uri].data), conds);
      }
      if uri in items {
        return Conditional(Object(items[uri], metadata[uri]), conds);
      }
      r := storage.Get(uri, conds);
      if r.Ok? {
        items := items[uri := r.value.data];
        metadata := metadata[uri := r.value.etag];
      }
    }

    method Head(uri: string, expired: bool) returns (r: Result<ETag>)
      requires Valid()
      modifies this`metadata, storage`fault
      ensures Valid()
      ensures (View(), r) == old(HeadTx(View(), expired, HeadAnswer(uri), uri))
    {
      CallKeepsOrder(View(), Moment(HeadCall(uri), expired, HeadAnswer(uri), Err(Absent)));
      if CheckState(View(), expired).Some? {
        return Err(Error(CheckState(View(), expired).value, false));
      }
      if uri in operations && operations[uri].kind.DeleteKind? {
        return Err(Error(NotFound, false));
      }
      if uri in operations && operations[uri].kind.PutKind? {
        return Ok(Digest(operations[uri].data));
      }
      if uri in metadata {
        return Ok(metadata[uri]);
      }
      r := storage.Head(uri);
      if r.Ok? {
        metadata := metadata[uri := r.value];
      }
    }

    /** A failure that concerns a staged operation. */
    ghost predicate Threatened(fault: Option<Fault>)
      reads this
    {
      exists uri :: uri in operations && Hits(fault, uri)
    }

    /** Ask the backend about every staged operation, in no particular order. */
    method ValidateOperations() returns (err: Option<Code>)
      requires Valid()
      modifies storage`fault
      ensures err.None? ==> Preparable(View(), storage.objects)
      ensures !old(Threatened(storage.fault)) ==>
                storage.fault == old(storage.fault) && (err.None? <==> Preparable(View(), storage.objects))
      ensures old(Threatened(storage.fault)) && old(storage.fault).value.error.code != NotFound ==> err.Some?
    {
      var left := operations.Keys;
      while left != {}
        invariant left <= operations.Keys
        invariant forall uri :: uri in operations && uri !in left && operations[uri].kind.DeleteKind? ==>
                    uri in storage.objects
        invariant !old(Threatened(storage.fault)) ==> storage.fault == old(storage.fault)
        invariant old(storage.fault).Some? && old(storage.fault).value.error.code != NotFound ==>
                    && storage.fault == old(storage.fault)
                    && forall uri :: uri in operations && uri !in left ==> !Hits(storage.fault, uri)
        decreases left
      {
        var uri :| uri in left;
        left := left - {uri};
        var head := storage.Head(uri);
        if head.Err? && (operations[uri].kind.DeleteKind? || head.error.code != NotFound) {
          return Some(head.error.code);
        }
      }
      return None;
    }

    /** Prepare changes nothing but the state: to preparing if every check passes, to aborted if one fails. */
    method Prepare(hooks: Hooks) returns (err: Option<Code>)
      requires Valid()
      modifies this`state, storage`fault
      ensures Valid()
      ensures View() == old(View()).(state := state)
      ensures old(state) != Active ==> err == Some(InvalidOperation) && state == old(state)
      ensures old(state) == Active ==> state == (if err.None? then Preparing else Aborted)
      ensures err.None? ==> Preparable(View(), storage.objects)
      ensures old(state) == Active && !old(Threatened(storage.fault)) ==>
                && storage.fault == old(storage.fault)
                && (err.None? <==>
                      hooks.prePrepare.None? && hooks.postPrepare.None? && Preparable(View(), storage.objects))
      ensures old(Threatened(storage.fault)) && old(storage.fault).value.error.code != NotFound ==> err.Some?
    {
      if state != Active {
        return Some(InvalidOperation);
      }
      state := Preparing;
      if hooks.prePrepare.Some? {
        state := Aborted;
        return hooks.prePrepare;
      }
      err := ValidateOperations();
      if err.Some? {
        state := Aborted;
        return;
      }
      if hooks.postPrepare.Some? {
        state := Aborted;
        return hooks.postPrepare;
      }
    }

    /** One staged operation, tried up to five times while its error is retriable. An error means no effect. */
    method ApplyOperationWithRetry(uri: string, alive: bool) returns (err: Option<Error>)
      requires Valid() && uri in operations
      modifies storage
      ensures Progress(storage.objects, storage.fault, err) ==
                Attempted(old(storage.objects), old(storage.fault), OpFor(View(), uri), alive)
    {
      var op := operations[uri];
      var attempt := 1;
      err := None;
      while attempt <= 5
        invariant 1 <= attempt <= 2
        invariant storage.objects == old(storage.objects)
        invariant attempt == 1 ==> storage.fault == old(storage.fault)
        invariant attempt == 2 ==>
                    && storage.fault.None? && alive
                    && Hits(old(storage.fault), uri) && old(storage.fault).value.error.retriable
      {
        if op.kind.PutKind? {
          var r := storage.Put(uri, op.data, op.conds);
          err := if r.Err? then Some(r.error) else None;
        } else {
          err := storage.Delete(uri, op.conds);
        }
        if err.None? {
          return;
        }
        if !(attempt < 5 && err.value.retriable) {
          return;
        }
        if !alive {
          return Some(Error(Cancelled, false));
        }
        attempt := attempt + 1;
      }
    }

    /** The staged operations in order, each on its own; unless partial commits are allowed the first error
        ends the loop. */
    method ApplyInOrder(alive: bool) returns (err: Option<Error>)
      requires Valid() && (allowPartial || |opOrder| <= 1)
      modifies storage
      ensures Progress(storage.objects, storage.fault, err) ==
                AttemptedAll(old(storage.objects), old(storage.fault), BatchOf(View(), opOrder), alive)
    {
      hide Attempted, AttemptedAll, BatchOf;
      err := None;
      ghost var start, ops := Progress(storage.objects, storage.fault, None), BatchOf(View(), opOrder);
      NothingAttempted(start.objects, start.fault, ops, alive);
      for i := 0 to |opOrder|
        invariant Progress(storage.objects, storage.fault, err) ==
                    AttemptedAll(start.objects, start.fault, ops[..i], alive)
      {
        OneMoreAttempted(start.objects, start.fault, ops, i, alive);
        var failed := ApplyOperationWithRetry(opOrder[i], alive);
        if failed.Some? {
          err := failed;
          if !allowPartial {
            assert ops[..i + 1] == ops;
            return;
          }
        }
      }
      assert ops[..|ops|] == ops;
    }

    /** Nothing stands in the way of publishing but the operations themselves: no failure is armed, or one that is
        retried, which is so unless they are published as a batch. */
    ghost predicate Unhindered(alive: bool)
      reads this, storage
    {
      storage.fault.None? || (Bearable(storage.fault, alive) && (|opOrder| <= 1 || allowPartial))
    }

    /** The publishing half of Commit: one batch, or one operation after the other. */
    method Publish(alive: bool) returns (err: Option<Error>)
      requires Valid()
      modifies storage
      ensures err.None? ==> BatchRun(old(storage.objects), BatchOf(View(), opOrder)) == Ok(storage.objects)
      ensures !allowPartial && err.Some? ==> storage.objects == old(storage.objects)
      ensures old(storage.fault.None?) ==> storage.fault.None?
      ensures old(Unhindered(alive)) ==>
                && (allowPartial ==> storage.objects == SkipRun(old(storage.objects), BatchOf(View(), opOrder)))
                && (err.None? <==>
                      && (|opOrder| > 1 && !allowPartial ==> atomicBatches)
                      && BatchRun(old(storage.objects), BatchOf(View(), opOrder)).Ok?)
    {
      hide BatchRun, SkipRun, AttemptedAll;
      if |opOrder| > 1 && !allowPartial {
        if !atomicBatches {
          return Some(Error(Unsupported, false));
        }
        var batch := [];
        for i := 0 to |opOrder|
          invariant |batch| == i && forall j :: 0 <= j < i ==> batch[j] == OpFor(View(), opOrder[j])
        {
          var op := operations[opOrder[i]];
          batch := batch + [BatchOp(op.kind, opOrder[i], op.data, op.conds)];
        }
        assert batch == BatchOf(View(), opOrder);
        err := storage.ApplyAtomicBatch(batch);
      } else {
        AttemptedMeans(storage.objects, storage.fault, BatchOf(View(), opOrder), alive);
        err := ApplyInOrder(alive);
      }
    }

    /** The part of Commit after Prepare: the last hook, the publication and the end. */
    method Conclude(preCommit: Option<Code>, alive: bool) returns (err: Option<Code>)
      requires Valid() && state == Preparing
      modifies this`state, this`closed, this`operations, this`opOrder, storage, coordinator
      ensures Valid()
      ensures coordinator.transactions - {id} == old(coordinator.transactions) - {id}
      ensures state.Committed? || state.Aborted? || state.RolledBack?
      ensures state.RolledBack? <==> preCommit.Some?
      ensures state == Committed ==> View() == old(View()).(state := Committed, closed := true)
      ensures err.None? ==> state == Committed && Published(old(View()), old(storage.objects), storage.objects)
      ensures !allowPartial && err.Some? ==> storage.objects == old(storage.objects) && state != Committed
      ensures preCommit.Some? ==> err.Some? && storage.objects == old(storage.objects)
      ensures old(Unhindered(alive)) && preCommit.None? ==>
                && (err.None? <==> Publishable(old(View()), old(storage.objects)))
                && (allowPartial ==>
                      state == Committed && PartlyPublished(old(View()), old(storage.objects), storage.objects))
    {
      hide BatchRun, SkipRun, Orderly;
      state := Committing;
      OrderlyInAnyState(old(View()), View());
      if preCommit.Some? {
        var _ := Rollback();
        return preCommit;
      }
      var failed := Publish(alive);
      if failed.Some? && !allowPartial {
        state := Aborted;
        OrderlyInAnyState(old(View()), View());
        return Some(failed.value.code);
      }
      state := Committed;
      closed := true;
      coordinator.UnregisterTransaction(id);
      OrderlyInAnyState(old(View()), View());
      return if failed.Some? then Some(failed.value.code) else None;
    }

    /** The objects became the old ones with those staged operations applied that still pass. */
    ghost predicate PartlyPublished(tx: Tx, before: Objects, after: Objects) {
      Orderly(tx) && SkipRun(before, BatchOf(tx, tx.order)) == after
    }

    /** The backend can publish the overlay: every operation passes, and several of them only as a batch. */
    ghost predicate Publishable(tx: Tx, objects: Objects) {
      && Orderly(tx)
      && (|tx.order| > 1 && !allowPartial ==> atomicBatches)
      && BatchRun(objects, BatchOf(tx, tx.order)).Ok?
    }

    /** Commit without partial commits publishes the whole overlay or nothing at all; with them, every
        operation that still passes. */
    method Commit(hooks: Hooks, alive: bool) returns (err: Option<Code>)
      requires Valid()
      modifies this`state, this`closed, this`operations, this`opOrder, storage, coordinator
      ensures Valid()
      ensures coordinator.transactions - {id} == old(coordinator.transactions) - {id}
      ensures old(state) != Active && old(state) != Preparing ==>
                err.Some? && View() == old(View()) && storage.objects == old(storage.objects)
      ensures old(state) == Active || old(state) == Preparing ==>
                state.Committed? || state.Aborted? || state.RolledBack?
      ensures state == Committed ==> View() == old(View()).(state := Committed, closed := true)
      ensures err.None? ==> state == Committed && Published(old(View()), old(storage.objects), storage.objects)
      ensures !allowPartial && err.Some? ==>
                storage.objects == old(storage.objects) && (old(state) != Committed ==> state != Committed)
      ensures old(storage.fault.None?) && old(state) == Active ==>
                && (err.None? <==>
                      && hooks == Hooks(None, None, None)
                      && Preparable(old(View()), old(storage.objects))
                      && Publishable(old(View()), old(storage.objects)))
                && if allowPartial && state == Committed
                   then PartlyPublished(old(View()), old(storage.objects), storage.objects)
                   else err.Some? ==> storage.objects == old(storage.objects)
      ensures old(state) == Preparing && hooks.preCommit.None? && old(Unhindered(alive)) ==>
                && (err.None? <==> Publishable(old(View()), old(storage.objects)))
                && (allowPartial ==>
                      state == Committed && PartlyPublished(old(View()), old(storage.objects), storage.objects))
    {
      hide BatchRun, SkipRun, Orderly;
      if state != Active && state != Preparing {
        OrderlyInAnyState(View(), View());
        return Some(if closed || state == Committed || state == RolledBack || state == Aborted then TransactionClosed
                    else InvalidOperation);
      }
      if state == Active {
        err := Prepare(hooks);
        if err.Some? {
          return;
        }
        OrderlyInAnyState(old(View()), View());
      }
      err := Conclude(hooks.preCommit, alive);
    }

    /** Rollback discards the overlay and closes the transaction, unless it is closed already. */
    method Rollback() returns (err: Option<Code>)
      requires Valid()
      modifies this`state, this`closed, this`operations, this`opOrder, coordinator
      ensures Valid()
      ensures coordinator.transactions - {id} == old(coordinator.transactions) - {id}
      ensures old(closed) ==> err == Some(TransactionClosed) && View() == old(View())
      ensures !old(closed) ==>
                err.None? && View() == old(View()).(state := RolledBack, closed := true, ops := map[], order := [])
    {
      if closed || state == Committed || state == RolledBack {
        return Some(TransactionClosed);
      }
      operations := map[];
      opOrder := [];
      state := RolledBack;
      closed := true;
      coordinator.UnregisterTransaction(id);
      return None;
    }
  }

  /** Several transactions with distinct IDs share a coordinator, each is in order, and the coordinator
      holds exactly those that are not closed. */
  ghost predicate Registry(coordinator: TransactionCoordinator, txs: set<StorageTransaction>)
    reads coordinator, txs
  {
    && (forall tx :: tx in txs ==> tx.coordinator == coordinator && tx.Valid())
    && (forall tx, tx' :: tx in txs && tx' in txs && tx != tx' ==> tx.id != tx'.id)
    && coordinator.transactions == set tx | tx in txs && !tx.closed :: tx.id
  }

  /** Whatever one of them does within its contract, the coordinator still holds exactly the open ones. */
  twostate lemma OneMovesRegistryStays(coordinator: TransactionCoordinator, txs: set<StorageTransaction>,
                                       tx: StorageTransaction)
    requires old(Registry(coordinator, txs)) && tx in txs && tx.Valid()
    requires coordinator.transactions - {tx.id} == old(coordinator.transactions) - {tx.id}
    requires forall other :: other in txs && other != tx ==> unchanged(other)
    ensures Registry(coordinator, txs)
  {
    forall other | other in txs && other != tx ensures other.Valid() {
      assert old(other.Valid());
      assert other.id in coordinator.transactions - {tx.id} <==> other.id in old(coordinator.transactions) - {tx.id};
    }
    forall id ensures id in coordinator.transactions <==> id in (set t | t in txs && !t.closed :: t.id) {
      if id == tx.id {
        assert tx.Valid();
      } else {
        assert id in coordinator.transactions - {tx.id} <==> id in old(coordinator.transactions) - {tx.id};
      }
    }
  }

  /** A new transaction with an ID of its own joins the registry. */
  twostate lemma NewcomerJoinsRegistry(coordinator: TransactionCoordinator, txs: set<StorageTransaction>,
                                       new tx: StorageTransaction)
    requires old(Registry(coordinator, txs)) && forall other :: other in txs ==> other.id != tx.id && unchanged(other)
    requires tx.Valid() && tx.coordinator == coordinator && !tx.closed
    requires coordinator.transactions == old(coordinator.transactions) + {tx.id}
    ensures Registry(coordinator, txs + {tx})
  {
    assert forall other :: other in txs ==> old(other.Valid()) && other.Valid();
    hide Orderly;
    var open := set t | t in txs + {tx} && !t.closed :: t.id;
    forall id ensures id in coordinator.transactions <==> id in open {
      if id == tx.id {
        assert tx in txs + {tx};
      } else if id in coordinator.transactions {
        var other :| other in txs && !old(other.closed) && other.id == id;
        assert other in txs + {tx};
      }
    }
  }

  lemma NothingAttempted(objects: Objects, fault: Option<Fault>, ops: seq<BatchOp>, alive: bool)
    ensures AttemptedAll(objects, fault, ops[..0], alive) == Progress(objects, fault, None)
  {
  }

  lemma OneMoreAttempted(objects: Objects, fault: Option<Fault>, ops: seq<BatchOp>, i: nat, alive: bool)
    requires i < |ops|
    ensures var before := AttemptedAll(objects, fault, ops[..i], alive);
            var last := Attempted(before.objects, before.fault, ops[i], alive);
            AttemptedAll(objects, fault, ops[..i + 1], alive) ==
              if last.err.None? then last.(err := before.err) else last
  {
    assert ops[..i + 1][..i] == ops[..i];
  }

  /** No failure is armed, or one that costs a retry only. */
  predicate Bearable(fault: Option<Fault>, alive: bool) {
    fault.None? || (fault.value.error.retriable && alive)
  }

  /** Without an error the operations did what the batch does; with at most one operation an error means that
      nothing happened; and with no failure armed, or one that is retried, they do what the operations that pass
      do. */
  lemma {:induction false} AttemptedMeans(objects: Objects, fault: Option<Fault>, ops: seq<BatchOp>, alive: bool)
    ensures var p := AttemptedAll(objects, fault, ops, alive);
            && (p.err.None? ==> BatchRun(objects, ops) == Ok(p.objects))
            && (p.err.Some? && |ops| <= 1 ==> p.objects == objects)
            && (fault.None? ==> p.fault.None?)
            && (Bearable(fault, alive) ==>
                  && Bearable(p.fault, alive)
                  && p.objects == SkipRun(objects, ops)
                  && (p.err.None? <==> BatchRun(objects, ops).Ok?))
    decreases |ops|
  {
    if ops != [] {
      AttemptedMeans(objects, fault, ops[..|ops| - 1], alive);
    }
  }

  /** Neither the order kept nor the batch published depends on the state. */
  lemma OrderlyInAnyState(tx: Tx, tx': Tx)
    requires Orderly(tx) && tx' == tx.(state := tx'.state, closed := tx'.closed)
    ensures tx.closed <==> tx.state.Committed? || tx.state.RolledBack?
    ensures (tx'.closed <==> tx'.state.Committed? || tx'.state.RolledBack?) ==> Orderly(tx')
    ensures forall uri :: uri in tx.order ==> uri in tx.ops
    ensures BatchOf(tx, tx.order) == BatchOf(tx', tx'.order)
  {
    BatchIgnoresState(tx, tx', tx.order);
  }

  /** The batch depends on the staged operations only. */
  lemma {:induction false} BatchIgnoresState(tx: Tx, tx': Tx, order: seq<string>)
    requires tx.ops == tx'.ops && forall uri :: uri in order ==> uri in tx.ops
    ensures BatchOf(tx, order) == BatchOf(tx', order)
  {
    if order != [] {
      BatchIgnoresState(tx, tx', order[..|order| - 1]);
    }
  }
}
