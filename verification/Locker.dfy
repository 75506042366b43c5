/** Locker as the object it is: a table of observations updated in place, handles updated by renewal,
    and methods that talk to the lease store. Each method is proved to do exactly what the lock machine
    does against the same surroundings. */
module Lockers {
  import opened Common
  import opened Leases
  import opened LockMachine
  import opened LockDriver

  class LockHandle {
    const name: string
    const key: string
    const owner: string
    const token: int
    const acquiredAt: int
    var etag: ETag
    var expiresAt: int

    constructor (name: string, key: string, lease: Lease, etag: ETag)
      ensures Value() == HandleFromLease(name, key, lease, etag)
    {
      this.name := name;
      this.key := key;
      this.owner := lease.owner;
      this.token := lease.version;
      this.acquiredAt := lease.acquiredAt;
      this.etag := etag;
      this.expiresAt := lease.expiresAt;
    }

    function Value(): Handle
      reads this
    {
      Handle(name, key, owner, token, etag, expiresAt, acquiredAt)
    }
  }

  /** The typed store, the clock, the ID source and the context of one locker. The script says what each
      interaction meets; `at` counts them and `slept` records the pauses asked for. */
  class LeaseStore {
    const script: Script
    const capable: bool
    var at: nat
    var slept: seq<int>

    constructor (script: Script, capable: bool)
      ensures this.script == script && this.capable == capable && at == 0 && slept == []
    {
      this.script := script;
      this.capable := capable;
      at := 0;
      slept := [];
    }

    /** A call arrives: the surroundings have moved on. */
    method Arrive()
      modifies this`at
      ensures at == old(at) + 1
    {
      at := at + 1;
    }

    method Sleep(d: int)
      modifies this`at, this`slept
      ensures at == old(at) + 1 && slept == old(slept) + [d]
    {
      at := at + 1;
      slept := slept + [d];
    }

    function ReadClock(): int
      requires at > 0
      reads this`at
    {
      script.clock(at - 1)
    }

    function DrawID(): nat
      requires at > 0
      reads this`at
    {
      script.freshID(at - 1)
    }

    predicate ContextAlive()
      requires at > 0
      reads this`at
    {
      script.alive(at - 1)
    }

    method Get() returns (r: GetReply)
      modifies this`at
      ensures r == script.get(old(at)) && at == old(at) + 1
    {
      r := script.get(at);
      at := at + 1;
    }

    method SendPut(lease: Lease, cond: Condition) returns (r: PutReply)
      modifies this`at
      ensures r == script.put(old(at)) && at == old(at) + 1
    {
      r := script.put(at);
      at := at + 1;
    }

    /** Put and Create: one write under the default retrier. */
    method Put(lease: Lease, cond: Condition, maxRetries: int) returns (r: PutReply)
      modifies this`at
      ensures PutResult(r, at) == Resend(old(at), 0, maxRetries, script)
      ensures old(at) < at <= old(at) + Max(0, maxRetries) + 1
      ensures r.Stored? ==> r == script.put(at - 1)
    {
      ghost var start := at;
      ResendBounded(start, 0, maxRetries, script);
      r := SendPut(lease, cond);
      if r.Stored? || !r.error.retriable {
        return;
      }
      var attempt := 0;
      while attempt < maxRetries
        invariant at > 0 && r.Refused? && r.error.retriable && r == script.put(at - 1)
        invariant attempt == 0 || attempt <= maxRetries
        invariant at == start + attempt + 1
        invariant Resend(start, 0, maxRetries, script) == Resend(at - 1, attempt, maxRetries, script)
      {
        if !ContextAlive() {
          r := Refused(Error(Cancelled, false));
          return;
        }
        r := SendPut(lease, cond);
        if r.Stored? || !r.error.retriable {
          return;
        }
        attempt := attempt + 1;
      }
    }
  }

  class Locker {
    const store: LeaseStore
    const keyPrefix: string
    const safePath: string -> bool
    const base: Config
    var observed: map<string, Observation>

    constructor (store: LeaseStore, keyPrefix: string, safePath: string -> bool, base: Config)
      ensures this.store == store && this.keyPrefix == keyPrefix && this.base == base && observed == map[]
    {
      this.store := store;
      this.keyPrefix := keyPrefix;
      this.safePath := safePath;
      this.base := base;
      observed := map[];
    }

    function LockKey(name: string): string {
      keyPrefix + name
    }

    predicate ValidLockKey(name: string, key: string) {
      name != "" && safePath(key)
    }

    /** The error TryAcquire returns before it touches the store, if any. */
    function Refusal(name: string, cfg: Config): (r: Option<Code>)
      ensures r.None? <==>
                && cfg.owner != "" && cfg.ttl > 0 && cfg.grace >= 0 && cfg.retryDelay > 0 && cfg.maxDelay > 0
                && store.capable && name != "" && safePath(LockKey(name))
      ensures r == Some(Unsupported) <==> cfg.Valid() && !store.capable
    {
      if !cfg.Valid() then Some(InvalidOperation)
      else if !store.capable then Some(Unsupported)
      else if !ValidLockKey(name, LockKey(name)) then Some(InvalidOperation)
      else None
    }

    /** What the lock machine makes of an operation begun now. */
    ghost function Driven(op: Operation, name: string, key: string, cfg: Config): Progress
      reads this, store
    {
      Drive(Launch(op, name, key, cfg, Lookup(observed, key), store.at, store.script), store.script)
    }

    method CanTakeOver(key: string, etag: ETag, persistedTTL: int, fallbackTTL: int, now: int, grace: int)
      returns (free: bool)
      modifies this`observed
      ensures free == Expired(Lookup(old(observed), key), etag, persistedTTL, fallbackTTL, now, grace)
      ensures observed == Remember(old(observed), key, AfterLook(Lookup(old(observed), key), etag, now))
    {
      var ttl := persistedTTL;
      if ttl <= 0 {
        ttl := fallbackTTL;
      }
      if key !in observed || observed[key].etag != etag || now < observed[key].firstSeen {
        observed := observed[key := Observation(etag, now)];
        return false;
      }
      return !(now < observed[key].firstSeen + (ttl + grace));
    }

    method RecordObservation(key: string, etag: ETag, now: int)
      modifies this`observed
      ensures observed == Remember(old(observed), key, Some(Observation(etag, now)))
    {
      observed := observed[key := Observation(etag, now)];
    }

    /** Whether the store now holds exactly the lease a failed write was meant to leave there. */
    method RecoverLeaseWrite(expected: Lease) returns (recovered: bool, reply: GetReply)
      modifies store`at
      ensures reply == store.script.get(old(store.at)) && store.at == old(store.at) + 1
      ensures recovered <==> reply.Found? && reply.lease == expected
    {
      reply := store.Get();
      recovered := reply.Found? && SameLeaseState(reply.lease, expected);
    }

    /** A lease write and, if it failed for good, the read-back: the ETag the lease is stored under, or the
        code of the write's error. */
    method WriteLease(ghost p: Progress, intent: Intent, maxRetries: int) returns (etag: Option<ETag>, code: Code)
      requires Coherent(p.call) && p.call.phase == Send(intent, 0) && p.at == store.at
      requires !intent.purpose.Create? && p.call.cfg.maxRetries == maxRetries
      modifies store`at
      ensures var r := Drive(p, store.script);
              && store.at == r.at
              && if etag.Some? then (r.call, r.seen) == Settle(p.call, intent.lease, etag.value)
                 else r.call == Reject(p.call, intent, Error(code, false)) && r.seen == p.seen
    {
      DriveSends(p, store.script);
      ghost var q := AfterSends(p, Resend(p.at, 0, maxRetries, store.script));
      var put := store.Put(intent.lease, intent.cond, maxRetries);
      if put.Stored? {
        return Some(put.etag), NotFound;
      }
      assert Drive(q, store.script) == Step(q, store.script);
      var recovered, back := RecoverLeaseWrite(intent.lease);
      if recovered {
        return Some(back.etag), NotFound;
      }
      return None, put.error.code;
    }

    method TryAcquire(name: string, cfg: Config) returns (handle: LockHandle?, err: Option<Code>)
      modifies this`observed, store`at
      ensures handle != null <==> err.None?
      ensures handle != null ==> fresh(handle)
      ensures Refusal(name, cfg).Some? ==>
                err == Refusal(name, cfg) && observed == old(observed) && store.at == old(store.at)
      ensures Refusal(name, cfg).None? ==>
                var p := old(Driven(LockMachine.TryAcquire, name, LockKey(name), cfg));
                && observed == Remember(old(observed), LockKey(name), p.seen) && store.at == p.at
                && Lookup(observed, LockKey(name)) == p.seen
                && FinalOutcome(p) == if handle != null then Acquired(handle.Value()) else Failed(err.value)
    {
      handle := null;
      if !cfg.Valid() {
        return null, Some(InvalidOperation);
      }
      if !store.capable {
        return null, Some(Unsupported);
      }
      var key := LockKey(name);
      if !ValidLockKey(name, key) {
        return null, Some(InvalidOperation);
      }
      ghost var p := Launch(LockMachine.TryAcquire, name, key, cfg, Lookup(observed, key), store.at, store.script);
      store.Arrive();
      var now := store.ReadClock();
      var lease := FirstLease(name, cfg, now, store.DrawID());

      assert p.at == store.at && p.call.phase == Send(Intent(Create, lease, IfAbsent), 0);
      DriveSends(p, store.script);
      p := AfterSends(p, Resend(p.at, 0, cfg.maxRetries, store.script));
      var made := store.Put(lease, IfAbsent, cfg.maxRetries);
      assert p.at == store.at;
      if made.Stored? {
        RecordObservation(key, made.etag, now);
        handle := new LockHandle(name, key, lease, made.etag);
        return handle, None;
      }
      ghost var q := Step(p, store.script);
      var recovered, back := RecoverLeaseWrite(lease);
      assert q.at == store.at;
      if recovered {
        RecordObservation(key, back.etag, now);
        handle := new LockHandle(name, key, lease, back.etag);
        return handle, None;
      }
      if made.error.code != PreconditionFailed && made.error.code != AlreadyExists {
        return null, Some(made.error.code);
      }
      assert q.call.phase == Inspect(lease) && q.seen == Lookup(observed, key);
      handle, err := TryClaim(q, name, key, cfg, now, lease);
    }

    /** The second half of TryAcquire: somebody else's lease is there. */
    method TryClaim(ghost p: Progress, name: string, key: string, cfg: Config, now: int, lease: Lease)
      returns (handle: LockHandle?, err: Option<Code>)
      requires p == Progress(Call(LockMachine.TryAcquire, name, key, cfg, now, Inspect(lease)),
                             Lookup(observed, key), store.at)
      modifies this`observed, store`at
      ensures handle != null <==> err.None?
      ensures handle != null ==> fresh(handle)
      ensures var r := Drive(p, store.script);
              && observed == Remember(old(observed), key, r.seen) && store.at == r.at
              && Lookup(observed, key) == r.seen
              && FinalOutcome(r) == if handle != null then Acquired(handle.Value()) else Failed(err.value)
    {
      ghost var q := Step(p, store.script);
      assert Drive(p, store.script) == Drive(q, store.script);
      var current := store.Get();
      if current.Missed? {
        return null, Some(if current.error.code == NotFound then LockHeld else current.error.code);
      }
      var existing := current.lease;
      if existing.leaseID == lease.leaseID {
        RecordObservation(key, current.etag, now);
        handle := new LockHandle(name, key, existing, current.etag);
        return handle, None;
      }
      if existing.held {
        var free := CanTakeOver(key, current.etag, existing.duration, cfg.ttl, now, cfg.grace);
        if !free {
          return null, Some(LockHeld);
        }
      }
      var claimed := ClaimedLease(existing, name, cfg, now, store.DrawID());
      var etag, code := WriteLease(q, Intent(Claim, claimed, IfMatch(current.etag)), cfg.maxRetries);
      if etag.None? {
        return null, Some(if code == PreconditionFailed || code == NotFound then LockHeld else code);
      }
      RecordObservation(key, etag.value, now);
      handle := new LockHandle(name, key, claimed, etag.value);
      return handle, None;
    }

    /** Attempt until the lock is acquired, an attempt fails for another reason, or the context ends: at the
        latest while waiting for the `patience` + 1st time. */
    method Acquire(name: string, cfg: Config, patience: nat) returns (handle: LockHandle?, err: Option<Code>)
      modifies this`observed, store`at, store`slept
      ensures handle != null <==> err.None?
      ensures Refusal(name, cfg).Some? ==> err == Refusal(name, cfg) && observed == old(observed)
      ensures Refusal(name, cfg).None? ==>
                var r := old(AcquireRun(name, LockKey(name), cfg, Lookup(observed, LockKey(name)), store.at,
                                        cfg.retryDelay, patience, store.script));
                && observed == Remember(old(observed), LockKey(name), r.seen) && store.at == r.at
                && store.slept == old(store.slept) + r.waits
                && r.outcome == if handle != null then Acquired(handle.Value()) else Failed(err.value)
    {
      hide Drive, AcquireRun, Remember, Launch, FinalOutcome;
      RememberSelf(observed, LockKey(name));
      handle := null;
      if !cfg.Valid() {
        return null, Some(InvalidOperation);
      }
      var delay := cfg.retryDelay;
      ghost var key := LockKey(name);
      ghost var whole := AcquireRun(name, key, cfg, Lookup(observed, key), store.at, delay, patience, store.script);
      var left := patience;
      ghost var waits := [];
      while true
        invariant Refusal(name, cfg).Some? ==> observed == old(observed) && left == patience
        invariant Refusal(name, cfg).None? ==>
          var rest := AcquireRun(name, key, cfg, Lookup(observed, key), store.at, delay, left, store.script);
          && rest.outcome == whole.outcome && rest.at == whole.at && rest.seen == whole.seen
          && waits + rest.waits == whole.waits
        invariant observed == Remember(old(observed), key, Lookup(observed, key))
        invariant store.slept == old(store.slept) + waits
        decreases left
      {
        AcquireUnfolds(name, key, cfg, Lookup(observed, key), store.at, delay, left, store.script);
        ghost var before := observed;
        handle, err := TryAcquire(name, cfg);
        RememberTwice(old(observed), before, key, Lookup(observed, key));
        if handle != null {
          return handle, None;
        }
        if err != Some(LockHeld) {
          return null, err;
        }
        store.Sleep(delay);
        waits := waits + [delay];
        if left == 0 || !store.ContextAlive() {
          return null, Some(Cancelled);
        }
        var next := delay * 2;
        if next > cfg.maxDelay {
          next := cfg.maxDelay;
        }
        delay := next;
        left := left - 1;
      }
    }

    /** Whether the handle may still act on the lease read under this ETag. */
    method ValidateHandle(handle: LockHandle, existing: Lease, etag: ETag, now: int, cfg: Config)
      returns (err: Option<Code>)
      modifies this`observed
      ensures var c := Call(Renewing(handle.Value()), handle.name, handle.key, cfg, now, Fetch);
              var (call, seen) := OnRenew(c, Lookup(old(observed), handle.key), existing, etag);
              && observed == Remember(old(observed), handle.key, seen)
              && (err.Some? ==> call.phase == Done(Failed(err.value)))
              && (err.None? ==>
                    && etag == handle.etag
                    && call.phase ==
                         Send(Intent(LockMachine.Renew, RenewedLease(existing, cfg, now), IfMatch(etag)), 0))
    {
      if existing.owner != handle.owner || !existing.held {
        return Some(LockNotHeld);
      }
      if existing.version != handle.token {
        return Some(FencingTokenStale);
      }
      if etag != handle.etag {
        return Some(FencingTokenStale);
      }
      var free := CanTakeOver(handle.key, etag, existing.duration, cfg.ttl, now, cfg.grace);
      return if free then Some(LockExpired) else None;
    }

    /** Renew checks the handle against the record, then extends the lease under the handle's ETag. */
    method Renew(handle: LockHandle?, cfg: Config) returns (err: Option<Code>)
      modifies this`observed, store`at, handle
      ensures handle == null || !ValidLockKey(handle.name, handle.key) || !cfg.Valid() ==>
                err == Some(InvalidOperation) && observed == old(observed) && store.at == old(store.at)
                && (handle != null ==> handle.Value() == old(handle.Value()))
      ensures handle != null && ValidLockKey(handle.name, handle.key) && cfg.Valid() ==>
                var p := old(Driven(Renewing(handle.Value()), handle.name, handle.key, cfg));
                && observed == Remember(old(observed), handle.key, p.seen) && store.at == p.at
                && (if err.None? then FinalOutcome(p) == Renewed(handle.Value())
                    else FinalOutcome(p) == Failed(err.value) && handle.Value() == old(handle.Value()))
    {
      if handle == null {
        return Some(InvalidOperation);
      }
      if !ValidLockKey(handle.name, handle.key) || !cfg.Valid() {
        return Some(InvalidOperation);
      }
      ghost var p := Launch(Renewing(handle.Value()), handle.name, handle.key, cfg, Lookup(observed, handle.key),
                            store.at, store.script);
      store.Arrive();
      var now := store.ReadClock();
      DriveUnfolds(p, store.script);
      ghost var q := Step(p, store.script);
      DriveUnfolds(q, store.script);
      var current := store.Get();
      if current.Missed? {
        return Some(if current.error.code == NotFound then LockNotHeld else current.error.code);
      }
      err := Extend(q, handle, current.lease, current.etag, now, cfg);
    }

    /** The second half of Renew: the lease has been read. */
    method Extend(ghost q: Progress, handle: LockHandle, existing: Lease, etag: ETag, now: int, cfg: Config)
      returns (err: Option<Code>)
      requires q.at == store.at
      requires (q.call, q.seen) == OnRenew(Call(Renewing(handle.Value()), handle.name, handle.key, cfg, now, Fetch),
                                           Lookup(observed, handle.key), existing, etag)
      modifies this`observed, store`at, handle
      ensures var r := Drive(q, store.script);
              && observed == Remember(old(observed), handle.key, r.seen) && store.at == r.at
              && (if err.None? then FinalOutcome(r) == Renewed(handle.Value())
                  else FinalOutcome(r) == Failed(err.value) && handle.Value() == old(handle.Value()))
    {
      err := ValidateHandle(handle, existing, etag, now, cfg);
      if err.Some? {
        return;
      }
      var updated := RenewedLease(existing, cfg, now);
      var stored, code := WriteLease(q, Intent(LockMachine.Renew, updated, IfMatch(handle.etag)), cfg.maxRetries);
      if stored.None? {
        return Some(if code == PreconditionFailed || code == NotFound then FencingTokenStale else code);
      }
      handle.etag := stored.value;
      handle.expiresAt := updated.expiresAt;
      RecordObservation(handle.key, handle.etag, now);
      return None;
    }

    /** Release checks the handle against the record, then marks the lease free under the handle's ETag. */
    method Release(handle: LockHandle?) returns (err: Option<Code>)
      modifies this`observed, store`at
      ensures handle == null || !ValidLockKey(handle.name, handle.key) ==>
                err == Some(InvalidOperation) && observed == old(observed) && store.at == old(store.at)
      ensures handle != null && ValidLockKey(handle.name, handle.key) ==>
                var p := old(Driven(Releasing(handle.Value()), handle.name, handle.key, base));
                && observed == Remember(old(observed), handle.key, p.seen) && store.at == p.at
                && FinalOutcome(p) == if err.None? then Released else Failed(err.value)
    {
      if handle == null || !ValidLockKey(handle.name, handle.key) {
        return Some(InvalidOperation);
      }
      var key := handle.key;
      ghost var p := Launch(Releasing(handle.Value()), handle.name, key, base, Lookup(observed, key), store.at,
                            store.script);
      store.Arrive();
      var now := store.ReadClock();
      ghost var q := Step(p, store.script);
      assert Drive(p, store.script) == Drive(q, store.script);
      var current := store.Get();
      if current.Missed? {
        return Some(if current.error.code == NotFound then LockNotHeld else current.error.code);
      }
      var existing := current.lease;
      if existing.owner != handle.owner || existing.version != handle.token || !existing.held {
        return Some(FencingTokenStale);
      }
      if current.etag != handle.etag {
        return Some(FencingTokenStale);
      }
      var released := ReleasedLease(existing, now);
      var etag, code := WriteLease(q, Intent(LockMachine.Release, released, IfMatch(handle.etag)), base.maxRetries);
      if etag.None? {
        return Some(if code == PreconditionFailed || code == NotFound then FencingTokenStale else code);
      }
      RecordObservation(key, etag.value, now);
      return None;
    }

    /** Whether somebody else would have to wait for the lock, and a handle describing the lease read. */
    method IsHeld(name: string) returns (held: bool, handle: LockHandle?, err: Option<Code>)
      modifies this`observed, store`at
      ensures handle != null ==> fresh(handle)
      ensures !ValidLockKey(name, LockKey(name)) ==> err == Some(InvalidOperation) && observed == old(observed)
      ensures ValidLockKey(name, LockKey(name)) ==>
                var p := old(Driven(LockMachine.IsHeld, name, LockKey(name), base));
                && observed == Remember(old(observed), LockKey(name), p.seen) && store.at == p.at
                && FinalOutcome(p) == if err.Some? then Failed(err.value)
                                      else Observed(held, if handle == null then None else Some(handle.Value()))
    {
      held, handle := false, null;
      var key := LockKey(name);
      if !ValidLockKey(name, key) {
        return false, null, Some(InvalidOperation);
      }
      ghost var p := Launch(LockMachine.IsHeld, name, key, base, Lookup(observed, key), store.at, store.script);
      store.Arrive();
      assert Drive(p, store.script) == Step(p, store.script);
      var current := store.Get();
      if current.Missed? {
        if current.error.code == NotFound {
          return false, null, None;
        }
        return false, null, Some(current.error.code);
      }
      var lease := current.lease;
      handle := new LockHandle(name, key, lease, current.etag);
      if !lease.held {
        return false, handle, None;
      }
      var free := CanTakeOver(key, current.etag, lease.duration, base.ttl, store.ReadClock(), base.grace);
      return !free, handle, None;
    }
  }
}
