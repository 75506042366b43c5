/** One call of TryAcquire, Renew, Release or IsHeld, cut at its storage operations. Between two
    storage operations the call is a pure function of the reply it got: Resume. */
module LockMachine {
  import opened Common
  import opened Leases

  datatype Purpose = Create | Claim | Renew | Release

  datatype Condition = IfAbsent | IfMatch(etag: ETag)

  /** A lease write the call has decided on. */
  datatype Intent = Intent(purpose: Purpose, lease: Lease, cond: Condition)

  datatype Operation = TryAcquire | Renewing(handle: Handle) | Releasing(handle: Handle) | IsHeld

  datatype Outcome =
    | Acquired(handle: Handle)
    | Renewed(handle: Handle)
    | Released
    | Observed(held: bool, lease: Option<Handle>)
    | Failed(code: Code)

  /** Where the call is: reading the lease its handle names, sending a write that has already failed
      `sends` times, reading back after a failed write, reading the lease another client created,
      or finished. */
  datatype Phase =
    | Fetch
    | Send(intent: Intent, sends: nat)
    | Recover(intent: Intent, error: Error)
    | Inspect(created: Lease)
    | Done(outcome: Outcome)

  datatype Call = Call(op: Operation, name: string, key: string, cfg: Config, now: int, phase: Phase)

  datatype Reply =
    | Stored(etag: ETag)
    | Refused(error: Error)
    | Found(lease: Lease, etag: ETag)
    | Missed(error: Error)

  /** What the surroundings supply when a call resumes: whether its context is still alive,
      the locker's clock, and a lease ID never drawn before. */
  datatype Env = Env(alive: bool, clock: int, freshID: nat)

  predicate Serves(op: Operation, purpose: Purpose) {
    match op
    case TryAcquire => purpose.Create? || purpose.Claim?
    case Renewing(_) => purpose.Renew?
    case Releasing(_) => purpose.Release?
    case IsHeld => false
  }

  predicate Coherent(c: Call) {
    match c.phase
    case Fetch => !c.op.TryAcquire?
    case Send(intent, _) => Serves(c.op, intent.purpose)
    case Recover(intent, _) => Serves(c.op, intent.purpose)
    case Inspect(_) => c.op.TryAcquire?
    case Done(_) => true
  }

  /** The kind of reply the call is waiting for. */
  predicate Expects(phase: Phase, reply: Reply) {
    match phase
    case Send(_, _) => reply.Stored? || reply.Refused?
    case Done(_) => false
    case _ => reply.Found? || reply.Missed?
  }

  function Begin(op: Operation, name: string, key: string, cfg: Config, now: int, freshID: nat): (c: Call)
    ensures Coherent(c)
  {
    var phase := if op.TryAcquire?
                 then Send(Intent(Create, FirstLease(name, cfg, now, freshID), IfAbsent), 0)
                 else Fetch;
    Call(op, name, key, cfg, now, phase)
  }

  /** The write is known to be in the store under `etag`: remember it and report success. */
  function Settle(c: Call, lease: Lease, etag: ETag): (r: (Call, Option<Observation>))
    requires !c.op.IsHeld?
    ensures Coherent(r.0)
  {
    var outcome :=
      match c.op
      case TryAcquire => Acquired(HandleFromLease(c.name, c.key, lease, etag))
      case Renewing(h) => Renewed(h.(etag := etag, expiresAt := lease.expiresAt))
      case Releasing(_) => Released;
    (c.(phase := Done(outcome)), Some(Observation(etag, c.now)))
  }

  /** The write failed for good and reading back did not find it. */
  function Reject(c: Call, intent: Intent, error: Error): (r: Call)
    requires Serves(c.op, intent.purpose)
    ensures Coherent(r)
  {
    match intent.purpose
    case Create =>
      if error.code == PreconditionFailed || error.code == AlreadyExists
      then c.(phase := Inspect(intent.lease))
      else c.(phase := Done(Failed(error.code)))
    case Claim =>
      if error.code == PreconditionFailed || error.code == NotFound
      then c.(phase := Done(Failed(LockHeld)))
      else c.(phase := Done(Failed(error.code)))
    case _ =>
      if error.code == PreconditionFailed || error.code == NotFound
      then c.(phase := Done(Failed(FencingTokenStale)))
      else c.(phase := Done(Failed(error.code)))
  }

  function OnWrite(c: Call, seen: Option<Observation>, reply: Reply, alive: bool)
    : (r: (Call, Option<Observation>))
    requires Coherent(c) && c.phase.Send? && Expects(c.phase, reply)
    ensures Coherent(r.0)
  {
    var Send(intent, sends) := c.phase;
    if reply.Stored? then
      Settle(c, intent.lease, reply.etag)
    else if !reply.error.retriable || sends >= c.cfg.maxRetries then
      (c.(phase := Recover(intent, reply.error)), seen)
    else if !alive then
      (c.(phase := Recover(intent, Error(Cancelled, false))), seen)
    else
      (c.(phase := Send(intent, sends + 1)), seen)
  }

  function OnRecover(c: Call, seen: Option<Observation>, reply: Reply): (r: (Call, Option<Observation>))
    requires Coherent(c) && c.phase.Recover? && Expects(c.phase, reply)
    ensures Coherent(r.0)
  {
    var Recover(intent, error) := c.phase;
    if reply.Found? && SameLeaseState(reply.lease, intent.lease)
    then Settle(c, intent.lease, reply.etag)
    else (Reject(c, intent, error), seen)
  }

  function OnInspect(c: Call, seen: Option<Observation>, reply: Reply, freshID: nat)
    : (r: (Call, Option<Observation>))
    requires Coherent(c) && c.phase.Inspect? && Expects(c.phase, reply)
    ensures Coherent(r.0)
  {
    match reply
    case Missed(error) =>
      (c.(phase := Done(Failed(if error.code == NotFound then LockHeld else error.code))), seen)
    case Found(existing, etag) =>
      var claim := Send(Intent(Claim, ClaimedLease(existing, c.name, c.cfg, c.now, freshID), IfMatch(etag)), 0);
      if existing.leaseID == c.phase.created.leaseID then
        Settle(c, existing, etag)
      else if !existing.held then
        (c.(phase := claim), seen)
      else if Expired(seen, etag, existing.duration, c.cfg.ttl, c.now, c.cfg.grace) then
        (c.(phase := claim), AfterLook(seen, etag, c.now))
      else
        (c.(phase := Done(Failed(LockHeld))), AfterLook(seen, etag, c.now))
  }

  function OnRenew(c: Call, seen: Option<Observation>, existing: Lease, etag: ETag)
    : (r: (Call, Option<Observation>))
    requires c.op.Renewing?
    ensures Coherent(r.0)
  {
    var h := c.op.handle;
    if existing.owner != h.owner || !existing.held then
      (c.(phase := Done(Failed(LockNotHeld))), seen)
    else if existing.version != h.token || etag != h.etag then
      (c.(phase := Done(Failed(FencingTokenStale))), seen)
    else if Expired(seen, etag, existing.duration, c.cfg.ttl, c.now, c.cfg.grace) then
      (c.(phase := Done(Failed(LockExpired))), AfterLook(seen, etag, c.now))
    else
      var intent := Intent(Renew, RenewedLease(existing, c.cfg, c.now), IfMatch(h.etag));
      (c.(phase := Send(intent, 0)), AfterLook(seen, etag, c.now))
  }

  function OnRelease(c: Call, seen: Option<Observation>, existing: Lease, etag: ETag)
    : (r: (Call, Option<Observation>))
    requires c.op.Releasing?
    ensures Coherent(r.0)
  {
    var h := c.op.handle;
    if existing.owner != h.owner || existing.version != h.token || !existing.held || etag != h.etag then
      (c.(phase := Done(Failed(FencingTokenStale))), seen)
    else
      var intent := Intent(Release, ReleasedLease(existing, c.now), IfMatch(h.etag));
      (c.(phase := Send(intent, 0)), seen)
  }

  function OnIsHeld(c: Call, seen: Option<Observation>, lease: Lease, etag: ETag, clock: int)
    : (r: (Call, Option<Observation>))
    ensures Coherent(r.0)
  {
    var handle := Some(HandleFromLease(c.name, c.key, lease, etag));
    if !lease.held then
      (c.(phase := Done(Observed(false, handle))), seen)
    else
      var free := Expired(seen, etag, lease.duration, c.cfg.ttl, clock, c.cfg.grace);
      (c.(phase := Done(Observed(!free, handle))), AfterLook(seen, etag, clock))
  }

  function OnFetch(c: Call, seen: Option<Observation>, reply: Reply, clock: int)
    : (r: (Call, Option<Observation>))
    requires Coherent(c) && c.phase.Fetch? && Expects(c.phase, reply)
    ensures Coherent(r.0)
  {
    match reply
    case Missed(error) =>
      var outcome := if error.code != NotFound then Failed(error.code)
                     else if c.op.IsHeld? then Observed(false, None)
                     else Failed(LockNotHeld);
      (c.(phase := Done(outcome)), seen)
    case Found(existing, etag) =>
      match c.op
      case Renewing(_) => OnRenew(c, seen, existing, etag)
      case Releasing(_) => OnRelease(c, seen, existing, etag)
      case IsHeld => OnIsHeld(c, seen, existing, etag, clock)
  }

  /** Run the call from one storage reply to its next storage operation, or to its end. */
  function Resume(c: Call, seen: Option<Observation>, reply: Reply, env: Env)
    : (r: (Call, Option<Observation>))
    requires Coherent(c) && Expects(c.phase, reply)
    ensures Coherent(r.0)
  {
    match c.phase
    case Fetch => OnFetch(c, seen, reply, env.clock)
    case Send(_, _) => OnWrite(c, seen, reply, env.alive)
    case Recover(_, _) => OnRecover(c, seen, reply)
    case Inspect(_) => OnInspect(c, seen, reply, env.freshID)
  }
}
