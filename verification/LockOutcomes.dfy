/** What a call returns, told from the answers it got: when it succeeds, with what handle, and why it fails.
    Every statement is for all answers the surroundings may give. */
module LockOutcomes {
  import opened Common
  import opened Leases
  import opened LockMachine
  import opened LockDriver

  // ----- one write -----

  /** The retrier sends again only after an error that is retriable, with its context alive, and gives up only for
      a reason: an error that is not retriable, a context that has ended, or every retry used up. */
  lemma {:induction false} ResendGivesUpOnlyIf(k: nat, sends: nat, maxRetries: int, script: Script)
    ensures Resend(k, sends, maxRetries, script).at > k
    ensures var r := Resend(k, sends, maxRetries, script);
            var last := script.put(r.at - 1);
            && (forall i :: k <= i < r.at - 1 ==>
                  script.put(i).Refused? && script.put(i).error.retriable && script.alive(i))
            && if last.Stored? || !last.error.retriable || r.at - k == Max(0, maxRetries - sends) + 1 then
                 r.reply == last
               else !script.alive(r.at - 1) && r.reply.Refused? && r.reply.error.code == Cancelled
    decreases maxRetries - sends
  {
    ResendBounded(k, sends, maxRetries, script);
    var reply := script.put(k);
    if !(reply.Stored? || !reply.error.retriable || sends >= maxRetries || !script.alive(k)) {
      ResendGivesUpOnlyIf(k + 1, sends + 1, maxRetries, script);
    }
  }

  /** A write: stored, or refused and then found by the read-back all the same, or refused. */
  datatype Sending = Sending(result: PutResult, back: GetReply)

  function SendingAt(k: nat, maxRetries: int, script: Script): Sending {
    var r := Resend(k, 0, maxRetries, script);
    Sending(r, script.get(r.at))
  }

  /** The lease is known to have reached the store. */
  predicate Arrived(s: Sending, lease: Lease) {
    s.result.reply.Stored? || (s.back.Found? && s.back.lease == lease)
  }

  function ArrivedETag(s: Sending, lease: Lease): ETag
    requires Arrived(s, lease)
  {
    if s.result.reply.Stored? then s.result.reply.etag else s.back.etag
  }

  /** A write and its read-back take the call to success exactly when the lease has arrived. */
  lemma WriteEnds(p: Progress, intent: Intent, script: Script)
    requires Coherent(p.call) && p.call.phase == Send(intent, 0)
    ensures var s := SendingAt(p.at, p.call.cfg.maxRetries, script);
            var r := Drive(p, script);
            if Arrived(s, intent.lease) then
              (r.call, r.seen) == Settle(p.call, intent.lease, ArrivedETag(s, intent.lease))
            else r == Drive(Progress(Reject(p.call, intent, s.result.reply.error), p.seen, s.result.at + 1), script)
  {
    var s := SendingAt(p.at, p.call.cfg.maxRetries, script);
    DriveSends(p, script);
    var q := AfterSends(p, s.result);
    DriveUnfolds(q, script);
    if s.result.reply.Refused? {
      RecoverStep(q, intent, s.result.reply.error, script);
      hide Resend, Reject;
      DriveUnfolds(Step(q, script), script);
    }
  }

  lemma RecoverStep(q: Progress, intent: Intent, error: Error, script: Script)
    requires Coherent(q.call) && q.call.phase == Recover(intent, error)
    ensures var back := script.get(q.at);
            var next := Step(q, script);
            && next.at == q.at + 1
            && if back.Found? && back.lease == intent.lease then
                 (next.call, next.seen) == Settle(q.call, intent.lease, back.etag)
               else next.call == Reject(q.call, intent, error) && next.seen == q.seen
  {
    assert (Step(q, script).call, Step(q, script).seen) == OnRecover(q.call, q.seen, script.get(q.at));
  }

  // ----- TryAcquire -----

  /** This ETag has been watched for the lease's duration, or the contender's own if none is stored, and the
      grace on top. */
  predicate WatchOver(seen: Option<Observation>, etag: ETag, lease: Lease, cfg: Config, now: int) {
    && seen.Some? && seen.value.etag == etag && seen.value.firstSeen <= now
    && now >= seen.value.firstSeen + (if lease.duration > 0 then lease.duration else cfg.ttl) + cfg.grace
  }

  /** All that one call of TryAcquire may be told: the create and its read-back, the lease that is there, the
      claim and its read-back. */
  datatype Exchange = Exchange(create: Sending, look: GetReply, claim: Sending, claimID: nat)

  function ExchangeAt(at: nat, cfg: Config, script: Script): Exchange {
    var create := SendingAt(at + 1, cfg.maxRetries, script);
    var k := create.result.at + 1;
    Exchange(create, script.get(k), SendingAt(k + 1, cfg.maxRetries, script), script.freshID(k))
  }

  function Newborn(name: string, cfg: Config, now: int, id: nat): Lease {
    Lease(name, 1, cfg.owner, id, true, cfg.ttl, 1, now + cfg.ttl, now)
  }

  /** The lease after a takeover: the next token and revision, and otherwise like a new one. */
  function Successor(before: Lease, name: string, cfg: Config, now: int, id: nat): Lease {
    Newborn(name, cfg, now, id).(version := before.version + 1, revision := before.revision + 1)
  }

  /** The create was refused because there is a lease already. */
  predicate Occupied(x: Exchange, first: Lease) {
    && !Arrived(x.create, first)
    && (x.create.result.reply.error.code == PreconditionFailed || x.create.result.reply.error.code == AlreadyExists)
  }

  /** Somebody else's lease was read, and it is free to be claimed: released, or watched for long enough. */
  predicate Claimable(x: Exchange, first: Lease, seen: Option<Observation>, cfg: Config, now: int) {
    && Occupied(x, first) && x.look.Found? && x.look.lease.leaseID != first.leaseID
    && (!x.look.lease.held || WatchOver(seen, x.look.etag, x.look.lease, cfg, now))
  }

  /** The lease a successful call has acquired, and the ETag it is stored under. */
  function Won(x: Exchange, first: Lease, seen: Option<Observation>, name: string, cfg: Config, now: int)
    : Option<(Lease, ETag)>
  {
    if Arrived(x.create, first) then Some((first, ArrivedETag(x.create, first)))
    else if Occupied(x, first) && x.look.Found? && x.look.lease.leaseID == first.leaseID then
      Some((x.look.lease, x.look.etag))
    else if Claimable(x, first, seen, cfg, now) then
      var claimed := Successor(x.look.lease, name, cfg, now, x.claimID);
      if Arrived(x.claim, claimed) then Some((claimed, ArrivedETag(x.claim, claimed))) else None
    else None
  }

  /** Why a call that acquired nothing failed. */
  function Reason(x: Exchange, first: Lease, seen: Option<Observation>, cfg: Config, now: int): Code
    requires !Arrived(x.create, first)
  {
    if !Occupied(x, first) then x.create.result.reply.error.code
    else if x.look.Missed? && x.look.error.code != NotFound then x.look.error.code
    else if Claimable(x, first, seen, cfg, now) && x.claim.result.reply.Refused?
            && x.claim.result.reply.error.code !in {PreconditionFailed, NotFound}
    then x.claim.result.reply.error.code
    else LockHeld
  }

  /** The watch on a lease that is held by somebody else: it goes on while the ETag stays, and begins anew
      when it does not, or when the clock has been set back. */
  function WatchAfter(x: Exchange, first: Lease, seen: Option<Observation>, now: int): Option<Observation> {
    if Occupied(x, first) && x.look.Found? && x.look.lease.leaseID != first.leaseID && x.look.lease.held
       && !(seen.Some? && seen.value.etag == x.look.etag && seen.value.firstSeen <= now)
    then Some(Observation(x.look.etag, now))
    else seen
  }

  /** TryAcquire acquires the lock exactly if its create arrived, or the lease there turns out to be its own, or
      it was free to be claimed and the claim arrived; the handle describes that lease, and the locker
      remembers having seen it. Otherwise it fails, with the code of the last thing that went wrong. */
  lemma TryAcquireAnswers(name: string, key: string, cfg: Config, seen: Option<Observation>, at: nat, script: Script)
    ensures var p := Drive(Launch(TryAcquire, name, key, cfg, seen, at, script), script);
            var now := script.clock(at);
            var x, first := ExchangeAt(at, cfg, script), Newborn(name, cfg, now, script.freshID(at));
            match Won(x, first, seen, name, cfg, now)
            case Some((lease, etag)) =>
              && FinalOutcome(p) == Acquired(Handle(name, key, lease.owner, lease.version, etag,
                                                    lease.expiresAt, lease.acquiredAt))
              && p.seen == Some(Observation(etag, now))
            case None =>
              FinalOutcome(p) == Failed(Reason(x, first, seen, cfg, now)) && p.seen == WatchAfter(x, first, seen, now)
  {
    var p0 := Launch(TryAcquire, name, key, cfg, seen, at, script);
    var now := script.clock(at);
    var x, first := ExchangeAt(at, cfg, script), Newborn(name, cfg, now, script.freshID(at));
    WriteEnds(p0, Intent(Create, first, IfAbsent), script);
    if Occupied(x, first) {
      var p1 := Progress(p0.call.(phase := Inspect(first)), seen, x.create.result.at + 1);
      assert Drive(p0, script) == Drive(p1, script);
      InspectAnswers(p1, x, first, seen, script);
    } else if !Arrived(x.create, first) {
      var failed := Done(Failed(x.create.result.reply.error.code));
      var p1 := Progress(p0.call.(phase := failed), seen, x.create.result.at + 1);
      assert Drive(p0, script) == Drive(p1, script);
      DriveUnfolds(p1, script);
    }
  }

  lemma InspectAnswers(p: Progress, x: Exchange, first: Lease, seen: Option<Observation>, script: Script)
    requires p.call.op == TryAcquire && p.call.phase == Inspect(first) && p.seen == seen
    requires Occupied(x, first) && x.look == script.get(p.at) && x.claimID == script.freshID(p.at)
    requires x.claim == SendingAt(p.at + 1, p.call.cfg.maxRetries, script)
    ensures var r := Drive(p, script);
            match Won(x, first, seen, p.call.name, p.call.cfg, p.call.now)
            case Some((lease, etag)) =>
              && FinalOutcome(r) == Acquired(Handle(p.call.name, p.call.key, lease.owner, lease.version, etag,
                                                    lease.expiresAt, lease.acquiredAt))
              && r.seen == Some(Observation(etag, p.call.now))
            case None =>
              && FinalOutcome(r) == Failed(Reason(x, first, seen, p.call.cfg, p.call.now))
              && r.seen == WatchAfter(x, first, seen, p.call.now)
  {
    var q := Step(p, script);
    assert (q.call, q.seen) == OnInspect(p.call, seen, x.look, x.claimID);
    DriveUnfolds(p, script);
    DriveUnfolds(q, script);
    if Claimable(x, first, seen, p.call.cfg, p.call.now) {
      var claimed := Successor(x.look.lease, p.call.name, p.call.cfg, p.call.now, x.claimID);
      assert q.call.phase == Send(Intent(Claim, claimed, IfMatch(x.look.etag)), 0);
      ClaimAnswers(q, x, claimed, script);
    }
  }

  lemma ClaimAnswers(q: Progress, x: Exchange, claimed: Lease, script: Script)
    requires q.call.op == TryAcquire && q.call.phase.Send? && q.call.phase.sends == 0
    requires q.call.phase.intent.purpose.Claim? && q.call.phase.intent.lease == claimed
    requires x.claim == SendingAt(q.at, q.call.cfg.maxRetries, script)
    ensures var r := Drive(q, script);
            if Arrived(x.claim, claimed) then
              var etag := ArrivedETag(x.claim, claimed);
              && FinalOutcome(r) == Acquired(Handle(q.call.name, q.call.key, claimed.owner, claimed.version, etag,
                                                    claimed.expiresAt, claimed.acquiredAt))
              && r.seen == Some(Observation(etag, q.call.now))
            else
              var code := x.claim.result.reply.error.code;
              && FinalOutcome(r) == Failed(if code == PreconditionFailed || code == NotFound then LockHeld else code)
              && r.seen == q.seen
  {
    WriteEnds(q, q.call.phase.intent, script);
    if !Arrived(x.claim, claimed) {
      var rejected := Reject(q.call, q.call.phase.intent, x.claim.result.reply.error);
      DriveUnfolds(Progress(rejected, q.seen, x.claim.result.at + 1), script);
    }
  }

  /** A released lock is there for the taking: with the create refused, the released lease read and the claim
      stored, TryAcquire returns the lock with the next token. */
  lemma ReleasedLockIsClaimed(name: string, key: string, cfg: Config, seen: Option<Observation>, at: nat,
                              script: Script, l: Lease)
    requires var x := ExchangeAt(at, cfg, script);
             && x.create.result.reply.Refused? && x.create.result.reply.error.code == PreconditionFailed
             && x.create.back.Found? && x.create.back.lease == l && x.look.Found? && x.look.lease == l
             && !l.held && l.leaseID != script.freshID(at)
             && x.claim.result.reply.Stored?
    ensures var outcome := FinalOutcome(Drive(Launch(TryAcquire, name, key, cfg, seen, at, script), script));
            outcome.Acquired? && outcome.handle.token == l.version + 1 && outcome.handle.owner == cfg.owner
  {
    TryAcquireAnswers(name, key, cfg, seen, at, script);
  }

  /** TryAcquire answers that the lock is held only if the lease read was held with its watch unfinished, the
      record was gone, or its claim was refused because the lease had changed or gone; or if the store itself
      reported that code. */
  lemma HeldOnlyIf(name: string, key: string, cfg: Config, seen: Option<Observation>, at: nat, script: Script)
    requires FinalOutcome(Drive(Launch(TryAcquire, name, key, cfg, seen, at, script), script)) == Failed(LockHeld)
    ensures var x := ExchangeAt(at, cfg, script);
            || (x.look.Found? && x.look.lease.held
                && !WatchOver(seen, x.look.etag, x.look.lease, cfg, script.clock(at)))
            || (x.look.Missed? && x.look.error.code in {NotFound, LockHeld})
            || (x.claim.result.reply.Refused?
                && x.claim.result.reply.error.code in {PreconditionFailed, NotFound, LockHeld})
            || (x.create.result.reply.Refused? && x.create.result.reply.error.code == LockHeld)
  {
    TryAcquireAnswers(name, key, cfg, seen, at, script);
  }

  // ----- Renew and Release -----

  /** What one call of Renew or Release may be told: the lease that is there, the write and its read-back. */
  datatype Update = Update(look: GetReply, write: Sending)

  function UpdateAt(at: nat, cfg: Config, script: Script): Update {
    Update(script.get(at + 1), SendingAt(at + 2, cfg.maxRetries, script))
  }

  /** The handle still is the record's: same owner, same token, same ETag, and the lease is held. */
  predicate Current(h: Handle, look: GetReply) {
    && look.Found? && look.lease.held && look.lease.owner == h.owner
    && look.lease.version == h.token && look.etag == h.etag
  }

  /** A holder's write that did not arrive: stale if the record had moved on, else the store's own error. */
  function Lost(s: Sending): Code
    requires s.result.reply.Refused?
  {
    var code := s.result.reply.error.code;
    if code == PreconditionFailed || code == NotFound then FencingTokenStale else code
  }

  /** The record once it is renewed: longer, one revision on, and otherwise the same. */
  function Renewal(l: Lease, cfg: Config, now: int): Lease {
    l.(duration := cfg.ttl, revision := l.revision + 1, expiresAt := now + cfg.ttl)
  }

  /** Renew succeeds exactly if the handle is current, its lease has not run out under its own holder's eyes, and
      the renewed lease arrives. The handle then gets the new ETag and expiry, and nothing else of it changes.
      Otherwise it fails for the first thing that is wrong. */
  lemma RenewAnswers(h: Handle, name: string, key: string, cfg: Config, seen: Option<Observation>, at: nat,
                     script: Script)
    ensures var p := Drive(Launch(Renewing(h), name, key, cfg, seen, at, script), script);
            var now := script.clock(at);
            var u := UpdateAt(at, cfg, script);
            if u.look.Missed? then
              FinalOutcome(p) == Failed(if u.look.error.code == NotFound then LockNotHeld else u.look.error.code)
            else
              var renewed := Renewal(u.look.lease, cfg, now);
              if u.look.lease.owner != h.owner || !u.look.lease.held then FinalOutcome(p) == Failed(LockNotHeld)
              else if !Current(h, u.look) then FinalOutcome(p) == Failed(FencingTokenStale)
              else if WatchOver(seen, h.etag, u.look.lease, cfg, now) then FinalOutcome(p) == Failed(LockExpired)
              else if Arrived(u.write, renewed) then
                var etag := ArrivedETag(u.write, renewed);
                && FinalOutcome(p) ==
                     Renewed(Handle(h.name, h.key, h.owner, h.token, etag, now + cfg.ttl, h.acquiredAt))
                && p.seen == Some(Observation(etag, now))
              else FinalOutcome(p) == Failed(Lost(u.write))
  {
    var p0 := Launch(Renewing(h), name, key, cfg, seen, at, script);
    var u := UpdateAt(at, cfg, script);
    var q := Step(p0, script);
    DriveUnfolds(p0, script);
    DriveUnfolds(q, script);
    if u.look.Found? {
      assert (q.call, q.seen) == OnRenew(p0.call, seen, u.look.lease, u.look.etag);
      if q.call.phase.Send? {
        var renewed := Renewal(u.look.lease, cfg, script.clock(at));
        assert q.call.phase == Send(Intent(LockMachine.Renew, renewed, IfMatch(h.etag)), 0);
        HolderWriteAnswers(q, u.write, script);
      }
    }
  }

  lemma HolderWriteAnswers(q: Progress, s: Sending, script: Script)
    requires Coherent(q.call) && q.call.phase.Send? && q.call.phase.sends == 0
    requires q.call.phase.intent.purpose.Renew? || q.call.phase.intent.purpose.Release?
    requires s == SendingAt(q.at, q.call.cfg.maxRetries, script)
    ensures var r, lease := Drive(q, script), q.call.phase.intent.lease;
            if Arrived(s, lease) then (r.call, r.seen) == Settle(q.call, lease, ArrivedETag(s, lease))
            else FinalOutcome(r) == Failed(Lost(s))
  {
    WriteEnds(q, q.call.phase.intent, script);
    if !Arrived(s, q.call.phase.intent.lease) {
      var rejected := Reject(q.call, q.call.phase.intent, s.result.reply.error);
      DriveUnfolds(Progress(rejected, q.seen, s.result.at + 1), script);
    }
  }

  /** Release succeeds exactly if the handle is current and the released lease arrives; a current handle's
      release that the store accepts is never turned away. */
  lemma ReleaseAnswers(h: Handle, name: string, key: string, cfg: Config, seen: Option<Observation>, at: nat,
                       script: Script)
    ensures var p := Drive(Launch(Releasing(h), name, key, cfg, seen, at, script), script);
            var now := script.clock(at);
            var u := UpdateAt(at, cfg, script);
            if u.look.Missed? then
              FinalOutcome(p) == Failed(if u.look.error.code == NotFound then LockNotHeld else u.look.error.code)
            else
              var released := u.look.lease.(held := false, revision := u.look.lease.revision + 1, expiresAt := now);
              if !Current(h, u.look) then FinalOutcome(p) == Failed(FencingTokenStale)
              else if Arrived(u.write, released) then
                FinalOutcome(p) == Released && p.seen == Some(Observation(ArrivedETag(u.write, released), now))
              else FinalOutcome(p) == Failed(Lost(u.write))
  {
    var p0 := Launch(Releasing(h), name, key, cfg, seen, at, script);
    var u := UpdateAt(at, cfg, script);
    var q := Step(p0, script);
    DriveUnfolds(p0, script);
    DriveUnfolds(q, script);
    if u.look.Found? {
      assert (q.call, q.seen) == OnRelease(p0.call, seen, u.look.lease, u.look.etag);
      if q.call.phase.Send? {
        var l := u.look.lease;
        var released := l.(held := false, revision := l.revision + 1, expiresAt := script.clock(at));
        assert q.call.phase == Send(Intent(LockMachine.Release, released, IfMatch(h.etag)), 0);
        HolderWriteAnswers(q, u.write, script);
      }
    }
  }

  // ----- IsHeld -----

  /** IsHeld says that the lock is held exactly if the lease read is held and has not been watched for long
      enough by the clock read after it; its handle describes the lease read. A missing record means that the lock is
      not held, any other error is passed on. */
  lemma IsHeldAnswers(name: string, key: string, cfg: Config, seen: Option<Observation>, at: nat, script: Script)
    ensures var p := Drive(Launch(IsHeld, name, key, cfg, seen, at, script), script);
            match script.get(at + 1)
            case Missed(error) =>
              && p.seen == seen
              && FinalOutcome(p) == if error.code == NotFound then Observed(false, None) else Failed(error.code)
            case Found(l, etag) =>
              FinalOutcome(p) ==
                Observed(l.held && !WatchOver(seen, etag, l, cfg, script.clock(at + 1)),
                         Some(Handle(name, key, l.owner, l.version, etag, l.expiresAt, l.acquiredAt)))
  {
    var p0 := Launch(IsHeld, name, key, cfg, seen, at, script);
    DriveUnfolds(p0, script);
    DriveUnfolds(Step(p0, script), script);
  }

  // ----- Acquire -----

  function Pow2(n: nat): nat {
    if n == 0 then 1 else 2 * Pow2(n - 1)
  }

  /** The pauses double from retryDelay and are capped at maxDelay, but for the first. */
  lemma {:induction false} PausesDouble(n: nat, cfg: Config)
    requires cfg.Valid()
    ensures DelayBefore(n, cfg) == if n == 0 then cfg.retryDelay else Min(cfg.retryDelay * Pow2(n), cfg.maxDelay)
  {
    if n > 0 {
      PausesDouble(n - 1, cfg);
      var w := cfg.retryDelay * Pow2(n - 1);
      assert cfg.retryDelay * Pow2(n) == 2 * w;
      assert w >= cfg.retryDelay by { AtLeastOnce(n - 1, cfg.retryDelay); }
    }
  }

  lemma {:induction false} AtLeastOnce(n: nat, d: int)
    requires d > 0
    ensures d * Pow2(n) >= d
  {
    if n > 0 {
      AtLeastOnce(n - 1, d);
      assert d * Pow2(n) == 2 * (d * Pow2(n - 1));
    }
  }

  /** What the attempt that begins after `waits` pauses returned. */
  function AttemptAfter(waits: nat, name: string, key: string, cfg: Config, seen: Option<Observation>, at: nat,
                        script: Script): (last: Progress)
    ensures last.call.phase.Done?
  {
    var p := Drive(Launch(TryAcquire, name, key, cfg, seen, at, script), script);
    if waits == 0 then p else AttemptAfter(waits - 1, name, key, cfg, p.seen, p.at + 1, script)
  }

  lemma LaterAttempt(i: nat, name: string, key: string, cfg: Config, seen: Option<Observation>, at: nat, script: Script)
    ensures var p := AttemptAfter(0, name, key, cfg, seen, at, script);
            AttemptAfter(i + 1, name, key, cfg, seen, at, script) ==
              AttemptAfter(i, name, key, cfg, p.seen, p.at + 1, script)
  {
  }

  /** Attempt `i` found the lock held by others, and the context outlived the pause after it. */
  predicate WentOn(i: nat, name: string, key: string, cfg: Config, seen: Option<Observation>, at: nat, script: Script) {
    var p := AttemptAfter(i, name, key, cfg, seen, at, script);
    FinalOutcome(p) == Failed(LockHeld) && script.alive(p.at)
  }

  /** The result of Acquire from its attempts: all but the last went on, after pauses number n, n + 1 and so
      forth, and the last decided, or found the lock held and had its pause cut short. */
  ghost predicate Decided(r: AcquireResult, n: nat, patience: nat, name: string, key: string, cfg: Config,
                          seen: Option<Observation>, at: nat, script: Script)
  {
    && 1 <= r.calls <= patience + 1
    && (forall i :: 0 <= i < r.calls - 1 ==> WentOn(i, name, key, cfg, seen, at, script))
    && (forall i :: 0 <= i < |r.waits| ==> r.waits[i] == DelayBefore(n + i, cfg))
    && var last := AttemptAfter(r.calls - 1, name, key, cfg, seen, at, script);
       if FinalOutcome(last) != Failed(LockHeld) then r.outcome == FinalOutcome(last) && |r.waits| == r.calls - 1
       else
         && r.outcome == Failed(Cancelled) && |r.waits| == r.calls
         && (r.calls == patience + 1 || !script.alive(last.at))
  }

  lemma DecidedLater(r: AcquireResult, rest: AcquireResult, n: nat, patience: nat, name: string, key: string,
                     cfg: Config, seen: Option<Observation>, at: nat, script: Script)
    requires patience > 0 && WentOn(0, name, key, cfg, seen, at, script)
    requires var p := AttemptAfter(0, name, key, cfg, seen, at, script);
             Decided(rest, n + 1, patience - 1, name, key, cfg, p.seen, p.at + 1, script)
    requires r == rest.(calls := rest.calls + 1, waits := [DelayBefore(n, cfg)] + rest.waits)
    ensures Decided(r, n, patience, name, key, cfg, seen, at, script)
  {
    hide AttemptAfter, FinalOutcome, DelayBefore;
    forall i | 0 <= i < r.calls - 1 ensures WentOn(i, name, key, cfg, seen, at, script) {
      if i > 0 {
        LaterAttempt(i - 1, name, key, cfg, seen, at, script);
        var p := AttemptAfter(0, name, key, cfg, seen, at, script);
        assert WentOn(i - 1, name, key, cfg, p.seen, p.at + 1, script);
      }
    }
    LaterAttempt(rest.calls - 1, name, key, cfg, seen, at, script);
    forall i | 0 <= i < |r.waits| ensures r.waits[i] == DelayBefore(n + i, cfg) {
      if i > 0 {
        assert r.waits[i] == rest.waits[i - 1] == DelayBefore(n + 1 + (i - 1), cfg);
      }
    }
  }

  /** Acquire goes on exactly as long as the lock is held: each attempt but the last found it held with the
      context alive after the pause, the pauses are those above, and it returns what the last attempt returned, or
      Cancelled if that too found the lock held and its pause was cut short. */
  lemma {:induction false} AcquireGoesOn(name: string, key: string, cfg: Config, seen: Option<Observation>, at: nat,
                                         n: nat, patience: nat, script: Script)
    ensures Decided(AcquireRun(name, key, cfg, seen, at, DelayBefore(n, cfg), patience, script),
                    n, patience, name, key, cfg, seen, at, script)
    decreases patience
  {
    hide Drive, Launch, FinalOutcome, WentOn, Decided, DelayBefore, AttemptAfter, AcquireRun;
    FirstRound(name, key, cfg, seen, at, n, patience, script);
    var p := AttemptAfter(0, name, key, cfg, seen, at, script);
    var r := AcquireRun(name, key, cfg, seen, at, DelayBefore(n, cfg), patience, script);
    if patience > 0 && WentOn(0, name, key, cfg, seen, at, script) {
      AcquireGoesOn(name, key, cfg, p.seen, p.at + 1, n + 1, patience - 1, script);
      var rest := AcquireRun(name, key, cfg, p.seen, p.at + 1, DelayBefore(n + 1, cfg), patience - 1, script);
      DecidedLater(r, rest, n, patience, name, key, cfg, seen, at, script);
    }
  }

  lemma FirstRound(name: string, key: string, cfg: Config, seen: Option<Observation>, at: nat, n: nat, patience: nat,
                   script: Script)
    ensures var r := AcquireRun(name, key, cfg, seen, at, DelayBefore(n, cfg), patience, script);
            if patience > 0 && WentOn(0, name, key, cfg, seen, at, script) then
              var p := AttemptAfter(0, name, key, cfg, seen, at, script);
              var rest := AcquireRun(name, key, cfg, p.seen, p.at + 1, DelayBefore(n + 1, cfg), patience - 1, script);
              r == rest.(calls := rest.calls + 1, waits := [DelayBefore(n, cfg)] + rest.waits)
            else Decided(r, n, patience, name, key, cfg, seen, at, script)
  {
    hide Drive, Launch, FinalOutcome;
    assert AttemptAfter(0, name, key, cfg, seen, at, script) ==
             Drive(Launch(TryAcquire, name, key, cfg, seen, at, script), script);
  }
}
