/** A whole call of the lock machine against scripted surroundings, and Acquire's loop of such calls.
    The script fixes every storage reply, clock reading, drawn ID and context check in advance, so a
    statement about all scripts is one about all surroundings. */
module LockDriver {
  import opened Common
  import opened Leases
  import opened LockMachine

  type PutReply = r: Reply | r.Stored? || r.Refused? witness Refused(Error(NotFound, false))
  type GetReply = r: Reply | r.Found? || r.Missed? witness Missed(Error(NotFound, false))

  /** What happens at the k-th interaction with the surroundings. */
  datatype Script = Script(
    put: nat -> PutReply,
    get: nat -> GetReply,
    alive: nat -> bool,
    clock: nat -> int,
    freshID: nat -> nat)

  /** A call and its locker's observation of the key after `at` interactions. */
  datatype Progress = Progress(call: Call, seen: Option<Observation>, at: nat)

  function ReplyAt(phase: Phase, k: nat, script: Script): (r: Reply)
    requires !phase.Done?
    ensures Expects(phase, r)
  {
    if phase.Send? then script.put(k) else script.get(k)
  }

  function EnvAt(k: nat, script: Script): Env {
    Env(script.alive(k), script.clock(k), script.freshID(k))
  }

  function Rank(phase: Phase): nat {
    match phase
    case Done(_) => 0
    case Recover(i, _) => if i.purpose.Create? then 4 else 1
    case Send(i, _) => if i.purpose.Create? then 5 else 2
    case Inspect(_) => 3
    case Fetch => 3
  }

  function SendsLeft(c: Call): nat {
    if c.phase.Send? then Max(0, c.cfg.maxRetries - c.phase.sends) else 0
  }

  function Step(p: Progress, script: Script): (p': Progress)
    requires Coherent(p.call) && !p.call.phase.Done?
    ensures Coherent(p'.call)
  {
    var (call, seen) := Resume(p.call, p.seen, ReplyAt(p.call.phase, p.at, script), EnvAt(p.at, script));
    Progress(call, seen, p.at + 1)
  }

  lemma StepDescends(p: Progress, script: Script)
    requires Coherent(p.call) && !p.call.phase.Done?
    ensures var c := Step(p, script).call;
            Rank(c.phase) < Rank(p.call.phase)
            || (Rank(c.phase) == Rank(p.call.phase) && SendsLeft(c) < SendsLeft(p.call))
  {
    var reply, env := ReplyAt(p.call.phase, p.at, script), EnvAt(p.at, script);
    match p.call.phase
    case Fetch => assert Step(p, script).call == OnFetch(p.call, p.seen, reply, env.clock).0;
    case Send(_, _) => assert Step(p, script).call == OnWrite(p.call, p.seen, reply, env.alive).0;
    case Recover(_, _) => assert Step(p, script).call == OnRecover(p.call, p.seen, reply).0;
    case Inspect(_) => assert Step(p, script).call == OnInspect(p.call, p.seen, reply, env.freshID).0;
  }

  /** Run the call to its end. */
  function Drive(p: Progress, script: Script): (r: Progress)
    requires Coherent(p.call)
    ensures r.call.phase.Done?
    decreases Rank(p.call.phase), SendsLeft(p.call)
  {
    if p.call.phase.Done? then p
    else
      StepDescends(p, script);
      Drive(Step(p, script), script)
  }

  lemma DriveUnfolds(p: Progress, script: Script)
    requires Coherent(p.call)
    ensures Drive(p, script) == if p.call.phase.Done? then p else Drive(Step(p, script), script)
  {
  }

  /** A call that reads its clock, and draws a lease ID, at interaction `at`. */
  function Launch(op: Operation, name: string, key: string, cfg: Config, seen: Option<Observation>, at: nat,
                  script: Script): (p: Progress)
    ensures Coherent(p.call)
  {
    Progress(Begin(op, name, key, cfg, script.clock(at), script.freshID(at)), seen, at + 1)
  }

  function FinalOutcome(p: Progress): Outcome
    requires p.call.phase.Done?
  {
    p.call.phase.outcome
  }

  // ----- Store.Put under the retrier -----

  datatype PutResult = PutResult(reply: PutReply, at: nat)

  /** Sending one write until it is stored, fails for good, runs out of retries or is cancelled. */
  function Resend(k: nat, sends: nat, maxRetries: int, script: Script): PutResult
    decreases maxRetries - sends
  {
    var reply := script.put(k);
    if reply.Stored? || !reply.error.retriable || sends >= maxRetries then PutResult(reply, k + 1)
    else if !script.alive(k) then PutResult(Refused(Error(Cancelled, false)), k + 1)
    else Resend(k + 1, sends + 1, maxRetries, script)
  }

  lemma {:induction false} ResendBounded(k: nat, sends: nat, maxRetries: int, script: Script)
    ensures k < Resend(k, sends, maxRetries, script).at <= k + Max(0, maxRetries - sends) + 1
    ensures var r := Resend(k, sends, maxRetries, script); r.reply.Stored? ==> r.reply == script.put(r.at - 1)
    decreases maxRetries - sends
  {
    var reply := script.put(k);
    if !(reply.Stored? || !reply.error.retriable || sends >= maxRetries || !script.alive(k)) {
      ResendBounded(k + 1, sends + 1, maxRetries, script);
    }
  }

  /** Where a call stands once its write has been sent for the last time. */
  function AfterSends(p: Progress, r: PutResult): (p': Progress)
    requires Coherent(p.call) && p.call.phase.Send?
    ensures Coherent(p'.call)
  {
    var intent := p.call.phase.intent;
    if r.reply.Stored? then
      var (call, seen) := Settle(p.call, intent.lease, r.reply.etag);
      Progress(call, seen, r.at)
    else
      Progress(p.call.(phase := Recover(intent, r.reply.error)), p.seen, r.at)
  }

  /** One send: either the call is to send again, with the same outcome ahead, or the sending is over. */
  lemma SendStep(p: Progress, script: Script)
    requires Coherent(p.call) && p.call.phase.Send?
    ensures var next := Step(p, script);
            var r := Resend(p.at, p.call.phase.sends, p.call.cfg.maxRetries, script);
            if next.call.phase.Send? then
              && SendsLeft(next.call) < SendsLeft(p.call)
              && r == Resend(next.at, next.call.phase.sends, next.call.cfg.maxRetries, script)
              && AfterSends(next, r) == AfterSends(p, r)
            else next == AfterSends(p, r)
  {
    var next := Step(p, script);
    assert (next.call, next.seen) == OnWrite(p.call, p.seen, script.put(p.at), script.alive(p.at));
  }

  /** The machine resends exactly as the retrier does. */
  lemma {:induction false} DriveSends(p: Progress, script: Script)
    requires Coherent(p.call) && p.call.phase.Send?
    ensures Drive(p, script) ==
              Drive(AfterSends(p, Resend(p.at, p.call.phase.sends, p.call.cfg.maxRetries, script)), script)
    decreases SendsLeft(p.call)
  {
    DriveUnfolds(p, script);
    SendStep(p, script);
    hide Drive, Step, Resend, AfterSends;
    if Step(p, script).call.phase.Send? {
      DriveSends(Step(p, script), script);
    }
  }

  // ----- Acquire -----

  /** What Acquire returned, after how many attempts, and how long it slept between them. */
  datatype AcquireResult = AcquireResult(
    outcome: Outcome,
    seen: Option<Observation>,
    at: nat,
    calls: nat,
    waits: seq<int>)

  function NextDelay(delay: int, cfg: Config): int {
    Min(delay * 2, cfg.maxDelay)
  }

  /** Attempt, wait, attempt again; the context ends at the latest during wait number `patience` + 1. */
  function AcquireRun(name: string, key: string, cfg: Config, seen: Option<Observation>, at: nat, delay: int,
                      patience: nat, script: Script): AcquireResult
    decreases patience
  {
    var p := Drive(Launch(TryAcquire, name, key, cfg, seen, at, script), script);
    if FinalOutcome(p) != Failed(LockHeld) then AcquireResult(FinalOutcome(p), p.seen, p.at, 1, [])
    else if patience == 0 || !script.alive(p.at) then AcquireResult(Failed(Cancelled), p.seen, p.at + 1, 1, [delay])
    else
      var r := AcquireRun(name, key, cfg, p.seen, p.at + 1, NextDelay(delay, cfg), patience - 1, script);
      r.(calls := r.calls + 1, waits := [delay] + r.waits)
  }

  /** Acquire's loop taken apart: one attempt, and what follows it. */
  lemma AcquireUnfolds(name: string, key: string, cfg: Config, seen: Option<Observation>, at: nat, delay: int,
                       patience: nat, script: Script)
    ensures var p := Drive(Launch(TryAcquire, name, key, cfg, seen, at, script), script);
            var r := AcquireRun(name, key, cfg, seen, at, delay, patience, script);
            if FinalOutcome(p) != Failed(LockHeld) then
              r.outcome == FinalOutcome(p) && r.seen == p.seen && r.at == p.at && r.waits == []
            else if patience == 0 || !script.alive(p.at) then
              r.outcome == Failed(Cancelled) && r.seen == p.seen && r.at == p.at + 1 && r.waits == [delay]
            else
              var rest := AcquireRun(name, key, cfg, p.seen, p.at + 1, NextDelay(delay, cfg), patience - 1, script);
              r.outcome == rest.outcome && r.seen == rest.seen && r.at == rest.at && r.waits == [delay] + rest.waits
  {
    hide Drive, Launch, FinalOutcome, NextDelay;
  }

  // ----- a contender on its own -----

  /** The pause before attempt n + 1. */
  function DelayBefore(n: nat, cfg: Config): int {
    if n == 0 then cfg.retryDelay else NextDelay(DelayBefore(n - 1, cfg), cfg)
  }

  lemma {:induction false} DelayAtLeast(n: nat, cfg: Config)
    requires cfg.Valid()
    ensures DelayBefore(n, cfg) >= Min(cfg.retryDelay, cfg.maxDelay)
  {
    if n > 0 {
      DelayAtLeast(n - 1, cfg);
    }
  }

  /** Nobody else is there: the attempt beginning at interaction `k` is refused its create, reads `held`
      back, and would have a claim stored. An attempt takes four interactions, the pause a fifth. */
  predicate QuietAttempt(k: nat, held: Lease, script: Script) {
    && script.put(k + 1) == Refused(Error(PreconditionFailed, false))
    && script.get(k + 2) == Found(held, Digest(held))
    && script.get(k + 3) == Found(held, Digest(held))
    && script.put(k + 4).Stored?
    && script.alive(k + 4)
    && script.freshID(k) != held.leaseID
  }

  function AttemptAt(at: nat, n: nat): nat {
    at + 5 * n
  }

  /** The record never changes, and between attempts the clock advances by at least the pause. */
  ghost predicate Quiet(at: nat, held: Lease, cfg: Config, script: Script) {
    && (forall n: nat :: QuietAttempt(AttemptAt(at, n), held, script))
    && (forall n: nat :: script.clock(AttemptAt(at, n + 1)) >= script.clock(AttemptAt(at, n)) + DelayBefore(n, cfg))
  }

  /** How long the contender must watch the lease. */
  function Watch(held: Lease, cfg: Config): int {
    (if held.duration > 0 then held.duration else cfg.ttl) + cfg.grace
  }

  /** One attempt at a held lease that does not change: it takes over if the watch is over, and
      otherwise only remembers since when it has been watching. */
  lemma QuietTry(name: string, key: string, cfg: Config, seen: Option<Observation>, at: nat, held: Lease,
                 script: Script)
    requires QuietAttempt(at, held, script) && held.held
    ensures var p := Drive(Launch(TryAcquire, name, key, cfg, seen, at, script), script);
            var now := script.clock(at);
            if Expired(seen, Digest(held), held.duration, cfg.ttl, now, cfg.grace)
            then p.call.phase.outcome.Acquired? && p.call.phase.outcome.handle.token == held.version + 1
            else FinalOutcome(p) == Failed(LockHeld) && p.seen == AfterLook(seen, Digest(held), now) && p.at == at + 4
  {
    var p0 := Launch(TryAcquire, name, key, cfg, seen, at, script);
    var p1 := Step(p0, script);
    assert p1.call.phase.Recover? && p1.at == at + 2;
    var p2 := Step(p1, script);
    assert p2.call.phase.Inspect? && p2.at == at + 3;
    var p3 := Step(p2, script);
    assert p3.at == at + 4;
    assert Drive(p0, script) == Drive(p1, script) == Drive(p2, script) == Drive(p3, script);
    if p3.call.phase.Send? {
      var p4 := Step(p3, script);
      assert Drive(p3, script) == Drive(p4, script) == p4;
    }
  }

  lemma {:induction false} ClockAdvances(at: nat, n: nat, held: Lease, cfg: Config, script: Script)
    requires Quiet(at, held, cfg, script) && cfg.Valid()
    ensures script.clock(AttemptAt(at, n)) >= script.clock(at) + n * Min(cfg.retryDelay, cfg.maxDelay)
  {
    if n == 0 {
      assert AttemptAt(at, 0) == at;
    } else {
      ClockAdvances(at, n - 1, held, cfg, script);
      DelayAtLeast(n - 1, cfg);
      var m := Min(cfg.retryDelay, cfg.maxDelay);
      assert n * m == (n - 1) * m + m;
    }
  }

  /** The attempts that find the watch unfinished: one per shortest pause, rounded up. */
  function Pauses(held: Lease, cfg: Config): nat
    requires cfg.Valid()
  {
    var m := Min(cfg.retryDelay, cfg.maxDelay);
    (Watch(held, cfg) + m - 1) / m
  }

  lemma PausesSuffice(n: nat, held: Lease, cfg: Config)
    requires cfg.Valid() && n >= Pauses(held, cfg)
    ensures n * Min(cfg.retryDelay, cfg.maxDelay) >= Watch(held, cfg)
  {
    var m := Min(cfg.retryDelay, cfg.maxDelay);
    var w := Watch(held, cfg);
    var q := (w + m - 1) / m;
    assert q * m >= w;
    assert n * m >= q * m;
  }

  /** One round of Acquire at an unchanging held lease. */
  lemma QuietRound(name: string, key: string, cfg: Config, seen: Option<Observation>, at: nat, delay: int, held: Lease,
                   patience: nat, script: Script)
    requires QuietAttempt(at, held, script) && held.held
    ensures var r := AcquireRun(name, key, cfg, seen, at, delay, patience, script);
            var now := script.clock(at);
            if Expired(seen, Digest(held), held.duration, cfg.ttl, now, cfg.grace)
            then r.outcome.Acquired? && r.outcome.handle.token == held.version + 1 && r.calls == 1
            else patience > 0 ==>
              var rest := AcquireRun(name, key, cfg, AfterLook(seen, Digest(held), now), at + 5, NextDelay(delay, cfg),
                                     patience - 1, script);
              r.outcome == rest.outcome && r.calls == rest.calls + 1
  {
    QuietTry(name, key, cfg, seen, at, held, script);
  }

  /** By attempt n the clock has moved on by n shortest pauses, so the watch ends in time. */
  lemma WatchEnds(n: nat, first: int, at: nat, held: Lease, cfg: Config, script: Script)
    requires cfg.Valid() && Quiet(at, held, cfg, script) && first <= script.clock(at)
    ensures first <= script.clock(AttemptAt(at, n))
    ensures n >= Pauses(held, cfg) ==> script.clock(AttemptAt(at, n)) >= first + Watch(held, cfg)
  {
    ClockAdvances(at, n, held, cfg, script);
    assert n * Min(cfg.retryDelay, cfg.maxDelay) >= 0;
    if n >= Pauses(held, cfg) {
      PausesSuffice(n, held, cfg);
    }
  }

  lemma {:induction false} ContenderFrom(n: nat, name: string, key: string, cfg: Config, first: int, at: nat,
                                         held: Lease, patience: nat, script: Script)
    requires cfg.Valid() && held.held && Quiet(at, held, cfg, script)
    requires first <= script.clock(at)
    requires n <= Pauses(held, cfg) <= n + patience
    ensures var r := AcquireRun(name, key, cfg, Some(Observation(Digest(held), first)), AttemptAt(at, n),
                                DelayBefore(n, cfg), patience, script);
            && r.outcome.Acquired? && r.outcome.handle.token == held.version + 1
            && n + r.calls <= 1 + Pauses(held, cfg)
    decreases Pauses(held, cfg) - n
  {
    hide AcquireRun, Pauses;
    var seen := Some(Observation(Digest(held), first));
    assert QuietAttempt(AttemptAt(at, n), held, script);
    WatchEnds(n, first, at, held, cfg, script);
    QuietRound(name, key, cfg, seen, AttemptAt(at, n), DelayBefore(n, cfg), held, patience, script);
    if n < Pauses(held, cfg) {
      ContenderFrom(n + 1, name, key, cfg, first, at, held, patience - 1, script);
      assert AttemptAt(at, n + 1) == AttemptAt(at, n) + 5;
    }
  }

  lemma SomeWatch(held: Lease, cfg: Config)
    requires cfg.Valid()
    ensures Pauses(held, cfg) >= 1
  {
    assert Watch(held, cfg) > 0;
  }

  /** A crashed holder is recovered from: a contender alone with an unchanging held lease gets the lock
      after at most 1 + ceil((duration + grace) / min(retryDelay, maxDelay)) attempts, with the next token,
      if its context lasts that long. */
  lemma CrashedHolderIsReplaced(name: string, key: string, cfg: Config, seen: Option<Observation>, at: nat,
                                held: Lease, patience: nat, script: Script)
    requires cfg.Valid() && held.held && Quiet(at, held, cfg, script)
    requires patience >= Pauses(held, cfg)
    ensures var r := AcquireRun(name, key, cfg, seen, at, cfg.retryDelay, patience, script);
            && r.outcome.Acquired? && r.outcome.handle.token == held.version + 1
            && r.calls <= 1 + Pauses(held, cfg)
  {
    hide AcquireRun, Pauses;
    SomeWatch(held, cfg);
    assert AttemptAt(at, 0) == at;
    assert QuietAttempt(AttemptAt(at, 0), held, script);
    QuietRound(name, key, cfg, seen, at, cfg.retryDelay, held, patience, script);
    var now := script.clock(at);
    if !Expired(seen, Digest(held), held.duration, cfg.ttl, now, cfg.grace) {
      var first := AfterLook(seen, Digest(held), now).value.firstSeen;
      assert AfterLook(seen, Digest(held), now) == Some(Observation(Digest(held), first));
      assert AttemptAt(at, 1) == at + 5;
      ContenderFrom(1, name, key, cfg, first, at, held, patience - 1, script);
    }
  }
}
