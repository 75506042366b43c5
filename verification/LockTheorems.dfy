/** What the lease protocol promises, proved for every run: any number of lockers and calls, any
    interleaving, any pattern of lost replies and failed writes. */
module LockTheorems {
  import opened Common
  import opened Leases
  import opened LockMachine
  import opened LockProtocol
  import opened LockInvariant
  import opened LockLocal

  // ----- the fencing sequence -----

  /** Tokens never go down, and stay the same exactly as long as the lease ID does. */
  lemma {:induction false} VersionsFollowIDs(h: History, j: nat, k: nat)
    requires ChainOK(h) && FreshOK(h) && j <= k < |h|
    ensures h[j].lease.version <= h[k].lease.version
    ensures h[j].lease.version == h[k].lease.version <==> h[j].lease.leaseID == h[k].lease.leaseID
  {
    if j < k {
      VersionsFollowIDs(h, j, k - 1);
      assert Follows(h[k - 1].lease, h[k].purpose, h[k].lease);
    }
  }

  /** No state of the record, and so no ETag, ever comes back; every write raises the revision by one,
      every acquisition raises the token by one, and nothing else changes it. */
  lemma AbaFree(tr: seq<System>, steps: seq<Step>, i: nat, j: nat, k: nat)
    requires Run(tr, steps) && i < |tr| && j < k < |tr[i].history|
    ensures var h := tr[i].history;
            && Digest(h[j].lease) != Digest(h[k].lease)
            && h[k].lease.revision == h[j].lease.revision + (k - j)
            && h[j + 1].lease.version == h[j].lease.version + (if h[j + 1].purpose.Claim? then 1 else 0)
            && h[j].lease.version <= h[k].lease.version
  {
    RunKeepsInv(tr, steps, i);
    var h := tr[i].history;
    assert Follows(h[j].lease, h[j + 1].purpose, h[j + 1].lease);
    VersionsFollowIDs(h, j, k);
  }

  // ----- runs -----

  /** How a later state of a run relates to an earlier one: the history is extended, calls stay what they
      are, finished calls stay as they ended, and new calls began later. */
  ghost predicate Grown(s: System, s': System) {
    && s.history <= s'.history
    && s.delay <= s'.delay
    && (forall id :: id in s.clients ==>
          && id in s'.clients
          && s'.clients[id].since == s.clients[id].since
          && s'.clients[id].call.op == s.clients[id].call.op
          && s'.clients[id].call.cfg == s.clients[id].call.cfg
          && (s.clients[id].call.phase.Done? && s.clients[id].inbox.None? ==> s'.clients[id] == s.clients[id]))
    && (forall id :: id in s'.clients && id !in s.clients ==> s'.clients[id].since >= |s.history|)
  }

  lemma GrownSelf(s: System)
    ensures Grown(s, s)
  {
  }

  lemma GrownTransitive(s: System, s': System, s'': System)
    requires Grown(s, s') && Grown(s', s'')
    ensures Grown(s, s'')
  {
  }

  lemma StepGrows(s: System, step: Step)
    requires Enabled(s, step)
    ensures Grown(s, Apply(s, step))
  {
    hide Resume;
    match step
    case Local(id, alive) =>
      var c := s.clients[id];
      ResumeKeepsOp(c.call, Lookup(s.seen, c.locker), c.inbox.value,
                    Env(alive, s.time + s.offset(c.locker), s.nextID));
    case _ =>
  }

  lemma ResumeKeepsOp(c: Call, seen: Option<Observation>, reply: Reply, env: Env)
    requires Coherent(c) && Expects(c.phase, reply)
    ensures var r := Resume(c, seen, reply, env).0;
            r.op == c.op && r.cfg == c.cfg && r.name == c.name && r.key == c.key && r.now == c.now
  {
  }

  lemma StepTaken(tr: seq<System>, steps: seq<Step>, i: nat)
    requires Run(tr, steps) && i + 1 < |tr|
    ensures |tr| == |steps| + 1 && Enabled(tr[i], steps[i]) && tr[i + 1] == Apply(tr[i], steps[i])
  {
    hide Enabled, Apply;
  }

  lemma {:induction false} RunGrows(tr: seq<System>, steps: seq<Step>, i: nat, j: nat)
    requires Run(tr, steps) && i <= j < |tr|
    ensures Grown(tr[i], tr[j])
  {
    hide *;
    if i == j {
      GrownSelf(tr[i]);
    } else {
      RunGrows(tr, steps, i, j - 1);
      StepTaken(tr, steps, j - 1);
      StepGrows(tr[j - 1], steps[j - 1]);
      GrownTransitive(tr[i], tr[j - 1], tr[j]);
    }
  }

  // ----- tokens -----

  predicate HasLock(s: System, id: nat) {
    id in s.clients && s.clients[id].call.phase.Done? && s.clients[id].call.phase.outcome.Acquired?
  }

  function Token(s: System, id: nat): int
    requires HasLock(s, id)
  {
    s.clients[id].call.phase.outcome.handle.token
  }

  function LeaseOf(s: System, id: nat): Lease
    requires HasLock(s, id)
  {
    s.clients[id].call.phase.outcome.handle.etag.lease
  }

  /** A successful acquisition wrote the lease its handle names, after it began and under its own ID. */
  ghost predicate WroteLease(s: System, id: nat)
    requires HasLock(s, id)
  {
    var l := LeaseOf(s, id);
    && StoredIn(s.history, l) && s.history[l.revision - 1].writer == id
    && s.clients[id].since < l.revision
    && l.version == Token(s, id) && l.leaseID in s.clients[id].ids
    && s.clients[id].inbox.None?
  }

  lemma AcquiredFacts(s: System, id: nat)
    requires Inv(s) && HasLock(s, id)
    ensures WroteLease(s, id)
  {
    assert ClientOK(ViewOf(s), id, s.clients[id]);
  }

  lemma HistoryFacts(s: System)
    requires Inv(s)
    ensures ChainOK(s.history) && FreshOK(s.history)
  {
  }

  lemma DistinctIDs(s: System, a: nat, b: nat)
    requires Inv(s) && a in s.clients && b in s.clients && a != b
    ensures s.clients[a].ids !! s.clients[b].ids
  {
  }

  lemma TokensUniqueIn(s: System, a: nat, b: nat)
    requires ChainOK(s.history) && FreshOK(s.history)
    requires HasLock(s, a) && HasLock(s, b) && WroteLease(s, a) && WroteLease(s, b)
    requires s.clients[a].ids !! s.clients[b].ids
    ensures Token(s, a) != Token(s, b)
  {
    var la, lb := LeaseOf(s, a), LeaseOf(s, b);
    assert la.leaseID != lb.leaseID;
    if la.revision <= lb.revision {
      VersionsFollowIDs(s.history, la.revision - 1, lb.revision - 1);
    } else {
      VersionsFollowIDs(s.history, lb.revision - 1, la.revision - 1);
    }
  }

  /** No two successful acquisitions carry the same fencing token. */
  lemma TokensUnique(tr: seq<System>, steps: seq<Step>, i: nat, a: nat, b: nat)
    requires Run(tr, steps) && i < |tr| && a != b
    requires HasLock(tr[i], a) && HasLock(tr[i], b)
    ensures Token(tr[i], a) != Token(tr[i], b)
  {
    hide Inv;
    RunKeepsInv(tr, steps, i);
    HistoryFacts(tr[i]);
    AcquiredFacts(tr[i], a);
    AcquiredFacts(tr[i], b);
    DistinctIDs(tr[i], a, b);
    TokensUniqueIn(tr[i], a, b);
  }

  lemma TokensGrowIn(s: System, s': System, a: nat, b: nat)
    requires Grown(s, s') && ChainOK(s'.history) && FreshOK(s'.history)
    requires HasLock(s, a) && WroteLease(s, a)
    requires b !in s.clients && HasLock(s', b) && WroteLease(s', b)
    ensures HasLock(s', a) && Token(s', a) == Token(s, a) <= Token(s', b)
  {
    VersionsFollowIDs(s'.history, LeaseOf(s, a).revision - 1, LeaseOf(s', b).revision - 1);
  }

  /** An acquisition that starts after another has succeeded gets a strictly larger token. */
  lemma TokensGrow(tr: seq<System>, steps: seq<Step>, i: nat, j: nat, a: nat, b: nat)
    requires Run(tr, steps) && i <= j < |tr|
    requires HasLock(tr[i], a) && b !in tr[i].clients && HasLock(tr[j], b)
    ensures HasLock(tr[j], a) && Token(tr[j], a) == Token(tr[i], a) < Token(tr[j], b)
  {
    hide Inv;
    RunKeepsInv(tr, steps, i);
    RunKeepsInv(tr, steps, j);
    RunGrows(tr, steps, i, j);
    HistoryFacts(tr[j]);
    AcquiredFacts(tr[i], a);
    AcquiredFacts(tr[j], b);
    TokensGrowIn(tr[i], tr[j], a, b);
    TokensUnique(tr, steps, j, a, b);
  }

  // ----- takeover -----

  /** A claim that replaces a held lease is written no earlier than that lease was, plus its duration
      and the contender's grace, less the longest delay from a clock reading to a storage operation.
      The clocks' offsets play no part. */
  lemma TakeoverTiming(tr: seq<System>, steps: seq<Step>, i: nat, k: nat, delta: nat)
    requires Run(tr, steps) && i < |tr| && 0 < k < |tr[i].history| && tr[i].delay <= delta
    requires tr[i].history[k].purpose.Claim? && tr[i].history[k - 1].lease.held
    ensures var before, after := tr[i].history[k - 1], tr[i].history[k];
            after.at >= before.at + before.lease.duration + after.grace - delta
  {
    RunKeepsInv(tr, steps, i);
    assert Ripe(tr[i].history[k - 1], tr[i].history[k], tr[i].delay);
  }

  /** The record is held and, at this moment, too young for a contender with this grace to take it over. */
  predicate OnTime(s: System, grace: int, delta: nat) {
    && s.history != []
    && var last := s.history[|s.history| - 1];
       last.lease.held && s.time < last.at + last.lease.duration + grace - delta
  }

  /** Both records are of one acquisition: they carry the same lease ID and the same token. */
  predicate SameTenure(s: System, s': System) {
    && s.history != [] && s'.history != []
    && Record(s'.history).leaseID == Record(s.history).leaseID
    && Record(s'.history).version == Record(s.history).version
  }

  /** Every claim ever written was written with at least this grace. */
  ghost predicate ClaimsWait(h: History, grace: int) {
    forall k :: 0 <= k < |h| && h[k].purpose.Claim? ==> h[k].grace >= grace
  }

  /** From `s` to `s'` the record was only renewed. */
  ghost predicate OnlyRenewed(s: System, s': System) {
    && s.history <= s'.history && SameTenure(s, s')
    && forall k :: |s.history| <= k < |s'.history| ==> s'.history[k].purpose.Renew?
  }

  lemma OnlyRenewedTransitive(s: System, s': System, s'': System)
    requires OnlyRenewed(s, s') && OnlyRenewed(s', s'')
    ensures OnlyRenewed(s, s'')
  {
  }

  /** As long as the record is on time, one more write can only be a renewal. */
  lemma OnTimeStep(s: System, step: Step, grace: int, delta: nat)
    requires Enabled(s, step) && HistoryOK(Apply(s, step))
    requires OnTime(s, grace, delta) && OnTime(Apply(s, step), grace, delta) && Apply(s, step).delay <= delta
    requires ClaimsWait(Apply(s, step).history, grace)
    ensures OnlyRenewed(s, Apply(s, step)) && s.delay <= delta && ClaimsWait(s.history, grace)
  {
    hide Resume;
    var h, h' := s.history, Apply(s, step).history;
    if h' != h {
      assert step.Write? && h' == h + [h'[|h|]] && h'[|h|].at == s.time;
      assert Ripe(h'[|h| - 1], h'[|h|], Apply(s, step).delay);
      assert Follows(h'[|h| - 1].lease, h'[|h|].purpose, h'[|h|].lease);
    }
  }

  lemma OnTimeStepOf(tr: seq<System>, steps: seq<Step>, i: nat, grace: int, delta: nat)
    requires Run(tr, steps) && i < |steps| && tr[i + 1].delay <= delta && ClaimsWait(tr[i + 1].history, grace)
    requires OnTime(tr[i], grace, delta) && OnTime(tr[i + 1], grace, delta)
    ensures OnlyRenewed(tr[i], tr[i + 1]) && tr[i].delay <= delta && ClaimsWait(tr[i].history, grace)
  {
    hide Apply, Enabled, Inv, OnTime, ClaimsWait, OnlyRenewed;
    assert Enabled(tr[i], steps[i]) && tr[i + 1] == Apply(tr[i], steps[i]);
    RunKeepsInv(tr, steps, i + 1);
    HistoryIsOK(tr[i + 1]);
    OnTimeStep(tr[i], steps[i], grace, delta);
  }

  /** Renewal keeps the lock: while the clock stays short of the record's duration plus the contenders'
      grace, less the delay, every write is a renewal, and lease ID and token stay. */
  lemma {:induction false} RenewalKeepsLock(tr: seq<System>, steps: seq<Step>, a: nat, b: nat, grace: int, delta: nat)
    requires Run(tr, steps) && a <= b < |tr| && tr[b].delay <= delta && ClaimsWait(tr[b].history, grace)
    requires forall i :: a <= i <= b ==> OnTime(tr[i], grace, delta)
    ensures OnlyRenewed(tr[a], tr[b])
    decreases b
  {
    if a < b {
      assert |tr| == |steps| + 1;
      hide Run, ClaimsWait;
      OnTimeStepOf(tr, steps, b - 1, grace, delta);
      RenewalKeepsLock(tr, steps, a, b - 1, grace, delta);
      hide OnTime, OnlyRenewed;
      OnlyRenewedTransitive(tr[a], tr[b - 1], tr[b]);
    }
  }

  lemma HistoryIsOK(s: System)
    requires Inv(s)
    ensures HistoryOK(s)
  {
  }

  /** Every call of TryAcquire so far was configured with at least this grace. */
  ghost predicate ContendersWait(s: System, grace: int) {
    forall id :: id in s.clients && s.clients[id].call.op.TryAcquire? ==> s.clients[id].call.cfg.grace >= grace
  }

  lemma {:induction false} ClaimsAreContenders(tr: seq<System>, steps: seq<Step>, i: nat, grace: int)
    requires Run(tr, steps) && i < |tr| && ContendersWait(tr[i], grace)
    ensures ClaimsWait(tr[i].history, grace)
  {
    if i > 0 {
      hide Apply, Enabled, Inv;
      assert Enabled(tr[i - 1], steps[i - 1]) && tr[i] == Apply(tr[i - 1], steps[i - 1]);
      RunGrows(tr, steps, i - 1, i);
      ClaimsAreContenders(tr, steps, i - 1, grace);
      RunKeepsInv(tr, steps, i - 1);
      ClaimStep(tr[i - 1], steps[i - 1], grace);
    }
  }

  lemma ClaimStep(s: System, step: Step, grace: int)
    requires Inv(s) && Enabled(s, step) && ContendersWait(s, grace) && ClaimsWait(s.history, grace)
    ensures ClaimsWait(Apply(s, step).history, grace)
  {
    hide Resume;
    if step.Write? {
      assert ClientOK(ViewOf(s), step.id, s.clients[step.id]);
    }
  }

  /** The same from the configurations: with every contender configured to wait at least `grace`, a lock
      kept on time is not taken over. */
  lemma ContendersKeepOut(tr: seq<System>, steps: seq<Step>, a: nat, b: nat, grace: int, delta: nat)
    requires Run(tr, steps) && a <= b < |tr| && tr[b].delay <= delta && ContendersWait(tr[b], grace)
    requires forall i :: a <= i <= b ==> OnTime(tr[i], grace, delta)
    ensures OnlyRenewed(tr[a], tr[b])
  {
    ClaimsAreContenders(tr, steps, b, grace);
    RenewalKeepsLock(tr, steps, a, b, grace, delta);
  }

  /** A renewal that could be written when it was decided on can still be written later, if the record is on
      time all along and nothing else renewed or released it: the send takes effect, whatever is reported. */
  lemma RenewalOnTimePasses(tr: seq<System>, steps: seq<Step>, a: nat, b: nat, id: nat, verdict: Verdict, grace: int,
                            delta: nat)
    requires Run(tr, steps) && a <= b < |tr| && tr[b].delay <= delta && ClaimsWait(tr[b].history, grace)
    requires forall i :: a <= i <= b ==> OnTime(tr[i], grace, delta)
    requires forall k :: |tr[a].history| <= k < |tr[b].history| ==>
               !tr[b].history[k].purpose.Renew? && !tr[b].history[k].purpose.Release?
    requires Enabled(tr[b], Write(id, verdict)) && !verdict.Drop?
    requires var intent := tr[b].clients[id].call.phase.intent;
             intent.purpose.Renew? && Passes(tr[a].history, intent.cond)
    ensures var intent := tr[b].clients[id].call.phase.intent;
            var h, h' := tr[b].history, AfterWrite(tr[b], id, verdict).history;
            Passes(h, intent.cond) && |h'| == |h| + 1 && Record(h') == intent.lease && h'[|h|].writer == id
  {
    RenewalKeepsLock(tr, steps, a, b, grace, delta);
    assert tr[b].history == tr[a].history;
  }

  // ----- fencing -----

  /** The call is a renewal or a release with this handle's token. */
  predicate UsesToken(s: System, id: nat, token: int) {
    id in s.clients && HandleOf(s.clients[id].call.op, token)
  }

  predicate Succeeded(s: System, id: nat) {
    && id in s.clients && s.clients[id].call.phase.Done?
    && (s.clients[id].call.phase.outcome.Acquired? || s.clients[id].call.phase.outcome.Renewed?
        || s.clients[id].call.phase.outcome.Released?)
  }

  /** Once a larger token is in the record, no renewal or release with an older one writes again. */
  lemma StaleHandlesNeverWrite(tr: seq<System>, steps: seq<Step>, i: nat, k: nat, m: nat)
    requires Run(tr, steps) && i < |tr| && k < m < |tr[i].history|
    requires tr[i].history[m].purpose.Renew? || tr[i].history[m].purpose.Release?
    ensures var p := tr[i].history[m];
            && p.writer in tr[i].clients
            && UsesToken(tr[i], p.writer, p.lease.version)
            && tr[i].history[k].lease.version <= p.lease.version
  {
    RunKeepsInv(tr, steps, i);
    VersionsFollowIDs(tr[i].history, k, m);
  }

  lemma StaleIn(s: System, n: nat, id: nat, token: int)
    requires Inv(s) && 0 < n <= |s.history| && token < s.history[n - 1].lease.version
    requires UsesToken(s, id, token) && n <= s.clients[id].since
    ensures !Succeeded(s, id)
    ensures forall k :: 0 <= k < |s.history| ==> s.history[k].writer != id
  {
    assert ClientOK(ViewOf(s), id, s.clients[id]);
    forall k | n - 1 <= k < |s.history| ensures s.history[k].lease.version > token {
      VersionsFollowIDs(s.history, n - 1, k);
    }
    forall k | 0 <= k < |s.history| ensures s.history[k].writer != id {
      assert WroteIt(s.clients[s.history[k].writer], s.history[k], k);
    }
  }

  /** A renewal or release begun after a larger token was written does not succeed, by whatever path. */
  lemma StaleCallsFail(tr: seq<System>, steps: seq<Step>, i: nat, j: nat, id: nat, token: int)
    requires Run(tr, steps) && i <= j < |tr|
    requires tr[i].history != [] && token < Record(tr[i].history).version
    requires id !in tr[i].clients && UsesToken(tr[j], id, token)
    ensures !Succeeded(tr[j], id)
    ensures forall k :: 0 <= k < |tr[j].history| ==> tr[j].history[k].writer != id
  {
    hide Inv;
    RunKeepsInv(tr, steps, j);
    RunGrows(tr, steps, i, j);
    StaleIn(tr[j], |tr[i].history|, id, token);
  }
}
