/** What the lease writes contain: every publication of every run, and every handle handed out, carries the
    values its call was configured with and the clock reading the call began with. */
module LockContents {
  import opened Common
  import opened Leases
  import opened LockMachine
  import opened LockProtocol
  import opened LockInvariant
  import opened LockLocal
  import opened LockTheorems

  /** What a call writes for this purpose. What a renewal or a release does not write stays as it was, see
      Follows. */
  predicate Configured(c: Call, purpose: Purpose, lease: Lease) {
    match purpose
    case Release => !lease.held && lease.expiresAt == c.now
    case Renew => lease.held && lease.duration == c.cfg.ttl && lease.expiresAt == c.now + c.cfg.ttl
    case _ =>
      && lease.held && lease.duration == c.cfg.ttl && lease.expiresAt == c.now + c.cfg.ttl
      && lease.id == c.name && lease.owner == c.cfg.owner && lease.acquiredAt == c.now
  }

  predicate CallContents(c: Call) {
    match c.phase
    case Fetch => true
    case Send(i, _) => Configured(c, i.purpose, i.lease)
    case Recover(i, _) => Configured(c, i.purpose, i.lease)
    case Inspect(created) => Configured(c, Create, created)
    case Done(Acquired(h)) =>
      && h.name == c.name && h.key == c.key && h.owner == c.cfg.owner
      && h.acquiredAt == c.now && h.expiresAt == c.now + c.cfg.ttl
      && h.etag.lease.owner == h.owner && h.etag.lease.version == h.token
      && h.etag.lease.acquiredAt == h.acquiredAt && h.etag.lease.expiresAt == h.expiresAt
    case Done(Renewed(h)) =>
      && c.op.Renewing? && h == c.op.handle.(etag := h.etag, expiresAt := c.now + c.cfg.ttl)
      && h.etag.lease.duration == c.cfg.ttl && h.etag.lease.expiresAt == h.expiresAt
    case Done(_) => true
  }

  ghost predicate Contents(s: System) {
    && (forall id :: id in s.clients ==> CallContents(s.clients[id].call))
    && (forall k :: 0 <= k < |s.history| ==>
          s.history[k].writer in s.clients
          && Configured(s.clients[s.history[k].writer].call, s.history[k].purpose, s.history[k].lease))
  }

  /** The replies a call may act on: a stored lease is reported under its own ETag, and a lease with the ID it
      has drawn is the one it created. */
  predicate Genuine(c: Call, reply: Reply) {
    && (reply.Found? ==> reply.etag == Digest(reply.lease))
    && (reply.Stored? && c.phase.Send? ==> reply.etag == Digest(c.phase.intent.lease))
    && (c.phase.Inspect? && reply.Found? && reply.lease.leaseID == c.phase.created.leaseID ==>
          reply.lease == c.phase.created)
  }

  lemma SettleContents(c: Call, purpose: Purpose, lease: Lease)
    requires Serves(c.op, purpose) && Configured(c, purpose, lease)
    ensures CallContents(Settle(c, lease, Digest(lease)).0)
  {
  }

  lemma FetchContents(c: Call, seen: Option<Observation>, reply: Reply, clock: int)
    requires Coherent(c) && c.phase.Fetch? && Expects(c.phase, reply)
    ensures CallContents(OnFetch(c, seen, reply, clock).0)
  {
  }

  lemma WriteContents(c: Call, seen: Option<Observation>, reply: Reply, alive: bool)
    requires Coherent(c) && c.phase.Send? && Expects(c.phase, reply) && CallContents(c) && Genuine(c, reply)
    ensures CallContents(OnWrite(c, seen, reply, alive).0)
  {
    SettleContents(c, c.phase.intent.purpose, c.phase.intent.lease);
    hide Settle;
  }

  lemma RecoverContents(c: Call, seen: Option<Observation>, reply: Reply)
    requires Coherent(c) && c.phase.Recover? && Expects(c.phase, reply) && CallContents(c) && Genuine(c, reply)
    ensures CallContents(OnRecover(c, seen, reply).0)
  {
    SettleContents(c, c.phase.intent.purpose, c.phase.intent.lease);
    hide Settle;
  }

  lemma InspectContents(c: Call, seen: Option<Observation>, reply: Reply, freshID: nat)
    requires Coherent(c) && c.phase.Inspect? && Expects(c.phase, reply) && CallContents(c) && Genuine(c, reply)
    ensures CallContents(OnInspect(c, seen, reply, freshID).0)
  {
    SettleContents(c, Create, c.phase.created);
    hide Settle;
  }

  lemma ResumeContents(c: Call, seen: Option<Observation>, reply: Reply, env: Env)
    requires Coherent(c) && Expects(c.phase, reply) && CallContents(c) && Genuine(c, reply)
    ensures CallContents(Resume(c, seen, reply, env).0)
  {
    hide OnFetch, OnWrite, OnRecover, OnInspect, CallContents;
    match c.phase
    case Fetch => FetchContents(c, seen, reply, env.clock);
    case Send(_, _) => WriteContents(c, seen, reply, env.alive);
    case Recover(_, _) => RecoverContents(c, seen, reply);
    case Inspect(_) => InspectContents(c, seen, reply, env.freshID);
  }

  lemma RepliesAreGenuine(s: System, id: nat)
    requires Inv(s) && id in s.clients && s.clients[id].inbox.Some?
    ensures Genuine(s.clients[id].call, s.clients[id].inbox.value)
  {
    var c := s.clients[id];
    assert ClientOK(ViewOf(s), id, c);
    if c.call.phase.Inspect? && c.inbox.value.Found? && c.inbox.value.lease.leaseID == c.call.phase.created.leaseID {
      var k := c.inbox.value.lease.revision - 1;
      assert s.history[k].lease == c.inbox.value.lease;
      assert Own(s.history, id, c.since, c.call.phase.created);
    }
  }

  lemma ResumedKeepsContents(s: System, id: nat, r: (Call, Option<Observation>))
    requires Contents(s) && id in s.clients && CallContents(r.0)
    requires r.0.cfg == s.clients[id].call.cfg && r.0.now == s.clients[id].call.now
    requires r.0.name == s.clients[id].call.name
    ensures Contents(AfterResume(s, id, r))
  {
    hide CallContents;
  }

  lemma LocalKeepsContents(s: System, id: nat, alive: bool)
    requires Inv(s) && Contents(s) && Enabled(s, Local(id, alive))
    ensures Contents(AfterLocal(s, id, alive))
  {
    hide Resume, Inv, AfterResume, CallContents;
    var c := s.clients[id];
    var env := Env(alive, s.time + s.offset(c.locker), s.nextID);
    RepliesAreGenuine(s, id);
    ResumeContents(c.call, Lookup(s.seen, c.locker), c.inbox.value, env);
    ResumeKeepsOp(c.call, Lookup(s.seen, c.locker), c.inbox.value, env);
    hide Contents;
    ResumedKeepsContents(s, id, Resume(c.call, Lookup(s.seen, c.locker), c.inbox.value, env));
  }

  lemma WriteKeepsContents(s: System, id: nat, verdict: Verdict)
    requires Contents(s) && Enabled(s, Write(id, verdict))
    ensures Contents(AfterWrite(s, id, verdict))
  {
    var s' := AfterWrite(s, id, verdict);
    assert CallContents(s.clients[id].call);
    assert forall i :: i in s.clients ==> s'.clients[i].call == s.clients[i].call;
    hide Configured;
  }

  lemma StepKeepsContents(s: System, step: Step)
    requires Inv(s) && Contents(s) && Enabled(s, step)
    ensures Contents(Apply(s, step))
  {
    hide AfterLocal, AfterWrite, Inv;
    match step
    case Local(id, alive) => LocalKeepsContents(s, id, alive);
    case Write(id, verdict) => WriteKeepsContents(s, id, verdict);
    case _ =>
  }

  lemma {:induction false} RunKeepsContents(tr: seq<System>, steps: seq<Step>, i: nat)
    requires Run(tr, steps) && i < |tr|
    ensures Contents(tr[i])
  {
    if i > 0 {
      hide Apply, Enabled, Contents;
      assert Enabled(tr[i - 1], steps[i - 1]) && tr[i] == Apply(tr[i - 1], steps[i - 1]);
      RunKeepsContents(tr, steps, i - 1);
      RunKeepsInv(tr, steps, i - 1);
      StepKeepsContents(tr[i - 1], steps[i - 1]);
    } else {
      assert tr[0].history == [] && tr[0].clients == map[];
    }
  }

  /** Every lease in the record's history says what its writer was configured with: acquisitions and renewals
      last for its TTL from the clock reading it began with, acquisitions name it as the owner, and a release
      expires the lease at that reading. */
  lemma LeasesAreConfigured(tr: seq<System>, steps: seq<Step>, i: nat, k: nat)
    requires Run(tr, steps) && i < |tr| && k < |tr[i].history|
    ensures var p := tr[i].history[k];
            && p.writer in tr[i].clients
            && var c := tr[i].clients[p.writer].call;
               && (p.purpose.Release? ==> !p.lease.held && p.lease.expiresAt == c.now)
               && (!p.purpose.Release? ==>
                     p.lease.held && p.lease.duration == c.cfg.ttl && p.lease.expiresAt == c.now + c.cfg.ttl)
               && (p.purpose.Create? || p.purpose.Claim? ==>
                     p.lease.id == c.name && p.lease.owner == c.cfg.owner && p.lease.acquiredAt == c.now)
               && (!p.purpose.Create? && !p.purpose.Claim? ==>
                     k > 0
                     && p.lease.id == tr[i].history[k - 1].lease.id && p.lease.owner == tr[i].history[k - 1].lease.owner
                     && p.lease.acquiredAt == tr[i].history[k - 1].lease.acquiredAt
                     && p.lease.leaseID == tr[i].history[k - 1].lease.leaseID)
               && (p.purpose.Release? ==> p.lease.duration == tr[i].history[k - 1].lease.duration)
  {
    RunKeepsContents(tr, steps, i);
    RunKeepsInv(tr, steps, i);
    HistoryIsOK(tr[i]);
    hide Run, Inv;
    if k > 0 {
      assert Follows(tr[i].history[k - 1].lease, tr[i].history[k].purpose, tr[i].history[k].lease);
    }
  }

  /** The handles returned carry the same values: a new one those of its call, a renewed one a new ETag and
      expiry and for the rest what it had; and they agree with the lease their ETag stands for. */
  lemma HandlesAreConfigured(tr: seq<System>, steps: seq<Step>, i: nat, id: nat)
    requires Run(tr, steps) && i < |tr| && id in tr[i].clients && tr[i].clients[id].call.phase.Done?
    ensures var c := tr[i].clients[id].call;
            match c.phase.outcome
            case Acquired(h) =>
              && h.name == c.name && h.key == c.key && h.owner == c.cfg.owner
              && h.acquiredAt == c.now && h.expiresAt == c.now + c.cfg.ttl
              && h.etag.lease.owner == h.owner && h.etag.lease.version == h.token
              && h.etag.lease.acquiredAt == h.acquiredAt && h.etag.lease.expiresAt == h.expiresAt
            case Renewed(h) =>
              && c.op.Renewing? && h == c.op.handle.(etag := h.etag, expiresAt := c.now + c.cfg.ttl)
              && h.etag.lease.duration == c.cfg.ttl && h.etag.lease.expiresAt == h.expiresAt
            case _ => true
  {
    RunKeepsContents(tr, steps, i);
  }
}
