/** The steps in which a call digests a storage reply keep the invariant. */
module LockLocal {
  import opened Common
  import opened Leases
  import opened LockMachine
  import opened LockProtocol
  import opened LockInvariant
  import opened LockPreservation

  /** The observation is of a state the record had, first seen no earlier than it was written, give
      or take the delay. */
  ghost predicate Justified(s: System, locker: nat, o: Option<Observation>) {
    o.Some? ==>
      && StoredIn(s.history, o.value.etag.lease)
      && s.history[o.value.etag.lease.revision - 1].at <= o.value.firstSeen - s.offset(locker) + s.delay
  }

  function ViewAfter(s: System, phase: Phase): View {
    View(s.history, s.time, s.delay, s.issued + IssuedBy(phase), s.nextID + 1)
  }

  /** What has to be shown of a call that resumed. */
  ghost predicate Resumes(s: System, id: nat, c: Client, r: (Call, Option<Observation>)) {
    var c' := Resumed(s.nextID, c, r.0);
    && PhaseOK(ViewAfter(s, r.0.phase), id, c')
    && WroteOK(s.history, id, r.0.phase)
    && IssuedBy(r.0.phase) <= c.ids
    && r.0.op == c.call.op && r.0.cfg == c.call.cfg && r.0.now == c.call.now
    && Justified(s, c.locker, r.1)
  }

  /** The state a call resumes in. */
  ghost predicate Resumable(s: System, id: nat) {
    && ChainOK(s.history) && IDsOK(s) && id in s.clients && s.clients[id].inbox.Some?
    && ClientOK(ViewOf(s), id, s.clients[id]) && Clocked(s, s.clients[id])
    && Justified(s, s.clients[id].locker, Lookup(s.seen, s.clients[id].locker))
  }

  /** Reporting success is right once the intended lease is known to have been stored. */
  lemma SettlePhaseOK(v: View, v': View, id: nat, c: Client, c': Client, i: Intent)
    requires ChainOK(v.h) && c.call.op == c'.call.op && c'.since == c.since && c.ids <= c'.ids
    requires IntentOK(v, id, c, i) && StoredIn(v.h, i.lease) && c.since <= i.lease.revision
    requires c'.call == Settle(c.call, i.lease, Digest(i.lease)).0
    requires v' == v.(issued := v.issued + IssuedBy(c'.call.phase), nextID := v'.nextID)
    ensures PhaseOK(v', id, c') && IssuedBy(c'.call.phase) <= c.ids
  {
    var k := i.lease.revision - 1;
    assert v.h[k].lease == i.lease;
    match c.call.op
    case TryAcquire =>
      assert v.h[k].lease.leaseID == i.lease.leaseID;
      assert AcquiredOK(v', id, c', c'.call.phase.outcome.handle);
    case Renewing(_) =>
      assert OutcomeOK(v', id, c', c'.call.phase.outcome);
    case Releasing(_) =>
      assert !v.h[k].lease.held;
      assert v.h[k].purpose.Release? by {
        assert k > 0 ==> Follows(v.h[k - 1].lease, v.h[k].purpose, v.h[k].lease);
      }
      assert OutcomeOK(v', id, c', c'.call.phase.outcome);
  }

  lemma SettleOK(s: System, id: nat, i: Intent)
    requires Resumable(s, id)
    requires IntentOK(ViewOf(s), id, s.clients[id], i) && StoredIn(s.history, i.lease)
    requires SeenSince(ViewOf(s), s.clients[id], i.lease)
    ensures Resumes(s, id, s.clients[id],
                    Settle(s.clients[id].call, i.lease, Digest(i.lease)))
  {
    var c := s.clients[id];
    var r := Settle(c.call, i.lease, Digest(i.lease));
    SettlePhaseOK(ViewOf(s), ViewAfter(s, r.0.phase), id, c, Resumed(s.nextID, c, r.0), i);
  }

  /** A client whose intent was fine still has a fine intent after drawing one more lease ID. */
  lemma KeptIntent(s: System, id: nat, i: Intent, phase: Phase)
    requires Resumable(s, id)
    requires IntentOK(ViewOf(s), id, s.clients[id], i)
    requires IssuedBy(phase) == {}
    ensures forall call: Call :: call.op == s.clients[id].call.op && call.cfg == s.clients[id].call.cfg ==>
              IntentOK(ViewAfter(s, phase), id, Resumed(s.nextID, s.clients[id], call), i)
  {
    var c := s.clients[id];
    forall call: Call | call.op == c.call.op && call.cfg == c.call.cfg
      ensures IntentOK(ViewAfter(s, phase), id, Resumed(s.nextID, c, call), i)
    {
      if i.purpose.Create? || i.purpose.Claim? {
        assert AcquisitionOK(ViewAfter(s, phase), id, Resumed(s.nextID, c, call), i.lease);
      }
    }
  }

  lemma WriteReplyOK(s: System, id: nat, alive: bool)
    requires Resumable(s, id) && s.clients[id].call.phase.Send?
    ensures var c := s.clients[id];
            Resumes(s, id, c, OnWrite(c.call, Lookup(s.seen, c.locker), c.inbox.value, alive))
  {
    var c := s.clients[id];
    var r := OnWrite(c.call, Lookup(s.seen, c.locker), c.inbox.value, alive);
    var i := c.call.phase.intent;
    if c.inbox.value.Stored? {
      SettleOK(s, id, i);
    } else {
      KeptIntent(s, id, i, r.0.phase);
    }
  }

  lemma RecoverReplyOK(s: System, id: nat)
    requires Resumable(s, id) && s.clients[id].call.phase.Recover?
    ensures var c := s.clients[id];
            Resumes(s, id, c, OnRecover(c.call, Lookup(s.seen, c.locker), c.inbox.value))
  {
    var c := s.clients[id];
    var r := OnRecover(c.call, Lookup(s.seen, c.locker), c.inbox.value);
    var i := c.call.phase.intent;
    if c.inbox.value.Found? && SameLeaseState(c.inbox.value.lease, i.lease) {
      assert c.inbox.value.lease == i.lease;
      SettleOK(s, id, i);
    } else if r.0.phase.Inspect? {
      assert AcquisitionOK(ViewAfter(s, r.0.phase), id, Resumed(s.nextID, c, r.0), i.lease);
    }
  }

  /** The claim drawn up after looking at another client's lease. */
  lemma ClaimOK(s: System, id: nat, existing: Lease, call: Call)
    requires Resumable(s, id) && s.clients[id].call.phase.Inspect?
    requires s.clients[id].inbox.value == Found(existing, Digest(existing))
    requires existing.held ==>
               Expired(Lookup(s.seen, s.clients[id].locker), Digest(existing), existing.duration,
                       s.clients[id].call.cfg.ttl, s.clients[id].call.now, s.clients[id].call.cfg.grace)
    requires call.op == s.clients[id].call.op && call.cfg == s.clients[id].call.cfg
    ensures var c := s.clients[id];
            var i := Intent(Claim, ClaimedLease(existing, c.call.name, c.call.cfg, c.call.now, s.nextID),
                            IfMatch(Digest(existing)));
            IntentOK(View(s.history, s.time, s.delay, s.issued, s.nextID + 1), id, Resumed(s.nextID, c, call), i)
  {
    var c := s.clients[id];
    var v' := View(s.history, s.time, s.delay, s.issued, s.nextID + 1);
    var i := Intent(Claim, ClaimedLease(existing, c.call.name, c.call.cfg, c.call.now, s.nextID),
                    IfMatch(Digest(existing)));
    assert StoredIn(s.history, existing) && c.since <= existing.revision;
    assert AcquisitionOK(v', id, Resumed(s.nextID, c, call), i.lease);
    if existing.held {
      assert s.history[existing.revision - 1].lease.duration > 0;
      assert c.began >= s.history[existing.revision - 1].at + existing.duration + c.call.cfg.grace - s.delay;
    }
  }

  lemma InspectReplyOK(s: System, id: nat)
    requires Resumable(s, id) && s.clients[id].call.phase.Inspect?
    ensures var c := s.clients[id];
            Resumes(s, id, c, OnInspect(c.call, Lookup(s.seen, c.locker), c.inbox.value, s.nextID))
  {
    var c := s.clients[id];
    var seen := Lookup(s.seen, c.locker);
    var r := OnInspect(c.call, seen, c.inbox.value, s.nextID);
    if c.inbox.value.Found? {
      var existing := c.inbox.value.lease;
      LookOK(s, id, existing);
      if existing.leaseID == c.call.phase.created.leaseID {
        OwnLeaseOK(s, id, existing);
      } else if r.0.phase.Send? {
        ClaimOK(s, id, existing, r.0);
        assert PhaseOK(ViewAfter(s, r.0.phase), id, Resumed(s.nextID, c, r.0));
      }
    }
  }

  /** What canTakeOver leaves behind is justified by the read it is about. */
  lemma LookOK(s: System, id: nat, l: Lease)
    requires Resumable(s, id) && SeenSince(ViewOf(s), s.clients[id], l)
    ensures var c := s.clients[id];
            Justified(s, c.locker, AfterLook(Lookup(s.seen, c.locker), Digest(l), c.call.now))
  {
  }

  /** Reading one's own lease ID back means the create had been stored after all. */
  lemma OwnLeaseOK(s: System, id: nat, existing: Lease)
    requires Resumable(s, id) && s.clients[id].call.phase.Inspect?
    requires s.clients[id].inbox.value == Found(existing, Digest(existing))
    requires existing.leaseID == s.clients[id].call.phase.created.leaseID
    ensures Resumes(s, id, s.clients[id],
                    Settle(s.clients[id].call, existing, Digest(existing)))
  {
    var c := s.clients[id];
    var r := Settle(c.call, existing, Digest(existing));
    assert Own(s.history, id, c.since, c.call.phase.created);
    assert s.history[existing.revision - 1].lease == existing;
    assert AcquiredOK(ViewAfter(s, r.0.phase), id, Resumed(s.nextID, c, r.0), r.0.phase.outcome.handle);
  }

  lemma FetchReplyOK(s: System, id: nat)
    requires Resumable(s, id) && s.clients[id].call.phase.Fetch?
    requires s.clients[id].began <= s.time
    ensures var c := s.clients[id];
            Resumes(s, id, c, OnFetch(c.call, Lookup(s.seen, c.locker), c.inbox.value,
                                      s.time + s.offset(c.locker)))
  {
    var c := s.clients[id];
    var r := OnFetch(c.call, Lookup(s.seen, c.locker), c.inbox.value, s.time + s.offset(c.locker));
    FetchedPhaseOK(s, id);
    FetchedLookOK(s, id);
    hide OnFetch, PhaseOK, Justified;
    assert WroteOK(s.history, id, r.0.phase);
  }

  lemma FetchedPhaseOK(s: System, id: nat)
    requires Resumable(s, id) && s.clients[id].call.phase.Fetch?
    ensures var c := s.clients[id];
            var r := OnFetch(c.call, Lookup(s.seen, c.locker), c.inbox.value, s.time + s.offset(c.locker));
            && PhaseOK(ViewAfter(s, r.0.phase), id, Resumed(s.nextID, c, r.0))
            && IssuedBy(r.0.phase) == {} && (r.0.phase.Send? || r.0.phase.Done?)
            && r.0.op == c.call.op && r.0.cfg == c.call.cfg && r.0.now == c.call.now
  {
    var c := s.clients[id];
    var r := OnFetch(c.call, Lookup(s.seen, c.locker), c.inbox.value, s.time + s.offset(c.locker));
    if r.0.phase.Send? {
      HandleIntentOK(s, id, c.inbox.value.lease, r.0);
      hide IntentOK;
    }
  }

  lemma FetchedLookOK(s: System, id: nat)
    requires Resumable(s, id) && s.clients[id].call.phase.Fetch?
    requires s.clients[id].began <= s.time
    ensures var c := s.clients[id];
            Justified(s, c.locker, OnFetch(c.call, Lookup(s.seen, c.locker), c.inbox.value,
                                           s.time + s.offset(c.locker)).1)
  {
    if s.clients[id].inbox.value.Found? {
      LookOK(s, id, s.clients[id].inbox.value.lease);
    }
  }

  /** The write a holder draws up after its handle was found valid. */
  lemma HandleIntentOK(s: System, id: nat, existing: Lease, call: Call)
    requires Resumable(s, id) && s.clients[id].call.phase.Fetch?
    requires s.clients[id].inbox.value == Found(existing, Digest(existing))
    requires var c := s.clients[id];
             call == OnFetch(c.call, Lookup(s.seen, c.locker), c.inbox.value, s.time + s.offset(c.locker)).0
    requires call.phase.Send?
    ensures IntentOK(View(s.history, s.time, s.delay, s.issued, s.nextID + 1), id,
                     Resumed(s.nextID, s.clients[id], call), call.phase.intent)
  {
  }

  lemma ReplyOK(s: System, id: nat, env: Env)
    requires Resumable(s, id)
    requires env.clock == s.time + s.offset(s.clients[id].locker) && env.freshID == s.nextID
    ensures var c := s.clients[id];
            Resumes(s, id, c, Resume(c.call, Lookup(s.seen, c.locker), c.inbox.value, env))
  {
    match s.clients[id].call.phase
    case Fetch => FetchReplyOK(s, id);
    case Send(_, _) => WriteReplyOK(s, id, env.alive);
    case Recover(_, _) => RecoverReplyOK(s, id);
    case Inspect(_) => InspectReplyOK(s, id);
  }

  lemma ResumedOK(s: System, id: nat, r: (Call, Option<Observation>))
    requires id in s.clients && ClientOK(ViewOf(s), id, s.clients[id])
    requires Resumes(s, id, s.clients[id], r) && Coherent(r.0)
    ensures ClientOK(ViewAfter(s, r.0.phase), id, Resumed(s.nextID, s.clients[id], r.0))
  {
  }

  /** What a call hands out names a stored lease whose ID is issued. */
  lemma HandedOut(s: System, id: nat, r: (Call, Option<Observation>))
    requires id in s.clients && Resumes(s, id, s.clients[id], r)
    ensures forall h :: h in HandlesOf(r.0.phase) ==>
              && StoredIn(s.history, h.etag.lease) && h.token == h.etag.lease.version
              && h.etag.lease.leaseID in s.issued + IssuedBy(r.0.phase)
  {
  }

  lemma LocalSeenOK(s: System, id: nat, r: (Call, Option<Observation>))
    requires SeenOK(s) && id in s.clients && Justified(s, s.clients[id].locker, r.1)
    ensures SeenOK(AfterResume(s, id, r))
  {
  }

  lemma LocalHandlesOK(s: System, id: nat, r: (Call, Option<Observation>))
    requires HandlesOK(s) && IDsOK(s)
    requires id in s.clients && (forall x :: x in s.clients[id].ids ==> x < s.nextID)
    requires IssuedBy(r.0.phase) <= s.clients[id].ids
    requires forall h :: h in HandlesOf(r.0.phase) ==>
               && StoredIn(s.history, h.etag.lease) && h.token == h.etag.lease.version
               && h.etag.lease.leaseID in s.issued + IssuedBy(r.0.phase)
    ensures var s' := AfterResume(s, id, r); HandlesOK(s') && IDsOK(s')
  {
  }

  lemma LocalBylinesOK(s: System, id: nat, r: (Call, Option<Observation>))
    requires BylinesOK(s) && id in s.clients && r.0.op == s.clients[id].call.op
    ensures BylinesOK(AfterResume(s, id, r))
  {
  }

  lemma LocalClientsOK(s: System, id: nat, r: (Call, Option<Observation>))
    requires Inv(s) && id in s.clients
    requires IssuedBy(r.0.phase) <= s.clients[id].ids
    requires ClientOK(ViewAfter(s, r.0.phase), id, Resumed(s.nextID, s.clients[id], r.0))
    requires r.0.now == s.clients[id].call.now
    ensures ClientsOK(AfterResume(s, id, r))
  {
    var s' := AfterResume(s, id, r);
    assert ViewOf(s') == ViewAfter(s, r.0.phase);
    forall other | other in s.clients && other != id
      ensures Elsewhere(ViewOf(s), ViewOf(s'), other, s.clients[other].ids)
    {
      assert s.clients[id].ids !! s.clients[other].ids;
    }
    assert Clocked(s, s.clients[id]);
    ClientsKept(s, s', id, s'.clients[id]);
  }

  lemma ResumeKeepsInv(s: System, id: nat, r: (Call, Option<Observation>))
    requires Inv(s) && id in s.clients
    requires ClientOK(ViewOf(s), id, s.clients[id]) && Resumes(s, id, s.clients[id], r) && Coherent(r.0)
    ensures Inv(AfterResume(s, id, r))
  {
    ResumedOK(s, id, r);
    HandedOut(s, id, r);
    LocalSeenOK(s, id, r);
    LocalHandlesOK(s, id, r);
    LocalBylinesOK(s, id, r);
    LocalClientsOK(s, id, r);
  }

  lemma InvResumable(s: System, id: nat)
    requires Inv(s) && id in s.clients && s.clients[id].inbox.Some?
    ensures Resumable(s, id) && ClientOK(ViewOf(s), id, s.clients[id])
  {
  }

  lemma ReplyKeepsInv(s: System, id: nat, env: Env)
    requires Inv(s) && Resumable(s, id)
    requires env.clock == s.time + s.offset(s.clients[id].locker) && env.freshID == s.nextID
    ensures var c := s.clients[id];
            Inv(AfterResume(s, id, Resume(c.call, Lookup(s.seen, c.locker), c.inbox.value, env)))
  {
    hide Resume;
    ReplyOK(s, id, env);
    var c := s.clients[id];
    ResumeKeepsInv(s, id, Resume(c.call, Lookup(s.seen, c.locker), c.inbox.value, env));
  }

  lemma LocalKeepsInv(s: System, id: nat, alive: bool)
    requires Inv(s) && Enabled(s, Local(id, alive))
    ensures Inv(AfterLocal(s, id, alive))
  {
    hide Resume, Inv;
    InvResumable(s, id);
    ReplyKeepsInv(s, id, Env(alive, s.time + s.offset(s.clients[id].locker), s.nextID));
  }

  lemma StepKeepsInv(s: System, step: Step)
    requires Inv(s) && Enabled(s, step)
    ensures Inv(Apply(s, step))
  {
    match step
    case Tick(dt) => TickKeepsInv(s, dt);
    case Start(id, locker, op, cfg) => StartKeepsInv(s, id, locker, op, cfg);
    case Write(id, verdict) => WriteKeepsInv(s, id, verdict);
    case Read(id, fault) => ReadKeepsInv(s, id, fault);
    case Local(id, alive) => LocalKeepsInv(s, id, alive);
  }

  /** The invariant holds in every state of every run. */
  lemma {:induction false} RunKeepsInv(tr: seq<System>, steps: seq<Step>, i: nat)
    requires Run(tr, steps) && i < |tr|
    ensures Inv(tr[i])
  {
    if i > 0 {
      RunKeepsInv(tr, steps, i - 1);
      StepKeepsInv(tr[i - 1], steps[i - 1]);
    }
  }
}
