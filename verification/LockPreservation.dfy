/** Every step of the lease protocol keeps the invariant. */
module LockPreservation {
  import opened Common
  import opened Leases
  import opened LockMachine
  import opened LockProtocol
  import opened LockInvariant

  /** The rest of the system moved on without writing anything that belongs to a client drawing `ids`. */
  ghost predicate Elsewhere(v: View, v': View, id: nat, ids: set<nat>) {
    && v.h <= v'.h && |v'.h| <= |v.h| + 1
    && (|v.h| < |v'.h| ==> 
          && v'.h[|v.h|].writer != id
          && (v'.h[|v.h|].lease.leaseID !in ids || v'.h[|v.h|].lease.leaseID in v.issued))
    && v.issued <= v'.issued && (v'.issued - v.issued) !! ids
    && v.time <= v'.time && v.delay <= v'.delay && v.nextID <= v'.nextID
  }

  lemma StableClient(v: View, v': View, id: nat, c: Client)
    requires ClientOK(v, id, c)
    requires Elsewhere(v, v', id, c.ids)
    ensures ClientOK(v', id, c)
  {
    assert forall k :: 0 <= k < |v.h| ==> v'.h[k] == v.h[k];
    StablePhase(v, v', id, c);
    assert InboxOK(v', id, c);
    assert WroteOK(v'.h, id, c.call.phase);
  }

  lemma StablePhase(v: View, v': View, id: nat, c: Client)
    requires PhaseOK(v, id, c)
    requires Elsewhere(v, v', id, c.ids)
    ensures PhaseOK(v', id, c)
  {
    assert forall k :: 0 <= k < |v.h| ==> v'.h[k] == v.h[k];
    match c.call.phase
    case Fetch =>
    case Send(i, _) => StableIntent(v, v', id, c, i);
    case Recover(i, _) => StableIntent(v, v', id, c, i);
    case Inspect(created) => assert AcquisitionOK(v', id, c, created);
    case Done(outcome) =>
  }

  lemma StableIntent(v: View, v': View, id: nat, c: Client, i: Intent)
    requires IntentOK(v, id, c, i)
    requires Elsewhere(v, v', id, c.ids)
    ensures IntentOK(v', id, c, i)
  {
    assert forall k :: 0 <= k < |v.h| ==> v'.h[k] == v.h[k];
    if i.purpose.Create? || i.purpose.Claim? {
      assert AcquisitionOK(v', id, c, i.lease);
    }
  }

  /** The clients stay fine when one of them, `id`, becomes `c` and the rest of the system moves on
      without touching the others. */
  lemma ClientsKept(s: System, s': System, id: nat, c: Client)
    requires Inv(s)
    requires s'.clients == s.clients[id := c] && s'.offset == s.offset
    requires ClientOK(ViewOf(s'), id, c) && Clocked(s, c)
    requires forall x :: x in c.ids ==> x >= s.nextID || (id in s.clients && x in s.clients[id].ids)
    requires forall id' :: id' in s.clients && id' != id ==>
               Elsewhere(ViewOf(s), ViewOf(s'), id', s.clients[id'].ids)
    ensures ClientsOK(s')
  {
    forall id' | id' in s'.clients ensures ClientOK(ViewOf(s'), id', s'.clients[id']) {
      if id' != id {
        StableClient(ViewOf(s), ViewOf(s'), id', s.clients[id']);
      }
    }
    forall id' | id' in s'.clients ensures Clocked(s', s'.clients[id']) {
      assert id' != id ==> Clocked(s, s.clients[id']);
    }
    forall i, j | i in s'.clients && j in s'.clients && i != j
      ensures s'.clients[i].ids !! s'.clients[j].ids
    {
      if i != id {
        assert ClientOK(ViewOf(s), i, s.clients[i]);
      }
      if j != id {
        assert ClientOK(ViewOf(s), j, s.clients[j]);
      }
    }
  }

  /** Time, delay and new clients aside, nothing has happened: the parts of the invariant that are not
      about calls still hold. */
  lemma RestKept(s: System, s': System)
    requires Inv(s)
    requires s'.history == s.history && s'.handles == s.handles && s'.issued == s.issued
    requires s'.seen == s.seen && s'.offset == s.offset
    requires s'.time >= s.time && s'.delay >= s.delay && s'.nextID >= s.nextID
    requires forall i :: i in s.clients ==>
               i in s'.clients && s'.clients[i].call.op == s.clients[i].call.op
               && s'.clients[i].since == s.clients[i].since
    ensures HistoryOK(s') && BylinesOK(s') && HandlesOK(s') && SeenOK(s') && IDsOK(s')
  {
    hide ClientsOK;
    assert TakeoversOK(s'.history, s'.delay);
    hide ChainOK, FreshOK, TakeoversOK, WritersOK;
  }

  /** Nothing has been written or issued, so nothing of anybody's. */
  lemma OthersUntouched(s: System, s': System)
    requires s'.history == s.history && s'.issued == s.issued
    requires s'.time >= s.time && s'.delay >= s.delay && s'.nextID >= s.nextID
    ensures forall id :: id in s.clients ==> Elsewhere(ViewOf(s), ViewOf(s'), id, s.clients[id].ids)
  {
  }

  /** A step that only changes client `id`, time and delay keeps the invariant if the client is fine. */
  lemma QuietStep(s: System, s': System, id: nat, c: Client)
    requires Inv(s)
    requires s'.history == s.history && s'.handles == s.handles && s'.issued == s.issued
    requires s'.seen == s.seen && s'.offset == s.offset && s'.clients == s.clients[id := c]
    requires s'.time >= s.time && s'.delay >= s.delay && s'.nextID >= s.nextID
    requires id in s.clients ==> c.call.op == s.clients[id].call.op && c.since == s.clients[id].since
    requires ClientOK(ViewOf(s'), id, c) && Clocked(s, c)
    requires forall x :: x in c.ids ==> x >= s.nextID || (id in s.clients && x in s.clients[id].ids)
    ensures Inv(s')
  {
    RestKept(s, s');
    hide HistoryOK, BylinesOK, HandlesOK, SeenOK, IDsOK;
    OthersUntouched(s, s');
    hide ClientOK, Elsewhere;
    ClientsKept(s, s', id, c);
  }

  lemma TickClientsOK(s: System, dt: nat)
    requires ClientsOK(s)
    ensures ClientsOK(Apply(s, Tick(dt)))
  {
    var s' := Apply(s, Tick(dt));
    forall id | id in s'.clients ensures ClientOK(ViewOf(s'), id, s'.clients[id]) {
      StableClient(ViewOf(s), ViewOf(s'), id, s.clients[id]);
    }
    assert forall id :: id in s'.clients ==> Clocked(s, s.clients[id]);
  }

  lemma TickKeepsInv(s: System, dt: nat)
    requires Inv(s)
    ensures Inv(Apply(s, Tick(dt)))
  {
    RestKept(s, Apply(s, Tick(dt)));
    TickClientsOK(s, dt);
  }

  lemma StartKeepsInv(s: System, id: nat, locker: nat, op: Operation, cfg: Config)
    requires Inv(s) && Enabled(s, Start(id, locker, op, cfg))
    ensures Inv(AfterStart(s, id, locker, op, cfg))
  {
    var s' := AfterStart(s, id, locker, op, cfg);
    StartedOK(s, id, locker, op, cfg);
    QuietStep(s, s', id, s'.clients[id]);
  }

  lemma StartedOK(s: System, id: nat, locker: nat, op: Operation, cfg: Config)
    requires Inv(s) && Enabled(s, Start(id, locker, op, cfg))
    ensures var s' := AfterStart(s, id, locker, op, cfg); ClientOK(ViewOf(s'), id, s'.clients[id])
  {
    var s' := AfterStart(s, id, locker, op, cfg);
    assert forall k :: 0 <= k < |s.history| ==> s.history[k].writer != id;
    if op.TryAcquire? {
      assert AcquisitionOK(ViewOf(s'), id, s'.clients[id], s'.clients[id].call.phase.intent.lease);
    }
  }

  lemma ReadKeepsInv(s: System, id: nat, fault: Option<Error>)
    requires Inv(s) && Enabled(s, Read(id, fault))
    ensures Inv(AfterRead(s, id, fault))
  {
    var s' := AfterRead(s, id, fault);
    ReadClientOK(s, id, fault);
    assert Clocked(s, s.clients[id]);
    QuietStep(s, s', id, s'.clients[id]);
  }

  lemma ReadClientOK(s: System, id: nat, fault: Option<Error>)
    requires Inv(s) && Enabled(s, Read(id, fault))
    ensures var s' := AfterRead(s, id, fault); ClientOK(ViewOf(s'), id, s'.clients[id])
  {
    var s' := AfterRead(s, id, fault);
    var v, v' := ViewOf(s), ViewOf(s');
    var c, c' := s.clients[id], s'.clients[id];
    assert ClientOK(v, id, c);
    StableClient(v, v', id, c);
    ReadInboxOK(s, id, fault);
    hide ClientOK, InboxOK;
    StableRest(v', id, c, c');
  }

  lemma ReadInboxOK(s: System, id: nat, fault: Option<Error>)
    requires ChainOK(s.history) && TimesOK(s.history, s.time) && Enabled(s, Read(id, fault))
    requires s.clients[id].since <= |s.history| && Coherent(s.clients[id].call)
    ensures var s' := AfterRead(s, id, fault); InboxOK(ViewOf(s'), id, s'.clients[id])
  {
  }

  /** A reply in the inbox changes nothing else about a client. */
  lemma StableRest(v: View, id: nat, c: Client, c': Client)
    requires ClientOK(v, id, c) && c' == c.(inbox := c'.inbox) && InboxOK(v, id, c')
    ensures ClientOK(v, id, c')
  {
    match c.call.phase
    case Fetch =>
    case Send(i, _) => SameIntent(v, id, c, c', i);
    case Recover(i, _) => SameIntent(v, id, c, c', i);
    case Inspect(created) => assert AcquisitionOK(v, id, c', created);
    case Done(outcome) =>
  }

  lemma SameIntent(v: View, id: nat, c: Client, c': Client, i: Intent)
    requires IntentOK(v, id, c, i) && c' == c.(inbox := c'.inbox)
    ensures IntentOK(v, id, c', i)
  {
    if i.purpose.Create? || i.purpose.Claim? {
      assert AcquisitionOK(v, id, c', i.lease);
    }
  }


  // ----- a send of a write -----

  /** The publication a performed write adds. */
  function Written(s: System, id: nat): Publication
    requires id in s.clients && s.clients[id].call.phase.Send?
  {
    var c := s.clients[id];
    var intent := c.call.phase.intent;
    Publication(intent.lease, s.time, id, intent.purpose, c.call.cfg.grace)
  }

  /** A write that passes its condition follows on from the record. */
  lemma WriteFollows(s: System, id: nat)
    requires Inv(s) && id in s.clients && s.clients[id].call.phase.Send?
    requires Passes(s.history, s.clients[id].call.phase.intent.cond)
    ensures var i := s.clients[id].call.phase.intent;
            && i.lease.revision == |s.history| + 1
            && (i.purpose.Create? ==> s.history == [] && i.lease.version == 1 && i.lease.held)
            && (!i.purpose.Create? ==> s.history != [] && Follows(Record(s.history), i.purpose, i.lease)
                                       && i.cond == IfMatch(Digest(Record(s.history))))
  {
    assert ClientOK(ViewOf(s), id, s.clients[id]);
  }

  /** Nothing in the history carries the ID of an acquisition about to be written. */
  lemma WriteIsNew(s: System, id: nat)
    requires Inv(s) && id in s.clients && s.clients[id].call.phase.Send?
    requires Passes(s.history, s.clients[id].call.phase.intent.cond)
    ensures var i := s.clients[id].call.phase.intent;
            && (i.purpose.Claim? ==>
                  forall k :: 0 <= k < |s.history| ==> s.history[k].lease.leaseID != i.lease.leaseID)
            && forall k :: 0 <= k < |s.history| && s.history[k].writer == id ==>
                 s.history[k].purpose.Create? && i.purpose.Claim?
  {
    WriteFollows(s, id);
    assert ClientOK(ViewOf(s), id, s.clients[id]);
    var i := s.clients[id].call.phase.intent;
    assert forall k :: 0 <= k < |s.history| ==> s.history[k].lease != i.lease;
  }

  /** A claim on a held lease is written late enough. */
  lemma WriteIsRipe(s: System, id: nat)
    requires Inv(s) && id in s.clients && s.clients[id].call.phase.Send?
    requires Passes(s.history, s.clients[id].call.phase.intent.cond)
    requires s.history != []
    ensures Ripe(s.history[|s.history| - 1], Written(s, id), s.delay)
  {
    WriteFollows(s, id);
    assert ClientOK(ViewOf(s), id, s.clients[id]);
  }

  /** Appending one publication that follows on keeps the history in order. */
  lemma AppendOK(h: History, p: Publication, time: int, delay: nat)
    requires ChainOK(h) && TimesOK(h, time) && TakeoversOK(h, delay)
    requires p.lease.revision == |h| + 1 && p.lease.duration > 0 && p.at == time
    requires h == [] ==> p.purpose.Create? && p.lease.version == 1 && p.lease.held
    requires h != [] ==> Follows(Record(h), p.purpose, p.lease) && Ripe(h[|h| - 1], p, delay)
    ensures var h' := h + [p]; ChainOK(h') && TimesOK(h', time) && TakeoversOK(h', delay)
  {
    var h' := h + [p];
    assert ChainOK(h');
    assert TimesOK(h', time);
    assert TakeoversOK(h', delay);
  }

  lemma AppendNew(h: History, p: Publication)
    requires FreshOK(h) && WritersOK(h)
    requires p.purpose.Claim? ==> forall k :: 0 <= k < |h| ==> h[k].lease.leaseID != p.lease.leaseID
    requires forall k :: 0 <= k < |h| && h[k].writer == p.writer ==> h[k].purpose.Create? && p.purpose.Claim?
    ensures FreshOK(h + [p]) && WritersOK(h + [p])
  {
  }

  lemma WrittenHistoryOK(s: System, s': System, id: nat)
    requires Inv(s) && id in s.clients && s.clients[id].call.phase.Send?
    requires Passes(s.history, s.clients[id].call.phase.intent.cond)
    requires s'.history == s.history + [Written(s, id)] && s'.time == s.time && s'.delay >= s.delay
    ensures HistoryOK(s')
  {
    WriteFollows(s, id);
    WriteIsNew(s, id);
    if s.history != [] {
      WriteIsRipe(s, id);
    }
    assert Written(s, id).lease.duration > 0 by {
      assert ClientOK(ViewOf(s), id, s.clients[id]);
    }
    AppendOK(s.history, Written(s, id), s.time, s.delay);
    AppendNew(s.history, Written(s, id));
  }

  lemma WrittenRestOK(s: System, s': System, p: Publication)
    requires BylinesOK(s) && HandlesOK(s) && SeenOK(s) && IDsOK(s)
    requires s'.history == s.history + [p] && s'.delay >= s.delay
    requires s'.handles == s.handles && s'.issued == s.issued && s'.seen == s.seen && s'.offset == s.offset
    requires s'.nextID == s.nextID && s'.clients.Keys == s.clients.Keys && p.writer in s.clients
    requires forall i :: i in s.clients ==>
               s'.clients[i].call.op == s.clients[i].call.op && s'.clients[i].since == s.clients[i].since
    requires p.lease.leaseID < s.nextID
    requires WroteIt(s.clients[p.writer], p, |s.history|)
    ensures BylinesOK(s') && HandlesOK(s') && SeenOK(s') && IDsOK(s')
  {
    assert forall k :: 0 <= k < |s.history| ==> s'.history[k] == s.history[k];
    assert BylinesOK(s');
    assert HandlesOK(s');
    assert SeenOK(s');
    assert IDsOK(s');
  }

  /** The writer of `p`, whose intent it was, once `p` is in the history and the reply in its inbox. */
  lemma WriterOK(v: View, v': View, id: nat, c: Client, p: Publication, reply: Reply)
    requires ClientOK(v, id, c) && c.call.phase.Send?
    requires p.lease == c.call.phase.intent.lease && p.purpose == c.call.phase.intent.purpose
    requires p.writer == id && p.at == v.time && p.lease.revision == |v.h| + 1
    requires v'.h == v.h + [p] && v'.time == v.time && v'.issued == v.issued && v'.nextID == v.nextID
    requires v'.delay >= v.delay && v'.delay >= v.time - c.began
    requires reply.Refused? || reply == Stored(Digest(p.lease))
    ensures ClientOK(v', id, c.(inbox := Some(reply)))
  {
    var c' := c.(inbox := Some(reply));
    var i := c.call.phase.intent;
    assert forall k :: 0 <= k < |v.h| ==> v'.h[k] == v.h[k];
    if i.purpose.Create? || i.purpose.Claim? {
      assert AcquisitionOK(v', id, c', i.lease);
    }
    assert IntentOK(v', id, c', i);
    assert InboxOK(v', id, c');
    assert WroteOK(v'.h, id, c'.call.phase);
  }

  lemma OthersElsewhere(s: System, s': System, id: nat, other: nat)
    requires Inv(s) && id in s.clients && s.clients[id].call.phase.Send?
    requires other in s.clients && other != id
    requires s'.history == s.history + [Written(s, id)] && s'.time == s.time && s'.issued == s.issued
    requires s'.nextID == s.nextID && s'.delay >= s.delay
    ensures Elsewhere(ViewOf(s), ViewOf(s'), other, s.clients[other].ids)
  {
    assert ClientOK(ViewOf(s), id, s.clients[id]);
    assert s.clients[id].ids !! s.clients[other].ids;
  }

  /** The client of a write that was not performed has its reply, which is a refusal. */
  lemma UnwrittenClientOK(s: System, id: nat, verdict: Verdict)
    requires Enabled(s, Write(id, verdict)) && ClientOK(ViewOf(s), id, s.clients[id])
    requires AfterWrite(s, id, verdict).history == s.history
    ensures var s' := AfterWrite(s, id, verdict); ClientOK(ViewOf(s'), id, s'.clients[id])
  {
    var s' := AfterWrite(s, id, verdict);
    var c, c' := s.clients[id], s'.clients[id];
    assert c'.inbox.value.Refused?;
    StableClient(ViewOf(s), ViewOf(s'), id, c);
    assert InboxOK(ViewOf(s'), id, c');
    hide ClientOK, InboxOK;
    StableRest(ViewOf(s'), id, c, c');
  }

  lemma WriteKeepsInv(s: System, id: nat, verdict: Verdict)
    requires Inv(s) && Enabled(s, Write(id, verdict))
    ensures Inv(AfterWrite(s, id, verdict))
  {
    var s' := AfterWrite(s, id, verdict);
    var c, c' := s.clients[id], s'.clients[id];
    assert ClientOK(ViewOf(s), id, c) && Clocked(s, c);
    hide Inv, ClientOK;
    if s'.history == s.history {
      UnwrittenClientOK(s, id, verdict);
      QuietStep(s, s', id, c');
    } else {
      PerformedKeepsInv(s, s', id, c'.inbox.value);
    }
  }

  lemma WriterIsEntitled(s: System, id: nat)
    requires Inv(s) && id in s.clients && s.clients[id].call.phase.Send?
    ensures Written(s, id).lease.leaseID < s.nextID && WroteIt(s.clients[id], Written(s, id), |s.history|)
  {
    assert ClientOK(ViewOf(s), id, s.clients[id]);
  }

  lemma PerformedKeepsInv(s: System, s': System, id: nat, reply: Reply)
    requires Inv(s) && id in s.clients && s.clients[id].call.phase.Send?
    requires Passes(s.history, s.clients[id].call.phase.intent.cond)
    requires s'.history == s.history + [Written(s, id)]
    requires s'.delay >= s.delay && s'.delay >= s.time - s.clients[id].began
    requires reply.Refused? || reply == Stored(Digest(s.clients[id].call.phase.intent.lease))
    requires s' == s.(history := s'.history, delay := s'.delay,
                      clients := s.clients[id := s.clients[id].(inbox := Some(reply))])
    ensures Inv(s')
  {
    hide HistoryOK, BylinesOK, HandlesOK, SeenOK, IDsOK;
    assert ClientOK(ViewOf(s), id, s.clients[id]) && Clocked(s, s.clients[id]);
    hide ClientsOK;
    WrittenHistoryOK(s, s', id);
    WriteFollows(s, id);
    WriterIsEntitled(s, id);
    hide PhaseOK, InboxOK, WroteOK;
    WrittenRestOK(s, s', Written(s, id));
    WriterOK(ViewOf(s), ViewOf(s'), id, s.clients[id], Written(s, id), reply);
    forall other | other in s.clients && other != id
      ensures Elsewhere(ViewOf(s), ViewOf(s'), other, s.clients[other].ids)
    {
      OthersElsewhere(s, s', id, other);
    }
    ClientsKept(s, s', id, s.clients[id].(inbox := Some(reply)));
  }
}
