/** Lost replies: what a read-back after a failed write proves, and what resending can do. */
module LockRecovery {
  import opened Common
  import opened Leases
  import opened LockMachine
  import opened LockProtocol
  import opened LockInvariant
  import opened LockLocal
  import opened LockTheorems

  /** A lease in an inbox is what the record was when the call's last read ran. */
  lemma {:induction false} InboxWasRead(tr: seq<System>, steps: seq<Step>, i: nat, id: nat) returns (j: nat)
    requires Run(tr, steps) && i < |tr| && id in tr[i].clients
    requires tr[i].clients[id].inbox.Some? && tr[i].clients[id].inbox.value.Found?
    ensures j < i && steps[j] == Read(id, None) && id in tr[j].clients
    ensures tr[j].clients[id].call == tr[i].clients[id].call
    ensures tr[j].history != [] && Record(tr[j].history) == tr[i].clients[id].inbox.value.lease
  {
    var s, step := tr[i - 1], steps[i - 1];
    assert Enabled(s, step) && tr[i] == Apply(s, step);
    if step == Read(id, None) {
      j := i - 1;
    } else {
      assert id in s.clients && s.clients[id].inbox == tr[i].clients[id].inbox
             && s.clients[id].call == tr[i].clients[id].call by {
        UnreadReplyStays(s, step, id);
      }
      j := InboxWasRead(tr, steps, i - 1, id);
    }
  }

  lemma UnreadReplyStays(s: System, step: Step, id: nat)
    requires Enabled(s, step) && id in Apply(s, step).clients
    requires Apply(s, step).clients[id].inbox.Some? && Apply(s, step).clients[id].inbox.value.Found?
    requires step != Read(id, None)
    ensures id in s.clients && s.clients[id].inbox == Apply(s, step).clients[id].inbox
            && s.clients[id].call == Apply(s, step).clients[id].call
  {
    hide Resume;
    match step
    case Local(_, _) =>
    case _ =>
  }

  /** Success by read-back: when the recovery read ran, the store held exactly the lease the call meant
      to write; and an acquisition reported that way was written by this very call. */
  lemma RecoveryIsSound(tr: seq<System>, steps: seq<Step>, i: nat, id: nat, alive: bool) returns (j: nat)
    requires Run(tr, steps) && i < |steps| && steps[i] == Local(id, alive)
    requires tr[i].clients[id].call.phase.Recover?
    requires Succeeded(tr[i + 1], id)
    ensures var intent := tr[i].clients[id].call.phase.intent;
            && j < i && steps[j] == Read(id, None) && id in tr[j].clients
            && tr[j].clients[id].call.phase == tr[i].clients[id].call.phase
            && tr[j].history != [] && Record(tr[j].history) == intent.lease
            && (intent.purpose.Create? || intent.purpose.Claim? ==>
                  tr[j].history[|tr[j].history| - 1].writer == id)
  {
    StepTaken(tr, steps, i);
    SuccessMeansFound(tr[i], id, alive);
    hide *;
    j := InboxWasRead(tr, steps, i, id);
    RunKeepsInv(tr, steps, j);
    RecordIsOwn(tr[j], id);
  }

  lemma SuccessMeansFound(s: System, id: nat, alive: bool)
    requires Enabled(s, Local(id, alive)) && s.clients[id].call.phase.Recover?
    requires Succeeded(Apply(s, Local(id, alive)), id)
    ensures var c := s.clients[id];
            c.inbox.Some? && c.inbox.value.Found? && c.inbox.value.lease == c.call.phase.intent.lease
  {
  }

  /** A record that is what the call meant to write was, for a create or a claim, written by the call. */
  lemma RecordIsOwn(s: System, id: nat)
    requires Inv(s) && id in s.clients && s.clients[id].call.phase.Recover?
    requires s.history != [] && Record(s.history) == s.clients[id].call.phase.intent.lease
    ensures var intent := s.clients[id].call.phase.intent;
            intent.purpose.Create? || intent.purpose.Claim? ==> s.history[|s.history| - 1].writer == id
  {
    assert ClientOK(ViewOf(s), id, s.clients[id]);
    var h := s.history;
    assert h[|h| - 1].lease == s.clients[id].call.phase.intent.lease;
  }

  // ----- resends -----

  /** However often a write is resent and however its replies are lost, a call changes the record at
      most once; TryAcquire at most once to create the record and then once to claim it. */
  lemma ResendsAreHarmless(tr: seq<System>, steps: seq<Step>, i: nat, j: nat, k: nat)
    requires Run(tr, steps) && i < |tr| && j < k < |tr[i].history|
    requires tr[i].history[j].writer == tr[i].history[k].writer
    ensures tr[i].history[j].purpose.Create? && tr[i].history[k].purpose.Claim?
  {
    RunKeepsInv(tr, steps, i);
  }

  /** Whether the step is a send by call `id` of its write of this purpose. */
  predicate IsSend(s: System, step: Step, id: nat, purpose: Purpose)
    requires Enabled(s, step)
  {
    step.Write? && step.id == id && s.clients[id].call.phase.intent.purpose == purpose
  }

  /** How often call `id` has sent its write of this purpose in the first `i` steps. */
  ghost function Sends(tr: seq<System>, steps: seq<Step>, i: nat, id: nat, purpose: Purpose): nat
    requires Run(tr, steps) && i <= |steps|
  {
    if i == 0 then 0
    else Sends(tr, steps, i - 1, id, purpose)
         + if IsSend(tr[i - 1], steps[i - 1], id, purpose) then 1 else 0
  }

  function Budget(c: Call): nat {
    Max(0, c.cfg.maxRetries) + 1
  }

  /** What the call's phase says about its sends so far. */
  predicate Counted(c: Client, purpose: Purpose, sends: nat) {
    var later := purpose.Create?;
    match c.call.phase
    case Fetch => sends == 0
    case Send(i, n) =>
      if i.purpose == purpose then sends == n + (if c.inbox.Some? then 1 else 0) && n < Budget(c.call)
      else sends == 0 || (later && i.purpose.Claim? && sends <= Budget(c.call))
    case Recover(i, _) => sends <= Budget(c.call) && (i.purpose == purpose || sends == 0 || (later && i.purpose.Claim?))
    case Inspect(_) => sends <= Budget(c.call) && (later || sends == 0)
    case Done(_) => sends <= Budget(c.call)
  }

  lemma CountedResume(c: Client, call: Call, freshID: nat, seen: Option<Observation>, env: Env,
                      purpose: Purpose, sends: nat)
    requires c.inbox.Some? && Coherent(c.call) && Expects(c.call.phase, c.inbox.value)
    requires call == Resume(c.call, seen, c.inbox.value, env).0
    requires Counted(c, purpose, sends)
    ensures Counted(Resumed(freshID, c, call), purpose, sends)
  {
    match c.call.phase
    case Fetch =>
      hide OnWrite, OnRecover, OnInspect;
      assert call == OnFetch(c.call, seen, c.inbox.value, env.clock).0;
    case Send(_, _) =>
      hide OnFetch, OnRecover, OnInspect;
      assert call == OnWrite(c.call, seen, c.inbox.value, env.alive).0;
    case Recover(_, _) =>
      hide OnFetch, OnWrite, OnInspect;
      assert call == OnRecover(c.call, seen, c.inbox.value).0;
    case Inspect(_) =>
      hide OnFetch, OnWrite, OnRecover;
      assert call == OnInspect(c.call, seen, c.inbox.value, env.freshID).0;
  }

  lemma CountedStep(s: System, step: Step, id: nat, purpose: Purpose, sends: nat)
    requires Enabled(s, step)
    requires if id in s.clients then Counted(s.clients[id], purpose, sends) else sends == 0
    ensures var n := sends + if IsSend(s, step, id, purpose) then 1 else 0;
            var s' := Apply(s, step);
            if id in s'.clients then Counted(s'.clients[id], purpose, n) else n == 0
  {
    hide Resume;
    match step
    case Local(id', alive) =>
      hide Counted;
      if id' == id {
        var c := s.clients[id];
        var env := Env(alive, s.time + s.offset(c.locker), s.nextID);
        CountedResume(c, Resume(c.call, Lookup(s.seen, c.locker), c.inbox.value, env).0, s.nextID,
                      Lookup(s.seen, c.locker), env, purpose, sends);
      }
    case _ =>
  }

  lemma {:induction false} SendsCounted(tr: seq<System>, steps: seq<Step>, i: nat, id: nat, purpose: Purpose)
    requires Run(tr, steps) && i < |tr|
    ensures if id in tr[i].clients then Counted(tr[i].clients[id], purpose, Sends(tr, steps, i, id, purpose))
            else Sends(tr, steps, i, id, purpose) == 0
  {
    if i > 0 {
      SendsCounted(tr, steps, i - 1, id, purpose);
      hide Apply;
      assert Enabled(tr[i - 1], steps[i - 1]) && tr[i] == Apply(tr[i - 1], steps[i - 1]);
      CountedStep(tr[i - 1], steps[i - 1], id, purpose, Sends(tr, steps, i - 1, id, purpose));
    }
  }

  /** A lease write is sent at most max(0, maxRetries) + 1 times. */
  lemma SendsBounded(tr: seq<System>, steps: seq<Step>, i: nat, id: nat, purpose: Purpose)
    requires Run(tr, steps) && i < |tr| && id in tr[i].clients
    ensures Sends(tr, steps, i, id, purpose) <= Max(0, tr[i].clients[id].call.cfg.maxRetries) + 1
  {
    SendsCounted(tr, steps, i, id, purpose);
  }
}
