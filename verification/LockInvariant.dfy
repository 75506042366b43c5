/** The invariant of the lease protocol and the proof that every step keeps it. */
module LockInvariant {
  import opened Common
  import opened Leases
  import opened LockMachine
  import opened LockProtocol

  // ----- the record -----

  /** What one lease write does to the record. */
  predicate Follows(prev: Lease, purpose: Purpose, next: Lease) {
    && next.revision == prev.revision + 1
    && match purpose
       case Create => false
       case Claim => next.held && next.version == prev.version + 1
       case Renew =>
         prev.held && next == prev.(revision := next.revision, duration := next.duration, expiresAt := next.expiresAt)
       case Release =>
         prev.held && next == prev.(held := false, revision := next.revision, expiresAt := next.expiresAt)
  }

  /** `l` is one of the states the record has had; its revision says which one. */
  predicate StoredIn(h: History, l: Lease) {
    1 <= l.revision <= |h| && h[l.revision - 1].lease == l
  }

  ghost predicate ChainOK(h: History) {
    && (forall i :: 0 <= i < |h| ==> h[i].lease.revision == i + 1 && h[i].lease.duration > 0)
    && (h != [] ==> h[0].purpose.Create? && h[0].lease.version == 1 && h[0].lease.held)
    && (forall i :: 0 < i < |h| ==> Follows(h[i - 1].lease, h[i].purpose, h[i].lease))
  }

  ghost predicate FreshOK(h: History) {
    forall i, j :: 0 <= j < i < |h| && h[i].purpose.Claim? ==> h[j].lease.leaseID != h[i].lease.leaseID
  }

  ghost predicate TimesOK(h: History, time: int) {
    && (forall i :: 0 <= i < |h| ==> h[i].at <= time)
    && (forall i, j :: 0 <= i < j < |h| ==> h[i].at <= h[j].at)
  }

  /** A claim that replaced a held lease came no sooner than that lease's time was up. */
  predicate Ripe(before: Publication, after: Publication, delay: int) {
    after.purpose.Claim? && before.lease.held ==>
      after.at >= before.at + before.lease.duration + after.grace - delay
  }

  ghost predicate TakeoversOK(h: History, delay: nat) {
    forall i :: 0 < i < |h| ==> Ripe(h[i - 1], h[i], delay)
  }

  /** One call writes the record at most once, or once to create it and once to claim it. */
  ghost predicate WritersOK(h: History) {
    forall i, j :: 0 <= i < j < |h| && h[i].writer == h[j].writer ==> h[i].purpose.Create? && h[j].purpose.Claim?
  }

  // ----- the calls -----

  /** The part of the system that other calls' steps can change under a call. */
  datatype View = View(h: History, time: int, delay: nat, issued: set<nat>, nextID: nat)

  function ViewOf(s: System): View {
    View(s.history, s.time, s.delay, s.issued, s.nextID)
  }

  /** Nothing but call `id` has written a lease with this acquisition's ID, and it wrote just `lease`. */
  ghost predicate Own(h: History, id: nat, since: nat, lease: Lease) {
    forall k :: 0 <= k < |h| && h[k].lease.leaseID == lease.leaseID ==>
      h[k].lease == lease && h[k].writer == id && since <= k && (h[k].purpose.Create? || h[k].purpose.Claim?)
  }

  ghost predicate AcquisitionOK(v: View, id: nat, c: Client, lease: Lease) {
    && lease.leaseID in c.ids && lease.leaseID !in v.issued
    && Own(v.h, id, c.since, lease)
  }

  predicate HandleOf(op: Operation, token: int) {
    (op.Renewing? || op.Releasing?) && op.handle.token == token
  }

  ghost predicate IntentOK(v: View, id: nat, c: Client, i: Intent) {
    && Serves(c.call.op, i.purpose)
    && i.lease.duration > 0
    && match i.purpose
       case Create =>
         && i.cond == IfAbsent && i.lease.version == 1 && i.lease.revision == 1 && i.lease.held
         && AcquisitionOK(v, id, c, i.lease)
       case Claim =>
         && i.cond.IfMatch? && StoredIn(v.h, i.cond.etag.lease)
         && c.since <= i.cond.etag.lease.revision
         && Follows(i.cond.etag.lease, Claim, i.lease)
         && AcquisitionOK(v, id, c, i.lease)
         && (i.cond.etag.lease.held ==>
               c.began >= v.h[i.cond.etag.lease.revision - 1].at + i.cond.etag.lease.duration
                          + c.call.cfg.grace - v.delay)
       case _ =>
         && i.cond.IfMatch? && StoredIn(v.h, i.cond.etag.lease)
         && c.since <= i.cond.etag.lease.revision
         && Follows(i.cond.etag.lease, i.purpose, i.lease)
         && i.lease.leaseID in v.issued
         && HandleOf(c.call.op, i.lease.version)
  }

  /** The lease was in the store at some moment since the call began. */
  ghost predicate SeenSince(v: View, c: Client, l: Lease) {
    && StoredIn(v.h, l) && c.since <= l.revision
    && v.h[l.revision - 1].at <= c.began + v.delay
  }

  ghost predicate AcquiredOK(v: View, id: nat, c: Client, h: Handle) {
    var l := h.etag.lease;
    && c.call.op.TryAcquire?
    && StoredIn(v.h, l) && c.since < l.revision && v.h[l.revision - 1].writer == id
    && (v.h[l.revision - 1].purpose.Create? || v.h[l.revision - 1].purpose.Claim?)
    && l.leaseID in c.ids && l.leaseID in v.issued
    && h.token == l.version
  }

  ghost predicate OutcomeOK(v: View, id: nat, c: Client, outcome: Outcome) {
    match outcome
    case Acquired(h) => AcquiredOK(v, id, c, h)
    case Renewed(h) =>
      && c.call.op.Renewing? && h.token == c.call.op.handle.token
      && StoredIn(v.h, h.etag.lease) && c.since < h.etag.lease.revision
      && h.etag.lease.version == h.token && h.etag.lease.leaseID in v.issued
    case Released =>
      && c.call.op.Releasing?
      && exists k :: c.since <= k < |v.h| && v.h[k].purpose.Release? && v.h[k].lease.version == c.call.op.handle.token
    case _ => true
  }

  ghost predicate PhaseOK(v: View, id: nat, c: Client) {
    match c.call.phase
    case Fetch => true
    case Send(i, sends) => IntentOK(v, id, c, i) && sends <= Max(0, c.call.cfg.maxRetries)
    case Recover(i, _) => IntentOK(v, id, c, i)
    case Inspect(created) => AcquisitionOK(v, id, c, created)
    case Done(outcome) => OutcomeOK(v, id, c, outcome)
  }

  ghost predicate InboxOK(v: View, id: nat, c: Client) {
    c.inbox.Some? ==>
      && Expects(c.call.phase, c.inbox.value)
      && match c.inbox.value
         case Stored(etag) =>
           && etag == Digest(c.call.phase.intent.lease)
           && SeenSince(v, c, etag.lease) && c.since < etag.lease.revision
           && v.h[etag.lease.revision - 1].writer == id
           && v.h[etag.lease.revision - 1].purpose == c.call.phase.intent.purpose
         case Found(l, etag) => etag == Digest(l) && SeenSince(v, c, l)
         case _ => true
  }

  /** What the call has written so far. */
  ghost predicate WroteOK(h: History, id: nat, phase: Phase) {
    forall k :: 0 <= k < |h| && h[k].writer == id ==>
      match phase
      case Fetch => false
      case Send(i, _) =>
        (h[k].lease == i.lease && h[k].purpose == i.purpose) || (h[k].purpose.Create? && i.purpose.Claim?)
      case Recover(i, _) =>
        (h[k].lease == i.lease && h[k].purpose == i.purpose) || (h[k].purpose.Create? && i.purpose.Claim?)
      case Inspect(_) => h[k].purpose.Create?
      case Done(_) => true
  }

  ghost predicate ClientOK(v: View, id: nat, c: Client) {
    && Coherent(c.call) && c.call.cfg.Valid()
    && c.since <= |v.h| && c.began <= v.time
    && (forall x :: x in c.ids ==> x < v.nextID)
    && (c.call.op.Renewing? || c.call.op.Releasing? ==> c.call.op.handle.etag.lease.leaseID in v.issued)
    && PhaseOK(v, id, c)
    && InboxOK(v, id, c)
    && WroteOK(v.h, id, c.call.phase)
  }

  // ----- the whole state -----

  ghost predicate HistoryOK(s: System) {
    && ChainOK(s.history)
    && FreshOK(s.history)
    && TimesOK(s.history, s.time)
    && TakeoversOK(s.history, s.delay)
    && WritersOK(s.history)
  }

  /** Write number `k` is the work of client `c`: begun before it, and entitled to it. */
  predicate WroteIt(c: Client, p: Publication, k: nat) {
    && c.since <= k && Serves(c.call.op, p.purpose)
    && (p.purpose.Renew? || p.purpose.Release? ==> HandleOf(c.call.op, p.lease.version))
  }

  ghost predicate BylinesOK(s: System) {
    forall k :: 0 <= k < |s.history| ==>
      s.history[k].writer in s.clients && WroteIt(s.clients[s.history[k].writer], s.history[k], k)
  }

  ghost predicate HandlesOK(s: System) {
    forall h :: h in s.handles ==>
      StoredIn(s.history, h.etag.lease) && h.etag.lease.leaseID in s.issued && h.token == h.etag.lease.version
  }

  ghost predicate SeenOK(s: System) {
    forall k :: k in s.seen ==>
      && StoredIn(s.history, s.seen[k].etag.lease)
      && s.history[s.seen[k].etag.lease.revision - 1].at <= s.seen[k].firstSeen - s.offset(k) + s.delay
  }

  ghost predicate ClientsOK(s: System) {
    && (forall id :: id in s.clients ==> ClientOK(ViewOf(s), id, s.clients[id]))
    && (forall id :: id in s.clients ==> Clocked(s, s.clients[id]))
    && (forall id, id' :: id in s.clients && id' in s.clients && id != id' ==> s.clients[id].ids !! s.clients[id'].ids)
  }

  /** The call's clock reading is its locker's clock at the real time it was taken. */
  predicate Clocked(s: System, c: Client) {
    c.call.now == c.began + s.offset(c.locker)
  }

  ghost predicate IDsOK(s: System) {
    && (forall k :: 0 <= k < |s.history| ==> s.history[k].lease.leaseID < s.nextID)
    && (forall x :: x in s.issued ==> x < s.nextID)
  }

  ghost predicate Inv(s: System) {
    && HistoryOK(s)
    && BylinesOK(s)
    && HandlesOK(s)
    && SeenOK(s)
    && IDsOK(s)
    && ClientsOK(s)
  }
}
