/** Any number of lockers, on hosts whose clocks disagree, run calls of store/lock.go against one
    lease record. Every clock reading, storage operation and stretch of local code is one step, and
    steps of different calls interleave in any order. */
module LockProtocol {
  import opened Common
  import opened Leases
  import opened LockMachine

  /** One lease state that was in the store: when it was written, by which call, what for, and the
      expiry grace of that call. */
  datatype Publication = Publication(lease: Lease, at: int, writer: nat, purpose: Purpose, grace: int)

  /** Every lease state the record has had; the last one is the record. */
  type History = seq<Publication>

  /** A call in flight or finished: the locker it runs on, the real time of its clock reading, the
      length of the history when it began, the lease IDs it has drawn, and an unread storage reply. */
  datatype Client = Client(
    call: Call,
    locker: nat,
    began: int,
    since: nat,
    ids: set<nat>,
    inbox: Option<Reply>)

  /** `delay` is the longest time that has passed between a call's clock reading and one of its
      storage operations. `handles` holds every handle value a call has returned or updated;
      `issued` holds the lease IDs of the successful acquisitions. */
  datatype System = System(
    name: string,
    key: string,
    offset: nat -> int,
    history: History,
    time: int,
    delay: nat,
    seen: map<nat, Observation>,
    clients: map<nat, Client>,
    handles: set<Handle>,
    issued: set<nat>,
    nextID: nat)

  /** What becomes of one send of a write: performed and reported as it went, performed but reported
      as a failure, or not performed. */
  datatype Verdict = Report | Lose(error: Error) | Drop(error: Error)

  datatype Step =
    | Tick(dt: nat)
    | Start(id: nat, locker: nat, op: Operation, cfg: Config)
    | Write(id: nat, verdict: Verdict)
    | Read(id: nat, fault: Option<Error>)
    | Local(id: nat, alive: bool)

  predicate Init(s: System) {
    s.history == [] && s.delay == 0 && s.seen == map[] && s.clients == map[] && s.handles == {} && s.issued == {}
  }

  function Record(h: History): (l: Lease)
    requires h != []
  {
    h[|h| - 1].lease
  }

  predicate Passes(h: History, cond: Condition) {
    match cond
    case IfAbsent => h == []
    case IfMatch(etag) => h != [] && Digest(Record(h)) == etag
  }

  predicate Enabled(s: System, step: Step) {
    match step
    case Tick(_) => true
    case Start(id, _, op, cfg) =>
      id !in s.clients && cfg.Valid() && (op.Renewing? || op.Releasing? ==> op.handle in s.handles)
    case Write(id, _) =>
      id in s.clients && s.clients[id].inbox.None? && s.clients[id].call.phase.Send?
    case Read(id, _) =>
      && id in s.clients && s.clients[id].inbox.None?
      && !s.clients[id].call.phase.Send? && !s.clients[id].call.phase.Done?
    case Local(id, _) =>
      && id in s.clients && s.clients[id].inbox.Some?
      && Coherent(s.clients[id].call) && Expects(s.clients[id].call.phase, s.clients[id].inbox.value)
  }

  function AfterStart(s: System, id: nat, locker: nat, op: Operation, cfg: Config): System {
    var call := Begin(op, s.name, s.key, cfg, s.time + s.offset(locker), s.nextID);
    s.(clients := s.clients[id := Client(call, locker, s.time, |s.history|, {s.nextID}, None)],
       nextID := s.nextID + 1)
  }

  function AfterWrite(s: System, id: nat, verdict: Verdict): System
    requires Enabled(s, Write(id, verdict))
  {
    var c := s.clients[id];
    var intent := c.call.phase.intent;
    var performed := !verdict.Drop? && Passes(s.history, intent.cond);
    var reply := match verdict
                 case Report => if performed then Stored(Digest(intent.lease))
                                else Refused(Error(PreconditionFailed, false))
                 case Lose(error) => Refused(error)
                 case Drop(error) => Refused(error);
    s.(history := if performed
                  then s.history + [Publication(intent.lease, s.time, id, intent.purpose, c.call.cfg.grace)]
                  else s.history,
       delay := Max(s.delay, s.time - c.began),
       clients := s.clients[id := c.(inbox := Some(reply))])
  }

  function AfterRead(s: System, id: nat, fault: Option<Error>): System
    requires Enabled(s, Read(id, fault))
  {
    var c := s.clients[id];
    var reply := match fault
                 case Some(error) => Missed(error)
                 case None => if s.history == [] then Missed(Error(NotFound, false))
                              else Found(Record(s.history), Digest(Record(s.history)));
    s.(delay := Max(s.delay, s.time - c.began), clients := s.clients[id := c.(inbox := Some(reply))])
  }

  /** The lease IDs and the handles a call hands out when it reaches `phase`. */
  function IssuedBy(phase: Phase): set<nat> {
    match phase
    case Done(Acquired(h)) => {h.etag.lease.leaseID}
    case _ => {}
  }

  function HandlesOf(phase: Phase): set<Handle> {
    match phase
    case Done(Acquired(h)) => {h}
    case Done(Renewed(h)) => {h}
    case _ => {}
  }

  function Resumed(freshID: nat, c: Client, call: Call): Client {
    c.(call := call, ids := c.ids + {freshID}, inbox := None)
  }

  /** The state after call `id` has resumed as `r`. */
  function AfterResume(s: System, id: nat, r: (Call, Option<Observation>)): System
    requires id in s.clients
  {
    s.(seen := Remember(s.seen, s.clients[id].locker, r.1),
       clients := s.clients[id := Resumed(s.nextID, s.clients[id], r.0)],
       nextID := s.nextID + 1,
       handles := s.handles + HandlesOf(r.0.phase),
       issued := s.issued + IssuedBy(r.0.phase))
  }

  function AfterLocal(s: System, id: nat, alive: bool): System
    requires Enabled(s, Local(id, alive))
  {
    var c := s.clients[id];
    AfterResume(s, id, Resume(c.call, Lookup(s.seen, c.locker), c.inbox.value,
                              Env(alive, s.time + s.offset(c.locker), s.nextID)))
  }

  function Apply(s: System, step: Step): System
    requires Enabled(s, step)
  {
    match step
    case Tick(dt) => s.(time := s.time + dt)
    case Start(id, locker, op, cfg) => AfterStart(s, id, locker, op, cfg)
    case Write(id, verdict) => AfterWrite(s, id, verdict)
    case Read(id, fault) => AfterRead(s, id, fault)
    case Local(id, alive) => AfterLocal(s, id, alive)
  }

  /** `tr` is a run: it starts with no record and no calls, and each state follows by one step. */
  ghost predicate Run(tr: seq<System>, steps: seq<Step>) {
    && |tr| == |steps| + 1
    && Init(tr[0])
    && forall i :: 0 <= i < |steps| ==> Enabled(tr[i], steps[i]) && tr[i + 1] == Apply(tr[i], steps[i])
  }
}
