/** Read-modify-compare-and-swap loops: one command as a machine and as the loop it is, and any number of
    them interleaved on one object. */
module AtomicUpdates {
  import opened Common
  import opened Conditions

  /** What is stored. Its ETag is the digest of its encoding, so two entities with one ETag are equal. */
  datatype Entity = Entity(value: Data, version: int)

  /** WithRetries and WithInitialVersion, of which 0 or less asks for nothing, and how often the store's
      retrier sends one put again. */
  datatype Command = Command(retries: int, initialVersion: int, resends: int)

  /** `again` counts the resends of the put in flight. */
  datatype Phase =
    | Getting
    | Putting(base: Entity, next: Entity, again: nat)
    | Pausing
    | Finished(result: Result<Entity>)

  datatype Client = Client(cmd: Command, attempts: nat, phase: Phase)

  const Conflict := Error(PreconditionFailed, false)

  // ----- one command -----

  function Begin(cmd: Command): Client {
    Client(cmd, 0, if 0 <= cmd.retries then Getting else Finished(Err(Conflict)))
  }

  function AfterGet(c: Client, update: Data -> Result<Data>, reply: Result<Entity>): Client {
    match reply
    case Err(error) => c.(phase := Finished(Err(error)))
    case Ok(base) =>
      if c.cmd.initialVersion > 0 && base.version != c.cmd.initialVersion then c.(phase := Finished(Err(Conflict)))
      else
        match update(base.value)
        case Err(error) => c.(phase := Finished(Err(error)))
        case Ok(value) => c.(phase := Putting(base, Entity(value, base.version + 1), 0))
  }

  function AfterPut(c: Client, reply: Option<Error>): Client
    requires c.phase.Putting?
  {
    if reply.None? then c.(phase := Finished(Ok(c.phase.next)))
    else if reply.value.code != PreconditionFailed then c.(phase := Finished(Err(reply.value)))
    else if c.attempts < c.cmd.retries then c.(phase := Pausing)
    else c.(attempts := c.attempts + 1, phase := Finished(Err(Conflict)))
  }

  function AfterPause(c: Client, alive: bool): Client {
    if alive then c.(attempts := c.attempts + 1, phase := Getting)
    else c.(phase := Finished(Err(Error(Cancelled, false))))
  }

  /** What the surroundings answer at each attempt. */
  datatype Oracle = Oracle(get: nat -> Result<Entity>, put: nat -> Option<Error>, alive: nat -> bool)

  /** The command from the start of an attempt to its end. */
  function Drive(c: Client, update: Data -> Result<Data>, o: Oracle): Result<Entity>
    requires c.phase.Getting? && c.attempts <= c.cmd.retries
    decreases c.cmd.retries - c.attempts
  {
    var got := AfterGet(c, update, o.get(c.attempts));
    if got.phase.Finished? then got.phase.result
    else
      var put := AfterPut(got, o.put(c.attempts));
      if put.phase.Finished? then put.phase.result
      else
        var paused := AfterPause(put, o.alive(c.attempts));
        if paused.phase.Finished? then paused.phase.result else Drive(paused, update, o)
  }

  function ExecuteResult(cmd: Command, update: Data -> Result<Data>, o: Oracle): Result<Entity> {
    var c := Begin(cmd);
    if c.phase.Finished? then c.phase.result else Drive(c, update, o)
  }

  class AtomicUpdateCommand {
    const retries: int
    const initialVersion: int
    const resends: int
    const update: Data -> Result<Data>

    constructor (retries: int, initialVersion: int, resends: int, update: Data -> Result<Data>)
      ensures this.retries == retries && this.initialVersion == initialVersion && this.resends == resends
      ensures this.update == update
    {
      this.retries := retries;
      this.initialVersion := initialVersion;
      this.resends := resends;
      this.update := update;
    }

    /** Attempt k read an entity of the version asked for and updated it, but met a conflict, and the context
        outlived the pause after it. */
    predicate WentOn(o: Oracle, k: nat) {
      var got, put := o.get(k), o.put(k);
      && got.Ok? && (initialVersion > 0 ==> got.value.version == initialVersion) && update(got.value.value).Ok?
      && put.Some? && put.value.code == PreconditionFailed && o.alive(k)
    }

    /** Attempt k is the reason for this error: the read failed with it, or the version read is not the one asked
        for, or the update failed with it, or the put failed with it otherwise than by a conflict, or the context
        ended after a conflict, or after a conflict no retry is left. */
    predicate GaveUp(o: Oracle, k: nat, error: Error) {
      match o.get(k)
      case Err(e) => error == e
      case Ok(base) =>
        if initialVersion > 0 && base.version != initialVersion then error == Conflict
        else
          match update(base.value)
          case Err(e) => error == e
          case Ok(_) =>
            match o.put(k)
            case None => false
            case Some(e) =>
              if e.code != PreconditionFailed then error == e
              else if k < retries then !o.alive(k) && error == Error(Cancelled, false)
              else error == Conflict
    }

    /** The loop does what the machine does. It reads at most max(0, retries + 1) times, and an entity it
        returns is an update of the one it read last, one version on, and was stored in its place. */
    method Execute(o: Oracle) returns (r: Result<Entity>, gets: nat)
      ensures r == ExecuteResult(Command(retries, initialVersion, resends), update, o)
      ensures gets <= Max(0, retries + 1)
      ensures r.Ok? ==>
                && gets > 0 && o.get(gets - 1).Ok? && o.put(gets - 1).None?
                && update(o.get(gets - 1).value.value) == Ok(r.value.value)
                && r.value.version == o.get(gets - 1).value.version + 1
                && (initialVersion > 0 ==> r.value.version == initialVersion + 1)
      ensures forall k :: 0 <= k < gets - 1 ==> WentOn(o, k)
      ensures r.Err? ==> if gets == 0 then retries < 0 && r.error == Conflict else GaveUp(o, gets - 1, r.error)
    {
      var attempts := 0;
      gets := 0;
      ghost var cmd := Command(retries, initialVersion, resends);
      while attempts <= retries
        invariant gets == attempts <= Max(0, retries + 1)
        invariant attempts <= retries ==>
                    ExecuteResult(cmd, update, o) == Drive(Client(cmd, attempts, Getting), update, o)
        invariant attempts > retries ==> ExecuteResult(cmd, update, o) == Err(Conflict)
        invariant forall k :: 0 <= k < Min(gets, retries) ==> WentOn(o, k)
        invariant attempts > retries && gets > 0 ==> GaveUp(o, gets - 1, Conflict)
        decreases retries - attempts
      {
        gets := gets + 1;
        var got := o.get(attempts);
        if got.Err? {
          return Err(got.error), gets;
        }
        if initialVersion > 0 && got.value.version != initialVersion {
          return Err(Conflict), gets;
        }
        var updated := update(got.value.value);
        if updated.Err? {
          return Err(updated.error), gets;
        }
        var put := o.put(attempts);
        if put.None? {
          return Ok(Entity(updated.value, got.value.version + 1)), gets;
        }
        if put.value.code != PreconditionFailed {
          return Err(put.value), gets;
        }
        if attempts < retries {
          if !o.alive(attempts) {
            return Err(Error(Cancelled, false)), gets;
          }
        }
        attempts := attempts + 1;
      }
      return Err(Conflict), gets;
    }
  }

  // ----- many commands -----

  /** `heard` tells whether the client learned that its write took effect. */
  datatype Write = Write(client: nat, before: Entity, after: Entity, heard: bool)

  datatype System = System(stored: Entity, clients: map<nat, Client>, log: seq<Write>)

  datatype Step =
    | Start(id: nat, cmd: Command)
    | Get(id: nat, failure: Option<Error>)
    | Send(id: nat, reaches: bool, heard: bool, again: bool)
    | Pause(id: nat, alive: bool)

  function Resent(c: Client): Client
    requires c.phase.Putting?
  {
    c.(phase := c.phase.(again := c.phase.again + 1))
  }

  /** A send that reaches the store is a compare-and-swap; its answer may get lost. After an error the
      retrier may send again, as often as it is configured to. */
  function Sent(s: System, id: nat, reaches: bool, heard: bool, again: bool): System
    requires id in s.clients && s.clients[id].phase.Putting?
  {
    var c := s.clients[id];
    var base, next := c.phase.base, c.phase.next;
    var applied := reaches && s.stored == base;
    var reply := if !reaches || !heard then Some(Error(IO, true)) else if applied then None else Some(Conflict);
    var c' := if reply == Some(Error(IO, true)) && again && c.phase.again < c.cmd.resends
              then Resent(c)
              else AfterPut(c, reply);
    System(
      if applied then next else s.stored,
      s.clients[id := c'],
      if applied then s.log + [Write(id, base, next, heard)] else s.log)
  }

  function Next(s: System, updates: (nat, Data) -> Result<Data>, step: Step): System {
    match step
    case Start(id, cmd) => if id in s.clients then s else s.(clients := s.clients[id := Begin(cmd)])
    case Get(id, failure) =>
      if id in s.clients && s.clients[id].phase.Getting? then
        s.(clients := s.clients[id := AfterGet(s.clients[id], v => updates(id, v),
                                               if failure.Some? then Err(failure.value) else Ok(s.stored))])
      else s
    case Send(id, reaches, heard, again) =>
      if id in s.clients && s.clients[id].phase.Putting? then Sent(s, id, reaches, heard, again) else s
    case Pause(id, alive) =>
      if id in s.clients && s.clients[id].phase.Pausing? then
        s.(clients := s.clients[id := AfterPause(s.clients[id], alive)])
      else s
  }

  function Run(initial: Entity, updates: (nat, Data) -> Result<Data>, steps: seq<Step>): System
    decreases |steps|
  {
    if steps == [] then System(initial, map[], [])
    else Next(Run(initial, updates, steps[..|steps| - 1]), updates, steps[|steps| - 1])
  }

  // ----- the invariant -----

  /** The stored entity after the first n writes. */
  function After(initial: Entity, log: seq<Write>, n: nat): Entity
    requires n <= |log|
  {
    if n == 0 then initial else log[n - 1].after
  }

  ghost predicate IsUpdate(updates: (nat, Data) -> Result<Data>, id: nat, base: Entity, next: Entity) {
    updates(id, base.value) == Ok(next.value) && next.version == base.version + 1
  }

  ghost predicate ChainOK(s: System, initial: Entity, updates: (nat, Data) -> Result<Data>) {
    && s.stored == After(initial, s.log, |s.log|)
    && forall k :: 0 <= k < |s.log| ==>
         && s.log[k].before == After(initial, s.log, k)
         && IsUpdate(updates, s.log[k].client, s.log[k].before, s.log[k].after)
  }

  predicate Succeeded(c: Client) {
    c.phase.Finished? && c.phase.result.Ok?
  }

  ghost predicate ClientOK(s: System, updates: (nat, Data) -> Result<Data>, id: nat, c: Client) {
    && (c.phase.Putting? ==> IsUpdate(updates, id, c.phase.base, c.phase.next))
    && (c.phase.Finished? || c.attempts <= c.cmd.retries)
    && (c.phase.Pausing? ==> c.attempts < c.cmd.retries)
    && c.attempts <= Max(0, c.cmd.retries + 1)
    && (forall k :: 0 <= k < |s.log| && s.log[k].client == id && s.log[k].heard ==>
          Succeeded(c) && c.phase.result.value == s.log[k].after)
  }

  /** Heard writes: at most one a client, and every success has one. */
  ghost predicate HeardOK(s: System) {
    && (forall k :: 0 <= k < |s.log| ==> s.log[k].client in s.clients)
    && (forall k, l :: 0 <= k < l < |s.log| && s.log[k].heard && s.log[l].heard ==> s.log[k].client != s.log[l].client)
    && (forall id :: id in s.clients && Succeeded(s.clients[id]) ==>
          exists k :: 0 <= k < |s.log| && s.log[k].client == id && s.log[k].heard)
  }

  ghost predicate Inv(s: System, initial: Entity, updates: (nat, Data) -> Result<Data>) {
    && ChainOK(s, initial, updates) && HeardOK(s)
    && forall id :: id in s.clients ==> ClientOK(s, updates, id, s.clients[id])
  }

  /** A step that moves one client and writes nothing. */
  lemma QuietStep(s: System, initial: Entity, updates: (nat, Data) -> Result<Data>, id: nat, c: Client)
    requires Inv(s, initial, updates) && !Succeeded(c) && ClientOK(s, updates, id, c)
    requires id in s.clients ==> !Succeeded(s.clients[id])
    ensures Inv(s.(clients := s.clients[id := c]), initial, updates)
  {
    var s' := s.(clients := s.clients[id := c]);
    forall i | i in s'.clients ensures ClientOK(s', updates, i, s'.clients[i]) {
      if i != id {
        assert ClientOK(s, updates, i, s.clients[i]);
      }
    }
  }

  lemma NothingHeard(s: System, initial: Entity, updates: (nat, Data) -> Result<Data>, id: nat)
    requires Inv(s, initial, updates) && (id in s.clients ==> !Succeeded(s.clients[id]))
    ensures forall k :: 0 <= k < |s.log| && s.log[k].client == id ==> !s.log[k].heard
  {
    if id in s.clients {
      assert ClientOK(s, updates, id, s.clients[id]);
    }
  }

  lemma ChainGrows(s: System, s': System, initial: Entity, updates: (nat, Data) -> Result<Data>, w: Write)
    requires ChainOK(s, initial, updates) && s'.log == s.log + [w] && s'.stored == w.after
    requires w.before == s.stored && IsUpdate(updates, w.client, w.before, w.after)
    ensures ChainOK(s', initial, updates)
  {
    hide IsUpdate;
    forall k | 0 <= k < |s'.log|
      ensures s'.log[k].before == After(initial, s'.log, k)
              && IsUpdate(updates, s'.log[k].client, s'.log[k].before, s'.log[k].after)
    {
      if k < |s.log| {
        assert s'.log[k] == s.log[k] && After(initial, s'.log, k) == After(initial, s.log, k);
      }
    }
  }

  lemma HeardGrows(s: System, s': System, w: Write)
    requires HeardOK(s) && w.client in s.clients && s'.log == s.log + [w]
    requires w.client in s'.clients && s'.clients == s.clients[w.client := s'.clients[w.client]]
    requires forall k :: 0 <= k < |s.log| && s.log[k].client == w.client ==> !s.log[k].heard
    requires Succeeded(s'.clients[w.client]) == w.heard
    ensures HeardOK(s')
  {
    forall i | i in s'.clients && Succeeded(s'.clients[i])
      ensures exists k :: 0 <= k < |s'.log| && s'.log[k].client == i && s'.log[k].heard
    {
      if i == w.client {
        assert s'.log[|s.log|].client == i && s'.log[|s.log|].heard;
      } else {
        var k :| 0 <= k < |s.log| && s.log[k].client == i && s.log[k].heard;
        assert s'.log[k] == s.log[k];
      }
    }
  }

  /** A compare-and-swap that takes effect. */
  lemma WriteStep(s: System, initial: Entity, updates: (nat, Data) -> Result<Data>, id: nat, heard: bool, c: Client)
    requires Inv(s, initial, updates) && id in s.clients && s.clients[id].phase.Putting?
    requires s.clients[id].phase.base == s.stored
    requires if heard then c == AfterPut(s.clients[id], None)
             else c == Resent(s.clients[id]) || c == AfterPut(s.clients[id], Some(Error(IO, true)))
    ensures Inv(System(s.clients[id].phase.next, s.clients[id := c],
                       s.log + [Write(id, s.stored, s.clients[id].phase.next, heard)]), initial, updates)
  {
    var w := Write(id, s.stored, s.clients[id].phase.next, heard);
    var s' := System(w.after, s.clients[id := c], s.log + [w]);
    assert ClientOK(s, updates, id, s.clients[id]);
    NothingHeard(s, initial, updates, id);
    ChainGrows(s, s', initial, updates, w);
    HeardGrows(s, s', w);
    OwnClient(s, s', updates, w, c);
    hide ChainOK, HeardOK, ClientOK;
    forall i | i in s'.clients ensures ClientOK(s', updates, i, s'.clients[i]) {
      if i != id {
        assert ClientOK(s, updates, i, s.clients[i]);
        OtherClient(s, s', updates, w, i);
      }
    }
  }

  lemma OtherClient(s: System, s': System, updates: (nat, Data) -> Result<Data>, w: Write, i: nat)
    requires i in s.clients && ClientOK(s, updates, i, s.clients[i]) && s'.log == s.log + [w] && w.client != i
    ensures ClientOK(s', updates, i, s.clients[i])
  {
  }

  lemma OwnClient(s: System, s': System, updates: (nat, Data) -> Result<Data>, w: Write, c: Client)
    requires w.client in s.clients && s.clients[w.client].phase.Putting? && w.after == s.clients[w.client].phase.next
    requires ClientOK(s, updates, w.client, s.clients[w.client]) && s'.log == s.log + [w]
    requires forall k :: 0 <= k < |s.log| && s.log[k].client == w.client ==> !s.log[k].heard
    requires if w.heard then c == AfterPut(s.clients[w.client], None)
             else c == Resent(s.clients[w.client]) || c == AfterPut(s.clients[w.client], Some(Error(IO, true)))
    ensures ClientOK(s', updates, w.client, c)
  {
  }

  lemma SendOK(s: System, initial: Entity, updates: (nat, Data) -> Result<Data>, id: nat, reaches: bool,
               heard: bool, again: bool)
    requires Inv(s, initial, updates) && id in s.clients && s.clients[id].phase.Putting?
    ensures Inv(Sent(s, id, reaches, heard, again), initial, updates)
  {
    assert ClientOK(s, updates, id, s.clients[id]);
    NothingHeard(s, initial, updates, id);
    hide Inv;
    var s' := Sent(s, id, reaches, heard, again);
    if reaches && s.stored == s.clients[id].phase.base {
      WriteStep(s, initial, updates, id, heard, s'.clients[id]);
    } else {
      QuietStep(s, initial, updates, id, s'.clients[id]);
      assert s' == s.(clients := s.clients[id := s'.clients[id]]);
    }
  }

  /** What a client does between its sends. */
  lemma MoveOK(s: System, initial: Entity, updates: (nat, Data) -> Result<Data>, step: Step)
    requires Inv(s, initial, updates) && !step.Send? && Next(s, updates, step) != s
    ensures Inv(Next(s, updates, step), initial, updates)
  {
    var id, s' := step.id, Next(s, updates, step);
    if id in s.clients {
      assert ClientOK(s, updates, id, s.clients[id]);
    }
    NothingHeard(s, initial, updates, id);
    hide Inv, Sent;
    QuietStep(s, initial, updates, id, s'.clients[id]);
  }

  lemma StepKeepsInv(s: System, initial: Entity, updates: (nat, Data) -> Result<Data>, step: Step)
    requires Inv(s, initial, updates)
    ensures Inv(Next(s, updates, step), initial, updates)
  {
    hide Inv;
    if step.Send? {
      if step.id in s.clients && s.clients[step.id].phase.Putting? {
        SendOK(s, initial, updates, step.id, step.reaches, step.heard, step.again);
      }
    } else if Next(s, updates, step) != s {
      MoveOK(s, initial, updates, step);
    }
  }

  lemma {:induction false} RunKeepsInv(initial: Entity, updates: (nat, Data) -> Result<Data>, steps: seq<Step>)
    ensures Inv(Run(initial, updates, steps), initial, updates)
    decreases |steps|
  {
    if steps != [] {
      RunKeepsInv(initial, updates, steps[..|steps| - 1]);
      StepKeepsInv(Run(initial, updates, steps[..|steps| - 1]), initial, updates, steps[|steps| - 1]);
    }
  }

  // ----- the theorems -----

  /** The value after applying the updates of these clients one after the other, with no concurrency. */
  function Composed(value: Data, updates: (nat, Data) -> Result<Data>, clients: seq<nat>): Result<Data>
    decreases |clients|
  {
    if clients == [] then Ok(value)
    else
      match Composed(value, updates, clients[..|clients| - 1])
      case Err(error) => Err(error)
      case Ok(before) => updates(clients[|clients| - 1], before)
  }

  function Writers(log: seq<Write>): (clients: seq<nat>)
    ensures |clients| == |log| && forall k :: 0 <= k < |log| ==> clients[k] == log[k].client
  {
    seq(|log|, k requires 0 <= k < |log| => log[k].client)
  }

  lemma ComposedStep(value: Data, updates: (nat, Data) -> Result<Data>, clients: seq<nat>, n: nat)
    requires n <= |clients|
    ensures n == 0 ==> Composed(value, updates, clients[..n]) == Ok(value)
    ensures n > 0 ==>
              var before := Composed(value, updates, clients[..n - 1]);
              Composed(value, updates, clients[..n]) ==
                if before.Err? then before else updates(clients[n - 1], before.value)
  {
    if n > 0 {
      assert clients[..n][..n - 1] == clients[..n - 1];
    }
  }

  lemma ChainStep(initial: Entity, updates: (nat, Data) -> Result<Data>, s: System, n: nat)
    requires ChainOK(s, initial, updates) && n < |s.log|
    ensures updates(s.log[n].client, After(initial, s.log, n).value) == Ok(After(initial, s.log, n + 1).value)
    ensures After(initial, s.log, n + 1).version == After(initial, s.log, n).version + 1
  {
    assert IsUpdate(updates, s.log[n].client, s.log[n].before, s.log[n].after);
  }

  lemma NothingYet(initial: Entity, log: seq<Write>)
    ensures After(initial, log, 0) == initial
  {
  }

  lemma {:induction false} ChainComposes(initial: Entity, updates: (nat, Data) -> Result<Data>, s: System, n: nat)
    requires ChainOK(s, initial, updates) && n <= |s.log|
    ensures Composed(initial.value, updates, Writers(s.log)[..n]) == Ok(After(initial, s.log, n).value)
    ensures After(initial, s.log, n).version == initial.version + n
  {
    hide *;
    var clients := Writers(s.log);
    ComposedStep(initial.value, updates, clients, n);
    if n > 0 {
      assert clients[n - 1] == s.log[n - 1].client;
      ChainStep(initial, updates, s, n - 1);
      ChainComposes(initial, updates, s, n - 1);
    } else {
      NothingYet(initial, s.log);
    }
  }

  /** However the commands interleave, the stored value is their updates applied one after the other in
      the order of the writes, and the version counts the writes. */
  lemma UpdatesCompose(initial: Entity, updates: (nat, Data) -> Result<Data>, steps: seq<Step>)
    ensures var s := Run(initial, updates, steps);
            && Composed(initial.value, updates, Writers(s.log)) == Ok(s.stored.value)
            && s.stored.version == initial.version + |s.log|
  {
    var s := Run(initial, updates, steps);
    RunKeepsInv(initial, updates, steps);
    ChainComposes(initial, updates, s, |s.log|);
    assert Writers(s.log)[..|s.log|] == Writers(s.log);
  }

  /** The clients whose command has returned an entity. */
  function Successes(s: System): set<nat> {
    set id | id in s.clients && Succeeded(s.clients[id])
  }

  /** The writes of which no client has learned. */
  function Unheard(log: seq<Write>): nat {
    if log == [] then 0 else Unheard(log[..|log| - 1]) + if log[|log| - 1].heard then 0 else 1
  }

  lemma {:induction false} SuccessesCounted(initial: Entity, updates: (nat, Data) -> Result<Data>, steps: seq<Step>)
    ensures var s := Run(initial, updates, steps); |s.log| == |Successes(s)| + Unheard(s.log)
    decreases |steps|
  {
    if steps != [] {
      var before, step := Run(initial, updates, steps[..|steps| - 1]), steps[|steps| - 1];
      SuccessesCounted(initial, updates, steps[..|steps| - 1]);
      CountStep(before, updates, step);
    }
  }

  lemma CountStep(s: System, updates: (nat, Data) -> Result<Data>, step: Step)
    requires |s.log| == |Successes(s)| + Unheard(s.log)
    ensures var s' := Next(s, updates, step); |s'.log| == |Successes(s')| + Unheard(s'.log)
  {
    if step.Send? && step.id in s.clients && s.clients[step.id].phase.Putting? {
      CountSend(s, step.id, step.reaches, step.heard, step.again);
    } else {
      hide Sent;
      assert Successes(Next(s, updates, step)) == Successes(s);
    }
  }

  lemma CountSend(s: System, id: nat, reaches: bool, heard: bool, again: bool)
    requires id in s.clients && s.clients[id].phase.Putting?
    requires |s.log| == |Successes(s)| + Unheard(s.log)
    ensures var s' := Sent(s, id, reaches, heard, again); |s'.log| == |Successes(s')| + Unheard(s'.log)
  {
    var s' := Sent(s, id, reaches, heard, again);
    SuccessesAfter(s, s', id);
    hide Successes;
    if |s'.log| > |s.log| {
      assert s'.log[..|s.log|] == s.log;
    }
  }

  lemma SuccessesAfter(s: System, s': System, id: nat)
    requires id in s.clients && !Succeeded(s.clients[id])
    requires id in s'.clients && s'.clients == s.clients[id := s'.clients[id]]
    ensures |Successes(s')| == |Successes(s)| + if Succeeded(s'.clients[id]) then 1 else 0
  {
    if Succeeded(s'.clients[id]) {
      assert Successes(s') == Successes(s) + {id};
    } else {
      assert Successes(s') == Successes(s);
    }
  }

  /** The final version is the initial one plus the successes exactly when no write took effect behind
      its client's back. */
  lemma CountsExactlyWhenHeard(initial: Entity, updates: (nat, Data) -> Result<Data>, steps: seq<Step>)
    ensures var s := Run(initial, updates, steps);
            s.stored.version == initial.version + |Successes(s)| + Unheard(s.log)
    ensures var s := Run(initial, updates, steps);
            s.stored.version == initial.version + |Successes(s)| <==> forall k :: 0 <= k < |s.log| ==> s.log[k].heard
  {
    UpdatesCompose(initial, updates, steps);
    SuccessesCounted(initial, updates, steps);
    UnheardMeans(Run(initial, updates, steps).log);
  }

  lemma {:induction false} UnheardMeans(log: seq<Write>)
    ensures Unheard(log) == 0 <==> forall k :: 0 <= k < |log| ==> log[k].heard
    decreases |log|
  {
    if log != [] {
      var front := log[..|log| - 1];
      UnheardMeans(front);
      assert forall k :: 0 <= k < |front| ==> front[k] == log[k];
    }
  }

  /** If an error always means that nothing was written, then each success is one write, the one whose
      entity it returns, and there are no others. */
  lemma SuccessesAreTheWrites(initial: Entity, updates: (nat, Data) -> Result<Data>, steps: seq<Step>)
    requires forall k :: 0 <= k < |steps| && steps[k].Send? && steps[k].reaches ==> steps[k].heard
    ensures var s := Run(initial, updates, steps);
            && s.stored.version == initial.version + |Successes(s)|
            && (forall id :: id in Successes(s) <==> exists k :: 0 <= k < |s.log| && s.log[k].client == id)
            && (forall k :: 0 <= k < |s.log| ==>
                  s.log[k].client in s.clients && s.clients[s.log[k].client].phase == Finished(Ok(s.log[k].after)))
            && (forall k, l :: 0 <= k < l < |s.log| ==> s.log[k].client != s.log[l].client)
  {
    var s := Run(initial, updates, steps);
    RunKeepsInv(initial, updates, steps);
    AllHeard(initial, updates, steps);
    CountsExactlyWhenHeard(initial, updates, steps);
    forall k | 0 <= k < |s.log| 
      ensures s.log[k].client in s.clients && s.clients[s.log[k].client].phase == Finished(Ok(s.log[k].after))
    {
      assert ClientOK(s, updates, s.log[k].client, s.clients[s.log[k].client]);
    }
    forall id | id in Successes(s) ensures exists k :: 0 <= k < |s.log| && s.log[k].client == id {
      var k :| 0 <= k < |s.log| && s.log[k].client == id && s.log[k].heard;
    }
  }

  lemma {:induction false} AllHeard(initial: Entity, updates: (nat, Data) -> Result<Data>, steps: seq<Step>)
    requires forall k :: 0 <= k < |steps| && steps[k].Send? && steps[k].reaches ==> steps[k].heard
    ensures forall k :: 0 <= k < |Run(initial, updates, steps).log| ==> Run(initial, updates, steps).log[k].heard
    decreases |steps|
  {
    if steps != [] {
      AllHeard(initial, updates, steps[..|steps| - 1]);
    }
  }

  lemma AttemptsOK(s: System, initial: Entity, updates: (nat, Data) -> Result<Data>, id: nat)
    requires Inv(s, initial, updates) && id in s.clients
    ensures ClientOK(s, updates, id, s.clients[id])
  {
  }

  /** No interleaving makes a command try more often than its retries allow. */
  lemma AttemptsBounded(initial: Entity, updates: (nat, Data) -> Result<Data>, steps: seq<Step>, id: nat)
    requires id in Run(initial, updates, steps).clients
    ensures var c := Run(initial, updates, steps).clients[id];
            && c.attempts <= Max(0, c.cmd.retries + 1)
            && (c.phase.Getting? || c.phase.Putting? ==> c.attempts <= c.cmd.retries)
  {
    hide Run, Inv;
    RunKeepsInv(initial, updates, steps);
    AttemptsOK(Run(initial, updates, steps), initial, updates, id);
  }

  // ----- why a command gives up -----

  /** The step is a put of this client that reaches the store, is refused there, and is reported so. */
  predicate MeetsConflict(s: System, step: Step, id: nat) {
    && step.Send? && step.id == id && id in s.clients && s.clients[id].phase.Putting?
    && step.reaches && step.heard && s.stored != s.clients[id].phase.base
  }

  /** How many conflicts the client has met so far. */
  function Conflicts(initial: Entity, updates: (nat, Data) -> Result<Data>, steps: seq<Step>, id: nat): nat
    decreases |steps|
  {
    if steps == [] then 0
    else
      var front, step := steps[..|steps| - 1], steps[|steps| - 1];
      Conflicts(initial, updates, front, id) + if MeetsConflict(Run(initial, updates, front), step, id) then 1 else 0
  }

  /** The step ends the client's command with this error, for the reason it says, given how many conflicts the
      client has met by then. */
  predicate EndsFor(s: System, updates: (nat, Data) -> Result<Data>, step: Step, id: nat, error: Error,
                    conflicts: nat)
  {
    && step.id == id
    && match step
       case Start(_, cmd) => cmd.retries < 0 && error == Conflict
       case Get(_, failure) =>
         && id in s.clients && s.clients[id].phase.Getting?
         && var wanted := s.clients[id].cmd.initialVersion;
            if failure.Some? then error == failure.value
            else if wanted > 0 && s.stored.version != wanted then error == Conflict
            else updates(id, s.stored.value) == Err(error)
       case Send(_, reaches, heard, again) =>
         && id in s.clients && s.clients[id].phase.Putting?
         && if MeetsConflict(s, step, id) then conflicts == s.clients[id].cmd.retries + 1 && error == Conflict
            else
              && (!reaches || !heard) && error == Error(IO, true)
              && (!again || s.clients[id].phase.again >= s.clients[id].cmd.resends)
       case Pause(_, alive) =>
         id in s.clients && s.clients[id].phase.Pausing? && !alive && error == Error(Cancelled, false)
  }

  /** The attempts counted are the conflicts met, but for the one whose pause is not over. */
  predicate AttemptsAreConflicts(c: Client, conflicts: nat) {
    match c.phase
    case Getting => conflicts == c.attempts
    case Putting(_, _, _) => conflicts == c.attempts
    case Pausing => conflicts == c.attempts + 1
    case Finished(_) => true
  }

  lemma ConflictStep(s: System, updates: (nat, Data) -> Result<Data>, step: Step, id: nat, conflicts: nat)
    requires if id in s.clients then AttemptsAreConflicts(s.clients[id], conflicts) else conflicts == 0
    requires id in s.clients && !s.clients[id].phase.Finished? ==> s.clients[id].attempts <= s.clients[id].cmd.retries
    ensures var s' := Next(s, updates, step);
            var conflicts' := conflicts + if MeetsConflict(s, step, id) then 1 else 0;
            && (if id in s'.clients then AttemptsAreConflicts(s'.clients[id], conflicts') else conflicts' == 0)
            && (id in s'.clients && s'.clients[id].phase.Finished? && s'.clients[id].phase.result.Err?
                && !(id in s.clients && s.clients[id].phase.Finished?) ==>
                  EndsFor(s, updates, step, id, s'.clients[id].phase.result.error, conflicts'))
            && (id in s.clients && s.clients[id].phase.Finished? ==>
                  id in s'.clients && s'.clients[id] == s.clients[id])
  {
  }

  lemma {:induction false} ConflictsCounted(initial: Entity, updates: (nat, Data) -> Result<Data>, steps: seq<Step>,
                                            id: nat)
    ensures var s, n := Run(initial, updates, steps), Conflicts(initial, updates, steps, id);
            if id in s.clients then AttemptsAreConflicts(s.clients[id], n) else n == 0
    decreases |steps|
  {
    if steps != [] {
      var front, step := steps[..|steps| - 1], steps[|steps| - 1];
      ConflictsCounted(initial, updates, front, id);
      StillTrying(initial, updates, front, id);
      ConflictStep(Run(initial, updates, front), updates, step, id, Conflicts(initial, updates, front, id));
    }
  }

  lemma StillTrying(initial: Entity, updates: (nat, Data) -> Result<Data>, steps: seq<Step>, id: nat)
    ensures var s := Run(initial, updates, steps);
            id in s.clients && !s.clients[id].phase.Finished? ==> s.clients[id].attempts <= s.clients[id].cmd.retries
  {
    hide Run, Inv;
    RunKeepsInv(initial, updates, steps);
    if id in Run(initial, updates, steps).clients {
      AttemptsOK(Run(initial, updates, steps), initial, updates, id);
    }
  }

  /** A command that has ended in an error did so at some step of the run, for a reason: it may try no attempt at
      all, its read or update failed, it read another version than it asked for, it was left without an answer,
      its context ended, or it had met a conflict at every one of its retries + 1 attempts. */
  lemma {:induction false} GivesUpOnlyIf(initial: Entity, updates: (nat, Data) -> Result<Data>, steps: seq<Step>,
                                         id: nat)
    returns (k: nat)
    requires var s := Run(initial, updates, steps);
             id in s.clients && s.clients[id].phase.Finished? && s.clients[id].phase.result.Err?
    ensures k < |steps|
    ensures EndsFor(Run(initial, updates, steps[..k]), updates, steps[k], id,
                    Run(initial, updates, steps).clients[id].phase.result.error,
                    Conflicts(initial, updates, steps[..k + 1], id))
    decreases |steps|
  {
    var front, step := steps[..|steps| - 1], steps[|steps| - 1];
    var before := Run(initial, updates, front);
    ConflictsCounted(initial, updates, front, id);
    StillTrying(initial, updates, front, id);
    ConflictStep(before, updates, step, id, Conflicts(initial, updates, front, id));
    if id in before.clients && before.clients[id].phase.Finished? {
      hide Next, EndsFor;
      k := GivesUpOnlyIf(initial, updates, front, id);
      assert front[..k] == steps[..k] && front[..k + 1] == steps[..k + 1];
    } else {
      k := |steps| - 1;
      assert steps[..k + 1] == steps;
    }
  }

  // ----- how often a command makes its update -----

  function WritesBy(log: seq<Write>, id: nat): nat {
    if log == [] then 0
    else WritesBy(log[..|log| - 1], id) + if log[|log| - 1].client == id then 1 else 0
  }

  /** What a client's phase says about its writes so far. While a put is in flight its client has written in
      this attempt only if the stored version is past the one it read, since versions only rise. */
  ghost predicate BudgetOK(stored: Entity, writes: nat, c: Client) {
    && (c.phase.Putting? ==>
          && c.phase.base.version <= stored.version && c.phase.next.version == c.phase.base.version + 1
          && (c.cmd.initialVersion > 0 ==> c.phase.base.version == c.cmd.initialVersion))
    && (c.phase.Finished? || c.attempts <= c.cmd.retries)
    && (c.phase.Pausing? ==> c.attempts < c.cmd.retries)
    && (match c.phase
        case Getting => writes <= c.attempts
        case Putting(base, _, _) => writes <= c.attempts + if stored.version > base.version then 1 else 0
        case Pausing => writes <= c.attempts + 1
        case Finished(_) => writes <= Max(0, c.cmd.retries + 1))
    && (c.cmd.resends <= 0 ==> writes <= if c.phase.Finished? then 1 else 0)
    && (c.cmd.initialVersion > 0 ==> writes <= if stored.version > c.cmd.initialVersion then 1 else 0)
  }

  ghost predicate Budgets(s: System) {
    && (forall id :: id in s.clients ==> BudgetOK(s.stored, WritesBy(s.log, id), s.clients[id]))
    && (forall id :: id !in s.clients ==> WritesBy(s.log, id) == 0)
  }

  lemma OneMoreWrite(log: seq<Write>, w: Write, id: nat)
    ensures WritesBy(log + [w], id) == WritesBy(log, id) + if w.client == id then 1 else 0
  {
    assert (log + [w])[..|log|] == log;
  }

  lemma BudgetStays(stored: Entity, stored': Entity, writes: nat, c: Client)
    requires BudgetOK(stored, writes, c) && stored.version <= stored'.version
    ensures BudgetOK(stored', writes, c)
  {
  }

  lemma SenderBudget(s: System, id: nat, reaches: bool, heard: bool, again: bool, writes: nat)
    requires id in s.clients && s.clients[id].phase.Putting? && BudgetOK(s.stored, writes, s.clients[id])
    ensures var s' := Sent(s, id, reaches, heard, again);
            && s.stored.version <= s'.stored.version
            && BudgetOK(s'.stored, writes + |s'.log| - |s.log|, s'.clients[id])
  {
  }

  lemma SendCounted(s: System, id: nat, reaches: bool, heard: bool, again: bool, i: nat)
    requires id in s.clients && s.clients[id].phase.Putting?
    ensures var s' := Sent(s, id, reaches, heard, again);
            WritesBy(s'.log, i) == WritesBy(s.log, i) + if i == id then |s'.log| - |s.log| else 0
  {
    var s' := Sent(s, id, reaches, heard, again);
    if s'.log != s.log {
      OneMoreWrite(s.log, s'.log[|s.log|], i);
    }
  }

  lemma SendKeepsBudgets(s: System, id: nat, reaches: bool, heard: bool, again: bool)
    requires Budgets(s) && id in s.clients && s.clients[id].phase.Putting?
    ensures Budgets(Sent(s, id, reaches, heard, again))
  {
    var s' := Sent(s, id, reaches, heard, again);
    SenderBudget(s, id, reaches, heard, again, WritesBy(s.log, id));
    assert s'.clients.Keys == s.clients.Keys && forall i :: i in s.clients && i != id ==> s'.clients[i] == s.clients[i];
    hide Sent, BudgetOK, WritesBy;
    forall i ensures i in s'.clients ==> BudgetOK(s'.stored, WritesBy(s'.log, i), s'.clients[i])
             ensures i !in s'.clients ==> WritesBy(s'.log, i) == 0
    {
      SendCounted(s, id, reaches, heard, again, i);
      if i in s.clients && i != id {
        BudgetStays(s.stored, s'.stored, WritesBy(s.log, i), s.clients[i]);
      }
    }
  }

  lemma StepKeepsBudgets(s: System, updates: (nat, Data) -> Result<Data>, step: Step)
    requires Budgets(s)
    ensures Budgets(Next(s, updates, step))
  {
    if step.Send? && step.id in s.clients && s.clients[step.id].phase.Putting? {
      SendKeepsBudgets(s, step.id, step.reaches, step.heard, step.again);
    } else {
      hide Sent;
      assert step.id in s.clients ==> BudgetOK(s.stored, WritesBy(s.log, step.id), s.clients[step.id]);
    }
  }

  lemma {:induction false} RunKeepsBudgets(initial: Entity, updates: (nat, Data) -> Result<Data>, steps: seq<Step>)
    ensures Budgets(Run(initial, updates, steps))
    decreases |steps|
  {
    if steps != [] {
      RunKeepsBudgets(initial, updates, steps[..|steps| - 1]);
      StepKeepsBudgets(Run(initial, updates, steps[..|steps| - 1]), updates, steps[|steps| - 1]);
    }
  }

  /** The command may find its own write to be somebody else's and start over: it has another attempt, asks for no
      particular version, and its store's retrier sends again. */
  predicate MayRepeat(cmd: Command) {
    cmd.retries >= 1 && cmd.initialVersion <= 0 && cmd.resends >= 1
  }

  lemma BudgetMeans(s: System, id: nat)
    requires Budgets(s) && id in s.clients
    ensures WritesBy(s.log, id) <= Max(0, s.clients[id].cmd.retries + 1)
    ensures !MayRepeat(s.clients[id].cmd) ==> WritesBy(s.log, id) <= 1
  {
    hide WritesBy;
    assert BudgetOK(s.stored, WritesBy(s.log, id), s.clients[id]);
  }

  /** Whatever replies are lost and however the commands interleave, a command makes its update at most
      max(0, retries + 1) times, and at most once unless it may repeat. */
  lemma {:induction false} WritesBounded(initial: Entity, updates: (nat, Data) -> Result<Data>, steps: seq<Step>,
                                         id: nat)
    requires id in Run(initial, updates, steps).clients
    ensures var s := Run(initial, updates, steps);
            && WritesBy(s.log, id) <= Max(0, s.clients[id].cmd.retries + 1)
            && (!MayRepeat(s.clients[id].cmd) ==> WritesBy(s.log, id) <= 1)
  {
    hide Run;
    RunKeepsBudgets(initial, updates, steps);
    BudgetMeans(Run(initial, updates, steps), id);
  }

  /** Attempt, lost reply, resend, conflict, second attempt. */
  function LostReply(cmd: Command): seq<Step> {
    [Start(0, cmd), Get(0, None), Send(0, true, false, true), Send(0, true, true, false),
     Pause(0, true), Get(0, None), Send(0, true, true, false)]
  }

  /** A write that is applied and reported as failed, and then sent again, comes back as a conflict; every
      command that may repeat then makes its update a second time and reports one success. */
  lemma AppliedTwice(cmd: Command, value: Data, update: Data -> Result<Data>)
    requires MayRepeat(cmd) && update(value).Ok? && update(update(value).value).Ok?
    ensures var s := Run(Entity(value, 1), (id, v) => update(v), LostReply(cmd));
            && Successes(s) == {0} && 0 in s.clients && s.clients[0].cmd == cmd
            && WritesBy(s.log, 0) == 2
            && s.stored == Entity(update(update(value).value).value, 3)
  {
    hide Run;
    var updates := (id, v) => update(v);
    var e0 := Entity(value, 1);
    var e1 := Entity(update(value).value, 2);
    var e2 := Entity(update(e1.value).value, 3);
    var steps := LostReply(cmd);
    var w1, w2 := Write(0, e0, e1, false), Write(0, e1, e2, true);
    NoSteps(e0, updates, steps);
    OneStep(e0, updates, steps, 0, System(e0, map[0 := Client(cmd, 0, Getting)], []));
    OneStep(e0, updates, steps, 1, System(e0, map[0 := Client(cmd, 0, Putting(e0, e1, 0))], []));
    OneStep(e0, updates, steps, 2, System(e1, map[0 := Client(cmd, 0, Putting(e0, e1, 1))], [w1]));
    OneStep(e0, updates, steps, 3, System(e1, map[0 := Client(cmd, 0, Pausing)], [w1]));
    OneStep(e0, updates, steps, 4, System(e1, map[0 := Client(cmd, 1, Getting)], [w1]));
    OneStep(e0, updates, steps, 5, System(e1, map[0 := Client(cmd, 1, Putting(e1, e2, 0))], [w1]));
    OneStep(e0, updates, steps, 6, System(e2, map[0 := Client(cmd, 1, Finished(Ok(e2)))], [w1, w2]));
    assert steps[..7] == steps;
    OneMoreWrite([], w1, 0);
    OneMoreWrite([w1], w2, 0);
    assert [w1] + [w2] == [w1, w2] && [] + [w1] == [w1];
  }

  /** In some run a client with this command makes its update more than once. */
  ghost predicate Repeats(cmd: Command, initial: Entity, updates: (nat, Data) -> Result<Data>, steps: seq<Step>,
                          id: nat)
  {
    var s := Run(initial, updates, steps);
    id in s.clients && s.clients[id].cmd == cmd && WritesBy(s.log, id) > 1
  }

  /** A command can make its update twice exactly when it may repeat. */
  lemma RepeatsExactlyIf(cmd: Command)
    ensures (exists initial, updates, steps, id :: Repeats(cmd, initial, updates, steps, id)) <==> MayRepeat(cmd)
  {
    if MayRepeat(cmd) {
      var update: Data -> Result<Data> := v => Ok(v);
      AppliedTwice(cmd, "", update);
      assert Repeats(cmd, Entity("", 1), (id, v) => update(v), LostReply(cmd), 0);
    }
    forall initial, updates, steps, id | Repeats(cmd, initial, updates, steps, id) ensures MayRepeat(cmd) {
      WritesBounded(initial, updates, steps, id);
    }
  }

  lemma NoSteps(initial: Entity, updates: (nat, Data) -> Result<Data>, steps: seq<Step>)
    ensures Run(initial, updates, steps[..0]) == System(initial, map[], [])
  {
  }

  lemma OneStep(initial: Entity, updates: (nat, Data) -> Result<Data>, steps: seq<Step>, k: nat, s': System)
    requires k < |steps| && Next(Run(initial, updates, steps[..k]), updates, steps[k]) == s'
    ensures Run(initial, updates, steps[..k + 1]) == s'
  {
    assert steps[..k + 1][..k] == steps[..k];
  }
}
