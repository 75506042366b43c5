/** The file backend as a protocol of steps. Every call stages, locks, reads, checks, publishes, syncs and
    unlocks on its own, and the steps of any number of calls interleave; each step may also fail or be the
    last one its process takes. */
module FileStores {
  import opened Common
  import opened Conditions
  import opened MockStorages

  /** An index into `disk`; a new file always gets a fresh one. */
  type Inode = nat

  datatype Request =
    | GetReq(uri: string, conds: Conditions)
    | HeadReq(uri: string)
    | PutReq(uri: string, data: Data, conds: Conditions)
    | DeleteReq(uri: string, conds: Conditions)

  datatype Answer = Found(found: Object) | Tagged(etag: ETag) | Gone | Failed(code: Code)

  /** Where a call is. `staged` is the temporary file of a put, complete once staging is over. */
  datatype Phase =
    | Staging(file: Inode, written: nat)
    | Waiting(staged: Option<Inode>)
    | Holding(staged: Option<Inode>)
    | Reading(staged: Option<Inode>, source: Inode, got: Data)
    | Cleared(staged: Option<Inode>)
    | Linked
    | Syncing
    | Leaving(answer: Answer)
    | Returned(answer: Answer)
    | Crashed

  /** `began` is the length of the log when the call began, `at` the place of its effect in the log. */
  datatype Call = Call(req: Request, phase: Phase, began: nat, at: Option<nat>)

  datatype Grant = Grant(uri: string, exclusive: bool)

  datatype Event = Event(id: nat, req: Request, answer: Answer)

  /** The directory maps names to inodes; `grants` are the advisory locks held. The log is bookkeeping. */
  datatype System = System(
    names: map<string, Inode>,
    disk: seq<Data>,
    grants: map<nat, Grant>,
    calls: map<nat, Call>,
    log: seq<Event>)

  /** How a step turns out. Some(n): the next chunk of n bytes is written or read. */
  datatype Luck = Proceed | Chunk(n: nat) | Fail(code: Code) | Crash

  datatype Step = Start(id: nat, req: Request, created: bool) | Move(id: nat, luck: Luck)

  predicate Writes(req: Request) {
    req.PutReq? || req.DeleteReq?
  }

  // ----- the atomic store the protocol is to refine -----

  /** One request on a plain map of objects. */
  function Atomic(objects: Objects, req: Request): (Objects, Answer) {
    match req
    case GetReq(uri, conds) =>
      (objects, match GetFrom(objects, uri, conds) case Ok(found) => Found(found) case Err(error) => Failed(error.code))
    case HeadReq(uri) =>
      (objects, match HeadOf(objects, uri) case Ok(etag) => Tagged(etag) case Err(error) => Failed(error.code))
    case PutReq(uri, data, conds) =>
      (match PutTo(objects, uri, data, conds)
       case Ok(next) => (next, Tagged(Digest(data)))
       case Err(error) => (objects, Failed(error.code)))
    case DeleteReq(uri, conds) =>
      (match DeleteFrom(objects, uri, conds)
       case Ok(next) => (next, Gone)
       case Err(error) => (objects, Failed(error.code)))
  }

  /** The objects after the logged requests were served one at a time. */
  function Replay(objects: Objects, log: seq<Event>): Objects
    decreases |log|
  {
    if log == [] then objects
    else Atomic(Replay(objects, log[..|log| - 1]), log[|log| - 1].req).0
  }

  // ----- the steps -----

  /** flock: an exclusive lock needs the path to itself, a shared one the absence of an exclusive one. */
  predicate Available(grants: map<nat, Grant>, uri: string, exclusive: bool) {
    forall i :: i in grants && grants[i].uri == uri ==> !exclusive && !grants[i].exclusive
  }

  /** The call is now at `phase`. */
  function Goto(s: System, id: nat, phase: Phase): System
    requires id in s.calls
  {
    s.(calls := s.calls[id := s.calls[id].(phase := phase)])
  }

  /** The call takes effect with this answer and is now at `phase`. */
  function Effect(s: System, id: nat, answer: Answer, phase: Phase): System
    requires id in s.calls
  {
    var c := s.calls[id];
    s.(calls := s.calls[id := c.(phase := phase, at := Some(|s.log|))], log := s.log + [Event(id, c.req, answer)])
  }

  function Refuse(s: System, id: nat, code: Code): System
    requires id in s.calls
  {
    Effect(s, id, Failed(code), Leaving(Failed(code)))
  }

  /** What the call does once it knows the stored object, if there is one. */
  function Decide(s: System, id: nat, staged: Option<Inode>, current: Option<Object>): System
    requires id in s.calls
  {
    var etag := if current.Some? then Some(current.value.etag) else None;
    match s.calls[id].req
    case GetReq(uri, conds) =>
      if current.None? then Refuse(s, id, NotFound)
      else if ApplyConditionalGet(current.value.etag, conds).Some? then
        Refuse(s, id, ApplyConditionalGet(current.value.etag, conds).value)
      else Effect(s, id, Found(current.value), Leaving(Found(current.value)))
    case HeadReq(uri) =>
      if current.None? then Refuse(s, id, NotFound)
      else Effect(s, id, Tagged(current.value.etag), Leaving(Tagged(current.value.etag)))
    case PutReq(uri, data, conds) =>
      if ApplyConditionalPut(etag, conds).Some? then Refuse(s, id, ApplyConditionalPut(etag, conds).value)
      else Goto(s, id, Cleared(staged))
    case DeleteReq(uri, conds) =>
      if ApplyConditionalDelete(etag, conds).Some? then Refuse(s, id, ApplyConditionalDelete(etag, conds).value)
      else if current.None? then Refuse(s, id, NotFound)
      else Goto(s, id, Cleared(staged))
  }

  /** link fails if the name is taken, rename replaces what is there, remove needs something to remove. */
  function Publish(s: System, id: nat, staged: Option<Inode>): System
    requires id in s.calls
  {
    var req := s.calls[id].req;
    if req.PutReq? && staged.Some? then
      if WantsIfNoneMatchStar(req.conds) then
        if req.uri in s.names then Goto(s, id, Leaving(Failed(PreconditionFailed)))
        else Effect(s.(names := s.names[req.uri := staged.value]), id, Tagged(Digest(req.data)), Linked)
      else Effect(s.(names := s.names[req.uri := staged.value]), id, Tagged(Digest(req.data)), Syncing)
    else if req.uri in s.names then Effect(s.(names := s.names - {req.uri}), id, Gone, Syncing)
    else Goto(s, id, Leaving(Failed(IO)))
  }

  /** What the call does when the next thing it attempts works. */
  function Advance(s: System, id: nat): System
    requires id in s.calls
  {
    var c := s.calls[id];
    match c.phase
    case Staging(file, written) =>
      if c.req.PutReq? && written == |c.req.data| then Goto(s, id, Waiting(Some(file))) else s
    case Waiting(staged) =>
      if Available(s.grants, c.req.uri, Writes(c.req)) then
        Goto(s, id, Holding(staged)).(grants := s.grants[id := Grant(c.req.uri, Writes(c.req))])
      else s
    case Holding(staged) =>
      if c.req.uri in s.names then Goto(s, id, Reading(staged, s.names[c.req.uri], "")) else Decide(s, id, staged, None)
    case Reading(staged, source, got) =>
      if source < |s.disk| && |got| == |s.disk[source]| then Decide(s, id, staged, Some(Stored(got))) else s
    case Cleared(staged) => Publish(s, id, staged)
    case Linked => Goto(s, id, Syncing)
    case Syncing => Goto(s, id, Leaving(if c.req.PutReq? then Tagged(Digest(c.req.data)) else Gone))
    case Leaving(answer) => Goto(s, id, Returned(answer)).(grants := s.grants - {id})
    case _ => s
  }

  /** The next chunk goes to the staged file, or comes from the open one, as it is at that moment. */
  function MoveChunk(s: System, id: nat, n: nat): System
    requires id in s.calls
  {
    var c := s.calls[id];
    match c.phase
    case Staging(file, written) =>
      if c.req.PutReq? && written + n <= |c.req.data| && file < |s.disk| then
        var more := s.disk[file] + c.req.data[written..written + n];
        Goto(s, id, Staging(file, written + n)).(disk := s.disk[file := more])
      else s
    case Reading(staged, source, got) =>
      if source < |s.disk| && |got| + n <= |s.disk[source]| then
        Goto(s, id, Reading(staged, source, got + s.disk[source][|got|..|got| + n]))
      else s
    case _ => s
  }

  /** An attempt fails: before the lock the call returns, under the lock it goes on to unlock. What was
      published stays published. */
  function Stumble(s: System, id: nat, code: Code): System
    requires id in s.calls
  {
    match s.calls[id].phase
    case Staging(_, _) => Goto(s, id, Returned(Failed(code)))
    case Waiting(_) => Goto(s, id, Returned(Failed(code)))
    case Holding(_) => Goto(s, id, Leaving(Failed(code)))
    case Reading(_, _, _) => Goto(s, id, Leaving(Failed(code)))
    case Cleared(_) => Goto(s, id, Leaving(Failed(code)))
    case Linked => Goto(s, id, Leaving(Failed(code)))
    case Syncing => Goto(s, id, Leaving(Failed(code)))
    case _ => s
  }

  /** Failures that say nothing about whether the call took effect. */
  predicate Inconclusive(answer: Answer) {
    answer == Failed(IO) || answer == Failed(Cancelled)
  }

  function Next(s: System, step: Step): System {
    match step
    case Start(id, req, created) =>
      if id in s.calls then s
      else if !req.PutReq? then s.(calls := s.calls[id := Call(req, Waiting(None), |s.log|, None)])
      else if created then
        s.(calls := s.calls[id := Call(req, Staging(|s.disk|, 0), |s.log|, None)], disk := s.disk + [""])
      else s.(calls := s.calls[id := Call(req, Returned(Failed(IO)), |s.log|, None)])
    case Move(id, luck) =>
      if id !in s.calls then s
      else
        match luck
        case Proceed => Advance(s, id)
        case Chunk(n) => MoveChunk(s, id, n)
        case Fail(code) => if Inconclusive(Failed(code)) then Stumble(s, id, code) else s
        case Crash => if s.calls[id].phase.Returned? then s else Goto(s, id, Crashed).(grants := s.grants - {id})
  }

  function Run(s: System, steps: seq<Step>): System
    decreases |steps|
  {
    if steps == [] then s else Next(Run(s, steps[..|steps| - 1]), steps[|steps| - 1])
  }

  // ----- the invariant -----

  ghost predicate NamesOK(s: System) {
    forall uri :: uri in s.names ==> s.names[uri] < |s.disk|
  }

  /** What the directory shows: every named file under the digest of its content. */
  ghost function Contents(s: System): Objects
    requires NamesOK(s)
  {
    map uri | uri in s.names :: Stored(s.disk[s.names[uri]])
  }

  ghost predicate Fresh(s: System) {
    NamesOK(s) && s.grants == map[] && s.calls == map[] && s.log == []
  }

  /** The temporary file a call still may write or publish. */
  function Owned(c: Call): Option<Inode> {
    match c.phase
    case Staging(file, _) => Some(file)
    case Waiting(staged) => staged
    case Holding(staged) => staged
    case Reading(staged, _, _) => staged
    case Cleared(staged) => staged
    case _ => None
  }

  predicate UnderLock(phase: Phase) {
    phase.Holding? || phase.Reading? || phase.Cleared? || phase.Linked? || phase.Syncing? || phase.Leaving?
  }

  /** Locks exclude each other, and no two calls own the same file. */
  ghost predicate ExclusionOK(s: System) {
    && (forall i, j :: i in s.grants && j in s.grants && i != j && s.grants[i].uri == s.grants[j].uri ==>
          !s.grants[i].exclusive && !s.grants[j].exclusive)
    && (forall i, j :: i in s.calls && j in s.calls && i != j && Owned(s.calls[i]).Some? ==>
          Owned(s.calls[i]) != Owned(s.calls[j]))
    && (forall i :: i in s.grants ==> i in s.calls)
  }

  /** The staged file of a call is its own, and has no name yet. */
  ghost predicate Private(s: System, file: Inode) {
    file < |s.disk| && forall uri :: uri in s.names ==> s.names[uri] != file
  }

  ghost predicate StagedOK(s: System, c: Call, staged: Option<Inode>) {
    if c.req.PutReq? then staged.Some? && Private(s, staged.value) && s.disk[staged.value] == c.req.data
    else staged.None?
  }

  /** What holds of a call between any two steps. */
  ghost predicate CallOK(s: System, id: nat, c: Call) {
    && (UnderLock(c.phase) <==> id in s.grants)
    && (UnderLock(c.phase) ==> s.grants[id] == Grant(c.req.uri, Writes(c.req)))
    && match c.phase
       case Staging(file, written) =>
         && c.req.PutReq? && c.at.None?
         && Private(s, file) && written <= |c.req.data| && s.disk[file] == c.req.data[..written]
       case Waiting(staged) => StagedOK(s, c, staged) && c.at.None?
       case Holding(staged) => StagedOK(s, c, staged) && c.at.None?
       case Reading(staged, source, got) =>
         && StagedOK(s, c, staged) && c.at.None?
         && c.req.uri in s.names && s.names[c.req.uri] == source && source < |s.disk|
         && |got| <= |s.disk[source]| && got == s.disk[source][..|got|]
       case Cleared(staged) => StagedOK(s, c, staged) && c.at.None? && Writes(c.req) && PassesNow(s, c)
       case Linked => Writes(c.req) && Took(s, c, Granted(c.req))
       case Syncing => Writes(c.req) && Took(s, c, Granted(c.req))
       case Leaving(answer) => AnswerOK(s, c, answer)
       case Returned(answer) => AnswerOK(s, c, answer)
       case Crashed => true
  }

  /** The conditions of a write hold of what is stored now. */
  ghost predicate PassesNow(s: System, c: Call)
    requires Writes(c.req)
  {
    var current := if c.req.uri in s.names && s.names[c.req.uri] < |s.disk|
                   then Some(Digest(s.disk[s.names[c.req.uri]])) else None;
    if c.req.PutReq? then ApplyConditionalPut(current, c.req.conds).None?
    else ApplyConditionalDelete(current, c.req.conds).None? && current.Some?
  }

  function Granted(req: Request): Answer
    requires Writes(req)
  {
    if req.PutReq? then Tagged(Digest(req.data)) else Gone
  }

  /** The call took effect, with this answer. */
  ghost predicate Took(s: System, c: Call, answer: Answer) {
    c.at.Some? && c.at.value < |s.log| && s.log[c.at.value].answer == answer
  }

  /** The answer is that of the atomic store, or an error that leaves open whether the call took effect. */
  ghost predicate AnswerOK(s: System, c: Call, answer: Answer) {
    Took(s, c, answer) || Inconclusive(answer)
  }

  /** The log holds exactly the effects of the calls, each inside the time of its call. */
  ghost predicate LogOK(s: System) {
    && (forall id :: id in s.calls ==> s.calls[id].began <= |s.log|)
    && (forall id :: id in s.calls && s.calls[id].at.Some? ==>
          && s.calls[id].began <= s.calls[id].at.value < |s.log|
          && s.log[s.calls[id].at.value].id == id)
    && (forall k :: 0 <= k < |s.log| ==>
          s.log[k].id in s.calls && s.calls[s.log[k].id].req == s.log[k].req && s.calls[s.log[k].id].at == Some(k))
  }

  ghost predicate Inv(s: System) {
    && NamesOK(s) && ExclusionOK(s) && LogOK(s)
    && forall id :: id in s.calls ==> CallOK(s, id, s.calls[id])
  }
}
