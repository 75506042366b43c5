/** An Object's in-memory state and its stored counterpart: edits that interleave with the critical
    sections of Load, Save and Delete, and with everybody else who writes the key. */
module ObjectSync {
  import opened Common
  import opened Conditions

  /** `etag` is the ETag in the held metadata; `revision` counts the edits, loads and deletes. */
  datatype ObjectState = ObjectState(entity: Data, etag: Option<ETag>, loaded: bool, modified: bool, revision: nat)

  const Blank := ObjectState("", None, false, false, 0)

  datatype SaveOptions = SaveOptions(force: bool, conds: Conditions)

  const Plain := SaveOptions(false, Unconditional)

  // ----- the critical sections -----

  function Edited(s: ObjectState, entity: Data): ObjectState {
    s.(entity := entity, modified := true, revision := s.revision + 1)
  }

  /** The end of a Load that started at revision `start`; false: the object changed meanwhile. */
  function Loaded(s: ObjectState, start: nat, data: Data, etag: ETag): (ObjectState, bool) {
    if s.revision != start then (s, false) else (ObjectState(data, Some(etag), true, false, s.revision + 1), true)
  }

  /** The conditions a Save puts under; None: there is nothing to save. */
  function SaveConditions(s: ObjectState, opts: SaveOptions): Option<Conditions> {
    if opts.force || opts.conds.ifMatch != Unset || opts.conds.ifNoMatch != Unset then Some(opts.conds)
    else if !s.modified then None
    else if s.etag.Some? then Some(Conditions(Tag(s.etag.value), Unset))
    else Some(Conditions(Unset, Tag(Star)))
  }

  /** The end of a Save that took the state when it was at revision `taken`. */
  function Saved(s: ObjectState, taken: nat, etag: ETag): ObjectState {
    s.(etag := Some(etag), loaded := true, modified := s.modified && s.revision != taken)
  }

  function Deleted(s: ObjectState, start: nat): ObjectState {
    if s.revision == start then ObjectState("", None, false, false, s.revision + 1)
    else s.(etag := None, loaded := false, modified := true)
  }

  class Object {
    var entity: Data
    var etag: Option<ETag>
    var loaded: bool
    var modified: bool
    var revision: nat

    function State(): ObjectState
      reads this
    {
      ObjectState(entity, etag, loaded, modified, revision)
    }

    constructor ()
      ensures State() == Blank
    {
      entity, etag, loaded, modified, revision := "", None, false, false, 0;
    }

    method Set(entity: Data)
      modifies this
      ensures State() == Edited(old(State()), entity)
    {
      this.entity := entity;
      modified := true;
      revision := revision + 1;
    }

    /** The critical section in which Update applies its function. */
    method Edit(fn: Data -> Data)
      modifies this
      ensures State() == Edited(old(State()), fn(old(entity)))
    {
      entity := fn(entity);
      modified := true;
      revision := revision + 1;
    }

    method FinishLoad(startRevision: nat, data: Data, tag: ETag) returns (ok: bool)
      modifies this
      ensures (State(), ok) == Loaded(old(State()), startRevision, data, tag)
    {
      if revision != startRevision {
        return false;
      }
      entity, etag := data, Some(tag);
      loaded, modified := true, false;
      revision := revision + 1;
      return true;
    }

    method StartSave(opts: SaveOptions) returns (taken: ObjectState, conds: Option<Conditions>)
      ensures taken == State() && conds == SaveConditions(State(), opts)
    {
      taken := ObjectState(entity, etag, loaded, modified, revision);
      var c := opts.conds;
      if !taken.modified && !opts.force && c.ifMatch == Unset && c.ifNoMatch == Unset {
        return taken, None;
      }
      if !opts.force && c.ifMatch == Unset && c.ifNoMatch == Unset {
        if taken.etag.Some? {
          c := c.(ifMatch := Tag(taken.etag.value));
        } else {
          c := c.(ifNoMatch := Tag(Star));
        }
      }
      return taken, Some(c);
    }

    method FinishSave(takenRevision: nat, tag: ETag)
      modifies this
      ensures State() == Saved(old(State()), takenRevision, tag)
    {
      etag := Some(tag);
      loaded := true;
      if revision == takenRevision {
        modified := false;
      }
    }

    method FinishDelete(startRevision: nat)
      modifies this
      ensures State() == Deleted(old(State()), startRevision)
    {
      etag := None;
      if revision == startRevision {
        entity := "";
        loaded, modified := false, false;
        revision := revision + 1;
      } else {
        loaded, modified := false, true;
      }
    }
  }

  // ----- the interleavings -----

  /** What the one operation that holds ioMu is doing. */
  datatype Flight =
    | Idle
    | Loading(start: nat)
    | Fetched(start: nat, data: Data)
    | Saving(taken: ObjectState, opts: SaveOptions, conds: Conditions)
    | Put(taken: ObjectState)
    | Deleting(start: nat, conds: Conditions)
    | Removed(start: nat)

  /** One write of this object's to the store: what it replaced, and what it was saved with. */
  datatype Write = Write(
    before: Option<Data>,
    after: Option<Data>,
    etag: Option<ETag>,
    seen: Option<Data>,
    opts: SaveOptions)

  /** `stored` is the content at the key. Bookkeeping: `seen` is the content most recently loaded or saved
      (None after a delete and before the first), `log` this object's saves that reached the store. */
  datatype World = World(
    state: ObjectState,
    flight: Flight,
    stored: Option<Data>,
    seen: Option<Data>,
    log: seq<Write>)

  datatype Step =
    | Edit(entity: Data)                              // Set, or the edit of Update
    | Mark                                            // CreateOrUpdate's own edit of the flags
    | Refresh(content: Data)                          // the end of FetchMetadata or Exists, whatever they saw
    | Others(now: Option<Data>)                       // somebody else's write
    | BeginLoad
    | Fetch(failed: bool)
    | EndLoad
    | BeginSave(opts: SaveOptions)
    | Send(reaches: bool, heard: bool, again: bool)   // a put, its answer heard or lost, retried or not
    | EndSave
    | BeginDelete(conds: Conditions)
    | SendDelete(reaches: bool, heard: bool, again: bool)
    | EndDelete

  function TagOf(content: Option<Data>): Option<ETag> {
    if content.Some? then Some(Digest(content.value)) else None
  }

  function SendPut(w: World, reaches: bool, heard: bool, again: bool): World
    requires w.flight.Saving?
  {
    var f := w.flight;
    var passes := ApplyConditionalPut(TagOf(w.stored), f.conds).None?;
    var applied := reaches && passes;
    World(
      w.state,
      if applied && heard then Put(f.taken) else if again && !(reaches && heard) then f else Idle,
      if applied then Some(f.taken.entity) else w.stored,
      w.seen,
      if applied then w.log + [Write(w.stored, Some(f.taken.entity), f.taken.etag, w.seen, f.opts)] else w.log)
  }

  function SendRemove(w: World, reaches: bool, heard: bool, again: bool): World
    requires w.flight.Deleting?
  {
    var f := w.flight;
    var applied := reaches && w.stored.Some? && ApplyConditionalDelete(TagOf(w.stored), f.conds).None?;
    w.(flight := if applied && heard then Removed(f.start) else if again && !(reaches && heard) then f else Idle,
       stored := if applied then None else w.stored)
  }

  function Next(w: World, step: Step): World {
    match step
    case Edit(entity) => w.(state := Edited(w.state, entity))
    case Mark => w.(state := w.state.(modified := true))
    case Refresh(content) => w.(state := w.state.(etag := Some(Digest(content))))
    case Others(now) => w.(stored := now)
    case BeginLoad => if w.flight.Idle? then w.(flight := Loading(w.state.revision)) else w
    case Fetch(failed) =>
      if !w.flight.Loading? then w
      else if failed || w.stored.None? then w.(flight := Idle)
      else w.(flight := Fetched(w.flight.start, w.stored.value))
    case EndLoad =>
      if !w.flight.Fetched? then w
      else
        var (state, ok) := Loaded(w.state, w.flight.start, w.flight.data, Digest(w.flight.data));
        w.(state := state, flight := Idle, seen := if ok then Some(w.flight.data) else w.seen)
    case BeginSave(opts) =>
      if !w.flight.Idle? || SaveConditions(w.state, opts).None? then w
      else w.(flight := Saving(w.state, opts, SaveConditions(w.state, opts).value))
    case Send(reaches, heard, again) => if w.flight.Saving? then SendPut(w, reaches, heard, again) else w
    case EndSave =>
      if !w.flight.Put? then w
      else
        var taken := w.flight.taken;
        w.(state := Saved(w.state, taken.revision, Digest(taken.entity)), flight := Idle, seen := Some(taken.entity))
    case BeginDelete(conds) => if w.flight.Idle? then w.(flight := Deleting(w.state.revision, conds)) else w
    case SendDelete(reaches, heard, again) => if w.flight.Deleting? then SendRemove(w, reaches, heard, again) else w
    case EndDelete =>
      if !w.flight.Removed? then w
      else w.(state := Deleted(w.state, w.flight.start), flight := Idle, seen := None)
  }

  function Run(w: World, steps: seq<Step>): World
    decreases |steps|
  {
    if steps == [] then w else Next(Run(w, steps[..|steps| - 1]), steps[|steps| - 1])
  }

  /** A new object, with anything or nothing stored at its key. */
  function New(stored: Option<Data>): World {
    World(Blank, Idle, stored, None, [])
  }

  // ----- what always holds -----

  ghost predicate FlightOK(w: World) {
    match w.flight
    case Idle => true
    case Loading(start) => start <= w.state.revision
    case Fetched(start, _) => start <= w.state.revision
    case Saving(taken, opts, conds) => TakenOK(w, taken) && SaveConditions(taken, opts) == Some(conds)
    case Put(taken) => TakenOK(w, taken)
    case Deleting(start, _) => start <= w.state.revision
    case Removed(start) => start <= w.state.revision
  }

  /** An unchanged revision means an unchanged entity, a changed one an edit that is still marked. */
  ghost predicate TakenOK(w: World, taken: ObjectState) {
    && taken.revision <= w.state.revision
    && if taken.revision == w.state.revision then taken.entity == w.state.entity else w.state.modified
  }

  ghost predicate Inv(w: World) {
    && FlightOK(w)
    && (w.state.etag.Some? ==> w.state.etag.value.Digest?)
    && (w.state.loaded && !w.state.modified ==> w.seen == Some(w.state.entity))
  }

  lemma StepKeepsInv(w: World, step: Step)
    requires Inv(w)
    ensures Inv(Next(w, step))
  {
  }

  /** Loaded and not modified means that the entity is exactly the content last loaded or saved, whatever
      edits, loads, saves, deletes and metadata refreshes were interleaved. */
  lemma {:induction false} CleanMeansSynced(stored: Option<Data>, steps: seq<Step>)
    ensures var w := Run(New(stored), steps);
            Inv(w) && (w.state.loaded && !w.state.modified ==> w.seen == Some(w.state.entity))
    decreases |steps|
  {
    if steps != [] {
      CleanMeansSynced(stored, steps[..|steps| - 1]);
      StepKeepsInv(Run(New(stored), steps[..|steps| - 1]), steps[|steps| - 1]);
    }
  }

  /** The held ETag is that of the content last loaded or saved, unless metadata was refreshed. */
  ghost predicate TagOK(w: World) {
    && w.state.etag == TagOf(w.seen)
    && (w.flight.Saving? ==> w.flight.taken.etag == w.state.etag)
  }

  lemma {:induction false} TagIsOfSeen(stored: Option<Data>, steps: seq<Step>)
    requires forall k :: 0 <= k < |steps| ==> !steps[k].Refresh?
    ensures TagOK(Run(New(stored), steps))
    decreases |steps|
  {
    if steps != [] {
      TagIsOfSeen(stored, steps[..|steps| - 1]);
      var w := Run(New(stored), steps[..|steps| - 1]);
      TagStep(w, steps[|steps| - 1]);
    }
  }

  lemma TagStep(w: World, step: Step)
    requires TagOK(w) && !step.Refresh?
    ensures TagOK(Next(w, step))
  {
  }

  /** Without refreshes, a clean object holds the entity together with the entity's own ETag. */
  lemma CleanHoldsOwnTag(stored: Option<Data>, steps: seq<Step>)
    requires forall k :: 0 <= k < |steps| ==> !steps[k].Refresh?
    ensures var s := Run(New(stored), steps).state; s.loaded && !s.modified ==> s.etag == Some(Digest(s.entity))
  {
    CleanMeansSynced(stored, steps);
    TagIsOfSeen(stored, steps);
  }

  // ----- what a save replaces -----

  /** The content whose ETag this is. */
  function Content(etag: Option<ETag>): Option<Data> {
    if etag.Some? && etag.value.Digest? then Some(etag.value.data) else None
  }

  /** A save that reaches the store takes effect exactly when the stored content is the one whose ETag the
      object held as the save began: nothing at all if it held none. */
  lemma PlainSaveAppliesIff(stored: Option<Data>, steps: seq<Step>, heard: bool, again: bool)
    requires var w := Run(New(stored), steps); w.flight.Saving? && w.flight.opts == Plain
    ensures var w := Run(New(stored), steps);
            var next := Next(w, Send(true, heard, again));
            && (next.log != w.log <==> w.stored == Content(w.flight.taken.etag))
            && (next.log != w.log ==> next.stored == Some(w.flight.taken.entity))
            && (next.log == w.log ==> next.stored == w.stored)
  {
    CleanMeansSynced(stored, steps);
    TakenTag(stored, steps);
  }

  lemma {:induction false} TakenTag(stored: Option<Data>, steps: seq<Step>)
    ensures var w := Run(New(stored), steps);
            w.flight.Saving? && w.flight.taken.etag.Some? ==> w.flight.taken.etag.value.Digest?
    decreases |steps|
  {
    if steps != [] {
      TakenTag(stored, steps[..|steps| - 1]);
      CleanMeansSynced(stored, steps[..|steps| - 1]);
    }
  }

  /** Every write a plain save ever makes replaces the content whose ETag was held; and that is the content
      this object last loaded or saved exactly when the held ETag is that content's. */
  ghost predicate WriteOK(write: Write) {
    write.opts == Plain ==>
      && write.before == Content(write.etag)
      && (write.before == write.seen <==> write.etag == TagOf(write.seen))
  }

  lemma {:induction false} PlainSavesReplaceTheHeld(stored: Option<Data>, steps: seq<Step>)
    ensures forall write :: write in Run(New(stored), steps).log ==> WriteOK(write)
    decreases |steps|
  {
    if steps != [] {
      var w, step := Run(New(stored), steps[..|steps| - 1]), steps[|steps| - 1];
      PlainSavesReplaceTheHeld(stored, steps[..|steps| - 1]);
      if step.Send? && w.flight.Saving? {
        CleanMeansSynced(stored, steps[..|steps| - 1]);
        TakenTag(stored, steps[..|steps| - 1]);
        WriteIsOK(w, step);
      }
    }
  }

  lemma WriteIsOK(w: World, step: Step)
    requires Inv(w) && step.Send? && w.flight.Saving?
    requires w.flight.taken.etag.Some? ==> w.flight.taken.etag.value.Digest?
    ensures forall write :: write in Next(w, step).log && write !in w.log ==> WriteOK(write)
  {
  }

  /** Without refreshes a plain save never replaces content this object has not loaded or saved last. */
  lemma {:induction false} PlainSavesReplaceTheSeen(stored: Option<Data>, steps: seq<Step>)
    requires forall k :: 0 <= k < |steps| ==> !steps[k].Refresh?
    ensures forall write :: write in Run(New(stored), steps).log && write.opts == Plain ==> write.before == write.seen
    decreases |steps|
  {
    if steps != [] {
      var w, step := Run(New(stored), steps[..|steps| - 1]), steps[|steps| - 1];
      PlainSavesReplaceTheSeen(stored, steps[..|steps| - 1]);
      TagIsOfSeen(stored, steps[..|steps| - 1]);
      PlainSavesReplaceTheHeld(stored, steps);
      assert step.Send? && w.flight.Saving? ==>
               forall write :: write in Run(New(stored), steps).log && write !in w.log ==>
                 write.etag == TagOf(write.seen);
    }
  }

  /** With a refresh it may: the refresh adopts the ETag of content that was never loaded, and the next save
      replaces that content. */
  lemma RefreshLosesAnUpdate(mine: Data, first: Data, theirs: Data)
    requires first != theirs
    ensures var steps := [BeginLoad, Fetch(false), EndLoad, Others(Some(theirs)), Refresh(theirs), Edit(mine),
                          BeginSave(Plain), Send(true, true, false)];
            var w := Run(New(Some(first)), steps);
            && w.stored == Some(mine)
            && |w.log| == 1 && w.log[0].before == Some(theirs) && w.log[0].seen == Some(first)
  {
    var steps := [BeginLoad, Fetch(false), EndLoad, Others(Some(theirs)), Refresh(theirs), Edit(mine),
                  BeginSave(Plain), Send(true, true, false)];
    var w0 := New(Some(first));
    var edited := ObjectState(mine, Some(Digest(theirs)), true, true, 2);
    var w5 := World(ObjectState(first, Some(Digest(theirs)), true, false, 1), Idle, Some(theirs), Some(first), []);
    var w8 := World(edited, Put(edited), Some(mine), Some(first),
                    [Write(Some(theirs), Some(mine), Some(Digest(theirs)), Some(first), Plain)]);
    FirstHalf(first, theirs);
    SecondHalf(w5, mine, theirs);
    hide Next;
    RunOfMany(w0, steps);
    assert steps[0] == BeginLoad && steps[1] == Fetch(false) && steps[2] == EndLoad && steps[3] == Others(Some(theirs));
    assert steps[4] == Refresh(theirs) && steps[5] == Edit(mine) && steps[6] == BeginSave(Plain);
    assert steps[7] == Send(true, true, false);
  }

  lemma FirstHalf(first: Data, theirs: Data)
    ensures var w := Next(Next(Next(New(Some(first)), BeginLoad), Fetch(false)), EndLoad);
            Next(Next(w, Others(Some(theirs))), Refresh(theirs)) ==
              World(ObjectState(first, Some(Digest(theirs)), true, false, 1), Idle, Some(theirs), Some(first), [])
  {
  }

  lemma SecondHalf(w: World, mine: Data, theirs: Data)
    requires w.flight.Idle? && w.state.etag == Some(Digest(theirs)) && w.stored == Some(theirs)
    ensures var edited := Edited(w.state, mine);
            Next(Next(Next(w, Edit(mine)), BeginSave(Plain)), Send(true, true, false)) ==
              World(edited, Put(edited), Some(mine), w.seen,
                    w.log + [Write(Some(theirs), Some(mine), Some(Digest(theirs)), w.seen, Plain)])
  {
  }

  lemma RunOfMany(w: World, s: seq<Step>)
    requires |s| == 8
    ensures Run(w, s) ==
              Next(Next(Next(Next(Next(Next(Next(Next(w, s[0]), s[1]), s[2]), s[3]), s[4]), s[5]), s[6]), s[7])
  {
    hide Next;
    assert s[..1][..0] == [] && s[..2][..1] == s[..1] && s[..3][..2] == s[..2] && s[..4][..3] == s[..3];
    assert s[..5][..4] == s[..4] && s[..6][..5] == s[..5] && s[..7][..6] == s[..6];
    assert Run(w, s[..1]) == Next(Run(w, s[..1][..0]), s[0]);
    assert Run(w, s[..2]) == Next(Run(w, s[..1]), s[1]);
    assert Run(w, s[..3]) == Next(Run(w, s[..2]), s[2]);
    assert Run(w, s[..4]) == Next(Run(w, s[..3]), s[3]);
    assert Run(w, s[..5]) == Next(Run(w, s[..4]), s[4]);
    assert Run(w, s[..6]) == Next(Run(w, s[..5]), s[5]);
    assert Run(w, s[..7]) == Next(Run(w, s[..6]), s[6]);
  }

  // ----- edits are not lost -----

  /** The operation in flight began before the last edit. */
  ghost predicate Outdated(w: World) {
    match w.flight
    case Idle => true
    case Loading(start) => start < w.state.revision
    case Fetched(start, _) => start < w.state.revision
    case Saving(taken, _, _) => taken.revision < w.state.revision
    case Put(taken) => taken.revision < w.state.revision
    case Deleting(start, _) => start < w.state.revision
    case Removed(start) => start < w.state.revision
  }

  predicate Begins(step: Step) {
    step.BeginLoad? || step.BeginSave? || step.BeginDelete?
  }

  lemma EditSurvivesStep(w: World, step: Step)
    requires Outdated(w) && w.state.modified && !Begins(step) && !step.Edit?
    ensures var w' := Next(w, step); Outdated(w') && w'.state.modified && w'.state.entity == w.state.entity
  {
  }

  lemma {:induction false} EditSurvivesRun(w: World, entity: Data, steps: seq<Step>)
    requires Outdated(w) && w.state.modified && w.state.entity == entity
    requires forall k :: 0 <= k < |steps| ==> !Begins(steps[k]) && !steps[k].Edit?
    ensures var w' := Run(w, steps); Outdated(w') && w'.state.modified && w'.state.entity == entity
    decreases |steps|
  {
    if steps != [] {
      EditSurvivesRun(w, entity, steps[..|steps| - 1]);
      EditSurvivesStep(Run(w, steps[..|steps| - 1]), steps[|steps| - 1]);
    }
  }

  /** An edit made while a Load, Save or Delete is in flight stays, and stays marked as modified, however
      that operation ends; only an operation that begins after the edit can save or discard it. */
  lemma EditsAreNotLost(stored: Option<Data>, before: seq<Step>, entity: Data, after: seq<Step>)
    requires forall k :: 0 <= k < |after| ==> !Begins(after[k]) && !after[k].Edit?
    ensures var w := Run(Next(Run(New(stored), before), Edit(entity)), after);
            w.state.modified && w.state.entity == entity
  {
    CleanMeansSynced(stored, before);
    EditSurvivesRun(Next(Run(New(stored), before), Edit(entity)), entity, after);
  }
}
