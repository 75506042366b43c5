/** What a Load, a Save and a Delete of an Object come to from beginning to end, whatever is edited, refreshed
    and written by others in between. */
module ObjectFlights {
  import opened Common
  import opened Conditions
  import opened ObjectSync

  /** The entity of the last of these edits, if there is one. */
  function LastEdit(steps: seq<Step>): Option<Data>
    decreases |steps|
  {
    if steps == [] then None
    else if steps[|steps| - 1].Edit? then Some(steps[|steps| - 1].entity)
    else LastEdit(steps[..|steps| - 1])
  }

  ghost predicate NothingBegins(steps: seq<Step>) {
    forall k :: 0 <= k < |steps| ==> !Begins(steps[k])
  }

  /** The one operation is still the other, perhaps further on. */
  predicate Continues(f: Flight, f': Flight) {
    match f
    case Idle => f' == Idle
    case Loading(start) => f' == f || (f'.Fetched? && f'.start == start)
    case Fetched(_, _) => f' == f
    case Saving(taken, _, _) => f' == f || f' == Put(taken)
    case Put(_) => f' == f
    case Deleting(start, _) => f' == f || f' == Removed(start)
    case Removed(_) => f' == f
  }

  /** A step that is no beginning ends the operation in flight or carries it on, and while it goes on only edits
      touch entity and revision. */
  lemma StepInFlight(w: World, step: Step)
    requires !Begins(step)
    ensures var w' := Next(w, step);
            w'.flight != Idle ==>
              && w.flight != Idle
              && Continues(w.flight, w'.flight)
              && (if step.Edit? then w'.state.entity == step.entity && w'.state.modified
                  else w'.state.entity == w.state.entity && (w.state.modified ==> w'.state.modified))
              && w'.state.revision == w.state.revision + if step.Edit? then 1 else 0
  {
  }

  /** While an operation is in flight the revision moves exactly if something is edited. */
  lemma {:induction false} RevisionCountsEdits(w: World, mid: seq<Step>)
    requires NothingBegins(mid) && Run(w, mid).flight != Idle
    ensures var w' := Run(w, mid);
            && w.flight != Idle
            && Continues(w.flight, w'.flight)
            && w'.state.revision >= w.state.revision
            && (w'.state.revision == w.state.revision <==> LastEdit(mid).None?)
            && w'.state.entity == (if LastEdit(mid).Some? then LastEdit(mid).value else w.state.entity)
            && (LastEdit(mid).Some? ==> w'.state.modified)
    decreases |mid|
  {
    if mid != [] {
      var front, last := mid[..|mid| - 1], mid[|mid| - 1];
      hide Next;
      StepInFlight(Run(w, front), last);
      RevisionCountsEdits(w, front);
    }
  }

  // ----- loading -----

  /** The step that fetched the content, and what was stored then. */
  lemma {:induction false} ContentWasStored(w: World, mid: seq<Step>) returns (k: nat)
    requires NothingBegins(mid) && w.flight.Loading? && Run(w, mid).flight.Fetched?
    ensures k < |mid| && mid[k] == Fetch(false) && Run(w, mid[..k]).stored == Some(Run(w, mid).flight.data)
    decreases |mid|
  {
    if mid == [] {
      assert false;
    }
    var front, last := mid[..|mid| - 1], mid[|mid| - 1];
    StepInFlight(Run(w, front), last);
    RevisionCountsEdits(w, front);
    if Run(w, front).flight.Fetched? {
      k := ContentWasStored(w, front);
      assert mid[..k] == front[..k];
    } else {
      k := |mid| - 1;
    }
  }

  /** A load that ends adopts what was stored when it fetched, and its ETag, if nothing was edited since it began;
      else it leaves the last edit as it is, marked as modified. */
  lemma {:induction false} LoadEnds(before: World, mid: seq<Step>) returns (k: nat)
    requires before.flight == Idle && NothingBegins(mid) && Run(Next(before, BeginLoad), mid).flight.Fetched?
    ensures k < |mid| && mid[k] == Fetch(false)
    ensures var begun := Next(before, BeginLoad);
            var w := Run(begun, mid);
            var end, content := Next(w, EndLoad), Run(begun, mid[..k]).stored;
            && end.flight == Idle
            && match LastEdit(mid)
               case None =>
                 && content == Some(end.state.entity)
                 && end.state.etag == Some(Digest(end.state.entity))
                 && end.state.loaded && !end.state.modified
               case Some(entity) => end.state == w.state && end.state.entity == entity && end.state.modified
  {
    var begun := Next(before, BeginLoad);
    RevisionCountsEdits(begun, mid);
    k := ContentWasStored(begun, mid);
    hide Run;
  }

  // ----- saving -----

  /** There is something to save exactly if the object is modified, or the save is forced or has conditions of its
      own; what is saved is the state as it is then. */
  lemma SaveBeginsIff(w: World, opts: SaveOptions)
    requires w.flight == Idle
    ensures var w' := Next(w, BeginSave(opts));
            if w.state.modified || opts.force || opts.conds != Unconditional then
              w'.flight.Saving? && w'.flight.taken == w.state && w' == w.(flight := w'.flight)
            else w' == w
  {
  }

  /** What a save asks of the stored object: its own conditions if it is forced or has any, and else that the
      object be the one, or the absence, whose ETag was held when the save began. */
  predicate Demands(s: ObjectState, opts: SaveOptions, current: Option<ETag>) {
    if opts.force || opts.conds != Unconditional
    then MatchHolds(current, opts.conds.ifMatch) && NoneMatchHolds(current, opts.conds.ifNoMatch)
    else current == s.etag
  }

  lemma DemandsMeans(s: ObjectState, opts: SaveOptions, current: Option<ETag>)
    requires SaveConditions(s, opts).Some?
    ensures ApplyConditionalPut(current, SaveConditions(s, opts).value).None? <==> Demands(s, opts, current)
  {
    ConditionsMeaning(current, SaveConditions(s, opts).value);
  }

  /** A put of a save that reaches the store takes effect exactly if what the save demands holds of the object by
      then; one that does not reach it changes nothing. A heard refusal ends the save. */
  lemma {:induction false} SaveAppliesIff(before: World, opts: SaveOptions, mid: seq<Step>, reaches: bool, heard: bool,
                                          again: bool)
    requires before.flight == Idle && NothingBegins(mid) && Run(Next(before, BeginSave(opts)), mid).flight.Saving?
    ensures var w := Run(Next(before, BeginSave(opts)), mid);
            var next := Next(w, Send(reaches, heard, again));
            && (if reaches && Demands(before.state, opts, TagOf(w.stored)) then
                  next.stored == Some(before.state.entity) && (heard ==> next.flight == Put(before.state))
                else next.stored == w.stored && (heard && reaches ==> next.flight == Idle))
            && next.state == w.state
  {
    var begun := Next(before, BeginSave(opts));
    RevisionCountsEdits(begun, mid);
    SaveBeginsIff(before, opts);
    DemandsMeans(before.state, opts, TagOf(Run(begun, mid).stored));
    hide Run, SaveConditions, ApplyConditionalPut, Demands;
  }

  /** A save past its put has put what it took. */
  lemma {:induction false} PutWasSent(w: World, mid: seq<Step>) returns (k: nat)
    requires NothingBegins(mid) && w.flight.Saving? && Run(w, mid).flight.Put?
    ensures k < |mid| && mid[k].Send? && Run(w, mid[..k + 1]).stored == Some(w.flight.taken.entity)
    decreases |mid|
  {
    if mid == [] {
      assert false;
    }
    var front, last := mid[..|mid| - 1], mid[|mid| - 1];
    StepInFlight(Run(w, front), last);
    RevisionCountsEdits(w, front);
    if Run(w, front).flight.Put? {
      k := PutWasSent(w, front);
      assert mid[..k + 1] == front[..k + 1];
    } else {
      k := |mid| - 1;
      assert mid[..k + 1] == mid;
    }
  }

  /** A save that ends has stored the entity as it was when the save began and holds its ETag; the object is
      unmodified exactly if nothing was edited since, and its entity is the last edit's if something was. */
  lemma {:induction false} SaveEnds(before: World, opts: SaveOptions, mid: seq<Step>) returns (k: nat)
    requires before.flight == Idle && NothingBegins(mid) && Run(Next(before, BeginSave(opts)), mid).flight.Put?
    ensures k < |mid| && mid[k].Send?
    ensures var begun := Next(before, BeginSave(opts));
            var end := Next(Run(begun, mid), EndSave);
            && end.flight == Idle
            && Run(begun, mid[..k + 1]).stored == Some(before.state.entity)
            && end.state.etag == Some(Digest(before.state.entity))
            && end.state.loaded
            && (end.state.modified <==> LastEdit(mid).Some?)
            && end.state.entity == (if LastEdit(mid).Some? then LastEdit(mid).value else before.state.entity)
  {
    var begun := Next(before, BeginSave(opts));
    RevisionCountsEdits(begun, mid);
    SaveBeginsIff(before, opts);
    k := PutWasSent(begun, mid);
    hide Run;
  }

  // ----- deleting -----

  /** A delete that reaches the store removes the object exactly if it is there and If-Match holds of it. */
  lemma {:induction false} DeleteAppliesIff(before: World, conds: Conditions, mid: seq<Step>, reaches: bool,
                                            heard: bool, again: bool)
    requires before.flight == Idle && NothingBegins(mid) && Run(Next(before, BeginDelete(conds)), mid).flight.Deleting?
    ensures var w := Run(Next(before, BeginDelete(conds)), mid);
            var next := Next(w, SendDelete(reaches, heard, again));
            && next.state == w.state
            && next.stored == (if reaches && MatchHolds(TagOf(w.stored), conds.ifMatch) then None else w.stored)
            && (reaches && heard ==> (next.flight.Removed? <==> next.stored != w.stored))
  {
    var begun := Next(before, BeginDelete(conds));
    RevisionCountsEdits(begun, mid);
    ConditionsMeaning(TagOf(Run(begun, mid).stored), conds);
    hide Run, ApplyConditionalDelete, MatchHolds;
  }

  /** A delete that ends leaves an object that knows nothing, if nothing was edited since it began; else the last
      edit, marked as modified, with no ETag, so that the next save creates the object anew. */
  lemma {:induction false} DeleteEnds(before: World, conds: Conditions, mid: seq<Step>)
    requires before.flight == Idle && NothingBegins(mid) && Run(Next(before, BeginDelete(conds)), mid).flight.Removed?
    ensures var end := Next(Run(Next(before, BeginDelete(conds)), mid), EndDelete);
            && end.flight == Idle
            && end.state.etag == None && !end.state.loaded
            && (end.state.modified <==> LastEdit(mid).Some?)
            && end.state.entity == (if LastEdit(mid).Some? then LastEdit(mid).value else "")
            && (forall current :: LastEdit(mid).Some? ==> (Demands(end.state, Plain, current) <==> current == None))
  {
    var begun := Next(before, BeginDelete(conds));
    RevisionCountsEdits(begun, mid);
    hide Run;
  }
}
