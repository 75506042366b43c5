/** What the refinement gives over whole runs of the file backend. */
module FileStoreTheorems {
  import opened Common
  import opened Conditions
  import opened MockStorages
  import opened FileStores
  import opened FileStoreRefinement

  /** Every logged answer is the one the atomic store gives when the logged requests reach it in log order. */
  ghost predicate Faithful(objects: Objects, log: seq<Event>) {
    forall k :: 0 <= k < |log| ==> log[k].answer == Atomic(Replay(objects, log[..k]), log[k].req).1
  }

  /** Any run, with any failures and crashes, leaves the directory exactly as serving the logged requests
      one at a time would, and those requests were all answered as the atomic store answers them. */
  lemma {:induction false} RunRefines(s: System, steps: seq<Step>)
    requires Fresh(s)
    ensures Inv(Run(s, steps))
    ensures Contents(Run(s, steps)) == Replay(Contents(s), Run(s, steps).log)
    ensures Faithful(Contents(s), Run(s, steps).log)
    decreases |steps|
  {
    if steps != [] {
      var before, step := Run(s, steps[..|steps| - 1]), steps[|steps| - 1];
      RunRefines(s, steps[..|steps| - 1]);
      StepRefines(before, step);
      ReplayStep(Contents(s), before, Next(before, step));
    }
  }

  lemma ReplayStep(objects: Objects, s: System, s': System)
    requires NamesOK(s) && NamesOK(s') && Refines(s, s')
    requires Contents(s) == Replay(objects, s.log) && Faithful(objects, s.log)
    ensures Contents(s') == Replay(objects, s'.log) && Faithful(objects, s'.log)
  {
    if s'.log != s.log {
      forall k | 0 <= k < |s'.log| ensures s'.log[k].answer == Atomic(Replay(objects, s'.log[..k]), s'.log[k].req).1 {
        if k < |s.log| {
          assert s'.log[..k] == s.log[..k];
          assert s'.log[k] == s.log[k];
        }
      }
    }
  }

  /** Each call takes effect at most once, while it runs, and with the answer it returns; only after an I/O
      error or a cancellation does its caller not know whether it did. */
  lemma {:induction false} EffectIsOnceAndInTime(s: System, steps: seq<Step>, id: nat)
    requires Fresh(s) && id in Run(s, steps).calls && Run(s, steps).calls[id].phase.Returned?
    ensures var t := Run(s, steps);
            var c := t.calls[id];
            && (forall k, l :: 0 <= k < |t.log| && 0 <= l < |t.log| && t.log[k].id == id && t.log[l].id == id ==>
                  k == l)
            && (c.at.None? ==> (forall k :: 0 <= k < |t.log| ==> t.log[k].id != id) && Inconclusive(c.phase.answer))
            && (c.at.Some? ==>
                  && c.began <= c.at.value < |t.log|
                  && t.log[c.at.value].id == id && t.log[c.at.value].req == c.req
                  && (t.log[c.at.value].answer == c.phase.answer || Inconclusive(c.phase.answer)))
  {
    RunRefines(s, steps);
    var t := Run(s, steps);
    assert CallOK(t, id, t.calls[id]);
  }

  // ----- the log agrees with real time -----

  /** The same call, further on; a call that has returned stays as it is. */
  predicate Later(c: Call, c': Call) {
    c'.req == c.req && c'.began == c.began && (c.phase.Returned? ==> c' == c)
  }

  /** Only call `id` moved, and not if it had returned. */
  ghost predicate OnlyMoves(s: System, s': System, id: nat)
    requires id in s.calls
  {
    id in s'.calls && s'.calls == s.calls[id := s'.calls[id]] && Later(s.calls[id], s'.calls[id])
  }

  lemma DecideIsLater(s: System, id: nat, staged: Option<Inode>, current: Option<Object>)
    requires id in s.calls && !s.calls[id].phase.Returned?
    ensures OnlyMoves(s, Decide(s, id, staged, current), id)
  {
  }

  lemma PublishIsLater(s: System, id: nat, staged: Option<Inode>)
    requires id in s.calls && !s.calls[id].phase.Returned?
    ensures OnlyMoves(s, Publish(s, id, staged), id)
  {
  }

  lemma AdvanceIsLater(s: System, id: nat)
    requires id in s.calls
    ensures OnlyMoves(s, Advance(s, id), id)
  {
    hide Decide, Publish, OnlyMoves;
    match s.calls[id].phase
    case Holding(staged) =>
      DecideIsLater(s, id, staged, None);
      GotoIsLater(s, id);
    case Reading(staged, source, got) =>
      DecideIsLater(s, id, staged, Some(Stored(got)));
      GotoIsLater(s, id);
    case Cleared(staged) => PublishIsLater(s, id, staged);
    case _ => GotoIsLater(s, id);
  }

  lemma GotoIsLater(s: System, id: nat)
    requires id in s.calls
    ensures OnlyMoves(s, s, id)
    ensures forall phase, grants :: !s.calls[id].phase.Returned? ==>
              OnlyMoves(s, Goto(s, id, phase).(grants := grants), id)
    ensures forall phase :: !s.calls[id].phase.Returned? ==> OnlyMoves(s, Goto(s, id, phase), id)
  {
  }

  lemma MoveIsLater(s: System, id: nat, luck: Luck)
    requires id in s.calls
    ensures OnlyMoves(s, Next(s, Move(id, luck)), id)
  {
    AdvanceIsLater(s, id);
    hide Advance;
  }

  lemma CallGrows(s: System, step: Step, id: nat)
    requires id in s.calls
    ensures id in Next(s, step).calls && Later(s.calls[id], Next(s, step).calls[id])
  {
    if step.Move? && step.id in s.calls {
      MoveIsLater(s, step.id, step.luck);
      hide Next;
    }
  }

  lemma CallBegins(s: System, step: Step, id: nat)
    requires id !in s.calls && id in Next(s, step).calls
    ensures Next(s, step).calls[id].began == |s.log|
  {
    if step.Move? && step.id in s.calls {
      MoveIsLater(s, step.id, step.luck);
      hide Next;
    }
  }

  lemma {:induction false} Since(s: System, steps: seq<Step>, n: nat, i: nat, j: nat)
    requires Fresh(s) && n <= |steps|
    requires var mid := Run(s, steps[..n]); i in mid.calls && mid.calls[i].phase.Returned? && j !in mid.calls
    ensures var mid, end := Run(s, steps[..n]), Run(s, steps);
            && i in end.calls && end.calls[i] == mid.calls[i]
            && |mid.log| <= |end.log|
            && (j in end.calls ==> |mid.log| <= end.calls[j].began)
    decreases |steps|
  {
    if n == |steps| {
      assert steps[..n] == steps;
    } else {
      var front, step := steps[..|steps| - 1], steps[|steps| - 1];
      assert front[..n] == steps[..n];
      Since(s, front, n, i, j);
      RunRefines(s, front);
      var before := Run(s, front);
      StepRefines(before, step);
      CallGrows(before, step, i);
      if j in before.calls {
        CallGrows(before, step, j);
      } else if j in Next(before, step).calls {
        CallBegins(before, step, j);
      }
    }
  }

  /** A call that has returned precedes, in the log too, every call that starts later. */
  lemma {:induction false} RealTimeOrder(s: System, steps: seq<Step>, n: nat, i: nat, j: nat)
    requires Fresh(s) && n <= |steps|
    requires var mid := Run(s, steps[..n]); i in mid.calls && mid.calls[i].phase.Returned? && j !in mid.calls
    requires var end := Run(s, steps);
             i in end.calls && j in end.calls && end.calls[i].at.Some? && end.calls[j].at.Some?
    ensures var end := Run(s, steps); end.calls[i].at.value < end.calls[j].at.value
  {
    Since(s, steps, n, i, j);
    RunRefines(s, steps);
    RunRefines(s, steps[..n]);
  }

  // ----- compare-and-swap and reads -----

  /** Only a put of content with this tag brings the tag back. */
  lemma {:induction false} TagStaysAway(objects: Objects, log: seq<Event>, i: nat, j: nat, uri: string, etag: ETag)
    requires i <= j <= |log|
    requires CurrentETag(Replay(objects, log[..i]), uri) != Some(etag)
    requires forall k :: i <= k < j && log[k].req.PutReq? && log[k].req.uri == uri ==> Digest(log[k].req.data) != etag
    ensures CurrentETag(Replay(objects, log[..j]), uri) != Some(etag)
    decreases j
  {
    if i < j {
      TagStaysAway(objects, log, i, j - 1, uri, etag);
      assert log[..j][..j - 1] == log[..j - 1];
    }
  }

  /** Of the writers that race on one ETag with new content, at most one is told that it won. */
  lemma OneWinner(s: System, steps: seq<Step>, uri: string, etag: ETag, i: nat, j: nat)
    requires Fresh(s)
    requires var t := Run(s, steps);
             forall id :: id in t.calls && t.calls[id].req.PutReq? && t.calls[id].req.uri == uri ==>
               Digest(t.calls[id].req.data) != etag
    requires Won(Run(s, steps), i, uri, etag) && Won(Run(s, steps), j, uri, etag)
    ensures i == j
  {
    hide Run;
    var t := Run(s, steps);
    RunRefines(s, steps);
    WinnerTook(t, i, uri, etag);
    WinnerTook(t, j, uri, etag);
    LoggedRequests(t);
    hide Inv, Contents, Faithful, Replay, Won;
    OneWriteWins(Contents(s), t.log, t.calls[i].at.value, t.calls[j].at.value, uri, etag);
  }

  lemma OneWriteWins(objects: Objects, log: seq<Event>, k: nat, l: nat, uri: string, etag: ETag)
    requires Faithful(objects, log) && k < |log| && l < |log|
    requires forall n :: 0 <= n < |log| && log[n].req.PutReq? && log[n].req.uri == uri ==>
               Digest(log[n].req.data) != etag
    requires Wins(log[k], uri, etag) && Wins(log[l], uri, etag)
    ensures k == l
  {
    if k < l {
      SecondLoses(objects, log, k, l, uri, etag);
    } else if l < k {
      SecondLoses(objects, log, l, k, uri, etag);
    }
  }

  /** A logged put that passed its condition on the tag. */
  predicate Wins(e: Event, uri: string, etag: ETag) {
    e.req.PutReq? && e.req.uri == uri && e.req.conds.ifMatch == Tag(etag) && e.answer.Tagged?
  }

  /** The call was a put on condition that the object still carries the tag, and returned success. */
  ghost predicate Won(s: System, id: nat, uri: string, etag: ETag) {
    && id in s.calls && s.calls[id].phase.Returned? && s.calls[id].phase.answer.Tagged?
    && s.calls[id].req.PutReq? && s.calls[id].req.uri == uri && s.calls[id].req.conds.ifMatch == Tag(etag)
  }

  lemma WinnerTook(s: System, id: nat, uri: string, etag: ETag)
    requires Inv(s) && Won(s, id, uri, etag)
    ensures var at := s.calls[id].at;
            at.Some? && at.value < |s.log| && s.log[at.value].id == id && Wins(s.log[at.value], uri, etag)
  {
    assert CallOK(s, id, s.calls[id]);
  }

  lemma LoggedRequests(s: System)
    requires Inv(s)
    ensures forall k :: 0 <= k < |s.log| ==> s.log[k].id in s.calls && s.calls[s.log[k].id].req == s.log[k].req
  {
  }

  lemma SecondLoses(objects: Objects, log: seq<Event>, k: nat, l: nat, uri: string, etag: ETag)
    requires k < l < |log| && Faithful(objects, log)
    requires forall n :: 0 <= n < |log| && log[n].req.PutReq? && log[n].req.uri == uri ==>
               Digest(log[n].req.data) != etag
    requires log[k].req.PutReq? && log[k].req.uri == uri && log[k].answer.Tagged?
    requires log[l].req.PutReq? && log[l].req.uri == uri && log[l].req.conds.ifMatch == Tag(etag)
    ensures !log[l].answer.Tagged?
  {
    assert log[..k + 1][..k] == log[..k];
    assert CurrentETag(Replay(objects, log[..k + 1]), uri) == Some(Digest(log[k].req.data));
    TagStaysAway(objects, log, k + 1, l, uri, etag);
  }

  /** What exists goes on existing until it is deleted. */
  lemma {:induction false} ExistsUntilDeleted(objects: Objects, log: seq<Event>, i: nat, j: nat, uri: string)
    requires i <= j <= |log| && uri in Replay(objects, log[..i])
    requires forall k :: i <= k < j ==> !(log[k].req.DeleteReq? && log[k].req.uri == uri)
    ensures uri in Replay(objects, log[..j])
    decreases j
  {
    if i < j {
      ExistsUntilDeleted(objects, log, i, j - 1, uri);
      assert log[..j][..j - 1] == log[..j - 1];
    }
  }

  /** The call was a put on condition that nothing is there yet, and returned success. */
  ghost predicate Created(s: System, id: nat, uri: string) {
    && id in s.calls && s.calls[id].phase.Returned? && s.calls[id].phase.answer.Tagged?
    && s.calls[id].req.PutReq? && s.calls[id].req.uri == uri && WantsIfNoneMatchStar(s.calls[id].req.conds)
  }

  lemma SecondCreatorLoses(objects: Objects, log: seq<Event>, k: nat, l: nat, uri: string)
    requires k < l < |log| && Faithful(objects, log)
    requires forall n :: 0 <= n < |log| ==> !(log[n].req.DeleteReq? && log[n].req.uri == uri)
    requires log[k].req.PutReq? && log[k].req.uri == uri && log[k].answer.Tagged?
    requires log[l].req.PutReq? && log[l].req.uri == uri && WantsIfNoneMatchStar(log[l].req.conds)
    ensures !log[l].answer.Tagged?
  {
    assert log[..k + 1][..k] == log[..k];
    ExistsUntilDeleted(objects, log, k + 1, l, uri);
  }

  lemma CreatorTook(s: System, id: nat, uri: string)
    requires Inv(s) && Created(s, id, uri)
    ensures var at := s.calls[id].at;
            at.Some? && at.value < |s.log| && s.log[at.value].id == id && Creates(s.log[at.value], uri)
  {
    assert CallOK(s, id, s.calls[id]);
  }

  /** Of the writers that race to create an object nobody deletes, at most one is told that it did. */
  lemma OneCreator(s: System, steps: seq<Step>, uri: string, i: nat, j: nat)
    requires Fresh(s)
    requires forall id :: id in Run(s, steps).calls ==>
               !(Run(s, steps).calls[id].req.DeleteReq? && Run(s, steps).calls[id].req.uri == uri)
    requires Created(Run(s, steps), i, uri) && Created(Run(s, steps), j, uri)
    ensures i == j
  {
    hide Run;
    var t := Run(s, steps);
    RunRefines(s, steps);
    CreatorTook(t, i, uri);
    CreatorTook(t, j, uri);
    LoggedRequests(t);
    hide Inv, Contents, Faithful, Replay, Created;
    OneWriteCreates(Contents(s), t.log, t.calls[i].at.value, t.calls[j].at.value, uri);
  }

  lemma OneWriteCreates(objects: Objects, log: seq<Event>, k: nat, l: nat, uri: string)
    requires Faithful(objects, log) && k < |log| && l < |log|
    requires forall n :: 0 <= n < |log| ==> !(log[n].req.DeleteReq? && log[n].req.uri == uri)
    requires Creates(log[k], uri) && Creates(log[l], uri)
    ensures k == l
  {
    if k < l {
      SecondCreatorLoses(objects, log, k, l, uri);
    } else if l < k {
      SecondCreatorLoses(objects, log, l, k, uri);
    }
  }

  /** A logged put that passed its condition that nothing be there. */
  predicate Creates(e: Event, uri: string) {
    e.req.PutReq? && e.req.uri == uri && WantsIfNoneMatchStar(e.req.conds) && e.answer.Tagged?
  }

  /** What is stored is what was there at first or the whole content of one put. */
  lemma {:induction false} StoredWasPut(objects: Objects, log: seq<Event>, uri: string) returns (k: Option<nat>)
    requires Faithful(objects, log) && uri in Replay(objects, log)
    ensures k.None? ==> uri in objects && Replay(objects, log)[uri] == objects[uri]
    ensures k.Some? ==>
              && k.value < |log| && log[k.value].req.PutReq? && log[k.value].req.uri == uri
              && log[k.value].answer == Tagged(Digest(log[k.value].req.data))
              && Replay(objects, log)[uri] == Stored(log[k.value].req.data)
    decreases |log|
  {
    if log == [] {
      return None;
    }
    var n := |log| - 1;
    var before := Replay(objects, log[..n]);
    if log[n].req.PutReq? && log[n].req.uri == uri && PutTo(before, uri, log[n].req.data, log[n].req.conds).Ok? {
      return Some(n);
    }
    assert uri in before && Replay(objects, log)[uri] == before[uri];
    forall m | 0 <= m < n ensures log[..n][..m] == log[..m] && log[..n][m] == log[m] {
    }
    k := StoredWasPut(objects, log[..n], uri);
  }

  lemma ReadGetsOnePut(objects: Objects, log: seq<Event>, at: nat) returns (writer: Option<nat>)
    requires at < |log| && Faithful(objects, log) && log[at].req.GetReq? && log[at].answer.Found?
    ensures var uri, got := log[at].req.uri, log[at].answer.found;
            && (writer.None? ==> uri in objects && got == objects[uri])
            && (writer.Some? ==>
                  && writer.value < at && log[writer.value].req.PutReq? && log[writer.value].req.uri == uri
                  && got == Stored(log[writer.value].req.data))
  {
    forall k | 0 <= k < at ensures log[..at][..k] == log[..k] && log[..at][k] == log[k] {
    }
    writer := StoredWasPut(objects, log[..at], log[at].req.uri);
  }

  /** A reader gets the initial object or the whole content of a single put that had taken effect before,
      always with the ETag of exactly that content. */
  lemma ReadersSeeWholeWrites(s: System, steps: seq<Step>, id: nat) returns (writer: Option<nat>)
    requires Fresh(s) && id in Run(s, steps).calls
    requires Run(s, steps).calls[id].req.GetReq?
    requires Run(s, steps).calls[id].phase.Returned? && Run(s, steps).calls[id].phase.answer.Found?
    ensures var got := Run(s, steps).calls[id].phase.answer.found;
            && got.etag == Digest(got.data)
            && CameFrom(Contents(s), Run(s, steps), id, got, writer)
  {
    hide Run;
    RunRefines(s, steps);
    writer := ReaderSeesWholeWrite(Contents(s), Run(s, steps), id);
    hide Inv, CameFrom, Faithful;
    InitialAreStored(s);
  }

  /** What call `id` read is the initial object, or the content of the put `writer`, which took effect before. */
  ghost predicate CameFrom(objects: Objects, s: System, id: nat, got: Object, writer: Option<nat>)
    requires id in s.calls
  {
    var uri := s.calls[id].req.uri;
    match writer
    case None => uri in objects && got == objects[uri]
    case Some(w) =>
      && w in s.calls && s.calls[w].req.PutReq? && s.calls[w].req.uri == uri
      && got == Stored(s.calls[w].req.data)
      && s.calls[w].at.Some? && s.calls[id].at.Some? && s.calls[w].at.value < s.calls[id].at.value
  }

  lemma InitialAreStored(s: System)
    requires NamesOK(s)
    ensures forall uri :: uri in Contents(s) ==> Contents(s)[uri].etag == Digest(Contents(s)[uri].data)
  {
  }

  lemma ReaderSeesWholeWrite(objects: Objects, s: System, id: nat) returns (writer: Option<nat>)
    requires Inv(s) && Faithful(objects, s.log) && id in s.calls && s.calls[id].req.GetReq?
    requires s.calls[id].phase.Returned? && s.calls[id].phase.answer.Found?
    ensures CameFrom(objects, s, id, s.calls[id].phase.answer.found, writer)
    ensures writer.Some? ==> s.calls[id].phase.answer.found.etag == Digest(s.calls[id].phase.answer.found.data)
    ensures writer.None? ==>
              s.calls[id].req.uri in objects && s.calls[id].phase.answer.found == objects[s.calls[id].req.uri]
  {
    assert CallOK(s, id, s.calls[id]);
    hide CallOK, ExclusionOK, Faithful;
    var k := ReadGetsOnePut(objects, s.log, s.calls[id].at.value);
    writer := if k.Some? then Some(s.log[k.value].id) else None;
  }

  /** A lock dies with its holder: a waiting call gets its lock at its next attempt if every other call on
      the path that has begun its critical section has returned or crashed. */
  lemma DeadHoldersBlockNobody(s: System, steps: seq<Step>, id: nat)
    requires Fresh(s) && id in Run(s, steps).calls && Run(s, steps).calls[id].phase.Waiting?
    requires var t := Run(s, steps);
             forall j :: j in t.calls && t.calls[j].req.uri == t.calls[id].req.uri && UnderLock(t.calls[j].phase) ==>
               !Writes(t.calls[j].req) && !Writes(t.calls[id].req)
    ensures Next(Run(s, steps), Move(id, Proceed)).calls[id].phase.Holding?
  {
    hide Run;
    RunRefines(s, steps);
    var t := Run(s, steps);
    assert CallOK(t, id, t.calls[id]);
    forall j | j in t.grants && t.grants[j].uri == t.calls[id].req.uri
      ensures !Writes(t.calls[id].req) && !t.grants[j].exclusive
    {
      assert CallOK(t, j, t.calls[j]);
    }
  }
}
