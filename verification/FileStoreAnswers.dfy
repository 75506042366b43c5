/** What the answers of the file backend mean in every run, told without the functions that compute them. */
module FileStoreAnswers {
  import opened Common
  import opened Conditions
  import opened MockStorages
  import opened StorageLaws
  import opened FileStores
  import opened FileStoreRefinement
  import opened FileStoreTheorems

  /** Answering `answer` and leaving `after` is right for the request on these objects. */
  ghost predicate Right(before: Objects, req: Request, answer: Answer, after: Objects) {
    var current := if req.uri in before then Some(before[req.uri].etag) else None;
    match req
    case GetReq(uri, conds) =>
      && after == before
      && if uri !in before then answer == Failed(NotFound)
         else if conds.ifMatch.Tag? && conds.ifMatch.etag != before[uri].etag then answer == Failed(PreconditionFailed)
         else if conds.ifNoMatch.Tag? && conds.ifNoMatch.etag == before[uri].etag then answer == Failed(NotModified)
         else answer == Found(before[uri])
    case HeadReq(uri) =>
      after == before && answer == if uri in before then Tagged(before[uri].etag) else Failed(NotFound)
    case PutReq(uri, data, conds) =>
      if MatchHolds(current, conds.ifMatch) && NoneMatchHolds(current, conds.ifNoMatch)
      then answer == Tagged(Digest(data)) && after == before[uri := Object(data, Digest(data))]
      else answer == Failed(PreconditionFailed) && after == before
    case DeleteReq(uri, conds) =>
      if !MatchHolds(current, conds.ifMatch) then answer == Failed(PreconditionFailed) && after == before
      else if uri !in before then answer == Failed(NotFound) && after == before
      else answer == Gone && after == before - {uri}
  }

  lemma AtomicIsRight(objects: Objects, req: Request)
    ensures var (after, answer) := Atomic(objects, req); Right(objects, req, answer, after)
  {
    match req
    case GetReq(uri, conds) => GetMeans(objects, uri, conds);
    case HeadReq(uri) => GetMeans(objects, uri, Unconditional);
    case PutReq(uri, data, conds) => PutMeans(objects, uri, data, conds);
    case DeleteReq(uri, conds) => DeleteMeans(objects, uri, conds);
  }

  /** The objects at the moment a call took effect, and after it. */
  ghost function Before(s: System, steps: seq<Step>, id: nat): Objects
    requires Fresh(s) && id in Run(s, steps).calls && Run(s, steps).calls[id].at.Some?
  {
    var t := Run(s, steps);
    Replay(Contents(s), t.log[..Min(t.calls[id].at.value, |t.log|)])
  }

  ghost function After(s: System, steps: seq<Step>, id: nat): Objects
    requires Fresh(s) && id in Run(s, steps).calls && Run(s, steps).calls[id].at.Some?
  {
    var t := Run(s, steps);
    Replay(Contents(s), t.log[..Min(t.calls[id].at.value + 1, |t.log|)])
  }

  lemma LoggedIsRight(objects: Objects, log: seq<Event>, k: nat)
    requires Faithful(objects, log) && k < |log|
    ensures Right(Replay(objects, log[..k]), log[k].req, log[k].answer, Replay(objects, log[..k + 1]))
  {
    assert log[..k + 1][..k] == log[..k];
    AtomicIsRight(Replay(objects, log[..k]), log[k].req);
  }

  /** In every run of the file backend, a call that returns a conclusive answer took effect, and answered and
      changed what is right for the objects there were at that moment. */
  lemma {:induction false} AnswersAreRight(s: System, steps: seq<Step>, id: nat)
    requires Fresh(s) && id in Run(s, steps).calls && Run(s, steps).calls[id].phase.Returned?
    requires !Inconclusive(Run(s, steps).calls[id].phase.answer)
    ensures Run(s, steps).calls[id].at.Some?
    ensures var c := Run(s, steps).calls[id];
            Right(Before(s, steps, id), c.req, c.phase.answer, After(s, steps, id))
  {
    hide Run, Right;
    RunRefines(s, steps);
    EffectIsOnceAndInTime(s, steps, id);
    var t := Run(s, steps);
    LoggedIsRight(Contents(s), t.log, t.calls[id].at.value);
  }

  /** A read under If-None-Match never returns an object that carries the tag, and answers NotModified only if the
      object carries it. */
  lemma {:induction false} NotModifiedOnMatch(s: System, steps: seq<Step>, id: nat, etag: ETag)
    requires Fresh(s) && id in Run(s, steps).calls && Run(s, steps).calls[id].phase.Returned?
    requires var req := Run(s, steps).calls[id].req; req.GetReq? && req.conds.ifNoMatch == Tag(etag)
    ensures var c := Run(s, steps).calls[id];
            && (c.phase.answer.Found? ==> c.phase.answer.found.etag != etag)
            && (c.phase.answer == Failed(NotModified) ==>
                  c.at.Some? && c.req.uri in Before(s, steps, id) && Before(s, steps, id)[c.req.uri].etag == etag)
  {
    hide Run, Before, After;
    if !Inconclusive(Run(s, steps).calls[id].phase.answer) {
      AnswersAreRight(s, steps, id);
    }
  }
}
