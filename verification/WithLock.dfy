/** WithLock past Acquire: the callback, the renewal goroutine and whoever cancels the context, under
    every schedule. */
module WithLock {
  import opened Common

  /** An error value; `cancellation` says whether it is, or wraps, context.Canceled. */
  datatype Failure = Failure(text: string, cancellation: bool)

  /** The calling goroutine: in the callback, past it, past close(stopRenew), past receiving the
      renewer's result, inside Release, returned. */
  datatype Caller =
    | Working
    | Returned
    | Awaiting
    | Received
    | Releasing
    | Finished(errs: seq<Failure>)

  /** The renewal goroutine: at its select, inside Renew, about to report, gone. */
  datatype Renewer = Selecting | Renewing | Reporting(result: Option<Failure>) | Gone

  datatype State = State(
    caller: Caller,
    renewer: Renewer,
    stopRenew: bool,
    workDone: Option<Failure>,
    renewDone: Option<Option<Failure>>,
    fnErr: Option<Failure>,
    renewErr: Option<Failure>,
    releaseErr: Option<Failure>,
    renewFailure: Option<Failure>,
    releases: nat,
    reports: nat)

  datatype Step =
    | CallbackReturns(err: Option<Failure>)
    | CloseStop
    | ContextEnds(cause: Failure)
    | Tick
    | RenewReturns(err: Option<Failure>)
    | SeeStop
    | SeeDone
    | Report
    | Receive
    | CallRelease
    | ReleaseReturns(err: Option<Failure>)

  const Start := State(Working, Selecting, false, None, None, None, None, None, None, 0, 0)

  const Canceled := Failure("context canceled", true)

  predicate Enabled(s: State, step: Step) {
    match step
    case CallbackReturns(_) => s.caller.Working?
    case CloseStop => s.caller.Returned?
    case ContextEnds(_) => s.workDone.None?
    case Tick => s.renewer.Selecting?
    case RenewReturns(_) => s.renewer.Renewing?
    case SeeStop => s.renewer.Selecting? && s.stopRenew
    case SeeDone => s.renewer.Selecting? && s.workDone.Some?
    case Report => s.renewer.Reporting? && s.renewDone.None?
    case Receive => s.caller.Awaiting? && s.renewDone.Some?
    case CallRelease => s.caller.Received?
    case ReleaseReturns(_) => s.caller.Releasing?
  }

  /** cancel(): the first cause of a context's end stays. */
  function Cancel(s: State): State {
    if s.workDone.None? then s.(workDone := Some(Canceled)) else s
  }

  function Listed(err: Option<Failure>): seq<Failure> {
    if err.Some? then [err.value] else []
  }

  /** errors.Join of the three errors, the renewal's dropped if it is a mere cancellation and the
      callback failed too. */
  function Joined(fnErr: Option<Failure>, renewErr: Option<Failure>, releaseErr: Option<Failure>): seq<Failure> {
    var kept := if renewErr.Some? && renewErr.value.cancellation && fnErr.Some? then None else renewErr;
    Listed(fnErr) + Listed(kept) + Listed(releaseErr)
  }

  function Apply(s: State, step: Step): State
    requires Enabled(s, step)
  {
    match step
    case CallbackReturns(err) => s.(caller := Returned, fnErr := err)
    case CloseStop => s.(caller := Awaiting, stopRenew := true)
    case ContextEnds(cause) => s.(workDone := Some(cause))
    case Tick => s.(renewer := Renewing)
    case RenewReturns(None) => s.(renewer := Selecting)
    case RenewReturns(Some(err)) => Cancel(s).(renewer := Reporting(Some(err)), renewFailure := Some(err))
    case SeeStop => s.(renewer := Reporting(None))
    case SeeDone => s.(renewer := Reporting(s.workDone))
    case Report => s.(renewer := Gone, renewDone := Some(s.renewer.result), reports := s.reports + 1)
    case Receive => Cancel(s).(caller := Received, renewErr := s.renewDone.value, renewDone := None)
    case CallRelease => s.(caller := Releasing, releases := s.releases + 1)
    case ReleaseReturns(err) => s.(caller := Finished(Joined(s.fnErr, s.renewErr, err)), releaseErr := err)
  }

  ghost predicate Run(tr: seq<State>, steps: seq<Step>) {
    && |tr| == |steps| + 1
    && tr[0] == Start
    && forall i :: 0 <= i < |steps| ==> Enabled(tr[i], steps[i]) && tr[i + 1] == Apply(tr[i], steps[i])
  }

  predicate PastReceive(s: State) {
    s.caller.Received? || s.caller.Releasing? || s.caller.Finished?
  }

  predicate Inv(s: State) {
    && s.releases == (if s.caller.Releasing? || s.caller.Finished? then 1 else 0)
    && s.reports == (if s.renewer.Gone? then 1 else 0)
    && (s.renewer.Gone? ==> s.renewDone.Some? || PastReceive(s))
    && (s.renewDone.Some? ==> s.renewer.Gone? && !PastReceive(s))
    && (PastReceive(s) ==> s.renewer.Gone?)
    && (s.stopRenew <==> s.caller.Awaiting? || PastReceive(s))
    && (s.renewFailure.Some? ==>
          match s.renewer
          case Reporting(result) => result == s.renewFailure
          case Gone => if PastReceive(s) then s.renewErr == s.renewFailure else s.renewDone == Some(s.renewFailure)
          case _ => false)
    && (s.caller.Finished? ==> s.caller.errs == Joined(s.fnErr, s.renewErr, s.releaseErr))
  }

  lemma {:induction false} RunKeepsInv(tr: seq<State>, steps: seq<Step>, i: nat)
    requires Run(tr, steps) && i < |tr|
    ensures Inv(tr[i])
  {
    if i > 0 {
      RunKeepsInv(tr, steps, i - 1);
      assert Enabled(tr[i - 1], steps[i - 1]) && tr[i] == Apply(tr[i - 1], steps[i - 1]);
    }
  }

  /** Release is called at most once, only after the renewer's one result has been received; from then on
      the renewer is gone, so Renew and Release never touch the handle at the same time. */
  lemma ReleaseAfterRenewer(tr: seq<State>, steps: seq<Step>, i: nat, j: nat)
    requires Run(tr, steps) && i <= j < |steps| && steps[i].CallRelease?
    ensures tr[j].renewer.Gone? && !steps[j].RenewReturns? && !steps[j].Tick?
    ensures i < j ==> !steps[j].CallRelease?
    ensures tr[i].reports == 1 && tr[j + 1].reports == 1 && tr[j + 1].releases == 1
    decreases j
  {
    RunKeepsInv(tr, steps, i);
    assert Enabled(tr[i], steps[i]) && tr[i + 1] == Apply(tr[i], steps[i]);
    if i < j {
      ReleaseAfterRenewer(tr, steps, i, j - 1);
    }
    RunKeepsInv(tr, steps, j);
    RunKeepsInv(tr, steps, j + 1);
    assert Enabled(tr[j], steps[j]) && tr[j + 1] == Apply(tr[j], steps[j]);
  }

  lemma FailureOnce(s: State, step: Step)
    requires Inv(s) && Enabled(s, step) && s.renewFailure.Some?
    ensures Apply(s, step).renewFailure == s.renewFailure
  {
    hide Joined;
  }

  lemma {:induction false} FailureStays(tr: seq<State>, steps: seq<Step>, i: nat, j: nat)
    requires Run(tr, steps) && i <= j < |tr| && tr[i].renewFailure.Some?
    ensures tr[j].renewFailure == tr[i].renewFailure
    decreases j
  {
    if i < j {
      FailureStays(tr, steps, i, j - 1);
      RunKeepsInv(tr, steps, j - 1);
      hide Inv, Enabled, Apply;
      assert Enabled(tr[j - 1], steps[j - 1]) && tr[j] == Apply(tr[j - 1], steps[j - 1]);
      FailureOnce(tr[j - 1], steps[j - 1]);
    }
  }

  /** A renewal that failed is in what WithLock returns, unless it was a cancellation and the callback
      failed as well. */
  lemma RenewalErrorReported(tr: seq<State>, steps: seq<Step>, i: nat, j: nat, err: Failure)
    requires Run(tr, steps) && i < j < |tr| && steps[i] == RenewReturns(Some(err)) && tr[j].caller.Finished?
    ensures err in tr[j].caller.errs || (err.cancellation && tr[j].fnErr.Some?)
    ensures tr[i + 1].workDone.Some?
  {
    assert Enabled(tr[i], steps[i]) && tr[i + 1] == Apply(tr[i], steps[i]);
    FailureStays(tr, steps, i + 1, j);
    RunKeepsInv(tr, steps, j);
    assert tr[j].renewErr == Some(err);
    if !(err.cancellation && tr[j].fnErr.Some?) {
      assert (Listed(tr[j].fnErr) + Listed(Some(err)) + Listed(tr[j].releaseErr))[|Listed(tr[j].fnErr)|] == err;
    }
  }

  /** The renewer is about to report this, has put it into the channel, or WithLock has received it. */
  predicate Tells(s: State, result: Option<Failure>) {
    match s.renewer
    case Reporting(told) => told == result
    case Gone => if PastReceive(s) then s.renewErr == result else s.renewDone == Some(result)
    case _ => false
  }

  lemma TellsOn(s: State, step: Step, result: Option<Failure>)
    requires Inv(s) && Tells(s, result) && Enabled(s, step)
    ensures Tells(Apply(s, step), result) && (s.renewer.Gone? ==> Apply(s, step).renewer.Gone?)
  {
    hide Joined;
  }

  lemma {:induction false} ResultStays(tr: seq<State>, steps: seq<Step>, i: nat, j: nat)
    requires Run(tr, steps) && i < j < |tr| && steps[i].Report?
    ensures tr[i].renewer.Reporting?
    ensures tr[j].renewer.Gone? && Tells(tr[j], tr[i].renewer.result)
    decreases j
  {
    hide Joined, Inv;
    assert Enabled(tr[j - 1], steps[j - 1]) && tr[j] == Apply(tr[j - 1], steps[j - 1]);
    RunKeepsInv(tr, steps, j - 1);
    if i < j - 1 {
      ResultStays(tr, steps, i, j - 1);
      hide Apply, Tells;
      TellsOn(tr[j - 1], steps[j - 1], tr[i].renewer.result);
    } else {
      ReportIsTold(tr[i]);
    }
  }

  lemma ReportIsTold(s: State)
    requires Inv(s) && Enabled(s, Report)
    ensures Apply(s, Report).renewer.Gone? && Tells(Apply(s, Report), s.renewer.result)
  {
    hide Joined;
  }

  /** Whatever the renewer reports, a renewal that failed or the end of the context that it saw at its select, is
      in what WithLock returns, unless it is a cancellation and the callback failed as well. */
  lemma RenewerResultReported(tr: seq<State>, steps: seq<Step>, i: nat, j: nat, err: Failure)
    requires Run(tr, steps) && i < j < |tr| && steps[i].Report? && tr[j].caller.Finished?
    requires tr[i].renewer == Reporting(Some(err))
    ensures err in tr[j].caller.errs || (err.cancellation && tr[j].fnErr.Some?)
  {
    ResultStays(tr, steps, i, j);
    RunKeepsInv(tr, steps, j);
    var s := tr[j];
    if !(err.cancellation && s.fnErr.Some?) {
      assert (Listed(s.fnErr) + Listed(Some(err)) + Listed(s.releaseErr))[|Listed(s.fnErr)|] == err;
    }
  }

  /** The renewer reports only for one of three reasons: a renewal failed, which it reports; it saw the context's
      end, whose cause it reports; it saw that the callback was done, and reports nothing. */
  lemma ReportsForAReason(tr: seq<State>, steps: seq<Step>, i: nat)
    requires Run(tr, steps) && i < |steps| && !tr[i].renewer.Reporting? && tr[i + 1].renewer.Reporting?
    ensures var result := tr[i + 1].renewer.result;
            || (result.Some? && steps[i] == RenewReturns(result))
            || (result.Some? && steps[i] == SeeDone && result == tr[i].workDone)
            || (result.None? && steps[i] == SeeStop && tr[i].stopRenew)
  {
    assert Enabled(tr[i], steps[i]) && tr[i + 1] == Apply(tr[i], steps[i]);
  }

  /** A renewal that succeeds leaves everything as it was: at its select the renewer can always renew once more, for
      as long as the callback works. */
  lemma KeepsRenewing(tr: seq<State>, steps: seq<Step>)
    requires Run(tr, steps) && tr[|steps|].renewer.Selecting?
    ensures var during := tr[|steps|].(renewer := Renewing);
            Run(tr + [during, tr[|steps|]], steps + [Tick, RenewReturns(None)])
  {
    var during := tr[|steps|].(renewer := Renewing);
    var tr', steps' := tr + [during, tr[|steps|]], steps + [Tick, RenewReturns(None)];
    forall i | 0 <= i < |steps'| ensures Enabled(tr'[i], steps'[i]) && tr'[i + 1] == Apply(tr'[i], steps'[i]) {
      if i < |steps| {
        assert Enabled(tr[i], steps[i]) && tr[i + 1] == Apply(tr[i], steps[i]);
      }
    }
  }

  /** The first cause of a context's end stays its cause. */
  lemma {:induction false} CauseStays(tr: seq<State>, steps: seq<Step>, i: nat, j: nat)
    requires Run(tr, steps) && i <= j < |tr| && tr[i].workDone.Some?
    ensures tr[j].workDone == tr[i].workDone
    decreases j
  {
    hide Joined;
    if i < j {
      CauseStays(tr, steps, i, j - 1);
      assert Enabled(tr[j - 1], steps[j - 1]) && tr[j] == Apply(tr[j - 1], steps[j - 1]);
    }
  }

  /** Having looked at the context's end the renewer has only its cause left to report. */
  lemma {:induction false} ReportsTheCause(tr: seq<State>, steps: seq<Step>, i: nat, j: nat)
    requires Run(tr, steps) && i < j < |tr| && steps[i] == SeeDone
    ensures tr[i].workDone.Some? && Tells(tr[j], tr[i].workDone)
    decreases j
  {
    hide Inv, Tells;
    assert Enabled(tr[i], steps[i]);
    assert Enabled(tr[j - 1], steps[j - 1]) && tr[j] == Apply(tr[j - 1], steps[j - 1]);
    RunKeepsInv(tr, steps, j - 1);
    if i < j - 1 {
      ReportsTheCause(tr, steps, i, j - 1);
      hide Apply;
      TellsOn(tr[j - 1], steps[j - 1], tr[i].workDone);
    } else {
      SeenIsTold(tr[i]);
    }
  }

  lemma SeenIsTold(s: State)
    requires Enabled(s, SeeDone)
    ensures Tells(Apply(s, SeeDone), s.workDone)
  {
  }

  /** If the context ends while the callback works and the renewer sees it, WithLock returns the cause, unless that
      is a cancellation and the callback failed as well. */
  lemma ContextEndReported(tr: seq<State>, steps: seq<Step>, k: nat, i: nat, j: nat, cause: Failure)
    requires Run(tr, steps) && k < i < j < |tr| && tr[j].caller.Finished?
    requires steps[k] == ContextEnds(cause) && steps[i] == SeeDone
    ensures cause in tr[j].caller.errs <==>
              || !(cause.cancellation && tr[j].fnErr.Some?)
              || tr[j].fnErr == Some(cause) || tr[j].releaseErr == Some(cause)
  {
    assert Enabled(tr[k], steps[k]) && tr[k + 1] == Apply(tr[k], steps[k]);
    CauseStays(tr, steps, k + 1, i);
    ReportsTheCause(tr, steps, i, j);
    RunKeepsInv(tr, steps, j);
    JoinedMeans(tr[j].fnErr, tr[j].renewErr, tr[j].releaseErr);
  }

  lemma JoinedMeans(fnErr: Option<Failure>, renewErr: Option<Failure>, releaseErr: Option<Failure>)
    ensures forall err :: err in Joined(fnErr, renewErr, releaseErr) <==>
              || fnErr == Some(err) || releaseErr == Some(err)
              || (renewErr == Some(err) && !(err.cancellation && fnErr.Some?))
  {
  }

  lemma {:induction false} CallbackErrorStays(tr: seq<State>, steps: seq<Step>, i: nat, j: nat)
    requires Run(tr, steps) && i < j < |tr| && steps[i].CallbackReturns?
    ensures tr[j].fnErr == steps[i].err && !tr[j].caller.Working?
    decreases j
  {
    hide Joined;
    assert Enabled(tr[j - 1], steps[j - 1]) && tr[j] == Apply(tr[j - 1], steps[j - 1]);
    if i < j - 1 {
      CallbackErrorStays(tr, steps, i, j - 1);
    }
  }

  lemma {:induction false} ReleaseErrorStays(tr: seq<State>, steps: seq<Step>, i: nat, j: nat)
    requires Run(tr, steps) && i < j < |tr| && steps[i].ReleaseReturns?
    ensures tr[j].releaseErr == steps[i].err && tr[j].caller.Finished?
    decreases j
  {
    hide Joined;
    assert Enabled(tr[j - 1], steps[j - 1]) && tr[j] == Apply(tr[j - 1], steps[j - 1]);
    if i < j - 1 {
      ReleaseErrorStays(tr, steps, i, j - 1);
    }
  }

  /** What WithLock returns is exactly: the error the callback returned, the error Release returned, and the error
      the renewer reported, the last one not if it is a cancellation and the callback failed. */
  lemma ErrorsExactly(tr: seq<State>, steps: seq<Step>, callback: nat, report: nat, release: nat, j: nat, err: Failure)
    requires Run(tr, steps) && callback < j && report < j && release < j < |tr|
    requires steps[callback].CallbackReturns? && steps[report].Report? && steps[release].ReleaseReturns?
    ensures tr[j].caller.Finished? && tr[report].renewer.Reporting?
    ensures err in tr[j].caller.errs <==>
              || steps[callback].err == Some(err)
              || steps[release].err == Some(err)
              || (tr[report].renewer.result == Some(err) && !(err.cancellation && steps[callback].err.Some?))
  {
    CallbackErrorStays(tr, steps, callback, j);
    ReleaseErrorStays(tr, steps, release, j);
    ResultStays(tr, steps, report, j);
    RunKeepsInv(tr, steps, j);
    JoinedMeans(tr[j].fnErr, tr[j].renewErr, tr[j].releaseErr);
  }

  /** WithLock returns nil exactly when the callback, the renewer and the release all reported none; the
      callback's and the release's errors are always in what it returns. */
  lemma NilMeansAllWell(tr: seq<State>, steps: seq<Step>, i: nat)
    requires Run(tr, steps) && i < |tr| && tr[i].caller.Finished?
    ensures var s := tr[i];
            && (s.caller.errs == [] <==> s.fnErr.None? && s.renewErr.None? && s.releaseErr.None?)
            && (s.fnErr.Some? ==> s.fnErr.value in s.caller.errs)
            && (s.releaseErr.Some? ==> s.releaseErr.value in s.caller.errs)
  {
    RunKeepsInv(tr, steps, i);
    var s := tr[i];
    if s.fnErr.Some? {
      assert s.caller.errs[0] == s.fnErr.value;
    }
    if s.releaseErr.Some? {
      assert s.caller.errs[|s.caller.errs| - 1] == s.releaseErr.value;
    }
  }

  /** Steps left for the caller and the renewer once the callback has returned and no ticker fires. */
  function Left(s: State): nat {
    (match s.caller
     case Working => 6
     case Returned => 5
     case Awaiting => 4
     case Received => 3
     case Releasing => 2
     case Finished(_) => 0)
    + (match s.renewer
       case Renewing => 3
       case Selecting => 2
       case Reporting(_) => 1
       case Gone => 0)
  }

  /** Nobody waits for ever: once the callback has returned, and until WithLock returns, there is a step,
      neither a tick nor the context's end, that brings the return nearer. */
  lemma NeverStuck(tr: seq<State>, steps: seq<Step>, i: nat) returns (step: Step)
    requires Run(tr, steps) && i < |tr| && !tr[i].caller.Working? && !tr[i].caller.Finished?
    ensures Enabled(tr[i], step) && !step.Tick? && !step.ContextEnds?
    ensures Left(Apply(tr[i], step)) < Left(tr[i])
  {
    RunKeepsInv(tr, steps, i);
    var s := tr[i];
    match s.caller
    case Returned => step := CloseStop;
    case Received => step := CallRelease;
    case Releasing => step := ReleaseReturns(None);
    case Awaiting =>
      match s.renewer {
        case Selecting => step := SeeStop;
        case Renewing => step := RenewReturns(None);
        case Reporting(_) => step := Report;
        case Gone => step := Receive;
      }
  }
}
