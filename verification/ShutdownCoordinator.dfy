/**
 `ShutdownCoordinator`: quit requests are blocked until the executor and then the backend
 have stopped; a failed stop leaves the application alive for a retry. One step is one
 call, the settling of a stop, or the `finally` continuation of an attempt.
 */
module ShutdownCoordinator {

  /** What the coordinator asked for and what came back, in order. */
  datatype Event = StopExecutor | ExecutorStopped | ExecutorFailed | StopBackend | BackendStopped | BackendFailed | Quit

  /** `attempt`: absent, waiting for a stop, or waiting for its `finally` continuation. */
  datatype Attempt = NoAttempt | StoppingExecutor | StoppingBackend | Finishing

  datatype State = State(
    attempt: Attempt,
    quitAuthorized: bool,
    retryRequested: bool,
    retryable: bool,
    log: seq<Event>)

  function Init(): State {
    State(NoAttempt, false, false, false, [])
  }

  function StartShutdown(s: State): State {
    s.(retryable := false, attempt := StoppingExecutor, log := s.log + [StopExecutor])
  }

  function HandleBeforeQuit(s: State): State {
    if s.quitAuthorized || s.attempt != NoAttempt then s else StartShutdown(s)
  }

  function RetryShutdown(s: State): State {
    if s.quitAuthorized then s
    else if s.attempt != NoAttempt then s.(retryRequested := true)
    else if !s.retryable then s
    else StartShutdown(s)
  }

  function HandleSecondInstance(s: State, windowGone: bool): State {
    if windowGone then RetryShutdown(s) else s
  }

  function ExecutorSettles(s: State, ok: bool): State {
    if ok then s.(attempt := StoppingBackend, log := s.log + [ExecutorStopped, StopBackend])
    else s.(attempt := Finishing, retryable := true, log := s.log + [ExecutorFailed])
  }

  function BackendSettles(s: State, ok: bool): State {
    if ok then s.(attempt := Finishing, quitAuthorized := true, log := s.log + [BackendStopped, Quit])
    else s.(attempt := Finishing, retryable := true, log := s.log + [BackendFailed])
  }

  function Finally(s: State): State {
    var t := s.(attempt := NoAttempt);
    if t.retryRequested && !t.quitAuthorized then StartShutdown(t.(retryRequested := false)) else t
  }

  // ----- steps and runs

  datatype Label =
    | BeforeQuit
    | SecondInstance(windowGone: bool)
    | ExecutorDone(ok: bool)
    | BackendDone(ok: bool)
    | AttemptOver

  predicate Enabled(s: State, l: Label) {
    match l
    case ExecutorDone(_) => s.attempt == StoppingExecutor
    case BackendDone(_) => s.attempt == StoppingBackend
    case AttemptOver => s.attempt == Finishing
    case _ => true
  }

  function Step(s: State, l: Label): State
    requires Enabled(s, l)
  {
    match l
    case BeforeQuit => HandleBeforeQuit(s)
    case SecondInstance(windowGone) => HandleSecondInstance(s, windowGone)
    case ExecutorDone(ok) => ExecutorSettles(s, ok)
    case BackendDone(ok) => BackendSettles(s, ok)
    case AttemptOver => Finally(s)
  }

  ghost predicate Possible(s: State, run: seq<Label>)
    decreases |run|
  {
    run != [] ==> Enabled(s, run[0]) && Possible(Step(s, run[0]), run[1..])
  }

  ghost function Reached(s: State, run: seq<Label>): State
    requires Possible(s, run)
    decreases |run|
  {
    if run == [] then s else Reached(Step(s, run[0]), run[1..])
  }

  // ----- the language of the log

  /** The two ways an attempt fails. */
  datatype Failure = AtExecutor | AtBackend

  function FailedAttempt(f: Failure): seq<Event> {
    match f
    case AtExecutor => [StopExecutor, ExecutorFailed]
    case AtBackend => [StopExecutor, ExecutorStopped, StopBackend, BackendFailed]
  }

  function FailedAttempts(fs: seq<Failure>): seq<Event> {
    if fs == [] then [] else FailedAttempts(fs[..|fs| - 1]) + FailedAttempt(fs[|fs| - 1])
  }

  /** What the attempt in flight, or the one that succeeded, has logged so far. */
  function InProgress(s: State): seq<Event> {
    if s.quitAuthorized then [StopExecutor, ExecutorStopped, StopBackend, BackendStopped, Quit]
    else
      match s.attempt
      case StoppingExecutor => [StopExecutor]
      case StoppingBackend => [StopExecutor, ExecutorStopped, StopBackend]
      case _ => []
  }

  /** The log is a sequence of whole failed attempts, then at most one attempt that is open or succeeded. */
  ghost predicate Sequenced(s: State, fs: seq<Failure>) {
    s.log == FailedAttempts(fs) + InProgress(s)
  }

  ghost predicate Flags(s: State) {
    && (s.quitAuthorized ==> s.attempt == Finishing || s.attempt == NoAttempt)
    && (s.retryRequested && !s.quitAuthorized ==> s.attempt != NoAttempt)
    && (s.attempt == Finishing && !s.quitAuthorized ==> s.retryable)
    && (s.attempt != NoAttempt ==> s.log != [])
    && (s.attempt == NoAttempt && !s.quitAuthorized ==> (s.retryable <==> s.log != []))
  }

  ghost predicate Inv(s: State) {
    Flags(s) && exists fs :: Sequenced(s, fs)
  }

  lemma AnotherFailure(fs: seq<Failure>, f: Failure)
    ensures FailedAttempts(fs + [f]) == FailedAttempts(fs) + FailedAttempt(f)
  {
    assert (fs + [f])[..|fs|] == fs;
  }

  /** A failure completes the open attempt. */
  lemma Completes(s: State, t: State, fs: seq<Failure>, f: Failure, last: Event)
    requires Sequenced(s, fs) && t.log == s.log + [last] && InProgress(s) + [last] == FailedAttempt(f)
    requires InProgress(t) == []
    ensures Sequenced(t, fs + [f])
  {
    AnotherFailure(fs, f);
    assert s.log + [last] == FailedAttempts(fs) + (InProgress(s) + [last]);
    assert FailedAttempts(fs + [f]) + [] == FailedAttempts(fs + [f]);
  }

  /** Anything else that is logged belongs to the open attempt. */
  lemma Continues(s: State, t: State, fs: seq<Failure>, more: seq<Event>)
    requires Sequenced(s, fs) && t.log == s.log + more && InProgress(t) == InProgress(s) + more
    ensures Sequenced(t, fs)
  {
  }

  lemma StepFlags(s: State, l: Label)
    requires Flags(s) && Enabled(s, l)
    ensures Flags(Step(s, l))
  {
  }

  lemma StepKeeps(s: State, l: Label)
    requires Inv(s) && Enabled(s, l)
    ensures Inv(Step(s, l))
  {
    StepFlags(s, l);
    var fs :| Sequenced(s, fs);
    var t := Step(s, l);
    match l
    case ExecutorDone(ok) =>
      if ok {
        Continues(s, t, fs, [ExecutorStopped, StopBackend]);
      } else {
        Completes(s, t, fs, AtExecutor, ExecutorFailed);
      }
    case BackendDone(ok) =>
      if ok { Continues(s, t, fs, [BackendStopped, Quit]); } else { Completes(s, t, fs, AtBackend, BackendFailed); }
    case _ =>
      Continues(s, t, fs, if t.log == s.log then [] else [StopExecutor]);
  }

  lemma {:induction false} RunKeeps(s: State, run: seq<Label>)
    requires Inv(s) && Possible(s, run)
    ensures Inv(Reached(s, run))
    decreases |run|
  {
    if run != [] {
      StepKeeps(s, run[0]);
      RunKeeps(Step(s, run[0]), run[1..]);
    }
  }

  lemma InitHolds()
    ensures Inv(Init())
  {
    assert Sequenced(Init(), []);
  }

  // ----- what the log's shape says

  function Starts(log: seq<Event>): nat {
    if log == [] then 0 else Starts(log[..|log| - 1]) + if log[|log| - 1] == StopExecutor then 1 else 0
  }

  /** The executor stop that opened this attempt succeeded just before the backend stop was asked for. */
  ghost predicate BackendInOrder(log: seq<Event>) {
    forall i | 0 <= i < |log| && log[i] == StopBackend ::
      i >= 2 && log[i - 1] == ExecutorStopped && log[i - 2] == StopExecutor
  }

  /** Quit comes last, and only after both stops of one attempt. */
  ghost predicate QuitLast(log: seq<Event>) {
    forall i | 0 <= i < |log| && log[i] == Quit ::
      i == |log| - 1 && i >= 4 && log[i - 4..i] == [StopExecutor, ExecutorStopped, StopBackend, BackendStopped]
  }

  /** A new attempt begins only after the previous one failed. */
  ghost predicate OneAtATime(log: seq<Event>) {
    forall i | 0 < i < |log| && log[i] == StopExecutor :: log[i - 1] == ExecutorFailed || log[i - 1] == BackendFailed
  }

  ghost predicate Failures(log: seq<Event>) {
    && BackendInOrder(log) && OneAtATime(log) && Quit !in log
    && (log != [] ==> log[|log| - 1] == ExecutorFailed || log[|log| - 1] == BackendFailed)
  }

  lemma AttemptInOrder(log: seq<Event>, open: seq<Event>)
    requires Failures(log)
    requires || open <= [StopExecutor, ExecutorStopped, StopBackend, BackendStopped, Quit]
             || exists f :: open == FailedAttempt(f)
    ensures BackendInOrder(log + open) && OneAtATime(log + open)
  {
    assert BackendInOrder(open) && OneAtATime(open);
    forall i | 0 <= i < |log + open| && (log + open)[i] == StopBackend
      ensures i >= 2 && (log + open)[i - 1] == ExecutorStopped && (log + open)[i - 2] == StopExecutor
    {
      if i >= |log| {
        assert open[i - |log|] == StopBackend;
      }
    }
  }

  lemma {:induction false} FailuresInOrder(fs: seq<Failure>)
    ensures Failures(FailedAttempts(fs))
  {
    if fs != [] {
      FailuresInOrder(fs[..|fs| - 1]);
      AttemptInOrder(FailedAttempts(fs[..|fs| - 1]), FailedAttempt(fs[|fs| - 1]));
    }
  }

  lemma OpenIsPrefix(s: State)
    ensures InProgress(s) <= [StopExecutor, ExecutorStopped, StopBackend, BackendStopped, Quit]
    ensures Quit in InProgress(s) <==> s.quitAuthorized
  {
  }

  lemma QuitComesLast(log: seq<Event>, open: seq<Event>)
    requires Quit !in log && open <= [StopExecutor, ExecutorStopped, StopBackend, BackendStopped, Quit]
    ensures QuitLast(log + open)
  {
    forall i | 0 <= i < |log + open| && (log + open)[i] == Quit
      ensures i == |log + open| - 1 && i >= 4
      ensures (log + open)[i - 4..i] == [StopExecutor, ExecutorStopped, StopBackend, BackendStopped]
    {
      assert i >= |log| && open[i - |log|] == Quit;
      assert i == |log| + 4;
    }
  }

  /**
   In every run the backend is stopped only after the executor stop of the same attempt, at most
   one attempt is in flight, and quit is issued at most once, at the end, after both.
   */
  lemma RunsInOrder(run: seq<Label>)
    requires Possible(Init(), run)
    ensures var log := Reached(Init(), run).log; BackendInOrder(log) && OneAtATime(log) && QuitLast(log)
    ensures Quit in Reached(Init(), run).log <==> Reached(Init(), run).quitAuthorized
  {
    InitHolds();
    RunKeeps(Init(), run);
    var s := Reached(Init(), run);
    var fs :| Sequenced(s, fs);
    FailuresInOrder(fs);
    OpenIsPrefix(s);
    AttemptInOrder(FailedAttempts(fs), InProgress(s));
    QuitComesLast(FailedAttempts(fs), InProgress(s));
  }

  // ----- quitting

  /** Whatever is asked meanwhile, an attempt authorizes the quit exactly if both its stops succeed. */
  lemma {:induction false} QuitsExactlyWhen(s: State, run: seq<Label>)
    requires s.attempt == StoppingExecutor || s.attempt == StoppingBackend
    requires !s.quitAuthorized && Possible(s, run) && AttemptOver !in run
    requires Reached(s, run).attempt == Finishing
    ensures Reached(s, run).quitAuthorized <==>
      (s.attempt == StoppingBackend || ExecutorDone(true) in run) && BackendDone(true) in run
    decreases |run|
  {
    var t := Step(s, run[0]);
    assert run == [run[0]] + run[1..];
    if t.attempt == Finishing {
      FinishingStays(t, run[1..]);
    } else {
      QuitsExactlyWhen(t, run[1..]);
    }
  }

  /** Once both stops are over, nothing settles any more. */
  lemma {:induction false} FinishingStays(s: State, run: seq<Label>)
    requires s.attempt == Finishing && Possible(s, run) && AttemptOver !in run
    ensures Reached(s, run).quitAuthorized == s.quitAuthorized
    ensures forall l | l in run :: !l.ExecutorDone? && !l.BackendDone?
    decreases |run|
  {
    if run != [] {
      assert run == [run[0]] + run[1..];
      FinishingStays(Step(s, run[0]), run[1..]);
    }
  }

  // ----- retries

  /** Retry requests made while an attempt is open, before its `finally` runs. */
  ghost predicate WithinAttempt(run: seq<Label>) {
    AttemptOver !in run
  }

  ghost predicate StillOpen(s: State, t: State, asked: bool) {
    && t.attempt != NoAttempt
    && Starts(t.log) == Starts(s.log)
    && (!t.quitAuthorized ==> (t.retryRequested <==> s.retryRequested || asked))
    && (s.quitAuthorized ==> t.quitAuthorized)
  }

  lemma OpenStep(s: State, l: Label)
    requires Enabled(s, l) && l != AttemptOver && s.attempt != NoAttempt
    ensures StillOpen(s, Step(s, l), l == SecondInstance(true))
  {
    match l
    case ExecutorDone(ok) => NoStartsAfter(s.log, if ok then [ExecutorStopped, StopBackend] else [ExecutorFailed]);
    case BackendDone(ok) => NoStartsAfter(s.log, if ok then [BackendStopped, Quit] else [BackendFailed]);
    case _ =>
  }

  /** While an attempt is open no other begins, and retry requests are only remembered. */
  lemma {:induction false} OpenAttempt(s: State, run: seq<Label>)
    requires Possible(s, run) && WithinAttempt(run) && s.attempt != NoAttempt
    ensures StillOpen(s, Reached(s, run), SecondInstance(true) in run)
    decreases |run|
  {
    if run != [] {
      OpenStep(s, run[0]);
      assert run == [run[0]] + run[1..];
      OpenAttempt(Step(s, run[0]), run[1..]);
    }
  }

  lemma {:induction false} StartsAfter(log: seq<Event>, more: seq<Event>)
    ensures Starts(log + more) == Starts(log) + Starts(more)
  {
    if more == [] {
      assert log + more == log;
    } else {
      StartsAfter(log, more[..|more| - 1]);
      assert (log + more)[..|log + more| - 1] == log + more[..|more| - 1];
    }
  }

  lemma {:induction false} NoStartsAfter(log: seq<Event>, more: seq<Event>)
    requires StopExecutor !in more
    ensures Starts(log + more) == Starts(log)
  {
    if more == [] {
      assert log + more == log;
    } else {
      NoStartsAfter(log, more[..|more| - 1]);
      assert (log + more)[..|log + more| - 1] == log + more[..|more| - 1];
    }
  }

  /**
   However many retries are asked for while an attempt is failing, and wherever they fall, the end
   of that attempt starts exactly one new attempt, or none if there was no request.
   */
  lemma RetriesCoalesce(s: State, run: seq<Label>)
    requires Possible(s, run) && WithinAttempt(run) && s.attempt != NoAttempt
    requires Reached(s, run).attempt == Finishing && !Reached(s, run).quitAuthorized
    ensures var t := Step(Reached(s, run), AttemptOver);
            !t.retryRequested
            && if s.retryRequested || SecondInstance(true) in run
               then t.attempt == StoppingExecutor && Starts(t.log) == Starts(s.log) + 1
               else t.attempt == NoAttempt && Starts(t.log) == Starts(s.log)
  {
    OpenAttempt(s, run);
    StartsAfter(Reached(s, run).log, [StopExecutor]);
  }

  /**
   Once a shutdown has failed and is over, a launch request without a window starts the next attempt;
   before any shutdown it does nothing.
   */
  lemma RetryAfterFailure(run: seq<Label>)
    requires Possible(Init(), run)
    requires Reached(Init(), run).attempt == NoAttempt && !Reached(Init(), run).quitAuthorized
    ensures var s := Reached(Init(), run);
            if s.log == [] then Step(s, SecondInstance(true)) == s
            else Step(s, SecondInstance(true)).attempt == StoppingExecutor
  {
    InitHolds();
    RunKeeps(Init(), run);
  }

  // ----- the object

  class Coordinator {
    var attempt: Attempt
    var quitAuthorized: bool
    var retryRequested: bool
    var retryable: bool
    var log: seq<Event>

    ghost function View(): State
      reads this
    {
      State(attempt, quitAuthorized, retryRequested, retryable, log)
    }

    constructor ()
      ensures View() == Init() && Inv(View())
    {
      attempt, quitAuthorized, retryRequested, retryable, log := NoAttempt, false, false, false, [];
      InitHolds();
    }

    method Begin()
      modifies this
      ensures View() == StartShutdown(old(View()))
    {
      retryable := false;
      attempt := StoppingExecutor;
      log := log + [StopExecutor];
    }

    /** Every quit request is blocked until both stops of one attempt have succeeded. */
    method OnBeforeQuit() returns (prevented: bool)
      requires Inv(View())
      modifies this
      ensures View() == HandleBeforeQuit(old(View())) && Inv(View())
      ensures !prevented <==> old(quitAuthorized)
      ensures !prevented ==> log != [] && log[|log| - 1] == Quit
      ensures prevented && old(attempt) == NoAttempt ==>
        attempt == StoppingExecutor && log == old(log) + [StopExecutor]
    {
      StepKeeps(View(), BeforeQuit);
      if quitAuthorized {
        return false;
      }
      if attempt == NoAttempt {
        Begin();
      }
      return true;
    }

    method OnSecondInstance(windowGone: bool)
      requires Inv(View())
      modifies this
      ensures View() == HandleSecondInstance(old(View()), windowGone) && Inv(View())
    {
      StepKeeps(View(), SecondInstance(windowGone));
      if !windowGone || quitAuthorized {
        return;
      }
      if attempt != NoAttempt {
        retryRequested := true;
      } else if retryable {
        Begin();
      }
    }

    method OnExecutorSettled(ok: bool)
      requires Inv(View()) && attempt == StoppingExecutor
      modifies this
      ensures View() == ExecutorSettles(old(View()), ok) && Inv(View())
    {
      StepKeeps(View(), ExecutorDone(ok));
      if ok {
        attempt := StoppingBackend;
        log := log + [ExecutorStopped, StopBackend];
      } else {
        retryable := true;
        attempt := Finishing;
        log := log + [ExecutorFailed];
      }
    }

    method OnBackendSettled(ok: bool)
      requires Inv(View()) && attempt == StoppingBackend
      modifies this
      ensures View() == BackendSettles(old(View()), ok) && Inv(View())
    {
      StepKeeps(View(), BackendDone(ok));
      attempt := Finishing;
      if ok {
        quitAuthorized := true;
        log := log + [BackendStopped, Quit];
      } else {
        retryable := true;
        log := log + [BackendFailed];
      }
    }

    method OnAttemptOver()
      requires Inv(View()) && attempt == Finishing
      modifies this
      ensures View() == Finally(old(View())) && Inv(View())
    {
      StepKeeps(View(), AttemptOver);
      attempt := NoAttempt;
      if retryRequested && !quitAuthorized {
        retryRequested := false;
        Begin();
      }
    }
  }
}
