/**
 The supervisor at rest: once every continuation has run and no stop waits, a supervisor that owns no
 child can start one, and a reported `starting` has a start behind it.
 */
module ExecutorQuiet {
  import opened Options
  import opened ExecutorLifecycle
  import opened ExecutorStarts

  /** The start of `p` will be rejected by the stop it follows. */
  ghost predicate Followed(s: State, p: nat) {
    p in s.followers || After(p, true) in s.queue || After(p, false) in s.queue
  }

  /** A start that is still pending belongs to a running process, or follows a stop because it ran out of time. */
  ghost predicate Answerable(s: State) {
    s.unsettled.Some? ==>
      var p := s.unsettled.value;
      p < |s.procs| && (!s.procs[p].running ==> s.procs[p].timedOut) && (s.procs[p].timedOut ==> Followed(s, p))
  }

  /** The start of `p` is about to be rejected by a stop that failed. */
  ghost predicate Doomed(s: State, p: nat) {
    After(p, false) in s.queue || (s.stop == Settled(false) && p in s.followers)
  }

  /** `starting` is reported only for a pending start whose process is owned, or whose stop is about to end. */
  ghost predicate Underway(s: State) {
    s.status == Starting ==>
      && s.unsettled.Some? && (s.child == s.unsettled || s.stop.Closing?)
      && !Doomed(s, s.unsettled.value)
  }

  ghost predicate Promised(s: State) {
    Answerable(s) && Underway(s)
  }

  /** Starts follow a stop only while there is one. */
  ghost predicate FollowAStop(s: State) {
    s.followers != [] ==> s.stop != Idle
  }

  /** A rejected or resolved start is no longer pending. */
  lemma SettlePromised(s: State, p: nat)
    requires s.unsettled == Some(p) || Answerable(s)
    requires s.status != Starting
    ensures Promised(Settle(s, p))
  {
    Pushed(s.queue, StartDone);
  }

  lemma StartBodyPromised(s: State)
    requires Inv(s) && Promised(s)
    ensures Promised(StartBody(s))
  {
    if s.child.None? && !s.startPromise {
      assert |s.procs| !in s.followers;
      assert After(|s.procs|, false) !in s.queue;
    }
  }

  lemma PushPromised(s: State, t: Task)
    requires Promised(s) && !t.After?
    ensures Promised(s.(queue := s.queue + [t]))
  {
    Pushed(s.queue, t);
  }

  lemma StartPromised(s: State)
    requires Inv(s) && Promised(s)
    ensures Promised(StartCall(s))
  {
    match s.stop
    case Idle => StartBodyPromised(s);
    case Settled(ok) => PushPromised(s, Resume(ok));
    case _ =>
  }

  lemma RejectPromised(s: State, p: nat)
    requires Promised(s)
    ensures Promised(Reject(s, p))
  {
    Pushed(s.queue, TermFailed(p));
  }

  lemma ErrorPromised(s: State, p: nat)
    requires p < |s.procs| && (Promised(s) || (s.procs[p].errorHandler && s.unsettled == Some(p)))
    ensures Promised(ErrorEvent(s, p))
  {
    if s.procs[p].errorHandler {
      var t := s.(procs := s.procs[p := s.procs[p].(errorHandler := false, timer := false)], child := None,
        status := Failed);
      SettlePromised(t, p);
      RejectPromised(Settle(t, p), p);
    } else {
      RejectPromised(s, p);
    }
  }

  lemma StopCallPromised(s: State, kill: Kill)
    requires Promised(s)
    ensures Promised(StopCall(s, kill))
  {
    if s.stop == Idle {
      if s.child.Some? && Running(s.procs, s.child.value) {
        if kill == Refused {
          ErrorPromised(s.(stopping := true, stop := Waiting(s.child.value, false)), s.child.value);
        }
      } else {
        Pushed(s.queue, StopDone(true));
      }
    }
  }

  lemma Followers(s: State, p: nat, kill: Kill)
    ensures FollowStop(s, p, kill) == StopCall(s.(followers := s.followers + [p]), kill)
  {
  }

  /** A process that runs out of time, or answers badly, follows the stop. */
  lemma FollowPromised(s: State, p: nat, proc: Proc, kill: Kill)
    requires Promised(s) && s.stop != Settled(false) && p < |s.procs| && proc.running == s.procs[p].running
    requires s.procs[p].timedOut ==> proc.timedOut
    ensures Promised(FollowStop(s.(procs := s.procs[p := proc]), p, kill))
  {
    var t := s.(procs := s.procs[p := proc]);
    Followers(t, p, kill);
    assert p in s.followers + [p];
    StopCallPromised(t.(followers := s.followers + [p]), kill);
  }

  lemma LinePromised(s: State, p: nat, valid: bool, kill: Kill)
    requires Inv(s) && Promised(s) && s.queue == [] && p < |s.procs|
    ensures Promised(Line(s, p, valid, kill))
  {
    var proc := s.procs[p].(lineHandler := false, timer := false, ready := s.procs[p].ready || valid);
    if valid {
      SettlePromised(s.(procs := s.procs[p := proc], status := Ready), p);
    } else {
      FollowPromised(s, p, proc, kill);
    }
  }

  lemma ExitPromised(s: State, p: nat)
    requires Inv(s) && Promised(s) && FollowAStop(s) && s.queue == [] && Running(s.procs, p)
    ensures Promised(Exit(s, p))
  {
    var gone := s.(procs := s.procs[p := s.procs[p].(running := false, timer := false)], child := None);
    if !s.procs[p].timedOut {
      var t := gone.(status := if s.procs[p].ready && s.stopping then Stopped else Failed);
      SettlePromised(t, p);
      Pushed(Settle(t, p).queue, TermDone(p));
    } else {
      Pushed(s.queue, TermDone(p));
    }
  }

  lemma SigkillPromised(s: State, kill: Kill)
    requires Promised(s) && s.stop.Waiting? && s.stop.p < |s.procs|
    ensures Promised(SigkillTimer(s, kill))
  {
    match kill
    case Delivered =>
    case Gone => RejectPromised(s, s.stop.p);
    case Refused => ErrorPromised(s, s.stop.p);
  }

  lemma SpawnFailedPromised(s: State, p: nat)
    requires Promised(s) && Running(s.procs, p) && s.procs[p].errorHandler
    ensures Promised(SpawnError(s, p))
  {
    ErrorPromised(s.(procs := s.procs[p := s.procs[p].(running := false)]), p);
  }

  // ----- continuations

  lemma PopPromised(s: State)
    requires Promised(s) && s.queue != [] && !s.queue[0].After?
    ensures Promised(s.(queue := s.queue[1..]))
  {
    Popped(s.queue);
  }

  lemma StopEndPromised(s: State, ok: bool, child: Option<nat>, status: Status)
    requires Promised(s) && status != Starting
    ensures Promised(StopSettles(s.(child := child), ok, status))
  {
    var q := s.queue + [StopDone(ok)] + Resumes(s.waiting, ok);
    assert forall u: Task | u in s.queue :: u in q;
  }

  lemma StopDonePromised(s: State)
    requires Inv(s) && Promised(s) && s.queue != [] && s.queue[0].StopDone?
    ensures Promised(RunTask(s))
  {
    var ok, t := s.queue[0].ok, RunTask(s);
    Popped(s.queue);
    assert s.stop == Settled(ok);
    forall p ensures Followed(s, p) ==> Followed(t, p) {
      if i: nat :| i < |s.followers| && s.followers[i] == p {
        assert Afters(s.followers, ok)[i] == After(p, ok);
      }
    }
    forall p ensures Doomed(t, p) ==> Doomed(s, p) {
      if i: nat :| i < |t.queue| && t.queue[i] == After(p, false) {
        assert i < |s.queue| - 1 || s.followers[i - (|s.queue| - 1)] == p;
      }
    }
  }

  lemma AfterPromised(s: State)
    requires Promised(s) && s.queue != [] && s.queue[0].After?
    ensures Promised(RunTask(s))
  {
    Popped(s.queue);
    var p, ok := s.queue[0].p, s.queue[0].ok;
    var t := s.(queue := s.queue[1..]);
    if s.unsettled == Some(p) {
      SettlePromised(if ok then t.(status := Failed) else t, p);
    }
  }

  lemma TaskPromised(s: State)
    requires Inv(s) && Promised(s) && s.queue != []
    ensures Promised(RunTask(s))
  {
    var t := s.(queue := s.queue[1..]);
    match s.queue[0]
    case TermDone(p) =>
      PopPromised(s);
      StopEndPromised(t, true, t.child, Stopped);
    case TermFailed(p) =>
      PopPromised(s);
      StopEndPromised(t, false, if Running(t.procs, p) then Some(p) else t.child, Failed);
    case StopDone(_) => StopDonePromised(s);
    case Resume(ok) =>
      PopPromised(s);
      PopKeeps(s);
      StartBodyPromised(t);
    case StartDone => PopPromised(s);
    case After(_, _) => AfterPromised(s);
  }

  lemma StepPromised(s: State, l: Label)
    requires Inv(s) && Promised(s) && FollowAStop(s) && Enabled(s, l)
    ensures Promised(Step(s, l))
  {
    match l
    case CallStart => StartPromised(s);
    case CallStop(kill) => StopCallPromised(s, kill);
    case Continue => TaskPromised(s);
    case Exited(p) => ExitPromised(s, p);
    case SpawnFailed(p) => SpawnFailedPromised(s, p);
    case LineRead(p, valid, kill) => LinePromised(s, p, valid, kill);
    case TimedOut(p, kill) => FollowPromised(s, p, s.procs[p].(timer := false, timedOut := true), kill);
    case SigtermIgnored(kill) => SigkillPromised(s, kill);
    case SigkillUnconfirmed => RejectPromised(s, s.stop.p);
  }

  lemma StartFollows(s: State)
    requires FollowAStop(s)
    ensures FollowAStop(StartCall(s))
  {
  }

  lemma TaskFollows(s: State)
    requires FollowAStop(s) && s.queue != []
    ensures FollowAStop(RunTask(s))
  {
  }

  lemma ErrorFollows(s: State, p: nat)
    requires FollowAStop(s) && p < |s.procs|
    ensures FollowAStop(ErrorEvent(s, p))
  {
  }

  lemma ExitFollows(s: State, p: nat)
    requires FollowAStop(s) && p < |s.procs|
    ensures FollowAStop(Exit(s, p))
  {
  }

  lemma SigkillFollows(s: State, kill: Kill)
    requires s.stop.Waiting? && s.stop.p < |s.procs|
    ensures FollowAStop(SigkillTimer(s, kill))
  {
    ErrorFollows(s, s.stop.p);
  }

  lemma LineFollows(s: State, p: nat, valid: bool, kill: Kill)
    requires FollowAStop(s) && p < |s.procs|
    ensures FollowAStop(Line(s, p, valid, kill))
  {
    LineMeans(s, p, valid, kill);
  }

  lemma StepFollows(s: State, l: Label)
    requires Inv(s) && FollowAStop(s) && Enabled(s, l)
    ensures FollowAStop(Step(s, l))
  {
    match l
    case CallStart => StartFollows(s);
    case CallStop(kill) => StopPends(s, kill);
    case Continue => TaskFollows(s);
    case Exited(p) => ExitFollows(s, p);
    case SpawnFailed(p) => ErrorFollows(s.(procs := s.procs[p := s.procs[p].(running := false)]), p);
    case LineRead(p, valid, kill) => LineFollows(s, p, valid, kill);
    case TimedOut(p, kill) =>
      FollowMeans(s.(procs := s.procs[p := s.procs[p].(timer := false, timedOut := true)]), p, kill);
    case SigtermIgnored(kill) => SigkillFollows(s, kill);
    case SigkillUnconfirmed =>
  }

  lemma {:induction false} RunPromised(s: State, run: seq<Label>)
    requires Inv(s) && Latest(s) && Promised(s) && FollowAStop(s) && Possible(s, run)
    ensures var t := Reached(s, run);
      Inv(t) && Latest(t) && Promised(t) && FollowAStop(t)
    decreases |run|
  {
    if run != [] {
      StepKeeps(s, run[0]);
      StepLatest(s, run[0]);
      StepPromised(s, run[0]);
      StepFollows(s, run[0]);
      RunPromised(Step(s, run[0]), run[1..]);
    }
  }

  // ----- at rest

  /**
   Whatever happened before, failed handshakes and failed stops included: with no continuation left, no
   stop pending and no child owned, nothing runs, and a start spawns a process it owns.
   */
  lemma UsableAtRest(run: seq<Label>)
    requires Possible(Init(), run)
    requires var s := Reached(Init(), run);
      s.queue == [] && s.stop == Idle && s.child == None
    ensures var s := Reached(Init(), run);
      && NoneRunning(s.procs)
      && |StartCall(s).procs| == |s.procs| + 1
      && StartCall(s).child == Some(|s.procs|) && Running(StartCall(s).procs, |s.procs|)
  {
    RunPromised(Init(), run);
  }

  /** At rest, `starting` is reported only while the owned child runs and its start is pending. */
  lemma StartingAtRest(run: seq<Label>)
    requires Possible(Init(), run)
    requires var s := Reached(Init(), run);
      s.queue == [] && s.status == Starting
    ensures var s := Reached(Init(), run);
      s.child.Some? && Running(s.procs, s.child.value) && s.unsettled == s.child && s.startPromise
  {
    RunPromised(Init(), run);
  }
}
