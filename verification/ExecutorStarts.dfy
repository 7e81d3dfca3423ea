/**
 What becomes of a `start` that had to wait for a `stop`. The continuations of the supervisor
 always run out, and what they leave behind after the awaited child has exited, or could not be
 stopped, is stated exactly.
 */
module ExecutorStarts {
  import opened Options
  import opened ExecutorLifecycle

  // ----- the continuations run out

  ghost function Cost(t: Task): nat {
    match t
    case TermDone(_) => 2
    case TermFailed(_) => 2
    case After(_, _) => 2
    case _ => 1
  }

  ghost function QueueCost(q: seq<Task>): nat {
    if q == [] then 0 else Cost(q[0]) + QueueCost(q[1..])
  }

  /** A continuation may queue others, but less than it is worth. */
  ghost function Work(s: State): nat {
    QueueCost(s.queue) + s.waiting + 2 * |s.followers|
  }

  lemma {:induction false} CostJoin(p: seq<Task>, q: seq<Task>)
    ensures QueueCost(p + q) == QueueCost(p) + QueueCost(q)
  {
    if p == [] {
      assert p + q == q;
    } else {
      assert (p + q)[1..] == p[1..] + q;
      CostJoin(p[1..], q);
    }
  }

  lemma {:induction false} CostEach(q: seq<Task>, c: nat)
    requires forall i | 0 <= i < |q| :: Cost(q[i]) == c
    ensures QueueCost(q) == c * |q|
  {
    if q != [] {
      CostEach(q[1..], c);
    }
  }

  lemma WorkShrinks(s: State)
    requires s.queue != []
    ensures Work(RunTask(s)) < Work(s)
  {
    var rest := s.queue[1..];
    match s.queue[0]
    case TermDone(_) => SettledCost(rest, s.waiting, true);
    case TermFailed(_) => SettledCost(rest, s.waiting, false);
    case StopDone(ok) =>
      CostJoin(rest, Afters(s.followers, ok));
      CostEach(Afters(s.followers, ok), 2);
    case After(_, _) => CostJoin(rest, [StartDone]);
    case _ =>
  }

  lemma SettledCost(rest: seq<Task>, n: nat, ok: bool)
    ensures QueueCost(rest + [StopDone(ok)] + Resumes(n, ok)) == QueueCost(rest) + 1 + n
  {
    CostJoin(rest + [StopDone(ok)], Resumes(n, ok));
    CostJoin(rest, [StopDone(ok)]);
    CostEach(Resumes(n, ok), 1);
  }

  /** The state once every continuation has run and nothing else happened. */
  ghost function Drain(s: State): State
    decreases Work(s)
  {
    if s.queue == [] then s
    else
      WorkShrinks(s);
      Drain(RunTask(s))
  }

  ghost function Continues(n: nat): seq<Label> {
    seq(n, _ => Continue)
  }

  /** Draining is a run of the machine, and ends with an empty queue. */
  lemma {:induction false} DrainIsRun(s: State) returns (n: nat)
    ensures Possible(s, Continues(n)) && Reached(s, Continues(n)) == Drain(s) && Drain(s).queue == []
    decreases Work(s)
  {
    if s.queue == [] {
      n := 0;
    } else {
      WorkShrinks(s);
      var m := DrainIsRun(RunTask(s));
      n := m + 1;
      assert Continues(n)[0] == Continue && Continues(n)[1..] == Continues(m);
    }
  }

  // ----- who can be pending

  /** A pending start is unsettled or about to be cleared; only the latest process can run or be unsettled. */
  ghost predicate Latest(s: State) {
    && (s.startPromise ==> s.unsettled.Some? || StartDone in s.queue)
    && (s.unsettled.Some? ==> s.unsettled.value == |s.procs| - 1)
    && (forall p: nat | Running(s.procs, p) :: p == |s.procs| - 1)
  }

  lemma SettleLatest(s: State, p: nat)
    requires Latest(s)
    ensures Latest(Settle(s, p))
  {
    assert StartDone in s.queue + [StartDone];
    assert forall t | t in s.queue :: t in s.queue + [StartDone];
  }

  lemma StartBodyLatest(s: State)
    requires Latest(s) && (NoneRunning(s.procs) || s.child.Some? || s.startPromise)
    ensures Latest(StartBody(s))
  {
    var t := StartBody(s);
    if s.child.None? && !s.startPromise {
      forall p: nat | Running(t.procs, p) ensures p == |t.procs| - 1 {
        assert p < |s.procs| ==> Running(s.procs, p);
      }
    }
  }

  /** More work is queued, or nothing; no process is added. */
  lemma SameLatest(s: State, t: State)
    requires Latest(s) && t.startPromise == s.startPromise && t.unsettled == s.unsettled && s.queue <= t.queue
    requires |t.procs| == |s.procs| && forall p: nat | Running(t.procs, p) :: Running(s.procs, p)
    ensures Latest(t)
  {
    assert StartDone in s.queue ==> StartDone in t.queue;
  }

  lemma ErrorLatest(s: State, p: nat)
    requires Latest(s) && p < |s.procs|
    ensures Latest(ErrorEvent(s, p))
  {
    if s.procs[p].errorHandler {
      var t := s.(procs := s.procs[p := s.procs[p].(errorHandler := false, timer := false)], child := None,
        status := Failed);
      SameLatest(s, t);
      SettleLatest(t, p);
    }
  }

  lemma StopCallLatest(s: State, kill: Kill)
    requires Latest(s)
    ensures Latest(StopCall(s, kill))
  {
    if s.stop == Idle && s.child.Some? && Running(s.procs, s.child.value) && kill == Refused {
      ErrorLatest(s.(stopping := true, stop := Waiting(s.child.value, false)), s.child.value);
    } else {
      SameLatest(s, StopCall(s, kill));
    }
  }

  lemma PoppedLatest(s: State)
    requires Latest(s) && s.queue != [] && s.queue[0] != StartDone
    ensures Latest(s.(queue := s.queue[1..]))
  {
    assert StartDone in s.queue ==> StartDone in s.queue[1..];
  }

  lemma ReleasedBesideChild(s: State)
    requires Inv(s) && s.queue != [] && s.queue[0] == Resume(true) && !NoneRunning(s.procs)
    ensures s.child.Some? || s.startPromise
  {
    assert s.queue[..0] == [];
  }

  lemma TaskLatest(s: State)
    requires Inv(s) && Latest(s) && s.queue != []
    ensures Latest(RunTask(s))
  {
    var t := s.(queue := s.queue[1..]);
    match s.queue[0]
    case StartDone =>
    case Resume(ok) =>
      PoppedLatest(s);
      if ok {
        if !NoneRunning(s.procs) { ReleasedBesideChild(s); }
        StartBodyLatest(t);
      }
    case After(p, ok) =>
      PoppedLatest(s);
      SettleLatest(if ok then t.(status := Failed) else t, p);
    case _ =>
      PoppedLatest(s);
      SameLatest(t, RunTask(s));
  }

  lemma ExitLatest(s: State, p: nat)
    requires Latest(s) && p < |s.procs|
    ensures Latest(Exit(s, p))
  {
    var proc := s.procs[p];
    var gone := s.(procs := s.procs[p := proc.(running := false, timer := false)], child := None);
    var t := if proc.timedOut then gone
             else Settle(gone.(status := if proc.ready && s.stopping then Stopped else Failed), p);
    SameLatest(s, gone);
    if !proc.timedOut {
      SameLatest(gone, gone.(status := if proc.ready && s.stopping then Stopped else Failed));
      SettleLatest(gone.(status := if proc.ready && s.stopping then Stopped else Failed), p);
    }
    SameLatest(t, Exit(s, p));
  }

  lemma LineLatest(s: State, p: nat, valid: bool, kill: Kill)
    requires Latest(s) && p < |s.procs|
    ensures Latest(Line(s, p, valid, kill))
  {
    var proc := s.procs[p].(lineHandler := false, timer := false, ready := s.procs[p].ready || valid);
    var t := s.(procs := s.procs[p := proc]);
    SameLatest(s, t);
    if valid {
      SettleLatest(t.(status := Ready), p);
    } else {
      FollowLatest(t, p, kill);
    }
  }

  lemma FollowLatest(s: State, p: nat, kill: Kill)
    requires Latest(s)
    ensures Latest(FollowStop(s, p, kill))
  {
    StopCallLatest(s, kill);
    SameLatest(StopCall(s, kill), FollowStop(s, p, kill));
  }

  lemma TimeoutLatest(s: State, p: nat, kill: Kill)
    requires Latest(s) && p < |s.procs|
    ensures Latest(HandshakeTimeout(s, p, kill))
  {
    var t := s.(procs := s.procs[p := s.procs[p].(timer := false, timedOut := true)]);
    SameLatest(s, t);
    FollowLatest(t, p, kill);
  }

  lemma StepLatest(s: State, l: Label)
    requires Inv(s) && Latest(s) && Enabled(s, l)
    ensures Latest(Step(s, l))
  {
    match l
    case CallStart => StartLatest(s);
    case CallStop(kill) => StopCallLatest(s, kill);
    case Continue => TaskLatest(s);
    case Exited(p) => ExitLatest(s, p);
    case SpawnFailed(p) =>
      SameLatest(s, s.(procs := s.procs[p := s.procs[p].(running := false)]));
      ErrorLatest(s.(procs := s.procs[p := s.procs[p].(running := false)]), p);
    case LineRead(p, valid, kill) => LineLatest(s, p, valid, kill);
    case TimedOut(p, kill) => TimeoutLatest(s, p, kill);
    case SigtermIgnored(kill) => SigkillLatest(s, kill);
    case SigkillUnconfirmed => SameLatest(s, Reject(s, s.stop.p));
  }

  lemma StartLatest(s: State)
    requires Inv(s) && Latest(s)
    ensures Latest(StartCall(s))
  {
    if s.stop == Idle {
      if !NoneRunning(s.procs) {
        var p: nat :| Running(s.procs, p);
      }
      StartBodyLatest(s);
    } else {
      SameLatest(s, StartCall(s));
    }
  }

  lemma SigkillLatest(s: State, kill: Kill)
    requires Latest(s) && s.stop.Waiting? && s.stop.p < |s.procs|
    ensures Latest(SigkillTimer(s, kill))
  {
    if Running(s.procs, s.stop.p) && kill == Refused {
      ErrorLatest(s, s.stop.p);
    } else {
      SameLatest(s, SigkillTimer(s, kill));
    }
  }

  lemma {:induction false} RunLatest(s: State, run: seq<Label>)
    requires Inv(s) && Latest(s) && Possible(s, run)
    ensures Inv(Reached(s, run)) && Latest(Reached(s, run))
    decreases |run|
  {
    if run != [] {
      StepKeeps(s, run[0]);
      StepLatest(s, run[0]);
      RunLatest(Step(s, run[0]), run[1..]);
    }
  }

  // ----- what draining can change

  /** No continuation in the queue leads to a spawn. */
  ghost predicate NoneReleased(q: seq<Task>) {
    forall t | t in q :: t != Resume(true) && !t.TermDone?
  }

  ghost predicate NoTermination(q: seq<Task>) {
    forall t | t in q :: !IsTerm(t)
  }

  lemma TaskNoneReleased(s: State)
    requires s.queue != [] && NoneReleased(s.queue)
    ensures NoneReleased(RunTask(s).queue) && RunTask(s).procs == s.procs
  {
    assert forall t | t in s.queue[1..] :: t in s.queue;
    assert s.queue[0] in s.queue;
  }

  lemma TaskNoTermination(s: State)
    requires s.queue != [] && NoneReleased(s.queue) && NoTermination(s.queue)
    ensures NoTermination(RunTask(s).queue) && RunTask(s).child == s.child
  {
    assert forall t | t in s.queue[1..] :: t in s.queue;
    assert s.queue[0] in s.queue;
  }

  /** Without a released start nothing is spawned; without an end of `terminate` the owner stays as well. */
  lemma {:induction false} DrainQuiet(s: State)
    requires NoneReleased(s.queue)
    ensures Drain(s).procs == s.procs
    ensures NoTermination(s.queue) ==> Drain(s).child == s.child
    decreases Work(s)
  {
    if s.queue != [] {
      WorkShrinks(s);
      TaskNoneReleased(s);
      if NoTermination(s.queue) { TaskNoTermination(s); }
      DrainQuiet(RunTask(s));
    }
  }

  /** Only rejections of starts that followed a stop which ended well, and their ends. */
  ghost predicate Rejections(q: seq<Task>) {
    forall t | t in q :: t == StartDone || (t.After? && t.ok)
  }

  ghost predicate SomeRejection(q: seq<Task>) {
    exists i :: 0 <= i < |q| && q[i].After?
  }

  lemma TaskRejects(s: State)
    requires s.queue != [] && Rejections(s.queue)
    ensures Rejections(RunTask(s).queue)
    ensures s.queue[0].After? ==> RunTask(s).status == Failed
    ensures !s.queue[0].After? ==>
      RunTask(s).status == s.status && SomeRejection(s.queue) == SomeRejection(RunTask(s).queue)
  {
    var rest := s.queue[1..];
    assert s.queue[0] in s.queue && forall t | t in rest :: t in s.queue;
    Pushed(rest, StartDone);
    if !s.queue[0].After? && SomeRejection(s.queue) {
      var i :| 0 <= i < |s.queue| && s.queue[i].After?;
      assert rest[i - 1].After?;
    }
  }

  /** They leave `failed` behind. */
  lemma {:induction false} DrainRejects(s: State)
    requires Rejections(s.queue)
    ensures Drain(s).status == if SomeRejection(s.queue) then Failed else s.status
    decreases Work(s)
  {
    if s.queue != [] {
      WorkShrinks(s);
      TaskRejects(s);
      DrainRejects(RunTask(s));
    }
  }

  /** A status of `failed` stays, whatever is drained, unless a start is released or a stop ends. */
  lemma {:induction false} DrainFailed(s: State)
    requires NoneReleased(s.queue) && NoTermination(s.queue) && s.status == Failed
    ensures Drain(s).status == Failed
    decreases Work(s)
  {
    if s.queue != [] {
      WorkShrinks(s);
      TaskNoneReleased(s);
      TaskNoTermination(s);
      assert s.queue[0] in s.queue;
      DrainFailed(RunTask(s));
    }
  }

  lemma AftersReject(followers: seq<nat>)
    ensures var q := Afters(followers, true);
      && Rejections(q) && NoneReleased(q) && NoTermination(q)
      && (SomeRejection(q) <==> followers != [])
  {
    var q := Afters(followers, true);
    assert followers != [] ==> q[0].After?;
  }

  /** Released starts that find a child or a pending start change nothing. */
  lemma {:induction false} DrainHeld(s: State, n: nat, tail: seq<Task>)
    requires s.queue == Resumes(n, true) + tail && (s.child.Some? || s.startPromise)
    ensures Drain(s) == Drain(s.(queue := tail))
    decreases n
  {
    if n == 0 {
      assert s.queue == tail;
    } else {
      assert s.queue[0] == Resumes(n, true)[0];
      assert s.queue[1..] == Resumes(n - 1, true) + tail;
      DrainHeld(s.(queue := s.queue[1..]), n - 1, tail);
    }
  }

  /** The first released start that finds neither spawns the process the others then find. */
  lemma DrainReleased(s: State, n: nat, tail: seq<Task>)
    requires s.queue == Resumes(n, true) + tail && n > 0 && s.child.None? && !s.startPromise
    requires NoneReleased(tail) && NoTermination(tail) && Rejections(tail)
    ensures Drain(s).procs == SpawnExecutor(s).procs && Drain(s).child == Some(|s.procs|)
    ensures Drain(s).status == if SomeRejection(tail) then Failed else Starting
  {
    assert s.queue[0] == Resumes(n, true)[0];
    assert s.queue[1..] == Resumes(n - 1, true) + tail;
    var t := SpawnExecutor(s.(queue := s.queue[1..]));
    assert RunTask(s) == t;
    DrainHeld(t, n - 1, tail);
    DrainQuiet(t.(queue := tail));
    DrainRejects(t.(queue := tail));
  }

  // ----- after the awaited child has exited

  /** The starts that wait will be served: none of them is left to share a start that ran out of time. */
  ghost predicate Served(s: State, p: nat)
    requires p < |s.procs|
  {
    s.waiting > 0 && !(s.unsettled == Some(p) && s.procs[p].timedOut)
  }

  /** The state in which the starts are released. */
  ghost function Released(s: State, p: nat): State
    requires p < |s.procs|
  {
    var settled := s.unsettled == Some(p) && !s.procs[p].timedOut;
    State(s.procs[p := s.procs[p].(running := false, timer := false)], None,
      if settled then false else s.startPromise, if settled then None else s.unsettled,
      Idle, false, 0, [], Stopped, Resumes(s.waiting, true) + Afters(s.followers, true))
  }

  lemma ExitForm(s: State, p: nat)
    requires s.queue == [] && p < |s.procs| && s.stop.Waiting? && s.stop.p == p
    ensures var settled := s.unsettled == Some(p) && !s.procs[p].timedOut;
      var t := Exit(s, p);
      && t.queue == (if settled then [StartDone] else []) + [TermDone(p)]
      && t.procs == s.procs[p := s.procs[p].(running := false, timer := false)] && t.child == None
      && t.startPromise == s.startPromise && t.unsettled == (if settled then None else s.unsettled)
      && t.stop == Closing(p) && t.waiting == s.waiting && t.followers == s.followers
  {
  }

  /** The exit ends the stop, and the stop releases the starts before it rejects the one it followed. */
  lemma ExitReleases(s: State, p: nat)
    requires s.queue == [] && p < |s.procs| && s.stop.Waiting? && s.stop.p == p
    ensures Drain(Exit(s, p)) == Drain(Released(s, p))
  {
    ExitForm(s, p);
    var t := Exit(s, p);
    var settled := s.unsettled == Some(p) && !s.procs[p].timedOut;
    var u := if settled then RunTask(t) else t;
    assert u.queue == [TermDone(p)];
    TermReleases(u, p);
    assert Released(s, p) == u.(stop := Idle, stopping := false, status := Stopped, waiting := 0, followers := [],
      queue := Resumes(u.waiting, true) + Afters(u.followers, true));
  }

  lemma TermReleases(u: State, p: nat)
    requires u.queue == [TermDone(p)]
    ensures Drain(u) == Drain(u.(stop := Idle, stopping := false, status := Stopped, waiting := 0, followers := [],
      queue := Resumes(u.waiting, true) + Afters(u.followers, true)))
  {
    var v := RunTask(u);
    assert u.queue[1..] == [];
    assert v.queue == [StopDone(true)] + Resumes(u.waiting, true);
    assert v.queue[1..] == Resumes(u.waiting, true);
    assert RunTask(v) == u.(stop := Idle, stopping := false, status := Stopped, waiting := 0, followers := [],
      queue := Resumes(u.waiting, true) + Afters(u.followers, true));
  }

  /**
   When the awaited child exits and the continuations have run, a process has been spawned, runs and is
   the owned child exactly if a start was waiting and did not share the start that the stop follows: one
   whose handshake ran out of time is rejected only after the waiting starts have found it pending. The
   last thing reported is that rejection, if there was one.
   */
  lemma StartAfterStop(run: seq<Label>, p: nat)
    requires Possible(Init(), run)
    requires var s := Reached(Init(), run);
      Enabled(s, Exited(p)) && s.stop.Waiting? && s.stop.p == p
    ensures var s := Reached(Init(), run);
      var t := Drain(Step(s, Exited(p)));
      && t.queue == []
      && (if Served(s, p) then |t.procs| == |s.procs| + 1 && t.child == Some(|s.procs|) && Running(t.procs, |s.procs|)
          else |t.procs| == |s.procs| && t.child == None && NoneRunning(t.procs))
      && t.status == if s.followers != [] then Failed else if Served(s, p) then Starting else Stopped
  {
    var s := Reached(Init(), run);
    RunLatest(Init(), run);
    var n := DrainIsRun(Exit(s, p));
    ExitReleases(s, p);
    if Served(s, p) {
      AnswerServed(s, p);
    } else {
      NoneServed(s, p);
      NoneLeft(s, p);
    }
  }

  lemma AnswerServed(s: State, p: nat)
    requires Latest(s) && s.queue == [] && p < |s.procs| && Served(s, p)
    requires p == |s.procs| - 1
    ensures var t := Drain(Released(s, p));
      && |t.procs| == |s.procs| + 1 && t.child == Some(|s.procs|) && Running(t.procs, |s.procs|)
      && t.status == if s.followers != [] then Failed else Starting
  {
    AftersReject(s.followers);
    DrainReleased(Released(s, p), s.waiting, Afters(s.followers, true));
  }

  lemma NoneServed(s: State, p: nat)
    requires StartTasks(s) && p < |s.procs| && !Served(s, p)
    ensures Drain(Released(s, p)).procs == Released(s, p).procs && Drain(Released(s, p)).child == None
    ensures Drain(Released(s, p)).status == if s.followers != [] then Failed else Stopped
  {
    var r, tail := Released(s, p), Afters(s.followers, true);
    AftersReject(s.followers);
    if s.waiting == 0 {
      assert r.queue == tail;
    } else {
      DrainHeld(r, s.waiting, tail);
    }
    DrainQuiet(r.(queue := tail));
    DrainRejects(r.(queue := tail));
  }

  lemma NoneLeft(s: State, p: nat)
    requires Latest(s) && Running(s.procs, p)
    ensures NoneRunning(Released(s, p).procs)
  {
    var r := Released(s, p);
    forall q: nat ensures !Running(r.procs, q) {
      assert q != p && Running(r.procs, q) ==> Running(s.procs, q);
    }
  }

  // ----- when the stop fails

  /** A stop that fails releases the starts that wait for it without letting them spawn, and keeps its live child. */
  lemma NoStartAfterFailedStop(run: seq<Label>, l: Label)
    requires Possible(Init(), run)
    requires var s := Reached(Init(), run);
      && s.queue == [] && s.stop.Waiting? && Running(s.procs, s.stop.p) && Enabled(s, l)
      && (l == SigkillUnconfirmed || (l.SigtermIgnored? && l.kill != Delivered))
    ensures var s := Reached(Init(), run);
      var t := Drain(Step(s, l));
      && t.queue == [] && |t.procs| == |s.procs| && t.child == Some(s.stop.p) && Running(t.procs, s.stop.p)
      && t.status == Failed
  {
    var s := Reached(Init(), run);
    RunLatest(Init(), run);
    StepKeeps(s, l);
    var p, u := s.stop.p, Step(s, l);
    var n := DrainIsRun(u);
    RejectedForm(s, l);
    RejectedKeeps(u, p);
  }

  lemma RejectedForm(s: State, l: Label)
    requires s.queue == [] && s.stop.Waiting? && Running(s.procs, s.stop.p) && Enabled(s, l)
    requires l == SigkillUnconfirmed || (l.SigtermIgnored? && l.kill != Delivered)
    ensures var u := Step(s, l);
      && (u.queue == [TermFailed(s.stop.p)] || u.queue == [StartDone, TermFailed(s.stop.p)])
      && |u.procs| == |s.procs| && Running(u.procs, s.stop.p)
  {
  }

  lemma RejectedKeeps(u: State, p: nat)
    requires u.queue == [TermFailed(p)] || u.queue == [StartDone, TermFailed(p)]
    requires Running(u.procs, p)
    ensures Drain(u).procs == u.procs && Drain(u).child == Some(p) && Drain(u).status == Failed
  {
    if u.queue == [StartDone, TermFailed(p)] {
      assert u.queue[1..] == [TermFailed(p)];
      FailedKeeps(RunTask(u), p);
    } else {
      FailedKeeps(u, p);
    }
  }

  lemma FailedKeeps(u: State, p: nat)
    requires u.queue == [TermFailed(p)] && Running(u.procs, p)
    ensures Drain(u).procs == u.procs && Drain(u).child == Some(p) && Drain(u).status == Failed
  {
    var v := RunTask(u);
    assert v.queue == [StopDone(false)] + Resumes(u.waiting, false);
    DrainQuiet(v);
    DrainFailed(v);
  }

  // ----- a start with nothing in its way

  /**
   A start spawns one process, which it owns, exactly if no stop, no child and no start is there; with a
   stop in the way it joins those who wait for it.
   */
  lemma StartSpawnsExactlyWhen(s: State)
    ensures var t := StartCall(s);
      if s.stop == Idle && s.child.None? && !s.startPromise
      then |t.procs| == |s.procs| + 1 && t.child == Some(|s.procs|) && Running(t.procs, |s.procs|)
      else t.procs == s.procs && t.child == s.child
    ensures s.stop.Waiting? || s.stop.Closing? ==> StartCall(s).waiting == s.waiting + 1
    ensures s.stop.Settled? ==> Resume(s.stop.ok) in StartCall(s).queue
  {
    if s.stop.Settled? {
      Pushed(s.queue, Resume(s.stop.ok));
    }
  }

  /** A start that shares a start out of time: the child exits, and nothing is spawned. */
  lemma SharedStartIsLost()
    ensures var run := [CallStart, TimedOut(0, Delivered), CallStart];
      && Possible(Init(), run)
      && var s := Reached(Init(), run);
         && s.waiting == 1 && Enabled(s, Exited(0)) && s.stop.Waiting? && s.stop.p == 0
         && |Drain(Step(s, Exited(0))).procs| == 1 && Drain(Step(s, Exited(0))).child == None
  {
    var run := [CallStart, TimedOut(0, Delivered), CallStart];
    var a := Step(Init(), CallStart);
    var b := Step(a, TimedOut(0, Delivered));
    var c := Step(b, CallStart);
    assert run[1..] == [TimedOut(0, Delivered), CallStart] && run[1..][1..] == [CallStart] && run[1..][1..][1..] == [];
    assert Possible(b, [CallStart]) && Reached(b, [CallStart]) == c;
    assert Possible(a, run[1..]) && Reached(a, run[1..]) == c;
    assert Reached(Init(), run) == c;
    StartAfterStop(run, 0);
  }
}
