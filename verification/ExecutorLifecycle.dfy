/**
 `ExecutorLifecycle`: the supervisor of the Run executor process, as a machine over its
 steps. A step is what runs between two suspensions: a call of `start` or `stop`, an event
 of a child process, a timer, or the continuation of a promise. Continuations wait in a
 first-in-first-out queue, and events and timers come only when that queue is empty; calls
 may come at any moment. `restart` is a `stop` whose continuation calls `start`.
 */
module ExecutorLifecycle {
  import opened Options

  datatype Status = Stopped | Starting | Ready | Failed

  /** A spawned process: whether its exit is still outstanding, and the handlers and flags of its start. */
  datatype Proc = Proc(running: bool, errorHandler: bool, lineHandler: bool, timer: bool, ready: bool, timedOut: bool)

  /** `stopPromise`: absent, waiting for the exit of a child, about to settle, or settled but not yet cleared. */
  datatype Stop = Idle | Waiting(p: nat, sigkill: bool) | Closing(p: nat) | Settled(ok: bool)

  /** The continuations of pending promises. */
  datatype Task =
    | TermDone(p: nat)
    | TermFailed(p: nat)
    | StopDone(ok: bool)
    | Resume(ok: bool)
    | StartDone
    | After(p: nat, ok: bool)

  /** What `child.kill` does: deliver the signal, find the process gone, or emit `error` at once. */
  datatype Kill = Delivered | Gone | Refused

  datatype State = State(
    procs: seq<Proc>,
    child: Option<nat>,
    startPromise: bool,
    unsettled: Option<nat>,
    stop: Stop,
    stopping: bool,
    waiting: nat,
    followers: seq<nat>,
    status: Status,
    queue: seq<Task>)

  function Init(): State {
    State([], None, false, None, Idle, false, 0, [], Stopped, [])
  }

  predicate Running(procs: seq<Proc>, p: nat) {
    p < |procs| && procs[p].running
  }

  ghost predicate NoneRunning(procs: seq<Proc>) {
    forall p: nat :: !Running(procs, p)
  }

  // ----- the pieces of a step

  /** `resolve` or `reject` of the start of `p`; only the first one counts. */
  function Settle(s: State, p: nat): State {
    if s.unsettled == Some(p) then s.(unsettled := None, queue := s.queue + [StartDone]) else s
  }

  function SpawnExecutor(s: State): State {
    s.(procs := s.procs + [Proc(true, true, true, true, false, false)],
       child := Some(|s.procs|), startPromise := true, unsettled := Some(|s.procs|), status := Starting)
  }

  /** `start` once no stop is pending: an owned child or a pending start is enough. */
  function StartBody(s: State): State {
    if s.child.Some? || s.startPromise then s else SpawnExecutor(s)
  }

  function StartCall(s: State): State {
    match s.stop
    case Idle => StartBody(s)
    case Settled(ok) => s.(queue := s.queue + [Resume(ok)])
    case _ => s.(waiting := s.waiting + 1)
  }

  /** The promise inside `terminate` rejects. */
  function Reject(s: State, p: nat): State {
    s.(stop := Closing(p), queue := s.queue + [TermFailed(p)])
  }

  /** An `error` event: the handler of the start, if still registered, then the one of `terminate`. */
  function ErrorEvent(s: State, p: nat): State
    requires p < |s.procs|
  {
    var t :=
      if s.procs[p].errorHandler then
        Settle(s.(procs := s.procs[p := s.procs[p].(errorHandler := false, timer := false)], child := None,
          status := Failed), p)
      else s;
    if t.stop.Waiting? && t.stop.p == p then Reject(t, p) else t
  }

  /** `terminate` up to its first suspension. */
  function Terminate(s: State, kill: Kill): State
  {
    if s.child.Some? && Running(s.procs, s.child.value) then
      var t := s.(stopping := true, stop := Waiting(s.child.value, false));
      if kill == Refused then ErrorEvent(t, s.child.value) else t
    else
      s.(stopping := false, child := None, status := Stopped, stop := Settled(true),
        queue := s.queue + [StopDone(true)])
  }

  function StopCall(s: State, kill: Kill): State
  {
    if s.stop == Idle then Terminate(s, kill) else s
  }

  /** `rejectAfterStop`. */
  function FollowStop(s: State, p: nat, kill: Kill): State
  {
    var t := StopCall(s, kill);
    t.(followers := t.followers + [p])
  }

  function Resumes(n: nat, ok: bool): (r: seq<Task>)
    ensures |r| == n && forall i | 0 <= i < n :: r[i] == Resume(ok)
  {
    seq(n, i => Resume(ok))
  }

  function Afters(followers: seq<nat>, ok: bool): (r: seq<Task>)
    ensures |r| == |followers| && forall i | 0 <= i < |r| :: r[i] == After(followers[i], ok)
  {
    seq(|followers|, i requires 0 <= i < |followers| => After(followers[i], ok))
  }

  /** `terminate` returns or throws; everyone who awaits the stop is released, its own caller first. */
  function StopSettles(s: State, ok: bool, status: Status): State {
    s.(stop := Settled(ok), stopping := false, status := status,
       queue := s.queue + [StopDone(ok)] + Resumes(s.waiting, ok), waiting := 0)
  }

  function RunTask(s: State): State
    requires s.queue != []
  {
    var t := s.(queue := s.queue[1..]);
    match s.queue[0]
    case TermDone(p) => StopSettles(t, true, Stopped)
    case TermFailed(p) => StopSettles(if Running(t.procs, p) then t.(child := Some(p)) else t, false, Failed)
    case StopDone(ok) => t.(stop := Idle, followers := [], queue := t.queue + Afters(t.followers, ok))
    case Resume(ok) => if ok then StartBody(t) else t
    case StartDone => t.(startPromise := false)
    case After(p, ok) => Settle(if ok then t.(status := Failed) else t, p)
  }

  function Exit(s: State, p: nat): State
    requires p < |s.procs|
  {
    var proc := s.procs[p];
    var gone := s.(procs := s.procs[p := proc.(running := false, timer := false)], child := None);
    var t :=
      if proc.timedOut then gone
      else Settle(gone.(status := if proc.ready && s.stopping then Stopped else Failed), p);
    if t.stop.Waiting? && t.stop.p == p then t.(stop := Closing(p), queue := t.queue + [TermDone(p)]) else t
  }

  /** The process could not be started: Node records an exit code and emits `error`. */
  function SpawnError(s: State, p: nat): State
    requires p < |s.procs|
  {
    ErrorEvent(s.(procs := s.procs[p := s.procs[p].(running := false)]), p)
  }

  function Line(s: State, p: nat, valid: bool, kill: Kill): State
    requires p < |s.procs|
  {
    var proc := s.procs[p].(lineHandler := false, timer := false, ready := s.procs[p].ready || valid);
    var t := s.(procs := s.procs[p := proc]);
    if valid then Settle(t.(status := Ready), p) else FollowStop(t, p, kill)
  }

  function HandshakeTimeout(s: State, p: nat, kill: Kill): State
    requires p < |s.procs|
  {
    FollowStop(s.(procs := s.procs[p := s.procs[p].(timer := false, timedOut := true)]), p, kill)
  }

  /** Eight seconds after SIGTERM. */
  function SigkillTimer(s: State, kill: Kill): State
    requires s.stop.Waiting? && s.stop.p < |s.procs|
  {
    var p := s.stop.p;
    if !Running(s.procs, p) then s
    else
      match kill
      case Delivered => s.(stop := Waiting(p, true))
      case Gone => Reject(s, p)
      case Refused => ErrorEvent(s, p)
  }

  // ----- steps and runs

  datatype Label =
    | CallStart
    | CallStop(kill: Kill)
    | Continue
    | Exited(p: nat)
    | SpawnFailed(p: nat)
    | LineRead(p: nat, valid: bool, kill: Kill)
    | TimedOut(p: nat, kill: Kill)
    | SigtermIgnored(kill: Kill)
    | SigkillUnconfirmed

  /**
   A spawn failure is reported on the next tick, which may precede pending continuations; every other
   event waits for them.
   */
  predicate Enabled(s: State, l: Label) {
    match l
    case CallStart => true
    case CallStop(_) => true
    case Continue => s.queue != []
    case Exited(p) => s.queue == [] && Running(s.procs, p)
    case SpawnFailed(p) => Running(s.procs, p) && s.procs[p].errorHandler
    case LineRead(p, _, _) => s.queue == [] && p < |s.procs| && s.procs[p].lineHandler
    case TimedOut(p, _) => s.queue == [] && p < |s.procs| && s.procs[p].timer
    case SigtermIgnored(_) => s.queue == [] && s.stop.Waiting? && !s.stop.sigkill && s.stop.p < |s.procs|
    case SigkillUnconfirmed => s.queue == [] && s.stop.Waiting? && s.stop.sigkill
  }

  function Step(s: State, l: Label): State
    requires Enabled(s, l)
  {
    match l
    case CallStart => StartCall(s)
    case CallStop(kill) => StopCall(s, kill)
    case Continue => RunTask(s)
    case Exited(p) => Exit(s, p)
    case SpawnFailed(p) => SpawnError(s, p)
    case LineRead(p, valid, kill) => Line(s, p, valid, kill)
    case TimedOut(p, kill) => HandshakeTimeout(s, p, kill)
    case SigtermIgnored(kill) => SigkillTimer(s, kill)
    case SigkillUnconfirmed => Reject(s, s.stop.p)
  }

  ghost predicate Possible(s: State, run: seq<Label>)
    decreases |run|
  {
    run != [] ==> Enabled(s, run[0]) && Possible(Step(s, run[0]), run[1..])
  }

  ghost function Reached(s: State, run: seq<Label>): State
    requires Possible(s, run)
    decreases |run|
  {
    if run == [] then s else Reached(Step(s, run[0]), run[1..])
  }

  // ----- the invariant

  /** The owned child runs; a running process is owned, or a failed stop is about to take it back. */
  ghost predicate Owned(s: State) {
    && (s.child.Some? ==> Running(s.procs, s.child.value))
    && (forall p: nat | Running(s.procs, p) :: s.child == Some(p) || (s.child == None && s.stop == Closing(p)))
    && (s.stop.Waiting? ==> s.child == Some(s.stop.p))
  }

  predicate IsTerm(t: Task) {
    t.TermDone? || t.TermFailed?
  }

  /** The continuation of `terminate` is queued exactly while the stop is closing, and once. */
  ghost predicate TermTasks(s: State) {
    && (forall i | 0 <= i < |s.queue| && IsTerm(s.queue[i]) :: s.stop == Closing(s.queue[i].p))
    && (forall i, j | 0 <= i < j < |s.queue| :: !(IsTerm(s.queue[i]) && IsTerm(s.queue[j])))
    && (s.stop.Closing? ==> TermDone(s.stop.p) in s.queue || TermFailed(s.stop.p) in s.queue)
  }

  /** A stop that ends well finds nothing running, and no start released before it is still queued. */
  ghost predicate CleanTerm(s: State) {
    s.stop.Closing? && TermDone(s.stop.p) in s.queue ==>
      NoneRunning(s.procs) && Resume(true) !in s.queue
  }

  ghost predicate StopTasks(s: State) {
    && (forall i | 0 <= i < |s.queue| && s.queue[i].StopDone? :: s.stop == Settled(s.queue[i].ok))
    && (forall i, j | 0 <= i < j < |s.queue| :: !(s.queue[i].StopDone? && s.queue[j].StopDone?))
    && (s.stop.Settled? ==> StopDone(s.stop.ok) in s.queue)
    && (s.waiting > 0 ==> s.stop.Waiting? || s.stop.Closing?)
  }

  ghost predicate StartTasks(s: State) {
    && (s.unsettled.Some? ==> s.startPromise)
    && (StartDone in s.queue ==> s.startPromise && s.unsettled == None)
    && (forall i, j | 0 <= i < j < |s.queue| :: !(s.queue[i] == StartDone && s.queue[j] == StartDone))
  }

  /** A process that has neither answered nor run out of time. */
  predicate Fresh(procs: seq<Proc>, p: nat) {
    p < |procs| && procs[p].lineHandler && !procs[p].timedOut
  }

  /** Only starts that failed their handshake wait for a stop to be rejected. */
  ghost predicate FailedHandshakes(s: State) {
    && (forall i | 0 <= i < |s.followers| :: s.followers[i] < |s.procs| && !Fresh(s.procs, s.followers[i]))
    && (forall i | 0 <= i < |s.queue| && s.queue[i].After? :: s.queue[i].p < |s.procs| && !Fresh(s.procs, s.queue[i].p))
  }

  /** While a clean stop is settled, a running process is one whose start has just begun. */
  ghost predicate JustStarted(s: State) {
    s.stop == Settled(true) ==> forall p: nat | Running(s.procs, p) :: s.unsettled == Some(p) && Fresh(s.procs, p)
  }

  /** A start that was released finds a pending start whenever a process runs. */
  ghost predicate HeldBack(s: State) {
    NoneRunning(s.procs) || Covered(s)
  }

  ghost predicate Covered(s: State) {
    forall i | 0 <= i < |s.queue| && s.queue[i] == Resume(true) :: s.startPromise && StartDone !in s.queue[..i]
  }

  ghost predicate Inv(s: State) {
    && Owned(s) && TermTasks(s) && CleanTerm(s) && StopTasks(s) && StartTasks(s)
    && FailedHandshakes(s) && JustStarted(s) && HeldBack(s)
  }

  // ----- every step keeps it

  lemma Pushed(q: seq<Task>, t: Task)
    ensures forall u :: u in q + [t] <==> u in q || u == t
    ensures forall i | 0 <= i <= |q| :: (q + [t])[..i] == q[..i]
  {
  }

  lemma SettleKeeps(s: State, p: nat)
    requires Inv(s)
    requires s.stop == Settled(true) ==> !Running(s.procs, p)
    ensures Inv(Settle(s, p))
  {
    Pushed(s.queue, StartDone);
  }

  lemma StartBodyKeeps(s: State)
    requires Inv(s) && (s.stop.Closing? ==> TermDone(s.stop.p) !in s.queue)
    requires forall p: nat | Running(s.procs, p) :: s.child.Some? || s.startPromise
    ensures Inv(StartBody(s))
  {
    if !s.child.Some? && !s.startPromise {
      var t := SpawnExecutor(s);
      assert forall p: nat | Running(t.procs, p) :: p == |s.procs| || Running(s.procs, p);
      assert forall p: nat :: !Running(s.procs, p);
      assert StartDone !in s.queue;
    }
  }

  lemma ReleasedKeeps(s: State, ok: bool)
    requires Inv(s) && s.stop == Settled(ok)
    ensures Inv(s.(queue := s.queue + [Resume(ok)]))
  {
    Pushed(s.queue, Resume(ok));
  }

  lemma StartCallKeeps(s: State)
    requires Inv(s)
    ensures Inv(StartCall(s))
  {
    match s.stop
    case Idle => StartBodyKeeps(s);
    case Settled(ok) => ReleasedKeeps(s, ok);
    case _ =>
  }

  lemma RejectKeeps(s: State)
    requires Inv(s) && s.stop.Waiting?
    ensures Inv(Reject(s, s.stop.p))
  {
    Pushed(s.queue, TermFailed(s.stop.p));
  }

  /** Losing the child is harmless while the rejected stop is about to look at it. */
  lemma LostKeeps(s: State, p: nat, procs: seq<Proc>, status: Status)
    requires Inv(s) && s.stop == Closing(p) && TermFailed(p) in s.queue
    requires |procs| == |s.procs| && forall q: nat | q < |procs| ::
      (Running(procs, q) ==> Running(s.procs, q)) && (Fresh(procs, q) ==> Fresh(s.procs, q))
    requires s.child == Some(p)
    ensures Inv(s.(procs := procs, child := None, status := status))
  {
  }

  predicate SameOrLess(procs: seq<Proc>, earlier: seq<Proc>) {
    && |procs| == |earlier|
    && forall q: nat | q < |procs| ::
         (Running(procs, q) ==> Running(earlier, q)) && (Fresh(procs, q) ==> Fresh(earlier, q))
  }

  lemma GoneKeeps(s: State, p: nat, procs: seq<Proc>, status: Status)
    requires Inv(s) && Running(s.procs, p) && s.stop != Waiting(p, false) && s.stop != Waiting(p, true)
    requires SameOrLess(procs, s.procs) && !Running(procs, p)
    ensures Inv(s.(procs := procs, child := None, status := status))
    ensures NoneRunning(procs)
  {
    assert forall q: nat | Running(procs, q) :: Running(s.procs, q);
  }

  lemma ErrorInStop(s: State, p: nat, sigkill: bool)
    requires Inv(s) && s.stop == Waiting(p, sigkill)
    ensures Inv(ErrorEvent(s, p))
  {
    if s.procs[p].errorHandler {
      var procs := s.procs[p := s.procs[p].(errorHandler := false, timer := false)];
      SettleKeeps(s, p);
      RejectKeeps(Settle(s, p));
      LostKeeps(Reject(Settle(s, p), p), p, procs, Failed);
      assert ErrorEvent(s, p) == Reject(Settle(s, p), p).(procs := procs, child := None, status := Failed);
    } else {
      RejectKeeps(s);
    }
  }

  lemma SpawnErrorForm(s: State, p: nat, procs: seq<Proc>)
    requires Running(s.procs, p) && s.procs[p].errorHandler
    requires procs == s.procs[p := s.procs[p].(running := false, errorHandler := false, timer := false)]
    ensures SpawnError(s, p)
         == if s.stop.Waiting? && s.stop.p == p
            then Reject(Settle(s, p), p).(procs := procs, child := None, status := Failed)
            else Settle(s.(procs := procs, child := None, status := Failed), p)
  {
    var dead := s.procs[p := s.procs[p].(running := false)];
    assert dead[p := dead[p].(errorHandler := false, timer := false)] == procs;
  }

  lemma SpawnErrorKeeps(s: State, p: nat)
    requires Inv(s) && Running(s.procs, p) && s.procs[p].errorHandler
    ensures Inv(SpawnError(s, p))
  {
    var procs := s.procs[p := s.procs[p].(running := false, errorHandler := false, timer := false)];
    SpawnErrorForm(s, p, procs);
    assert SameOrLess(procs, s.procs) && !Running(procs, p);
    if s.stop.Waiting? {
      SettleKeeps(s, p);
      RejectKeeps(Settle(s, p));
      LostKeeps(Reject(Settle(s, p), p), p, procs, Failed);
    } else {
      GoneKeeps(s, p, procs, Failed);
      SettleKeeps(s.(procs := procs, child := None, status := Failed), p);
    }
  }

  /** The exit a stop was waiting for: nothing runs any more, and nothing else is queued. */
  lemma ExitInStop(s: State, p: nat, procs: seq<Proc>, status: Status, settle: bool)
    requires Inv(s) && s.queue == [] && s.stop.Waiting? && s.stop.p == p
    requires SameOrLess(procs, s.procs) && !Running(procs, p)
    requires settle ==> s.unsettled == Some(p)
    ensures Inv(s.(procs := procs, child := None, status := status, stop := Closing(p),
                   unsettled := if settle then None else s.unsettled,
                   queue := if settle then [StartDone, TermDone(p)] else [TermDone(p)]))
  {
    assert forall q: nat | Running(procs, q) :: Running(s.procs, q);
    assert NoneRunning(procs);
  }

  lemma ExitForm(s: State, p: nat, procs: seq<Proc>, status: Status, settle: bool)
    requires Running(s.procs, p) && s.queue == []
    requires procs == s.procs[p := s.procs[p].(running := false, timer := false)]
    requires status
         == if s.procs[p].timedOut then s.status else if s.procs[p].ready && s.stopping then Stopped else Failed
    requires settle <==> !s.procs[p].timedOut && s.unsettled == Some(p)
    ensures Exit(s, p)
         == if s.stop.Waiting? && s.stop.p == p then
              s.(procs := procs, child := None, status := status, stop := Closing(p),
                 unsettled := if settle then None else s.unsettled,
                 queue := if settle then [StartDone, TermDone(p)] else [TermDone(p)])
            else if s.procs[p].timedOut then s.(procs := procs, child := None, status := status)
            else Settle(s.(procs := procs, child := None, status := status), p)
  {
  }

  lemma ExitKeeps(s: State, p: nat)
    requires Inv(s) && s.queue == [] && Running(s.procs, p)
    ensures Inv(Exit(s, p))
  {
    var procs := s.procs[p := s.procs[p].(running := false, timer := false)];
    var status := if s.procs[p].timedOut then s.status else if s.procs[p].ready && s.stopping then Stopped else Failed;
    var settle := !s.procs[p].timedOut && s.unsettled == Some(p);
    ExitForm(s, p, procs, status, settle);
    assert SameOrLess(procs, s.procs) && !Running(procs, p);
    if s.stop.Waiting? {
      ExitInStop(s, p, procs, status, settle);
    } else {
      GoneKeeps(s, p, procs, status);
      SettleKeeps(s.(procs := procs, child := None, status := status), p);
    }
  }

  lemma StopCallKeeps(s: State, kill: Kill)
    requires Inv(s)
    ensures Inv(StopCall(s, kill))
  {
    if s.stop == Idle {
      if s.child.Some? {
        var t := s.(stopping := true, stop := Waiting(s.child.value, false));
        WaitKeeps(s);
        if kill == Refused {
          ErrorInStop(t, s.child.value, false);
        }
      } else {
        NothingToStop(s);
      }
    }
  }

  lemma WaitKeeps(s: State)
    requires Inv(s) && s.stop == Idle && s.child.Some?
    ensures Inv(s.(stopping := true, stop := Waiting(s.child.value, false)))
  {
  }

  lemma NothingToStop(s: State)
    requires Inv(s) && s.stop == Idle && s.child == None
    ensures Inv(s.(stopping := false, status := Stopped, stop := Settled(true), queue := s.queue + [StopDone(true)]))
  {
    Pushed(s.queue, StopDone(true));
  }

  lemma FollowKeeps(s: State, p: nat, kill: Kill)
    requires Inv(s) && p < |s.procs| && !Fresh(s.procs, p)
    ensures Inv(FollowStop(s, p, kill))
  {
    StopCallKeeps(s, kill);
    StopCallProcs(s, kill);
  }

  lemma StopCallProcs(s: State, kill: Kill)
    ensures SameOrLess(StopCall(s, kill).procs, s.procs)
  {
  }

  lemma HandshakeKeeps(s: State, p: nat, proc: Proc)
    requires Inv(s) && s.queue == [] && p < |s.procs|
    requires proc.running == s.procs[p].running && (proc.lineHandler ==> s.procs[p].lineHandler)
    requires (s.procs[p].timedOut ==> proc.timedOut)
    ensures Inv(s.(procs := s.procs[p := proc]))
  {
    assert forall q: nat :: Running(s.procs[p := proc], q) <==> Running(s.procs, q);
  }

  lemma LineKeeps(s: State, p: nat, valid: bool, kill: Kill)
    requires Inv(s) && s.queue == [] && p < |s.procs|
    ensures Inv(Line(s, p, valid, kill))
  {
    var proc := s.procs[p].(lineHandler := false, timer := false, ready := s.procs[p].ready || valid);
    HandshakeKeeps(s, p, proc);
    var t := s.(procs := s.procs[p := proc]);
    if valid {
      SettleKeeps(t.(status := Ready), p);
    } else {
      FollowKeeps(t, p, kill);
    }
  }

  lemma TimeoutKeeps(s: State, p: nat, kill: Kill)
    requires Inv(s) && s.queue == [] && p < |s.procs|
    ensures Inv(HandshakeTimeout(s, p, kill))
  {
    var proc := s.procs[p].(timer := false, timedOut := true);
    HandshakeKeeps(s, p, proc);
    FollowKeeps(s.(procs := s.procs[p := proc]), p, kill);
  }

  // ----- continuations

  lemma Popped(q: seq<Task>)
    requires q != []
    ensures forall u :: u in q <==> u == q[0] || u in q[1..]
    ensures forall i | 0 <= i <= |q| - 1 :: q[1..][..i] == q[1..i + 1] && forall u | u in q[1..][..i] :: u in q[..i + 1]
  {
  }

  /** Any task that is not the end of a stop can leave the queue. */
  lemma PopKeeps(s: State)
    requires Inv(s) && s.queue != [] && (s.queue[0].Resume? || s.queue[0].After? || s.queue[0] == StartDone)
    ensures Inv(s.(queue := s.queue[1..]))
  {
    Popped(s.queue);
  }

  lemma ResumeKeeps(s: State)
    requires Inv(s) && s.queue != [] && s.queue[0].Resume?
    ensures Inv(RunTask(s))
  {
    PopKeeps(s);
    Popped(s.queue);
    if s.queue[0].ok {
      assert s.queue[0] == Resume(true) && Resume(true) in s.queue;
      StartBodyKeeps(s.(queue := s.queue[1..]));
    }
  }

  lemma StartDoneKeeps(s: State)
    requires Inv(s) && s.queue != [] && s.queue[0] == StartDone
    ensures Inv(RunTask(s))
  {
    PopKeeps(s);
    Popped(s.queue);
    assert forall i | 0 < i < |s.queue| :: s.queue[0] in s.queue[..i];
  }

  lemma AfterKeeps(s: State)
    requires Inv(s) && s.queue != [] && s.queue[0].After?
    ensures Inv(RunTask(s))
  {
    PopKeeps(s);
    var t := s.(queue := s.queue[1..]);
    SettleKeeps(if s.queue[0].ok then t.(status := Failed) else t, s.queue[0].p);
  }

  lemma PushedMany(q: seq<Task>, ts: seq<Task>)
    ensures forall u :: u in q + ts <==> u in q || u in ts
    ensures forall i | 0 <= i <= |q| :: (q + ts)[..i] == q[..i]
  {
  }

  lemma StopDoneKeeps(s: State)
    requires Inv(s) && s.queue != [] && s.queue[0].StopDone?
    ensures Inv(RunTask(s))
  {
    StopForgotten(s);
    AftersKeep(s.(queue := s.queue[1..], stop := Idle, followers := []), s.followers, s.queue[0].ok);
  }

  lemma StopForgotten(s: State)
    requires Inv(s) && s.queue != [] && s.queue[0].StopDone?
    ensures Inv(s.(queue := s.queue[1..], stop := Idle, followers := []))
  {
    Popped(s.queue);
  }

  lemma AftersKeep(s: State, followers: seq<nat>, ok: bool)
    requires Inv(s) && s.stop == Idle
    requires forall i | 0 <= i < |followers| :: followers[i] < |s.procs| && !Fresh(s.procs, followers[i])
    ensures Inv(s.(queue := s.queue + Afters(followers, ok)))
  {
    PushedMany(s.queue, Afters(followers, ok));
  }

  lemma {:induction false} ReleaseAll(s: State, n: nat, ok: bool)
    requires Inv(s) && s.stop == Settled(ok)
    ensures Inv(s.(queue := s.queue + Resumes(n, ok)))
    decreases n
  {
    if n == 0 {
      assert s.queue + Resumes(0, ok) == s.queue;
    } else {
      ReleasedKeeps(s, ok);
      var t := s.(queue := s.queue + [Resume(ok)]);
      ReleaseAll(t, n - 1, ok);
      assert t.queue + Resumes(n - 1, ok) == s.queue + Resumes(n, ok);
    }
  }

  /** After a clean stop nothing runs, so the starts it releases may spawn. */
  lemma TermDoneKeeps(s: State)
    requires Inv(s) && s.queue != [] && s.queue[0].TermDone?
    ensures Inv(RunTask(s))
  {
    var t := s.(stop := Settled(true), stopping := false, status := Stopped, queue := s.queue[1..] + [StopDone(true)],
      waiting := 0);
    Popped(s.queue);
    Pushed(s.queue[1..], StopDone(true));
    assert Inv(t);
    ReleaseAll(t, s.waiting, true);
  }

  /** After a failed stop the child is owned again, and the starts that waited are rejected. */
  lemma TermFailedKeeps(s: State)
    requires Inv(s) && s.queue != [] && s.queue[0].TermFailed?
    ensures Inv(RunTask(s))
  {
    var child := if Running(s.procs, s.queue[0].p) then Some(s.queue[0].p) else s.child;
    var t := s.(child := child, stop := Settled(false), stopping := false, status := Failed,
                queue := s.queue[1..] + [StopDone(false)], waiting := 0);
    TakenBack(s, t);
    ReleaseAll(t, s.waiting, false);
  }

  lemma TakenBack(s: State, t: State)
    requires Inv(s) && s.queue != [] && s.queue[0].TermFailed?
    requires t
         == s.(child := if Running(s.procs, s.queue[0].p) then Some(s.queue[0].p) else s.child, stop := Settled(false),
                     stopping := false, status := Failed, queue := s.queue[1..] + [StopDone(false)], waiting := 0)
    ensures Inv(t)
  {
    Popped(s.queue);
    Pushed(s.queue[1..], StopDone(false));
  }

  lemma RunTaskKeeps(s: State)
    requires Inv(s) && s.queue != []
    ensures Inv(RunTask(s))
  {
    match s.queue[0]
    case TermDone(_) => TermDoneKeeps(s);
    case TermFailed(_) => TermFailedKeeps(s);
    case StopDone(_) => StopDoneKeeps(s);
    case Resume(_) => ResumeKeeps(s);
    case StartDone => StartDoneKeeps(s);
    case After(_, _) => AfterKeeps(s);
  }

  lemma StepKeeps(s: State, l: Label)
    requires Inv(s) && Enabled(s, l)
    ensures Inv(Step(s, l))
  {
    match l
    case CallStart => StartCallKeeps(s);
    case CallStop(kill) => StopCallKeeps(s, kill);
    case Continue => RunTaskKeeps(s);
    case Exited(p) => ExitKeeps(s, p);
    case SpawnFailed(p) => SpawnErrorKeeps(s, p);
    case LineRead(p, valid, kill) => LineKeeps(s, p, valid, kill);
    case TimedOut(p, kill) => TimeoutKeeps(s, p, kill);
    case SigtermIgnored(kill) => SigkillKeeps(s, kill);
    case SigkillUnconfirmed => RejectKeeps(s);
  }

  lemma SigkillKeeps(s: State, kill: Kill)
    requires Inv(s) && s.stop.Waiting?
    ensures Inv(SigkillTimer(s, kill))
  {
    match kill
    case Delivered =>
    case Gone => RejectKeeps(s);
    case Refused => ErrorInStop(s, s.stop.p, s.stop.sigkill);
  }

  // ----- the theorems

  ghost predicate AtMostOneRunning(s: State) {
    forall p: nat, q: nat | Running(s.procs, p) && Running(s.procs, q) :: p == q
  }

  lemma {:induction false} RunKeeps(s: State, run: seq<Label>)
    requires Inv(s) && Possible(s, run)
    ensures Inv(Reached(s, run))
    decreases |run|
  {
    if run != [] {
      StepKeeps(s, run[0]);
      RunKeeps(Step(s, run[0]), run[1..]);
    }
  }

  /** In every interleaving at most one spawned executor process is running. */
  lemma OneExecutor(run: seq<Label>)
    requires Possible(Init(), run)
    ensures AtMostOneRunning(Reached(Init(), run))
  {
    RunKeeps(Init(), run);
  }

  /** A step revives no process; it leaves their number alone, or adds one running process at the end. */
  ghost predicate Spawns(s: State, t: State) {
    && (forall q: nat | q < |s.procs| && Running(t.procs, q) :: Running(s.procs, q))
    && (|t.procs| == |s.procs| || (|t.procs| == |s.procs| + 1 && Running(t.procs, |s.procs|)))
  }

  lemma SpawnsAtEnd(s: State, l: Label)
    requires Enabled(s, l)
    ensures Spawns(s, Step(s, l))
  {
    match l
    case CallStart => StartSpawns(s);
    case CallStop(kill) => StopCallProcs(s, kill);
    case Continue => TaskSpawns(s);
    case Exited(p) => ExitProcs(s, p);
    case SpawnFailed(p) => SpawnErrorForm(s, p,
      s.procs[p := s.procs[p].(running := false, errorHandler := false, timer := false)]);
    case LineRead(p, valid, kill) => LineProcs(s, p, valid, kill);
    case TimedOut(p, kill) =>
      StopCallProcs(s.(procs := s.procs[p := s.procs[p].(timer := false, timedOut := true)]), kill);
    case SigtermIgnored(kill) => SigkillSpawns(s, kill);
    case SigkillUnconfirmed =>
  }

  lemma StartSpawns(s: State)
    ensures Spawns(s, StartCall(s))
  {
  }

  lemma SigkillSpawns(s: State, kill: Kill)
    requires s.stop.Waiting? && s.stop.p < |s.procs|
    ensures Spawns(s, SigkillTimer(s, kill))
  {
  }

  lemma ExitProcs(s: State, p: nat)
    requires p < |s.procs|
    ensures Exit(s, p).procs == s.procs[p := s.procs[p].(running := false, timer := false)]
  {
  }

  lemma TaskSpawns(s: State)
    requires s.queue != []
    ensures Spawns(s, RunTask(s))
  {
  }

  lemma LineProcs(s: State, p: nat, valid: bool, kill: Kill)
    requires p < |s.procs|
    ensures SameOrLess(Line(s, p, valid, kill).procs, s.procs)
  {
    var proc := s.procs[p].(lineHandler := false, timer := false, ready := s.procs[p].ready || valid);
    StopCallProcs(s.(procs := s.procs[p := proc]), kill);
  }

  lemma {:induction false} DeadStaysDead(s: State, run: seq<Label>, p: nat)
    requires Inv(s) && Possible(s, run) && p < |s.procs| && !Running(s.procs, p)
    ensures !Running(Reached(s, run).procs, p)
    decreases |run|
  {
    if run != [] {
      SpawnsAtEnd(s, run[0]);
      StepKeeps(s, run[0]);
      DeadStaysDead(Step(s, run[0]), run[1..], p);
    }
  }

  /**
   A running child keeps every start from spawning: however the run goes on, and whatever becomes
   of its stops, no process is added as long as that child has not exited.
   */
  lemma {:induction false} NoSpawnBeside(s: State, run: seq<Label>, p: nat)
    requires Inv(s) && Possible(s, run) && Running(s.procs, p) && Running(Reached(s, run).procs, p)
    ensures |Reached(s, run).procs| == |s.procs|
    decreases |run|
  {
    if run != [] {
      var t := Step(s, run[0]);
      StepKeeps(s, run[0]);
      SpawnsAtEnd(s, run[0]);
      if !Running(t.procs, p) {
        DeadStaysDead(t, run[1..], p);
      } else {
        NoSpawnBeside(t, run[1..], p);
      }
    }
  }

  /**
   A stop that fails keeps its live child: when the failure is reported the child is owned, and a start
   then changes nothing.
   */
  lemma FailedStopKeepsChild(run: seq<Label>, p: nat)
    requires Possible(Init(), run)
    requires var s := Reached(Init(), run);
      s.stop.Closing? && s.stop.p == p && s.queue != [] && IsTerm(s.queue[0]) && Running(s.procs, p)
    ensures var s := Step(Reached(Init(), run), Continue);
      s.child == Some(p) && s.stop == Settled(false) && StartBody(s) == s
  {
    RunKeeps(Init(), run);
  }

  /** Between steps, with no continuation left, a running process is always the owned child. */
  lemma QuietMeansOwned(run: seq<Label>, p: nat)
    requires Possible(Init(), run) && Reached(Init(), run).queue == [] && Running(Reached(Init(), run).procs, p)
    ensures Reached(Init(), run).child == Some(p)
  {
    RunKeeps(Init(), run);
  }

  // ----- why the events of `kill` are confined to a stop

  /** What an `error` event would do to a running child while no stop is pending. */
  function StrayError(s: State, p: nat): State
    requires p < |s.procs|
  {
    ErrorEvent(s, p)
  }

  /**
   Such an event orphans the child: once the continuations it queued have run, a start spawns
   a second process beside it, from every idle state in which the error handler is still
   registered. Node emits `error` on a running child only from `kill`, which only a stop calls.
   */
  lemma StrayErrorOrphans(s: State, p: nat)
    requires Inv(s) && s.queue == [] && s.stop == Idle && Running(s.procs, p) && s.procs[p].errorHandler
    requires s.startPromise ==> s.unsettled == Some(p)
    ensures var t := StrayError(s, p);
            var u := if t.queue == [] then t else RunTask(t);
            u.queue == [] && !AtMostOneRunning(StartCall(u))
  {
    var t := StrayError(s, p);
    var u := if t.queue == [] then t else RunTask(t);
    assert u.child == None && !u.startPromise;
    var v := StartCall(u);
    assert Running(v.procs, p) && Running(v.procs, |s.procs|);
  }

  // ----- the reported status

  /** A reported `ready` belongs to the owned child. */
  predicate Honest(s: State) {
    s.status == Ready ==> s.child.Some? && s.child.value < |s.procs| && s.procs[s.child.value].ready
  }

  /** A handshake line read after the exit, or the unreported exit of a child that answered after its deadline. */
  predicate Misreports(s: State, l: Label) {
    match l
    case LineRead(p, valid, _) =>
      valid && !Running(s.procs, p) && !(s.child.Some? && s.child.value < |s.procs| && s.procs[s.child.value].ready)
    case Exited(p) => p < |s.procs| && s.procs[p].timedOut && s.status == Ready
    case _ => false
  }

  lemma StopCallHonest(s: State, kill: Kill)
    requires Owned(s) && Honest(s)
    ensures Honest(StopCall(s, kill))
  {
  }

  lemma TaskHonest(s: State)
    requires Owned(s) && Honest(s) && s.queue != []
    ensures Honest(RunTask(s))
  {
  }

  /** From an honest state, exactly those two kinds of step make the status dishonest. */
  lemma HonestExactlyWhen(s: State, l: Label)
    requires Inv(s) && Honest(s) && Enabled(s, l)
    ensures Honest(Step(s, l)) <==> !Misreports(s, l)
  {
    match l
    case CallStop(kill) => StopCallHonest(s, kill);
    case Continue => TaskHonest(s);
    case LineRead(p, valid, kill) => LineHonest(s, p, valid, kill);
    case TimedOut(p, kill) => TimeoutHonest(s, p, kill);
    case _ =>
  }

  lemma TimeoutHonest(s: State, p: nat, kill: Kill)
    requires Inv(s) && Honest(s) && Enabled(s, TimedOut(p, kill))
    ensures Honest(Step(s, TimedOut(p, kill))) <==> !Misreports(s, TimedOut(p, kill))
  {
    HandshakeKeeps(s, p, s.procs[p].(timer := false, timedOut := true));
    StopCallHonest(s.(procs := s.procs[p := s.procs[p].(timer := false, timedOut := true)]), kill);
  }

  lemma LineHonest(s: State, p: nat, valid: bool, kill: Kill)
    requires Inv(s) && Honest(s) && s.queue == [] && p < |s.procs|
    ensures Honest(Line(s, p, valid, kill)) <==> !Misreports(s, LineRead(p, valid, kill))
  {
    var proc := s.procs[p].(lineHandler := false, timer := false, ready := s.procs[p].ready || valid);
    HandshakeKeeps(s, p, proc);
    if !valid {
      StopCallHonest(s.(procs := s.procs[p := proc]), kill);
    }
  }

  ghost predicate AlwaysHonest(s: State, run: seq<Label>)
    requires Possible(s, run)
    decreases |run|
  {
    Honest(s) && (run != [] ==> AlwaysHonest(Step(s, run[0]), run[1..]))
  }

  ghost predicate NeverMisreports(s: State, run: seq<Label>)
    requires Possible(s, run)
    decreases |run|
  {
    run != [] ==> !Misreports(s, run[0]) && NeverMisreports(Step(s, run[0]), run[1..])
  }

  /** The status is honest all along a run exactly when no step of the run misreports. */
  lemma {:induction false} HonestRuns(s: State, run: seq<Label>)
    requires Inv(s) && Honest(s) && Possible(s, run)
    ensures AlwaysHonest(s, run) <==> NeverMisreports(s, run)
    decreases |run|
  {
    if run != [] {
      HonestExactlyWhen(s, run[0]);
      StepKeeps(s, run[0]);
      if Honest(Step(s, run[0])) {
        HonestRuns(Step(s, run[0]), run[1..]);
      }
    }
  }

  lemma Unroll(s: State, l: Label, rest: seq<Label>)
    requires Enabled(s, l) && Possible(Step(s, l), rest)
    ensures Possible(s, [l] + rest) && Reached(s, [l] + rest) == Reached(Step(s, l), rest)
  {
    assert ([l] + rest)[1..] == rest;
  }

  /** A process that exits before its buffered handshake line is read is reported ready. */
  lemma LateLine()
    ensures var run := [CallStart] + ([Exited(0)] + ([Continue] + ([LineRead(0, true, Delivered)] + [])));
            Possible(Init(), run) && Reached(Init(), run).status == Ready && Reached(Init(), run).child == None
  {
    var s1 := Step(Init(), CallStart);
    var s2 := Step(s1, Exited(0));
    var s3 := Step(s2, Continue);
    Unroll(s3, LineRead(0, true, Delivered), []);
    Unroll(s2, Continue, [LineRead(0, true, Delivered)] + []);
    Unroll(s1, Exited(0), [Continue] + ([LineRead(0, true, Delivered)] + []));
    Unroll(Init(), CallStart, [Exited(0)] + ([Continue] + ([LineRead(0, true, Delivered)] + [])));
  }

  /** So is one that answers after its deadline and then exits, because that exit is not reported. */
  lemma LateAnswer()
    ensures
      var run :=
        [CallStart] + ([TimedOut(0, Delivered)] + ([LineRead(0, true, Delivered)] + ([Continue] + ([Exited(0)] + []))));
      Possible(Init(), run) && Reached(Init(), run).status == Ready && Reached(Init(), run).child == None
  {
    var s1 := Step(Init(), CallStart);
    var s2 := Step(s1, TimedOut(0, Delivered));
    var s3 := Step(s2, LineRead(0, true, Delivered));
    var s4 := Step(s3, Continue);
    Unroll(s4, Exited(0), []);
    Unroll(s3, Continue, [Exited(0)] + []);
    Unroll(s2, LineRead(0, true, Delivered), [Continue] + ([Exited(0)] + []));
    Unroll(s1, TimedOut(0, Delivered), [LineRead(0, true, Delivered)] + ([Continue] + ([Exited(0)] + [])));
    Unroll(Init(), CallStart,
      [TimedOut(0, Delivered)] + ([LineRead(0, true, Delivered)] + ([Continue] + ([Exited(0)] + []))));
  }

  // ----- what each step means for its caller

  /** A start spawns only when nothing runs. */
  lemma StartSpawnsAlone(s: State)
    requires Inv(s) && !NoneRunning(s.procs)
    ensures StartCall(s).procs == s.procs
  {
    var p: nat :| Running(s.procs, p);
  }

  /** After a call of `stop` one is pending; a live child is waited for, unless the signal was refused. */
  lemma StopPends(s: State, kill: Kill)
    requires Inv(s)
    ensures StopCall(s, kill).stop != Idle
    ensures s.stop == Idle && s.child.Some? ==>
      StopCall(s, kill).stop == if kill == Refused then Closing(s.child.value) else Waiting(s.child.value, false)
    ensures s.stop == Idle && s.child.None? ==> StopCall(s, kill).stop == Settled(true)
  {
  }

  lemma ExitLeavesNone(s: State, p: nat)
    requires Inv(s) && Running(s.procs, p)
    ensures NoneRunning(Exit(s, p).procs) && Exit(s, p).child == None
  {
    ExitProcs(s, p);
    assert forall q: nat | Running(Exit(s, p).procs, q) :: Running(s.procs, q) && q != p;
  }

  lemma SpawnErrorLeavesNone(s: State, p: nat)
    requires Inv(s) && Running(s.procs, p) && s.procs[p].errorHandler
    ensures NoneRunning(SpawnError(s, p).procs) && SpawnError(s, p).child == None
  {
    var procs := s.procs[p := s.procs[p].(running := false, errorHandler := false, timer := false)];
    SpawnErrorForm(s, p, procs);
    assert forall q: nat | Running(procs, q) :: Running(s.procs, q) && q != p;
  }

  /** A start that failed its handshake waits for a stop. */
  lemma FollowMeans(s: State, p: nat, kill: Kill)
    ensures FollowStop(s, p, kill).stop != Idle && p in FollowStop(s, p, kill).followers
  {
    var t := StopCall(s, kill);
    assert (t.followers + [p])[|t.followers|] == p;
  }

  lemma LineMeans(s: State, p: nat, valid: bool, kill: Kill)
    requires p < |s.procs|
    ensures valid ==> Line(s, p, valid, kill).status == Ready && Line(s, p, valid, kill).unsettled != Some(p)
    ensures !valid ==> Line(s, p, valid, kill).stop != Idle && p in Line(s, p, valid, kill).followers
  {
    var proc := s.procs[p].(lineHandler := false, timer := false, ready := s.procs[p].ready || valid);
    if !valid {
      FollowMeans(s.(procs := s.procs[p := proc]), p, kill);
    }
  }

  /** A continuation spawns only when nothing runs. */
  lemma TaskSpawnsAlone(s: State)
    requires Inv(s) && s.queue != [] && !NoneRunning(s.procs)
    ensures RunTask(s).procs == s.procs
  {
    var p: nat :| Running(s.procs, p);
    if s.queue[0] == Resume(true) {
      assert s.queue[..0] == [];
      assert s.child.Some? || s.startPromise;
    }
  }

  // ----- the object

  /**
   The supervisor with its own fields. `procs`, `unsettled`, `waiting`, `followers` and
   `tasks` stand for the child processes and the promise machinery around it.
   */
  class Supervisor {
    var child: Option<nat>
    var startPromise: bool
    var stopPromise: Stop
    var stopping: bool
    var current: Status
    var procs: seq<Proc>
    var unsettled: Option<nat>
    var waiting: nat
    var followers: seq<nat>
    var tasks: seq<Task>

    ghost function View(): State
      reads this
    {
      State(procs, child, startPromise, unsettled, stopPromise, stopping, waiting, followers, current, tasks)
    }

    constructor ()
      ensures View() == Init() && Inv(View())
    {
      child, startPromise, stopPromise, stopping, current := None, false, Idle, false, Stopped;
      procs, unsettled, waiting, followers, tasks := [], None, 0, [], [];
    }

    method SettleStart(p: nat)
      modifies this
      ensures View() == Settle(old(View()), p)
    {
      if unsettled == Some(p) {
        unsettled := None;
        tasks := tasks + [StartDone];
      }
    }

    method StartOrShare()
      modifies this
      ensures View() == StartBody(old(View()))
    {
      if child.Some? || startPromise {
        return;
      }
      current := Starting;
      child := Some(|procs|);
      unsettled := Some(|procs|);
      procs := procs + [Proc(true, true, true, true, false, false)];
      startPromise := true;
    }

    method SetStart()
      modifies this
      ensures View() == StartCall(old(View()))
    {
      match stopPromise {
        case Idle => StartOrShare();
        case Settled(ok) => tasks := tasks + [Resume(ok)];
        case _ => waiting := waiting + 1;
      }
    }

    method SetError(p: nat)
      requires p < |procs|
      modifies this
      ensures View() == ErrorEvent(old(View()), p)
    {
      if procs[p].errorHandler {
        procs := procs[p := procs[p].(errorHandler := false, timer := false)];
        child := None;
        current := Failed;
        SettleStart(p);
      }
      if stopPromise.Waiting? && stopPromise.p == p {
        stopPromise := Closing(p);
        tasks := tasks + [TermFailed(p)];
      }
    }

    method SetStop(kill: Kill)
      modifies this
      ensures View() == StopCall(old(View()), kill)
    {
      if stopPromise != Idle {
        return;
      }
      stopping := true;
      if child.None? || child.value >= |procs| || !procs[child.value].running {
        child := None;
        current := Stopped;
        stopping := false;
        stopPromise := Settled(true);
        tasks := tasks + [StopDone(true)];
        return;
      }
      stopPromise := Waiting(child.value, false);
      if kill == Refused {
        SetError(child.value);
      }
    }

    method SetExit(p: nat)
      requires Enabled(View(), Exited(p))
      modifies this
      ensures View() == Exit(old(View()), p)
    {
      var ready, timedOut := procs[p].ready, procs[p].timedOut;
      procs := procs[p := procs[p].(running := false, timer := false)];
      child := None;
      if !timedOut {
        current := if ready && stopping then Stopped else Failed;
        SettleStart(p);
      }
      if stopPromise.Waiting? && stopPromise.p == p {
        stopPromise := Closing(p);
        tasks := tasks + [TermDone(p)];
      }
    }

    method SetSpawnError(p: nat)
      requires Enabled(View(), SpawnFailed(p))
      modifies this
      ensures View() == SpawnError(old(View()), p)
    {
      procs := procs[p := procs[p].(running := false)];
      SetError(p);
    }

    method SetLine(p: nat, valid: bool, kill: Kill)
      requires Enabled(View(), LineRead(p, valid, kill))
      modifies this
      ensures View() == Line(old(View()), p, valid, kill)
    {
      procs := procs[p := procs[p].(lineHandler := false, timer := false, ready := procs[p].ready || valid)];
      if valid {
        current := Ready;
        SettleStart(p);
      } else {
        SetStop(kill);
        followers := followers + [p];
      }
    }

    method SetTimeout(p: nat, kill: Kill)
      requires Enabled(View(), TimedOut(p, kill))
      modifies this
      ensures View() == HandshakeTimeout(old(View()), p, kill)
    {
      procs := procs[p := procs[p].(timer := false, timedOut := true)];
      SetStop(kill);
      followers := followers + [p];
    }

    method SetSigkill(kill: Kill)
      requires Enabled(View(), SigtermIgnored(kill))
      modifies this
      ensures View() == SigkillTimer(old(View()), kill)
    {
      var p := stopPromise.p;
      if !procs[p].running {
        return;
      }
      match kill {
        case Delivered =>
          stopPromise := Waiting(p, true);
        case Gone =>
          stopPromise := Closing(p);
          tasks := tasks + [TermFailed(p)];
        case Refused =>
          SetError(p);
      }
    }

    /** The next continuation. */
    method SetNext()
      requires tasks != []
      modifies this
      ensures View() == RunTask(old(View()))
    {
      var task := tasks[0];
      tasks := tasks[1..];
      match task {
        case TermDone(p) =>
          EndStop(true, Stopped);
        case TermFailed(p) =>
          if p < |procs| && procs[p].running {
            child := Some(p);
          }
          EndStop(false, Failed);
        case StopDone(ok) =>
          stopPromise := Idle;
          tasks := tasks + Afters(followers, ok);
          followers := [];
        case Resume(ok) =>
          if ok {
            StartOrShare();
          }
        case StartDone =>
          startPromise := false;
        case After(p, ok) =>
          if ok {
            current := Failed;
          }
          SettleStart(p);
      }
    }

    method EndStop(ok: bool, status: Status)
      modifies this
      ensures View() == StopSettles(old(View()), ok, status)
    {
      current := status;
      stopping := false;
      stopPromise := Settled(ok);
      tasks := tasks + [StopDone(ok)] + Resumes(waiting, ok);
      waiting := 0;
    }

    method SetUnconfirmed()
      requires Enabled(View(), SigkillUnconfirmed)
      modifies this
      ensures View() == Reject(old(View()), old(View()).stop.p)
    {
      tasks := tasks + [TermFailed(stopPromise.p)];
      stopPromise := Closing(stopPromise.p);
    }

    // The operations, with what each means for its caller.

    method Start()
      requires Inv(View())
      modifies this
      ensures View() == StartCall(old(View())) && Inv(View()) && AtMostOneRunning(View())
      ensures if old(stopPromise) == Idle && old(child).None? && !old(startPromise)
        then NoneRunning(old(procs)) && |procs| == old(|procs|) + 1
          && child == Some(old(|procs|)) && Running(procs, old(|procs|))
        else procs == old(procs) && child == old(child)
    {
      StartCallKeeps(View());
      if !NoneRunning(procs) {
        StartSpawnsAlone(View());
      }
      SetStart();
    }

    method StopChild(kill: Kill)
      requires Inv(View())
      modifies this
      ensures View() == StopCall(old(View()), kill) && Inv(View()) && AtMostOneRunning(View())
      ensures stopPromise != Idle
      ensures old(stopPromise) == Idle && old(child).Some? && kill != Refused ==>
        stopPromise == Waiting(old(child).value, false)
    {
      StopCallKeeps(View(), kill);
      StopPends(View(), kill);
      SetStop(kill);
    }

    method OnExit(p: nat)
      requires Inv(View()) && Enabled(View(), Exited(p))
      modifies this
      ensures View() == Exit(old(View()), p) && Inv(View())
      ensures NoneRunning(procs) && child == None
      ensures !old(procs)[p].timedOut ==>
        unsettled != Some(p) && current == if old(procs)[p].ready && old(stopping) then Stopped else Failed
      ensures old(procs)[p].timedOut ==> unsettled == old(unsettled) && current == old(current)
    {
      ExitKeeps(View(), p);
      ExitLeavesNone(View(), p);
      SetExit(p);
    }

    method OnSpawnError(p: nat)
      requires Inv(View()) && Enabled(View(), SpawnFailed(p))
      modifies this
      ensures View() == SpawnError(old(View()), p) && Inv(View())
      ensures NoneRunning(procs) && child == None && unsettled != Some(p) && current == Failed
    {
      SpawnErrorKeeps(View(), p);
      SpawnErrorLeavesNone(View(), p);
      SetSpawnError(p);
    }

    method OnLine(p: nat, valid: bool, kill: Kill)
      requires Inv(View()) && Enabled(View(), LineRead(p, valid, kill))
      modifies this
      ensures View() == Line(old(View()), p, valid, kill) && Inv(View()) && AtMostOneRunning(View())
      ensures valid ==> current == Ready && unsettled != Some(p)
      ensures !valid ==> stopPromise != Idle && p in followers
    {
      LineKeeps(View(), p, valid, kill);
      LineMeans(View(), p, valid, kill);
      SetLine(p, valid, kill);
    }

    method OnHandshakeTimeout(p: nat, kill: Kill)
      requires Inv(View()) && Enabled(View(), TimedOut(p, kill))
      modifies this
      ensures View() == HandshakeTimeout(old(View()), p, kill) && Inv(View()) && AtMostOneRunning(View())
      ensures stopPromise != Idle && p in followers
    {
      TimeoutKeeps(View(), p, kill);
      FollowMeans(View().(procs := procs[p := procs[p].(timer := false, timedOut := true)]), p, kill);
      SetTimeout(p, kill);
    }

    method OnSigkillTimer(kill: Kill)
      requires Inv(View()) && Enabled(View(), SigtermIgnored(kill))
      modifies this
      ensures View() == SigkillTimer(old(View()), kill) && Inv(View()) && AtMostOneRunning(View())
      ensures stopPromise
           == if kill == Delivered then Waiting(old(stopPromise).p, true) else Closing(old(stopPromise).p)
    {
      SigkillKeeps(View(), kill);
      SetSigkill(kill);
    }

    /** The next continuation. */
    method RunNext()
      requires Inv(View()) && tasks != []
      modifies this
      ensures View() == RunTask(old(View())) && Inv(View()) && AtMostOneRunning(View())
      ensures if old(tasks)[0] == Resume(true) && old(child).None? && !old(startPromise)
        then NoneRunning(old(procs)) && |procs| == old(|procs|) + 1
          && child == Some(old(|procs|)) && Running(procs, old(|procs|))
        else procs == old(procs)
    {
      RunTaskKeeps(View());
      if !NoneRunning(procs) {
        TaskSpawnsAlone(View());
      }
      SetNext();
    }

    method OnSigkillUnconfirmed()
      requires Inv(View()) && Enabled(View(), SigkillUnconfirmed)
      modifies this
      ensures View() == Reject(old(View()), old(View()).stop.p) && Inv(View()) && AtMostOneRunning(View())
    {
      RejectKeeps(View());
      SetUnconfirmed();
    }

    /** Any step the machine can take, taken by the object: it keeps the invariant and owns at most one process. */
    method Take(l: Label)
      requires Inv(View()) && Enabled(View(), l)
      modifies this
      ensures View() == Step(old(View()), l)
      ensures Inv(View()) && AtMostOneRunning(View())
    {
      match l {
        case CallStart => Start();
        case CallStop(kill) => StopChild(kill);
        case Continue => RunNext();
        case Exited(p) => OnExit(p);
        case SpawnFailed(p) => OnSpawnError(p);
        case LineRead(p, valid, kill) => OnLine(p, valid, kill);
        case TimedOut(p, kill) => OnHandshakeTimeout(p, kill);
        case SigtermIgnored(kill) => OnSigkillTimer(kill);
        case SigkillUnconfirmed => OnSigkillUnconfirmed();
      }
    }
  }
}
