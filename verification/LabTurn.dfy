/**
 One turn of the Lab Agent: the bounded loop over provider round trips, and the five
 gates every tool call passes. Provider replies, the clock, cancellation, the policy and
 the tools are the environment: each answer is an arbitrary function of the moment it is
 asked for, so a turn is verified against every provider.
 */
module LabTurn {
  import opened Options

  // ----- what the turn talks about

  datatype Code = ToolUnknown | ToolNotOffered | ToolCallsExhausted | WallTimeExhausted | OtherCode(name: string)

  datatype LabError = LabError(code: Code, detail: string)

  datatype Call = Call(id: string, name: string, arguments: string)

  datatype Item =
    | Message(role: string, content: string)
    | FunctionCall(call: Call)
    | CallOutput(callId: string, output: string)

  datatype Outcome = Completed(requested: seq<string>, returned: seq<string>) | Refused(code: Code) | Failed

  datatype Entry = Entry(tool: string, arguments: string, outcome: Outcome)

  /** What the refusal digest identifies. */
  datatype RefusalKey = RefusalKey(tool: string, arguments: string, code: Code)

  datatype ToolEvent = Running(id: string) | Closed(id: string, completed: bool)

  datatype TurnBudget = ToolCalls | RoundTrips | WallSeconds | Refusals

  datatype TerminalName = Answered | Proposed | BudgetExhausted | RepeatedRefusal | ProviderFailed | Cancelled

  datatype Terminal = Terminal(
    name: TerminalName, content: string, complete: bool, error: Option<LabError>, budget: Option<TurnBudget>,
    returnedRefs: seq<string>, roundTrips: nat, toolCalls: nat, refusals: nat)

  // ----- the environment

  datatype Limits = Limits(toolCalls: nat, roundTrips: nat, refusals: nat)

  datatype Reply = InvokeFailed | Unusable | Response(calls: seq<Call>, text: string)

  datatype ToolResult = Rejects(error: LabError) | Crashes | Returns(content: string, requested: seq<string>,
    returned: seq<string>)

  datatype Parsed = Parsed(arguments: string, error: Option<LabError>)

  datatype World = World(
    limits: Limits,
    catalog: set<string>,
    offered: set<string>,
    parse: string -> Parsed,
    schema: (string, string) -> Option<LabError>,
    render: LabError -> string,
    scope: nat -> Option<LabError>,
    classification: nat -> Option<LabError>,
    tool: nat -> ToolResult,
    reply: nat -> Reply,
    cancelled: nat -> bool,
    wallExhausted: nat -> bool)

  // ----- what a turn leaves behind

  datatype Log = Log(
    history: seq<Item>,
    requests: seq<seq<Item>>,
    transcript: seq<Item>,
    received: seq<Call>,
    calls: seq<Call>,
    trace: seq<Entry>,
    refused: seq<RefusalKey>,
    digests: set<RefusalKey>,
    events: seq<ToolEvent>,
    executions: nat,
    roundTrips: nat,
    toolCalls: nat,
    refusals: nat,
    proposed: bool,
    returnedRefs: seq<string>)

  ghost predicate Distinct<T>(s: seq<T>) {
    forall i, j :: 0 <= i < j < |s| ==> s[i] != s[j]
  }

  /** `items` is the history followed by one call and its output per served call, in order. */
  ghost predicate Paired(history: seq<Item>, items: seq<Item>, calls: seq<Call>) {
    && |items| == |history| + 2 * |calls|
    && items[..|history|] == history
    && forall i :: 0 <= i < |calls| ==>
      && items[|history| + 2 * i] == FunctionCall(calls[i])
      && items[|history| + 2 * i + 1].CallOutput?
      && items[|history| + 2 * i + 1].callId == calls[i].id
  }

  /** Every call has exactly one trace entry, in order. */
  ghost predicate Traced(w: World, calls: seq<Call>, trace: seq<Entry>) {
    && |trace| == |calls|
    && forall i :: 0 <= i < |calls| ==>
      trace[i].tool == calls[i].name && trace[i].arguments == w.parse(calls[i].arguments).arguments
  }

  ghost function ReturnedRefs(trace: seq<Entry>): seq<string> {
    if trace == [] then []
    else
      var last := trace[|trace| - 1];
      ReturnedRefs(trace[..|trace| - 1]) + if last.outcome.Completed? then last.outcome.returned else []
  }

  ghost function RefusedKeys(trace: seq<Entry>): seq<RefusalKey> {
    if trace == [] then []
    else
      var last := trace[|trace| - 1];
      RefusedKeys(trace[..|trace| - 1])
      + if last.outcome.Refused? then [RefusalKey(last.tool, last.arguments, last.outcome.code)] else []
  }

  ghost predicate Drafted(trace: seq<Entry>) {
    exists i :: 0 <= i < |trace| && trace[i].tool == "propose_draft" && trace[i].outcome.Completed?
  }

  /** Every announced execution was closed before the next one was announced. */
  ghost predicate EventsPaired(events: seq<ToolEvent>, executions: nat) {
    && |events| == 2 * executions
    && forall i :: 0 <= i < executions ==>
      events[2 * i].Running? && events[2 * i + 1].Closed? && events[2 * i].id == events[2 * i + 1].id
  }

  /** `request` is the history and some calls served first, each answered. */
  ghost predicate RequestPaired(history: seq<Item>, request: seq<Item>, calls: seq<Call>) {
    exists n :: 0 <= n <= |calls| && Paired(history, request, calls[..n])
  }

  ghost predicate RequestsPaired(history: seq<Item>, requests: seq<seq<Item>>, calls: seq<Call>) {
    forall request | request in requests :: RequestPaired(history, request, calls)
  }

  // ----- invariants of the turn

  /** What holds at every moment, and still holds when the turn has ended. */
  ghost predicate Sound(w: World, l: Log) {
    && l.calls <= l.received
    && Traced(w, l.calls, l.trace)
    && l.returnedRefs == ReturnedRefs(l.trace)
    && (l.proposed <==> Drafted(l.trace))
    && EventsPaired(l.events, l.executions)
    && RequestsPaired(l.history, l.requests, l.calls)
    && |l.requests| <= w.limits.roundTrips
    && l.executions <= w.limits.toolCalls
    && |l.refused| == l.refusals
    && l.digests == set k | k in l.refused
  }

  ghost predicate WithinLimits(w: World, l: Log) {
    && |l.requests| == l.roundTrips
    && l.executions <= l.toolCalls <= w.limits.toolCalls
    && l.refusals < w.limits.refusals
    && |l.calls| <= l.toolCalls + l.refusals
  }

  /** Between two calls, and at every provider request. */
  ghost predicate Going(w: World, l: Log) {
    && Sound(w, l)
    && WithinLimits(w, l)
    && Paired(l.history, l.transcript, l.calls)
    && l.refused == RefusedKeys(l.trace)
    && Distinct(l.refused)
    && !Crashed(l)
  }

  /** The last call on record made its tool fail. */
  ghost predicate Crashed(l: Log) {
    l.trace != [] && l.trace[|l.trace| - 1].outcome.Failed?
  }

  /** `call` is the first received call that was not served yet. */
  ghost predicate NextCall(l: Log, call: Call) {
    |l.calls| < |l.received| && l.received[|l.calls|] == call
  }

  /** While a call is served: its request is on the transcript, its answer is not. */
  ghost predicate Serving(w: World, l: Log, call: Call) {
    && NextCall(l, call)
    && l.transcript != []
    && l.transcript[|l.transcript| - 1] == FunctionCall(call)
    && Going(w, l.(transcript := l.transcript[..|l.transcript| - 1]))
  }

  ghost predicate Reflects(l: Log, t: Terminal) {
    && t.returnedRefs == l.returnedRefs && t.roundTrips == l.roundTrips
    && t.toolCalls == l.toolCalls && t.refusals == l.refusals
  }

  /** What each way of ending says about the turn. */
  ghost predicate Explained(w: World, l: Log, t: Terminal) {
    && (t.complete <==> t.name in {Answered, Proposed})
    && (t.name == Proposed ==> Drafted(l.trace))
    && (t.name == Answered ==> !Drafted(l.trace))
    && (t.budget.Some? <==> t.name == BudgetExhausted)
    && (t.budget == Some(RoundTrips) ==> |l.requests| == w.limits.roundTrips)
    && (t.budget == Some(Refusals) ==> l.refusals == w.limits.refusals)
    && (t.budget == Some(ToolCalls) ==>
          l.toolCalls == w.limits.toolCalls + 1 && l.trace != []
          && l.trace[|l.trace| - 1].outcome == Refused(ToolCallsExhausted))
  }

  /** The refusals the turn answered are pairwise different, unless the last one ended it as a repetition. */
  ghost predicate RefusalsDiffer(l: Log, t: Terminal) {
    if t.name == RepeatedRefusal then
      && l.refused != [] && Distinct(l.refused[..|l.refused| - 1])
      && l.refused[|l.refused| - 1] in l.refused[..|l.refused| - 1]
    else Distinct(l.refused)
  }

  /** The turn ended because a call went over a budget. */
  ghost predicate Denied(t: Terminal) {
    t.error.Some? && (t.budget == Some(ToolCalls) || t.budget == Some(WallSeconds))
  }

  /** Every call on record is on the transcript and answered, but for the last one. */
  ghost predicate LastUnanswered(l: Log) {
    && l.calls != [] && l.transcript != []
    && l.transcript[|l.transcript| - 1] == FunctionCall(l.calls[|l.calls| - 1])
    && Paired(l.history, l.transcript[..|l.transcript| - 1], l.calls[..|l.calls| - 1])
  }

  /**
   The final transcript holds exactly the calls on record, each answered unless the last was denied or
   crashed; the refusals kept are those of the trace, a final denial excepted.
   */
  ghost predicate Concluded(l: Log, t: Terminal) {
    && (if Denied(t) || Crashed(l) then LastUnanswered(l) else Paired(l.history, l.transcript, l.calls))
    && l.refused == RefusedKeys(if Denied(t) && l.trace != [] then l.trace[..|l.trace| - 1] else l.trace)
  }

  ghost predicate Over(w: World, l: Log, t: Terminal) {
    && Sound(w, l)
    && Concluded(l, t)
    && |l.calls| <= w.limits.toolCalls + w.limits.refusals
    && Reflects(l, t)
    && Explained(w, l, t)
    && RefusalsDiffer(l, t)
  }

  // ----- how a served call changes the turn

  /** The call and its trace entry are on record. */
  function Recorded(l: Log, call: Call, entry: Entry): Log {
    l.(calls := l.calls + [call], trace := l.trace + [entry])
  }

  function WithRefusal(w: World, l: Log, call: Call, arguments: string, error: LabError): Log {
    var key := RefusalKey(call.name, arguments, error.code);
    Recorded(l, call, Entry(call.name, arguments, Refused(error.code))).(
      refusals := l.refusals + 1, refused := l.refused + [key], digests := l.digests + {key},
      transcript := l.transcript + [CallOutput(call.id, w.render(error))])
  }

  function WithCompletion(l: Log, call: Call, arguments: string, content: string, requested: seq<string>,
                          returned: seq<string>): Log {
    Recorded(l, call, Entry(call.name, arguments, Completed(requested, returned))).(
      returnedRefs := l.returnedRefs + returned, proposed := l.proposed || call.name == "propose_draft",
      transcript := l.transcript + [CallOutput(call.id, content)])
  }

  function WithExecution(l: Log, call: Call, completed: bool): Log {
    l.(executions := l.executions + 1, events := l.events + [Running(call.id), Closed(call.id, completed)])
  }

  // ----- the five gates

  /** The gates after the budget do not object; `at` is the moment the first question is asked. */
  ghost predicate Cleared(w: World, call: Call, at: nat) {
    && w.parse(call.arguments).error.None?
    && w.schema(call.name, w.parse(call.arguments).arguments).None?
    && w.scope(at).None? && w.classification(at + 1).None?
  }

  ghost predicate OverBudget(w: World, counted: nat, at: nat) {
    counted > w.limits.toolCalls || w.wallExhausted(at)
  }

  /** The call, the `counted`-th of an offered tool, is executed when its serving begins at moment `at`. */
  ghost predicate Passes(w: World, call: Call, counted: nat, at: nat) {
    call.name in w.offered && !OverBudget(w, counted, at) && Cleared(w, call, at + 1)
  }

  /** The first gate that objects names the error. */
  ghost predicate Objects(w: World, call: Call, counted: nat, at: nat, error: LabError) {
    var parsed := w.parse(call.arguments);
    if call.name !in w.offered then
      error == LabError(if call.name in w.catalog then ToolNotOffered else ToolUnknown, call.name)
    else if counted > w.limits.toolCalls then error == LabError(ToolCallsExhausted, call.name)
    else if w.wallExhausted(at) then error == LabError(WallTimeExhausted, call.name)
    else if parsed.error.Some? then error == parsed.error.value
    else if w.schema(call.name, parsed.arguments).Some? then Some(error) == w.schema(call.name, parsed.arguments)
    else if w.scope(at + 1).Some? then Some(error) == w.scope(at + 1)
    else Some(error) == w.classification(at + 2)
  }

  /** What is on record about the call: the tool's own result if it was executed, the objection otherwise. */
  ghost predicate Accountable(w: World, call: Call, counted: nat, at: nat, entry: Entry) {
    && entry.tool == call.name && entry.arguments == w.parse(call.arguments).arguments
    && if Passes(w, call, counted, at) then
         match w.tool(at + 3)
         case Returns(_, requested, returned) => entry.outcome == Completed(requested, returned)
         case Rejects(error) => entry.outcome == Refused(error.code)
         case Crashes => entry.outcome == Failed
       else entry.outcome.Refused? && ObjectsWith(w, call, counted, at, entry.outcome.code)
  }

  ghost predicate ObjectsWith(w: World, call: Call, counted: nat, at: nat, code: Code) {
    exists error :: Objects(w, call, counted, at, error) && code == error.code
  }

  /** The answer to the call: what the tool returned, or the error that was raised. */
  ghost predicate AnsweredWith(w: World, call: Call, counted: nat, at: nat, output: string) {
    if Passes(w, call, counted, at) then
      match w.tool(at + 3)
      case Returns(content, _, _) => output == content
      case Rejects(error) => output == w.render(error)
      case Crashes => false
    else exists error :: Objects(w, call, counted, at, error) && output == w.render(error)
  }

  /** A call that goes over a budget, or crashes its tool, gets no answer. */
  ghost predicate Unanswered(w: World, call: Call, counted: nat, at: nat) {
    || (call.name in w.offered && OverBudget(w, counted, at))
    || (Passes(w, call, counted, at) && w.tool(at + 3).Crashes?)
  }

  /** The tool-call count after the call. */
  ghost function CountedWith(w: World, toolCalls: nat, call: Call): nat {
    toolCalls + if call.name in w.offered then 1 else 0
  }

  /** How one served call changes the log. */
  ghost predicate Served(w: World, l: Log, call: Call, at: nat, after: Log) {
    var counted := CountedWith(w, l.toolCalls, call);
    && after.history == l.history && after.requests == l.requests && after.received == l.received
    && after.roundTrips == l.roundTrips && after.toolCalls == counted
    && after.calls == l.calls + [call]
    && |after.trace| == |l.trace| + 1 && after.trace[..|l.trace|] == l.trace
    && Accountable(w, call, counted, at, after.trace[|l.trace|])
    && (if Passes(w, call, counted, at)
        then after.executions == l.executions + 1
          && after.events == l.events + [Running(call.id), Closed(call.id, w.tool(at + 3).Returns?)]
        else after.executions == l.executions && after.events == l.events)
    && (if Unanswered(w, call, counted, at) then after.transcript == l.transcript + [FunctionCall(call)]
        else AnswersCall(w, call, counted, at, l.transcript, after.transcript))
  }

  /** The call and its answer are appended to the transcript. */
  ghost predicate AnswersCall(w: World, call: Call, counted: nat, at: nat, before: seq<Item>, after: seq<Item>) {
    exists output ::
      AnsweredWith(w, call, counted, at, output) && after == before + [FunctionCall(call), CallOutput(call.id, output)]
  }

  /** The turn ends with this call: over budget, a crash, a late cancellation, or a refusal too many. */
  ghost predicate EndsTurn(w: World, l: Log, call: Call, at: nat, after: Log) {
    var counted := CountedWith(w, l.toolCalls, call);
    || Unanswered(w, call, counted, at)
    || (Passes(w, call, counted, at) && w.tool(at + 3).Returns? && w.cancelled(at + 4))
    || (after.refusals > l.refusals
        && (after.refusals >= w.limits.refusals || after.digests == l.digests))
  }

  // ----- how a turn that a call ends is reported

  ghost predicate RefusedWith(w: World, error: LabError, t: Terminal) {
    && t.error == Some(error)
    && (|| (t.name == RepeatedRefusal && t.content == w.render(error))
        || (t.name == BudgetExhausted && t.budget == Some(Refusals)))
  }

  /** A call too many is named before the time that ran out. */
  ghost predicate DeniedWith(w: World, call: Call, counted: nat, t: Terminal) {
    if counted > w.limits.toolCalls
    then t.error == Some(LabError(ToolCallsExhausted, call.name)) && t.budget == Some(ToolCalls)
    else t.error == Some(LabError(WallTimeExhausted, call.name)) && t.budget == Some(WallSeconds)
  }

  ghost predicate ExecutedWith(w: World, result: ToolResult, t: Terminal) {
    match result
    case Returns(_, _, _) => t.name == Cancelled && t.error.None?
    case Rejects(error) => RefusedWith(w, error, t)
    case Crashes => t.name == ProviderFailed && t.error.None?
  }

  /** The reason given is the budget, the tool, or the first gate that objects. */
  ghost predicate EndsAs(w: World, call: Call, counted: nat, at: nat, t: Terminal) {
    if call.name in w.offered && OverBudget(w, counted, at) then DeniedWith(w, call, counted, t)
    else if Passes(w, call, counted, at) then ExecutedWith(w, w.tool(at + 3), t)
    else t.error.Some? && Objects(w, call, counted, at, t.error.value) && RefusedWith(w, t.error.value, t)
  }

  /** An error that is reported is the one the last call ended with. */
  ghost predicate Blamed(w: World, l: Log, moments: seq<nat>, t: Terminal) {
    t.error.Some? ==>
      && |moments| == |l.calls| && l.calls != []
      && EndsAs(w, l.calls[|l.calls| - 1], OfferedCount(w, l.calls), moments[|moments| - 1], t)
  }

  // ----- the whole turn, call by call and reply by reply

  /** How many of the calls were for an offered tool. */
  ghost function OfferedCount(w: World, calls: seq<Call>): nat {
    if calls == [] then 0 else CountedWith(w, OfferedCount(w, calls[..|calls| - 1]), calls[|calls| - 1])
  }

  /** The announcements of the calls that passed the gates. */
  ghost function EventsOf(w: World, calls: seq<Call>, moments: seq<nat>): seq<ToolEvent>
    requires |moments| == |calls|
  {
    if calls == [] then []
    else
      var n, call, at := |calls| - 1, calls[|calls| - 1], moments[|calls| - 1];
      EventsOf(w, calls[..n], moments[..n])
      + if Passes(w, call, OfferedCount(w, calls), at) then [Running(call.id), Closed(call.id, w.tool(at + 3).Returns?)]
        else []
  }

  /** The entry and the answer of call `i`, served from its moment on, are what the gates and the tool said. */
  ghost predicate CallAccounted(w: World, l: Log, moments: seq<nat>, i: nat)
    requires i < |l.calls| && |moments| == |l.calls| == |l.trace|
  {
    var call, counted, k := l.calls[i], OfferedCount(w, l.calls[..i + 1]), |l.history| + 2 * i + 1;
    && Accountable(w, call, counted, moments[i], l.trace[i])
    && (k < |l.transcript| ==>
          l.transcript[k].CallOutput? && AnsweredWith(w, call, counted, moments[i], l.transcript[k].output))
  }

  /** No two calls were served from the same answers of the environment. */
  ghost predicate Spaced(w: World, calls: seq<Call>, moments: seq<nat>, now: nat)
    requires |moments| == |calls|
  {
    && (forall i :: 0 <= i < |calls| ==> moments[i] <= now && (calls[i].name in w.offered ==> moments[i] < now))
    && (forall i, j :: 0 <= i < j < |calls| ==>
          moments[i] <= moments[j] && (calls[i].name in w.offered ==> moments[i] < moments[j]))
  }

  /** Every call on record is accounted for. */
  ghost predicate Accounted(w: World, l: Log, moments: seq<nat>, now: nat) {
    && |moments| == |l.calls| == |l.trace|
    && Spaced(w, l.calls, moments, now)
    && l.toolCalls == OfferedCount(w, l.calls)
    && l.events == EventsOf(w, l.calls, moments)
    && forall i :: 0 <= i < |l.calls| ==> CallAccounted(w, l, moments, i)
  }

  /** The calls of the replies at these moments, in order. */
  ghost function CallsOf(w: World, rounds: seq<nat>): seq<Call> {
    if rounds == [] then []
    else
      var reply := w.reply(rounds[|rounds| - 1]);
      CallsOf(w, rounds[..|rounds| - 1]) + if reply.Response? then reply.calls else []
  }

  ghost function Responses(w: World, rounds: seq<nat>): nat {
    if rounds == [] then 0
    else Responses(w, rounds[..|rounds| - 1]) + if w.reply(rounds[|rounds| - 1]).InvokeFailed? then 0 else 1
  }

  /** The provider was asked at these moments, and what it sent was received. */
  ghost predicate Fed(w: World, l: Log, rounds: seq<nat>) {
    && |rounds| == |l.requests|
    && l.received == CallsOf(w, rounds)
    && l.roundTrips == Responses(w, rounds)
  }

  /** The environment gave the reason for ending like this. */
  ghost predicate Grounded(w: World, l: Log, t: Terminal) {
    && (t.name == ProviderFailed ==> Crashed(l))
    && (t.name == Cancelled ==> exists m :: w.cancelled(m))
    && (t.budget == Some(WallSeconds) ==> exists m :: w.wallExhausted(m))
    && !t.complete
  }

  /** A final text is the last reply of the provider, whole; a failure is its failure or a tool's. */
  ghost predicate Justified(w: World, l: Log, rounds: seq<nat>, t: Terminal) {
    || Grounded(w, l, t)
    || (rounds != [] &&
        var reply := w.reply(rounds[|rounds| - 1]);
        if t.complete then reply == Response([], t.content) && t.content != ""
        else t.name == ProviderFailed && (reply.Response? ==> reply.calls == [] && reply.text == ""))
  }

  lemma CountPrefix(w: World, calls: seq<Call>, call: Call)
    ensures OfferedCount(w, calls + [call]) == CountedWith(w, OfferedCount(w, calls), call)
  {
    assert (calls + [call])[..|calls|] == calls;
  }

  lemma StillAccounted(w: World, l: Log, call: Call, at: nat, after: Log, moments: seq<nat>, i: nat)
    requires |moments| == |l.calls| == |l.trace| && i < |l.calls| && CallAccounted(w, l, moments, i)
    requires Paired(l.history, l.transcript, l.calls) && Served(w, l, call, at, after)
    ensures CallAccounted(w, after, moments + [at], i)
  {
    var k := |l.history| + 2 * i + 1;
    assert after.calls[..i + 1] == l.calls[..i + 1];
    assert after.trace[i] == after.trace[..|l.trace|][i] == l.trace[i];
    assert after.transcript[..|l.transcript|] == l.transcript;
    assert after.transcript[k] == after.transcript[..|l.transcript|][k];
  }

  lemma NowAccounted(w: World, l: Log, call: Call, at: nat, after: Log, moments: seq<nat>)
    requires |moments| == |l.calls| == |l.trace| && l.toolCalls == OfferedCount(w, l.calls)
    requires Paired(l.history, l.transcript, l.calls) && Served(w, l, call, at, after)
    ensures CallAccounted(w, after, moments + [at], |l.calls|)
    ensures after.toolCalls == OfferedCount(w, after.calls)
  {
    var n := |l.calls|;
    CountPrefix(w, l.calls, call);
    assert after.calls[..n + 1] == l.calls + [call] && after.calls[n] == call && (moments + [at])[n] == at;
    var counted := CountedWith(w, l.toolCalls, call);
    if !Unanswered(w, call, counted, at) {
      var output :| AnsweredWith(w, call, counted, at, output)
        && after.transcript == l.transcript + [FunctionCall(call), CallOutput(call.id, output)];
      assert after.transcript[|l.history| + 2 * n + 1] == CallOutput(call.id, output);
    }
  }

  lemma EventsAccounted(w: World, l: Log, call: Call, at: nat, after: Log, moments: seq<nat>)
    requires |moments| == |l.calls| && l.toolCalls == OfferedCount(w, l.calls)
    requires l.events == EventsOf(w, l.calls, moments) && Served(w, l, call, at, after)
    ensures after.events == EventsOf(w, after.calls, moments + [at])
  {
    CountPrefix(w, l.calls, call);
    assert (l.calls + [call])[..|l.calls|] == l.calls && (moments + [at])[..|moments|] == moments;
  }

  /** Serving one more call keeps the account. */
  lemma AccountedMore(w: World, l: Log, call: Call, at: nat, after: Log, moments: seq<nat>, now: nat)
    requires Accounted(w, l, moments, at) && Paired(l.history, l.transcript, l.calls) && Served(w, l, call, at, after)
    requires at <= now && (call.name in w.offered ==> at < now)
    ensures Accounted(w, after, moments + [at], now)
  {
    NowAccounted(w, l, call, at, after, moments);
    EventsAccounted(w, l, call, at, after, moments);
    forall i | 0 <= i < |after.calls| ensures CallAccounted(w, after, moments + [at], i) {
      if i < |l.calls| { StillAccounted(w, l, call, at, after, moments, i); }
    }
  }

  /** What the account speaks of is the same. */
  ghost predicate SameAccount(l: Log, after: Log) {
    && after.history == l.history && after.transcript == l.transcript && after.calls == l.calls
    && after.trace == l.trace && after.toolCalls == l.toolCalls && after.events == l.events
  }

  lemma AccountedLater(w: World, l: Log, after: Log, moments: seq<nat>, now: nat, later: nat)
    requires Accounted(w, l, moments, now) && SameAccount(l, after) && now <= later
    ensures Accounted(w, after, moments, later)
  {
    forall i | 0 <= i < |after.calls| ensures CallAccounted(w, after, moments, i) {
      assert CallAccounted(w, l, moments, i);
    }
  }

  // ----- recording a call keeps the record sound

  lemma PairedAppend(history: seq<Item>, items: seq<Item>, calls: seq<Call>, call: Call, output: string)
    requires Paired(history, items, calls)
    ensures Paired(history, items + [FunctionCall(call)] + [CallOutput(call.id, output)], calls + [call])
  {
    var after := items + [FunctionCall(call)] + [CallOutput(call.id, output)];
    assert after[..|history|] == items[..|history|];
  }

  lemma KeysAppend(trace: seq<Entry>, e: Entry)
    ensures RefusedKeys(trace + [e])
         == RefusedKeys(trace) + if e.outcome.Refused? then [RefusalKey(e.tool, e.arguments, e.outcome.code)] else []
    ensures ReturnedRefs(trace + [e]) == ReturnedRefs(trace) + if e.outcome.Completed? then e.outcome.returned else []
    ensures Drafted(trace + [e]) <==> Drafted(trace) || (e.tool == "propose_draft" && e.outcome.Completed?)
  {
    assert (trace + [e])[..|trace|] == trace;
    if Drafted(trace) {
      var i :| 0 <= i < |trace| && trace[i].tool == "propose_draft" && trace[i].outcome.Completed?;
      assert (trace + [e])[i] == trace[i];
    }
    assert (trace + [e])[|trace|] == e;
  }

  lemma RequestsAppend(history: seq<Item>, requests: seq<seq<Item>>, calls: seq<Call>, call: Call)
    requires RequestsPaired(history, requests, calls)
    ensures RequestsPaired(history, requests, calls + [call])
  {
    forall request | request in requests ensures RequestPaired(history, request, calls + [call]) {
      assert RequestPaired(history, request, calls);
      var n :| 0 <= n <= |calls| && Paired(history, request, calls[..n]);
      assert (calls + [call])[..n] == calls[..n];
    }
  }

  lemma EventsAppend(events: seq<ToolEvent>, executions: nat, id: string, completed: bool)
    requires EventsPaired(events, executions)
    ensures EventsPaired(events + [Running(id), Closed(id, completed)], executions + 1)
  {
  }

  /** Recording a refused or failed call keeps the record sound; what was returned does not change. */
  lemma RecordedSound(w: World, l: Log, call: Call, outcome: Outcome)
    requires Sound(w, l) && NextCall(l, call) && !outcome.Completed?
    ensures Sound(w, Recorded(l, call, Entry(call.name, w.parse(call.arguments).arguments, outcome)))
  {
    KeysAppend(l.trace, Entry(call.name, w.parse(call.arguments).arguments, outcome));
    RequestsAppend(l.history, l.requests, l.calls, call);
  }

  // ----- each way a served call can go

  lemma AnswerPairs(history: seq<Item>, transcript: seq<Item>, calls: seq<Call>, call: Call, output: string)
    requires transcript != [] && transcript[|transcript| - 1] == FunctionCall(call)
    requires Paired(history, transcript[..|transcript| - 1], calls)
    ensures Paired(history, transcript + [CallOutput(call.id, output)], calls + [call])
  {
    PairedAppend(history, transcript[..|transcript| - 1], calls, call, output);
    assert transcript[..|transcript| - 1] + [FunctionCall(call)] == transcript;
  }

  lemma ServingSound(w: World, l: Log, call: Call)
    requires Serving(w, l, call)
    ensures Sound(w, l)
  {
    var before := l.(transcript := l.transcript[..|l.transcript| - 1]);
    assert Sound(w, before);
  }

  lemma RefusalSound(w: World, l: Log, call: Call, error: LabError)
    requires Sound(w, l) && NextCall(l, call)
    ensures Sound(w, WithRefusal(w, l, call, w.parse(call.arguments).arguments, error))
  {
    RecordedSound(w, l, call, Refused(error.code));
    var key := RefusalKey(call.name, w.parse(call.arguments).arguments, error.code);
    assert (set k | k in l.refused + [key]) == (set k | k in l.refused) + {key};
  }

  lemma DistinctAppend<T>(s: seq<T>, x: T)
    requires Distinct(s) && x !in s
    ensures Distinct(s + [x])
  {
  }

  lemma RefusalKeeps(w: World, l: Log, call: Call, error: LabError)
    requires Serving(w, l, call)
    ensures var key := RefusalKey(call.name, w.parse(call.arguments).arguments, error.code);
      var after := WithRefusal(w, l, call, w.parse(call.arguments).arguments, error);
      && Sound(w, after)
      && Paired(after.history, after.transcript, after.calls)
      && after.refused == RefusedKeys(after.trace)
      && (key !in l.digests ==> Distinct(after.refused))
      && (key in l.digests ==> key in l.refused)
      && Distinct(l.refused)
  {
    ServingSound(w, l, call);
    RefusalSound(w, l, call, error);
    RefusalKeys(w, l, call, error);
    RefusalPairs(w, l, call, error);
    RefusalDistinct(w, l, call, error);
  }

  lemma RefusalPairs(w: World, l: Log, call: Call, error: LabError)
    requires Serving(w, l, call)
    ensures var after := WithRefusal(w, l, call, w.parse(call.arguments).arguments, error);
      Paired(after.history, after.transcript, after.calls)
  {
    AnswerPairs(l.history, l.transcript, l.calls, call, w.render(error));
  }

  lemma RefusalDistinct(w: World, l: Log, call: Call, error: LabError)
    requires Distinct(l.refused) && l.digests == set k | k in l.refused
    ensures var key := RefusalKey(call.name, w.parse(call.arguments).arguments, error.code);
      var after := WithRefusal(w, l, call, w.parse(call.arguments).arguments, error);
      && (key !in l.digests ==> Distinct(after.refused))
      && (key in l.digests ==> key in l.refused)
  {
    var key := RefusalKey(call.name, w.parse(call.arguments).arguments, error.code);
    if key !in l.digests { DistinctAppend(l.refused, key); }
  }

  lemma RefusalKeys(w: World, l: Log, call: Call, error: LabError)
    requires l.refused == RefusedKeys(l.trace)
    ensures var after := WithRefusal(w, l, call, w.parse(call.arguments).arguments, error);
      after.refused == RefusedKeys(after.trace)
  {
    KeysAppend(l.trace, Entry(call.name, w.parse(call.arguments).arguments, Refused(error.code)));
  }

  lemma CompletionSound(w: World, l: Log, call: Call, content: string, requested: seq<string>, returned: seq<string>)
    requires Sound(w, l) && NextCall(l, call)
    ensures Sound(w, WithCompletion(l, call, w.parse(call.arguments).arguments, content, requested, returned))
  {
    KeysAppend(l.trace, Entry(call.name, w.parse(call.arguments).arguments, Completed(requested, returned)));
    RequestsAppend(l.history, l.requests, l.calls, call);
  }

  lemma CompletionKeeps(w: World, l: Log, call: Call, content: string, requested: seq<string>, returned: seq<string>)
    requires Serving(w, l, call) && |l.calls| < l.toolCalls + l.refusals
    ensures Going(w, WithCompletion(l, call, w.parse(call.arguments).arguments, content, requested, returned))
  {
    ServingSound(w, l, call);
    CompletionSound(w, l, call, content, requested, returned);
    CompletionLimits(w, l, call, content, requested, returned);
    AnswerPairs(l.history, l.transcript, l.calls, call, content);
  }

  lemma CompletionLimits(w: World, l: Log, call: Call, content: string, requested: seq<string>, returned: seq<string>)
    requires WithinLimits(w, l) && l.refused == RefusedKeys(l.trace) && |l.calls| < l.toolCalls + l.refusals
    ensures var after := WithCompletion(l, call, w.parse(call.arguments).arguments, content, requested, returned);
      WithinLimits(w, after) && after.refused == l.refused == RefusedKeys(after.trace) && !Crashed(after)
  {
    KeysAppend(l.trace, Entry(call.name, w.parse(call.arguments).arguments, Completed(requested, returned)));
  }

  lemma ExecutionKeeps(w: World, l: Log, call: Call, completed: bool)
    requires Serving(w, l, call) && l.executions < l.toolCalls
    ensures Serving(w, WithExecution(l, call, completed), call)
  {
    EventsAppend(l.events, l.executions, call.id, completed);
  }

  /** A denied attempt is on record before the turn ends. */
  lemma DenialEnds(w: World, l: Log, call: Call, code: Code, t: Terminal)
    requires l.toolCalls > 0 && Serving(w, l.(toolCalls := l.toolCalls - 1), call)
    requires l.toolCalls <= w.limits.toolCalls + 1
    requires var after := Recorded(l, call, Entry(call.name, w.parse(call.arguments).arguments, Refused(code)));
      Reflects(after, t) && Explained(w, after, t) && t.name != RepeatedRefusal && Denied(t)
    ensures Over(w, Recorded(l, call, Entry(call.name, w.parse(call.arguments).arguments, Refused(code))), t)
  {
    ServingSound(w, l.(toolCalls := l.toolCalls - 1), call);
    assert Sound(w, l);
    RecordedSound(w, l, call, Refused(code));
    CallLeftOpen(l, call, Entry(call.name, w.parse(call.arguments).arguments, Refused(code)));
  }

  lemma CallLeftOpen(l: Log, call: Call, entry: Entry)
    requires l.transcript != [] && l.transcript[|l.transcript| - 1] == FunctionCall(call)
    requires Paired(l.history, l.transcript[..|l.transcript| - 1], l.calls)
    ensures LastUnanswered(Recorded(l, call, entry))
    ensures Recorded(l, call, entry).trace[..|l.trace|] == l.trace
    ensures RefusedKeys(Recorded(l, call, entry).trace)
         == RefusedKeys(l.trace)
            + if entry.outcome.Refused? then [RefusalKey(entry.tool, entry.arguments, entry.outcome.code)] else []
  {
    assert (l.calls + [call])[..|l.calls|] == l.calls;
    KeysAppend(l.trace, entry);
  }

  lemma CrashEnds(w: World, l: Log, call: Call, t: Terminal)
    requires Serving(w, l, call) && |l.calls| < l.toolCalls + l.refusals
    requires var after := Recorded(l, call, Entry(call.name, w.parse(call.arguments).arguments, Failed));
      Reflects(after, t) && Explained(w, after, t) && t.name != RepeatedRefusal && !Denied(t)
    ensures Over(w, Recorded(l, call, Entry(call.name, w.parse(call.arguments).arguments, Failed)), t)
  {
    ServingSound(w, l, call);
    RecordedSound(w, l, call, Failed);
    CallLeftOpen(l, call, Entry(call.name, w.parse(call.arguments).arguments, Failed));
  }

  lemma RefusalEnds(w: World, l: Log, call: Call, error: LabError, t: Terminal)
    requires Serving(w, l, call)
    requires var after := WithRefusal(w, l, call, w.parse(call.arguments).arguments, error);
      && Reflects(after, t) && Explained(w, after, t) && !Denied(t)
      && (t.name == RepeatedRefusal <==>
          RefusalKey(call.name, w.parse(call.arguments).arguments, error.code) in l.digests)
    ensures Over(w, WithRefusal(w, l, call, w.parse(call.arguments).arguments, error), t)
  {
    RefusalKeeps(w, l, call, error);
    var after := WithRefusal(w, l, call, w.parse(call.arguments).arguments, error);
    assert after.refused[..|after.refused| - 1] == l.refused;
  }

  lemma RefusalContinues(w: World, l: Log, call: Call, error: LabError)
    requires Serving(w, l, call) && l.refusals + 1 < w.limits.refusals
    requires RefusalKey(call.name, w.parse(call.arguments).arguments, error.code) !in l.digests
    ensures Going(w, WithRefusal(w, l, call, w.parse(call.arguments).arguments, error))
  {
    RefusalKeeps(w, l, call, error);
  }

  // ----- what serving does, part by part

  /** The refusal repeats an earlier one exactly. */
  ghost predicate Repeats(w: World, l: Log, call: Call, error: LabError) {
    RefusalKey(call.name, w.parse(call.arguments).arguments, error.code) in l.digests
  }

  ghost predicate Executed(w: World, l: Log, call: Call, result: ToolResult, after: Log) {
    var arguments, begun := w.parse(call.arguments).arguments, WithExecution(l, call, result.Returns?);
    match result
    case Returns(content, requested, returned) =>
      after == WithCompletion(begun, call, arguments, content, requested, returned)
    case Rejects(error) => after == WithRefusal(w, begun, call, arguments, error)
    case Crashes => after == Recorded(begun, call, Entry(call.name, arguments, Failed))
  }

  /** A refusal, and whether the turn ends with it. */
  ghost predicate RefusedNow(w: World, l: Log, call: Call, error: LabError, after: Log, ended: bool) {
    && after == WithRefusal(w, l, call, w.parse(call.arguments).arguments, error)
    && (ended <==> Repeats(w, l, call, error) || after.refusals >= w.limits.refusals)
  }

  ghost predicate ExecutedNow(w: World, l: Log, call: Call, at: nat, after: Log, ended: bool) {
    && Executed(w, l, call, w.tool(at), after)
    && (ended <==>
        match w.tool(at)
        case Returns(_, _, _) => w.cancelled(at + 1)
        case Rejects(error) => Repeats(w, l, call, error) || after.refusals >= w.limits.refusals
        case Crashes => true)
  }

  /** The first objection of the gates after the budget, asked from moment `at` on. */
  ghost function Objection(w: World, call: Call, at: nat): Option<LabError> {
    var parsed := w.parse(call.arguments);
    if parsed.error.Some? then parsed.error
    else if w.schema(call.name, parsed.arguments).Some? then w.schema(call.name, parsed.arguments)
    else if w.scope(at).Some? then w.scope(at)
    else w.classification(at + 1)
  }

  ghost predicate ServedCounted(w: World, l: Log, call: Call, at: nat, after: Log, ended: bool) {
    var objection := Objection(w, call, at);
    if objection.None? then ExecutedNow(w, l, call, at + 2, after, ended)
    else RefusedNow(w, l, call, objection.value, after, ended)
  }

  ghost function Counted(l: Log): Log {
    l.(toolCalls := l.toolCalls + 1)
  }

  /** The record of a call that went over a budget. */
  ghost function DeniedCall(w: World, l: Log, call: Call): Log {
    Recorded(l, call,
      Entry(call.name, w.parse(call.arguments).arguments,
            Refused(if l.toolCalls > w.limits.toolCalls then ToolCallsExhausted else WallTimeExhausted)))
  }

  ghost predicate ServedArrived(w: World, l: Log, call: Call, at: nat, after: Log, ended: bool) {
    if call.name !in w.offered then
      RefusedNow(w, l, call, LabError(if call.name in w.catalog then ToolNotOffered else ToolUnknown, call.name), after,
                 ended)
    else if OverBudget(w, l.toolCalls + 1, at) then ended && after == DeniedCall(w, Counted(l), call)
    else ServedCounted(w, Counted(l), call, at + 1, after, ended)
  }

  ghost function Arrived(l: Log, call: Call): Log {
    l.(transcript := l.transcript + [FunctionCall(call)])
  }

  lemma RefusedIsServed(w: World, l: Log, call: Call, at: nat, error: LabError, counted: Log, after: Log, ended: bool)
    requires counted == Arrived(l, call).(toolCalls := CountedWith(w, l.toolCalls, call))
    requires RefusedNow(w, counted, call, error, after, ended)
    requires !Passes(w, call, counted.toolCalls, at) && !Unanswered(w, call, counted.toolCalls, at)
    requires Objects(w, call, counted.toolCalls, at, error)
    ensures Served(w, l, call, at, after)
    ensures ended <==> EndsTurn(w, l, call, at, after)
  {
    var key := RefusalKey(call.name, w.parse(call.arguments).arguments, error.code);
    assert AnsweredWith(w, call, counted.toolCalls, at, w.render(error));
    assert after.transcript == l.transcript + [FunctionCall(call), CallOutput(call.id, w.render(error))];
    assert after.digests == l.digests <==> key in l.digests;
  }

  lemma ExecutedIsServed(w: World, l: Log, call: Call, at: nat, counted: Log, after: Log, ended: bool)
    requires counted == Arrived(l, call).(toolCalls := CountedWith(w, l.toolCalls, call))
    requires Passes(w, call, counted.toolCalls, at)
    requires ExecutedNow(w, counted, call, at + 3, after, ended)
    ensures Served(w, l, call, at, after)
    ensures ended <==> EndsTurn(w, l, call, at, after)
  {
    match w.tool(at + 3)
    case Returns(content, requested, returned) =>
      assert AnsweredWith(w, call, counted.toolCalls, at, content);
      assert after.transcript == l.transcript + [FunctionCall(call), CallOutput(call.id, content)];
    case Rejects(error) =>
      var key := RefusalKey(call.name, w.parse(call.arguments).arguments, error.code);
      assert AnsweredWith(w, call, counted.toolCalls, at, w.render(error));
      assert after.transcript == l.transcript + [FunctionCall(call), CallOutput(call.id, w.render(error))];
      assert after.digests == l.digests <==> key in l.digests;
    case Crashes =>
  }

  lemma DeniedIsServed(w: World, l: Log, call: Call, at: nat, counted: Log, after: Log)
    requires counted == Arrived(l, call).(toolCalls := CountedWith(w, l.toolCalls, call))
    requires call.name in w.offered && OverBudget(w, counted.toolCalls, at)
    requires after == DeniedCall(w, counted, call)
    ensures Served(w, l, call, at, after) && EndsTurn(w, l, call, at, after)
  {
    assert Objects(w, call, counted.toolCalls, at,
      LabError(if counted.toolCalls > w.limits.toolCalls then ToolCallsExhausted else WallTimeExhausted, call.name));
  }

  lemma ArrivedIsServed(w: World, l: Log, arrived: Log, call: Call, at: nat, after: Log, ended: bool)
    requires arrived == Arrived(l, call) && ServedArrived(w, arrived, call, at, after, ended)
    ensures Served(w, l, call, at, after)
    ensures ended <==> EndsTurn(w, l, call, at, after)
  {
    var counted := Arrived(l, call).(toolCalls := CountedWith(w, l.toolCalls, call));
    if call.name !in w.offered {
      assert counted == Arrived(l, call);
      RefusedIsServed(w, l, call, at,
        LabError(if call.name in w.catalog then ToolNotOffered else ToolUnknown, call.name), counted, after, ended);
    } else if OverBudget(w, counted.toolCalls, at) {
      DeniedIsServed(w, l, call, at, counted, after);
    } else if Cleared(w, call, at + 1) {
      ExecutedIsServed(w, l, call, at, counted, after, ended);
    } else {
      RefusedIsServed(w, l, call, at, Objection(w, call, at + 1).value, counted, after, ended);
    }
  }

  /** How a turn ends with a call that passed the budget, and with one that just arrived. */
  ghost predicate CountedEnds(w: World, call: Call, at: nat, t: Terminal) {
    var objection := Objection(w, call, at);
    if objection.None? then ExecutedWith(w, w.tool(at + 2), t) else RefusedWith(w, objection.value, t)
  }

  ghost predicate ArrivedEnds(w: World, call: Call, toolCalls: nat, at: nat, t: Terminal) {
    if call.name !in w.offered then
      RefusedWith(w, LabError(if call.name in w.catalog then ToolNotOffered else ToolUnknown, call.name), t)
    else if OverBudget(w, toolCalls + 1, at) then DeniedWith(w, call, toolCalls + 1, t)
    else CountedEnds(w, call, at + 1, t)
  }

  lemma ArrivedEndsAs(w: World, call: Call, toolCalls: nat, at: nat, t: Terminal)
    requires ArrivedEnds(w, call, toolCalls, at, t)
    ensures EndsAs(w, call, CountedWith(w, toolCalls, call), at, t)
  {
  }

  // ----- the mutable state of a turn

  class LabTurnState {
    const history: seq<Item>
    var transcript: seq<Item>
    var roundTrips: nat
    var toolCalls: nat
    var refusals: nat
    var proposed: bool
    var returnedRefs: seq<string>
    var refusalDigests: set<RefusalKey>
    // what the sinks and the provider received
    var trace: seq<Entry>
    var events: seq<ToolEvent>
    var requests: seq<seq<Item>>
    // the calls received, the calls served, the refusals answered, and the moments the environment was asked
    var received: seq<Call>
    var calls: seq<Call>
    var refused: seq<RefusalKey>
    var executions: nat
    var now: nat

    function View(): Log
      reads this
    {
      Log(history, requests, transcript, received, calls, trace, refused, refusalDigests, events, executions,
          roundTrips, toolCalls, refusals, proposed, returnedRefs)
    }

    constructor (history: seq<Item>)
      ensures View() == Log(history, [], history, [], [], [], [], {}, [], 0, 0, 0, 0, false, [])
    {
      this.history := history;
      transcript, requests, received, calls, trace, refused, events := history, [], [], [], [], [], [];
      refusalDigests, executions, roundTrips, toolCalls, refusals, proposed, returnedRefs := {}, 0, 0, 0, 0, false, [];
      now := 0;
    }

    /** `_terminal`. */
    function End(name: TerminalName, content: string, error: Option<LabError>, budget: Option<TurnBudget>): Terminal
      reads this
    {
      Terminal(name, content, name in {Answered, Proposed}, error, budget, returnedRefs, roundTrips, toolCalls,
        refusals)
    }

    /** One trace entry for one served call. */
    method Record(call: Call, arguments: string, outcome: Outcome)
      modifies this
      ensures View() == Recorded(old(View()), call, Entry(call.name, arguments, outcome)) && now == old(now)
    {
      calls, trace := calls + [call], trace + [Entry(call.name, arguments, outcome)];
    }

    method Answer(call: Call, output: string)
      modifies this`transcript
      ensures transcript == old(transcript) + [CallOutput(call.id, output)]
    {
      transcript := transcript + [CallOutput(call.id, output)];
    }

    /** `_refuse`: record the refusal, answer the call, and notice an exact repetition. */
    method Refuse(w: World, call: Call, arguments: string, error: LabError) returns (repeated: bool)
      modifies this
      ensures View() == WithRefusal(w, old(View()), call, arguments, error) && now == old(now)
      ensures repeated <==> RefusalKey(call.name, arguments, error.code) in old(refusalDigests)
    {
      var digest := RefusalKey(call.name, arguments, error.code);
      repeated := digest in refusalDigests;
      Record(call, arguments, Refused(error.code));
      refusals, refused, refusalDigests := refusals + 1, refused + [digest], refusalDigests + {digest};
      Answer(call, w.render(error));
    }

    /** `refuse_and_maybe_terminate`. */
    method RefuseAndMaybeTerminate(w: World, call: Call, error: LabError) returns (t: Option<Terminal>)
      requires Serving(w, View(), call)
      modifies this
      ensures t.None? ==> Going(w, View())
      ensures t.Some? ==> Over(w, View(), t.value)
      ensures View() == WithRefusal(w, old(View()), call, w.parse(call.arguments).arguments, error)
      ensures now == old(now) && (t.Some? ==> Grounded(w, View(), t.value))
      ensures t.Some? <==>
        || RefusalKey(call.name, w.parse(call.arguments).arguments, error.code) in old(refusalDigests)
        || refusals >= w.limits.refusals
      ensures t.Some? ==> RefusedWith(w, error, t.value)
    {
      var arguments := w.parse(call.arguments).arguments;
      ghost var before := View();
      var repeated := Refuse(w, call, arguments, error);
      if repeated {
        t := Some(End(RepeatedRefusal, w.render(error), Some(error), None));
        RefusalEnds(w, before, call, error, t.value);
      } else if refusals >= w.limits.refusals {
        t := Some(End(BudgetExhausted, "", Some(error), Some(Refusals)));
        RefusalEnds(w, before, call, error, t.value);
      } else {
        t := None;
        RefusalContinues(w, before, call, error);
      }
    }

    /**
     The budget gate. The attempt is counted first; one that exceeds a limit is recorded
     before the turn ends.
     */
    method PassBudget(w: World, call: Call) returns (t: Option<Terminal>)
      requires Serving(w, View(), call)
      modifies this
      ensures t.None? ==>
        Serving(w, View(), call) && executions < toolCalls && |calls| < toolCalls + refusals
      ensures t.Some? ==> Over(w, View(), t.value)
      ensures t.Some? <==> OverBudget(w, old(toolCalls) + 1, old(now))
      ensures t.None? ==> View() == Counted(old(View()))
      ensures t.Some? ==> View() == DeniedCall(w, Counted(old(View())), call)
      ensures t.Some? ==> DeniedWith(w, call, old(toolCalls) + 1, t.value)
      ensures now == old(now) + 1 && (t.Some? ==> Grounded(w, View(), t.value))
    {
      ghost var before := View();
      var overCalls, overTime := Count(w);
      if !overCalls && !overTime {
        AttemptFits(w, before, View(), call);
        return None;
      }
      var terminal := Deny(w, call, overCalls, before);
      t := Some(terminal);
    }

    /** One more tool call, and the moment at which the limits are looked at. */
    method Count(w: World) returns (overCalls: bool, overTime: bool)
      modifies this`toolCalls, this`now
      ensures View() == Counted(old(View())) && now == old(now) + 1
      ensures overCalls <==> old(toolCalls) + 1 > w.limits.toolCalls
      ensures overTime <==> w.wallExhausted(old(now))
    {
      toolCalls := toolCalls + 1;
      overCalls, overTime := toolCalls > w.limits.toolCalls, w.wallExhausted(now);
      now := now + 1;
    }

    /** `_deny_budget`, once a limit is known to be exceeded. */
    method Deny(w: World, call: Call, overCalls: bool, ghost before: Log) returns (t: Terminal)
      requires Serving(w, before, call) && View() == Counted(before)
      requires overCalls <==> before.toolCalls + 1 > w.limits.toolCalls
      requires overCalls || exists m :: w.wallExhausted(m)
      modifies this
      ensures Over(w, View(), t) && now == old(now) && Grounded(w, View(), t)
      ensures View() == DeniedCall(w, Counted(before), call) && DeniedWith(w, call, before.toolCalls + 1, t)
    {
      var code := if overCalls then ToolCallsExhausted else WallTimeExhausted;
      CountAttempt(w, before, call);
      ghost var counted := View();
      Record(call, w.parse(call.arguments).arguments, Refused(code));
      t := End(BudgetExhausted, "", Some(LabError(code, call.name)),
        Some(if overCalls then ToolCalls else WallSeconds));
      assert counted.(toolCalls := counted.toolCalls - 1) == before;
      DenialEnds(w, counted, call, code, t);
    }

    /** Announce an execution and close the announcement. */
    method Announce(call: Call, completed: bool)
      modifies this
      ensures View() == WithExecution(old(View()), call, completed) && now == old(now)
    {
      executions, events := executions + 1, events + [Running(call.id), Closed(call.id, completed)];
    }

    method Complete(call: Call, arguments: string, content: string, requested: seq<string>, returned: seq<string>)
      modifies this
      ensures View() == WithCompletion(old(View()), call, arguments, content, requested, returned) && now == old(now)
    {
      Record(call, arguments, Completed(requested, returned));
      returnedRefs, proposed := returnedRefs + returned, proposed || call.name == "propose_draft";
      Answer(call, content);
    }

    /** `_execute`. */
    method ExecuteTool(w: World, call: Call) returns (t: Option<Terminal>)
      requires Serving(w, View(), call) && executions < toolCalls && |calls| < toolCalls + refusals
      modifies this
      ensures t.None? ==> Going(w, View())
      ensures t.Some? ==> Over(w, View(), t.value)
      ensures Executed(w, old(View()), call, w.tool(old(now)), View())
      ensures now > old(now) && (t.Some? ==> Grounded(w, View(), t.value))
      ensures t.Some? <==>
        match w.tool(old(now))
        case Returns(_, _, _) => w.cancelled(old(now) + 1)
        case Rejects(error) => Repeats(w, old(View()), call, error) || refusals >= w.limits.refusals
        case Crashes => true
      ensures t.Some? ==> ExecutedWith(w, w.tool(old(now)), t.value)
    {
      var result := Begin(w, call);
      match result {
        case Rejects(error) =>
          t := RefuseAndMaybeTerminate(w, call, error);
        case Crashes =>
          t := FailTool(w, call);
        case Returns(content, requested, returned) =>
          t := CompleteTool(w, call, content, requested, returned);
      }
    }

    /** The tool is run, and announced. */
    method Begin(w: World, call: Call) returns (result: ToolResult)
      requires Serving(w, View(), call) && executions < toolCalls
      modifies this
      ensures result == w.tool(old(now)) && now == old(now) + 1
      ensures Serving(w, View(), call) && View() == WithExecution(old(View()), call, result.Returns?)
    {
      result := w.tool(now);
      now := now + 1;
      ExecutionKeeps(w, View(), call, result.Returns?);
      Announce(call, result.Returns?);
    }

    /** A tool that failed: its call stays unanswered, and the turn ends. */
    method FailTool(w: World, call: Call) returns (t: Option<Terminal>)
      requires Serving(w, View(), call) && |calls| < toolCalls + refusals
      modifies this
      ensures t.Some? && Over(w, View(), t.value) && Grounded(w, View(), t.value) && now == old(now)
      ensures t.value.name == ProviderFailed && t.value.error.None?
      ensures View() == Recorded(old(View()), call, Entry(call.name, w.parse(call.arguments).arguments, Failed))
    {
      ghost var before := View();
      Record(call, w.parse(call.arguments).arguments, Failed);
      t := Some(End(ProviderFailed, "tool", None, None));
      CrashEnds(w, before, call, t.value);
    }

    /** A tool that returned: its call is answered, and a cancellation noticed only now ends the turn. */
    method CompleteTool(w: World, call: Call, content: string, requested: seq<string>, returned: seq<string>)
      returns (t: Option<Terminal>)
      requires Serving(w, View(), call) && |calls| < toolCalls + refusals
      modifies this
      ensures t.None? ==> Going(w, View())
      ensures t.Some? ==> Over(w, View(), t.value)
      ensures View()
           == WithCompletion(old(View()), call, w.parse(call.arguments).arguments, content, requested, returned)
      ensures t.Some? <==> w.cancelled(old(now))
      ensures t.Some? ==> t.value.name == Cancelled && t.value.error.None?
      ensures now == old(now) + 1 && (t.Some? ==> Grounded(w, View(), t.value))
    {
      CompletionKeeps(w, View(), call, content, requested, returned);
      Complete(call, w.parse(call.arguments).arguments, content, requested, returned);
      if w.cancelled(now) {
        t := Some(End(Cancelled, "after tool", None, None));
        GoingCanEnd(w, View(), t.value);
      } else {
        t := None;
      }
      now := now + 1;
    }

    method Arrive(w: World, call: Call)
      requires Going(w, View()) && NextCall(View(), call)
      modifies this`transcript
      ensures Serving(w, View(), call) && View() == Arrived(old(View()), call)
    {
      CallArrives(w, View(), call);
      transcript := transcript + [FunctionCall(call)];
    }

    /** Schema, then scope, then classification: the first that objects, and no later one is asked. */
    method CheckArguments(w: World, call: Call) returns (error: Option<LabError>)
      modifies this`now
      ensures View() == old(View())
      ensures error == Objection(w, call, old(now))
      ensures now >= old(now) && (error.None? ==> now == old(now) + 2)
    {
      var parsed := w.parse(call.arguments);
      error := if parsed.error.Some? then parsed.error else w.schema(call.name, parsed.arguments);
      if error.Some? { return; }
      error := w.scope(now);
      now := now + 1;
      if error.Some? { return; }
      error := w.classification(now);
      now := now + 1;
    }

    /** A call that passed the budget: refused by the first gate that objects, or executed. */
    method ServeCounted(w: World, call: Call) returns (t: Option<Terminal>)
      requires Serving(w, View(), call) && executions < toolCalls && |calls| < toolCalls + refusals
      modifies this
      ensures t.None? ==> Going(w, View())
      ensures t.Some? ==> Over(w, View(), t.value)
      ensures ServedCounted(w, old(View()), call, old(now), View(), t.Some?)
      ensures t.Some? ==> CountedEnds(w, call, old(now), t.value)
      ensures now >= old(now) && (t.Some? ==> Grounded(w, View(), t.value))
    {
      var error := CheckArguments(w, call);
      if error.Some? {
        t := RefuseAndMaybeTerminate(w, call, error.value);
      } else {
        t := ExecuteTool(w, call);
      }
    }

    /**
     One call through the five gates: catalog, budget, schema, scope, classification. A
     tool that is not offered costs no tool call; the call is executed exactly if no gate objects, and
     what is recorded and answered is the tool's result or the objection of the first gate that has one.
     */
    method ServeCall(w: World, call: Call) returns (t: Option<Terminal>)
      requires Going(w, View()) && NextCall(View(), call)
      modifies this
      ensures t.None? ==> Going(w, View())
      ensures t.Some? ==> Over(w, View(), t.value)
      ensures Served(w, old(View()), call, old(now), View())
      ensures t.Some? <==> EndsTurn(w, old(View()), call, old(now), View())
      ensures t.Some? ==> EndsAs(w, call, toolCalls, old(now), t.value)
      ensures now >= old(now) && (call.name in w.offered ==> now > old(now))
      ensures t.Some? ==> Grounded(w, View(), t.value)
    {
      ghost var before := View();
      Arrive(w, call);
      ghost var arrived := View();
      t := ServeArrived(w, call);
      ArrivedIsServed(w, before, arrived, call, old(now), View(), t.Some?);
      if t.Some? { ArrivedEndsAs(w, call, before.toolCalls, old(now), t.value); }
    }

    method ServeArrived(w: World, call: Call) returns (t: Option<Terminal>)
      requires Serving(w, View(), call)
      modifies this
      ensures t.None? ==> Going(w, View())
      ensures t.Some? ==> Over(w, View(), t.value)
      ensures ServedArrived(w, old(View()), call, old(now), View(), t.Some?)
      ensures t.Some? ==> ArrivedEnds(w, call, old(toolCalls), old(now), t.value)
      ensures now >= old(now) && (call.name in w.offered ==> now > old(now))
      ensures t.Some? ==> Grounded(w, View(), t.value)
    {
      if call.name !in w.offered {
        var code := if call.name in w.catalog then ToolNotOffered else ToolUnknown;
        t := RefuseAndMaybeTerminate(w, call, LabError(code, call.name));
      } else {
        t := ServeOffered(w, call);
      }
    }

    /** A call of an offered tool: the budget first, then its arguments. */
    method ServeOffered(w: World, call: Call) returns (t: Option<Terminal>)
      requires Serving(w, View(), call) && call.name in w.offered
      modifies this
      ensures t.None? ==> Going(w, View())
      ensures t.Some? ==> Over(w, View(), t.value)
      ensures OverBudget(w, old(toolCalls) + 1, old(now)) ==>
        t.Some? && View() == DeniedCall(w, Counted(old(View())), call)
      ensures !OverBudget(w, old(toolCalls) + 1, old(now)) ==>
        ServedCounted(w, Counted(old(View())), call, old(now) + 1, View(), t.Some?)
      ensures t.Some? ==> ArrivedEnds(w, call, old(toolCalls), old(now), t.value)
      ensures now > old(now) && (t.Some? ==> Grounded(w, View(), t.value))
    {
      t := PassBudget(w, call);
      if t.None? { t := ServeCounted(w, call); }
    }

    method Receive(w: World, batch: seq<Call>)
      requires Going(w, View())
      modifies this`received
      ensures Going(w, View()) && received == old(received) + batch
    {
      ReceiveKeeps(w, View(), batch);
      received := received + batch;
    }

    /** `serve`: the calls of one reply in order, until the turn ends. */
    method Serve(w: World, batch: seq<Call>, ghost moments: seq<nat>) returns (t: Option<Terminal>, ghost all: seq<nat>)
      requires Going(w, View()) && |calls| == |received| && Accounted(w, View(), moments, now)
      modifies this
      ensures received == old(received) + batch && roundTrips == old(roundTrips) && requests == old(requests)
      ensures t.None? ==> Going(w, View()) && |calls| == |received|
      ensures t.Some? ==> Over(w, View(), t.value) && Grounded(w, View(), t.value) && Blamed(w, View(), all, t.value)
      ensures Accounted(w, View(), all, now)
    {
      ghost var before := View();
      Receive(w, batch);
      all := moments;
      AccountedLater(w, before, View(), moments, now, now);
      for n := 0 to |batch|
        invariant Going(w, View()) && received == old(received) + batch
        invariant |calls| == |old(received)| + n && roundTrips == old(roundTrips) && requests == old(requests)
        invariant Accounted(w, View(), all, now)
      {
        t, all := ServeNth(w, old(received), batch, n, all);
        if t.Some? { return; }
      }
      t := None;
    }

    method ServeNth(w: World, ghost earlier: seq<Call>, batch: seq<Call>, n: nat, ghost moments: seq<nat>)
      returns (t: Option<Terminal>, ghost all: seq<nat>)
      requires Going(w, View()) && received == earlier + batch && |calls| == |earlier| + n && n < |batch|
      requires Accounted(w, View(), moments, now)
      modifies this
      ensures t.None? ==> Going(w, View())
      ensures t.Some? ==> Over(w, View(), t.value) && Grounded(w, View(), t.value) && Blamed(w, View(), all, t.value)
      ensures received == old(received) && |calls| == old(|calls|) + 1
      ensures roundTrips == old(roundTrips) && requests == old(requests)
      ensures Accounted(w, View(), all, now)
    {
      ghost var before, at := View(), now;
      NthOfBatch(View(), earlier, batch, n);
      t := ServeCall(w, batch[n]);
      AccountedMore(w, before, batch[n], at, View(), moments, now);
      all := moments + [at];
    }
  }

  /**
   The loop of `execute`: round trips until the turn answers, exhausts a budget, fails or is cancelled.
   Beside the final log stand the moments at which its calls were served and the provider was asked.
   */
  method RunTurn(w: World, history: seq<Item>)
    returns (t: Terminal, log: Log, ghost moments: seq<nat>, ghost rounds: seq<nat>)
    requires w.limits.toolCalls > 0 && w.limits.roundTrips > 0 && w.limits.refusals > 0
    ensures log.history == history
    ensures Over(w, log, t)
    ensures exists now :: Accounted(w, log, moments, now)
    ensures Fed(w, log, rounds) && Justified(w, log, rounds, t) && Blamed(w, log, moments, t)
  {
    var s := new LabTurnState(history);
    TurnStarts(w, s.View());
    moments, rounds := [], [];
    var ended := Boundary(w, s);
    while ended.None?
      invariant ended.None? ==> Going(w, s.View()) && |s.calls| == |s.received| && s.roundTrips < w.limits.roundTrips
      invariant ended.Some? ==> Over(w, s.View(), ended.value) && Justified(w, s.View(), rounds, ended.value)
      invariant ended.Some? ==> Blamed(w, s.View(), moments, ended.value)
      invariant Accounted(w, s.View(), moments, s.now) && Fed(w, s.View(), rounds)
      decreases ended.None?, w.limits.roundTrips - s.roundTrips
    {
      ended, moments, rounds := RoundTrip(w, s, moments, rounds);
      if ended.None? {
        ghost var before, at := s.View(), s.now;
        ended := Boundary(w, s);
        AccountedLater(w, before, s.View(), moments, at, s.now);
      }
    }
    return ended.value, s.View(), moments, rounds;
  }

  /** One provider request: log it, and count it if a response came back. */
  method Invoke(w: World, s: LabTurnState) returns (reply: Reply)
    modifies s
    ensures reply == w.reply(old(s.now)) && s.now == old(s.now) + 1
    ensures reply.InvokeFailed? ==> s.View() == old(s.View()).(requests := old(s.requests) + [old(s.transcript)])
    ensures !reply.InvokeFailed? ==> s.View() == Requested(old(s.View()))
  {
    reply := w.reply(s.now);
    s.now, s.requests := s.now + 1, s.requests + [s.transcript];
    if !reply.InvokeFailed? { s.roundTrips := s.roundTrips + 1; }
  }

  /** One iteration of the loop after its boundary checks. */
  method RoundTrip(w: World, s: LabTurnState, ghost moments: seq<nat>, ghost rounds: seq<nat>)
    returns (t: Option<Terminal>, ghost served: seq<nat>, ghost asked: seq<nat>)
    requires Going(w, s.View()) && |s.calls| == |s.received| && s.roundTrips < w.limits.roundTrips
    requires Accounted(w, s.View(), moments, s.now) && Fed(w, s.View(), rounds)
    modifies s
    ensures t.None? ==> Going(w, s.View()) && |s.calls| == |s.received| && s.roundTrips == old(s.roundTrips) + 1
    ensures t.Some? ==> Over(w, s.View(), t.value) && Justified(w, s.View(), asked, t.value)
    ensures t.Some? ==> Blamed(w, s.View(), served, t.value)
    ensures Accounted(w, s.View(), served, s.now) && Fed(w, s.View(), asked)
  {
    ghost var before := s.View();
    served, asked := moments, rounds + [s.now];
    var reply := Invoke(w, s);
    AccountedLater(w, before, s.View(), moments, old(s.now), s.now);
    RoundAsked(w, rounds, old(s.now));
    if reply.InvokeFailed? {
      t := Some(s.End(ProviderFailed, "provider", None, None));
      InvocationEnds(w, before, t.value);
      return;
    }
    RequestKeeps(w, before);
    if reply.Response? && reply.calls != [] {
      t, served := s.Serve(w, reply.calls, moments);
      return;
    }
    t := Conclude(w, s, reply);
  }

  /** A reply without calls ends the turn: with its text, or with a failure if it has none. */
  method Conclude(w: World, s: LabTurnState, reply: Reply) returns (t: Option<Terminal>)
    requires Going(w, s.View()) && !reply.InvokeFailed? && (reply.Response? ==> reply.calls == [])
    ensures t.Some? && Over(w, s.View(), t.value) && t.value.error.None?
    ensures if t.value.complete then reply == Response([], t.value.content) && t.value.content != ""
            else t.value.name == ProviderFailed && (reply.Response? ==> reply.text == "")
  {
    if reply.Unusable? || reply.text == "" {
      t := Some(s.End(ProviderFailed, "provider", None, None));
    } else {
      t := Some(s.End(if s.proposed then Proposed else Answered, reply.text, None, None));
    }
    GoingCanEnd(w, s.View(), t.value);
  }

  lemma RoundAsked(w: World, rounds: seq<nat>, at: nat)
    ensures CallsOf(w, rounds + [at]) == CallsOf(w, rounds) + if w.reply(at).Response? then w.reply(at).calls else []
    ensures Responses(w, rounds + [at]) == Responses(w, rounds) + if w.reply(at).InvokeFailed? then 0 else 1
  {
    assert (rounds + [at])[..|rounds|] == rounds;
  }

  /** The checks before a round trip: cancellation, wall time, round trips. */
  method Boundary(w: World, s: LabTurnState) returns (t: Option<Terminal>)
    requires Going(w, s.View())
    modifies s`now
    ensures s.View() == old(s.View())
    ensures s.now >= old(s.now)
    ensures t.Some? <==>
      w.cancelled(old(s.now)) || w.wallExhausted(old(s.now) + 1) || s.roundTrips >= w.limits.roundTrips
    ensures t.Some? ==> Over(w, s.View(), t.value) && Grounded(w, s.View(), t.value) && t.value.error.None?
    ensures t.Some? ==>
      if w.cancelled(old(s.now)) then t.value.name == Cancelled
      else t.value.budget == Some(if w.wallExhausted(old(s.now) + 1) then WallSeconds else RoundTrips)
  {
    var cancelled, late := w.cancelled(s.now), w.wallExhausted(s.now + 1);
    s.now := s.now + 2;
    if !cancelled && !late && s.roundTrips < w.limits.roundTrips { return None; }
    t := Some(s.End(if cancelled then Cancelled else BudgetExhausted, "", None,
      if cancelled then None else if late then Some(WallSeconds) else Some(RoundTrips)));
    GoingCanEnd(w, s.View(), t.value);
  }

  // ----- small steps of the machine

  lemma NthOfBatch(l: Log, earlier: seq<Call>, batch: seq<Call>, n: nat)
    requires l.received == earlier + batch && |l.calls| == |earlier| + n && n < |batch|
    ensures NextCall(l, batch[n])
  {
  }

  lemma GoingCanEnd(w: World, l: Log, t: Terminal)
    requires Going(w, l) && Reflects(l, t) && Explained(w, l, t) && t.name != RepeatedRefusal && !Denied(t)
    ensures Over(w, l, t)
  {
  }

  lemma CallArrives(w: World, l: Log, call: Call)
    requires Going(w, l) && NextCall(l, call)
    ensures Serving(w, l.(transcript := l.transcript + [FunctionCall(call)]), call)
  {
    var after := l.(transcript := l.transcript + [FunctionCall(call)]);
    assert after.transcript[..|after.transcript| - 1] == l.transcript;
    assert after.(transcript := after.transcript[..|after.transcript| - 1]) == l;
  }

  /** Counting the attempt leaves room for one more call, one more execution or one denial. */
  lemma CountAttempt(w: World, l: Log, call: Call)
    requires Serving(w, l, call)
    ensures l.executions <= l.toolCalls <= w.limits.toolCalls && |l.calls| <= l.toolCalls + l.refusals
  {
  }

  lemma AttemptFits(w: World, l: Log, counted: Log, call: Call)
    requires Serving(w, l, call) && counted == Counted(l) && l.toolCalls < w.limits.toolCalls
    ensures Serving(w, counted, call)
    ensures counted.executions < counted.toolCalls && |counted.calls| < counted.toolCalls + counted.refusals
  {
    var before := l.(transcript := l.transcript[..|l.transcript| - 1]);
    CountKeeps(w, before);
    assert counted.(transcript := counted.transcript[..|counted.transcript| - 1]) == Counted(before);
    CountAttempt(w, l, call);
  }

  lemma CountKeeps(w: World, l: Log)
    requires Going(w, l) && l.toolCalls < w.limits.toolCalls
    ensures Going(w, Counted(l))
  {
    assert Sound(w, Counted(l));
  }

  lemma ReceiveKeeps(w: World, l: Log, batch: seq<Call>)
    requires Going(w, l)
    ensures Going(w, l.(received := l.received + batch))
  {
    assert Sound(w, l.(received := l.received + batch));
  }

  lemma TurnStarts(w: World, l: Log)
    requires w.limits.refusals > 0
    requires l == Log(l.history, [], l.history, [], [], [], [], {}, [], 0, 0, 0, 0, false, [])
    ensures Going(w, l)
  {
    assert Sound(w, l);
  }

  ghost function Requested(l: Log): Log {
    l.(requests := l.requests + [l.transcript], roundTrips := l.roundTrips + 1)
  }

  lemma RequestSound(w: World, l: Log)
    requires Going(w, l) && l.roundTrips < w.limits.roundTrips
    ensures Sound(w, l.(requests := l.requests + [l.transcript]))
  {
    assert l.calls[..|l.calls|] == l.calls;
    assert RequestPaired(l.history, l.transcript, l.calls);
  }

  lemma RequestKeeps(w: World, l: Log)
    requires Going(w, l) && l.roundTrips < w.limits.roundTrips
    ensures Going(w, Requested(l))
  {
    RequestSound(w, l);
    assert Sound(w, Requested(l));
  }

  lemma InvocationEnds(w: World, l: Log, t: Terminal)
    requires Going(w, l) && l.roundTrips < w.limits.roundTrips
    requires Reflects(l, t) && t.name == ProviderFailed && !t.complete && t.budget.None?
    ensures Over(w, l.(requests := l.requests + [l.transcript]), t)
  {
    RequestSound(w, l);
  }
}
