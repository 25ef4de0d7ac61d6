/** The run-driving state machine `executeAssistantRun`.

    The remote assistant service is replaced by an oracle: the sequence of
    run values it answers with, in order. The first element answers the
    request that creates the run, each status poll consumes the next element,
    and submitting tool outputs consumes the element after the run that asked
    for them. Driving a run is then a pure function of that sequence, the tool
    registry and the clipboard cell the tools act on. */
module RunPoller {

  import opened Wrappers
  import opened ClipboardTool

  /** The statuses the service reports for a run. */
  datatype Status =
    | Queued
    | InProgress
    | RequiresAction
    | Cancelling
    | Cancelled
    | Failed
    | Completed
    | Incomplete
    | Expired

  /** The named function a tool call asks for, with its parsed arguments. */
  datatype FunctionCall = FunctionCall(name: string, arguments: ClipArgs)

  /** One pending tool call; `kind` is its `type` field. */
  datatype ToolCall = ToolCall(id: string, kind: string, invocation: FunctionCall)

  /** A run as observed. `pending` is `required_action.submit_tool_outputs`:
      `None` when either level is absent, otherwise the pending tool calls. */
  datatype Run = Run(id: string, status: Status, pending: Option<seq<ToolCall>>)

  /** One answered tool call, `{tool_call_id, output}`. */
  datatype ToolOutput = ToolOutput(toolCallId: string, output: ToolResult)

  /** One `submitToolOutputs` request: the run it targets and its batch. */
  datatype Submission = Submission(runId: string, outputs: seq<ToolOutput>)

  /** The tools the client can run, as a closed set of kinds. */
  datatype Tool = ClipboardOperations

  /** `{ [key: string]: Function }`: tool name to tool. */
  type Registry = map<string, Tool>

  /** Exceptions the JavaScript code raises. */
  datatype Fault =
    | MissingToolCall          // `tool_calls[0]` is undefined, so reading `.type` throws
    | NotAFunction(name: string) // `tools[name]` is undefined, so calling it throws

  /** How a drive ends: the run it returns, the exception it raises, or the
      observation sequence running out while the code would still wait on
      the service. */
  datatype End = Returned(run: Run) | Threw(fault: Fault) | Unfinished

  /** Everything observable about one drive: how it ended, the tool calls
      handed to a handler, the submissions sent, and the clipboard after. */
  datatype Outcome = Outcome(end: End, dispatched: seq<ToolCall>, submissions: seq<Submission>, clipboard: string)

  const FunctionKind: string := "function"

  /** The statuses both polling loops keep waiting on. */
  predicate Polling(s: Status) {
    s == Queued || s == InProgress
  }

  /** `obs[j]` is the first observation at or after `i` on which a polling
      loop started at `i` stops. */
  ghost predicate SettlesAt(obs: seq<Run>, i: nat, j: nat) {
    i <= j < |obs| && !Polling(obs[j].status) &&
    forall k :: i <= k < j ==> Polling(obs[k].status)
  }

  /** Some observation at or after `i` is not a polling status. */
  ghost predicate LeavesPolling(obs: seq<Run>, i: nat) {
    exists j :: i <= j < |obs| && !Polling(obs[j].status)
  }

  /** A polling loop whose current run is `obs[i]`: the index of the run it
      stops on, or `None` when every remaining observation is still queued
      or in progress. */
  function Poll(obs: seq<Run>, i: nat): (r: Option<nat>)
    decreases |obs| - i
    ensures r.Some? ==> SettlesAt(obs, i, r.value)
    ensures r.None? ==> forall k :: i <= k < |obs| ==> Polling(obs[k].status)
  {
    if i >= |obs| then None
    else if !Polling(obs[i].status) then Some(i)
    else Poll(obs, i + 1)
  }

  /** The run asks for a tool and its first pending call is a function call. */
  predicate Dispatchable(run: Run) {
    run.status == RequiresAction && run.pending.Some? &&
    |run.pending.value| > 0 && run.pending.value[0].kind == FunctionKind
  }

  /** The run asks for a tool but the list of pending calls is empty. */
  predicate MissingCall(run: Run) {
    run.status == RequiresAction && run.pending == Some([])
  }

  /** Runs one tool of the registry. */
  function Invoke(tool: Tool, args: ClipArgs, clip: string): Invocation {
    match tool
    case ClipboardOperations => Handle(args, clip)
  }

  /** `executeAssistantRun`: poll until the run leaves `queued` /
      `in_progress`; if it then requires action and its first pending call is
      a function call, run that one handler, submit its result as a batch of
      one output tagged with that call's id, and poll again; return the run
      the last loop stopped on. */
  function Execute(obs: seq<Run>, tools: Registry, clip: string): (o: Outcome)
    ensures o.end.Returned? ==> o.end.run in obs && !Polling(o.end.run.status)
    ensures |o.dispatched| <= 1 && |o.submissions| == |o.dispatched|
    ensures o.end.Threw? ==> o.dispatched == []
    ensures |o.dispatched| == 1 ==>
              o.dispatched[0].kind == FunctionKind && o.dispatched[0].invocation.name in tools
    ensures |o.dispatched| == 1 ==>
              var call := o.dispatched[0];
              var inv := Invoke(tools[call.invocation.name], call.invocation.arguments, clip);
              o.submissions[0].outputs == [ToolOutput(call.id, inv.result)] && o.clipboard == inv.clipboard
    ensures o.dispatched == [] ==> o.clipboard == clip
    ensures !LeavesPolling(obs, 0) ==> o == Outcome(Unfinished, [], [], clip)
  {
    match Poll(obs, 0)
    case None => Outcome(Unfinished, [], [], clip)
    case Some(j) =>
      var run := obs[j];
      if MissingCall(run) then
        Outcome(Threw(MissingToolCall), [], [], clip)
      else if !Dispatchable(run) then
        Outcome(Returned(run), [], [], clip)
      else
        var call := run.pending.value[0];
        var name := call.invocation.name;
        if name !in tools then
          Outcome(Threw(NotAFunction(name)), [], [], clip)
        else
          var inv := Invoke(tools[name], call.invocation.arguments, clip);
          var sent := Submission(run.id, [ToolOutput(call.id, inv.result)]);
          match Poll(obs, j + 1)
          case None => Outcome(Unfinished, [call], [sent], inv.clipboard)
          case Some(k) => Outcome(Returned(obs[k]), [call], [sent], inv.clipboard)
  }

  /** A polling loop stops on the first non-polling observation and nowhere
      else. */
  lemma PollFindsFirst(obs: seq<Run>, i: nat, j: nat)
    requires SettlesAt(obs, i, j)
    ensures Poll(obs, i) == Some(j)
  {
  }

  /** A polling loop stops exactly when some later observation leaves
      `queued` / `in_progress`. */
  lemma PollStopsIff(obs: seq<Run>, i: nat)
    ensures Poll(obs, i).Some? <==> LeavesPolling(obs, i)
  {
    if Poll(obs, i).Some? {
      var j := Poll(obs, i).value;
      assert i <= j < |obs| && !Polling(obs[j].status);
    }
  }

  /** A handler runs exactly when the run the first loop stops on requires
      action, its first pending call is a function call and the registry
      knows that call's name; the call dispatched is then that first one,
      and its submission goes to that run. */
  lemma DispatchIff(obs: seq<Run>, tools: Registry, clip: string, j: nat)
    requires SettlesAt(obs, 0, j)
    ensures var o := Execute(obs, tools, clip);
            |o.dispatched| == 1 <==>
              Dispatchable(obs[j]) && obs[j].pending.value[0].invocation.name in tools
    ensures var o := Execute(obs, tools, clip);
            |o.dispatched| == 1 ==>
              o.dispatched[0] == obs[j].pending.value[0] && o.submissions[0].runId == obs[j].id
  {
    PollFindsFirst(obs, 0, j);
  }

  /** When the first loop stops on anything but a dispatchable request
      (a terminal status, or a request whose first call is not a function
      call), nothing runs, nothing is submitted and that run is returned. */
  lemma NoDispatchReturnsSettled(obs: seq<Run>, tools: Registry, clip: string, j: nat)
    requires SettlesAt(obs, 0, j)
    requires !Dispatchable(obs[j]) && !MissingCall(obs[j])
    ensures Execute(obs, tools, clip) == Outcome(Returned(obs[j]), [], [], clip)
  {
    PollFindsFirst(obs, 0, j);
  }

  /** A request whose list of pending calls is empty makes reading the first
      call's type throw: nothing runs and nothing is submitted. */
  lemma MissingCallThrows(obs: seq<Run>, tools: Registry, clip: string, j: nat)
    requires SettlesAt(obs, 0, j) && MissingCall(obs[j])
    ensures Execute(obs, tools, clip) == Outcome(Threw(MissingToolCall), [], [], clip)
  {
    PollFindsFirst(obs, 0, j);
  }

  /** A first function call whose name the registry lacks makes calling the
      undefined entry throw, before anything is submitted or the clipboard
      changes. */
  lemma UnregisteredToolThrows(obs: seq<Run>, tools: Registry, clip: string, j: nat)
    requires SettlesAt(obs, 0, j) && Dispatchable(obs[j])
    requires obs[j].pending.value[0].invocation.name !in tools
    ensures Execute(obs, tools, clip) ==
              Outcome(Threw(NotAFunction(obs[j].pending.value[0].invocation.name)), [], [], clip)
  {
    PollFindsFirst(obs, 0, j);
  }

  /** After the one submission the second loop's stopping run is returned
      as it is, even when it requires action again. */
  lemma SecondStopReturned(obs: seq<Run>, tools: Registry, clip: string, j: nat, k: nat)
    requires SettlesAt(obs, 0, j)
    requires Dispatchable(obs[j]) && obs[j].pending.value[0].invocation.name in tools
    requires SettlesAt(obs, j + 1, k)
    ensures var o := Execute(obs, tools, clip);
            o.end == Returned(obs[k]) && |o.dispatched| == 1 && |o.submissions| == 1
  {
    PollFindsFirst(obs, 0, j);
    PollFindsFirst(obs, j + 1, k);
  }

  /** After the one submission, a service that never again leaves `queued`
      / `in_progress` keeps the second loop waiting: nothing is returned. */
  lemma SecondLoopHangs(obs: seq<Run>, tools: Registry, clip: string, j: nat)
    requires SettlesAt(obs, 0, j) && Dispatchable(obs[j])
    requires obs[j].pending.value[0].invocation.name in tools
    requires !LeavesPolling(obs, j + 1)
    ensures Execute(obs, tools, clip).end == Unfinished
  {
    PollFindsFirst(obs, 0, j);
    PollStopsIff(obs, j + 1);
  }

  /** If the service leaves `queued` / `in_progress` once, and once more
      after a dispatched request, the drive finishes (it returns or throws)
      within the observations. */
  lemma Finishes(obs: seq<Run>, tools: Registry, clip: string)
    requires LeavesPolling(obs, 0)
    requires forall j: nat :: SettlesAt(obs, 0, j) && Dispatchable(obs[j]) ==> LeavesPolling(obs, j + 1)
    ensures !Execute(obs, tools, clip).end.Unfinished?
  {
    PollStopsIff(obs, 0);
    var j := Poll(obs, 0).value;
    if Dispatchable(obs[j]) {
      PollStopsIff(obs, j + 1);
    }
  }

  /** Only the first of several pending calls is answered: the batch holds
      one output, and no other pending call's id appears in it. */
  lemma OnlyFirstCallAnswered(obs: seq<Run>, tools: Registry, clip: string, j: nat, n: nat)
    requires SettlesAt(obs, 0, j) && Dispatchable(obs[j])
    requires obs[j].pending.value[0].invocation.name in tools
    requires 0 < n < |obs[j].pending.value|
    requires obs[j].pending.value[n].id != obs[j].pending.value[0].id
    ensures var o := Execute(obs, tools, clip);
            forall out :: out in o.submissions[0].outputs ==> out.toolCallId != obs[j].pending.value[n].id
  {
    DispatchIff(obs, tools, clip, j);
  }
}
