/** The entry flow `main`: two assistant turns on one thread with a direct
    clipboard write between them.

    The flow registers the clipboard tool, drives a first run, prints every
    message of the thread in creation order and the clipboard content, then
    copies a fixed text to the clipboard itself, drives a second run and
    prints the two latest messages and the clipboard content. The service's
    answers for each run and the message listings are parameters. */
module Session {

  import opened Wrappers
  import opened ClipboardTool
  import opened RunPoller
  import opened MessageDisplay

  const ClipboardToolName: string := "clipboard_operations"

  /** The text the flow copies to the clipboard itself between the turns. */
  const OutOfBandText: string := "Testing other clipboard content"

  /** The one-entry tool registry of the entry flow. */
  function MainTools(): Registry {
    map[ClipboardToolName := ClipboardOperations]
  }

  /** Why the flow stopped early: a run threw (the top-level handler catches
      it and the flow ends), the service never released a run, or printing a
      display threw. `turn` is 1 or 2. */
  datatype Stop = RunThrew(turn: nat, fault: Fault) | RunHung(turn: nat) | PrintThrew(turn: nat)

  /** What the flow shows. `secondTurn` is present in `Stopped` when the
      second run was driven. */
  datatype Report =
    | Shown(first: Outcome, firstShown: seq<Message>, clipAfterFirst: string,
            second: Outcome, secondShown: seq<Message>, clipAfterSecond: string)
    | Stopped(first: Outcome, secondTurn: Option<Outcome>, stop: Stop)

  /** How a driven run stops the flow, if it does. */
  function RunStop(o: Outcome, turn: nat): Option<Stop> {
    match o.end
    case Returned(_) => None
    case Threw(f) => Some(RunThrew(turn, f))
    case Unfinished => Some(RunHung(turn))
  }

  /** The flow after both runs are known: `o1` and `o2` are what driving
      the first and the second run gives, and `listed1`, `listed2` the thread
      listings after each. The second run only counts when the first
      returned and its display printed. */
  function Flow(o1: Outcome, o2: Outcome, listed1: seq<Message>, listed2: seq<Message>): (r: Report)
    ensures r.first == o1
    ensures r.Shown? ==> r.second == o2
    ensures r.Stopped? && r.secondTurn.Some? ==> r.secondTurn.value == o2
    ensures r.Shown? <==>
              o1.end.Returned? && AllPrintable(listed1) && o2.end.Returned? && AllPrintable(SecondDisplay(listed2))
    ensures r.Stopped? ==> r.stop.turn == 1 || r.stop.turn == 2
    ensures r.Stopped? && r.stop.PrintThrew? ==>
              o1.end.Returned? &&
              if r.stop.turn == 1 then r.secondTurn.None? && !AllPrintable(listed1)
              else r.secondTurn.Some? && AllPrintable(listed1) && o2.end.Returned? && !AllPrintable(SecondDisplay(listed2))
    ensures r.Stopped? && (r.stop.RunThrew? || r.stop.RunHung?) ==>
              if r.stop.turn == 1 then r.secondTurn.None? && !o1.end.Returned?
              else r.secondTurn.Some? && o1.end.Returned? && AllPrintable(listed1) && !o2.end.Returned?
    ensures r.Stopped? && r.stop.RunThrew? ==>
              (if r.stop.turn == 1 then o1 else o2).end == Threw(r.stop.fault)
    ensures r.Stopped? && r.stop.RunHung? ==>
              (if r.stop.turn == 1 then o1 else o2).end.Unfinished?
    ensures r.Shown? ==>
              && r.clipAfterFirst == o1.clipboard
              && r.clipAfterSecond == o2.clipboard
              && AllInOrder(r.firstShown, listed1)
              && LatestTwoInOrder(r.secondShown, listed2)
  {
    if RunStop(o1, 1).Some? then Stopped(o1, None, RunStop(o1, 1).value)
    else
      var shown1 := FirstDisplay(listed1);
      PrintableAnyOrder(listed1, shown1);
      if !AllPrintable(shown1) then Stopped(o1, None, PrintThrew(1))
      else if RunStop(o2, 2).Some? then Stopped(o1, Some(o2), RunStop(o2, 2).value)
      else
        var shown2 := SecondDisplay(listed2);
        if !AllPrintable(shown2) then Stopped(o1, Some(o2), PrintThrew(2))
        else Shown(o1, shown1, o1.clipboard, o2, shown2, o2.clipboard)
  }

  /** The flow, given the service's answers for each run (`obs1`, `obs2`),
      the thread listing after each run, and the clipboard at start. The
      first run starts from that clipboard; the second from the text the
      flow copied itself, whatever the first run left. */
  function Main(obs1: seq<Run>, obs2: seq<Run>, listed1: seq<Message>, listed2: seq<Message>, clip: string): (r: Report)
    ensures r.first == Execute(obs1, MainTools(), clip)
    ensures r.Shown? ==> r.second == Execute(obs2, MainTools(), OutOfBandText)
    ensures r.Stopped? && r.secondTurn.Some? ==> r.secondTurn.value == Execute(obs2, MainTools(), OutOfBandText)
    ensures r.Shown? <==>
              && Execute(obs1, MainTools(), clip).end.Returned? && AllPrintable(listed1)
              && Execute(obs2, MainTools(), OutOfBandText).end.Returned? && AllPrintable(SecondDisplay(listed2))
    ensures r.Shown? ==>
              && r.clipAfterFirst == r.first.clipboard
              && r.clipAfterSecond == r.second.clipboard
              && AllInOrder(r.firstShown, listed1)
              && LatestTwoInOrder(r.secondShown, listed2)
  {
    Flow(Execute(obs1, MainTools(), clip), Execute(obs2, MainTools(), OutOfBandText), listed1, listed2)
  }

  /** The second turn sees the clipboard as the flow left it, not as the
      first turn did: a paste it dispatches reports the text the flow copied
      itself, and leaves it in place. */
  lemma SecondPasteSeesOutOfBandText(obs2: seq<Run>)
    requires var o := Execute(obs2, MainTools(), OutOfBandText);
             |o.dispatched| == 1 && IsPaste(o.dispatched[0].invocation.arguments)
    ensures var o := Execute(obs2, MainTools(), OutOfBandText);
            o.submissions[0].outputs == [ToolOutput(o.dispatched[0].id, Pasted(OutOfBandText))] &&
            o.clipboard == OutOfBandText
  {
  }

  /** Whether a display can be printed does not depend on its order. */
  lemma PrintableAnyOrder(listed: seq<Message>, shown: seq<Message>)
    requires multiset(shown) == multiset(listed)
    ensures AllPrintable(shown) <==> AllPrintable(listed)
  {
    if !AllPrintable(listed) {
      var i :| 0 <= i < |listed| && !Printable(listed[i]);
      assert listed[i] in multiset(shown);
    }
    if !AllPrintable(shown) {
      var i :| 0 <= i < |shown| && !Printable(shown[i]);
      assert shown[i] in multiset(listed);
    }
  }

  /** A copy of the greeting requested by the first turn: the service queues
      the run, runs it, asks for one clipboard copy, then completes. */
  lemma CopyScenario()
    ensures var call := ToolCall("call_1", FunctionKind,
                                 FunctionCall(ClipboardToolName, ClipArgs(Some(CopyOp), Some("Hello, clipboard!"))));
            var obs := [Run("run_1", Queued, None), Run("run_1", InProgress, None),
                        Run("run_1", RequiresAction, Some([call])), Run("run_1", Completed, None)];
            Execute(obs, MainTools(), "") ==
              Outcome(Returned(obs[3]), [call], [Submission("run_1", [ToolOutput("call_1", Copied)])],
                      "Hello, clipboard!")
  {
    var call := ToolCall("call_1", FunctionKind,
                         FunctionCall(ClipboardToolName, ClipArgs(Some(CopyOp), Some("Hello, clipboard!"))));
    var obs := [Run("run_1", Queued, None), Run("run_1", InProgress, None),
                Run("run_1", RequiresAction, Some([call])), Run("run_1", Completed, None)];
    PollFindsFirst(obs, 0, 2);
    PollFindsFirst(obs, 3, 3);
    assert Dispatchable(obs[2]) && !MissingCall(obs[2]);
  }
}
