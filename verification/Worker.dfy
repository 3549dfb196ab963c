/** One worker: the control points of the agent loop and what each durable step does. */
module Worker {
  import opened Prelude
  import opened Text
  import opened Transcript
  import opened Store

  /** What a control tool hands the runner. */
  datatype Display =
    | NoDisplay
    | PlanDisplay(draft: PlanDraft)
    | TaskDisplay(n: int, status: Option<TaskStatus>, note: string)
    | MemoriesDisplay(memories: string)
    | OrientationDisplay(orientation: string)
    | DoneDisplay(summary: string)

  datatype ToolResult = ToolResult(content: string, display: Display, isError: bool)

  /** How the checks and the push inside `done` turn out. */
  datatype Shipping = Refused(why: string) | PushFailed(why: string) | Pushed

  /** Where a worker stands between two durable steps. `rest` is the calls still to run, the
      current one first. */
  datatype Pc =
    | Top
    | Park(exits: bool)
    | Begin
    | Trail
    | Ask
    | Stream
    | Lost
    | Count(calls: seq<ToolCall>)
    | Close
    | Exec(rest: seq<ToolCall>)
    | Ready(rest: seq<ToolCall>)
    | Tooling(rest: seq<ToolCall>)
    | Settle(rest: seq<ToolCall>, result: ToolResult)
    | Noted(rest: seq<ToolCall>, result: ToolResult)
    | ShipClear(rest: seq<ToolCall>, text: string)
    | ShipRow(rest: seq<ToolCall>, text: string)
    | ShipEnd(rest: seq<ToolCall>)
    | Check(rest: seq<ToolCall>)
    | Failing
    | Exiting

  datatype Act =
    | ReadRun
    | ParkRun
    | CloseWindow
    | ReadTrailing
    | CallModel
    | Reply(content: string, calls: seq<ToolCall>, reasoning: seq<Reasoning>)
    | Silent
    | Broken(partial: string, reasoning: seq<Reasoning>)
    | CheckLost
    | CountStep
    | FinishIdle
    | CheckPause
    | StartTool
    | ToolReturns(result: ToolResult, logged: seq<string>)
    | ApplyResult(ship: Shipping)
    | AppendNoted
    | ClearBoard
    | AppendShipped
    | FinishDone
    | Recheck
    | Fail
    | AwaitTrouble
    | Exit

  /** One durable step: what it commits and where it leads. */
  datatype Move = Move(change: Change, pc: Pc)

  /** The calls that recovery will run: those of the newest asking turn that are wanted. */
  function Wanted(calls: seq<ToolCall>, ids: seq<CallId>): seq<ToolCall> {
    if calls == [] then []
    else if calls[0].id in ids then [calls[0]] + Wanted(calls[1..], ids)
    else Wanted(calls[1..], ids)
  }

  /** Store, model, sandbox and tool failures that escape `advance`. A tool that fails while a
      pause is requested, or is cancelled, is reported as stopped instead. */
  predicate MayFail(pc: Pc, pauseRequested: bool) {
    match pc
    case Begin | Trail | Ask | Stream | Lost | Count(_) | Close | Exec(_) | Ready(_) | Settle(_, _) | Noted(_, _)
      | ShipClear(_, _) | ShipRow(_, _) | ShipEnd(_) | Check(_) => true
    case Tooling(_) => !pauseRequested
    case _ => false
  }

  function Goto(pc: Pc): Move {
    Move(NO_CHANGE, pc)
  }

  /** A transaction's change, or the error path when it rolls back. */
  function OrFail(c: Option<Change>, pc: Pc): Move {
    if c.Some? then Move(c.value, pc) else Goto(Failing)
  }

  /** `done`: refused with an ordinary result, parked on a failed push, or on to the last writes. */
  function Ship(run: Run, rest: seq<ToolCall>, text: string, ship: Shipping): Move
    requires rest != []
  {
    match ship
    case Refused(why) => Move(OnlyRow(ToolRow(rest[0].id, why)), Check(rest[1..]))
    case PushFailed(why) => OrFail(AppendResultAndAwait(run, ToolRow(rest[0].id, why), Trouble), Top)
    case Pushed => Goto(ShipClear(rest, text))
  }

  /** The durable effect of a tool result, by tool name. */
  function ApplyControl(run: Run, project: Project, rest: seq<ToolCall>, result: ToolResult, ship: Shipping): Move
    requires rest != []
  {
    var name, row := rest[0].name, ToolRow(rest[0].id, result.content);
    var appended := Move(OnlyRow(row), Check(rest[1..]));
    if result.isError then appended
    else if name == "ask_human" then OrFail(AppendResultAndAwait(run, row, Question), Top)
    else if name == "create_plan" then
      if result.display.PlanDisplay? then OrFail(WritePlan(run, project, result.display.draft, row), Top) else Goto(Failing)
    else if name == "update_task" then
      if result.display.TaskDisplay? then
        match UpdateTask(project, result.display.n, result.display.status, result.display.note, row)
        case Some(c) => Move(c, Check(rest[1..]))
        case None => Move(OnlyRow(row.(content := "That did not work")), Check(rest[1..]))
      else Goto(Failing)
    else if name == "remember" then
      if result.display.MemoriesDisplay? then Move(SetMemories(project, result.display.memories), Noted(rest, result))
      else Goto(Failing)
    else if name == "record_orientation" then
      if result.display.OrientationDisplay? then Move(SetOrientation(project, result.display.orientation), Noted(rest, result))
      else Goto(Failing)
    else if name == "done" then
      if result.display.DoneDisplay? then Ship(run, rest, result.content, ship) else Goto(Failing)
    else appended
  }

  /** One step of the worker of a run whose row is `run` and whose rows are `t`, or None when
      `a` is not what the code does at `pc`. */
  function Step(run: Run, project: Project, t: seq<Message>, pc: Pc, a: Act): Option<Move> {
    match a
    case ReadRun =>
      if pc != Top then None
      else Some(Goto(if run.state != Running then Exiting else if run.pauseRequested then Park(true) else Begin))
    case ParkRun => if pc.Park? then Some(Move(MarkPaused(run), if pc.exits then Exiting else Top)) else None
    case CloseWindow =>
      if pc != Begin then None
      else
        var c := FinishIfTerminal(run, t);
        Some(if c.Some? then Move(c.value, Exiting) else Goto(Trail))
    case ReadTrailing =>
      if pc != Trail then None
      else Some(Goto(if Trailing(t) == [] then Ask else Exec(Wanted(LastCalls(t), Trailing(t)))))
    case CallModel => if pc == Ask then Some(Goto(Stream)) else None
    case Reply(content, calls, reasoning) =>
      if pc != Stream || (Blank(content) && calls == []) then None
      else Some(Move(OnlyRow(NewMessage(Assistant, content, calls, reasoning, None, false)), Count(calls)))
    case Silent => if pc == Stream then Some(Goto(Failing)) else None
    case Broken(partial, reasoning) =>
      if pc != Stream then None
      else if Blank(partial) then Some(Goto(Lost))
      else Some(Move(OnlyRow(NewMessage(Assistant, partial, [], reasoning, None, true)), Lost))
    case CheckLost => if pc == Lost then Some(Goto(if run.pauseRequested then Park(true) else Failing)) else None
    case CountStep =>
      if pc.Count? then Some(Move(IncrementRunStep(run), if pc.calls == [] then Close else Exec(pc.calls))) else None
    case FinishIdle => if pc == Close then Some(Move(FinishRun(run, Idle, ""), Exiting)) else None
    case CheckPause => if pc.Exec? then Some(Goto(if run.pauseRequested then Park(false) else Ready(pc.rest))) else None
    case StartTool => if pc.Ready? then Some(Goto(Tooling(pc.rest))) else None
    case ToolReturns(result, logged) =>
      if pc.Tooling? then Some(Move(NO_CHANGE.(logged := logged), Settle(pc.rest, result))) else None
    case ApplyResult(ship) =>
      if !pc.Settle? || pc.rest == [] then None else Some(ApplyControl(run, project, pc.rest, pc.result, ship))
    case AppendNoted =>
      if !pc.Noted? || pc.rest == [] then None
      else Some(Move(OnlyRow(ToolRow(pc.rest[0].id, pc.result.content)), Check(pc.rest[1..])))
    case ClearBoard => if pc.ShipClear? then Some(Move(ClearPlan(project), ShipRow(pc.rest, pc.text))) else None
    case AppendShipped =>
      if !pc.ShipRow? || pc.rest == [] then None
      else Some(Move(OnlyRow(ToolRow(pc.rest[0].id, pc.text)), ShipEnd(pc.rest)))
    case FinishDone => if pc.ShipEnd? then Some(Move(FinishRun(run, Done, ""), Top)) else None
    case Recheck =>
      if !pc.Check? then None
      else Some(Goto(if run.state != Running || pc.rest == [] then Top else Exec(pc.rest)))
    case Fail => if MayFail(pc, run.pauseRequested) then Some(Goto(Failing)) else None
    case AwaitTrouble => if pc == Failing then Some(Move(AwaitHuman(run, Trouble, "failed"), Exiting)) else None
    case Exit => None
  }

  /** The model's promise: ids not used before in this run. */
  ghost predicate FreshCalls(t: seq<Message>, a: Act) {
    a.Reply? ==> NoDup(Ids(a.calls)) && forall c :: c in Ids(a.calls) ==> c !in Asked(t)
  }

  // ---------------------------------------------------------------------------
  // What holds of one run between its steps
  // ---------------------------------------------------------------------------

  /** The open calls, as calls: the tail of the newest asking turn. */
  function OpenCalls(t: seq<Message>): seq<ToolCall> {
    var c, n := LastCalls(t), |Open(t)|;
    if n <= |c| then c[|c| - n..] else []
  }

  /** The last row is the result of a `done` call; only calls after it are unanswered. */
  ghost predicate EndsInDone(t: seq<Message>) {
    && t != []
    && Last(t).role == Tool
    && exists k :: 0 <= k < |LastCalls(t)| && DoneAt(t, k)
  }

  ghost predicate DoneAt(t: seq<Message>, k: int)
    requires t != [] && 0 <= k < |LastCalls(t)|
  {
    && LastCalls(t)[k].name == "done"
    && Last(t).callId == Some(LastCalls(t)[k].id)
    && OpenCalls(t) == LastCalls(t)[k + 1..]
  }

  /** Points at which the worker has decided to go on: the row is Running there. */
  predicate Engaged(pc: Pc) {
    pc != Top && pc != Exiting
  }

  ghost predicate PcOk(run: Run, t: seq<Message>, pc: Pc) {
    && (Engaged(pc) ==> run.state == Running)
    && match pc
       case Top | Exiting | Begin | Park(_) | Failing => true
       case Trail => !Terminal(t)
       case Ask | Stream | Lost => !Terminal(t) && Open(t) == []
       case Count(calls) => OpenCalls(t) == calls && (calls == [] ==> Terminal(t))
       case Close => Terminal(t)
       case Exec(rest) => rest != [] && OpenCalls(t) == rest
       case Ready(rest) => rest != [] && OpenCalls(t) == rest
       case Tooling(rest) => rest != [] && OpenCalls(t) == rest
       case Settle(rest, _) => rest != [] && OpenCalls(t) == rest
       case Noted(rest, _) => rest != [] && OpenCalls(t) == rest
       case ShipClear(rest, _) => rest != [] && OpenCalls(t) == rest && rest[0].name == "done"
       case ShipRow(rest, _) => rest != [] && OpenCalls(t) == rest && rest[0].name == "done"
       case ShipEnd(rest) => EndsInDone(t)
       case Check(rest) => !Terminal(t) && OpenCalls(t) == rest
  }

  ghost predicate RunOk(run: Run, t: seq<Message>) {
    && run.RowOk()
    && t != []
    && WellFormed(t)
    && (run.state == Idle ==> Terminal(t))
    && (run.state == Done ==> EndsInDone(t))
    && (run.reason == Some(Question) || run.reason == Some(PlanApproval) ==> Last(t).role == Tool)
  }

  ghost predicate Good(run: Run, t: seq<Message>, pc: Option<Pc>) {
    RunOk(run, t) && (pc.Some? ==> PcOk(run, t, pc.value))
  }

  // ---------------------------------------------------------------------------
  // Lemmas on the open calls
  // ---------------------------------------------------------------------------

  lemma IdsRest(calls: seq<ToolCall>)
    ensures |Ids(calls)| == |calls| && (calls != [] ==> Ids(calls[1..]) == Ids(calls)[1..])
  {
  }

  lemma {:induction false} OpenIsTail(t: seq<Message>)
    ensures |Open(t)| <= |LastCalls(t)|
    ensures Ids(OpenCalls(t)) == Open(t)
  {
    hide Ids;
    IdsRest([]);
    if t != [] {
      OpenIsTail(Init(t));
      var m, p := Last(t), Init(t);
      IdsRest(m.calls);
      if Open(t) != Open(p) && m.role == Tool {
        IdsRest(OpenCalls(p));
        assert OpenCalls(t) == OpenCalls(p)[1..];
      }
    }
  }

  lemma OpenCallsAppend(t: seq<Message>, m: Message)
    requires MayFollow(t, m)
    ensures m.role == Assistant && m.calls != [] ==> OpenCalls(t + [m]) == m.calls && LastCalls(t + [m]) == m.calls
    ensures m.role == Assistant && m.calls == [] ==> OpenCalls(t + [m]) == []
    ensures m.role == Tool ==> OpenCalls(t) != [] && OpenCalls(t + [m]) == OpenCalls(t)[1..] && LastCalls(t + [m]) == LastCalls(t)
    ensures m.role == User ==> OpenCalls(t + [m]) == OpenCalls(t)
  {
    hide Ids, NoDup, Asked;
    assert Init(t + [m]) == t;
    OpenIsTail(t);
    IdsRest(m.calls);
    IdsRest(OpenCalls(t));
  }

  lemma WantedAll(calls: seq<ToolCall>, ids: seq<CallId>)
    requires forall c :: c in Ids(calls) ==> c in ids
    ensures Wanted(calls, ids) == calls
  {
    if calls != [] {
      assert calls[0].id == Ids(calls)[0];
      assert Ids(calls[1..]) == Ids(calls)[1..];
      WantedAll(calls[1..], ids);
    }
  }

  lemma WantedTail(pre: seq<ToolCall>, rest: seq<ToolCall>, ids: seq<CallId>)
    requires forall c :: c in Ids(pre) ==> c !in ids
    requires forall c :: c in Ids(rest) ==> c in ids
    ensures Wanted(pre + rest, ids) == rest
  {
    if pre == [] {
      assert pre + rest == rest;
      WantedAll(rest, ids);
    } else {
      assert (pre + rest)[1..] == pre[1..] + rest;
      assert pre[0].id == Ids(pre)[0];
      assert Ids(pre[1..]) == Ids(pre)[1..];
      WantedTail(pre[1..], rest, ids);
    }
  }

  /** Replay picks up exactly the open calls, in order. */
  lemma WantedIsOpen(t: seq<Message>)
    requires WellFormed(t)
    ensures Wanted(LastCalls(t), Trailing(t)) == OpenCalls(t)
  {
    hide WellFormed, Open, LastCalls, Trailing, Wanted;
    TrailingIsOpen(t);
    OpenIsTail(t);
    LastCallsDistinct(t);
    var c := LastCalls(t);
    var pre := c[..|c| - |Open(t)|];
    assert c == pre + OpenCalls(t);
    assert Ids(c) == Ids(pre) + Ids(OpenCalls(t));
    NoDupSplit(Ids(pre), Ids(OpenCalls(t)));
    WantedTail(pre, OpenCalls(t), Trailing(t));
  }
}
