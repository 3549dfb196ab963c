/** What each step of a worker leaves in the tables. */
module Effects {
  import opened Prelude
  import opened Text
  import opened Transcript
  import opened Store
  import opened Worker
  import opened WorkerProofs
  import opened RunMachine
  import opened RunProofs
  import opened RunTheorems
  import opened Guarantees

  // ---------------------------------------------------------------------------
  // What a commit leaves in the tables
  // ---------------------------------------------------------------------------

  /** The tool log gains these tools in order, under the next ids, for the run and the asking turn. */
  ghost predicate Logged(db: Db, d: Db, r: RunId, asking: Option<MessageId>, tools: seq<string>) {
    && |d.logs| == |db.logs| + |tools| && db.logs <= d.logs && d.nextLog == db.nextLog + |tools|
    && forall i :: 0 <= i < |tools| ==> d.logs[|db.logs| + i] == LogRow(db.nextLog + i, Some(r), asking, tools[i])
  }

  lemma {:induction false} LogsTools(db: Db, r: RunId, asking: Option<MessageId>, tools: seq<string>)
    ensures var d := LogTools(db, r, asking, tools);
            Logged(db, d, r, asking, tools) && d == db.(logs := d.logs, nextLog := d.nextLog)
    decreases |tools|
  {
    if tools != [] {
      var row := LogRow(db.nextLog, Some(r), asking, tools[0]);
      var d := db.(logs := db.logs + [row], nextLog := db.nextLog + 1);
      LogsTools(d, r, asking, tools[1..]);
      var e := LogTools(d, r, asking, tools[1..]);
      forall i | 0 <= i < |tools| ensures e.logs[|db.logs| + i] == LogRow(db.nextLog + i, Some(r), asking, tools[i]) {
        if i == 0 {
          assert e.logs[|db.logs|] == d.logs[|db.logs|];
        } else {
          assert e.logs[|d.logs| + (i - 1)] == LogRow(d.nextLog + (i - 1), Some(r), asking, tools[1..][i - 1]);
        }
      }
    }
  }

  /** No row from `k` on asks for tools. */
  ghost predicate NoneAsks(t: seq<Message>, k: int)
    requires 0 <= k
  {
    forall i :: k <= i < |t| ==> t[i].role != Assistant || t[i].calls == []
  }

  ghost predicate AsksLast(t: seq<Message>, k: int, id: MessageId) {
    0 <= k < |t| && t[k].id == id && t[k].role == Assistant && t[k].calls != [] && NoneAsks(t, k + 1)
  }

  /** Log rows point at the newest row that asks for tools, if there is one. */
  lemma {:induction false} AskingIsNewest(t: seq<Message>)
    ensures LastAsking(t) == None <==> NoneAsks(t, 0)
    ensures LastAsking(t).Some? ==> exists k :: AsksLast(t, k, LastAsking(t).value)
  {
    if t == [] {
    } else if Last(t).role == Assistant && Last(t).calls != [] {
      assert AsksLast(t, |t| - 1, Last(t).id);
    } else {
      AskingIsNewest(Init(t));
      if LastAsking(t).Some? {
        var k :| AsksLast(Init(t), k, LastAsking(t).value);
        assert AsksLast(t, k, LastAsking(t).value);
      } else {
        assert forall i :: 0 <= i < |t| - 1 ==> t[i] == Init(t)[i];
      }
    }
  }

  /** A commit for `r` writes the row under the next message id, the run and the project row it names, the
      log rows, and nothing else. */
  lemma CommitWrites(db: Db, r: RunId, c: Change)
    requires r in db.runs && db.runs[r].project in db.projects
    ensures var d, p := Commit(db, r, c), db.runs[r].project;
            && d.runs.Keys == db.runs.Keys && d.runs[r] == (if c.run.Some? then c.run.value else db.runs[r])
            && (forall q :: q in db.runs && q != r ==> d.runs[q] == db.runs[q])
            && d.projects.Keys == db.projects.Keys
            && d.projects[p] == (if c.project.Some? then c.project.value else db.projects[p])
            && (forall q :: q in db.projects && q != p ==> d.projects[q] == db.projects[q])
            && Logged(db, d, r, LastAsking(Of(db.messages, r)), c.logged)
            && d.events == db.events && d.nextEvent == db.nextEvent
            && (c.row == None ==> d.messages == db.messages && d.nextMessage == db.nextMessage)
            && (c.row.Some? ==>
                  var m := c.row.value;
                  && d.nextMessage == db.nextMessage + 1
                  && d.messages == db.messages + [Message(db.nextMessage, p, Some(r), m.role, m.content, m.calls, m.reasoning,
                                                          m.callId, m.interrupted)])
  {
    hide Of, LastAsking, LogTools;
    var d := PutProject(PutRun(db, r, c.run), db.runs[r].project, c.project);
    LogsTools(d, r, LastAsking(Of(db.messages, r)), c.logged);
  }

  // ---------------------------------------------------------------------------
  // The run's row
  // ---------------------------------------------------------------------------

  /** The row's part in a step, field by field: no step of a worker moves the run, sets or clears the pause
      flag, or lowers the count; only CountStep counts, and only the five steps named change anything else. */
  ghost predicate RowGoes(was: Run, t: seq<Message>, a: Act, now: Run) {
    && now.project == was.project && now.pauseRequested == was.pauseRequested
    && now.steps == was.steps + (if a == CountStep then 1 else 0)
    && match a
       case ParkRun => now.state == Paused && now.reason == None && now.error == was.error && !now.finished
       case AwaitTrouble => now.state == AwaitingHuman && now.reason == Some(Trouble) && now.error.Some? && !now.finished
       case FinishIdle => now.state == Idle && now.reason == None && now.error == None && now.finished
       case FinishDone => now.state == Done && now.reason == None && now.error == None && now.finished
       case CloseWindow =>
         var closes := t != [] && Last(t).role == Assistant && Last(t).calls == [] && !Last(t).interrupted;
         && now.state == (if closes then Idle else was.state) && now.finished == closes
         && now.reason == was.reason && now.error == was.error
       case ApplyResult(_) => now.error == was.error && now.finished == was.finished
       case _ => now.state == was.state && now.reason == was.reason && now.error == was.error && now.finished == was.finished
  }

  lemma RowStep(run: Run, project: Project, t: seq<Message>, pc: Pc, a: Act)
    requires run.RowOk() && (Engaged(pc) ==> run.state == Running)
    requires Step(run, project, t, pc, a).Some?
    ensures RowGoes(run, t, a, RowAfter(run, Step(run, project, t, pc, a).value.change))
  {
    if !a.ApplyResult? {
      hide ApplyControl;
    }
  }

  /** The same of the system: a step of a worker of `r`, with no step counted but by CountStep. */
  lemma WorkerRow(s: System, w: WorkerId, a: Act, s': System, r: RunId)
    requires Inv(s) && Takes(s, Drive(w, a), s') && w in s.procs && s.procs[w].run == r && r in s.db.runs
    ensures r in s'.db.runs && (a != Exit ==> RowGoes(s.db.runs[r], Rows(s, r), a, s'.db.runs[r]))
    ensures a == Exit ==> s'.db == s.db
  {
    hide Step, Of, Schema, BoardsGood, Driven, ClearsGood, WellFormed, RowGoes, Takes;
    WorkerFacts(s, r);
    var m, project := OwnStep(s, Drive(w, a), s', r);
    if a != Exit {
      RowStep(s.db.runs[r], project, Rows(s, r), s.procs[w].pc, a);
    }
  }

  lemma WorkerFacts(s: System, r: RunId)
    requires Inv(s) && r in s.db.runs
    ensures Registered(s) && RunKeys(s.db) && s.db.runs[r].RowOk()
    ensures PcOf(s, r).Some? && Engaged(PcOf(s, r).value) ==> s.db.runs[r].state == Running
  {
    hide BoardsGood, Driven, ClearsGood, WellFormed, Of;
    assert Good(s.db.runs[r], Of(s.db.messages, r), PcOf(s, r));
  }

  // ---------------------------------------------------------------------------
  // The steps are counted
  // ---------------------------------------------------------------------------

  predicate CountsStep(s: System, a: Action, r: RunId) {
    DrivenBy(s, a, r) && a.act == CountStep
  }

  function Counted(states: seq<System>, actions: seq<Action>, r: RunId): nat
    requires |states| == |actions| + 1
  {
    if actions == [] then 0
    else
      var n := |actions| - 1;
      Counted(states[..n + 1], actions[..n], r) + if CountsStep(states[n], actions[n], r) then 1 else 0
  }

  lemma TouchKeepsCount(a: Action, r: RunId, run: Run, t: seq<Message>, run': Run, t': seq<Message>)
    requires Touched(a, r, run, t, run', t')
    ensures run'.steps == run.steps
  {
  }

  lemma TouchAllows(s: System)
    requires Inv(s)
    ensures Schema(s.db) && ClearsGood(s)
  {
    hide Schema, Registered, RunsGood, BoardsGood, Driven, ClearsGood;
  }

  lemma CountStepRow(s: System, a: Action, s': System, r: RunId)
    requires Inv(s) && Takes(s, a, s') && r in s.db.runs && r in s'.db.runs
    ensures s'.db.runs[r].steps == s.db.runs[r].steps + if CountsStep(s, a, r) then 1 else 0
  {
    hide Takes, Inv, Touched, Schema, ClearsGood, Rows;
    if DrivenBy(s, a, r) {
      WorkerRow(s, a.w, a.act, s', r);
    } else {
      TouchAllows(s);
      Touch(s, a, s', r);
      TouchKeepsCount(a, r, s.db.runs[r], Rows(s, r), s'.db.runs[r], Rows(s', r));
    }
  }

  /** A run that was not there starts at nought. */
  lemma CountStart(s: System, a: Action, s': System, r: RunId)
    requires Inv(s) && Takes(s, a, s') && r !in s.db.runs && r in s'.db.runs
    ensures r !in s.used && s'.db.runs[r].steps == 0 && !CountsStep(s, a, r)
  {
    hide Of, Step, Schema, RunsGood, BoardsGood, Driven, ClearsGood, Commit;
    assert RunKeys(s.db) by { SchemaKeys(s.db); }
    NewRun(s, a, s', r);
  }

  lemma NewRun(s: System, a: Action, s': System, r: RunId)
    requires RunKeys(s.db) && Takes(s, a, s') && r !in s.db.runs && r in s'.db.runs
    ensures a.Create? && a.r == r && s'.db.runs[r].steps == 0
  {
    hide Of, Step, Commit;
    if a.Drive? && a.act != Exit && s.procs[a.w].run in s.db.runs {
      var q := s.procs[a.w].run;
      CommitShape(s.db, q, Step(s.db.runs[q], s.db.projects[s.db.runs[q].project], Rows(s, q), s.procs[a.w].pc, a.act).value.change);
    } else if a.Answer? {
      CommitShape(s.db, a.r, AppendAnswerAndResume(s.db.runs[a.r], Trim(a.text)).value);
    }
  }

  /** A run no one has heard of has no worker. */
  lemma UnknownCounts(s: System, a: Action, r: RunId)
    requires Inv(s) && r !in s.used
    ensures !CountsStep(s, a, r)
  {
    hide Schema, RunsGood, BoardsGood, Driven, ClearsGood;
  }

  /** In every behaviour a run's count is the number of steps its workers have counted, over all of its
      workers and whatever crashed in between. */
  lemma {:induction false} StepsAreCounted(states: seq<System>, actions: seq<Action>, r: RunId)
    requires Behaviour(states, actions) && Initial(states[0])
    ensures var t := states[|actions|];
            && (r in t.db.runs ==> t.db.runs[r].steps == Counted(states, actions, r))
            && (r !in t.used ==> Counted(states, actions, r) == 0)
  {
    if actions == [] {
      assert r !in states[0].db.runs;
    } else {
      var n := |actions| - 1;
      var ss, steps := states[..n + 1], actions[..n];
      forall i | 0 <= i < n ensures Takes(ss[i], steps[i], ss[i + 1]) {
        assert Takes(states[i], actions[i], states[i + 1]);
      }
      StepsAreCounted(ss, steps, r);
      Reachable(states, actions, n);
      assert ss[n] == states[n] && Takes(states[n], actions[n], states[n + 1]);
      hide Takes, Inv, Initial, CountsStep;
      CountOn(states[n], actions[n], states[n + 1], r, Counted(ss, steps, r));
    }
  }

  lemma CountOn(s: System, a: Action, s': System, r: RunId, n: nat)
    requires Inv(s) && Takes(s, a, s')
    requires (r in s.db.runs ==> s.db.runs[r].steps == n) && (r !in s.used ==> n == 0)
    ensures var m := n + if CountsStep(s, a, r) then 1 else 0;
            (r in s'.db.runs ==> s'.db.runs[r].steps == m) && (r !in s'.used ==> m == 0)
  {
    hide Takes, Inv, CountsStep;
    UsedGrows(s, a, s');
    if r !in s.used {
      UnknownCounts(s, a, r);
    }
    if r in s'.db.runs {
      if r in s.db.runs {
        CountStepRow(s, a, s', r);
      } else {
        CountStart(s, a, s', r);
      }
    }
  }

  // ---------------------------------------------------------------------------
  // What a step writes of the conversation
  // ---------------------------------------------------------------------------

  /** The row is the tool's result for this call. */
  ghost predicate ResultRow(c: Change, call: ToolCall, text: string) {
    c.row == Some(NewMessage(Tool, text, [], [], Some(call.id), false))
  }

  /** The run waits for a human, and its row is otherwise as it was. */
  ghost predicate Waits(was: Run, c: Change, why: Reason) {
    && c.run.Some? && c.run.value.state == AwaitingHuman && c.run.value.reason == Some(why)
    && c.run.value == was.(state := AwaitingHuman, reason := Some(why))
  }

  /** What the model said is stored as it said it: a reply with its text, calls and reasoning, a broken one
      with what came before the break and no calls; a blank break leaves no row. */
  lemma SpeechStored(run: Run, project: Project, t: seq<Message>, a: Act)
    requires a.Reply? || a.Broken?
    ensures var m := Step(run, project, t, Stream, a);
            match a
            case Reply(content, calls, reasoning) =>
              && (m == None <==> Blank(content) && calls == [])
              && (m.Some? ==>
                    && m.value.pc == Count(calls)
                    && m.value.change == Change(None, None, Some(NewMessage(Assistant, content, calls, reasoning, None, false)), []))
            case Broken(partial, reasoning) =>
              && m.Some? && m.value.pc == Lost
              && m.value.change == Change(
                   None, None,
                   if Blank(partial) then None else Some(NewMessage(Assistant, partial, [], reasoning, None, true)), [])
  {
  }

  /** The tools that do more than answer their call. */
  predicate Controls(name: string) {
    name in {"ask_human", "create_plan", "update_task", "remember", "record_orientation", "done"}
  }

  /** What is done with a tool's result, and where the worker goes. */
  function Applied(run: Run, project: Project, t: seq<Message>, rest: seq<ToolCall>, result: ToolResult, ship: Shipping): (m: Move)
    requires rest != []
  {
    Step(run, project, t, Settle(rest, result), ApplyResult(ship)).value
  }

  /** A tool's own result is kept for the next steps, and the tools it ran are logged. */
  lemma ToolKept(run: Run, project: Project, t: seq<Message>, rest: seq<ToolCall>, result: ToolResult, logged: seq<string>)
    ensures Step(run, project, t, Tooling(rest), ToolReturns(result, logged)) ==
            Some(Move(Change(None, None, None, logged), Settle(rest, result)))
  {
  }

  /** An ordinary tool, and any that failed, answers its call with its text and the worker goes on. */
  lemma PlainResult(run: Run, project: Project, t: seq<Message>, rest: seq<ToolCall>, result: ToolResult, ship: Shipping)
    requires rest != [] && (result.isError || !Controls(rest[0].name))
    ensures var m := Applied(run, project, t, rest, result, ship);
            && m.pc == Check(rest[1..]) && ResultRow(m.change, rest[0], result.content)
            && m.change.run == None && m.change.project == None && m.change.logged == []
  {
  }

  /** A question answers its call with its text and the run waits for the operator's answer. */
  lemma QuestionAsked(run: Run, project: Project, t: seq<Message>, rest: seq<ToolCall>, result: ToolResult, ship: Shipping)
    requires rest != [] && !result.isError && rest[0].name == "ask_human" && run.state == Running
    ensures var m := Applied(run, project, t, rest, result, ship);
            && m.pc == Top && ResultRow(m.change, rest[0], result.content) && Waits(run, m.change, Question)
            && m.change.project == None && m.change.logged == []
  {
  }

  /** The board that goes up for a draft: its texts trimmed, its tasks numbered from one and not begun. */
  ghost predicate Drafted(was: Project, now: Option<Project>, d: PlanDraft) {
    && now.Some? && now.value == was.(board := now.value.board)
    && var b := now.value.board;
       && b.title == Trim(d.title) && b.status == Draft && b.baseCommit == "" && b.feedback == ""
       && |b.tasks| == |d.tasks|
       && forall i :: 0 <= i < |d.tasks| ==>
            b.tasks[i].n == i + 1 && b.tasks[i].summary == Trim(d.tasks[i]) && b.tasks[i].status == TaskPending && b.tasks[i].note == ""
  }

  /** A plan with a title, a task and no blank task goes on the board and the run waits for its approval;
      any other is not written at all. */
  lemma PlanDrafted(run: Run, project: Project, t: seq<Message>, rest: seq<ToolCall>, result: ToolResult, ship: Shipping)
    requires rest != [] && !result.isError && rest[0].name == "create_plan" && run.state == Running && result.display.PlanDisplay?
    ensures var m, d := Applied(run, project, t, rest, result, ship), result.display.draft;
            if !Blank(d.title) && d.tasks != [] && forall i :: 0 <= i < |d.tasks| ==> !Blank(d.tasks[i]) then
              && m.pc == Top && ResultRow(m.change, rest[0], result.content) && Waits(run, m.change, PlanApproval)
              && Drafted(project, m.change.project, d) && m.change.logged == []
            else
              m.pc == Failing && m.change == Change(None, None, None, [])
  {
    DraftValid(result.display.draft);
    hide Blank, Trim;
  }

  lemma DraftValid(d: PlanDraft)
    ensures ValidDraft(d) <==> !Blank(d.title) && d.tasks != [] && forall i :: 0 <= i < |d.tasks| ==> !Blank(d.tasks[i])
  {
    TrimBlank(d.title);
    forall i | 0 <= i < |d.tasks| ensures Trim(d.tasks[i]) == "" <==> Blank(d.tasks[i]) {
      TrimBlank(d.tasks[i]);
    }
    hide Blank, Trim;
  }

  /** The first task with the number is the one at `k`. */
  ghost predicate TaskAt(tasks: seq<Task>, n: int, k: int) {
    0 <= k < |tasks| && tasks[k].n == n && forall i :: 0 <= i < k ==> tasks[i].n != n
  }

  /** An update moves the first task with the number and answers its call; without a plan, a status or such
      a task the call is answered that it did not work, and the board stays. */
  lemma TaskMoved(run: Run, project: Project, t: seq<Message>, rest: seq<ToolCall>, result: ToolResult, ship: Shipping, k: int)
    requires rest != [] && !result.isError && rest[0].name == "update_task" && result.display.TaskDisplay?
    ensures var m, n, b := Applied(run, project, t, rest, result, ship), result.display.n, project.board;
            && m.pc == Check(rest[1..]) && m.change.run == None && m.change.logged == []
            && (result.display.status.Some? && TaskAt(b.tasks, n, k) ==>
                  && ResultRow(m.change, rest[0], result.content) && m.change.project.Some?
                  && m.change.project.value == project.(board := b.(tasks := m.change.project.value.board.tasks))
                  && var moved := m.change.project.value.board.tasks;
                     && |moved| == |b.tasks|
                     && moved[k] == Task(n, b.tasks[k].summary, result.display.status.value, Trim(result.display.note))
                     && forall i :: 0 <= i < |moved| && i != k ==> moved[i] == b.tasks[i])
            && (result.display.status == None || (forall i :: 0 <= i < |b.tasks| ==> b.tasks[i].n != n) ==>
                  m.change.project == None && ResultRow(m.change, rest[0], "That did not work"))
  {
    var tasks, n := project.board.tasks, result.display.n;
    FindsTask(tasks, n);
    if TaskAt(tasks, n, k) {
      assert FindTask(tasks, n) == k;
    }
  }

  /** Notes are stored trimmed, and only then is their call answered. */
  lemma NotesKept(run: Run, project: Project, t: seq<Message>, rest: seq<ToolCall>, result: ToolResult, ship: Shipping)
    requires rest != [] && !result.isError
    ensures rest[0].name == "remember" && result.display.MemoriesDisplay? ==>
              Applied(run, project, t, rest, result, ship) ==
              Move(Change(None, Some(project.(memories := Trim(result.display.memories))), None, []), Noted(rest, result))
    ensures rest[0].name == "record_orientation" && result.display.OrientationDisplay? ==>
              Applied(run, project, t, rest, result, ship) ==
              Move(Change(None, Some(project.(orientation := Trim(result.display.orientation))), None, []), Noted(rest, result))
    ensures Step(run, project, t, Noted(rest, result), AppendNoted) ==
            Some(Move(Change(None, None, Some(NewMessage(Tool, result.content, [], [], Some(rest[0].id), false)), []), Check(rest[1..])))
  {
  }

  /** A refused done answers its call with the reason and the worker goes on; a failed push answers it and
      waits in trouble; after a push the last writes follow. */
  lemma DoneShips(run: Run, project: Project, t: seq<Message>, rest: seq<ToolCall>, result: ToolResult, ship: Shipping)
    requires rest != [] && !result.isError && rest[0].name == "done" && result.display.DoneDisplay? && run.state == Running
    ensures var m := Applied(run, project, t, rest, result, ship);
            match ship
            case Refused(why) =>
              && m.pc == Check(rest[1..]) && ResultRow(m.change, rest[0], why)
              && m.change.run == None && m.change.project == None && m.change.logged == []
            case PushFailed(why) =>
              && m.pc == Top && ResultRow(m.change, rest[0], why) && Waits(run, m.change, Trouble)
              && m.change.project == None && m.change.logged == []
            case Pushed => m == Move(Change(None, None, None, []), ShipClear(rest, result.content))
  {
  }

  /** The writes after a push: the board is emptied, then the call answered with the tool's text, then the
      run ended; the worker looks at the row once more. */
  lemma ShippedWrites(run: Run, project: Project, t: seq<Message>, rest: seq<ToolCall>, text: string)
    requires rest != []
    ensures Step(run, project, t, ShipClear(rest, text), ClearBoard) ==
            Some(Move(Change(None, Some(project.(board := Board("", NoPlan, "", "", []))), None, []), ShipRow(rest, text)))
    ensures Step(run, project, t, ShipRow(rest, text), AppendShipped) ==
            Some(Move(Change(None, None, Some(NewMessage(Tool, text, [], [], Some(rest[0].id), false)), []), ShipEnd(rest)))
    ensures var m := Step(run, project, t, ShipEnd(rest), FinishDone);
            m.Some? && m.value.pc == Top && m.value.change.project == None && m.value.change.row == None && m.value.change.logged == []
  {
  }

  /** A control tool that hands over nothing it can use writes nothing and leaves by the error path. */
  lemma NothingToApply(run: Run, project: Project, t: seq<Message>, rest: seq<ToolCall>, result: ToolResult, ship: Shipping)
    requires rest != [] && !result.isError && Controls(rest[0].name) && rest[0].name != "ask_human" && result.display.NoDisplay?
    ensures Applied(run, project, t, rest, result, ship) == Move(Change(None, None, None, []), Failing)
  {
  }

  // ---------------------------------------------------------------------------
  // Where a look leads
  // ---------------------------------------------------------------------------

  /** A look at the row writes nothing; a pause that is pending parks the run wherever it is seen. */
  lemma LooksDecide(run: Run, project: Project, t: seq<Message>, rest: seq<ToolCall>)
    ensures Step(run, project, t, Top, ReadRun) ==
            Some(Move(Change(None, None, None, []),
                      if run.state != Running then Exiting else if run.pauseRequested then Park(true) else Begin))
    ensures Step(run, project, t, Lost, CheckLost) ==
            Some(Move(Change(None, None, None, []), if run.pauseRequested then Park(true) else Failing))
    ensures Step(run, project, t, Exec(rest), CheckPause) ==
            Some(Move(Change(None, None, None, []), if run.pauseRequested then Park(false) else Ready(rest)))
    ensures Step(run, project, t, Check(rest), Recheck) ==
            Some(Move(Change(None, None, None, []), if run.state == Running && rest != [] then Exec(rest) else Top))
  {
  }

  /** Before the model is asked, the open calls are run; it is asked exactly when none is open. */
  lemma OpenCallsFirst(run: Run, project: Project, t: seq<Message>)
    requires WellFormed(t)
    ensures Step(run, project, t, Trail, ReadTrailing) ==
            Some(Move(Change(None, None, None, []), if Open(t) == [] then Ask else Exec(OpenCalls(t))))
  {
    hide WellFormed, Open, OpenCalls, LastCalls, Trailing, Wanted;
    WantedIsOpen(t);
    TrailingIsOpen(t);
  }
}
