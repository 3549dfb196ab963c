/** The store: the tables as fields, and every statement as a method that changes them in place. */
module Database {
  import opened Prelude
  import opened Text
  import opened Transcript
  import opened Store
  import opened RunMachine
  import opened RunProofs
  import opened Conversation

  lemma PrefixStep<T>(s: seq<T>, i: nat)
    requires i < |s|
    ensures s[..i + 1] == s[..i] + [s[i]] && s[..i + 1][..i] == s[..i]
  {
  }

  /** A call is answered exactly when some result row of the run names it. */
  lemma {:induction false} AnsweredRow(ms: seq<Message>, r: RunId, c: CallId)
    ensures c in Answered(Of(ms, r)) <==>
            exists i :: 0 <= i < |ms| && ms[i].run == Some(r) && ms[i].role == Tool && ms[i].callId == Some(c)
  {
    if ms != [] {
      var m, t := Last(ms), Of(Init(ms), r);
      AnsweredRow(Init(ms), r, c);
      AnsweredIsReplies(Of(ms, r));
      AnsweredIsReplies(t);
      if m.run == Some(r) {
        assert Init(t + [m]) == t;
      }
      assert ms[|ms| - 1] == m && forall i :: 0 <= i < |ms| - 1 ==> ms[i] == Init(ms)[i];
    }
  }

  class Database {
    var projects: map<ProjectId, Project>
    var runs: map<RunId, Run>
    var messages: seq<Message>
    var logs: seq<LogRow>
    var events: seq<EventRow>
    var nextMessage: nat
    var nextLog: nat
    var nextEvent: nat

    ghost function View(): Db
      reads this
    {
      Db(projects, runs, messages, logs, events, nextMessage, nextLog, nextEvent)
    }

    /** What the schema enforces, with messages and events in the project of their run. */
    ghost predicate Valid()
      reads this
    {
      Schema(View())
    }

    constructor (projects: map<ProjectId, Project>)
      ensures Valid() && View() == Db(projects, map[], [], [], [], 0, 0, 0)
    {
      this.projects := projects;
      runs, messages, logs, events, nextMessage, nextLog, nextEvent := map[], [], [], [], 0, 0, 0;
    }

    // -------------------------------------------------------------------------
    // Reading
    // -------------------------------------------------------------------------

    /** The live window of a project, in id order. */
    method ContextMessages(p: ProjectId) returns (out: seq<Message>)
      ensures out == Context(messages, p)
    {
      out := [];
      for i := 0 to |messages|
        invariant out == Context(messages[..i], p)
      {
        PrefixStep(messages, i);
        if messages[i].project == p {
          out := out + [messages[i]];
        }
      }
      assert messages[..|messages|] == messages;
    }

    /** Whether a result row for the call exists. */
    method ResultExists(r: RunId, c: CallId) returns (found: bool)
      ensures found <==> c in Answered(Of(messages, r))
    {
      AnsweredRow(messages, r, c);
      found := false;
      for i := 0 to |messages|
        invariant !found ==> forall j :: 0 <= j < i ==>
          !(messages[j].run == Some(r) && messages[j].role == Tool && messages[j].callId == Some(c))
        invariant found ==> c in Answered(Of(messages, r))
      {
        if messages[i].run == Some(r) && messages[i].role == Tool && messages[i].callId == Some(c) {
          found := true;
        }
      }
    }

    /** The calls of the newest asking turn of a run. */
    method NewestCalls(r: RunId) returns (calls: seq<ToolCall>)
      ensures calls == LastCalls(Of(messages, r))
    {
      var i := |messages|;
      assert messages[..i] == messages;
      while i > 0
        invariant 0 <= i <= |messages|
        invariant LastCalls(Of(messages[..i], r)) == LastCalls(Of(messages, r))
      {
        PrefixStep(messages, i - 1);
        var m := messages[i - 1];
        ghost var t := Of(messages[..i - 1], r);
        assert m.run == Some(r) ==> Init(t + [m]) == t;
        if m.run == Some(r) && m.role == Assistant && m.calls != [] {
          return m.calls;
        }
        i := i - 1;
      }
      calls := [];
    }

    /** The unanswered calls of the newest asking turn; for a well-formed run these are all the
        unanswered calls there are. */
    method TrailingToolCalls(r: RunId) returns (pending: seq<CallId>)
      ensures pending == Trailing(Of(messages, r))
      ensures WellFormed(Of(messages, r)) ==> pending == Open(Of(messages, r))
    {
      var calls := NewestCalls(r);
      pending := [];
      for i := 0 to |calls|
        invariant pending == Missing(calls[..i], Answered(Of(messages, r)))
      {
        PrefixStep(calls, i);
        var done := ResultExists(r, calls[i].id);
        if !done {
          pending := pending + [calls[i].id];
        }
      }
      assert calls[..|calls|] == calls;
      if WellFormed(Of(messages, r)) {
        TrailingIsOpen(Of(messages, r));
      }
    }

    /** A run's project has a row. */
    lemma ProjectOf(r: RunId)
      requires Valid() && r in runs
      ensures runs[r].project in projects
    {
    }

    // -------------------------------------------------------------------------
    // Guarded updates of one run row
    // -------------------------------------------------------------------------

    method MarkPaused(r: RunId) returns (found: bool)
      requires Valid() && r in runs
      modifies this`runs
      ensures Valid() && View() == Commit(old(View()), r, Store.MarkPaused(old(runs)[r]))
      ensures found == (old(runs)[r].state == Running)
    {
      CommitSchema(View(), r, Store.MarkPaused(runs[r]));
      found := runs[r].state == Running;
      if found {
        runs := runs[r := runs[r].(state := Paused)];
      }
    }

    method AwaitHuman(r: RunId, why: Reason, cause: string) returns (found: bool)
      requires Valid() && r in runs
      modifies this`runs
      ensures Valid() && View() == Commit(old(View()), r, Store.AwaitHuman(old(runs)[r], why, cause))
      ensures found == (old(runs)[r].state == Running)
    {
      CommitSchema(View(), r, Store.AwaitHuman(runs[r], why, cause));
      found := runs[r].state == Running;
      if found {
        runs := runs[r := runs[r].(state := AwaitingHuman, reason := Some(why), error := Some(cause))];
      }
    }

    /** The statement has no guard: an ended run is ended again. */
    method FinishRun(r: RunId, state: RunState, cause: string)
      requires Valid() && (state == Idle || state == Done || state == Failed)
      modifies this`runs
      ensures Valid()
      ensures View() == if r in old(runs) then Commit(old(View()), r, Store.FinishRun(old(runs)[r], state, cause)) else old(View())
    {
      if r !in runs {
        return;
      }
      CommitSchema(View(), r, Store.FinishRun(runs[r], state, cause));
      var error := None;
      if cause != "" {
        error := Some(cause);
      }
      runs := runs[r := runs[r].(state := state, error := error, finished := true)];
    }

    method IncrementRunStep(r: RunId)
      requires Valid() && r in runs
      modifies this`runs
      ensures Valid() && View() == Commit(old(View()), r, Store.IncrementRunStep(old(runs)[r]))
    {
      CommitSchema(View(), r, Store.IncrementRunStep(runs[r]));
      runs := runs[r := runs[r].(steps := runs[r].steps + 1)];
    }

    // -------------------------------------------------------------------------
    // Transactions on behalf of one run
    // -------------------------------------------------------------------------

    method AppendMessage(r: RunId, m: NewMessage)
      requires Valid() && r in runs
      modifies this`messages, this`nextMessage
      ensures Valid() && View() == Commit(old(View()), r, OnlyRow(m))
    {
      hide Schema, Of;
      CommitSchema(View(), r, OnlyRow(m));
      messages := messages + [Message(nextMessage, runs[r].project, Some(r), m.role, m.content, m.calls, m.reasoning, m.callId, m.interrupted)];
      nextMessage := nextMessage + 1;
    }

    /** A result row and the wait it begins, in one commit, or neither. */
    method AppendToolResultAndAwait(r: RunId, m: NewMessage, why: Reason) returns (ok: bool)
      requires Valid() && r in runs
      modifies this`runs, this`messages, this`nextMessage
      ensures Valid()
      ensures match AppendResultAndAwait(old(runs)[r], m, why)
              case Some(c) => ok && View() == Commit(old(View()), r, c)
              case None => !ok && View() == old(View())
    {
      hide Schema, Of;
      ok := runs[r].state == Running;
      if ok {
        CommitSchema(View(), r, AppendResultAndAwait(runs[r], m, why).value);
        AppendMessage(r, m);
        runs := runs[r := runs[r].(state := AwaitingHuman, reason := Some(why))];
      }
    }

    /** An event row with the next id; a project or run that has no row is refused by its key. */
    method AppendEvent(p: ProjectId, r: Option<RunId>, kind: string) returns (ok: bool)
      requires Valid() && (r.Some? && r.value in runs ==> runs[r.value].project == p)
      modifies this`events, this`nextEvent
      ensures Valid() && ok == (p in projects && (r.Some? ==> r.value in runs))
      ensures View() == if ok then Store.AppendEvent(old(View()), p, r, kind) else old(View())
    {
      ok := p in projects && (r == None || r.value in runs);
      if ok {
        EventSchema(View(), p, r, kind);
        events := events + [EventRow(nextEvent, p, r, kind)];
        nextEvent := nextEvent + 1;
      }
    }

    /** The newest row of a run, if any. */
    method NewestRow(r: RunId) returns (m: Option<Message>)
      ensures m == if Of(messages, r) == [] then None else Some(Last(Of(messages, r)))
    {
      var i := |messages|;
      assert messages[..i] == messages;
      while i > 0
        invariant 0 <= i <= |messages|
        invariant Of(messages[..i], r) == Of(messages, r)
      {
        PrefixStep(messages, i - 1);
        if messages[i - 1].run == Some(r) {
          return Some(messages[i - 1]);
        }
        i := i - 1;
      }
      m := None;
    }

    method FinishIfTerminalAssistant(r: RunId) returns (finished: bool)
      requires Valid() && r in runs
      modifies this`runs
      ensures Valid()
      ensures match FinishIfTerminal(old(runs)[r], Of(messages, r))
              case Some(c) => finished && View() == Commit(old(View()), r, c)
              case None => !finished && View() == old(View())
    {
      var m := NewestRow(r);
      if m == None || m.value.role != Assistant || m.value.calls != [] || m.value.interrupted {
        return false;
      }
      finished := runs[r].state == Running;
      if finished {
        CommitSchema(View(), r, FinishIfTerminal(runs[r], Of(messages, r)).value);
        runs := runs[r := runs[r].(state := Idle, finished := true)];
      }
    }

    method AppendAnswerAndResume(r: RunId, text: string) returns (ok: bool)
      requires Valid() && r in runs
      modifies this`runs, this`messages, this`nextMessage
      ensures Valid()
      ensures match Store.AppendAnswerAndResume(old(runs)[r], text)
              case Some(c) => ok && View() == Commit(old(View()), r, c)
              case None => !ok && View() == old(View())
    {
      hide Schema, Of;
      ok := runs[r].state == AwaitingHuman;
      if ok {
        CommitSchema(View(), r, Store.AppendAnswerAndResume(runs[r], text).value);
        AppendMessage(r, UserRow(text));
        runs := runs[r := runs[r].(state := Running, pauseRequested := false, reason := None, error := None)];
      }
    }

    /** Replaces the board with a draft and parks the run, after checking every summary. */
    method WritePlan(r: RunId, d: PlanDraft, m: NewMessage) returns (ok: bool)
      requires Valid() && r in runs
      modifies this`projects, this`runs, this`messages, this`nextMessage
      ensures Valid()
      ensures match Store.WritePlan(old(runs)[r], old(projects)[old(runs)[r].project], d, m)
              case Some(c) => ok && View() == Commit(old(View()), r, c)
              case None => !ok && View() == old(View())
    {
      hide Schema, Of;
      ProjectOf(r);
      var title := Trim(d.title);
      if title == "" || d.tasks == [] {
        return false;
      }
      var tasks: seq<Task> := [];
      for i := 0 to |d.tasks|
        invariant tasks == TasksOf(d.tasks[..i])
        invariant forall j :: 0 <= j < i ==> Trim(d.tasks[j]) != ""
      {
        var summary := Trim(d.tasks[i]);
        if summary == "" {
          return false;
        }
        tasks := tasks + [Task(i + 1, summary, TaskPending, "")];
      }
      assert d.tasks[..|d.tasks|] == d.tasks;
      ok := runs[r].state == Running;
      if ok {
        var p := runs[r].project;
        CommitSchema(View(), r, Store.WritePlan(runs[r], projects[p], d, m).value);
        projects := projects[p := projects[p].(board := Board(title, Draft, "", "", tasks))];
        messages := messages + [Stamp(nextMessage, p, r, m)];
        nextMessage := nextMessage + 1;
        runs := runs[r := runs[r].(state := AwaitingHuman, reason := Some(PlanApproval))];
      }
    }

    /** The first task with this number, or the end. */
    method TaskIndex(tasks: seq<Task>, n: int) returns (i: nat)
      ensures i == FindTask(tasks, n)
    {
      i := 0;
      while i < |tasks| && tasks[i].n != n
        invariant 0 <= i <= |tasks|
        invariant forall j :: 0 <= j < i ==> tasks[j].n != n
      {
        i := i + 1;
      }
    }

    /** Moves the first task with this number. */
    method UpdateTask(r: RunId, n: int, status: Option<TaskStatus>, note: string, m: NewMessage) returns (ok: bool)
      requires Valid() && r in runs
      modifies this`projects, this`messages, this`nextMessage
      ensures Valid()
      ensures match Store.UpdateTask(old(projects)[runs[r].project], n, status, note, m)
              case Some(c) => ok && View() == Commit(old(View()), r, c)
              case None => !ok && View() == old(View())
    {
      hide Schema, Of, Commit, FindTask;
      ProjectOf(r);
      var p := runs[r].project;
      var board := projects[p].board;
      if status == None || board.Empty() {
        return false;
      }
      var i := TaskIndex(board.tasks, n);
      if i == |board.tasks| {
        return false;
      }
      var task := board.tasks[i].(status := status.value, note := Trim(note));
      PutBoard(r, board.(tasks := board.tasks[i := task]), m);
      ok := true;
    }

    /** A new board and a row, in one commit. */
    method PutBoard(r: RunId, board: Board, m: NewMessage)
      requires Valid() && r in runs
      modifies this`projects, this`messages, this`nextMessage
      ensures Valid() && runs[r].project in old(projects)
      ensures View() == Commit(old(View()), r, Change(None, Some(old(projects)[runs[r].project].(board := board)), Some(m), []))
    {
      hide Schema, Of;
      ProjectOf(r);
      var p := runs[r].project;
      CommitSchema(View(), r, Change(None, Some(projects[p].(board := board)), Some(m), []));
      projects := projects[p := projects[p].(board := board)];
      messages := messages + [Stamp(nextMessage, p, r, m)];
      nextMessage := nextMessage + 1;
    }

    method ClearPlan(r: RunId)
      requires Valid() && r in runs
      modifies this`projects
      ensures Valid() && View() == Commit(old(View()), r, Store.ClearPlan(old(projects)[runs[r].project]))
    {
      hide Schema, Of;
      ProjectOf(r);
      var p := runs[r].project;
      CommitSchema(View(), r, Store.ClearPlan(projects[p]));
      projects := projects[p := projects[p].(board := EMPTY_BOARD)];
    }

    /** Replaces the operator's notes or the agent's own. */
    method SetNotes(r: RunId, memories: Option<string>, orientation: Option<string>)
      requires Valid() && r in runs && (memories.Some? <==> orientation == None)
      modifies this`projects
      ensures Valid()
      ensures View() == Commit(old(View()), r,
                               if memories.Some? then SetMemories(old(projects)[runs[r].project], memories.value)
                               else SetOrientation(old(projects)[runs[r].project], orientation.value))
    {
      var p := runs[r].project;
      if memories.Some? {
        CommitSchema(View(), r, SetMemories(projects[p], memories.value));
        projects := projects[p := projects[p].(memories := Trim(memories.value))];
      } else {
        CommitSchema(View(), r, SetOrientation(projects[p], orientation.value));
        projects := projects[p := projects[p].(orientation := Trim(orientation.value))];
      }
    }

    /** The log rows a tool execution leaves, one insert each. */
    method RecordTools(r: RunId, tools: seq<string>)
      requires Valid() && r in runs
      modifies this`logs, this`nextLog
      ensures Valid() && View() == Commit(old(View()), r, NO_CHANGE.(logged := tools))
    {
      hide Schema, Of;
      ghost var message := LastAsking(Of(messages, r));
      var asking := AskingRow(r);
      ghost var end := LogTools(View(), r, message, tools);
      CommitSchema(View(), r, NO_CHANGE.(logged := tools));
      for i := 0 to |tools|
        invariant unchanged(`projects) && unchanged(`runs) && unchanged(`messages) && unchanged(`events) && unchanged(`nextEvent) && unchanged(`nextMessage)
        invariant LogTools(View(), r, message, tools[i..]) == end
      {
        assert tools[i..][1..] == tools[i + 1..];
        logs := logs + [LogRow(nextLog, Some(r), asking, tools[i])];
        nextLog := nextLog + 1;
      }
      assert tools[|tools|..] == [];
    }

    /** The id of the newest asking turn. */
    method AskingRow(r: RunId) returns (id: Option<MessageId>)
      ensures id == LastAsking(Of(messages, r))
    {
      var i := |messages|;
      assert messages[..i] == messages;
      while i > 0
        invariant 0 <= i <= |messages|
        invariant LastAsking(Of(messages[..i], r)) == LastAsking(Of(messages, r))
      {
        PrefixStep(messages, i - 1);
        var m := messages[i - 1];
        ghost var t := Of(messages[..i - 1], r);
        assert m.run == Some(r) ==> Init(t + [m]) == t;
        if m.run == Some(r) && m.role == Assistant && m.calls != [] {
          return Some(m.id);
        }
        i := i - 1;
      }
      id := None;
    }

    // -------------------------------------------------------------------------
    // Project-scoped transitions
    // -------------------------------------------------------------------------

    /** The partial unique index makes the search find the only live row. */
    method ActiveRun(p: ProjectId) returns (r: Option<RunId>)
      requires Valid()
      ensures r.Some? <==> HasActive(runs, p)
      ensures r.Some? ==> r.value in runs && runs[r.value].project == p && runs[r.value].Active()
    {
      var todo := runs.Keys;
      while todo != {}
        invariant todo <= runs.Keys
        invariant forall q :: q in runs && q !in todo ==> !(runs[q].project == p && runs[q].Active())
        decreases todo
      {
        var q :| q in todo;
        if runs[q].project == p && runs[q].Active() {
          return Some(q);
        }
        todo := todo - {q};
      }
      r := None;
    }

    method RequestPause(p: ProjectId) returns (r: Option<RunId>)
      requires Valid()
      modifies this`runs
      ensures Valid() && View() == old(View()).(runs := Store.RequestPause(old(runs), p))
      ensures r.Some? <==> exists q :: q in old(runs) && old(runs)[q].project == p && old(runs)[q].state == Running
    {
      RunsKeep(View(), Store.RequestPause(runs, p));
      r := ActiveRun(p);
      if r.Some? && runs[r.value].state == Running {
        PauseIsOne(runs, p, r.value);
        runs := runs[r.value := runs[r.value].(pauseRequested := true)];
      } else {
        assert forall q :: q in runs && runs[q].project == p && runs[q].Active() ==> r.Some? && q == r.value;
        assert Store.RequestPause(runs, p) == runs;
        r := None;
      }
    }

    method ResumeRun(p: ProjectId) returns (r: Option<RunId>)
      requires Valid()
      modifies this`runs
      ensures Valid() && View() == old(View()).(runs := Store.ResumeRun(old(runs), p))
      ensures r.Some? <==> exists q :: q in old(runs) && old(runs)[q].project == p && Resumable(old(runs)[q])
      ensures r.Some? ==> r.value in old(runs) && old(runs)[r.value].project == p && Resumable(old(runs)[r.value])
      ensures r == None ==> View() == old(View())
    {
      RunsKeep(View(), Store.ResumeRun(runs, p));
      r := ActiveRun(p);
      if r.Some? && Resumable(runs[r.value]) {
        ResumeIsOne(runs, p, r.value);
        runs := runs[r.value := runs[r.value].(state := Running, pauseRequested := false, reason := None, error := None)];
      } else {
        assert forall q :: q in runs && runs[q].project == p && runs[q].Active() ==> r.Some? && q == r.value;
        assert Store.ResumeRun(runs, p) == runs;
        r := None;
      }
    }

    /** The run waiting for plan approval, when the board holds a draft. */
    method GatedRun(p: ProjectId) returns (r: Option<RunId>)
      requires Valid() && p in projects
      ensures r.Some? ==> Gated(runs, p, r.value) && projects[p].board.AwaitingApproval()
      ensures r == None ==> !projects[p].board.AwaitingApproval() || forall q :: !Gated(runs, p, q)
    {
      if !projects[p].board.AwaitingApproval() {
        return None;
      }
      r := ActiveRun(p);
      if r.Some? && !runs[r.value].AwaitingPlan() {
        assert forall q :: q in runs && runs[q].project == p && runs[q].Active() ==> q == r.value;
        r := None;
      }
    }

    method AnswerDraft(p: ProjectId, r: RunId, board: Board, text: string)
      requires Valid() && p in projects && projects[p].board.AwaitingApproval() && Gated(runs, p, r)
      modifies this`projects, this`runs, this`messages, this`nextMessage
      ensures Valid() && AnswerPlan(old(View()), p, r, board, text) == Some(View())
    {
      ReleaseIsOne(runs, p, r);
      ghost var c := PlanAnswer(runs[r], projects[p], board, text);
      CommitSchema(View(), r, c);
      assert AnswerPlan(View(), p, r, board, text) == Some(Commit(View(), r, c));
      projects := projects[p := projects[p].(board := board)];
      runs := runs[r := runs[r].(state := Running, reason := None)];
      messages := messages + [Stamp(nextMessage, p, r, UserRow(text))];
      nextMessage := nextMessage + 1;
    }

    /** Approval keeps a pending pause: only state and reason change in the row. */
    method ApprovePlan(p: ProjectId, base: string) returns (r: Option<RunId>)
      requires Valid() && p in projects
      modifies this`projects, this`runs, this`messages, this`nextMessage
      ensures Valid()
      ensures match r
              case Some(q) => Store.ApprovePlan(old(View()), p, q, base) == Some(View())
              case None => View() == old(View()) && forall q :: Store.ApprovePlan(old(View()), p, q, base) == None
    {
      r := GatedRun(p);
      if r.Some? {
        AnswerDraft(p, r.value, projects[p].board.(status := Approved, baseCommit := Trim(base), feedback := ""), "Plan approved.");
      }
    }

    method RevisePlan(p: ProjectId, feedback: string) returns (r: Option<RunId>)
      requires Valid() && p in projects
      modifies this`projects, this`runs, this`messages, this`nextMessage
      ensures Valid()
      ensures match r
              case Some(q) => Store.RevisePlan(old(View()), p, q, feedback) == Some(View())
              case None => View() == old(View()) && forall q :: Store.RevisePlan(old(View()), p, q, feedback) == None
    {
      var said := Trim(feedback);
      if said == "" {
        return None;
      }
      r := GatedRun(p);
      if r.Some? {
        AnswerDraft(p, r.value, EMPTY_BOARD.(feedback := said), "Revise the plan: " + said);
      }
    }

    /** Refused when any run of the project is live: the insert meets the unique index. */
    method CreateRunWithMessage(p: ProjectId, r: RunId, text: string) returns (ok: bool)
      requires Valid() && r !in runs && p in projects
      modifies this`runs, this`messages, this`nextMessage
      ensures Valid()
      ensures match CreateRun(old(View()), p, r, text)
              case Some(db) => ok && View() == db
              case None => !ok && View() == old(View())
    {
      var active := ActiveRun(p);
      ok := active == None;
      if ok {
        CreateSchema(View(), p, r, text);
        runs := runs[r := Run(p, Running, None, false, None, 0, false)];
        messages := messages + [Stamp(nextMessage, p, r, UserRow(text))];
        nextMessage := nextMessage + 1;
      }
    }

    // -------------------------------------------------------------------------
    // Clearing
    // -------------------------------------------------------------------------

    lemma NoneLateYet(p: ProjectId)
      requires Valid()
      ensures NoLateEvent(View(), p, nextEvent)
    {
    }

    method DeleteLogs(p: ProjectId) returns (n: nat)
      modifies this`logs
      ensures View() == DropLogs(old(View()), p) && n == |old(logs)| - |logs|
    {
      var kept: seq<LogRow> := [];
      ghost var db := View();
      for i := 0 to |logs|
        invariant unchanged(this) && |kept| <= i
        invariant kept == Filter(logs[..i], (l: LogRow) => !LogIn(db, p, l))
      {
        PrefixStep(logs, i);
        var l := logs[i];
        var own := (l.run.Some? && l.run.value in runs && runs[l.run.value].project == p)
                   || (l.message.Some? && l.message.value in MessagesIn(messages, p));
        if !own {
          kept := kept + [l];
        }
      }
      assert logs[..|logs|] == logs;
      n := |logs| - |kept|;
      logs := kept;
    }

    method DeleteEvents(p: ProjectId) returns (n: nat)
      requires EventsOrdered(events, nextEvent)
      modifies this`events
      ensures View() == DropEvents(old(View()), p, nextEvent) && n == |old(events)| - |events|
    {
      var kept: seq<EventRow> := [];
      ghost var mark := nextEvent;
      for i := 0 to |events|
        invariant events == old(events) && |kept| <= i
        invariant kept == Filter(events[..i], (e: EventRow) => !(e.project == p && e.id < mark))
      {
        PrefixStep(events, i);
        if events[i].project != p {
          kept := kept + [events[i]];
        }
      }
      assert events[..|events|] == events;
      n := |events| - |kept|;
      events := kept;
    }

    method DeleteMessages(p: ProjectId) returns (n: nat)
      modifies this`messages
      ensures View() == DropMessages(old(View()), p) && n == |old(messages)| - |messages|
    {
      var kept: seq<Message> := [];
      for i := 0 to |messages|
        invariant messages == old(messages) && |kept| <= i
        invariant kept == Filter(messages[..i], (m: Message) => m.project != p)
      {
        PrefixStep(messages, i);
        if messages[i].project != p {
          kept := kept + [messages[i]];
        }
      }
      assert messages[..|messages|] == messages;
      n := |messages| - |kept|;
      messages := kept;
    }

    method DeleteRuns(p: ProjectId) returns (n: nat)
      modifies this`runs
      ensures View() == DropRuns(old(View()), p) && n == |RunsIn(old(runs), p)|
    {
      var todo, gone := runs.Keys, {};
      while todo != {}
        invariant todo <= runs.Keys == old(runs).Keys && runs == old(runs)
        invariant gone == set q | q in runs.Keys - todo && runs[q].project == p
        decreases todo
      {
        var q :| q in todo;
        if runs[q].project == p {
          gone := gone + {q};
        }
        todo := todo - {q};
      }
      assert gone == RunsIn(runs, p);
      n := |gone|;
      runs := runs - gone;
    }

    /** Refuses an active run; otherwise deletes in key order, so that every intermediate state
        satisfies the foreign keys, empties the board and counts what went. */
    method ClearConversation(p: ProjectId) returns (cleared: bool, logCount: nat, eventCount: nat, messageCount: nat, runCount: nat)
      requires Valid() && p in projects
      modifies this
      ensures cleared <==> !HasActive(old(runs), p)
      ensures !cleared ==> View() == old(View())
      ensures cleared ==> View() == Clear(old(View()), p, nextEvent) && ForeignKeys(View())
      ensures cleared ==> logCount == |old(logs)| - |logs| && eventCount == |old(events)| - |events|
                          && messageCount == |old(messages)| - |messages| && runCount == |RunsIn(old(runs), p)|
    {
      logCount, eventCount, messageCount, runCount := 0, 0, 0, 0;
      var active := ActiveRun(p);
      if active.Some? {
        return false, 0, 0, 0, 0;
      }
      NoneLateYet(p);
      ClearKeepsKeys(View(), p, nextEvent);
      logCount := DeleteLogs(p);
      assert ForeignKeys(View());
      eventCount := DeleteEvents(p);
      assert ForeignKeys(View());
      messageCount := DeleteMessages(p);
      assert ForeignKeys(View());
      runCount := DeleteRuns(p);
      assert ForeignKeys(View());
      projects := projects[p := projects[p].(board := EMPTY_BOARD)];
      cleared := true;
    }
  }
}
