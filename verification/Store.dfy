/** The durable tables, the SQL statements and transactions over them, and the store that runs them. */
module Store {
  import opened Prelude
  import opened Text
  import opened Transcript

  datatype RunState = Idle | Running | AwaitingHuman | Paused | Done | Failed

  datatype Reason = PlanApproval | Question | Trouble

  /** One row of the run table. `finished` stands for a non-null `finished_at`. */
  datatype Run = Run(
    project: ProjectId, state: RunState, reason: Option<Reason>, pauseRequested: bool,
    error: Option<string>, steps: nat, finished: bool)
  {
    predicate Active() {
      state == Running || state == AwaitingHuman || state == Paused
    }

    predicate AwaitingPlan() {
      state == AwaitingHuman && reason == Some(PlanApproval)
    }

    /** What every reachable row satisfies; nothing in the schema enforces it. */
    predicate RowOk() {
      && state != Failed
      && (reason.Some? <==> state == AwaitingHuman)
      && (finished <==> state == Idle || state == Done)
    }
  }

  datatype TaskStatus = TaskPending | TaskDoing | TaskDone | TaskBlocked

  datatype Task = Task(n: nat, summary: string, status: TaskStatus, note: string)

  datatype PlanStatus = NoPlan | Draft | Approved

  datatype Board = Board(title: string, status: PlanStatus, baseCommit: string, feedback: string, tasks: seq<Task>)
  {
    predicate Empty() {
      title == "" && tasks == []
    }

    predicate AwaitingApproval() {
      !Empty() && status == Draft
    }
  }

  const EMPTY_BOARD := Board("", NoPlan, "", "", [])

  datatype PlanDraft = PlanDraft(title: string, tasks: seq<string>)

  datatype Project = Project(board: Board, memories: string, orientation: string, sandbox: string)

  datatype LogRow = LogRow(id: nat, run: Option<RunId>, message: Option<MessageId>, tool: string)

  datatype EventRow = EventRow(id: nat, project: ProjectId, run: Option<RunId>, kind: string)

  datatype Db = Db(
    projects: map<ProjectId, Project>, runs: map<RunId, Run>, messages: seq<Message>, logs: seq<LogRow>,
    events: seq<EventRow>, nextMessage: nat, nextLog: nat, nextEvent: nat)

  // ---------------------------------------------------------------------------
  // What the schema keeps: keys, foreign keys, the partial unique index
  // ---------------------------------------------------------------------------

  /** At most one live run per project. */
  ghost predicate OneActive(runs: map<RunId, Run>) {
    forall q, r :: q in runs && r in runs && runs[q].Active() && runs[r].Active() && runs[q].project == runs[r].project ==>
      q == r
  }

  ghost predicate RunKeys(db: Db) {
    forall r :: r in db.runs ==> db.runs[r].project in db.projects
  }

  /** `run_id` may be null in the schema; every writer of the table names a run. */
  ghost predicate MessageKeys(db: Db) {
    forall m :: m in db.messages ==> m.project in db.projects && m.run.Some? && m.run.value in db.runs
  }

  ghost predicate HasMessage(ms: seq<Message>, id: MessageId) {
    exists i :: 0 <= i < |ms| && ms[i].id == id
  }

  ghost predicate LogKeys(db: Db) {
    forall l :: l in db.logs ==>
      (l.run.Some? ==> l.run.value in db.runs) && (l.message.Some? ==> HasMessage(db.messages, l.message.value))
  }

  ghost predicate EventKeys(db: Db) {
    forall e :: e in db.events ==> e.project in db.projects && (e.run.Some? ==> e.run.value in db.runs)
  }

  ghost predicate ForeignKeys(db: Db) {
    RunKeys(db) && MessageKeys(db) && LogKeys(db) && EventKeys(db)
  }

  /** Serial ids grow and stay below the sequence's next value. */
  ghost predicate MessagesOrdered(ms: seq<Message>, next: nat) {
    && (forall i, j :: 0 <= i < j < |ms| ==> ms[i].id < ms[j].id)
    && (forall i :: 0 <= i < |ms| ==> ms[i].id < next)
  }

  ghost predicate LogsOrdered(ls: seq<LogRow>, next: nat) {
    && (forall i, j :: 0 <= i < j < |ls| ==> ls[i].id < ls[j].id)
    && (forall i :: 0 <= i < |ls| ==> ls[i].id < next)
  }

  ghost predicate EventsOrdered(es: seq<EventRow>, next: nat) {
    && (forall i, j :: 0 <= i < j < |es| ==> es[i].id < es[j].id)
    && (forall i :: 0 <= i < |es| ==> es[i].id < next)
  }

  ghost predicate Ordered(db: Db) {
    && MessagesOrdered(db.messages, db.nextMessage)
    && LogsOrdered(db.logs, db.nextLog)
    && EventsOrdered(db.events, db.nextEvent)
  }

  /** Message rows sit in the project of their run. */
  ghost predicate SameProject(db: Db) {
    forall m :: m in db.messages && m.run.Some? && m.run.value in db.runs ==> db.runs[m.run.value].project == m.project
  }

  /** So do event rows that name one. */
  ghost predicate EventsSameProject(db: Db) {
    forall e :: e in db.events && e.run.Some? && e.run.value in db.runs ==> db.runs[e.run.value].project == e.project
  }

  ghost predicate Schema(db: Db) {
    ForeignKeys(db) && Ordered(db) && SameProject(db) && EventsSameProject(db) && OneActive(db.runs)
  }

  // ---------------------------------------------------------------------------
  // Changes committed on behalf of one run
  // ---------------------------------------------------------------------------

  /** A message row about to be inserted for a run. */
  datatype NewMessage = NewMessage(
    role: Role, content: string, calls: seq<ToolCall>, reasoning: seq<Reasoning>, callId: Option<CallId>,
    interrupted: bool)

  function UserRow(text: string): NewMessage {
    NewMessage(User, text, [], [], None, false)
  }

  function ToolRow(call: CallId, text: string): NewMessage {
    NewMessage(Tool, text, [], [], Some(call), false)
  }

  function Stamp(id: MessageId, p: ProjectId, r: RunId, m: NewMessage): Message {
    Message(id, p, Some(r), m.role, m.content, m.calls, m.reasoning, m.callId, m.interrupted)
  }

  /** What one statement or transaction writes for run `r`: its row, its project's row, at most
      one message, and tool log rows. None leaves a row as it is. */
  datatype Change = Change(run: Option<Run>, project: Option<Project>, row: Option<NewMessage>, logged: seq<string>)

  const NO_CHANGE := Change(None, None, None, [])

  function AppendEvent(db: Db, p: ProjectId, r: Option<RunId>, kind: string): Db {
    db.(events := db.events + [EventRow(db.nextEvent, p, r, kind)], nextEvent := db.nextEvent + 1)
  }

  function Insert(db: Db, p: ProjectId, r: RunId, m: NewMessage): Db {
    db.(messages := db.messages + [Stamp(db.nextMessage, p, r, m)], nextMessage := db.nextMessage + 1)
  }

  /** The newest asking turn of a run: what its tool log rows point at. */
  function LastAsking(t: seq<Message>): Option<MessageId> {
    if t == [] then None
    else if Last(t).role == Assistant && Last(t).calls != [] then Some(Last(t).id)
    else LastAsking(Init(t))
  }

  function LogTools(db: Db, r: RunId, message: Option<MessageId>, tools: seq<string>): Db
    decreases |tools|
  {
    if tools == [] then db
    else
      LogTools(db.(logs := db.logs + [LogRow(db.nextLog, Some(r), message, tools[0])], nextLog := db.nextLog + 1),
               r, message, tools[1..])
  }

  function PutRun(db: Db, r: RunId, run: Option<Run>): Db {
    if run.Some? then db.(runs := db.runs[r := run.value]) else db
  }

  function PutProject(db: Db, p: ProjectId, project: Option<Project>): Db {
    if project.Some? then db.(projects := db.projects[p := project.value]) else db
  }

  function PutRow(db: Db, p: ProjectId, r: RunId, row: Option<NewMessage>): Db {
    if row.Some? then Insert(db, p, r, row.value) else db
  }

  function Commit(db: Db, r: RunId, c: Change): Db
    requires r in db.runs
  {
    var p := db.runs[r].project;
    var d := PutProject(PutRun(db, r, c.run), p, c.project);
    PutRow(LogTools(d, r, LastAsking(Of(db.messages, r)), c.logged), p, r, c.row)
  }

  function Awaiting(run: Run, why: Reason): Run {
    run.(state := AwaitingHuman, reason := Some(why))
  }

  function Released(run: Run): Run {
    run.(state := Running, reason := None)
  }

  /** A full resume also drops the pause flag and the error. */
  function Resumed(run: Run): Run {
    run.(state := Running, reason := None, pauseRequested := false, error := None)
  }

  function OnlyRow(m: NewMessage): Change {
    NO_CHANGE.(row := Some(m))
  }

  function OnlyRun(run: Run): Change {
    NO_CHANGE.(run := Some(run))
  }

  function MarkPaused(run: Run): Change {
    if run.state == Running then OnlyRun(run.(state := Paused)) else NO_CHANGE
  }

  function AwaitHuman(run: Run, why: Reason, cause: string): Change {
    if run.state == Running then OnlyRun(Awaiting(run, why).(error := Some(cause))) else NO_CHANGE
  }

  /** No state guard: whatever the row holds, it ends. An empty cause is no error. */
  function FinishRun(run: Run, state: RunState, cause: string): Change {
    OnlyRun(run.(state := state, error := if cause == "" then None else Some(cause), finished := true))
  }

  function IncrementRunStep(run: Run): Change {
    OnlyRun(run.(steps := run.steps + 1))
  }

  /** A transaction returns None when it rolls back. */
  function AppendResultAndAwait(run: Run, m: NewMessage, why: Reason): Option<Change> {
    if run.state != Running then None else Some(Change(Some(Awaiting(run, why)), None, Some(m), []))
  }

  function FinishIfTerminal(run: Run, t: seq<Message>): Option<Change> {
    if !Terminal(t) || run.state != Running then None else Some(OnlyRun(run.(state := Idle, finished := true)))
  }

  function AppendAnswerAndResume(run: Run, text: string): Option<Change> {
    if run.state != AwaitingHuman then None else Some(Change(Some(Resumed(run)), None, Some(UserRow(text)), []))
  }

  function TasksOf(summaries: seq<string>): seq<Task> {
    seq(|summaries|, i requires 0 <= i < |summaries| => Task(i + 1, Trim(summaries[i]), TaskPending, ""))
  }

  predicate ValidDraft(d: PlanDraft) {
    Trim(d.title) != "" && d.tasks != [] && forall i :: 0 <= i < |d.tasks| ==> Trim(d.tasks[i]) != ""
  }

  function DraftBoard(d: PlanDraft): Board {
    Board(Trim(d.title), Draft, "", "", TasksOf(d.tasks))
  }

  function WritePlan(run: Run, project: Project, d: PlanDraft, m: NewMessage): Option<Change> {
    if !ValidDraft(d) || run.state != Running then None
    else Some(Change(Some(Awaiting(run, PlanApproval)), Some(project.(board := DraftBoard(d))), Some(m), []))
  }

  function FindTask(tasks: seq<Task>, n: int): (at: nat)
    ensures at <= |tasks|
    ensures at < |tasks| ==> tasks[at].n == n
    ensures forall i :: 0 <= i < at ==> tasks[i].n != n
  {
    if tasks == [] || tasks[0].n == n then 0 else 1 + FindTask(tasks[1..], n)
  }

  /** `status` is None for any text that is not one of the four. */
  function MoveTask(board: Board, n: int, status: Option<TaskStatus>, note: string): Option<Board> {
    var at := FindTask(board.tasks, n);
    if status == None || board.Empty() || at == |board.tasks| then None
    else Some(board.(tasks := board.tasks[at := board.tasks[at].(status := status.value, note := Trim(note))]))
  }

  lemma {:induction false} FindsTask(tasks: seq<Task>, n: int)
    ensures FindTask(tasks, n) < |tasks| <==> exists i :: 0 <= i < |tasks| && tasks[i].n == n
  {
    if tasks != [] && tasks[0].n != n {
      FindsTask(tasks[1..], n);
      assert forall i :: 1 <= i < |tasks| ==> tasks[i] == tasks[1..][i - 1];
    }
  }

  /** Moving a task of a drafted plan finds the one task with its number, or none; the number, the
      summary and every other task stay as drafted. */
  lemma MovesOneTask(d: PlanDraft, board: Board, n: int, status: Option<TaskStatus>, note: string)
    requires ValidDraft(d) && board.tasks == TasksOf(d.tasks)
    ensures match MoveTask(board, n, status, note)
            case None => status == None || n < 1 || n > |d.tasks|
            case Some(b) =>
              && status.Some? && 1 <= n <= |d.tasks| && b == board.(tasks := b.tasks) && |b.tasks| == |d.tasks|
              && b.tasks[n - 1] == Task(n, Trim(d.tasks[n - 1]), status.value, Trim(note))
              && forall i :: 0 <= i < |d.tasks| && i != n - 1 ==> b.tasks[i] == board.tasks[i]
  {
    FindsTask(board.tasks, n);
    if 1 <= n <= |d.tasks| {
      assert board.tasks[n - 1].n == n;
    }
  }

  function UpdateTask(project: Project, n: int, status: Option<TaskStatus>, note: string, m: NewMessage): Option<Change> {
    match MoveTask(project.board, n, status, note)
    case None => None
    case Some(board) => Some(Change(None, Some(project.(board := board)), Some(m), []))
  }

  function OnlyProject(project: Project): Change {
    NO_CHANGE.(project := Some(project))
  }

  function ClearPlan(project: Project): Change {
    OnlyProject(project.(board := EMPTY_BOARD))
  }

  function SetMemories(project: Project, text: string): Change {
    OnlyProject(project.(memories := Trim(text)))
  }

  function SetOrientation(project: Project, text: string): Change {
    OnlyProject(project.(orientation := Trim(text)))
  }

  // ---------------------------------------------------------------------------
  // Project-scoped statements and transactions
  // ---------------------------------------------------------------------------

  predicate HasActive(runs: map<RunId, Run>, p: ProjectId) {
    exists r :: r in runs && runs[r].project == p && runs[r].Active()
  }

  function CreateRun(db: Db, p: ProjectId, r: RunId, text: string): Option<Db> {
    if p !in db.projects || r in db.runs || HasActive(db.runs, p) then None
    else Some(Insert(db.(runs := db.runs[r := Run(p, Running, None, false, None, 0, false)]), p, r, UserRow(text)))
  }

  /** Resumable: paused, or waiting for anything but a plan approval. */
  predicate Resumable(run: Run) {
    run.state == Paused || (run.state == AwaitingHuman && run.reason != Some(PlanApproval))
  }

  /** `UPDATE run SET ... WHERE project_id = p AND ...`, row by row. */
  function RequestPause(runs: map<RunId, Run>, p: ProjectId): map<RunId, Run> {
    map r | r in runs ::
      if runs[r].project == p && runs[r].state == Running then runs[r].(pauseRequested := true) else runs[r]
  }

  function ResumeRun(runs: map<RunId, Run>, p: ProjectId): map<RunId, Run> {
    map r | r in runs :: if runs[r].project == p && Resumable(runs[r]) then Resumed(runs[r]) else runs[r]
  }

  function ReleasePlan(runs: map<RunId, Run>, p: ProjectId): map<RunId, Run> {
    map r | r in runs :: if runs[r].project == p && runs[r].AwaitingPlan() then Released(runs[r]) else runs[r]
  }

  /** Run `r` is a row a plan release returns. */
  predicate Gated(runs: map<RunId, Run>, p: ProjectId, r: RunId) {
    r in runs && runs[r].project == p && runs[r].AwaitingPlan()
  }

  /** Both answers to a plan: a new board, the gate lifted, and a user turn. */
  function AnswerPlan(db: Db, p: ProjectId, r: RunId, board: Board, text: string): Option<Db> {
    if p !in db.projects || !db.projects[p].board.AwaitingApproval() || !Gated(db.runs, p, r) then None
    else
      var d := db.(projects := db.projects[p := db.projects[p].(board := board)], runs := ReleasePlan(db.runs, p));
      Some(Insert(d, p, r, UserRow(text)))
  }

  function ApprovePlan(db: Db, p: ProjectId, r: RunId, base: string): Option<Db> {
    if p !in db.projects then None
    else AnswerPlan(db, p, r, db.projects[p].board.(status := Approved, baseCommit := Trim(base), feedback := ""),
                    "Plan approved.")
  }

  function RevisePlan(db: Db, p: ProjectId, r: RunId, feedback: string): Option<Db> {
    if Trim(feedback) == "" then None
    else AnswerPlan(db, p, r, EMPTY_BOARD.(feedback := Trim(feedback)), "Revise the plan: " + Trim(feedback))
  }

  /** All messages of a project, in id order: the model's window. */
  function Context(ms: seq<Message>, p: ProjectId): seq<Message> {
    if ms == [] then []
    else if Last(ms).project == p then Context(Init(ms), p) + [Last(ms)]
    else Context(Init(ms), p)
  }

  /** The project's rows and no others, in their order. */
  lemma {:induction false} ContextIs(ms: seq<Message>, p: ProjectId)
    ensures Context(ms, p) == Filter(ms, (m: Message) => m.project == p)
  {
    if ms != [] {
      ContextIs(Init(ms), p);
    }
  }
}
