/** The whole protocol: tables, workers, the process, operator requests and a concurrent clear,
    one atomic step at a time. */
module RunMachine {
  import opened Prelude
  import opened Text
  import opened Transcript
  import opened Store
  import opened Worker

  type WorkerId = nat

  /** A goroutine: the run it drives and where it stands. */
  datatype Proc = Proc(run: RunId, pc: Pc)

  /** An open clear transaction: how many deletes it has executed, the rows they named, and the next
      event id when it deleted the events. */
  datatype ClearTx = ClearTx(
    stage: nat, logs: set<nat>, events: set<nat>, mark: nat, messages: set<MessageId>, runs: set<RunId>)

  const NEW_CLEAR := ClearTx(0, {}, {}, 0, {}, {})

  /** `used` is the run ids ever generated. `registry` is the mutex-guarded worker table; `starts` are
      runs whose `start` call is still to come; `refused` are Running runs whose start was turned away by a
      worker past its last durable read. */
  datatype System = System(
    db: Db, up: bool, procs: map<WorkerId, Proc>, registry: map<RunId, WorkerId>, starts: set<RunId>,
    refused: set<RunId>, clears: map<ProjectId, ClearTx>, used: set<RunId>)

  datatype Action =
    | Drive(w: WorkerId, act: Act)
    | Start(r: RunId, id: WorkerId)
    | Create(p: ProjectId, r: RunId, text: string)
    | Answer(p: ProjectId, r: RunId, text: string)
    | Pause(p: ProjectId)
    | Resume(p: ProjectId, r: RunId)
    | Approve(p: ProjectId, r: RunId, base: string)
    | Revise(p: ProjectId, r: RunId, feedback: string)
    | Emit(p: ProjectId, run: Option<RunId>, kind: string)
    | ClearBegin(p: ProjectId)
    | ClearDelete(p: ProjectId)
    | ClearCommit(p: ProjectId)
    | ClearAbort(p: ProjectId)
    | Crash
    | Boot

  function PcOf(s: System, r: RunId): Option<Pc> {
    if r in s.registry && s.registry[r] in s.procs then Some(s.procs[s.registry[r]].pc) else None
  }

  /** A worker that will still read the run row. */
  predicate Live(s: System, r: RunId) {
    PcOf(s, r).Some? && PcOf(s, r) != Some(Exiting)
  }

  predicate IsRunning(db: Db, r: RunId) {
    r in db.runs && db.runs[r].state == Running
  }

  function DriveStep(s: System, w: WorkerId, a: Act): Option<System> {
    if w !in s.procs then None
    else
      var r, pc := s.procs[w].run, s.procs[w].pc;
      if a == Exit then
        if pc == Exiting then Some(s.(procs := s.procs - {w}, registry := s.registry - {r})) else None
      else if r !in s.db.runs then
        // The row was cleared: the read fails and the worker leaves.
        if pc == Top && a == ReadRun then Some(s.(procs := s.procs[w := Proc(r, Exiting)])) else None
      else
        var run := s.db.runs[r];
        if run.project !in s.db.projects then None
        else
          match Step(run, s.db.projects[run.project], Of(s.db.messages, r), pc, a)
          case None => None
          case Some(m) => Some(s.(db := Commit(s.db, r, m.change), procs := s.procs[w := Proc(r, m.pc)]))
  }

  /** `start`: refused while a worker is registered, whatever that worker is about to do. */
  function StartStep(s: System, r: RunId, id: WorkerId): Option<System> {
    if r !in s.starts || id in s.procs then None
    else
      var t := s.(starts := s.starts - {r});
      if r in s.registry then
        Some(if IsRunning(s.db, r) && !Live(s, r) then t.(refused := s.refused + {r}) else t)
      else
        Some(t.(procs := s.procs[id := Proc(r, Top)], registry := s.registry[r := id], refused := s.refused - {r}))
  }

  function Requested(s: System, db: Db, r: RunId): System {
    s.(db := db, starts := {r})
  }

  /** A new run, under an id never generated before. */
  function Generated(s: System, db: Db, r: RunId): System {
    Requested(s, db, r).(used := s.used + {r})
  }

  /** Operator requests are serialised: each has made its call to start before the next begins. */
  predicate Serving(s: System) {
    s.up && s.starts == {}
  }

  /** A log row of the project: through its run, or through its message. */
  predicate LogIn(db: Db, p: ProjectId, l: LogRow) {
    || (l.run.Some? && l.run.value in db.runs && db.runs[l.run.value].project == p)
    || (l.message.Some? && l.message.value in MessagesIn(db.messages, p))
  }

  function MessagesIn(ms: seq<Message>, p: ProjectId): set<MessageId> {
    set i | 0 <= i < |ms| && ms[i].project == p :: ms[i].id
  }

  function LogsIn(db: Db, p: ProjectId): set<nat> {
    set i | 0 <= i < |db.logs| && LogIn(db, p, db.logs[i]) :: db.logs[i].id
  }

  function EventsIn(es: seq<EventRow>, p: ProjectId): set<nat> {
    set i | 0 <= i < |es| && es[i].project == p :: es[i].id
  }

  function RunsIn(runs: map<RunId, Run>, p: ProjectId): set<RunId> {
    set r | r in runs && runs[r].project == p
  }

  /** One DELETE of the clear, seeing what is committed now. */
  function ClearDeleteTx(db: Db, p: ProjectId, tx: ClearTx): ClearTx {
    if tx.stage == 0 then tx.(stage := 1, logs := LogsIn(db, p))
    else if tx.stage == 1 then tx.(stage := 2, events := EventsIn(db.events, p), mark := db.nextEvent)
    else if tx.stage == 2 then tx.(stage := 3, messages := MessagesIn(db.messages, p))
    else tx.(stage := 4, runs := RunsIn(db.runs, p))
  }

  /** The key check at the end of a DELETE finds a committed row that still refers to a deleted one. */
  predicate Blocked(db: Db, p: ProjectId, tx: ClearTx) {
    || (tx.stage == 2 && exists l :: l in db.logs && l.id !in tx.logs
                                     && l.message.Some? && l.message.value in MessagesIn(db.messages, p))
    || (tx.stage == 3 && exists m :: m in db.messages && m.id !in tx.messages && m.run.Some? && m.run.value in RunsIn(db.runs, p))
    || (tx.stage == 3 && exists l :: l in db.logs && l.id !in tx.logs && l.run.Some? && l.run.value in RunsIn(db.runs, p))
    || (tx.stage == 3 && exists e :: e in db.events && e.id !in tx.events && e.run.Some? && e.run.value in RunsIn(db.runs, p))
  }

  /** An event may name a run that exists and that no open clear has deleted: the key check of the insert
      waits for the clear and then fails. */
  predicate MayEmit(s: System, p: ProjectId, r: Option<RunId>) {
    && p in s.db.projects
    && (r.Some? ==> r.value in s.db.runs && s.db.runs[r.value].project == p && !(p in s.clears && r.value in s.clears[p].runs))
  }

  /** The rows named by the transaction disappear and the board is empty. */
  function Cleared(db: Db, p: ProjectId, tx: ClearTx): Db
    requires p in db.projects
  {
    db.(logs := Filter(db.logs, (l: LogRow) => l.id !in tx.logs),
        events := Filter(db.events, (e: EventRow) => e.id !in tx.events),
        messages := Filter(db.messages, (m: Message) => m.id !in tx.messages),
        runs := db.runs - tx.runs,
        projects := db.projects[p := db.projects[p].(board := EMPTY_BOARD)])
  }

  ghost function Next(s: System, a: Action): Option<System> {
    match a
    case Drive(w, act) => DriveStep(s, w, act)
    case Start(r, id) => if s.up then StartStep(s, r, id) else None
    case Create(p, r, text) =>
      // Run creation and clearing take the same advisory lock, and a generated id is new.
      if !Serving(s) || Trim(text) == "" || p in s.clears || r in s.used then None
      else
        (match CreateRun(s.db, p, r, Trim(text)) case Some(db) => Some(Generated(s, db, r)) case None => None)
    case Answer(p, r, text) =>
      if !Serving(s) || Trim(text) == "" || r !in s.db.runs || s.db.runs[r].project != p
         || s.db.runs[r].state != AwaitingHuman || s.db.runs[r].reason != Some(Question) then None
      else
        (match AppendAnswerAndResume(s.db.runs[r], Trim(text))
         case Some(c) => Some(Requested(s, Commit(s.db, r, c), r))
         case None => None)
    case Pause(p) =>
      if !Serving(s) then None else Some(s.(db := s.db.(runs := RequestPause(s.db.runs, p))))
    case Resume(p, r) =>
      if !Serving(s) || r !in s.db.runs || s.db.runs[r].project != p || !Resumable(s.db.runs[r]) then None
      else Some(Requested(s, s.db.(runs := ResumeRun(s.db.runs, p)), r))
    case Approve(p, r, base) =>
      if !Serving(s) then None
      else (match ApprovePlan(s.db, p, r, base) case Some(db) => Some(Requested(s, db, r)) case None => None)
    case Revise(p, r, feedback) =>
      if !Serving(s) then None
      else (match RevisePlan(s.db, p, r, feedback) case Some(db) => Some(Requested(s, db, r)) case None => None)
    case Emit(p, r, kind) =>
      // Workers and request handlers record events whenever they like.
      if !s.up || !MayEmit(s, p, r) then None else Some(s.(db := AppendEvent(s.db, p, r, kind)))
    case ClearBegin(p) =>
      if !Serving(s) || p !in s.db.projects || p in s.clears || HasActive(s.db.runs, p) then None
      else Some(s.(clears := s.clears[p := NEW_CLEAR]))
    case ClearDelete(p) =>
      if p !in s.clears || s.clears[p].stage >= 4 || Blocked(s.db, p, s.clears[p]) then None
      else Some(s.(clears := s.clears[p := ClearDeleteTx(s.db, p, s.clears[p])]))
    case ClearCommit(p) =>
      if p !in s.clears || s.clears[p].stage < 4 || p !in s.db.projects then None
      else Some(s.(db := Cleared(s.db, p, s.clears[p]), clears := s.clears - {p}))
    case ClearAbort(p) =>
      if p !in s.clears then None else Some(s.(clears := s.clears - {p}))
    case Crash => Some(s.(up := false, procs := map[], registry := map[], starts := {}, refused := {}, clears := map[]))
    case Boot =>
      if s.up then None
      else Some(s.(up := true, starts := set r | r in s.db.runs && s.db.runs[r].state == Running))
  }

  // ---------------------------------------------------------------------------
  // The invariant
  // ---------------------------------------------------------------------------

  /** Goroutines and registry entries match one to one. */
  ghost predicate Registered(s: System) {
    && (forall w :: w in s.procs ==> s.procs[w].run in s.registry && s.registry[s.procs[w].run] == w)
    && (forall r :: r in s.registry ==> s.registry[r] in s.procs && s.procs[s.registry[r]].run == r)
  }

  ghost predicate RunsGood(s: System) {
    && (forall r :: r in s.db.runs ==> Good(s.db.runs[r], Of(s.db.messages, r), PcOf(s, r)))
    && (forall w :: w in s.procs && s.procs[w].run !in s.db.runs ==> !Engaged(s.procs[w].pc))
  }

  /** A draft stands on a board exactly while a run of the project waits for its approval. */
  ghost predicate BoardsGood(projects: map<ProjectId, Project>, runs: map<RunId, Run>) {
    forall p :: p in projects ==> (projects[p].board.AwaitingApproval() <==> exists r :: Gated(runs, p, r))
  }

  /** Who drives a Running run. */
  ghost predicate Driven(s: System) {
    && (!s.up ==> s.procs == map[] && s.registry == map[] && s.starts == {} && s.refused == {} && s.clears == map[])
    && (forall r :: s.up && IsRunning(s.db, r) ==> Live(s, r) || r in s.starts || r in s.refused)
    && (forall r :: r in s.refused ==> IsRunning(s.db, r) && !Live(s, r) && r !in s.starts)
  }

  /** No run of the project is live, and the deletes done so far named exactly its rows. */
  ghost predicate ClearGood(db: Db, p: ProjectId, tx: ClearTx) {
    && p in db.projects
    && !HasActive(db.runs, p)
    && (tx.stage >= 1 ==>
          && (forall i :: 0 <= i < |db.logs| ==> (db.logs[i].id in tx.logs <==> LogIn(db, p, db.logs[i])))
          && (forall x :: x in tx.logs ==> x < db.nextLog))
    && (tx.stage >= 2 ==> EventsNamed(db, p, tx))
    && (tx.stage >= 3 ==>
          && (forall i :: 0 <= i < |db.messages| ==> (db.messages[i].id in tx.messages <==> db.messages[i].project == p))
          && (forall x :: x in tx.messages ==> x < db.nextMessage))
    && (tx.stage >= 4 ==> tx.runs == RunsIn(db.runs, p) && NoneLate(db, tx))
  }

  /** The events named are the project's below the mark. */
  ghost predicate EventsNamed(db: Db, p: ProjectId, tx: ClearTx) {
    && tx.mark <= db.nextEvent
    && (forall i :: 0 <= i < |db.events| ==>
          (db.events[i].id in tx.events <==> db.events[i].project == p && db.events[i].id < tx.mark))
    && (forall x :: x in tx.events ==> x < tx.mark)
  }

  /** No event that stays names a run that goes. */
  ghost predicate NoneLate(db: Db, tx: ClearTx) {
    forall i :: 0 <= i < |db.events| && db.events[i].run.Some? && db.events[i].run.value in tx.runs ==> db.events[i].id in tx.events
  }

  ghost predicate ClearsGood(s: System) {
    forall p :: p in s.clears ==> ClearGood(s.db, p, s.clears[p])
  }

  /** Every run the system speaks of has been generated. */
  ghost predicate Known(s: System) {
    s.db.runs.Keys <= s.used && s.registry.Keys <= s.used && s.starts <= s.used
  }

  ghost predicate Inv(s: System) {
    Known(s) && Schema(s.db) && Registered(s) && RunsGood(s) && BoardsGood(s.db.projects, s.db.runs) && Driven(s) && ClearsGood(s)
  }

  // ---------------------------------------------------------------------------
  // Behaviours
  // ---------------------------------------------------------------------------

  /** The model keeps its promise about call ids at this step. */
  ghost predicate Honest(s: System, a: Action) {
    a.Drive? && a.w in s.procs ==> FreshCalls(Of(s.db.messages, s.procs[a.w].run), a.act)
  }

  ghost predicate Takes(s: System, a: Action, s': System) {
    Honest(s, a) && Next(s, a) == Some(s')
  }

  /** `states[i]` becomes `states[i + 1]` by `actions[i]`. */
  ghost predicate Behaviour(states: seq<System>, actions: seq<Action>) {
    && |states| == |actions| + 1
    && forall i :: 0 <= i < |actions| ==> Takes(states[i], actions[i], states[i + 1])
  }

  /** A fresh installation: projects and no conversation. */
  ghost predicate Initial(s: System) {
    && s.db.runs == map[] && s.db.messages == [] && s.db.logs == [] && s.db.events == [] && s.used == {}
    && (forall p :: p in s.db.projects ==> s.db.projects[p].board == EMPTY_BOARD)
    && !s.up && s.procs == map[] && s.registry == map[] && s.starts == {} && s.refused == {} && s.clears == map[]
  }
}
