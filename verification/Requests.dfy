/** What each operator request leaves in the tables. */
module Requests {
  import opened Prelude
  import opened Text
  import opened Transcript
  import opened Store
  import opened Worker
  import opened WorkerProofs
  import opened RunMachine
  import opened RunProofs

  /** The row runs again: nothing it waits for, no pause pending, no error, and the rest as it was. */
  ghost predicate RunsAgain(was: Run, now: Run) {
    && now.state == Running && now.reason == None && !now.pauseRequested && now.error == None
    && now.project == was.project && now.steps == was.steps && now.finished == was.finished
  }

  /** The plan's gate is lifted; a pause that is pending stays pending. */
  ghost predicate GoesThrough(was: Run, now: Run) {
    && now.state == Running && now.reason == None
    && now.pauseRequested == was.pauseRequested && now.error == was.error
    && now.project == was.project && now.steps == was.steps && now.finished == was.finished
  }

  /** Every run but `r` keeps its row, and none appears or goes. */
  ghost predicate OthersStay(runs: map<RunId, Run>, now: map<RunId, Run>, r: RunId) {
    && now.Keys == runs.Keys && r in runs
    && forall q :: q in runs && q != r ==> now[q] == runs[q]
  }

  /** The operator's words are the one new row of the run, with the next id. */
  ghost predicate Voiced(db: Db, d: Db, p: ProjectId, r: RunId, text: string) {
    && d.nextMessage == db.nextMessage + 1
    && d.messages == db.messages + [Message(db.nextMessage, p, Some(r), User, text, [], [], None, false)]
  }

  /** Logs and events stay as they are. */
  ghost predicate RecordsStay(db: Db, d: Db) {
    d.logs == db.logs && d.nextLog == db.nextLog && d.events == db.events && d.nextEvent == db.nextEvent
  }

  /** Nothing but the tables, the one start to come, and the ids in use may differ. */
  ghost predicate AsksStart(s: System, t: System, r: RunId) {
    && t.starts == {r} && t.up && s.starts == {}
    && t.procs == s.procs && t.registry == s.registry && t.refused == s.refused && t.clears == s.clears
  }

  // ---------------------------------------------------------------------------
  // The tables after each request
  // ---------------------------------------------------------------------------

  /** A resume is taken exactly for a run that is paused, or waits for anything but a plan approval; it
      lifts the pause and the wait, and nothing else changes. */
  lemma ResumeLifts(s: System, p: ProjectId, r: RunId)
    requires OneActive(s.db.runs)
    ensures Next(s, Resume(p, r)).Some? <==>
            && s.up && s.starts == {} && r in s.db.runs && s.db.runs[r].project == p
            && (s.db.runs[r].state == Paused
                || (s.db.runs[r].state == AwaitingHuman && s.db.runs[r].reason != Some(PlanApproval)))
    ensures Next(s, Resume(p, r)).Some? ==>
              var t := Next(s, Resume(p, r)).value;
              && OthersStay(s.db.runs, t.db.runs, r) && RunsAgain(s.db.runs[r], t.db.runs[r])
              && t.db.messages == s.db.messages && t.db.nextMessage == s.db.nextMessage
              && t.db.projects == s.db.projects && RecordsStay(s.db, t.db)
              && AsksStart(s, t, r) && t.used == s.used
  {
    hide Step, Of, Cleared, CreateRun, ApprovePlan, RevisePlan, Commit, Blocked;
    if Next(s, Resume(p, r)).Some? {
      ResumeIsOne(s.db.runs, p, r);
    }
  }

  /** An answer is taken exactly by a run that asked; it is the one new row, and the run runs again. */
  lemma AnswerLifts(s: System, p: ProjectId, r: RunId, text: string)
    requires RunKeys(s.db)
    ensures Next(s, Answer(p, r, text)).Some? <==>
            && s.up && s.starts == {} && !Blank(text) && r in s.db.runs && s.db.runs[r].project == p
            && s.db.runs[r].state == AwaitingHuman && s.db.runs[r].reason == Some(Question)
    ensures Next(s, Answer(p, r, text)).Some? ==>
              var t := Next(s, Answer(p, r, text)).value;
              && OthersStay(s.db.runs, t.db.runs, r) && RunsAgain(s.db.runs[r], t.db.runs[r])
              && Voiced(s.db, t.db, p, r, Trim(text))
              && t.db.projects == s.db.projects && RecordsStay(s.db, t.db)
              && AsksStart(s, t, r) && t.used == s.used
  {
    hide Step, Of, Cleared, CreateRun, ApprovePlan, RevisePlan, ResumeRun, Blocked;
    TrimBlank(text);
  }

  /** A pause sets the flag of the project's Running runs and changes nothing else. */
  lemma PauseFlags(s: System, p: ProjectId)
    ensures Next(s, Pause(p)).Some? <==> s.up && s.starts == {}
    ensures Next(s, Pause(p)).Some? ==>
              var t := Next(s, Pause(p)).value;
              && t == s.(db := s.db.(runs := t.db.runs)) && t.db.runs.Keys == s.db.runs.Keys
              && forall q :: q in s.db.runs ==>
                   var was, now := s.db.runs[q], t.db.runs[q];
                   && (now.pauseRequested <==> was.pauseRequested || (was.project == p && was.state == Running))
                   && now == was.(pauseRequested := now.pauseRequested)
  {
    hide Step, Of, Cleared, CreateRun, ApprovePlan, RevisePlan, ResumeRun, Commit, Blocked;
  }

  /** A run is created exactly when its project has no live one; it starts Running with the trimmed
      words as its first row. */
  lemma CreateStarts(s: System, p: ProjectId, r: RunId, text: string)
    requires s.db.runs.Keys <= s.used
    ensures Next(s, Create(p, r, text)).Some? <==>
            && s.up && s.starts == {} && !Blank(text) && p !in s.clears && r !in s.used && p in s.db.projects
            && forall q :: q in s.db.runs && s.db.runs[q].project == p ==>
                 s.db.runs[q].state == Idle || s.db.runs[q].state == Done || s.db.runs[q].state == Failed
    ensures Next(s, Create(p, r, text)).Some? ==>
              var t := Next(s, Create(p, r, text)).value;
              && r !in s.db.runs && t.db.runs.Keys == s.db.runs.Keys + {r}
              && (forall q :: q in s.db.runs ==> t.db.runs[q] == s.db.runs[q])
              && t.db.runs[r].project == p && t.db.runs[r].state == Running && t.db.runs[r].reason == None
              && !t.db.runs[r].pauseRequested && t.db.runs[r].error == None && t.db.runs[r].steps == 0 && !t.db.runs[r].finished
              && Voiced(s.db, t.db, p, r, Trim(text))
              && t.db.projects == s.db.projects && RecordsStay(s.db, t.db)
              && AsksStart(s, t, r) && t.used == s.used + {r}
  {
    hide Step, Of, Cleared, ApprovePlan, RevisePlan, ResumeRun, Commit, Blocked;
    TrimBlank(text);
  }

  /** A drafted plan is there and `r` waits for its approval. */
  ghost predicate PlanWaits(db: Db, p: ProjectId, r: RunId) {
    && p in db.projects && db.projects[p].board.status == Draft
    && (db.projects[p].board.title != "" || db.projects[p].board.tasks != [])
    && r in db.runs && db.runs[r].project == p && db.runs[r].state == AwaitingHuman && db.runs[r].reason == Some(PlanApproval)
  }

  /** Both answers to a plan leave everything but the project's board, the run's gate and one new row. */
  ghost predicate PlanAnswered(s: System, t: System, p: ProjectId, r: RunId, text: string)
    requires PlanWaits(s.db, p, r)
  {
    && OthersStay(s.db.runs, t.db.runs, r) && GoesThrough(s.db.runs[r], t.db.runs[r])
    && Voiced(s.db, t.db, p, r, text)
    && t.db.projects.Keys == s.db.projects.Keys
    && (forall q :: q in s.db.projects && q != p ==> t.db.projects[q] == s.db.projects[q])
    && t.db.projects[p] == s.db.projects[p].(board := t.db.projects[p].board)
    && RecordsStay(s.db, t.db) && AsksStart(s, t, r) && t.used == s.used
  }

  lemma PlanAnswers(db: Db, p: ProjectId, r: RunId, board: Board, text: string)
    requires OneActive(db.runs)
    ensures AnswerPlan(db, p, r, board, text).Some? <==> PlanWaits(db, p, r)
    ensures PlanWaits(db, p, r) ==>
              var d := AnswerPlan(db, p, r, board, text).value;
              && OthersStay(db.runs, d.runs, r) && GoesThrough(db.runs[r], d.runs[r]) && Voiced(db, d, p, r, text)
              && d.projects == db.projects[p := db.projects[p].(board := board)] && RecordsStay(db, d)
  {
    if PlanWaits(db, p, r) {
      ReleaseIsOne(db.runs, p, r);
    }
  }

  /** Approval is taken exactly while the draft waits; the plan keeps its title and its tasks, and is
      approved against the commit given. */
  lemma ApprovalKeepsPlan(s: System, p: ProjectId, r: RunId, base: string)
    requires OneActive(s.db.runs)
    ensures Next(s, Approve(p, r, base)).Some? <==> s.up && s.starts == {} && PlanWaits(s.db, p, r)
    ensures Next(s, Approve(p, r, base)).Some? ==>
              var t := Next(s, Approve(p, r, base)).value;
              var was, now := s.db.projects[p].board, t.db.projects[p].board;
              && PlanAnswered(s, t, p, r, "Plan approved.")
              && now.title == was.title && now.tasks == was.tasks
              && now.status == Approved && now.baseCommit == Trim(base) && now.feedback == ""
  {
    hide Step, Of, Cleared, CreateRun, RevisePlan, ResumeRun, Commit, Blocked, AnswerPlan;
    if p in s.db.projects {
      PlanAnswers(s.db, p, r, s.db.projects[p].board.(status := Approved, baseCommit := Trim(base), feedback := ""), "Plan approved.");
    }
  }

  /** A revision with something to say is taken exactly while the draft waits; of the plan only the
      feedback is left. */
  lemma RevisionLeavesFeedback(s: System, p: ProjectId, r: RunId, feedback: string)
    requires OneActive(s.db.runs)
    ensures Next(s, Revise(p, r, feedback)).Some? <==> s.up && s.starts == {} && !Blank(feedback) && PlanWaits(s.db, p, r)
    ensures Next(s, Revise(p, r, feedback)).Some? ==>
              var t := Next(s, Revise(p, r, feedback)).value;
              var now := t.db.projects[p].board;
              && PlanAnswered(s, t, p, r, "Revise the plan: " + Trim(feedback))
              && now.title == "" && now.tasks == [] && now.status == NoPlan && now.baseCommit == ""
              && now.feedback == Trim(feedback)
  {
    hide Step, Of, Cleared, CreateRun, ApprovePlan, ResumeRun, Commit, Blocked, AnswerPlan;
    TrimBlank(feedback);
    PlanAnswers(s.db, p, r, EMPTY_BOARD.(feedback := Trim(feedback)), "Revise the plan: " + Trim(feedback));
  }

  // ---------------------------------------------------------------------------
  // From a request to the loop
  // ---------------------------------------------------------------------------

  /** The worker a start leaves with the run: the one it has, or the new one. */
  function WorkerOf(s: System, r: RunId, id: WorkerId): WorkerId {
    if r in s.registry then s.registry[r] else id
  }

  /** The operator lets `r` go on. */
  predicate LetsGo(a: Action, r: RunId) {
    (a.Answer? || a.Resume? || a.Approve? || a.Revise?) && a.r == r
  }

  /** A request is not a worker's step: the model has nothing to promise. */
  lemma LetsGoRow(s: System, a: Action, r: RunId)
    requires Schema(s.db) && Next(s, a).Some? && LetsGo(a, r)
    ensures var t := Next(s, a).value;
            && Takes(s, a, t) && AsksStart(s, t, r) && r in s.db.runs && r in t.db.runs && s.db.runs[r].state != Running
            && t.db.runs[r].state == Running && t.db.runs[r].project == s.db.runs[r].project
            && t.db.projects.Keys == s.db.projects.Keys
            && t.db.runs[r].pauseRequested == ((a.Approve? || a.Revise?) && s.db.runs[r].pauseRequested)
  {
    hide Next;
    if a.Answer? {
      AnswerLifts(s, a.p, r, a.text);
    } else if a.Resume? {
      ResumeLifts(s, a.p, r);
    } else if a.Approve? {
      ApprovalKeepsPlan(s, a.p, r, a.base);
    } else {
      RevisionLeavesFeedback(s, a.p, r, a.feedback);
    }
  }

  lemma WaitingWorker(s: System, r: RunId)
    requires Inv(s) && r in s.db.runs && s.db.runs[r].state != Running
    ensures Schema(s.db) && Registered(s) && s.db.runs[r].project in s.db.projects
    ensures PcOf(s, r) == None || PcOf(s, r) == Some(Top) || PcOf(s, r) == Some(Exiting)
    ensures PcOf(s, r) == None <==> r !in s.registry
  {
    hide Of, Driven, BoardsGood, ClearsGood, RunOk;
    assert Good(s.db.runs[r], Of(s.db.messages, r), PcOf(s, r));
  }

  lemma StartGrants(s: System, r: RunId, id: WorkerId)
    requires Registered(s) && s.up && r in s.starts && id !in s.procs
    requires PcOf(s, r) == None || PcOf(s, r) == Some(Top)
    ensures Next(s, Start(r, id)).Some?
    ensures var t, w := Next(s, Start(r, id)).value, WorkerOf(s, r, id);
            t.db == s.db && w in t.procs && t.procs[w] == Proc(r, Top) && r in t.registry && t.registry[r] == w
  {
    hide Step, Of, Cleared;
  }

  /** What the look at a Running row decides. */
  lemma Looks(s: System, w: WorkerId, r: RunId)
    requires w in s.procs && s.procs[w] == Proc(r, Top) && r in s.registry && s.registry[r] == w
    requires r in s.db.runs && s.db.runs[r].state == Running && s.db.runs[r].project in s.db.projects
    ensures Next(s, Drive(w, ReadRun)).Some?
    ensures PcOf(Next(s, Drive(w, ReadRun)).value, r) == Some(if s.db.runs[r].pauseRequested then Park(true) else Begin)
  {
    hide Of, Cleared, Commit;
  }

  /** The three steps one after another. */
  lemma ThreeSteps(s: System, a: Action, r: RunId, id: WorkerId) returns (t: System, u: System, v: System)
    requires Inv(s) && Next(s, a).Some? && LetsGo(a, r) && id !in s.procs && PcOf(s, r) != Some(Exiting)
    ensures var w := WorkerOf(s, r, id);
            Takes(s, a, t) && Takes(t, Start(r, id), u) && Takes(u, Drive(w, ReadRun), v)
    ensures PcOf(v, r) == Some(if (a.Approve? || a.Revise?) && s.db.runs[r].pauseRequested then Park(true) else Begin)
  {
    hide Next, Schema, Registered, PcOf;
    assert Schema(s.db);
    LetsGoRow(s, a, r);
    WaitingWorker(s, r);
    hide Inv;
    t := Next(s, a).value;
    var w := WorkerOf(s, r, id);
    SameWorkers(s, t, r);
    StartGrants(t, r, id);
    u := Next(t, Start(r, id)).value;
    Looks(u, w, r);
    v := Next(u, Drive(w, ReadRun)).value;
  }

  /** From any run that waits or is paused, unless its last worker is still on its way out: the request,
      the start it makes and one look at the row bring a worker to the top of a turn. Only a pause that was
      pending when a plan was answered parks it instead. */
  lemma RequestBegins(s: System, a: Action, r: RunId, id: WorkerId) returns (states: seq<System>)
    requires Inv(s) && Next(s, a).Some? && LetsGo(a, r) && id !in s.procs && PcOf(s, r) != Some(Exiting)
    ensures Behaviour(states, [a, Start(r, id), Drive(WorkerOf(s, r, id), ReadRun)]) && states[0] == s
    ensures PcOf(states[3], r) == Some(if (a.Approve? || a.Revise?) && s.db.runs[r].pauseRequested then Park(true) else Begin)
  {
    hide Inv, Next, Takes, PcOf;
    var t, u, v := ThreeSteps(s, a, r, id);
    states := [s, t, u, v];
    var actions := [a, Start(r, id), Drive(WorkerOf(s, r, id), ReadRun)];
    forall i | 0 <= i < |actions| ensures Takes(states[i], actions[i], states[i + 1]) {
      assert i == 0 || i == 1 || i == 2;
    }
  }

  lemma SameWorkers(s: System, t: System, r: RunId)
    requires Registered(s) && AsksStart(s, t, r)
    ensures Registered(t) && PcOf(t, r) == PcOf(s, r)
    ensures forall id :: WorkerOf(t, r, id) == WorkerOf(s, r, id)
  {
  }
}
