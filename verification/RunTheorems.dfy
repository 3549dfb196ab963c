/** One step of the system, seen from one run: what its own worker does to its row, its rows and its program
    counter, and what a step of anyone else, worker, operator, clear or crash, may do to them. */
module RunTheorems {
  import opened Prelude
  import opened Text
  import opened Transcript
  import opened Store
  import opened Worker
  import opened WorkerProofs
  import opened RunMachine
  import opened RunProofs

  // ---------------------------------------------------------------------------
  // One step, seen from one run
  // ---------------------------------------------------------------------------

  function Rows(s: System, r: RunId): seq<Message> {
    Of(s.db.messages, r)
  }

  /** The step is taken by a worker of run `r`. */
  predicate DrivenBy(s: System, a: Action, r: RunId) {
    a.Drive? && a.w in s.procs && s.procs[a.w].run == r
  }

  /** The step starts a top-level action of `r`: one primary model call or one tool call. */
  predicate StartsAction(s: System, a: Action, r: RunId) {
    DrivenBy(s, a, r) && (a.act == CallModel || a.act == StartTool)
  }

  /** What operators may do to a run row and its rows. */
  ghost predicate Touched(a: Action, r: RunId, run: Run, t: seq<Message>, run': Run, t': seq<Message>) {
    || (run' == run && t' == t)
    || (a.Pause? && run.state == Running && run' == run.(pauseRequested := true) && t' == t)
    || (a.Resume? && a.p == run.project && Resumable(run) && run' == Resumed(run) && t' == t)
    || (a.Answer? && a.r == r && run.state == AwaitingHuman && run.reason == Some(Question) && run' == Resumed(run) && Spoke(t, t'))
    || ((a.Approve? || a.Revise?) && a.r == r && run.AwaitingPlan() && run' == Released(run) && Spoke(t, t'))
  }

  /** One user turn more. */
  ghost predicate Spoke(t: seq<Message>, t': seq<Message>) {
    t' != [] && Init(t') == t && Last(t').role == User
  }

  lemma TouchPlan(db: Db, p: ProjectId, q: RunId, board: Board, text: string, r: RunId)
    requires OneActive(db.runs) && AnswerPlan(db, p, q, board, text).Some? && r in db.runs
    ensures var d := AnswerPlan(db, p, q, board, text).value;
            && d.runs[r] == (if r == q then Released(db.runs[r]) else db.runs[r])
            && (if r != q then Of(d.messages, r) == Of(db.messages, r) else Spoke(Of(db.messages, r), Of(d.messages, r)))
  {
    ReleaseIsOne(db.runs, p, q);
    OfAppend(db.messages, Stamp(db.nextMessage, p, q, UserRow(text)), r);
  }

  lemma TouchCommit(db: Db, q: RunId, c: Change, r: RunId)
    requires q in db.runs && db.runs[q].project in db.projects && r in db.runs
    ensures var d := Commit(db, q, c);
            && r in d.runs
            && d.runs[r] == (if r == q then RowAfter(db.runs[r], c) else db.runs[r])
            && Of(d.messages, r) ==
               (if r == q then RowsAfter(Of(db.messages, r), db.runs[r].project, r, db.nextMessage, c) else Of(db.messages, r))
  {
    CommitShape(db, q, c);
    CommitRows(db, Commit(db, q, c), q, c, r);
  }

  lemma TouchDrive(s: System, w: WorkerId, act: Act, s': System, r: RunId)
    requires RunKeys(s.db) && DriveStep(s, w, act) == Some(s') && r in s.db.runs && s.procs[w].run != r
    ensures r in s'.db.runs && s'.db.runs[r] == s.db.runs[r] && Rows(s', r) == Rows(s, r)
  {
    var q := s.procs[w].run;
    if act != Exit && q in s.db.runs {
      var m := Step(s.db.runs[q], s.db.projects[s.db.runs[q].project], Of(s.db.messages, q), s.procs[w].pc, act).value;
      TouchCommit(s.db, q, m.change, r);
    }
  }

  lemma TouchAnswer(s: System, a: Action, s': System, r: RunId)
    requires RunKeys(s.db) && Next(s, a) == Some(s') && a.Answer? && r in s.db.runs
    ensures r in s'.db.runs && Touched(a, r, s.db.runs[r], Rows(s, r), s'.db.runs[r], Rows(s', r))
  {
    var c := AppendAnswerAndResume(s.db.runs[a.r], Trim(a.text)).value;
    TouchCommit(s.db, a.r, c, r);
  }

  lemma TouchRequest(s: System, a: Action, s': System, r: RunId)
    requires OneActive(s.db.runs) && Next(s, a) == Some(s') && r in s.db.runs
    requires a.Pause? || a.Resume? || a.Approve? || a.Revise? || a.Create?
    ensures r in s'.db.runs && Touched(a, r, s.db.runs[r], Rows(s, r), s'.db.runs[r], Rows(s', r))
  {
    if a.Create? {
      OfAppend(s.db.messages, Stamp(s.db.nextMessage, a.p, a.r, UserRow(Trim(a.text))), r);
    } else if a.Approve? {
      TouchPlan(s.db, a.p, a.r, s.db.projects[a.p].board.(status := Approved, baseCommit := Trim(a.base), feedback := ""),
                "Plan approved.", r);
    } else if a.Revise? {
      TouchPlan(s.db, a.p, a.r, EMPTY_BOARD.(feedback := Trim(a.feedback)), "Revise the plan: " + Trim(a.feedback), r);
    }
  }

  lemma TouchClear(s: System, p: ProjectId, s': System, r: RunId)
    requires Schema(s.db) && ClearsGood(s) && Next(s, ClearCommit(p)) == Some(s') && r in s.db.runs && r in s'.db.runs
    ensures s'.db.runs[r] == s.db.runs[r] && Rows(s', r) == Rows(s, r)
  {
    ClearedRows(s.db, p, s.clears[p]);
    ClearedRun(s.db, p, s.clears[p], r);
  }

  /** A step not taken by `r`'s own worker touches it only as an operator may. */
  lemma Touch(s: System, a: Action, s': System, r: RunId)
    requires Schema(s.db) && ClearsGood(s) && Takes(s, a, s') && r in s.db.runs && r in s'.db.runs && !DrivenBy(s, a, r)
    ensures Touched(a, r, s.db.runs[r], Rows(s, r), s'.db.runs[r], Rows(s', r))
  {
    if a.Drive? {
      TouchDrive(s, a.w, a.act, s', r);
    } else if a.Pause? || a.Resume? || a.Approve? || a.Revise? || a.Create? {
      TouchRequest(s, a, s', r);
    } else if a.Answer? {
      TouchAnswer(s, a, s', r);
    } else if a.ClearCommit? {
      TouchClear(s, a.p, s', r);
    } else {
      assert s'.db.runs == s.db.runs && s'.db.messages == s.db.messages;
    }
  }

  /** Nor does such a step move `r`'s worker: it may only start one, or kill it. */
  lemma TouchPc(s: System, a: Action, s': System, r: RunId)
    requires Registered(s) && Takes(s, a, s') && !DrivenBy(s, a, r)
    ensures PcOf(s', r) == PcOf(s, r) || PcOf(s', r) == Some(Top) || (a == Crash && PcOf(s', r) == None)
  {
    hide Step, Commit, Of, FreshCalls, Cleared, CreateRun, ApprovePlan, RevisePlan, Blocked, RequestPause, ResumeRun, AppendAnswerAndResume, MayEmit;
  }

  /** A step of `r`'s own worker, with what it does. */
  ghost predicate OwnMove(s: System, a: Action, s': System, r: RunId, m: Move, project: Project) {
    && DrivenBy(s, a, r) && r in s.db.runs && r in s'.db.runs && a.act != Exit
    && PcOf(s, r) == Some(s.procs[a.w].pc)
    && Step(s.db.runs[r], project, Rows(s, r), s.procs[a.w].pc, a.act) == Some(m)
    && s'.db.runs[r] == RowAfter(s.db.runs[r], m.change)
    && Rows(s', r) == RowsAfter(Rows(s, r), s.db.runs[r].project, r, s.db.nextMessage, m.change)
    && PcOf(s', r) == Some(m.pc)
  }

  ghost predicate OwnExit(s: System, a: Action, s': System, r: RunId) {
    DrivenBy(s, a, r) && a.act == Exit && PcOf(s, r) == Some(Exiting) && PcOf(s', r) == None && s'.db == s.db
  }

  /** A step taken by `r`'s own worker is a step of the loop, or its exit. */
  lemma OwnStep(s: System, a: Action, s': System, r: RunId) returns (m: Move, project: Project)
    requires Registered(s) && RunKeys(s.db) && Takes(s, a, s') && DrivenBy(s, a, r) && r in s.db.runs
    ensures OwnExit(s, a, s', r) || OwnMove(s, a, s', r, m, project)
  {
    project := s.db.projects[s.db.runs[r].project];
    m := Goto(Top);
    if a.act != Exit {
      m := Step(s.db.runs[r], project, Rows(s, r), s.procs[a.w].pc, a.act).value;
      TouchCommit(s.db, r, m.change, r);
      MovedPcs(s, a.w, r, Commit(s.db, r, m.change), m);
    }
  }
}
