/** Every step of the protocol keeps the invariant: first each part of it under each kind of step, then the
    steps one by one, and at the end every state of every behaviour from a fresh installation. */
module RunProofs {
  import opened Prelude
  import opened Text
  import opened Transcript
  import opened Store
  import opened Worker
  import opened WorkerProofs
  import opened RunMachine

  // ---------------------------------------------------------------------------
  // Committing a change for one run
  // ---------------------------------------------------------------------------

  lemma LogToolsSchema(db: Db, r: RunId, message: Option<MessageId>, tools: seq<string>)
    requires Schema(db) && r in db.runs && (message.Some? ==> HasMessage(db.messages, message.value))
    ensures Schema(LogTools(db, r, message, tools))
    decreases |tools|
  {
    if tools != [] {
      var row := LogRow(db.nextLog, Some(r), message, tools[0]);
      var d := db.(logs := db.logs + [row], nextLog := db.nextLog + 1);
      assert forall l :: l in d.logs ==> l in db.logs || l == row;
      LogToolsSchema(d, r, message, tools[1..]);
    }
  }

  lemma LogToolsShape(db: Db, r: RunId, message: Option<MessageId>, tools: seq<string>)
    ensures var d := LogTools(db, r, message, tools);
            && d == db.(logs := d.logs, nextLog := d.nextLog)
            && db.logs <= d.logs && db.nextLog <= d.nextLog
            && (forall i :: |db.logs| <= i < |d.logs| ==>
                  d.logs[i].id >= db.nextLog && d.logs[i].run == Some(r) && d.logs[i].message == message)
    decreases |tools|
  {
    if tools != [] {
      var row := LogRow(db.nextLog, Some(r), message, tools[0]);
      var d := db.(logs := db.logs + [row], nextLog := db.nextLog + 1);
      LogToolsShape(d, r, message, tools[1..]);
    }
  }

  lemma LastAskingHolds(ms: seq<Message>, r: RunId)
    ensures var a := LastAsking(Of(ms, r));
            a.Some? ==> exists i :: 0 <= i < |ms| && ms[i].id == a.value && ms[i].run == Some(r)
  {
    if ms != [] {
      LastAskingHolds(Init(ms), r);
      var t, a := Of(ms, r), LastAsking(Of(ms, r));
      if Last(ms).run == Some(r) && Last(ms).role == Assistant && Last(ms).calls != [] {
        assert a == Some(ms[|ms| - 1].id);
      } else if a.Some? {
        assert t != [] && Last(ms).run == Some(r) ==> Init(t) == Of(Init(ms), r);
        assert a == LastAsking(Of(Init(ms), r));
        var i :| 0 <= i < |Init(ms)| && Init(ms)[i].id == a.value && Init(ms)[i].run == Some(r);
        assert ms[i] == Init(ms)[i];
      }
    }
  }

  lemma InsertKeeps(db: Db, p: ProjectId, r: RunId, m: NewMessage)
    requires Schema(db) && r in db.runs && db.runs[r].project == p
    ensures Schema(Insert(db, p, r, m))
  {
    var d := Insert(db, p, r, m);
    forall l | l in d.logs && l.message.Some? ensures HasMessage(d.messages, l.message.value) {
      var i :| 0 <= i < |db.messages| && db.messages[i].id == l.message.value;
      assert d.messages[i].id == l.message.value;
    }
  }

  /** Replacing run rows in place, without waking any, keeps the schema. */
  lemma RunsKeep(db: Db, runs: map<RunId, Run>)
    requires Schema(db) && runs.Keys == db.runs.Keys
    requires forall r :: r in runs ==> runs[r].project == db.runs[r].project && (runs[r].Active() ==> db.runs[r].Active())
    ensures Schema(db.(runs := runs))
  {
    var d := db.(runs := runs);
    assert OneActive(d.runs);
    assert forall l :: l in d.logs && l.message.Some? ==> HasMessage(db.messages, l.message.value);
  }

  lemma ProjectsKeep(db: Db, projects: map<ProjectId, Project>)
    requires Schema(db) && projects.Keys == db.projects.Keys
    ensures Schema(db.(projects := projects))
  {
    assert forall l :: l in db.logs && l.message.Some? ==> HasMessage(db.messages, l.message.value);
  }

  lemma EventSchema(db: Db, p: ProjectId, r: Option<RunId>, kind: string)
    requires Schema(db) && p in db.projects && (r.Some? ==> r.value in db.runs && db.runs[r.value].project == p)
    ensures Schema(AppendEvent(db, p, r, kind))
  {
    assert forall l :: l in db.logs && l.message.Some? ==> HasMessage(db.messages, l.message.value);
  }

  /** What a commit for `r` does, seen from outside. */
  ghost predicate Committed(db: Db, d: Db, r: RunId, c: Change)
    requires r in db.runs
  {
    var p := db.runs[r].project;
    && d.runs == db.runs[r := RowAfter(db.runs[r], c)]
    && p in db.projects
    && d.projects.Keys == db.projects.Keys
    && (forall q :: q in db.projects && q != p ==> d.projects[q] == db.projects[q])
    && d.projects[p] == (if c.project.Some? then c.project.value else db.projects[p])
    && d.messages == (if c.row.Some? then db.messages + [Stamp(db.nextMessage, p, r, c.row.value)] else db.messages)
    && db.nextMessage <= d.nextMessage
    && d.events == db.events && d.nextEvent == db.nextEvent
    && db.logs <= d.logs && db.nextLog <= d.nextLog
    && (forall i :: |db.logs| <= i < |d.logs| ==>
          d.logs[i].id >= db.nextLog && d.logs[i].run == Some(r) && d.logs[i].message == LastAsking(Of(db.messages, r)))
  }

  /** A row may change in any way that moves it to no other project and wakes no ended run. */
  ghost predicate OwnChange(run: Run, c: Change) {
    c.run.Some? ==> c.run.value.project == run.project && (c.run.value.Active() ==> run.Active())
  }

  lemma PutKeeps(db: Db, r: RunId, c: Change)
    requires Schema(db) && r in db.runs && OwnChange(db.runs[r], c)
    ensures Schema(PutProject(PutRun(db, r, c.run), db.runs[r].project, c.project))
  {
    var d := PutRun(db, r, c.run);
    RunsKeep(db, d.runs);
    assert Schema(d);
    ProjectsKeep(d, PutProject(d, db.runs[r].project, c.project).projects);
  }

  lemma CommitSchema(db: Db, r: RunId, c: Change)
    requires Schema(db) && r in db.runs && OwnChange(db.runs[r], c)
    ensures Schema(Commit(db, r, c))
  {
    var p := db.runs[r].project;
    var d1 := PutProject(PutRun(db, r, c.run), p, c.project);
    var a := LastAsking(Of(db.messages, r));
    PutKeeps(db, r, c);
    assert d1.messages == db.messages && r in d1.runs && d1.runs[r].project == p;
    LastAskingHolds(db.messages, r);
    assert a.Some? ==> HasMessage(d1.messages, a.value);
    LogToolsSchema(d1, r, a, c.logged);
    LogToolsShape(d1, r, a, c.logged);
    if c.row.Some? {
      InsertKeeps(LogTools(d1, r, a, c.logged), p, r, c.row.value);
    }
  }

  lemma CommitShape(db: Db, r: RunId, c: Change)
    requires r in db.runs && db.runs[r].project in db.projects
    ensures Committed(db, Commit(db, r, c), r, c)
    ensures c == NO_CHANGE ==> Commit(db, r, c) == db
  {
    var d1 := PutProject(PutRun(db, r, c.run), db.runs[r].project, c.project);
    LogToolsShape(d1, r, LastAsking(Of(db.messages, r)), c.logged);
    assert d1.runs == db.runs[r := RowAfter(db.runs[r], c)];
  }

  /** The rows of other runs do not change; those of `r` grow as the change says. */
  lemma CommitRows(db: Db, d: Db, r: RunId, c: Change, q: RunId)
    requires r in db.runs && Committed(db, d, r, c)
    ensures Of(d.messages, q) ==
            if q == r then RowsAfter(Of(db.messages, r), db.runs[r].project, r, db.nextMessage, c) else Of(db.messages, q)
  {
    if c.row.Some? {
      OfAppend(db.messages, Stamp(db.nextMessage, db.runs[r].project, r, c.row.value), q);
    }
  }

  /** A run of another project asked last: its message is none of `p`'s. */
  lemma AskingElsewhere(db: Db, r: RunId, p: ProjectId)
    requires Ordered(db) && SameProject(db) && r in db.runs && db.runs[r].project != p
    ensures var a := LastAsking(Of(db.messages, r)); a.Some? ==> a.value !in MessagesIn(db.messages, p)
  {
    LastAskingHolds(db.messages, r);
    var a := LastAsking(Of(db.messages, r));
    if a.Some? {
      var i :| 0 <= i < |db.messages| && db.messages[i].id == a.value && db.messages[i].run == Some(r);
      assert db.messages[i] in db.messages;
      forall j | 0 <= j < |db.messages| && db.messages[j].id == a.value ensures db.messages[j].project != p {
        assert i == j;
      }
    }
  }

  lemma MessagesSame(ms: seq<Message>, ns: seq<Message>, p: ProjectId)
    requires ns == ms || (ns != [] && Init(ns) == ms && Last(ns).project != p)
    ensures MessagesIn(ns, p) == MessagesIn(ms, p)
  {
    forall x | x in MessagesIn(ms, p) ensures x in MessagesIn(ns, p) {
      var i :| 0 <= i < |ms| && ms[i].project == p && ms[i].id == x;
      assert ns[i] == ms[i];
    }
  }

  /** Rows written for a run of one project leave an open clear of another untouched. */
  lemma CommitClear(db: Db, d: Db, r: RunId, c: Change, p: ProjectId, tx: ClearTx)
    requires Schema(db) && r in db.runs && OwnChange(db.runs[r], c) && Committed(db, d, r, c)
    requires db.runs[r].project != p && ClearGood(db, p, tx)
    ensures ClearGood(d, p, tx)
  {
    assert RunsIn(d.runs, p) == RunsIn(db.runs, p);
    MessagesSame(db.messages, d.messages, p);
    AskingElsewhere(db, r, p);
    forall i | 0 <= i < |d.logs| ensures tx.stage >= 1 ==> (d.logs[i].id in tx.logs <==> LogIn(d, p, d.logs[i])) {
      if i < |db.logs| {
        assert d.logs[i] == db.logs[i];
        assert db.logs[i] in db.logs;
      }
    }
  }

  // ---------------------------------------------------------------------------
  // Worker steps
  // ---------------------------------------------------------------------------

  /** The worker `w` of `r` takes `a` and `m` is what it does. */
  ghost predicate Moves(s: System, w: WorkerId, r: RunId, a: Act, m: Move) {
    && w in s.procs && s.procs[w].run == r && r in s.db.runs
    && s.db.runs[r].project in s.db.projects
    && a != Exit
    && Step(s.db.runs[r], s.db.projects[s.db.runs[r].project], Of(s.db.messages, r), s.procs[w].pc, a) == Some(m)
  }

  function Moved(s: System, w: WorkerId, r: RunId, d: Db, m: Move): System {
    s.(db := d, procs := s.procs[w := Proc(r, m.pc)])
  }

  lemma MovedPcs(s: System, w: WorkerId, r: RunId, d: Db, m: Move)
    requires Registered(s) && w in s.procs && s.procs[w].run == r
    ensures var t := Moved(s, w, r, d, m);
            Registered(t) && PcOf(t, r) == Some(m.pc) && forall q :: q != r ==> PcOf(t, q) == PcOf(s, q)
    ensures PcOf(s, r) == Some(s.procs[w].pc)
  {
  }

  lemma StepOwn(run: Run, project: Project, t: seq<Message>, pc: Pc, a: Act)
    requires (Engaged(pc) ==> run.state == Running) && Step(run, project, t, pc, a).Some?
    ensures OwnChange(run, Step(run, project, t, pc, a).value.change) && pc != Exiting
  {
  }

  lemma MoveFacts(s: System, w: WorkerId, r: RunId, a: Act, m: Move)
    requires Registered(s) && RunsGood(s) && Moves(s, w, r, a, m)
    ensures OwnChange(s.db.runs[r], m.change)
    ensures !Engaged(s.procs[w].pc) ==> m.change == NO_CHANGE
    ensures Engaged(s.procs[w].pc) ==> s.db.runs[r].state == Running
    ensures m.pc == Exiting ==> RowAfter(s.db.runs[r], m.change).state != Running
    ensures s.procs[w].pc != Exiting
  {
    hide Step, Of, WellFormed, OwnChange;
    var run, p, pc := s.db.runs[r], s.db.runs[r].project, s.procs[w].pc;
    assert PcOf(s, r) == Some(pc);
    StepOwn(run, s.db.projects[p], Of(s.db.messages, r), pc, a);
    StepGate(run, s.db.projects[p], Of(s.db.messages, r), pc, a);
  }

  lemma MoveRuns(s: System, w: WorkerId, r: RunId, a: Act, m: Move, d: Db)
    requires Inv(s) && Moves(s, w, r, a, m) && Committed(s.db, d, r, m.change)
    requires FreshCalls(Of(s.db.messages, r), a)
    ensures RunsGood(Moved(s, w, r, d, m))
  {
    hide Step, Good, Of, Schema, BoardsGood, Driven, ClearsGood;
    var run, p := s.db.runs[r], s.db.runs[r].project;
    var t := Moved(s, w, r, d, m);
    MovedPcs(s, w, r, d, m);
    forall q | q in d.runs ensures Good(d.runs[q], Of(d.messages, q), PcOf(t, q)) {
      CommitRows(s.db, d, r, m.change, q);
      if q == r {
        StepGood(run, s.db.projects[p], Of(s.db.messages, r), r, s.db.nextMessage, s.procs[w].pc, a);
      }
    }
  }

  /** Rewriting the one live run of a project keeps boards and gates in step. */
  lemma BoardsStep(projects: map<ProjectId, Project>, runs: map<RunId, Run>, r: RunId, run: Run, project: Project)
    requires OneActive(runs) && BoardsGood(projects, runs)
    requires r in runs && runs[r].Active() && run.project == runs[r].project && run.project in projects
    requires (projects[run.project].board.AwaitingApproval() <==> runs[r].AwaitingPlan()) ==>
      (project.board.AwaitingApproval() <==> run.AwaitingPlan())
    ensures BoardsGood(projects[run.project := project], runs[r := run])
  {
    var ps, rs, p := projects[run.project := project], runs[r := run], run.project;
    forall q | q in ps ensures ps[q].board.AwaitingApproval() <==> exists x :: Gated(rs, q, x) {
      if q != p {
        assert forall x :: Gated(rs, q, x) <==> Gated(runs, q, x);
      } else {
        assert Gated(runs, p, r) <==> runs[r].AwaitingPlan();
        assert forall x :: x != r ==> !Gated(runs, p, x);
        assert Gated(rs, p, r) <==> run.AwaitingPlan();
        assert forall x :: x != r ==> !Gated(rs, p, x);
      }
    }
  }

  lemma MoveBoards(db: Db, r: RunId, pc: Pc, a: Act, m: Move, d: Db)
    requires OneActive(db.runs) && BoardsGood(db.projects, db.runs)
    requires r in db.runs && Good(db.runs[r], Of(db.messages, r), Some(pc)) && db.runs[r].project in db.projects
    requires Step(db.runs[r], db.projects[db.runs[r].project], Of(db.messages, r), pc, a) == Some(m)
    requires Committed(db, d, r, m.change)
    ensures BoardsGood(d.projects, d.runs)
  {
    hide Step, Of, BoardsGood;
    var run, p := db.runs[r], db.runs[r].project;
    StepGate(run, db.projects[p], Of(db.messages, r), pc, a);
    assert d.projects == db.projects[p := d.projects[p]];
    if !Engaged(pc) {
      assert d.runs == db.runs && d.projects == db.projects;
    } else {
      BoardsStep(db.projects, db.runs, r, d.runs[r], d.projects[p]);
    }
  }

  lemma MoveDriven(s: System, w: WorkerId, r: RunId, m: Move, d: Db)
    requires Registered(s) && Driven(s) && w in s.procs && s.procs[w].run == r && r in s.db.runs
    requires Committed(s.db, d, r, m.change) && s.procs[w].pc != Exiting
    requires m.pc == Exiting ==> RowAfter(s.db.runs[r], m.change).state != Running
    ensures Driven(Moved(s, w, r, d, m))
  {
    MovedPcs(s, w, r, d, m);
    var t := Moved(s, w, r, d, m);
    assert Live(s, r);
    forall q | q in d.runs && q != r ensures IsRunning(d, q) == IsRunning(s.db, q) && Live(t, q) == Live(s, q) {
    }
  }

  lemma MoveClears(s: System, w: WorkerId, r: RunId, a: Act, m: Move)
    requires Inv(s) && Moves(s, w, r, a, m)
    requires Committed(s.db, Commit(s.db, r, m.change), r, m.change) && Schema(Commit(s.db, r, m.change))
    ensures ClearsGood(Moved(s, w, r, Commit(s.db, r, m.change), m))
  {
    MoveFacts(s, w, r, a, m);
    CommitShape(s.db, r, m.change);
    var d := Commit(s.db, r, m.change);
    forall p | p in s.clears ensures ClearGood(d, p, s.clears[p]) {
      if m.change != NO_CHANGE {
        assert s.db.runs[r].Active();
        CommitClear(s.db, d, r, m.change, p, s.clears[p]);
      }
    }
  }

  lemma MoveKeeps(s: System, w: WorkerId, r: RunId, a: Act, m: Move)
    requires Inv(s) && Moves(s, w, r, a, m) && FreshCalls(Of(s.db.messages, r), a)
    ensures Inv(Moved(s, w, r, Commit(s.db, r, m.change), m))
  {
    MoveFacts(s, w, r, a, m);
    CommitSchema(s.db, r, m.change);
    CommitShape(s.db, r, m.change);
    var d := Commit(s.db, r, m.change);
    MovedPcs(s, w, r, d, m);
    MoveRuns(s, w, r, a, m, d);
    MoveBoards(s.db, r, s.procs[w].pc, a, m, d);
    MoveDriven(s, w, r, m, d);
    MoveClears(s, w, r, a, m);
  }

  /** Swapping the process tables alone: what is left to show. */
  lemma ProcsKeep(s: System, t: System)
    requires Inv(s) && t == s.(procs := t.procs, registry := t.registry, starts := t.starts, refused := t.refused)
    requires Registered(t) && Driven(t) && Known(t)
    requires forall q :: q in s.db.runs && PcOf(t, q).Some? ==> PcOf(t, q) == PcOf(s, q) || !Engaged(PcOf(t, q).value)
    requires forall w :: w in t.procs && t.procs[w].run !in s.db.runs ==> !Engaged(t.procs[w].pc)
    ensures Inv(t)
  {
    forall q | q in t.db.runs ensures Good(t.db.runs[q], Of(t.db.messages, q), PcOf(t, q)) {
      assert Good(s.db.runs[q], Of(s.db.messages, q), PcOf(s, q));
    }
  }

  lemma ExitDriven(s: System, w: WorkerId)
    requires Registered(s) && Driven(s) && w in s.procs && s.procs[w].pc == Exiting
    ensures var t := s.(procs := s.procs - {w}, registry := s.registry - {s.procs[w].run});
            && Registered(t) && Driven(t) && PcOf(t, s.procs[w].run) == None
            && forall q :: q != s.procs[w].run ==> PcOf(t, q) == PcOf(s, q)
  {
    var t := s.(procs := s.procs - {w}, registry := s.registry - {s.procs[w].run});
    forall q ensures Live(t, q) == Live(s, q) {
    }
  }

  /** A worker that leaves, or finds its row cleared. */
  lemma LeaveKeeps(s: System, w: WorkerId, a: Act)
    requires Inv(s) && DriveStep(s, w, a).Some?
    requires a == Exit || s.procs[w].run !in s.db.runs
    ensures Inv(DriveStep(s, w, a).value)
  {
    hide Step, Good, Schema, BoardsGood, ClearsGood, Of, Commit;
    var t, r := DriveStep(s, w, a).value, s.procs[w].run;
    if a == Exit {
      ExitDriven(s, w);
    } else {
      assert forall q :: q != r ==> PcOf(t, q) == PcOf(s, q);
    }
    ProcsKeep(s, t);
  }

  lemma DriveKeeps(s: System, w: WorkerId, a: Act)
    requires Inv(s) && DriveStep(s, w, a).Some?
    requires FreshCalls(Of(s.db.messages, s.procs[w].run), a)
    ensures Inv(DriveStep(s, w, a).value)
  {
    var r := s.procs[w].run;
    if a == Exit || r !in s.db.runs {
      LeaveKeeps(s, w, a);
    } else {
      var run := s.db.runs[r];
      var m := Step(run, s.db.projects[run.project], Of(s.db.messages, r), s.procs[w].pc, a).value;
      MoveKeeps(s, w, r, a, m);
    }
  }

  // ---------------------------------------------------------------------------
  // Starting a worker
  // ---------------------------------------------------------------------------

  lemma StartDriven(s: System, r: RunId, id: WorkerId)
    requires Registered(s) && Driven(s) && s.up && StartStep(s, r, id).Some?
    ensures var t := StartStep(s, r, id).value;
            && Registered(t) && Driven(t) && t.db == s.db && t.clears == s.clears && t.up
            && PcOf(t, r) == (if r in s.registry then PcOf(s, r) else Some(Top))
            && (forall q :: q != r ==> PcOf(t, q) == PcOf(s, q))
            && (forall w :: w in t.procs ==> (w in s.procs && t.procs[w] == s.procs[w]) || t.procs[w].pc == Top)
  {
    var t := StartStep(s, r, id).value;
    forall q | q != r ensures Live(t, q) == Live(s, q) {
    }
  }

  lemma {:induction false} StartKeeps(s: System, r: RunId, id: WorkerId)
    requires Inv(s) && s.up && StartStep(s, r, id).Some?
    ensures Inv(StartStep(s, r, id).value)
  {
    StartDriven(s, r, id);
    ProcsKeep(s, StartStep(s, r, id).value);
  }

  // ---------------------------------------------------------------------------
  // Operator requests
  // ---------------------------------------------------------------------------

  ghost predicate KeepsGate(run: Run, project: Project, c: Change) {
    (project.board.AwaitingApproval() <==> run.AwaitingPlan()) ==>
      (BoardAfter(project, c).AwaitingApproval() <==> RowAfter(run, c).AwaitingPlan())
  }

  ghost predicate KeepsDriver(s: System, r: RunId, run: Run, c: Change, starts: set<RunId>) {
    || (starts == s.starts && RowAfter(run, c).state == run.state)
    || (s.starts == {} && starts == {r} && run.state != Running && RowAfter(run, c).state == Running)
  }

  lemma RequestRuns(s: System, r: RunId, c: Change, d: Db, starts: set<RunId>)
    requires RunsGood(s) && r in s.db.runs && Committed(s.db, d, r, c)
    requires Good(RowAfter(s.db.runs[r], c), RowsAfter(Of(s.db.messages, r), s.db.runs[r].project, r, s.db.nextMessage, c), PcOf(s, r))
    ensures RunsGood(s.(db := d, starts := starts))
  {
    var t := s.(db := d, starts := starts);
    forall q | q in d.runs ensures Good(d.runs[q], Of(d.messages, q), PcOf(t, q)) {
      assert PcOf(t, q) == PcOf(s, q);
      CommitRows(s.db, d, r, c, q);
    }
  }

  /** An operator's commit for a live run, with its call to start still to come. */
  lemma RequestKeeps(s: System, r: RunId, c: Change, starts: set<RunId>)
    requires Inv(s) && s.up && r in s.db.runs && s.db.runs[r].Active() && OwnChange(s.db.runs[r], c)
    requires Good(RowAfter(s.db.runs[r], c), RowsAfter(Of(s.db.messages, r), s.db.runs[r].project, r, s.db.nextMessage, c), PcOf(s, r))
    requires s.db.runs[r].project in s.db.projects && KeepsGate(s.db.runs[r], s.db.projects[s.db.runs[r].project], c)
    requires KeepsDriver(s, r, s.db.runs[r], c, starts)
    ensures Inv(s.(db := Commit(s.db, r, c), starts := starts))
  {
    CommitSchema(s.db, r, c);
    CommitShape(s.db, r, c);
    var d := Commit(s.db, r, c);
    RequestRuns(s, r, c, d, starts);
    RequestBoards(s.db, d, r, c);
    RequestDriven(s, r, c, starts, d);
    RequestClears(s.db, d, r, c, s.clears);
    assert Registered(s.(db := d, starts := starts));
  }

  lemma RequestBoards(db: Db, d: Db, r: RunId, c: Change)
    requires OneActive(db.runs) && BoardsGood(db.projects, db.runs) && r in db.runs && db.runs[r].Active()
    requires Committed(db, d, r, c) && OwnChange(db.runs[r], c)
    requires KeepsGate(db.runs[r], db.projects[db.runs[r].project], c)
    ensures BoardsGood(d.projects, d.runs)
  {
    var p := db.runs[r].project;
    assert d.projects == db.projects[p := d.projects[p]];
    BoardsStep(db.projects, db.runs, r, d.runs[r], d.projects[p]);
  }

  lemma RequestClears(db: Db, d: Db, r: RunId, c: Change, clears: map<ProjectId, ClearTx>)
    requires Schema(db) && r in db.runs && db.runs[r].Active() && OwnChange(db.runs[r], c) && Committed(db, d, r, c)
    requires forall q :: q in clears ==> ClearGood(db, q, clears[q])
    ensures forall q :: q in clears ==> ClearGood(d, q, clears[q])
  {
    forall q | q in clears ensures ClearGood(d, q, clears[q]) {
      CommitClear(db, d, r, c, q, clears[q]);
    }
  }

  lemma RequestDriven(s: System, r: RunId, c: Change, starts: set<RunId>, d: Db)
    requires Driven(s) && s.up && r in s.db.runs && Committed(s.db, d, r, c)
    requires KeepsDriver(s, r, s.db.runs[r], c, starts)
    ensures Driven(s.(db := d, starts := starts))
  {
    var t := s.(db := d, starts := starts);
    assert forall q :: Live(t, q) == Live(s, q);
    assert forall q :: q != r ==> IsRunning(d, q) == IsRunning(s.db, q);
  }

  lemma UserTurn(t: seq<Message>, m: Message)
    requires WellFormed(t) && m.role == User
    ensures WellFormed(t + [m])
  {
    assert Init(t + [m]) == t;
  }

  lemma AnswerKeeps(s: System, r: RunId, text: string)
    requires Inv(s) && Serving(s) && r in s.db.runs
    requires s.db.runs[r].state == AwaitingHuman && s.db.runs[r].reason == Some(Question)
    ensures var c := AppendAnswerAndResume(s.db.runs[r], text);
            c.Some? && Inv(Requested(s, Commit(s.db, r, c.value), r))
  {
    var c := AppendAnswerAndResume(s.db.runs[r], text).value;
    UserTurn(Of(s.db.messages, r), Stamp(s.db.nextMessage, s.db.runs[r].project, r, c.row.value));
    RequestKeeps(s, r, c, {r});
  }

  /** The unique index makes the project-scoped updates touch one row. */
  lemma ResumeIsOne(runs: map<RunId, Run>, p: ProjectId, r: RunId)
    requires OneActive(runs) && r in runs && runs[r].project == p && Resumable(runs[r])
    ensures ResumeRun(runs, p) == runs[r := Resumed(runs[r])]
  {
  }

  lemma PauseIsOne(runs: map<RunId, Run>, p: ProjectId, r: RunId)
    requires OneActive(runs) && r in runs && runs[r].project == p && runs[r].state == Running
    ensures RequestPause(runs, p) == runs[r := runs[r].(pauseRequested := true)]
  {
  }

  lemma ReleaseIsOne(runs: map<RunId, Run>, p: ProjectId, r: RunId)
    requires OneActive(runs) && Gated(runs, p, r)
    ensures ReleasePlan(runs, p) == runs[r := Released(runs[r])]
  {
  }

  lemma ResumeKeeps(s: System, p: ProjectId, r: RunId)
    requires Inv(s) && Serving(s) && r in s.db.runs && s.db.runs[r].project == p && Resumable(s.db.runs[r])
    ensures Inv(Requested(s, s.db.(runs := ResumeRun(s.db.runs, p)), r))
  {
    var c := OnlyRun(Resumed(s.db.runs[r]));
    ResumeIsOne(s.db.runs, p, r);
    assert Commit(s.db, r, c) == s.db.(runs := ResumeRun(s.db.runs, p));
    RequestKeeps(s, r, c, {r});
  }

  lemma PauseKeeps(s: System, p: ProjectId)
    requires Inv(s) && Serving(s)
    ensures Inv(s.(db := s.db.(runs := RequestPause(s.db.runs, p))))
  {
    if r :| r in s.db.runs && s.db.runs[r].project == p && s.db.runs[r].state == Running {
      var c := OnlyRun(s.db.runs[r].(pauseRequested := true));
      PauseIsOne(s.db.runs, p, r);
      assert Commit(s.db, r, c) == s.db.(runs := RequestPause(s.db.runs, p));
      RequestKeeps(s, r, c, s.starts);
    } else {
      assert RequestPause(s.db.runs, p) == s.db.runs;
    }
  }

  function PlanAnswer(run: Run, project: Project, board: Board, text: string): Change {
    Change(Some(Released(run)), Some(project.(board := board)), Some(UserRow(text)), [])
  }

  lemma {:induction false} AnswerPlanKeeps(s: System, p: ProjectId, r: RunId, board: Board, text: string)
    requires Inv(s) && Serving(s) && AnswerPlan(s.db, p, r, board, text).Some? && !board.AwaitingApproval()
    ensures Inv(Requested(s, AnswerPlan(s.db, p, r, board, text).value, r))
  {
    var c := PlanAnswer(s.db.runs[r], s.db.projects[p], board, text);
    ReleaseIsOne(s.db.runs, p, r);
    assert Commit(s.db, r, c) == AnswerPlan(s.db, p, r, board, text).value;
    UserTurn(Of(s.db.messages, r), Stamp(s.db.nextMessage, p, r, c.row.value));
    RequestKeeps(s, r, c, {r});
  }

  lemma OfForeign(ms: seq<Message>, r: RunId)
    requires forall m :: m in ms ==> m.run != Some(r)
    ensures Of(ms, r) == []
  {
    if ms != [] {
      assert Last(ms) in ms;
      OfForeign(Init(ms), r);
    }
  }

  lemma CreateSchema(db: Db, p: ProjectId, r: RunId, text: string)
    requires Schema(db) && CreateRun(db, p, r, text).Some?
    ensures Schema(CreateRun(db, p, r, text).value)
  {
    var d := db.(runs := db.runs[r := Run(p, Running, None, false, None, 0, false)]);
    assert OneActive(d.runs);
    assert forall l :: l in db.logs && l.message.Some? ==> HasMessage(db.messages, l.message.value);
    assert forall m :: m in db.messages && m.run.Some? ==> m.run.value != r;
    assert Schema(d);
    InsertKeeps(d, p, r, UserRow(text));
  }

  lemma CreateClears(db: Db, p: ProjectId, r: RunId, text: string, q: ProjectId, tx: ClearTx)
    requires Schema(db) && CreateRun(db, p, r, text).Some? && q != p && ClearGood(db, q, tx)
    ensures ClearGood(CreateRun(db, p, r, text).value, q, tx)
  {
    var d := CreateRun(db, p, r, text).value;
    assert RunsIn(d.runs, q) == RunsIn(db.runs, q);
    MessagesSame(db.messages, d.messages, q);
    forall i | 0 <= i < |d.logs| ensures LogIn(d, q, d.logs[i]) == LogIn(db, q, d.logs[i]) {
      assert db.logs[i] in db.logs;
    }
  }

  lemma CreateRuns(s: System, p: ProjectId, r: RunId, text: string)
    requires Schema(s.db) && RunsGood(s) && r !in s.registry && CreateRun(s.db, p, r, text).Some?
    ensures RunsGood(Generated(s, CreateRun(s.db, p, r, text).value, r))
  {
    var d := CreateRun(s.db, p, r, text).value;
    var t := Generated(s, d, r);
    var m := Stamp(s.db.nextMessage, p, r, UserRow(text));
    assert forall q :: PcOf(t, q) == PcOf(s, q);
    forall q | q in d.runs ensures Good(d.runs[q], Of(d.messages, q), PcOf(t, q)) {
      OfAppend(s.db.messages, m, q);
      if q == r {
        OfForeign(s.db.messages, r);
        FirstIsGood(d.runs[r], m);
        assert [] + [m] == [m];
      }
    }
  }

  lemma FirstIsGood(run: Run, m: Message)
    requires m.role == User && run.RowOk() && run.state == Running && run.reason == None
    ensures RunOk(run, [m])
  {
    UserTurn([], m);
    assert [] + [m] == [m];
  }

  lemma CreateBoards(db: Db, p: ProjectId, r: RunId, text: string)
    requires BoardsGood(db.projects, db.runs) && CreateRun(db, p, r, text).Some?
    ensures var d := CreateRun(db, p, r, text).value; BoardsGood(d.projects, d.runs)
  {
    var d := CreateRun(db, p, r, text).value;
    assert forall q, x :: Gated(d.runs, q, x) <==> Gated(db.runs, q, x);
  }

  lemma CreateClearsAll(db: Db, p: ProjectId, r: RunId, text: string, clears: map<ProjectId, ClearTx>)
    requires Schema(db) && CreateRun(db, p, r, text).Some? && p !in clears
    requires forall q :: q in clears ==> ClearGood(db, q, clears[q])
    ensures forall q :: q in clears ==> ClearGood(CreateRun(db, p, r, text).value, q, clears[q])
  {
    forall q | q in clears ensures ClearGood(CreateRun(db, p, r, text).value, q, clears[q]) {
      CreateClears(db, p, r, text, q, clears[q]);
    }
  }

  lemma CreateKeeps(s: System, p: ProjectId, r: RunId, text: string)
    requires Inv(s) && Serving(s) && p !in s.clears && r !in s.used && CreateRun(s.db, p, r, text).Some?
    ensures Inv(Generated(s, CreateRun(s.db, p, r, text).value, r))
  {
    CreateSchema(s.db, p, r, text);
    CreateRuns(s, p, r, text);
    CreateBoards(s.db, p, r, text);
    var d := CreateRun(s.db, p, r, text).value;
    CreateRunIds(s.db, p, r, text);
    hide Schema, RunsGood, BoardsGood, ClearGood, Driven, Registered, CreateRun;
    CreateClearsAll(s.db, p, r, text, s.clears);
    CreateDriven(s, d, r);
    CreateKnown(s, d, r);
    hide Known;
    assert ClearsGood(Generated(s, d, r));
  }

  lemma CreateRunIds(db: Db, p: ProjectId, r: RunId, text: string)
    requires CreateRun(db, p, r, text).Some?
    ensures var d := CreateRun(db, p, r, text).value;
            r !in db.runs && d.runs.Keys == db.runs.Keys + {r} && forall q :: q != r ==> (IsRunning(d, q) <==> IsRunning(db, q))
  {
  }

  lemma CreateKnown(s: System, d: Db, r: RunId)
    requires Known(s) && Registered(s) && d.runs.Keys == s.db.runs.Keys + {r}
    ensures Known(Generated(s, d, r)) && Registered(Generated(s, d, r))
  {
  }

  lemma CreateDriven(s: System, d: Db, r: RunId)
    requires Driven(s) && s.up && s.starts == {} && r !in s.db.runs
    requires forall q :: q != r ==> (IsRunning(d, q) <==> IsRunning(s.db, q))
    ensures Driven(Generated(s, d, r))
  {
    var t := Generated(s, d, r);
    assert forall q :: Live(t, q) == Live(s, q);
  }

  // ---------------------------------------------------------------------------
  // Clearing a conversation
  // ---------------------------------------------------------------------------

  lemma OfFilter(ms: seq<Message>, keep: Message -> bool, r: RunId)
    requires forall m :: m in ms && m.run == Some(r) ==> keep(m)
    ensures Of(Filter(ms, keep), r) == Of(ms, r)
  {
    if ms != [] {
      var m := Last(ms);
      assert m in ms;
      OfFilter(Init(ms), keep, r);
      if keep(m) {
        OfAppend(Filter(Init(ms), keep), m, r);
      }
    }
  }

  lemma FilterMessagesOrdered(ms: seq<Message>, keep: Message -> bool, next: nat)
    requires MessagesOrdered(ms, next)
    ensures MessagesOrdered(Filter(ms, keep), next)
  {
    if ms != [] {
      FilterMessagesOrdered(Init(ms), keep, next);
      var k := Filter(Init(ms), keep);
      forall i | 0 <= i < |k| ensures k[i].id < Last(ms).id {
        assert k[i] in Init(ms);
      }
    }
  }

  lemma FilterEventsOrdered(es: seq<EventRow>, keep: EventRow -> bool, next: nat)
    requires EventsOrdered(es, next)
    ensures EventsOrdered(Filter(es, keep), next)
  {
    if es != [] {
      var init := es[..|es| - 1];
      FilterEventsOrdered(init, keep, next);
      var k := Filter(init, keep);
      forall i | 0 <= i < |k| ensures k[i].id < es[|es| - 1].id {
        assert k[i] in init;
      }
    }
  }

  lemma FilterLogsOrdered(ls: seq<LogRow>, keep: LogRow -> bool, next: nat)
    requires LogsOrdered(ls, next)
    ensures LogsOrdered(Filter(ls, keep), next)
  {
    if ls != [] {
      var init := ls[..|ls| - 1];
      FilterLogsOrdered(init, keep, next);
      var k := Filter(init, keep);
      forall i | 0 <= i < |k| ensures k[i].id < ls[|ls| - 1].id {
        assert k[i] in init;
      }
    }
  }

  /** A finished clear removes exactly the rows of its project. */
  lemma ClearedRows(db: Db, p: ProjectId, tx: ClearTx)
    requires ClearGood(db, p, tx) && tx.stage >= 4
    ensures var d := Cleared(db, p, tx);
            && (forall m :: m in d.messages <==> m in db.messages && m.project != p)
            && (forall l :: l in d.logs <==> l in db.logs && !LogIn(db, p, l))
            && (forall e :: e in d.events <==> e in db.events && (e.project != p || e.id >= tx.mark))
            && (forall r :: r in d.runs <==> r in db.runs && db.runs[r].project != p)
            && (forall r :: r in d.runs ==> d.runs[r] == db.runs[r])
  {
  }

  lemma ClearedOrdered(db: Db, p: ProjectId, tx: ClearTx)
    requires Ordered(db) && p in db.projects
    ensures Ordered(Cleared(db, p, tx))
  {
    FilterMessagesOrdered(db.messages, (m: Message) => m.id !in tx.messages, db.nextMessage);
    FilterLogsOrdered(db.logs, (l: LogRow) => l.id !in tx.logs, db.nextLog);
    FilterEventsOrdered(db.events, (e: EventRow) => e.id !in tx.events, db.nextEvent);
  }

  lemma ClearedLogKeys(db: Db, p: ProjectId, tx: ClearTx)
    requires ForeignKeys(db) && ClearGood(db, p, tx) && tx.stage >= 4
    ensures LogKeys(Cleared(db, p, tx))
  {
    var d := Cleared(db, p, tx);
    ClearedRows(db, p, tx);
    forall l | l in d.logs && l.message.Some? ensures HasMessage(d.messages, l.message.value) {
      var i :| 0 <= i < |db.messages| && db.messages[i].id == l.message.value;
      assert db.messages[i] in db.messages;
      assert db.messages[i].project != p;
      assert db.messages[i] in d.messages;
    }
  }

  lemma ClearedEventKeys(db: Db, p: ProjectId, tx: ClearTx)
    requires EventKeys(db) && ClearGood(db, p, tx) && tx.stage >= 4
    ensures EventKeys(Cleared(db, p, tx))
  {
    var d := Cleared(db, p, tx);
    forall e | e in d.events && e.run.Some? ensures e.run.value in d.runs {
      assert e in db.events && e.id !in tx.events;
      var i :| 0 <= i < |db.events| && db.events[i] == e;
      assert db.events[i].run.value !in tx.runs;
    }
  }

  lemma ClearedSchema(db: Db, p: ProjectId, tx: ClearTx)
    requires Schema(db) && ClearGood(db, p, tx) && tx.stage >= 4
    ensures Schema(Cleared(db, p, tx))
  {
    var d := Cleared(db, p, tx);
    ClearedRows(db, p, tx);
    ClearedOrdered(db, p, tx);
    ClearedLogKeys(db, p, tx);
    ClearedEventKeys(db, p, tx);
    hide ClearGood, LogKeys, EventKeys, Ordered, Cleared;
    assert forall m :: m in d.messages && m.run.Some? ==> db.runs[m.run.value].project == m.project;
    ClearedProjects(db, p, tx);
  }

  lemma ClearedProjects(db: Db, p: ProjectId, tx: ClearTx)
    requires p in db.projects
    ensures Cleared(db, p, tx).projects.Keys == db.projects.Keys
  {
  }

  lemma ClearedRun(db: Db, p: ProjectId, tx: ClearTx, r: RunId)
    requires Schema(db) && ClearGood(db, p, tx) && tx.stage >= 4 && r in db.runs && db.runs[r].project != p
    ensures Of(Cleared(db, p, tx).messages, r) == Of(db.messages, r)
  {
    forall m | m in db.messages && m.run == Some(r) ensures m.id !in tx.messages {
      var i :| 0 <= i < |db.messages| && db.messages[i] == m;
      assert m.project == db.runs[r].project;
    }
    OfFilter(db.messages, (m: Message) => m.id !in tx.messages, r);
  }

  lemma ClearedMessages(db: Db, p: ProjectId, tx: ClearTx, q: ProjectId)
    requires p in db.projects && ClearGood(db, p, tx) && tx.stage >= 4 && q != p
    ensures MessagesIn(Cleared(db, p, tx).messages, q) == MessagesIn(db.messages, q)
    ensures RunsIn(Cleared(db, p, tx).runs, q) == RunsIn(db.runs, q)
  {
    var d := Cleared(db, p, tx);
    forall i | 0 <= i < |db.messages| && db.messages[i].project == q ensures db.messages[i].id in MessagesIn(d.messages, q) {
      assert db.messages[i] in d.messages;
    }
    forall i | 0 <= i < |d.messages| && d.messages[i].project == q ensures d.messages[i].id in MessagesIn(db.messages, q) {
      assert d.messages[i] in db.messages;
    }
  }

  lemma ClearedIndex(db: Db, p: ProjectId, tx: ClearTx)
    requires p in db.projects
    ensures var d := Cleared(db, p, tx);
            && (forall l :: l in d.logs ==> exists j :: 0 <= j < |db.logs| && db.logs[j] == l)
            && (forall m :: m in d.messages ==> exists j :: 0 <= j < |db.messages| && db.messages[j] == m)
            && (forall e :: e in d.events ==> exists j :: 0 <= j < |db.events| && db.events[j] == e)
            && d.nextLog == db.nextLog && d.nextMessage == db.nextMessage && d.nextEvent == db.nextEvent
  {
  }

  lemma ClearedOtherLogs(db: Db, p: ProjectId, tx: ClearTx, q: ProjectId, other: ClearTx)
    requires Schema(db) && ClearGood(db, p, tx) && tx.stage >= 4 && q != p && ClearGood(db, q, other)
    ensures var d := Cleared(db, p, tx);
            other.stage >= 1 ==> forall l :: l in d.logs ==> (l.id in other.logs <==> LogIn(d, q, l))
  {
    var d := Cleared(db, p, tx);
    ClearedIndex(db, p, tx);
    ClearedLogsIn(db, p, tx, q);
    hide Cleared, Schema, MessagesIn, LogIn, RunsIn, HasActive;
    forall l | l in d.logs ensures other.stage >= 1 ==> (l.id in other.logs <==> LogIn(d, q, l)) {
      var j :| 0 <= j < |db.logs| && db.logs[j] == l;
    }
  }

  lemma ClearedOtherEvents(db: Db, p: ProjectId, tx: ClearTx, q: ProjectId, other: ClearTx)
    requires p in db.projects && ClearGood(db, q, other)
    ensures var d := Cleared(db, p, tx);
            && (other.stage >= 2 ==> EventsNamed(d, q, other))
            && (other.stage >= 4 ==> NoneLate(d, other))
  {
    var d := Cleared(db, p, tx);
    ClearedIndex(db, p, tx);
    hide Cleared, LogIn, RunsIn, HasActive;
    forall e | e in d.events
      ensures other.stage >= 2 ==> (e.id in other.events <==> e.project == q && e.id < other.mark)
      ensures other.stage >= 4 && e.run.Some? && e.run.value in other.runs ==> e.id in other.events
    {
      var j :| 0 <= j < |db.events| && db.events[j] == e;
    }
  }

  lemma ClearedOtherMessages(db: Db, p: ProjectId, tx: ClearTx, q: ProjectId, other: ClearTx)
    requires p in db.projects && ClearGood(db, q, other)
    ensures var d := Cleared(db, p, tx);
            other.stage >= 3 ==> forall m :: m in d.messages ==> (m.id in other.messages <==> m.project == q)
  {
    var d := Cleared(db, p, tx);
    ClearedIndex(db, p, tx);
    hide Cleared, LogIn, RunsIn, HasActive;
    forall m | m in d.messages ensures other.stage >= 3 ==> (m.id in other.messages <==> m.project == q) {
      var j :| 0 <= j < |db.messages| && db.messages[j] == m;
    }
  }

  lemma ClearedIdle(db: Db, p: ProjectId, tx: ClearTx, q: ProjectId)
    requires p in db.projects && !HasActive(db.runs, q)
    ensures !HasActive(Cleared(db, p, tx).runs, q)
  {
  }

  /** Clearing one project leaves an open clear of another as it was. */
  lemma ClearedOther(db: Db, p: ProjectId, tx: ClearTx, q: ProjectId, other: ClearTx)
    requires Schema(db) && ClearGood(db, p, tx) && tx.stage >= 4 && q != p && ClearGood(db, q, other)
    ensures ClearGood(Cleared(db, p, tx), q, other)
  {
    ClearedMessages(db, p, tx, q);
    ClearedIndex(db, p, tx);
    ClearedProjects(db, p, tx);
    hide Cleared, Schema, MessagesIn, LogIn, RunsIn, HasActive, EventsNamed, NoneLate;
    ClearedIdle(db, p, tx, q);
    ClearedOtherLogs(db, p, tx, q, other);
    ClearedOtherEvents(db, p, tx, q, other);
    ClearedOtherMessages(db, p, tx, q, other);
  }

  lemma ClearedLogsIn(db: Db, p: ProjectId, tx: ClearTx, q: ProjectId)
    requires Schema(db) && ClearGood(db, p, tx) && tx.stage >= 4 && q != p
    ensures var d := Cleared(db, p, tx); forall l :: l in d.logs ==> (LogIn(d, q, l) <==> LogIn(db, q, l))
  {
    var d := Cleared(db, p, tx);
    ClearedMessages(db, p, tx, q);
    ClearedRows(db, p, tx);
    hide MessagesIn;
    forall l | l in d.logs ensures LogIn(d, q, l) <==> LogIn(db, q, l) {
    }
  }

  lemma ClearedRuns(s: System, p: ProjectId)
    requires Schema(s.db) && RunsGood(s) && Registered(s) && p in s.clears && ClearGood(s.db, p, s.clears[p]) && s.clears[p].stage >= 4
    ensures RunsGood(s.(db := Cleared(s.db, p, s.clears[p]), clears := s.clears - {p}))
  {
    var d := Cleared(s.db, p, s.clears[p]);
    var t := s.(db := d, clears := s.clears - {p});
    ClearedRows(s.db, p, s.clears[p]);
    forall q | q in d.runs ensures Good(d.runs[q], Of(d.messages, q), PcOf(t, q)) {
      assert PcOf(t, q) == PcOf(s, q);
      ClearedRun(s.db, p, s.clears[p], q);
    }
    forall w | w in t.procs && t.procs[w].run !in d.runs ensures !Engaged(t.procs[w].pc) {
      var r := t.procs[w].run;
      if r in s.db.runs {
        assert PcOf(s, r) == Some(s.procs[w].pc);
        assert Good(s.db.runs[r], Of(s.db.messages, r), PcOf(s, r));
      }
    }
  }

  lemma ClearedBoards(db: Db, p: ProjectId, tx: ClearTx)
    requires BoardsGood(db.projects, db.runs) && ClearGood(db, p, tx) && tx.stage >= 4
    ensures var d := Cleared(db, p, tx); BoardsGood(d.projects, d.runs)
  {
    var d := Cleared(db, p, tx);
    ClearedRows(db, p, tx);
    forall q | q in d.projects ensures d.projects[q].board.AwaitingApproval() <==> exists x :: Gated(d.runs, q, x) {
      if q == p {
        assert forall x :: !Gated(d.runs, p, x);
      } else {
        assert forall x :: Gated(d.runs, q, x) <==> Gated(db.runs, q, x);
      }
    }
  }

  lemma ClearedDriven(s: System, p: ProjectId)
    requires Driven(s) && p in s.clears && ClearGood(s.db, p, s.clears[p]) && s.clears[p].stage >= 4
    ensures Driven(s.(db := Cleared(s.db, p, s.clears[p]), clears := s.clears - {p}))
  {
    var d := Cleared(s.db, p, s.clears[p]);
    var t := s.(db := d, clears := s.clears - {p});
    ClearedRows(s.db, p, s.clears[p]);
    assert forall q :: Live(t, q) == Live(s, q);
    assert forall q :: IsRunning(d, q) <==> IsRunning(s.db, q);
  }

  lemma ClearCommitKeeps(s: System, p: ProjectId)
    requires Inv(s) && p in s.clears && s.clears[p].stage >= 4
    ensures p in s.db.projects && Inv(s.(db := Cleared(s.db, p, s.clears[p]), clears := s.clears - {p}))
  {
    ClearedSchema(s.db, p, s.clears[p]);
    ClearedRuns(s, p);
    ClearedBoards(s.db, p, s.clears[p]);
    ClearedDriven(s, p);
    forall q | q in s.clears - {p} ensures ClearGood(Cleared(s.db, p, s.clears[p]), q, s.clears[q]) {
      ClearedOther(s.db, p, s.clears[p], q, s.clears[q]);
    }
  }

  lemma ClearDeleteGood(db: Db, p: ProjectId, tx: ClearTx)
    requires Schema(db) && ClearGood(db, p, tx) && !Blocked(db, p, tx)
    ensures ClearGood(db, p, ClearDeleteTx(db, p, tx))
  {
    if tx.stage == 0 {
      forall i | 0 <= i < |db.logs| && db.logs[i].id in LogsIn(db, p) ensures LogIn(db, p, db.logs[i]) {
        var j :| 0 <= j < |db.logs| && LogIn(db, p, db.logs[j]) && db.logs[j].id == db.logs[i].id;
        assert i == j;
      }
    } else if tx.stage == 1 {
      forall i | 0 <= i < |db.events| && db.events[i].id in EventsIn(db.events, p) ensures db.events[i].project == p {
        var j :| 0 <= j < |db.events| && db.events[j].project == p && db.events[j].id == db.events[i].id;
        assert i == j;
      }
    } else if tx.stage == 2 {
      forall i | 0 <= i < |db.messages| && db.messages[i].id in MessagesIn(db.messages, p) ensures db.messages[i].project == p {
        var j :| 0 <= j < |db.messages| && db.messages[j].project == p && db.messages[j].id == db.messages[i].id;
        assert i == j;
      }
    }
  }

  /** An event appended while a clear is open is none of those it named, and names no run it deleted. */
  lemma EmitClear(db: Db, p: ProjectId, r: Option<RunId>, kind: string, q: ProjectId, tx: ClearTx)
    requires Schema(db) && p in db.projects && (r.Some? ==> r.value in db.runs && db.runs[r.value].project == p)
    requires ClearGood(db, q, tx) && (q == p && r.Some? ==> r.value !in tx.runs)
    ensures ClearGood(AppendEvent(db, p, r, kind), q, tx)
  {
    var d := AppendEvent(db, p, r, kind);
    forall i | 0 <= i < |d.logs| ensures LogIn(d, q, d.logs[i]) == LogIn(db, q, d.logs[i]) {}
  }

  lemma EmitKeeps(s: System, p: ProjectId, r: Option<RunId>, kind: string)
    requires Inv(s) && s.up && MayEmit(s, p, r)
    ensures Inv(s.(db := AppendEvent(s.db, p, r, kind)))
  {
    var t := s.(db := AppendEvent(s.db, p, r, kind));
    EventSchema(s.db, p, r, kind);
    EmitClears(s, p, r, kind);
    hide Schema, ClearGood, ClearsGood, Good, Of;
    assert forall q :: PcOf(t, q) == PcOf(s, q) && Live(t, q) == Live(s, q);
    assert RunsGood(t);
    assert Driven(t);
  }

  lemma EmitClears(s: System, p: ProjectId, r: Option<RunId>, kind: string)
    requires Schema(s.db) && ClearsGood(s) && MayEmit(s, p, r)
    ensures ClearsGood(s.(db := AppendEvent(s.db, p, r, kind)))
  {
    hide Schema, ClearGood;
    var d := AppendEvent(s.db, p, r, kind);
    forall q | q in s.clears ensures ClearGood(d, q, s.clears[q]) {
      EmitClear(s.db, p, r, kind, q, s.clears[q]);
    }
  }

  /** Only the transaction table moves. */
  lemma ClearsKeep(s: System, clears: map<ProjectId, ClearTx>)
    requires Inv(s) && (s.up || clears == map[])
    requires forall p :: p in clears ==> ClearGood(s.db, p, clears[p])
    ensures Inv(s.(clears := clears))
  {
    var t := s.(clears := clears);
    assert forall q :: PcOf(t, q) == PcOf(s, q) && Live(t, q) == Live(s, q);
    assert RunsGood(t);
    assert Driven(t);
  }

  // ---------------------------------------------------------------------------
  // The process
  // ---------------------------------------------------------------------------

  lemma CrashKeeps(s: System)
    requires Inv(s)
    ensures Inv(Next(s, Crash).value)
  {
    var t := Next(s, Crash).value;
    forall q | q in t.db.runs ensures Good(t.db.runs[q], Of(t.db.messages, q), PcOf(t, q)) {
      assert Good(s.db.runs[q], Of(s.db.messages, q), PcOf(s, q));
      assert PcOf(t, q) == None;
    }
  }

  lemma BootKeeps(s: System)
    requires Inv(s) && !s.up
    ensures Inv(Next(s, Boot).value)
  {
    var t := Next(s, Boot).value;
    forall q | q in t.db.runs ensures Good(t.db.runs[q], Of(t.db.messages, q), PcOf(t, q)) {
      assert PcOf(t, q) == PcOf(s, q);
    }
  }

  /** Every step of every action keeps the invariant. */
  lemma {:induction false} NextKeeps(s: System, a: Action)
    requires Inv(s) && Honest(s, a) && Next(s, a).Some?
    ensures Inv(Next(s, a).value)
  {
    hide Step, Good, Of, Schema, BoardsGood, RunsGood, Commit, Trim;
    match a {
      case Drive(w, act) => DriveKeeps(s, w, act);
      case Start(r, id) => StartKeeps(s, r, id);
      case Create(p, r, text) => CreateKeeps(s, p, r, Trim(text));
      case Answer(p, r, text) => AnswerKeeps(s, r, Trim(text));
      case Pause(p) => PauseKeeps(s, p);
      case Resume(p, r) => ResumeKeeps(s, p, r);
      case Approve(p, r, base) =>
        var board := s.db.projects[p].board.(status := Approved, baseCommit := Trim(base), feedback := "");
        AnswerPlanKeeps(s, p, r, board, "Plan approved.");
      case Revise(p, r, feedback) =>
        AnswerPlanKeeps(s, p, r, EMPTY_BOARD.(feedback := Trim(feedback)), "Revise the plan: " + Trim(feedback));
      case Emit(p, r, kind) => EmitKeeps(s, p, r, kind);
      case ClearBegin(p) => ClearsKeep(s, Next(s, a).value.clears);
      case ClearDelete(p) =>
        ClearDeleteGood(s.db, p, s.clears[p]);
        ClearsKeep(s, Next(s, a).value.clears);
      case ClearCommit(p) => ClearCommitKeeps(s, p);
      case ClearAbort(p) => ClearsKeep(s, Next(s, a).value.clears);
      case Crash => CrashKeeps(s);
      case Boot => BootKeeps(s);
    }
  }

  lemma InitialInv(s: System)
    requires Initial(s)
    ensures Inv(s)
  {
  }

  /** The invariant holds in every state of every behaviour from a fresh installation. */
  lemma {:induction false} Reachable(states: seq<System>, actions: seq<Action>, n: nat)
    requires Behaviour(states, actions) && Initial(states[0]) && n < |states|
    ensures Inv(states[n])
  {
    if n == 0 {
      InitialInv(states[0]);
    } else {
      Reachable(states, actions, n - 1);
      assert Takes(states[n - 1], actions[n - 1], states[n - 1 + 1]);
      NextKeeps(states[n - 1], actions[n - 1]);
    }
  }
}
