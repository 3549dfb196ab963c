/** Crash replay, workers and row states, over whole behaviours: what is durable once, and who drives a run. */
module Recovery {
  import opened Prelude
  import opened Text
  import opened Transcript
  import opened Store
  import opened Worker
  import opened WorkerProofs
  import opened RunMachine
  import opened RunProofs
  import opened RunTheorems
  import opened Guarantees

  // ---------------------------------------------------------------------------
  // Results are durable once
  // ---------------------------------------------------------------------------

  /** In every reachable state the results of a run are its calls, in order, one each, and the
      unanswered ones are what is left: no call has two results. */
  lemma OneResultEach(states: seq<System>, actions: seq<Action>, n: nat, r: RunId)
    requires Behaviour(states, actions) && Initial(states[0]) && n < |states| && r in states[n].db.runs
    ensures var t := Rows(states[n], r);
            Asked(t) == Replies(t) + Open(t) && NoDup(Asked(t)) && NoDup(Replies(t))
  {
    Reachable(states, actions, n);
    var t := Rows(states[n], r);
    assert Good(states[n].db.runs[r], t, PcOf(states[n], r));
    Ledger(t);
    NoDupSplit(Replies(t), Open(t));
  }

  /** The step starts call `c` of run `r`. */
  predicate RunsCall(s: System, a: Action, r: RunId, c: CallId) {
    && DrivenBy(s, a, r) && a.act == StartTool && s.procs[a.w].pc.Ready?
    && s.procs[a.w].pc.rest != [] && s.procs[a.w].pc.rest[0].id == c
  }

  /** The rows of a run only grow, by one row a step. */
  lemma RowsGrow(s: System, a: Action, s': System, r: RunId)
    requires Registered(s) && Schema(s.db) && ClearsGood(s) && Takes(s, a, s') && r in s.db.runs && r in s'.db.runs
    ensures var t, t' := Rows(s, r), Rows(s', r);
            t' == t || (t' != [] && Init(t') == t)
  {
    if DrivenBy(s, a, r) {
      var m, project := OwnStep(s, a, s', r);
      if a.act != Exit && m.change.row.Some? {
        assert Init(Rows(s', r)) == Rows(s, r);
      }
    } else {
      Touch(s, a, s', r);
    }
  }

  lemma AnsweredStays(t: seq<Message>, t': seq<Message>, c: CallId)
    requires t' == t || (t' != [] && Init(t') == t)
    requires c in Answered(t)
    ensures c in Answered(t')
  {
    var i :| 0 <= i < |t| && t[i].role == Tool && t[i].callId == Some(c);
    assert t'[i] == t[i];
  }

  lemma ReadyIsOpen(run: Run, t: seq<Message>, rest: seq<ToolCall>)
    requires Good(run, t, Some(Ready(rest)))
    ensures rest != [] && rest[0].id !in Answered(t)
  {
    OpenIsTail(t);
    Ledger(t);
    AnsweredIsReplies(t);
    NoDupSplit(Replies(t), Open(t));
    assert Ids(rest)[0] == rest[0].id;
    assert rest[0].id in Open(t);
  }

  /** What has been answered stays answered while the row exists, and an answered call is not started. */
  lemma AnsweredStep(s: System, a: Action, s': System, r: RunId, c: CallId)
    requires Inv(s) && Takes(s, a, s') && r in s.used && (r in s.db.runs ==> c in Answered(Rows(s, r)))
    ensures !RunsCall(s, a, r, c) && r in s'.used && (r in s'.db.runs ==> c in Answered(Rows(s', r)))
  {
    UsedGrows(s, a, s');
    if r !in s.db.runs {
      assert RunKeys(s.db);
      hide Takes, Next, Schema, ClearsGood, BoardsGood, Driven, Answered;
      GoneStays(s, a, s', r);
    } else {
      assert Good(s.db.runs[r], Rows(s, r), PcOf(s, r));
      hide Next, Of, Answered, BoardsGood, Driven;
      if RunsCall(s, a, r, c) {
        assert PcOf(s, r) == Some(s.procs[a.w].pc);
        ReadyIsOpen(s.db.runs[r], Rows(s, r), s.procs[a.w].pc.rest);
      }
      if r in s'.db.runs {
        RowsGrow(s, a, s', r);
        AnsweredStays(Rows(s, r), Rows(s', r), c);
      } else {
        assert RunKeys(s.db);
      }
    }
  }

  /** A call whose result row is durable is never executed again, whatever crashes and resumes
      follow. */
  lemma {:induction false} AnsweredNeverRuns(states: seq<System>, actions: seq<Action>, r: RunId, c: CallId)
    requires Behaviour(states, actions) && Inv(states[0])
    requires r in states[0].db.runs && c in Answered(Rows(states[0], r))
    ensures forall i :: 0 <= i < |actions| ==> !RunsCall(states[i], actions[i], r, c)
    ensures var t := states[|actions|]; Inv(t) && r in t.used && (r in t.db.runs ==> c in Answered(Rows(t, r)))
  {
    if actions == [] {
      assert Known(states[0]);
    } else {
      var n := |actions| - 1;
      var ss, steps := states[..n + 1], actions[..n];
      BehaviourPrefix(states, actions, n);
      AnsweredNeverRuns(ss, steps, r, c);
      assert ss[n] == states[n] && Takes(states[n], actions[n], states[n + 1]);
      hide Takes, Inv, RunsCall, Answered;
      forall i | 0 <= i < n ensures !RunsCall(states[i], actions[i], r, c) {
        assert !RunsCall(ss[i], steps[i], r, c);
      }
      AnsweredStep(states[n], actions[n], states[n + 1], r, c);
      NextKeeps(states[n], actions[n]);
    }
  }

  /** The number of unanswered calls grows only with a new assistant turn. */
  lemma OpenGrowsByReply(s: System, a: Action, s': System, r: RunId)
    requires Inv(s) && Takes(s, a, s') && r in s.db.runs && r in s'.db.runs
    requires |Open(Rows(s', r))| > |Open(Rows(s, r))|
    ensures DrivenBy(s, a, r) && a.act.Reply?
  {
    hide Next, Step, Of, Ordered, SameProject, MessageKeys, LogKeys, ClearsGood, BoardsGood;
    var t, t' := Rows(s, r), Rows(s', r);
    NextKeeps(s, a);
    assert Good(s'.db.runs[r], t', PcOf(s', r));
    RowsGrow(s, a, s', r);
    assert Last(t').role == Assistant && Last(t').calls != [];
    if DrivenBy(s, a, r) {
      var m, project := OwnStep(s, a, s', r);
      if a.act != Exit {
        OnlyReplyAsks(s.db.runs[r], project, t, s.procs[a.w].pc, a.act);
        assert Last(t') == Stamp(s.db.nextMessage, s.db.runs[r].project, r, m.change.row.value);
      }
    } else {
      Touch(s, a, s', r);
    }
  }

  lemma OnlyReplyAsks(run: Run, project: Project, t: seq<Message>, pc: Pc, a: Act)
    requires Step(run, project, t, pc, a).Some?
    ensures var c := Step(run, project, t, pc, a).value.change;
            c.row.Some? && c.row.value.calls != [] ==> a.Reply?
  {
  }

  // ---------------------------------------------------------------------------
  // A final turn whose run has not ended yet
  // ---------------------------------------------------------------------------

  lemma TerminalMove(run: Run, project: Project, t: seq<Message>, pc: Pc, a: Act)
    requires Good(run, t, Some(pc)) && Terminal(t) && Step(run, project, t, pc, a).Some?
    ensures a != CallModel && a != StartTool && Step(run, project, t, pc, a).value.change.row == None
  {
    OpenIsTail(t);
  }

  lemma TerminalStep(s: System, a: Action, s': System, r: RunId)
    requires Registered(s) && Schema(s.db) && ClearsGood(s) && Takes(s, a, s') && r in s.db.runs && r in s'.db.runs
    requires Good(s.db.runs[r], Rows(s, r), PcOf(s, r)) && Terminal(Rows(s, r))
    ensures !StartsAction(s, a, r) && Rows(s', r) == Rows(s, r)
  {
    hide Next, Of, Step, Ordered, SameProject, MessageKeys, LogKeys, ClearsGood;
    if DrivenBy(s, a, r) {
      var m, project := OwnStep(s, a, s', r);
      if a.act != Exit {
        TerminalMove(s.db.runs[r], project, Rows(s, r), s.procs[a.w].pc, a.act);
      }
    } else {
      Touch(s, a, s', r);
    }
  }

  lemma TerminalKeeps(s: System, a: Action, s': System, r: RunId)
    requires Inv(s) && Takes(s, a, s') && r in s.db.runs && r in s'.db.runs && Terminal(Rows(s, r))
    ensures !StartsAction(s, a, r) && Rows(s', r) == Rows(s, r) && Inv(s')
  {
    hide Terminal, StartsAction, Next, Good, Of;
    TerminalStep(s, a, s', r);
    NextKeeps(s, a);
  }

  /** Only a commit of a clear deletes rows, and that is no worker's step. */
  lemma Deleted(s: System, a: Action, s': System, r: RunId)
    requires RunKeys(s.db) && Takes(s, a, s') && r in s.db.runs && r !in s'.db.runs
    ensures a.ClearCommit? && !StartsAction(s, a, r)
  {
    hide Step, Of, Commit;
    if a.Drive? && a.act != Exit && s.procs[a.w].run in s.db.runs {
      var q := s.procs[a.w].run;
      CommitShape(s.db, q, Step(s.db.runs[q], s.db.projects[s.db.runs[q].project], Rows(s, q), s.procs[a.w].pc, a.act).value.change);
    } else if a.Answer? {
      CommitShape(s.db, a.r, AppendAnswerAndResume(s.db.runs[a.r], Trim(a.text)).value);
    }
  }

  lemma FinalStep(s: System, a: Action, s': System, r: RunId)
    requires Inv(s) && Takes(s, a, s') && r in s.used && (r in s.db.runs ==> Terminal(Rows(s, r)))
    ensures !StartsAction(s, a, r) && Inv(s') && r in s'.used
    ensures r in s'.db.runs ==> r in s.db.runs && Rows(s', r) == Rows(s, r)
  {
    assert RunKeys(s.db) by { SchemaKeys(s.db); }
    assert Registered(s) && RunsGood(s);
    hide Takes, Inv, Terminal, Rows, StartsAction, RunsGood, Registered;
    UsedGrows(s, a, s');
    if r !in s.db.runs {
      GoneStays(s, a, s', r);
    } else if r in s'.db.runs {
      TerminalKeeps(s, a, s', r);
    } else {
      Deleted(s, a, s', r);
    }
    NextKeeps(s, a);
  }

  /** Once the final text turn is stored, the run calls no model and no tool and gets no row,
      through any crashes, pauses and resumes, for as long as its row exists. */
  lemma {:induction false} TerminalIsFinal(states: seq<System>, actions: seq<Action>, r: RunId)
    requires Behaviour(states, actions) && Inv(states[0])
    requires r in states[0].db.runs && Terminal(Rows(states[0], r))
    ensures Starts(states, actions, r) == 0
    ensures var t := states[|actions|]; Inv(t) && r in t.used && (r in t.db.runs ==> Rows(t, r) == Rows(states[0], r))
  {
    if actions == [] {
      assert Known(states[0]);
    } else {
      var n := |actions| - 1;
      var ss, steps := states[..n + 1], actions[..n];
      BehaviourPrefix(states, actions, n);
      TerminalIsFinal(ss, steps, r);
      assert ss[n] == states[n] && Takes(states[n], actions[n], states[n + 1]);
      hide Inv, Takes, Rows, Terminal, StartsAction;
      FinalStep(states[n], actions[n], states[n + 1], r);
    }
  }

  /** The state two worker steps later. */
  ghost function Two(s: System, a: Action, b: Action): Option<System> {
    match Next(s, a) case None => None case Some(t) => Next(t, b)
  }

  /** A worker step of the loop, spelled out. */
  lemma DriveIs(s: System, w: WorkerId, a: Act, m: Move)
    requires w in s.procs && s.procs[w].run in s.db.runs && s.db.runs[s.procs[w].run].project in s.db.projects && a != Exit
    requires var r := s.procs[w].run;
             Step(s.db.runs[r], s.db.projects[s.db.runs[r].project], Rows(s, r), s.procs[w].pc, a) == Some(m)
    ensures var r := s.procs[w].run; Next(s, Drive(w, a)) == Some(Moved(s, w, r, Commit(s.db, r, m.change), m))
  {
  }

  /** A worker at the top of the loop ends such a run in two steps. */
  lemma TerminalCloses(s: System, r: RunId, w: WorkerId)
    requires RunKeys(s.db) && w in s.procs && s.procs[w] == Proc(r, Top)
    requires IsRunning(s.db, r) && Terminal(Rows(s, r)) && !s.db.runs[r].pauseRequested
    ensures var t := Two(s, Drive(w, ReadRun), Drive(w, CloseWindow));
            t.Some? && r in t.value.db.runs && t.value.db.runs[r].state == Idle && t.value.db.messages == s.db.messages
  {
    DriveIs(s, w, ReadRun, Goto(Begin));
    CommitShape(s.db, r, NO_CHANGE);
    var s1 := Moved(s, w, r, s.db, Goto(Begin));
    var c := FinishIfTerminal(s.db.runs[r], Rows(s, r)).value;
    DriveIs(s1, w, CloseWindow, Move(c, Exiting));
    CommitShape(s.db, r, c);
  }

  /** With a pause pending it parks instead, and leaves. */
  lemma PendingPauseParks(s: System, r: RunId, w: WorkerId)
    requires RunKeys(s.db) && w in s.procs && s.procs[w] == Proc(r, Top)
    requires IsRunning(s.db, r) && s.db.runs[r].pauseRequested
    ensures var t := Two(s, Drive(w, ReadRun), Drive(w, ParkRun));
            t.Some? && r in t.value.db.runs && t.value.db.runs[r].state == Paused && t.value.db.messages == s.db.messages
            && w in t.value.procs && t.value.procs[w] == Proc(r, Exiting)
  {
    DriveIs(s, w, ReadRun, Goto(Park(true)));
    CommitShape(s.db, r, NO_CHANGE);
    var s1 := Moved(s, w, r, s.db, Goto(Park(true)));
    DriveIs(s1, w, ParkRun, Move(MarkPaused(s.db.runs[r]), Exiting));
    CommitShape(s.db, r, MarkPaused(s.db.runs[r]));
  }

  // ---------------------------------------------------------------------------
  // When a start gives a run a worker
  // ---------------------------------------------------------------------------

  /** A start leaves a Running run with a worker that will read its row exactly when the run's worker,
      if it has one, is not already past its last durable read. */
  lemma StartDrivesIff(s: System, r: RunId, id: WorkerId)
    requires Registered(s) && Driven(s) && s.up && r in s.starts && IsRunning(s.db, r) && id !in s.procs
    ensures var t := Next(s, Start(r, id));
            && t.Some? && IsRunning(t.value.db, r)
            && (Live(t.value, r) <==> PcOf(s, r) != Some(Exiting))
            && (r in t.value.refused <==> PcOf(s, r) == Some(Exiting))
  {
    hide Step, Of;
  }

  /** The request releases run `r` and will call its start. */
  predicate Releases(a: Action, r: RunId) {
    (a.Create? || a.Answer? || a.Resume? || a.Approve? || a.Revise?) && a.r == r
  }

  /** A request that releases a run leaves it Running, with its start to come and its worker where it was. */
  lemma ReleasesRun(s: System, a: Action, r: RunId)
    requires RunKeys(s.db) && Next(s, a).Some? && Releases(a, r)
    ensures var t := Next(s, a).value;
            t.up && t.starts == {r} && IsRunning(t.db, r) && t.procs == s.procs && t.registry == s.registry && t.refused == s.refused
  {
    hide Step, Of;
  }

  /** Every request that releases a run, followed by its start, gives the run a worker exactly when no
      worker of it was past its last durable read at the request. */
  lemma RequestDrivesIff(s: System, a: Action, r: RunId, id: WorkerId)
    requires Inv(s) && Honest(s, a) && Next(s, a).Some? && Releases(a, r) && id !in s.procs
    ensures var t := Two(s, a, Start(r, id));
            && t.Some? && IsRunning(t.value.db, r)
            && (Live(t.value, r) <==> PcOf(s, r) != Some(Exiting))
            && (r in t.value.refused <==> PcOf(s, r) == Some(Exiting))
  {
    NextKeeps(s, a);
    var t := Next(s, a).value;
    DrivenParts(s);
    DrivenParts(t);
    hide Inv, Next, Driven, Registered;
    ReleasesRun(s, a, r);
    StartDrivesIff(t, r, id);
  }

  lemma DrivenParts(s: System)
    requires Inv(s)
    ensures Registered(s) && Driven(s) && RunKeys(s.db)
  {
  }

  // ---------------------------------------------------------------------------
  // Workers
  // ---------------------------------------------------------------------------

  /** No two goroutines ever drive the same run. */
  lemma OneWorker(states: seq<System>, actions: seq<Action>, n: nat)
    requires Behaviour(states, actions) && Initial(states[0]) && n < |states|
    ensures var s := states[n];
            forall v, w :: v in s.procs && w in s.procs && s.procs[v].run == s.procs[w].run ==> v == w
  {
    Reachable(states, actions, n);
  }

  lemma RefusedDrive(s: System, w: WorkerId, act: Act, s': System, r: RunId)
    requires Registered(s) && Driven(s) && DriveStep(s, w, act) == Some(s') && r in s.refused
    ensures r in s'.refused && !(s.procs[w].run == r && (act == CallModel || act == StartTool))
  {
    assert !Live(s, r);
    if s.procs[w].run == r {
      assert PcOf(s, r) == Some(s.procs[w].pc);
    }
  }

  lemma RefusedStep(s: System, a: Action, s': System, r: RunId)
    requires Registered(s) && Driven(s) && Takes(s, a, s') && r in s.refused && a != Crash
    ensures r in s'.refused && !StartsAction(s, a, r)
  {
    if a.Drive? {
      RefusedDrive(s, a.w, a.act, s', r);
    } else if a.Start? {
      assert a.r != r;
    } else {
      assert s'.refused == s.refused;
    }
  }

  /** The run's start is made while its worker is past its last durable read. */
  predicate TooSoon(s: System, a: Action, r: RunId) {
    a.Start? && a.r == r && IsRunning(s.db, r) && PcOf(s, r) == Some(Exiting)
  }

  /** The run's start came too soon at some step, and the process has lived since. */
  ghost predicate TurnedAway(states: seq<System>, actions: seq<Action>, n: nat, r: RunId)
    requires n < |states| == |actions| + 1
  {
    exists k :: 0 <= k < n && TurnedAwayAt(states, actions, k, n, r)
  }

  ghost predicate TurnedAwayAt(states: seq<System>, actions: seq<Action>, k: nat, n: nat, r: RunId)
    requires k < n < |states| == |actions| + 1
  {
    TooSoon(states[k], actions[k], r) && forall j :: k < j < n ==> actions[j] != Crash
  }

  lemma TurnedAwayNow(states: seq<System>, actions: seq<Action>, m: nat, n: nat, r: RunId)
    requires n == m + 1 < |states| == |actions| + 1
    ensures TurnedAway(states, actions, n, r) <==>
            TooSoon(states[m], actions[m], r) || (TurnedAway(states, actions, m, r) && actions[m] != Crash)
  {
    hide TooSoon;
    if TooSoon(states[m], actions[m], r) {
      assert TurnedAwayAt(states, actions, m, n, r);
    }
    if k :| 0 <= k < m && TurnedAwayAt(states, actions, k, m, r) {
      assert actions[m] != Crash ==> TurnedAwayAt(states, actions, k, n, r);
    }
    if k :| 0 <= k < n && TurnedAwayAt(states, actions, k, n, r) {
      assert k < m ==> TurnedAwayAt(states, actions, k, m, r);
    }
  }

  /** A run becomes refused only by such a start. */
  lemma RefusedNew(s: System, a: Action, s': System, r: RunId)
    requires Registered(s) && Takes(s, a, s') && r in s'.refused && r !in s.refused
    ensures TooSoon(s, a, r)
  {
    hide Step, Of, Commit, CreateRun, ApprovePlan, RevisePlan, Cleared, Blocked;
  }

  lemma CrashForgets(s: System, t: System)
    requires Takes(s, Crash, t)
    ensures t.refused == {}
  {
  }

  lemma StartRefuses(s: System, a: Action, t: System, r: RunId)
    requires Takes(s, a, t) && TooSoon(s, a, r)
    ensures r in t.refused
  {
  }

  lemma RefusedNow(s: System, a: Action, t: System, r: RunId)
    requires Registered(s) && Driven(s) && Takes(s, a, t)
    ensures r in t.refused <==> TooSoon(s, a, r) || (r in s.refused && a != Crash)
  {
    hide Takes, Registered, Driven, TooSoon;
    if TooSoon(s, a, r) {
      StartRefuses(s, a, t, r);
    } else if r !in s.refused {
      if r in t.refused {
        RefusedNew(s, a, t, r);
      }
    } else if a == Crash {
      CrashForgets(s, t);
    } else {
      RefusedStep(s, a, t, r);
    }
  }

  /** The refused runs are those whose start came too soon in the process that is up. */
  lemma {:induction false} RefusedIff(states: seq<System>, actions: seq<Action>, n: nat, r: RunId)
    requires Behaviour(states, actions) && Initial(states[0]) && n < |states|
    ensures r in states[n].refused <==> TurnedAway(states, actions, n, r)
  {
    if n > 0 {
      RefusedIff(states, actions, n - 1, r);
      Reachable(states, actions, n - 1);
      assert Takes(states[n - 1], actions[n - 1], states[n - 1 + 1]);
      DrivenParts(states[n - 1]);
      hide Takes, Inv, Registered, Driven, TurnedAway, TooSoon, Initial;
      RefusedNow(states[n - 1], actions[n - 1], states[n], r);
      TurnedAwayNow(states, actions, n - 1, n, r);
    }
  }

  /** A Running run whose start is not still to come has a worker that will read its row exactly when the
      process is up and its last start was not made against a worker past its last durable read. */
  lemma DrivenIff(states: seq<System>, actions: seq<Action>, n: nat, r: RunId)
    requires Behaviour(states, actions) && Initial(states[0]) && n < |states|
    requires IsRunning(states[n].db, r) && r !in states[n].starts
    ensures Live(states[n], r) <==> states[n].up && !TurnedAway(states, actions, n, r)
  {
    RefusedIff(states, actions, n, r);
    Reachable(states, actions, n);
    DrivenParts(states[n]);
    hide Inv, Behaviour, Initial, TurnedAway;
  }

  /** A refused run is stranded: it stays Running, undriven and idle through every later step and
      operator request, until the process dies. */
  lemma {:induction false} Stranded(states: seq<System>, actions: seq<Action>, r: RunId)
    requires Behaviour(states, actions) && Inv(states[0]) && r in states[0].refused
    requires Crash !in actions
    ensures var t := states[|actions|];
            Inv(t) && r in t.refused && IsRunning(t.db, r) && !Live(t, r)
    ensures Starts(states, actions, r) == 0
  {
    if actions != [] {
      var n := |actions| - 1;
      var ss, steps := states[..n + 1], actions[..n];
      BehaviourPrefix(states, actions, n);
      Stranded(ss, steps, r);
      assert ss[n] == states[n];
      assert Takes(states[n], actions[n], states[n + 1]);
      RefusedStep(states[n], actions[n], states[n + 1], r);
      NextKeeps(states[n], actions[n]);
    }
  }

  lemma PauseLands(s: System, r: RunId) returns (t: System)
    requires OneActive(s.db.runs) && Serving(s) && IsRunning(s.db, r)
    ensures Takes(s, Pause(s.db.runs[r].project), t)
    ensures t == s.(db := s.db.(runs := s.db.runs[r := s.db.runs[r].(pauseRequested := true)]))
  {
    PauseIsOne(s.db.runs, s.db.runs[r].project, r);
    t := s.(db := s.db.(runs := RequestPause(s.db.runs, s.db.runs[r].project)));
  }

  lemma ReadPark(s: System, r: RunId, w: WorkerId) returns (s1: System, s2: System)
    requires IsRunning(s.db, r) && s.db.runs[r].project in s.db.projects && s.db.runs[r].pauseRequested
    requires w in s.procs && s.procs[w] == Proc(r, Top)
    ensures Takes(s, Drive(w, ReadRun), s1) && Takes(s1, Drive(w, ParkRun), s2)
    ensures s2 == s.(db := s2.db, procs := s.procs[w := Proc(r, Exiting)])
    ensures r in s2.db.runs && s2.db.runs[r].state == Paused && s2.db.runs[r].project == s.db.runs[r].project
  {
    CommitShape(s.db, r, NO_CHANGE);
    s1 := Moved(s, w, r, s.db, Goto(Park(true)));
    DriveIs(s, w, ReadRun, Goto(Park(true)));
    var c := MarkPaused(s.db.runs[r]);
    CommitShape(s.db, r, c);
    s2 := Moved(s1, w, r, Commit(s.db, r, c), Move(c, Exiting));
    DriveIs(s1, w, ParkRun, Move(c, Exiting));
    assert s1.procs[w := Proc(r, Exiting)] == s.procs[w := Proc(r, Exiting)];
  }

  lemma ResumeRefused(s: System, r: RunId, w: WorkerId, id: WorkerId) returns (s1: System, s2: System)
    requires Serving(s) && r in s.db.runs && s.db.runs[r].state == Paused && id !in s.procs
    requires r in s.registry && s.registry[r] == w && w in s.procs && s.procs[w] == Proc(r, Exiting)
    ensures Takes(s, Resume(s.db.runs[r].project, r), s1) && Takes(s1, Start(r, id), s2) && r in s2.refused
  {
    s1 := Requested(s, s.db.(runs := ResumeRun(s.db.runs, s.db.runs[r].project)), r);
    s2 := StartStep(s1, r, id).value;
  }

  /** From every state in which a worker is about to read its Running row, a pause and a resume
      can strand the run: the resume commits after the worker parked the run and before its
      goroutine unregistered, so the new start is turned away. */
  lemma PauseResumeCanStrand(s: System, r: RunId, w: WorkerId) returns (states: seq<System>, actions: seq<Action>)
    requires Registered(s) && OneActive(s.db.runs) && RunKeys(s.db)
    requires Serving(s) && IsRunning(s.db, r) && w in s.procs && s.procs[w] == Proc(r, Top)
    ensures Behaviour(states, actions) && states[0] == s && Crash !in actions
    ensures r in states[|actions|].refused
  {
    hide Takes, Behaviour;
    var p := s.db.runs[r].project;
    var s1 := PauseLands(s, r);
    var s2, s3 := ReadPark(s1, r, w);
    var id := FreshId(s3.procs.Keys);
    var s4, s5 := ResumeRefused(s3, r, w, id);
    states := [s, s1, s2, s3, s4, s5];
    actions := [Pause(p), Drive(w, ReadRun), Drive(w, ParkRun), Resume(p, r), Start(r, id)];
    FiveSteps(states, actions);
  }

  /** A fresh installation gets there: boot, a first message, its start. */
  lemma FirstRun(s: System, p: ProjectId) returns (states: seq<System>, actions: seq<Action>)
    requires Initial(s) && p in s.db.projects
    ensures Behaviour(states, actions) && states[0] == s && Crash !in actions
    ensures FirstTurn(states[|actions|], p)
  {
    var s1 := FirstBoot(s);
    var s2 := FirstCreate(s1, p);
    var s3 := FirstStart(s2, p);
    states, actions := [s, s1, s2, s3], [Boot, Create(p, 0, "go"), Start(0, 0)];
    hide Takes, Of;
    forall i | 0 <= i < 3 ensures Takes(states[i], actions[i], states[i + 1]) {
      assert i == 0 || i == 1 || i == 2;
    }
  }

  lemma FirstBoot(s: System) returns (t: System)
    requires Initial(s)
    ensures Takes(s, Boot, t) && t == s.(up := true)
  {
    t := Next(s, Boot).value;
    assert t.starts == {};
  }

  lemma FirstCreate(s: System, p: ProjectId) returns (t: System)
    requires Serving(s) && s.db.runs == map[] && s.db.messages == [] && p in s.db.projects && p !in s.clears && 0 !in s.used
    ensures Takes(s, Create(p, 0, "go"), t)
    ensures t.up && t.starts == {0} && t.procs == s.procs && t.registry == s.registry && t.clears == s.clears
    ensures FirstRow(t.db, p)
  {
    FirstMessage(s.db, p);
    hide CreateRun, FirstRow, Of, Trim;
    t := Generated(s, CreateRun(s.db, p, 0, "go").value, 0);
  }

  lemma FirstMessage(db: Db, p: ProjectId)
    requires db.runs == map[] && db.messages == [] && p in db.projects
    ensures Trim("go") == "go" && CreateRun(db, p, 0, "go").Some? && FirstRow(CreateRun(db, p, 0, "go").value, p)
  {
    OfAppend([], Stamp(db.nextMessage, p, 0, UserRow("go")), 0);
  }

  lemma FirstStart(s: System, p: ProjectId) returns (t: System)
    requires s.up && s.starts == {0} && s.procs == map[] && s.registry == map[] && s.clears == map[] && FirstRow(s.db, p)
    ensures Takes(s, Start(0, 0), t) && FirstTurn(t, p)
  {
    hide Of;
    t := StartStep(s, 0, 0).value;
  }

  /** One Running run with its first message. */
  ghost predicate FirstRow(db: Db, p: ProjectId) {
    && p in db.projects && db.runs.Keys == {0} && IsRunning(db, 0) && db.runs[0].project == p && !db.runs[0].pauseRequested
    && |Of(db.messages, 0)| == 1 && Of(db.messages, 0)[0].role == User
  }

  /** A worker at the top of its run's first turn, and nothing else going on. */
  ghost predicate FirstTurn(t: System, p: ProjectId) {
    Serving(t) && FirstRow(t.db, p) && 0 in t.procs && t.procs[0] == Proc(0, Top) && t.clears == map[]
  }

  lemma BehavioursJoin(a: seq<System>, x: seq<Action>, b: seq<System>, y: seq<Action>)
    requires Behaviour(a, x) && Behaviour(b, y) && a[|x|] == b[0]
    ensures Behaviour(a + b[1..], x + y) && (a + b[1..])[|x + y|] == b[|y|]
  {
    var c, z := a + b[1..], x + y;
    forall i | 0 <= i < |z| ensures Takes(c[i], z[i], c[i + 1]) {
      if i < |x| {
        assert Takes(a[i], x[i], a[i + 1]);
      } else {
        assert Takes(b[i - |x|], y[i - |x|], b[i - |x| + 1]);
        assert c[i] == b[i - |x|];
      }
    }
  }

  lemma LengthOf(states: seq<System>, actions: seq<Action>)
    requires Behaviour(states, actions)
    ensures |states| == |actions| + 1
  {
  }

  lemma StrandsFrom(s: System, p: ProjectId)
    requires Inv(s) && FirstTurn(s, p)
    ensures Registered(s) && OneActive(s.db.runs) && RunKeys(s.db)
    ensures Serving(s) && IsRunning(s.db, 0) && 0 in s.procs && s.procs[0] == Proc(0, Top)
  {
  }

  /** So the stranded run is a reachable state of the protocol, with no crash on the way. */
  lemma StrandingIsReachable(s: System, p: ProjectId)
    requires Initial(s) && p in s.db.projects
    ensures exists states: seq<System>, actions: seq<Action> ::
              Behaviour(states, actions) && states[0] == s && Crash !in actions && 0 in states[|actions|].refused
  {
    var a, x := FirstRun(s, p);
    Reachable(a, x, |x|);
    StrandsFrom(a[|x|], p);
    hide Inv, Behaviour, FirstTurn, Initial;
    var b, y := PauseResumeCanStrand(a[|x|], 0, 0);
    assert |a| == |x| + 1 by { LengthOf(a, x); }
    BehavioursJoin(a, x, b, y);
    assert (a + b[1..])[0] == s;
  }

  lemma FiveSteps(states: seq<System>, actions: seq<Action>)
    requires |states| == 6 && |actions| == 5
    requires Takes(states[0], actions[0], states[1]) && Takes(states[1], actions[1], states[2])
    requires Takes(states[2], actions[2], states[3]) && Takes(states[3], actions[3], states[4])
    requires Takes(states[4], actions[4], states[5])
    ensures Behaviour(states, actions)
  {
  }

  lemma FreshId(used: set<WorkerId>) returns (id: WorkerId)
    ensures id !in used
  {
    if used == {} {
      id := 0;
    } else {
      var top := Largest(used);
      id := top + 1;
    }
  }

  lemma Largest(used: set<WorkerId>) returns (top: WorkerId)
    requires used != {}
    ensures forall x :: x in used ==> x <= top
  {
    var x :| x in used;
    if used == {x} {
      top := x;
    } else {
      var rest := Largest(used - {x});
      assert forall y :: y in used ==> y == x || y in used - {x};
      top := if x < rest then rest else x;
    }
  }

  // ---------------------------------------------------------------------------
  // A shipped run whose row has not ended yet
  // ---------------------------------------------------------------------------

  /** A run is Done by one commit only, the last of a shipped `done`. */
  lemma DoneIff(s: System, a: Action, s': System, r: RunId)
    requires Inv(s) && Takes(s, a, s') && r in s.db.runs && r in s'.db.runs && s.db.runs[r].state != Done
    ensures s'.db.runs[r].state == Done <==> DrivenBy(s, a, r) && a.act == FinishDone
  {
    hide Next, Of, Step, Ordered, SameProject, MessageKeys, LogKeys, ClearsGood, BoardsGood;
    assert Good(s.db.runs[r], Rows(s, r), PcOf(s, r));
    if DrivenBy(s, a, r) {
      var m, project := OwnStep(s, a, s', r);
      if a.act != Exit {
        DoneMove(s.db.runs[r], project, Rows(s, r), s.procs[a.w].pc, a.act);
      }
    } else {
      Touch(s, a, s', r);
    }
  }

  lemma DoneMove(run: Run, project: Project, t: seq<Message>, pc: Pc, a: Act)
    requires Step(run, project, t, pc, a).Some? && run.state != Done
    ensures RowAfter(run, Step(run, project, t, pc, a).value.change).state == Done <==> a == FinishDone
  {
  }

  /** Between the stored result of `done` and that commit a crash leaves the run Running. A worker that
      takes it up again, with no pause pending, does not end it: it runs the calls the model put after
      `done`, and with none it asks the model again. */
  lemma ShippedGoesOn(run: Run, project: Project, t: seq<Message>)
    requires RunOk(run, t) && EndsInDone(t) && run.state == Running && !run.pauseRequested
    ensures Step(run, project, t, Top, ReadRun) == Some(Goto(Begin))
    ensures Step(run, project, t, Begin, CloseWindow) == Some(Goto(Trail))
    ensures Step(run, project, t, Trail, ReadTrailing) == Some(Goto(if OpenCalls(t) == [] then Ask else Exec(OpenCalls(t))))
  {
    hide WellFormed, Open, OpenCalls, LastCalls, Trailing, Wanted;
    WantedIsOpen(t);
    TrailingIsOpen(t);
    OpenIsTail(t);
    OpenOrNot(t);
    DoneIsOpen(t);
  }

  /** Rows that end with the result of `done` are not a final text turn. */
  lemma DoneIsOpen(t: seq<Message>)
    requires EndsInDone(t)
    ensures !Terminal(t)
  {
  }

  lemma OpenOrNot(t: seq<Message>)
    requires Ids(OpenCalls(t)) == Open(t)
    ensures Open(t) == [] <==> OpenCalls(t) == []
  {
  }

  // ---------------------------------------------------------------------------
  // Run rows
  // ---------------------------------------------------------------------------

  /** Every reachable row is consistent and every project has at most one live run. */
  lemma RowsStayOk(states: seq<System>, actions: seq<Action>, n: nat)
    requires Behaviour(states, actions) && Initial(states[0]) && n < |states|
    ensures OneActive(states[n].db.runs)
    ensures forall r :: r in states[n].db.runs ==> states[n].db.runs[r].RowOk()
  {
    Reachable(states, actions, n);
    forall r | r in states[n].db.runs ensures states[n].db.runs[r].RowOk() {
      assert Good(states[n].db.runs[r], Rows(states[n], r), PcOf(states[n], r));
    }
  }

  /** An ended run's row never changes again. */
  lemma EndedStays(s: System, a: Action, s': System, r: RunId)
    requires Inv(s) && Takes(s, a, s') && r in s.db.runs && r in s'.db.runs
    requires s.db.runs[r].state == Idle || s.db.runs[r].state == Done
    ensures s'.db.runs[r] == s.db.runs[r] && Rows(s', r) == Rows(s, r)
  {
    hide Next, Of, Step, Ordered, SameProject, MessageKeys, LogKeys, ClearsGood, BoardsGood;
    assert Good(s.db.runs[r], Rows(s, r), PcOf(s, r));
    if DrivenBy(s, a, r) {
      var m, project := OwnStep(s, a, s', r);
      if a.act != Exit {
        StillMove(s.db.runs[r], project, Rows(s, r), s.procs[a.w].pc, a.act);
      }
    } else {
      Touch(s, a, s', r);
    }
  }

  /** The updates without a state guard only ever meet a Running row. */
  lemma UnguardedMeetRunning(s: System, a: Action, s': System, r: RunId)
    requires Registered(s) && RunsGood(s) && Takes(s, a, s') && DrivenBy(s, a, r)
    requires a.act == FinishIdle || a.act == FinishDone || a.act == CountStep
    ensures IsRunning(s.db, r) && s.db.runs[r].reason == None && !s.db.runs[r].finished
  {
    hide Of, Cleared, CreateRun, ApprovePlan, RevisePlan, Commit, Blocked, Terminal, WellFormed, ApplyControl, OpenCalls;
    var pc := s.procs[a.w].pc;
    assert pc == Close || pc.ShipEnd? || pc.Count?;
    assert PcOf(s, r) == Some(pc);
    hide Step, Next, Takes;
    assert Good(s.db.runs[r], Rows(s, r), Some(pc));
  }
}
