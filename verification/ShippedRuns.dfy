/** A run whose `done` has shipped: when it ends, when it goes on instead, and how it comes to go on. */
module ShippedRuns {
  import opened Prelude
  import opened Text
  import opened Transcript
  import opened Store
  import opened Worker
  import opened WorkerProofs
  import opened RunMachine
  import opened RunProofs
  import opened RunTheorems
  import opened Recovery
  import opened Promises
  import Walks

  /** The run's worker has stored the result of a shipped `done` and is about to end the run. */
  predicate AtShipEnd(s: System, r: RunId) {
    PcOf(s, r).Some? && PcOf(s, r).value.ShipEnd?
  }

  // ---------------------------------------------------------------------------
  // When a run ends as Done
  // ---------------------------------------------------------------------------

  /** Some step makes the run Done. */
  ghost predicate CanBeDone(s: System, r: RunId) {
    exists a, t :: Takes(s, a, t) && r in t.db.runs && t.db.runs[r].state == Done
  }

  lemma FinishNeedsShipEnd(s: System, a: Action, t: System, r: RunId)
    requires Registered(s) && RunKeys(s.db) && Takes(s, a, t) && r in s.db.runs && DrivenBy(s, a, r) && a.act == FinishDone
    ensures AtShipEnd(s, r)
  {
    hide Takes, RunKeys, Registered;
    var m, project := OwnStep(s, a, t, r);
  }

  lemma FinishesHere(s: System, r: RunId)
    requires Registered(s) && RunKeys(s.db) && r in s.db.runs && AtShipEnd(s, r)
    ensures CanBeDone(s, r)
  {
    hide Takes;
    var w, pc := s.registry[r], PcOf(s, r).value;
    var run := s.db.runs[r];
    FinishStep(run, s.db.projects[run.project], Rows(s, r), pc);
    hide Step, Of;
    var t := Walks.Walk(s, w, r, pc, FinishDone, Move(FinishRun(run, Done, ""), Top));
    assert Takes(s, Drive(w, FinishDone), t);
  }

  lemma FinishStep(run: Run, project: Project, t: seq<Message>, pc: Pc)
    requires pc.ShipEnd?
    ensures Step(run, project, t, pc, FinishDone) == Some(Move(FinishRun(run, Done, ""), Top))
  {
  }

  /** A run that is not Done can become so at the next step if and only if its own worker stands between the
      stored result of a shipped `done` and the end of the run. */
  lemma DoneGuard(s: System, r: RunId)
    requires Inv(s) && r in s.db.runs && s.db.runs[r].state != Done
    ensures CanBeDone(s, r) <==> AtShipEnd(s, r)
  {
    InvParts(s);
    hide Takes, Registered, RunKeys, AtShipEnd, RunsGood, ClearsGood;
    if AtShipEnd(s, r) {
      FinishesHere(s, r);
    }
    if a, t :| Takes(s, a, t) && r in t.db.runs && t.db.runs[r].state == Done {
      DoneIff(s, a, t, r);
      hide Inv;
      FinishNeedsShipEnd(s, a, t, r);
    }
  }

  /** The step stores the result of a shipped `done` of the run. */
  predicate Ships(s: System, a: Action, r: RunId) {
    DrivenBy(s, a, r) && a.act == AppendShipped
  }

  /** Only that step brings a worker there. */
  lemma ShipEndStep(s: System, a: Action, t: System, r: RunId)
    requires Registered(s) && RunKeys(s.db) && Takes(s, a, t) && r in s.db.runs
    requires !AtShipEnd(s, r) && !Ships(s, a, r)
    ensures !AtShipEnd(t, r)
  {
    hide Takes, RunKeys, Registered;
    if DrivenBy(s, a, r) {
      var m, project := OwnStep(s, a, t, r);
      if a.act != Exit {
        ShipEndMove(s.db.runs[r], project, Rows(s, r), s.procs[a.w].pc, a.act);
      }
    } else {
      TouchPc(s, a, t, r);
    }
  }

  lemma ShipEndMove(run: Run, project: Project, t: seq<Message>, pc: Pc, a: Act)
    requires Step(run, project, t, pc, a).Some? && a != AppendShipped
    ensures !Step(run, project, t, pc, a).value.pc.ShipEnd?
  {
  }

  lemma UnendedStep(s: System, a: Action, t: System, r: RunId)
    requires Inv(s) && Takes(s, a, t) && r in s.db.runs && r in t.db.runs
    requires s.db.runs[r].state != Done && !AtShipEnd(s, r) && !Ships(s, a, r)
    ensures t.db.runs[r].state != Done && !AtShipEnd(t, r)
  {
    InvParts(s);
    DoneIff(s, a, t, r);
    hide Inv, Takes, Registered, RunKeys, AtShipEnd, RunsGood, ClearsGood;
    ShipEndStep(s, a, t, r);
    if DrivenBy(s, a, r) && a.act == FinishDone {
      FinishNeedsShipEnd(s, a, t, r);
    }
  }

  /** Some step from `i` up to `n` stores the result of a shipped `done` of the run. */
  ghost predicate ShippedBetween(states: seq<System>, actions: seq<Action>, i: nat, n: nat, r: RunId)
    requires n <= |actions| < |states|
  {
    exists k :: i <= k < n && Ships(states[k], actions[k], r)
  }

  lemma {:induction false} UnendedWithout(states: seq<System>, actions: seq<Action>, i: nat, n: nat, r: RunId)
    requires History(states, actions) && i <= n <= |actions| && r in states[i].db.runs && r in states[n].db.runs
    requires states[i].db.runs[r].state != Done && !AtShipEnd(states[i], r)
    requires forall k :: i <= k < n ==> !Ships(states[k], actions[k], r)
    ensures states[n].db.runs[r].state != Done && !AtShipEnd(states[n], r)
  {
    if i < n {
      GoneForever(states, actions, i, n, r);
      UnendedWithout(states, actions, i, n - 1, r);
      Suffix(states, actions, n - 1);
      Taken(states, actions, n - 1);
      hide History, Inv, Takes, AtShipEnd, Ships;
      UnendedStep(states[n - 1], actions[n - 1], states[n], r);
    }
  }

  lemma GrowsBy(s: System, a: Action, t: System, r: RunId)
    requires Inv(s) && Takes(s, a, t) && r in s.db.runs && r in t.db.runs
    ensures |Rows(t, r)| >= |Rows(s, r)|
    ensures Ships(s, a, r) ==> |Rows(t, r)| > |Rows(s, r)|
  {
    InvGrows(s);
    hide Inv, Takes, Schema, Registered, ClearsGood, Of;
    RowsGrow(s, a, t, r);
    if Ships(s, a, r) {
      assert RunKeys(s.db) by { SchemaRuns(s.db); }
      var m, project := OwnStep(s, a, t, r);
      ShipsRow(s.db.runs[r], project, Rows(s, r), s.procs[a.w].pc);
    }
  }

  lemma InvGrows(s: System)
    requires Inv(s)
    ensures Registered(s) && Schema(s.db) && ClearsGood(s)
  {
  }

  lemma SchemaRuns(db: Db)
    requires Schema(db)
    ensures RunKeys(db)
  {
  }

  lemma ShipsRow(run: Run, project: Project, t: seq<Message>, pc: Pc)
    requires Step(run, project, t, pc, AppendShipped).Some?
    ensures Step(run, project, t, pc, AppendShipped).value.change.row.Some?
  {
  }

  lemma BetweenNow(states: seq<System>, actions: seq<Action>, i: nat, m: nat, n: nat, r: RunId)
    requires i <= m && n == m + 1 <= |actions| < |states|
    ensures ShippedBetween(states, actions, i, n, r) <==>
            ShippedBetween(states, actions, i, m, r) || Ships(states[m], actions[m], r)
  {
    hide Ships;
    if k :| i <= k < n && Ships(states[k], actions[k], r) {
      assert k < m ==> ShippedBetween(states, actions, i, m, r);
    }
  }

  lemma {:induction false} RowsLonger(states: seq<System>, actions: seq<Action>, i: nat, n: nat, r: RunId)
    requires History(states, actions) && i <= n <= |actions| && r in states[i].db.runs && r in states[n].db.runs
    ensures |Rows(states[n], r)| >= |Rows(states[i], r)|
    ensures ShippedBetween(states, actions, i, n, r) ==> |Rows(states[n], r)| > |Rows(states[i], r)|
  {
    if i < n {
      Lengths(states, actions);
      hide History, Inv, Takes, Ships, Of, ShippedBetween;
      GoneForever(states, actions, i, n, r);
      RowsLonger(states, actions, i, n - 1, r);
      Suffix(states, actions, n - 1);
      Taken(states, actions, n - 1);
      GrowsBy(states[n - 1], actions[n - 1], states[n], r);
      BetweenNow(states, actions, i, n - 1, n, r);
    }
  }

  /** A run that is not Done and has no worker at its last commit becomes Done only after another shipped
      `done` has stored its result, and so not before it has a new row: through any crashes, restarts,
      pauses, resumes and answers. */
  lemma NotDoneWithout(states: seq<System>, actions: seq<Action>, i: nat, n: nat, r: RunId)
    requires History(states, actions) && i <= n <= |actions| && r in states[i].db.runs && r in states[n].db.runs
    requires states[i].db.runs[r].state != Done && !AtShipEnd(states[i], r)
    ensures states[n].db.runs[r].state == Done ==>
              ShippedBetween(states, actions, i, n, r) && |Rows(states[n], r)| > |Rows(states[i], r)|
  {
    Lengths(states, actions);
    hide History, AtShipEnd, Ships, Of;
    if states[n].db.runs[r].state == Done {
      if !ShippedBetween(states, actions, i, n, r) {
        UnendedWithout(states, actions, i, n, r);
      }
      RowsLonger(states, actions, i, n, r);
    }
  }

  // ---------------------------------------------------------------------------
  // A shipped run that goes on
  // ---------------------------------------------------------------------------

  /** The last step of a behaviour starts what the run goes on with: its first open call, or with none a model
      call. The run is Running and its rows are what they were. */
  ghost predicate GoesOn(states: seq<System>, actions: seq<Action>, r: RunId) {
    && |states| == |actions| + 1 >= 2
    && var s, u, a, t := states[0], states[|actions| - 1], actions[|actions| - 1], states[|actions|];
       && StartsAction(u, a, r) && IsRunning(t.db, r) && Rows(t, r) == Rows(s, r)
       && var open := OpenCalls(Rows(s, r));
          if open == [] then a.act == CallModel else RunsCall(u, a, r, open[0].id)
  }

  /** The steps of a worker that takes such a run up again. */
  function TakeUp(w: WorkerId, open: seq<ToolCall>): seq<Action> {
    [Drive(w, ReadRun), Drive(w, CloseWindow), Drive(w, ReadTrailing)]
    + if open == [] then [Drive(w, CallModel)] else [Drive(w, CheckPause), Drive(w, StartTool)]
  }

  /** A Running run with no pause pending whose newest row is the result of a `done`. */
  ghost predicate Resumes(s: System, r: RunId) {
    && IsRunning(s.db, r) && !s.db.runs[r].pauseRequested && s.db.runs[r].project in s.db.projects
    && RunOk(s.db.runs[r], Rows(s, r)) && EndsInDone(Rows(s, r))
  }

  lemma TailSteps(run: Run, project: Project, t: seq<Message>, open: seq<ToolCall>)
    requires !run.pauseRequested
    ensures Step(run, project, t, Ask, CallModel) == Some(Goto(Stream))
    ensures Step(run, project, t, Exec(open), CheckPause) == Some(Goto(Ready(open)))
    ensures Step(run, project, t, Ready(open), StartTool) == Some(Goto(Tooling(open)))
  {
  }

  lemma Opens(s: System, r: RunId, w: WorkerId) returns (s1: System, s2: System, s3: System)
    requires Resumes(s, r) && w in s.procs && s.procs[w] == Proc(r, Top)
    ensures Takes(s, Drive(w, ReadRun), s1) && Takes(s1, Drive(w, CloseWindow), s2) && Takes(s2, Drive(w, ReadTrailing), s3)
    ensures w in s3.procs && s3.procs[w] == Proc(r, if OpenCalls(Rows(s, r)) == [] then Ask else Exec(OpenCalls(Rows(s, r))))
    ensures s3.db.runs == s.db.runs && s3.db.projects == s.db.projects && s3.db.messages == s.db.messages
  {
    var run := s.db.runs[r];
    ShippedGoesOn(run, s.db.projects[run.project], Rows(s, r));
    hide Step, Takes, Of, RunOk, EndsInDone, OpenCalls;
    s1 := Walks.Glance(s, w, r, Top, ReadRun, Begin);
    s2 := Walks.Glance(s1, w, r, Begin, CloseWindow, Trail);
    var open := OpenCalls(Rows(s, r));
    s3 := Walks.Glance(s2, w, r, Trail, ReadTrailing, if open == [] then Ask else Exec(open));
  }

  lemma TakesUp(s: System, r: RunId, w: WorkerId) returns (states: seq<System>)
    requires Resumes(s, r) && w in s.procs && s.procs[w] == Proc(r, Top)
    ensures var actions := TakeUp(w, OpenCalls(Rows(s, r)));
            Behaviour(states, actions) && states[0] == s && GoesOn(states, actions, r)
  {
    var s1, s2, s3 := Opens(s, r, w);
    assert IsRunning(s.db, r) && !s.db.runs[r].pauseRequested && s.db.runs[r].project in s.db.projects;
    hide Step, Takes, Of, Resumes, OpenCalls, TakeUp, GoesOn, Behaviour;
    if OpenCalls(Rows(s, r)) == [] {
      states := AsksAgain(s, s1, s2, s3, r, w);
    } else {
      states := RunsSiblings(s, s1, s2, s3, r, w);
    }
  }

  /** The state `s3` is that of a worker of `r` three silent steps after `s`. */
  ghost predicate Opened(s: System, s1: System, s2: System, s3: System, r: RunId, w: WorkerId, pc: Pc) {
    && Takes(s, Drive(w, ReadRun), s1) && Takes(s1, Drive(w, CloseWindow), s2) && Takes(s2, Drive(w, ReadTrailing), s3)
    && w in s3.procs && s3.procs[w] == Proc(r, pc)
    && s3.db.runs == s.db.runs && s3.db.projects == s.db.projects && s3.db.messages == s.db.messages
    && IsRunning(s.db, r) && !s.db.runs[r].pauseRequested && s.db.runs[r].project in s.db.projects
  }

  lemma AsksAgain(s: System, s1: System, s2: System, s3: System, r: RunId, w: WorkerId) returns (states: seq<System>)
    requires Opened(s, s1, s2, s3, r, w, Ask) && OpenCalls(Rows(s, r)) == []
    ensures Behaviour(states, TakeUp(w, [])) && states[0] == s && GoesOn(states, TakeUp(w, []), r)
  {
    hide Step, Takes, Of, OpenCalls;
    TailSteps(s.db.runs[r], s.db.projects[s.db.runs[r].project], Rows(s, r), []);
    var s4 := Walks.Glance(s3, w, r, Ask, CallModel, Stream);
    states := [s, s1, s2, s3, s4];
    Walks.Steps4(states, TakeUp(w, []));
  }

  lemma RunsSiblings(s: System, s1: System, s2: System, s3: System, r: RunId, w: WorkerId) returns (states: seq<System>)
    requires OpenCalls(Rows(s, r)) != [] && Opened(s, s1, s2, s3, r, w, Exec(OpenCalls(Rows(s, r))))
    ensures var actions := TakeUp(w, OpenCalls(Rows(s, r)));
            Behaviour(states, actions) && states[0] == s && GoesOn(states, actions, r)
  {
    hide Step, Takes, Of, OpenCalls;
    var open := OpenCalls(Rows(s, r));
    TailSteps(s.db.runs[r], s.db.projects[s.db.runs[r].project], Rows(s, r), open);
    var s4 := Walks.Glance(s3, w, r, Exec(open), CheckPause, Ready(open));
    var s5 := Walks.Glance(s4, w, r, Ready(open), StartTool, Tooling(open));
    states := [s, s1, s2, s3, s4, s5];
    FiveSteps(states, TakeUp(w, open));
  }

  lemma EndGood(run: Run, t: seq<Message>, pc: Pc)
    requires Good(run, t, Some(pc)) && pc.ShipEnd?
    ensures run.state == Running && RunOk(run, t) && EndsInDone(t)
  {
    hide RunOk, EndsInDone;
  }

  lemma GoodHere(s: System, r: RunId)
    requires RunsGood(s) && r in s.db.runs
    ensures Good(s.db.runs[r], Rows(s, r), PcOf(s, r))
  {
    hide Good, Of;
  }

  lemma Drives(s: System, r: RunId)
    requires Registered(s) && PcOf(s, r).Some?
    ensures r in s.registry && s.registry[r] in s.procs && s.procs[s.registry[r]] == Proc(r, PcOf(s, r).value)
  {
  }

  lemma PendingShip(s: System, r: RunId)
    requires Inv(s) && r in s.db.runs && AtShipEnd(s, r)
    ensures IsRunning(s.db, r) && s.db.runs[r].project in s.db.projects && r in s.registry
    ensures RunOk(s.db.runs[r], Rows(s, r)) && EndsInDone(Rows(s, r))
    ensures s.registry[r] in s.procs && s.procs[s.registry[r]] == Proc(r, PcOf(s, r).value)
  {
    InvParts(s);
    hide Inv, ClearsGood, RunsGood, Registered, RunOk, EndsInDone, Of, Good, PcOf;
    GoodHere(s, r);
    EndGood(s.db.runs[r], Rows(s, r), PcOf(s, r).value);
    Drives(s, r);
  }

  /** From every state in which a `done` has shipped and its run is about to end with no pause pending: a crash
      there, and after the restart the run goes on. */
  lemma CrashGoesOn(s: System, r: RunId, id: WorkerId) returns (states: seq<System>)
    requires Inv(s) && s.up && r in s.db.runs && AtShipEnd(s, r) && !s.db.runs[r].pauseRequested
    ensures var actions := [Crash, Boot, Start(r, id)] + TakeUp(id, OpenCalls(Rows(s, r)));
            Behaviour(states, actions) && states[0] == s && GoesOn(states, actions, r)
  {
    PendingShip(s, r);
    var s1, s2, s3 := Restarts(s, r, id);
    hide Inv, Takes, Behaviour, Of, RunOk, EndsInDone, OpenCalls, TakeUp, AtShipEnd;
    var a, x := [s, s1, s2, s3], [Crash, Boot, Start(r, id)];
    Walks.Steps3(a, x);
    var b := TakesUp(s3, r, id);
    var y := TakeUp(id, OpenCalls(Rows(s, r)));
    Joined(a, x, b, y, r);
    states := a + b[1..];
  }

  lemma Restarts(s: System, r: RunId, id: WorkerId) returns (s1: System, s2: System, s3: System)
    requires IsRunning(s.db, r)
    ensures Takes(s, Crash, s1) && Takes(s1, Boot, s2) && Takes(s2, Start(r, id), s3)
    ensures s3.db == s.db && id in s3.procs && s3.procs[id] == Proc(r, Top)
  {
    s1 := Next(s, Crash).value;
    s2 := Next(s1, Boot).value;
    s3 := StartStep(s2, r, id).value;
  }

  lemma SameEnding(b: seq<System>, y: seq<Action>, c: seq<System>, z: seq<Action>, r: RunId)
    requires GoesOn(b, y, r) && |c| == |z| + 1 >= 2 && Rows(c[0], r) == Rows(b[0], r)
    requires c[|z|] == b[|y|] && c[|z| - 1] == b[|y| - 1] && z[|z| - 1] == y[|y| - 1]
    ensures GoesOn(c, z, r)
  {
    hide Of, OpenCalls, StartsAction, RunsCall;
  }

  lemma Joined(a: seq<System>, x: seq<Action>, b: seq<System>, y: seq<Action>, r: RunId)
    requires Behaviour(a, x) && Behaviour(b, y) && a[|x|] == b[0] && GoesOn(b, y, r)
    requires Rows(a[0], r) == Rows(b[0], r)
    ensures Behaviour(a + b[1..], x + y) && (a + b[1..])[0] == a[0] && GoesOn(a + b[1..], x + y, r)
  {
    Walks.Lengths(a, x);
    Walks.Lengths(b, y);
    assert |y| >= 1;
    hide Behaviour, Of, GoesOn;
    BehavioursJoin(a, x, b, y);
    SameEnding(b, y, a + b[1..], x + y, r);
  }

  function Troubled(run: Run): Run {
    Awaiting(run, Trouble).(error := Some("failed"))
  }

  lemma FailSteps(run: Run, project: Project, t: seq<Message>, pc: Pc)
    requires pc.ShipEnd? && run.state == Running
    ensures Step(run, project, t, pc, Fail) == Some(Goto(Failing))
    ensures Step(run, project, t, Failing, AwaitTrouble) == Some(Move(OnlyRun(Troubled(run)), Exiting))
  {
  }

  lemma NoCalls(t: seq<Message>)
    ensures FreshCalls(t, AwaitTrouble)
  {
  }

  lemma FailsThere(s: System, r: RunId, w: WorkerId) returns (s1: System, s2: System)
    requires IsRunning(s.db, r) && s.db.runs[r].project in s.db.projects
    requires w in s.procs && s.procs[w].run == r && s.procs[w].pc.ShipEnd?
    ensures Takes(s, Drive(w, Fail), s1) && Takes(s1, Drive(w, AwaitTrouble), s2)
    ensures s2 == s.(db := s2.db, procs := s.procs[w := Proc(r, Exiting)])
    ensures s2.db.runs == s.db.runs[r := Troubled(s.db.runs[r])] && s2.db.messages == s.db.messages
    ensures s2.db.projects.Keys == s.db.projects.Keys
  {
    hide Step, Takes, Of, Awaiting;
    var run, pc := s.db.runs[r], s.procs[w].pc;
    FailSteps(run, s.db.projects[run.project], Rows(s, r), pc);
    NoCalls(Rows(s, r));
    hide FreshCalls;
    s1 := Walks.Glance(s, w, r, pc, Fail, Failing);
    s2 := Walks.Walk(s1, w, r, Failing, AwaitTrouble, Move(OnlyRun(Troubled(run)), Exiting));
    assert s.procs[w := Proc(r, Failing)][w := Proc(r, Exiting)] == s.procs[w := Proc(r, Exiting)];
  }

  lemma Leaves(s: System, r: RunId, w: WorkerId) returns (t: System)
    requires w in s.procs && s.procs[w] == Proc(r, Exiting)
    ensures Takes(s, Drive(w, Exit), t) && t == s.(procs := s.procs - {w}, registry := s.registry - {r})
  {
    t := s.(procs := s.procs - {w}, registry := s.registry - {r});
  }

  lemma ResumedAgain(s: System, r: RunId, id: WorkerId) returns (s1: System, s2: System)
    requires Serving(s) && OneActive(s.db.runs) && r in s.db.runs && s.db.runs[r].state == AwaitingHuman
    requires s.db.runs[r].reason == Some(Trouble) && r !in s.registry && id !in s.procs
    ensures Takes(s, Resume(s.db.runs[r].project, r), s1) && Takes(s1, Start(r, id), s2)
    ensures s2.db == s.db.(runs := s.db.runs[r := Resumed(s.db.runs[r])]) && id in s2.procs && s2.procs[id] == Proc(r, Top)
  {
    ResumeIsOne(s.db.runs, s.db.runs[r].project, r);
    hide ResumeRun;
    s1 := Requested(s, s.db.(runs := ResumeRun(s.db.runs, s.db.runs[r].project)), r);
    s2 := StartStep(s1, r, id).value;
  }

  lemma TroubledIsOne(runs: map<RunId, Run>, r: RunId)
    requires OneActive(runs) && r in runs && runs[r].state == Running
    ensures OneActive(runs[r := Troubled(runs[r])])
  {
  }

  lemma TakenUpAgain(s: System, t: System, r: RunId)
    requires IsRunning(s.db, r) && RunOk(s.db.runs[r], Rows(s, r)) && EndsInDone(Rows(s, r))
    requires s.db.runs[r].project in t.db.projects && t.db.messages == s.db.messages
    requires r in t.db.runs && t.db.runs[r] == Resumed(Troubled(s.db.runs[r]))
    ensures Resumes(t, r) && Rows(t, r) == Rows(s, r)
  {
    hide WellFormed, EndsInDone, Of;
  }

  lemma OneLive(s: System)
    requires Inv(s)
    ensures OneActive(s.db.runs)
  {
  }

  /** The last commit fails, the run is parked, and its worker leaves. */
  lemma LeavesTroubled(s: System, r: RunId, id: WorkerId) returns (s1: System, s2: System, s3: System)
    requires Inv(s) && Serving(s) && r in s.db.runs && AtShipEnd(s, r) && id !in s.procs && r in s.registry
    ensures var w := s.registry[r];
            Takes(s, Drive(w, Fail), s1) && Takes(s1, Drive(w, AwaitTrouble), s2) && Takes(s2, Drive(w, Exit), s3)
    ensures Serving(s3) && id !in s3.procs && r !in s3.registry && OneActive(s3.db.runs)
    ensures s3.db.runs == s.db.runs[r := Troubled(s.db.runs[r])] && s3.db.messages == s.db.messages
    ensures s3.db.projects.Keys == s.db.projects.Keys
  {
    hide Inv, Takes, Of, RunOk, EndsInDone, OneActive, PcOf;
    PendingShip(s, r);
    OneLive(s);
    var w := s.registry[r];
    s1, s2 := FailsThere(s, r, w);
    s3 := Leaves(s2, r, w);
    TroubledIsOne(s.db.runs, r);
  }

  /** And the resume, up to a new worker. */
  lemma Parks(s: System, r: RunId, id: WorkerId) returns (a: seq<System>)
    requires Inv(s) && Serving(s) && r in s.db.runs && AtShipEnd(s, r) && id !in s.procs && r in s.registry
    ensures var w := s.registry[r];
            Behaviour(a, [Drive(w, Fail), Drive(w, AwaitTrouble), Drive(w, Exit), Resume(s.db.runs[r].project, r), Start(r, id)])
    ensures |a| == 6 && a[0] == s && Resumes(a[5], r) && Rows(a[5], r) == Rows(s, r)
    ensures id in a[5].procs && a[5].procs[id] == Proc(r, Top)
  {
    hide Inv, Takes, Behaviour, Of, RunOk, EndsInDone, OneActive, Resumes, PcOf, AtShipEnd;
    PendingShip(s, r);
    var w, p := s.registry[r], s.db.runs[r].project;
    var s1, s2, s3 := LeavesTroubled(s, r, id);
    var s4, s5 := ResumedAgain(s3, r, id);
    TakenUpAgain(s, s5, r);
    a := [s, s1, s2, s3, s4, s5];
    FiveSteps(a, [Drive(w, Fail), Drive(w, AwaitTrouble), Drive(w, Exit), Resume(p, r), Start(r, id)]);
  }

  /** The other way in: the last commit fails, which parks the run, and the operator resumes it. */
  lemma ResumeGoesOn(s: System, r: RunId, id: WorkerId) returns (states: seq<System>)
    requires Inv(s) && Serving(s) && r in s.db.runs && AtShipEnd(s, r) && id !in s.procs && r in s.registry
    ensures var w := s.registry[r];
            var actions := [Drive(w, Fail), Drive(w, AwaitTrouble), Drive(w, Exit), Resume(s.db.runs[r].project, r), Start(r, id)]
                           + TakeUp(id, OpenCalls(Rows(s, r)));
            Behaviour(states, actions) && states[0] == s && GoesOn(states, actions, r)
  {
    var a := Parks(s, r, id);
    var w := s.registry[r];
    var x := [Drive(w, Fail), Drive(w, AwaitTrouble), Drive(w, Exit), Resume(s.db.runs[r].project, r), Start(r, id)];
    Walks.Lengths(a, x);
    hide Inv, Takes, Behaviour, Of, Resumes, OpenCalls, TakeUp, AtShipEnd, GoesOn;
    var b := TakesUp(a[5], r, id);
    Joined(a, x, b, TakeUp(id, OpenCalls(Rows(s, r))), r);
    states := a + b[1..];
  }

  // ---------------------------------------------------------------------------
  // Such a state is reached
  // ---------------------------------------------------------------------------

  /** The worker of an unpaused run stands at `pc`, and nobody is making a request. */
  ghost predicate Stands(s: System, w: WorkerId, r: RunId, pc: Pc) {
    && Serving(s) && w in s.procs && s.procs[w] == Proc(r, pc) && r in s.registry && s.registry[r] == w
    && r in s.db.runs && !s.db.runs[r].pauseRequested && s.db.runs[r].project in s.db.projects
  }

  lemma StepsOn(s: System, w: WorkerId, r: RunId, pc: Pc, a: Act, m: Move) returns (t: System)
    requires Stands(s, w, r, pc) && a != Exit && FreshCalls(Rows(s, r), a)
    requires Step(s.db.runs[r], s.db.projects[s.db.runs[r].project], Rows(s, r), pc, a) == Some(m)
    ensures Takes(s, Drive(w, a), t) && Stands(t, w, r, m.pc)
    ensures Rows(t, r) == RowsAfter(Rows(s, r), s.db.runs[r].project, r, s.db.nextMessage, m.change)
  {
    KeepsFlag(s.db.runs[r], s.db.projects[s.db.runs[r].project], Rows(s, r), pc, a);
    hide Step, Takes, Of, FreshCalls;
    t := Walks.Walk(s, w, r, pc, a, m);
  }

  lemma KeepsFlag(run: Run, project: Project, t: seq<Message>, pc: Pc, a: Act)
    requires Step(run, project, t, pc, a).Some?
    ensures var next := RowAfter(run, Step(run, project, t, pc, a).value.change);
            next.pauseRequested == run.pauseRequested && next.project == run.project
  {
  }

  const SHIPPED := ToolResult("Shipped.", DoneDisplay(""), false)

  function Asking(calls: seq<ToolCall>): NewMessage {
    NewMessage(Assistant, "", calls, [], None, false)
  }

  /** The steps of a run whose first call is a `done` that ships. */
  lemma AskSteps(run: Run, project: Project, t: seq<Message>, calls: seq<ToolCall>)
    requires calls != [] && !run.pauseRequested
    ensures Step(run, project, t, Stream, Reply("", calls, [])) == Some(Move(OnlyRow(Asking(calls)), Count(calls)))
    ensures Step(run, project, t, Count(calls), CountStep) == Some(Move(IncrementRunStep(run), Exec(calls)))
    ensures Step(run, project, t, Exec(calls), CheckPause) == Some(Goto(Ready(calls)))
    ensures Step(run, project, t, Ready(calls), StartTool) == Some(Goto(Tooling(calls)))
  {
  }

  lemma ShipSteps(run: Run, project: Project, t: seq<Message>, calls: seq<ToolCall>)
    requires calls != [] && calls[0].name == "done"
    ensures Step(run, project, t, Tooling(calls), ToolReturns(SHIPPED, [])) == Some(Goto(Settle(calls, SHIPPED)))
    ensures Step(run, project, t, Settle(calls, SHIPPED), ApplyResult(Pushed)) == Some(Goto(ShipClear(calls, "Shipped.")))
    ensures Step(run, project, t, ShipClear(calls, "Shipped."), ClearBoard)
            == Some(Move(ClearPlan(project), ShipRow(calls, "Shipped.")))
    ensures Step(run, project, t, ShipRow(calls, "Shipped."), AppendShipped)
            == Some(Move(OnlyRow(ToolRow(calls[0].id, "Shipped.")), ShipEnd(calls)))
  {
  }

  lemma Speaks(s: System, w: WorkerId, r: RunId, calls: seq<ToolCall>) returns (s1: System, s2: System)
    requires Stands(s, w, r, Stream) && calls != [] && FreshCalls(Rows(s, r), Reply("", calls, []))
    ensures Takes(s, Drive(w, Reply("", calls, [])), s1) && Takes(s1, Drive(w, CountStep), s2)
    ensures Stands(s2, w, r, Exec(calls))
  {
    hide Step, Takes, Of, FreshCalls;
    AskSteps(s.db.runs[r], s.db.projects[s.db.runs[r].project], Rows(s, r), calls);
    s1 := StepsOn(s, w, r, Stream, Reply("", calls, []), Move(OnlyRow(Asking(calls)), Count(calls)));
    AskSteps(s1.db.runs[r], s1.db.projects[s1.db.runs[r].project], Rows(s1, r), calls);
    Unasked(Rows(s1, r));
    s2 := StepsOn(s1, w, r, Count(calls), CountStep, Move(IncrementRunStep(s1.db.runs[r]), Exec(calls)));
  }

  lemma Begins(s: System, w: WorkerId, r: RunId, calls: seq<ToolCall>) returns (s1: System, s2: System)
    requires Stands(s, w, r, Exec(calls)) && calls != []
    ensures Takes(s, Drive(w, CheckPause), s1) && Takes(s1, Drive(w, StartTool), s2)
    ensures Stands(s2, w, r, Tooling(calls))
  {
    Unasked(Rows(s, r));
    hide Step, Takes, Of, FreshCalls;
    AskSteps(s.db.runs[r], s.db.projects[s.db.runs[r].project], Rows(s, r), calls);
    s1 := StepsOn(s, w, r, Exec(calls), CheckPause, Goto(Ready(calls)));
    AskSteps(s1.db.runs[r], s1.db.projects[s1.db.runs[r].project], Rows(s1, r), calls);
    s2 := StepsOn(s1, w, r, Ready(calls), StartTool, Goto(Tooling(calls)));
  }

  lemma Asks(s: System, w: WorkerId, r: RunId, calls: seq<ToolCall>) returns (states: seq<System>, actions: seq<Action>)
    requires Stands(s, w, r, Stream) && calls != [] && FreshCalls(Rows(s, r), Reply("", calls, []))
    ensures Behaviour(states, actions) && states[0] == s && Crash !in actions
    ensures Stands(states[|actions|], w, r, Tooling(calls))
  {
    hide Takes, Behaviour, Stands, Of, FreshCalls;
    var s1, s2 := Speaks(s, w, r, calls);
    var s3, s4 := Begins(s2, w, r, calls);
    states := [s, s1, s2, s3, s4];
    actions := [Drive(w, Reply("", calls, [])), Drive(w, CountStep), Drive(w, CheckPause), Drive(w, StartTool)];
    Walks.Steps4(states, actions);
  }

  lemma Unasked(t: seq<Message>)
    ensures FreshCalls(t, CountStep) && FreshCalls(t, CheckPause) && FreshCalls(t, StartTool)
    ensures FreshCalls(t, ToolReturns(SHIPPED, [])) && FreshCalls(t, ApplyResult(Pushed))
    ensures FreshCalls(t, ClearBoard) && FreshCalls(t, AppendShipped)
  {
  }

  lemma ToolShips(s: System, w: WorkerId, r: RunId, calls: seq<ToolCall>) returns (s1: System, s2: System)
    requires Stands(s, w, r, Tooling(calls)) && calls != [] && calls[0].name == "done"
    ensures Takes(s, Drive(w, ToolReturns(SHIPPED, [])), s1) && Takes(s1, Drive(w, ApplyResult(Pushed)), s2)
    ensures Stands(s2, w, r, ShipClear(calls, "Shipped.")) && Rows(s2, r) == Rows(s, r)
  {
    Unasked(Rows(s, r));
    hide Step, Takes, Of, FreshCalls;
    ShipSteps(s.db.runs[r], s.db.projects[s.db.runs[r].project], Rows(s, r), calls);
    s1 := StepsOn(s, w, r, Tooling(calls), ToolReturns(SHIPPED, []), Goto(Settle(calls, SHIPPED)));
    ShipSteps(s1.db.runs[r], s1.db.projects[s1.db.runs[r].project], Rows(s1, r), calls);
    s2 := StepsOn(s1, w, r, Settle(calls, SHIPPED), ApplyResult(Pushed), Goto(ShipClear(calls, "Shipped.")));
  }

  lemma LastWrites(s: System, w: WorkerId, r: RunId, calls: seq<ToolCall>) returns (s1: System, s2: System)
    requires Stands(s, w, r, ShipClear(calls, "Shipped.")) && calls != [] && calls[0].name == "done"
    requires WellFormed(Rows(s, r)) && OpenCalls(Rows(s, r)) == calls
    ensures Takes(s, Drive(w, ClearBoard), s1) && Takes(s1, Drive(w, AppendShipped), s2)
    ensures Stands(s2, w, r, ShipEnd(calls)) && OpenCalls(Rows(s2, r)) == calls[1..]
  {
    Unasked(Rows(s, r));
    hide Step, Takes, Of, FreshCalls, WellFormed, OpenCalls;
    var board := s.db.projects[s.db.runs[r].project];
    ShipSteps(s.db.runs[r], board, Rows(s, r), calls);
    s1 := StepsOn(s, w, r, ShipClear(calls, "Shipped."), ClearBoard, Move(ClearPlan(board), ShipRow(calls, "Shipped.")));
    ShipSteps(s1.db.runs[r], s1.db.projects[s1.db.runs[r].project], Rows(s1, r), calls);
    var row := ToolRow(calls[0].id, "Shipped.");
    s2 := StepsOn(s1, w, r, ShipRow(calls, "Shipped."), AppendShipped, Move(OnlyRow(row), ShipEnd(calls)));
    AppendResult(Rows(s, r), Stamp(s1.db.nextMessage, s1.db.runs[r].project, r, row), calls);
  }

  lemma ShipsIt(s: System, w: WorkerId, r: RunId, calls: seq<ToolCall>) returns (states: seq<System>, actions: seq<Action>)
    requires Stands(s, w, r, Tooling(calls)) && calls != [] && calls[0].name == "done"
    requires WellFormed(Rows(s, r)) && OpenCalls(Rows(s, r)) == calls
    ensures Behaviour(states, actions) && states[0] == s && Crash !in actions
    ensures var t := states[|actions|]; Stands(t, w, r, ShipEnd(calls)) && OpenCalls(Rows(t, r)) == calls[1..]
  {
    hide Takes, Behaviour, Stands, Of, WellFormed, OpenCalls;
    var s1, s2 := ToolShips(s, w, r, calls);
    var s3, s4 := LastWrites(s2, w, r, calls);
    states := [s, s1, s2, s3, s4];
    actions := [Drive(w, ToolReturns(SHIPPED, [])), Drive(w, ApplyResult(Pushed)), Drive(w, ClearBoard), Drive(w, AppendShipped)];
    Walks.Steps4(states, actions);
  }

  /** A fresh installation comes to the first model call of its first run. */
  lemma ComesToModel(s: System, p: ProjectId) returns (states: seq<System>, actions: seq<Action>)
    requires Initial(s) && p in s.db.projects
    ensures Behaviour(states, actions) && states[0] == s && Crash !in actions
    ensures var t := states[|actions|]; Stands(t, 0, 0, Stream) && |Rows(t, 0)| == 1 && Rows(t, 0)[0].role == User
  {
    var a, x := FirstRun(s, p);
    Reachable(a, x, |x|);
    StrandsFrom(a[|x|], p);
    Walks.Lengths(a, x);
    hide Behaviour, Inv, Of, Initial;
    var b, y := Walks.ReachesModel(a[|x|], 0, 0);
    Walks.Lengths(b, y);
    BehavioursJoin(a, x, b, y);
    states, actions := a + b[1..], x + y;
  }

  lemma FirstCallsFresh(t: seq<Message>, calls: seq<ToolCall>)
    requires |t| == 1 && t[0].role == User && NoDup(Ids(calls))
    ensures FreshCalls(t, Reply("", calls, []))
  {
    assert Init(t) == [];
    assert Asked(t) == [];
  }

  /** From every fresh installation, whatever the model asks for after a `done`, the run comes to its last
      commit with those calls unanswered and no pause pending. */
  lemma ShipEndIsReachable(s: System, p: ProjectId, calls: seq<ToolCall>) returns (states: seq<System>, actions: seq<Action>)
    requires Initial(s) && p in s.db.projects && calls != [] && calls[0].name == "done" && NoDup(Ids(calls))
    ensures Behaviour(states, actions) && states[0] == s && Crash !in actions
    ensures var t := states[|actions|]; Stands(t, 0, 0, ShipEnd(calls)) && OpenCalls(Rows(t, 0)) == calls[1..]
  {
    var a, x := ComesToModel(s, p);
    Walks.Lengths(a, x);
    FirstCallsFresh(Rows(a[|x|], 0), calls);
    hide Behaviour, Inv, Of, Initial, Stands, FreshCalls, OpenCalls;
    var b, y := Asks(a[|x|], 0, 0, calls);
    Walks.Lengths(b, y);
    BehavioursJoin(a, x, b, y);
    var c, z := a + b[1..], x + y;
    Reachable(c, z, |z|);
    AtTool(c[|z|], 0, 0, calls);
    var d, v := ShipsIt(c[|z|], 0, 0, calls);
    Walks.Lengths(d, v);
    BehavioursJoin(c, z, d, v);
    states, actions := c + d[1..], z + v;
  }

  lemma ToolGood(run: Run, t: seq<Message>, calls: seq<ToolCall>)
    requires Good(run, t, Some(Tooling(calls)))
    ensures WellFormed(t) && OpenCalls(t) == calls
  {
    hide WellFormed, OpenCalls;
  }

  lemma AtTool(s: System, w: WorkerId, r: RunId, calls: seq<ToolCall>)
    requires Inv(s) && Stands(s, w, r, Tooling(calls))
    ensures WellFormed(Rows(s, r)) && OpenCalls(Rows(s, r)) == calls
  {
    hide Inv, Of, WellFormed, OpenCalls, Registered, RunsGood, ClearsGood, Good;
    InvParts(s);
    GoodHere(s, r);
    ToolGood(s.db.runs[r], Rows(s, r), calls);
  }

  /** At step `k` the run is about to end as shipped, with these calls open, and yet it goes on. */
  ghost predicate ShippedAndOn(states: seq<System>, actions: seq<Action>, k: nat, r: RunId, open: seq<ToolCall>) {
    && k < |actions| < |states|
    && AtShipEnd(states[k], r) && OpenCalls(Rows(states[k], r)) == open
    && GoesOn(states[k..], actions[k..], r)
  }

  /** So a shipped run that goes on is reached from every fresh installation, with or without calls after
      its `done`: by one crash at the wrong moment. */
  lemma ShippedCanGoOn(s: System, p: ProjectId, calls: seq<ToolCall>)
    requires Initial(s) && p in s.db.projects && calls != [] && calls[0].name == "done" && NoDup(Ids(calls))
    ensures exists states, actions, k :: Behaviour(states, actions) && states[0] == s && ShippedAndOn(states, actions, k, 0, calls[1..])
  {
    hide Behaviour, Inv, Of, Initial, Stands, OpenCalls, AtShipEnd, GoesOn, TakeUp;
    var a, x := ShipEndIsReachable(s, p, calls);
    Walks.Lengths(a, x);
    Reachable(a, x, |x|);
    StandsThere(a[|x|], 0, 0, calls);
    var b := CrashGoesOn(a[|x|], 0, 0);
    var y := [Crash, Boot, Start(0, 0)] + TakeUp(0, OpenCalls(Rows(a[|x|], 0)));
    Walks.Lengths(b, y);
    BehavioursJoin(a, x, b, y);
    var c, z := a + b[1..], x + y;
    assert c[|x|..] == b && z[|x|..] == y;
    assert ShippedAndOn(c, z, |x|, 0, calls[1..]);
  }

  lemma StandsThere(s: System, w: WorkerId, r: RunId, calls: seq<ToolCall>)
    requires Stands(s, w, r, ShipEnd(calls))
    ensures s.up && r in s.db.runs && AtShipEnd(s, r) && !s.db.runs[r].pauseRequested
  {
  }
}
