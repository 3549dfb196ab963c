/** What holds of every behaviour from a fresh start. */
module Promises {
  import opened Prelude
  import opened Transcript
  import opened Store
  import opened Worker
  import opened RunMachine
  import opened RunProofs
  import opened RunTheorems
  import opened Guarantees
  import opened Recovery

  /** A run of the system from a fresh installation. */
  ghost predicate History(states: seq<System>, actions: seq<Action>) {
    Behaviour(states, actions) && Initial(states[0])
  }

  lemma Suffix(states: seq<System>, actions: seq<Action>, i: nat)
    requires History(states, actions) && i <= |actions|
    ensures Behaviour(states[i..], actions[i..]) && Inv(states[i])
  {
    Reachable(states, actions, i);
    forall j | 0 <= j < |actions| - i ensures Takes(states[i..][j], actions[i..][j], states[i..][j + 1]) {
      assert Takes(states[i + j], actions[i + j], states[i + j + 1]);
    }
  }

  /** No step from `i` on lifts the run's pause. */
  ghost predicate Unlifted(actions: seq<Action>, i: nat, r: RunId) {
    forall j :: i <= j < |actions| ==> !Lifts(actions[j], r)
  }

  lemma UnliftedSuffix(actions: seq<Action>, i: nat, r: RunId)
    requires i <= |actions| && Unlifted(actions, i, r)
    ensures forall j :: 0 <= j < |actions[i..]| ==> !Lifts(actions[i..][j], r)
  {
    hide Lifts;
    forall j | 0 <= j < |actions[i..]| ensures !Lifts(actions[i..][j], r) {
      assert actions[i..][j] == actions[i + j];
    }
  }

  /** After a pause request commits, the run starts at most one more model call or tool until a resume
      or an answer lifts the pause, wherever its worker was, through crashes, restarts and approvals. */
  lemma PauseHolds(states: seq<System>, actions: seq<Action>, i: nat, r: RunId)
    requires History(states, actions) && i < |actions| && IsRunning(states[i].db, r)
    requires actions[i] == Pause(states[i].db.runs[r].project)
    requires Unlifted(actions, i + 1, r)
    ensures Starts(states[i + 1..], actions[i + 1..], r) <= 1
  {
    hide History, Inv, Starts, Takes, Budget, Left, Next, Behaviour, Unlifted, Lifts;
    Lengths(states, actions);
    Suffix(states, actions, i);
    Suffix(states, actions, i + 1);
    UnliftedSuffix(actions, i + 1, r);
    Taken(states, actions, i);
    PauseSets(states[i], states[i].db.runs[r].project, states[i + 1], r);
    PauseBounds(states[i + 1..], actions[i + 1..], r);
  }

  lemma Taken(states: seq<System>, actions: seq<Action>, i: nat)
    requires History(states, actions) && i < |actions|
    ensures Takes(states[i], actions[i], states[i + 1])
  {
  }

  /** No step from `i` on approves or revises the run's plan. */
  ghost predicate Unanswered(states: seq<System>, actions: seq<Action>, i: nat, r: RunId)
    requires |states| == |actions| + 1
  {
    forall j :: i <= j < |actions| ==> !Answers(states[j], actions[j], r)
  }

  /** Between the commit that gates a run and the approval or revision that releases it, the run starts
      nothing, its row and rows do not change, and its draft stands on the board. */
  lemma GateStands(states: seq<System>, actions: seq<Action>, i: nat, r: RunId)
    requires History(states, actions) && i <= |actions|
    requires r in states[i].db.runs && states[i].db.runs[r].AwaitingPlan()
    requires Unanswered(states, actions, i, r)
    ensures Starts(states[i..], actions[i..], r) == 0
    ensures var t := states[|actions|];
            && r in t.db.runs && t.db.runs[r] == states[i].db.runs[r] && Rows(t, r) == Rows(states[i], r)
            && t.db.runs[r].project in t.db.projects && t.db.projects[t.db.runs[r].project].board.AwaitingApproval()
  {
    Suffix(states, actions, i);
    hide Inv, Starts, Behaviour, Answers;
    GateHolds(states[i..], actions[i..], r);
  }

  /** A call whose result row is durable is never started again. */
  lemma AnsweredStaysDone(states: seq<System>, actions: seq<Action>, i: nat, n: nat, r: RunId, c: CallId)
    requires History(states, actions) && i <= n < |actions|
    requires r in states[i].db.runs && c in Answered(Rows(states[i], r))
    ensures !RunsCall(states[n], actions[n], r, c)
  {
    Suffix(states, actions, i);
    hide Inv, Behaviour, RunsCall, Answered;
    AnsweredNeverRuns(states[i..], actions[i..], r, c);
    assert states[i..][n - i] == states[n] && actions[i..][n - i] == actions[n];
  }

  /** The number of unanswered calls of a run grows only when its worker stores a model's turn. */
  lemma OpenGrows(states: seq<System>, actions: seq<Action>, n: nat, r: RunId)
    requires History(states, actions) && n < |actions| && r in states[n].db.runs && r in states[n + 1].db.runs
    requires |Open(Rows(states[n + 1], r))| > |Open(Rows(states[n], r))|
    ensures DrivenBy(states[n], actions[n], r) && actions[n].act.Reply?
  {
    Suffix(states, actions, n);
    hide Inv, Open;
    Taken(states, actions, n);
    OpenGrowsByReply(states[n], actions[n], states[n + 1], r);
  }

  /** Once the final text turn of a run is stored, the run starts nothing more, and gets no further row
      while its row exists, through any crashes, pauses, resumes and clears. */
  lemma FinalTurnStands(states: seq<System>, actions: seq<Action>, i: nat, r: RunId)
    requires History(states, actions) && i <= |actions|
    requires r in states[i].db.runs && Terminal(Rows(states[i], r))
    ensures Starts(states[i..], actions[i..], r) == 0
    ensures r in states[|actions|].db.runs ==> Rows(states[|actions|], r) == Rows(states[i], r)
  {
    Suffix(states, actions, i);
    hide Inv, Starts, Behaviour, Terminal, Rows;
    TerminalIsFinal(states[i..], actions[i..], r);
  }

  lemma EndedOneStep(states: seq<System>, actions: seq<Action>, n: nat, r: RunId)
    requires History(states, actions) && n < |actions| && r in states[n].db.runs && r in states[n + 1].db.runs
    requires states[n].db.runs[r].state == Idle || states[n].db.runs[r].state == Done
    ensures states[n + 1].db.runs[r] == states[n].db.runs[r] && Rows(states[n + 1], r) == Rows(states[n], r)
  {
    Suffix(states, actions, n);
    Taken(states, actions, n);
    hide Inv, Takes, Behaviour, Of;
    EndedStays(states[n], actions[n], states[n + 1], r);
  }

  lemma Lengths(states: seq<System>, actions: seq<Action>)
    requires History(states, actions)
    ensures |states| == |actions| + 1
  {
  }

  /** A row that was cleared does not come back. */
  lemma GoneForever(states: seq<System>, actions: seq<Action>, i: nat, n: nat, r: RunId)
    requires History(states, actions) && i <= n < |states| && r in states[i].db.runs && r in states[n].db.runs
    ensures forall j :: i <= j <= n ==> r in states[j].db.runs
  {
    forall j | i <= j <= n ensures r in states[j].db.runs {
      UsedAt(states, actions, i, j, r);
      if r !in states[j].db.runs {
        AbsentAt(states, actions, j, n, r);
      }
    }
  }

  lemma {:induction false} UsedAt(states: seq<System>, actions: seq<Action>, i: nat, j: nat, r: RunId)
    requires History(states, actions) && i <= j < |states| && r in states[i].db.runs
    ensures r in states[j].used
  {
    Lengths(states, actions);
    if i < j {
      UsedAt(states, actions, i, j - 1, r);
      Taken(states, actions, j - 1);
      hide History, Takes;
      UsedGrows(states[j - 1], actions[j - 1], states[j]);
    } else {
      Suffix(states, actions, i);
      InvParts(states[i]);
    }
  }

  lemma {:induction false} AbsentAt(states: seq<System>, actions: seq<Action>, j: nat, n: nat, r: RunId)
    requires History(states, actions) && j <= n < |states| && r in states[j].used && r !in states[j].db.runs
    ensures r in states[n].used && r !in states[n].db.runs
  {
    hide Initial, Takes;
    if j < n {
      AbsentAt(states, actions, j, n - 1, r);
      Reachable(states, actions, n - 1);
      InvParts(states[n - 1]);
      hide Inv;
      assert Takes(states[n - 1], actions[n - 1], states[n - 1 + 1]);
      GoneStays(states[n - 1], actions[n - 1], states[n], r);
    }
  }

  /** A run that has ended stays as it is for as long as its row exists. */
  lemma {:induction false} EndedForever(states: seq<System>, actions: seq<Action>, i: nat, n: nat, r: RunId)
    requires History(states, actions) && i <= n < |states| && r in states[i].db.runs && r in states[n].db.runs
    requires states[i].db.runs[r].state == Idle || states[i].db.runs[r].state == Done
    ensures states[n].db.runs[r] == states[i].db.runs[r] && Rows(states[n], r) == Rows(states[i], r)
  {
    hide History, Of;
    if i < n {
      GoneForever(states, actions, i, n, r);
      EndedForever(states, actions, i, n - 1, r);
      Lengths(states, actions);
      EndedOneStep(states, actions, n - 1, r);
    }
  }

  /** The two updates without a state guard are only ever issued against a Running row. */
  lemma UnguardedIsSafe(states: seq<System>, actions: seq<Action>, n: nat, r: RunId)
    requires History(states, actions) && n < |actions| && DrivenBy(states[n], actions[n], r)
    requires actions[n].act == FinishIdle || actions[n].act == FinishDone || actions[n].act == CountStep
    ensures IsRunning(states[n].db, r) && states[n].db.runs[r].reason == None && !states[n].db.runs[r].finished
  {
    Suffix(states, actions, n);
    Taken(states, actions, n);
    InvParts(states[n]);
    hide Inv;
    UnguardedMeetRunning(states[n], actions[n], states[n + 1], r);
  }

  lemma InvParts(s: System)
    requires Inv(s)
    ensures Known(s) && Registered(s) && RunsGood(s) && ClearsGood(s) && RunKeys(s.db)
  {
  }

  /** No step, and no clear in particular, deletes the row of a live run. */
  lemma LiveIsKept(states: seq<System>, actions: seq<Action>, n: nat, r: RunId)
    requires History(states, actions) && n < |actions| && r in states[n].db.runs && states[n].db.runs[r].Active()
    ensures r in states[n + 1].db.runs
  {
    Suffix(states, actions, n);
    Taken(states, actions, n);
    InvParts(states[n]);
    hide Inv, Takes;
    LiveStays(states[n], actions[n], states[n + 1], r);
  }

  // ---------------------------------------------------------------------------
  // Stranded runs
  // ---------------------------------------------------------------------------

  /** The start of a Running run gives it a worker that will read its row exactly when no worker of the
      run is past its last durable read at that moment. */
  lemma StartDrives(states: seq<System>, actions: seq<Action>, n: nat, r: RunId, id: WorkerId)
    requires History(states, actions) && n < |actions| && actions[n] == Start(r, id) && IsRunning(states[n].db, r)
    ensures IsRunning(states[n + 1].db, r)
    ensures Live(states[n + 1], r) <==> PcOf(states[n], r) != Some(Exiting)
    ensures r in states[n + 1].refused <==> PcOf(states[n], r) == Some(Exiting)
  {
    Suffix(states, actions, n);
    Taken(states, actions, n);
    DrivenParts(states[n]);
    StartTaken(states[n], r, id, states[n + 1]);
    hide Inv, Takes, Registered, Driven;
    StartDrivesIff(states[n], r, id);
  }

  lemma StartTaken(s: System, r: RunId, id: WorkerId, t: System)
    requires Takes(s, Start(r, id), t)
    ensures s.up && r in s.starts && id !in s.procs && Next(s, Start(r, id)) == Some(t)
  {
  }

  /** The same for the request and the start it makes: a first message, an answer, a resume, an approval
      or a revision. */
  lemma ReleaseDrives(states: seq<System>, actions: seq<Action>, n: nat, r: RunId, id: WorkerId)
    requires History(states, actions) && n + 1 < |actions| && Releases(actions[n], r) && actions[n + 1] == Start(r, id)
    ensures IsRunning(states[n + 2].db, r)
    ensures Live(states[n + 2], r) <==> PcOf(states[n], r) != Some(Exiting)
    ensures r in states[n + 2].refused <==> PcOf(states[n], r) == Some(Exiting)
  {
    Suffix(states, actions, n);
    Taken(states, actions, n);
    Taken(states, actions, n + 1);
    InvParts(states[n]);
    ReleaseTaken(states[n], actions[n], states[n + 1], r);
    hide Inv, Takes, PcOf;
    StartDrives(states, actions, n + 1, r, id);
  }

  lemma ReleaseTaken(s: System, a: Action, t: System, r: RunId)
    requires RunKeys(s.db) && Takes(s, a, t) && Releases(a, r)
    ensures IsRunning(t.db, r) && PcOf(t, r) == PcOf(s, r)
  {
    ReleasesRun(s, a, r);
  }

  /** No start of the run is made at a step from `i` up to `n`. */
  predicate NotStarted(actions: seq<Action>, i: nat, n: nat, r: RunId) {
    forall j :: i <= j < n <= |actions| ==> !(actions[j].Start? && actions[j].r == r)
  }

  lemma StaysOut(s: System, a: Action, t: System, r: RunId)
    requires Inv(s) && Takes(s, a, t) && !(a.Start? && a.r == r) && (r !in s.registry || a == Boot)
    ensures r !in t.registry
  {
    DrivenParts(s);
    hide Inv, Registered, Step, Of, Commit, CreateRun, ApprovePlan, RevisePlan, Cleared, Blocked;
  }

  lemma {:induction false} OutSinceBoot(states: seq<System>, actions: seq<Action>, m: nat, n: nat, r: RunId)
    requires History(states, actions) && m < n <= |actions| && actions[m] == Boot && NotStarted(actions, m, n, r)
    ensures r !in states[n].registry
  {
    if m < n - 1 {
      OutSinceBoot(states, actions, m, n - 1, r);
    }
    Suffix(states, actions, n - 1);
    Taken(states, actions, n - 1);
    hide Inv, Takes, History;
    StaysOut(states[n - 1], actions[n - 1], states[n], r);
  }

  /** After a boot the first start of a Running run gives it a worker. */
  lemma BootDrives(states: seq<System>, actions: seq<Action>, m: nat, n: nat, r: RunId, id: WorkerId)
    requires History(states, actions) && m < n < |actions| && actions[m] == Boot && NotStarted(actions, m, n, r)
    requires actions[n] == Start(r, id) && IsRunning(states[n].db, r)
    ensures Live(states[n + 1], r)
  {
    OutSinceBoot(states, actions, m, n, r);
    StartDrives(states, actions, n, r, id);
  }

  /** The run is Running and no worker of it will read its row, in every state from `i` on. */
  ghost predicate Strands(states: seq<System>, i: nat, r: RunId) {
    forall m :: i <= m < |states| ==> IsRunning(states[m].db, r) && !Live(states[m], r)
  }

  /** A Running run is stranded by its start, for as long as the process lives and whatever the operator
      does, exactly when its worker was past its last durable read. */
  lemma StrandedIff(states: seq<System>, actions: seq<Action>, n: nat, r: RunId, id: WorkerId)
    requires History(states, actions) && n < |actions| && actions[n] == Start(r, id) && IsRunning(states[n].db, r)
    requires Crash !in actions[n + 1..]
    ensures Strands(states, n + 1, r) <==> PcOf(states[n], r) == Some(Exiting)
    ensures PcOf(states[n], r) == Some(Exiting) ==> Starts(states[n + 1..], actions[n + 1..], r) == 0
  {
    Lengths(states, actions);
    StartDrives(states, actions, n, r, id);
    hide History, Live, PcOf, IsRunning, Starts;
    if r in states[n + 1].refused {
      forall m | n + 1 <= m < |states| ensures IsRunning(states[m].db, r) && !Live(states[m], r) {
        StrandedAt(states, actions, n + 1, m, r);
      }
      StrandedForever(states, actions, n + 1, r);
    }
  }

  lemma {:induction false} StrandedAt(states: seq<System>, actions: seq<Action>, i: nat, m: nat, r: RunId)
    requires History(states, actions) && i <= m <= |actions| && r in states[i].refused && Crash !in actions[i..]
    ensures r in states[m].refused && IsRunning(states[m].db, r) && !Live(states[m], r)
  {
    Lengths(states, actions);
    hide Inv, Initial, Takes, Live, IsRunning, Behaviour;
    if i < m {
      StrandedAt(states, actions, i, m - 1, r);
      Suffix(states, actions, m - 1);
      Suffix(states, actions, m);
      Taken(states, actions, m - 1);
      hide History;
      assert actions[m - 1] == actions[i..][m - 1 - i];
      StaysRefused(states[m - 1], actions[m - 1], states[m], r);
    } else {
      Suffix(states, actions, m);
      RefusedIsIdle(states[m], r);
    }
  }

  lemma RefusedIsIdle(s: System, r: RunId)
    requires Inv(s) && r in s.refused
    ensures IsRunning(s.db, r) && !Live(s, r)
  {
    DrivenParts(s);
  }

  lemma StaysRefused(s: System, a: Action, t: System, r: RunId)
    requires Inv(s) && Inv(t) && Takes(s, a, t) && r in s.refused && a != Crash
    ensures r in t.refused && IsRunning(t.db, r) && !Live(t, r)
  {
    DrivenParts(s);
    hide Inv, Registered, Driven, Takes, Live, IsRunning;
    RefusedStep(s, a, t, r);
    RefusedIsIdle(t, r);
  }

  /** And for a request with the start it makes: the caller can tell from the run's worker at the request. */
  lemma ReleaseStrandsIff(states: seq<System>, actions: seq<Action>, n: nat, r: RunId, id: WorkerId)
    requires History(states, actions) && n + 1 < |actions| && Releases(actions[n], r) && actions[n + 1] == Start(r, id)
    requires Crash !in actions[n + 2..]
    ensures Strands(states, n + 2, r) <==> PcOf(states[n], r) == Some(Exiting)
  {
    Suffix(states, actions, n);
    Taken(states, actions, n);
    InvParts(states[n]);
    ReleaseTaken(states[n], actions[n], states[n + 1], r);
    hide History, Inv, Takes, PcOf, Strands, Registered, RunsGood, ClearsGood, Releases;
    StrandedIff(states, actions, n + 1, r, id);
  }

  /** A run whose start was refused by a worker past its last durable read stays Running, undriven and
      idle until the process dies. */
  lemma StrandedForever(states: seq<System>, actions: seq<Action>, i: nat, r: RunId)
    requires History(states, actions) && i <= |actions| && r in states[i].refused && Crash !in actions[i..]
    ensures var t := states[|actions|]; r in t.refused && IsRunning(t.db, r) && !Live(t, r)
    ensures Starts(states[i..], actions[i..], r) == 0
  {
    Suffix(states, actions, i);
    hide Inv, Starts, Behaviour;
    Stranded(states[i..], actions[i..], r);
  }
}
