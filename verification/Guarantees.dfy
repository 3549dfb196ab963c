/** What every behaviour keeps, whatever falls in between. */
module Guarantees {
  import opened Prelude
  import opened Text
  import opened Transcript
  import opened Store
  import opened Worker
  import opened WorkerProofs
  import opened RunMachine
  import opened RunProofs
  import opened RunTheorems
  import opened Requests

  // ---------------------------------------------------------------------------
  // Requests
  // ---------------------------------------------------------------------------

  lemma ContextOf(ms: seq<Message>, p: ProjectId, r: RunId)
    requires forall m :: m in ms && m.run == Some(r) ==> m.project == p
    ensures Of(Context(ms, p), r) == Of(ms, r)
  {
    if ms != [] {
      var m := Last(ms);
      assert m in ms;
      ContextOf(Init(ms), p, r);
      if m.project == p {
        OfAppend(Context(Init(ms), p), m, r);
      }
    }
  }

  /** Some row of the project carries this tag. */
  ghost predicate Origin(ms: seq<Message>, p: ProjectId, run: Option<RunId>) {
    exists m :: m in ms && m.project == p && m.run == run
  }

  lemma ContextRuns(ms: seq<Message>, p: ProjectId)
    ensures forall i :: 0 <= i < |TaggedRequest(Context(ms, p))| ==> Origin(ms, p, TaggedRequest(Context(ms, p))[i].run)
  {
    if ms != [] {
      ContextRuns(Init(ms), p);
      var m, xs, zs := Last(ms), TaggedRequest(Context(Init(ms), p)), TaggedRequest(Context(ms, p));
      assert forall run :: Origin(Init(ms), p, run) ==> Origin(ms, p, run);
      if m.project == p {
        assert Init(Context(ms, p)) == Context(Init(ms), p);
        var ys := Tag(m.run, Expand(ToTurn(m)));
        assert zs == xs + ys;
        assert Origin(ms, p, m.run);
        forall i | 0 <= i < |zs| ensures Origin(ms, p, zs[i].run) {
          assert zs[i] == if i < |xs| then xs[i] else ys[i - |xs|];
        }
      }
    }
  }

  /** The items a request of run `r` sends, each with the run it came from. */
  function RequestOf(db: Db, r: RunId): seq<Tagged>
    requires r in db.runs
  {
    TaggedRequest(Context(db.messages, db.runs[r].project))
  }

  /** An earlier run of the project is paired too, but for one kind: a run that shipped leaves
      the calls its model put after `done` in the same turn without output. */
  ghost predicate EarlierPaired(db: Db, xs: seq<Tagged>, q: RunId)
    requires q in db.runs
  {
    || (db.runs[q].state == Idle && PairedExcept(xs, q, []))
    || (db.runs[q].state == Done && EndsInDone(Of(db.messages, q)) && PairedExcept(xs, q, Ids(OpenCalls(Of(db.messages, q)))))
  }

  ghost predicate KnownRun(db: Db, p: ProjectId, run: Option<RunId>) {
    run.Some? && run.value in db.runs && db.runs[run.value].project == p
  }

  /** Every function call has exactly one output and it comes later; no output lacks an earlier
      call; every item belongs to this run or to an earlier one of the project. */
  ghost predicate RequestPaired(db: Db, r: RunId)
    requires r in db.runs
  {
    var xs, p := RequestOf(db, r), db.runs[r].project;
    && (forall i :: 0 <= i < |xs| ==> KnownRun(db, p, xs[i].run))
    && PairedExcept(xs, r, [])
    && forall q :: q in db.runs && q != r && db.runs[q].project == p ==> EarlierPaired(db, xs, q)
  }

  /** What a run's own invariant says about its part of any request of its project. */
  lemma RunIsPaired(db: Db, q: RunId)
    requires SameProject(db) && q in db.runs && RunOk(db.runs[q], Of(db.messages, q))
    ensures var xs, t := RequestOf(db, q), Of(db.messages, q);
            && PairedExcept(xs, q, Open(t))
            && Ids(OpenCalls(t)) == Open(t)
            && (db.runs[q].state == Idle ==> Open(t) == [])
  {
    var p, t := db.runs[q].project, Of(db.messages, q);
    ContextOf(db.messages, p, q);
    RequestPairs(Context(db.messages, p), q);
    OpenIsTail(t);
    if db.runs[q].state == Idle {
      TerminalIsClosed(t);
    }
  }

  lemma EarlierIsPaired(db: Db, r: RunId, q: RunId)
    requires SameProject(db) && OneActive(db.runs) && r in db.runs && db.runs[r].Active()
    requires q in db.runs && q != r && db.runs[q].project == db.runs[r].project && RunOk(db.runs[q], Of(db.messages, q))
    ensures EarlierPaired(db, RequestOf(db, r), q)
  {
    RunIsPaired(db, q);
    assert !db.runs[q].Active();
  }

  lemma RequestKnown(db: Db, r: RunId)
    requires SameProject(db) && MessageKeys(db) && r in db.runs
    ensures var xs, p := RequestOf(db, r), db.runs[r].project;
            forall i :: 0 <= i < |xs| ==> KnownRun(db, p, xs[i].run)
  {
    var xs, p := RequestOf(db, r), db.runs[r].project;
    ContextRuns(db.messages, p);
    forall i | 0 <= i < |xs| ensures KnownRun(db, p, xs[i].run) {
      assert Origin(db.messages, p, xs[i].run);
    }
  }

  lemma RequestIsPaired(db: Db, r: RunId)
    requires Schema(db) && r in db.runs && db.runs[r].Active() && Open(Of(db.messages, r)) == []
    requires forall q :: q in db.runs ==> RunOk(db.runs[q], Of(db.messages, q))
    ensures RequestPaired(db, r)
  {
    RequestKnown(db, r);
    RunIsPaired(db, r);
    forall q | q in db.runs && q != r && db.runs[q].project == db.runs[r].project
      ensures EarlierPaired(db, RequestOf(db, r), q)
    {
      EarlierIsPaired(db, r, q);
    }
  }

  lemma CallsAtAsk(s: System, a: Action, s': System)
    requires Registered(s) && Next(s, a) == Some(s') && a.Drive? && a.act == CallModel
    ensures a.w in s.procs && s.procs[a.w].run in s.db.runs && PcOf(s, s.procs[a.w].run) == Some(Ask)
  {
  }

  /** Every primary model request of every behaviour is paired. */
  lemma EveryRequestIsPaired(states: seq<System>, actions: seq<Action>, n: nat)
    requires Behaviour(states, actions) && Initial(states[0])
    requires n < |actions| && actions[n].Drive? && actions[n].act == CallModel
    ensures var s, w := states[n], actions[n].w;
            && w in s.procs && s.procs[w].run in s.db.runs && RequestPaired(s.db, s.procs[w].run)
            && var xs, items := RequestOf(s.db, s.procs[w].run),
                                Request(ToTurns(Context(s.db.messages, s.db.runs[s.procs[w].run].project)));
               |xs| == |items| && forall i :: 0 <= i < |xs| ==> xs[i].item == items[i]
  {
    hide Next, Step, Of, Context, TaggedRequest, Request, RequestPaired, ClearsGood, BoardsGood;
    Reachable(states, actions, n);
    var s, w := states[n], actions[n].w;
    assert Takes(s, actions[n], states[n + 1]);
    CallsAtAsk(s, actions[n], states[n + 1]);
    var r := s.procs[w].run;
    assert Good(s.db.runs[r], Of(s.db.messages, r), PcOf(s, r));
    assert forall q :: q in s.db.runs ==> Good(s.db.runs[q], Of(s.db.messages, q), PcOf(s, q));
    RequestIsPaired(s.db, r);
    TaggedIsRequest(Context(s.db.messages, s.db.runs[r].project));
  }

  lemma BehaviourPrefix(states: seq<System>, actions: seq<Action>, n: nat)
    requires Behaviour(states, actions) && n <= |actions|
    ensures Behaviour(states[..n + 1], actions[..n])
  {
    forall i | 0 <= i < n ensures Takes(states[..n + 1][i], actions[..n][i], states[..n + 1][i + 1]) {
      assert Takes(states[i], actions[i], states[i + 1]);
    }
  }

  // ---------------------------------------------------------------------------
  // Counting top-level actions
  // ---------------------------------------------------------------------------

  function Starts(states: seq<System>, actions: seq<Action>, r: RunId): nat
    requires |states| == |actions| + 1
  {
    if actions == [] then 0
    else
      var n := |actions| - 1;
      Starts(states[..n + 1], actions[..n], r) + if StartsAction(states[n], actions[n], r) then 1 else 0
  }

  /** The worker has read a clear pause flag and may start one action without reading it again. */
  predicate Armed(pc: Option<Pc>) {
    pc.Some? && (pc.value == Begin || pc.value == Trail || pc.value == Ask || pc.value.Ready?)
  }

  function Budget(s: System, r: RunId): nat {
    if Armed(PcOf(s, r)) then 1 else 0
  }

  /** With the flag set, each step of the loop pays for the action it starts. */
  lemma PauseMove(run: Run, project: Project, t: seq<Message>, pc: Pc, a: Act)
    requires run.pauseRequested && Step(run, project, t, pc, a).Some?
    ensures (if a == CallModel || a == StartTool then 1 else 0) + (if Armed(Some(Step(run, project, t, pc, a).value.pc)) then 1 else 0)
            <= if Armed(Some(pc)) then 1 else 0
  {
  }

  lemma PauseStep(s: System, a: Action, s': System, r: RunId)
    requires Registered(s) && RunKeys(s.db) && Takes(s, a, s') && r in s.db.runs && s.db.runs[r].pauseRequested
    ensures (if StartsAction(s, a, r) then 1 else 0) + Budget(s', r) <= Budget(s, r)
  {
    if DrivenBy(s, a, r) {
      var m, project := OwnStep(s, a, s', r);
      if a.act != Exit {
        PauseMove(s.db.runs[r], project, Rows(s, r), s.procs[a.w].pc, a.act);
      }
    } else {
      TouchPc(s, a, s', r);
    }
  }

  lemma FlagMove(run: Run, project: Project, t: seq<Message>, pc: Pc, a: Act)
    requires Step(run, project, t, pc, a).Some?
    ensures RowAfter(run, Step(run, project, t, pc, a).value.change).pauseRequested == run.pauseRequested
  {
  }

  /** The request takes the pause away: a resume of the run, or an answer to its question. */
  predicate Lifts(a: Action, r: RunId) {
    (a.Resume? || a.Answer?) && a.r == r
  }

  /** Where it does not lift it, a step of anyone leaves a flag that is set. */
  lemma FlagStays(s: System, a: Action, s': System, r: RunId)
    requires Registered(s) && Schema(s.db) && ClearsGood(s)
    requires Takes(s, a, s') && r in s.db.runs && r in s'.db.runs && s.db.runs[r].pauseRequested
    requires !Lifts(a, r)
    ensures s'.db.runs[r].pauseRequested
  {
    if DrivenBy(s, a, r) {
      var m, project := OwnStep(s, a, s', r);
      if a.act != Exit {
        FlagMove(s.db.runs[r], project, Rows(s, r), s.procs[a.w].pc, a.act);
      }
    } else if a.Resume? {
      ResumeLifts(s, a.p, a.r);
    } else {
      Touch(s, a, s', r);
    }
  }

  /** A flag that is set is cleared exactly by a resume of the run or an answer to its question. */
  lemma FlagStep(s: System, a: Action, s': System, r: RunId)
    requires Registered(s) && Schema(s.db) && ClearsGood(s)
    requires Takes(s, a, s') && r in s.db.runs && r in s'.db.runs && s.db.runs[r].pauseRequested
    ensures s'.db.runs[r].pauseRequested <==> !Lifts(a, r)
  {
    if Lifts(a, r) {
      hide Next, ClearsGood, Registered;
      LetsGoRow(s, a, r);
    } else {
      FlagStays(s, a, s', r);
    }
  }

  /** A run whose row was cleared never comes back and starts nothing. */
  lemma GoneStays(s: System, a: Action, s': System, r: RunId)
    requires Registered(s) && RunsGood(s) && RunKeys(s.db) && Takes(s, a, s') && r in s.used && r !in s.db.runs
    ensures r !in s'.db.runs && r in s'.used && !StartsAction(s, a, r)
  {
    hide Step, Of, Commit, Good;
    if a.Drive? && a.act != Exit && s.procs[a.w].run in s.db.runs {
      var q := s.procs[a.w].run;
      CommitShape(s.db, q, Step(s.db.runs[q], s.db.projects[s.db.runs[q].project], Rows(s, q), s.procs[a.w].pc, a.act).value.change);
    } else if a.Answer? {
      CommitShape(s.db, a.r, AppendAnswerAndResume(s.db.runs[a.r], Trim(a.text)).value);
    }
  }

  /** What is left to spend: nothing once the row is gone. */
  function Left(s: System, r: RunId): nat {
    if r in s.db.runs then Budget(s, r) else 0
  }

  lemma PauseSpends(s: System, a: Action, s': System, r: RunId)
    requires Inv(s) && Takes(s, a, s') && r in s.used && (r in s.db.runs ==> s.db.runs[r].pauseRequested) && !Lifts(a, r)
    ensures r in s'.used && (r in s'.db.runs ==> r in s.db.runs && s'.db.runs[r].pauseRequested)
    ensures (if StartsAction(s, a, r) then 1 else 0) + Left(s', r) <= Left(s, r)
  {
    hide Takes, Schema, ClearsGood, BoardsGood, Driven, Budget, Lifts, StartsAction;
    UsedGrows(s, a, s');
    assert RunKeys(s.db) by { SchemaKeys(s.db); }
    if r in s.db.runs {
      PauseStep(s, a, s', r);
      if r in s'.db.runs {
        FlagStep(s, a, s', r);
      }
    } else {
      GoneStays(s, a, s', r);
    }
  }

  lemma SchemaKeys(db: Db)
    requires Schema(db)
    ensures RunKeys(db)
  {
  }

  lemma UsedGrows(s: System, a: Action, s': System)
    requires Takes(s, a, s')
    ensures s.used <= s'.used
  {
    hide Step, Of, Commit, CreateRun, ApprovePlan, RevisePlan, Cleared, Blocked;
  }

  /** From any state in which the flag is set, as long as no resume or answer lifts it, at most one
      further action starts, and none unless the worker was already past its check. Crashes, restarts,
      plan approvals and a clear in between change nothing. */
  lemma {:induction false} PauseBounds(states: seq<System>, actions: seq<Action>, r: RunId)
    requires Behaviour(states, actions) && Inv(states[0])
    requires r in states[0].db.runs && states[0].db.runs[r].pauseRequested
    requires forall i :: 0 <= i < |actions| ==> !Lifts(actions[i], r)
    ensures Starts(states, actions, r) + Left(states[|actions|], r) <= Budget(states[0], r)
    ensures var t := states[|actions|]; Inv(t) && r in t.used && (r in t.db.runs ==> t.db.runs[r].pauseRequested)
  {
    if actions == [] {
      assert Known(states[0]);
    } else {
      var n := |actions| - 1;
      var ss, steps := states[..n + 1], actions[..n];
      BehaviourPrefix(states, actions, n);
      PauseBounds(ss, steps, r);
      assert ss[n] == states[n];
      assert Takes(states[n], actions[n], states[n + 1]);
      hide Takes, Inv, Budget, Left, StartsAction, Lifts;
      PauseSpends(states[n], actions[n], states[n + 1], r);
      NextKeeps(states[n], actions[n]);
    }
  }

  /** A pause request sets the flag of the project's Running run, so the bound holds from the
      moment it commits. */
  lemma PauseSets(s: System, p: ProjectId, s': System, r: RunId)
    requires Inv(s) && Takes(s, Pause(p), s') && IsRunning(s.db, r) && s.db.runs[r].project == p
    ensures r in s'.db.runs && s'.db.runs[r].pauseRequested && Inv(s') && Budget(s', r) <= 1
  {
    hide Inv, Budget, Takes;
    PauseFlag(s, p, s', r);
    PauseKeepsInv(s, p, s');
  }

  lemma PauseFlag(s: System, p: ProjectId, s': System, r: RunId)
    requires Takes(s, Pause(p), s') && IsRunning(s.db, r) && s.db.runs[r].project == p
    ensures r in s'.db.runs && s'.db.runs[r].pauseRequested && Budget(s', r) <= 1
  {
  }

  lemma PauseKeepsInv(s: System, p: ProjectId, s': System)
    requires Inv(s) && Takes(s, Pause(p), s')
    ensures Inv(s')
  {
    hide Inv;
    NextKeeps(s, Pause(p));
  }

  // ---------------------------------------------------------------------------
  // The plan gate
  // ---------------------------------------------------------------------------

  /** In every reachable state a project's board is a non-empty draft exactly while one of its
      runs, the only live one, waits for plan approval. */
  lemma DraftIffGated(states: seq<System>, actions: seq<Action>, n: nat, p: ProjectId)
    requires Behaviour(states, actions) && Initial(states[0]) && n < |states| && p in states[n].db.projects
    ensures var db := states[n].db;
            db.projects[p].board.AwaitingApproval() <==>
            exists r :: Gated(db.runs, p, r) && forall q :: q in db.runs && db.runs[q].project == p && db.runs[q].Active() ==> q == r
  {
    Reachable(states, actions, n);
    var db := states[n].db;
    if db.projects[p].board.AwaitingApproval() {
      var r :| Gated(db.runs, p, r);
      assert forall q :: q in db.runs && db.runs[q].project == p && db.runs[q].Active() ==> q == r;
    }
  }

  ghost predicate Answers(s: System, a: Action, r: RunId) {
    (a.Approve? || a.Revise?) && a.r == r
  }

  /** A live run's row is never deleted. */
  lemma LiveStays(s: System, a: Action, s': System, r: RunId)
    requires ClearsGood(s) && RunKeys(s.db) && Takes(s, a, s') && r in s.db.runs && s.db.runs[r].Active()
    ensures r in s'.db.runs
  {
    hide Step, Of, Commit;
    if a.ClearCommit? {
      ClearedRows(s.db, a.p, s.clears[a.p]);
    } else if a.Answer? {
      TouchAnswer(s, a, s', r);
    } else if a.Drive? && s.procs[a.w].run != r {
      TouchDrive(s, a.w, a.act, s', r);
    } else if a.Drive? && a.act != Exit {
      TouchCommit(s.db, r, Step(s.db.runs[r], s.db.projects[s.db.runs[r].project], Rows(s, r), s.procs[a.w].pc, a.act).value.change, r);
    }
  }

  /** A run that is not Running is left alone by its own worker. */
  lemma StillMove(run: Run, project: Project, t: seq<Message>, pc: Pc, a: Act)
    requires PcOk(run, t, pc) && run.state != Running && Step(run, project, t, pc, a).Some?
    ensures Step(run, project, t, pc, a).value.change == NO_CHANGE && a != CallModel && a != StartTool
  {
  }

  /** A gated run stays gated, its rows untouched and nothing started, until an approval or a
      revision. */
  lemma GateStep(s: System, a: Action, s': System, r: RunId)
    requires Registered(s) && Schema(s.db) && ClearsGood(s) && Takes(s, a, s')
    requires r in s.db.runs && s.db.runs[r].AwaitingPlan() && Good(s.db.runs[r], Rows(s, r), PcOf(s, r))
    ensures !StartsAction(s, a, r)
    ensures r in s'.db.runs
    ensures !Answers(s, a, r) ==> s'.db.runs[r] == s.db.runs[r] && Rows(s', r) == Rows(s, r)
  {
    hide Next, Of, Step, Ordered, SameProject, MessageKeys, LogKeys, ClearsGood;
    LiveStays(s, a, s', r);
    if DrivenBy(s, a, r) {
      var m, project := OwnStep(s, a, s', r);
      if a.act != Exit {
        StillMove(s.db.runs[r], project, Rows(s, r), s.procs[a.w].pc, a.act);
      }
    } else {
      Touch(s, a, s', r);
    }
  }

  lemma {:induction false} GateHolds(states: seq<System>, actions: seq<Action>, r: RunId)
    requires Behaviour(states, actions) && Inv(states[0])
    requires r in states[0].db.runs && states[0].db.runs[r].AwaitingPlan()
    requires forall i :: 0 <= i < |actions| ==> !Answers(states[i], actions[i], r)
    ensures Starts(states, actions, r) == 0
    ensures var t := states[|actions|];
            && Inv(t) && r in t.db.runs && t.db.runs[r] == states[0].db.runs[r] && Rows(t, r) == Rows(states[0], r)
            && t.db.runs[r].project in t.db.projects && t.db.projects[t.db.runs[r].project].board.AwaitingApproval()
  {
    if actions == [] {
      assert Gated(states[0].db.runs, states[0].db.runs[r].project, r);
    } else {
      var n := |actions| - 1;
      var ss, steps := states[..n + 1], actions[..n];
      BehaviourPrefix(states, actions, n);
      GateHolds(ss, steps, r);
      assert ss[n] == states[n];
      assert Takes(states[n], actions[n], states[n + 1]);
      assert Good(states[n].db.runs[r], Rows(states[n], r), PcOf(states[n], r));
      GateStep(states[n], actions[n], states[n + 1], r);
      NextKeeps(states[n], actions[n]);
      assert Gated(states[n + 1].db.runs, states[n + 1].db.runs[r].project, r);
    }
  }
}
