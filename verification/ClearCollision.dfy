/** A run of the whole system, from a fresh installation, in which a clear fails: a first message, one turn of the
    model, the end of the run, and an event that names it between two deletes of the clear. */
module ClearCollision {
  import opened Prelude
  import opened Text
  import opened Transcript
  import opened Store
  import opened Worker
  import opened WorkerProofs
  import opened RunMachine
  import opened RunProofs
  import opened RunTheorems
  import opened Recovery
  import opened Conversation
  import opened ClearRaces
  import opened Walks

  lemma LateEmit(s: System, p: ProjectId, r: RunId, kind: string) returns (t: System)
    requires Inv(s) && s.up && p in s.clears && s.clears[p].stage == 2 && MayEmit(s, p, Some(r))
    ensures Takes(s, Emit(p, Some(r), kind), t) && t == s.(db := AppendEvent(s.db, p, Some(r), kind))
    ensures Inv(t) && s.clears[p].mark <= s.db.nextEvent
  {
    hide Inv;
    t := s.(db := AppendEvent(s.db, p, Some(r), kind));
    EmitKeeps(s, p, Some(r), kind);
    MarkBelow(s, p);
  }

  lemma MarkBelow(s: System, p: ProjectId)
    requires Inv(s) && p in s.clears && s.clears[p].stage >= 2
    ensures s.clears[p].mark <= s.db.nextEvent
  {
    assert ClearGood(s.db, p, s.clears[p]);
  }

  lemma LateDelete(s: System, p: ProjectId) returns (t: System)
    requires Inv(s) && p in s.clears && s.clears[p].stage == 2
    ensures Takes(s, ClearDelete(p), t) && t == s.(clears := s.clears[p := ClearDeleteTx(s.db, p, s.clears[p])])
    ensures !NoLateEvent(s.db, p, s.clears[p].mark) ==> Next(t, ClearDelete(p)) == None
  {
    OnlyEventsBlock(s.db, p, s.clears[p]);
    t := s.(clears := s.clears[p := ClearDeleteTx(s.db, p, s.clears[p])]);
    ClearDeleteGood(s.db, p, s.clears[p]);
    OnlyEventsBlock(t.db, p, t.clears[p]);
    hide Blocked, Inv, Schema, ClearGood;
  }

  /** From any moment between the deletes of events and messages, one late event and the clear is stuck. */
  lemma LateEvent(s: System, p: ProjectId, r: RunId, kind: string) returns (s1: System, s2: System)
    requires Inv(s) && s.up && p in s.clears && s.clears[p].stage == 2 && MayEmit(s, p, Some(r))
    ensures Takes(s, Emit(p, Some(r), kind), s1) && Takes(s1, ClearDelete(p), s2)
    ensures p in s2.clears && s2.clears[p].stage == 3 && Next(s2, ClearDelete(p)) == None
  {
    hide Inv, Takes, Next;
    s1 := LateEmit(s, p, r, kind);
    var e := EventRow(s.db.nextEvent, p, Some(r), kind);
    assert e in s1.db.events;
    s2 := LateDelete(s1, p);
  }

  const OK_ROW := NewMessage(Assistant, "ok", [], [], None, false)

  lemma LastSteps(run: Run, project: Project, t: seq<Message>)
    ensures Step(run, project, t, Stream, Reply("ok", [], [])) == Some(Move(OnlyRow(OK_ROW), Count([])))
    ensures Step(run, project, t, Count([]), CountStep) == Some(Move(IncrementRunStep(run), Close))
    ensures Step(run, project, t, Close, FinishIdle) == Some(Move(FinishRun(run, Idle, ""), Exiting))
    ensures FreshCalls(t, Reply("ok", [], []))
  {
    assert !Blank("ok") by { assert !IsSpace("ok"[0]); }
  }

  /** The model answers with text alone, and the run ends. */
  lemma EndsIdle(s: System, w: WorkerId, r: RunId) returns (states: seq<System>, actions: seq<Action>)
    requires w in s.procs && s.procs[w] == Proc(r, Stream) && r in s.db.runs && s.db.runs[r].project in s.db.projects
    ensures Behaviour(states, actions) && states[0] == s
    ensures Onward(s, w, r, Exiting, states[|actions|]) && states[|actions|].db.runs[r].state == Idle
  {
    hide Step, Takes, Of, Committed, Behaviour, Onward;
    var s1 := Speaks(s, w, r);
    var s2 := Counted(s1, w, r);
    var s3 := Ended(s2, w, r);
    states, actions := [s, s1, s2, s3], [Drive(w, Reply("ok", [], [])), Drive(w, CountStep), Drive(w, FinishIdle)];
    Steps3(states, actions);
    Onwards(s, w, r, Count([]), s1, Close, s2);
    Onwards(s, w, r, Close, s2, Exiting, s3);
  }

  lemma Speaks(s: System, w: WorkerId, r: RunId) returns (t: System)
    requires w in s.procs && s.procs[w] == Proc(r, Stream) && r in s.db.runs && s.db.runs[r].project in s.db.projects
    ensures Takes(s, Drive(w, Reply("ok", [], [])), t) && Onward(s, w, r, Count([]), t)
    ensures r in t.db.runs && t.db.runs[r].project in t.db.projects && w in t.procs && t.procs[w] == Proc(r, Count([]))
  {
    hide Step, Takes, Of;
    LastSteps(s.db.runs[r], s.db.projects[s.db.runs[r].project], Rows(s, r));
    t := Walk(s, w, r, Stream, Reply("ok", [], []), Move(OnlyRow(OK_ROW), Count([])));
  }

  lemma Counted(s: System, w: WorkerId, r: RunId) returns (t: System)
    requires w in s.procs && s.procs[w] == Proc(r, Count([])) && r in s.db.runs && s.db.runs[r].project in s.db.projects
    ensures Takes(s, Drive(w, CountStep), t) && Onward(s, w, r, Close, t)
    ensures r in t.db.runs && t.db.runs[r].project in t.db.projects && w in t.procs && t.procs[w] == Proc(r, Close)
  {
    hide Step, Takes, Of;
    LastSteps(s.db.runs[r], s.db.projects[s.db.runs[r].project], Rows(s, r));
    t := Walk(s, w, r, Count([]), CountStep, Move(IncrementRunStep(s.db.runs[r]), Close));
  }

  lemma Ended(s: System, w: WorkerId, r: RunId) returns (t: System)
    requires w in s.procs && s.procs[w] == Proc(r, Close) && r in s.db.runs && s.db.runs[r].project in s.db.projects
    ensures Takes(s, Drive(w, FinishIdle), t) && Onward(s, w, r, Exiting, t)
    ensures r in t.db.runs && t.db.runs[r].state == Idle
  {
    hide Step, Takes, Of;
    LastSteps(s.db.runs[r], s.db.projects[s.db.runs[r].project], Rows(s, r));
    t := Walk(s, w, r, Close, FinishIdle, Move(FinishRun(s.db.runs[r], Idle, ""), Exiting));
  }

  /** A clear of a project with no live run comes past its delete of the events. */
  lemma ClearStarts(s: System, p: ProjectId) returns (states: seq<System>, actions: seq<Action>)
    requires Inv(s) && Serving(s) && p in s.db.projects && p !in s.clears && !HasActive(s.db.runs, p)
    ensures Behaviour(states, actions) && states[0] == s
    ensures var t := states[|actions|]; t == s.(clears := t.clears) && p in t.clears && t.clears[p].stage == 2 && t.clears[p].runs == {}
  {
    var s1 := s.(clears := s.clears[p := NEW_CLEAR]);
    var x1 := ClearDeleteTx(s.db, p, NEW_CLEAR);
    var s2 := s1.(clears := s1.clears[p := x1]);
    var s3 := s2.(clears := s2.clears[p := ClearDeleteTx(s.db, p, x1)]);
    states, actions := [s, s1, s2, s3], [ClearBegin(p), ClearDelete(p), ClearDelete(p)];
    hide Inv, Behaviour, HasActive;
    Steps3(states, actions);
  }

  /** A state with one ended run and nobody else. */
  ghost predicate OneEnded(s: System, p: ProjectId, r: RunId) {
    && Serving(s) && p in s.db.projects && s.clears == map[]
    && s.db.runs.Keys == {r} && s.db.runs[r].project == p && s.db.runs[r].state == Idle
  }

  lemma ReachesEnded(s: System, p: ProjectId) returns (states: seq<System>, actions: seq<Action>)
    requires Initial(s) && p in s.db.projects
    ensures Behaviour(states, actions) && states[0] == s && OneEnded(states[|actions|], p, 0)
  {
    hide Behaviour;
    var a, x := FirstRun(s, p);
    Lengths(a, x);
    var b, y := ReachesModel(a[|x|], 0, 0);
    Lengths(b, y);
    var c, z := EndsIdle(b[|y|], 0, 0);
    Lengths(c, z);
    BehavioursJoin(a, x, b, y);
    BehavioursJoin(a + b[1..], x + y, c, z);
    states, actions := (a + b[1..]) + c[1..], (x + y) + z;
    Onwards(a[|x|], 0, 0, Stream, b[|y|], Exiting, c[|z|]);
  }

  lemma OneEndedIsQuiet(s: System, p: ProjectId)
    requires OneEnded(s, p, 0)
    ensures Serving(s) && p in s.db.projects && p !in s.clears && !HasActive(s.db.runs, p)
    ensures 0 in s.db.runs && s.db.runs[0].project == p
  {
  }

  /** From every fresh installation a clear can be made to fail, with no crash on the way. */
  lemma ClearCanFail(s: System, p: ProjectId)
    requires Initial(s) && p in s.db.projects
    ensures exists states: seq<System>, actions: seq<Action> ::
              && Behaviour(states, actions) && states[0] == s
              && var t := states[|actions|]; p in t.clears && t.clears[p].stage == 3 && Next(t, ClearDelete(p)) == None
  {
    hide Behaviour, Inv, Next, Takes, Initial, HasActive;
    var a, x := ReachesEnded(s, p);
    Lengths(a, x);
    Reachable(a, x, |x|);
    OneEndedIsQuiet(a[|x|], p);
    var b, y := ClearStarts(a[|x|], p);
    Lengths(b, y);
    BehavioursJoin(a, x, b, y);
    var c, z := a + b[1..], x + y;
    Reachable(c, z, |z|);
    var s1, s2 := LateEvent(c[|z|], p, 0, "late");
    TwoMore(c, z, Emit(p, Some(0), "late"), s1, ClearDelete(p), s2);
    var states, actions := c + [s1, s2], z + [Emit(p, Some(0), "late"), ClearDelete(p)];
    assert states[0] == s && states[|actions|] == s2;
  }

  // ---------------------------------------------------------------------------
  // A clear that leaves an event behind
  // ---------------------------------------------------------------------------

  lemma EmitsPlain(s: System, p: ProjectId, kind: string) returns (t: System)
    requires Inv(s) && s.up && p in s.clears && s.clears[p].stage == 2
    ensures Takes(s, Emit(p, None, kind), t) && t == s.(db := AppendEvent(s.db, p, None, kind)) && Inv(t)
    ensures s.clears[p].mark <= s.db.nextEvent && EventRow(s.db.nextEvent, p, None, kind) in t.db.events
    ensures NoLateEvent(s.db, p, s.clears[p].mark) ==> NoLateEvent(t.db, p, s.clears[p].mark)
  {
    hide Inv;
    MarkBelow(s, p);
    ClearedProject(s, p);
    t := s.(db := AppendEvent(s.db, p, None, kind));
    EmitKeeps(s, p, None, kind);
  }

  lemma ClearedProject(s: System, p: ProjectId)
    requires Inv(s) && p in s.clears
    ensures p in s.db.projects
  {
    assert ClearGood(s.db, p, s.clears[p]);
  }

  lemma Deletes(s: System, p: ProjectId) returns (t: System)
    requires Inv(s) && p in s.clears && 2 <= s.clears[p].stage < 4 && NoLateEvent(s.db, p, s.clears[p].mark)
    ensures Takes(s, ClearDelete(p), t) && t == s.(clears := s.clears[p := ClearDeleteTx(s.db, p, s.clears[p])]) && Inv(t)
  {
    assert ClearGood(s.db, p, s.clears[p]);
    OnlyEventsBlock(s.db, p, s.clears[p]);
    t := s.(clears := s.clears[p := ClearDeleteTx(s.db, p, s.clears[p])]);
    hide Blocked, Inv, Schema, ClearGood, NoLateEvent;
    NextKeeps(s, ClearDelete(p));
  }

  lemma EventsBelow(s: System, p: ProjectId)
    requires Inv(s) && p in s.clears && s.clears[p].stage == 4
    ensures p in s.db.projects && forall x :: x in s.clears[p].events ==> x < s.clears[p].mark
  {
    assert ClearGood(s.db, p, s.clears[p]);
  }

  lemma Commits(s: System, p: ProjectId, e: EventRow) returns (t: System)
    requires Inv(s) && p in s.clears && s.clears[p].stage == 4 && e in s.db.events && e.id >= s.clears[p].mark
    ensures Takes(s, ClearCommit(p), t) && e in t.db.events && p !in t.clears
  {
    EventsBelow(s, p);
    hide Inv;
    t := s.(db := Cleared(s.db, p, s.clears[p]), clears := s.clears - {p});
  }

  /** From any moment between the deletes of events and messages at which no late event names a run, one more
      event without a run survives the clear. */
  lemma LeavesEvent(s: System, p: ProjectId, kind: string) returns (states: seq<System>)
    requires Inv(s) && s.up && p in s.clears && s.clears[p].stage == 2 && NoLateEvent(s.db, p, s.clears[p].mark)
    ensures Behaviour(states, [Emit(p, None, kind), ClearDelete(p), ClearDelete(p), ClearCommit(p)])
    ensures |states| == 5 && states[0] == s && EventRow(s.db.nextEvent, p, None, kind) in states[4].db.events
  {
    hide Inv, Takes, Behaviour, NoLateEvent;
    var e := EventRow(s.db.nextEvent, p, None, kind);
    var s1 := EmitsPlain(s, p, kind);
    var s2 := Deletes(s1, p);
    var s3 := Deletes(s2, p);
    var s4 := Commits(s3, p, e);
    states := [s, s1, s2, s3, s4];
    Steps4(states, [Emit(p, None, kind), ClearDelete(p), ClearDelete(p), ClearCommit(p)]);
  }

  /** From every fresh installation a clear can commit and leave an event of its project behind. */
  lemma ClearCanLeave(s: System, p: ProjectId, kind: string)
    requires Initial(s) && p in s.db.projects
    ensures exists states: seq<System>, actions: seq<Action> ::
              && Behaviour(states, actions) && states[0] == s && |actions| > 0 && actions[|actions| - 1] == ClearCommit(p)
              && EventRow(s.db.nextEvent, p, None, kind) in states[|actions|].db.events
  {
    var s1 := FirstBoot(s);
    OneStep(s, Boot, s1);
    Reachable([s, s1], [Boot], 1);
    assert s1.db.events == [] && !HasActive(s1.db.runs, p);
    hide Behaviour, Inv, Takes, Initial, HasActive;
    var b, y := ClearStarts(s1, p);
    Lengths(b, y);
    BehavioursJoin([s, s1], [Boot], b, y);
    var c, z := [s, s1] + b[1..], [Boot] + y;
    Reachable(c, z, |z|);
    var d := LeavesEvent(c[|z|], p, kind);
    var v := [Emit(p, None, kind), ClearDelete(p), ClearDelete(p), ClearCommit(p)];
    BehavioursJoin(c, z, d, v);
    var states, actions := c + d[1..], z + v;
    assert states[0] == s && states[|actions|] == d[4] && actions[|actions| - 1] == v[3];
  }

  lemma OneStep(s: System, a: Action, t: System)
    requires Takes(s, a, t)
    ensures Behaviour([s, t], [a])
  {
  }
}
