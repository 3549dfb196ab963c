/** Behaviours put together step by step: single steps of a worker as steps of the system, short lists of steps as
    behaviours, and what a first message makes of the first points of the loop up to the model's first reply. */
module Walks {
  import opened Prelude
  import opened Transcript
  import opened Store
  import opened Worker
  import opened WorkerProofs
  import opened RunMachine
  import opened RunProofs
  import opened RunTheorems
  import opened Recovery

  /** One step of a worker, as a step of the system. */
  lemma Walk(s: System, w: WorkerId, r: RunId, pc: Pc, a: Act, m: Move) returns (t: System)
    requires w in s.procs && s.procs[w] == Proc(r, pc) && r in s.db.runs && s.db.runs[r].project in s.db.projects && a != Exit
    requires Step(s.db.runs[r], s.db.projects[s.db.runs[r].project], Rows(s, r), pc, a) == Some(m)
    requires FreshCalls(Rows(s, r), a)
    ensures Takes(s, Drive(w, a), t) && t == s.(db := t.db, procs := s.procs[w := Proc(r, m.pc)])
    ensures Committed(s.db, t.db, r, m.change) && r in t.db.runs && t.db.runs[r] == RowAfter(s.db.runs[r], m.change)
    ensures Rows(t, r) == RowsAfter(Rows(s, r), s.db.runs[r].project, r, s.db.nextMessage, m.change)
  {
    t := Moved(s, w, r, Commit(s.db, r, m.change), m);
    DriveIs(s, w, a, m);
    CommitShape(s.db, r, m.change);
    CommitRows(s.db, t.db, r, m.change, r);
  }

  /** A step of the loop that writes nothing. */
  lemma Glance(s: System, w: WorkerId, r: RunId, pc: Pc, a: Act, next: Pc) returns (t: System)
    requires w in s.procs && s.procs[w] == Proc(r, pc) && r in s.db.runs && s.db.runs[r].project in s.db.projects
    requires a != Exit && !a.Reply?
    requires Step(s.db.runs[r], s.db.projects[s.db.runs[r].project], Rows(s, r), pc, a) == Some(Goto(next))
    ensures Takes(s, Drive(w, a), t) && w in t.procs && t.procs[w] == Proc(r, next)
    ensures t == s.(db := t.db, procs := s.procs[w := Proc(r, next)])
    ensures t.db.runs == s.db.runs && t.db.projects == s.db.projects && t.db.messages == s.db.messages
  {
    hide Step, Takes, Of;
    t := Walk(s, w, r, pc, a, Goto(next));
    Still(s, w, r, next, t);
  }

  /** A step that writes nothing. */
  lemma Still(s: System, w: WorkerId, r: RunId, pc: Pc, t: System)
    requires t == s.(db := t.db, procs := s.procs[w := Proc(r, pc)]) && w in s.procs && r in s.db.runs
    requires Committed(s.db, t.db, r, NO_CHANGE)
    ensures t.db.runs == s.db.runs && t.db.projects == s.db.projects && t.db.messages == s.db.messages
  {
    assert t.db.projects == s.db.projects;
  }

  lemma Steps3(states: seq<System>, actions: seq<Action>)
    requires |states| == 4 && |actions| == 3
    requires Takes(states[0], actions[0], states[1]) && Takes(states[1], actions[1], states[2]) && Takes(states[2], actions[2], states[3])
    ensures Behaviour(states, actions)
  {
    hide Takes;
    forall i | 0 <= i < 3 ensures Takes(states[i], actions[i], states[i + 1]) {
      assert i == 0 || i == 1 || i == 2;
    }
  }

  lemma Steps4(states: seq<System>, actions: seq<Action>)
    requires |states| == 5 && |actions| == 4
    requires Takes(states[0], actions[0], states[1]) && Takes(states[1], actions[1], states[2])
    requires Takes(states[2], actions[2], states[3]) && Takes(states[3], actions[3], states[4])
    ensures Behaviour(states, actions)
  {
    hide Takes;
    forall i | 0 <= i < 4 ensures Takes(states[i], actions[i], states[i + 1]) {
      assert i == 0 || i == 1 || i == 2 || i == 3;
    }
  }

  lemma TwoMore(states: seq<System>, actions: seq<Action>, a: Action, s: System, b: Action, t: System)
    requires Behaviour(states, actions) && Takes(states[|actions|], a, s) && Takes(s, b, t)
    ensures Behaviour(states + [s, t], actions + [a, b])
  {
    hide Takes;
    var c, z := states + [s, t], actions + [a, b];
    forall i | 0 <= i < |z| ensures Takes(c[i], z[i], c[i + 1]) {
      if i < |actions| {
        assert Takes(states[i], actions[i], states[i + 1]);
      } else {
        assert i == |actions| || i == |actions| + 1;
      }
    }
  }

  lemma Lengths(states: seq<System>, actions: seq<Action>)
    requires Behaviour(states, actions)
    ensures |states| == |actions| + 1
  {
  }

  /** What a first message makes of each point up to the model's reply. */
  lemma FirstSteps(run: Run, project: Project, t: seq<Message>)
    requires run.state == Running && !run.pauseRequested && |t| == 1 && t[0].role == User
    ensures Step(run, project, t, Top, ReadRun) == Some(Goto(Begin))
    ensures Step(run, project, t, Begin, CloseWindow) == Some(Goto(Trail))
    ensures Step(run, project, t, Trail, ReadTrailing) == Some(Goto(Ask))
    ensures Step(run, project, t, Ask, CallModel) == Some(Goto(Stream))
  {
    assert Init(t) == [] && LastCalls(t) == LastCalls([]) && LastCalls([]) == [];
  }

  /** Where one step of a run's worker leads, when it leaves the run's project and other runs alone. */
  ghost predicate Onward(s: System, w: WorkerId, r: RunId, pc: Pc, t: System) {
    && t == s.(db := t.db, procs := s.procs[w := Proc(r, pc)])
    && t.db.runs.Keys == s.db.runs.Keys && t.db.projects.Keys == s.db.projects.Keys
    && (forall q :: q in s.db.runs && q != r ==> t.db.runs[q] == s.db.runs[q])
    && r in s.db.runs && t.db.runs[r].project == s.db.runs[r].project
  }

  lemma Onwards(s: System, w: WorkerId, r: RunId, pc: Pc, t: System, pc2: Pc, u: System)
    requires Onward(s, w, r, pc, t) && Onward(t, w, r, pc2, u)
    ensures Onward(s, w, r, pc2, u)
  {
    assert s.procs[w := Proc(r, pc)][w := Proc(r, pc2)] == s.procs[w := Proc(r, pc2)];
  }

  /** A worker at the top comes to its first model call. */
  lemma ReachesModel(s: System, w: WorkerId, r: RunId) returns (states: seq<System>, actions: seq<Action>)
    requires w in s.procs && s.procs[w] == Proc(r, Top) && IsRunning(s.db, r) && s.db.runs[r].project in s.db.projects
    requires !s.db.runs[r].pauseRequested && |Rows(s, r)| == 1 && Rows(s, r)[0].role == User
    ensures Behaviour(states, actions) && states[0] == s
    ensures Onward(s, w, r, Stream, states[|actions|]) && Crash !in actions
    ensures states[|actions|].db.runs == s.db.runs && states[|actions|].db.messages == s.db.messages
  {
    hide Step, Takes, Of, Committed, Behaviour;
    FirstSteps(s.db.runs[r], s.db.projects[s.db.runs[r].project], Rows(s, r));
    var s1 := Glance(s, w, r, Top, ReadRun, Begin);
    var s2 := Glance(s1, w, r, Begin, CloseWindow, Trail);
    var s3 := Glance(s2, w, r, Trail, ReadTrailing, Ask);
    var s4 := Glance(s3, w, r, Ask, CallModel, Stream);
    states := [s, s1, s2, s3, s4];
    actions := [Drive(w, ReadRun), Drive(w, CloseWindow), Drive(w, ReadTrailing), Drive(w, CallModel)];
    Steps4(states, actions);
  }
}
