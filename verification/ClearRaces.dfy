/** Clearing against the events that are recorded meanwhile: when it fails, and what it leaves. */
module ClearRaces {
  import opened Prelude
  import opened Text
  import opened Transcript
  import opened Store
  import opened Worker
  import opened WorkerProofs
  import opened RunMachine
  import opened RunProofs
  import opened RunTheorems
  import opened Recovery
  import opened Conversation

  /** Of all the keys checked at the end of a delete, only that of a late event can be found broken. */
  lemma OnlyEventsBlock(db: Db, p: ProjectId, tx: ClearTx)
    requires Schema(db) && ClearGood(db, p, tx)
    ensures Blocked(db, p, tx) <==> tx.stage == 3 && !NoLateEvent(db, p, tx.mark)
  {
    if tx.stage == 2 {
      forall l | l in db.logs && l.message.Some? && l.message.value in MessagesIn(db.messages, p) ensures l.id in tx.logs {
        var i :| 0 <= i < |db.logs| && db.logs[i] == l;
        assert LogIn(db, p, db.logs[i]);
      }
    } else if tx.stage == 3 {
      NoMessageBlocks(db, p, tx);
      EventBlocksIff(db, p, tx);
    }
  }

  lemma NoMessageBlocks(db: Db, p: ProjectId, tx: ClearTx)
    requires SameProject(db) && ClearGood(db, p, tx) && tx.stage == 3
    ensures forall m :: m in db.messages && m.run.Some? && m.run.value in RunsIn(db.runs, p) ==> m.id in tx.messages
    ensures forall l :: l in db.logs && l.run.Some? && l.run.value in RunsIn(db.runs, p) ==> l.id in tx.logs
  {
    forall m | m in db.messages && m.run.Some? && m.run.value in RunsIn(db.runs, p) ensures m.id in tx.messages {
      var i :| 0 <= i < |db.messages| && db.messages[i] == m;
    }
    forall l | l in db.logs && l.run.Some? && l.run.value in RunsIn(db.runs, p) ensures l.id in tx.logs {
      var i :| 0 <= i < |db.logs| && db.logs[i] == l;
      assert LogIn(db, p, db.logs[i]);
    }
  }

  lemma EventBlocksIff(db: Db, p: ProjectId, tx: ClearTx)
    requires EventKeys(db) && EventsSameProject(db) && ClearGood(db, p, tx) && tx.stage == 3
    ensures (exists e :: e in db.events && e.id !in tx.events && e.run.Some? && e.run.value in RunsIn(db.runs, p))
            <==> !NoLateEvent(db, p, tx.mark)
  {
    forall e | e in db.events ensures e.id in tx.events <==> e.project == p && e.id < tx.mark {
      var i :| 0 <= i < |db.events| && db.events[i] == e;
    }
    forall e | e in db.events && e.run.Some? ensures e.run.value in RunsIn(db.runs, p) <==> e.project == p {
    }
  }

  /** In every reachable state an open clear can take its next step, but for the delete of the runs when
      an event that names a run of the project has been recorded since the delete of the events. */
  lemma ClearGoesOnIff(states: seq<System>, actions: seq<Action>, n: nat, p: ProjectId)
    requires Behaviour(states, actions) && Initial(states[0]) && n < |states| && p in states[n].clears
    ensures var s := states[n]; var tx := s.clears[p];
            && (Next(s, ClearDelete(p)).Some? <==> tx.stage < 3 || (tx.stage == 3 && NoLateEvent(s.db, p, tx.mark)))
            && (Next(s, ClearCommit(p)).Some? <==> tx.stage >= 4)
  {
    Reachable(states, actions, n);
    OnlyEventsBlock(states[n].db, p, states[n].clears[p]);
    hide Blocked, Schema;
  }

  // ---------------------------------------------------------------------------
  // In terms of what happened
  // ---------------------------------------------------------------------------

  /** At step `k` a clear of the project deletes its events, and it is still open before step `n`. */
  ghost predicate InClear(states: seq<System>, actions: seq<Action>, k: nat, n: nat, p: ProjectId) {
    && k < n < |states| == |actions| + 1
    && actions[k] == ClearDelete(p) && p in states[k].clears && states[k].clears[p].stage == 1
    && forall j :: k < j < n ==> actions[j] != ClearCommit(p) && actions[j] != ClearAbort(p) && actions[j] != Crash
  }

  /** Events are only ever appended, with growing ids, or deleted. */
  lemma EventsGrow(s: System, a: Action, s': System)
    requires RunKeys(s.db) && Takes(s, a, s')
    ensures s.db.nextEvent <= s'.db.nextEvent
    ensures forall e :: e in s'.db.events ==> e in s.db.events || e.id >= s.db.nextEvent
  {
    hide Step, Of;
    if a.Drive? && a.act != Exit && s.procs[a.w].run in s.db.runs {
      var r := s.procs[a.w].run;
      CommitShape(s.db, r, Step(s.db.runs[r], s.db.projects[s.db.runs[r].project], Of(s.db.messages, r), s.procs[a.w].pc, a.act).value.change);
    } else if a.Answer? {
      CommitShape(s.db, a.r, AppendAnswerAndResume(s.db.runs[a.r], Trim(a.text)).value);
    }
  }

  /** The open transaction of a project moves only by its own steps. */
  lemma ClearMoves(s: System, a: Action, s': System, p: ProjectId)
    requires Takes(s, a, s') && p in s.clears && a != ClearCommit(p) && a != ClearAbort(p) && a != Crash
    ensures p in s'.clears
    ensures s'.clears[p] == if a == ClearDelete(p) then ClearDeleteTx(s.db, p, s.clears[p]) else s.clears[p]
  {
    hide Step, Of, Commit, CreateRun, ApprovePlan, RevisePlan, Cleared, Blocked;
  }

  /** What an open clear knows of the events: `before` is the tables when it deleted them. */
  ghost predicate Marked(s: System, p: ProjectId, before: Db) {
    && p in s.clears && s.clears[p].stage >= 2 && s.clears[p].mark == before.nextEvent <= s.db.nextEvent
    && forall e :: e in s.db.events ==> (e.id >= before.nextEvent <==> e !in before.events)
  }

  lemma MarkFirst(s: System, s': System, p: ProjectId)
    requires Takes(s, ClearDelete(p), s') && Inv(s) && p in s.clears && s.clears[p].stage == 1
    ensures Marked(s', p, s.db)
  {
    BelowNext(s);
    hide Inv, Blocked;
  }

  lemma MarkStep(s: System, a: Action, s': System, p: ProjectId, before: Db)
    requires Takes(s, a, s') && RunKeys(s.db) && Marked(s, p, before)
    requires a != ClearCommit(p) && a != ClearAbort(p) && a != Crash
    requires forall e :: e in before.events ==> e.id < before.nextEvent
    ensures Marked(s', p, before)
  {
    EventsGrow(s, a, s');
    ClearMoves(s, a, s', p);
    hide Takes;
  }

  lemma ClearStep(states: seq<System>, actions: seq<Action>, k: nat, n: nat, p: ProjectId)
    requires Behaviour(states, actions) && Initial(states[0]) && InClear(states, actions, k, n, p)
    ensures Takes(states[n - 1], actions[n - 1], states[n]) && RunKeys(states[n - 1].db)
    ensures forall e :: e in states[k].db.events ==> e.id < states[k].db.nextEvent
    ensures n - 1 == k ==> Marked(states[n], p, states[k].db)
    ensures n - 1 > k ==> InClear(states, actions, k, n - 1, p)
                          && actions[n - 1] != ClearCommit(p) && actions[n - 1] != ClearAbort(p) && actions[n - 1] != Crash
  {
    assert Takes(states[n - 1], actions[n - 1], states[n - 1 + 1]);
    Reachable(states, actions, k);
    Reachable(states, actions, n - 1);
    InvKeys(states[n - 1]);
    BelowNext(states[k]);
    hide Takes, Inv;
    if n - 1 == k {
      MarkFirst(states[k], states[n], p);
    }
  }

  lemma {:induction false} MarkStays(states: seq<System>, actions: seq<Action>, k: nat, n: nat, p: ProjectId)
    requires Behaviour(states, actions) && Initial(states[0]) && InClear(states, actions, k, n, p)
    ensures Marked(states[n], p, states[k].db)
  {
    ClearStep(states, actions, k, n, p);
    if n - 1 > k {
      hide Takes, Behaviour, Initial;
      MarkStays(states, actions, k, n - 1, p);
      MarkStep(states[n - 1], actions[n - 1], states[n], p, states[k].db);
    }
  }

  lemma BelowNext(s: System)
    requires Inv(s)
    ensures forall e :: e in s.db.events ==> e.id < s.db.nextEvent
  {
  }

  lemma InvKeys(s: System)
    requires Inv(s)
    ensures RunKeys(s.db)
  {
  }

  /** A clear fails, at its delete of the runs, exactly when an event of the project that names a run was
      recorded after its delete of the events. */
  lemma ClearFailsIff(states: seq<System>, actions: seq<Action>, k: nat, n: nat, p: ProjectId)
    requires Behaviour(states, actions) && Initial(states[0]) && InClear(states, actions, k, n, p)
    requires p in states[n].clears && states[n].clears[p].stage == 3
    ensures Next(states[n], ClearDelete(p)) == None <==>
            exists e :: e in states[n].db.events && e !in states[k].db.events && e.project == p && e.run.Some?
  {
    MarkStays(states, actions, k, n, p);
    ClearGoesOnIff(states, actions, n, p);
    hide Next, Behaviour;
  }

  /** A clear that commits leaves exactly the events recorded after its delete of the events. None of
      them names a run, and the events of other projects are untouched. */
  lemma EventsLeft(states: seq<System>, actions: seq<Action>, k: nat, n: nat, p: ProjectId)
    requires Behaviour(states, actions) && Initial(states[0]) && InClear(states, actions, k, n, p)
    requires n < |actions| && actions[n] == ClearCommit(p)
    ensures forall e :: e in states[n + 1].db.events && e.project == p <==>
                        e in states[n].db.events && e.project == p && e !in states[k].db.events
    ensures forall e :: e in states[n + 1].db.events && e.project == p ==> e.run == None
    ensures forall e: EventRow :: e.project != p ==> (e in states[n + 1].db.events <==> e in states[n].db.events)
  {
    MarkStays(states, actions, k, n, p);
    ClearIsAtomic(states, actions, n, p);
    assert Takes(states[n], actions[n], states[n + 1]);
    assert p in states[n].db.projects;
    ClearRows(states[n].db, p, states[n].clears[p].mark);
    hide Clear, Takes, Behaviour;
  }
}
