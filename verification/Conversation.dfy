/** Clearing a conversation: four ordered deletes and a board reset. */
module Conversation {
  import opened Prelude
  import opened Transcript
  import opened Store
  import opened RunMachine
  import opened RunProofs

  function DropLogs(db: Db, p: ProjectId): Db {
    db.(logs := Filter(db.logs, (l: LogRow) => !LogIn(db, p, l)))
  }

  /** The events of the project that were there when the mark was the next id. */
  function DropEvents(db: Db, p: ProjectId, mark: nat): Db {
    db.(events := Filter(db.events, (e: EventRow) => !(e.project == p && e.id < mark)))
  }

  function DropMessages(db: Db, p: ProjectId): Db {
    db.(messages := Filter(db.messages, (m: Message) => m.project != p))
  }

  function DropRuns(db: Db, p: ProjectId): Db {
    db.(runs := map r | r in db.runs && db.runs[r].project != p :: db.runs[r])
  }

  function ResetBoard(db: Db, p: ProjectId): Db {
    if p in db.projects then db.(projects := db.projects[p := db.projects[p].(board := EMPTY_BOARD)]) else db
  }

  /** The whole clear, with the event rows appended from `mark` on left where they are. */
  function Clear(db: Db, p: ProjectId, mark: nat): Db {
    ResetBoard(DropRuns(DropMessages(DropEvents(DropLogs(db, p), p, mark), p), p), p)
  }

  // ---------------------------------------------------------------------------
  // Every intermediate state satisfies the foreign keys
  // ---------------------------------------------------------------------------

  lemma DropMessagesKeys(db: Db, p: ProjectId)
    requires ForeignKeys(db) && (forall l :: l in db.logs ==> !LogIn(db, p, l))
    ensures ForeignKeys(DropMessages(db, p))
  {
    var d := DropMessages(db, p);
    forall l | l in d.logs && l.message.Some? ensures HasMessage(d.messages, l.message.value) {
      var i :| 0 <= i < |db.messages| && db.messages[i].id == l.message.value;
      assert db.messages[i] in db.messages && db.messages[i].project != p;
      assert db.messages[i] in d.messages;
    }
  }

  /** No event that stays names a run of the project. */
  ghost predicate NoLateEvent(db: Db, p: ProjectId, mark: nat) {
    forall e :: e in db.events && e.project == p && e.run.Some? ==> e.id < mark
  }

  lemma DropRunsKeys(db: Db, p: ProjectId)
    requires ForeignKeys(db) && SameProject(db) && EventsSameProject(db)
    requires forall l :: l in db.logs ==> !LogIn(db, p, l)
    requires forall m :: m in db.messages ==> m.project != p
    ensures ForeignKeys(DropRuns(db, p)) <==> forall e :: e in db.events && e.run.Some? ==> e.project != p
  {
    var d := DropRuns(db, p);
    assert forall l :: l in db.logs && l.message.Some? ==> HasMessage(db.messages, l.message.value);
    forall m | m in d.messages ensures m.run.Some? && m.run.value in d.runs {
      assert db.runs[m.run.value].project == m.project;
    }
    if ForeignKeys(d) {
      forall e | e in db.events && e.run.Some? ensures e.project != p {
        assert e in d.events;
      }
    }
  }

  /** Innermost first: no delete leaves a dangling reference, but for the last one, which leaves one
      exactly when an event that names a run of the project came after the events were deleted. */
  lemma ClearKeepsKeys(db: Db, p: ProjectId, mark: nat)
    requires ForeignKeys(db) && SameProject(db) && EventsSameProject(db)
    ensures var d1 := DropLogs(db, p); var d2 := DropEvents(d1, p, mark); var d3 := DropMessages(d2, p); var d4 := DropRuns(d3, p);
            && ForeignKeys(d1) && ForeignKeys(d2) && ForeignKeys(d3)
            && (ForeignKeys(d4) <==> NoLateEvent(db, p, mark))
            && (ForeignKeys(Clear(db, p, mark)) <==> NoLateEvent(db, p, mark))
  {
    var d1 := DropLogs(db, p);
    var d2 := DropEvents(d1, p, mark);
    var d3 := DropMessages(d2, p);
    DropMessagesKeys(d2, p);
    forall i | 0 <= i < |d3.messages| ensures d3.messages[i].project != p {
      assert d3.messages[i] in d3.messages;
    }
    assert MessagesIn(d3.messages, p) == {};
    DropRunsKeys(d3, p);
    ResetKeys(DropRuns(d3, p), p);
  }

  lemma ResetKeys(db: Db, p: ProjectId)
    ensures ForeignKeys(ResetBoard(db, p)) <==> ForeignKeys(db)
  {
    var d := ResetBoard(db, p);
    assert d.projects.Keys == db.projects.Keys;
    assert MessageKeys(d) <==> MessageKeys(db);
    assert EventKeys(d) <==> EventKeys(db);
    assert RunKeys(d) <==> RunKeys(db);
  }

  /** The order is not cosmetic: deleting the runs first keeps the keys exactly when no row of any
      other table names a run of the project. */
  lemma RunsFirstIff(db: Db, p: ProjectId)
    requires ForeignKeys(db)
    ensures ForeignKeys(DropRuns(db, p)) <==>
            && (forall m :: m in db.messages ==> db.runs[m.run.value].project != p)
            && (forall l :: l in db.logs && l.run.Some? ==> db.runs[l.run.value].project != p)
            && (forall e :: e in db.events && e.run.Some? ==> db.runs[e.run.value].project != p)
  {
    var d := DropRuns(db, p);
    assert forall l :: l in db.logs && l.message.Some? ==> HasMessage(db.messages, l.message.value);
    if ForeignKeys(d) {
      forall m | m in db.messages ensures db.runs[m.run.value].project != p {
        assert m in d.messages;
      }
      forall l | l in db.logs && l.run.Some? ensures db.runs[l.run.value].project != p {
        assert l in d.logs;
      }
      forall e | e in db.events && e.run.Some? ensures db.runs[e.run.value].project != p {
        assert e in d.events;
      }
    }
  }

  /** What is gone and what is left. */
  lemma ClearRows(db: Db, p: ProjectId, mark: nat)
    requires p in db.projects
    ensures var d := Clear(db, p, mark);
            && (forall m :: m in d.messages <==> m in db.messages && m.project != p)
            && (forall l :: l in d.logs <==> l in db.logs && !LogIn(db, p, l))
            && (forall e :: e in d.events <==> e in db.events && (e.project != p || e.id >= mark))
            && (forall r :: r in d.runs <==> r in db.runs && db.runs[r].project != p)
            && (forall r :: r in d.runs ==> d.runs[r] == db.runs[r])
            && d.projects == db.projects[p := db.projects[p].(board := EMPTY_BOARD)]
            && d.projects[p].memories == db.projects[p].memories && d.projects[p].orientation == db.projects[p].orientation
            && d.projects[p].sandbox == db.projects[p].sandbox
  {
  }

  // ---------------------------------------------------------------------------
  // The concurrent clear is the atomic one
  // ---------------------------------------------------------------------------

  /** While a clear is open no run of its project is live: creation waits for the lock and no
      ended run comes back. */
  lemma ClearExcludesRuns(states: seq<System>, actions: seq<Action>, n: nat, p: ProjectId)
    requires Behaviour(states, actions) && Initial(states[0]) && n < |states| && p in states[n].clears
    ensures !HasActive(states[n].db.runs, p)
  {
    Reachable(states, actions, n);
  }

  /** Whatever ran between its deletes, a clear that commits does what the atomic clear would do at
      that moment, but for the events appended since it deleted the events: those stay, and none of
      them names a run. No row it removes belongs to a live run. */
  lemma ClearIsAtomic(states: seq<System>, actions: seq<Action>, n: nat, p: ProjectId)
    requires Behaviour(states, actions) && Initial(states[0]) && n < |actions| && actions[n] == ClearCommit(p)
    ensures p in states[n].clears && var mark := states[n].clears[p].mark;
              states[n + 1].db == Clear(states[n].db, p, mark) && NoLateEvent(states[n].db, p, mark)
    ensures !HasActive(states[n].db.runs, p)
  {
    Reachable(states, actions, n);
    assert Takes(states[n], actions[n], states[n + 1]);
    CommittedClear(states[n].db, p, states[n].clears[p]);
  }

  lemma CommittedLogs(db: Db, p: ProjectId, tx: ClearTx)
    requires ClearGood(db, p, tx) && tx.stage >= 4
    ensures Filter(db.logs, (l: LogRow) => l.id !in tx.logs) == DropLogs(db, p).logs
  {
    forall l | l in db.logs ensures (l.id !in tx.logs) == !LogIn(db, p, l) {
      var i :| 0 <= i < |db.logs| && db.logs[i] == l;
    }
    FilterCongruent(db.logs, (l: LogRow) => l.id !in tx.logs, (l: LogRow) => !LogIn(db, p, l));
  }

  lemma CommittedEvents(db: Db, p: ProjectId, tx: ClearTx)
    requires ClearGood(db, p, tx) && tx.stage >= 4
    ensures Filter(db.events, (e: EventRow) => e.id !in tx.events) == DropEvents(db, p, tx.mark).events
  {
    forall e | e in db.events ensures (e.id !in tx.events) == !(e.project == p && e.id < tx.mark) {
      var i :| 0 <= i < |db.events| && db.events[i] == e;
    }
    FilterCongruent(db.events, (e: EventRow) => e.id !in tx.events, (e: EventRow) => !(e.project == p && e.id < tx.mark));
  }

  lemma CommittedMessages(db: Db, p: ProjectId, tx: ClearTx)
    requires ClearGood(db, p, tx) && tx.stage >= 4
    ensures Filter(db.messages, (m: Message) => m.id !in tx.messages) == DropMessages(db, p).messages
    ensures db.runs - tx.runs == DropRuns(db, p).runs
  {
    forall m | m in db.messages ensures (m.id !in tx.messages) == (m.project != p) {
      var i :| 0 <= i < |db.messages| && db.messages[i] == m;
    }
    FilterCongruent(db.messages, (m: Message) => m.id !in tx.messages, (m: Message) => m.project != p);
    assert db.runs - tx.runs == DropRuns(db, p).runs;
  }

  lemma CommittedClear(db: Db, p: ProjectId, tx: ClearTx)
    requires ClearGood(db, p, tx) && tx.stage >= 4 && EventsSameProject(db) && EventKeys(db)
    ensures Cleared(db, p, tx) == Clear(db, p, tx.mark) && NoLateEvent(db, p, tx.mark)
  {
    forall e | e in db.events && e.project == p && e.run.Some? ensures e.id < tx.mark {
      var i :| 0 <= i < |db.events| && db.events[i] == e;
      assert db.events[i].run.value in tx.runs;
    }
    CommittedLogs(db, p, tx);
    CommittedEvents(db, p, tx);
    CommittedMessages(db, p, tx);
  }
}
