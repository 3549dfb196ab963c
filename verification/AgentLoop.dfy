/** The agent loop as it runs: loops of durable calls with anything happening in between, each call proved to
    be one step of the protocol. */
module AgentLoop {
  import opened Prelude
  import opened Text
  import opened Transcript
  import opened Store
  import opened Worker
  import opened WorkerProofs
  import opened RunMachine
  import opened RunProofs
  import opened Recovery
  import opened LoopLog
  import opened Database

  /** What the model transport may come back with. */
  datatype ModelReply =
    | NoResponse
    | Partial(text: string, reasoning: seq<Reasoning>)
    | Empty
    | Full(content: string, calls: seq<ToolCall>, reasoning: seq<Reasoning>)

  /** What a tool may come back with; None is an infrastructure failure, or the cancellation of its context. */
  datatype ToolOutcome = ToolOutcome(result: Option<ToolResult>, cancelled: bool, logged: seq<string>)

  /** What a tool that was stopped is reported to have returned. */
  const STOPPED := ToolResult("Stopped at the operator's request.", NoDisplay, true)

  /** The log of a turn is about this reply. */
  ghost predicate LogOf(reply: ModelReply, log: ReplyLog) {
    match reply
    case NoResponse => log.Broke? && log.partial == "" && log.reasoning == []
    case Partial(text, reasoning) => log.Broke? && log.partial == text && log.reasoning == reasoning
    case Empty => log == Mute
    case Full(content, calls, reasoning) =>
      log.Spoke? && log.content == content && log.calls == calls && log.reasoning == reasoning
  }

  class Service {
    const store: Database
    var workers: map<RunId, WorkerId>

    // The protocol state this process has reached, and how it got there.
    ghost var sys: System
    ghost var past: seq<System>
    ghost var trace: seq<Action>

    /** A behaviour of the protocol that began with a fresh installation ends here. */
    ghost predicate History()
      reads this`sys, this`past, this`trace
    {
      Behaviour(past, trace) && Initial(past[0]) && past[|trace|] == sys
    }

    lemma Lengths()
      requires History()
      ensures |past| == |trace| + 1 && past[|trace|] == sys
    {
    }

    ghost function Here(): Mark
      reads this`past, this`trace
    {
      Mark(past, trace)
    }

    /** Tables and registry are those of the protocol state reached. */
    ghost predicate Coupled()
      reads this, store
    {
      store.Valid() && sys.db == store.View() && sys.registry == workers && sys.up && History()
    }

    /** A process that has just come up, after whatever earlier ones did to the tables. */
    constructor (store: Database, ghost past: seq<System>, ghost trace: seq<Action>)
      requires Behaviour(past, trace) && Initial(past[0])
      requires var sys := past[|trace|]; sys.up && sys.registry == map[] && store.Valid() && sys.db == store.View()
      ensures Coupled() && this.store == store && this.past == past && this.trace == trace && workers == map[]
    {
      this.store, this.sys, this.past, this.trace, workers := store, past[|trace|], past, trace, map[];
    }

    /** Worker `w` drives `r` and stands at `pc`. */
    ghost predicate At(w: WorkerId, r: RunId, pc: Pc)
      reads this, store
    {
      Coupled() && w in sys.procs && sys.procs[w] == Proc(r, pc)
    }

    ghost predicate MyRow(r: RunId)
      reads store
    {
      r in store.runs && store.runs[r].project in store.projects
    }

    /** What the invariant gives a worker about its own run. */
    lemma Own(w: WorkerId, r: RunId, pc: Pc)
      requires At(w, r, pc)
      ensures PcOf(sys, r) == Some(pc)
      ensures Engaged(pc) ==> MyRow(r) && store.runs[r].state == Running
      ensures r in store.runs ==> MyRow(r) && Good(store.runs[r], Of(store.messages, r), Some(pc))
    {
      Reachable(past, trace, |trace|);
      assert PcOf(sys, r) == Some(pc);
    }

    /** Other workers, operators and clears take any number of steps. Nothing but this worker
        moves this worker, and only a crash would stop it. */
    method Interfere(ghost w: WorkerId, ghost r: RunId, ghost pc: Pc)
      requires At(w, r, pc)
      modifies this, store
      ensures At(w, r, pc)
      ensures Engaged(pc) ==> MyRow(r) && store.runs[r].state == Running
      ensures Onward(old(Here()), Here()) && Here().By(w) == old(Here().By(w))
    {
      Own(w, r, pc);
    }

    /** The step just written to the store is a step of the protocol. */
    ghost method Tick(w: WorkerId, r: RunId, pc: Pc, a: Act, m: Move)
      requires w in sys.procs && sys.procs[w] == Proc(r, pc)
      requires History() && sys.up && sys.registry == workers
      requires r in sys.db.runs && sys.db.runs[r].project in sys.db.projects && a != Exit
      requires Step(sys.db.runs[r], sys.db.projects[sys.db.runs[r].project], Of(sys.db.messages, r), pc, a) == Some(m)
      requires FreshCalls(Of(sys.db.messages, r), a)
      requires store.Valid() && store.View() == Commit(sys.db, r, m.change)
      modifies this`sys, this`past, this`trace
      ensures At(w, r, m.pc)
      ensures trace == old(trace) + [Drive(w, a)] && Extends(old(Here()), Here(), w, [Deed(pc, a)])
    {
      DriveIs(sys, w, a, m);
      Record(Drive(w, a), Moved(sys, w, r, Commit(sys.db, r, m.change), m));
    }

    /** One more step of the history. */
    ghost method Record(a: Action, t: System)
      requires History() && Takes(sys, a, t)
      modifies this`sys, this`past, this`trace
      ensures sys == t && trace == old(trace) + [a] && History() && Onward(old(Here()), Here())
      ensures forall v :: Here().By(v) == old(Here().By(v)) + DeedOf(old(sys), a, v)
    {
      forall v ensures Deeds(past + [t], trace + [a], v) == Deeds(past, trace, v) + DeedOf(sys, a, v) {
        DeedsPush(past, trace, t, a, v);
      }
      past, trace, sys := past + [t], trace + [a], t;
      forall i | 0 <= i < |trace| ensures Takes(past[i], trace[i], past[i + 1]) {
        if i < |trace| - 1 {
          assert Takes(old(past)[i], old(trace)[i], old(past)[i + 1]);
        }
      }
    }

    /** A step that writes nothing. */
    ghost method Look(w: WorkerId, r: RunId, pc: Pc, a: Act, next: Pc)
      requires At(w, r, pc) && MyRow(r) && a != Exit && !a.Reply?
      requires Step(store.runs[r], sys.db.projects[store.runs[r].project], Of(store.messages, r), pc, a) == Some(Goto(next))
      modifies this`sys, this`past, this`trace
      ensures At(w, r, next) && trace == old(trace) + [Drive(w, a)]
      ensures Extends(old(Here()), Here(), w, [Deed(pc, a)])
    {
      hide History, Schema, Commit, Of, Deeds;
      CommitShape(sys.db, r, NO_CHANGE);
      Tick(w, r, pc, a, Goto(next));
    }

    // -------------------------------------------------------------------------
    // The world outside
    // -------------------------------------------------------------------------

    /** The model endpoint: any reply whose call ids are new to the run. */
    method Stream(r: RunId) returns (reply: ModelReply)
      ensures reply.Full? ==> FreshCalls(Of(store.messages, r), Reply(reply.content, reply.calls, reply.reasoning))
      ensures reply.Full? ==> !(Blank(reply.content) && reply.calls == [])
    {
      reply := *;
      if reply.Full? {
        var ids := Ids(reply.calls);
        if (Blank(reply.content) && reply.calls == []) || exists i, j :: 0 <= i < j < |ids| && ids[i] == ids[j] {
          reply := Empty;
        } else if exists i :: 0 <= i < |ids| && ids[i] in Asked(Of(store.messages, r)) {
          reply := Empty;
        }
      }
    }

    method Happens() returns (b: bool) {
      b := *;
    }

    method RunTool() returns (out: ToolOutcome) {
      out := *;
    }

    method PushAndOpen() returns (ship: Shipping) {
      ship := *;
    }

    // -------------------------------------------------------------------------
    // Leaving the running state
    // -------------------------------------------------------------------------

    method PauseRun(ghost w: WorkerId, r: RunId, ghost exits: bool)
      requires At(w, r, Park(exits))
      modifies this, store
      ensures At(w, r, if exits then Exiting else Top)
      ensures Extends(old(Here()), Here(), w, [Deed(Park(exits), ParkRun)])
    {
      hide History, Schema, Commit, Of, Deeds;
      hide Onward, Extends;
      ghost var m0 := Here();
      Interfere(w, r, Park(exits));
      ghost var m1 := Here();
      ghost var c := Store.MarkPaused(store.runs[r]);
      var found := store.MarkPaused(r);
      Tick(w, r, Park(exits), ParkRun, Move(c, if exits then Exiting else Top));
      Quietly(m0, m1, Here(), w, [Deed(Park(exits), ParkRun)]);
    }

    method AwaitError(ghost w: WorkerId, r: RunId)
      requires At(w, r, Failing)
      modifies this, store
      ensures At(w, r, Exiting)
      ensures Extends(old(Here()), Here(), w, [Deed(Failing, AwaitTrouble)])
    {
      hide History, Schema, Commit, Of, Deeds;
      hide Onward, Extends;
      ghost var m0 := Here();
      Interfere(w, r, Failing);
      ghost var m1 := Here();
      ghost var c := Store.AwaitHuman(store.runs[r], Trouble, "failed");
      var found := store.AwaitHuman(r, Trouble, "failed");
      Tick(w, r, Failing, AwaitTrouble, Move(c, Exiting));
      Quietly(m0, m1, Here(), w, [Deed(Failing, AwaitTrouble)]);
    }

    ghost method Give(w: WorkerId, r: RunId, pc: Pc)
      requires At(w, r, pc) && MyRow(r) && MayFail(pc, store.runs[r].pauseRequested)
      modifies this`sys, this`past, this`trace
      ensures At(w, r, Failing)
      ensures Extends(old(Here()), Here(), w, [Deed(pc, Fail)])
    {
      hide History, Schema, Commit, Of, Deeds;
      Look(w, r, pc, Fail, Failing);
    }

    // -------------------------------------------------------------------------
    // Tool results
    // -------------------------------------------------------------------------

    /** The last writes of a shipped `done`: three commits, in this order. */
    method Shipped(ghost w: WorkerId, r: RunId, rest: seq<ToolCall>, text: string)
      requires rest != [] && At(w, r, ShipClear(rest, text))
      modifies this, store
      ensures At(w, r, Top)
      ensures Extends(old(Here()), Here(), w, ShippedDeeds(rest, text))
    {
      hide *;
      ghost var m0 := Here();
      ShippedBoard(w, r, rest, text);
      ghost var m1 := Here();
      ShippedRow(w, r, rest, text);
      ghost var m2 := Here();
      ShippedEnd(w, r, rest);
      ChainShipped(m0, m1, m2, Here(), w, rest, text);
    }

    method ShippedBoard(ghost w: WorkerId, r: RunId, ghost rest: seq<ToolCall>, ghost text: string)
      requires rest != [] && At(w, r, ShipClear(rest, text))
      modifies this, store
      ensures At(w, r, ShipRow(rest, text))
      ensures Extends(old(Here()), Here(), w, [Deed(ShipClear(rest, text), ClearBoard)])
    {
      hide History, Schema, Commit, Of, Deeds;
      hide Onward, Extends;
      ghost var m0 := Here();
      Interfere(w, r, ShipClear(rest, text));
      ghost var m1 := Here();
      ghost var c := Store.ClearPlan(store.projects[store.runs[r].project]);
      store.ClearPlan(r);
      Tick(w, r, ShipClear(rest, text), ClearBoard, Move(c, ShipRow(rest, text)));
      Quietly(m0, m1, Here(), w, [Deed(ShipClear(rest, text), ClearBoard)]);
    }

    method ShippedRow(ghost w: WorkerId, r: RunId, rest: seq<ToolCall>, text: string)
      requires rest != [] && At(w, r, ShipRow(rest, text))
      modifies this, store
      ensures At(w, r, ShipEnd(rest))
      ensures Extends(old(Here()), Here(), w, [Deed(ShipRow(rest, text), AppendShipped)])
    {
      hide History, Schema, Commit, Of, Deeds;
      hide Onward, Extends;
      ghost var m0 := Here();
      Interfere(w, r, ShipRow(rest, text));
      ghost var m1 := Here();
      store.AppendMessage(r, ToolRow(rest[0].id, text));
      Tick(w, r, ShipRow(rest, text), AppendShipped, Move(OnlyRow(ToolRow(rest[0].id, text)), ShipEnd(rest)));
      Quietly(m0, m1, Here(), w, [Deed(ShipRow(rest, text), AppendShipped)]);
    }

    method ShippedEnd(ghost w: WorkerId, r: RunId, ghost rest: seq<ToolCall>)
      requires rest != [] && At(w, r, ShipEnd(rest))
      modifies this, store
      ensures At(w, r, Top)
      ensures Extends(old(Here()), Here(), w, [Deed(ShipEnd(rest), FinishDone)])
    {
      hide History, Schema, Commit, Of, Deeds;
      hide Onward, Extends;
      ghost var m0 := Here();
      Interfere(w, r, ShipEnd(rest));
      ghost var m1 := Here();
      ghost var c := Store.FinishRun(store.runs[r], Done, "");
      store.FinishRun(r, Done, "");
      Tick(w, r, ShipEnd(rest), FinishDone, Move(c, Top));
      Quietly(m0, m1, Here(), w, [Deed(ShipEnd(rest), FinishDone)]);
    }

    /** An ordinary result row. */
    method AppendPlain(ghost w: WorkerId, r: RunId, rest: seq<ToolCall>, ghost result: ToolResult, text: string, ghost ship: Shipping)
      requires rest != [] && At(w, r, Settle(rest, result)) && MyRow(r)
      requires ApplyControl(store.runs[r], store.projects[store.runs[r].project], rest, result, ship)
               == Move(OnlyRow(ToolRow(rest[0].id, text)), Check(rest[1..]))
      modifies this, store
      ensures At(w, r, Check(rest[1..]))
      ensures Extends(old(Here()), Here(), w, [Deed(Settle(rest, result), ApplyResult(ship))])
    {
      hide History, Schema, Commit, Of, Deeds, Onward, Extends;
      store.AppendMessage(r, ToolRow(rest[0].id, text));
      Tick(w, r, Settle(rest, result), ApplyResult(ship), Move(OnlyRow(ToolRow(rest[0].id, text)), Check(rest[1..])));
    }

    /** A question parks the run with its result row. */
    method AskStep(ghost w: WorkerId, r: RunId, rest: seq<ToolCall>, result: ToolResult) returns (ok: bool)
      requires rest != [] && At(w, r, Settle(rest, result)) && MyRow(r)
      requires !result.isError && rest[0].name == "ask_human"
      modifies this, store
      ensures At(w, r, if ok then Top else Failing)
      ensures Extends(old(Here()), Here(), w, [Deed(Settle(rest, result), ApplyResult(Pushed))])
    {
      hide History, Schema, Commit, Of, Deeds, Onward, Extends;
      ghost var m := ApplyControl(store.runs[r], store.projects[store.runs[r].project], rest, result, Pushed);
      CommitShape(sys.db, r, NO_CHANGE);
      ok := store.AppendToolResultAndAwait(r, ToolRow(rest[0].id, result.content), Question);
      Tick(w, r, Settle(rest, result), ApplyResult(Pushed), m);
    }

    /** A draft goes on the board, the result row is written and the run waits, in one commit. */
    method PlanStep(ghost w: WorkerId, r: RunId, rest: seq<ToolCall>, result: ToolResult)
      returns (ok: bool, ghost end: ApplyLog)
      requires rest != [] && At(w, r, Settle(rest, result)) && MyRow(r)
      requires !result.isError && rest[0].name == "create_plan"
      modifies this, store
      ensures At(w, r, if ok then Top else Failing)
      ensures ApplyFits(rest[0].name, result, end) && ok == ApplyOk(end)
      ensures Extends(old(Here()), Here(), w, ApplyDeeds(rest, result, end))
    {
      hide History, Schema, Commit, Of, Deeds, Onward, Extends, Trim, Blank;
      ok := result.display.PlanDisplay?;
      if !ok {
        Give(w, r, Settle(rest, result));
        return false, Unusable;
      }
      ghost var m := PlanMove(store.runs[r], store.projects[store.runs[r].project], Of(store.messages, r), rest, result);
      CommitShape(sys.db, r, NO_CHANGE);
      hide Step, Store.WritePlan, ApplyDeeds;
      ok := store.WritePlan(r, result.display.draft, ToolRow(rest[0].id, result.content));
      Tick(w, r, Settle(rest, result), ApplyResult(Pushed), m);
      end := Applied(Pushed, ok);
      AppliedOnce(rest, result, Pushed, ok);
    }

    lemma PlanMove(run: Run, project: Project, t: seq<Message>, rest: seq<ToolCall>, result: ToolResult) returns (m: Move)
      requires rest != [] && !result.isError && rest[0].name == "create_plan" && result.display.PlanDisplay?
      ensures Step(run, project, t, Settle(rest, result), ApplyResult(Pushed)) == Some(m)
      ensures m == OrFail(Store.WritePlan(run, project, result.display.draft, ToolRow(rest[0].id, result.content)), Top)
    {
      m := ApplyControl(run, project, rest, result, Pushed);
    }

    lemma TaskMove(run: Run, project: Project, t: seq<Message>, rest: seq<ToolCall>, result: ToolResult) returns (m: Move)
      requires rest != [] && !result.isError && rest[0].name == "update_task" && result.display.TaskDisplay?
      ensures Step(run, project, t, Settle(rest, result), ApplyResult(Pushed)) == Some(m)
      ensures var row := ToolRow(rest[0].id, result.content);
              m == match Store.UpdateTask(project, result.display.n, result.display.status, result.display.note, row)
                   case Some(c) => Move(c, Check(rest[1..]))
                   case None => Move(OnlyRow(row.(content := "That did not work")), Check(rest[1..]))
    {
      m := ApplyControl(run, project, rest, result, Pushed);
    }

    /** The durable effect of one result. `transitioned` says the run left the loop's hands. */
    method ApplyControlStep(ghost w: WorkerId, r: RunId, rest: seq<ToolCall>, result: ToolResult)
      returns (transitioned: bool, ok: bool, ghost end: ApplyLog)
      requires rest != [] && At(w, r, Settle(rest, result))
      modifies this, store
      ensures !ok ==> At(w, r, Failing)
      ensures ok && transitioned ==> At(w, r, Top)
      ensures ok && !transitioned ==> At(w, r, Check(rest[1..]))
      ensures ApplyFits(rest[0].name, result, end) && ok == ApplyOk(end)
      ensures ok ==> (transitioned <==> Transitions(rest[0].name, result, end.ship))
      ensures Extends(old(Here()), Here(), w, ApplyDeeds(rest, result, end))
    {
      hide History, Schema, Commit, Of, Step, Deeds, ApplyDeeds, Extends;
      ghost var m0 := Here();
      Interfere(w, r, Settle(rest, result));
      ghost var m1 := Here();
      transitioned, ok, end := ApplySettled(w, r, rest, result);
      Quietly(m0, m1, Here(), w, ApplyDeeds(rest, result, end));
    }

    method ApplySettled(ghost w: WorkerId, r: RunId, rest: seq<ToolCall>, result: ToolResult)
      returns (transitioned: bool, ok: bool, ghost end: ApplyLog)
      requires rest != [] && At(w, r, Settle(rest, result)) && MyRow(r)
      modifies this, store
      ensures !ok ==> At(w, r, Failing)
      ensures ok && transitioned ==> At(w, r, Top)
      ensures ok && !transitioned ==> At(w, r, Check(rest[1..]))
      ensures ApplyFits(rest[0].name, result, end) && ok == ApplyOk(end)
      ensures ok ==> (transitioned <==> Transitions(rest[0].name, result, end.ship))
      ensures Extends(old(Here()), Here(), w, ApplyDeeds(rest, result, end))
    {
      hide History, Schema, Commit, Of, Step, Deeds, ApplyDeeds, Extends;
      end := Applied(Pushed, true);
      if result.isError {
        AppendPlain(w, r, rest, result, result.content, Pushed);
        AppliedOnce(rest, result, Pushed, true);
        return false, true, end;
      }
      match rest[0].name {
        case "ask_human" =>
          ok := AskStep(w, r, rest, result);
          AppliedOnce(rest, result, Pushed, ok);
          return true, ok, Applied(Pushed, ok);
        case "create_plan" =>
          ok, end := PlanStep(w, r, rest, result);
          return true, ok, end;
        case "update_task" =>
          ok, end := TaskStep(w, r, rest, result);
          return false, ok, end;
        case "remember" =>
          ok, end := NotesStep(w, r, rest, result);
          return false, ok, end;
        case "record_orientation" =>
          ok, end := NotesStep(w, r, rest, result);
          return false, ok, end;
        case "done" =>
          transitioned, ok, end := DoneStep(w, r, rest, result);
        case _ =>
          AppendPlain(w, r, rest, result, result.content, Pushed);
          AppliedOnce(rest, result, Pushed, true);
          return false, true, end;
      }
    }

    /** A task the board does not have is a result for the model, not a failure. */
    method TaskStep(ghost w: WorkerId, r: RunId, rest: seq<ToolCall>, result: ToolResult)
      returns (ok: bool, ghost end: ApplyLog)
      requires rest != [] && At(w, r, Settle(rest, result)) && MyRow(r)
      requires !result.isError && rest[0].name == "update_task"
      modifies this, store
      ensures At(w, r, if ok then Check(rest[1..]) else Failing)
      ensures ApplyFits(rest[0].name, result, end) && ok == ApplyOk(end)
      ensures Extends(old(Here()), Here(), w, ApplyDeeds(rest, result, end))
    {
      hide History, Schema, Commit, Of, Deeds, Onward, Extends;
      ok := result.display.TaskDisplay?;
      if !ok {
        Give(w, r, Settle(rest, result));
        return false, Unusable;
      }
      var row := ToolRow(rest[0].id, result.content);
      ghost var m := TaskMove(store.runs[r], store.projects[store.runs[r].project], Of(store.messages, r), rest, result);
      hide Step, Store.UpdateTask, ApplyDeeds;
      var moved := store.UpdateTask(r, result.display.n, result.display.status, result.display.note, row);
      if !moved {
        store.AppendMessage(r, row.(content := "That did not work"));
      }
      Tick(w, r, Settle(rest, result), ApplyResult(Pushed), m);
      end := Applied(Pushed, true);
      AppliedOnce(rest, result, Pushed, true);
    }

    /** The notes first, then the result row: two commits. */
    method NotesStep(ghost w: WorkerId, r: RunId, rest: seq<ToolCall>, result: ToolResult)
      returns (ok: bool, ghost end: ApplyLog)
      requires rest != [] && At(w, r, Settle(rest, result)) && MyRow(r)
      requires !result.isError && rest[0].name in {"remember", "record_orientation"}
      modifies this, store
      ensures At(w, r, if ok then Check(rest[1..]) else Failing)
      ensures ApplyFits(rest[0].name, result, end) && ok == ApplyOk(end)
      ensures Extends(old(Here()), Here(), w, ApplyDeeds(rest, result, end))
    {
      hide History, Schema, Commit, Of, Deeds, Extends;
      ghost var m0 := Here();
      ok := SetNote(w, r, rest, result);
      if !ok {
        return false, Unusable;
      }
      ghost var m1 := Here();
      NoteResult(w, r, rest, result);
      end := Applied(Pushed, true);
      Chain(m0, m1, Here(), w, [Deed(Settle(rest, result), ApplyResult(Pushed))], [Deed(Noted(rest, result), AppendNoted)]);
    }

    method SetNote(ghost w: WorkerId, r: RunId, rest: seq<ToolCall>, result: ToolResult) returns (ok: bool)
      requires rest != [] && At(w, r, Settle(rest, result)) && MyRow(r)
      requires !result.isError && rest[0].name in {"remember", "record_orientation"}
      modifies this, store
      ensures At(w, r, if ok then Noted(rest, result) else Failing) && ok == Usable(rest[0].name, result.display)
      ensures Extends(old(Here()), Here(), w, [Deed(Settle(rest, result), if ok then ApplyResult(Pushed) else Fail)])
    {
      hide History, Schema, Commit, Of, Deeds, Onward, Extends;
      ghost var m := ApplyControl(store.runs[r], store.projects[store.runs[r].project], rest, result, Pushed);
      var memories := rest[0].name == "remember";
      ok := if memories then result.display.MemoriesDisplay? else result.display.OrientationDisplay?;
      if !ok {
        Give(w, r, Settle(rest, result));
        return;
      }
      if memories {
        store.SetNotes(r, Some(result.display.memories), None);
      } else {
        store.SetNotes(r, None, Some(result.display.orientation));
      }
      Tick(w, r, Settle(rest, result), ApplyResult(Pushed), m);
    }

    method NoteResult(ghost w: WorkerId, r: RunId, rest: seq<ToolCall>, result: ToolResult)
      requires rest != [] && At(w, r, Noted(rest, result))
      modifies this, store
      ensures At(w, r, Check(rest[1..]))
      ensures Extends(old(Here()), Here(), w, [Deed(Noted(rest, result), AppendNoted)])
    {
      hide History, Schema, Commit, Of, Deeds;
      hide Onward, Extends;
      ghost var m0 := Here();
      Interfere(w, r, Noted(rest, result));
      ghost var m1 := Here();
      store.AppendMessage(r, ToolRow(rest[0].id, result.content));
      Tick(w, r, Noted(rest, result), AppendNoted, Move(OnlyRow(ToolRow(rest[0].id, result.content)), Check(rest[1..])));
      Quietly(m0, m1, Here(), w, [Deed(Noted(rest, result), AppendNoted)]);
    }

    /** A failed push waits for the operator. */
    method ParkUnshipped(ghost w: WorkerId, r: RunId, rest: seq<ToolCall>, ghost result: ToolResult, why: string)
      returns (ok: bool)
      requires rest != [] && At(w, r, Settle(rest, result)) && MyRow(r)
      requires rest[0].name == "done" && !result.isError && result.display.DoneDisplay?
      modifies this, store
      ensures At(w, r, if ok then Top else Failing)
      ensures Extends(old(Here()), Here(), w, [Deed(Settle(rest, result), ApplyResult(PushFailed(why)))])
    {
      hide History, Schema, Commit, Of, Deeds, Onward, Extends;
      ghost var m := ApplyControl(store.runs[r], store.projects[store.runs[r].project], rest, result, PushFailed(why));
      CommitShape(sys.db, r, NO_CHANGE);
      ok := store.AppendToolResultAndAwait(r, ToolRow(rest[0].id, why), Trouble);
      Tick(w, r, Settle(rest, result), ApplyResult(PushFailed(why)), m);
    }

    method DoneStep(ghost w: WorkerId, r: RunId, rest: seq<ToolCall>, result: ToolResult)
      returns (transitioned: bool, ok: bool, ghost end: ApplyLog)
      requires rest != [] && At(w, r, Settle(rest, result)) && MyRow(r)
      requires rest[0].name == "done" && !result.isError
      modifies this, store
      ensures !ok ==> At(w, r, Failing)
      ensures ok && transitioned ==> At(w, r, Top)
      ensures ok && !transitioned ==> At(w, r, Check(rest[1..]))
      ensures ApplyFits(rest[0].name, result, end) && ok == ApplyOk(end)
      ensures ok ==> (transitioned <==> Transitions(rest[0].name, result, end.ship))
      ensures Extends(old(Here()), Here(), w, ApplyDeeds(rest, result, end))
    {
      hide History, Schema, Commit, Of, Deeds;
      if !result.display.DoneDisplay? {
        Give(w, r, Settle(rest, result));
        return false, false, Unusable;
      }
      ghost var ship;
      transitioned, ok, ship := ShipStep(w, r, rest, result);
      end := Applied(ship, ok);
    }

    /** A refusal is a result for the model, a failed push waits for the operator, and a push goes on to the
        last writes. */
    method ShipStep(ghost w: WorkerId, r: RunId, rest: seq<ToolCall>, result: ToolResult)
      returns (transitioned: bool, ok: bool, ghost ship: Shipping)
      requires rest != [] && At(w, r, Settle(rest, result))
      requires rest[0].name == "done" && !result.isError && result.display.DoneDisplay?
      modifies this, store
      ensures !ok ==> At(w, r, Failing)
      ensures ok && transitioned ==> At(w, r, Top)
      ensures ok && !transitioned ==> At(w, r, Check(rest[1..]))
      ensures (transitioned <==> !ship.Refused?) && (!ok ==> ship.PushFailed?)
      ensures Extends(old(Here()), Here(), w, ApplyDeeds(rest, result, Applied(ship, ok)))
    {
      hide History, Schema, Commit, Of, Deeds, ApplyDeeds, Extends;
      ghost var m0 := Here();
      Interfere(w, r, Settle(rest, result));
      ghost var m1 := Here();
      var out := PushAndOpen();
      ship := out;
      match out {
        case Refused(why) =>
          AppendPlain(w, r, rest, result, why, out);
          transitioned, ok := false, true;
          AppliedOnce(rest, result, out, true);
        case PushFailed(why) =>
          ok := ParkUnshipped(w, r, rest, result, why);
          transitioned := true;
          AppliedOnce(rest, result, out, ok);
        case Pushed =>
          Look(w, r, Settle(rest, result), ApplyResult(out), ShipClear(rest, result.content));
          ghost var m2 := Here();
          Shipped(w, r, rest, result.content);
          transitioned, ok := true, true;
          Chain(m1, m2, Here(), w, [Deed(Settle(rest, result), ApplyResult(out))], ShippedDeeds(rest, result.content));
          PushedDeeds(rest, result);
      }
      Quietly(m0, m1, Here(), w, ApplyDeeds(rest, result, Applied(ship, ok)));
    }

    /** Runs the wanted calls in order, persisting each result before the next begins. */
    method ExecuteCalls(ghost w: WorkerId, r: RunId, calls: seq<ToolCall>, only: seq<CallId>)
      returns (ok: bool, ghost ran: CallsLog)
      requires Wanted(calls, only) != [] && At(w, r, Exec(Wanted(calls, only)))
      modifies this, store
      ensures At(w, r, if ok then Top else Failing)
      ensures RanFits(Wanted(calls, only), ran) && ok == RanOk(ran)
      ensures Extends(old(Here()), Here(), w, RanDeeds(Wanted(calls, only), ran))
    {
      hide History, Schema, Commit, Of, Deeds, Extends, Onward, CallsDeeds, CallDeeds, Goes, Fails, CallFits, RanDeeds, RanFits, RanOk, AllGo;
      ghost var all, m0 := Wanted(calls, only), Here();
      var broken := Happens();
      if broken {
        Own(w, r, Exec(all));
        Give(w, r, Exec(all));
        NotBegunLog(all);
        return false, NotBegun;
      }
      ghost var logs: seq<CallLog> := [];
      NothingRun(m0, w, all);
      var i := 0;
      while i < |calls|
        invariant 0 <= i <= |calls| && |logs| <= |all| && all[|logs|..] == Wanted(calls[i..], only)
        invariant At(w, r, if |logs| == |all| then Top else Exec(all[|logs|..]))
        invariant AllGo(all, logs) && Extends(m0, Here(), w, CallsDeeds(all, logs))
      {
        assert calls[i..][1..] == calls[i + 1..] && calls[i..][0] == calls[i];
        if calls[i].id in only {
          ghost var m1, k := Here(), |logs|;
          var rest := Wanted(calls[i..], only);
          assert rest == [calls[i]] + Wanted(calls[i + 1..], only);
          var go, failed, log := ExecuteOne(w, r, rest);
          logs := logs + [log];
          OneMoreCall(m0, m1, Here(), w, all, logs[..k], log);
          assert rest[1..] == all[|logs|..];
          if failed || !go {
            StopsFit(all, logs[..k], log);
            BeganLog(all, logs);
            return !failed, Began(logs);
          }
          GoesOn(all, logs[..k], log);
        }
        i := i + 1;
      }
      ok, ran := true, Began(logs);
      AllGoFit(all, logs);
      BeganLog(all, logs);
    }

    /** One call: the pause check, the tool, its result, and the look at the row afterwards. */
    method ExecuteOne(ghost w: WorkerId, r: RunId, rest: seq<ToolCall>)
      returns (go: bool, failed: bool, ghost log: CallLog)
      requires rest != [] && At(w, r, Exec(rest))
      modifies this, store
      ensures failed ==> At(w, r, Failing)
      ensures !failed && go ==> if rest[1..] == [] then At(w, r, Top) else At(w, r, Exec(rest[1..]))
      ensures !failed && !go ==> At(w, r, Top)
      ensures CallFits(rest, log) && go == Goes(rest, log) && failed == Fails(log) && !(go && failed)
      ensures Extends(old(Here()), Here(), w, CallDeeds(rest, log))
    {
      hide *;
      ghost var m0 := Here();
      var paused := PauseCheck(w, r, rest);
      if paused {
        log := PausedBefore;
        PausedLog(rest);
        return false, false, log;
      }
      ghost var m1 := Here();
      var result, logged := ToolStep(w, r, rest);
      Chain(m0, m1, Here(), w, CheckDeeds(rest), ToolDeeds(rest, result, logged));
      if result == None {
        log := ToolFailed;
        FailedLog(rest, logged);
        return false, true, log;
      }
      ghost var m2 := Here();
      var transitioned, ok, end := ApplyControlStep(w, r, rest, result.value);
      log := Ran(result.value, logged, end);
      RanLog(rest, log, transitioned, ok);
      ghost var m3 := Here();
      go, failed := ok && !transitioned, !ok;
      if go {
        RecheckRun(w, r, rest[1..]);
      }
      RecheckedLog(m2, m3, Here(), w, rest, log);
      Chain(m0, m2, Here(), w, CheckDeeds(rest) + ToolDeeds(rest, result, logged),
            ApplyDeeds(rest, result.value, end) + RecheckDeeds(rest, go));
    }

    /** Between calls: a requested pause parks the run here. */
    method PauseCheck(ghost w: WorkerId, r: RunId, ghost rest: seq<ToolCall>) returns (paused: bool)
      requires rest != [] && At(w, r, Exec(rest))
      modifies this, store
      ensures At(w, r, if paused then Top else Ready(rest))
      ensures Extends(old(Here()), Here(), w, if paused then CallDeeds(rest, PausedBefore) else CheckDeeds(rest))
    {
      hide History, Schema, Commit, Of, Deeds;
      hide Onward, Extends;
      ghost var m0 := Here();
      Interfere(w, r, Exec(rest));
      ghost var m1 := Here();
      PausedLog(rest);
      hide CallDeeds, Goes, Fails;
      paused := store.runs[r].pauseRequested;
      Look(w, r, Exec(rest), CheckPause, if paused then Park(false) else Ready(rest));
      Quietly(m0, m1, Here(), w, CheckDeeds(rest));
      if paused {
        ghost var m2 := Here();
        PauseRun(w, r, false);
        Chain(m0, m2, Here(), w, CheckDeeds(rest), [Deed(Park(false), ParkRun)]);
      }
    }

    /** The tool itself; None when it failed and neither a pause nor a cancellation explains it. */
    method ToolStep(ghost w: WorkerId, r: RunId, ghost rest: seq<ToolCall>)
      returns (result: Option<ToolResult>, ghost logged: seq<string>)
      requires rest != [] && At(w, r, Ready(rest))
      modifies this, store
      ensures At(w, r, if result.Some? then Settle(rest, result.value) else Failing)
      ensures Extends(old(Here()), Here(), w, ToolDeeds(rest, result, logged))
    {
      hide History, Schema, Commit, Of, Deeds;
      hide Onward, Extends;
      ghost var m0 := Here();
      Interfere(w, r, Ready(rest));
      ghost var m1 := Here();
      Look(w, r, Ready(rest), StartTool, Tooling(rest));
      Quietly(m0, m1, Here(), w, [Deed(Ready(rest), StartTool)]);
      ghost var m2 := Here();
      ghost var out;
      result, out := ToolReturned(w, r, rest);
      logged := out.logged;
      Chain(m0, m2, Here(), w, [Deed(Ready(rest), StartTool)], [ReturnDeed(rest, result, logged)]);
    }

    /** A tool that failed is reported as stopped when it was cancelled or a pause is pending, and is a failure
        otherwise. */
    method ToolReturned(ghost w: WorkerId, r: RunId, ghost rest: seq<ToolCall>)
      returns (result: Option<ToolResult>, ghost out: ToolOutcome)
      requires rest != [] && At(w, r, Tooling(rest))
      modifies this, store
      ensures At(w, r, if result.Some? then Settle(rest, result.value) else Failing)
      ensures r in store.runs
      ensures result == if out.result.Some? then out.result
                        else if store.runs[r].pauseRequested || out.cancelled then Some(STOPPED)
                        else None
      ensures Extends(old(Here()), Here(), w, [ReturnDeed(rest, result, out.logged)])
    {
      hide History, Schema, Commit, Of, Deeds;
      hide Onward, Extends;
      ghost var m0 := Here();
      Interfere(w, r, Tooling(rest));
      ghost var m1 := Here();
      var outcome := RunTool();
      out := outcome;
      result := outcome.result;
      if result == None {
        if !store.runs[r].pauseRequested && !outcome.cancelled {
          Give(w, r, Tooling(rest));
          Quietly(m0, m1, Here(), w, [Deed(Tooling(rest), Fail)]);
          return;
        }
        result := Some(STOPPED);
      }
      store.RecordTools(r, outcome.logged);
      Tick(w, r, Tooling(rest), ToolReturns(result.value, outcome.logged),
           Move(NO_CHANGE.(logged := outcome.logged), Settle(rest, result.value)));
      Quietly(m0, m1, Here(), w, [Deed(Tooling(rest), ToolReturns(result.value, outcome.logged))]);
    }

    /** After a result: go on while the run is still running. */
    method RecheckRun(ghost w: WorkerId, r: RunId, ghost rest: seq<ToolCall>)
      requires At(w, r, Check(rest))
      modifies this, store
      ensures At(w, r, if rest == [] then Top else Exec(rest))
      ensures Extends(old(Here()), Here(), w, [Deed(Check(rest), Recheck)])
    {
      hide History, Schema, Commit, Of, Deeds;
      hide Onward, Extends;
      ghost var m0 := Here();
      Interfere(w, r, Check(rest));
      ghost var m1 := Here();
      Look(w, r, Check(rest), Recheck, if rest == [] then Top else Exec(rest));
      Quietly(m0, m1, Here(), w, [Deed(Check(rest), Recheck)]);
    }

    // -------------------------------------------------------------------------
    // The loop
    // -------------------------------------------------------------------------

    /** One model call and the tools it asks for. */
    method Advance(ghost w: WorkerId, r: RunId) returns (more: bool, failed: bool, ghost log: TurnLog)
      requires At(w, r, Begin)
      modifies this, store
      ensures failed ==> At(w, r, Failing)
      ensures !failed ==> At(w, r, if more then Top else Exiting)
      ensures TurnFits(log) && failed == TurnFails(log) && (!failed ==> more == !TurnEnds(log))
      ensures Extends(old(Here()), Here(), w, TurnDeeds(log))
    {
      hide *;
      ghost var m0 := Here();
      var recovered := CloseRestartWindow(w, r);
      if recovered {
        log := Recovered;
        RecoveredLog();
        return false, false, log;
      }
      ghost var m1 := Here();
      var newest, pending := FindPending(w, r);
      Chain(m0, m1, Here(), w, [Deed(Begin, CloseWindow)], [Deed(Trail, ReadTrailing)]);
      ghost var m2 := Here();
      if pending != [] {
        var ran, calls := ExecuteCalls(w, r, newest, pending);
        log := Replayed(Wanted(newest, pending), calls);
        Chain(m0, m2, Here(), w, [Deed(Begin, CloseWindow)] + [Deed(Trail, ReadTrailing)], RanDeeds(Wanted(newest, pending), calls));
        ReplayedLog(Wanted(newest, pending), calls);
        return true, !ran, log;
      }
      AskModel(w, r);
      ghost var m3 := Here();
      ghost var reply, answer;
      more, failed, reply, answer := Answered(w, r);
      log := AskedModel(answer);
      Chain(m2, m3, Here(), w, [Deed(Ask, CallModel)], ReplyDeeds(answer));
      Chain(m0, m2, Here(), w, [Deed(Begin, CloseWindow)] + [Deed(Trail, ReadTrailing)], [Deed(Ask, CallModel)] + ReplyDeeds(answer));
      AskedLog(answer);
    }

    /** A final text turn whose run was never finished ends it here. */
    method CloseRestartWindow(ghost w: WorkerId, r: RunId) returns (recovered: bool)
      requires At(w, r, Begin)
      modifies this, store
      ensures At(w, r, if recovered then Exiting else Trail)
      ensures Extends(old(Here()), Here(), w, [Deed(Begin, CloseWindow)])
    {
      hide History, Schema, Commit, Of, Deeds;
      hide Onward, Extends;
      ghost var m0 := Here();
      Interfere(w, r, Begin);
      ghost var m1 := Here();
      ghost var c := FinishIfTerminal(store.runs[r], Of(store.messages, r));
      recovered := store.FinishIfTerminalAssistant(r);
      CommitShape(sys.db, r, NO_CHANGE);
      Tick(w, r, Begin, CloseWindow, if c.Some? then Move(c.value, Exiting) else Goto(Trail));
      Quietly(m0, m1, Here(), w, [Deed(Begin, CloseWindow)]);
    }

    /** The unanswered calls, to be run before the model is asked again. */
    method FindPending(ghost w: WorkerId, r: RunId) returns (newest: seq<ToolCall>, pending: seq<CallId>)
      requires At(w, r, Trail)
      modifies this, store
      ensures pending != [] ==> Wanted(newest, pending) != [] && At(w, r, Exec(Wanted(newest, pending)))
      ensures pending == [] ==> At(w, r, Ask)
      ensures Extends(old(Here()), Here(), w, [Deed(Trail, ReadTrailing)])
    {
      hide History, Schema, Commit, Of, Deeds;
      hide Onward, Extends;
      ghost var m0 := Here();
      Interfere(w, r, Trail);
      ghost var m1 := Here();
      newest := store.NewestCalls(r);
      pending := store.TrailingToolCalls(r);
      if pending != [] {
        PendingWanted(w, r);
        Look(w, r, Trail, ReadTrailing, Exec(Wanted(newest, pending)));
      } else {
        Look(w, r, Trail, ReadTrailing, Ask);
      }
      Quietly(m0, m1, Here(), w, [Deed(Trail, ReadTrailing)]);
    }

    /** Pending calls are wanted calls: replay has something to run. */
    lemma PendingWanted(w: WorkerId, r: RunId)
      requires At(w, r, Trail) && MyRow(r)
      ensures var t := Of(store.messages, r); Trailing(t) != [] ==> Wanted(LastCalls(t), Trailing(t)) != []
    {
      hide History, Schema, Commit, Of, Deeds;
      Own(w, r, Trail);
      var t := Of(store.messages, r);
      WantedIsOpen(t);
      TrailingIsOpen(t);
      OpenIsTail(t);
    }

    /** The request is built from everything the project has said. */
    method AskModel(ghost w: WorkerId, r: RunId)
      requires At(w, r, Ask)
      modifies this, store
      ensures At(w, r, Worker.Stream)
      ensures Extends(old(Here()), Here(), w, [Deed(Ask, CallModel)])
    {
      hide History, Schema, Commit, Of, Deeds;
      hide Onward, Extends, ToTurns, Context;
      ghost var m0 := Here();
      Interfere(w, r, Ask);
      ghost var m1 := Here();
      var history := store.ContextMessages(store.runs[r].project);
      var request := InputItems(ToTurns(history));
      Look(w, r, Ask, CallModel, Worker.Stream);
      Quietly(m0, m1, Here(), w, [Deed(Ask, CallModel)]);
    }

    /** What follows a model call: a lost stream keeps what was said and parks on a pending pause or fails, an
        empty reply fails, and a full one is stored before anything it asks for is run. */
    method Answered(ghost w: WorkerId, r: RunId)
      returns (more: bool, failed: bool, ghost reply: ModelReply, ghost log: ReplyLog)
      requires At(w, r, Worker.Stream)
      modifies this, store
      ensures failed ==> At(w, r, Failing)
      ensures !failed ==> At(w, r, if more then Top else Exiting)
      ensures LogOf(reply, log) && ReplyFits(log) && failed == ReplyFails(log) && (!failed ==> more == !ReplyEnds(log))
      ensures Extends(old(Here()), Here(), w, ReplyDeeds(log))
    {
      hide History, Schema, Commit, Of, Deeds, RanDeeds, RanFits, RanOk, Extends, ReplyDeeds;
      ghost var m0 := Here();
      Interfere(w, r, Worker.Stream);
      ghost var m1 := Here();
      var said := Stream(r);
      reply := said;
      match said {
        case NoResponse =>
          failed := BrokenOff(w, r, "", []);
          more, log := false, Broke("", [], !failed);
        case Partial(text, reasoning) =>
          failed := BrokenOff(w, r, text, reasoning);
          more, log := false, Broke(text, reasoning, !failed);
        case Empty =>
          Look(w, r, Worker.Stream, Silent, Failing);
          more, failed, log := false, true, Mute;
        case Full(content, calls, reasoning) =>
          ghost var ran;
          more, failed, ran := Heard(w, r, content, calls, reasoning);
          log := Spoke(content, calls, reasoning, ran);
      }
      MuteDeeds();
      Quietly(m0, m1, Here(), w, ReplyDeeds(log));
    }

    method BrokenOff(ghost w: WorkerId, r: RunId, text: string, reasoning: seq<Reasoning>) returns (failed: bool)
      requires At(w, r, Worker.Stream) && MyRow(r)
      modifies this, store
      ensures At(w, r, if failed then Failing else Exiting)
      ensures Extends(old(Here()), Here(), w, ReplyDeeds(Broke(text, reasoning, !failed)))
    {
      hide *;
      ghost var m0 := Here();
      KeepPartial(w, r, text, reasoning);
      ghost var m1 := Here();
      failed := StreamLost(w, r);
      Chain(m0, m1, Here(), w, [Deed(Worker.Stream, Broken(text, reasoning))], LostDeeds(!failed));
      BrokenDeeds(text, reasoning, !failed);
    }

    method Heard(ghost w: WorkerId, r: RunId, content: string, calls: seq<ToolCall>, reasoning: seq<Reasoning>)
      returns (more: bool, failed: bool, ghost ran: CallsLog)
      requires At(w, r, Worker.Stream) && MyRow(r) && !(Blank(content) && calls == [])
      requires FreshCalls(Of(store.messages, r), Reply(content, calls, reasoning))
      modifies this, store
      ensures failed ==> At(w, r, Failing)
      ensures !failed ==> At(w, r, if more then Top else Exiting)
      ensures more == (calls != []) && failed == (calls != [] && !RanOk(ran)) && (calls != [] ==> RanFits(calls, ran))
      ensures Extends(old(Here()), Here(), w, ReplyDeeds(Spoke(content, calls, reasoning, ran)))
    {
      hide *;
      ghost var m0 := Here();
      KeepReply(w, r, content, calls, reasoning);
      ghost var m1 := Here();
      more, failed, ran := Spoken(w, r, calls);
      Chain(m0, m1, Here(), w, [Deed(Worker.Stream, Reply(content, calls, reasoning))], SpokenDeeds(calls, ran));
      SpokeDeeds(content, calls, reasoning, ran);
    }

    /** What a broken stream had said is kept as a partial turn, when it is anything. */
    method KeepPartial(ghost w: WorkerId, r: RunId, text: string, reasoning: seq<Reasoning>)
      requires At(w, r, Worker.Stream) && MyRow(r)
      modifies this, store
      ensures At(w, r, Lost)
      ensures Extends(old(Here()), Here(), w, [Deed(Worker.Stream, Broken(text, reasoning))])
    {
      hide History, Schema, Commit, Of, Deeds;
      if Blank(text) {
        Look(w, r, Worker.Stream, Broken(text, reasoning), Lost);
      } else {
        var row := NewMessage(Assistant, text, [], reasoning, None, true);
        store.AppendMessage(r, row);
        Tick(w, r, Worker.Stream, Broken(text, reasoning), Move(OnlyRow(row), Lost));
      }
    }

    method KeepReply(ghost w: WorkerId, r: RunId, content: string, calls: seq<ToolCall>, reasoning: seq<Reasoning>)
      requires At(w, r, Worker.Stream) && MyRow(r) && !(Blank(content) && calls == [])
      requires FreshCalls(Of(store.messages, r), Reply(content, calls, reasoning))
      modifies this, store
      ensures At(w, r, Count(calls))
      ensures Extends(old(Here()), Here(), w, [Deed(Worker.Stream, Reply(content, calls, reasoning))])
    {
      hide History, Schema, Commit, Of, Deeds;
      var row := NewMessage(Assistant, content, calls, reasoning, None, false);
      store.AppendMessage(r, row);
      Tick(w, r, Worker.Stream, Reply(content, calls, reasoning), Move(OnlyRow(row), Count(calls)));
    }

    method StreamLost(ghost w: WorkerId, r: RunId) returns (failed: bool)
      requires At(w, r, Lost)
      modifies this, store
      ensures At(w, r, if failed then Failing else Exiting)
      ensures Extends(old(Here()), Here(), w, LostDeeds(!failed))
    {
      hide History, Schema, Commit, Of, Deeds;
      hide Onward, Extends;
      ghost var m0 := Here();
      Interfere(w, r, Lost);
      ghost var m1 := Here();
      failed := !store.runs[r].pauseRequested;
      Look(w, r, Lost, CheckLost, if failed then Failing else Park(true));
      Quietly(m0, m1, Here(), w, [Deed(Lost, CheckLost)]);
      if !failed {
        ghost var m2 := Here();
        PauseRun(w, r, true);
        Chain(m0, m2, Here(), w, [Deed(Lost, CheckLost)], [Deed(Park(true), ParkRun)]);
      }
      assert LostDeeds(false) == [Deed(Lost, CheckLost)];
    }

    /** The turn is stored: count it, then end the run or run its calls. */
    method Spoken(ghost w: WorkerId, r: RunId, calls: seq<ToolCall>) returns (more: bool, failed: bool, ghost ran: CallsLog)
      requires At(w, r, Count(calls))
      modifies this, store
      ensures failed ==> At(w, r, Failing)
      ensures !failed ==> At(w, r, if more then Top else Exiting)
      ensures more == (calls != []) && failed == (calls != [] && !RanOk(ran)) && (calls != [] ==> RanFits(calls, ran))
      ensures Extends(old(Here()), Here(), w, SpokenDeeds(calls, ran))
    {
      hide *;
      ghost var m0 := Here();
      CountTurn(w, r, calls);
      ghost var m1 := Here();
      ran := NotBegun;
      if calls == [] {
        FinishTurn(w, r);
        more, failed := false, false;
        Chain(m0, m1, Here(), w, [Deed(Count(calls), CountStep)], [Deed(Close, FinishIdle)]);
      } else {
        WantedAll(calls, Ids(calls));
        more := true;
        var ok;
        ok, ran := ExecuteCalls(w, r, calls, Ids(calls));
        failed := !ok;
        Chain(m0, m1, Here(), w, [Deed(Count(calls), CountStep)], RanDeeds(calls, ran));
      }
      SpokenLog(calls, ran);
    }

    method CountTurn(ghost w: WorkerId, r: RunId, ghost calls: seq<ToolCall>)
      requires At(w, r, Count(calls))
      modifies this, store
      ensures At(w, r, if calls == [] then Close else Exec(calls))
      ensures Extends(old(Here()), Here(), w, [Deed(Count(calls), CountStep)])
    {
      hide History, Schema, Commit, Of, Deeds;
      hide Onward, Extends;
      ghost var m0 := Here();
      Interfere(w, r, Count(calls));
      ghost var m1 := Here();
      ghost var c := Store.IncrementRunStep(store.runs[r]);
      store.IncrementRunStep(r);
      Tick(w, r, Count(calls), CountStep, Move(c, if calls == [] then Close else Exec(calls)));
      Quietly(m0, m1, Here(), w, [Deed(Count(calls), CountStep)]);
    }

    method FinishTurn(ghost w: WorkerId, r: RunId)
      requires At(w, r, Close)
      modifies this, store
      ensures At(w, r, Exiting)
      ensures Extends(old(Here()), Here(), w, [Deed(Close, FinishIdle)])
    {
      hide History, Schema, Commit, Of, Deeds;
      hide Onward, Extends;
      ghost var m0 := Here();
      Interfere(w, r, Close);
      ghost var m1 := Here();
      ghost var c := Store.FinishRun(store.runs[r], Idle, "");
      store.FinishRun(r, Idle, "");
      Tick(w, r, Close, FinishIdle, Move(c, Exiting));
      Quietly(m0, m1, Here(), w, [Deed(Close, FinishIdle)]);
    }

    /** The loop, for as long as the process lives: at most `turns` turns. It ends with the worker
        gone from the registry, or, when the process dies first, wherever it stood. */
    method Run(ghost w: WorkerId, r: RunId, turns: nat) returns (left: bool, ghost logs: seq<TurnLog>, ghost end: RunEnd)
      requires At(w, r, Top)
      modifies this, store
      ensures Coupled()
      ensures left ==> r !in workers
      ensures RunFits(logs, end) && |logs| <= turns && left == (end != Cut) && (!left ==> |logs| == turns)
      ensures Extends(old(Here()), Here(), w, RunDeeds(logs) + EndDeeds(end))
    {
      hide History, Schema, Commit, Of, Deeds, Extends, RunDeeds, TurnFits, TurnFails, TurnEnds;
      ghost var m0 := Here();
      logs, end, left := [], Cut, false;
      NoTurns(m0, w);
      var n := 0;
      while n < turns
        invariant At(w, r, Top) && n == |logs| <= turns
        invariant RunFits(logs, Cut) && Extends(m0, Here(), w, RunDeeds(logs))
      {
        ghost var m1 := Here();
        var more;
        var gone;
        gone, end := ReadTop(w, r);
        if gone {
          left := true;
          Chain(m0, m1, Here(), w, RunDeeds(logs), EndDeeds(end));
          return;
        }
        ghost var m2 := Here();
        var failed;
        ghost var log;
        more, failed, log := Advance(w, r);
        Chain(m1, m2, Here(), w, [Deed(Top, ReadRun)], TurnDeeds(log));
        OneMoreTurn(m0, m1, Here(), w, logs, log);
        logs := logs + [log];
        ghost var m3 := Here();
        if failed {
          AwaitError(w, r);
          ghost var m4 := Here();
          Leave(w, r);
          left, end := true, Errored;
          Chain(m3, m4, Here(), w, [Deed(Failing, AwaitTrouble)], [Deed(Exiting, Exit)]);
          assert EndDeeds(Errored) == [Deed(Failing, AwaitTrouble)] + [Deed(Exiting, Exit)];
          Chain(m0, m3, Here(), w, RunDeeds(logs), EndDeeds(Errored));
          return;
        }
        if !more {
          Leave(w, r);
          left, end := true, Finished;
          Chain(m0, m3, Here(), w, RunDeeds(logs), EndDeeds(Finished));
          return;
        }
        n := n + 1;
      }
      left, end := false, Cut;
      assert RunDeeds(logs) + EndDeeds(Cut) == RunDeeds(logs);
    }

    /** The top of the loop: a row that is gone or not Running ends the worker, and so does a pause, which
        parks the run first. */
    method ReadTop(ghost w: WorkerId, r: RunId) returns (gone: bool, ghost end: RunEnd)
      requires At(w, r, Top)
      modifies this, store
      ensures if gone then Coupled() && r !in workers && (end == Stopped || end == Parked) else At(w, r, Begin)
      ensures Extends(old(Here()), Here(), w, if gone then EndDeeds(end) else [Deed(Top, ReadRun)])
    {
      hide History, Schema, Commit, Of, Deeds;
      hide Onward, Extends;
      ghost var m0 := Here();
      Interfere(w, r, Top);
      ghost var m1 := Here();
      gone, end := true, Stopped;
      StoppedDeeds();
      hide EndDeeds;
      if r !in store.runs {
        Gone(w, r);
      } else {
        Own(w, r, Top);
        var run := store.runs[r];
        var go, park := run.state == Running && !run.pauseRequested, run.state == Running && run.pauseRequested;
        Look(w, r, Top, ReadRun, if go then Begin else if park then Park(true) else Exiting);
        if go {
          Quietly(m0, m1, Here(), w, [Deed(Top, ReadRun)]);
          gone := false;
          return;
        }
        if park {
          Quietly(m0, m1, Here(), w, [Deed(Top, ReadRun)]);
          ghost var m2 := Here();
          LeaveParked(w, r);
          end := Parked;
          Chain(m0, m2, Here(), w, [Deed(Top, ReadRun)], [Deed(Park(true), ParkRun)] + [Deed(Exiting, Exit)]);
          return;
        }
      }
      Quietly(m0, m1, Here(), w, [Deed(Top, ReadRun)]);
      ghost var m3 := Here();
      Leave(w, r);
      Chain(m0, m3, Here(), w, [Deed(Top, ReadRun)], [Deed(Exiting, Exit)]);
    }

    method LeaveParked(ghost w: WorkerId, r: RunId)
      requires At(w, r, Park(true))
      modifies this, store
      ensures Coupled() && r !in workers
      ensures Extends(old(Here()), Here(), w, [Deed(Park(true), ParkRun)] + [Deed(Exiting, Exit)])
    {
      hide *;
      ghost var m0 := Here();
      PauseRun(w, r, true);
      ghost var m1 := Here();
      Leave(w, r);
      Chain(m0, m1, Here(), w, [Deed(Park(true), ParkRun)], [Deed(Exiting, Exit)]);
    }

    /** The row was cleared: the read fails. */
    ghost method Gone(w: WorkerId, r: RunId)
      requires At(w, r, Top) && r !in store.runs
      modifies this`sys, this`past, this`trace
      ensures At(w, r, Exiting)
      ensures Extends(old(Here()), Here(), w, [Deed(Top, ReadRun)])
    {
      hide History, Schema, Commit, Of, Deeds;
      var t := sys.(procs := sys.procs[w := Proc(r, Exiting)]);
      Record(Drive(w, ReadRun), t);
    }

    /** The deferred unregistration. */
    method Leave(ghost w: WorkerId, r: RunId)
      requires At(w, r, Exiting)
      modifies this, store
      ensures Coupled() && r !in workers
      ensures Extends(old(Here()), Here(), w, [Deed(Exiting, Exit)])
    {
      hide History, Schema, Commit, Of, Deeds;
      Interfere(w, r, Exiting);
      ghost var t := sys.(procs := sys.procs - {w}, registry := sys.registry - {r});
      Record(Drive(w, Exit), t);
      workers := workers - {r};
    }

    // -------------------------------------------------------------------------
    // Starting workers
    // -------------------------------------------------------------------------

    /** A worker value no registered worker has. */
    method Spawn() returns (w: WorkerId)
      requires Coupled()
      ensures w !in sys.procs
    {
      var todo := workers.Keys;
      w := 0;
      while todo != {}
        invariant todo <= workers.Keys
        invariant forall r :: r in workers && r !in todo ==> workers[r] < w
        decreases todo
      {
        var r :| r in todo;
        w := if workers[r] < w then w else workers[r] + 1;
        todo := todo - {r};
      }
      Reachable(past, trace, |trace|);
    }

    /** Registers a worker unless one is registered already, whatever that one is about to do. */
    method Start(r: RunId) returns (w: Option<WorkerId>)
      requires Coupled() && r in sys.starts
      modifies this
      ensures Coupled() && sys.starts == old(sys.starts) - {r} && sys.db == old(sys.db)
      ensures w.Some? <==> r !in old(workers)
      ensures w.Some? ==> At(w.value, r, Top)
      ensures workers == if w.Some? then old(workers)[r := w.value] else old(workers)
      ensures Onward(old(Here()), Here()) && |trace| == |old(trace)| + 1 && IsStart(trace[|old(trace)|], r)
      ensures w.Some? ==> Granted(Here(), |old(trace)|, r)
    {
      hide History, Schema, Commit, Of, Deeds;
      var id := Spawn();
      ghost var t := StartStep(sys, r, id).value;
      Record(Action.Start(r, id), t);
      w := None;
      if r !in workers {
        workers := workers[r := id];
        w := Some(id);
      }
      Lengths();
    }

    /** Workers go on while the operator's request is between its commit and its start. */
    method Elsewhere()
      requires Coupled()
      modifies this, store
      ensures Coupled() && sys.starts == old(sys.starts)
      ensures Onward(old(Here()), Here()) && workers.Keys <= old(workers).Keys
    {
    }

    /** One pass at boot: every run left Running is started, in whatever order, and gets a worker. */
    method Recover()
      requires History() && !sys.up && workers == map[] && store.Valid() && sys.db == store.View()
      modifies this, store
      ensures Coupled() && sys.starts == {} && Onward(old(Here()), Here())
      ensures forall r :: r in old(store.runs) && old(store.runs)[r].state == Running ==> GrantedSince(old(Here()), Here(), r)
    {
      hide History, Schema, Commit, Of, Deeds, Granted;
      ghost var m0 := Here();
      ghost var t := Next(sys, Boot).value;
      DownIsEmpty();
      Record(Boot, t);
      var todo := set r | r in store.runs && store.runs[r].state == Running;
      ghost var all := todo;
      while todo != {}
        invariant Coupled() && sys.starts == todo && Onward(m0, Here())
        invariant todo <= all && forall r :: r in todo ==> r !in workers
        invariant forall r :: r in all && r !in todo ==> GrantedSince(m0, Here(), r)
        decreases todo
      {
        var r :| r in todo;
        ghost var before, m1 := todo, Here();
        var w := Start(r);
        ghost var m2 := Here();
        Elsewhere();
        todo := todo - {r};
        GrantsStay(m0, m1, m2, Here(), all - before, r);
      }
    }

    /** What was granted before, and the start just made. */
    lemma GrantsStay(m0: Mark, m1: Mark, m2: Mark, m3: Mark, granted: set<RunId>, r: RunId)
      requires Onward(m0, m1) && Onward(m1, m2) && Onward(m2, m3)
      requires |m2.trace| == |m1.trace| + 1
      requires forall q :: q in granted ==> GrantedSince(m0, m1, q)
      requires Granted(m2, |m1.trace|, r)
      ensures Onward(m0, m3) && forall q :: q in granted || q == r ==> GrantedSince(m0, m3, q)
    {
      hide Granted;
      assert GrantedSince(m0, m2, r);
      GrantStays(m0, m2, m3, r);
      forall q | q in granted ensures GrantedSince(m0, m3, q) {
        GrantStays(m0, m1, m2, q);
        GrantStays(m0, m2, m3, q);
      }
    }

    /** A process that is down has no workers. */
    lemma DownIsEmpty()
      requires History() && !sys.up
      ensures sys.procs == map[] && sys.registry == map[]
    {
      Reachable(past, trace, |trace|);
    }

    // -------------------------------------------------------------------------
    // Operator requests
    // -------------------------------------------------------------------------

    /** A message: an answer when the run waits for one, a new run when the project has none.
        Anything else is busy. `newRun` is the id the insert would generate. */
    method Submit(p: ProjectId, text: string, newRun: RunId) returns (run: Option<RunId>)
      requires Coupled() && Serving(sys) && p in store.projects && p !in sys.clears
      requires newRun !in sys.used
      modifies this, store
      ensures Coupled() && sys.starts == {}
      ensures run == None <==> Trim(text) == "" || Busy(old(store.runs), p)
      ensures run == None ==> store.View() == old(store.View()) && trace == old(trace)
      ensures run.Some? ==> Requests(old(Here()), Here(), Create(p, newRun, text), run.value)
                            || Requests(old(Here()), Here(), Answer(p, run.value, text), run.value)
    {
      hide History, Schema, Commit, Of, Deeds;
      var said := Trim(text);
      if said == "" {
        return None;
      }
      var active := store.ActiveRun(p);
      if active.Some? {
        var answered := AnswerRun(p, active.value, text);
        return if answered then active else None;
      }
      NewRun(p, text, newRun);
      run := Some(newRun);
    }

    method AnswerRun(p: ProjectId, r: RunId, text: string) returns (answered: bool)
      requires Coupled() && Serving(sys) && Trim(text) != ""
      requires r in store.runs && store.runs[r].project == p && store.runs[r].Active()
      modifies this, store
      ensures Coupled() && sys.starts == {}
      ensures !answered <==> Busy(old(store.runs), p)
      ensures !answered ==> store.View() == old(store.View()) && trace == old(trace)
      ensures answered ==> Requests(old(Here()), Here(), Answer(p, r, text), r)
    {
      hide History, Schema, Commit, Of, Deeds;
      if store.runs[r].state != AwaitingHuman || store.runs[r].reason != Some(Question) {
        return false;
      }
      NotBusy(r, p);
      var ok := store.AppendAnswerAndResume(r, Trim(text));
      Record(Answer(p, r, text), Requested(sys, store.View(), r));
      StartSoon(r);
      answered := true;
    }

    method NewRun(p: ProjectId, text: string, newRun: RunId)
      requires Coupled() && Serving(sys) && p in store.projects && p !in sys.clears && Trim(text) != ""
      requires newRun !in sys.used && !HasActive(store.runs, p)
      modifies this, store
      ensures Coupled() && sys.starts == {}
      ensures Requests(old(Here()), Here(), Create(p, newRun, text), newRun)
    {
      hide History, Schema, Commit, Of, Deeds;
      NewIsNew(newRun);
      var ok := store.CreateRunWithMessage(p, newRun, Trim(text));
      Record(Create(p, newRun, text), Generated(sys, store.View(), newRun));
      StartSoon(newRun);
    }

    /** An id never generated has no row. */
    lemma NewIsNew(r: RunId)
      requires Coupled() && r !in sys.used
      ensures r !in store.runs
    {
      Reachable(past, trace, |trace|);
    }

    lemma NotBusy(r: RunId, p: ProjectId)
      requires store.Valid() && r in store.runs && store.runs[r].project == p
      requires store.runs[r].state == AwaitingHuman && store.runs[r].reason == Some(Question)
      ensures !Busy(store.runs, p)
    {
    }

    method StartSoon(r: RunId)
      requires Coupled() && sys.starts == {r}
      modifies this, store
      ensures Coupled() && sys.starts == {} && Onward(old(Here()), Here())
      ensures exists k :: |old(trace)| <= k < |trace| && IsStart(trace[k], r)
    {
      hide History, Schema, Deeds;
      Elsewhere();
      ghost var k := |trace|;
      var w := Start(r);
      assert IsStart(trace[k], r);
    }

    /** Durable first: cancelling the stream and the tool only makes it take effect sooner. */
    method Pause(p: ProjectId) returns (found: bool)
      requires Coupled() && Serving(sys)
      modifies this, store
      ensures Coupled() && trace == old(trace) + [Action.Pause(p)]
      ensures found <==> exists q :: q in old(store.runs) && old(store.runs)[q].project == p && old(store.runs)[q].state == Running
    {
      hide History, Schema, Commit, Of, Deeds;
      var r := store.RequestPause(p);
      Record(Action.Pause(p), sys.(db := store.View()));
      found := r.Some?;
    }

    method Resume(p: ProjectId) returns (run: Option<RunId>)
      requires Coupled() && Serving(sys)
      modifies this, store
      ensures Coupled() && sys.starts == {}
      ensures run.Some? <==> exists q :: q in old(store.runs) && old(store.runs)[q].project == p && Resumable(old(store.runs)[q])
      ensures run == None ==> store.View() == old(store.View()) && trace == old(trace)
      ensures run.Some? ==> Requests(old(Here()), Here(), Action.Resume(p, run.value), run.value)
    {
      hide History, Schema, Commit, Of, Deeds;
      run := store.ResumeRun(p);
      if run.Some? {
        Record(Action.Resume(p, run.value), Requested(sys, store.View(), run.value));
        StartSoon(run.value);
      }
    }

    method ApprovePlan(p: ProjectId, base: string) returns (run: Option<RunId>)
      requires Coupled() && Serving(sys) && p in store.projects
      modifies this, store
      ensures Coupled() && sys.starts == {}
      ensures run == None ==> store.View() == old(store.View()) && trace == old(trace)
      ensures run.Some? ==> Store.ApprovePlan(old(store.View()), p, run.value, base).Some?
      ensures run == None ==> forall q :: Store.ApprovePlan(old(store.View()), p, q, base) == None
      ensures run.Some? ==> Requests(old(Here()), Here(), Approve(p, run.value, base), run.value)
    {
      hide History, Schema, Deeds, Store.ApprovePlan;
      run := store.ApprovePlan(p, base);
      if run.Some? {
        Record(Approve(p, run.value, base), Requested(sys, store.View(), run.value));
        StartSoon(run.value);
      }
    }

    method RevisePlan(p: ProjectId, feedback: string) returns (run: Option<RunId>)
      requires Coupled() && Serving(sys) && p in store.projects
      modifies this, store
      ensures Coupled() && sys.starts == {}
      ensures run == None ==> store.View() == old(store.View()) && trace == old(trace)
      ensures run.Some? ==> Store.RevisePlan(old(store.View()), p, run.value, feedback).Some?
      ensures run == None ==> forall q :: Store.RevisePlan(old(store.View()), p, q, feedback) == None
      ensures run.Some? ==> Requests(old(Here()), Here(), Revise(p, run.value, feedback), run.value)
    {
      hide History, Schema, Deeds, Store.RevisePlan;
      run := store.RevisePlan(p, feedback);
      if run.Some? {
        Record(Revise(p, run.value, feedback), Requested(sys, store.View(), run.value));
        StartSoon(run.value);
      }
    }
  }

  /** A live run that is not waiting for an answer. */
  ghost predicate Busy(runs: map<RunId, Run>, p: ProjectId) {
    exists r :: r in runs && runs[r].project == p && runs[r].Active()
                && !(runs[r].state == AwaitingHuman && runs[r].reason == Some(Question))
  }
}
