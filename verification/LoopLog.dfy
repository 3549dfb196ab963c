/** What one pass of the agent loop does, as a log of calls, replies and turns, and the worker's own steps that
    such a log stands for. */
module LoopLog {
  import opened Prelude
  import opened Transcript
  import opened Store
  import opened Worker
  import opened RunMachine

  /** One step of a worker: where it stood and what it did. */
  datatype Deed = Deed(pc: Pc, act: Act)

  function DeedOf(s: System, a: Action, w: WorkerId): seq<Deed> {
    if a.Drive? && a.w == w && w in s.procs then [Deed(s.procs[w].pc, a.act)] else []
  }

  /** A worker's own steps in a history. */
  function Deeds(past: seq<System>, trace: seq<Action>, w: WorkerId): seq<Deed> {
    if trace == [] || |past| < |trace| then []
    else
      var n := |trace| - 1;
      Deeds(past[..n], trace[..n], w) + DeedOf(past[n], trace[n], w)
  }

  lemma {:induction false} DeedsIgnoreLast(past: seq<System>, trace: seq<Action>, s: System, w: WorkerId)
    requires |past| >= |trace|
    ensures Deeds(past + [s], trace, w) == Deeds(past, trace, w)
  {
    if trace != [] {
      var n := |trace| - 1;
      assert (past + [s])[..n] == past[..n];
    }
  }

  lemma DeedsPush(past: seq<System>, trace: seq<Action>, s: System, a: Action, w: WorkerId)
    requires |past| == |trace| + 1
    ensures Deeds(past + [s], trace + [a], w) == Deeds(past, trace, w) + DeedOf(past[|trace|], a, w)
  {
    var n := |trace|;
    assert (trace + [a])[..n] == trace && (past + [s])[..n] == past[..n];
    assert past == past[..n] + [past[n]];
    DeedsIgnoreLast(past[..n], trace, past[n], w);
  }

  /** A moment of a history. */
  datatype Mark = Mark(past: seq<System>, trace: seq<Action>)
  {
    /** The worker's own steps up to here. */
    function By(w: WorkerId): seq<Deed> {
      Deeds(past, trace, w)
    }
  }

  ghost predicate Onward(m: Mark, n: Mark) {
    m.past <= n.past && m.trace <= n.trace
  }

  /** From one moment to a later one the worker took exactly these steps; others took any. */
  ghost predicate Extends(m: Mark, n: Mark, w: WorkerId, ds: seq<Deed>) {
    Onward(m, n) && n.By(w) == m.By(w) + ds
  }

  lemma Chain(a: Mark, b: Mark, c: Mark, w: WorkerId, ds: seq<Deed>, es: seq<Deed>)
    requires Extends(a, b, w, ds) && Extends(b, c, w, es)
    ensures Extends(a, c, w, ds + es)
  {
    hide Deeds;
    assert a.By(w) + ds + es == a.By(w) + (ds + es);
  }

  /** Step `k` is a start of the run that gives it a worker at the top of the loop. */
  ghost predicate Granted(m: Mark, k: nat, r: RunId) {
    k < |m.trace| && k + 1 < |m.past| && m.trace[k].Start? && m.trace[k].r == r && PcOf(m.past[k + 1], r) == Some(Top)
  }

  ghost predicate GrantedSince(m: Mark, n: Mark, r: RunId) {
    exists k :: |m.trace| <= k < |n.trace| && Granted(n, k, r)
  }

  lemma GrantStays(m: Mark, n: Mark, o: Mark, r: RunId)
    requires Onward(n, o) && GrantedSince(m, n, r)
    ensures GrantedSince(m, o, r)
  {
    var k :| |m.trace| <= k < |n.trace| && Granted(n, k, r);
    assert Granted(o, k, r);
  }

  /** The request is the first step taken since, and the start of the run it released is another. */
  ghost predicate Requests(m: Mark, n: Mark, a: Action, r: RunId) {
    && Onward(m, n) && |m.trace| < |n.trace| && n.trace[|m.trace|] == a
    && exists k :: |m.trace| < k < |n.trace| && IsStart(n.trace[k], r)
  }

  predicate IsStart(a: Action, r: RunId) {
    a.Start? && a.r == r
  }

  // ---------------------------------------------------------------------------
  // The log of one call
  // ---------------------------------------------------------------------------

  /** What became of a result: a control tool handed over nothing usable, or it was applied, with the
      outcome of the push, and its transaction went through or not. */
  datatype ApplyLog = Unusable | Applied(ship: Shipping, ok: bool)

  datatype CallLog =
    | PausedBefore
    | ToolFailed
    | Ran(result: ToolResult, logged: seq<string>, end: ApplyLog)

  predicate Usable(name: string, d: Display) {
    match name
    case "create_plan" => d.PlanDisplay?
    case "update_task" => d.TaskDisplay?
    case "remember" => d.MemoriesDisplay?
    case "record_orientation" => d.OrientationDisplay?
    case "done" => d.DoneDisplay?
    case _ => true
  }

  /** The run leaves the loop's hands: it asks, waits for approval, or ships, or fails to. */
  predicate Transitions(name: string, result: ToolResult, ship: Shipping) {
    !result.isError && (name == "ask_human" || name == "create_plan" || (name == "done" && !ship.Refused?))
  }

  /** Only the transactions that make a run wait can be refused; a result that is an error, or not a
      control tool's, is always stored. */
  predicate ApplyFits(name: string, result: ToolResult, end: ApplyLog) {
    && (end.Unusable? <==> !result.isError && !Usable(name, result.display))
    && (end.Applied? && !end.ok ==>
          !result.isError && (name == "ask_human" || name == "create_plan" || (name == "done" && end.ship.PushFailed?)))
  }

  function ShippedDeeds(rest: seq<ToolCall>, text: string): seq<Deed> {
    [Deed(ShipClear(rest, text), ClearBoard), Deed(ShipRow(rest, text), AppendShipped), Deed(ShipEnd(rest), FinishDone)]
  }

  /** The commits after the first: the result row of a note, or the last writes of a shipped `done`. */
  function AfterApply(rest: seq<ToolCall>, result: ToolResult, ship: Shipping): seq<Deed>
    requires rest != []
  {
    if result.isError then []
    else if rest[0].name == "remember" || rest[0].name == "record_orientation" then [Deed(Noted(rest, result), AppendNoted)]
    else if rest[0].name == "done" && ship == Pushed then ShippedDeeds(rest, result.content)
    else []
  }

  function ApplyDeeds(rest: seq<ToolCall>, result: ToolResult, end: ApplyLog): seq<Deed>
    requires rest != []
  {
    match end
    case Unusable => [Deed(Settle(rest, result), Fail)]
    case Applied(ship, _) => [Deed(Settle(rest, result), ApplyResult(ship))] + AfterApply(rest, result, ship)
  }

  predicate ApplyOk(end: ApplyLog) {
    end.Applied? && end.ok
  }

  /** A result that takes one commit. */
  lemma AppliedOnce(rest: seq<ToolCall>, result: ToolResult, ship: Shipping, ok: bool)
    requires rest != []
    requires result.isError || (rest[0].name != "remember" && rest[0].name != "record_orientation"
                                && !(rest[0].name == "done" && ship == Pushed))
    ensures ApplyDeeds(rest, result, Applied(ship, ok)) == [Deed(Settle(rest, result), ApplyResult(ship))]
  {
  }

  predicate CallFits(rest: seq<ToolCall>, log: CallLog)
    requires rest != []
  {
    log.Ran? ==> ApplyFits(rest[0].name, log.result, log.end)
  }

  predicate Goes(rest: seq<ToolCall>, log: CallLog)
    requires rest != []
  {
    log.Ran? && ApplyOk(log.end) && !Transitions(rest[0].name, log.result, log.end.ship)
  }

  predicate Fails(log: CallLog) {
    log.ToolFailed? || (log.Ran? && !ApplyOk(log.end))
  }

  function RecheckDeeds(rest: seq<ToolCall>, goes: bool): seq<Deed>
    requires rest != []
  {
    if goes then [Deed(Check(rest[1..]), Recheck)] else []
  }

  /** What follows the look for a pause and the start of the tool. */
  function TailDeeds(rest: seq<ToolCall>, log: CallLog): seq<Deed>
    requires rest != []
  {
    match log
    case PausedBefore => [Deed(Park(false), ParkRun)]
    case ToolFailed => [Deed(Tooling(rest), Fail)]
    case Ran(result, logged, end) =>
      [Deed(Tooling(rest), ToolReturns(result, logged))] + (ApplyDeeds(rest, result, end) + RecheckDeeds(rest, Goes(rest, log)))
  }

  function CallDeeds(rest: seq<ToolCall>, log: CallLog): seq<Deed>
    requires rest != []
  {
    [Deed(Exec(rest), CheckPause)] + (if log.PausedBefore? then [] else [Deed(Ready(rest), StartTool)]) + TailDeeds(rest, log)
  }

  // ---------------------------------------------------------------------------
  // The log of the calls of one turn
  // ---------------------------------------------------------------------------

  /** A failure before the first call, or one log a call. */
  datatype CallsLog = NotBegun | Began(logs: seq<CallLog>)

  function CallsDeeds(rest: seq<ToolCall>, logs: seq<CallLog>): seq<Deed>
    requires |logs| <= |rest|
  {
    if logs == [] then []
    else
      var n := |logs| - 1;
      CallsDeeds(rest, logs[..n]) + CallDeeds(rest[n..], logs[n])
  }

  /** One call after another, from the first on; only the last one logged may stop the loop, and only a call
      that did leaves others out. */
  ghost predicate Fit(rest: seq<ToolCall>, logs: seq<CallLog>) {
    && |logs| <= |rest|
    && (forall k :: 0 <= k < |logs| ==> CallFits(rest[k..], logs[k]))
    && (forall k :: 0 <= k < |logs| - 1 ==> Goes(rest[k..], logs[k]))
    && (|logs| < |rest| ==> logs != [] && !Goes(rest[|logs| - 1..], logs[|logs| - 1]))
  }

  ghost predicate RanFits(rest: seq<ToolCall>, ran: CallsLog) {
    ran.Began? ==> Fit(rest, ran.logs)
  }

  predicate RanOk(ran: CallsLog) {
    ran.Began? && (ran.logs != [] ==> !Fails(ran.logs[|ran.logs| - 1]))
  }

  function RanDeeds(rest: seq<ToolCall>, ran: CallsLog): seq<Deed> {
    match ran
    case NotBegun => [Deed(Exec(rest), Fail)]
    case Began(logs) => if |logs| <= |rest| then CallsDeeds(rest, logs) else []
  }

  // ---------------------------------------------------------------------------
  // The log of one turn, and of a worker
  // ---------------------------------------------------------------------------

  datatype ReplyLog =
    | Broke(partial: string, reasoning: seq<Reasoning>, parked: bool)
    | Mute
    | Spoke(content: string, calls: seq<ToolCall>, reasoning: seq<Reasoning>, ran: CallsLog)

  datatype TurnLog =
    | Recovered
    | Replayed(rest: seq<ToolCall>, ran: CallsLog)
    | AskedModel(reply: ReplyLog)

  ghost predicate ReplyFits(log: ReplyLog) {
    log.Spoke? && log.calls != [] ==> RanFits(log.calls, log.ran)
  }

  function ReplyDeeds(log: ReplyLog): seq<Deed> {
    match log
    case Broke(partial, reasoning, parked) =>
      [Deed(Stream, Broken(partial, reasoning))] + LostDeeds(parked)
    case Mute => [Deed(Stream, Silent)]
    case Spoke(content, calls, reasoning, ran) =>
      [Deed(Stream, Reply(content, calls, reasoning))] + SpokenDeeds(calls, ran)
  }

  predicate ReplyFails(log: ReplyLog) {
    match log
    case Broke(_, _, parked) => !parked
    case Mute => true
    case Spoke(_, calls, _, ran) => calls != [] && !RanOk(ran)
  }

  predicate ReplyEnds(log: ReplyLog) {
    match log
    case Broke(_, _, parked) => parked
    case Mute => false
    case Spoke(_, calls, _, _) => calls == []
  }

  function LostDeeds(parked: bool): seq<Deed> {
    [Deed(Lost, CheckLost)] + if parked then [Deed(Park(true), ParkRun)] else []
  }

  function SpokenDeeds(calls: seq<ToolCall>, ran: CallsLog): seq<Deed> {
    [Deed(Count(calls), CountStep)] + if calls == [] then [Deed(Close, FinishIdle)] else RanDeeds(calls, ran)
  }

  ghost predicate TurnFits(log: TurnLog) {
    match log
    case Recovered => true
    case Replayed(rest, ran) => rest != [] && RanFits(rest, ran)
    case AskedModel(reply) => ReplyFits(reply)
  }

  function TurnDeeds(log: TurnLog): seq<Deed> {
    match log
    case Recovered => [Deed(Begin, CloseWindow)]
    case Replayed(rest, ran) => [Deed(Begin, CloseWindow), Deed(Trail, ReadTrailing)] + RanDeeds(rest, ran)
    case AskedModel(reply) => [Deed(Begin, CloseWindow), Deed(Trail, ReadTrailing)] + ([Deed(Ask, CallModel)] + ReplyDeeds(reply))
  }

  predicate TurnFails(log: TurnLog) {
    match log
    case Recovered => false
    case Replayed(_, ran) => !RanOk(ran)
    case AskedModel(reply) => ReplyFails(reply)
  }

  /** The turn ends the worker without an error. */
  predicate TurnEnds(log: TurnLog) {
    match log
    case Recovered => true
    case Replayed(_, _) => false
    case AskedModel(reply) => ReplyEnds(reply)
  }

  /** How the worker came to an end: the process died, the row said stop, or its last turn did. */
  datatype RunEnd = Cut | Stopped | Parked | Errored | Finished

  function EndDeeds(end: RunEnd): seq<Deed> {
    match end
    case Cut => []
    case Stopped => [Deed(Top, ReadRun), Deed(Exiting, Exit)]
    case Parked => [Deed(Top, ReadRun), Deed(Park(true), ParkRun), Deed(Exiting, Exit)]
    case Errored => [Deed(Failing, AwaitTrouble), Deed(Exiting, Exit)]
    case Finished => [Deed(Exiting, Exit)]
  }

  function RunDeeds(turns: seq<TurnLog>): seq<Deed> {
    if turns == [] then []
    else
      var n := |turns| - 1;
      RunDeeds(turns[..n]) + ([Deed(Top, ReadRun)] + TurnDeeds(turns[n]))
  }

  /** Every turn but the last goes on, and the last does as the end says. */
  ghost predicate RunFits(turns: seq<TurnLog>, end: RunEnd) {
    && (forall k :: 0 <= k < |turns| ==> TurnFits(turns[k]))
    && (forall k :: 0 <= k < |turns| - 1 ==> !TurnFails(turns[k]) && !TurnEnds(turns[k]))
    && (end == Errored ==> turns != [] && TurnFails(turns[|turns| - 1]))
    && (end == Finished ==> turns != [] && !TurnFails(turns[|turns| - 1]) && TurnEnds(turns[|turns| - 1]))
    && (end != Errored && end != Finished && turns != [] ==> !TurnFails(turns[|turns| - 1]) && !TurnEnds(turns[|turns| - 1]))
  }

  // ---------------------------------------------------------------------------
  // Putting a log together
  // ---------------------------------------------------------------------------

  function CheckDeeds(rest: seq<ToolCall>): seq<Deed> {
    [Deed(Exec(rest), CheckPause)]
  }

  function ReturnDeed(rest: seq<ToolCall>, result: Option<ToolResult>, logged: seq<string>): Deed {
    Deed(Tooling(rest), if result.Some? then ToolReturns(result.value, logged) else Fail)
  }

  function ToolDeeds(rest: seq<ToolCall>, result: Option<ToolResult>, logged: seq<string>): seq<Deed> {
    [Deed(Ready(rest), StartTool)] + [ReturnDeed(rest, result, logged)]
  }

  /** Others went first. */
  lemma Quietly(a: Mark, b: Mark, c: Mark, w: WorkerId, ds: seq<Deed>)
    requires Onward(a, b) && b.By(w) == a.By(w) && Extends(b, c, w, ds)
    ensures Extends(a, c, w, ds)
  {
  }

  lemma Still(a: Mark, w: WorkerId)
    ensures Extends(a, a, w, [])
  {
  }

  lemma ChainShipped(a: Mark, b: Mark, c: Mark, d: Mark, w: WorkerId, rest: seq<ToolCall>, text: string)
    requires Extends(a, b, w, [Deed(ShipClear(rest, text), ClearBoard)])
    requires Extends(b, c, w, [Deed(ShipRow(rest, text), AppendShipped)])
    requires Extends(c, d, w, [Deed(ShipEnd(rest), FinishDone)])
    ensures Extends(a, d, w, ShippedDeeds(rest, text))
  {
    hide Extends;
    var x, y, z := [Deed(ShipClear(rest, text), ClearBoard)], [Deed(ShipRow(rest, text), AppendShipped)], [Deed(ShipEnd(rest), FinishDone)];
    Chain(a, b, c, w, x, y);
    Chain(a, c, d, w, x + y, z);
    assert x + y + z == ShippedDeeds(rest, text);
  }

  lemma PushedDeeds(rest: seq<ToolCall>, result: ToolResult)
    requires rest != [] && rest[0].name == "done" && !result.isError
    ensures ApplyDeeds(rest, result, Applied(Pushed, true)) ==
            [Deed(Settle(rest, result), ApplyResult(Pushed))] + ShippedDeeds(rest, result.content)
  {
  }

  lemma PausedLog(rest: seq<ToolCall>)
    requires rest != []
    ensures CallFits(rest, PausedBefore) && !Goes(rest, PausedBefore) && !Fails(PausedBefore)
    ensures CallDeeds(rest, PausedBefore) == CheckDeeds(rest) + [Deed(Park(false), ParkRun)]
  {
  }

  lemma FailedLog(rest: seq<ToolCall>, logged: seq<string>)
    requires rest != []
    ensures CallFits(rest, ToolFailed) && !Goes(rest, ToolFailed) && Fails(ToolFailed)
    ensures CallDeeds(rest, ToolFailed) == CheckDeeds(rest) + ToolDeeds(rest, None, logged)
  {
  }

  lemma RanLog(rest: seq<ToolCall>, log: CallLog, transitioned: bool, ok: bool)
    requires rest != [] && log.Ran? && ApplyFits(rest[0].name, log.result, log.end) && ok == ApplyOk(log.end)
    requires ok ==> (transitioned <==> Transitions(rest[0].name, log.result, log.end.ship))
    ensures CallFits(rest, log) && Goes(rest, log) == (ok && !transitioned) && Fails(log) == !ok
    ensures CallDeeds(rest, log) == CheckDeeds(rest) + ToolDeeds(rest, Some(log.result), log.logged)
                                    + (ApplyDeeds(rest, log.result, log.end) + RecheckDeeds(rest, ok && !transitioned))
  {
    var x := ApplyDeeds(rest, log.result, log.end) + RecheckDeeds(rest, ok && !transitioned);
    var check, start, returned := CheckDeeds(rest), [Deed(Ready(rest), StartTool)], [Deed(Tooling(rest), ToolReturns(log.result, log.logged))];
    assert CallDeeds(rest, log) == check + start + (returned + x);
    hide CallDeeds, ApplyDeeds, RecheckDeeds;
    assert check + start + (returned + x) == check + (start + returned) + x;
  }

  lemma RecheckedLog(a: Mark, b: Mark, c: Mark, w: WorkerId, rest: seq<ToolCall>, log: CallLog)
    requires rest != [] && log.Ran? && Extends(a, b, w, ApplyDeeds(rest, log.result, log.end))
    requires if Goes(rest, log) then Extends(b, c, w, [Deed(Check(rest[1..]), Recheck)]) else b == c
    ensures Extends(a, c, w, ApplyDeeds(rest, log.result, log.end) + RecheckDeeds(rest, Goes(rest, log)))
  {
    hide ApplyDeeds;
    if Goes(rest, log) {
      Chain(a, b, c, w, ApplyDeeds(rest, log.result, log.end), [Deed(Check(rest[1..]), Recheck)]);
    } else {
      Still(b, w);
      Chain(a, b, c, w, ApplyDeeds(rest, log.result, log.end), []);
    }
  }

  ghost predicate AllGo(rest: seq<ToolCall>, logs: seq<CallLog>) {
    |logs| <= |rest| && forall k :: 0 <= k < |logs| ==> CallFits(rest[k..], logs[k]) && Goes(rest[k..], logs[k])
  }

  lemma NothingRun(a: Mark, w: WorkerId, rest: seq<ToolCall>)
    ensures AllGo(rest, []) && Extends(a, a, w, CallsDeeds(rest, []))
  {
    Still(a, w);
  }

  lemma OneMoreCall(a: Mark, b: Mark, c: Mark, w: WorkerId, rest: seq<ToolCall>, logs: seq<CallLog>, log: CallLog)
    requires |logs| < |rest| && Extends(a, b, w, CallsDeeds(rest, logs)) && Extends(b, c, w, CallDeeds(rest[|logs|..], log))
    ensures Extends(a, c, w, CallsDeeds(rest, logs + [log]))
  {
    hide Extends, CallDeeds;
    assert (logs + [log])[..|logs|] == logs;
    Chain(a, b, c, w, CallsDeeds(rest, logs), CallDeeds(rest[|logs|..], log));
  }

  lemma StopsFit(rest: seq<ToolCall>, logs: seq<CallLog>, log: CallLog)
    requires |logs| < |rest| && AllGo(rest, logs) && CallFits(rest[|logs|..], log)
    requires !Goes(rest[|logs|..], log)
    ensures RanFits(rest, Began(logs + [log])) && RanOk(Began(logs + [log])) == !Fails(log)
  {
    hide CallFits, Goes, Fails;
  }

  lemma GoesOn(rest: seq<ToolCall>, logs: seq<CallLog>, log: CallLog)
    requires |logs| < |rest| && AllGo(rest, logs) && CallFits(rest[|logs|..], log) && Goes(rest[|logs|..], log)
    ensures AllGo(rest, logs + [log])
  {
    hide CallFits, Goes;
  }

  lemma AllGoFit(rest: seq<ToolCall>, logs: seq<CallLog>)
    requires AllGo(rest, logs) && |logs| == |rest|
    ensures RanFits(rest, Began(logs)) && RanOk(Began(logs))
  {
    if logs != [] {
      var n := |logs| - 1;
      assert Goes(rest[n..], logs[n]);
    }
  }

  lemma NotBegunLog(rest: seq<ToolCall>)
    ensures RanFits(rest, NotBegun) && !RanOk(NotBegun) && RanDeeds(rest, NotBegun) == [Deed(Exec(rest), Fail)]
  {
  }

  lemma BeganLog(rest: seq<ToolCall>, logs: seq<CallLog>)
    requires |logs| <= |rest|
    ensures RanDeeds(rest, Began(logs)) == CallsDeeds(rest, logs)
  {
  }

  lemma StoppedDeeds()
    ensures EndDeeds(Stopped) == [Deed(Top, ReadRun)] + [Deed(Exiting, Exit)]
    ensures EndDeeds(Parked) == [Deed(Top, ReadRun)] + ([Deed(Park(true), ParkRun)] + [Deed(Exiting, Exit)])
  {
  }

  lemma RecoveredLog()
    ensures TurnFits(Recovered) && !TurnFails(Recovered) && TurnEnds(Recovered)
    ensures TurnDeeds(Recovered) == [Deed(Begin, CloseWindow)]
  {
  }

  lemma ReplayedLog(rest: seq<ToolCall>, ran: CallsLog)
    requires rest != [] && RanFits(rest, ran)
    ensures TurnFits(Replayed(rest, ran)) && TurnFails(Replayed(rest, ran)) == !RanOk(ran) && !TurnEnds(Replayed(rest, ran))
    ensures TurnDeeds(Replayed(rest, ran)) == [Deed(Begin, CloseWindow)] + [Deed(Trail, ReadTrailing)] + RanDeeds(rest, ran)
  {
  }

  lemma AskedLog(reply: ReplyLog)
    requires ReplyFits(reply)
    ensures TurnFits(AskedModel(reply)) && TurnFails(AskedModel(reply)) == ReplyFails(reply)
            && TurnEnds(AskedModel(reply)) == ReplyEnds(reply)
    ensures TurnDeeds(AskedModel(reply)) ==
            [Deed(Begin, CloseWindow)] + [Deed(Trail, ReadTrailing)] + ([Deed(Ask, CallModel)] + ReplyDeeds(reply))
  {
  }

  lemma SpokenLog(calls: seq<ToolCall>, ran: CallsLog)
    ensures SpokenDeeds(calls, ran) ==
            [Deed(Count(calls), CountStep)] + if calls == [] then [Deed(Close, FinishIdle)] else RanDeeds(calls, ran)
  {
  }

  lemma MuteDeeds()
    ensures ReplyDeeds(Mute) == [Deed(Stream, Silent)]
  {
  }

  lemma BrokenDeeds(text: string, reasoning: seq<Reasoning>, parked: bool)
    ensures ReplyDeeds(Broke(text, reasoning, parked)) == [Deed(Stream, Broken(text, reasoning))] + LostDeeds(parked)
  {
  }

  lemma SpokeDeeds(content: string, calls: seq<ToolCall>, reasoning: seq<Reasoning>, ran: CallsLog)
    ensures ReplyDeeds(Spoke(content, calls, reasoning, ran)) ==
            [Deed(Stream, Reply(content, calls, reasoning))] + SpokenDeeds(calls, ran)
  {
  }

  lemma NoTurns(a: Mark, w: WorkerId)
    ensures RunFits([], Cut) && Extends(a, a, w, RunDeeds([]))
  {
    Still(a, w);
  }

  lemma OneMoreTurn(a: Mark, b: Mark, c: Mark, w: WorkerId, turns: seq<TurnLog>, log: TurnLog)
    requires Extends(a, b, w, RunDeeds(turns)) && Extends(b, c, w, [Deed(Top, ReadRun)] + TurnDeeds(log))
    ensures Extends(a, c, w, RunDeeds(turns + [log]))
  {
    hide Extends, TurnDeeds;
    assert (turns + [log])[..|turns|] == turns;
    Chain(a, b, c, w, RunDeeds(turns), [Deed(Top, ReadRun)] + TurnDeeds(log));
  }

  // ---------------------------------------------------------------------------
  // What every log keeps
  // ---------------------------------------------------------------------------

  /** The calls started, in order. */
  function Started(ds: seq<Deed>): seq<CallId> {
    if ds == [] then []
    else
      var n := |ds| - 1;
      Started(ds[..n]) + if ds[n].act == StartTool && ds[n].pc.Ready? && ds[n].pc.rest != [] then [ds[n].pc.rest[0].id] else []
  }

  lemma {:induction false} StartedJoin(a: seq<Deed>, b: seq<Deed>)
    ensures Started(a + b) == Started(a) + Started(b)
  {
    if b == [] {
      assert a + b == a;
    } else {
      var n := |b| - 1;
      StartedJoin(a, b[..n]);
      assert (a + b)[..|a + b| - 1] == a + b[..n];
    }
  }

  /** Nothing here starts a tool or a model call. */
  ghost predicate Plain(ds: seq<Deed>) {
    forall d :: d in ds ==> d.act != StartTool && d.act != CallModel
  }

  lemma {:induction false} NoneStarted(ds: seq<Deed>)
    requires Plain(ds)
    ensures Started(ds) == []
  {
    if ds != [] {
      assert ds[|ds| - 1] in ds;
      NoneStarted(ds[..|ds| - 1]);
    }
  }

  lemma PlainJoin(a: seq<Deed>, b: seq<Deed>)
    requires Plain(a) && Plain(b)
    ensures Plain(a + b)
  {
  }

  lemma PlainApply(rest: seq<ToolCall>, result: ToolResult, end: ApplyLog, goes: bool)
    requires rest != []
    ensures Plain(ApplyDeeds(rest, result, end) + RecheckDeeds(rest, goes))
  {
    PlainJoin(ApplyDeeds(rest, result, end), RecheckDeeds(rest, goes));
  }

  lemma PlainTail(rest: seq<ToolCall>, log: CallLog)
    requires rest != []
    ensures Plain(TailDeeds(rest, log))
  {
    if log.Ran? {
      hide ApplyDeeds, RecheckDeeds, Goes;
      PlainApply(rest, log.result, log.end, Goes(rest, log));
      PlainJoin([Deed(Tooling(rest), ToolReturns(log.result, log.logged))],
                ApplyDeeds(rest, log.result, log.end) + RecheckDeeds(rest, Goes(rest, log)));
    }
  }

  lemma StartedSingle(d: Deed)
    ensures Started([d]) == if d.act == StartTool && d.pc.Ready? && d.pc.rest != [] then [d.pc.rest[0].id] else []
  {
    assert [d][..0] == [];
  }

  lemma StartedOne(rest: seq<ToolCall>, log: CallLog)
    requires rest != []
    ensures Started(CallDeeds(rest, log)) == if log.PausedBefore? then [] else [rest[0].id]
  {
    var check, start := Deed(Exec(rest), CheckPause), Deed(Ready(rest), StartTool);
    var tail := TailDeeds(rest, log);
    PlainTail(rest, log);
    hide TailDeeds, Started, Plain;
    NoneStarted(tail);
    StartedSingle(check);
    StartedSingle(start);
    StartedJoin([check], [start]);
    StartedJoin([check], tail);
    StartedJoin([check] + [start], tail);
    assert [check] + [] == [check];
  }

  lemma StartedPush(rest: seq<ToolCall>, logs: seq<CallLog>, n: nat)
    requires |logs| == n + 1 <= |rest| && Started(CallsDeeds(rest, logs[..n])) == Ids(rest)[..n]
    ensures Started(CallsDeeds(rest, logs)) == Ids(rest)[..if logs[n].PausedBefore? then n else n + 1]
  {
    hide CallDeeds, Started;
    StartedJoin(CallsDeeds(rest, logs[..n]), CallDeeds(rest[n..], logs[n]));
    StartedOne(rest[n..], logs[n]);
    assert CallsDeeds(rest, logs) == CallsDeeds(rest, logs[..n]) + CallDeeds(rest[n..], logs[n]);
    hide CallsDeeds;
    assert Ids(rest)[..n + 1] == Ids(rest)[..n] + [rest[n].id];
  }

  lemma {:induction false} StartedCalls(rest: seq<ToolCall>, logs: seq<CallLog>)
    requires |logs| <= |rest| && forall k :: 0 <= k < |logs| - 1 ==> logs[k].Ran?
    ensures Started(CallsDeeds(rest, logs)) ==
            Ids(rest)[..if logs != [] && logs[|logs| - 1].PausedBefore? then |logs| - 1 else |logs|]
  {
    if logs != [] {
      StartedCalls(rest, logs[..|logs| - 1]);
      hide CallsDeeds, Started;
      StartedPush(rest, logs, |logs| - 1);
    }
  }

  /** The calls started are the wanted ones in their order, up to the one that stopped the loop; all of
      them when every call but the last went on and the last was not met by a pause. */
  lemma RunsTheWanted(rest: seq<ToolCall>, logs: seq<CallLog>)
    requires Fit(rest, logs)
    ensures Started(CallsDeeds(rest, logs)) <= Ids(rest)
    ensures Started(CallsDeeds(rest, logs)) == Ids(rest) <==>
            |logs| == |rest| && (logs != [] ==> !logs[|logs| - 1].PausedBefore?)
  {
    forall k | 0 <= k < |logs| - 1 ensures logs[k].Ran? {
      assert Goes(rest[k..], logs[k]);
    }
    hide Fit, CallsDeeds, Started;
    StartedCalls(rest, logs);
  }

  /** Before a tool starts the worker has just looked for a pause, and before a model call at the top of the
      same turn. */
  ghost predicate CheckedAt(ds: seq<Deed>, i: nat)
    requires i < |ds|
  {
    && (ds[i].act == StartTool ==> i >= 1 && ds[i - 1].act == CheckPause)
    && (ds[i].act == CallModel ==>
          i >= 3 && ds[i - 3].act == ReadRun && ds[i - 2].act == CloseWindow && ds[i - 1].act == ReadTrailing)
  }

  ghost predicate Checked(ds: seq<Deed>) {
    forall i :: 0 <= i < |ds| ==> CheckedAt(ds, i)
  }

  lemma CheckedJoin(a: seq<Deed>, b: seq<Deed>)
    requires Checked(a) && Checked(b)
    ensures Checked(a + b)
  {
    var ds := a + b;
    forall i | 0 <= i < |ds| ensures CheckedAt(ds, i) {
      if i < |a| {
        assert CheckedAt(a, i);
      } else {
        assert CheckedAt(b, i - |a|);
      }
    }
  }

  lemma CheckedPlain(ds: seq<Deed>)
    requires Plain(ds)
    ensures Checked(ds)
  {
    forall i | 0 <= i < |ds| ensures CheckedAt(ds, i) {
      assert ds[i] in ds;
    }
  }

  lemma CheckedCall(rest: seq<ToolCall>, log: CallLog)
    requires rest != []
    ensures Checked(CallDeeds(rest, log))
  {
    var tail := TailDeeds(rest, log);
    PlainTail(rest, log);
    hide TailDeeds, Plain;
    CheckedPlain(tail);
    var check := [Deed(Exec(rest), CheckPause)] + if log.PausedBefore? then [] else [Deed(Ready(rest), StartTool)];
    CheckedJoin(check, tail);
  }

  lemma {:induction false} CheckedCalls(rest: seq<ToolCall>, logs: seq<CallLog>)
    requires |logs| <= |rest|
    ensures Checked(CallsDeeds(rest, logs))
  {
    if logs != [] {
      var n := |logs| - 1;
      CheckedCalls(rest, logs[..n]);
      CheckedCall(rest[n..], logs[n]);
      CheckedJoin(CallsDeeds(rest, logs[..n]), CallDeeds(rest[n..], logs[n]));
    }
  }

  lemma CheckedRan(rest: seq<ToolCall>, ran: CallsLog)
    ensures Checked(RanDeeds(rest, ran))
  {
    if ran.Began? && |ran.logs| <= |rest| {
      CheckedCalls(rest, ran.logs);
    } else {
      CheckedPlain(RanDeeds(rest, ran));
    }
  }

  lemma CheckedReply(log: ReplyLog)
    ensures Checked(ReplyDeeds(log))
  {
    if log.Spoke? && log.calls != [] {
      var two := [Deed(Stream, Reply(log.content, log.calls, log.reasoning)), Deed(Count(log.calls), CountStep)];
      assert ReplyDeeds(log) == two + RanDeeds(log.calls, log.ran);
      hide RanDeeds;
      CheckedPlain(two);
      CheckedRan(log.calls, log.ran);
      CheckedJoin(two, RanDeeds(log.calls, log.ran));
    } else {
      hide Checked;
      CheckedPlain(ReplyDeeds(log));
    }
  }

  const OPENING := [Deed(Top, ReadRun), Deed(Begin, CloseWindow), Deed(Trail, ReadTrailing)]

  lemma CheckedOpening()
    ensures Checked(OPENING) && Checked(OPENING + [Deed(Ask, CallModel)])
    ensures Checked([Deed(Top, ReadRun), Deed(Begin, CloseWindow)])
  {
  }

  lemma TurnOpens(log: TurnLog)
    ensures [Deed(Top, ReadRun)] + TurnDeeds(log) ==
            match log
            case Recovered => [Deed(Top, ReadRun), Deed(Begin, CloseWindow)]
            case Replayed(rest, ran) => OPENING + RanDeeds(rest, ran)
            case AskedModel(reply) => OPENING + [Deed(Ask, CallModel)] + ReplyDeeds(reply)
  {
    hide RanDeeds, ReplyDeeds;
  }

  lemma CheckedTurn(log: TurnLog)
    ensures Checked([Deed(Top, ReadRun)] + TurnDeeds(log))
  {
    hide Checked, RanDeeds, ReplyDeeds;
    TurnOpens(log);
    CheckedOpening();
    hide TurnDeeds;
    match log
    case Recovered =>
    case Replayed(rest, ran) =>
      CheckedRan(rest, ran);
      CheckedJoin(OPENING, RanDeeds(rest, ran));
    case AskedModel(reply) =>
      CheckedReply(reply);
      CheckedJoin(OPENING + [Deed(Ask, CallModel)], ReplyDeeds(reply));
  }

  /** Whatever a worker does in its life, it looks for a pause before every tool and every model call. */
  lemma {:induction false} AlwaysChecked(turns: seq<TurnLog>, end: RunEnd)
    ensures Checked(RunDeeds(turns)) && Checked(RunDeeds(turns) + EndDeeds(end))
  {
    if turns != [] {
      var n := |turns| - 1;
      AlwaysChecked(turns[..n], end);
      CheckedTurn(turns[n]);
      CheckedJoin(RunDeeds(turns[..n]), [Deed(Top, ReadRun)] + TurnDeeds(turns[n]));
    }
    CheckedPlain(EndDeeds(end));
    CheckedJoin(RunDeeds(turns), EndDeeds(end));
  }

  /** The step that makes a call's result row durable. */
  predicate Stores(d: Deed, c: CallId) {
    || (d.act.ApplyResult? && d.pc.Settle? && d.pc.rest != [] && d.pc.rest[0].id == c)
    || (d.act == AppendNoted && d.pc.Noted? && d.pc.rest != [] && d.pc.rest[0].id == c)
  }

  /** In what a call that goes on leaves behind, the last two steps are the one that stores its result and
      the look at the row. */
  lemma StoredLast(rest: seq<ToolCall>, log: CallLog)
    requires rest != [] && CallFits(rest, log) && Goes(rest, log)
    ensures var ds := CallDeeds(rest, log);
            |ds| >= 2 && Stores(ds[|ds| - 2], rest[0].id) && ds[|ds| - 1] == Deed(Check(rest[1..]), Recheck)
  {
    var ds, applied := CallDeeds(rest, log), ApplyDeeds(rest, log.result, log.end);
    assert ds[|ds| - 2] == applied[|applied| - 1];
  }

  lemma ChecksFirst(rest: seq<ToolCall>, log: CallLog)
    requires rest != []
    ensures CallDeeds(rest, log)[0] == Deed(Exec(rest), CheckPause)
  {
  }

  lemma Adjacent(rest: seq<ToolCall>, logs: seq<CallLog>, k: nat)
    requires k + 1 < |logs| <= |rest|
    ensures CallsDeeds(rest, logs[..k + 2]) ==
            CallsDeeds(rest, logs[..k]) + CallDeeds(rest[k..], logs[k]) + CallDeeds(rest[k + 1..], logs[k + 1])
  {
    hide CallDeeds;
    assert logs[..k + 2][..k + 1] == logs[..k + 1] && logs[..k + 1][..k] == logs[..k];
  }

  /** A call's result is stored before the next call is even checked. */
  lemma ResultsFirst(rest: seq<ToolCall>, logs: seq<CallLog>, k: nat)
    requires Fit(rest, logs) && k + 1 < |logs|
    ensures var a, b := CallDeeds(rest[k..], logs[k]), CallDeeds(rest[k + 1..], logs[k + 1]);
            && Started(a) == [rest[k].id]
            && |a| >= 2 && Stores(a[|a| - 2], rest[k].id)
            && b[0] == Deed(Exec(rest[k + 1..]), CheckPause)
            && CallsDeeds(rest, logs[..k + 2]) == CallsDeeds(rest, logs[..k]) + a + b
  {
    assert CallFits(rest[k..], logs[k]) && Goes(rest[k..], logs[k]);
    hide CallDeeds, CallsDeeds, Started, Fit, CallFits, Stores;
    StartedOne(rest[k..], logs[k]);
    StoredLast(rest[k..], logs[k]);
    ChecksFirst(rest[k + 1..], logs[k + 1]);
    Adjacent(rest, logs, k);
  }
}
