/** What one worker step keeps for its own run: a well-formed transcript, a consistent row and the fact that
    belongs to the next program point; and a draft goes on the board together with its gate. */
module WorkerProofs {
  import opened Prelude
  import opened Text
  import opened Transcript
  import opened Store
  import opened Worker

  /** The run row and the rows of the run after a change. */
  function RowAfter(run: Run, c: Change): Run {
    if c.run.Some? then c.run.value else run
  }

  function RowsAfter(t: seq<Message>, p: ProjectId, r: RunId, id: MessageId, c: Change): seq<Message> {
    if c.row.Some? then t + [Stamp(id, p, r, c.row.value)] else t
  }

  function BoardAfter(project: Project, c: Change): Board {
    if c.project.Some? then c.project.value.board else project.board
  }

  lemma AppendResult(t: seq<Message>, m: Message, rest: seq<ToolCall>)
    requires WellFormed(t) && rest != [] && OpenCalls(t) == rest
    requires m.role == Tool && m.callId == Some(rest[0].id)
    ensures WellFormed(t + [m]) && OpenCalls(t + [m]) == rest[1..] && !Terminal(t + [m])
    ensures rest[0].name == "done" ==> EndsInDone(t + [m])
  {
    OpenIsTail(t);
    assert Ids(rest)[0] == rest[0].id;
    assert MayFollow(t, m);
    WellFormedAppend(t, m);
    OpenCallsAppend(t, m);
    if rest[0].name == "done" {
      var c := LastCalls(t);
      var k := |c| - |rest|;
      assert c[k] == rest[0] && c[k + 1..] == rest[1..];
      assert Last(t + [m]) == m;
      assert DoneAt(t + [m], k);
    }
  }

  /** A result row for the first of the open calls. */
  predicate Answers(c: Change, rest: seq<ToolCall>)
    requires rest != []
  {
    c.row.Some? && c.row.value.role == Tool && c.row.value.callId == Some(rest[0].id)
  }

  /** Whatever the tool was: either its call is answered, and the worker goes on, parks, or the
      run awaits a human; or nothing is written for it yet. */
  lemma ShipShape(run: Run, rest: seq<ToolCall>, text: string, ship: Shipping)
    requires rest != [] && run.state == Running
    ensures var m := Ship(run, rest, text, ship);
            match ship
            case Refused(_) => m.pc == Check(rest[1..]) && Answers(m.change, rest) && m.change.run == None
            case PushFailed(_) => m.pc == Top && Answers(m.change, rest) && m.change.run == Some(Awaiting(run, Trouble))
            case Pushed => m == Goto(ShipClear(rest, text))
  {
  }

  lemma ApplyShape(run: Run, project: Project, rest: seq<ToolCall>, result: ToolResult, ship: Shipping)
    requires rest != [] && run.state == Running
    ensures var m := ApplyControl(run, project, rest, result, ship);
            match m.pc
            case Check(after) => after == rest[1..] && Answers(m.change, rest) && m.change.run == None
            case Top =>
              && Answers(m.change, rest)
              && exists why :: m.change.run == Some(Awaiting(run, why))
            case Failing => m.change == NO_CHANGE
            case Noted(same, _) => same == rest && m.change.row == None && m.change.run == None
            case ShipClear(same, _) => same == rest && m.change == NO_CHANGE && rest[0].name == "done"
            case _ => false
  {
    hide Ship;
    ShipShape(run, rest, result.content, ship);
    var m := ApplyControl(run, project, rest, result, ship);
    if m.pc == Top {
      assert m.change.run.value == Awaiting(run, m.change.run.value.reason.value);
    }
  }

  lemma ApplyGood(run: Run, project: Project, t: seq<Message>, r: RunId, id: MessageId,
                  rest: seq<ToolCall>, result: ToolResult, ship: Shipping)
    requires Good(run, t, Some(Settle(rest, result)))
    ensures var m := ApplyControl(run, project, rest, result, ship);
            Good(RowAfter(run, m.change), RowsAfter(t, run.project, r, id, m.change), Some(m.pc))
  {
    var m := ApplyControl(run, project, rest, result, ship);
    ApplyShape(run, project, rest, result, ship);
    if m.change.row.Some? {
      AppendResult(t, Stamp(id, run.project, r, m.change.row.value), rest);
    }
  }

  /** The step leads to a state of the run that is good again. */
  ghost predicate Leads(run: Run, t: seq<Message>, r: RunId, id: MessageId, m: Move) {
    Good(RowAfter(run, m.change), RowsAfter(t, run.project, r, id, m.change), Some(m.pc))
  }

  /** A turn of the model on a closed transcript. */
  lemma SpokenRow(t: seq<Message>, m: Message)
    requires WellFormed(t) && Open(t) == [] && m.role == Assistant
    requires NoDup(Ids(m.calls)) && forall c :: c in Ids(m.calls) ==> c !in Asked(t)
    ensures WellFormed(t + [m]) && OpenCalls(t + [m]) == m.calls && Open(t + [m]) == Ids(m.calls)
    ensures Terminal(t + [m]) <==> m.calls == [] && !m.interrupted
  {
    WellFormedAppend(t, m);
    OpenCallsAppend(t, m);
    OpenAppend(t, m);
  }

  lemma SpeechGood(run: Run, project: Project, t: seq<Message>, r: RunId, id: MessageId, pc: Pc, a: Act)
    requires Good(run, t, Some(pc)) && FreshCalls(t, a) && (a.Reply? || a.Broken?)
    requires Step(run, project, t, pc, a).Some?
    ensures Leads(run, t, r, id, Step(run, project, t, pc, a).value)
  {
    hide ApplyControl, Ship, Wanted, Trailing, WellFormed, OpenCalls, Open, EndsInDone, Terminal;
    var m := Step(run, project, t, pc, a).value;
    if m.change.row.Some? {
      SpokenRow(t, Stamp(id, run.project, r, m.change.row.value));
    }
  }

  lemma RowGood(run: Run, project: Project, t: seq<Message>, r: RunId, id: MessageId, pc: Pc, a: Act)
    requires Good(run, t, Some(pc)) && (a == AppendNoted || a == AppendShipped)
    requires Step(run, project, t, pc, a).Some?
    ensures Leads(run, t, r, id, Step(run, project, t, pc, a).value)
  {
    hide ApplyControl, Ship, Wanted, Trailing, WellFormed, OpenCalls, EndsInDone, Terminal;
    AppendResult(t, Stamp(id, run.project, r, Step(run, project, t, pc, a).value.change.row.value), pc.rest);
  }

  /** What the recovery query tells the worker. */
  lemma TrailFacts(t: seq<Message>)
    requires WellFormed(t)
    ensures Trailing(t) == [] <==> Open(t) == []
    ensures Trailing(t) != [] ==> Wanted(LastCalls(t), Trailing(t)) != []
    ensures Wanted(LastCalls(t), Trailing(t)) == OpenCalls(t)
  {
    WantedIsOpen(t);
    TrailingIsOpen(t);
    OpenIsTail(t);
    hide Wanted, Trailing, OpenCalls, Open, WellFormed;
    assert |Ids(OpenCalls(t))| == |OpenCalls(t)|;
  }

  lemma TrailGood(run: Run, project: Project, t: seq<Message>, r: RunId, id: MessageId, pc: Pc)
    requires Good(run, t, Some(pc)) && Step(run, project, t, pc, ReadTrailing).Some?
    ensures Leads(run, t, r, id, Step(run, project, t, pc, ReadTrailing).value)
  {
    TrailFacts(t);
    hide ApplyControl, Ship, Wanted, Trailing, LastCalls, WellFormed, OpenCalls, Open, EndsInDone, Terminal;
  }

  /** A step that writes no row carries what holds of the rows along. */
  lemma QuietGood(run: Run, project: Project, t: seq<Message>, r: RunId, id: MessageId, pc: Pc, a: Act)
    requires Good(run, t, Some(pc)) && a != ReadTrailing
    requires !a.Reply? && !a.Broken? && !a.ApplyResult? && a != AppendNoted && a != AppendShipped
    requires Step(run, project, t, pc, a).Some?
    ensures Leads(run, t, r, id, Step(run, project, t, pc, a).value)
  {
    hide ApplyControl, Ship, Wanted, Trailing, WellFormed, OpenCalls, EndsInDone, Terminal, Open;
  }

  /** Every step keeps the run's invariant, given fresh call ids from the model. */
  lemma StepGood(run: Run, project: Project, t: seq<Message>, r: RunId, id: MessageId, pc: Pc, a: Act)
    requires Good(run, t, Some(pc)) && FreshCalls(t, a)
    requires Step(run, project, t, pc, a).Some?
    ensures var m := Step(run, project, t, pc, a).value;
            Good(RowAfter(run, m.change), RowsAfter(t, run.project, r, id, m.change), Some(m.pc))
  {
    hide Good, ApplyControl, FreshCalls, RowsAfter, RowAfter;
    if a.ApplyResult? {
      ApplyGood(run, project, t, r, id, pc.rest, pc.result, a.ship);
    } else if a.Reply? || a.Broken? {
      SpeechGood(run, project, t, r, id, pc, a);
    } else if a == AppendNoted || a == AppendShipped {
      RowGood(run, project, t, r, id, pc, a);
    } else if a == ReadTrailing {
      TrailGood(run, project, t, r, id, pc);
    } else {
      QuietGood(run, project, t, r, id, pc, a);
    }
  }

  lemma ApplyGate(run: Run, project: Project, rest: seq<ToolCall>, result: ToolResult, ship: Shipping)
    requires rest != [] && run.state == Running && !project.board.AwaitingApproval()
    ensures var m := ApplyControl(run, project, rest, result, ship);
            && RowAfter(run, m.change).project == run.project && m.pc != Exiting
            && (BoardAfter(project, m.change).AwaitingApproval() <==> RowAfter(run, m.change).AwaitingPlan())
  {
    ApplyShape(run, project, rest, result, ship);
  }

  /** A step writes nothing unless the run is Running, a worker leaves only a run that is no longer
      Running, and a draft goes on the board exactly when the run is parked for its approval. */
  lemma StepGate(run: Run, project: Project, t: seq<Message>, pc: Pc, a: Act)
    requires Good(run, t, Some(pc)) && Step(run, project, t, pc, a).Some?
    ensures var m := Step(run, project, t, pc, a).value;
            && (!Engaged(pc) ==> m.change == NO_CHANGE)
            && RowAfter(run, m.change).project == run.project
            && (m.pc == Exiting ==> RowAfter(run, m.change).state != Running)
            && (!project.board.AwaitingApproval() && Engaged(pc) ==>
                  (BoardAfter(project, m.change).AwaitingApproval() <==> RowAfter(run, m.change).AwaitingPlan()))
  {
    hide ApplyControl, Wanted, Trailing;
    if a.ApplyResult? {
      ApplyShape(run, project, pc.rest, pc.result, a.ship);
      if !project.board.AwaitingApproval() {
        ApplyGate(run, project, pc.rest, pc.result, a.ship);
      }
    }
  }
}
