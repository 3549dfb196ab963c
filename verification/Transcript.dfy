/** The transcript: message rows, the queue of unanswered calls, and the request built from it. */
module Transcript {
  import opened Prelude
  import opened Text

  // Identifiers are only ever compared, so they are plain numbers here.
  type ProjectId = nat
  type RunId = nat
  type MessageId = nat
  type CallId = nat

  datatype Role = System | User | Assistant | Tool

  datatype ToolCall = ToolCall(id: CallId, name: string, args: string)

  datatype Reasoning = Reasoning(id: string, encrypted: string, summary: seq<string>)

  /** One row of the message table. No calls is the NULL `tool_calls` column. */
  datatype Message = Message(
    id: MessageId, project: ProjectId, run: Option<RunId>, role: Role, content: string,
    calls: seq<ToolCall>, reasoning: seq<Reasoning>, callId: Option<CallId>, interrupted: bool)

  function Ids(calls: seq<ToolCall>): (r: seq<CallId>) {
    seq(|calls|, i requires 0 <= i < |calls| => calls[i].id)
  }

  function Last(t: seq<Message>): Message
    requires t != []
  {
    t[|t| - 1]
  }

  function Init(t: seq<Message>): seq<Message>
    requires t != []
  {
    t[..|t| - 1]
  }

  /** The rows of one run, in id order. */
  function Of(ms: seq<Message>, r: RunId): seq<Message> {
    if ms == [] then []
    else if Last(ms).run == Some(r) then Of(Init(ms), r) + [Last(ms)]
    else Of(Init(ms), r)
  }

  lemma OfAppend(ms: seq<Message>, m: Message, r: RunId)
    ensures Of(ms + [m], r) == if m.run == Some(r) then Of(ms, r) + [m] else Of(ms, r)
  {
    assert Init(ms + [m]) == ms;
  }

  // ---------------------------------------------------------------------------
  // The queue of unanswered calls
  // ---------------------------------------------------------------------------

  /** The calls still waiting for a result, oldest first. */
  function Open(t: seq<Message>): seq<CallId> {
    if t == [] then []
    else
      var m := Last(t);
      var o := Open(Init(t));
      match m.role
      case Assistant => if m.calls == [] then o else Ids(m.calls)
      case Tool => if o != [] && m.callId == Some(o[0]) then o[1..] else o
      case _ => o
  }

  /** Every call id requested so far, in order. */
  function Asked(t: seq<Message>): seq<CallId> {
    if t == [] then []
    else if Last(t).role == Assistant then Asked(Init(t)) + Ids(Last(t).calls)
    else Asked(Init(t))
  }

  /** The call ids of the result rows, in order. */
  function Replies(t: seq<Message>): seq<CallId> {
    if t == [] then []
    else if Last(t).role == Tool && Last(t).callId.Some? then Replies(Init(t)) + [Last(t).callId.value]
    else Replies(Init(t))
  }

  /** What may be appended to `t`: results answer the oldest open call, and the model speaks
      only when nothing is open, with call ids this run has not used. */
  ghost predicate MayFollow(t: seq<Message>, m: Message) {
    match m.role
    case Assistant =>
      && Open(t) == []
      && NoDup(Ids(m.calls))
      && (forall c :: c in Ids(m.calls) ==> c !in Asked(t))
    case Tool => Open(t) != [] && m.callId == Some(Open(t)[0])
    case _ => true
  }

  ghost predicate WellFormed(t: seq<Message>) {
    t == [] || (WellFormed(Init(t)) && MayFollow(Init(t), Last(t)))
  }

  lemma WellFormedAppend(t: seq<Message>, m: Message)
    requires WellFormed(t) && MayFollow(t, m)
    ensures WellFormed(t + [m])
  {
    assert Init(t + [m]) == t;
  }

  lemma OpenAppend(t: seq<Message>, m: Message)
    ensures m.role == Assistant ==> Open(t + [m]) == if m.calls == [] then Open(t) else Ids(m.calls)
    ensures m.role == Tool && Open(t) != [] && m.callId == Some(Open(t)[0]) ==> Open(t + [m]) == Open(t)[1..]
    ensures m.role != Assistant && m.role != Tool ==> Open(t + [m]) == Open(t)
    ensures m.role == Assistant ==> Asked(t + [m]) == Asked(t) + Ids(m.calls)
    ensures m.role != Assistant ==> Asked(t + [m]) == Asked(t)
  {
    assert Init(t + [m]) == t;
  }

  /** The books balance: results come in the order of the calls, one each, and what is open is
      exactly what has not been answered. */
  lemma {:induction false} Ledger(t: seq<Message>)
    requires WellFormed(t)
    ensures Asked(t) == Replies(t) + Open(t)
    ensures NoDup(Asked(t))
  {
    if t != [] {
      Ledger(Init(t));
      var m := Last(t);
      if m.role == Assistant {
        assert Open(Init(t)) == [];
        NoDupJoin(Asked(Init(t)), Ids(m.calls));
      }
    }
  }

  /** The calls of the most recent assistant turn that asked for tools. */
  function LastCalls(t: seq<Message>): seq<ToolCall> {
    if t == [] then []
    else if Last(t).role == Assistant && Last(t).calls != [] then Last(t).calls
    else LastCalls(Init(t))
  }

  /** The calls whose result row is missing, as the recovery query computes it. */
  function Missing(calls: seq<ToolCall>, answered: set<CallId>): (r: seq<CallId>)
    ensures forall c :: c in r ==> c !in answered && c in Ids(calls)
  {
    if calls == [] then []
    else
      var rest := Missing(calls[..|calls| - 1], answered);
      var c := calls[|calls| - 1].id;
      assert Ids(calls) == Ids(calls[..|calls| - 1]) + [c];
      if c in answered then rest else rest + [c]
  }

  function Answered(t: seq<Message>): set<CallId> {
    set i | 0 <= i < |t| && t[i].role == Tool && t[i].callId.Some? :: t[i].callId.value
  }

  function Trailing(t: seq<Message>): seq<CallId> {
    Missing(LastCalls(t), Answered(t))
  }

  lemma AnsweredIsReplies(t: seq<Message>)
    ensures forall c :: c in Answered(t) <==> c in Replies(t)
  {
    if t != [] {
      AnsweredIsReplies(Init(t));
      var m := Last(t);
      assert t == Init(t) + [m];
      assert Answered(t) == Answered(Init(t)) +
                            (if m.role == Tool && m.callId.Some? then {m.callId.value} else {}) by {
        forall c | c in Answered(Init(t)) ensures c in Answered(t) {
          var i :| 0 <= i < |Init(t)| && Init(t)[i].role == Tool && Init(t)[i].callId == Some(c);
          assert t[i] == Init(t)[i];
        }
      }
    }
  }

  lemma MissingNone(calls: seq<ToolCall>, answered: set<CallId>)
    requires forall c :: c in Ids(calls) ==> c !in answered
    ensures Missing(calls, answered) == Ids(calls)
  {
    if calls != [] {
      var pre := calls[..|calls| - 1];
      assert Ids(calls) == Ids(pre) + [calls[|calls| - 1].id];
      MissingNone(pre, answered);
    }
  }

  lemma MissingOneMore(calls: seq<ToolCall>, answered: set<CallId>, head: CallId)
    requires NoDup(Ids(calls)) && head !in answered
    ensures Missing(calls, answered + {head}) == Without(Missing(calls, answered), head)
  {
    if calls != [] {
      var pre, c := calls[..|calls| - 1], calls[|calls| - 1].id;
      assert Ids(calls) == Ids(pre) + [c];
      NoDupSplit(Ids(pre), [c]);
      MissingOneMore(pre, answered, head);
      var m := Missing(pre, answered);
      WithoutAppend(m, c, head);
    }
  }

  function Without(s: seq<CallId>, x: CallId): seq<CallId> {
    if s == [] then []
    else if s[0] == x then Without(s[1..], x)
    else [s[0]] + Without(s[1..], x)
  }

  lemma WithoutAppend(s: seq<CallId>, c: CallId, x: CallId)
    ensures Without(s + [c], x) == if c == x then Without(s, x) else Without(s, x) + [c]
  {
    if s == [] {
      assert [c][1..] == [];
    } else {
      assert (s + [c])[1..] == s[1..] + [c];
      WithoutAppend(s[1..], c, x);
    }
  }

  lemma WithoutAbsent(s: seq<CallId>, x: CallId)
    requires x !in s
    ensures Without(s, x) == s
  {
    if s != [] {
      WithoutAbsent(s[1..], x);
    }
  }

  /** The recovery query looks only at the newest tool-calling turn, and that is enough: it
      finds every unanswered call of the run, in order. */
  lemma {:induction false} TrailingIsOpen(t: seq<Message>)
    requires WellFormed(t)
    ensures Trailing(t) == Open(t)
  {
    if t != [] {
      var p, m := Init(t), Last(t);
      TrailingIsOpen(p);
      Ledger(p);
      Ledger(t);
      AnsweredIsReplies(p);
      AnsweredIsReplies(t);
      if m.role == Assistant && m.calls != [] {
        MissingNone(m.calls, Answered(t));
      } else if m.role == Tool {
        var h := Open(p)[0];
        assert Answered(t) == Answered(p) + {h};
        NoDupSplit(Replies(p), Open(p));
        LastCallsDistinct(p);
        MissingOneMore(LastCalls(p), Answered(p), h);
        assert Open(p) == [h] + Open(p)[1..];
        NoDupSplit([h], Open(p)[1..]);
        WithoutAbsent(Open(p)[1..], h);
      } else {
        assert Answered(t) == Answered(p);
      }
    }
  }

  lemma LastCallsDistinct(t: seq<Message>)
    requires WellFormed(t)
    ensures NoDup(Ids(LastCalls(t)))
  {
    if t != [] && !(Last(t).role == Assistant && Last(t).calls != []) {
      LastCallsDistinct(Init(t));
    }
  }

  /** A final text turn: the model has said its piece and asked for nothing. */
  predicate Terminal(t: seq<Message>) {
    t != [] && Last(t).role == Assistant && Last(t).calls == [] && !Last(t).interrupted
  }

  lemma TerminalIsClosed(t: seq<Message>)
    requires WellFormed(t) && Terminal(t)
    ensures Open(t) == []
  {
  }

  // ---------------------------------------------------------------------------
  // The request built from the transcript
  // ---------------------------------------------------------------------------

  /** A turn as the model sees it: a stored row without its run. */
  datatype Turn = Turn(
    role: Role, content: string, calls: seq<ToolCall>, reasoning: seq<Reasoning>, callId: Option<CallId>,
    images: seq<nat>)

  datatype Item =
    | UserText(text: string)
    | UserImages(caption: Option<string>, sizes: seq<nat>)
    | SystemText(text: string)
    | AssistantText(text: string)
    | ReasoningItem(reasoning: Reasoning)
    | FunctionCall(call: CallId, name: string, args: string)
    | FunctionCallOutput(answers: Option<CallId>, output: string)

  function ToTurn(m: Message): Turn {
    Turn(m.role, m.content, m.calls, m.reasoning, m.callId, [])
  }

  function ToTurns(ms: seq<Message>): seq<Turn> {
    seq(|ms|, i requires 0 <= i < |ms| => ToTurn(ms[i]))
  }

  const MAX_IMAGE_BYTES: nat := 0x50_0000

  predicate ImagesFit(t: Turn) {
    forall i :: 0 <= i < |t.images| ==> 0 < t.images[i] <= MAX_IMAGE_BYTES
  }

  function ReasoningItems(rs: seq<Reasoning>): seq<Item> {
    seq(|rs|, i requires 0 <= i < |rs| => ReasoningItem(rs[i]))
  }

  function CallItem(c: ToolCall): Item {
    FunctionCall(c.id, c.name, if Blank(c.args) then "{}" else c.args)
  }

  function CallItems(calls: seq<ToolCall>): seq<Item> {
    seq(|calls|, i requires 0 <= i < |calls| => CallItem(calls[i]))
  }

  /** The items of one turn: reasoning first, then text, then calls. */
  function Expand(t: Turn): seq<Item> {
    match t.role
    case User =>
      if t.images == [] then [UserText(t.content)]
      else [UserImages(if Blank(t.content) then None else Some(t.content), t.images)]
    case System => [SystemText(t.content)]
    case Assistant =>
      ReasoningItems(t.reasoning) + (if Blank(t.content) then [] else [AssistantText(t.content)]) + CallItems(t.calls)
    case Tool => [FunctionCallOutput(t.callId, t.content)]
  }

  function Request(ts: seq<Turn>): seq<Item> {
    if ts == [] then [] else Request(ts[..|ts| - 1]) + Expand(ts[|ts| - 1])
  }

  // ---------------------------------------------------------------------------
  // What the items say
  // ---------------------------------------------------------------------------

  /** A reader of items: what it makes of one more item of the same turn. */
  function Hear(t: Turn, x: Item): Turn {
    match x
    case UserText(text) => Turn(User, text, [], [], None, [])
    case UserImages(caption, sizes) => Turn(User, if caption.Some? then caption.value else "", [], [], None, sizes)
    case SystemText(text) => Turn(System, text, [], [], None, [])
    case FunctionCallOutput(answers, output) => Turn(Tool, output, [], [], answers, [])
    case ReasoningItem(reasoning) => t.(reasoning := t.reasoning + [reasoning])
    case AssistantText(text) => t.(content := t.content + text)
    case FunctionCall(call, name, args) => t.(calls := t.calls + [ToolCall(call, name, args)])
  }

  function ReadTurn(items: seq<Item>): Turn {
    if items == [] then Turn(Assistant, "", [], [], None, [])
    else Hear(ReadTurn(items[..|items| - 1]), items[|items| - 1])
  }

  /** Calls with no arguments are read as calls with an empty object. */
  function Filled(calls: seq<ToolCall>): seq<ToolCall> {
    seq(|calls|, i requires 0 <= i < |calls| => if Blank(calls[i].args) then calls[i].(args := "{}") else calls[i])
  }

  /** What a reader can learn of a turn: its role and what belongs to that role, a blank text of an assistant or
      beside images as none. */
  function Said(t: Turn): Turn {
    match t.role
    case User => Turn(User, if t.images != [] && Blank(t.content) then "" else t.content, [], [], None, t.images)
    case System => Turn(System, t.content, [], [], None, [])
    case Assistant => Turn(Assistant, if Blank(t.content) then "" else t.content, Filled(t.calls), t.reasoning, None, [])
    case Tool => Turn(Tool, t.content, [], [], t.callId, [])
  }

  /** Within an assistant turn reasoning comes before text and text before calls. */
  function Rank(x: Item): nat {
    match x
    case ReasoningItem(_) => 0
    case AssistantText(_) => 1
    case FunctionCall(_, _, _) => 2
    case _ => 3
  }

  ghost predicate InOrder(items: seq<Item>) {
    && (forall i :: 0 <= i < |items| ==> Rank(items[i]) < 3)
    && forall i, j :: 0 <= i < j < |items| ==> Rank(items[i]) <= Rank(items[j])
  }

  /** These items say this turn and nothing else. */
  ghost predicate Says(items: seq<Item>, t: Turn) {
    && ReadTurn(items) == Said(t)
    && (if t.role == Assistant
        then InOrder(items) && |items| == |t.reasoning| + (if Blank(t.content) then 0 else 1) + |t.calls|
        else |items| == 1)
  }

  function Flat(parts: seq<seq<Item>>): seq<Item> {
    if parts == [] then [] else Flat(parts[..|parts| - 1]) + parts[|parts| - 1]
  }

  /** The items fall into parts, one a turn in the order of the turns, and each part says its turn. */
  ghost predicate Conveys(items: seq<Item>, turns: seq<Turn>) {
    exists parts :: Flat(parts) == items && |parts| == |turns| && forall i :: 0 <= i < |turns| ==> Says(parts[i], turns[i])
  }

  lemma ReadPush(items: seq<Item>, x: Item)
    ensures ReadTurn(items + [x]) == Hear(ReadTurn(items), x)
  {
    assert (items + [x])[..|items|] == items;
  }

  lemma {:induction false} ReadReasoning(rs: seq<Reasoning>)
    ensures ReadTurn(ReasoningItems(rs)) == Turn(Assistant, "", [], rs, None, [])
  {
    if rs != [] {
      var m := rs[..|rs| - 1];
      ReadReasoning(m);
      assert ReasoningItems(rs) == ReasoningItems(m) + [ReasoningItem(rs[|rs| - 1])];
      hide ReadTurn;
      ReadPush(ReasoningItems(m), ReasoningItem(rs[|rs| - 1]));
      assert m + [rs[|rs| - 1]] == rs;
    }
  }

  lemma HearCall(t: Turn, c: ToolCall)
    ensures Hear(t, CallItem(c)) == t.(calls := t.calls + Filled([c]))
  {
  }

  lemma CallsPush(m: seq<ToolCall>, c: ToolCall)
    ensures CallItems(m + [c]) == CallItems(m) + [CallItem(c)] && Filled(m + [c]) == Filled(m) + Filled([c])
  {
  }

  lemma {:induction false} ReadCalls(items: seq<Item>, calls: seq<ToolCall>)
    ensures ReadTurn(items + CallItems(calls)) == ReadTurn(items).(calls := ReadTurn(items).calls + Filled(calls))
  {
    if calls == [] {
      assert items + CallItems(calls) == items;
      assert ReadTurn(items).calls + Filled(calls) == ReadTurn(items).calls;
    } else {
      hide *;
      var m, c := calls[..|calls| - 1], calls[|calls| - 1];
      assert m + [c] == calls;
      ReadCalls(items, m);
      CallsPush(m, c);
      assert items + (CallItems(m) + [CallItem(c)]) == (items + CallItems(m)) + [CallItem(c)];
      ReadPush(items + CallItems(m), CallItem(c));
      HearCall(ReadTurn(items + CallItems(m)), c);
      assert (ReadTurn(items).calls + Filled(m)) + Filled([c]) == ReadTurn(items).calls + (Filled(m) + Filled([c]));
    }
  }

  function Spoken(content: string): seq<Item> {
    if Blank(content) then [] else [AssistantText(content)]
  }

  lemma ReadSpoken(items: seq<Item>, content: string)
    ensures var t := ReadTurn(items);
            ReadTurn(items + Spoken(content)) == t.(content := t.content + if Blank(content) then "" else content)
  {
    if Blank(content) {
      assert items + Spoken(content) == items && ReadTurn(items).content + "" == ReadTurn(items).content;
    } else {
      ReadPush(items, AssistantText(content));
    }
  }

  lemma AssistantReads(t: Turn)
    requires t.role == Assistant
    ensures ReadTurn(Expand(t)) == Said(t)
  {
    hide ReadTurn, Blank, ReasoningItems, CallItems, Filled;
    var rs := ReasoningItems(t.reasoning);
    assert Expand(t) == rs + Spoken(t.content) + CallItems(t.calls);
    ReadReasoning(t.reasoning);
    ReadSpoken(rs, t.content);
    ReadCalls(rs + Spoken(t.content), t.calls);
    assert [] + Filled(t.calls) == Filled(t.calls);
    assert "" + (if Blank(t.content) then "" else t.content) == if Blank(t.content) then "" else t.content;
  }

  lemma AssistantOrdered(t: Turn)
    requires t.role == Assistant
    ensures InOrder(Expand(t)) && |Expand(t)| == |t.reasoning| + (if Blank(t.content) then 0 else 1) + |t.calls|
  {
    hide Blank;
  }

  lemma TurnSays(t: Turn)
    ensures Says(Expand(t), t)
  {
    if t.role == Assistant {
      AssistantReads(t);
      AssistantOrdered(t);
    } else {
      ReadPush([], Expand(t)[0]);
      assert [] + [Expand(t)[0]] == Expand(t);
    }
  }

  function PartsOf(turns: seq<Turn>): seq<seq<Item>> {
    seq(|turns|, i requires 0 <= i < |turns| => Expand(turns[i]))
  }

  lemma {:induction false} RequestFlat(turns: seq<Turn>)
    ensures Flat(PartsOf(turns)) == Request(turns)
  {
    if turns != [] {
      var n := |turns| - 1;
      RequestFlat(turns[..n]);
      hide Expand;
      assert PartsOf(turns)[..n] == PartsOf(turns[..n]);
    }
  }

  /** The request says the turns, in their order, and nothing else. */
  lemma RequestConveys(turns: seq<Turn>)
    ensures Conveys(Request(turns), turns)
  {
    hide Expand, Says, Flat;
    RequestFlat(turns);
    forall i | 0 <= i < |turns| ensures Says(PartsOf(turns)[i], turns[i]) {
      TurnSays(turns[i]);
    }
  }

  /** From the rows themselves: role, text, calls, reasoning and answered call of each, and no images. */
  lemma RequestSaysRows(ms: seq<Message>)
    ensures exists parts :: Flat(parts) == Request(ToTurns(ms)) && |parts| == |ms| &&
              forall i :: 0 <= i < |ms| ==>
                Says(parts[i], Turn(ms[i].role, ms[i].content, ms[i].calls, ms[i].reasoning, ms[i].callId, []))
  {
    hide Expand, Says, Flat;
    RequestFlat(ToTurns(ms));
    var parts := PartsOf(ToTurns(ms));
    forall i | 0 <= i < |ms|
      ensures Says(parts[i], Turn(ms[i].role, ms[i].content, ms[i].calls, ms[i].reasoning, ms[i].callId, []))
    {
      TurnSays(ToTurns(ms)[i]);
    }
  }

  /** One assistant turn: its reasoning, its text unless blank, its calls. */
  method AssistantItems(m: Turn) returns (items: seq<Item>)
    requires m.role == Assistant
    ensures items == Expand(m) && Says(items, m)
  {
    hide Says, Blank, ReadTurn, InOrder;
    TurnSays(m);
    items := [];
    for k := 0 to |m.reasoning|
      invariant items == ReasoningItems(m.reasoning[..k])
    {
      items := items + [ReasoningItem(m.reasoning[k])];
    }
    if !Blank(m.content) {
      items := items + [AssistantText(m.content)];
    }
    ghost var spoken := items;
    for k := 0 to |m.calls|
      invariant items == spoken + CallItems(m.calls[..k])
    {
      items := items + [CallItem(m.calls[k])];
    }
  }

  /** Flattens turns into items, refusing an image that is empty or too large. */
  method InputItems(turns: seq<Turn>) returns (out: Result<seq<Item>>)
    ensures out.Ok? <==> forall i :: 0 <= i < |turns| && turns[i].role == User ==> ImagesFit(turns[i])
    ensures out.Ok? ==> out.value == Request(turns) && Conveys(out.value, turns)
  {
    hide Says, Conveys;
    var items: seq<Item> := [];
    for i := 0 to |turns|
      invariant items == Request(turns[..i])
      invariant forall k :: 0 <= k < i && turns[k].role == User ==> ImagesFit(turns[k])
    {
      var m := turns[i];
      assert turns[..i + 1][..i] == turns[..i];
      match m.role
      case User =>
        for k := 0 to |m.images|
          invariant forall j :: 0 <= j < k ==> 0 < m.images[j] <= MAX_IMAGE_BYTES
        {
          if m.images[k] == 0 || m.images[k] > MAX_IMAGE_BYTES {
            assert !ImagesFit(turns[i]);
            return Err("an attached image is empty or too large");
          }
        }
        var caption := None;
        if !Blank(m.content) {
          caption := Some(m.content);
        }
        items := items + if |m.images| > 0 then [UserImages(caption, m.images)] else [UserText(m.content)];
      case System =>
        items := items + [SystemText(m.content)];
      case Assistant =>
        var spoken := AssistantItems(m);
        items := items + spoken;
      case Tool =>
        items := items + [FunctionCallOutput(m.callId, m.content)];
    }
    assert turns[..|turns|] == turns;
    RequestConveys(turns);
    out := Ok(items);
  }

  /** The same items, each remembering the run it came from. */
  datatype Tagged = Tagged(run: Option<RunId>, item: Item)

  function Tag(r: Option<RunId>, items: seq<Item>): seq<Tagged> {
    seq(|items|, i requires 0 <= i < |items| => Tagged(r, items[i]))
  }

  function TaggedRequest(ms: seq<Message>): seq<Tagged> {
    if ms == [] then [] else TaggedRequest(Init(ms)) + Tag(Last(ms).run, Expand(ToTurn(Last(ms))))
  }

  /** Tagging changes nothing the model sees. */
  lemma {:induction false} TaggedIsRequest(ms: seq<Message>)
    ensures |TaggedRequest(ms)| == |Request(ToTurns(ms))|
    ensures forall i :: 0 <= i < |TaggedRequest(ms)| ==> TaggedRequest(ms)[i].item == Request(ToTurns(ms))[i]
  {
    if ms != [] {
      TaggedIsRequest(Init(ms));
      var ts := ToTurns(ms);
      assert ts[..|ts| - 1] == ToTurns(Init(ms));
    }
  }

  ghost predicate CallAt(xs: seq<Tagged>, i: int, r: RunId, c: CallId) {
    0 <= i < |xs| && xs[i].run == Some(r) && xs[i].item.FunctionCall? && xs[i].item.call == c
  }

  ghost predicate OutputAt(xs: seq<Tagged>, j: int, r: RunId, c: CallId) {
    0 <= j < |xs| && xs[j].run == Some(r) && xs[j].item.FunctionCallOutput? && xs[j].item.answers == Some(c)
  }

  /** The call at `i` has one output item in the whole request, and it comes later. */
  ghost predicate AnsweredOnceAfter(xs: seq<Tagged>, i: int, r: RunId, c: CallId) {
    exists j :: OutputAt(xs, j, r, c) && i < j && forall k :: OutputAt(xs, k, r, c) ==> k == j
  }

  /** Every call of run `r` outside `except` is answered once and later; calls in `except` are
      not answered at all; and no output lacks an earlier call. */
  ghost predicate PairedExcept(xs: seq<Tagged>, r: RunId, except: seq<CallId>) {
    && (forall i, c {:trigger CallAt(xs, i, r, c)} :: CallAt(xs, i, r, c) && c !in except ==> AnsweredOnceAfter(xs, i, r, c))
    && (forall i, c {:trigger CallAt(xs, i, r, c)} :: CallAt(xs, i, r, c) && c in except ==> forall j :: !OutputAt(xs, j, r, c))
    && (forall j, c {:trigger OutputAt(xs, j, r, c)} :: OutputAt(xs, j, r, c) ==> exists i :: i < j && CallAt(xs, i, r, c))
  }

  ghost predicate CallsWithin(xs: seq<Tagged>, r: RunId, asked: seq<CallId>) {
    forall i, c {:trigger CallAt(xs, i, r, c)} :: CallAt(xs, i, r, c) ==> c in asked
  }

  /** An item sequence with no call or output of run `r` changes nothing for `r`. */
  lemma PairedForeign(xs: seq<Tagged>, ys: seq<Tagged>, r: RunId, except: seq<CallId>, asked: seq<CallId>)
    requires PairedExcept(xs, r, except) && CallsWithin(xs, r, asked)
    requires forall i :: 0 <= i < |ys| ==>
      ys[i].run != Some(r) || (!ys[i].item.FunctionCall? && !ys[i].item.FunctionCallOutput?)
    ensures PairedExcept(xs + ys, r, except) && CallsWithin(xs + ys, r, asked)
  {
    var zs := xs + ys;
    assert forall i, c :: CallAt(zs, i, r, c) <==> CallAt(xs, i, r, c);
    assert forall i, c :: OutputAt(zs, i, r, c) <==> OutputAt(xs, i, r, c);
    forall i, c | CallAt(zs, i, r, c) && c !in except ensures AnsweredOnceAfter(zs, i, r, c) {
      assert CallAt(xs, i, r, c);
      var j :| OutputAt(xs, j, r, c) && i < j && forall k :: OutputAt(xs, k, r, c) ==> k == j;
      assert OutputAt(zs, j, r, c);
    }
    forall j, c | OutputAt(zs, j, r, c) ensures exists i :: i < j && CallAt(zs, i, r, c) {
      assert OutputAt(xs, j, r, c);
      var i :| i < j && CallAt(xs, i, r, c);
      assert CallAt(zs, i, r, c);
    }
  }

  /** An assistant turn with fresh ids opens its calls. */
  lemma PairedAsk(xs: seq<Tagged>, items: seq<Item>, r: RunId, asked: seq<CallId>, ids: seq<CallId>)
    requires PairedExcept(xs, r, []) && CallsWithin(xs, r, asked)
    requires forall i :: 0 <= i < |items| ==> !items[i].FunctionCallOutput?
    requires forall i :: 0 <= i < |items| && items[i].FunctionCall? ==> items[i].call in ids
    requires forall c :: c in ids ==> c !in asked
    ensures PairedExcept(xs + Tag(Some(r), items), r, ids)
    ensures CallsWithin(xs + Tag(Some(r), items), r, asked + ids)
  {
    var zs := xs + Tag(Some(r), items);
    assert forall j, c :: OutputAt(zs, j, r, c) <==> OutputAt(xs, j, r, c);
    forall i, c | CallAt(zs, i, r, c)
      ensures c in asked + ids
      ensures c !in ids ==> AnsweredOnceAfter(zs, i, r, c)
      ensures c in ids ==> forall j :: !OutputAt(zs, j, r, c)
    {
      if i < |xs| {
        assert CallAt(xs, i, r, c);
        var j :| OutputAt(xs, j, r, c) && i < j && forall k :: OutputAt(xs, k, r, c) ==> k == j;
        assert OutputAt(zs, j, r, c);
      } else {
        assert zs[i] == Tag(Some(r), items)[i - |xs|];
        forall j ensures !OutputAt(zs, j, r, c) {
          assert OutputAt(xs, j, r, c) ==> exists k :: k < j && CallAt(xs, k, r, c);
        }
      }
    }
    forall j, c | OutputAt(zs, j, r, c) ensures exists i :: i < j && CallAt(zs, i, r, c) {
      assert OutputAt(xs, j, r, c);
      var i :| i < j && CallAt(xs, i, r, c);
      assert CallAt(zs, i, r, c);
    }
  }

  /** A result row answers the oldest open call. */
  lemma PairedAnswer(xs: seq<Tagged>, c: CallId, content: string, r: RunId, open: seq<CallId>, asked: seq<CallId>)
    requires open != [] && open[0] == c && c !in open[1..]
    requires PairedExcept(xs, r, open) && CallsWithin(xs, r, asked)
    requires exists i :: CallAt(xs, i, r, c)
    ensures PairedExcept(xs + [Tagged(Some(r), FunctionCallOutput(Some(c), content))], r, open[1..])
    ensures CallsWithin(xs + [Tagged(Some(r), FunctionCallOutput(Some(c), content))], r, asked)
  {
    var zs := xs + [Tagged(Some(r), FunctionCallOutput(Some(c), content))];
    assert forall i, d :: CallAt(zs, i, r, d) <==> CallAt(xs, i, r, d);
    assert forall j, d :: OutputAt(zs, j, r, d) <==> OutputAt(xs, j, r, d) || (j == |xs| && d == c);
    forall i, d | CallAt(zs, i, r, d)
      ensures d !in open[1..] ==> AnsweredOnceAfter(zs, i, r, d)
      ensures d in open[1..] ==> forall j :: !OutputAt(zs, j, r, d)
    {
      assert CallAt(xs, i, r, d);
      if d == c {
        assert c in open;
        assert OutputAt(zs, |xs|, r, c);
      } else if d !in open[1..] {
        assert d !in open;
        var j :| OutputAt(xs, j, r, d) && i < j && forall k :: OutputAt(xs, k, r, d) ==> k == j;
        assert OutputAt(zs, j, r, d);
      } else {
        assert d in open;
      }
    }
    var i0 :| CallAt(xs, i0, r, c);
    forall j, d | OutputAt(zs, j, r, d) ensures exists i :: i < j && CallAt(zs, i, r, d) {
      if j == |xs| {
        assert CallAt(zs, i0, r, c);
      } else {
        assert OutputAt(xs, j, r, d);
        var i :| i < j && CallAt(xs, i, r, d);
        assert CallAt(zs, i, r, d);
      }
    }
  }

  /** Every asked id has a call item. */
  lemma {:induction false} AskedHasItem(ms: seq<Message>, r: RunId, c: CallId)
    requires c in Asked(Of(ms, r))
    ensures exists i :: CallAt(TaggedRequest(ms), i, r, c)
  {
    hide Expand, Tag;
    var m, pre := Last(ms), Init(ms);
    var xs, more := TaggedRequest(pre), Tag(m.run, Expand(ToTurn(m)));
    assert TaggedRequest(ms) == xs + more;
    if m.run == Some(r) {
      assert Init(Of(ms, r)) == Of(pre, r);
    }
    if c in Asked(Of(pre, r)) {
      AskedHasItem(pre, r, c);
      var i :| CallAt(xs, i, r, c);
      assert CallAt(xs + more, i, r, c);
    } else {
      var at := CallHasItem(m, r, c);
      assert CallAt(xs + more, |xs| + at, r, c);
    }
  }

  lemma CallHasItem(m: Message, r: RunId, c: CallId) returns (at: nat)
    requires m.role == Assistant && m.run == Some(r) && c in Ids(m.calls)
    ensures CallAt(Tag(m.run, Expand(ToTurn(m))), at, r, c)
  {
    var k :| 0 <= k < |m.calls| && m.calls[k].id == c;
    var e := Expand(ToTurn(m));
    at := |e| - |m.calls| + k;
    assert e[at] == CallItem(m.calls[k]);
  }

  /** For a well-formed run, the request pairs every call with one later output, except the calls
      still open; other runs' rows may stand anywhere in between. */
  lemma {:induction false} RequestPairs(ms: seq<Message>, r: RunId)
    requires WellFormed(Of(ms, r))
    ensures PairedExcept(TaggedRequest(ms), r, Open(Of(ms, r)))
    ensures CallsWithin(TaggedRequest(ms), r, Asked(Of(ms, r)))
  {
    if ms != [] {
      var m, pre := Last(ms), Init(ms);
      var t := Of(pre, r);
      var xs, e := TaggedRequest(pre), Expand(ToTurn(m));
      if m.run != Some(r) {
        RequestPairs(pre, r);
        PairedForeign(xs, Tag(m.run, e), r, Open(t), Asked(t));
      } else {
        assert Of(ms, r) == t + [m];
        assert Init(t + [m]) == t;
        RequestPairs(pre, r);
        Ledger(t);
        if m.role == Assistant {
          assert forall i :: 0 <= i < |e| && e[i].FunctionCall? ==> e[i].call in Ids(m.calls) by {
            AssistantCalls(m);
          }
          PairedAsk(xs, e, r, Asked(t), Ids(m.calls));
        } else if m.role == Tool {
          var o := Open(t);
          assert o[0] in Asked(t);
          AskedHasItem(pre, r, o[0]);
          NoDupSplit(Replies(t), o);
          assert o == [o[0]] + o[1..];
          NoDupSplit([o[0]], o[1..]);
          PairedAnswer(xs, o[0], m.content, r, o, Asked(t));
          assert Tag(m.run, e) == [Tagged(Some(r), FunctionCallOutput(Some(o[0]), m.content))];
        } else {
          PairedForeign(xs, Tag(m.run, e), r, Open(t), Asked(t));
        }
      }
    }
  }

  lemma AssistantCalls(m: Message)
    requires m.role == Assistant
    ensures forall i :: 0 <= i < |Expand(ToTurn(m))| && Expand(ToTurn(m))[i].FunctionCall? ==>
      Expand(ToTurn(m))[i].call in Ids(m.calls)
  {
    var e := Expand(ToTurn(m));
    forall i | 0 <= i < |e| && e[i].FunctionCall? ensures e[i].call in Ids(m.calls) {
      var k := i - (|e| - |m.calls|);
      assert e[i] == CallItem(m.calls[k]);
      assert Ids(m.calls)[k] == m.calls[k].id;
    }
  }
}
