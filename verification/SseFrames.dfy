/** Server-sent event frames as written, and the browser's event stream parser that reads them. */
module SseFrames {
  import opened Prelude
  import opened Text

  // ---------------------------------------------------------------------------
  // Decimal ids
  // ---------------------------------------------------------------------------

  const MAX_INT64: int := 0x7FFF_FFFF_FFFF_FFFF

  /** Base-ten parsing of a 64-bit integer: an optional sign, then at least one digit. */
  function ParseInt(s: string): Option<int> {
    var signed := s != "" && (s[0] == '+' || s[0] == '-');
    var digits := if signed then s[1..] else s;
    if digits == "" || Value(digits) == None then None
    else
      var v: int := Value(digits).value;
      if signed && s[0] == '-' then (if v <= MAX_INT64 + 1 then Some(-v) else None)
      else if v <= MAX_INT64 then Some(v) else None
  }

  /** The id sent to the browser is the id read back from its Last-Event-ID header. */
  lemma {:induction false} IdReadsBack(n: nat)
    requires n <= MAX_INT64
    ensures ParseInt(Digits(n)) == Some(n)
  {
    ValueOfDigits(n);
  }

  // ---------------------------------------------------------------------------
  // Writing
  // ---------------------------------------------------------------------------

  /** What goes over the stream: a frame, or a comment line that keeps the connection alive. */
  datatype Item = Frame(id: int, kind: string, data: string) | Comment(text: string)

  ghost predicate OneLine(s: string) {
    Free(s, '\r') && Free(s, '\n')
  }

  ghost predicate Writable(x: Item) {
    match x
    case Frame(_, kind, data) => OneLine(kind) && Free(data, '\r')
    case Comment(text) => OneLine(text)
  }

  function Payload(x: Item): string
    requires x.Frame?
  {
    if x.data == "" then "{}" else x.data
  }

  function Unlines(lines: seq<string>): string {
    if lines == [] then "" else Unlines(lines[..|lines| - 1]) + lines[|lines| - 1] + "\n"
  }

  function DataLines(parts: seq<string>): seq<string> {
    seq(|parts|, i requires 0 <= i < |parts| => "data: " + parts[i])
  }

  /** The lines of one item, the blank line that ends it included. */
  function ItemLines(x: Item): seq<string> {
    match x
    case Comment(text) => [": " + text, ""]
    case Frame(id, kind, _) =>
      (if id > 0 then ["id: " + Digits(id)] else []) + ["event: " + kind] + DataLines(Split(Payload(x), '\n')) + [""]
  }

  /** One `data` line per line of the payload. */
  method WriteData(payload: string) returns (r: string)
    ensures r == Unlines(DataLines(Split(payload, '\n')))
  {
    var parts := Split(payload, '\n');
    r := "";
    for i := 0 to |parts|
      invariant r == Unlines(DataLines(parts[..i]))
    {
      UnlinesPush(DataLines(parts[..i]), "data: " + parts[i]);
      assert DataLines(parts[..i + 1]) == DataLines(parts[..i]) + ["data: " + parts[i]];
      r := r + ("data: " + parts[i]) + "\n";
    }
    assert parts[..|parts|] == parts;
  }

  method WriteFrame(out: string, id: int, kind: string, data: string) returns (r: string)
    ensures r == out + Unlines(ItemLines(Frame(id, kind, data)))
  {
    hide DataLines, Split, Digits;
    var head := "";
    ghost var ids: seq<string> := [];
    if id > 0 {
      head := head + ("id: " + Digits(id)) + "\n";
      ids := ["id: " + Digits(id)];
      UnlinesPush([], ids[0]);
      assert [] + ids == ids;
    }
    UnlinesPush(ids, "event: " + kind);
    head := head + ("event: " + kind) + "\n";
    var payload := data;
    if payload == "" {
      payload := "{}";
    }
    var body := WriteData(payload);
    UnlinesAppend(ids + ["event: " + kind], DataLines(Split(payload, '\n')));
    UnlinesPush(ids + ["event: " + kind] + DataLines(Split(payload, '\n')), "");
    assert ItemLines(Frame(id, kind, data)) == ids + ["event: " + kind] + DataLines(Split(payload, '\n')) + [""];
    r := out + (head + body + "" + "\n");
  }

  lemma UnlinesPush(lines: seq<string>, l: string)
    ensures Unlines(lines + [l]) == Unlines(lines) + l + "\n"
  {
    assert (lines + [l])[..|lines|] == lines;
  }

  /** Everything written, item after item. */
  function AllLines(items: seq<Item>): seq<string> {
    if items == [] then [] else AllLines(items[..|items| - 1]) + ItemLines(items[|items| - 1])
  }

  function Written(items: seq<Item>): string {
    if items == [] then "" else Written(items[..|items| - 1]) + Unlines(ItemLines(items[|items| - 1]))
  }

  // ---------------------------------------------------------------------------
  // Reading
  // ---------------------------------------------------------------------------

  /** The end of the first line: a CR, an LF, or the end of the text. */
  function LineEnd(s: string): (e: nat)
    ensures e <= |s| && OneLine(s[..e])
    ensures e < |s| ==> s[e] == '\r' || s[e] == '\n'
  {
    if s == "" || s[0] == '\r' || s[0] == '\n' then 0 else 1 + LineEnd(s[1..])
  }

  /** Complete lines, ended by CR LF, LF or CR. */
  function Lines(s: string): seq<string>
    decreases |s|
  {
    var e := LineEnd(s);
    if e == |s| then []
    else
      var skip := if s[e] == '\r' && e + 1 < |s| && s[e + 1] == '\n' then 2 else 1;
      [s[..e]] + Lines(s[e + skip..])
  }

  datatype Event = Event(kind: string, data: string)

  /** The parser of sections 9.2.5 and 9.2.6 of the WHATWG HTML Standard: its buffers, the last event id
      string, and what it has dispatched. */
  datatype Parser = Parser(data: string, kind: string, idBuffer: string, lastId: string, retry: Option<nat>, events: seq<Event>)

  const START := Parser("", "", "", "", None, [])

  function Colon(l: string): (i: nat)
    ensures i <= |l| && Free(l[..i], ':') && (i < |l| ==> l[i] == ':')
  {
    if l == "" || l[0] == ':' then 0 else 1 + Colon(l[1..])
  }

  function Dispatch(p: Parser): Parser {
    var q := p.(lastId := p.idBuffer, data := "", kind := "");
    if p.data == "" then q
    else
      var data := if p.data[|p.data| - 1] == '\n' then p.data[..|p.data| - 1] else p.data;
      q.(events := p.events + [Event(if p.kind == "" then "message" else p.kind, data)])
  }

  function Field(p: Parser, name: string, value: string): Parser {
    if name == "event" then p.(kind := value)
    else if name == "data" then p.(data := p.data + value + "\n")
    else if name == "id" then (if '\0' in value then p else p.(idBuffer := value))
    else if name == "retry" then (if value != "" && Value(value).Some? then p.(retry := Value(value)) else p)
    else p
  }

  function Feed(p: Parser, l: string): Parser {
    if l == "" then Dispatch(p)
    else if l[0] == ':' then p
    else
      var i := Colon(l);
      if i == |l| then Field(p, l, "")
      else
        var v := l[i + 1..];
        Field(p, l[..i], if v != "" && v[0] == ' ' then v[1..] else v)
  }

  function Run(p: Parser, lines: seq<string>): Parser {
    if lines == [] then p else Feed(Run(p, lines[..|lines| - 1]), lines[|lines| - 1])
  }

  function Parse(s: string): Parser {
    Run(START, Lines(s))
  }

  // ---------------------------------------------------------------------------
  // Lines come back
  // ---------------------------------------------------------------------------

  lemma {:induction false} LineEndAt(l: string, rest: string)
    requires OneLine(l)
    ensures LineEnd(l + "\n" + rest) == |l|
  {
    var s := l + "\n" + rest;
    if l != "" {
      assert s[1..] == l[1..] + "\n" + rest && s[0] == l[0];
      LineEndAt(l[1..], rest);
    }
  }

  lemma LinesCons(l: string, rest: string)
    requires OneLine(l)
    ensures Lines(l + "\n" + rest) == [l] + Lines(rest)
  {
    LineEndAt(l, rest);
    var s := l + "\n" + rest;
    assert s[..|l|] == l && s[|l|] == '\n' && s[|l| + 1..] == rest;
  }

  ghost predicate AllOneLine(lines: seq<string>) {
    forall i :: 0 <= i < |lines| ==> OneLine(lines[i])
  }

  lemma Reassociate(a: string, l: string, rest: string)
    ensures (a + l + "\n") + rest == a + (l + "\n" + rest)
  {
  }

  lemma AllPrefix(lines: seq<string>)
    requires lines != [] && AllOneLine(lines)
    ensures AllOneLine(lines[..|lines| - 1]) && OneLine(lines[|lines| - 1])
  {
  }

  lemma {:induction false} LinesOfUnlines(lines: seq<string>, rest: string)
    requires AllOneLine(lines)
    ensures Lines(Unlines(lines) + rest) == lines + Lines(rest)
  {
    if lines == [] {
      assert Unlines(lines) + rest == rest;
    } else {
      var m, l := lines[..|lines| - 1], lines[|lines| - 1];
      AllPrefix(lines);
      UnlinesPush(m, l);
      assert m + [l] == lines;
      hide Lines, Unlines, AllOneLine;
      Reassociate(Unlines(m), l, rest);
      LinesOfUnlines(m, l + "\n" + rest);
      LinesCons(l, rest);
      PushBack(m, l, Lines(rest));
    }
  }

  lemma PushBack(m: seq<string>, l: string, x: seq<string>)
    ensures m + ([l] + x) == (m + [l]) + x
  {
  }

  lemma Grouped(a: string, m: string, l: string)
    ensures (a + m) + l + "\n" == a + (m + l + "\n")
  {
  }

  lemma {:induction false} UnlinesAppend(a: seq<string>, b: seq<string>)
    ensures Unlines(a + b) == Unlines(a) + Unlines(b)
  {
    if b == [] {
      assert a + b == a;
    } else {
      var m, l := b[..|b| - 1], b[|b| - 1];
      UnlinesAppend(a, m);
      assert (a + b)[..|a + b| - 1] == a + m && (a + b)[|a + b| - 1] == l;
      Grouped(Unlines(a), Unlines(m), l);
    }
  }

  lemma {:induction false} WrittenIsLines(items: seq<Item>)
    ensures Written(items) == Unlines(AllLines(items))
  {
    if items != [] {
      WrittenIsLines(items[..|items| - 1]);
      UnlinesAppend(AllLines(items[..|items| - 1]), ItemLines(items[|items| - 1]));
    }
  }

  lemma SplitKeepsFree(s: string, sep: char, c: char)
    requires Free(s, c)
    ensures AllFree(Split(s, sep), c)
  {
    if s != "" {
      SplitKeepsFree(s[1..], sep, c);
    }
  }

  lemma ItemIsLines(x: Item)
    requires Writable(x)
    ensures AllOneLine(ItemLines(x))
  {
    if x.Frame? {
      SplitFree(Payload(x), '\n');
      SplitKeepsFree(Payload(x), '\n', '\r');
      var parts := Split(Payload(x), '\n');
      forall i | 0 <= i < |parts| ensures OneLine(DataLines(parts)[i]) {
        assert Free(parts[i], '\n') && Free(parts[i], '\r');
      }
    }
  }

  lemma {:induction false} AllIsLines(items: seq<Item>)
    requires forall i :: 0 <= i < |items| ==> Writable(items[i])
    ensures AllOneLine(AllLines(items))
  {
    if items != [] {
      AllIsLines(items[..|items| - 1]);
      ItemIsLines(items[|items| - 1]);
    }
  }

  // ---------------------------------------------------------------------------
  // Round trip
  // ---------------------------------------------------------------------------

  lemma {:induction false} RunAppend(p: Parser, a: seq<string>, b: seq<string>)
    ensures Run(p, a + b) == Run(Run(p, a), b)
  {
    if b == [] {
      assert a + b == a;
    } else {
      var m := b[..|b| - 1];
      RunAppend(p, a, m);
      assert (a + b)[..|a + b| - 1] == a + m;
    }
  }

  lemma RunOne(p: Parser, l: string)
    ensures Run(p, [l]) == Feed(p, l)
  {
    assert [l][..0] == [];
  }

  lemma {:induction false} ColonAt(name: string, value: string)
    requires Free(name, ':')
    ensures Colon(name + ": " + value) == |name|
  {
    var l := name + ": " + value;
    if name != "" {
      assert l[1..] == name[1..] + ": " + value && l[0] == name[0];
      ColonAt(name[1..], value);
    }
  }

  /** A field line is read back as the field and the value it was written from. */
  lemma FeedField(p: Parser, name: string, value: string)
    requires name != "" && Free(name, ':')
    ensures Feed(p, name + ": " + value) == Field(p, name, value)
  {
    ColonAt(name, value);
    var l := name + ": " + value;
    assert l[..|name|] == name && l[|name| + 1..] == " " + value && (" " + value)[1..] == value;
  }

  lemma Regroup(a: string, b: string, c: string)
    ensures (a + b + "\n") + c + "\n" == a + (b + ['\n'] + c) + "\n"
  {
  }

  lemma {:induction false} RunData(p: Parser, parts: seq<string>)
    requires parts != []
    ensures Run(p, DataLines(parts)) == p.(data := p.data + Join(parts, '\n') + "\n")
    decreases |parts|
  {
    var l, q := DataLines(parts), p.(data := p.data + parts[0] + "\n");
    assert Run(p, ["data: " + parts[0]]) == q by {
      RunOne(p, "data: " + parts[0]);
      assert "data" + ": " == "data: ";
      FeedField(p, "data", parts[0]);
    }
    if |parts| == 1 {
      assert l == ["data: " + parts[0]];
    } else {
      hide Run, Join;
      assert l == ["data: " + parts[0]] + DataLines(parts[1..]);
      RunAppend(p, ["data: " + parts[0]], DataLines(parts[1..]));
      RunData(q, parts[1..]);
      Regroup(p.data, parts[0], Join(parts[1..], '\n'));
      JoinCons(parts, '\n');
    }
  }

  /** The browser's event for a frame. An empty type reads as "message". */
  function EventOf(x: Item): Event
    requires x.Frame?
  {
    Event(if x.kind == "" then "message" else x.kind, Payload(x))
  }

  function Expected(items: seq<Item>): seq<Event> {
    if items == [] then []
    else Expected(items[..|items| - 1]) + if items[|items| - 1].Frame? then [EventOf(items[|items| - 1])] else []
  }

  /** The id of the last frame that has one. */
  function LastId(items: seq<Item>): string {
    if items == [] then ""
    else
      var x := items[|items| - 1];
      if x.Frame? && x.id > 0 then Digits(x.id) else LastId(items[..|items| - 1])
  }

  lemma RunId(p: Parser, id: int)
    ensures Run(p, if id > 0 then ["id: " + Digits(id)] else []) == p.(idBuffer := if id > 0 then Digits(id) else p.idBuffer)
  {
    if id > 0 {
      RunOne(p, "id: " + Digits(id));
      assert "id" + ": " == "id: ";
      FeedField(p, "id", Digits(id));
      assert forall i :: 0 <= i < |Digits(id)| ==> Digits(id)[i] != '\0';
    }
  }

  lemma RunKind(p: Parser, kind: string)
    ensures Run(p, ["event: " + kind]) == p.(kind := kind)
  {
    RunOne(p, "event: " + kind);
    assert "event" + ": " == "event: ";
    FeedField(p, "event", kind);
  }

  /** The lines of a frame, read between two dispatches, make exactly its event. */
  lemma RunFrame(p: Parser, x: Item)
    requires x.Frame? && Writable(x) && p.data == "" && p.kind == ""
    ensures var id := if x.id > 0 then Digits(x.id) else p.idBuffer;
            Run(p, ItemLines(x)) == p.(idBuffer := id, lastId := id, events := p.events + [EventOf(x)])
  {
    hide Run, Feed, Split, Join, Digits, DataLines;
    var parts := Split(Payload(x), '\n');
    var ids, kinds := if x.id > 0 then ["id: " + Digits(x.id)] else [], ["event: " + x.kind];
    var q := p.(idBuffer := if x.id > 0 then Digits(x.id) else p.idBuffer);
    RunId(p, x.id);
    RunKind(q, x.kind);
    RunAppend(p, ids, kinds);
    RunAppend(p, ids + kinds, DataLines(parts));
    RunData(q.(kind := x.kind), parts);
    JoinSplit(Payload(x), '\n');
    RunAppend(p, ids + kinds + DataLines(parts), [""]);
    RunBlank(q.(kind := x.kind, data := "" + Payload(x) + "\n"), Payload(x));
  }

  /** A blank line dispatches what has been gathered. */
  lemma RunBlank(d: Parser, payload: string)
    requires d.data == "" + payload + "\n"
    ensures Run(d, [""]) == d.(lastId := d.idBuffer, data := "", kind := "",
                              events := d.events + [Event(if d.kind == "" then "message" else d.kind, payload)])
  {
    RunOne(d, "");
    assert d.data[..|d.data| - 1] == payload;
  }

  lemma RunComment(p: Parser, x: Item)
    requires x.Comment? && p.data == "" && p.kind == ""
    ensures Run(p, ItemLines(x)) == p.(lastId := p.idBuffer)
  {
    RunAppend(p, [": " + x.text], [""]);
    RunOne(p, ": " + x.text);
    RunOne(p, "");
    assert ItemLines(x) == [": " + x.text] + [""];
  }

  lemma {:induction false} RunAll(items: seq<Item>)
    requires forall i :: 0 <= i < |items| ==> Writable(items[i])
    ensures Run(START, AllLines(items)) == Parser("", "", LastId(items), LastId(items), None, Expected(items))
  {
    if items != [] {
      var m, x := items[..|items| - 1], items[|items| - 1];
      RunAll(m);
      RunAppend(START, AllLines(m), ItemLines(x));
      var p := Run(START, AllLines(m));
      if x.Frame? {
        RunFrame(p, x);
      } else {
        RunComment(p, x);
      }
    }
  }

  /** Whatever frames and comments are written, the browser dispatches the frames' types and payloads,
      in order and nothing else, and its last event id is that of the last frame with one. */
  lemma {:induction false} RoundTrip(items: seq<Item>)
    requires forall i :: 0 <= i < |items| ==> Writable(items[i])
    ensures Parse(Written(items)).events == Expected(items)
    ensures Parse(Written(items)).lastId == LastId(items)
  {
    WrittenIsLines(items);
    AllIsLines(items);
    LinesOfUnlines(AllLines(items), "");
    assert Unlines(AllLines(items)) + "" == Unlines(AllLines(items));
    assert Lines("") == [];
    assert AllLines(items) + [] == AllLines(items);
    RunAll(items);
  }

  // ---------------------------------------------------------------------------
  // Where the condition comes from
  // ---------------------------------------------------------------------------

  ghost predicate CleanEvent(e: Event) {
    OneLine(e.kind) && Free(e.data, '\r')
  }

  ghost predicate CleanParser(p: Parser) {
    OneLine(p.kind) && Free(p.data, '\r') && forall i :: 0 <= i < |p.events| ==> CleanEvent(p.events[i])
  }

  lemma FeedClean(p: Parser, l: string)
    requires CleanParser(p) && OneLine(l)
    ensures CleanParser(Feed(p, l))
  {
  }

  lemma {:induction false} RunClean(lines: seq<string>)
    requires AllOneLine(lines)
    ensures CleanParser(Run(START, lines))
  {
    if lines != [] {
      RunClean(lines[..|lines| - 1]);
      FeedClean(Run(START, lines[..|lines| - 1]), lines[|lines| - 1]);
    }
  }

  lemma {:induction false} LinesClean(s: string)
    ensures AllOneLine(Lines(s))
    decreases |s|
  {
    var e := LineEnd(s);
    if e < |s| {
      LinesClean(s[e + if s[e] == '\r' && e + 1 < |s| && s[e + 1] == '\n' then 2 else 1..]);
    }
  }

  lemma {:induction false} ExpectedHas(items: seq<Item>, i: nat)
    requires i < |items| && items[i].Frame?
    ensures EventOf(items[i]) in Expected(items)
  {
    if i < |items| - 1 {
      ExpectedHas(items[..|items| - 1], i);
    }
  }

  /** No stream makes a browser dispatch a type with a line break or data with a CR, so the round trip
      holds exactly for frames that have neither. */
  lemma {:induction false} RoundTripIff(items: seq<Item>)
    requires forall i :: 0 <= i < |items| && items[i].Comment? ==> Writable(items[i])
    ensures Parse(Written(items)).events == Expected(items) <==> forall i :: 0 <= i < |items| ==> Writable(items[i])
  {
    if Parse(Written(items)).events == Expected(items) {
      LinesClean(Written(items));
      RunClean(Lines(Written(items)));
      forall i | 0 <= i < |items| && items[i].Frame? ensures Writable(items[i]) {
        ExpectedHas(items, i);
        assert CleanEvent(EventOf(items[i]));
      }
    }
    if forall i :: 0 <= i < |items| ==> Writable(items[i]) {
      RoundTrip(items);
    }
  }
}
