/** Caps on tool output. A byte is a character here. */
module Truncate {
  import opened Prelude
  import opened Text

  /** Text capped at `limit` bytes, back to the last newline past the start, and whether it was cut. */
  function Clip(text: string, limit: int): (string, bool) {
    if limit <= 0 || |text| <= limit then (text, false)
    else
      var nl := LastIndex(text[..limit], '\n');
      (if nl > 0 then text[..nl] else text[..limit], true)
  }

  /** A half cut back, or forward, to a newline. */
  function CutBack(half: string): string {
    var nl := LastIndex(half, '\n');
    if nl > 0 then half[..nl] else half
  }

  function CutForward(half: string): string {
    var nl := Index(half, '\n');
    if nl >= 0 && nl < |half| - 1 then half[nl + 1..] else half
  }

  /** The two ends of a text longer than the limit: at most half of it each, broken at newlines. */
  function Head(text: string, limit: nat): string
    requires limit < |text|
  {
    CutBack(text[..limit / 2])
  }

  function Tail(text: string, limit: nat): string
    requires limit < |text|
  {
    CutForward(text[|text| - limit / 2..])
  }

  function Notice(text: string): string {
    "\n[truncated: " + text + "]"
  }

  function CutNotice(cut: nat, total: nat): string {
    Notice(Digits(cut) + " bytes cut from the middle of " + Digits(total))
  }

  function ClipMiddle(text: string, limit: nat): string {
    if limit == 0 || |text| <= limit then text
    else
      var head, tail := Head(text, limit), Tail(text, limit);
      head + CutNotice(|text| - |head| - |tail|, |text|) + "\n" + tail
  }

  // ---------------------------------------------------------------------------
  // The compacting buffer
  // ---------------------------------------------------------------------------

  function Compact(buf: string, limit: nat): string {
    var half := limit / 2;
    if |buf| > 2 * limit then buf[..half] + buf[|buf| - half..] else buf
  }

  /** What is held after writing `chunks` to an empty buffer. */
  function After(chunks: seq<string>, limit: nat): string {
    if chunks == [] then "" else Compact(After(chunks[..|chunks| - 1], limit) + chunks[|chunks| - 1], limit)
  }

  function Concat(chunks: seq<string>): string {
    if chunks == [] then "" else Concat(chunks[..|chunks| - 1]) + chunks[|chunks| - 1]
  }

  /** `head` is what is shown of the first bytes `half`: all of them, or up to their last newline past the start. */
  ghost predicate Begins(head: string, half: string) {
    if exists i :: 0 < i < |half| && half[i] == '\n'
    then head < half && half[|head|] == '\n' && head != "" && forall i :: |head| < i < |half| ==> half[i] != '\n'
    else head == half
  }

  /** `tail` is what is shown of the last bytes `half`: all of them, or from after their first newline, unless that
      is the last byte of all. */
  ghost predicate Ends(tail: string, half: string) {
    var n := |half| - |tail|;
    if exists i :: 0 <= i < |half| && half[i] == '\n' && (forall j :: 0 <= j < i ==> half[j] != '\n') && i < |half| - 1
    then 0 < n < |half| && tail == half[n..] && half[n - 1] == '\n' && forall j :: 0 <= j < n - 1 ==> half[j] != '\n'
    else tail == half
  }

  /** The text shown for a stream of which `held` bytes are held: a beginning of it and an end of it, at most half
      the limit each, and between them how many of the held bytes are not shown. */
  ghost predicate ShowsEnds(shown: string, stream: string, held: nat, limit: nat) {
    && |stream| >= held > limit
    && exists head, tail, notice :: ShowsWith(shown, stream, held, limit, head, tail, notice)
  }

  predicate Announces(notice: string, cut: nat, total: nat) {
    notice == "\n[truncated: " + Digits(cut) + " bytes cut from the middle of " + Digits(total) + "]"
  }

  ghost predicate ShowsWith(shown: string, stream: string, held: nat, limit: nat, head: string, tail: string,
                            notice: string)
    requires |stream| >= held > limit
  {
    && Begins(head, stream[..limit / 2]) && Ends(tail, stream[|stream| - limit / 2..])
    && |head| + |tail| <= held && Announces(notice, held - |head| - |tail|, held)
    && shown == head + notice + "\n" + tail
  }

  class BoundedBuffer {
    const limit: nat
    var buf: string
    var total: nat
    ghost var chunks: seq<string>

    /** The buffer is the fold of everything written, and counts it. */
    ghost predicate Valid()
      reads this
    {
      buf == After(chunks, limit) && total == |Concat(chunks)|
    }

    constructor (limit: nat)
      ensures Valid() && chunks == [] && this.limit == limit
    {
      this.limit, buf, total, chunks := limit, "", 0, [];
    }

    /** Everything is consumed, whatever is kept. */
    method Write(p: string) returns (n: nat)
      requires Valid()
      modifies this
      ensures Valid() && chunks == old(chunks) + [p] && n == |p|
      ensures |buf| <= 2 * limit && total == old(total) + |p|
    {
      total := total + |p|;
      buf := buf + p;
      if |buf| > 2 * limit {
        var half := limit / 2;
        buf := buf[..half] + buf[|buf| - half..];
      }
      chunks := chunks + [p];
      assert chunks[..|chunks| - 1] == old(chunks);
      n := |p|;
    }

    /** What was written, when what is held is within the limit and nothing was lost; and when more than the limit
        is held, the two ends of what was written around a notice. */
    method String() returns (s: string)
      requires Valid()
      ensures s == ClipMiddle(After(chunks, limit), limit)
      ensures |Concat(chunks)| <= limit ==> s == Concat(chunks)
      ensures limit > 0 && |After(chunks, limit)| > limit ==> ShowsEnds(s, Concat(chunks), |After(chunks, limit)|, limit)
    {
      hide After, Concat;
      ShownEnds(chunks, limit);
      s := ClipMiddle(buf, limit);
    }
  }

  /** A buffer that has lost bytes still holds both halves of the stream. */
  ghost predicate Represents(buf: string, stream: string, limit: nat) {
    var half := limit / 2;
    && |buf| <= |stream|
    && (|buf| == |stream| ==> buf == stream)
    && (|buf| < |stream| ==>
          |buf| >= 2 * half && |stream| > 2 * limit
          && buf[..half] == stream[..half] && buf[|buf| - half..] == stream[|stream| - half..])
  }

  lemma AppendRepresents(buf: string, stream: string, limit: nat, p: string)
    requires Represents(buf, stream, limit)
    ensures Represents(buf + p, stream + p, limit)
  {
    var half := limit / 2;
    if |buf| < |stream| {
      assert (buf + p)[..half] == buf[..half] && (stream + p)[..half] == stream[..half];
      assert (buf + p)[|buf| - half..] == buf[|buf| - half..] + p;
      assert (stream + p)[|stream| - half..] == stream[|stream| - half..] + p;
      var a, b := (buf + p)[|buf| - half..], (stream + p)[|stream| - half..];
      assert a == b;
      assert a[|p|..] == (buf + p)[|buf + p| - half..] && b[|p|..] == (stream + p)[|stream + p| - half..];
    }
  }

  lemma CompactRepresents(buf: string, stream: string, limit: nat)
    requires Represents(buf, stream, limit)
    ensures Represents(Compact(buf, limit), stream, limit)
  {
    var half := limit / 2;
    if |buf| > 2 * limit {
      var c := Compact(buf, limit);
      assert c[..half] == buf[..half] && c[|c| - half..] == buf[|buf| - half..];
    }
  }

  /** The compacting buffer against the unbounded one, for every way of cutting the stream into writes. */
  lemma {:induction false} BufferRefines(chunks: seq<string>, limit: nat)
    ensures Represents(After(chunks, limit), Concat(chunks), limit)
    ensures |After(chunks, limit)| <= 2 * limit
  {
    if chunks != [] {
      var m, p := chunks[..|chunks| - 1], chunks[|chunks| - 1];
      BufferRefines(m, limit);
      AppendRepresents(After(m, limit), Concat(m), limit, p);
      CompactRepresents(After(m, limit) + p, Concat(chunks), limit);
    }
  }

  lemma EndsAgree(buf: string, stream: string, limit: nat)
    requires Represents(buf, stream, limit) && |buf| > limit
    ensures Head(buf, limit) == Head(stream, limit) && Tail(buf, limit) == Tail(stream, limit)
  {
    hide CutBack, CutForward;
  }

  /** When more than `limit` bytes are held, what is shown has the head and tail that clipping the whole
      stream would have; only the two numbers in the notice count what is held. */
  lemma {:induction false} SameEnds(chunks: seq<string>, limit: nat)
    requires |After(chunks, limit)| > limit > 0
    ensures |Concat(chunks)| > limit
    ensures var held, stream := After(chunks, limit), Concat(chunks);
            var head, tail := Head(stream, limit), Tail(stream, limit);
            && ClipMiddle(held, limit) == head + CutNotice(|held| - |head| - |tail|, |held|) + "\n" + tail
            && ClipMiddle(stream, limit) == head + CutNotice(|stream| - |head| - |tail|, |stream|) + "\n" + tail
  {
    hide Head, Tail, CutNotice, After, Concat;
    BufferRefines(chunks, limit);
    EndsAgree(After(chunks, limit), Concat(chunks), limit);
  }

  lemma HeadBegins(half: string)
    ensures Begins(CutBack(half), half)
  {
  }

  lemma TailEnds(half: string)
    ensures Ends(CutForward(half), half)
  {
  }

  lemma NoticeText(cut: nat, total: nat)
    ensures Announces(CutNotice(cut, total), cut, total)
  {
    hide Digits;
    assert Digits(cut) + " bytes cut from the middle of " + Digits(total) + "]"
           == (Digits(cut) + " bytes cut from the middle of " + Digits(total)) + "]";
  }

  lemma EndsFit(text: string, limit: nat)
    requires limit < |text|
    ensures |CutBack(text[..limit / 2])| <= limit / 2 && |CutForward(text[|text| - limit / 2..])| <= limit / 2
  {
  }

  lemma ShownWith(shown: string, stream: string, held: nat, limit: nat, head: string, tail: string)
    requires |stream| >= held > limit && head == CutBack(stream[..limit / 2]) && tail == CutForward(stream[|stream| - limit / 2..])
    requires |head| + |tail| <= held && shown == head + CutNotice(held - |head| - |tail|, held) + "\n" + tail
    ensures ShowsEnds(shown, stream, held, limit)
  {
    hide *;
    HeadBegins(stream[..limit / 2]);
    TailEnds(stream[|stream| - limit / 2..]);
    NoticeText(held - |head| - |tail|, held);
    Shown(shown, stream, held, limit, head, tail, CutNotice(held - |head| - |tail|, held));
  }

  lemma Shown(shown: string, stream: string, held: nat, limit: nat, head: string, tail: string, notice: string)
    requires |stream| >= held > limit && Begins(head, stream[..limit / 2]) && Ends(tail, stream[|stream| - limit / 2..])
    requires |head| + |tail| <= held && Announces(notice, held - |head| - |tail|, held)
    requires shown == head + notice + "\n" + tail
    ensures ShowsEnds(shown, stream, held, limit)
  {
    hide Begins, Ends, Announces;
    assert ShowsWith(shown, stream, held, limit, head, tail, notice);
  }

  /** What the operator and the model see of a stream, however it was written. */
  lemma ShownEnds(chunks: seq<string>, limit: nat)
    ensures |Concat(chunks)| <= limit ==> ClipMiddle(After(chunks, limit), limit) == Concat(chunks)
    ensures limit > 0 && |After(chunks, limit)| > limit ==>
              ShowsEnds(ClipMiddle(After(chunks, limit), limit), Concat(chunks), |After(chunks, limit)|, limit)
  {
    hide After, Concat, CutBack, CutForward, CutNotice, ShowsEnds;
    BufferRefines(chunks, limit);
    var held, stream := After(chunks, limit), Concat(chunks);
    if limit > 0 && |held| > limit {
      hide ClipMiddle;
      SameEnds(chunks, limit);
      EndsFit(stream, limit);
      ShownWith(ClipMiddle(held, limit), stream, |held|, limit, Head(stream, limit), Tail(stream, limit));
    }
  }

  /** Chunking does not matter to what the ends show, as long as enough is held. */
  lemma {:induction false} ChunkingIsInvisible(a: seq<string>, b: seq<string>, limit: nat)
    requires Concat(a) == Concat(b) && |After(a, limit)| > limit > 0 && |After(b, limit)| > limit
    ensures Head(After(a, limit), limit) == Head(After(b, limit), limit)
    ensures Tail(After(a, limit), limit) == Tail(After(b, limit), limit)
  {
    BufferRefines(a, limit);
    BufferRefines(b, limit);
    EndsAgree(After(a, limit), Concat(a), limit);
    EndsAgree(After(b, limit), Concat(b), limit);
  }

  /** Bytes are lost exactly when the stream is longer than twice the limit, however it was written. */
  lemma LostIff(chunks: seq<string>, limit: nat)
    ensures |After(chunks, limit)| < |Concat(chunks)| <==> |Concat(chunks)| > 2 * limit
  {
    BufferRefines(chunks, limit);
  }

  /** Bytes were written that are neither held nor announced by a notice. */
  ghost predicate SilentLoss(chunks: seq<string>, limit: nat) {
    |After(chunks, limit)| < |Concat(chunks)| && (limit == 0 || |After(chunks, limit)| <= limit)
  }

  /** The notice can be missing. It is, after a write that compacts, and it stays so until more than
      `limit` bytes are held again. */
  lemma SilentIff(chunks: seq<string>, p: string, limit: nat)
    ensures var held := After(chunks, limit);
            SilentLoss(chunks + [p], limit) <==>
              || |held| + |p| > 2 * limit
              || (|Concat(chunks)| > 2 * limit && |held| + |p| <= limit)
  {
    BufferRefines(chunks, limit);
    LostIff(chunks, limit);
    assert (chunks + [p])[..|chunks|] == chunks;
  }

  /** At a limit of two, one write of five bytes loses three and shows the other two as if they were all. */
  lemma LosesSilently()
    ensures SilentLoss(["abcde"], 2) && ClipMiddle(After(["abcde"], 2), 2) == "ae"
  {
    var chunks := ["abcde"];
    assert chunks[..0] == [] && "" + "abcde" == "abcde";
    assert "abcde"[..1] == "a" && "abcde"[4..] == "e";
    assert After(chunks, 2) == "ae";
  }

  // ---------------------------------------------------------------------------
  // Numbered lines
  // ---------------------------------------------------------------------------

  function Pad(s: string, width: nat): string
    decreases width - |s|
  {
    if |s| >= width then s else Pad(" " + s, width)
  }

  function NumberedLine(n: nat, width: nat, line: string): string {
    Pad(Digits(n), width) + "  " + line
  }

  function Numbered(lines: seq<string>, start: nat, width: nat): seq<string> {
    seq(|lines|, i requires 0 <= i < |lines| => NumberedLine(start + i, width, lines[i]))
  }

  lemma {:induction false} JoinPush(parts: seq<string>, last: string, sep: char)
    requires parts != []
    ensures Join(parts + [last], sep) == Join(parts, sep) + [sep] + last
  {
    var all := parts + [last];
    if |parts| > 1 {
      JoinPush(parts[1..], last, sep);
      assert all[1..] == parts[1..] + [last];
    } else {
      assert all[1..] == [last];
    }
  }

  /** One number per line, right-aligned to the width of the largest, joined again by newlines. */
  method NumberLines(text: string, start: nat) returns (out: string)
    ensures var lines := Split(TrimSuffix(text, '\n'), '\n');
            out == Join(Numbered(lines, start, |Digits(start + |lines| - 1)|), '\n')
  {
    var lines := Split(TrimSuffix(text, '\n'), '\n');
    var width := |Digits(start + |lines| - 1)|;
    out := "";
    ghost var all := Numbered(lines, start, width);
    for i := 0 to |lines|
      invariant i == 0 ==> out == ""
      invariant i > 0 ==> out == Join(all[..i], '\n') + if i < |lines| then "\n" else ""
    {
      out := out + NumberedLine(start + i, width, lines[i]);
      assert all[..i + 1] == all[..i] + [all[i]];
      if i > 0 {
        JoinPush(all[..i], all[i], '\n');
      }
      if i < |lines| - 1 {
        out := out + "\n";
      }
    }
    assert all[..|lines|] == all;
  }

  lemma {:induction false} DigitsGrow(m: nat, n: nat)
    requires m <= n
    ensures |Digits(m)| <= |Digits(n)|
  {
    if n >= 10 {
      DigitsGrow(m / 10, n / 10);
    }
  }

  lemma {:induction false} PadFree(s: string, width: nat, c: char)
    requires Free(s, c) && c != ' '
    ensures Free(Pad(s, width), c)
    decreases width - |s|
  {
    if |s| < width {
      PadFree(" " + s, width, c);
    }
  }

  lemma NumberedFree(lines: seq<string>, start: nat, width: nat)
    requires AllFree(lines, '\n')
    ensures AllFree(Numbered(lines, start, width), '\n')
  {
    forall k | 0 <= k < |lines| ensures Free(NumberedLine(start + k, width, lines[k]), '\n') {
      assert Free(lines[k], '\n');
      PadFree(Digits(start + k), width, '\n');
    }
  }

  lemma NumberedSplit(lines: seq<string>, start: nat, width: nat)
    requires lines != [] && AllFree(lines, '\n')
    ensures Split(Join(Numbered(lines, start, width), '\n'), '\n') == Numbered(lines, start, width)
  {
    NumberedFree(lines, start, width);
    SplitJoin(Numbered(lines, start, width), '\n');
  }

  function Spaces(n: nat): string {
    seq(n, _ => ' ')
  }

  lemma {:induction false} PadIs(s: string, width: nat)
    requires |s| <= width
    ensures Pad(s, width) == Spaces(width - |s|) + s
    decreases width - |s|
  {
    if |s| < width {
      PadIs(" " + s, width);
      assert Spaces(width - |s| - 1) + (" " + s) == Spaces(width - |s|) + s;
    }
  }

  /** The text can be quoted back without counting: line `i` of the numbered text is the number of line `i`, with
      spaces before it up to the width of the largest number, two spaces, and line `i` of the text. */
  lemma NumberedAligns(text: string, start: nat, i: nat)
    requires i < |Split(TrimSuffix(text, '\n'), '\n')|
    ensures var lines := Split(TrimSuffix(text, '\n'), '\n');
            var number, width := Digits(start + i), |Digits(start + |lines| - 1)|;
            var shown := Split(Join(Numbered(lines, start, width), '\n'), '\n');
            && |shown| == |lines| && |number| <= width
            && shown[i] == Spaces(width - |number|) + number + "  " + lines[i]
  {
    hide Split, Join, Pad, Digits, TrimSuffix;
    var lines := Split(TrimSuffix(text, '\n'), '\n');
    SplitFree(TrimSuffix(text, '\n'), '\n');
    NumberedSplit(lines, start, |Digits(start + |lines| - 1)|);
    DigitsGrow(start + i, start + |lines| - 1);
    PadIs(Digits(start + i), |Digits(start + |lines| - 1)|);
  }
}
