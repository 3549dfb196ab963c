/** Paging through a file: what one `read_file` call shows, and what following its offsets shows. */
module ReadFile {
  import opened Prelude
  import opened Text
  import opened Truncate

  const MAX_FILE_LINES: nat := 2000
  const MAX_FILE_BYTES: nat := 250 * 1024
  const READ_CEILING: nat := 4 * 1024 * 1024

  /** The lines of a file. */
  function LinesOf(raw: string): (lines: seq<string>)
    ensures lines != []
  {
    Split(TrimSuffix(raw, '\n'), '\n')
  }

  /** Lines `from` up to `end` of `total`, as text before numbering. */
  datatype Page = Page(from: nat, end: nat, total: nat, body: string, capped: bool)
  {
    /** The offset the page suggests, when there is more. */
    function Next(): Option<nat> {
      if end < total then Some(end) else None
    }
  }

  datatype Outcome = TooLarge | Binary | Empty | PastEnd(offset: nat, total: nat) | Shown(page: Page, text: string)

  function LineLimit(limit: int): (n: nat)
    ensures 1 <= n <= MAX_FILE_LINES
  {
    if limit <= 0 || limit > MAX_FILE_LINES then MAX_FILE_LINES else limit
  }

  function PageAt(lines: seq<string>, offset: nat, limit: int): Page
    requires offset < |lines|
  {
    var end := if offset + LineLimit(limit) < |lines| then offset + LineLimit(limit) else |lines|;
    var (body, capped) := Clip(Join(lines[offset..end], '\n'), MAX_FILE_BYTES);
    Page(offset, if capped then offset + |Split(body, '\n')| else end, |lines|, body, capped)
  }

  /** The text shown for a body that begins after `from` lines. */
  function NumberedBody(body: string, from: nat): string {
    var shown := Split(TrimSuffix(body, '\n'), '\n');
    Join(Numbered(shown, from + 1, |Digits(from + |shown|)|), '\n')
  }

  /** The call: refusals first, then one page. `size` is what the sandbox says of the file. */
  method Execute(raw: string, size: nat, offset: int, limit: int) returns (r: Outcome)
    ensures r == TooLarge <==> size > READ_CEILING
    ensures r == Binary <==> size <= READ_CEILING && '\0' in raw
    ensures r == Empty <==> size <= READ_CEILING && raw == ""
    ensures r.PastEnd? <==> size <= READ_CEILING && '\0' !in raw && raw != "" && offset >= |LinesOf(raw)|
    ensures r.Shown? ==> (offset < 0 ==> r.page.from == 0) && (offset >= 0 ==> r.page.from == offset)
    ensures r.Shown? ==> r.page.from < |LinesOf(raw)| && r.page == PageAt(LinesOf(raw), r.page.from, limit)
    ensures r.Shown? ==> r.text == NumberedBody(r.page.body, r.page.from)
  {
    hide Split, Join, Numbered, Digits, TrimSuffix, LinesOf;
    if size > READ_CEILING {
      return TooLarge;
    }
    if '\0' in raw {
      return Binary;
    }
    var from := if offset < 0 then 0 else offset;
    var most := limit;
    if most <= 0 || most > MAX_FILE_LINES {
      most := MAX_FILE_LINES;
    }
    var lines := LinesOf(raw);
    if raw == "" {
      return Empty;
    }
    if from >= |lines| {
      return PastEnd(from, |lines|);
    }
    var end := if from + most < |lines| then from + most else |lines|;
    var body := Join(lines[from..end], '\n');
    var (clipped, cut) := Clip(body, MAX_FILE_BYTES);
    if cut {
      body := clipped;
      end := from + |Split(body, '\n')|;
    }
    var text := NumberLines(body, from + 1);
    r := Shown(Page(from, end, |lines|, body, cut), text);
  }

  // ---------------------------------------------------------------------------
  // One page
  // ---------------------------------------------------------------------------

  /** The lines of a file, put together again, are the file, but for one newline at its end. */
  lemma LinesRejoin(raw: string)
    ensures AllFree(LinesOf(raw), '\n')
    ensures raw == Join(LinesOf(raw), '\n') + if raw != "" && raw[|raw| - 1] == '\n' then "\n" else ""
  {
    SplitFree(TrimSuffix(raw, '\n'), '\n');
    JoinSplit(TrimSuffix(raw, '\n'), '\n');
  }

  /** Text cut at a newline is the lines before it. */
  lemma {:induction false} JoinCut(lines: seq<string>, k: nat)
    requires lines != [] && AllFree(lines, '\n') && k < |Join(lines, '\n')| && Join(lines, '\n')[k] == '\n'
    ensures var m := |Split(Join(lines, '\n')[..k], '\n')|;
            0 < m < |lines| && Join(lines, '\n')[..k] == Join(lines[..m], '\n')
  {
    var text := Join(lines, '\n');
    var a, b := text[..k], text[k + 1..];
    assert text == a + ['\n'] + b;
    SplitConcat(a, b, '\n');
    SplitJoin(lines, '\n');
    JoinSplit(a, '\n');
    assert lines[..|Split(a, '\n')|] == Split(a, '\n');
  }

  /** How long the first line of a joined text is, when there are more. */
  lemma JoinFirst(lines: seq<string>)
    requires lines != []
    ensures |lines| == 1 ==> Join(lines, '\n') == lines[0]
    ensures |lines| > 1 ==> |Join(lines, '\n')| > |lines[0]| && Join(lines, '\n')[|lines[0]|] == '\n'
    ensures Join(lines, '\n')[..|lines[0]|] == lines[0]
    ensures |lines| == 1 || (|lines| == 2 ==> |Join(lines, '\n')| == |lines[0]| + 1 + |lines[1]|)
    ensures |lines| > 2 ==> |Join(lines, '\n')| > |lines[0]| + 1 + |lines[1]|
                            && Join(lines, '\n')[|lines[0]| + 1 + |lines[1]|] == '\n'
    ensures |lines| > 1 ==> Join(lines, '\n')[|lines[0]| + 1..][..|lines[1]|] == lines[1]
  {
    if |lines| > 1 {
      JoinFirst(lines[1..]);
      var text, rest := Join(lines, '\n'), Join(lines[1..], '\n');
      assert text == lines[0] + ['\n'] + rest;
      assert text[|lines[0]| + 1..] == rest;
    }
  }

  /** What the page was asked to hold, before any cap. */
  function Wanted(lines: seq<string>, offset: nat, limit: int): (w: seq<string>)
    requires offset < |lines|
    ensures w != []
  {
    lines[offset..if offset + LineLimit(limit) < |lines| then offset + LineLimit(limit) else |lines|]
  }

  /** Every page has at least one line, stays in the file, and its header counts the lines of its body. */
  lemma PageRange(lines: seq<string>, offset: nat, limit: int)
    requires offset < |lines| && AllFree(lines, '\n')
    ensures var p := PageAt(lines, offset, limit);
            && p.from == offset < p.end <= |lines| && p.end - p.from <= LineLimit(limit)
            && p.end - p.from == |Split(p.body, '\n')|
  {
    var w, p := Wanted(lines, offset, limit), PageAt(lines, offset, limit);
    var text := Join(w, '\n');
    SplitJoin(w, '\n');
    if p.capped {
      var k := |p.body|;
      assert text == p.body + text[k..];
      SplitPrefix(p.body, text[k..], '\n');
    }
  }

  lemma {:induction false} SplitPrefix(a: string, b: string, sep: char)
    ensures |Split(a, sep)| <= |Split(a + b, sep)|
  {
    if a != "" {
      assert (a + b)[1..] == a[1..] + b;
      SplitPrefix(a[1..], b, sep);
    }
  }

  /** Where the cap can tear a line: the page would start with a line, or with an empty line and then a
      line, that does not fit. */
  predicate Fits(w: seq<string>)
    requires w != []
  {
    if w[0] != "" then |w[0]| <= MAX_FILE_BYTES else |w| > 1 ==> |w[1]| <= MAX_FILE_BYTES - 1
  }

  lemma SliceOfSlice(lines: seq<string>, from: nat, mid: nat, end: nat)
    requires from <= mid <= end <= |lines|
    ensures lines[from..mid] == lines[from..end][..mid - from]
  {
  }

  /** A page is whole lines of the file exactly when its first lines fit. */
  lemma WholeLinesIff(lines: seq<string>, offset: nat, limit: int)
    requires offset < |lines| && AllFree(lines, '\n')
    ensures var p := PageAt(lines, offset, limit);
            offset < p.end <= |lines| && (p.body == Join(lines[offset..p.end], '\n') <==> Fits(Wanted(lines, offset, limit)))
  {
    PageRange(lines, offset, limit);
    var w, p := Wanted(lines, offset, limit), PageAt(lines, offset, limit);
    var text := Join(w, '\n');
    if |text| <= MAX_FILE_BYTES {
      ShortFits(w);
    } else {
      var nl := LastIndex(text[..MAX_FILE_BYTES], '\n');
      var end := offset + |w|;
      assert p.end <= end && w == lines[offset..end];
      SliceOfSlice(lines, offset, p.end, end);
      if nl > 0 {
        JoinCut(w, nl);
        NewlineFits(w, nl);
      } else {
        TornIff(w, nl);
      }
    }
  }

  lemma ShortFits(w: seq<string>)
    requires w != [] && |Join(w, '\n')| <= MAX_FILE_BYTES
    ensures Fits(w)
  {
    JoinFirst(w);
  }

  lemma NewlineFits(w: seq<string>, nl: int)
    requires w != [] && AllFree(w, '\n') && 0 < nl < MAX_FILE_BYTES < |Join(w, '\n')| && Join(w, '\n')[nl] == '\n'
    ensures Fits(w)
  {
    JoinFirst(w);
    var text := Join(w, '\n');
    assert Free(w[0], '\n') && forall i :: 0 <= i < |w[0]| ==> text[i] == text[..|w[0]|][i];
    if w[0] == "" && |w| > 1 {
      assert Free(w[1], '\n') && forall i :: 0 <= i < |w[1]| ==> text[i + 1] == text[1..][..|w[1]|][i];
    }
  }

  /** Without a newline past the start of the first bytes, the cut falls inside a line or right after it. */
  lemma TornIff(w: seq<string>, nl: int)
    requires w != [] && AllFree(w, '\n') && MAX_FILE_BYTES < |Join(w, '\n')|
    requires nl == LastIndex(Join(w, '\n')[..MAX_FILE_BYTES], '\n') && nl <= 0
    ensures var body := Join(w, '\n')[..MAX_FILE_BYTES]; var m := |Split(body, '\n')|;
            m <= |w| && (body == Join(w[..m], '\n') <==> Fits(w))
  {
    var text := Join(w, '\n');
    var body := text[..MAX_FILE_BYTES];
    JoinFirst(w);
    if nl == 0 {
      var rest := body[1..];
      assert body == "" + ['\n'] + rest;
      assert Free(rest, '\n') by {
        forall i | 0 <= i < |rest| ensures rest[i] != '\n' { assert rest[i] == body[i + 1]; }
      }
      SplitAt("", rest, '\n');
      SplitAt(rest, "", '\n');
      FirstIsEmpty(w);
      TornSecond(w, rest);
    } else {
      SplitAt(body, "", '\n');
      assert w[..1] == [w[0]];
      assert forall j :: 0 <= j < MAX_FILE_BYTES ==> text[j] == body[j];
      assert |w[0]| >= MAX_FILE_BYTES;
      assert body == w[0][..MAX_FILE_BYTES];
    }
  }

  lemma JoinHead(w: seq<string>)
    requires w != [] && w[0] != ""
    ensures Join(w, '\n') != "" && Join(w, '\n')[0] == w[0][0]
  {
    JoinFirst(w);
    assert Join(w, '\n')[..|w[0]|][0] == w[0][0];
  }

  lemma FirstIsEmpty(w: seq<string>)
    requires w != [] && AllFree(w, '\n') && Join(w, '\n') != "" && Join(w, '\n')[0] == '\n'
    ensures w[0] == "" && |w| > 1
  {
    if w[0] != "" {
      JoinHead(w);
    }
  }

  lemma TornSecond(w: seq<string>, rest: string)
    requires |w| > 1 && w[0] == "" && AllFree(w, '\n') && MAX_FILE_BYTES < |Join(w, '\n')|
    requires Join(w, '\n')[..MAX_FILE_BYTES] == ['\n'] + rest && Free(rest, '\n')
    ensures Join(w, '\n')[..MAX_FILE_BYTES] == Join(w[..2], '\n') <==> |w[1]| <= MAX_FILE_BYTES - 1
  {
    JoinFirst(w);
    var text := Join(w, '\n');
    assert w[..2] == [w[0], w[1]] && w[..2][1..] == [w[1]];
    assert Join(w[..2], '\n') == w[0] + ['\n'] + w[1];
    assert text[1..][..MAX_FILE_BYTES - 1] == text[..MAX_FILE_BYTES][1..] == rest;
    assert forall j :: 0 <= j < |rest| ==> text[j + 1] == rest[j];
    assert |w[1]| >= MAX_FILE_BYTES - 1;
    assert text[1..][..|w[1]|] == w[1];
    assert text[1..][..MAX_FILE_BYTES - 1] == text[1..][..|w[1]|][..MAX_FILE_BYTES - 1];
  }

  lemma {:induction false} JoinParts(lines: seq<string>, k: nat)
    requires 0 < k < |lines|
    ensures Join(lines, '\n') == Join(lines[..k], '\n') + ['\n'] + Join(lines[k..], '\n')
  {
    if k > 1 {
      JoinParts(lines[1..], k - 1);
      assert lines[1..][..k - 1] == lines[1..k] == lines[..k][1..] && lines[1..][k - 1..] == lines[k..];
    } else {
      assert lines[..1] == [lines[0]];
    }
  }

  /** How many lines a page is asked to hold: at most 2000, and that many when no sensible number is given. */
  function Asked(lines: seq<string>, offset: nat, limit: int): (n: nat)
    requires offset < |lines|
    ensures 1 <= n <= |lines| - offset
  {
    var most := if limit <= 0 || limit > 2000 then 2000 else limit;
    if most < |lines| - offset then most else |lines| - offset
  }

  /** A page is all that was asked for when that is within the byte cap. Otherwise it is a beginning of it within
      the cap, and when it is whole lines, one line more would have reached the cap. */
  lemma PageFills(lines: seq<string>, offset: nat, limit: int)
    requires offset < |lines| && AllFree(lines, '\n')
    ensures var p := PageAt(lines, offset, limit);
            var all := Join(lines[offset..offset + Asked(lines, offset, limit)], '\n');
            && p.from == offset && p.total == |lines| && (p.capped <==> |all| > 250 * 1024)
            && (!p.capped ==> p.body == all && p.end == offset + Asked(lines, offset, limit))
            && (p.capped ==>
                  && |p.body| <= 250 * 1024 && p.body <= all
                  && (Fits(Wanted(lines, offset, limit)) ==>
                        p.end < offset + Asked(lines, offset, limit) && |Join(lines[offset..p.end + 1], '\n')| >= 250 * 1024))
  {
    var w, p := Wanted(lines, offset, limit), PageAt(lines, offset, limit);
    var text := Join(w, '\n');
    assert w == lines[offset..offset + Asked(lines, offset, limit)];
    if |text| > MAX_FILE_BYTES {
      var nl := LastIndex(text[..MAX_FILE_BYTES], '\n');
      if nl > 0 {
        JoinCut(w, nl);
        NextLine(w, nl, p.end - offset);
        assert w[..p.end - offset + 1] == lines[offset..p.end + 1];
      } else if Fits(w) {
        TornIff(w, nl);
        FullPage(w, p.end - offset);
        assert w[..p.end - offset + 1] == lines[offset..p.end + 1];
      }
    }
  }

  /** A page of whole lines that fills the cap. */
  lemma FullPage(w: seq<string>, m: nat)
    requires w != [] && 0 < m <= |w| && |Join(w, '\n')| > MAX_FILE_BYTES && |Join(w[..m], '\n')| == MAX_FILE_BYTES
    ensures m < |w| && |Join(w[..m + 1], '\n')| >= MAX_FILE_BYTES
  {
    assert w[..|w|] == w;
    JoinParts(w[..m + 1], m);
    assert w[..m + 1][..m] == w[..m];
  }

  lemma NextLine(w: seq<string>, nl: nat, m: nat)
    requires w != [] && 0 < m < |w| && AllFree(w, '\n') && |Join(w, '\n')| > MAX_FILE_BYTES
    requires nl == LastIndex(Join(w, '\n')[..MAX_FILE_BYTES], '\n') && Join(w, '\n')[..nl] == Join(w[..m], '\n')
    ensures |Join(w[..m + 1], '\n')| >= MAX_FILE_BYTES
  {
    var text, more := Join(w, '\n'), Join(w[..m + 1], '\n');
    JoinParts(w[..m + 1], m);
    assert w[..m + 1][..m] == w[..m];
    if m + 1 < |w| {
      JoinParts(w, m + 1);
      assert text[|more|] == '\n' && |more| > nl;
      assert forall j :: nl < j < MAX_FILE_BYTES ==> text[..MAX_FILE_BYTES][j] == text[j];
    } else {
      assert w[..m + 1] == w;
    }
  }

  // ---------------------------------------------------------------------------
  // Following the suggested offsets
  // ---------------------------------------------------------------------------

  /** The pages seen by asking again at each suggested offset, with the limit of one's choice each time. */
  function Follow(lines: seq<string>, offset: nat, limits: nat -> int): seq<Page>
    requires offset < |lines| && AllFree(lines, '\n')
    decreases |lines| - offset
  {
    PageRange(lines, offset, limits(offset));
    var p := PageAt(lines, offset, limits(offset));
    [p] + match p.Next() case Some(n) => Follow(lines, n, limits) case None => []
  }

  function LinesShown(pages: seq<Page>): seq<string> {
    if pages == [] then [] else Split(pages[0].body, '\n') + LinesShown(pages[1..])
  }

  ghost predicate EveryLineFits(lines: seq<string>) {
    forall i :: 0 <= i < |lines| ==> |lines[i]| < MAX_FILE_BYTES
  }

  lemma PageTotal(lines: seq<string>, offset: nat, limit: int)
    requires offset < |lines|
    ensures PageAt(lines, offset, limit).total == |lines|
  {
  }

  /** Whatever limits are asked for, the reading ends, its pages join up without a gap or an overlap, and
      their ranges cover the file from the first offset to its end. */
  lemma {:induction false} FollowCovers(lines: seq<string>, offset: nat, limits: nat -> int)
    requires offset < |lines| && AllFree(lines, '\n')
    ensures var ps := Follow(lines, offset, limits);
            && ps != [] && ps[0].from == offset && ps[|ps| - 1].end == |lines|
            && forall i :: 0 <= i < |ps| - 1 ==> ps[i].end == ps[i + 1].from
    decreases |lines| - offset
  {
    PageRange(lines, offset, limits(offset));
    var p := PageAt(lines, offset, limits(offset));
    if p.end < |lines| {
      FollowCovers(lines, p.end, limits);
    }
  }

  /** When every line is shorter than the cap, the pages show every line once, in order. */
  lemma {:induction false} FollowShowsEveryLine(lines: seq<string>, offset: nat, limits: nat -> int)
    requires offset < |lines| && AllFree(lines, '\n') && EveryLineFits(lines)
    ensures LinesShown(Follow(lines, offset, limits)) == lines[offset..]
    decreases |lines| - offset
  {
    hide PageAt, Split, Join;
    PageRange(lines, offset, limits(offset));
    WholeLinesIff(lines, offset, limits(offset));
    var p := PageAt(lines, offset, limits(offset));
    PageTotal(lines, offset, limits(offset));
    SplitJoin(lines[offset..p.end], '\n');
    var ps := Follow(lines, offset, limits);
    if p.end < |lines| {
      FollowShowsEveryLine(lines, p.end, limits);
      assert ps[1..] == Follow(lines, p.end, limits);
      assert lines[offset..] == lines[offset..p.end] + lines[p.end..];
    } else {
      assert ps[1..] == [];
    }
  }

  /** A line longer than the cap is torn: its page ends in the middle of it, and the offset suggested is that
      of the line after it. */
  lemma TornLine(lines: seq<string>, offset: nat, limit: int)
    requires offset < |lines| && AllFree(lines, '\n') && |lines[offset]| > MAX_FILE_BYTES
    ensures var p := PageAt(lines, offset, limit); p.body == lines[offset][..MAX_FILE_BYTES] && p.end == offset + 1
    ensures Split(lines[offset][..MAX_FILE_BYTES], '\n') == [lines[offset][..MAX_FILE_BYTES]]
  {
    var w := Wanted(lines, offset, limit);
    var text, line := Join(w, '\n'), lines[offset];
    var body := line[..MAX_FILE_BYTES];
    assert w[0] == line && Free(line, '\n');
    JoinFirst(w);
    assert text[..MAX_FILE_BYTES] == text[..|line|][..MAX_FILE_BYTES] == body;
    assert Free(body, '\n');
    assert LastIndex(body, '\n') == -1;
    SplitAt(body, "", '\n');
  }

  /** A file with one line over the cap and one after it: following the offsets shows the first bytes of the
      one, then the other, and never the rest of the one. */
  lemma LosesTheRest(limits: nat -> int)
    ensures var long := seq(MAX_FILE_BYTES + 1, _ => 'a');
            AllFree([long, "end"], '\n') && LinesShown(Follow([long, "end"], 0, limits)) == [long[..MAX_FILE_BYTES], "end"]
  {
    var long: string := seq(MAX_FILE_BYTES + 1, _ => 'a');
    var lines := [long, "end"];
    TornLine(lines, 0, limits(0));
    hide Split, Join;
    ShortPage(lines, limits(1));
    var ps := Follow(lines, 0, limits);
    PageTotal(lines, 0, limits(0));
    PageTotal(lines, 1, limits(1));
    hide PageAt;
    assert ps == [PageAt(lines, 0, limits(0))] + Follow(lines, 1, limits);
    assert Follow(lines, 1, limits) == [PageAt(lines, 1, limits(1))];
    var rest := Follow(lines, 1, limits);
    assert ps[1..] == rest && rest[1..] == [];
    assert LinesShown(rest) == ["end"];
  }

  lemma ShortPage(lines: seq<string>, limit: int)
    requires |lines| == 2 && lines[1] == "end" && AllFree(lines, '\n')
    ensures var p := PageAt(lines, 1, limit); p.body == "end" && p.end == 2 && Split("end", '\n') == ["end"]
  {
    assert Wanted(lines, 1, limit) == ["end"];
    assert Free("end", '\n');
    SplitAt("end", "", '\n');
  }

  /** From the file itself: reading from offset 0 shows exactly the file's lines. */
  lemma FollowReadsFile(raw: string, limits: nat -> int)
    requires EveryLineFits(LinesOf(raw))
    ensures AllFree(LinesOf(raw), '\n') && LinesShown(Follow(LinesOf(raw), 0, limits)) == LinesOf(raw)
  {
    SplitFree(TrimSuffix(raw, '\n'), '\n');
    FollowShowsEveryLine(LinesOf(raw), 0, limits);
  }

  // ---------------------------------------------------------------------------
  // The header's range against the numbered lines
  // ---------------------------------------------------------------------------

  predicate EndsInNewline(s: string) {
    s != "" && s[|s| - 1] == '\n'
  }

  /** One number a line of the body, but for an empty last line. */
  lemma NumberedLines(body: string, from: nat)
    ensures |Split(NumberedBody(body, from), '\n')| == |Split(body, '\n')| - if EndsInNewline(body) then 1 else 0
  {
    NumberedAligns(body, from + 1, 0);
    if EndsInNewline(body) {
      assert body == body[..|body| - 1] + ['\n'] + "";
      SplitConcat(body[..|body| - 1], "", '\n');
    }
  }

  /** Line `i` of a page is shown with its own number in the file, counted from one, in a column as wide as
      the page's largest number. */
  lemma ShowsNumbers(body: string, from: nat, i: nat)
    requires i < |Split(TrimSuffix(body, '\n'), '\n')|
    ensures var lines, shown := Split(TrimSuffix(body, '\n'), '\n'), Split(NumberedBody(body, from), '\n');
            var number, width := Digits(from + i + 1), |Digits(from + |lines|)|;
            && |shown| == |lines| && |number| <= width && shown[i] == Spaces(width - |number|) + number + "  " + lines[i]
  {
    hide Split, Join, Digits, TrimSuffix, Numbered, Spaces;
    NumberedAligns(body, from + 1, i);
    assert from + 1 + i == from + i + 1;
  }

  lemma {:induction false} JoinEnds(parts: seq<string>)
    requires parts != [] && AllFree(parts, '\n')
    ensures EndsInNewline(Join(parts, '\n')) <==> |parts| > 1 && parts[|parts| - 1] == ""
    ensures Join(parts, '\n') == "" <==> parts == [""]
  {
    if |parts| == 1 {
      assert Free(parts[0], '\n');
    } else {
      var rest := Join(parts[1..], '\n');
      JoinEnds(parts[1..]);
      assert Join(parts, '\n') == parts[0] + ['\n'] + rest;
      assert parts[1..][|parts| - 2] == parts[|parts| - 1];
      assert parts[1..] == [""] ==> |parts| == 2;
    }
  }

  /** A page that begins with an empty line and then part of one that does not fit. */
  lemma TornAfterEmpty(lines: seq<string>, offset: nat, limit: int)
    requires offset < |lines| && AllFree(lines, '\n')
    requires var w := Wanted(lines, offset, limit); w[0] == "" && |w| > 1 && |w[1]| > MAX_FILE_BYTES - 1
    ensures var p := PageAt(lines, offset, limit);
            !EndsInNewline(p.body) && p.end == offset + 2 && offset + 1 < |lines| && lines[offset + 1] != ""
  {
    var w := Wanted(lines, offset, limit);
    var text, line := Join(w, '\n'), w[1];
    assert w[1] == lines[offset + 1] && Free(line, '\n');
    JoinFirst(w);
    var rest := line[..MAX_FILE_BYTES - 1];
    assert text[1..][..|line|] == line;
    assert text[..MAX_FILE_BYTES] == "" + ['\n'] + rest by {
      assert text[0] == '\n';
      assert forall j :: 0 <= j < |rest| ==> text[j + 1] == text[1..][..|line|][j];
    }
    assert Free(rest, '\n') && text[..MAX_FILE_BYTES][1..] == rest;
    assert LastIndex(text[..MAX_FILE_BYTES], '\n') == 0 by {
      assert forall j :: 0 < j < MAX_FILE_BYTES ==> text[..MAX_FILE_BYTES][j] == rest[j - 1];
    }
    SplitAt("", rest, '\n');
    SplitAt(rest, "", '\n');
  }

  /** The body of a page ends in a newline exactly when its last line is empty and not its only one. */
  lemma BodyEnds(lines: seq<string>, offset: nat, limit: int)
    requires offset < |lines| && AllFree(lines, '\n')
    ensures var p := PageAt(lines, offset, limit);
            offset < p.end <= |lines| && (EndsInNewline(p.body) <==> p.end - offset > 1 && lines[p.end - 1] == "")
  {
    var p, w := PageAt(lines, offset, limit), Wanted(lines, offset, limit);
    WholeLinesIff(lines, offset, limit);
    hide PageAt, Join, Split;
    if Fits(w) {
      JoinEnds(lines[offset..p.end]);
      assert lines[offset..p.end][p.end - offset - 1] == lines[p.end - 1];
    } else if w[0] != "" {
      TornLine(lines, offset, limit);
      assert Free(lines[offset], '\n');
    } else {
      TornAfterEmpty(lines, offset, limit);
    }
  }

  /** The header's range counts the lines of the page; the numbered text has as many, or one fewer, which it
      has exactly when the last line of the page is empty and not its only one. */
  lemma NumberedCountIff(lines: seq<string>, offset: nat, limit: int)
    requires offset < |lines| && AllFree(lines, '\n')
    ensures var p := PageAt(lines, offset, limit);
            var header, numbered := p.end - p.from, |Split(NumberedBody(p.body, p.from), '\n')|;
            && p.from < p.end <= |lines| && header - 1 <= numbered <= header
            && (numbered == header - 1 <==> header > 1 && lines[p.end - 1] == "")
  {
    hide Split, NumberedBody;
    PageRange(lines, offset, limit);
    BodyEnds(lines, offset, limit);
    NumberedLines(PageAt(lines, offset, limit).body, offset);
  }

  /** A file of two lines whose page says lines 1 to 2 of 2 and numbers one. */
  lemma NumbersOneOfTwo()
    ensures LinesOf("a\n\n") == ["a", ""] && AllFree(["a", ""], '\n')
    ensures PageAt(["a", ""], 0, 0) == Page(0, 2, 2, "a\n", false)
    ensures NumberedBody("a\n", 0) == "1  a"
  {
    assert Free("a", '\n') && Free("", '\n');
    assert TrimSuffix("a\n\n", '\n') == "a" + ['\n'] + "";
    SplitAt("a", "", '\n');
    assert ["a", ""][1..] == [""] && "a" + ['\n'] + "" == "a\n";
    assert ["a", ""][0..2] == ["a", ""];
    assert TrimSuffix("a\n", '\n') == "a";
    assert Digits(1) == "1";
    assert Numbered(["a"], 1, 1) == [NumberedLine(1, 1, "a")];
  }
}
