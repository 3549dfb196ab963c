/** What `edit_file` refuses and what it changes. */
module EditFile {
  import opened Prelude
  import opened Text

  const READ_CEILING: nat := 4 * 1024 * 1024

  datatype Hint = NoHint | HasTab | WhiteSpaceWrong

  datatype Outcome =
    | NothingToFind
    | NothingToDo
    | TooLarge
    | NotFound(hint: Hint)
    | Ambiguous(count: nat)
    | Edited(text: string, count: nat)

  /** The tool's decision on a file's text; `size` is what the sandbox says of the file. */
  function Edit(text: string, size: nat, find: string, with: string, all: bool): Outcome {
    if find == "" then NothingToFind
    else if find == with then NothingToDo
    else if size > READ_CEILING then TooLarge
    else
      var count := Count(text, find);
      if count == 0 then
        NotFound(if '\t' in find then HasTab
                 else if Trim(find) != find && Contains(text, Trim(find)) then WhiteSpaceWrong
                 else NoHint)
      else if count > 1 && !all then Ambiguous(count)
      else Edited(Replace(text, find, with, if all then -1 else 1), count)
  }

  predicate Contains(s: string, sub: string) {
    sub == "" || Count(s, sub) > 0
  }

  // ---------------------------------------------------------------------------
  // Occurrences
  // ---------------------------------------------------------------------------

  predicate OccursAt(s: string, sub: string, i: int) {
    0 <= i <= |s| - |sub| && s[i..i + |sub|] == sub
  }

  /** Places where `sub` occurs, from left to right, no two of them overlapping. */
  ghost predicate Packing(s: string, sub: string, ps: seq<int>) {
    && (forall k :: 0 <= k < |ps| ==> OccursAt(s, sub, ps[k]))
    && (forall j, k :: 0 <= j < k < |ps| ==> ps[j] + |sub| <= ps[k])
  }

  function Shift(ps: seq<int>, d: int): seq<int> {
    seq(|ps|, i requires 0 <= i < |ps| => ps[i] + d)
  }

  lemma OccursShift(s: string, sub: string, d: nat, i: int)
    requires d <= |s| && d <= i
    ensures OccursAt(s, sub, i) <==> OccursAt(s[d..], sub, i - d)
  {
    if i + |sub| <= |s| {
      assert s[i..i + |sub|] == s[d..][i - d..i - d + |sub|];
    }
  }

  lemma ShiftPacking(s: string, sub: string, ps: seq<int>, d: int)
    requires 0 <= d <= |s| && Packing(s, sub, ps) && forall k :: 0 <= k < |ps| ==> d <= ps[k]
    ensures Packing(s[d..], sub, Shift(ps, -d))
  {
    forall k | 0 <= k < |ps| ensures OccursAt(s[d..], sub, ps[k] - d) {
      OccursShift(s, sub, d, ps[k]);
    }
  }

  lemma OccursAtStart(s: string, sub: string)
    ensures OccursAt(s, sub, 0) <==> sub <= s
  {
    if |sub| <= |s| {
      assert s[0..0 + |sub|] == s[..|sub|];
    }
  }

  /** No packing is larger than the count. */
  lemma {:induction false} CountIsBound(s: string, sub: string, ps: seq<int>)
    requires sub != "" && Packing(s, sub, ps)
    ensures |ps| <= Count(s, sub)
    decreases |s|
  {
    if ps != [] {
      assert OccursAt(s, sub, ps[0]);
      OccursAtStart(s, sub);
      if sub <= s {
        assert Packing(s, sub, ps[1..]);
        ShiftPacking(s, sub, ps[1..], |sub|);
        CountIsBound(s[|sub|..], sub, Shift(ps[1..], -|sub|));
      } else {
        forall k | 0 <= k < |ps| ensures 1 <= ps[k] {
          assert OccursAt(s, sub, ps[k]);
        }
        ShiftPacking(s, sub, ps, 1);
        CountIsBound(s[1..], sub, Shift(ps, -1));
      }
    }
  }

  lemma UnshiftPacking(s: string, sub: string, ps: seq<int>, d: int)
    requires 0 <= d <= |s| && Packing(s[d..], sub, ps)
    ensures Packing(s, sub, Shift(ps, d)) && forall k :: 0 <= k < |ps| ==> Shift(ps, d)[k] >= d
  {
    forall k | 0 <= k < |ps| ensures OccursAt(s, sub, ps[k] + d) {
      assert OccursAt(s[d..], sub, ps[k]);
      OccursShift(s, sub, d, ps[k] + d);
    }
  }

  /** Some packing is as large as the count. */
  lemma {:induction false} CountIsReached(s: string, sub: string) returns (ps: seq<int>)
    requires sub != ""
    ensures Packing(s, sub, ps) && |ps| == Count(s, sub)
    decreases |s|
  {
    if |s| < |sub| {
      ps := [];
    } else if sub <= s {
      var rest := CountIsReached(s[|sub|..], sub);
      UnshiftPacking(s, sub, rest, |sub|);
      OccursAtStart(s, sub);
      ps := [0] + Shift(rest, |sub|);
    } else {
      var rest := CountIsReached(s[1..], sub);
      UnshiftPacking(s, sub, rest, 1);
      ps := Shift(rest, 1);
    }
  }

  /** The count is the size of the largest packing. */
  lemma CountIsMaximum(s: string, sub: string)
    requires sub != ""
    ensures exists ps :: Packing(s, sub, ps) && |ps| == Count(s, sub)
    ensures forall ps :: Packing(s, sub, ps) ==> |ps| <= Count(s, sub)
  {
    var ps := CountIsReached(s, sub);
    forall qs | Packing(s, sub, qs) ensures |qs| <= Count(s, sub) {
      CountIsBound(s, sub, qs);
    }
  }

  lemma CountPositiveIff(s: string, sub: string)
    requires sub != ""
    ensures Count(s, sub) > 0 <==> exists i :: OccursAt(s, sub, i)
  {
    var ps := CountIsReached(s, sub);
    if i :| OccursAt(s, sub, i) {
      assert Packing(s, sub, [i]);
      CountIsBound(s, sub, [i]);
    }
    if Count(s, sub) > 0 {
      assert OccursAt(s, sub, ps[0]);
    }
  }

  lemma CountTwoIff(s: string, sub: string)
    requires sub != ""
    ensures Count(s, sub) > 1 <==> exists i, j :: OccursAt(s, sub, i) && OccursAt(s, sub, j) && i + |sub| <= j
  {
    var ps := CountIsReached(s, sub);
    if i, j :| OccursAt(s, sub, i) && OccursAt(s, sub, j) && i + |sub| <= j {
      assert Packing(s, sub, [i, j]);
      CountIsBound(s, sub, [i, j]);
    }
    if Count(s, sub) > 1 {
      assert OccursAt(s, sub, ps[0]) && OccursAt(s, sub, ps[1]) && ps[0] + |sub| <= ps[1];
    }
  }

  /** Refusals, exactly: nothing to find, or two places that do not overlap. Overlapping places are not
      ambiguous to this tool. */
  lemma RefusedIff(text: string, size: nat, find: string, with: string, all: bool)
    requires find != "" && find != with && size <= READ_CEILING
    ensures var r := Edit(text, size, find, with, all);
            && (r.NotFound? <==> forall i :: !OccursAt(text, find, i))
            && (r.Ambiguous? <==> !all && exists i, j :: OccursAt(text, find, i) && OccursAt(text, find, j) && i + |find| <= j)
  {
    CountPositiveIff(text, find);
    CountTwoIff(text, find);
  }

  /** What is not refused is edited: exactly a text to find that occurs and is to be changed, in a file that is not
      too large, where all places are asked for or no two of them stand apart. */
  lemma EditedIff(text: string, size: nat, find: string, with: string, all: bool)
    ensures var r := Edit(text, size, find, with, all);
            && (r.NothingToFind? <==> find == "")
            && (r.NothingToDo? <==> find != "" && find == with)
            && (r.TooLarge? <==> find != "" && find != with && size > READ_CEILING)
            && (r.Edited? <==>
                  && find != "" && find != with && size <= READ_CEILING
                  && (exists i :: OccursAt(text, find, i))
                  && (all || !exists i, j :: OccursAt(text, find, i) && OccursAt(text, find, j) && i + |find| <= j))
  {
    if find != "" {
      CountPositiveIff(text, find);
      CountTwoIff(text, find);
    }
  }

  /** What is said of a text that does not occur: that it has a tab, or else that it would occur without the
      white space at its ends, or nothing. */
  lemma HintIff(text: string, size: nat, find: string, with: string, all: bool)
    requires Edit(text, size, find, with, all).NotFound?
    ensures var hint, core := Edit(text, size, find, with, all).hint, Trim(find);
            && (hint.HasTab? <==> '\t' in find)
            && (hint.WhiteSpaceWrong? <==> '\t' !in find && core != find && (core == "" || exists i :: OccursAt(text, core, i)))
  {
    if Trim(find) != "" {
      CountPositiveIff(text, Trim(find));
    }
  }

  /** Both counts shown are the size of the largest set of places that stand apart. */
  lemma ShownCount(text: string, size: nat, find: string, with: string, all: bool)
    ensures var r := Edit(text, size, find, with, all);
            r.Edited? || r.Ambiguous? ==>
              && (exists ps :: Packing(text, find, ps) && |ps| == r.count)
              && forall ps :: Packing(text, find, ps) ==> |ps| <= r.count
  {
    if find != "" {
      CountIsMaximum(text, find);
    }
  }

  /** The overlap case: two occurrences, and the edit goes ahead on the first. */
  lemma OverlapIsAccepted()
    ensures OccursAt("aaa", "aa", 0) && OccursAt("aaa", "aa", 1)
    ensures Edit("aaa", 3, "aa", "b", false) == Edited("ba", 1)
  {
    assert "aaa"[0..2] == "aa" && "aaa"[1..3] == "aa";
    assert "aaa"[2..] == "a";
    assert Count("a", "aa") == 0;
    assert "aa" <= "aaa";
    assert Count("aaa", "aa") == 1;
    assert Replace("aaa", "aa", "b", 1) == "b" + Replace("a", "aa", "b", 0);
  }

  // ---------------------------------------------------------------------------
  // Replacing
  // ---------------------------------------------------------------------------

  /** `i` is the leftmost place where `sub` occurs. */
  ghost predicate Leftmost(s: string, sub: string, i: int) {
    OccursAt(s, sub, i) && forall j :: 0 <= j < i ==> !OccursAt(s, sub, j)
  }

  lemma LeftmostShift(s: string, sub: string, k: int)
    requires sub != "" && |s| >= |sub| && !(sub <= s) && Leftmost(s[1..], sub, k)
    ensures Leftmost(s, sub, k + 1)
  {
    OccursAtStart(s, sub);
    OccursShift(s, sub, 1, k + 1);
    forall j | 0 < j < k + 1 ensures !OccursAt(s, sub, j) {
      OccursShift(s, sub, 1, j);
    }
  }

  /** Replacing once changes the leftmost occurrence and nothing else. */
  lemma {:induction false} ReplaceFirst(s: string, sub: string, with: string) returns (i: int)
    requires sub != "" && Count(s, sub) > 0
    ensures Leftmost(s, sub, i) && Replace(s, sub, with, 1) == s[..i] + with + s[i + |sub|..]
    decreases |s|
  {
    if sub <= s {
      OccursAtStart(s, sub);
      i := 0;
      assert Replace(s[|sub|..], sub, with, 0) == s[|sub|..];
      assert s[..0] + with == with;
    } else {
      var k := ReplaceFirst(s[1..], sub, with);
      i := k + 1;
      LeftmostShift(s, sub, k);
      Behead(s, sub, with, k);
    }
  }

  lemma Behead(s: string, sub: string, with: string, k: int)
    requires s != "" && 0 <= k && k + 1 + |sub| <= |s|
    ensures [s[0]] + (s[1..][..k] + with + s[1..][k + |sub|..]) == s[..k + 1] + with + s[k + 1 + |sub|..]
  {
  }

  lemma {:induction false} ReplaceNone(s: string, sub: string, with: string, n: int)
    requires sub != "" && Count(s, sub) == 0
    ensures Replace(s, sub, with, n) == s
    decreases |s|
  {
    if |s| >= |sub| {
      ReplaceNone(s[1..], sub, with, n);
    }
  }

  /** With one place to change, all is one. */
  lemma {:induction false} ReplaceAllIsOne(s: string, sub: string, with: string)
    requires sub != "" && Count(s, sub) == 1
    ensures Replace(s, sub, with, -1) == Replace(s, sub, with, 1)
    decreases |s|
  {
    if sub <= s {
      ReplaceNone(s[|sub|..], sub, with, -2);
      assert Replace(s[|sub|..], sub, with, 0) == s[|sub|..];
    } else {
      ReplaceAllIsOne(s[1..], sub, with);
    }
  }

  /** The text between the counted occurrences. */
  function Pieces(s: string, sub: string): (ps: seq<string>)
    requires sub != ""
    ensures |ps| == Count(s, sub) + 1
    decreases |s|
  {
    if |s| < |sub| then [s]
    else if sub <= s then [""] + Pieces(s[|sub|..], sub)
    else var rest := Pieces(s[1..], sub); [[s[0]] + rest[0]] + rest[1..]
  }

  function Glue(ps: seq<string>, sep: string): string
    requires ps != []
  {
    if |ps| == 1 then ps[0] else ps[0] + sep + Glue(ps[1..], sep)
  }

  lemma GlueHead(c: char, ps: seq<string>, sep: string)
    requires ps != []
    ensures Glue([[c] + ps[0]] + ps[1..], sep) == [c] + Glue(ps, sep)
  {
    var qs := [[c] + ps[0]] + ps[1..];
    if |ps| > 1 {
      assert qs[1..] == ps[1..];
    }
  }

  lemma {:induction false} GluePieces(s: string, sub: string, with: string, n: int)
    requires sub != "" && n < 0
    ensures Glue(Pieces(s, sub), sub) == s
    ensures Glue(Pieces(s, sub), with) == Replace(s, sub, with, n)
    decreases |s|
  {
    if |s| >= |sub| {
      hide Glue;
      if sub <= s {
        GluePieces(s[|sub|..], sub, with, n - 1);
        GlueNext(Pieces(s[|sub|..], sub), sub);
        GlueNext(Pieces(s[|sub|..], sub), with);
        assert sub + s[|sub|..] == s;
      } else {
        GluePieces(s[1..], sub, with, n);
        GlueHead(s[0], Pieces(s[1..], sub), sub);
        GlueHead(s[0], Pieces(s[1..], sub), with);
        assert [s[0]] + s[1..] == s;
      }
    } else {
      GlueOne(s, sub);
      GlueOne(s, with);
    }
  }

  lemma GlueOne(s: string, sep: string)
    ensures Glue([s], sep) == s
  {
  }

  lemma GlueNext(ps: seq<string>, sep: string)
    requires ps != []
    ensures Glue([""] + ps, sep) == sep + Glue(ps, sep)
  {
    assert ([""] + ps)[1..] == ps;
    assert "" + sep == sep;
  }

  lemma {:induction false} GlueLength(ps: seq<string>, a: string, b: string)
    requires ps != []
    ensures |Glue(ps, b)| == |Glue(ps, a)| + (|ps| - 1) * (|b| - |a|)
  {
    if |ps| > 1 {
      GlueLength(ps[1..], a, b);
      calc {
        |Glue(ps, b)|;
        |ps[0]| + |b| + |Glue(ps[1..], a)| + (|ps| - 2) * (|b| - |a|);
        |Glue(ps, a)| + (|b| - |a|) + (|ps| - 2) * (|b| - |a|);
        |Glue(ps, a)| + (|ps| - 1) * (|b| - |a|);
      }
    }
  }

  /** An accepted edit without `all` replaces the leftmost occurrence and nothing else. */
  lemma SingleEdit(text: string, size: nat, find: string, with: string)
    requires Edit(text, size, find, with, false).Edited?
    ensures exists i :: Leftmost(text, find, i) && Edit(text, size, find, with, false) == Edited(text[..i] + with + text[i + |find|..], 1)
    ensures Edit(text, size, find, with, true) == Edit(text, size, find, with, false)
  {
    var i := ReplaceFirst(text, find, with);
    ReplaceAllIsOne(text, find, with);
  }

  /** An accepted edit with `all` keeps everything between the counted occurrences, puts the new text
      at each, and changes the length by exactly the count times the difference. */
  lemma EditAll(text: string, size: nat, find: string, with: string)
    requires Edit(text, size, find, with, true).Edited?
    ensures var r := Edit(text, size, find, with, true); var ps := Pieces(text, find);
            && r.count == Count(text, find) == |ps| - 1
            && text == Glue(ps, find) && r.text == Glue(ps, with)
            && |r.text| == |text| + r.count * (|with| - |find|)
  {
    GluePieces(text, find, with, -1);
    GlueLength(Pieces(text, find), find, with);
  }
}
