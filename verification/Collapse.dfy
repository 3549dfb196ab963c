/** Folding a list of paths into a listing no deeper than `depth`. */
module Collapse {
  import opened Prelude
  import opened Text

  datatype Entry = Entry(name: string, dir: bool, count: nat)

  // ---------------------------------------------------------------------------
  // Byte order
  // ---------------------------------------------------------------------------

  predicate Less(a: string, b: string) {
    b != "" && (a == "" || a[0] < b[0] || (a[0] == b[0] && Less(a[1..], b[1..])))
  }

  lemma {:induction false} LessTotal(a: string, b: string)
    ensures Less(a, b) || Less(b, a) || a == b
    ensures !(Less(a, b) && Less(b, a)) && !(Less(a, b) && a == b)
  {
    if a != "" && b != "" && a[0] == b[0] {
      LessTotal(a[1..], b[1..]);
      assert a == [a[0]] + a[1..] && b == [b[0]] + b[1..];
    }
  }

  lemma {:induction false} LessTransitive(a: string, b: string, c: string)
    requires Less(a, b) && Less(b, c)
    ensures Less(a, c)
  {
    if a != "" && a[0] == b[0] && b[0] == c[0] {
      LessTransitive(a[1..], b[1..], c[1..]);
    }
  }

  ghost predicate Sorted(es: seq<Entry>) {
    forall i, j :: 0 <= i < j < |es| ==> Less(es[i].name, es[j].name)
  }

  // ---------------------------------------------------------------------------
  // What a path contributes
  // ---------------------------------------------------------------------------

  function Trimmed(p: string): string {
    TrimSuffix(p, '/')
  }

  function Parts(p: string): (parts: seq<string>)
    ensures parts != []
  {
    Split(Trimmed(p), '/')
  }

  /** The first `i` components of a path. */
  function Prefix(p: string, i: nat): string
    requires 1 <= i <= |Parts(p)|
  {
    Join(Parts(p)[..i], '/')
  }

  function Depth(p: string, depth: nat): nat {
    if |Parts(p)| <= depth then |Parts(p)| else depth
  }

  predicate IsPrefix(p: string, i: nat, name: string) {
    1 <= i <= |Parts(p)| && Prefix(p, i) == name
  }

  /** A path shows an entry for each of its prefixes of at most `depth` components. */
  ghost predicate Shows(p: string, depth: nat, name: string) {
    Trimmed(p) != "" && exists i :: 1 <= i <= Depth(p, depth) && IsPrefix(p, i, name)
  }

  /** A path makes an entry a directory by going on below it, or by ending in a slash there. */
  ghost predicate MakesDir(p: string, depth: nat, name: string) {
    && Trimmed(p) != ""
    && exists i :: 1 <= i <= Depth(p, depth) && IsPrefix(p, i, name)
                   && (i < |Parts(p)| || (p != "" && p[|p| - 1] == '/'))
  }

  predicate IsDeep(p: string, depth: nat) {
    Trimmed(p) != "" && |Parts(p)| > depth
  }

  /** A path deeper than the listing is counted once, at its prefix of `depth` components. */
  predicate Counts(p: string, depth: nat, name: string)
    requires depth >= 1
  {
    IsDeep(p, depth) && Prefix(p, depth) == name
  }

  ghost predicate Named(paths: seq<string>, depth: nat, name: string) {
    exists p :: p in paths && Shows(p, depth, name)
  }

  ghost predicate Directory(paths: seq<string>, depth: nat, name: string) {
    exists p :: p in paths && MakesDir(p, depth, name)
  }

  function Count(paths: seq<string>, depth: nat, name: string): nat
    requires depth >= 1
  {
    if paths == [] then 0
    else Count(paths[..|paths| - 1], depth, name) + if Counts(paths[|paths| - 1], depth, name) then 1 else 0
  }

  /** The listing: an entry per name shown, with its flag and its count, and no other. */
  ghost predicate Lists(es: seq<Entry>, paths: seq<string>, depth: nat)
    requires depth >= 1
  {
    && (forall e :: e in es ==> Named(paths, depth, e.name) && (e.dir <==> Directory(paths, depth, e.name))
                                && e.count == Count(paths, depth, e.name))
    && (forall name :: Named(paths, depth, name) ==> exists e :: e in es && e.name == name)
  }

  // ---------------------------------------------------------------------------
  // The loop
  // ---------------------------------------------------------------------------

  /** The map and the insertion order, and what one visit to a name does to them. */
  datatype Seen = Seen(entries: map<string, Entry>, order: seq<string>)
  {
    function Visit(name: string, isDir: bool, counted: bool): Seen {
      var e := if name in entries then entries[name] else Entry(name, false, 0);
      Seen(entries[name := e.(dir := e.dir || isDir, count := e.count + if counted then 1 else 0)],
           if name in entries then order else order + [name])
    }

    /** The order lists the keys, once each, and entries carry their names. */
    ghost predicate Ok() {
      NoDup(order) && (forall n :: n in order <==> n in entries) && forall n :: n in entries ==> entries[n].name == n
    }
  }

  /** What the map says after `paths`: for each name, its flag and its count. */
  ghost predicate Holds(s: Seen, paths: seq<string>, depth: nat)
    requires depth >= 1
  {
    && s.Ok()
    && (forall n :: n in s.entries <==> Named(paths, depth, n))
    && (forall n :: n in s.entries ==>
          (s.entries[n].dir <==> Directory(paths, depth, n)) && s.entries[n].count == Count(paths, depth, n))
  }

  /** From `s` to `t`: the entries of `names` exist, those of `dirs` are directories, those of `counted`
      have one more; nothing else has changed. */
  ghost predicate Extends(s: Seen, t: Seen, names: set<string>, dirs: set<string>, counted: set<string>) {
    && t.Ok()
    && t.entries.Keys == s.entries.Keys + names
    && forall n :: n in t.entries ==>
         && (t.entries[n].dir <==> (n in s.entries && s.entries[n].dir) || n in dirs)
         && t.entries[n].count == (if n in s.entries then s.entries[n].count else 0) + (if n in counted then 1 else 0)
  }

  lemma VisitExtends(s: Seen, t: Seen, names: set<string>, dirs: set<string>, counted: set<string>,
                     name: string, isDir: bool, count: bool)
    requires Extends(s, t, names, dirs, counted) && dirs <= names && counted <= names && (count ==> name !in counted)
    ensures Extends(s, t.Visit(name, isDir, count), names + {name}, dirs + (if isDir then {name} else {}),
                    counted + (if count then {name} else {}))
  {
    VisitOk(t, name, isDir, count);
    hide Seen.Ok;
  }

  lemma VisitOk(t: Seen, name: string, isDir: bool, count: bool)
    requires t.Ok()
    ensures t.Visit(name, isDir, count).Ok()
  {
    if name !in t.entries {
      NoDupJoin(t.order, [name]);
    }
  }

  lemma ExtendsSelf(s: Seen)
    requires s.Ok()
    ensures Extends(s, s, {}, {}, {})
  {
  }

  function Ancestors(p: string, below: nat): set<string>
    requires 1 <= below <= |Parts(p)| + 1
  {
    set i | 1 <= i < below :: Prefix(p, i)
  }

  /** One path: its own entry or its boundary first, then every ancestor. */
  method AddPath(s: Seen, p: string, depth: nat) returns (t: Seen)
    requires s.Ok() && Trimmed(p) != "" && depth >= 1
    ensures var b := Depth(p, depth); var own := {Prefix(p, b)};
            Extends(s, t, own + Ancestors(p, b),
                    (if IsDeep(p, depth) || p[|p| - 1] == '/' then own else {}) + Ancestors(p, b),
                    if IsDeep(p, depth) then own else {})
  {
    hide Parts, Prefix, Seen.Ok, Extends;
    ExtendsSelf(s);
    var parts := Parts(p);
    var deep := |parts| > depth;
    var b := if deep then depth else |parts|;
    var isDir := deep || p[|p| - 1] == '/';
    VisitExtends(s, s, {}, {}, {}, Prefix(p, b), isDir, deep);
    t := s.Visit(Prefix(p, b), isDir, deep);
    ghost var own, none := {Prefix(p, b)}, {};
    ghost var dirs := if isDir then own else none;
    ghost var counted := if deep then own else none;
    assert own + Ancestors(p, 1) == none + {Prefix(p, b)};
    assert dirs + Ancestors(p, 1) == none + (if isDir then {Prefix(p, b)} else {});
    assert counted == none + (if deep then {Prefix(p, b)} else {});
    assert Extends(s, t, own + Ancestors(p, 1), dirs + Ancestors(p, 1), counted);
    for i := 1 to b
      invariant Extends(s, t, own + Ancestors(p, i), dirs + Ancestors(p, i), counted)
    {
      VisitExtends(s, t, own + Ancestors(p, i), dirs + Ancestors(p, i), counted, Prefix(p, i), true, false);
      t := t.Visit(Prefix(p, i), true, false);
      assert Ancestors(p, i + 1) == Ancestors(p, i) + {Prefix(p, i)};
      assert own + Ancestors(p, i) + {Prefix(p, i)} == own + Ancestors(p, i + 1);
      assert dirs + Ancestors(p, i) + {Prefix(p, i)} == dirs + Ancestors(p, i + 1);
      assert counted + {} == counted;
    }
  }

  /** The sets of `AddPath` are what the path contributes. */
  lemma Contributes(p: string, depth: nat, name: string)
    requires Trimmed(p) != "" && depth >= 1
    ensures var b := Depth(p, depth); var own := {Prefix(p, b)};
            && (name in own + Ancestors(p, b) <==> Shows(p, depth, name))
            && (name in (if IsDeep(p, depth) || p[|p| - 1] == '/' then own else {}) + Ancestors(p, b) <==> MakesDir(p, depth, name))
            && (name in (if IsDeep(p, depth) then own else {}) <==> Counts(p, depth, name))
  {
    hide Parts, Prefix;
    var b, n := Depth(p, depth), |Parts(p)|;
    assert name in Ancestors(p, b) <==> exists i :: 1 <= i < b && IsPrefix(p, i, name) by {
      if name in Ancestors(p, b) {
        var i :| 1 <= i < b && Prefix(p, i) == name;
        assert IsPrefix(p, i, name);
      }
    }
    assert Prefix(p, b) == name <==> IsPrefix(p, b, name);
    if i :| 1 <= i <= b && IsPrefix(p, i, name) {
      assert i < b || i == b;
    }
  }

  lemma NamedPush(paths: seq<string>, p: string, depth: nat, name: string)
    ensures Named(paths + [p], depth, name) <==> Named(paths, depth, name) || Shows(p, depth, name)
    ensures Directory(paths + [p], depth, name) <==> Directory(paths, depth, name) || MakesDir(p, depth, name)
    ensures depth >= 1 ==> Count(paths + [p], depth, name) == Count(paths, depth, name) + if Counts(p, depth, name) then 1 else 0
  {
    hide Shows, MakesDir, Counts;
    assert (paths + [p])[..|paths|] == paths;
    assert forall q :: q in paths + [p] <==> q in paths || q == p;
  }

  lemma {:induction false} CountsNamed(paths: seq<string>, depth: nat, name: string)
    requires depth >= 1
    ensures Count(paths, depth, name) > 0 ==> Named(paths, depth, name)
    ensures Directory(paths, depth, name) ==> Named(paths, depth, name)
  {
    if Count(paths, depth, name) > 0 {
      var m, p := paths[..|paths| - 1], paths[|paths| - 1];
      CountsNamed(m, depth, name);
      if Counts(p, depth, name) {
        assert IsPrefix(p, depth, name);
        assert Shows(p, depth, name);
      }
    }
    if Directory(paths, depth, name) {
      var p :| p in paths && MakesDir(p, depth, name);
      assert Shows(p, depth, name);
    }
  }

  lemma HoldsStep(s: Seen, t: Seen, paths: seq<string>, p: string, depth: nat)
    requires depth >= 1 && Holds(s, paths, depth) && Trimmed(p) != ""
    requires var b := Depth(p, depth); var own := {Prefix(p, b)};
             Extends(s, t, own + Ancestors(p, b),
                     (if IsDeep(p, depth) || p[|p| - 1] == '/' then own else {}) + Ancestors(p, b),
                     if IsDeep(p, depth) then own else {})
    ensures Holds(t, paths + [p], depth)
  {
    hide Shows, MakesDir, Counts, Named, Directory, Count, Parts, Prefix, Trimmed, Ancestors, Seen.Ok;
    forall n ensures
        && (n in t.entries <==> Named(paths + [p], depth, n))
        && (n in t.entries ==> (t.entries[n].dir <==> Directory(paths + [p], depth, n))
                               && t.entries[n].count == Count(paths + [p], depth, n))
    {
      Contributes(p, depth, n);
      NamedPush(paths, p, depth, n);
      CountsNamed(paths, depth, n);
    }
  }

  lemma HoldsSkip(s: Seen, paths: seq<string>, p: string, depth: nat)
    requires depth >= 1 && Holds(s, paths, depth) && Trimmed(p) == ""
    ensures Holds(s, paths + [p], depth)
  {
    forall n ensures
        && (Named(paths + [p], depth, n) <==> Named(paths, depth, n))
        && (Directory(paths + [p], depth, n) <==> Directory(paths, depth, n))
        && Count(paths + [p], depth, n) == Count(paths, depth, n)
    {
      NamedPush(paths, p, depth, n);
    }
  }

  // ---------------------------------------------------------------------------
  // Sorting
  // ---------------------------------------------------------------------------

  function Insert(es: seq<Entry>, e: Entry): (r: seq<Entry>)
    ensures forall x :: x in r <==> x in es || x == e
  {
    if es == [] || Less(e.name, es[0].name) then [e] + es else [es[0]] + Insert(es[1..], e)
  }

  lemma {:induction false} InsertSorted(es: seq<Entry>, e: Entry)
    requires Sorted(es) && forall x :: x in es ==> x.name != e.name
    ensures Sorted(Insert(es, e))
  {
    if es != [] {
      LessTotal(e.name, es[0].name);
      if Less(e.name, es[0].name) {
        forall j | 0 <= j < |es| ensures Less(e.name, es[j].name) {
          if j > 0 {
            LessTransitive(e.name, es[0].name, es[j].name);
          }
        }
      } else {
        InsertSorted(es[1..], e);
        var r := Insert(es[1..], e);
        forall j | 0 <= j < |r| ensures Less(es[0].name, r[j].name) {
          assert r[j] in r;
        }
      }
    }
  }

  /** The listing of `paths`. */
  method CollapsePaths(paths: seq<string>, depth: nat) returns (out: seq<Entry>)
    requires depth >= 1
    ensures Sorted(out) && Lists(out, paths, depth)
  {
    hide Shows, MakesDir, Counts, Named, Directory, Count, Parts, Prefix, Trimmed, Extends;
    var s := Seen(map[], []);
    NothingYet(s, depth);
    for k := 0 to |paths|
      invariant Holds(s, paths[..k], depth)
    {
      assert paths[..k + 1] == paths[..k] + [paths[k]];
      if Trimmed(paths[k]) == "" {
        HoldsSkip(s, paths[..k], paths[k], depth);
      } else {
        var t := AddPath(s, paths[k], depth);
        HoldsStep(s, t, paths[..k], paths[k], depth);
        s := t;
      }
    }
    assert paths[..|paths|] == paths;
    out := [];
    for k := 0 to |s.order|
      invariant Sorted(out)
      invariant forall e :: e in out <==> exists i :: 0 <= i < k && e == s.entries[s.order[i]]
    {
      var e := s.entries[s.order[k]];
      InsertSorted(out, e);
      out := Insert(out, e);
    }
    forall name | Named(paths, depth, name) ensures exists e :: e in out && e.name == name {
      assert name in s.order;
      var i :| 0 <= i < |s.order| && s.order[i] == name;
      assert s.entries[s.order[i]] in out;
    }
  }

  lemma NothingYet(s: Seen, depth: nat)
    requires s == Seen(map[], []) && depth >= 1
    ensures Holds(s, [], depth)
  {
  }

  // ---------------------------------------------------------------------------
  // What the listing means
  // ---------------------------------------------------------------------------

  lemma {:induction false} SortedUnique(a: seq<Entry>, b: seq<Entry>)
    requires Sorted(a) && Sorted(b) && forall e :: e in a <==> e in b
    ensures a == b
  {
    if a == [] {
      if b != [] {
        HeadIn(b);
      }
    } else if b == [] {
      HeadIn(a);
    } else {
      SameHead(a, b);
      SameTail(a, b);
      SameTail(b, a);
      SortedUnique(a[1..], b[1..]);
      assert a == [a[0]] + a[1..] && b == [b[0]] + b[1..];
    }
  }

  lemma HeadIn(a: seq<Entry>)
    requires a != []
    ensures a[0] in a
  {
  }

  lemma SameHead(a: seq<Entry>, b: seq<Entry>)
    requires Sorted(a) && Sorted(b) && a != [] && b != [] && a[0] in b && b[0] in a
    ensures a[0] == b[0]
  {
    LessTotal(a[0].name, b[0].name);
  }

  lemma SameTail(a: seq<Entry>, b: seq<Entry>)
    requires Sorted(a) && a != [] && b != [] && a[0] == b[0] && forall e :: e in a ==> e in b
    ensures forall e :: e in a[1..] ==> e in b[1..]
  {
    SortedDistinct(a);
    forall e | e in a[1..] ensures e in b[1..] {
      assert e in a && e in b && e != a[0];
    }
  }

  lemma SortedDistinct(a: seq<Entry>)
    requires Sorted(a)
    ensures a != [] ==> a[0] !in a[1..]
    ensures forall i, j :: 0 <= i < |a| && 0 <= j < |a| && a[i].name == a[j].name ==> i == j
  {
    forall i, j | 0 <= i < j < |a| ensures a[i].name != a[j].name {
      LessTotal(a[i].name, a[j].name);
    }
  }

  /** There is one listing of given paths: sorted order and the meaning of entries determine it. */
  lemma ListingIsUnique(a: seq<Entry>, b: seq<Entry>, paths: seq<string>, depth: nat)
    requires depth >= 1 && Sorted(a) && Sorted(b) && Lists(a, paths, depth) && Lists(b, paths, depth)
    ensures a == b
  {
    hide Named, Directory, Count;
    forall e | e in a ensures e in b { Same(a, b, paths, depth, e); }
    forall e | e in b ensures e in a { Same(b, a, paths, depth, e); }
    SortedUnique(a, b);
  }

  lemma Same(a: seq<Entry>, b: seq<Entry>, paths: seq<string>, depth: nat, e: Entry)
    requires depth >= 1 && Lists(a, paths, depth) && Lists(b, paths, depth) && e in a
    ensures e in b
  {
    hide Named, Directory, Count;
    var f :| f in b && f.name == e.name;
  }

  lemma {:induction false} CountPick(paths: seq<string>, i: nat, depth: nat, name: string)
    requires depth >= 1 && i < |paths|
    ensures Count(paths, depth, name) == Count(paths[..i] + paths[i + 1..], depth, name) + if Counts(paths[i], depth, name) then 1 else 0
  {
    hide Counts;
    var m := paths[..|paths| - 1];
    if i < |paths| - 1 {
      CountPick(m, i, depth, name);
      var rest := paths[..i] + paths[i + 1..];
      assert rest[..|rest| - 1] == m[..i] + m[i + 1..];
    } else {
      assert paths[..i] + paths[i + 1..] == m;
    }
  }

  lemma RemoveOne(m: seq<string>, p: string, b: seq<string>, i: nat)
    requires i < |b| && b[i] == p && multiset(m + [p]) == multiset(b)
    ensures multiset(m) == multiset(b[..i] + b[i + 1..])
  {
    var rest := b[..i] + b[i + 1..];
    assert b == b[..i] + [p] + b[i + 1..];
    assert multiset(b) == multiset(rest) + multiset{p};
    assert multiset(m + [p]) == multiset(m) + multiset{p};
    assert multiset(m) == multiset(b) - multiset{p} == multiset(rest);
  }

  lemma {:induction false} CountPermutes(a: seq<string>, b: seq<string>, depth: nat, name: string)
    requires depth >= 1 && multiset(a) == multiset(b)
    ensures Count(a, depth, name) == Count(b, depth, name)
    decreases |a|
  {
    if a == [] {
      assert |multiset(b)| == 0;
    } else {
      var m, p := a[..|a| - 1], a[|a| - 1];
      assert a == m + [p];
      assert p in multiset(b);
      var i :| 0 <= i < |b| && b[i] == p;
      CountPick(b, i, depth, name);
      RemoveOne(m, p, b, i);
      CountPermutes(m, b[..i] + b[i + 1..], depth, name);
    }
  }

  /** The order of the paths does not matter to the listing. */
  lemma OrderIndependent(a: seq<string>, b: seq<string>, depth: nat, x: seq<Entry>, y: seq<Entry>)
    requires depth >= 1 && multiset(a) == multiset(b)
    requires Sorted(x) && Lists(x, a, depth) && Sorted(y) && Lists(y, b, depth)
    ensures x == y
  {
    assert forall p :: p in a <==> p in multiset(a);
    assert forall p :: p in b <==> p in multiset(b);
    forall name ensures Named(a, depth, name) <==> Named(b, depth, name)
                ensures Directory(a, depth, name) <==> Directory(b, depth, name)
                ensures Count(a, depth, name) == Count(b, depth, name)
    {
      CountPermutes(a, b, depth, name);
    }
    hide Named, Directory, Count;
    assert Lists(y, a, depth);
    ListingIsUnique(x, y, a, depth);
  }

  /** A directory comes before everything inside it. */
  lemma {:induction false} ParentFirst(name: string, rest: string)
    ensures Less(name, name + "/" + rest)
  {
    var b := name + "/" + rest;
    if name != "" {
      assert b[0] == name[0] && b[1..] == name[1..] + "/" + rest;
      ParentFirst(name[1..], rest);
    }
  }

  predicate Inside(d: string, name: string) {
    d + "/" <= name
  }

  /** A sibling of `d` and not in it, that goes on from the same name with a byte below the slash. */
  predicate Between(d: string, name: string) {
    d < name && name[|d|] < '/'
  }

  lemma {:induction false} LongerIsLess(d: string, x: string)
    requires d < x
    ensures Less(d, x)
  {
    if d != "" {
      assert x[0] == d[0] && d[1..] < x[1..];
      LongerIsLess(d[1..], x[1..]);
    }
  }

  lemma {:induction false} BetweenIsLess(d: string, x: string, y: string)
    requires Between(d, x) && Inside(d, y)
    ensures Less(x, y)
  {
    assert y[|d|] == (d + "/")[|d|] == '/';
    if d != "" {
      assert x[0] == d[0] == (d + "/")[0] == y[0];
      assert d[1..] + "/" == (d + "/")[1..] <= y[1..] && d[1..] < x[1..];
      BetweenIsLess(d[1..], x[1..], y[1..]);
    }
  }

  /** What sorts after a directory and not after something inside it starts with the directory's name. */
  lemma {:induction false} Squeeze(d: string, x: string, y: string)
    requires Less(d, x) && (Less(x, y) || x == y) && Inside(d, y)
    ensures d < x && x[|d|] <= '/'
  {
    if d != "" {
      assert y[0] == (d + "/")[0] == d[0] && (x == y ==> x[1..] == y[1..]);
      assert d[1..] + "/" == (d + "/")[1..] <= y[1..];
      Squeeze(d[1..], x[1..], y[1..]);
      assert x == [x[0]] + x[1..] && d == [d[0]] + d[1..];
    } else {
      assert y[0] == (d + "/")[0];
    }
  }

  lemma SortedBefore(es: seq<Entry>, i: nat, k: nat)
    requires Sorted(es) && i < |es| && k < |es| && Less(es[i].name, es[k].name)
    ensures i < k
  {
    LessTotal(es[i].name, es[k].name);
  }

  /** A listed directory that holds something is followed at once by an entry inside it if and only if no
      listed name goes on from its own name with a byte below the slash. */
  lemma ImmediateIff(es: seq<Entry>, i: nat)
    requires Sorted(es) && i < |es| && exists k :: 0 <= k < |es| && Inside(es[i].name, es[k].name)
    ensures i + 1 < |es| && Inside(es[i].name, es[i + 1].name) <==>
            forall k :: 0 <= k < |es| ==> !Between(es[i].name, es[k].name)
  {
    hide Less;
    var d := es[i].name;
    var k :| 0 <= k < |es| && Inside(d, es[k].name);
    assert d < es[k].name;
    LongerIsLess(d, es[k].name);
    SortedBefore(es, i, k);
    var next := es[i + 1].name;
    Squeeze(d, next, es[k].name);
    assert Inside(d, next) <==> next[|d|] == '/';
    if j :| 0 <= j < |es| && Between(d, es[j].name) {
      LongerIsLess(d, es[j].name);
      SortedBefore(es, i, j);
      if Inside(d, next) {
        BetweenIsLess(d, es[j].name, next);
        SortedBefore(es, j, i + 1);
      }
    }
  }

  lemma PartsAre()
    ensures Parts("a-b") == ["a-b"] && Parts("a/c") == ["a", "c"]
  {
    assert Free("a-b", '/') && Free("a", '/') && Free("c", '/');
    SplitAt("a-b", "", '/');
    SplitAt("a", "c", '/');
    SplitAt("c", "", '/');
    assert "a" + ['/'] + "c" == "a/c";
  }

  lemma OnePart(name: string)
    ensures Shows("a-b", 2, name) <==> name == "a-b"
    ensures !MakesDir("a-b", 2, name) && !Counts("a-b", 2, name)
  {
    PartsAre();
    assert Parts("a-b")[..1] == ["a-b"];
    assert IsPrefix("a-b", 1, "a-b");
  }

  lemma TwoParts(name: string)
    ensures Shows("a/c", 2, name) <==> name == "a" || name == "a/c"
    ensures (MakesDir("a/c", 2, name) <==> name == "a") && !Counts("a/c", 2, name)
  {
    PartsAre();
    assert Parts("a/c")[..1] == ["a"] && Parts("a/c")[..2] == ["a", "c"] && ["a", "c"][1..] == ["c"];
    assert Prefix("a/c", 1) == "a" && Prefix("a/c", 2) == "a" + ['/'] + "c" == "a/c";
    assert IsPrefix("a/c", 1, "a") && IsPrefix("a/c", 2, "a/c");
  }

  lemma PrefixesAre(name: string)
    ensures Named(["a-b", "a/c"], 2, name) <==> name == "a" || name == "a-b" || name == "a/c"
    ensures Directory(["a-b", "a/c"], 2, name) <==> name == "a"
    ensures Count(["a-b", "a/c"], 2, name) == 0
  {
    var paths := ["a-b", "a/c"];
    OnePart(name);
    TwoParts(name);
    hide Shows, MakesDir, Counts;
    assert paths[0] in paths && paths[1] in paths;
    assert paths[..1] == ["a-b"] && paths[1] == "a/c";
    assert Count([], 2, name) == 0;
    assert ["a-b"][..0] == [] && Count(["a-b"], 2, name) == 0;
  }

  const THREE := [Entry("a", true, 0), Entry("a-b", false, 0), Entry("a/c", false, 0)]

  lemma ThreeSorted()
    ensures Inside("a", "a/c") && Between("a", "a-b") && Sorted(THREE)
  {
    assert Inside("a", "a/c") && Between("a", "a-b");
    hide Less;
    LongerIsLess("a", "a-b");
    LongerIsLess("a", "a/c");
    BetweenIsLess("a", "a-b", "a/c");
  }

  lemma ThreeListed()
    ensures Lists(THREE, ["a-b", "a/c"], 2)
  {
    hide Named, Directory, Count;
    assert THREE[0] in THREE && THREE[1] in THREE && THREE[2] in THREE;
    forall name ensures Named(["a-b", "a/c"], 2, name) <==> exists e :: e in THREE && e.name == name {
      PrefixesAre(name);
    }
    forall e | e in THREE ensures (e.dir <==> Directory(["a-b", "a/c"], 2, e.name)) && e.count == Count(["a-b", "a/c"], 2, e.name) {
      PrefixesAre(e.name);
    }
  }

  /** It can fail: "a-b" is listed between "a" and "a/c". */
  lemma NotImmediately(es: seq<Entry>)
    requires Sorted(es) && Lists(es, ["a-b", "a/c"], 2)
    ensures es == [Entry("a", true, 0), Entry("a-b", false, 0), Entry("a/c", false, 0)]
    ensures Inside("a", es[2].name) && Between("a", es[1].name) && !Inside("a", es[1].name)
  {
    ThreeSorted();
    ThreeListed();
    hide Lists, Sorted;
    ListingIsUnique(es, THREE, ["a-b", "a/c"], 2);
  }

  // ---------------------------------------------------------------------------
  // The listing in terms of text
  // ---------------------------------------------------------------------------

  function Slashes(s: string): nat {
    if s == "" then 0 else (if s[0] == '/' then 1 else 0) + Slashes(s[1..])
  }

  /** A path without one slash at its end. */
  function Bare(p: string): string {
    if p != "" && p[|p| - 1] == '/' then p[..|p| - 1] else p
  }

  /** The path shows this name: it is the name, or goes on from it with a slash, and the name is not too deep. */
  predicate ShowsText(p: string, depth: nat, name: string) {
    Bare(p) != "" && (name == Bare(p) || name + "/" <= Bare(p)) && Slashes(name) < depth
  }

  /** The path makes it a directory: by going on from it, or by a slash of its own at the end. */
  predicate DirText(p: string, depth: nat, name: string) {
    ShowsText(p, depth, name) && name + "/" <= p
  }

  /** The path is folded into the name: it goes on from it, and the name is as deep as the listing goes. */
  predicate FoldsText(p: string, depth: nat, name: string) {
    name + "/" <= Bare(p) && Slashes(name) + 1 == depth
  }

  lemma {:induction false} SlashesParts(s: string)
    ensures |Split(s, '/')| == Slashes(s) + 1
  {
    if s != "" {
      SlashesParts(s[1..]);
    }
  }

  lemma {:induction false} JoinApart(parts: seq<string>, i: nat)
    requires 0 < i < |parts|
    ensures Join(parts, '/') == Join(parts[..i], '/') + ['/'] + Join(parts[i..], '/')
  {
    if i > 1 {
      JoinApart(parts[1..], i - 1);
      assert parts[1..][..i - 1] == parts[1..i] == parts[..i][1..] && parts[1..][i - 1..] == parts[i..];
    } else {
      assert parts[..1] == [parts[0]];
    }
  }

  /** A prefix of components is what stands before a slash, or the whole. */
  lemma PrefixText(p: string, i: nat)
    requires 1 <= i <= |Parts(p)|
    ensures Slashes(Prefix(p, i)) == i - 1
    ensures i == |Parts(p)| ==> Prefix(p, i) == Bare(p)
    ensures i < |Parts(p)| ==> Prefix(p, i) + "/" <= Bare(p)
  {
    var parts := Parts(p);
    SplitFree(Trimmed(p), '/');
    JoinSplit(Trimmed(p), '/');
    assert AllFree(parts[..i], '/');
    SplitJoin(parts[..i], '/');
    SlashesParts(Prefix(p, i));
    if i == |parts| {
      assert parts[..i] == parts;
    } else {
      JoinApart(parts, i);
    }
  }

  lemma TextPrefix(p: string, name: string)
    requires name == Bare(p) || name + "/" <= Bare(p)
    ensures var i := Slashes(name) + 1; i <= |Parts(p)| && IsPrefix(p, i, name) && (i == |Parts(p)| <==> name == Bare(p))
  {
    var q, i := Bare(p), Slashes(name) + 1;
    SlashesParts(name);
    JoinSplit(name, '/');
    if name == q {
      assert Parts(p)[..i] == Parts(p);
    } else {
      var tail := q[|name| + 1..];
      assert q == name + ['/'] + tail;
      SplitConcat(name, tail, '/');
      assert Parts(p)[..i] == Split(name, '/');
    }
  }

  lemma ShowsIff(p: string, depth: nat, name: string)
    ensures Shows(p, depth, name) <==> ShowsText(p, depth, name)
    ensures MakesDir(p, depth, name) <==> DirText(p, depth, name)
    ensures depth >= 1 ==> (Counts(p, depth, name) <==> FoldsText(p, depth, name))
  {
    hide Parts, Prefix;
    if name == Bare(p) || name + "/" <= Bare(p) {
      TextPrefix(p, name);
    }
    forall i | 1 <= i <= |Parts(p)| && IsPrefix(p, i, name)
      ensures i == Slashes(name) + 1 && (i == |Parts(p)| ==> name == Bare(p)) && (i < |Parts(p)| ==> name + "/" <= Bare(p))
    {
      PrefixText(p, i);
    }
    assert depth >= 1 && IsDeep(p, depth) ==> (Prefix(p, depth) == name <==> IsPrefix(p, depth, name));
    assert name == Bare(p) ==> (name + "/" <= p <==> p != "" && p[|p| - 1] == '/') by { OwnSlash(p); }
    assert name + "/" <= Bare(p) ==> name + "/" <= p;
  }

  lemma OwnSlash(p: string)
    ensures Bare(p) + "/" <= p <==> p != "" && p[|p| - 1] == '/'
  {
  }

  lemma {:induction false} CountText(paths: seq<string>, depth: nat, name: string)
    requires depth >= 1
    ensures Count(paths, depth, name) == |Filter(paths, (p: string) => FoldsText(p, depth, name))|
  {
    hide Counts, FoldsText;
    if paths != [] {
      CountText(paths[..|paths| - 1], depth, name);
      ShowsIff(paths[|paths| - 1], depth, name);
    }
  }

  ghost predicate Has(es: seq<Entry>, name: string) {
    exists e :: e in es && e.name == name
  }

  ghost predicate Shown(paths: seq<string>, depth: nat, name: string) {
    exists p :: p in paths && ShowsText(p, depth, name)
  }

  ghost predicate ShownAsDir(paths: seq<string>, depth: nat, name: string) {
    exists p :: p in paths && DirText(p, depth, name)
  }

  lemma NamedText(paths: seq<string>, depth: nat, name: string)
    ensures Named(paths, depth, name) <==> Shown(paths, depth, name)
    ensures Directory(paths, depth, name) <==> ShownAsDir(paths, depth, name)
  {
    hide Shows, MakesDir, ShowsText, DirText;
    forall p | p in paths ensures Shows(p, depth, name) <==> ShowsText(p, depth, name)
                          ensures MakesDir(p, depth, name) <==> DirText(p, depth, name)
    {
      ShowsIff(p, depth, name);
    }
  }

  /** The listing, read off the text of the paths: a name for each path not too deep and each of its directories not
      too deep, flagged when some path goes on from it or marks it, with the number of paths folded into it. */
  lemma ListingText(es: seq<Entry>, paths: seq<string>, depth: nat)
    requires depth >= 1 && Lists(es, paths, depth)
    ensures forall name :: Has(es, name) <==> Shown(paths, depth, name)
    ensures forall e :: e in es ==> (e.dir <==> ShownAsDir(paths, depth, e.name))
    ensures forall e :: e in es ==> e.count == |Filter(paths, (p: string) => FoldsText(p, depth, e.name))|
  {
    hide Named, Directory, Shown, ShownAsDir, FoldsText, Count;
    forall name ensures Has(es, name) <==> Shown(paths, depth, name) {
      NamedText(paths, depth, name);
    }
    forall e | e in es
      ensures (e.dir <==> ShownAsDir(paths, depth, e.name)) && e.count == |Filter(paths, (p: string) => FoldsText(p, depth, e.name))|
    {
      NamedText(paths, depth, e.name);
      CountText(paths, depth, e.name);
    }
  }

  // ---------------------------------------------------------------------------
  // Nothing is counted twice and nothing is left out
  // ---------------------------------------------------------------------------

  /** A file list as git prints it: distinct paths, none of them a directory of another. */
  ghost predicate FileList(paths: seq<string>) {
    && NoDup(paths)
    && (forall p :: p in paths ==> p != "" && p[|p| - 1] != '/')
    && (forall p, q :: p in paths && q in paths && p != q ==> !(Parts(p) <= Parts(q)))
  }

  function Deep(depth: nat): string -> bool {
    p => IsDeep(p, depth)
  }

  function Shallow(depth: nat): string -> bool {
    p => !IsDeep(p, depth)
  }

  function Files(es: seq<Entry>): seq<Entry> {
    Filter(es, (e: Entry) => !e.dir)
  }

  function SumCounts(es: seq<Entry>): nat {
    if es == [] then 0 else SumCounts(es[..|es| - 1]) + es[|es| - 1].count
  }

  function SumOver(es: seq<Entry>, paths: seq<string>, depth: nat): nat
    requires depth >= 1
  {
    if es == [] then 0 else SumOver(es[..|es| - 1], paths, depth) + Count(paths, depth, es[|es| - 1].name)
  }

  lemma {:induction false} SumIsOver(es: seq<Entry>, paths: seq<string>, depth: nat)
    requires depth >= 1 && forall e :: e in es ==> e.count == Count(paths, depth, e.name)
    ensures SumCounts(es) == SumOver(es, paths, depth)
  {
    if es != [] {
      SumIsOver(es[..|es| - 1], paths, depth);
      assert es[|es| - 1] in es;
    }
  }

  lemma {:induction false} SumOverNone(es: seq<Entry>, depth: nat)
    requires depth >= 1
    ensures SumOver(es, [], depth) == 0
  {
    if es != [] {
      SumOverNone(es[..|es| - 1], depth);
    }
  }

  /** One more path adds one to one entry, when it is deep and its boundary is listed once. */
  lemma {:induction false} SumOverPush(es: seq<Entry>, paths: seq<string>, p: string, depth: nat)
    requires depth >= 1 && Sorted(es)
    ensures SumOver(es, paths + [p], depth) ==
            SumOver(es, paths, depth) + if exists e :: e in es && Counts(p, depth, e.name) then 1 else 0
  {
    if es != [] {
      var m, last := es[..|es| - 1], es[|es| - 1];
      SumOverPush(m, paths, p, depth);
      NamedPush(paths, p, depth, last.name);
      SortedDistinct(es);
      assert es == m + [last];
      if Counts(p, depth, last.name) {
        assert last in es;
        forall e | e in m ensures !Counts(p, depth, e.name) {
          var i :| 0 <= i < |m| && m[i] == e;
          assert es[i] == e;
        }
      }
      assert forall e :: e in es <==> e in m || e == last;
    }
  }

  /** The counts add up to the number of deep paths. */
  lemma {:induction false} CountsAddUp(es: seq<Entry>, paths: seq<string>, depth: nat)
    requires depth >= 1 && Sorted(es)
    requires forall p :: p in paths && IsDeep(p, depth) ==> exists e :: e in es && Counts(p, depth, e.name)
    ensures SumOver(es, paths, depth) == |Filter(paths, Deep(depth))|
  {
    if paths == [] {
      SumOverNone(es, depth);
    } else {
      var m, p := paths[..|paths| - 1], paths[|paths| - 1];
      assert paths == m + [p];
      CountsAddUp(es, m, depth);
      SumOverPush(es, m, p, depth);
      assert p in paths;
    }
  }

  lemma DeepListed(es: seq<Entry>, paths: seq<string>, depth: nat, p: string)
    requires depth >= 1 && Lists(es, paths, depth) && p in paths && IsDeep(p, depth)
    ensures exists e :: e in es && Counts(p, depth, e.name)
  {
    assert IsPrefix(p, depth, Prefix(p, depth));
    assert Shows(p, depth, Prefix(p, depth));
    assert Named(paths, depth, Prefix(p, depth));
    var e :| e in es && e.name == Prefix(p, depth);
  }

  lemma {:induction false} Partition(paths: seq<string>, depth: nat)
    ensures |Filter(paths, Deep(depth))| + |Filter(paths, Shallow(depth))| == |paths|
  {
    if paths != [] {
      Partition(paths[..|paths| - 1], depth);
    }
  }

  /** A path without a trailing slash is its components joined again. */
  lemma WholePath(p: string)
    requires p != "" && p[|p| - 1] != '/'
    ensures Trimmed(p) == p && Prefix(p, |Parts(p)|) == p
  {
    JoinSplit(p, '/');
    assert Parts(p)[..|Parts(p)|] == Parts(p);
  }

  /** An entry that is not a directory is a shallow path. */
  lemma FileIsPath(es: seq<Entry>, paths: seq<string>, depth: nat, e: Entry)
    requires depth >= 1 && Lists(es, paths, depth) && FileList(paths) && e in es && !e.dir
    ensures e.name in paths && !IsDeep(e.name, depth)
  {
    var p :| p in paths && Shows(p, depth, e.name);
    var i :| 1 <= i <= Depth(p, depth) && IsPrefix(p, i, e.name);
    assert !MakesDir(p, depth, e.name);
    assert !(i < |Parts(p)|);
    WholePath(p);
  }

  lemma PrefixSplits(q: string, j: nat)
    requires 1 <= j <= |Parts(q)|
    ensures Split(Prefix(q, j), '/') == Parts(q)[..j]
  {
    SplitFree(Trimmed(q), '/');
    SplitJoin(Parts(q)[..j], '/');
  }

  lemma NoPathBelow(paths: seq<string>, depth: nat, p: string, q: string)
    requires FileList(paths) && p in paths && q in paths
    ensures !MakesDir(q, depth, p)
  {
    WholePath(p);
    forall j | 1 <= j < |Parts(q)| ensures Prefix(q, j) != p {
      PrefixSplits(q, j);
      assert Parts(q)[..j] <= Parts(q);
    }
  }

  /** A shallow path is an entry that is not a directory. */
  lemma PathIsFile(es: seq<Entry>, paths: seq<string>, depth: nat, p: string)
    requires depth >= 1 && Lists(es, paths, depth) && FileList(paths) && p in paths && !IsDeep(p, depth)
    ensures exists e :: e in es && !e.dir && e.name == p
  {
    WholePath(p);
    assert IsPrefix(p, |Parts(p)|, p);
    assert Shows(p, depth, p);
    assert Named(paths, depth, p);
    forall q | q in paths ensures !MakesDir(q, depth, p) {
      NoPathBelow(paths, depth, p, q);
    }
    assert !Directory(paths, depth, p);
    var e :| e in es && e.name == p;
  }

  lemma {:induction false} FilesSorted(es: seq<Entry>)
    requires Sorted(es)
    ensures Sorted(Files(es))
  {
    if es != [] {
      var m := es[..|es| - 1];
      FilesSorted(m);
      forall i | 0 <= i < |Files(m)| ensures Less(Files(m)[i].name, es[|es| - 1].name) {
        assert Files(m)[i] in m;
      }
    }
  }

  lemma {:induction false} FilterDistinct(s: seq<string>, f: string -> bool)
    requires NoDup(s)
    ensures NoDup(Filter(s, f))
  {
    if s != [] {
      var m := s[..|s| - 1];
      FilterDistinct(m, f);
      assert forall i :: 0 <= i < |Filter(m, f)| ==> Filter(m, f)[i] in m;
    }
  }

  function NamesOf(es: seq<Entry>): seq<string> {
    seq(|es|, i requires 0 <= i < |es| => es[i].name)
  }

  lemma {:induction false} DistinctCard(s: seq<string>)
    requires NoDup(s)
    ensures |set x | x in s| == |s|
  {
    if s != [] {
      var m, l := s[..|s| - 1], s[|s| - 1];
      DistinctCard(m);
      assert s == m + [l];
      assert (set x | x in s) == (set x | x in m) + {l};
    }
  }

  lemma SameMembers(a: seq<string>, b: seq<string>)
    requires NoDup(a) && NoDup(b) && forall x :: x in a <==> x in b
    ensures |a| == |b|
  {
    DistinctCard(a);
    DistinctCard(b);
    assert (set x | x in a) == (set x | x in b);
  }

  lemma {:induction false} FilesAreShallow(es: seq<Entry>, paths: seq<string>, depth: nat)
    requires depth >= 1 && Sorted(es) && Lists(es, paths, depth) && FileList(paths)
    ensures |Files(es)| == |Filter(paths, Shallow(depth))|
  {
    hide Named, Directory, Count, FileList, IsDeep, Less;
    var files := Files(es);
    var names, shallow := NamesOf(files), Filter(paths, Shallow(depth));
    FileNamesDistinct(es);
    ShallowDistinct(paths, depth);
    forall x | x in names ensures x in shallow {
      var i :| 0 <= i < |names| && names[i] == x;
      FileIsPath(es, paths, depth, files[i]);
    }
    forall x | x in shallow ensures x in names {
      PathIsFile(es, paths, depth, x);
      var e :| e in es && !e.dir && e.name == x;
      NameIn(files, e);
    }
    SameMembers(names, shallow);
  }

  lemma ShallowDistinct(paths: seq<string>, depth: nat)
    requires FileList(paths)
    ensures NoDup(Filter(paths, Shallow(depth)))
  {
    FilterDistinct(paths, Shallow(depth));
  }

  lemma FileNamesDistinct(es: seq<Entry>)
    requires Sorted(es)
    ensures NoDup(NamesOf(Files(es)))
  {
    FilesSorted(es);
    SortedDistinct(Files(es));
  }

  lemma NameIn(es: seq<Entry>, e: Entry)
    requires e in es
    ensures e.name in NamesOf(es)
  {
    var i :| 0 <= i < |es| && es[i] == e;
    assert NamesOf(es)[i] == e.name;
  }

  /** Every path of a file list is in the listing once: as a file entry, or in the count of one directory. */
  lemma {:induction false} EveryPathOnce(es: seq<Entry>, paths: seq<string>, depth: nat)
    requires depth >= 1 && Sorted(es) && Lists(es, paths, depth) && FileList(paths)
    ensures |Files(es)| + SumCounts(es) == |paths|
  {
    FilesAreShallow(es, paths, depth);
    forall p | p in paths && IsDeep(p, depth) ensures exists e :: e in es && Counts(p, depth, e.name) {
      DeepListed(es, paths, depth, p);
    }
    CountsAddUp(es, paths, depth);
    SumIsOver(es, paths, depth);
    Partition(paths, depth);
  }
}
