/** Tool-supplied paths resolved to sandbox-absolute ones. */
module Paths {
  import opened Prelude
  import opened Text

  const WORKSPACE := "/workspace"
  const REPO := "/workspace/repo"

  // ---------------------------------------------------------------------------
  // Lexical cleaning of a rooted path
  // ---------------------------------------------------------------------------

  /** One component applied to the components so far: empty ones and "." vanish, ".." takes one back and
      stops at the root. */
  function Apply(stack: seq<string>, part: string): seq<string> {
    if part == "" || part == "." then stack
    else if part == ".." then (if stack == [] then [] else stack[..|stack| - 1])
    else stack + [part]
  }

  function Walk(stack: seq<string>, parts: seq<string>): seq<string>
    decreases |parts|
  {
    if parts == [] then stack else Walk(Apply(stack, parts[0]), parts[1..])
  }

  function Absolute(stack: seq<string>): string {
    if stack == [] then "/" else "/" + Join(stack, '/')
  }

  predicate Rooted(p: string) {
    p != "" && p[0] == '/'
  }

  /** Cleaning of a rooted path. */
  function Clean(p: string): string
    requires Rooted(p)
  {
    Absolute(Walk([], Split(p, '/')))
  }

  predicate Proper(part: string) {
    part != "" && part != "." && part != ".."
  }

  ghost predicate Clear(stack: seq<string>) {
    AllFree(stack, '/') && forall i :: 0 <= i < |stack| ==> Proper(stack[i])
  }

  predicate Under(base: string, p: string) {
    p == base || base + "/" <= p
  }

  function RepoPath(path: string): Result<string> {
    var p := Trim(path);
    if p == "" then Err("path is required")
    else if Rooted(p) then
      var abs := Clean(p);
      if Under(WORKSPACE, abs) then Ok(abs) else Err("outside the workspace")
    else
      var abs := Clean(REPO + "/" + p);
      if Under(REPO, abs) then Ok(abs) else Err("escapes the repository root")
  }

  function RelToRepo(abs: string): string {
    if abs == REPO then "."
    else if REPO + "/" <= abs then abs[|REPO| + 1..]
    else abs
  }

  /** A working directory: anywhere when absolute, in the repository when relative. */
  function WorkDir(cwd: string): Result<string> {
    var p := Trim(cwd);
    if p == "" then Ok(REPO)
    else if Rooted(p) then Ok(Clean(p))
    else
      var abs := Clean(REPO + "/" + p);
      if Under(REPO, abs) then Ok(abs) else Err("escapes the repository root")
  }

  // ---------------------------------------------------------------------------
  // Cleaned paths
  // ---------------------------------------------------------------------------

  lemma {:induction false} WalkClear(stack: seq<string>, parts: seq<string>)
    requires Clear(stack) && AllFree(parts, '/')
    ensures Clear(Walk(stack, parts))
    decreases |parts|
  {
    if parts != [] {
      assert Free(parts[0], '/');
      WalkClear(Apply(stack, parts[0]), parts[1..]);
    }
  }

  /** Proper components are walked unchanged. */
  lemma {:induction false} WalkProper(stack: seq<string>, parts: seq<string>)
    requires forall i :: 0 <= i < |parts| ==> Proper(parts[i])
    ensures Walk(stack, parts) == stack + parts
    decreases |parts|
  {
    if parts != [] {
      WalkProper(stack + [parts[0]], parts[1..]);
      assert stack + [parts[0]] + parts[1..] == stack + parts;
    }
  }

  lemma {:induction false} WalkAppend(stack: seq<string>, a: seq<string>, b: seq<string>)
    ensures Walk(stack, a + b) == Walk(Walk(stack, a), b)
    decreases |a|
  {
    if a == [] {
      assert a + b == b;
    } else {
      assert (a + b)[1..] == a[1..] + b;
      WalkAppend(Apply(stack, a[0]), a[1..], b);
    }
  }

  /** The components of an absolute path, split again. */
  lemma AbsoluteSplits(stack: seq<string>)
    requires Clear(stack)
    ensures Split(Absolute(stack), '/') == [""] + if stack == [] then [""] else stack
  {
    if stack == [] {
      assert Absolute(stack) == "" + ['/'] + "";
      SplitAt("", "", '/');
    } else {
      assert Absolute(stack) == "" + ['/'] + Join(stack, '/');
      SplitAt("", Join(stack, '/'), '/');
      SplitJoin(stack, '/');
    }
  }

  /** Cleaning an absolute path made of proper components changes nothing. */
  lemma CleanFixed(stack: seq<string>)
    requires Clear(stack)
    ensures Rooted(Absolute(stack)) && Clean(Absolute(stack)) == Absolute(stack)
  {
    AbsoluteSplits(stack);
    var tail := if stack == [] then [""] else stack;
    assert ([""] + tail)[1..] == tail;
    assert Walk([], [""] + tail) == Walk([], tail);
    if stack == [] {
      assert [""][1..] == [];
      assert Walk([], [""]) == [];
    } else {
      WalkProper([], stack);
      assert [] + stack == stack;
    }
  }

  lemma AbsoluteInjective(a: seq<string>, b: seq<string>)
    requires Clear(a) && Clear(b) && Absolute(a) == Absolute(b)
    ensures a == b
  {
    AbsoluteSplits(a);
    AbsoluteSplits(b);
    var x, y := if a == [] then [""] else a, if b == [] then [""] else b;
    assert ([""] + x)[1..] == x && ([""] + y)[1..] == y;
  }

  lemma {:induction false} JoinAppend(a: seq<string>, b: seq<string>)
    requires a != [] && b != []
    ensures Join(a + b, '/') == Join(a, '/') + "/" + Join(b, '/')
  {
    if |a| == 1 {
      assert (a + b)[1..] == b;
    } else {
      assert (a + b)[1..] == a[1..] + b;
      JoinAppend(a[1..], b);
    }
  }

  lemma PrefixUnder(base: seq<string>, stack: seq<string>)
    requires base != [] && base <= stack
    ensures Under(Absolute(base), Absolute(stack))
  {
    var rest := stack[|base|..];
    assert stack == base + rest;
    if rest != [] {
      JoinAppend(base, rest);
      assert Absolute(stack) == Absolute(base) + "/" + Join(rest, '/');
    } else {
      assert stack == base;
    }
  }

  /** Lying under a directory is having its components first. */
  lemma UnderIff(base: seq<string>, stack: seq<string>)
    requires base != [] && Clear(base) && Clear(stack)
    ensures Under(Absolute(base), Absolute(stack)) <==> base <= stack
  {
    var b, s := Absolute(base), Absolute(stack);
    if base <= stack {
      PrefixUnder(base, stack);
    } else if b + "/" <= s {
      var tail := s[|b| + 1..];
      assert s == b + ['/'] + tail;
      SplitConcat(b, tail, '/');
      AbsoluteSplits(base);
      AbsoluteSplits(stack);
      PrefixParts(base, stack, Split(tail, '/'));
    } else if b == s {
      AbsoluteInjective(base, stack);
    }
  }

  lemma PrefixParts(base: seq<string>, stack: seq<string>, tail: seq<string>)
    requires base != [] && ([""] + base) + tail == [""] + if stack == [] then [""] else stack
    ensures stack != [] ==> base <= stack
    ensures stack == [] ==> |base| + |tail| == 1
  {
    var x := if stack == [] then [""] else stack;
    assert (([""] + base) + tail)[1..] == base + tail;
    assert ([""] + x)[1..] == x;
  }

  /** The stack a rooted path leads to. */
  function StackOf(p: string): seq<string> {
    Walk([], Split(p, '/'))
  }

  lemma StackClear(p: string)
    ensures Clear(StackOf(p))
  {
    SplitFree(p, '/');
    WalkClear([], Split(p, '/'));
  }

  lemma Bases()
    ensures Absolute(["workspace"]) == WORKSPACE && Absolute(["workspace", "repo"]) == REPO
    ensures Clear(["workspace"]) && Clear(["workspace", "repo"])
  {
    assert ["workspace", "repo"][1..] == ["repo"];
    assert Join(["workspace", "repo"], '/') == "workspace" + ['/'] + "repo";
  }

  /** A relative path walks on from the repository root. */
  lemma RelativeStack(p: string)
    ensures StackOf(REPO + "/" + p) == Walk(["workspace", "repo"], Split(p, '/'))
  {
    Bases();
    var base := ["workspace", "repo"];
    assert REPO + "/" + p == REPO + ['/'] + p;
    SplitConcat(REPO, p, '/');
    AbsoluteSplits(base);
    WalkAppend([], [""] + base, Split(p, '/'));
    assert ([""] + base)[1..] == base;
    WalkProper([], base);
    assert [] + base == base;
  }

  // ---------------------------------------------------------------------------
  // What resolution promises
  // ---------------------------------------------------------------------------

  /** The components a path names: from the root when it is absolute, else from the repository root. */
  function Target(p: string): seq<string> {
    if Rooted(p) then StackOf(p) else Walk(["workspace", "repo"], Split(p, '/'))
  }

  function BaseOf(p: string): seq<string> {
    if Rooted(p) then ["workspace"] else ["workspace", "repo"]
  }

  /** A path is accepted exactly when the components it names start with those of its base, and the result
      is those components: none empty, "." or "..", none with a slash in it. */
  lemma ResolvedIff(path: string)
    requires Trim(path) != ""
    ensures var p := Trim(path);
            && Clear(Target(p))
            && (RepoPath(path).Ok? <==> BaseOf(p) <= Target(p))
            && (RepoPath(path).Ok? ==> RepoPath(path).value == Absolute(Target(p)))
  {
    var p := Trim(path);
    Bases();
    if Rooted(p) {
      StackClear(p);
      UnderIff(["workspace"], StackOf(p));
    } else {
      RelativeStack(p);
      StackClear(REPO + "/" + p);
      UnderIff(["workspace", "repo"], StackOf(REPO + "/" + p));
    }
  }

  /** A working directory is refused exactly when it is relative and leaves the repository. */
  lemma WorkDirIff(cwd: string)
    ensures var p := Trim(cwd);
            && (WorkDir(cwd).Err? <==> p != "" && !Rooted(p) && !(["workspace", "repo"] <= Target(p)))
            && (WorkDir(cwd).Ok? ==> WorkDir(cwd).value == if p == "" then REPO else Absolute(Target(p)))
  {
    var p := Trim(cwd);
    Bases();
    if p != "" && !Rooted(p) {
      RelativeStack(p);
      StackClear(REPO + "/" + p);
      UnderIff(["workspace", "repo"], StackOf(REPO + "/" + p));
    }
  }

  // ---------------------------------------------------------------------------
  // Cleaning, as laws over paths
  // ---------------------------------------------------------------------------

  lemma WalkSkips(a: seq<string>, part: string, b: seq<string>)
    requires part == "" || part == "."
    ensures Walk([], a + [part] + b) == Walk([], a + b)
  {
    WalkAppend([], a + [part], b);
    WalkAppend([], a, [part]);
    WalkAppend([], a, b);
    assert [part][1..] == [];
  }

  lemma WalkCancels(a: seq<string>, x: string, b: seq<string>)
    requires Proper(x)
    ensures Walk([], a + [x, ".."] + b) == Walk([], a + b)
  {
    WalkAppend([], a + [x, ".."], b);
    WalkAppend([], a, [x, ".."]);
    WalkAppend([], a, b);
    var stack := Walk([], a);
    assert [x, ".."][1..] == [".."] && [".."][1..] == [];
    assert (stack + [x])[..|stack|] == stack;
  }

  /** Joining parts of a path by slashes is joining their components. */
  lemma SplitTwo(a: string, b: string)
    ensures Split(a + "/" + b, '/') == Split(a, '/') + Split(b, '/')
  {
    assert a + "/" + b == a + ['/'] + b;
    SplitConcat(a, b, '/');
  }

  lemma SplitThree(a: string, x: string, b: string)
    requires Free(x, '/')
    ensures Split(a + "/" + x + "/" + b, '/') == Split(a, '/') + [x] + Split(b, '/')
  {
    SplitTwo(a + "/" + x, b);
    SplitTwo(a, x);
    SplitAt(x, "", '/');
  }

  lemma Rooting(a: string, b: string)
    requires a == "" || Rooted(a)
    ensures Rooted(a + "/" + b)
  {
  }

  /** An empty component and "." change nothing, in the middle and at the end. */
  lemma CleanSkips(a: string, part: string, b: string)
    requires (a == "" || Rooted(a)) && (part == "" || part == ".")
    ensures Rooted(a + "/" + part + "/" + b) && Rooted(a + "/" + b) && Rooted(a + "/" + part)
    ensures Clean(a + "/" + part + "/" + b) == Clean(a + "/" + b)
    ensures Rooted(a) ==> Clean(a + "/" + part) == Clean(a)
  {
    Rooting(a, b);
    Rooting(a, part);
    assert a + "/" + part + "/" + b == (a + "/" + part) + "/" + b;
    SplitThree(a, part, b);
    SplitTwo(a, b);
    WalkSkips(Split(a, '/'), part, Split(b, '/'));
    SplitTwo(a, part);
    SplitAt(part, "", '/');
    WalkSkips(Split(a, '/'), part, []);
    assert Split(a, '/') + [part] + [] == Split(a, '/') + [part] && Split(a, '/') + [] == Split(a, '/');
  }

  lemma Dots(up: string, b: string)
    ensures up + "/../" + b == up + "/" + ".." + "/" + b && up + "/.." == up + "/" + ".."
  {
  }

  /** A text without a slash is one part. */
  lemma SplitOne(x: string)
    requires Free(x, '/')
    ensures Split(x, '/') == [x]
  {
    SplitAt(x, "", '/');
  }

  lemma SplitUp(a: string, x: string)
    requires Free(x, '/')
    ensures Split(a + "/" + x, '/') == Split(a, '/') + [x]
    ensures Split(a + "/" + x + "/" + "..", '/') == Split(a, '/') + [x, ".."]
  {
    SplitOne(x);
    SplitOne("..");
    hide Split;
    SplitTwo(a, x);
    SplitTwo(a + "/" + x, "..");
  }

  lemma CancelSplits(a: string, x: string, b: string)
    requires Free(x, '/')
    ensures Split(a + "/" + x + "/" + ".." + "/" + b, '/') == Split(a, '/') + [x, ".."] + Split(b, '/')
    ensures Split(a + "/" + x + "/" + "..", '/') == Split(a, '/') + [x, ".."] + []
  {
    hide Split;
    SplitUp(a, x);
    SplitTwo(a + "/" + x + "/" + "..", b);
  }

  /** A proper component and ".." after it cancel. */
  lemma CleanCancels(a: string, x: string, b: string)
    requires (a == "" || Rooted(a)) && Proper(x) && Free(x, '/')
    ensures Rooted(a + "/" + x + "/../" + b) && Rooted(a + "/" + b) && Rooted(a + "/" + x + "/..")
    ensures Clean(a + "/" + x + "/../" + b) == Clean(a + "/" + b)
    ensures Rooted(a) ==> Clean(a + "/" + x + "/..") == Clean(a)
  {
    Rooting(a, b);
    Dots(a + "/" + x, b);
    hide Split, Walk, Absolute;
    CancelSplits(a, x, b);
    SplitTwo(a, b);
    WalkCancels(Split(a, '/'), x, Split(b, '/'));
    WalkCancels(Split(a, '/'), x, []);
    assert Split(a, '/') + [] == Split(a, '/');
  }

  lemma TopWalks(rest: seq<string>)
    ensures Walk([], ["", ".."] + rest) == Walk([], [""] + rest) && Walk([], ["", ".."]) == []
  {
    WalkAppend([], ["", ".."], rest);
    WalkAppend([], [""], rest);
    assert ["", ".."][1..] == [".."] && [".."][1..] == [] && [""][1..] == [];
  }

  /** Above the root there is nothing: ".." there is dropped. */
  lemma CleanTop(b: string)
    ensures Rooted("/../" + b) && Rooted("/" + b) && Clean("/../" + b) == Clean("/" + b) && Clean("/..") == "/"
  {
    assert "/../" + b == "" + "/" + ".." + "/" + b && "/" + b == "" + "/" + b && "/.." == "" + "/" + "..";
    SplitOne("");
    hide Split, Walk;
    SplitUp("", "..");
    SplitTwo("" + "/" + "..", b);
    SplitTwo("", b);
    TopWalks(Split(b, '/'));
    assert [""] + [".."] + Split(b, '/') == ["", ".."] + Split(b, '/') && [""] + [".."] == ["", ".."];
  }

  // ---------------------------------------------------------------------------
  // Where a path leads, read from its end
  // ---------------------------------------------------------------------------

  /** How far above its start a path climbs, and what it names from there. */
  datatype Net = Net(ups: nat, names: seq<string>)

  /** Read from the end: a ".." takes back the next name met, and one that meets none climbs. */
  function Backward(parts: seq<string>, pending: nat): Net
    decreases |parts|
  {
    if parts == [] then Net(pending, [])
    else
      var m, part := parts[..|parts| - 1], parts[|parts| - 1];
      if part == "" || part == "." then Backward(m, pending)
      else if part == ".." then Backward(m, pending + 1)
      else if pending > 0 then Backward(m, pending - 1)
      else var n := Backward(m, 0); Net(n.ups, n.names + [part])
  }

  function Dropped(stack: seq<string>, n: nat): seq<string> {
    if |stack| <= n then [] else stack[..|stack| - n]
  }

  lemma {:induction false} WalkIsBackward(stack: seq<string>, parts: seq<string>, pending: nat)
    ensures var n := Backward(parts, pending);
            Dropped(Walk(stack, parts), pending) == Dropped(stack, n.ups) + n.names
    decreases |parts|
  {
    if parts != [] {
      var m, part := parts[..|parts| - 1], parts[|parts| - 1];
      assert parts == m + [part] && [part][1..] == [];
      WalkAppend(stack, m, [part]);
      assert Walk(stack, parts) == Apply(Walk(stack, m), part);
      if part == "" || part == "." {
        WalkIsBackward(stack, m, pending);
      } else if part == ".." {
        WalkIsBackward(stack, m, pending + 1);
      } else if pending > 0 {
        WalkIsBackward(stack, m, pending - 1);
      } else {
        WalkIsBackward(stack, m, 0);
      }
    }
  }

  /** What a relative path has to name when it climbs `ups` above the repository root: the way back in. */
  predicate LeadsBack(n: Net) {
    || n.ups == 0
    || (n.ups == 1 && ["repo"] <= n.names)
    || (n.ups >= 2 && ["workspace", "repo"] <= n.names)
  }

  /** The components a relative path leads to. */
  function Landing(n: Net): seq<string> {
    (if n.ups == 0 then ["workspace", "repo"] else if n.ups == 1 then ["workspace"] else []) + n.names
  }

  lemma RelativeLands(p: string)
    ensures var n := Backward(Split(p, '/'), 0);
            && Walk(["workspace", "repo"], Split(p, '/')) == Landing(n)
            && (["workspace", "repo"] <= Landing(n) <==> LeadsBack(n))
  {
    var base, n := ["workspace", "repo"], Backward(Split(p, '/'), 0);
    WalkIsBackward(base, Split(p, '/'), 0);
    assert Dropped(Walk(base, Split(p, '/')), 0) == Walk(base, Split(p, '/'));
    assert Dropped(base, 0) == base && Dropped(base, 1) == ["workspace"];
    if n.ups == 1 {
      assert Landing(n)[0] == "workspace" && Landing(n)[1..] == n.names;
      if ["repo"] <= n.names {
        assert Landing(n)[1] == n.names[0];
      }
      if base <= Landing(n) {
        assert n.names[0] == Landing(n)[1];
      }
    }
  }

  lemma AbsoluteLands(p: string)
    ensures StackOf(p) == Backward(Split(p, '/'), 0).names
  {
    WalkIsBackward([], Split(p, '/'), 0);
    assert Dropped(StackOf(p), 0) == StackOf(p);
  }

  /** Acceptance, told from the end of the path: an absolute path must name something in the workspace; a relative
      one must not climb out of the repository, unless the names after the climb lead back in. The result is
      the place so named. */
  lemma AcceptedIff(path: string)
    requires Trim(path) != ""
    ensures var p := Trim(path); var n := Backward(Split(p, '/'), 0);
            if Rooted(p)
            then (RepoPath(path).Ok? <==> ["workspace"] <= n.names) && (RepoPath(path).Ok? ==> RepoPath(path).value == Absolute(n.names))
            else (RepoPath(path).Ok? <==> LeadsBack(n)) && (RepoPath(path).Ok? ==> RepoPath(path).value == Absolute(Landing(n)))
  {
    ResolvedIff(path);
    RelativeLands(Trim(path));
    AbsoluteLands(Trim(path));
  }

  /** The same for a working directory, which may be anywhere when it is absolute. */
  lemma WorkDirAcceptedIff(cwd: string)
    requires Trim(cwd) != ""
    ensures var p := Trim(cwd); var n := Backward(Split(p, '/'), 0);
            && (WorkDir(cwd).Ok? <==> Rooted(p) || LeadsBack(n))
            && (WorkDir(cwd).Ok? ==> WorkDir(cwd).value == Absolute(if Rooted(p) then n.names else Landing(n)))
  {
    WorkDirIff(cwd);
    RelativeLands(Trim(cwd));
    AbsoluteLands(Trim(cwd));
  }

  lemma ParentNet(x: string)
    requires Proper(x) && Free(x, '/')
    ensures Backward(Split("../" + x, '/'), 0) == Net(1, [x])
  {
    assert "../" + x == ".." + "/" + x;
    SplitOne("..");
    SplitOne(x);
    hide Split;
    SplitTwo("..", x);
    var parts := [".."] + [x];
    assert parts[..1] == [".."] && [".."][..0] == [];
    assert Backward([".."], 0) == Net(1, []);
    assert [] + [x] == [x];
  }

  /** One step up and down again leaves the repository unless it is by its own name. */
  lemma ParentIff(x: string)
    requires Proper(x) && Free(x, '/') && Trim("../" + x) == "../" + x
    ensures RepoPath("../" + x).Ok? <==> x == "repo"
  {
    hide RepoPath, Trim, Split, Backward;
    AcceptedIff("../" + x);
    ParentNet(x);
    assert ["repo"] <= [x] <==> x == "repo" by {
      assert ["repo"][0] == "repo" && [x][0] == x;
    }
  }

  lemma ResultStack(path: string, q: string) returns (stack: seq<string>)
    requires RepoPath(path) == Ok(q)
    ensures Clear(stack) && stack != [] && ["workspace"] <= stack && q == Absolute(stack)
  {
    ResolvedIff(path);
    stack := Target(Trim(path));
  }

  lemma {:induction false} TrimShortens(s: string)
    ensures |Trim(s)| <= |s| && (Trim(s) != s ==> |Trim(s)| < |s|)
  {
    TrimLeftShortens(s);
    TrimRightShortens(TrimLeft(s));
  }

  lemma TrimLeftShortens(s: string)
    ensures |TrimLeft(s)| <= |s| && (TrimLeft(s) != s ==> |TrimLeft(s)| < |s|)
  {
  }

  lemma TrimRightShortens(s: string)
    ensures |TrimRight(s)| <= |s| && (TrimRight(s) != s ==> |TrimRight(s)| < |s|)
  {
  }

  /** How long an absolute path made of these components can be. */
  function Weight(parts: seq<string>): nat {
    if parts == [] then 0 else Weight(parts[..|parts| - 1]) + |parts[|parts| - 1]| + 1
  }

  lemma {:induction false} WeightIsLength(parts: seq<string>)
    requires parts != []
    ensures Weight(parts) == |Join(parts, '/')| + 1
  {
    var m := parts[..|parts| - 1];
    if m != [] {
      WeightIsLength(m);
      JoinAppend(m, [parts[|parts| - 1]]);
      assert m + [parts[|parts| - 1]] == parts;
    }
  }

  lemma {:induction false} WeightAppend(a: seq<string>, b: seq<string>)
    ensures Weight(a + b) == Weight(a) + Weight(b)
  {
    if b == [] {
      assert a + b == a;
    } else {
      assert (a + b)[..|a + b| - 1] == a + b[..|b| - 1];
      WeightAppend(a, b[..|b| - 1]);
    }
  }

  lemma {:induction false} WalkWeight(stack: seq<string>, parts: seq<string>)
    ensures Weight(Walk(stack, parts)) <= Weight(stack) + Weight(parts)
    decreases |parts|
  {
    if parts != [] {
      var next := Apply(stack, parts[0]);
      WalkWeight(next, parts[1..]);
      assert parts == [parts[0]] + parts[1..];
      WeightAppend([parts[0]], parts[1..]);
      assert [parts[0]][..0] == [];
      assert Weight([parts[0]]) == |parts[0]| + 1;
      assert (stack + [parts[0]])[..|stack|] == stack;
    }
  }

  /** Cleaning never lengthens. */
  lemma CleanShortens(p: string)
    requires Rooted(p)
    ensures |Clean(p)| <= |p|
  {
    var parts, stack := Split(p, '/'), StackOf(p);
    JoinSplit(p, '/');
    WeightIsLength(parts);
    assert p == "" + ['/'] + p[1..];
    SplitAt("", p[1..], '/');
    assert parts[0] == "" && Walk([], parts) == Walk([], parts[1..]);
    WalkWeight([], parts[1..]);
    assert parts == [""] + parts[1..];
    WeightAppend([""], parts[1..]);
    assert [""][..0] == [];
    if stack != [] {
      WeightIsLength(stack);
    }
  }

  /** Resolving a result again gives it back exactly when it has no white space at its ends. */
  lemma IdempotentIff(path: string, q: string)
    requires RepoPath(path) == Ok(q)
    ensures RepoPath(q) == Ok(q) <==> Trim(q) == q
  {
    var stack := ResultStack(path, q);
    CleanFixed(stack);
    Bases();
    UnderIff(["workspace"], stack);
    TrimShortens(q);
    if Trim(q) != q && Trim(q) != "" && RepoPath(q).Ok? {
      assert Rooted(Trim(q)) by {
        TrimRooted(q);
      }
      CleanShortens(Trim(q));
    }
  }

  lemma TrimRooted(q: string)
    requires Rooted(q)
    ensures Rooted(Trim(q))
  {
    assert TrimLeft(q) == q;
    TrimRightKeeps(q);
  }

  lemma {:induction false} TrimRightKeeps(s: string)
    requires s != "" && !IsSpace(s[0])
    ensures TrimRight(s) != "" && TrimRight(s)[0] == s[0]
  {
    if IsSpace(s[|s| - 1]) {
      TrimRightKeeps(s[..|s| - 1]);
    }
  }

  /** And such a result exists. */
  lemma NotIdempotent()
    ensures RepoPath("a /") == Ok("/workspace/repo/a ")
    ensures RepoPath("/workspace/repo/a ") == Ok("/workspace/repo/a")
  {
    hide RepoPath, Target, Trim, Absolute, Clear;
    SpaceTrims();
    SlashGoes();
    Whole();
    ResolvedIff("a /");
    ResolvedIff("/workspace/repo/a ");
    Named("a ", "/workspace/repo/a ");
    Named("a", "/workspace/repo/a");
  }

  lemma Named(part: string, abs: string)
    requires REPO + "/" + part == abs
    ensures Absolute(["workspace", "repo"] + [part]) == abs
  {
    DeeperAll([part]);
  }

  lemma SlashGoes()
    ensures Target("a /") == ["workspace", "repo"] + ["a "]
  {
    var base := ["workspace", "repo"];
    assert "a /" == "a " + ['/'] + "";
    SplitAt("a ", "", '/');
    assert Split("", '/') == [""];
    WalkProper(base, ["a "]);
    WalkAppend(base, ["a "], [""]);
    assert [""][1..] == [];
  }

  lemma TargetAbsolute(stack: seq<string>)
    requires Clear(stack) && stack != []
    ensures Target(Absolute(stack)) == stack
  {
    AbsoluteSplits(stack);
    assert ([""] + stack)[1..] == stack;
    assert Walk([], [""] + stack) == Walk([], stack);
    WalkProper([], stack);
    assert [] + stack == stack;
  }

  lemma Whole()
    ensures Target("/workspace/repo/a") == ["workspace", "repo"] + ["a"]
  {
    hide Target, Absolute;
    TargetAbsolute(["workspace", "repo"] + ["a"]);
    Named("a", "/workspace/repo/a");
  }

  /** Components below the repository root. */
  lemma DeeperAll(rest: seq<string>)
    requires rest != []
    ensures Absolute(["workspace", "repo"] + rest) == REPO + "/" + Join(rest, '/')
  {
    Bases();
    var base := ["workspace", "repo"];
    JoinAppend(base, rest);
    assert "/" + (Join(base, '/') + "/" + Join(rest, '/')) == "/" + Join(base, '/') + "/" + Join(rest, '/');
  }

  lemma SpaceTrims()
    ensures Trim("a /") == "a /" && Trim("/workspace/repo/a ") == "/workspace/repo/a"
  {
    assert "/workspace/repo/a "[..17] == "/workspace/repo/a";
    assert TrimRight("/workspace/repo/a") == "/workspace/repo/a";
  }

  /** A path is shown as it is named in the repository, the repository itself as ".", and any other in full. */
  lemma ShownAs(x: string, abs: string)
    ensures RelToRepo("/workspace/repo") == "." && RelToRepo("/workspace/repo/" + x) == x
    ensures abs != "/workspace/repo" && !("/workspace/repo/" <= abs) ==> RelToRepo(abs) == abs
  {
    assert REPO + "/" == "/workspace/repo/";
    assert ("/workspace/repo/" + x)[|REPO| + 1..] == x;
  }

  /** A displayed path resolves back to the path it displays exactly when it has no white space at its ends. */
  lemma DisplayedPathIff(path: string, q: string)
    requires RepoPath(path) == Ok(q)
    ensures RepoPath(RelToRepo(q)) == Ok(q) <==> Trim(RelToRepo(q)) == RelToRepo(q)
  {
    var stack := ResultStack(path, q);
    Bases();
    var base := ["workspace", "repo"];
    UnderIff(base, stack);
    if q == REPO {
      RepoItself();
    } else if REPO + "/" <= q {
      assert base <= stack;
      var rest := stack[|base|..];
      assert stack == base + rest;
      assert stack != base;
      DeeperAll(rest);
      InsideRepo(rest, q);
    } else {
      IdempotentIff(path, q);
    }
  }

  lemma RepoItself()
    ensures Trim(".") == "." && RepoPath(".") == Ok(REPO)
  {
    Bases();
    assert Trim(".") == ".";
    ResolvedIff(".");
    SplitAt(".", "", '/');
  }

  lemma InsideRepo(rest: seq<string>, q: string)
    requires Clear(rest) && rest != [] && q == REPO + "/" + Join(rest, '/')
    ensures var rel := Join(rest, '/'); RepoPath(rel) == Ok(q) <==> Trim(rel) == rel
  {
    var rel, base := Join(rest, '/'), ["workspace", "repo"];
    Bases();
    TrimShortens(rel);
    SplitJoin(rest, '/');
    NotRooted(rest);
    if Trim(rel) == rel {
      ResolvedIff(rel);
      WalkProper(base, rest);
      DeeperAll(rest);
    } else if Trim(rel) != "" {
      TrimmedResult(rel);
    }
  }

  lemma NotRooted(rest: seq<string>)
    requires Clear(rest) && rest != []
    ensures Join(rest, '/') != "" && !Rooted(Join(rest, '/'))
  {
    assert Free(rest[0], '/') && Proper(rest[0]);
    if |rest| > 1 {
      JoinCons(rest, '/');
    }
    assert Join(rest, '/')[0] == rest[0][0];
  }

  /** What a trimmed name resolves to is shorter than the untrimmed one under the same root. */
  lemma TrimmedResult(rel: string)
    requires Trim(rel) != "" && Trim(rel) != rel
    ensures RepoPath(rel).Ok? ==> |RepoPath(rel).value| < |REPO + "/" + rel|
  {
    TrimShortens(rel);
    var p := Trim(rel);
    if Rooted(p) {
      CleanShortens(p);
    } else {
      CleanShortens(REPO + "/" + p);
    }
  }
}
