/** The configuration snapshot: a generation-stamped cache in front of one table. */
module ConfigCache {
  import opened Prelude

  /** Setting keys to JSON-encoded values. */
  type Table = map<string, string>

  type LoadId = nat
  type WriteId = nat

  /** How long a snapshot is trusted, in milliseconds. */
  const TTL: nat := 30_000

  datatype State = State(snapshot: Option<Table>, loadedAt: nat, generation: nat)
  {
    predicate Hits(now: nat) {
      snapshot.Some? && now - loadedAt <= TTL
    }

    function Put(cfg: Table, gen: nat, now: nat): State {
      if generation != gen then this else State(Some(cfg), now, generation)
    }

    function Invalidated(): State {
      State(None, loadedAt, generation + 1)
    }
  }

  /** The cache itself. Each method is one critical section of its lock. */
  class Cache {
    var snapshot: Option<Table>
    var loadedAt: nat
    var generation: nat

    ghost function View(): State
      reads this
    {
      State(snapshot, loadedAt, generation)
    }

    constructor ()
      ensures View() == State(None, 0, 0)
    {
      snapshot, loadedAt, generation := None, 0, 0;
    }

    method Get(now: nat) returns (cfg: Option<Table>)
      ensures cfg == if View().Hits(now) then snapshot else None
    {
      if snapshot == None || now - loadedAt > TTL {
        return None;
      }
      cfg := snapshot;
    }

    method Begin() returns (gen: nat)
      ensures gen == View().generation
    {
      gen := generation;
    }

    method Put(cfg: Table, gen: nat, now: nat)
      modifies this
      ensures View() == old(View()).Put(cfg, gen, now)
    {
      if generation != gen {
        return;
      }
      snapshot := Some(cfg);
      loadedAt := now;
    }

    method Invalidate()
      modifies this
      ensures View() == old(View()).Invalidated()
    {
      snapshot := None;
      generation := generation + 1;
    }
  }

  // ---------------------------------------------------------------------------
  // Loads and writes in flight
  // ---------------------------------------------------------------------------

  /** Where a load stands. `at` is the number of committed writes its rows show. */
  datatype Phase =
    | Called
    | Missed
    | Begun(gen: nat)
    | Queried(gen: nat, at: nat, cfg: Table)
    | Returned(at: nat, cfg: Table)

  /** A load, with the writes whose invalidation had completed when it was called. */
  datatype Load = Load(floor: set<nat>, phase: Phase)

  /** `log` is every committed write, oldest first; a write is named by the length of the log
      after it. `at` is the name of the newest write the snapshot shows, `done` the writes whose
      invalidation has completed, `pending` the writes committed but not yet invalidated. */
  datatype System = System(
    log: seq<Table>, cache: State, at: nat, now: nat, loads: map<LoadId, Load>, pending: map<WriteId, nat>, done: set<nat>)

  datatype Action =
    | Call(l: LoadId)
    | Get(l: LoadId)
    | Begin(l: LoadId)
    | Query(l: LoadId)
    | Put(l: LoadId)
    | Commit(w: WriteId, values: Table)
    | Invalidate(w: WriteId)
    | Abandon(w: WriteId)
    | Tick

  /** The table after the first `n` writes. */
  function TableAt(log: seq<Table>, n: nat): Table
    requires n <= |log|
  {
    if n == 0 then map[] else TableAt(log, n - 1) + log[n - 1]
  }

  function At(s: System, l: LoadId, phase: Phase): System
    requires l in s.loads
  {
    s.(loads := s.loads[l := s.loads[l].(phase := phase)])
  }

  function Next(s: System, a: Action): Option<System> {
    match a
    case Call(l) => if l in s.loads then None else Some(s.(loads := s.loads[l := Load(s.done, Called)]))
    case Get(l) =>
      if l !in s.loads || s.loads[l].phase != Called then None
      else Some(At(s, l, if s.cache.Hits(s.now) then Returned(s.at, s.cache.snapshot.value) else Missed))
    case Begin(l) =>
      if l !in s.loads || s.loads[l].phase != Missed then None else Some(At(s, l, Begun(s.cache.generation)))
    case Query(l) =>
      if l !in s.loads || !s.loads[l].phase.Begun? then None
      else Some(At(s, l, Queried(s.loads[l].phase.gen, |s.log|, TableAt(s.log, |s.log|))))
    case Put(l) =>
      if l !in s.loads || !s.loads[l].phase.Queried? then None
      else
        var p := s.loads[l].phase;
        Some(At(s, l, Returned(p.at, p.cfg)).(
          cache := s.cache.Put(p.cfg, p.gen, s.now), at := if s.cache.generation == p.gen then p.at else s.at))
    case Commit(w, values) =>
      if w in s.pending then None
      else Some(s.(log := s.log + [values], pending := s.pending[w := |s.log| + 1]))
    case Invalidate(w) =>
      if w !in s.pending then None
      else Some(s.(cache := s.cache.Invalidated(), done := s.done + {s.pending[w]}, pending := s.pending - {w}))
    case Abandon(w) =>
      // Committed by another process, or an error after the commit: nothing invalidates it here.
      if w !in s.pending then None else Some(s.(pending := s.pending - {w}))
    case Tick => Some(s.(now := s.now + 1))
  }

  ghost predicate Behaviour(states: seq<System>, actions: seq<Action>) {
    && |states| == |actions| + 1
    && forall i :: 0 <= i < |actions| ==> Next(states[i], actions[i]) == Some(states[i + 1])
  }

  predicate Initial(s: System) {
    s == System([], State(None, 0, 0), 0, 0, map[], map[], {})
  }

  // ---------------------------------------------------------------------------
  // The invariant
  // ---------------------------------------------------------------------------

  /** A table that shows exactly the first `at` writes, among them all of `seen`. */
  ghost predicate Shows(log: seq<Table>, cfg: Table, at: nat, seen: set<nat>) {
    at <= |log| && cfg == TableAt(log, at) && forall j :: j in seen ==> j <= at
  }

  ghost predicate LoadOk(s: System, l: Load) {
    && l.floor <= s.done
    && match l.phase
       case Called | Missed => true
       case Begun(gen) => gen <= s.cache.generation
       case Queried(gen, at, cfg) =>
         gen <= s.cache.generation && Shows(s.log, cfg, at, if gen == s.cache.generation then s.done else l.floor)
       case Returned(at, cfg) => Shows(s.log, cfg, at, l.floor)
  }

  ghost predicate CacheOk(s: System) {
    s.cache.snapshot.Some? ==> Shows(s.log, s.cache.snapshot.value, s.at, s.done)
  }

  ghost predicate Inv(s: System) {
    && CacheOk(s)
    && (forall l :: l in s.loads ==> LoadOk(s, s.loads[l]))
    && (forall w :: w in s.pending ==> s.pending[w] <= |s.log|)
    && (forall j :: j in s.done ==> j <= |s.log|)
  }

  lemma TableGrows(log: seq<Table>, more: seq<Table>, n: nat)
    requires n <= |log|
    ensures TableAt(log + more, n) == TableAt(log, n)
  {
  }

  lemma ShowsGrows(log: seq<Table>, values: Table, cfg: Table, at: nat, seen: set<nat>)
    requires Shows(log, cfg, at, seen)
    ensures Shows(log + [values], cfg, at, seen)
  {
    TableGrows(log, [values], at);
  }

  lemma NextKeeps(s: System, a: Action)
    requires Inv(s) && Next(s, a).Some?
    ensures Inv(Next(s, a).value)
  {
    var t := Next(s, a).value;
    if a.Commit? {
      if s.cache.snapshot.Some? {
        ShowsGrows(s.log, a.values, s.cache.snapshot.value, s.at, s.done);
      }
      forall l | l in s.loads ensures LoadOk(t, t.loads[l]) {
        assert LoadOk(s, s.loads[l]);
        match s.loads[l].phase
        case Queried(gen, at, cfg) =>
          ShowsGrows(s.log, a.values, cfg, at, if gen == s.cache.generation then s.done else s.loads[l].floor);
        case Returned(at, cfg) => ShowsGrows(s.log, a.values, cfg, at, s.loads[l].floor);
        case _ =>
      }
    }
  }

  lemma {:induction false} Reachable(states: seq<System>, actions: seq<Action>, n: nat)
    requires Behaviour(states, actions) && Initial(states[0]) && n < |states|
    ensures Inv(states[n])
  {
    if n > 0 {
      Reachable(states, actions, n - 1);
      assert Next(states[n - 1], actions[n - 1]) == Some(states[n - 1 + 1]);
      NextKeeps(states[n - 1], actions[n - 1]);
    }
  }

  // ---------------------------------------------------------------------------
  // What the cache promises
  // ---------------------------------------------------------------------------

  /** Whatever has raced with whatever, a cached snapshot is the table as it stood after some
      write, at or after every write whose invalidation has completed. */
  lemma SnapshotIsCurrent(states: seq<System>, actions: seq<Action>, n: nat, j: nat)
    requires Behaviour(states, actions) && Initial(states[0]) && n < |states|
    requires states[n].cache.snapshot.Some? && j in states[n].done
    ensures exists k :: j <= k <= |states[n].log| && states[n].cache.snapshot == Some(TableAt(states[n].log, k))
  {
    Reachable(states, actions, n);
    assert j <= states[n].at <= |states[n].log|;
  }

  /** A load keeps the floor it was called with. */
  lemma {:induction false} FloorStays(states: seq<System>, actions: seq<Action>, i: nat, n: nat, l: LoadId)
    requires Behaviour(states, actions) && i < n < |states| && actions[i] == Call(l)
    ensures l in states[n].loads && states[n].loads[l].floor == states[i].done
  {
    assert Next(states[n - 1], actions[n - 1]) == Some(states[n - 1 + 1]);
    if i < n - 1 {
      FloorStays(states, actions, i, n - 1, l);
    }
  }

  /** A load called at step `i` that has returned by step `n` returned the table as it stood after
      some write, at or after every write invalidated before the call. */
  lemma LoadIsCurrent(states: seq<System>, actions: seq<Action>, i: nat, n: nat, l: LoadId, j: nat)
    requires Behaviour(states, actions) && Initial(states[0]) && i < n < |states| && actions[i] == Call(l)
    requires j in states[i].done && l in states[n].loads && states[n].loads[l].phase.Returned?
    ensures exists k :: j <= k <= |states[n].log| && states[n].loads[l].phase.cfg == TableAt(states[n].log, k)
  {
    Reachable(states, actions, n);
    FloorStays(states, actions, i, n, l);
    assert j <= states[n].loads[l].phase.at <= |states[n].log|;
  }

  /** Seen key by key: a value written and not overwritten since is the value read. */
  lemma {:induction false} ValueStands(log: seq<Table>, j: nat, k: nat, key: string)
    requires 1 <= j <= k <= |log| && key in log[j - 1]
    requires forall i :: j <= i < k ==> key !in log[i]
    ensures key in TableAt(log, k) && TableAt(log, k)[key] == log[j - 1][key]
  {
    if j < k {
      ValueStands(log, j, k - 1, key);
    }
  }

  /** The operator's case: the newest write of a key, once invalidated, is what every later load
      returns for it. */
  lemma ReadsOwnWrite(states: seq<System>, actions: seq<Action>, i: nat, n: nat, l: LoadId, j: nat, key: string)
    requires Behaviour(states, actions) && Initial(states[0]) && i < n < |states| && actions[i] == Call(l)
    requires j in states[i].done && l in states[n].loads && states[n].loads[l].phase.Returned?
    requires 1 <= j <= |states[n].log| && key in states[n].log[j - 1]
    requires forall m :: j <= m < |states[n].log| ==> key !in states[n].log[m]
    ensures var cfg := states[n].loads[l].phase.cfg; key in cfg && cfg[key] == states[n].log[j - 1][key]
  {
    LoadIsCurrent(states, actions, i, n, l, j);
    var k :| j <= k <= |states[n].log| && states[n].loads[l].phase.cfg == TableAt(states[n].log, k);
    ValueStands(states[n].log, j, k, key);
  }

  /** The generation counts completed invalidations. */
  function Invalidations(actions: seq<Action>, from: nat, to: nat): nat
    requires from <= to <= |actions|
  {
    if from == to then 0 else Invalidations(actions, from, to - 1) + if actions[to - 1].Invalidate? then 1 else 0
  }

  lemma {:induction false} GenerationCounts(states: seq<System>, actions: seq<Action>, from: nat, to: nat)
    requires Behaviour(states, actions) && from <= to < |states|
    ensures states[to].cache.generation == states[from].cache.generation + Invalidations(actions, from, to)
  {
    if from < to {
      GenerationCounts(states, actions, from, to - 1);
      assert Next(states[to - 1], actions[to - 1]) == Some(states[to - 1 + 1]);
    }
  }

  lemma {:induction false} GenStays(states: seq<System>, actions: seq<Action>, i: nat, n: nat, l: LoadId)
    requires Behaviour(states, actions) && i < n < |states| && actions[i] == Begin(l)
    ensures l in states[n].loads
    ensures var p := states[n].loads[l].phase;
            (p.Begun? || p.Queried? ==> p.gen == states[i].cache.generation) && p != Called && p != Missed
  {
    assert Next(states[n - 1], actions[n - 1]) == Some(states[n - 1 + 1]);
    if i < n - 1 {
      GenStays(states, actions, i, n - 1, l);
    }
  }

  /** A load's rows are installed exactly when no invalidation completed between its `begin` and
      its `put`; otherwise the cache is left as it was. */
  lemma InstalledIff(states: seq<System>, actions: seq<Action>, i: nat, n: nat, l: LoadId)
    requires Behaviour(states, actions) && i < n < |actions| && actions[i] == Begin(l) && actions[n] == Put(l)
    ensures l in states[n].loads && states[n].loads[l].phase.Queried?
    ensures Invalidations(actions, i, n) == 0 ==>
      states[n + 1].cache == State(Some(states[n].loads[l].phase.cfg), states[n].now, states[n].cache.generation)
    ensures Invalidations(actions, i, n) > 0 ==> states[n + 1].cache == states[n].cache
  {
    GenerationCounts(states, actions, i, n);
    GenStays(states, actions, i, n, l);
    assert Next(states[n], actions[n]) == Some(states[n + 1]);
  }

  /** Expiry bounds what invalidation does not reach, such as a commit by another process: a snapshot
      that still hits was put at most TTL ago. */
  lemma {:induction false} SnapshotWasPut(states: seq<System>, actions: seq<Action>, n: nat)
    requires Behaviour(states, actions) && Initial(states[0]) && n < |states| && states[n].cache.snapshot.Some?
    ensures exists m :: 0 <= m < n && actions[m].Put? && states[m].now == states[n].cache.loadedAt
                        && states[m + 1].cache.snapshot == states[n].cache.snapshot
  {
    assert Next(states[n - 1], actions[n - 1]) == Some(states[n - 1 + 1]);
    if states[n].cache == states[n - 1].cache {
      SnapshotWasPut(states, actions, n - 1);
    } else {
      assert actions[n - 1].Put?;
    }
  }

  /** Step `m` puts rows that no invalidation has overtaken. */
  ghost predicate Installs(states: seq<System>, actions: seq<Action>, m: nat)
    requires m < |actions| < |states|
  {
    && actions[m].Put? && actions[m].l in states[m].loads && states[m].loads[actions[m].l].phase.Queried?
    && states[m].loads[actions[m].l].phase.gen == states[m].cache.generation
  }

  /** Rows were put at step `m`, less than half a minute before step `n`, and nothing has been invalidated since. */
  ghost predicate FreshSince(states: seq<System>, actions: seq<Action>, m: nat, n: nat)
    requires n <= |actions| < |states|
  {
    m < n && Installs(states, actions, m) && (forall k :: m < k < n ==> !actions[k].Invalidate?)
    && states[n].now - states[m].now <= 30_000
  }

  /** What is held was put by some step since the last invalidation, at the time it carries. */
  lemma {:induction false} HeldWasPut(states: seq<System>, actions: seq<Action>, n: nat)
    requires Behaviour(states, actions) && Initial(states[0]) && n < |states| && states[n].cache.snapshot.Some?
    ensures exists m :: 0 <= m < n && Installs(states, actions, m) && states[m].now == states[n].cache.loadedAt
                        && forall k :: m < k < n ==> !actions[k].Invalidate?
  {
    assert Next(states[n - 1], actions[n - 1]) == Some(states[n - 1 + 1]);
    if states[n].cache == states[n - 1].cache {
      HeldWasPut(states, actions, n - 1);
    } else {
      assert Installs(states, actions, n - 1);
    }
  }

  /** What a step has put is held, or something newer is, until an invalidation. */
  lemma {:induction false} PutIsHeld(states: seq<System>, actions: seq<Action>, m: nat, n: nat)
    requires Behaviour(states, actions) && m < n < |states| && Installs(states, actions, m)
    requires forall k :: m < k < n ==> !actions[k].Invalidate?
    ensures states[n].cache.snapshot.Some? && states[m].now <= states[n].cache.loadedAt <= states[n].now
  {
    assert Next(states[n - 1], actions[n - 1]) == Some(states[n - 1 + 1]);
    if m < n - 1 {
      PutIsHeld(states, actions, m, n - 1);
    }
  }

  /** A load is answered from memory exactly when some load has put its rows since the last invalidation and at most
      thirty seconds ago; otherwise it goes on to the table. */
  lemma HitIff(states: seq<System>, actions: seq<Action>, n: nat, l: LoadId)
    requires Behaviour(states, actions) && Initial(states[0]) && n < |actions| && actions[n] == Get(l)
    ensures l in states[n + 1].loads
    ensures states[n + 1].loads[l].phase.Returned? <==> exists m :: FreshSince(states, actions, m, n)
    ensures !states[n + 1].loads[l].phase.Returned? ==> states[n + 1].loads[l].phase == Missed
    ensures states[n + 1].loads[l].phase.Returned? ==> Some(states[n + 1].loads[l].phase.cfg) == states[n].cache.snapshot
  {
    assert Next(states[n], actions[n]) == Some(states[n + 1]);
    if states[n].cache.Hits(states[n].now) {
      HeldWasPut(states, actions, n);
      var m :| 0 <= m < n && Installs(states, actions, m) && states[m].now == states[n].cache.loadedAt
               && forall k :: m < k < n ==> !actions[k].Invalidate?;
      assert FreshSince(states, actions, m, n);
    }
    if m :| FreshSince(states, actions, m, n) {
      PutIsHeld(states, actions, m, n);
    }
  }

  // ---------------------------------------------------------------------------
  // The store's methods
  // ---------------------------------------------------------------------------

  /** Loads and writes as they run, each critical section and statement one step of the system,
      with any number of others in between. */
  class Settings {
    const cache: Cache
    var table: Table
    var clock: nat

    ghost var sys: System
    ghost var past: seq<System>
    ghost var trace: seq<Action>

    ghost predicate History()
      reads this`sys, this`past, this`trace
    {
      Behaviour(past, trace) && Initial(past[0]) && past[|trace|] == sys
    }

    ghost predicate Coupled()
      reads this, cache
    {
      History() && sys.cache == cache.View() && table == TableAt(sys.log, |sys.log|) && clock == sys.now
    }

    constructor ()
      ensures Coupled() && fresh(cache)
    {
      cache := new Cache();
      table, clock := map[], 0;
      sys := System([], State(None, 0, 0), 0, 0, map[], map[], {});
      past, trace := [System([], State(None, 0, 0), 0, 0, map[], map[], {})], [];
    }

    ghost method Record(a: Action)
      requires History() && Next(sys, a).Some?
      modifies this`sys, this`past, this`trace
      ensures History() && sys == Next(old(sys), a).value
      ensures trace == old(trace) + [a]
    {
      sys := Next(sys, a).value;
      past, trace := past + [sys], trace + [a];
      forall i | 0 <= i < |trace| ensures Next(past[i], trace[i]) == Some(past[i + 1]) {
        if i < |trace| - 1 {
          assert Next(old(past)[i], old(trace)[i]) == Some(old(past)[i + 1]);
        }
      }
    }

    /** Other requests and time go on; load `l` and write `w` stay where they are. */
    method Elsewhere(ghost l: Option<LoadId>, ghost w: Option<WriteId>)
      requires Coupled()
      modifies this, cache
      ensures Coupled() && old(sys.log) <= sys.log
      ensures l.Some? && l.value in old(sys.loads) ==> l.value in sys.loads && sys.loads[l.value] == old(sys.loads)[l.value]
      ensures l.Some? && l.value !in old(sys.loads) ==> l.value !in sys.loads
      ensures w.Some? && w.value in old(sys.pending) ==> w.value in sys.pending && sys.pending[w.value] == old(sys.pending)[w.value]
      ensures w.Some? && w.value !in old(sys.pending) ==> w.value !in sys.pending
    {
    }

    /** Any moment the database may be unreachable. */
    method Unreachable() returns (b: bool) {
      b := *;
    }

    /** `l` names this call. What comes back shows every write invalidated before it began. */
    method LoadConfig(ghost l: LoadId) returns (cfg: Option<Table>)
      requires Coupled() && l !in sys.loads
      modifies this, cache
      ensures Coupled() && l in sys.loads
      ensures cfg.Some? ==> exists at :: Shows(sys.log, cfg.value, at, old(sys.done))
      ensures cfg.Some? ==> sys.loads[l].phase.Returned? && sys.loads[l].phase.cfg == cfg.value
      ensures cfg == None ==> sys.loads[l].phase.Begun?
    {
      hide History, TableAt;
      ghost var floor := sys.done;
      Record(Call(l));
      Elsewhere(Some(l), None);
      cfg := cache.Get(clock);
      Record(Action.Get(l));
      if cfg.Some? {
        Returns(l);
        return;
      }
      cfg := Reload(l);
    }

    /** A miss: the generation first, then the rows. */
    method Reload(ghost l: LoadId) returns (cfg: Option<Table>)
      requires Coupled() && l in sys.loads && sys.loads[l].phase == Missed
      modifies this, cache
      ensures Coupled() && l in sys.loads
      ensures cfg.Some? ==> exists at :: Shows(sys.log, cfg.value, at, old(sys.loads)[l].floor)
      ensures cfg.Some? ==> sys.loads[l].phase.Returned? && sys.loads[l].phase.cfg == cfg.value
      ensures cfg == None ==> sys.loads[l].phase.Begun?
    {
      hide History, TableAt;
      Elsewhere(Some(l), None);
      var gen := cache.Begin();
      Record(Action.Begin(l));
      Elsewhere(Some(l), None);
      var down := Unreachable();
      if down {
        return None;
      }
      var rows := table;
      Record(Query(l));
      Install(l, rows, gen);
      cfg := Some(rows);
    }

    /** The put, some time after the query. */
    method Install(ghost l: LoadId, rows: Table, gen: nat)
      requires Coupled() && l in sys.loads
      requires var p := sys.loads[l].phase; p.Queried? && p.gen == gen && p.cfg == rows
      modifies this, cache
      ensures Coupled() && l in sys.loads && sys.loads[l].phase.Returned? && sys.loads[l].phase.cfg == rows
      ensures exists at :: Shows(sys.log, rows, at, old(sys.loads)[l].floor)
    {
      hide History, TableAt;
      Elsewhere(Some(l), None);
      cache.Put(rows, gen, clock);
      Record(Action.Put(l));
      Returns(l);
    }

    lemma Returns(l: LoadId)
      requires History() && l in sys.loads && sys.loads[l].phase.Returned?
      ensures Shows(sys.log, sys.loads[l].phase.cfg, sys.loads[l].phase.at, sys.loads[l].floor)
    {
      Reachable(past, trace, |trace|);
    }

    /** The newest write of `values` that this call may have made: in the log, and invalidated. */
    ghost predicate Wrote(from: nat, values: Table)
      reads this`sys
    {
      exists j :: from < j <= |sys.log| && sys.log[j - 1] == values && j in sys.done
    }

    /** The commit, then the invalidation, never the other way round. */
    method CommitThenInvalidate(values: Table, ghost w: WriteId)
      requires Coupled() && w !in sys.pending
      modifies this, cache
      ensures Coupled() && Wrote(|old(sys.log)|, values)
    {
      hide History;
      Elsewhere(None, Some(w));
      ghost var before := sys.log;
      table := table + values;
      Record(Commit(w, values));
      ghost var j := |sys.log|;
      TableGrows(before, [values], |before|);
      Elsewhere(None, Some(w));
      cache.Invalidate();
      Record(Action.Invalidate(w));
      assert sys.log[j - 1] == values;
    }

    /** One upsert. */
    method SetConfig(key: string, value: Option<string>, ghost w: WriteId) returns (ok: bool)
      requires Coupled() && w !in sys.pending
      modifies this, cache
      ensures Coupled()
      ensures ok ==> value.Some? && Wrote(|old(sys.log)|, map[key := value.value])
      ensures value == None ==> !ok && trace == old(trace)
    {
      hide History;
      if value == None {
        return false;
      }
      var down := Unreachable();
      if down {
        return false;
      }
      CommitThenInvalidate(map[key := value.value], w);
      ok := true;
    }

    /** All of the values in one write, or, when one has no encoding, none of them. */
    method SetConfigValues(values: map<string, Option<string>>, ghost w: WriteId) returns (ok: bool)
      requires Coupled() && w !in sys.pending
      modifies this, cache
      ensures Coupled()
      ensures values == map[] ==> ok && trace == old(trace)
      ensures (exists key :: key in values && values[key] == None) ==> !ok && trace == old(trace)
      ensures ok && values != map[] ==>
                Wrote(|old(sys.log)|, map key | key in values && values[key].Some? :: values[key].value)
    {
      hide History;
      if values == map[] {
        return true;
      }
      var staged: Table := map[];
      var todo := values.Keys;
      while todo != {}
        invariant todo <= values.Keys
        invariant staged.Keys == values.Keys - todo
        invariant forall key :: key in staged ==> values[key] == Some(staged[key])
        decreases todo
      {
        var key :| key in todo;
        if values[key] == None {
          return false;
        }
        staged := staged[key := values[key].value];
        todo := todo - {key};
      }
      assert staged == map key | key in values && values[key].Some? :: values[key].value;
      var down := Unreachable();
      if down {
        return false;
      }
      CommitThenInvalidate(staged, w);
      ok := true;
    }
  }
}
