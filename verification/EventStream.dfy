/** One browser following one project's events over any number of connections. */
module EventStream {
  import opened Prelude
  import opened EventHub

  /** A connection: whether the replay is over, the ids written and not yet received, and the ids
      queued at the hub. Id 0 is a frame that was never persisted. */
  datatype Conn = Offline | Open(replayed: bool, wire: seq<nat>, queue: seq<nat>)

  /** `pending` is the ids appended and not yet published, `pub` the newest id published, `last`
      the browser's Last-Event-ID, `first` the first id it ever had, `got` the ids it has received.
      `base` is the newest id published when the browser last joined with nothing to resume from. */
  datatype System = System(
    project: ProjectId, rows: seq<Row>, pending: seq<nat>, pub: nat, nextId: nat, conn: Conn,
    last: Option<nat>, first: Option<nat>, got: set<nat>, base: nat)
  {
    function Missed(): seq<Row> {
      if last == None then [] else Above(rows, project, last.value)
    }

    /** Nothing will be replayed any more on this connection. */
    predicate Settled() {
      conn.Open? && (conn.replayed || last == None)
    }

    function Stream(): seq<nat> {
      if conn.Open? then conn.wire + conn.queue else []
    }
  }

  datatype Action =
    | Append(p: ProjectId, kind: string, data: string)
    | Publish
    | Delta
    | Connect
    | Replay
    | ReplayFails
    | Deliver
    | Receive
    | Disconnect
    | Forget(ids: set<nat>)

  function Ids(rows: seq<Row>): (out: seq<nat>)
    ensures |out| == |rows| && forall i :: 0 <= i < |rows| ==> out[i] == rows[i].id
  {
    seq(|rows|, i requires 0 <= i < |rows| => rows[i].id)
  }

  function Queued(s: System, id: nat): System {
    if s.conn.Offline? then s else s.(conn := s.conn.(queue := Offer(s.conn.queue, id)))
  }

  /** The rows not deleted, in their order. */
  function Keep(rows: seq<Row>, ids: set<nat>): seq<Row> {
    Filter(rows, (r: Row) => r.id !in ids)
  }

  function Next(s: System, a: Action): Option<System> {
    match a
    case Append(p, kind, data) =>
      Some(s.(rows := s.rows + [Row(s.nextId, p, kind, data)], pending := s.pending + [s.nextId], nextId := s.nextId + 1))
    case Publish =>
      // Ids are published in the order they were appended.
      if s.pending == [] then None
      else Some(Queued(s, s.pending[0]).(pending := s.pending[1..], pub := s.pending[0]))
    case Delta => Some(Queued(s, 0))
    case Connect =>
      if s.conn.Open? then None
      else Some(s.(conn := Open(false, [], []), base := if s.last == None then s.pub else s.base))
    case Replay =>
      if !s.conn.Open? || s.conn.replayed then None
      else Some(s.(conn := s.conn.(replayed := true, wire := Ids(Take(s.Missed(), REPLAY_LIMIT)))))
    case ReplayFails =>
      // No active project, or the query failed: the stream goes live all the same.
      if !s.conn.Open? || s.conn.replayed then None
      else Some(s.(conn := s.conn.(replayed := true)))
    case Deliver =>
      if !s.conn.Open? || !s.conn.replayed || s.conn.queue == [] then None
      else Some(s.(conn := s.conn.(wire := s.conn.wire + [s.conn.queue[0]], queue := s.conn.queue[1..])))
    case Receive =>
      if !s.conn.Open? || s.conn.wire == [] then None
      else
        var x, t := s.conn.wire[0], s.(conn := s.conn.(wire := s.conn.wire[1..]));
        Some(if x == 0 then t
             else t.(last := Some(x), got := s.got + {x}, first := if s.first == None then Some(x) else s.first))
    case Disconnect => if s.conn.Offline? then None else Some(s.(conn := Offline))
    case Forget(ids) => Some(s.(rows := Keep(s.rows, ids)))
  }

  ghost predicate Behaviour(states: seq<System>, actions: seq<Action>) {
    && |states| == |actions| + 1
    && forall i :: 0 <= i < |actions| ==> Next(states[i], actions[i]) == Some(states[i + 1])
  }

  predicate Initial(s: System) {
    s == System(s.project, [], [], 0, 1, Offline, None, None, {}, 0)
  }

  // ---------------------------------------------------------------------------
  // The invariant
  // ---------------------------------------------------------------------------

  /** Ids grow; what is published comes before what is pending. */
  ghost predicate IdsOk(s: System) {
    && s.base <= s.pub < s.nextId
    && (forall i, j :: 0 <= i < j < |s.pending| ==> s.pending[i] < s.pending[j])
    && (forall i :: 0 <= i < |s.pending| ==> s.pub < s.pending[i] < s.nextId)
    && (forall r :: r in s.rows ==> 0 < r.id < s.nextId && (r.id <= s.pub || r.id in s.pending))
  }

  /** The rows this browser is due: of its project, and newer than its first connection. */
  function Due(s: System): set<nat> {
    set r | r in s.rows && r.project == s.project && r.id > s.base :: r.id
  }

  /** Every due row has been received, is on its way, or is not published yet. */
  ghost predicate Held(due: set<nat>, got: set<nat>, stream: seq<nat>, pub: nat) {
    forall y :: y in due ==> y in got || y in stream || y > pub
  }

  /** Every due row up to the browser's resume point has been received. */
  ghost predicate Resumes(due: set<nat>, got: set<nat>, last: Option<nat>) {
    last.Some? ==> forall y :: y in due && y <= last.value ==> y in got
  }

  /** Nothing newer than `y` arrives before `y` does. */
  ghost predicate Ahead(stream: seq<nat>, got: set<nat>, y: nat) {
    forall i :: 0 <= i < |stream| && y < stream[i] ==> y in got || y in stream[..i]
  }

  /** The browser is still going to get row `y`: the resume point has not passed it, and nothing on a
      settled connection has. */
  ghost predicate Safe(s: System, y: nat) {
    && (s.last.Some? && y <= s.last.value ==> y in s.got)
    && (s.Settled() ==> (y in s.got || y in s.Stream() || y > s.pub) && Ahead(s.Stream(), s.got, y))
  }

  /** The step drops row `y`: its frame meets a full queue, or the replay ends without it, and the browser
      neither has it nor has it on its way. */
  ghost predicate Loses(s: System, a: Action, y: nat) {
    && y !in s.got && y !in s.Stream()
    && match a
       case Publish => s.pending != [] && s.pending[0] == y && s.Settled() && |s.conn.queue| >= SUBSCRIBER_BUFFER
       case Replay => s.last.Some? && y <= s.pub && y !in Ids(Take(s.Missed(), REPLAY_LIMIT))
       case ReplayFails => s.last.Some? && y <= s.pub
       case _ => false
  }

  ghost predicate SeenOk(s: System) {
    && (s.last == None <==> s.first == None)
    && (s.last.Some? ==> s.base < s.last.value < s.nextId && s.base < s.first.value < s.nextId)
    && (s.conn.Open? && !s.conn.replayed ==> s.conn.wire == [])
    && (forall x :: x in s.Stream() && x > 0 ==> s.base < x < s.nextId)
  }

  /** Published rows are queued in id order. */
  ghost predicate QueueOk(s: System) {
    s.conn.Open? ==>
      && (forall i, j :: 0 <= i < j < |s.conn.queue| && s.conn.queue[j] > 0 ==> s.conn.queue[i] < s.conn.queue[j])
      && (forall i :: 0 <= i < |s.conn.queue| ==> s.conn.queue[i] <= s.pub)
  }

  ghost predicate Sound(s: System) {
    IdsOk(s) && SeenOk(s) && QueueOk(s) && Ascending(s.rows)
  }

  /** No row is out of reach before it is published. */
  ghost predicate Inv(s: System) {
    Sound(s) && forall y :: y in Due(s) && y > s.pub ==> Safe(s, y)
  }

  // ---------------------------------------------------------------------------
  // Every step keeps a row within reach unless it loses it
  // ---------------------------------------------------------------------------

  lemma AheadPush(stream: seq<nat>, got: set<nat>, y: nat, x: nat)
    requires Ahead(stream, got, y) && (y < x ==> y in got || y in stream)
    ensures Ahead(stream + [x], got, y)
  {
    forall i | 0 <= i < |stream + [x]| && y < (stream + [x])[i] ensures y in got || y in (stream + [x])[..i] {
      assert (stream + [x])[..i] == stream[..i];
    }
  }

  lemma AheadPop(x: nat, rest: seq<nat>, got: set<nat>, y: nat)
    requires Ahead([x] + rest, got, y)
    ensures Ahead(rest, got + {x}, y) && (y < x ==> y in got) && (x != y ==> Ahead(rest, got, y))
  {
    var stream := [x] + rest;
    assert stream[0] == x && stream[..0] == [];
    forall i | 0 <= i < |rest| && y < rest[i] ensures y in got + {x} || y in rest[..i] {
      assert stream[i + 1] == rest[i] && stream[..i + 1] == [x] + rest[..i];
    }
  }

  lemma PublishSafe(s: System, y: nat)
    requires Sound(s) && s.pending != [] && y in Due(s) && Safe(s, y)
    ensures Safe(Next(s, Publish).value, y) <==> !Loses(s, Publish, y)
  {
    var t, x := Next(s, Publish).value, s.pending[0];
    PublishedOrAfter(s, y);
    if s.conn.Open? && |s.conn.queue| < SUBSCRIBER_BUFFER {
      assert t.Stream() == s.Stream() + [x];
      if s.Settled() {
        AheadPush(s.Stream(), s.got, y, x);
      }
    } else {
      assert t.Stream() == s.Stream();
    }
  }

  /** A due row is published already, is the next to be, or comes after that. */
  lemma PublishedOrAfter(s: System, y: nat)
    requires IdsOk(s) && s.pending != [] && y in Due(s)
    ensures y <= s.pub || y >= s.pending[0]
  {
    if y in s.pending {
      var i :| 0 <= i < |s.pending| && s.pending[i] == y;
    }
  }

  lemma DeltaSafe(s: System, y: nat)
    requires Sound(s) && y in Due(s) && Safe(s, y)
    ensures Safe(Next(s, Delta).value, y)
  {
    var t := Next(s, Delta).value;
    if s.conn.Open? && |s.conn.queue| < SUBSCRIBER_BUFFER {
      assert t.Stream() == s.Stream() + [0];
      if s.Settled() {
        AheadPush(s.Stream(), s.got, y, 0);
      }
    } else {
      assert t.Stream() == s.Stream();
    }
  }

  lemma DueMissed(s: System)
    requires s.last.Some?
    ensures forall y :: y in Due(s) && y > s.last.value ==> y in Ids(s.Missed())
  {
    forall y | y in Due(s) && y > s.last.value ensures y in Ids(s.Missed()) {
      var r :| r in s.rows && r.project == s.project && r.id > s.base && r.id == y;
      var k :| 0 <= k < |s.Missed()| && s.Missed()[k] == r;
      assert Ids(s.Missed())[k] == y;
    }
  }

  /** In a list of ids in order, everything before `y` is smaller, and everything is when `y` was cut off. */
  lemma SentBefore(missed: seq<Row>, n: nat, y: nat, i: nat)
    requires Ascending(missed) && y in Ids(missed) && i < |Take(missed, n)| && y < Ids(Take(missed, n))[i]
    ensures y in Ids(Take(missed, n))[..i]
  {
    var k :| 0 <= k < |missed| && Ids(missed)[k] == y;
    assert missed[k].id == y && missed[i].id > y;
    assert k < i;
    assert Ids(Take(missed, n))[..i][k] == y;
  }

  lemma QueueAhead(queue: seq<nat>, got: set<nat>, y: nat)
    requires forall i, j :: 0 <= i < j < |queue| && queue[j] > 0 ==> queue[i] < queue[j]
    requires y > 0 && (y in queue || forall i :: 0 <= i < |queue| ==> queue[i] <= y)
    ensures Ahead(queue, got, y)
  {
    if y in queue {
      var k :| 0 <= k < |queue| && queue[k] == y;
      forall i | 0 <= i < |queue| && y < queue[i] ensures y in queue[..i] {
        assert k < i;
        assert queue[..i][k] == y;
      }
    }
  }

  lemma AheadJoin(a: seq<nat>, b: seq<nat>, got: set<nat>, y: nat)
    requires Ahead(a, got, y) && (y in a || Ahead(b, got, y))
    ensures Ahead(a + b, got, y)
  {
    forall i | 0 <= i < |a + b| && y < (a + b)[i] ensures y in got || y in (a + b)[..i] {
      if i < |a| {
        assert (a + b)[..i] == a[..i];
      } else {
        assert (a + b)[..i] == a + b[..i - |a|];
      }
    }
  }

  /** A connection goes live after a replay that wrote the first rows missed, or none. */
  lemma LiveSafe(s: System, t: System, n: nat, y: nat)
    requires Sound(s) && s.conn.Open? && !s.conn.replayed && s.last.Some? && y in Due(s) && Safe(s, y)
    requires t == s.(conn := s.conn.(replayed := true, wire := Ids(Take(s.Missed(), n))))
    ensures Safe(t, y) <==> y in s.got || y in s.conn.queue || y in t.conn.wire || y > s.pub
  {
    var wire, queue := t.conn.wire, s.conn.queue;
    assert t.Stream() == wire + queue;
    if y !in s.got {
      DueMissed(s);
      AboveAscending(s.rows, s.project, s.last.value);
      assert Ahead(wire, s.got, y) by {
        forall i | 0 <= i < |wire| && y < wire[i] ensures y in wire[..i] {
          SentBefore(s.Missed(), n, y, i);
        }
      }
      if y in queue || y > s.pub {
        QueueAhead(queue, s.got, y);
      }
      if y in wire || y in queue || y > s.pub {
        AheadJoin(wire, queue, s.got, y);
      }
    }
  }

  lemma ReplaySafe(s: System, y: nat)
    requires Sound(s) && Next(s, Replay).Some? && y in Due(s) && Safe(s, y)
    ensures Safe(Next(s, Replay).value, y) <==> !Loses(s, Replay, y)
  {
    if s.last.Some? {
      LiveSafe(s, Next(s, Replay).value, REPLAY_LIMIT, y);
      assert s.Stream() == s.conn.queue;
    } else {
      assert Next(s, Replay).value.Stream() == s.Stream();
    }
  }

  lemma ReplayFailsSafe(s: System, y: nat)
    requires Sound(s) && Next(s, ReplayFails).Some? && y in Due(s) && Safe(s, y)
    ensures Safe(Next(s, ReplayFails).value, y) <==> !Loses(s, ReplayFails, y)
  {
    var t := Next(s, ReplayFails).value;
    assert t.Stream() == s.Stream();
    if s.last.Some? {
      assert Ids(Take(s.Missed(), 0)) == [];
      LiveSafe(s, t, 0, y);
      assert s.Stream() == s.conn.queue;
    }
  }

  lemma ReceiveSafe(s: System, y: nat)
    requires Sound(s) && Next(s, Receive).Some? && y in Due(s) && Safe(s, y)
    ensures Safe(Next(s, Receive).value, y)
  {
    var t, x := Next(s, Receive).value, s.conn.wire[0];
    assert s.Stream() == [x] + t.Stream();
    AheadPop(x, t.Stream(), s.got, y);
  }

  /** A step keeps a due row within the browser's reach if and only if it does not lose it. */
  lemma SafeIff(s: System, a: Action, y: nat)
    requires Sound(s) && Next(s, a).Some? && y in Due(s) && y in Due(Next(s, a).value) && Safe(s, y)
    ensures Safe(Next(s, a).value, y) <==> !Loses(s, a, y)
  {
    hide Sound, Ahead;
    var t := Next(s, a).value;
    match a
    case Publish => PublishSafe(s, y);
    case Delta => DeltaSafe(s, y);
    case Replay => ReplaySafe(s, y);
    case ReplayFails => ReplayFailsSafe(s, y);
    case Receive => ReceiveSafe(s, y);
    case Deliver => assert t.Stream() == s.Stream();
    case Connect => ConnectSafe(s, y);
    case _ =>
      assert t.conn == Offline || t.Stream() == s.Stream();
  }

  lemma ConnectSafe(s: System, y: nat)
    requires Next(s, Connect).Some? && y in Due(Next(s, Connect).value) && Safe(s, y)
    ensures Safe(Next(s, Connect).value, y)
  {
    assert Next(s, Connect).value.Stream() == [];
  }

  // ---------------------------------------------------------------------------
  // The invariant is kept
  // ---------------------------------------------------------------------------

  lemma RowsAscend(s: System, a: Action)
    requires IdsOk(s) && Ascending(s.rows) && Next(s, a).Some?
    ensures Ascending(Next(s, a).value.rows)
  {
    if a.Forget? {
      FilterAscending(s.rows, (r: Row) => r.id !in a.ids);
    } else if a.Append? {
      assert forall i :: 0 <= i < |s.rows| ==> s.rows[i] in s.rows;
    }
  }

  lemma PublishIds(s: System)
    requires IdsOk(s) && s.pending != []
    ensures IdsOk(Next(s, Publish).value) && s.pub <= Next(s, Publish).value.pub
  {
    forall r | r in s.rows && r.id in s.pending && r.id != s.pending[0] ensures r.id in s.pending[1..] {
      var i :| 0 <= i < |s.pending| && s.pending[i] == r.id;
      assert s.pending[1..][i - 1] == r.id;
    }
  }

  lemma IdsKeep(s: System, a: Action)
    requires IdsOk(s) && Next(s, a).Some?
    ensures IdsOk(Next(s, a).value) && s.pub <= Next(s, a).value.pub && s.base <= Next(s, a).value.base
  {
    if a == Publish {
      PublishIds(s);
    }
  }

  lemma QueueKeeps(s: System, a: Action)
    requires IdsOk(s) && QueueOk(s) && Next(s, a).Some?
    ensures QueueOk(Next(s, a).value)
  {
  }

  lemma ReplayBounds(s: System, sent: seq<Row>)
    requires IdsOk(s) && SeenOk(s) && s.last.Some? && sent <= s.Missed()
    ensures forall x :: x in Ids(sent) ==> s.base < x < s.nextId
  {
    forall x | x in Ids(sent) ensures s.base < x < s.nextId {
      var k :| 0 <= k < |sent| && Ids(sent)[k] == x;
      assert sent[k] == s.Missed()[k];
      assert sent[k] in s.Missed();
    }
  }

  lemma ReceiveSeen(s: System)
    requires IdsOk(s) && SeenOk(s) && Next(s, Receive).Some?
    ensures SeenOk(Next(s, Receive).value)
  {
    var t, x := Next(s, Receive).value, s.conn.wire[0];
    assert s.Stream() == [x] + t.Stream();
    assert x in s.Stream();
    assert forall y :: y in t.Stream() ==> y in s.Stream();
  }

  lemma PublishSeen(s: System, a: Action)
    requires IdsOk(s) && SeenOk(s) && Next(s, a).Some? && (a == Publish || a == Delta)
    ensures SeenOk(Next(s, a).value)
  {
    var t := Next(s, a).value;
    assert forall x :: x in t.Stream() ==> x in s.Stream() || x == 0 || (a == Publish && x == s.pending[0]);
  }

  lemma ReplaySeen(s: System)
    requires IdsOk(s) && SeenOk(s) && Next(s, Replay).Some?
    ensures SeenOk(Next(s, Replay).value)
  {
    var t := Next(s, Replay).value;
    if s.last.Some? {
      ReplayBounds(s, Take(s.Missed(), REPLAY_LIMIT));
    }
    assert forall x :: x in t.Stream() ==> x in t.conn.wire || x in s.Stream();
  }

  lemma SeenKeeps(s: System, a: Action)
    requires IdsOk(s) && SeenOk(s) && Next(s, a).Some?
    ensures SeenOk(Next(s, a).value)
  {
    var t := Next(s, a).value;
    match a
    case Replay => ReplaySeen(s);
    case Publish => PublishSeen(s, a);
    case Delta => PublishSeen(s, a);
    case Receive => ReceiveSeen(s);
    case _ =>
      assert t.Stream() == [] || t.Stream() == s.Stream();
  }

  /** A row only becomes due when it is appended. */
  lemma DueStep(s: System, a: Action, y: nat)
    requires IdsOk(s) && Next(s, a).Some? && y in Due(Next(s, a).value)
    ensures y in Due(s) || (a.Append? && y == s.nextId)
  {
    IdsKeep(s, a);
  }

  /** A row is within reach when it is appended. */
  lemma NewIsSafe(s: System, a: Action)
    requires Sound(s) && a.Append?
    ensures Safe(Next(s, a).value, s.nextId)
  {
    var t := Next(s, a).value;
    assert t.Stream() == s.Stream();
    assert forall i :: 0 <= i < |s.Stream()| ==> s.Stream()[i] in s.Stream();
  }

  lemma SoundKeeps(s: System, a: Action)
    requires Sound(s) && Next(s, a).Some?
    ensures Sound(Next(s, a).value)
  {
    hide IdsOk, SeenOk, QueueOk, Ascending, Next;
    IdsKeep(s, a);
    SeenKeeps(s, a);
    QueueKeeps(s, a);
    RowsAscend(s, a);
  }

  lemma UnpublishedStaysSafe(s: System, a: Action, y: nat)
    requires Inv(s) && Next(s, a).Some? && y in Due(Next(s, a).value) && y > Next(s, a).value.pub
    ensures Safe(Next(s, a).value, y)
  {
    IdsGrow(s, a);
    DueStep(s, a, y);
    hide Sound, Safe, Due, IdsOk, Next;
    if y in Due(s) {
      SafeIff(s, a, y);
      if Loses(s, a, y) {
        PublishedIsNotLost(s, a, y);
      }
    } else {
      NewIsSafe(s, a);
    }
  }

  lemma NextKeeps(s: System, a: Action)
    requires Inv(s) && Next(s, a).Some?
    ensures Inv(Next(s, a).value)
  {
    var t := Next(s, a).value;
    SoundKeeps(s, a);
    forall y | y in Due(t) && y > t.pub ensures Safe(t, y) {
      UnpublishedStaysSafe(s, a, y);
    }
  }

  lemma IdsGrow(s: System, a: Action)
    requires Sound(s) && Next(s, a).Some?
    ensures s.pub <= Next(s, a).value.pub
  {
  }

  lemma PublishedIsNotLost(s: System, a: Action, y: nat)
    requires Next(s, a).Some? && Loses(s, a, y)
    ensures y <= Next(s, a).value.pub
  {
  }

  lemma {:induction false} Reachable(states: seq<System>, actions: seq<Action>, n: nat)
    requires Behaviour(states, actions) && Initial(states[0]) && n < |states|
    ensures Inv(states[n])
  {
    if n > 0 {
      Reachable(states, actions, n - 1);
      assert Next(states[n - 1], actions[n - 1]) == Some(states[n - 1 + 1]);
      NextKeeps(states[n - 1], actions[n - 1]);
    }
  }

  // ---------------------------------------------------------------------------
  // No gap
  // ---------------------------------------------------------------------------

  /** A row of the project that is not older than the first id the browser had. */
  predicate Owed(s: System, r: Row) {
    s.first.Some? && s.last.Some? && r in s.rows && r.project == s.project && r.id >= s.first.value
  }

  /** None of the first `n` steps loses row `y`. */
  ghost predicate Spared(states: seq<System>, actions: seq<Action>, n: nat, y: nat)
    requires n <= |actions| < |states|
  {
    forall k :: 0 <= k < n ==> !Loses(states[k], actions[k], y)
  }

  lemma SafeStep(s: System, a: Action, t: System, y: nat)
    requires Inv(s) && Next(s, a) == Some(t) && !Loses(s, a, y) && y in Due(t) && (y in Due(s) ==> Safe(s, y))
    ensures Safe(t, y)
  {
    DueStep(s, a, y);
    hide Safe, Due, IdsOk, Next, Loses;
    if y in Due(s) {
      SafeIff(s, a, y);
    } else {
      NewIsSafe(s, a);
    }
  }

  lemma {:induction false} StaysSafe(states: seq<System>, actions: seq<Action>, n: nat, y: nat)
    requires Behaviour(states, actions) && Initial(states[0]) && n < |states| && Spared(states, actions, n, y)
    ensures y in Due(states[n]) ==> Safe(states[n], y)
  {
    if n > 0 {
      StaysSafe(states, actions, n - 1, y);
      Reachable(states, actions, n - 1);
      assert Next(states[n - 1], actions[n - 1]) == Some(states[n - 1 + 1]);
      assert !Loses(states[n - 1], actions[n - 1], y);
      hide Inv, Safe, Due, Next, Loses, Initial;
      if y in Due(states[n]) {
        SafeStep(states[n - 1], actions[n - 1], states[n], y);
      }
    }
  }

  /** Over any sequence of connections, a row owed that no step lost: on a settled connection it has been
      received, is written or queued, or is not published yet; at any other moment it has been received or
      is above the resume point, from which the next replay starts. */
  lemma NoGap(states: seq<System>, actions: seq<Action>, n: nat, r: Row)
    requires Behaviour(states, actions) && Initial(states[0]) && n < |states|
    requires Owed(states[n], r) && Spared(states, actions, n, r.id)
    ensures var s := states[n];
            if s.Settled() then r.id in s.got || r.id in s.conn.wire || r.id in s.conn.queue || r.id in s.pending
            else r.id in s.got || r.id > s.last.value
  {
    var s := states[n];
    StaysSafe(states, actions, n, r.id);
    Reachable(states, actions, n);
    OwedIsDue(s, r);
    assert s.Settled() && r.id in s.Stream() ==> r.id in s.conn.wire || r.id in s.conn.queue;
  }

  lemma OwedIsDue(s: System, r: Row)
    requires Inv(s) && Owed(s, r)
    ensures r.id in Due(s) && (r.id <= s.pub || r.id in s.pending)
  {
  }

  /** What the resume point claims: nothing owed at or below it is missing unless a step lost it. */
  lemma ResumePointIsHonest(states: seq<System>, actions: seq<Action>, n: nat, r: Row)
    requires Behaviour(states, actions) && Initial(states[0]) && n < |states|
    requires Owed(states[n], r) && Spared(states, actions, n, r.id) && r.id <= states[n].last.value
    ensures r.id in states[n].got
  {
    StaysSafe(states, actions, n, r.id);
    Reachable(states, actions, n);
    OwedIsDue(states[n], r);
  }

  /** The rows missed up to a limit are those written. */
  lemma SentAre(s: System, n: nat)
    requires IdsOk(s) && SeenOk(s) && s.last.Some?
    ensures forall i :: 0 <= i < |s.Missed()| ==> s.Missed()[i].id in Due(s)
    ensures forall i :: 0 <= i < |s.Missed()| && i < n ==> s.Missed()[i].id in Ids(Take(s.Missed(), n))
    ensures forall y :: y in Due(s) && y > s.last.value ==> exists i :: 0 <= i < |s.Missed()| && s.Missed()[i].id == y
  {
    var missed := s.Missed();
    DueMissed(s);
    forall i | 0 <= i < |missed| ensures missed[i].id in Due(s) {
      assert missed[i] in missed;
    }
    forall i | 0 <= i < |missed| && i < n ensures missed[i].id in Ids(Take(missed, n)) {
      assert Ids(Take(missed, n))[i] == missed[i].id;
    }
    forall y | y in Due(s) && y > s.last.value ensures exists i :: 0 <= i < |missed| && missed[i].id == y {
      assert y in Ids(missed);
    }
  }

  /** The bound on replay is exact: the connection goes live with nothing lost if and only if every
      missed row past the limit was received before, was queued since the subscription, or is still
      to be published. */
  lemma ReplayCoversIff(s: System)
    requires Sound(s) && s.conn.Open? && !s.conn.replayed && s.last.Some? && Resumes(Due(s), s.got, s.last)
    ensures var t := Next(s, Replay).value;
            Held(Due(t), t.got, t.Stream(), t.pub) <==>
            forall i :: REPLAY_LIMIT <= i < |s.Missed()| ==>
              var y := s.Missed()[i].id; y in s.got || y in s.conn.queue || y in Ids(Take(s.Missed(), REPLAY_LIMIT)) || y > s.pub
  {
    var t := Next(s, Replay).value;
    assert Due(t) == Due(s);
    SentAre(s, REPLAY_LIMIT);
  }

  /** A failed replay is harmless if and only if every missed row was received before, was queued since
      the subscription, or is still to be published. */
  lemma ReplayFailsCoversIff(s: System)
    requires Sound(s) && s.conn.Open? && !s.conn.replayed && s.last.Some? && Resumes(Due(s), s.got, s.last)
    ensures var t := Next(s, ReplayFails).value;
            Held(Due(t), t.got, t.Stream(), t.pub) <==>
            forall i :: 0 <= i < |s.Missed()| ==>
              var y := s.Missed()[i].id; y in s.got || y in s.conn.queue || y > s.pub
  {
    var t := Next(s, ReplayFails).value;
    assert Due(t) == Due(s) && t.Stream() == s.Stream() == s.conn.queue;
    SentAre(s, 0);
  }

  /** A publish on a live connection is harmless if and only if the queue has room, or the row is not due,
      received before, or written by the replay. */
  lemma PublishCoversIff(s: System)
    requires Sound(s) && s.pending != [] && s.Settled() && Held(Due(s), s.got, s.Stream(), s.pub)
    ensures var t, y := Next(s, Publish).value, s.pending[0];
            Held(Due(t), t.got, t.Stream(), t.pub) <==>
            |s.conn.queue| < SUBSCRIBER_BUFFER || y !in Due(s) || y in s.got || y in s.Stream()
  {
    var t := Next(s, Publish).value;
    assert Due(t) == Due(s);
    assert t.Stream() == if |s.conn.queue| < SUBSCRIBER_BUFFER then s.Stream() + [s.pending[0]] else s.Stream();
    forall y | y in Due(s) ensures y <= s.pub || y >= s.pending[0] {
      PublishedOrAfter(s, y);
    }
  }

  // ---------------------------------------------------------------------------
  // What a lost row costs
  // ---------------------------------------------------------------------------

  /** Published, not received and not on its way on a live connection. */
  predicate Lost(s: System, y: nat) {
    s.Settled() && 0 < y <= s.pub && y !in s.got && y !in s.Stream()
  }

  lemma LossIsReal(s: System, a: Action, y: nat)
    requires Sound(s) && Next(s, a).Some? && y in Due(s) && Loses(s, a, y)
    ensures Lost(Next(s, a).value, y)
  {
    var t := Next(s, a).value;
    if a == Replay {
      assert t.Stream() == Ids(Take(s.Missed(), REPLAY_LIMIT)) + s.conn.queue && s.Stream() == s.conn.queue;
    } else {
      assert t.Stream() == s.Stream();
    }
  }

  lemma LostReceive(s: System, y: nat)
    requires SeenOk(s) && Next(s, Receive).Some? && Lost(s, y)
    ensures Lost(Next(s, Receive).value, y)
  {
    var t, x := Next(s, Receive).value, s.conn.wire[0];
    assert s.Stream() == [x] + t.Stream();
    assert x in s.Stream();
  }

  lemma LostStep(s: System, a: Action, y: nat)
    requires IdsOk(s) && SeenOk(s) && Next(s, a).Some? && Lost(s, y) && a != Disconnect
    ensures Lost(Next(s, a).value, y)
  {
    var t := Next(s, a).value;
    match a
    case Publish => assert t.Stream() == s.Stream() || t.Stream() == s.Stream() + [s.pending[0]];
    case Delta => assert t.Stream() == s.Stream() || t.Stream() == s.Stream() + [0];
    case Receive => LostReceive(s, y);
    case Replay => assert t.Stream() == s.Stream();
    case Deliver => assert t.Stream() == s.Stream();
    case _ =>
  }

  /** A lost row does not arrive on the connection that lost it. */
  lemma {:induction false} LostWhileOpen(states: seq<System>, actions: seq<Action>, n: nat, y: nat)
    requires Behaviour(states, actions) && Inv(states[0]) && Lost(states[0], y) && n < |states|
    requires Disconnect !in actions[..n]
    ensures Inv(states[n]) && Lost(states[n], y)
  {
    if n > 0 {
      assert actions[..n - 1] == actions[..n][..n - 1];
      LostWhileOpen(states, actions, n - 1, y);
      assert Next(states[n - 1], actions[n - 1]) == Some(states[n - 1 + 1]);
      assert actions[n - 1] == actions[..n][n - 1];
      Parts(states[n - 1]);
      hide Inv, Lost, Next, IdsOk, SeenOk;
      LostStep(states[n - 1], actions[n - 1], y);
      NextKeeps(states[n - 1], actions[n - 1]);
    }
  }

  lemma Parts(s: System)
    requires Inv(s)
    ensures IdsOk(s) && SeenOk(s) && Ascending(s.rows)
  {
  }

  /** Behind the resume point and behind everything on its way. */
  predicate Skipped(s: System, y: nat) {
    && 0 < y <= s.pub && y !in s.got && s.last.Some? && y <= s.last.value
    && forall x :: x in s.Stream() ==> x == 0 || x > y
  }

  lemma SkippedReceive(s: System, y: nat)
    requires IdsOk(s) && SeenOk(s) && Next(s, Receive).Some? && Skipped(s, y)
    ensures Skipped(Next(s, Receive).value, y)
  {
    var t, x := Next(s, Receive).value, s.conn.wire[0];
    assert s.Stream() == [x] + t.Stream();
    assert x in s.Stream();
    assert forall z :: z in t.Stream() ==> z in s.Stream();
  }

  lemma SkippedStep(s: System, a: Action, y: nat)
    requires IdsOk(s) && SeenOk(s) && Next(s, a).Some? && Skipped(s, y)
    ensures Skipped(Next(s, a).value, y)
  {
    var t := Next(s, a).value;
    match a
    case Publish => assert t.Stream() == s.Stream() || t.Stream() == s.Stream() + [s.pending[0]];
    case Delta => assert t.Stream() == s.Stream() || t.Stream() == s.Stream() + [0];
    case Receive => SkippedReceive(s, y);
    case Replay =>
      assert t.Stream() == t.conn.wire + s.conn.queue && s.Stream() == s.conn.queue;
      forall x | x in t.conn.wire ensures x > y {
        var k :| 0 <= k < |t.conn.wire| && t.conn.wire[k] == x;
        assert s.Missed()[k] in s.Missed();
      }
    case _ => assert t.Stream() == [] || t.Stream() == s.Stream();
  }

  lemma {:induction false} SkippedForGood(states: seq<System>, actions: seq<Action>, n: nat, y: nat)
    requires Behaviour(states, actions) && Inv(states[0]) && Skipped(states[0], y) && n < |states|
    ensures Inv(states[n]) && Skipped(states[n], y)
  {
    if n > 0 {
      SkippedForGood(states, actions, n - 1, y);
      assert Next(states[n - 1], actions[n - 1]) == Some(states[n - 1 + 1]);
      Parts(states[n - 1]);
      hide Inv, Skipped, Next, IdsOk, SeenOk;
      SkippedStep(states[n - 1], actions[n - 1], y);
      NextKeeps(states[n - 1], actions[n - 1]);
    }
  }

  /** The browser can still come to have row `y`. */
  ghost predicate Recoverable(s: System, y: nat) {
    exists states: seq<System>, actions: seq<Action> ::
      Behaviour(states, actions) && states[0] == s && y in states[|actions|].got
  }

  lemma NeverAgain(s: System, y: nat)
    requires Inv(s) && Skipped(s, y)
    ensures !Recoverable(s, y)
  {
    forall states: seq<System>, actions: seq<Action> | Behaviour(states, actions) && states[0] == s
      ensures y !in states[|actions|].got {
      SkippedForGood(states, actions, |actions|, y);
    }
  }

  lemma BehaviourPush(s: System, a: Action, states: seq<System>, actions: seq<Action>)
    requires Behaviour(states, actions) && Next(s, a) == Some(states[0])
    ensures Behaviour([s] + states, [a] + actions) && ([s] + states)[|actions| + 1] == states[|actions|]
  {
    var ss, steps := [s] + states, [a] + actions;
    hide Next;
    forall i | 0 <= i < |steps| ensures Next(ss[i], steps[i]) == Some(ss[i + 1]) {
      if i > 0 {
        assert Next(states[i - 1], actions[i - 1]) == Some(states[i - 1 + 1]);
      }
    }
  }

  lemma RecoverableBefore(s: System, a: Action, t: System, y: nat)
    requires Next(s, a) == Some(t) && Recoverable(t, y)
    ensures Recoverable(s, y)
  {
    hide Next;
    var states: seq<System>, actions: seq<Action> :| Behaviour(states, actions) && states[0] == t && y in states[|actions|].got;
    BehaviourPush(s, a, states, actions);
    assert ([s] + states)[0] == s;
  }

  /** What is above a row of an ordered table. */
  lemma {:induction false} AboveNext(rows: seq<Row>, p: ProjectId, after: nat)
    requires Ascending(rows) && Above(rows, p, after) != []
    ensures Above(rows, p, Above(rows, p, after)[0].id) == Above(rows, p, after)[1..]
  {
    var m, r, all := |rows| - 1, rows[|rows| - 1], Above(rows, p, after);
    var init := Above(rows[..m], p, after);
    assert all[0] in all;
    if init == [] {
      assert all == [r];
      AboveNone(rows, p, r.id);
    } else {
      AboveNext(rows[..m], p, after);
      assert init[0] in init;
      assert all[0] == init[0] && init[0].id < r.id;
    }
  }

  lemma {:induction false} AboveNone(rows: seq<Row>, p: ProjectId, after: nat)
    requires forall r :: r in rows ==> r.id <= after
    ensures Above(rows, p, after) == []
  {
    if rows != [] {
      AboveNone(rows[..|rows| - 1], p, after);
    }
  }

  lemma Rejoins(s: System)
    requires s.conn.Offline? && s.last.Some?
    ensures Next(s, Connect) == Some(s.(conn := Open(false, [], [])))
    ensures Next(s.(conn := Open(false, [], [])), Replay) ==
            Some(s.(conn := Open(true, Ids(Take(s.Missed(), REPLAY_LIMIT)), [])))
  {
  }

  lemma ReceivesFirst(s: System)
    requires s.conn.Open? && s.conn.wire != [] && s.conn.wire[0] > 0 && s.first.Some?
    ensures var x := s.conn.wire[0];
            Next(s, Receive) == Some(s.(conn := s.conn.(wire := s.conn.wire[1..]), last := Some(x), got := s.got + {x}))
  {
  }

  lemma Leaves(s: System)
    requires s.conn.Open?
    ensures Next(s, Disconnect) == Some(s.(conn := Offline))
  {
  }

  /** One connection that receives one missed row. */
  lemma OneMore(s: System, y: nat)
    requires s.conn.Offline? && s.first.Some? && s.last.Some? && s.Missed() != []
    requires var x := s.Missed()[0].id; x > 0 && Recoverable(s.(last := Some(x), got := s.got + {x}), y)
    ensures Recoverable(s, y)
  {
    var x := s.Missed()[0].id;
    var a := s.(conn := Open(false, [], []));
    var wire := Ids(Take(s.Missed(), REPLAY_LIMIT));
    var b := a.(conn := Open(true, wire, []));
    var c := b.(conn := Open(true, wire[1..], []), last := Some(x), got := s.got + {x});
    var d := s.(last := Some(x), got := s.got + {x});
    Rejoins(s);
    ReceivesFirst(b);
    Leaves(c);
    hide Next, Recoverable, Above;
    RecoverableBefore(c, Disconnect, d, y);
    RecoverableBefore(b, Receive, c, y);
    RecoverableBefore(a, Replay, b, y);
    RecoverableBefore(s, Connect, a, y);
  }

  lemma GotIsRecoverable(s: System, y: nat)
    requires y in s.got
    ensures Recoverable(s, y)
  {
    assert Behaviour([s], []);
  }

  lemma {:induction false} MissedIsRecoverable(s: System, k: nat)
    requires s.conn.Offline? && s.first.Some? && s.last.Some? && Ascending(s.rows) && k < |s.Missed()|
    ensures Recoverable(s, s.Missed()[k].id)
    decreases k
  {
    var missed, x := s.Missed(), s.Missed()[0].id;
    var d := s.(last := Some(x), got := s.got + {x});
    assert missed[0] in missed;
    AboveNext(s.rows, s.project, s.last.value);
    if k == 0 {
      GotIsRecoverable(d, x);
    } else {
      assert d.Missed()[k - 1] == missed[k];
      MissedIsRecoverable(d, k - 1);
    }
    OneMore(s, missed[k].id);
  }

  /** When a connection has ended, a row due and not received can still arrive if and only if it is above
      the resume point. */
  lemma RecoversIff(s: System, y: nat)
    requires Inv(s) && s.conn.Offline? && s.last.Some? && y in Due(s) && y !in s.got
    ensures Recoverable(s, y) <==> y > s.last.value
    ensures Safe(s, y) <==> y > s.last.value
  {
    Parts(s);
    if y > s.last.value {
      DueMissed(s);
      var k :| 0 <= k < |s.Missed()| && Ids(s.Missed())[k] == y;
      MissedIsRecoverable(s, k);
    } else {
      assert !Safe(s, y);
      NeverAgain(s, y);
    }
  }

  /** A replay that fails costs the row for good as soon as one live frame arrives, from any idle state in
      which it fails with a row missed. */
  lemma FailedReplaySkips(s: System, r: Row, kind: string, data: string)
    requires Inv(s) && s.conn == Open(false, [], []) && s.pending == [] && r in s.Missed() && r.id !in s.got
    ensures Loses(s, ReplayFails, r.id)
    ensures exists states :: |states| == 6 && states[0] == s && !Recoverable(states[5], r.id)
                             && Behaviour(states, [ReplayFails, Append(s.project, kind, data), Publish, Deliver, Receive])
  {
    MissedBound(s, r);
    var x := s.nextId;
    var a := s.(conn := Open(true, [], []));
    var b := a.(rows := s.rows + [Row(x, s.project, kind, data)], pending := [x], nextId := x + 1);
    var c := b.(pending := [], pub := x, conn := Open(true, [], [x]));
    var d := c.(conn := Open(true, [x], []));
    var e := d.(conn := Open(true, [], []), last := Some(x), got := s.got + {x}, first := if s.first == None then Some(x) else s.first);
    var states := [s, a, b, c, d, e];
    var actions := [ReplayFails, Append(s.project, kind, data), Publish, Deliver, Receive];
    hide Inv, Next, Recoverable, Skipped, Loses, IdsOk, SeenOk;
    LiveFrame(a, b, c, d, e, kind, data);
    FailsIdle(s, r.id, a);
    SkippedPast(e, r.id, x);
    NextKeeps(s, ReplayFails);
    NextKeeps(a, actions[1]);
    NextKeeps(b, Publish);
    NextKeeps(c, Deliver);
    NextKeeps(d, Receive);
    NeverAgain(e, r.id);
    assert Behaviour(states, actions) by {
      forall i | 0 <= i < |actions| ensures Next(states[i], actions[i]) == Some(states[i + 1]) {
        assert i == 0 || i == 1 || i == 2 || i == 3 || i == 4;
      }
    }
  }

  lemma FailsIdle(s: System, y: nat, a: System)
    requires s.conn == Open(false, [], []) && y !in s.got && s.last.Some? && y <= s.pub && a == s.(conn := Open(true, [], []))
    ensures Loses(s, ReplayFails, y) && Next(s, ReplayFails) == Some(a)
  {
  }

  lemma SkippedPast(e: System, y: nat, x: nat)
    requires e.conn == Open(true, [], []) && 0 < y < x <= e.pub && y !in e.got && e.last == Some(x)
    ensures Skipped(e, y)
  {
  }

  lemma FirstJoin(s: System)
    requires Initial(s)
    ensures Next(s, Connect) == Some(s.(conn := Open(false, [], [])))
    ensures Next(s.(conn := Open(false, [], [])), Replay) == Some(s.(conn := Open(true, [], [])))
  {
  }

  /** An event appended while the browser is away, and its reconnection. */
  lemma MissedFrame(a: System, b: System, c: System, d: System, row: Row)
    requires a.conn == Offline && a.pending == [] && a.last.Some? && row.project == a.project && row.id == a.nextId > a.last.value
    requires b == a.(rows := a.rows + [row], pending := [row.id], nextId := row.id + 1)
    requires c == b.(pending := [], pub := row.id) && d == c.(conn := Open(false, [], []))
    ensures Next(a, Append(row.project, row.kind, row.data)) == Some(b) && Next(b, Publish) == Some(c)
    ensures Next(c, Connect) == Some(d) && row in d.Missed()
  {
    assert a.pending + [row.id] == [row.id] && [row.id][1..] == [];
    assert row in d.rows;
  }

  /** Such a state is reached from the first connection on. */
  lemma FailureIsReachable(s: System, kind: string, data: string)
    requires Initial(s)
    ensures exists states: seq<System>, actions: seq<Action> ::
              && Behaviour(states, actions) && states[0] == s
              && var t := states[|actions|];
                 t.conn == Open(false, [], []) && t.pending == [] && 2 !in t.got
                 && Row(2, s.project, kind, data) in t.Missed() && Loses(t, ReplayFails, 2)
  {
    var p, row1, row2 := s.project, Row(1, s.project, kind, data), Row(2, s.project, kind, data);
    var s1 := s.(conn := Open(false, [], []));
    var s2 := s.(conn := Open(true, [], []));
    var s3 := s2.(rows := s2.rows + [row1], pending := [1], nextId := 2);
    var s4 := s3.(pending := [], pub := 1, conn := Open(true, [], [1]));
    var s5 := s4.(conn := Open(true, [1], []));
    var s6 := s5.(conn := Open(true, [], []), last := Some(1), got := s5.got + {1}, first := Some(1));
    var s7 := s6.(conn := Offline);
    var s8 := s7.(rows := s7.rows + [row2], pending := [2], nextId := 3);
    var s9 := s8.(pending := [], pub := 2);
    var t := s9.(conn := Open(false, [], []));
    var states := [s, s1, s2, s3, s4, s5, s6, s7, s8, s9, t];
    var append := Append(p, kind, data);
    var actions := [Connect, Replay, append, Publish, Deliver, Receive, Disconnect, append, Publish, Connect];
    FirstJoin(s);
    LiveFrame(s2, s3, s4, s5, s6, kind, data);
    Leaves(s6);
    hide Next;
    MissedFrame(s7, s8, s9, t, row2);
    assert Behaviour(states, actions) by {
      forall i | 0 <= i < 10 ensures Next(states[i], actions[i]) == Some(states[i + 1]) {
        assert i == 0 || i == 1 || i == 2 || i == 3 || i == 4 || i == 5 || i == 6 || i == 7 || i == 8 || i == 9;
      }
    }
    assert states[|actions|] == t;
  }

  lemma MissedBound(s: System, r: Row)
    requires Inv(s) && r in s.Missed() && s.pending == []
    ensures 0 < r.id <= s.pub < s.nextId && r in s.rows && s.last.Some?
  {
  }

  /** One appended event on an idle live connection, from the table to the browser. */
  lemma LiveFrame(a: System, b: System, c: System, d: System, e: System, kind: string, data: string)
    requires a.conn == Open(true, [], []) && a.pending == [] && a.nextId > 0
    requires var x := a.nextId;
             && b == a.(rows := a.rows + [Row(x, a.project, kind, data)], pending := [x], nextId := x + 1)
             && c == b.(pending := [], pub := x, conn := Open(true, [], [x]))
             && d == c.(conn := Open(true, [x], []))
             && e == d.(conn := Open(true, [], []), last := Some(x), got := a.got + {x},
                        first := if a.first == None then Some(x) else a.first)
    ensures Next(a, Append(a.project, kind, data)) == Some(b) && Next(b, Publish) == Some(c)
    ensures Next(c, Deliver) == Some(d) && Next(d, Receive) == Some(e)
  {
    var x := a.nextId;
    assert a.pending + [x] == [x] && [x][1..] == [] && [] + [x] == [x];
  }
}
