/** The event table and the lossy fan-out hub. */
module EventHub {
  import opened Prelude

  type ProjectId = nat
  type ClientId = nat

  /** One event row. */
  datatype Row = Row(id: nat, project: ProjectId, kind: string, data: string)

  /** A frame for the browsers; id 0 was never persisted. */
  datatype Frame = Frame(id: nat, kind: string, data: string)

  const SUBSCRIBER_BUFFER: nat := 512
  const REPLAY_LIMIT: nat := 500

  predicate Ascending(rows: seq<Row>) {
    forall i, j :: 0 <= i < j < |rows| ==> rows[i].id < rows[j].id
  }

  /** The rows of a project above an id, oldest first. */
  function Above(rows: seq<Row>, p: ProjectId, after: nat): (out: seq<Row>)
    ensures forall r :: r in out <==> r in rows && r.project == p && r.id > after
  {
    if rows == [] then []
    else
      var m, r := |rows| - 1, rows[|rows| - 1];
      assert rows == rows[..m] + [r];
      var out := Above(rows[..m], p, after);
      if r.project == p && r.id > after then out + [r] else out
  }

  function Take<T>(s: seq<T>, n: nat): seq<T> {
    if |s| <= n then s else s[..n]
  }

  /** What one subscriber's queue holds after a publish. */
  function Offer<T>(queue: seq<T>, f: T): seq<T> {
    if |queue| < SUBSCRIBER_BUFFER then queue + [f] else queue
  }

  lemma {:induction false} AboveAscending(rows: seq<Row>, p: ProjectId, after: nat)
    requires Ascending(rows)
    ensures Ascending(Above(rows, p, after))
  {
    if rows != [] {
      AboveAscending(rows[..|rows| - 1], p, after);
    }
  }

  /** A query stopped after `n` rows has found the first `n` of all of them. */
  lemma {:induction false} AbovePrefix(rows: seq<Row>, i: nat, p: ProjectId, after: nat)
    requires i <= |rows|
    ensures Above(rows[..i], p, after) <= Above(rows, p, after)
  {
    if i < |rows| {
      assert rows[..|rows| - 1][..i] == rows[..i];
      AbovePrefix(rows[..|rows| - 1], i, p, after);
    } else {
      assert rows[..i] == rows;
    }
  }

  lemma {:induction false} FilterAscending(rows: seq<Row>, f: Row -> bool)
    requires Ascending(rows)
    ensures Ascending(Filter(rows, f))
  {
    if rows != [] {
      FilterAscending(rows[..|rows| - 1], f);
      assert forall q :: q in rows[..|rows| - 1] ==> q.id < rows[|rows| - 1].id;
    }
  }

  /** The rows of other projects, in their order. */
  function Without(rows: seq<Row>, p: ProjectId): seq<Row> {
    Filter(rows, (r: Row) => r.project != p)
  }

  class Events {
    var rows: seq<Row>
    var nextId: nat

    ghost predicate Valid()
      reads this
    {
      0 < nextId && Ascending(rows) && forall i :: 0 <= i < |rows| ==> 0 < rows[i].id < nextId
    }

    constructor ()
      ensures Valid() && rows == [] && nextId == 1
    {
      rows, nextId := [], 1;
    }

    /** The assigned id is above every id ever assigned. No payload is an empty object. */
    method AppendEvent(p: ProjectId, kind: string, payload: Option<string>) returns (row: Row)
      requires Valid()
      modifies this
      ensures Valid() && rows == old(rows) + [row] && nextId == old(nextId) + 1
      ensures row == Row(old(nextId), p, kind, if payload.Some? then payload.value else "{}")
    {
      var encoded := "{}";
      if payload.Some? {
        encoded := payload.value;
      }
      row := Row(nextId, p, kind, encoded);
      rows := rows + [row];
      nextId := nextId + 1;
    }

    /** The first `limit` rows of the project above `after`; a limit below one means 500. */
    method EventsSince(p: ProjectId, after: nat, limit: int) returns (out: seq<Row>)
      ensures out == Take(Above(rows, p, after), if limit <= 0 then REPLAY_LIMIT else limit)
    {
      var most := if limit <= 0 then REPLAY_LIMIT else limit;
      out := [];
      var i := 0;
      while i < |rows| && |out| < most
        invariant 0 <= i <= |rows| && |out| <= most
        invariant out == Above(rows[..i], p, after)
      {
        assert rows[..i + 1][..i] == rows[..i];
        if rows[i].project == p && rows[i].id > after {
          out := out + [rows[i]];
        }
        i := i + 1;
      }
      AbovePrefix(rows, i, p, after);
      assert i == |rows| ==> rows[..i] == rows;
    }

    /** The rows of a project go, as when its conversation is cleared. */
    method DeleteEvents(p: ProjectId)
      requires Valid()
      modifies this`rows
      ensures Valid() && rows == Without(old(rows), p)
      ensures forall r :: r in rows <==> r in old(rows) && r.project != p
    {
      FilterAscending(rows, (r: Row) => r.project != p);
      var kept := Without(rows, p);
      forall i | 0 <= i < |kept| ensures 0 < kept[i].id < nextId {
        assert kept[i] in kept;
        var k :| 0 <= k < |rows| && rows[k] == kept[i];
      }
      rows := kept;
    }
  }

  /** Queues by client, the last client id given out, and the frames dropped so far. */
  class Hub {
    var next: ClientId
    var clients: map<ClientId, seq<Frame>>
    var dropped: nat

    ghost predicate Valid()
      reads this
    {
      forall c :: c in clients ==> c <= next && |clients[c]| <= SUBSCRIBER_BUFFER
    }

    constructor ()
      ensures Valid() && clients == map[] && dropped == 0
    {
      next, clients, dropped := 0, map[], 0;
    }

    /** A queue of its own, empty, under an id never used before. */
    method Subscribe() returns (id: ClientId)
      requires Valid()
      modifies this
      ensures Valid() && id == next > old(next) && id !in old(clients)
      ensures clients == old(clients)[id := []] && dropped == old(dropped)
    {
      next := next + 1;
      id := next;
      clients := clients[id := []];
    }

    /** Twice is once. */
    method Unsubscribe(id: ClientId)
      requires Valid()
      modifies this
      ensures Valid() && clients == old(clients) - {id} && next == old(next) && dropped == old(dropped)
    {
      if id in clients {
        clients := clients - {id};
      }
    }

    /** Every client with room gets the frame at the end of its queue; every full one loses it and
        is counted. No queue waits for another. */
    method Publish(f: Frame)
      requires Valid()
      modifies this
      ensures Valid() && next == old(next)
      ensures clients == map c | c in old(clients) :: Offer(old(clients)[c], f)
      ensures dropped == old(dropped) + |set c | c in old(clients) && |old(clients)[c]| == SUBSCRIBER_BUFFER|
    {
      var todo := clients.Keys;
      ghost var full: set<ClientId> := {};
      while todo != {}
        invariant todo <= clients.Keys == old(clients).Keys && next == old(next)
        invariant forall c :: c in clients ==> clients[c] == if c in todo then old(clients)[c] else Offer(old(clients)[c], f)
        invariant full == set c | c in old(clients).Keys - todo && |old(clients)[c]| == SUBSCRIBER_BUFFER
        invariant dropped == old(dropped) + |full|
        decreases todo
      {
        var c :| c in todo;
        if |clients[c]| < SUBSCRIBER_BUFFER {
          clients := clients[c := clients[c] + [f]];
        } else {
          dropped := dropped + 1;
          full := full + {c};
        }
        todo := todo - {c};
      }
      assert full == set c | c in old(clients) && |old(clients)[c]| == SUBSCRIBER_BUFFER;
    }

    /** A client takes the oldest frame of its queue, if there is one. */
    method Receive(id: ClientId) returns (f: Option<Frame>)
      requires Valid() && id in clients
      modifies this`clients
      ensures Valid() && id in clients
      ensures match f
              case Some(g) => old(clients)[id] == [g] + clients[id] && clients == old(clients)[id := clients[id]]
              case None => old(clients)[id] == [] && clients == old(clients)
    {
      if clients[id] == [] {
        return None;
      }
      f := Some(clients[id][0]);
      clients := clients[id := clients[id][1..]];
    }
  }
}
