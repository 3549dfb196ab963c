/** The handler of one event stream request and everyone who records events beside it, each of their steps one
    step of the stream protocol. */
module SseHandler {
  import opened Prelude
  import opened Text
  import opened EventHub
  import opened EventStream
  import SseFrames

  function FrameIds(frames: seq<Frame>): seq<nat> {
    seq(|frames|, i requires 0 <= i < |frames| => frames[i].id)
  }

  function FrameItem(id: nat, kind: string, data: string): SseFrames.Item {
    SseFrames.Frame(id, kind, data)
  }

  function RowItems(rows: seq<Row>): seq<SseFrames.Item> {
    seq(|rows|, i requires 0 <= i < |rows| => FrameItem(rows[i].id, rows[i].kind, rows[i].data))
  }

  /** The ids of the frames in a response. */
  function ItemIds(items: seq<SseFrames.Item>): seq<int> {
    if items == [] then []
    else
      var n := |items| - 1;
      ItemIds(items[..n]) + if items[n].Frame? then [items[n].id] else []
  }

  lemma ItemIdsPush(items: seq<SseFrames.Item>, x: SseFrames.Item)
    ensures ItemIds(items + [x]) == ItemIds(items) + if x.Frame? then [x.id] else []
  {
    assert (items + [x])[..|items|] == items;
  }

  lemma {:induction false} ItemIdsRows(items: seq<SseFrames.Item>, rows: seq<Row>)
    ensures ItemIds(items + RowItems(rows)) == ItemIds(items) + Ids(rows)
  {
    if rows == [] {
      assert items + RowItems(rows) == items && Ids(rows) == [];
    } else {
      var n := |rows| - 1;
      var x := FrameItem(rows[n].id, rows[n].kind, rows[n].data);
      ItemIdsRows(items, rows[..n]);
      assert items + RowItems(rows) == (items + RowItems(rows[..n])) + [x];
      assert Ids(rows) == Ids(rows[..n]) + [rows[n].id];
      hide ItemIds, RowItems, Ids;
      ItemIdsPush(items + RowItems(rows[..n]), x);
    }
  }

  /** The ids a step of the protocol writes to the browser. */
  function Writes(s: System, a: Action): seq<nat> {
    if s.conn.Offline? then []
    else if a == Action.Replay then Ids(Take(s.Missed(), REPLAY_LIMIT))
    else if a == Deliver && s.conn.queue != [] then [s.conn.queue[0]]
    else []
  }

  /** The ids written by a history of the protocol. */
  function Sent(past: seq<System>, trace: seq<Action>): seq<nat>
    requires |past| == |trace| + 1
  {
    if trace == [] then []
    else
      var n := |trace| - 1;
      Sent(past[..n + 1], trace[..n]) + Writes(past[n], trace[n])
  }

  lemma Silent(s: System, a: Action)
    requires a != Action.Replay && a != Deliver
    ensures Writes(s, a) == []
  {
  }

  lemma Joins(s: System)
    requires s.conn.Offline?
    ensures Next(s, Connect).Some?
    ensures var t := Next(s, Connect).value; t.conn == Open(false, [], []) && t == s.(conn := t.conn, base := t.base)
  {
  }

  /** A replay, or its failure, leaves the queue as it is. */
  lemma GoesLive(s: System)
    requires s.conn.Open? && !s.conn.replayed
    ensures Next(s, ReplayFails) == Some(s.(conn := Open(true, s.conn.wire, s.conn.queue)))
    ensures Next(s, Action.Replay).Some?
    ensures var t := Next(s, Action.Replay).value; t == s.(conn := Open(true, t.conn.wire, s.conn.queue))
  {
  }

  lemma NoRows(items: seq<SseFrames.Item>)
    ensures items == items + RowItems([])
  {
  }

  lemma WritesNothing(s: System)
    requires s.last == None
    ensures Writes(s, Action.Replay) == []
  {
  }

  lemma WritesMissed(s: System)
    requires s.conn.Open? && s.last.Some?
    ensures Writes(s, Action.Replay) == Ids(Take(Above(s.rows, s.project, s.last.value), REPLAY_LIMIT))
  {
  }

  lemma SentPush(past: seq<System>, trace: seq<Action>, s: System, a: Action)
    requires |past| == |trace| + 1
    ensures Sent(past + [s], trace + [a]) == Sent(past, trace) + Writes(past[|trace|], a)
  {
    assert (past + [s])[..|trace| + 1] == past && (trace + [a])[..|trace|] == trace;
  }

  /** Writes one frame after what has been written. */
  method EmitFrame(out: string, ghost items: seq<SseFrames.Item>, id: nat, kind: string, data: string)
    returns (r: string, ghost all: seq<SseFrames.Item>)
    requires out == SseFrames.Written(items)
    ensures all == items + [FrameItem(id, kind, data)] && r == SseFrames.Written(items + [FrameItem(id, kind, data)])
    ensures ItemIds(all) == ItemIds(items) + [id]
  {
    hide *;
    ItemIdsPush(items, FrameItem(id, kind, data));
    WrittenPush(items, FrameItem(id, kind, data));
    all := items + [FrameItem(id, kind, data)];
    r := SseFrames.WriteFrame(out, id, kind, data);
    ItemIs(id, kind, data);
  }

  lemma ItemIs(id: nat, kind: string, data: string)
    ensures FrameItem(id, kind, data) == SseFrames.Frame(id, kind, data)
  {
  }

  method EmitComment(out: string, ghost items: seq<SseFrames.Item>, text: string)
    returns (r: string, ghost all: seq<SseFrames.Item>)
    requires out == SseFrames.Written(items)
    ensures all == items + [SseFrames.Comment(text)] && r == SseFrames.Written(items + [SseFrames.Comment(text)])
    ensures ItemIds(all) == ItemIds(items)
  {
    hide *;
    ItemIdsPush(items, SseFrames.Comment(text));
    WrittenPush(items, SseFrames.Comment(text));
    Hello(text);
    all := items + [SseFrames.Comment(text)];
    r := out + (": " + text + "\n\n");
  }

  /** A comment as it is written. */
  lemma Hello(text: string)
    ensures SseFrames.Unlines(SseFrames.ItemLines(SseFrames.Comment(text))) == ": " + text + "\n\n"
  {
    var lines := SseFrames.ItemLines(SseFrames.Comment(text));
    assert lines[..1] == [": " + text] && lines[..1][..0] == [];
    assert SseFrames.Unlines([": " + text]) == ": " + text + "\n";
  }

  lemma WrittenPush(items: seq<SseFrames.Item>, x: SseFrames.Item)
    ensures SseFrames.Written(items + [x]) == SseFrames.Written(items) + SseFrames.Unlines(SseFrames.ItemLines(x))
  {
    assert (items + [x])[..|items|] == items;
  }

  lemma TrimDigits(n: nat)
    ensures Trim(Digits(n)) == Digits(n)
  {
    var s := Digits(n);
    assert '0' <= s[0] <= '9' && '0' <= s[|s| - 1] <= '9';
  }

  /** How the look for the active project turns out, and how the replay query does. */
  datatype Lookup = Active | NoProject | LookupError

  class Server {
    const hub: Hub
    const events: Events

    // Frames whose rows are stored and that are still to be published, oldest first.
    var waiting: seq<Frame>

    // What this connection's queue has been given, and what the handler has taken from it.
    ghost var offered: seq<Frame>
    ghost var taken: seq<Frame>

    ghost var sys: System
    ghost var past: seq<System>
    ghost var trace: seq<Action>

    ghost predicate History()
      reads this`sys, this`past, this`trace
    {
      Behaviour(past, trace) && Initial(past[0]) && past[|trace|] == sys
    }

    ghost predicate Coupled()
      reads this, hub, events
    {
      && History() && hub.Valid() && events.Valid() && sys.rows == events.rows && sys.nextId == events.nextId
      && sys.pending == FrameIds(waiting)
    }

    /** What has been written to the browser, over all its connections. */
    ghost function Output(): seq<nat>
      reads this`past, this`trace
    {
      if |past| == |trace| + 1 then Sent(past, trace) else []
    }

    /** This response holds exactly what has been written since `before`. */
    ghost predicate Wrote(before: seq<int>, items: seq<SseFrames.Item>)
      reads this`past, this`trace
    {
      Output() == before + ItemIds(items)
    }

    /** The browser's connection is client `c` of the hub. */
    ghost predicate Serving(c: ClientId, replayed: bool)
      reads this, hub, events
    {
      && Coupled() && c in hub.clients && sys.conn.Open? && sys.conn.replayed == replayed
      && sys.conn.queue == FrameIds(hub.clients[c]) && offered == taken + hub.clients[c]
    }

    /** Since the history had `from` steps it has only grown, by steps that are no replays. */
    ghost predicate Quiet(before: seq<System>, from: seq<Action>)
      reads this`past, this`trace
    {
      before <= past && from <= trace && forall k :: |from| <= k < |trace| ==> !IsReplay(trace[k])
    }

    constructor (p: ProjectId)
      ensures Coupled() && sys.conn.Offline? && sys.project == p
    {
      hub := new Hub();
      events := new Events();
      waiting, offered, taken := [], [], [];
      var s := System(p, [], [], 0, 1, Offline, None, None, {}, 0);
      sys, past, trace := s, [s], [];
    }

    ghost method Record(a: Action)
      requires History() && Next(sys, a).Some?
      modifies this`sys, this`past, this`trace
      ensures History() && sys == Next(old(sys), a).value && trace == old(trace) + [a]
      ensures Output() == old(Output()) + Writes(old(sys), a)
      ensures past == old(past) + [sys] && (!IsReplay(a) ==> Quiet(old(past), old(trace)))
    {
      SentPush(past, trace, Next(sys, a).value, a);
      sys := Next(sys, a).value;
      past, trace := past + [sys], trace + [a];
      forall i | 0 <= i < |trace| ensures Next(past[i], trace[i]) == Some(past[i + 1]) {
        if i < |trace| - 1 {
          assert Next(old(past)[i], old(trace)[i]) == Some(old(past)[i + 1]);
        }
      }
    }

    /** A step that writes what the response gained. */
    ghost method Write(a: Action, before: seq<int>, items: seq<SseFrames.Item>, all: seq<SseFrames.Item>)
      requires History() && Next(sys, a).Some?
      requires Wrote(before, items) && ItemIds(all) == ItemIds(items) + Writes(sys, a)
      modifies this`sys, this`past, this`trace
      ensures History() && sys == Next(old(sys), a).value && trace == old(trace) + [a]
      ensures Wrote(before, all) && past == old(past) + [sys]
    {
      hide History, Output, Writes, ItemIds;
      Record(a);
    }

    // -------------------------------------------------------------------------
    // Everyone else
    // -------------------------------------------------------------------------

    /** The browser's connection, when it has one, is this client of the hub. */
    ghost predicate Linked(c: Option<ClientId>)
      reads this, hub, events
    {
      && Coupled()
      && match c
         case None => sys.conn.Offline?
         case Some(id) =>
           && id in hub.clients && sys.conn.Open? && sys.conn.queue == FrameIds(hub.clients[id])
           && offered == taken + hub.clients[id]
    }

    /** What no step of others changes: the browser's project, and how far its connection has come. */
    ghost predicate SameEnd(s: System)
      reads this`sys
    {
      && sys.project == s.project && sys.conn.Open? == s.conn.Open?
      && (s.conn.Open? ==> sys.conn.replayed == s.conn.replayed && sys.conn.wire == s.conn.wire) && sys.last == s.last
    }

    /** A row for an event. Its frame is to be published next after those already waiting. */
    method AppendRow(ghost c: Option<ClientId>, p: ProjectId, kind: string, payload: Option<string>) returns (row: Row)
      requires Linked(c)
      modifies this, events
      ensures Linked(c) && SameEnd(old(sys)) && trace == old(trace) + [Append(p, kind, row.data)]
      ensures old(past) <= past && offered == old(offered) && taken == old(taken)
      ensures waiting == old(waiting) + [Frame(row.id, kind, row.data)] && Output() == old(Output())
      ensures events.rows == old(events.rows) + [row] && row.project == p && row.kind == kind
    {
      hide History, Output, Writes;
      row := events.AppendEvent(p, kind, payload);
      waiting := waiting + [Frame(row.id, kind, row.data)];
      Silent(sys, Append(p, kind, row.data));
      Record(Append(p, kind, row.data));
    }

    /** The oldest frame waiting goes to every queue that has room. */
    method PublishNext(ghost c: Option<ClientId>)
      requires Linked(c) && waiting != []
      modifies this, hub
      ensures Linked(c) && SameEnd(old(sys)) && trace == old(trace) + [Action.Publish]
      ensures old(past) <= past && taken == old(taken) && old(offered) <= offered
      ensures waiting == old(waiting)[1..] && Output() == old(Output())
      ensures hub.clients == map x | x in old(hub.clients) :: Offer(old(hub.clients)[x], old(waiting)[0])
      ensures c.Some? ==> offered == old(offered) + if |old(hub.clients)[c.value]| < 512 then [old(waiting)[0]] else []
    {
      hide History, Output, Writes, Ascending, Sent, IsReplay;
      if c.Some? {
        OfferIds(hub.clients[c.value], waiting[0]);
        offered := taken + Offer(hub.clients[c.value], waiting[0]);
      }
      hub.Publish(waiting[0]);
      waiting := waiting[1..];
      Silent(sys, Action.Publish);
      Record(Action.Publish);
    }

    /** `publish`: the row, then its frame to every queue that has room, with nothing waiting before or after.
        A row that cannot be stored is not published. */
    method Publish(ghost c: Option<ClientId>, p: ProjectId, kind: string, payload: Option<string>) returns (row: Option<Row>)
      requires Linked(c) && waiting == []
      modifies this, hub, events
      ensures Linked(c) && SameEnd(old(sys)) && waiting == [] && Output() == old(Output())
      ensures old(past) <= past && taken == old(taken) && old(offered) <= offered
      ensures row == None ==> trace == old(trace) && hub.clients == old(hub.clients) && events.rows == old(events.rows)
      ensures row.Some? ==>
                && trace == old(trace) + [Append(p, kind, row.value.data), Action.Publish]
                && events.rows == old(events.rows) + [row.value] && row.value.project == p && row.value.kind == kind
                && hub.clients == map x | x in old(hub.clients) ::
                     Offer(old(hub.clients)[x], Frame(row.value.id, kind, row.value.data))
    {
      hide History, Output, Writes;
      var failed := Maybe();
      if failed {
        return None;
      }
      var stored := AppendRow(c, p, kind, payload);
      PublishNext(c);
      row := Some(stored);
    }

    /** A frame that is never stored, such as a piece of text as the model streams it. */
    method PublishLive(ghost c: Option<ClientId>, kind: string, data: string)
      requires Linked(c)
      modifies this, hub
      ensures Linked(c) && SameEnd(old(sys)) && trace == old(trace) + [Delta] && waiting == old(waiting)
      ensures old(past) <= past && taken == old(taken) && old(offered) <= offered
      ensures Output() == old(Output())
      ensures hub.clients == map x | x in old(hub.clients) :: Offer(old(hub.clients)[x], Frame(0, kind, data))
      ensures c.Some? ==> offered == old(offered) + if |old(hub.clients)[c.value]| < 512 then [Frame(0, kind, data)] else []
    {
      hide History, Output, Writes;
      if c.Some? {
        OfferIds(hub.clients[c.value], Frame(0, kind, data));
        offered := taken + Offer(hub.clients[c.value], Frame(0, kind, data));
      }
      hub.Publish(Frame(0, kind, data));
      Silent(sys, Delta);
      Record(Delta);
    }

    /** A project's conversation is cleared. */
    method ClearEvents(ghost c: Option<ClientId>, p: ProjectId)
      requires Linked(c)
      modifies this, events
      ensures Linked(c) && SameEnd(old(sys)) && waiting == old(waiting) && Output() == old(Output())
      ensures Quiet(old(past), old(trace)) && taken == old(taken) && offered == old(offered)
      ensures forall r :: r in events.rows <==> r in old(events.rows) && r.project != p
    {
      hide History, Output, Writes, Next, Ascending, Quiet, Sent, Without, Deleted;
      ghost var a := Forget(Deleted(events.rows, p));
      ClearIs(sys, p);
      events.DeleteEvents(p);
      Silent(sys, a);
      Record(a);
    }

    /** Any number of such steps, in any order, and, on a connection past its replay, of receipts by the browser. */
    method Elsewhere(ghost c: ClientId, ghost replayed: bool)
      requires Serving(c, replayed)
      modifies this, hub, events
      ensures Serving(c, replayed) && sys.project == old(sys.project)
      ensures Quiet(old(past), old(trace)) && Output() == old(Output())
      ensures taken == old(taken) && old(offered) <= offered
      ensures !replayed ==> sys.last == old(sys.last)
    {
      hide History, Output, Writes, Next;
      var steps := HowMany();
      for n := 0 to steps
        invariant Serving(c, replayed) && sys.project == old(sys.project)
        invariant Quiet(old(past), old(trace)) && Output() == old(Output())
        invariant taken == old(taken) && old(offered) <= offered
        invariant !replayed ==> sys.last == old(sys.last)
      {
        Other(c, replayed);
      }
    }

    method Other(ghost c: ClientId, ghost replayed: bool)
      requires Serving(c, replayed)
      modifies this, hub, events
      ensures Serving(c, replayed) && sys.project == old(sys.project)
      ensures Quiet(old(past), old(trace)) && Output() == old(Output())
      ensures taken == old(taken) && old(offered) <= offered
      ensures !replayed ==> sys.last == old(sys.last)
    {
      hide History, Output, Writes, Next;
      var choice := HowMany();
      var p, kind, data := Something();
      if choice == 0 {
        var row := AppendRow(Some(c), p, kind, Some(data));
      } else if choice == 1 && waiting != [] {
        PublishNext(Some(c));
      } else if choice == 2 {
        PublishLive(Some(c), kind, data);
      } else if choice == 3 {
        ClearEvents(Some(c), p);
      } else {
        Reads(c, replayed);
      }
    }

    /** The browser takes in what has been written to it first, if anything has. */
    ghost method Reads(c: ClientId, replayed: bool)
      requires Serving(c, replayed)
      modifies this`sys, this`past, this`trace
      ensures Serving(c, replayed) && sys.project == old(sys.project)
      ensures Quiet(old(past), old(trace)) && Output() == old(Output())
      ensures taken == old(taken) && old(offered) <= offered
      ensures !replayed ==> sys.last == old(sys.last)
    {
      hide Output, Writes;
      if replayed && sys.conn.wire != [] {
        hide History;
        Silent(sys, Receive);
        Record(Receive);
      }
    }

    method HowMany() returns (n: nat) {
      n := *;
    }

    method Something() returns (p: ProjectId, kind: string, data: string) {
      p, kind, data := *, *, *;
    }

    method Maybe() returns (b: bool) {
      b := *;
    }

    /** `header` is the browser's Last-Event-ID, absent when it has none; `lookup` is how the look for the active
        project turns out, and `down` whether the replay query fails. The response is "connected", then what
        the lookup calls for, then frames from this connection's queue, in order and as they are, with heartbeats
        in between. Its ids are those the steps of the protocol write, and the subscription is gone at the end.
        The stream is served for at most `turns` turns of its loop. */
    method HandleEvents(p: ProjectId, header: string, lookup: Lookup, down: bool, turns: nat)
      returns (out: string, ghost all: seq<SseFrames.Item>, ghost at: nat, ghost live: seq<SseFrames.Item>)
      requires Coupled() && sys.conn.Offline? && p == sys.project && ReadsAs(header, sys.last)
      modifies this, hub, events
      ensures Coupled() && sys.conn.Offline?
      ensures out == SseFrames.Written(all)
      ensures old(past) <= past && old(trace) <= trace && Output() == old(Output()) + ItemIds(all)
      ensures lookup == LookupError ==> all == [CONNECTED] && Quiet(old(past), old(trace))
      ensures lookup != LookupError ==> OneReplay(old(trace), trace, past, at) && past[at].project == p && past[at].last == old(sys.last)
      ensures lookup == NoProject ==> trace[at] == ReplayFails && all == [CONNECTED, SseFrames.Comment("no project")] + live
      ensures lookup == Active && down && old(sys.last).Some? ==> trace[at] == ReplayFails && all == [CONNECTED] + live
      ensures lookup == Active && !(down && old(sys.last).Some?) ==>
                trace[at] == Action.Replay && all == [CONNECTED] + RowItems(Take(past[at].Missed(), 500)) + live
      ensures lookup != LookupError ==> HeartBeats(live) && FramesOf(live) == FrameItems(taken) && taken <= offered
    {
      hide Next, ReadsAs, Output, ItemIds, Writes, History, SseFrames.Written, SseFrames.ParseInt, Digits, Hub.Valid, Events.Valid,
           RowItems, HeartBeats, FramesOf, FrameItems, Take;
      ghost var before := Output();
      at, live := 0, [];
      var c;
      c, out, all := Join();
      Elsewhere(c, false);
      if lookup == LookupError {
        Leave(c, false);
        return;
      }
      Here();
      at := |trace|;
      ghost var rows;
      out, all, rows := Open(c, p, header, lookup, down, out, all, before);
      out, all, live := Live(c, out, all, turns, before);
      Here();
    }

    lemma Here()
      requires History()
      ensures |past| == |trace| + 1 && past[|trace|] == sys
    {
    }

    /** What comes before the live frames. */
    method Open(c: ClientId, p: ProjectId, header: string, lookup: Lookup, down: bool, out: string,
                ghost items: seq<SseFrames.Item>, ghost before: seq<int>)
      returns (r: string, ghost all: seq<SseFrames.Item>, ghost rows: seq<SseFrames.Item>)
      requires lookup != LookupError
      requires Wrote(before, items) && Serving(c, false) && p == sys.project && ReadsAs(header, sys.last) && out == SseFrames.Written(items)
      modifies this`sys, this`past, this`trace
      ensures Serving(c, true) && r == SseFrames.Written(all) && Wrote(before, all) && all == items + rows
      ensures past == old(past) + [sys] && |trace| == |old(trace)| + 1 && old(trace) <= trace
      ensures lookup == NoProject ==> trace[|old(trace)|] == ReplayFails && rows == [SseFrames.Comment("no project")]
      ensures lookup == Active && down && old(sys.last).Some? ==> trace[|old(trace)|] == ReplayFails && rows == []
      ensures lookup == Active && !(down && old(sys.last).Some?) ==>
                trace[|old(trace)|] == Action.Replay && rows == RowItems(Take(old(sys).Missed(), 500))
    {
      hide Wrote, RowItems, History, SseFrames.Written, ReadsAs, Take;
      if lookup == NoProject {
        r, all := NoReplay(c, out, items, before);
        rows := [SseFrames.Comment("no project")];
      } else {
        r, all := Replay(c, p, header, down, out, items, before);
        rows := if down && old(sys.last).Some? then [] else RowItems(Take(old(sys).Missed(), 500));
      }
    }

    /** Without a project the stream goes live with nothing replayed, and says so. */
    method NoReplay(c: ClientId, out: string, ghost items: seq<SseFrames.Item>, ghost before: seq<int>)
      returns (r: string, ghost all: seq<SseFrames.Item>)
      requires Wrote(before, items) && Serving(c, false) && out == SseFrames.Written(items)
      modifies this`sys, this`past, this`trace
      ensures Serving(c, true) && r == SseFrames.Written(all) && Wrote(before, all)
      ensures all == items + [SseFrames.Comment("no project")] && trace == old(trace) + [ReplayFails] && past == old(past) + [sys]
    {
      hide Next, Wrote, Output, ItemIds, Writes, History, SseFrames.Written;
      GoesLive(sys);
      Silent(sys, ReplayFails);
      Write(ReplayFails, before, items, items);
      r, all := EmitComment(out, items, "no project");
      Kept(before, items, all);
    }

    lemma Kept(before: seq<int>, items: seq<SseFrames.Item>, all: seq<SseFrames.Item>)
      requires Wrote(before, items) && ItemIds(all) == ItemIds(items)
      ensures Wrote(before, all)
    {
    }

    /** The subscription comes before everything else. */
    method Join() returns (c: ClientId, out: string, ghost all: seq<SseFrames.Item>)
      requires Coupled() && sys.conn.Offline?
      modifies this, hub
      ensures Serving(c, false) && sys.project == old(sys.project) && sys.last == old(sys.last)
      ensures trace == old(trace) + [Connect] && Wrote(old(Output()), all) && out == SseFrames.Written(all)
      ensures all == [CONNECTED] && Quiet(old(past), old(trace)) && taken == []
    {
      hide Next, Output, ItemIds, Writes, History, SseFrames.Written;
      Silent(sys, Connect);
      Joins(sys);
      c := hub.Subscribe();
      offered, taken := [], [];
      Record(Connect);
      NothingWritten();
      out, all := EmitComment("", [], "connected");
    }

    lemma NothingWritten()
      ensures SseFrames.Written([]) == "" && ItemIds([]) == []
    {
    }

    method Leave(c: ClientId, ghost replayed: bool)
      requires Serving(c, replayed)
      modifies this, hub
      ensures Coupled() && sys.conn.Offline?
      ensures trace == old(trace) + [Disconnect] && Output() == old(Output())
      ensures Quiet(old(past), old(trace)) && taken == old(taken) && offered == old(offered)
    {
      hide History, Output, Writes;
      Silent(sys, Disconnect);
      hub.Unsubscribe(c);
      Record(Disconnect);
    }

    /** Persisted events above the header's id. A header that does not read as one replays nothing. */
    method Replay(c: ClientId, p: ProjectId, header: string, down: bool, out: string, ghost items: seq<SseFrames.Item>,
                  ghost before: seq<int>)
      returns (r: string, ghost all: seq<SseFrames.Item>)
      requires Wrote(before, items) && Serving(c, false) && p == sys.project && ReadsAs(header, sys.last) && out == SseFrames.Written(items)
      modifies this`sys, this`past, this`trace
      ensures Serving(c, true) && r == SseFrames.Written(all) && past == old(past) + [sys]
      ensures if down && old(sys.last).Some?
              then trace == old(trace) + [ReplayFails] && all == items
              else trace == old(trace) + [Action.Replay] && all == items + RowItems(Take(old(sys).Missed(), 500))
      ensures Wrote(before, all)
    {
      hide Next, Wrote, Writes, Output, ItemIds, RowItems, History, SseFrames.Written, SseFrames.ParseInt, ReadsAs, Trim;
      r, all := out, items;
      HeaderReads(header, sys.last);
      GoesLive(sys);
      var after := SseFrames.ParseInt(Trim(header));
      if after == None || after.value < 0 {
        WritesNothing(sys);
        NoRows(items);
        Write(Action.Replay, before, items, items);
        return;
      }
      if down {
        Silent(sys, ReplayFails);
        Write(ReplayFails, before, items, items);
        return;
      }
      var rows := events.EventsSince(p, after.value, REPLAY_LIMIT);
      ItemIdsRows(items, rows);
      WritesMissed(sys);
      r, all := WriteRows(rows, out, items);
      Write(Action.Replay, before, items, all);
    }

    method WriteRows(rows: seq<Row>, out: string, ghost items: seq<SseFrames.Item>)
      returns (r: string, ghost all: seq<SseFrames.Item>)
      requires out == SseFrames.Written(items)
      ensures all == items + RowItems(rows) && r == SseFrames.Written(items + RowItems(rows))
    {
      hide SseFrames.Written, FrameItem;
      r, all := out, items;
      for i := 0 to |rows|
        invariant all == items + RowItems(rows[..i]) && r == SseFrames.Written(all)
      {
        r, all := EmitFrame(r, all, rows[i].id, rows[i].kind, rows[i].data);
        assert RowItems(rows[..i + 1]) == RowItems(rows[..i]) + [FrameItem(rows[i].id, rows[i].kind, rows[i].data)];
      }
      assert rows[..|rows|] == rows;
    }

    /** The select loop: the request ends, a frame is waiting, or the heartbeat is due. */
    method Live(c: ClientId, out: string, ghost items: seq<SseFrames.Item>, turns: nat, ghost before: seq<int>)
      returns (r: string, ghost all: seq<SseFrames.Item>, ghost live: seq<SseFrames.Item>)
      requires Wrote(before, items) && Serving(c, true) && out == SseFrames.Written(items) && taken == []
      modifies this, hub, events
      ensures Coupled() && sys.conn.Offline?
      ensures r == SseFrames.Written(all) && all == items + live
      ensures Quiet(old(past), old(trace)) && Wrote(before, all)
      ensures HeartBeats(live) && FramesOf(live) == FrameItems(taken) && taken <= offered
    {
      hide Writes, Output, ItemIds, History, SseFrames.Written, HeartBeats, FramesOf;
      r, all, live := out, items, [];
      NothingYet();
      for n := 0 to turns
        invariant Serving(c, true) && r == SseFrames.Written(all) && all == items + live
        invariant Quiet(old(past), old(trace)) && Wrote(before, all)
        invariant HeartBeats(live) && FramesOf(live) == FrameItems(taken)
      {
        Elsewhere(c, true);
        var done := Maybe();
        if done {
          break;
        }
        ghost var x;
        r, all, x := Turn(c, r, all, before);
        live := live + [x];
      }
      Leave(c, true);
    }

    /** One frame from the queue, as it is, or a heartbeat. */
    method Turn(c: ClientId, out: string, ghost items: seq<SseFrames.Item>, ghost before: seq<int>)
      returns (r: string, ghost all: seq<SseFrames.Item>, ghost x: SseFrames.Item)
      requires Wrote(before, items) && Serving(c, true) && out == SseFrames.Written(items)
      modifies this, hub
      ensures Serving(c, true) && r == SseFrames.Written(all) && all == items + [x]
      ensures var q := old(hub.clients[c]);
              || (x == SseFrames.Comment("keep-alive") && hub.clients[c] == q && trace == old(trace) && taken == old(taken))
              || (q != [] && x == FrameItem(q[0].id, q[0].kind, q[0].data) && hub.clients[c] == q[1..]
                  && trace == old(trace) + [Deliver] && taken == old(taken) + [q[0]])
      ensures Wrote(before, all) && Quiet(old(past), old(trace))
      ensures forall live :: HeartBeats(live) && FramesOf(live) == FrameItems(old(taken)) ==>
                HeartBeats(live + [x]) && FramesOf(live + [x]) == FrameItems(taken)
    {
      hide Output, ItemIds, History, SseFrames.Written, HeartBeats, FramesOf, FrameItems;
      var f: Option<Frame> := None;
      var beat := Maybe();
      if !beat {
        f := hub.Receive(c);
      }
      if f.Some? {
        taken := taken + [f.value];
        Record(Deliver);
        r, all := EmitFrame(out, items, f.value.id, f.value.kind, f.value.data);
        x := FrameItem(f.value.id, f.value.kind, f.value.data);
      } else {
        r, all := EmitComment(out, items, "keep-alive");
        x := SseFrames.Comment("keep-alive");
      }
      Pulse(old(taken), f, x);
    }
  }

  const CONNECTED := SseFrames.Comment("connected")

  predicate IsReplay(a: Action) {
    a == Action.Replay || a == ReplayFails
  }

  /** Step `at` is the one replay, done or failed, since the history was `from`. */
  ghost predicate OneReplay(from: seq<Action>, trace: seq<Action>, past: seq<System>, at: nat) {
    |from| <= at < |trace| < |past| && forall k :: |from| <= k < |trace| ==> (IsReplay(trace[k]) <==> k == at)
  }

  function FrameItems(frames: seq<Frame>): seq<SseFrames.Item> {
    seq(|frames|, i requires 0 <= i < |frames| => FrameItem(frames[i].id, frames[i].kind, frames[i].data))
  }

  /** No comment but heartbeats. */
  ghost predicate HeartBeats(items: seq<SseFrames.Item>) {
    forall x :: x in items && x.Comment? ==> x == SseFrames.Comment("keep-alive")
  }

  function FramesOf(items: seq<SseFrames.Item>): seq<SseFrames.Item> {
    Filter(items, (x: SseFrames.Item) => x.Frame?)
  }

  lemma NothingYet()
    ensures HeartBeats([]) && FramesOf([]) == FrameItems([])
  {
  }

  lemma FramesPush(live: seq<SseFrames.Item>, x: SseFrames.Item)
    ensures FramesOf(live + [x]) == FramesOf(live) + if x.Frame? then [x] else []
    ensures HeartBeats(live + [x]) <==> HeartBeats(live) && (x.Comment? ==> x == SseFrames.Comment("keep-alive"))
  {
    assert (live + [x])[..|live|] == live;
  }

  lemma Pulse(before: seq<Frame>, f: Option<Frame>, x: SseFrames.Item)
    requires x == if f.Some? then FrameItem(f.value.id, f.value.kind, f.value.data) else SseFrames.Comment("keep-alive")
    ensures var after := if f.Some? then before + [f.value] else before;
            forall live :: HeartBeats(live) && FramesOf(live) == FrameItems(before) ==>
              HeartBeats(live + [x]) && FramesOf(live + [x]) == FrameItems(after)
  {
    forall live | HeartBeats(live) && FramesOf(live) == FrameItems(before)
      ensures HeartBeats(live + [x]) && FramesOf(live + [x]) == FrameItems(if f.Some? then before + [f.value] else before)
    {
      FramesPush(live, x);
    }
  }

  lemma OfferIds(queue: seq<Frame>, f: Frame)
    ensures FrameIds(Offer(queue, f)) == Offer(FrameIds(queue), f.id)
  {
  }

  function Deleted(rows: seq<Row>, p: ProjectId): set<nat> {
    set r | r in rows && r.project == p :: r.id
  }

  lemma WithoutIsKeep(rows: seq<Row>, p: ProjectId)
    requires Ascending(rows)
    ensures Without(rows, p) == Keep(rows, Deleted(rows, p))
  {
    var ids := Deleted(rows, p);
    forall r | r in rows ensures (r.project != p) == (r.id !in ids) {
      if r.id in ids {
        var q :| q in rows && q.project == p && q.id == r.id;
        var i, j :| 0 <= i < |rows| && rows[i] == r && 0 <= j < |rows| && rows[j] == q;
        assert i == j;
      }
    }
    FilterCongruent(rows, (r: Row) => r.project != p, (r: Row) => r.id !in ids);
  }

  /** Deleting a project's rows is a step that forgets their ids. */
  lemma ClearIs(s: System, p: ProjectId)
    requires Ascending(s.rows)
    ensures Next(s, Forget(Deleted(s.rows, p))) == Some(s.(rows := Without(s.rows, p)))
  {
    hide Keep, Without, Deleted;
    WithoutIsKeep(s.rows, p);
  }

  /** The header a browser sends: its last id in digits, or nothing. */
  ghost predicate ReadsAs(header: string, last: Option<nat>) {
    match last
    case None => header == ""
    case Some(n) => header == Digits(n) && n <= SseFrames.MAX_INT64
  }

  lemma HeaderReads(header: string, last: Option<nat>)
    requires ReadsAs(header, last)
    ensures SseFrames.ParseInt(Trim(header)) == match last case None => None case Some(n) => Some(n)
  {
    if last.Some? {
      TrimDigits(last.value);
      SseFrames.IdReadsBack(last.value);
    }
  }
}
