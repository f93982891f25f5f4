/**
 * The delta-encoded connection stream: what the daemon sends (daemon/started_service.go:
 * `buildInitialConnectionState`, `applyConnectionEvent`, `buildTrafficUpdates`) and what the client
 * makes of it (experimental/libbox/command_types.go: `ApplyEvents`).
 *
 * Counters are read once per connection and step, and closing times are never 1970-01-01T00:00:00.
 */
module ConnectionStream {
  import opened Wrappers

  type Id = nat

  type Moment = x: int | x != 0 witness 1

  const MAX_AGE: int := 5 * 60 * 1000

  /** A connection's byte counters. */
  datatype Counter = Counter(up: int, down: int)

  datatype Snapshot = Snapshot(up: int, down: int, hadTraffic: bool)

  /** A connection as sent and as the client keeps it; `closedAt` is 0 while it is open. */
  datatype Conn = Conn(rateUp: int, rateDown: int, totalUp: int, totalDown: int, closedAt: int)

  datatype Wire =
    | New(id: Id, conn: Conn)
    | Update(id: Id, up: int, down: int)
    | Closed(id: Id, closedAt: Moment, last: Option<Conn>)

  type Snapshots = map<Id, Snapshot>

  type Client = map<Id, Conn>

  // ------------------------------------------------------------------- the client

  function Shut(c: Conn, at: Moment): Conn { c.(rateUp := 0, rateDown := 0, closedAt := at) }

  function ApplyOne(client: Client, e: Wire): Client {
    match e
    case New(id, conn) => client[id := conn]
    case Update(id, up, down) =>
      if id !in client then client
      else client[id := client[id].(rateUp := up, rateDown := down, totalUp := client[id].totalUp + up,
                                    totalDown := client[id].totalDown + down)]
    case Closed(id, at, last) =>
      if last.Some? then client[id := Shut(last.value, at)]
      else if id in client then client[id := Shut(client[id], at)]
      else client
  }

  function ApplyAll(client: Client, events: seq<Wire>): Client {
    if events == [] then client else ApplyOne(ApplyAll(client, events[..|events| - 1]), events[|events| - 1])
  }

  predicate Stale(c: Conn, now: int) { c.closedAt != 0 && now - c.closedAt > MAX_AGE }

  function Evict(client: Client, now: int): Client { map id | id in client && !Stale(client[id], now) :: client[id] }

  datatype Filter = All | Active | ClosedOnly

  predicate Passes(filter: Filter, c: Conn) {
    match filter
    case All => true
    case Active => c.closedAt == 0
    case ClosedOnly => c.closedAt != 0
  }

  /** A connection as listed. */
  type Item = (Id, Conn)

  function Filtered(items: seq<Item>, filter: Filter): (r: seq<Item>)
    ensures forall x :: x in r <==> x in items && Passes(filter, x.1)
  {
    if items == [] then []
    else
      var last := items[|items| - 1];
      Filtered(items[..|items| - 1], filter) + if Passes(filter, last.1) then [last] else []
  }

  /** The items are the client's connections, each once, in some order. */
  ghost predicate Lists(items: seq<Item>, client: Client) {
    && (forall id, c :: (id, c) in items <==> id in client && client[id] == c)
    && (forall i, j :: 0 <= i < j < |items| ==> items[i].0 != items[j].0)
  }

  class Connections {
    var connections: Client
    var input: seq<Item>
    var filtered: seq<Item>
    /** The filter in force; before one is chosen everything is shown. */
    var filter: Filter

    constructor ()
      ensures connections == map[] && input == [] && filtered == [] && filter == All
    {
      connections, input, filtered, filter := map[], [], [], All;
    }

    /** `FilterState`. */
    method FilterState(state: Filter)
      modifies this`filtered, this`filter
      ensures filter == state && filtered == Filtered(input, state)
    {
      filter := state;
      filtered := [];
      for i := 0 to |input|
        invariant filter == state && filtered == Filtered(input[..i], state)
      {
        assert input[..i + 1][..i] == input[..i];
        if Passes(state, input[i].1) {
          filtered := filtered + [input[i]];
        }
      }
      assert input[..|input|] == input;
    }

    /** The map is listed in whatever order it is visited. */
    method ListInput()
      modifies this`input
      ensures Lists(input, connections)
    {
      input := [];
      var left := connections.Keys;
      while left != {}
        invariant left <= connections.Keys
        invariant forall id, c :: (id, c) in input <==> id in connections && id !in left && connections[id] == c
        invariant forall i, j :: 0 <= i < j < |input| ==> input[i].0 != input[j].0
        decreases left
      {
        var id :| id in left;
        assert forall i :: 0 <= i < |input| ==> (input[i].0, input[i].1) in input;
        input := input + [(id, connections[id])];
        left := left - {id};
      }
    }

    /** `ApplyEvents`. */
    method ApplyEvents(events: seq<Wire>, reset: bool, now: int)
      modifies this
      ensures connections == Evict(ApplyAll(if reset then map[] else old(connections), events), now)
      ensures Lists(input, connections) && filter == old(filter) && filtered == Filtered(input, filter)
    {
      FoldEvents(events, reset);
      connections := Evict(connections, now);
      ListInput();
      FilterState(filter);
    }

    method FoldEvents(events: seq<Wire>, reset: bool)
      modifies this`connections
      ensures connections == ApplyAll(if reset then map[] else old(connections), events)
    {
      if reset {
        connections := map[];
      }
      ghost var before := connections;
      for i := 0 to |events|
        invariant connections == ApplyAll(before, events[..i])
      {
        assert events[..i + 1][..i] == events[..i];
        match events[i]
        case New(id, conn) =>
          connections := connections[id := conn];
        case Update(id, up, down) =>
          if id in connections {
            var conn := connections[id].(rateUp := up, rateDown := down);
            conn := conn.(totalUp := conn.totalUp + up, totalDown := conn.totalDown + down);
            connections := connections[id := conn];
          }
        case Closed(id, at, last) =>
          if last.Some? {
            connections := connections[id := last.value.(closedAt := at, rateUp := 0, rateDown := 0)];
          } else if id in connections {
            connections := connections[id := connections[id].(closedAt := at, rateUp := 0, rateDown := 0)];
          }
      }
      assert events[..|events|] == events;
    }
  }

  // ------------------------------------------------------------------- the daemon

  function Opened(c: Counter): Conn { Conn(0, 0, c.up, c.down, 0) }

  function Taken(c: Counter): Snapshot { Snapshot(c.up, c.down, false) }

  function Find(client: Client, id: Id): Option<Conn> { if id in client then Some(client[id]) else None }

  /**
   * The daemon holds a snapshot exactly of what the client holds open, with the same totals; and a
   * connection without recent traffic shows a rate of zero.
   */
  predicate Matches(known: Option<Snapshot>, conn: Option<Conn>) {
    if known.None? then conn.None? || conn.value.closedAt != 0
    else
      && conn.Some? && conn.value.closedAt == 0
      && conn.value.totalUp == known.value.up && conn.value.totalDown == known.value.down
      && (!known.value.hadTraffic ==> conn.value.rateUp == conn.value.rateDown == 0)
  }

  ghost predicate Agree(snapshots: Snapshots, client: Client) {
    forall id :: Matches(Known(snapshots, id), Find(client, id))
  }

  lemma {:induction false} OneKeepsAgree(snapshots: Snapshots, client: Client, snapshots': Snapshots, client': Client,
                                         id: Id)
    requires Agree(snapshots, client) && Matches(Known(snapshots', id), Find(client', id))
    requires forall x :: x != id ==> Known(snapshots', x) == Known(snapshots, x) && Find(client', x) == Find(client, x)
    ensures Agree(snapshots', client')
  {
    forall x ensures Matches(Known(snapshots', x), Find(client', x)) {
      assert Matches(Known(snapshots, x), Find(client, x));
    }
  }

  /** A connection the traffic manager announces: sent and snapshotted unless it is known already. */
  function Announced(snapshots: Snapshots, id: Id, c: Counter): (Snapshots, Option<Wire>) {
    if id in snapshots then (snapshots, None) else (snapshots[id := Taken(c)], Some(New(id, Opened(c))))
  }

  /** A connection it reports closed: always sent, with the final totals if it has them. */
  function Retired(snapshots: Snapshots, id: Id, at: Moment, last: Option<Conn>): (Snapshots, Wire) {
    (snapshots - {id}, Closed(id, at, if last.None? then None else Some(last.value.(closedAt := at))))
  }

  function ApplyMaybe(client: Client, event: Option<Wire>): Client {
    if event.None? then client else ApplyOne(client, event.value)
  }

  /** A client that agrees before an announcement agrees after applying what is sent, if anything is. */
  lemma {:induction false} AnnounceKeepsAgree(snapshots: Snapshots, id: Id, c: Counter, client: Client)
    requires Agree(snapshots, client)
    ensures
      var (after, event) := Announced(snapshots, id, c);
      Agree(after, ApplyMaybe(client, event))
  {
    var (after, event) := Announced(snapshots, id, c);
    assert Matches(Known(snapshots, id), Find(client, id));
    OneKeepsAgree(snapshots, client, after, ApplyMaybe(client, event), id);
  }

  /** And likewise after a closing, known to either side or not. */
  lemma {:induction false} RetireKeepsAgree(snapshots: Snapshots, id: Id, at: Moment, last: Option<Conn>,
                                            client: Client)
    requires Agree(snapshots, client)
    ensures
      var (after, event) := Retired(snapshots, id, at, last);
      Agree(after, ApplyOne(client, event)) && id !in after
  {
    var (after, event) := Retired(snapshots, id, at, last);
    assert Matches(Known(snapshots, id), Find(client, id));
    OneKeepsAgree(snapshots, client, after, ApplyOne(client, event), id);
  }

  /** What one active connection contributes to a tick. */
  function TickOne(id: Id, known: Option<Snapshot>, c: Counter): (Snapshot, seq<Wire>) {
    if known.None? then (Taken(c), [New(id, Opened(c))])
    else
      var s := known.value;
      var up, down := c.up - s.up, c.down - s.down;
      if up < 0 || down < 0 then (Taken(c), if s.hadTraffic then [Update(id, 0, 0)] else [])
      else if up > 0 || down > 0 then (Snapshot(c.up, c.down, true), [Update(id, up, down)])
      else (s.(hadTraffic := false), if s.hadTraffic then [Update(id, 0, 0)] else [])
  }

  function Known(snapshots: Snapshots, id: Id): Option<Snapshot> {
    if id in snapshots then Some(snapshots[id]) else None
  }

  /** The first half of a tick: snapshots and events after the active connections. */
  function Updates(snapshots: Snapshots, active: seq<Id>, world: map<Id, Counter>): (Snapshots, seq<Wire>)
    requires forall id :: id in active ==> id in world
  {
    if active == [] then (snapshots, [])
    else
      var (s, events) := Updates(snapshots, active[..|active| - 1], world);
      var id := active[|active| - 1];
      var (one, new_events) := TickOne(id, Known(s, id), world[id]);
      (s[id := one], events + new_events)
  }

  /** What is sent of a connection found gone: what the manager remembers of it, if it does. */
  function ClosingOf(id: Id, closed: map<Id, (Moment, Conn)>, now: Moment): Wire {
    if id in closed then Closed(id, closed[id].0, Some(closed[id].1)) else Closed(id, now, None)
  }

  /** The second half: one CLOSED event per connection that is gone, in any order. */
  function Closings(order: seq<Id>, closed: map<Id, (Moment, Conn)>, now: Moment): seq<Wire> {
    if order == [] then []
    else
      var id := order[|order| - 1];
      Closings(order[..|order| - 1], closed, now) +
      [ClosingOf(id, closed, now)]
  }

  lemma {:induction false} ClosingsGrow(order: seq<Id>, id: Id, closed: map<Id, (Moment, Conn)>, now: Moment)
    ensures Elements(order + [id]) == Elements(order) + {id}
    ensures Closings(order + [id], closed, now) ==
      Closings(order, closed, now) + [ClosingOf(id, closed, now)]
  {
    assert (order + [id])[..|order|] == order;
  }

  ghost predicate Enumerates(order: seq<Id>, ids: set<Id>) {
    && (forall id :: id in order <==> id in ids)
    && (forall i, j :: 0 <= i < j < |order| ==> order[i] != order[j])
  }

  ghost function Elements(active: seq<Id>): set<Id> { set id | id in active }

  /** The opening message of the stream: the active connections, then the closed ones still remembered. */
  function InitialOpen(active: seq<Id>, world: map<Id, Counter>): (events: seq<Wire>)
    requires forall id :: id in active ==> id in world
    ensures |events| == |active| && forall i :: 0 <= i < |active| ==>
      events[i] == New(active[i], Opened(world[active[i]]))
  {
    if active == [] then []
    else
      var id := active[|active| - 1];
      InitialOpen(active[..|active| - 1], world) + [New(id, Opened(world[id]))]
  }

  function InitialSnapshots(active: seq<Id>, world: map<Id, Counter>): Snapshots
    requires forall id :: id in active ==> id in world
  {
    if active == [] then map[]
    else
      var id := active[|active| - 1];
      InitialSnapshots(active[..|active| - 1], world)[id := Taken(world[id])]
  }

  function InitialClosed(closed: seq<(Id, Moment, Conn)>): (events: seq<Wire>)
    ensures |events| == |closed| && forall i :: 0 <= i < |closed| ==>
      events[i] == New(closed[i].0, closed[i].2.(closedAt := closed[i].1))
  {
    if closed == [] then []
    else
      var last := closed[|closed| - 1];
      InitialClosed(closed[..|closed| - 1]) + [New(last.0, last.2.(closedAt := last.1))]
  }

  class Stream {
    var snapshots: Snapshots

    constructor ()
      ensures snapshots == map[]
    {
      snapshots := map[];
    }

    /** `buildInitialConnectionState`. */
    method BuildInitial(active: seq<Id>, world: map<Id, Counter>, closed: seq<(Id, Moment, Conn)>)
      returns (events: seq<Wire>)
      requires snapshots == map[] && forall id :: id in active ==> id in world
      modifies this
      ensures snapshots == InitialSnapshots(active, world)
      ensures events == InitialOpen(active, world) + InitialClosed(closed)
    {
      var open: seq<Wire> := [];
      for i := 0 to |active|
        invariant snapshots == InitialSnapshots(active[..i], world)
        invariant open == InitialOpen(active[..i], world)
      {
        assert active[..i + 1][..i] == active[..i];
        var c := world[active[i]];
        open := open + [New(active[i], Opened(c))];
        snapshots := snapshots[active[i] := Snapshot(c.up, c.down, false)];
      }
      assert active[..|active|] == active;
      var shut := ListClosed(closed);
      events := open + shut;
    }

    static method ListClosed(closed: seq<(Id, Moment, Conn)>) returns (events: seq<Wire>)
      ensures events == InitialClosed(closed)
    {
      events := [];
      for i := 0 to |closed|
        invariant events == InitialClosed(closed[..i])
      {
        assert closed[..i + 1][..i] == closed[..i];
        events := events + [New(closed[i].0, closed[i].2.(closedAt := closed[i].1))];
      }
      assert closed[..|closed|] == closed;
    }

    /** `applyConnectionEvent` on an opened connection: whoever agreed before still agrees, given the event. */
    method ApplyNew(id: Id, c: Counter) returns (event: Option<Wire>)
      modifies this
      ensures (snapshots, event) == Announced(old(snapshots), id, c)
      ensures forall client :: Agree(old(snapshots), client) ==> Agree(snapshots, ApplyMaybe(client, event))
    {
      forall client | Agree(snapshots, client)
        ensures Agree(Announced(snapshots, id, c).0, ApplyMaybe(client, Announced(snapshots, id, c).1))
      {
        AnnounceKeepsAgree(snapshots, id, c, client);
      }
      if id in snapshots {
        return None;
      }
      snapshots := snapshots[id := Snapshot(c.up, c.down, false)];
      event := Some(New(id, Opened(c)));
    }

    /** `applyConnectionEvent` on a closed one; the event always goes out. */
    method ApplyClosed(id: Id, at: Moment, last: Option<Conn>) returns (event: Wire)
      modifies this
      ensures (snapshots, event) == Retired(old(snapshots), id, at, last)
      ensures forall client :: Agree(old(snapshots), client) ==> Agree(snapshots, ApplyOne(client, event))
    {
      forall client | Agree(snapshots, client)
        ensures Agree(Retired(snapshots, id, at, last).0, ApplyOne(client, Retired(snapshots, id, at, last).1))
      {
        RetireKeepsAgree(snapshots, id, at, last, client);
      }
      snapshots := snapshots - {id};
      event := Closed(id, at, if last.None? then None else Some(last.value.(closedAt := at)));
    }

    /** The body of the loop over active connections in `buildTrafficUpdates`. */
    method UpdateOne(id: Id, c: Counter) returns (events: seq<Wire>)
      modifies this
      ensures snapshots == old(snapshots)[id := TickOne(id, Known(old(snapshots), id), c).0]
      ensures events == TickOne(id, Known(old(snapshots), id), c).1
    {
      events := [];
      if id !in snapshots {
        snapshots := snapshots[id := Snapshot(c.up, c.down, false)];
        return [New(id, Opened(c))];
      }
      var snapshot := snapshots[id];
      var up, down := c.up - snapshot.up, c.down - snapshot.down;
      if up < 0 || down < 0 {
        if snapshot.hadTraffic {
          events := events + [Update(id, 0, 0)];
        }
        snapshots := snapshots[id := Snapshot(c.up, c.down, false)];
        return;
      }
      if up > 0 || down > 0 {
        snapshots := snapshots[id := Snapshot(c.up, c.down, true)];
        return [Update(id, up, down)];
      }
      if snapshot.hadTraffic {
        snapshots := snapshots[id := Snapshot(c.up, c.down, false)];
        return [Update(id, 0, 0)];
      }
      assert snapshots == snapshots[id := snapshot];
    }

    method UpdateActive(active: seq<Id>, world: map<Id, Counter>) returns (events: seq<Wire>)
      requires forall id :: id in active ==> id in world
      modifies this
      ensures (snapshots, events) == Updates(old(snapshots), active, world)
    {
      events := [];
      for i := 0 to |active|
        invariant (snapshots, events) == Updates(old(snapshots), active[..i], world)
      {
        assert active[..i + 1][..i] == active[..i];
        var more := UpdateOne(active[i], world[active[i]]);
        events := events + more;
      }
      assert active[..|active|] == active;
    }

    /** The loop over snapshots in `buildTrafficUpdates`; a map is visited in no particular order. */
    method CloseGone(active: seq<Id>, closed: map<Id, (Moment, Conn)>, now: Moment)
      returns (events: seq<Wire>, ghost order: seq<Id>)
      modifies this
      ensures Enumerates(order, old(snapshots).Keys - Elements(active)) && events == Closings(order, closed, now)
      ensures snapshots == old(snapshots) - Elements(order)
    {
      events, order := [], [];
      var left := snapshots.Keys;
      while left != {}
        invariant left <= old(snapshots).Keys
        invariant Enumerates(order, old(snapshots).Keys - left - Elements(active))
        invariant events == Closings(order, closed, now)
        invariant snapshots == old(snapshots) - Elements(order)
        decreases left
      {
        var id :| id in left;
        left := left - {id};
        if id in active {
          continue;
        }
        var event := if id in closed then Closed(id, closed[id].0, Some(closed[id].1)) else Closed(id, now, None);
        events := events + [event];
        ClosingsGrow(order, id, closed, now);
        order := order + [id];
        snapshots := snapshots - {id};
      }
    }

    /** `buildTrafficUpdates`. */
    method BuildTrafficUpdates(active: seq<Id>, world: map<Id, Counter>, closed: map<Id, (Moment, Conn)>, now: Moment)
      returns (events: seq<Wire>, ghost order: seq<Id>)
      requires forall id :: id in active ==> id in world
      modifies this
      ensures Enumerates(order, Updates(old(snapshots), active, world).0.Keys - Elements(active))
      ensures events == Updates(old(snapshots), active, world).1 + Closings(order, closed, now)
      ensures snapshots == Updates(old(snapshots), active, world).0 - Elements(order)
    {
      var updates := UpdateActive(active, world);
      var closings;
      closings, order := CloseGone(active, closed, now);
      events := updates + closings;
    }
  }
}
