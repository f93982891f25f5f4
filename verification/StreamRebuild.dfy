/** What the client of the connection stream always knows: the open connections, their totals and their rates. */
module StreamRebuild {
  import opened Wrappers
  import opened ConnectionStream

  type World = map<Id, Counter>

  predicate Reached(known: Option<Snapshot>, c: Counter) {
    known.None? || (known.value.up <= c.up && known.value.down <= c.down)
  }

  /** The connection shows exactly the counter, and as its rate what was added since the last snapshot. */
  predicate Shows(conn: Option<Conn>, c: Counter, known: Option<Snapshot>) {
    && conn.Some? && conn.value.closedAt == 0 && conn.value.totalUp == c.up && conn.value.totalDown == c.down
    && conn.value.rateUp == (if known.None? then 0 else c.up - known.value.up)
    && conn.value.rateDown == (if known.None? then 0 else c.down - known.value.down)
  }

  lemma {:induction false} ApplySome(client: Client, e: Wire)
    ensures ApplyAll(client, [e]) == ApplyOne(client, e)
  {
    assert [e][..0] == [];
    assert ApplyAll(client, [e][..0]) == client;
  }

  lemma {:induction false} ApplyConcat(client: Client, a: seq<Wire>, b: seq<Wire>)
    ensures ApplyAll(client, a + b) == ApplyAll(ApplyAll(client, a), b)
  {
    if b == [] {
      assert a + b == a;
    } else {
      ApplyConcat(client, a, b[..|b| - 1]);
      assert (a + b)[..|a + b| - 1] == a + b[..|b| - 1];
    }
  }

  lemma {:induction false} TickOneRebuilds(id: Id, known: Option<Snapshot>, c: Counter, client: Client)
    requires Matches(known, Find(client, id)) && Reached(known, c)
    ensures
      var (s, events) := TickOne(id, known, c);
      var after := ApplyAll(client, events);
      && s.up == c.up && s.down == c.down
      && Matches(Some(s), Find(after, id)) && Shows(Find(after, id), c, known)
      && forall other :: other != id ==> Find(after, other) == Find(client, other)
  {
    var (s, events) := TickOne(id, known, c);
    if events != [] {
      ApplySome(client, events[0]);
    }
  }

  /** For any counters, even ones that went back: the totals survive a tick exactly when neither counter fell. */
  lemma {:induction false} TotalsSurviveIff(id: Id, s: Snapshot, c: Counter, client: Client)
    requires Matches(Some(s), Find(client, id))
    ensures
      var after := ApplyAll(client, TickOne(id, Some(s), c).1);
      id in after && (after[id].totalUp == c.up && after[id].totalDown == c.down <==> s.up <= c.up && s.down <= c.down)
  {
    var events := TickOne(id, Some(s), c).1;
    if events != [] {
      ApplySome(client, events[0]);
    }
  }

  ghost predicate AllReached(snapshots: Snapshots, active: seq<Id>, world: World) {
    && (forall id :: id in active ==> id in world)
    && (forall id :: id in active ==> Reached(Known(snapshots, id), world[id]))
  }

  ghost predicate Distinct(active: seq<Id>) { forall i, j :: 0 <= i < j < |active| ==> active[i] != active[j] }

  /** Snapshots `s` and client `after`, once the connections in `active` have been updated from `snapshots`. */
  ghost predicate Updated(snapshots: Snapshots, active: seq<Id>, world: World, s: Snapshots, after: Client)
    requires forall id :: id in active ==> id in world
  {
    && Agree(s, after)
    && (forall id :: id in active ==> id in s && s[id].up == world[id].up && s[id].down == world[id].down)
    && (forall id :: id in active ==> Shows(Find(after, id), world[id], Known(snapshots, id)))
    && (forall id :: id !in active ==> Known(s, id) == Known(snapshots, id))
  }

  lemma {:induction false} UpdatedGrows(snapshots: Snapshots, front: seq<Id>, id: Id, world: World, s: Snapshots,
                                        before: Client, s': Snapshots, after: Client)
    requires (forall x :: x in front ==> x in world) && id in world && id !in front
    requires Updated(snapshots, front, world, s, before)
    requires id in s' && s'[id].up == world[id].up && s'[id].down == world[id].down
    requires Shows(Find(after, id), world[id], Known(snapshots, id)) && Matches(Some(s'[id]), Find(after, id))
    requires forall x :: x != id ==> Find(after, x) == Find(before, x) && Known(s', x) == Known(s, x)
    ensures Updated(snapshots, front + [id], world, s', after)
  {
    forall x ensures Matches(Known(s', x), Find(after, x)) {
      assert x != id ==> Matches(Known(s, x), Find(before, x));
    }
    forall x | x in front + [id] && x != id
      ensures x in s' && s'[x] == s[x] && Shows(Find(after, x), world[x], Known(snapshots, x))
    {
      assert x in front && Known(s', x) == Known(s, x);
    }
  }

  lemma {:induction false} UpdatesRebuild(snapshots: Snapshots, active: seq<Id>, world: World, client: Client)
    requires Agree(snapshots, client) && AllReached(snapshots, active, world) && Distinct(active)
    ensures
      var (s, events) := Updates(snapshots, active, world);
      Updated(snapshots, active, world, s, ApplyAll(client, events))
  {
    if active != [] {
      var front, id := active[..|active| - 1], active[|active| - 1];
      UpdatesRebuild(snapshots, front, world, client);
      assert id !in front && front + [id] == active;
      UpdatesStep(snapshots, active, world, client);
      var (s, events) := Updates(snapshots, front, world);
      var (s', events') := Updates(snapshots, active, world);
      UpdatedGrows(snapshots, front, id, world, s, ApplyAll(client, events), s', ApplyAll(client, events'));
    }
  }

  lemma {:induction false} UpdatesStep(snapshots: Snapshots, active: seq<Id>, world: World, client: Client)
    requires active != [] && forall id :: id in active ==> id in world
    requires
      var front, id := active[..|active| - 1], active[|active| - 1];
      var (s, events) := Updates(snapshots, front, world);
      Agree(s, ApplyAll(client, events)) && Known(s, id) == Known(snapshots, id) &&
        Reached(Known(snapshots, id), world[id])
    ensures
      var front, id := active[..|active| - 1], active[|active| - 1];
      var (s, events) := Updates(snapshots, front, world);
      var (s', events') := Updates(snapshots, active, world);
      var before, after := ApplyAll(client, events), ApplyAll(client, events');
      && s'.Keys == s.Keys + {id} && s'[id].up == world[id].up && s'[id].down == world[id].down
      && Shows(Find(after, id), world[id], Known(snapshots, id)) && Matches(Some(s'[id]), Find(after, id))
      && (forall x :: x != id ==> Find(after, x) == Find(before, x) && Known(s', x) == Known(s, x))
  {
    var front, id := active[..|active| - 1], active[|active| - 1];
    var (s, events) := Updates(snapshots, front, world);
    ApplyConcat(client, events, TickOne(id, Known(s, id), world[id]).1);
    TickOneRebuilds(id, Known(s, id), world[id], ApplyAll(client, events));
  }

  lemma {:induction false} ClosingRebuilds(snapshots: Snapshots, client: Client, id: Id, at: Moment, last: Option<Conn>)
    requires Agree(snapshots, client)
    ensures
      var after := ApplyOne(client, Closed(id, at, last));
      Agree(snapshots - {id}, after) && forall x :: x != id ==> Find(after, x) == Find(client, x)
  {
    var after := ApplyOne(client, Closed(id, at, last));
    forall x ensures Matches(Known(snapshots - {id}, x), Find(after, x)) {
      assert Matches(Known(snapshots, x), Find(client, x));
    }
  }

  lemma {:induction false} ClosingsRebuild(snapshots: Snapshots, order: seq<Id>, closed: map<Id, (Moment, Conn)>,
                                           now: Moment, client: Client)
    requires Agree(snapshots, client)
    ensures
      var after := ApplyAll(client, Closings(order, closed, now));
      && Agree(snapshots - Elements(order), after)
      && (forall id :: id !in order ==> Find(after, id) == Find(client, id))
  {
    if order == [] {
      assert snapshots - Elements(order) == snapshots;
    } else {
      var front, id := order[..|order| - 1], order[|order| - 1];
      assert order == front + [id];
      ClosingsRebuild(snapshots, front, closed, now, client);
      ClosingsGrow(front, id, closed, now);
      var before, event := ApplyAll(client, Closings(front, closed, now)), ClosingOf(id, closed, now);
      ApplyConcat(client, Closings(front, closed, now), [event]);
      ApplySome(before, event);
      assert snapshots - Elements(order) == snapshots - Elements(front) - {id};
      ClosingRebuilds(snapshots - Elements(front), before, id, event.closedAt, event.last);
    }
  }

  ghost function OpenIds(client: Client): set<Id> { set id | id in client && client[id].closedAt == 0 }

  /** Agreement already says that the client's open connections are the daemon's snapshots. */
  lemma {:induction false} OpenIsSnapshots(snapshots: Snapshots, client: Client)
    requires Agree(snapshots, client)
    ensures OpenIds(client) == snapshots.Keys
  {
    forall id ensures id in OpenIds(client) <==> id in snapshots {
      assert Matches(Known(snapshots, id), Find(client, id));
    }
  }

  /** A client in agreement lists as active exactly the daemon's connections, each once, with their totals. */
  lemma {:induction false} ActiveListIsSnapshots(snapshots: Snapshots, client: Client, items: seq<Item>)
    requires Agree(snapshots, client) && Lists(items, client)
    ensures forall id :: id in snapshots <==> exists c :: (id, c) in Filtered(items, Active)
    ensures forall id, c :: (id, c) in Filtered(items, Active) ==>
      id in snapshots && c.totalUp == snapshots[id].up && c.totalDown == snapshots[id].down
  {
    forall id ensures id in snapshots <==> exists c :: (id, c) in Filtered(items, Active) {
      assert Matches(Known(snapshots, id), Find(client, id));
      if id in snapshots {
        assert (id, client[id]) in Filtered(items, Active);
      }
    }
    forall id, c | (id, c) in Filtered(items, Active)
      ensures id in snapshots && c.totalUp == snapshots[id].up && c.totalDown == snapshots[id].down
    {
      assert Matches(Known(snapshots, id), Find(client, id));
    }
  }

  /** The state of `Stream` and of the client after a whole tick. */
  function TickSnapshots(snapshots: Snapshots, active: seq<Id>, world: World, order: seq<Id>): Snapshots
    requires forall id :: id in active ==> id in world
  {
    Updates(snapshots, active, world).0 - (set id | id in order)
  }

  function TickEvents(snapshots: Snapshots, active: seq<Id>, world: World, order: seq<Id>,
                      closed: map<Id, (Moment, Conn)>, now: Moment): seq<Wire>
    requires forall id :: id in active ==> id in world
  {
    Updates(snapshots, active, world).1 + Closings(order, closed, now)
  }

  ghost predicate TickOrder(snapshots: Snapshots, active: seq<Id>, world: World, order: seq<Id>) {
    && (forall id :: id in active ==> id in world)
    && Enumerates(order, Updates(snapshots, active, world).0.Keys - Elements(active))
  }

  /**
   * One tick, with counters that have not gone back: whatever order the map was visited in, the client
   * afterwards holds open exactly the active connections, each with its current totals and, as its
   * rate, what it moved since the previous snapshot.
   */
  lemma {:induction false} TickRebuilds(snapshots: Snapshots, active: seq<Id>, world: World, order: seq<Id>,
                                        closed: map<Id, (Moment, Conn)>, now: Moment, client: Client)
    requires Agree(snapshots, client) && AllReached(snapshots, active, world) && Distinct(active)
    requires TickOrder(snapshots, active, world, order)
    ensures
      var s := TickSnapshots(snapshots, active, world, order);
      var after := ApplyAll(client, TickEvents(snapshots, active, world, order, closed, now));
      && Agree(s, after) && OpenIds(after) == s.Keys == Elements(active)
      && (forall id :: id in active ==> id in s && s[id].up == world[id].up && s[id].down == world[id].down)
      && (forall id :: id in active ==> Shows(Find(after, id), world[id], Known(snapshots, id)))
  {
    var (s, events) := Updates(snapshots, active, world);
    UpdatesRebuild(snapshots, active, world, client);
    ApplyConcat(client, events, Closings(order, closed, now));
    ClosingsRebuild(s, order, closed, now, ApplyAll(client, events));
    var after := ApplyAll(client, TickEvents(snapshots, active, world, order, closed, now));
    OpenIsSnapshots(TickSnapshots(snapshots, active, world, order), after);
    assert TickSnapshots(snapshots, active, world, order).Keys == Elements(active);
  }

  // ---------------------------------------------------------------- idle connections

  /** Consecutive ticks of one connection at the same counters. */
  function IdleTicks(id: Id, s: Snapshot, c: Counter, n: nat): (Snapshot, seq<Wire>) {
    if n == 0 then (s, [])
    else
      var (s', events) := IdleTicks(id, s, c, n - 1);
      var (s'', more) := TickOne(id, Some(s'), c);
      (s'', events + more)
  }

  /** When traffic stops, exactly one zero update goes out, at the first idle tick, however long the silence. */
  lemma {:induction false} ZeroUpdateOnce(id: Id, s: Snapshot, n: nat)
    ensures
      var (s', events) := IdleTicks(id, s, Counter(s.up, s.down), n);
      && events == (if s.hadTraffic && n > 0 then [Update(id, 0, 0)] else [])
      && s' == if n > 0 then s.(hadTraffic := false) else s
  {
    if n > 0 {
      ZeroUpdateOnce(id, s, n - 1);
    }
  }

  // -------------------------------------------------------------------- whole streams

  datatype State = State(snapshots: Snapshots, client: Client, world: World)

  datatype Act =
    | Announce(id: Id)
    | Retire(id: Id, at: Moment, last: Option<Conn>)
    | Tick(active: seq<Id>, order: seq<Id>, closed: map<Id, (Moment, Conn)>, now: Moment)
    | Forget(time: int)

  datatype Step = Step(world: World, act: Act)

  ghost predicate Grows(before: World, after: World) {
    forall id :: id in before ==> id in after && before[id].up <= after[id].up && before[id].down <= after[id].down
  }

  ghost predicate CanTake(s: State, step: Step) {
    && Grows(s.world, step.world)
    && match step.act
       case Announce(id) => id in step.world
       case Tick(active, order, _, _) => Distinct(active) && TickOrder(s.snapshots, active, step.world, order)
       case _ => true
  }

  ghost function Take(s: State, step: Step): State
    requires CanTake(s, step)
  {
    match step.act
    case Announce(id) =>
      var (snapshots, event) := Announced(s.snapshots, id, step.world[id]);
      State(snapshots, ApplyMaybe(s.client, event), step.world)
    case Retire(id, at, last) =>
      var (snapshots, event) := Retired(s.snapshots, id, at, last);
      State(snapshots, ApplyOne(s.client, event), step.world)
    case Tick(active, order, closed, now) =>
      State(TickSnapshots(s.snapshots, active, step.world, order),
            ApplyAll(s.client, TickEvents(s.snapshots, active, step.world, order, closed, now)), step.world)
    case Forget(time) => State(s.snapshots, Evict(s.client, time), step.world)
  }

  ghost predicate Runs(s: State, steps: seq<Step>, t: State)
    decreases |steps|
  {
    if steps == [] then s == t else CanTake(s, steps[0]) && Runs(Take(s, steps[0]), steps[1..], t)
  }

  ghost predicate Below(snapshots: Snapshots, world: World) {
    forall id :: id in snapshots ==> id in world && Reached(Some(snapshots[id]), world[id])
  }

  ghost predicate StreamOk(s: State) { Agree(s.snapshots, s.client) && Below(s.snapshots, s.world) }

  lemma {:induction false} TickKeepsOk(s: State, step: Step)
    requires StreamOk(s) && CanTake(s, step) && step.act.Tick?
    ensures StreamOk(Take(s, step))
    ensures
      var t := Take(s, step);
      && OpenIds(t.client) == Elements(step.act.active)
      && forall id :: id in step.act.active ==> Shows(Find(t.client, id), t.world[id], Known(s.snapshots, id))
  {
    TickRebuilds(s.snapshots, step.act.active, step.world, step.act.order, step.act.closed, step.act.now, s.client);
  }

  lemma {:induction false} StepKeepsOk(s: State, step: Step)
    requires StreamOk(s) && CanTake(s, step)
    ensures StreamOk(Take(s, step))
  {
    var t := Take(s, step);
    match step.act
    case Announce(id) => AnnounceKeepsAgree(s.snapshots, id, step.world[id], s.client);
    case Retire(id, at, last) => RetireKeepsAgree(s.snapshots, id, at, last, s.client);
    case Tick(_, _, _, _) =>
      TickKeepsOk(s, step);
    case Forget(time) =>
      forall x ensures Matches(Known(t.snapshots, x), Find(t.client, x)) {
        assert Matches(Known(s.snapshots, x), Find(s.client, x));
      }
  }

  /**
   * Over a whole stream of announcements, closings, ticks and evictions with growing counters, the
   * client's open connections are always the daemon's snapshots, with the snapshots' totals.
   */
  lemma {:induction false} StreamAlwaysAgrees(s: State, steps: seq<Step>, t: State)
    requires StreamOk(s) && Runs(s, steps, t)
    ensures StreamOk(t) && OpenIds(t.client) == t.snapshots.Keys
    ensures forall id :: id in t.snapshots ==>
      t.client[id].totalUp == t.snapshots[id].up && t.client[id].totalDown == t.snapshots[id].down
    decreases |steps|
  {
    if steps == [] {
      OpenIsSnapshots(t.snapshots, t.client);
      forall id | id in t.snapshots
        ensures id in t.client && t.client[id].totalUp == t.snapshots[id].up &&
          t.client[id].totalDown == t.snapshots[id].down
      {
        assert Matches(Known(t.snapshots, id), Find(t.client, id));
      }
    } else {
      StepKeepsOk(s, steps[0]);
      StreamAlwaysAgrees(Take(s, steps[0]), steps[1..], t);
    }
  }

  lemma {:induction false} InitialSnapshotsHold(active: seq<Id>, world: World)
    requires forall id :: id in active ==> id in world
    ensures forall id :: id in InitialSnapshots(active, world) <==> id in active
    ensures forall id :: id in active ==> InitialSnapshots(active, world)[id] == Taken(world[id])
  {
    if active != [] {
      InitialSnapshotsHold(active[..|active| - 1], world);
      assert active == active[..|active| - 1] + [active[|active| - 1]];
    }
  }

  predicate LastNewOf(events: seq<Wire>, id: Id, i: int) {
    0 <= i < |events| && events[i].New? && events[i].id == id && forall j :: i < j < |events| ==> events[j].id != id
  }

  lemma {:induction false} LastNewWins(client: Client, events: seq<Wire>, id: Id)
    requires forall i :: 0 <= i < |events| ==> events[i].New?
    ensures
      var after := ApplyAll(client, events);
      || (Find(after, id) == Find(client, id) && forall i :: 0 <= i < |events| ==> events[i].id != id)
      || exists i :: LastNewOf(events, id, i) && Find(after, id) == Some(events[i].conn)
  {
    if events != [] {
      LastNewWins(client, events[..|events| - 1], id);
    }
  }

  /** The stream starts in agreement exactly when no connection is listed both active and closed. */
  lemma {:induction false} InitialAgreesIff(active: seq<Id>, world: World, closed: seq<(Id, Moment, Conn)>,
                                            snapshots: Snapshots)
    requires forall id :: id in active ==> id in world
    requires snapshots == InitialSnapshots(active, world)
    ensures StreamOk(State(snapshots, ApplyAll(map[], InitialOpen(active, world) + InitialClosed(closed)), world)) <==>
      forall i :: 0 <= i < |closed| ==> closed[i].0 !in active
  {
    var events := InitialOpen(active, world) + InitialClosed(closed);
    var client := ApplyAll(map[], events);
    InitialSnapshotsHold(active, world);
    if i :| 0 <= i < |closed| && closed[i].0 in active {
      var id := closed[i].0;
      LastNewWins(map[], events, id);
      assert events[|active| + i].id == id;
      assert client[id].closedAt != 0;
      assert !Matches(Known(snapshots, id), Find(client, id));
    } else {
      forall id ensures Matches(Known(snapshots, id), Find(client, id)) {
        LastNewWins(map[], events, id);
        if id in active {
          var k :| 0 <= k < |active| && active[k] == id;
          assert events[k].id == id;
        }
      }
    }
  }
}
