/**
 * How a connection stream recovers from a bad start: connections listed both active and closed are held
 * by the daemon and not held open by the client, until a tick no longer finds them active.
 */
module StreamHealing {
  import opened Wrappers
  import opened ConnectionStream
  import opened StreamRebuild

  /** Agreement apart from `hidden`, which the daemon holds and the client does not hold open. */
  ghost predicate AgreeBut(snapshots: Snapshots, client: Client, hidden: set<Id>) {
    hidden <= snapshots.Keys && Agree(snapshots - hidden, client)
  }

  lemma {:induction false} AgreeButNone(snapshots: Snapshots, client: Client)
    ensures AgreeBut(snapshots, client, {}) <==> Agree(snapshots, client)
  {
    assert snapshots - {} == snapshots;
  }

  /** An update of a connection the client does not hold open changes no agreement. */
  lemma {:induction false} UpdateStaysHidden(snapshots: Snapshots, client: Client, id: Id, up: int, down: int)
    requires Agree(snapshots, client) && id !in snapshots
    ensures Agree(snapshots, ApplyOne(client, Update(id, up, down)))
  {
    assert Matches(Known(snapshots, id), Find(client, id));
    OneKeepsAgree(snapshots, client, snapshots, ApplyOne(client, Update(id, up, down)), id);
  }

  lemma {:induction false} HiddenTick(snapshots: Snapshots, client: Client, hidden: set<Id>, id: Id, c: Counter)
    requires AgreeBut(snapshots, client, hidden) && id in hidden
    ensures
      var (one, events) := TickOne(id, Known(snapshots, id), c);
      AgreeBut(snapshots[id := one], ApplyAll(client, events), hidden)
  {
    var (one, events) := TickOne(id, Known(snapshots, id), c);
    assert snapshots[id := one] - hidden == snapshots - hidden;
    if events != [] {
      ApplySome(client, events[0]);
      UpdateStaysHidden(snapshots - hidden, client, id, events[0].up, events[0].down);
    }
  }

  lemma {:induction false} OpenTick(snapshots: Snapshots, client: Client, hidden: set<Id>, id: Id, c: Counter)
    requires AgreeBut(snapshots, client, hidden) && id !in hidden && Reached(Known(snapshots, id), c)
    ensures
      var (one, events) := TickOne(id, Known(snapshots, id), c);
      AgreeBut(snapshots[id := one], ApplyAll(client, events), hidden)
  {
    var (one, events) := TickOne(id, Known(snapshots, id), c);
    assert Known(snapshots - hidden, id) == Known(snapshots, id);
    assert Matches(Known(snapshots - hidden, id), Find(client, id));
    TickOneRebuilds(id, Known(snapshots, id), c, client);
    OneKeepsAgree(snapshots - hidden, client, snapshots[id := one] - hidden, ApplyAll(client, events), id);
  }

  lemma {:induction false} UpdatesAround(snapshots: Snapshots, active: seq<Id>, world: World, client: Client,
                                         hidden: set<Id>)
    requires AgreeBut(snapshots, client, hidden) && AllReached(snapshots, active, world) && Distinct(active)
    ensures
      var (s, events) := Updates(snapshots, active, world);
      && AgreeBut(s, ApplyAll(client, events), hidden)
      && (forall id :: id in active ==> id in s && Reached(Some(s[id]), world[id]))
      && (forall id :: id !in active ==> Known(s, id) == Known(snapshots, id))
  {
    if active != [] {
      var front, id := active[..|active| - 1], active[|active| - 1];
      assert id !in front && active == front + [id];
      UpdatesAround(snapshots, front, world, client, hidden);
      var (s, events) := Updates(snapshots, front, world);
      ApplyConcat(client, events, TickOne(id, Known(s, id), world[id]).1);
      if id in hidden {
        HiddenTick(s, ApplyAll(client, events), hidden, id, world[id]);
      } else {
        OpenTick(s, ApplyAll(client, events), hidden, id, world[id]);
      }
    }
  }

  /** A tick leaves hidden only what it finds active. */
  lemma {:induction false} TickHeals(snapshots: Snapshots, active: seq<Id>, world: World, order: seq<Id>,
                                     closed: map<Id, (Moment, Conn)>, now: Moment, client: Client, hidden: set<Id>)
    requires AgreeBut(snapshots, client, hidden) && AllReached(snapshots, active, world) && Distinct(active)
    requires TickOrder(snapshots, active, world, order)
    ensures AgreeBut(TickSnapshots(snapshots, active, world, order),
                     ApplyAll(client, TickEvents(snapshots, active, world, order, closed, now)),
                       hidden * Elements(active))
  {
    var (s, events) := Updates(snapshots, active, world);
    UpdatesAround(snapshots, active, world, client, hidden);
    ApplyConcat(client, events, Closings(order, closed, now));
    ClosingsRebuild(s - hidden, order, closed, now, ApplyAll(client, events));
    SameRemainder(s, hidden, order, active);
  }

  lemma {:induction false} SameRemainder(s: Snapshots, hidden: set<Id>, order: seq<Id>, active: seq<Id>)
    requires Enumerates(order, s.Keys - Elements(active)) && hidden <= s.Keys
    ensures s - hidden - Elements(order) == s - Elements(order) - hidden * Elements(active)
    ensures hidden * Elements(active) <= (s - Elements(order)).Keys
  {
  }

  ghost predicate HealingOk(s: State, hidden: set<Id>) {
    AgreeBut(s.snapshots, s.client, hidden) && Below(s.snapshots, s.world)
  }

  /** What is still hidden after a step. */
  ghost function StillHidden(hidden: set<Id>, act: Act): set<Id> {
    match act
    case Retire(id, _, _) => hidden - {id}
    case Tick(active, _, _, _) => hidden * Elements(active)
    case _ => hidden
  }

  lemma {:induction false} AnnounceHides(s: State, step: Step, hidden: set<Id>)
    requires HealingOk(s, hidden) && CanTake(s, step) && step.act.Announce?
    ensures HealingOk(Take(s, step), hidden)
  {
    var id := step.act.id;
    if id !in s.snapshots {
      AnnounceKeepsAgree(s.snapshots - hidden, id, step.world[id], s.client);
      assert Take(s, step).snapshots - hidden == (s.snapshots - hidden)[id := Taken(step.world[id])];
    }
  }

  lemma {:induction false} RetireHides(s: State, step: Step, hidden: set<Id>)
    requires HealingOk(s, hidden) && CanTake(s, step) && step.act.Retire?
    ensures HealingOk(Take(s, step), hidden - {step.act.id})
  {
    var id := step.act.id;
    RetireKeepsAgree(s.snapshots - hidden, id, step.act.at, step.act.last, s.client);
    assert s.snapshots - {id} - (hidden - {id}) == s.snapshots - hidden - {id};
  }

  lemma {:induction false} TickHides(s: State, step: Step, hidden: set<Id>)
    requires HealingOk(s, hidden) && CanTake(s, step) && step.act.Tick?
    ensures HealingOk(Take(s, step), hidden * Elements(step.act.active))
  {
    var Tick(active, order, closed, now) := step.act;
    TickHeals(s.snapshots, active, step.world, order, closed, now, s.client, hidden);
    UpdatesAround(s.snapshots, active, step.world, s.client, hidden);
  }

  lemma {:induction false} ForgetHides(s: State, step: Step, hidden: set<Id>)
    requires HealingOk(s, hidden) && CanTake(s, step) && step.act.Forget?
    ensures HealingOk(Take(s, step), hidden)
  {
    forall x ensures Matches(Known(s.snapshots - hidden, x), Find(Evict(s.client, step.act.time), x)) {
      assert Matches(Known(s.snapshots - hidden, x), Find(s.client, x));
    }
  }

  lemma {:induction false} StepHides(s: State, step: Step, hidden: set<Id>)
    requires HealingOk(s, hidden) && CanTake(s, step)
    ensures HealingOk(Take(s, step), StillHidden(hidden, step.act))
  {
    match step.act
    case Announce(_) => AnnounceHides(s, step, hidden);
    case Retire(_, _, _) => RetireHides(s, step, hidden);
    case Tick(_, _, _, _) => TickHides(s, step, hidden);
    case Forget(_) => ForgetHides(s, step, hidden);
  }

  /** Some tick of the run found none of `hidden` active. */
  ghost predicate Heals(steps: seq<Step>, hidden: set<Id>) {
    exists i :: 0 <= i < |steps| && steps[i].act.Tick? && Elements(steps[i].act.active) !! hidden
  }

  /**
   * Whatever the stream goes on to do, no other connection is affected by a bad start; and from the first
   * tick on that finds none of the doubly listed connections active, client and daemon agree entirely.
   */
  lemma {:induction false} BadStartHeals(s: State, steps: seq<Step>, t: State, hidden: set<Id>) returns (left: set<Id>)
    requires HealingOk(s, hidden) && Runs(s, steps, t)
    ensures left <= hidden && HealingOk(t, left)
    ensures Heals(steps, hidden) ==> left == {} && Agree(t.snapshots, t.client)
    decreases |steps|
  {
    if steps == [] {
      left := hidden;
    } else {
      var first := StillHidden(hidden, steps[0].act);
      StepHides(s, steps[0], hidden);
      left := BadStartHeals(Take(s, steps[0]), steps[1..], t, first);
      if Heals(steps, hidden) {
        var i :| 0 <= i < |steps| && steps[i].act.Tick? && Elements(steps[i].act.active) !! hidden;
        if i == 0 {
          assert first == {};
        } else {
          assert steps[1..][i - 1] == steps[i];
          assert Heals(steps[1..], first);
        }
        AgreeButNone(t.snapshots, t.client);
      }
    }
  }

  /** The connections the opening message lists both ways. */
  ghost function DoublyListed(active: seq<Id>, closed: seq<(Id, Moment, Conn)>): set<Id> {
    set i | 0 <= i < |closed| && closed[i].0 in active :: closed[i].0
  }

  /** Every stream starts in agreement apart from what its opening message lists both active and closed. */
  lemma {:induction false} InitialAgreesBut(active: seq<Id>, world: World, closed: seq<(Id, Moment, Conn)>)
    requires forall id :: id in active ==> id in world
    ensures
      var client := ApplyAll(map[], InitialOpen(active, world) + InitialClosed(closed));
      HealingOk(State(InitialSnapshots(active, world), client, world), DoublyListed(active, closed))
  {
    var events := InitialOpen(active, world) + InitialClosed(closed);
    var client := ApplyAll(map[], events);
    var snapshots, hidden := InitialSnapshots(active, world), DoublyListed(active, closed);
    InitialSnapshotsHold(active, world);
    forall id ensures Matches(Known(snapshots - hidden, id), Find(client, id)) {
      LastNewWins(map[], events, id);
      if id in hidden {
        var i :| 0 <= i < |closed| && closed[i].0 in active && closed[i].0 == id;
        assert events[|active| + i].id == id;
      } else if id in active {
        var k :| 0 <= k < |active| && active[k] == id;
        assert events[k].id == id;
      }
    }
  }
}
