/**
 * The single-flight lock of the DNS client (dns/client.go, `beginExchange`, `release`, `Exchange`,
 * `ExchangeAsync`): any number of exchanges interleaving on the shared lock table.
 */
module SingleFlight {
  type Key = nat
  type Chan = nat

  /** How far an exchange past the lock has come; every stage but the last has an exit to `Leaving`. */
  datatype Stage = Probing | Checking | Exchanging | Finishing | Leaving

  datatype Phase =
    | Start
    | Holding(ch: Chan, stage: Stage) // its channel is in the table: the owner
    | Deleted(ch: Chan)               // has removed its key, the channel is not closed yet
    | Joined(ch: Chan)                // found another owner's channel, about to look in the cache
    | Waiting(ch: Chan)
    | Unowned(stage: Stage)           // goes on without owning the key: woken up, or not using the cache
    | Done
  {
    predicate At(stage: Stage) { (Holding? || Unowned?) && this.stage == stage }
    predicate Owns(c: Chan) { (Holding? || Deleted?) && ch == c }
  }

  /**
   * `cached` is false when the cache is disabled for the exchange, which then ignores the lock table;
   * `mayWait` is true in `Exchange` and false in the first attempt of `ExchangeAsync`.
   */
  datatype Op = Op(key: Key, cached: bool, mayWait: bool, phase: Phase)

  /**
   * `owned` records which exchange created which channel, `created` under which key, and `waited` the
   * channel each woken exchange had waited on; `closes` counts closes of each channel.
   */
  datatype Config = Config(
    ops: map<nat, Op>,
    table: map<Key, Chan>,
    closes: map<Chan, nat>,
    owned: map<nat, Chan>,
    next: Chan,
    created: map<Chan, Key>,
    waited: map<nat, Chan>)

  datatype Event =
    | Arrive(id: nat, key: Key, cached: bool, mayWait: bool)
    | Bypass(id: nat)       // the cache is disabled for it
    | LoadOrStore(id: nat)
    | Hit(id: nat)          // a usable cached response
    | Miss(id: nat)
    | Refuse(id: nat)       // query loopback, or a response already known to be rejected
    | Send(id: nat)
    | Fail(id: nat)         // the transport failed
    | Reply(id: nat)
    | Conclude(id: nat)     // the response was rejected, or accepted and perhaps cached
    | DeleteKey(id: nat)    // the two halves of `release`
    | CloseChannel(id: nat)
    | Wake(id: nat)
    | GiveUp(id: nat)       // the waiter's context ended

  function InitialConfig(): Config { Config(map[], map[], map[], map[], 0, map[], map[]) }

  function CloseCount(c: Config, ch: Chan): nat { if ch in c.closes then c.closes[ch] else 0 }

  predicate InPhase(c: Config, ev: Event)
    requires ev.id in c.ops
  {
    var p := c.ops[ev.id].phase;
    match ev
    case Arrive(_, _, _, _) => false
    case Bypass(_) => p.Start? && !c.ops[ev.id].cached
    case LoadOrStore(_) => p.Start? && c.ops[ev.id].cached
    case Hit(_) => p.Joined? || p.At(Probing)
    case Miss(_) => p.Joined? || p.At(Probing)
    case Refuse(_) => p.At(Checking)
    case Send(_) => p.At(Checking)
    case Fail(_) => p.At(Exchanging)
    case Reply(_) => p.At(Exchanging)
    case Conclude(_) => p.At(Finishing)
    case DeleteKey(_) => p.Holding? && p.stage.Leaving?
    case CloseChannel(_) => p.Deleted?
    case Wake(_) => p.Waiting? && CloseCount(c, p.ch) > 0
    case GiveUp(_) => p.Waiting?
  }

  predicate Enabled(c: Config, ev: Event) {
    if ev.Arrive? then ev.id !in c.ops else ev.id in c.ops && InPhase(c, ev)
  }

  function Move(c: Config, id: nat, phase: Phase): Config
    requires id in c.ops
  {
    c.(ops := c.ops[id := c.ops[id].(phase := phase)])
  }

  /** Leaving an exchange: the owner still has to release, anyone else is done. */
  function Exit(p: Phase): Phase {
    if p.Holding? then Holding(p.ch, Leaving) else Done
  }

  function Enter(p: Phase, stage: Stage): Phase {
    match p
    case Holding(ch, _) => Holding(ch, stage)
    case _ => Unowned(stage)
  }

  /** The exchange becomes the owner of its key, with a new channel. */
  function NewChannel(c: Config, id: nat): Config
    requires id in c.ops
  {
    var key := c.ops[id].key;
    c.(table := c.table[key := c.next], owned := c.owned[id := c.next], created := c.created[c.next := key],
       next := c.next + 1)
  }

  function Fire(c: Config, ev: Event): Config
    requires Enabled(c, ev)
  {
    if ev.Arrive? then c.(ops := c.ops[ev.id := Op(ev.key, ev.cached, ev.mayWait, Start)])
    else
      var id := ev.id;
      var op := c.ops[id];
      match ev
      case Bypass(_) => Move(c, id, Unowned(Checking))
      case LoadOrStore(_) =>
        if op.key in c.table then Move(c, id, Joined(c.table[op.key]))
        else Move(NewChannel(c, id), id, Holding(c.next, Probing))
      case Hit(_) => Move(c, id, Exit(op.phase))
      case Miss(_) =>
        if op.phase.Joined? then
          if op.mayWait then Move(c, id, Waiting(op.phase.ch))
          else c.(ops := c.ops[id := op.(mayWait := true, phase := Start)])
        else Move(c, id, Enter(op.phase, Checking))
      case Refuse(_) => Move(c, id, Exit(op.phase))
      case Send(_) => Move(c, id, Enter(op.phase, Exchanging))
      case Fail(_) => Move(c, id, Exit(op.phase))
      case Reply(_) => Move(c, id, Enter(op.phase, Finishing))
      case Conclude(_) => Move(c, id, Exit(op.phase))
      case DeleteKey(_) => Move(c.(table := c.table - {op.key}), id, Deleted(op.phase.ch))
      case CloseChannel(_) => Move(c.(closes := c.closes[op.phase.ch := CloseCount(c, op.phase.ch) + 1]), id, Done)
      case Wake(_) => Move(c.(waited := c.waited[id := op.phase.ch]), id, Unowned(Probing))
      case GiveUp(_) => Move(c, id, Done)
  }

  ghost predicate Runs(c: Config, events: seq<Event>, c': Config)
    decreases |events|
  {
    if events == [] then c' == c else Enabled(c, events[0]) && Runs(Fire(c, events[0]), events[1..], c')
  }

  // ----------------------------------------------------------------- invariant

  ghost predicate HeldBy(ops: map<nat, Op>, k: Key, ch: Chan, i: nat) {
    i in ops && ops[i].key == k && ops[i].phase.Holding? && ops[i].phase.ch == ch
  }

  ghost predicate Held(ops: map<nat, Op>, k: Key, ch: Chan) { exists i :: HeldBy(ops, k, ch, i) }

  ghost predicate CreatedBy(owned: map<nat, Chan>, ch: Chan, i: nat) { i in owned && owned[i] == ch }

  ghost predicate Created(owned: map<nat, Chan>, ch: Chan) { exists i :: CreatedBy(owned, ch, i) }

  /** The table holds exactly the channels of the exchanges that own a key. */
  ghost predicate TableOk(ops: map<nat, Op>, table: map<Key, Chan>) {
    && (forall i :: i in ops && ops[i].phase.Holding? ==> ops[i].key in table && table[ops[i].key] == ops[i].phase.ch)
    && (forall k :: k in table ==> Held(ops, k, table[k]))
  }

  /** A channel is closed once, when the exchange that created it is done. */
  ghost predicate OwnerOk(ops: map<nat, Op>, closes: map<Chan, nat>, i: nat, ch: Chan) {
    && i in ops
    && (if ops[i].phase.Done? then ch in closes && closes[ch] == 1 else ops[i].phase.Owns(ch) && ch !in closes)
  }

  ghost predicate OwnersOk(ops: map<nat, Op>, closes: map<Chan, nat>, owned: map<nat, Chan>) {
    && (forall i :: i in owned ==> OwnerOk(ops, closes, i, owned[i]))
    && (forall i :: i in ops && (ops[i].phase.Holding? || ops[i].phase.Deleted?) ==> i in owned)
  }

  /** Channels are numbered as they are created, each by one exchange. */
  ghost predicate ChannelsOk(closes: map<Chan, nat>, owned: map<nat, Chan>, next: Chan) {
    && (forall i :: i in owned ==> owned[i] < next)
    && (forall i, j :: i in owned && j in owned && owned[i] == owned[j] ==> i == j)
    && (forall ch :: ch in closes ==> ch < next)
    && (forall ch: nat :: ch < next ==> Created(owned, ch))
  }

  /** Whoever waits, or is about to, does so on a channel that was created. */
  ghost predicate WaitersOk(ops: map<nat, Op>, next: Chan) {
    forall i :: i in ops && (ops[i].phase.Joined? || ops[i].phase.Waiting?) ==> ops[i].phase.ch < next
  }

  ghost predicate Ok(c: Config) {
    && TableOk(c.ops, c.table)
    && OwnersOk(c.ops, c.closes, c.owned)
    && ChannelsOk(c.closes, c.owned, c.next)
    && WaitersOk(c.ops, c.next)
  }

  /** Changing one exchange keeps every holder of a key that is not that exchange, or that still holds. */
  lemma {:induction false} HeldStays(ops: map<nat, Op>, id: nat, op: Op, k: Key, ch: Chan)
    requires Held(ops, k, ch)
    requires HeldBy(ops, k, ch, id) ==> op.key == k && op.phase.Holding? && op.phase.ch == ch
    ensures Held(ops[id := op], k, ch)
  {
    var i :| HeldBy(ops, k, ch, i);
    assert HeldBy(ops[id := op], k, ch, i);
  }

  lemma {:induction false} MoveKeepsTable(ops: map<nat, Op>, table: map<Key, Chan>, id: nat, op: Op)
    requires TableOk(ops, table) && id in ops && op.key == ops[id].key
    requires if ops[id].phase.Holding? then op.phase.Holding? && op.phase.ch == ops[id].phase.ch else !op.phase.Holding?
    ensures TableOk(ops[id := op], table)
  {
    forall k | k in table ensures Held(ops[id := op], k, table[k]) {
      HeldStays(ops, id, op, k, table[k]);
    }
  }

  lemma {:induction false} MoveKeepsOwners(ops: map<nat, Op>, closes: map<Chan, nat>, owned: map<nat, Chan>, id: nat,
                                           op: Op)
    requires OwnersOk(ops, closes, owned) && id in ops
    requires if ops[id].phase.Holding? then op.phase.Holding? && op.phase.ch == ops[id].phase.ch
             else !ops[id].phase.Deleted? && !ops[id].phase.Done? && !op.phase.Holding? && !op.phase.Deleted?
    ensures OwnersOk(ops[id := op], closes, owned)
  {
    forall i | i in owned ensures OwnerOk(ops[id := op], closes, i, owned[i]) {
      assert OwnerOk(ops, closes, i, owned[i]);
    }
  }

  /** A move of an exchange that neither takes nor gives up the key. */
  lemma {:induction false} QuietMove(c: Config, id: nat, op: Op)
    requires Ok(c) && id in c.ops && op.key == c.ops[id].key
    requires if c.ops[id].phase.Holding? then op.phase.Holding? && op.phase.ch == c.ops[id].phase.ch
             else !c.ops[id].phase.Deleted? && !c.ops[id].phase.Done? && !op.phase.Holding? && !op.phase.Deleted?
    requires op.phase.Joined? || op.phase.Waiting? ==> op.phase.ch < c.next
    ensures Ok(c.(ops := c.ops[id := op]))
  {
    MoveKeepsTable(c.ops, c.table, id, op);
    MoveKeepsOwners(c.ops, c.closes, c.owned, id, op);
  }

  lemma {:induction false} ArriveKeepsOk(c: Config, ev: Event)
    requires Ok(c) && ev.Arrive? && Enabled(c, ev)
    ensures Ok(Fire(c, ev))
  {
    var op := Op(ev.key, ev.cached, ev.mayWait, Start);
    forall k | k in c.table ensures Held(c.ops[ev.id := op], k, c.table[k]) {
      HeldStays(c.ops, ev.id, op, k, c.table[k]);
    }
    forall i | i in c.owned ensures OwnerOk(c.ops[ev.id := op], c.closes, i, c.owned[i]) {
      assert OwnerOk(c.ops, c.closes, i, c.owned[i]);
    }
  }

  lemma {:induction false} StoreKeepsChannels(c: Config, id: nat)
    requires Ok(c) && id in c.ops && c.ops[id].phase.Start?
    ensures ChannelsOk(c.closes, c.owned[id := c.next], c.next + 1) && id !in c.owned
  {
    assert id in c.owned ==> OwnerOk(c.ops, c.closes, id, c.owned[id]);
    var owned' := c.owned[id := c.next];
    forall ch: nat | ch < c.next + 1 ensures Created(owned', ch) {
      if ch == c.next {
        assert CreatedBy(owned', ch, id);
      } else {
        assert Created(c.owned, ch);
        var i :| CreatedBy(c.owned, ch, i);
        assert CreatedBy(owned', ch, i);
      }
    }
  }

  lemma {:induction false} StoreKeepsTable(ops: map<nat, Op>, table: map<Key, Chan>, id: nat, ch: Chan)
    requires TableOk(ops, table) && id in ops && !ops[id].phase.Holding? && ops[id].key !in table
    ensures TableOk(ops[id := ops[id].(phase := Holding(ch, Probing))], table[ops[id].key := ch])
  {
    var op := ops[id].(phase := Holding(ch, Probing));
    var table' := table[op.key := ch];
    forall k | k in table' ensures Held(ops[id := op], k, table'[k]) {
      if k == op.key {
        assert HeldBy(ops[id := op], k, ch, id);
      } else {
        HeldStays(ops, id, op, k, table[k]);
      }
    }
  }

  lemma {:induction false} StoreKeepsOwners(ops: map<nat, Op>, closes: map<Chan, nat>, owned: map<nat, Chan>, id: nat,
                                            ch: Chan)
    requires OwnersOk(ops, closes, owned) && id in ops && id !in owned && ch !in closes
    ensures OwnersOk(ops[id := ops[id].(phase := Holding(ch, Probing))], closes, owned[id := ch])
  {
    forall i | i in owned ensures OwnerOk(ops[id := ops[id].(phase := Holding(ch, Probing))], closes, i, owned[i]) {
      assert OwnerOk(ops, closes, i, owned[i]);
    }
  }

  lemma {:induction false} StoreKeepsOk(c: Config, id: nat)
    requires Ok(c) && id in c.ops && c.ops[id].phase.Start? && c.ops[id].key !in c.table
    ensures Ok(Move(NewChannel(c, id), id, Holding(c.next, Probing)))
  {
    StoreKeepsChannels(c, id);
    StoreKeepsTable(c.ops, c.table, id, c.next);
    StoreKeepsOwners(c.ops, c.closes, c.owned, id, c.next);
  }

  lemma {:induction false} OneHolder(ops: map<nat, Op>, table: map<Key, Chan>, closes: map<Chan, nat>,
                                     owned: map<nat, Chan>, i: nat, j: nat)
    requires TableOk(ops, table) && OwnersOk(ops, closes, owned)
    requires forall x, y :: x in owned && y in owned && owned[x] == owned[y] ==> x == y
    requires i in ops && j in ops && ops[i].phase.Holding? && ops[j].phase.Holding? && ops[i].key == ops[j].key
    ensures i == j
  {
    assert OwnerOk(ops, closes, i, owned[i]) && OwnerOk(ops, closes, j, owned[j]);
  }

  lemma {:induction false} DeleteKeepsTable(c: Config, id: nat)
    requires Ok(c) && id in c.ops && c.ops[id].phase.Holding?
    ensures TableOk(c.ops[id := c.ops[id].(phase := Deleted(c.ops[id].phase.ch))], c.table - {c.ops[id].key})
  {
    var op := c.ops[id].(phase := Deleted(c.ops[id].phase.ch));
    forall i | i in c.ops && i != id && c.ops[i].phase.Holding? ensures c.ops[i].key != op.key {
      if c.ops[i].key == op.key {
        OneHolder(c.ops, c.table, c.closes, c.owned, i, id);
      }
    }
    forall k | k in c.table && k != op.key ensures Held(c.ops[id := op], k, c.table[k]) {
      HeldStays(c.ops, id, op, k, c.table[k]);
    }
  }

  lemma {:induction false} DeleteKeepsOwners(ops: map<nat, Op>, closes: map<Chan, nat>, owned: map<nat, Chan>, id: nat)
    requires OwnersOk(ops, closes, owned) && id in ops && ops[id].phase.Holding?
    ensures OwnersOk(ops[id := ops[id].(phase := Deleted(ops[id].phase.ch))], closes, owned)
  {
    forall i | i in owned
      ensures OwnerOk(ops[id := ops[id].(phase := Deleted(ops[id].phase.ch))], closes, i, owned[i])
    {
      assert OwnerOk(ops, closes, i, owned[i]);
    }
  }

  lemma {:induction false} DeleteKeepsOk(c: Config, id: nat)
    requires Ok(c) && id in c.ops && c.ops[id].phase.Holding?
    ensures Ok(Move(c.(table := c.table - {c.ops[id].key}), id, Deleted(c.ops[id].phase.ch)))
  {
    DeleteKeepsTable(c, id);
    DeleteKeepsOwners(c.ops, c.closes, c.owned, id);
  }

  lemma {:induction false} CloseKeepsOwners(c: Config, id: nat)
    requires OwnersOk(c.ops, c.closes, c.owned) && ChannelsOk(c.closes, c.owned, c.next) && Enabled(c, CloseChannel(id))
    ensures
      var ch := c.ops[id].phase.ch;
      OwnersOk(c.ops[id := c.ops[id].(phase := Done)], c.closes[ch := 1], c.owned) && ch !in c.closes && ch < c.next
  {
    assert OwnerOk(c.ops, c.closes, id, c.owned[id]);
    forall i | i in c.owned
      ensures OwnerOk(c.ops[id := c.ops[id].(phase := Done)], c.closes[c.ops[id].phase.ch := 1], i, c.owned[i])
    {
      assert OwnerOk(c.ops, c.closes, i, c.owned[i]);
    }
  }

  lemma {:induction false} CloseKeepsChannels(closes: map<Chan, nat>, owned: map<nat, Chan>, next: Chan, ch: Chan)
    requires ChannelsOk(closes, owned, next) && ch < next
    ensures ChannelsOk(closes[ch := 1], owned, next)
  {
  }

  lemma {:induction false} CloseKeepsOk(c: Config, id: nat)
    requires Ok(c) && Enabled(c, CloseChannel(id))
    ensures
      var ch := c.ops[id].phase.ch;
      Ok(Move(c.(closes := c.closes[ch := CloseCount(c, ch) + 1]), id, Done))
  {
    CloseKeepsOwners(c, id);
    CloseKeepsChannels(c.closes, c.owned, c.next, c.ops[id].phase.ch);
    MoveKeepsTable(c.ops, c.table, id, c.ops[id].(phase := Done));
  }

  lemma {:induction false} TableBelowNext(c: Config, k: Key)
    requires Ok(c) && k in c.table
    ensures c.table[k] < c.next
  {
    var i :| HeldBy(c.ops, k, c.table[k], i);
    assert OwnerOk(c.ops, c.closes, i, c.owned[i]);
  }

  /** The events that neither take nor give up a key. */
  predicate Quiet(c: Config, ev: Event)
    requires Enabled(c, ev)
  {
    !ev.Arrive? && !ev.DeleteKey? && !ev.CloseChannel? && (ev.LoadOrStore? ==> c.ops[ev.id].key in c.table)
  }

  lemma {:induction false} QuietShape(c: Config, ev: Event)
    requires Enabled(c, ev) && Quiet(c, ev)
    ensures
      var c', id := Fire(c, ev), ev.id;
      && id in c.ops && id in c'.ops && c' == c.(ops := c.ops[id := c'.ops[id]], waited := c'.waited)
      && c'.ops[id].key == c.ops[id].key
      && (if c.ops[id].phase.Holding? then
            c'.ops[id].phase.Holding? && c'.ops[id].phase.ch == c.ops[id].phase.ch
          else
            && !c.ops[id].phase.Deleted? && !c.ops[id].phase.Done?
            && !c'.ops[id].phase.Holding? && !c'.ops[id].phase.Deleted?)
      && (c'.ops[id].phase.Joined? || c'.ops[id].phase.Waiting? ==>
            (ev.LoadOrStore? && c'.ops[id].phase.ch == c.table[c.ops[id].key]) ||
            (c.ops[id].phase.Joined? && c'.ops[id].phase.ch == c.ops[id].phase.ch))
  {
  }

  lemma {:induction false} QuietKeepsOk(c: Config, ev: Event)
    requires Ok(c) && Enabled(c, ev) && Quiet(c, ev)
    ensures Ok(Fire(c, ev))
  {
    QuietShape(c, ev);
    if ev.LoadOrStore? {
      TableBelowNext(c, c.ops[ev.id].key);
    }
    QuietMove(c, ev.id, Fire(c, ev).ops[ev.id]);
  }

  lemma {:induction false} FireKeepsOk(c: Config, ev: Event)
    requires Ok(c) && Enabled(c, ev)
    ensures Ok(Fire(c, ev))
  {
    if ev.Arrive? {
      ArriveKeepsOk(c, ev);
    } else if Quiet(c, ev) {
      QuietKeepsOk(c, ev);
    } else if ev.LoadOrStore? {
      StoreKeepsOk(c, ev.id);
    } else if ev.DeleteKey? {
      DeleteKeepsOk(c, ev.id);
    } else {
      CloseKeepsOk(c, ev.id);
    }
  }

  lemma {:induction false} RunKeepsOk(c: Config, events: seq<Event>, c': Config)
    requires Ok(c) && Runs(c, events, c')
    ensures Ok(c')
    decreases |events|
  {
    if events != [] {
      FireKeepsOk(c, events[0]);
      RunKeepsOk(Fire(c, events[0]), events[1..], c');
    }
  }

  // ---------------------------------------------------- who goes on without the key

  /** A channel of the key `k`. */
  predicate ChannelOf(c: Config, ch: Chan, k: Key) { ch in c.created && c.created[ch] == k }

  /**
   * An exchange that goes on without its key: it does not use the cache, or waited on a channel of the key
   * until that closed.
   */
  predicate MayGoOn(c: Config, i: nat)
    requires i in c.ops
  {
    !c.ops[i].cached || (i in c.waited && ChannelOf(c, c.waited[i], c.ops[i].key) && CloseCount(c, c.waited[i]) > 0)
  }

  predicate KeyedOp(c: Config, i: nat)
    requires i in c.ops
  {
    && (c.ops[i].phase.Joined? || c.ops[i].phase.Waiting? ==> ChannelOf(c, c.ops[i].phase.ch, c.ops[i].key))
    && (c.ops[i].phase.Unowned? ==> MayGoOn(c, i))
  }

  ghost predicate Keyed(c: Config) {
    && (forall k :: k in c.table ==> ChannelOf(c, c.table[k], k))
    && (forall ch :: ch in c.created ==> ch < c.next)
    && (forall i :: i in c.ops ==> KeyedOp(c, i))
  }

  /** What a step leaves of the records: channels keep their keys, closes and waits are only added. */
  ghost predicate Remembers(c: Config, c': Config, id: nat) {
    && (forall ch :: ch in c.created ==> ch in c'.created && c'.created[ch] == c.created[ch])
    && (forall ch :: CloseCount(c, ch) <= CloseCount(c', ch))
    && (forall i :: i in c.waited && i != id ==> i in c'.waited && c'.waited[i] == c.waited[i])
    && (forall i :: i in c.ops && i != id ==> i in c'.ops && c'.ops[i] == c.ops[i])
  }

  lemma {:induction false} QuietRemembers(c: Config, ev: Event)
    requires Enabled(c, ev) && Quiet(c, ev)
    ensures Remembers(c, Fire(c, ev), ev.id) && (!ev.Wake? ==> Fire(c, ev).waited == c.waited)
  {
    QuietShape(c, ev);
  }

  lemma {:induction false} FireRemembers(c: Config, ev: Event)
    requires Enabled(c, ev) && forall ch :: ch in c.created ==> ch < c.next
    ensures Remembers(c, Fire(c, ev), ev.id)
  {
    if Quiet(c, ev) {
      QuietRemembers(c, ev);
    }
  }

  /** Nothing an exchange relies on is taken from it by the moves of others. */
  lemma {:induction false} OthersStayKeyed(c: Config, c': Config, id: nat, i: nat)
    requires Remembers(c, c', id) && i in c.ops && i != id && KeyedOp(c, i)
    ensures i in c'.ops && KeyedOp(c', i)
  {
  }

  lemma {:induction false} MoverStaysKeyed(c: Config, ev: Event)
    requires Keyed(c) && Enabled(c, ev)
    ensures ev.id in Fire(c, ev).ops && KeyedOp(Fire(c, ev), ev.id)
  {
    if ev.id in c.ops {
      assert KeyedOp(c, ev.id);
    }
  }

  lemma {:induction false} TableStaysKeyed(c: Config, ev: Event)
    requires Keyed(c) && Enabled(c, ev)
    ensures
      var c' := Fire(c, ev);
      (forall k :: k in c'.table ==> ChannelOf(c', c'.table[k], k)) && (forall ch :: ch in c'.created ==> ch < c'.next)
  {
    if Quiet(c, ev) {
      QuietShape(c, ev);
    }
  }

  lemma {:induction false} FireKeepsKeyed(c: Config, ev: Event)
    requires Keyed(c) && Enabled(c, ev)
    ensures Keyed(Fire(c, ev))
  {
    var c' := Fire(c, ev);
    FireRemembers(c, ev);
    TableStaysKeyed(c, ev);
    MoverStaysKeyed(c, ev);
    forall i | i in c'.ops && i != ev.id ensures KeyedOp(c', i) {
      OnlyOneMoves(c, ev, i);
      OthersStayKeyed(c, c', ev.id, i);
    }
  }

  lemma {:induction false} OnlyOneMoves(c: Config, ev: Event, i: nat)
    requires Enabled(c, ev) && i != ev.id && i in Fire(c, ev).ops
    ensures i in c.ops
  {
    if Quiet(c, ev) {
      QuietShape(c, ev);
      return;
    }
    if ev.LoadOrStore? {
      assert Fire(c, ev).ops.Keys == c.ops.Keys + {ev.id};
    }
  }

  lemma {:induction false} RunKeepsKeyed(c: Config, events: seq<Event>, c': Config)
    requires Keyed(c) && Runs(c, events, c')
    ensures Keyed(c')
    decreases |events|
  {
    if events != [] {
      FireKeepsKeyed(c, events[0]);
      RunKeepsKeyed(Fire(c, events[0]), events[1..], c');
    }
  }

  // ------------------------------------------------------------------ theorems

  /** In every interleaving a key has at most one owner. */
  lemma {:induction false} OneOwnerPerKey(events: seq<Event>, c: Config, i: nat, j: nat)
    requires Runs(InitialConfig(), events, c)
    requires i in c.ops && j in c.ops && c.ops[i].phase.Holding? && c.ops[j].phase.Holding? &&
      c.ops[i].key == c.ops[j].key
    ensures i == j
  {
    RunKeepsOk(InitialConfig(), events, c);
    assert OwnerOk(c.ops, c.closes, i, c.owned[i]) && OwnerOk(c.ops, c.closes, j, c.owned[j]);
  }

  /** Whichever way an owner left, its channel has been closed exactly once and its entry is out of the table. */
  lemma {:induction false} OwnersReleaseOnce(events: seq<Event>, c: Config, i: nat)
    requires Runs(InitialConfig(), events, c) && i in c.owned
    ensures i in c.ops && CloseCount(c, c.owned[i]) <= 1
    ensures c.ops[i].phase.Done? <==> CloseCount(c, c.owned[i]) == 1
    ensures c.owned[i] in c.table.Values <==> c.ops[i].phase.Holding?
  {
    RunKeepsOk(InitialConfig(), events, c);
    assert OwnerOk(c.ops, c.closes, i, c.owned[i]);
    if c.owned[i] in c.table.Values {
      var k :| k in c.table && c.table[k] == c.owned[i];
      var j :| HeldBy(c.ops, k, c.table[k], j);
      assert OwnerOk(c.ops, c.closes, j, c.owned[j]);
      assert i == j;
    }
  }

  /**
   * A waiter's channel is closed already, or its owner has yet to close it and is not itself waiting:
   * the owner always has a next step, so no waiter waits on a channel nobody will close.
   */
  lemma {:induction false} WaitersAreServed(events: seq<Event>, c: Config, i: nat) returns (owner: nat, ev: Event)
    requires Runs(InitialConfig(), events, c) && i in c.ops && c.ops[i].phase.Waiting?
    ensures owner in c.owned && owner in c.ops && c.owned[owner] == c.ops[i].phase.ch
    ensures CloseCount(c, c.ops[i].phase.ch) == 1 ||
      (c.ops[owner].phase.Owns(c.ops[i].phase.ch) && Enabled(c, ev) && ev.id == owner)
  {
    RunKeepsOk(InitialConfig(), events, c);
    assert Created(c.owned, c.ops[i].phase.ch);
    owner :| CreatedBy(c.owned, c.ops[i].phase.ch, owner);
    assert OwnerOk(c.ops, c.closes, owner, c.owned[owner]);
    ev := CloseChannel(owner);
    if c.ops[owner].phase.Holding? || c.ops[owner].phase.Deleted? {
      ev := OwnerMoves(c, owner);
    }
  }

  lemma {:induction false} OwnerMoves(c: Config, owner: nat) returns (ev: Event)
    requires owner in c.ops && (c.ops[owner].phase.Holding? || c.ops[owner].phase.Deleted?)
    ensures Enabled(c, ev) && ev.id == owner
  {
    ev := CloseChannel(owner);
    if c.ops[owner].phase.Holding? {
      ev := match c.ops[owner].phase.stage
        case Probing => Miss(owner)
        case Checking => Send(owner)
        case Exchanging => Reply(owner)
        case Finishing => Conclude(owner)
        case Leaving => DeleteKey(owner);
    }
  }

  /** `release` deletes the owner's own entry: what it removes from the table is the channel it then closes. */
  lemma {:induction false} DeletesOwnEntry(events: seq<Event>, c: Config, id: nat)
    requires Runs(InitialConfig(), events, c) && Enabled(c, DeleteKey(id))
    ensures c.ops[id].key in c.table && id in c.owned && c.table[c.ops[id].key] == c.owned[id]
    ensures c.owned[id] !in Fire(c, DeleteKey(id)).table.Values
  {
    RunKeepsOk(InitialConfig(), events, c);
    assert OwnerOk(c.ops, c.closes, id, c.owned[id]);
    var c' := Fire(c, DeleteKey(id));
    FireKeepsOk(c, DeleteKey(id));
    forall k | k in c'.table ensures c'.table[k] != c.owned[id] {
      var j :| HeldBy(c'.ops, k, c'.table[k], j);
      assert OwnerOk(c'.ops, c'.closes, j, c'.owned[j]);
    }
  }

  /** Past the lock: probing the cache, or on the way to the server and back. */
  predicate InFlight(p: Phase) { p.Holding? || p.Unowned? }

  /**
   * In every interleaving, of the exchanges of one key in flight at most one holds the key, and every
   * other either does not use the cache or was woken: it waited on a channel of that key, now closed.
   */
  lemma {:induction false} OthersWaitedTheirTurn(events: seq<Event>, c: Config, i: nat, j: nat)
    requires Runs(InitialConfig(), events, c) && i in c.ops && j in c.ops && i != j
    requires c.ops[i].key == c.ops[j].key && InFlight(c.ops[i].phase) && InFlight(c.ops[j].phase)
    ensures c.ops[i].phase.Unowned? || c.ops[j].phase.Unowned?
    ensures c.ops[i].phase.Unowned? ==> MayGoOn(c, i)
    ensures c.ops[j].phase.Unowned? ==> MayGoOn(c, j)
  {
    RunKeepsKeyed(InitialConfig(), events, c);
    assert KeyedOp(c, i) && KeyedOp(c, j);
    if c.ops[i].phase.Holding? && c.ops[j].phase.Holding? {
      OneOwnerPerKey(events, c, i, j);
    }
  }

  // ------------------------------------------- woken waiters go to the server together

  ghost predicate Reachable(c: Config) { exists events :: Runs(InitialConfig(), events, c) }

  lemma {:induction false} RunsAppend(c: Config, events: seq<Event>, c': Config, ev: Event)
    requires Runs(c, events, c') && Enabled(c', ev)
    ensures Runs(c, events + [ev], Fire(c', ev))
    decreases |events|
  {
    var longer := events + [ev];
    if events == [] {
      assert longer[1..] == [];
    } else {
      assert longer[1..] == events[1..] + [ev];
      RunsAppend(Fire(c, events[0]), events[1..], c', ev);
    }
  }

  lemma {:induction false} Reach(c: Config, ev: Event)
    requires Reachable(c) && Enabled(c, ev)
    ensures Reachable(Fire(c, ev))
  {
    var events :| Runs(InitialConfig(), events, c);
    RunsAppend(InitialConfig(), events, c, ev);
  }

  /** Any waiter whose channel has closed may find nothing cached and go to the server, others standing still. */
  lemma {:induction false} WokenGoesOn(c: Config, i: nat) returns (c': Config)
    requires Reachable(c) && i in c.ops && c.ops[i].phase.Waiting? && CloseCount(c, c.ops[i].phase.ch) > 0
    ensures Reachable(c') && c'.closes == c.closes
    ensures c'.ops == c.ops[i := c.ops[i].(phase := Unowned(Exchanging))]
  {
    Reach(c, Wake(i));
    var c1 := Fire(c, Wake(i));
    c' := WokenSends(c1, i);
    assert c1.ops == c.ops[i := c.ops[i].(phase := Unowned(Probing))];
  }

  lemma {:induction false} WokenSends(c: Config, i: nat) returns (c': Config)
    requires Reachable(c) && i in c.ops && c.ops[i].phase == Unowned(Probing)
    ensures Reachable(c') && c'.closes == c.closes
    ensures c'.ops == c.ops[i := c.ops[i].(phase := Unowned(Exchanging))]
  {
    Reach(c, Miss(i));
    var c1 := Fire(c, Miss(i));
    assert c1 == Move(c, i, Unowned(Checking));
    Reach(c1, Send(i));
    c' := Fire(c1, Send(i));
    assert c' == Move(c1, i, Unowned(Exchanging));
  }

  /** So all waiters of a closed channel can be at the server at the same time. */
  lemma {:induction false} WokenGoTogether(c: Config, i: nat, j: nat) returns (c': Config)
    requires Reachable(c) && i in c.ops && j in c.ops && i != j
    requires c.ops[i].phase.Waiting? && c.ops[j].phase == c.ops[i].phase && CloseCount(c, c.ops[i].phase.ch) > 0
    ensures Reachable(c') && i in c'.ops && j in c'.ops && c'.ops[i].key == c.ops[i].key &&
      c'.ops[j].key == c.ops[j].key
    ensures c'.ops[i].phase == c'.ops[j].phase == Unowned(Exchanging)
  {
    var c1 := WokenGoesOn(c, i);
    c' := WokenGoesOn(c1, j);
  }

  // A concrete case: exchanges 0, 1 and 2 of key 7, of which 0 owns the key and fails.

  function Three(p0: Phase, p1: Phase, p2: Phase): map<nat, Op> {
    map[0 := Op(7, true, true, p0), 1 := Op(7, true, true, p1), 2 := Op(7, true, true, p2)]
  }

  function Owned(p0: Phase, p1: Phase, p2: Phase): Config {
    Config(Three(p0, p1, p2), map[7 := 0], map[], map[0 := 0], 1, map[0 := 7], map[])
  }

  lemma {:induction false} ThreeArrive()
    ensures Reachable(Config(Three(Start, Start, Start), map[], map[], map[], 0, map[], map[]))
  {
    var c0 := InitialConfig();
    assert Runs(c0, [], c0);
    Reach(c0, Arrive(0, 7, true, true));
    var c1 := Fire(c0, Arrive(0, 7, true, true));
    Reach(c1, Arrive(1, 7, true, true));
    var c2 := Fire(c1, Arrive(1, 7, true, true));
    Reach(c2, Arrive(2, 7, true, true));
    assert Fire(c2, Arrive(2, 7, true, true)).ops == Three(Start, Start, Start);
  }

  lemma {:induction false} OneOwns()
    ensures Reachable(Owned(Holding(0, Probing), Start, Start))
  {
    ThreeArrive();
    var c := Config(Three(Start, Start, Start), map[], map[], map[], 0, map[], map[]);
    Reach(c, LoadOrStore(0));
    assert Fire(c, LoadOrStore(0)).ops == Three(Holding(0, Probing), Start, Start);
  }

  lemma {:induction false} TwoJoin()
    ensures Reachable(Owned(Holding(0, Probing), Joined(0), Joined(0)))
  {
    OneOwns();
    ReachMove(Holding(0, Probing), Start, Start, LoadOrStore(1), Holding(0, Probing), Joined(0), Start);
    ReachMove(Holding(0, Probing), Joined(0), Start, LoadOrStore(2), Holding(0, Probing), Joined(0), Joined(0));
  }

  lemma {:induction false} TwoWait()
    ensures Reachable(Owned(Holding(0, Probing), Waiting(0), Waiting(0)))
  {
    TwoJoin();
    ReachMove(Holding(0, Probing), Joined(0), Joined(0), Miss(1), Holding(0, Probing), Waiting(0), Joined(0));
    ReachMove(Holding(0, Probing), Waiting(0), Joined(0), Miss(2), Holding(0, Probing), Waiting(0), Waiting(0));
  }

  lemma {:induction false} ReachMove(p0: Phase, p1: Phase, p2: Phase, ev: Event, q0: Phase, q1: Phase, q2: Phase)
    requires Reachable(Owned(p0, p1, p2)) && Enabled(Owned(p0, p1, p2), ev)
    requires Fire(Owned(p0, p1, p2), ev) == Owned(p0, p1, p2).(ops := Fire(Owned(p0, p1, p2), ev).ops)
    requires Fire(Owned(p0, p1, p2), ev).ops == Three(q0, q1, q2)
    ensures Reachable(Owned(q0, q1, q2))
  {
    Reach(Owned(p0, p1, p2), ev);
  }

  lemma {:induction false} OwnerSends()
    ensures Reachable(Owned(Holding(0, Exchanging), Waiting(0), Waiting(0)))
  {
    TwoWait();
    var w := Waiting(0);
    ReachMove(Holding(0, Probing), w, w, Miss(0), Holding(0, Checking), w, w);
    ReachMove(Holding(0, Checking), w, w, Send(0), Holding(0, Exchanging), w, w);
  }

  lemma {:induction false} OwnerFails()
    ensures Reachable(Owned(Holding(0, Leaving), Waiting(0), Waiting(0)))
  {
    OwnerSends();
    var w := Waiting(0);
    ReachMove(Holding(0, Exchanging), w, w, Fail(0), Holding(0, Leaving), w, w);
  }

  /** Single flight is about owners alone: here two exchanges of one key are at the server at once. */
  lemma {:induction false} TwoAtTheServer() returns (c: Config)
    ensures Reachable(c) && 1 in c.ops && 2 in c.ops && c.ops[1].key == c.ops[2].key
    ensures c.ops[1].phase == c.ops[2].phase == Unowned(Exchanging)
  {
    OwnerFails();
    var c0 := Owned(Holding(0, Leaving), Waiting(0), Waiting(0));
    Reach(c0, DeleteKey(0));
    var c1 := Fire(c0, DeleteKey(0));
    Reach(c1, CloseChannel(0));
    c := WokenGoTogether(Fire(c1, CloseChannel(0)), 1, 2);
  }
}
