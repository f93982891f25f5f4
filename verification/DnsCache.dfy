/**
 * The two back ends of the DNS cache (dns/client.go: `storeCache`, `loadResponse`,
 * `loadPersistentResponse`; experimental/cachefile/dns_cache.go). Times are nanoseconds since 1970.
 * Eviction is not modelled, and packing a response and unpacking it gives it back.
 */
module DnsCache {
  import opened Wrappers
  import opened Scalars
  import opened Lifetime
  import opened CacheNames

  const UINT32: int := 0x1_0000_0000

  datatype Entry = Entry(message: Records, expiry: int)

  /** The triple of `loadResponse`; `Miss` is its nil response. */
  datatype Served = Miss | Hit(message: Records, ttl: nat, stale: bool)

  datatype Settings = Settings(disableExpire: bool, optimistic: nat)

  /** What a lookup at `now` makes of the entry it finds. */
  function Serve(settings: Settings, e: Entry, now: int): Served {
    if settings.disableExpire then Hit(e.message, 0, false)
    else if now > e.expiry then
      if settings.optimistic > 0 && now < e.expiry + settings.optimistic then Hit(Normalize(e.message, 1), 0, true)
      else Miss
    else FreshHit(e.message, (e.expiry - now) / SECOND)
  }

  /** The remaining seconds, cut to the width of a record's TTL. */
  function FreshHit(message: Records, ttl: nat): Served { Hit(Normalize(message, ttl % UINT32), ttl, false) }

  function NewEntry(message: Records, ttl: TTL, now: int): Entry { Entry(message, now + ttl * SECOND) }

  /** What reaches the disk: the expiry in whole seconds. */
  function Floored(e: Entry): Entry { e.(expiry := e.expiry / SECOND * SECOND) }

  // ------------------------------------------------------------- the two back ends

  type Memory = map<CacheKey, Entry>

  /** A row waiting to be written, with the number of times it was queued. */
  datatype Queued = Queued(entry: Entry, sequence: nat)

  /** The write queue, the sequence number each running writer has tried to write, and the rows on disk. */
  datatype Rows = Rows(queue: map<RowKey, Queued>, written: map<RowKey, nat>, disk: map<RowKey, Entry>)

  function StoreMemory(mem: Memory, k: CacheKey, message: Records, ttl: TTL, now: int): Memory {
    if ttl == 0 then mem else mem[k := NewEntry(message, ttl, now)]
  }

  function LoadMemory(settings: Settings, mem: Memory, k: CacheKey, now: int): (Served, Memory) {
    if k !in mem then (Miss, mem)
    else
      var served := Serve(settings, mem[k], now);
      (served, if served.Miss? then mem - {k} else mem)
  }

  function Enqueue(rows: Rows, row: RowKey, e: Entry): Rows {
    rows.(queue := rows.queue[row := Queued(e, (if row in rows.queue then rows.queue[row].sequence else 0) + 1)])
  }

  function StoreRow(rows: Rows, row: RowKey, message: Records, ttl: TTL, now: int): Rows {
    if ttl == 0 then rows else Enqueue(rows, row, NewEntry(message, ttl, now))
  }

  /** `LoadDNSCache`: the queue first, then the disk. */
  function FindRow(rows: Rows, row: RowKey): Option<Entry> {
    if row in rows.queue then Some(rows.queue[row].entry) else if row in rows.disk then Some(rows.disk[row]) else None
  }

  function ServeFound(settings: Settings, e: Option<Entry>, now: int): Served {
    if e.None? then Miss else Serve(settings, e.value, now)
  }

  /**
   * The writer of a row tries to copy it to disk, remembering which version it tried. A failure is only
   * logged: the disk stays as it was, and the writer goes on as if it had succeeded.
   */
  function Write(rows: Rows, row: RowKey, ok: bool): Rows {
    if row !in rows.queue then rows
    else
      rows.(
        disk := if ok then rows.disk[row := Floored(rows.queue[row].entry)] else rows.disk,
        written := rows.written[row := rows.queue[row].sequence])
  }

  /** The writer then leaves if the version it tried is still the queued one, and writes again otherwise. */
  function Finish(rows: Rows, row: RowKey): Rows {
    if row !in rows.queue || row !in rows.written then rows
    else
      rows.(
        queue := if rows.queue[row].sequence == rows.written[row] then rows.queue - {row} else rows.queue,
        written := rows.written - {row})
  }

  predicate Collectable(settings: Settings, e: Entry, now: int) {
    !settings.disableExpire && now > e.expiry + settings.optimistic
  }

  /** `cleanupDNSCache`. */
  function Cleanup(settings: Settings, rows: Rows, now: int): Rows {
    rows.(disk := map row | row in rows.disk && !Collectable(settings, rows.disk[row], now) :: rows.disk[row])
  }

  /** The client's cache, in memory or in the cache file, updated in place. */
  class Cache {
    const text: SubnetText
    const settings: Settings
    var file: Option<Rows>
    var memory: Option<Memory>

    constructor (text: SubnetText, settings: Settings, persistent: bool)
      ensures this.text == text && this.settings == settings
      ensures file == (if persistent then Some(Rows(map[], map[], map[])) else None)
      ensures memory == if persistent then None else Some(map[])
    {
      this.text := text;
      this.settings := settings;
      file := if persistent then Some(Rows(map[], map[], map[])) else None;
      memory := if persistent then None else Some(map[]);
    }

    /** `storeCache`. */
    method StoreCache(k: CacheKey, message: Records, ttl: TTL, now: int)
      modifies this
      ensures old(file).None? ==> file == None
      ensures old(file).Some? ==>
        file == Some(StoreRow(old(file).value, RowOf(text, k), message, ttl, now)) && memory == old(memory)
      ensures old(file).None? ==>
        memory == if old(memory).None? then None else Some(StoreMemory(old(memory).value, k, message, ttl, now))
    {
      if ttl == 0 {
        return;
      }
      var e := Entry(message, now + SECOND * ttl);
      if file.Some? {
        var row := RowOf(text, k);
        var sequence := if row in file.value.queue then file.value.queue[row].sequence else 0;
        file := Some(file.value.(queue := file.value.queue[row := Queued(e, sequence + 1)]));
        return;
      }
      if memory.None? {
        return;
      }
      memory := Some(memory.value[k := e]);
    }

    /** `loadResponse` and `loadPersistentResponse`. */
    method LoadResponse(k: CacheKey, now: int) returns (served: Served)
      modifies this
      ensures file == old(file)
      ensures old(file).Some? ==>
        served == ServeFound(settings, FindRow(file.value, RowOf(text, k)), now) && memory == old(memory)
      ensures old(file).None? && old(memory).None? ==> served == Miss && memory == None
      ensures old(file).None? && old(memory).Some? ==>
        memory.Some? && (served, memory.value) == LoadMemory(settings, old(memory).value, k, now)
    {
      var found: Option<Entry>;
      if file.Some? {
        found := FindRow(file.value, RowOf(text, k));
      } else if memory.None? {
        return Miss;
      } else {
        found := if k in memory.value then Some(memory.value[k]) else None;
      }
      if found.None? {
        return Miss;
      }
      var Entry(message, expiry) := found.value;
      if settings.disableExpire {
        return Hit(message, 0, false);
      }
      if now > expiry {
        if settings.optimistic > 0 && now < expiry + settings.optimistic {
          return Hit(Normalize(message, 1), 0, true);
        }
        if file.None? {
          memory := Some(memory.value - {k});
        }
        return Miss;
      }
      var ttl := (expiry - now) / SECOND;
      return Hit(Normalize(message, ttl % UINT32), ttl, false);
    }
  }

  // ------------------------------------------------------------- served lifetimes

  ghost predicate CarriesTTL(m: Records, t: TTL) { forall r :: r in m.All() && !r.kind.Opt? ==> r.ttl == t }

  lemma {:induction false} NormalizeCarries(m: Records, t: TTL)
    ensures CarriesTTL(Normalize(m, t), t)
  {
    var n := Normalize(m, t);
    forall r | r in n.All() && !r.kind.Opt? ensures r.ttl == t {
      var i :| 0 <= i < |n.All()| && n.All()[i] == r;
    }
  }

  lemma {:induction false} FreshCarries(m: Records, ttl: TTL)
    ensures CarriesTTL(FreshHit(m, ttl).message, ttl)
  {
    NormalizeCarries(m, ttl);
  }

  lemma {:induction false} SecondsLeft(expiry: int, stored: int, ttl: nat, now: int)
    requires stored <= now <= expiry <= stored + ttl * SECOND
    ensures
      var left := (expiry - now) / SECOND;
      0 <= left <= ttl && now + left * SECOND <= expiry < now + (left + 1) * SECOND
  {
  }

  /** A fresh answer stops short of the expiry by less than a second, and promises no more than was stored. */
  ghost predicate FreshWithin(s: Served, expiry: int, ttl: TTL, now: int) {
    && s.Hit? && !s.stale && s.ttl <= ttl
    && now + s.ttl * SECOND <= expiry < now + (s.ttl + 1) * SECOND
    && CarriesTTL(s.message, s.ttl)
  }

  lemma {:induction false} FreshHitWithin(m: Records, left: nat, expiry: int, ttl: TTL, now: int)
    requires left <= ttl && now + left * SECOND <= expiry < now + (left + 1) * SECOND
    ensures FreshWithin(FreshHit(m, left), expiry, ttl, now)
  {
    FreshCarries(m, left);
  }

  lemma {:induction false} FreshWithinLifetime(settings: Settings, e: Entry, stored: int, ttl: TTL, now: int)
    requires !settings.disableExpire && stored <= now <= e.expiry <= stored + ttl * SECOND
    ensures FreshWithin(Serve(settings, e, now), e.expiry, ttl, now)
  {
    SecondsLeft(e.expiry, stored, ttl, now);
    FreshHitWithin(e.message, (e.expiry - now) / SECOND, e.expiry, ttl, now);
  }

  /** A stale answer lies strictly inside the optimistic window with every TTL 1; a miss lies outside it. */
  lemma {:induction false} StaleWithinWindow(settings: Settings, e: Entry, now: int)
    requires !settings.disableExpire && e.expiry < now
    ensures
      var s := Serve(settings, e, now);
      && (s.Hit? <==> now < e.expiry + settings.optimistic)
      && (s.Hit? ==> s.stale && CarriesTTL(s.message, 1))
  {
    NormalizeCarries(e.message, 1);
  }

  // --------------------------------------------------------------------- histories

  datatype Act =
    | Store(key: CacheKey, message: Records, ttl: TTL)
    | Load(key: CacheKey)
    | WriteRow(row: RowKey, ok: bool)
    | FinishRow(row: RowKey)
    | CleanRows

  datatype Op = Op(at: int, act: Act)

  function MemoryStep(settings: Settings, mem: Memory, op: Op): Memory {
    match op.act
    case Store(k, message, ttl) => StoreMemory(mem, k, message, ttl, op.at)
    case Load(k) => LoadMemory(settings, mem, k, op.at).1
    case _ => mem
  }

  function RowsStep(text: SubnetText, settings: Settings, rows: Rows, op: Op): Rows {
    match op.act
    case Store(k, message, ttl) => StoreRow(rows, RowOf(text, k), message, ttl, op.at)
    case Load(_) => rows
    case WriteRow(row, ok) => Write(rows, row, ok)
    case FinishRow(row) => Finish(rows, row)
    case CleanRows => Cleanup(settings, rows, op.at)
  }

  function MemoryAfter(settings: Settings, ops: seq<Op>): Memory {
    if ops == [] then map[] else MemoryStep(settings, MemoryAfter(settings, ops[..|ops| - 1]), ops[|ops| - 1])
  }

  function RowsAfter(text: SubnetText, settings: Settings, ops: seq<Op>): Rows {
    if ops == [] then Rows(map[], map[], map[])
    else RowsStep(text, settings, RowsAfter(text, settings, ops[..|ops| - 1]), ops[|ops| - 1])
  }

  /** The reference: the entry of the last effective store under a key, found in the history alone. */
  function LastStored(ops: seq<Op>, k: CacheKey): Option<Entry> {
    if ops == [] then None
    else
      var op := ops[|ops| - 1];
      if op.act.Store? && op.act.key == k && op.act.ttl > 0 then Some(NewEntry(op.act.message, op.act.ttl, op.at))
      else LastStored(ops[..|ops| - 1], k)
  }

  /** The clock never runs backwards, and `now` is not before any operation. */
  ghost predicate Ordered(ops: seq<Op>, now: int) {
    && (forall i, j :: 0 <= i < j < |ops| ==> ops[i].at <= ops[j].at)
    && (forall i :: 0 <= i < |ops| ==> ops[i].at <= now)
  }

  /** Keys of one class, with a plain tag and a subnet that is valid or absent. */
  ghost predicate Proper(qclass: nat, k: CacheKey) {
    k.qclass == qclass && PlainTag(k.tag) && (k.subnet.IsValid() || k.subnet == NO_SUBNET)
  }

  ghost predicate AllProper(qclass: nat, ops: seq<Op>) {
    forall i :: 0 <= i < |ops| && ops[i].act.Store? ==> Proper(qclass, ops[i].act.key)
  }

  predicate Expired(settings: Settings, e: Entry, now: int) { Serve(settings, e, now).Miss? }

  lemma {:induction false} Prefixes(ops: seq<Op>, now: int)
    requires ops != [] && Ordered(ops, now)
    ensures Ordered(ops[..|ops| - 1], ops[|ops| - 1].at) && ops[|ops| - 1].at <= now
  {
  }

  ghost predicate MemoryOk(settings: Settings, mem: Memory, k: CacheKey, last: Option<Entry>, now: int) {
    if k in mem then last == Some(mem[k]) else last.None? || Expired(settings, last.value, now)
  }

  lemma {:induction false} MemoryTracks(settings: Settings, ops: seq<Op>, k: CacheKey, now: int)
    requires Ordered(ops, now)
    ensures MemoryOk(settings, MemoryAfter(settings, ops), k, LastStored(ops, k), now)
  {
    if ops != [] {
      Prefixes(ops, now);
      MemoryTracks(settings, ops[..|ops| - 1], k, ops[|ops| - 1].at);
    }
  }

  /** The memory cache with its removals serves, at every moment, what the history alone says. */
  lemma {:induction false} MemoryServesLastStore(settings: Settings, ops: seq<Op>, k: CacheKey, now: int)
    requires Ordered(ops, now)
    ensures LoadMemory(settings, MemoryAfter(settings, ops), k, now).0 == ServeFound(settings, LastStored(ops, k), now)
  {
    MemoryTracks(settings, ops, k, now);
  }

  // ------------------------------------------------------------ what a row goes through

  /** The last entry stored under a row, the last one that reached the disk, and whether the last attempt succeeded. */
  datatype Past = Past(last: Option<Entry>, saved: Option<Entry>, succeeded: bool)

  function Attempted(past: Past, ok: bool): Past {
    past.(saved := if ok then past.last else past.saved, succeeded := ok)
  }

  function PastStep(text: SubnetText, queued: bool, past: Past, op: Op, row: RowKey): Past {
    match op.act
    case Store(k, message, ttl) =>
      if RowOf(text, k) == row && ttl > 0 then past.(last := Some(NewEntry(message, ttl, op.at))) else past
    case WriteRow(r, ok) =>
      if r == row && queued then Attempted(past, ok) else past
    case _ => past
  }

  /** The reference for the cache file: a row's past, read off the history. */
  function PastOf(text: SubnetText, settings: Settings, ops: seq<Op>, row: RowKey): Past {
    if ops == [] then Past(None, None, true)
    else
      var before := ops[..|ops| - 1];
      PastStep(text, row in RowsAfter(text, settings, before).queue, PastOf(text, settings, before, row),
               ops[|ops| - 1], row)
  }

  function FlooredOption(e: Option<Entry>): Option<Entry> { if e.None? then None else Some(Floored(e.value)) }

  /** The disk holds what was saved last, unless that has expired for good. */
  ghost predicate DiskOk(settings: Settings, disk: map<RowKey, Entry>, row: RowKey, saved: Option<Entry>, now: int) {
    if row in disk then saved.Some? && disk[row] == Floored(saved.value)
    else saved.None? || Expired(settings, Floored(saved.value), now)
  }

  ghost predicate RowOk(settings: Settings, rows: Rows, row: RowKey, past: Past, now: int) {
    && (row in rows.queue ==> past.last == Some(rows.queue[row].entry))
    && (row in rows.written ==> row in rows.queue && rows.written[row] <= rows.queue[row].sequence)
    && DiskOk(settings, rows.disk, row, past.saved, now)
    && (past.succeeded && (row in rows.queue ==>
      row in rows.written && rows.written[row] == rows.queue[row].sequence) ==>
          past.saved == past.last)
  }

  lemma {:induction false} RowOkLater(settings: Settings, rows: Rows, row: RowKey, past: Past, now: int, later: int)
    requires RowOk(settings, rows, row, past, now) && now <= later
    ensures RowOk(settings, rows, row, past, later)
  {
  }

  lemma {:induction false} StoreKeepsRow(settings: Settings, rows: Rows, row: RowKey, past: Past, now: int, r: RowKey,
                                         e: Entry)
    requires RowOk(settings, rows, row, past, now)
    ensures RowOk(settings, Enqueue(rows, r, e), row, if r == row then past.(last := Some(e)) else past, now)
  {
  }

  lemma {:induction false} WriteKeepsRow(settings: Settings, rows: Rows, row: RowKey, past: Past, now: int, r: RowKey,
                                         ok: bool)
    requires RowOk(settings, rows, row, past, now)
    ensures RowOk(settings, Write(rows, r, ok), row,
                  if r == row && row in rows.queue then Attempted(past, ok) else past, now)
  {
  }

  lemma {:induction false} FinishKeepsRow(settings: Settings, rows: Rows, row: RowKey, past: Past, now: int, r: RowKey)
    requires RowOk(settings, rows, row, past, now)
    ensures RowOk(settings, Finish(rows, r), row, past, now)
  {
  }

  lemma {:induction false} CleanupKeepsRow(settings: Settings, rows: Rows, row: RowKey, past: Past, now: int)
    requires RowOk(settings, rows, row, past, now)
    ensures RowOk(settings, Cleanup(settings, rows, now), row, past, now)
  {
  }

  lemma {:induction false} RowOkStep(text: SubnetText, settings: Settings, rows: Rows, op: Op, row: RowKey, past: Past)
    requires RowOk(settings, rows, row, past, op.at)
    ensures RowOk(settings, RowsStep(text, settings, rows, op), row, PastStep(text, row in rows.queue, past, op, row),
                  op.at)
  {
    match op.act
    case Store(k, message, ttl) => StoreKeepsRow(settings, rows, row, past, op.at, RowOf(text, k),
                                                 NewEntry(message, ttl, op.at));
    case Load(_) =>
    case WriteRow(r, ok) => WriteKeepsRow(settings, rows, row, past, op.at, r, ok);
    case FinishRow(r) => FinishKeepsRow(settings, rows, row, past, op.at, r);
    case CleanRows => CleanupKeepsRow(settings, rows, row, past, op.at);
  }

  lemma {:induction false} RowsTrack(text: SubnetText, settings: Settings, ops: seq<Op>, row: RowKey, now: int)
    requires Ordered(ops, now)
    ensures RowOk(settings, RowsAfter(text, settings, ops), row, PastOf(text, settings, ops, row), now)
  {
    if ops != [] {
      var before, op := ops[..|ops| - 1], ops[|ops| - 1];
      Prefixes(ops, now);
      RowsTrack(text, settings, before, row, op.at);
      RowOkStep(text, settings, RowsAfter(text, settings, before), op, row, PastOf(text, settings, before, row));
      RowOkLater(settings, RowsAfter(text, settings, ops), row, PastOf(text, settings, ops, row), op.at, now);
    }
  }

  predicate StillQueued(text: SubnetText, settings: Settings, ops: seq<Op>, row: RowKey) {
    row in RowsAfter(text, settings, ops).queue
  }

  /** What the cache file has to show for a row: the last store while it is queued, then what was saved last. */
  function Shown(text: SubnetText, settings: Settings, ops: seq<Op>, row: RowKey): Option<Entry> {
    var past := PastOf(text, settings, ops, row);
    if StillQueued(text, settings, ops, row) then past.last else FlooredOption(past.saved)
  }

  /** What a lookup in the cache file gives after a history. */
  function LoadFile(text: SubnetText, settings: Settings, ops: seq<Op>, k: CacheKey, now: int): Served {
    ServeFound(settings, FindRow(RowsAfter(text, settings, ops), RowOf(text, k)), now)
  }

  function LoadMemoryAfter(settings: Settings, ops: seq<Op>, k: CacheKey, now: int): Served {
    LoadMemory(settings, MemoryAfter(settings, ops), k, now).0
  }

  /**
   * For every key and every history, of any classes, tags and subnets: the cache file serves the row the
   * key shares, while queued as last stored, afterwards as last saved, floored to seconds.
   */
  lemma {:induction false} FileServesItsRow(text: SubnetText, settings: Settings, ops: seq<Op>, k: CacheKey, now: int)
    requires Ordered(ops, now)
    ensures LoadFile(text, settings, ops, k, now) ==
      ServeFound(settings, Shown(text, settings, ops, RowOf(text, k)), now)
  {
    RowsTrack(text, settings, ops, RowOf(text, k), now);
  }

  // -------------------------------------------------------------- entries served alike

  /** Where `now` lies in an entry's life. */
  datatype Standing = Always | Fresh(left: int) | Stale | Gone

  function StandingOf(settings: Settings, e: Option<Entry>, now: int): Standing {
    if e.None? then Gone
    else if settings.disableExpire then Always
    else if now <= e.value.expiry then Fresh((e.value.expiry - now) / SECOND)
    else if now < e.value.expiry + settings.optimistic then Stale
    else Gone
  }

  /** The same records apart from TTLs; OPT records carry no TTL, so theirs must agree. */
  ghost predicate SameList(a: seq<Record>, b: seq<Record>) {
    |a| == |b| && forall i :: 0 <= i < |a| ==> a[i].kind == b[i].kind && (a[i].kind.Opt? ==> a[i].ttl == b[i].ttl)
  }

  ghost predicate SameRecords(a: Records, b: Records) {
    SameList(a.answer, b.answer) && SameList(a.ns, b.ns) && SameList(a.extra, b.extra)
  }

  lemma {:induction false} NormalizeListIff(a: seq<Record>, b: seq<Record>, t: TTL)
    ensures NormalizeAll(a, t) == NormalizeAll(b, t) <==> SameList(a, b)
  {
    var x, y := NormalizeAll(a, t), NormalizeAll(b, t);
    if x == y {
      forall i | 0 <= i < |a| ensures a[i].kind == b[i].kind && (a[i].kind.Opt? ==> a[i].ttl == b[i].ttl) {
        assert x[i] == y[i];
      }
    }
  }

  lemma {:induction false} NormalizeIff(a: Records, b: Records, t: TTL)
    ensures Normalize(a, t) == Normalize(b, t) <==> SameRecords(a, b)
  {
    NormalizeListIff(a.answer, b.answer, t);
    NormalizeListIff(a.ns, b.ns, t);
    NormalizeListIff(a.extra, b.extra, t);
  }

  /** Two entries a lookup at `now` cannot tell apart. */
  ghost predicate Indistinct(settings: Settings, a: Option<Entry>, b: Option<Entry>, now: int) {
    var standing := StandingOf(settings, a, now);
    && standing == StandingOf(settings, b, now)
    && match standing
       case Gone => true
       case Always => a.value.message == b.value.message
       case _ => SameRecords(a.value.message, b.value.message)
  }

  lemma {:induction false} FreshHitIff(a: Records, b: Records, s: nat, t: nat)
    ensures FreshHit(a, s) == FreshHit(b, t) <==> s == t && SameRecords(a, b)
  {
    if s == t {
      NormalizeIff(a, b, t % UINT32);
    }
  }

  /** Exactly when two entries are served alike. */
  lemma {:induction false} ServedAlikeIff(settings: Settings, a: Option<Entry>, b: Option<Entry>, now: int)
    ensures ServeFound(settings, a, now) == ServeFound(settings, b, now) <==> Indistinct(settings, a, b, now)
  {
    if a.Some? && b.Some? {
      NormalizeIff(a.value.message, b.value.message, 1);
      if now <= a.value.expiry && now <= b.value.expiry {
        FreshHitIff(a.value.message, b.value.message, (a.value.expiry - now) / SECOND, (b.value.expiry - now) / SECOND);
      }
    }
  }

  /** Exactly when flooring the expiry of an entry goes unnoticed at `now`. */
  predicate FlooringUnnoticed(settings: Settings, expiry: int, now: int) {
    var whole := expiry / SECOND * SECOND;
    || settings.disableExpire
    || (now <= whole && (now % SECOND == 0 || expiry % SECOND < now % SECOND))
    || (now > expiry && (settings.optimistic == 0 || now < whole + settings.optimistic ||
      expiry + settings.optimistic <= now))
  }

  lemma {:induction false} SecondsLost(expiry: int, now: int)
    requires now <= expiry / SECOND * SECOND
    ensures (expiry - now) / SECOND == (expiry / SECOND * SECOND - now) / SECOND <==>
      now % SECOND == 0 || expiry % SECOND < now % SECOND
  {
    var e, n := expiry / SECOND, now / SECOND;
    assert expiry == e * SECOND + expiry % SECOND && now == n * SECOND + now % SECOND;
  }

  lemma {:induction false} FlooringUnnoticedIff(settings: Settings, e: Entry, now: int)
    ensures Serve(settings, Floored(e), now) == Serve(settings, e, now) <==> FlooringUnnoticed(settings, e.expiry, now)
  {
    if now <= e.expiry / SECOND * SECOND {
      SecondsLost(e.expiry, now);
    }
  }

  /**
   * Two caches, one map, for any keys and any histories: memory and file give the same response, TTL and
   * staleness exactly when the key's last store and what its row has to show are indistinct at `now`.
   */
  lemma {:induction false} TwoCachesIff(text: SubnetText, settings: Settings, ops: seq<Op>, k: CacheKey, now: int)
    requires Ordered(ops, now)
    ensures LoadMemoryAfter(settings, ops, k, now) == LoadFile(text, settings, ops, k, now) <==>
      Indistinct(settings, LastStored(ops, k), Shown(text, settings, ops, RowOf(text, k)), now)
  {
    MemoryServesLastStore(settings, ops, k, now);
    FileServesItsRow(text, settings, ops, k, now);
    ServedAlikeIff(settings, LastStored(ops, k), Shown(text, settings, ops, RowOf(text, k)), now);
  }

  /** Among keys of one class a row is one key's. */
  lemma {:induction false} RowIsKey(text: SubnetText, settings: Settings, qclass: nat, ops: seq<Op>, k: CacheKey)
    requires FaithfulText(text) && AllProper(qclass, ops) && Proper(qclass, k)
    ensures PastOf(text, settings, ops, RowOf(text, k)).last == LastStored(ops, k)
  {
    if ops != [] {
      var op := ops[|ops| - 1];
      RowIsKey(text, settings, qclass, ops[..|ops| - 1], k);
      if op.act.Store? {
        SameRowIff(text, op.act.key, k);
      }
    }
  }

  /**
   * Exactly when the cache file serves the last store under a key: the row is still queued; or the last
   * attempt to save it succeeded and flooring its expiry goes unnoticed; or that attempt failed, and
   * what was saved before it cannot be told from the last store.
   */
  lemma {:induction false} FileServesLastStoreIff(text: SubnetText, settings: Settings, qclass: nat, ops: seq<Op>,
                                                  k: CacheKey, now: int)
    requires FaithfulText(text) && Ordered(ops, now) && AllProper(qclass, ops) && Proper(qclass, k)
    ensures
      var past := PastOf(text, settings, ops, RowOf(text, k));
      var last := LastStored(ops, k);
      LoadFile(text, settings, ops, k, now) == ServeFound(settings, last, now) <==>
      || StillQueued(text, settings, ops, RowOf(text, k))
      || last.None?
      || (if past.succeeded then FlooringUnnoticed(settings, last.value.expiry, now)
          else Indistinct(settings, last, FlooredOption(past.saved), now))
  {
    var row := RowOf(text, k);
    var past := PastOf(text, settings, ops, row);
    FileServesItsRow(text, settings, ops, k, now);
    RowsTrack(text, settings, ops, row, now);
    RowIsKey(text, settings, qclass, ops, k);
    ServedAlikeIff(settings, past.last, FlooredOption(past.saved), now);
    NeverStored(text, settings, ops, row);
    if past.last.Some? {
      FlooringUnnoticedIff(settings, past.last.value, now);
    }
  }

  /** What was never stored was never saved. */
  lemma {:induction false} NeverStored(text: SubnetText, settings: Settings, ops: seq<Op>, row: RowKey)
    ensures PastOf(text, settings, ops, row).last.None? ==> PastOf(text, settings, ops, row).saved.None?
  {
    if ops != [] {
      NeverStored(text, settings, ops[..|ops| - 1], row);
    }
  }

  /** The same for the two back ends side by side: memory always serves the last store. */
  lemma {:induction false} TwoCachesOneMap(text: SubnetText, settings: Settings, qclass: nat, ops: seq<Op>, k: CacheKey,
                                           now: int)
    requires FaithfulText(text) && Ordered(ops, now) && AllProper(qclass, ops) && Proper(qclass, k)
    ensures
      var past := PastOf(text, settings, ops, RowOf(text, k));
      var last := LastStored(ops, k);
      LoadMemoryAfter(settings, ops, k, now) == LoadFile(text, settings, ops, k, now) <==>
      || StillQueued(text, settings, ops, RowOf(text, k))
      || last.None?
      || (if past.succeeded then FlooringUnnoticed(settings, last.value.expiry, now)
          else Indistinct(settings, last, FlooredOption(past.saved), now))
  {
    MemoryServesLastStore(settings, ops, k, now);
    FileServesLastStoreIff(text, settings, qclass, ops, k, now);
  }

  /** While no row has been written, the two back ends are indistinguishable. */
  lemma {:induction false} UnwrittenCachesAgree(text: SubnetText, settings: Settings, qclass: nat, ops: seq<Op>,
                                                k: CacheKey, now: int)
    requires FaithfulText(text) && Ordered(ops, now) && AllProper(qclass, ops) && Proper(qclass, k)
    requires forall i :: 0 <= i < |ops| ==> !ops[i].act.WriteRow?
    ensures LoadMemoryAfter(settings, ops, k, now) == LoadFile(text, settings, ops, k, now)
  {
    TwoCachesOneMap(text, settings, qclass, ops, k, now);
    StoredIsQueued(text, settings, ops, k);
  }

  lemma {:induction false} NothingWritten(text: SubnetText, settings: Settings, ops: seq<Op>)
    requires forall i :: 0 <= i < |ops| ==> !ops[i].act.WriteRow?
    ensures RowsAfter(text, settings, ops).written == map[]
  {
    if ops != [] {
      NothingWritten(text, settings, ops[..|ops| - 1]);
    }
  }

  lemma {:induction false} StoredIsQueued(text: SubnetText, settings: Settings, ops: seq<Op>, k: CacheKey)
    requires forall i :: 0 <= i < |ops| ==> !ops[i].act.WriteRow?
    ensures LastStored(ops, k).Some? ==> StillQueued(text, settings, ops, RowOf(text, k))
  {
    if ops != [] {
      StoredIsQueued(text, settings, ops[..|ops| - 1], k);
      NothingWritten(text, settings, ops[..|ops| - 1]);
    }
  }

  /** The last effective store under a key, by its place in the history. */
  lemma {:induction false} LastStoredAt(ops: seq<Op>, k: CacheKey) returns (i: nat)
    requires LastStored(ops, k).Some?
    ensures i < |ops| && ops[i].act.Store? && ops[i].act.key == k && ops[i].act.ttl > 0
    ensures LastStored(ops, k) == Some(NewEntry(ops[i].act.message, ops[i].act.ttl, ops[i].at))
    ensures forall j :: i < j < |ops| && ops[j].act.Store? && ops[j].act.key == k ==> ops[j].act.ttl == 0
  {
    var n := |ops| - 1;
    var op := ops[n];
    if op.act.Store? && op.act.key == k && op.act.ttl > 0 {
      i := n;
    } else {
      i := LastStoredAt(ops[..n], k);
      assert forall j :: i < j < n ==> ops[j] == ops[..n][j];
    }
  }

  /** An answer promised no longer than what was stored at `stored` for `ttl` seconds, or stale inside the window. */
  ghost predicate WithinLifetime(settings: Settings, served: Served, stored: int, ttl: TTL, now: int) {
    served.Hit? ==>
      if served.stale then
        && stored + (ttl - 1) * SECOND < now < stored + ttl * SECOND + settings.optimistic
        && CarriesTTL(served.message, 1)
      else
        && served.ttl <= ttl && now + served.ttl * SECOND <= stored + ttl * SECOND
        && CarriesTTL(served.message, served.ttl)
  }

  lemma {:induction false} ServeWithinLifetime(settings: Settings, e: Entry, stored: int, ttl: TTL, now: int)
    requires !settings.disableExpire && stored <= now
    requires stored + (ttl - 1) * SECOND < e.expiry <= stored + ttl * SECOND
    ensures WithinLifetime(settings, Serve(settings, e, now), stored, ttl, now)
  {
    if now <= e.expiry {
      FreshWithinLifetime(settings, e, stored, ttl, now);
    } else {
      StaleWithinWindow(settings, e, now);
    }
  }

  /** An effective store under a row, at place `i` of the history, of the entry `e`. */
  predicate StoresAt(text: SubnetText, ops: seq<Op>, i: int, row: RowKey, e: Entry) {
    && 0 <= i < |ops| && ops[i].act.Store? && ops[i].act.ttl > 0 && RowOf(text, ops[i].act.key) == row
    && e == NewEntry(ops[i].act.message, ops[i].act.ttl, ops[i].at)
  }

  ghost predicate StoredSomewhere(text: SubnetText, ops: seq<Op>, row: RowKey, e: Entry) {
    exists i :: StoresAt(text, ops, i, row, e)
  }

  lemma {:induction false} StoredEarlier(text: SubnetText, ops: seq<Op>, row: RowKey, e: Entry)
    requires ops != [] && StoredSomewhere(text, ops[..|ops| - 1], row, e)
    ensures StoredSomewhere(text, ops, row, e)
  {
    var i :| StoresAt(text, ops[..|ops| - 1], i, row, e);
    assert StoresAt(text, ops, i, row, e);
  }

  /** Everything a row has ever had to show was stored under it at some time. */
  lemma {:induction false} PastWasStored(text: SubnetText, settings: Settings, ops: seq<Op>, row: RowKey)
    ensures
      var past := PastOf(text, settings, ops, row);
      && (past.last.Some? ==> StoredSomewhere(text, ops, row, past.last.value))
      && (past.saved.Some? ==> StoredSomewhere(text, ops, row, past.saved.value))
  {
    if ops != [] {
      var n := |ops| - 1;
      var before := PastOf(text, settings, ops[..n], row);
      PastWasStored(text, settings, ops[..n], row);
      if before.last.Some? {
        StoredEarlier(text, ops, row, before.last.value);
      }
      if before.saved.Some? {
        StoredEarlier(text, ops, row, before.saved.value);
      }
      var past := PastOf(text, settings, ops, row);
      if past.last.Some? && past.last != before.last {
        assert StoresAt(text, ops, n, row, past.last.value);
      }
    }
  }

  /**
   * Over whole histories memory answers from the last store under the key: fresh only within the
   * lifetime it was stored with, stale only inside the optimistic window.
   */
  lemma {:induction false} MemoryNeverOutlives(settings: Settings, ops: seq<Op>, k: CacheKey, now: int) returns (i: nat)
    requires Ordered(ops, now) && !settings.disableExpire && LoadMemoryAfter(settings, ops, k, now).Hit?
    ensures i < |ops| && ops[i].act.Store? && ops[i].act.key == k
    ensures forall j :: i < j < |ops| && ops[j].act.Store? && ops[j].act.key == k ==> ops[j].act.ttl == 0
    ensures WithinLifetime(settings, LoadMemoryAfter(settings, ops, k, now), ops[i].at, ops[i].act.ttl, now)
  {
    MemoryServesLastStore(settings, ops, k, now);
    i := LastStoredAt(ops, k);
    ServeWithinLifetime(settings, LastStored(ops, k).value, ops[i].at, ops[i].act.ttl, now);
  }

  /**
   * And the file, whatever writes fail: an answer comes from some store under the key's row, and stays
   * within the lifetime of that store.
   */
  lemma {:induction false} FileNeverOutlives(text: SubnetText, settings: Settings, ops: seq<Op>, k: CacheKey, now: int)
    returns (i: nat)
    requires Ordered(ops, now) && !settings.disableExpire && LoadFile(text, settings, ops, k, now).Hit?
    ensures i < |ops| && ops[i].act.Store? && RowOf(text, ops[i].act.key) == RowOf(text, k)
    ensures WithinLifetime(settings, LoadFile(text, settings, ops, k, now), ops[i].at, ops[i].act.ttl, now)
  {
    var row := RowOf(text, k);
    var past := PastOf(text, settings, ops, row);
    FileServesItsRow(text, settings, ops, k, now);
    PastWasStored(text, settings, ops, row);
    var e := (if StillQueued(text, settings, ops, row) then past.last else past.saved).value;
    i :| StoresAt(text, ops, i, row, e);
    ServeWithinLifetime(settings, e, ops[i].at, ops[i].act.ttl, now);
    ServeWithinLifetime(settings, Floored(e), ops[i].at, ops[i].act.ttl, now);
  }

  /**
   * Among keys of one class: an answer of either back end comes from a store under its own key, within its
   * lifetime.
   */
  lemma {:induction false} NothingOutlivesItsStore(text: SubnetText, settings: Settings, qclass: nat, ops: seq<Op>,
                                                   k: CacheKey, now: int)
    returns (i: nat, j: nat)
    requires FaithfulText(text) && Ordered(ops, now) && AllProper(qclass, ops) && Proper(qclass, k) &&
      !settings.disableExpire
    ensures
      var served := LoadMemoryAfter(settings, ops, k, now);
      served.Hit? ==>
        i < |ops| && ops[i].act.Store? && ops[i].act.key == k &&
          WithinLifetime(settings, served, ops[i].at, ops[i].act.ttl, now)
    ensures
      var served := LoadFile(text, settings, ops, k, now);
      served.Hit? ==>
        j < |ops| && ops[j].act.Store? && ops[j].act.key == k &&
          WithinLifetime(settings, served, ops[j].at, ops[j].act.ttl, now)
  {
    i, j := 0, 0;
    if LoadMemoryAfter(settings, ops, k, now).Hit? {
      i := MemoryNeverOutlives(settings, ops, k, now);
    }
    if LoadFile(text, settings, ops, k, now).Hit? {
      j := FileNeverOutlives(text, settings, ops, k, now);
      SameRowIff(text, ops[j].act.key, k);
    }
  }

  // ------------------------------------------------------------------ what can go wrong

  lemma {:induction false} RowsGrow(text: SubnetText, settings: Settings, ops: seq<Op>, op: Op)
    ensures RowsAfter(text, settings, ops + [op]) == RowsStep(text, settings, RowsAfter(text, settings, ops), op)
  {
    assert (ops + [op])[..|ops|] == ops;
  }

  /** Store a response and save it; store another under the same key and fail to save it. */
  function FailedSave(text: SubnetText, k: CacheKey, first: Records, second: Records, ttl: TTL, at: int): seq<Op> {
    var row := RowOf(text, k);
    [Op(at, Store(k, first, ttl))] + [Op(at, WriteRow(row, true))] + [Op(at, FinishRow(row))] +
    [Op(at, Store(k, second, ttl))] + [Op(at, WriteRow(row, false))] + [Op(at, FinishRow(row))]
  }

  lemma {:induction false} FailedSaveRows(text: SubnetText, settings: Settings, k: CacheKey, first: Records,
                                          second: Records, ttl: TTL, at: int)
    requires ttl > 0
    ensures
      var row := RowOf(text, k);
      RowsAfter(text, settings, FailedSave(text, k, first, second, ttl, at)) ==
      Rows(map[], map[], map[row := Floored(NewEntry(first, ttl, at))])
  {
    var row := RowOf(text, k);
    var e, e' := NewEntry(first, ttl, at), NewEntry(second, ttl, at);
    var o1 := [Op(at, Store(k, first, ttl))];
    var o2 := o1 + [Op(at, WriteRow(row, true))];
    var o3 := o2 + [Op(at, FinishRow(row))];
    var o4 := o3 + [Op(at, Store(k, second, ttl))];
    var o5 := o4 + [Op(at, WriteRow(row, false))];
    RowsGrow(text, settings, [], Op(at, Store(k, first, ttl)));
    assert [] + o1 == o1;
    RowsGrow(text, settings, o1, Op(at, WriteRow(row, true)));
    RowsGrow(text, settings, o2, Op(at, FinishRow(row)));
    var disk := map[row := Floored(e)];
    assert RowsAfter(text, settings, o3) == Rows(map[], map[], disk);
    RowsGrow(text, settings, o3, Op(at, Store(k, second, ttl)));
    RowsGrow(text, settings, o4, Op(at, WriteRow(row, false)));
    assert RowsAfter(text, settings, o5) == Rows(map[row := Queued(e', 1)], map[row := 1], disk);
    RowsGrow(text, settings, o5, Op(at, FinishRow(row)));
  }

  /** After a failed save the response saved before it resurfaces, although another was stored since. */
  lemma {:induction false} FailedSaveResurfaces(text: SubnetText, settings: Settings, k: CacheKey, first: Records,
                                                second: Records, ttl: TTL, at: int)
    requires ttl > 0
    ensures
      var ops := FailedSave(text, k, first, second, ttl, at);
      && LastStored(ops, k) == Some(NewEntry(second, ttl, at))
      && LoadFile(text, settings, ops, k, at) == Serve(settings, Floored(NewEntry(first, ttl, at)), at)
      && LoadFile(text, settings, ops, k, at).Hit?
  {
    var ops := FailedSave(text, k, first, second, ttl, at);
    assert LastStored(ops[..4], k) == Some(NewEntry(second, ttl, at));
    assert ops[..5][..4] == ops[..4] && ops[..6] == ops;
    assert LastStored(ops[..5], k) == LastStored(ops[..4], k);
    FailedSaveRows(text, settings, k, first, second, ttl, at);
  }

  /** Two questions that differ in class alone share a row: the cache file answers one with the other's response. */
  lemma {:induction false} ClassesCollide(text: SubnetText, settings: Settings, k: CacheKey, qclass: nat,
                                          message: Records, ttl: TTL, now: int)
    requires qclass != k.qclass && ttl > 0
    ensures
      var other := k.(qclass := qclass);
      var ops := [Op(now, Store(k, message, ttl))];
      LoadMemoryAfter(settings, ops, other, now) == Miss && LoadFile(text, settings, ops, other, now).Hit?
  {
    var ops := [Op(now, Store(k, message, ttl))];
    assert ops[..0] == [];
    assert MemoryAfter(settings, ops) == map[k := NewEntry(message, ttl, now)];
    assert RowsAfter(text, settings, ops).queue == map[RowOf(text, k) := Queued(NewEntry(message, ttl, now), 1)];
  }
}
