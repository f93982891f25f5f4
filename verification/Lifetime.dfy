/** How long a DNS response may be kept (dns/client.go: `computeTimeToLive`, `normalizeTTL`, `applyResponseOptions`). */
module Lifetime {
  import opened Wrappers
  import opened QueryOptions

  type TTL = x: int | 0 <= x < 0x1_0000_0000

  /** A parameter of an HTTPS record, of which only the address hints matter here. */
  datatype Parameter = Ipv4Hint | Ipv6Hint | OtherParameter(key: nat)

  datatype Kind = Opt | Soa(minimum: TTL) | Https(parameters: seq<Parameter>) | Plain

  datatype Record = Record(kind: Kind, ttl: TTL)

  datatype Records = Records(answer: seq<Record>, ns: seq<Record>, extra: seq<Record>) {
    function All(): seq<Record> { answer + ns + extra }
  }

  /** `extractNegativeTTL`: the first SOA of the authority section (section 5 of RFC 2308). */
  function NegativeTTL(ns: seq<Record>): Option<TTL> {
    if ns == [] then None
    else if ns[0].kind.Soa? then Some(if ns[0].ttl < ns[0].kind.minimum then ns[0].ttl else ns[0].kind.minimum)
    else NegativeTTL(ns[1..])
  }

  /** `t` is the least positive TTL of the records that are not OPT, or 0 if none is positive. */
  ghost predicate IsLeastPositive(records: seq<Record>, t: TTL) {
    && (forall r :: r in records && !r.kind.Opt? && r.ttl > 0 ==> 0 < t <= r.ttl)
    && (t > 0 ==> exists r :: r in records && !r.kind.Opt? && r.ttl == t)
  }

  /** One record of the scan in `computeTimeToLive`. */
  function Lower(t: TTL, r: Record): TTL {
    if r.kind.Opt? then t else if t == 0 || 0 < r.ttl < t then r.ttl else t
  }

  function Scan(records: seq<Record>): (t: TTL)
    ensures IsLeastPositive(records, t)
  {
    if records == [] then 0
    else
      var front := records[..|records| - 1];
      var last := records[|records| - 1];
      assert records == front + [last];
      Lower(Scan(front), last)
  }

  function Compute(m: Records): TTL {
    if m.answer == [] && NegativeTTL(m.ns).Some? then NegativeTTL(m.ns).value else Scan(m.All())
  }

  function NormalizeAll(records: seq<Record>, t: TTL): (r: seq<Record>)
    ensures |r| == |records|
    ensures forall i :: 0 <= i < |records| ==>
      r[i].kind == records[i].kind && r[i].ttl == if records[i].kind.Opt? then records[i].ttl else t
  {
    if records == [] then []
    else
      var last := records[|records| - 1];
      NormalizeAll(records[..|records| - 1], t) + [if last.kind.Opt? then last else last.(ttl := t)]
  }

  function Normalize(m: Records, t: TTL): Records {
    Records(NormalizeAll(m.answer, t), NormalizeAll(m.ns, t), NormalizeAll(m.extra, t))
  }

  /** The parameters an address strategy leaves: hints of the family it excludes are dropped. */
  function Kept(parameters: seq<Parameter>, dropped: Parameter): (r: seq<Parameter>)
    ensures forall p :: p in r <==> p in parameters && p != dropped
  {
    if parameters == [] then []
    else
      var last := parameters[|parameters| - 1];
      Kept(parameters[..|parameters| - 1], dropped) + if last == dropped then [] else [last]
  }

  function StripRecord(r: Record, dropped: Parameter): Record {
    if r.kind.Https? then r.(kind := Https(Kept(r.kind.parameters, dropped))) else r
  }

  function StripHints(records: seq<Record>, dropped: Parameter): (r: seq<Record>)
    ensures |r| == |records| && forall i :: 0 <= i < |records| ==> r[i] == StripRecord(records[i], dropped)
  {
    if records == [] then []
    else StripHints(records[..|records| - 1], dropped) + [StripRecord(records[|records| - 1], dropped)]
  }

  /** What `applyResponseOptions` first makes of a response; `dropped` is the hint an HTTPS query must not get. */
  function Stripped(m: Records, dropped: Option<Parameter>): Records {
    if dropped.None? then m else m.(answer := StripHints(m.answer, dropped.value))
  }

  /** The hints to drop from the answer to a question under a strategy. */
  function DroppedHint(https: bool, strategy: Strategy): Option<Parameter> {
    if !https then None
    else if strategy.IPv4Only? then Some(Ipv6Hint)
    else if strategy.IPv6Only? then Some(Ipv4Hint)
    else None
  }

  /** A response whose records are updated in place. */
  class Response {
    var answer: seq<Record>
    var ns: seq<Record>
    var extra: seq<Record>

    function Value(): Records
      reads this
    {
      Records(answer, ns, extra)
    }

    method ExtractNegativeTTL() returns (t: Option<TTL>)
      ensures t == NegativeTTL(ns)
    {
      for i := 0 to |ns|
        invariant NegativeTTL(ns) == NegativeTTL(ns[i..])
      {
        if ns[i].kind.Soa? {
          if ns[i].ttl < ns[i].kind.minimum {
            return Some(ns[i].ttl);
          }
          return Some(ns[i].kind.minimum);
        }
        assert ns[i..][1..] == ns[i + 1..];
      }
      t := None;
    }

    method ComputeTimeToLive() returns (t: TTL)
      ensures t == Compute(Value())
    {
      t := 0;
      if answer == [] {
        var negative := ExtractNegativeTTL();
        if negative.Some? {
          return negative.value;
        }
      }
      var records := answer + ns + extra;
      for i := 0 to |records|
        invariant t == Scan(records[..i])
      {
        assert records[..i + 1][..i] == records[..i];
        if records[i].kind.Opt? {
          continue;
        }
        if t == 0 || (records[i].ttl > 0 && records[i].ttl < t) {
          t := records[i].ttl;
        }
      }
      assert records[..|records|] == records;
    }

    static method NormalizeList(records: seq<Record>, t: TTL) returns (r: seq<Record>)
      ensures r == NormalizeAll(records, t)
    {
      r := records;
      for i := 0 to |records|
        invariant |r| == |records|
        invariant r[..i] == NormalizeAll(records[..i], t)
        invariant forall k :: i <= k < |records| ==> r[k] == records[k]
      {
        assert records[..i + 1][..i] == records[..i];
        if records[i].kind.Opt? {
          assert r[..i + 1] == r[..i] + [r[i]];
          continue;
        }
        ghost var before := r;
        r := r[i := r[i].(ttl := t)];
        assert r[..i + 1] == before[..i] + [r[i]];
      }
      assert records[..|records|] == records && r[..|r|] == r;
    }

    method NormalizeTTL(t: TTL)
      modifies this
      ensures Value() == Normalize(old(Value()), t)
    {
      answer := NormalizeList(answer, t);
      ns := NormalizeList(ns, t);
      extra := NormalizeList(extra, t);
    }

    method StripAnswers(dropped: Parameter)
      modifies this
      ensures Value() == Stripped(old(Value()), Some(dropped))
    {
      for i := 0 to |answer|
        invariant |answer| == |old(answer)| && ns == old(ns) && extra == old(extra)
        invariant forall k :: 0 <= k < i ==> answer[k] == StripRecord(old(answer)[k], dropped)
        invariant forall k :: i <= k < |answer| ==> answer[k] == old(answer)[k]
      {
        if answer[i].kind.Https? {
          answer := answer[i := answer[i].(kind := Https(Kept(answer[i].kind.parameters, dropped)))];
        }
      }
      assert answer == StripHints(old(answer), dropped);
    }

    /** `applyResponseOptions`; the lifetime does not depend on the hints stripped before it. */
    method ApplyOptions(https: bool, strategy: Strategy, rewrite: Option<TTL>) returns (t: TTL)
      modifies this
      ensures t == if rewrite.Some? then rewrite.value else Compute(old(Value()))
      ensures Value() == Normalize(Stripped(old(Value()), DroppedHint(https, strategy)), t)
    {
      StrippingKeepsLifetime(Value(), DroppedHint(https, strategy));
      if https && (strategy.IPv4Only? || strategy.IPv6Only?) {
        StripAnswers(if strategy.IPv4Only? then Ipv6Hint else Ipv4Hint);
      }
      t := ComputeTimeToLive();
      if rewrite.Some? {
        t := rewrite.value;
      }
      NormalizeTTL(t);
    }
  }

  // ------------------------------------------------------------------- the laws

  /** The lifetime is the one RFC 2308 gives an empty answer with an SOA, else the least positive TTL. */
  lemma {:induction false} LifetimeIsLeast(m: Records)
    ensures m.answer == [] && NegativeTTL(m.ns).Some? ==>
      exists i :: 0 <= i < |m.ns| && m.ns[i].kind.Soa? && (forall j :: 0 <= j < i ==> !m.ns[j].kind.Soa?)
        && Compute(m) == if m.ns[i].ttl < m.ns[i].kind.minimum then m.ns[i].ttl else m.ns[i].kind.minimum
    ensures m.answer != [] || NegativeTTL(m.ns).None? ==> IsLeastPositive(m.All(), Compute(m))
  {
    if NegativeTTL(m.ns).Some? {
      var i := FirstSoa(m.ns);
    }
  }

  lemma {:induction false} StrippingKeepsLifetime(m: Records, dropped: Option<Parameter>)
    ensures Compute(Stripped(m, dropped)) == Compute(m)
  {
    if dropped.Some? {
      var a, b := m.All(), Stripped(m, dropped).All();
      assert |a| == |b| && forall i :: 0 <= i < |a| ==> a[i].ttl == b[i].ttl && (a[i].kind.Opt? <==> b[i].kind.Opt?);
      SameScan(a, b);
    }
  }

  lemma {:induction false} SameScan(a: seq<Record>, b: seq<Record>)
    requires |a| == |b| && forall i :: 0 <= i < |a| ==> a[i].ttl == b[i].ttl && (a[i].kind.Opt? <==> b[i].kind.Opt?)
    ensures Scan(a) == Scan(b)
  {
    if a != [] {
      SameScan(a[..|a| - 1], b[..|b| - 1]);
    }
  }

  lemma {:induction false} FirstSoa(ns: seq<Record>) returns (i: nat)
    requires NegativeTTL(ns).Some?
    ensures i < |ns| && ns[i].kind.Soa? && forall j :: 0 <= j < i ==> !ns[j].kind.Soa?
    ensures NegativeTTL(ns) == Some(if ns[i].ttl < ns[i].kind.minimum then ns[i].ttl else ns[i].kind.minimum)
  {
    if ns[0].kind.Soa? {
      i := 0;
    } else {
      var k := FirstSoa(ns[1..]);
      i := k + 1;
    }
  }

  lemma {:induction false} LeastPositiveUnique(records: seq<Record>, t: TTL, u: TTL)
    requires IsLeastPositive(records, t) && IsLeastPositive(records, u)
    ensures t == u
  {
    if t > 0 {
      var r :| r in records && !r.kind.Opt? && r.ttl == t;
    }
    if u > 0 {
      var r :| r in records && !r.kind.Opt? && r.ttl == u;
    }
  }

  /** After normalising, the negative TTL is the lesser of the new TTL and the first SOA's MINIMUM. */
  lemma {:induction false} NegativeAfterNormalize(ns: seq<Record>, t: TTL)
    ensures NegativeTTL(ns).None? <==> NegativeTTL(NormalizeAll(ns, t)).None?
    ensures NegativeTTL(ns).Some? ==>
      exists i :: 0 <= i < |ns| && ns[i].kind.Soa? && (forall j :: 0 <= j < i ==> !ns[j].kind.Soa?)
        && NegativeTTL(NormalizeAll(ns, t)) == Some(if t < ns[i].kind.minimum then t else ns[i].kind.minimum)
  {
    var after := NormalizeAll(ns, t);
    if NegativeTTL(ns).Some? {
      var i := FirstSoa(ns);
      NegativeIsSome(after, i);
      var k := FirstSoa(after);
      assert k == i;
    }
    if NegativeTTL(after).Some? {
      var k := FirstSoa(after);
      NegativeIsSome(ns, k);
    }
  }

  lemma {:induction false} NegativeIsSome(ns: seq<Record>, i: nat)
    requires i < |ns| && ns[i].kind.Soa?
    ensures NegativeTTL(ns).Some?
  {
    if i > 0 {
      NegativeIsSome(ns[1..], i - 1);
    }
  }

  /** The MINIMUM that caps a negative answer's lifetime. */
  ghost predicate CappedBy(m: Records, minimum: TTL) {
    m.answer == [] && exists i :: 0 <= i < |m.ns| && m.ns[i].kind == Soa(minimum) && forall j :: 0 <= j < i ==>
      !m.ns[j].kind.Soa?
  }

  ghost predicate HasRecord(m: Records) { exists r :: r in m.All() && !r.kind.Opt? }

  lemma {:induction false} NormalizedAt(m: Records, t: TTL)
    ensures
      var a, b := m.All(), Normalize(m, t).All();
      |a| == |b| && forall i :: 0 <= i < |a| ==> b[i].kind == a[i].kind && (b[i].kind.Opt? || b[i].ttl == t)
  {
  }

  lemma {:induction false} NormalizedAll(m: Records, t: TTL)
    ensures IsLeastPositive(Normalize(m, t).All(), if HasRecord(m) then t else 0)
  {
    var n := Normalize(m, t);
    NormalizedAt(m, t);
    forall r | r in n.All() && !r.kind.Opt? ensures r.ttl == t && HasRecord(m) {
      var i :| 0 <= i < |n.All()| && n.All()[i] == r;
      assert m.All()[i] in m.All();
    }
    if HasRecord(m) {
      var r :| r in m.All() && !r.kind.Opt?;
      var i :| 0 <= i < |m.All()| && m.All()[i] == r;
      assert n.All()[i] in n.All();
    }
  }

  /**
   * Exactly when a lifetime survives a second computation: below the SOA MINIMUM for a negative answer,
   * and otherwise when there is a record to carry it.
   */
  lemma {:induction false} NormalizedLifetimeIff(m: Records, t: TTL)
    ensures Compute(Normalize(m, t)) == t <==>
      if m.answer == [] && NegativeTTL(m.ns).Some? then forall minimum :: CappedBy(m, minimum) ==> t <= minimum
      else t == 0 || HasRecord(m)
  {
    var n := Normalize(m, t);
    NegativeAfterNormalize(m.ns, t);
    if m.answer == [] && NegativeTTL(m.ns).Some? {
      var i := FirstSoa(m.ns);
      assert CappedBy(m, m.ns[i].kind.minimum);
      assert forall minimum :: CappedBy(m, minimum) ==> minimum == m.ns[i].kind.minimum;
    } else {
      NormalizedAll(m, t);
      LeastPositiveUnique(n.All(), Scan(n.All()), if HasRecord(m) then t else 0);
    }
  }

  /**
   * Absent a rewrite, the stored lifetime is a fixed point: computing it again from the stored response
   * gives it back.
   */
  lemma {:induction false} LifetimeIsFixedPoint(m: Records)
    ensures Compute(Normalize(m, Compute(m))) == Compute(m)
  {
    NormalizedLifetimeIff(m, Compute(m));
    if m.answer == [] && NegativeTTL(m.ns).Some? {
      var i := FirstSoa(m.ns);
      assert forall minimum :: CappedBy(m, minimum) ==> minimum == m.ns[i].kind.minimum;
    }
  }
}
