/**
 * The EDNS Client Subnet option of a DNS message (dns/extension_edns0_subnet.go; section 6 of RFC 7871)
 * and its share in the cache key (dns/client.go: `newCacheKey`, `prepareExchangeMessage`).
 */
module ClientSubnet {
  import opened Netip
  import opened Scalars

  const SUBNET_CODE: nat := 8

  /** `OtherOption` is any option whose type is not the subnet's; its code may still be `SUBNET_CODE`. */
  datatype Edns =
    | Subnet(family: int, netmask: int, scope: int, address: seq<Byte>)
    | OtherOption(code: nat, data: seq<Byte>)
  {
    predicate HasSubnetCode() { Subnet? || code == SUBNET_CODE }
  }

  datatype Record = Opt(header: int, options: seq<Edns>) | OtherRecord(id: nat)

  /** The additional section, and everything else a message holds. */
  datatype Message = Message(rest: nat, extra: seq<Record>)

  // ----------------------------------------------------------- the operations, on values

  /** The index of the first subnet option, or the length. */
  function FirstSubnet(options: seq<Edns>): (j: nat)
    ensures j <= |options| && (j < |options| ==> options[j].Subnet?)
    ensures forall k :: 0 <= k < j ==> !options[k].Subnet?
  {
    if options == [] || options[0].Subnet? then 0 else 1 + FirstSubnet(options[1..])
  }

  predicate Holds(r: Record) { r.Opt? && FirstSubnet(r.options) < |r.options| }

  /** The index of the first record that holds a subnet option, or the length. */
  function Holder(extra: seq<Record>): (i: nat)
    ensures i <= |extra| && (i < |extra| ==> Holds(extra[i]))
    ensures forall k :: 0 <= k < i ==> !Holds(extra[k])
  {
    if extra == [] || Holds(extra[0]) then 0 else 1 + Holder(extra[1..])
  }

  function Decode(o: Edns): Prefix
    requires o.Subnet?
  {
    var address := AddrFromSlice(o.address);
    if address.NoAddr? then NO_PREFIX else PrefixFrom(address.Unmap(), o.netmask)
  }

  function Get(m: Message): Prefix {
    var i := Holder(m.extra);
    if i == |m.extra| then NO_PREFIX else Decode(m.extra[i].options[FirstSubnet(m.extra[i].options)])
  }

  function AsSlice(a: Addr): seq<Byte> { if a.NoAddr? then [] else a.bytes }

  /** The fields `setClientSubnet` writes; `scope` is what the option had. */
  function Encode(p: Prefix, scope: int): Edns {
    Subnet(if p.addr.V4? then 1 else 2, p.bits % 256, scope, AsSlice(p.addr))
  }

  function Rewrite(r: Record, p: Prefix): Record
    requires Holds(r)
  {
    var j := FirstSubnet(r.options);
    r.(options := r.options[j := Encode(p, r.options[j].scope)])
  }

  function Set(m: Message, p: Prefix): Message {
    var i, n := Holder(m.extra), |m.extra|;
    if i < n then m.(extra := m.extra[i := Rewrite(m.extra[i], p)])
    else if n > 0 && m.extra[n - 1].Opt? then
      m.(extra := m.extra[n - 1 := m.extra[n - 1].(options := m.extra[n - 1].options + [Encode(p, 0)])])
    else m.(extra := m.extra + [Opt(0, [Encode(p, 0)])])
  }

  function Without(options: seq<Edns>): seq<Edns> {
    if options == [] then []
    else
      var last := options[|options| - 1];
      Without(options[..|options| - 1]) + if last.HasSubnetCode() then [] else [last]
  }

  function StripRecord(r: Record): Record { if r.Opt? then r.(options := Without(r.options)) else r }

  function StripAll(extra: seq<Record>): (r: seq<Record>)
    ensures |r| == |extra|
    ensures forall i :: 0 <= i < |extra| ==> r[i] == StripRecord(extra[i])
  {
    if extra == [] then [] else StripAll(extra[..|extra| - 1]) + [StripRecord(extra[|extra| - 1])]
  }

  function Remove(m: Message): Message { m.(extra := StripAll(m.extra)) }

  // -------------------------------------------------------------- the operations, in place

  class OptRecord {
    var header: int
    var options: seq<Edns>

    constructor (header: int, options: seq<Edns>)
      ensures this.header == header && this.options == options
    {
      this.header := header;
      this.options := options;
    }

    /** Write the subnet's fields into the option at an index, or into a new last option for a negative one. */
    method PutSubnet(option: int, p: Prefix)
      requires option < |options| && (option >= 0 ==> options[option].Subnet?)
      modifies this
      ensures header == old(header)
      ensures options == if option < 0 then old(options) + [Encode(p, 0)]
        else old(options)[option := Encode(p, old(options)[option].scope)]
    {
      var j := option;
      if j < 0 {
        options := options + [Subnet(0, 0, 0, [])];
        j := |options| - 1;
      }
      var family := if p.addr.V4? then 1 else 2;
      options := options[j := options[j].(family := family)];
      options := options[j := options[j].(netmask := p.bits % 256)];
      options := options[j := options[j].(address := AsSlice(p.addr))];
    }
  }

  datatype RecordRef = OptRef(opt: OptRecord) | OtherRef(id: nat)

  predicate Points(r: RecordRef, opt: OptRecord?) { r.OptRef? && r.opt == opt }

  ghost function Footprint(extra: seq<RecordRef>): set<OptRecord> {
    set r | r in extra && r.OptRef? :: r.opt
  }

  ghost function RecordValue(r: RecordRef): Record
    reads if r.OptRef? then {r.opt} else {}
  {
    match r
    case OptRef(o) => Opt(o.header, o.options)
    case OtherRef(id) => OtherRecord(id)
  }

  ghost function Values(extra: seq<RecordRef>): (v: seq<Record>)
    reads Footprint(extra)
    ensures |v| == |extra| && forall i :: 0 <= i < |extra| ==> v[i] == RecordValue(extra[i])
  {
    if extra == [] then [] else Values(extra[..|extra| - 1]) + [RecordValue(extra[|extra| - 1])]
  }

  lemma {:induction false} ValuesAppend(extra: seq<RecordRef>, r: RecordRef)
    ensures Values(extra + [r]) == Values(extra) + [RecordValue(r)]
  {
    assert (extra + [r])[..|extra|] == extra;
  }

  lemma {:induction false} FootprintGrows(extra: seq<RecordRef>, r: RecordRef)
    ensures Footprint(extra + [r]) == Footprint(extra) + if r.OptRef? then {r.opt} else {}
  {
  }

  /** No OPT record occurs twice. */
  ghost predicate Unshared(extra: seq<RecordRef>) {
    forall i, j :: 0 <= i < j < |extra| && extra[i].OptRef? ==> extra[i] != extra[j]
  }

  class Msg {
    var rest: nat
    var extra: seq<RecordRef>

    constructor (rest: nat, extra: seq<RecordRef>)
      ensures this.rest == rest && this.extra == extra
    {
      this.rest := rest;
      this.extra := extra;
    }

    ghost function Value(): Message
      reads this, Footprint(extra)
    {
      Message(rest, Values(extra))
    }

    /** `dns.Msg.Copy`. */
    method Copy() returns (c: Msg)
      ensures fresh(c) && fresh(Footprint(c.extra)) && Unshared(c.extra)
      ensures c.Value() == old(Value())
    {
      var copied: seq<RecordRef> := [];
      for i := 0 to |extra|
        invariant |copied| == i && Unshared(copied) && fresh(Footprint(copied))
        invariant forall k :: 0 <= k < i ==> RecordValue(copied[k]) == RecordValue(extra[k])
      {
        assert forall k :: 0 <= k < i && copied[k].OptRef? ==> copied[k].opt in Footprint(copied);
        var r := CopyRecord(extra[i]);
        FootprintGrows(copied, r);
        copied := copied + [r];
      }
      assert forall k :: 0 <= k < |extra| && copied[k].OptRef? ==> copied[k].opt in Footprint(copied);
      c := new Msg(rest, copied);
      assert Values(c.extra) == Values(extra);
    }

    /** `clientSubnetFromMessage`. */
    method ClientSubnet() returns (p: Prefix)
      ensures p == Get(Value())
    {
      for i := 0 to |extra|
        invariant forall k :: 0 <= k < i ==> !Holds(Value().extra[k])
      {
        if extra[i].OptRef? {
          var options := extra[i].opt.options;
          for j := 0 to |options|
            invariant forall k :: 0 <= k < j ==> !options[k].Subnet?
          {
            if options[j].Subnet? {
              var address := AddrFromSlice(options[j].address);
              assert Holder(Value().extra) == i;
              if address.NoAddr? {
                return NO_PREFIX;
              }
              return PrefixFrom(address.Unmap(), options[j].netmask);
            }
          }
        }
      }
      p := NO_PREFIX;
    }

    /** The scan of `setClientSubnet`: where the loop left `optRecord`, and the option it broke out at. */
    method FindExisting() returns (opt: OptRecord?, option: int)
      ensures
        var v := Value().extra;
        var i := Holder(v);
        if i < |v| then Points(extra[i], opt) && option == FirstSubnet(v[i].options)
        else option == -1 && (if |v| > 0 && v[|v| - 1].Opt? then Points(extra[|v| - 1], opt) else opt == null)
    {
      opt, option := null, -1;
      for i := 0 to |extra|
        invariant option == -1
        invariant forall k :: 0 <= k < i ==> !Holds(Value().extra[k])
        invariant if i > 0 && extra[i - 1].OptRef? then Points(extra[i - 1], opt) else opt == null
      {
        opt := if extra[i].OptRef? then extra[i].opt else null;
        if opt != null {
          for j := 0 to |opt.options|
            invariant opt != null && Points(extra[i], opt)
            invariant forall k :: 0 <= k < j ==> !opt.options[k].Subnet?
          {
            if opt.options[j].Subnet? {
              assert Holder(Value().extra) == i;
              return opt, j;
            }
          }
        }
      }
    }

    method WriteSubnet(opt: OptRecord, option: int, p: Prefix, ghost i: nat)
      requires Unshared(extra) && i < |extra| && Points(extra[i], opt)
      requires option < |opt.options| && (option >= 0 ==> opt.options[option].Subnet?)
      requires if option >= 0 then Holder(Values(extra)) == i && FirstSubnet(opt.options) == option
        else Holder(Values(extra)) == |extra| && i == |extra| - 1
      modifies Footprint(extra)
      ensures Value() == Set(old(Value()), p)
    {
      ghost var v := Values(extra);
      assert opt in Footprint(extra);
      opt.PutSubnet(option, p);
      assert forall k :: 0 <= k < |extra| && k != i ==> RecordValue(extra[k]) == v[k];
      assert Values(extra) == v[i := RecordValue(extra[i])];
    }

    method AddSubnet(p: Prefix) returns (m: Msg)
      requires Holder(Values(extra)) == |extra| && (extra != [] ==> !extra[|extra| - 1].OptRef?)
      ensures fresh(m) && m.Value() == Set(old(Value()), p)
    {
      ghost var v := Values(extra);
      var opt := NewSubnetRecord(p);
      m := new Msg(rest, extra + [OptRef(opt)]);
      assert Values(extra) == v;
      ValuesAppend(extra, OptRef(opt));
    }

    /** `setClientSubnet`; without `clone` it writes into this message's own OPT record. */
    method SetSubnet(p: Prefix, clone: bool) returns (m: Msg)
      requires !clone ==> Unshared(extra)
      modifies if clone then {} else Footprint(extra)
      ensures m.Value() == Set(old(Value()), p)
      ensures m == this || fresh(m)
      decreases clone
    {
      ghost var v := Value();
      var opt, option := FindExisting();
      assert Value() == v;
      if opt == null {
        m := AddSubnet(p);
        assert m.Value() == Set(v, p);
      } else if clone {
        var c := Copy();
        assert c.Value() == v;
        m := c.SetSubnet(p, false);
        assert m.Value() == Set(v, p);
      } else {
        WriteSubnet(opt, option, p, if option >= 0 then Holder(Values(extra)) else |extra| - 1);
        m := this;
        assert m.Value() == Set(v, p);
      }
    }

    /** `SetClientSubnet`: this message, and every record it holds, is left as it was. */
    method SetClientSubnet(p: Prefix) returns (m: Msg)
      ensures m.Value() == Set(old(Value()), p)
    {
      m := SetSubnet(p, true);
    }

    method HasSubnet() returns (found: bool)
      ensures !found ==> Value() == Remove(Value())
    {
      found := false;
      for i := 0 to |extra|
        invariant !found ==> forall k :: 0 <= k < i ==> StripRecord(RecordValue(extra[k])) == RecordValue(extra[k])
      {
        if extra[i].OptRef? {
          var coded := HasSubnetCode(extra[i].opt.options);
          if coded {
            return true;
          }
          NothingToStrip(extra[i].opt.options);
        }
      }
      assert Values(extra) == StripAll(Values(extra));
    }

    /** `removeClientSubnet`: the same message if there is nothing to remove, else a stripped copy. */
    method RemoveClientSubnet() returns (m: Msg)
      ensures m.Value() == Remove(old(Value()))
      ensures m == this || fresh(m)
    {
      ghost var v := Value();
      var found := HasSubnet();
      assert Value() == v;
      if !found {
        return this;
      }
      m := Copy();
      assert m.Value() == v;
      m.StripOptions();
      assert m.Value() == Remove(v);
    }

    method StripOptions()
      requires Unshared(extra)
      modifies Footprint(extra)
      ensures Value() == Remove(old(Value()))
    {
      ghost var v := Value();
      for i := 0 to |extra|
        invariant forall k :: 0 <= k < i ==> RecordValue(extra[k]) == StripRecord(v.extra[k])
        invariant forall k :: i <= k < |extra| ==> RecordValue(extra[k]) == v.extra[k]
      {
        if extra[i].OptRef? {
          assert extra[i].opt in Footprint(extra);
          extra[i].opt.options := Without(extra[i].opt.options);
        }
      }
      assert Values(extra) == StripAll(v.extra);
    }
  }

  method CopyRecord(r: RecordRef) returns (c: RecordRef)
    ensures c.OptRef? ==> fresh(c.opt)
    ensures RecordValue(c) == RecordValue(r)
  {
    if r.OptRef? {
      var o := new OptRecord(r.opt.header, r.opt.options);
      return OptRef(o);
    }
    return r;
  }

  method NewSubnetRecord(p: Prefix) returns (opt: OptRecord)
    ensures fresh(opt) && opt.header == 0 && opt.options == [Encode(p, 0)]
  {
    opt := new OptRecord(0, []);
    opt.PutSubnet(-1, p);
  }

  method HasSubnetCode(options: seq<Edns>) returns (found: bool)
    ensures found <==> exists k :: 0 <= k < |options| && options[k].HasSubnetCode()
  {
    for j := 0 to |options|
      invariant forall k :: 0 <= k < j ==> !options[k].HasSubnetCode()
    {
      if options[j].HasSubnetCode() {
        return true;
      }
    }
    return false;
  }

  lemma {:induction false} NothingToStrip(options: seq<Edns>)
    requires forall k :: 0 <= k < |options| ==> !options[k].HasSubnetCode()
    ensures Without(options) == options
  {
    if options != [] {
      NothingToStrip(options[..|options| - 1]);
      assert options[..|options| - 1] + [options[|options| - 1]] == options;
    }
  }

  // --------------------------------------------------------------------- lens laws

  lemma {:induction false} HolderAt(extra: seq<Record>, i: nat)
    requires i <= |extra| && (i < |extra| ==> Holds(extra[i]))
    requires forall k :: 0 <= k < i ==> !Holds(extra[k])
    ensures Holder(extra) == i
  {
  }

  lemma {:induction false} FirstSubnetAt(options: seq<Edns>, j: nat)
    requires j < |options| && options[j].Subnet?
    requires forall k :: 0 <= k < j ==> !options[k].Subnet?
    ensures FirstSubnet(options) == j
  {
  }

  /** Where `Set` puts the option, and the scope it leaves in it. */
  function LandsIn(m: Message): nat {
    var i, n := Holder(m.extra), |m.extra|;
    if i < n then i else if n > 0 && m.extra[n - 1].Opt? then n - 1 else n
  }

  function LandsAt(m: Message): nat {
    var i := LandsIn(m);
    if i == |m.extra| || !m.extra[i].Opt? then 0 else FirstSubnet(m.extra[i].options)
  }

  function LandsScope(m: Message): int {
    var i := Holder(m.extra);
    if i < |m.extra| then m.extra[i].options[FirstSubnet(m.extra[i].options)].scope else 0
  }

  lemma {:induction false} SetLands(m: Message, p: Prefix)
    ensures
      var x, i, j := Set(m, p).extra, LandsIn(m), LandsAt(m);
      && i < |x| && Holder(x) == i
      && x[i].Opt? && j < |x[i].options| && FirstSubnet(x[i].options) == j
      && x[i].options[j] == Encode(p, LandsScope(m))
  {
    var x, i, j, n := Set(m, p).extra, LandsIn(m), LandsAt(m), |m.extra|;
    if Holder(m.extra) == n && i < n {
      assert !Holds(m.extra[i]);
    }
    FirstSubnetAt(x[i].options, j);
    HolderAt(x, i);
  }

  /** Get after set, for every prefix: the unmapped prefix, which is the one set exactly when it is not IPv4-mapped. */
  lemma {:induction false} GetAfterSet(m: Message, p: Prefix)
    requires p.WellFormed()
    ensures Get(Set(m, p)) == PrefixFrom(p.addr.Unmap(), p.bits)
    ensures Get(Set(m, p)) == p <==> !p.addr.Is4In6()
  {
    SetLands(m, p);
  }

  /** Set after set keeps the last. */
  lemma {:induction false} SetAfterSet(m: Message, p: Prefix, q: Prefix)
    ensures Set(Set(m, p), q) == Set(m, q)
  {
    SetLands(m, p);
    var i, j := LandsIn(m), LandsAt(m);
    var once, twice, direct := Set(m, p), Set(Set(m, p), q), Set(m, q);
    assert twice.extra == once.extra[i := Rewrite(once.extra[i], q)];
    assert twice.extra[i].options == direct.extra[i].options;
    assert twice.extra == direct.extra;
  }

  lemma {:induction false} NoneLeft(options: seq<Edns>)
    ensures forall k :: 0 <= k < |Without(options)| ==> !Without(options)[k].HasSubnetCode()
  {
    if options != [] {
      NoneLeft(options[..|options| - 1]);
    }
  }

  /** Get after remove is empty. */
  lemma {:induction false} GetAfterRemove(m: Message)
    ensures Get(Remove(m)) == NO_PREFIX
  {
    var x := Remove(m).extra;
    forall k | 0 <= k < |x| ensures !Holds(x[k]) {
      if m.extra[k].Opt? {
        NoneLeft(m.extra[k].options);
      }
    }
    HolderAt(x, |m.extra|);
  }

  lemma {:induction false} WithoutAppend(a: seq<Edns>, b: seq<Edns>)
    ensures Without(a + b) == Without(a) + Without(b)
  {
    if b == [] {
      assert a + b == a && Without(b) == [];
    } else {
      var n := |a + b| - 1;
      assert (a + b)[..n] == a + b[..|b| - 1];
      WithoutAppend(a, b[..|b| - 1]);
    }
  }

  lemma {:induction false} WithoutOne(o: Edns)
    requires o.Subnet?
    ensures Without([o]) == []
  {
    assert [o][..0] == [];
  }

  lemma {:induction false} WithoutUpdate(a: seq<Edns>, j: nat, o: Edns)
    requires j < |a| && a[j].Subnet? && o.Subnet?
    ensures Without(a[j := o]) == Without(a)
  {
    var x, y := a[..j], a[j + 1..];
    assert a == x + [a[j]] + y && a[j := o] == x + [o] + y;
    WithoutAppend(x + [a[j]], y);
    WithoutAppend(x, [a[j]]);
    WithoutAppend(x + [o], y);
    WithoutAppend(x, [o]);
  }

  /**
   * Set touches nothing but the subnet: stripped of it, the message is the old one, or that with one empty
   * OPT record added.
   */
  lemma {:induction false} SetTouchesOnlySubnet(m: Message, p: Prefix)
    ensures Remove(Set(m, p)) == Remove(m) || Remove(Set(m, p)) == Remove(m).(extra := Remove(m).extra + [Opt(0, [])])
  {
    var i, n := Holder(m.extra), |m.extra|;
    var x := Set(m, p).extra;
    if i < n {
      var j := FirstSubnet(m.extra[i].options);
      WithoutUpdate(m.extra[i].options, j, Encode(p, m.extra[i].options[j].scope));
      assert StripAll(x) == StripAll(m.extra);
    } else if n > 0 && m.extra[n - 1].Opt? {
      WithoutAppend(m.extra[n - 1].options, [Encode(p, 0)]);
      WithoutOne(Encode(p, 0));
      assert Without(x[n - 1].options) == Without(m.extra[n - 1].options);
      assert StripAll(x) == StripAll(m.extra);
    } else {
      WithoutOne(Encode(p, 0));
      assert StripAll(x) == StripAll(m.extra) + [Opt(0, [])];
    }
  }

  // ---------------------------------------------------------------- the cache key

  /** A query's own subnet settings, and the client's default. */
  datatype SubnetOptions = SubnetOptions(remove: bool, selected: Prefix, default: Prefix) {
    function Chosen(): Prefix { if selected.IsValid() then selected else default }
  }

  function Prepare(m: Message, o: SubnetOptions): Message {
    if o.remove then Remove(m) else if o.Chosen().IsValid() then Set(m, o.Chosen()) else m
  }

  /** The subnet of `newCacheKey`. */
  function KeySubnet(m: Message, o: SubnetOptions): Prefix {
    if o.remove then NO_PREFIX else if o.Chosen().IsValid() then o.Chosen() else Get(m)
  }

  /** The key's subnet is the one in the prepared message, except exactly when an IPv4-mapped prefix was chosen. */
  lemma {:induction false} KeyMatchesMessage(m: Message, o: SubnetOptions)
    requires o.selected.WellFormed() && o.default.WellFormed()
    ensures KeySubnet(Prepare(m, o), o) == Get(Prepare(m, o)) <==>
      o.remove || !o.Chosen().IsValid() || !o.Chosen().addr.Is4In6()
  {
    GetAfterRemove(m);
    GetAfterSet(m, o.Chosen());
  }

  /** A lookup keyed by the message as it came finds what an exchange stored under the prepared one. */
  lemma {:induction false} LookupKeyIsExchangeKey(m: Message, o: SubnetOptions)
    ensures KeySubnet(m, o) == KeySubnet(Prepare(m, o), o)
  {
  }
}
