/** Keys of the DNS cache and their persistent form (dns/client.go, `dnsCacheKey.persistentName`). */
module CacheNames {
  import opened Netip

  datatype CacheKey = CacheKey(name: string, qtype: nat, qclass: nat, tag: string, subnet: Prefix, environment: nat)

  /** How `netip` writes a prefix; see `FaithfulText` for what is assumed of it. */
  type SubnetText = Prefix -> string

  const NO_SUBNET := NO_PREFIX

  const NUL: char := '\U{0}'
  const SOH: char := '\U{1}'

  /** Valid prefixes have distinct texts, and no text uses the two separator characters. */
  ghost predicate FaithfulText(text: SubnetText) {
    && (forall p: Prefix, q: Prefix :: p.IsValid() && q.IsValid() && text(p) == text(q) ==> p == q)
    && (forall p: Prefix :: p.IsValid() ==> NUL !in text(p) && SOH !in text(p))
  }

  function Digit(d: nat): char
    requires d < 36
  {
    if d < 10 then (d + 48) as char else (d + 87) as char
  }

  /** `strconv.FormatUint(n, 36)`. */
  function Base36(n: nat): (s: string)
    ensures |s| >= 1 && (|s| == 1 <==> n < 36)
  {
    if n < 36 then [Digit(n)] else Base36(n / 36) + [Digit(n % 36)]
  }

  function SubnetPart(text: SubnetText, p: Prefix): string {
    if p.IsValid() then [NUL] + text(p) else []
  }

  function EnvironmentPart(environment: nat): string {
    if environment != 0 then [SOH] + Base36(environment) else []
  }

  function PersistentName(text: SubnetText, k: CacheKey): string {
    k.tag + SubnetPart(text, k.subnet) + EnvironmentPart(k.environment)
  }

  /** The row a key is stored under; the question's class is not part of it. */
  datatype RowKey = RowKey(transport: string, name: string, qtype: nat)

  function RowOf(text: SubnetText, k: CacheKey): RowKey {
    RowKey(PersistentName(text, k), k.name, k.qtype)
  }

  lemma {:induction false} Base36Injective(n: nat, m: nat)
    requires Base36(n) == Base36(m)
    ensures n == m
    decreases n
  {
    if n < 36 {
      assert Base36(n)[0] == Base36(m)[0];
    } else {
      var a, b := Base36(n / 36), Base36(m / 36);
      assert Base36(n)[..|a|] == a && Base36(m)[..|b|] == b;
      assert Base36(n)[|a|] == Digit(n % 36) && Base36(m)[|b|] == Digit(m % 36);
      Base36Injective(n / 36, m / 36);
    }
  }

  /** `rest` is empty or opens with the separator `c`. */
  predicate Opens(c: char, rest: string) { rest == [] || rest[0] == c }

  lemma {:induction false} CutAt(c: char, a: string, r: string)
    requires c !in a && Opens(c, r)
    ensures forall i :: 0 <= i < |a| ==> (a + r)[i] != c
    ensures r != [] ==> (a + r)[|a|] == c
  {
    forall i | 0 <= i < |a| ensures (a + r)[i] != c {
      assert (a + r)[i] == a[i];
    }
  }

  /** A string splits in only one way into a part without `c` and a rest that is empty or opens with `c`. */
  lemma {:induction false} SplitUnique(c: char, a: string, r: string, b: string, s: string)
    requires c !in a && c !in b && Opens(c, r) && Opens(c, s) && a + r == b + s
    ensures a == b && r == s
  {
    CutAt(c, a, r);
    CutAt(c, b, s);
    assert |a| == |b|;
    assert a == (a + r)[..|a|] && b == (b + s)[..|b|];
    assert r == (a + r)[|a|..] && s == (b + s)[|b|..];
  }

  /** Two subnets no persistent name tells apart. */
  predicate SubnetAlike(p: Prefix, q: Prefix) { p == q || (!p.IsValid() && !q.IsValid()) }

  ghost predicate PlainTag(tag: string) { NUL !in tag && SOH !in tag }

  /** The persistent name determines the transport tag, the subnet if valid, and the environment. */
  lemma {:induction false} PersistentNameInjective(text: SubnetText, k: CacheKey, l: CacheKey)
    requires FaithfulText(text) && PlainTag(k.tag) && PlainTag(l.tag)
    requires PersistentName(text, k) == PersistentName(text, l)
    ensures k.tag == l.tag && SubnetAlike(k.subnet, l.subnet) && k.environment == l.environment
  {
    SplitUnique(SOH, k.tag + SubnetPart(text, k.subnet), EnvironmentPart(k.environment),
                l.tag + SubnetPart(text, l.subnet), EnvironmentPart(l.environment));
    SplitUnique(NUL, k.tag, SubnetPart(text, k.subnet), l.tag, SubnetPart(text, l.subnet));
    if k.environment != 0 && l.environment != 0 {
      assert EnvironmentPart(k.environment)[1..] == Base36(k.environment);
      assert EnvironmentPart(l.environment)[1..] == Base36(l.environment);
      Base36Injective(k.environment, l.environment);
    }
    if k.subnet.IsValid() && l.subnet.IsValid() {
      assert SubnetPart(text, k.subnet)[1..] == text(k.subnet);
      assert SubnetPart(text, l.subnet)[1..] == text(l.subnet);
    }
  }

  /** Exactly which keys share a row: those that differ in class, or in which invalid subnet they carry. */
  lemma {:induction false} SameRowIff(text: SubnetText, k: CacheKey, l: CacheKey)
    requires FaithfulText(text) && PlainTag(k.tag) && PlainTag(l.tag)
    ensures RowOf(text, k) == RowOf(text, l) <==>
      k.name == l.name && k.qtype == l.qtype && k.tag == l.tag && SubnetAlike(k.subnet, l.subnet) &&
        k.environment == l.environment
  {
    if RowOf(text, k) == RowOf(text, l) {
      PersistentNameInjective(text, k, l);
    }
  }
}
