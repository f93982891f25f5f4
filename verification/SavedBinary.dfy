/**
 * The cache file's record of a downloaded resource (adapter/experimental.go: `SavedBinary.MarshalBinary`
 * and `UnmarshalBinary`), with the varints of `encoding/binary`. Times are nanoseconds since 1970, and
 * strings are their bytes.
 */
module SavedBinary {
  import opened Wrappers
  import opened Scalars

  const TWO_63: int := 0x8000_0000_0000_0000
  const TWO_64: int := 0x1_0000_0000_0000_0000
  const MAX_VARINT_LEN: nat := 10
  const VERSION: Byte := 2

  datatype Saved = Saved(content: seq<Byte>, updated: int, etag: seq<Byte>, urlHash: seq<Byte>) {
    /** What Go's own types guarantee: lengths fit 64 bits, and so do the seconds. */
    predicate Representable() {
      && |content| < TWO_64 && |etag| < TWO_64 && |urlHash| < TWO_64
      && -TWO_63 <= updated / SECOND < TWO_63
    }

    /** The time with its fraction of a second dropped. */
    function Truncated(): Saved { this.(updated := updated / SECOND * SECOND) }
  }

  datatype Error = EOF | UnexpectedEOF | Overflow | InvalidLength(length: int)

  datatype Parsed<T> = Ok(value: T, rest: seq<Byte>) | Fail(error: Error)

  // ----------------------------------------------------------------------- varints

  function PutUvarint(n: nat): seq<Byte> {
    if n < 128 then [n] else [n % 128 + 128] + PutUvarint(n / 128)
  }

  /** `binary.ReadUvarint` with `i` bytes already read. */
  function GetUvarint(data: seq<Byte>, i: nat): (r: Parsed<int>)
    requires i <= MAX_VARINT_LEN
    ensures r.Ok? ==> 0 <= r.value
    decreases MAX_VARINT_LEN - i
  {
    if i == MAX_VARINT_LEN then Fail(Overflow)
    else if data == [] then Fail(if i > 0 then UnexpectedEOF else EOF)
    else if data[0] < 128 then
      if i == MAX_VARINT_LEN - 1 && data[0] > 1 then Fail(Overflow) else Ok(data[0], data[1..])
    else Scale(data[0] - 128, 128, GetUvarint(data[1..], i + 1))
  }

  function Scale(low: int, weight: int, high: Parsed<int>): Parsed<int> {
    if high.Fail? then high else Ok(low + weight * high.value, high.rest)
  }

  /** The numbers whose encoding fits in the bytes left: 2 to the power 64 - 7 i. */
  function Bound(i: nat): (n: nat)
    requires i < MAX_VARINT_LEN
    ensures n >= 2
    decreases MAX_VARINT_LEN - i
  {
    if i == MAX_VARINT_LEN - 1 then 2 else 128 * Bound(i + 1)
  }

  lemma {:induction false} UvarintRoundTrip(n: nat, i: nat, tail: seq<Byte>)
    requires i < MAX_VARINT_LEN && n < Bound(i)
    ensures GetUvarint(PutUvarint(n) + tail, i) == Ok(n, tail)
    decreases MAX_VARINT_LEN - i
  {
    var data := PutUvarint(n) + tail;
    if n < 128 {
      assert data[1..] == tail;
    } else {
      assert data[1..] == PutUvarint(n / 128) + tail;
      UvarintRoundTrip(n / 128, i + 1, tail);
    }
  }

  /** A varint that is read never exceeds 64 bits. */
  lemma {:induction false} UvarintFits(data: seq<Byte>, i: nat)
    requires i < MAX_VARINT_LEN && GetUvarint(data, i).Ok?
    ensures GetUvarint(data, i).value < Bound(i)
    decreases MAX_VARINT_LEN - i
  {
    if data[0] >= 128 {
      UvarintFits(data[1..], i + 1);
    }
  }

  lemma {:induction false} UvarintCut(n: nat, i: nat, k: nat)
    requires i < MAX_VARINT_LEN && n < Bound(i) && k < |PutUvarint(n)|
    ensures GetUvarint(PutUvarint(n)[..k], i).Fail?
    decreases MAX_VARINT_LEN - i
  {
    if k > 0 {
      assert PutUvarint(n)[..k][1..] == PutUvarint(n / 128)[..k - 1];
      UvarintCut(n / 128, i + 1, k - 1);
    }
  }

  lemma {:induction false} BoundIs64Bits()
    ensures Bound(0) == TWO_64
  {
    assert Bound(8) == 128 * Bound(9) && Bound(7) == 128 * Bound(8) && Bound(6) == 128 * Bound(7);
    assert Bound(5) == 128 * Bound(6) && Bound(4) == 128 * Bound(5) && Bound(3) == 128 * Bound(4);
    assert Bound(2) == 128 * Bound(3) && Bound(1) == 128 * Bound(2) && Bound(0) == 128 * Bound(1);
  }

  // ------------------------------------------------------------ 64-bit big-endian integers

  function PutBigEndian(u: nat, k: nat): (b: seq<Byte>)
    ensures |b| == k
  {
    if k == 0 then [] else PutBigEndian(u / 256, k - 1) + [u % 256]
  }

  function GetBigEndian(b: seq<Byte>): nat {
    if b == [] then 0 else GetBigEndian(b[..|b| - 1]) * 256 + b[|b| - 1]
  }

  function Power256(k: nat): nat { if k == 0 then 1 else 256 * Power256(k - 1) }

  lemma {:induction false} BigEndianRoundTrip(u: nat, k: nat)
    requires u < Power256(k)
    ensures GetBigEndian(PutBigEndian(u, k)) == u
  {
    if k > 0 {
      var front := PutBigEndian(u / 256, k - 1);
      assert (front + [u % 256])[..k - 1] == front;
      BigEndianRoundTrip(u / 256, k - 1);
    }
  }

  function PutInt64(x: int): seq<Byte> { PutBigEndian(x % TWO_64, 8) }

  function GetInt64(data: seq<Byte>): Parsed<int> {
    if |data| < 8 then Fail(if data == [] then EOF else UnexpectedEOF)
    else
      var u := GetBigEndian(data[..8]);
      Ok(if u < TWO_63 then u else u - TWO_64, data[8..])
  }

  lemma {:induction false} Int64RoundTrip(x: int, tail: seq<Byte>)
    requires -TWO_63 <= x < TWO_63
    ensures GetInt64(PutInt64(x) + tail) == Ok(x, tail)
  {
    assert Power256(8) == TWO_64 by {
      assert Power256(4) == 0x1_0000_0000;
      assert Power256(6) == 0x1_0000_0000_0000;
    }
    BigEndianRoundTrip(x % TWO_64, 8);
    var data := PutInt64(x) + tail;
    assert data[..8] == PutInt64(x) && data[8..] == tail;
    assert x % TWO_64 == if x < 0 then x + TWO_64 else x;
  }

  // ------------------------------------------------------------------------ records

  function PutBlock(b: seq<Byte>): seq<Byte> { PutUvarint(|b|) + b }

  function GetBlock(data: seq<Byte>): Parsed<seq<Byte>> {
    var length := GetUvarint(data, 0);
    if length.Fail? then Fail(length.error)
    else if length.value > |length.rest| then Fail(InvalidLength(length.value))
    else Ok(length.rest[..length.value], length.rest[length.value..])
  }

  /** The fields every version has. */
  function EncodeBase(version: Byte, s: Saved): seq<Byte> {
    [version] + PutBlock(s.content) + PutInt64(s.updated / SECOND) + PutBlock(s.etag)
  }

  function Encode(s: Saved): seq<Byte> { EncodeBase(VERSION, s) + PutBlock(s.urlHash) }

  /** The receiver after decoding: fields are assigned as they are read, so a failure keeps the earlier ones. */
  function Decode(s: Saved, data: seq<Byte>): (Saved, Option<Error>) {
    if data == [] then (s, Some(EOF))
    else
      var content := GetBlock(data[1..]);
      if content.Fail? then (s, Some(content.error))
      else DecodeTime(s.(content := content.value), data[0], content.rest)
  }

  function DecodeTime(s: Saved, version: Byte, data: seq<Byte>): (Saved, Option<Error>) {
    var seconds := GetInt64(data);
    if seconds.Fail? then (s, Some(seconds.error))
    else DecodeEtag(s.(updated := seconds.value * SECOND), version, seconds.rest)
  }

  function DecodeEtag(s: Saved, version: Byte, data: seq<Byte>): (Saved, Option<Error>) {
    var etag := GetBlock(data);
    if etag.Fail? then (s, Some(etag.error))
    else if version < 2 then (s.(etag := etag.value), None)
    else DecodeHash(s.(etag := etag.value), etag.rest)
  }

  function DecodeHash(s: Saved, data: seq<Byte>): (Saved, Option<Error>) {
    var hash := GetBlock(data);
    if hash.Fail? then (s, Some(hash.error)) else (s.(urlHash := hash.value), None)
  }

  lemma {:induction false} BlockRoundTrip(b: seq<Byte>, tail: seq<Byte>)
    requires |b| < TWO_64
    ensures GetBlock(PutBlock(b) + tail) == Ok(b, tail)
  {
    BoundIs64Bits();
    UvarintRoundTrip(|b|, 0, b + tail);
    assert PutBlock(b) + tail == PutUvarint(|b|) + (b + tail);
    assert (b + tail)[..|b|] == b && (b + tail)[|b|..] == tail;
  }

  /** Decoding the fields every version has, whatever follows them. */
  lemma {:induction false} BaseRoundTrip(version: Byte, s: Saved, target: Saved, tail: seq<Byte>)
    requires s.Representable()
    ensures Decode(target, EncodeBase(version, s) + tail) ==
      if version < 2 then (s.Truncated().(urlHash := target.urlHash), None)
      else DecodeHash(s.Truncated().(urlHash := target.urlHash), tail)
  {
    var seconds := s.updated / SECOND;
    var afterTime := PutBlock(s.etag) + tail;
    var afterContent := PutInt64(seconds) + afterTime;
    var data := EncodeBase(version, s) + tail;
    assert data[0] == version && data[1..] == PutBlock(s.content) + afterContent;
    BlockRoundTrip(s.content, afterContent);
    Int64RoundTrip(seconds, afterTime);
    BlockRoundTrip(s.etag, tail);
    assert s.Truncated().updated == seconds * SECOND;
  }

  /** Decoding an encoding gives back every field, with the time truncated to seconds; trailing bytes are ignored. */
  lemma {:induction false} RoundTrip(s: Saved, target: Saved, tail: seq<Byte>)
    requires s.Representable()
    ensures Decode(target, Encode(s) + tail) == (s.Truncated(), None)
  {
    assert Encode(s) + tail == EncodeBase(VERSION, s) + (PutBlock(s.urlHash) + tail);
    BaseRoundTrip(VERSION, s, target, PutBlock(s.urlHash) + tail);
    BlockRoundTrip(s.urlHash, tail);
  }

  /** A payload of an earlier version gives the same three fields and leaves the URL hash alone. */
  lemma {:induction false} EarlierVersion(version: Byte, s: Saved, target: Saved, tail: seq<Byte>)
    requires s.Representable() && version < 2
    ensures Decode(target, EncodeBase(version, s) + tail) == (s.Truncated().(urlHash := target.urlHash), None)
  {
    BaseRoundTrip(version, s, target, tail);
  }

  /** Two records encode alike exactly when they differ in nothing but fractions of a second. */
  lemma {:induction false} EncodeInjective(a: Saved, b: Saved)
    requires a.Representable() && b.Representable()
    ensures Encode(a) == Encode(b) <==> a.Truncated() == b.Truncated()
  {
    if Encode(a) == Encode(b) {
      RoundTrip(a, a, []);
      RoundTrip(b, a, []);
    } else {
      assert a.updated / SECOND * SECOND == b.updated / SECOND * SECOND ==> a.updated / SECOND == b.updated / SECOND;
    }
  }

  /** However decoding ends, an error means the URL hash was not touched. */
  lemma {:induction false} FailureKeepsHash(s: Saved, data: seq<Byte>)
    ensures Decode(s, data).1.Some? ==> Decode(s, data).0.urlHash == s.urlHash
  {
  }

  // --------------------------------------------------------------- truncated payloads

  lemma {:induction false} BlockCut(b: seq<Byte>, k: nat)
    requires |b| < TWO_64 && k < |PutBlock(b)|
    ensures GetBlock(PutBlock(b)[..k]).Fail?
  {
    BoundIs64Bits();
    var n := |PutUvarint(|b|)|;
    if k < n {
      assert PutBlock(b)[..k] == PutUvarint(|b|)[..k];
      UvarintCut(|b|, 0, k);
    } else {
      assert PutBlock(b)[..k] == PutUvarint(|b|) + b[..k - n];
      UvarintRoundTrip(|b|, 0, b[..k - n]);
    }
  }

  lemma {:induction false} HashCut(s: Saved, b: seq<Byte>, k: nat)
    requires |b| < TWO_64 && k < |PutBlock(b)|
    ensures DecodeHash(s, PutBlock(b)[..k]).1.Some?
  {
    BlockCut(b, k);
  }

  lemma {:induction false} EtagCut(s: Saved, etag: seq<Byte>, b: seq<Byte>, k: nat)
    requires |etag| < TWO_64 && |b| < TWO_64 && k < |PutBlock(etag) + PutBlock(b)|
    ensures DecodeEtag(s, VERSION, (PutBlock(etag) + PutBlock(b))[..k]).1.Some?
  {
    var n := |PutBlock(etag)|;
    var data := (PutBlock(etag) + PutBlock(b))[..k];
    if k < n {
      assert data == PutBlock(etag)[..k];
      BlockCut(etag, k);
    } else {
      assert data == PutBlock(etag) + PutBlock(b)[..k - n];
      BlockRoundTrip(etag, PutBlock(b)[..k - n]);
      HashCut(s.(etag := etag), b, k - n);
    }
  }

  lemma {:induction false} TimeCut(s: Saved, seconds: int, etag: seq<Byte>, b: seq<Byte>, k: nat)
    requires -TWO_63 <= seconds < TWO_63 && |etag| < TWO_64 && |b| < TWO_64
    requires k < |PutInt64(seconds) + (PutBlock(etag) + PutBlock(b))|
    ensures DecodeTime(s, VERSION, (PutInt64(seconds) + (PutBlock(etag) + PutBlock(b)))[..k]).1.Some?
  {
    var rest := PutBlock(etag) + PutBlock(b);
    var data := (PutInt64(seconds) + rest)[..k];
    if k >= 8 {
      assert data == PutInt64(seconds) + rest[..k - 8];
      Int64RoundTrip(seconds, rest[..k - 8]);
      EtagCut(s.(updated := seconds * SECOND), etag, b, k - 8);
    }
  }

  /** No encoding cut short decodes: every proper prefix is an error. */
  lemma {:induction false} TruncationIsDetected(s: Saved, target: Saved, k: nat)
    requires s.Representable() && k < |Encode(s)|
    ensures Decode(target, Encode(s)[..k]).1.Some?
  {
    var seconds := s.updated / SECOND;
    var rest := PutInt64(seconds) + (PutBlock(s.etag) + PutBlock(s.urlHash));
    assert Encode(s) == [VERSION] + (PutBlock(s.content) + rest);
    ContentCut(target, s.content, seconds, s.etag, s.urlHash, k);
  }

  lemma {:induction false} CutAfter(v: Byte, a: seq<Byte>, b: seq<Byte>, k: nat)
    requires 0 < k <= 1 + |a| + |b|
    ensures
      var data := ([v] + (a + b))[..k];
      data[0] == v && data[1..] == if k - 1 < |a| then a[..k - 1] else a + b[..k - 1 - |a|]
  {
  }

  lemma {:induction false} ContentCut(target: Saved, content: seq<Byte>, seconds: int, etag: seq<Byte>, b: seq<Byte>,
                                      k: nat)
    requires |content| < TWO_64 && -TWO_63 <= seconds < TWO_63 && |etag| < TWO_64 && |b| < TWO_64
    requires k < |[VERSION] + (PutBlock(content) + (PutInt64(seconds) + (PutBlock(etag) + PutBlock(b))))|
    ensures
      var whole := [VERSION] + (PutBlock(content) + (PutInt64(seconds) + (PutBlock(etag) + PutBlock(b))));
      Decode(target, whole[..k]).1.Some?
  {
    var rest := PutInt64(seconds) + (PutBlock(etag) + PutBlock(b));
    var n := |PutBlock(content)|;
    if k > 0 {
      CutAfter(VERSION, PutBlock(content), rest, k);
    }
    if 0 < k <= n {
      BlockCut(content, k - 1);
    } else if k > n {
      BlockRoundTrip(content, rest[..k - 1 - n]);
      TimeCut(target.(content := content), seconds, etag, b, k - 1 - n);
    }
  }

  // -------------------------------------------------------------- the code, step by step

  /** A `bytes.Reader`: the bytes not yet read. */
  class Reader {
    var rest: seq<Byte>

    constructor (data: seq<Byte>)
      ensures rest == data
    {
      rest := data;
    }

    method ReadUvarint() returns (n: int, e: Option<Error>)
      modifies this
      ensures match GetUvarint(old(rest), 0)
        case Ok(value, left) => e == None && n == value && rest == left
        case Fail(error) => e == Some(error)
    {
      n := 0;
      var weight: int := 1;
      ghost var whole := GetUvarint(rest, 0);
      assert Scale(0, 1, whole) == whole;
      for i := 0 to MAX_VARINT_LEN
        invariant whole == Scale(n, weight, GetUvarint(rest, i))
      {
        if rest == [] {
          return n, Some(if i > 0 then UnexpectedEOF else EOF);
        }
        var b: int := rest[0];
        UvarintLoop(whole, n, weight, rest, i);
        rest := rest[1..];
        if b < 128 {
          if i == MAX_VARINT_LEN - 1 && b > 1 {
            return n, Some(Overflow);
          }
          return n + weight * b, None;
        }
        n := n + weight * (b - 128);
        weight := weight * 128;
      }
      return n, Some(Overflow);
    }

    /** A length, checked against what is left, and that many bytes. */
    method ReadBlock() returns (b: seq<Byte>, e: Option<Error>)
      modifies this
      ensures match GetBlock(old(rest))
        case Ok(value, left) => e == None && b == value && rest == left
        case Fail(error) => e == Some(error)
    {
      b := [];
      var length;
      length, e := ReadUvarint();
      if e.Some? {
        return;
      }
      if length > |rest| {
        return b, Some(InvalidLength(length));
      }
      b := rest[..length];
      rest := rest[length..];
    }

    method ReadInt64() returns (x: int, e: Option<Error>)
      modifies this
      ensures match GetInt64(old(rest))
        case Ok(value, left) => e == None && x == value && rest == left
        case Fail(error) => e == Some(error)
    {
      if |rest| < 8 {
        return 0, Some(if rest == [] then EOF else UnexpectedEOF);
      }
      var u: nat := 0;
      for i := 0 to 8
        invariant u == GetBigEndian(rest[..i])
      {
        assert rest[..i + 1][..i] == rest[..i];
        u := u * 256 + rest[i];
      }
      rest := rest[8..];
      return if u < TWO_63 then u else u - TWO_64, None;
    }
  }

  lemma {:induction false} ScaleTwice(low: int, weight: int, digit: int, high: Parsed<int>)
    ensures Scale(low, weight, Scale(digit, 128, high)) == Scale(low + weight * digit, weight * 128, high)
  {
    if high.Ok? {
      calc {
        low + weight * (digit + 128 * high.value);
        low + weight * digit + weight * (128 * high.value);
        low + weight * digit + weight * 128 * high.value;
      }
    }
  }

  /** One byte of the loop of `ReadUvarint`: what is left to read is scaled by what was read. */
  lemma {:induction false} UvarintLoop(whole: Parsed<int>, n: int, weight: int, data: seq<Byte>, i: nat)
    requires i < MAX_VARINT_LEN && data != [] && whole == Scale(n, weight, GetUvarint(data, i))
    ensures data[0] >= 128 ==> whole == Scale(n + weight * (data[0] - 128), weight * 128, GetUvarint(data[1..], i + 1))
    ensures data[0] < 128 ==>
      whole == if i == MAX_VARINT_LEN - 1 && data[0] > 1 then Fail(Overflow) else Ok(n + weight * data[0], data[1..])
  {
    if data[0] >= 128 {
      ScaleTwice(n, weight, data[0] - 128, GetUvarint(data[1..], i + 1));
    }
  }

  class Record {
    var content: seq<Byte>
    var updated: int
    var etag: seq<Byte>
    var urlHash: seq<Byte>

    function Value(): Saved
      reads this
    {
      Saved(content, updated, etag, urlHash)
    }

    method MarshalBinary() returns (buffer: seq<Byte>)
      ensures buffer == Encode(Value())
    {
      buffer := [VERSION];
      var length := WriteUvarint(|content|);
      buffer := buffer + length;
      buffer := buffer + content;
      buffer := buffer + PutInt64(updated / SECOND);
      length := WriteUvarint(|etag|);
      buffer := buffer + length;
      buffer := buffer + etag;
      length := WriteUvarint(|urlHash|);
      buffer := buffer + length;
      buffer := buffer + urlHash;
      MarshalSteps(Value());
    }

    method UnmarshalBinary(data: seq<Byte>) returns (e: Option<Error>)
      modifies this
      ensures (Value(), e) == Decode(old(Value()), data)
    {
      var reader := new Reader(data);
      if reader.rest == [] {
        return Some(EOF);
      }
      var version := reader.rest[0];
      reader.rest := reader.rest[1..];
      var block, seconds;
      block, e := reader.ReadBlock();
      if e.Some? {
        return;
      }
      content := block;
      seconds, e := reader.ReadInt64();
      if e.Some? {
        return;
      }
      updated := seconds * SECOND;
      block, e := reader.ReadBlock();
      if e.Some? {
        return;
      }
      etag := block;
      if version < 2 {
        return None;
      }
      block, e := reader.ReadBlock();
      if e.Some? {
        return;
      }
      urlHash := block;
    }
  }

  /** `varbin.WriteUvarint`. */
  method WriteUvarint(n: nat) returns (b: seq<Byte>)
    ensures b == PutUvarint(n)
  {
    b := [];
    var left := n;
    while left >= 128
      invariant b + PutUvarint(left) == PutUvarint(n)
    {
      assert PutUvarint(left) == [left % 128 + 128] + PutUvarint(left / 128);
      b := b + [left % 128 + 128];
      left := left / 128;
    }
    b := b + [left];
  }

  lemma {:induction false} MarshalSteps(s: Saved)
    ensures Encode(s) == [VERSION] + PutUvarint(|s.content|) + s.content + PutInt64(s.updated / SECOND)
      + PutUvarint(|s.etag|) + s.etag + PutUvarint(|s.urlHash|) + s.urlHash
  {
  }
}
