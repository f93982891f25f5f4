/** IP addresses and prefixes as the DNS client sees them (Go's `netip`). */
module Netip {
  import opened Scalars

  /** `NoAddr` is the zero address; the other two carry 4 and 16 bytes. */
  datatype Addr = NoAddr | V4(bytes: seq<Byte>) | V6(bytes: seq<Byte>) {
    predicate WellFormed() {
      match this
      case NoAddr => true
      case V4(b) => |b| == 4
      case V6(b) => |b| == 16
    }

    /** An IPv6 address of the form ::ffff:a.b.c.d. */
    predicate Is4In6() {
      V6? && |bytes| == 16 && (forall i :: 0 <= i < 10 ==> bytes[i] == 0) && bytes[10] == 255 && bytes[11] == 255
    }

    function Unmap(): Addr {
      if Is4In6() then V4(bytes[12..]) else this
    }

    function BitLen(): nat {
      match this
      case NoAddr => 0
      case V4(_) => 32
      case V6(_) => 128
    }
  }

  /** `bits` is -1 in an invalid prefix; the zero prefix is `NoPrefix`. */
  datatype Prefix = Prefix(addr: Addr, bits: int) {
    predicate IsValid() { bits >= 0 }

    /** What `netip` guarantees of every prefix it builds. */
    predicate WellFormed() {
      addr.WellFormed() && -1 <= bits <= addr.BitLen() && (addr.NoAddr? ==> bits == -1)
    }
  }

  const NO_PREFIX := Prefix(NoAddr, -1)

  function PrefixFrom(addr: Addr, bits: int): (p: Prefix)
    ensures addr.WellFormed() ==> p.WellFormed()
  {
    if !addr.NoAddr? && 0 <= bits <= addr.BitLen() then Prefix(addr, bits) else Prefix(addr, -1)
  }

  function AddrFromSlice(bytes: seq<Byte>): (a: Addr)
    ensures a.WellFormed()
  {
    if |bytes| == 4 then V4(bytes) else if |bytes| == 16 then V6(bytes) else NoAddr
  }
}
