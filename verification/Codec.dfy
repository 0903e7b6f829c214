/**
 * The network byte order of SocketOps.h (Appendix B of RFC 791: the most
 * significant octet goes first) and the signed integers that Buffer stores in it.
 */
module Codec {
  import opened Basics

  /** `int8_t`, `int16_t` and `int32_t`: the three widths Buffer has functions for. */
  datatype Kind = Int8 | Int16 | Int32 {
    function Width(): (w: nat)
      ensures 1 <= w <= 4
    {
      match this
      case Int8 => 1
      case Int16 => 2
      case Int32 => 4
    }

    predicate Holds(x: int) {
      -(Power256(Width()) / 2) <= x < Power256(Width()) / 2
    }
  }

  function Power256(n: nat): (p: nat)
    ensures 0 < p && (0 < n ==> p % 2 == 0)
  {
    if n == 0 then 1 else 256 * Power256(n - 1)
  }

  /** An unsigned number laid out in `n` octets, most significant first. */
  function BigEndian(u: nat, n: nat): (s: seq<byte>)
    ensures |s| == n
  {
    if n == 0 then [] else BigEndian(u / 256, n - 1) + [u % 256]
  }

  function FromBigEndian(s: seq<byte>): (u: nat)
    ensures u < Power256(|s|)
  {
    if s == [] then 0 else 256 * FromBigEndian(s[..|s| - 1]) + s[|s| - 1]
  }

  lemma {:induction false} UnsignedRoundTrip(u: nat, n: nat)
    requires u < Power256(n)
    ensures FromBigEndian(BigEndian(u, n)) == u
  {
    if n > 0 {
      UnsignedRoundTrip(u / 256, n - 1);
      assert BigEndian(u, n)[..n - 1] == BigEndian(u / 256, n - 1);
    }
  }

  lemma {:induction false} OctetsRoundTrip(s: seq<byte>)
    ensures BigEndian(FromBigEndian(s), |s|) == s
  {
    if s != [] {
      var init, last := s[..|s| - 1], s[|s| - 1];
      OctetsRoundTrip(init);
      LastOctet(FromBigEndian(init), last, |s|);
      assert s == init + [last];
    }
  }

  lemma LastOctet(u: nat, last: byte, n: nat)
    requires 0 < n
    ensures BigEndian(256 * u + last, n) == BigEndian(u, n - 1) + [last]
  {
    QuotientIs(256 * u + last, 256, u, last);
  }

  /** The ranges of the three types. */
  lemma HoldsIsRange(k: Kind, x: int)
    ensures k.Holds(x) <==>
            match k
            case Int8 => -0x80 <= x <= 0x7f
            case Int16 => -0x8000 <= x <= 0x7fff
            case Int32 => -0x8000_0000 <= x <= 0x7fff_ffff
  {
    assert Power256(4) == 256 * 256 * 256 * 256;
    assert Power256(2) == 256 * 256 && Power256(1) == 256;
  }

  /** Two's complement. */
  function Unsigned(k: Kind, x: int): (u: nat)
    requires k.Holds(x)
    ensures u < Power256(k.Width())
  {
    if x < 0 then x + Power256(k.Width()) else x
  }

  /** hostToNetwork, then memcpy: two's complement first, then the octets in network order. */
  function Encode(k: Kind, x: int): (s: seq<byte>)
    requires k.Holds(x)
    ensures |s| == k.Width()
  {
    BigEndian(Unsigned(k, x), k.Width())
  }

  lemma {:induction false} BigEndianAt(u: nat, n: nat, i: nat)
    requires i < n
    ensures BigEndian(u, n)[i] == (u / Power256(n - 1 - i)) % 256
  {
    if i < n - 1 {
      BigEndianAt(u / 256, n - 1, i);
      DivideTwice(u, Power256(n - 2 - i));
    }
  }

  /** Network order, octet by octet: the i-th has the weight of the powers that the octets behind it leave. */
  lemma OctetIsDigit(k: Kind, x: int)
    requires k.Holds(x)
    ensures forall i | 0 <= i < k.Width() :: Encode(k, x)[i] == (Unsigned(k, x) / Power256(k.Width() - 1 - i)) % 256
  {
    forall i | 0 <= i < k.Width()
      ensures Encode(k, x)[i] == (Unsigned(k, x) / Power256(k.Width() - 1 - i)) % 256
    {
      BigEndianAt(Unsigned(k, x), k.Width(), i);
    }
  }

  /** For one. */
  lemma NetworkOrder()
    ensures Int32.Holds(0x01020304) && Encode(Int32, 0x01020304) == [1, 2, 3, 4]
    ensures Int16.Holds(-2) && Encode(Int16, -2) == [0xff, 0xfe]
  {
    HoldsIsRange(Int32, 0x01020304);
    HoldsIsRange(Int16, -2);
    assert BigEndian(0x01020304, 4) == BigEndian(0x010203, 3) + [4];
    assert BigEndian(0x010203, 3) == BigEndian(0x0102, 2) + [3];
    assert BigEndian(0x0102, 2) == BigEndian(1, 1) + [2];
    assert Power256(2) == 0x10000;
    assert BigEndian(0xfffe, 2) == BigEndian(0xff, 1) + [0xfe];
  }

  /** memcpy, networkToHost, then the conversion to the signed type. */
  function Decode(k: Kind, s: seq<byte>): (x: int)
    requires |s| == k.Width()
    ensures k.Holds(x)
  {
    var u := FromBigEndian(s);
    if u < Power256(k.Width()) / 2 then u else u - Power256(k.Width())
  }

  /** The two directions together: the octets of a width and its signed values are in bijection. */
  lemma SignedRoundTrip(k: Kind, x: int)
    requires k.Holds(x)
    ensures Decode(k, Encode(k, x)) == x
  {
    UnsignedRoundTrip(Unsigned(k, x), k.Width());
  }

  lemma EncodedOctetsRoundTrip(k: Kind, s: seq<byte>)
    requires |s| == k.Width()
    ensures Encode(k, Decode(k, s)) == s
  {
    OctetsRoundTrip(s);
  }

  /** The first octet on the wire carries the sign, which a little-endian layout would put last. */
  lemma SignTravelsFirst(k: Kind, x: int)
    requires k.Holds(x)
    ensures x < 0 <==> Encode(k, x)[0] >= 128
  {
    var n := k.Width();
    var u := Unsigned(k, x);
    LeadingOctet(u, n);
    UpperHalf(u, Power256(n - 1));
  }

  lemma UpperHalf(u: nat, p: nat)
    requires 0 < p
    ensures 128 <= u / p <==> 128 * p <= u
  {
    var q, r := u / p, u % p;
    assert u == p * q + r;
    Monotone(p, q + 1, 128);
    Monotone(p, 128, q);
  }

  lemma {:induction false} LeadingOctet(u: nat, n: nat)
    requires 0 < n && u < Power256(n)
    ensures BigEndian(u, n)[0] == u / Power256(n - 1)
  {
    if n > 1 {
      LeadingOctet(u / 256, n - 1);
      DivideTwice(u, Power256(n - 2));
    }
  }

  lemma DivideTwice(u: nat, p: nat)
    requires 0 < p
    ensures (u / 256) / p == u / (256 * p)
  {
    var q := (u / 256) / p;
    var r := (u / 256) % p;
    assert u / 256 == q * p + r;
    assert u == q * (256 * p) + (256 * r + u % 256);
    assert 0 <= 256 * r + u % 256 < 256 * p;
    QuotientIs(u, 256 * p, q, 256 * r + u % 256);
  }
}
