/** `signingBytes`: the byte string an agent signs. */
module Signing {

  type Byte = b: int | 0 <= b < 256
  type Uint64 = n: int | 0 <= n < 0x1_0000_0000_0000_0000

  predicate FitsInt64(n: int) {
    -0x8000_0000_0000_0000 <= n < 0x8000_0000_0000_0000
  }

  /** The signed header fields. `sentAt` is in nanoseconds since the Unix epoch. */
  datatype Header = Header(version: int, feeder: seq<Byte>, sequence: Uint64, sentAt: int)

  /** `UnixMilli`, which rounds towards the past. */
  function UnixMilli(t: int): int {
    t / 1_000_000
  }

  /** `binary.BigEndian.AppendUint…` for a field of `width` bytes. */
  function BigEndian(width: nat, v: nat): (r: seq<Byte>)
    ensures |r| == width
  {
    if width == 0 then [] else BigEndian(width - 1, v / 256) + [v % 256]
  }

  function FromBigEndian(b: seq<Byte>): nat {
    if b == [] then 0 else FromBigEndian(b[..|b| - 1]) * 256 + b[|b| - 1]
  }

  function Pow256(n: nat): nat {
    if n == 0 then 1 else 256 * Pow256(n - 1)
  }

  lemma {:induction false} BigEndianRoundTrip(width: nat, v: nat)
    requires v < Pow256(width)
    ensures FromBigEndian(BigEndian(width, v)) == v
  {
    if width > 0 {
      BigEndianRoundTrip(width - 1, v / 256);
      var r := BigEndian(width, v);
      assert r[..|r| - 1] == BigEndian(width - 1, v / 256);
    }
  }

  lemma BigEndianInjective(width: nat, a: nat, b: nat)
    requires a < Pow256(width) && b < Pow256(width) && BigEndian(width, a) == BigEndian(width, b)
    ensures a == b
  {
    BigEndianRoundTrip(width, a);
    BigEndianRoundTrip(width, b);
  }

  lemma Widths()
    ensures Pow256(2) == 0x1_0000 && Pow256(8) == 0x1_0000_0000_0000_0000
  {
    assert Pow256(3) == 256 * Pow256(2);
    assert Pow256(4) == 256 * Pow256(3);
    assert Pow256(5) == 256 * Pow256(4);
    assert Pow256(6) == 256 * Pow256(5);
    assert Pow256(7) == 256 * Pow256(6);
  }

  /** Conversion to an unsigned field wraps, as Go's `uint16` and `uint64` conversions do. */
  function SignedBytes(h: Header, hash: seq<Byte>): seq<Byte> {
    BigEndian(2, h.version % 0x1_0000) + [|h.feeder| % 256] + h.feeder
    + BigEndian(8, h.sequence) + BigEndian(8, UnixMilli(h.sentAt) % 0x1_0000_0000_0000_0000) + hash
  }

  method SigningBytes(h: Header, hash: seq<Byte>) returns (result: seq<Byte>)
    ensures result == SignedBytes(h, hash)
  {
    result := [];
    result := result + BigEndian(2, h.version % 0x1_0000);
    result := result + [|h.feeder| % 256];
    result := result + h.feeder;
    result := result + BigEndian(8, h.sequence);
    result := result + BigEndian(8, UnixMilli(h.sentAt) % 0x1_0000_0000_0000_0000);
    result := result + hash;
  }

  /** Same signed content: the fields agree up to what the encoding keeps of them. */
  predicate SameContent(a: Header, ha: seq<Byte>, b: Header, hb: seq<Byte>) {
    && a.version % 0x1_0000 == b.version % 0x1_0000
    && a.feeder == b.feeder
    && a.sequence == b.sequence
    && UnixMilli(a.sentAt) == UnixMilli(b.sentAt)
    && ha == hb
  }

  /** Equal signed bytes mean equal content, for feeder IDs of any length: every other field has
      a fixed width, so the total length alone fixes the split points. */
  lemma SignedBytesInjective(a: Header, ha: seq<Byte>, b: Header, hb: seq<Byte>)
    requires |ha| == |hb| == 32
    requires FitsInt64(UnixMilli(a.sentAt)) && FitsInt64(UnixMilli(b.sentAt))
    ensures SignedBytes(a, ha) == SignedBytes(b, hb) <==> SameContent(a, ha, b, hb)
  {
    if SignedBytes(a, ha) == SignedBytes(b, hb) {
      var s := SignedBytes(a, ha);
      var n := |a.feeder|;
      assert |s| == 2 + 1 + n + 8 + 8 + 32;
      assert |b.feeder| == n;
      Split(s, a, ha);
      Split(s, b, hb);
      Widths();
      BigEndianInjective(2, a.version % 0x1_0000, b.version % 0x1_0000);
      BigEndianInjective(8, a.sequence, b.sequence);
      BigEndianInjective(8, UnixMilli(a.sentAt) % 0x1_0000_0000_0000_0000,
                         UnixMilli(b.sentAt) % 0x1_0000_0000_0000_0000);
    }
  }

  lemma Split(s: seq<Byte>, h: Header, hash: seq<Byte>)
    requires s == SignedBytes(h, hash)
    ensures var n := |h.feeder|;
            && |s| >= n + 19
            && s[..2] == BigEndian(2, h.version % 0x1_0000)
            && s[3..3 + n] == h.feeder
            && s[3 + n..11 + n] == BigEndian(8, h.sequence)
            && s[11 + n..19 + n] == BigEndian(8, UnixMilli(h.sentAt) % 0x1_0000_0000_0000_0000)
            && s[19 + n..] == hash
  {
  }
}
