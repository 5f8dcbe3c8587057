// The WebSocket frame format (RFC 6455, sections 5.2 and 5.3) as easywsclient.cpp writes
// and reads it: the bytes of a frame, and the parser for the start of a byte stream.
module Frames {

  type byte = bv8

  // The three ways to write the payload length.
  datatype Form = Short | Medium | Long

  datatype Mask = NoMask | Key(k0: byte, k1: byte, k2: byte, k3: byte)

  // b0 holds FIN, the reserved bits and the opcode; payload is unmasked.
  datatype Frame = Frame(b0: byte, form: Form, mask: Mask, payload: seq<byte>)

  const TWO_63: nat := 0x8000_0000_0000_0000
  const TWO_64: nat := 0x1_0000_0000_0000_0000

  predicate Fin(b0: byte) {
    b0 & 0x80 == 0x80
  }

  function Opcode(b0: byte): byte {
    b0 & 0x0f
  }

  // ------------------------------------------------------------- big-endian

  function Pow256(k: nat): nat {
    if k == 0 then 1 else 256 * Pow256(k - 1)
  }

  // The k low-order bytes of n, most significant first.
  function ToBytes(n: nat, k: nat): (r: seq<byte>)
    ensures |r| == k
  {
    if k == 0 then [] else ToBytes(n / 256, k - 1) + [(n % 256) as byte]
  }

  function FromBytes(s: seq<byte>): nat {
    if s == [] then 0 else 256 * FromBytes(s[..|s| - 1]) + s[|s| - 1] as nat
  }

  lemma NextByte(b: byte)
    requires b != 255
    ensures (b + 1) as nat == b as nat + 1
  {
  }

  lemma {:induction false} ByteExists(x: nat) returns (b: byte)
    requires x < 256
    ensures b as nat == x
  {
    if x == 0 {
      b := 0;
    } else {
      var c := ByteExists(x - 1);
      NextByte(c);
      b := c + 1;
    }
  }

  lemma NatAndBack(b: byte)
    ensures (b as nat) as byte == b
  {
  }

  lemma ByteOfNat(x: nat)
    requires x < 256
    ensures (x as byte) as nat == x
  {
    var b := ByteExists(x);
    NatAndBack(b);
  }

  lemma {:induction false} BytesRoundTrip(n: nat, k: nat)
    requires n < Pow256(k)
    ensures FromBytes(ToBytes(n, k)) == n
  {
    if k > 0 {
      var s := ToBytes(n, k);
      BytesRoundTrip(n / 256, k - 1);
      assert s[..k - 1] == ToBytes(n / 256, k - 1);
      ByteOfNat(n % 256);
      assert s[k - 1] == (n % 256) as byte;
      assert FromBytes(s) == 256 * (n / 256) + n % 256;
    }
  }

  lemma {:induction false} NumberRoundTrip(s: seq<byte>)
    ensures ToBytes(FromBytes(s), |s|) == s
    ensures FromBytes(s) < Pow256(|s|)
  {
    if s == [] {
    } else {
      var n := FromBytes(s);
      NumberRoundTrip(s[..|s| - 1]);
      assert n / 256 == FromBytes(s[..|s| - 1]) && n % 256 == s[|s| - 1] as nat;
      assert s == s[..|s| - 1] + [s[|s| - 1]];
    }
  }

  lemma Powers()
    ensures Pow256(2) == 0x1_0000 && Pow256(8) == TWO_64
  {
    assert Pow256(1) == 256 && Pow256(2) == 0x1_0000 && Pow256(3) == 0x100_0000 && Pow256(4) == 0x1_0000_0000;
    assert Pow256(5) == 0x100_0000_0000 && Pow256(6) == 0x1_0000_0000_0000 && Pow256(7) == 0x100_0000_0000_0000;
  }

  // ----------------------------------------------------------------- masking

  // The masking byte for payload position i; an unmasked frame is masked with zeros.
  function KeyByte(mask: Mask, i: nat): byte {
    if mask.NoMask? then 0
    else if i % 4 == 0 then mask.k0 else if i % 4 == 1 then mask.k1 else if i % 4 == 2 then mask.k2 else mask.k3
  }

  function Masked(p: seq<byte>, mask: Mask): (r: seq<byte>)
    ensures |r| == |p|
  {
    seq(|p|, i requires 0 <= i < |p| => p[i] ^ KeyByte(mask, i))
  }

  // Position i is masked with byte i % 4 of the key, counted from the start of the payload.
  lemma MaskedAt(p: seq<byte>, key: Mask, i: nat)
    requires key.Key? && i < |p|
    ensures Masked(p, key)[i] == p[i] ^ [key.k0, key.k1, key.k2, key.k3][i % 4]
  {
    var k := i % 4;
    assert k == 0 || k == 1 || k == 2 || k == 3;
  }

  // A payload masked position by position.
  lemma MaskedIs(p: seq<byte>, q: seq<byte>, key: Mask)
    requires key.Key? && |q| == |p|
    requires forall i :: 0 <= i < |p| ==> q[i] == p[i] ^ [key.k0, key.k1, key.k2, key.k3][i % 4]
    ensures q == Masked(p, key)
  {
    forall i | 0 <= i < |p| ensures q[i] == Masked(p, key)[i] {
      MaskedAt(p, key, i);
    }
  }

  lemma XorTwice(a: byte, k: byte)
    ensures (a ^ k) ^ k == a
  {
  }

  // Masking twice with the same key gives the payload back.
  lemma MaskTwice(p: seq<byte>, mask: Mask)
    ensures Masked(Masked(p, mask), mask) == p
  {
    forall i | 0 <= i < |p| ensures Masked(Masked(p, mask), mask)[i] == p[i] {
      XorTwice(p[i], KeyByte(mask, i));
    }
  }

  lemma NoMaskIsIdentity(p: seq<byte>)
    ensures Masked(p, NoMask) == p
  {
    forall i | 0 <= i < |p| ensures p[i] ^ 0 == p[i] {
    }
  }

  function KeyBytes(mask: Mask): seq<byte> {
    if mask.NoMask? then [] else [mask.k0, mask.k1, mask.k2, mask.k3]
  }

  // ------------------------------------------------------------ one frame

  // The 7-bit length field and the bytes after it.
  function N0(f: Frame): nat {
    match f.form case Short => |f.payload| % 126 case Medium => 126 case Long => 127
  }

  function ExtSize(n0: nat): nat {
    if n0 == 126 then 2 else if n0 == 127 then 8 else 0
  }

  function Byte1(n0: nat, masked: bool): byte
    requires n0 < 128
  {
    (n0 as byte) | (if masked then 0x80 else 0)
  }

  function Header(f: Frame): seq<byte> {
    [f.b0, Byte1(N0(f), !f.mask.NoMask?)] + ToBytes(|f.payload|, ExtSize(N0(f))) + KeyBytes(f.mask)
  }

  function Encode(f: Frame): seq<byte> {
    Header(f) + Masked(f.payload, f.mask)
  }

  // The length fits its form; the top bit of a 64-bit length must be 0.
  predicate Valid(f: Frame) {
    match f.form
    case Short => |f.payload| < 126
    case Medium => |f.payload| < 0x1_0000
    case Long => |f.payload| < TWO_63
  }

  // ------------------------------------------------------------- the parser

  datatype Parsed = NeedMore | BadLength | Got(frame: Frame, size: nat)

  predicate MaskBit(b1: byte) {
    b1 & 0x80 == 0x80
  }

  function LengthBits(b1: byte): (n: nat)
    ensures n < 128
  {
    (b1 & 0x7f) as nat
  }

  // Where the masking key starts, and where the payload does.
  function KeyStart(n0: nat): nat {
    2 + ExtSize(n0)
  }

  function HeaderSize(n0: nat, masked: bool): nat {
    KeyStart(n0) + (if masked then 4 else 0)
  }

  function FormOf(n0: nat): Form {
    if n0 == 126 then Medium else if n0 == 127 then Long else Short
  }

  function PayloadLength(buf: seq<byte>, n0: nat): nat
    requires |buf| >= KeyStart(n0)
  {
    if n0 < 126 then n0 else FromBytes(buf[2..KeyStart(n0)])
  }

  function MaskOf(buf: seq<byte>, n0: nat, masked: bool): Mask
    requires |buf| >= HeaderSize(n0, masked)
  {
    var i := KeyStart(n0);
    if masked then Key(buf[i], buf[i + 1], buf[i + 2], buf[i + 3]) else NoMask
  }

  // The frame at the start of a buffer that holds all of it.
  function FrameAt(buf: seq<byte>, n0: nat, masked: bool, n: nat): Frame
    requires |buf| >= 2 && |buf| >= HeaderSize(n0, masked) + n
  {
    var hs := HeaderSize(n0, masked);
    Frame(buf[0], FormOf(n0), MaskOf(buf, n0, masked), Masked(buf[hs..hs + n], MaskOf(buf, n0, masked)))
  }

  // What the first bytes of a stream amount to, given the two fields of the second one.
  function ParseRest(buf: seq<byte>, n0: nat, masked: bool): (r: Parsed)
    requires |buf| >= 2
    ensures r.Got? ==> 0 < r.size <= |buf|
  {
    var hs := HeaderSize(n0, masked);
    if |buf| < hs then NeedMore
    else
      var n := PayloadLength(buf, n0);
      if n0 == 127 && n >= TWO_63 then BadLength
      else if |buf| < hs + n then NeedMore
      else Got(FrameAt(buf, n0, masked, n), hs + n)
  }

  function Parse(buf: seq<byte>): (r: Parsed)
    ensures r.Got? ==> 0 < r.size <= |buf|
  {
    if |buf| < 2 then NeedMore else ParseRest(buf, LengthBits(buf[1]), MaskBit(buf[1]))
  }

  lemma HeaderStable(buf: seq<byte>, more: seq<byte>, n0: nat, masked: bool)
    requires |buf| >= HeaderSize(n0, masked)
    ensures PayloadLength(buf + more, n0) == PayloadLength(buf, n0)
    ensures MaskOf(buf + more, n0, masked) == MaskOf(buf, n0, masked)
  {
    assert (buf + more)[2..KeyStart(n0)] == buf[2..KeyStart(n0)];
  }

  lemma FrameAtStable(buf: seq<byte>, more: seq<byte>, n0: nat, masked: bool, n: nat)
    requires |buf| >= 2 && |buf| >= HeaderSize(n0, masked) + n
    ensures FrameAt(buf + more, n0, masked, n) == FrameAt(buf, n0, masked, n)
  {
    var hs := HeaderSize(n0, masked);
    HeaderStable(buf, more, n0, masked);
    assert (buf + more)[hs..hs + n] == buf[hs..hs + n];
  }

  // A verdict other than "need more" stands, whatever follows.
  lemma ParseRestStable(buf: seq<byte>, more: seq<byte>, n0: nat, masked: bool)
    requires |buf| >= 2 && !ParseRest(buf, n0, masked).NeedMore?
    ensures ParseRest(buf + more, n0, masked) == ParseRest(buf, n0, masked)
  {
    var all := buf + more;
    HeaderStable(buf, more, n0, masked);
    if ParseRest(buf, n0, masked).Got? {
      FrameAtStable(buf, more, n0, masked, PayloadLength(buf, n0));
    }
  }

  lemma ParseStable(buf: seq<byte>, more: seq<byte>)
    requires !Parse(buf).NeedMore?
    ensures Parse(buf + more) == Parse(buf)
  {
    assert (buf + more)[1] == buf[1];
    ParseRestStable(buf, more, LengthBits(buf[1]), MaskBit(buf[1]));
  }

  lemma Byte1Bits(n0: nat, masked: bool)
    requires n0 < 128
    ensures LengthBits(Byte1(n0, masked)) == n0 && MaskBit(Byte1(n0, masked)) == masked
  {
    var b := n0 as byte;
    ByteOfNat(n0);
    assert b < 128;
    assert ((b | (if masked then 0x80 else 0)) & 0x7f) == b;
    assert ((b | (if masked then 0x80 else 0)) & 0x80 == 0x80) == masked;
  }

  lemma Byte1Whole(b1: byte)
    ensures Byte1(LengthBits(b1), MaskBit(b1)) == b1
  {
    assert (LengthBits(b1) as byte) == b1 & 0x7f;
    assert (b1 & 0x7f) | (if b1 & 0x80 == 0x80 then 0x80 else 0) == b1;
  }

  // The header fields, read off a buffer laid out as two bytes, extension, key, rest.
  lemma Layout(buf: seq<byte>, b0: byte, b1: byte, ext: seq<byte>, mask: Mask, rest: seq<byte>, n0: nat)
    requires buf == [b0, b1] + ext + KeyBytes(mask) + rest && |ext| == ExtSize(n0)
    ensures var hs := HeaderSize(n0, !mask.NoMask?);
      && |buf| == hs + |rest| && buf[0] == b0 && buf[1] == b1 && buf[hs..] == rest
      && buf[2..KeyStart(n0)] == ext && MaskOf(buf, n0, !mask.NoMask?) == mask
  {
    var key := KeyBytes(mask);
    if !mask.NoMask? {
      assert forall x :: 0 <= x < 4 ==> buf[KeyStart(n0) + x] == key[x];
    }
  }

  lemma EncodeLayout(f: Frame, rest: seq<byte>)
    ensures Encode(f) + rest ==
      [f.b0, Byte1(N0(f), !f.mask.NoMask?)] + ToBytes(|f.payload|, ExtSize(N0(f))) + KeyBytes(f.mask) + (Masked(f.payload, f.mask) + rest)
  {
  }

  lemma LengthRoundTrip(f: Frame)
    requires Valid(f) || (|f.payload| < TWO_64 && f.form.Long?)
    ensures var n0 := N0(f);
      && n0 < 128 && FormOf(n0) == f.form
      && |f.payload| == if n0 < 126 then n0 else FromBytes(ToBytes(|f.payload|, ExtSize(n0)))
  {
    Powers();
    if N0(f) >= 126 {
      BytesRoundTrip(|f.payload|, ExtSize(N0(f)));
    }
  }

  // Reading back a frame that was written, with anything after it.
  lemma ParseEncode(f: Frame, rest: seq<byte>)
    requires Valid(f)
    ensures Parse(Encode(f) + rest) == Got(f, |Encode(f)|)
  {
    var buf := Encode(f) + rest;
    var n0, masked, n := N0(f), !f.mask.NoMask?, |f.payload|;
    LengthRoundTrip(f);
    Byte1Bits(n0, masked);
    EncodeLayout(f, rest);
    Layout(buf, f.b0, Byte1(n0, masked), ToBytes(n, ExtSize(n0)), f.mask, Masked(f.payload, f.mask) + rest, n0);
    assert Parse(buf) == ParseRest(buf, n0, masked);
    ParseRestEncoded(buf, f, rest);
  }

  lemma ParseRestEncoded(buf: seq<byte>, f: Frame, rest: seq<byte>)
    requires Valid(f) && |buf| >= 2 && buf[0] == f.b0 && FormOf(N0(f)) == f.form
    requires |buf| >= HeaderSize(N0(f), !f.mask.NoMask?)
    requires MaskOf(buf, N0(f), !f.mask.NoMask?) == f.mask && PayloadLength(buf, N0(f)) == |f.payload|
    requires buf[HeaderSize(N0(f), !f.mask.NoMask?)..] == Masked(f.payload, f.mask) + rest
    ensures ParseRest(buf, N0(f), !f.mask.NoMask?) == Got(f, |Encode(f)|)
  {
    var hs, n := HeaderSize(N0(f), !f.mask.NoMask?), |f.payload|;
    assert buf[hs..hs + n] == buf[hs..][..n] == Masked(f.payload, f.mask);
    MaskTwice(f.payload, f.mask);
  }

  // The pieces of a buffer whose frame is complete.
  lemma Pieces(buf: seq<byte>, n0: nat, masked: bool, n: nat)
    requires |buf| >= 2 && |buf| >= HeaderSize(n0, masked) + n
    ensures var hs := HeaderSize(n0, masked);
      buf[..hs + n] == [buf[0], buf[1]] + buf[2..KeyStart(n0)] + KeyBytes(MaskOf(buf, n0, masked)) + buf[hs..hs + n]
  {
  }

  lemma PayloadBytes(buf: seq<byte>, n0: nat)
    requires n0 < 128 && |buf| >= KeyStart(n0)
    ensures ToBytes(PayloadLength(buf, n0), ExtSize(n0)) == buf[2..KeyStart(n0)]
    ensures n0 == 126 ==> PayloadLength(buf, n0) < 0x1_0000
    ensures n0 < 126 ==> PayloadLength(buf, n0) == n0
  {
    Powers();
    NumberRoundTrip(buf[2..KeyStart(n0)]);
  }

  lemma EncodeFrameAt(buf: seq<byte>, n0: nat, masked: bool, n: nat)
    requires n0 < 128 && |buf| >= 2 && |buf| >= HeaderSize(n0, masked) + n && buf[1] == Byte1(n0, masked)
    requires n0 < 126 ==> n == n0
    requires ToBytes(n, ExtSize(n0)) == buf[2..KeyStart(n0)]
    ensures Encode(FrameAt(buf, n0, masked, n)) == buf[..HeaderSize(n0, masked) + n]
  {
    var f, hs := FrameAt(buf, n0, masked, n), HeaderSize(n0, masked);
    Pieces(buf, n0, masked, n);
    MaskTwice(buf[hs..hs + n], f.mask);
    assert N0(f) == n0;
  }

  lemma EncodeParseRest(buf: seq<byte>, n0: nat, masked: bool)
    requires n0 < 128 && |buf| >= 2 && buf[1] == Byte1(n0, masked) && ParseRest(buf, n0, masked).Got?
    ensures var got := ParseRest(buf, n0, masked);
      Valid(got.frame) && buf[..got.size] == Encode(got.frame)
  {
    PayloadBytes(buf, n0);
    EncodeFrameAt(buf, n0, masked, PayloadLength(buf, n0));
  }

  // Whatever the parser accepts is exactly one written frame: nothing else is let through.
  lemma EncodeParse(buf: seq<byte>)
    requires Parse(buf).Got?
    ensures Valid(Parse(buf).frame)
    ensures buf[..Parse(buf).size] == Encode(Parse(buf).frame)
  {
    Byte1Whole(buf[1]);
    EncodeParseRest(buf, LengthBits(buf[1]), MaskBit(buf[1]));
  }

  // A length of 2^63 or more, written in the long form, is refused as soon as the header is in.
  lemma ParseOversized(f: Frame, rest: seq<byte>)
    requires f.form.Long? && TWO_63 <= |f.payload| < TWO_64
    ensures Parse(Encode(f) + rest) == BadLength
  {
    var buf, masked := Encode(f) + rest, !f.mask.NoMask?;
    LengthRoundTrip(f);
    Byte1Bits(127, masked);
    EncodeLayout(f, rest);
    Layout(buf, f.b0, Byte1(127, masked), ToBytes(|f.payload|, 8), f.mask, Masked(f.payload, f.mask) + rest, 127);
  }
}
