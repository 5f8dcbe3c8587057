// What goes over the wire, byte by byte, and what each opcode does: the format of RFC 6455,
// sections 5.2 to 5.5, in literal bytes, and the examples of its section 5.7.
module Wire {
  import opened Basics
  import opened Frames
  import opened Endpoint
  import opened WebSocket

  // ------------------------------------------------------------- one frame

  function MaskBitOf(f: Frame): byte {
    if f.mask.Key? then 0x80 else 0x00
  }

  lemma FieldOf(f: Frame)
    ensures Byte1(N0(f), !f.mask.NoMask?) == (N0(f) as byte) | MaskBitOf(f)
    ensures f.form.Medium? ==> N0(f) == 126
    ensures f.form.Long? ==> N0(f) == 127
    ensures f.form.Short? && |f.payload| < 126 ==> N0(f) == |f.payload|
  {
  }

  // The bytes after the first two, up to the key: none, or the length most significant first.
  lemma LengthOnTheWire(f: Frame)
    requires f.form.Short? ==> |f.payload| < 126
    ensures f.form.Short? ==> ToBytes(|f.payload|, ExtSize(N0(f))) == []
    ensures f.form.Medium? ==> ToBytes(|f.payload|, ExtSize(N0(f))) == [(|f.payload| / 0x100 % 256) as byte, (|f.payload| % 256) as byte]
    ensures f.form.Long? ==> var n := |f.payload|;
      ToBytes(n, ExtSize(N0(f))) == [
        (n / 0x100_0000_0000_0000 % 256) as byte, (n / 0x1_0000_0000_0000 % 256) as byte,
        (n / 0x100_0000_0000 % 256) as byte, (n / 0x1_0000_0000 % 256) as byte,
        (n / 0x100_0000 % 256) as byte, (n / 0x1_0000 % 256) as byte, (n / 0x100 % 256) as byte, (n % 256) as byte]
  {
    FieldOf(f);
    match f.form {
      case Short =>
      case Medium => TwoBytes(|f.payload|);
      case Long => EightBytes(|f.payload|);
    }
  }

  // A frame is its first byte, the 7-bit length or 126 or 127 with the mask bit, the longer
  // length of LengthOnTheWire, the key, and the payload of PayloadOnTheWire.
  lemma FrameOnTheWire(f: Frame)
    requires f.form.Short? ==> |f.payload| < 126
    ensures var bit: byte := if f.mask.Key? then 0x80 else 0x00;
      var field: byte := match f.form case Short => |f.payload| as byte case Medium => 126 case Long => 127;
      var key := if f.mask.Key? then [f.mask.k0, f.mask.k1, f.mask.k2, f.mask.k3] else [];
      Encode(f) == [f.b0, field | bit] + ToBytes(|f.payload|, ExtSize(N0(f))) + key + Masked(f.payload, f.mask)
  {
    FieldOf(f);
  }

  lemma PayloadOnTheWire(p: seq<byte>, mask: Mask)
    ensures forall i :: 0 <= i < |p| ==>
      Masked(p, mask)[i] == if mask.Key? then p[i] ^ [mask.k0, mask.k1, mask.k2, mask.k3][i % 4] else p[i]
  {
    if mask.NoMask? {
      NoMaskIsIdentity(p);
    } else {
      forall i | 0 <= i < |p| ensures Masked(p, mask)[i] == p[i] ^ [mask.k0, mask.k1, mask.k2, mask.k3][i % 4] {
        MaskedAt(p, mask, i);
      }
    }
  }

  // What send, sendBinary and sendPing put on the wire.
  lemma SentOnTheWire(message: seq<byte>, useMask: bool)
    ensures OutFrame(OpcodeOf(Message(false, message)), message, useMask).b0 == 0x81
    ensures OutFrame(OpcodeOf(Message(true, message)), message, useMask).b0 == 0x82
    ensures OutFrame(PING, message, useMask).b0 == 0x89 && OutFrame(PONG, message, useMask).b0 == 0x8a
    ensures forall opcode {:trigger OutFrame(opcode, message, useMask)} :: var f := OutFrame(opcode, message, useMask);
      && f.payload == message && f.mask == (if useMask then Key(0x12, 0x34, 0x56, 0x78) else NoMask)
      && (f.form.Short? <==> |message| < 126) && (f.form.Long? <==> |message| > 65535)
  {
  }

  // ------------------------------------------------------- what opcodes do

  // CONTINUATION, text and binary.
  lemma DataIsCollected(s: Socket, f: Frame)
    requires f.b0 & 0x0f == 0x0 || f.b0 & 0x0f == 0x1 || f.b0 & 0x0f == 0x2
    ensures f.b0 & 0x80 != 0 ==> Handle(s, f) == Outcome(s.(receivedData := []), [s.receivedData + f.payload])
    ensures f.b0 & 0x80 == 0 ==> Handle(s, f) == Outcome(s.(receivedData := s.receivedData + f.payload), [])
  {
    var b0 := f.b0;
    assert b0 & 0x80 == 0x80 || b0 & 0x80 == 0;
  }

  // A ping, 9, is answered by a pong, 10, with the same payload; a pong by nothing.
  lemma PingIsAnswered(s: Socket, f: Frame)
    requires f.b0 & 0x0f == 0x9 && s.readyState.OPEN?
    ensures var h := Handle(s, f);
      h.calls == [] && exists pong: Frame ::
        && pong.b0 == 0x8a && pong.payload == f.payload && pong.mask.Key? == s.useMask
        && h.socket == s.(txbuf := s.txbuf + Encode(pong), queued := s.queued + [pong])
  {
    SentOnTheWire(f.payload, s.useMask);
    var pong := OutFrame(PONG, f.payload, s.useMask);
    assert Handle(s, f).socket == s.(txbuf := s.txbuf + Encode(pong), queued := s.queued + [pong]);
  }

  lemma PongIsIgnored(s: Socket, f: Frame)
    requires f.b0 & 0x0f == 0xa || (f.b0 & 0x0f == 0x9 && !s.readyState.OPEN?)
    ensures Handle(s, f) == Outcome(s, [])
  {
  }

  // A close, 8, and every opcode the standard leaves open are answered by one close frame.
  lemma CloseIsAnswered(s: Socket, f: Frame)
    requires f.b0 & 0x0f == 0x8 || 0x3 <= f.b0 & 0x0f <= 0x7 || f.b0 & 0x0f > 0xa
    ensures s.readyState.OPEN? ==>
      var h := Handle(s, f);
      && h.calls == [] && h.socket.queued == s.queued + [CLOSE_FRAME]
      && h.socket == s.(readyState := CLOSING, txbuf := s.txbuf + [0x88, 0x80, 0, 0, 0, 0], queued := h.socket.queued)
    ensures !s.readyState.OPEN? ==> Handle(s, f) == Outcome(s, [])
  {
    RealWebSocket.CloseBytes();
  }

  // ------------------------------------------- the examples of section 5.7

  const HELLO: seq<byte> := [0x48, 0x65, 0x6c, 0x6c, 0x6f]

  // Feeding one whole frame to a new socket is handling it.
  lemma FeedOne(useMask: bool, f: Frame)
    requires Valid(f)
    ensures Feed(Fresh(useMask), Encode(f)) == Handle(Fresh(useMask), f)
  {
    var s := Extend(Fresh(useMask), Encode(f));
    assert [f][1..] == [] && EncodeAll([f]) == Encode(f) + [];
    assert s.rxbuf == EncodeAll([f]) + [];
    DispatchFrames(s, [f], []);
    assert s.(rxbuf := []) == Fresh(useMask);
    var h := Handle(Fresh(useMask), f);
    assert HandleAll(Fresh(useMask), [f]) == Outcome(h.socket, h.calls + []);
    assert h.calls + [] == h.calls;
  }

  lemma Collected(useMask: bool, f: Frame)
    requires f.b0 == 0x81 || f.b0 == 0x82
    ensures Handle(Fresh(useMask), f) == Outcome(Fresh(useMask), [f.payload])
  {
    assert (0x81 as byte) & 0x0f == 0x1 && (0x82 as byte) & 0x0f == 0x2 && (0x81 as byte) & 0x80 != 0 && (0x82 as byte) & 0x80 != 0;
    DataIsCollected(Fresh(useMask), f);
    assert [] + f.payload == f.payload;
    assert Fresh(useMask).(receivedData := []) == Fresh(useMask);
  }

  lemma PlainBytes(b0: byte, n: byte, p: seq<byte>)
    requires n < 126 && |p| == n as nat
    ensures Encode(Frame(b0, Short, NoMask, p)) == [b0, n] + p
  {
    var f := Frame(b0, Short, NoMask, p);
    FrameOnTheWire(f);
    LengthOnTheWire(f);
    NatAndBack(n);
    assert n | 0x00 == n;
    NoMaskIsIdentity(p);
  }

  lemma UnmaskedText(useMask: bool)
    ensures Feed(Fresh(useMask), [0x81, 0x05, 0x48, 0x65, 0x6c, 0x6c, 0x6f]) == Outcome(Fresh(useMask), [HELLO])
  {
    var f := Frame(0x81, Short, NoMask, HELLO);
    PlainBytes(0x81, 5, HELLO);
    assert [0x81, 0x05] + HELLO == [0x81, 0x05, 0x48, 0x65, 0x6c, 0x6c, 0x6f];
    FeedOne(useMask, f);
    Collected(useMask, f);
  }

  lemma MaskedHello()
    ensures Masked(HELLO, Key(0x37, 0xfa, 0x21, 0x3d)) == [0x7f, 0x9f, 0x4d, 0x51, 0x58]
  {
    var key := Key(0x37, 0xfa, 0x21, 0x3d);
    PayloadOnTheWire(HELLO, key);
    assert (0x48 as byte) ^ 0x37 == 0x7f && (0x65 as byte) ^ 0xfa == 0x9f && (0x6c as byte) ^ 0x21 == 0x4d;
    assert (0x6c as byte) ^ 0x3d == 0x51 && (0x6f as byte) ^ 0x37 == 0x58;
  }

  lemma KeyedBytes(b0: byte, key: Mask, p: seq<byte>)
    requires |p| == 5 && key.Key?
    ensures Encode(Frame(b0, Short, key, p)) == [b0, 0x85, key.k0, key.k1, key.k2, key.k3] + Masked(p, key)
  {
    FrameOnTheWire(Frame(b0, Short, key, p));
    LengthOnTheWire(Frame(b0, Short, key, p));
    assert (5 as byte) | 0x80 == 0x85;
  }

  lemma MaskedText(useMask: bool)
    ensures Feed(Fresh(useMask), [0x81, 0x85, 0x37, 0xfa, 0x21, 0x3d, 0x7f, 0x9f, 0x4d, 0x51, 0x58]) ==
      Outcome(Fresh(useMask), [HELLO])
  {
    var f := Frame(0x81, Short, Key(0x37, 0xfa, 0x21, 0x3d), HELLO);
    MaskedHello();
    KeyedBytes(0x81, f.mask, HELLO);
    assert Encode(f) == [0x81, 0x85, 0x37, 0xfa, 0x21, 0x3d, 0x7f, 0x9f, 0x4d, 0x51, 0x58];
    FeedOne(useMask, f);
    Collected(useMask, f);
  }

  lemma FragmentedText(useMask: bool)
    ensures FeedAll(Fresh(useMask), [[0x01, 0x03, 0x48, 0x65, 0x6c], [0x80, 0x02, 0x6c, 0x6f]]) ==
      Outcome(Fresh(useMask), [HELLO])
  {
    var f, g := Frame(0x01, Short, NoMask, [0x48, 0x65, 0x6c]), Frame(0x80, Short, NoMask, [0x6c, 0x6f]);
    var chunks: seq<seq<byte>> := [[0x01, 0x03, 0x48, 0x65, 0x6c], [0x80, 0x02, 0x6c, 0x6f]];
    PlainBytes(0x01, 3, f.payload);
    PlainBytes(0x80, 2, g.payload);
    assert [0x01, 0x03] + f.payload == chunks[0] && [0x80, 0x02] + g.payload == chunks[1];
    assert chunks[1..][1..] == [] && [f, g][1..] == [g] && [g][1..] == [];
    TwoAndTwo(chunks[0], chunks[1], f, g);
    assert chunks == [chunks[0], chunks[1]];
    assert Fin(0x80) && !Fin(0x01) && Opcode(0x80) == 0 && Opcode(0x01) == 1;
    FragmentedRoundTrip(Fresh(useMask), [f, g], chunks);
    assert f.payload + (g.payload + []) == HELLO;
    assert Payloads([g]) == g.payload + [] && Payloads([f, g]) == f.payload + Payloads([g]);
    assert Pongs([g], useMask) == [] + [] && Pongs([f, g], useMask) == [] + [];
    assert Fresh(useMask).txbuf + [] == [] && Fresh(useMask).queued + [] == [];
  }

  lemma TwoAndTwo(a: seq<byte>, b: seq<byte>, f: Frame, g: Frame)
    ensures Flatten([a, b]) == a + b
    ensures EncodeAll([f, g]) == Encode(f) + Encode(g)
  {
    assert [a, b][1..] == [b] && [b][1..] == [] && Flatten([b]) == b + [] == b;
    assert [f, g][1..] == [g] && [g][1..] == [] && EncodeAll([g]) == Encode(g) + [] == Encode(g);
  }

  // A ping of "Hello", and what an unmasked and a masked socket answer.
  lemma PingHello()
    ensures Feed(Fresh(false), [0x89, 0x05, 0x48, 0x65, 0x6c, 0x6c, 0x6f]).socket.txbuf ==
      [0x8a, 0x05, 0x48, 0x65, 0x6c, 0x6c, 0x6f]
    ensures Feed(Fresh(true), [0x89, 0x05, 0x48, 0x65, 0x6c, 0x6c, 0x6f]).socket.txbuf ==
      [0x8a, 0x85, 0x12, 0x34, 0x56, 0x78, 0x5a, 0x51, 0x3a, 0x14, 0x7d]
  {
    var f := Frame(0x89, Short, NoMask, HELLO);
    PlainBytes(0x89, 5, HELLO);
    assert [0x89, 0x05] + HELLO == [0x89, 0x05, 0x48, 0x65, 0x6c, 0x6c, 0x6f];
    FeedOne(false, f);
    FeedOne(true, f);
    PlainBytes(0x8a, 5, HELLO);
    assert [0x8a, 0x05] + HELLO == [0x8a, 0x05, 0x48, 0x65, 0x6c, 0x6c, 0x6f];
    MaskedPong();
    SentOnTheWire(HELLO, false);
    SentOnTheWire(HELLO, true);
    PingEffect(false, f);
    PingEffect(true, f);
  }

  lemma PingEffect(useMask: bool, f: Frame)
    requires f.b0 & 0x0f == 0x9
    ensures Handle(Fresh(useMask), f).socket.txbuf == Encode(OutFrame(PONG, f.payload, useMask))
  {
  }

  lemma MaskedPong()
    ensures Encode(Frame(0x8a, Short, Key(0x12, 0x34, 0x56, 0x78), HELLO)) ==
      [0x8a, 0x85, 0x12, 0x34, 0x56, 0x78, 0x5a, 0x51, 0x3a, 0x14, 0x7d]
  {
    var key := Key(0x12, 0x34, 0x56, 0x78);
    KeyedBytes(0x8a, key, HELLO);
    PayloadOnTheWire(HELLO, key);
    assert (0x48 as byte) ^ 0x12 == 0x5a && (0x65 as byte) ^ 0x34 == 0x51 && (0x6c as byte) ^ 0x56 == 0x3a;
    assert (0x6c as byte) ^ 0x78 == 0x14 && (0x6f as byte) ^ 0x12 == 0x7d;
  }

  // 256 bytes, and 64 KiB, of binary data in one unmasked frame.
  lemma MediumBinary(useMask: bool, p: seq<byte>)
    requires |p| == 256
    ensures Feed(Fresh(useMask), [0x82, 0x7e, 0x01, 0x00] + p) == Outcome(Fresh(useMask), [p])
  {
    var f := Frame(0x82, Medium, NoMask, p);
    FrameOnTheWire(f);
    LengthOnTheWire(f);
    NoMaskIsIdentity(p);
    assert Encode(f) == [0x82, 0x7e, 0x01, 0x00] + p;
    FeedOne(useMask, f);
    Collected(useMask, f);
  }

  lemma LongBinary(useMask: bool, p: seq<byte>)
    requires |p| == 65536
    ensures Feed(Fresh(useMask), [0x82, 0x7f, 0x00, 0x00, 0x00, 0x00, 0x00, 0x01, 0x00, 0x00] + p) == Outcome(Fresh(useMask), [p])
  {
    var f := Frame(0x82, Long, NoMask, p);
    FrameOnTheWire(f);
    LengthOnTheWire(f);
    NoMaskIsIdentity(p);
    assert Encode(f) == [0x82, 0x7f, 0x00, 0x00, 0x00, 0x00, 0x00, 0x01, 0x00, 0x00] + p;
    FeedOne(useMask, f);
    Collected(useMask, f);
  }
}
