// _RealWebSocket: the buffers and loops of easywsclient.cpp. Every method does to the
// fields what the function of module Endpoint or Outgoing does to a Socket value.
module WebSocket {
  import opened Basics
  import opened Frames
  import opened Endpoint
  import opened Outgoing

  // The bytes of n as sendData shifts them out.
  lemma TwoBytes(n: nat)
    ensures ToBytes(n, 2) == [(n / 0x100 % 256) as byte, (n % 256) as byte]
  {
    assert ToBytes(n / 256, 1) == ToBytes(n / 256 / 256, 0) + [(n / 256 % 256) as byte];
  }

  lemma FourBytes(n: nat)
    ensures ToBytes(n, 4) ==
      [(n / 0x100_0000 % 256) as byte, (n / 0x1_0000 % 256) as byte, (n / 0x100 % 256) as byte, (n % 256) as byte]
  {
    TwoBytes(n / 0x1_0000);
    assert n / 0x1_0000 / 0x100 == n / 0x100_0000;
    BytesConcat(n, 2);
  }

  lemma EightBytes(n: nat)
    ensures ToBytes(n, 8) == [
      (n / 0x100_0000_0000_0000 % 256) as byte, (n / 0x1_0000_0000_0000 % 256) as byte,
      (n / 0x100_0000_0000 % 256) as byte, (n / 0x1_0000_0000 % 256) as byte,
      (n / 0x100_0000 % 256) as byte, (n / 0x1_0000 % 256) as byte,
      (n / 0x100 % 256) as byte, (n % 256) as byte]
  {
    var h := n / 0x1_0000_0000;
    FourBytes(n);
    FourBytes(h);
    FourMore(n);
    assert h / 0x100_0000 == n / 0x100_0000_0000_0000 && h / 0x1_0000 == n / 0x1_0000_0000_0000;
    assert h / 0x100 == n / 0x100_0000_0000;
  }

  // The upper half of the digits is the digits of the upper half.
  lemma BytesConcat(n: nat, k: nat)
    ensures ToBytes(n, k + 2) == ToBytes(n / 0x1_0000, k) + ToBytes(n, 2)
  {
    TwoBytes(n);
    assert ToBytes(n, k + 2) == ToBytes(n / 256, k + 1) + [(n % 256) as byte];
    assert ToBytes(n / 256, k + 1) == ToBytes(n / 256 / 256, k) + [(n / 256 % 256) as byte];
    assert n / 256 / 256 == n / 0x1_0000;
  }

  lemma FourMore(n: nat)
    ensures ToBytes(n, 8) == ToBytes(n / 0x1_0000_0000, 4) + ToBytes(n, 4)
  {
    BytesConcat(n, 6);
    BytesConcat(n / 0x1_0000, 4);
    BytesConcat(n, 2);
    assert n / 0x1_0000 / 0x1_0000 == n / 0x1_0000_0000;
    Reassociate(ToBytes(n / 0x1_0000_0000, 4), ToBytes(n / 0x1_0000, 2), ToBytes(n, 2));
  }

  lemma ReadPrefix(s: seq<byte>, k: nat)
    requires k < |s|
    ensures FromBytes(s[..k + 1]) == 256 * FromBytes(s[..k]) + s[k] as nat
  {
    assert s[..k + 1][..k] == s[..k];
  }

  lemma Read16(s: seq<byte>)
    requires |s| == 2
    ensures FromBytes(s) == s[0] as nat * 0x100 + s[1] as nat < 0x1_0000
  {
    ReadPrefix(s, 0);
    ReadPrefix(s, 1);
    assert s[..2] == s;
  }

  // v[k] is the value of the first k of the digits d, in base 256.
  predicate Digit(v: seq<nat>, d: seq<nat>, k: nat)
    requires k < |d| && |v| == |d| + 1
  {
    v[k + 1] == 256 * v[k] + d[k]
  }

  lemma Horner(v: seq<nat>, d: seq<nat>)
    requires |v| == 9 && |d| == 8 && v[0] == 0
    requires forall k {:trigger Digit(v, d, k)} :: 0 <= k < 8 ==> Digit(v, d, k)
    ensures v[8] == d[0] * 0x100_0000_0000_0000 + d[1] * 0x1_0000_0000_0000 + d[2] * 0x100_0000_0000
      + d[3] * 0x1_0000_0000 + d[4] * 0x100_0000 + d[5] * 0x1_0000 + d[6] * 0x100 + d[7]
  {
    assert Digit(v, d, 0) && Digit(v, d, 1) && Digit(v, d, 2) && Digit(v, d, 3);
    assert Digit(v, d, 4) && Digit(v, d, 5) && Digit(v, d, 6) && Digit(v, d, 7);
  }

  lemma Read64(s: seq<byte>)
    requires |s| == 8
    ensures FromBytes(s) ==
      s[0] as nat * 0x100_0000_0000_0000 + s[1] as nat * 0x1_0000_0000_0000 + s[2] as nat * 0x100_0000_0000
      + s[3] as nat * 0x1_0000_0000 + s[4] as nat * 0x100_0000 + s[5] as nat * 0x1_0000 + s[6] as nat * 0x100 + s[7] as nat
  {
    var v: seq<nat> := seq(9, k requires 0 <= k < 9 => FromBytes(s[..k]));
    var d: seq<nat> := seq(8, k requires 0 <= k < 8 => s[k] as nat);
    forall k | 0 <= k < 8 ensures Digit(v, d, k) {
      ReadPrefix(s, k);
    }
    Horner(v, d);
    assert s[..8] == s;
  }

  // ws.N, put together from the bytes of the extended length.
  function Length16(buf: seq<byte>): nat
    requires |buf| >= 4
  {
    buf[2] as nat * 0x100 + buf[3] as nat
  }

  function Length64(buf: seq<byte>): nat
    requires |buf| >= 10
  {
    buf[2] as nat * 0x100_0000_0000_0000 + buf[3] as nat * 0x1_0000_0000_0000 + buf[4] as nat * 0x100_0000_0000
    + buf[5] as nat * 0x1_0000_0000 + buf[6] as nat * 0x100_0000 + buf[7] as nat * 0x1_0000 + buf[8] as nat * 0x100 + buf[9] as nat
  }

  lemma Read64At(buf: seq<byte>)
    requires |buf| >= 10
    ensures FromBytes(buf[2..10]) == Length64(buf)
  {
    var e := buf[2..10];
    Read64(e);
    assert e[0] == buf[2] && e[1] == buf[3] && e[2] == buf[4] && e[3] == buf[5];
    assert e[4] == buf[6] && e[5] == buf[7] && e[6] == buf[8] && e[7] == buf[9];
  }

  lemma Read16At(buf: seq<byte>)
    requires |buf| >= 4
    ensures FromBytes(buf[2..4]) == Length16(buf) < 0x1_0000
  {
    var e := buf[2..4];
    Read16(e);
    assert e[0] == buf[2] && e[1] == buf[3];
  }

  lemma FrameAtFields(buf: seq<byte>, n0: nat, masked: bool, n: nat)
    requires |buf| >= 2 && |buf| >= HeaderSize(n0, masked) + n
    ensures FrameAt(buf, n0, masked, n).b0 == buf[0]
    ensures FrameAt(buf, n0, masked, n).payload ==
      Masked(buf[HeaderSize(n0, masked)..HeaderSize(n0, masked) + n], MaskOf(buf, n0, masked))
  {
  }

  // The socket after the frame at the head of rxbuf, if there is a whole one.
  function FirstHandled(s: Socket): Outcome
    requires Parse(s.rxbuf).Got?
  {
    Handle(s.(rxbuf := s.rxbuf[Parse(s.rxbuf).size..]), Parse(s.rxbuf).frame)
  }

  // One turn of the dispatch loop.
  lemma DispatchTurn(s: Socket)
    requires !s.isRxBad
    ensures Parse(s.rxbuf).NeedMore? ==> Dispatch(s) == Outcome(s, [])
    ensures Parse(s.rxbuf).BadLength? ==> Dispatch(s) == Outcome(Endpoint.Close(s.(isRxBad := true)), [])
    ensures Parse(s.rxbuf).Got? ==>
      && Dispatch(s).socket == Dispatch(FirstHandled(s).socket).socket
      && Dispatch(s).calls == FirstHandled(s).calls + Dispatch(FirstHandled(s).socket).calls
      && !FirstHandled(s).socket.isRxBad && |FirstHandled(s).socket.rxbuf| < |s.rxbuf|
  {
    if Parse(s.rxbuf).Got? {
      HandleRx(s.(rxbuf := s.rxbuf[Parse(s.rxbuf).size..]), Parse(s.rxbuf).frame, []);
    }
  }

  function MaskFlag(useMask: bool): byte {
    if useMask then 0x80 else 0
  }

  // The 7-bit length field for a payload of `size` bytes.
  function LengthCode(size: nat): (n0: nat)
    ensures n0 < 128
  {
    if size < 126 then size else if size < 65536 then 126 else 127
  }

  lemma LengthField(message: seq<byte>, opcode: byte, useMask: bool)
    ensures N0(OutFrame(opcode, message, useMask)) == LengthCode(|message|)
  {
  }

  // The header, field by field.
  lemma HeaderOf(f: Frame)
    ensures Header(f) == [f.b0] + ([Byte1(N0(f), !f.mask.NoMask?)] + ToBytes(|f.payload|, ExtSize(N0(f)))) + KeyBytes(f.mask)
  {
    SplitFirst(f.b0, Byte1(N0(f), !f.mask.NoMask?), ToBytes(|f.payload|, ExtSize(N0(f))));
  }

  lemma SplitFirst(a: byte, b: byte, rest: seq<byte>)
    ensures [a, b] + rest == [a] + ([b] + rest)
  {
  }

  lemma PingBytes(useMask: bool)
    ensures Encode(OutFrame(PING, [], useMask)) == if useMask then [0x89, 0x80, 0x12, 0x34, 0x56, 0x78] else [0x89, 0x00]
  {
    var mask := if useMask then FIXED_KEY else NoMask;
    assert Masked([], mask) == [] && ToBytes(0, 0) == [];
    assert LengthCode(0) == 0 && (0 as byte) == 0;
    HeaderOf(OutFrame(PING, [], useMask));
  }

  class RealWebSocket {
    var rxbuf: seq<byte>
    var txbuf: seq<byte>
    var receivedData: seq<byte>
    var readyState: ReadyState
    const useMask: bool
    var isRxBad: bool
    // Histories: frames put into txbuf, bytes taken out of it by the network.
    ghost var queued: seq<Frame>
    ghost var accepted: seq<byte>

    constructor (useMask: bool)
      ensures View() == Fresh(useMask)
    {
      rxbuf, txbuf, receivedData, readyState, isRxBad := [], [], [], OPEN, false;
      this.useMask := useMask;
      queued, accepted := [], [];
    }

    ghost function View(): Socket
      reads this
    {
      Socket(rxbuf, txbuf, receivedData, readyState, useMask, isRxBad, queued, accepted)
    }

    // Masks the last `size` bytes of txbuf in place: byte i with byte i % 4 of the key.
    method MaskTail(size: nat, key: seq<byte>)
      requires size <= |txbuf| && |key| == 4
      modifies this`txbuf
      ensures |txbuf| == |old(txbuf)| && txbuf[..|txbuf| - size] == old(txbuf)[..|txbuf| - size]
      ensures forall i :: 0 <= i < size ==>
        txbuf[|txbuf| - size..][i] == old(txbuf)[|txbuf| - size..][i] ^ key[i % 4]
    {
      var offset := |txbuf| - size;
      ghost var before := txbuf;
      var i := 0;
      while i != size
        invariant 0 <= i <= size && |txbuf| == |before|
        invariant forall x :: 0 <= x < offset || offset + i <= x < |txbuf| ==> txbuf[x] == before[x]
        invariant forall x :: offset <= x < offset + i ==> txbuf[x] == before[x] ^ key[(x - offset) % 4]
      {
        txbuf := txbuf[offset + i := txbuf[offset + i] ^ key[i % 4]];
        i := i + 1;
      }
    }

    // The same for `size` bytes of rxbuf from `start` on.
    method UnmaskPayload(start: nat, size: nat, key: seq<byte>)
      requires start + size <= |rxbuf| && |key| == 4
      modifies this`rxbuf
      ensures |rxbuf| == |old(rxbuf)| && rxbuf[start + size..] == old(rxbuf)[start + size..]
      ensures forall i :: 0 <= i < size ==>
        rxbuf[start..start + size][i] == old(rxbuf)[start..start + size][i] ^ key[i % 4]
    {
      ghost var before := rxbuf;
      var i := 0;
      while i != size
        invariant 0 <= i <= size && |rxbuf| == |before|
        invariant forall x :: start <= x < start + i ==> rxbuf[x] == before[x] ^ key[(x - start) % 4]
        invariant forall x :: start + i <= x < |rxbuf| ==> rxbuf[x] == before[x]
      {
        rxbuf := rxbuf[start + i := rxbuf[start + i] ^ key[i % 4]];
        i := i + 1;
      }
    }

    // The length part of the header, in the shortest of the three forms.
    method BuildLength(size: nat) returns (length: seq<byte>)
      requires size < TWO_64
      ensures length == [(LengthCode(size) as byte) | MaskFlag(useMask)] + ToBytes(size, ExtSize(LengthCode(size)))
    {
      var bit := MaskFlag(useMask);
      if size < 126 {
        length := [(size as byte) | bit];
      } else if size < 65536 {
        length := [126 | bit] + [(size / 0x100 % 256) as byte, (size % 256) as byte];
        TwoBytes(size);
      } else {
        length := [127 | bit] + [
          (size / 0x100_0000_0000_0000 % 256) as byte, (size / 0x1_0000_0000_0000 % 256) as byte,
          (size / 0x100_0000_0000 % 256) as byte, (size / 0x1_0000_0000 % 256) as byte,
          (size / 0x100_0000 % 256) as byte, (size / 0x1_0000 % 256) as byte,
          (size / 0x100 % 256) as byte, (size % 256) as byte];
        EightBytes(size);
      }
    }

    // The header of sendData.
    method BuildHeader(opcode: byte, message: seq<byte>) returns (header: seq<byte>)
      requires |message| < TWO_64
      ensures header == Header(OutFrame(opcode, message, useMask))
    {
      var length := BuildLength(|message|);
      var key: seq<byte> := if useMask then [0x12, 0x34, 0x56, 0x78] else [];
      LengthField(message, opcode, useMask);
      HeaderOf(OutFrame(opcode, message, useMask));
      header := [0x80 | opcode] + length + key;
    }

    method SendData(opcode: byte, message: seq<byte>)
      requires |message| < TWO_64
      modifies this
      ensures View() == Endpoint.SendData(old(View()), opcode, message)
    {
      if readyState.CLOSING? || readyState.CLOSED? {
        return;
      }
      ghost var f := OutFrame(opcode, message, useMask);
      var header := BuildHeader(opcode, message);
      txbuf := txbuf + header;
      ghost var before := txbuf;
      txbuf := txbuf + message;
      if useMask {
        MaskTail(|message|, [0x12, 0x34, 0x56, 0x78]);
        assert (before + message)[..|before|] == before && (before + message)[|before|..] == message;
        MaskedIs(message, txbuf[|before|..], FIXED_KEY);
        Resplit(txbuf, |before|);
      } else {
        NoMaskIsIdentity(message);
      }
      Reassociate(old(txbuf), header, Masked(message, f.mask));
      queued := queued + [f];
    }

    method SendMessage(m: Message)
      requires |m.bytes| < TWO_64
      modifies this
      ensures View() == Happen(old(View()), Send(m))
      ensures old(readyState).OPEN? ==>
        |old(txbuf)| < |txbuf| && txbuf[|old(txbuf)|] == if m.binary then 0x82 else 0x81
    {
      SendData(if m.binary then BINARY_FRAME else TEXT_FRAME, m.bytes);
    }

    method Ping()
      modifies this
      ensures View() == Happen(old(View()), SendPing)
      ensures old(readyState).OPEN? ==>
        txbuf == old(txbuf) + (if useMask then [0x89, 0x80, 0x12, 0x34, 0x56, 0x78] else [0x89, 0x00])
      ensures !old(readyState).OPEN? ==> txbuf == old(txbuf)
    {
      SendData(PING, []);
      PingBytes(useMask);
    }

    method Close()
      modifies this
      ensures View() == Endpoint.Close(old(View())) == Happen(old(View()), Shut)
      ensures old(readyState).OPEN? ==>
        readyState.CLOSING? && txbuf == old(txbuf) + [0x88, 0x80, 0x00, 0x00, 0x00, 0x00]
      ensures !old(readyState).OPEN? ==> readyState == old(readyState) && txbuf == old(txbuf)
    {
      if readyState.CLOSING? || readyState.CLOSED? {
        return;
      }
      readyState := CLOSING;
      txbuf := txbuf + [0x88, 0x80, 0x00, 0x00, 0x00, 0x00];
      CloseBytes();
      queued := queued + [CLOSE_FRAME];
    }

    static lemma CloseBytes()
      ensures Encode(CLOSE_FRAME) == [0x88, 0x80, 0x00, 0x00, 0x00, 0x00]
    {
      assert Masked([], CLOSE_FRAME.mask) == [];
      assert ToBytes(0, 0) == [];
    }

    method ReadLength(n0: nat) returns (i: nat, size: nat)
      requires n0 < 128 && |rxbuf| >= KeyStart(n0)
      ensures i == KeyStart(n0) && size == PayloadLength(rxbuf, n0)
      ensures n0 < 127 ==> size < 0x1_0000
    {
      if n0 < 126 {
        i, size := 2, n0;
      } else if n0 == 126 {
        i, size := 4, Length16(rxbuf);
        Read16At(rxbuf);
      } else {
        i, size := 10, Length64(rxbuf);
        Read64At(rxbuf);
      }
    }

    // The top of the dispatch loop: is there a whole frame, and where is its payload?
    method Peek() returns (verdict: Parsed, start: nat, size: nat, key: Mask)
      ensures verdict == Parse(rxbuf)
      ensures verdict.Got? ==>
        && |rxbuf| >= start + size == verdict.size && size < TWO_63
        && verdict.frame.b0 == rxbuf[0] && verdict.frame.payload == Masked(rxbuf[start..start + size], key)
    {
      if |rxbuf| < 2 {
        return NeedMore, 0, 0, NoMask;
      }
      var masked, n0 := MaskBit(rxbuf[1]), LengthBits(rxbuf[1]);
      verdict, start, size, key := Locate(n0, masked);
    }

    method Locate(n0: nat, masked: bool) returns (verdict: Parsed, start: nat, size: nat, key: Mask)
      requires n0 < 128 && |rxbuf| >= 2
      ensures verdict == ParseRest(rxbuf, n0, masked)
      ensures verdict.Got? ==>
        && |rxbuf| >= start + size == verdict.size && size < TWO_63
        && verdict.frame.b0 == rxbuf[0] && verdict.frame.payload == Masked(rxbuf[start..start + size], key)
    {
      key := NoMask;
      start := 2 + (if n0 == 126 then 2 else 0) + (if n0 == 127 then 8 else 0) + (if masked then 4 else 0);
      if |rxbuf| < start {
        return NeedMore, start, 0, key;
      }
      var i;
      i, size := ReadLength(n0);
      if n0 == 127 && size >= TWO_63 {
        return BadLength, start, size, key;
      }
      if masked {
        key := Key(rxbuf[i], rxbuf[i + 1], rxbuf[i + 2], rxbuf[i + 3]);
      }
      if |rxbuf| < start + size {
        return NeedMore, start, size, key;
      }
      FrameAtFields(rxbuf, n0, masked, size);
      verdict := Got(FrameAt(rxbuf, n0, masked, size), start + size);
    }

    // The body of the dispatch loop, for a frame f that is complete in rxbuf.
    method Consume(ghost f: Frame, b0: byte, start: nat, size: nat, key: Mask) returns (calls: seq<seq<byte>>)
      requires start + size <= |rxbuf| && size < TWO_63 && f.b0 == b0
      requires f.payload == Masked(rxbuf[start..start + size], key)
      modifies this
      ensures var one := Handle(old(View()).(rxbuf := old(rxbuf)[start + size..]), f);
        View() == one.socket && calls == one.calls
    {
      ghost var s0 := View();
      var opcode := Opcode(b0);
      calls := [];
      if !key.NoMask? && (opcode == TEXT_FRAME || opcode == BINARY_FRAME || opcode == CONTINUATION || opcode == PING) {
        ghost var masked := rxbuf[start..start + size];
        UnmaskPayload(start, size, [key.k0, key.k1, key.k2, key.k3]);
        MaskedIs(masked, rxbuf[start..start + size], key);
      } else {
        NoMaskIsIdentity(rxbuf[start..start + size]);
      }
      ghost var tail := rxbuf[start + size..];
      ghost var s1 := View();
      assert s1 == s0.(rxbuf := rxbuf);
      HandleRx(s1, f, tail);
      if opcode == TEXT_FRAME || opcode == BINARY_FRAME || opcode == CONTINUATION {
        receivedData := receivedData + rxbuf[start..start + size];
        if Fin(b0) {
          calls := [receivedData];
          receivedData := [];
        }
      } else if opcode == PING {
        SendData(PONG, rxbuf[start..start + size]);
      } else if opcode == PONG {
      } else {
        Close();
      }
      assert View() == Handle(s1, f).socket;
      rxbuf := rxbuf[start + size..];
    }

    // _dispatchBinary; calls lists the messages handed to the callback, in order.
    method DispatchBinary() returns (calls: seq<seq<byte>>)
      modifies this
      ensures View() == Dispatch(old(View())).socket && calls == Dispatch(old(View())).calls
    {
      calls := [];
      if isRxBad {
        return;
      }
      ghost var target := Dispatch(View());
      while true
        invariant !isRxBad
        invariant Dispatch(View()).socket == target.socket && calls + Dispatch(View()).calls == target.calls
        decreases |rxbuf|
      {
        var done, more := DispatchOne();
        if done {
          assert calls + [] == calls;
          return;
        }
        Reassociate(calls, more, Dispatch(View()).calls);
        calls := calls + more;
      }
    }

    // One turn of the loop: nothing left to do, or one frame consumed.
    method DispatchOne() returns (done: bool, calls: seq<seq<byte>>)
      requires !isRxBad
      modifies this
      ensures done ==> View() == Dispatch(old(View())).socket && Dispatch(old(View())).calls == calls == []
      ensures !done ==>
        && !isRxBad && |rxbuf| < |old(rxbuf)|
        && Dispatch(View()).socket == Dispatch(old(View())).socket
        && calls + Dispatch(View()).calls == Dispatch(old(View())).calls
    {
      DispatchTurn(View());
      var verdict, start, size, key := Peek();
      if verdict.NeedMore? {
        return true, [];
      }
      if verdict.BadLength? {
        isRxBad := true;
        Close();
        return true, [];
      }
      ghost var next := FirstHandled(View());
      calls := Consume(verdict.frame, rxbuf[0], start, size, key);
      assert View() == next.socket && calls == next.calls;
      done := false;
    }

    method ReceiveBytes(rs: seq<Received>)
      modifies this
      ensures View() == ReceiveLoop(old(View()), rs)
    {
      var k := 0;
      assert rs[0..] == rs;
      while k < |rs|
        invariant 0 <= k <= |rs|
        invariant ReceiveLoop(View(), rs[k..]) == ReceiveLoop(old(View()), rs)
      {
        assert rs[k..][0] == rs[k] && rs[k..][1..] == rs[k + 1..];
        match rs[k] {
          case NothingYet => return;
          case Lost =>
            readyState := CLOSED;
            return;
          case Bytes(data) => rxbuf := rxbuf + data;
        }
        k := k + 1;
      }
    }

    method SendBytes(ss: seq<Sent>)
      modifies this
      ensures View() == SendLoop(old(View()), ss)
    {
      var k := 0;
      assert ss[0..] == ss;
      while txbuf != [] && k < |ss|
        invariant 0 <= k <= |ss|
        invariant SendLoop(View(), ss[k..]) == SendLoop(old(View()), ss)
        decreases |ss| - k
      {
        assert ss[k..][0] == ss[k] && ss[k..][1..] == ss[k + 1..];
        match ss[k] {
          case WouldBlock => return;
          case Failed =>
            readyState := CLOSED;
            return;
          case Took(count) =>
            if count == 0 {
              readyState := CLOSED;
              return;
            }
            var n := if count <= |txbuf| then count else |txbuf|;
            accepted := accepted + txbuf[..n];
            txbuf := txbuf[n..];
        }
        k := k + 1;
      }
    }

    // poll, with what recv and send will answer.
    method Poll(rs: seq<Received>, ss: seq<Sent>)
      modifies this
      ensures View() == Outgoing.Poll(old(View()), rs, ss)
    {
      if readyState.CLOSED? {
        return;
      }
      ReceiveBytes(rs);
      SendBytes(ss);
      if txbuf == [] && readyState.CLOSING? {
        readyState := CLOSED;
      }
    }
  }
}
