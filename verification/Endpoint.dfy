// One end of a WebSocket connection as easywsclient.cpp keeps it: what sending, closing
// and dispatching do to its buffers, and what follows for whole byte streams.
module Endpoint {
  import opened Basics
  import opened Frames

  // CONNECTING is never used by the source.
  datatype ReadyState = OPEN | CLOSING | CLOSED

  const CONTINUATION: byte := 0x0
  const TEXT_FRAME: byte := 0x1
  const BINARY_FRAME: byte := 0x2
  const PING: byte := 9
  const PONG: byte := 0xa

  // The members of _RealWebSocket, and two histories that nothing reads: the frames put
  // into txbuf so far, and the bytes the network has accepted out of it.
  datatype Socket = Socket(
    rxbuf: seq<byte>, txbuf: seq<byte>, receivedData: seq<byte>,
    readyState: ReadyState, useMask: bool, isRxBad: bool,
    queued: seq<Frame>, accepted: seq<byte>)

  function Fresh(useMask: bool): Socket {
    Socket([], [], [], OPEN, useMask, false, [], [])
  }

  // ---------------------------------------------------------------- sending

  const FIXED_KEY := Key(0x12, 0x34, 0x56, 0x78)

  // The frame sendData writes: FIN set, the shortest length form.
  function OutFrame(opcode: byte, message: seq<byte>, useMask: bool): Frame {
    Frame(0x80 | opcode,
          if |message| < 126 then Short else if |message| < 0x1_0000 then Medium else Long,
          if useMask then FIXED_KEY else NoMask,
          message)
  }

  const CLOSE_FRAME := Frame(0x88, Short, Key(0, 0, 0, 0), [])

  function Queue(s: Socket, f: Frame): Socket {
    s.(txbuf := s.txbuf + Encode(f), queued := s.queued + [f])
  }

  // sendData: nothing is sent once the connection is closing.
  function SendData(s: Socket, opcode: byte, message: seq<byte>): Socket {
    if s.readyState.OPEN? then Queue(s, OutFrame(opcode, message, s.useMask)) else s
  }

  function Close(s: Socket): Socket {
    if s.readyState.OPEN? then Queue(s.(readyState := CLOSING), CLOSE_FRAME) else s
  }

  // -------------------------------------------------------------- receiving

  // The new state and the messages handed to the callback.
  datatype Outcome = Outcome(socket: Socket, calls: seq<seq<byte>>)

  predicate IsData(opcode: byte) {
    opcode == TEXT_FRAME || opcode == BINARY_FRAME || opcode == CONTINUATION
  }

  // One complete frame.
  function Handle(s: Socket, f: Frame): Outcome {
    var opcode := Opcode(f.b0);
    if IsData(opcode) then
      var data := s.receivedData + f.payload;
      if Fin(f.b0) then Outcome(s.(receivedData := []), [data]) else Outcome(s.(receivedData := data), [])
    else if opcode == PING then Outcome(SendData(s, PONG, f.payload), [])
    else if opcode == PONG then Outcome(s, [])
    else Outcome(Close(s), [])
  }

  // _dispatchBinary
  function Dispatch(s: Socket): Outcome
    decreases |s.rxbuf|
  {
    if s.isRxBad then Outcome(s, [])
    else match Parse(s.rxbuf)
      case NeedMore => Outcome(s, [])
      case BadLength => Outcome(Close(s.(isRxBad := true)), [])
      case Got(f, size) =>
        var one := Handle(s.(rxbuf := s.rxbuf[size..]), f);
        var more := Dispatch(one.socket);
        Outcome(more.socket, one.calls + more.calls)
  }

  // More bytes arrive and are dispatched.
  function Feed(s: Socket, bytes: seq<byte>): Outcome {
    Dispatch(s.(rxbuf := s.rxbuf + bytes))
  }

  function FeedAll(s: Socket, chunks: seq<seq<byte>>): Outcome
    decreases |chunks|
  {
    if chunks == [] then Outcome(s, [])
    else
      var one := Feed(s, chunks[0]);
      var more := FeedAll(one.socket, chunks[1..]);
      Outcome(more.socket, one.calls + more.calls)
  }

  function Flatten(chunks: seq<seq<byte>>): seq<byte> {
    if chunks == [] then [] else chunks[0] + Flatten(chunks[1..])
  }

  // ------------------------------------------------------ chunk independence

  function Extend(s: Socket, bytes: seq<byte>): Socket {
    s.(rxbuf := s.rxbuf + bytes)
  }

  // Handling a frame does not look at, or touch, the bytes behind it.
  lemma HandleRx(s: Socket, f: Frame, rx: seq<byte>)
    ensures Handle(s, f).socket.rxbuf == s.rxbuf
    ensures Handle(s.(rxbuf := rx), f) == Outcome(Handle(s, f).socket.(rxbuf := rx), Handle(s, f).calls)
  {
  }

  lemma DropPlus(a: seq<byte>, b: seq<byte>, n: nat)
    requires n <= |a|
    ensures (a + b)[n..] == a[n..] + b
  {
  }

  // Dispatching what is there and then the rest is dispatching all of it.
  lemma {:induction false} DispatchExtend(s: Socket, bytes: seq<byte>)
    ensures var first := Dispatch(s);
      var second := Feed(first.socket, bytes);
      Dispatch(Extend(s, bytes)) == Outcome(second.socket, first.calls + second.calls)
    decreases |s.rxbuf|
  {
    if !s.isRxBad && !Parse(s.rxbuf).NeedMore? {
      ParseStable(s.rxbuf, bytes);
      if Parse(s.rxbuf).Got? {
        var f, size := Parse(s.rxbuf).frame, Parse(s.rxbuf).size;
        var s1 := s.(rxbuf := s.rxbuf[size..]);
        DropPlus(s.rxbuf, bytes, size);
        HandleRx(s1, f, s1.rxbuf + bytes);
        var one := Handle(s1, f);
        DispatchExtend(one.socket, bytes);
        var first := Dispatch(one.socket);
        var second := Feed(first.socket, bytes);
        Reassociate(one.calls, first.calls, second.calls);
      }
    }
  }

  // A socket with nothing left to dispatch.
  predicate Settled(s: Socket) {
    s.isRxBad || Parse(s.rxbuf).NeedMore?
  }

  lemma {:induction false} DispatchSettles(s: Socket)
    ensures Settled(Dispatch(s).socket)
    ensures Settled(s) ==> Dispatch(s) == Outcome(s, [])
    decreases |s.rxbuf|
  {
    if !s.isRxBad && Parse(s.rxbuf).Got? {
      DispatchSettles(Handle(s.(rxbuf := s.rxbuf[Parse(s.rxbuf).size..]), Parse(s.rxbuf).frame).socket);
    }
  }

  // However a byte stream is cut, malformed or not: same callbacks, same replies, same state.
  lemma {:induction false} ChunksDoNotMatter(s: Socket, chunks: seq<seq<byte>>)
    requires Settled(s)
    ensures FeedAll(s, chunks) == Feed(s, Flatten(chunks))
    decreases |chunks|
  {
    if chunks == [] {
      assert s.rxbuf + [] == s.rxbuf;
    } else {
      var a, b := chunks[0], Flatten(chunks[1..]);
      var one := Feed(s, a);
      DispatchSettles(Extend(s, a));
      ChunksDoNotMatter(one.socket, chunks[1..]);
      DispatchExtend(Extend(s, a), b);
      Reassociate(s.rxbuf, a, b);
    }
  }

  // -------------------------------------------------------- streams of frames

  function EncodeAll(fs: seq<Frame>): seq<byte> {
    if fs == [] then [] else Encode(fs[0]) + EncodeAll(fs[1..])
  }

  function HandleAll(s: Socket, fs: seq<Frame>): Outcome
    decreases |fs|
  {
    if fs == [] then Outcome(s, [])
    else
      var one := Handle(s, fs[0]);
      var more := HandleAll(one.socket, fs[1..]);
      Outcome(more.socket, one.calls + more.calls)
  }

  ghost predicate AllValid(fs: seq<Frame>) {
    forall f :: f in fs ==> Valid(f)
  }

  // Dispatching well-formed frames and a tail that is no frame is handling them one by one,
  // and, if the tail has an impossible length, giving up.
  lemma {:induction false} DispatchFrames(s: Socket, fs: seq<Frame>, tail: seq<byte>)
    requires !s.isRxBad && AllValid(fs) && s.rxbuf == EncodeAll(fs) + tail && !Parse(tail).Got?
    ensures var all := HandleAll(s.(rxbuf := tail), fs);
      Dispatch(s) == if Parse(tail).BadLength? then Outcome(Close(all.socket.(isRxBad := true)), all.calls) else all
    decreases |fs|
  {
    if fs == [] {
      assert s.rxbuf == tail;
    } else {
      var f := fs[0];
      var rest := EncodeAll(fs[1..]) + tail;
      assert f in fs;
      Reassociate(Encode(f), EncodeAll(fs[1..]), tail);
      DispatchFirst(s, f, rest);
      HandleRx(s, f, rest);
      HandleRx(s, f, tail);
      DispatchFrames(Handle(s.(rxbuf := rest), f).socket, fs[1..], tail);
    }
  }

  lemma DispatchFirst(s: Socket, f: Frame, rest: seq<byte>)
    requires !s.isRxBad && Valid(f) && s.rxbuf == Encode(f) + rest
    ensures var one := Handle(s.(rxbuf := rest), f);
      Dispatch(s) == Outcome(Dispatch(one.socket).socket, one.calls + Dispatch(one.socket).calls)
  {
    ParseEncode(f, rest);
    DropPlus(Encode(f), rest, |Encode(f)|);
    assert Encode(f)[|Encode(f)|..] + rest == rest;
  }

  lemma EncodeAllCons(f: Frame, fs: seq<Frame>)
    ensures EncodeAll([f] + fs) == Encode(f) + EncodeAll(fs)
  {
    assert ([f] + fs)[1..] == fs;
  }

  lemma {:induction false} EncodeAllSnoc(fs: seq<Frame>, f: Frame)
    ensures EncodeAll(fs + [f]) == EncodeAll(fs) + Encode(f)
    decreases |fs|
  {
    if fs == [] {
      assert [] + [f] == [f] && [f][1..] == [];
      assert Encode(f) + [] == Encode(f) && [] + Encode(f) == Encode(f);
    } else {
      assert (fs + [f])[0] == fs[0] && (fs + [f])[1..] == fs[1..] + [f];
      EncodeAllSnoc(fs[1..], f);
      Reassociate(Encode(fs[0]), EncodeAll(fs[1..]), Encode(f));
    }
  }

  // Every byte stream is a list of well-formed frames and a tail that is not one: too
  // short, or with an impossible length.
  lemma {:induction false} EveryStreamIsFrames(bytes: seq<byte>) returns (fs: seq<Frame>, tail: seq<byte>)
    ensures AllValid(fs) && bytes == EncodeAll(fs) + tail && !Parse(tail).Got?
    decreases |bytes|
  {
    if Parse(bytes).Got? {
      var f, size := Parse(bytes).frame, Parse(bytes).size;
      EncodeParse(bytes);
      var more, rest := EveryStreamIsFrames(bytes[size..]);
      fs, tail := [f] + more, rest;
      EncodeAllCons(f, more);
      Resplit(bytes, size);
      Reassociate(Encode(f), EncodeAll(more), tail);
    } else {
      fs, tail := [], bytes;
      assert [] + bytes == bytes;
    }
  }

  // ------------------------------------------------------------- round trip

  // A message as send and sendBinary take it.
  datatype Message = Message(binary: bool, bytes: seq<byte>)

  function OpcodeOf(m: Message): byte {
    if m.binary then BINARY_FRAME else TEXT_FRAME
  }

  function SendAll(s: Socket, ms: seq<Message>): Socket
    decreases |ms|
  {
    if ms == [] then s else SendAll(SendData(s, OpcodeOf(ms[0]), ms[0].bytes), ms[1..])
  }

  function OutFrames(ms: seq<Message>, useMask: bool): seq<Frame> {
    if ms == [] then [] else [OutFrame(OpcodeOf(ms[0]), ms[0].bytes, useMask)] + OutFrames(ms[1..], useMask)
  }

  function Contents(ms: seq<Message>): seq<seq<byte>> {
    if ms == [] then [] else [ms[0].bytes] + Contents(ms[1..])
  }

  lemma {:induction false} SendAllWrites(s: Socket, ms: seq<Message>)
    requires s.readyState.OPEN?
    ensures SendAll(s, ms) ==
      s.(txbuf := s.txbuf + EncodeAll(OutFrames(ms, s.useMask)), queued := s.queued + OutFrames(ms, s.useMask))
    decreases |ms|
  {
    if ms == [] {
      assert s.txbuf + [] == s.txbuf && s.queued + [] == s.queued;
    } else {
      var f, fs := OutFrame(OpcodeOf(ms[0]), ms[0].bytes, s.useMask), OutFrames(ms[1..], s.useMask);
      SendAllWrites(Queue(s, f), ms[1..]);
      EncodeAllCons(f, fs);
      Reassociate(s.txbuf, Encode(f), EncodeAll(fs));
      Reassociate(s.queued, [f], fs);
    }
  }

  lemma OpcodeBits(opcode: byte)
    requires opcode < 0x10
    ensures Opcode(0x80 | opcode) == opcode && Fin(0x80 | opcode)
  {
  }

  // A receiver between messages hands each complete message over and is as before.
  lemma {:induction false} HandleMessages(r: Socket, ms: seq<Message>, useMask: bool)
    requires r.receivedData == []
    ensures HandleAll(r, OutFrames(ms, useMask)) == Outcome(r, Contents(ms))
    decreases |ms|
  {
    if ms == [] {
    } else {
      var f, fs := OutFrame(OpcodeOf(ms[0]), ms[0].bytes, useMask), OutFrames(ms[1..], useMask);
      OpcodeBits(OpcodeOf(ms[0]));
      assert [] + f.payload == f.payload;
      assert Handle(r, f) == Outcome(r, [ms[0].bytes]);
      assert ([f] + fs)[0] == f && ([f] + fs)[1..] == fs;
      HandleMessages(r, ms[1..], useMask);
    }
  }

  lemma {:induction false} OutFramesValid(ms: seq<Message>, useMask: bool)
    requires forall m :: m in ms ==> |m.bytes| < TWO_63
    ensures AllValid(OutFrames(ms, useMask))
  {
    if ms == [] {
    } else {
      var m := ms[0];
      assert m in ms;
      OutFramesValid(ms[1..], useMask);
    }
  }

  // What sendData writes for any list of messages, masked or not and cut anywhere, reaches
  // the other end's callback as exactly that list, and leaves nothing behind.
  lemma RoundTrip(ms: seq<Message>, useMask: bool, r: Socket, chunks: seq<seq<byte>>)
    requires forall m :: m in ms ==> |m.bytes| < TWO_63
    requires r.rxbuf == [] && r.receivedData == [] && !r.isRxBad
    requires Flatten(chunks) == SendAll(Fresh(useMask), ms).txbuf
    ensures FeedAll(r, chunks) == Outcome(r, Contents(ms))
  {
    var fs := OutFrames(ms, useMask);
    SendAllWrites(Fresh(useMask), ms);
    assert [] + EncodeAll(fs) == EncodeAll(fs);
    OutFramesValid(ms, useMask);
    ChunksDoNotMatter(r, chunks);
    var full := Extend(r, Flatten(chunks));
    assert full.rxbuf == EncodeAll(fs) + [];
    DispatchFrames(full, fs, []);
    assert full.(rxbuf := []) == r;
    HandleMessages(r, ms, useMask);
  }

  predicate Fits(m: Message) {
    |m.bytes| < TWO_63
  }

  // The messages before the first one that is too long.
  function Fitting(ms: seq<Message>): (r: seq<Message>)
    ensures r <= ms && forall m :: m in r ==> Fits(m)
    ensures r == ms <==> forall m :: m in ms ==> Fits(m)
    ensures |r| < |ms| ==> !Fits(ms[|r|])
  {
    if ms == [] then []
    else
      assert forall m :: m in ms <==> m == ms[0] || m in ms[1..];
      if !Fits(ms[0]) then []
      else [ms[0]] + Fitting(ms[1..])
  }

  lemma {:induction false} OutFramesSplit(a: seq<Message>, b: seq<Message>, useMask: bool)
    ensures EncodeAll(OutFrames(a + b, useMask)) == EncodeAll(OutFrames(a, useMask)) + EncodeAll(OutFrames(b, useMask))
  {
    if a == [] {
      assert [] + b == b;
    } else {
      var f := OutFrame(OpcodeOf(a[0]), a[0].bytes, useMask);
      assert (a + b)[0] == a[0] && (a + b)[1..] == a[1..] + b;
      OutFramesSplit(a[1..], b, useMask);
      EncodeAllCons(f, OutFrames(a[1..] + b, useMask));
      EncodeAllCons(f, OutFrames(a[1..], useMask));
      Reassociate(Encode(f), EncodeAll(OutFrames(a[1..], useMask)), EncodeAll(OutFrames(b, useMask)));
    }
  }

  lemma {:induction false} ContentsLength(ms: seq<Message>)
    ensures |Contents(ms)| == |ms|
  {
    if ms == [] {
    } else {
      ContentsLength(ms[1..]);
    }
  }

  // A message that is too long, and whatever is written after it, is one impossible tail.
  lemma OversizedTail(ms: seq<Message>, useMask: bool)
    requires ms != [] && TWO_63 <= |ms[0].bytes| < TWO_64
    ensures Parse(EncodeAll(OutFrames(ms, useMask))).BadLength?
  {
    var f := OutFrame(OpcodeOf(ms[0]), ms[0].bytes, useMask);
    EncodeAllCons(f, OutFrames(ms[1..], useMask));
    ParseOversized(f, EncodeAll(OutFrames(ms[1..], useMask)));
  }

  // Any list of messages, in any chunks: those before the first that is too long arrive; at
  // that one the receiver gives up.
  lemma LongestRoundTrip(ms: seq<Message>, useMask: bool, r: Socket, chunks: seq<seq<byte>>)
    requires forall m :: m in ms ==> |m.bytes| < TWO_64
    requires r.rxbuf == [] && r.receivedData == [] && !r.isRxBad
    requires Flatten(chunks) == SendAll(Fresh(useMask), ms).txbuf
    ensures var got := FeedAll(r, chunks);
      && got.calls == Contents(Fitting(ms))
      && (got.socket.isRxBad <==> Fitting(ms) != ms)
      && (Fitting(ms) != ms ==> !got.socket.readyState.OPEN? && got.socket.queued == Close(r).queued)
  {
    var good := Fitting(ms);
    if good == ms {
      RoundTrip(ms, useMask, r, chunks);
    } else {
      FittingEnds(ms);
      ChunksDoNotMatter(r, chunks);
      GivingUpAt(good, ms[|good|..], useMask, r);
      var fed := Feed(r, Flatten(chunks));
      assert fed.calls == Contents(good) && fed.socket.isRxBad && !fed.socket.readyState.OPEN?;
    }
  }

  lemma FittingEnds(ms: seq<Message>)
    requires Fitting(ms) != ms
    ensures var good := Fitting(ms);
      |good| < |ms| && good + ms[|good|..] == ms && ms[|good|..][0] in ms && !Fits(ms[|good|..][0])
  {
    Resplit(ms, |Fitting(ms)|);
  }

  lemma GivingUpAt(good: seq<Message>, bad: seq<Message>, useMask: bool, r: Socket)
    requires (forall m :: m in good ==> Fits(m)) && bad != [] && TWO_63 <= |bad[0].bytes| < TWO_64
    requires r.rxbuf == [] && r.receivedData == [] && !r.isRxBad
    ensures Feed(r, SendAll(Fresh(useMask), good + bad).txbuf) ==
      Outcome(Close(r.(rxbuf := EncodeAll(OutFrames(bad, useMask)), isRxBad := true)), Contents(good))
  {
    WireOf(good, bad, useMask);
    OversizedTail(bad, useMask);
    GoodThenBad(good, EncodeAll(OutFrames(bad, useMask)), useMask, r);
  }

  lemma WireOf(a: seq<Message>, b: seq<Message>, useMask: bool)
    ensures SendAll(Fresh(useMask), a + b).txbuf == EncodeAll(OutFrames(a, useMask)) + EncodeAll(OutFrames(b, useMask))
  {
    var all := EncodeAll(OutFrames(a + b, useMask));
    SendAllWrites(Fresh(useMask), a + b);
    assert [] + all == all;
    OutFramesSplit(a, b, useMask);
  }

  lemma GoodThenBad(good: seq<Message>, tail: seq<byte>, useMask: bool, r: Socket)
    requires forall m :: m in good ==> Fits(m)
    requires r.rxbuf == [] && r.receivedData == [] && !r.isRxBad && Parse(tail).BadLength?
    ensures Feed(r, EncodeAll(OutFrames(good, useMask)) + tail) ==
      Outcome(Close(r.(rxbuf := tail, isRxBad := true)), Contents(good))
  {
    var bytes := EncodeAll(OutFrames(good, useMask)) + tail;
    OutFramesValid(good, useMask);
    assert Extend(r, bytes).rxbuf == bytes;
    DispatchFrames(Extend(r, bytes), OutFrames(good, useMask), tail);
    HandleMessages(r.(rxbuf := tail), good, useMask);
  }

  // The bound is exact: a list of messages arrives if and only if all are short enough.
  lemma RoundTripIff(ms: seq<Message>, useMask: bool, r: Socket, chunks: seq<seq<byte>>)
    requires forall m :: m in ms ==> |m.bytes| < 0x1_0000_0000_0000_0000
    requires r.rxbuf == [] && r.receivedData == [] && !r.isRxBad
    requires Flatten(chunks) == SendAll(Fresh(useMask), ms).txbuf
    ensures FeedAll(r, chunks).calls == Contents(ms) <==> forall m :: m in ms ==> |m.bytes| < 0x8000_0000_0000_0000
  {
    LongestRoundTrip(ms, useMask, r, chunks);
    ContentsLength(ms);
    ContentsLength(Fitting(ms));
    assert (forall m :: m in ms ==> Fits(m)) <==> (forall m :: m in ms ==> |m.bytes| < TWO_63);
    assert Fitting(ms) != ms ==> |Fitting(ms)| < |ms|;
  }

  // ------------------------------------- fragments and control frames

  // Messages completed by the data frames among fs, after `data` has been collected, ...
  function Assembled(data: seq<byte>, fs: seq<Frame>): seq<seq<byte>>
    decreases |fs|
  {
    if fs == [] then []
    else if !IsData(Opcode(fs[0].b0)) then Assembled(data, fs[1..])
    else if Fin(fs[0].b0) then [data + fs[0].payload] + Assembled([], fs[1..])
    else Assembled(data + fs[0].payload, fs[1..])
  }

  // ... the part of a message they leave over, ...
  function LeftOver(data: seq<byte>, fs: seq<Frame>): seq<byte>
    decreases |fs|
  {
    if fs == [] then data
    else if !IsData(Opcode(fs[0].b0)) then LeftOver(data, fs[1..])
    else if Fin(fs[0].b0) then LeftOver([], fs[1..])
    else LeftOver(data + fs[0].payload, fs[1..])
  }

  // ... and one PONG for every PING, with its payload, in order.
  function Pongs(fs: seq<Frame>, useMask: bool): seq<Frame> {
    if fs == [] then []
    else (if Opcode(fs[0].b0) == PING then [OutFrame(PONG, fs[0].payload, useMask)] else []) + Pongs(fs[1..], useMask)
  }

  // A frame that ends the connection: a CLOSE, or an opcode nobody defined.
  predicate EndsIt(f: Frame) {
    !IsData(Opcode(f.b0)) && Opcode(f.b0) != PING && Opcode(f.b0) != PONG
  }

  ghost predicate NoCloses(fs: seq<Frame>) {
    forall f :: f in fs ==> !EndsIt(f)
  }

  // What an open socket sends back: PONGs up to the first frame that ends the connection,
  // then one CLOSE, then nothing.
  function Answers(fs: seq<Frame>, useMask: bool): seq<Frame> {
    if fs == [] then []
    else if EndsIt(fs[0]) then [CLOSE_FRAME]
    else (if Opcode(fs[0].b0) == PING then [OutFrame(PONG, fs[0].payload, useMask)] else []) + Answers(fs[1..], useMask)
  }

  function StateAfter(fs: seq<Frame>): (r: ReadyState)
    ensures !r.CLOSED?
  {
    if fs == [] then OPEN else if EndsIt(fs[0]) then CLOSING else StateAfter(fs[1..])
  }

  // What is handed over, what is left over, what is sent back, and whether the connection is
  // still open. Data is still handed over after a CLOSE.
  function Effect(s: Socket, fs: seq<Frame>): Outcome {
    var kept := s.(receivedData := LeftOver(s.receivedData, fs));
    var answers := Answers(fs, s.useMask);
    Outcome(
      if s.readyState.OPEN? then
        kept.(txbuf := s.txbuf + EncodeAll(answers), queued := s.queued + answers, readyState := StateAfter(fs))
      else kept,
      Assembled(s.receivedData, fs))
  }

  // Handling f and then more.
  function Followed(s: Socket, f: Frame, rest: seq<Frame>): Outcome {
    var more := Effect(Handle(s, f).socket, rest);
    Outcome(more.socket, Handle(s, f).calls + more.calls)
  }

  lemma EffectWhenClosed(s: Socket, f: Frame, rest: seq<Frame>)
    requires !s.readyState.OPEN?
    ensures Effect(s, [f] + rest) == Followed(s, f, rest)
  {
    assert ([f] + rest)[1..] == rest;
  }

  lemma EffectOfEnd(s: Socket, f: Frame, rest: seq<Frame>)
    requires s.readyState.OPEN? && EndsIt(f)
    ensures Effect(s, [f] + rest) == Followed(s, f, rest)
  {
    assert ([f] + rest)[1..] == rest;
    EncodeAllCons(CLOSE_FRAME, []);
    assert [CLOSE_FRAME] + [] == [CLOSE_FRAME] && Encode(CLOSE_FRAME) + [] == Encode(CLOSE_FRAME);
  }

  lemma EffectOfPing(s: Socket, f: Frame, rest: seq<Frame>)
    requires s.readyState.OPEN? && Opcode(f.b0) == PING
    ensures Effect(s, [f] + rest) == Followed(s, f, rest)
  {
    assert ([f] + rest)[1..] == rest;
    var p, more := OutFrame(PONG, f.payload, s.useMask), Answers(rest, s.useMask);
    EncodeAllCons(p, more);
    Reassociate(s.txbuf, Encode(p), EncodeAll(more));
    Reassociate(s.queued, [p], more);
  }

  lemma EffectOfOther(s: Socket, f: Frame, rest: seq<Frame>)
    requires s.readyState.OPEN? && (IsData(Opcode(f.b0)) || Opcode(f.b0) == PONG)
    ensures Effect(s, [f] + rest) == Followed(s, f, rest)
  {
    assert ([f] + rest)[1..] == rest;
    assert [] + Answers(rest, s.useMask) == Answers(rest, s.useMask);
  }

  // Any frames at all, in any order.
  lemma {:induction false} AnyFrames(s: Socket, fs: seq<Frame>)
    ensures HandleAll(s, fs) == Effect(s, fs)
    decreases |fs|
  {
    if fs == [] {
      assert s.txbuf + [] == s.txbuf && s.queued + [] == s.queued;
    } else {
      var f, rest := fs[0], fs[1..];
      AnyFrames(Handle(s, f).socket, rest);
      assert fs == [f] + rest;
      if !s.readyState.OPEN? {
        EffectWhenClosed(s, f, rest);
      } else if EndsIt(f) {
        EffectOfEnd(s, f, rest);
      } else if Opcode(f.b0) == PING {
        EffectOfPing(s, f, rest);
      } else {
        EffectOfOther(s, f, rest);
      }
    }
  }

  // What an open socket sends back for the frames and the tail: a tail of impossible length
  // closes the connection, unless a frame has.
  function AllAnswers(fs: seq<Frame>, tail: seq<byte>, useMask: bool): seq<Frame> {
    Answers(fs, useMask) + (if Parse(tail).BadLength? && StateAfter(fs).OPEN? then [CLOSE_FRAME] else [])
  }

  // Frames, then a tail that is none, at a socket with nothing yet to read.
  function StreamEffect(r: Socket, fs: seq<Frame>, tail: seq<byte>): Outcome {
    var sent := AllAnswers(fs, tail, r.useMask);
    var bad := Parse(tail).BadLength?;
    var kept := r.(rxbuf := tail, receivedData := LeftOver(r.receivedData, fs), isRxBad := bad);
    Outcome(
      if r.readyState.OPEN? then
        kept.(txbuf := r.txbuf + EncodeAll(sent), queued := r.queued + sent,
              readyState := if bad then CLOSING else StateAfter(fs))
      else kept,
      Assembled(r.receivedData, fs))
  }

  lemma TailEffect(r: Socket, fs: seq<Frame>, tail: seq<byte>)
    requires !r.isRxBad
    ensures var all := Effect(r.(rxbuf := tail), fs);
      StreamEffect(r, fs, tail) ==
      if Parse(tail).BadLength? then Outcome(Close(all.socket.(isRxBad := true)), all.calls) else all
  {
    var all := Effect(r.(rxbuf := tail), fs);
    var answers := Answers(fs, r.useMask);
    assert answers + [] == answers;
    if Parse(tail).BadLength? {
      GivingUp(r, all.socket.(isRxBad := true), fs);
      var end := Close(all.socket.(isRxBad := true));
      assert end == StreamEffect(r, fs, tail).socket;
      assert all.calls == StreamEffect(r, fs, tail).calls;
    }
  }

  lemma GivingUp(r: Socket, s: Socket, fs: seq<Frame>)
    requires r.readyState.OPEN? ==>
      && s.queued == r.queued + Answers(fs, r.useMask) && s.txbuf == r.txbuf + EncodeAll(Answers(fs, r.useMask))
      && s.readyState == StateAfter(fs)
    requires !r.readyState.OPEN? ==> s.queued == r.queued && s.txbuf == r.txbuf && s.readyState == r.readyState
    ensures var sent := Answers(fs, r.useMask) + (if StateAfter(fs).OPEN? then [CLOSE_FRAME] else []);
      var t := Close(s);
      && (r.readyState.OPEN? ==>
            t.queued == r.queued + sent && t.txbuf == r.txbuf + EncodeAll(sent) && t.readyState == CLOSING)
      && (!r.readyState.OPEN? ==> t == s)
  {
    var answers := Answers(fs, r.useMask);
    assert answers + [] == answers;
    EncodeAllSnoc(answers, CLOSE_FRAME);
    Reassociate(r.queued, answers, [CLOSE_FRAME]);
    Reassociate(r.txbuf, EncodeAll(answers), Encode(CLOSE_FRAME));
  }

  // The decoder on arbitrary bytes, in arbitrary chunks: the bytes are frames and a tail, and
  // callbacks, replies and every field are those the frames and the tail call for.
  lemma AnyStream(r: Socket, chunks: seq<seq<byte>>) returns (fs: seq<Frame>, tail: seq<byte>)
    requires r.rxbuf == [] && !r.isRxBad
    ensures AllValid(fs) && Flatten(chunks) == EncodeAll(fs) + tail && !Parse(tail).Got?
    ensures FeedAll(r, chunks) == StreamEffect(r, fs, tail)
  {
    fs, tail := EveryStreamIsFrames(Flatten(chunks));
    FeedStream(r, chunks, fs, tail);
  }

  lemma FeedStream(r: Socket, chunks: seq<seq<byte>>, fs: seq<Frame>, tail: seq<byte>)
    requires r.rxbuf == [] && !r.isRxBad && AllValid(fs) && Flatten(chunks) == EncodeAll(fs) + tail && !Parse(tail).Got?
    ensures FeedAll(r, chunks) == StreamEffect(r, fs, tail)
  {
    var full := Extend(r, Flatten(chunks));
    ChunksDoNotMatter(r, chunks);
    assert full.rxbuf == Flatten(chunks) && full.(rxbuf := tail) == r.(rxbuf := tail);
    DispatchFrames(full, fs, tail);
    AnyFrames(r.(rxbuf := tail), fs);
    TailEffect(r, fs, tail);
  }

  lemma {:induction false} NoClosesAnswers(fs: seq<Frame>, useMask: bool)
    requires NoCloses(fs)
    ensures Answers(fs, useMask) == Pongs(fs, useMask) && StateAfter(fs) == OPEN
  {
    if fs == [] {
    } else {
      var f := fs[0];
      assert f in fs;
      NoClosesAnswers(fs[1..], useMask);
    }
  }

  // fs is one fragmented message: data frames without FIN, then one with it, and any PINGs
  // and PONGs in between.
  predicate IsFragmented(fs: seq<Frame>)
    decreases |fs|
  {
    if fs == [] then false
    else if |fs| == 1 then IsData(Opcode(fs[0].b0)) && Fin(fs[0].b0)
    else if IsData(Opcode(fs[0].b0)) then !Fin(fs[0].b0) && IsFragmented(fs[1..])
    else (Opcode(fs[0].b0) == PING || Opcode(fs[0].b0) == PONG) && IsFragmented(fs[1..])
  }

  function Payloads(fs: seq<Frame>): seq<byte> {
    if fs == [] then []
    else (if IsData(Opcode(fs[0].b0)) then fs[0].payload else []) + Payloads(fs[1..])
  }

  lemma {:induction false} FragmentsAssemble(data: seq<byte>, fs: seq<Frame>)
    requires IsFragmented(fs)
    ensures NoCloses(fs) && Assembled(data, fs) == [data + Payloads(fs)] && LeftOver(data, fs) == []
    decreases |fs|
  {
    var f, rest := fs[0], fs[1..];
    assert forall g :: g in fs ==> g == f || g in rest;
    if |fs| == 1 {
      assert rest == [] && f.payload + [] == f.payload;
    } else if IsData(Opcode(f.b0)) {
      FragmentsAssemble(data + f.payload, rest);
      Reassociate(data, f.payload, Payloads(rest));
    } else {
      FragmentsAssemble(data, rest);
      assert [] + Payloads(rest) == Payloads(rest);
    }
  }

  // A fragmented message with PINGs and PONGs between its fragments, in any chunks, is
  // delivered once, as the concatenation of its fragments, and each PING is answered.
  lemma FragmentedRoundTrip(r: Socket, fs: seq<Frame>, chunks: seq<seq<byte>>)
    requires r.rxbuf == [] && r.receivedData == [] && !r.isRxBad && r.readyState.OPEN?
    requires IsFragmented(fs) && AllValid(fs) && Flatten(chunks) == EncodeAll(fs)
    ensures FeedAll(r, chunks) == Outcome(
      r.(txbuf := r.txbuf + EncodeAll(Pongs(fs, r.useMask)), queued := r.queued + Pongs(fs, r.useMask)),
      [Payloads(fs)])
  {
    ChunksDoNotMatter(r, chunks);
    var full := Extend(r, Flatten(chunks));
    assert full.rxbuf == EncodeAll(fs) + [];
    DispatchFrames(full, fs, []);
    assert full.(rxbuf := []) == r;
    FragmentsAssemble([], fs);
    assert [] + Payloads(fs) == Payloads(fs);
    AnyFrames(r, fs);
    NoClosesAnswers(fs, r.useMask);
  }
}
