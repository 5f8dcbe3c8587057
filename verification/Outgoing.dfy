// The life of a connection: sends, closes, incoming bytes and polls in any order, and
// what reaches the network.
module Outgoing {
  import opened Basics
  import opened Frames
  import opened Endpoint

  // What recv and send may come back with.
  datatype Received = Bytes(data: seq<byte>) | NothingYet | Lost
  datatype Sent = Took(count: nat) | WouldBlock | Failed

  // The receive loop of poll.
  function ReceiveLoop(s: Socket, rs: seq<Received>): Socket
    decreases |rs|
  {
    if rs == [] || rs[0].NothingYet? then s
    else if rs[0].Lost? then s.(readyState := CLOSED)
    else ReceiveLoop(s.(rxbuf := s.rxbuf + rs[0].data), rs[1..])
  }

  // One successful send: the network takes a nonempty prefix of txbuf.
  function TakeOut(s: Socket, count: nat): Socket {
    var n := if count <= |s.txbuf| then count else |s.txbuf|;
    s.(txbuf := s.txbuf[n..], accepted := s.accepted + s.txbuf[..n])
  }

  // The send loop of poll; a result of 0 counts as a failure.
  function SendLoop(s: Socket, ss: seq<Sent>): Socket
    decreases |ss|
  {
    if s.txbuf == [] || ss == [] || ss[0].WouldBlock? then s
    else if ss[0].Failed? || ss[0].count == 0 then s.(readyState := CLOSED)
    else SendLoop(TakeOut(s, ss[0].count), ss[1..])
  }

  function Poll(s: Socket, rs: seq<Received>, ss: seq<Sent>): Socket {
    if s.readyState.CLOSED? then s
    else
      var s1 := SendLoop(ReceiveLoop(s, rs), ss);
      if s1.txbuf == [] && s1.readyState.CLOSING? then s1.(readyState := CLOSED) else s1
  }

  datatype Event =
    | Send(message: Message)
    | SendPing
    | Shut
    | DispatchNow
    | PollNow(rs: seq<Received>, ss: seq<Sent>)

  function Happen(s: Socket, e: Event): Socket {
    match e
    case Send(m) => SendData(s, OpcodeOf(m), m.bytes)
    case SendPing => SendData(s, PING, [])
    case Shut => Close(s)
    case DispatchNow => Dispatch(s).socket
    case PollNow(rs, ss) => Poll(s, rs, ss)
  }

  function HappenAll(s: Socket, es: seq<Event>): Socket
    decreases |es|
  {
    if es == [] then s else HappenAll(Happen(s, es[0]), es[1..])
  }

  // ---------------------------------------------------------- conservation

  predicate IsClose(f: Frame) {
    f.b0 & 0x0f == 0x8
  }

  // Accepted bytes and txbuf together are the queued frames; the one close frame there may
  // be comes last, and the connection is not open any more then.
  ghost predicate Conserved(s: Socket) {
    && s.accepted + s.txbuf == EncodeAll(s.queued)
    && (forall k {:trigger s.queued[k]} :: 0 <= k < |s.queued| && IsClose(s.queued[k]) ==>
          k == |s.queued| - 1 && s.queued[k] == CLOSE_FRAME && !s.readyState.OPEN?)
    && (s.readyState.CLOSING? ==> s.queued != [] && s.queued[|s.queued| - 1] == CLOSE_FRAME)
  }

  // OPEN, CLOSING and CLOSED are passed through in this order.
  function Stage(r: ReadyState): nat {
    match r case OPEN => 0 case CLOSING => 1 case CLOSED => 2
  }

  // s' comes after s: nothing sent is taken back.
  ghost predicate Later(s: Socket, s': Socket) {
    Stage(s.readyState) <= Stage(s'.readyState) && s.queued <= s'.queued && s.accepted <= s'.accepted
  }

  lemma LaterTransitive(a: Socket, b: Socket, d: Socket)
    requires Later(a, b) && Later(b, d)
    ensures Later(a, d)
  {
  }

  lemma QueueConserves(s: Socket, f: Frame)
    requires Conserved(s) && s.readyState.OPEN? && !IsClose(f)
    ensures Conserved(Queue(s, f)) && Later(s, Queue(s, f))
  {
    EncodeAllSnoc(s.queued, f);
    Reassociate(s.accepted, s.txbuf, Encode(f));
  }

  lemma SendDataConserves(s: Socket, opcode: byte, message: seq<byte>)
    requires Conserved(s) && opcode < 0x10 && opcode != 0x8
    ensures Conserved(SendData(s, opcode, message)) && Later(s, SendData(s, opcode, message))
  {
    OpcodeBits(opcode);
    if s.readyState.OPEN? {
      QueueConserves(s, OutFrame(opcode, message, s.useMask));
    }
  }

  lemma CloseConserves(s: Socket)
    requires Conserved(s)
    ensures Conserved(Close(s)) && Later(s, Close(s))
  {
    if s.readyState.OPEN? {
      EncodeAllSnoc(s.queued, CLOSE_FRAME);
      Reassociate(s.accepted, s.txbuf, Encode(CLOSE_FRAME));
    }
  }

  lemma HandleConserves(s: Socket, f: Frame)
    requires Conserved(s)
    ensures Conserved(Handle(s, f).socket) && Later(s, Handle(s, f).socket)
  {
    var opcode := Opcode(f.b0);
    if opcode == PING && !IsData(opcode) {
      SendDataConserves(s, PONG, f.payload);
    } else if opcode != PONG && !IsData(opcode) {
      CloseConserves(s);
    }
  }

  lemma HandleFirst(s: Socket, f: Frame, size: nat)
    requires Conserved(s) && 0 < size <= |s.rxbuf|
    ensures var s2 := Handle(s.(rxbuf := s.rxbuf[size..]), f).socket;
      Conserved(s2) && Later(s, s2) && |s2.rxbuf| < |s.rxbuf|
  {
    var s1 := s.(rxbuf := s.rxbuf[size..]);
    HandleConserves(s1, f);
    HandleRx(s1, f, []);
  }

  lemma {:induction false} DispatchConserves(s: Socket)
    requires Conserved(s)
    ensures Conserved(Dispatch(s).socket) && Later(s, Dispatch(s).socket)
    decreases |s.rxbuf|
  {
    if !s.isRxBad {
      match Parse(s.rxbuf) {
        case NeedMore =>
        case BadLength => CloseConserves(s.(isRxBad := true));
        case Got(f, size) =>
          var s2 := Handle(s.(rxbuf := s.rxbuf[size..]), f).socket;
          HandleFirst(s, f, size);
          DispatchConserves(s2);
          LaterTransitive(s, s2, Dispatch(s2).socket);
      }
    }
  }

  lemma {:induction false} ReceiveConserves(s: Socket, rs: seq<Received>)
    requires Conserved(s)
    ensures Conserved(ReceiveLoop(s, rs)) && Later(s, ReceiveLoop(s, rs))
    decreases |rs|
  {
    if rs != [] && rs[0].Bytes? {
      ReceiveConserves(s.(rxbuf := s.rxbuf + rs[0].data), rs[1..]);
    }
  }

  lemma TakeOutConserves(s: Socket, count: nat)
    requires Conserved(s)
    ensures Conserved(TakeOut(s, count)) && Later(s, TakeOut(s, count))
  {
    var n := if count <= |s.txbuf| then count else |s.txbuf|;
    Resplit(s.txbuf, n);
    Reassociate(s.accepted, s.txbuf[..n], s.txbuf[n..]);
  }

  lemma {:induction false} SendConserves(s: Socket, ss: seq<Sent>)
    requires Conserved(s)
    ensures Conserved(SendLoop(s, ss)) && Later(s, SendLoop(s, ss))
    decreases |ss|
  {
    if s.txbuf != [] && ss != [] && ss[0].Took? && ss[0].count > 0 {
      TakeOutConserves(s, ss[0].count);
      SendConserves(TakeOut(s, ss[0].count), ss[1..]);
      LaterTransitive(s, TakeOut(s, ss[0].count), SendLoop(s, ss));
    }
  }

  lemma HappenConserves(s: Socket, e: Event)
    requires Conserved(s)
    ensures Conserved(Happen(s, e)) && Later(s, Happen(s, e))
  {
    match e {
      case Send(m) => SendDataConserves(s, OpcodeOf(m), m.bytes);
      case SendPing => SendDataConserves(s, PING, []);
      case Shut => CloseConserves(s);
      case DispatchNow => DispatchConserves(s);
      case PollNow(rs, ss) =>
        ReceiveConserves(s, rs);
        SendConserves(ReceiveLoop(s, rs), ss);
        LaterTransitive(s, ReceiveLoop(s, rs), SendLoop(ReceiveLoop(s, rs), ss));
    }
  }

  // Over any life of a connection: no byte of a queued frame is lost, repeated or
  // reordered, there is at most one close frame and nothing after it, and the state only
  // moves from OPEN to CLOSING to CLOSED.
  lemma {:induction false} LifeConserves(s: Socket, es: seq<Event>)
    requires Conserved(s)
    ensures Conserved(HappenAll(s, es)) && Later(s, HappenAll(s, es))
    decreases |es|
  {
    if es == [] {
    } else {
      HappenConserves(s, es[0]);
      LifeConserves(Happen(s, es[0]), es[1..]);
      LaterTransitive(s, Happen(s, es[0]), HappenAll(s, es));
    }
  }

  lemma FreshIsConserved(useMask: bool)
    ensures Conserved(Fresh(useMask))
  {
  }

  // Once it has left OPEN, a socket queues nothing more, whatever happens.
  lemma {:induction false} ClosingIsSilent(s: Socket, es: seq<Event>)
    requires !s.readyState.OPEN?
    ensures HappenAll(s, es).queued == s.queued && !HappenAll(s, es).readyState.OPEN?
    decreases |es|
  {
    if es == [] {
    } else {
      match es[0] {
        case DispatchNow => DispatchIsSilent(s);
        case PollNow(rs, ss) => PollIsSilent(s, rs, ss);
        case _ =>
      }
      ClosingIsSilent(Happen(s, es[0]), es[1..]);
    }
  }

  lemma {:induction false} DispatchIsSilent(s: Socket)
    requires !s.readyState.OPEN?
    ensures Dispatch(s).socket.queued == s.queued && Dispatch(s).socket.readyState == s.readyState
    decreases |s.rxbuf|
  {
    if !s.isRxBad && Parse(s.rxbuf).Got? {
      var s1 := s.(rxbuf := s.rxbuf[Parse(s.rxbuf).size..]);
      HandleRx(s1, Parse(s.rxbuf).frame, []);
      DispatchIsSilent(Handle(s1, Parse(s.rxbuf).frame).socket);
    }
  }

  lemma {:induction false} PollIsSilent(s: Socket, rs: seq<Received>, ss: seq<Sent>)
    requires !s.readyState.OPEN?
    ensures Poll(s, rs, ss).queued == s.queued && !Poll(s, rs, ss).readyState.OPEN?
  {
    ReceiveIsSilent(s, rs);
    SendIsSilent(ReceiveLoop(s, rs), ss);
  }

  lemma {:induction false} ReceiveIsSilent(s: Socket, rs: seq<Received>)
    ensures ReceiveLoop(s, rs).queued == s.queued
    ensures !s.readyState.OPEN? ==> !ReceiveLoop(s, rs).readyState.OPEN?
    decreases |rs|
  {
    if rs != [] && rs[0].Bytes? {
      ReceiveIsSilent(s.(rxbuf := s.rxbuf + rs[0].data), rs[1..]);
    }
  }

  lemma {:induction false} SendIsSilent(s: Socket, ss: seq<Sent>)
    ensures SendLoop(s, ss).queued == s.queued
    ensures !s.readyState.OPEN? ==> !SendLoop(s, ss).readyState.OPEN?
    decreases |ss|
  {
    if s.txbuf != [] && ss != [] && ss[0].Took? && ss[0].count > 0 {
      SendIsSilent(TakeOut(s, ss[0].count), ss[1..]);
    }
  }

  // Closing is final: one close frame if the socket was open, and nothing after it.
  lemma ShutIsFinal(s: Socket, es: seq<Event>)
    ensures var t := HappenAll(s, [Shut] + es);
      !t.readyState.OPEN? && t.queued == if s.readyState.OPEN? then s.queued + [CLOSE_FRAME] else s.queued
  {
    assert ([Shut] + es)[0] == Shut && ([Shut] + es)[1..] == es;
    ClosingIsSilent(Happen(s, Shut), es);
  }

  // ---------------------------------------------------------- the other side

  ghost predicate ShortSends(es: seq<Event>) {
    forall e :: e in es && e.Send? ==> Fits(e.message)
  }

  lemma SendDataValid(s: Socket, opcode: byte, message: seq<byte>)
    requires AllValid(s.queued) && |message| < TWO_63
    ensures AllValid(SendData(s, opcode, message).queued)
  {
  }

  lemma CloseValid(s: Socket)
    requires AllValid(s.queued)
    ensures AllValid(Close(s).queued)
  {
  }

  // A PONG is as long as the PING it answers, and no frame read is 2^63 bytes or longer.
  lemma {:induction false} DispatchValid(s: Socket)
    requires AllValid(s.queued)
    ensures AllValid(Dispatch(s).socket.queued)
    decreases |s.rxbuf|
  {
    if s.isRxBad {
    } else {
      match Parse(s.rxbuf) {
        case NeedMore =>
        case BadLength => CloseValid(s.(isRxBad := true));
        case Got(f, size) =>
          EncodeParse(s.rxbuf);
          var s1 := s.(rxbuf := s.rxbuf[size..]);
          SendDataValid(s1, PONG, f.payload);
          CloseValid(s1);
          HandleRx(s1, f, []);
          DispatchValid(Handle(s1, f).socket);
      }
    }
  }

  lemma PollKeepsQueue(s: Socket, rs: seq<Received>, ss: seq<Sent>)
    ensures Poll(s, rs, ss).queued == s.queued
  {
    ReceiveIsSilent(s, rs);
    SendIsSilent(ReceiveLoop(s, rs), ss);
  }

  // PONGs, PINGs and close frames always fit, so whatever is queued does if the messages do.
  lemma {:induction false} LifeIsValid(s: Socket, es: seq<Event>)
    requires AllValid(s.queued) && ShortSends(es)
    ensures AllValid(HappenAll(s, es).queued)
    decreases |es|
  {
    if es == [] {
    } else {
      var e := es[0];
      assert e in es && forall x :: x in es[1..] ==> x in es;
      match e {
        case Send(m) => SendDataValid(s, OpcodeOf(m), m.bytes);
        case SendPing => SendDataValid(s, PING, []);
        case Shut => CloseValid(s);
        case DispatchNow => DispatchValid(s);
        case PollNow(rs, ss) => PollKeepsQueue(s, rs, ss);
      }
      LifeIsValid(Happen(s, e), es[1..]);
    }
  }

  // End to end: as long as no message of 2^63 bytes or more is sent, the other side, fed what
  // the network has accepted and later the rest, in any chunks, handles exactly the frames
  // that were queued.
  lemma OtherSideSeesQueue(useMask: bool, es: seq<Event>, r: Socket, chunks: seq<seq<byte>>)
    requires ShortSends(es)
    requires var s := HappenAll(Fresh(useMask), es); Flatten(chunks) == s.accepted + s.txbuf
    requires r.rxbuf == [] && !r.isRxBad
    ensures FeedAll(r, chunks) == HandleAll(r, HappenAll(Fresh(useMask), es).queued)
  {
    var s := HappenAll(Fresh(useMask), es);
    FreshIsConserved(useMask);
    LifeConserves(Fresh(useMask), es);
    LifeIsValid(Fresh(useMask), es);
    ChunksDoNotMatter(r, chunks);
    var full := Extend(r, Flatten(chunks));
    assert full.rxbuf == EncodeAll(s.queued) + [];
    DispatchFrames(full, s.queued, []);
    assert full.(rxbuf := []) == r;
  }
}
