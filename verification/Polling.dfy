// What a poll does for any answers of recv and send, and what a whole life of polls and
// dispatches hands to the callback.
module Polling {
  import opened Basics
  import opened Frames
  import opened Endpoint
  import opened Outgoing

  // ---------------------------------------------------------- the two loops

  function Arrivals(chunks: seq<seq<byte>>): (rs: seq<Received>)
    ensures |rs| == |chunks| && forall k :: 0 <= k < |chunks| ==> rs[k] == Bytes(chunks[k])
  {
    if chunks == [] then [] else [Bytes(chunks[0])] + Arrivals(chunks[1..])
  }

  function Takes(counts: seq<nat>): (ss: seq<Sent>)
    ensures |ss| == |counts| && forall k :: 0 <= k < |counts| ==> ss[k] == Took(counts[k])
  {
    if counts == [] then [] else [Took(counts[0])] + Takes(counts[1..])
  }

  function Total(counts: seq<nat>): nat {
    if counts == [] then 0 else counts[0] + Total(counts[1..])
  }

  // Answers that end the receive loop, and those that end the send loop.
  predicate ReceiveEnds(rs: seq<Received>) {
    rs == [] || !rs[0].Bytes?
  }

  predicate SendEnds(ss: seq<Sent>) {
    ss == [] || !ss[0].Took? || ss[0].count == 0
  }

  // Any list of answers is some bytes, or some successful sends, and then an end.
  lemma {:induction false} SplitReceived(rs: seq<Received>) returns (chunks: seq<seq<byte>>, rest: seq<Received>)
    ensures rs == Arrivals(chunks) + rest && ReceiveEnds(rest)
  {
    if ReceiveEnds(rs) {
      chunks, rest := [], rs;
    } else {
      var more;
      more, rest := SplitReceived(rs[1..]);
      chunks := [rs[0].data] + more;
      assert chunks[1..] == more && rs == [rs[0]] + rs[1..];
    }
  }

  lemma {:induction false} SplitSent(ss: seq<Sent>) returns (counts: seq<nat>, rest: seq<Sent>)
    ensures ss == Takes(counts) + rest && SendEnds(rest)
    ensures forall k :: 0 <= k < |counts| ==> counts[k] > 0
  {
    if SendEnds(ss) {
      counts, rest := [], ss;
    } else {
      var more;
      more, rest := SplitSent(ss[1..]);
      counts := [ss[0].count] + more;
      assert counts[1..] == more && ss == [ss[0]] + ss[1..];
    }
  }

  // Everything that arrives before the end joins rxbuf in order; a lost connection closes it.
  lemma {:induction false} ReceiveMeaning(s: Socket, chunks: seq<seq<byte>>, rest: seq<Received>)
    requires ReceiveEnds(rest)
    ensures ReceiveLoop(s, Arrivals(chunks) + rest) ==
      s.(rxbuf := s.rxbuf + Flatten(chunks), readyState := if rest != [] && rest[0].Lost? then CLOSED else s.readyState)
    decreases |chunks|
  {
    if chunks == [] {
      assert Arrivals(chunks) + rest == rest && s.rxbuf + [] == s.rxbuf;
    } else {
      var rs := Arrivals(chunks) + rest;
      assert rs[0] == Bytes(chunks[0]) && rs[1..] == Arrivals(chunks[1..]) + rest;
      ReceiveMeaning(s.(rxbuf := s.rxbuf + chunks[0]), chunks[1..], rest);
      Reassociate(s.rxbuf, chunks[0], Flatten(chunks[1..]));
    }
  }

  function Least(a: nat, b: nat): nat {
    if a < b then a else b
  }

  // As many bytes go out, from the front of txbuf, as the answers take; an error that is
  // reached before txbuf is empty closes the connection.
  function Flushed(s: Socket, total: nat, rest: seq<Sent>): Socket {
    var n := Least(total, |s.txbuf|);
    var broken := total < |s.txbuf| && rest != [] && (rest[0].Failed? || rest[0] == Took(0));
    s.(txbuf := s.txbuf[n..], accepted := s.accepted + s.txbuf[..n],
       readyState := if broken then CLOSED else s.readyState)
  }

  lemma {:induction false} SendMeaning(s: Socket, counts: seq<nat>, rest: seq<Sent>)
    requires SendEnds(rest) && forall k :: 0 <= k < |counts| ==> counts[k] > 0
    ensures SendLoop(s, Takes(counts) + rest) == Flushed(s, Total(counts), rest)
    decreases |counts|
  {
    if counts == [] {
      assert Takes(counts) + rest == rest && s.accepted + [] == s.accepted;
    } else if s.txbuf == [] {
      assert s.accepted + [] == s.accepted;
    } else {
      var ss, c := Takes(counts) + rest, counts[0];
      assert ss[0] == Took(c) && ss[1..] == Takes(counts[1..]) + rest;
      assert forall k :: 0 <= k < |counts[1..]| ==> counts[1..][k] == counts[k + 1];
      SendMeaning(TakeOut(s, c), counts[1..], rest);
      SendTurn(s, ss);
      FlushOn(s, c, Total(counts[1..]), rest);
    }
  }

  lemma SendTurn(s: Socket, ss: seq<Sent>)
    requires s.txbuf != [] && ss != [] && ss[0].Took? && ss[0].count > 0
    ensures SendLoop(s, ss) == SendLoop(TakeOut(s, ss[0].count), ss[1..])
  {
  }

  lemma FlushOn(s: Socket, c: nat, m: nat, rest: seq<Sent>)
    ensures Flushed(TakeOut(s, c), m, rest) == Flushed(s, c + m, rest)
  {
    OneTake(s.txbuf, c, m, s.accepted);
  }

  // Taking c bytes and then m is taking c + m.
  lemma OneTake(buf: seq<byte>, c: nat, m: nat, accepted: seq<byte>)
    ensures var n := Least(c, |buf|);
      var k := Least(m, |buf| - n);
      && buf[n..][k..] == buf[Least(c + m, |buf|)..]
      && accepted + buf[..n] + buf[n..][..k] == accepted + buf[..Least(c + m, |buf|)]
  {
    var n := Least(c, |buf|);
    var k := Least(m, |buf| - n);
    assert Least(c + m, |buf|) == n + k;
    assert buf[..n] + buf[n..][..k] == buf[..n + k];
    Reassociate(accepted, buf[..n], buf[n..][..k]);
  }

  // A poll, completely: what was received, what was sent, and when the connection is closed.
  lemma PollMeaning(s: Socket, chunks: seq<seq<byte>>, rrest: seq<Received>, counts: seq<nat>, srest: seq<Sent>)
    requires !s.readyState.CLOSED? && ReceiveEnds(rrest) && SendEnds(srest)
    requires forall k :: 0 <= k < |counts| ==> counts[k] > 0
    ensures var t := Poll(s, Arrivals(chunks) + rrest, Takes(counts) + srest);
      var n := Least(Total(counts), |s.txbuf|);
      && t == s.(rxbuf := s.rxbuf + Flatten(chunks), txbuf := s.txbuf[n..],
                 accepted := s.accepted + s.txbuf[..n], readyState := t.readyState)
      && (t.readyState.CLOSED? <==>
            || (rrest != [] && rrest[0].Lost?)
            || (Total(counts) < |s.txbuf| && srest != [] && (srest[0].Failed? || srest[0] == Took(0)))
            || (s.readyState.CLOSING? && Total(counts) >= |s.txbuf|))
      && (!t.readyState.CLOSED? ==> t.readyState == s.readyState)
  {
    ReceiveMeaning(s, chunks, rrest);
    SendMeaning(ReceiveLoop(s, Arrivals(chunks) + rrest), counts, srest);
  }

  lemma PollWhenClosed(s: Socket, rs: seq<Received>, ss: seq<Sent>)
    requires s.readyState.CLOSED?
    ensures Poll(s, rs, ss) == s
  {
  }

  // ------------------------------------------------- what reaches the callback

  // The bytes each poll of a life receives, in order.
  function Polled(s: Socket, es: seq<Event>): seq<seq<byte>>
    decreases |es|
  {
    if es == [] then []
    else (if es[0].PollNow? then [Fetched(s, es[0].rs)] else []) + Polled(Happen(s, es[0]), es[1..])
  }

  // What a poll receives: nothing once the connection is closed.
  function Fetched(s: Socket, rs: seq<Received>): seq<byte> {
    if s.readyState.CLOSED? then [] else Leading(rs)
  }

  function Leading(rs: seq<Received>): seq<byte> {
    if ReceiveEnds(rs) then [] else rs[0].data + Leading(rs[1..])
  }

  // The messages the dispatches of a life hand over.
  function Delivered(s: Socket, es: seq<Event>): seq<seq<byte>>
    decreases |es|
  {
    if es == [] then []
    else (if es[0].DispatchNow? then Dispatch(s).calls else []) + Delivered(Happen(s, es[0]), es[1..])
  }

  // The same to the decoder.
  predicate SameInput(s: Socket, t: Socket) {
    s.rxbuf == t.rxbuf && s.receivedData == t.receivedData && s.isRxBad == t.isRxBad
  }

  lemma HandleSameInput(s: Socket, t: Socket, f: Frame)
    requires SameInput(s, t)
    ensures SameInput(Handle(s, f).socket, Handle(t, f).socket) && Handle(s, f).calls == Handle(t, f).calls
  {
  }

  // What is sent, and whether the connection is closing, makes no difference to the decoder.
  lemma {:induction false} DispatchSameInput(s: Socket, t: Socket)
    requires SameInput(s, t)
    ensures SameInput(Dispatch(s).socket, Dispatch(t).socket) && Dispatch(s).calls == Dispatch(t).calls
    decreases |s.rxbuf|
  {
    if s.isRxBad || !Parse(s.rxbuf).Got? {
    } else {
      var f, size := Parse(s.rxbuf).frame, Parse(s.rxbuf).size;
      var s1, t1 := s.(rxbuf := s.rxbuf[size..]), t.(rxbuf := t.rxbuf[size..]);
      HandleSameInput(s1, t1, f);
      HandleRx(s1, f, []);
      DispatchSameInput(Handle(s1, f).socket, Handle(t1, f).socket);
    }
  }

  lemma PollInput(s: Socket, rs: seq<Received>, ss: seq<Sent>)
    ensures SameInput(Poll(s, rs, ss), Extend(s, Fetched(s, rs)))
  {
    if s.readyState.CLOSED? {
      assert s.rxbuf + [] == s.rxbuf;
    } else {
      ReceiveInput(s, rs);
      SendInput(ReceiveLoop(s, rs), ss);
    }
  }

  lemma {:induction false} ReceiveInput(s: Socket, rs: seq<Received>)
    ensures SameInput(ReceiveLoop(s, rs), Extend(s, Leading(rs)))
    decreases |rs|
  {
    if ReceiveEnds(rs) {
      assert s.rxbuf + [] == s.rxbuf;
    } else {
      ReceiveInput(s.(rxbuf := s.rxbuf + rs[0].data), rs[1..]);
      Reassociate(s.rxbuf, rs[0].data, Leading(rs[1..]));
    }
  }

  lemma {:induction false} SendInput(s: Socket, ss: seq<Sent>)
    ensures SameInput(SendLoop(s, ss), s)
    decreases |ss|
  {
    if s.txbuf == [] || SendEnds(ss) {
    } else {
      SendInput(TakeOut(s, ss[0].count), ss[1..]);
    }
  }

  lemma AfterDispatch(s: Socket, bytes: seq<byte>, later: seq<seq<byte>>, last: seq<seq<byte>>)
    requires later + last == Feed(Dispatch(s).socket, bytes).calls
    ensures Dispatch(s).calls + later + last == Feed(s, bytes).calls
  {
    DispatchExtend(s, bytes);
    Reassociate(Dispatch(s).calls, later, last);
  }

  lemma AfterPoll(s: Socket, rs: seq<Received>, ss: seq<Sent>, bytes: seq<byte>)
    ensures Feed(Poll(s, rs, ss), bytes).calls == Feed(s, Fetched(s, rs) + bytes).calls
  {
    PollInput(s, rs, ss);
    Reassociate(s.rxbuf, Fetched(s, rs), bytes);
    DispatchSameInput(Extend(Poll(s, rs, ss), bytes), Extend(s, Fetched(s, rs) + bytes));
  }

  // However polls and dispatches alternate, and whatever is sent or closed in between, what is
  // handed over and what a last dispatch would hand over is what the polled bytes contain.
  lemma {:induction false} LifeDelivers(s: Socket, es: seq<Event>)
    ensures Delivered(s, es) + Dispatch(HappenAll(s, es)).calls == Feed(s, Flatten(Polled(s, es))).calls
    decreases |es|
  {
    if es == [] {
      assert s.rxbuf + [] == s.rxbuf;
    } else {
      var s1, rest := Happen(s, es[0]), Polled(Happen(s, es[0]), es[1..]);
      var later, last := Delivered(s1, es[1..]), Dispatch(HappenAll(s, es)).calls;
      LifeDelivers(s1, es[1..]);
      assert [] + rest == rest && [] + later == later;
      match es[0] {
        case DispatchNow =>
          AfterDispatch(s, Flatten(rest), later, last);
        case PollNow(rs, ss) =>
          AfterPoll(s, rs, ss, Flatten(rest));
          assert ([Fetched(s, rs)] + rest)[1..] == rest;
        case _ =>
          DispatchSameInput(Extend(s1, Flatten(rest)), Extend(s, Flatten(rest)));
      }
    }
  }

  // Once everything polled has been dispatched, the callbacks of a life are those of feeding
  // the polled chunks one by one.
  lemma LifeFeeds(s: Socket, es: seq<Event>)
    requires Settled(s)
    ensures Delivered(s, es + [DispatchNow]) == FeedAll(s, Polled(s, es)).calls
  {
    LifeDelivers(s, es);
    DispatchLast(s, es);
    ChunksDoNotMatter(s, Polled(s, es));
  }

  lemma {:induction false} DispatchLast(s: Socket, es: seq<Event>)
    ensures Delivered(s, es + [DispatchNow]) == Delivered(s, es) + Dispatch(HappenAll(s, es)).calls
    decreases |es|
  {
    if es == [] {
      assert [] + [DispatchNow] == [DispatchNow] && [DispatchNow][1..] == [];
      assert Dispatch(s).calls + [] == Dispatch(s).calls == [] + Dispatch(s).calls;
    } else {
      assert (es + [DispatchNow])[0] == es[0] && (es + [DispatchNow])[1..] == es[1..] + [DispatchNow];
      DispatchLast(Happen(s, es[0]), es[1..]);
      var first := if es[0].DispatchNow? then Dispatch(s).calls else [];
      Reassociate(first, Delivered(Happen(s, es[0]), es[1..]), Dispatch(HappenAll(s, es)).calls);
    }
  }

  // Two lives, end to end: a receiver that has polled all that a sender accepted or still
  // holds hands over the messages made up by the frames the sender queued.
  lemma LivesConnect(useMask: bool, es: seq<Event>, r: Socket, er: seq<Event>)
    requires ShortSends(es) && r.rxbuf == [] && r.receivedData == [] && !r.isRxBad
    requires var s := HappenAll(Fresh(useMask), es); Flatten(Polled(r, er)) == s.accepted + s.txbuf
    ensures Delivered(r, er + [DispatchNow]) == Assembled([], HappenAll(Fresh(useMask), es).queued)
  {
    LifeFeeds(r, er);
    OtherSideSeesQueue(useMask, es, r, Polled(r, er));
    AnyFrames(r, HappenAll(Fresh(useMask), es).queued);
  }
}
