/** Runs in which the receiving stream loses packets it has acknowledged, and transfers too small for that. */
module Losses {
  import opened Basics
  import opened Reorder
  import opened Transport
  import opened Link
  import opened Delivery
  import opened Counterexamples
  import Congestion

  // Number 1 never arrives; 2 to n were sent, received, taken by the stream and acknowledged.
  ghost predicate Ahead(s: System, n: nat, body: Bytes)
  {
    && n >= 1 && SenderAhead(s.a, n, body) && ReceiverAhead(s.b, n)
  }

  ghost predicate SenderAhead(e: Endpoint, n: nat, body: Bytes)
  {
    && e.error.None? && e.tx.counter == |e.tx.log| == n + 1
    && e.tx.inFlight.Keys == {1} && Packet(DATA, 1, body) in e.sent
    && 2.0 <= e.tx.cwnd.value <= Congestion.MAX_CWND && e.tx.ssthresh >= 2.0 && e.tx.cwnd.waiters == []
    && (forall id :: id in e.tx.calls ==> id <= n)
    && (forall k :: 2 <= k <= n ==> k in e.tx.acked)
  }

  ghost predicate ReceiverAhead(e: Endpoint, n: nat)
  {
    && n >= 1 && e.error.None? && e.tx.log == FRESH.tx.log && e.rx.queue == []
    && (forall k :: k in e.rx.received ==> k == 0 || 2 <= k <= n)
    && e.rx.stream.expected == 1 && e.rx.stream.ready == []
    && e.rx.stream.buffer.Keys == Above(1, n - 1)
  }

  // One more packet overtakes number 1.
  function Overtake(k: nat, plain: Bytes, body: Bytes): seq<Event>
  {
    [Event(A, Send(k, plain, Some(body), 0)),
     Event(B, Deliver(Packet(DATA, k, body), 0)),
     Event(B, Take),
     Event(A, Deliver(Packet(ACK, k, []), 0))]
  }

  lemma SendAhead(open: Opener, e: Endpoint, n: nat, first: Bytes, plain: Bytes, body: Bytes, inbox: set<Packet>)
    requires SenderAhead(e, n, first) && n < SEQUENCE_LIMIT
    requires SealsTo(open, plain, body) && |plain| <= PACKET_PAYLOAD_SIZE
    ensures var r := Act(open, e, inbox, Send(n + 1, plain, Some(body), 0));
            && Packet(DATA, n + 1, body) in r.sent && r.sent == e.sent + {Packet(DATA, n + 1, body)}
            && r.error.None? && r.tx.counter == |r.tx.log| == n + 2
            && r.tx.inFlight.Keys == {1, n + 1}
            && r.tx.cwnd == e.tx.cwnd && r.tx.ssthresh == e.tx.ssthresh && r.tx.acked == e.tx.acked
            && r.tx.calls.Keys == e.tx.calls.Keys + {n + 1}
  {
    AheadHasRoom(open, e, n, first, plain, body, inbox);
    hide Act;
    assert Seal(plain, Some(body)) == Ok(body);
  }

  lemma AheadHasRoom(open: Opener, e: Endpoint, n: nat, first: Bytes, plain: Bytes, body: Bytes, inbox: set<Packet>)
    requires SenderAhead(e, n, first) && SealsTo(open, plain, body) && |plain| <= PACKET_PAYLOAD_SIZE
    ensures Act(open, e, inbox, Send(n + 1, plain, Some(body), 0)) == e.Admit(n + 1, plain, Some(body), 0)
  {
    hide Endpoint.Admit;
    assert |e.tx.inFlight.Keys| == |e.tx.inFlight|;
  }

  lemma DeliverAhead(open: Opener, e: Endpoint, n: nat, k: nat, plain: Bytes, body: Bytes, inbox: set<Packet>)
    requires ReceiverAhead(e, n) && (k == 1 || k == n + 1)
    requires Packet(DATA, k, body) in inbox && SealsTo(open, plain, body) && plain != []
    requires |plain| <= PACKET_PAYLOAD_SIZE
    ensures var r := Act(open, e, inbox, Deliver(Packet(DATA, k, body), 0));
            && r.error.None? && r.rx.queue == [Packet(DATA, k, plain)] && r.rx.stream == e.rx.stream
            && r.rx.received == e.rx.received + {k} && r.tx == e.tx && Packet(ACK, k, []) in r.sent
  {
    assert Act(open, e, inbox, Deliver(Packet(DATA, k, body), 0)) == e.Receive(open, Packet(DATA, k, body), 0);
  }

  // A packet above the gap is only buffered.
  lemma BufferedAhead(s: Stream, n: nat, plain: Bytes)
    requires 1 <= n <= WINDOW_SIZE && s.expected == 1 && s.ready == [] && s.buffer.Keys == Above(1, n - 1)
    ensures Accept(s, n + 1, plain) == Stream(s.buffer[n + 1 := plain], 1, [])
    ensures Accept(s, n + 1, plain).buffer.Keys == Above(1, n)
  {
    assert !CapReached(s) by {
      assert |s.buffer.Keys| == |s.buffer|;
    }
    assert Admitted(s, n + 1);
    hide Admitted, CapReached;
    FlushStops(Stream(s.buffer[n + 1 := plain], 1, []));
  }

  lemma FlushStops(s: Stream)
    requires s.expected !in s.buffer
    ensures Flush(s) == s
  {
  }

  lemma AboveMore(n: nat)
    requires n >= 1
    ensures Above(1, n) == Above(1, n - 1) + {n + 1}
  {
  }

  lemma TakeAhead(open: Opener, e: Endpoint, n: nat, plain: Bytes, inbox: set<Packet>)
    requires 1 <= n <= WINDOW_SIZE && e.error.None? && e.rx.queue == [Packet(DATA, n + 1, plain)]
    requires e.rx.stream.expected == 1 && e.rx.stream.ready == [] && e.rx.stream.buffer.Keys == Above(1, n - 1)
    requires e.tx.log == FRESH.tx.log && forall k :: k in e.rx.received ==> k == 0 || 2 <= k <= n + 1
    ensures ReceiverAhead(Act(open, e, inbox, Take), n + 1) && Act(open, e, inbox, Take).sent == e.sent
  {
    hide Accept, Above;
    BufferedAhead(e.rx.stream, n, plain);
    AboveMore(n);
    assert Act(open, e, inbox, Take) == e.Take();
  }

  lemma AckAhead(open: Opener, e: Endpoint, n: nat, body: Bytes, inbox: set<Packet>)
    requires e.error.None? && e.tx.counter == |e.tx.log| == n + 2 && n >= 1
    requires e.tx.inFlight.Keys == {1, n + 1} && Packet(DATA, 1, body) in e.sent
    requires 2.0 <= e.tx.cwnd.value <= Congestion.MAX_CWND && e.tx.ssthresh >= 2.0 && e.tx.cwnd.waiters == []
    requires forall id :: id in e.tx.calls ==> id <= n + 1
    requires forall k :: 2 <= k <= n ==> k in e.tx.acked
    requires Packet(ACK, n + 1, []) in inbox
    ensures SenderAhead(Act(open, e, inbox, Deliver(Packet(ACK, n + 1, []), 0)), n + 1, body)
  {
    var r := Act(open, e, inbox, Deliver(Packet(ACK, n + 1, []), 0));
    assert r.tx == e.tx.OnAck(n + 1);
    assert (e.tx.inFlight - {n + 1}).Keys == {1};
    Congestion.GrowNeverShrinks(e.tx.Window());
  }

  lemma OvertakeKeepsAhead(open: Opener, s: System, n: nat, first: Bytes, plain: Bytes, body: Bytes)
    requires Ahead(s, n, first) && n <= WINDOW_SIZE
    requires SealsTo(open, plain, body) && 0 < |plain| <= PACKET_PAYLOAD_SIZE
    ensures Ahead(Run(open, s, Overtake(n + 1, plain, body)), n + 1, first)
  {
    hide Act, Run, SealsTo;
    var k := n + 1;
    FourSteps(open, s, Event(A, Send(k, plain, Some(body), 0)), Event(B, Deliver(Packet(DATA, k, body), 0)),
              Event(B, Take), Event(A, Deliver(Packet(ACK, k, []), 0)));
    var a1 := Act(open, s.a, s.b.sent, Send(k, plain, Some(body), 0));
    SendAhead(open, s.a, n, first, plain, body, s.b.sent);
    var b1 := Act(open, s.b, a1.sent, Deliver(Packet(DATA, k, body), 0));
    DeliverAhead(open, s.b, n, k, plain, body, a1.sent);
    TakeAhead(open, b1, n, plain, a1.sent);
    AckAhead(open, a1, n, first, Act(open, b1, a1.sent, Take).sent);
  }

  // Number 1 is sent and stays in flight.
  function LoseFirst(plain: Bytes, body: Bytes): seq<Event>
  {
    [Event(A, Deliver(Packet(ACK, 0, []), 0)), Event(A, Send(1, plain, Some(body), 0))]
  }

  lemma FirstIsLost(open: Opener, plain: Bytes, body: Bytes)
    requires SealsTo(open, plain, body) && |plain| <= PACKET_PAYLOAD_SIZE
    ensures Ahead(Run(open, START, LoseFirst(plain, body)), 1, body)
  {
    hide Act;
    var e0, e1 := Event(A, Deliver(Packet(ACK, 0, []), 0)), Event(A, Send(1, plain, Some(body), 0));
    OneMore(open, START, [], e0);
    OneMore(open, START, [e0], e1);
    assert [] + [e0] == [e0] && [e0] + [e1] == [e0, e1];
    HelloAcknowledged(open);
    FirstSend(open, Act(open, FRESH, FRESH.sent, Deliver(Packet(ACK, 0, []), 0)), plain, body);
  }

  lemma FirstSend(open: Opener, e: Endpoint, plain: Bytes, body: Bytes)
    requires Settled(e) && SealsTo(open, plain, body) && |plain| <= PACKET_PAYLOAD_SIZE
    ensures SenderAhead(Act(open, e, FRESH.sent, Send(1, plain, Some(body), 0)), 1, body)
  {
    assert Seal(plain, Some(body)) == Ok(body);
    hide Act, Seal, SealsTo;
    SettledHasRoom(open, e, plain, body);
  }

  lemma SettledHasRoom(open: Opener, e: Endpoint, plain: Bytes, body: Bytes)
    requires Settled(e) && SealsTo(open, plain, body) && |plain| <= PACKET_PAYLOAD_SIZE
    ensures Act(open, e, FRESH.sent, Send(1, plain, Some(body), 0)) == e.Admit(1, plain, Some(body), 0)
  {
    hide Endpoint.Admit;
  }

  // The k-th payload and what it is sealed to.
  ghost predicate AllSealed(open: Opener, plains: nat -> Bytes, bodies: nat -> Bytes)
  {
    forall k :: SealsTo(open, plains(k), bodies(k)) && 0 < |plains(k)| <= PACKET_PAYLOAD_SIZE
  }

  lemma {:induction false} AheadIsReachable(open: Opener, n: nat, plains: nat -> Bytes, bodies: nat -> Bytes)
    returns (events: seq<Event>)
    requires AllSealed(open, plains, bodies) && 1 <= n <= WINDOW_SIZE + 1
    ensures Ahead(Run(open, START, events), n, bodies(1))
  {
    hide Ahead, Run, SealsTo;
    assert SealsTo(open, plains(n), bodies(n));
    if n == 1 {
      events := LoseFirst(plains(1), bodies(1));
      FirstIsLost(open, plains(1), bodies(1));
    } else {
      var before := AheadIsReachable(open, n - 1, plains, bodies);
      events := before + Overtake(n, plains(n), bodies(n));
      OvertakeKeepsAhead(open, Run(open, START, before), n - 1, bodies(1), plains(n), bodies(n));
      RunConcat(open, START, before, Overtake(n, plains(n), bodies(n)));
    }
  }

  // The reset can fire: with number 1 delayed, 2 to 65537 fill the buffer, each acknowledged, and then number 1
  // arrives.
  lemma ResetIsReachable(open: Opener, plains: nat -> Bytes, bodies: nat -> Bytes) returns (events: seq<Event>)
    requires AllSealed(open, plains, bodies)
    ensures Reaches(open, START, events)
    ensures var s := Run(open, START, events);
            && s.b.error.None? && s.b.rx.queue == [Packet(DATA, 1, plains(1))]
            && CapReached(s.b.rx.stream) && Admitted(s.b.rx.stream, 1)
            && forall k :: 2 <= k <= WINDOW_SIZE + 1 ==> k in s.a.tx.acked
  {
    hide Act, Run, SealsTo, InitialSystem;
    var n := WINDOW_SIZE + 1;
    var before := AheadIsReachable(open, n, plains, bodies);
    var s := Run(open, START, before);
    assert SealsTo(open, plains(1), bodies(1));
    events := before + [Event(B, Deliver(Packet(DATA, 1, bodies(1)), 0))];
    OneMore(open, START, before, Event(B, Deliver(Packet(DATA, 1, bodies(1)), 0)));
    DeliverAhead(open, s.b, n, 1, plains(1), bodies(1), s.a.sent);
    StartIsInitial(open);
    FullBuffer(s.b);
  }

  lemma FullBuffer(e: Endpoint)
    requires ReceiverAhead(e, WINDOW_SIZE + 1)
    ensures CapReached(e.rx.stream) && Admitted(e.rx.stream, 1)
  {
    assert |e.rx.stream.buffer.Keys| == |e.rx.stream.buffer|;
  }

  // The out-of-window drop can happen: with number 1 delayed, 65538 arrives.
  lemma DropIsReachable(open: Opener, plains: nat -> Bytes, bodies: nat -> Bytes) returns (events: seq<Event>)
    requires AllSealed(open, plains, bodies)
    ensures Reaches(open, START, events)
    ensures var e := Run(open, START, events).b;
            && e.error.None? && e.rx.queue == [Packet(DATA, WINDOW_SIZE + 2, plains(WINDOW_SIZE + 2))]
            && e.rx.stream.expected == 1
  {
    hide Act, Run, SealsTo, InitialSystem;
    var n := WINDOW_SIZE + 1;
    var before := AheadIsReachable(open, n, plains, bodies);
    var s := Run(open, START, before);
    var plain, body := plains(n + 1), bodies(n + 1);
    assert SealsTo(open, plain, body);
    var send, arrive := Event(A, Send(n + 1, plain, Some(body), 0)), Event(B, Deliver(Packet(DATA, n + 1, body), 0));
    events := before + [send] + [arrive];
    OneMore(open, START, before, send);
    OneMore(open, START, before + [send], arrive);
    SendAhead(open, s.a, n, bodies(1), plain, body, s.b.sent);
    DeliverAhead(open, s.b, n, n + 1, plain, body, Step(open, s, send).a.sent);
    StartIsInitial(open);
  }

  // Small transfers

  // If every number is at most 65536, no arrival can be out of the window or meet a full buffer.
  lemma {:induction false} SmallIsLossless(arrivals: seq<Arrival>)
    requires Numbered(arrivals) && forall i :: 0 <= i < |arrivals| ==> arrivals[i].sequence <= WINDOW_SIZE
    ensures Lossless(arrivals)
  {
    if arrivals != [] {
      hide Loses, Feed, FirstArrivals;
      var before, last := arrivals[..|arrivals| - 1], arrivals[|arrivals| - 1];
      SmallIsLossless(before);
      FeedIsSafe(before);
      var s := Feed(before);
      if s.expected + WINDOW_SIZE in s.buffer {
        FirstArrivalsAre(before, s.expected + WINDOW_SIZE);
      }
      SmallIsKept(s, last.sequence);
    }
  }

  lemma SmallIsKept(s: Stream, sequence: nat)
    requires InWindow(s) && s.expected + WINDOW_SIZE !in s.buffer && sequence <= WINDOW_SIZE
    ensures !Loses(s, sequence)
  {
    BufferFitsWindow(s);
    assert s.expected + WINDOW_SIZE !in s.buffer.Keys;
  }

  // A direction that has carried at most 65536 payloads loses nothing, in any run. The bound is sharp: with
  // 65537 the reset can fire.
  lemma SmallTransfersLoseNothing(open: Opener, start: System, events: seq<Event>, side: Side)
    requires Reaches(open, start, events)
    requires |Run(open, start, events).At(side).tx.log| <= WINDOW_SIZE + 1
    ensures NothingLost(open, start, events, Peer(side))
  {
    hide NothingLost;
    var s := Run(open, start, events);
    var log, rx := s.At(side).tx.log, s.At(Peer(side)).rx;
    LinkOf(open, start, events, side);
    NothingLostIff(open, start, events, Peer(side));
    TakenNumbered(log, rx);
    forall i | 0 <= i < |Arrivals(rx.taken)|
      ensures Arrivals(rx.taken)[i].sequence <= WINDOW_SIZE
    {
      var j := ArrivalsAre(rx.taken, i);
      assert EntryOk(log, rx.received, Entered(rx)[j]);
    }
    SmallIsLossless(Arrivals(rx.taken));
  }
}
