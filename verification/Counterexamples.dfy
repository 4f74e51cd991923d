/** Concrete runs in which a property the transport is expected to have does not hold. */
module Counterexamples {
  import opened Basics
  import opened AsyncValues
  import opened Reorder
  import opened Transport
  import opened Link
  import opened Wakeup

  const HELLO: Packet := Packet(HANDSHAKE, 0, [])

  // An endpoint at the end of the handshake whose own handshake packet had to be resent, which collapsed the
  // window to 1, and has not been acknowledged yet.
  const FRESH: Endpoint :=
    Endpoint(
      Tx(1, map[0 := PacketLocal(0, HELLO)], ValueState(1.0, 0, [], [], []), 32.0, map[],
         ValueState(false, 0, [], [], []), map[], [Slot(HANDSHAKE, [], Some(HELLO))], {}, {}),
      Rx({0}, [], [], INITIAL_STREAM), Timer([], None), None, 0, {HELLO, Packet(ACK, 0, [])})

  const START: System := System(FRESH, FRESH)

  lemma StartIsInitial(open: Opener)
    ensures InitialSystem(open, START)
  {
  }

  // The same endpoint once its handshake packet is acknowledged: nothing in flight, a window of 2.
  ghost predicate Settled(e: Endpoint)
  {
    && e.tx.inFlight == map[] && e.tx.counter == 1 && e.tx.cwnd.value == 2.0 && e.tx.ssthresh == 32.0
    && e.tx.cwnd.waiters == [] && e.tx.calls == map[] && e.tx.failed == {} && e.tx.log == FRESH.tx.log
    && e.tx.drains == map[] && e.tx.drained.waiters == []
    && e.error.None? && e.sent == FRESH.sent && e.timer == FRESH.timer && e.rx == FRESH.rx
  }

  lemma HelloAcknowledged(open: Opener)
    ensures Settled(Act(open, FRESH, FRESH.sent, Deliver(Packet(ACK, 0, []), 0)))
  {
    assert FRESH.tx.inFlight - {0} == map[];
    assert Act(open, FRESH, FRESH.sent, Deliver(Packet(ACK, 0, []), 0)).tx == FRESH.tx.OnAck(0);
  }

  // What the sender looks like with exactly number 1 in flight.
  ghost predicate OneInFlight(e: Endpoint, body: Bytes)
  {
    && e.tx.inFlight.Keys == {1} && e.error.None? && Packet(DATA, 1, body) in e.sent
    && e.tx.cwnd.waiters == [] && e.tx.drains == map[] && e.tx.drained.waiters == [] && e.tx.failed == {}
  }

  lemma SendOnSettled(open: Opener, e: Endpoint, plain: Bytes, body: Bytes, inbox: set<Packet>)
    requires Settled(e) && SealsTo(open, plain, body) && |plain| <= PACKET_PAYLOAD_SIZE
    ensures OneInFlight(Act(open, e, inbox, Send(0, plain, Some(body), 0)), body)
  {
    assert Act(open, e, inbox, Send(0, plain, Some(body), 0)) == e.Admit(0, plain, Some(body), 0);
  }

  lemma EmptyRefused(open: Opener, body: Bytes, inbox: set<Packet>)
    requires Packet(DATA, 1, body) in inbox && |body| == CRYPT_OVERHEAD
    ensures var r := Act(open, FRESH, inbox, Deliver(Packet(DATA, 1, body), 0));
            Packet(ACK, 1, []) in r.sent && r.error == Some(DecryptFailed) && 1 !in r.rx.received
  {
    var r := Act(open, FRESH, inbox, Deliver(Packet(DATA, 1, body), 0));
    assert r == FRESH.Receive(open, Packet(DATA, 1, body), 0);
  }

  lemma AckOfOne(open: Opener, e: Endpoint, body: Bytes, inbox: set<Packet>)
    requires OneInFlight(e, body) && Packet(ACK, 1, []) in inbox
    ensures var r := Act(open, e, inbox, Deliver(Packet(ACK, 1, []), 0));
            && r.tx.inFlight == map[] && 1 in r.tx.acked && 1 !in r.tx.failed && r.error.None?
            && r.tx.drains == map[]
  {
    var r := Act(open, e, inbox, Deliver(Packet(ACK, 1, []), 0));
    assert r.tx == e.tx.OnAck(1);
    assert e.tx.inFlight - {1} == map[];
  }

  lemma DrainOnEmpty(open: Opener, e: Endpoint, inbox: set<Packet>)
    requires e.tx.inFlight == map[] && e.error.None? && e.tx.drains == map[]
    ensures Act(open, e, inbox, Drain(0)) == e.(tx := e.tx.(drains := map[0 := Answered(true)]))
  {
  }

  // An empty payload is acknowledged although the peer refuses it and stops: a drain then answers true while
  // the peer's transport does not hold the packet.
  lemma EmptyPayloadIsAckedNotHeld(open: Opener, body: Bytes)
    requires |body| == CRYPT_OVERHEAD
    ensures InitialSystem(open, START)
    ensures var events := [Event(A, Deliver(Packet(ACK, 0, []), 0)),
                           Event(A, Send(0, [], Some(body), 0)),
                           Event(B, Deliver(Packet(DATA, 1, body), 0)),
                           Event(A, Deliver(Packet(ACK, 1, []), 0)),
                           Event(A, Drain(0))];
            var s := Run(open, START, events);
            && s.a.tx.drains == map[0 := Answered(true)]
            && 1 in s.a.tx.acked && 1 !in s.a.tx.failed
            && 1 !in s.b.rx.received && s.b.error == Some(DecryptFailed)
  {
    hide Act, Step, InitialSystem;
    StartIsInitial(open);
    var e0, e1 := Event(A, Deliver(Packet(ACK, 0, []), 0)), Event(A, Send(0, [], Some(body), 0));
    var e2, e3 := Event(B, Deliver(Packet(DATA, 1, body), 0)), Event(A, Deliver(Packet(ACK, 1, []), 0));
    FourSteps(open, START, e0, e1, e2, e3);
    OneMore(open, START, [e0, e1, e2, e3], Event(A, Drain(0)));
    assert [e0, e1, e2, e3] + [Event(A, Drain(0))] == [e0, e1, e2, e3, Event(A, Drain(0))];
    EmptySteps(open, body);
  }

  lemma EmptySteps(open: Opener, body: Bytes)
    requires |body| == CRYPT_OVERHEAD
    ensures var s1 := Step(open, START, Event(A, Deliver(Packet(ACK, 0, []), 0)));
            var s2 := Step(open, s1, Event(A, Send(0, [], Some(body), 0)));
            var s3 := Step(open, s2, Event(B, Deliver(Packet(DATA, 1, body), 0)));
            var s4 := Step(open, s3, Event(A, Deliver(Packet(ACK, 1, []), 0)));
            var s5 := Step(open, s4, Event(A, Drain(0)));
            && s5.a.tx.drains == map[0 := Answered(true)]
            && 1 in s5.a.tx.acked && 1 !in s5.a.tx.failed
            && 1 !in s5.b.rx.received && s5.b.error == Some(DecryptFailed)
  {
    hide Act;
    HelloAcknowledged(open);
    var a1 := Act(open, FRESH, FRESH.sent, Deliver(Packet(ACK, 0, []), 0));
    SendOnSettled(open, a1, [], body, FRESH.sent);
    var a2 := Act(open, a1, FRESH.sent, Send(0, [], Some(body), 0));
    EmptyRefused(open, body, a2.sent);
    var b3 := Act(open, FRESH, a2.sent, Deliver(Packet(DATA, 1, body), 0));
    AckOfOne(open, a2, body, b3.sent);
    var a4 := Act(open, a2, b3.sent, Deliver(Packet(ACK, 1, []), 0));
    DrainOnEmpty(open, a4, b3.sent);
  }

  // A lost wakeup: two senders are parked behind the handshake packet, the one its ACK wakes fails to encrypt
  // and returns, and the other stays parked with nothing in flight and nobody left to wake it.
  lemma FailedSealLosesWakeup(open: Opener, plain: Bytes)
    requires |plain| <= PACKET_PAYLOAD_SIZE
    ensures InitialSystem(open, START)
    ensures var events := [Event(A, Send(0, plain, None, 0)),
                           Event(A, Send(1, plain, None, 0)),
                           Event(A, Deliver(Packet(ACK, 0, []), 0)),
                           Event(A, Resume(0, None, 0))];
            var e := Run(open, START, events).a;
            && e.tx.cwnd.waiters == [1] && e.tx.inFlight == map[] && !SomeWoken(e.tx) && e.error.None?
  {
    hide Act, Step, InitialSystem;
    StartIsInitial(open);
    FourSteps(open, START, Event(A, Send(0, plain, None, 0)), Event(A, Send(1, plain, None, 0)),
              Event(A, Deliver(Packet(ACK, 0, []), 0)), Event(A, Resume(0, None, 0)));
    StallSteps(open, plain);
  }

  lemma StallSteps(open: Opener, plain: Bytes)
    requires |plain| <= PACKET_PAYLOAD_SIZE
    ensures var s1 := Step(open, START, Event(A, Send(0, plain, None, 0)));
            var s2 := Step(open, s1, Event(A, Send(1, plain, None, 0)));
            var s3 := Step(open, s2, Event(A, Deliver(Packet(ACK, 0, []), 0)));
            var e := Step(open, s3, Event(A, Resume(0, None, 0))).a;
            && e.tx.cwnd.waiters == [1] && e.tx.inFlight == map[] && !SomeWoken(e.tx) && e.error.None?
  {
    hide Act;
    var a1 := Act(open, FRESH, FRESH.sent, Send(0, plain, None, 0));
    SendParks(open, FRESH, plain, 0, FRESH.sent);
    var a2 := Act(open, a1, FRESH.sent, Send(1, plain, None, 0));
    SendParks(open, a1, plain, 1, FRESH.sent);
    HelloAckWakes(open, a2, plain);
    var a3 := Act(open, a2, FRESH.sent, Deliver(Packet(ACK, 0, []), 0));
    FailedResume(open, a3, 0, FRESH.sent);
  }

  lemma SendParks(open: Opener, e: Endpoint, plain: Bytes, id: nat, inbox: set<Packet>)
    requires e.tx.inFlight == FRESH.tx.inFlight && e.tx.cwnd.value == 1.0 && e.error.None?
    requires id !in e.tx.calls && |plain| <= PACKET_PAYLOAD_SIZE
    ensures Act(open, e, inbox, Send(id, plain, None, 0)) == e.(tx := e.tx.Park(id, plain))
  {
  }

  lemma HelloAckWakes(open: Opener, e: Endpoint, plain: Bytes)
    requires e == FRESH.(tx := FRESH.tx.Park(0, plain).Park(1, plain))
    ensures var r := Act(open, e, FRESH.sent, Deliver(Packet(ACK, 0, []), 0));
            && r.tx.inFlight == map[] && r.error.None? && r.tx.cwnd.value == 2.0 && r.tx.cwnd.waiters == [1]
            && r.tx.calls == map[0 := Woken(plain), 1 := Parked(plain)]
  {
    assert FRESH.tx.inFlight - {0} == map[];
    assert Act(open, e, FRESH.sent, Deliver(Packet(ACK, 0, []), 0)).tx == e.tx.OnAck(0);
  }

  lemma FailedResume(open: Opener, e: Endpoint, id: nat, inbox: set<Packet>)
    requires id in e.tx.calls && e.tx.calls[id].Woken? && |e.tx.calls[id].plain| <= PACKET_PAYLOAD_SIZE
    requires e.error.None? && e.tx.inFlight == map[] && e.tx.cwnd.value >= 2.0
    ensures Act(open, e, inbox, Resume(id, None, 0)) ==
            e.(tx := e.tx.Refuse(id, e.tx.calls[id].plain, EncryptFailed))
  {
  }
}
