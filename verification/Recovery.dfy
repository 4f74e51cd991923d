/** From every state that has lost nothing, resending delivers everything, whatever the network has forgotten. */
module Recovery {
  import opened Basics
  import opened Reorder
  import opened Transport
  import opened Link
  import opened Delivery
  import opened Progress
  import opened Resending

  // Nothing that has reached the peer is lost or doomed: what its stream took and what still waits in its queue
  // stays within the window, and leaves room in the buffer for the next number expected.
  ghost predicate Recoverable(rx: Rx)
  {
    Lossless(Arrivals(Entered(rx))) && !CapReached(Feed(Arrivals(Entered(rx))))
  }

  // Every datagram in flight was handed to the socket.
  ghost predicate FlightSent(e: Endpoint)
  {
    forall k :: k in e.tx.inFlight ==> e.tx.inFlight[k].packet in e.sent
  }

  lemma WakesKeepFlight(e: Endpoint, error: Error, sequence: nat, id: nat)
    ensures e.Fail(error).tx.inFlight == e.tx.inFlight
    ensures e.tx.OnSendError(id, sequence).inFlight == e.tx.inFlight - {sequence}
  {
  }

  lemma ActKeepsSent(open: Opener, e: Endpoint, inbox: set<Packet>, action: Action)
    requires FlightSent(e)
    ensures FlightSent(Act(open, e, inbox, action))
  {
    if Enabled(open, e, inbox, action) {
      match action
      case Deliver(packet, now) =>
        ReceiveOnlyRemoves(open, e, packet, now);
        SentGrows(open, e, inbox, action);
      case SendError(id) => WakesKeepFlight(e, NetworkError, e.tx.calls[id].sequence, id);
      case Scan(_, _) => WakesKeepFlight(e, IdleTimeout, 0, 0);
      case ResendError => WakesKeepFlight(e, NetworkError, 0, 0);
      case _ =>
    }
  }

  lemma {:induction false} RunKeepsSent(open: Opener, start: System, events: seq<Event>, side: Side)
    requires InitialSystem(open, start)
    ensures FlightSent(Run(open, start, events).At(side))
  {
    if events != [] {
      hide Act, FlightSent;
      var before, event := Run(open, start, events[..|events| - 1]), events[|events| - 1];
      RunKeepsSent(open, start, events[..|events| - 1], side);
      if event.side == side {
        ActKeepsSent(open, before.At(side), before.At(Peer(side)).sent, event.action);
      }
    }
  }

  // Both ends are up, no send failed, and every payload submitted can be opened.
  ghost predicate Healthy(s: System, side: Side)
  {
    && s.At(side).error.None? && s.At(Peer(side)).error.None? && s.At(side).tx.failed == {}
    && forall k :: 1 <= k < |s.At(side).tx.log| ==> s.At(side).tx.log[k].plain != []
  }

  // Extending a run

  lemma ReachesMore(open: Opener, start: System, events: seq<Event>, more: seq<Event>)
    requires InitialSystem(open, start) && InRangeSystem(Run(open, Run(open, start, events), more))
    ensures Reaches(open, start, events + more)
    ensures Run(open, start, events + more) == Run(open, Run(open, start, events), more)
  {
    RunConcat(open, start, events, more);
  }

  // The peer's stream takes the next packet of its queue.
  lemma TakeStepped(open: Opener, start: System, events: seq<Event>, side: Side)
    requires Reaches(open, start, events) && Healthy(Run(open, start, events), side)
    requires Run(open, start, events).At(Peer(side)).rx.queue != []
    ensures var s, t := Run(open, start, events), Run(open, start, events + [Event(Peer(side), Take)]);
            && Reaches(open, start, events + [Event(Peer(side), Take)])
            && t.At(side) == s.At(side) && t.At(Peer(side)).error == s.At(Peer(side)).error
            && t.At(Peer(side)).rx.queue == s.At(Peer(side)).rx.queue[1..]
            && Entered(t.At(Peer(side)).rx) == Entered(s.At(Peer(side)).rx)
  {
    hide InitialSystem, Run, Accept;
    var s := Run(open, start, events);
    OneMore(open, start, events, Event(Peer(side), Take));
    var e := s.At(Peer(side));
    assert Act(open, e, s.At(side).sent, Take) == e.Take();
    assert e.rx.taken + [e.rx.queue[0]] + e.rx.queue[1..] == e.rx.taken + e.rx.queue;
  }

  // A packet in flight reaches the peer and its ACK comes back.
  function Exchange(side: Side, p: Packet, now: int): seq<Event>
  {
    [Event(Peer(side), Deliver(p, now)), Event(side, Deliver(Packet(ACK, p.sequence, []), now))]
  }

  lemma ArrivalOnPeer(open: Opener, r: Endpoint, inbox: set<Packet>, p: Packet, plain: Bytes, now: int)
    requires r.error.None? && p in inbox && (p.kind == DATA || p.kind == HANDSHAKE) && |p.body| <= PACKET_SIZE
    requires p.kind == HANDSHAKE ==> p.sequence in r.rx.received
    requires p.kind == DATA ==> plain != [] && SealsTo(open, plain, p.body)
    ensures var q := Act(open, r, inbox, Deliver(p, now));
            && q.error.None? && Packet(ACK, p.sequence, []) in q.sent && q.tx.log == r.tx.log
            && q.rx == if p.sequence in r.rx.received then r.rx
                       else r.rx.(received := r.rx.received + {p.sequence},
                                  queue := r.rx.queue + [Packet(DATA, p.sequence, plain)])
  {
    assert Act(open, r, inbox, Deliver(p, now)) == r.Receive(open, p, now);
  }

  lemma AckOnSender(open: Opener, e: Endpoint, inbox: set<Packet>, k: nat, now: int)
    requires e.error.None? && Packet(ACK, k, []) in inbox
    ensures var r := Act(open, e, inbox, Deliver(Packet(ACK, k, []), now));
            && r.error.None? && r.tx.inFlight == e.tx.inFlight - {k}
            && r.tx.log == e.tx.log && r.tx.failed == e.tx.failed
  {
    ReceiveOnlyRemoves(open, e, Packet(ACK, k, []), now);
    WakesKeepLedgers(e.tx, k);
    assert Act(open, e, inbox, Deliver(Packet(ACK, k, []), now)) == e.Receive(open, Packet(ACK, k, []), now);
  }

  lemma WakesKeepLedgers(tx: Tx, k: nat)
    ensures tx.OnAck(k).log == tx.log && tx.OnAck(k).failed == tx.failed
  {
  }

  lemma Exchanged(open: Opener, start: System, events: seq<Event>, side: Side, k: nat, now: int)
    requires Reaches(open, start, events) && Healthy(Run(open, start, events), side)
    requires k in Run(open, start, events).At(side).tx.inFlight
    ensures var s := Run(open, start, events);
            var p := s.At(side).tx.inFlight[k].packet;
            var t := Run(open, start, events + Exchange(side, p, now));
            && k < |s.At(side).tx.log|
            && Reaches(open, start, events + Exchange(side, p, now)) && Healthy(t, side)
            && t.At(side).tx.log == s.At(side).tx.log
            && t.At(side).tx.inFlight == s.At(side).tx.inFlight - {k}
            && t.At(Peer(side)).rx == (if k in s.At(Peer(side)).rx.received then s.At(Peer(side)).rx
                                       else s.At(Peer(side)).rx.(
                                              received := s.At(Peer(side)).rx.received + {k},
                                              queue := s.At(Peer(side)).rx.queue
                                                       + [Packet(DATA, k, s.At(side).tx.log[k].plain)]))
  {
    hide InitialSystem, Run, Act, SealsTo;
    var s := Run(open, start, events);
    var e, r, p := s.At(side), s.At(Peer(side)), s.At(side).tx.inFlight[k].packet;
    LinkOf(open, start, events, side);
    RunKeepsSent(open, start, events, side);
    assert Recorded(e.tx.log, p) && SlotOk(open, e.tx.log[k], k);
    ArrivalOnPeer(open, r, e.sent, p, e.tx.log[k].plain, now);
    var q := Act(open, r, e.sent, Deliver(p, now));
    AckOnSender(open, e, q.sent, k, now);
    TwoSteps(open, s, side, p, now);
    ReachesMore(open, start, events, Exchange(side, p, now));
  }

  lemma TwoSteps(open: Opener, s: System, side: Side, p: Packet, now: int)
    ensures var q := Act(open, s.At(Peer(side)), s.At(side).sent, Deliver(p, now));
            var t := Run(open, s, Exchange(side, p, now));
            && t.At(Peer(side)) == q
            && t.At(side) == Act(open, s.At(side), q.sent, Deliver(Packet(ACK, p.sequence, []), now))
  {
    hide Act;
    var e0, e1 := Event(Peer(side), Deliver(p, now)), Event(side, Deliver(Packet(ACK, p.sequence, []), now));
    OneMore(open, s, [], e0);
    OneMore(open, s, [e0], e1);
    assert [] + [e0] == [e0] && [e0] + [e1] == [e0, e1];
  }

  // Choosing what to deliver next

  // If everything that arrived has been taken and nothing was lost, the number expected is the first the peer
  // does not have.
  lemma ExpectedIsMissing(log: seq<Slot>, rx: Rx)
    requires QueueOk(log, rx) && StreamOk(log, rx) && |log| <= SEQUENCE_LIMIT
    requires rx.queue == [] && Lossless(Arrivals(rx.taken))
    ensures rx.stream.expected !in rx.received
  {
    assert Entered(rx) == rx.taken;
    TakenNumbered(log, rx);
    FeedRefinesSet(Arrivals(rx.taken));
    var e := rx.stream.expected;
    if e in rx.received {
      ReceivedEntered(log, rx, e);
      var i :| 0 <= i < |rx.taken| && rx.taken[i] == Packet(DATA, e, log[e].plain);
      TakenArrived(rx.taken, i);
    }
  }

  // Taking the number expected never fires the reset if there was room, and leaves room.
  lemma ExpectedLeavesRoom(s: Stream, payload: Bytes)
    requires InWindow(s) && !CapReached(s) && s.expected < SEQUENCE_LIMIT
    ensures !Loses(s, s.expected) && !CapReached(Accept(s, s.expected, payload))
  {
    AcceptFlushes(s, s.expected, payload);
    var r := Accept(s, s.expected, payload);
    assert r.buffer.Keys <= s.buffer.Keys;
    SubsetSize(r.buffer.Keys, s.buffer.Keys);
    assert |r.buffer.Keys| == |r.buffer| && |s.buffer.Keys| == |s.buffer|;
  }

  lemma NextStaysRecoverable(log: seq<Slot>, rx: Rx, plain: Bytes)
    requires QueueOk(log, rx) && StreamOk(log, rx) && rx.queue == [] && Recoverable(rx)
    requires rx.stream.expected < SEQUENCE_LIMIT
    ensures var e := rx.stream.expected;
            Recoverable(rx.(received := rx.received + {e}, queue := [Packet(DATA, e, plain)]))
  {
    var e, arrivals := rx.stream.expected, Arrivals(rx.taken);
    assert Entered(rx) == rx.taken;
    ArrivalsSnoc(rx.taken, Packet(DATA, e, plain));
    ExpectedLeavesRoom(rx.stream, plain);
    assert (arrivals + [Arrival(e, plain)])[..|arrivals|] == arrivals;
  }

  // A number not yet received is in flight.
  lemma MissingIsInFlight(open: Opener, start: System, events: seq<Event>, side: Side, k: nat)
    requires Reaches(open, start, events) && Healthy(Run(open, start, events), side)
    requires 1 <= k < |Run(open, start, events).At(side).tx.log|
    requires k !in Run(open, start, events).At(Peer(side)).rx.received
    ensures k in Run(open, start, events).At(side).tx.inFlight
  {
    AckSoundness(open, start, events, side, k);
  }

  // The states of a continuation `done` of the run `past`, which lives on its own datagrams: everything in flight
  // has been sent again, and nothing is lost.
  ghost predicate UnderWay(open: Opener, start: System, past: seq<Event>, done: seq<Event>, side: Side, now: int)
  {
    && Reaches(open, start, past + done) && Healthy(Run(open, start, past + done), side)
    && Recoverable(Run(open, start, past + done).At(Peer(side)).rx)
    && Fresh(open, Run(open, start, past), done, now)
    && Run(open, start, past + done) == Run(open, Run(open, start, past), done)
    && FlightEmitted(open, Run(open, start, past), done, side)
  }

  lemma TakeGoesOn(open: Opener, start: System, past: seq<Event>, done: seq<Event>, side: Side, now: int)
    requires UnderWay(open, start, past, done, side, now)
    requires Run(open, start, past + done).At(Peer(side)).rx.queue != []
    ensures var next := done + [Event(Peer(side), Take)];
            var s, t := Run(open, start, past + done), Run(open, start, past + next);
            && UnderWay(open, start, past, next, side, now)
            && t.At(side) == s.At(side) && |t.At(Peer(side)).rx.queue| < |s.At(Peer(side)).rx.queue|
  {
    hide Run, InitialSystem, Recoverable, Healthy, InRangeSystem, Fresh, Emitted;
    var take := Event(Peer(side), Take);
    var s0 := Run(open, start, past);
    TakeStepped(open, start, past + done, side);
    StillGood(Run(open, start, past + done), Run(open, start, past + done + [take]), side);
    FreshMore(open, s0, done, take, now);
    RunConcat(open, start, past, done + [take]);
    assert past + done + [take] == past + (done + [take]);
  }

  lemma AckIsEmitted(open: Opener, s: System, side: Side, p: Packet, now: int)
    requires s.At(Peer(side)).error.None? && p in s.At(side).sent
    requires (p.kind == DATA || p.kind == HANDSHAKE) && |p.body| <= PACKET_SIZE
    ensures Packet(ACK, p.sequence, []) in Emits(open, s, Event(Peer(side), Deliver(p, now)))
  {
    DeliveryAcknowledges(open, s.At(Peer(side)).(sent := {}), s.At(side).sent, p, now);
  }

  lemma ExchangeIsFresh(open: Opener, s: System, done: seq<Event>, side: Side, p: Packet, now: int)
    requires Fresh(open, s, done, now) && p in Emitted(open, s, done, side)
    requires Run(open, s, done).At(Peer(side)).error.None? && p in Run(open, s, done).At(side).sent
    requires (p.kind == DATA || p.kind == HANDSHAKE) && |p.body| <= PACKET_SIZE
    ensures Fresh(open, s, done + Exchange(side, p, now), now)
    ensures Emitted(open, s, done, side) <= Emitted(open, s, done + Exchange(side, p, now), side)
  {
    hide Run, Fresh, Emitted, Emits;
    var arrive := Event(Peer(side), Deliver(p, now));
    var answer := Event(side, Deliver(Packet(ACK, p.sequence, []), now));
    FreshMore(open, s, done, arrive, now);
    AckIsEmitted(open, Run(open, s, done), side, p, now);
    FreshMore(open, s, done + [arrive], answer, now);
    assert done + [arrive] + [answer] == done + Exchange(side, p, now);
  }

  lemma ExchangeGoesOn(open: Opener, start: System, past: seq<Event>, done: seq<Event>, side: Side, k: nat, now: int)
    requires UnderWay(open, start, past, done, side, now)
    requires var s := Run(open, start, past + done);
             && s.At(Peer(side)).rx.queue == [] && k in s.At(side).tx.inFlight
             && (k in s.At(Peer(side)).rx.received || k == s.At(Peer(side)).rx.stream.expected)
    ensures var s := Run(open, start, past + done);
            var next := done + Exchange(side, s.At(side).tx.inFlight[k].packet, now);
            var t := Run(open, start, past + next);
            && UnderWay(open, start, past, next, side, now)
            && t.At(side).tx.log == s.At(side).tx.log && t.At(side).tx.inFlight == s.At(side).tx.inFlight - {k}
  {
    hide Run, InitialSystem, Recoverable, InRangeSystem, Fresh, Emitted, Exchange;
    var s := Run(open, start, past + done);
    var p := s.At(side).tx.inFlight[k].packet;
    Exchanged(open, start, past + done, side, k, now);
    ExchangeIsRecoverable(open, start, past + done, side, k, now);
    FlightIsGood(open, start, past + done, side, k);
    ExchangeIsFresh(open, Run(open, start, past), done, side, p, now);
    RunConcat(open, start, past, done + Exchange(side, p, now));
    assert past + done + Exchange(side, p, now) == past + (done + Exchange(side, p, now));
  }

  lemma FlightIsGood(open: Opener, start: System, events: seq<Event>, side: Side, k: nat)
    requires Reaches(open, start, events) && k in Run(open, start, events).At(side).tx.inFlight
    ensures var p := Run(open, start, events).At(side).tx.inFlight[k].packet;
            && (p.kind == DATA || p.kind == HANDSHAKE) && |p.body| <= PACKET_SIZE
            && p in Run(open, start, events).At(side).sent
  {
    hide Run, InitialSystem;
    var e := Run(open, start, events).At(side);
    LinkOf(open, start, events, side);
    RunKeepsSent(open, start, events, side);
    assert Recorded(e.tx.log, e.tx.inFlight[k].packet) && SlotOk(open, e.tx.log[k], k);
  }

  // What is in flight can be delivered, the number the peer waits for first, until nothing is.
  lemma {:induction false} CanFinish(open: Opener, start: System, past: seq<Event>, done: seq<Event>, side: Side,
                                     now: int) returns (all: seq<Event>)
    requires UnderWay(open, start, past, done, side, now)
    ensures UnderWay(open, start, past, all, side, now)
    ensures var s, t := Run(open, start, past + done), Run(open, start, past + all);
            && t.At(side).tx.log == s.At(side).tx.log
            && t.At(side).tx.inFlight == map[] && t.At(Peer(side)).rx.queue == []
    decreases |Run(open, start, past + done).At(side).tx.inFlight|,
              |Run(open, start, past + done).At(Peer(side)).rx.queue|
  {
    hide Run, UnderWay, Exchange;
    var s := Run(open, start, past + done);
    if s.At(Peer(side)).rx.queue != [] {
      TakeGoesOn(open, start, past, done, side, now);
      all := CanFinish(open, start, past, done + [Event(Peer(side), Take)], side, now);
    } else if s.At(side).tx.inFlight != map[] {
      ReallyUnderWay(open, start, past, done, side, now);
      var k := Choose(open, start, past + done, side);
      ExchangeGoesOn(open, start, past, done, side, k, now);
      SmallerTable(s.At(side).tx.inFlight, k);
      all := CanFinish(open, start, past, done + Exchange(side, s.At(side).tx.inFlight[k].packet, now), side, now);
    } else {
      all := done;
    }
  }

  lemma ReallyUnderWay(open: Opener, start: System, past: seq<Event>, done: seq<Event>, side: Side, now: int)
    requires UnderWay(open, start, past, done, side, now)
    ensures Reaches(open, start, past + done) && Healthy(Run(open, start, past + done), side)
    ensures Recoverable(Run(open, start, past + done).At(Peer(side)).rx)
    ensures Fresh(open, Run(open, start, past), done, now)
  {
  }

  lemma SmallerTable(inFlight: map<nat, PacketLocal>, k: nat)
    requires k in inFlight
    ensures |inFlight - {k}| < |inFlight|
  {
    assert |(inFlight - {k}).Keys| == |inFlight - {k}| && |inFlight.Keys| == |inFlight|;
    assert (inFlight - {k}).Keys == inFlight.Keys - {k};
  }

  lemma StillGood(s: System, t: System, side: Side)
    requires Healthy(s, side) && Recoverable(s.At(Peer(side)).rx)
    requires t.At(side) == s.At(side) && t.At(Peer(side)).error == s.At(Peer(side)).error
    requires Entered(t.At(Peer(side)).rx) == Entered(s.At(Peer(side)).rx)
    ensures Healthy(t, side) && Recoverable(t.At(Peer(side)).rx)
  {
  }

  // The number the peer waits for if it is out, else any in flight.
  lemma Choose(open: Opener, start: System, events: seq<Event>, side: Side) returns (k: nat)
    requires Reaches(open, start, events) && Healthy(Run(open, start, events), side)
    requires Recoverable(Run(open, start, events).At(Peer(side)).rx)
    requires Run(open, start, events).At(Peer(side)).rx.queue == []
    requires Run(open, start, events).At(side).tx.inFlight != map[]
    ensures var s := Run(open, start, events);
            && k in s.At(side).tx.inFlight
            && (k in s.At(Peer(side)).rx.received || k == s.At(Peer(side)).rx.stream.expected)
  {
    hide Run, InitialSystem;
    var s := Run(open, start, events);
    var log, rx := s.At(side).tx.log, s.At(Peer(side)).rx;
    LinkOf(open, start, events, side);
    assert Entered(rx) == rx.taken;
    ExpectedIsMissing(log, rx);
    if rx.stream.expected < |log| {
      k := rx.stream.expected;
      MissingIsInFlight(open, start, events, side, k);
    } else {
      k :| k in s.At(side).tx.inFlight;
      assert Recorded(log, s.At(side).tx.inFlight[k].packet);
      BelowExpectedIsReceived(log, rx, k);
    }
  }

  lemma BelowExpectedIsReceived(log: seq<Slot>, rx: Rx, k: nat)
    requires QueueOk(log, rx) && StreamOk(log, rx) && |log| <= SEQUENCE_LIMIT && k < rx.stream.expected
    ensures k in rx.received
  {
    TakenNumbered(log, rx);
    FeedIsSafe(Arrivals(rx.taken));
    if k != 0 {
      assert Releases(rx.stream.ready, k, FirstArrivals(Arrivals(rx.taken)));
      FirstArrivalsAre(Arrivals(rx.taken), k);
      var i :| 0 <= i < |Arrivals(rx.taken)| && Arrivals(rx.taken)[i].sequence == k;
      var j := ArrivalsAre(rx.taken, i);
      assert Entered(rx)[j] == rx.taken[j];
      assert EntryOk(log, rx.received, Entered(rx)[j]);
    }
  }

  lemma ExchangeIsRecoverable(open: Opener, start: System, events: seq<Event>, side: Side, k: nat, now: int)
    requires Reaches(open, start, events) && Healthy(Run(open, start, events), side)
    requires k in Run(open, start, events).At(side).tx.inFlight
    requires var rx := Run(open, start, events).At(Peer(side)).rx;
             Recoverable(rx) && rx.queue == [] && (k in rx.received || k == rx.stream.expected)
    ensures var p := Run(open, start, events).At(side).tx.inFlight[k].packet;
            Recoverable(Run(open, start, events + Exchange(side, p, now)).At(Peer(side)).rx)
  {
    hide Run, InitialSystem, Recoverable;
    var s := Run(open, start, events);
    LinkOf(open, start, events, side);
    Exchanged(open, start, events, side, k, now);
    if k !in s.At(Peer(side)).rx.received {
      NextStaysRecoverable(s.At(side).tx.log, s.At(Peer(side)).rx, s.At(side).tx.log[k].plain);
      assert s.At(Peer(side)).rx.queue + [Packet(DATA, k, s.At(side).tx.log[k].plain)]
          == [Packet(DATA, k, s.At(side).tx.log[k].plain)];
    }
  }

  // The pass leaves a state of that kind.
  lemma PassGetsUnderWay(open: Opener, start: System, events: seq<Event>, side: Side, now: int, order: seq<nat>)
    returns (pass: seq<Event>)
    requires Reaches(open, start, events) && Healthy(Run(open, start, events), side)
    requires Recoverable(Run(open, start, events).At(Peer(side)).rx)
    requires var e := Run(open, start, events).At(side);
             PassIsDue(e, now) && Lists(order, e.tx.inFlight.Keys)
    ensures UnderWay(open, start, events, pass, side, now)
    ensures Run(open, start, events + pass).At(side).tx.log == Run(open, start, events).At(side).tx.log
  {
    hide Run, InitialSystem, Recoverable, Fresh, Emitted, PassIsDue, Lists, FlightEmitted;
    var s := Run(open, start, events);
    pass := PassResendsAll(open, s, side, now, order);
    RunConcat(open, start, events, pass);
    InRangeStays(s, Run(open, s, pass), side);
  }

  lemma InRangeStays(s: System, t: System, side: Side)
    requires SameFlight(s, t, side) && InRangeSystem(s)
    ensures InRangeSystem(t)
  {
  }

  // Retransmission repairs everything. From every reachable state without errors in which nothing that arrived is
  // lost or must be, and in which a timeout pass is due, there is a continuation - of a resending pass, arrivals
  // and answers, all of them of datagrams sent in the continuation itself - after which every payload submitted
  // has been released: even if all datagrams sent so far are lost for good.
  lemma CanRelease(open: Opener, start: System, events: seq<Event>, side: Side, now: int, order: seq<nat>)
    returns (more: seq<Event>)
    requires Reaches(open, start, events) && Healthy(Run(open, start, events), side)
    requires Recoverable(Run(open, start, events).At(Peer(side)).rx)
    requires var e := Run(open, start, events).At(side);
             PassIsDue(e, now) && Lists(order, e.tx.inFlight.Keys)
    ensures Fresh(open, Run(open, start, events), more, now)
    ensures var s, t := Run(open, start, events), Run(open, start, events + more);
            && Reaches(open, start, events + more)
            && s.At(side).tx.log != [] && t.At(side).tx.log == s.At(side).tx.log
            && t.At(side).tx.inFlight == map[] && t.At(side).tx.failed == {} && t.At(Peer(side)).rx.queue == []
            && NothingLost(open, start, events + more, Peer(side))
            && t.At(Peer(side)).rx.stream.ready == Payloads(s.At(side).tx.log)
  {
    hide Run, InitialSystem, NothingLost, UnderWay, Fresh, PassIsDue, Lists;
    var pass := PassGetsUnderWay(open, start, events, side, now, order);
    more := CanFinish(open, start, events, pass, side, now);
    ReallyUnderWay(open, start, events, more, side, now);
    var rx := Run(open, start, events + more).At(Peer(side)).rx;
    assert Entered(rx) == rx.taken;
    NothingLostIff(open, start, events + more, Peer(side));
    EverythingIsReleased(open, start, events + more, side);
  }
}
