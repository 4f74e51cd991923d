/** Retransmission progress: nothing but a new send adds to the table, and a lossless timeout pass empties it. */
module Progress {
  import opened Basics
  import opened Transport
  import opened Link
  import opened Delivery
  import Congestion
  import Reorder
  import Wakeup

  lemma WakesKeepTable(tx: Tx)
    ensures tx.NotifyWindow().inFlight == tx.inFlight
    ensures tx.SignalDrained().inFlight == tx.inFlight
    ensures tx.NotifyWindow().SignalIfEmpty().inFlight == tx.inFlight
    ensures tx.NotifyWindow().SignalDrained().inFlight == tx.inFlight
  {
  }

  lemma ReceiveOnlyRemoves(open: Opener, e: Endpoint, p: Packet, now: int)
    ensures var r := e.Receive(open, p, now);
            r.tx.inFlight == if p.kind == ACK then e.tx.inFlight - {p.sequence} else e.tx.inFlight
  {
    WakesKeepTable(e.tx);
    if p.kind == ACK && p.sequence in e.tx.inFlight {
      WakesKeepTable(e.tx.(inFlight := e.tx.inFlight - {p.sequence}, acked := e.tx.acked + {p.sequence},
                           cwnd := e.tx.cwnd.Update(Congestion.Grow(e.tx.Window()).cwnd)));
    }
  }

  // With no new send, the set of packets in flight never grows, and each effective ACK takes exactly its
  // packet out of it.
  lemma WithoutSendsTableShrinks(open: Opener, e: Endpoint, inbox: set<Packet>, action: Action)
    requires !action.Send? && !action.Resume?
    ensures var r := Act(open, e, inbox, action);
            && r.tx.inFlight.Keys <= e.tx.inFlight.Keys
            && |r.tx.inFlight| <= |e.tx.inFlight|
            && (action.Deliver? && Enabled(open, e, inbox, action)
                && action.packet.kind == ACK && action.packet.sequence in e.tx.inFlight ==>
                  && r.tx.inFlight == e.tx.inFlight - {action.packet.sequence}
                  && |r.tx.inFlight| == |e.tx.inFlight| - 1)
  {
    var r := Act(open, e, inbox, action);
    TableShrinks(open, e, inbox, action);
    Reorder.SubsetSize(r.tx.inFlight.Keys, e.tx.inFlight.Keys);
    assert |r.tx.inFlight.Keys| == |r.tx.inFlight| && |e.tx.inFlight.Keys| == |e.tx.inFlight|;
    if action.Deliver? && Enabled(open, e, inbox, action) {
      ReceiveOnlyRemoves(open, e, action.packet, action.now);
      Wakeup.FewerInFlight(e.tx.inFlight, action.packet.sequence);
    }
  }

  lemma TableShrinks(open: Opener, e: Endpoint, inbox: set<Packet>, action: Action)
    requires !action.Send? && !action.Resume?
    ensures Act(open, e, inbox, action).tx.inFlight.Keys <= e.tx.inFlight.Keys
  {
    if Enabled(open, e, inbox, action) {
      match action
      case Deliver(packet, now) => ReceiveOnlyRemoves(open, e, packet, now);
      case SendError(id) =>
        var k := e.tx.calls[id].sequence;
        WakesKeepTable(e.tx.(inFlight := e.tx.inFlight - {k}, failed := e.tx.failed + {k},
                             calls := e.tx.calls[id := Returned(Some(NetworkError))]));
      case Scan(now, order) => WakesKeepTable(e.tx);
      case ResendError => WakesKeepTable(e.tx);
      case _ =>
    }
  }

  // Every interleaving

  // The i-th step delivers the datagram to the peer.
  ghost predicate ArrivesAt(open: Opener, s: System, events: seq<Event>, side: Side, p: Packet, i: nat)
    requires i < |events|
  {
    var t := Run(open, s, events[..i]);
    && events[i].side == Peer(side) && events[i].action.Deliver? && events[i].action.packet == p
    && Enabled(open, t.At(Peer(side)), t.At(side).sent, events[i].action)
  }

  // The i-th step brings an ACK of number k to an endpoint that still listens.
  ghost predicate AnsweredAt(open: Opener, s: System, events: seq<Event>, side: Side, k: nat, i: nat)
    requires i < |events|
  {
    && events[i].side == side && events[i].action.Deliver? && events[i].action.packet == Packet(ACK, k, [])
    && Run(open, s, events[..i]).At(side).error.None?
  }

  // The packet arrives and, at any later time, its ACK comes back.
  ghost predicate Answered(open: Opener, s: System, events: seq<Event>, side: Side, p: Packet)
  {
    exists i, j :: 0 <= i < j < |events|
      && ArrivesAt(open, s, events, side, p, i) && AnsweredAt(open, s, events, side, p.sequence, j)
  }

  predicate NoSends(events: seq<Event>, side: Side)
  {
    forall i :: 0 <= i < |events| && events[i].side == side ==> !events[i].action.Send? && !events[i].action.Resume?
  }

  lemma SentGrows(open: Opener, e: Endpoint, inbox: set<Packet>, action: Action)
    ensures e.sent <= Act(open, e, inbox, action).sent
  {
  }

  // Datagrams stay sent, and without sends nothing is added to the table.
  lemma {:induction false} BetweenSteps(open: Opener, s: System, events: seq<Event>, side: Side, i: nat, j: nat)
    requires i <= j <= |events|
    ensures Run(open, s, events[..i]).At(side).sent <= Run(open, s, events[..j]).At(side).sent
    ensures NoSends(events, side) ==>
              Run(open, s, events[..j]).At(side).tx.inFlight.Keys <= Run(open, s, events[..i]).At(side).tx.inFlight.Keys
    decreases j
  {
    hide Act;
    if i < j {
      BetweenSteps(open, s, events, side, i, j - 1);
      assert events[..j][..j - 1] == events[..j - 1] && events[..j][j - 1] == events[j - 1];
      var before, event := Run(open, s, events[..j - 1]), events[j - 1];
      if event.side == side {
        SentGrows(open, before.At(side), before.At(Peer(side)).sent, event.action);
        if NoSends(events, side) {
          TableShrinks(open, before.At(side), before.At(Peer(side)).sent, event.action);
        }
      }
    }
  }

  lemma DeliveryAcknowledges(open: Opener, r: Endpoint, inbox: set<Packet>, p: Packet, now: int)
    requires Enabled(open, r, inbox, Deliver(p, now))
    requires (p.kind == DATA || p.kind == HANDSHAKE) && |p.body| <= PACKET_SIZE
    ensures Packet(ACK, p.sequence, []) in Act(open, r, inbox, Deliver(p, now)).sent
  {
  }

  lemma AckRemoves(open: Opener, e: Endpoint, inbox: set<Packet>, k: nat, now: int)
    requires e.error.None? && Packet(ACK, k, []) in inbox
    ensures k !in Act(open, e, inbox, Deliver(Packet(ACK, k, []), now)).tx.inFlight
  {
    ReceiveOnlyRemoves(open, e, Packet(ACK, k, []), now);
  }

  lemma AnsweredLeaves(open: Opener, s: System, events: seq<Event>, side: Side, p: Packet)
    requires NoSends(events, side) && Answered(open, s, events, side, p)
    requires (p.kind == DATA || p.kind == HANDSHAKE) && |p.body| <= PACKET_SIZE
    ensures p.sequence !in Run(open, s, events).At(side).tx.inFlight
  {
    hide Run, ArrivesAt, AnsweredAt, NoSends;
    var i, j :| 0 <= i < j < |events|
      && ArrivesAt(open, s, events, side, p, i) && AnsweredAt(open, s, events, side, p.sequence, j);
    ArrivalAcknowledges(open, s, events, side, p, i);
    BetweenSteps(open, s, events, Peer(side), i + 1, j);
    AnswerRemoves(open, s, events, side, p.sequence, j);
    BetweenSteps(open, s, events, side, j + 1, |events|);
    assert events[..|events|] == events;
  }

  lemma ArrivalAcknowledges(open: Opener, s: System, events: seq<Event>, side: Side, p: Packet, i: nat)
    requires i < |events| && ArrivesAt(open, s, events, side, p, i)
    requires (p.kind == DATA || p.kind == HANDSHAKE) && |p.body| <= PACKET_SIZE
    ensures Packet(ACK, p.sequence, []) in Run(open, s, events[..i + 1]).At(Peer(side)).sent
  {
    hide Act, Enabled, Run;
    var t := Run(open, s, events[..i]);
    OneMore(open, s, events[..i], events[i]);
    assert events[..i] + [events[i]] == events[..i + 1];
    DeliveryAcknowledges(open, t.At(Peer(side)), t.At(side).sent, p, events[i].action.now);
  }

  lemma AnswerRemoves(open: Opener, s: System, events: seq<Event>, side: Side, k: nat, j: nat)
    requires j < |events| && AnsweredAt(open, s, events, side, k, j)
    requires Packet(ACK, k, []) in Run(open, s, events[..j]).At(Peer(side)).sent
    ensures k !in Run(open, s, events[..j + 1]).At(side).tx.inFlight
  {
    hide Act, Run;
    var t := Run(open, s, events[..j]);
    OneMore(open, s, events[..j], events[j]);
    assert events[..j] + [events[j]] == events[..j + 1];
    AckRemoves(open, t.At(side), t.At(Peer(side)).sent, k, events[j].action.now);
  }

  // Retransmission progress. From any reachable state, in every continuation that admits no new packet and in
  // which each packet in flight reaches the listening peer once more and later an ACK of it comes back - in any
  // order, at any times, with anything in between - nothing is left in flight, even if every ACK so far was
  // lost.
  lemma EveryPassDrains(open: Opener, start: System, events: seq<Event>, side: Side, more: seq<Event>)
    requires Reaches(open, start, events) && NoSends(more, side)
    requires var s := Run(open, start, events);
             forall k :: k in s.At(side).tx.inFlight ==> Answered(open, s, more, side, s.At(side).tx.inFlight[k].packet)
    ensures Run(open, Run(open, start, events), more).At(side).tx.inFlight == map[]
  {
    hide Run, Answered, NoSends;
    var s := Run(open, start, events);
    LinkOf(open, start, events, side);
    forall k | k in s.At(side).tx.inFlight
      ensures k !in Run(open, s, more).At(side).tx.inFlight
    {
      var p := s.At(side).tx.inFlight[k].packet;
      assert Recorded(s.At(side).tx.log, p) && SlotOk(open, s.At(side).tx.log[k], k);
      AnsweredLeaves(open, s, more, side, p);
    }
    BetweenSteps(open, s, more, side, 0, |more|);
    assert more[..0] == [] && more[..|more|] == more;
    NothingRun(open, s);
    assert Run(open, s, more).At(side).tx.inFlight.Keys == {};
  }

  lemma NothingRun(open: Opener, s: System)
    ensures Run(open, s, []) == s
  {
  }

  // One schedule

  // A lossless timeout pass: each packet is resent, arrives, and its ACK comes back.
  function Round(side: Side, p: Packet, now: int): seq<Event>
  {
    [Event(side, ResendNext),
     Event(Peer(side), Deliver(p, now)),
     Event(side, Deliver(Packet(ACK, p.sequence, []), now)),
     Event(side, ResendDone(now))]
  }

  function Rounds(side: Side, packets: seq<Packet>, now: int): seq<Event>
  {
    if packets == [] then [] else Round(side, packets[0], now) + Rounds(side, packets[1..], now)
  }

  // The peer accepts the datagram, whether it has it already or not.
  predicate Deliverable(open: Opener, r: Endpoint, p: Packet)
  {
    && (p.kind == DATA || p.kind == HANDSHAKE) && |p.body| <= PACKET_SIZE
    && (p.kind == DATA ==> p.sequence in r.rx.received || Decrypt(open, p.body).Some?)
  }

  // A pass is under way over exactly the packets in flight.
  ghost predicate Passing(open: Opener, e: Endpoint, r: Endpoint, packets: seq<Packet>)
  {
    && e.error.None? && r.error.None?
    && |e.timer.pending| == |packets| && e.timer.resending.None?
    && (forall i :: 0 <= i < |packets| ==>
          && packets[i].sequence == e.timer.pending[i]
          && packets[i].sequence in e.tx.inFlight && e.tx.inFlight[packets[i].sequence].packet == packets[i]
          && Deliverable(open, r, packets[i]))
    && (forall k :: k in e.tx.inFlight ==> k in e.timer.pending)
    && NoDup(e.timer.pending)
  }

  lemma PeerAcknowledges(open: Opener, r: Endpoint, inbox: set<Packet>, p: Packet, now: int)
    requires r.error.None? && p in inbox && Deliverable(open, r, p)
    ensures var q := Act(open, r, inbox, Deliver(p, now));
            && q.error.None? && Packet(ACK, p.sequence, []) in q.sent
            && r.rx.received <= q.rx.received
  {
  }

  lemma RoundOnEndpoints(open: Opener, e: Endpoint, r: Endpoint, packets: seq<Packet>, now: int)
    requires Passing(open, e, r, packets) && packets != []
    ensures var p := packets[0];
            var e1 := Act(open, e, r.sent, ResendNext);
            var r1 := Act(open, r, e1.sent, Deliver(p, now));
            var e2 := Act(open, e1, r1.sent, Deliver(Packet(ACK, p.sequence, []), now));
            var e3 := Act(open, e2, r1.sent, ResendDone(now));
            && Passing(open, e3, r1, packets[1..])
            && e3.tx.inFlight == e.tx.inFlight - {p.sequence}
  {
    hide Act;
    var p := packets[0];
    var e1 := Act(open, e, r.sent, ResendNext);
    ResendStep(open, e, r.sent, p);
    var r1 := Act(open, r, e1.sent, Deliver(p, now));
    PeerAcknowledges(open, r, e1.sent, p, now);
    var e2 := Act(open, e1, r1.sent, Deliver(Packet(ACK, p.sequence, []), now));
    AckStep(open, e1, r1.sent, p.sequence, now);
    DoneStep(open, e2, r1.sent, p.sequence, now);
    StillPassing(open, e, r, packets, Act(open, e2, r1.sent, ResendDone(now)), r1);
  }

  lemma ResendStep(open: Opener, e: Endpoint, inbox: set<Packet>, p: Packet)
    requires e.error.None? && e.timer.pending != [] && e.timer.resending.None?
    requires p.sequence == e.timer.pending[0] && p.sequence in e.tx.inFlight && e.tx.inFlight[p.sequence].packet == p
    ensures var r := Act(open, e, inbox, ResendNext);
            && r.error.None? && r.tx == e.tx && p in r.sent
            && r.timer == Timer(e.timer.pending[1..], Some(p.sequence))
  {
  }

  lemma AckStep(open: Opener, e: Endpoint, inbox: set<Packet>, k: nat, now: int)
    requires e.error.None? && Packet(ACK, k, []) in inbox
    ensures var r := Act(open, e, inbox, Deliver(Packet(ACK, k, []), now));
            r.error.None? && r.timer == e.timer && r.tx.inFlight == e.tx.inFlight - {k}
  {
    ReceiveOnlyRemoves(open, e, Packet(ACK, k, []), now);
  }

  lemma DoneStep(open: Opener, e: Endpoint, inbox: set<Packet>, k: nat, now: int)
    requires e.error.None? && e.timer.resending == Some(k) && k !in e.tx.inFlight
    ensures var r := Act(open, e, inbox, ResendDone(now));
            r.error.None? && r.timer == e.timer.(resending := None) && r.tx == e.tx
  {
  }

  lemma StillPassing(open: Opener, e: Endpoint, r: Endpoint, packets: seq<Packet>, e3: Endpoint, r1: Endpoint)
    requires Passing(open, e, r, packets) && packets != []
    requires e3.tx.inFlight == e.tx.inFlight - {packets[0].sequence}
    requires e3.timer == Timer(e.timer.pending[1..], None) && e3.error.None?
    requires r1.error.None? && r.rx.received <= r1.rx.received
    ensures Passing(open, e3, r1, packets[1..])
  {
    forall i | 0 <= i < |packets[1..]|
      ensures packets[1..][i].sequence == e3.timer.pending[i] != packets[0].sequence
      ensures Deliverable(open, r1, packets[1..][i])
    {
      assert packets[1..][i] == packets[i + 1] && e3.timer.pending[i] == e.timer.pending[i + 1];
      assert e.timer.pending[0] != e.timer.pending[i + 1];
      assert Deliverable(open, r, packets[i + 1]);
    }
    forall k | k in e3.tx.inFlight
      ensures k in e3.timer.pending
    {
      var i :| 0 <= i < |e.timer.pending| && e.timer.pending[i] == k;
      assert e3.timer.pending[i - 1] == k;
    }
  }

  lemma RoundInSystem(open: Opener, s: System, side: Side, packets: seq<Packet>, now: int)
    requires Passing(open, s.At(side), s.At(Peer(side)), packets) && packets != []
    ensures var t := Run(open, s, Round(side, packets[0], now));
            Passing(open, t.At(side), t.At(Peer(side)), packets[1..])
  {
    var p := packets[0];
    FourSteps(open, s, Event(side, ResendNext), Event(Peer(side), Deliver(p, now)),
              Event(side, Deliver(Packet(ACK, p.sequence, []), now)), Event(side, ResendDone(now)));
    RoundOnEndpoints(open, s.At(side), s.At(Peer(side)), packets, now);
  }

  lemma {:induction false} RoundsEmptyTable(open: Opener, s: System, side: Side, packets: seq<Packet>, now: int)
    requires Passing(open, s.At(side), s.At(Peer(side)), packets)
    ensures Run(open, s, Rounds(side, packets, now)).At(side).tx.inFlight == map[]
    decreases |packets|
  {
    if packets == [] {
      assert s.At(side).tx.inFlight.Keys == {};
    } else {
      RoundInSystem(open, s, side, packets, now);
      RunConcat(open, s, Round(side, packets[0], now), Rounds(side, packets[1..], now));
      RoundsEmptyTable(open, Run(open, s, Round(side, packets[0], now)), side, packets[1..], now);
    }
  }

  function InOrder(inFlight: map<nat, PacketLocal>, order: seq<nat>): seq<Packet>
    requires forall k :: k in order ==> k in inFlight
  {
    seq(|order|, i requires 0 <= i < |order| => inFlight[order[i]].packet)
  }

  // Such a pass always exists: from any reachable state in which all packets in flight have timed out and the
  // peer still listens, the timeout loop can resend each of them, have it answered and empty the table. (An
  // empty payload the peer does not hold would stop it instead.)
  lemma LosslessPassDrains(open: Opener, start: System, events: seq<Event>, side: Side, now: int, order: seq<nat>)
    requires Reaches(open, start, events)
    requires var s := Run(open, start, events);
             var e, r := s.At(side), s.At(Peer(side));
             && e.error.None? && r.error.None?
             && e.timer == Timer([], None) && now - e.lastPeerActivity < IDLE_TIMEOUT
             && Overdue(e, now) == e.tx.inFlight.Keys && Lists(order, e.tx.inFlight.Keys)
             && (forall k :: k in e.tx.inFlight && 1 <= k < |e.tx.log| ==>
                   k in r.rx.received || e.tx.log[k].plain != [])
    ensures var s := Run(open, start, events);
            && (forall k :: k in order ==> k in s.At(side).tx.inFlight)
            && var pass := [Event(side, Scan(now, order))]
                           + Rounds(side, InOrder(s.At(side).tx.inFlight, order), now);
               Run(open, s, pass).At(side).tx.inFlight == map[]
  {
    var s := Run(open, start, events);
    var e, r := s.At(side), s.At(Peer(side));
    assert forall k :: k in order <==> k in (set i | i in order);
    LinkOf(open, start, events, side);
    ScanStep(open, s, side, now, order);
    PassBegins(open, e, r, now, order);
    var packets := InOrder(e.tx.inFlight, order);
    var scan := Event(side, Scan(now, order));
    RoundsEmptyTable(open, Run(open, s, [scan]), side, packets, now);
    RunConcat(open, s, [scan], Rounds(side, packets, now));
  }

  lemma ScanStep(open: Opener, s: System, side: Side, now: int, order: seq<nat>)
    requires Enabled(open, s.At(side), s.At(Peer(side)).sent, Scan(now, order))
    ensures Run(open, s, [Event(side, Scan(now, order))]).At(side) == s.At(side).Scan(now, order)
    ensures Run(open, s, [Event(side, Scan(now, order))]).At(Peer(side)) == s.At(Peer(side))
  {
    OneMore(open, s, [], Event(side, Scan(now, order)));
    assert [] + [Event(side, Scan(now, order))] == [Event(side, Scan(now, order))];
  }

  lemma PassBegins(open: Opener, e: Endpoint, r: Endpoint, now: int, order: seq<nat>)
    requires LinkOk(open, e, r) && e.error.None? && r.error.None?
    requires e.timer == Timer([], None) && now - e.lastPeerActivity < IDLE_TIMEOUT
    requires Lists(order, e.tx.inFlight.Keys) && forall k :: k in order <==> k in e.tx.inFlight
    requires forall k :: k in e.tx.inFlight && 1 <= k < |e.tx.log| ==> k in r.rx.received || e.tx.log[k].plain != []
    ensures Passing(open, e.Scan(now, order), r, InOrder(e.tx.inFlight, order))
  {
    var packets := InOrder(e.tx.inFlight, order);
    forall i | 0 <= i < |packets|
      ensures packets[i].sequence == order[i] && Deliverable(open, r, packets[i])
    {
      InFlightIsDeliverable(open, e, r, order[i]);
    }
  }

  lemma InFlightIsDeliverable(open: Opener, e: Endpoint, r: Endpoint, k: nat)
    requires LinkOk(open, e, r) && k in e.tx.inFlight
    requires 1 <= k < |e.tx.log| ==> k in r.rx.received || e.tx.log[k].plain != []
    ensures e.tx.inFlight[k].packet.sequence == k && Deliverable(open, r, e.tx.inFlight[k].packet)
  {
    assert Recorded(e.tx.log, e.tx.inFlight[k].packet);
    assert SlotOk(open, e.tx.log[k], k);
  }
}
