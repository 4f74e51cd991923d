/** What an endpoint's window, clocks and error are, told from the events of the run alone. */
module History {
  import opened Basics
  import opened Transport
  import opened Link
  import opened Wakeup
  import Congestion

  lemma LastEvent(open: Opener, start: System, events: seq<Event>, side: Side)
    requires events != []
    ensures var before, event := Run(open, start, events[..|events| - 1]), events[|events| - 1];
            Run(open, start, events).At(side) ==
            if event.side == side then Act(open, before.At(side), before.At(Peer(side)).sent, event.action)
            else before.At(side)
  {
  }

  // The window

  // An ACK of a packet in flight, or a timeout pass that found something overdue.
  function WindowEvent(open: Opener, e: Endpoint, inbox: set<Packet>, action: Action): Option<Congestion.Event>
  {
    if !Enabled(open, e, inbox, action) then None
    else
      match action
      case Deliver(packet, _) =>
        if packet.kind == ACK && packet.sequence in e.tx.inFlight then Some(Congestion.Acked) else None
      case Scan(now, order) =>
        if order != [] && now - e.lastPeerActivity < IDLE_TIMEOUT then Some(Congestion.TimedOut) else None
      case _ => None
  }

  function WindowEvents(open: Opener, start: System, events: seq<Event>, side: Side): seq<Congestion.Event>
  {
    if events == [] then []
    else
      var before, event := Run(open, start, events[..|events| - 1]), events[|events| - 1];
      var earlier := WindowEvents(open, start, events[..|events| - 1], side);
      if event.side != side then earlier
      else
        match WindowEvent(open, before.At(side), before.At(Peer(side)).sent, event.action)
        case Some(w) => earlier + [w]
        case None => earlier
  }

  lemma WakesKeepWindow(e: Endpoint, error: Error, sequence: nat, id: nat)
    ensures e.Fail(error).tx.Window() == e.tx.Window()
    ensures e.tx.OnSendError(id, sequence).Window() == e.tx.Window()
    ensures e.tx.OnAck(sequence).Window() ==
            if sequence in e.tx.inFlight then Congestion.Grow(e.tx.Window()) else e.tx.Window()
  {
  }

  lemma ReceiveOnWindow(open: Opener, e: Endpoint, packet: Packet, now: int)
    ensures e.Receive(open, packet, now).tx.Window() ==
            if packet.kind == ACK && packet.sequence in e.tx.inFlight then Congestion.Grow(e.tx.Window())
            else e.tx.Window()
  {
    var touched := e.(lastPeerActivity := now);
    WakesKeepWindow(touched, PacketTooLarge, packet.sequence, 0);
    WakesKeepWindow(touched.Acknowledge(packet.sequence), DecryptFailed, packet.sequence, 0);
  }

  lemma AttemptOnWindow(e: Endpoint, id: nat, plain: Bytes, sealed: Option<Bytes>, now: int)
    ensures e.Attempt(id, plain, sealed, now).tx.Window() == e.tx.Window()
  {
  }

  lemma ActOnWindow(open: Opener, e: Endpoint, inbox: set<Packet>, action: Action)
    ensures Act(open, e, inbox, action).tx.Window() ==
            match WindowEvent(open, e, inbox, action)
            case Some(Acked) => Congestion.Grow(e.tx.Window())
            case Some(TimedOut) => Congestion.Collapse(e.tx.Window())
            case None => e.tx.Window()
  {
    hide Endpoint.Attempt, Endpoint.Receive, Endpoint.Fail, Tx.OnSendError, Congestion.Grow, Congestion.Collapse;
    if Enabled(open, e, inbox, action) {
      match action
      case Send(id, plain, sealed, now) => AttemptOnWindow(e, id, plain, sealed, now);
      case Resume(id, sealed, now) => AttemptOnWindow(e, id, e.tx.calls[id].plain, sealed, now);
      case Deliver(packet, now) => ReceiveOnWindow(open, e, packet, now);
      case SendError(id) => WakesKeepWindow(e, NetworkError, e.tx.calls[id].sequence, id);
      case Scan(_, _) => WakesKeepWindow(e, IdleTimeout, 0, 0);
      case ResendError => WakesKeepWindow(e, NetworkError, 0, 0);
      case _ =>
    }
  }

  // In every run the window is exactly what the effective ACKs and the timeout passes make of it: nothing
  // else moves it.
  lemma {:induction false} WindowFollowsEvents(open: Opener, start: System, events: seq<Event>, side: Side)
    requires InitialSystem(open, start)
    ensures Run(open, start, events).At(side).tx.Window() ==
            Congestion.After(start.At(side).tx.Window(), WindowEvents(open, start, events, side))
  {
    if events != [] {
      hide Act, Enabled;
      var earlier, event := events[..|events| - 1], events[|events| - 1];
      var before := Run(open, start, earlier);
      WindowFollowsEvents(open, start, earlier, side);
      LastEvent(open, start, events, side);
      ActOnWindow(open, before.At(side), before.At(Peer(side)).sent, event.action);
      OneMoreEvent(start.At(side).tx.Window(), WindowEvents(open, start, earlier, side), Congestion.Acked);
      OneMoreEvent(start.At(side).tx.Window(), WindowEvents(open, start, earlier, side), Congestion.TimedOut);
    }
  }

  // A timeout pass that finds anything overdue at window c leaves window 1 and threshold c/2, but at least 2.
  lemma PassHalvesThreshold(open: Opener, start: System, events: seq<Event>, side: Side, now: int, order: seq<nat>)
    requires InitialSystem(open, start)
    requires var s := Run(open, start, events);
             && Enabled(open, s.At(side), s.At(Peer(side)).sent, Scan(now, order)) && order != []
             && now - s.At(side).lastPeerActivity < IDLE_TIMEOUT
    ensures var c := Run(open, start, events).At(side).tx.cwnd.value;
            Run(open, start, events + [Event(side, Scan(now, order))]).At(side).tx.Window()
            == Congestion.Window(1.0, if c >= 4.0 then c / 2.0 else 2.0)
  {
    InitialWaits(open, start.At(side));
    hide Act, Run, InitialSystem, Initial, Enabled, Congestion.Collapse;
    var s := Run(open, start, events);
    RunKeepsWaits(open, start, events, side);
    Congestion.CollapseHalves(s.At(side).tx.Window());
    ActOnWindow(open, s.At(side), s.At(Peer(side)).sent, Scan(now, order));
    OneMore(open, start, events, Event(side, Scan(now, order)));
  }

  lemma OneMoreEvent(w: Congestion.Window, events: seq<Congestion.Event>, event: Congestion.Event)
    requires Congestion.InBounds(w)
    ensures Congestion.After(w, events + [event]) ==
            if event.Acked? then Congestion.Grow(Congestion.After(w, events))
            else Congestion.Collapse(Congestion.After(w, events))
  {
    assert (events + [event])[..|events|] == events;
  }

  // One effective ACK lets exactly one sender go: the one parked longest, and no other call moves.
  lemma AckReleasesOneSender(open: Opener, start: System, events: seq<Event>, side: Side, packet: Packet, now: int)
    requires InitialSystem(open, start)
    requires var s := Run(open, start, events);
             && Enabled(open, s.At(side), s.At(Peer(side)).sent, Deliver(packet, now))
             && packet.kind == ACK && packet.sequence in s.At(side).tx.inFlight
    ensures var s := Run(open, start, events);
            var tx, after := s.At(side).tx, Act(open, s.At(side), s.At(Peer(side)).sent, Deliver(packet, now)).tx;
            if tx.cwnd.waiters == [] then after.calls == tx.calls && after.cwnd.waiters == []
            else
              var first := tx.cwnd.waiters[0];
              && first in tx.calls && tx.calls[first].Parked?
              && after.calls == tx.calls[first := Woken(tx.calls[first].plain)]
              && after.cwnd.waiters == tx.cwnd.waiters[1..]
  {
    InitialWaits(open, start.At(side));
    RunKeepsWaits(open, start, events, side);
    OnAckReleases(Run(open, start, events).At(side).tx, packet.sequence);
  }

  lemma OnAckReleases(tx: Tx, k: nat)
    requires WaitersOk(tx) && k in tx.inFlight
    ensures if tx.cwnd.waiters == [] then tx.OnAck(k).calls == tx.calls && tx.OnAck(k).cwnd.waiters == []
            else
              var first := tx.cwnd.waiters[0];
              && first in tx.calls && tx.calls[first].Parked?
              && tx.OnAck(k).calls == tx.calls[first := Woken(tx.calls[first].plain)]
              && tx.OnAck(k).cwnd.waiters == tx.cwnd.waiters[1..]
  {
    if tx.cwnd.waiters != [] {
      assert tx.cwnd.waiters[0] in tx.cwnd.waiters;
    }
  }

  // Clocks

  // When the endpoint last received a datagram of its peer.
  function LastHeard(open: Opener, start: System, events: seq<Event>, side: Side): int
  {
    if events == [] then start.At(side).lastPeerActivity
    else
      var before, event := Run(open, start, events[..|events| - 1]), events[|events| - 1];
      if event.side == side && event.action.Deliver?
         && Enabled(open, before.At(side), before.At(Peer(side)).sent, event.action)
      then event.action.now
      else LastHeard(open, start, events[..|events| - 1], side)
  }

  lemma ActOnHeard(open: Opener, e: Endpoint, inbox: set<Packet>, action: Action)
    ensures Act(open, e, inbox, action).lastPeerActivity ==
            if action.Deliver? && Enabled(open, e, inbox, action) then action.now else e.lastPeerActivity
  {
  }

  lemma {:induction false} HeardIsLast(open: Opener, start: System, events: seq<Event>, side: Side)
    ensures Run(open, start, events).At(side).lastPeerActivity == LastHeard(open, start, events, side)
  {
    if events != [] {
      hide Act, Enabled;
      var before := Run(open, start, events[..|events| - 1]);
      HeardIsLast(open, start, events[..|events| - 1], side);
      LastEvent(open, start, events, side);
      ActOnHeard(open, before.At(side), before.At(Peer(side)).sent, events[|events| - 1].action);
    }
  }

  // The timeout loop gives the connection up exactly when nothing of the peer has arrived for 60 seconds.
  lemma IdleTimeoutIff(open: Opener, start: System, events: seq<Event>, side: Side, now: int, order: seq<nat>)
    requires var s := Run(open, start, events);
             Enabled(open, s.At(side), s.At(Peer(side)).sent, Scan(now, order))
    ensures Run(open, start, events + [Event(side, Scan(now, order))]).At(side).error == Some(IdleTimeout)
            <==> now - LastHeard(open, start, events, side) >= IDLE_TIMEOUT
  {
    HeardIsLast(open, start, events, side);
    OneMore(open, start, events, Event(side, Scan(now, order)));
  }

  // When the packet with number k was last sent: at its admission, or when a resend of it completed.
  function LastSent(open: Opener, start: System, events: seq<Event>, side: Side, k: nat): int
  {
    if events == [] then (if k in start.At(side).tx.inFlight then start.At(side).tx.inFlight[k].sendTime else 0)
    else
      var before, event := Run(open, start, events[..|events| - 1]), events[|events| - 1];
      match SentNow(open, before.At(side), before.At(Peer(side)).sent, event.action, k)
      case Some(now) =>
        if event.side == side then now else LastSent(open, start, events[..|events| - 1], side, k)
      case None => LastSent(open, start, events[..|events| - 1], side, k)
  }

  function SentNow(open: Opener, e: Endpoint, inbox: set<Packet>, action: Action, k: nat): Option<int>
  {
    if !Enabled(open, e, inbox, action) then None
    else if (action.Send? || action.Resume?) && k == e.tx.counter && k !in e.tx.inFlight then Some(action.now)
    else if action.ResendDone? && e.timer.resending == Some(k) then Some(action.now)
    else None
  }

  // A number in flight is below the counter.
  lemma FlightIsBelow(open: Opener, e: Endpoint)
    requires LedgerOk(open, e) && e.error.None? && InRange(e)
    ensures e.tx.counter !in e.tx.inFlight
  {
    assert e.tx.counter in e.tx.inFlight ==> Recorded(e.tx.log, e.tx.inFlight[e.tx.counter].packet);
  }

  lemma WakesKeepTimes(e: Endpoint, error: Error, sequence: nat, id: nat, k: nat)
    ensures e.Fail(error).tx.inFlight == e.tx.inFlight
    ensures e.tx.OnSendError(id, sequence).inFlight == e.tx.inFlight - {sequence}
    ensures e.tx.OnAck(sequence).inFlight == e.tx.inFlight - {sequence}
  {
  }

  lemma ReceiveOnTimes(open: Opener, e: Endpoint, packet: Packet, now: int)
    ensures e.Receive(open, packet, now).tx.inFlight ==
            if packet.kind == ACK then e.tx.inFlight - {packet.sequence} else e.tx.inFlight
  {
    var touched := e.(lastPeerActivity := now);
    WakesKeepTimes(touched, PacketTooLarge, packet.sequence, 0, 0);
    WakesKeepTimes(touched.Acknowledge(packet.sequence), DecryptFailed, packet.sequence, 0, 0);
  }

  lemma AttemptOnTimes(open: Opener, e: Endpoint, id: nat, plain: Bytes, sealed: Option<Bytes>, now: int, k: nat)
    requires LedgerOk(open, e) && InRange(e)
    requires k in e.Attempt(id, plain, sealed, now).tx.inFlight
    ensures var at := e.Attempt(id, plain, sealed, now).tx.inFlight[k].sendTime;
            if k == e.tx.counter && k !in e.tx.inFlight then at == now
            else k in e.tx.inFlight && at == e.tx.inFlight[k].sendTime
  {
    if e.error.None? {
      FlightIsBelow(open, e);
    }
  }

  lemma ActOnTimes(open: Opener, e: Endpoint, inbox: set<Packet>, action: Action, k: nat)
    requires LedgerOk(open, e) && InRange(e)
    requires k in Act(open, e, inbox, action).tx.inFlight
    ensures var at := Act(open, e, inbox, action).tx.inFlight[k].sendTime;
            match SentNow(open, e, inbox, action, k)
            case Some(now) => at == now
            case None => k in e.tx.inFlight && at == e.tx.inFlight[k].sendTime
  {
    hide LedgerOk, Endpoint.Attempt, Endpoint.Receive, Tx.OnSendError, Endpoint.Fail;
    if Enabled(open, e, inbox, action) {
      match action
      case Deliver(packet, now) => ReceiveOnTimes(open, e, packet, now);
      case SendError(id) => WakesKeepTimes(e, NetworkError, e.tx.calls[id].sequence, id, k);
      case Scan(_, _) => WakesKeepTimes(e, IdleTimeout, 0, 0, k);
      case ResendError => WakesKeepTimes(e, NetworkError, 0, 0, k);
      case Send(id, plain, sealed, now) =>
        if |plain| <= PACKET_PAYLOAD_SIZE {
          AttemptOnTimes(open, e, id, plain, sealed, now, k);
        }
      case Resume(id, sealed, now) => AttemptOnTimes(open, e, id, e.tx.calls[id].plain, sealed, now, k);
      case _ =>
    }
  }

  // In every run the send time kept with a packet in flight is that of its last transmission.
  lemma {:induction false} TimesAreLast(open: Opener, start: System, events: seq<Event>, side: Side, k: nat)
    requires InitialSystem(open, start) && InRangeSystem(Run(open, start, events))
    requires k in Run(open, start, events).At(side).tx.inFlight
    ensures Run(open, start, events).At(side).tx.inFlight[k].sendTime == LastSent(open, start, events, side, k)
  {
    if events != [] {
      hide Act, Enabled, SentNow, InitialSystem;
      var earlier, event := events[..|events| - 1], events[|events| - 1];
      var before := Run(open, start, earlier);
      StepGrows(open, before, event);
      LedgerInRun(open, start, earlier, side);
      LastEvent(open, start, events, side);
      if event.side == side {
        ActOnTimes(open, before.At(side), before.At(Peer(side)).sent, event.action, k);
      }
      if k in before.At(side).tx.inFlight {
        TimesAreLast(open, start, earlier, side, k);
      }
    }
  }

  lemma LedgerInRun(open: Opener, start: System, events: seq<Event>, side: Side)
    requires InitialSystem(open, start) && InRangeSystem(Run(open, start, events))
    ensures LedgerOk(open, Run(open, start, events).At(side)) && InRange(Run(open, start, events).At(side))
  {
    InitialIsOk(open, start);
    RunKeepsSystem(open, start, events);
  }

  // A timeout pass lists exactly the packets in flight whose last transmission is more than 128 ms ago.
  lemma OverdueIff(open: Opener, start: System, events: seq<Event>, side: Side, now: int, k: nat)
    requires InitialSystem(open, start) && InRangeSystem(Run(open, start, events))
    ensures k in Overdue(Run(open, start, events).At(side), now)
            <==> k in Run(open, start, events).At(side).tx.inFlight
                 && now - LastSent(open, start, events, side, k) > TIMEOUT
  {
    if k in Run(open, start, events).At(side).tx.inFlight {
      TimesAreLast(open, start, events, side, k);
    }
  }

  // Errors

  lemma ErrorSticks(open: Opener, e: Endpoint, inbox: set<Packet>, action: Action)
    requires e.error.Some?
    ensures var r := Act(open, e, inbox, action);
            && r.error == e.error && r.tx.log == e.tx.log && r.sent == e.sent
            && r.rx.received == e.rx.received && r.rx.stream == e.rx.stream
  {
  }

  // The first loop error is final: from then on the endpoint assigns no number, sends no datagram, records
  // none as received and releases no chunk, and the error stays the same.
  lemma {:induction false} FailedIsSilent(open: Opener, s: System, events: seq<Event>, side: Side)
    requires s.At(side).error.Some?
    ensures var e, r := s.At(side), Run(open, s, events).At(side);
            && r.error == e.error && r.tx.log == e.tx.log && r.sent == e.sent
            && r.rx.received == e.rx.received && r.rx.stream == e.rx.stream
  {
    if events != [] {
      hide Act;
      var before := Run(open, s, events[..|events| - 1]);
      FailedIsSilent(open, s, events[..|events| - 1], side);
      LastEvent(open, s, events, side);
      ErrorSticks(open, before.At(side), before.At(Peer(side)).sent, events[|events| - 1].action);
    }
  }

  // A send in progress ends with an error, as those do whose socket a loop error cancels.
  function SendFailures(open: Opener, s: System, events: seq<Event>, side: Side): nat
  {
    if events == [] then 0
    else
      var before, event := Run(open, s, events[..|events| - 1]), events[|events| - 1];
      SendFailures(open, s, events[..|events| - 1], side) +
      if event.side == side && event.action.SendError?
         && Enabled(open, before.At(side), before.At(Peer(side)).sent, event.action) then 1 else 0
  }

  lemma ErrorOnWaiters(open: Opener, e: Endpoint, inbox: set<Packet>, action: Action)
    requires e.error.Some?
    ensures var waiters := Act(open, e, inbox, action).tx.cwnd.waiters;
            if action.SendError? && Enabled(open, e, inbox, action) && e.tx.cwnd.waiters != [] then
              waiters == e.tx.cwnd.waiters[1..]
            else waiters == e.tx.cwnd.waiters
  {
  }

  // With the error stored, each send that fails wakes one parked sender, and nothing else wakes any.
  lemma {:induction false} ParkedAfterError(open: Opener, s: System, events: seq<Event>, side: Side)
    requires s.At(side).error.Some?
    ensures var waiters, n := s.At(side).tx.cwnd.waiters, SendFailures(open, s, events, side);
            Run(open, s, events).At(side).tx.cwnd.waiters == if n <= |waiters| then waiters[n..] else []
  {
    if events != [] {
      hide Act, Enabled;
      var earlier, event := events[..|events| - 1], events[|events| - 1];
      var before := Run(open, s, earlier);
      ParkedAfterError(open, s, earlier, side);
      FailedIsSilent(open, s, earlier, side);
      LastEvent(open, s, events, side);
      ErrorOnWaiters(open, before.At(side), before.At(Peer(side)).sent, event.action);
    }
  }

  lemma RefusingWakesOne(open: Opener, e: Endpoint, p: Packet, now: int)
    requires e.error.None?
    ensures var r := e.Receive(open, p, now);
            r.error.Some? ==> r.tx.cwnd.waiters == if e.tx.cwnd.waiters == [] then [] else e.tx.cwnd.waiters[1..]
  {
  }

  // The step that stores a loop error wakes one parked sender.
  lemma StoringWakesOne(open: Opener, e: Endpoint, inbox: set<Packet>, action: Action)
    requires e.error.None? && Act(open, e, inbox, action).error.Some?
    ensures Act(open, e, inbox, action).tx.cwnd.waiters
            == if e.tx.cwnd.waiters == [] then [] else e.tx.cwnd.waiters[1..]
  {
    hide Endpoint.Receive, Tx.Launch, Tx.Refuse, Tx.Park;
    if Enabled(open, e, inbox, action) && action.Deliver? {
      RefusingWakesOne(open, e, action.packet, action.now);
    }
  }

  // Who stays parked after a loop error. Of the senders parked when it is stored the oldest is woken by it, and
  // after that one more by each send that fails; all others stay parked in every continuation.
  lemma ErrorStrandsSenders(open: Opener, s: System, event: Event, events: seq<Event>, side: Side)
    requires s.At(side).error.None? && Step(open, s, event).At(side).error.Some?
    ensures var waiters, t := s.At(side).tx.cwnd.waiters, Step(open, s, event);
            var n := 1 + SendFailures(open, t, events, side);
            Run(open, t, events).At(side).tx.cwnd.waiters == if n <= |waiters| then waiters[n..] else []
  {
    hide Act, Run, SendFailures;
    StoringWakesOne(open, s.At(side), s.At(Peer(side)).sent, event.action);
    ParkedAfterError(open, Step(open, s, event), events, side);
  }

  // The marker

  // What wakes the reader after a loop error: a packet of its own kind, numbered past the next.
  function Marker(tx: Tx): Packet
  {
    Packet(END_TRANSFER, |tx.log| + 1, [])
  }

  // Without an error no marker has entered the queue; with one, exactly one has, at the end.
  ghost predicate MarkerOk(e: Endpoint)
  {
    var entered := Entered(e.rx);
    if e.error.None? then forall i :: 0 <= i < |entered| ==> entered[i].kind != END_TRANSFER
    else
      && entered != [] && entered[|entered| - 1] == Marker(e.tx)
      && forall i :: 0 <= i < |entered| - 1 ==> entered[i].kind != END_TRANSFER
  }

  lemma FailQueuesMarker(e: Endpoint, error: Error)
    requires e.error.None? && e.tx.counter == |e.tx.log| && |e.tx.log| + 1 < TWO32
    ensures var r := e.Fail(error);
            && r.error == Some(error) && r.tx.log == e.tx.log
            && Entered(r.rx) == Entered(e.rx) + [Marker(e.tx)]
  {
    assert e.rx.taken + (e.rx.queue + [Marker(e.tx)]) == e.rx.taken + e.rx.queue + [Marker(e.tx)];
  }

  // What a datagram adds to the queue: itself in the clear, or the marker.
  lemma ReceiveEnters(open: Opener, e: Endpoint, packet: Packet, now: int)
    requires e.error.None? && e.tx.counter == |e.tx.log| && |e.tx.log| + 1 < TWO32
    ensures var r := e.Receive(open, packet, now);
            && r.tx.log == e.tx.log
            && if r.error.Some? then Entered(r.rx) == Entered(e.rx) + [Marker(e.tx)]
               else
                 || Entered(r.rx) == Entered(e.rx)
                 || exists p: Packet :: p.kind != END_TRANSFER && Entered(r.rx) == Entered(e.rx) + [p]
  {
    var touched := e.(lastPeerActivity := now);
    FailQueuesMarker(touched, PacketTooLarge);
    FailQueuesMarker(touched.Acknowledge(packet.sequence), DecryptFailed);
    AckKeepsLog(e.tx, packet.sequence);
    if (packet.kind == DATA || packet.kind == HANDSHAKE) && |packet.body| <= PACKET_SIZE
       && packet.sequence !in e.rx.received && (packet.kind == DATA ==> Decrypt(open, packet.body).Some?) {
      var p := if packet.kind == DATA then Packet(DATA, packet.sequence, Decrypt(open, packet.body).value) else packet;
      hide Endpoint.Fail, Decrypt, Tx.OnAck;
      assert e.rx.taken + (e.rx.queue + [p]) == Entered(e.rx) + [p];
    }
  }

  lemma AckKeepsLog(tx: Tx, sequence: nat)
    ensures tx.OnAck(sequence).log == tx.log
  {
  }

  lemma ActOnMarker(open: Opener, e: Endpoint, inbox: set<Packet>, action: Action)
    requires MarkerOk(e) && (e.error.None? ==> e.tx.counter == |e.tx.log| && |e.tx.log| + 1 < TWO32)
    ensures MarkerOk(Act(open, e, inbox, action))
  {
    hide Endpoint.Attempt, Endpoint.Receive, Endpoint.Fail, Tx.OnSendError;
    if Enabled(open, e, inbox, action) {
      match action
      case Send(id, plain, sealed, now) => AttemptOnMarker(e, id, plain, sealed, now);
      case Resume(id, sealed, now) => AttemptOnMarker(e, id, e.tx.calls[id].plain, sealed, now);
      case SendError(id) => SendErrorKeepsLog(e.tx, id, e.tx.calls[id].sequence);
      case Deliver(packet, now) => ReceiveEnters(open, e, packet, now);
      case Take => assert e.rx.taken + [e.rx.queue[0]] + e.rx.queue[1..] == Entered(e.rx);
      case Scan(_, _) => FailQueuesMarker(e, IdleTimeout);
      case ResendError => FailQueuesMarker(e, NetworkError);
      case _ =>
    }
  }

  lemma SendErrorKeepsLog(tx: Tx, id: nat, sequence: nat)
    ensures tx.OnSendError(id, sequence).log == tx.log
  {
  }

  lemma AttemptOnMarker(e: Endpoint, id: nat, plain: Bytes, sealed: Option<Bytes>, now: int)
    ensures var r := e.Attempt(id, plain, sealed, now);
            r.rx == e.rx && r.error == e.error && (e.error.Some? ==> r.tx.log == e.tx.log)
  {
  }

  // In every run the reader's queue has received exactly one marker if a loop error is stored, as the last packet
  // to enter it, and none otherwise.
  lemma {:induction false} MarkerIff(open: Opener, start: System, events: seq<Event>, side: Side)
    requires InitialSystem(open, start) && InRangeSystem(Run(open, start, events))
    ensures MarkerOk(Run(open, start, events).At(side))
  {
    if events != [] {
      hide Act, MarkerOk, InitialSystem, LedgerOk;
      var earlier, event := events[..|events| - 1], events[|events| - 1];
      var before := Run(open, start, earlier);
      StepGrows(open, before, event);
      MarkerIff(open, start, earlier, side);
      LastEvent(open, start, events, side);
      if event.side == side {
        CounterInRun(open, start, earlier, side);
        ActOnMarker(open, before.At(side), before.At(Peer(side)).sent, event.action);
      }
    }
  }

  lemma CounterInRun(open: Opener, start: System, events: seq<Event>, side: Side)
    requires InitialSystem(open, start) && InRangeSystem(Run(open, start, events))
    ensures var e := Run(open, start, events).At(side);
            e.error.None? ==> e.tx.counter == |e.tx.log| && |e.tx.log| + 1 < TWO32
  {
    LedgerInRun(open, start, events, side);
  }

  // The step that stores a loop error adds to the reader's queue exactly the marker, at the end.
  lemma StoringQueuesMarker(open: Opener, start: System, events: seq<Event>, event: Event, side: Side)
    requires InitialSystem(open, start) && InRangeSystem(Run(open, start, events))
    requires Run(open, start, events).At(side).error.None?
    requires Run(open, start, events + [event]).At(side).error.Some?
    ensures var e, r := Run(open, start, events).At(side), Run(open, start, events + [event]).At(side);
            Entered(r.rx) == Entered(e.rx) + [Packet(END_TRANSFER, |e.tx.log| + 1, [])]
  {
    hide Act, Run, InitialSystem, LedgerOk;
    CounterInRun(open, start, events, side);
    OneMore(open, start, events, event);
    var s := Run(open, start, events);
    ActStoringQueues(open, s.At(side), s.At(Peer(side)).sent, event.action);
  }

  lemma ActStoringQueues(open: Opener, e: Endpoint, inbox: set<Packet>, action: Action)
    requires e.error.None? && e.tx.counter == |e.tx.log| && |e.tx.log| + 1 < TWO32
    ensures var r := Act(open, e, inbox, action);
            r.error.Some? ==> Entered(r.rx) == Entered(e.rx) + [Marker(e.tx)]
  {
    hide Endpoint.Attempt, Endpoint.Receive, Endpoint.Fail, Tx.OnSendError;
    if Enabled(open, e, inbox, action) {
      match action
      case Send(id, plain, sealed, now) => AttemptOnMarker(e, id, plain, sealed, now);
      case Resume(id, sealed, now) => AttemptOnMarker(e, id, e.tx.calls[id].plain, sealed, now);
      case Deliver(packet, now) => ReceiveEnters(open, e, packet, now);
      case Scan(_, _) => FailQueuesMarker(e, IdleTimeout);
      case ResendError => FailQueuesMarker(e, NetworkError);
      case _ =>
    }
  }
}
