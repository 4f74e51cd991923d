/** Waiting and waking: the window bounds, no lost wakeup on the window, no lost drain signal. */
module Wakeup {
  import opened Basics
  import opened Transport
  import opened Link
  import Congestion
  import Reorder

  // The window: cwnd and ssthresh stay in their ranges and at most MAX_IN_FLIGHT packets are in flight.
  ghost predicate WindowOk(tx: Tx)
  {
    Congestion.InBounds(tx.Window()) && |tx.inFlight| <= MAX_IN_FLIGHT
  }

  // The waiter lists are exactly the suspended coroutines, and every payload passed the size gate.
  ghost predicate WaitersOk(tx: Tx)
  {
    && NoDup(tx.cwnd.waiters)
    && (forall id :: id in tx.cwnd.waiters <==> id in tx.calls && tx.calls[id].Parked?)
    && (forall id :: id in tx.drained.waiters <==> id in tx.drains && tx.drains[id].Waiting?)
    && (forall id :: id in tx.calls && (tx.calls[id].Parked? || tx.calls[id].Woken?) ==>
          |tx.calls[id].plain| <= PACKET_PAYLOAD_SIZE)
  }

  ghost predicate SomeWoken(tx: Tx)
  {
    exists id :: id in tx.calls && tx.calls[id].Woken?
  }

  // The window cannot deadlock with nothing outstanding: whenever a sender is parked, a packet is in flight
  // or a woken sender has yet to run.
  ghost predicate NoStall(tx: Tx)
  {
    tx.cwnd.waiters == [] || tx.inFlight != map[] || SomeWoken(tx)
  }

  // A drain never waits on an empty in-flight table.
  ghost predicate NoLostDrain(tx: Tx)
  {
    tx.drained.waiters == [] || tx.inFlight != map[]
  }

  ghost predicate WaitsOk(e: Endpoint)
  {
    WindowOk(e.tx) && WaitersOk(e.tx) && (e.error.None? ==> NoLostDrain(e.tx))
  }

  lemma NotifyWakesOldest(tx: Tx)
    requires WaitersOk(tx)
    ensures WaitersOk(tx.NotifyWindow())
    ensures tx.cwnd.waiters != [] ==> SomeWoken(tx.NotifyWindow())
    ensures tx.NotifyWindow().cwnd.value == tx.cwnd.value
  {
    if tx.cwnd.waiters != [] {
      var u, id := tx.NotifyWindow(), tx.cwnd.waiters[0];
      assert id in tx.cwnd.waiters;
      assert u.calls[id].Woken?;
      forall other | other in u.calls && u.calls[other].Parked?
        ensures other in u.cwnd.waiters
      {
        assert other in tx.cwnd.waiters;
        var i :| 0 <= i < |tx.cwnd.waiters| && tx.cwnd.waiters[i] == other;
        assert u.cwnd.waiters[i - 1] == other;
      }
      forall other | other in u.cwnd.waiters
        ensures other in u.calls && u.calls[other].Parked?
      {
        var i :| 0 <= i < |u.cwnd.waiters| && u.cwnd.waiters[i] == other;
        assert tx.cwnd.waiters[i + 1] == other;
      }
    }
  }

  lemma SignalWakesAll(tx: Tx)
    requires WaitersOk(tx)
    ensures WaitersOk(tx.SignalDrained())
    ensures tx.SignalDrained().drained.waiters == []
    ensures SomeWoken(tx) ==> SomeWoken(tx.SignalDrained())
  {
  }

  // What an ACK or a send error does once the packet is out of the table: the oldest parked sender is woken,
  // and every waiting drain if the table became empty.
  lemma ForgetWakes(tx: Tx)
    requires WaitersOk(tx)
    ensures var u := tx.NotifyWindow().SignalIfEmpty();
            && WaitersOk(u) && NoStall(u) && NoLostDrain(u)
            && u.Window() == tx.Window() && u.inFlight == tx.inFlight
  {
    NotifyWakesOldest(tx);
    SignalWakesAll(tx.NotifyWindow());
  }

  lemma FewerInFlight(m: map<nat, PacketLocal>, k: nat)
    ensures |m - {k}| <= |m|
    ensures k in m ==> |m - {k}| == |m| - 1
  {
    assert (m - {k}).Keys == m.Keys - {k};
    assert |(m - {k}).Keys| == |m - {k}| && |m.Keys| == |m|;
  }

  lemma OnAckKeepsWaits(tx: Tx, k: nat)
    requires WindowOk(tx) && WaitersOk(tx) && NoLostDrain(tx)
    ensures var u := tx.OnAck(k); WindowOk(u) && WaitersOk(u) && NoLostDrain(u) && (NoStall(tx) ==> NoStall(u))
  {
    if k in tx.inFlight {
      FewerInFlight(tx.inFlight, k);
      Congestion.GrowKeepsBounds(tx.Window());
      var t := tx.(inFlight := tx.inFlight - {k}, acked := tx.acked + {k},
                   cwnd := tx.cwnd.Update(Congestion.Grow(tx.Window()).cwnd));
      ForgetWakes(t);
    }
  }

  lemma OnSendErrorKeepsWaits(tx: Tx, id: nat, k: nat)
    requires WindowOk(tx) && WaitersOk(tx)
    requires id in tx.calls && tx.calls[id].Sending?
    ensures var u := tx.OnSendError(id, k); WindowOk(u) && WaitersOk(u) && NoLostDrain(u) && NoStall(u)
  {
    FewerInFlight(tx.inFlight, k);
    var t := tx.(inFlight := tx.inFlight - {k}, failed := tx.failed + {k},
                 calls := tx.calls[id := Returned(Some(NetworkError))]);
    assert WaitersOk(t);
    ForgetWakes(t);
  }

  lemma FailKeepsWaits(e: Endpoint, error: Error)
    requires WaitsOk(e)
    ensures WaitsOk(e.Fail(error)) && e.Fail(error).error.Some?
  {
    NotifyWakesOldest(e.tx);
    SignalWakesAll(e.tx.NotifyWindow());
  }

  // A full window has something in flight.
  lemma FullMeansNonEmpty(tx: Tx)
    requires WindowOk(tx) && tx.WindowFull()
    ensures tx.inFlight != map[]
  {
  }

  lemma AdmitKeepsWaits(e: Endpoint, id: nat, plain: Bytes, sealed: Option<Bytes>, now: int)
    requires WaitsOk(e) && e.error.None? && !e.tx.WindowFull()
    requires id in e.tx.calls ==> e.tx.calls[id].Woken?
    ensures var r := e.Admit(id, plain, sealed, now);
            && WaitsOk(r)
            && |r.tx.inFlight| <= r.tx.cwnd.value.Floor
            && (Seal(plain, sealed).Ok? ==> NoStall(r.tx))
  {
    match Seal(plain, sealed)
    case Err(error) => RefuseKeepsWaits(e.tx, id, plain, error);
    case Ok(body) => LaunchKeepsWaits(e.tx, id, plain, Packet(DATA, e.tx.counter, body), now);
  }

  lemma RefuseKeepsWaits(tx: Tx, id: nat, plain: Bytes, error: Error)
    requires WindowOk(tx) && WaitersOk(tx)
    requires id in tx.calls ==> tx.calls[id].Woken?
    ensures WindowOk(tx.Refuse(id, plain, error)) && WaitersOk(tx.Refuse(id, plain, error))
  {
  }

  lemma LaunchKeepsWaits(tx: Tx, id: nat, plain: Bytes, packet: Packet, now: int)
    requires WindowOk(tx) && WaitersOk(tx) && !tx.WindowFull()
    requires id in tx.calls ==> tx.calls[id].Woken?
    ensures var u := tx.Launch(id, plain, packet, now);
            && WindowOk(u) && WaitersOk(u) && |u.inFlight| <= u.cwnd.value.Floor
            && tx.counter in u.inFlight
  {
    var u := tx.Launch(id, plain, packet, now);
    assert u.inFlight.Keys == tx.inFlight.Keys + {tx.counter};
    assert |u.inFlight.Keys| == |u.inFlight| && |tx.inFlight.Keys| == |tx.inFlight|;
  }

  lemma ParkKeepsWaits(e: Endpoint, id: nat, plain: Bytes)
    requires WaitsOk(e) && e.tx.WindowFull() && |plain| <= PACKET_PAYLOAD_SIZE
    requires id in e.tx.calls ==> e.tx.calls[id].Woken?
    ensures WaitsOk(e.(tx := e.tx.Park(id, plain))) && NoStall(e.tx.Park(id, plain))
  {
    FullMeansNonEmpty(e.tx);
    var u := e.tx.Park(id, plain);
    assert id !in e.tx.cwnd.waiters;
    forall other | other in u.calls && u.calls[other].Parked?
      ensures other in u.cwnd.waiters
    {
      assert u.cwnd.waiters[|e.tx.cwnd.waiters|] == id;
      if other != id {
        assert other in e.tx.cwnd.waiters;
      }
    }
  }

  lemma SealSucceeds(open: Opener, plain: Bytes, sealed: Option<Bytes>)
    requires |plain| <= PACKET_PAYLOAD_SIZE && HonestSeal(open, plain, sealed)
    ensures Seal(plain, sealed).Ok? <==> sealed.Some?
  {
  }

  lemma AttemptKeepsWaits(open: Opener, e: Endpoint, id: nat, plain: Bytes, sealed: Option<Bytes>, now: int)
    requires WaitsOk(e) && |plain| <= PACKET_PAYLOAD_SIZE && HonestSeal(open, plain, sealed)
    requires id in e.tx.calls ==> e.tx.calls[id].Woken?
    ensures var r := e.Attempt(id, plain, sealed, now);
            && WaitsOk(r)
            && (e.error.None? && NoStall(e.tx) && (id !in e.tx.calls || sealed.Some?) ==> NoStall(r.tx))
  {
    SealSucceeds(open, plain, sealed);
    if e.error.None? {
      if e.tx.WindowFull() {
        ParkKeepsWaits(e, id, plain);
      } else {
        AdmitKeepsWaits(e, id, plain, sealed, now);
        var r := e.Attempt(id, plain, sealed, now);
        if NoStall(e.tx) && id !in e.tx.calls && e.tx.cwnd.waiters != [] && e.tx.inFlight == map[] {
          var w :| w in e.tx.calls && e.tx.calls[w].Woken?;
          assert w in r.tx.calls && r.tx.calls[w].Woken?;
        }
      }
    }
  }

  lemma ReceiveKeepsWaits(open: Opener, e: Endpoint, p: Packet, now: int)
    requires WaitsOk(e) && e.error.None?
    ensures var r := e.Receive(open, p, now);
            WaitsOk(r) && (r.error.None? && NoStall(e.tx) ==> NoStall(r.tx))
  {
    var touched := e.(lastPeerActivity := now);
    match p.kind
    case ACK => OnAckKeepsWaits(e.tx, p.sequence);
    case DATA =>
      FailKeepsWaits(touched, PacketTooLarge);
      FailKeepsWaits(touched.Acknowledge(p.sequence), DecryptFailed);
    case HANDSHAKE => FailKeepsWaits(touched, PacketTooLarge);
    case _ =>
  }

  // A send woken from the window whose encryption fails: it returns without passing its wakeup on.
  predicate WokenSealFails(action: Action)
  {
    action.Resume? && action.sealed.None?
  }

  lemma DrainKeepsWaits(e: Endpoint, id: nat)
    requires WaitsOk(e) && id !in e.tx.drains
    ensures WaitsOk(e.Drain(id)) && (NoStall(e.tx) ==> NoStall(e.Drain(id).tx))
  {
    var u := e.Drain(id).tx;
    forall other
      ensures other in u.drained.waiters <==> other in u.drains && u.drains[other].Waiting?
    {
      assert other in e.tx.drained.waiters <==> other in e.tx.drains && e.tx.drains[other].Waiting?;
    }
  }

  lemma DrainTimerKeepsWaits(e: Endpoint, id: nat)
    requires WaitsOk(e) && id in e.tx.drains && e.tx.drains[id].Waiting?
    ensures WaitsOk(e.DrainTimer(id)) && (NoStall(e.tx) ==> NoStall(e.DrainTimer(id).tx))
  {
    var u := e.DrainTimer(id).tx;
    forall other
      ensures other in u.drained.waiters <==> other in u.drains && u.drains[other].Waiting?
    {
      WithoutMembers(e.tx.drained.waiters, {id}, other);
    }
    if u.drained.waiters != [] {
      WithoutMembers(e.tx.drained.waiters, {id}, u.drained.waiters[0]);
    }
  }

  lemma SmallStepsKeepWaits(open: Opener, e: Endpoint, inbox: set<Packet>, action: Action)
    requires WaitsOk(e) && Enabled(open, e, inbox, action)
    requires action.Sent? || action.Take? || action.ResendNext? || action.ResendDone? || action.DrainResume?
    ensures var r := Act(open, e, inbox, action);
            && WaitsOk(r) && r.error == e.error
            && (NoStall(e.tx) ==> NoStall(r.tx))
  {
    var r := Act(open, e, inbox, action);
    if action.ResendDone? && e.timer.resending.value in e.tx.inFlight {
      assert r.tx.inFlight.Keys == e.tx.inFlight.Keys;
      assert |r.tx.inFlight.Keys| == |r.tx.inFlight| && |e.tx.inFlight.Keys| == |e.tx.inFlight|;
    }
    if SomeWoken(e.tx) {
      var w :| w in e.tx.calls && e.tx.calls[w].Woken?;
      assert w in r.tx.calls && r.tx.calls[w].Woken?;
    }
  }

  lemma CollapseKeepsWaits(tx: Tx)
    requires WindowOk(tx) && WaitersOk(tx)
    ensures WindowOk(tx.Collapse()) && WaitersOk(tx.Collapse())
    ensures NoStall(tx) ==> NoStall(tx.Collapse())
    ensures NoLostDrain(tx) ==> NoLostDrain(tx.Collapse())
  {
  }

  // One step keeps the bounds and the wait lists; and, unless it is a woken send whose encryption fails,
  // it cannot create a stall.
  lemma ActKeepsWaits(open: Opener, e: Endpoint, inbox: set<Packet>, action: Action)
    requires WaitsOk(e)
    ensures var r := Act(open, e, inbox, action);
            && WaitsOk(r)
            && (r.error.None? ==> e.error.None?)
            && (r.error.None? && NoStall(e.tx) && !WokenSealFails(action) ==> NoStall(r.tx))
  {
    if Enabled(open, e, inbox, action) {
      match action
      case Send(id, plain, sealed, now) =>
        if |plain| <= PACKET_PAYLOAD_SIZE {
          AttemptKeepsWaits(open, e, id, plain, sealed, now);
        } else {
          GateKeepsWaits(e, id);
        }
      case Resume(id, sealed, now) => AttemptKeepsWaits(open, e, id, e.tx.calls[id].plain, sealed, now);
      case SendError(id) => OnSendErrorKeepsWaits(e.tx, id, e.tx.calls[id].sequence);
      case Deliver(packet, now) => ReceiveKeepsWaits(open, e, packet, now);
      case Scan(now, order) =>
        FailKeepsWaits(e, IdleTimeout);
        CollapseKeepsWaits(e.tx);
      case ResendError => FailKeepsWaits(e, NetworkError);
      case Drain(id) => DrainKeepsWaits(e, id);
      case DrainTimer(id) => DrainTimerKeepsWaits(e, id);
      case _ => SmallStepsKeepWaits(open, e, inbox, action);
    }
  }

  lemma GateKeepsWaits(e: Endpoint, id: nat)
    requires WaitsOk(e) && id !in e.tx.calls
    ensures var u := e.tx.(calls := e.tx.calls[id := Returned(Some(StreamPayloadTooLarge))]);
            WaitsOk(e.(tx := u)) && (NoStall(e.tx) ==> NoStall(u))
  {
    var u := e.tx.(calls := e.tx.calls[id := Returned(Some(StreamPayloadTooLarge))]);
    if SomeWoken(e.tx) {
      var w :| w in e.tx.calls && e.tx.calls[w].Woken?;
      assert w in u.calls && u.calls[w].Woken?;
    }
  }

  // Every run

  lemma {:induction false} RunKeepsWaits(open: Opener, start: System, events: seq<Event>, side: Side)
    requires WaitsOk(start.At(side))
    ensures WaitsOk(Run(open, start, events).At(side))
  {
    if events != [] {
      var before, event := Run(open, start, events[..|events| - 1]), events[|events| - 1];
      RunKeepsWaits(open, start, events[..|events| - 1], side);
      ActKeepsWaits(open, before.At(side), before.At(Peer(side)).sent, event.action);
    }
  }

  lemma InitialWaits(open: Opener, e: Endpoint)
    requires Initial(open, e)
    ensures WaitsOk(e) && NoStall(e.tx)
  {
    assert forall k :: k in e.tx.inFlight ==> Recorded(e.tx.log, e.tx.inFlight[k].packet);
    assert e.tx.inFlight.Keys <= {0};
    Reorder.SubsetSize(e.tx.inFlight.Keys, {0});
    assert |e.tx.inFlight.Keys| == |e.tx.inFlight|;
  }

  // Window bounds in every state of every run.
  lemma WindowBounds(open: Opener, start: System, events: seq<Event>, side: Side)
    requires InitialSystem(open, start)
    ensures var tx := Run(open, start, events).At(side).tx;
            && 1.0 <= tx.cwnd.value <= Congestion.MAX_CWND
            && 2.0 <= tx.ssthresh <= 512.0
            && |tx.inFlight| <= MAX_IN_FLIGHT
  {
    InitialWaits(open, start.At(side));
    RunKeepsWaits(open, start, events, side);
  }

  // Immediately after an admission the packets in flight fit the window.
  lemma AdmissionFitsWindow(open: Opener, start: System, events: seq<Event>, side: Side, action: Action)
    requires InitialSystem(open, start) && (action.Send? || action.Resume?)
    requires var s := Run(open, start, events);
             var r := Act(open, s.At(side), s.At(Peer(side)).sent, action);
             |r.tx.inFlight| > |s.At(side).tx.inFlight|
    ensures var s := Run(open, start, events);
            var r := Act(open, s.At(side), s.At(Peer(side)).sent, action);
            |r.tx.inFlight| <= r.tx.cwnd.value.Floor
  {
    InitialWaits(open, start.At(side));
    RunKeepsWaits(open, start, events, side);
    var e := Run(open, start, events).At(side);
    var plain := if action.Send? then action.plain else e.tx.calls[action.id].plain;
    AdmitKeepsWaits(e, action.id, plain, action.sealed, action.now);
  }

  // No lost wakeup on the window, in every run in which no woken send fails to encrypt.
  lemma {:induction false} NoLostWakeup(open: Opener, start: System, events: seq<Event>, side: Side)
    requires InitialSystem(open, start)
    requires forall i :: 0 <= i < |events| && events[i].side == side ==> !WokenSealFails(events[i].action)
    requires Run(open, start, events).At(side).error.None?
    ensures NoStall(Run(open, start, events).At(side).tx)
  {
    InitialWaits(open, start.At(side));
    if events != [] {
      var before, event := Run(open, start, events[..|events| - 1]), events[|events| - 1];
      RunKeepsWaits(open, start, events[..|events| - 1], side);
      ActKeepsWaits(open, before.At(side), before.At(Peer(side)).sent, event.action);
      NoLostWakeup(open, start, events[..|events| - 1], side);
    }
  }

  // Exactly when such a failure leaves the parked senders stalled: nobody is in flight and no other woken
  // sender remains to pass the wakeup on.
  lemma FailedSealStallsIff(open: Opener, start: System, events: seq<Event>, side: Side, action: Action)
    requires InitialSystem(open, start) && WokenSealFails(action)
    requires var s := Run(open, start, events);
             && Enabled(open, s.At(side), s.At(Peer(side)).sent, action)
             && s.At(side).error.None? && !s.At(side).tx.WindowFull()
    ensures var s := Run(open, start, events);
            var e := s.At(side);
            NoStall(Act(open, e, s.At(Peer(side)).sent, action).tx) <==>
              || e.tx.cwnd.waiters == [] || e.tx.inFlight != map[]
              || exists id :: id in e.tx.calls && id != action.id && e.tx.calls[id].Woken?
  {
    InitialWaits(open, start.At(side));
    RunKeepsWaits(open, start, events, side);
    var s := Run(open, start, events);
    var e := s.At(side);
    var plain := e.tx.calls[action.id].plain;
    SealSucceeds(open, plain, action.sealed);
    var error := Seal(plain, action.sealed).error;
    var u := e.tx.Refuse(action.id, plain, error);
    assert Act(open, e, s.At(Peer(side)).sent, action).tx == u;
    assert forall id :: id in u.calls && u.calls[id].Woken? <==>
                          id in e.tx.calls && id != action.id && e.tx.calls[id].Woken?;
  }

  // Such a stall lasts: until a new send, a send error or a loop error, nothing wakes the parked senders.
  lemma StallLasts(open: Opener, e: Endpoint, inbox: set<Packet>, action: Action)
    requires WaitsOk(e) && !NoStall(e.tx)
    requires !action.Send? && !action.SendError?
    requires Act(open, e, inbox, action).error.None?
    ensures var r := Act(open, e, inbox, action);
            !NoStall(r.tx) && r.tx.cwnd.waiters == e.tx.cwnd.waiters && r.tx.calls.Keys == e.tx.calls.Keys
  {
    var r := Act(open, e, inbox, action);
    if Enabled(open, e, inbox, action) {
      assert forall id :: id in e.tx.calls ==> !e.tx.calls[id].Woken?;
      assert forall id :: id in r.tx.calls ==> !r.tx.calls[id].Woken?;
    }
  }

  // No lost drain signal: while no loop error is stored, a drain is never left waiting on an empty table.
  lemma NoLostDrainSignal(open: Opener, start: System, events: seq<Event>, side: Side, id: nat)
    requires InitialSystem(open, start)
    requires var e := Run(open, start, events).At(side);
             e.error.None? && id in e.tx.drains && e.tx.drains[id].Waiting?
    ensures Run(open, start, events).At(side).tx.inFlight != map[]
  {
    InitialWaits(open, start.At(side));
    RunKeepsWaits(open, start, events, side);
    assert id in Run(open, start, events).At(side).tx.drained.waiters;
  }

  // The step that empties the table, or stores a loop error, resumes every waiting drain.
  lemma EmptyingResumesDrains(open: Opener, start: System, events: seq<Event>, event: Event, id: nat)
    requires InitialSystem(open, start)
    requires var e := Run(open, start, events).At(event.side);
             e.error.None? && id in e.tx.drains && e.tx.drains[id].Waiting?
    requires !event.action.DrainTimer?
    ensures var r := Run(open, start, events + [event]).At(event.side);
            && id in r.tx.drains
            && (r.tx.inFlight == map[] && r.error.None? ==> r.tx.drains[id].Resumed?)
            && (r.error.Some? ==> r.tx.drains[id].Resumed?)
            && (r.tx.drains[id].Resumed? ==> r.tx.drained.value)
  {
    var s, t := Run(open, start, events), Run(open, start, events + [event]);
    assert (events + [event])[..|events|] == events;
    InitialWaits(open, start.At(event.side));
    RunKeepsWaits(open, start, events, event.side);
    RunKeepsWaits(open, start, events + [event], event.side);
    WaitingStaysOrResumes(open, s.At(event.side), s.At(Peer(event.side)).sent, event.action, id);
    var r := t.At(event.side);
    assert id in r.tx.drained.waiters <==> r.tx.drains[id].Waiting?;
  }

  lemma WaitingStaysOrResumes(open: Opener, e: Endpoint, inbox: set<Packet>, action: Action, id: nat)
    requires WaitsOk(e) && e.error.None?
    requires id in e.tx.drains && e.tx.drains[id].Waiting? && !action.DrainTimer?
    ensures var r := Act(open, e, inbox, action);
            && id in r.tx.drains && (r.tx.drains[id].Waiting? || (r.tx.drains[id].Resumed? && r.tx.drained.value))
            && (r.error.Some? ==> r.tx.drains[id].Resumed?)
  {
    assert id in e.tx.drained.waiters;
    if Enabled(open, e, inbox, action) {
      match action
      case Deliver(packet, now) => ReceiveResumes(open, e, packet, now, id);
      case SendError(_) =>
      case Scan(_, _) =>
      case ResendError =>
      case Drain(_) =>
      case DrainResume(_) =>
      case DrainTimer(_) =>
      case _ => assert Act(open, e, inbox, action).tx.drains == e.tx.drains;
    }
  }

  lemma ReceiveResumes(open: Opener, e: Endpoint, packet: Packet, now: int, id: nat)
    requires e.error.None? && id in e.tx.drains && e.tx.drains[id].Waiting? && id in e.tx.drained.waiters
    ensures var r := e.Receive(open, packet, now);
            && id in r.tx.drains && (r.tx.drains[id].Waiting? || (r.tx.drains[id].Resumed? && r.tx.drained.value))
            && (r.error.Some? ==> r.tx.drains[id].Resumed?)
  {
    var touched := e.(lastPeerActivity := now);
    FailResumes(touched, PacketTooLarge, id);
    FailResumes(touched.Acknowledge(packet.sequence), DecryptFailed, id);
  }

  lemma FailResumes(e: Endpoint, error: Error, id: nat)
    requires e.error.None? && id in e.tx.drains && id in e.tx.drained.waiters
    ensures id in e.Fail(error).tx.drains && e.Fail(error).tx.drains[id].Resumed? && e.Fail(error).tx.drained.value
  {
  }
}
