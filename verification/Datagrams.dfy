/** What an endpoint has acknowledged, recorded, lost and answered, told from the events of the run alone. */
module Datagrams {
  import opened Basics
  import opened Transport
  import opened Link
  import opened History

  // Arrivals

  // A DATA or HANDSHAKE datagram of at most 1428 bytes.
  predicate Fits(p: Packet)
  {
    (p.kind == DATA || p.kind == HANDSHAKE) && |p.body| <= 1428
  }

  // The number of a datagram that is acknowledged in this step, of one recorded as received, and of one that an
  // arriving ACK takes out of the table.
  function Acknowledges(open: Opener, e: Endpoint, inbox: set<Packet>, action: Action): set<nat>
  {
    if action.Deliver? && Enabled(open, e, inbox, action) && Fits(action.packet) then {action.packet.sequence} else {}
  }

  function Records(open: Opener, e: Endpoint, inbox: set<Packet>, action: Action): set<nat>
  {
    if action.Deliver? && Enabled(open, e, inbox, action) && Fits(action.packet)
       && (action.packet.kind == DATA ==> Decrypt(open, action.packet.body).Some?)
    then {action.packet.sequence} else {}
  }

  function Confirms(open: Opener, e: Endpoint, inbox: set<Packet>, action: Action): set<nat>
  {
    if action.Deliver? && Enabled(open, e, inbox, action) && action.packet.kind == ACK
       && action.packet.sequence in e.tx.inFlight
    then {action.packet.sequence} else {}
  }

  // The union of what a side's steps contribute.
  function Acknowledged(open: Opener, s: System, events: seq<Event>, side: Side): set<nat>
  {
    if events == [] then {}
    else
      var before, event := Run(open, s, events[..|events| - 1]), events[|events| - 1];
      var earlier := Acknowledged(open, s, events[..|events| - 1], side);
      if event.side == side then earlier + Acknowledges(open, before.At(side), before.At(Peer(side)).sent, event.action)
      else earlier
  }

  function Recorded(open: Opener, s: System, events: seq<Event>, side: Side): set<nat>
  {
    if events == [] then {}
    else
      var before, event := Run(open, s, events[..|events| - 1]), events[|events| - 1];
      var earlier := Recorded(open, s, events[..|events| - 1], side);
      if event.side == side then earlier + Records(open, before.At(side), before.At(Peer(side)).sent, event.action)
      else earlier
  }

  function Confirmed(open: Opener, s: System, events: seq<Event>, side: Side): set<nat>
  {
    if events == [] then {}
    else
      var before, event := Run(open, s, events[..|events| - 1]), events[|events| - 1];
      var earlier := Confirmed(open, s, events[..|events| - 1], side);
      if event.side == side then earlier + Confirms(open, before.At(side), before.At(Peer(side)).sent, event.action)
      else earlier
  }

  ghost predicate SameRecords(e: Endpoint, r: Endpoint)
  {
    && r.rx.received == e.rx.received && r.tx.acked == e.tx.acked
    && forall k :: Packet(ACK, k, []) in r.sent <==> Packet(ACK, k, []) in e.sent
  }

  lemma FailKeepsRecords(e: Endpoint, error: Error)
    ensures SameRecords(e, e.Fail(error))
  {
  }

  lemma AckConfirms(tx: Tx, k: nat)
    ensures tx.OnAck(k).acked == if k in tx.inFlight then tx.acked + {k} else tx.acked
  {
  }

  lemma ReceiveOnRecords(open: Opener, e: Endpoint, p: Packet, now: int)
    ensures var r := e.Receive(open, p, now);
            && r.tx.acked == e.tx.acked + (if p.kind == ACK && p.sequence in e.tx.inFlight then {p.sequence} else {})
            && r.rx.received == e.rx.received +
                 (if Fits(p) && (p.kind == DATA ==> Decrypt(open, p.body).Some?) then {p.sequence} else {})
            && forall k :: Packet(ACK, k, []) in r.sent <==>
                 Packet(ACK, k, []) in e.sent || (Fits(p) && k == p.sequence)
  {
    var touched := e.(lastPeerActivity := now);
    FailKeepsRecords(touched, PacketTooLarge);
    FailKeepsRecords(touched.Acknowledge(p.sequence), DecryptFailed);
    AckConfirms(e.tx, p.sequence);
    hide Endpoint.Fail, Tx.OnAck, Decrypt;
  }

  lemma AttemptKeepsRecords(e: Endpoint, id: nat, plain: Bytes, sealed: Option<Bytes>, now: int)
    ensures SameRecords(e, e.Attempt(id, plain, sealed, now))
  {
  }

  lemma ResendKeepsRecords(e: Endpoint)
    requires e.timer.pending != []
    requires forall k :: k in e.tx.inFlight ==> e.tx.inFlight[k].packet.kind != ACK
    ensures SameRecords(e, e.ResendNext())
  {
  }

  lemma SendErrorKeepsRecords(tx: Tx, id: nat, k: nat)
    ensures tx.OnSendError(id, k).acked == tx.acked
  {
  }

  lemma ActOnRecords(open: Opener, e: Endpoint, inbox: set<Packet>, action: Action)
    requires forall k :: k in e.tx.inFlight ==> e.tx.inFlight[k].packet.kind != ACK
    ensures var r := Act(open, e, inbox, action);
            && r.tx.acked == e.tx.acked + Confirms(open, e, inbox, action)
            && r.rx.received == e.rx.received + Records(open, e, inbox, action)
            && forall k :: Packet(ACK, k, []) in r.sent <==>
                 Packet(ACK, k, []) in e.sent || k in Acknowledges(open, e, inbox, action)
  {
    hide Endpoint.Attempt, Endpoint.Receive, Endpoint.Fail, Endpoint.ResendNext, Tx.OnSendError, Fits, Decrypt;
    if Enabled(open, e, inbox, action) {
      match action
      case Send(id, plain, sealed, now) => AttemptKeepsRecords(e, id, plain, sealed, now);
      case Resume(id, sealed, now) => AttemptKeepsRecords(e, id, e.tx.calls[id].plain, sealed, now);
      case SendError(id) => SendErrorKeepsRecords(e.tx, id, e.tx.calls[id].sequence);
      case Deliver(packet, now) => ReceiveOnRecords(open, e, packet, now);
      case Scan(_, _) => FailKeepsRecords(e, IdleTimeout);
      case ResendNext => ResendKeepsRecords(e);
      case ResendError => FailKeepsRecords(e, NetworkError);
      case _ =>
    }
  }

  lemma FlightIsData(open: Opener, e: Endpoint)
    requires LedgerOk(open, e)
    ensures forall k :: k in e.tx.inFlight ==> e.tx.inFlight[k].packet.kind != ACK
  {
    forall k | k in e.tx.inFlight
      ensures e.tx.inFlight[k].packet.kind != ACK
    {
      assert Link.Recorded(e.tx.log, e.tx.inFlight[k].packet);
      assert SlotOk(open, e.tx.log[k], k);
    }
  }

  // In every run: a number counts as acknowledged exactly if an ACK of it arrived while it was in flight; a number
  // counts as received exactly if a datagram of it arrived that fits and decrypts; and an ACK was sent for a
  // number exactly if a datagram of it arrived that fits, a duplicate or not, decryptable or not.
  lemma {:induction false} RecordsFollow(open: Opener, start: System, events: seq<Event>, side: Side)
    requires InitialSystem(open, start) && InRangeSystem(Run(open, start, events))
    ensures var e, r := start.At(side), Run(open, start, events).At(side);
            && r.tx.acked == e.tx.acked + Confirmed(open, start, events, side)
            && r.rx.received == e.rx.received + Recorded(open, start, events, side)
            && forall k :: Packet(ACK, k, []) in r.sent <==>
                 Packet(ACK, k, []) in e.sent || k in Acknowledged(open, start, events, side)
  {
    if events != [] {
      hide Act, InitialSystem, LedgerOk, Acknowledges, Records, Confirms;
      var earlier, event := events[..|events| - 1], events[|events| - 1];
      var before := Run(open, start, earlier);
      StepGrows(open, before, event);
      RecordsFollow(open, start, earlier, side);
      LastEvent(open, start, events, side);
      if event.side == side {
        LedgerInRun(open, start, earlier, side);
        FlightIsData(open, before.At(side));
        ActOnRecords(open, before.At(side), before.At(Peer(side)).sent, event.action);
      }
    }
  }

  // Loop errors

  // Why a step ends the loops, if it does.
  function Cause(open: Opener, e: Endpoint, inbox: set<Packet>, action: Action): Option<Error>
  {
    if !Enabled(open, e, inbox, action) then None
    else
      match action
      case Deliver(p, _) =>
        if p.kind != DATA && p.kind != HANDSHAKE then None
        else if |p.body| > 1428 then Some(PacketTooLarge)
        else if p.kind == DATA && p.sequence !in e.rx.received && Decrypt(open, p.body).None? then Some(DecryptFailed)
        else None
      case Scan(now, _) => if now - e.lastPeerActivity >= 60000 then Some(IdleTimeout) else None
      case ResendError => Some(NetworkError)
      case _ => None
  }

  function FirstCause(open: Opener, s: System, events: seq<Event>, side: Side): Option<Error>
  {
    if events == [] then s.At(side).error
    else
      var before, event := Run(open, s, events[..|events| - 1]), events[|events| - 1];
      match FirstCause(open, s, events[..|events| - 1], side)
      case Some(error) => Some(error)
      case None =>
        if event.side == side then Cause(open, before.At(side), before.At(Peer(side)).sent, event.action) else None
  }

  lemma FailStores(e: Endpoint, error: Error)
    ensures e.Fail(error).error == if e.error.Some? then e.error else Some(error)
  {
  }

  lemma ReceiveStores(open: Opener, e: Endpoint, p: Packet, now: int)
    requires e.error.None?
    ensures e.Receive(open, p, now).error ==
            if p.kind != DATA && p.kind != HANDSHAKE then None
            else if |p.body| > 1428 then Some(PacketTooLarge)
            else if p.kind == DATA && p.sequence !in e.rx.received && Decrypt(open, p.body).None?
            then Some(DecryptFailed)
            else None
  {
    var touched := e.(lastPeerActivity := now);
    FailStores(touched, PacketTooLarge);
    FailStores(touched.Acknowledge(p.sequence), DecryptFailed);
    hide Endpoint.Fail, Tx.OnAck, Decrypt;
  }

  lemma AttemptKeepsError(e: Endpoint, id: nat, plain: Bytes, sealed: Option<Bytes>, now: int)
    ensures e.Attempt(id, plain, sealed, now).error == e.error
  {
  }

  lemma ActStores(open: Opener, e: Endpoint, inbox: set<Packet>, action: Action)
    ensures Act(open, e, inbox, action).error == if e.error.Some? then e.error else Cause(open, e, inbox, action)
  {
    if e.error.Some? {
      ErrorSticks(open, e, inbox, action);
    } else if Enabled(open, e, inbox, action) {
      hide Endpoint.Attempt, Endpoint.Receive, Endpoint.Fail, Tx.OnSendError, Decrypt;
      match action
      case Send(id, plain, sealed, now) => AttemptKeepsError(e, id, plain, sealed, now);
      case Resume(id, sealed, now) => AttemptKeepsError(e, id, e.tx.calls[id].plain, sealed, now);
      case Deliver(packet, now) => ReceiveStores(open, e, packet, now);
      case Scan(_, _) => FailStores(e, IdleTimeout);
      case ResendError => FailStores(e, NetworkError);
      case _ =>
    }
  }

  // In every run the loop error stored is the first there was a cause for, and none is stored without a cause.
  lemma {:induction false} ErrorIsFirstCause(open: Opener, s: System, events: seq<Event>, side: Side)
    ensures Run(open, s, events).At(side).error == FirstCause(open, s, events, side)
  {
    if events != [] {
      hide Act, Cause;
      var before, event := Run(open, s, events[..|events| - 1]), events[|events| - 1];
      ErrorIsFirstCause(open, s, events[..|events| - 1], side);
      LastEvent(open, s, events, side);
      if event.side == side {
        ActStores(open, before.At(side), before.At(Peer(side)).sent, event.action);
      }
    }
  }

  // Drains

  // A step that answers a drain.
  ghost predicate AnswersNow(e: Endpoint, r: Endpoint, id: nat)
  {
    && id in r.tx.drains && r.tx.drains[id].Answered?
    && !(id in e.tx.drains && e.tx.drains[id] == r.tx.drains[id])
  }

  lemma ReceiveAnswersNothing(open: Opener, e: Endpoint, p: Packet, now: int, id: nat)
    ensures !AnswersNow(e, e.Receive(open, p, now), id)
  {
  }

  lemma FailAnswersNothing(e: Endpoint, error: Error, call: nat, k: nat, id: nat)
    ensures !AnswersNow(e, e.Fail(error), id) && !AnswersNow(e, e.(tx := e.tx.OnSendError(call, k)), id)
  {
  }

  // A drain is answered by its own call or when it runs again, never otherwise; and the answer is true exactly
  // when nothing is in flight and no loop error is stored.
  lemma DrainAnswers(open: Opener, e: Endpoint, inbox: set<Packet>, action: Action, id: nat)
    requires AnswersNow(e, Act(open, e, inbox, action), id)
    ensures action == Drain(id) || action == DrainResume(id)
    ensures var r := Act(open, e, inbox, action);
            && (r.tx.drains[id] == Answered(true) <==> e.tx.inFlight == map[] && e.error.None?)
            && r.tx.inFlight == e.tx.inFlight && r.error == e.error
  {
    hide Endpoint.Receive, Endpoint.Fail, Tx.OnSendError;
    match action
    case SendError(call) =>
      if Enabled(open, e, inbox, action) {
        FailAnswersNothing(e, NetworkError, call, e.tx.calls[call].sequence, id);
      }
    case Deliver(packet, now) => ReceiveAnswersNothing(open, e, packet, now, id);
    case Scan(_, _) => FailAnswersNothing(e, IdleTimeout, 0, 0, id);
    case ResendError => FailAnswersNothing(e, NetworkError, 0, 0, id);
    case _ =>
  }

  // Timeout passes

  // How many turns of the resend loop a side takes.
  function Turns(open: Opener, s: System, events: seq<Event>, side: Side): nat
  {
    if events == [] then 0
    else
      var before, event := Run(open, s, events[..|events| - 1]), events[|events| - 1];
      Turns(open, s, events[..|events| - 1], side) +
      if event == Event(side, ResendNext) && Enabled(open, before.At(side), before.At(Peer(side)).sent, ResendNext)
      then 1 else 0
  }

  lemma ActOnPending(open: Opener, e: Endpoint, inbox: set<Packet>, action: Action)
    ensures var r := Act(open, e, inbox, action);
            if action == ResendNext && Enabled(open, e, inbox, action) then
              && r.timer.pending == e.timer.pending[1..]
              && r.timer.resending == (if e.timer.pending[0] in e.tx.inFlight then Some(e.timer.pending[0]) else None)
              && r.sent == e.sent + (if e.timer.pending[0] in e.tx.inFlight
                                     then {e.tx.inFlight[e.timer.pending[0]].packet} else {})
            else r.timer.pending == e.timer.pending || (action.Scan? && e.timer.pending == [])
  {
  }

  // A pass works through its list in order, one number a turn, in every run until the list is done: each number
  // still in flight when its turn comes is sent again and no other is.
  lemma {:induction false} PassWorksThroughList(open: Opener, s: System, events: seq<Event>, side: Side)
    requires Turns(open, s, events, side) < |s.At(side).timer.pending|
    ensures Run(open, s, events).At(side).timer.pending
            == s.At(side).timer.pending[Turns(open, s, events, side)..]
  {
    if events != [] {
      hide Act, Enabled;
      var before, event := Run(open, s, events[..|events| - 1]), events[|events| - 1];
      PassWorksThroughList(open, s, events[..|events| - 1], side);
      LastEvent(open, s, events, side);
      if event.side == side {
        ActOnPending(open, before.At(side), before.At(Peer(side)).sent, event.action);
      }
    }
  }

  // The table

  // Nothing is in flight that was acknowledged or reported as failed.
  ghost predicate FlightOpen(tx: Tx)
  {
    forall k :: k in tx.inFlight && k != 0 ==> k !in tx.acked && k !in tx.failed
  }

  lemma ForgetKeepsOpen(tx: Tx, id: nat, k: nat)
    requires FlightOpen(tx)
    ensures FlightOpen(tx.OnAck(k)) && FlightOpen(tx.OnSendError(id, k))
  {
  }

  lemma FailKeepsOpen(e: Endpoint, error: Error)
    requires FlightOpen(e.tx)
    ensures FlightOpen(e.Fail(error).tx)
  {
  }

  lemma ReceiveKeepsOpen(open: Opener, e: Endpoint, p: Packet, now: int)
    requires FlightOpen(e.tx)
    ensures FlightOpen(e.Receive(open, p, now).tx)
  {
    var touched := e.(lastPeerActivity := now);
    FailKeepsOpen(touched, PacketTooLarge);
    FailKeepsOpen(touched.Acknowledge(p.sequence), DecryptFailed);
    ForgetKeepsOpen(e.tx, 0, p.sequence);
    hide Endpoint.Fail, Tx.OnAck, Decrypt;
  }

  lemma AttemptKeepsOpen(e: Endpoint, id: nat, plain: Bytes, sealed: Option<Bytes>, now: int)
    requires FlightOpen(e.tx) && TxOk(e.tx, e.error)
    ensures FlightOpen(e.Attempt(id, plain, sealed, now).tx)
  {
  }

  lemma ActKeepsOpen(open: Opener, e: Endpoint, inbox: set<Packet>, action: Action)
    requires FlightOpen(e.tx) && TxOk(e.tx, e.error)
    ensures FlightOpen(Act(open, e, inbox, action).tx)
  {
    hide TxOk, Endpoint.Attempt, Endpoint.Receive, Endpoint.Fail, Tx.OnSendError;
    if Enabled(open, e, inbox, action) {
      match action
      case Send(id, plain, sealed, now) => AttemptKeepsOpen(e, id, plain, sealed, now);
      case Resume(id, sealed, now) => AttemptKeepsOpen(e, id, e.tx.calls[id].plain, sealed, now);
      case SendError(id) => ForgetKeepsOpen(e.tx, id, e.tx.calls[id].sequence);
      case Deliver(packet, now) => ReceiveKeepsOpen(open, e, packet, now);
      case Scan(_, _) => FailKeepsOpen(e, IdleTimeout);
      case ResendError => FailKeepsOpen(e, NetworkError);
      case _ =>
    }
  }

  lemma {:induction false} FlightStaysOpen(open: Opener, start: System, events: seq<Event>, side: Side)
    requires InitialSystem(open, start) && InRangeSystem(Run(open, start, events))
    ensures FlightOpen(Run(open, start, events).At(side).tx)
  {
    if events == [] {
      FlightIsNumberZero(open, start.At(side));
    } else {
      hide Act, InitialSystem, LedgerOk, FlightOpen;
      var earlier, event := events[..|events| - 1], events[|events| - 1];
      var before := Run(open, start, earlier);
      StepGrows(open, before, event);
      FlightStaysOpen(open, start, earlier, side);
      LastEvent(open, start, events, side);
      if event.side == side {
        LedgerInRun(open, start, earlier, side);
        LedgerHasTx(open, before.At(side));
        ActKeepsOpen(open, before.At(side), before.At(Peer(side)).sent, event.action);
      }
    }
  }

  lemma FlightIsNumberZero(open: Opener, e: Endpoint)
    requires Initial(open, e)
    ensures FlightOpen(e.tx)
  {
    forall k | k in e.tx.inFlight
      ensures k == 0
    {
      assert Link.Recorded(e.tx.log, e.tx.inFlight[k].packet);
    }
  }

  lemma LedgerHasTx(open: Opener, e: Endpoint)
    requires LedgerOk(open, e)
    ensures TxOk(e.tx, e.error)
  {
  }

  // In every run a number assigned is in flight exactly until it is acknowledged or reported as failed.
  lemma FlightIff(open: Opener, start: System, events: seq<Event>, side: Side, k: nat)
    requires InitialSystem(open, start) && InRangeSystem(Run(open, start, events))
    requires 1 <= k < |Run(open, start, events).At(side).tx.log|
    ensures var tx := Run(open, start, events).At(side).tx;
            k in tx.inFlight <==> k !in tx.acked && k !in tx.failed
  {
    FlightStaysOpen(open, start, events, side);
    LedgerInRun(open, start, events, side);
    var tx := Run(open, start, events).At(side).tx;
    hide Run, InitialSystem;
    assert Accounted(tx, k);
  }
}
