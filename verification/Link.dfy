/** Two endpoints joined by a lossy, duplicating, reordering network, and what holds in every run. */
module Link {
  import opened Basics
  import opened Reorder
  import opened Transport
  import Congestion

  datatype Side = A | B

  datatype System = System(a: Endpoint, b: Endpoint)
  {
    function At(side: Side): Endpoint
    {
      if side == A then a else b
    }
  }

  function Peer(side: Side): Side
  {
    if side == A then B else A
  }

  datatype Event = Event(side: Side, action: Action)

  function Step(open: Opener, s: System, event: Event): System
  {
    match event.side
    case A => s.(a := Act(open, s.a, s.b.sent, event.action))
    case B => s.(b := Act(open, s.b, s.a.sent, event.action))
  }

  // The state after any sequence of events; events that cannot happen change nothing.
  function Run(open: Opener, s: System, events: seq<Event>): System
  {
    if events == [] then s
    else Step(open, Run(open, s, events[..|events| - 1]), events[|events| - 1])
  }

  // The invariant of one direction

  // The slot of number k: the handshake at 0, sealed data above.
  ghost predicate SlotOk(open: Opener, slot: Slot, k: nat)
  {
    && slot.kind == (if k == 0 then HANDSHAKE else DATA)
    && (slot.wire.Some? ==>
          var p := slot.wire.value;
          && p.kind == slot.kind && p.sequence == k && |p.body| <= PACKET_SIZE
          && (p.kind == DATA ==> SealsTo(open, slot.plain, p.body)))
  }

  ghost predicate LogOk(open: Opener, log: seq<Slot>)
  {
    && log != []
    && forall k :: 0 <= k < |log| ==> SlotOk(open, log[k], k)
  }

  // The datagram is the one recorded for its number: all copies of a number are identical.
  ghost predicate Recorded(log: seq<Slot>, p: Packet)
  {
    p.sequence < |log| && log[p.sequence].wire == Some(p)
  }

  ghost predicate NetOk(log: seq<Slot>, sent: set<Packet>)
  {
    forall p :: p in sent && p.kind != ACK ==> Recorded(log, p)
  }

  // Every assigned number is in flight, acknowledged, or was reported to its caller as failed.
  ghost predicate Accounted(tx: Tx, k: nat)
  {
    k in tx.inFlight || k in tx.acked || k in tx.failed
  }

  ghost predicate TxOk(tx: Tx, error: Option<Error>)
  {
    && (error.None? ==> tx.counter == |tx.log|)
    && (forall k :: k in tx.inFlight ==> Recorded(tx.log, tx.inFlight[k].packet) && tx.inFlight[k].packet.sequence == k)
    && (forall k :: 0 <= k < |tx.log| ==> Accounted(tx, k))
    && (forall k :: k in tx.acked || k in tx.failed ==> k < |tx.log|)
    && (forall k :: 0 <= k < |tx.log| && tx.log[k].wire.None? ==> k in tx.failed)
    && (forall k :: k in tx.acked ==> k < |tx.log| && tx.log[k].wire.Some?)
    && (forall id :: id in tx.calls && tx.calls[id].Sending? ==>
          tx.calls[id].sequence < |tx.log|)
  }

  // The packets that ever entered the receive queue, oldest first.
  function Entered(rx: Rx): seq<Packet>
  {
    rx.taken + rx.queue
  }

  // A queued packet carries the plaintext originally submitted under its number. (END_TRANSFER is the local
  // marker that store_loop_error leaves to wake the reader.)
  ghost predicate EntryOk(log: seq<Slot>, received: set<nat>, p: Packet)
  {
    p.kind == END_TRANSFER ||
    (&& p.kind == DATA && 1 <= p.sequence < |log|
     && p.body == log[p.sequence].plain != [] && log[p.sequence].wire.Some?
     && p.sequence in received)
  }

  ghost predicate DistinctData(entered: seq<Packet>)
  {
    forall i, j :: 0 <= i < j < |entered| && entered[i].kind == DATA && entered[j].kind == DATA ==>
      entered[i].sequence != entered[j].sequence
  }

  // Some packet of number k entered the queue.
  ghost predicate HasEntered(entered: seq<Packet>, k: nat)
  {
    exists i :: 0 <= i < |entered| && entered[i].kind == DATA && entered[i].sequence == k
  }

  function Contents(log: seq<Slot>): map<nat, Bytes>
  {
    map k | 1 <= k < |log| :: log[k].plain
  }

  function Arrivals(taken: seq<Packet>): seq<Arrival>
  {
    if taken == [] then []
    else
      var before, last := Arrivals(taken[..|taken| - 1]), taken[|taken| - 1];
      if last.kind == DATA then before + [Arrival(last.sequence, last.body)] else before
  }

  ghost predicate QueueOk(log: seq<Slot>, rx: Rx)
  {
    && (forall i :: 0 <= i < |Entered(rx)| ==> EntryOk(log, rx.received, Entered(rx)[i]))
    && DistinctData(Entered(rx))
    && (forall k :: k in rx.received ==> k < |log| && (k == 0 || HasEntered(Entered(rx), k)))
    && 0 in rx.received
  }

  ghost predicate StreamOk(log: seq<Slot>, rx: Rx)
  {
    && InWindow(rx.stream)
    && Holds(rx.stream, Contents(log))
    && rx.stream == Feed(Arrivals(rx.taken))
  }

  // The peer's transport holds number k; the only exception is an empty plaintext, which is acknowledged
  // and then refused by decryption.
  ghost predicate Landed(log: seq<Slot>, received: set<nat>, k: nat)
  {
    k < |log| && (k in received || (log[k].kind == DATA && log[k].plain == []))
  }

  ghost predicate AcksOk(log: seq<Slot>, received: set<nat>, acks: set<Packet>)
  {
    forall p :: p in acks && p.kind == ACK ==> Landed(log, received, p.sequence)
  }

  ghost predicate AckedOk(tx: Tx, received: set<nat>)
  {
    forall k :: k in tx.acked ==> Landed(tx.log, received, k)
  }

  // Sender `s`, receiver `r`.
  ghost predicate LinkOk(open: Opener, s: Endpoint, r: Endpoint)
  {
    && LogOk(open, s.tx.log)
    && NetOk(s.tx.log, s.sent)
    && TxOk(s.tx, s.error)
    && QueueOk(s.tx.log, r.rx)
    && StreamOk(s.tx.log, r.rx)
    && AcksOk(s.tx.log, r.rx.received, r.sent)
    && AckedOk(s.tx, r.rx.received)
  }

  // Sequence numbers stay where 32-bit arithmetic does not wrap.
  predicate InRange(e: Endpoint)
  {
    |e.tx.log| <= SEQUENCE_LIMIT
  }

  // Preservation: the sender's ledger

  // Only waits, signals and the window moved.
  ghost predicate SameLedger(t: Tx, u: Tx)
  {
    && u.inFlight == t.inFlight && u.log == t.log
    && u.acked == t.acked && u.failed == t.failed
    && forall id :: id in u.calls && u.calls[id].Sending? ==> id in t.calls && t.calls[id] == u.calls[id]
  }

  lemma SameLedgerKeepsTx(t: Tx, u: Tx, error: Option<Error>)
    requires TxOk(t, error) && SameLedger(t, u)
    requires u.counter == t.counter
    ensures TxOk(u, error)
  {
    forall k | 0 <= k < |u.log|
      ensures Accounted(u, k)
    {
      assert Accounted(t, k);
    }
  }

  lemma WakesKeepLedger(t: Tx)
    ensures SameLedger(t, t.NotifyWindow())
    ensures SameLedger(t, t.SignalDrained())
    ensures SameLedger(t, t.SignalIfEmpty())
    ensures SameLedger(t, t.NotifyWindow().SignalIfEmpty())
    ensures SameLedger(t, t.NotifyWindow().SignalDrained())
    ensures t.NotifyWindow().SignalIfEmpty().counter == t.counter
  {
  }

  // The ledger after number k is forgotten for a reason recorded in acked or failed.
  lemma ForgetKeepsTx(t: Tx, u: Tx, k: nat, error: Option<Error>)
    requires TxOk(t, error) && k < |t.log|
    requires u.counter == t.counter && u.log == t.log && u.inFlight == t.inFlight - {k}
    requires || (u.acked == t.acked + {k} && u.failed == t.failed && t.log[k].wire.Some?)
             || (u.acked == t.acked && u.failed == t.failed + {k})
    requires forall id :: id in u.calls && u.calls[id].Sending? ==> id in t.calls && t.calls[id] == u.calls[id]
    ensures TxOk(u, error)
  {
    forall j | 0 <= j < |u.log|
      ensures Accounted(u, j)
    {
      assert Accounted(t, j);
    }
  }

  lemma OnAckKeepsTx(t: Tx, k: nat, error: Option<Error>)
    requires TxOk(t, error)
    ensures TxOk(t.OnAck(k), error) && t.OnAck(k).log == t.log
    ensures t.OnAck(k).acked <= t.acked + {k}
  {
    if k in t.inFlight {
      var u := t.(inFlight := t.inFlight - {k}, acked := t.acked + {k},
                  cwnd := t.cwnd.Update(Congestion.Grow(t.Window()).cwnd));
      assert Recorded(t.log, t.inFlight[k].packet);
      ForgetKeepsTx(t, u, k, error);
      WakesKeepLedger(u);
      SameLedgerKeepsTx(u, t.OnAck(k), error);
    }
  }

  lemma OnSendErrorKeepsTx(t: Tx, id: nat, error: Option<Error>)
    requires TxOk(t, error) && id in t.calls && t.calls[id].Sending?
    ensures TxOk(t.OnSendError(id, t.calls[id].sequence), error)
    ensures t.OnSendError(id, t.calls[id].sequence).log == t.log
    ensures t.OnSendError(id, t.calls[id].sequence).acked == t.acked
  {
    var k := t.calls[id].sequence;
    var u := t.(inFlight := t.inFlight - {k}, failed := t.failed + {k},
                calls := t.calls[id := Returned(Some(NetworkError))]);
    ForgetKeepsTx(t, u, k, error);
    WakesKeepLedger(u);
    SameLedgerKeepsTx(u, t.OnSendError(id, k), error);
  }

  lemma FailKeepsTx(e: Endpoint, error: Error)
    requires TxOk(e.tx, e.error)
    ensures TxOk(e.Fail(error).tx, e.Fail(error).error)
    ensures e.Fail(error).tx.log == e.tx.log && e.Fail(error).tx.acked == e.tx.acked
    ensures e.Fail(error).sent == e.sent
  {
    WakesKeepLedger(e.tx);
    var t := e.tx.NotifyWindow().SignalDrained();
    SameLedgerKeepsTx(e.tx, t, e.error);
    forall k | 0 <= k < |t.log|
      ensures Accounted(e.Fail(error).tx, k)
    {
      assert Accounted(t, k);
    }
  }

  // Appending the slot of the next number.
  lemma AppendKeepsTx(t: Tx, u: Tx, id: nat, slot: Slot, error: Option<Error>)
    requires TxOk(t, error) && t.counter == |t.log| && |t.log| + 1 < TWO32
    requires u.counter == (t.counter + 1) % TWO32 && u.log == t.log + [slot] && u.acked == t.acked
    requires || (slot.wire.None? && u.inFlight == t.inFlight && u.failed == t.failed + {t.counter}
                 && id in u.calls && u.calls[id].Returned? && u.calls == t.calls[id := u.calls[id]])
             || (slot.wire.Some? && slot.wire.value.sequence == t.counter
                 && u.failed == t.failed && u.calls == t.calls[id := Sending(t.counter)]
                 && t.counter in u.inFlight && u.inFlight == t.inFlight[t.counter := u.inFlight[t.counter]]
                 && u.inFlight[t.counter].packet == slot.wire.value)
    ensures TxOk(u, error)
  {
    forall k | 0 <= k < |u.log|
      ensures Accounted(u, k)
    {
      if k < |t.log| {
        assert Accounted(t, k);
      }
    }
    forall k | k in u.inFlight
      ensures Recorded(u.log, u.inFlight[k].packet) && u.inFlight[k].packet.sequence == k
    {
      if k != t.counter {
        assert Recorded(t.log, t.inFlight[k].packet);
      }
    }
  }

  lemma RecordedGrows(log: seq<Slot>, longer: seq<Slot>, sent: set<Packet>)
    requires log <= longer && NetOk(log, sent)
    ensures NetOk(longer, sent)
  {
    forall p | p in sent && p.kind != ACK
      ensures Recorded(longer, p)
    {
      assert Recorded(log, p);
    }
  }

  lemma AdmitKeepsTx(open: Opener, e: Endpoint, id: nat, plain: Bytes, sealed: Option<Bytes>, now: int)
    requires LogOk(open, e.tx.log) && NetOk(e.tx.log, e.sent) && TxOk(e.tx, e.error)
    requires e.error.None? && HonestSeal(open, plain, sealed)
    requires InRange(e.Admit(id, plain, sealed, now))
    ensures var r := e.Admit(id, plain, sealed, now);
            && LogOk(open, r.tx.log) && NetOk(r.tx.log, r.sent) && TxOk(r.tx, r.error)
            && e.tx.log <= r.tx.log && r.tx.acked == e.tx.acked
  {
    assert e.tx.log != [];
    hide NetOk, LogOk;
    var r := e.Admit(id, plain, sealed, now);
    AdmitAppends(e, id, plain, sealed, now);
    var slot := r.tx.log[|e.tx.log|];
    AppendKeepsTx(e.tx, r.tx, id, slot, e.error);
    hide TxOk;
    RecordedGrows(e.tx.log, r.tx.log, e.sent);
    LogGrows(open, e.tx.log, slot);
    SentMore(r.tx.log, e.sent, r.sent);
  }

  // What an admission appends, and that it only sends what it appends.
  lemma AdmitAppends(e: Endpoint, id: nat, plain: Bytes, sealed: Option<Bytes>, now: int)
    requires e.tx.counter == |e.tx.log|
    ensures var r := e.Admit(id, plain, sealed, now);
            && |r.tx.log| == |e.tx.log| + 1 && e.tx.log <= r.tx.log && r.tx.acked == e.tx.acked
            && r.tx.log == e.tx.log + [r.tx.log[|e.tx.log|]]
            && r.error == e.error
            && forall p :: p in r.sent && p !in e.sent ==> Recorded(r.tx.log, p)
  {
  }

  lemma LogGrows(open: Opener, log: seq<Slot>, slot: Slot)
    requires LogOk(open, log) && SlotOk(open, slot, |log|)
    ensures LogOk(open, log + [slot])
  {
  }

  lemma SentMore(log: seq<Slot>, sent: set<Packet>, more: set<Packet>)
    requires NetOk(log, sent) && forall p :: p in more && p !in sent ==> Recorded(log, p)
    ensures NetOk(log, more)
  {
  }

  // The sender's part of the invariant.
  ghost predicate LedgerOk(open: Opener, e: Endpoint)
  {
    LogOk(open, e.tx.log) && NetOk(e.tx.log, e.sent) && TxOk(e.tx, e.error)
  }

  lemma AttemptKeepsTx(open: Opener, e: Endpoint, id: nat, plain: Bytes, sealed: Option<Bytes>, now: int)
    requires LedgerOk(open, e) && HonestSeal(open, plain, sealed)
    requires InRange(e.Attempt(id, plain, sealed, now))
    ensures var r := e.Attempt(id, plain, sealed, now);
            LedgerOk(open, r) && e.tx.log <= r.tx.log && r.tx.acked == e.tx.acked
  {
    if e.error.None? && !e.tx.WindowFull() {
      AdmitKeepsTx(open, e, id, plain, sealed, now);
    } else {
      SameLedgerKeepsTx(e.tx, e.Attempt(id, plain, sealed, now).tx, e.error);
    }
  }

  lemma FailKeepsLedger(open: Opener, e: Endpoint, error: Error)
    requires LedgerOk(open, e)
    ensures var r := e.Fail(error);
            LedgerOk(open, r) && r.tx.log == e.tx.log && r.tx.acked == e.tx.acked && r.sent == e.sent
  {
    FailKeepsTx(e, error);
    hide TxOk, Endpoint.Fail, LogOk, NetOk;
  }

  // An acknowledgement or a delivery leaves the ledger alone.
  lemma AcknowledgeKeepsLedger(open: Opener, e: Endpoint, sequence: nat, now: int)
    requires LedgerOk(open, e)
    ensures LedgerOk(open, e.(lastPeerActivity := now))
    ensures LedgerOk(open, e.(lastPeerActivity := now).Acknowledge(sequence))
  {
    hide TxOk, LogOk;
  }

  lemma EnqueueKeepsLedger(open: Opener, e: Endpoint, packet: Packet)
    requires LedgerOk(open, e)
    ensures LedgerOk(open, e.Enqueue(packet))
  {
    hide TxOk, LogOk, NetOk;
  }

  lemma AckKeepsLedger(open: Opener, e: Endpoint, k: nat)
    requires LedgerOk(open, e)
    ensures LedgerOk(open, e.(tx := e.tx.OnAck(k))) && e.tx.OnAck(k).log == e.tx.log
    ensures e.tx.OnAck(k).acked <= e.tx.acked + {k}
  {
    OnAckKeepsTx(e.tx, k, e.error);
    hide TxOk, LogOk, NetOk, Tx.OnAck;
  }

  lemma ReceiveKeepsTx(open: Opener, e: Endpoint, packet: Packet, now: int)
    requires LedgerOk(open, e)
    ensures var r := e.Receive(open, packet, now);
            LedgerOk(open, r) && r.tx.log == e.tx.log
    ensures forall k :: k in e.Receive(open, packet, now).tx.acked ==>
              k in e.tx.acked || (packet.kind == ACK && k == packet.sequence)
  {
    hide LedgerOk, Endpoint.Fail, Tx.OnAck;
    var touched := e.(lastPeerActivity := now);
    AcknowledgeKeepsLedger(open, e, packet.sequence, now);
    FailKeepsLedger(open, touched, PacketTooLarge);
    FailKeepsLedger(open, touched.Acknowledge(packet.sequence), DecryptFailed);
    EnqueueKeepsLedger(open, touched.Acknowledge(packet.sequence), packet);
    if packet.kind == ACK {
      AckKeepsLedger(open, touched, packet.sequence);
    } else if packet.kind == DATA && Decrypt(open, packet.body).Some? {
      EnqueueKeepsLedger(open, touched.Acknowledge(packet.sequence),
                         Packet(DATA, packet.sequence, Decrypt(open, packet.body).value));
    }
  }

  lemma TouchKeepsTx(t: Tx, sequence: nat, now: int, error: Option<Error>)
    requires TxOk(t, error)
    ensures TxOk(t.Touch(sequence, now), error)
    ensures t.Touch(sequence, now).log == t.log && t.Touch(sequence, now).acked == t.acked
  {
    var u := t.Touch(sequence, now);
    forall k | 0 <= k < |u.log|
      ensures Accounted(u, k)
    {
      assert Accounted(t, k);
    }
    forall k | k in u.inFlight
      ensures Recorded(u.log, u.inFlight[k].packet) && u.inFlight[k].packet.sequence == k
    {
      assert Recorded(t.log, t.inFlight[k].packet);
    }
  }

  lemma SameKeepsLedger(open: Opener, e: Endpoint, r: Endpoint)
    requires LedgerOk(open, e) && SameLedger(e.tx, r.tx)
    requires r.tx.counter == e.tx.counter && r.error == e.error && r.sent == e.sent
    ensures LedgerOk(open, r)
  {
    SameLedgerKeepsTx(e.tx, r.tx, e.error);
    hide TxOk, LogOk, NetOk;
  }

  lemma SendErrorKeepsLedger(open: Opener, e: Endpoint, id: nat)
    requires LedgerOk(open, e) && id in e.tx.calls && e.tx.calls[id].Sending?
    ensures var t := e.tx.OnSendError(id, e.tx.calls[id].sequence);
            LedgerOk(open, e.(tx := t)) && t.log == e.tx.log && t.acked == e.tx.acked
  {
    OnSendErrorKeepsTx(e.tx, id, e.error);
    hide TxOk, LogOk, NetOk, Tx.OnSendError;
  }

  lemma ScanKeepsLedger(open: Opener, e: Endpoint, now: int, order: seq<nat>)
    requires LedgerOk(open, e)
    ensures var r := e.Scan(now, order);
            LedgerOk(open, r) && r.tx.log == e.tx.log && r.tx.acked == e.tx.acked
  {
    hide LedgerOk, Endpoint.Fail;
    FailKeepsLedger(open, e, IdleTimeout);
    if now - e.lastPeerActivity < IDLE_TIMEOUT {
      SameKeepsLedger(open, e, e.Scan(now, order));
    }
  }

  lemma ResendKeepsLedger(open: Opener, e: Endpoint)
    requires LedgerOk(open, e) && e.timer.pending != []
    ensures LedgerOk(open, e.ResendNext()) && e.ResendNext().tx == e.tx
  {
    hide LogOk;
    assert forall k :: k in e.tx.inFlight ==> Recorded(e.tx.log, e.tx.inFlight[k].packet);
  }

  lemma TouchKeepsLedger(open: Opener, e: Endpoint, now: int)
    requires LedgerOk(open, e) && e.timer.resending.Some?
    ensures var r := e.ResendDone(now);
            LedgerOk(open, r) && r.tx.log == e.tx.log && r.tx.acked == e.tx.acked
  {
    TouchKeepsTx(e.tx, e.timer.resending.value, now, e.error);
    hide TxOk, LogOk, NetOk, Tx.Touch;
  }

  lemma SendKeepsLedger(open: Opener, e: Endpoint, id: nat, plain: Bytes, sealed: Option<Bytes>, now: int)
    requires LedgerOk(open, e) && HonestSeal(open, plain, sealed) && InRange(e.Send(id, plain, sealed, now))
    ensures var r := e.Send(id, plain, sealed, now);
            LedgerOk(open, r) && e.tx.log <= r.tx.log && r.tx.acked == e.tx.acked
  {
    hide LedgerOk, Endpoint.Attempt;
    if |plain| <= PACKET_PAYLOAD_SIZE {
      AttemptKeepsTx(open, e, id, plain, sealed, now);
    } else {
      SameKeepsLedger(open, e, e.Send(id, plain, sealed, now));
    }
  }

  lemma ActKeepsTx(open: Opener, e: Endpoint, inbox: set<Packet>, action: Action)
    requires LedgerOk(open, e) && InRange(Act(open, e, inbox, action))
    ensures LedgerOk(open, Act(open, e, inbox, action))
    ensures e.tx.log <= Act(open, e, inbox, action).tx.log
    ensures forall k :: k in Act(open, e, inbox, action).tx.acked ==>
              k in e.tx.acked ||
              (action.Deliver? && action.packet in inbox && action.packet.kind == ACK && k == action.packet.sequence)
  {
    hide LedgerOk, Endpoint.Send, Endpoint.Attempt, Endpoint.Receive, Endpoint.Scan, Endpoint.Fail;
    hide Endpoint.ResendNext, Endpoint.ResendDone, Tx.OnSendError;
    if Enabled(open, e, inbox, action) {
      match action
      case Send(id, plain, sealed, now) => SendKeepsLedger(open, e, id, plain, sealed, now);
      case Resume(id, sealed, now) => AttemptKeepsTx(open, e, id, e.tx.calls[id].plain, sealed, now);
      case SendError(id) => SendErrorKeepsLedger(open, e, id);
      case Deliver(packet, now) => ReceiveKeepsTx(open, e, packet, now);
      case Scan(now, order) => ScanKeepsLedger(open, e, now, order);
      case ResendNext => ResendKeepsLedger(open, e);
      case ResendDone(now) => TouchKeepsLedger(open, e, now);
      case ResendError => FailKeepsLedger(open, e, NetworkError);
      case _ => SameKeepsLedger(open, e, Act(open, e, inbox, action));
    }
  }

  // Preservation: the receiver's side of the same direction

  ghost predicate InboundOk(log: seq<Slot>, e: Endpoint)
  {
    QueueOk(log, e.rx) && StreamOk(log, e.rx) && AcksOk(log, e.rx.received, e.sent)
  }

  lemma EnteredGrows(entered: seq<Packet>, p: Packet, k: nat)
    requires HasEntered(entered, k)
    ensures HasEntered(entered + [p], k)
  {
    var i :| 0 <= i < |entered| && entered[i].kind == DATA && entered[i].sequence == k;
    assert (entered + [p])[i] == entered[i];
  }

  lemma MarkerKeepsQueue(log: seq<Slot>, rx: Rx, p: Packet)
    requires QueueOk(log, rx) && p.kind == END_TRANSFER
    ensures QueueOk(log, rx.(queue := rx.queue + [p]))
  {
    var entered := Entered(rx);
    assert Entered(rx.(queue := rx.queue + [p])) == entered + [p];
    forall k | k in rx.received && k != 0
      ensures HasEntered(entered + [p], k)
    {
      EnteredGrows(entered, p, k);
    }
  }

  lemma DataKeepsQueue(log: seq<Slot>, e: Endpoint, p: Packet)
    requires QueueOk(log, e.rx)
    requires p.sequence !in e.rx.received
    requires EntryOk(log, e.rx.received + {p.sequence}, p) && p.kind == DATA
    ensures QueueOk(log, e.Enqueue(p).rx)
  {
    var entered, r := Entered(e.rx), e.Enqueue(p).rx;
    assert Entered(r) == entered + [p];
    forall i | 0 <= i < |entered|
      ensures EntryOk(log, r.received, entered[i])
      ensures entered[i].kind == DATA ==> entered[i].sequence != p.sequence
    {
      assert EntryOk(log, e.rx.received, entered[i]);
    }
    forall k | k in r.received && k != 0
      ensures HasEntered(entered + [p], k)
    {
      if k == p.sequence {
        assert (entered + [p])[|entered|] == p;
      } else {
        EnteredGrows(entered, p, k);
      }
    }
  }

  lemma FailKeepsInbound(log: seq<Slot>, e: Endpoint, error: Error)
    requires InboundOk(log, e)
    ensures InboundOk(log, e.Fail(error))
  {
    if e.error.None? {
      MarkerKeepsQueue(log, e.rx, Packet(END_TRANSFER, (e.tx.counter + 1) % TWO32, []));
    }
  }

  // A datagram the peer sent is acknowledged, and its number either held from now on or carries nothing.
  lemma ReceiveKeepsInbound(open: Opener, log: seq<Slot>, e: Endpoint, p: Packet, now: int)
    requires LogOk(open, log) && InboundOk(log, e)
    requires p.kind == ACK || Recorded(log, p)
    ensures InboundOk(log, e.Receive(open, p, now))
    ensures e.rx.received <= e.Receive(open, p, now).rx.received
  {
    if p.kind != ACK {
      assert SlotOk(open, log[p.sequence], p.sequence);
      var acknowledged := e.(lastPeerActivity := now).Acknowledge(p.sequence);
      if p.sequence !in e.rx.received {
        var plain := log[p.sequence].plain;
        if plain == [] {
          FailKeepsInbound(log, acknowledged, DecryptFailed);
        } else {
          DataKeepsQueue(log, acknowledged, Packet(DATA, p.sequence, plain));
        }
      }
    }
  }

  lemma ContentsOf(log: seq<Slot>, k: nat)
    requires 1 <= k < |log|
    ensures k in Contents(log) && Contents(log)[k] == log[k].plain
  {
  }

  lemma ArrivalsSnoc(taken: seq<Packet>, p: Packet)
    ensures Arrivals(taken + [p]) ==
            if p.kind == DATA then Arrivals(taken) + [Arrival(p.sequence, p.body)] else Arrivals(taken)
  {
    assert (taken + [p])[..|taken|] == taken;
  }

  lemma FeedSnoc(arrivals: seq<Arrival>, a: Arrival)
    ensures Feed(arrivals + [a]) == Accept(Feed(arrivals), a.sequence, a.payload)
  {
    assert (arrivals + [a])[..|arrivals|] == arrivals;
  }

  lemma TakeKeepsInbound(log: seq<Slot>, e: Endpoint)
    requires InboundOk(log, e) && |log| <= SEQUENCE_LIMIT
    requires e.rx.queue != []
    ensures InboundOk(log, e.Take())
    ensures e.rx.stream.ready <= e.Take().rx.stream.ready
  {
    var p, r := e.rx.queue[0], e.Take().rx;
    assert Entered(r) == Entered(e.rx);
    assert EntryOk(log, e.rx.received, Entered(e.rx)[|e.rx.taken|]);
    ArrivalsSnoc(e.rx.taken, p);
    if p.kind == DATA {
      ContentsOf(log, p.sequence);
      AcceptIsSafe(e.rx.stream, p.sequence, p.body, Contents(log));
      FeedSnoc(Arrivals(e.rx.taken), Arrival(p.sequence, p.body));
    }
  }

  // The receive side is untouched and nothing new is acknowledged.
  ghost predicate Quiet(e: Endpoint, r: Endpoint)
  {
    r.rx == e.rx && forall p :: p in r.sent && p.kind == ACK ==> p in e.sent
  }

  lemma SendingIsQuiet(open: Opener, e: Endpoint, inbox: set<Packet>, action: Action)
    requires LedgerOk(open, e)
    requires action.Send? || action.Resume? || action.ResendNext?
    ensures Quiet(e, Act(open, e, inbox, action))
  {
    if action.ResendNext? && Enabled(open, e, inbox, action) {
      var k := e.timer.pending[0];
      if k in e.tx.inFlight {
        assert Recorded(e.tx.log, e.tx.inFlight[k].packet);
        assert SlotOk(open, e.tx.log[k], k);
      }
    }
  }

  lemma ScanKeepsInbound(log: seq<Slot>, e: Endpoint, now: int, order: seq<nat>)
    requires InboundOk(log, e)
    ensures InboundOk(log, e.Scan(now, order)) && e.Scan(now, order).rx.received == e.rx.received
    ensures e.Scan(now, order).rx.stream == e.rx.stream
  {
    FailKeepsInbound(log, e, IdleTimeout);
    hide QueueOk, StreamOk, AcksOk, Tx.WakeForError, Tx.Collapse;
  }

  lemma FailKeepsRx(e: Endpoint, error: Error)
    ensures e.Fail(error).rx.received == e.rx.received && e.Fail(error).rx.stream == e.rx.stream
  {
    hide Tx.WakeForError;
  }

  lemma QuietKeepsInbound(log: seq<Slot>, e: Endpoint, r: Endpoint)
    requires InboundOk(log, e) && Quiet(e, r)
    ensures InboundOk(log, r)
  {
    hide QueueOk, StreamOk, Landed;
  }

  lemma ReceiveReleasesNothing(open: Opener, e: Endpoint, p: Packet, now: int)
    ensures e.Receive(open, p, now).rx.stream == e.rx.stream
  {
    hide Tx.WakeForError, Tx.OnAck;
  }

  lemma ActKeepsInbound(open: Opener, log: seq<Slot>, e: Endpoint, inbox: set<Packet>, action: Action)
    requires LogOk(open, log) && NetOk(log, inbox) && InboundOk(log, e) && |log| <= SEQUENCE_LIMIT
    requires LedgerOk(open, e)
    ensures InboundOk(log, Act(open, e, inbox, action))
    ensures e.rx.received <= Act(open, e, inbox, action).rx.received
    ensures e.rx.stream.ready <= Act(open, e, inbox, action).rx.stream.ready
  {
    var r := Act(open, e, inbox, action);
    hide InboundOk, LedgerOk, LogOk, Recorded, Quiet;
    if Enabled(open, e, inbox, action) {
      match action
      case Deliver(packet, now) =>
        hide Endpoint.Receive;
        ReceiveKeepsInbound(open, log, e, packet, now);
        ReceiveReleasesNothing(open, e, packet, now);
      case Take =>
        hide Accept;
        TakeKeepsInbound(log, e);
      case Scan(now, order) =>
        hide Endpoint.Scan;
        ScanKeepsInbound(log, e, now, order);
      case ResendError =>
        hide Endpoint.Fail;
        FailKeepsInbound(log, e, NetworkError);
        FailKeepsRx(e, NetworkError);
      case _ =>
        OthersAreQuiet(open, e, inbox, action);
        QuietKeepsInbound(log, e, r);
        QuietKeepsRx(e, r);
    }
  }

  lemma QuietKeepsRx(e: Endpoint, r: Endpoint)
    requires Quiet(e, r)
    ensures r.rx == e.rx
  {
  }

  lemma OthersAreQuiet(open: Opener, e: Endpoint, inbox: set<Packet>, action: Action)
    requires LedgerOk(open, e) && Enabled(open, e, inbox, action)
    requires !action.Deliver? && !action.Take? && !action.Scan? && !action.ResendError?
    ensures Quiet(e, Act(open, e, inbox, action))
  {
    if action.Send? || action.Resume? || action.ResendNext? {
      SendingIsQuiet(open, e, inbox, action);
    } else {
      hide LedgerOk;
    }
  }

  // Preservation of both directions

  lemma ContentsGrow(log: seq<Slot>, longer: seq<Slot>, s: Stream)
    requires log <= longer && Holds(s, Contents(log))
    ensures Holds(s, Contents(longer))
  {
    forall k | 1 <= k <= |s.ready|
      ensures Releases(s.ready, k, Contents(longer))
    {
      assert Releases(s.ready, k, Contents(log));
    }
  }

  lemma LongerLogKeepsInbound(log: seq<Slot>, longer: seq<Slot>, e: Endpoint)
    requires log <= longer && InboundOk(log, e)
    ensures InboundOk(longer, e)
  {
    ContentsGrow(log, longer, e.rx.stream);
    forall i | 0 <= i < |Entered(e.rx)|
      ensures EntryOk(longer, e.rx.received, Entered(e.rx)[i])
    {
      assert EntryOk(log, e.rx.received, Entered(e.rx)[i]);
    }
    forall p | p in e.sent && p.kind == ACK
      ensures Landed(longer, e.rx.received, p.sequence)
    {
      assert Landed(log, e.rx.received, p.sequence);
    }
  }

  lemma SenderActs(open: Opener, s: Endpoint, r: Endpoint, action: Action)
    requires LinkOk(open, s, r) && InRange(Act(open, s, r.sent, action))
    ensures LinkOk(open, Act(open, s, r.sent, action), r)
  {
    var t := Act(open, s, r.sent, action);
    ActKeepsTx(open, s, r.sent, action);
    LongerLogKeepsInbound(s.tx.log, t.tx.log, r);
    forall k | k in t.tx.acked
      ensures Landed(t.tx.log, r.rx.received, k)
    {
      if k in s.tx.acked {
        assert Landed(s.tx.log, r.rx.received, k);
      } else {
        assert Landed(s.tx.log, r.rx.received, action.packet.sequence);
      }
    }
  }

  lemma ReceiverActs(open: Opener, s: Endpoint, r: Endpoint, action: Action)
    requires LinkOk(open, s, r) && InRange(s) && LedgerOk(open, r)
    ensures LinkOk(open, s, Act(open, r, s.sent, action))
  {
    ActKeepsInbound(open, s.tx.log, r, s.sent, action);
    var q := Act(open, r, s.sent, action);
    forall k | k in s.tx.acked
      ensures Landed(s.tx.log, q.rx.received, k)
    {
      assert Landed(s.tx.log, r.rx.received, k);
    }
  }

  ghost predicate SystemOk(open: Opener, s: System)
  {
    LinkOk(open, s.a, s.b) && LinkOk(open, s.b, s.a)
  }

  lemma StepKeepsSystem(open: Opener, s: System, event: Event)
    requires SystemOk(open, s)
    requires InRange(Step(open, s, event).a) && InRange(Step(open, s, event).b)
    ensures SystemOk(open, Step(open, s, event))
  {
    StepGrows(open, s, event);
    match event.side
    case A =>
      SenderActs(open, s.a, s.b, event.action);
      ReceiverActs(open, s.b, s.a, event.action);
    case B =>
      SenderActs(open, s.b, s.a, event.action);
      ReceiverActs(open, s.a, s.b, event.action);
  }

  lemma WakesKeepLog(e: Endpoint, error: Error, packet: nat, id: nat)
    ensures e.Fail(error).tx.log == e.tx.log
    ensures e.tx.OnAck(packet).log == e.tx.log
    ensures e.tx.OnSendError(id, packet).log == e.tx.log
  {
  }

  // Nothing is ever removed from the history of assigned numbers.
  lemma ReceiveKeepsLog(open: Opener, e: Endpoint, packet: Packet, now: int)
    ensures e.Receive(open, packet, now).tx.log == e.tx.log
  {
    var touched := e.(lastPeerActivity := now);
    WakesKeepLog(touched, PacketTooLarge, packet.sequence, 0);
    WakesKeepLog(touched.Acknowledge(packet.sequence), DecryptFailed, packet.sequence, 0);
    hide Endpoint.Fail, Tx.OnAck;
  }

  lemma AttemptGrows(e: Endpoint, id: nat, plain: Bytes, sealed: Option<Bytes>, now: int)
    ensures e.tx.log <= e.Attempt(id, plain, sealed, now).tx.log
  {
  }

  lemma ActGrows(open: Opener, e: Endpoint, inbox: set<Packet>, action: Action)
    ensures e.tx.log <= Act(open, e, inbox, action).tx.log
  {
    hide Endpoint.Attempt, Endpoint.Receive, Endpoint.Fail, Tx.OnSendError;
    if Enabled(open, e, inbox, action) {
      match action
      case Send(id, plain, sealed, now) => AttemptGrows(e, id, plain, sealed, now);
      case Resume(id, sealed, now) => AttemptGrows(e, id, e.tx.calls[id].plain, sealed, now);
      case SendError(id) => WakesKeepLog(e, NetworkError, e.tx.calls[id].sequence, id);
      case Deliver(packet, now) => ReceiveKeepsLog(open, e, packet, now);
      case Scan(now, order) => WakesKeepLog(e, IdleTimeout, 0, 0);
      case ResendError => WakesKeepLog(e, NetworkError, 0, 0);
      case _ =>
    }
  }

  lemma StepGrows(open: Opener, s: System, event: Event)
    ensures s.a.tx.log <= Step(open, s, event).a.tx.log
    ensures s.b.tx.log <= Step(open, s, event).b.tx.log
  {
    ActGrows(open, s.At(event.side), s.At(Peer(event.side)).sent, event.action);
  }

  // After the handshake: number 0 is used up in both directions and held by the peer; it may still be in
  // flight, sent at least once, and its datagrams and ACKs may still be in the network.
  ghost predicate Initial(open: Opener, e: Endpoint)
  {
    && LedgerOk(open, e) && |e.tx.log| == 1 && e.error.None?
    && Congestion.InBounds(e.tx.Window()) && e.tx.cwnd.waiters == []
    && e.tx.calls == map[] && e.tx.drains == map[] && e.tx.drained.waiters == []
    && e.timer == Timer([], None)
    && e.rx == Rx({0}, [], [], INITIAL_STREAM)
    && (forall p :: p in e.sent && p.kind == ACK ==> p.sequence == 0)
    && (forall k :: k in e.tx.inFlight ==> e.tx.inFlight[k].packet in e.sent)
  }

  ghost predicate InitialSystem(open: Opener, s: System)
  {
    Initial(open, s.a) && Initial(open, s.b)
  }

  lemma InitialIsOk(open: Opener, s: System)
    requires InitialSystem(open, s)
    ensures SystemOk(open, s)
  {
    InitialLink(open, s.a, s.b);
    InitialLink(open, s.b, s.a);
  }

  lemma InitialLink(open: Opener, s: Endpoint, r: Endpoint)
    requires Initial(open, s) && Initial(open, r)
    ensures LinkOk(open, s, r)
  {
  }

  predicate InRangeSystem(s: System)
  {
    InRange(s.a) && InRange(s.b)
  }

  lemma {:induction false} RunGrows(open: Opener, s: System, events: seq<Event>)
    ensures s.a.tx.log <= Run(open, s, events).a.tx.log
    ensures s.b.tx.log <= Run(open, s, events).b.tx.log
  {
    if events != [] {
      RunGrows(open, s, events[..|events| - 1]);
      StepGrows(open, Run(open, s, events[..|events| - 1]), events[|events| - 1]);
    }
  }

  // The invariant of both directions holds in every run.
  lemma {:induction false} RunKeepsSystem(open: Opener, s: System, events: seq<Event>)
    requires SystemOk(open, s)
    requires InRangeSystem(Run(open, s, events))
    ensures SystemOk(open, Run(open, s, events))
  {
    if events != [] {
      var before := Run(open, s, events[..|events| - 1]);
      StepGrows(open, before, events[|events| - 1]);
      RunKeepsSystem(open, s, events[..|events| - 1]);
      StepKeepsSystem(open, before, events[|events| - 1]);
    }
  }

  // Unrolling runs

  lemma OneMore(open: Opener, s: System, events: seq<Event>, event: Event)
    ensures Run(open, s, events + [event]) == Step(open, Run(open, s, events), event)
  {
    assert (events + [event])[..|events|] == events;
  }

  lemma FourSteps(open: Opener, s: System, e0: Event, e1: Event, e2: Event, e3: Event)
    ensures Run(open, s, [e0, e1, e2, e3]) == Step(open, Step(open, Step(open, Step(open, s, e0), e1), e2), e3)
  {
    OneMore(open, s, [], e0);
    OneMore(open, s, [e0], e1);
    OneMore(open, s, [e0, e1], e2);
    OneMore(open, s, [e0, e1, e2], e3);
    assert [] + [e0] == [e0] && [e0] + [e1] == [e0, e1] && [e0, e1] + [e2] == [e0, e1, e2]
        && [e0, e1, e2] + [e3] == [e0, e1, e2, e3];
  }

  lemma {:induction false} RunConcat(open: Opener, s: System, first: seq<Event>, second: seq<Event>)
    ensures Run(open, s, first + second) == Run(open, Run(open, s, first), second)
  {
    if second == [] {
      assert first + second == first;
    } else {
      var n := |second| - 1;
      assert (first + second)[..|first + second| - 1] == first + second[..n];
      RunConcat(open, s, first, second[..n]);
    }
  }
}
