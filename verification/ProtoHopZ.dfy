/** The transport and stream objects whose fields the coroutines update in place. */
module ProtoHopZs {
  import opened Basics
  import opened AsyncValues
  import opened Reorder
  import opened Transport
  import opened Link
  import Congestion

  // The stream on top of the transport is not part of this object; `s` stands for any state of it, which
  // every method leaves alone.
  class ProtoHopZ {
    const open: Opener
    const cwnd: AsyncValue<real>
    const drainedSignal: AsyncValue<bool>

    var sequenceCounter: nat
    var inFlight: map<nat, PacketLocal>
    var ssthresh: real
    var calls: map<nat, SendCall>
    var drains: map<nat, DrainCall>
    var receivedPackets: set<nat>
    var receivedQueue: seq<Packet>
    var timedOut: seq<nat>
    var resending: Option<nat>
    var loopError: Option<Error>
    var lastPeerActivity: int
    ghost var log: seq<Slot>
    ghost var acked: set<nat>
    ghost var failed: set<nat>
    ghost var taken: seq<Packet>
    ghost var sent: set<Packet>

    ghost predicate Valid()
    {
      cwnd as object != drainedSignal as object
    }

    ghost function TxState(): Tx
      reads this, cwnd, drainedSignal
    {
      Tx(sequenceCounter, inFlight, cwnd.State(), ssthresh, calls, drainedSignal.State(), drains, log, acked, failed)
    }

    ghost function State(s: Stream): Endpoint
      reads this, cwnd, drainedSignal
    {
      Endpoint(TxState(), Rx(receivedPackets, receivedQueue, taken, s), Timer(timedOut, resending),
               loopError, lastPeerActivity, sent)
    }

    // The object at the end of the handshake, before the ACK of its own handshake packet `hello` arrives.
    constructor (open: Opener, hello: Packet, now: int)
      requires hello.kind == HANDSHAKE && hello.sequence == 0 && |hello.body| <= PACKET_SIZE
      ensures Valid() && fresh(cwnd) && fresh(drainedSignal) && this.open == open
      ensures Initial(open, State(INITIAL_STREAM))
      ensures TxState().Window() == Congestion.Window(Congestion.INITIAL_CWND, Congestion.INITIAL_SSTHRESH)
    {
      this.open := open;
      cwnd := new AsyncValue(Congestion.INITIAL_CWND);
      drainedSignal := new AsyncValue(false);
      sequenceCounter, inFlight, ssthresh := 1, map[0 := PacketLocal(now, hello)], Congestion.INITIAL_SSTHRESH;
      calls, drains := map[], map[];
      receivedPackets, receivedQueue := {0}, [];
      timedOut, resending, loopError, lastPeerActivity := [], None, None, now;
      log, acked, failed := [Slot(HANDSHAKE, hello.body, Some(hello))], {}, {};
      taken, sent := [], {hello, Packet(ACK, 0, [])};
      new;
      StartIsInitial(open, hello, now);
      assert State(INITIAL_STREAM) == AtStart(hello, now);
    }

    // cwnd_.notify_one: the oldest parked sender is made runnable.
    method NotifyWindow()
      requires Valid()
      modifies this`calls, cwnd
      ensures TxState() == old(TxState()).NotifyWindow()
    {
      if |cwnd.waiters| > 0 {
        var id := cwnd.waiters[0];
        cwnd.NotifyOne();
        if id in calls && calls[id].Parked? {
          calls := calls[id := Woken(calls[id].plain)];
        }
      }
    }

    // drained_signal_.set(true): every waiting drain is made runnable.
    method SignalDrained()
      requires Valid()
      modifies this`drains, drainedSignal
      ensures TxState() == old(TxState()).SignalDrained()
    {
      var waiting := drainedSignal.waiters;
      drainedSignal.Set(true);
      drains := map id | id in drains :: if id in waiting then Resumed else drains[id];
    }

    method WakeForError()
      requires Valid()
      modifies this`calls, this`drains, this`sequenceCounter, cwnd, drainedSignal
      ensures TxState() == old(TxState()).WakeForError()
      ensures sequenceCounter == (old(sequenceCounter) + 1) % TWO32
    {
      hide Tx.NotifyWindow, Tx.SignalDrained;
      CounterStays(TxState());
      NotifyWindow();
      CounterStays(TxState());
      SignalDrained();
      sequenceCounter := (sequenceCounter + 1) % TWO32;
    }

    method StoreLoopError(error: Error, ghost s: Stream)
      requires Valid()
      modifies this`loopError, this`calls, this`drains, this`sequenceCounter, this`receivedQueue, cwnd, drainedSignal
      ensures State(s) == old(State(s)).Fail(error)
    {
      hide Tx.WakeForError;
      if loopError.Some? {
        return;
      }
      WakeForError();
      loopError := Some(error);
      receivedQueue := receivedQueue + [Packet(END_TRANSFER, sequenceCounter, [])];
    }

    // send_packet from the top of its admission loop to the next suspension.
    method SendPacket(id: nat, plain: Bytes, sealed: Option<Bytes>, now: int, ghost s: Stream)
      requires Valid()
      modifies this, cwnd, drainedSignal
      ensures State(s) == old(State(s)).Attempt(id, plain, sealed, now)
    {
      if loopError.Some? {
        calls := calls[id := Returned(loopError)];
        return;
      }
      if |inFlight| >= cwnd.value.Floor || |inFlight| >= MAX_IN_FLIGHT {
        cwnd.Wait(id);
        calls := calls[id := Parked(plain)];
        return;
      }
      Admit(id, plain, sealed, now, s);
    }

    // The rest of send_packet: number, seal, register, hand to the socket.
    method Admit(id: nat, plain: Bytes, sealed: Option<Bytes>, now: int, ghost s: Stream)
      requires Valid()
      modifies this`sequenceCounter, this`inFlight, this`calls, this`log, this`failed, this`sent
      ensures State(s) == old(State(s)).Admit(id, plain, sealed, now)
    {
      var sequence := sequenceCounter;
      match Seal(plain, sealed)
      case Err(error) =>
        Refuse(id, plain, error);
      case Ok(body) =>
        Launch(id, plain, Packet(DATA, sequence, body), now);
    }

    method Refuse(id: nat, plain: Bytes, error: Error)
      modifies this`sequenceCounter, this`calls, this`log, this`failed
      ensures TxState() == old(TxState()).Refuse(id, plain, error)
    {
      log, failed := log + [Slot(DATA, plain, None)], failed + {sequenceCounter};
      sequenceCounter := (sequenceCounter + 1) % TWO32;
      calls := calls[id := Returned(Some(error))];
    }

    method Launch(id: nat, plain: Bytes, packet: Packet, now: int)
      modifies this`sequenceCounter, this`inFlight, this`calls, this`log, this`sent
      ensures TxState() == old(TxState()).Launch(id, plain, packet, now)
      ensures sent == old(sent) + {packet}
    {
      inFlight := inFlight[sequenceCounter := PacketLocal(now, packet)];
      calls := calls[id := Sending(sequenceCounter)];
      sequenceCounter := (sequenceCounter + 1) % TWO32;
      log, sent := log + [Slot(DATA, plain, Some(packet))], sent + {packet};
    }

    method OnSendError(id: nat)
      requires Valid() && id in calls && calls[id].Sending?
      modifies this`inFlight, this`failed, this`calls, this`drains, cwnd, drainedSignal
      ensures TxState() == old(TxState()).OnSendError(id, old(calls[id].sequence))
    {
      var sequence := calls[id].sequence;
      inFlight := inFlight - {sequence};
      failed := failed + {sequence};
      calls := calls[id := Returned(Some(NetworkError))];
      NotifyWindow();
      if inFlight == map[] {
        SignalDrained();
      }
    }

    method AckHandler(sequence: nat)
      requires Valid()
      modifies this`inFlight, this`acked, this`calls, this`drains, cwnd, drainedSignal
      ensures TxState() == old(TxState()).OnAck(sequence)
    {
      if sequence !in inFlight {
        return;
      }
      inFlight := inFlight - {sequence};
      acked := acked + {sequence};
      var next := Congestion.Grow(Congestion.Window(cwnd.value, ssthresh)).cwnd;
      cwnd.Update(next);
      NotifyWindow();
      if inFlight == map[] {
        SignalDrained();
      }
    }

    // The body of receive_loop for one datagram of the peer.
    method Receive(packet: Packet, now: int, ghost s: Stream)
      requires Valid()
      modifies this, cwnd, drainedSignal
      ensures State(s) == old(State(s)).Receive(open, packet, now)
    {
      hide Endpoint.Fail, Endpoint.Enqueue, Endpoint.Acknowledge, Decrypt, Tx.OnAck;
      lastPeerActivity := now;
      match packet.kind
      case ACK => AckHandler(packet.sequence);
      case DATA => ReceiveData(packet, s);
      case HANDSHAKE => ReceiveHandshake(packet, s);
      case _ =>
    }

    method ReceiveData(packet: Packet, ghost s: Stream)
      requires Valid() && packet.kind == DATA
      modifies this, cwnd, drainedSignal
      ensures State(s) == old(State(s)).Receive(open, packet, old(lastPeerActivity))
    {
      hide Endpoint.Fail, Endpoint.Enqueue, Endpoint.Acknowledge;
      if |packet.body| > PACKET_SIZE {
        StoreLoopError(PacketTooLarge, s);
        return;
      }
      SendAck(packet.sequence, s);
      if packet.sequence in receivedPackets {
        return;
      }
      match Decrypt(open, packet.body)
      case None => StoreLoopError(DecryptFailed, s);
      case Some(plain) => Enqueue(Packet(DATA, packet.sequence, plain), s);
    }

    method ReceiveHandshake(packet: Packet, ghost s: Stream)
      requires Valid() && packet.kind == HANDSHAKE
      modifies this, cwnd, drainedSignal
      ensures State(s) == old(State(s)).Receive(open, packet, old(lastPeerActivity))
    {
      hide Endpoint.Fail, Endpoint.Enqueue, Endpoint.Acknowledge;
      if |packet.body| > PACKET_SIZE {
        StoreLoopError(PacketTooLarge, s);
        return;
      }
      SendAck(packet.sequence, s);
      if packet.sequence in receivedPackets {
        return;
      }
      Enqueue(packet, s);
    }

    method SendAck(sequence: nat, ghost s: Stream)
      requires Valid()
      modifies this`sent
      ensures State(s) == old(State(s)).Acknowledge(sequence)
    {
      sent := sent + {Packet(ACK, sequence, [])};
    }

    method Enqueue(packet: Packet, ghost s: Stream)
      requires Valid()
      modifies this`receivedPackets, this`receivedQueue
      ensures State(s) == old(State(s)).Enqueue(packet)
    {
      receivedPackets := receivedPackets + {packet.sequence};
      receivedQueue := receivedQueue + [packet];
    }

    // The packets whose last transmission is longer ago than the timeout, in whatever order the table yields
    // them.
    method ListTimedOut(now: int) returns (found: seq<nat>)
      requires Valid()
      ensures NoDup(found)
      ensures forall k :: k in found <==> k in inFlight && now - inFlight[k].sendTime > TIMEOUT
    {
      var rest := inFlight.Keys;
      found := [];
      while rest != {}
        invariant rest <= inFlight.Keys
        invariant forall k :: k in found <==> k in inFlight.Keys - rest && now - inFlight[k].sendTime > TIMEOUT
        invariant NoDup(found)
        decreases |rest|
      {
        var sequence :| sequence in rest;
        rest := rest - {sequence};
        if now - inFlight[sequence].sendTime > TIMEOUT {
          found := found + [sequence];
        }
      }
    }

    // The head of one pass of timeout_loop: list what has timed out, and collapse the window if that is
    // anything at all.
    method Scan(now: int, ghost s: Stream)
      requires Valid()
      requires loopError.None? && timedOut == [] && resending.None?
      modifies this, cwnd, drainedSignal
      ensures now - old(lastPeerActivity) < IDLE_TIMEOUT ==> Lists(timedOut, Overdue(old(State(s)), now))
      ensures now - old(lastPeerActivity) >= IDLE_TIMEOUT ==> timedOut == []
      ensures State(s) == old(State(s)).Scan(now, timedOut)
    {
      hide Endpoint.Fail;
      if now - lastPeerActivity >= IDLE_TIMEOUT {
        StoreLoopError(IdleTimeout, s);
        return;
      }
      timedOut := ListTimedOut(now);
      assert forall k :: k in timedOut <==> k in Overdue(old(State(s)), now);
      if |timedOut| > 0 {
        ssthresh := Congestion.Max(cwnd.value / 2.0, 2.0);
        cwnd.Update(1.0);
      }
    }

    // One listed packet: skipped if it has been acknowledged meanwhile, handed to the socket otherwise.
    method ResendNext(ghost s: Stream)
      requires Valid() && timedOut != []
      modifies this
      ensures State(s) == old(State(s)).ResendNext()
    {
      var sequence := timedOut[0];
      timedOut := timedOut[1..];
      if sequence in inFlight {
        resending := Some(sequence);
        sent := sent + {inFlight[sequence].packet};
      }
    }

    method ResendDone(now: int, ghost s: Stream)
      requires Valid() && resending.Some?
      modifies this
      ensures State(s) == old(State(s)).ResendDone(now)
    {
      var sequence := resending.value;
      if sequence in inFlight {
        inFlight := inFlight[sequence := inFlight[sequence].(sendTime := now)];
      }
      resending := None;
    }

    // wait_in_flight_drained up to its suspension.
    method WaitInFlightDrained(id: nat, ghost s: Stream)
      requires Valid()
      modifies this, cwnd, drainedSignal
      ensures State(s) == old(State(s)).Drain(id)
    {
      if loopError.Some? {
        drains := drains[id := Answered(false)];
        return;
      }
      if inFlight == map[] {
        drains := drains[id := Answered(true)];
        return;
      }
      drainedSignal.Wait(id);
      drains := drains[id := Waiting];
    }

    method DrainTimer(id: nat, ghost s: Stream)
      requires Valid()
      modifies this, cwnd, drainedSignal
      ensures State(s) == old(State(s)).DrainTimer(id)
    {
      drainedSignal.Cancel(id);
      drains := drains[id := Resumed];
    }

    // wait_in_flight_drained from its resumption to its answer.
    method DrainResume(id: nat, ghost s: Stream)
      requires Valid()
      modifies this
      ensures State(s) == old(State(s)).DrainResume(id)
    {
      if inFlight == map[] {
        if loopError.Some? {
          drains := drains[id := Answered(false)];
          return;
        }
        drains := drains[id := Answered(true)];
        return;
      }
      drains := drains[id := Answered(false)];
    }

    // received_packets_queue_.pop with a packet at hand.
    method Pop() returns (packet: Packet)
      requires receivedQueue != []
      modifies this`receivedQueue, this`taken
      ensures packet == old(receivedQueue)[0] && receivedQueue == old(receivedQueue)[1..]
      ensures taken == old(taken) + [packet]
    {
      packet := receivedQueue[0];
      receivedQueue := receivedQueue[1..];
      taken := taken + [packet];
    }
  }

  // The endpoint a constructed object stands for.
  function AtStart(hello: Packet, now: int): Endpoint
  {
    Endpoint(
      Tx(1, map[0 := PacketLocal(now, hello)], ValueState(Congestion.INITIAL_CWND, 0, [], [], []),
         Congestion.INITIAL_SSTHRESH, map[], ValueState(false, 0, [], [], []), map[],
         [Slot(HANDSHAKE, hello.body, Some(hello))], {}, {}),
      Rx({0}, [], [], INITIAL_STREAM), Timer([], None), None, now, {hello, Packet(ACK, 0, [])})
  }

  lemma StartIsInitial(open: Opener, hello: Packet, now: int)
    requires hello.kind == HANDSHAKE && hello.sequence == 0 && |hello.body| <= PACKET_SIZE
    ensures Initial(open, AtStart(hello, now))
  {
  }

  lemma CounterStays(t: Tx)
    ensures t.NotifyWindow().counter == t.counter && t.SignalDrained().counter == t.counter
  {
  }

  class ProtoStream {
    const transport: ProtoHopZ
    const chunks: ReorderBuffer

    ghost predicate Valid()
    {
      && transport.Valid()
      && chunks as object != transport as object
      && chunks as object != transport.cwnd as object && chunks as object != transport.drainedSignal as object
    }

    ghost function State(): Endpoint
      reads transport, transport.cwnd, transport.drainedSignal, chunks
    {
      transport.State(chunks.State())
    }

    constructor (transport: ProtoHopZ)
      requires transport.Valid()
      ensures Valid() && this.transport == transport && fresh(chunks)
      ensures State() == transport.State(INITIAL_STREAM)
    {
      this.transport := transport;
      chunks := new ReorderBuffer();
    }

    // ProtoStream::send: the size gate, then the transport.
    method Send(id: nat, data: Bytes, sealed: Option<Bytes>, now: int)
      requires Valid()
      modifies transport, transport.cwnd, transport.drainedSignal
      ensures State() == old(State()).Send(id, data, sealed, now)
    {
      if |data| > PACKET_PAYLOAD_SIZE {
        transport.calls := transport.calls[id := Returned(Some(StreamPayloadTooLarge))];
        return;
      }
      transport.SendPacket(id, data, sealed, now, chunks.State());
    }

    // One turn of receive_chunks_loop: packets other than DATA are skipped.
    method ReceiveChunk()
      requires Valid() && transport.receivedQueue != []
      modifies transport, chunks
      ensures State() == old(State()).Take()
    {
      var packet := transport.Pop();
      if packet.kind != DATA {
        return;
      }
      chunks.Receive(packet.sequence, packet.body);
    }
  }
}
