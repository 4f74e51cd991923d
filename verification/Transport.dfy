/**
 * One endpoint of the transport after the handshake. Every function below is the code of one coroutine
 * between two suspension points; all of them run on the endpoint's strand, so each is one atomic step.
 */
module Transport {
  import opened Basics
  import opened AsyncValues
  import opened Reorder
  import Congestion

  const PACKET_PAYLOAD_SIZE: nat := 1400
  const CRYPT_OVERHEAD: nat := 28
  const PACKET_SIZE: nat := PACKET_PAYLOAD_SIZE + CRYPT_OVERHEAD
  const MAX_IN_FLIGHT: nat := 1024

  // Milliseconds.
  const TIMEOUT: int := 128
  const IDLE_TIMEOUT: int := 60000

  datatype PacketType = KEEP_ALIVE | DATA | HANDSHAKE | ACK | END_TRANSFER

  // The header's size field is the length of the body.
  datatype Packet = Packet(kind: PacketType, sequence: nat, body: Bytes)

  datatype PacketLocal = PacketLocal(sendTime: int, packet: Packet)

  datatype Error =
    | PacketTooLarge
    | StreamPayloadTooLarge
    | EncryptFailed
    | DecryptFailed
    | IdleTimeout
    | NetworkError

  // The cipher under the session key. Sealing draws a random nonce, so it is described by its possible
  // results: 28 bytes longer, and opening to the plaintext unless that is empty.
  type Opener = Bytes -> Option<Bytes>

  predicate SealsTo(open: Opener, plain: Bytes, body: Bytes)
  {
    |body| == |plain| + CRYPT_OVERHEAD && (plain != [] ==> open(body) == Some(plain))
  }

  // Decryption refuses anything not longer than nonce and tag together.
  function Decrypt(open: Opener, body: Bytes): Option<Bytes>
  {
    if |body| <= CRYPT_OVERHEAD then None else open(body)
  }

  // The size and cipher checks of send_packet; `sealed` is what the cipher returned, if it succeeded.
  function Seal(plain: Bytes, sealed: Option<Bytes>): Result<Bytes, Error>
  {
    if |plain| > PACKET_PAYLOAD_SIZE then Err(PacketTooLarge)
    else if sealed.None? then Err(EncryptFailed)
    else if |sealed.value| > PACKET_SIZE then Err(PacketTooLarge)
    else Ok(sealed.value)
  }

  // Where a send_packet coroutine stands.
  datatype SendCall =
    | Parked(plain: Bytes)                // suspended in cwnd_.wait
    | Woken(plain: Bytes)                 // notified, but it has not run yet
    | Sending(sequence: nat)              // suspended in async_send_to
    | Returned(error: Option<Error>)

  // Where a wait_in_flight_drained coroutine stands.
  datatype DrainCall = Waiting | Resumed | Answered(drained: bool)

  // What became of one sequence number: its plaintext and, once sealed, the datagram that carries it.
  datatype Slot = Slot(kind: PacketType, plain: Bytes, wire: Option<Packet>)

  // The sending side. `log`, `acked` and `failed` are history: every sequence number assigned, those removed
  // by an ACK, and those whose send was reported to its caller as failed.
  datatype Tx = Tx(
    counter: nat,
    inFlight: map<nat, PacketLocal>,
    cwnd: ValueState<real>,
    ssthresh: real,
    calls: map<nat, SendCall>,
    drained: ValueState<bool>,
    drains: map<nat, DrainCall>,
    log: seq<Slot>,
    acked: set<nat>,
    failed: set<nat>)
  {
    function Window(): Congestion.Window
    {
      Congestion.Window(cwnd.value, ssthresh)
    }

    predicate WindowFull()
    {
      |inFlight| >= cwnd.value.Floor || |inFlight| >= MAX_IN_FLIGHT
    }

    function Park(id: nat, plain: Bytes): Tx
    {
      this.(cwnd := cwnd.Wait(id), calls := calls[id := Parked(plain)])
    }

    // The next sequence number is consumed, but nothing is sent.
    function Refuse(id: nat, plain: Bytes, error: Error): Tx
    {
      this.(counter := (counter + 1) % TWO32,
            calls := calls[id := Returned(Some(error))],
            log := log + [Slot(DATA, plain, None)],
            failed := failed + {counter})
    }

    // The packet is registered before it is handed to the socket.
    function Launch(id: nat, plain: Bytes, packet: Packet, now: int): Tx
    {
      this.(counter := (counter + 1) % TWO32,
            inFlight := inFlight[counter := PacketLocal(now, packet)],
            calls := calls[id := Sending(counter)],
            log := log + [Slot(DATA, plain, Some(packet))])
    }

    function NotifyWindow(): Tx
    {
      if cwnd.waiters == [] then this
      else
        var id := cwnd.waiters[0];
        this.(cwnd := cwnd.NotifyOne(),
              calls := if id in calls && calls[id].Parked? then calls[id := Woken(calls[id].plain)] else calls)
    }

    function SignalDrained(): Tx
    {
      this.(drained := drained.Set(true),
            drains := map id | id in drains :: if id in drained.waiters then Resumed else drains[id])
    }

    function SignalIfEmpty(): Tx
    {
      if inFlight == map[] then SignalDrained() else this
    }

    // What a loop error does here: one parked sender and every drain are woken, and a number is used up by the
    // marker that wakes the reader.
    function WakeForError(): Tx
    {
      NotifyWindow().SignalDrained().(counter := (counter + 1) % TWO32)
    }

    // ack_handler
    function OnAck(sequence: nat): Tx
    {
      if sequence !in inFlight then this
      else
        this.(inFlight := inFlight - {sequence},
              acked := acked + {sequence},
              cwnd := cwnd.Update(Congestion.Grow(Window()).cwnd))
            .NotifyWindow()
            .SignalIfEmpty()
    }

    // async_send_to completed with an error: the caller is told and the packet forgotten.
    function OnSendError(id: nat, sequence: nat): Tx
    {
      this.(inFlight := inFlight - {sequence},
            failed := failed + {sequence},
            calls := calls[id := Returned(Some(NetworkError))])
          .NotifyWindow()
          .SignalIfEmpty()
    }

    function Collapse(): Tx
    {
      this.(ssthresh := Congestion.Collapse(Window()).ssthresh,
            cwnd := cwnd.Update(Congestion.Collapse(Window()).cwnd))
    }

    function Touch(sequence: nat, now: int): Tx
    {
      if sequence in inFlight then
        this.(inFlight := inFlight[sequence := inFlight[sequence].(sendTime := now)])
      else this
    }
  }

  // The receiving side. `taken` is history: the packets already popped from the queue by the stream.
  datatype Rx = Rx(received: set<nat>, queue: seq<Packet>, taken: seq<Packet>, stream: Stream)

  // The timeout loop: sequence numbers still to be resent in this pass, and the resend in progress.
  datatype Timer = Timer(pending: seq<nat>, resending: Option<nat>)

  // `sent` is every datagram ever handed to the socket. A network that drops, duplicates and reorders may
  // deliver any of them at any time, any number of times or never.
  datatype Endpoint =
    Endpoint(tx: Tx, rx: Rx, timer: Timer, error: Option<Error>, lastPeerActivity: int, sent: set<Packet>)
  {
    // store_loop_error
    function Fail(e: Error): Endpoint
    {
      if error.Some? then this
      else
        this.(error := Some(e),
              tx := tx.WakeForError(),
              rx := rx.(queue := rx.queue + [Packet(END_TRANSFER, (tx.counter + 1) % TWO32, [])]))
    }

    // Sending

    function Admit(id: nat, plain: Bytes, sealed: Option<Bytes>, now: int): Endpoint
    {
      match Seal(plain, sealed)
      case Err(e) => this.(tx := tx.Refuse(id, plain, e))
      case Ok(body) =>
        var packet := Packet(DATA, tx.counter, body);
        this.(tx := tx.Launch(id, plain, packet, now), sent := sent + {packet})
    }

    // One turn of the admission loop of send_packet.
    function Attempt(id: nat, plain: Bytes, sealed: Option<Bytes>, now: int): Endpoint
    {
      if error.Some? then this.(tx := tx.(calls := tx.calls[id := Returned(error)]))
      else if tx.WindowFull() then this.(tx := tx.Park(id, plain))
      else Admit(id, plain, sealed, now)
    }

    // ProtoStream::send: the size gate, then send_packet.
    function Send(id: nat, plain: Bytes, sealed: Option<Bytes>, now: int): Endpoint
    {
      if |plain| > PACKET_PAYLOAD_SIZE then
        this.(tx := tx.(calls := tx.calls[id := Returned(Some(StreamPayloadTooLarge))]))
      else Attempt(id, plain, sealed, now)
    }

    // Receiving

    function Acknowledge(sequence: nat): Endpoint
    {
      this.(sent := sent + {Packet(ACK, sequence, [])})
    }

    function Enqueue(packet: Packet): Endpoint
    {
      this.(rx := rx.(received := rx.received + {packet.sequence}, queue := rx.queue + [packet]))
    }

    // One turn of receive_loop on a datagram of the peer.
    function Receive(open: Opener, packet: Packet, now: int): Endpoint
    {
      var e := this.(lastPeerActivity := now);
      match packet.kind
      case ACK => e.(tx := tx.OnAck(packet.sequence))
      case DATA =>
        if |packet.body| > PACKET_SIZE then e.Fail(PacketTooLarge)
        else
          var acknowledged := e.Acknowledge(packet.sequence);
          if packet.sequence in rx.received then acknowledged
          else (
            match Decrypt(open, packet.body)
            case None => acknowledged.Fail(DecryptFailed)
            case Some(plain) => acknowledged.Enqueue(Packet(DATA, packet.sequence, plain))
          )
      case HANDSHAKE =>
        if |packet.body| > PACKET_SIZE then e.Fail(PacketTooLarge)
        else
          var acknowledged := e.Acknowledge(packet.sequence);
          if packet.sequence in rx.received then acknowledged else acknowledged.Enqueue(packet)
      case _ => e
    }

    // receive_chunks_loop takes one packet and feeds it to the reorder buffer.
    function Take(): Endpoint
      requires rx.queue != []
    {
      var packet := rx.queue[0];
      var r := rx.(queue := rx.queue[1..], taken := rx.taken + [packet]);
      this.(rx := if packet.kind == DATA then r.(stream := Accept(rx.stream, packet.sequence, packet.body)) else r)
    }

    // Timeouts

    predicate TimedOut(sequence: nat, now: int)
    {
      sequence in tx.inFlight && now - tx.inFlight[sequence].sendTime > TIMEOUT
    }

    // The head of a timeout pass; `order` is the order in which the timed-out packets were listed.
    function Scan(now: int, order: seq<nat>): Endpoint
    {
      if now - lastPeerActivity >= IDLE_TIMEOUT then Fail(IdleTimeout)
      else this.(tx := if order != [] then tx.Collapse() else tx, timer := timer.(pending := order))
    }

    function ResendNext(): Endpoint
      requires timer.pending != []
    {
      var sequence := timer.pending[0];
      if sequence in tx.inFlight then
        this.(timer := Timer(timer.pending[1..], Some(sequence)), sent := sent + {tx.inFlight[sequence].packet})
      else
        this.(timer := timer.(pending := timer.pending[1..]))
    }

    function ResendDone(now: int): Endpoint
      requires timer.resending.Some?
    {
      this.(tx := tx.Touch(timer.resending.value, now), timer := timer.(resending := None))
    }

    // Draining

    function Drain(id: nat): Endpoint
    {
      if error.Some? then this.(tx := tx.(drains := tx.drains[id := Answered(false)]))
      else if tx.inFlight == map[] then this.(tx := tx.(drains := tx.drains[id := Answered(true)]))
      else this.(tx := tx.(drains := tx.drains[id := Waiting], drained := tx.drained.Wait(id)))
    }

    // The timer wins: the parked wait is cancelled and the coroutine resumes.
    function DrainTimer(id: nat): Endpoint
    {
      this.(tx := tx.(drains := tx.drains[id := Resumed], drained := tx.drained.Cancel(id)))
    }

    function DrainResume(id: nat): Endpoint
    {
      this.(tx := tx.(drains := tx.drains[id := Answered(tx.inFlight == map[] && error.None?)]))
    }
  }

  // Steps

  datatype Action =
    | Send(id: nat, plain: Bytes, sealed: Option<Bytes>, now: int)
    | Resume(id: nat, sealed: Option<Bytes>, now: int)
    | Sent(id: nat)
    | SendError(id: nat)
    | Deliver(packet: Packet, now: int)
    | Take
    | Scan(now: int, order: seq<nat>)
    | ResendNext
    | ResendDone(now: int)
    | ResendError
    | Drain(id: nat)
    | DrainTimer(id: nat)
    | DrainResume(id: nat)

  predicate HonestSeal(open: Opener, plain: Bytes, sealed: Option<Bytes>)
  {
    sealed.Some? ==> SealsTo(open, plain, sealed.value)
  }

  predicate Lists(order: seq<nat>, sequences: set<nat>)
  {
    NoDup(order) && (set s | s in order) == sequences
  }

  function Overdue(e: Endpoint, now: int): set<nat>
  {
    set s | s in e.tx.inFlight && e.TimedOut(s, now)
  }

  // Whether an action can happen now, given the datagrams the peer has ever sent. The loops stop at the
  // first error; suspended calls still complete.
  predicate Enabled(open: Opener, e: Endpoint, inbox: set<Packet>, action: Action)
  {
    match action
    case Send(id, plain, sealed, _) => id !in e.tx.calls && HonestSeal(open, plain, sealed)
    case Resume(id, sealed, _) =>
      id in e.tx.calls && e.tx.calls[id].Woken? && HonestSeal(open, e.tx.calls[id].plain, sealed)
    case Sent(id) => id in e.tx.calls && e.tx.calls[id].Sending?
    case SendError(id) => id in e.tx.calls && e.tx.calls[id].Sending?
    case Deliver(packet, _) => packet in inbox && e.error.None?
    case Take => e.rx.queue != [] && e.error.None?
    case Scan(now, order) =>
      e.error.None? && e.timer == Timer([], None) && Lists(order, Overdue(e, now))
    case ResendNext => e.error.None? && e.timer.pending != [] && e.timer.resending.None?
    case ResendDone(_) => e.error.None? && e.timer.resending.Some?
    case ResendError => e.error.None? && e.timer.resending.Some?
    case Drain(id) => id !in e.tx.drains
    case DrainTimer(id) => id in e.tx.drains && e.tx.drains[id].Waiting?
    case DrainResume(id) => id in e.tx.drains && e.tx.drains[id].Resumed?
  }

  // One step; an action that cannot happen changes nothing.
  function Act(open: Opener, e: Endpoint, inbox: set<Packet>, action: Action): Endpoint
  {
    if !Enabled(open, e, inbox, action) then e
    else
      match action
      case Send(id, plain, sealed, now) => e.Send(id, plain, sealed, now)
      case Resume(id, sealed, now) => e.Attempt(id, e.tx.calls[id].plain, sealed, now)
      case Sent(id) => e.(tx := e.tx.(calls := e.tx.calls[id := Returned(None)]))
      case SendError(id) => e.(tx := e.tx.OnSendError(id, e.tx.calls[id].sequence))
      case Deliver(packet, now) => e.Receive(open, packet, now)
      case Take => e.Take()
      case Scan(now, order) => e.Scan(now, order)
      case ResendNext => e.ResendNext()
      case ResendDone(now) => e.ResendDone(now)
      case ResendError => e.Fail(NetworkError)
      case Drain(id) => e.Drain(id)
      case DrainTimer(id) => e.DrainTimer(id)
      case DrainResume(id) => e.DrainResume(id)
  }
}
