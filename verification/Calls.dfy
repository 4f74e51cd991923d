/** What becomes of each call of send_packet, told from the events of the run alone. */
module Calls {
  import opened Basics
  import opened Transport
  import opened Link

  // The payload of each call: that of the first send event with its id. (A repeated id, or a cipher result that
  // the cipher cannot give, is no event.)
  function Submitted(open: Opener, events: seq<Event>, side: Side): map<nat, Bytes>
  {
    if events == [] then map[]
    else
      var earlier, event := Submitted(open, events[..|events| - 1], side), events[|events| - 1];
      if event.side == side then Submits(open, earlier, event.action) else earlier
  }

  function Submits(open: Opener, earlier: map<nat, Bytes>, action: Action): map<nat, Bytes>
  {
    if action.Send? && action.id !in earlier && HonestSeal(open, action.plain, action.sealed) then
      earlier[action.id := action.plain]
    else earlier
  }

  // The calls that were assigned a number, in the order of their numbers from 1 on.
  function Assigned(open: Opener, start: System, events: seq<Event>, side: Side): seq<nat>
  {
    if events == [] then []
    else
      var before, event := Run(open, start, events[..|events| - 1]), events[|events| - 1];
      var earlier := Assigned(open, start, events[..|events| - 1], side);
      if event.side == side then earlier + Assigns(open, before.At(side), before.At(Peer(side)).sent, event.action)
      else earlier
  }

  // The call that uses up a number in this step, if one does.
  function Assigns(open: Opener, e: Endpoint, inbox: set<Packet>, action: Action): seq<nat>
  {
    if (action.Send? || action.Resume?) && |Act(open, e, inbox, action).tx.log| > |e.tx.log| then [action.id] else []
  }

  // The call whose socket send completes in this step, and the call whose socket send fails.
  function Finishes(open: Opener, e: Endpoint, inbox: set<Packet>, action: Action): set<nat>
  {
    if action.Sent? && Enabled(open, e, inbox, action) then {action.id} else {}
  }

  function Breaks(open: Opener, e: Endpoint, inbox: set<Packet>, action: Action): set<nat>
  {
    if action.SendError? && Enabled(open, e, inbox, action) then {action.id} else {}
  }

  function Completed(open: Opener, start: System, events: seq<Event>, side: Side): set<nat>
  {
    if events == [] then {}
    else
      var before, event := Run(open, start, events[..|events| - 1]), events[|events| - 1];
      var earlier := Completed(open, start, events[..|events| - 1], side);
      if event.side == side then earlier + Finishes(open, before.At(side), before.At(Peer(side)).sent, event.action)
      else earlier
  }

  function Failed(open: Opener, start: System, events: seq<Event>, side: Side): set<nat>
  {
    if events == [] then {}
    else
      var before, event := Run(open, start, events[..|events| - 1]), events[|events| - 1];
      var earlier := Failed(open, start, events[..|events| - 1], side);
      if event.side == side then earlier + Breaks(open, before.At(side), before.At(Peer(side)).sent, event.action)
      else earlier
  }

  // Payloads

  ghost predicate Waits(call: SendCall, plain: Bytes)
  {
    call.Parked? || call.Woken? ==> call.plain == plain
  }

  // Number k carries what its call submitted.
  ghost predicate Carries(log: seq<Slot>, submitted: map<nat, Bytes>, callers: seq<nat>, k: nat)
    requires 1 <= k < |log| && |log| == |callers| + 1
  {
    callers[k - 1] in submitted && log[k].plain == submitted[callers[k - 1]]
  }

  // Each call that waits holds the payload submitted to it, each number carries that of its call, and no call
  // has two numbers.
  ghost predicate PayloadsOk(tx: Tx, submitted: map<nat, Bytes>, callers: seq<nat>)
  {
    && tx.calls.Keys == submitted.Keys
    && (forall id :: id in tx.calls ==> Waits(tx.calls[id], submitted[id]))
    && |tx.log| == |callers| + 1
    && (forall k :: 1 <= k < |tx.log| ==> Carries(tx.log, submitted, callers, k))
    && NoDup(callers)
    && (forall id :: id in callers ==> id in tx.calls && (tx.calls[id].Sending? || tx.calls[id].Returned?))
  }

  // Nothing but wakeups and answers happened to the calls.
  ghost predicate SameCalls(t: Tx, u: Tx)
  {
    && u.log == t.log && u.calls.Keys == t.calls.Keys
    && forall id :: id in t.calls ==>
         || u.calls[id] == t.calls[id]
         || (t.calls[id].Parked? && u.calls[id] == Woken(t.calls[id].plain))
         || (t.calls[id].Sending? && u.calls[id].Returned?)
  }

  lemma SameCallsKeep(t: Tx, u: Tx, submitted: map<nat, Bytes>, callers: seq<nat>)
    requires PayloadsOk(t, submitted, callers) && SameCalls(t, u)
    ensures PayloadsOk(u, submitted, callers)
  {
    forall k | 1 <= k < |u.log|
      ensures Carries(u.log, submitted, callers, k)
    {
      assert Carries(t.log, submitted, callers, k);
    }
    forall id | id in u.calls
      ensures Waits(u.calls[id], submitted[id])
    {
      assert Waits(t.calls[id], submitted[id]);
    }
  }

  lemma WakesKeepCalls(e: Endpoint, error: Error, sequence: nat)
    ensures SameCalls(e.tx, e.Fail(error).tx)
    ensures SameCalls(e.tx, e.tx.OnAck(sequence))
  {
  }

  lemma ReceiveKeepsCalls(open: Opener, e: Endpoint, packet: Packet, now: int)
    ensures SameCalls(e.tx, e.Receive(open, packet, now).tx)
  {
    var touched := e.(lastPeerActivity := now);
    WakesKeepCalls(touched, PacketTooLarge, packet.sequence);
    WakesKeepCalls(touched.Acknowledge(packet.sequence), DecryptFailed, packet.sequence);
    hide Endpoint.Fail, Tx.OnAck, SameCalls, Decrypt;
    NothingKeepsCalls(e.tx);
  }

  lemma NothingKeepsCalls(tx: Tx)
    ensures SameCalls(tx, tx)
  {
  }

  lemma SendErrorKeepsCalls(tx: Tx, id: nat)
    requires id in tx.calls && tx.calls[id].Sending?
    ensures SameCalls(tx, tx.OnSendError(id, tx.calls[id].sequence))
  {
  }

  // A call without a number waits or is answered.
  lemma CallKeepsPayloads(t: Tx, u: Tx, id: nat, plain: Bytes, submitted: map<nat, Bytes>, callers: seq<nat>)
    requires PayloadsOk(t, submitted, callers) && id !in callers
    requires u.log == t.log && id in u.calls && u.calls == t.calls[id := u.calls[id]] && Waits(u.calls[id], plain)
    ensures PayloadsOk(u, submitted[id := plain], callers)
  {
    var more := submitted[id := plain];
    forall k | 1 <= k < |u.log|
      ensures Carries(u.log, more, callers, k)
    {
      assert Carries(t.log, submitted, callers, k);
    }
    forall other | other in u.calls
      ensures Waits(u.calls[other], more[other])
    {
      assert other != id ==> Waits(t.calls[other], submitted[other]);
    }
  }

  // A call is given the next number.
  lemma NumberKeepsPayloads(t: Tx, u: Tx, id: nat, plain: Bytes, submitted: map<nat, Bytes>, callers: seq<nat>)
    requires PayloadsOk(t, submitted, callers) && id !in callers
    requires |u.log| == |t.log| + 1 && u.log[..|t.log|] == t.log && u.log[|t.log|].plain == plain
    requires id in u.calls && u.calls == t.calls[id := u.calls[id]]
    requires u.calls[id].Sending? || u.calls[id].Returned?
    ensures PayloadsOk(u, submitted[id := plain], callers + [id])
  {
    var more, all := submitted[id := plain], callers + [id];
    forall k | 1 <= k < |u.log|
      ensures Carries(u.log, more, all, k)
    {
      if k < |t.log| {
        assert Carries(t.log, submitted, callers, k) && u.log[k] == t.log[k];
      }
    }
    forall other | other in u.calls
      ensures Waits(u.calls[other], more[other])
    {
      assert other != id ==> Waits(t.calls[other], submitted[other]);
    }
  }

  // One turn of the admission loop for a call that has no number yet.
  lemma AttemptKeepsPayloads(e: Endpoint, id: nat, plain: Bytes, sealed: Option<Bytes>, now: int,
                             submitted: map<nat, Bytes>, callers: seq<nat>)
    requires PayloadsOk(e.tx, submitted, callers) && id !in callers
    ensures var r := e.Attempt(id, plain, sealed, now).tx;
            PayloadsOk(r, submitted[id := plain], if |r.log| > |e.tx.log| then callers + [id] else callers)
  {
    hide PayloadsOk;
    var r := e.Attempt(id, plain, sealed, now).tx;
    if |r.log| > |e.tx.log| {
      NumberKeepsPayloads(e.tx, r, id, plain, submitted, callers);
    } else {
      CallKeepsPayloads(e.tx, r, id, plain, submitted, callers);
    }
  }

  lemma SendKeepsPayloads(open: Opener, e: Endpoint, inbox: set<Packet>, action: Action, submitted: map<nat, Bytes>,
                          callers: seq<nat>)
    requires PayloadsOk(e.tx, submitted, callers) && Enabled(open, e, inbox, action)
    requires action.Send? || action.Resume?
    ensures PayloadsOk(Act(open, e, inbox, action).tx, Submits(open, submitted, action),
                       callers + Assigns(open, e, inbox, action))
  {
    hide Endpoint.Attempt;
    assert callers + [] == callers;
    var id := action.id;
    var plain := if action.Send? then action.plain else e.tx.calls[id].plain;
    if action.Resume? {
      assert Waits(e.tx.calls[id], submitted[id]);
      assert submitted[id := plain] == submitted;
    }
    assert id !in callers;
    if action.Resume? || |plain| <= PACKET_PAYLOAD_SIZE {
      AttemptKeepsPayloads(e, id, plain, action.sealed, action.now, submitted, callers);
    } else {
      var r := Act(open, e, inbox, action).tx;
      CallKeepsPayloads(e.tx, r, id, plain, submitted, callers);
    }
  }

  lemma ActKeepsPayloads(open: Opener, e: Endpoint, inbox: set<Packet>, action: Action, submitted: map<nat, Bytes>,
                         callers: seq<nat>)
    requires PayloadsOk(e.tx, submitted, callers)
    ensures PayloadsOk(Act(open, e, inbox, action).tx, Submits(open, submitted, action),
                       callers + Assigns(open, e, inbox, action))
  {
    assert callers + [] == callers;
    if !Enabled(open, e, inbox, action) {
      assert Assigns(open, e, inbox, action) == [];
    } else if action.Send? || action.Resume? {
      SendKeepsPayloads(open, e, inbox, action, submitted, callers);
    } else {
      OtherKeepsCalls(open, e, inbox, action);
      SameCallsKeep(e.tx, Act(open, e, inbox, action).tx, submitted, callers);
    }
  }

  lemma OtherKeepsCalls(open: Opener, e: Endpoint, inbox: set<Packet>, action: Action)
    requires Enabled(open, e, inbox, action) && !action.Send? && !action.Resume?
    ensures SameCalls(e.tx, Act(open, e, inbox, action).tx)
    ensures Assigns(open, e, inbox, action) == []
  {
    hide Endpoint.Receive, Endpoint.Fail, Tx.OnSendError;
    match action
    case Deliver(packet, now) => ReceiveKeepsCalls(open, e, packet, now);
    case SendError(id) => SendErrorKeepsCalls(e.tx, id);
    case Scan(_, _) => WakesKeepCalls(e, IdleTimeout, 0);
    case ResendError => WakesKeepCalls(e, NetworkError, 0);
    case _ =>
  }

  // In every run each number carries the payload of the call it was assigned to, and no call has two numbers.
  lemma {:induction false} NumbersCarrySubmitted(open: Opener, start: System, events: seq<Event>, side: Side)
    requires InitialSystem(open, start)
    ensures PayloadsOk(Run(open, start, events).At(side).tx, Submitted(open, events, side),
                       Assigned(open, start, events, side))
  {
    if events != [] {
      hide Act, PayloadsOk, InitialSystem, Submits, Assigns;
      var before, event := Run(open, start, events[..|events| - 1]), events[|events| - 1];
      NumbersCarrySubmitted(open, start, events[..|events| - 1], side);
      if event.side == side {
        ActKeepsPayloads(open, before.At(side), before.At(Peer(side)).sent, event.action,
                         Submitted(open, events[..|events| - 1], side),
                         Assigned(open, start, events[..|events| - 1], side));
      }
    }
  }

  // The payloads submitted, in the order of their numbers.
  function SubmittedPayloads(open: Opener, start: System, events: seq<Event>, side: Side): seq<Bytes>
  {
    var callers, submitted := Assigned(open, start, events, side), Submitted(open, events, side);
    seq(|callers|, i requires 0 <= i < |callers| => if callers[i] in submitted then submitted[callers[i]] else [])
  }

  // Admission

  // Fewer packets are in flight than the window, rounded down, and than 1024.
  predicate HasRoom(tx: Tx)
  {
    |tx.inFlight| < tx.cwnd.value.Floor && |tx.inFlight| < 1024
  }

  lemma AttemptAdmits(e: Endpoint, id: nat, plain: Bytes, sealed: Option<Bytes>, now: int)
    requires e.error.None?
    ensures var r := e.Attempt(id, plain, sealed, now);
            && (|r.tx.log| == |e.tx.log| + 1 <==> HasRoom(e.tx))
            && (!HasRoom(e.tx) ==>
                  && r.tx.log == e.tx.log && r.sent == e.sent && r.tx.calls == e.tx.calls[id := Parked(plain)]
                  && r.tx.cwnd.waiters == e.tx.cwnd.waiters + [id])
  {
  }

  // The payload of a call that runs is the one submitted for it.
  lemma RunsWithSubmitted(open: Opener, start: System, events: seq<Event>, side: Side, action: Action)
    requires InitialSystem(open, start) && (action.Send? || action.Resume?)
    requires var s := Run(open, start, events); Enabled(open, s.At(side), s.At(Peer(side)).sent, action)
    ensures action.id in Submitted(open, events + [Event(side, action)], side)
    ensures var plain := Submitted(open, events + [Event(side, action)], side)[action.id];
            var e := Run(open, start, events).At(side);
            if action.Send? then plain == action.plain
            else action.id in e.tx.calls && e.tx.calls[action.id] == Woken(plain)
  {
    hide Run, InitialSystem;
    NumbersCarrySubmitted(open, start, events, side);
    assert (events + [Event(side, action)])[..|events|] == events;
    var e := Run(open, start, events).At(side);
    if action.Resume? {
      assert Waits(e.tx.calls[action.id], Submitted(open, events, side)[action.id]);
    }
  }

  // A call that runs with no error stored is given a number exactly when the window has room. Otherwise it is
  // parked behind the others, with the payload submitted.
  lemma AdmittedIff(open: Opener, start: System, events: seq<Event>, side: Side, action: Action)
    requires InitialSystem(open, start) && (action.Send? || action.Resume?)
    requires var s := Run(open, start, events);
             Enabled(open, s.At(side), s.At(Peer(side)).sent, action) && s.At(side).error.None?
    ensures action.id in Submitted(open, events + [Event(side, action)], side)
    ensures var plain := Submitted(open, events + [Event(side, action)], side)[action.id];
            var e, r := Run(open, start, events).At(side), Run(open, start, events + [Event(side, action)]).At(side);
            |plain| <= 1400 || action.Resume? ==>
              && (|r.tx.log| == |e.tx.log| + 1 <==> HasRoom(e.tx))
              && (!HasRoom(e.tx) ==>
                    && r.tx.log == e.tx.log && r.sent == e.sent
                    && r.tx.calls == e.tx.calls[action.id := Parked(plain)]
                    && r.tx.cwnd.waiters == e.tx.cwnd.waiters + [action.id])
  {
    hide Run, InitialSystem, HasRoom, Endpoint.Attempt, Submitted;
    RunsWithSubmitted(open, start, events, side, action);
    OneMore(open, start, events, Event(side, action));
    var plain := Submitted(open, events + [Event(side, action)], side)[action.id];
    AttemptAdmits(Run(open, start, events).At(side), action.id, plain, action.sealed, action.now);
  }

  // Whatever is submitted and whatever the cipher gives: a datagram goes out exactly when the payload has at most
  // 1400 bytes and its sealing at most 1428.
  lemma AttemptSends(e: Endpoint, id: nat, plain: Bytes, sealed: Option<Bytes>, now: int)
    requires e.error.None? && HasRoom(e.tx)
    ensures var r, n := e.Attempt(id, plain, sealed, now), e.tx.counter;
            && r.tx.counter == (n + 1) % TWO32
            && if |plain| <= 1400 && sealed.Some? && |sealed.value| <= 1428 then
                 var p := Packet(DATA, n, sealed.value);
                 && r.sent == e.sent + {p} && r.tx.calls == e.tx.calls[id := Sending(n)]
                 && r.tx.inFlight == e.tx.inFlight[n := PacketLocal(now, p)]
               else
                 var answer := if |plain| <= 1400 && sealed.None? then EncryptFailed else PacketTooLarge;
                 && r.sent == e.sent && r.tx.inFlight == e.tx.inFlight
                 && r.tx.calls == e.tx.calls[id := Returned(Some(answer))]
  {
  }

  // A call with room uses up a number whatever happens. Exactly when the cipher succeeds does a datagram go out, which
  // is numbered so, opens to the payload submitted, and is registered; else the call answers the cipher's error.
  lemma AdmissionSendsIff(open: Opener, start: System, events: seq<Event>, side: Side, action: Action)
    requires InitialSystem(open, start) && (action.Send? || action.Resume?)
    requires var s := Run(open, start, events);
             && Enabled(open, s.At(side), s.At(Peer(side)).sent, action) && s.At(side).error.None?
             && HasRoom(s.At(side).tx)
    ensures action.id in Submitted(open, events + [Event(side, action)], side)
    ensures var plain := Submitted(open, events + [Event(side, action)], side)[action.id];
            var e, r := Run(open, start, events).At(side), Run(open, start, events + [Event(side, action)]).At(side);
            var n := e.tx.counter;
            |plain| <= 1400 ==>
              && r.tx.counter == (n + 1) % TWO32
              && match action.sealed {
                   case Some(body) =>
                     && (plain != [] ==> open(body) == Some(plain)) && r.sent == e.sent + {Packet(DATA, n, body)}
                     && r.tx.calls == e.tx.calls[action.id := Sending(n)]
                     && r.tx.inFlight == e.tx.inFlight[n := PacketLocal(action.now, Packet(DATA, n, body))]
                   case None =>
                     && r.tx.calls == e.tx.calls[action.id := Returned(Some(EncryptFailed))] && r.sent == e.sent
                     && r.tx.inFlight == e.tx.inFlight
                 }
  {
    hide Run, InitialSystem, HasRoom, Endpoint.Attempt, Submitted;
    RunsWithSubmitted(open, start, events, side, action);
    OneMore(open, start, events, Event(side, action));
    var plain := Submitted(open, events + [Event(side, action)], side)[action.id];
    if |plain| <= 1400 {
      AttemptSends(Run(open, start, events).At(side), action.id, plain, action.sealed, action.now);
    }
  }

  // Answers

  // What a call's state says of its history.
  ghost predicate AnswerOk(e: Endpoint, plain: Bytes, callers: seq<nat>, done: set<nat>, failed: set<nat>, id: nat)
    requires id in e.tx.calls
  {
    match e.tx.calls[id]
    case Parked(_) => |plain| <= PACKET_PAYLOAD_SIZE && id !in callers && id !in done && id !in failed
    case Woken(_) => |plain| <= PACKET_PAYLOAD_SIZE && id !in callers && id !in done && id !in failed
    case Sending(n) =>
      && |plain| <= PACKET_PAYLOAD_SIZE && id !in done && id !in failed
      && 1 <= n <= |callers| && callers[n - 1] == id
    case Returned(answer) =>
      && (answer.None? <==> id in done)
      && (answer == Some(StreamPayloadTooLarge) <==> |plain| > PACKET_PAYLOAD_SIZE)
      && (id in failed ==> answer == Some(NetworkError))
      && (id in done || id in failed ==> id in callers)
      && (id in callers && id !in done && id !in failed ==> answer == Some(EncryptFailed))
      && (id !in callers && |plain| <= PACKET_PAYLOAD_SIZE ==> e.error.Some? && answer == e.error)
  }

  // A number was reported as failed exactly when its call was answered with an error.
  ghost predicate ReportOk(tx: Tx, callers: seq<nat>, k: nat)
    requires 1 <= k <= |callers|
  {
    var id := callers[k - 1];
    k in tx.failed <==> id in tx.calls && tx.calls[id].Returned? && tx.calls[id].error.Some?
  }

  ghost predicate AnswersOk(e: Endpoint, submitted: map<nat, Bytes>, callers: seq<nat>, done: set<nat>,
                            failed: set<nat>)
  {
    && PayloadsOk(e.tx, submitted, callers) && e.error != Some(StreamPayloadTooLarge)
    && (forall id :: id in e.tx.calls ==> AnswerOk(e, submitted[id], callers, done, failed, id))
    && (forall k :: 1 <= k <= |callers| ==> ReportOk(e.tx, callers, k))
    && (forall id :: id in done || id in failed ==> id in e.tx.calls)
  }

  // Wakeups, and an error stored for the first time.
  ghost predicate OnlyWakes(t: Tx, before: Option<Error>, u: Tx, after: Option<Error>)
  {
    && u.log == t.log && u.failed == t.failed && u.calls.Keys == t.calls.Keys
    && (before.Some? ==> after == before) && after != Some(StreamPayloadTooLarge)
    && forall id :: id in t.calls ==>
         u.calls[id] == t.calls[id] || (t.calls[id].Parked? && u.calls[id] == Woken(t.calls[id].plain))
  }

  lemma WakesKeepAnswers(e: Endpoint, r: Endpoint, submitted: map<nat, Bytes>, callers: seq<nat>, done: set<nat>,
                         failed: set<nat>)
    requires AnswersOk(e, submitted, callers, done, failed) && OnlyWakes(e.tx, e.error, r.tx, r.error)
    ensures AnswersOk(r, submitted, callers, done, failed)
  {
    SameCallsKeep(e.tx, r.tx, submitted, callers);
    hide PayloadsOk;
    forall id | id in r.tx.calls
      ensures id in submitted && AnswerOk(r, submitted[id], callers, done, failed, id)
    {
      assert AnswerOk(e, submitted[id], callers, done, failed, id);
    }
    forall k | 1 <= k <= |callers|
      ensures ReportOk(r.tx, callers, k)
    {
      assert ReportOk(e.tx, callers, k);
    }
  }

  lemma FailOnlyWakes(e: Endpoint, error: Error)
    requires e.error != Some(StreamPayloadTooLarge) && error != StreamPayloadTooLarge
    ensures OnlyWakes(e.tx, e.error, e.Fail(error).tx, e.Fail(error).error)
  {
  }

  lemma AckOnlyWakes(tx: Tx, error: Option<Error>, sequence: nat)
    requires error != Some(StreamPayloadTooLarge)
    ensures OnlyWakes(tx, error, tx.OnAck(sequence), error) && OnlyWakes(tx, error, tx, error)
  {
  }

  lemma ReceiveOnlyWakes(open: Opener, e: Endpoint, packet: Packet, now: int)
    requires e.error != Some(StreamPayloadTooLarge)
    ensures var r := e.Receive(open, packet, now); OnlyWakes(e.tx, e.error, r.tx, r.error)
  {
    var touched := e.(lastPeerActivity := now);
    FailOnlyWakes(touched, PacketTooLarge);
    FailOnlyWakes(touched.Acknowledge(packet.sequence), DecryptFailed);
    AckOnlyWakes(e.tx, e.error, packet.sequence);
    hide Endpoint.Fail, Tx.OnAck, OnlyWakes, Decrypt;
  }

  lemma OtherOnlyWakes(open: Opener, e: Endpoint, inbox: set<Packet>, action: Action)
    requires e.error != Some(StreamPayloadTooLarge)
    requires !action.Send? && !action.Resume? && !action.Sent? && !action.SendError?
    ensures var r := Act(open, e, inbox, action); OnlyWakes(e.tx, e.error, r.tx, r.error)
  {
    hide Endpoint.Receive, Endpoint.Fail;
    if Enabled(open, e, inbox, action) {
      match action
      case Deliver(packet, now) => ReceiveOnlyWakes(open, e, packet, now);
      case Scan(_, _) => FailOnlyWakes(e, IdleTimeout);
      case ResendError => FailOnlyWakes(e, NetworkError);
      case _ =>
    }
  }

  // One call moves, and other calls are at most woken.
  lemma OneCallKeepsAnswers(e: Endpoint, r: Endpoint, id: nat, submitted: map<nat, Bytes>, more: map<nat, Bytes>,
                            callers: seq<nat>, all: seq<nat>, done: set<nat>, finished: set<nat>, failed: set<nat>,
                            broken: set<nat>)
    requires AnswersOk(e, submitted, callers, done, failed) && PayloadsOk(r.tx, more, all) && r.error == e.error
    requires id in more && more == submitted[id := more[id]] && (all == callers || all == callers + [id])
    requires done <= finished <= done + {id} && failed <= broken <= failed + {id}
    requires forall other :: other in e.tx.calls && other != id ==>
               || r.tx.calls[other] == e.tx.calls[other]
               || (e.tx.calls[other].Parked? && r.tx.calls[other] == Woken(e.tx.calls[other].plain))
    requires forall k :: 1 <= k <= |callers| && callers[k - 1] != id ==> (k in r.tx.failed <==> k in e.tx.failed)
    requires id in r.tx.calls && AnswerOk(r, more[id], all, finished, broken, id)
    requires forall k :: 1 <= k <= |all| && all[k - 1] == id ==> ReportOk(r.tx, all, k)
    ensures AnswersOk(r, more, all, finished, broken)
  {
    PayloadParts(e.tx, submitted, callers);
    PayloadParts(r.tx, more, all);
    hide PayloadsOk, NoDup, AnswerOk, ReportOk;
    forall other | other in r.tx.calls && other != id
      ensures other in more && AnswerOk(r, more[other], all, finished, broken, other)
    {
      assert AnswerOk(e, submitted[other], callers, done, failed, other);
      OtherAnswerKept(e, r, submitted[other], callers, all, done, finished, failed, broken, id, other);
    }
    forall k | 1 <= k <= |all|
      ensures ReportOk(r.tx, all, k)
    {
      if all[k - 1] != id {
        OtherReportKept(e, r, callers, all, id, k);
      }
    }
  }

  lemma OtherReportKept(e: Endpoint, r: Endpoint, callers: seq<nat>, all: seq<nat>, id: nat, k: nat)
    requires 1 <= k <= |callers| && (all == callers || all == callers + [id])
    requires all[k - 1] != id && ReportOk(e.tx, callers, k) && r.tx.calls.Keys == e.tx.calls.Keys + {id}
    requires forall other :: other in e.tx.calls && other != id ==>
               || r.tx.calls[other] == e.tx.calls[other]
               || (e.tx.calls[other].Parked? && r.tx.calls[other] == Woken(e.tx.calls[other].plain))
    requires k in r.tx.failed <==> k in e.tx.failed
    ensures ReportOk(r.tx, all, k)
  {
  }

  lemma OtherAnswerKept(e: Endpoint, r: Endpoint, plain: Bytes, callers: seq<nat>, all: seq<nat>, done: set<nat>,
                        finished: set<nat>, failed: set<nat>, broken: set<nat>, id: nat, other: nat)
    requires other in e.tx.calls && other in r.tx.calls && other != id && r.error == e.error
    requires AnswerOk(e, plain, callers, done, failed, other) && (all == callers || all == callers + [id])
    requires done <= finished <= done + {id} && failed <= broken <= failed + {id}
    requires || r.tx.calls[other] == e.tx.calls[other]
             || (e.tx.calls[other].Parked? && r.tx.calls[other] == Woken(e.tx.calls[other].plain))
    ensures AnswerOk(r, plain, all, finished, broken, other)
  {
  }

  lemma PayloadParts(tx: Tx, submitted: map<nat, Bytes>, callers: seq<nat>)
    requires PayloadsOk(tx, submitted, callers)
    ensures tx.calls.Keys == submitted.Keys && |tx.log| == |callers| + 1 && NoDup(callers)
    ensures forall id :: id in callers ==> id in tx.calls && (tx.calls[id].Sending? || tx.calls[id].Returned?)
  {
  }

  // The socket send of a call completed.
  lemma SentKeepsAnswers(e: Endpoint, r: Endpoint, id: nat, submitted: map<nat, Bytes>, callers: seq<nat>,
                         done: set<nat>, failed: set<nat>)
    requires AnswersOk(e, submitted, callers, done, failed) && id in e.tx.calls && e.tx.calls[id].Sending?
    requires r == e.(tx := e.tx.(calls := e.tx.calls[id := Returned(None)]))
    ensures AnswersOk(r, submitted, callers, done + {id}, failed)
  {
    SameCallsKeep(e.tx, r.tx, submitted, callers);
    PayloadParts(e.tx, submitted, callers);
    hide PayloadsOk, NoDup;
    assert AnswerOk(e, submitted[id], callers, done, failed, id);
    assert submitted[id := submitted[id]] == submitted;
    forall k | 1 <= k <= |callers| && callers[k - 1] == id
      ensures ReportOk(r.tx, callers, k)
    {
      assert ReportOk(e.tx, callers, k);
    }
    OneCallKeepsAnswers(e, r, id, submitted, submitted, callers, callers, done, done + {id}, failed, failed);
  }

  lemma SendErrorOnCalls(tx: Tx, id: nat, n: nat)
    requires id in tx.calls && tx.calls[id] == Sending(n)
    ensures var u := tx.OnSendError(id, n);
            && u.log == tx.log && u.failed == tx.failed + {n} && u.calls.Keys == tx.calls.Keys
            && u.calls[id] == Returned(Some(NetworkError))
            && forall other :: other in tx.calls && other != id ==>
                 || u.calls[other] == tx.calls[other]
                 || (tx.calls[other].Parked? && u.calls[other] == Woken(tx.calls[other].plain))
  {
  }

  lemma SendErrorAnswers(e: Endpoint, r: Endpoint, id: nat, plain: Bytes, callers: seq<nat>, done: set<nat>,
                         failed: set<nat>)
    requires id in e.tx.calls && e.tx.calls[id].Sending? && AnswerOk(e, plain, callers, done, failed, id)
    requires NoDup(callers) && r.tx.failed == e.tx.failed + {e.tx.calls[id].sequence}
    requires id in r.tx.calls && r.tx.calls[id] == Returned(Some(NetworkError))
    ensures AnswerOk(r, plain, callers, done, failed + {id}, id)
    ensures var n := e.tx.calls[id].sequence;
            && 1 <= n <= |callers| && callers[n - 1] == id && ReportOk(r.tx, callers, n)
            && forall i :: 0 <= i < |callers| && callers[i] == id ==> i == n - 1
  {
    assert callers[e.tx.calls[id].sequence - 1] == id && id in callers;
  }

  // The socket send of a call failed.
  lemma SendErrorKeepsAnswers(e: Endpoint, r: Endpoint, id: nat, submitted: map<nat, Bytes>, callers: seq<nat>,
                              done: set<nat>, failed: set<nat>)
    requires AnswersOk(e, submitted, callers, done, failed) && id in e.tx.calls && e.tx.calls[id].Sending?
    requires r == e.(tx := e.tx.OnSendError(id, e.tx.calls[id].sequence))
    ensures AnswersOk(r, submitted, callers, done, failed + {id})
  {
    var n := e.tx.calls[id].sequence;
    SendErrorKeepsCalls(e.tx, id);
    SameCallsKeep(e.tx, r.tx, submitted, callers);
    PayloadParts(e.tx, submitted, callers);
    SendErrorOnCalls(e.tx, id, n);
    SendErrorAnswers(e, r, id, submitted[id], callers, done, failed);
    hide PayloadsOk, Tx.OnSendError, NoDup, AnswerOk, ReportOk;
    assert submitted[id := submitted[id]] == submitted;
    OneCallKeepsAnswers(e, r, id, submitted, submitted, callers, callers, done, done, failed, failed + {id});
  }

  // A call runs.
  lemma AttemptOnCalls(open: Opener, e: Endpoint, id: nat, plain: Bytes, sealed: Option<Bytes>, now: int)
    requires |plain| <= PACKET_PAYLOAD_SIZE && HonestSeal(open, plain, sealed)
    ensures var r := e.Attempt(id, plain, sealed, now);
            && r.error == e.error && r.tx.calls.Keys == e.tx.calls.Keys + {id}
            && (forall other :: other in e.tx.calls && other != id ==> r.tx.calls[other] == e.tx.calls[other])
            && if |r.tx.log| > |e.tx.log| then
                 || (r.tx.calls[id] == Sending(e.tx.counter) && r.tx.failed == e.tx.failed)
                 || (r.tx.calls[id] == Returned(Some(EncryptFailed)) && r.tx.failed == e.tx.failed + {e.tx.counter})
               else
                 && r.tx.failed == e.tx.failed
                 && (r.tx.calls[id] == Parked(plain) || (e.error.Some? && r.tx.calls[id] == Returned(e.error)))
  {
    SealOfHonest(open, plain, sealed);
    hide Seal, SealsTo;
  }

  lemma SealOfHonest(open: Opener, plain: Bytes, sealed: Option<Bytes>)
    requires |plain| <= PACKET_PAYLOAD_SIZE && HonestSeal(open, plain, sealed)
    ensures Seal(plain, sealed) == if sealed.None? then Err(EncryptFailed) else Ok(sealed.value)
  {
  }

  lemma NextNumberIsNew(e: Endpoint)
    requires TxOk(e.tx, e.error) && e.error.None?
    ensures e.tx.counter == |e.tx.log| && e.tx.counter !in e.tx.failed
  {
  }

  lemma NumbersNeedNoError(e: Endpoint, id: nat, plain: Bytes, sealed: Option<Bytes>, now: int)
    ensures |e.Attempt(id, plain, sealed, now).tx.log| > |e.tx.log| ==> e.error.None?
  {
  }

  lemma AttemptKeepsAnswers(open: Opener, e: Endpoint, id: nat, plain: Bytes, sealed: Option<Bytes>, now: int,
                            submitted: map<nat, Bytes>, callers: seq<nat>, done: set<nat>, failed: set<nat>)
    requires AnswersOk(e, submitted, callers, done, failed) && TxOk(e.tx, e.error)
    requires |plain| <= PACKET_PAYLOAD_SIZE && HonestSeal(open, plain, sealed)
    requires id !in callers && id !in done && id !in failed
    ensures var r := e.Attempt(id, plain, sealed, now);
            var all := if |r.tx.log| > |e.tx.log| then callers + [id] else callers;
            AnswersOk(r, submitted[id := plain], all, done, failed)
  {
    AttemptKeepsPayloads(e, id, plain, sealed, now, submitted, callers);
    AttemptOnCalls(open, e, id, plain, sealed, now);
    NumbersNeedNoError(e, id, plain, sealed, now);
    PayloadParts(e.tx, submitted, callers);
    if e.error.None? {
      NextNumberIsNew(e);
    }
    hide PayloadsOk, TxOk, HonestSeal, NoDup, Endpoint.Attempt, ReportOk;
    var r := e.Attempt(id, plain, sealed, now);
    var all := if |r.tx.log| > |e.tx.log| then callers + [id] else callers;
    assert AnswerOk(r, plain, all, done, failed, id);
    NewReport(e, r, id, callers, all);
    hide AnswerOk;
    OneCallKeepsAnswers(e, r, id, submitted, submitted[id := plain], callers, all, done, done, failed, failed);
  }

  lemma NewReport(e: Endpoint, r: Endpoint, id: nat, callers: seq<nat>, all: seq<nat>)
    requires id !in callers && id in r.tx.calls
    requires all == callers || (all == callers + [id] && e.tx.counter == |all| && e.tx.counter !in e.tx.failed)
    requires all != callers ==>
               || (r.tx.calls[id].Sending? && r.tx.failed == e.tx.failed)
               || (r.tx.calls[id] == Returned(Some(EncryptFailed)) && r.tx.failed == e.tx.failed + {e.tx.counter})
    ensures forall k :: 1 <= k <= |all| && all[k - 1] == id ==> ReportOk(r.tx, all, k)
  {
    assert forall i :: 0 <= i < |callers| ==> callers[i] != id;
  }

  lemma SendKeepsAnswers(open: Opener, e: Endpoint, inbox: set<Packet>, action: Action, submitted: map<nat, Bytes>,
                         callers: seq<nat>, done: set<nat>, failed: set<nat>)
    requires AnswersOk(e, submitted, callers, done, failed) && TxOk(e.tx, e.error)
    requires Enabled(open, e, inbox, action) && (action.Send? || action.Resume?)
    ensures AnswersOk(Act(open, e, inbox, action), Submits(open, submitted, action),
                      callers + Assigns(open, e, inbox, action), done, failed)
  {
    assert callers + [] == callers;
    PayloadParts(e.tx, submitted, callers);
    SendKeepsPayloads(open, e, inbox, action, submitted, callers);
    var id := action.id;
    var plain := if action.Send? then action.plain else e.tx.calls[id].plain;
    if action.Resume? {
      assert Waits(e.tx.calls[id], submitted[id]);
      assert submitted[id := plain] == submitted;
      assert AnswerOk(e, submitted[id], callers, done, failed, id);
    }
    hide PayloadsOk, TxOk, Endpoint.Attempt, NoDup;
    assert id !in callers && id !in done && id !in failed;
    if action.Resume? || |plain| <= PACKET_PAYLOAD_SIZE {
      AttemptKeepsAnswers(open, e, id, plain, action.sealed, action.now, submitted, callers, done, failed);
    } else {
      var r := Act(open, e, inbox, action);
      assert AnswerOk(r, plain, callers, done, failed, id);
      OneCallKeepsAnswers(e, r, id, submitted, submitted[id := plain], callers, callers, done, done, failed, failed);
    }
  }

  lemma ActKeepsAnswers(open: Opener, e: Endpoint, inbox: set<Packet>, action: Action, submitted: map<nat, Bytes>,
                        callers: seq<nat>, done: set<nat>, failed: set<nat>)
    requires AnswersOk(e, submitted, callers, done, failed) && TxOk(e.tx, e.error)
    ensures AnswersOk(Act(open, e, inbox, action), Submits(open, submitted, action),
                      callers + Assigns(open, e, inbox, action),
                      done + Finishes(open, e, inbox, action), failed + Breaks(open, e, inbox, action))
  {
    assert callers + [] == callers && done + {} == done && failed + {} == failed;
    if !Enabled(open, e, inbox, action) {
      SubmitsNothing(open, e, inbox, action, submitted, callers);
    } else if action.Send? || action.Resume? {
      SendKeepsAnswers(open, e, inbox, action, submitted, callers, done, failed);
    } else {
      OtherKeepsCalls(open, e, inbox, action);
      hide PayloadsOk, TxOk;
      if action.Sent? {
        SentKeepsAnswers(e, Act(open, e, inbox, action), action.id, submitted, callers, done, failed);
      } else if action.SendError? {
        SendErrorKeepsAnswers(e, Act(open, e, inbox, action), action.id, submitted, callers, done, failed);
      } else {
        OtherOnlyWakes(open, e, inbox, action);
        WakesKeepAnswers(e, Act(open, e, inbox, action), submitted, callers, done, failed);
      }
    }
  }

  lemma SubmitsNothing(open: Opener, e: Endpoint, inbox: set<Packet>, action: Action, submitted: map<nat, Bytes>,
                       callers: seq<nat>)
    requires PayloadsOk(e.tx, submitted, callers) && !Enabled(open, e, inbox, action)
    ensures Act(open, e, inbox, action) == e && Submits(open, submitted, action) == submitted
    ensures Assigns(open, e, inbox, action) == []
  {
  }

  // In every run the answer of each call, and which numbers were reported as failed, follow from its history.
  lemma {:induction false} AnswersFollow(open: Opener, start: System, events: seq<Event>, side: Side)
    requires InitialSystem(open, start) && InRangeSystem(Run(open, start, events))
    ensures AnswersOk(Run(open, start, events).At(side), Submitted(open, events, side),
                      Assigned(open, start, events, side), Completed(open, start, events, side),
                      Failed(open, start, events, side))
  {
    if events != [] {
      hide Act, AnswersOk, InitialSystem, Submits, Assigns, Finishes, Breaks, SystemOk, TxOk;
      var earlier, event := events[..|events| - 1], events[|events| - 1];
      var before := Run(open, start, earlier);
      StepGrows(open, before, event);
      AnswersFollow(open, start, earlier, side);
      if event.side == side {
        LedgerAt(open, start, earlier, side);
        ActKeepsAnswers(open, before.At(side), before.At(Peer(side)).sent, event.action,
                        Submitted(open, earlier, side), Assigned(open, start, earlier, side),
                        Completed(open, start, earlier, side), Failed(open, start, earlier, side));
      }
    }
  }

  lemma LedgerAt(open: Opener, start: System, events: seq<Event>, side: Side)
    requires InitialSystem(open, start) && InRangeSystem(Run(open, start, events))
    ensures TxOk(Run(open, start, events).At(side).tx, Run(open, start, events).At(side).error)
  {
    InitialIsOk(open, start);
    RunKeepsSystem(open, start, events);
  }

  lemma AnswerRead(e: Endpoint, submitted: map<nat, Bytes>, callers: seq<nat>, done: set<nat>, failed: set<nat>,
                   id: nat)
    requires AnswersOk(e, submitted, callers, done, failed) && id in e.tx.calls && e.tx.calls[id].Returned?
    ensures id in submitted
    ensures var answer := e.tx.calls[id].error;
            && (answer.None? <==> id in done)
            && (answer.Some? ==>
                  if |submitted[id]| > 1400 then answer.value == StreamPayloadTooLarge
                  else if id in failed then answer.value == NetworkError
                  else if id in callers then answer.value == EncryptFailed
                  else answer == e.error)
    ensures forall i :: 0 <= i < |callers| && callers[i] == id ==>
              (i + 1 in e.tx.failed <==> e.tx.calls[id].error.Some?)
  {
    PayloadParts(e.tx, submitted, callers);
    hide PayloadsOk, NoDup;
    assert AnswerOk(e, submitted[id], callers, done, failed, id);
    forall i | 0 <= i < |callers| && callers[i] == id
      ensures i + 1 in e.tx.failed <==> e.tx.calls[id].error.Some?
    {
      assert ReportOk(e.tx, callers, i + 1);
    }
  }

  // What a call of send_packet answers, in every run: no error exactly when its socket send completed; a
  // payload above 1400 bytes is refused at the gate; a socket error is reported as such; a call without a number
  // answers the loop error that is stored; any other failed to encrypt. The number of a call counts as failed
  // exactly when the call answered an error.
  lemma CallAnswers(open: Opener, start: System, events: seq<Event>, side: Side, id: nat)
    requires InitialSystem(open, start) && InRangeSystem(Run(open, start, events))
    requires var e := Run(open, start, events).At(side); id in e.tx.calls && e.tx.calls[id].Returned?
    ensures id in Submitted(open, events, side)
    ensures var e := Run(open, start, events).At(side);
            var answer, callers := e.tx.calls[id].error, Assigned(open, start, events, side);
            && (answer.None? <==> id in Completed(open, start, events, side))
            && (answer.Some? ==>
                  if |Submitted(open, events, side)[id]| > 1400 then answer.value == StreamPayloadTooLarge
                  else if id in Failed(open, start, events, side) then answer.value == NetworkError
                  else if id in callers then answer.value == EncryptFailed
                  else answer == e.error)
            && (forall i :: 0 <= i < |callers| && callers[i] == id ==> (i + 1 in e.tx.failed <==> answer.Some?))
  {
    AnswersFollow(open, start, events, side);
    hide AnswersOk, Run, InitialSystem, Submitted, Assigned, Completed, Failed;
    AnswerRead(Run(open, start, events).At(side), Submitted(open, events, side), Assigned(open, start, events, side),
               Completed(open, start, events, side), Failed(open, start, events, side), id);
  }

  // Order

  // The calls in the order they were made, and their payloads.
  function Called(open: Opener, events: seq<Event>, side: Side): seq<nat>
  {
    if events == [] then []
    else
      var earlier, event := events[..|events| - 1], events[|events| - 1];
      Called(open, earlier, side) +
      if event.side == side && IsCall(open, Submitted(open, earlier, side), event.action) then [event.action.id] else []
  }

  predicate IsCall(open: Opener, earlier: map<nat, Bytes>, action: Action)
  {
    action.Send? && action.id !in earlier && HonestSeal(open, action.plain, action.sealed)
  }

  function CalledPayloads(open: Opener, events: seq<Event>, side: Side): seq<Bytes>
  {
    var called, submitted := Called(open, events, side), Submitted(open, events, side);
    seq(|called|, i requires 0 <= i < |called| => if called[i] in submitted then submitted[called[i]] else [])
  }

  // A side that awaits its sends makes a call only when every earlier one has answered without an error.
  ghost predicate Awaits(open: Opener, start: System, events: seq<Event>, side: Side)
  {
    events == [] ||
    (var earlier, event := events[..|events| - 1], events[|events| - 1];
     && Awaits(open, start, earlier, side)
     && (event.side == side && IsCall(open, Submitted(open, earlier, side), event.action) ==>
           AllAnswered(Run(open, start, earlier).At(side).tx)))
  }

  ghost predicate AllAnswered(tx: Tx)
  {
    forall id :: id in tx.calls ==> tx.calls[id] == Returned(None)
  }

  // The numbers were given out in calling order, and at most the last call is without one.
  ghost predicate InOrder(submitted: map<nat, Bytes>, called: seq<nat>, callers: seq<nat>)
  {
    && (forall id :: id in called <==> id in submitted)
    && NoDup(called) && callers <= called && |called| <= |callers| + 1
  }

  lemma NextIsNew(callers: seq<nat>, called: seq<nat>)
    requires callers <= called && NoDup(called)
    ensures called == callers || exists id :: id in called && id !in callers
  {
    if |callers| < |called| {
      assert forall i :: 0 <= i < |callers| ==> callers[i] == called[i] != called[|callers|];
      assert called[|callers|] in called && called[|callers|] !in callers;
    }
  }

  lemma CallKeepsOrder(open: Opener, e: Endpoint, inbox: set<Packet>, action: Action, submitted: map<nat, Bytes>,
                       called: seq<nat>, callers: seq<nat>, done: set<nat>, failed: set<nat>)
    requires InOrder(submitted, called, callers) && AnswersOk(e, submitted, callers, done, failed)
    requires IsCall(open, submitted, action) && AllAnswered(e.tx)
    ensures InOrder(Submits(open, submitted, action), called + [action.id],
                    callers + Assigns(open, e, inbox, action))
  {
    PayloadParts(e.tx, submitted, callers);
    hide PayloadsOk, Act;
    NextIsNew(callers, called);
    forall id | id in called
      ensures id in callers
    {
      assert AnswerOk(e, submitted[id], callers, done, failed, id);
    }
    assert called == callers;
    assert callers + [] == callers;
  }

  lemma ResumeKeepsOrder(open: Opener, e: Endpoint, inbox: set<Packet>, action: Action, submitted: map<nat, Bytes>,
                         called: seq<nat>, callers: seq<nat>)
    requires InOrder(submitted, called, callers) && PayloadsOk(e.tx, submitted, callers)
    requires !IsCall(open, submitted, action)
    ensures InOrder(Submits(open, submitted, action), called, callers + Assigns(open, e, inbox, action))
  {
    assert callers + [] == callers;
    if !Enabled(open, e, inbox, action) {
      SubmitsNothing(open, e, inbox, action, submitted, callers);
    } else if action.Resume? {
      PayloadParts(e.tx, submitted, callers);
      hide PayloadsOk;
      var id := action.id;
      assert id in called && id !in callers;
      var i :| 0 <= i < |called| && called[i] == id;
      assert i >= |callers|;
      assert called == callers + [id];
    } else if !action.Send? {
      OtherKeepsCalls(open, e, inbox, action);
    }
  }

  lemma {:induction false} OrderIsKept(open: Opener, start: System, events: seq<Event>, side: Side)
    requires InitialSystem(open, start) && InRangeSystem(Run(open, start, events)) && Awaits(open, start, events, side)
    ensures InOrder(Submitted(open, events, side), Called(open, events, side), Assigned(open, start, events, side))
  {
    if events != [] {
      hide Act, AnswersOk, PayloadsOk, InitialSystem, Submits, Assigns, InOrder, IsCall, AllAnswered;
      var earlier, event := events[..|events| - 1], events[|events| - 1];
      var before := Run(open, start, earlier);
      StepGrows(open, before, event);
      OrderIsKept(open, start, earlier, side);
      AnswersFollow(open, start, earlier, side);
      NumbersCarrySubmitted(open, start, earlier, side);
      var submitted, called := Submitted(open, earlier, side), Called(open, earlier, side);
      if event.side == side {
        if IsCall(open, submitted, event.action) {
          CallKeepsOrder(open, before.At(side), before.At(Peer(side)).sent, event.action, submitted, called,
                         Assigned(open, start, earlier, side), Completed(open, start, earlier, side),
                         Failed(open, start, earlier, side));
        } else {
          assert called + [] == called;
          ResumeKeepsOrder(open, before.At(side), before.At(Peer(side)).sent, event.action, submitted, called,
                           Assigned(open, start, earlier, side));
        }
      } else {
        assert called + [] == called;
      }
    }
  }

  // A side that awaits its sends has its payloads numbered in calling order, and at most the last is missing.
  lemma AwaitedCallsKeepTheirOrder(open: Opener, start: System, events: seq<Event>, side: Side)
    requires InitialSystem(open, start) && InRangeSystem(Run(open, start, events)) && Awaits(open, start, events, side)
    ensures SubmittedPayloads(open, start, events, side) <= CalledPayloads(open, events, side)
    ensures |CalledPayloads(open, events, side)| <= |SubmittedPayloads(open, start, events, side)| + 1
  {
    OrderIsKept(open, start, events, side);
    hide Submitted, Called, Assigned, Awaits;
  }
}
