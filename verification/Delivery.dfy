/** What the transport promises its callers: theorems about every run of two endpoints. */
module Delivery {
  import opened Basics
  import opened Reorder
  import opened Transport
  import opened Link
  import Calls

  // The payloads submitted after the handshake, in the order their sequence numbers were assigned.
  function Payloads(log: seq<Slot>): seq<Bytes>
    requires log != []
  {
    seq(|log| - 1, i requires 0 <= i < |log| - 1 => log[i + 1].plain)
  }

  // A state some run reaches from the end of the handshake, with sequence numbers inside 32 bits.
  ghost predicate Reaches(open: Opener, start: System, events: seq<Event>)
  {
    InitialSystem(open, start) && InRangeSystem(Run(open, start, events))
  }

  lemma LinkOf(open: Opener, start: System, events: seq<Event>, side: Side)
    requires Reaches(open, start, events)
    ensures var s := Run(open, start, events);
            LinkOk(open, s.At(side), s.At(Peer(side)))
  {
    InitialIsOk(open, start);
    RunKeepsSystem(open, start, events);
  }

  // The ledger carries exactly what the events of the run submitted.
  lemma PayloadsAreSubmitted(open: Opener, start: System, events: seq<Event>, side: Side)
    requires InitialSystem(open, start)
    ensures Run(open, start, events).At(side).tx.log != []
    ensures Payloads(Run(open, start, events).At(side).tx.log) == Calls.SubmittedPayloads(open, start, events, side)
  {
    hide Run, InitialSystem, Calls.Submitted, Calls.Assigned;
    Calls.NumbersCarrySubmitted(open, start, events, side);
    var log := Run(open, start, events).At(side).tx.log;
    var callers := Calls.Assigned(open, start, events, side);
    forall i | 0 <= i < |callers|
      ensures Payloads(log)[i] == Calls.SubmittedPayloads(open, start, events, side)[i]
    {
      assert Calls.Carries(log, Calls.Submitted(open, events, side), callers, i + 1);
    }
  }

  // Prefix safety. In every run - losses, duplicates, reordering, resends, failed sends, out-of-window drops
  // and hard-cap resets included - the chunks released to the application are a prefix of the payloads that the
  // peer's calls submitted, in sequence order and each exactly once.
  lemma PrefixSafety(open: Opener, start: System, events: seq<Event>, side: Side)
    requires Reaches(open, start, events)
    ensures var s := Run(open, start, events);
            && s.At(side).tx.log != []
            && s.At(Peer(side)).rx.stream.ready <= Payloads(s.At(side).tx.log)
            && s.At(Peer(side)).rx.stream.ready <= Calls.SubmittedPayloads(open, start, events, side)
  {
    PayloadsAreSubmitted(open, start, events, side);
    LinkOf(open, start, events, side);
    hide Calls.SubmittedPayloads, Payloads;
    var s := Run(open, start, events);
    HeldIsPrefix(s.At(side).tx.log, s.At(Peer(side)).rx.stream);
  }

  lemma HeldIsPrefix(log: seq<Slot>, s: Stream)
    requires log != [] && Holds(s, Contents(log))
    ensures s.ready <= Payloads(log)
  {
    assert |s.ready| > 0 ==> Releases(s.ready, |s.ready|, Contents(log));
    forall i | 0 <= i < |s.ready|
      ensures i < |Payloads(log)| && s.ready[i] == Payloads(log)[i]
    {
      assert Releases(s.ready, i + 1, Contents(log));
    }
  }

  // Exactly once, with stable content: a number enters the receive queue at most once, with the plaintext
  // submitted under it, and every datagram ever in the network for a number is the same one.
  lemma ExactlyOnce(open: Opener, start: System, events: seq<Event>, side: Side)
    requires Reaches(open, start, events)
    ensures var s := Run(open, start, events);
            var log, entered := s.At(side).tx.log, Entered(s.At(Peer(side)).rx);
            && DistinctData(entered)
            && (forall p :: p in entered && p.kind == DATA ==>
                  p.sequence < |log| && p.body == log[p.sequence].plain)
            && (forall p :: p in entered ==> p.kind == DATA || p.kind == END_TRANSFER)
            && (forall p, q :: p in s.At(side).sent && q in s.At(side).sent ==>
                  p.kind != ACK && q.kind != ACK && p.sequence == q.sequence ==> p == q)
  {
    var s := Run(open, start, events);
    LinkOf(open, start, events, side);
    var log, rx, sent := s.At(side).tx.log, s.At(Peer(side)).rx, s.At(side).sent;
    forall p | p in Entered(rx)
      ensures EntryOk(log, rx.received, p)
    {
      var i :| 0 <= i < |Entered(rx)| && Entered(rx)[i] == p;
      assert EntryOk(log, rx.received, Entered(rx)[i]);
    }
    forall p, q | p in sent && q in sent && p.kind != ACK && q.kind != ACK && p.sequence == q.sequence
      ensures p == q
    {
      assert Recorded(log, p) && Recorded(log, q);
    }
  }

  // ACK soundness. Every assigned number is in flight, acknowledged or reported as failed; and an
  // acknowledged number is held by the peer's transport exactly when its payload is not empty.
  lemma AckSoundness(open: Opener, start: System, events: seq<Event>, side: Side, k: nat)
    requires Reaches(open, start, events)
    requires k < |Run(open, start, events).At(side).tx.log|
    ensures var s := Run(open, start, events);
            var tx, received := s.At(side).tx, s.At(Peer(side)).rx.received;
            && (k in tx.inFlight || k in tx.acked || k in tx.failed)
            && (k in tx.acked ==> (k in received <==> k == 0 || tx.log[k].plain != []))
  {
    var s := Run(open, start, events);
    LinkOf(open, start, events, side);
    var tx, rx := s.At(side).tx, s.At(Peer(side)).rx;
    assert Accounted(tx, k);
    assert SlotOk(open, tx.log[k], k);
    if k in tx.acked {
      assert Landed(tx.log, rx.received, k);
    }
    if k in rx.received && k != 0 {
      ReceivedEntered(tx.log, rx, k);
    }
  }

  lemma ReceivedEntered(log: seq<Slot>, rx: Rx, k: nat)
    requires QueueOk(log, rx) && k in rx.received && k != 0
    ensures k < |log| && log[k].plain != []
    ensures exists i :: 0 <= i < |Entered(rx)| && Entered(rx)[i] == Packet(DATA, k, log[k].plain)
  {
    assert HasEntered(Entered(rx), k);
    var i :| 0 <= i < |Entered(rx)| && Entered(rx)[i].kind == DATA && Entered(rx)[i].sequence == k;
    assert EntryOk(log, rx.received, Entered(rx)[i]);
  }

  // What a drain answers: true exactly when nothing is in flight and no loop error is stored; and then the
  // peer's transport holds every number whose send succeeded, empty payloads excepted.
  lemma DrainedMeansHeld(open: Opener, start: System, events: seq<Event>, side: Side, action: Action)
    requires Reaches(open, start, events)
    requires action.Drain? || action.DrainResume?
    requires var s := Run(open, start, events);
             Enabled(open, s.At(side), s.At(Peer(side)).sent, action)
    ensures var s, t := Run(open, start, events), Run(open, start, events + [Event(side, action)]);
            var tx, drains := s.At(side).tx, t.At(side).tx.drains;
            && action.id in drains
            && (drains[action.id] == Answered(true) <==> tx.inFlight == map[] && s.At(side).error.None?)
            && (drains[action.id] == Answered(true) ==>
                  forall k :: 0 <= k < |tx.log| && k !in tx.failed ==>
                    k in s.At(Peer(side)).rx.received || tx.log[k].plain == [])
  {
    hide Act, LinkOk;
    var s := Run(open, start, events);
    OneMore(open, start, events, Event(side, action));
    DrainAnswers(open, s.At(side), s.At(Peer(side)).sent, action);
    forall k | 0 <= k < |s.At(side).tx.log|
      ensures k in s.At(side).tx.inFlight || k in s.At(side).tx.failed
              || k in s.At(Peer(side)).rx.received || s.At(side).tx.log[k].plain == []
    {
      AckSoundness(open, start, events, side, k);
    }
  }

  lemma DrainAnswers(open: Opener, e: Endpoint, inbox: set<Packet>, action: Action)
    requires (action.Drain? || action.DrainResume?) && Enabled(open, e, inbox, action)
    ensures var drains := Act(open, e, inbox, action).tx.drains;
            && action.id in drains
            && (drains[action.id] == Answered(true) <==> e.tx.inFlight == map[] && e.error.None?)
  {
  }

  // Completeness

  lemma {:induction false} TakenArrived(taken: seq<Packet>, i: nat)
    requires i < |taken| && taken[i].kind == DATA && taken[i].sequence != 0
    ensures taken[i].sequence in FirstArrivals(Arrivals(taken))
  {
    var prefix, last := taken[..|taken| - 1], taken[|taken| - 1];
    assert taken == prefix + [last];
    ArrivalsSnoc(prefix, last);
    if last.kind == DATA {
      assert Arrivals(taken)[..|Arrivals(prefix)|] == Arrivals(prefix);
    }
    if i < |prefix| {
      TakenArrived(prefix, i);
    }
  }

  // The packet the stream takes next is thrown away, or the stream throws away its buffer for it.
  ghost predicate TakeLoses(open: Opener, s: System, event: Event, side: Side)
  {
    && event == Event(side, Take) && Enabled(open, s.At(side), s.At(Peer(side)).sent, Take)
    && s.At(side).rx.queue[0].kind == DATA
    && Loses(s.At(side).rx.stream, s.At(side).rx.queue[0].sequence)
  }

  // No take of the run lost anything.
  ghost predicate NothingLost(open: Opener, start: System, events: seq<Event>, side: Side)
  {
    forall n :: 0 <= n < |events| ==> !TakeLoses(open, Run(open, start, events[..n]), events[n], side)
  }

  lemma NothingLostSnoc(open: Opener, start: System, events: seq<Event>, event: Event, side: Side)
    ensures NothingLost(open, start, events + [event], side) <==>
            NothingLost(open, start, events, side) && !TakeLoses(open, Run(open, start, events), event, side)
  {
    hide TakeLoses, Run;
    var more := events + [event];
    assert forall n :: 0 <= n < |events| ==> more[..n] == events[..n] && more[n] == events[n];
    assert more[..|events|] == events && more[|events|] == event;
    if NothingLost(open, start, more, side) {
      forall n | 0 <= n < |events|
        ensures !TakeLoses(open, Run(open, start, events[..n]), events[n], side)
      {
        assert !TakeLoses(open, Run(open, start, more[..n]), more[n], side);
      }
    }
  }

  // What a step does to the packets taken.
  lemma ActOnTaken(open: Opener, e: Endpoint, inbox: set<Packet>, action: Action)
    ensures Act(open, e, inbox, action).rx.taken ==
            if action == Take && Enabled(open, e, inbox, Take) then e.rx.taken + [e.rx.queue[0]] else e.rx.taken
  {
  }

  lemma TakeOnLossless(e: Endpoint)
    requires e.rx.queue != [] && e.rx.stream == Feed(Arrivals(e.rx.taken))
    ensures Lossless(Arrivals(e.rx.taken + [e.rx.queue[0]])) <==>
            && Lossless(Arrivals(e.rx.taken))
            && !(e.rx.queue[0].kind == DATA && Loses(e.rx.stream, e.rx.queue[0].sequence))
  {
    hide Loses, Feed;
    var p, arrivals := e.rx.queue[0], Arrivals(e.rx.taken);
    ArrivalsSnoc(e.rx.taken, p);
    assert (arrivals + [Arrival(p.sequence, p.body)])[..|arrivals|] == arrivals;
  }

  lemma StepOnTaken(open: Opener, s: System, event: Event, side: Side)
    requires SystemOk(open, s)
    ensures Lossless(Arrivals(Step(open, s, event).At(side).rx.taken)) <==>
            Lossless(Arrivals(s.At(side).rx.taken)) && !TakeLoses(open, s, event, side)
  {
    hide Act, Loses, Enabled, SystemOk, Lossless, Arrivals, Feed;
    var e, inbox := s.At(side), s.At(Peer(side)).sent;
    if event.side == side {
      ActOnTaken(open, e, inbox, event.action);
      if event.action == Take && Enabled(open, e, inbox, Take) {
        TakeNeedsQueue(open, e, inbox);
        StreamIsFed(open, s, side);
        TakeOnLossless(e);
      }
    }
  }

  lemma TakeNeedsQueue(open: Opener, e: Endpoint, inbox: set<Packet>)
    requires Enabled(open, e, inbox, Take)
    ensures e.rx.queue != []
  {
  }

  lemma StreamIsFed(open: Opener, s: System, side: Side)
    requires SystemOk(open, s)
    ensures s.At(side).rx.stream == Feed(Arrivals(s.At(side).rx.taken))
  {
  }

  // The stream's history shows exactly whether a take of the run lost anything.
  lemma {:induction false} NothingLostIff(open: Opener, start: System, events: seq<Event>, side: Side)
    requires Reaches(open, start, events)
    ensures NothingLost(open, start, events, side) <==>
            Lossless(Arrivals(Run(open, start, events).At(side).rx.taken))
  {
    hide Step, NothingLost, SystemOk, TakeLoses, InitialSystem, Lossless, Arrivals;
    if events == [] {
      NothingTakenYet(open, start, side);
    } else {
      var before, event := events[..|events| - 1], events[|events| - 1];
      StepGrows(open, Run(open, start, before), event);
      InitialIsOk(open, start);
      RunKeepsSystem(open, start, before);
      NothingLostIff(open, start, before, side);
      StepOnTaken(open, Run(open, start, before), event, side);
      NothingLostSnoc(open, start, before, event, side);
      assert events == before + [event];
    }
  }

  lemma NothingTakenYet(open: Opener, start: System, side: Side)
    requires InitialSystem(open, start)
    ensures NothingLost(open, start, [], side) && Lossless(Arrivals(start.At(side).rx.taken))
  {
    hide TakeLoses;
    assert start.At(side).rx.taken == [];
  }

  // With nothing in flight, no failed send, no empty payload and the peer's queue consumed, the peer has
  // released every payload submitted if and only if its stream lost nothing: no packet of the run was dropped
  // as out of window and none fired the hard-cap reset.
  lemma EverythingIsReleased(open: Opener, start: System, events: seq<Event>, side: Side)
    requires Reaches(open, start, events)
    requires var s := Run(open, start, events);
             && s.At(side).tx.inFlight == map[] && s.At(side).tx.failed == {}
             && (forall k :: 1 <= k < |s.At(side).tx.log| ==> s.At(side).tx.log[k].plain != [])
             && s.At(Peer(side)).rx.queue == []
    ensures var s := Run(open, start, events);
            && s.At(side).tx.log != []
            && (s.At(Peer(side)).rx.stream.ready == Payloads(s.At(side).tx.log)
                <==> NothingLost(open, start, events, Peer(side)))
  {
    hide Step, NothingLost;
    var s := Run(open, start, events);
    var log, rx := s.At(side).tx.log, s.At(Peer(side)).rx;
    LinkOf(open, start, events, side);
    PrefixSafety(open, start, events, side);
    forall k | 1 <= k < |log|
      ensures k in rx.received
    {
      AckSoundness(open, start, events, side, k);
    }
    NothingLostIff(open, start, events, Peer(side));
    ReceivedIsReleased(log, rx);
  }

  lemma {:induction false} ArrivalsAre(taken: seq<Packet>, i: nat) returns (j: nat)
    requires i < |Arrivals(taken)|
    ensures j < |taken| && taken[j].kind == DATA
    ensures Arrivals(taken)[i] == Arrival(taken[j].sequence, taken[j].body)
    ensures i == |Arrivals(taken[..j])|
  {
    var before := taken[..|taken| - 1];
    if i < |Arrivals(before)| {
      j := ArrivalsAre(before, i);
      assert taken[..j] == before[..j];
    } else {
      j := |taken| - 1;
    }
  }

  lemma {:induction false} ArrivalsGrow(taken: seq<Packet>, n: nat, m: nat)
    ensures n <= m <= |taken| ==> |Arrivals(taken[..n])| <= |Arrivals(taken[..m])|
    decreases m
  {
    if n < m <= |taken| {
      assert taken[..m][..m - 1] == taken[..m - 1];
      ArrivalsGrow(taken, n, m - 1);
    }
  }

  lemma TakenNumbered(log: seq<Slot>, rx: Rx)
    requires QueueOk(log, rx) && |log| <= SEQUENCE_LIMIT
    ensures Numbered(Arrivals(rx.taken))
  {
    var arrivals := Arrivals(rx.taken);
    forall i | 0 <= i < |arrivals|
      ensures 1 <= arrivals[i].sequence < SEQUENCE_LIMIT
    {
      var j := ArrivalsAre(rx.taken, i);
      assert Entered(rx)[j] == rx.taken[j];
      assert EntryOk(log, rx.received, Entered(rx)[j]);
    }
    forall i, i' | 0 <= i < i' < |arrivals|
      ensures arrivals[i].sequence != arrivals[i'].sequence
    {
      var j := ArrivalsAre(rx.taken, i);
      var j' := ArrivalsAre(rx.taken, i');
      ArrivalsGrow(rx.taken, j', j);
      assert Entered(rx)[j] == rx.taken[j] && Entered(rx)[j'] == rx.taken[j'];
    }
  }

  lemma ReceivedIsReleased(log: seq<Slot>, rx: Rx)
    requires log != [] && |log| <= SEQUENCE_LIMIT && QueueOk(log, rx) && StreamOk(log, rx)
    requires rx.queue == [] && rx.stream.ready <= Payloads(log)
    requires forall k :: 1 <= k < |log| ==> k in rx.received
    ensures rx.stream.ready == Payloads(log) <==> Lossless(Arrivals(rx.taken))
  {
    TakenNumbered(log, rx);
    assert Entered(rx) == rx.taken;
    if Lossless(Arrivals(rx.taken)) {
      FeedRefinesSet(Arrivals(rx.taken));
      var k := rx.stream.expected;
      if 1 <= k < |log| {
        ReceivedEntered(log, rx, k);
        var i :| 0 <= i < |rx.taken| && rx.taken[i] == Packet(DATA, k, log[k].plain);
        TakenArrived(rx.taken, i);
        assert false;
      }
    } else {
      var k := LostNumber(Arrivals(rx.taken));
      FirstArrivalsAre(Arrivals(rx.taken), k);
      var i :| 0 <= i < |Arrivals(rx.taken)| && Arrivals(rx.taken)[i].sequence == k;
      var j := ArrivalsAre(rx.taken, i);
      assert EntryOk(log, rx.received, Entered(rx)[j]);
    }
  }

  // Loss after acknowledgement

  // Number k was received and acknowledged, but the stream no longer has it and still waits at or before it.
  ghost predicate Lost(rx: Rx, k: nat)
  {
    && k in rx.received && k !in rx.stream.buffer && rx.stream.expected <= k
    && forall p :: p in rx.queue && p.kind == DATA ==> p.sequence != k
  }

  lemma ActKeepsLost(open: Opener, log: seq<Slot>, e: Endpoint, inbox: set<Packet>, action: Action, k: nat)
    requires InboundOk(log, e) && |log| <= SEQUENCE_LIMIT && Lost(e.rx, k)
    ensures Lost(Act(open, e, inbox, action).rx, k)
  {
    if Enabled(open, e, inbox, action) {
      match action
      case Take =>
        var p := e.rx.queue[0];
        assert EntryOk(log, e.rx.received, Entered(e.rx)[|e.rx.taken|]);
        if p.kind == DATA {
          AcceptKeepsLost(e.rx.stream, p.sequence, p.body, k);
        }
      case Deliver(packet, now) => ReceiveKeepsLost(open, e, packet, now, k);
      case Scan(_, _) =>
      case ResendError =>
      case _ => assert Act(open, e, inbox, action).rx == e.rx;
    }
  }

  lemma ReceiveKeepsLost(open: Opener, e: Endpoint, packet: Packet, now: int, k: nat)
    requires Lost(e.rx, k)
    ensures Lost(e.Receive(open, packet, now).rx, k)
  {
  }

  lemma StepKeepsLost(open: Opener, s: System, event: Event, side: Side, k: nat)
    requires SystemOk(open, s) && InRangeSystem(s) && Lost(s.At(side).rx, k)
    ensures Lost(Step(open, s, event).At(side).rx, k)
  {
    hide Act;
    if event.side == side {
      var other := s.At(Peer(side));
      ActKeepsLost(open, other.tx.log, s.At(side), other.sent, event.action, k);
    }
  }

  // A lost number is lost for good: in no continuation is it, or anything after it, ever released.
  lemma {:induction false} LostForever(open: Opener, s: System, events: seq<Event>, side: Side, k: nat)
    requires SystemOk(open, s) && Lost(s.At(side).rx, k)
    requires InRangeSystem(Run(open, s, events))
    ensures Lost(Run(open, s, events).At(side).rx, k)
    ensures |Run(open, s, events).At(side).rx.stream.ready| < k
  {
    hide Step, SystemOk;
    RunKeepsSystem(open, s, events);
    ExpectedCounts(open, Run(open, s, events), side);
    if events != [] {
      var before, event := Run(open, s, events[..|events| - 1]), events[|events| - 1];
      StepGrows(open, before, event);
      RunKeepsSystem(open, s, events[..|events| - 1]);
      LostForever(open, s, events[..|events| - 1], side, k);
      StepKeepsLost(open, before, event, side, k);
    }
  }

  lemma ExpectedCounts(open: Opener, s: System, side: Side)
    requires SystemOk(open, s)
    ensures s.At(side).rx.stream.expected == |s.At(side).rx.stream.ready| + 1
  {
  }

  lemma HeadIsOnlyCopy(log: seq<Slot>, rx: Rx)
    requires QueueOk(log, rx) && rx.queue != [] && rx.queue[0].kind == DATA
    ensures rx.queue[0].sequence in rx.received && rx.queue[0].sequence < |log|
    ensures forall p :: p in rx.queue[1..] && p.kind == DATA ==> p.sequence != rx.queue[0].sequence
  {
    var n := |rx.taken|;
    assert EntryOk(log, rx.received, Entered(rx)[n]);
    forall p | p in rx.queue[1..] && p.kind == DATA
      ensures p.sequence != rx.queue[0].sequence
    {
      var i :| 0 <= i < |rx.queue[1..]| && rx.queue[1..][i] == p;
      assert Entered(rx)[n + 1 + i] == p;
      assert Entered(rx)[n].sequence != Entered(rx)[n + 1 + i].sequence;
    }
  }

  lemma TakeStep(open: Opener, start: System, events: seq<Event>, side: Side)
    requires Run(open, start, events).At(side).error.None? && Run(open, start, events).At(side).rx.queue != []
    ensures Run(open, start, events + [Event(side, Take)]).At(side) == Run(open, start, events).At(side).Take()
  {
    assert (events + [Event(side, Take)])[..|events|] == events;
  }

  lemma DropLoses(log: seq<Slot>, e: Endpoint)
    requires InboundOk(log, e)
    requires e.rx.queue != [] && e.rx.queue[0].kind == DATA
    requires e.rx.queue[0].sequence > e.rx.stream.expected + WINDOW_SIZE
    ensures Lost(e.Take().rx, e.rx.queue[0].sequence)
  {
    HeadIsOnlyCopy(log, e.rx);
  }

  // Once a step has lost number k, no continuation releases it.
  lemma LossIsFinal(open: Opener, start: System, events: seq<Event>, side: Side, more: seq<Event>, k: nat)
    requires InitialSystem(open, start)
    requires Lost(Run(open, start, events).At(side).rx, k)
    requires InRangeSystem(Run(open, Run(open, start, events), more))
    ensures var t := Run(open, start, events);
            |t.At(side).rx.stream.ready| <= |Run(open, t, more).At(side).rx.stream.ready| < k
  {
    var t := Run(open, start, events);
    RunGrows(open, t, more);
    InitialIsOk(open, start);
    RunKeepsSystem(open, start, events);
    LostForever(open, t, more, side, k);
    ReadyGrows(open, t, more, side);
  }

  // A packet dropped as out of the window is not resent, whatever the source's comment says: it has been
  // acknowledged and recorded already, so the stream stalls before it in every continuation.
  lemma OutOfWindowIsLostForever(open: Opener, start: System, events: seq<Event>, side: Side, more: seq<Event>)
    requires Reaches(open, start, events)
    requires var e := Run(open, start, events).At(side);
             && e.error.None? && e.rx.queue != [] && e.rx.queue[0].kind == DATA
             && e.rx.queue[0].sequence > e.rx.stream.expected + WINDOW_SIZE
    requires InRangeSystem(Run(open, Run(open, start, events + [Event(side, Take)]), more))
    ensures var k := Run(open, start, events).At(side).rx.queue[0].sequence;
            |Run(open, Run(open, start, events + [Event(side, Take)]), more).At(side).rx.stream.ready| < k
  {
    var s := Run(open, start, events);
    LinkOf(open, start, events, Peer(side));
    DropLoses(s.At(Peer(side)).tx.log, s.At(side));
    TakeStep(open, start, events, side);
    LossIsFinal(open, start, events + [Event(side, Take)], side, more, s.At(side).rx.queue[0].sequence);
  }

  lemma {:induction false} FlushKeepsKeys(s: Stream)
    ensures Flush(s).buffer.Keys <= s.buffer.Keys
    decreases |s.buffer|
  {
    if s.expected in s.buffer {
      FlushKeepsKeys(Stream(s.buffer - {s.expected}, (s.expected + 1) % TWO32, s.ready + [s.buffer[s.expected]]));
    }
  }

  lemma {:induction false} BufferedWasTaken(taken: seq<Packet>, k: nat)
    requires k in Feed(Arrivals(taken)).buffer
    ensures exists i :: 0 <= i < |taken| && taken[i].kind == DATA && taken[i].sequence == k
  {
    if taken != [] {
      var prefix, last := taken[..|taken| - 1], taken[|taken| - 1];
      assert taken == prefix + [last];
      ArrivalsSnoc(prefix, last);
      var s := Feed(Arrivals(prefix));
      if last.kind == DATA {
        FeedSnoc(Arrivals(prefix), Arrival(last.sequence, last.body));
        FlushKeepsKeys(Inserted(s, last.sequence, last.body));
        if k == last.sequence {
          assert taken[|prefix|] == last;
        } else {
          assert k in s.buffer;
        }
      }
      if k in s.buffer {
        BufferedWasTaken(prefix, k);
        var i :| 0 <= i < |prefix| && prefix[i].kind == DATA && prefix[i].sequence == k;
        assert taken[i] == prefix[i];
      }
    }
  }

  lemma BufferedIsNotQueued(log: seq<Slot>, rx: Rx, k: nat)
    requires QueueOk(log, rx) && StreamOk(log, rx) && k in rx.stream.buffer
    ensures k in rx.received
    ensures forall p :: p in rx.queue && p.kind == DATA ==> p.sequence != k
  {
    BufferedWasTaken(rx.taken, k);
    var i :| 0 <= i < |rx.taken| && rx.taken[i].kind == DATA && rx.taken[i].sequence == k;
    assert Entered(rx)[i] == rx.taken[i];
    assert EntryOk(log, rx.received, Entered(rx)[i]);
    forall p | p in rx.queue && p.kind == DATA
      ensures p.sequence != k
    {
      var j :| 0 <= j < |rx.queue| && rx.queue[j] == p;
      assert Entered(rx)[|rx.taken| + j] == p;
      assert Entered(rx)[i].sequence != Entered(rx)[|rx.taken| + j].sequence;
    }
  }

  lemma StepKeepsReady(open: Opener, s: System, event: Event, side: Side)
    requires SystemOk(open, s) && InRangeSystem(s)
    ensures s.At(side).rx.stream.ready <= Step(open, s, event).At(side).rx.stream.ready
  {
    hide Act;
    if event.side == side {
      var other := s.At(Peer(side));
      ActKeepsInbound(open, other.tx.log, s.At(side), other.sent, event.action);
    }
  }

  lemma {:induction false} ReadyGrows(open: Opener, s: System, events: seq<Event>, side: Side)
    requires SystemOk(open, s) && InRangeSystem(Run(open, s, events))
    ensures s.At(side).rx.stream.ready <= Run(open, s, events).At(side).rx.stream.ready
  {
    hide Step, SystemOk;
    if events != [] {
      var before, event := Run(open, s, events[..|events| - 1]), events[|events| - 1];
      StepGrows(open, before, event);
      ReadyGrows(open, s, events[..|events| - 1], side);
      RunKeepsSystem(open, s, events[..|events| - 1]);
      StepKeepsReady(open, before, event, side);
    }
  }

  lemma ResetLoses(log: seq<Slot>, e: Endpoint)
    requires InboundOk(log, e)
    requires e.rx.queue != [] && e.rx.queue[0].kind == DATA
    requires CapReached(e.rx.stream) && Admitted(e.rx.stream, e.rx.queue[0].sequence)
    ensures |e.Take().rx.stream.ready| == |e.rx.stream.ready| + 1
    ensures Lost(e.Take().rx, |e.rx.stream.ready| + 2)
  {
    var s := e.rx.stream;
    ResetOnlyOnExpected(s, e.rx.queue[0].sequence);
    ResetDiscardsWindow(s, e.rx.queue[0].body);
    BufferFitsWindow(s);
    assert s.expected + 1 in s.buffer.Keys;
    BufferedIsNotQueued(log, e.rx, s.expected + 1);
  }

  // The hard-cap reset loses the window it discards in the same way: after it, exactly one more chunk has
  // been released, and no continuation ever releases another.
  lemma ResetIsLostForever(open: Opener, start: System, events: seq<Event>, side: Side, more: seq<Event>)
    requires Reaches(open, start, events)
    requires var e := Run(open, start, events).At(side);
             && e.error.None? && e.rx.queue != [] && e.rx.queue[0].kind == DATA
             && CapReached(e.rx.stream) && Admitted(e.rx.stream, e.rx.queue[0].sequence)
    requires InRangeSystem(Run(open, Run(open, start, events + [Event(side, Take)]), more))
    ensures |Run(open, Run(open, start, events + [Event(side, Take)]), more).At(side).rx.stream.ready|
            == |Run(open, start, events).At(side).rx.stream.ready| + 1
  {
    var s := Run(open, start, events);
    var n := |s.At(side).rx.stream.ready|;
    LinkOf(open, start, events, Peer(side));
    ResetLoses(s.At(Peer(side)).tx.log, s.At(side));
    TakeStep(open, start, events, side);
    LossIsFinal(open, start, events + [Event(side, Take)], side, more, n + 2);
  }
}
