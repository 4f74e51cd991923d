/** Runs that live on the datagrams they send themselves, and the timeout pass that sends everything in flight again. */
module Resending {
  import opened Basics
  import opened Transport
  import opened Link

  // What a step hands to the socket.
  function Emits(open: Opener, s: System, event: Event): set<Packet>
  {
    Act(open, s.At(event.side).(sent := {}), s.At(Peer(event.side)).sent, event.action).sent
  }

  lemma ActEmits(open: Opener, s: System, event: Event)
    ensures Step(open, s, event).At(event.side).sent == s.At(event.side).sent + Emits(open, s, event)
  {
    hide Endpoint.Receive, Tx.Launch, Tx.Refuse, Tx.Park, Tx.OnSendError;
    var e, inbox := s.At(event.side), s.At(Peer(event.side)).sent;
    assert Enabled(open, e, inbox, event.action) <==> Enabled(open, e.(sent := {}), inbox, event.action);
    if Enabled(open, e, inbox, event.action) && event.action.Deliver? {
      ReceiveEmits(open, e, event.action.packet, event.action.now);
    }
  }

  lemma ReceiveEmits(open: Opener, e: Endpoint, p: Packet, now: int)
    ensures e.Receive(open, p, now).sent == e.sent + e.(sent := {}).Receive(open, p, now).sent
  {
  }

  // What one side has handed to its socket in the course of a run.
  function Emitted(open: Opener, s: System, events: seq<Event>, side: Side): set<Packet>
  {
    if events == [] then {}
    else
      var earlier, event := events[..|events| - 1], events[|events| - 1];
      Emitted(open, s, earlier, side) + if event.side == side then Emits(open, Run(open, s, earlier), event) else {}
  }

  // Every datagram that arrives in the run was handed to the socket in the run itself: whatever the network
  // still held before may be lost for good.
  ghost predicate SelfContained(open: Opener, s: System, events: seq<Event>)
  {
    forall i :: 0 <= i < |events| ==> ArrivalIsOwn(open, s, events, i)
  }

  ghost predicate ArrivalIsOwn(open: Opener, s: System, events: seq<Event>, i: nat)
    requires i < |events|
  {
    events[i].action.Deliver? ==> events[i].action.packet in Emitted(open, s, events[..i], Peer(events[i].side))
  }

  // The clock readings of an action.
  function Readings(action: Action): set<int>
  {
    match action
    case Send(_, _, _, now) => {now}
    case Resume(_, _, now) => {now}
    case Deliver(_, now) => {now}
    case Scan(now, _) => {now}
    case ResendDone(now) => {now}
    case _ => {}
  }

  ghost predicate AtTime(events: seq<Event>, now: int)
  {
    forall i :: 0 <= i < |events| ==> Readings(events[i].action) <= {now}
  }

  // A run of that kind, all of it at one time.
  ghost predicate Fresh(open: Opener, s: System, events: seq<Event>, now: int)
  {
    SelfContained(open, s, events) && AtTime(events, now)
  }

  lemma FreshStart(open: Opener, s: System, now: int)
    ensures Fresh(open, s, [], now)
  {
  }

  lemma FreshMore(open: Opener, s: System, events: seq<Event>, event: Event, now: int)
    requires Fresh(open, s, events, now) && Readings(event.action) <= {now}
    requires event.action.Deliver? ==> event.action.packet in Emitted(open, s, events, Peer(event.side))
    ensures Fresh(open, s, events + [event], now)
    ensures forall side :: Emitted(open, s, events + [event], side)
                           == Emitted(open, s, events, side)
                              + if event.side == side then Emits(open, Run(open, s, events), event) else {}
  {
    hide Emitted, Emits, Readings;
    var more := events + [event];
    assert more[..|events|] == events;
    forall i | 0 <= i < |more|
      ensures ArrivalIsOwn(open, s, more, i) && Readings(more[i].action) <= {now}
    {
      if i < |events| {
        assert more[..i] == events[..i] && more[i] == events[i];
        assert ArrivalIsOwn(open, s, events, i);
      }
    }
    EmittedMore(open, s, events, event);
  }

  lemma EmittedMore(open: Opener, s: System, events: seq<Event>, event: Event)
    ensures forall side :: Emitted(open, s, events + [event], side)
                           == Emitted(open, s, events, side)
                              + if event.side == side then Emits(open, Run(open, s, events), event) else {}
  {
    hide Emits;
    assert (events + [event])[..|events|] == events;
  }

  // The pass

  // Everything in flight was handed to the socket in the run.
  ghost predicate FlightEmitted(open: Opener, s: System, events: seq<Event>, side: Side)
  {
    var inFlight := Run(open, s, events).At(side).tx.inFlight;
    forall k :: k in inFlight ==> inFlight[k].packet in Emitted(open, s, events, side)
  }

  // A pass has the numbers `rest` still to resend.
  ghost predicate Resends(s: System, side: Side, rest: seq<nat>)
  {
    && s.At(side).error.None? && s.At(side).timer == Timer(rest, None)
    && forall k :: k in rest ==> k in s.At(side).tx.inFlight
  }

  // The same but for send times, the window and what was sent.
  ghost predicate SameFlight(s: System, t: System, side: Side)
  {
    && t.At(Peer(side)) == s.At(Peer(side)) && t.At(side).error == s.At(side).error
    && t.At(side).tx.log == s.At(side).tx.log && t.At(side).tx.failed == s.At(side).tx.failed
    && t.At(side).tx.inFlight.Keys == s.At(side).tx.inFlight.Keys
    && forall k :: k in s.At(side).tx.inFlight ==>
         t.At(side).tx.inFlight[k].packet == s.At(side).tx.inFlight[k].packet
  }

  lemma ResendOnEndpoint(open: Opener, e: Endpoint, inbox: set<Packet>, rest: seq<nat>)
    requires e.error.None? && e.timer == Timer(rest, None) && rest != [] && rest[0] in e.tx.inFlight
    ensures Act(open, e, inbox, ResendNext)
            == e.(timer := Timer(rest[1..], Some(rest[0])), sent := e.sent + {e.tx.inFlight[rest[0]].packet})
  {
  }

  lemma TouchOnEndpoint(open: Opener, e: Endpoint, inbox: set<Packet>, rest: seq<nat>, k: nat, now: int)
    requires e.error.None? && e.timer == Timer(rest, Some(k))
    ensures var r := Act(open, e, inbox, ResendDone(now));
            && r.error == e.error && r.timer == Timer(rest, None) && r.tx.log == e.tx.log && r.tx.failed == e.tx.failed
            && r.tx.inFlight.Keys == e.tx.inFlight.Keys
            && forall j :: j in e.tx.inFlight ==> r.tx.inFlight[j].packet == e.tx.inFlight[j].packet
  {
  }

  lemma OneResent(open: Opener, s: System, events: seq<Event>, side: Side, rest: seq<nat>, now: int)
    requires Fresh(open, s, events, now) && rest != [] && Resends(Run(open, s, events), side, rest)
    ensures var more := events + [Event(side, ResendNext)] + [Event(side, ResendDone(now))];
            && Fresh(open, s, more, now) && Resends(Run(open, s, more), side, rest[1..])
            && SameFlight(Run(open, s, events), Run(open, s, more), side)
            && Emitted(open, s, events, side) <= Emitted(open, s, more, side)
            && Run(open, s, events).At(side).tx.inFlight[rest[0]].packet in Emitted(open, s, more, side)
  {
    hide Act, Run, Fresh, Emitted;
    var t := Run(open, s, events);
    var next, done := Event(side, ResendNext), Event(side, ResendDone(now));
    FreshMore(open, s, events, next, now);
    OneMore(open, s, events, next);
    ResendOnEndpoint(open, t.At(side), t.At(Peer(side)).sent, rest);
    ResendOnEndpoint(open, t.At(side).(sent := {}), t.At(Peer(side)).sent, rest);
    FreshMore(open, s, events + [next], done, now);
    OneMore(open, s, events + [next], done);
    var u := Run(open, s, events + [next]);
    TouchOnEndpoint(open, u.At(side), u.At(Peer(side)).sent, rest[1..], rest[0], now);
  }

  lemma SameThrough(s: System, t: System, u: System, side: Side)
    requires SameFlight(s, t, side) && SameFlight(t, u, side)
    ensures SameFlight(s, u, side)
  {
  }

  lemma SameThroughout(s: System, side: Side)
    ensures SameFlight(s, s, side)
  {
  }

  lemma FlightIsSame(s: System, t: System, side: Side)
    requires SameFlight(s, t, side)
    ensures forall k :: k in t.At(side).tx.inFlight ==>
              && k in s.At(side).tx.inFlight
              && t.At(side).tx.inFlight[k].packet == s.At(side).tx.inFlight[k].packet
  {
  }

  lemma ResendsAre(s: System, side: Side, rest: seq<nat>)
    requires Resends(s, side, rest)
    ensures forall k :: k in rest ==> k in s.At(side).tx.inFlight
  {
  }

  lemma {:induction false} AllResent(open: Opener, s: System, events: seq<Event>, side: Side, rest: seq<nat>, now: int)
    returns (more: seq<Event>)
    requires Fresh(open, s, events, now) && Resends(Run(open, s, events), side, rest)
    ensures Fresh(open, s, more, now) && SameFlight(Run(open, s, events), Run(open, s, more), side)
    ensures Emitted(open, s, events, side) <= Emitted(open, s, more, side)
    ensures forall k :: k in rest ==>
              && k in Run(open, s, events).At(side).tx.inFlight
              && Run(open, s, events).At(side).tx.inFlight[k].packet in Emitted(open, s, more, side)
    decreases |rest|
  {
    hide Run, Fresh, Emitted, SameFlight, Resends;
    if rest == [] {
      more := events;
      SameThroughout(Run(open, s, events), side);
    } else {
      OneResent(open, s, events, side, rest, now);
      var next := events + [Event(side, ResendNext)] + [Event(side, ResendDone(now))];
      more := AllResent(open, s, next, side, rest[1..], now);
      SameThrough(Run(open, s, events), Run(open, s, next), Run(open, s, more), side);
      FlightIsSame(Run(open, s, events), Run(open, s, next), side);
      ResendsAre(Run(open, s, events), side, rest);
      assert rest == [rest[0]] + rest[1..];
    }
  }

  // No pass is under way, everything in flight has timed out, and the peer has been heard of lately enough.
  ghost predicate PassIsDue(e: Endpoint, now: int)
  {
    e.timer == Timer([], None) && now - e.lastPeerActivity < IDLE_TIMEOUT && Overdue(e, now) == e.tx.inFlight.Keys
  }

  lemma ScanOnEndpoint(open: Opener, e: Endpoint, inbox: set<Packet>, now: int, order: seq<nat>)
    requires e.error.None? && PassIsDue(e, now) && Lists(order, e.tx.inFlight.Keys)
    ensures var r := Act(open, e, inbox, Scan(now, order));
            && r.error.None? && r.timer == Timer(order, None)
            && r.tx.log == e.tx.log && r.tx.failed == e.tx.failed && r.tx.inFlight == e.tx.inFlight
  {
  }

  lemma ListsAll(order: seq<nat>, all: set<nat>)
    requires Lists(order, all)
    ensures forall k :: k in order <==> k in all
  {
    assert forall k :: k in order <==> k in (set i | i in order);
  }

  // When a pass is due, the timeout loop can hand every packet in flight to the socket once more, in whatever
  // order the table yields them.
  lemma PassResendsAll(open: Opener, s: System, side: Side, now: int, order: seq<nat>) returns (pass: seq<Event>)
    requires s.At(side).error.None? && PassIsDue(s.At(side), now) && Lists(order, s.At(side).tx.inFlight.Keys)
    ensures Fresh(open, s, pass, now) && FlightEmitted(open, s, pass, side)
    ensures SameFlight(s, Run(open, s, pass), side)
  {
    var scan := Event(side, Scan(now, order));
    hide Act, Fresh, Emitted, PassIsDue, Lists;
    FreshStart(open, s, now);
    FreshMore(open, s, [], scan, now);
    OneMore(open, s, [], scan);
    assert [] + [scan] == [scan];
    ScanOnEndpoint(open, s.At(side), s.At(Peer(side)).sent, now, order);
    ListsAll(order, s.At(side).tx.inFlight.Keys);
    pass := AllResent(open, s, [scan], side, order, now);
  }
}
