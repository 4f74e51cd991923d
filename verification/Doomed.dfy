/** When a transfer can no longer be completed: the exact states from which nothing helps. */
module Doomed {
  import opened Basics
  import opened Reorder
  import opened Transport
  import opened Link
  import opened Delivery
  import opened Recovery
  import opened Resending

  // Number k has arrived and will never be released: it is neither held nor released, or the full buffer that
  // holds it can only be left by a reset.
  ghost predicate NeverReleased(s: Stream, k: nat)
  {
    (s.expected <= k && k !in s.buffer) || (CapReached(s) && k == s.expected + 1)
  }

  lemma AcceptKeepsNever(s: Stream, sequence: nat, payload: Bytes, k: nat)
    requires InWindow(s) && sequence < SEQUENCE_LIMIT && NeverReleased(s, k) && sequence != k
    ensures NeverReleased(Accept(s, sequence, payload), k)
  {
    if s.expected <= k && k !in s.buffer {
      AcceptKeepsLost(s, sequence, payload, k);
    } else {
      ResetOnlyOnExpected(s, sequence);
      ResetDiscardsWindow(s, payload);
    }
  }

  // A stream of arrivals that has lost something, or has left no room, dooms one of its numbers.
  lemma DoomedNumber(arrivals: seq<Arrival>) returns (k: nat)
    requires Numbered(arrivals) && (!Lossless(arrivals) || CapReached(Feed(arrivals)))
    ensures k in FirstArrivals(arrivals) && NeverReleased(Feed(arrivals), k)
  {
    if !Lossless(arrivals) {
      k := LostNumber(arrivals);
    } else {
      FeedIsSafe(arrivals);
      BufferFitsWindow(Feed(arrivals));
      k := Feed(arrivals).expected + 1;
      assert k in Above(Feed(arrivals).expected, WINDOW_SIZE);
      assert k in Feed(arrivals).buffer.Keys;
    }
  }

  lemma NumberedPrefix(arrivals: seq<Arrival>, n: nat)
    requires Numbered(arrivals) && n <= |arrivals|
    ensures Numbered(arrivals[..n])
  {
  }

  lemma {:induction false} FeedKeepsNever(arrivals: seq<Arrival>, n: nat, k: nat)
    requires Numbered(arrivals) && n <= |arrivals|
    requires k in FirstArrivals(arrivals[..n]) && NeverReleased(Feed(arrivals[..n]), k)
    ensures NeverReleased(Feed(arrivals), k)
    decreases |arrivals|
  {
    if n == |arrivals| {
      assert arrivals[..n] == arrivals;
    } else {
      hide NeverReleased, FirstArrivals;
      var before, last := arrivals[..|arrivals| - 1], arrivals[|arrivals| - 1];
      NumberedPrefix(arrivals, |arrivals| - 1);
      assert before[..n] == arrivals[..n];
      FeedKeepsNever(before, n, k);
      FeedIsSafe(before);
      FirstArrivalsAre(arrivals[..n], k);
      var i :| 0 <= i < n && arrivals[..n][i].sequence == k;
      assert arrivals[i].sequence == k;
      AcceptKeepsNever(Feed(before), last.sequence, last.payload, k);
    }
  }

  // The number expected only grows.
  lemma {:induction false} ExpectedGrows(arrivals: seq<Arrival>, n: nat)
    requires Numbered(arrivals) && n <= |arrivals|
    ensures Feed(arrivals[..n]).expected <= Feed(arrivals).expected
    decreases |arrivals|
  {
    if n == |arrivals| {
      assert arrivals[..n] == arrivals;
    } else {
      var before, last := arrivals[..|arrivals| - 1], arrivals[|arrivals| - 1];
      NumberedPrefix(arrivals, |arrivals| - 1);
      assert before[..n] == arrivals[..n];
      ExpectedGrows(before, n);
      FeedIsSafe(before);
      if Admitted(Feed(before), last.sequence) {
        AcceptFlushes(Feed(before), last.sequence, last.payload);
      }
    }
  }

  // What enters the queue stays entered

  lemma ActEnters(open: Opener, e: Endpoint, inbox: set<Packet>, action: Action)
    ensures Entered(e.rx) <= Entered(Act(open, e, inbox, action).rx)
  {
    hide Endpoint.Attempt, Accept;
    if Enabled(open, e, inbox, action) {
      match action
      case Send(id, plain, sealed, now) => AttemptKeepsRx(e, id, plain, sealed, now);
      case Resume(id, sealed, now) => AttemptKeepsRx(e, id, e.tx.calls[id].plain, sealed, now);
      case Take => assert e.rx.taken + [e.rx.queue[0]] + e.rx.queue[1..] == Entered(e.rx);
      case _ =>
    }
  }

  lemma AttemptKeepsRx(e: Endpoint, id: nat, plain: Bytes, sealed: Option<Bytes>, now: int)
    ensures e.Attempt(id, plain, sealed, now).rx == e.rx
  {
  }

  lemma {:induction false} RunEnters(open: Opener, s: System, events: seq<Event>, side: Side)
    ensures Entered(s.At(side).rx) <= Entered(Run(open, s, events).At(side).rx)
  {
    if events != [] {
      hide Act, Entered;
      var before, event := Run(open, s, events[..|events| - 1]), events[|events| - 1];
      RunEnters(open, s, events[..|events| - 1], side);
      if event.side == side {
        ActEnters(open, before.At(side), before.At(Peer(side)).sent, event.action);
      }
    }
  }

  lemma {:induction false} ArrivalsPrefix(taken: seq<Packet>, longer: seq<Packet>)
    requires taken <= longer
    ensures Arrivals(taken) <= Arrivals(longer)
    decreases |longer|
  {
    if |taken| < |longer| {
      ArrivalsPrefix(taken, longer[..|longer| - 1]);
    } else {
      assert taken == longer;
    }
  }

  lemma EnteredNumbered(log: seq<Slot>, rx: Rx)
    requires QueueOk(log, rx) && |log| <= SEQUENCE_LIMIT
    ensures Numbered(Arrivals(Entered(rx)))
  {
    var all := rx.(taken := Entered(rx), queue := []);
    assert Entered(all) == Entered(rx);
    TakenNumbered(log, all);
  }

  lemma ArrivedIsLogged(log: seq<Slot>, rx: Rx, k: nat)
    requires QueueOk(log, rx) && k in FirstArrivals(Arrivals(Entered(rx)))
    ensures k < |log|
  {
    var arrivals := Arrivals(Entered(rx));
    FirstArrivalsAre(arrivals, k);
    var i :| 0 <= i < |arrivals| && arrivals[i].sequence == k;
    var j := ArrivalsAre(Entered(rx), i);
    assert EntryOk(log, rx.received, Entered(rx)[j]);
  }

  // A number doomed among what has entered by now is beyond everything released later.
  lemma DoomedStays(later: seq<Packet>, taken: seq<Packet>, entered: seq<Packet>, k: nat)
    requires taken <= later && entered <= later && Numbered(Arrivals(later))
    requires k in FirstArrivals(Arrivals(entered)) && NeverReleased(Feed(Arrivals(entered)), k)
    ensures Feed(Arrivals(taken)).expected <= k
  {
    hide Arrivals, Feed, FirstArrivals, Numbered;
    ArrivalsPrefix(entered, later);
    ArrivalsPrefix(taken, later);
    var all := Arrivals(later);
    assert Arrivals(entered) == all[..|Arrivals(entered)|] && Arrivals(taken) == all[..|Arrivals(taken)|];
    FeedKeepsNever(all, |Arrivals(entered)|, k);
    ExpectedGrows(all, |Arrivals(taken)|);
  }

  // If some continuation releases everything submitted so far, then nothing that has arrived is lost or must be.
  lemma ReleaseNeedsRecoverable(open: Opener, start: System, events: seq<Event>, side: Side, more: seq<Event>)
    requires Reaches(open, start, events) && Reaches(open, start, events + more)
    requires Run(open, start, events).At(side).tx.log != []
    requires Payloads(Run(open, start, events).At(side).tx.log)
             <= Run(open, start, events + more).At(Peer(side)).rx.stream.ready
    ensures Recoverable(Run(open, start, events).At(Peer(side)).rx)
  {
    hide Run, InitialSystem, Entered, Arrivals, Feed, FirstArrivals, Lossless, NeverReleased;
    var s, t := Run(open, start, events), Run(open, start, events + more);
    var log, rx, rx' := s.At(side).tx.log, s.At(Peer(side)).rx, t.At(Peer(side)).rx;
    LinkOf(open, start, events, side);
    LinkOf(open, start, events + more, side);
    RunConcat(open, start, events, more);
    RunEnters(open, s, more, Peer(side));
    EnteredNumbered(log, rx);
    EnteredNumbered(t.At(side).tx.log, rx');
    if !Recoverable(rx) {
      var k := DoomedNumber(Arrivals(Entered(rx)));
      ArrivedIsLogged(log, rx, k);
      TakenHasEntered(rx');
      DoomedStays(Entered(rx'), rx'.taken, Entered(rx), k);
    }
  }

  lemma TakenHasEntered(rx: Rx)
    ensures rx.taken <= Entered(rx)
  {
  }

  // In a state without errors in which a timeout pass is due, everything submitted can still be released if and
  // only if nothing that has arrived is lost or must be.
  lemma CanReleaseIff(open: Opener, start: System, events: seq<Event>, side: Side, now: int, order: seq<nat>)
    requires Reaches(open, start, events) && Healthy(Run(open, start, events), side)
    requires var e := Run(open, start, events).At(side);
             e.tx.log != [] && PassIsDue(e, now) && Lists(order, e.tx.inFlight.Keys)
    ensures Recoverable(Run(open, start, events).At(Peer(side)).rx) <==>
            exists more :: ReleasesAll(open, start, events, side, more)
  {
    hide Run, Reaches, Healthy, PassIsDue, Lists, Recoverable, Fresh, NothingLost;
    if Recoverable(Run(open, start, events).At(Peer(side)).rx) {
      var more := CanRelease(open, start, events, side, now, order);
      assert ReleasesAll(open, start, events, side, more);
    }
    forall more | ReleasesAll(open, start, events, side, more)
      ensures Recoverable(Run(open, start, events).At(Peer(side)).rx)
    {
      ReleaseNeedsRecoverable(open, start, events, side, more);
    }
  }

  // The continuation releases everything submitted so far.
  ghost predicate ReleasesAll(open: Opener, start: System, events: seq<Event>, side: Side, more: seq<Event>)
    requires Run(open, start, events).At(side).tx.log != []
  {
    && Reaches(open, start, events + more)
    && Payloads(Run(open, start, events).At(side).tx.log)
       <= Run(open, start, events + more).At(Peer(side)).rx.stream.ready
  }
}
