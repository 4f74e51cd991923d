/** The receiving stream: a reorder buffer with a 65536-wide window and a hard cap on its size. */
module Reorder {
  import opened Basics

  const WINDOW_SIZE: nat := 65536
  const MAX_PACKETS_BUFFER: nat := 65536

  // Below this number `expected + WINDOW_SIZE` does not wrap in 32 bits.
  const SEQUENCE_LIMIT: nat := TWO32 - WINDOW_SIZE - 1

  // `ready` is every chunk pushed to the application queue so far.
  datatype Stream = Stream(buffer: map<nat, Bytes>, expected: nat, ready: seq<Bytes>)

  const INITIAL_STREAM: Stream := Stream(map[], 1, [])

  function Flush(s: Stream): Stream
    decreases |s.buffer|
  {
    if s.expected in s.buffer then
      Flush(Stream(s.buffer - {s.expected}, (s.expected + 1) % TWO32, s.ready + [s.buffer[s.expected]]))
    else s
  }

  predicate Admitted(s: Stream, sequence: nat)
  {
    && s.expected <= sequence <= (s.expected + WINDOW_SIZE) % TWO32
    && sequence !in s.buffer
  }

  predicate CapReached(s: Stream)
  {
    |s.buffer| >= MAX_PACKETS_BUFFER
  }

  // One DATA packet taken from the transport.
  function Accept(s: Stream, sequence: nat, payload: Bytes): Stream
  {
    if !Admitted(s, sequence) then s
    else
      var t := if CapReached(s) then Stream(map[], sequence, s.ready) else s;
      Flush(t.(buffer := t.buffer[sequence := payload]))
  }

  class ReorderBuffer {
    var packetsBuffer: map<nat, Bytes>
    var expectedSequence: nat
    var ready: seq<Bytes>

    ghost function State(): Stream
      reads this
    {
      Stream(packetsBuffer, expectedSequence, ready)
    }

    constructor ()
      ensures State() == INITIAL_STREAM
    {
      packetsBuffer, expectedSequence, ready := map[], 1, [];
    }

    // The body of receive_chunks_loop for one DATA packet.
    method Receive(sequence: nat, payload: Bytes)
      modifies this
      ensures State() == Accept(old(State()), sequence, payload)
    {
      if sequence < expectedSequence {
        return;
      }
      if sequence > (expectedSequence + WINDOW_SIZE) % TWO32 {
        return;
      }
      if sequence in packetsBuffer {
        return;
      }
      if |packetsBuffer| >= MAX_PACKETS_BUFFER {
        packetsBuffer := map[];
        expectedSequence := sequence;
      }
      packetsBuffer := packetsBuffer[sequence := payload];
      FlushReady();
    }

    // The inner loop: hand over consecutive packets until one is missing.
    method FlushReady()
      modifies this
      ensures State() == Flush(old(State()))
    {
      while expectedSequence in packetsBuffer
        invariant Flush(State()) == Flush(old(State()))
        decreases |packetsBuffer|
      {
        ready := ready + [packetsBuffer[expectedSequence]];
        packetsBuffer := packetsBuffer - {expectedSequence};
        expectedSequence := (expectedSequence + 1) % TWO32;
      }
    }
  }

  // Invariants

  // Where the buffered sequence numbers lie whenever the loop waits for the next packet.
  ghost predicate InWindow(s: Stream)
  {
    && 1 <= s.expected <= SEQUENCE_LIMIT
    && s.expected == 1 + |s.ready|
    && forall k :: k in s.buffer ==> s.expected < k <= s.expected + WINDOW_SIZE && k < SEQUENCE_LIMIT
  }

  // The k-th chunk released is the one `content` names for sequence number k.
  ghost predicate Releases(ready: seq<Bytes>, k: nat, content: map<nat, Bytes>)
  {
    1 <= k <= |ready| && k in content && ready[k - 1] == content[k]
  }

  // Every chunk held or released is the one `content` names for its sequence number.
  ghost predicate Holds(s: Stream, content: map<nat, Bytes>)
  {
    && (forall k :: k in s.buffer ==> k in content && s.buffer[k] == content[k])
    && (forall k :: 1 <= k <= |s.ready| ==> Releases(s.ready, k, content))
  }

  // What a flush from `s` to `r` does: it releases the run of consecutive numbers starting at the expected
  // one, stops at the first one missing, and keeps the rest.
  ghost predicate Flushed(s: Stream, r: Stream)
  {
    && s.expected <= r.expected == 1 + |r.ready|
    && s.ready <= r.ready
    && r.expected !in s.buffer
    && (forall k :: s.expected <= k < r.expected ==> Releases(r.ready, k, s.buffer))
    && (forall k :: k in r.buffer <==> k in s.buffer && r.expected < k)
    && (forall k :: k in r.buffer ==> r.buffer[k] == s.buffer[k])
  }

  lemma {:induction false} FlushReleasesRun(s: Stream)
    requires s.expected == 1 + |s.ready|
    requires forall k :: k in s.buffer ==> s.expected <= k < SEQUENCE_LIMIT
    ensures Flushed(s, Flush(s))
    decreases |s.buffer|
  {
    if s.expected in s.buffer {
      var t := Stream(s.buffer - {s.expected}, (s.expected + 1) % TWO32, s.ready + [s.buffer[s.expected]]);
      FlushReleasesRun(t);
      var r := Flush(s);
      forall k | s.expected <= k < r.expected
        ensures Releases(r.ready, k, s.buffer)
      {
        if k == s.expected {
          assert r.ready[k - 1] == t.ready[k - 1];
        } else {
          assert Releases(r.ready, k, t.buffer);
        }
      }
    }
  }

  // The n numbers above `low`.
  function Above(low: nat, n: nat): (r: set<nat>)
    ensures forall k :: k in r <==> low < k <= low + n
    ensures |r| == n
  {
    if n == 0 then {} else Above(low, n - 1) + {low + n}
  }

  lemma SubsetSize(a: set<nat>, b: set<nat>)
    requires a <= b
    ensures |a| <= |b|
    ensures |a| == |b| ==> a == b
  {
    assert b == a + (b - a);
  }

  // Pigeonhole: the buffer never holds more than 65536 packets, and when it holds that many it is
  // exactly the whole window above the expected number.
  lemma BufferFitsWindow(s: Stream)
    requires InWindow(s)
    ensures |s.buffer| <= MAX_PACKETS_BUFFER
    ensures CapReached(s) ==> s.buffer.Keys == Above(s.expected, WINDOW_SIZE)
  {
    SubsetSize(s.buffer.Keys, Above(s.expected, WINDOW_SIZE));
    assert |s.buffer.Keys| == |s.buffer|;
  }

  // The hard-cap reset fires exactly when the window is full and the missing packet itself arrives, so
  // moving `expected` to that packet never skips a number.
  lemma ResetOnlyOnExpected(s: Stream, sequence: nat)
    requires InWindow(s) && CapReached(s)
    ensures Admitted(s, sequence) <==> sequence == s.expected
  {
    BufferFitsWindow(s);
  }

  // What the reset costs: the 65536 buffered packets are thrown away although each was acknowledged;
  // only the expected one is released, where without the cap all 65537 would have been.
  lemma ResetDiscardsWindow(s: Stream, payload: Bytes)
    requires InWindow(s) && CapReached(s)
    ensures Accept(s, s.expected, payload) == Stream(map[], s.expected + 1, s.ready + [payload])
    ensures Flush(s.(buffer := s.buffer[s.expected := payload])).expected == s.expected + WINDOW_SIZE + 1
  {
    ResetOnlyOnExpected(s, s.expected);
    BufferFitsWindow(s);
    assert s.expected + WINDOW_SIZE in s.buffer;
    var one := Stream(map[], s.expected, s.ready).(buffer := map[s.expected := payload]);
    assert one.buffer - {s.expected} == map[];
    assert Flush(one) == Stream(map[], s.expected + 1, s.ready + [payload]);
    var full := s.(buffer := s.buffer[s.expected := payload]);
    FlushReleasesRun(full);
    FullWindowRun(s, full, Flush(full));
  }

  lemma FullWindowRun(s: Stream, full: Stream, r: Stream)
    requires InWindow(s) && s.buffer.Keys == Above(s.expected, WINDOW_SIZE)
    requires full.expected == s.expected && full.ready == s.ready
    requires full.buffer.Keys == s.buffer.Keys + {s.expected}
    requires Flushed(full, r)
    ensures r.expected == s.expected + WINDOW_SIZE + 1
  {
    assert r.expected !in full.buffer.Keys;
    assert r.expected > s.expected + WINDOW_SIZE + 1 ==> Releases(r.ready, r.expected - 1, full.buffer);
  }

  // The state right after the packet is put in the buffer, before the flush.
  function Inserted(s: Stream, sequence: nat, payload: Bytes): Stream
  {
    var t := if CapReached(s) then Stream(map[], sequence, s.ready) else s;
    t.(buffer := t.buffer[sequence := payload])
  }

  lemma AcceptFlushes(s: Stream, sequence: nat, payload: Bytes)
    requires InWindow(s) && Admitted(s, sequence) && sequence < SEQUENCE_LIMIT
    ensures Accept(s, sequence, payload) == Flush(Inserted(s, sequence, payload))
    ensures Inserted(s, sequence, payload).expected == s.expected
    ensures Flushed(Inserted(s, sequence, payload), Accept(s, sequence, payload))
  {
    if CapReached(s) {
      ResetOnlyOnExpected(s, sequence);
    }
    FlushReleasesRun(Inserted(s, sequence, payload));
  }

  lemma InsertedHolds(s: Stream, sequence: nat, payload: Bytes, content: map<nat, Bytes>)
    requires Holds(s, content) && sequence in content && content[sequence] == payload
    ensures Holds(Inserted(s, sequence, payload), content)
  {
    forall k | 1 <= k <= |s.ready|
      ensures Releases(Inserted(s, sequence, payload).ready, k, content)
    {
      assert Releases(s.ready, k, content);
    }
  }

  lemma FlushedIsSafe(s: Stream, r: Stream, content: map<nat, Bytes>)
    requires s.expected == 1 + |s.ready| && 1 <= s.expected <= SEQUENCE_LIMIT
    requires forall k :: k in s.buffer ==> s.expected <= k <= s.expected + WINDOW_SIZE && k < SEQUENCE_LIMIT
    requires Holds(s, content) && Flushed(s, r)
    ensures InWindow(r) && Holds(r, content) && s.ready <= r.ready
  {
    forall k | 1 <= k <= |r.ready|
      ensures Releases(r.ready, k, content)
    {
      if k < s.expected {
        assert Releases(s.ready, k, content);
        assert r.ready[k - 1] == s.ready[k - 1];
      } else {
        assert Releases(r.ready, k, s.buffer);
      }
    }
    assert r.expected > SEQUENCE_LIMIT ==> Releases(r.ready, r.expected - 1, s.buffer);
  }

  // Prefix safety of one step: whatever arrives, with the hard cap or without, the released chunks keep
  // being the contents of 1, 2, 3, ... in order, and earlier releases are never revised.
  lemma AcceptIsSafe(s: Stream, sequence: nat, payload: Bytes, content: map<nat, Bytes>)
    requires InWindow(s) && Holds(s, content)
    requires sequence < SEQUENCE_LIMIT
    requires sequence in content && content[sequence] == payload
    ensures var r := Accept(s, sequence, payload);
            && InWindow(r) && Holds(r, content)
            && s.ready <= r.ready
  {
    if Admitted(s, sequence) {
      AcceptFlushes(s, sequence, payload);
      InsertedHolds(s, sequence, payload, content);
      FlushedIsSafe(Inserted(s, sequence, payload), Accept(s, sequence, payload), content);
    }
  }

  // A packet changes the stream exactly if it is new and within the window: one that was released or is held
  // already changes nothing, whatever it carries.
  lemma OnlyNewChanges(s: Stream, sequence: nat, payload: Bytes)
    requires InWindow(s) && sequence < SEQUENCE_LIMIT
    ensures Accept(s, sequence, payload) != s
            <==> s.expected <= sequence <= s.expected + 65536 && sequence !in s.buffer
  {
    if Admitted(s, sequence) {
      AcceptFlushes(s, sequence, payload);
      assert sequence in Inserted(s, sequence, payload).buffer;
    }
  }

  // Wrap-around: the number the stream waits for passes the window test exactly when the sum does not
  // wrap; from 2^32 - 65536 on, the expected packet itself is refused and the stream stalls.
  lemma ExpectedAdmittedUntilWrap(s: Stream)
    requires s.expected < TWO32 && s.expected !in s.buffer
    ensures Admitted(s, s.expected) <==> s.expected + WINDOW_SIZE < TWO32
  {
  }

  // Completeness

  datatype Arrival = Arrival(sequence: nat, payload: Bytes)

  function Feed(arrivals: seq<Arrival>): Stream
  {
    if arrivals == [] then INITIAL_STREAM
    else
      var last := arrivals[|arrivals| - 1];
      Accept(Feed(arrivals[..|arrivals| - 1]), last.sequence, last.payload)
  }

  // The first payload to arrive under each number from 1 on.
  function FirstArrivals(arrivals: seq<Arrival>): map<nat, Bytes>
  {
    if arrivals == [] then map[]
    else
      var before, last := FirstArrivals(arrivals[..|arrivals| - 1]), arrivals[|arrivals| - 1];
      if last.sequence == 0 || last.sequence in before then before else before[last.sequence := last.payload]
  }

  // Numbers from 1 on that stay below the 32-bit limit, each arriving once.
  ghost predicate Numbered(arrivals: seq<Arrival>)
  {
    && (forall i :: 0 <= i < |arrivals| ==> 1 <= arrivals[i].sequence < SEQUENCE_LIMIT)
    && forall i, j :: 0 <= i < j < |arrivals| ==> arrivals[i].sequence != arrivals[j].sequence
  }

  // The two branches that throw packets away: the packet is beyond the window, or it fires the hard-cap reset.
  predicate Loses(s: Stream, sequence: nat)
  {
    sequence > (s.expected + WINDOW_SIZE) % TWO32 || (CapReached(s) && Admitted(s, sequence))
  }

  // No arrival took either branch.
  predicate Lossless(arrivals: seq<Arrival>)
  {
    arrivals == [] ||
    (&& Lossless(arrivals[..|arrivals| - 1])
     && !Loses(Feed(arrivals[..|arrivals| - 1]), arrivals[|arrivals| - 1].sequence))
  }

  // The first number from n on that is missing from the set.
  function FirstMissing(have: set<nat>, n: nat): nat
    decreases |have|
  {
    if n in have then FirstMissing(have - {n}, n + 1) else n
  }

  // Simple specification of the stream: it has released the contents of everything below the first missing
  // number, and it buffers exactly the rest.
  ghost predicate RefinesSet(s: Stream, arrived: map<nat, Bytes>)
  {
    && InWindow(s)
    && Holds(s, arrived)
    && s.expected !in arrived && 0 !in arrived
    && (forall k :: k in arrived && s.expected < k ==> k in s.buffer)
  }

  lemma AcceptRefinesSet(s: Stream, arrived: map<nat, Bytes>, sequence: nat, payload: Bytes)
    requires RefinesSet(s, arrived)
    requires 1 <= sequence < SEQUENCE_LIMIT && !Loses(s, sequence)
    ensures RefinesSet(Accept(s, sequence, payload),
                       if sequence in arrived then arrived else arrived[sequence := payload])
  {
    if Admitted(s, sequence) {
      NewArrival(s, arrived, sequence, payload);
    } else {
      RefusedIsOld(s, arrived, sequence);
    }
  }

  lemma RefusedIsOld(s: Stream, arrived: map<nat, Bytes>, sequence: nat)
    requires RefinesSet(s, arrived) && !Admitted(s, sequence) && !Loses(s, sequence) && sequence >= 1
    ensures sequence in arrived
  {
    assert 1 <= sequence < s.expected ==> Releases(s.ready, sequence, arrived);
  }

  lemma NewArrival(s: Stream, arrived: map<nat, Bytes>, sequence: nat, payload: Bytes)
    requires RefinesSet(s, arrived) && !CapReached(s)
    requires Admitted(s, sequence) && sequence < SEQUENCE_LIMIT
    ensures sequence !in arrived
    ensures RefinesSet(Accept(s, sequence, payload), arrived[sequence := payload])
  {
    var more := arrived[sequence := payload];
    AcceptFlushes(s, sequence, payload);
    assert sequence !in arrived;
    MoreHolds(s, arrived, sequence, payload);
    InsertedHolds(s, sequence, payload, more);
    FlushedIsSafe(Inserted(s, sequence, payload), Accept(s, sequence, payload), more);
  }

  lemma MoreHolds(s: Stream, arrived: map<nat, Bytes>, sequence: nat, payload: Bytes)
    requires Holds(s, arrived) && sequence !in arrived
    ensures Holds(s, arrived[sequence := payload])
  {
    var more := arrived[sequence := payload];
    forall k | 1 <= k <= |s.ready|
      ensures Releases(s.ready, k, more)
    {
      assert Releases(s.ready, k, arrived);
    }
  }

  lemma {:induction false} FirstMissingIs(have: set<nat>, n: nat, m: nat)
    requires n <= m && m !in have
    requires forall k :: n <= k < m ==> k in have
    ensures FirstMissing(have, n) == m
    decreases |have|
  {
    if n in have {
      FirstMissingIs(have - {n}, n + 1, m);
    }
  }

  lemma {:induction false} FeedRefinesSet(arrivals: seq<Arrival>)
    requires Numbered(arrivals) && Lossless(arrivals)
    ensures RefinesSet(Feed(arrivals), FirstArrivals(arrivals))
  {
    if arrivals != [] {
      var before, last := arrivals[..|arrivals| - 1], arrivals[|arrivals| - 1];
      FeedRefinesSet(before);
      AcceptRefinesSet(Feed(before), FirstArrivals(before), last.sequence, last.payload);
    }
  }

  lemma {:induction false} FirstArrivalsAre(arrivals: seq<Arrival>, k: nat)
    requires k in FirstArrivals(arrivals)
    ensures k != 0 && exists i :: 0 <= i < |arrivals| && arrivals[i].sequence == k
  {
    var before, last := arrivals[..|arrivals| - 1], arrivals[|arrivals| - 1];
    if k in FirstArrivals(before) {
      FirstArrivalsAre(before, k);
      var i :| 0 <= i < |before| && before[i].sequence == k;
      assert arrivals[i].sequence == k;
    } else {
      assert arrivals[|before|].sequence == k;
    }
  }

  // A number arriving for the first time is new, and everything released or buffered so far stays named.
  lemma {:induction false} FeedIsSafe(arrivals: seq<Arrival>)
    requires Numbered(arrivals)
    ensures InWindow(Feed(arrivals)) && Holds(Feed(arrivals), FirstArrivals(arrivals))
  {
    if arrivals != [] {
      var before, last := arrivals[..|arrivals| - 1], arrivals[|arrivals| - 1];
      FeedIsSafe(before);
      LastIsNew(arrivals);
      MoreHolds(Feed(before), FirstArrivals(before), last.sequence, last.payload);
      AcceptIsSafe(Feed(before), last.sequence, last.payload, FirstArrivals(arrivals));
    }
  }

  lemma LastIsNew(arrivals: seq<Arrival>)
    requires Numbered(arrivals) && arrivals != []
    ensures arrivals[|arrivals| - 1].sequence !in FirstArrivals(arrivals[..|arrivals| - 1])
  {
    var before, k := arrivals[..|arrivals| - 1], arrivals[|arrivals| - 1].sequence;
    assert forall i :: 0 <= i < |before| ==> before[i] == arrivals[i];
    if k in FirstArrivals(before) {
      FirstArrivalsAre(before, k);
    }
  }

  lemma AcceptKeepsLost(s: Stream, sequence: nat, payload: Bytes, k: nat)
    requires InWindow(s) && sequence < SEQUENCE_LIMIT
    requires k !in s.buffer && s.expected <= k && sequence != k
    ensures var r := Accept(s, sequence, payload);
            k !in r.buffer && r.expected <= k
  {
    if Admitted(s, sequence) {
      AcceptFlushes(s, sequence, payload);
      var r := Accept(s, sequence, payload);
      assert s.expected <= k < r.expected ==> Releases(r.ready, k, Inserted(s, sequence, payload).buffer);
    }
  }

  // What one lossy arrival loses: the dropped number itself, or the first of the window the reset discards.
  lemma LosesNow(s: Stream, arrived: map<nat, Bytes>, sequence: nat, payload: Bytes) returns (k: nat)
    requires InWindow(s) && Holds(s, arrived) && sequence < SEQUENCE_LIMIT && Loses(s, sequence)
    ensures k == sequence || k in arrived
    ensures k !in Accept(s, sequence, payload).buffer && Accept(s, sequence, payload).expected <= k
  {
    if CapReached(s) && Admitted(s, sequence) {
      ResetOnlyOnExpected(s, sequence);
      ResetDiscardsWindow(s, payload);
      BufferFitsWindow(s);
      k := s.expected + 1;
      assert k in s.buffer.Keys;
    } else {
      k := sequence;
    }
  }

  // Once any arrival is lost, some number that arrived is neither released nor held, and never will be.
  lemma {:induction false} LostNumber(arrivals: seq<Arrival>) returns (k: nat)
    requires Numbered(arrivals) && !Lossless(arrivals)
    ensures k in FirstArrivals(arrivals) && k !in Feed(arrivals).buffer && Feed(arrivals).expected <= k
  {
    var before, last := arrivals[..|arrivals| - 1], arrivals[|arrivals| - 1];
    FeedIsSafe(before);
    LastIsNew(arrivals);
    if Lossless(before) {
      k := LosesNow(Feed(before), FirstArrivals(before), last.sequence, last.payload);
    } else {
      k := LostNumber(before);
      AcceptKeepsLost(Feed(before), last.sequence, last.payload, k);
    }
  }

  // The reorder buffer is a set: the released chunks are exactly the longest gap-free run from 1 of
  // everything received and the buffer holds exactly the rest, if and only if no arrival was dropped as out of
  // the window or fired the reset.
  lemma ReleasedIsLongestRun(arrivals: seq<Arrival>)
    requires Numbered(arrivals)
    ensures var s, arrived := Feed(arrivals), FirstArrivals(arrivals);
            Lossless(arrivals) <==>
              && s.expected == FirstMissing(arrived.Keys, 1) == 1 + |s.ready|
              && (forall k :: 1 <= k <= |s.ready| ==> Releases(s.ready, k, arrived))
              && s.buffer == (map k | k in arrived && s.expected < k :: arrived[k])
  {
    var s, arrived := Feed(arrivals), FirstArrivals(arrivals);
    if Lossless(arrivals) {
      FeedRefinesSet(arrivals);
      forall k: nat | 1 <= k < s.expected
        ensures k in arrived
      {
        assert Releases(s.ready, k, arrived);
      }
      FirstMissingIs(arrived.Keys, 1, s.expected);
    } else {
      var k := LostNumber(arrivals);
      if s.expected == FirstMissing(arrived.Keys, 1) {
        MissingIsMissing(arrived.Keys, 1);
        assert k != s.expected;
        assert k !in s.buffer && k in arrived && s.expected < k;
      }
    }
  }

  lemma {:induction false} MissingIsMissing(have: set<nat>, n: nat)
    ensures FirstMissing(have, n) !in have && FirstMissing(have, n) >= n
    decreases |have|
  {
    if n in have {
      MissingIsMissing(have - {n}, n + 1);
    }
  }
}
