/** The congestion window arithmetic, over the reals: growth per effective ACK, collapse on a timeout pass. */
module Congestion {
  const INITIAL_CWND: real := 64.0
  const MAX_CWND: real := 1024.0
  const INITIAL_SSTHRESH: real := 64.0

  datatype Window = Window(cwnd: real, ssthresh: real)

  function Min(a: real, b: real): real
  {
    if b < a then b else a
  }

  function Max(a: real, b: real): real
  {
    if a < b then b else a
  }

  // An effective ACK: slow start below ssthresh, congestion avoidance from there on.
  // (A zero window would make the quotient infinite and the cap apply; it is never reached.)
  function Grow(w: Window): Window
  {
    if w.cwnd < w.ssthresh then w.(cwnd := Min(w.cwnd + 1.0, MAX_CWND))
    else if w.cwnd == 0.0 then w.(cwnd := MAX_CWND)
    else w.(cwnd := Min(w.cwnd + 1.0 / w.cwnd, MAX_CWND))
  }

  // A timeout pass that found at least one packet to resend.
  function Collapse(w: Window): Window
  {
    Window(1.0, Max(w.cwnd / 2.0, 2.0))
  }

  predicate InBounds(w: Window)
  {
    1.0 <= w.cwnd <= MAX_CWND && 2.0 <= w.ssthresh <= 512.0
  }

  datatype Event = Acked | TimedOut

  function After(w: Window, events: seq<Event>): (r: Window)
    requires InBounds(w)
    ensures InBounds(r)
  {
    if events == [] then w
    else
      var before := After(w, events[..|events| - 1]);
      if events[|events| - 1].Acked? then
        GrowKeepsBounds(before);
        Grow(before)
      else Collapse(before)
  }

  lemma Reciprocal(c: real)
    requires c >= 1.0
    ensures c * (1.0 / c) == 1.0
    ensures 0.0 < 1.0 / c <= 1.0
  {
    var r := 1.0 / c;
    assert c * r == 1.0;
    SmallFactor(c, r);
  }

  lemma SmallFactor(c: real, r: real)
    requires c >= 1.0 && c * r == 1.0
    ensures 0.0 < r <= 1.0
  {
  }

  lemma GrowKeepsBounds(w: Window)
    requires InBounds(w)
    ensures InBounds(Grow(w)) && Grow(w).cwnd >= w.cwnd
    ensures w.cwnd < MAX_CWND ==> Grow(w).cwnd > w.cwnd
  {
    Reciprocal(w.cwnd);
  }

  lemma GrowNeverShrinks(w: Window)
    requires 1.0 <= w.cwnd <= MAX_CWND
    ensures w.cwnd <= Grow(w).cwnd <= MAX_CWND && Grow(w).ssthresh == w.ssthresh
  {
    Reciprocal(w.cwnd);
  }

  function Acks(k: nat): seq<Event>
  {
    seq(k, i => Acked)
  }

  lemma OneMoreAck(w: Window, k: nat)
    requires InBounds(w)
    ensures After(w, Acks(k + 1)) == Grow(After(w, Acks(k)))
    ensures InBounds(After(w, Acks(k)))
    ensures After(w, Acks(k + 1)).cwnd >= After(w, Acks(k)).cwnd
    ensures After(w, Acks(k)).ssthresh == w.ssthresh
  {
    assert Acks(k + 1)[..k] == Acks(k);
    GrowKeepsBounds(After(w, Acks(k)));
    if k > 0 {
      OneMoreAck(w, k - 1);
    }
  }

  lemma SquareStep(c: real, r: real)
    requires c >= 2.0 && c * r == 1.0 && r > 0.0
    ensures c * c + 2.0 <= (c + r) * (c + r) <= c * c + 2.25
  {
    assert (c + r) * (c + r) == c * c + 2.0 * (c * r) + r * r;
    assert 2.0 * r <= c * r;
    assert 0.0 <= r * r <= 0.5 * r;
  }

  function Square(c: real): real
  {
    c * c
  }

  // The square of the window advances by 2 + 1/c² at each ACK of congestion avoidance.
  lemma AvoidanceStep(w: Window)
    requires InBounds(w) && w.cwnd >= w.ssthresh && Grow(w).cwnd < MAX_CWND
    ensures Square(w.cwnd) + 2.0 <= Square(Grow(w).cwnd) <= Square(w.cwnd) + 2.25
  {
    Reciprocal(w.cwnd);
    SquareStep(w.cwnd, 1.0 / w.cwnd);
  }

  lemma ChainSquares(start: real, before: real, after: real, k: nat)
    requires k > 0
    requires start + 2.0 * (k - 1) as real <= before <= start + 2.25 * (k - 1) as real
    requires before + 2.0 <= after <= before + 2.25
    ensures start + 2.0 * k as real <= after <= start + 2.25 * k as real
  {
  }

  // k ACKs of congestion avoidance below the cap: c0² + 2k <= ck² <= c0² + 2.25k, so the window
  // grows like a square root of the ACK count.
  lemma {:induction false} AvoidanceGrowth(w: Window, k: nat)
    requires InBounds(w) && w.cwnd >= w.ssthresh
    requires After(w, Acks(k)).cwnd < MAX_CWND
    ensures After(w, Acks(k)).cwnd >= w.cwnd
    ensures Square(w.cwnd) + 2.0 * k as real <= Square(After(w, Acks(k)).cwnd)
    ensures Square(After(w, Acks(k)).cwnd) <= Square(w.cwnd) + 2.25 * k as real
  {
    if k > 0 {
      var before := After(w, Acks(k - 1));
      OneMoreAck(w, k - 1);
      AvoidanceGrowth(w, k - 1);
      AvoidanceStep(before);
      ChainSquares(Square(w.cwnd), Square(before.cwnd), Square(After(w, Acks(k)).cwnd), k);
    }
  }

  lemma ReciprocalMonotone(a: real, b: real, x: real, y: real)
    requires 1.0 <= a <= b && a * x == 1.0 && b * y == 1.0
    ensures y <= x
  {
    SmallFactor(b, y);
    assert a * y <= b * y;
    assert a * (y - x) <= 0.0;
  }

  // r added k times.
  function Repeated(k: nat, r: real): real
  {
    if k == 0 then 0.0 else Repeated(k - 1, r) + r
  }

  lemma {:induction false} RepeatedIsProduct(k: nat, r: real)
    ensures Repeated(k, r) == k as real * r
  {
    if k > 0 {
      RepeatedIsProduct(k - 1, r);
      var x := (k - 1) as real;
      assert k as real == x + 1.0;
      assert (x + 1.0) * r == x * r + r;
    }
  }

  lemma GrowAtMost(w: Window, c: real)
    requires InBounds(w) && w.cwnd >= w.ssthresh && 1.0 <= c <= w.cwnd
    ensures Grow(w).cwnd <= w.cwnd + 1.0 / c
  {
    Reciprocal(c);
    Reciprocal(w.cwnd);
    ReciprocalMonotone(c, w.cwnd, 1.0 / c, 1.0 / w.cwnd);
  }

  lemma {:induction false} AvoidanceSlope(w: Window, k: nat, r: real)
    requires InBounds(w) && w.cwnd >= w.ssthresh && r == 1.0 / w.cwnd
    ensures w.cwnd <= After(w, Acks(k)).cwnd <= w.cwnd + Repeated(k, r)
  {
    if k > 0 {
      AvoidanceSlope(w, k - 1, r);
      OneMoreAck(w, k - 1);
      GrowAtMost(After(w, Acks(k - 1)), w.cwnd);
    }
  }

  // One window's worth of ACKs of congestion avoidance (floor(c0) of them) grows the window by at most 1.
  lemma AvoidanceRound(w: Window)
    requires InBounds(w) && w.cwnd >= w.ssthresh
    ensures w.cwnd <= After(w, Acks(w.cwnd.Floor)).cwnd <= w.cwnd + 1.0
  {
    AvoidanceSlope(w, w.cwnd.Floor, 1.0 / w.cwnd);
    RoundSum(w.cwnd);
  }

  lemma RoundSum(c: real)
    requires c >= 1.0
    ensures Repeated(c.Floor, 1.0 / c) <= 1.0
  {
    RepeatedIsProduct(c.Floor, 1.0 / c);
    Reciprocal(c);
    FloorProduct(c, c.Floor as real, 1.0 / c);
  }

  lemma FloorProduct(c: real, k: real, r: real)
    requires c * r == 1.0 && r > 0.0 && k <= c
    ensures k * r <= 1.0
  {
    assert (c - k) * r >= 0.0;
  }

  // n slow-start ACKs grow the window by exactly n until it reaches ssthresh or the cap.
  lemma {:induction false} SlowStart(w: Window, n: nat)
    requires InBounds(w)
    requires n > 0 ==> w.cwnd + (n - 1) as real < w.ssthresh
    requires w.cwnd + n as real <= MAX_CWND
    ensures After(w, Acks(n)).cwnd == w.cwnd + n as real
  {
    if n > 0 {
      OneMoreAck(w, n - 1);
      SlowStart(w, n - 1);
    }
  }

  // A timeout pass halves the threshold's window, but not below 2, and starts over from 1.
  lemma CollapseHalves(w: Window)
    requires InBounds(w)
    ensures Collapse(w).cwnd == 1.0
    ensures Collapse(w).ssthresh == if w.cwnd >= 4.0 then w.cwnd / 2.0 else 2.0
  {
  }

  // After a timeout pass at window c, exactly n = ceil(max(c/2, 2) - 1) ACKs bring the window back to
  // the slow-start threshold of half the lost window, and none fewer. The next one adds only the reciprocal.
  lemma RecoveryAfterTimeout(w: Window, n: nat)
    requires InBounds(w)
    requires var half := if w.cwnd >= 4.0 then w.cwnd / 2.0 else 2.0;
             half <= 1.0 + n as real < half + 1.0
    ensures var half := if w.cwnd >= 4.0 then w.cwnd / 2.0 else 2.0;
            && After(Collapse(w), Acks(n)) == Window(1.0 + n as real, half)
            && (forall m: nat :: m < n ==> After(Collapse(w), Acks(m)).cwnd < half)
    ensures After(Collapse(w), Acks(n + 1)).cwnd == 1.0 + n as real + 1.0 / (1.0 + n as real)
  {
    CollapseHalves(w);
    forall m: nat | m <= n
      ensures After(Collapse(w), Acks(m)).cwnd == 1.0 + m as real
    {
      SlowStart(Collapse(w), m);
    }
    OneMoreAck(Collapse(w), n);
    Reciprocal(1.0 + n as real);
  }

  // The window stops at exactly the cap.
  lemma CapIsReached(w: Window)
    requires InBounds(w) && w.cwnd >= w.ssthresh && w.cwnd + 1.0 / w.cwnd >= MAX_CWND
    ensures Grow(w) == Window(MAX_CWND, w.ssthresh) && Grow(Grow(w)) == Grow(w)
  {
    Reciprocal(MAX_CWND);
  }
}
