/** The progress meter both ends of a transfer share: integer percentages, printed when they grow. */
module FileTransfers {
  import opened Basics

  // (transferred * 100) / total in 64 bits, cast to 16 bits, at most 100.
  function Percent(total: nat, transferred: nat): (r: nat)
    requires total > 0
    ensures r <= 100
  {
    Clamp(Wrap64(transferred * 100) / total)
  }

  function Clamp(quotient: nat): (r: nat)
    ensures quotient <= 100 ==> r == quotient
    ensures r <= 100
  {
    Min(quotient % 65536, 100)
  }

  // `printed` is every percentage written to the console so far.
  datatype Meter = Meter(total: nat, transferred: nat, last: nat, printed: seq<nat>)
  {
    function Add(bytes: nat): Meter
    {
      if total == 0 then this
      else
        var now := Wrap64(transferred + bytes);
        var percent := Percent(total, now);
        if percent > last then Meter(total, now, percent, printed + [percent]) else this.(transferred := now)
    }
  }

  function AddAll(m: Meter, sizes: seq<nat>): Meter
  {
    if sizes == [] then m else AddAll(m, sizes[..|sizes| - 1]).Add(sizes[|sizes| - 1])
  }

  function Sum(sizes: seq<nat>): nat
  {
    if sizes == [] then 0 else Sum(sizes[..|sizes| - 1]) + sizes[|sizes| - 1]
  }

  // Multiples of d are at least d apart.
  lemma {:induction false} Apart(p: int, q: int, d: int)
    requires p > q && d > 0
    ensures p * d >= q * d + d
    decreases p - q
  {
    assert p * d == (p - 1) * d + d;
    if p > q + 1 {
      Apart(p - 1, q, d);
    }
  }

  lemma QuotientIs(x: int, d: int, q: int)
    requires d > 0 && q * d <= x < q * d + d
    ensures x / d == q
  {
    var p := x / d;
    assert x == d * p + x % d && d * p == p * d;
    if p > q {
      Apart(p, q, d);
    } else if p < q {
      Apart(q, p, d);
    }
  }

  lemma QuotientAtMost(a: nat, b: nat, d: nat)
    requires a <= b && d > 0
    ensures a / d <= b / d
  {
    var p, q := a / d, b / d;
    assert a == d * p + a % d && d * p == p * d;
    assert b == d * q + b % d && d * q == q * d;
    if p > q {
      Apart(p, q, d);
    }
  }

  // Taking off at least the divisor lowers the quotient.
  lemma QuotientLess(a: nat, b: nat, d: nat)
    requires a + d <= b && d > 0
    ensures a / d < b / d
  {
    var p := a / d;
    assert a == d * p + a % d && d * p == p * d;
    assert (p + 1) * d == p * d + d;
    QuotientIs(a + d, d, p + 1);
    QuotientAtMost(a + d, b, d);
  }

  // The percentage shown is the true one exactly while a hundred times the bytes transferred fits 64 bits.
  lemma PercentExactIff(total: nat, transferred: nat)
    requires 0 < total < TWO64 && transferred <= total
    ensures Percent(total, transferred) == transferred * 100 / total <==> transferred * 100 < TWO64
    ensures transferred * 100 / total <= 100
  {
    hide Wrap64, Clamp;
    var x := transferred * 100;
    TrueQuotient(total, x);
    if x >= TWO64 {
      WrapBelow(x);
      QuotientLess(Wrap64(x), x, total);
    }
  }

  // Past the total the meter shows 100 percent exactly while the percentage fits 16 bits, or its low 16 bits do not
  // fall below 100.
  lemma PastTotalIff(total: nat, transferred: nat)
    requires 0 < total <= transferred && transferred * 100 < TWO64
    ensures Percent(total, transferred) == 100 <==>
            transferred * 100 / total < 65536 || transferred * 100 / total % 65536 >= 100
  {
    hide Clamp;
    QuotientIs(total * 100, total, 100);
    QuotientAtMost(total * 100, transferred * 100, total);
    ClampIs(transferred * 100 / total);
  }

  lemma ClampIs(quotient: nat)
    requires quotient >= 100
    ensures Clamp(quotient) == 100 <==> quotient < 65536 || quotient % 65536 >= 100
  {
  }

  lemma TrueQuotient(total: nat, x: nat)
    requires 0 < total && x <= 100 * total
    ensures x / total <= 100
  {
    QuotientIs(100 * total, total, 100);
    QuotientAtMost(x, 100 * total, total);
  }

  lemma WrapBelow(x: nat)
    requires x >= TWO64
    ensures Wrap64(x) <= x - TWO64
  {
    assert x == TWO64 * (x / TWO64) + x % TWO64;
    assert x / TWO64 >= 1;
  }

  predicate Increasing(printed: seq<nat>)
  {
    forall i, j :: 0 <= i < j < |printed| ==> printed[i] < printed[j]
  }

  // The meter tells the truth: what was printed grows strictly and stays within 1..100, and the last of it is
  // the percentage transferred, rounded down.
  ghost predicate Truthful(m: Meter)
  {
    && 0 < m.total && m.total * 100 < TWO64 && m.transferred <= m.total
    && m.last == m.transferred * 100 / m.total
    && Increasing(m.printed)
    && (forall i :: 0 <= i < |m.printed| ==> 0 < m.printed[i] <= 100)
    && m.last == if m.printed == [] then 0 else m.printed[|m.printed| - 1]
  }

  lemma AddIsTruthful(m: Meter, bytes: nat)
    requires Truthful(m) && m.transferred + bytes <= m.total
    ensures Truthful(m.Add(bytes)) && m.Add(bytes).transferred == m.transferred + bytes
  {
    var now := m.transferred + bytes;
    assert now * 100 <= m.total * 100;
    PercentExactIff(m.total, now);
    QuotientAtMost(m.transferred * 100, now * 100, m.total);
    var r := m.Add(bytes);
    forall i, j | 0 <= i < j < |r.printed|
      ensures r.printed[i] < r.printed[j]
    {
      if j == |m.printed| {
        assert m.printed[i] <= m.last;
      }
    }
  }

  lemma {:induction false} MeterIsTruthful(total: nat, sizes: seq<nat>)
    requires 0 < total && total * 100 < TWO64 && Sum(sizes) <= total
    ensures var m := AddAll(Meter(total, 0, 0, []), sizes);
            Truthful(m) && m.total == total && m.transferred == Sum(sizes)
  {
    if sizes != [] {
      MeterIsTruthful(total, sizes[..|sizes| - 1]);
      AddIsTruthful(AddAll(Meter(total, 0, 0, []), sizes[..|sizes| - 1]), sizes[|sizes| - 1]);
    }
  }

  // Beyond the limit the wrapped product cannot even reach a hundred times the total.
  lemma HundredNeedsRoom(total: nat, transferred: nat)
    requires 0 < total && total * 100 >= TWO64
    ensures Percent(total, transferred) < 100
  {
    var wrapped := Wrap64(transferred * 100);
    assert wrapped < TWO64;
    QuotientIs(100 * total, total, 100);
    QuotientIs(100 * total - 1, total, 99);
    QuotientAtMost(wrapped, 100 * total - 1, total);
  }

  lemma {:induction false} HugeNeverShowsHundred(total: nat, sizes: seq<nat>)
    requires 0 < total && total * 100 >= TWO64
    ensures var m := AddAll(Meter(total, 0, 0, []), sizes);
            m.total == total && 100 !in m.printed
  {
    if sizes != [] {
      var before := AddAll(Meter(total, 0, 0, []), sizes[..|sizes| - 1]);
      HugeNeverShowsHundred(total, sizes[..|sizes| - 1]);
      HundredNeedsRoom(total, Wrap64(before.transferred + sizes[|sizes| - 1]));
    }
  }

  // 100% is printed exactly when every announced byte was transferred and a hundred times their number fits
  // 64 bits: a larger transfer completes without ever showing it.
  lemma HundredIff(total: nat, sizes: seq<nat>)
    requires 0 < total && Sum(sizes) <= total
    ensures 100 in AddAll(Meter(total, 0, 0, []), sizes).printed <==> Sum(sizes) == total && total * 100 < TWO64
  {
    if total * 100 < TWO64 {
      MeterIsTruthful(total, sizes);
      TruthfulHundred(AddAll(Meter(total, 0, 0, []), sizes));
    } else {
      HugeNeverShowsHundred(total, sizes);
    }
  }

  lemma TruthfulHundred(m: Meter)
    requires Truthful(m)
    ensures 100 in m.printed <==> m.transferred == m.total
  {
    QuotientIs(100 * m.total, m.total, 100);
    if 100 in m.printed {
      var i :| 0 <= i < |m.printed| && m.printed[i] == 100;
      assert m.last == 100;
      assert m.transferred * 100 >= m.total * (m.transferred * 100 / m.total);
    }
  }

  class FileTransfer {
    var bytesToTransfer: nat
    var bytesTransferred: nat
    var lastProgress: nat
    var printed: seq<nat>

    ghost function State(): Meter
      reads this
    {
      Meter(bytesToTransfer, bytesTransferred, lastProgress, printed)
    }

    constructor ()
      ensures State() == Meter(0, 0, 0, [])
    {
      bytesToTransfer, bytesTransferred, lastProgress, printed := 0, 0, 0, [];
    }

    method PrintProgress(bytes: nat)
      modifies this
      ensures State() == old(State()).Add(bytes)
    {
      if bytesToTransfer == 0 {
        return;
      }
      bytesTransferred := Wrap64(bytesTransferred + bytes);
      var newProgress := Wrap64(bytesTransferred * 100) / bytesToTransfer % 65536;
      if newProgress > 100 {
        newProgress := 100;
      }
      if newProgress > lastProgress {
        printed := printed + [newProgress];
        lastProgress := newProgress;
      }
    }
  }
}
