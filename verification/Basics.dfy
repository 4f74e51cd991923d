/** Values shared by every module: bytes, options, and order-preserving removal from a sequence. */
module Basics {

  type byte = b: int | 0 <= b < 256

  type Bytes = seq<byte>

  datatype Option<+T> = None | Some(value: T)

  datatype Result<+T, +E> = Ok(value: T) | Err(error: E)

  const TWO32: nat := 0x1_0000_0000

  predicate NoDup<T(==)>(s: seq<T>)
  {
    forall i, j :: 0 <= i < j < |s| ==> s[i] != s[j]
  }

  // The elements of `s` outside `dead`, in their original order: what `std::remove` followed by `erase` leaves.
  function Without<T(==)>(s: seq<T>, dead: set<T>): seq<T>
  {
    if s == [] then []
    else
      var last := s[|s| - 1];
      if last in dead then Without(s[..|s| - 1], dead) else Without(s[..|s| - 1], dead) + [last]
  }

  lemma {:induction false} WithoutMembers<T>(s: seq<T>, dead: set<T>, x: T)
    ensures x in Without(s, dead) <==> x in s && x !in dead
  {
    if s != [] {
      WithoutMembers(s[..|s| - 1], dead, x);
      assert s == s[..|s| - 1] + [s[|s| - 1]];
    }
  }

  lemma {:induction false} WithoutConcat<T>(a: seq<T>, b: seq<T>, dead: set<T>)
    ensures Without(a + b, dead) == Without(a, dead) + Without(b, dead)
  {
    if b == [] {
      assert a + b == a;
    } else {
      WithoutConcat(a, b[..|b| - 1], dead);
      assert (a + b)[..|a + b| - 1] == a + b[..|b| - 1];
    }
  }

  lemma {:induction false} WithoutAbsent<T>(s: seq<T>, dead: set<T>)
    requires forall x :: x in s ==> x !in dead
    ensures Without(s, dead) == s
  {
    if s != [] {
      assert s == s[..|s| - 1] + [s[|s| - 1]];
      WithoutAbsent(s[..|s| - 1], dead);
    }
  }

  lemma {:induction false} WithoutNoDup<T>(s: seq<T>, dead: set<T>)
    requires NoDup(s)
    ensures NoDup(Without(s, dead))
  {
    if s != [] {
      WithoutNoDup(s[..|s| - 1], dead);
      WithoutMembers(s[..|s| - 1], dead, s[|s| - 1]);
    }
  }

  // Taking a parked waiter off the line "served, then parked" leaves the served ones alone.
  lemma RemoveParked(served: seq<nat>, parked: seq<nat>, id: nat)
    requires NoDup(served + parked) && id in parked
    ensures served + Without(parked, {id}) == Without(served + parked, {id})
    ensures NoDup(served + Without(parked, {id}))
  {
    var all := served + parked;
    var k :| 0 <= k < |parked| && parked[k] == id;
    forall j | 0 <= j < |served|
      ensures served[j] != id
    {
      assert all[j] != all[|served| + k];
    }
    WithoutAbsent(served, {id});
    WithoutConcat(served, parked, {id});
    WithoutNoDup(all, {id});
  }

  lemma MultisetSnoc<T>(s: seq<T>)
    requires s != []
    ensures multiset(s) == multiset(s[..|s| - 1]) + multiset{s[|s| - 1]}
  {
    assert s == s[..|s| - 1] + [s[|s| - 1]];
  }

  lemma SuffixNoDup<T>(a: seq<T>, b: seq<T>)
    requires NoDup(a + b)
    ensures NoDup(b)
  {
    forall i, j | 0 <= i < j < |b|
      ensures b[i] != b[j]
    {
      assert (a + b)[|a| + i] != (a + b)[|a| + j];
    }
  }

  // Removing a value that occurs once takes exactly that occurrence.
  lemma {:induction false} WithoutOne<T>(s: seq<T>, x: T)
    requires NoDup(s) && x in s
    ensures multiset(s) == multiset(Without(s, {x})) + multiset{x}
  {
    var before, last := s[..|s| - 1], s[|s| - 1];
    MultisetSnoc(s);
    if last == x {
      WithoutAbsent(before, {x});
    } else {
      assert x in before;
      WithoutOne(before, x);
      assert multiset(Without(before, {x}) + [last]) == multiset(Without(before, {x})) + multiset{last};
    }
  }

  // Unsigned 64-bit arithmetic

  function Min(a: nat, b: nat): nat
  {
    if a <= b then a else b
  }

  const TWO64: nat := TWO32 * TWO32

  // Addition of std::uint64_t.
  function Wrap64(n: nat): (r: nat)
    ensures n < TWO64 ==> r == n
  {
    n % TWO64
  }

  lemma WrapSum(a: nat, b: nat)
    ensures Wrap64(Wrap64(a) + b) == Wrap64(a + b)
  {
    var q := a / TWO64;
    assert a + b == (a % TWO64 + b) + q * TWO64;
    ModShift(a % TWO64 + b, q);
  }

  lemma {:induction false} ModShift(a: nat, q: nat)
    ensures (a + q * TWO64) % TWO64 == a % TWO64
  {
    if q > 0 {
      ModShift(a, q - 1);
      assert a + q * TWO64 == (a + (q - 1) * TWO64) + TWO64;
    }
  }
}
