/** What a file will hold once the buffers of the streams that write it are written out. */
module Buffers {
  import opened Basics
  import opened Ftp
  import opened Paths
  import opened FileTree
  import opened FileBuilders

  // Where the next byte of a stream goes.
  function End(f: OpenFile): nat
  {
    f.position + |f.pending|
  }

  // Buffered bytes are those of `bytes` at the place they go to.
  ghost predicate Belongs(f: OpenFile, bytes: Bytes)
  {
    f.pending == [] || (End(f) <= |bytes| && bytes[f.position..End(f)] == f.pending)
  }

  // Some stream still has to write offset i of the file q.
  ghost predicate Buffered(b: Builder, q: Path, i: nat)
  {
    exists id :: id in b.open && BuffersAt(b.open[id], q, i)
  }

  ghost predicate BuffersAt(f: OpenFile, q: Path, i: nat)
  {
    f.path == q && f.position <= i < End(f)
  }

  predicate RightAt(content: Bytes, bytes: Bytes, i: nat)
    requires i < |bytes|
  {
    i < |content| && content[i] == bytes[i]
  }

  // The file at q will hold `bytes` once every buffer is written out, in whatever order.
  ghost predicate Covered(b: Builder, q: Path, bytes: Bytes)
  {
    && q in b.disk && b.disk[q].File? && |b.disk[q].content| <= |bytes|
    && (forall id :: id in b.open && b.open[id].path == q ==> Belongs(b.open[id], bytes))
    && (forall i :: 0 <= i < |bytes| ==> RightAt(b.disk[q].content, bytes, i) || Buffered(b, q, i))
  }

  // The file at q will be at least, or at most, n bytes long then.
  ghost predicate AtLeast(b: Builder, q: Path, n: nat)
  {
    && q in b.disk && b.disk[q].File?
    && (|b.disk[q].content| >= n || exists id :: id in b.open && LongAt(b.open[id], q, n))
  }

  ghost predicate LongAt(f: OpenFile, q: Path, n: nat)
  {
    f.path == q && f.pending != [] && End(f) >= n
  }

  ghost predicate AtMost(b: Builder, q: Path, n: nat)
  {
    && q in b.disk && b.disk[q].File? && |b.disk[q].content| <= n
    && forall id :: id in b.open && b.open[id].path == q && b.open[id].pending != [] ==> End(b.open[id]) <= n
  }

  lemma WriteAtIs(content: Bytes, position: nat, data: Bytes)
    requires data != []
    ensures var r, end := WriteAt(content, position, data), position + |data|;
            && |r| == (if |content| < end then end else |content|)
            && forall i :: 0 <= i < |r| ==>
                 r[i] == if position <= i < end then data[i - position] else if i < |content| then content[i] else 0
  {
  }

  // The first n bytes of a stream's buffer are written out.
  function Spill(b: Builder, id: nat, n: nat): Builder
    requires id in b.open && n <= |b.open[id].pending|
  {
    var f := b.open[id];
    var rest := OpenFile(f.path, f.position + n, f.pending[n..]);
    b.(disk := WriteOut(b.disk, f, f.pending[..n]), open := b.open[id := rest])
  }

  lemma FlushIsSpill(b: Builder, id: nat)
    ensures b.FlushFile(id) == if id in b.open then Spill(b, id, |b.open[id].pending|) else b
  {
    if id in b.open {
      var pending := b.open[id].pending;
      assert pending[..|pending|] == pending && pending[|pending|..] == [];
    }
  }

  lemma PendingByte(f: OpenFile, bytes: Bytes, i: nat)
    requires Belongs(f, bytes) && f.position <= i < End(f)
    ensures i < |bytes| && f.pending[i - f.position] == bytes[i]
  {
    assert f.pending[i - f.position] == bytes[f.position..End(f)][i - f.position];
  }

  lemma RestBelongs(f: OpenFile, n: nat, bytes: Bytes)
    requires Belongs(f, bytes) && n <= |f.pending|
    ensures Belongs(OpenFile(f.path, f.position + n, f.pending[n..]), bytes)
  {
    if f.pending != [] {
      assert bytes[f.position..End(f)][n..] == bytes[f.position + n..End(f)];
    }
  }

  // Written out, a part of a buffer that belongs puts the right bytes in place.
  lemma SpilledBelongs(content: Bytes, f: OpenFile, n: nat, bytes: Bytes)
    requires Belongs(f, bytes) && |content| <= |bytes| && 0 < n <= |f.pending|
    ensures var r := WriteAt(content, f.position, f.pending[..n]);
            && |r| <= |bytes|
            && (forall i :: 0 <= i < |bytes| && RightAt(content, bytes, i) ==> RightAt(r, bytes, i))
            && (forall i :: f.position <= i < f.position + n ==> i < |bytes| && RightAt(r, bytes, i))
  {
    var r := WriteAt(content, f.position, f.pending[..n]);
    WriteAtIs(content, f.position, f.pending[..n]);
    PendingByte(f, bytes, f.position + n - 1);
    hide WriteAt, Belongs;
    forall i | f.position <= i < f.position + n
      ensures i < |bytes| && RightAt(r, bytes, i)
    {
      PendingByte(f, bytes, i);
      assert r[i] == f.pending[..n][i - f.position];
    }
  }

  lemma SpillCovers(b: Builder, id: nat, n: nat, q: Path, bytes: Bytes)
    requires Covered(b, q, bytes) && id in b.open && n <= |b.open[id].pending|
    ensures Covered(Spill(b, id, n), q, bytes)
  {
    hide Belongs, RightAt;
    var f, r := b.open[id], Spill(b, id, n);
    assert forall other :: other in b.open && other != id ==> other in r.open && r.open[other] == b.open[other];
    if f.path == q {
      RestBelongs(f, n, bytes);
      if n > 0 {
        SpilledBelongs(b.disk[q].content, f, n, bytes);
      } else {
        assert f.pending[..0] == [] && WriteAt(b.disk[q].content, f.position, []) == b.disk[q].content;
      }
    }
    forall i | 0 <= i < |bytes| && !RightAt(r.disk[q].content, bytes, i)
      ensures Buffered(r, q, i)
    {
      var other :| other in b.open && BuffersAt(b.open[other], q, i);
      assert BuffersAt(r.open[other], q, i);
    }
  }

  lemma SpillAtLeast(b: Builder, id: nat, k: nat, q: Path, n: nat)
    requires id in b.open && k <= |b.open[id].pending| && AtLeast(b, q, n)
    ensures AtLeast(Spill(b, id, k), q, n)
  {
    var f, r := b.open[id], Spill(b, id, k);
    var content := b.disk[q].content;
    if k > 0 {
      WriteAtIs(content, f.position, f.pending[..k]);
    }
    hide WriteAt;
    assert r.disk[q].File? && |r.disk[q].content| >= |content|;
    if |content| < n {
      var other :| other in b.open && LongAt(b.open[other], q, n);
      if other != id {
        assert r.open[other] == b.open[other];
      } else {
        assert LongAt(r.open[id], q, n) || |r.disk[q].content| >= n;
      }
    }
  }

  lemma SpillAtMost(b: Builder, id: nat, k: nat, q: Path, n: nat)
    requires id in b.open && k <= |b.open[id].pending| && AtMost(b, q, n)
    ensures AtMost(Spill(b, id, k), q, n)
  {
    var f := b.open[id];
    if k > 0 {
      WriteAtIs(b.disk[q].content, f.position, f.pending[..k]);
    }
    hide WriteAt;
    assert forall other :: other in b.open && other != id ==> Spill(b, id, k).open[other] == b.open[other];
  }

  lemma SpillLengths(b: Builder, id: nat, k: nat, q: Path, n: nat)
    requires id in b.open && k <= |b.open[id].pending|
    ensures AtLeast(b, q, n) ==> AtLeast(Spill(b, id, k), q, n)
    ensures AtMost(b, q, n) ==> AtMost(Spill(b, id, k), q, n)
  {
    hide AtLeast, AtMost, Spill;
    if AtLeast(b, q, n) {
      SpillAtLeast(b, id, k, q, n);
    }
    if AtMost(b, q, n) {
      SpillAtMost(b, id, k, q, n);
    }
  }

  // Closing

  ghost predicate AllWritten(b: Builder, ids: set<nat>)
  {
    forall id :: id in b.open && id in ids ==> b.open[id].pending == []
  }

  lemma FlushWrites(b: Builder, id: nat, done: set<nat>)
    requires AllWritten(b, done)
    ensures b.FlushFile(id).open.Keys == b.open.Keys && AllWritten(b.FlushFile(id), done + {id})
  {
  }

  lemma {:induction false} FlushAllWrites(b: Builder, order: seq<nat>, done: set<nat>)
    requires AllWritten(b, done)
    ensures var r := b.FlushAll(order);
            && r.open.Keys == b.open.Keys && AllWritten(r, done)
            && forall id :: id in order && id in r.open ==> r.open[id].pending == []
    decreases |order|
  {
    if order != [] {
      FlushWrites(b, order[0], done);
      FlushAllWrites(b.FlushFile(order[0]), order[1..], done + {order[0]});
    }
  }

  lemma FlushCovers(b: Builder, id: nat, q: Path, bytes: Bytes)
    requires Covered(b, q, bytes)
    ensures Covered(b.FlushFile(id), q, bytes)
  {
    hide Covered, Spill, Builder.FlushFile;
    FlushIsSpill(b, id);
    if id in b.open {
      SpillCovers(b, id, |b.open[id].pending|, q, bytes);
    }
  }

  lemma FlushLengths(b: Builder, id: nat, q: Path, n: nat)
    ensures AtLeast(b, q, n) ==> AtLeast(b.FlushFile(id), q, n)
    ensures AtMost(b, q, n) ==> AtMost(b.FlushFile(id), q, n)
  {
    hide AtLeast, AtMost, Spill, Builder.FlushFile;
    FlushIsSpill(b, id);
    if id in b.open {
      SpillLengths(b, id, |b.open[id].pending|, q, n);
    }
  }

  lemma {:induction false} FlushAllCovers(b: Builder, order: seq<nat>, q: Path, bytes: Bytes)
    requires Covered(b, q, bytes)
    ensures Covered(b.FlushAll(order), q, bytes)
    decreases |order|
  {
    hide Covered, Builder.FlushFile;
    if order != [] {
      FlushCovers(b, order[0], q, bytes);
      FlushAllCovers(b.FlushFile(order[0]), order[1..], q, bytes);
    }
  }

  lemma {:induction false} FlushAllLengths(b: Builder, order: seq<nat>, q: Path, n: nat)
    ensures AtLeast(b, q, n) ==> AtLeast(b.FlushAll(order), q, n)
    ensures AtMost(b, q, n) ==> AtMost(b.FlushAll(order), q, n)
    decreases |order|
  {
    hide AtLeast, AtMost, Builder.FlushFile;
    if order != [] {
      FlushLengths(b, order[0], q, n);
      FlushAllLengths(b.FlushFile(order[0]), order[1..], q, n);
    }
  }

  // What is so before the streams are closed shows in the file afterwards.
  lemma ClosingFlushes(b: Builder) returns (c: Builder)
    requires Valid(b)
    ensures c == b.FlushAll(b.runtime.closingOrder(b.open.Keys)) && c.disk == b.CloseAll().disk
    ensures forall id :: id in c.open ==> c.open[id].pending == []
  {
    var order := b.runtime.closingOrder(b.open.Keys);
    FlushAllWrites(b, order, {});
    c := b.FlushAll(order);
    assert forall id :: id in c.open ==> id in order;
  }

  lemma ClosingCovered(b: Builder, q: Path, bytes: Bytes)
    requires Valid(b) && Covered(b, q, bytes)
    ensures q in b.CloseAll().disk && b.CloseAll().disk[q] == File(bytes)
  {
    hide Covered, Valid, Builder.FlushAll, Builder.CloseAll;
    var c := ClosingFlushes(b);
    FlushAllCovers(b, b.runtime.closingOrder(b.open.Keys), q, bytes);
    AllOut(c, q, bytes);
  }

  lemma ClosingMisses(b: Builder, q: Path, n: nat, bytes: Bytes)
    requires Valid(b)
    requires (AtLeast(b, q, n) && |bytes| < n) || (AtMost(b, q, n) && |bytes| > n)
    ensures q in b.CloseAll().disk && b.CloseAll().disk[q] != File(bytes)
  {
    hide AtLeast, AtMost, Valid, Builder.FlushAll, Builder.CloseAll;
    var c := ClosingFlushes(b);
    FlushAllLengths(b, b.runtime.closingOrder(b.open.Keys), q, n);
    NoneOut(c, q, n);
  }

  lemma AllOut(c: Builder, q: Path, bytes: Bytes)
    requires Covered(c, q, bytes) && forall id :: id in c.open ==> c.open[id].pending == []
    ensures q in c.disk && c.disk[q] == File(bytes)
  {
    var content := c.disk[q].content;
    forall i | 0 <= i < |bytes|
      ensures RightAt(content, bytes, i)
    {
      assert !Buffered(c, q, i);
    }
    assert |bytes| > 0 ==> RightAt(content, bytes, |bytes| - 1);
    forall i | 0 <= i < |content|
      ensures content[i] == bytes[i]
    {
      assert RightAt(content, bytes, i);
    }
    assert content == bytes;
  }

  lemma NoneOut(c: Builder, q: Path, n: nat)
    requires forall id :: id in c.open ==> c.open[id].pending == []
    ensures AtLeast(c, q, n) ==> q in c.disk && c.disk[q].File? && |c.disk[q].content| >= n
    ensures AtMost(c, q, n) ==> q in c.disk && c.disk[q].File? && |c.disk[q].content| <= n
  {
  }

  // Writing

  // Data that has joined the buffer.
  function Joined(b: Builder, id: nat, data: Bytes): Builder
    requires id in b.open
  {
    var f := b.open[id];
    b.(open := b.open[id := OpenFile(f.path, f.position, f.pending + data)])
  }

  lemma WriteIsSpill(b: Builder, data: Bytes, id: nat) returns (n: nat)
    requires id in b.open
    ensures n <= |Joined(b, id, data).open[id].pending|
    ensures b.Write(data, id) == (Spill(Joined(b, id, data), id, n), None)
  {
    var f := b.open[id];
    n := Min(b.runtime.spill(f.pending, data), |f.pending + data|);
    hide WriteOut;
    assert Joined(b, id, data).open[id := OpenFile(f.path, f.position + n, (f.pending + data)[n..])]
        == b.open[id := OpenFile(f.path, f.position + n, (f.pending + data)[n..])];
  }

  lemma JoinBelongs(f: OpenFile, data: Bytes, bytes: Bytes)
    requires Belongs(f, bytes) && (data == [] || End(f) == |bytes|)
    ensures Belongs(f, bytes + data) && Belongs(OpenFile(f.path, f.position, f.pending + data), bytes + data)
  {
    var more := bytes + data;
    if f.pending != [] {
      assert more[f.position..End(f)] == bytes[f.position..End(f)];
    }
    if data != [] {
      assert more[f.position..|more|] == f.pending + data;
    } else {
      assert f.pending + data == f.pending && more == bytes;
    }
  }

  lemma LongerBelongs(f: OpenFile, data: Bytes, bytes: Bytes)
    requires Belongs(f, bytes)
    ensures Belongs(f, bytes + data)
  {
    if f.pending != [] {
      assert (bytes + data)[f.position..End(f)] == bytes[f.position..End(f)];
    }
  }

  // Data that goes where the data so far ends.
  lemma JoinCovers(b: Builder, id: nat, data: Bytes, q: Path, bytes: Bytes)
    requires Covered(b, q, bytes) && id in b.open && b.open[id].path == q
    requires data == [] || End(b.open[id]) == |bytes|
    ensures Covered(Joined(b, id, data), q, bytes + data)
  {
    var r, more := Joined(b, id, data), bytes + data;
    assert forall other :: other in b.open && other != id ==> other in r.open && r.open[other] == b.open[other];
    forall other | other in r.open && r.open[other].path == q
      ensures Belongs(r.open[other], more)
    {
      LongerBelongs(b.open[other], data, bytes);
      JoinBelongs(b.open[id], data, bytes);
    }
    hide Belongs;
    forall i | 0 <= i < |more| && !RightAt(b.disk[q].content, more, i)
      ensures Buffered(r, q, i)
    {
      if i < |bytes| {
        assert Buffered(b, q, i);
        var other :| other in b.open && BuffersAt(b.open[other], q, i);
        assert BuffersAt(r.open[other], q, i);
      } else {
        assert BuffersAt(r.open[id], q, i);
      }
    }
  }

  lemma JoinSparesOthers(b: Builder, id: nat, data: Bytes, q: Path, bytes: Bytes)
    requires Covered(b, q, bytes) && id in b.open && b.open[id].path != q
    ensures Covered(Joined(b, id, data), q, bytes)
  {
    hide RightAt, Belongs;
    var r := Joined(b, id, data);
    assert forall other :: other in b.open && other != id ==> other in r.open && r.open[other] == b.open[other];
    forall i | 0 <= i < |bytes| && Buffered(b, q, i)
      ensures Buffered(r, q, i)
    {
      var other :| other in b.open && BuffersAt(b.open[other], q, i);
      assert BuffersAt(r.open[other], q, i);
    }
  }

  // Data that goes anywhere else makes the file longer, or leaves it shorter, than what was sent.
  lemma JoinMisses(b: Builder, id: nat, data: Bytes, q: Path, bytes: Bytes)
    requires Covered(b, q, bytes) && id in b.open && b.open[id].path == q && data != []
    ensures End(b.open[id]) > |bytes| ==> AtLeast(Joined(b, id, data), q, |bytes| + |data| + 1)
    ensures End(b.open[id]) < |bytes| ==> AtMost(Joined(b, id, data), q, |bytes| + |data| - 1)
  {
    hide RightAt;
    var r := Joined(b, id, data);
    if End(b.open[id]) > |bytes| {
      assert LongAt(r.open[id], q, |bytes| + |data| + 1);
    }
    assert forall other :: other in b.open && other != id ==> other in r.open && r.open[other] == b.open[other];
  }

  lemma MissedShows(b: Builder, id: nat, data: Bytes, q: Path, bytes: Bytes)
    requires Valid(b) && Covered(b, q, bytes) && id in b.open && b.open[id].path == q && data != []
    requires End(b.open[id]) != |bytes|
    ensures var closed := b.Write(data, id).0.CloseAll().disk;
            q in closed && closed[q] != File(bytes + data)
  {
    hide Valid, Covered, AtLeast, AtMost;
    WriteKeeps(b, data, id);
    JoinMisses(b, id, data, q, bytes);
    var n := WriteIsSpill(b, data, id);
    var length := |bytes| + |data| + if End(b.open[id]) > |bytes| then 1 else -1;
    hide Joined, Spill, Builder.Write, Builder.CloseAll;
    SpillLengths(Joined(b, id, data), id, n, q, length);
    ClosingMisses(b.Write(data, id).0, q, length, bytes + data);
  }

  // Closing and opening

  // A stream that has nothing to write comes or goes.
  lemma ReplacedCovers(c: Builder, r: Builder, id: nat, q: Path, bytes: Bytes)
    requires Covered(c, q, bytes) && r.disk == c.disk
    requires id in c.open ==> c.open[id].pending == []
    requires id in r.open ==> r.open[id].pending == []
    requires forall other :: other != id ==> (other in r.open <==> other in c.open)
    requires forall other :: other in c.open && other != id ==> r.open[other] == c.open[other]
    ensures Covered(r, q, bytes)
  {
    hide RightAt;
    forall i | 0 <= i < |bytes| && Buffered(c, q, i)
      ensures Buffered(r, q, i)
    {
      var other :| other in c.open && BuffersAt(c.open[other], q, i);
      assert BuffersAt(r.open[other], q, i);
    }
  }

  // The same builder after the file at q was truncated or created.
  ghost predicate Truncated(b: Builder, a: Builder, q: Path)
  {
    && a.root == b.root && a.staging == b.staging && a.open == b.open
    && q in a.disk && a.disk[q] == File([])
    && forall other :: other in b.disk && other != q ==> other in a.disk && a.disk[other] == b.disk[other]
  }

  // The stream the id had is written out and a new one takes its place.
  function Reopened(a: Builder, id: nat, q: Path): Builder
  {
    var c := a.FlushFile(id);
    c.(open := c.open[id := OpenFile(q, 0, [])])
  }

  lemma ReopenedStreams(a: Builder, id: nat, q: Path)
    ensures var r := Reopened(a, id, q);
            && r.Stage() == a.Stage() && r.open.Keys == a.open.Keys + {id} && r.open[id].path == q
            && forall other :: other in a.open && other != id ==> r.open[other] == a.open[other]
  {
    hide WriteOut;
  }

  lemma ReopenCovers(a: Builder, id: nat, target: Path, q: Path, bytes: Bytes)
    requires Covered(a, q, bytes)
    ensures Covered(Reopened(a, id, target), q, bytes)
  {
    hide Covered;
    FlushCovers(a, id, q, bytes);
    FlushWrites(a, id, {});
    ReplacedCovers(a.FlushFile(id), Reopened(a, id, target), id, q, bytes);
  }

  lemma TruncatedCovers(b: Builder, a: Builder, q: Path, other: Path, bytes: Bytes)
    requires Truncated(b, a, q) && Covered(b, other, bytes) && other != q
    ensures Covered(a, other, bytes)
  {
    hide RightAt, Belongs;
    assert forall i :: Buffered(b, other, i) ==> Buffered(a, other, i);
  }

  lemma EmptyIsCovered(b: Builder, a: Builder, q: Path)
    requires Truncated(b, a, q) && forall id :: id in b.open && b.open[id].path == q ==> b.open[id].pending == []
    ensures Covered(a, q, [])
  {
  }

  lemma ReopenShows(a: Builder, id: nat, target: Path, other: nat)
    requires target in a.disk && a.disk[target].File?
    requires other in a.open && a.open[other].path == target && a.open[other].pending != []
    ensures AtLeast(Reopened(a, id, target), target, 1)
  {
    assert LongAt(a.open[other], target, 1);
    FlushLengths(a, id, target, 1);
    FlushWrites(a, id, {});
    var c, r := a.FlushFile(id), Reopened(a, id, target);
    hide Builder.FlushFile;
    assert AtLeast(a, target, 1);
    if |c.disk[target].content| < 1 {
      var long :| long in c.open && LongAt(c.open[long], target, 1);
      assert long != id;
      assert LongAt(r.open[long], target, 1);
    }
  }
}
