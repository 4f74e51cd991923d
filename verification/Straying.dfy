/** What can be seen outside the staging directory: exactly when an operation changes it. */
module Straying {
  import opened Basics
  import opened Ftp
  import opened Paths
  import opened FileTree
  import opened FileBuilders

  // What is left outside the staging directory once all streams are closed.
  function Settled(b: Builder): Tree
  {
    Outside(b.CloseAll().disk, b.Stage())
  }

  // Streams that write files outside have found or left them empty and have nothing to add.
  ghost predicate Quiet(b: Builder)
  {
    forall id :: id in b.open && !Inside(b.Stage(), b.open[id].path) ==> Untouched(b, b.open[id])
  }

  ghost predicate Untouched(b: Builder, f: OpenFile)
  {
    f.path in b.disk && b.disk[f.path] == File([]) && f.position == 0 && f.pending == []
  }

  // The guards: what an operation would do outside

  // Making the directories of a path leads outside and creates at least one there.
  ghost predicate MakesOutside(b: Builder, p: Path)
  {
    && b.Mkdirs(p).Ok?
    && !IsDir(b.disk, b.Mkdirs(p).value.place.path) && !Inside(b.Stage(), b.Mkdirs(p).value.place.path)
  }

  // Opening leads to a file outside that is missing or has content.
  ghost predicate OpensOutside(b: Builder, m: Made, name: Name)
  {
    var way := Follow(m.tree, m.place.path, [name], m.place.links);
    && way.Ok? && !IsDir(m.tree, way.value.path) && !Inside(b.Stage(), way.value.path)
    && !(way.value.path in m.tree && m.tree[way.value.path] == File([]))
  }

  ghost predicate LinksOutside(b: Builder, m: Made, name: Name, target: Bytes)
  {
    && name != DOT && m.place.path + [name] !in m.tree && target != []
    && !Inside(b.Stage(), m.place.path + [name])
  }

  ghost predicate DirectoryStrays(b: Builder, text: Bytes)
  {
    b.Ready() && ValidText(text) && MakesOutside(b, Resolve(Parts(text)))
  }

  ghost predicate FileStrays(b: Builder, text: Bytes)
  {
    && b.Ready() && ValidText(text)
    && var parts := Parts(text);
    var parent := Resolve(parts[..|parts| - 1]);
    MakesOutside(b, parent)
    || (b.Mkdirs(parent).Ok? && OpensOutside(b, b.Mkdirs(parent).value, parts[|parts| - 1]))
  }

  ghost predicate LinkStrays(b: Builder, text: Bytes, target: Bytes)
  {
    && b.Ready() && ValidText(text)
    && var parts := Parts(text);
    var parent := Resolve(parts[..|parts| - 1]);
    MakesOutside(b, parent)
    || (b.Mkdirs(parent).Ok? && LinksOutside(b, b.Mkdirs(parent).value, parts[|parts| - 1], target))
  }

  ghost predicate WriteStrays(b: Builder, data: Bytes, id: nat)
  {
    id in b.open && data != [] && !Inside(b.Stage(), b.open[id].path)
  }

  // Closing

  lemma {:induction false} FlushAllShape(b: Builder, order: seq<nat>)
    requires Valid(b)
    ensures Kept(b, b.FlushAll(order)) && SameShape(b.disk, b.FlushAll(order).disk)
    decreases |order|
  {
    if order != [] {
      FlushKeeps(b, order[0]);
      FlushAllShape(b.FlushFile(order[0]), order[1..]);
    }
  }

  // No stream has anything to add to the file at q.
  ghost predicate Spent(b: Builder, q: Path)
  {
    forall id :: id in b.open && b.open[id].path == q ==> b.open[id].pending == []
  }

  lemma FlushSpent(b: Builder, id: nat, q: Path)
    requires Spent(b, q)
    ensures Spent(b.FlushFile(id), q)
    ensures q in b.disk ==> q in b.FlushFile(id).disk && b.FlushFile(id).disk[q] == b.disk[q]
  {
    if id in b.open {
      WriteOutShape(b.disk, b.open[id], b.open[id].pending);
    }
  }

  lemma {:induction false} FlushAllSpent(b: Builder, order: seq<nat>, q: Path)
    requires Spent(b, q) && q in b.disk
    ensures q in b.FlushAll(order).disk && b.FlushAll(order).disk[q] == b.disk[q]
    decreases |order|
  {
    if order != [] {
      FlushSpent(b, order[0], q);
      FlushAllSpent(b.FlushFile(order[0]), order[1..], q);
    }
  }

  // One stream alone has something to add.
  ghost predicate Adds(b: Builder, id: nat, data: Bytes)
  {
    && id in b.open && b.open[id].path in b.disk && b.disk[b.open[id].path].File?
    && WriteAt(b.disk[b.open[id].path].content, b.open[id].position, b.open[id].pending) == data
    && forall other :: other in b.open && other != id && b.open[other].path == b.open[id].path ==>
         b.open[other].pending == []
  }

  lemma FlushOther(b: Builder, id: nat, data: Bytes, other: nat)
    requires Adds(b, id, data) && other != id
    ensures Adds(b.FlushFile(other), id, data) && b.FlushFile(other).open[id] == b.open[id]
  {
    if other in b.open {
      WriteOutShape(b.disk, b.open[other], b.open[other].pending);
    }
  }

  lemma {:induction false} FlushAllAdds(b: Builder, order: seq<nat>, id: nat, data: Bytes)
    requires Adds(b, id, data) && id in order
    ensures var q := b.open[id].path;
            q in b.FlushAll(order).disk && b.FlushAll(order).disk[q] == File(data)
    decreases |order|
  {
    hide WriteAt;
    if order[0] == id {
      var r := b.FlushFile(id);
      assert Spent(r, b.open[id].path);
      FlushAllSpent(r, order[1..], b.open[id].path);
    } else {
      FlushOther(b, id, data, order[0]);
      FlushAllAdds(b.FlushFile(order[0]), order[1..], id, data);
    }
  }

  // A quiet builder settles at what can be seen now.
  lemma QuietSettles(b: Builder)
    requires Valid(b) && Quiet(b)
    ensures Settled(b) == Outside(b.disk, b.Stage())
  {
    var order := b.runtime.closingOrder(b.open.Keys);
    FlushAllShape(b, order);
    forall q | q in b.disk && !Inside(b.Stage(), q)
      ensures b.FlushAll(order).disk[q] == b.disk[q]
    {
      FlushAllSpent(b, order, q);
    }
  }

  // What is there and no stream adds to stays.
  lemma SettledAt(b: Builder, q: Path)
    requires Valid(b) && q in b.disk && !Inside(b.Stage(), q)
    ensures q in Settled(b)
    ensures Spent(b, q) ==> Settled(b)[q] == b.disk[q]
  {
    var order := b.runtime.closingOrder(b.open.Keys);
    FlushAllShape(b, order);
    if Spent(b, q) {
      FlushAllSpent(b, order, q);
    }
  }

  // Directories

  // Of two prefixes of a path, one is the other's.
  lemma ChainOrBelow(d: Tree, s: Path, p: Path, q: Path)
    requires DirChain(d, s) && s <= p && q <= p
    ensures s <= q || IsDir(d, q)
  {
    if |q| <= |s| {
      assert q == p[..|q|] == s[..|q|];
    } else {
      assert s == p[..|s|] == q[..|s|];
    }
  }

  // What is created on the way to a place inside is inside.
  lemma GrownInside(b: Builder, r: Tree, p: Path)
    requires Valid(b) && Grown(b.disk, r, p) && Inside(b.Stage(), p)
    ensures Outside(r, b.Stage()) == Outside(b.disk, b.Stage())
  {
    ClosedChain(b.disk, b.Stage());
    forall q | q in r && q !in b.disk
      ensures Inside(b.Stage(), q)
    {
      ChainOrBelow(b.disk, b.Stage(), p, q);
    }
  }

  lemma MkdirsSeen(b: Builder, p: Path)
    requires Valid(b) && Quiet(b) && Proper(p) && b.Mkdirs(p).Ok?
    ensures var r := b.(disk := b.Mkdirs(p).value.tree);
            && Valid(r) && Quiet(r)
            && (!MakesOutside(b, p) ==> Outside(r.disk, r.Stage()) == Outside(b.disk, b.Stage()))
            && (MakesOutside(b, p) ==>
                  var q := b.Mkdirs(p).value.place.path;
                  q in r.disk && r.disk[q].Dir? && !Inside(r.Stage(), q) && q !in b.disk)
  {
    MkdirsKeeps(b, p);
    var m := b.Mkdirs(p).value;
    if !MakesOutside(b, p) && !IsDir(b.disk, m.place.path) {
      GrownInside(b, m.tree, m.place.path);
    }
  }

  lemma DirectorySeen(b: Builder, text: Bytes)
    requires Valid(b) && Quiet(b)
    ensures var r := b.CreateDirectory(text).0;
            if DirectoryStrays(b, text) then Settled(r) != Outside(b.disk, b.Stage())
            else Quiet(r) && Outside(r.disk, r.Stage()) == Outside(b.disk, b.Stage())
  {
    hide Settled, Outside;
    var p := Resolve(Parts(text));
    if ValidText(text) && b.Mkdirs(p).Ok? {
      AcceptedIsProper(text);
      MkdirsSeen(b, p);
      if MakesOutside(b, p) {
        NewIsSeen(b, b.CreateDirectory(text).0, b.Mkdirs(p).value.place.path);
      }
    }
  }

  lemma NewIsSeen(b: Builder, r: Builder, q: Path)
    requires Valid(r) && r.Stage() == b.Stage()
    requires q in r.disk && q !in b.disk && !Inside(r.Stage(), q)
    ensures Settled(r) != Outside(b.disk, b.Stage())
  {
    SettledAt(r, q);
    assert q !in Outside(b.disk, b.Stage());
  }

  // Links

  lemma LinkSeen(b: Builder, text: Bytes, target: Bytes)
    requires Valid(b) && Quiet(b)
    ensures var r := b.CreateSymlink(text, target).0;
            if LinkStrays(b, text, target) then Settled(r) != Outside(b.disk, b.Stage())
            else Quiet(r) && Outside(r.disk, r.Stage()) == Outside(b.disk, b.Stage())
  {
    hide Settled, Outside, Quiet, Closed;
    var parts := Parts(text);
    var parent, name := Resolve(parts[..|parts| - 1]), parts[|parts| - 1];
    if ValidText(text) && b.Mkdirs(parent).Ok? {
      AcceptedIsProper(text);
      var m, r := b.Mkdirs(parent).value, b.CreateSymlink(text, target).0;
      MkdirsSeen(b, parent);
      MkdirsKeeps(b, parent);
      CreateSymlinkKeeps(b, text, target);
      if MakesOutside(b, parent) {
        NewIsSeen(b, r, m.place.path);
      } else if LinksOutside(b, m, name, target) {
        NewIsSeen(b, r, m.place.path + [name]);
      } else {
        LinkUnseen(b.(disk := m.tree), m, name, target);
      }
    }
  }

  lemma LinkUnseen(b: Builder, m: Made, name: Name, target: Bytes)
    requires Valid(b) && Quiet(b) && b.disk == m.tree && !LinksOutside(b, m, name, target)
    ensures var r := b.PlaceLink(m, name, target).0;
            Quiet(r) && Outside(r.disk, r.Stage()) == Outside(b.disk, b.Stage())
  {
    var entry := m.place.path + [name];
    if name != DOT && entry !in m.tree && target != [] {
      PutInside(b.disk, b.Stage(), entry, Link(target));
    }
  }

  // Files

  lemma FlushUnseen(b: Builder, id: nat)
    requires Valid(b) && Quiet(b)
    ensures var r := b.FlushFile(id);
            Quiet(r) && Outside(r.disk, r.Stage()) == Outside(b.disk, b.Stage())
  {
    hide Closed, WriteOut;
    if id in b.open {
      WriteOutShape(b.disk, b.open[id], b.open[id].pending);
      FlushKeeps(b, id);
    }
  }

  // A file opened inside, or empty already, is not seen.
  lemma OpenUnseen(b: Builder, p: Path, id: nat)
    requires Valid(b) && Quiet(b) && Valid(b.(disk := b.disk[p := File([])]))
    requires Inside(b.Stage(), p) || (p in b.disk && b.disk[p] == File([]))
    ensures var c := b.(disk := b.disk[p := File([])]).FlushFile(id);
            var r := c.(open := c.open[id := OpenFile(p, 0, [])]);
            Quiet(r) && Outside(r.disk, r.Stage()) == Outside(b.disk, b.Stage())
  {
    hide Closed, WriteOut, WriteAt;
    var a := b.(disk := b.disk[p := File([])]);
    assert Outside(a.disk, a.Stage()) == Outside(b.disk, b.Stage());
    assert Quiet(a);
    FlushUnseen(a, id);
    var c := a.FlushFile(id);
    assert !Inside(b.Stage(), p) ==> p in Outside(c.disk, c.Stage()) && Outside(c.disk, c.Stage())[p] == File([]);
  }

  // A file opened outside that was missing or had content is seen.
  lemma OpenSeen(b: Builder, p: Path, id: nat)
    requires Valid(b) && Quiet(b) && Valid(b.(disk := b.disk[p := File([])]))
    requires !Inside(b.Stage(), p) && !(p in b.disk && b.disk[p] == File([]))
    ensures var c := b.(disk := b.disk[p := File([])]).FlushFile(id);
            var r := c.(open := c.open[id := OpenFile(p, 0, [])]);
            && Valid(r) && r.Stage() == b.Stage() && p in r.disk && r.disk[p] == File([]) && Spent(r, p)
  {
    hide Closed, WriteOut;
    var a := b.(disk := b.disk[p := File([])]);
    FlushKeeps(a, id);
    assert Spent(a, p);
    FlushSpent(a, id, p);
  }

  lemma FileSeenAt(b: Builder, m: Made, name: Name, id: nat)
    requires Valid(b) && Quiet(b) && b.disk == m.tree && IsDir(m.tree, m.place.path)
    ensures var r := b.OpenForWriting(m, name, id).0;
            if OpensOutside(b, m, name) then
              var p := Follow(m.tree, m.place.path, [name], m.place.links).value.path;
              Valid(r) && r.Stage() == b.Stage() && p in r.disk && r.disk[p] == File([]) && Spent(r, p)
            else Quiet(r) && Outside(r.disk, r.Stage()) == Outside(b.disk, b.Stage())
  {
    hide Closed, Quiet, Spent, Orderly, Outside, Inside, Follow, IsDir, Builder.FlushFile;
    var way := Follow(m.tree, m.place.path, [name], m.place.links);
    assert b.(disk := m.tree) == b;
    if way.Ok? && !IsDir(m.tree, way.value.path) {
      OpensFile(b, m, name);
      PutKeeps(b, way.value.path, File([]));
      if OpensOutside(b, m, name) {
        OpenSeen(b, way.value.path, id);
      } else {
        OpenUnseen(b, way.value.path, id);
      }
    }
  }

  lemma ChangeIsSeen(b: Builder, r: Builder, q: Path)
    requires Valid(r) && r.Stage() == b.Stage() && !Inside(b.Stage(), q)
    requires q in r.disk && r.disk[q] == File([]) && Spent(r, q)
    requires !(q in b.disk && b.disk[q] == File([]))
    ensures Settled(r) != Outside(b.disk, b.Stage())
  {
    SettledAt(r, q);
  }

  lemma FileSeen(b: Builder, text: Bytes, id: nat)
    requires Valid(b) && Quiet(b)
    ensures var r := b.CreateFile(text, id).0;
            if FileStrays(b, text) then Settled(r) != Outside(b.disk, b.Stage())
            else Quiet(r) && Outside(r.disk, r.Stage()) == Outside(b.disk, b.Stage())
  {
    hide Settled, Outside, Quiet, Builder.OpenForWriting, Closed;
    var parts := Parts(text);
    var parent, name := Resolve(parts[..|parts| - 1]), parts[|parts| - 1];
    if ValidText(text) && b.Mkdirs(parent).Ok? {
      AcceptedIsProper(text);
      var m := b.Mkdirs(parent).value;
      var a, r := b.(disk := m.tree), b.CreateFile(text, id).0;
      MkdirsSeen(b, parent);
      MkdirsKeeps(b, parent);
      CreateFileKeeps(b, text, id);
      FileSeenAt(a, m, name, id);
      OpenIgnoresDisk(b, m, name, id);
      if MakesOutside(b, parent) {
        OpenKeepsKeys(a, m, name, id);
        NewIsSeen(b, r, m.place.path);
      } else if OpensOutside(b, m, name) {
        var p := Follow(m.tree, m.place.path, [name], m.place.links).value.path;
        assert p in b.disk ==> m.tree[p] == b.disk[p];
        ChangeIsSeen(b, r, p);
      }
    }
  }

  // Opening starts from the tree its directories were made in.
  lemma OpenIgnoresDisk(b: Builder, m: Made, name: Name, id: nat)
    ensures b.OpenForWriting(m, name, id) == b.(disk := m.tree).OpenForWriting(m, name, id)
  {
  }

  lemma OpenKeepsKeys(b: Builder, m: Made, name: Name, id: nat)
    requires Valid(b) && b.disk == m.tree && IsDir(m.tree, m.place.path)
    ensures forall q :: q in b.disk ==> q in b.OpenForWriting(m, name, id).0.disk
  {
    hide Valid, Follow, IsDir, Builder.FlushFile;
    var way := Follow(m.tree, m.place.path, [name], m.place.links);
    if way.Ok? && !IsDir(m.tree, way.value.path) {
      OpensFile(b, m, name);
      PutKeeps(b, way.value.path, File([]));
      FlushKeeps(b.(disk := m.tree[way.value.path := File([])]), id);
    }
  }

  // Data

  lemma WriteUnseen(b: Builder, data: Bytes, id: nat)
    requires Valid(b) && Quiet(b) && id in b.open && !WriteStrays(b, data, id)
    ensures var r := b.Write(data, id).0;
            Quiet(r) && Outside(r.disk, r.Stage()) == Outside(b.disk, b.Stage())
  {
    hide Closed, WriteOut;
    var f := b.open[id];
    var all := f.pending + data;
    WriteOutShape(b.disk, f, all[..Min(b.runtime.spill(f.pending, data), |all|)]);
  }

  // Data for an untouched file outside is all there is to it once the stream is closed.
  lemma WriteAdds(b: Builder, data: Bytes, id: nat)
    requires Valid(b) && Quiet(b) && WriteStrays(b, data, id)
    ensures Adds(b.Write(data, id).0, id, data)
  {
    hide Closed, WriteAt;
    var f := b.open[id];
    assert Untouched(b, f);
    assert f.pending + data == data;
    Spilled(data, Min(b.runtime.spill(f.pending, data), |data|));
    assert forall other :: other in b.open && b.open[other].path == f.path ==> Untouched(b, b.open[other]);
  }

  lemma AddIsSeen(b: Builder, r: Builder, id: nat, data: Bytes)
    requires Valid(r) && r.Stage() == b.Stage() && Adds(r, id, data) && data != []
    requires var q := r.open[id].path; !Inside(b.Stage(), q) && q in b.disk && b.disk[q] == File([])
    ensures Settled(r) != Outside(b.disk, b.Stage())
  {
    FlushAllAdds(r, r.runtime.closingOrder(r.open.Keys), id, data);
    assert Settled(r)[r.open[id].path] == File(data);
  }

  lemma WriteSeen(b: Builder, data: Bytes, id: nat)
    requires Valid(b) && Quiet(b)
    ensures var r := b.Write(data, id).0;
            if WriteStrays(b, data, id) then Settled(r) != Outside(b.disk, b.Stage())
            else Quiet(r) && Outside(r.disk, r.Stage()) == Outside(b.disk, b.Stage())
  {
    hide Closed, Settled, Outside, WriteOut;
    if id in b.open {
      WriteKeeps(b, data, id);
      if WriteStrays(b, data, id) {
        WriteAdds(b, data, id);
        assert Untouched(b, b.open[id]);
        AddIsSeen(b, b.Write(data, id).0, id, data);
      } else {
        WriteUnseen(b, data, id);
      }
    }
  }

  lemma Spilled(data: Bytes, n: nat)
    requires n <= |data|
    ensures WriteAt(WriteAt([], 0, data[..n]), n, data[n..]) == data
  {
    AppendAtEnd([], data[..n]);
    assert [] + data[..n] == data[..n];
    AppendAtEnd(data[..n], data[n..]);
    assert data[..n] + data[n..] == data;
  }

  lemma CloseSeen(b: Builder, id: nat)
    requires Valid(b) && Quiet(b)
    ensures var r := b.CloseFile(id).0;
            Quiet(r) && Outside(r.disk, r.Stage()) == Outside(b.disk, b.Stage())
  {
    FlushUnseen(b, id);
  }
}
