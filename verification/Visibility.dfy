/** When a received stream leaves everything outside the staging directory alone. */
module Visibility {
  import opened Basics
  import opened Ftp
  import opened Paths
  import opened FileTree
  import opened FileBuilders
  import opened Straying
  import opened Receivers

  // The packet would create, truncate, link or fill something outside the staging directory.
  ghost predicate Strays(r: Receiving, p: Packet)
  {
    if p.kind == CREATE_DIRECTORY then DirectoryStrays(r.builder, p.data)
    else if p.kind == CREATE_FILE then FileStrays(r.builder, p.data)
    else if p.kind == CREATE_SYMLINK then
      DecodeLink(p.data).Ok? && LinkStrays(r.builder, DecodeLink(p.data).value.0, DecodeLink(p.data).value.1)
    else p.kind == FILE_DATA && |p.data| <= r.bytesRemaining && WriteStrays(r.builder, p.data, p.fileId)
  }

  function Around(r: Receiving): Tree
  {
    Outside(r.builder.disk, r.builder.Stage())
  }

  lemma HandleSeen(r: Receiving, p: Packet)
    requires Valid(r.builder) && Quiet(r.builder)
    ensures var q := r.Handle(p).0;
            if Strays(r, p) then Settled(q.builder) != Around(r) else Quiet(q.builder) && Around(q) == Around(r)
  {
    hide Valid, Quiet, Settled, Outside, DirectoryStrays, FileStrays, LinkStrays, WriteStrays;
    hide Builder.CreateDirectory, Builder.CreateFile, Builder.CreateSymlink, Builder.Write, Builder.CloseFile;
    HandleKeeps(r, p);
    DirectorySeen(r.builder, p.data);
    FileSeen(r.builder, p.data, p.fileId);
    WriteSeen(r.builder, p.data, p.fileId);
    CloseSeen(r.builder, p.fileId);
    if DecodeLink(p.data).Ok? {
      LinkSeen(r.builder, DecodeLink(p.data).value.0, DecodeLink(p.data).value.1);
    }
  }

  // No packet strays from where it is handled.
  ghost predicate Silent(r: Receiving, packets: seq<Packet>)
  {
    forall n :: 0 <= n < |packets| ==> SilentAt(r, packets, n)
  }

  ghost predicate SilentAt(r: Receiving, packets: seq<Packet>, n: nat)
    requires n < |packets|
  {
    After(r, packets[..n]).Ok? ==> !Strays(After(r, packets[..n]).value, packets[n])
  }

  lemma SilentPrefix(r: Receiving, packets: seq<Packet>, n: nat)
    requires n <= |packets|
    ensures Silent(r, packets) ==> Silent(r, packets[..n])
    ensures n + 1 == |packets| ==> (Silent(r, packets) <==> Silent(r, packets[..n]) && SilentAt(r, packets, n))
  {
    hide After, Strays;
    assert forall k :: 0 <= k < n ==> packets[..n][..k] == packets[..k] && packets[..n][k] == packets[k];
    forall k | 0 <= k < n
      ensures SilentAt(r, packets[..n], k) <==> SilentAt(r, packets, k)
    {
      assert packets[..n][..k] == packets[..k];
    }
  }

  lemma {:induction false} SilentKeeps(r: Receiving, packets: seq<Packet>)
    requires Valid(r.builder) && Quiet(r.builder) && After(r, packets).Ok? && Silent(r, packets)
    ensures var q := After(r, packets).value;
            Kept(r.builder, q.builder) && Quiet(q.builder) && Around(q) == Around(r)
  {
    if packets != [] {
      hide Silent, Strays, Receiving.Handle, Outside, Quiet, Valid;
      var n := |packets| - 1;
      SilentPrefix(r, packets, n);
      SilentKeeps(r, packets[..n]);
      HandleKeeps(After(r, packets[..n]).value, packets[n]);
      HandleSeen(After(r, packets[..n]).value, packets[n]);
    }
  }

  // The first packet that strays.
  lemma {:induction false} FirstStray(r: Receiving, packets: seq<Packet>) returns (n: nat)
    requires !Silent(r, packets)
    ensures n < |packets| && Silent(r, packets[..n]) && !SilentAt(r, packets, n)
  {
    hide SilentAt;
    var last := |packets| - 1;
    SilentPrefix(r, packets, if packets == [] then 0 else last);
    if !Silent(r, packets[..last]) {
      n := FirstStray(r, packets[..last]);
      assert packets[..last][..n] == packets[..n];
      SilentAtPrefix(r, packets, last, n);
    } else {
      n := last;
    }
  }

  lemma SilentAtPrefix(r: Receiving, packets: seq<Packet>, m: nat, n: nat)
    requires n < m <= |packets|
    ensures SilentAt(r, packets[..m], n) <==> SilentAt(r, packets, n)
  {
    assert packets[..m][..n] == packets[..n];
  }

  // After n packets everything around the staging directory is as it was, and stays so when the streams close.
  ghost predicate UntouchedAfter(r: Receiving, packets: seq<Packet>, n: nat)
    requires n <= |packets|
  {
    && After(r, packets[..n]).Ok?
    && var q := After(r, packets[..n]).value;
    Around(q) == Around(r) && Settled(q.builder) == Around(r)
  }

  lemma {:induction false} PrefixAccepted(r: Receiving, packets: seq<Packet>, n: nat)
    requires n <= |packets| && After(r, packets).Ok?
    ensures After(r, packets[..n]).Ok?
  {
    assert packets == packets[..n] + packets[n..];
    AfterConcat(r, packets[..n], packets[n..]);
  }

  // Nothing outside the staging directory changes at any point before commit - neither now nor when a buffer is
  // written out - if and only if no packet of the stream strays.
  lemma NothingVisibleBeforeCommit(r: Receiving, packets: seq<Packet>)
    requires Valid(r.builder) && Quiet(r.builder) && After(r, packets).Ok?
    ensures Silent(r, packets) <==> forall n :: 0 <= n <= |packets| ==> UntouchedAfter(r, packets, n)
  {
    hide After, Strays, Settled, Outside, Quiet, Valid;
    if Silent(r, packets) {
      forall n | 0 <= n <= |packets|
        ensures UntouchedAfter(r, packets, n)
      {
        PrefixAccepted(r, packets, n);
        SilentPrefix(r, packets, n);
        SilentKeeps(r, packets[..n]);
        QuietSettles(After(r, packets[..n]).value.builder);
      }
    } else {
      var n := FirstStray(r, packets);
      PrefixAccepted(r, packets, n);
      PrefixAccepted(r, packets, n + 1);
      SilentKeeps(r, packets[..n]);
      HandleSeen(After(r, packets[..n]).value, packets[n]);
      OneMoreAccepted(r, packets, n);
      assert !UntouchedAfter(r, packets, n + 1);
    }
  }

  lemma OneMoreAccepted(r: Receiving, packets: seq<Packet>, n: nat)
    requires n < |packets| && After(r, packets[..n + 1]).Ok?
    ensures After(r, packets[..n]).Ok?
    ensures After(r, packets[..n + 1]) == Ok(After(r, packets[..n]).value.Handle(packets[n]).0)
    ensures After(r, packets[..n]).value.Handle(packets[n]).1.None?
  {
    hide Receiving.Handle;
    assert packets[..n + 1][..n] == packets[..n];
  }

  // When a packet is refused the transfer is cleaned up. After a silent stream, the output directory is then
  // exactly what it was before the transfer if and only if the refused packet did not stray either.
  lemma RefusalRestoresOutput(r: Receiving, packets: seq<Packet>, p: Packet)
    requires Valid(r.builder) && Quiet(r.builder) && After(r, packets).Ok? && Silent(r, packets)
    ensures After(r, packets).value.Handle(p).0.builder.Cleanup().disk == Around(r)
            <==> !Strays(After(r, packets).value, p)
  {
    hide After, Strays, Outside, Quiet, Receiving.Handle, Builder.CloseAll;
    var q := After(r, packets).value;
    SilentKeeps(r, packets);
    HandleKeeps(q, p);
    HandleSeen(q, p);
    CleanupSettles(q.Handle(p).0.builder);
    if !Strays(q, p) {
      QuietSettles(q.Handle(p).0.builder);
    }
  }

  lemma CleanupSettles(b: Builder)
    requires b.Ready()
    ensures b.Cleanup().disk == Settled(b)
  {
    ClosingKeeps(b);
  }

  // Streams without paths through links

  // Where a CREATE_FILE packet puts its file, and a CREATE_DIRECTORY packet its directory.
  function FileTarget(p: Packet): Path
  {
    Resolve(Parts(p.data))
  }

  // The paths under which links were created.
  function LinkPaths(packets: seq<Packet>): set<Path>
  {
    if packets == [] then {}
    else
      var before, last := LinkPaths(packets[..|packets| - 1]), packets[|packets| - 1];
      if last.kind == CREATE_SYMLINK && DecodeLink(last.data).Ok? then
        before + {Resolve(Parts(DecodeLink(last.data).value.0))}
      else before
  }

  // What a CREATE packet passes through: its path, or for a link the directory it goes to.
  function Way(p: Packet): Path
  {
    if p.kind == CREATE_SYMLINK && DecodeLink(p.data).Ok? then
      var parts := Parts(DecodeLink(p.data).value.0);
      Resolve(parts[..|parts| - 1])
    else FileTarget(p)
  }

  // No path passes through, and none ends at, a link created earlier.
  ghost predicate Plain(packets: seq<Packet>, p: Packet)
  {
    p.kind == CREATE_DIRECTORY || p.kind == CREATE_FILE || p.kind == CREATE_SYMLINK ==>
      forall link :: link in LinkPaths(packets) ==> !(link <= Way(p))
  }

  ghost predicate LinkFree(packets: seq<Packet>)
  {
    packets == [] ||
    (LinkFree(packets[..|packets| - 1]) && Plain(packets[..|packets| - 1], packets[|packets| - 1]))
  }

  // Every link inside was named by a packet, and streams write inside.
  ghost predicate Homely(b: Builder, packets: seq<Packet>)
  {
    && (forall q :: q in b.disk && Inside(b.Stage(), q) && b.disk[q].Link? ==> q[|b.Stage()|..] in LinkPaths(packets))
    && forall id :: id in b.open ==> Inside(b.Stage(), b.open[id].path)
  }

  // A plain path leads where it says.
  lemma PlainWay(b: Builder, packets: seq<Packet>, way: Path)
    requires Valid(b) && Homely(b, packets)
    requires forall link :: link in LinkPaths(packets) ==> !(link <= way)
    ensures PlainTo(b.disk, [], b.Staging(way))
    ensures b.Mkdirs(way).Ok? ==> b.Mkdirs(way).value.place.path == b.Staging(way)
  {
    var full := b.Staging(way);
    hide Closed, LinkPaths;
    StageChain(b);
    forall i | 0 < i <= |full| && [] + full[..i] in b.disk
      ensures !b.disk[[] + full[..i]].Link?
    {
      assert [] + full[..i] == full[..i];
      if i <= |b.Stage()| {
        assert full[..i] == b.Stage()[..i];
        assert IsDir(b.disk, b.Stage()[..i]);
      } else {
        var j := i - |b.Stage()|;
        assert full[..i] == b.Stage() + way[..j];
        assert (b.Stage() + way[..j])[|b.Stage()|..] == way[..j];
        assert way[..j] <= way;
      }
    }
    PlainMkdirs(b.disk, [], full, MAX_LINKS);
    assert [] + full == full;
  }

  lemma StageChain(b: Builder)
    requires Valid(b)
    ensures DirChain(b.disk, b.Stage())
  {
    ClosedChain(b.disk, b.Stage());
  }

  lemma StagingIsInside(b: Builder, p: Path)
    ensures Inside(b.Stage(), b.Staging(p)) && b.Staging(p)[|b.Stage()|..] == p
  {
  }

  lemma OneMorePath(packets: seq<Packet>, p: Packet)
    ensures LinkPaths(packets + [p]) ==
            if p.kind == CREATE_SYMLINK && DecodeLink(p.data).Ok? then
              LinkPaths(packets) + {Resolve(Parts(DecodeLink(p.data).value.0))}
            else LinkPaths(packets)
    ensures LinkFree(packets + [p]) <==> LinkFree(packets) && Plain(packets, p)
  {
    assert (packets + [p])[..|packets|] == packets;
  }

  // Adding directories adds no link.
  lemma GrownHomely(b: Builder, d: Tree, p: Path, packets: seq<Packet>)
    requires Homely(b, packets) && Grown(b.disk, d, p)
    ensures Homely(b.(disk := d), packets)
  {
  }

  lemma DirectoryStays(b: Builder, packets: seq<Packet>, text: Bytes)
    requires Valid(b) && Homely(b, packets)
    requires forall link :: link in LinkPaths(packets) ==> !(link <= Resolve(Parts(text)))
    ensures !DirectoryStrays(b, text) && Homely(b.CreateDirectory(text).0, packets)
  {
    hide Homely, LinkPaths, PlainTo;
    var way := Resolve(Parts(text));
    PlainWay(b, packets, way);
    if ValidText(text) && b.Mkdirs(way).Ok? {
      AcceptedIsProper(text);
      MkdirsKeeps(b, way);
      StagingIsInside(b, way);
      GrownHomely(b, b.Mkdirs(way).value.tree, b.Mkdirs(way).value.place.path, packets);
    }
  }

  // Where a plain CREATE_FILE leads: to the entry it names, which is no link.
  lemma FileLeadsHome(b: Builder, packets: seq<Packet>, text: Bytes)
    requires Valid(b) && Homely(b, packets) && ValidText(text)
    requires forall link :: link in LinkPaths(packets) ==> !(link <= Resolve(Parts(text)))
    requires var parts := Parts(text); b.Mkdirs(Resolve(parts[..|parts| - 1])).Ok?
    ensures var parts := Parts(text);
            var m := b.Mkdirs(Resolve(parts[..|parts| - 1])).value;
            var way := Follow(m.tree, m.place.path, [parts[|parts| - 1]], m.place.links);
            && m.place.path == b.Staging(Resolve(parts[..|parts| - 1]))
            && way.Ok?
            && (IsDir(m.tree, way.value.path) || way.value.path == b.Staging(Resolve(parts)))
            && (parts[|parts| - 1] == DOT ==> IsDir(m.tree, way.value.path))
  {
    hide Homely, LinkPaths, Closed;
    var parts := Parts(text);
    var parent, last := Resolve(parts[..|parts| - 1]), parts[|parts| - 1];
    AcceptedIsProper(text);
    assert forall link :: link in LinkPaths(packets) && link <= parent ==> link <= Resolve(parts);
    PlainWay(b, packets, parent);
    PlainWay(b, packets, Resolve(parts));
    MkdirsKeeps(b, parent);
    var m := b.Mkdirs(parent).value;
    if last != DOT {
      var full := b.Staging(Resolve(parts));
      assert m.place.path + [last] == full;
      assert [] + full[..|full|] == full;
      assert full in b.disk ==> !b.disk[full].Link?;
      FollowOne(m.tree, m.place.path, last, m.place.links);
    } else {
      FollowDot(m.tree, m.place.path, m.place.links);
    }
  }

  lemma FollowOne(d: Tree, dir: Path, name: Name, links: nat)
    requires ProperName(name) && (dir + [name] in d ==> !d[dir + [name]].Link?)
    ensures Follow(d, dir, [name], links) == Ok(Place(dir + [name], links))
  {
    assert Follow(d, dir + [name], [], links) == Ok(Place(dir + [name], links));
  }

  lemma FollowDot(d: Tree, dir: Path, links: nat)
    ensures Follow(d, dir, [DOT], links) == Ok(Place(dir, links))
  {
    assert Follow(d, dir, [], links) == Ok(Place(dir, links));
  }

  lemma FileStays(b: Builder, packets: seq<Packet>, text: Bytes, id: nat)
    requires Valid(b) && Homely(b, packets)
    requires forall link :: link in LinkPaths(packets) ==> !(link <= Resolve(Parts(text)))
    ensures !FileStrays(b, text) && Homely(b.CreateFile(text, id).0, packets)
  {
    hide LinkPaths, Closed, PlainTo, Homely, Builder.OpenForWriting, ValidText;
    var parts := Parts(text);
    var parent := Resolve(parts[..|parts| - 1]);
    if ValidText(text) && b.Mkdirs(parent).Ok? {
      AcceptedIsProper(text);
      MkdirsKeeps(b, parent);
      FileLeadsHome(b, packets, text);
      StagingIsInside(b, parent);
      StagingIsInside(b, Resolve(parts));
      var m := b.Mkdirs(parent).value;
      GrownHomely(b, m.tree, m.place.path, packets);
      OpenHomely(b, packets, m, parts[|parts| - 1], id);
    }
  }

  lemma OpenHomely(b: Builder, packets: seq<Packet>, m: Made, name: Name, id: nat)
    requires Homely(b.(disk := m.tree), packets)
    requires var way := Follow(m.tree, m.place.path, [name], m.place.links);
             way.Ok? && (IsDir(m.tree, way.value.path) || Inside(b.Stage(), way.value.path))
    ensures Homely(b.OpenForWriting(m, name, id).0, packets)
  {
    hide LinkPaths, Follow;
    var p := Follow(m.tree, m.place.path, [name], m.place.links).value.path;
    if !IsDir(m.tree, p) {
      var a := b.(disk := m.tree[p := File([])]);
      assert Homely(a, packets);
      FlushHomely(a, packets, id);
    }
  }

  lemma FlushHomely(b: Builder, packets: seq<Packet>, id: nat)
    requires Homely(b, packets)
    ensures Homely(b.FlushFile(id), packets)
  {
    hide LinkPaths, WriteOut;
    if id in b.open {
      WriteOutShape(b.disk, b.open[id], b.open[id].pending);
    }
  }

  // A link placed under a path the packets name.
  lemma PlacedHomely(b: Builder, m: Made, name: Name, target: Bytes, packets: seq<Packet>, more: seq<Packet>)
    requires Homely(b.(disk := m.tree), packets) && LinkPaths(packets) <= LinkPaths(more)
    requires var entry := m.place.path + [name];
             Inside(b.Stage(), entry) && (name != DOT ==> entry[|b.Stage()|..] in LinkPaths(more))
    ensures !LinksOutside(b, m, name, target)
    ensures Homely(b.PlaceLink(m, name, target).0, more)
  {
    hide LinkPaths;
  }

  lemma LinkGoesHome(b: Builder, packets: seq<Packet>, text: Bytes)
    requires Valid(b) && Homely(b, packets) && ValidText(text)
    requires var parts := Parts(text);
             && b.Mkdirs(Resolve(parts[..|parts| - 1])).Ok?
             && forall link :: link in LinkPaths(packets) ==> !(link <= Resolve(parts[..|parts| - 1]))
    ensures var parts := Parts(text);
            var parent, last := Resolve(parts[..|parts| - 1]), parts[|parts| - 1];
            var m := b.Mkdirs(parent).value;
            && !MakesOutside(b, parent) && Homely(b.(disk := m.tree), packets)
            && Inside(b.Stage(), m.place.path + [last])
            && (last != DOT ==> (m.place.path + [last])[|b.Stage()|..] == Resolve(parts))
  {
    hide LinkPaths, Closed, PlainTo, Homely, Valid, Proper, Grown, Parts, FileTree.Mkdirs, Builder.Mkdirs, Inside;
    var parts := Parts(text);
    var parent, last := Resolve(parts[..|parts| - 1]), parts[|parts| - 1];
    assert last != DOT ==> Resolve(parts) == parent + [last];
    hide Resolve, ValidText;
    PlainWay(b, packets, parent);
    AcceptedIsProper(text);
    MkdirsKeeps(b, parent);
    GrownHomely(b, b.Mkdirs(parent).value.tree, b.Mkdirs(parent).value.place.path, packets);
    StagingIsInside(b, parent);
    StagingIsInside(b, parent + [last]);
    assert b.Staging(parent) + [last] == b.Staging(parent + [last]);
  }

  lemma LinkStays(b: Builder, packets: seq<Packet>, p: Packet)
    requires Valid(b) && Homely(b, packets) && p.kind == CREATE_SYMLINK && DecodeLink(p.data).Ok? && Plain(packets, p)
    ensures var link := DecodeLink(p.data).value;
            && !LinkStrays(b, link.0, link.1)
            && (b.CreateSymlink(link.0, link.1).1.None? ==>
                  Homely(b.CreateSymlink(link.0, link.1).0, packets + [p]))
  {
    hide LinkPaths, Closed, ValidText, DecodeLink, Homely, Builder.PlaceLink, LinksOutside, MakesOutside;
    OneMorePath(packets, p);
    var link := DecodeLink(p.data).value;
    var parts := Parts(link.0);
    var parent, last := Resolve(parts[..|parts| - 1]), parts[|parts| - 1];
    if ValidText(link.0) {
      if b.Mkdirs(parent).Ok? {
        LinkGoesHome(b, packets, link.0);
        PlacedHomely(b, b.Mkdirs(parent).value, last, link.1, packets, packets + [p]);
      } else {
        NothingMade(b, parent);
      }
    }
  }

  lemma NothingMade(b: Builder, p: Path)
    requires b.Mkdirs(p).Err?
    ensures !MakesOutside(b, p)
  {
  }

  lemma WriteStays(b: Builder, packets: seq<Packet>, data: Bytes, id: nat)
    requires Homely(b, packets)
    ensures !WriteStrays(b, data, id) && Homely(b.Write(data, id).0, packets) && Homely(b.CloseFile(id).0, packets)
  {
    hide LinkPaths, WriteOut;
    FlushHomely(b, packets, id);
    if id in b.open {
      var f := b.open[id];
      var all := f.pending + data;
      WriteOutShape(b.disk, f, all[..Min(b.runtime.spill(f.pending, data), |all|)]);
    }
  }

  lemma PlainStays(r: Receiving, packets: seq<Packet>, p: Packet)
    requires Valid(r.builder) && Homely(r.builder, packets) && Plain(packets, p)
    ensures !Strays(r, p)
    ensures r.Handle(p).1.None? ==> Homely(r.Handle(p).0.builder, packets + [p])
  {
    hide LinkPaths, Valid, DirectoryStrays, FileStrays, LinkStrays, WriteStrays, LinkFree;
    hide Builder.CreateDirectory, Builder.CreateFile, Builder.CreateSymlink, Builder.Write, Builder.CloseFile;
    OneMorePath(packets, p);
    if p.kind == CREATE_DIRECTORY {
      DirectoryStays(r.builder, packets, p.data);
    } else if p.kind == CREATE_FILE {
      FileStays(r.builder, packets, p.data, p.fileId);
    } else if p.kind == CREATE_SYMLINK {
      if DecodeLink(p.data).Ok? {
        LinkStays(r.builder, packets, p);
      }
    } else {
      WriteStays(r.builder, packets, p.data, p.fileId);
    }
  }

  lemma {:induction false} LinkFreePrefix(packets: seq<Packet>, n: nat)
    requires LinkFree(packets) && n < |packets|
    ensures LinkFree(packets[..n]) && Plain(packets[..n], packets[n])
  {
    hide Plain;
    var last := |packets| - 1;
    if n < last {
      LinkFreePrefix(packets[..last], n);
      assert packets[..last][..n] == packets[..n];
    }
  }

  lemma KeptAsIs(b: Builder)
    requires Valid(b)
    ensures Kept(b, b)
  {
  }

  lemma {:induction false} LinkFreeStays(r: Receiving, packets: seq<Packet>)
    requires Valid(r.builder) && Homely(r.builder, []) && After(r, packets).Ok? && LinkFree(packets)
    ensures Kept(r.builder, After(r, packets).value.builder) && Homely(After(r, packets).value.builder, packets)
  {
    hide After, Valid, Homely, LinkPaths, Strays, Receiving.Handle, Plain, LinkFree;
    if packets == [] {
      AfterNone(r);
      KeptAsIs(r.builder);
    } else {
      var n := |packets| - 1;
      assert packets[..n + 1] == packets == packets[..n] + [packets[n]];
      PrefixAccepted(r, packets, n);
      OneMoreAccepted(r, packets, n);
      LinkFreePrefix(packets, n);
      LinkFreeStays(r, packets[..n]);
      PlainStays(After(r, packets[..n]).value, packets[..n], packets[n]);
      HandleKeeps(After(r, packets[..n]).value, packets[n]);
    }
  }

  // A condition on the packets alone: if no path passes through or ends at a link created earlier in the stream,
  // then nothing in the stream strays.
  lemma LinkFreeIsSilent(r: Receiving, packets: seq<Packet>)
    requires Valid(r.builder) && Homely(r.builder, []) && After(r, packets).Ok? && LinkFree(packets)
    ensures Silent(r, packets)
  {
    hide After, Valid, Homely, Strays, LinkFree, Plain;
    forall n | 0 <= n < |packets|
      ensures SilentAt(r, packets, n)
    {
      PrefixAccepted(r, packets, n);
      LinkFreePrefix(packets, n);
      LinkFreeStays(r, packets[..n]);
      PlainStays(After(r, packets[..n]).value, packets[..n], packets[n]);
    }
  }

  // Whole transfers

  // No packet handled up to the end or the failure of the transfer strays.
  ghost predicate SilentTransfer(r: Receiving, chunks: seq<Bytes>)
    decreases |chunks|
  {
    r.ended || chunks == [] || Parse(chunks[0]).Err? ||
    (var p := Parse(chunks[0]).value;
     && !Strays(r, p)
     && (r.Handle(p).1.None? ==> SilentTransfer(r.Handle(p).0, chunks[1..])))
  }

  // If the stream breaks off after n chunks, the failed transfer leaves everything as it was.
  ghost predicate RestoredAfter(r: Receiving, chunks: seq<Bytes>, n: nat)
    requires n <= |chunks|
  {
    Transfer(r, chunks[..n]).1.Some? ==> Transfer(r, chunks[..n]).0.builder.disk == Around(r)
  }

  lemma {:induction false} SilentIsRestored(r: Receiving, chunks: seq<Bytes>)
    requires Valid(r.builder) && Quiet(r.builder) && SilentTransfer(r, chunks)
    ensures Transfer(r, chunks).1.Some? ==> Transfer(r, chunks).0.builder.disk == Around(r)
    ensures Transfer(r, chunks).1.None? ==>
              Kept(r.builder, Transfer(r, chunks).0.builder) && Around(Transfer(r, chunks).0) == Around(r)
    decreases |chunks|
  {
    hide Valid, Quiet, Outside, Strays, Receiving.Handle;
    BuilderReady(r.builder);
    CleanupSettles(r.builder);
    QuietSettles(r.builder);
    if !r.ended && chunks != [] && Parse(chunks[0]).Ok? {
      var p := Parse(chunks[0]).value;
      var q := r.Handle(p).0;
      HandleKeeps(r, p);
      HandleSeen(r, p);
      BuilderReady(q.builder);
      CleanupSettles(q.builder);
      QuietSettles(q.builder);
      if r.Handle(p).1.None? {
        SilentIsRestored(q, chunks[1..]);
      }
    }
  }

  lemma BuilderReady(b: Builder)
    requires Valid(b)
    ensures b.Ready()
  {
  }

  lemma {:induction false} SilentShorter(r: Receiving, chunks: seq<Bytes>, n: nat)
    requires n <= |chunks| && SilentTransfer(r, chunks)
    ensures SilentTransfer(r, chunks[..n])
    decreases |chunks|
  {
    hide Strays, Receiving.Handle, Parse;
    if n > 0 && !r.ended && Parse(chunks[0]).Ok? && r.Handle(Parse(chunks[0]).value).1.None? {
      SilentShorter(r.Handle(Parse(chunks[0]).value).0, chunks[1..], n - 1);
      assert chunks[..n][1..] == chunks[1..][..n - 1];
    }
  }

  // Where a transfer that is not silent can break off and leave a trace.
  lemma {:induction false} StrayLeavesTrace(r: Receiving, chunks: seq<Bytes>) returns (n: nat)
    requires Valid(r.builder) && Quiet(r.builder) && !SilentTransfer(r, chunks)
    ensures n <= |chunks| && Transfer(r, chunks[..n]).1.Some?
    ensures Transfer(r, chunks[..n]).0.builder.disk != Around(r)
    decreases |chunks|
  {
    hide Valid, Quiet, Outside, Strays, Receiving.Handle, Parse;
    var p := Parse(chunks[0]).value;
    var q := r.Handle(p).0;
    HandleKeeps(r, p);
    HandleSeen(r, p);
    if Strays(r, p) {
      n := 1;
      assert chunks[..1][1..] == [];
      BuilderReady(q.builder);
      CleanupSettles(q.builder);
      StrayIsNotEnd(r, p);
    } else {
      var m := StrayLeavesTrace(q, chunks[1..]);
      n := m + 1;
      assert chunks[..n][1..] == chunks[1..][..m];
    }
  }

  lemma StrayIsNotEnd(r: Receiving, p: Packet)
    requires Strays(r, p)
    ensures r.Handle(p).0.ended == r.ended
  {
    hide DirectoryStrays, FileStrays, LinkStrays, WriteStrays;
  }

  // A transfer leaves everything outside the staging directory as it was, wherever the stream breaks off or a
  // packet is refused, if and only if none of its packets strays.
  lemma FailureRestoresIff(r: Receiving, chunks: seq<Bytes>)
    requires Valid(r.builder) && Quiet(r.builder)
    ensures SilentTransfer(r, chunks) <==> forall n :: 0 <= n <= |chunks| ==> RestoredAfter(r, chunks, n)
  {
    hide SilentTransfer, Transfer, Outside, Valid, Quiet;
    if SilentTransfer(r, chunks) {
      forall n | 0 <= n <= |chunks|
        ensures RestoredAfter(r, chunks, n)
      {
        SilentShorter(r, chunks, n);
        SilentIsRestored(r, chunks[..n]);
      }
    } else {
      var n := StrayLeavesTrace(r, chunks);
      assert !RestoredAfter(r, chunks, n);
    }
  }

  lemma CarryRest(chunks: seq<Bytes>, packets: seq<Packet>)
    requires Carry(chunks, packets) && chunks != []
    ensures packets != [] && Parse(chunks[0]) == Ok(packets[0]) && Carry(chunks[1..], packets[1..])
  {
  }

  lemma SilentFirst(r: Receiving, chunks: seq<Bytes>, p: Packet)
    requires chunks != [] && Parse(chunks[0]) == Ok(p) && !Strays(r, p)
    requires r.Handle(p).1.None? ==> SilentTransfer(r.Handle(p).0, chunks[1..])
    ensures SilentTransfer(r, chunks)
  {
    hide Strays, Receiving.Handle, Parse;
  }

  lemma SilentAtEnd(r: Receiving)
    ensures SilentTransfer(r, [])
  {
  }

  // Whether accepted or refused, no packet of a stream without paths through links strays.
  lemma {:induction false} LinkFreeTransfer(r: Receiving, before: seq<Packet>, chunks: seq<Bytes>,
                                            packets: seq<Packet>)
    requires Valid(r.builder) && Homely(r.builder, before) && LinkFree(before + packets) && Carry(chunks, packets)
    ensures SilentTransfer(r, chunks)
    decreases |chunks|
  {
    hide Valid, Homely, LinkFree, Plain, Strays, Receiving.Handle, Parse, LinkPaths, Carry, SilentTransfer;
    if chunks == [] {
      SilentAtEnd(r);
    } else {
      CarryRest(chunks, packets);
      var p := packets[0];
      assert (before + packets)[..|before|] == before && (before + packets)[|before|] == p;
      LinkFreePrefix(before + packets, |before|);
      PlainStays(r, before, p);
      HandleKeeps(r, p);
      if r.Handle(p).1.None? {
        assert before + [p] + packets[1..] == before + packets;
        LinkFreeTransfer(r.Handle(p).0, before + [p], chunks[1..], packets[1..]);
      }
      SilentFirst(r, chunks, p);
    }
  }

  // A stream that leaves a trace

  const A_LINK: Path := [[97]]
  const A_FILE: Path := [[97], [102]]

  // CREATE_SYMLINK "a" to "..", then CREATE_FILE "a/f".
  function ThroughLink(id: nat): seq<Packet>
  {
    [Packet(CREATE_SYMLINK, 0, 0, EncodeLink(Text(A_LINK), DOT_DOT)), Packet(CREATE_FILE, 0, id, Text(A_FILE))]
  }

  lemma TwoTexts()
    ensures ValidText(Text(A_LINK)) && Parts(Text(A_LINK)) == A_LINK && |Text(A_LINK)| == 1
    ensures ValidText(Text(A_FILE)) && Parts(Text(A_FILE)) == A_FILE
    ensures Resolve(A_LINK) == A_LINK && Resolve(A_LINK[..0]) == [] && Resolve(A_FILE[..1]) == A_LINK
    ensures Steps(DOT_DOT) == [DOT_DOT]
  {
    assert ValidName(A_LINK[0]) && ValidName(A_FILE[0]) && ValidName(A_FILE[1]);
    assert ValidPath(A_LINK) && ValidPath(A_FILE);
    TextRoundTrip(A_LINK);
    TextRoundTrip(A_FILE);
    assert A_FILE[..1] == A_LINK;
    FirstSlashIs(DOT_DOT, 2);
  }

  // Both packets are accepted, and the file appears in the output directory itself, beside the staging directory.
  lemma LinkLeadsOut(b: Builder, remaining: nat, id: nat)
    requires Valid(b) && b.open == map[] && b.Staging(A_LINK) !in b.disk && b.root + [[102]] !in b.disk
    ensures var r := Receiving(b, remaining, false);
            && After(r, ThroughLink(id)).Ok?
            && var q := After(r, ThroughLink(id)).value;
            b.root + [[102]] in Around(q) && Around(q) != Around(r)
  {
    TwoTexts();
    hide Parts, Text, Resolve, ValidText, Closed;
    var r := Receiving(b, remaining, false);
    var p0, p1 := ThroughLink(id)[0], ThroughLink(id)[1];
    DecodeEncodeLink(Text(A_LINK), DOT_DOT);
    StageChain(b);
    assert b.Staging([]) == b.Stage();
    MkdirsOnDirs(b.disk, b.Stage());
    assert A_LINK[..0] == [];
    var linked := b.(disk := b.disk[b.Staging(A_LINK) := Link(DOT_DOT)]);
    assert b.Stage() + [A_LINK[0]] == b.Staging(A_LINK);
    assert b.CreateSymlink(Text(A_LINK), DOT_DOT) == (linked, None);
    LinkOpens(linked);
    var made := Made(linked.disk, Place(b.root, MAX_LINKS - 1));
    assert linked.Mkdirs(A_LINK) == Ok(made);
    FollowOne(linked.disk, b.root, [102], MAX_LINKS - 1);
    assert b.root + [[102]] != b.Staging(A_LINK);
    AfterTwo(r, p0, p1);
    NotInStage(b);
  }

  lemma AfterTwo(r: Receiving, p0: Packet, p1: Packet)
    requires r.Handle(p0).1.None? && r.Handle(p0).0.Handle(p1).1.None?
    ensures After(r, [p0, p1]) == Ok(r.Handle(p0).0.Handle(p1).0)
  {
    assert [p0, p1] == [p0] + [p1];
    AfterOne(r, p0);
    AfterConcat(r, [p0], [p1]);
    AfterOne(r.Handle(p0).0, p1);
  }

  lemma NotInStage(b: Builder)
    requires b.staging != []
    ensures !Inside(b.Stage(), b.root + [[102]]) || b.staging == [102]
  {
    assert b.Stage()[|b.root|] == b.staging && (b.root + [[102]])[|b.root|] == [102];
  }

  // Making directories through the link ends in the output directory.
  lemma LinkOpens(b: Builder)
    requires b.Staging(A_LINK) in b.disk && b.disk[b.Staging(A_LINK)] == Link(DOT_DOT)
    requires DirChain(b.disk, b.Stage()) && Steps(DOT_DOT) == [DOT_DOT]
    ensures b.Mkdirs(A_LINK) == Ok(Made(b.disk, Place(b.root, MAX_LINKS - 1)))
  {
    forall i | 0 < i <= |b.Stage()|
      ensures IsDir(b.disk, [] + b.Stage()[..i])
    {
      assert [] + b.Stage()[..i] == b.Stage()[..i];
    }
    MkdirsPast(b.disk, [], b.Stage(), A_LINK, MAX_LINKS);
    assert [] + b.Stage() == b.Stage();
    assert b.Stage() + A_LINK == b.Staging(A_LINK);
    assert b.Stage() + [A_LINK[0]] == b.Staging(A_LINK);
    assert Parent(b.Stage()) == b.root;
    assert Follow(b.disk, b.root, [], MAX_LINKS - 1) == Ok(Place(b.root, MAX_LINKS - 1));
    assert [DOT_DOT][1..] == [];
    assert IsDir(b.disk, b.Stage()[..|b.root|]) && b.Stage()[..|b.root|] == b.root;
  }

  lemma {:induction false} MkdirsPast(d: Tree, dir: Path, first: seq<Name>, second: seq<Name>, links: nat)
    requires forall i :: 0 < i <= |first| ==> IsDir(d, dir + first[..i])
    ensures Mkdirs(d, dir, first + second, links) == Mkdirs(d, dir + first, second, links)
    decreases |first|
  {
    if first == [] {
      assert first + second == second && dir + first == dir;
    } else {
      assert dir + first[..1] == dir + [first[0]];
      forall i | 0 < i <= |first[1..]|
        ensures IsDir(d, dir + [first[0]] + first[1..][..i])
      {
        assert dir + [first[0]] + first[1..][..i] == dir + first[..i + 1];
      }
      MkdirsPast(d, dir + [first[0]], first[1..], second, links);
      assert (first + second)[1..] == first[1..] + second;
      assert dir + [first[0]] + first[1..] == dir + first;
    }
  }
}
