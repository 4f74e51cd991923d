/** A tree sent, received and committed: the whole transfer undoes itself. */
module RoundTrip {
  import opened Basics
  import opened Ftp
  import opened Paths
  import opened FileTree
  import opened FileBuilders
  import opened Senders
  import opened Receivers
  import opened Straying
  import opened Visibility

  // A source tree that can be sent: names a directory walk yields, links with a target, and file paths and
  // link payloads that fit one packet.
  ghost predicate Transferable(source: Tree)
  {
    && Closed(source)
    && forall p :: p in source ==>
         && ValidPath(p) && FitsOnePacket(Entry(p, source[p])) && Sendable(Entry(p, source[p]))
         && (source[p].Link? ==> source[p].target != [])
  }

  ghost predicate OnWalk(source: Tree, order: seq<Path>)
  {
    forall i :: 0 <= i < |order| ==> order[i] in source && order[i] != []
  }

  // The entries of a walk, from the n-th on.
  ghost function Walk(source: Tree, order: seq<Path>, n: nat): (r: seq<Entry>)
    requires n <= |order| && OnWalk(source, order)
    ensures |r| == |order| - n
    ensures forall i :: 0 <= i < |r| ==> r[i] == Entry(order[n + i], source[order[n + i]])
    decreases |order| - n
  {
    if n == |order| then [] else [Entry(order[n], source[order[n]])] + Walk(source, order, n + 1)
  }

  // A directory path longer than one packet arrives empty, and is refused.
  predicate Arrives(e: Entry)
    requires e.path != []
  {
    e.node.Dir? ==> |Text(e.path)| <= PACKET_SIZE
  }

  ghost predicate AllArrive(source: Tree, order: seq<Path>, n: nat)
    requires OnWalk(source, order)
  {
    forall i :: n <= i < |order| ==> Arrives(Entry(order[i], source[order[i]]))
  }

  // A builder with no stream open, in which p can be created.
  ghost predicate Awaits(b: Builder, p: Path)
  {
    && Valid(b) && b.open == map[]
    && p != [] && b.Staging(p) !in b.disk && IsDir(b.disk, b.Staging(Parent(p)))
  }

  // The builder with a new staged node.
  function Put(b: Builder, p: Path, node: Node): Builder
  {
    b.(disk := b.disk[b.Staging(p) := node])
  }

  lemma ParentReady(b: Builder, p: Path)
    requires Awaits(b, p)
    ensures Parent(b.Staging(p)) == b.Staging(Parent(p))
    ensures b.Mkdirs(Parent(p)) == Ok(Made(b.disk, Place(b.Staging(Parent(p)), MAX_LINKS)))
    ensures b.Mkdirs(p) == Ok(Made(Put(b, p, Dir).disk, Place(b.Staging(p), MAX_LINKS)))
  {
    assert Parent(b.Staging(p)) == b.Staging(Parent(p));
    ClosedChain(b.disk, b.Staging(Parent(p)));
    MkdirsOnDirs(b.disk, b.Staging(Parent(p)));
    MkdirsLast(b.disk, b.Staging(p));
  }

  lemma ReadBack(p: Path)
    requires ValidPath(p)
    ensures ValidText(Text(p)) && Resolve(Parts(Text(p))) == p
    ensures var parts := Parts(Text(p));
            && Resolve(parts[..|parts| - 1]) == Parent(p) && ProperName(parts[|parts| - 1])
            && Parent(p) + [parts[|parts| - 1]] == p
  {
    TextRoundTrip(p);
    ResolveValid(Parent(p));
    assert ValidName(p[|p| - 1]);
  }

  // What one entry's packets do.
  lemma DirectoryArrives(b: Builder, remaining: nat, p: Path, id: nat)
    requires Awaits(b, p) && ValidPath(p)
    ensures var r := After(Receiving(b, remaining, false), EntryPackets(Entry(p, Dir), id));
            if Arrives(Entry(p, Dir)) then r == Ok(Receiving(Put(b, p, Dir), remaining, false)) else r.Err?
  {
    ReadBack(p);
    ParentReady(b, p);
    hide Parts, Resolve, Closed, FileTree.Mkdirs;
    AfterOne(Receiving(b, remaining, false), WithPayload(Packet(CREATE_DIRECTORY, 0, id, []), Text(p)));
  }

  lemma AwaitsParts(b: Builder, p: Path)
    requires Awaits(b, p)
    ensures b.open == map[] && b.Ready() && p != [] && b.Staging(p) !in b.disk
    ensures b.Staging(Parent(p)) + [p[|p| - 1]] == b.Staging(p)
  {
    hide Closed, Orderly;
    assert Parent(p) + [p[|p| - 1]] == p;
  }

  lemma LinkGoesTo(b: Builder, text: Bytes, m: Made, target: Bytes)
    requires b.Ready() && ValidText(text)
    requires var parts := Parts(text); b.Mkdirs(Resolve(parts[..|parts| - 1])) == Ok(m)
    ensures b.CreateSymlink(text, target) == b.PlaceLink(m, Parts(text)[|Parts(text)| - 1], target)
  {
  }

  lemma LinkPlaces(b: Builder, p: Path, target: Bytes)
    requires Awaits(b, p) && ValidPath(p) && target != []
    ensures b.CreateSymlink(Text(p), target) == (Put(b, p, Link(target)), None)
  {
    hide Awaits, Parts, Resolve, ValidText, Text, ValidPath, Builder.Mkdirs, Builder.CreateSymlink, Builder.Staging;
    AwaitsParts(b, p);
    ReadBack(p);
    ParentReady(b, p);
    LinkGoesTo(b, Text(p), Made(b.disk, Place(b.Staging(Parent(p)), MAX_LINKS)), target);
  }

  lemma LinkPacket(e: Entry, id: nat)
    requires e.path != [] && e.node.Link? && Sendable(e)
    ensures EntryPackets(e, id) == [Packet(CREATE_SYMLINK, 0, 0, EncodeLink(Text(e.path), e.node.target))]
    ensures |Text(e.path)| < 65536
  {
  }

  lemma LinkArrives(b: Builder, remaining: nat, p: Path, target: Bytes, id: nat)
    requires Awaits(b, p) && ValidPath(p) && target != [] && Sendable(Entry(p, Link(target)))
    ensures After(Receiving(b, remaining, false), EntryPackets(Entry(p, Link(target)), id)) ==
            Ok(Receiving(Put(b, p, Link(target)), remaining, false))
  {
    hide Awaits, DecodeLink, Builder.CreateSymlink, Put, ValidPath, Text, EncodeLink, After, EntryPackets, Sendable;
    AwaitsParts(b, p);
    LinkPacket(Entry(p, Link(target)), id);
    DecodeEncodeLink(Text(p), target);
    LinkPlaces(b, p, target);
    AfterOne(Receiving(b, remaining, false), Packet(CREATE_SYMLINK, 0, 0, EncodeLink(Text(p), target)));
  }

  // The builder while the file p is being received, its first n bytes written out and the rest in the buffer.
  function Half(b: Builder, p: Path, content: Bytes, n: nat, id: nat): Builder
    requires n <= |content|
  {
    Put(b, p, File(content[..n])).(open := map[id := OpenFile(b.Staging(p), n, content[n..])])
  }

  lemma BufferMoves(content: Bytes, data: Bytes, n: nat, k: nat)
    requires n <= |content| && k <= |content[n..] + data|
    ensures content[..n] + (content[n..] + data)[..k] == (content + data)[..n + k]
    ensures (content[n..] + data)[k..] == (content + data)[n + k..]
  {
    assert content[n..] + data == (content + data)[n..];
    assert content[..n] == (content + data)[..n];
  }

  lemma DataArrives(b: Builder, remaining: nat, p: Path, content: Bytes, n: nat, id: nat, data: Bytes)
    returns (m: nat)
    requires |data| <= remaining && n <= |content|
    ensures m <= |content + data|
    ensures Receiving(Half(b, p, content, n, id), remaining, false).Handle(Packet(FILE_DATA, 0, id, data)) ==
            (Receiving(Half(b, p, content + data, m, id), remaining - |data|, false), None)
  {
    var all, more := content[n..] + data, content + data;
    var k := Min(b.runtime.spill(content[n..], data), |all|);
    m := n + k;
    AppendAtEnd(content[..n], all[..k]);
    BufferMoves(content, data, n, k);
    hide WriteAt;
    assert b.disk[b.Staging(p) := File(content[..n])][b.Staging(p) := File(more[..m])]
        == b.disk[b.Staging(p) := File(more[..m])];
    assert map[id := OpenFile(b.Staging(p), n, content[n..])][id := OpenFile(b.Staging(p), m, more[m..])]
        == map[id := OpenFile(b.Staging(p), m, more[m..])];
  }

  lemma ChunkArrives(b: Builder, remaining: nat, p: Path, content: Bytes, n: nat, id: nat, chunks: seq<Bytes>)
    returns (m: nat)
    requires chunks != [] && |chunks[0]| <= remaining && n <= |content|
    ensures m <= |content + chunks[0]|
    ensures After(Receiving(Half(b, p, content, n, id), remaining, false), DataPackets(id, chunks)) ==
            After(Receiving(Half(b, p, content + chunks[0], m, id), remaining - |chunks[0]|, false),
                  DataPackets(id, chunks[1..]))
  {
    hide Receiving.Handle, Half, After;
    var r, packets := Receiving(Half(b, p, content, n, id), remaining, false), DataPackets(id, chunks);
    assert packets[0] == Packet(FILE_DATA, 0, id, chunks[0]) && packets[1..] == DataPackets(id, chunks[1..]);
    hide DataPackets;
    m := DataArrives(b, remaining, p, content, n, id, chunks[0]);
    AfterFirst(r, packets);
  }

  lemma {:induction false} ContentArrives(b: Builder, remaining: nat, p: Path, content: Bytes, n: nat, id: nat,
                                          chunks: seq<Bytes>) returns (m: nat)
    requires |Concat(chunks)| <= remaining && n <= |content|
    ensures m <= |content + Concat(chunks)|
    ensures After(Receiving(Half(b, p, content, n, id), remaining, false), DataPackets(id, chunks)) ==
            Ok(Receiving(Half(b, p, content + Concat(chunks), m, id), remaining - |Concat(chunks)|, false))
    decreases |chunks|
  {
    hide Receiving.Handle, Half;
    if chunks == [] {
      m := n;
      assert content + [] == content;
    } else {
      assert Concat(chunks) == chunks[0] + Concat(chunks[1..]);
      hide After, DataPackets, Concat;
      var k := ChunkArrives(b, remaining, p, content, n, id, chunks);
      m := ContentArrives(b, remaining - |chunks[0]|, p, content + chunks[0], k, id, chunks[1..]);
      assert content + chunks[0] + Concat(chunks[1..]) == content + Concat(chunks);
    }
  }

  lemma FileGoesTo(b: Builder, text: Bytes, m: Made, id: nat)
    requires b.Ready() && ValidText(text)
    requires var parts := Parts(text); b.Mkdirs(Resolve(parts[..|parts| - 1])) == Ok(m)
    ensures b.CreateFile(text, id) == b.OpenForWriting(m, Parts(text)[|Parts(text)| - 1], id)
  {
  }

  lemma FileCreates(b: Builder, p: Path, id: nat)
    requires Awaits(b, p) && ValidPath(p)
    ensures b.CreateFile(Text(p), id) ==
            (Put(b, p, File([])).(open := map[id := OpenFile(b.Staging(p), 0, [])]), None)
  {
    hide Awaits, Parts, Resolve, ValidText, Text, ValidPath, Builder.Mkdirs, Builder.CreateFile, Builder.Staging;
    AwaitsParts(b, p);
    ReadBack(p);
    ParentReady(b, p);
    FollowOne(b.disk, b.Staging(Parent(p)), p[|p| - 1], MAX_LINKS);
    hide Follow;
    FileGoesTo(b, Text(p), Made(b.disk, Place(b.Staging(Parent(p)), MAX_LINKS)), id);
    assert b.open[id := OpenFile(b.Staging(p), 0, [])] == map[id := OpenFile(b.Staging(p), 0, [])];
  }

  lemma FileOpens(b: Builder, remaining: nat, p: Path, id: nat)
    requires Awaits(b, p) && ValidPath(p)
    ensures Receiving(b, remaining, false).Handle(Packet(CREATE_FILE, 0, id, Text(p))) ==
            (Receiving(Half(b, p, [], 0, id), remaining, false), None)
  {
    hide Awaits, Builder.CreateFile, ValidPath, Text, Put;
    FileCreates(b, p, id);
    var nothing: Bytes := [];
    assert nothing[..0] == nothing && nothing[0..] == nothing;
  }

  lemma FileCloses(b: Builder, remaining: nat, p: Path, content: Bytes, n: nat, id: nat)
    requires b.open == map[] && n <= |content|
    ensures Receiving(Half(b, p, content, n, id), remaining, false).Handle(Packet(END_FILE, 0, id, [])) ==
            (Receiving(Put(b, p, File(content)), remaining, false), None)
  {
    AppendAtEnd(content[..n], content[n..]);
    assert content[..n] + content[n..] == content;
    hide WriteAt;
    var q := b.Staging(p);
    assert b.disk[q := File(content[..n])][q := File(content)] == b.disk[q := File(content)];
    assert map[id := OpenFile(q, n, content[n..])][id := OpenFile(q, n + |content[n..]|, [])] - {id} == map[];
  }

  lemma FileArrives(b: Builder, remaining: nat, p: Path, content: Bytes, id: nat)
    requires Awaits(b, p) && ValidPath(p) && |content| <= remaining
    ensures After(Receiving(b, remaining, false), EntryPackets(Entry(p, File(content)), id)) ==
            Ok(Receiving(Put(b, p, File(content)), remaining - |content|, false))
  {
    hide Receiving.Handle, Half, Put, Chunks, DataPackets, Awaits, After;
    var create, data := Packet(CREATE_FILE, 0, id, Text(p)), DataPackets(id, Chunks(content));
    var end := Packet(END_FILE, 0, id, []);
    var r, nothing: Bytes := Receiving(b, remaining, false), [];
    FileOpens(b, remaining, p, id);
    ChunksAreTheFile(content);
    var n := ContentArrives(b, remaining, p, [], 0, id, Chunks(content));
    assert nothing + content == content;
    AwaitsParts(b, p);
    FileCloses(b, remaining - |content|, p, content, n, id);
    AfterOne(r, create);
    AfterConcat(r, [create], data);
    AfterConcat(r, [create] + data, [end]);
    AfterOne(Receiving(Half(b, p, content, n, id), remaining - |content|, false), end);
  }

  lemma EntryArrives(b: Builder, remaining: nat, e: Entry, id: nat)
    requires Awaits(b, e.path) && ValidPath(e.path) && Sendable(e) && FileSize(e.node) <= remaining
    requires e.node.Link? ==> e.node.target != []
    ensures var r := After(Receiving(b, remaining, false), EntryPackets(e, id));
            if Arrives(e) then r == Ok(Receiving(Put(b, e.path, e.node), remaining - FileSize(e.node), false))
            else r.Err?
  {
    hide Awaits, After, EntryPackets, Put, ValidPath, Sendable;
    match e.node
    case Dir => DirectoryArrives(b, remaining, e.path, id);
    case File(content) => FileArrives(b, remaining, e.path, content, id);
    case Link(target) => LinkArrives(b, remaining, e.path, target, id);
  }

  // The whole tree

  // The first n entries of the walk are staged, and nothing else.
  ghost predicate Rebuilt(b: Builder, source: Tree, order: seq<Path>, n: nat)
    requires n <= |order|
  {
    Valid(b) && b.open == map[] && Staged(b.disk, b.Stage()) == Restrict(source, Done(order, n))
  }

  lemma NextAwaits(b: Builder, source: Tree, order: seq<Path>, n: nat)
    requires Closed(source) && WalkOrder(order, source) && n < |order| && Rebuilt(b, source, order, n)
    ensures Awaits(b, order[n])
  {
    hide Staged;
    var p := order[n];
    OrderIsStaged(source, order, n);
    StagedAt(b.disk, b.Stage(), p);
    if |p| > 1 {
      assert YieldedAt(order, n);
      StagedAt(b.disk, b.Stage(), Parent(p));
    } else {
      assert b.Staging(Parent(p)) == b.Stage();
    }
  }

  lemma PutValid(b: Builder, p: Path, node: Node)
    requires Awaits(b, p) && ProperName(p[|p| - 1])
    ensures Valid(Put(b, p, node)) && Put(b, p, node).open == map[]
  {
    hide Closed, Orderly;
    assert Parent(b.Staging(p)) == b.Staging(Parent(p));
    ClosedPut(b.disk, b.Staging(p), node);
    assert |b.Staging(p)| > |b.Stage()|;
  }

  lemma PutStaged(b: Builder, p: Path, node: Node)
    requires Awaits(b, p)
    ensures var r := Put(b, p, node);
            && r.Stage() == b.Stage()
            && Staged(r.disk, r.Stage()) == Staged(b.disk, b.Stage())[p := node]
            && Outside(r.disk, r.Stage()) == Outside(b.disk, b.Stage())
  {
    hide Staged, Outside, Closed, Orderly, Valid, IsDir;
    StagedPut(b.disk, b.Stage(), p, node);
    PutInside(b.disk, b.Stage(), b.Staging(p), node);
  }

  lemma NextRebuilt(b: Builder, source: Tree, order: seq<Path>, n: nat)
    requires Closed(source) && WalkOrder(order, source) && n < |order|
    requires Rebuilt(b, source, order, n) && Awaits(b, order[n]) && order[n] in source
    ensures var r := Put(b, order[n], source[order[n]]);
            Rebuilt(r, source, order, n + 1) && Outside(r.disk, r.Stage()) == Outside(b.disk, b.Stage())
  {
    var p := order[n];
    assert ProperName(p[|p| - 1]);
    hide Staged, Restrict, Outside, Awaits, Valid, Put, Closed;
    OrderIsStaged(source, order, n);
    PutValid(b, p, source[p]);
    PutStaged(b, p, source[p]);
    RestrictMore(source, Done(order, n), p);
  }

  lemma WalkIsSource(source: Tree, order: seq<Path>)
    requires Closed(source) && WalkOrder(order, source)
    ensures OnWalk(source, order)
  {
    forall i | 0 <= i < |order|
      ensures order[i] in source && order[i] != []
    {
      OrderIsStaged(source, order, i);
    }
  }

  lemma WalkFits(source: Tree, order: seq<Path>, n: nat)
    requires Transferable(source) && n <= |order|
    requires OnWalk(source, order)
    ensures AllFit(Walk(source, order, n)) && AllSendable(Walk(source, order, n))
  {
    hide Sendable, FitsOnePacket;
    var entries := Walk(source, order, n);
    forall i | 0 <= i < |entries|
      ensures FitsOnePacket(entries[i]) && Sendable(entries[i])
    {
      assert entries[i] == Entry(order[n + i], source[order[n + i]]);
    }
  }

  lemma FirstOfWalk(source: Tree, order: seq<Path>, n: nat, id: nat)
    requires Transferable(source) && n < |order|
    requires OnWalk(source, order)
    ensures AllFit(Walk(source, order, n)) && AllFit(Walk(source, order, n + 1))
    ensures var e, rest := Entry(order[n], source[order[n]]), Walk(source, order, n + 1);
            && e.path != []
            && TreePackets(Walk(source, order, n), id) == EntryPackets(e, id) + TreePackets(rest, NextId(e, id))
            && TotalBytes(Walk(source, order, n)) == FileSize(e.node) + TotalBytes(rest)
  {
    hide EntryPackets;
    WalkFits(source, order, n);
    WalkFits(source, order, n + 1);
    assert Walk(source, order, n)[1..] == Walk(source, order, n + 1);
  }

  lemma EndArrives(b: Builder)
    ensures After(Receiving(b, 0, false), [END_PACKET]) == Ok(Receiving(b, 0, true))
  {
    AfterOne(Receiving(b, 0, false), END_PACKET);
  }

  // What a builder receives from the n-th entry of the walk on.
  ghost function AfterWalk(b: Builder, source: Tree, order: seq<Path>, n: nat, id: nat): Result<Receiving, Error>
    requires n <= |order| && OnWalk(source, order)
    requires AllFit(Walk(source, order, n))
  {
    var entries := Walk(source, order, n);
    After(Receiving(b, TotalBytes(entries), false), TreePackets(entries, id))
  }

  lemma TransferableAt(source: Tree, p: Path)
    requires Transferable(source) && p in source
    ensures p != [] && ValidPath(p) && Sendable(Entry(p, source[p]))
    ensures source[p].Link? ==> source[p].target != []
  {
  }

  lemma WalkStep(b: Builder, source: Tree, order: seq<Path>, n: nat, id: nat)
    requires Transferable(source) && n < |order| && Awaits(b, order[n])
    requires OnWalk(source, order)
    ensures AllFit(Walk(source, order, n)) && AllFit(Walk(source, order, n + 1))
    ensures var e := Entry(order[n], source[order[n]]);
            if Arrives(e) then
              AfterWalk(b, source, order, n, id) ==
              AfterWalk(Put(b, e.path, e.node), source, order, n + 1, NextId(e, id))
            else AfterWalk(b, source, order, n, id).Err?
  {
    hide After, TreePackets, EntryPackets, Awaits, TotalBytes, Walk, Sendable, FitsOnePacket, AllFit, Put, Arrives;
    hide Transferable, ValidPath, Closed;
    FirstOfWalk(source, order, n, id);
    TransferableAt(source, order[n]);
    var e := Entry(order[n], source[order[n]]);
    var total := TotalBytes(Walk(source, order, n));
    EntryArrives(b, total, e, id);
    AfterConcat(Receiving(b, total, false), EntryPackets(e, id),
                TreePackets(Walk(source, order, n + 1), NextId(e, id)));
  }

  // The same output directory and staging directory, and the same around it.
  ghost predicate SameHome(b: Builder, r: Builder)
  {
    && r.root == b.root && r.staging == b.staging && r.runtime == b.runtime
    && Outside(r.disk, r.Stage()) == Outside(b.disk, b.Stage())
  }

  // From any point of the walk on, what is left of the stream is accepted to the end and completes the tree -
  // unless one of the directory paths to come is too long.
  lemma {:induction false} RestArrives(b: Builder, source: Tree, order: seq<Path>, n: nat, id: nat)
    requires Transferable(source) && WalkOrder(order, source) && n <= |order| && Rebuilt(b, source, order, n)
    requires OnWalk(source, order)
    ensures AllFit(Walk(source, order, n))
    ensures var r := AfterWalk(b, source, order, n, id);
            && (r.Ok? <==> AllArrive(source, order, n))
            && (r.Ok? ==>
                  && r.value.ended && r.value.bytesRemaining == 0
                  && SameHome(b, r.value.builder)
                  && Rebuilt(r.value.builder, source, order, |order|))
    decreases |order| - n
  {
    hide Transferable, Rebuilt, Awaits, WalkOrder, Arrives, AfterWalk, Walk, AllFit, Put, OnWalk, Closed, SameHome;
    if n == |order| {
      WalkEnds(b, source, order, id);
    } else {
      AtWalk(source, order, n);
      assert Closed(source) by {
        SourceClosed(source);
      }
      NextAwaits(b, source, order, n);
      WalkStep(b, source, order, n, id);
      NextRebuilt(b, source, order, n);
      PutHome(b, order[n], source[order[n]]);
      var e := Entry(order[n], source[order[n]]);
      assert AllArrive(source, order, n) <==> Arrives(e) && AllArrive(source, order, n + 1);
      if Arrives(e) {
        var r := Put(b, e.path, e.node);
        RestArrives(r, source, order, n + 1, NextId(e, id));
        var end := AfterWalk(r, source, order, n + 1, NextId(e, id));
        if end.Ok? {
          SameHomeThrough(b, r, end.value.builder);
        }
      }
    }
  }

  lemma AtWalk(source: Tree, order: seq<Path>, n: nat)
    requires OnWalk(source, order) && n < |order|
    ensures order[n] in source && order[n] != []
  {
  }

  lemma WalkEnds(b: Builder, source: Tree, order: seq<Path>, id: nat)
    requires OnWalk(source, order)
    ensures AllFit(Walk(source, order, |order|)) && AllArrive(source, order, |order|) && SameHome(b, b)
    ensures AfterWalk(b, source, order, |order|, id) == Ok(Receiving(b, 0, true))
  {
    hide After, Outside;
    EndArrives(b);
  }

  lemma PutHome(b: Builder, p: Path, node: Node)
    requires var r := Put(b, p, node); Outside(r.disk, r.Stage()) == Outside(b.disk, b.Stage())
    ensures SameHome(b, Put(b, p, node))
  {
    hide Outside;
  }

  lemma SameHomeThrough(b: Builder, r: Builder, c: Builder)
    requires SameHome(b, r) && SameHome(r, c)
    ensures SameHome(b, c)
  {
    hide Outside;
  }

  lemma SourceClosed(source: Tree)
    requires Transferable(source)
    ensures Closed(source)
  {
  }

  // A builder as the constructor leaves it: a fresh staging directory in the output directory.
  function Fresh(disk: Tree, root: Path, staging: Name, runtime: Runtime): Builder
  {
    Builder(disk[root + [staging] := Dir], root, staging, map[], runtime)
  }

  // An output directory in which a staging directory can be made.
  ghost predicate Ready(disk: Tree, root: Path, staging: Name, runtime: Runtime)
  {
    && Closed(disk) && IsDir(disk, root) && Orderly(runtime)
    && ProperName(staging) && root + [staging] !in disk
  }

  lemma FreshBuilder(disk: Tree, root: Path, staging: Name, runtime: Runtime)
    requires Ready(disk, root, staging, runtime)
    ensures Valid(Fresh(disk, root, staging, runtime))
  {
    var stage := root + [staging];
    assert Parent(stage) == root && stage[|stage| - 1] == staging;
    ClosedPut(disk, stage, Dir);
    hide Closed, Orderly;
  }

  lemma FreshIsHome(b: Builder, stage: Path)
    requires b.open == map[] && b.Stage() == stage
    requires forall q :: q in b.disk && Inside(stage, q) ==> b.disk[q] == Dir
    ensures Quiet(b) && Homely(b, [])
  {
    hide LinkPaths;
  }

  lemma FreshIsValid(disk: Tree, root: Path, staging: Name, runtime: Runtime)
    requires Ready(disk, root, staging, runtime)
    ensures var b := Fresh(disk, root, staging, runtime);
            && Valid(b) && Quiet(b) && Homely(b, [])
            && Outside(b.disk, b.Stage()) == disk && Staged(b.disk, b.Stage()) == map[]
  {
    var stage, b := root + [staging], Fresh(disk, root, staging, runtime);
    FreshBuilder(disk, root, staging, runtime);
    MissingIsBare(disk, stage);
    hide Closed, Staged, Outside, Bare, Valid, Quiet, Homely, Orderly, Inside;
    NothingStaged(disk, stage);
    NothingInside(disk, stage);
    FreshIsHome(b, stage);
  }

  lemma NothingInside(disk: Tree, stage: Path)
    requires Bare(disk, stage)
    ensures Outside(disk[stage := Dir], stage) == disk
    ensures forall q :: q in disk[stage := Dir] && Inside(stage, q) ==> disk[stage := Dir][q] == Dir
  {
  }

  lemma NothingStaged(disk: Tree, stage: Path)
    requires Bare(disk, stage)
    ensures Staged(disk[stage := Dir], stage) == map[]
  {
    hide Staged;
    var d := disk[stage := Dir];
    forall p
      ensures p !in Staged(d, stage)
    {
      StagedAt(d, stage, p);
      assert stage <= stage + p && (p != [] ==> stage + p != stage);
    }
  }

  // Every directory path of the source fits one packet.
  ghost predicate DirectoriesFit(source: Tree)
  {
    forall p :: p in source && p != [] ==> Arrives(Entry(p, source[p]))
  }

  lemma AllArriveIff(source: Tree, order: seq<Path>)
    requires WalkOrder(order, source) && OnWalk(source, order)
    ensures AllArrive(source, order, 0) <==> DirectoriesFit(source)
  {
    hide Arrives;
    if AllArrive(source, order, 0) {
      forall p | p in source && p != []
        ensures Arrives(Entry(p, source[p]))
      {
        var i := DoneIndex(order, |order|, p);
        assert Arrives(Entry(order[i], source[order[i]]));
      }
    }
  }

  // What the receiver makes of the sender's whole stream.
  ghost function Received(source: Tree, order: seq<Path>, b: Builder): Result<Receiving, Error>
    requires OnWalk(source, order) && AllFit(Walk(source, order, 0))
  {
    AfterWalk(b, source, order, 0, 0)
  }

  // The complete packet stream of a tree, whatever the order of the walk, is accepted through END_TRANSFER
  // exactly when every directory path fits one packet. No byte remains then, the staged tree equals the
  // source in directories, file contents and link targets, and everything outside is as it was.
  lemma StreamRebuildsTree(source: Tree, order: seq<Path>, disk: Tree, root: Path, staging: Name, runtime: Runtime)
    requires Transferable(source) && WalkOrder(order, source) && Ready(disk, root, staging, runtime)
    ensures OnWalk(source, order) && AllFit(Walk(source, order, 0))
    ensures var b := Fresh(disk, root, staging, runtime);
            var r := Received(source, order, b);
            && (r.Ok? <==> DirectoriesFit(source))
            && (r.Ok? ==>
                  && r.value.ended && r.value.bytesRemaining == 0
                  && SameHome(b, r.value.builder) && Valid(r.value.builder) && r.value.builder.open == map[]
                  && Staged(r.value.builder.disk, b.Stage()) == source
                  && Outside(r.value.builder.disk, b.Stage()) == disk)
  {
    SourceClosed(source);
    WalkIsSource(source, order);
    hide After, Walk, TotalBytes, TreePackets, Transferable, Staged, Outside, Valid;
    hide OnWalk, AllFit, DirectoriesFit, AllArrive, AfterWalk;
    AllArriveIff(source, order);
    FreshIsValid(disk, root, staging, runtime);
    assert Restrict(source, Done(order, 0)) == map[];
    RestArrives(Fresh(disk, root, staging, runtime), source, order, 0, 0);
    RestrictAll(source);
  }

  lemma NothingToClose(b: Builder)
    requires b.open == map[]
    ensures b.CloseAll() == b
  {
    FlushNothing(b, b.runtime.closingOrder(b.open.Keys));
  }

  lemma {:induction false} FlushNothing(b: Builder, order: seq<nat>)
    requires b.open == map[]
    ensures b.FlushAll(order) == b
    decreases |order|
  {
    if order != [] {
      FlushNothing(b, order[1..]);
    }
  }

  // The whole transfer: once the stream of a tree has been received, commit - over whatever walk of the staged
  // tree it makes - succeeds exactly when the source fits the output directory, and then the file system is its
  // old self with the source laid over the output directory.
  lemma TransferIsOverlay(source: Tree, order: seq<Path>, disk: Tree, root: Path, staging: Name, runtime: Runtime,
                          commitOrder: seq<Path>)
    requires Transferable(source) && WalkOrder(order, source) && WalkOrder(commitOrder, source)
    requires Ready(disk, root, staging, runtime) && NoCollision(staging, source)
    ensures OnWalk(source, order) && AllFit(Walk(source, order, 0))
    ensures var b := Fresh(disk, root, staging, runtime);
            Received(source, order, b).Ok? ==>
              var closed := Received(source, order, b).value.builder.CloseAll();
              var committed := CommitAll(closed.disk, root, b.Stage(), commitOrder);
              && (committed.Ok? <==> Compatible(disk, root, source))
              && (committed.Ok? ==> RemoveStaging(committed.value, b.Stage()) == disk + Under(root, source))
  {
    StreamRebuildsTree(source, order, disk, root, staging, runtime);
    hide Transferable, WalkOrder, NoCollision, Staged, Outside, Received, OnWalk, AllFit, Under, Closed;
    hide Builder.CloseAll;
    var b := Fresh(disk, root, staging, runtime);
    if Received(source, order, b).Ok? {
      var r := Received(source, order, b).value.builder;
      NothingToClose(r);
      RootIsDir(r);
      CommitIsOverlay(r.disk, root, staging, commitOrder);
    }
  }

  lemma RootIsDir(b: Builder)
    requires Valid(b)
    ensures Closed(b.disk) && IsDir(b.disk, b.root)
  {
    assert Parent(b.Stage()) == b.root;
  }
}
