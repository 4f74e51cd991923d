/** A sender's stream never goes through the links it creates. */
module SenderLinks {
  import opened Basics
  import opened Ftp
  import opened Paths
  import opened FileTree
  import opened Visibility
  import opened Senders
  import opened RoundTrip

  // No link of the tree lies on the way.
  ghost predicate Clear(source: Tree, way: Path)
  {
    forall q :: q in source && source[q].Link? ==> !(q <= way)
  }

  // The packet creates what the tree has, and its way goes through no link of the tree.
  ghost predicate OfTree(source: Tree, p: Packet)
  {
    && (p.kind == CREATE_DIRECTORY || p.kind == CREATE_FILE || p.kind == CREATE_SYMLINK ==> Clear(source, Way(p)))
    && (p.kind == CREATE_SYMLINK && DecodeLink(p.data).Ok? ==>
          var q := Resolve(Parts(DecodeLink(p.data).value.0));
          q in source && source[q].Link?)
  }

  lemma {:induction false} OfTreeIsLinkFree(source: Tree, packets: seq<Packet>)
    requires AllOfTree(source, packets)
    ensures LinkFree(packets)
    ensures forall q :: q in LinkPaths(packets) ==> q in source && source[q].Link?
  {
    if packets != [] {
      hide Parts, Resolve, DecodeLink, Way;
      var before, last := packets[..|packets| - 1], packets[|packets| - 1];
      assert OfTree(source, last);
      OfTreeIsLinkFree(source, before);
    }
  }

  // What leads to a node of the tree are directories.
  lemma NodeIsClear(source: Tree, p: Path)
    requires Closed(source) && p in source
    ensures Clear(source, Parent(p)) && (!source[p].Link? ==> Clear(source, p))
    ensures Clear(source, [[]])
  {
    ClosedChain(source, Parent(p));
    forall q | q in source && q <= Parent(p)
      ensures !source[q].Link?
    {
      assert q == Parent(p)[..|q|];
    }
    forall q | q in source && q <= p
      ensures q == p || q <= Parent(p)
    {
    }
    forall q | q in source
      ensures !(q <= [[]])
    {
      assert q != [] && q[0] == q[|q| - 1] ==> ProperName(q[0]);
    }
  }

  ghost predicate AllOfTree(source: Tree, packets: seq<Packet>)
  {
    forall i :: 0 <= i < |packets| ==> OfTree(source, packets[i])
  }

  lemma OfTreeConcat(source: Tree, first: seq<Packet>, second: seq<Packet>)
    requires AllOfTree(source, first) && AllOfTree(source, second)
    ensures AllOfTree(source, first + second)
  {
    hide OfTree;
  }

  lemma NoText()
    ensures Resolve(Parts([])) == [[]]
  {
    var nothing: Name := [];
    assert Parts([]) == [nothing] && [nothing][..0] == [];
    assert Resolve([nothing]) == Resolve([nothing][..0]) + [nothing];
  }

  lemma DirectoryIsOfTree(source: Tree, p: Path, id: nat)
    requires ValidPath(p) && Clear(source, p) && Clear(source, [[]])
    ensures AllOfTree(source, EntryPackets(Entry(p, Dir), id))
  {
    hide Clear, Text, ValidText;
    TextRoundTrip(p);
    NoText();
    hide Parts, Resolve;
    assert Way(WithPayload(Packet(CREATE_DIRECTORY, 0, id, []), Text(p))) in {p, [[]]};
  }

  lemma FileIsOfTree(source: Tree, p: Path, content: Bytes, id: nat)
    requires ValidPath(p) && Clear(source, p)
    ensures AllOfTree(source, EntryPackets(Entry(p, File(content)), id))
  {
    hide Clear, Text, ValidText, Parts, Resolve, Chunks;
    TextRoundTrip(p);
    var create, chunks := Packet(CREATE_FILE, 0, id, Text(p)), Chunks(content);
    assert Way(create) == p;
    forall i | 0 <= i < |chunks|
      ensures OfTree(source, DataPackets(id, chunks)[i])
    {
      DataPacketsAre(id, chunks, i);
    }
    OfTreeConcat(source, [create], DataPackets(id, chunks));
    OfTreeConcat(source, [create] + DataPackets(id, chunks), [Packet(END_FILE, 0, id, [])]);
  }

  lemma LinkWay(p: Path, target: Bytes)
    requires ValidPath(p) && DecodeLink(EncodeLink(Text(p), target)) == Ok((Text(p), target))
    ensures Way(Packet(CREATE_SYMLINK, 0, 0, EncodeLink(Text(p), target))) == Parent(p)
  {
    ReadBack(p);
  }

  lemma LinkIsOfTree(source: Tree, p: Path, target: Bytes, id: nat)
    requires ValidPath(p) && Clear(source, Parent(p)) && p in source && source[p].Link?
    requires Sendable(Entry(p, Link(target)))
    ensures AllOfTree(source, EntryPackets(Entry(p, Link(target)), id))
  {
    hide Clear, Text, ValidText, Parts, Resolve, DecodeLink, EncodeLink, EntryPackets, Way, ValidPath;
    TextRoundTrip(p);
    LinkPacket(Entry(p, Link(target)), id);
    DecodeEncodeLink(Text(p), target);
    LinkWay(p, target);
  }

  lemma EntryIsOfTree(source: Tree, p: Path, id: nat)
    requires Transferable(source) && p in source && p != []
    ensures AllOfTree(source, EntryPackets(Entry(p, source[p]), id))
  {
    TransferableAt(source, p);
    SourceClosed(source);
    NodeIsClear(source, p);
    hide Closed, Clear, ValidPath, Transferable, EntryPackets, AllOfTree, Sendable;
    match source[p]
    case Dir => DirectoryIsOfTree(source, p, id);
    case File(content) => FileIsOfTree(source, p, content, id);
    case Link(target) => LinkIsOfTree(source, p, target, id);
  }

  lemma {:induction false} TreeIsOfTree(source: Tree, order: seq<Path>, n: nat, id: nat)
    requires Transferable(source) && OnWalk(source, order) && n <= |order|
    ensures AllFit(Walk(source, order, n)) && AllOfTree(source, TreePackets(Walk(source, order, n), id))
    decreases |order| - n
  {
    if n < |order| {
      hide EntryPackets, AllOfTree, Transferable, OnWalk, AllFit, Walk, TreePackets;
      FirstOfWalk(source, order, n, id);
      AtWalk(source, order, n);
      var e := Entry(order[n], source[order[n]]);
      EntryIsOfTree(source, order[n], id);
      TreeIsOfTree(source, order, n + 1, NextId(e, id));
      OfTreeConcat(source, EntryPackets(e, id), TreePackets(Walk(source, order, n + 1), NextId(e, id)));
    } else {
      OnlyEnd(source, order, id);
    }
  }

  lemma OnlyEnd(source: Tree, order: seq<Path>, id: nat)
    requires OnWalk(source, order)
    ensures AllFit(Walk(source, order, |order|)) && TreePackets(Walk(source, order, |order|), id) == [END_PACKET]
    ensures AllOfTree(source, [END_PACKET])
  {
  }

  // No path of a transferable tree's stream passes through or ends at a link created earlier in it.
  lemma SenderIsLinkFree(source: Tree, order: seq<Path>)
    requires Transferable(source) && OnWalk(source, order)
    ensures AllFit(Walk(source, order, 0)) && LinkFree(TreePackets(Walk(source, order, 0), 0))
  {
    hide OfTree, Transferable, OnWalk, AllFit, LinkFree, Walk, TreePackets;
    TreeIsOfTree(source, order, 0, 0);
    OfTreeIsLinkFree(source, TreePackets(Walk(source, order, 0), 0));
  }
}
