/** The file ids a sender gives out. */
module FileIds {
  import opened Basics
  import opened Ftp
  import opened Paths
  import opened Senders

  predicate Creates(p: Packet)
  {
    p.kind == CREATE_DIRECTORY || p.kind == CREATE_FILE
  }

  // How many directories and files the packets create.
  function Created(packets: seq<Packet>): nat
  {
    if packets == [] then 0
    else Created(packets[..|packets| - 1]) + if Creates(packets[|packets| - 1]) then 1 else 0
  }

  lemma {:induction false} CreatedConcat(a: seq<Packet>, b: seq<Packet>)
    ensures Created(a + b) == Created(a) + Created(b)
  {
    if b == [] {
      assert a + b == a;
    } else {
      CreatedConcat(a, b[..|b| - 1]);
      assert (a + b)[..|a + b| - 1] == a + b[..|b| - 1];
    }
  }

  // The counter's width.
  function Wrap32(n: nat): nat
  {
    n % TWO32
  }

  // Each CREATE packet carries the number of CREATE packets before it, counted from id in 32 bits.
  ghost predicate NumberedFrom(packets: seq<Packet>, id: nat)
  {
    forall i :: 0 <= i < |packets| ==> NumberedAt(packets, id, i)
  }

  ghost predicate NumberedAt(packets: seq<Packet>, id: nat, i: nat)
    requires i < |packets|
  {
    Creates(packets[i]) ==> packets[i].fileId == Wrap32(id + Created(packets[..i]))
  }

  lemma NumberedLeft(a: seq<Packet>, b: seq<Packet>, id: nat, i: nat)
    requires i < |a| && NumberedAt(a, id, i)
    ensures NumberedAt(a + b, id, i)
  {
    hide Created, Wrap32;
    assert (a + b)[..i] == a[..i];
  }

  lemma NumberedRight(a: seq<Packet>, b: seq<Packet>, id: nat, i: nat)
    requires i < |b| && NumberedAt(b, id + Created(a), i)
    ensures NumberedAt(a + b, id, |a| + i)
  {
    hide Created, Wrap32;
    assert (a + b)[..|a| + i] == a + b[..i] && (a + b)[|a| + i] == b[i];
    CreatedConcat(a, b[..i]);
    assert id + Created(a) + Created(b[..i]) == id + Created(a + b[..i]);
  }

  lemma NumberedConcat(a: seq<Packet>, b: seq<Packet>, id: nat)
    requires NumberedFrom(a, id) && NumberedFrom(b, id + Created(a))
    ensures NumberedFrom(a + b, id)
  {
    hide NumberedAt;
    forall i | 0 <= i < |a + b|
      ensures NumberedAt(a + b, id, i)
    {
      if i < |a| {
        NumberedLeft(a, b, id, i);
      } else {
        NumberedRight(a, b, id, i - |a|);
      }
    }
  }

  lemma {:induction false} DataCreatesNothing(id: nat, chunks: seq<Bytes>, n: nat)
    requires n <= |chunks|
    ensures Created(DataPackets(id, chunks)[..n]) == 0
    decreases n
  {
    if n > 0 {
      DataCreatesNothing(id, chunks, n - 1);
      DataPacketsAre(id, chunks, n - 1);
      assert DataPackets(id, chunks)[..n][..n - 1] == DataPackets(id, chunks)[..n - 1];
    }
  }

  lemma FileCreatesOne(text: Bytes, id: nat, content: Bytes)
    requires id < TWO32
    ensures Created(FilePackets(text, id, content)) == 1 && NumberedFrom(FilePackets(text, id, content), id)
  {
    var create, chunks := [Packet(CREATE_FILE, 0, id, text)], Chunks(content);
    var data, end := DataPackets(id, chunks), [Packet(END_FILE, 0, id, [])];
    hide DataPackets, Chunks;
    DataCreatesNothing(id, chunks, |chunks|);
    assert data[..|chunks|] == data;
    forall i | 0 <= i < |data|
      ensures !Creates(data[i])
    {
      DataPacketsAre(id, chunks, i);
    }
    OneCreated(create[0]);
    OneCreated(end[0]);
    assert create[..0] == [];
    CreatedConcat(create, data);
    CreatedConcat(create + data, end);
    NumberedConcat(create, data, id);
    NumberedConcat(create + data, end, id);
  }

  lemma OneCreated(p: Packet)
    ensures Created([p]) == if Creates(p) then 1 else 0
  {
    assert [p][..0] == [];
  }

  lemma EntryCreates(e: Entry, id: nat)
    requires FitsOnePacket(e) && id < TWO32
    ensures Created(EntryPackets(e, id)) == (if e.node.Link? then 0 else 1) && NumberedFrom(EntryPackets(e, id), id)
  {
    match e.node
    case Dir =>
      OneCreated(EntryPackets(e, id)[0]);
      assert EntryPackets(e, id)[..0] == [];
    case File(content) => FileCreatesOne(Text(e.path), id, content);
    case Link(target) =>
      if Sendable(e) {
        OneCreated(EntryPackets(e, id)[0]);
      }
  }

  lemma NumbersWrap(packets: seq<Packet>, id: nat)
    requires NumberedFrom(packets, Wrap32(id))
    ensures NumberedFrom(packets, id)
  {
    hide Created;
    forall i | 0 <= i < |packets|
      ensures NumberedAt(packets, id, i)
    {
      assert NumberedAt(packets, Wrap32(id), i);
      AddModulo(id, Created(packets[..i]));
    }
  }

  lemma AddModulo(a: nat, b: nat)
    ensures (a % TWO32 + b) % TWO32 == (a + b) % TWO32
  {
  }

  // The k-th directory or file created, counting from 0, carries the id k modulo 2^32.
  lemma {:induction false} TreeIsNumbered(entries: seq<Entry>, id: nat)
    requires AllFit(entries) && id < TWO32
    ensures NumberedFrom(TreePackets(entries, id), id)
  {
    hide EntryPackets, NumberedFrom, Sendable, Created;
    if entries == [] {
      NothingNumbered([END_PACKET], id);
    } else {
      assert FitsOnePacket(entries[0]);
      if Sendable(entries[0]) {
        var first, next := EntryPackets(entries[0], id), NextId(entries[0], id);
        EntryCreates(entries[0], id);
        TreeIsNumbered(entries[1..], next);
        NumbersWrap(TreePackets(entries[1..], next), id + Created(first));
        NumberedConcat(first, TreePackets(entries[1..], next), id);
      } else {
        NothingNumbered([], id);
      }
    }
  }

  lemma NothingNumbered(packets: seq<Packet>, id: nat)
    requires forall i :: 0 <= i < |packets| ==> !Creates(packets[i])
    ensures NumberedFrom(packets, id)
  {
  }

  // No two of the first 2^32 share an id.
  lemma IdsAreDistinct(entries: seq<Entry>, i: nat, j: nat)
    requires AllFit(entries) && Created(TreePackets(entries, 0)) <= TWO32
    requires i < j < |TreePackets(entries, 0)|
    requires Creates(TreePackets(entries, 0)[i]) && Creates(TreePackets(entries, 0)[j])
    ensures TreePackets(entries, 0)[i].fileId == Created(TreePackets(entries, 0)[..i])
    ensures TreePackets(entries, 0)[i].fileId < TreePackets(entries, 0)[j].fileId
  {
    hide TreePackets, Created, NumberedFrom, AllFit;
    TreeIsNumbered(entries, 0);
    CreateHasItsRank(TreePackets(entries, 0), i);
    CreateHasItsRank(TreePackets(entries, 0), j);
    CreatedGrows(TreePackets(entries, 0), i, j);
  }

  lemma CreateHasItsRank(packets: seq<Packet>, i: nat)
    requires NumberedFrom(packets, 0) && Created(packets) <= TWO32 && i < |packets| && Creates(packets[i])
    ensures packets[i].fileId == Created(packets[..i])
  {
    hide Created, Creates, Wrap32;
    assert NumberedAt(packets, 0, i);
    CreatedGrows(packets, i, |packets|);
    assert packets[..|packets|] == packets;
    BelowWidth(Created(packets[..i]));
  }

  lemma BelowWidth(n: nat)
    requires n < TWO32
    ensures Wrap32(0 + n) == n
  {
  }

  lemma CreatedGrows(packets: seq<Packet>, i: nat, j: nat)
    requires i < j <= |packets| && Creates(packets[i])
    ensures Created(packets[..i]) < Created(packets[..j])
  {
    hide Created;
    assert packets[..j] == packets[..i] + [packets[i]] + packets[i + 1..j];
    OneCreated(packets[i]);
    CreatedConcat(packets[..i], [packets[i]]);
    CreatedConcat(packets[..i] + [packets[i]], packets[i + 1..j]);
  }

  // The packet at j opened the file that the one at i is about, and no file was created in between.
  ghost predicate OpenedAt(packets: seq<Packet>, j: int, i: int)
    requires 0 <= j < i < |packets|
  {
    && packets[j].kind == CREATE_FILE && packets[j].fileId == packets[i].fileId
    && forall m :: j < m < i ==> packets[m].kind != CREATE_FILE
  }

  ghost predicate Owned(packets: seq<Packet>)
  {
    forall i :: 0 <= i < |packets| && (packets[i].kind == FILE_DATA || packets[i].kind == END_FILE) ==>
      exists j :: 0 <= j < i && OpenedAt(packets, j, i)
  }

  lemma OwnedConcat(a: seq<Packet>, b: seq<Packet>)
    requires Owned(a) && Owned(b)
    ensures Owned(a + b)
  {
    var all := a + b;
    forall i | 0 <= i < |all| && (all[i].kind == FILE_DATA || all[i].kind == END_FILE)
      ensures exists j :: 0 <= j < i && OpenedAt(all, j, i)
    {
      if i < |a| {
        var j :| 0 <= j < i && OpenedAt(a, j, i);
        assert OpenedAt(all, j, i);
      } else {
        assert all[i] == b[i - |a|];
        var j :| 0 <= j < i - |a| && OpenedAt(b, j, i - |a|);
        ShiftOpened(a, b, j, i - |a|);
        assert OpenedAt(all, |a| + j, i);
      }
    }
  }

  lemma ShiftOpened(a: seq<Packet>, b: seq<Packet>, j: int, i: int)
    requires 0 <= j < i < |b| && OpenedAt(b, j, i)
    ensures OpenedAt(a + b, |a| + j, |a| + i)
  {
    forall m | |a| + j < m < |a| + i
      ensures (a + b)[m].kind != CREATE_FILE
    {
      assert (a + b)[m] == b[m - |a|];
    }
  }

  lemma FileOwned(text: Bytes, id: nat, content: Bytes)
    ensures Owned(FilePackets(text, id, content))
  {
    var chunks, packets := Chunks(content), FilePackets(text, id, content);
    hide Chunks, DataPackets;
    forall m | 0 < m < |packets|
      ensures packets[m].kind != CREATE_FILE && packets[m].fileId == id
    {
      if m <= |chunks| {
        assert packets[m] == DataPackets(id, chunks)[m - 1];
        DataPacketsAre(id, chunks, m - 1);
      }
    }
    forall i | 0 <= i < |packets| && (packets[i].kind == FILE_DATA || packets[i].kind == END_FILE)
      ensures exists j :: 0 <= j < i && OpenedAt(packets, j, i)
    {
      assert i != 0 && OpenedAt(packets, 0, i);
    }
  }

  lemma EntryOwned(e: Entry, id: nat)
    requires FitsOnePacket(e)
    ensures Owned(EntryPackets(e, id))
  {
    if e.node.File? {
      FileOwned(Text(e.path), id, e.node.content);
    }
  }

  // Every FILE_DATA and END_FILE packet carries the id of the last CREATE_FILE before it.
  lemma {:induction false} DataBelongsToItsFile(entries: seq<Entry>, id: nat)
    requires AllFit(entries)
    ensures Owned(TreePackets(entries, id))
  {
    if entries != [] {
      assert FitsOnePacket(entries[0]);
      if Sendable(entries[0]) {
        hide Owned, EntryPackets;
        EntryOwned(entries[0], id);
        DataBelongsToItsFile(entries[1..], NextId(entries[0], id));
        OwnedConcat(EntryPackets(entries[0], id), TreePackets(entries[1..], NextId(entries[0], id)));
      } else {
      }
    }
  }
}
