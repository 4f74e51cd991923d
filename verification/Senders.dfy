/** Turning a walked tree into the packet stream of a transfer. */
module Senders {
  import opened Basics
  import opened Ftp
  import opened Paths
  import opened FileTransfers
  import opened FileTree

  // One entry a directory walk yields, with its path relative to the root of the walk.
  datatype Entry = Entry(path: Path, node: Node)

  // The packets

  // The successive reads of a file: full ones, then one shorter (possibly empty) that ends it.
  function Chunks(content: Bytes): seq<Bytes>
    decreases |content|
  {
    if |content| < PACKET_SIZE then [content]
    else [content[..PACKET_SIZE]] + Chunks(content[PACKET_SIZE..])
  }

  function DataPackets(id: nat, chunks: seq<Bytes>): (r: seq<Packet>)
    ensures |r| == |chunks|
  {
    if chunks == [] then []
    else [Packet(FILE_DATA, 0, id, chunks[0])] + DataPackets(id, chunks[1..])
  }

  function FilePackets(text: Bytes, id: nat, content: Bytes): seq<Packet>
  {
    [Packet(CREATE_FILE, 0, id, text)] + DataPackets(id, Chunks(content)) + [Packet(END_FILE, 0, id, [])]
  }

  // A link whose payload does not fit one packet stops the transfer; nothing is sent for it.
  predicate Sendable(e: Entry)
    requires e.path != []
  {
    e.node.Link? ==> 2 + |Text(e.path)| + |e.node.target| <= PACKET_SIZE
  }

  function EntryPackets(e: Entry, id: nat): seq<Packet>
    requires e.path != []
  {
    match e.node
    case Dir => [WithPayload(Packet(CREATE_DIRECTORY, 0, id, []), Text(e.path))]
    case File(content) => FilePackets(Text(e.path), id, content)
    case Link(target) =>
      if Sendable(e) then [Packet(CREATE_SYMLINK, 0, 0, EncodeLink(Text(e.path), target))] else []
  }

  function NextId(e: Entry, id: nat): nat
  {
    if e.node.Link? then id else (id + 1) % TWO32
  }

  const END_PACKET: Packet := Packet(END_TRANSFER, 0, 0, [])

  // File paths that set_payload accepts. The sender ignores a refusal: a longer directory path travels as an
  // empty one, a longer file path in a packet whose size is uninitialised memory.
  predicate FitsOnePacket(e: Entry)
  {
    e.path != [] && (e.node.File? ==> |Text(e.path)| <= PACKET_SIZE)
  }

  predicate AllFit(entries: seq<Entry>)
  {
    forall i :: 0 <= i < |entries| ==> FitsOnePacket(entries[i])
  }

  // Everything sent for the tree when no send fails; it ends early at a link that does not fit.
  function TreePackets(entries: seq<Entry>, id: nat): seq<Packet>
    requires AllFit(entries)
  {
    if entries == [] then [END_PACKET]
    else
      assert FitsOnePacket(entries[0]);
      if !Sendable(entries[0]) then []
      else EntryPackets(entries[0], id) + TreePackets(entries[1..], NextId(entries[0], id))
  }

  predicate AllSendable(entries: seq<Entry>)
    requires AllFit(entries)
  {
    forall i :: 0 <= i < |entries| ==> FitsOnePacket(entries[i]) && Sendable(entries[i])
  }

  function FileSize(n: Node): nat
  {
    if n.File? then |n.content| else 0
  }

  function TotalBytes(entries: seq<Entry>): nat
  {
    if entries == [] then 0 else FileSize(entries[0].node) + TotalBytes(entries[1..])
  }

  function Frames(packets: seq<Packet>): (r: seq<Bytes>)
    ensures |r| == |packets|
    ensures forall i :: 0 <= i < |packets| ==> r[i] == AsBytes(packets[i])
  {
    if packets == [] then [] else [AsBytes(packets[0])] + Frames(packets[1..])
  }

  lemma FramesConcat(a: seq<Packet>, b: seq<Packet>)
    ensures Frames(a + b) == Frames(a) + Frames(b)
  {
  }

  // The chunks handed to the stream for a whole transfer.
  function TransferStream(entries: seq<Entry>): seq<Bytes>
    requires AllFit(entries)
  {
    [AsBytes(Announcement(TotalBytes(entries)))] + Frames(TreePackets(entries, 0))
  }

  // Chunking

  function Concat(chunks: seq<Bytes>): Bytes
  {
    if chunks == [] then [] else chunks[0] + Concat(chunks[1..])
  }

  // For every file length n the read loop ends after n/1392 + 1 packets, all but the last full and the last
  // not, and their concatenation is the file.
  lemma {:induction false} ChunksAreTheFile(content: Bytes)
    ensures |Chunks(content)| == |content| / PACKET_SIZE + 1
    ensures forall i :: 0 <= i < |Chunks(content)| - 1 ==> |Chunks(content)[i]| == PACKET_SIZE
    ensures |Chunks(content)[|Chunks(content)| - 1]| < PACKET_SIZE
    ensures Concat(Chunks(content)) == content
    decreases |content|
  {
    if |content| >= PACKET_SIZE {
      var rest := content[PACKET_SIZE..];
      ChunksAreTheFile(rest);
      assert |content| / PACKET_SIZE == |rest| / PACKET_SIZE + 1;
      assert content == content[..PACKET_SIZE] + rest;
      assert Chunks(content)[1..] == Chunks(rest);
    } else {
      assert Concat([content]) == content + Concat([]);
    }
  }

  lemma {:induction false} DataPacketsAre(id: nat, chunks: seq<Bytes>, i: nat)
    requires i < |chunks|
    ensures DataPackets(id, chunks)[i] == Packet(FILE_DATA, 0, id, chunks[i])
  {
    if i > 0 {
      DataPacketsAre(id, chunks[1..], i - 1);
    }
  }

  // What every packet of a stream satisfies: it parses back, passes the stream's 1400-byte gate, and is not
  // empty.
  predicate Carried(p: Packet)
  {
    |p.data| <= PACKET_SIZE && p.fileId < TWO32
  }

  lemma EntryCarried(e: Entry, id: nat)
    requires FitsOnePacket(e) && id < TWO32
    ensures forall i :: 0 <= i < |EntryPackets(e, id)| ==> Carried(EntryPackets(e, id)[i])
  {
    if e.node.File? {
      var chunks := Chunks(e.node.content);
      ChunksAreTheFile(e.node.content);
      forall i | 0 <= i < |chunks|
        ensures Carried(DataPackets(id, chunks)[i])
      {
        DataPacketsAre(id, chunks, i);
      }
    }
  }

  lemma {:induction false} TreeCarried(entries: seq<Entry>, id: nat)
    requires AllFit(entries) && id < TWO32
    ensures forall i :: 0 <= i < |TreePackets(entries, id)| ==> Carried(TreePackets(entries, id)[i])
  {
    if entries != [] {
      assert FitsOnePacket(entries[0]);
      EntryCarried(entries[0], id);
      TreeCarried(entries[1..], NextId(entries[0], id));
    }
  }

  lemma StreamFitsTransport(entries: seq<Entry>, i: nat)
    requires AllFit(entries) && i < |TransferStream(entries)|
    ensures HEADER_SIZE <= |TransferStream(entries)[i]| <= CHUNK_LIMIT
  {
    TreeCarried(entries, 0);
    if i > 0 {
      assert TransferStream(entries)[i] == Frames(TreePackets(entries, 0))[i - 1];
      assert Carried(TreePackets(entries, 0)[i - 1]);
    }
  }

  // A link is sent exactly if its payload fits one packet.
  lemma LinkSentIff(path: Path, target: Bytes, id: nat)
    requires path != []
    ensures EntryPackets(Entry(path, Link(target)), id) != [] <==> |EncodeLink(Text(path), target)| <= 1392
  {
  }

  // The object

  lemma AddAllSnoc(m: Meter, sizes: seq<nat>, size: nat)
    ensures AddAll(m, sizes + [size]) == AddAll(m, sizes).Add(size)
  {
    assert (sizes + [size])[..|sizes|] == sizes;
  }

  // `sent` is every chunk the stream has accepted, `packets` the packets they frame; the stream accepts
  // `budget` more before it reports an error.
  class Sender {
    const meter: FileTransfer
    var fileIdCounter: nat
    var sent: seq<Bytes>
    ghost var packets: seq<Packet>
    var budget: nat

    // The chunks sent frame the packets, and the meter counts their file data.
    ghost predicate Valid()
      reads this, meter
    {
      sent == Frames(packets) && Metered(DataSizes(packets))
    }

    ghost predicate Metered(sizes: seq<nat>)
      reads meter
    {
      meter.State() == AddAll(Meter(meter.bytesToTransfer, 0, 0, []), sizes)
    }

    constructor (budget: nat)
      ensures Valid() && packets == [] && this.budget == budget && fresh(meter)
      ensures meter.bytesToTransfer == 0 && fileIdCounter == 0
    {
      meter := new FileTransfer();
      fileIdCounter, sent, packets, this.budget := 0, [], [], budget;
    }

    // protostream_.send
    method Send(p: Packet) returns (error: Option<Error>)
      requires Valid()
      modifies this`sent, this`packets, this`budget
      ensures sent == Frames(packets)
      ensures error.None? <==> old(budget) > 0
      ensures error.None? ==> packets == old(packets) + [p] && budget == old(budget) - 1
      ensures error.Some? ==> packets == old(packets) && budget == old(budget)
      ensures error.Some? || p.kind != FILE_DATA ==> Valid()
    {
      hide Frames, DataSizes, AddAll;
      if budget == 0 {
        return Some(StreamFailed);
      }
      budget := budget - 1;
      sent := sent + [AsBytes(p)];
      FramesConcat(packets, [p]);
      DataSizesSnoc(packets, p);
      packets := packets + [p];
      return None;
    }

    // The sizes of all regular files are added up in 64 bits and announced.
    method TransferConfirmation(entries: seq<Entry>) returns (error: Option<Error>)
      requires Valid() && packets == [] && meter.bytesToTransfer == 0
      modifies this`sent, this`packets, this`budget, meter`bytesToTransfer
      ensures Valid()
      ensures meter.bytesToTransfer == Wrap64(TotalBytes(entries))
      ensures error.None? <==> old(budget) > 0
      ensures error.None? ==> packets == [Announcement(meter.bytesToTransfer)]
    {
      hide Wrap64, Frames;
      ghost var added: nat := 0;
      for i := 0 to |entries|
        invariant Valid() && packets == [] && budget == old(budget)
        invariant added + TotalBytes(entries[i..]) == TotalBytes(entries)
        invariant meter.bytesToTransfer == Wrap64(added)
      {
        assert entries[i..][1..] == entries[i + 1..];
        var size := FileSize(entries[i].node);
        WrapSum(added, size);
        meter.bytesToTransfer := Wrap64(meter.bytesToTransfer + size);
        added := added + size;
      }
      error := Send(Announcement(meter.bytesToTransfer));
    }

    // The read loop: packets of up to 1392 bytes until one falls short. When a send fails, what was sent is
    // the part of the packets before it.
    method SendContent(content: Bytes, id: nat) returns (error: Option<Error>)
      requires Valid()
      modifies this`sent, this`packets, this`budget, meter
      ensures Valid() && meter.bytesToTransfer == old(meter.bytesToTransfer)
      ensures var all := DataPackets(id, Chunks(content));
              var n := Min(old(budget), |all|);
              && packets == old(packets) + all[..n] && budget == old(budget) - n
              && (error.None? <==> n == |all|)
    {
      hide Frames, DataPackets, Chunks, DataSizes, AddAll, Wrap64;
      ghost var all := DataPackets(id, Chunks(content));
      ghost var rest := all;
      var position := 0;
      var more := true;
      assert content[0..] == content;
      while more
        invariant Valid() && position <= |content| && meter.bytesToTransfer == old(meter.bytesToTransfer)
        invariant packets + rest == old(packets) + all
        invariant budget + |packets| == old(budget) + |old(packets)|
        invariant rest == if more then DataPackets(id, Chunks(content[position..])) else []
        decreases |content| - position, more
      {
        var left := content[position..];
        var data := if |left| < PACKET_SIZE then left else left[..PACKET_SIZE];
        FirstChunk(id, left);
        error := Send(Packet(FILE_DATA, 0, id, data));
        if error.Some? {
          SentPart(old(packets), all, packets, rest);
          return;
        }
        ghost var before := packets[..|packets| - 1];
        DataSizesSnoc(before, Packet(FILE_DATA, 0, id, data));
        AddAllSnoc(Meter(meter.bytesToTransfer, 0, 0, []), DataSizes(before), |data|);
        meter.PrintProgress(|data|);
        SendNext(old(packets) + all, before, rest);
        rest := rest[1..];
        position := position + |data|;
        assert |left| >= PACKET_SIZE ==> left[PACKET_SIZE..] == content[position..];
        more := |data| == PACKET_SIZE;
      }
      SentPart(old(packets), all, packets, rest);
      return None;
    }

    // A regular file: CREATE_FILE, its content, END_FILE.
    method SendFile(text: Bytes, content: Bytes, id: nat) returns (error: Option<Error>)
      requires Valid()
      modifies this`sent, this`packets, this`budget, meter
      ensures Valid() && meter.bytesToTransfer == old(meter.bytesToTransfer)
      ensures var all := FilePackets(text, id, content);
              var n := Min(old(budget), |all|);
              && packets == old(packets) + all[..n] && budget == old(budget) - n
              && (error.None? <==> n == |all|)
    {
      ghost var all, data := FilePackets(text, id, content), DataPackets(id, Chunks(content));
      hide Frames, DataPackets, Chunks, DataSizes, AddAll, Sender.Metered;
      error := Send(Packet(CREATE_FILE, 0, id, text));
      if error.Some? {
        return;
      }
      ghost var n := Min(budget, |data|);
      assert all[..1 + n] == [Packet(CREATE_FILE, 0, id, text)] + data[..n];
      error := SendContent(content, id);
      if error.Some? {
        return;
      }
      error := Send(Packet(END_FILE, 0, id, []));
    }

    method PathHandler(e: Entry) returns (error: Option<Error>)
      requires Valid() && FitsOnePacket(e)
      modifies this`fileIdCounter, this`sent, this`packets, this`budget, meter
      ensures Valid() && meter.bytesToTransfer == old(meter.bytesToTransfer)
      ensures var all := EntryPackets(e, old(fileIdCounter));
              var n := Min(old(budget), |all|);
              && packets == old(packets) + all[..n] && budget == old(budget) - n
              && (error.None? <==> n == |all| && Sendable(e))
      ensures Sendable(e) ==> fileIdCounter == NextId(e, old(fileIdCounter))
    {
      hide FilePackets, Frames, DataSizes, AddAll, Sender.Metered;
      var text := Text(e.path);
      match e.node
      case Link(target) =>
        if 2 + |text| + |target| > PACKET_SIZE {
          return Some(SymlinkPayloadTooLarge);
        }
        error := Send(Packet(CREATE_SYMLINK, 0, 0, EncodeLink(text, target)));
      case Dir =>
        var id := fileIdCounter;
        fileIdCounter := (fileIdCounter + 1) % TWO32;
        error := Send(WithPayload(Packet(CREATE_DIRECTORY, 0, id, []), text));
      case File(content) =>
        var id := fileIdCounter;
        fileIdCounter := (fileIdCounter + 1) % TWO32;
        error := SendFile(text, content, id);
    }

    // The whole walk, then END_TRANSFER. Whatever fails, what was sent is a prefix of the full stream; all of
    // it was sent exactly when no send failed and every link fits.
    method StartTransfer(entries: seq<Entry>) returns (error: Option<Error>)
      requires Valid() && AllFit(entries)
      modifies this`fileIdCounter, this`sent, this`packets, this`budget, meter
      ensures Valid() && meter.bytesToTransfer == old(meter.bytesToTransfer)
      ensures var all := TreePackets(entries, old(fileIdCounter));
              var n := Min(old(budget), |all|);
              && packets == old(packets) + all[..n]
              && (error.None? <==> n == |all| && AllSendable(entries))
    {
      hide Frames, EntryPackets, TreePackets, DataSizes, AddAll, Sender.Metered;
      ghost var all := TreePackets(entries, fileIdCounter);
      ghost var rest := all;
      assert entries[0..] == entries;
      for i := 0 to |entries|
        invariant Valid() && meter.bytesToTransfer == old(meter.bytesToTransfer)
        invariant packets + rest == old(packets) + all
        invariant budget + |packets| == old(budget) + |old(packets)|
        invariant rest == TreePackets(entries[i..], fileIdCounter)
        invariant forall j :: 0 <= j < i ==> Sendable(entries[j])
      {
        FirstEntry(entries, i, fileIdCounter);
        ghost var before, step := packets, EntryPackets(entries[i], fileIdCounter);
        ghost var n := Min(budget, |step|);
        error := PathHandler(entries[i]);
        SendSome(old(packets) + all, before, rest, step, n);
        if error.Some? {
          SentPart(old(packets), all, packets, rest[n..]);
          return;
        }
        rest := rest[n..];
      }
      assert entries[|entries|..] == [];
      LastEntry(fileIdCounter);
      ghost var before := packets;
      error := Send(END_PACKET);
      SendSome(old(packets) + all, before, rest, rest, Min(old(budget) + |old(packets)| - |before|, 1));
      SentPart(old(packets), all, packets, if error.None? then [] else rest);
    }
  }

  lemma LastEntry(id: nat)
    ensures TreePackets([], id) == [END_PACKET]
  {
  }

  lemma FirstEntry(entries: seq<Entry>, i: nat, id: nat)
    requires AllFit(entries) && i < |entries|
    ensures FitsOnePacket(entries[i]) && AllFit(entries[i..]) && AllFit(entries[i + 1..])
    ensures TreePackets(entries[i..], id) ==
            if Sendable(entries[i]) then
              EntryPackets(entries[i], id) + TreePackets(entries[i + 1..], NextId(entries[i], id))
            else []
    ensures !Sendable(entries[i]) ==> EntryPackets(entries[i], id) == []
  {
    assert entries[i..][0] == entries[i];
    assert entries[i..][1..] == entries[i + 1..];
  }

  // `sent` and `rest` together are all there is to send; the next n packets move over.
  lemma SendSome(whole: seq<Packet>, sent: seq<Packet>, rest: seq<Packet>, step: seq<Packet>, n: nat)
    requires sent + rest == whole && step <= rest && n <= |step|
    ensures sent + step[..n] + rest[n..] == whole
  {
  }

  lemma SendNext(whole: seq<Packet>, sent: seq<Packet>, rest: seq<Packet>)
    requires sent + rest == whole && rest != []
    ensures sent + [rest[0]] + rest[1..] == whole
  {
  }

  lemma SentPart(before: seq<Packet>, all: seq<Packet>, sent: seq<Packet>, rest: seq<Packet>)
    requires sent + rest == before + all && |before| <= |sent|
    ensures |sent| - |before| <= |all| && sent == before + all[..|sent| - |before|]
  {
    assert sent == (before + all)[..|sent|];
  }

  lemma FirstChunk(id: nat, rest: Bytes)
    ensures var data := if |rest| < PACKET_SIZE then rest else rest[..PACKET_SIZE];
            var all := DataPackets(id, Chunks(rest));
            && all != [] && all[0] == Packet(FILE_DATA, 0, id, data)
            && all[1..] == if |rest| < PACKET_SIZE then [] else DataPackets(id, Chunks(rest[PACKET_SIZE..]))
  {
    if |rest| >= PACKET_SIZE {
      assert Chunks(rest)[1..] == Chunks(rest[PACKET_SIZE..]);
    }
  }
}
