/** Receiving a packet stream: byte budget, rebuilding the tree in staging, acceptance of END_TRANSFER. */
module Receivers {
  import opened Basics
  import opened Ftp
  import opened Paths
  import opened FileTree
  import opened FileBuilders
  import opened FileTransfers

  datatype Receiving = Receiving(builder: Builder, bytesRemaining: nat, ended: bool)
  {
    function With(outcome: (Builder, Option<Error>)): (Receiving, Option<Error>)
    {
      (this.(builder := outcome.0), outcome.1)
    }

    // handle_packet
    function Handle(p: Packet): (Receiving, Option<Error>)
    {
      if p.kind == CREATE_DIRECTORY then With(builder.CreateDirectory(p.data))
      else if p.kind == CREATE_FILE then With(builder.CreateFile(p.data, p.fileId))
      else if p.kind == CREATE_SYMLINK then (
        match DecodeLink(p.data)
        case Err(e) => (this, Some(e))
        case Ok(link) => With(builder.CreateSymlink(link.0, link.1))
      )
      else if p.kind == FILE_DATA then (
        if bytesRemaining < |p.data| then (this, Some(TransferSizeExceeded))
        else
          var (b, error) := builder.Write(p.data, p.fileId);
          if error.Some? then (this.(builder := b), error)
          else (this.(builder := b, bytesRemaining := bytesRemaining - |p.data|), None)
      )
      else if p.kind == END_FILE then With(builder.CloseFile(p.fileId))
      else if p.kind == END_TRANSFER then (
        if bytesRemaining != 0 then (this, Some(PrematureEndTransfer)) else (this.(ended := true), None)
      )
      else (this, Some(UnknownPacketType))
    }
  }

  // The state after a stream of packets, if every one was accepted.
  function After(r: Receiving, packets: seq<Packet>): Result<Receiving, Error>
  {
    if packets == [] then Ok(r)
    else
      match After(r, packets[..|packets| - 1])
      case Err(e) => Err(e)
      case Ok(q) =>
        var (q', error) := q.Handle(packets[|packets| - 1]);
        if error.Some? then Err(error.value) else Ok(q')
  }

  lemma {:induction false} AfterConcat(r: Receiving, first: seq<Packet>, second: seq<Packet>)
    ensures After(r, first + second) ==
            match After(r, first)
            case Err(e) => Err(e)
            case Ok(q) => After(q, second)
  {
    hide Receiving.Handle;
    if second == [] {
      assert first + second == first;
    } else {
      var n := |second| - 1;
      assert (first + second)[..|first + second| - 1] == first + second[..n];
      AfterConcat(r, first, second[..n]);
    }
  }

  lemma AfterNone(r: Receiving)
    ensures After(r, []) == Ok(r)
  {
  }

  lemma AfterOne(r: Receiving, p: Packet)
    ensures After(r, [p]) == var (q, error) := r.Handle(p); if error.Some? then Err(error.value) else Ok(q)
  {
    assert [p][..0] == [];
  }

  lemma HandleKeeps(r: Receiving, p: Packet)
    requires Valid(r.builder)
    ensures Kept(r.builder, r.Handle(p).0.builder)
  {
    hide Valid, Builder.CreateDirectory, Builder.CreateFile, Builder.CreateSymlink, Builder.Write, Builder.CloseFile;
    CreateDirectoryKeeps(r.builder, p.data);
    CreateFileKeeps(r.builder, p.data, p.fileId);
    WriteKeeps(r.builder, p.data, p.fileId);
    if p.kind == CREATE_SYMLINK && DecodeLink(p.data).Ok? {
      CreateSymlinkKeeps(r.builder, DecodeLink(p.data).value.0, DecodeLink(p.data).value.1);
    }
  }

  // Byte accounting

  function DataBytes(packets: seq<Packet>): nat
  {
    Sum(DataSizes(packets))
  }

  lemma DataBytesSnoc(packets: seq<Packet>, p: Packet)
    ensures DataBytes(packets + [p]) == DataBytes(packets) + if p.kind == FILE_DATA then |p.data| else 0
  {
    DataSizesSnoc(packets, p);
    assert (DataSizes(packets) + [|p.data|])[..|DataSizes(packets)|] == DataSizes(packets);
  }

  lemma HandleCounts(r: Receiving, p: Packet)
    requires r.Handle(p).1.None?
    ensures r.Handle(p).0.bytesRemaining + (if p.kind == FILE_DATA then |p.data| else 0) == r.bytesRemaining
  {
  }

  // Bytes written plus bytes remaining is the announced total at every point of an accepted stream.
  lemma {:induction false} ByteConservation(r: Receiving, packets: seq<Packet>)
    requires After(r, packets).Ok?
    ensures After(r, packets).value.bytesRemaining + DataBytes(packets) == r.bytesRemaining
  {
    if packets != [] {
      var before, p := packets[..|packets| - 1], packets[|packets| - 1];
      hide Receiving.Handle, DataBytes;
      ByteConservation(r, before);
      HandleCounts(After(r, before).value, p);
      DataBytesSnoc(before, p);
      assert packets == before + [p];
    }
  }

  // The receiver's meter has shown 100% exactly when no announced byte is missing and a hundred times the
  // total fits 64 bits.
  lemma HundredMeansNothingRemains(r: Receiving, packets: seq<Packet>)
    requires After(r, packets).Ok? && 0 < r.bytesRemaining
    ensures 100 in AddAll(Meter(r.bytesRemaining, 0, 0, []), DataSizes(packets)).printed
            <==> After(r, packets).value.bytesRemaining == 0 && r.bytesRemaining * 100 < TWO64
  {
    ByteConservation(r, packets);
    HundredIff(r.bytesRemaining, DataSizes(packets));
  }

  // END_TRANSFER is accepted exactly when the FILE_DATA sizes sum to the announced total.
  lemma EndAcceptedIff(r: Receiving, packets: seq<Packet>, end: Packet)
    requires After(r, packets).Ok? && end.kind == END_TRANSFER
    ensures After(r, packets + [end]).Ok? <==> DataBytes(packets) == r.bytesRemaining
    ensures After(r, packets + [end]).Ok? ==> After(r, packets + [end]).value.ended
  {
    ByteConservation(r, packets);
    AfterConcat(r, packets, [end]);
    AfterOne(After(r, packets).value, end);
  }

  // A whole transfer

  function HandleChunk(r: Receiving, chunk: Bytes): (Receiving, Option<Error>)
  {
    match Parse(chunk)
    case Err(e) => (r, Some(e))
    case Ok(p) => r.Handle(p)
  }

  // start_transfer up to commit: `chunks` is what the stream delivers before it fails.
  function Transfer(r: Receiving, chunks: seq<Bytes>): (Receiving, Option<Error>)
    decreases |chunks|
  {
    if r.ended then (r, None)
    else if chunks == [] then (r.(builder := r.builder.Cleanup()), Some(StreamFailed))
    else
      var (q, error) := HandleChunk(r, chunks[0]);
      if error.Some? then (q.(builder := q.builder.Cleanup()), error) else Transfer(q, chunks[1..])
  }

  // The packets the chunks carry.
  ghost predicate Carry(chunks: seq<Bytes>, packets: seq<Packet>)
  {
    |chunks| == |packets| && forall i :: 0 <= i < |chunks| ==> Parse(chunks[i]) == Ok(packets[i])
  }

  // Some first chunks carry packets that are all accepted, END_TRANSFER among them.
  ghost predicate Complete(r: Receiving, chunks: seq<Bytes>, packets: seq<Packet>)
  {
    && |packets| <= |chunks| && Carry(chunks[..|packets|], packets)
    && After(r, packets).Ok? && After(r, packets).value.ended
  }

  lemma AfterFirst(r: Receiving, packets: seq<Packet>)
    requires packets != []
    ensures After(r, packets) ==
            var (q, error) := r.Handle(packets[0]);
            if error.Some? then Err(error.value) else After(q, packets[1..])
  {
    assert packets == [packets[0]] + packets[1..];
    AfterConcat(r, [packets[0]], packets[1..]);
    AfterOne(r, packets[0]);
  }

  lemma CarryFirst(chunks: seq<Bytes>, packets: seq<Packet>)
    requires packets != [] && |packets| <= |chunks|
    ensures Carry(chunks[..|packets|], packets) <==>
            Parse(chunks[0]) == Ok(packets[0]) && Carry(chunks[1..][..|packets| - 1], packets[1..])
  {
    var n := |packets|;
    assert chunks[1..][..n - 1] == chunks[..n][1..];
    if Parse(chunks[0]) == Ok(packets[0]) && Carry(chunks[..n][1..], packets[1..]) {
      forall i | 0 <= i < n
        ensures Parse(chunks[..n][i]) == Ok(packets[i])
      {
        if i > 0 {
          assert chunks[..n][1..][i - 1] == chunks[..n][i] && packets[1..][i - 1] == packets[i];
        }
      }
    }
  }

  // When a complete stream arrives, the transfer ends.
  lemma {:induction false} CompleteSucceeds(r: Receiving, chunks: seq<Bytes>, packets: seq<Packet>)
    requires Complete(r, chunks, packets)
    ensures Transfer(r, chunks).1.None?
    decreases |chunks|
  {
    if !r.ended && packets != [] {
      AfterFirst(r, packets);
      CarryFirst(chunks, packets);
      CompleteSucceeds(r.Handle(packets[0]).0, chunks[1..], packets[1..]);
    }
  }

  // When the transfer ends, a complete stream has arrived, and the result is what its packets make of it.
  lemma {:induction false} SuccessIsComplete(r: Receiving, chunks: seq<Bytes>) returns (packets: seq<Packet>)
    requires Transfer(r, chunks).1.None?
    ensures Complete(r, chunks, packets)
    ensures After(r, packets) == Ok(Transfer(r, chunks).0)
    decreases |chunks|
  {
    if r.ended {
      packets := [];
    } else {
      var p := Parse(chunks[0]).value;
      var rest := SuccessIsComplete(r.Handle(p).0, chunks[1..]);
      packets := [p] + rest;
      assert packets[1..] == rest;
      AfterFirst(r, packets);
      CarryFirst(chunks, packets);
    }
  }

  // The transfer ends exactly when some first chunks carry a stream accepted through END_TRANSFER.
  lemma TransferSucceedsIff(r: Receiving, chunks: seq<Bytes>)
    ensures Transfer(r, chunks).1.None? <==> exists packets :: Complete(r, chunks, packets)
  {
    hide Complete;
    if Transfer(r, chunks).1.None? {
      var packets := SuccessIsComplete(r, chunks);
    }
    forall packets | Complete(r, chunks, packets)
      ensures Transfer(r, chunks).1.None?
    {
      CompleteSucceeds(r, chunks, packets);
    }
  }

  class Receiver {
    const fileBuilder: FileBuilder
    const meter: FileTransfer
    var bytesRemaining: nat
    var endTransferFlag: bool

    ghost function State(): Receiving
      reads this, fileBuilder
    {
      Receiving(fileBuilder.State(), bytesRemaining, endTransferFlag)
    }

    constructor (fileBuilder: FileBuilder, meter: FileTransfer)
      ensures this.fileBuilder == fileBuilder && this.meter == meter
      ensures State() == Receiving(fileBuilder.State(), 0, false)
    {
      this.fileBuilder, this.meter, bytesRemaining, endTransferFlag := fileBuilder, meter, 0, false;
    }

    // The first chunk announces the total.
    method TransferConfirmation(chunk: Bytes) returns (error: Option<Error>)
      modifies this`bytesRemaining, meter
      ensures match ReadAnnouncement(chunk)
              case Ok(total) =>
                && error.None? && State() == old(State()).(bytesRemaining := total)
                && meter.State() == old(meter.State()).(total := total)
              case Err(e) => error == Some(e) && State() == old(State()) && meter.State() == old(meter.State())
    {
      if |chunk| < HEADER_SIZE {
        return Some(MalformedPacket);
      }
      match Parse(chunk)
      case Err(e) => return Some(e);
      case Ok(packet) =>
        if |packet.data| < 8 {
          return Some(MalformedPacket);
        }
        meter.bytesToTransfer := FromLE(packet.data[..8]);
        bytesRemaining := meter.bytesToTransfer;
        return None;
    }

    method HandlePacket(p: Packet) returns (error: Option<Error>)
      modifies this`bytesRemaining, this`endTransferFlag, fileBuilder`disk, fileBuilder`openFiles, meter
      ensures (State(), error) == old(State()).Handle(p)
      ensures meter.State() == if p.kind == FILE_DATA && error.None? then old(meter.State()).Add(|p.data|)
                               else old(meter.State())
    {
      if p.kind == CREATE_DIRECTORY {
        error := fileBuilder.CreateDirectory(p.data);
      } else if p.kind == CREATE_FILE {
        error := fileBuilder.CreateFile(p.data, p.fileId);
      } else if p.kind == CREATE_SYMLINK {
        match DecodeLink(p.data)
        case Err(e) => return Some(e);
        case Ok(link) => error := fileBuilder.CreateSymlink(link.0, link.1);
      } else if p.kind == FILE_DATA {
        if bytesRemaining < |p.data| {
          return Some(TransferSizeExceeded);
        }
        error := fileBuilder.Write(p.data, p.fileId);
        if error.Some? {
          return;
        }
        bytesRemaining := bytesRemaining - |p.data|;
        meter.PrintProgress(|p.data|);
      } else if p.kind == END_FILE {
        error := fileBuilder.CloseFile(p.fileId);
      } else if p.kind == END_TRANSFER {
        if bytesRemaining != 0 {
          return Some(PrematureEndTransfer);
        }
        endTransferFlag := true;
        error := None;
      } else {
        error := Some(UnknownPacketType);
      }
    }

    // `chunks` is what the stream delivers before it fails, `order` the walk of the staging directory that
    // commit will see.
    method StartTransfer(chunks: seq<Bytes>, order: seq<Path>) returns (error: Option<Error>)
      modifies this`bytesRemaining, this`endTransferFlag, fileBuilder`disk, fileBuilder`openFiles, meter
      ensures var (q, failure) := Transfer(old(State()), chunks);
              if failure.Some? then error == failure && State() == q
              else if !q.builder.Ready() then error == Some(NoSuchFileOrDirectory)
              else
                var b := q.builder.CloseAll();
                match CommitAll(b.disk, b.root, b.Stage(), order)
                case Ok(d) => error.None? && fileBuilder.disk == RemoveStaging(d, b.Stage())
                case Err(e) => error == Some(e)
    {
      ghost var whole := Transfer(State(), chunks);
      var i := 0;
      assert chunks[0..] == chunks;
      while !endTransferFlag
        invariant i <= |chunks|
        invariant Transfer(State(), chunks[i..]) == whole
        decreases |chunks| - i
      {
        if i == |chunks| {
          fileBuilder.Cleanup();
          return Some(StreamFailed);
        }
        assert chunks[i..][1..] == chunks[i + 1..];
        match Parse(chunks[i]) {
          case Err(e) =>
            fileBuilder.Cleanup();
            return Some(e);
          case Ok(packet) =>
            error := HandlePacket(packet);
            if error.Some? {
              fileBuilder.Cleanup();
              return;
            }
        }
        i := i + 1;
      }
      ClosingKeeps(fileBuilder.State());
      error := fileBuilder.Commit(order);
    }
  }
}
