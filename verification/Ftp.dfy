/** Framing of the application protocol: an 8-byte packed header, then up to 1392 bytes of payload. */
module Ftp {
  import opened Basics

  const CONFIRM: byte := 0
  const CREATE_DIRECTORY: byte := 2
  const CREATE_FILE: byte := 3
  const FILE_DATA: byte := 4
  const END_FILE: byte := 5
  const END_TRANSFER: byte := 6
  const CREATE_SYMLINK: byte := 7

  const HEADER_SIZE: nat := 8
  const CHUNK_LIMIT: nat := 1400
  const PACKET_SIZE: nat := CHUNK_LIMIT - HEADER_SIZE

  datatype Error =
    | MalformedPacket
    | PacketTooLarge
    | MalformedSymlinkPayload
    | SymlinkPayloadTooLarge
    | UnknownPacketType
    | UnknownFileId
    | TransferSizeExceeded
    | PrematureEndTransfer
    | FileOpenFailed
    | InvalidArgument
    | NoSuchFileOrDirectory
    | FileAlreadyExists
    | NotADirectory
    | IsADirectory
    | TooManyLinks
    | StreamFailed

  // `data` is the payload the header's size field covers.
  datatype Packet = Packet(kind: byte, flags: byte, fileId: nat, data: Bytes)

  // Little-endian integers

  function Pow256(width: nat): nat
  {
    if width == 0 then 1 else 256 * Pow256(width - 1)
  }

  // The low `width` bytes of n, as memcpy of an integer of that width lays them out.
  function ToLE(n: nat, width: nat): (r: Bytes)
    ensures |r| == width
  {
    if width == 0 then [] else [n % 256] + ToLE(n / 256, width - 1)
  }

  function FromLE(b: Bytes): nat
  {
    if b == [] then 0 else b[0] + 256 * FromLE(b[1..])
  }

  lemma {:induction false} FromToLE(n: nat, width: nat)
    requires n < Pow256(width)
    ensures FromLE(ToLE(n, width)) == n
  {
    if width > 0 {
      FromToLE(n / 256, width - 1);
      assert ToLE(n, width)[1..] == ToLE(n / 256, width - 1);
    }
  }

  lemma {:induction false} ToFromLE(b: Bytes)
    ensures ToLE(FromLE(b), |b|) == b
    ensures FromLE(b) < Pow256(|b|)
  {
    if b != [] {
      ToFromLE(b[1..]);
      assert b == [b[0]] + b[1..];
    }
  }

  lemma Widths()
    ensures Pow256(2) == 65536 && Pow256(4) == TWO32 && Pow256(8) == TWO32 * TWO32
  {
    assert Pow256(1) == 256 && Pow256(2) == 65536 && Pow256(3) == 16777216 && Pow256(4) == TWO32;
    assert Pow256(5) == 256 * TWO32 && Pow256(6) == 65536 * TWO32 && Pow256(7) == 16777216 * TWO32;
  }

  // Packets

  function AsBytes(p: Packet): (r: Bytes)
    ensures |r| == HEADER_SIZE + |p.data|
  {
    [p.kind, p.flags] + ToLE(|p.data|, 2) + ToLE(p.fileId, 4) + p.data
  }

  // What a receiver reads out of a chunk; bytes past the declared size are ignored.
  function Parse(chunk: Bytes): Result<Packet, Error>
  {
    if |chunk| < HEADER_SIZE then Err(MalformedPacket)
    else
      var size := FromLE(chunk[2..4]);
      if |chunk| < HEADER_SIZE + size then Err(MalformedPacket)
      else Ok(Packet(chunk[0], chunk[1], FromLE(chunk[4..8]), chunk[8..8 + size]))
  }

  function SetPayload(p: Packet, src: Bytes): Result<Packet, Error>
  {
    if |src| > PACKET_SIZE then Err(PacketTooLarge) else Ok(p.(data := src))
  }

  // The packet a caller goes on with who ignores that set_payload refused.
  function WithPayload(p: Packet, src: Bytes): Packet
  {
    match SetPayload(p, src)
    case Ok(q) => q
    case Err(_) => p
  }

  predicate Representable(p: Packet)
  {
    |p.data| < 65536 && p.fileId < TWO32
  }

  // Framing round trip: whatever follows the packet in the chunk, parsing gives the packet back.
  lemma ParseAsBytes(p: Packet, rest: Bytes)
    requires Representable(p)
    ensures Parse(AsBytes(p) + rest) == Ok(p)
  {
    var chunk := AsBytes(p) + rest;
    Widths();
    FromToLE(|p.data|, 2);
    FromToLE(p.fileId, 4);
    assert chunk[2..4] == ToLE(|p.data|, 2);
    assert chunk[4..8] == ToLE(p.fileId, 4);
    assert chunk[8..8 + |p.data|] == p.data;
  }

  // Parsing inverts framing in the other direction too: an accepted chunk starts with the framing of
  // exactly the packet read from it, so a chunk is refused exactly when no packet's framing is a prefix of it.
  lemma AsBytesParse(chunk: Bytes, p: Packet)
    requires Parse(chunk) == Ok(p)
    ensures Representable(p) && AsBytes(p) <= chunk
  {
    Widths();
    ToFromLE(chunk[2..4]);
    ToFromLE(chunk[4..8]);
    assert AsBytes(p) == chunk[..8 + |p.data|];
  }

  lemma RefusedIffUnframed(chunk: Bytes)
    ensures Parse(chunk).Err? <==> !exists p :: Representable(p) && AsBytes(p) <= chunk
  {
    if Parse(chunk).Ok? {
      AsBytesParse(chunk, Parse(chunk).value);
    }
    forall p | Representable(p) && AsBytes(p) <= chunk
      ensures Parse(chunk).Ok?
    {
      ParseAsBytes(p, chunk[|AsBytes(p)|..]);
      assert chunk == AsBytes(p) + chunk[|AsBytes(p)|..];
    }
  }

  // The sizes of the file data among the packets.
  function DataSizes(packets: seq<Packet>): seq<nat>
  {
    if packets == [] then []
    else
      var sizes, last := DataSizes(packets[..|packets| - 1]), packets[|packets| - 1];
      if last.kind == FILE_DATA then sizes + [|last.data|] else sizes
  }

  lemma DataSizesSnoc(packets: seq<Packet>, p: Packet)
    ensures DataSizes(packets + [p]) ==
            if p.kind == FILE_DATA then DataSizes(packets) + [|p.data|] else DataSizes(packets)
  {
    assert (packets + [p])[..|packets|] == packets;
  }

  // Symlink payloads: the length of the link path, the link path, the target.

  function EncodeLink(path: Bytes, target: Bytes): (r: Bytes)
    ensures |r| == 2 + |path| + |target|
  {
    ToLE(|path|, 2) + path + target
  }

  function DecodeLink(payload: Bytes): Result<(Bytes, Bytes), Error>
  {
    if |payload| < 2 then Err(MalformedSymlinkPayload)
    else
      var n := FromLE(payload[..2]);
      if n > |payload| - 2 then Err(MalformedSymlinkPayload)
      else Ok((payload[2..2 + n], payload[2 + n..]))
  }

  lemma DecodeEncodeLink(path: Bytes, target: Bytes)
    requires |path| < 65536
    ensures DecodeLink(EncodeLink(path, target)) == Ok((path, target))
  {
    var payload := EncodeLink(path, target);
    Widths();
    FromToLE(|path|, 2);
    assert payload[..2] == ToLE(|path|, 2);
    assert payload[2..2 + |path|] == path;
    assert payload[2 + |path|..] == target;
  }

  lemma EncodeDecodeLink(payload: Bytes)
    requires DecodeLink(payload).Ok?
    ensures var (path, target) := DecodeLink(payload).value;
            EncodeLink(path, target) == payload
  {
    ToFromLE(payload[..2]);
    var (path, target) := DecodeLink(payload).value;
    assert payload == payload[..2] + path + target;
  }

  // A payload is refused exactly when it encodes no link.
  lemma LinkRefusedIff(payload: Bytes)
    ensures DecodeLink(payload).Err? <==>
            !exists path: Bytes, target: Bytes :: |path| < 65536 && EncodeLink(path, target) == payload
  {
    if DecodeLink(payload).Ok? {
      EncodeDecodeLink(payload);
      Widths();
      ToFromLE(payload[..2]);
      var (path, target) := DecodeLink(payload).value;
      assert |path| < 65536 && EncodeLink(path, target) == payload;
    }
    forall path: Bytes, target: Bytes | |path| < 65536 && EncodeLink(path, target) == payload
      ensures DecodeLink(payload).Ok?
    {
      DecodeEncodeLink(path, target);
    }
  }

  // The announced total travels as a 64-bit integer.
  function Announcement(total: nat): Packet
  {
    Packet(CONFIRM, 0, 0, ToLE(total, 8))
  }

  // What the receiver takes from the first chunk: the packet's type is not looked at.
  function ReadAnnouncement(chunk: Bytes): Result<nat, Error>
  {
    match Parse(chunk)
    case Err(e) => Err(e)
    case Ok(p) => if |p.data| < 8 then Err(MalformedPacket) else Ok(FromLE(p.data[..8]))
  }

  lemma AnnouncementRoundTrip(total: nat)
    requires total < TWO64
    ensures ReadAnnouncement(AsBytes(Announcement(total))) == Ok(total)
  {
    Widths();
    FromToLE(total, 8);
    ParseAsBytes(Announcement(total), []);
    assert AsBytes(Announcement(total)) + [] == AsBytes(Announcement(total));
    assert ToLE(total, 8)[..8] == ToLE(total, 8);
  }

  // A total is read from a chunk exactly when the chunk starts with a packet whose payload starts with that total.
  lemma AnnouncementReadIff(chunk: Bytes, total: nat)
    ensures ReadAnnouncement(chunk) == Ok(total) <==>
            total < TWO64 && exists p :: Representable(p) && AsBytes(p) <= chunk && ToLE(total, 8) <= p.data
  {
    Widths();
    if ReadAnnouncement(chunk) == Ok(total) {
      var p := Parse(chunk).value;
      AsBytesParse(chunk, p);
      ToFromLE(p.data[..8]);
      assert Representable(p) && AsBytes(p) <= chunk && ToLE(total, 8) <= p.data;
    }
    forall p | total < TWO64 && Representable(p) && AsBytes(p) <= chunk && ToLE(total, 8) <= p.data
      ensures ReadAnnouncement(chunk) == Ok(total)
    {
      ParseAsBytes(p, chunk[|AsBytes(p)|..]);
      assert chunk == AsBytes(p) + chunk[|AsBytes(p)|..];
      assert p.data[..8] == ToLE(total, 8);
      FromToLE(total, 8);
    }
  }
}
