/** What the files of a received stream hold, whatever links its paths go through. */
module FileContents {
  import opened Basics
  import opened Ftp
  import opened Paths
  import opened FileTree
  import opened FileBuilders
  import opened Buffers
  import opened Receivers

  // The file an accepted CREATE_FILE opens, every link followed.
  function OpensAt(b: Builder, text: Bytes): Option<Path>
  {
    if !b.Ready() || !ValidText(text) then None
    else
      var parts := Parts(text);
      match b.Mkdirs(Resolve(parts[..|parts| - 1]))
      case Err(_) => None
      case Ok(m) =>
        match Follow(m.tree, m.place.path, [parts[|parts| - 1]], m.place.links)
        case Err(_) => None
        case Ok(place) => if IsDir(m.tree, place.path) then None else Some(place.path)
  }

  // What was sent for each file since it was last opened.
  type Ledger = map<Path, Bytes>

  function Record(b: Builder, sent: Ledger, p: Packet): Ledger
  {
    if p.kind == CREATE_FILE then
      match OpensAt(b, p.data)
      case None => sent
      case Some(q) => sent[q := []]
    else if p.kind == FILE_DATA && p.fileId in b.open && b.open[p.fileId].path in sent then
      var q := b.open[p.fileId].path;
      sent[q := sent[q] + p.data]
    else sent
  }

  function Sent(r: Receiving, packets: seq<Packet>): Ledger
  {
    if packets == [] then map[]
    else
      var before, last := packets[..|packets| - 1], packets[|packets| - 1];
      match After(r, before)
      case Err(_) => Sent(r, before)
      case Ok(s) => Record(s.builder, Sent(r, before), last)
  }

  // When the streams are closed, every file opened holds exactly what was sent for it.
  ghost predicate Exact(b: Builder, sent: Ledger)
  {
    forall q :: q in sent ==> ExactAt(b, q, sent[q])
  }

  ghost predicate ExactAt(b: Builder, q: Path, bytes: Bytes)
  {
    q in b.CloseAll().disk && b.CloseAll().disk[q] == File(bytes)
  }

  // The guard: a file is only opened when no stream writing it has anything in its buffer, and data only goes
  // where the data sent so far ends.
  ghost predicate Fair(b: Builder, sent: Ledger, p: Packet)
  {
    if p.kind == CREATE_FILE then
      forall id :: id in b.open && OpensAt(b, p.data) == Some(b.open[id].path) ==> b.open[id].pending == []
    else
      p.kind == FILE_DATA && p.data != [] && p.fileId in b.open && b.open[p.fileId].path in sent ==>
        End(b.open[p.fileId]) == |sent[b.open[p.fileId].path]|
  }

  // Every open stream writes a file of the ledger.
  ghost predicate Known(b: Builder, sent: Ledger)
  {
    forall id :: id in b.open ==> b.open[id].path in sent
  }

  ghost predicate AllCovered(b: Builder, sent: Ledger)
  {
    forall q :: q in sent ==> Covered(b, q, sent[q])
  }

  lemma CoveredIsExact(b: Builder, sent: Ledger)
    requires Valid(b) && AllCovered(b, sent)
    ensures Exact(b, sent)
  {
    hide Covered, Valid, Builder.CloseAll;
    forall q | q in sent
      ensures ExactAt(b, q, sent[q])
    {
      ClosingCovered(b, q, sent[q]);
    }
  }

  // Directories and links are only placed where nothing is: files and streams stay as they are.
  ghost predicate Spared(b: Builder, r: Builder)
  {
    && r.staging == b.staging && r.root == b.root && r.open == b.open
    && forall q :: q in b.disk ==> q in r.disk && r.disk[q] == b.disk[q]
  }

  lemma MkdirsSpares(b: Builder, p: Path)
    requires Valid(b) && Proper(p) && b.Mkdirs(p).Ok?
    ensures Spared(b, b.(disk := b.Mkdirs(p).value.tree))
  {
    MkdirsKeeps(b, p);
  }

  lemma DirectorySpares(b: Builder, text: Bytes)
    requires Valid(b)
    ensures Spared(b, b.CreateDirectory(text).0)
  {
    if ValidText(text) && b.Mkdirs(Resolve(Parts(text))).Ok? {
      AcceptedIsProper(text);
      MkdirsSpares(b, Resolve(Parts(text)));
    }
  }

  lemma LinkSpares(b: Builder, text: Bytes, target: Bytes)
    requires Valid(b)
    ensures Spared(b, b.CreateSymlink(text, target).0)
  {
    hide Parts, Resolve, FileTree.Mkdirs, ValidText, Valid;
    var parts := Parts(text);
    if ValidText(text) && b.Mkdirs(Resolve(parts[..|parts| - 1])).Ok? {
      AcceptedIsProper(text);
      MkdirsSpares(b, Resolve(parts[..|parts| - 1]));
    }
  }

  lemma OthersSpare(r: Receiving, p: Packet)
    requires Valid(r.builder) && p.kind != CREATE_FILE && p.kind != FILE_DATA && p.kind != END_FILE
    ensures Spared(r.builder, r.Handle(p).0.builder)
  {
    hide Builder.CreateDirectory, Builder.CreateSymlink, DecodeLink, Valid;
    DirectorySpares(r.builder, p.data);
    if DecodeLink(p.data).Ok? {
      LinkSpares(r.builder, DecodeLink(p.data).value.0, DecodeLink(p.data).value.1);
    }
  }

  lemma SparedCovers(b: Builder, r: Builder, sent: Ledger)
    requires Known(b, sent) && Spared(b, r)
    ensures Known(r, sent)
    ensures AllCovered(b, sent) ==> AllCovered(r, sent)
  {
    hide RightAt, Belongs;
    if AllCovered(b, sent) {
      forall q | q in sent
        ensures Covered(r, q, sent[q])
      {
        assert Covered(b, q, sent[q]);
        assert forall i :: Buffered(b, q, i) ==> Buffered(r, q, i);
      }
    }
  }

  // Creating

  // An accepted CREATE_FILE truncates or creates the file its path leads to.
  lemma CreateOpens(b: Builder, text: Bytes, id: nat) returns (a: Builder)
    requires Valid(b) && b.CreateFile(text, id).1.None?
    ensures OpensAt(b, text).Some?
    ensures var q := OpensAt(b, text).value;
            Truncated(b, a, q) && b.CreateFile(text, id).0 == Reopened(a, id, q)
  {
    hide Valid, FileTree.Mkdirs, Parts, Resolve, Follow, IsDir, Builder.FlushFile;
    var parts := Parts(text);
    var parent := Resolve(parts[..|parts| - 1]);
    AcceptedIsProper(text);
    MkdirsSpares(b, parent);
    a := b.(disk := b.Mkdirs(parent).value.tree[OpensAt(b, text).value := File([])]);
  }

  lemma ReopenKnown(b: Builder, a: Builder, sent: Ledger, id: nat, q: Path)
    requires Known(b, sent) && Truncated(b, a, q)
    ensures Known(Reopened(a, id, q), sent[q := []])
  {
    hide Reopened;
    ReopenedStreams(a, id, q);
  }

  lemma FairReopenCovers(b: Builder, a: Builder, sent: Ledger, id: nat, q: Path)
    requires AllCovered(b, sent) && Truncated(b, a, q)
    requires forall other :: other in b.open && b.open[other].path == q ==> b.open[other].pending == []
    ensures AllCovered(Reopened(a, id, q), sent[q := []])
  {
    var more := sent[q := []];
    EmptyIsCovered(b, a, q);
    hide Reopened, Covered, Truncated;
    forall other | other in more
      ensures Covered(Reopened(a, id, q), other, more[other])
    {
      if other != q {
        TruncatedCovers(b, a, q, other, sent[other]);
      }
      ReopenCovers(a, id, q, other, more[other]);
    }
  }

  lemma UnfairReopenShows(b: Builder, a: Builder, sent: Ledger, id: nat, q: Path, other: nat)
    requires Truncated(b, a, q) && Valid(Reopened(a, id, q))
    requires other in b.open && b.open[other].path == q && b.open[other].pending != []
    ensures !Exact(Reopened(a, id, q), sent[q := []])
  {
    ReopenShows(a, id, q, other);
    var r := Reopened(a, id, q);
    hide Reopened, Truncated, Valid, AtLeast, Builder.CloseAll;
    ClosingMisses(r, q, 1, []);
    assert !ExactAt(r, q, sent[q := []][q]);
  }

  lemma CreateFollows(b: Builder, sent: Ledger, p: Packet)
    requires Valid(b) && Known(b, sent) && p.kind == CREATE_FILE && b.CreateFile(p.data, p.fileId).1.None?
    ensures var r := b.CreateFile(p.data, p.fileId).0;
            && Known(r, Record(b, sent, p))
            && (AllCovered(b, sent) ==>
                  if Fair(b, sent, p) then AllCovered(r, Record(b, sent, p)) else !Exact(r, Record(b, sent, p)))
  {
    CreateFileKeeps(b, p.data, p.fileId);
    hide Valid, Known, AllCovered, Exact, Truncated, Reopened, OpensAt, Builder.CreateFile;
    var a := CreateOpens(b, p.data, p.fileId);
    var q := OpensAt(b, p.data).value;
    ReopenKnown(b, a, sent, p.fileId, q);
    if AllCovered(b, sent) {
      if Fair(b, sent, p) {
        FairReopenCovers(b, a, sent, p.fileId, q);
      } else {
        var other :| other in b.open && b.open[other].path == q && b.open[other].pending != [];
        UnfairReopenShows(b, a, sent, p.fileId, q, other);
      }
    }
  }

  // Writing and closing

  lemma FairWriteCovers(b: Builder, sent: Ledger, id: nat, data: Bytes)
    requires Known(b, sent) && id in b.open && AllCovered(b, sent)
    requires data == [] || End(b.open[id]) == |sent[b.open[id].path]|
    ensures var q := b.open[id].path;
            AllCovered(b.Write(data, id).0, sent[q := sent[q] + data])
  {
    var n := WriteIsSpill(b, data, id);
    var path, j, r := b.open[id].path, Joined(b, id, data), b.Write(data, id).0;
    var more := sent[path := sent[path] + data];
    hide Covered, Joined, Spill, Builder.Write;
    forall q | q in more
      ensures Covered(r, q, more[q])
    {
      if q == path {
        JoinCovers(b, id, data, q, sent[q]);
      } else {
        JoinSparesOthers(b, id, data, q, sent[q]);
      }
      SpillCovers(j, id, n, q, more[q]);
    }
  }

  lemma WriteKnown(b: Builder, sent: Ledger, more: Ledger, data: Bytes, id: nat)
    requires Known(b, sent) && id in b.open && sent.Keys == more.Keys
    ensures Known(b.Write(data, id).0, more) && Known(b.CloseFile(id).0, sent)
  {
    hide WriteOut;
  }

  lemma WriteFollows(b: Builder, sent: Ledger, p: Packet)
    requires Valid(b) && Known(b, sent) && p.kind == FILE_DATA && p.fileId in b.open
    ensures var r := b.Write(p.data, p.fileId).0;
            && Known(r, Record(b, sent, p))
            && (AllCovered(b, sent) ==>
                  if Fair(b, sent, p) then AllCovered(r, Record(b, sent, p)) else !Exact(r, Record(b, sent, p)))
  {
    var q := b.open[p.fileId].path;
    assert q in sent;
    var more := sent[q := sent[q] + p.data];
    assert Record(b, sent, p) == more;
    WriteKnown(b, sent, more, p.data, p.fileId);
    hide Covered, Valid, Known, Builder.Write, Builder.CloseAll;
    if AllCovered(b, sent) {
      if Fair(b, sent, p) {
        FairWriteCovers(b, sent, p.fileId, p.data);
      } else {
        MissedShows(b, p.fileId, p.data, q, sent[q]);
        assert !ExactAt(b.Write(p.data, p.fileId).0, q, more[q]);
      }
    }
  }

  lemma CloseCovers(b: Builder, sent: Ledger, id: nat)
    requires AllCovered(b, sent) && id in b.open
    ensures AllCovered(b.CloseFile(id).0, sent)
  {
    hide WriteOut, Covered;
    var r, c := b.CloseFile(id).0, b.FlushFile(id);
    forall q | q in sent
      ensures Covered(r, q, sent[q])
    {
      FlushCovers(b, id, q, sent[q]);
      ReplacedCovers(c, r, id, q, sent[q]);
    }
  }

  lemma HandleFollows(r: Receiving, sent: Ledger, p: Packet)
    requires Valid(r.builder) && Known(r.builder, sent) && r.Handle(p).1.None?
    ensures var next, more := r.Handle(p).0.builder, Record(r.builder, sent, p);
            && Known(next, more)
            && (AllCovered(r.builder, sent) ==>
                  if Fair(r.builder, sent, p) then AllCovered(next, more) else !Exact(next, more))
  {
    hide Valid, Known, Spared, AllCovered, Exact, WriteOut;
    hide Builder.CreateDirectory, Builder.CreateFile, Builder.CreateSymlink;
    var b := r.builder;
    if p.kind == CREATE_FILE {
      CreateFollows(b, sent, p);
    } else if p.kind == FILE_DATA {
      WriteFollows(b, sent, p);
    } else if p.kind == END_FILE {
      WriteKnown(b, sent, sent, [], p.fileId);
      if AllCovered(b, sent) {
        CloseCovers(b, sent, p.fileId);
      }
    } else {
      OthersSpare(r, p);
      SparedCovers(b, r.Handle(p).0.builder, sent);
    }
  }

  // Whole streams

  ghost predicate AllFair(r: Receiving, packets: seq<Packet>)
  {
    packets == [] ||
    (var before, last := packets[..|packets| - 1], packets[|packets| - 1];
     && AllFair(r, before)
     && (After(r, before).Ok? ==> Fair(After(r, before).value.builder, Sent(r, before), last)))
  }

  // At every point of the stream, closing the streams there would leave every file opened exact.
  ghost predicate AlwaysExact(r: Receiving, packets: seq<Packet>)
  {
    && (After(r, packets).Ok? ==> Exact(After(r, packets).value.builder, Sent(r, packets)))
    && (packets == [] || AlwaysExact(r, packets[..|packets| - 1]))
  }

  lemma NothingYet(b: Builder)
    requires b.open == map[]
    ensures Known(b, map[]) && AllCovered(b, map[]) && Exact(b, map[])
  {
  }

  lemma {:induction false} AcceptedKeeps(r: Receiving, packets: seq<Packet>)
    requires Valid(r.builder) && After(r, packets).Ok?
    ensures Kept(r.builder, After(r, packets).value.builder)
  {
    if packets != [] {
      hide Receiving.Handle, Valid;
      var before, p := packets[..|packets| - 1], packets[|packets| - 1];
      AcceptedKeeps(r, before);
      HandleKeeps(After(r, before).value, p);
    }
  }

  lemma {:induction false} StreamFollows(r: Receiving, packets: seq<Packet>)
    requires Valid(r.builder) && r.builder.open == map[] && After(r, packets).Ok?
    ensures var b := After(r, packets).value.builder;
            && Known(b, Sent(r, packets))
            && (AllFair(r, packets) ==> AllCovered(b, Sent(r, packets)))
            && (AllFair(r, packets) <==> AlwaysExact(r, packets))
  {
    hide Receiving.Handle, Valid, Fair, Exact, Known, AllCovered, Record;
    if packets == [] {
      NothingYet(r.builder);
    } else {
      var before, p := packets[..|packets| - 1], packets[|packets| - 1];
      StreamFollows(r, before);
      AcceptedKeeps(r, before);
      AcceptedKeeps(r, packets);
      HandleFollows(After(r, before).value, Sent(r, before), p);
      if AllFair(r, packets) {
        CoveredIsExact(After(r, packets).value.builder, Sent(r, packets));
      }
    }
  }

  // File contents. However the files of an accepted stream interleave and whatever links its paths go through:
  // at every point every file opened holds, once the streams are closed, exactly the FILE_DATA payloads sent for
  // it since - if and only if every packet was fair when it came.
  lemma FilesHoldWhatWasSentIff(r: Receiving, packets: seq<Packet>)
    requires Valid(r.builder) && r.builder.open == map[] && After(r, packets).Ok?
    ensures AlwaysExact(r, packets) <==> AllFair(r, packets)
  {
    StreamFollows(r, packets);
  }

  // No file is opened while a stream has it open.
  ghost predicate Disciplined(r: Receiving, packets: seq<Packet>)
  {
    packets == [] ||
    (var before, last := packets[..|packets| - 1], packets[|packets| - 1];
     Disciplined(r, before) && (After(r, before).Ok? ==> Uncontested(After(r, before).value.builder, last)))
  }

  ghost predicate Uncontested(b: Builder, p: Packet)
  {
    p.kind == CREATE_FILE ==> forall id :: id in b.open ==> OpensAt(b, p.data) != Some(b.open[id].path)
  }

  // Every stream has a file of its own and ends where the data sent for it ends.
  ghost predicate InStep(b: Builder, sent: Ledger)
  {
    && (forall id :: id in b.open ==> b.open[id].path in sent && End(b.open[id]) == |sent[b.open[id].path]|)
    && (forall id, other :: id in b.open && other in b.open && id != other ==> b.open[id].path != b.open[other].path)
  }

  lemma ReopenEnds(a: Builder, id: nat, q: Path)
    ensures var r := Reopened(a, id, q);
            && r.open.Keys == a.open.Keys + {id} && r.open[id].path == q && End(r.open[id]) == 0
            && forall other :: other in a.open && other != id ==> r.open[other] == a.open[other]
  {
    hide WriteOut;
  }

  lemma CreateInStep(b: Builder, sent: Ledger, p: Packet)
    requires Valid(b) && InStep(b, sent) && Uncontested(b, p)
    requires p.kind == CREATE_FILE && b.CreateFile(p.data, p.fileId).1.None?
    ensures InStep(b.CreateFile(p.data, p.fileId).0, Record(b, sent, p))
  {
    hide Valid, WriteOut, OpensAt, Truncated, Reopened, Builder.CreateFile;
    var a := CreateOpens(b, p.data, p.fileId);
    var q := OpensAt(b, p.data).value;
    SameStreams(b, a, q);
    ReopenEnds(a, p.fileId, q);
  }

  lemma WriteInStep(b: Builder, sent: Ledger, p: Packet)
    requires InStep(b, sent) && p.fileId in b.open
    ensures p.kind == FILE_DATA ==> InStep(b.Write(p.data, p.fileId).0, Record(b, sent, p))
    ensures p.kind == END_FILE ==> InStep(b.CloseFile(p.fileId).0, Record(b, sent, p))
  {
    hide WriteOut;
  }

  lemma UncontestedIsFair(b: Builder, sent: Ledger, p: Packet)
    requires InStep(b, sent) && Uncontested(b, p)
    ensures Fair(b, sent, p)
  {
    hide OpensAt;
  }

  lemma HandleInStep(r: Receiving, sent: Ledger, p: Packet)
    requires Valid(r.builder) && InStep(r.builder, sent) && Uncontested(r.builder, p) && r.Handle(p).1.None?
    ensures Fair(r.builder, sent, p)
    ensures InStep(r.Handle(p).0.builder, Record(r.builder, sent, p))
  {
    UncontestedIsFair(r.builder, sent, p);
    hide Valid, WriteOut, OpensAt, Fair, Uncontested, Builder.CreateDirectory, Builder.CreateSymlink;
    hide Builder.CreateFile;
    if p.kind == CREATE_FILE {
      CreateInStep(r.builder, sent, p);
    } else if p.kind == FILE_DATA || p.kind == END_FILE {
      WriteInStep(r.builder, sent, p);
    } else {
      OthersSpare(r, p);
    }
  }

  lemma SameStreams(b: Builder, a: Builder, q: Path)
    requires Truncated(b, a, q)
    ensures a.open == b.open
  {
  }

  lemma {:induction false} DisciplinedInStep(r: Receiving, packets: seq<Packet>)
    requires Valid(r.builder) && r.builder.open == map[] && After(r, packets).Ok? && Disciplined(r, packets)
    ensures InStep(After(r, packets).value.builder, Sent(r, packets)) && AllFair(r, packets)
  {
    if packets != [] {
      hide Receiving.Handle, Valid, InStep, Fair, Uncontested, Record;
      var before, p := packets[..|packets| - 1], packets[|packets| - 1];
      DisciplinedInStep(r, before);
      AcceptedKeeps(r, before);
      HandleInStep(After(r, before).value, Sent(r, before), p);
    } else {
      assert Sent(r, packets) == map[];
    }
  }

  // If no file is opened while a stream has it open, every file opened holds exactly what was sent for it when
  // the streams are closed, before commit.
  lemma FilesHoldWhatWasSent(r: Receiving, packets: seq<Packet>)
    requires Valid(r.builder) && r.builder.open == map[] && After(r, packets).Ok? && Disciplined(r, packets)
    ensures Exact(After(r, packets).value.builder, Sent(r, packets))
  {
    DisciplinedInStep(r, packets);
    FilesHoldWhatWasSentIff(r, packets);
  }

  // Acceptance

  // The last name of an accepted path is free in the directory its parent leads to.
  predicate LinkGoes(b: Builder, text: Bytes, target: Bytes)
  {
    && b.Ready() && ValidText(text) && target != []
    && var parts := Parts(text);
    var name := parts[|parts| - 1];
    b.Mkdirs(Resolve(parts[..|parts| - 1])).Ok?
    && var m := b.Mkdirs(Resolve(parts[..|parts| - 1])).value;
    name != DOT && m.place.path + [name] !in m.tree
  }

  // A packet is accepted exactly if it is one of six kinds and: its path is valid and leads to a directory that is
  // there or can be made, to a file that can be opened, or to a free entry; its data is within the budget and its
  // stream open; its stream is open; or no byte remains.
  lemma PacketAcceptedIff(r: Receiving, p: Packet)
    ensures r.Handle(p).1.None? <==>
            || (p.kind == CREATE_DIRECTORY && r.builder.Ready() && ValidText(p.data)
                && r.builder.Mkdirs(Resolve(Parts(p.data))).Ok?)
            || (p.kind == CREATE_FILE && OpensAt(r.builder, p.data).Some?)
            || (p.kind == CREATE_SYMLINK && DecodeLink(p.data).Ok?
                && LinkGoes(r.builder, DecodeLink(p.data).value.0, DecodeLink(p.data).value.1))
            || (p.kind == FILE_DATA && p.fileId in r.builder.open && |p.data| <= r.bytesRemaining)
            || (p.kind == END_FILE && p.fileId in r.builder.open)
            || (p.kind == END_TRANSFER && r.bytesRemaining == 0)
  {
    hide Parts, Resolve, ValidText, FileTree.Mkdirs, Follow, WriteOut, DecodeLink;
  }

  // A packet that is refused does not count as data, whatever else it did.
  lemma RefusedSpendsNothing(r: Receiving, p: Packet)
    ensures r.Handle(p).1.Some? ==>
              r.Handle(p).0.bytesRemaining == r.bytesRemaining && r.Handle(p).0.ended == r.ended
  {
  }
}
