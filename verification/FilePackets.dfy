/** The contents of received files read off the packets alone, if no path goes through a link. */
module FilePackets {
  import opened Basics
  import opened Ftp
  import opened Paths
  import opened FileTree
  import opened FileBuilders
  import opened Buffers
  import opened Receivers
  import opened FileContents
  import opened Visibility

  // The file the stream with this id currently writes, if one is open.
  function OpenAt(packets: seq<Packet>, id: nat): Option<Path>
  {
    if packets == [] then None
    else
      var last := packets[|packets| - 1];
      if last.fileId == id && last.kind == CREATE_FILE then Some(FileTarget(last))
      else if last.fileId == id && last.kind == END_FILE then None
      else OpenAt(packets[..|packets| - 1], id)
  }

  // The concatenation of the FILE_DATA payloads written to a file since it was last created.
  function Written(packets: seq<Packet>, file: Path): Bytes
  {
    if packets == [] then []
    else
      var before, last := packets[..|packets| - 1], packets[|packets| - 1];
      if last.kind == CREATE_FILE && FileTarget(last) == file then []
      else if last.kind == FILE_DATA && OpenAt(before, last.fileId) == Some(file) then Written(before, file) + last.data
      else Written(before, file)
  }

  function Created(packets: seq<Packet>): set<Path>
  {
    if packets == [] then {}
    else
      var before, last := packets[..|packets| - 1], packets[|packets| - 1];
      if last.kind == CREATE_FILE then Created(before) + {FileTarget(last)} else Created(before)
  }

  // No file is created while a stream has it open.
  ghost predicate NeverReopened(packets: seq<Packet>)
  {
    packets == [] ||
    (var before, last := packets[..|packets| - 1], packets[|packets| - 1];
     NeverReopened(before) && NotOpen(before, last))
  }

  ghost predicate NotOpen(before: seq<Packet>, p: Packet)
  {
    p.kind == CREATE_FILE ==> forall id :: OpenAt(before, id) != Some(FileTarget(p))
  }

  // How one more packet changes what the packets say.
  lemma OneMorePacket(packets: seq<Packet>, p: Packet)
    ensures var more := packets + [p];
            && Created(more) == Created(packets) + (if p.kind == CREATE_FILE then {FileTarget(p)} else {})
            && (forall id :: OpenAt(more, id) ==
                  if p.fileId == id && p.kind == CREATE_FILE then Some(FileTarget(p))
                  else if p.fileId == id && p.kind == END_FILE then None
                  else OpenAt(packets, id))
            && (forall file :: Written(more, file) ==
                  if p.kind == CREATE_FILE && FileTarget(p) == file then []
                  else if p.kind == FILE_DATA && OpenAt(packets, p.fileId) == Some(file) then
                    Written(packets, file) + p.data
                  else Written(packets, file))
            && (NeverReopened(more) <==> NeverReopened(packets) && NotOpen(packets, p))
  {
    assert (packets + [p])[..|packets|] == packets;
  }

  // What the packets say is what the builder has open and what the ledger records.
  ghost predicate Agree(b: Builder, sent: Ledger, packets: seq<Packet>)
  {
    StreamsAgree(b, packets) && SentAgrees(b, sent, packets)
  }

  ghost predicate StreamsAgree(b: Builder, packets: seq<Packet>)
  {
    && (forall id :: id in b.open <==> OpenAt(packets, id).Some?)
    && (forall id :: id in b.open ==> b.open[id].path == b.Staging(OpenAt(packets, id).value))
  }

  ghost predicate SentAgrees(b: Builder, sent: Ledger, packets: seq<Packet>)
  {
    forall file :: RecordedAt(b, sent, packets, file)
  }

  ghost predicate RecordedAt(b: Builder, sent: Ledger, packets: seq<Packet>, file: Path)
  {
    && (b.Staging(file) in sent <==> file in Created(packets))
    && (file in Created(packets) ==> sent[b.Staging(file)] == Written(packets, file))
  }

  lemma SameStaging(b: Builder, p: Path, q: Path)
    ensures b.Staging(p) == b.Staging(q) ==> p == q
  {
    if b.Staging(p) == b.Staging(q) {
      SamePrefix(b.Stage(), p, q);
    }
  }

  // A CREATE_FILE whose path goes through no link opens the file it names.
  lemma OpensNamed(b: Builder, packets: seq<Packet>, p: Packet)
    requires Valid(b) && Homely(b, packets) && Plain(packets, p) && p.kind == CREATE_FILE
    ensures OpensAt(b, p.data) == None || OpensAt(b, p.data) == Some(b.Staging(FileTarget(p)))
  {
    hide Homely, LinkPaths, Valid, FileTree.Mkdirs, Parts, Resolve;
    var parts := Parts(p.data);
    if b.Ready() && ValidText(p.data) && b.Mkdirs(Resolve(parts[..|parts| - 1])).Ok? {
      FileLeadsHome(b, packets, p.data);
    }
  }

  // How a packet changes the open streams.
  ghost predicate StreamsFollow(b: Builder, r: Builder, p: Packet)
  {
    && r.Stage() == b.Stage()
    && (forall id :: id in r.open <==>
          (p.kind == CREATE_FILE && p.fileId == id) || (id in b.open && !(p.kind == END_FILE && p.fileId == id)))
    && (forall id :: id in r.open ==>
          if p.kind == CREATE_FILE && p.fileId == id then OpensAt(b, p.data) == Some(r.open[id].path)
          else id in b.open && r.open[id].path == b.open[id].path)
  }

  lemma CreateStreams(b: Builder, p: Packet)
    requires Valid(b) && p.kind == CREATE_FILE && b.CreateFile(p.data, p.fileId).1.None?
    ensures StreamsFollow(b, b.CreateFile(p.data, p.fileId).0, p)
  {
    hide Valid, OpensAt, Truncated, Reopened, Builder.CreateFile;
    var a := CreateOpens(b, p.data, p.fileId);
    var q := OpensAt(b, p.data).value;
    SameStreams(b, a, q);
    TruncatedStage(b, a, q);
    ReopenedStreams(a, p.fileId, q);
  }

  lemma TruncatedStage(b: Builder, a: Builder, q: Path)
    requires Truncated(b, a, q)
    ensures a.Stage() == b.Stage()
  {
  }

  lemma HandleStreams(r: Receiving, p: Packet)
    requires Valid(r.builder) && r.Handle(p).1.None?
    ensures StreamsFollow(r.builder, r.Handle(p).0.builder, p)
  {
    hide Valid, OpensAt, WriteOut, Builder.CreateDirectory, Builder.CreateSymlink, Builder.CreateFile;
    if p.kind == CREATE_FILE {
      CreateStreams(r.builder, p);
    } else if p.kind != FILE_DATA && p.kind != END_FILE {
      OthersSpare(r, p);
    }
  }

  lemma StreamsStayAgreed(b: Builder, r: Builder, packets: seq<Packet>, p: Packet)
    requires StreamsAgree(b, packets) && StreamsFollow(b, r, p)
    requires p.kind == CREATE_FILE ==>
               OpensAt(b, p.data) == None || OpensAt(b, p.data) == Some(b.Staging(FileTarget(p)))
    ensures StreamsAgree(r, packets + [p])
  {
    OneMorePacket(packets, p);
    hide OpenAt, Created, Written, FileTarget, OpensAt;
  }

  lemma SentStaysAgreed(b: Builder, sent: Ledger, packets: seq<Packet>, p: Packet)
    requires Agree(b, sent, packets) && Known(b, sent)
    requires p.kind == CREATE_FILE ==> OpensAt(b, p.data) == Some(b.Staging(FileTarget(p)))
    requires p.kind == FILE_DATA ==> p.fileId in b.open
    ensures SentAgrees(b, Record(b, sent, p), packets + [p])
  {
    OneMorePacket(packets, p);
    hide OpenAt, Created, Written, FileTarget, OpensAt;
    forall file
      ensures RecordedAt(b, Record(b, sent, p), packets + [p], file)
    {
      assert RecordedAt(b, sent, packets, file);
      if p.kind == CREATE_FILE {
        SameStaging(b, file, FileTarget(p));
      } else if p.kind == FILE_DATA {
        SameStaging(b, file, OpenAt(packets, p.fileId).value);
      }
    }
  }

  lemma SameStage(b: Builder, r: Builder, sent: Ledger, packets: seq<Packet>)
    requires SentAgrees(b, sent, packets) && r.Stage() == b.Stage()
    ensures SentAgrees(r, sent, packets)
  {
    hide Created, Written;
    forall file
      ensures RecordedAt(r, sent, packets, file)
    {
      assert RecordedAt(b, sent, packets, file);
    }
  }

  lemma CreateIsOpen(b: Builder, p: Packet)
    requires Valid(b) && p.kind == CREATE_FILE && b.CreateFile(p.data, p.fileId).1.None?
    ensures OpensAt(b, p.data).Some?
  {
    var a := CreateOpens(b, p.data, p.fileId);
  }

  lemma HandleAgrees(r: Receiving, sent: Ledger, packets: seq<Packet>, p: Packet)
    requires Valid(r.builder) && Homely(r.builder, packets) && Plain(packets, p)
    requires Agree(r.builder, sent, packets) && Known(r.builder, sent) && r.Handle(p).1.None?
    ensures Agree(r.Handle(p).0.builder, Record(r.builder, sent, p), packets + [p])
  {
    hide Valid, Homely, Plain, OpensAt, StreamsAgree, SentAgrees, Known, Record, StreamsFollow;
    hide Builder.CreateDirectory, Builder.CreateFile, Builder.CreateSymlink, Builder.CloseFile;
    var b, c := r.builder, r.Handle(p).0.builder;
    if p.kind == CREATE_FILE {
      OpensNamed(b, packets, p);
      CreateIsOpen(b, p);
    }
    HandleStreams(r, p);
    StreamsStayAgreed(b, c, packets, p);
    SentStaysAgreed(b, sent, packets, p);
    FollowKeepsStage(b, c, p);
    SameStage(b, c, Record(b, sent, p), packets + [p]);
  }

  lemma FollowKeepsStage(b: Builder, c: Builder, p: Packet)
    requires StreamsFollow(b, c, p)
    ensures c.Stage() == b.Stage()
  {
  }

  lemma NothingAgrees(b: Builder)
    requires b.open == map[]
    ensures Agree(b, map[], [])
  {
  }

  lemma NotOpenIsUncontested(b: Builder, sent: Ledger, packets: seq<Packet>, p: Packet)
    requires Valid(b) && Homely(b, packets) && Plain(packets, p)
    requires Agree(b, sent, packets) && NotOpen(packets, p)
    ensures Uncontested(b, p)
  {
    hide Valid, Homely, Plain, OpensAt, OpenAt, Created, Written, FileTarget, SentAgrees;
    if p.kind == CREATE_FILE {
      OpensNamed(b, packets, p);
      forall id | id in b.open
        ensures b.open[id].path != b.Staging(FileTarget(p))
      {
        SameStaging(b, OpenAt(packets, id).value, FileTarget(p));
      }
    }
  }

  // If no path passes through a link, the packets alone say which files are open and what was sent for each; and
  // if no file is created while open, by the packets, then none is.
  lemma {:induction false} PacketsTell(r: Receiving, packets: seq<Packet>)
    requires Valid(r.builder) && r.builder.open == map[] && Homely(r.builder, [])
    requires After(r, packets).Ok? && LinkFree(packets)
    ensures Agree(After(r, packets).value.builder, Sent(r, packets), packets)
    ensures NeverReopened(packets) ==> Disciplined(r, packets)
  {
    hide Receiving.Handle, Valid, Homely, Plain, LinkFree, LinkPaths, Agree, Record, NotOpen, Uncontested, Known;
    if packets == [] {
      NothingAgrees(r.builder);
    } else {
      var before, p := packets[..|packets| - 1], packets[|packets| - 1];
      assert packets == before + [p];
      OneMorePath(before, p);
      PacketsTell(r, before);
      LinkFreeStays(r, before);
      StreamFollows(r, before);
      HandleAgrees(After(r, before).value, Sent(r, before), before, p);
      if NeverReopened(packets) {
        NotOpenIsUncontested(After(r, before).value.builder, Sent(r, before), before, p);
      }
    }
  }

  // A condition on the packets alone: if no path passes through a link and no file is created while a stream has
  // it open, then when the streams are closed every file created holds what the packets sent for it.
  lemma PlainFilesHoldWhatWasSent(r: Receiving, packets: seq<Packet>, file: Path)
    requires Valid(r.builder) && r.builder.open == map[] && Homely(r.builder, [])
    requires After(r, packets).Ok? && LinkFree(packets) && NeverReopened(packets) && file in Created(packets)
    ensures var b := After(r, packets).value.builder;
            ExactAt(b, b.Staging(file), Written(packets, file))
  {
    hide After, Sent, Created, Written, LinkFree, NeverReopened, Disciplined, Valid, Homely, ExactAt, OpenAt;
    PacketsTell(r, packets);
    FilesHoldWhatWasSent(r, packets);
    var b := After(r, packets).value.builder;
    assert RecordedAt(b, Sent(r, packets), packets, file);
  }

  // A file created again while open

  const A_TEXT: Bytes := [97]

  lemma ATextIs()
    ensures ValidText(A_TEXT) && Parts(A_TEXT) == [A_TEXT] && Resolve([A_TEXT]) == [A_TEXT]
    ensures Resolve([A_TEXT][..0]) == []
  {
    hide Parts, ValidText;
    assert ValidName(A_TEXT) && ValidPath([A_TEXT]);
    assert Text([A_TEXT]) == A_TEXT;
    TextRoundTrip([A_TEXT]);
    assert [A_TEXT][..0] == [];
  }

  // Creating "a" in the staging directory itself.
  lemma AOpens(b: Builder, id: nat)
    requires Valid(b) && (b.Staging([A_TEXT]) in b.disk ==> b.disk[b.Staging([A_TEXT])].File?)
    ensures var q := b.Staging([A_TEXT]);
            b.CreateFile(A_TEXT, id) == (Reopened(b.(disk := b.disk[q := File([])]), id, q), None)
  {
    ATextIs();
    hide Parts, Resolve, ValidText, Closed;
    StageChain(b);
    assert b.Staging([]) == b.Stage();
    MkdirsOnDirs(b.disk, b.Stage());
    assert b.Stage() + [A_TEXT] == b.Staging([A_TEXT]);
    FollowOne(b.disk, b.Stage(), A_TEXT, MAX_LINKS);
  }

  // The builder with "a" as its one open file.
  function WithA(b: Builder, id: nat, content: Bytes, pending: Bytes): Builder
  {
    var q := b.Staging([A_TEXT]);
    b.(disk := b.disk[q := File(content)], open := map[id := OpenFile(q, 0, pending)])
  }

  lemma AIsCreated(b: Builder, id: nat)
    requires Valid(b) && b.open == map[] && b.Staging([A_TEXT]) !in b.disk
    ensures b.CreateFile(A_TEXT, id) == (WithA(b, id, [], []), None) && Valid(WithA(b, id, [], []))
  {
    AOpens(b, id);
    CreateFileKeeps(b, A_TEXT, id);
    var q := b.Staging([A_TEXT]);
    assert map[][id := OpenFile(q, 0, [])] == map[id := OpenFile(q, 0, [])];
  }

  // Data stays in the buffer.
  lemma AIsWritten(b: Builder, id: nat, content: Bytes, data: Bytes)
    requires b.runtime.spill([], data) == 0
    ensures WithA(b, id, content, []).Write(data, id) == (WithA(b, id, content, data), None)
  {
    var q, c := b.Staging([A_TEXT]), WithA(b, id, content, []);
    var nothing: Bytes := [];
    assert nothing + data == data && data[..0] == [] && data[0..] == data;
    assert b.disk[q := File(content)][q := File(content)] == b.disk[q := File(content)];
    assert map[id := OpenFile(q, 0, [])][id := OpenFile(q, 0, data)] == map[id := OpenFile(q, 0, data)];
  }

  // Creating it again: the old stream's buffer goes into the new file.
  lemma AIsFlushed(b: Builder, id: nat, x: Bytes)
    ensures Reopened(WithA(b, id, [], x), id, b.Staging([A_TEXT])) == WithA(b, id, x, [])
  {
    var c, q := WithA(b, id, [], x), b.Staging([A_TEXT]);
    AppendAtEnd([], x);
    var nothing: Bytes := [];
    assert nothing + x == x;
    hide WriteAt;
    assert b.disk[q := File([])][q := File(x)] == b.disk[q := File(x)];
    var m: map<nat, OpenFile> := map[id := OpenFile(q, 0, x)];
    assert m[id := OpenFile(q, |x|, [])][id := OpenFile(q, 0, [])] == map[id := OpenFile(q, 0, [])];
  }

  lemma AIsReopened(b: Builder, id: nat, x: Bytes)
    requires Valid(WithA(b, id, [], x))
    ensures WithA(b, id, [], x).CreateFile(A_TEXT, id) == (WithA(b, id, x, []), None)
  {
    hide Builder.CreateFile, Closed;
    var c, q := WithA(b, id, [], x), b.Staging([A_TEXT]);
    AOpens(c, id);
    assert b.disk[q := File([])][q := File([])] == b.disk[q := File([])];
    assert c.(disk := c.disk[q := File([])]) == c;
    AIsFlushed(b, id, x);
  }

  lemma AIsClosed(b: Builder, id: nat, x: Bytes, y: Bytes)
    requires |y| <= |x|
    ensures var q := b.Staging([A_TEXT]);
            WithA(b, id, x, y).CloseFile(id)
            == (b.(disk := b.disk[q := File(WriteAt(x, 0, y))], open := map[]), None)
  {
    hide WriteAt;
    var q := b.Staging([A_TEXT]);
    assert b.disk[q := File(x)][q := File(WriteAt(x, 0, y))] == b.disk[q := File(WriteAt(x, 0, y))];
    assert map[id := OpenFile(q, 0, y)][id := OpenFile(q, 0 + |y|, [])] - {id} == map[];
  }

  lemma AfterFive(r0: Receiving, r1: Receiving, r2: Receiving, r3: Receiving, r4: Receiving, r5: Receiving,
                  p: seq<Packet>)
    requires |p| == 5 && r0.Handle(p[0]) == (r1, None) && r1.Handle(p[1]) == (r2, None)
    requires r2.Handle(p[2]) == (r3, None) && r3.Handle(p[3]) == (r4, None) && r4.Handle(p[4]) == (r5, None)
    ensures After(r0, p) == Ok(r5)
  {
    hide Receiving.Handle;
    AfterFirst(r0, p);
    AfterFirst(r1, p[1..]);
    AfterFirst(r2, p[1..][1..]);
    AfterFirst(r3, p[1..][1..][1..]);
    AfterFirst(r4, p[1..][1..][1..][1..]);
    assert p[1..][1..][1..][1..][1..] == [];
    hide After;
    AfterNone(r5);
  }

  // CREATE_FILE "a", data x, CREATE_FILE "a" again under the same id, data y, END_FILE.
  function Again(id: nat, x: Bytes, y: Bytes): (r: seq<Packet>)
    ensures |r| == 5
  {
    [Packet(CREATE_FILE, 0, id, A_TEXT), Packet(FILE_DATA, 0, id, x), Packet(CREATE_FILE, 0, id, A_TEXT),
     Packet(FILE_DATA, 0, id, y), Packet(END_FILE, 0, id, [])]
  }

  lemma AgainHandled(b: Builder, id: nat, x: Bytes, y: Bytes)
    requires Valid(b) && b.open == map[] && b.Staging([A_TEXT]) !in b.disk && |y| <= |x|
    requires b.runtime.spill([], x) == 0 && b.runtime.spill([], y) == 0
    ensures var n, p := |x| + |y|, Again(id, x, y);
            var end := b.(disk := b.disk[b.Staging([A_TEXT]) := File(WriteAt(x, 0, y))], open := map[]);
            && Receiving(b, n, false).Handle(p[0]) == (Receiving(WithA(b, id, [], []), n, false), None)
            && Receiving(WithA(b, id, [], []), n, false).Handle(p[1])
               == (Receiving(WithA(b, id, [], x), |y|, false), None)
            && Receiving(WithA(b, id, [], x), |y|, false).Handle(p[2])
               == (Receiving(WithA(b, id, x, []), |y|, false), None)
            && Receiving(WithA(b, id, x, []), |y|, false).Handle(p[3])
               == (Receiving(WithA(b, id, x, y), 0, false), None)
            && Receiving(WithA(b, id, x, y), 0, false).Handle(p[4]) == (Receiving(end, 0, false), None)
  {
    hide WithA, WriteAt, Valid;
    hide Builder.CreateFile, Builder.Write, Builder.CloseFile;
    AIsCreated(b, id);
    AIsWritten(b, id, [], x);
    WriteKeeps(WithA(b, id, [], []), x, id);
    AIsReopened(b, id, x);
    AIsWritten(b, id, x, y);
    AIsClosed(b, id, x, y);
  }

  // The stream is accepted. If the library keeps both payloads in its buffer, the end of the first survives in
  // the file, where only the second was sent for it.
  lemma AgainKeepsOldBytes(b: Builder, id: nat, x: Bytes, y: Bytes)
    requires Valid(b) && b.open == map[] && b.Staging([A_TEXT]) !in b.disk && 0 < |y| < |x|
    requires b.runtime.spill([], x) == 0 && b.runtime.spill([], y) == 0
    ensures var r, q := Receiving(b, |x| + |y|, false), b.Staging([A_TEXT]);
            && After(r, Again(id, x, y)).Ok?
            && After(r, Again(id, x, y)).value.builder.disk == b.disk[q := File(y + x[|y|..])]
            && Written(Again(id, x, y), [A_TEXT]) == y != y + x[|y|..]
  {
    hide WithA, WriteAt, Written, After, Receiving.Handle, Again, Valid;
    Overwritten(x, y);
    AgainHandled(b, id, x, y);
    AgainIsWritten(id, x, y);
    var n, p := |x| + |y|, Again(id, x, y);
    var end := b.(disk := b.disk[b.Staging([A_TEXT]) := File(WriteAt(x, 0, y))], open := map[]);
    var r0, r1 := Receiving(b, n, false), Receiving(WithA(b, id, [], []), n, false);
    var r2, r3 := Receiving(WithA(b, id, [], x), |y|, false), Receiving(WithA(b, id, x, []), |y|, false);
    AfterFive(r0, r1, r2, r3, Receiving(WithA(b, id, x, y), 0, false), Receiving(end, 0, false), p);
  }

  lemma Overwritten(x: Bytes, y: Bytes)
    requires 0 < |y| < |x|
    ensures WriteAt(x, 0, y) == y + x[|y|..] != y
  {
    assert |y + x[|y|..]| > |y|;
  }

  lemma AgainIsWritten(id: nat, x: Bytes, y: Bytes)
    ensures Written(Again(id, x, y), [A_TEXT]) == y
  {
    ATextIs();
    var p := Again(id, x, y);
    OneMorePacket([], p[0]);
    OneMorePacket([p[0]], p[1]);
    OneMorePacket([p[0], p[1]], p[2]);
    OneMorePacket([p[0], p[1], p[2]], p[3]);
    OneMorePacket([p[0], p[1], p[2], p[3]], p[4]);
    hide Written, OpenAt, Created, NeverReopened;
    assert [] + [p[0]] == [p[0]] && [p[0]] + [p[1]] == [p[0], p[1]] && [p[0], p[1]] + [p[2]] == [p[0], p[1], p[2]];
    assert [p[0], p[1], p[2]] + [p[3]] == [p[0], p[1], p[2], p[3]];
    assert [p[0], p[1], p[2], p[3]] + [p[4]] == p;
    assert [] + y == y;
  }
}
