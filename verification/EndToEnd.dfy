/** The transfer over the transport: a tree handed to one endpoint, the tree committed beside the other. */
module EndToEnd {
  import opened Basics
  import opened Paths
  import opened FileTree
  import opened FileBuilders
  import opened Senders
  import opened Receivers
  import opened RoundTrip
  import opened SenderLinks
  import opened Straying
  import opened Visibility
  import Ftp
  import Transport
  import Link
  import Calls
  import Delivery
  import Recovery
  import Resending

  // One packet's way: framed it passes the stream's gate; sealed it is exactly 28 bytes longer and fits a
  // datagram; opened and parsed it is the packet again.
  lemma PacketSurvives(p: Ftp.Packet, open: Transport.Opener, body: Bytes)
    requires Carried(p) && Transport.SealsTo(open, Ftp.AsBytes(p), body)
    ensures |Ftp.AsBytes(p)| <= Transport.PACKET_PAYLOAD_SIZE
    ensures Transport.Seal(Ftp.AsBytes(p), Some(body)) == Ok(body)
    ensures |body| == |Ftp.AsBytes(p)| + Transport.CRYPT_OVERHEAD <= Transport.PACKET_SIZE
    ensures Transport.Decrypt(open, body) == Some(Ftp.AsBytes(p))
    ensures Ftp.Parse(Ftp.AsBytes(p)) == Ok(p)
  {
    FrameParses(p);
  }

  lemma FrameParses(p: Ftp.Packet)
    requires Carried(p)
    ensures Ftp.Parse(Ftp.AsBytes(p)) == Ok(p)
  {
    assert Ftp.AsBytes(p) + [] == Ftp.AsBytes(p);
    Ftp.ParseAsBytes(p, []);
  }

  lemma FramesCarry(packets: seq<Ftp.Packet>, n: nat)
    requires n <= |packets| && forall i :: 0 <= i < |packets| ==> Carried(packets[i])
    ensures Carry(Frames(packets)[..n], packets[..n])
  {
    hide Ftp.Parse, Ftp.AsBytes, Frames;
    forall i | 0 <= i < n
      ensures Ftp.Parse(Frames(packets)[i]) == Ok(packets[i])
    {
      FrameParses(packets[i]);
    }
  }

  // END_TRANSFER is the last packet of a stream and only that.
  lemma {:induction false} EndIsLast(entries: seq<Entry>, id: nat)
    requires AllFit(entries) && AllSendable(entries)
    ensures var packets := TreePackets(entries, id);
            && packets != [] && packets[|packets| - 1] == END_PACKET
            && forall i :: 0 <= i < |packets| - 1 ==> packets[i].kind != Ftp.END_TRANSFER
  {
    if entries != [] {
      assert FitsOnePacket(entries[0]);
      EndIsLast(entries[1..], NextId(entries[0], id));
      EntryHasNoEnd(entries[0], id);
    }
  }

  lemma EntryHasNoEnd(e: Entry, id: nat)
    requires e.path != []
    ensures forall i :: 0 <= i < |EntryPackets(e, id)| ==> EntryPackets(e, id)[i].kind != Ftp.END_TRANSFER
  {
    if e.node.File? {
      var chunks := Chunks(e.node.content);
      forall i | 0 <= i < |chunks|
        ensures DataPackets(id, chunks)[i].kind != Ftp.END_TRANSFER
      {
        DataPacketsAre(id, chunks, i);
      }
    }
  }

  // Accepted packets without END_TRANSFER leave the receiver waiting: only the stream can fail it.
  lemma {:induction false} ReceiverWaits(r: Receiving, chunks: seq<Bytes>, packets: seq<Ftp.Packet>)
    requires Carry(chunks, packets) && After(r, packets).Ok? && !r.ended
    requires forall i :: 0 <= i < |packets| ==> packets[i].kind != Ftp.END_TRANSFER
    ensures Transfer(r, chunks).1 == Some(Ftp.StreamFailed)
    decreases |chunks|
  {
    if packets != [] {
      AfterFirst(r, packets);
      assert chunks[..|packets|] == chunks;
      CarryFirst(chunks, packets);
      assert chunks[1..][..|packets| - 1] == chunks[1..];
      KeepsWaiting(r, packets[0]);
      ReceiverWaits(r.Handle(packets[0]).0, chunks[1..], packets[1..]);
    }
  }

  lemma KeepsWaiting(r: Receiving, p: Ftp.Packet)
    requires !r.ended && p.kind != Ftp.END_TRANSFER
    ensures !r.Handle(p).0.ended
  {
  }

  // The receiver's state once the whole stream is in, and before.
  lemma PrefixOutcome(r: Receiving, packets: seq<Ftp.Packet>, n: nat)
    requires n <= |packets| && After(r, packets).Ok? && After(r, packets).value.ended && !r.ended
    requires forall i :: 0 <= i < |packets| ==> Carried(packets[i])
    requires packets != [] && forall i :: 0 <= i < |packets| - 1 ==> packets[i].kind != Ftp.END_TRANSFER
    ensures n < |packets| ==> Transfer(r, Frames(packets)[..n]).1 == Some(Ftp.StreamFailed)
    ensures n == |packets| ==> Transfer(r, Frames(packets)[..n]) == (After(r, packets).value, None)
  {
    hide After, Frames, Carried, Receiving.Handle;
    FramesCarry(packets, n);
    assert packets == packets[..n] + packets[n..];
    AfterConcat(r, packets[..n], packets[n..]);
    if n < |packets| {
      ReceiverWaits(r, Frames(packets)[..n], packets[..n]);
    } else {
      assert packets[..n] == packets;
      WholeStream(r, Frames(packets)[..n], packets);
    }
  }

  lemma {:induction false} WholeStream(r: Receiving, chunks: seq<Bytes>, packets: seq<Ftp.Packet>)
    requires Carry(chunks, packets) && After(r, packets).Ok? && After(r, packets).value.ended && !r.ended
    requires packets != [] && forall i :: 0 <= i < |packets| - 1 ==> packets[i].kind != Ftp.END_TRANSFER
    ensures Transfer(r, chunks) == (After(r, packets).value, None)
    decreases |chunks|
  {
    hide Receiving.Handle, After;
    AfterFirst(r, packets);
    assert chunks[..|packets|] == chunks;
    CarryFirst(chunks, packets);
    assert chunks[1..][..|packets| - 1] == chunks[1..];
    if |packets| == 1 {
      AfterNone(r.Handle(packets[0]).0);
      assert packets[1..] == [];
    } else {
      KeepsWaiting(r, packets[0]);
      WholeStream(r.Handle(packets[0]).0, chunks[1..], packets[1..]);
    }
  }

  // Wherever the stream of a transferable tree breaks off, or is refused for a directory path that does not fit,
  // the failed transfer leaves the file system as it was.
  lemma SenderLeavesNoTrace(source: Tree, order: seq<Path>, disk: Tree, root: Path, staging: Name, runtime: Runtime,
                            total: nat, n: nat)
    requires Transferable(source) && WalkOrder(order, source) && Ready(disk, root, staging, runtime)
    ensures OnWalk(source, order) && AllFit(Walk(source, order, 0))
    ensures var packets := TreePackets(Walk(source, order, 0), 0);
            n <= |packets| ==>
              var t := Transfer(Receiving(Fresh(disk, root, staging, runtime), total, false), Frames(packets)[..n]);
              t.1.Some? ==> t.0.builder.disk == disk
  {
    SourceClosed(source);
    WalkIsSource(source, order);
    hide Transferable, WalkOrder, OnWalk, AllFit, Walk, TreePackets, Frames, Carried, Transfer, Ready, Closed;
    hide LinkFree, Outside, Staged, Fresh, Homely, Quiet, Valid, AllSendable;
    WalkFits(source, order, 0);
    SenderIsLinkFree(source, order);
    TreeCarried(Walk(source, order, 0), 0);
    FreshIsValid(disk, root, staging, runtime);
    var r := Receiving(Fresh(disk, root, staging, runtime), total, false);
    LinkFreeLeavesNoTrace(r, TreePackets(Walk(source, order, 0), 0), n);
  }

  lemma LinkFreeLeavesNoTrace(r: Receiving, packets: seq<Ftp.Packet>, n: nat)
    requires Valid(r.builder) && Quiet(r.builder) && Homely(r.builder, []) && LinkFree(packets)
    requires forall i :: 0 <= i < |packets| ==> Carried(packets[i])
    ensures n <= |packets| ==> RestoredAfter(r, Frames(packets), n)
  {
    hide Valid, Quiet, Homely, LinkFree, Frames, Carried, Carry, SilentTransfer, RestoredAfter;
    FramesCarry(packets, |packets|);
    assert Frames(packets)[..|packets|] == Frames(packets) && packets[..|packets|] == packets;
    assert [] + packets == packets;
    LinkFreeTransfer(r, [], Frames(packets), packets);
    FailureRestoresIff(r, Frames(packets));
  }

  // What the receiving program has made of the chunks the stream has released so far: the announcement, then
  // the packets of start_transfer.
  function Outcome(b: Builder, chunks: seq<Bytes>): (Receiving, Option<Ftp.Error>)
    requires chunks != []
  {
    match Ftp.ReadAnnouncement(chunks[0])
    case Ok(total) => Transfer(Receiving(b, total, false), chunks[1..])
    case Err(e) => (Receiving(b, 0, false), Some(e))
  }

  // A tree to send, and an output directory to put it in.
  datatype Job = Job(source: Tree, order: seq<Path>, disk: Tree, root: Path, staging: Name, runtime: Runtime)
  {
    ghost predicate Valid()
    {
      && Transferable(source) && WalkOrder(order, source) && DirectoriesFit(source)
      && Ready(disk, root, staging, runtime) && NoCollision(staging, source)
    }

    function Home(): Builder
    {
      Fresh(disk, root, staging, runtime)
    }

    ghost function Entries(): seq<Entry>
      requires Valid()
      ensures AllFit(Entries()) && AllSendable(Entries())
    {
      SourceClosed(source);
      WalkIsSource(source, order);
      WalkFits(source, order, 0);
      Walk(source, order, 0)
    }

    // What the receiver makes of the whole packet stream.
    ghost function Arrived(): Result<Receiving, Ftp.Error>
      requires Valid()
    {
      var entries := Entries();
      After(Receiving(Home(), TotalBytes(entries), false), TreePackets(entries, 0))
    }

    lemma ArrivedIsSource()
      requires Valid()
      ensures Arrived().Ok? && Arrived().value.ended
      ensures OnWalk(source, order) && AllFit(Walk(source, order, 0))
      ensures Arrived() == Received(source, order, Home())
      ensures Staged(Arrived().value.builder.disk, Home().Stage()) == source
      ensures Outside(Arrived().value.builder.disk, Home().Stage()) == disk
    {
      StreamRebuildsTree(source, order, disk, root, staging, runtime);
    }

    // Every chunk the sender hands to its stream.
    ghost function Chunks(): seq<Bytes>
      requires Valid()
    {
      TransferStream(Entries())
    }
  }

  lemma StreamOutcome(entries: seq<Entry>, b: Builder, ready: seq<Bytes>)
    requires AllFit(entries) && AllSendable(entries) && TotalBytes(entries) < TWO64
    requires ready != [] && ready <= TransferStream(entries)
    requires var r := After(Receiving(b, TotalBytes(entries), false), TreePackets(entries, 0));
             r.Ok? && r.value.ended
    ensures var r := After(Receiving(b, TotalBytes(entries), false), TreePackets(entries, 0));
            if |ready| == |TransferStream(entries)| then Outcome(b, ready) == (r.value, None)
            else Outcome(b, ready).1 == Some(Ftp.StreamFailed)
  {
    hide After, TreePackets, TotalBytes, Frames, Carried, Ftp.ReadAnnouncement, Ftp.AsBytes;
    hide Transfer, AllFit, AllSendable;
    var packets, n := TreePackets(entries, 0), |ready| - 1;
    TreeCarried(entries, 0);
    EndIsLast(entries, 0);
    Ftp.AnnouncementRoundTrip(TotalBytes(entries));
    ReleasedPart(entries, ready);
    hide TransferStream, Ftp.Announcement;
    PrefixOutcome(Receiving(b, TotalBytes(entries), false), packets, n);
  }

  lemma ReleasedPart(entries: seq<Entry>, ready: seq<Bytes>)
    requires AllFit(entries) && ready != [] && ready <= TransferStream(entries)
    ensures |TransferStream(entries)| == |TreePackets(entries, 0)| + 1
    ensures ready[0] == Ftp.AsBytes(Ftp.Announcement(TotalBytes(entries)))
    ensures ready[1..] == Frames(TreePackets(entries, 0))[..|ready| - 1]
  {
    hide AllFit, TreePackets, TotalBytes, Frames, Ftp.AsBytes;
    assert ready == TransferStream(entries)[..|ready|];
  }

  // Whatever first part of the stream has been released, the receiving program refuses none of it; it ends
  // exactly when all of it is there, and then the tree in staging is the source. If the stream breaks off before,
  // the file system is left as it was.
  lemma OutcomeOfPrefix(job: Job, ready: seq<Bytes>)
    requires job.Valid() && TotalBytes(job.Entries()) < TWO64
    requires ready != [] && ready <= job.Chunks()
    ensures var (q, error) := Outcome(job.Home(), ready);
            && (error.None? <==> ready == job.Chunks())
            && (error.Some? ==> error == Some(Ftp.StreamFailed) && q.builder.disk == job.disk)
            && (error.None? ==>
                  && job.Arrived() == Ok(q)
                  && Staged(q.builder.disk, job.Home().Stage()) == job.source
                  && Outside(q.builder.disk, job.Home().Stage()) == job.disk)
  {
    hide Job.Valid, Job.Entries, Job.Home, After, TreePackets, TotalBytes, Outcome, TransferStream, Staged, Outside;
    job.ArrivedIsSource();
    StreamOutcome(job.Entries(), job.Home(), ready);
    PartLeavesNoTrace(job, ready);
  }

  lemma PartLeavesNoTrace(job: Job, ready: seq<Bytes>)
    requires job.Valid() && TotalBytes(job.Entries()) < TWO64
    requires ready != [] && ready <= job.Chunks()
    ensures var (q, error) := Outcome(job.Home(), ready);
            error.Some? ==> q.builder.disk == job.disk
  {
    hide Transfer, TotalBytes, Walk, AllFit, AllSendable, TreePackets, Frames, Ftp.ReadAnnouncement, Ftp.Announcement;
    hide Transferable, WalkOrder, DirectoriesFit, Ready, NoCollision, Fresh, OnWalk, Ftp.AsBytes;
    var entries := job.Entries();
    Ftp.AnnouncementRoundTrip(TotalBytes(entries));
    ReleasedPart(entries, ready);
    SenderLeavesNoTrace(job.source, job.order, job.disk, job.root, job.staging, job.runtime, TotalBytes(entries),
                        |ready| - 1);
  }

  // Safety, end to end. In every run of the two endpoints over the network, if the calls on one side submit the
  // transfer of a tree - all of it or as far as it has got - then the receiving program on the other
  // refuses nothing and ends only with the whole stream. If the stream breaks off before, the file system is left
  // as it was; else the source tree is staged exactly, with all else untouched.
  lemma TransferIsSafe(open: Transport.Opener, start: Link.System, events: seq<Link.Event>, side: Link.Side, job: Job)
    requires Delivery.Reaches(open, start, events)
    requires job.Valid() && TotalBytes(job.Entries()) < TWO64
    requires Calls.SubmittedPayloads(open, start, events, side) <= job.Chunks()
    ensures var ready := Link.Run(open, start, events).At(Link.Peer(side)).rx.stream.ready;
            && ready <= job.Chunks()
            && (ready != [] ==>
                  var (q, error) := Outcome(job.Home(), ready);
                  && (error.None? <==> ready == job.Chunks())
                  && (error.Some? ==> error == Some(Ftp.StreamFailed) && q.builder.disk == job.disk)
                  && (error.None? ==>
                        && Staged(q.builder.disk, job.Home().Stage()) == job.source
                        && Outside(q.builder.disk, job.Home().Stage()) == job.disk))
  {
    hide Link.Run, Outcome, Staged, Outside, Delivery.Payloads, Delivery.Reaches, Calls.SubmittedPayloads;
    hide Job.Valid, Job.Entries, Job.Chunks, Job.Home;
    Delivery.PrefixSafety(open, start, events, side);
    var ready := Link.Run(open, start, events).At(Link.Peer(side)).rx.stream.ready;
    if ready != [] {
      OutcomeOfPrefix(job, ready);
    }
  }

  // The receiving program has ended, and commit - whatever its walk of the staging directory - succeeds exactly
  // when the source fits the output directory, and leaves the source laid over it and all else as it was.
  ghost predicate OverlaidIffCompatible(job: Job, ready: seq<Bytes>, commitOrder: seq<Path>)
  {
    && ready != [] && Outcome(job.Home(), ready).1.None?
    && var closed := Outcome(job.Home(), ready).0.builder.CloseAll();
    var committed := CommitAll(closed.disk, job.root, job.Home().Stage(), commitOrder);
    && (committed.Ok? <==> Compatible(job.disk, job.root, job.source))
    && (committed.Ok? ==> RemoveStaging(committed.value, job.Home().Stage()) == job.disk + Under(job.root, job.source))
  }

  lemma WholeIsOverlaid(job: Job, commitOrder: seq<Path>)
    requires job.Valid() && TotalBytes(job.Entries()) < TWO64 && WalkOrder(commitOrder, job.source)
    ensures job.Chunks() != [] && OverlaidIffCompatible(job, job.Chunks(), commitOrder)
  {
    hide Outcome, After, TreePackets, TotalBytes, Staged, Outside, CommitAll, Compatible, Under, Builder.CloseAll;
    hide Transferable, DirectoriesFit, NoCollision, WalkOrder;
    OutcomeOfPrefix(job, job.Chunks());
    job.ArrivedIsSource();
    TransferIsOverlay(job.source, job.order, job.disk, job.root, job.staging, job.runtime, commitOrder);
  }

  // Delivery, end to end. Once the application has sent the whole transfer, nothing is in flight, no send failed
  // and the peer's stream has consumed its queue, the transfer ends on the other side if and only if the stream
  // lost nothing; and then it is committed as it should be.
  lemma TransferIsDelivered(open: Transport.Opener, start: Link.System, events: seq<Link.Event>, side: Link.Side,
                            job: Job, commitOrder: seq<Path>)
    requires Delivery.Reaches(open, start, events)
    requires job.Valid() && TotalBytes(job.Entries()) < TWO64 && WalkOrder(commitOrder, job.source)
    requires Calls.SubmittedPayloads(open, start, events, side) == job.Chunks()
    requires var s := Link.Run(open, start, events);
             && s.At(side).tx.inFlight == map[] && s.At(side).tx.failed == {}
             && s.At(Link.Peer(side)).rx.queue == []
    ensures var ready := Link.Run(open, start, events).At(Link.Peer(side)).rx.stream.ready;
            var lossless := Delivery.NothingLost(open, start, events, Link.Peer(side));
            && (lossless <==> ready != [] && Outcome(job.Home(), ready).1.None?)
            && (lossless ==> OverlaidIffCompatible(job, ready, commitOrder))
  {
    Delivery.PayloadsAreSubmitted(open, start, events, side);
    hide Link.Run, Outcome, Delivery.Payloads, Delivery.Reaches, Delivery.NothingLost, OverlaidIffCompatible;
    hide Calls.SubmittedPayloads;
    hide Job.Valid, Job.Entries, Job.Chunks, Job.Home;
    var log := Link.Run(open, start, events).At(side).tx.log;
    var ready := Link.Run(open, start, events).At(Link.Peer(side)).rx.stream.ready;
    NoPayloadIsEmpty(job, log);
    Delivery.PrefixSafety(open, start, events, side);
    Delivery.EverythingIsReleased(open, start, events, side);
    WholeIsOverlaid(job, commitOrder);
    OverlaidHasEnded(job, job.Chunks(), commitOrder);
    if ready != [] {
      OutcomeOfPrefix(job, ready);
    }
  }

  lemma OverlaidHasEnded(job: Job, ready: seq<Bytes>, commitOrder: seq<Path>)
    requires OverlaidIffCompatible(job, ready, commitOrder)
    ensures ready != [] && Outcome(job.Home(), ready).1.None?
  {
  }

  lemma NoPayloadIsEmpty(job: Job, log: seq<Transport.Slot>)
    requires job.Valid() && log != [] && Delivery.Payloads(log) == job.Chunks()
    ensures forall k :: 1 <= k < |log| ==> log[k].plain != []
    ensures job.Chunks() != []
  {
    hide Job.Valid, Job.Entries;
    forall k | 1 <= k < |log|
      ensures log[k].plain != []
    {
      assert log[k].plain == Delivery.Payloads(log)[k - 1];
      StreamFitsTransport(job.Entries(), k - 1);
    }
  }

  // A transfer can always be completed. From every reachable state in which the application has sent all of it,
  // both ends are up, no send failed, nothing that arrived is lost or must be and a timeout pass is due, there is
  // a continuation, living on the datagrams it sends itself, in which the receiving program ends and commits.
  lemma TransferCanFinish(open: Transport.Opener, start: Link.System, events: seq<Link.Event>, side: Link.Side,
                          now: int, order: seq<nat>, job: Job, commitOrder: seq<Path>)
    returns (more: seq<Link.Event>)
    requires Delivery.Reaches(open, start, events)
    requires job.Valid() && TotalBytes(job.Entries()) < TWO64 && WalkOrder(commitOrder, job.source)
    requires Calls.SubmittedPayloads(open, start, events, side) == job.Chunks()
    requires var s := Link.Run(open, start, events);
             && s.At(side).error.None? && s.At(Link.Peer(side)).error.None? && s.At(side).tx.failed == {}
             && Recovery.Recoverable(s.At(Link.Peer(side)).rx)
             && Resending.PassIsDue(s.At(side), now) && Transport.Lists(order, s.At(side).tx.inFlight.Keys)
    ensures Delivery.Reaches(open, start, events + more)
    ensures Resending.Fresh(open, Link.Run(open, start, events), more, now)
    ensures var ready := Link.Run(open, start, events + more).At(Link.Peer(side)).rx.stream.ready;
            OverlaidIffCompatible(job, ready, commitOrder)
  {
    Delivery.PayloadsAreSubmitted(open, start, events, side);
    hide Link.Run, Outcome, Delivery.Payloads, Delivery.Reaches, Delivery.NothingLost, OverlaidIffCompatible;
    hide Calls.SubmittedPayloads;
    hide Job.Valid, Job.Entries, Job.Chunks, Job.Home, Recovery.Recoverable, Resending.Fresh, Resending.PassIsDue;
    hide Transport.Lists;
    NoPayloadIsEmpty(job, Link.Run(open, start, events).At(side).tx.log);
    more := Recovery.CanRelease(open, start, events, side, now, order);
    WholeIsOverlaid(job, commitOrder);
  }
}
