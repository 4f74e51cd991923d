/** Building a received tree in a staging directory and committing it over the output directory. */
module FileBuilders {
  import opened Basics
  import opened Ftp
  import opened Paths
  import opened FileTree

  // An open output stream: the file it writes, how far it has written, and what its buffer still holds.
  datatype OpenFile = OpenFile(path: Path, position: nat, pending: Bytes)

  // What the runtime library decides: how much of a stream's buffer and new data goes to the file at once, and
  // the order in which the table of open streams is walked.
  datatype Runtime = Runtime(spill: (Bytes, Bytes) -> nat, closingOrder: set<nat> -> seq<nat>)

  // A write at a position: bytes there are replaced, a gap before it is filled with zeros.
  function WriteAt(content: Bytes, position: nat, data: Bytes): Bytes
  {
    if data == [] then content
    else
      var padded := if |content| < position then content + seq(position - |content|, i => 0) else content;
      var end := position + |data|;
      padded[..position] + data + if end < |padded| then padded[end..] else []
  }

  lemma AppendAtEnd(content: Bytes, data: Bytes)
    ensures WriteAt(content, |content|, data) == content + data
  {
  }

  function WriteOut(d: Tree, f: OpenFile, data: Bytes): Tree
  {
    if f.path in d && d[f.path].File? then d[f.path := File(WriteAt(d[f.path].content, f.position, data))] else d
  }

  // `root` is the output directory. An empty staging name means that the constructor could not make a staging
  // directory in it.
  datatype Builder = Builder(disk: Tree, root: Path, staging: Name, open: map<nat, OpenFile>, runtime: Runtime)
  {
    predicate Ready()
    {
      staging != []
    }

    function Stage(): Path
    {
      root + [staging]
    }

    function Staging(p: Path): Path
    {
      Stage() + p
    }

    function Mkdirs(p: Path): Result<Made, Error>
    {
      FileTree.Mkdirs(disk, [], Staging(p), MAX_LINKS)
    }

    function CreateDirectory(text: Bytes): (Builder, Option<Error>)
    {
      if !Ready() then (this, Some(NoSuchFileOrDirectory))
      else if !ValidText(text) then (this, Some(InvalidArgument))
      else
        match Mkdirs(Resolve(Parts(text)))
        case Err(e) => (this, Some(e))
        case Ok(m) => (this.(disk := m.tree), None)
    }

    // The buffer of one stream is written out.
    function FlushFile(id: nat): Builder
    {
      if id !in open then this
      else
        var f := open[id];
        this.(disk := WriteOut(disk, f, f.pending),
              open := open[id := OpenFile(f.path, f.position + |f.pending|, [])])
    }

    function FlushAll(order: seq<nat>): Builder
      decreases |order|
    {
      if order == [] then this else FlushFile(order[0]).FlushAll(order[1..])
    }

    // close_all
    function CloseAll(): Builder
    {
      FlushAll(runtime.closingOrder(open.Keys)).(open := map[])
    }

    // Opening follows links, truncates an existing file and creates a missing one. The new stream replaces the
    // one the id had, whose buffer is written out when it goes.
    function OpenForWriting(m: Made, name: Name, id: nat): (Builder, Option<Error>)
    {
      match Follow(m.tree, m.place.path, [name], m.place.links)
      case Err(_) => (this.(disk := m.tree), Some(FileOpenFailed))
      case Ok(place) =>
        if IsDir(m.tree, place.path) then (this.(disk := m.tree), Some(FileOpenFailed))
        else
          var b := this.(disk := m.tree[place.path := File([])]).FlushFile(id);
          (b.(open := b.open[id := OpenFile(place.path, 0, [])]), None)
    }

    function CreateFile(text: Bytes, id: nat): (Builder, Option<Error>)
    {
      if !Ready() then (this, Some(NoSuchFileOrDirectory))
      else if !ValidText(text) then (this, Some(InvalidArgument))
      else
        var parts := Parts(text);
        match Mkdirs(Resolve(parts[..|parts| - 1]))
        case Err(e) => (this, Some(e))
        case Ok(m) => OpenForWriting(m, parts[|parts| - 1], id)
    }

    function CreateSymlink(text: Bytes, target: Bytes): (Builder, Option<Error>)
    {
      if !Ready() then (this, Some(NoSuchFileOrDirectory))
      else if !ValidText(text) then (this, Some(InvalidArgument))
      else
        var parts := Parts(text);
        match Mkdirs(Resolve(parts[..|parts| - 1]))
        case Err(e) => (this, Some(e))
        case Ok(m) => PlaceLink(m, parts[|parts| - 1], target)
    }

    // A link only goes where nothing is.
    function PlaceLink(m: Made, name: Name, target: Bytes): (Builder, Option<Error>)
    {
      var entry := m.place.path + [name];
      if name == DOT || entry in m.tree then (this.(disk := m.tree), Some(FileAlreadyExists))
      else if target == [] then (this.(disk := m.tree), Some(NoSuchFileOrDirectory))
      else (this.(disk := m.tree[entry := Link(target)]), None)
    }

    // Data joins the buffer, and as much of it as the library likes goes to the file.
    function Write(data: Bytes, id: nat): (Builder, Option<Error>)
    {
      if id !in open then (this, Some(UnknownFileId))
      else
        var f := open[id];
        var all := f.pending + data;
        var n := Min(runtime.spill(f.pending, data), |all|);
        var rest := OpenFile(f.path, f.position + n, all[n..]);
        (this.(disk := WriteOut(disk, f, all[..n]), open := open[id := rest]), None)
    }

    function CloseFile(id: nat): (Builder, Option<Error>)
    {
      if id !in open then (this, Some(UnknownFileId))
      else
        var b := FlushFile(id);
        (b.(open := b.open - {id}), None)
    }

    // After a failed transfer: the streams are closed and the staging tree goes.
    function Cleanup(): Builder
    {
      if !Ready() then this
      else
        var b := CloseAll();
        b.(disk := RemoveStaging(b.disk, Stage()))
    }
  }

  // What every operation keeps

  // The walk of the table of open streams meets each of them.
  ghost predicate Orderly(runtime: Runtime)
  {
    forall ids: set<nat>, id :: id in ids ==> id in runtime.closingOrder(ids)
  }

  // The file system is well formed, the staging directory exists, and every stream writes a file.
  ghost predicate Valid(b: Builder)
  {
    && b.Ready() && Closed(b.disk) && IsDir(b.disk, b.Stage()) && Orderly(b.runtime)
    && forall id :: id in b.open ==> b.open[id].path in b.disk && b.disk[b.open[id].path].File?
  }

  ghost predicate Kept(b: Builder, r: Builder)
  {
    Valid(r) && r.root == b.root && r.staging == b.staging && r.runtime == b.runtime
  }

  // Only the contents of files differ.
  ghost predicate SameShape(d: Tree, r: Tree)
  {
    && r.Keys == d.Keys
    && forall q :: q in d ==> (d[q].File? <==> r[q].File?) && (!d[q].File? ==> r[q] == d[q])
  }

  lemma WriteOutShape(d: Tree, f: OpenFile, data: Bytes)
    ensures SameShape(d, WriteOut(d, f, data))
    ensures forall q :: q in d && (q != f.path || data == []) ==> WriteOut(d, f, data)[q] == d[q]
  {
  }

  lemma ShapeCloses(d: Tree, r: Tree)
    requires Closed(d) && SameShape(d, r)
    ensures Closed(r) && forall p :: IsDir(d, p) ==> IsDir(r, p)
  {
    forall p | p in r
      ensures p != [] && ProperName(p[|p| - 1]) && IsDir(r, Parent(p))
    {
      assert IsDir(d, Parent(p));
    }
  }

  lemma FlushKeeps(b: Builder, id: nat)
    requires Valid(b)
    ensures Kept(b, b.FlushFile(id)) && SameShape(b.disk, b.FlushFile(id).disk)
  {
    hide Closed, WriteOut;
    if id in b.open {
      WriteOutShape(b.disk, b.open[id], b.open[id].pending);
      ShapeCloses(b.disk, b.FlushFile(id).disk);
    }
  }

  lemma WriteKeeps(b: Builder, data: Bytes, id: nat)
    requires Valid(b)
    ensures Kept(b, b.Write(data, id).0) && Kept(b, b.CloseFile(id).0)
  {
    hide Closed, WriteOut;
    FlushKeeps(b, id);
    if id in b.open {
      var all := b.open[id].pending + data;
      var n := Min(b.runtime.spill(b.open[id].pending, data), |all|);
      WriteOutShape(b.disk, b.open[id], all[..n]);
      ShapeCloses(b.disk, b.Write(data, id).0.disk);
    }
  }

  // The names of an accepted path are names of entries.
  lemma AcceptedIsProper(text: Bytes)
    requires ValidText(text)
    ensures Proper(Resolve(Parts(text))) && Proper(Resolve(Parts(text)[..|Parts(text)| - 1]))
    ensures var last := Parts(text)[|Parts(text)| - 1]; last != [] && last != DOT_DOT
  {
    var parts := Parts(text);
    ProperParts(parts);
    ProperParts(parts[..|parts| - 1]);
    assert !ForbiddenPart(parts[|parts| - 1]);
  }

  lemma ProperParts(parts: seq<Name>)
    requires forall i :: 0 <= i < |parts| ==> !ForbiddenPart(parts[i])
    ensures Proper(Resolve(parts))
  {
    ResolveMembers(parts);
    forall i | 0 <= i < |Resolve(parts)|
      ensures ProperName(Resolve(parts)[i])
    {
      var name := Resolve(parts)[i];
      assert name in Resolve(parts);
      var k :| 0 <= k < |parts| && parts[k] == name;
    }
  }

  lemma StagingIsProper(b: Builder, p: Path)
    requires Valid(b) && Proper(p)
    ensures Proper(b.Staging(p))
  {
    ClosedProper(b.disk, b.Stage());
  }

  lemma MkdirsKeeps(b: Builder, p: Path)
    requires Valid(b) && Proper(p) && b.Mkdirs(p).Ok?
    ensures var m := b.Mkdirs(p).value;
            && Kept(b, b.(disk := m.tree)) && IsDir(m.tree, m.place.path) && Grown(b.disk, m.tree, m.place.path)
            && (IsDir(b.disk, m.place.path) ==> m.tree == b.disk)
            && (m.place.path in b.disk ==> IsDir(b.disk, m.place.path))
  {
    StagingIsProper(b, p);
    MkdirsMakes(b.disk, [], b.Staging(p), MAX_LINKS);
  }

  lemma PutKeeps(b: Builder, p: Path, node: Node)
    requires Valid(b) && p != [] && ProperName(p[|p| - 1]) && IsDir(b.disk, Parent(p)) && !node.Dir?
    requires p in b.disk ==> b.disk[p].File? && node.File?
    ensures Kept(b, b.(disk := b.disk[p := node]))
  {
    ClosedPut(b.disk, p, node);
  }

  lemma CreateDirectoryKeeps(b: Builder, text: Bytes)
    requires Valid(b)
    ensures Kept(b, b.CreateDirectory(text).0)
  {
    if ValidText(text) && b.Mkdirs(Resolve(Parts(text))).Ok? {
      AcceptedIsProper(text);
      MkdirsKeeps(b, Resolve(Parts(text)));
    }
  }

  // Where opening a file ends, if it can be opened.
  lemma OpensFile(b: Builder, m: Made, name: Name)
    requires Valid(b) && Valid(b.(disk := m.tree)) && IsDir(m.tree, m.place.path)
    requires Follow(m.tree, m.place.path, [name], m.place.links).Ok?
    ensures var p := Follow(m.tree, m.place.path, [name], m.place.links).value.path;
            !IsDir(m.tree, p) ==>
              p != [] && ProperName(p[|p| - 1]) && IsDir(m.tree, Parent(p)) && (p in m.tree ==> m.tree[p].File?)
  {
    FollowResolves(m.tree, m.place.path, [name], m.place.links);
  }

  // A new stream at an empty file takes the place of the one the id had.
  lemma NewStreamKeeps(a: Builder, id: nat, p: Path)
    requires Valid(a) && p in a.disk && a.disk[p].File?
    ensures var c := a.FlushFile(id);
            Kept(a, c.(open := c.open[id := OpenFile(p, 0, [])]))
  {
    FlushKeeps(a, id);
    hide Closed, IsDir, Orderly, WriteOut;
  }

  lemma OpenKeeps(b: Builder, m: Made, name: Name, id: nat)
    requires Valid(b) && Kept(b, b.(disk := m.tree)) && IsDir(m.tree, m.place.path)
    ensures Kept(b, b.OpenForWriting(m, name, id).0)
  {
    hide Valid, Follow, IsDir, Builder.FlushFile;
    var way := Follow(m.tree, m.place.path, [name], m.place.links);
    if way.Ok? && !IsDir(m.tree, way.value.path) {
      OpensFile(b, m, name);
      PutKeeps(b.(disk := m.tree), way.value.path, File([]));
      NewStreamKeeps(b.(disk := m.tree[way.value.path := File([])]), id, way.value.path);
    }
  }

  lemma CreateFileKeeps(b: Builder, text: Bytes, id: nat)
    requires Valid(b)
    ensures Kept(b, b.CreateFile(text, id).0)
  {
    hide Builder.OpenForWriting;
    var parts := Parts(text);
    if ValidText(text) && b.Mkdirs(Resolve(parts[..|parts| - 1])).Ok? {
      AcceptedIsProper(text);
      MkdirsKeeps(b, Resolve(parts[..|parts| - 1]));
      OpenKeeps(b, b.Mkdirs(Resolve(parts[..|parts| - 1])).value, parts[|parts| - 1], id);
    }
  }

  lemma LinkKeeps(b: Builder, m: Made, name: Name, target: Bytes)
    requires Valid(b) && Kept(b, b.(disk := m.tree)) && IsDir(m.tree, m.place.path)
    requires name != [] && name != DOT_DOT
    ensures Kept(b, b.PlaceLink(m, name, target).0)
  {
    var entry := m.place.path + [name];
    assert Parent(entry) == m.place.path;
    if name != DOT && entry !in m.tree {
      PutKeeps(b.(disk := m.tree), entry, Link(target));
    }
  }

  lemma CreateSymlinkKeeps(b: Builder, text: Bytes, target: Bytes)
    requires Valid(b)
    ensures Kept(b, b.CreateSymlink(text, target).0)
  {
    hide Builder.PlaceLink;
    var parts := Parts(text);
    if ValidText(text) && b.Mkdirs(Resolve(parts[..|parts| - 1])).Ok? {
      AcceptedIsProper(text);
      MkdirsKeeps(b, Resolve(parts[..|parts| - 1]));
      LinkKeeps(b, b.Mkdirs(Resolve(parts[..|parts| - 1])).value, parts[|parts| - 1], target);
    }
  }

  // Commit

  // symlink_status: the directories on the way are followed, the last name is not.
  function StatusOf(d: Tree, p: Path): Result<Option<Node>, Error>
    requires p != []
  {
    match Follow(d, [], Parent(p), MAX_LINKS)
    case Err(e) => if e == TooManyLinks then Err(e) else Ok(None)
    case Ok(place) =>
      var entry := place.path + [p[|p| - 1]];
      Ok(if IsDir(d, place.path) && entry in d then Some(d[entry]) else None)
  }

  // Committing one staged path: a directory is created, anything else is renamed into place.
  function CommitEntry(d: Tree, root: Path, stage: Path, p: Path): Result<Tree, Error>
  {
    if p == [] || stage + p !in d then Err(NoSuchFileOrDirectory)
    else
      match d[stage + p]
      case Dir => (
        match StatusOf(d, root + p)
        case Err(e) => Err(e)
        case Ok(status) =>
          if status.Some? && !status.value.Dir? then Err(FileAlreadyExists)
          else
            match FileTree.Mkdirs(d, [], root + p, MAX_LINKS)
            case Err(e) => Err(e)
            case Ok(m) => Ok(m.tree)
      )
      case node =>
        match FileTree.Mkdirs(d, [], root + Parent(p), MAX_LINKS)
        case Err(e) => Err(e)
        case Ok(m) =>
          var entry := m.place.path + [p[|p| - 1]];
          if entry in m.tree && m.tree[entry].Dir? then Err(IsADirectory)
          else Ok((m.tree - {stage + p})[entry := node])
  }

  function CommitAll(d: Tree, root: Path, stage: Path, order: seq<Path>): Result<Tree, Error>
    decreases |order|
  {
    if order == [] then Ok(d)
    else
      match CommitEntry(d, root, stage, order[0])
      case Err(e) => Err(e)
      case Ok(d1) => CommitAll(d1, root, stage, order[1..])
  }

  // The first n paths of a walk.
  function Done(order: seq<Path>, n: nat): set<Path>
    requires n <= |order|
  {
    if n == 0 then {} else Done(order, n - 1) + {order[n - 1]}
  }

  lemma {:induction false} DoneContains(order: seq<Path>, n: nat, k: nat)
    requires k < n <= |order|
    ensures order[k] in Done(order, n)
  {
    if k < n - 1 {
      DoneContains(order, n - 1, k);
    }
  }

  lemma {:induction false} DoneIndex(order: seq<Path>, n: nat, p: Path) returns (k: nat)
    requires n <= |order| && p in Done(order, n)
    ensures k < n && order[k] == p
  {
    if order[n - 1] == p {
      k := n - 1;
    } else {
      k := DoneIndex(order, n - 1, p);
    }
  }

  // The order in which a recursive directory walk yields the staged paths: each once, directories before
  // what they contain, siblings in any order.
  ghost predicate WalkOrder(order: seq<Path>, staged: Tree)
  {
    && Done(order, |order|) == staged.Keys
    && forall i :: 0 <= i < |order| ==> YieldedAt(order, i)
  }

  // The i-th path is new, and so far its directory has been yielded.
  ghost predicate YieldedAt(order: seq<Path>, i: nat)
    requires i < |order|
  {
    && order[i] !in Done(order, i)
    && (|order[i]| > 1 ==> Parent(order[i]) in Done(order, i))
  }

  // A tree put under a directory.
  function UnderKeys(root: Path, t: Tree): set<Path>
  {
    set p | p in t :: root + p
  }

  function Under(root: Path, t: Tree): Tree
  {
    map q | q in UnderKeys(root, t) :: (UnderKey(root, t, q); t[q[|root|..]])
  }

  lemma UnderKey(root: Path, t: Tree, q: Path)
    requires q in UnderKeys(root, t)
    ensures root <= q && q[|root|..] in t
  {
    var p :| p in t && root + p == q;
    assert q[|root|..] == p;
  }

  lemma UnderAt(root: Path, t: Tree, p: Path)
    ensures root + p in Under(root, t) <==> p in t
    ensures p in t ==> Under(root, t)[root + p] == t[p]
  {
    assert (root + p)[|root|..] == p;
    if p in t {
      assert root + p in UnderKeys(root, t);
    }
    if root + p in UnderKeys(root, t) {
      UnderKey(root, t, root + p);
    }
  }

  lemma UnderPut(root: Path, t: Tree, p: Path, node: Node)
    ensures Under(root, t[p := node]) == Under(root, t)[root + p := node]
  {
    hide Under;
    var r := t[p := node];
    forall q
      ensures q in Under(root, r) <==> q in Under(root, t) || q == root + p
      ensures q in Under(root, r) ==> Under(root, r)[q] == Under(root, t)[root + p := node][q]
    {
      UnderIn(root, r, q);
      UnderIn(root, t, q);
      UnderAt(root, r, if root <= q then q[|root|..] else p);
      UnderAt(root, t, if root <= q then q[|root|..] else p);
      assert root <= q ==> root + q[|root|..] == q;
      assert q == root + p ==> q[|root|..] == p;
    }
  }

  lemma UnderIn(root: Path, t: Tree, q: Path)
    ensures q in Under(root, t) ==> root <= q
  {
    if q in UnderKeys(root, t) {
      UnderKey(root, t, q);
    }
  }

  // A directory may only meet a directory, and a file or link only a file or link.
  ghost predicate Fits(visible: Tree, root: Path, staged: Tree, p: Path)
  {
    p in staged && root + p in visible ==> (staged[p].Dir? <==> visible[root + p].Dir?)
  }

  ghost predicate Compatible(visible: Tree, root: Path, staged: Tree)
  {
    forall p :: p in staged ==> Fits(visible, root, staged, p)
  }

  // The paths of `staged` among `done`.
  function Restrict(staged: Tree, done: set<Path>): Tree
  {
    map p | p in staged && p in done :: staged[p]
  }

  // No staged path runs into the staging directory's own name.
  ghost predicate NoCollision(staging: Name, staged: Tree)
  {
    forall p :: p in staged ==> p != [] && p[0] != staging
  }

  ghost predicate Committable(start: Tree, root: Path, staging: Name, order: seq<Path>)
  {
    && Closed(start) && IsDir(start, root)
    && WalkOrder(order, Staged(start, root + [staging]))
    && NoCollision(staging, Staged(start, root + [staging]))
  }

  // What is outside is what was there, overlaid with the paths done.
  ghost predicate Overlaid(start: Tree, d: Tree, root: Path, staging: Name, done: set<Path>)
  {
    var stage := root + [staging];
    Outside(d, stage) == Outside(start, stage) + Under(root, Restrict(Staged(start, stage), done))
  }

  // The staged paths not done are still there.
  ghost predicate StillStaged(start: Tree, d: Tree, stage: Path, done: set<Path>)
  {
    forall p :: p in Staged(start, stage) && p !in done ==>
      stage + p in d && d[stage + p] == Staged(start, stage)[p]
  }

  lemma ParentIsStagedDir(d: Tree, stage: Path, p: Path)
    requires Closed(d) && p in Staged(d, stage)
    ensures p != []
    ensures |p| > 1 ==> Parent(p) in Staged(d, stage) && Staged(d, stage)[Parent(p)] == Dir
  {
    StagedAt(d, stage, p);
    if |p| > 1 {
      StagedAt(d, stage, Parent(p));
      assert Parent(stage + p) == stage + Parent(p);
    }
  }

  lemma NotInside(root: Path, staging: Name, p: Path)
    requires p == [] || p[0] != staging
    ensures !Inside(root + [staging], root + p)
  {
    assert (root + [staging])[|root|] == staging;
    assert p != [] ==> (root + p)[|root|] == p[0];
  }

  lemma VisibleAt(start: Tree, d: Tree, root: Path, staging: Name, done: set<Path>, p: Path)
    requires Overlaid(start, d, root, staging, done)
    requires NoCollision(staging, Staged(start, root + [staging])) && p in Staged(start, root + [staging])
    ensures var staged, q, seen := Staged(start, root + [staging]), root + p, Outside(start, root + [staging]);
            && (p in done ==> q in d && d[q] == staged[p])
            && (p !in done ==> (q in d <==> q in seen) && (q in d ==> d[q] == seen[q]))
  {
    hide Staged, Under;
    NotInside(root, staging, p);
    UnderAt(root, Restrict(Staged(start, root + [staging]), done), p);
    assert root + p in d <==> root + p in Outside(d, root + [staging]);
  }

  // The way to the output directory stays.
  lemma RootStays(start: Tree, d: Tree, root: Path, staging: Name, done: set<Path>)
    requires Closed(start) && IsDir(start, root) && Overlaid(start, d, root, staging, done)
    requires NoCollision(staging, Staged(start, root + [staging]))
    ensures DirChain(d, root)
  {
    hide Staged, Under;
    ClosedChain(start, root);
    var stage, put := root + [staging], Restrict(Staged(start, root + [staging]), done);
    forall i | 0 <= i <= |root|
      ensures IsDir(d, root[..i])
    {
      assert IsDir(start, root[..i]);
      UnderIsLonger(root, put, root[..i]);
      if i > 0 {
        assert root[..i] in Outside(start, stage);
        assert root[..i] in Outside(d, stage);
      }
    }
  }

  lemma UnderIsLonger(root: Path, t: Tree, q: Path)
    requires [] !in t
    ensures q in Under(root, t) ==> |q| > |root|
  {
    if q in UnderKeys(root, t) {
      UnderKey(root, t, q);
      var p := q[|root|..];
      assert q == root + p;
    }
  }

  // Every directory done is reached through directories.
  lemma {:induction false} DoneChain(start: Tree, d: Tree, root: Path, staging: Name, order: seq<Path>, n: nat, k: nat)
    requires Committable(start, root, staging, order) && k < n <= |order|
    requires Overlaid(start, d, root, staging, Done(order, n))
    requires var staged := Staged(start, root + [staging]); order[k] in staged && staged[order[k]].Dir?
    ensures DirChain(d, root + order[k])
    decreases k
  {
    hide Outside, Staged, Restrict, Under, DirChain, WalkOrder, Overlaid, NoCollision, Closed;
    var q := order[k];
    DoneContains(order, n, k);
    VisibleAt(start, d, root, staging, Done(order, n), q);
    ParentIsStagedDir(start, root + [staging], q);
    YieldedHere(order, Staged(start, root + [staging]), k);
    if |q| > 1 {
      var i := DoneIndex(order, k, Parent(q));
      DoneChain(start, d, root, staging, order, n, i);
    } else {
      assert Parent(q) == [] && root + Parent(q) == root;
      RootStays(start, d, root, staging, Done(order, n));
    }
    assert Parent(root + q) == root + Parent(q);
    ChainSnoc(d, root + q);
  }

  lemma YieldedHere(order: seq<Path>, staged: Tree, k: nat)
    requires WalkOrder(order, staged) && k < |order|
    ensures |order[k]| > 1 ==> Parent(order[k]) in Done(order, k)
  {
    assert YieldedAt(order, k);
  }

  lemma ParentChain(start: Tree, d: Tree, root: Path, staging: Name, order: seq<Path>, n: nat)
    requires Committable(start, root, staging, order) && n < |order|
    requires Overlaid(start, d, root, staging, Done(order, n))
    requires order[n] in Staged(start, root + [staging])
    ensures order[n] != [] && DirChain(d, root + Parent(order[n]))
  {
    hide Outside, Staged, Restrict, Under, DirChain, WalkOrder, Overlaid, NoCollision, Closed;
    var p := order[n];
    ParentIsStagedDir(start, root + [staging], p);
    if |p| > 1 {
      YieldedHere(order, Staged(start, root + [staging]), n);
      var i := DoneIndex(order, n, Parent(p));
      DoneChain(start, d, root, staging, order, n, i);
    } else {
      assert root + Parent(p) == root;
      RootStays(start, d, root, staging, Done(order, n));
    }
  }

  lemma OrderIsStaged(staged: Tree, order: seq<Path>, n: nat)
    requires WalkOrder(order, staged) && n < |order|
    ensures order[n] in staged && order[n] !in Done(order, n)
    ensures Done(order, n + 1) == Done(order, n) + {order[n]}
  {
    DoneContains(order, |order|, n);
    assert YieldedAt(order, n);
  }

  // The disk after p was committed: a directory newly made or there already, anything else moved out of staging.
  ghost predicate Placed(d: Tree, root: Path, stage: Path, p: Path, node: Node, r: Tree)
  {
    if node.Dir? then r == d[root + p := node] || (r == d && root + p in d && d[root + p] == node)
    else r == (d - {stage + p})[root + p := node]
  }

  // With directories all the way, one entry is committed exactly if it meets nothing or its own kind.
  lemma CommitPlaces(d: Tree, root: Path, stage: Path, p: Path)
    requires p != [] && stage + p in d && DirChain(d, root + Parent(p)) && Proper(root + Parent(p))
    ensures var r := CommitEntry(d, root, stage, p);
            && (r.Ok? <==> (root + p in d ==> (d[stage + p].Dir? <==> d[root + p].Dir?)))
            && (r.Ok? ==> Placed(d, root, stage, p, d[stage + p], r.value))
  {
    var parent, q := root + Parent(p), root + p;
    assert Parent(q) == parent && parent + [p[|p| - 1]] == q;
    MkdirsOnDirs(d, parent);
    FollowOnDirs(d, parent);
    assert IsDir(d, parent[..|parent|]) && parent[..|parent|] == parent;
    if d[stage + p].Dir? && (q in d ==> d[q].Dir?) {
      LastMade(d, q);
    }
  }

  // What was committed has left staging, unless it is a directory.
  lemma CommitMoves(d: Tree, root: Path, staging: Name, p: Path)
    requires var stage := root + [staging];
             p != [] && stage + p in d && DirChain(d, root + Parent(p)) && Proper(root + Parent(p))
    ensures var stage := root + [staging];
            var r := CommitEntry(d, root, stage, p);
            r.Ok? ==> (stage + p !in r.value <==> !d[stage + p].Dir?)
  {
    hide CommitEntry, DirChain, Proper;
    CommitPlaces(d, root, root + [staging], p);
    assert |root + [staging] + p| != |root + p|;
  }

  // Only the last component is missing, or it is a directory too.
  lemma LastMade(d: Tree, q: Path)
    requires q != [] && DirChain(d, Parent(q)) && (q in d ==> d[q].Dir?)
    ensures var r := FileTree.Mkdirs(d, [], q, MAX_LINKS);
            r.Ok? && r.value.place.path == q && r.value.tree == if q in d then d else d[q := Dir]
  {
    if q in d {
      ChainSnoc(d, q);
      MkdirsOnDirs(d, q);
    } else {
      MkdirsLast(d, q);
    }
  }

  lemma {:induction false} CommitRest(start: Tree, d: Tree, root: Path, staging: Name, order: seq<Path>, n: nat)
    requires Committable(start, root, staging, order) && n <= |order|
    requires Overlaid(start, d, root, staging, Done(order, n))
    requires StillStaged(start, d, root + [staging], Done(order, n))
    ensures var r := CommitAll(d, root, root + [staging], order[n..]);
            && (r.Ok? <==> FitsFrom(start, root, staging, order, n))
            && (r.Ok? ==> Overlaid(start, r.value, root, staging, Done(order, |order|)))
    decreases |order| - n
  {
    hide Overlaid, StillStaged, Committable, Fits, CommitEntry;
    if n < |order| {
      CommitNext(start, d, root, staging, order, n);
      var r := CommitEntry(d, root, root + [staging], order[n]);
      assert order[n..][1..] == order[n + 1..];
      assert FitsFrom(start, root, staging, order, n) <==>
             Fits(Outside(start, root + [staging]), root, Staged(start, root + [staging]), order[n])
             && FitsFrom(start, root, staging, order, n + 1);
      if r.Ok? {
        CommitRest(start, r.value, root, staging, order, n + 1);
      }
    }
  }

  ghost predicate FitsFrom(start: Tree, root: Path, staging: Name, order: seq<Path>, n: nat)
  {
    forall j :: n <= j < |order| ==>
      Fits(Outside(start, root + [staging]), root, Staged(start, root + [staging]), order[j])
  }

  lemma WayIsProper(d: Tree, root: Path, stage: Path, p: Path)
    requires Closed(d) && IsDir(d, root) && p in Staged(d, stage)
    ensures p != [] && Proper(root + Parent(p))
  {
    StagedAt(d, stage, p);
    ClosedProper(d, root);
    ClosedProper(d, stage + p);
    assert forall i :: 0 <= i < |Parent(p)| ==> Parent(p)[i] == (stage + p)[|stage| + i];
  }

  // Committing the next entry succeeds exactly when it fits what is visible at its path.
  lemma CommitNext(start: Tree, d: Tree, root: Path, staging: Name, order: seq<Path>, n: nat)
    requires Committable(start, root, staging, order) && n < |order|
    requires Overlaid(start, d, root, staging, Done(order, n))
    requires StillStaged(start, d, root + [staging], Done(order, n))
    ensures var stage := root + [staging];
            var r, done := CommitEntry(d, root, stage, order[n]), Done(order, n + 1);
            && (r.Ok? <==> Fits(Outside(start, stage), root, Staged(start, stage), order[n]))
            && (r.Ok? ==> Overlaid(start, r.value, root, staging, done) && StillStaged(start, r.value, stage, done))
  {
    hide Outside, Staged, Restrict, Under, WalkOrder, DirChain, CommitEntry, Overlaid, Placed, Closed, NoCollision;
    var stage, p := root + [staging], order[n];
    OrderIsStaged(Staged(start, stage), order, n);
    ParentChain(start, d, root, staging, order, n);
    VisibleAt(start, d, root, staging, Done(order, n), p);
    WayIsProper(start, root, stage, p);
    CommitPlaces(d, root, stage, p);
    var r := CommitEntry(d, root, stage, p);
    if r.Ok? {
      PutVisible(start, d, root, staging, Done(order, n), p, r.value);
    }
  }

  lemma PutVisible(start: Tree, d: Tree, root: Path, staging: Name, done: set<Path>, p: Path, r: Tree)
    requires var stage := root + [staging];
             && NoCollision(staging, Staged(start, stage)) && p in Staged(start, stage)
             && Overlaid(start, d, root, staging, done) && StillStaged(start, d, stage, done)
             && Placed(d, root, stage, p, Staged(start, stage)[p], r)
    ensures Overlaid(start, r, root, staging, done + {p})
    ensures StillStaged(start, r, root + [staging], done + {p})
  {
    hide Staged, Outside, Restrict, Under, StillStaged, NoCollision;
    var stage, node := root + [staging], Staged(start, root + [staging])[p];
    StagedNames(staging, Staged(start, stage), p);
    RestrictMore(Staged(start, stage), done, p);
    UnderPut(root, Restrict(Staged(start, stage), done), p, node);
    NotInside(root, staging, p);
    PutOutside(d, root, stage, p, node);
    OthersStayStaged(start, d, root, staging, done, p, r);
  }

  lemma StagedNames(staging: Name, staged: Tree, p: Path)
    requires NoCollision(staging, staged) && p in staged
    ensures p != [] && p[0] != staging
  {
  }

  lemma OthersStayStaged(start: Tree, d: Tree, root: Path, staging: Name, done: set<Path>, p: Path, r: Tree)
    requires var stage := root + [staging];
             && NoCollision(staging, Staged(start, stage)) && p in Staged(start, stage)
             && StillStaged(start, d, stage, done) && Placed(d, root, stage, p, Staged(start, stage)[p], r)
    ensures StillStaged(start, r, root + [staging], done + {p})
  {
    hide Staged;
    var stage := root + [staging];
    NotInside(root, staging, p);
    forall q | q in Staged(start, stage) && q !in done + {p}
      ensures stage + q in r && r[stage + q] == Staged(start, stage)[q]
    {
      if stage + q == stage + p {
        SamePrefix(stage, q, p);
      }
      assert Inside(stage, stage + q);
    }
  }

  lemma RestrictMore(staged: Tree, done: set<Path>, p: Path)
    requires p in staged
    ensures Restrict(staged, done + {p}) == Restrict(staged, done)[p := staged[p]]
  {
  }

  lemma PutOutside(d: Tree, root: Path, stage: Path, p: Path, node: Node)
    requires !Inside(stage, root + p)
    ensures Outside((d - {stage + p})[root + p := node], stage) == Outside(d, stage)[root + p := node]
    ensures Outside(d[root + p := node], stage) == Outside(d, stage)[root + p := node]
    ensures root + p in d && d[root + p] == node ==> Outside(d, stage)[root + p := node] == Outside(d, stage)
  {
  }

  // Commit is an overlay. Over any walk order of the staged tree it succeeds exactly when every staged path
  // meets nothing or something of its own kind; then each staged path has the staged node under the output
  // directory, every other path of the file system keeps its old one, and the order of the walk does not
  // matter.
  lemma CommitIsOverlay(d: Tree, root: Path, staging: Name, order: seq<Path>)
    requires Closed(d) && IsDir(d, root)
    requires WalkOrder(order, Staged(d, root + [staging])) && NoCollision(staging, Staged(d, root + [staging]))
    ensures var stage := root + [staging];
            var r := CommitAll(d, root, stage, order);
            && (r.Ok? <==> Compatible(Outside(d, stage), root, Staged(d, stage)))
            && (r.Ok? ==> RemoveStaging(r.value, stage) == Outside(d, stage) + Under(root, Staged(d, stage)))
  {
    var stage := root + [staging];
    assert Done(order, |order|) == Staged(d, stage).Keys;
    hide Staged, Outside, WalkOrder, CommitAll, Compatible, Closed, NoCollision, Restrict, FitsFrom, StillStaged, Under;
    CommitStarts(d, root, staging);
    assert order[0..] == order;
    CommitRest(d, d, root, staging, order, 0);
    FitsFromIsCompatible(d, root, staging, order);
    RestrictAll(Staged(d, stage));
  }

  lemma RestrictAll(staged: Tree)
    ensures Restrict(staged, staged.Keys) == staged
  {
  }

  lemma CommitStarts(d: Tree, root: Path, staging: Name)
    ensures Overlaid(d, d, root, staging, {}) && StillStaged(d, d, root + [staging], {})
  {
    hide Staged, Outside;
    var stage := root + [staging];
    assert Restrict(Staged(d, stage), {}) == map[];
    assert Under(root, map[]) == map[];
    hide Restrict, Under;
    forall p | p in Staged(d, stage)
      ensures stage + p in d && d[stage + p] == Staged(d, stage)[p]
    {
      StagedAt(d, stage, p);
    }
  }

  lemma FitsFromIsCompatible(d: Tree, root: Path, staging: Name, order: seq<Path>)
    requires WalkOrder(order, Staged(d, root + [staging]))
    ensures FitsFrom(d, root, staging, order, 0) <==>
            Compatible(Outside(d, root + [staging]), root, Staged(d, root + [staging]))
  {
    hide Staged, Outside, Fits;
    var staged, visible := Staged(d, root + [staging]), Outside(d, root + [staging]);
    forall j | 0 <= j < |order|
      ensures order[j] in staged
    {
      DoneContains(order, |order|, j);
    }
    if FitsFrom(d, root, staging, order, 0) {
      forall p | p in staged
        ensures Fits(visible, root, staged, p)
      {
        var j := DoneIndex(order, |order|, p);
        assert Fits(visible, root, staged, order[j]);
      }
    }
  }

  // The object

  class FileBuilder {
    const root: Path
    const runtime: Runtime
    var disk: Tree
    var staging: Name
    var openFiles: map<nat, OpenFile>

    ghost function State(): Builder
      reads this
    {
      Builder(disk, root, staging, openFiles, runtime)
    }

    // A staging directory under a fresh name in the output directory.
    constructor (disk: Tree, root: Path, staging: Name, runtime: Runtime)
      requires Closed(disk) && IsDir(disk, root) && Orderly(runtime)
      requires ProperName(staging) && root + [staging] !in disk
      ensures Valid(State())
      ensures State() == Builder(disk[root + [staging] := Dir], root, staging, map[], runtime)
    {
      this.disk := disk[root + [staging] := Dir];
      this.root, this.staging, this.runtime := root, staging, runtime;
      openFiles := map[];
      new;
      assert Parent(root + [staging]) == root;
      ClosedPut(disk, root + [staging], Dir);
    }

    // The scan of validate_relative_path.
    method ValidateRelativePath(text: Bytes) returns (error: Option<Error>)
      ensures error == if ValidText(text) then None else Some(InvalidArgument)
    {
      if |text| == 0 || text[0] == SLASH {
        return Some(InvalidArgument);
      }
      var parts := Parts(text);
      for i := 0 to |parts|
        invariant forall j :: 0 <= j < i ==> !ForbiddenPart(parts[j])
      {
        if ForbiddenPart(parts[i]) {
          return Some(InvalidArgument);
        }
      }
      return None;
    }

    method CreateDirectory(text: Bytes) returns (error: Option<Error>)
      modifies this`disk
      ensures (State(), error) == old(State()).CreateDirectory(text)
    {
      if staging == [] {
        return Some(NoSuchFileOrDirectory);
      }
      error := ValidateRelativePath(text);
      if error.Some? {
        return;
      }
      match FileTree.Mkdirs(disk, [], root + [staging] + Resolve(Parts(text)), MAX_LINKS)
      case Err(e) => return Some(e);
      case Ok(m) =>
        disk := m.tree;
        return None;
    }

    method FlushFile(id: nat)
      modifies this`disk, this`openFiles
      ensures State() == old(State()).FlushFile(id)
    {
      if id !in openFiles {
        return;
      }
      var f := openFiles[id];
      disk := WriteOut(disk, f, f.pending);
      openFiles := openFiles[id := OpenFile(f.path, f.position + |f.pending|, [])];
    }

    method CreateFile(text: Bytes, id: nat) returns (error: Option<Error>)
      modifies this`disk, this`openFiles
      ensures (State(), error) == old(State()).CreateFile(text, id)
    {
      if staging == [] {
        return Some(NoSuchFileOrDirectory);
      }
      error := ValidateRelativePath(text);
      if error.Some? {
        return;
      }
      var parts := Parts(text);
      var made := FileTree.Mkdirs(disk, [], root + [staging] + Resolve(parts[..|parts| - 1]), MAX_LINKS);
      if made.Err? {
        return Some(made.error);
      }
      var m := made.value;
      disk := m.tree;
      var way := Follow(m.tree, m.place.path, [parts[|parts| - 1]], m.place.links);
      if way.Err? || IsDir(m.tree, way.value.path) {
        return Some(FileOpenFailed);
      }
      disk := disk[way.value.path := File([])];
      FlushFile(id);
      openFiles := openFiles[id := OpenFile(way.value.path, 0, [])];
      return None;
    }

    method CreateSymlink(text: Bytes, target: Bytes) returns (error: Option<Error>)
      modifies this`disk
      ensures (State(), error) == old(State()).CreateSymlink(text, target)
    {
      if staging == [] {
        return Some(NoSuchFileOrDirectory);
      }
      error := ValidateRelativePath(text);
      if error.Some? {
        return;
      }
      var parts := Parts(text);
      var made := FileTree.Mkdirs(disk, [], root + [staging] + Resolve(parts[..|parts| - 1]), MAX_LINKS);
      if made.Err? {
        return Some(made.error);
      }
      disk := made.value.tree;
      var last := parts[|parts| - 1];
      var entry := made.value.place.path + [last];
      if last == DOT || entry in disk {
        return Some(FileAlreadyExists);
      }
      if target == [] {
        return Some(NoSuchFileOrDirectory);
      }
      disk := disk[entry := Link(target)];
      return None;
    }

    method Write(data: Bytes, id: nat) returns (error: Option<Error>)
      modifies this`disk, this`openFiles
      ensures (State(), error) == old(State()).Write(data, id)
    {
      if id !in openFiles {
        return Some(UnknownFileId);
      }
      var f := openFiles[id];
      var all := f.pending + data;
      var n := Min(runtime.spill(f.pending, data), |all|);
      disk := WriteOut(disk, f, all[..n]);
      openFiles := openFiles[id := OpenFile(f.path, f.position + n, all[n..])];
      return None;
    }

    method CloseFile(id: nat) returns (error: Option<Error>)
      modifies this`disk, this`openFiles
      ensures (State(), error) == old(State()).CloseFile(id)
    {
      if id !in openFiles {
        return Some(UnknownFileId);
      }
      FlushFile(id);
      openFiles := openFiles - {id};
      return None;
    }

    method CloseAll()
      modifies this`disk, this`openFiles
      ensures State() == old(State()).CloseAll()
    {
      var order := runtime.closingOrder(openFiles.Keys);
      ghost var whole := State().FlushAll(order);
      assert order[0..] == order;
      for i := 0 to |order|
        invariant State().FlushAll(order[i..]) == whole
      {
        assert order[i..][1..] == order[i + 1..];
        FlushFile(order[i]);
      }
      openFiles := map[];
    }

    // `order` is what the recursive iterator over the staging directory yields. The last clause is
    // CommitIsOverlay for this call.
    method Commit(order: seq<Path>) returns (error: Option<Error>)
      modifies this`disk, this`openFiles
      ensures old(staging) == [] ==> error == Some(NoSuchFileOrDirectory) && State() == old(State())
      ensures old(staging) != [] ==>
                var b := old(State()).CloseAll();
                && openFiles == map[]
                && match CommitAll(b.disk, root, b.Stage(), order)
                   case Ok(d) => error.None? && disk == RemoveStaging(d, b.Stage())
                   case Err(e) => error == Some(e)
      ensures var b := old(State()).CloseAll();
              old(staging) != [] && Closed(b.disk) && IsDir(b.disk, root)
              && WalkOrder(order, Staged(b.disk, b.Stage())) && NoCollision(staging, Staged(b.disk, b.Stage())) ==>
                && (error.None? <==> Compatible(Outside(b.disk, b.Stage()), root, Staged(b.disk, b.Stage())))
                && (error.None? ==> disk == Outside(b.disk, b.Stage()) + Under(root, Staged(b.disk, b.Stage())))
    {
      hide Closed, WalkOrder, NoCollision, Compatible, Staged, Outside, CommitEntry, Under, Builder.CloseAll;
      if staging == [] {
        return Some(NoSuchFileOrDirectory);
      }
      ghost var b := State().CloseAll();
      ClosingKeeps(State());
      CloseAll();
      ghost var all := CommitAll(disk, root, root + [staging], order);
      if Closed(disk) && IsDir(disk, root) && WalkOrder(order, Staged(disk, root + [staging]))
         && NoCollision(staging, Staged(disk, root + [staging])) {
        CommitIsOverlay(disk, root, staging, order);
      }
      for i := 0 to |order|
        invariant staging == old(staging) && openFiles == map[]
        invariant CommitAll(disk, root, root + [staging], order[i..]) == all
      {
        assert order[i..][1..] == order[i + 1..];
        var step := CommitEntry(disk, root, root + [staging], order[i]);
        if step.Err? {
          return Some(step.error);
        }
        disk := step.value;
      }
      disk := RemoveStaging(disk, root + [staging]);
      return None;
    }

    method Cleanup()
      modifies this`disk, this`openFiles
      ensures State() == old(State()).Cleanup()
    {
      if staging == [] {
        return;
      }
      CloseAll();
      disk := RemoveStaging(disk, root + [staging]);
    }
  }

  lemma {:induction false} FlushAllKeepsRest(b: Builder, order: seq<nat>)
    ensures var r := b.FlushAll(order);
            r.root == b.root && r.staging == b.staging && r.runtime == b.runtime
    decreases |order|
  {
    if order != [] {
      FlushAllKeepsRest(b.FlushFile(order[0]), order[1..]);
    }
  }

  lemma ClosingKeeps(b: Builder)
    ensures var r := b.CloseAll();
            r.root == b.root && r.staging == b.staging && r.runtime == b.runtime && r.open == map[]
  {
    FlushAllKeepsRest(b, b.runtime.closingOrder(b.open.Keys));
  }
}
