/** The file system as a map from absolute paths to nodes, with symbolic links followed as the kernel does. */
module FileTree {
  import opened Basics
  import opened Ftp
  import opened Paths

  datatype Node = Dir | File(content: Bytes) | Link(target: Bytes)

  // The root, the empty path, is not listed.
  type Tree = map<Path, Node>

  // How many links one resolution may follow.
  const MAX_LINKS: nat := 40

  function Parent(p: Path): Path
    requires p != []
  {
    p[..|p| - 1]
  }

  predicate IsDir(d: Tree, p: Path)
  {
    p == [] || (p in d && d[p].Dir?)
  }

  // A name an entry of a directory can have.
  predicate ProperName(name: Name)
  {
    name != [] && name != DOT && name != DOT_DOT
  }

  ghost predicate Proper(names: seq<Name>)
  {
    forall i :: 0 <= i < |names| ==> ProperName(names[i])
  }

  // Every node has a name and sits in a directory.
  ghost predicate Closed(d: Tree)
  {
    forall p :: p in d ==> p != [] && ProperName(p[|p| - 1]) && IsDir(d, Parent(p))
  }

  // Resolution

  // Where a resolution ended, and how many more links it could have followed.
  datatype Place = Place(path: Path, links: nat)

  // A link's target is read from its own directory, or from the root if it starts with a slash.
  function Base(target: Bytes, dir: Path): Path
  {
    if target != [] && target[0] == SLASH then [] else dir
  }

  function Steps(target: Bytes): seq<Name>
  {
    Parts(SkipSlashes(target))
  }

  // The names read one after the other from a directory, every link followed. The last one may be missing; what
  // is in between must be a directory.
  function Follow(d: Tree, dir: Path, names: seq<Name>, links: nat): Result<Place, Error>
    decreases links, |names|
  {
    if names == [] then Ok(Place(dir, links))
    else
      var name, rest := names[0], names[1..];
      if name == [] || name == DOT then Follow(d, dir, rest, links)
      else if name == DOT_DOT then Follow(d, if dir == [] then [] else Parent(dir), rest, links)
      else
        var next := dir + [name];
        if next !in d then (if rest == [] then Ok(Place(next, links)) else Err(NoSuchFileOrDirectory))
        else
          match d[next]
          case Dir => Follow(d, next, rest, links)
          case File(_) => if rest == [] then Ok(Place(next, links)) else Err(NotADirectory)
          case Link(target) =>
            if links == 0 then Err(TooManyLinks)
            else Follow(d, Base(target, dir), Steps(target) + rest, links - 1)
  }

  // A resolution ends at a directory, at a file, or at a missing entry of a directory.
  ghost predicate Resolved(d: Tree, p: Path)
  {
    IsDir(d, p) || (p != [] && ProperName(p[|p| - 1]) && IsDir(d, Parent(p)) && (p in d ==> d[p].File?))
  }

  lemma {:induction false} FollowResolves(d: Tree, dir: Path, names: seq<Name>, links: nat)
    requires Closed(d) && IsDir(d, dir)
    ensures Follow(d, dir, names, links).Ok? ==> Resolved(d, Follow(d, dir, names, links).value.path)
    decreases links, |names|
  {
    if names != [] {
      var name, rest := names[0], names[1..];
      var next := dir + [name];
      assert Parent(next) == dir;
      if name == [] || name == DOT {
        FollowResolves(d, dir, rest, links);
      } else if name == DOT_DOT {
        FollowResolves(d, if dir == [] then [] else Parent(dir), rest, links);
      } else if next in d && d[next].Dir? {
        FollowResolves(d, next, rest, links);
      } else if next in d && d[next].Link? && links > 0 {
        FollowResolves(d, Base(d[next].target, dir), Steps(d[next].target) + rest, links - 1);
      }
    }
  }

  // create_directories

  datatype Made = Made(tree: Tree, place: Place)

  function MakeAll(d: Tree, dir: Path, names: seq<Name>): Tree
    decreases |names|
  {
    if names == [] then d else MakeAll(d[dir + [names[0]] := Dir], dir + [names[0]], names[1..])
  }

  // Every component leads to a directory, or is missing and is created with all that follow it.
  function Mkdirs(d: Tree, dir: Path, names: seq<Name>, links: nat): Result<Made, Error>
    decreases |names|
  {
    if names == [] then Ok(Made(d, Place(dir, links)))
    else
      var next := dir + [names[0]];
      if next !in d then Ok(Made(MakeAll(d, dir, names), Place(dir + names, links)))
      else
        match d[next]
        case Dir => Mkdirs(d, next, names[1..], links)
        case File(_) => Err(NotADirectory)
        case Link(target) =>
          if links == 0 then Err(TooManyLinks)
          else
            match Follow(d, Base(target, dir), Steps(target), links - 1)
            case Err(e) => Err(if e == TooManyLinks then e else FileAlreadyExists)
            case Ok(place) =>
              if IsDir(d, place.path) then Mkdirs(d, place.path, names[1..], place.links)
              else Err(if place.path in d then NotADirectory else FileAlreadyExists)
  }

  // Directories were added, all of them on the way to p, and nothing else changed.
  ghost predicate Grown(d: Tree, r: Tree, p: Path)
  {
    && (forall q :: q in d ==> q in r && r[q] == d[q])
    && (forall q :: q in r && q !in d ==> r[q] == Dir && q != [] && q <= p)
  }

  // Nothing lies at p or below it.
  ghost predicate Bare(d: Tree, p: Path)
  {
    forall q :: q in d ==> !(p <= q)
  }

  lemma {:induction false} NotBelow(d: Tree, p: Path, q: Path)
    requires Closed(d) && p != [] && p !in d && p <= q
    ensures q !in d
    decreases |q|
  {
    if q != p {
      assert p <= Parent(q);
      NotBelow(d, p, Parent(q));
    }
  }

  lemma MissingIsBare(d: Tree, p: Path)
    requires Closed(d) && p != [] && p !in d
    ensures Bare(d, p)
  {
    forall q | q in d
      ensures !(p <= q)
    {
      if p <= q {
        NotBelow(d, p, q);
      }
    }
  }

  lemma OneDown(d: Tree, p: Path, name: Name)
    requires Bare(d, p)
    ensures Bare(d[p := Dir], p + [name])
  {
    var d1 := d[p := Dir];
    forall q | q in d1
      ensures !(p + [name] <= q)
    {
      assert p + [name] <= q ==> p <= q;
    }
  }

  lemma GrownBy(d: Tree, next: Path, r: Tree, p: Path)
    requires next !in d && next != [] && next <= p && Grown(d[next := Dir], r, p)
    ensures Grown(d, r, p)
  {
  }

  lemma {:induction false} MakeAllMakes(d: Tree, dir: Path, names: seq<Name>)
    requires Closed(d) && IsDir(d, dir) && names != [] && Proper(names) && Bare(d, dir + [names[0]])
    ensures var r := MakeAll(d, dir, names);
            Closed(r) && IsDir(r, dir + names) && Grown(d, r, dir + names)
    decreases |names|
  {
    hide Closed, Grown;
    var next := dir + [names[0]];
    var d1 := d[next := Dir];
    assert Parent(next) == dir;
    ClosedPut(d, next, Dir);
    assert next !in d;
    assert next + names[1..] == dir + names;
    if |names| > 1 {
      OneDown(d, next, names[1]);
      MakeAllMakes(d1, next, names[1..]);
    } else {
      assert names[1..] == [] && dir + names == next;
      assert MakeAll(d1, next, names[1..]) == d1;
      GrownNow(d1, next);
    }
    assert MakeAll(d, dir, names) == MakeAll(d1, next, names[1..]);
    GrownBy(d, next, MakeAll(d1, next, names[1..]), dir + names);
  }

  lemma GrownNow(d: Tree, p: Path)
    ensures Grown(d, d, p)
  {
  }

  lemma FreshIsMissing(d: Tree, dir: Path, names: seq<Name>)
    requires Closed(d) && IsDir(d, dir) && names != [] && Proper(names) && dir + [names[0]] !in d
    ensures var r := MakeAll(d, dir, names);
            && Closed(r) && IsDir(r, dir + names) && Grown(d, r, dir + names)
            && dir + names !in d
  {
    MissingIsBare(d, dir + [names[0]]);
    MakeAllMakes(d, dir, names);
    assert dir + [names[0]] <= dir + names;
  }

  // Creating a directory path leaves the tree well formed, makes it lead to a directory, and adds only
  // directories on the way to it - none, if it led to one before.
  lemma {:induction false} MkdirsMakes(d: Tree, dir: Path, names: seq<Name>, links: nat)
    requires Closed(d) && IsDir(d, dir) && Proper(names) && Mkdirs(d, dir, names, links).Ok?
    ensures var m := Mkdirs(d, dir, names, links).value;
            && Closed(m.tree) && IsDir(m.tree, m.place.path) && Grown(d, m.tree, m.place.path)
            && (IsDir(d, m.place.path) ==> m.tree == d)
            && (m.place.path in d ==> IsDir(d, m.place.path))
    decreases |names|
  {
    if names != [] {
      var next := dir + [names[0]];
      if next !in d {
        FreshIsMissing(d, dir, names);
      } else if d[next].Dir? {
        MkdirsMakes(d, next, names[1..], links);
      } else {
        var place := Follow(d, Base(d[next].target, dir), Steps(d[next].target), links - 1).value;
        MkdirsMakes(d, place.path, names[1..], place.links);
      }
    }
  }

  lemma ClosedPut(d: Tree, p: Path, node: Node)
    requires Closed(d) && p != [] && ProperName(p[|p| - 1]) && IsDir(d, Parent(p))
    requires p in d ==> (d[p].Dir? ==> node.Dir?)
    ensures Closed(d[p := node])
  {
    var r := d[p := node];
    forall q | q in r
      ensures q != [] && ProperName(q[|q| - 1]) && IsDir(r, Parent(q))
    {
      assert q != p ==> IsDir(d, Parent(q));
      if q != p && Parent(q) == p {
        assert p in d && d[p].Dir?;
      }
    }
  }

  // The first n components lead to a directory in which the next one is free, if there is one.
  ghost predicate LeadsFreely(d: Tree, dir: Path, names: seq<Name>, links: nat, n: nat)
    requires n <= |names|
  {
    && Follow(d, dir, names[..n], links).Ok?
    && var place := Follow(d, dir, names[..n], links).value;
    && IsDir(d, place.path)
    && (n < |names| ==> place.path + [names[n]] !in d)
  }

  lemma UpIsDir(d: Tree, dir: Path)
    requires Closed(d) && IsDir(d, dir)
    ensures IsDir(d, [])
    ensures dir != [] ==> IsDir(d, Parent(dir))
  {
  }

  // Following two stretches of names is following one after the other.
  lemma {:induction false} FollowConcat(d: Tree, dir: Path, first: seq<Name>, second: seq<Name>, links: nat)
    requires Closed(d) && IsDir(d, dir) && second != []
    ensures var whole, start := Follow(d, dir, first + second, links), Follow(d, dir, first, links);
            if start.Err? then whole.Err?
            else if IsDir(d, start.value.path) then whole == Follow(d, start.value.path, second, start.value.links)
            else whole.Err?
    decreases links, |first|
  {
    hide Closed;
    UpIsDir(d, dir);
    if first == [] {
      assert first + second == second;
    } else {
      var name, rest := first[0], first[1..];
      assert (first + second)[0] == name && (first + second)[1..] == rest + second;
      var next := dir + [name];
      if name == [] || name == DOT {
        FollowConcat(d, dir, rest, second, links);
      } else if name == DOT_DOT {
        FollowConcat(d, if dir == [] then [] else Parent(dir), rest, second, links);
      } else if next in d && d[next].Dir? {
        FollowConcat(d, next, rest, second, links);
      } else if next in d && d[next].Link? && links > 0 {
        var steps := Steps(d[next].target);
        assert steps + rest + second == steps + (rest + second);
        FollowConcat(d, Base(d[next].target, dir), steps + rest, second, links - 1);
      }
    }
  }

  // Making the directories of a path whose first name is taken starts by following that name.
  lemma MkdirsStep(d: Tree, dir: Path, names: seq<Name>, links: nat)
    requires names != [] && Proper(names) && dir + [names[0]] in d
    ensures var first := Follow(d, dir, [names[0]], links);
            if first.Ok? && IsDir(d, first.value.path) then
              Mkdirs(d, dir, names, links) == Mkdirs(d, first.value.path, names[1..], first.value.links)
            else Mkdirs(d, dir, names, links).Err?
  {
    var next := dir + [names[0]];
    assert forall one: seq<Name> :: |one| == 1 ==> one[1..] == [];
    if d[next].Link? && links > 0 {
      assert Steps(d[next].target) + [] == Steps(d[next].target);
    }
  }

  lemma LeadsShift(d: Tree, dir: Path, names: seq<Name>, links: nat, n: nat)
    requires Closed(d) && IsDir(d, dir) && 0 < n <= |names|
    ensures var first := Follow(d, dir, [names[0]], links);
            LeadsFreely(d, dir, names, links, n) <==>
              && first.Ok? && IsDir(d, first.value.path)
              && LeadsFreely(d, first.value.path, names[1..], first.value.links, n - 1)
    ensures var first := Follow(d, dir, [names[0]], links);
            LeadsFreely(d, dir, names, links, n) ==>
              Follow(d, dir, names[..n], links) == Follow(d, first.value.path, names[1..][..n - 1], first.value.links)
  {
    assert names[..n] == [names[0]] + names[1..][..n - 1];
    if n > 1 {
      FollowConcat(d, dir, [names[0]], names[1..][..n - 1], links);
    } else {
      assert names[..1] == [names[0]];
    }
  }

  lemma {:induction false} MkdirsLeads(d: Tree, dir: Path, names: seq<Name>, links: nat) returns (n: nat)
    requires Closed(d) && IsDir(d, dir) && Proper(names) && Mkdirs(d, dir, names, links).Ok?
    ensures n <= |names| && LeadsFreely(d, dir, names, links, n)
    ensures Mkdirs(d, dir, names, links).value.place.path ==
            Follow(d, dir, names[..n], links).value.path + names[n..]
    decreases |names|
  {
    if names == [] || dir + [names[0]] !in d {
      n := 0;
      assert names[..0] == [] && names[0..] == names;
    } else {
      MkdirsStep(d, dir, names, links);
      var first := Follow(d, dir, [names[0]], links).value;
      var m := MkdirsLeads(d, first.path, names[1..], first.links);
      n := m + 1;
      LeadsShift(d, dir, names, links, n);
      assert names[1..][m..] == names[n..];
    }
  }

  lemma {:induction false} LeadsMkdirs(d: Tree, dir: Path, names: seq<Name>, links: nat, n: nat)
    requires Closed(d) && IsDir(d, dir) && Proper(names)
    requires n <= |names| && LeadsFreely(d, dir, names, links, n)
    ensures Mkdirs(d, dir, names, links).Ok?
    decreases |names|
  {
    if n == 0 {
      assert names[..0] == [];
    } else {
      LeadsShift(d, dir, names, links, n);
      TakenIfDirectory(d, dir, names[0], links);
      MkdirsStep(d, dir, names, links);
      var first := Follow(d, dir, [names[0]], links).value;
      LeadsMkdirs(d, first.path, names[1..], first.links, n - 1);
    }
  }

  lemma TakenIfDirectory(d: Tree, dir: Path, name: Name, links: nat)
    requires ProperName(name)
    requires Follow(d, dir, [name], links).Ok? && IsDir(d, Follow(d, dir, [name], links).value.path)
    ensures dir + [name] in d
  {
    assert Follow(d, dir + [name], [], links) == Ok(Place(dir + [name], links));
  }

  // create_directories succeeds exactly when, every link followed, some number of components leads to a
  // directory in which the next one is free, or all of them lead to one.
  lemma MkdirsSucceedsIff(d: Tree, dir: Path, names: seq<Name>, links: nat)
    requires Closed(d) && IsDir(d, dir) && Proper(names)
    ensures Mkdirs(d, dir, names, links).Ok? <==> exists n: nat :: n <= |names| && LeadsFreely(d, dir, names, links, n)
  {
    if Mkdirs(d, dir, names, links).Ok? {
      var n := MkdirsLeads(d, dir, names, links);
    }
    forall n: nat | n <= |names| && LeadsFreely(d, dir, names, links, n)
      ensures Mkdirs(d, dir, names, links).Ok?
    {
      LeadsMkdirs(d, dir, names, links, n);
    }
  }

  // Paths without links

  // p and everything above it are directories.
  ghost predicate DirChain(d: Tree, p: Path)
  {
    forall i :: 0 <= i <= |p| ==> IsDir(d, p[..i])
  }

  lemma {:induction false} ClosedChain(d: Tree, p: Path)
    requires Closed(d) && IsDir(d, p)
    ensures DirChain(d, p)
    decreases |p|
  {
    if p != [] {
      ClosedChain(d, Parent(p));
      ChainSnoc(d, p);
    } else {
      assert p[..0] == [];
    }
  }

  lemma ChainSnoc(d: Tree, p: Path)
    requires p != [] && DirChain(d, Parent(p)) && IsDir(d, p)
    ensures DirChain(d, p)
  {
    forall i | 0 <= i <= |p|
      ensures IsDir(d, p[..i])
    {
      if i < |p| {
        assert Parent(p)[..i] == p[..i];
      } else {
        assert p[..i] == p;
      }
    }
  }

  lemma {:induction false} ClosedProper(d: Tree, p: Path)
    requires Closed(d) && (p in d || IsDir(d, p))
    ensures Proper(p)
    decreases |p|
  {
    if p != [] {
      ClosedProper(d, Parent(p));
      assert forall i :: 0 <= i < |p| - 1 ==> p[i] == Parent(p)[i];
    }
  }

  // No component of dir + names below dir is a link.
  ghost predicate PlainTo(d: Tree, dir: Path, names: seq<Name>)
  {
    forall i :: 0 < i <= |names| && dir + names[..i] in d ==> !d[dir + names[..i]].Link?
  }

  lemma PlainDown(d: Tree, dir: Path, names: seq<Name>)
    requires names != [] && PlainTo(d, dir, names)
    ensures PlainTo(d, dir + [names[0]], names[1..])
    ensures dir + [names[0]] in d ==> !d[dir + [names[0]]].Link?
  {
    assert dir + names[..1] == dir + [names[0]];
    forall i | 0 < i <= |names[1..]| && dir + [names[0]] + names[1..][..i] in d
      ensures !d[dir + [names[0]] + names[1..][..i]].Link?
    {
      assert dir + [names[0]] + names[1..][..i] == dir + names[..i + 1];
    }
  }

  // Without links on the way, a directory path leads where it says.
  lemma {:induction false} PlainMkdirs(d: Tree, dir: Path, names: seq<Name>, links: nat)
    requires PlainTo(d, dir, names)
    ensures Mkdirs(d, dir, names, links).Ok? ==>
              Mkdirs(d, dir, names, links).value.place == Place(dir + names, links)
    decreases |names|
  {
    if names == [] {
      assert dir + names == dir;
    } else {
      PlainDown(d, dir, names);
      PlainMkdirs(d, dir + [names[0]], names[1..], links);
      assert dir + [names[0]] + names[1..] == dir + names;
    }
  }

  // A chain of directories is already made.
  lemma {:induction false} MkdirsOnChain(d: Tree, dir: Path, names: seq<Name>, links: nat)
    requires forall i :: 0 < i <= |names| ==> IsDir(d, dir + names[..i])
    ensures Mkdirs(d, dir, names, links) == Ok(Made(d, Place(dir + names, links)))
    decreases |names|
  {
    if names == [] {
      assert dir + names == dir;
    } else {
      assert dir + names[..1] == dir + [names[0]];
      forall i | 0 < i <= |names[1..]|
        ensures IsDir(d, dir + [names[0]] + names[1..][..i])
      {
        assert dir + [names[0]] + names[1..][..i] == dir + names[..i + 1];
      }
      MkdirsOnChain(d, dir + [names[0]], names[1..], links);
      assert dir + [names[0]] + names[1..] == dir + names;
    }
  }

  lemma MkdirsOnDirs(d: Tree, p: Path)
    requires DirChain(d, p)
    ensures Mkdirs(d, [], p, MAX_LINKS) == Ok(Made(d, Place(p, MAX_LINKS)))
  {
    forall i | 0 < i <= |p|
      ensures IsDir(d, [] + p[..i])
    {
      assert [] + p[..i] == p[..i];
    }
    MkdirsOnChain(d, [], p, MAX_LINKS);
    assert [] + p == p;
  }

  lemma {:induction false} FollowDown(d: Tree, dir: Path, names: seq<Name>, links: nat)
    requires forall i :: 0 < i <= |names| ==> IsDir(d, dir + names[..i])
    requires Proper(names)
    ensures Follow(d, dir, names, links) == Ok(Place(dir + names, links))
    decreases |names|
  {
    if names == [] {
      assert dir + names == dir;
    } else {
      assert dir + names[..1] == dir + [names[0]];
      forall i | 0 < i <= |names[1..]|
        ensures IsDir(d, dir + [names[0]] + names[1..][..i])
      {
        assert dir + [names[0]] + names[1..][..i] == dir + names[..i + 1];
      }
      FollowDown(d, dir + [names[0]], names[1..], links);
      assert dir + [names[0]] + names[1..] == dir + names;
    }
  }

  lemma FollowOnDirs(d: Tree, p: Path)
    requires DirChain(d, p) && Proper(p)
    ensures Follow(d, [], p, MAX_LINKS) == Ok(Place(p, MAX_LINKS))
  {
    forall i | 0 < i <= |p|
      ensures IsDir(d, [] + p[..i])
    {
      assert [] + p[..i] == p[..i];
    }
    FollowDown(d, [], p, MAX_LINKS);
    assert [] + p == p;
  }

  // With directories up to the last name, and that one free, it is created.
  lemma {:induction false} MkdirsDown(d: Tree, dir: Path, names: seq<Name>, links: nat)
    requires names != [] && forall i :: 0 < i < |names| ==> IsDir(d, dir + names[..i])
    requires dir + names !in d
    ensures Mkdirs(d, dir, names, links) == Ok(Made(d[dir + names := Dir], Place(dir + names, links)))
    decreases |names|
  {
    var next := dir + [names[0]];
    assert dir + names[..1] == next;
    if |names| == 1 {
      assert dir + names == next;
      assert MakeAll(d[next := Dir], next, names[1..]) == d[next := Dir];
    } else {
      assert next + names[1..] == dir + names;
      forall i | 0 < i < |names[1..]|
        ensures IsDir(d, next + names[1..][..i])
      {
        assert next + names[1..][..i] == dir + names[..i + 1];
      }
      MkdirsDown(d, next, names[1..], links);
    }
  }

  lemma MkdirsLast(d: Tree, p: Path)
    requires p != [] && DirChain(d, Parent(p)) && p !in d
    ensures Mkdirs(d, [], p, MAX_LINKS) == Ok(Made(d[p := Dir], Place(p, MAX_LINKS)))
  {
    forall i | 0 < i < |p|
      ensures IsDir(d, [] + p[..i])
    {
      assert [] + p[..i] == Parent(p)[..i];
    }
    assert [] + p == p;
    MkdirsDown(d, [], p, MAX_LINKS);
  }

  // Staging

  predicate Inside(stage: Path, p: Path)
  {
    stage <= p
  }

  // Everything outside the staging directory: what anybody else can see.
  function Outside(d: Tree, stage: Path): Tree
  {
    map p | p in d && !Inside(stage, p) :: d[p]
  }

  function StagedKeys(d: Tree, stage: Path): set<Path>
  {
    set p | p in d && Inside(stage, p) && |p| > |stage| :: p[|stage|..]
  }

  lemma StagedKey(d: Tree, stage: Path, p: Path)
    ensures p in StagedKeys(d, stage) <==> p != [] && stage + p in d
  {
    if p != [] && stage + p in d {
      assert (stage + p)[|stage|..] == p;
    }
    if p in StagedKeys(d, stage) {
      var q :| q in d && Inside(stage, q) && |q| > |stage| && q[|stage|..] == p;
      assert q == stage + p;
    }
  }

  // The tree built in the staging directory, by the paths its entries have there.
  function Staged(d: Tree, stage: Path): Tree
  {
    map p | p in StagedKeys(d, stage) :: (StagedKey(d, stage, p); d[stage + p])
  }

  lemma StagedAt(d: Tree, stage: Path, p: Path)
    ensures p in Staged(d, stage) <==> p != [] && stage + p in d
    ensures p in Staged(d, stage) ==> Staged(d, stage)[p] == d[stage + p]
  {
    StagedKey(d, stage, p);
  }

  lemma SamePrefix(a: Path, p: Path, q: Path)
    requires a + p == a + q
    ensures p == q
  {
    assert (a + p)[|a|..] == p && (a + q)[|a|..] == q;
  }

  lemma StagedPut(d: Tree, stage: Path, p: Path, node: Node)
    requires p != []
    ensures Staged(d[stage + p := node], stage) == Staged(d, stage)[p := node]
  {
    hide Staged;
    var r := d[stage + p := node];
    forall q
      ensures q in Staged(r, stage) <==> q in Staged(d, stage) || q == p
      ensures q in Staged(r, stage) ==> Staged(r, stage)[q] == Staged(d, stage)[p := node][q]
    {
      StagedAt(d, stage, q);
      StagedAt(r, stage, q);
      if stage + q == stage + p {
        SamePrefix(stage, p, q);
      }
    }
  }

  lemma PutInside(d: Tree, stage: Path, p: Path, node: Node)
    requires Inside(stage, p)
    ensures Outside(d[p := node], stage) == Outside(d, stage)
  {
  }

  // remove_all of the staging directory.
  function RemoveStaging(d: Tree, stage: Path): Tree
  {
    Outside(d, stage)
  }
}
