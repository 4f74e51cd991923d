/** Where symbolic links lead. */
module Links {
  import opened Basics
  import opened Ftp
  import opened Paths
  import opened FileTree

  lemma NoSlashFirst(p: Path)
    requires ValidPath(p)
    ensures Text(p) != [] && Text(p)[0] != SLASH
    ensures Steps(Text(p)) == p && Steps([SLASH] + Text(p)) == p
  {
    TextRoundTrip(p);
    assert ValidName(p[0]);
    assert Text(p)[0] == p[0][0];
    assert ([SLASH] + Text(p))[1..] == Text(p);
    assert SkipSlashes(Text(p)) == Text(p);
  }

  // A link is followed by reading the names of its target one after the other: a relative target from the link's
  // own directory, an absolute one from the root.
  lemma LinkReads(d: Tree, dir: Path, name: Name, p: Path, rest: seq<Name>, links: nat)
    requires ProperName(name) && ValidPath(p) && links > 0 && dir + [name] in d
    ensures d[dir + [name]] == Link(Text(p)) ==>
              Follow(d, dir, [name] + rest, links) == Follow(d, dir, p + rest, links - 1)
    ensures d[dir + [name]] == Link([SLASH] + Text(p)) ==>
              Follow(d, dir, [name] + rest, links) == Follow(d, [], p + rest, links - 1)
  {
    NoSlashFirst(p);
    hide Steps, Text, ValidPath;
    assert ([name] + rest)[0] == name && ([name] + rest)[1..] == rest;
  }

  // Names that lead through directories to something that is no link, or to nothing, lead there.
  lemma {:induction false} NamesReach(d: Tree, dir: Path, p: Path, links: nat)
    requires ValidPath(p)
    requires forall i :: 0 < i < |p| ==> IsDir(d, dir + p[..i])
    requires dir + p in d ==> !d[dir + p].Link?
    ensures Follow(d, dir, p, links) == Ok(Place(dir + p, links))
    decreases |p|
  {
    var next, rest := dir + [p[0]], p[1..];
    assert ValidName(p[0]);
    assert p[..1] == [p[0]];
    assert next + rest == dir + p;
    if rest != [] {
      forall i | 0 < i < |rest|
        ensures IsDir(d, next + rest[..i])
      {
        assert next + rest[..i] == dir + p[..i + 1];
      }
      assert forall i :: 0 <= i < |rest| ==> rest[i] == p[i + 1] && ValidName(p[i + 1]);
      NamesReach(d, next, rest, links);
    } else {
      assert dir + p == next && Follow(d, next, [], links) == Ok(Place(next, links));
    }
  }

  // A file on the way, or nothing, stops them.
  lemma {:induction false} NamesStop(d: Tree, dir: Path, p: Path, i: nat, links: nat)
    requires ValidPath(p) && 0 < i < |p|
    requires forall j :: 0 < j < i ==> IsDir(d, dir + p[..j])
    requires dir + p[..i] in d ==> d[dir + p[..i]].File?
    ensures Follow(d, dir, p, links) == Err(if dir + p[..i] in d then NotADirectory else NoSuchFileOrDirectory)
    decreases i
  {
    var next, rest := dir + [p[0]], p[1..];
    assert ValidName(p[0]);
    assert p[..1] == [p[0]];
    if i > 1 {
      forall j | 0 < j < i - 1
        ensures IsDir(d, next + rest[..j])
      {
        assert next + rest[..j] == dir + p[..j + 1];
      }
      assert IsDir(d, dir + p[..1]);
      assert next + rest[..i - 1] == dir + p[..i];
      assert forall j :: 0 <= j < |rest| ==> rest[j] == p[j + 1] && ValidName(p[j + 1]);
      NamesStop(d, next, rest, i - 1, links);
    }
  }

  // A link to "x/y" reaches y in the directory x beside it; a link to "/x" reaches x in the root. Longer targets
  // likewise.
  lemma LinkReaches(d: Tree, dir: Path, name: Name, p: Path, links: nat)
    requires ProperName(name) && ValidPath(p) && links > 0 && dir + [name] in d
    ensures d[dir + [name]] == Link(Text(p)) && LeadsTo(d, dir, p) ==>
              Follow(d, dir, [name], links) == Ok(Place(dir + p, links - 1))
    ensures d[dir + [name]] == Link([SLASH] + Text(p)) && LeadsTo(d, [], p) ==>
              Follow(d, dir, [name], links) == Ok(Place(p, links - 1))
  {
    hide Text, ValidPath, Follow;
    LinkReads(d, dir, name, p, [], links);
    assert [name] + [] == [name] && p + [] == p && [] + p == p;
    if LeadsTo(d, dir, p) {
      NamesReach(d, dir, p, links - 1);
    }
    if LeadsTo(d, [], p) {
      NamesReach(d, [], p, links - 1);
    }
  }

  // From dir the names of p lead through directories to something that is no link, or to nothing.
  ghost predicate LeadsTo(d: Tree, dir: Path, p: Path)
  {
    && (forall i :: 0 < i < |p| ==> IsDir(d, dir + p[..i]))
    && (dir + p in d ==> !d[dir + p].Link?)
  }

  // A link that leads to itself can not be followed, however many links may be.
  lemma {:induction false} LoopIsRefused(d: Tree, dir: Path, name: Name, links: nat)
    requires ValidName(name) && dir + [name] in d && d[dir + [name]] == Link(name)
    ensures Follow(d, dir, [name], links) == Err(TooManyLinks)
  {
    assert ValidPath([name]) && Text([name]) == name;
    if links > 0 {
      LinkReads(d, dir, name, [name], [], links);
      assert [name] + [] == [name];
      LoopIsRefused(d, dir, name, links - 1);
    }
  }
}
