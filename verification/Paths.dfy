/** Relative paths as they travel: byte strings on the wire, sequences of names in a tree. */
module Paths {
  import opened Basics

  type Name = Bytes

  type Path = seq<Name>

  const SLASH: byte := 47
  const DOT: Name := [46]
  const DOT_DOT: Name := [46, 46]

  function FirstSlash(s: Bytes): (r: nat)
    ensures r <= |s|
    ensures r < |s| ==> s[r] == SLASH
    ensures forall i :: 0 <= i < r ==> s[i] != SLASH
  {
    if s == [] || s[0] == SLASH then 0 else 1 + FirstSlash(s[1..])
  }

  function SkipSlashes(s: Bytes): (r: Bytes)
    ensures |r| <= |s|
    ensures s != [] && s[0] == SLASH ==> |r| < |s|
  {
    if s != [] && s[0] == SLASH then SkipSlashes(s[1..]) else s
  }

  // The components std::filesystem iterates over in a relative path: runs of slashes separate, and a
  // trailing slash adds an empty last component.
  function Parts(s: Bytes): (r: seq<Name>)
    ensures r != []
    decreases |s|
  {
    var i := FirstSlash(s);
    if i == |s| then [s]
    else
      var rest := SkipSlashes(s[i..]);
      if rest == [] then [s[..i], []] else [s[..i]] + Parts(rest)
  }

  // The name without its "." components, which denote the directory they stand in.
  function Resolve(parts: seq<Name>): Path
  {
    if parts == [] then []
    else if parts[|parts| - 1] == DOT then Resolve(parts[..|parts| - 1])
    else Resolve(parts[..|parts| - 1]) + [parts[|parts| - 1]]
  }

  predicate ForbiddenPart(part: Name)
  {
    part == DOT_DOT || part == []
  }

  // A path the receiver accepts from the network.
  predicate ValidText(s: Bytes)
  {
    s != [] && s[0] != SLASH && forall i :: 0 <= i < |Parts(s)| ==> !ForbiddenPart(Parts(s)[i])
  }

  // A name a directory walk can yield.
  predicate ValidName(n: Name)
  {
    n != [] && n != DOT && n != DOT_DOT && forall i :: 0 <= i < |n| ==> n[i] != SLASH
  }

  predicate ValidPath(p: Path)
  {
    p != [] && forall i :: 0 <= i < |p| ==> ValidName(p[i])
  }

  // The generic string of a relative path.
  function Text(p: Path): Bytes
    requires p != []
  {
    if |p| == 1 then p[0] else p[0] + [SLASH] + Text(p[1..])
  }

  lemma FirstSlashIs(s: Bytes, i: nat)
    requires i <= |s| && (i < |s| ==> s[i] == SLASH)
    requires forall j :: 0 <= j < i ==> s[j] != SLASH
    ensures FirstSlash(s) == i
  {
  }

  lemma SkipNothing(s: Bytes)
    requires s != [] && s[0] != SLASH
    ensures SkipSlashes(s) == s && SkipSlashes([SLASH] + s) == s
  {
    assert ([SLASH] + s)[1..] == s;
  }

  // Splitting takes the first name off.
  lemma PartsCons(name: Name, rest: Bytes)
    requires ValidName(name) && rest != [] && rest[0] != SLASH
    ensures Parts(name + [SLASH] + rest) == [name] + Parts(rest)
  {
    var s := name + [SLASH] + rest;
    FirstSlashIs(s, |name|);
    SkipNothing(rest);
    hide FirstSlash, SkipSlashes;
    assert s[..|name|] == name && s[|name|..] == [SLASH] + rest;
  }

  lemma {:induction false} PartsOfText(p: Path)
    requires ValidPath(p)
    ensures Text(p) != [] && Text(p)[0] != SLASH
    ensures Parts(Text(p)) == p
    decreases |p|
  {
    hide FirstSlash, SkipSlashes;
    assert ValidName(p[0]);
    if |p| == 1 {
      FirstSlashIs(p[0], |p[0]|);
    } else {
      PartsOfText(p[1..]);
      PartsCons(p[0], Text(p[1..]));
      assert p == [p[0]] + p[1..];
    }
  }

  lemma {:induction false} ResolveValid(p: Path)
    requires forall i :: 0 <= i < |p| ==> ValidName(p[i])
    ensures Resolve(p) == p
  {
    if p != [] {
      ResolveValid(p[..|p| - 1]);
      assert ValidName(p[|p| - 1]);
      assert p == p[..|p| - 1] + [p[|p| - 1]];
    }
  }

  // Path round trip: the text of a walked path is accepted and read back as the same path.
  lemma TextRoundTrip(p: Path)
    requires ValidPath(p)
    ensures ValidText(Text(p)) && Parts(Text(p)) == p && Resolve(Parts(Text(p))) == p
  {
    PartsOfText(p);
    ResolveValid(p);
    forall i | 0 <= i < |p|
      ensures !ForbiddenPart(p[i])
    {
      assert ValidName(p[i]);
    }
  }

  lemma {:induction false} ResolveMembers(parts: seq<Name>)
    ensures forall n :: n in Resolve(parts) ==> n in parts && n != DOT
    ensures |Resolve(parts)| <= |parts|
  {
    if parts != [] {
      ResolveMembers(parts[..|parts| - 1]);
    }
  }

  // No name of an accepted path is "..", "." or empty, so its names alone never lead out of a directory. A link
  // standing at one of them can.
  lemma AcceptedStaysInside(s: Bytes)
    requires ValidText(s)
    ensures forall i :: 0 <= i < |Resolve(Parts(s))| ==>
              Resolve(Parts(s))[i] != DOT_DOT && Resolve(Parts(s))[i] != DOT && Resolve(Parts(s))[i] != []
  {
    ResolveMembers(Parts(s));
    forall i | 0 <= i < |Resolve(Parts(s))|
      ensures Resolve(Parts(s))[i] != DOT_DOT && Resolve(Parts(s))[i] != DOT && Resolve(Parts(s))[i] != []
    {
      var n := Resolve(Parts(s))[i];
      assert n in Resolve(Parts(s));
      var k :| 0 <= k < |Parts(s)| && Parts(s)[k] == n;
      assert !ForbiddenPart(Parts(s)[k]);
    }
  }
}
