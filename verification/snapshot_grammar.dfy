/** Package snapshots: an exact name and version followed by its resolved peers in parentheses, nested to a bounded depth. */
module SnapshotGrammar {
  import opened Texts
  import opened Wrappers

  const MAXIMUM_DEPTH := 16
  const MAXIMUM_SNAPSHOT := 1024
  const MAXIMUM_NAME := 512
  const MAXIMUM_VERSION := 256

  datatype Drift = IdentityDrift

  // ---------------------------------------------------------------------------------- names and versions

  predicate NameStart(c: char) {
    Digit(c) || 'a' <= c <= 'z'
  }

  predicate NameChar(c: char) {
    NameStart(c) || c == '.' || c == '_' || c == '-'
  }

  predicate VersionChar(c: char) {
    Digit(c) || 'A' <= c <= 'Z' || 'a' <= c <= 'z' || c == '.' || c == '-'
  }

  predicate NamePart(s: string) {
    s != "" && NameStart(s[0]) && forall i | 0 <= i < |s| :: NameChar(s[i])
  }

  /** `^(?:@[a-z0-9][a-z0-9._-]*\/)?[a-z0-9][a-z0-9._-]*$` */
  predicate IsName(s: string) {
    && |s| <= MAXIMUM_NAME
    && (NamePart(s) || (s != "" && s[0] == '@' && exists k | 0 < k < |s| :: s[k] == '/' && NamePart(s[1..k]) && NamePart(s[k + 1..])))
  }

  function DigitsEnd(s: string, i: nat): (end: nat)
    requires i <= |s|
    ensures i <= end <= |s| && forall k | i <= k < end :: Digit(s[k])
    decreases |s| - i
  {
    if i < |s| && Digit(s[i]) then DigitsEnd(s, i + 1) else i
  }

  predicate VersionChars(s: string) {
    s != "" && forall i | 0 <= i < |s| :: VersionChar(s[i])
  }

  predicate Build(s: string) {
    s != "" && s[0] == '+' && VersionChars(s[1..])
  }

  predicate Suffix(s: string) {
    || s == ""
    || Build(s)
    || (s[0] == '-' && (VersionChars(s[1..]) || exists k | 1 < k < |s| :: VersionChars(s[1..k]) && Build(s[k..])))
  }

  /** `^[0-9]+\.[0-9]+\.[0-9]+(?:-[0-9A-Za-z.-]+)?(?:\+[0-9A-Za-z.-]+)?$` */
  predicate IsVersion(s: string) {
    && |s| <= MAXIMUM_VERSION
    && var a := DigitsEnd(s, 0);
       0 < a < |s| && s[a] == '.'
       && var b := DigitsEnd(s, a + 1);
          a + 1 < b < |s| && s[b] == '.'
          && var c := DigitsEnd(s, b + 1);
             b + 1 < c && Suffix(s[c..])
  }

  predicate Paren(c: char) {
    c == '(' || c == ')'
  }

  lemma NameCharacters(s: string)
    requires IsName(s)
    ensures s != "" && forall i | 0 <= i < |s| :: !Paren(s[i]) && (s[i] == '@' ==> i == 0)
  {
    if !NamePart(s) {
      var k :| 0 < k < |s| && s[k] == '/' && NamePart(s[1..k]) && NamePart(s[k + 1..]);
      forall i | 0 < i < |s| ensures !Paren(s[i]) && s[i] != '@' {
        if i < k {
          assert s[i] == s[1..k][i - 1];
        } else if i > k {
          assert s[i] == s[k + 1..][i - k - 1];
        }
      }
    }
  }

  lemma SuffixCharacters(s: string)
    requires Suffix(s)
    ensures forall i | 0 <= i < |s| :: !Paren(s[i]) && s[i] != '@'
  {
    if Build(s) {
      BuildCharacters(s);
    } else if s != "" {
      if VersionChars(s[1..]) {
        assert forall i | 0 < i < |s| :: s[i] == s[1..][i - 1];
      } else {
        var k :| 1 < k < |s| && VersionChars(s[1..k]) && Build(s[k..]);
        BuildCharacters(s[k..]);
        forall i | 0 < i < |s| ensures !Paren(s[i]) && s[i] != '@' {
          if i < k {
            assert s[i] == s[1..k][i - 1];
          } else {
            assert s[i] == s[k..][i - k];
          }
        }
      }
    }
  }

  lemma BuildCharacters(s: string)
    requires Build(s)
    ensures forall i | 0 <= i < |s| :: !Paren(s[i]) && s[i] != '@'
  {
    assert forall i | 0 < i < |s| :: s[i] == s[1..][i - 1];
  }

  lemma VersionCharacters(s: string)
    requires IsVersion(s)
    ensures s != "" && forall i | 0 <= i < |s| :: !Paren(s[i]) && s[i] != '@'
  {
    var a := DigitsEnd(s, 0);
    var b := DigitsEnd(s, a + 1);
    var c := DigitsEnd(s, b + 1);
    SuffixCharacters(s[c..]);
    forall i | c <= i < |s| ensures !Paren(s[i]) && s[i] != '@' {
      assert s[i] == s[c..][i - c];
    }
  }

  // ---------------------------------------------------------------------------------- trees and their text

  datatype Package = Package(name: string, version: string, peers: seq<Package>)
  datatype Identity = Identity(name: string, version: string)

  function Print(p: Package): string {
    p.name + "@" + p.version + PrintPeers(p.peers)
  }

  function PrintPeers(peers: seq<Package>): string {
    if peers == [] then "" else "(" + Print(peers[0]) + ")" + PrintPeers(peers[1..])
  }

  ghost predicate ValidPackage(p: Package, depth: nat) {
    depth <= MAXIMUM_DEPTH && IsName(p.name) && IsVersion(p.version) && ValidPeers(p.peers, depth, {})
  }

  /** Valid packages one level down, with names distinct from each other and from those seen before. */
  ghost predicate ValidPeers(peers: seq<Package>, depth: nat, seen: set<string>) {
    peers == [] || (ValidPackage(peers[0], depth + 1) && peers[0].name !in seen && ValidPeers(peers[1..], depth, seen + {peers[0].name}))
  }

  // ---------------------------------------------------------------------------------- reading

  /** The length of the text before the first parenthesis. */
  function BaseEnd(s: string): (n: nat)
    ensures n <= |s| && (forall i | 0 <= i < n :: !Paren(s[i])) && (n < |s| ==> Paren(s[n]))
  {
    if s == "" || Paren(s[0]) then 0 else 1 + BaseEnd(s[1..])
  }

  function LastAt(base: string): (k: int)
    ensures -1 <= k < |base| && (k >= 0 ==> base[k] == '@') && forall i | k < i < |base| :: base[i] != '@'
  {
    LastIndexOf(base, '@')
  }

  /** Without an `@` the separator is -1: the name is then all but the last character, and the version the whole base. */
  function BaseName(base: string): string {
    SliceTo(base, LastAt(base))
  }

  function BaseVersion(base: string): string {
    base[LastAt(base) + 1..]
  }

  function ReadPart(s: string, depth: nat): (r: Result<(Package, string), Drift>)
    ensures r.Ok? ==> |r.value.1| < |s|
    decreases |s|, 1
  {
    var n := BaseEnd(s);
    var base := s[..n];
    if depth > MAXIMUM_DEPTH || !IsName(BaseName(base)) || !IsVersion(BaseVersion(base)) || n == 0 then Err(IdentityDrift)
    else
      match ReadPeers(s[n..], depth, {})
      case Err(e) => Err(e)
      case Ok((peers, rest)) => Ok((Package(BaseName(base), BaseVersion(base), peers), rest))
  }

  function ReadPeers(s: string, depth: nat, seen: set<string>): (r: Result<(seq<Package>, string), Drift>)
    ensures r.Ok? ==> |r.value.1| <= |s|
    decreases |s|, 0
  {
    if s == "" || s[0] != '(' then Ok(([], s))
    else
      match ReadPart(s[1..], depth + 1)
      case Err(e) => Err(e)
      case Ok((peer, rest)) =>
        if rest == "" || rest[0] != ')' || peer.name in seen then Err(IdentityDrift)
        else
          match ReadPeers(rest[1..], depth, seen + {peer.name})
          case Err(e) => Err(e)
          case Ok((peers, after)) => Ok(([peer] + peers, after))
  }

  /** `snapshot`. */
  function Snapshot(text: string): Result<Identity, Drift> {
    if |text| > MAXIMUM_SNAPSHOT then Err(IdentityDrift)
    else
      match ReadPart(text, 0)
      case Err(_) => Err(IdentityDrift)
      case Ok((p, rest)) => if rest == "" then Ok(Identity(p.name, p.version)) else Err(IdentityDrift)
  }

  // ---------------------------------------------------------------------------------- print, then parse

  /** What may follow a printed package: nothing, or a closing parenthesis. */
  predicate Follows(rest: string) {
    rest == "" || rest[0] == ')'
  }

  /** A base ends where what follows it begins. */
  lemma BaseEnds(base: string, rest: string)
    requires (forall i | 0 <= i < |base| :: !Paren(base[i])) && (rest == "" || Paren(rest[0]))
    ensures var s := base + rest; BaseEnd(s) == |base| && s[..|base|] == base && s[|base|..] == rest
  {
    var s := base + rest;
    var n := BaseEnd(s);
    assert forall i | 0 <= i < |base| :: s[i] == base[i];
    assert rest != "" ==> s[|base|] == rest[0];
  }

  /** A joined name and version split at the `@` between them. */
  lemma NameSplits(name: string, version: string)
    requires IsName(name) && IsVersion(version)
    ensures var base := name + "@" + version;
      BaseName(base) == name && BaseVersion(base) == version && forall i | 0 <= i < |base| :: !Paren(base[i])
  {
    NameCharacters(name);
    VersionCharacters(version);
    hide IsName, IsVersion;
    var base := name + "@" + version;
    assert base[|name|] == '@';
    assert forall i | |name| < i < |base| :: base[i] == version[i - |name| - 1];
    assert LastAt(base) == |name|;
    assert base[..|name|] == name && base[|name| + 1..] == version;
  }

  /** The printed base splits where it was joined. */
  lemma BaseSplits(name: string, version: string, rest: string)
    requires IsName(name) && IsVersion(version) && (rest == "" || Paren(rest[0]))
    ensures var s := name + "@" + version + rest;
      && BaseEnd(s) == |name| + 1 + |version| && s[..BaseEnd(s)] == name + "@" + version && s[BaseEnd(s)..] == rest
      && BaseName(name + "@" + version) == name && BaseVersion(name + "@" + version) == version
  {
    NameSplits(name, version);
    hide IsName, IsVersion, BaseName, BaseVersion;
    BaseEnds(name + "@" + version, rest);
  }

  /** A parenthesized peer, what follows it, and the rest. */
  lemma PeerSplits(peer: string, others: string, rest: string)
    ensures var s := "(" + peer + ")" + others + rest;
      var after := ")" + others + rest;
      s[0] == '(' && s[1..] == peer + after && after[0] == ')' && after[1..] == others + rest
  {
  }

  lemma PeerJoins(s: string, peer: string, rest: string, others: string, after: string)
    requires s != "" && s[0] == '(' && s[1..] == peer + rest && rest != "" && rest[0] == ')' && rest[1..] == others + after
    ensures s == "(" + peer + ")" + others + after
  {
    assert rest == ")" + rest[1..];
  }

  lemma PeersStart(peers: seq<Package>, rest: string)
    requires Follows(rest)
    ensures PrintPeers(peers) + rest == "" || Paren((PrintPeers(peers) + rest)[0])
  {
    hide Print;
  }

  lemma {:induction false} PartReads(p: Package, depth: nat, rest: string)
    requires ValidPackage(p, depth) && Follows(rest)
    ensures ReadPart(Print(p) + rest, depth) == Ok((p, rest))
    decreases p, 1
  {
    var tail := PrintPeers(p.peers) + rest;
    assert Print(p) + rest == p.name + "@" + p.version + tail;
    PeersStart(p.peers, rest);
    BaseSplits(p.name, p.version, tail);
    PeersRead(p.peers, depth, {}, rest);
  }

  lemma {:induction false} PeersRead(peers: seq<Package>, depth: nat, seen: set<string>, rest: string)
    requires ValidPeers(peers, depth, seen) && Follows(rest)
    ensures ReadPeers(PrintPeers(peers) + rest, depth, seen) == Ok((peers, rest))
    decreases peers, 0
  {
    hide IsName, IsVersion, ReadPart, Print;
    if peers == [] {
      assert "" + rest == rest;
    } else {
      var after := ")" + PrintPeers(peers[1..]) + rest;
      PeerSplits(Print(peers[0]), PrintPeers(peers[1..]), rest);
      PartReads(peers[0], depth + 1, after);
      PeersRead(peers[1..], depth, seen + {peers[0].name}, rest);
      assert [peers[0]] + peers[1..] == peers;
    }
  }

  /** A printed package tree of bounded depth and length is read back as its root, and read to the end. */
  lemma PrintedSnapshotReads(p: Package)
    requires ValidPackage(p, 0) && |Print(p)| <= MAXIMUM_SNAPSHOT
    ensures Snapshot(Print(p)) == Ok(Identity(p.name, p.version))
  {
    PartReads(p, 0, "");
    assert Print(p) + "" == Print(p);
  }

  // ---------------------------------------------------------------------------------- which texts are accepted

  /** Every base after an opening parenthesis has an `@`. */
  ghost predicate PeersMarked(s: string) {
    forall i | 0 < i <= |s| && s[i - 1] == '(' :: AtInBase(s[i..])
  }

  predicate AtInBase(s: string) {
    '@' in s[..BaseEnd(s)]
  }

  /** Every base has an `@`: the one at the start and those after an opening parenthesis. */
  ghost predicate Marked(s: string) {
    AtInBase(s) && PeersMarked(s)
  }

  lemma MarkedTail(s: string, n: nat)
    requires PeersMarked(s) && n <= |s|
    ensures PeersMarked(s[n..])
    ensures n > 0 && s[n - 1] == '(' ==> Marked(s[n..])
  {
    hide AtInBase;
    forall i | 0 < i <= |s[n..]| && s[n..][i - 1] == '(' ensures AtInBase(s[n..][i..]) {
      assert s[n..][i..] == s[n + i..];
      assert s[n + i - 1] == '(';
    }
  }

  lemma BaseJoins(base: string)
    requires '@' in base
    ensures BaseName(base) + "@" + BaseVersion(base) == base
  {
    var k := LastAt(base);
    var i :| 0 <= i < |base| && base[i] == '@';
    assert i <= k;
    assert base == base[..k] + [base[k]] + base[k + 1..];
  }

  lemma {:induction false} PartPrints(s: string, depth: nat)
    requires ReadPart(s, depth).Ok? && Marked(s)
    ensures var (p, rest) := ReadPart(s, depth).value; ValidPackage(p, depth) && s == Print(p) + rest
    decreases |s|, 1
  {
    hide IsName, IsVersion, PeersMarked, PrintPeers, ReadPeers, BaseName, BaseVersion;
    var n := BaseEnd(s);
    BaseJoins(s[..n]);
    MarkedTail(s, n);
    PeersPrint(s[n..], depth, {});
    var (p, rest) := ReadPart(s, depth).value;
    assert s == s[..n] + s[n..];
    assert s == p.name + "@" + p.version + (PrintPeers(p.peers) + rest);
  }

  lemma {:induction false} PeersPrint(s: string, depth: nat, seen: set<string>)
    requires ReadPeers(s, depth, seen).Ok? && PeersMarked(s)
    ensures var (peers, rest) := ReadPeers(s, depth, seen).value; ValidPeers(peers, depth, seen) && s == PrintPeers(peers) + rest
    decreases |s|, 0
  {
    hide IsName, IsVersion, PeersMarked, ReadPart, Print, Marked, ValidPackage;
    if s != "" && s[0] == '(' {
      MarkedTail(s, 1);
      PartPrints(s[1..], depth + 1);
      var (peer, rest) := ReadPart(s[1..], depth + 1).value;
      assert rest == s[|s| - |rest|..];
      MarkedTail(s, |s| - |rest| + 1);
      assert rest[1..] == s[|s| - |rest| + 1..];
      PeersPrint(rest[1..], depth, seen + {peer.name});
      var (peers, after) := ReadPeers(rest[1..], depth, seen + {peer.name}).value;
      PeerJoins(s, Print(peer), rest, PrintPeers(peers), after);
      assert ([peer] + peers)[1..] == peers;
    }
  }

  /** A base with an `@` before a marked tail. */
  lemma MarkedJoin(base: string, tail: string)
    requires '@' in base && (forall i | 0 <= i < |base| :: !Paren(base[i]))
    requires (tail == "" || Paren(tail[0])) && PeersMarked(tail)
    ensures Marked(base + tail)
  {
    var s := base + tail;
    var n := |base|;
    BaseEnds(base, tail);
    forall i | 0 < i <= |s| && s[i - 1] == '(' ensures AtInBase(s[i..]) {
      assert i - 1 >= n;
      TailBase(s, n, i);
    }
  }

  lemma MarkedOpen(inner: string)
    requires Marked(inner)
    ensures PeersMarked("(" + inner)
  {
    var s := "(" + inner;
    assert s[1..] == inner;
    forall i | 0 < i <= |s| && s[i - 1] == '(' ensures AtInBase(s[i..]) {
      if i > 1 {
        TailBase(s, 1, i);
      }
    }
  }

  lemma MarkedClose(after: string)
    requires PeersMarked(after)
    ensures PeersMarked(")" + after)
  {
    var s := ")" + after;
    assert s[1..] == after;
    forall i | 0 < i <= |s| && s[i - 1] == '(' ensures AtInBase(s[i..]) {
      TailBase(s, 1, i);
    }
  }

  /** A base inside a tail is the same base of the whole text. */
  lemma TailBase(s: string, n: nat, i: nat)
    requires n < i <= |s| && PeersMarked(s[n..]) && s[i - 1] == '('
    ensures AtInBase(s[i..])
  {
    assert s[n..][i - n..] == s[i..];
    assert s[n..][i - n - 1] == '(';
  }

  lemma BaseMarked(name: string, version: string)
    requires IsName(name) && IsVersion(version)
    ensures var base := name + "@" + version; '@' in base && forall i | 0 <= i < |base| :: !Paren(base[i])
  {
    NameCharacters(name);
    VersionCharacters(version);
    assert (name + "@" + version)[|name|] == '@';
  }

  lemma {:induction false} PrintMarked(p: Package, depth: nat, rest: string)
    requires ValidPackage(p, depth) && Follows(rest) && PeersMarked(rest)
    ensures Marked(Print(p) + rest)
    decreases p, 1
  {
    hide IsName, IsVersion, PrintPeers, ValidPeers, Marked, PeersMarked;
    var base, tail := p.name + "@" + p.version, PrintPeers(p.peers) + rest;
    BaseMarked(p.name, p.version);
    PeersStart(p.peers, rest);
    PrintPeersMarked(p.peers, depth, {}, rest);
    MarkedJoin(base, tail);
    assert Print(p) + rest == base + tail;
  }

  lemma {:induction false} PrintPeersMarked(peers: seq<Package>, depth: nat, seen: set<string>, rest: string)
    requires ValidPeers(peers, depth, seen) && Follows(rest) && PeersMarked(rest)
    ensures PeersMarked(PrintPeers(peers) + rest)
    decreases peers, 0
  {
    hide IsName, IsVersion, Print, ValidPackage, Marked, PeersMarked;
    if peers == [] {
      assert "" + rest == rest;
    } else {
      var after := ")" + (PrintPeers(peers[1..]) + rest);
      PrintPeersMarked(peers[1..], depth, seen + {peers[0].name}, rest);
      MarkedClose(PrintPeers(peers[1..]) + rest);
      PrintMarked(peers[0], depth + 1, after);
      MarkedOpen(Print(peers[0]) + after);
      assert PrintPeers(peers) + rest == "(" + (Print(peers[0]) + after);
    }
  }

  /** When every base has an `@`, the accepted texts are exactly the printed trees. */
  lemma AcceptedIsPrinted(text: string)
    requires Marked(text)
    ensures Snapshot(text).Ok? <==> |text| <= MAXIMUM_SNAPSHOT && exists p :: ValidPackage(p, 0) && Print(p) == text
  {
    if Snapshot(text).Ok? {
      PartPrints(text, 0);
      var (p, rest) := ReadPart(text, 0).value;
      assert Print(p) + "" == Print(p);
    }
    if |text| <= MAXIMUM_SNAPSHOT && exists p :: ValidPackage(p, 0) && Print(p) == text {
      var p :| ValidPackage(p, 0) && Print(p) == text;
      PrintedSnapshotReads(p);
    }
  }

  /** Every printed tree is such a text, so an accepted text was printed if and only if all its bases have an `@`. */
  lemma PrintedIsMarked(text: string)
    requires Snapshot(text).Ok?
    ensures Marked(text) <==> exists p :: ValidPackage(p, 0) && Print(p) == text
  {
    if Marked(text) { AcceptedIsPrinted(text); }
    if p :| ValidPackage(p, 0) && Print(p) == text {
      PrintMarked(p, 0, "");
      assert Print(p) + "" == Print(p);
    }
  }

  /** A version alone has no `@`: its name and version overlap, and it is accepted although no tree prints it. */
  lemma BareVersionIsAccepted()
    ensures Snapshot("1.2.3") == Ok(Identity("1.2.", "1.2.3"))
    ensures !exists p :: ValidPackage(p, 0) && Print(p) == "1.2.3"
  {
    var s := "1.2.3";
    BareIsRead();
    BareIsUnmarked();
    hide *;
    PrintedIsMarked(s);
  }

  lemma BareIsUnmarked()
    ensures !Marked("1.2.3")
  {
    BareVersion();
    hide PeersMarked, IsName, IsVersion, BaseName, BaseVersion;
  }

  lemma BareIsRead()
    ensures Snapshot("1.2.3") == Ok(Identity("1.2.", "1.2.3"))
  {
    BareVersion();
    hide Snapshot, IsName, IsVersion, BaseName, BaseVersion, BaseEnd;
    OneBaseIsRead("1.2.3");
  }

  /** A text that is one base is read as its two parts. */
  lemma OneBaseIsRead(s: string)
    requires 0 < |s| <= MAXIMUM_SNAPSHOT && BaseEnd(s) == |s| && IsName(BaseName(s)) && IsVersion(BaseVersion(s))
    ensures Snapshot(s) == Ok(Identity(BaseName(s), BaseVersion(s)))
  {
    hide IsName, IsVersion, BaseName, BaseVersion, BaseEnd;
    assert s[..|s|] == s && s[|s|..] == "";
    assert ReadPeers(s[|s|..], 0, {}) == Ok(([], ""));
  }

  lemma BareVersion()
    ensures var s := "1.2.3";
      BaseEnd(s) == 5 && s[..5] == s && s[5..] == "" && BaseName(s) == "1.2." && BaseVersion(s) == s && IsName("1.2.") && IsVersion(s)
  {
    var s := "1.2.3";
    assert BaseEnd(s) == 5 by { assert forall i | 0 <= i < 5 :: !Paren(s[i]); }
    assert LastAt(s) == -1;
    assert DigitsEnd(s, 0) == 1 && DigitsEnd(s, 2) == 3 && DigitsEnd(s, 4) == 5;
    assert NamePart("1.2.");
  }

  // ---------------------------------------------------------------------------------- the reader with its cursor

  function RestOf<T>(r: Result<(T, string), Drift>): Option<string> {
    if r.Ok? then Some(r.value.1) else None
  }

  /** `snapshot`'s inner `part`: a cursor that moves over the text and a set of peer names for every level. */
  class SnapshotReader {
    const input: string
    var at: nat

    constructor (input: string)
      ensures this.input == input && at == 0
    {
      this.input := input;
      at := 0;
    }

    method ReadBase() returns (base: string)
      requires at <= |input|
      modifies this
      ensures old(at) <= at <= |input|
      ensures var s := input[old(at)..]; base == s[..BaseEnd(s)] && input[at..] == s[BaseEnd(s)..]
    {
      var start := at;
      ghost var s := input[start..];
      while at < |input| && !Paren(input[at])
        invariant start <= at <= |input| && at - start <= BaseEnd(s)
      {
        assert input[at] == s[at - start];
        at := at + 1;
      }
      assert at < |input| ==> input[at] == s[at - start];
      assert at - start == BaseEnd(s);
      base := input[start..at];
      assert base == s[..BaseEnd(s)];
    }

    method Part(depth: nat) returns (r: Result<Identity, Drift>)
      requires at <= |input|
      modifies this
      ensures old(at) <= at <= |input|
      ensures match ReadPart(input[old(at)..], depth)
              case Err(_) => r == Err(IdentityDrift)
              case Ok((p, rest)) => r == Ok(Identity(p.name, p.version)) && input[at..] == rest && at > old(at)
      decreases |input| - at, 1
    {
      hide IsName, IsVersion, BaseName, BaseVersion, ReadPeers;
      if depth > MAXIMUM_DEPTH {
        return Err(IdentityDrift);
      }
      var base := ReadBase();
      if base == "" || !IsName(BaseName(base)) || !IsVersion(BaseVersion(base)) {
        return Err(IdentityDrift);
      }
      var ok := Peers(depth);
      r := if ok then Ok(Identity(BaseName(base), BaseVersion(base))) else Err(IdentityDrift);
    }

    /** The peers of one level: each name once. */
    method Peers(depth: nat) returns (ok: bool)
      requires at <= |input|
      modifies this
      ensures old(at) <= at <= |input|
      ensures RestOf(ReadPeers(input[old(at)..], depth, {})) == if ok then Some(input[at..]) else None
      decreases |input| - at, 0
    {
      hide ReadPart, ReadPeers;
      var peers: set<string> := {};
      ghost var tail := input[at..];
      while at < |input| && input[at] == '('
        invariant old(at) <= at <= |input|
        invariant RestOf(ReadPeers(input[at..], depth, peers)) == RestOf(ReadPeers(tail, depth, {}))
        decreases |input| - at
      {
        ghost var before := input[at..];
        at := at + 1;
        assert input[at..] == before[1..];
        PeersStep(before, depth, peers);
        var peer := Part(depth + 1);
        if peer.Err? || at == |input| || input[at] != ')' || peer.value.name in peers {
          return false;
        }
        ghost var rest := input[at..];
        at := at + 1;
        assert input[at..] == rest[1..];
        peers := peers + {peer.value.name};
      }
      PeersStop(input[at..], depth, peers);
      ok := true;
    }
  }

  lemma PeersStep(s: string, depth: nat, seen: set<string>)
    requires s != "" && s[0] == '('
    ensures var part := ReadPart(s[1..], depth + 1);
      RestOf(ReadPeers(s, depth, seen)) ==
      if part.Err? || part.value.1 == "" || part.value.1[0] != ')' || part.value.0.name in seen then None
      else RestOf(ReadPeers(part.value.1[1..], depth, seen + {part.value.0.name}))
  {
    hide ReadPart;
  }

  lemma PeersStop(s: string, depth: nat, seen: set<string>)
    requires s == "" || s[0] != '('
    ensures RestOf(ReadPeers(s, depth, seen)) == Some(s)
  {
  }

  method ReadSnapshot(text: string) returns (r: Result<Identity, Drift>)
    ensures r == Snapshot(text)
  {
    if |text| > MAXIMUM_SNAPSHOT {
      return Err(IdentityDrift);
    }
    var reader := new SnapshotReader(text);
    assert text[0..] == text;
    r := reader.Part(0);
    if r.Ok? && reader.at != |text| {
      r := Err(IdentityDrift);
    }
  }
}
