/** The member loop that admits a capture archive: one pass that keeps a map of folded
    identities and four counters (scripts/real_gpu_capture.py:1198-1262).  The fold
    (NFKC, then case folding) is an arbitrary function. */
module CaptureArchive {

  type Path = seq<string>

  datatype Kind = Directory | File | Link | Special

  datatype Member = Member(name: string, kind: Kind, mode: int, size: int)

  type Fold = string -> string

  const MAX_FILES: nat := 20_000
  const MAX_MEMBERS: nat := 40_000
  const MAX_DIRECTORIES: nat := 20_000
  const MAX_BYTES: nat := 2_147_483_648

  const ROOT: string := "capture"

  /** Components of a POSIX path; empty and "." components vanish. */
  function Parts(name: string, pending: string := ""): Path
    decreases |name|
  {
    if name == "" then Component(pending)
    else if name[0] == '/' then Component(pending) + Parts(name[1..])
    else Parts(name[1..], pending + [name[0]])
  }

  function Component(part: string): Path {
    if part == "" || part == "." then [] else [part]
  }

  function Canonical(p: Path): string {
    if p == [] then "" else if |p| == 1 then p[0] else p[0] + "/" + Canonical(p[1..])
  }

  function PathOf(m: Member): Path { Parts(m.name) }

  function Identity(fold: Fold, p: Path): string { fold(Canonical(p)) }

  function Id(fold: Fold, m: Member): string { Identity(fold, PathOf(m)) }

  /** Identities of the directories above p, as far as depth k. */
  function AboveTo(fold: Fold, p: Path, k: nat): set<string>
    requires k <= |p|
  {
    set d | 1 <= d < k :: Identity(fold, p[..d])
  }

  function Above(fold: Fold, m: Member): set<string> { AboveTo(fold, PathOf(m), |PathOf(m)|) }

  predicate SafeMember(m: Member) {
    && (m.name == "" || m.name[0] != '/')
    && PathOf(m) != [] && PathOf(m)[0] == ROOT && ".." !in PathOf(m)
    && (m.kind == Directory || m.kind == File)
    && m.size >= 0
    && 0 <= m.mode <= 0x1ff
    && (m.mode / 0x100) % 2 == 1                               // owner may read
    && (m.kind == Directory ==> (m.mode / 0x40) % 2 == 1)      // and search
  }

  // ---- Specification ---------------------------------------------------------------

  function Files(fold: Fold, ms: seq<Member>): set<string> {
    set i | 0 <= i < |ms| && ms[i].kind == File :: Id(fold, ms[i])
  }

  /** Distinct identities of all directories, listed or implied. */
  function Directories(fold: Fold, ms: seq<Member>): set<string> {
    (set i | 0 <= i < |ms| && ms[i].kind == Directory :: Id(fold, ms[i]))
    + set i, d | 0 <= i < |ms| && d in Above(fold, ms[i]) :: d
  }

  function FileCount(ms: seq<Member>): nat {
    if ms == [] then 0 else FileCount(ms[..|ms| - 1]) + if ms[|ms| - 1].kind == File then 1 else 0
  }

  function TotalBytes(ms: seq<Member>): int {
    if ms == [] then 0 else TotalBytes(ms[..|ms| - 1]) + if ms[|ms| - 1].kind == File then ms[|ms| - 1].size else 0
  }

  /** Whether the next member collides with nothing accepted so far or implied by itself. */
  predicate Fits(fold: Fold, earlier: seq<Member>, m: Member) {
    && Above(fold, m) !! Files(fold, earlier)
    && Id(fold, m) !in Files(fold, earlier) + Directories(fold, earlier) + Above(fold, m)
  }

  predicate Sound(fold: Fold, ms: seq<Member>) {
    forall n :: 0 <= n < |ms| ==> SafeMember(ms[n]) && Fits(fold, ms[..n], ms[n])
  }

  predicate WithinLimits(fold: Fold, ms: seq<Member>) {
    && |ms| <= MAX_MEMBERS
    && |Directories(fold, ms)| <= MAX_DIRECTORIES
    && FileCount(ms) <= MAX_FILES
    && TotalBytes(ms) <= MAX_BYTES
  }

  predicate HasRoot(ms: seq<Member>) {
    exists i :: 0 <= i < |ms| && PathOf(ms[i]) == [ROOT]
  }

  predicate Admitted(fold: Fold, ms: seq<Member>) {
    Sound(fold, ms) && WithinLimits(fold, ms) && HasRoot(ms)
  }

  // ---- What admission means ----------------------------------------------------------

  /** The same, pair by pair: identities are pairwise distinct; nothing is listed after a
      member it contains; no file contains a later member. */
  predicate Unambiguous(fold: Fold, ms: seq<Member>) {
    && (forall i, j :: 0 <= i < j < |ms| ==> Id(fold, ms[i]) != Id(fold, ms[j]))
    && (forall i, j :: 0 <= i <= j < |ms| ==> Id(fold, ms[j]) !in Above(fold, ms[i]))
    && (forall i, j :: 0 <= i < j < |ms| && ms[i].kind == File ==> Id(fold, ms[i]) !in Above(fold, ms[j]))
  }

  lemma SoundMeans(fold: Fold, ms: seq<Member>)
    ensures Sound(fold, ms) <==> (forall i :: 0 <= i < |ms| ==> SafeMember(ms[i])) && Unambiguous(fold, ms)
  {
    hide Above, Id, SafeMember, Fits;
    if Sound(fold, ms) {
      KindsOf(ms, |ms|);
      forall i, j | 0 <= i <= j < |ms|
        ensures i < j ==> Id(fold, ms[i]) != Id(fold, ms[j])
        ensures Id(fold, ms[j]) !in Above(fold, ms[i])
        ensures i < j && ms[i].kind == File ==> Id(fold, ms[i]) !in Above(fold, ms[j])
      {
        FitsMeans(fold, ms, j);
      }
    }
    if (forall i :: 0 <= i < |ms| ==> SafeMember(ms[i])) && Unambiguous(fold, ms) {
      forall n | 0 <= n < |ms| ensures Fits(fold, ms[..n], ms[n]) {
        assert FitsPairwise(fold, ms, n) by { KindsOf(ms, n); }
        FitsMeans(fold, ms, n);
      }
    }
  }

  lemma KindsOf(ms: seq<Member>, n: nat)
    requires n <= |ms| && forall i :: 0 <= i < |ms| ==> SafeMember(ms[i])
    ensures forall i :: 0 <= i < n ==> ms[i].kind == File || ms[i].kind == Directory
  {
  }

  predicate FitsPairwise(fold: Fold, ms: seq<Member>, n: nat)
    requires n < |ms|
  {
    && (forall i :: 0 <= i < n && (ms[i].kind == File || ms[i].kind == Directory) ==> Id(fold, ms[i]) != Id(fold, ms[n]))
    && (forall i :: 0 <= i <= n ==> Id(fold, ms[n]) !in Above(fold, ms[i]))
    && (forall i :: 0 <= i < n && ms[i].kind == File ==> Id(fold, ms[i]) !in Above(fold, ms[n]))
  }

  lemma FitsMeans(fold: Fold, ms: seq<Member>, n: nat)
    requires n < |ms|
    ensures Fits(fold, ms[..n], ms[n]) <==> FitsPairwise(fold, ms, n)
  {
    hide Above, Id;
    var earlier := ms[..n];
    assert forall i :: 0 <= i < n ==> earlier[i] == ms[i];
    if FitsPairwise(fold, ms, n) {
      assert Id(fold, ms[n]) !in Directories(fold, earlier);
    }
  }

  /** The listing starts with the top-level entry, whatever the fold. */
  lemma FirstIsRoot(fold: Fold, ms: seq<Member>)
    requires Admitted(fold, ms)
    ensures ms != [] && PathOf(ms[0]) == [ROOT]
  {
    hide SafeMember;
    SoundMeans(fold, ms);
    var i :| 0 <= i < |ms| && PathOf(ms[i]) == [ROOT];
    var first := PathOf(ms[0]);
    RootOf(ms[0]);
    if |first| >= 2 { RootIsAbove(fold, ms[0]); }
  }

  lemma RootIsAbove(fold: Fold, m: Member)
    requires |PathOf(m)| >= 2 && PathOf(m)[0] == ROOT
    ensures Identity(fold, [ROOT]) in Above(fold, m)
  {
    hide PathOf, Identity;
    assert PathOf(m)[..1] == [ROOT];
  }

  lemma RootOf(m: Member)
    requires SafeMember(m)
    ensures PathOf(m) != [] && PathOf(m)[0] == ROOT
  {
  }

  /** A file shares its identity with no other place of the tree: neither a listed member
      nor an implied directory. */
  lemma FilesCollideWithNothing(fold: Fold, ms: seq<Member>, i: nat, j: nat, k: nat)
    requires Admitted(fold, ms) && i < |ms| && ms[i].kind == File
    requires j < |ms| && 1 <= k <= |PathOf(ms[j])|
    ensures Identity(fold, PathOf(ms[j])[..k]) == Id(fold, ms[i]) <==> i == j && k == |PathOf(ms[j])|
  {
    hide SafeMember, Identity, PathOf;
    SoundMeans(fold, ms);
    var p := PathOf(ms[j]);
    if k == |p| {
      assert p[..k] == p;
    } else {
      assert Identity(fold, p[..k]) in Above(fold, ms[j]);
    }
  }

  ghost predicate Listed(ms: seq<Member>, p: Path) {
    exists i :: 0 <= i < |ms| && PathOf(ms[i]) == p
  }

  ghost predicate Place(ms: seq<Member>, p: Path) {
    exists i, k :: 0 <= i < |ms| && 1 <= k <= |PathOf(ms[i])| && p == PathOf(ms[i])[..k]
  }

  /** Two differently spelled places that fold together are directories, not both listed. */
  lemma OnlyImpliedDirectoriesCollide(fold: Fold, ms: seq<Member>, p: Path, q: Path)
    requires Admitted(fold, ms) && Place(ms, p) && Place(ms, q) && p != q && Identity(fold, p) == Identity(fold, q)
    ensures Identity(fold, p) !in Files(fold, ms)
    ensures !Listed(ms, p) || !Listed(ms, q)
  {
    hide Identity, PathOf, Admitted;
    var i: nat, k: nat :| i < |ms| && 1 <= k <= |PathOf(ms[i])| && p == PathOf(ms[i])[..k];
    var j: nat, l: nat :| j < |ms| && 1 <= l <= |PathOf(ms[j])| && q == PathOf(ms[j])[..l];
    forall f: nat | f < |ms| && ms[f].kind == File ensures Id(fold, ms[f]) != Identity(fold, p) {
      FilesCollideWithNothing(fold, ms, f, i, k);
      FilesCollideWithNothing(fold, ms, f, j, l);
    }
    ListedDiffer(fold, ms, p, q);
  }

  lemma ListedDiffer(fold: Fold, ms: seq<Member>, p: Path, q: Path)
    requires Admitted(fold, ms) && p != q && Identity(fold, p) == Identity(fold, q)
    ensures !Listed(ms, p) || !Listed(ms, q)
  {
    hide Identity, PathOf, SafeMember;
    SoundMeans(fold, ms);
    assert forall i, j :: 0 <= i < |ms| && 0 <= j < |ms| && i != j ==> Id(fold, ms[i]) != Id(fold, ms[j]);
  }

  /** And such a collision is admitted: with a fold that takes "A" for "a", "capture/A" and
      "capture/a", neither of them listed. */
  lemma ImpliedDirectoriesMayCollide()
    ensures var ms, fold := CollidingListing(), FoldA;
      && Admitted(fold, ms)
      && Place(ms, ["capture", "A"]) && Place(ms, ["capture", "a"])
      && Identity(fold, ["capture", "A"]) == Identity(fold, ["capture", "a"])
  {
    hide Admitted, Place, Identity, Colliding;
    ListingCollides();
    CollisionsAreAdmitted(FoldA, CollidingListing());
  }

  /** A fold that differs from equality in one letter. */
  function FoldA(s: string): string {
    seq(|s|, i requires 0 <= i < |s| => if s[i] == 'A' then 'a' else s[i])
  }

  function CollidingListing(): seq<Member> {
    [Member("capture", Directory, 0x1ed, 0),
     Member("capture/A/x", File, 0x1a4, 1),
     Member("capture/a/y", File, 0x1a4, 1)]
  }

  lemma ListingCollides()
    ensures Colliding(FoldA, CollidingListing())
  {
    ListedPaths();
    ListedAreSafe();
    ListedIdentities();
    hide PathOf, SafeMember, Identity, FoldA;
  }

  lemma ListedPaths()
    ensures var ms := CollidingListing();
      PathOf(ms[0]) == ["capture"] && PathOf(ms[1]) == ["capture", "A", "x"] && PathOf(ms[2]) == ["capture", "a", "y"]
  {
    hide Parts, Canonical;
    Spelled1();
    Spelled3("A", "x");
    Spelled3("a", "y");
    Spellings();
  }

  lemma ListedAreSafe()
    ensures forall i :: 0 <= i < 3 ==> SafeMember(CollidingListing()[i])
  {
    ListedPaths();
    hide Parts, PathOf;
  }

  lemma ListedIdentities()
    ensures Identity(FoldA, ["capture"]) == FoldA("capture")
    ensures Identity(FoldA, ["capture", "A"]) == Identity(FoldA, ["capture", "a"]) == FoldA("capture/a")
    ensures Identity(FoldA, ["capture", "A", "x"]) == FoldA("capture/A/x")
    ensures Identity(FoldA, ["capture", "a", "y"]) == FoldA("capture/a/y")
    ensures FoldA("capture") !in {FoldA("capture/a"), FoldA("capture/A/x"), FoldA("capture/a/y")}
    ensures FoldA("capture/A/x") !in {FoldA("capture/a"), FoldA("capture/a/y")} && FoldA("capture/a/y") != FoldA("capture/a")
  {
    hide Parts, Canonical, FoldA;
    Spelled1();
    Spelled3("A", "x");
    Spelled3("a", "y");
    Spellings();
    FoldedApart();
  }

  lemma Spelled1()
    ensures Canonical(["capture"]) == "capture" && Parts("capture") == ["capture"]
  {
    PartsOfCanonical(["capture"]);
  }

  lemma Spelled3(directory: string, file: string)
    requires directory != "" && directory != "." && '/' !in directory && file != "" && file != "." && '/' !in file
    ensures Canonical(["capture", directory, file]) == "capture/" + directory + "/" + file
    ensures Parts("capture/" + directory + "/" + file) == ["capture", directory, file]
    ensures Canonical(["capture", directory]) == "capture/" + directory
  {
    var p := ["capture", directory, file];
    assert p[1..] == [directory, file] && p[1..][1..] == [file];
    assert Canonical([directory, file]) == directory + "/" + file;
    assert "capture" + "/" + (directory + "/" + file) == "capture/" + directory + "/" + file;
    assert ["capture", directory][1..] == [directory];
    assert "capture" + "/" == "capture/";
    PartsOfCanonical(p);
  }

  lemma Spellings()
    ensures "capture/" + "A" + "/" + "x" == "capture/A/x" && "capture/" + "a" + "/" + "y" == "capture/a/y"
    ensures "capture/" + "A" == "capture/A" && "capture/" + "a" == "capture/a"
  {
  }

  lemma FoldedApart()
    ensures FoldA("capture/A") == FoldA("capture/a")
    ensures |FoldA("capture")| == 7 && |FoldA("capture/A")| == 9
    ensures |FoldA("capture/A/x")| == 11 && |FoldA("capture/a/y")| == 11
    ensures FoldA("capture/A/x") != FoldA("capture/a/y")
  {
    assert FoldA("capture/A/x")[10] == 'x' && FoldA("capture/a/y")[10] == 'y';
  }

  lemma CollisionsAreAdmitted(fold: Fold, ms: seq<Member>)
    requires Colliding(fold, ms)
    ensures Admitted(fold, ms)
    ensures Place(ms, ["capture", "A"]) && Place(ms, ["capture", "a"])
    ensures Identity(fold, ["capture", "A"]) == Identity(fold, ["capture", "a"])
  {
    hide PathOf, Identity, SafeMember, WithinLimits, Sound;
    CollisionIsSound(fold, ms);
    CollisionWithinLimits(fold, ms);
    assert PathOf(ms[1])[..2] == ["capture", "A"] && PathOf(ms[2])[..2] == ["capture", "a"];
  }

  predicate Colliding(fold: Fold, ms: seq<Member>) {
    && |ms| == 3 && (forall i :: 0 <= i < 3 ==> SafeMember(ms[i]) && ms[i].size <= 1)
    && ms[0].kind == Directory && PathOf(ms[0]) == ["capture"]
    && ms[1].kind == File && PathOf(ms[1]) == ["capture", "A", "x"]
    && ms[2].kind == File && PathOf(ms[2]) == ["capture", "a", "y"]
    && Identity(fold, ["capture", "A"]) == Identity(fold, ["capture", "a"])
    && Id(fold, ms[0]) !in {Id(fold, ms[1]), Id(fold, ms[2]), Identity(fold, ["capture", "A"])}
    && Id(fold, ms[1]) !in {Id(fold, ms[2]), Identity(fold, ["capture", "A"])}
    && Id(fold, ms[2]) != Identity(fold, ["capture", "A"])
  }

  lemma CollisionIsSound(fold: Fold, ms: seq<Member>)
    requires Colliding(fold, ms)
    ensures Sound(fold, ms)
  {
    hide PathOf, Identity, SafeMember;
    Twice(fold, PathOf(ms[1]));
    Twice(fold, PathOf(ms[2]));
    SoundMeans(fold, ms);
  }

  lemma CollisionWithinLimits(fold: Fold, ms: seq<Member>)
    requires Colliding(fold, ms)
    ensures WithinLimits(fold, ms)
  {
    hide PathOf, Identity, SafeMember, FileCount, TotalBytes, Directories;
    Twice(fold, PathOf(ms[1]));
    Twice(fold, PathOf(ms[2]));
    Start(fold, ms);
    Prefixes(ms, 0);
    Prefixes(ms, 1);
    Prefixes(ms, 2);
    OneMore(fold, ms[..0], ms[0]);
    OneMore(fold, ms[..1], ms[1]);
    OneMore(fold, ms[..2], ms[2]);
    assert Directories(fold, ms) == {Identity(fold, ["capture"]), Identity(fold, ["capture", "A"])};
    TwoAtMost(Identity(fold, ["capture"]), Identity(fold, ["capture", "A"]));
  }

  lemma TwoAtMost(a: string, b: string)
    ensures |{a, b}| <= 2
  {
  }

  lemma Twice(fold: Fold, p: Path)
    requires |p| == 3
    ensures AboveTo(fold, p, 3) == {Identity(fold, [p[0]]), Identity(fold, [p[0], p[1]])}
  {
    hide Identity;
    assert p[..1] == [p[0]] && p[..2] == [p[0], p[1]];
  }

  /** A path whose components a name can spell is read back from its canonical spelling. */
  lemma {:induction false} PartsOfCanonical(p: Path)
    requires forall i :: 0 <= i < |p| ==> p[i] != "" && p[i] != "." && '/' !in p[i]
    ensures Parts(Canonical(p)) == p
  {
    if p != [] {
      Scan(p[0], if |p| == 1 then "" else "/" + Canonical(p[1..]), "");
      assert "" + p[0] == p[0];
      if |p| == 1 {
        assert p[0] + "" == p[0];
      } else {
        PartsOfCanonical(p[1..]);
        assert ("/" + Canonical(p[1..]))[1..] == Canonical(p[1..]);
        assert p[0] + "/" + Canonical(p[1..]) == p[0] + ("/" + Canonical(p[1..]));
      }
    }
  }

  lemma {:induction false} Scan(part: string, rest: string, pending: string)
    requires '/' !in part
    ensures Parts(part + rest, pending) == Parts(rest, pending + part)
  {
    if part == "" {
      assert part + rest == rest && pending + part == pending;
    } else {
      Scan(part[1..], rest, pending + [part[0]]);
      assert (part + rest)[1..] == part[1..] + rest;
      assert pending + [part[0]] + part[1..] == pending + part;
    }
  }

  lemma {:induction false} PartsAreComponents(name: string, pending: string, i: nat)
    requires i < |Parts(name, pending)| && '/' !in pending
    ensures Parts(name, pending)[i] != "" && Parts(name, pending)[i] != "." && '/' !in Parts(name, pending)[i]
    decreases |name|
  {
    if name != "" {
      if name[0] == '/' {
        var first := Component(pending);
        if i >= |first| { PartsAreComponents(name[1..], "", i - |first|); }
      } else {
        PartsAreComponents(name[1..], pending + [name[0]], i);
      }
    }
  }

  /** What an admitted member's name, kind, size and mode exclude: every place below `capture`
      and nowhere else, owner-readable, and for directories searchable by their owner. */
  lemma AdmittedMembers(fold: Fold, ms: seq<Member>, i: nat)
    requires Admitted(fold, ms) && i < |ms|
    ensures var m, p := ms[i], PathOf(ms[i]);
      && (m.name == "" || m.name[0] != '/') && p != [] && p[0] == "capture"
      && (forall k :: 0 <= k < |p| ==> p[k] != "" && p[k] != "." && p[k] != ".." && '/' !in p[k])
      && (m.kind == File || m.kind == Directory) && m.size >= 0
      && 0 <= m.mode <= 511 && m.mode % 512 >= 256 && (m.kind == Directory ==> m.mode % 128 >= 64)
  {
    hide Fits, Parts;
    assert SafeMember(ms[i]);
    var p := PathOf(ms[i]);
    forall k | 0 <= k < |p| ensures p[k] != "" && p[k] != "." && p[k] != ".." && '/' !in p[k] {
      PartsAreComponents(ms[i].name, "", k);
      assert p[k] in p;
    }
    Bits(ms[i].mode);
  }

  lemma Bits(mode: nat)
    requires mode <= 511
    ensures (mode / 0x100) % 2 == 1 ==> mode % 512 >= 256
    ensures (mode / 0x40) % 2 == 1 ==> mode % 128 >= 64
  {
    assert mode % 512 == mode && (mode < 256 ==> mode / 0x100 == 0);
    if (mode / 0x40) % 2 == 1 { Odd(mode / 0x40, mode % 0x40); }
    assert mode == 64 * (mode / 0x40) + mode % 0x40;
  }

  lemma Odd(q: nat, rest: nat)
    requires rest < 64 && q <= 7 && q % 2 == 1
    ensures (64 * q + rest) % 128 == 64 + rest
  {
    assert q == 1 || q == 3 || q == 5 || q == 7;
  }

  /** Climbing out, starting elsewhere, links, foreign modes and unreadable entries are refused. */
  lemma BadMembersAreRefused(fold: Fold)
    ensures !Admitted(fold, [Member("capture/../x", File, 0x1a4, 0)]) && !Admitted(fold, [Member("other", File, 0x1a4, 0)])
    ensures !Admitted(fold, [Member("/capture", File, 0x1a4, 0)]) && !Admitted(fold, [Member("capture", Link, 0x1a4, 0)])
    ensures !Admitted(fold, [Member("capture", Directory, 0x9ed, 0)]) && !Admitted(fold, [Member("capture", File, 0xa4, 0)])
    ensures !Admitted(fold, [Member("capture", Directory, 0x1a4, 0)]) && !Admitted(fold, [Member("capture", File, 0x1a4, -1)])
  {
    hide Admitted;
    BadNames();
    BadKindsAndModes();
    hide SafeMember;
    Refused(fold, Member("capture/../x", File, 0x1a4, 0));
    Refused(fold, Member("other", File, 0x1a4, 0));
    Refused(fold, Member("/capture", File, 0x1a4, 0));
    Refused(fold, Member("capture", Link, 0x1a4, 0));
    Refused(fold, Member("capture", Directory, 0x9ed, 0));
    Refused(fold, Member("capture", File, 0xa4, 0));
    Refused(fold, Member("capture", Directory, 0x1a4, 0));
    Refused(fold, Member("capture", File, 0x1a4, -1));
  }

  lemma BadNames()
    ensures !SafeMember(Member("capture/../x", File, 0x1a4, 0)) && !SafeMember(Member("other", File, 0x1a4, 0))
    ensures !SafeMember(Member("/capture", File, 0x1a4, 0))
  {
    Spelled3("..", "x");
    assert "capture/" + ".." + "/" + "x" == "capture/../x";
    PartsOfCanonical(["other"]);
    hide Parts;
    assert ["capture", "..", "x"][1] == "..";
    assert "other"[0] == 'o' && ROOT[0] == 'c';
  }

  lemma BadKindsAndModes()
    ensures !SafeMember(Member("capture", Link, 0x1a4, 0)) && !SafeMember(Member("capture", Directory, 0x9ed, 0))
    ensures !SafeMember(Member("capture", File, 0xa4, 0)) && !SafeMember(Member("capture", Directory, 0x1a4, 0))
    ensures !SafeMember(Member("capture", File, 0x1a4, -1))
  {
    hide PathOf;
  }

  lemma Refused(fold: Fold, m: Member)
    requires !SafeMember(m)
    ensures !Admitted(fold, [m])
  {
    hide SafeMember;
    SoundStart(fold, [m]);
    hide Sound;
  }

  lemma SoundStart(fold: Fold, ms: seq<Member>)
    requires ms != []
    ensures Sound(fold, ms) ==> SafeMember(ms[0])
  {
    hide SafeMember, Fits;
  }

  /** The directory counter's meaning: listed members and implied directories, each identity once. */
  lemma IdentitiesAreCounted(fold: Fold, ms: seq<Member>)
    requires Sound(fold, ms)
    ensures |Files(fold, ms)| == FileCount(ms) && Files(fold, ms) !! Directories(fold, ms)
  {
    if ms != [] {
      var n := |ms| - 1;
      SoundPrefix(fold, ms, n);
      IdentitiesAreCounted(fold, ms[..n]);
      Prefixes(ms, n);
      OneMore(fold, ms[..n], ms[n]);
    }
  }

  lemma SoundPrefix(fold: Fold, ms: seq<Member>, n: nat)
    requires n <= |ms| && Sound(fold, ms)
    ensures Sound(fold, ms[..n])
  {
    hide SafeMember, Fits;
    forall k | 0 <= k < n ensures SafeMember(ms[..n][k]) && Fits(fold, ms[..n][..k], ms[..n][k]) {
      assert ms[..n][..k] == ms[..k];
    }
  }

  /** How one more member changes the sets and counters. */
  lemma OneMore(fold: Fold, earlier: seq<Member>, m: Member)
    ensures var more, id := earlier + [m], Id(fold, m);
      && (m.kind == File ==> Files(fold, more) == Files(fold, earlier) + {id})
      && (m.kind != File ==> Files(fold, more) == Files(fold, earlier))
      && (m.kind == Directory ==> Directories(fold, more) == Directories(fold, earlier) + Above(fold, m) + {id})
      && (m.kind != Directory ==> Directories(fold, more) == Directories(fold, earlier) + Above(fold, m))
      && FileCount(more) == FileCount(earlier) + (if m.kind == File then 1 else 0)
      && TotalBytes(more) == TotalBytes(earlier) + (if m.kind == File then m.size else 0)
  {
    hide Id, Above;
    var more := earlier + [m];
    assert more[..|more| - 1] == earlier;
    assert forall i :: 0 <= i < |earlier| ==> more[i] == earlier[i];
    assert more[|earlier|] == m;
  }

  lemma Prefixes(ms: seq<Member>, n: nat)
    requires n < |ms|
    ensures ms[..n + 1] == ms[..n] + [ms[n]] && ms[..|ms|] == ms && ms[..0] == []
  {
  }

  lemma DirectoriesGrow(fold: Fold, ms: seq<Member>, n: nat)
    requires n <= |ms|
    ensures |Directories(fold, ms[..n])| <= |Directories(fold, ms)|
    ensures FileCount(ms[..n]) <= FileCount(ms)
    ensures (forall i :: 0 <= i < |ms| ==> ms[i].size >= 0) ==> TotalBytes(ms[..n]) <= TotalBytes(ms)
    decreases |ms| - n
  {
    if n == |ms| {
      assert ms[..n] == ms;
    } else {
      Prefixes(ms, n);
      OneMore(fold, ms[..n], ms[n]);
      Larger(Directories(fold, ms[..n]), Directories(fold, ms[..n + 1]));
      DirectoriesGrow(fold, ms, n + 1);
    }
  }

  lemma Larger(a: set<string>, b: set<string>)
    requires a <= b
    ensures |a| <= |b|
  {
    assert b == a + (b - a);
  }

  datatype Tally = Tally(members: nat, directories: nat, files: nat, bytes: int)

  /** The map knows exactly the files and the directories, and which is which. */
  ghost predicate Knows(seen: map<string, bool>, files: set<string>, dirs: set<string>) {
    && files !! dirs
    && (forall id :: id in seen <==> id in files || id in dirs)
    && (forall id :: id in seen ==> (seen[id] <==> id in dirs))
  }

  /** The state the loop has after `ms`: what the map and the counters hold. */
  ghost predicate Records(fold: Fold, ms: seq<Member>, seen: map<string, bool>, t: Tally) {
    && Knows(seen, Files(fold, ms), Directories(fold, ms))
    && t == Tally(|ms|, |Directories(fold, ms)|, FileCount(ms), TotalBytes(ms))
  }

  lemma Start(fold: Fold, ms: seq<Member>)
    ensures Directories(fold, ms[..0]) == {} && FileCount(ms[..0]) == 0 && TotalBytes(ms[..0]) == 0
    ensures Records(fold, ms[..0], map[], Tally(0, 0, 0, 0)) && Sound(fold, ms[..0]) && WithinLimits(fold, ms[..0])
    ensures ms[..|ms|] == ms
  {
    assert Files(fold, []) == {} && Directories(fold, []) == {};
  }

  lemma SoundStep(fold: Fold, ms: seq<Member>, n: nat)
    requires n < |ms| && Sound(fold, ms[..n])
    ensures Sound(fold, ms[..n + 1]) <==> SafeMember(ms[n]) && Fits(fold, ms[..n], ms[n])
    ensures Sound(fold, ms) ==> Sound(fold, ms[..n + 1])
  {
    hide SafeMember, Fits;
    if Sound(fold, ms) { SoundPrefix(fold, ms, n + 1); }
    var less, more := ms[..n], ms[..n + 1];
    assert forall k :: 0 <= k < n ==> more[..k] == less[..k] && more[k] == less[k];
    assert more[..n] == less && more[n] == ms[n];
    if SafeMember(ms[n]) && Fits(fold, less, ms[n]) {
      forall k | 0 <= k <= n ensures SafeMember(more[k]) && Fits(fold, more[..k], more[k]) {
        if k < n { assert SafeMember(less[k]) && Fits(fold, less[..k], less[k]); }
      }
    }
  }

  lemma LimitStep(fold: Fold, ms: seq<Member>, n: nat, seen: map<string, bool>, t: Tally)
    requires n <= |ms| && Records(fold, ms[..n], seen, t)
    ensures WithinLimits(fold, ms[..n]) <==>
      t.members <= MAX_MEMBERS && t.directories <= MAX_DIRECTORIES && t.files <= MAX_FILES && t.bytes <= MAX_BYTES
    ensures Admitted(fold, ms) ==> WithinLimits(fold, ms[..n])
  {
    hide Directories, FileCount, TotalBytes, Fits, PathOf;
    DirectoriesGrow(fold, ms, n);
  }

  lemma KnowsWhat(seen: map<string, bool>, files: set<string>, dirs: set<string>, id: string)
    requires Knows(seen, files, dirs)
    ensures id in seen && !seen[id] <==> id in files
    ensures id in seen <==> id in files || id in dirs
  {
  }

  lemma KnowsDirectory(seen: map<string, bool>, files: set<string>, dirs: set<string>, id: string)
    requires Knows(seen, files, dirs) && id !in files
    ensures Knows(seen[id := true], files, dirs + {id})
    ensures |dirs + {id}| == |dirs| + if id in dirs then 0 else 1
    ensures id in dirs ==> dirs + {id} == dirs
  {
    if id in dirs { assert dirs + {id} == dirs; }
  }

  lemma KnowsFile(seen: map<string, bool>, files: set<string>, dirs: set<string>, id: string)
    requires Knows(seen, files, dirs) && id !in dirs
    ensures Knows(seen[id := false], files + {id}, dirs)
  {
  }

  /** The inner loop: the directories a member implies. */
  method Imply(fold: Fold, p: Path, seen: map<string, bool>, count: nat, ghost files: set<string>, ghost dirs: set<string>)
    returns (ok: bool, grown: map<string, bool>, total: nat)
    requires p != [] && Knows(seen, files, dirs) && count == |dirs|
    ensures ok <==> AboveTo(fold, p, |p|) !! files
    ensures ok ==> Knows(grown, files, dirs + AboveTo(fold, p, |p|)) && total == |dirs + AboveTo(fold, p, |p|)|
    ensures ok ==> forall id :: id in seen ==> id in grown && grown[id] == seen[id]
  {
    hide Identity, Knows;
    ok, grown, total := false, seen, count;
    ghost var above: set<string> := {};
    assert AboveTo(fold, p, 1) == {} && dirs + {} == dirs;
    for depth := 1 to |p|
      invariant above == AboveTo(fold, p, depth) && above !! files
      invariant Knows(grown, files, dirs + above) && total == |dirs + above|
      invariant forall id :: id in seen ==> id in grown && grown[id] == seen[id]
    {
      var directory := Identity(fold, p[..depth]);
      OneDeeper(fold, p, depth, dirs);
      KnowsWhat(grown, files, dirs + above, directory);
      if directory in grown && !grown[directory] { return; }
      KnowsDirectory(grown, files, dirs + above, directory);
      if directory !in grown {
        grown := grown[directory := true];
        total := total + 1;
      }
      above := above + {directory};
    }
    ok := true;
  }

  /** One member against the map: it is recorded if and only if it fits, and what the map
      said before it still says. */
  method Add(fold: Fold, ghost earlier: seq<Member>, m: Member, seen: map<string, bool>, tally: Tally)
    returns (ok: bool, grown: map<string, bool>, t: Tally)
    requires Records(fold, earlier, seen, tally) && SafeMember(m)
    ensures ok <==> Fits(fold, earlier, m)
    ensures ok ==> Records(fold, earlier + [m], grown, t)
    ensures ok ==> forall id :: id in seen ==> id in grown && grown[id] == seen[id]
  {
    hide SafeMember, Files, Directories, Identity, AboveTo, FileCount, TotalBytes, Knows, Fits;
    Safely(m);
    FitsIs(fold, earlier, m);
    OneMore(fold, earlier, m);
    ghost var files, dirs := Files(fold, earlier), Directories(fold, earlier);
    t := tally;
    var directories: nat;
    ok, grown, directories := Imply(fold, PathOf(m), seen, tally.directories, files, dirs);
    if !ok { return; }
    var id := Id(fold, m);
    KnowsWhat(grown, files, dirs + Above(fold, m), id);
    ok := id !in grown;
    if !ok { return; }
    if m.kind == Directory {
      KnowsDirectory(grown, files, dirs + Above(fold, m), id);
      grown := grown[id := true];
      t := Tally(t.members + 1, directories + 1, t.files, t.bytes);
    } else {
      KnowsFile(grown, files, dirs + Above(fold, m), id);
      grown := grown[id := false];
      t := Tally(t.members + 1, directories, t.files + 1, t.bytes + m.size);
    }
  }

  lemma FitsIs(fold: Fold, earlier: seq<Member>, m: Member)
    ensures Fits(fold, earlier, m) <==>
      && Above(fold, m) !! Files(fold, earlier)
      && Id(fold, m) !in Files(fold, earlier)
      && Id(fold, m) !in Directories(fold, earlier) + Above(fold, m)
  {
    hide Files, Directories, Id, Above;
  }

  lemma OneDeeper(fold: Fold, p: Path, d: nat, dirs: set<string>)
    requires 1 <= d < |p|
    ensures var id := Identity(fold, p[..d]);
      && AboveTo(fold, p, d + 1) == AboveTo(fold, p, d) + {id}
      && id in AboveTo(fold, p, |p|)
      && dirs + AboveTo(fold, p, d + 1) == dirs + AboveTo(fold, p, d) + {id}
  {
    hide Identity;
    var id := Identity(fold, p[..d]);
    assert AboveTo(fold, p, d + 1) == AboveTo(fold, p, d) + {id};
  }

  lemma Safely(m: Member)
    requires SafeMember(m)
    ensures PathOf(m) != [] && m.size >= 0 && (m.kind == File || m.kind == Directory)
  {
  }

  lemma AdmittedIs(fold: Fold, ms: seq<Member>)
    ensures Admitted(fold, ms) <==> Sound(fold, ms) && WithinLimits(fold, ms) && HasRoot(ms)
  {
  }

  /** The whole loop. */
  method Admit(fold: Fold, ms: seq<Member>) returns (ok: bool, seen: map<string, bool>, tally: Tally)
    ensures ok <==> Admitted(fold, ms)
    ensures ok ==> Records(fold, ms, seen, tally)
  {
    hide SafeMember, Fits, Files, Directories, Sound, Admitted, Records, WithinLimits;
    ok, seen, tally := false, map[], Tally(0, 0, 0, 0);
    var hasRoot := false;
    AdmittedIs(fold, ms);
    Start(fold, ms);
    for n := 0 to |ms|
      invariant Records(fold, ms[..n], seen, tally) && Sound(fold, ms[..n]) && WithinLimits(fold, ms[..n])
      invariant hasRoot <==> exists i :: 0 <= i < n && PathOf(ms[i]) == [ROOT]
    {
      SoundStep(fold, ms, n);
      if !SafeMember(ms[n]) { return; }
      var added: bool;
      Prefixes(ms, n);
      added, seen, tally := Add(fold, ms[..n], ms[n], seen, tally);
      if !added { return; }
      LimitStep(fold, ms, n + 1, seen, tally);
      hasRoot := hasRoot || PathOf(ms[n]) == [ROOT];
      if tally.members > MAX_MEMBERS || tally.directories > MAX_DIRECTORIES || tally.files > MAX_FILES || tally.bytes > MAX_BYTES {
        return;
      }
    }
    ok := hasRoot;
  }

  /** The limits in figures. */
  lemma AdmittedSizes(fold: Fold, ms: seq<Member>)
    requires Admitted(fold, ms)
    ensures |ms| <= 40_000 && FileCount(ms) <= 20_000 && |Directories(fold, ms)| <= 20_000 && TotalBytes(ms) <= 2_147_483_648
  {
    hide Directories, Sound;
  }
}
