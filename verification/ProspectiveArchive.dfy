/** Extraction of a verified session archive: member screening, the owned-directory
    table, file writing under short writes, publication by one atomic rename
    (scripts/capture_real_gpu_over_ssh.py:1945-2215). */
module ProspectiveArchive {
  import opened Wrappers

  type Byte = bv8
  type Bytes = seq<Byte>
  type Path = seq<string>

  datatype Kind = Directory | File | Other

  /** `data` is what the archive really holds for the member, `size` what it declares. */
  datatype Member = Member(name: string, kind: Kind, size: int, data: Bytes)

  datatype Entry = Branch | Leaf(bytes: Bytes)

  const MAX_ARCHIVE: nat := 268_435_456
  const MAX_MEMBERS: nat := 8_192
  const MAX_DEPTH: nat := 32
  const MAX_IMPLICIT: nat := 1_024
  const MAX_EXPANDED: nat := 1_073_741_824
  const MAX_COMPONENT: nat := 255

  // ---- Names -------------------------------------------------------------------

  function RawName(m: Member): string {
    if m.kind == Directory && m.name != "" && m.name[|m.name| - 1] == '/' then m.name[..|m.name| - 1] else m.name
  }

  function Split(s: string): (p: Path)
    ensures |p| >= 1
  {
    if s == "" then [""]
    else if s[0] == '/' then [""] + Split(s[1..])
    else var rest := Split(s[1..]); [[s[0]] + rest[0]] + rest[1..]
  }

  function Joined(p: Path): string
    requires |p| >= 1
  {
    if |p| == 1 then p[0] else p[0] + "/" + Joined(p[1..])
  }

  lemma JoinedOne()
    ensures Joined([""]) == ""
  {
  }

  /** Different safe names never denote the same place in the tree. */
  lemma {:induction false} JoinedOfSplit(s: string)
    ensures Joined(Split(s)) == s
  {
    hide Joined;
    JoinedOne();
    if s != "" {
      JoinedOfSplit(s[1..]);
      var rest := Split(s[1..]);
      if s[0] == '/' {
        JoinedCons("", rest);
      } else {
        JoinedHead(s[0], rest);
      }
      assert [s[0]] + s[1..] == s;
    }
  }

  lemma JoinedCons(part: string, rest: Path)
    requires |rest| >= 1
    ensures Joined([part] + rest) == part + "/" + Joined(rest)
  {
    assert ([part] + rest)[1..] == rest;
  }

  lemma JoinedHead(c: char, rest: Path)
    requires |rest| >= 1
    ensures Joined([[c] + rest[0]] + rest[1..]) == [c] + Joined(rest)
  {
    if |rest| == 1 {
      assert [[c] + rest[0]] + rest[1..] == [[c] + rest[0]];
    } else {
      hide Joined;
      var tail := Joined(rest[1..]);
      JoinedCons([c] + rest[0], rest[1..]);
      JoinedCons(rest[0], rest[1..]);
      assert [rest[0]] + rest[1..] == rest;
      Associated(c, rest[0], tail);
    }
  }

  lemma Associated(c: char, a: string, b: string)
    ensures [c] + a + "/" + b == [c] + (a + "/" + b)
  {
  }

  function Utf8Length(s: string): nat {
    if s == "" then 0 else
      (if s[0] < 0x80 as char then 1 else if s[0] < 0x800 as char then 2 else if s[0] as int < 0x1_0000 then 3 else 4)
      + Utf8Length(s[1..])
  }

  predicate SafeComponent(part: string) {
    part != "" && part != "." && part != ".." && Utf8Length(part) <= MAX_COMPONENT
  }

  predicate SafeCharacter(c: char) { c != '\\' && c as int >= 32 && c as int != 127 }

  function Parts(m: Member): (p: Path)
    ensures |p| >= 1
  {
    Split(RawName(m))
  }

  predicate SafeMember(m: Member) {
    && |Parts(m)| <= MAX_DEPTH
    && (forall i :: 0 <= i < |Parts(m)| ==> SafeComponent(Parts(m)[i]))
    && (forall i :: 0 <= i < |RawName(m)| ==> SafeCharacter(RawName(m)[i]))
    && m.kind != Other
    && (m.kind == File ==> m.size >= 0)
  }

  // ---- What an accepted archive is ---------------------------------------------

  /** The non-empty proper prefixes of p. */
  function Above(p: Path): set<Path> {
    set k | 1 <= k < |p| :: p[..k]
  }

  function Ancestors(ms: seq<Member>): set<Path> {
    set i, p | 0 <= i < |ms| && p in Above(Parts(ms[i])) :: p
  }

  function Explicit(ms: seq<Member>): set<Path> {
    set i | 0 <= i < |ms| && ms[i].kind == Directory :: Parts(ms[i])
  }

  function FilePaths(ms: seq<Member>): set<Path> {
    set i | 0 <= i < |ms| && ms[i].kind == File :: Parts(ms[i])
  }

  function Expanded(ms: seq<Member>): int {
    if ms == [] then 0 else Expanded(Init(ms)) + if Last(ms).kind == File then Last(ms).size else 0
  }

  function Init<T>(s: seq<T>): seq<T>
    requires s != []
  {
    s[..|s| - 1]
  }

  function Last<T>(s: seq<T>): T
    requires s != []
  {
    s[|s| - 1]
  }

  function Required(ms: seq<Member>): set<Path> { Explicit(ms) + Ancestors(ms) }

  predicate Distinct(ms: seq<Member>) {
    forall i, j :: 0 <= i < j < |ms| ==> Parts(ms[i]) != Parts(ms[j])
  }

  predicate OneRoot(ms: seq<Member>) {
    forall i, j :: 0 <= i < |ms| && 0 <= j < |ms| ==> Parts(ms[i])[0] == Parts(ms[j])[0]
  }

  predicate Acceptable(ms: seq<Member>) {
    && 1 <= |ms| <= MAX_MEMBERS
    && (forall i :: 0 <= i < |ms| ==> SafeMember(ms[i]))
    && Distinct(ms)
    && OneRoot(ms)
    && Expanded(ms) <= MAX_EXPANDED
    && FilePaths(ms) !! Required(ms)
    && |Required(ms) - Explicit(ms)| <= MAX_IMPLICIT
  }

  /** The directories of the tree an archive denotes. */
  function Branches(dirs: set<Path>): map<Path, Entry> {
    map p | p in dirs + {[]} :: Branch
  }

  function Leaves(ms: seq<Member>): map<Path, Entry> {
    if ms == [] then map[]
    else if Last(ms).kind == File then Leaves(Init(ms))[Parts(Last(ms)) := Leaf(Last(ms).data)]
    else Leaves(Init(ms))
  }

  function Tree(ms: seq<Member>): map<Path, Entry> {
    Branches(Required(ms)) + Leaves(ms)
  }

  // ---- What that tree looks like -------------------------------------------------

  lemma {:induction false} LeavesAreTheFiles(ms: seq<Member>)
    ensures Leaves(ms).Keys == FilePaths(ms)
  {
    hide Parts;
    if ms != [] {
      LeavesAreTheFiles(Init(ms));
      assert forall i :: 0 <= i < |ms| - 1 ==> Init(ms)[i] == ms[i];
    }
  }

  lemma {:induction false} LeavesHold(ms: seq<Member>, i: nat)
    requires i < |ms| && ms[i].kind == File && Distinct(ms)
    ensures Parts(ms[i]) in Leaves(ms) && Leaves(ms)[Parts(ms[i])] == Leaf(ms[i].data)
  {
    hide Parts;
    if i < |ms| - 1 { LeavesHold(Init(ms), i); }
  }

  /** Where a required directory comes from. */
  lemma Origin(ms: seq<Member>, p: Path) returns (i: nat, k: nat)
    requires p in Required(ms) + FilePaths(ms)
    ensures i < |ms| && 1 <= k <= |Parts(ms[i])| && p == Parts(ms[i])[..k]
  {
    hide Parts;
    i :| i < |ms| && (Parts(ms[i]) == p || p in Above(Parts(ms[i])));
    if Parts(ms[i]) == p {
      k := |p|;
    } else {
      k :| 1 <= k < |Parts(ms[i])| && p == Parts(ms[i])[..k];
    }
  }

  lemma ParentsRequired(ms: seq<Member>, i: nat, k: nat)
    requires i < |ms| && 1 <= k < |Parts(ms[i])|
    ensures Parts(ms[i])[..k] in Required(ms)
  {
    hide Parts;
    assert Parts(ms[i])[..k] in Above(Parts(ms[i]));
  }

  /** Every ancestor directory of anything required is itself required. */
  lemma RequiredIsClosed(ms: seq<Member>, p: Path, k: nat)
    requires p in Required(ms) && 1 <= k < |p|
    ensures p[..k] in Required(ms)
  {
    hide Parts, Required;
    var i, n := Origin(ms, p);
    assert p[..k] == Parts(ms[i])[..k];
    ParentsRequired(ms, i, k);
  }

  /** An accepted archive denotes a tree: its files and directories are disjoint, every
      file holds its member's bytes, everything hangs below one top-level entry, and
      nothing else is there. */
  lemma TreeIsTheArchive(ms: seq<Member>)
    requires Acceptable(ms)
    ensures forall i :: 0 <= i < |ms| ==> Holds(ms, ms[i])
    ensures forall p :: p in Tree(ms) && p != [] ==> Hangs(ms, p)
  {
    hide Parts, SafeMember, Required, Tree, Holds, Hangs;
    forall i | 0 <= i < |ms| ensures Holds(ms, ms[i]) { MemberHeld(ms, i); }
    forall p | p in Tree(ms) && p != [] ensures Hangs(ms, p) { EntryHangs(ms, p); }
  }

  predicate Holds(ms: seq<Member>, m: Member) {
    && Parts(m) in Tree(ms)
    && Tree(ms)[Parts(m)] == if m.kind == File then Leaf(m.data) else Branch
  }

  ghost predicate Hangs(ms: seq<Member>, p: Path)
    requires ms != [] && p != []
  {
    && Init(p) in Tree(ms) && Tree(ms)[Init(p)] == Branch
    && p[0] == Parts(ms[0])[0]
    && exists i, k :: 0 <= i < |ms| && 1 <= k <= |Parts(ms[i])| && p == Parts(ms[i])[..k]
  }

  lemma MemberHeld(ms: seq<Member>, i: nat)
    requires Acceptable(ms) && i < |ms|
    ensures Holds(ms, ms[i])
  {
    hide Parts, Required;
    LeavesAreTheFiles(ms);
    assert SafeMember(ms[i]);
    if ms[i].kind == File {
      LeavesHold(ms, i);
    } else {
      DirectoryRequired(ms, i);
    }
  }

  lemma DirectoryRequired(ms: seq<Member>, i: nat)
    requires i < |ms| && ms[i].kind == Directory
    ensures Parts(ms[i]) in Required(ms)
  {
    hide Parts;
    assert Parts(ms[i]) in Explicit(ms);
  }

  lemma EntryHangs(ms: seq<Member>, p: Path)
    requires ms != [] && OneRoot(ms) && FilePaths(ms) !! Required(ms)
    requires p in Tree(ms) && p != []
    ensures Hangs(ms, p)
  {
    LeavesAreTheFiles(ms);
    hide Parts, Required, FilePaths, Leaves;
    var i, k := Origin(ms, p);
    assert p[0] == Parts(ms[i])[0];
    var parent := Init(p);
    if k > 1 {
      ParentsRequired(ms, i, k - 1);
      assert parent == Parts(ms[i])[..k - 1];
      assert parent in Branches(Required(ms));
    } else {
      assert parent == [];
    }
    NoLeafIsRequired(ms, parent);
  }

  lemma NoLeafIsRequired(ms: seq<Member>, p: Path)
    requires FilePaths(ms) !! Required(ms) && (p == [] || p in Required(ms))
    ensures p in Tree(ms) && Tree(ms)[p] == Branch
  {
    hide Required;
    LeavesAreTheFiles(ms);
  }

  // ---- Which names are accepted ------------------------------------------------------

  lemma {:induction false} SplitCharacter(s: string, i: nat, c: char)
    requires i < |Split(s)| && c in Split(s)[i]
    ensures c in s && c != '/'
  {
    if s != "" {
      var rest := Split(s[1..]);
      assert s == [s[0]] + s[1..];
      if s[0] == '/' {
        assert i > 0 && Split(s)[i] == rest[i - 1];
        SplitCharacter(s[1..], i - 1, c);
      } else if i > 0 || c != s[0] || c in rest[0] {
        SplitCharacter(s[1..], i, c);
      }
    }
  }

  lemma {:induction false} Utf8OfConcat(a: string, b: string)
    ensures Utf8Length(a + b) == Utf8Length(a) + Utf8Length(b)
  {
    if a == "" {
      assert a + b == b;
    } else {
      assert (a + b)[1..] == a[1..] + b;
      Utf8OfConcat(a[1..], b);
    }
  }

  /** Lengths of single characters in UTF-8 (section 3 of RFC 3629). */
  lemma Utf8OfOne(c: char)
    ensures c as int <= 0x7f ==> Utf8Length([c]) == 1
    ensures 0x80 <= c as int <= 0x7ff ==> Utf8Length([c]) == 2
    ensures 0x800 <= c as int <= 0xffff ==> Utf8Length([c]) == 3
    ensures 0x1_0000 <= c as int ==> Utf8Length([c]) == 4
  {
    assert [c][1..] == "";
  }

  /** No path of an accepted archive's tree leaves the root, hides a separator or a control
      character in a component, or is too deep or too long. */
  lemma AcceptedNames(ms: seq<Member>, p: Path, k: nat)
    requires Acceptable(ms) && p in Tree(ms) && k < |p|
    ensures |p| <= 32
    ensures p[k] != "" && p[k] != "." && p[k] != ".." && Utf8Length(p[k]) <= 255
    ensures forall c :: c in p[k] ==> c != '/' && c != '\\' && c as int >= 32 && c as int != 127
  {
    var i, n := Placed(ms, p);
    assert p[k] == Parts(ms[i])[k];
    SafeNames(ms[i], k);
  }

  lemma Placed(ms: seq<Member>, p: Path) returns (i: nat, n: nat)
    requires Acceptable(ms) && p in Tree(ms) && p != []
    ensures i < |ms| && SafeMember(ms[i]) && n <= |Parts(ms[i])| && p == Parts(ms[i])[..n]
  {
    hide Parts, SafeMember, Required, FilePaths, Leaves;
    LeavesAreTheFiles(ms);
    i, n := Origin(ms, p);
  }

  lemma SafeNames(m: Member, k: nat)
    requires SafeMember(m) && k < |Parts(m)|
    ensures |Parts(m)| <= 32
    ensures var part := Parts(m)[k];
      && part != "" && part != "." && part != ".." && Utf8Length(part) <= 255
      && forall c :: c in part ==> c != '/' && c != '\\' && c as int >= 32 && c as int != 127
  {
    hide Split, RawName, Utf8Length;
    assert SafeComponent(Parts(m)[k]);
    forall c | c in Parts(m)[k] ensures c != '/' && c != '\\' && c as int >= 32 && c as int != 127 {
      SplitCharacter(RawName(m), k, c);
      var j :| 0 <= j < |RawName(m)| && RawName(m)[j] == c;
      assert SafeCharacter(RawName(m)[j]);
    }
  }

  lemma {:induction false} SplitPart(part: string)
    requires '/' !in part
    ensures Split(part) == [part]
  {
    if part != "" {
      SplitPart(part[1..]);
      assert [part[0]] + part[1..] == part;
    }
  }

  lemma {:induction false} SplitFirst(part: string, rest: string)
    requires '/' !in part
    ensures Split(part + "/" + rest) == [part] + Split(rest)
  {
    var s := part + "/" + rest;
    if part == "" {
      assert s[0] == '/' && s[1..] == rest;
    } else {
      SplitFirst(part[1..], rest);
      assert s[1..] == part[1..] + "/" + rest;
      assert [part[0]] + part[1..] == part;
    }
  }

  lemma SplitThree(a: string, b: string, c: string)
    requires '/' !in a && '/' !in b && '/' !in c
    ensures Split(a + "/" + b) == [a, b] && Split(a + "/" + (b + "/" + c)) == [a, b, c]
  {
    SplitPart(b);
    SplitPart(c);
    SplitFirst(b, c);
    SplitFirst(a, b);
    SplitFirst(a, b + "/" + c);
  }

  /** The limits in figures, and the single root. */
  lemma AcceptedSizes(ms: seq<Member>)
    requires Acceptable(ms)
    ensures 1 <= |ms| <= 8_192 && Expanded(ms) <= 1_073_741_824 && |Required(ms) - Explicit(ms)| <= 1_024
    ensures forall i :: 0 <= i < |ms| ==> Parts(ms[i])[0] == Parts(ms[0])[0]
    ensures forall i :: 0 <= i < |ms| ==> ms[i].kind == Directory || (ms[i].kind == File && ms[i].size >= 0)
  {
    hide Parts, SafeMember, Required, Explicit, FilePaths, Expanded;
    forall i | 0 <= i < |ms| ensures ms[i].kind == Directory || (ms[i].kind == File && ms[i].size >= 0) { Kinds(ms[i]); }
  }

  lemma Kinds(m: Member)
    requires SafeMember(m)
    ensures m.kind == Directory || (m.kind == File && m.size >= 0)
  {
  }

  function FileNamed(name: string): Member { Member(name, File, 0, []) }

  /** Names that climb, stand still, repeat or start with a separator, or hold a backslash or a
      control character. */
  lemma BadNamesAreRefused()
    ensures !Acceptable([FileNamed("s/../x")]) && !Acceptable([FileNamed("s/./x")]) && !Acceptable([FileNamed("s//x")])
    ensures !Acceptable([FileNamed("/s")]) && !Acceptable([FileNamed("")]) && !Acceptable([FileNamed("..")])
    ensures !Acceptable([FileNamed("s\\x")]) && !Acceptable([FileNamed("s\nx")])
    ensures !Acceptable([Member("s//", Directory, 0, [])])
  {
    hide Acceptable, FileNamed;
    MiddleRefused("..");
    MiddleRefused(".");
    MiddleRefused("");
    assert "s" + "/" + (".." + "/" + "x") == "s/../x" && "s" + "/" + ("." + "/" + "x") == "s/./x" && "s" + "/" + ("" + "/" + "x") == "s//x";
    EndsRefused();
    CharactersRefused();
  }

  lemma MiddleRefused(part: string)
    requires part == "" || part == "." || part == ".."
    ensures !Acceptable([FileNamed("s" + "/" + (part + "/" + "x"))])
  {
    SplitThree("s", part, "x");
    hide Split, Acceptable;
    PartRefused(FileNamed("s" + "/" + (part + "/" + "x")), 1);
  }

  lemma EndsRefused()
    ensures !Acceptable([FileNamed("/s")]) && !Acceptable([FileNamed("")]) && !Acceptable([FileNamed("..")])
    ensures !Acceptable([Member("s//", Directory, 0, [])])
  {
    SplitPart("");
    SplitPart("..");
    SplitFirst("", "s");
    SplitFirst("s", "");
    assert "" + "/" + "s" == "/s" && "s" + "/" + "" == "s//"[..2];
    hide Split, Acceptable;
    PartRefused(FileNamed("/s"), 0);
    PartRefused(FileNamed(""), 0);
    PartRefused(FileNamed(".."), 0);
    PartRefused(Member("s//", Directory, 0, []), 1);
  }

  lemma CharactersRefused()
    ensures !Acceptable([FileNamed("s\\x")]) && !Acceptable([FileNamed("s\nx")])
  {
    hide Acceptable;
    CharacterRefused(FileNamed("s\\x"), 1);
    CharacterRefused(FileNamed("s\nx"), 1);
  }

  lemma PartRefused(m: Member, k: nat)
    requires k < |Parts(m)| && (Parts(m)[k] == "" || Parts(m)[k] == "." || Parts(m)[k] == ".." || Utf8Length(Parts(m)[k]) > 255)
    ensures !Acceptable([m])
  {
    hide Parts, Utf8Length, Required, Distinct, OneRoot, Expanded, FilePaths, Explicit;
    assert Acceptable([m]) ==> SafeMember([m][0]);
  }

  lemma CharacterRefused(m: Member, j: nat)
    requires j < |RawName(m)|
    requires var c := RawName(m)[j]; c == '\\' || c as int < 32 || c as int == 127
    ensures !Acceptable([m])
  {
    hide Parts, RawName, Required, Distinct, OneRoot, Expanded, FilePaths, Explicit;
    assert Acceptable([m]) ==> SafeMember([m][0]);
  }

  lemma {:induction false} LongNames(n: nat)
    ensures Utf8Length(seq(n, i => 'a')) == n
  {
    if n > 0 {
      LongNames(n - 1);
      assert seq(n, i => 'a')[1..] == seq(n - 1, i => 'a');
    }
  }

  /** A component of 256 bytes is refused. */
  lemma LongComponentIsRefused()
    ensures !Acceptable([FileNamed(seq(256, i => 'a'))])
  {
    LongNames(256);
    var name := seq(256, i => 'a');
    SplitPart(name);
    PartRefused(FileNamed(name), 0);
  }

  function Deep(n: nat): string { if n == 0 then "d" else "d" + "/" + Deep(n - 1) }

  lemma {:induction false} DeepParts(n: nat)
    ensures |Split(Deep(n))| == n + 1
  {
    if n == 0 {
      SplitPart("d");
    } else {
      DeepParts(n - 1);
      SplitFirst("d", Deep(n - 1));
    }
  }

  /** Thirty-three components are refused. */
  lemma DeepNameIsRefused()
    ensures !Acceptable([FileNamed(Deep(32))])
  {
    DeepParts(32);
    hide Split, Deep, Required, Distinct, OneRoot, Expanded, FilePaths, Explicit;
    var m := FileNamed(Deep(32));
    assert Acceptable([m]) ==> SafeMember([m][0]);
  }

  /** A directory, and a file in a directory that is only implied. */
  function Nested(): seq<Member> {
    [Member("s/", Directory, 0, []), Member("s/d/x", File, 1, [7])]
  }

  lemma NestedIsAccepted()
    ensures Acceptable(Nested())
    ensures Tree(Nested()) == map[[] := Branch, ["s"] := Branch, ["s", "d"] := Branch, ["s", "d", "x"] := Leaf([7])]
  {
    hide Split, RawName, Parts, SafeMember, Acceptable, Required, Leaves, FilePaths, Explicit, Expanded, Distinct, OneRoot;
    NestedIsSafe();
    NestedIsApart();
    NestedRequired();
    NestedLeaves();
    NestedIsSmall();
    AcceptableIs(Nested());
    assert Sound(Nested());
  }

  lemma NestedIsApart()
    ensures Distinct(Nested()) && OneRoot(Nested())
  {
    NestedParts();
    hide Parts;
  }

  lemma NestedIsSmall()
    ensures Expanded(Nested()) == 1
  {
    hide Parts;
    var ms := Nested();
    assert Init(ms) == [ms[0]] && Init([ms[0]]) == [];
    assert Expanded([ms[0]]) == Expanded([]);
  }

  lemma NestedRequired()
    ensures Required(Nested()) == {["s"], ["s", "d"]} && |Required(Nested()) - Explicit(Nested())| == 1
    ensures FilePaths(Nested()) == {["s", "d", "x"]}
  {
    NestedParts();
    NestedSets();
    hide Parts, Above;
    var ms := Nested();
    NoneYet(ms);
    OneMore(ms, 0);
    OneMore(ms, 1);
    hide FilePaths, Explicit, Ancestors;
    assert ms[..2] == ms;
    assert Explicit(ms) == {["s"]};
    assert Required(ms) - Explicit(ms) == {["s", "d"]};
  }

  lemma NestedParts()
    ensures Parts(Nested()[0]) == ["s"] && Parts(Nested()[1]) == ["s", "d", "x"]
  {
    SplitPart("s");
    SplitThree("s", "d", "x");
    assert "s/d/x" == "s" + "/" + ("d" + "/" + "x") && "s/"[..1] == "s";
  }

  lemma NestedIsSafe()
    ensures SafeMember(Nested()[0]) && SafeMember(Nested()[1])
  {
    NestedParts();
    hide Parts;
    assert Utf8Length("s") == 1 && Utf8Length("d") == 1 && Utf8Length("x") == 1;
    assert RawName(Nested()[0]) == "s" && RawName(Nested()[1]) == "s/d/x";
  }

  lemma NestedSets()
    ensures Above(["s"]) == {} && Above(["s", "d", "x"]) == {["s"], ["s", "d"]}
  {
    var p := ["s", "d", "x"];
    assert p[..1] == ["s"] && p[..2] == ["s", "d"];
  }

  lemma NestedLeaves()
    ensures Leaves(Nested()) == map[["s", "d", "x"] := Leaf([7])]
  {
    NestedParts();
    hide Parts;
    var ms := Nested();
    assert Init(ms) == [ms[0]] && Init([ms[0]]) == [];
    assert Leaves([ms[0]]) == Leaves([]);
  }

  // ---- Screening the members ------------------------------------------------------

  lemma NoneYet(ms: seq<Member>)
    ensures Ancestors(ms[..0]) == {} && Explicit(ms[..0]) == {} && FilePaths(ms[..0]) == {} && Expanded(ms[..0]) == 0
    ensures Leaves(ms[..0]) == map[] && Sound(ms[..0]) && Seen(ms[..0]) == {} && Tops(ms[..0]) == {} && ms[..|ms|] == ms
  {
  }

  lemma OneMore(ms: seq<Member>, n: nat)
    requires n < |ms|
    ensures ms[..n + 1] != [] && Init(ms[..n + 1]) == ms[..n] && Last(ms[..n + 1]) == ms[n]
    ensures Ancestors(ms[..n + 1]) == Ancestors(ms[..n]) + Above(Parts(ms[n]))
    ensures Explicit(ms[..n + 1]) == Explicit(ms[..n]) + if ms[n].kind == Directory then {Parts(ms[n])} else {}
    ensures FilePaths(ms[..n + 1]) == FilePaths(ms[..n]) + if ms[n].kind == File then {Parts(ms[n])} else {}
    ensures Expanded(ms[..n + 1]) == Expanded(ms[..n]) + if ms[n].kind == File then ms[n].size else 0
  {
    hide Parts, Above;
    var longer, shorter := ms[..n + 1], ms[..n];
    assert forall i :: 0 <= i < n ==> longer[i] == shorter[i];
    assert longer[n] == ms[n];
  }

  lemma {:induction false} ExpandedGrows(ms: seq<Member>, n: nat)
    requires n <= |ms| && Sound(ms)
    ensures Expanded(ms[..n]) <= Expanded(ms)
    decreases |ms| - n
  {
    hide SafeMember, Parts;
    if n < |ms| {
      NonNegative(ms[n]);
      OneMore(ms, n);
      ExpandedGrows(ms, n + 1);
    } else {
      assert ms[..n] == ms;
    }
  }

  lemma NonNegative(m: Member)
    requires SafeMember(m)
    ensures m.kind == File ==> m.size >= 0
    ensures m.kind != File ==> m.kind == Directory
  {
  }

  function Seen(ms: seq<Member>): set<Path> {
    set i | 0 <= i < |ms| :: Parts(ms[i])
  }

  function Tops(ms: seq<Member>): set<string> {
    set i | 0 <= i < |ms| :: Parts(ms[i])[0]
  }

  predicate Sound(ms: seq<Member>) {
    Distinct(ms) && forall i :: 0 <= i < |ms| ==> SafeMember(ms[i])
  }

  lemma SoundOneMore(ms: seq<Member>, n: nat)
    requires n < |ms|
    ensures Sound(ms[..n + 1]) <==> Sound(ms[..n]) && SafeMember(ms[n]) && Parts(ms[n]) !in Seen(ms[..n])
    ensures Seen(ms[..n + 1]) == Seen(ms[..n]) + {Parts(ms[n])}
    ensures Tops(ms[..n + 1]) == Tops(ms[..n]) + {Parts(ms[n])[0]}
  {
    hide SafeMember, Parts;
    var longer, shorter := ms[..n + 1], ms[..n];
    assert forall i :: 0 <= i < n ==> longer[i] == shorter[i];
    assert longer[n] == ms[n];
    assert Sound(longer) ==> Sound(shorter) && SafeMember(longer[n]);
  }

  lemma SoundPrefix(ms: seq<Member>, n: nat)
    requires n <= |ms| && Sound(ms)
    ensures Sound(ms[..n])
  {
    hide SafeMember, Parts;
  }

  lemma RootIsTheOnlyTop(ms: seq<Member>)
    requires ms != []
    ensures OneRoot(ms) <==> |Tops(ms)| == 1
  {
    hide Parts;
    var top := Parts(ms[0])[0];
    assert top in Tops(ms);
    if OneRoot(ms) { OneTop(Tops(ms), top); }
    if |Tops(ms)| == 1 {
      Lone(Tops(ms), top);
      assert forall i :: 0 <= i < |ms| ==> Parts(ms[i])[0] in Tops(ms);
    }
  }

  /** The two validation loops over the decoded members. */
  method Screen(ms: seq<Member>) returns (ok: bool, required: set<Path>, top: string)
    ensures ok <==> Acceptable(ms)
    ensures ok ==> required == Required(ms) && top == Parts(ms[0])[0]
  {
    hide SafeMember, Parts, Ancestors, Explicit, FilePaths, Expanded, Above, Seen, Tops, Distinct, OneRoot, Sound;
    ok, required, top := false, {}, "";
    AcceptableIs(ms);
    if |ms| == 0 || |ms| > MAX_MEMBERS { return; }
    var seen: set<Path> := {};
    var explicit: set<Path> := {};
    var files: set<Path> := {};
    var tops: set<string> := {};
    var total := 0;
    NoneYet(ms);
    for n := 0 to |ms|
      invariant Sound(ms[..n]) && seen == Seen(ms[..n]) && tops == Tops(ms[..n])
      invariant explicit == Explicit(ms[..n]) && files == FilePaths(ms[..n])
      invariant total == Expanded(ms[..n]) <= MAX_EXPANDED
    {
      var parts := Parts(ms[n]);
      SoundOneMore(ms, n);
      if Sound(ms) { SoundPrefix(ms, n + 1); }
      if !SafeMember(ms[n]) || parts in seen { return; }
      OneMore(ms, n);
      NonNegative(ms[n]);
      seen := seen + {parts};
      tops := tops + {parts[0]};
      if ms[n].kind == Directory {
        explicit := explicit + {parts};
      } else {
        files := files + {parts};
        total := total + ms[n].size;
        if total > MAX_EXPANDED {
          if Sound(ms) { ExpandedGrows(ms, n + 1); }
          return;
        }
      }
    }
    RootIsTheOnlyTop(ms);
    if |tops| != 1 { return; }
    required := explicit;
    for n := 0 to |ms|
      invariant required == Explicit(ms) + Ancestors(ms[..n])
    {
      OneMore(ms, n);
      required := required + Above(Parts(ms[n]));
    }
    ok := files * required == {} && |required - explicit| <= MAX_IMPLICIT;
    top := Parts(ms[0])[0];
  }

  lemma AcceptableIs(ms: seq<Member>)
    ensures Acceptable(ms) <==>
      && 1 <= |ms| <= MAX_MEMBERS
      && Sound(ms)
      && OneRoot(ms)
      && Expanded(ms) <= MAX_EXPANDED
      && FilePaths(ms) !! Required(ms)
      && |Required(ms) - Explicit(ms)| <= MAX_IMPLICIT
  {
    hide SafeMember, Distinct, OneRoot, FilePaths, Required, Explicit, Expanded;
  }

  lemma OneTop(tops: set<string>, top: string)
    requires top in tops && forall t :: t in tops ==> t == top
    ensures |tops| == 1
  {
    assert tops == {top};
  }

  lemma Lone(tops: set<string>, top: string)
    requires top in tops && |tops| == 1
    ensures forall t :: t in tops ==> t == top
  {
    var others := tops - {top};
    assert |others| == 0;
  }

  // ---- The disk ---------------------------------------------------------------------

  /** The private staging tree and the destination, on a disk whose every call may fail
      and may move fewer bytes than asked. */
  class Volume {
    const fails: nat -> bool
    const moves: nat -> nat
    var tick: nat
    var faulted: bool
    var nodes: map<Path, Entry>
    var inodes: map<Path, nat>
    var made: nat
    var published: Option<map<Path, Entry>>

    constructor (fails: nat -> bool, moves: nat -> nat, published: Option<map<Path, Entry>>)
      ensures this.published == published && !faulted
    {
      this.fails, this.moves, this.published := fails, moves, published;
      tick, faulted, nodes, inodes, made := 0, false, map[], map[], 0;
    }

    /** One system call's chance to fail. */
    method Attempt() returns (ok: bool)
      modifies this`tick, this`faulted
      ensures faulted == (old(faulted) || !ok)
    {
      ok := !fails(tick);
      faulted := faulted || !ok;
      tick := tick + 1;
    }

    method MakeRoot() returns (ok: bool)
      modifies this
      ensures published == old(published)
      ensures ok ==> faulted == old(faulted) && nodes == map[[] := Branch] && inodes.Keys == {[]} && made == 0
      ensures !ok ==> faulted
    {
      ok := Attempt();
      if ok {
        var root: Path, inode: nat := [], tick;
        nodes, inodes, made := map[root := Branch], map[root := inode], 0;
      }
    }

    /** `os.mkdir(part, dir_fd=parent)`. */
    method MakeDirectory(parent: Path, part: string) returns (ok: bool)
      requires parent in nodes && nodes[parent] == Branch
      modifies this
      ensures published == old(published)
      ensures ok ==> parent + [part] !in old(nodes) && nodes == old(nodes)[parent + [part] := Branch]
      ensures ok ==> inodes == old(inodes)[parent + [part] := tick] && made == old(made) + 1 && faulted == old(faulted)
      ensures !ok ==> faulted || parent + [part] in nodes
      ensures !ok ==> nodes == old(nodes) && inodes == old(inodes) && made == old(made)
    {
      ok := Attempt();
      if ok && parent + [part] in nodes { ok := false; }
      if ok {
        nodes, inodes := nodes[parent + [part] := Branch], inodes[parent + [part] := tick];
        made := made + 1;
      }
    }

    /** `os.open(part, O_DIRECTORY | O_NOFOLLOW, dir_fd=parent)` and its inode. */
    method OpenDirectory(parent: Path, part: string) returns (ok: bool, inode: nat)
      modifies this`tick, this`faulted
      ensures ok ==> faulted == old(faulted) && parent + [part] in nodes && nodes[parent + [part]] == Branch
      ensures ok ==> parent + [part] in inodes && inode == inodes[parent + [part]]
      ensures !ok && !faulted ==>
        parent + [part] !in nodes || nodes[parent + [part]] != Branch || parent + [part] !in inodes
    {
      inode := 0;
      ok := Attempt();
      var p := parent + [part];
      if ok {
        ok := p in nodes && nodes[p] == Branch && p in inodes;
        if ok { inode := inodes[p]; }
      }
    }

    /** `os.open(name, O_CREAT | O_EXCL, dir_fd=parent)`. */
    method CreateFile(p: Path) returns (ok: bool)
      modifies this
      ensures published == old(published) && made == old(made) && inodes == old(inodes)
      ensures ok ==> p !in old(nodes) && nodes == old(nodes)[p := Leaf([])] && faulted == old(faulted)
      ensures !ok ==> faulted || p in old(nodes)
    {
      ok := Attempt();
      if ok && p in nodes { ok := false; }
      if ok { nodes := nodes[p := Leaf([])]; }
    }

    /** `os.write`: some prefix of the view reaches the file, possibly none of it. */
    method Write(p: Path, view: Bytes) returns (written: nat)
      requires p in nodes && nodes[p].Leaf? && view != []
      modifies this
      ensures published == old(published) && made == old(made) && inodes == old(inodes)
      ensures written <= |view| && nodes == old(nodes)[p := Leaf(old(nodes)[p].bytes + view[..written])]
      ensures faulted == (old(faulted) || written == 0)
    {
      var ok := Attempt();
      written := if ok then moves(tick) else 0;
      if written > |view| { written := |view|; }
      if written == 0 { faulted := true; }
      nodes := nodes[p := Leaf(nodes[p].bytes + view[..written])];
    }

    /** A read of at most n bytes from a member stream: it may return fewer, but none only at the end. */
    method Read(stream: Bytes, n: nat) returns (chunk: Bytes)
      requires n >= 1
      modifies this`tick
      ensures |chunk| <= n && chunk <= stream && (chunk == [] ==> stream == [])
    {
      var count := 1 + moves(tick);
      tick := tick + 1;
      if count > n { count := n; }
      chunk := if count > |stream| then stream else stream[..count];
    }

    /** Atomic rename that refuses an existing destination. */
    method Publish() returns (ok: bool)
      modifies this
      ensures made == old(made)
      ensures ok ==> old(published) == None && published == Some(old(nodes)) && faulted == old(faulted)
      ensures !ok ==> published == old(published) && (faulted || published != None)
    {
      ok := Attempt();
      if ok && published != None { ok := false; }
      if ok { published := Some(nodes); }
    }
  }

  /** The table knows the inode of every directory it lists. */
  predicate Owned(nodes: map<Path, Entry>, inodes: map<Path, nat>, owned: map<Path, nat>) {
    && [] in owned
    && forall p :: p in owned ==> p in nodes && nodes[p] == Branch && p in inodes && inodes[p] == owned[p]
  }

  ghost predicate Owns(v: Volume, owned: map<Path, nat>)
    reads v
  {
    Owned(v.nodes, v.inodes, owned)
  }

  lemma OwnedHas(nodes: map<Path, Entry>, inodes: map<Path, nat>, owned: map<Path, nat>, p: Path)
    requires Owned(nodes, inodes, owned) && p in owned
    ensures p in nodes && nodes[p] == Branch && p in inodes && inodes[p] == owned[p]
  {
  }

  lemma OwnedGrows(nodes: map<Path, Entry>, inodes: map<Path, nat>, owned: map<Path, nat>, p: Path, inode: nat)
    requires Owned(nodes, inodes, owned)
    ensures Owned(nodes[p := Branch], inodes[p := inode], owned[p := inode])
  {
  }

  lemma OwnedKept(nodes: map<Path, Entry>, inodes: map<Path, nat>, owned: map<Path, nat>, p: Path, file: Entry)
    requires Owned(nodes, inodes, owned) && (p in nodes ==> nodes[p].Leaf?)
    ensures Owned(nodes[p := file], inodes, owned)
  {
  }

  /** Directories added to a tree. */
  function Planted(nodes: map<Path, Entry>, dirs: set<Path>): map<Path, Entry> {
    nodes + map q | q in dirs :: Branch
  }

  /** The first k directories on the way to p that are not owned yet. */
  function Missing(p: Path, k: nat, owned: set<Path>): set<Path>
    requires k <= |p|
  {
    if k == 0 then {} else Missing(p, k - 1, owned) + if p[..k] in owned then {} else {p[..k]}
  }

  lemma {:induction false} MissingMeans(p: Path, k: nat, owned: set<Path>)
    requires k <= |p|
    ensures forall q :: q in Missing(p, k, owned) <==> q !in owned && 1 <= |q| <= k && q == p[..|q|]
  {
    if k > 0 {
      MissingMeans(p, k - 1, owned);
      assert p[..k][..|p[..k]|] == p[..k];
    }
  }

  lemma MissingOneMore(p: Path, k: nat, owned: set<Path>)
    requires k < |p|
    ensures p[..k + 1] == p[..k] + [p[k]] && p[..k + 1] !in Missing(p, k, owned)
    ensures p[..k + 1] in owned ==> Missing(p, k + 1, owned) == Missing(p, k, owned)
    ensures p[..k + 1] !in owned ==> Missing(p, k + 1, owned) == Missing(p, k, owned) + {p[..k + 1]}
    ensures p[..k + 1] !in owned ==> p[..k + 1] in Missing(p, |p|, owned)
  {
    MissingMeans(p, k, owned);
    MissingMeans(p, |p|, owned);
    assert p[..k + 1][..|p[..k + 1]|] == p[..k + 1];
  }

  lemma PlantOne(nodes: map<Path, Entry>, dirs: set<Path>, p: Path)
    ensures Planted(nodes, {}) == nodes
    ensures Planted(nodes, dirs)[p := Branch] == Planted(nodes, dirs + {p})
    ensures p !in dirs && p in Planted(nodes, dirs) ==> p in nodes
  {
  }

  lemma PlantNone(nodes: map<Path, Entry>)
    ensures Planted(nodes, {}) == nodes
  {
  }

  /** `_open_owned_directory`: creates exactly the missing directories of the chain. */
  method OpenOwned(v: Volume, parts: Path, owned: map<Path, nat>) returns (ok: bool, grown: map<Path, nat>)
    requires Owns(v, owned)
    modifies v
    ensures v.published == old(v.published)
    ensures ok ==> Owns(v, grown) && v.faulted == old(v.faulted)
    ensures ok ==> grown.Keys == owned.Keys + Missing(parts, |parts|, owned.Keys)
    ensures ok ==> v.nodes == Planted(old(v.nodes), Missing(parts, |parts|, owned.Keys))
    ensures ok ==> v.made == old(v.made) + |Missing(parts, |parts|, owned.Keys)|
    ensures !ok && !v.faulted ==> exists p :: p in Missing(parts, |parts|, owned.Keys) && p in old(v.nodes)
  {
    assert Missing(parts, 0, owned.Keys) == {} && [] in owned;
    hide Missing, Owned, Planted;
    PlantNone(v.nodes);
    ok, grown := false, owned;
    for k := 0 to |parts|
      invariant v.published == old(v.published) && v.faulted == old(v.faulted)
      invariant Owned(v.nodes, v.inodes, grown) && parts[..k] in grown
      invariant grown.Keys == owned.Keys + Missing(parts, k, owned.Keys)
      invariant v.nodes == Planted(old(v.nodes), Missing(parts, k, owned.Keys))
      invariant v.made == old(v.made) + |Missing(parts, k, owned.Keys)|
    {
      var entered, more := EnterNext(v, parts, k, grown, owned.Keys, old(v.nodes));
      if !entered { return; }
      grown := more;
    }
    ok := true;
  }

  method EnterNext(v: Volume, parts: Path, k: nat, owned: map<Path, nat>, ghost had: set<Path>, ghost before: map<Path, Entry>)
    returns (ok: bool, grown: map<Path, nat>)
    requires k < |parts| && Owned(v.nodes, v.inodes, owned) && parts[..k] in owned
    requires owned.Keys == had + Missing(parts, k, had) && v.nodes == Planted(before, Missing(parts, k, had))
    modifies v
    ensures v.published == old(v.published)
    ensures ok ==> v.faulted == old(v.faulted) && Owned(v.nodes, v.inodes, grown) && parts[..k + 1] in grown
    ensures ok ==> grown.Keys == had + Missing(parts, k + 1, had)
    ensures ok ==> v.nodes == Planted(before, Missing(parts, k + 1, had))
    ensures ok ==> v.made == old(v.made) + |Missing(parts, k + 1, had)| - |Missing(parts, k, had)|
    ensures !ok && !v.faulted ==> exists p :: p in Missing(parts, |parts|, had) && p in before
  {
    hide Missing, Owned, Planted;
    MissingOneMore(parts, k, had);
    PlantOne(before, Missing(parts, k, had), parts[..k + 1]);
    ok, grown := Enter(v, parts[..k], parts[k], owned);
  }

  /** One component of the chain: create it unless it is owned, then open it as a directory. */
  method Enter(v: Volume, here: Path, part: string, owned: map<Path, nat>) returns (ok: bool, grown: map<Path, nat>)
    requires Owned(v.nodes, v.inodes, owned) && here in owned
    modifies v
    ensures v.published == old(v.published)
    ensures ok ==> v.faulted == old(v.faulted) && Owned(v.nodes, v.inodes, grown)
    ensures ok ==> grown.Keys == owned.Keys + {here + [part]}
    ensures ok && here + [part] in owned ==> v.nodes == old(v.nodes) && v.made == old(v.made)
    ensures ok && here + [part] !in owned ==> v.nodes == old(v.nodes)[here + [part] := Branch] && v.made == old(v.made) + 1
    ensures !ok && !v.faulted ==> here + [part] !in owned && here + [part] in old(v.nodes)
  {
    hide Owned;
    ok, grown := false, owned;
    var walked := here + [part];
    OwnedHas(v.nodes, v.inodes, grown, here);
    if walked !in grown {
      ghost var nodes, inodes := v.nodes, v.inodes;
      var created := v.MakeDirectory(here, part);
      if !created { return; }
      OwnedGrows(nodes, inodes, grown, walked, v.tick);
      grown := grown[walked := v.tick];
    }
    OwnedHas(v.nodes, v.inodes, grown, walked);
    var reached, inode := v.OpenDirectory(here, part);
    ok := reached && inode == grown[walked];
  }

  /** The directory pass: shallowest first, in any order among equals. */
  method MakeDirectories(v: Volume, ghost ms: seq<Member>, required: set<Path>, root: map<Path, nat>)
    returns (ok: bool, owned: map<Path, nat>)
    requires required == Required(ms)
    requires root.Keys == {[]} && Owns(v, root) && v.nodes == map[[] := Branch] && v.made == 0
    modifies v
    ensures v.published == old(v.published)
    ensures ok ==> Owns(v, owned) && owned.Keys == required + {[]} && v.nodes == Branches(required)
    ensures ok ==> v.made == |required| && v.faulted == old(v.faulted)
    ensures !ok ==> v.faulted
  {
    hide Required, Missing, Owned, Planted, Branches;
    BranchesPlanted({}, []);
    ok, owned := false, root;
    var remaining := required;
    assert required - remaining == {};
    NoRootRequired(ms);
    while remaining != {}
      invariant v.published == old(v.published) && v.faulted == old(v.faulted)
      invariant remaining <= required && v.made + |remaining| == |required|
      invariant Owns(v, owned) && owned.Keys == (required - remaining) + {[]} && v.nodes == Branches(required - remaining)
      decreases |remaining|
    {
      ghost var least := Shallowest(remaining);
      var parts :| parts in remaining && forall q :: q in remaining ==> |parts| <= |q|;
      var entered, grown := MakeShallowest(v, ms, remaining, parts, owned);
      if !entered { return; }
      owned := grown;
      remaining := remaining - {parts};
    }
    assert required - {} == required;
    ok := true;
  }

  /** One round of the directory pass: exactly this directory is made. */
  method MakeShallowest(v: Volume, ghost ms: seq<Member>, ghost remaining: set<Path>, parts: Path, owned: map<Path, nat>)
    returns (ok: bool, grown: map<Path, nat>)
    requires remaining <= Required(ms) && [] !in Required(ms)
    requires parts in remaining && forall q :: q in remaining ==> |parts| <= |q|
    requires Owns(v, owned) && owned.Keys == (Required(ms) - remaining) + {[]} && v.nodes == Branches(Required(ms) - remaining)
    modifies v
    ensures v.published == old(v.published)
    ensures ok ==> Owns(v, grown) && grown.Keys == (Required(ms) - (remaining - {parts})) + {[]}
    ensures ok ==> v.nodes == Branches(Required(ms) - (remaining - {parts}))
    ensures ok ==> v.made == old(v.made) + 1 && v.faulted == old(v.faulted)
    ensures !ok ==> v.faulted
  {
    hide Required, Missing, Owned, Planted, Branches;
    ghost var done := Required(ms) - remaining;
    OnlyItselfMissing(ms, parts, done, remaining);
    BranchesPlanted(done, parts);
    assert Required(ms) - (remaining - {parts}) == done + {parts};
    assert done + {parts} + {[]} == done + {[]} + {parts};
    ok, grown := OpenOwned(v, parts, owned);
  }

  lemma BranchesPlanted(done: set<Path>, p: Path)
    ensures Branches({}) == map[[] := Branch]
    ensures Planted(Branches(done), {p}) == Branches(done + {p})
    ensures p !in done && p != [] ==> p !in Branches(done)
  {
  }

  lemma NoRootRequired(ms: seq<Member>)
    ensures [] !in Required(ms)
  {
    hide Required, Parts;
    if [] in Required(ms) { var i, k := Origin(ms, []); }
  }

  lemma {:induction false} Shallowest(s: set<Path>) returns (least: Path)
    requires s != {}
    ensures least in s && forall q :: q in s ==> |least| <= |q|
  {
    var first :| first in s;
    var rest := s - {first};
    least := first;
    if rest != {} {
      var other := Shallowest(rest);
      if |other| < |first| { least := other; }
    }
    assert forall q :: q in s ==> q == first || q in rest;
  }

  /** When a directory's turn comes all its ancestors exist and it does not. */
  lemma OnlyItselfMissing(ms: seq<Member>, parts: Path, done: set<Path>, remaining: set<Path>)
    requires done + remaining == Required(ms) && done !! remaining && [] !in Required(ms)
    requires parts in remaining && forall q :: q in remaining ==> |parts| <= |q|
    ensures Missing(parts, |parts|, done + {[]}) == {parts}
  {
    hide Required, Missing;
    MissingMeans(parts, |parts|, done + {[]});
    assert parts == parts[..|parts|];
    forall k | 1 <= k < |parts| ensures parts[..k] in done {
      RequiredIsClosed(ms, parts, k);
    }
  }

  lemma NothingMissing(ms: seq<Member>, i: nat)
    requires i < |ms|
    ensures var parent := Init(Parts(ms[i])); Missing(parent, |parent|, Required(ms) + {[]}) == {}
  {
    hide Required, Missing, Parts;
    var parent := Init(Parts(ms[i]));
    MissingMeans(parent, |parent|, Required(ms) + {[]});
    forall k | 1 <= k <= |parent| ensures parent[..k] in Required(ms) {
      ParentsRequired(ms, i, k);
      assert parent[..k] == Parts(ms[i])[..k];
    }
  }

  /** `_write_archive_member`. */
  method WriteMember(v: Volume, m: Member, owned: map<Path, nat>) returns (ok: bool, after: map<Path, nat>)
    requires Owns(v, owned) && m.kind == File && m.size >= 0
    requires var parent := Init(Parts(m)); Missing(parent, |parent|, owned.Keys) == {}
    modifies v
    ensures v.published == old(v.published)
    ensures ok ==> |m.data| == m.size && v.faulted == old(v.faulted)
    ensures ok ==> Owns(v, after) && after.Keys == owned.Keys && v.made == old(v.made)
    ensures ok ==> v.nodes == old(v.nodes)[Parts(m) := Leaf(m.data)]
    ensures !ok && !v.faulted ==> Parts(m) in old(v.nodes) || |m.data| != m.size
  {
    hide Missing, Parts, Owned, Planted;
    var parts := Parts(m);
    PlantNone(v.nodes);
    ghost var parent := Init(parts);
    assert Missing(parent, |parent|, owned.Keys) == {};
    ok, after := OpenOwned(v, Init(parts), owned);
    if !ok { return; }
    assert after.Keys == owned.Keys;
    ghost var nodes, inodes := v.nodes, v.inodes;
    ok := v.CreateFile(parts);
    if !ok { return; }
    ok := false;
    var stream, remaining := m.data, m.size;
    ghost var taken: Bytes := [];
    while remaining != 0
      invariant 0 <= remaining && taken + stream == m.data && |taken| + remaining == m.size
      invariant v.nodes == nodes[parts := Leaf(taken)] && v.inodes == inodes
      invariant v.published == old(v.published) && v.made == old(v.made) && v.faulted == old(v.faulted)
      decreases remaining
    {
      var chunk := v.Read(stream, if remaining < 65_536 then remaining else 65_536);
      if chunk == [] { return; }
      ok := WriteAll(v, parts, chunk);
      if !ok { return; }
      ok := false;
      Moved(taken, chunk, stream);
      stream, remaining := stream[|chunk|..], remaining - |chunk|;
      taken := taken + chunk;
    }
    OwnedKept(nodes, inodes, after, parts, Leaf(taken));
    var extra := v.Read(stream, 1);
    if extra != [] { return; }
    assert taken == m.data;
    ok := v.Attempt();
  }

  /** The inner write loop: the whole view reaches the file however short the writes. */
  method WriteAll(v: Volume, p: Path, chunk: Bytes) returns (ok: bool)
    requires p in v.nodes && v.nodes[p].Leaf?
    modifies v
    ensures v.published == old(v.published) && v.made == old(v.made) && v.inodes == old(v.inodes)
    ensures ok ==> v.nodes == old(v.nodes)[p := Leaf(old(v.nodes)[p].bytes + chunk)] && v.faulted == old(v.faulted)
    ensures !ok ==> v.faulted
  {
    ghost var before := v.nodes[p].bytes;
    assert before + chunk[..0] == before && v.nodes[p := v.nodes[p]] == v.nodes;
    var view := chunk;
    ghost var n: nat := 0;
    while view != []
      invariant n <= |chunk| && view == chunk[n..]
      invariant v.nodes == old(v.nodes)[p := Leaf(before + chunk[..n])] && v.inodes == old(v.inodes)
      invariant v.published == old(v.published) && v.made == old(v.made) && v.faulted == old(v.faulted)
      decreases |view|
    {
      var written := v.Write(p, view);
      if written == 0 { return false; }
      Appended(before, chunk, n, written);
      view, n := view[written..], n + written;
    }
    assert chunk[..n] == chunk;
    ok := true;
  }

  lemma Appended(taken: Bytes, chunk: Bytes, n: nat, written: nat)
    requires n + written <= |chunk|
    ensures taken + chunk[..n] + chunk[n..][..written] == taken + chunk[..n + written]
    ensures chunk[n..][written..] == chunk[n + written..]
  {
  }

  lemma Moved(taken: Bytes, chunk: Bytes, stream: Bytes)
    requires chunk <= stream
    ensures taken + chunk + stream[|chunk|..] == taken + stream
    ensures taken + chunk[..|chunk|] == taken + chunk
  {
  }

  /** Every file member holds as many bytes as it declares. */
  predicate Honest(ms: seq<Member>) {
    forall i :: 0 <= i < |ms| && ms[i].kind == File ==> |ms[i].data| == ms[i].size
  }

  function Partial(ms: seq<Member>, n: nat): map<Path, Entry>
    requires n <= |ms|
  {
    Branches(Required(ms)) + Leaves(ms[..n])
  }

  lemma PartialEnds(ms: seq<Member>)
    ensures Partial(ms, 0) == Branches(Required(ms)) && Partial(ms, |ms|) == Tree(ms)
  {
    hide Required, Parts;
    assert ms[..0] == [] && ms[..|ms|] == ms;
    assert Leaves([]) == map[];
  }

  lemma PartialStep(ms: seq<Member>, n: nat)
    requires n < |ms| && Distinct(ms) && FilePaths(ms) !! Required(ms)
    ensures ms[n].kind != File ==> Partial(ms, n + 1) == Partial(ms, n)
    ensures ms[n].kind == File ==> Partial(ms, n + 1) == Partial(ms, n)[Parts(ms[n]) := Leaf(ms[n].data)]
    ensures ms[n].kind == File ==> Parts(ms[n]) !in Partial(ms, n)
  {
    hide Required, Parts;
    var longer := ms[..n + 1];
    assert Init(longer) == ms[..n] && Last(longer) == ms[n];
    if ms[n].kind == File {
      LeavesAreTheFiles(ms[..n]);
      assert Parts(ms[n]) in FilePaths(ms);
      SomePart(ms[n]);
    }
  }

  lemma SomePart(m: Member)
    ensures Parts(m) != []
  {
  }

  /** The file pass: every parent directory is there already. */
  method WriteFiles(v: Volume, ms: seq<Member>, owned: map<Path, nat>) returns (ok: bool)
    requires Acceptable(ms) && Owns(v, owned)
    requires owned.Keys == Required(ms) + {[]} && v.nodes == Branches(Required(ms))
    modifies v
    ensures v.published == old(v.published)
    ensures ok ==> v.nodes == Tree(ms) && v.made == old(v.made) && v.faulted == old(v.faulted) && Honest(ms)
    ensures !ok && !v.faulted ==> !Honest(ms)
  {
    hide Required, Parts, Missing, Owns, Partial, Tree, FilePaths, Expanded, Explicit;
    var table := owned;
    PartialEnds(ms);
    for n := 0 to |ms|
      invariant v.published == old(v.published) && v.made == old(v.made) && v.faulted == old(v.faulted)
      invariant Owns(v, table) && table.Keys == Required(ms) + {[]}
      invariant v.nodes == Partial(ms, n)
      invariant forall i :: 0 <= i < n && ms[i].kind == File ==> |ms[i].data| == ms[i].size
    {
      PartialStep(ms, n);
      if ms[n].kind == File {
        NothingMissing(ms, n);
        NonNegative(ms[n]);
        ok, table := WriteMember(v, ms[n], table);
        if !ok { return; }
      }
    }
    ok := true;
  }

  predicate Extractable(size: int, decoded: Option<seq<Member>>) {
    && 1 <= size <= MAX_ARCHIVE
    && decoded.Some? && Acceptable(decoded.value) && Honest(decoded.value)
  }

  /** `_extract_prospective_archive`; `decoded` is None when the bytes are no gzip tar.
      Publication is all or nothing, and only a failing system call, an existing
      destination or a bad archive stops it.  `published` tells failures before the
      publication, which leave the destination alone, from a failing look at the published
      tree, which leaves it complete. */
  method Extract(v: Volume, size: int, decoded: Option<seq<Member>>) returns (root: Option<string>, ghost published: bool)
    requires !v.faulted
    modifies v
    ensures published ==>
      && old(v.published) == None && Extractable(size, decoded)
      && v.published == Some(Tree(decoded.value))
      && v.made == |Required(decoded.value)|
    ensures !published ==> v.published == old(v.published)
    ensures root.Some? ==> published && root.value == Parts(decoded.value[0])[0]
    ensures root.None? && published ==> v.faulted
    ensures root.None? && !v.faulted ==> old(v.published) != None || !Extractable(size, decoded)
  {
    hide Acceptable, Required, Parts, Tree, Honest;
    root, published := None, false;
    if v.published != None || size < 1 || size > MAX_ARCHIVE { return; }
    var ok := v.Attempt();
    if !ok || decoded.None? { return; }
    var ms := decoded.value;
    var required: set<Path>, top: string;
    ok, required, top := Screen(ms);
    if !ok { return; }
    ok := v.MakeRoot();
    if !ok { return; }
    var here: Path := [];
    var owned: map<Path, nat> := map[here := v.inodes[here]];
    ok, owned := MakeDirectories(v, ms, required, owned);
    if !ok { return; }
    ok := WriteFiles(v, ms, owned);
    if !ok { return; }
    ok := v.Attempt();
    if !ok { return; }
    ok := v.Publish();
    if !ok { return; }
    published := true;
    ok := v.Attempt();
    if ok { root := Some(top); }
  }
}
