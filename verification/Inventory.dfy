/** The bounded walk over a handoff directory (scripts/prospective_handoff.py:1038-1121) and
    the collector it enumerates with (src/inferdrome/limits.py:11-26).  The disk may be of
    any size, and even endlessly deep. */
module Inventory {
  import opened Wrappers

  type Path = seq<string>

  /** Odd: a symbolic link, a device, or an entry that cannot be inspected. */
  datatype Node = Folder | Regular(size: nat, links: nat) | Odd

  datatype Entry = Entry(name: string, node: Node)

  /** What listing each directory gives; None: it cannot be enumerated. */
  datatype Disk = Disk(root: Node, list: Path -> Option<seq<Entry>>)

  const MAX_FILES: nat := 12
  const MAX_DIRECTORIES: nat := 4
  const MAX_DEPTH: nat := 2
  const MAX_BYTES: nat := 91_227_136

  // ---- Specification -----------------------------------------------------------------

  function Lookup(entries: seq<Entry>, name: string): (n: Option<Node>)
    ensures n.Some? <==> exists i :: 0 <= i < |entries| && entries[i].name == name
  {
    if entries == [] then None
    else if entries[0].name == name then Some(entries[0].node)
    else Lookup(entries[1..], name)
  }

  function Parent(p: Path): Path
    requires p != []
  {
    p[..|p| - 1]
  }

  /** What is found at a path, walking down from the root. */
  function NodeAt(disk: Disk, p: Path): Option<Node> {
    if p == [] then Some(disk.root)
    else
      match NodeAt(disk, Parent(p))
      case Some(Folder) =>
        var entries := disk.list(Parent(p));
        if entries.None? then None else Lookup(entries.value, p[|p| - 1])
      case _ => None
  }

  ghost predicate Proper(disk: Disk) {
    forall p :: disk.list(p).Some? ==> NamesDistinct(disk.list(p).value)
  }

  predicate NamesDistinct(entries: seq<Entry>) {
    forall i, j :: 0 <= i < j < |entries| ==> entries[i].name != entries[j].name
  }

  type Map = map<Path, Node>

  /** Every entry of m is really there. */
  ghost predicate Truthful(disk: Disk, m: Map) {
    forall p :: p in m ==> NodeAt(disk, p) == Some(m[p])
  }

  /** m is the whole tree: the root and all its descendants. */
  ghost predicate Whole(disk: Disk, m: Map) {
    && Truthful(disk, m)
    && (forall p :: NodeAt(disk, p).Some? ==> p in m)
    && (forall p :: p in m && m[p].Folder? ==> disk.list(p).Some?)
  }

  function FilesIn(m: Map): set<Path> { set p | p in m && m[p].Regular? }

  function FoldersIn(m: Map): set<Path> { set p | p in m && m[p].Folder? && p != [] }

  function SizeOf(n: Node): nat { if n.Regular? then n.size else 0 }

  ghost function Bytes(m: Map): nat {
    if m == map[] then 0 else var p :| p in m; SizeOf(m[p]) + Bytes(m - {p})
  }

  predicate Allowed(p: Path, n: Node) {
    match n
    case Folder => |p| <= MAX_DEPTH
    case Regular(_, links) => links == 1 && p != []
    case Odd => false
  }

  ghost predicate WithinLimits(m: Map) {
    && (forall p :: p in m ==> Allowed(p, m[p]))
    && |FilesIn(m)| <= MAX_FILES
    && |FoldersIn(m)| <= MAX_DIRECTORIES
    && Bytes(m) <= MAX_BYTES
  }

  /** There is a whole tree and it is small enough. */
  ghost predicate Acceptable(disk: Disk) {
    exists m: Map :: Whole(disk, m) && WithinLimits(m)
  }

  // ---- Facts about maps ----------------------------------------------------------------

  lemma {:induction false} BytesWithout(m: Map, p: Path)
    requires p in m
    ensures Bytes(m) == SizeOf(m[p]) + Bytes(m - {p})
  {
    var q :| q in m && Bytes(m) == SizeOf(m[q]) + Bytes(m - {q});
    if q != p {
      BytesWithout(m - {q}, p);
      BytesWithout(m - {p}, q);
      assert m - {q} - {p} == m - {p} - {q};
    }
  }

  lemma {:induction false} BytesGrow(a: Map, b: Map)
    requires forall p :: p in a ==> p in b && b[p] == a[p]
    ensures Bytes(a) <= Bytes(b)
  {
    if a != map[] {
      var p :| p in a;
      BytesWithout(a, p);
      BytesWithout(b, p);
      BytesGrow(a - {p}, b - {p});
    }
  }

  lemma Larger<T>(a: set<T>, b: set<T>)
    requires a <= b
    ensures |a| <= |b|
  {
    assert b == a + (b - a);
  }

  /** Limits are inherited by parts. */
  lemma LimitsOfParts(part: Map, m: Map)
    requires WithinLimits(m) && forall p :: p in part ==> p in m && m[p] == part[p]
    ensures WithinLimits(part)
  {
    hide Allowed;
    BytesGrow(part, m);
    Larger(FilesIn(part), FilesIn(m));
    Larger(FoldersIn(part), FoldersIn(m));
  }

  /** So a truthful part beyond the limits condemns the disk. */
  lemma Condemned(disk: Disk, part: Map)
    requires Truthful(disk, part) && !WithinLimits(part)
    ensures !Acceptable(disk)
  {
    hide NodeAt, WithinLimits;
    if Acceptable(disk) {
      var m :| Whole(disk, m) && WithinLimits(m);
      LimitsOfParts(part, m);
    }
  }

  lemma OneMore(m: Map, p: Path, n: Node)
    requires p !in m
    ensures Bytes(m[p := n]) == Bytes(m) + SizeOf(n)
    ensures n.Regular? ==> FilesIn(m[p := n]) == FilesIn(m) + {p} && FoldersIn(m[p := n]) == FoldersIn(m)
    ensures n.Folder? && p != [] ==> FoldersIn(m[p := n]) == FoldersIn(m) + {p} && FilesIn(m[p := n]) == FilesIn(m)
    ensures p !in FilesIn(m) && p !in FoldersIn(m)
  {
    BytesWithout(m[p := n], p);
    assert m[p := n] - {p} == m;
  }

  // ---- The walk --------------------------------------------------------------------------

  /** `collect_bounded`: reads no more than one value beyond the limit. */
  method CollectBounded<T>(values: seq<T>, limit: nat) returns (collected: Option<seq<T>>, count: nat)
    ensures collected == if |values| <= limit then Some(values) else None
    ensures count <= limit + 1 && (collected.Some? ==> count == |values|)
  {
    var taken: seq<T> := [];
    count := 0;
    while count < |values|
      invariant count <= |values| && count <= limit && taken == values[..count]
    {
      count := count + 1;
      if |taken| == limit { return None, count; }
      taken := taken + [values[count - 1]];
    }
    assert taken == values;
    collected := Some(taken);
  }

  /** A directory whose every entry is recorded. */
  ghost predicate Covered(disk: Disk, m: Map, p: Path) {
    && disk.list(p).Some?
    && forall i :: 0 <= i < |disk.list(p).value| ==> p + [disk.list(p).value[i].name] in m
  }

  ghost predicate Exploring(disk: Disk, m: Map, pending: seq<Path>) {
    && Truthful(disk, m) && WithinLimits(m) && [] in m
    && (forall i :: 0 <= i < |pending| ==> pending[i] in m && m[pending[i]].Folder?)
    && (forall i, j :: 0 <= i < j < |pending| ==> pending[i] != pending[j])
    && (forall p :: p in m && p != [] ==> Parent(p) in m && Parent(p) !in pending)
    && (forall p :: p in m && m[p].Folder? && p !in pending ==> Covered(disk, m, p))
  }

  lemma {:induction false} Complete(disk: Disk, m: Map, p: Path)
    requires Exploring(disk, m, []) && NodeAt(disk, p).Some?
    ensures p in m
  {
    if p != [] {
      ParentListed(disk, p);
      hide NodeAt, WithinLimits, Covered, Lookup;
      Complete(disk, m, Parent(p));
      ChildRecorded(disk, m, p);
    }
  }

  lemma ParentListed(disk: Disk, p: Path)
    requires p != [] && NodeAt(disk, p).Some?
    ensures NodeAt(disk, Parent(p)) == Some(Folder)
    ensures disk.list(Parent(p)).Some? && Lookup(disk.list(Parent(p)).value, p[|p| - 1]).Some?
  {
    hide Lookup;
  }

  lemma ChildRecorded(disk: Disk, m: Map, p: Path)
    requires p != [] && Covered(disk, m, Parent(p)) && Lookup(disk.list(Parent(p)).value, p[|p| - 1]).Some?
    ensures p in m
  {
    hide Lookup;
    var entries := disk.list(Parent(p)).value;
    var i :| 0 <= i < |entries| && entries[i].name == p[|p| - 1];
    assert p == Parent(p) + [entries[i].name];
  }

  lemma Finished(disk: Disk, m: Map)
    requires Exploring(disk, m, [])
    ensures Whole(disk, m) && WithinLimits(m)
  {
    hide WithinLimits;
    forall p | NodeAt(disk, p).Some? ensures p in m { Complete(disk, m, p); }
    assert forall p :: p in m && m[p].Folder? ==> Covered(disk, m, p);
  }

  /** Midway through one directory: entries[..j] are recorded and nothing else below it. */
  ghost predicate Scanning(disk: Disk, m: Map, pending: seq<Path>, here: Path, entries: seq<Entry>, j: nat) {
    && Truthful(disk, m)
    && disk.list(here) == Some(entries) && NamesDistinct(entries) && j <= |entries|
    && Queued(m, pending, here)
    && (forall p :: p in m && m[p].Folder? && p !in pending && p != here ==> Covered(disk, m, p))
    && Below(m, here, entries, j)
  }

  ghost predicate Queued(m: Map, pending: seq<Path>, here: Path) {
    && [] in m && here in m && m[here].Folder? && here !in pending
    && (forall i :: 0 <= i < |pending| ==> pending[i] in m && m[pending[i]].Folder?)
    && (forall i, k :: 0 <= i < k < |pending| ==> pending[i] != pending[k])
    && (forall p :: p in m && p != [] ==> Parent(p) in m && Parent(p) !in pending)
  }

  ghost predicate Below(m: Map, here: Path, entries: seq<Entry>, j: nat)
    requires j <= |entries|
  {
    && (forall i :: 0 <= i < j ==> here + [entries[i].name] in m)
    && (forall p :: p in m && p != [] && Parent(p) == here ==> exists i :: 0 <= i < j && p == here + [entries[i].name])
  }

  lemma Begin(disk: Disk, m: Map, pending: seq<Path>, entries: seq<Entry>)
    requires pending != [] && Exploring(disk, m, pending) && NamesDistinct(entries)
    requires disk.list(pending[|pending| - 1]) == Some(entries)
    ensures Scanning(disk, m, pending[..|pending| - 1], pending[|pending| - 1], entries, 0)
  {
    hide NodeAt, WithinLimits, Covered, NamesDistinct, Truthful, Queued, Below;
    var here, rest := pending[|pending| - 1], pending[..|pending| - 1];
    assert pending == rest + [here];
    Popped(m, rest, here);
    Shallow(m, rest, here, entries);
  }

  lemma Popped(m: Map, rest: seq<Path>, here: Path)
    requires var pending := rest + [here];
      && [] in m
      && (forall i :: 0 <= i < |pending| ==> pending[i] in m && m[pending[i]].Folder?)
      && (forall i, j :: 0 <= i < j < |pending| ==> pending[i] != pending[j])
      && (forall p :: p in m && p != [] ==> Parent(p) in m && Parent(p) !in pending)
    ensures Queued(m, rest, here)
  {
    var pending := rest + [here];
    assert pending[|rest|] == here;
    assert forall i :: 0 <= i < |rest| ==> pending[i] == rest[i];
    assert forall p :: p in rest ==> p in pending;
  }

  lemma Shallow(m: Map, rest: seq<Path>, here: Path, entries: seq<Entry>)
    requires forall p :: p in m && p != [] ==> Parent(p) !in rest + [here]
    ensures Below(m, here, entries, 0)
  {
  }

  lemma End(disk: Disk, m: Map, pending: seq<Path>, here: Path, entries: seq<Entry>)
    requires Scanning(disk, m, pending, here, entries, |entries|) && WithinLimits(m)
    ensures Exploring(disk, m, pending)
  {
    hide NodeAt, WithinLimits, NamesDistinct;
  }

  lemma {:induction false} LookupAt(entries: seq<Entry>, j: nat)
    requires j < |entries| && NamesDistinct(entries)
    ensures Lookup(entries, entries[j].name) == Some(entries[j].node)
  {
    if j > 0 {
      assert entries[0].name != entries[j].name;
      LookupAt(entries[1..], j - 1);
    }
  }

  /** The next entry is new and really there. */
  lemma NextEntry(disk: Disk, m: Map, pending: seq<Path>, here: Path, entries: seq<Entry>, j: nat)
    requires j < |entries| && Scanning(disk, m, pending, here, entries, j)
    ensures here + [entries[j].name] !in m
    ensures Truthful(disk, m[here + [entries[j].name] := entries[j].node])
  {
    hide WithinLimits, Covered, Lookup;
    var p := here + [entries[j].name];
    assert Parent(p) == here && p[|p| - 1] == entries[j].name;
    forall i | 0 <= i < j ensures here + [entries[i].name] != p {
      assert (here + [entries[i].name])[|here|] == entries[i].name;
    }
    LookupAt(entries, j);
  }

  lemma Record(disk: Disk, m: Map, pending: seq<Path>, here: Path, entries: seq<Entry>, j: nat, more: seq<Path>)
    requires j < |entries| && Scanning(disk, m, pending, here, entries, j)
    requires var p, n := here + [entries[j].name], entries[j].node;
      more == if n.Folder? then pending + [p] else pending
    ensures Scanning(disk, m[here + [entries[j].name] := entries[j].node], more, here, entries, j + 1)
  {
    hide NodeAt, WithinLimits, NamesDistinct, Truthful, Below, Covered, Queued;
    var p, n := here + [entries[j].name], entries[j].node;
    NextEntry(disk, m, pending, here, entries, j);
    Enqueued(m, pending, here, p, n, more);
    BelowMore(m, here, entries, j, n);
    forall q | q in m[p := n] && m[p := n][q].Folder? && q !in more && q != here ensures Covered(disk, m[p := n], q) {
      assert n.Folder? ==> p == more[|more| - 1];
      StillCovered(disk, m, q, p, n);
    }
  }

  lemma StillCovered(disk: Disk, m: Map, q: Path, p: Path, n: Node)
    requires Covered(disk, m, q)
    ensures Covered(disk, m[p := n], q)
  {
  }

  lemma Enqueued(m: Map, pending: seq<Path>, here: Path, p: Path, n: Node, more: seq<Path>)
    requires Queued(m, pending, here) && p !in m && p != [] && Parent(p) == here
    requires more == if n.Folder? then pending + [p] else pending
    ensures Queued(m[p := n], more, here)
  {
    var grown := m[p := n];
    forall q | q in grown && q != [] ensures Parent(q) in grown && Parent(q) !in more {
      assert Parent(q) in m && Parent(q) !in pending by { if q == p {} }
    }
  }

  lemma BelowMore(m: Map, here: Path, entries: seq<Entry>, j: nat, n: Node)
    requires j < |entries| && Below(m, here, entries, j)
    ensures Below(m[here + [entries[j].name] := n], here, entries, j + 1)
  {
    var p := here + [entries[j].name];
    assert Parent(p) == here;
  }

  /** The counters the walk keeps. */
  ghost predicate Counted(m: Map, files: nat, directories: nat, bytes: nat) {
    files == |FilesIn(m)| && directories == |FoldersIn(m)| && bytes == Bytes(m)
  }

  lemma CountOne(m: Map, p: Path, n: Node, files: nat, directories: nat, bytes: nat)
    requires Counted(m, files, directories, bytes) && p !in m && p != []
    ensures n.Regular? ==> Counted(m[p := n], files + 1, directories, bytes + n.size)
    ensures n.Folder? ==> Counted(m[p := n], files, directories + 1, bytes)
    ensures WithinLimits(m) ==> (WithinLimits(m[p := n]) <==>
      && Allowed(p, n)
      && (n.Regular? ==> files + 1 <= MAX_FILES && bytes + n.size <= MAX_BYTES)
      && (n.Folder? ==> directories + 1 <= MAX_DIRECTORIES))
  {
    OneMore(m, p, n);
    var grown := m[p := n];
    assert forall q :: q in m ==> grown[q] == m[q];
    if WithinLimits(m) && Allowed(p, n) { assert forall q :: q in grown ==> Allowed(q, grown[q]); }
    if WithinLimits(grown) { assert Allowed(p, grown[p]); }
  }

  /** More children than the limits leave room for: no whole tree fits. */
  lemma TooManyEntries(disk: Disk, m: Map, here: Path, entries: seq<Entry>)
    requires Proper(disk) && disk.root.Folder? && Truthful(disk, m) && here in m && disk.list(here) == Some(entries)
    requires m[here].Folder? && (forall p :: p in m && p != [] ==> Parent(p) != here)
    requires |FilesIn(m)| + |FoldersIn(m)| + |entries| > MAX_FILES + MAX_DIRECTORIES
    ensures !Acceptable(disk)
  {
    hide NodeAt, WithinLimits, Whole;
    if Acceptable(disk) {
      var w: Map :| Whole(disk, w) && WithinLimits(w);
      Crowded(disk, m, here, entries, w);
    }
  }

  lemma Crowded(disk: Disk, m: Map, here: Path, entries: seq<Entry>, w: Map)
    requires NamesDistinct(entries) && disk.root.Folder? && Truthful(disk, m) && here in m && disk.list(here) == Some(entries)
    requires m[here].Folder? && (forall p :: p in m && p != [] ==> Parent(p) != here)
    requires Whole(disk, w)
    ensures WithinLimits(w) ==> |FilesIn(m)| + |FoldersIn(m)| + |entries| <= MAX_FILES + MAX_DIRECTORIES
  {
    hide NodeAt, WithinLimits;
    var below := set i | 0 <= i < |entries| :: here + [entries[i].name];
    Disjoint(m, here, entries);
    Children(disk, w, here, entries);
    hide FilesIn, FoldersIn;
    KnownPlaces(disk, m, w);
    Packed(FilesIn(m), FoldersIn(m), below, w.Keys - {[]});
    if WithinLimits(w) { RoomFor(w); }
  }

  lemma KnownPlaces(disk: Disk, m: Map, w: Map)
    requires disk.root.Folder? && Truthful(disk, m) && Whole(disk, w)
    ensures FilesIn(m) <= w.Keys - {[]} && FoldersIn(m) <= w.Keys - {[]}
  {
    assert NodeAt(disk, []) == Some(disk.root);
    hide NodeAt;
    assert forall p :: p in m ==> p in w;
  }

  lemma Packed<T>(a: set<T>, b: set<T>, c: set<T>, all: set<T>)
    requires a !! b && (a + b) !! c && a <= all && b <= all && c <= all
    ensures |a| + |b| + |c| <= |all|
  {
    assert |a + b| == |a| + |b|;
    assert |a + b + c| == |a + b| + |c|;
    Larger(a + b + c, all);
  }

  lemma RoomFor(w: Map)
    requires WithinLimits(w)
    ensures |w.Keys - {[]}| <= MAX_FILES + MAX_DIRECTORIES
  {
    Larger(w.Keys - {[]}, FilesIn(w) + FoldersIn(w)) by {
      assert forall p :: p in w.Keys - {[]} ==> Allowed(p, w[p]);
    }
    assert |FilesIn(w) + FoldersIn(w)| <= |FilesIn(w)| + |FoldersIn(w)|;
  }

  lemma Children(disk: Disk, w: Map, here: Path, entries: seq<Entry>)
    requires Whole(disk, w) && NodeAt(disk, here) == Some(Folder) && disk.list(here) == Some(entries)
    ensures forall i :: 0 <= i < |entries| ==> here + [entries[i].name] in w
  {
    hide Lookup;
    forall i | 0 <= i < |entries| ensures here + [entries[i].name] in w {
      var p := here + [entries[i].name];
      assert Parent(p) == here && p[|p| - 1] == entries[i].name;
    }
  }

  lemma Disjoint(m: Map, here: Path, entries: seq<Entry>)
    requires NamesDistinct(entries) && forall p :: p in m && p != [] ==> Parent(p) != here
    ensures var below := set i | 0 <= i < |entries| :: here + [entries[i].name];
      |below| == |entries| && (FilesIn(m) + FoldersIn(m)) !! below && [] !in below
    ensures FilesIn(m) !! FoldersIn(m)
  {
    ChildrenCounted(here, entries, |entries|);
    forall i | 0 <= i < |entries| ensures here + [entries[i].name] !in m {
      assert Parent(here + [entries[i].name]) == here;
    }
  }

  lemma {:induction false} ChildrenCounted(here: Path, entries: seq<Entry>, n: nat)
    requires n <= |entries| && NamesDistinct(entries)
    ensures |set i | 0 <= i < n :: here + [entries[i].name]| == n
  {
    if n > 0 {
      ChildrenCounted(here, entries, n - 1);
      var less := set i | 0 <= i < n - 1 :: here + [entries[i].name];
      var p := here + [entries[n - 1].name];
      forall i | 0 <= i < n - 1 ensures here + [entries[i].name] != p {
        assert (here + [entries[i].name])[|here|] == entries[i].name;
        assert p[|here|] == entries[n - 1].name;
      }
      assert (set i | 0 <= i < n :: here + [entries[i].name]) == less + {p};
    }
  }

  lemma Unlistable(disk: Disk, m: Map, pending: seq<Path>, here: Path)
    requires Exploring(disk, m, pending) && here in pending && disk.list(here).None?
    ensures !Acceptable(disk)
  {
    hide WithinLimits, NodeAt;
    assert NodeAt(disk, here) == Some(Folder);
  }

  lemma Overfull(disk: Disk, m: Map, rest: seq<Path>, here: Path, entries: seq<Entry>, files: nat, directories: nat, bytes: nat)
    requires Proper(disk) && disk.root.Folder? && Scanning(disk, m, rest, here, entries, 0) && Counted(m, files, directories, bytes)
    requires files + directories + |entries| > MAX_FILES + MAX_DIRECTORIES
    ensures !Acceptable(disk)
  {
    hide NodeAt, WithinLimits, Covered;
    TooManyEntries(disk, m, here, entries);
  }

  lemma Start(disk: Disk)
    requires disk.root.Folder?
    ensures Exploring(disk, map[[] := disk.root], [[]]) && WithinLimits(map[[] := disk.root]) && Counted(map[[] := disk.root], 0, 0, 0)
  {
    var m: Map := map[[] := disk.root];
    assert m - {[]} == map[];
    BytesWithout(m, []);
    assert FilesIn(m) == {} && FoldersIn(m) == {};
  }

  lemma Witnessed(disk: Disk, m: Map)
    requires Whole(disk, m) && WithinLimits(m)
    ensures Acceptable(disk)
  {
  }

  /** The loop over one directory's entries. */
  method Scan(disk: Disk, m: Map, rest: seq<Path>, here: Path, entries: seq<Entry>, files0: nat, directories0: nat, bytes0: nat)
    returns (ok: bool, result: Map, pending: seq<Path>, files: nat, directories: nat, bytes: nat)
    requires Scanning(disk, m, rest, here, entries, 0) && WithinLimits(m) && Counted(m, files0, directories0, bytes0)
    ensures ok ==> Exploring(disk, result, pending) && WithinLimits(result) && Counted(result, files, directories, bytes)
    ensures ok ==> files <= MAX_FILES && directories <= MAX_DIRECTORIES
    ensures ok ==> files + directories == files0 + directories0 + |entries|
    ensures ok ==> |pending| - directories == |rest| - directories0
    ensures !ok ==> !Acceptable(disk)
  {
    hide NodeAt, WithinLimits, Exploring, Counted, Acceptable, Whole, Scanning, Allowed;
    ok, result, pending := false, m, rest;
    files, directories, bytes := files0, directories0, bytes0;
    Counts(m, files, directories, bytes);
    for j := 0 to |entries|
      invariant Scanning(disk, result, pending, here, entries, j)
      invariant WithinLimits(result) && Counted(result, files, directories, bytes)
      invariant files <= MAX_FILES && directories <= MAX_DIRECTORIES
      invariant files + directories == files0 + directories0 + j && |pending| - directories == |rest| - directories0
    {
      var p, n := here + [entries[j].name], entries[j].node;
      NextEntry(disk, result, pending, here, entries, j);
      CountOne(result, p, n, files, directories, bytes);
      if !WithinLimits(result[p := n]) { Condemned(disk, result[p := n]); }
      AllowedKinds(p, n);
      if !Allowed(p, n) { return; }
      if n.Folder? {
        directories := directories + 1;
        if directories > MAX_DIRECTORIES { return; }
        Record(disk, result, pending, here, entries, j, pending + [p]);
        pending := pending + [p];
      } else {
        files, bytes := files + 1, bytes + n.size;
        if files > MAX_FILES || bytes > MAX_BYTES { return; }
        Record(disk, result, pending, here, entries, j, pending);
      }
      result := result[p := n];
    }
    End(disk, result, pending, here, entries);
    ok := true;
  }

  lemma AllowedKinds(p: Path, n: Node)
    ensures Allowed(p, n) ==> n.Folder? || n.Regular?
  {
  }

  lemma ProperMeans(disk: Disk)
    requires Proper(disk)
    ensures forall p :: disk.list(p).Some? ==> NamesDistinct(disk.list(p).value)
  {
  }

  lemma Counts(m: Map, files: nat, directories: nat, bytes: nat)
    requires WithinLimits(m) && Counted(m, files, directories, bytes)
    ensures files <= MAX_FILES && directories <= MAX_DIRECTORIES
  {
  }

  /** `_walk_inventory`: the result is the whole tree when that fits the limits; otherwise
      the walk rejects.  Either way it has read at most seventeen entries. */
  method Walk(disk: Disk) returns (ok: bool, result: Map, entriesRead: nat)
    requires Proper(disk)
    ensures ok <==> disk.root.Folder? && Acceptable(disk)
    ensures ok ==> Whole(disk, result) && WithinLimits(result)
    ensures entriesRead <= MAX_FILES + MAX_DIRECTORIES + 1
  {
    hide NodeAt, WithinLimits, Exploring, Counted, Acceptable, Whole, Scanning, NamesDistinct;
    ProperMeans(disk);
    ok, result, entriesRead := false, map[], 0;
    if !disk.root.Folder? { return; }
    var files: nat, directories: nat, bytes: nat := 0, 0, 0;
    result := map[[] := disk.root];
    var pending: seq<Path> := [[]];
    Start(disk);
    while pending != []
      invariant Exploring(disk, result, pending) && WithinLimits(result) && Counted(result, files, directories, bytes)
      invariant files <= MAX_FILES && directories <= MAX_DIRECTORIES && entriesRead == files + directories
      decreases MAX_DIRECTORIES - directories + |pending|
    {
      var here, rest := pending[|pending| - 1], pending[..|pending| - 1];
      var listing := disk.list(here);
      if listing.None? {
        Unlistable(disk, result, pending, here);
        return;
      }
      Begin(disk, result, pending, listing.value);
      var collected, count := CollectBounded(listing.value, MAX_FILES + MAX_DIRECTORIES - files - directories);
      if collected.None? {
        Overfull(disk, result, rest, here, listing.value, files, directories, bytes);
        entriesRead := entriesRead + count;
        return;
      }
      entriesRead := entriesRead + count;
      var scanned: bool;
      scanned, result, pending, files, directories, bytes := Scan(disk, result, rest, here, listing.value, files, directories, bytes);
      if !scanned { return; }
    }
    Finished(disk, result);
    Witnessed(disk, result);
    ok := true;
  }

  /** The limits in figures: at most twelve single-link files, at most four directories besides
      the root, two levels, 91,227,136 bytes; nothing else at all. */
  lemma AcceptedTrees(disk: Disk, m: Map)
    requires Whole(disk, m)
    ensures disk.root.Folder? && Acceptable(disk) ==>
      && |set p | p in m && m[p].Regular?| <= 12 && |set p | p in m && m[p].Folder? && p != []| <= 4
      && Bytes(m) <= 91_227_136
      && forall p :: p in m ==> (m[p].Folder? && |p| <= 2) || (m[p].Regular? && m[p].links == 1)
  {
    if disk.root.Folder? && Acceptable(disk) {
      var w: Map :| Whole(disk, w) && WithinLimits(w);
      SameTree(disk, m, w);
    }
  }

  lemma SameTree(disk: Disk, a: Map, b: Map)
    requires Whole(disk, a) && Whole(disk, b)
    ensures a == b
  {
    hide NodeAt;
  }

  /** And a whole tree within these figures is accepted. */
  lemma SmallTreesAreAccepted(disk: Disk, m: Map)
    requires Whole(disk, m)
    requires |set p | p in m && m[p].Regular?| <= 12 && |set p | p in m && m[p].Folder? && p != []| <= 4
    requires Bytes(m) <= 91_227_136
    requires forall p :: p in m ==> (m[p].Folder? && |p| <= 2) || (m[p].Regular? && m[p].links == 1 && p != [])
    ensures Acceptable(disk)
  {
    assert forall p :: p in m ==> Allowed(p, m[p]);
    assert WithinLimits(m);
  }
}
