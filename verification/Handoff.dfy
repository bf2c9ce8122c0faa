/** Acceptance of a handoff snapshot: how its manifest, contracts, confirmations and sources
    are bound through digests (scripts/prospective_handoff.py:740-1490).  Hash, JSON and YAML
    readers and the canonicaliser are parameters. */
module Handoff {
  import opened Wrappers

  newtype byte = x: int | 0 <= x < 256

  type Bytes = seq<byte>
  type Doc = Bytes

  const CASE_IDS: seq<string> := [
    "native-p95-under-20ms",
    "native-p95-under-10ms",
    "semantic-first-nonempty-under-20ms"]

  const MANIFEST: string := "handoff-manifest.json"
  const MARKER: string := ".complete"
  const WORKLOAD: string := "sources/real-gpu/workload.jsonl"

  // ---- Records ---------------------------------------------------------------------------

  /** Everything a frozen contract says except its own hash. */
  datatype Terms = Terms(
    id: string, version: string, confirmation: string, approved: Option<int>, created: Option<int>, frozen: Option<int>,
    workload: string, body: Doc)

  datatype Contract = Contract(terms: Terms, canonicalHash: string)

  datatype Confirmation = Confirmation(
    id: string, fingerprint: string, contract: string, version: string, decided: Option<int>, agreed: bool)

  datatype Source = Source(link: string, workload: string, body: Doc)

  /** One case of the manifest. */
  datatype Entry = Entry(
    case_: string, contractPath: string, contractDigest: string, confirmationPath: string, confirmationDigest: string,
    sourcePath: string, sourceDigest: string, confirmation: string, fingerprint: string, canonicalHash: string,
    link: string, contract: string, version: string, methodology: Doc)

  datatype Manifest = Manifest(cases: seq<Entry>, workload: string, boundary: Doc)

  /** A document kind: strict reading and canonical writing. */
  datatype Kind<!T> = Kind(read: Bytes -> Option<T>, canonical: T -> Bytes)

  datatype World = World(
    hash: Bytes -> string,
    manifest: Kind<Manifest>,
    contract: Kind<Contract>,
    terms: Terms -> Bytes,
    agreement: Terms -> Bytes,
    confirmation: Kind<Confirmation>,
    source: Bytes -> Option<Source>,
    boundary: Doc -> bool,
    methodology: (Doc, string, string) -> bool,
    contractBody: (Terms, Doc, string) -> bool,
    sourceBody: (Doc, string) -> bool)

  predicate Hex(s: string) { forall i :: 0 <= i < |s| ==> '0' <= s[i] <= '9' || 'a' <= s[i] <= 'f' }

  predicate Bare(s: string) { |s| == 64 && Hex(s) }

  predicate Tagged(s: string) { |s| == 71 && s[..7] == "sha256:" && Hex(s[7..]) }

  function Digest(w: World, b: Bytes): string { "sha256:" + w.hash(b) }

  predicate ConfirmationId(s: string) { |s| == 68 && s[..4] == "cnf_" && Hex(s[4..]) }

  // ---- Paths -----------------------------------------------------------------------------------

  function ContractPath(id: string): string { "contracts/" + id + ".frozen.json" }

  function ConfirmationPath(id: string): string { "confirmations/" + id + ".confirmation.json" }

  function SourcePath(id: string): string { "sources/" + id + ".yaml" }

  predicate StartsWith(s: string, prefix: string) { prefix <= s }

  function Limit(path: string): Option<nat> {
    if path == MARKER then Some(1_024)
    else if path == MANIFEST then Some(8 * 1024 * 1024)
    else if path == WORKLOAD then Some(64 * 1024 * 1024)
    else if StartsWith(path, "contracts/") then Some(4 * 1024 * 1024)
    else if StartsWith(path, "confirmations/") then Some(512 * 1024)
    else if StartsWith(path, "sources/") then Some(512 * 1024)
    else None
  }

  function Contracts(): set<string> { set i | 0 <= i < 3 :: ContractPath(CASE_IDS[i]) }

  function Confirmations(): set<string> { set i | 0 <= i < 3 :: ConfirmationPath(CASE_IDS[i]) }

  function Sources(): set<string> { set i | 0 <= i < 3 :: SourcePath(CASE_IDS[i]) }

  /** The artifacts the manifest must list. */
  function Artifacts(): set<string> { Contracts() + Confirmations() + Sources() + {WORKLOAD} }

  /** First characters of each kind of path. */
  lemma Kinds(id: string)
    ensures StartsWith(ContractPath(id), "contracts/") && StartsWith(ConfirmationPath(id), "confirmations/")
    ensures StartsWith(SourcePath(id), "sources/")
    ensures !StartsWith(ContractPath(id), "confirmations/") && !StartsWith(ContractPath(id), "sources/")
    ensures !StartsWith(ConfirmationPath(id), "contracts/") && !StartsWith(ConfirmationPath(id), "sources/")
    ensures !StartsWith(SourcePath(id), "contracts/") && !StartsWith(SourcePath(id), "confirmations/")
  {
    assert ContractPath(id)[0] == 'c' && ContractPath(id)[3] == 't';
    assert ConfirmationPath(id)[0] == 'c' && ConfirmationPath(id)[3] == 'f';
    assert SourcePath(id)[0] == 's';
    assert "contracts/"[3] == 't' && "confirmations/"[3] == 'f' && "sources/"[0] == 's';
  }

  lemma OtherKinds()
    ensures StartsWith(WORKLOAD, "sources/") && !StartsWith(WORKLOAD, "contracts/") && !StartsWith(WORKLOAD, "confirmations/")
    ensures forall i :: 0 <= i < 3 ==> SourcePath(CASE_IDS[i]) != WORKLOAD
    ensures MANIFEST !in Artifacts() && MARKER !in Artifacts()
  {
    assert WORKLOAD[0] == 's' && WORKLOAD[8] == 'r';
    assert "contracts/"[0] == 'c' && "confirmations/"[0] == 'c';
    forall i | 0 <= i < 3
      ensures SourcePath(CASE_IDS[i])[8] != 'r' && SourcePath(CASE_IDS[i])[0] == 's'
      ensures ContractPath(CASE_IDS[i])[0] == 'c' && ConfirmationPath(CASE_IDS[i])[0] == 'c'
    {
      assert SourcePath(CASE_IDS[i])[8] == CASE_IDS[i][0];
    }
    assert MANIFEST[0] == 'h' && MARKER[0] == '.';
  }

  lemma IdsDiffer()
    ensures CASE_IDS[0] != CASE_IDS[1] && CASE_IDS[0] != CASE_IDS[2] && CASE_IDS[1] != CASE_IDS[2]
  {
    assert CASE_IDS[0][0] != CASE_IDS[2][0] && CASE_IDS[0][17] != CASE_IDS[1][17];
  }

  lemma SamePathSameCase(i: nat, j: nat)
    requires i < 3 && j < 3
    ensures SourcePath(CASE_IDS[i]) == SourcePath(CASE_IDS[j]) ==> i == j
  {
    IdsDiffer();
    var p, q := SourcePath(CASE_IDS[i]), SourcePath(CASE_IDS[j]);
    assert p[8..|p| - 5] == CASE_IDS[i] && q[8..|q| - 5] == CASE_IDS[j];
  }

  function WithPrefix(paths: set<string>, prefix: string): set<string> {
    set p | p in paths && StartsWith(p, prefix)
  }

  lemma KindsOfAll()
    ensures forall p :: p in Contracts() ==>
      StartsWith(p, "contracts/") && !StartsWith(p, "confirmations/") && !StartsWith(p, "sources/")
    ensures forall p :: p in Confirmations() ==>
      StartsWith(p, "confirmations/") && !StartsWith(p, "contracts/") && !StartsWith(p, "sources/")
    ensures forall p :: p in Sources() ==>
      StartsWith(p, "sources/") && !StartsWith(p, "contracts/") && !StartsWith(p, "confirmations/") && p != WORKLOAD
  {
    OtherKinds();
    forall i | 0 <= i < 3
      ensures StartsWith(ContractPath(CASE_IDS[i]), "contracts/") && StartsWith(ConfirmationPath(CASE_IDS[i]), "confirmations/")
      ensures StartsWith(SourcePath(CASE_IDS[i]), "sources/")
      ensures !StartsWith(ContractPath(CASE_IDS[i]), "confirmations/") && !StartsWith(ContractPath(CASE_IDS[i]), "sources/")
      ensures !StartsWith(ConfirmationPath(CASE_IDS[i]), "contracts/") && !StartsWith(ConfirmationPath(CASE_IDS[i]), "sources/")
      ensures !StartsWith(SourcePath(CASE_IDS[i]), "contracts/") && !StartsWith(SourcePath(CASE_IDS[i]), "confirmations/")
    {
      Kinds(CASE_IDS[i]);
    }
    hide ContractPath, ConfirmationPath, SourcePath, StartsWith;
  }

  /** What the prefixes pick out of the artifacts. */
  lemma ArtifactsByPrefix()
    ensures WithPrefix(Artifacts(), "contracts/") == Contracts()
    ensures WithPrefix(Artifacts(), "confirmations/") == Confirmations()
    ensures WithPrefix(Artifacts(), "sources/") - {WORKLOAD} == Sources()
  {
    OtherKinds();
    KindsOfAll();
    hide Contracts, Confirmations, Sources, StartsWith;
  }

  lemma ThreeSources()
    ensures |Sources()| == 3
  {
    SamePathSameCase(0, 1);
    SamePathSameCase(0, 2);
    SamePathSameCase(1, 2);
    hide SourcePath;
    assert Sources() == {SourcePath(CASE_IDS[0]), SourcePath(CASE_IDS[1]), SourcePath(CASE_IDS[2])};
  }

  // ---- Acceptance ----------------------------------------------------------------------------

  type Contents = map<string, Bytes>

  datatype Pins = Pins(manifest: string, workload: string)

  /** `_strict_json` and the byte comparison with the canonical form. */
  function Canonical<T>(kind: Kind<T>, b: Bytes): Option<T> {
    match kind.read(b)
    case None => None
    case Some(value) => if kind.canonical(value) == b then Some(value) else None
  }

  const DIRECTORIES: set<string> := {"contracts", "confirmations", "sources", "sources/real-gpu"}

  /** What the two walks of the directory saw: its directories, its files as they were read
      in between, and whether both saw the same. */
  datatype Walks = Walks(directories: set<string>, contents: Contents, stable: bool)

  /** The files that a walk of the directory may leave to be read. */
  predicate Readable(contents: Contents) {
    && |contents| == 12
    && MANIFEST in contents && MARKER in contents
    && forall p :: p in contents ==> Limit(p).Some? && |contents[p]| <= Limit(p).value
  }

  predicate EntryPaths(e: Entry, id: string) {
    && e.case_ == id && e.contractPath == ContractPath(id) && e.confirmationPath == ConfirmationPath(id) && e.sourcePath == SourcePath(id)
    && Tagged(e.contractDigest) && Tagged(e.confirmationDigest) && Tagged(e.sourceDigest)
  }

  predicate Has(w: World, contents: Contents, path: string, digest: string) {
    path in contents && Digest(w, contents[path]) == digest
  }

  /** The manifest lists exactly the files that are there, by digest. */
  predicate Listed(w: World, contents: Contents, m: Manifest, pins: Pins) {
    && w.boundary(m.boundary)
    && |m.cases| == 3 && (forall i :: 0 <= i < 3 ==> EntryPaths(m.cases[i], CASE_IDS[i]))
    && Tagged(m.workload)
    && contents.Keys - {MANIFEST, MARKER} == Artifacts()
    && (forall i :: 0 <= i < 3 ==>
        && Has(w, contents, m.cases[i].contractPath, m.cases[i].contractDigest)
        && Has(w, contents, m.cases[i].confirmationPath, m.cases[i].confirmationDigest)
        && Has(w, contents, m.cases[i].sourcePath, m.cases[i].sourceDigest))
    && Has(w, contents, WORKLOAD, m.workload)
    && Tagged(pins.manifest) && Has(w, contents, MANIFEST, pins.manifest)
    && Tagged(pins.workload) && pins.workload == m.workload
  }

  predicate ContractFits(w: World, c: Contract, e: Entry, workload: string) {
    var t := c.terms;
    && t.approved.Some? && t.created.Some? && t.frozen.Some?
    && t.approved == t.created && t.created.value <= t.frozen.value
    && t.confirmation == e.confirmation
    && t.id == "inferdrome-p1-" + e.case_ && t.version == "1.0.0"
    && w.contractBody(t, e.methodology, e.case_)
    && "sha256:" + t.workload == workload
    && Bare(c.canonicalHash) && w.hash(w.terms(t)) == c.canonicalHash
  }

  predicate ConfirmationFits(n: Confirmation, c: Contract, e: Entry) {
    && c.terms.created.Some? && n.decided.Some? && c.terms.frozen.Some?
    && c.terms.created.value <= n.decided.value <= c.terms.frozen.value
    && n.agreed && n.id == e.confirmation && n.fingerprint == e.fingerprint
    && n.contract == c.terms.id && n.version == c.terms.version
  }

  /** One case: its three files agree with each other and with the manifest. */
  predicate CaseFits(w: World, contents: Contents, e: Entry, workload: string) {
    && e.contractPath in contents && e.confirmationPath in contents && e.sourcePath in contents
    && Canonical(w.contract, contents[e.contractPath]).Some?
    && Canonical(w.confirmation, contents[e.confirmationPath]).Some?
    && w.methodology(e.methodology, e.case_, workload)
    && ConfirmationId(e.confirmation) && Bare(e.fingerprint)
    && var c := Canonical(w.contract, contents[e.contractPath]).value;
    && var n := Canonical(w.confirmation, contents[e.confirmationPath]).value;
    && ContractFits(w, c, e, workload)
    && e.contract == c.terms.id && e.version == c.terms.version && e.canonicalHash == c.canonicalHash
    && Tagged(e.link) && e.link == "sha256:" + c.canonicalHash
    && e.fingerprint == w.hash(w.agreement(c.terms))
    && ConfirmationFits(n, c, e)
    && w.source(contents[e.sourcePath]).Some?
    && var s := w.source(contents[e.sourcePath]).value;
    && s.link == e.link && s.workload == workload && w.sourceBody(s.body, e.case_)
  }

  /** The bytes of an ASCII text. */
  function Ascii(text: string): Bytes
    requires forall i :: 0 <= i < |text| ==> text[i] < 128 as char
  {
    seq(|text|, i requires 0 <= i < |text| => (text[i] as int) as byte)
  }

  const MARKER_BYTES: Bytes := Ascii("exitspec.inferdrome-") + Ascii("prospective-handoff.") + Ascii("complete.v1\n")

  predicate Distinct(m: Manifest)
    requires |m.cases| == 3
  {
    && m.cases[0].canonicalHash != m.cases[1].canonicalHash && m.cases[0].canonicalHash != m.cases[2].canonicalHash
    && m.cases[1].canonicalHash != m.cases[2].canonicalHash
    && m.cases[0].confirmation != m.cases[1].confirmation && m.cases[0].confirmation != m.cases[2].confirmation
    && m.cases[1].confirmation != m.cases[2].confirmation
  }

  /** `snapshot_handoff` returns a snapshot.  The closing comparison of path sets does not
      appear here: Snapshot below shows that it never rejects. */
  predicate Accepts(w: World, contents: Contents, pins: Pins) {
    && Readable(contents)
    && Canonical(w.manifest, contents[MANIFEST]).Some?
    && var m := Canonical(w.manifest, contents[MANIFEST]).value;
    && Listed(w, contents, m, pins)
    && (forall i :: 0 <= i < 3 ==> CaseFits(w, contents, m.cases[i], m.workload))
    && Distinct(m)
    && contents[MARKER] == MARKER_BYTES
  }

  // ---- What acceptance means --------------------------------------------------------------------

  ghost predicate Injective(w: World) {
    forall a, b: Bytes :: w.hash(a) == w.hash(b) ==> a == b
  }

  ghost predicate TermsInjective(w: World) {
    forall a, b: Terms :: w.terms(a) == w.terms(b) ==> a == b
  }

  /** The operator's manifest pin alone determines all twelve files. */
  lemma PinDeterminesContents(w: World, a: Contents, b: Contents, pa: Pins, pb: Pins)
    requires Injective(w) && Accepts(w, a, pa) && Accepts(w, b, pb) && pa.manifest == pb.manifest
    ensures a == b && pa == pb
  {
    hide CaseFits, Limit, Tagged, Canonical, Listed, Distinct, Readable;
    Pinned(w, a, pa);
    Pinned(w, b, pb);
    SameBytes(w, a, b, MANIFEST, pa.manifest);
    var m := Canonical(w.manifest, a[MANIFEST]).value;
    forall p | p in Artifacts() ensures p in a && p in b && a[p] == b[p] {
      SameArtifact(w, a, b, m, pa, pb, p);
    }
    SameFiles(a, b);
  }

  lemma Pinned(w: World, a: Contents, pins: Pins)
    requires Accepts(w, a, pins)
    ensures Has(w, a, MANIFEST, pins.manifest) && MARKER in a
    ensures a.Keys == Artifacts() + {MANIFEST, MARKER}
    ensures pins.workload == Canonical(w.manifest, a[MANIFEST]).value.workload
  {
    hide CaseFits, Limit, Tagged, Canonical, Artifacts, Distinct;
  }

  lemma SameArtifact(w: World, a: Contents, b: Contents, m: Manifest, pa: Pins, pb: Pins, p: string)
    requires Injective(w) && Listed(w, a, m, pa) && Listed(w, b, m, pb) && p in Artifacts()
    ensures p in a && p in b && a[p] == b[p]
  {
    hide Tagged, ContractPath, ConfirmationPath, SourcePath, Digest;
    var digest := DigestOf(w, a, b, m, pa, pb, p);
    SameBytes(w, a, b, p, digest);
  }

  lemma DigestOf(w: World, a: Contents, b: Contents, m: Manifest, pa: Pins, pb: Pins, p: string) returns (digest: string)
    requires Listed(w, a, m, pa) && Listed(w, b, m, pb) && p in Artifacts()
    ensures Has(w, a, p, digest) && Has(w, b, p, digest)
  {
    hide Tagged, ContractPath, ConfirmationPath, SourcePath, Has;
    if p == WORKLOAD {
      digest := m.workload;
    } else if p in Contracts() {
      var i :| 0 <= i < 3 && p == ContractPath(CASE_IDS[i]);
      digest := m.cases[i].contractDigest;
    } else if p in Confirmations() {
      var i :| 0 <= i < 3 && p == ConfirmationPath(CASE_IDS[i]);
      digest := m.cases[i].confirmationDigest;
    } else {
      var i :| 0 <= i < 3 && p == SourcePath(CASE_IDS[i]);
      digest := m.cases[i].sourceDigest;
    }
  }

  lemma SameFiles(a: Contents, b: Contents)
    requires a.Keys == Artifacts() + {MANIFEST, MARKER} == b.Keys
    requires forall p :: p in Artifacts() ==> p in a && p in b && a[p] == b[p]
    requires a[MANIFEST] == b[MANIFEST] && a[MARKER] == b[MARKER]
    ensures a == b
  {
    hide Artifacts;
  }

  /** Distinct contract hashes need no check of their own: the contracts already differ in
      their names, and the hash covers the name. */
  lemma DistinctHashesAreImplied(w: World, contents: Contents, e1: Entry, e2: Entry, workload: string)
    requires Injective(w) && TermsInjective(w)
    requires CaseFits(w, contents, e1, workload) && CaseFits(w, contents, e2, workload) && e1.case_ != e2.case_
    ensures e1.canonicalHash != e2.canonicalHash && e1.link != e2.link
  {
    hide Canonical, ConfirmationFits, Tagged, Bare, ConfirmationId;
    var c1, c2 := Canonical(w.contract, contents[e1.contractPath]).value, Canonical(w.contract, contents[e2.contractPath]).value;
    NamesDiffer("inferdrome-p1-", e1.case_, e2.case_);
    assert w.terms(c1.terms) != w.terms(c2.terms);
    NamesDiffer("sha256:", c1.canonicalHash, c2.canonicalHash);
  }

  lemma NamesDiffer(prefix: string, a: string, b: string)
    ensures a != b ==> prefix + a != prefix + b
  {
    assert (prefix + a)[|prefix|..] == a && (prefix + b)[|prefix|..] == b;
  }

  /** Every accepted case was agreed to, between its creation and its freezing, for the workload
      that is there; and the marker is the one line of text that completes a handoff. */
  lemma AcceptedAgreement(w: World, contents: Contents, pins: Pins, i: nat)
    requires Accepts(w, contents, pins) && i < 3
    ensures var e := EntryOf(w, contents, i);
      && e.confirmationPath in contents && e.sourcePath in contents && ContractOf(w, contents, e).Some?
      && w.confirmation.read(contents[e.confirmationPath]).Some? && w.source(contents[e.sourcePath]).Some?
      && var t := ContractOf(w, contents, e).value.terms;
      var n := w.confirmation.read(contents[e.confirmationPath]).value;
      && n.agreed && n.decided.Some? && t.created.Some? && t.frozen.Some? && t.approved == t.created
      && t.created.value <= n.decided.value <= t.frozen.value
      && n.id == e.confirmation == t.confirmation && n.fingerprint == w.hash(w.agreement(t))
      && WORKLOAD in contents && w.source(contents[e.sourcePath]).value.workload == Digest(w, contents[WORKLOAD])
    ensures MARKER in contents && Spells(contents[MARKER], "exitspec.inferdrome-prospective-handoff.complete.v1\n")
  {
    AcceptedCase(w, contents, pins, i);
    MarkerIsSpelled();
    hide Canonical, Limit, Tagged, Bare, ConfirmationId, Distinct, Artifacts, Listed, Readable, Spells;
  }

  /** Its files are the twelve that its three cases name, each within its limit. */
  lemma AcceptedFiles(w: World, contents: Contents, pins: Pins, i: nat)
    requires Accepts(w, contents, pins) && i < 3
    ensures "contracts/" + CASE_IDS[i] + ".frozen.json" in contents
    ensures |contents["contracts/" + CASE_IDS[i] + ".frozen.json"]| <= 4_194_304
    ensures "confirmations/" + CASE_IDS[i] + ".confirmation.json" in contents
    ensures |contents["confirmations/" + CASE_IDS[i] + ".confirmation.json"]| <= 524_288
    ensures "sources/" + CASE_IDS[i] + ".yaml" in contents && |contents["sources/" + CASE_IDS[i] + ".yaml"]| <= 524_288
    ensures MANIFEST in contents && |contents[MANIFEST]| <= 8_388_608 && MARKER in contents && |contents[MARKER]| <= 1_024
    ensures WORKLOAD in contents && |contents[WORKLOAD]| <= 67_108_864 && |contents| == 12
  {
    assert CaseFits(w, contents, EntryOf(w, contents, i), Canonical(w.manifest, contents[MANIFEST]).value.workload);
    CaseLimits(i);
    OtherLimits();
    hide CaseFits, Distinct, Artifacts, Tagged, Limit;
  }

  lemma CaseLimits(i: nat)
    requires i < 3
    ensures Limit("contracts/" + CASE_IDS[i] + ".frozen.json") == Some(4_194_304)
    ensures Limit("confirmations/" + CASE_IDS[i] + ".confirmation.json") == Some(524_288)
    ensures Limit("sources/" + CASE_IDS[i] + ".yaml") == Some(524_288)
  {
    Kinds(CASE_IDS[i]);
    OtherKinds();
    var p, q, r := ContractPath(CASE_IDS[i]), ConfirmationPath(CASE_IDS[i]), SourcePath(CASE_IDS[i]);
    assert p[0] == q[0] == 'c' && r[0] == 's';
    assert MANIFEST[0] == 'h' && MARKER[0] == '.' && WORKLOAD[0] == 's';
    hide StartsWith;
  }

  lemma OtherLimits()
    ensures Limit(MANIFEST) == Some(8_388_608) && Limit(MARKER) == Some(1_024) && Limit(WORKLOAD) == Some(67_108_864)
  {
    assert MANIFEST[0] == 'h' && MARKER[0] == '.' && WORKLOAD[0] == 's';
  }

  /** How its digests and identifiers are spelled. */
  lemma AcceptedSpellings(w: World, contents: Contents, pins: Pins, i: nat)
    requires Accepts(w, contents, pins) && i < 3
    ensures var e := EntryOf(w, contents, i);
      && e.case_ == CASE_IDS[i] && ContractOf(w, contents, e).Some?
      && var t := ContractOf(w, contents, e).value.terms;
      && e.contract == t.id == "inferdrome-p1-" + CASE_IDS[i] && e.version == t.version == "1.0.0"
      && e.link == "sha256:" + e.canonicalHash
      && |e.confirmation| == 68 && e.confirmation[..4] == "cnf_" && HexFrom(e.confirmation, 4)
      && |e.fingerprint| == |e.canonicalHash| == 64 && HexFrom(e.fingerprint, 0) && HexFrom(e.canonicalHash, 0)
    ensures |pins.manifest| == |pins.workload| == 71 && pins.manifest[..7] == pins.workload[..7] == "sha256:"
    ensures HexFrom(pins.manifest, 7) && HexFrom(pins.workload, 7)
  {
    hide Canonical, Limit, Distinct, Artifacts, Readable, ConfirmationFits, Has, Hex, HexFrom;
    AcceptedCase(w, contents, pins, i);
    var e := EntryOf(w, contents, i);
    TagSpelled(pins.manifest);
    TagSpelled(pins.workload);
    BareSpelled(e.fingerprint);
    BareSpelled(e.canonicalHash);
    ConfirmationSpelled(e.confirmation);
    hide Tagged, Bare, ConfirmationId;
  }

  /** From k on, lower-case hexadecimal digits. */
  predicate HexFrom(s: string, k: nat) {
    forall j :: k <= j < |s| ==> '0' <= s[j] <= '9' || 'a' <= s[j] <= 'f'
  }

  lemma TagSpelled(s: string)
    requires Tagged(s)
    ensures |s| == 71 && s[..7] == "sha256:" && HexFrom(s, 7)
  {
    HexAfter(s, 7);
  }

  lemma BareSpelled(s: string)
    requires Bare(s)
    ensures |s| == 64 && HexFrom(s, 0)
  {
  }

  lemma ConfirmationSpelled(s: string)
    requires ConfirmationId(s)
    ensures |s| == 68 && s[..4] == "cnf_" && HexFrom(s, 4)
  {
    HexAfter(s, 4);
  }

  lemma HexAfter(s: string, n: nat)
    requires n <= |s|
    ensures Hex(s[n..]) ==> HexFrom(s, n)
  {
    assert forall k :: n <= k < |s| ==> s[k] == s[n..][k - n];
  }

  predicate Spells(b: Bytes, text: string) {
    |b| == |text| && forall i :: 0 <= i < |b| ==> b[i] as int == text[i] as int
  }

  lemma MarkerIsSpelled()
    ensures Spells(MARKER_BYTES, "exitspec.inferdrome-prospective-handoff.complete.v1\n")
  {
    hide Ascii, Spells;
    MarkerText();
    AsciiSpells("exitspec.inferdrome-");
    AsciiSpells("prospective-handoff.");
    AsciiSpells("complete.v1\n");
    SpellsJoined(Ascii("exitspec.inferdrome-"), Ascii("prospective-handoff."), "exitspec.inferdrome-", "prospective-handoff.");
    SpellsJoined(Ascii("exitspec.inferdrome-") + Ascii("prospective-handoff."), Ascii("complete.v1\n"),
                 "exitspec.inferdrome-" + "prospective-handoff.", "complete.v1\n");
  }

  lemma MarkerText()
    ensures "exitspec.inferdrome-" + "prospective-handoff." + "complete.v1\n" == "exitspec.inferdrome-prospective-handoff.complete.v1\n"
  {
  }

  lemma AsciiSpells(text: string)
    requires forall i :: 0 <= i < |text| ==> text[i] < 128 as char
    ensures Spells(Ascii(text), text)
  {
  }

  lemma SpellsJoined(a: Bytes, b: Bytes, x: string, y: string)
    requires Spells(a, x) && Spells(b, y)
    ensures Spells(a + b, x + y)
  {
  }

  lemma SameBytes(w: World, a: Contents, b: Contents, path: string, digest: string)
    requires Injective(w) && Has(w, a, path, digest) && Has(w, b, path, digest)
    ensures a[path] == b[path]
  {
    assert Digest(w, a[path])[7..] == w.hash(a[path]) && Digest(w, b[path])[7..] == w.hash(b[path]);
  }

  /** Two accepted cases, of one snapshot or of two, that carry the same producer link agree on
      the contract to the byte, and so on case, fingerprint, confirmation and workload. */
  lemma LinkDeterminesCase(w: World, a: Contents, b: Contents, pa: Pins, pb: Pins, i: nat, j: nat)
    requires Injective(w) && TermsInjective(w) && Accepts(w, a, pa) && Accepts(w, b, pb) && i < 3 && j < 3
    requires EntryOf(w, a, i).link == EntryOf(w, b, j).link
    ensures var e, g := EntryOf(w, a, i), EntryOf(w, b, j);
      && i == j
      && e.contractPath in a && g.contractPath in b && a[e.contractPath] == b[g.contractPath]
      && e.fingerprint == g.fingerprint && e.confirmation == g.confirmation
      && WORKLOAD in a && WORKLOAD in b && a[WORKLOAD] == b[WORKLOAD]
  {
    hide Accepts, Canonical, Artifacts;
    AcceptedCase(w, a, pa, i);
    AcceptedCase(w, b, pb, j);
    var e, g := EntryOf(w, a, i), EntryOf(w, b, j);
    SameContract(w, a, b, e, g, pa.workload, pb.workload);
    ContractsNameTheirCase(w, a, b, e, g, pa.workload, pb.workload);
    IdsDiffer();
    SameBytes(w, a, b, WORKLOAD, pa.workload);
  }

  function EntryOf(w: World, contents: Contents, i: nat): Entry {
    if MANIFEST in contents && Canonical(w.manifest, contents[MANIFEST]).Some?
       && i < |Canonical(w.manifest, contents[MANIFEST]).value.cases|
    then Canonical(w.manifest, contents[MANIFEST]).value.cases[i]
    else Entry("", "", "", "", "", "", "", "", "", "", "", "", "", [])
  }

  lemma AcceptedCase(w: World, contents: Contents, pins: Pins, i: nat)
    requires Accepts(w, contents, pins) && i < 3
    ensures EntryOf(w, contents, i).case_ == CASE_IDS[i]
    ensures CaseFits(w, contents, EntryOf(w, contents, i), pins.workload)
    ensures Has(w, contents, WORKLOAD, pins.workload)
  {
    hide Canonical, Limit, Tagged, CaseFits, Distinct, Artifacts, Has, ContractPath, ConfirmationPath, SourcePath;
  }

  /** The contract a fitting case was accepted with. */
  function ContractOf(w: World, contents: Contents, e: Entry): (c: Option<Contract>) {
    if e.contractPath in contents then Canonical(w.contract, contents[e.contractPath]) else None
  }

  lemma FittingContract(w: World, contents: Contents, e: Entry, workload: string)
    requires CaseFits(w, contents, e, workload)
    ensures ContractOf(w, contents, e).Some?
    ensures var c := ContractOf(w, contents, e).value;
      && c.canonicalHash == w.hash(w.terms(c.terms)) && e.link == "sha256:" + c.canonicalHash
      && c.terms.id == "inferdrome-p1-" + e.case_ && c.terms.confirmation == e.confirmation
      && e.fingerprint == w.hash(w.agreement(c.terms)) && workload == "sha256:" + c.terms.workload
      && w.contract.canonical(c) == contents[e.contractPath]
  {
    hide ConfirmationFits, Tagged, Bare, ConfirmationId;
  }

  lemma SameContract(w: World, a: Contents, b: Contents, e: Entry, g: Entry, wa: string, wb: string)
    requires Injective(w) && TermsInjective(w)
    requires CaseFits(w, a, e, wa) && CaseFits(w, b, g, wb) && e.link == g.link
    ensures e.contractPath in a && g.contractPath in b && a[e.contractPath] == b[g.contractPath]
    ensures e.fingerprint == g.fingerprint && e.confirmation == g.confirmation && wa == wb
  {
    FittingContract(w, a, e, wa);
    FittingContract(w, b, g, wb);
    hide CaseFits, Canonical;
    var c, d := ContractOf(w, a, e).value, ContractOf(w, b, g).value;
    NamesDiffer("sha256:", c.canonicalHash, d.canonicalHash);
    assert w.terms(c.terms) == w.terms(d.terms);
    assert c == d;
  }

  /** No contract is accepted under two case names. */
  lemma ContractsNameTheirCase(w: World, a: Contents, b: Contents, e: Entry, g: Entry, wa: string, wb: string)
    requires CaseFits(w, a, e, wa) && CaseFits(w, b, g, wb)
    ensures e.contractPath in a && g.contractPath in b
    ensures a[e.contractPath] == b[g.contractPath] ==> e.case_ == g.case_
  {
    FittingContract(w, a, e, wa);
    FittingContract(w, b, g, wb);
    hide CaseFits;
    NamesDiffer("inferdrome-p1-", e.case_, g.case_);
  }

  /** Nor a confirmation: it names the contract it confirms. */
  lemma ConfirmationsNameTheirCase(w: World, a: Contents, b: Contents, e: Entry, g: Entry, wa: string, wb: string)
    requires CaseFits(w, a, e, wa) && CaseFits(w, b, g, wb)
    ensures e.confirmationPath in a && g.confirmationPath in b
    ensures a[e.confirmationPath] == b[g.confirmationPath] ==> e.case_ == g.case_
  {
    ConfirmationNames(w, a, e, wa);
    ConfirmationNames(w, b, g, wb);
    hide CaseFits;
    NamesDiffer("inferdrome-p1-", e.case_, g.case_);
  }

  lemma ConfirmationNames(w: World, contents: Contents, e: Entry, workload: string)
    requires CaseFits(w, contents, e, workload)
    ensures e.confirmationPath in contents && w.confirmation.read(contents[e.confirmationPath]).Some?
    ensures w.confirmation.read(contents[e.confirmationPath]).value.contract == "inferdrome-p1-" + e.case_
  {
    hide Tagged, Bare, ConfirmationId;
  }

  /** Nor a source: its link is the hash of a contract that names the case. */
  lemma SourcesNameTheirCase(w: World, a: Contents, b: Contents, e: Entry, g: Entry, wa: string, wb: string)
    requires Injective(w) && TermsInjective(w) && CaseFits(w, a, e, wa) && CaseFits(w, b, g, wb)
    ensures e.sourcePath in a && g.sourcePath in b
    ensures a[e.sourcePath] == b[g.sourcePath] ==> e.case_ == g.case_
  {
    SourceLinks(w, a, e, wa);
    SourceLinks(w, b, g, wb);
    if a[e.sourcePath] == b[g.sourcePath] {
      SameContract(w, a, b, e, g, wa, wb);
      ContractsNameTheirCase(w, a, b, e, g, wa, wb);
    }
    hide CaseFits;
  }

  lemma SourceLinks(w: World, contents: Contents, e: Entry, workload: string)
    requires CaseFits(w, contents, e, workload)
    ensures e.sourcePath in contents && w.source(contents[e.sourcePath]).Some?
    ensures w.source(contents[e.sourcePath]).value.link == e.link
  {
    hide Tagged, Bare, ConfirmationId, ContractFits, ConfirmationFits;
  }

  // ---- The validator, step by step ---------------------------------------------------------------

  datatype Case = Case(contractPath: string, confirmationPath: string, sourcePath: string, digest: string)

  /** `Path(p).suffix`: from the last dot of the last component, unless that dot begins or ends it. */
  function Suffix(p: string, end: nat := |p|): string
    requires end <= |p|
  {
    if end == 0 || p[end - 1] == '/' then ""
    else if p[end - 1] == '.' then
      if end == 1 || p[end - 2] == '/' || end == |p| then "" else p[end - 1..]
    else Suffix(p, end - 1)
  }

  function Lower(s: string): string {
    seq(|s|, i requires 0 <= i < |s| => if 'A' <= s[i] <= 'Z' then s[i] - 'A' + 'a' else s[i])
  }

  lemma YamlSuffix(stem: string)
    requires stem != "" && stem[|stem| - 1] != '/'
    ensures Suffix(stem + ".yaml") == ".yaml" && Lower(".yaml") == ".yaml"
  {
    var p, n := stem + ".yaml", |stem|;
    assert p[n..] == ".yaml";
    assert p[n] == '.' && p[n + 1] == 'y' && p[n + 2] == 'a' && p[n + 3] == 'm' && p[n + 4] == 'l';
    assert p[n - 1] == stem[n - 1];
    assert Suffix(p, n + 1) == ".yaml";
    assert Suffix(p, n + 2) == Suffix(p, n + 1);
    assert Suffix(p, n + 3) == Suffix(p, n + 2);
    assert Suffix(p, n + 4) == Suffix(p, n + 3);
    assert Suffix(p) == Suffix(p, n + 4);
  }

  lemma SourcesAreYaml()
    ensures forall p :: p in Sources() ==> Lower(Suffix(p)) == ".yaml"
  {
    forall i | 0 <= i < 3 ensures Lower(Suffix(SourcePath(CASE_IDS[i]))) == ".yaml" {
      var stem := "sources/" + CASE_IDS[i];
      assert stem[|stem| - 1] == CASE_IDS[i][|CASE_IDS[i]| - 1];
      YamlSuffix(stem);
    }
    hide SourcePath, Suffix, Lower;
  }

  /** The closing comparison of path sets (lines 1447-1469). */
  predicate Closing(expected: set<string>, cases: seq<Case>, selected: set<string>) {
    var contracts := WithPrefix(expected, "contracts/");
    var confirmations := WithPrefix(expected, "confirmations/");
    var sources := WithPrefix(expected, "sources/") - {WORKLOAD};
    && contracts == (set i | 0 <= i < |cases| :: cases[i].contractPath)
    && confirmations == (set i | 0 <= i < |cases| :: cases[i].confirmationPath)
    && sources == (set i | 0 <= i < |cases| :: cases[i].sourcePath)
    && |sources| == 3
    && (forall p :: p in sources ==> Lower(Suffix(p)) == ".yaml" || Lower(Suffix(p)) == ".yml")
    && selected == contracts + confirmations + sources
  }

  predicate AtPaths(c: Case, id: string) {
    c.contractPath == ContractPath(id) && c.confirmationPath == ConfirmationPath(id) && c.sourcePath == SourcePath(id)
  }

  lemma BuiltPaths(cases: seq<Case>)
    requires |cases| == 3 && forall i :: 0 <= i < 3 ==> AtPaths(cases[i], CASE_IDS[i])
    ensures (set i | 0 <= i < |cases| :: cases[i].contractPath) == Contracts()
    ensures (set i | 0 <= i < |cases| :: cases[i].confirmationPath) == Confirmations()
    ensures (set i | 0 <= i < |cases| :: cases[i].sourcePath) == Sources()
  {
    hide ContractPath, ConfirmationPath, SourcePath;
  }

  lemma ClosingHolds(cases: seq<Case>, selected: set<string>)
    requires |cases| == 3 && forall i :: 0 <= i < 3 ==> AtPaths(cases[i], CASE_IDS[i])
    requires selected == Contracts() + Confirmations() + Sources()
    ensures Closing(Artifacts(), cases, selected)
  {
    hide WithPrefix, Contracts, Confirmations, Sources, AtPaths, Artifacts, Suffix, Lower;
    BuiltPaths(cases);
    hide ContractPath, ConfirmationPath, SourcePath;
    ArtifactsByPrefix();
    ThreeSources();
    SourcesAreYaml();
  }

  /** The digests of the manifest, path by path, checked against the files. */
  method CheckFiles(w: World, contents: Contents, m: Manifest, pins: Pins) returns (ok: bool)
    requires MANIFEST in contents
    ensures ok <==> Listed(w, contents, m, pins)
  {
    hide Tagged, Digest, Artifacts, ContractPath, ConfirmationPath, SourcePath;
    ok := false;
    if !w.boundary(m.boundary) || |m.cases| != 3 { return; }
    for i := 0 to 3
      invariant forall k :: 0 <= k < i ==> EntryPaths(m.cases[k], CASE_IDS[k])
    {
      if !EntryPaths(m.cases[i], CASE_IDS[i]) { return; }
    }
    if !Tagged(m.workload) || contents.Keys - {MANIFEST, MARKER} != Artifacts() { return; }
    for i := 0 to 3
      invariant forall k :: 0 <= k < i ==>
        && Has(w, contents, m.cases[k].contractPath, m.cases[k].contractDigest)
        && Has(w, contents, m.cases[k].confirmationPath, m.cases[k].confirmationDigest)
        && Has(w, contents, m.cases[k].sourcePath, m.cases[k].sourceDigest)
    {
      var e := m.cases[i];
      if !Has(w, contents, e.contractPath, e.contractDigest) { return; }
      if !Has(w, contents, e.confirmationPath, e.confirmationDigest) { return; }
      if !Has(w, contents, e.sourcePath, e.sourceDigest) { return; }
    }
    ok :=
      && Has(w, contents, WORKLOAD, m.workload)
      && Tagged(pins.manifest) && Has(w, contents, MANIFEST, pins.manifest)
      && Tagged(pins.workload) && pins.workload == m.workload;
  }

  /** The loop over the cases, with its three sets of names already taken. */
  method CheckCases(w: World, contents: Contents, m: Manifest) returns (ok: bool, built: seq<Case>, selected: set<string>)
    requires |m.cases| == 3 && forall i :: 0 <= i < 3 ==> EntryPaths(m.cases[i], CASE_IDS[i])
    ensures ok <==> (forall i :: 0 <= i < 3 ==> CaseFits(w, contents, m.cases[i], m.workload)) && Distinct(m)
    ensures ok ==> |built| == 3 && (forall i :: 0 <= i < 3 ==> AtPaths(built[i], CASE_IDS[i])) && selected == PathsOf(m, 3)
  {
    hide CaseFits, ContractPath, ConfirmationPath, SourcePath, Tagged;
    ok, built, selected := false, [], {};
    var hashes: set<string> := {};
    var links: set<string> := {};
    var confirmations: set<string> := {};
    for i := 0 to 3
      invariant |built| == i && forall k :: 0 <= k < i ==> CaseFits(w, contents, m.cases[k], m.workload)
      invariant forall k :: 0 <= k < i ==> AtPaths(built[k], CASE_IDS[k])
      invariant hashes == set k | 0 <= k < i :: m.cases[k].canonicalHash
      invariant links == set k | 0 <= k < i :: m.cases[k].link
      invariant confirmations == set k | 0 <= k < i :: m.cases[k].confirmation
      invariant forall k, l :: 0 <= k < l < i ==>
        m.cases[k].canonicalHash != m.cases[l].canonicalHash && m.cases[k].confirmation != m.cases[l].confirmation
      invariant selected == PathsOf(m, i)
    {
      var e := m.cases[i];
      selected := selected + {e.contractPath, e.confirmationPath, e.sourcePath};
      if !CaseFits(w, contents, e, m.workload) { return; }
      LinksFollowHashes(w, contents, m, i);
      if e.canonicalHash in hashes || e.link in links || e.confirmation in confirmations { return; }
      hashes, links, confirmations := hashes + {e.canonicalHash}, links + {e.link}, confirmations + {e.confirmation};
      built := built + [Case(e.contractPath, e.confirmationPath, e.sourcePath, e.link)];
    }
    ok := true;
  }

  /** `snapshot_handoff`. */
  method Snapshot(w: World, walks: Walks, pins: Pins) returns (cases: Option<seq<Case>>)
    ensures cases.Some? <==> walks.stable && walks.directories <= DIRECTORIES && Accepts(w, walks.contents, pins)
    ensures cases.Some? ==> |cases.value| == 3 && forall i :: 0 <= i < 3 ==> AtPaths(cases.value[i], CASE_IDS[i])
  {
    hide Readable, Listed, CaseFits, Canonical, Artifacts, Distinct, Closing, EntryPaths, AtPaths;
    var contents := walks.contents;
    if !Readable(contents) || !(walks.directories <= DIRECTORIES) || !walks.stable { return None; }
    ReadableHas(contents);
    var manifest := Canonical(w.manifest, contents[MANIFEST]);
    if manifest.None? { return None; }
    var m := manifest.value;
    var listed := CheckFiles(w, contents, m, pins);
    if !listed { return None; }
    ListedMeans(w, contents, m, pins);
    var ok: bool, built: seq<Case>, selected: set<string>;
    ok, built, selected := CheckCases(w, contents, m);
    if !ok { return None; }
    AllPaths(m);
    ClosingHolds(built, selected);
    if !Closing(Artifacts(), built, selected) { assert false; }
    if contents[MARKER] != MARKER_BYTES { return None; }
    cases := Some(built);
  }

  function PathsOf(m: Manifest, n: nat): set<string>
    requires n <= |m.cases|
  {
    if n == 0 then {}
    else PathsOf(m, n - 1) + {m.cases[n - 1].contractPath, m.cases[n - 1].confirmationPath, m.cases[n - 1].sourcePath}
  }

  lemma ReadableHas(contents: Contents)
    requires Readable(contents)
    ensures MANIFEST in contents && MARKER in contents
  {
  }

  lemma ListedMeans(w: World, contents: Contents, m: Manifest, pins: Pins)
    requires Listed(w, contents, m, pins)
    ensures |m.cases| == 3 && forall i :: 0 <= i < 3 ==> EntryPaths(m.cases[i], CASE_IDS[i])
  {
  }

  lemma AllPaths(m: Manifest)
    requires |m.cases| == 3 && forall i :: 0 <= i < 3 ==> EntryPaths(m.cases[i], CASE_IDS[i])
    ensures PathsOf(m, 3) == Contracts() + Confirmations() + Sources()
  {
    hide ContractPath, ConfirmationPath, SourcePath, Tagged;
    assert PathsOf(m, 1) == PathsOf(m, 0) + {m.cases[0].contractPath, m.cases[0].confirmationPath, m.cases[0].sourcePath};
    assert PathsOf(m, 2) == PathsOf(m, 1) + {m.cases[1].contractPath, m.cases[1].confirmationPath, m.cases[1].sourcePath};
    assert PathsOf(m, 3) == PathsOf(m, 2) + {m.cases[2].contractPath, m.cases[2].confirmationPath, m.cases[2].sourcePath};
    hide PathsOf;
    assert Contracts() == {ContractPath(CASE_IDS[0]), ContractPath(CASE_IDS[1]), ContractPath(CASE_IDS[2])};
    assert Confirmations() == {ConfirmationPath(CASE_IDS[0]), ConfirmationPath(CASE_IDS[1]), ConfirmationPath(CASE_IDS[2])};
    assert Sources() == {SourcePath(CASE_IDS[0]), SourcePath(CASE_IDS[1]), SourcePath(CASE_IDS[2])};
  }

  /** Two fitting cases share a producer link only if they share a hash. */
  lemma LinksFollowHashes(w: World, contents: Contents, m: Manifest, i: nat)
    requires i < |m.cases| && forall k :: 0 <= k <= i ==> CaseFits(w, contents, m.cases[k], m.workload)
    ensures forall k :: 0 <= k < i && m.cases[k].link == m.cases[i].link ==> m.cases[k].canonicalHash == m.cases[i].canonicalHash
  {
    forall k | 0 <= k <= i ensures m.cases[k].link == "sha256:" + m.cases[k].canonicalHash {
      LinkIsHash(w, contents, m.cases[k], m.workload);
    }
    hide CaseFits;
    forall k | 0 <= k < i && m.cases[k].link == m.cases[i].link ensures m.cases[k].canonicalHash == m.cases[i].canonicalHash {
      NamesDiffer("sha256:", m.cases[k].canonicalHash, m.cases[i].canonicalHash);
    }
  }

  lemma LinkIsHash(w: World, contents: Contents, e: Entry, workload: string)
    requires CaseFits(w, contents, e, workload)
    ensures e.link == "sha256:" + e.canonicalHash
  {
  }

  // ---- A handoff that is accepted ----------------------------------------------------------------

  function Digits(c: char): string { seq(64, i => c) }

  function SomeId(i: nat): string
    requires i < 3
  {
    "inferdrome-p1-" + CASE_IDS[i]
  }

  function DigitOf(i: nat): char
    requires i < 3
  {
    ['0', '1', '2'][i]
  }

  function SomeTerms(i: nat): Terms
    requires i < 3
  {
    Terms(SomeId(i), "1.0.0", "cnf_" + Digits(DigitOf(i)), Some(0), Some(0), Some(2), Digits('0'), [])
  }

  function SomeContract(i: nat): Contract
    requires i < 3
  {
    Contract(SomeTerms(i), Digits(DigitOf(i)))
  }

  function SomeConfirmation(i: nat): Confirmation
    requires i < 3
  {
    Confirmation("cnf_" + Digits(DigitOf(i)), Digits('0'), SomeId(i), "1.0.0", Some(1), true)
  }

  function SomeEntry(i: nat): Entry
    requires i < 3
  {
    var d := "sha256:" + Digits('0');
    Entry(CASE_IDS[i], ContractPath(CASE_IDS[i]), d, ConfirmationPath(CASE_IDS[i]), d, SourcePath(CASE_IDS[i]), d,
          "cnf_" + Digits(DigitOf(i)), Digits('0'), Digits(DigitOf(i)), "sha256:" + Digits(DigitOf(i)), SomeId(i), "1.0.0", [])
  }

  function SomeManifest(): Manifest {
    Manifest([SomeEntry(0), SomeEntry(1), SomeEntry(2)], "sha256:" + Digits('0'), [])
  }

  /** Which case a one-byte file or a contract's name belongs to. */
  function CaseOfFile(b: Bytes): (i: nat)
    ensures i < 3
  {
    if |b| == 1 && b[0] % 4 < 3 then (b[0] % 4) as int else 0
  }

  function CaseOfName(id: string): (i: nat)
    ensures i < 3
  {
    if id == SomeId(1) then 1 else if id == SomeId(2) then 2 else 0
  }

  /** Byte 4 k + i: kind k, case i. */
  function FileOf(kind: nat, i: nat): Bytes
    requires kind < 8 && i < 3
  {
    [(4 * kind + i) as byte]
  }

  lemma FileCases(kind: nat, i: nat)
    requires kind < 8 && i < 3
    ensures CaseOfFile(FileOf(kind, i)) == i && |FileOf(kind, i)| == 1 && FileOf(kind, i)[0] as int == 4 * kind + i
  {
  }

  function SomeWorld(): World {
    World(
      b => if |b| == 1 && 16 <= b[0] < 20 then Digits(DigitOf(CaseOfFile(b))) else Digits('0'),
      Kind(b => Some(SomeManifest()), m => [28]),
      Kind(b => Some(SomeContract(CaseOfFile(b))), (c: Contract) => FileOf(1, CaseOfName(c.terms.id))),
      (t: Terms) => FileOf(4, CaseOfName(t.id)),
      t => [28],
      Kind(b => Some(SomeConfirmation(CaseOfFile(b))), (n: Confirmation) => FileOf(2, CaseOfName(n.contract))),
      b => Some(Source("sha256:" + Digits(DigitOf(CaseOfFile(b))), "sha256:" + Digits('0'), [])),
      d => true,
      (d, case_, workload) => true,
      (t, d, case_) => true,
      (d, case_) => true)
  }

  function FileAt(path: string): Bytes {
    if path == MANIFEST || path == WORKLOAD then [28]
    else if path == MARKER then MARKER_BYTES
    else if path == ContractPath(CASE_IDS[0]) then FileOf(1, 0)
    else if path == ContractPath(CASE_IDS[1]) then FileOf(1, 1)
    else if path == ContractPath(CASE_IDS[2]) then FileOf(1, 2)
    else if path == ConfirmationPath(CASE_IDS[0]) then FileOf(2, 0)
    else if path == ConfirmationPath(CASE_IDS[1]) then FileOf(2, 1)
    else if path == ConfirmationPath(CASE_IDS[2]) then FileOf(2, 2)
    else if path == SourcePath(CASE_IDS[0]) then FileOf(3, 0)
    else if path == SourcePath(CASE_IDS[1]) then FileOf(3, 1)
    else FileOf(3, 2)
  }

  function SomeContents(): Contents {
    map p | p in Artifacts() + {MANIFEST, MARKER} :: FileAt(p)
  }

  const SomePins: Pins := Pins("sha256:" + Digits('0'), "sha256:" + Digits('0'))

  lemma DigitShapes(c: char)
    requires '0' <= c <= '9'
    ensures Bare(Digits(c)) && Tagged("sha256:" + Digits(c)) && ConfirmationId("cnf_" + Digits(c))
  {
    assert ("sha256:" + Digits(c))[..7] == "sha256:" && ("sha256:" + Digits(c))[7..] == Digits(c);
    assert ("cnf_" + Digits(c))[..4] == "cnf_" && ("cnf_" + Digits(c))[4..] == Digits(c);
  }

  lemma NamesTell(i: nat)
    requires i < 3
    ensures CaseOfName(SomeId(i)) == i
  {
    IdsDiffer();
    NamesDiffer("inferdrome-p1-", CASE_IDS[0], CASE_IDS[1]);
    NamesDiffer("inferdrome-p1-", CASE_IDS[0], CASE_IDS[2]);
    NamesDiffer("inferdrome-p1-", CASE_IDS[1], CASE_IDS[2]);
  }

  lemma SamePaths(i: nat, j: nat)
    requires i < 3 && j < 3
    ensures ContractPath(CASE_IDS[i]) == ContractPath(CASE_IDS[j]) ==> i == j
    ensures ConfirmationPath(CASE_IDS[i]) == ConfirmationPath(CASE_IDS[j]) ==> i == j
  {
    IdsDiffer();
    var p, q := ContractPath(CASE_IDS[i]), ContractPath(CASE_IDS[j]);
    assert p[10..|p| - 12] == CASE_IDS[i] && q[10..|q| - 12] == CASE_IDS[j];
    var r, t := ConfirmationPath(CASE_IDS[i]), ConfirmationPath(CASE_IDS[j]);
    assert r[14..|r| - 18] == CASE_IDS[i] && t[14..|t| - 18] == CASE_IDS[j];
  }

  lemma FilesStand(i: nat)
    requires i < 3
    ensures ContractPath(CASE_IDS[i]) in SomeContents() && SomeContents()[ContractPath(CASE_IDS[i])] == FileOf(1, i)
    ensures ConfirmationPath(CASE_IDS[i]) in SomeContents() && SomeContents()[ConfirmationPath(CASE_IDS[i])] == FileOf(2, i)
    ensures SourcePath(CASE_IDS[i]) in SomeContents() && SomeContents()[SourcePath(CASE_IDS[i])] == FileOf(3, i)
    ensures SomeContents()[MANIFEST] == SomeContents()[WORKLOAD] == [28] && SomeContents()[MARKER] == MARKER_BYTES
  {
    hide StartsWith, FileOf, Digits;
    OtherKinds();
    KindsOfAll();
    forall j, k | 0 <= j < 3 && 0 <= k < 3
      ensures ContractPath(CASE_IDS[j]) == ContractPath(CASE_IDS[k]) ==> j == k
      ensures ConfirmationPath(CASE_IDS[j]) == ConfirmationPath(CASE_IDS[k]) ==> j == k
      ensures SourcePath(CASE_IDS[j]) == SourcePath(CASE_IDS[k]) ==> j == k
    {
      SamePaths(j, k);
      SamePathSameCase(j, k);
    }
    MarkerIsNoManifest();
    hide ContractPath, ConfirmationPath, SourcePath, StartsWith, FileOf, Digits;
    assert ContractPath(CASE_IDS[i]) in Contracts() && ConfirmationPath(CASE_IDS[i]) in Confirmations() && SourcePath(CASE_IDS[i]) in Sources();
  }

  lemma MarkerIsNoManifest()
    ensures MARKER != MANIFEST && MARKER != WORKLOAD
  {
    assert MARKER[0] == '.' && MANIFEST[0] == 'h' && WORKLOAD[0] == 's';
  }

  lemma SomeCaseFits(i: nat)
    requires i < 3
    ensures CaseFits(SomeWorld(), SomeContents(), SomeEntry(i), "sha256:" + Digits('0'))
  {
    hide SomeWorld, SomeContents, FileOf, Canonical, Bare, Tagged, ConfirmationId, Digits, ContractPath, ConfirmationPath, SourcePath;
    hide ContractFits, ConfirmationFits;
    FilesStand(i);
    SomeReads(i);
    SomeTermsFit(i);
    DigitShapes(DigitOf(i));
    DigitShapes('0');
    SomeChecks();
  }

  lemma SomeChecks()
    ensures var w := SomeWorld();
      && (forall d, id, workload :: w.methodology(d, id, workload))
      && (forall d :: w.boundary(d)) && (forall d, id :: w.sourceBody(d, id))
      && (forall b :: w.manifest.read(b) == Some(SomeManifest())) && (forall m :: w.manifest.canonical(m) == [28])
  {
    hide SomeManifest, SomeContract, SomeConfirmation, FileOf, CaseOfFile, CaseOfName;
  }

  lemma SomeReads(i: nat)
    requires i < 3
    ensures var w := SomeWorld();
      && Canonical(w.contract, FileOf(1, i)) == Some(SomeContract(i))
      && Canonical(w.confirmation, FileOf(2, i)) == Some(SomeConfirmation(i))
      && w.source(FileOf(3, i)) == Some(Source("sha256:" + Digits(DigitOf(i)), "sha256:" + Digits('0'), []))
      && w.hash(w.terms(SomeTerms(i))) == Digits(DigitOf(i)) && w.hash(w.agreement(SomeTerms(i))) == Digits('0')
  {
    NamesTell(i);
    FileCases(1, i);
    FileCases(2, i);
    FileCases(3, i);
    FileCases(4, i);
    hide CaseOfFile, CaseOfName, Digits, SomeManifest, SomeId, FileOf;
  }

  lemma SomeTermsFit(i: nat)
    requires i < 3
    ensures ContractFits(SomeWorld(), SomeContract(i), SomeEntry(i), "sha256:" + Digits('0'))
    ensures ConfirmationFits(SomeConfirmation(i), SomeContract(i), SomeEntry(i))
  {
    hide SomeWorld, Bare, Digits, ContractPath, ConfirmationPath, SourcePath, FileOf, Canonical;
    SomeReads(i);
    DigitShapes(DigitOf(i));
    SomeBodies();
  }

  lemma SomeBodies()
    ensures forall t, d, id :: SomeWorld().contractBody(t, d, id)
  {
    hide SomeManifest, SomeContract, SomeConfirmation, FileOf, CaseOfFile, CaseOfName;
  }

  lemma SomeFilesAreListed()
    ensures Listed(SomeWorld(), SomeContents(), SomeManifest(), SomePins)
  {
    hide SomeWorld, SomeContents, Artifacts, ContractPath, ConfirmationPath, SourcePath, Digits, FileOf, Tagged, FileAt;
    DigitShapes('0');
    SomeChecks();
    SomeKeys();
    forall i | 0 <= i < 3
      ensures EntryPaths(SomeManifest().cases[i], CASE_IDS[i])
      ensures Has(SomeWorld(), SomeContents(), ContractPath(CASE_IDS[i]), "sha256:" + Digits('0'))
      ensures Has(SomeWorld(), SomeContents(), ConfirmationPath(CASE_IDS[i]), "sha256:" + Digits('0'))
      ensures Has(SomeWorld(), SomeContents(), SourcePath(CASE_IDS[i]), "sha256:" + Digits('0'))
    {
      FilesStand(i);
      SomeHashes(i);
    }
    FilesStand(0);
    SomeHashes(0);
  }

  lemma SomeKeys()
    ensures SomeContents().Keys == Artifacts() + {MANIFEST, MARKER} && SomeContents().Keys - {MANIFEST, MARKER} == Artifacts()
    ensures WORKLOAD in SomeContents() && MANIFEST in SomeContents() && MARKER in SomeContents()
  {
    OtherKinds();
    hide Contracts, Confirmations, Sources, FileAt;
  }

  lemma SomeHashes(i: nat)
    requires i < 3
    ensures var w := SomeWorld();
      w.hash(FileOf(1, i)) == w.hash(FileOf(2, i)) == w.hash(FileOf(3, i)) == w.hash([28]) == Digits('0')
  {
    FileCases(1, i);
    FileCases(2, i);
    FileCases(3, i);
    hide CaseOfFile, CaseOfName, Digits, SomeManifest, SomeContract, SomeConfirmation, FileOf;
  }

  lemma SomeContentsAreReadable()
    ensures Readable(SomeContents())
  {
    TwelvePaths();
    MarkerIsNoManifest();
    assert SomeContents().Keys == Artifacts() + {MANIFEST, MARKER};
    forall p | p in SomeContents() ensures Limit(p).Some? && |SomeContents()[p]| <= Limit(p).value {
      ShortFile(p);
    }
    hide Artifacts, Limit, FileAt;
  }

  lemma ShortFile(p: string)
    requires p in Artifacts() + {MANIFEST, MARKER}
    ensures Limit(p).Some? && |FileAt(p)| <= Limit(p).value
  {
    KindsOfAll();
    OtherKinds();
    hide StartsWith, ContractPath, ConfirmationPath, SourcePath, Contracts, Confirmations, Sources;
  }

  lemma TwelvePaths()
    ensures |Artifacts() + {MANIFEST, MARKER}| == 12
  {
    OtherKinds();
    KindsOfAll();
    ThreeSources();
    ThreeOthers();
    MarkerIsNoManifest();
    hide Contracts, Confirmations, Sources, StartsWith;
    assert Contracts() !! Confirmations() && Contracts() !! Sources() && Confirmations() !! Sources();
    assert |Contracts() + Confirmations()| == 6;
    assert |Contracts() + Confirmations() + Sources()| == 9;
    assert |Artifacts()| == 10;
    assert |{MANIFEST, MARKER}| == 2;
  }

  lemma ThreeOthers()
    ensures |Contracts()| == 3 && |Confirmations()| == 3
  {
    SamePaths(0, 1);
    SamePaths(0, 2);
    SamePaths(1, 2);
    hide ContractPath, ConfirmationPath;
    assert Contracts() == {ContractPath(CASE_IDS[0]), ContractPath(CASE_IDS[1]), ContractPath(CASE_IDS[2])};
    assert Confirmations() == {ConfirmationPath(CASE_IDS[0]), ConfirmationPath(CASE_IDS[1]), ConfirmationPath(CASE_IDS[2])};
  }

  lemma DistinctDigits()
    ensures Distinct(SomeManifest())
  {
    assert Digits('0')[0] == '0' && Digits('1')[0] == '1' && Digits('2')[0] == '2';
    NamesDiffer("cnf_", Digits('0'), Digits('1'));
    NamesDiffer("cnf_", Digits('0'), Digits('2'));
    NamesDiffer("cnf_", Digits('1'), Digits('2'));
    hide Digits, ContractPath, ConfirmationPath, SourcePath;
  }

  /** Twelve files and two pins that are accepted. */
  lemma SomeHandoffIsAccepted()
    ensures Accepts(SomeWorld(), SomeContents(), SomePins)
  {
    hide SomeWorld, SomeContents, Readable, Listed, Distinct, CaseFits, Digits, SomeEntry, FileOf;
    SomeContentsAreReadable();
    SomeFilesAreListed();
    DistinctDigits();
    SomeKeys();
    FilesStand(0);
    SomeChecks();
    forall i | 0 <= i < 3 ensures CaseFits(SomeWorld(), SomeContents(), SomeManifest().cases[i], "sha256:" + Digits('0')) {
      SomeCaseFits(i);
    }
  }
}
