/** The metadata of a three-case session: the writer of its four linked records and the
    verifier that reads them back (scripts/prospective_real_gpu_capture.py:597-613,
    644-1060).  Hash, JSON text and bundle verification are parameters. */
module Session {
  import opened Wrappers

  type Bytes = seq<bv8>
  type Digest = string

  /** Member names of the nested objects, and any other name. */
  datatype Key =
    | BundleDigest | BundlePath | CaseId | ExecutionFingerprint | ExitspecContractDigest | OriginalSpecSha256
    | RequestPlanDigest | RunId | SourceSpecDigest | Chronology | ExpectedDigestSource | VerdictOwner
    | InferdromeAcceptanceVerdict | ProducerDigestsAreObservational | Else(name: string)

  datatype Json =
    | Null
    | Bool(b: bool)
    | Num(n: real)
    | Text(s: string)
    | Arr(items: seq<Json>)
    | Obj(fields: map<Key, Json>)

  type Object = map<Key, Json>

  /** Python's `==` on JSON values takes True for 1 and False for 0. */
  function Norm(j: Json): Json {
    match j
    case Bool(b) => Num(if b then 1.0 else 0.0)
    case Arr(items) => Arr(seq(|items|, i requires 0 <= i < |items| => Norm(items[i])))
    case Obj(fields) => Obj(map k | k in fields :: Norm(fields[k]))
    case _ => j
  }

  predicate Equal(a: Json, b: Json) { Norm(a) == Norm(b) }

  lemma EqualToText(j: Json, s: string)
    ensures Equal(j, Text(s)) <==> j == Text(s)
  {
  }

  /** What bundle verification reports. */
  datatype Report = Report(
    bundle: Digest, run: string, execution: Digest, plan: Digest, source: Digest,
    contract: Option<Digest>, eligible: bool)

  // The four records, member by member.

  datatype Capture = Capture(
    boundary: Json, cases: Json, binding: Json, generated: Json, host: Json, methodology: Json, commit: Json, schema: Json)

  datatype Handoff = Handoff(
    boundary: Json, capture: Json, cases: Json, binding: Json, generated: Json, host: Json, commit: Json, schema: Json)

  datatype Publication = Publication(
    verdict: Json, capture: Json, contracts: Json, handoff: Json, host: Json, approvalRequired: Json, performed: Json,
    status: Json, schema: Json)

  datatype Receipt = Receipt(
    boundary: Json, capture: Json, cases: Json, contracts: Json, handoff: Json, host: Json, publication: Json,
    publicationStatus: Json, commit: Json, schema: Json, status: Json)

  /** A record's JSON text; reading fails unless it is strict JSON with exactly the record's members. */
  datatype Format<!T> = Format(write: T -> Bytes, read: Bytes -> Option<T>)

  predicate Kept<T(==)>(f: Format<T>, t: T) {
    f.write(t) != [] && f.read(f.write(t)) == Some(t)
  }

  datatype World = World(
    capture: Format<Capture>,
    handoff: Format<Handoff>,
    publication: Format<Publication>,
    receipt: Format<Receipt>,
    hash: Bytes -> Digest,
    str: Json -> string,
    inside: string -> bool,
    report: (string, Digest) -> Option<Report>,
    original: string -> Option<Digest>,
    methodology: Json)

  /** `str` of a string is that string. */
  ghost predicate StrIsExact(w: World) { forall s: string :: w.str(Text(s)) == s }

  const MAX: nat := 8_388_608

  const CASE_IDS: seq<string> := [
    "native-p95-under-20ms",
    "native-p95-under-10ms",
    "semantic-first-nonempty-under-20ms"]

  const CAPTURE_SCHEMA: Json := Text("inferdrome.prospective-real-gpu-capture.v1")
  const HANDOFF_SCHEMA: Json := Text("inferdrome.prospective-real-gpu-handoff.v1")
  const PUBLICATION_SCHEMA: Json := Text("inferdrome.prospective-real-gpu-publication.v1")
  const RECEIPT_SCHEMA: Json := Text("inferdrome.prospective-real-gpu-receipt.v1")
  const CAPTURED: Json := Text("CAPTURED_PENDING_EXTERNAL_EXITSPEC")
  const PENDING: Json := Text("PENDING_EXTERNAL_EXITSPEC")
  const OWNER: Json := Text("EXTERNAL_EXITSPEC")
  const CHRONOLOGY: Json := Text("OPERATOR_MUST_FREEZE_BEFORE_MEASUREMENT")

  predicate Hex(s: string) { forall i :: 0 <= i < |s| ==> '0' <= s[i] <= '9' || 'a' <= s[i] <= 'f' }

  predicate IsDigest(s: string) { |s| == 71 && s[..7] == "sha256:" && Hex(s[7..]) }

  predicate IsRun(s: string) { |s| == 36 && s[..4] == "run-" && Hex(s[4..]) }

  predicate IsCommit(s: string) { |s| == 40 && Hex(s) }

  // ---- The writer's records -----------------------------------------------------------

  datatype Completed = Completed(
    id: string, path: string, bundle: Digest, run: string, source: Digest, execution: Digest,
    plan: Digest, contract: Digest, original: Digest)

  function CaseRecord(c: Completed): Object {
    map[BundleDigest := Text(c.bundle), BundlePath := Text(c.path), CaseId := Text(c.id),
        ExecutionFingerprint := Text(c.execution), ExitspecContractDigest := Text(c.contract),
        OriginalSpecSha256 := Text(c.original), RequestPlanDigest := Text(c.plan),
        RunId := Text(c.run), SourceSpecDigest := Text(c.source)]
  }

  function CaseRecords(cs: seq<Completed>): Json {
    Arr(seq(|cs|, i requires 0 <= i < |cs| => Obj(CaseRecord(cs[i]))))
  }

  datatype Facts = Facts(cases: seq<Completed>, commit: string, host: Digest, generated: string)

  function CaptureRecord(w: World, f: Facts): Capture {
    Capture(PENDING, CaseRecords(f.cases), CaptureBinding(), Text(f.generated), Text(f.host), w.methodology,
            Text(f.commit), CAPTURE_SCHEMA)
  }

  function CaptureBinding(): Json {
    Obj(map[Chronology := CHRONOLOGY, ExpectedDigestSource := Text("EXPLICIT_OPERATOR_INPUT"), VerdictOwner := OWNER])
  }

  /** The excerpt of a case that the handoff repeats. */
  function Excerpt(item: Object): Json {
    Obj(map[BundleDigest := At(item, BundleDigest), CaseId := At(item, CaseId),
            ExitspecContractDigest := At(item, ExitspecContractDigest),
            SourceSpecDigest := At(item, SourceSpecDigest)])
  }

  function Excerpted(cs: seq<Completed>): Json {
    Arr(seq(|cs|, i requires 0 <= i < |cs| => Excerpt(CaseRecord(cs[i]))))
  }

  function HandoffRecord(f: Facts, capture: Digest): Handoff {
    Handoff(HandoffBoundary(), Text(capture),
            Excerpted(f.cases),
            HandoffBinding(), Text(f.generated), Text(f.host), Text(f.commit), HANDOFF_SCHEMA)
  }

  function HandoffBoundary(): Json { Obj(map[InferdromeAcceptanceVerdict := Null, VerdictOwner := OWNER]) }

  function HandoffBinding(): Json {
    Obj(map[Chronology := CHRONOLOGY, ProducerDigestsAreObservational := Bool(true)])
  }

  function Contracts(f: Facts): Json {
    Arr(seq(|f.cases|, i requires 0 <= i < |f.cases| => Text(f.cases[i].contract)))
  }

  function PublicationRecord(f: Facts, capture: Digest, handoff: Digest): Publication {
    Publication(Null, Text(capture), Contracts(f), Text(handoff), Text(f.host), Bool(true), Bool(false),
                Text("EXTERNAL_ONLY"), PUBLICATION_SCHEMA)
  }

  function ReceiptRecord(f: Facts, capture: Digest, handoff: Digest, publication: Digest): Receipt {
    Receipt(PENDING, Text(capture), CaseRecords(f.cases), Contracts(f), Text(handoff), Text(f.host), Text(publication),
            Text("EXTERNAL_ONLY"), Text(f.commit), RECEIPT_SCHEMA, CAPTURED)
  }

  /** The four files, each naming the digests of those before it. */
  datatype Records = Records(capture: Bytes, handoff: Bytes, publication: Bytes, receipt: Bytes)

  function Written(w: World, f: Facts): Records {
    var capture := w.capture.write(CaptureRecord(w, f));
    var handoff := w.handoff.write(HandoffRecord(f, w.hash(capture)));
    var publication := w.publication.write(PublicationRecord(f, w.hash(capture), w.hash(handoff)));
    Records(capture, handoff, publication,
            w.receipt.write(ReceiptRecord(f, w.hash(capture), w.hash(handoff), w.hash(publication))))
  }

  // ---- The verifier's conditions ---------------------------------------------------------

  /** `dict.get`. */
  function At(fields: Object, key: Key): Json { if key in fields then fields[key] else Null }

  predicate DigestAt(fields: Object, key: Key) { At(fields, key).Text? && IsDigest(At(fields, key).s) }

  function Read<T>(format: Format<T>, file: Bytes): Option<T> {
    if 0 < |file| <= MAX then format.read(file) else None
  }

  predicate CaseShape(w: World, item: Json, id: string) {
    && item.Obj?
    && At(item.fields, CaseId) == Text(id)
    && item.fields.Keys == {BundleDigest, BundlePath, CaseId, ExecutionFingerprint, ExitspecContractDigest,
                            OriginalSpecSha256, RequestPlanDigest, RunId, SourceSpecDigest}
    && DigestAt(item.fields, BundleDigest) && DigestAt(item.fields, ExecutionFingerprint)
    && DigestAt(item.fields, ExitspecContractDigest) && DigestAt(item.fields, OriginalSpecSha256)
    && DigestAt(item.fields, RequestPlanDigest) && DigestAt(item.fields, SourceSpecDigest)
    && At(item.fields, RunId).Text? && IsRun(At(item.fields, RunId).s)
  }

  /** A report whose own digests are well formed. */
  predicate Sound(w: World, r: Report) {
    && IsDigest(r.bundle) && IsDigest(r.execution) && IsDigest(r.plan) && IsDigest(r.source)
    && r.contract.Some? && IsDigest(r.contract.value) && IsRun(r.run) && r.eligible
  }

  predicate Linked(w: World, item: Object, expected: Digest)
    requires DigestAt(item, BundleDigest)
  {
    var path := w.str(At(item, BundlePath));
    && At(item, ExitspecContractDigest) == Text(expected)
    && w.inside(path)
    && w.report(path, item[BundleDigest].s).Some?
    && var r := w.report(path, item[BundleDigest].s).value;
    && Sound(w, r)
    && At(item, BundleDigest) == Text(r.bundle) && At(item, ExecutionFingerprint) == Text(r.execution)
    && At(item, RequestPlanDigest) == Text(r.plan) && At(item, SourceSpecDigest) == Text(r.source)
    && At(item, ExitspecContractDigest) == Text(r.contract.value) && At(item, RunId) == Text(r.run)
    && w.original(path).Some? && At(item, OriginalSpecSha256) == Text(w.original(path).value)
  }

  type Expected = e: seq<Digest> | |e| == 3 witness ["", "", ""]

  function DigestList(expected: Expected): Json { Arr([Text(expected[0]), Text(expected[1]), Text(expected[2])]) }

  predicate CaptureFits(w: World, m: Capture, expected: Expected) {
    && m.schema == CAPTURE_SCHEMA && m.boundary == PENDING
    && m.cases.Arr? && |m.cases.items| == 3
    && (forall i :: 0 <= i < 3 ==> CaseShape(w, m.cases.items[i], CASE_IDS[i]))
    && m.binding.Obj? && Equal(m.binding, CaptureBinding())
    && m.host.Text? && IsDigest(m.host.s) && IsCommit(w.str(m.commit))
    && Equal(m.methodology, w.methodology)
    && (forall i :: 0 <= i < 3 ==> Linked(w, m.cases.items[i].fields, expected[i]))
  }

  /** The handoff's cases for a capture with three case objects. */
  function Excerpts(cases: Json): Json {
    if cases.Arr? && |cases.items| == 3 && (forall i :: 0 <= i < 3 ==> cases.items[i].Obj?)
    then Arr([Excerpt(cases.items[0].fields), Excerpt(cases.items[1].fields), Excerpt(cases.items[2].fields)])
    else Null
  }

  predicate HandoffFits(m: Handoff, capture: Capture, digest: Digest) {
    && m.boundary.Obj? && m.binding.Obj?
    && Equal(m.cases, Excerpts(capture.cases))
    && Equal(m.boundary, HandoffBoundary())
    && Equal(m.binding, HandoffBinding())
    && m.schema == HANDOFF_SCHEMA
    && m.capture == Text(digest)
    && Equal(m.commit, capture.commit)
    && Equal(m.host, capture.host)
  }

  predicate PublicationFits(m: Publication, capture: Capture, expected: Expected, captureDigest: Digest, handoffDigest: Digest) {
    && m.schema == PUBLICATION_SCHEMA
    && m.capture == Text(captureDigest) && m.handoff == Text(handoffDigest)
    && Equal(m.host, capture.host)
    && Equal(m.contracts, DigestList(expected))
    && m.approvalRequired == Bool(true) && m.verdict == Null
    && m.status == Text("EXTERNAL_ONLY") && m.performed == Bool(false)
  }

  predicate ReceiptFits(m: Receipt, capture: Capture, expected: Expected, captureDigest: Digest, handoffDigest: Digest, publicationDigest: Digest) {
    && m.schema == RECEIPT_SCHEMA
    && m.capture == Text(captureDigest) && m.handoff == Text(handoffDigest) && m.publication == Text(publicationDigest)
    && Equal(m.host, capture.host)
    && Equal(m.cases, capture.cases)
    && Equal(m.commit, capture.commit)
    && m.status == CAPTURED
    && m.publicationStatus == Text("EXTERNAL_ONLY")
    && Equal(m.contracts, DigestList(expected))
  }

  /** `verify_session` returns normally. */
  predicate Accepts(w: World, r: Records, expected: Expected) {
    && expected[0] != expected[1] && expected[0] != expected[2] && expected[1] != expected[2]
    && Read(w.capture, r.capture).Some? && Read(w.handoff, r.handoff).Some?
    && Read(w.publication, r.publication).Some? && Read(w.receipt, r.receipt).Some?
    && var capture := Read(w.capture, r.capture).value;
    && CaptureFits(w, capture, expected)
    && HandoffFits(Read(w.handoff, r.handoff).value, capture, w.hash(r.capture))
    && PublicationFits(Read(w.publication, r.publication).value, capture, expected, w.hash(r.capture), w.hash(r.handoff))
    && ReceiptFits(Read(w.receipt, r.receipt).value, capture, expected, w.hash(r.capture), w.hash(r.handoff), w.hash(r.publication))
  }

  // ---- Round trip --------------------------------------------------------------------------

  /** What running a case has established about its bundle. */
  predicate Established(w: World, c: Completed, id: string) {
    && c.id == id && w.inside(c.path)
    && w.report(c.path, c.bundle) == Some(Report(c.bundle, c.run, c.execution, c.plan, c.source, Some(c.contract), true))
    && Sound(w, w.report(c.path, c.bundle).value)
    && w.original(c.path) == Some(c.original) && IsDigest(c.original)
  }

  /** The four records written are read back as they are. */
  predicate Readable(w: World, f: Facts) {
    var d := Written(w, f);
    && Kept(w.capture, CaptureRecord(w, f))
    && Kept(w.handoff, HandoffRecord(f, w.hash(d.capture)))
    && Kept(w.publication, PublicationRecord(f, w.hash(d.capture), w.hash(d.handoff)))
    && Kept(w.receipt, ReceiptRecord(f, w.hash(d.capture), w.hash(d.handoff), w.hash(d.publication)))
  }

  ghost predicate Ready(w: World, f: Facts) {
    && StrIsExact(w) && Readable(w, f)
    && |f.cases| == 3 && (forall i :: 0 <= i < 3 ==> Established(w, f.cases[i], CASE_IDS[i]))
    && f.cases[0].contract != f.cases[1].contract && f.cases[0].contract != f.cases[2].contract
    && f.cases[1].contract != f.cases[2].contract
    && IsCommit(f.commit) && IsDigest(f.host)
    && |Written(w, f).capture| <= MAX && |Written(w, f).handoff| <= MAX && |Written(w, f).publication| <= MAX
  }

  function Operator(f: Facts): Expected
    requires |f.cases| == 3
  {
    [f.cases[0].contract, f.cases[1].contract, f.cases[2].contract]
  }

  /** The verifier accepts what the writer wrote, if and only if the receipt too is small
      enough to be read: the writer has read back only the other three. */
  lemma RoundTrip(w: World, f: Facts)
    requires Ready(w, f)
    ensures Accepts(w, Written(w, f), Operator(f)) <==> |Written(w, f).receipt| <= MAX
  {
    hide IsDigest, IsCommit, Equal, Norm, Established, CaseRecord, Sound;
    var r := Written(w, f);
    var e := Operator(f);
    CaptureIsFine(w, f);
    HandoffIsFine(w, f, w.hash(r.capture));
    PublicationIsFine(w, f, w.hash(r.capture), w.hash(r.handoff));
    ReceiptIsFine(w, f, w.hash(r.capture), w.hash(r.handoff), w.hash(r.publication));
    hide CaptureFits, HandoffFits, PublicationFits, ReceiptFits, CaptureRecord, HandoffRecord, PublicationRecord, ReceiptRecord;
  }

  lemma CaptureIsFine(w: World, f: Facts)
    requires Ready(w, f)
    ensures CaptureFits(w, CaptureRecord(w, f), Operator(f))
  {
    hide IsDigest, IsCommit, Equal, Norm, Established, Linked, CaseRecord, CaptureBinding;
    Reflexive(CaptureBinding());
    Reflexive(w.methodology);
    assert CaptureBinding().Obj? by { BindingIsObject(); }
    forall i | 0 <= i < 3
      ensures CaseShape(w, CaseRecords(f.cases).items[i], CASE_IDS[i])
      ensures Linked(w, CaseRecords(f.cases).items[i].fields, Operator(f)[i])
    {
      CaseIsFine(w, f.cases[i], CASE_IDS[i]);
    }
  }

  lemma BindingIsObject()
    ensures CaptureBinding().Obj?
  {
  }

  lemma Reflexive(j: Json)
    ensures Equal(j, j)
  {
  }

  lemma CaseIsFine(w: World, c: Completed, id: string)
    requires StrIsExact(w) && Established(w, c, id)
    ensures CaseShape(w, Obj(CaseRecord(c)), id)
    ensures Linked(w, CaseRecord(c), c.contract)
  {
    hide IsDigest;
  }

  lemma ExcerptsOf(cs: seq<Completed>)
    requires |cs| == 3
    ensures Excerpts(CaseRecords(cs)) == Excerpted(cs)
  {
    hide CaseRecord, Excerpt;
    var items := CaseRecords(cs).items;
    assert forall i :: 0 <= i < 3 ==> items[i] == Obj(CaseRecord(cs[i]));
    assert Excerpted(cs).items
        == [Excerpt(items[0].fields), Excerpt(items[1].fields), Excerpt(items[2].fields)];
  }

  lemma HandoffIsFine(w: World, f: Facts, digest: Digest)
    requires Ready(w, f)
    ensures HandoffFits(HandoffRecord(f, digest), CaptureRecord(w, f), digest)
  {
    hide IsDigest, IsCommit, Equal, Norm, Established, CaseRecord, Excerpts, Excerpted;
    Reflexive(HandoffBoundary());
    Reflexive(HandoffBinding());
    ExcerptsOf(f.cases);
    Reflexive(Excerpts(CaseRecords(f.cases)));
    Reflexive(Text(f.commit));
    Reflexive(Text(f.host));
  }

  lemma PublicationIsFine(w: World, f: Facts, capture: Digest, handoff: Digest)
    requires Ready(w, f)
    ensures PublicationFits(PublicationRecord(f, capture, handoff), CaptureRecord(w, f), Operator(f), capture, handoff)
  {
    hide IsDigest, IsCommit, Equal, Norm, Established, CaseRecord;
    Reflexive(Text(f.host));
    Reflexive(Contracts(f));
    assert Contracts(f) == DigestList(Operator(f));
  }

  lemma ReceiptIsFine(w: World, f: Facts, capture: Digest, handoff: Digest, publication: Digest)
    requires Ready(w, f)
    ensures ReceiptFits(ReceiptRecord(f, capture, handoff, publication), CaptureRecord(w, f), Operator(f), capture, handoff, publication)
  {
    hide IsDigest, IsCommit, Equal, Norm, Established, CaseRecord;
    Reflexive(Text(f.host));
    Reflexive(Text(f.commit));
    Reflexive(CaseRecords(f.cases));
    Reflexive(Contracts(f));
    assert Contracts(f) == DigestList(Operator(f));
  }

  // ---- How long a receipt is -------------------------------------------------------------------

  /** A generous bound for JSON text indented by two columns a level: six bytes a character,
      and for each member or item of a composite at depth d its line's indentation and 60 bytes of
      name and punctuation.  Numbers and foreign names are not accounted for: a receipt has none. */
  ghost predicate Fits(j: Json, depth: nat, room: nat)
    decreases j
  {
    match j
    case Null => room >= 4
    case Bool(_) => room >= 5
    case Num(_) => false
    case Text(s) => 6 * |s| + 2 <= room
    case Arr(items) =>
      exists each: nat ::
        (forall i :: 0 <= i < |items| ==> Fits(items[i], depth + 1, each)) && Composite(|items|, depth, each) <= room
    case Obj(fields) =>
      exists each: nat ::
        && (forall k :: k in fields ==> !k.Else? && Fits(fields[k], depth + 1, each))
        && Composite(|fields|, depth, each) <= room
  }

  function Composite(n: nat, depth: nat, each: nat): nat { 4 + 2 * depth + n * (each + 60 + 2 * depth) }

  ghost predicate MembersFit(r: Receipt, room: nat) {
    && Fits(r.boundary, 1, room) && Fits(r.capture, 1, room) && Fits(r.cases, 1, room) && Fits(r.contracts, 1, room)
    && Fits(r.handoff, 1, room) && Fits(r.host, 1, room) && Fits(r.publication, 1, room) && Fits(r.publicationStatus, 1, room)
    && Fits(r.commit, 1, room) && Fits(r.schema, 1, room) && Fits(r.status, 1, room)
  }

  /** The text of the receipt written keeps to that bound, a final line feed included, and the
      digests in it have their shape. */
  ghost predicate Compact(w: World, f: Facts) {
    var d := Written(w, f);
    && IsDigest(w.hash(d.capture)) && IsDigest(w.hash(d.handoff)) && IsDigest(w.hash(d.publication))
    && var r := ReceiptRecord(f, w.hash(d.capture), w.hash(d.handoff), w.hash(d.publication));
    forall room: nat :: MembersFit(r, room) ==> |d.receipt| <= Composite(11, 0, room) + 1
  }

  const LONGEST_PATH: nat := 4_096

  lemma CaseRecordFits(w: World, c: Completed, id: string)
    requires Established(w, c, id) && |c.path| <= LONGEST_PATH && |id| <= 64
    ensures Fits(Obj(CaseRecord(c)), 2, Composite(9, 2, 24_578))
  {
    CaseTexts(w, c, id);
    NineMembers(c);
    hide Fits, CaseRecord, Established;
    var record := CaseRecord(c);
    forall k | k in record ensures !k.Else? && Fits(record[k], 3, 24_578) { TextFits(record[k].s, 3, 24_578); }
    ObjectFits(record, 2, 24_578, Composite(9, 2, 24_578));
  }

  lemma CaseTexts(w: World, c: Completed, id: string)
    requires Established(w, c, id) && |c.path| <= LONGEST_PATH && |id| <= 64
    ensures var record := CaseRecord(c);
      forall k :: k in record ==> !k.Else? && record[k].Text? && |record[k].s| <= LONGEST_PATH
  {
    hide Hex;
    assert IsDigest(c.original) && Sound(w, w.report(c.path, c.bundle).value);
  }

  lemma ObjectFits(fields: Object, depth: nat, each: nat, room: nat)
    requires (forall k :: k in fields ==> !k.Else? && Fits(fields[k], depth + 1, each)) && Composite(|fields|, depth, each) <= room
    ensures Fits(Obj(fields), depth, room)
  {
  }

  lemma NineMembers(c: Completed)
    ensures |CaseRecord(c)| == 9
  {
    assert CaseRecord(c).Keys == {BundleDigest, BundlePath, CaseId, ExecutionFingerprint, ExitspecContractDigest,
                                  OriginalSpecSha256, RequestPlanDigest, RunId, SourceSpecDigest};
  }

  lemma CasesFit(w: World, f: Facts)
    requires Ready(w, f) && forall i :: 0 <= i < 3 ==> |f.cases[i].path| <= LONGEST_PATH
    ensures Fits(CaseRecords(f.cases), 1, 665_637)
    ensures Fits(Contracts(f), 1, 665_637)
  {
    hide Fits, CaseRecord;
    var items := CaseRecords(f.cases).items;
    forall i | 0 <= i < 3 ensures Fits(items[i], 2, Composite(9, 2, 24_578)) {
      CaseRecordFits(w, f.cases[i], CASE_IDS[i]);
    }
    ArrayFits(items, 1, Composite(9, 2, 24_578), 665_637);
    var contracts := Contracts(f).items;
    forall i | 0 <= i < 3 ensures Fits(contracts[i], 2, 428) {
      ContractShape(w, f.cases[i], CASE_IDS[i]);
      TextFits(f.cases[i].contract, 2, 428);
    }
    ArrayFits(contracts, 1, 428, 665_637);
  }

  lemma ContractShape(w: World, c: Completed, id: string)
    requires Established(w, c, id)
    ensures |c.contract| == 71
  {
  }

  lemma ArrayFits(items: seq<Json>, depth: nat, each: nat, room: nat)
    requires (forall i :: 0 <= i < |items| ==> Fits(items[i], depth + 1, each)) && Composite(|items|, depth, each) <= room
    ensures Fits(Arr(items), depth, room)
  {
  }

  lemma TextFits(s: string, depth: nat, room: nat)
    requires 6 * |s| + 2 <= room
    ensures Fits(Text(s), depth, room)
  {
  }

  lemma ReceiptIsReadable(w: World, f: Facts)
    requires Ready(w, f) && Compact(w, f) && forall i :: 0 <= i < 3 ==> |f.cases[i].path| <= LONGEST_PATH
    ensures |Written(w, f).receipt| <= MAX
  {
    hide Fits, CaseRecords, Contracts, Established, IsCommit, IsDigest;
    var d := Written(w, f);
    var room := 665_637;
    CasesFit(w, f);
    DigestFits(w.hash(d.capture), room);
    DigestFits(w.hash(d.handoff), room);
    DigestFits(w.hash(d.publication), room);
    DigestFits(f.host, room);
    CommitFits(f.commit, room);
    TextFits(PENDING.s, 1, room);
    TextFits("EXTERNAL_ONLY", 1, room);
    TextFits(RECEIPT_SCHEMA.s, 1, room);
    TextFits(CAPTURED.s, 1, room);
    var r := ReceiptRecord(f, w.hash(d.capture), w.hash(d.handoff), w.hash(d.publication));
    assert MembersFit(r, room);
  }

  lemma DigestFits(s: string, room: nat)
    requires IsDigest(s) && room >= 428
    ensures Fits(Text(s), 1, room)
  {
  }

  lemma CommitFits(s: string, room: nat)
    requires IsCommit(s) && room >= 428
    ensures Fits(Text(s), 1, room)
  {
  }

  /** For bundle paths of at most 4,096 characters the receipt always fits: what the writer
      finished is accepted. */
  lemma WrittenSessionsAreAccepted(w: World, f: Facts)
    requires Ready(w, f) && Compact(w, f) && forall i :: 0 <= i < 3 ==> |f.cases[i].path| <= LONGEST_PATH
    ensures Accepts(w, Written(w, f), Operator(f))
  {
    hide Ready, Compact, Accepts, Written;
    assert |f.cases| == 3 by { ThreeCases(w, f); }
    ReceiptIsReadable(w, f);
    RoundTrip(w, f);
  }

  lemma ThreeCases(w: World, f: Facts)
    requires Ready(w, f)
    ensures |f.cases| == 3
  {
  }

  // ---- These hypotheses can be met together -------------------------------------------------------

  function Digit(c: char): Digest { "sha256:" + seq(64, i => c) }

  /** A case at a one-letter path, with digests of one digit. */
  function SomeCase(i: nat): Completed
    requires i < 3
  {
    var c := ['0', '1', '2'][i];
    Completed(CASE_IDS[i], [c], Digit(c), "run-" + seq(32, j => '0'), Digit(c), Digit(c), Digit(c), Digit(c), Digit(c))
  }

  function SomeFacts(): Facts { Facts([SomeCase(0), SomeCase(1), SomeCase(2)], seq(40, i => '0'), Digit('0'), "") }

  /** Each record kind has the one text it needs here. */
  function SomeWorld(): World {
    var d := Digit('0');
    var f := SomeFacts();
    var capture := Capture(PENDING, CaseRecords(f.cases), CaptureBinding(), Text(f.generated), Text(f.host), Null, Text(f.commit), CAPTURE_SCHEMA);
    World(
      Format(t => [1], b => Some(capture)),
      Format(t => [2], b => Some(HandoffRecord(f, d))),
      Format(t => [3], b => Some(PublicationRecord(f, d, d))),
      Format(t => [4], b => Some(ReceiptRecord(f, d, d, d))),
      b => d,
      (j: Json) => if j.Text? then j.s else "",
      path => true,
      (path, bundle) => if bundle == Digit('1') then SomeReport(1) else if bundle == Digit('2') then SomeReport(2) else SomeReport(0),
      path => if path == "1" then Some(Digit('1')) else if path == "2" then Some(Digit('2')) else Some(Digit('0')),
      Null)
  }

  function SomeReport(i: nat): Option<Report>
    requires i < 3
  {
    var c := SomeCase(i);
    Some(Report(c.bundle, c.run, c.execution, c.plan, c.source, Some(c.contract), true))
  }

  lemma DigitsDiffer()
    ensures IsDigest(Digit('0')) && IsDigest(Digit('1')) && IsDigest(Digit('2'))
    ensures Digit('0') != Digit('1') && Digit('0') != Digit('2') && Digit('1') != Digit('2')
  {
    assert Digit('0')[7] == '0' && Digit('1')[7] == '1' && Digit('2')[7] == '2';
    assert Digit('0')[..7] == Digit('1')[..7] == Digit('2')[..7] == "sha256:";
  }

  lemma SomeCaseIsEstablished(i: nat)
    requires i < 3
    ensures Established(SomeWorld(), SomeCase(i), CASE_IDS[i])
  {
    DigitsDiffer();
    hide Digit, IsDigest, CaseRecords, CaptureBinding, HandoffRecord, PublicationRecord, ReceiptRecord;
    var run := SomeCase(i).run;
    assert run[..4] == "run-" && Hex(run[4..]);
  }

  lemma SomeSessionIsReady()
    ensures Ready(SomeWorld(), SomeFacts()) && Compact(SomeWorld(), SomeFacts())
    ensures forall i :: 0 <= i < 3 ==> |SomeFacts().cases[i].path| <= LONGEST_PATH
  {
    hide Digit, IsDigest, Hex, Established, Written, Readable, Compact, SomeWorld;
    DigitsDiffer();
    forall i | 0 <= i < 3 ensures Established(SomeWorld(), SomeFacts().cases[i], CASE_IDS[i]) {
      SomeCaseIsEstablished(i);
    }
    SomeRecordsAreReadable();
    SomeReceiptIsCompact();
    SomeStrIsExact();
    SomeCommit();
  }

  lemma SomeStrIsExact()
    ensures StrIsExact(SomeWorld())
  {
  }

  lemma SomeCommit()
    ensures IsCommit(SomeFacts().commit)
  {
  }

  lemma SomeRecordsAreReadable()
    ensures Readable(SomeWorld(), SomeFacts())
    ensures var d := Written(SomeWorld(), SomeFacts()); |d.capture| == |d.handoff| == |d.publication| == |d.receipt| == 1
  {
    hide Digit, IsDigest, CaseRecords, CaptureBinding, HandoffRecord, PublicationRecord, ReceiptRecord;
  }

  lemma SomeReceiptIsCompact()
    ensures Compact(SomeWorld(), SomeFacts())
  {
    DigitsDiffer();
    SomeRecordsAreReadable();
    hide Digit, IsDigest, Readable, Written, ReceiptRecord, MembersFit;
  }

  // ---- One receipt, one session ---------------------------------------------------------------

  ghost predicate Injective(w: World) {
    forall a, b: Bytes :: w.hash(a) == w.hash(b) ==> a == b
  }

  /** Two accepted sessions with the same receipt are the same session. */
  lemma ReceiptIdentifiesSession(w: World, a: Records, b: Records, ea: Expected, eb: Expected)
    requires Injective(w) && Accepts(w, a, ea) && Accepts(w, b, eb) && a.receipt == b.receipt
    ensures a == b && ea == eb
  {
    hide CaptureFits, HandoffFits, PublicationFits, Norm;
    SameList(Read(w.receipt, a.receipt).value.contracts, ea, eb);
  }

  lemma SameList(j: Json, a: Expected, b: Expected)
    requires Equal(j, DigestList(a)) && Equal(j, DigestList(b))
    ensures a == b
  {
    assert Norm(DigestList(a)).items[0] == Text(a[0]) && Norm(DigestList(b)).items[0] == Text(b[0]);
    assert Norm(DigestList(a)).items[1] == Text(a[1]) && Norm(DigestList(b)).items[1] == Text(b[1]);
    assert Norm(DigestList(a)).items[2] == Text(a[2]) && Norm(DigestList(b)).items[2] == Text(b[2]);
    assert a == [a[0], a[1], a[2]] && b == [b[0], b[1], b[2]];
  }

  // ---- Writing and verifying, step by step ------------------------------------------------------

  /** The session directory, on a disk whose every call may fail and may move fewer bytes than asked. */
  class SessionDirectory {
    const fails: nat -> bool
    const moves: nat -> nat
    var tick: nat
    var faulted: bool
    var capture: Option<Bytes>
    var handoff: Option<Bytes>
    var publication: Option<Bytes>
    var receipt: Option<Bytes>

    constructor (fails: nat -> bool, moves: nat -> nat)
      ensures !faulted && capture == handoff == publication == receipt == None
    {
      this.fails, this.moves, tick, faulted := fails, moves, 0, false;
      capture, handoff, publication, receipt := None, None, None, None;
    }

    method Attempt() returns (ok: bool)
      modifies this`tick, this`faulted
      ensures faulted == (old(faulted) || !ok)
    {
      ok := !fails(tick);
      faulted := faulted || !ok;
      tick := tick + 1;
    }

    /** `_write_new`: an exclusive creation, then writes that may fall short; what a failing
        write has put there stays there. */
    method WriteNew(existing: Option<Bytes>, content: Bytes) returns (ok: bool, file: Option<Bytes>)
      modifies this`tick, this`faulted
      ensures ok ==> existing == None && file == Some(content) && faulted == old(faulted)
      ensures existing.Some? ==> file == existing
      ensures file.Some? && existing.None? ==> file.value <= content
      ensures !ok ==> existing.Some? || faulted
    {
      file := existing;
      ok := Attempt();
      if !ok || existing.Some? { return false, file; }
      var filled: Bytes := [];
      file := Some(filled);
      while |filled| < |content|
        invariant filled <= content && file == Some(filled) && faulted == old(faulted)
        decreases |content| - |filled|
      {
        ok := Attempt();
        var written := if ok then moves(tick) else 0;
        if written == 0 {
          faulted := true;
          return false, file;
        }
        var upto := if |filled| + written > |content| then |content| else |filled| + written;
        filled := content[..upto];
        file := Some(filled);
      }
      assert filled == content;
      ok := Attempt();
    }

    /** `_write_session_metadata`: each file is new, and each but the last is read back for its
        digest.  A failure leaves the finished files, and of the one being written a prefix. */
    method Write(w: World, f: Facts) returns (ok: bool)
      requires !faulted
      modifies this
      ensures ok ==>
        && old(capture) == None && old(handoff) == None && old(publication) == None && old(receipt) == None
        && |Written(w, f).capture| <= MAX && |Written(w, f).handoff| <= MAX && |Written(w, f).publication| <= MAX
        && capture == Some(Written(w, f).capture) && handoff == Some(Written(w, f).handoff)
        && publication == Some(Written(w, f).publication) && receipt == Some(Written(w, f).receipt)
      ensures !ok && !faulted ==>
        || old(capture) != None || old(handoff) != None || old(publication) != None || old(receipt) != None
        || |Written(w, f).capture| > MAX || |Written(w, f).handoff| > MAX || |Written(w, f).publication| > MAX
      ensures Left(old(capture), capture, Written(w, f).capture) && Left(old(handoff), handoff, Written(w, f).handoff)
      ensures Left(old(publication), publication, Written(w, f).publication)
      ensures Left(old(receipt), receipt, Written(w, f).receipt)
      ensures handoff != old(handoff) ==> capture == Some(Written(w, f).capture)
      ensures publication != old(publication) ==> handoff == Some(Written(w, f).handoff)
      ensures receipt != old(receipt) ==> publication == Some(Written(w, f).publication)
    {
      hide CaptureRecord, HandoffRecord, PublicationRecord, ReceiptRecord;
      var first := w.capture.write(CaptureRecord(w, f));
      ok, capture := WriteNew(capture, first);
      if !ok { return; }
      ok := ReadBack(first);
      if !ok { return; }
      var second := w.handoff.write(HandoffRecord(f, w.hash(first)));
      ok, handoff := WriteNew(handoff, second);
      if !ok { return; }
      ok := ReadBack(second);
      if !ok { return; }
      var third := w.publication.write(PublicationRecord(f, w.hash(first), w.hash(second)));
      ok, publication := WriteNew(publication, third);
      if !ok { return; }
      ok := ReadBack(third);
      if !ok { return; }
      ok, receipt := WriteNew(receipt, w.receipt.write(ReceiptRecord(f, w.hash(first), w.hash(second), w.hash(third))));
    }

    /** `_metadata_digest` of a file just written. */
    method ReadBack(content: Bytes) returns (ok: bool)
      modifies this`tick, this`faulted
      ensures ok ==> |content| <= MAX && faulted == old(faulted)
      ensures !ok ==> |content| > MAX || faulted
    {
      ok := Attempt();
      ok := ok && |content| <= MAX;
    }
  }

  /** An existing file is left alone; a new one is a prefix of what was to be written. */
  predicate Left(before: Option<Bytes>, after: Option<Bytes>, content: Bytes) {
    (before.Some? ==> after == before) && (before.None? && after.Some? ==> after.value <= content)
  }

  type Argument = (string, Digest)

  /** The arguments name each case once, with three different digests. */
  predicate Chosen(arguments: seq<Option<Argument>>, e: Expected) {
    && |arguments| == 3
    && (forall i :: 0 <= i < 3 ==> arguments[i].Some?)
    && (forall c :: 0 <= c < 3 ==> exists i :: 0 <= i < 3 && arguments[i] == Some((CASE_IDS[c], e[c])))
    && e[0] != e[1] && e[0] != e[2] && e[1] != e[2]
  }

  /** `_expected_from_arguments` over the parsed arguments. */
  method ExpectedFrom(arguments: seq<Option<Argument>>) returns (expected: Option<Expected>)
    ensures expected.Some? ==> Chosen(arguments, expected.value)
    ensures expected.None? ==> forall e: Expected :: !Chosen(arguments, e)
  {
    var chosen: map<string, Digest> := map[];
    for n := 0 to |arguments|
      invariant forall i :: 0 <= i < n ==>
        arguments[i].Some? && arguments[i].value.0 in chosen && chosen[arguments[i].value.0] == arguments[i].value.1
      invariant forall id :: id in chosen ==> exists i :: 0 <= i < n && arguments[i].Some? && arguments[i].value.0 == id
      invariant |chosen| == n
    {
      if arguments[n].None? { return None; }
      var (id, digest) := arguments[n].value;
      if id in chosen {
        Repeated(arguments, n);
        return None;
      }
      chosen := chosen[id := digest];
    }
    if chosen.Keys != {CASE_IDS[0], CASE_IDS[1], CASE_IDS[2]} {
      OtherNames(arguments, chosen);
      return None;
    }
    var e: Expected := [chosen[CASE_IDS[0]], chosen[CASE_IDS[1]], chosen[CASE_IDS[2]]];
    ThreeNames();
    assert |chosen| == |chosen.Keys| == 3;
    if e[0] == e[1] || e[0] == e[2] || e[1] == e[2] {
      SameDigests(arguments, chosen, e);
      return None;
    }
    forall c | 0 <= c < 3 ensures exists i :: 0 <= i < 3 && arguments[i] == Some((CASE_IDS[c], e[c])) {
      assert CASE_IDS[c] in chosen;
    }
    expected := Some(e);
  }

  lemma ThreeNames()
    ensures |{CASE_IDS[0], CASE_IDS[1], CASE_IDS[2]}| == 3
  {
    NamesDiffer();
  }

  lemma NamesDiffer()
    ensures CASE_IDS[0] != CASE_IDS[1] && CASE_IDS[0] != CASE_IDS[2] && CASE_IDS[1] != CASE_IDS[2]
  {
    assert CASE_IDS[0][0] != CASE_IDS[2][0] && CASE_IDS[0][17] != CASE_IDS[1][17];
  }

  lemma Repeated(arguments: seq<Option<Argument>>, n: nat)
    requires n < |arguments| && arguments[n].Some?
    requires exists i :: 0 <= i < n && arguments[i].Some? && arguments[i].value.0 == arguments[n].value.0
    ensures forall e: Expected :: !Chosen(arguments, e)
  {
    NamesDiffer();
  }

  lemma OtherNames(arguments: seq<Option<Argument>>, chosen: map<string, Digest>)
    requires forall i :: 0 <= i < |arguments| ==> arguments[i].Some? && arguments[i].value.0 in chosen
    requires |chosen| == |arguments| && chosen.Keys != {CASE_IDS[0], CASE_IDS[1], CASE_IDS[2]}
    ensures forall e: Expected :: !Chosen(arguments, e)
  {
    ThreeNames();
    var names := {CASE_IDS[0], CASE_IDS[1], CASE_IDS[2]};
    if names <= chosen.Keys {
      assert |chosen.Keys - names| == |chosen.Keys| - |names|;
      assert |chosen| != 3;
    }
  }

  lemma SameDigests(arguments: seq<Option<Argument>>, chosen: map<string, Digest>, e: Expected)
    requires forall i :: 0 <= i < |arguments| ==>
      arguments[i].Some? && arguments[i].value.0 in chosen && chosen[arguments[i].value.0] == arguments[i].value.1
    requires forall c :: 0 <= c < 3 ==> CASE_IDS[c] in chosen && chosen[CASE_IDS[c]] == e[c]
    requires e[0] == e[1] || e[0] == e[2] || e[1] == e[2]
    ensures forall other: Expected :: !Chosen(arguments, other)
  {
  }

  /** `verify_session` after its arguments are read. */
  method Verify(w: World, r: Records, expected: Expected) returns (ok: bool)
    requires expected[0] != expected[1] && expected[0] != expected[2] && expected[1] != expected[2]
    ensures ok <==> Accepts(w, r, expected)
  {
    hide CaptureFits, HandoffFits, PublicationFits, ReceiptFits;
    var capture := Read(w.capture, r.capture);
    var handoff := Read(w.handoff, r.handoff);
    var publication := Read(w.publication, r.publication);
    var receipt := Read(w.receipt, r.receipt);
    if capture.None? || handoff.None? || publication.None? || receipt.None? { return false; }
    ok := CheckCapture(w, capture.value, expected);
    if !ok { return; }
    var captureDigest, handoffDigest, publicationDigest := w.hash(r.capture), w.hash(r.handoff), w.hash(r.publication);
    ok :=
      && HandoffFits(handoff.value, capture.value, captureDigest)
      && PublicationFits(publication.value, capture.value, expected, captureDigest, handoffDigest)
      && ReceiptFits(receipt.value, capture.value, expected, captureDigest, handoffDigest, publicationDigest);
  }

  predicate Named(item: Json, id: string) { item.Obj? && At(item.fields, CaseId) == Text(id) }

  lemma ShapedIsNamed(w: World, item: Json, id: string)
    ensures CaseShape(w, item, id) ==> Named(item, id) && DigestAt(item.fields, BundleDigest)
  {
  }

  /** The first loop: `by_id`, then the canonical order. */
  method IndexCases(items: seq<Json>) returns (ok: bool, byId: map<string, Object>)
    requires |items| == 3
    ensures ok <==> forall i :: 0 <= i < 3 ==> Named(items[i], CASE_IDS[i])
    ensures ok ==> forall i :: 0 <= i < 3 ==> CASE_IDS[i] in byId && byId[CASE_IDS[i]] == items[i].fields
  {
    ok, byId := false, map[];
    NamesDiffer();
    for i := 0 to 3
      invariant forall k :: 0 <= k < i ==> items[k].Obj? && At(items[k].fields, CaseId).Text?
      invariant forall k :: 0 <= k < i ==>
        At(items[k].fields, CaseId).s in byId && byId[At(items[k].fields, CaseId).s] == items[k].fields
      invariant forall id :: id in byId ==> exists k :: 0 <= k < i && At(items[k].fields, CaseId) == Text(id)
    {
      if !items[i].Obj? || !At(items[i].fields, CaseId).Text? || At(items[i].fields, CaseId).s in byId { return; }
      byId := byId[At(items[i].fields, CaseId).s := items[i].fields];
    }
    ok := forall i :: 0 <= i < 3 ==> At(items[i].fields, CaseId) == Text(CASE_IDS[i]);
  }

  method CheckCapture(w: World, m: Capture, expected: Expected) returns (ok: bool)
    ensures ok <==> CaptureFits(w, m, expected)
  {
    hide Linked, Equal, IsDigest, IsCommit, CaptureBinding, DigestAt, CaseShape, Named;
    ok := false;
    if m.schema != CAPTURE_SCHEMA || m.boundary != PENDING { return; }
    if !m.cases.Arr? || |m.cases.items| != 3 { return; }
    var items := m.cases.items;
    var named: bool, byId: map<string, Object>;
    named, byId := IndexCases(items);
    forall i | 0 <= i < 3 ensures CaseShape(w, items[i], CASE_IDS[i]) ==> Named(items[i], CASE_IDS[i]) && items[i].Obj? {
      ShapedIsNamed(w, items[i], CASE_IDS[i]);
    }
    if !named { return; }
    for i := 0 to 3
      invariant forall k :: 0 <= k < i ==> CaseShape(w, items[k], CASE_IDS[k]) && DigestAt(items[k].fields, BundleDigest)
    {
      NamedIsObject(items[i], CASE_IDS[i]);
      ShapedIsNamed(w, items[i], CASE_IDS[i]);
      if !CaseShape(w, Obj(byId[CASE_IDS[i]]), CASE_IDS[i]) { return; }
    }
    if !m.binding.Obj? || !Equal(m.binding, CaptureBinding()) { return; }
    if !m.host.Text? || !IsDigest(m.host.s) || !IsCommit(w.str(m.commit)) || !Equal(m.methodology, w.methodology) { return; }
    for i := 0 to 3
      invariant forall k :: 0 <= k < i ==> Linked(w, items[k].fields, expected[k])
    {
      if !Linked(w, byId[CASE_IDS[i]], expected[i]) { return; }
    }
    ok := true;
  }

  lemma NamedIsObject(item: Json, id: string)
    requires Named(item, id)
    ensures item == Obj(item.fields)
  {
  }

  // ---- What acceptance says about the bundles ------------------------------------------------------

  /** Case i of an accepted session carries the operator's digest, and every digest in it is one the
      bundle's own verification or its original specification shows; the bundle is eligible. */
  lemma AcceptedCase(w: World, r: Records, expected: Expected, i: nat)
    requires Accepts(w, r, expected) && i < 3
    ensures var cases := Read(w.capture, r.capture).value.cases;
      && cases.Arr? && |cases.items| == 3 && cases.items[i].Obj?
      && var item := cases.items[i].fields;
      var path := w.str(At(item, BundlePath));
      && At(item, CaseId) == Text(CASE_IDS[i])
      && At(item, BundleDigest).Text? && w.report(path, At(item, BundleDigest).s).Some?
      && w.inside(path) && w.original(path).Some?
      && var report := w.report(path, At(item, BundleDigest).s).value;
      && report.eligible && report.contract == Some(expected[i])
      && item == CaseRecord(Completed(CASE_IDS[i], path, report.bundle, report.run, report.source, report.execution,
                                      report.plan, expected[i], w.original(path).value))[BundlePath := At(item, BundlePath)]
  {
    hide IsDigest, IsRun, IsCommit, Equal, HandoffFits, PublicationFits, ReceiptFits, CaptureBinding;
    var m := Read(w.capture, r.capture).value;
    assert CaptureFits(w, m, expected);
    var item := m.cases.items[i];
    assert CaseShape(w, item, CASE_IDS[i]) && Linked(w, item.fields, expected[i]);
    hide CaptureFits;
    CaseIsItsReport(w, item.fields, CASE_IDS[i], expected[i]);
  }

  lemma CaseIsItsReport(w: World, item: Object, id: string, expected: Digest)
    requires CaseShape(w, Obj(item), id) && Linked(w, item, expected)
    ensures var path := w.str(At(item, BundlePath));
      && At(item, BundleDigest).Text? && w.report(path, At(item, BundleDigest).s).Some? && w.original(path).Some? && w.inside(path)
      && var report := w.report(path, At(item, BundleDigest).s).value;
      && report.eligible && report.contract == Some(expected)
      && item == CaseRecord(Completed(id, path, report.bundle, report.run, report.source, report.execution,
                                      report.plan, expected, w.original(path).value))[BundlePath := At(item, BundlePath)]
  {
    hide IsDigest, IsRun;
    var path := w.str(At(item, BundlePath));
    var report := w.report(path, item[BundleDigest].s).value;
    assert item[BundleDigest] == Text(report.bundle) && item[ExitspecContractDigest] == Text(expected);
  }

  /** The other three records repeat the capture: its cases, host, commit and contract digests. */
  lemma AcceptedRecordsAgree(w: World, r: Records, expected: Expected)
    requires Accepts(w, r, expected)
    ensures var capture, receipt := Read(w.capture, r.capture).value, Read(w.receipt, r.receipt).value;
      var handoff, publication := Read(w.handoff, r.handoff).value, Read(w.publication, r.publication).value;
      && capture.host.Text? && receipt.host == handoff.host == publication.host == capture.host
      && Norm(receipt.cases) == Norm(capture.cases) && Norm(receipt.commit) == Norm(handoff.commit) == Norm(capture.commit)
      && receipt.contracts == publication.contracts == Arr([Text(expected[0]), Text(expected[1]), Text(expected[2])])
      && receipt.capture == handoff.capture == publication.capture == Text(w.hash(r.capture))
      && receipt.handoff == publication.handoff == Text(w.hash(r.handoff)) && receipt.publication == Text(w.hash(r.publication))
  {
    hide CaseShape, Linked, IsDigest, IsCommit, CaptureBinding, HandoffBoundary, HandoffBinding, Excerpts, Norm;
    var capture, receipt := Read(w.capture, r.capture).value, Read(w.receipt, r.receipt).value;
    var handoff, publication := Read(w.handoff, r.handoff).value, Read(w.publication, r.publication).value;
    EqualToText(receipt.host, capture.host.s);
    EqualToText(handoff.host, capture.host.s);
    EqualToText(publication.host, capture.host.s);
    TextsAreExact(receipt.contracts, expected);
    TextsAreExact(publication.contracts, expected);
  }

  lemma TextsAreExact(j: Json, expected: Expected)
    requires Equal(j, DigestList(expected))
    ensures j == DigestList(expected)
  {
    assert Norm(DigestList(expected)).items[0] == Text(expected[0]);
    assert Norm(DigestList(expected)).items[1] == Text(expected[1]);
    assert Norm(DigestList(expected)).items[2] == Text(expected[2]);
    assert |j.items| == |Norm(j).items| == 3;
    forall i | 0 <= i < 3 ensures j.items[i] == Text(expected[i]) {
      assert Norm(j).items[i] == Norm(j.items[i]);
    }
    assert j.items == [Text(expected[0]), Text(expected[1]), Text(expected[2])];
  }

  /** Accepted digests are pairwise different, and spelled as digests are; so are run and commit. */
  lemma AcceptedSpellings(w: World, r: Records, expected: Expected, i: nat)
    requires Accepts(w, r, expected) && i < 3
    ensures expected[0] != expected[1] && expected[0] != expected[2] && expected[1] != expected[2]
    ensures var capture := Read(w.capture, r.capture).value;
      && capture.cases.Arr? && |capture.cases.items| == 3 && capture.cases.items[i].Obj?
      && var item := capture.cases.items[i].fields;
      && item.Keys == {BundleDigest, BundlePath, CaseId, ExecutionFingerprint, ExitspecContractDigest,
                       OriginalSpecSha256, RequestPlanDigest, RunId, SourceSpecDigest}
      && (forall key :: key in item && key != BundlePath ==> item[key].Text?)
      && (forall key :: key in item && key != BundlePath && key != CaseId && key != RunId ==>
            |item[key].s| == 71 && item[key].s[..7] == "sha256:" && HexFrom(item[key].s, 7))
      && |item[RunId].s| == 36 && item[RunId].s[..4] == "run-" && HexFrom(item[RunId].s, 4)
      && capture.host.Text? && |capture.host.s| == 71 && HexFrom(capture.host.s, 7)
      && |w.str(capture.commit)| == 40 && HexFrom(w.str(capture.commit), 0)
  {
    hide Linked, CaptureBinding, HandoffBoundary, HandoffBinding, Excerpts, Norm, Equal, HandoffFits, PublicationFits, ReceiptFits;
    var capture := Read(w.capture, r.capture).value;
    var item := capture.cases.items[i].fields;
    assert CaseShape(w, capture.cases.items[i], CASE_IDS[i]);
    HexAfter(capture.host.s, 7);
    HexAfter(w.str(capture.commit), 0);
    assert w.str(capture.commit)[0..] == w.str(capture.commit);
    CaseSpellings(w, capture.cases.items[i], CASE_IDS[i]);
  }

  lemma CaseSpellings(w: World, item: Json, id: string)
    requires CaseShape(w, item, id)
    ensures forall key :: key in item.fields && key != BundlePath ==> item.fields[key].Text?
    ensures forall key :: key in item.fields && key != BundlePath && key != CaseId && key != RunId ==>
      |item.fields[key].s| == 71 && item.fields[key].s[..7] == "sha256:" && HexFrom(item.fields[key].s, 7)
    ensures |item.fields[RunId].s| == 36 && item.fields[RunId].s[..4] == "run-" && HexFrom(item.fields[RunId].s, 4)
  {
    forall key | key in item.fields && key != BundlePath && key != CaseId && key != RunId
      ensures DigestAt(item.fields, key)
    {
    }
    HexAfter(item.fields[RunId].s, 4);
    forall key | key in item.fields && key != BundlePath && key != CaseId && key != RunId
      ensures HexFrom(item.fields[key].s, 7)
    {
      HexAfter(item.fields[key].s, 7);
    }
  }

  /** From k on, lower-case hexadecimal digits. */
  predicate HexFrom(s: string, k: nat) {
    forall j :: k <= j < |s| ==> '0' <= s[j] <= '9' || 'a' <= s[j] <= 'f'
  }

  lemma HexAfter(s: string, n: nat)
    requires n <= |s|
    ensures Hex(s[n..]) ==> HexFrom(s, n)
  {
    assert forall k :: n <= k < |s| ==> s[k] == s[n..][k - n];
  }

  /** No accepted session claims a verdict or a publication. */
  lemma AcceptedStatuses(w: World, r: Records, expected: Expected)
    requires Accepts(w, r, expected)
    ensures var publication, receipt := Read(w.publication, r.publication).value, Read(w.receipt, r.receipt).value;
      && publication.verdict == Null && publication.approvalRequired == Bool(true) && publication.performed == Bool(false)
      && publication.status == receipt.publicationStatus == Text("EXTERNAL_ONLY")
      && receipt.status == Text("CAPTURED_PENDING_EXTERNAL_EXITSPEC")
      && Read(w.capture, r.capture).value.boundary == Text("PENDING_EXTERNAL_EXITSPEC")
    ensures var boundary := Read(w.handoff, r.handoff).value.boundary;
      && boundary.Obj? && boundary.fields.Keys == {InferdromeAcceptanceVerdict, VerdictOwner}
      && boundary.fields[InferdromeAcceptanceVerdict] == Null && boundary.fields[VerdictOwner] == Text("EXTERNAL_EXITSPEC")
  {
    hide CaseShape, Linked, IsDigest, IsCommit, CaptureBinding, HandoffBinding, Excerpts, DigestList;
    var boundary := Read(w.handoff, r.handoff).value.boundary;
    assert Norm(boundary).fields == Norm(HandoffBoundary()).fields;
    assert boundary.fields.Keys == Norm(boundary).fields.Keys == Norm(HandoffBoundary()).fields.Keys
           == {InferdromeAcceptanceVerdict, VerdictOwner};
    assert Norm(boundary).fields[InferdromeAcceptanceVerdict] == Norm(boundary.fields[InferdromeAcceptanceVerdict]);
    assert Norm(boundary).fields[VerdictOwner] == Norm(boundary.fields[VerdictOwner]);
  }
}
