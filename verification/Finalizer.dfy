/** The finalizer that publishes a verified capture after termination: it may be killed
    at any byte it writes and is simply run again
    (scripts/capture_real_gpu_over_ssh.py:3963-4002, 4296-4480). */
module Finalizer {
  import opened Wrappers

  type Bytes = seq<bv8>
  type Tree = map<string, Bytes>
  type Time = string
  type Report = Bytes

  /** What verifying the archive yields; `core` is the record published at the end. */
  datatype ArchiveReport = ArchiveReport(verification: Report, details: Bytes)

  datatype Core = Core(archive: ArchiveReport, retrieval: Bytes, evidence: Evidence)

  /** The receipt kept beside the capture, the instance's host name as the provider reported it,
      and the rest of the instance and termination records. */
  datatype Evidence = Evidence(receipt: Bytes, hostname: string, account: Bytes)

  /** Code outside this model.  `expected` joins the pinned commit, digest and tier. */
  datatype Tools = Tools(
    expected: (Bytes, Evidence) -> bool,
    verifyArchive: Bytes -> Option<ArchiveReport>,
    extract: Bytes -> Option<Tree>,
    verifyTree: Tree -> Option<Report>,
    agrees: (Bytes, ArchiveReport) -> bool,
    encode: (Core, Time) -> Bytes,
    decode: Bytes -> Option<(Core, Option<Time>)>,
    isTime: Time -> bool)

  datatype Inputs = Inputs(archive: Bytes, retrieval: Bytes)

  /** The part of the capture directory a finalization may add to. */
  datatype Directory = Directory(extracted: Option<Tree>, termination: Option<Bytes>, semantic: Option<Bytes>)

  datatype Outcome = Done | Rejected | Killed

  datatype Ending = Ending(directory: Directory, outcome: Outcome)

  const FRESH: Directory := Directory(None, None, None)
  const MAX_RECORD: nat := 65_536

  // ---- Specification -----------------------------------------------------------------

  /** An exclusive write that may die after `life` steps: one creates the file, one each
      adds a byte. */
  datatype Writing = Writing(content: Option<Bytes>, life: Option<nat>)

  function Write(content: Bytes, life: nat): Writing {
    if life == 0 then Writing(None, None)
    else if life - 1 < |content| then Writing(Some(content[..life - 1]), None)
    else Writing(Some(content), Some(life - 1 - |content|))
  }

  function CoreOf(tools: Tools, inputs: Inputs, ev: Evidence): Option<Core> {
    match tools.verifyArchive(inputs.archive)
    case None => None
    case Some(report) => Some(Core(report, inputs.retrieval, ev))
  }

  /** A retained record the next run accepts as its own. */
  predicate Accepted(tools: Tools, core: Core, record: Bytes) {
    && 0 < |record| <= MAX_RECORD
    && tools.decode(record).Some?
    && tools.decode(record).value.1.Some? && tools.isTime(tools.decode(record).value.1.value)
    && tools.decode(record).value.0 == core
  }

  function Run(tools: Tools, inputs: Inputs, d: Directory, ev: Evidence, now: Time, life: nat): Ending {
    if !tools.expected(inputs.retrieval, ev) then Ending(d, Rejected) else
    match tools.verifyArchive(inputs.archive)
    case None => Ending(d, Rejected)
    case Some(report) =>
      match (if d.extracted.Some? then d.extracted else tools.extract(inputs.archive))
      case None => Ending(d, Rejected)
      case Some(tree) =>
        var verified := tools.verifyTree(tree);
        if verified.None? then Ending(d, Rejected)
        else if d.extracted.None? && life == 0 then Ending(d, Killed)
        else
          var left := if d.extracted.None? then life - 1 else life;
          var d := d.(extracted := Some(tree));
          if verified.value != report.verification || !tools.agrees(inputs.retrieval, report) then Ending(d, Rejected)
          else Publish(tools, Core(report, inputs.retrieval, ev), d, now, left)
  }

  /** The two records, once everything has been checked. */
  function Publish(tools: Tools, core: Core, d: Directory, now: Time, life: nat): Ending {
    match d.termination
    case Some(receipt) => if receipt != core.evidence.receipt then Ending(d, Rejected) else Attest(tools, core, d, now, life)
    case None =>
      var w := Write(core.evidence.receipt, life);
      var d := d.(termination := w.content);
      if w.life.None? then Ending(d, Killed) else Attest(tools, core, d, now, w.life.value)
  }

  function Attest(tools: Tools, core: Core, d: Directory, now: Time, life: nat): Ending {
    match d.semantic
    case Some(record) => Ending(d, if Accepted(tools, core, record) then Done else Rejected)
    case None =>
      var w := Write(tools.encode(core, now), life);
      Ending(d.(semantic := w.content), if w.life.None? then Killed else Done)
  }

  // ---- Implementation ------------------------------------------------------------------

  class CaptureDirectory {
    var extracted: Option<Tree>
    var termination: Option<Bytes>
    var semantic: Option<Bytes>

    function Contents(): Directory
      reads this
    {
      Directory(extracted, termination, semantic)
    }

    /** `_finalize_qwen3_capture_with_evidence`, killed after `life` steps. */
    method Finalize(tools: Tools, inputs: Inputs, ev: Evidence, now: Time, life: nat) returns (outcome: Outcome)
      modifies this
      ensures Ending(Contents(), outcome) == Run(tools, inputs, old(Contents()), ev, now, life)
    {
      if !tools.expected(inputs.retrieval, ev) { return Rejected; }
      var archived := tools.verifyArchive(inputs.archive);
      if archived.None? { return Rejected; }
      var left := life;
      var report: Option<Report>;
      if extracted.Some? {
        report := tools.verifyTree(extracted.value);
        if report.None? { return Rejected; }
      } else {
        var staged := tools.extract(inputs.archive);
        if staged.None? { return Rejected; }
        report := tools.verifyTree(staged.value);
        if report.None? { return Rejected; }
        if left == 0 { return Killed; }
        extracted, left := staged, left - 1;
      }
      if report.value != archived.value.verification || !tools.agrees(inputs.retrieval, archived.value) { return Rejected; }
      var core := Core(archived.value, inputs.retrieval, ev);
      if termination.Some? {
        if termination.value != ev.receipt { return Rejected; }
      } else {
        var complete: bool;
        termination, complete, left := WriteExclusive(ev.receipt, left);
        if !complete { return Killed; }
      }
      if semantic.Some? {
        return if Accepted(tools, core, semantic.value) then Done else Rejected;
      }
      var complete: bool;
      semantic, complete, left := WriteExclusive(tools.encode(core, now), left);
      outcome := if complete then Done else Killed;
    }
  }

  /** Creates a file and fills it byte by byte. */
  method WriteExclusive(content: Bytes, life: nat) returns (file: Option<Bytes>, complete: bool, left: nat)
    ensures Write(content, life) == Writing(file, if complete then Some(left) else None)
  {
    file, complete, left := None, false, life;
    if left == 0 { return; }
    left := left - 1;
    var filled: Bytes := [];
    while |filled| < |content| && left > 0
      invariant |filled| <= |content| && filled == content[..|filled|] && left + |filled| == life - 1
      decreases left
    {
      filled, left := filled + [content[|filled|]], left - 1;
    }
    file, complete := Some(filled), filled == content;
  }

  // ---- Properties ------------------------------------------------------------------------

  /** Everything the inputs must satisfy for a first, undisturbed run to finish. */
  predicate Sound(tools: Tools, inputs: Inputs, ev: Evidence) {
    && tools.expected(inputs.retrieval, ev)
    && tools.verifyArchive(inputs.archive).Some?
    && tools.extract(inputs.archive).Some?
    && var report := tools.verifyArchive(inputs.archive).value;
    && tools.verifyTree(tools.extract(inputs.archive).value) == Some(report.verification)
    && tools.agrees(inputs.retrieval, report)
  }

  /** The record of this core and time is read back as it is. */
  predicate Kept(tools: Tools, core: Core, now: Time) {
    && tools.isTime(now)
    && tools.encode(core, now) != [] && tools.decode(tools.encode(core, now)) == Some((core, Some(now)))
  }

  /** Steps an undisturbed run needs at most. */
  function Enough(tools: Tools, core: Core, now: Time): nat {
    3 + |core.evidence.receipt| + |tools.encode(core, now)|
  }

  /** A run never alters what an earlier run left, and adds in order. */
  predicate Extends(d: Directory, e: Directory) {
    && (d.extracted.Some? ==> e.extracted == d.extracted)
    && (d.termination.Some? ==> e.termination == d.termination)
    && (d.semantic.Some? ==> e.semantic == d.semantic)
  }

  predicate InOrder(d: Directory) {
    && (d.semantic.Some? ==> d.termination.Some?)
    && (d.termination.Some? ==> d.extracted.Some?)
  }

  lemma NothingIsRewritten(tools: Tools, inputs: Inputs, d: Directory, ev: Evidence, now: Time, life: nat)
    ensures Extends(d, Run(tools, inputs, d, ev, now, life).directory)
    ensures InOrder(d) ==> InOrder(Run(tools, inputs, d, ev, now, life).directory)
  {
  }

  /** Directories that some series of killed, rejected or finished runs leaves behind. */
  datatype Attempt = Attempt(now: Time, life: nat)

  function After(tools: Tools, inputs: Inputs, ev: Evidence, runs: seq<Attempt>): (d: Directory) {
    if runs == [] then FRESH
    else
      var last := runs[|runs| - 1];
      Run(tools, inputs, After(tools, inputs, ev, runs[..|runs| - 1]), ev, last.now, last.life).directory
  }

  /** What is left after any history: the archive's own tree, a prefix of the receipt, and
      only once that is whole a prefix of a record of this very core. */
  ghost predicate Residue(tools: Tools, inputs: Inputs, ev: Evidence, runs: seq<Attempt>, d: Directory) {
    && InOrder(d)
    && (d.extracted.Some? ==> d.extracted == tools.extract(inputs.archive))
    && (d.termination.Some? ==> d.termination.value <= ev.receipt)
    && (d.semantic.Some? ==> d.termination.value == ev.receipt && Attested(tools, inputs, ev, runs, d.semantic.value))
  }

  ghost predicate Attested(tools: Tools, inputs: Inputs, ev: Evidence, runs: seq<Attempt>, record: Bytes) {
    && CoreOf(tools, inputs, ev).Some?
    && exists i :: 0 <= i < |runs| && record <= tools.encode(CoreOf(tools, inputs, ev).value, runs[i].now)
  }

  lemma {:induction false} WhatIsLeft(tools: Tools, inputs: Inputs, ev: Evidence, runs: seq<Attempt>)
    ensures Residue(tools, inputs, ev, runs, After(tools, inputs, ev, runs))
  {
    if runs != [] {
      var n := |runs| - 1;
      WhatIsLeft(tools, inputs, ev, runs[..n]);
      var before := After(tools, inputs, ev, runs[..n]);
      RunLeaves(tools, inputs, before, ev, runs, n);
    }
  }

  lemma RunLeaves(tools: Tools, inputs: Inputs, d: Directory, ev: Evidence, runs: seq<Attempt>, n: nat)
    requires n + 1 == |runs| && Residue(tools, inputs, ev, runs[..n], d)
    ensures Residue(tools, inputs, ev, runs, Run(tools, inputs, d, ev, runs[n].now, runs[n].life).directory)
  {
    var e := Run(tools, inputs, d, ev, runs[n].now, runs[n].life).directory;
    if d.semantic.Some? {
      var i :| 0 <= i < n && d.semantic.value <= tools.encode(CoreOf(tools, inputs, ev).value, runs[..n][i].now);
      assert runs[..n][i] == runs[i];
    } else if e.semantic.Some? {
      assert e.semantic.value <= tools.encode(CoreOf(tools, inputs, ev).value, runs[n].now);
    }
  }

  /** The only way a killed run can spoil its successors: a record cut short. */
  predicate Resumable(tools: Tools, core: Core, d: Directory) {
    && (d.termination.Some? ==> d.termination.value == core.evidence.receipt)
    && (d.semantic.Some? ==> Accepted(tools, core, d.semantic.value))
  }

  /** The directory one undisturbed run at `now` produces from nothing. */
  function Target(tools: Tools, inputs: Inputs, core: Core, now: Time): Directory
    requires tools.extract(inputs.archive).Some?
  {
    Directory(tools.extract(inputs.archive), Some(core.evidence.receipt), Some(tools.encode(core, now)))
  }

  lemma UndisturbedRun(tools: Tools, inputs: Inputs, ev: Evidence, now: Time, life: nat)
    requires Sound(tools, inputs, ev) && life >= Enough(tools, CoreOf(tools, inputs, ev).value, now)
    ensures Run(tools, inputs, FRESH, ev, now, life) == Ending(Target(tools, inputs, CoreOf(tools, inputs, ev).value, now), Done)
  {
  }

  /** Resuming after any history: it completes exactly when no record was cut short, and
      then only `verified_at` may differ from an undisturbed run; otherwise it rejects and
      changes nothing, however often it is tried. */
  lemma Resume(tools: Tools, inputs: Inputs, ev: Evidence, runs: seq<Attempt>, now: Time, life: nat)
    requires Sound(tools, inputs, ev) && life >= Enough(tools, CoreOf(tools, inputs, ev).value, now)
    ensures var core, d := CoreOf(tools, inputs, ev).value, After(tools, inputs, ev, runs);
      var ending := Run(tools, inputs, d, ev, now, life);
      && (ending.outcome == Done <==> Resumable(tools, core, d))
      && (ending.outcome == Done ==> ending.directory == Target(tools, inputs, core, now).(semantic := ending.directory.semantic))
      && (ending.outcome == Done && d.semantic.None? ==> ending.directory == Target(tools, inputs, core, now))
      && (ending.outcome != Done ==> ending == Ending(d, Rejected))
  {
    WhatIsLeft(tools, inputs, ev, runs);
  }

  /** When a run killed after `life` steps can be resumed: unless it died inside the
      receipt, or inside the record with a rest no reader takes for the whole. */
  lemma WhereToBeKilled(tools: Tools, inputs: Inputs, ev: Evidence, now: Time, life: nat)
    requires Sound(tools, inputs, ev) && life < Enough(tools, CoreOf(tools, inputs, ev).value, now)
    ensures var core := CoreOf(tools, inputs, ev).value;
      var receipt, record := |ev.receipt|, tools.encode(core, now);
      var ending := Run(tools, inputs, FRESH, ev, now, life);
      && ending.outcome == Killed
      && (Resumable(tools, core, ending.directory) <==>
          !(2 <= life < 2 + receipt) && (life >= 3 + receipt ==> Accepted(tools, core, record[..life - 3 - receipt])))
  {
  }

  /** A finished directory stays as it is, `verified_at` included, if and only if its
      record is one a reader accepts: at most 65,536 bytes. */
  lemma Idempotent(tools: Tools, inputs: Inputs, ev: Evidence, first: Time, now: Time, life: nat)
    requires Sound(tools, inputs, ev) && Kept(tools, CoreOf(tools, inputs, ev).value, first)
    ensures var core := CoreOf(tools, inputs, ev).value;
      var d := Target(tools, inputs, core, first);
      && Run(tools, inputs, d, ev, now, life).directory == d
      && (Run(tools, inputs, d, ev, now, life).outcome == Done <==> |tools.encode(core, first)| <= MAX_RECORD)
  {
  }

  /** Resuming from the guard's state directory, whose armed record is read first
      (`_retained_termination_evidence`). */
  function Resumed(tools: Tools, inputs: Inputs, d: Directory, armed: Bytes, ev: Evidence, now: Time, life: nat): Ending {
    if 0 < |armed| <= MAX_RECORD then Run(tools, inputs, d, ev, now, life) else Ending(d, Rejected)
  }

  /** An input for which every rerun fails: a host name of 63,937 to 64,636 characters, none of
      them escaped.  The armed record adds at most 900 bytes to it, and can be read; the
      semantic record adds at least 1,600, and cannot. */
  lemma LongHostname(tools: Tools, inputs: Inputs, armed: Bytes, ev: Evidence, first: Time, now: Time, life: nat)
    requires Sound(tools, inputs, ev) && Kept(tools, CoreOf(tools, inputs, ev).value, first)
    requires |ev.hostname| < |armed| <= |ev.hostname| + 900
    requires |tools.encode(CoreOf(tools, inputs, ev).value, first)| >= |ev.hostname| + 1_600
    requires 63_937 <= |ev.hostname| <= 64_636
    ensures var core := CoreOf(tools, inputs, ev).value;
      var finished := Resumed(tools, inputs, FRESH, armed, ev, first, Enough(tools, core, first));
      && finished == Ending(Target(tools, inputs, core, first), Done)
      && Resumed(tools, inputs, finished.directory, armed, ev, now, life) == Ending(finished.directory, Rejected)
  {
    UndisturbedRun(tools, inputs, ev, first, Enough(tools, CoreOf(tools, inputs, ev).value, first));
    Idempotent(tools, inputs, ev, first, now, life);
  }

  /** Once a receipt is retained, other receipt bytes are refused and touch no file. */
  lemma OtherReceiptsAreRefused(tools: Tools, inputs: Inputs, d: Directory, ev: Evidence, now: Time, life: nat)
    requires InOrder(d) && d.termination.Some? && d.termination.value != ev.receipt
    ensures Run(tools, inputs, d, ev, now, life) == Ending(d, Rejected)
  {
  }

  /** What a finished run vouches for: the pinned facts hold, the archive and the tree beside it
      verify alike and agree with the retrieval record, the receipt is this evidence's, and the
      record beside it is one of exactly this archive, retrieval and evidence. */
  lemma DoneMeans(tools: Tools, inputs: Inputs, d: Directory, ev: Evidence, now: Time, life: nat)
    requires Run(tools, inputs, d, ev, now, life).outcome == Done
    ensures var e := Run(tools, inputs, d, ev, now, life).directory;
      && tools.expected(inputs.retrieval, ev)
      && tools.verifyArchive(inputs.archive).Some?
      && var report := tools.verifyArchive(inputs.archive).value;
      && tools.agrees(inputs.retrieval, report)
      && e.extracted.Some? && tools.verifyTree(e.extracted.value) == Some(report.verification)
      && (d.extracted.None? ==> e.extracted == tools.extract(inputs.archive))
      && e.termination == Some(ev.receipt)
      && e.semantic.Some?
      && (d.semantic.None? ==> e.semantic.value == tools.encode(Core(report, inputs.retrieval, ev), now))
      && (d.semantic.Some? ==>
            && 0 < |e.semantic.value| <= 65_536 && tools.decode(e.semantic.value).Some?
            && var (core, time) := tools.decode(e.semantic.value).value;
            core == Core(report, inputs.retrieval, ev) && time.Some? && tools.isTime(time.value))
  {
  }

  /** And what makes a run reject: nothing else does. */
  lemma RejectedMeans(tools: Tools, inputs: Inputs, d: Directory, ev: Evidence, now: Time, life: nat)
    requires Run(tools, inputs, d, ev, now, life).outcome == Rejected
    ensures
      || !tools.expected(inputs.retrieval, ev)
      || tools.verifyArchive(inputs.archive).None?
      || (d.extracted.None? && tools.extract(inputs.archive).None?)
      || !tools.agrees(inputs.retrieval, tools.verifyArchive(inputs.archive).value)
      || tools.verifyTree(if d.extracted.Some? then d.extracted.value else tools.extract(inputs.archive).value)
           != Some(tools.verifyArchive(inputs.archive).value.verification)
      || (d.termination.Some? && d.termination.value != ev.receipt)
      || (d.semantic.Some? && (
            || d.semantic.value == [] || |d.semantic.value| > 65_536 || tools.decode(d.semantic.value).None?
            || tools.decode(d.semantic.value).value.0 != Core(tools.verifyArchive(inputs.archive).value, inputs.retrieval, ev)
            || tools.decode(d.semantic.value).value.1.None?
            || !tools.isTime(tools.decode(d.semantic.value).value.1.value)))
  {
  }
}
