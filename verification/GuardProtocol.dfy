/** Controller, detached watchdog, provider and write-once receipt file as one
    step system (scripts/lambda_gpu_guard.py:589-855, 934-976, 1041-1077,
    1187-1220).  Every interleaving, every failed call and a controller crash at
    any step are runs of this system. */
module GuardProtocol {
  import opened Wrappers
  import opened TerminationCall

  datatype Who = Controller | Watchdog

  datatype Receipt = Receipt(instance: string, final: Sight)

  /** The content of an inode while it is being written. */
  datatype Content = Partial | Complete(receipt: Receipt)

  /** `_write_json_exclusive` with `allow_existing`, then the read-back of
      `_write_termination_receipt`; each value is the step about to be taken. */
  datatype Writer = Creating | Filling | Linking | Unlinking(published: bool) | Reading | Written | WriteFailed

  /** The step of `_stop_watchdog` about to be taken. */
  datatype Stage = Polling | Signalling | Reaping | Killing

  datatype ControllerState =
    | Spawning
    | AwaitingReady
    | RecordingArmed
    | Aborting(abortStage: Stage)                 // arming failed: stop the process, no handle
    | Removing                                    // it has stopped: remove the state directory
    | ArmFailed
    | Armed                                       // `arm_watchdog` returned its handle
    | Calling(phase: Phase)
    | Writing(result: Termination, writer: Writer)
    | Stopping(stage: Stage, result: Termination, complete: bool) // complete: no finalization error so far
    | Finished(result: Termination, complete: bool)
    | Retaining
    | Unresolved
    | Crashed

  datatype WatchdogState =
    | NotStarted
    | Starting
    | Waiting
    | WatchCalling(watchPhase: Phase)
    | Pausing
    | WatchWriting(watchResult: Termination, watchWriter: Writer)
    | WatchDone(watchResult: Termination)
    | WatchFailed
    | Stopped                                     // killed by a signal or lost to its host

  /** The state directory, as far as the receipt is concerned. */
  datatype Files = Files(
    inodes: map<Who, Content>,
    temporaries: set<Who>,
    receipt: Option<Who>,                         // the inode linked at the receipt path
    removed: bool)                                // a receipt went with the directory

  datatype State = State(
    target: string,
    instance: Sight,
    controller: ControllerState,
    watchdog: WatchdogState,
    handle: bool,                                 // a handle has been returned
    signalled: bool,                              // the controller sent the watchdog a signal
    ready: bool,
    unresolved: bool,                             // the unresolved marker is on disk
    files: Files)


  datatype Action =
    | Drift(to: Sight)
    | Spawn(ok: bool)
    | SeeReady
    | ArmingFails
    | RecordArmed
    | Remove(receiptGone: bool, readyGone: bool, temporariesGone: set<Who>)
    | BeginTermination
    | Observe(who: Who, event: Event)
    | EndCall(who: Who)
    | Write(who: Who, ok: bool)
    | FinishWriting
    | PollProcess
    | Signal(delivered: bool)
    | Reap(inTime: bool, ok: bool)
    | Kill(delivered: bool, ok: bool)
    | Retain(ok: bool)
    | Crash
    | AnnounceReady(ok: bool)
    | DeadlineReached
    | RetryAgain
    | GiveUp
    | FinishWatch
    | Die

  predicate Alive(w: WatchdogState) {
    !w.NotStarted? && !w.WatchDone? && !w.WatchFailed? && !w.Stopped?
  }

  /** What an observation may be: a listing shows the instance as it is. */
  predicate Truthful(s: State, e: Event) {
    e.Got? && e.listing.Listed? ==> e.listing.sight == s.instance
  }

  function WriterStep(target: string, f: Files, who: Who, result: Termination, writer: Writer, ok: bool): Option<(Files, Writer)> {
    match writer
    case Creating =>
      if !ok then Some((f, WriteFailed))
      else Some((f.(inodes := f.inodes[who := Partial], temporaries := f.temporaries + {who}), Filling))
    case Filling =>
      if !ok then Some((f.(temporaries := f.temporaries - {who}), WriteFailed))
      else Some((f.(inodes := f.inodes[who := Complete(Receipt(target, result.final))]), Linking))
    case Linking =>
      if !ok then Some((f.(temporaries := f.temporaries - {who}), WriteFailed))
      else if f.receipt.Some? then Some((f, Unlinking(false)))
      else Some((f.(receipt := Some(who)), Unlinking(true)))
    case Unlinking(published) =>
      // a failed directory sync after the link is reported although the receipt is there
      Some((f.(temporaries := f.temporaries - {who}),
            if !published then Reading else if ok then Written else WriteFailed))
    case Reading =>
      if ok && f.receipt.Some? && f.receipt.value in f.inodes && Acceptable(target, f.inodes[f.receipt.value])
      then Some((f, Written)) else Some((f, WriteFailed))
    case _ => None
  }

  /** The read-back check of an existing receipt. */
  predicate Acceptable(target: string, c: Content) {
    c.Complete? && c.receipt.instance == target && c.receipt.final.Final()
  }

  function Apply(s: State, a: Action): Option<State> {
    match a
    case Drift(to) => if s.instance.Final() && !to.Final() then None else Some(s.(instance := to))
    case Observe(who, e) => if Truthful(s, e) then ApplyObservation(s, who, e) else None
    case EndCall(who) => ApplyEndCall(s, who)
    case Write(who, ok) => ApplyWrite(s, who, ok)
    case AnnounceReady(_) => ApplyWatchdog(s, a)
    case DeadlineReached => ApplyWatchdog(s, a)
    case RetryAgain => ApplyWatchdog(s, a)
    case GiveUp => ApplyWatchdog(s, a)
    case FinishWatch => ApplyWatchdog(s, a)
    case Die => if Alive(s.watchdog) then Some(s.(watchdog := Stopped)) else None
    case _ => ApplyController(s, a)
  }

  function ApplyObservation(s: State, who: Who, e: Event): Option<State> {
    match who
    case Controller =>
      if s.controller.Calling? && !Next(s.controller.phase, e).Impossible?
      then Some(s.(controller := Calling(Next(s.controller.phase, e)))) else None
    case Watchdog =>
      if s.watchdog.WatchCalling? && !Next(s.watchdog.watchPhase, e).Impossible?
      then Some(s.(watchdog := WatchCalling(Next(s.watchdog.watchPhase, e)))) else None
  }

  function ApplyEndCall(s: State, who: Who): Option<State> {
    match who
    case Controller =>
      if !s.controller.Calling? then None
      else if s.controller.phase.Returned? then Some(s.(controller := Writing(s.controller.phase.result, Creating)))
      else if s.controller.phase.Raised? then Some(s.(controller := Retaining))
      else None
    case Watchdog =>
      if !s.watchdog.WatchCalling? then None
      else if s.watchdog.watchPhase.Returned? then Some(s.(watchdog := WatchWriting(s.watchdog.watchPhase.result, Creating)))
      else if s.watchdog.watchPhase.Raised? then Some(s.(watchdog := Pausing))
      else None
  }

  function ApplyWrite(s: State, who: Who, ok: bool): Option<State> {
    match who
    case Controller =>
      if !s.controller.Writing? then None
      else
        var step := WriterStep(s.target, s.files, who, s.controller.result, s.controller.writer, ok);
        if step.None? then None
        else Some(s.(files := step.value.0, controller := Writing(s.controller.result, step.value.1)))
    case Watchdog =>
      if !s.watchdog.WatchWriting? then None
      else
        var step := WriterStep(s.target, s.files, who, s.watchdog.watchResult, s.watchdog.watchWriter, ok);
        if step.None? then None
        else Some(s.(files := step.value.0, watchdog := WatchWriting(s.watchdog.watchResult, step.value.1)))
  }

  function ApplyController(s: State, a: Action): Option<State> {
    if a.Crash? then Some(s.(controller := Crashed))  // at any step, for any reason
    else
      match s.controller
      case Spawning =>
        if !a.Spawn? then None
        else if a.ok then Some(s.(controller := AwaitingReady, watchdog := Starting)) else Some(s.(controller := ArmFailed))
      case AwaitingReady =>
        if a.ArmingFails? then Some(s.(controller := Aborting(Polling)))
        else if a.SeeReady? && s.ready && Alive(s.watchdog) then Some(s.(controller := RecordingArmed))
        else None
      case RecordingArmed =>
        if a.ArmingFails? then Some(s.(controller := Aborting(Polling)))
        else if a.RecordArmed? then Some(s.(controller := Armed, handle := true))
        else None
      case Aborting(stage) => ApplyAbort(s, stage, a)
      case Removing =>
        // `rmtree` reports nothing: any part of the directory may survive it
        if !a.Remove? then None
        else
          Some(s.(controller := ArmFailed, ready := s.ready && !a.readyGone,
                  files := Purged(s.files, a.receiptGone, a.temporariesGone)))
      case Armed => if a.BeginTermination? then Some(s.(controller := Calling(Lookup))) else None
      case Writing(result, writer) =>
        if a.FinishWriting? && (writer.Written? || writer.WriteFailed?)
        then Some(s.(controller := Stopping(Polling, result, writer.Written?))) else None
      case Stopping(stage, _, _) => ApplyStop(s, stage, a)
      case Retaining => if a.Retain? then Some(s.(controller := Unresolved, unresolved := s.unresolved || a.ok)) else None
      case _ => None
  }

  function Purged(f: Files, receiptGone: bool, temporariesGone: set<Who>): Files {
    Files(f.inodes, f.temporaries - temporariesGone, if receiptGone then None else f.receipt, receiptGone && f.receipt.Some?)
  }

  /** `_stop_watchdog` after a confirmed termination. */
  function ApplyStop(s: State, stage: Stage, a: Action): Option<State>
    requires s.controller.Stopping?
  {
    var result, complete := s.controller.result, s.controller.complete;
    match stage
    case Polling =>
      if !a.PollProcess? then None
      else if Alive(s.watchdog) then Some(s.(controller := Stopping(Signalling, result, complete)))
      else Some(s.(controller := Finished(result, complete)))
    case Signalling =>
      if !a.Signal? then None
      else if a.delivered then Some(s.(controller := Stopping(Reaping, result, complete), signalled := true))
      else Some(s.(controller := Finished(result, complete && !Alive(s.watchdog))))
    case Reaping =>
      if !a.Reap? then None
      else if !a.inTime then Some(s.(controller := Stopping(Killing, result, complete)))
      else if a.ok && Alive(s.watchdog) then None
      else Some(s.(controller := Finished(result, complete && a.ok)))
    case Killing =>
      // the process may outlive even a delivered SIGKILL for a while; then the wait fails
      if !a.Kill? || (a.ok && !a.delivered && Alive(s.watchdog)) then None
      else
        Some(s.(controller := Finished(result, complete && a.ok),
                watchdog := if a.ok && Alive(s.watchdog) then Stopped else s.watchdog))
  }

  /** `_stop_watchdog` after a failed arming; a process that cannot be stopped keeps its directory. */
  function ApplyAbort(s: State, stage: Stage, a: Action): Option<State> {
    match stage
    case Polling =>
      if a.PollProcess? then Some(s.(controller := if Alive(s.watchdog) then Aborting(Signalling) else Removing)) else None
    case Signalling =>
      if !a.Signal? then None
      else if a.delivered then Some(s.(controller := Aborting(Reaping), signalled := true))
      else Some(s.(controller := if Alive(s.watchdog) then ArmFailed else Removing))
    case Reaping =>
      if !a.Reap? then None
      else if !a.inTime then Some(s.(controller := Aborting(Killing)))
      else if a.ok && Alive(s.watchdog) then None
      else Some(s.(controller := if a.ok then Removing else ArmFailed))
    case Killing =>
      if !a.Kill? || (a.ok && !a.delivered && Alive(s.watchdog)) then None
      else
        Some(s.(controller := if a.ok then Removing else ArmFailed,
                watchdog := if a.ok && Alive(s.watchdog) then Stopped else s.watchdog))
  }

  function ApplyWatchdog(s: State, a: Action): Option<State> {
    match s.watchdog
    case Starting =>
      if !a.AnnounceReady? then None
      else if a.ok then Some(s.(watchdog := Waiting, ready := true)) else Some(s.(watchdog := WatchFailed))
    case Waiting => if a.DeadlineReached? then Some(s.(watchdog := WatchCalling(Lookup))) else None
    case Pausing =>
      if a.RetryAgain? then Some(s.(watchdog := WatchCalling(Lookup)))
      else if a.GiveUp? then Some(s.(watchdog := WatchFailed))
      else None
    case WatchWriting(result, writer) =>
      if !a.FinishWatch? then None
      else if writer.Written? then Some(s.(watchdog := WatchDone(result)))
      else if writer.WriteFailed? then Some(s.(watchdog := WatchFailed))
      else None
    case _ => None
  }

  function Initial(target: string, instance: Sight): State {
    State(target, instance, Spawning, NotStarted, false, false, false, false, Files(map[], {}, None, false))
  }

  /** The state after a sequence of actions, if each was possible in turn. */
  function Exec(s: State, actions: seq<Action>): Option<State> {
    if actions == [] then Some(s)
    else
      var before := Exec(s, actions[..|actions| - 1]);
      if before.None? then None else Apply(before.value, actions[|actions| - 1])
  }

  // ---- The invariant ----------------------------------------------------------

  /** A confirmed result is a true one: the instance is gone, and stays gone. */
  predicate Confirmed(s: State, t: Termination) {
    t.final.Final() && s.instance.Final()
  }

  predicate PhaseTrue(s: State, p: Phase) {
    !p.Impossible? && (p.Returned? ==> Confirmed(s, p.result))
  }

  /** Past the filling step the writer's inode is whole, and so is what it linked. */
  predicate WriterTrue(target: string, f: Files, who: Who, writer: Writer) {
    && (writer.Filling? || writer.Linking? || writer.Unlinking? ==> who in f.temporaries)
    && (writer.Linking? || writer.Unlinking? ==> who in f.inodes && Acceptable(target, f.inodes[who]))
    && (writer.Unlinking? && writer.published ==> f.receipt == Some(who))
    && (writer.Unlinking? || writer.Reading? || writer.Written? ==> f.receipt.Some?)
    && (f.receipt == Some(who) ==> !writer.Creating? && !writer.Filling? && !writer.Linking?)
  }

  /** What is linked at the receipt path is whole and acceptable. */
  predicate Whole(target: string, f: Files) {
    f.receipt.Some? ==> f.receipt.value in f.inodes && Acceptable(target, f.inodes[f.receipt.value])
  }

  predicate ReceiptTrue(s: State) {
    Whole(s.target, s.files) && (s.files.receipt.Some? ==> s.instance.Final())
  }

  predicate ControllerTrue(s: State) {
    match s.controller
    case Calling(p) => s.handle && PhaseTrue(s, p)
    case Writing(result, writer) => s.handle && Confirmed(s, result) && WriterTrue(s.target, s.files, Controller, writer)
    case Stopping(_, result, complete) => s.handle && Confirmed(s, result) && (complete ==> s.files.receipt.Some?)
    case Finished(result, complete) =>
      s.handle && Confirmed(s, result) && (complete ==> s.files.receipt.Some? && !Alive(s.watchdog))
    case Armed => s.handle
    case Retaining => s.handle && !s.signalled
    case Unresolved => s.handle && !s.signalled
    case Crashed => true
    case _ => !s.handle
  }

  predicate WatchdogTrue(s: State) {
    match s.watchdog
    case WatchCalling(p) => PhaseTrue(s, p)
    case WatchWriting(result, writer) => Confirmed(s, result) && WriterTrue(s.target, s.files, Watchdog, writer)
    case WatchDone(result) => Confirmed(s, result) && (s.files.receipt.Some? || s.files.removed)
    case _ => true
  }

  predicate SignalTrue(s: State) {
    && (s.signalled ==>
          s.controller.ArmFailed? || s.controller.Aborting? || s.controller.Removing? || s.controller.Stopping? || s.controller.Finished? || s.controller.Crashed?)
    && (s.handle && s.signalled ==> s.instance.Final())
    && (s.unresolved ==> !s.signalled && (s.controller.Unresolved? || s.controller.Crashed?))
    && (s.controller.Spawning? ==> s.watchdog.NotStarted?)
  }

  /** Whoever's inode is the receipt has already been through its linking step. */
  predicate LinkedByItsWriter(s: State) {
    && (s.files.receipt == Some(Controller) ==>
          s.controller.Writing? || s.controller.Stopping? || s.controller.Finished? || s.controller.Crashed?)
    && (s.files.receipt == Some(Watchdog) ==>
          s.watchdog.WatchWriting? || s.watchdog.WatchDone? || s.watchdog.WatchFailed? || s.watchdog.Stopped?)
  }

  /** The state directory goes only after the watchdog, and only if no handle was returned. */
  predicate RemovalTrue(s: State) {
    && (s.controller.Removing? ==> !Alive(s.watchdog))
    && (s.files.removed ==> s.files.receipt.None? && !s.handle && !Alive(s.watchdog) && (s.controller.ArmFailed? || s.controller.Crashed?))
  }

  predicate Inv(s: State) {
    ReceiptTrue(s) && ControllerTrue(s) && WatchdogTrue(s) && SignalTrue(s) && LinkedByItsWriter(s) && RemovalTrue(s)
  }

  /** What the receipt and the watchdog promise does not depend on the controller. */
  lemma ControllerFrame(s: State, t: State)
    requires t == s.(controller := t.controller, handle := t.handle, signalled := t.signalled, unresolved := t.unresolved)
    ensures ReceiptTrue(s) ==> ReceiptTrue(t)
    ensures WatchdogTrue(s) ==> WatchdogTrue(t)
  {
  }

  /** Nor does what the receipt and the controller promise depend on a live watchdog. */
  lemma WatchdogFrame(s: State, t: State)
    requires t == s.(watchdog := t.watchdog, ready := t.ready)
    requires Alive(t.watchdog) ==> Alive(s.watchdog)
    ensures ReceiptTrue(s) ==> ReceiptTrue(t)
    ensures ControllerTrue(s) ==> ControllerTrue(t)
  {
  }

  lemma InvStep(s: State, a: Action)
    requires Inv(s) && Apply(s, a).Some?
    ensures Inv(Apply(s, a).value)
  {
    match a
    case Drift(to) => InvDrift(s, to);
    case Observe(who, e) => InvObservation(s, who, e);
    case EndCall(who) => InvEndCall(s, who);
    case Write(Controller, ok) => InvControllerWrites(s, ok);
    case Write(Watchdog, ok) => InvWatchdogWrites(s, ok);
    case AnnounceReady(_) => InvWatchdog(s, a);
    case DeadlineReached => InvWatchdog(s, a);
    case RetryAgain => InvWatchdog(s, a);
    case GiveUp => InvWatchdog(s, a);
    case FinishWatch => InvWatchdog(s, a);
    case Die =>
    case _ => InvController(s, a);
  }

  lemma InvDrift(s: State, to: Sight)
    requires Inv(s) && Apply(s, Drift(to)).Some?
    ensures Inv(Apply(s, Drift(to)).value)
  {
  }

  lemma InvObservation(s: State, who: Who, e: Event)
    requires Inv(s) && Truthful(s, e) && ApplyObservation(s, who, e).Some?
    ensures Inv(ApplyObservation(s, who, e).value)
  {
    var p := if who.Controller? then s.controller.phase else s.watchdog.watchPhase;
    assert Next(p, e).Returned? ==> e.Got? && e.listing.Listed? && e.listing.sight.Final() && Next(p, e).result.final == e.listing.sight;
    hide Next;
  }

  lemma InvEndCall(s: State, who: Who)
    requires Inv(s) && ApplyEndCall(s, who).Some?
    ensures Inv(ApplyEndCall(s, who).value)
  {
    var t := ApplyEndCall(s, who).value;
    if who.Controller? { ControllerFrame(s, t); } else { WatchdogFrame(s, t); }
    hide ReceiptTrue;
    match who
    case Controller => hide WatchdogTrue;
    case Watchdog => hide ControllerTrue;
  }

  /** One writer step keeps the receipt whole and the writer's own promises; it replaces no
      receipt and touches no file of the other writer. */
  lemma WriterStepTrue(target: string, f: Files, who: Who, result: Termination, writer: Writer, ok: bool)
    requires Whole(target, f) && WriterTrue(target, f, who, writer) && result.final.Final()
    requires WriterStep(target, f, who, result, writer, ok).Some?
    ensures var (g, next) := WriterStep(target, f, who, result, writer, ok).value;
      && Whole(target, g) && WriterTrue(target, g, who, next)
      && g.removed == f.removed
      && (f.receipt.Some? ==> g.receipt == f.receipt && g.inodes[f.receipt.value] == f.inodes[f.receipt.value])
      && (g.receipt != f.receipt ==> g.receipt == Some(who))
      && (forall other :: other != who ==>
            (other in g.inodes <==> other in f.inodes) && (other in f.inodes ==> g.inodes[other] == f.inodes[other])
            && (other in g.temporaries <==> other in f.temporaries))
  {
  }

  lemma InvControllerWrites(s: State, ok: bool)
    requires Inv(s) && ApplyWrite(s, Controller, ok).Some?
    ensures Inv(ApplyWrite(s, Controller, ok).value)
  {
    WriterStepTrue(s.target, s.files, Controller, s.controller.result, s.controller.writer, ok);
    hide WriterStep;
  }

  lemma InvWatchdogWrites(s: State, ok: bool)
    requires Inv(s) && ApplyWrite(s, Watchdog, ok).Some?
    ensures Inv(ApplyWrite(s, Watchdog, ok).value)
  {
    WriterStepTrue(s.target, s.files, Watchdog, s.watchdog.watchResult, s.watchdog.watchWriter, ok);
    hide WriterStep;
  }

  lemma InvController(s: State, a: Action)
    requires Inv(s) && ApplyController(s, a).Some?
    ensures Inv(ApplyController(s, a).value)
  {
    var t := ApplyController(s, a).value;
    if s.controller.Stopping? && !a.Crash? {
      InvStop(s, a);
    } else if s.controller.Aborting? && !a.Crash? {
      InvAbort(s, a);
    } else if s.controller.Removing? && a.Remove? {
      InvRemove(s, a);
    } else if !s.controller.Spawning? {
      ControllerFrame(s, t);
      hide ReceiptTrue, WatchdogTrue;
    }
  }

  lemma InvStop(s: State, a: Action)
    requires Inv(s) && s.controller.Stopping? && ApplyStop(s, s.controller.stage, a).Some?
    ensures Inv(ApplyStop(s, s.controller.stage, a).value)
  {
    hide ReceiptTrue, WatchdogTrue, ControllerTrue, SignalTrue, LinkedByItsWriter, RemovalTrue, ApplyStop;
    StopFrames(s, a);
    StopKeepsRest(s, a);
  }

  lemma InvAbort(s: State, a: Action)
    requires Inv(s) && s.controller.Aborting? && ApplyAbort(s, s.controller.abortStage, a).Some?
    ensures Inv(ApplyAbort(s, s.controller.abortStage, a).value)
  {
    var t := ApplyAbort(s, s.controller.abortStage, a).value;
    var mid := t.(watchdog := s.watchdog);
    ControllerFrame(s, mid);
    if t.watchdog != s.watchdog { WatchdogFrame(mid, t); }
    hide ReceiptTrue, WriterTrue;
  }

  lemma InvRemove(s: State, a: Action)
    requires Inv(s) && s.controller.Removing? && a.Remove? && ApplyController(s, a).Some?
    ensures Inv(ApplyController(s, a).value)
  {
    hide ApplyAbort, ApplyStop;
  }

  lemma StopFrames(s: State, a: Action)
    requires Inv(s) && s.controller.Stopping? && ApplyStop(s, s.controller.stage, a).Some?
    ensures var t := ApplyStop(s, s.controller.stage, a).value; ReceiptTrue(t) && WatchdogTrue(t)
  {
    var t := ApplyStop(s, s.controller.stage, a).value;
    var mid := t.(watchdog := s.watchdog);
    ControllerFrame(s, mid);
    if t.watchdog != s.watchdog { WatchdogFrame(mid, t); }
    hide ReceiptTrue, ControllerTrue, SignalTrue, LinkedByItsWriter;
  }

  lemma StopKeepsRest(s: State, a: Action)
    requires Inv(s) && s.controller.Stopping? && ApplyStop(s, s.controller.stage, a).Some?
    ensures var t := ApplyStop(s, s.controller.stage, a).value;
      ControllerTrue(t) && SignalTrue(t) && LinkedByItsWriter(t) && RemovalTrue(t)
  {
    hide ReceiptTrue, WatchdogTrue;
  }

  lemma InvWatchdog(s: State, a: Action)
    requires Inv(s) && ApplyWatchdog(s, a).Some?
    ensures Inv(ApplyWatchdog(s, a).value)
  {
    WatchdogFrame(s, ApplyWatchdog(s, a).value);
    hide ReceiptTrue, ControllerTrue;
  }

  // ---- Whole runs -------------------------------------------------------------

  lemma {:induction false} RunKeepsInv(s: State, actions: seq<Action>)
    requires Inv(s) && Exec(s, actions).Some?
    ensures Inv(Exec(s, actions).value)
  {
    if actions != [] {
      var before := actions[..|actions| - 1];
      RunKeepsInv(s, before);
      InvStep(Exec(s, before).value, actions[|actions| - 1]);
    }
  }

  /** Safety of every run, crashes and failures included.  Once a handle exists,
      a signalled watchdog means a terminated instance; an unconfirmed
      termination never signals it; a result, a receipt or a successful write
      each mean that the provider has let the instance go. */
  lemma GuardSafety(target: string, instance: Sight, actions: seq<Action>)
    requires Exec(Initial(target, instance), actions).Some?
    ensures var s := Exec(Initial(target, instance), actions).value;
      && (s.handle && s.signalled ==> s.instance.Final())
      && (s.unresolved || s.controller.Retaining? || s.controller.Unresolved? ==> !s.signalled)
      && (s.controller.Finished? ==> s.instance.Final() && s.controller.result.final.Final())
      && (s.controller.Finished? && s.controller.complete ==> s.files.receipt.Some? && !Alive(s.watchdog))
      && (s.files.receipt.Some? ==>
            && s.instance.Final() && s.files.receipt.value in s.files.inodes
            && Acceptable(s.target, s.files.inodes[s.files.receipt.value]))
      && (s.controller.Writing? && s.controller.writer.Written? ==> s.files.receipt.Some?)
      && (s.watchdog.WatchDone? ==> s.instance.Final() && (s.files.receipt.Some? <==> !s.files.removed))
      && (s.files.removed ==> !s.handle && !Alive(s.watchdog))
  {
    RunKeepsInv(Initial(target, instance), actions);
  }

  predicate TakesReceipt(a: Action) { a.Remove? && a.receiptGone }

  lemma ReceiptStays(s: State, a: Action)
    requires Inv(s) && s.files.receipt.Some? && Apply(s, a).Some? && !TakesReceipt(a)
    ensures var t := Apply(s, a).value;
      && t.files.receipt == s.files.receipt
      && s.files.receipt.value in t.files.inodes && t.files.inodes[s.files.receipt.value] == s.files.inodes[s.files.receipt.value]
  {
    match a
    case Write(Controller, ok) =>
      WriterStepTrue(s.target, s.files, Controller, s.controller.result, s.controller.writer, ok);
      hide WriterStep;
    case Write(Watchdog, ok) =>
      WriterStepTrue(s.target, s.files, Watchdog, s.watchdog.watchResult, s.watchdog.watchWriter, ok);
      hide WriterStep;
    case _ => OthersLeaveFiles(s, a);
  }

  lemma OthersLeaveFiles(s: State, a: Action)
    requires !a.Write? && !TakesReceipt(a) && Apply(s, a).Some?
    ensures var t := Apply(s, a).value; t.files.receipt == s.files.receipt && t.files.inodes == s.files.inodes
  {
    if a.Remove? {
      hide ApplyAbort, ApplyStop;
    } else {
      OnlyWritersTouchFiles(s, a);
      hide *;
    }
  }

  lemma OnlyWritersTouchFiles(s: State, a: Action)
    requires !a.Write? && !a.Remove? && Apply(s, a).Some?
    ensures Apply(s, a).value.files == s.files
  {
    if Apply(s, a) == ApplyController(s, a) {
      ControllerLeavesFiles(s, a);
    } else if Apply(s, a) == ApplyWatchdog(s, a) {
      WatchdogLeavesFiles(s, a);
    } else {
      hide ApplyController, ApplyWatchdog;
    }
  }

  lemma WatchdogLeavesFiles(s: State, a: Action)
    requires ApplyWatchdog(s, a).Some?
    ensures ApplyWatchdog(s, a).value.files == s.files
  {
  }

  lemma ControllerLeavesFiles(s: State, a: Action)
    requires ApplyController(s, a).Some? && !a.Remove?
    ensures ApplyController(s, a).value.files == s.files
  {
    if s.controller.Stopping? && ApplyStop(s, s.controller.stage, a).Some? { StopLeavesFiles(s, a); }
    if s.controller.Aborting? && ApplyAbort(s, s.controller.abortStage, a).Some? { AbortLeavesFiles(s, a); }
    hide ApplyStop, ApplyAbort;
  }

  lemma AbortLeavesFiles(s: State, a: Action)
    requires s.controller.Aborting? && ApplyAbort(s, s.controller.abortStage, a).Some?
    ensures ApplyAbort(s, s.controller.abortStage, a).value.files == s.files
  {
  }

  lemma StopLeavesFiles(s: State, a: Action)
    requires s.controller.Stopping? && ApplyStop(s, s.controller.stage, a).Some?
    ensures ApplyStop(s, s.controller.stage, a).value.files == s.files
  {
  }

  /** Once the directory is gone with its receipt, no one is left to write another. */
  lemma RemovedForGood(s: State, a: Action)
    requires Inv(s) && s.files.removed && Apply(s, a).Some?
    ensures Apply(s, a).value.files.removed && Apply(s, a).value.files.receipt.None?
  {
  }

  lemma RemovesReceipt(s: State, a: Action)
    requires Inv(s) && s.files.receipt.Some? && Apply(s, a).Some? && TakesReceipt(a)
    ensures Apply(s, a).value.files.removed && !s.handle
  {
    hide ReceiptTrue, WatchdogTrue, LinkedByItsWriter;
  }

  /** A published receipt is never replaced: on every continuation of every run the same
      file shows the same content, unless a failed arming removes the state directory, and
      then no receipt appears again. */
  lemma {:induction false} ReceiptIsWriteOnce(s: State, actions: seq<Action>)
    requires Inv(s) && s.files.receipt.Some? && Exec(s, actions).Some?
    ensures var t := Exec(s, actions).value;
      && (t.files.receipt == s.files.receipt <==> forall a :: a in actions ==> !TakesReceipt(a))
      && (t.files.receipt != s.files.receipt ==> t.files.receipt.None? && t.files.removed)
      && (t.files.receipt == s.files.receipt ==>
            && s.files.receipt.value in s.files.inodes && s.files.receipt.value in t.files.inodes
            && t.files.inodes[s.files.receipt.value] == s.files.inodes[s.files.receipt.value])
    ensures s.handle ==> Exec(s, actions).value.handle && Exec(s, actions).value.files.receipt == s.files.receipt
  {
    hide ReceiptTrue, ControllerTrue, WatchdogTrue, SignalTrue, LinkedByItsWriter;
    if actions == [] {
      PublishedIsWhole(s);
    } else {
      var before, a := actions[..|actions| - 1], actions[|actions| - 1];
      assert actions == before + [a];
      ReceiptIsWriteOnce(s, before);
      RunKeepsInv(s, before);
      var mid := Exec(s, before).value;
      HandleStays(mid, a);
      if mid.files.receipt == s.files.receipt {
        if TakesReceipt(a) { RemovesReceipt(mid, a); InvStep(mid, a); } else { ReceiptStays(mid, a); }
      } else {
        RemovedForGood(mid, a);
      }
      hide Apply, TakesReceipt;
    }
  }

  lemma PublishedIsWhole(s: State)
    requires Inv(s) && s.files.receipt.Some?
    ensures s.files.receipt.value in s.files.inodes
  {
  }

  lemma HandleStays(s: State, a: Action)
    requires Apply(s, a).Some?
    ensures s.handle ==> Apply(s, a).value.handle
  {
    if a.Write? {
      hide ApplyController, ApplyWatchdog, ApplyObservation, ApplyEndCall;
    } else if Apply(s, a) == ApplyController(s, a) {
      hide ApplyWatchdog, ApplyObservation, ApplyEndCall, ApplyWrite;
    } else {
      hide ApplyController, ApplyWrite;
    }
  }

  /** A run with all the states it passes through. */
  lemma {:induction false} RunAlong(states: seq<State>, run: seq<Action>, n: nat)
    requires n <= |run| && |states| == |run| + 1
    requires forall k :: 0 <= k < |run| ==> Apply(states[k], run[k]) == Some(states[k + 1])
    ensures Exec(states[0], run[..n]) == Some(states[n])
  {
    hide Apply;
    if n > 0 {
      RunAlong(states, run, n - 1);
      assert run[..n][..n - 1] == run[..n - 1];
    }
  }

  function LateStart(): seq<Action> {
    var publish := Write(Watchdog, true);
    [Spawn(true), AnnounceReady(true), DeadlineReached, Observe(Watchdog, Got(Listed(Absent))), EndCall(Watchdog),
     publish, publish, publish, publish, FinishWatch, ArmingFails, PollProcess, Remove(true, true, {})]
  }

  /** Such a removal happens: a watchdog that starts past its deadline finds the instance gone,
      publishes its receipt and exits before it is seen ready; the failed arming removes the receipt. */
  lemma ReceiptCanBeRemoved(target: string)
    ensures var s := Initial(target, Absent);
      && Exec(s, LateStart()[..10]).Some? && Exec(s, LateStart()[..10]).value.files.receipt == Some(Watchdog)
      && Exec(s, LateStart()).Some?
      && var t := Exec(s, LateStart()).value;
      t.watchdog.WatchDone? && t.controller.ArmFailed? && t.files.removed && t.files.receipt.None?
  {
    var states := LateStates(target);
    LateWatching(target);
    LateWriting(target);
    LateAborting(target);
    hide Apply;
    RunAlong(states, LateStart(), 10);
    RunAlong(states, LateStart(), 13);
    assert LateStart()[..13] == LateStart();
  }

  function Scene(target: string, c: ControllerState, w: WatchdogState, ready: bool, f: Files): State {
    State(target, Absent, c, w, false, false, ready, false, f)
  }

  /** The states that run passes through. */
  function LateStates(target: string): seq<State> {
    var gone := Termination(Absent, false);
    var none := Files(map[], {}, None, false);
    var partial := Files(map[Watchdog := Partial], {Watchdog}, None, false);
    var whole := map[Watchdog := Complete(Receipt(target, Absent))];
    [Scene(target, Spawning, NotStarted, false, none),
     Scene(target, AwaitingReady, Starting, false, none),
     Scene(target, AwaitingReady, Waiting, true, none),
     Scene(target, AwaitingReady, WatchCalling(Lookup), true, none),
     Scene(target, AwaitingReady, WatchCalling(Returned(gone)), true, none),
     Scene(target, AwaitingReady, WatchWriting(gone, Creating), true, none),
     Scene(target, AwaitingReady, WatchWriting(gone, Filling), true, partial),
     Scene(target, AwaitingReady, WatchWriting(gone, Linking), true, Files(whole, {Watchdog}, None, false)),
     Scene(target, AwaitingReady, WatchWriting(gone, Unlinking(true)), true, Files(whole, {Watchdog}, Some(Watchdog), false)),
     Scene(target, AwaitingReady, WatchWriting(gone, Written), true, Files(whole, {}, Some(Watchdog), false)),
     Scene(target, AwaitingReady, WatchDone(gone), true, Files(whole, {}, Some(Watchdog), false)),
     Scene(target, Aborting(Polling), WatchDone(gone), true, Files(whole, {}, Some(Watchdog), false)),
     Scene(target, Removing, WatchDone(gone), true, Files(whole, {}, Some(Watchdog), false)),
     Scene(target, ArmFailed, WatchDone(gone), false, Files(whole, {}, None, true))]
  }

  lemma LateWatching(target: string)
    ensures forall k :: 0 <= k < 5 ==> Apply(LateStates(target)[k], LateStart()[k]) == Some(LateStates(target)[k + 1])
  {
    hide ApplyWrite, ApplyAbort, ApplyStop;
  }

  lemma LateWriting(target: string)
    ensures forall k :: 5 <= k < 9 ==> Apply(LateStates(target)[k], LateStart()[k]) == Some(LateStates(target)[k + 1])
  {
    hide ApplyController, ApplyWatchdog, ApplyObservation;
    var complete := Complete(Receipt(target, Absent));
    assert map[Watchdog := Partial][Watchdog := complete] == map[Watchdog := complete];
    var before: map<Who, Content> := map[];
    assert before[Watchdog := Partial] == map[Watchdog := Partial];
    var none: set<Who> := {};
    assert none + {Watchdog} == {Watchdog} && {Watchdog} - {Watchdog} == none;
  }

  lemma LateAborting(target: string)
    ensures forall k :: 9 <= k < 13 ==> Apply(LateStates(target)[k], LateStart()[k]) == Some(LateStates(target)[k + 1])
  {
    hide ApplyWrite, ApplyObservation, ApplyStop;
    var none: set<Who> := {};
    assert none - none == none;
  }

  // ---- No reachable state is beyond rescue ------------------------------------

  /** The watchdog has not exited, been killed or failed to write. */
  predicate OnDuty(s: State) {
    Alive(s.watchdog) && !(s.watchdog.WatchWriting? && s.watchdog.watchWriter.WriteFailed?)
  }

  function CallRank(s: State, p: Phase): nat {
    match p
    case Raised => 15
    case Lookup => 13
    case Request => 12
    case Deciding => 11
    case Poll(_) => if s.instance.Final() then 9 else 10
    case _ => 8
  }

  function Rank(s: State): nat {
    match s.watchdog
    case Starting => 15
    case Waiting => 14
    case Pausing => 14
    case WatchCalling(p) => CallRank(s, p)
    case WatchWriting(_, Creating) => 7
    case WatchWriting(_, Filling) => 6
    case WatchWriting(_, Linking) => 5
    case WatchWriting(_, Unlinking(_)) => 4
    case WatchWriting(_, Reading) => 3
    case WatchWriting(_, _) => 2
    case _ => 0
  }

  /** What a responsive provider and an undisturbed watchdog do next. */
  function Helpful(s: State): Action
    requires OnDuty(s)
  {
    match s.watchdog
    case Starting => AnnounceReady(true)
    case Waiting => DeadlineReached
    case Pausing => RetryAgain
    case WatchCalling(Lookup) => Observe(Watchdog, Got(Listed(s.instance)))
    case WatchCalling(Request) => Observe(Watchdog, Posted(Acknowledged))
    case WatchCalling(Poll(_)) =>
      if s.instance.Final() then Observe(Watchdog, Got(Listed(s.instance))) else Drift(Present(Terminated))
    case WatchCalling(Deciding) => Observe(Watchdog, Timed(false))
    case WatchCalling(_) => EndCall(Watchdog)
    case WatchWriting(_, Written) => FinishWatch
    case _ => Write(Watchdog, true)
  }

  lemma HelpfulStep(s: State)
    requires Inv(s) && OnDuty(s)
    ensures Apply(s, Helpful(s)).Some?
    ensures var t := Apply(s, Helpful(s)).value;
      && t.controller == s.controller && t.target == s.target && Rank(t) < Rank(s)
      && (OnDuty(t) || t.watchdog.WatchDone?)
  {
    hide ControllerTrue, SignalTrue, LinkedByItsWriter;
    if s.watchdog.WatchCalling? {
      HelpfulInCall(s);
    } else if s.watchdog.WatchWriting? {
      HelpfulInWriting(s);
    }
  }

  lemma HelpfulInCall(s: State)
    requires WatchdogTrue(s) && s.watchdog.WatchCalling?
    ensures Apply(s, Helpful(s)).Some?
    ensures var t := Apply(s, Helpful(s)).value;
      t.controller == s.controller && t.target == s.target && Rank(t) < Rank(s) && OnDuty(t)
  {
    hide ApplyController, ApplyWrite;
  }

  lemma HelpfulInWriting(s: State)
    requires WatchdogTrue(s) && ReceiptTrue(s) && s.watchdog.WatchWriting? && OnDuty(s)
    ensures Apply(s, Helpful(s)).Some?
    ensures var t := Apply(s, Helpful(s)).value;
      && t.controller == s.controller && t.target == s.target && Rank(t) < Rank(s)
      && (OnDuty(t) || t.watchdog.WatchDone?)
  {
    hide ApplyController, ApplyObservation, ApplyEndCall;
    if s.watchdog.watchWriter.Written? {
      hide ApplyWrite, WriterStep;
    } else {
      hide ApplyWatchdog;
    }
  }

  lemma {:induction false} ExecCons(s: State, a: Action, rest: seq<Action>)
    requires Apply(s, a).Some?
    ensures Exec(s, [a] + rest) == Exec(Apply(s, a).value, rest)
  {
    var all := [a] + rest;
    if rest == [] {
      assert all[..|all| - 1] == [];
    } else {
      ExecCons(s, a, rest[..|rest| - 1]);
      assert all[..|all| - 1] == [a] + rest[..|rest| - 1];
    }
  }

  /** Wherever the controller stands, crashed or not: while the watchdog is on
      duty, fifteen steps of the watchdog and the provider alone can end the
      instance and publish its receipt. */
  lemma {:induction false} Rescue(s: State) returns (plan: seq<Action>)
    requires Inv(s) && OnDuty(s)
    ensures |plan| <= Rank(s) <= 15
    ensures Exec(s, plan).Some?
    ensures var t := Exec(s, plan).value;
      && t.controller == s.controller && t.watchdog.WatchDone? && t.instance.Final()
      && t.files.receipt.Some? && t.files.receipt.value in t.files.inodes && Acceptable(t.target, t.files.inodes[t.files.receipt.value])
    decreases Rank(s)
  {
    HelpfulStep(s);
    InvStep(s, Helpful(s));
    var t := Apply(s, Helpful(s)).value;
    var rest := [];
    if OnDuty(t) { rest := Rescue(t); }
    ExecCons(s, Helpful(s), rest);
    plan := [Helpful(s)] + rest;
    hide Apply, Helpful, Rank, ControllerTrue, LinkedByItsWriter, SignalTrue;
  }

  // ---- The controller's own way home -------------------------------------------

  /** The controller holds a handle, and nothing it did has failed so far. */
  predicate OnTask(s: State) {
    match s.controller
    case Armed => true
    case Calling(p) => !p.Raised?
    case Writing(_, writer) => !writer.WriteFailed?
    case Stopping(_, _, complete) => complete
    case _ => false
  }

  function TaskRank(s: State): nat {
    match s.controller
    case Armed => 20
    case Calling(Lookup) => 19
    case Calling(Request) => 18
    case Calling(Deciding) => 17
    case Calling(Poll(_)) => if s.instance.Final() then 15 else 16
    case Calling(_) => 14
    case Writing(_, Creating) => 13
    case Writing(_, Filling) => 12
    case Writing(_, Linking) => 11
    case Writing(_, Unlinking(_)) => 10
    case Writing(_, Reading) => 9
    case Writing(_, _) => 8
    case Stopping(Polling, _, _) => 7
    case Stopping(Signalling, _, _) => 6
    case Stopping(Reaping, _, _) => if Alive(s.watchdog) then 5 else 4
    case Stopping(Killing, _, _) => 3
    case _ => 0
  }

  /** What the controller does next when provider, disk and process obey it. */
  function Obeyed(s: State): Action
    requires OnTask(s)
  {
    match s.controller
    case Armed => BeginTermination
    case Calling(Lookup) => Observe(Controller, Got(Listed(s.instance)))
    case Calling(Request) => Observe(Controller, Posted(Acknowledged))
    case Calling(Poll(_)) =>
      if s.instance.Final() then Observe(Controller, Got(Listed(s.instance))) else Drift(Present(Terminated))
    case Calling(Deciding) => Observe(Controller, Timed(false))
    case Calling(_) => EndCall(Controller)
    case Writing(_, Written) => FinishWriting
    case Writing(_, _) => Write(Controller, true)
    case Stopping(Polling, _, _) => PollProcess
    case Stopping(Signalling, _, _) => Signal(true)
    case Stopping(Reaping, _, _) => if Alive(s.watchdog) then Die else Reap(true, true)
    case _ => Kill(true, true)
  }

  predicate Released(s: State) { s.controller.Finished? && s.controller.complete }

  lemma ObeyedStep(s: State)
    requires Inv(s) && OnTask(s)
    ensures Apply(s, Obeyed(s)).Some?
    ensures var t := Apply(s, Obeyed(s)).value;
      t.target == s.target && TaskRank(t) < TaskRank(s) && (OnTask(t) || Released(t))
  {
    hide WatchdogTrue, SignalTrue, LinkedByItsWriter;
    if s.controller.Calling? {
      ObeyedInCall(s);
    } else if s.controller.Writing? {
      ObeyedInWriting(s);
    } else {
      ObeyedOtherwise(s);
    }
    hide *;
  }

  lemma ObeyedOtherwise(s: State)
    requires ControllerTrue(s) && OnTask(s) && (s.controller.Armed? || s.controller.Stopping?)
    ensures Apply(s, Obeyed(s)).Some?
    ensures var t := Apply(s, Obeyed(s)).value;
      t.target == s.target && TaskRank(t) < TaskRank(s) && (OnTask(t) || Released(t))
  {
    hide ApplyWatchdog, ApplyObservation, ApplyEndCall, ApplyWrite;
    if s.controller.Stopping? {
      if s.controller.stage.Polling? || s.controller.stage.Signalling? {} else {}
    }
  }

  lemma ObeyedInCall(s: State)
    requires ControllerTrue(s) && s.controller.Calling? && OnTask(s)
    ensures Apply(s, Obeyed(s)).Some?
    ensures var t := Apply(s, Obeyed(s)).value; t.target == s.target && TaskRank(t) < TaskRank(s) && OnTask(t)
  {
    hide ApplyWatchdog, ApplyWrite, ApplyStop;
  }

  lemma ObeyedInWriting(s: State)
    requires ControllerTrue(s) && ReceiptTrue(s) && s.controller.Writing? && OnTask(s)
    ensures Apply(s, Obeyed(s)).Some?
    ensures var t := Apply(s, Obeyed(s)).value; t.target == s.target && TaskRank(t) < TaskRank(s) && OnTask(t)
  {
    hide ApplyWatchdog, ApplyObservation, ApplyEndCall, ApplyStop;
  }

  /** Whatever the watchdog is doing meanwhile: a controller that holds a handle can, in at
      most twenty steps, end the instance, retain its receipt and release the watchdog. */
  lemma {:induction false} Release(s: State) returns (plan: seq<Action>)
    requires Inv(s) && OnTask(s)
    ensures |plan| <= TaskRank(s) <= 20
    ensures Exec(s, plan).Some?
    ensures var t := Exec(s, plan).value;
      && Released(t) && t.instance.Final() && !Alive(t.watchdog)
      && t.files.receipt.Some? && t.files.receipt.value in t.files.inodes && Acceptable(t.target, t.files.inodes[t.files.receipt.value])
    decreases TaskRank(s)
  {
    ObeyedStep(s);
    InvStep(s, Obeyed(s));
    var t := Apply(s, Obeyed(s)).value;
    var rest := [];
    if OnTask(t) { rest := Release(t); }
    ExecCons(s, Obeyed(s), rest);
    plan := [Obeyed(s)] + rest;
    hide Apply, Obeyed, TaskRank, WatchdogTrue, LinkedByItsWriter, SignalTrue;
  }

  /** Arming ends with a handle when process and disk obey. */
  lemma Arms(target: string, instance: Sight)
    ensures var arming := [Spawn(true), AnnounceReady(true), SeeReady, RecordArmed];
      && Exec(Initial(target, instance), arming).Some?
      && var s := Exec(Initial(target, instance), arming).value; OnTask(s) && OnDuty(s) && s.instance == instance
  {
    var s0 := Initial(target, instance);
    var s1 := Apply(s0, Spawn(true)).value;
    var s2 := Apply(s1, AnnounceReady(true)).value;
    var s3 := Apply(s2, SeeReady).value;
    ExecCons(s0, Spawn(true), [AnnounceReady(true), SeeReady, RecordArmed]);
    ExecCons(s1, AnnounceReady(true), [SeeReady, RecordArmed]);
    ExecCons(s2, SeeReady, [RecordArmed]);
    ExecCons(s3, RecordArmed, []);
    assert Exec(Apply(s3, RecordArmed).value, []).Some?;
    hide Exec;
    assert [SeeReady] + [RecordArmed] == [SeeReady, RecordArmed];
    assert [RecordArmed] + [] == [RecordArmed];
    assert [AnnounceReady(true)] + [SeeReady, RecordArmed] == [AnnounceReady(true), SeeReady, RecordArmed];
    assert [Spawn(true)] + [AnnounceReady(true), SeeReady, RecordArmed] == [Spawn(true), AnnounceReady(true), SeeReady, RecordArmed];
  }

  // ---- What the controller saw, and where it goes --------------------------------

  /** The controller observed the instance gone. */
  ghost predicate Saw(actions: seq<Action>) {
    exists i :: 0 <= i < |actions| && Sighting(actions[i])
  }

  predicate Sighting(a: Action) {
    a.Observe? && a.who.Controller? && SawFinal(a.event)
  }

  lemma SawOneMore(before: seq<Action>, a: Action)
    ensures Saw(before + [a]) <==> Saw(before) || Sighting(a)
    ensures Retain(true) in before + [a] <==> Retain(true) in before || a == Retain(true)
  {
    hide Sighting;
    var all := before + [a];
    assert forall i :: 0 <= i < |before| ==> all[i] == before[i];
    assert all[|before|] == a;
  }

  /** Past a sighting, in order: return, write, stop the watchdog, finish. */
  predicate Onward(c: ControllerState) {
    (c.Calling? && c.phase.Returned?) || c.Writing? || c.Stopping? || c.Finished?
  }

  /** What the actions alone say about where the controller is. */
  predicate Follows(saw: bool, retained: bool, s: State) {
    && (saw ==> Onward(s.controller) || s.controller.Crashed?)
    && (Onward(s.controller) ==> saw)
    && (s.unresolved <==> retained)
    && (retained ==> !saw && (s.controller.Unresolved? || s.controller.Crashed?))
  }

  lemma {:induction false} RunFollows(target: string, instance: Sight, actions: seq<Action>)
    requires Exec(Initial(target, instance), actions).Some?
    ensures Follows(Saw(actions), Retain(true) in actions, Exec(Initial(target, instance), actions).value)
  {
    hide Apply, Inv, Follows, Saw;
    var s0 := Initial(target, instance);
    if actions == [] {
      NothingSeen(s0);
    } else {
      var before, a := actions[..|actions| - 1], actions[|actions| - 1];
      RunFollows(target, instance, before);
      assert actions == before + [a];
      SawOneMore(before, a);
      FollowStep(Saw(before), Retain(true) in before, Exec(s0, before).value, a);
    }
  }

  lemma NothingSeen(s: State)
    requires s.controller.Spawning? && !s.unresolved
    ensures Follows(Saw([]), Retain(true) in [], s)
  {
  }

  lemma FollowStep(saw: bool, retained: bool, s: State, a: Action)
    requires Follows(saw, retained, s) && Apply(s, a).Some?
    ensures Follows(saw || Sighting(a), retained || a == Retain(true), Apply(s, a).value)
  {
    if a.Observe? {
      FollowObservation(saw, retained, s, a.who, a.event);
    } else if Apply(s, a) == ApplyController(s, a) {
      FollowController(saw, retained, s, a);
    } else {
      FollowOthers(saw, retained, s, a);
    }
    hide Apply, Follows;
  }

  lemma FollowObservation(saw: bool, retained: bool, s: State, who: Who, e: Event)
    requires Follows(saw, retained, s) && ApplyObservation(s, who, e).Some?
    ensures Follows(saw || Sighting(Observe(who, e)), retained, ApplyObservation(s, who, e).value)
  {
    if who.Controller? { SightingReturns(s.controller.phase, e); }
    hide Next;
  }

  lemma SightingReturns(p: Phase, e: Event)
    requires !Next(p, e).Impossible?
    ensures !p.Returned? && (Next(p, e).Returned? <==> SawFinal(e))
  {
  }

  lemma FollowController(saw: bool, retained: bool, s: State, a: Action)
    requires Follows(saw, retained, s) && ApplyController(s, a).Some? && !a.Observe?
    ensures Follows(saw || Sighting(a), retained || a == Retain(true), ApplyController(s, a).value)
  {
    if a.Crash? {
      hide ApplyStop, ApplyAbort;
    } else if s.controller.Stopping? {
      FollowStop(saw, retained, s, a);
    } else if s.controller.Aborting? {
      FollowAbort(saw, retained, s, a);
    } else {
      hide ApplyStop, ApplyAbort;
    }
  }

  lemma FollowStop(saw: bool, retained: bool, s: State, a: Action)
    requires Follows(saw, retained, s) && s.controller.Stopping? && ApplyStop(s, s.controller.stage, a).Some?
    ensures Follows(saw || Sighting(a), retained || a == Retain(true), ApplyStop(s, s.controller.stage, a).value)
  {
  }

  lemma FollowAbort(saw: bool, retained: bool, s: State, a: Action)
    requires Follows(saw, retained, s) && s.controller.Aborting? && ApplyAbort(s, s.controller.abortStage, a).Some?
    ensures Follows(saw || Sighting(a), retained || a == Retain(true), ApplyAbort(s, s.controller.abortStage, a).value)
  {
  }

  lemma FollowOthers(saw: bool, retained: bool, s: State, a: Action)
    requires Follows(saw, retained, s) && Apply(s, a).Some? && !a.Observe? && Apply(s, a) != ApplyController(s, a)
    ensures Follows(saw || Sighting(a), retained || a == Retain(true), Apply(s, a).value)
  {
    hide ApplyController, WriterStep;
  }

  /** Unresolved termination is retained only if the controller never saw the instance gone, and
      the marker is there exactly if its writing succeeded.  Once it saw that, whatever its writes do,
      the controller is on its way to the end of the disarming, unless it crashes. */
  lemma UnresolvedMeansUnseen(target: string, instance: Sight, actions: seq<Action>)
    requires Exec(Initial(target, instance), actions).Some?
    ensures var s := Exec(Initial(target, instance), actions).value;
      && (s.controller.Retaining? || s.controller.Unresolved? || s.unresolved ==> !Saw(actions))
      && (Saw(actions) ==> Onward(s.controller) || s.controller.Crashed?)
      && (Onward(s.controller) ==> Saw(actions))
      && (s.unresolved <==> Retain(true) in actions)
  {
    RunFollows(target, instance, actions);
    hide Exec, Saw;
  }

  /** The result a controller past the sighting carries. */
  function ResultOf(c: ControllerState): Termination
    requires Onward(c)
  {
    match c
    case Calling(Returned(result)) => result
    case Writing(result, _) => result
    case Stopping(_, result, _) => result
    case Finished(result, _) => result
  }

  /** Steps that remain, at most, whether or not writes succeed. */
  function DisarmRank(s: State): nat {
    match s.controller
    case Calling(_) => 13
    case Writing(_, Creating) => 12
    case Writing(_, Filling) => 11
    case Writing(_, Linking) => 10
    case Writing(_, Unlinking(_)) => 9
    case Writing(_, Reading) => 8
    case Writing(_, _) => 7
    case Stopping(Polling, _, _) => 6
    case Stopping(Signalling, _, _) => 5
    case Stopping(Reaping, _, _) => if Alive(s.watchdog) then 4 else 3
    case Stopping(Killing, _, _) => 2
    case _ => 0
  }

  /** The next step; a write goes as `ok` says. */
  function Disarming(s: State, ok: bool): Action
    requires Onward(s.controller) && !s.controller.Finished?
  {
    match s.controller
    case Calling(_) => EndCall(Controller)
    case Writing(_, Written) => FinishWriting
    case Writing(_, WriteFailed) => FinishWriting
    case Writing(_, _) => Write(Controller, ok)
    case Stopping(Polling, _, _) => PollProcess
    case Stopping(Signalling, _, _) => Signal(true)
    case Stopping(Reaping, _, _) => if Alive(s.watchdog) then Die else Reap(true, true)
    case _ => Kill(true, true)
  }

  lemma DisarmStep(s: State, ok: bool)
    requires Inv(s) && Onward(s.controller) && !s.controller.Finished?
    ensures Apply(s, Disarming(s, ok)).Some?
    ensures var t := Apply(s, Disarming(s, ok)).value;
      && DisarmRank(t) < DisarmRank(s) && Onward(t.controller) && ResultOf(t.controller) == ResultOf(s.controller)
      && (t.controller.Stopping? && !s.controller.Stopping? ==> t.controller.stage.Polling?)
      && (t.controller.Finished? ==> s.controller.Stopping? && !Alive(t.watchdog))
  {
    hide WatchdogTrue, SignalTrue, LinkedByItsWriter, RemovalTrue;
    if s.controller.Writing? {
      DisarmWriting(s, ok);
    } else if s.controller.Stopping? {
      DisarmStopping(s, ok);
    } else {
      DisarmReturned(s, ok);
    }
    hide *;
  }

  lemma DisarmWriting(s: State, ok: bool)
    requires ControllerTrue(s) && s.controller.Writing?
    ensures Apply(s, Disarming(s, ok)).Some?
    ensures var t := Apply(s, Disarming(s, ok)).value;
      && DisarmRank(t) < DisarmRank(s) && Onward(t.controller) && ResultOf(t.controller) == ResultOf(s.controller)
      && (t.controller.Stopping? ==> t.controller.stage.Polling?) && !t.controller.Finished?
  {
    hide ApplyWatchdog, ApplyObservation, ApplyEndCall, ApplyStop, ApplyAbort;
    if s.controller.writer.Written? || s.controller.writer.WriteFailed? { hide ApplyWrite; } else { hide ApplyController; }
  }

  lemma DisarmReturned(s: State, ok: bool)
    requires s.controller.Calling? && s.controller.phase.Returned?
    ensures Apply(s, Disarming(s, ok)).Some?
    ensures var t := Apply(s, Disarming(s, ok)).value;
      t.controller.Writing? && DisarmRank(t) < DisarmRank(s) && ResultOf(t.controller) == ResultOf(s.controller)
  {
    hide ApplyWatchdog, ApplyObservation, ApplyWrite, ApplyController;
  }

  lemma DisarmStopping(s: State, ok: bool)
    requires s.controller.Stopping?
    ensures Apply(s, Disarming(s, ok)).Some?
    ensures var t := Apply(s, Disarming(s, ok)).value;
      && DisarmRank(t) < DisarmRank(s) && Onward(t.controller) && ResultOf(t.controller) == ResultOf(s.controller)
      && (t.controller.Finished? ==> !Alive(t.watchdog))
  {
    hide ApplyWatchdog, ApplyObservation, ApplyWrite, ApplyAbort, ApplyEndCall;
  }

  /** However its receipt fares: a controller that saw the instance gone can finish with that very
      result in at most thirteen steps, with the watchdog stopped by then. */
  lemma {:induction false} Disarms(s: State, ok: bool) returns (plan: seq<Action>)
    requires Inv(s) && Onward(s.controller)
    ensures |plan| <= 13 && |plan| <= DisarmRank(s)
    ensures Exec(s, plan).Some?
    ensures var t := Exec(s, plan).value;
      && t.controller.Finished? && ResultOf(t.controller) == ResultOf(s.controller)
      && (!s.controller.Finished? ==> !Alive(t.watchdog))
    ensures !s.controller.Finished? && !s.controller.Stopping? ==> PollProcess in plan
    ensures s.controller.Stopping? && s.controller.stage.Polling? ==> PollProcess in plan
    decreases DisarmRank(s)
  {
    DisarmRankBound(s);
    if s.controller.Finished? {
      plan := [];
    } else {
      var a := Disarming(s, ok);
      DisarmStep(s, ok);
      InvStep(s, a);
      var t := Apply(s, a).value;
      var rest := Disarms(t, ok);
      ExecCons(s, a, rest);
      plan := [a] + rest;
      hide Apply, Disarming, DisarmRank, ResultOf, ControllerTrue, WatchdogTrue, LinkedByItsWriter, SignalTrue, Inv;
    }
  }

  lemma DisarmRankBound(s: State)
    ensures DisarmRank(s) <= 13
  {
  }

  // ---- What receipts and results record --------------------------------------------

  /** `who` was shown the instance in this state. */
  predicate Shown(actions: seq<Action>, who: Who, sight: Sight) { Observe(who, Got(Listed(sight))) in actions }

  /** Results and receipts name only what their owner was shown. */
  ghost predicate Honest(actions: seq<Action>, s: State) {
    && (Onward(s.controller) ==> Shown(actions, Controller, ResultOf(s.controller).final))
    && (Carries(s.watchdog) ==> Shown(actions, Watchdog, ResultIn(s.watchdog).final))
    && forall who :: who in s.files.inodes ==> HonestFile(actions, s.target, who, s.files.inodes[who])
  }

  predicate HonestFile(actions: seq<Action>, target: string, who: Who, c: Content) {
    c.Complete? ==> c.receipt.instance == target && Shown(actions, who, c.receipt.final)
  }

  predicate Carries(w: WatchdogState) {
    (w.WatchCalling? && w.watchPhase.Returned?) || w.WatchWriting? || w.WatchDone?
  }

  function ResultIn(w: WatchdogState): Termination
    requires Carries(w)
  {
    match w
    case WatchCalling(Returned(result)) => result
    case WatchWriting(result, _) => result
    case WatchDone(result) => result
  }

  lemma {:induction false} RunIsHonest(target: string, instance: Sight, actions: seq<Action>)
    requires Exec(Initial(target, instance), actions).Some?
    ensures Honest(actions, Exec(Initial(target, instance), actions).value)
  {
    hide Apply, Honest;
    var s0 := Initial(target, instance);
    if actions == [] {
      NothingRecorded(s0);
    } else {
      var before, a := actions[..|actions| - 1], actions[|actions| - 1];
      RunIsHonest(target, instance, before);
      assert actions == before + [a];
      MoreShown(before, a, Exec(s0, before).value);
      HonestStep(before + [a], Exec(s0, before).value, a);
    }
  }

  lemma NothingRecorded(s: State)
    requires s.controller.Spawning? && s.watchdog.NotStarted? && s.files.inodes == map[]
    ensures Honest([], s)
  {
  }

  lemma MoreShown(before: seq<Action>, a: Action, s: State)
    requires Honest(before, s)
    ensures Honest(before + [a], s) && a in before + [a]
  {
    assert forall b :: b in before ==> b in before + [a];
  }

  lemma HonestStep(actions: seq<Action>, s: State, a: Action)
    requires Honest(actions, s) && Apply(s, a).Some? && a in actions
    ensures Honest(actions, Apply(s, a).value)
  {
    match a
    case Observe(who, e) => HonestObservation(actions, s, who, e);
    case Write(who, ok) => HonestWrite(actions, s, who, ok);
    case EndCall(who) => HonestEndCall(actions, s, who);
    case _ => HonestOtherwise(actions, s, a);
    hide Apply, Honest;
  }

  lemma HonestObservation(actions: seq<Action>, s: State, who: Who, e: Event)
    requires Honest(actions, s) && ApplyObservation(s, who, e).Some? && Observe(who, e) in actions
    ensures Honest(actions, ApplyObservation(s, who, e).value)
  {
    ReturnsTheSight(if who.Controller? then s.controller.phase else s.watchdog.watchPhase, e);
    hide Next, HonestFile;
  }

  lemma ReturnsTheSight(p: Phase, e: Event)
    ensures Next(p, e).Returned? ==> e == Got(Listed(Next(p, e).result.final))
  {
  }

  lemma HonestWrite(actions: seq<Action>, s: State, who: Who, ok: bool)
    requires Honest(actions, s) && ApplyWrite(s, who, ok).Some?
    ensures Honest(actions, ApplyWrite(s, who, ok).value)
  {
    var result := if who.Controller? then s.controller.result else s.watchdog.watchResult;
    var writer := if who.Controller? then s.controller.writer else s.watchdog.watchWriter;
    WritesItsResult(s.target, s.files, who, result, writer, ok);
    hide WriterStep;
  }

  lemma WritesItsResult(target: string, f: Files, who: Who, result: Termination, writer: Writer, ok: bool)
    requires WriterStep(target, f, who, result, writer, ok).Some?
    ensures var g := WriterStep(target, f, who, result, writer, ok).value.0;
      forall other :: other in g.inodes ==>
        || (other in f.inodes && g.inodes[other] == f.inodes[other])
        || (other == who && (g.inodes[other].Complete? ==> g.inodes[other].receipt == Receipt(target, result.final)))
  {
  }

  lemma HonestEndCall(actions: seq<Action>, s: State, who: Who)
    requires Honest(actions, s) && ApplyEndCall(s, who).Some?
    ensures Honest(actions, ApplyEndCall(s, who).value)
  {
    hide HonestFile, Shown;
  }

  lemma HonestOtherwise(actions: seq<Action>, s: State, a: Action)
    requires Honest(actions, s) && Apply(s, a).Some? && !a.Observe? && !a.Write? && !a.EndCall?
    ensures Honest(actions, Apply(s, a).value)
  {
    NewNothing(s, a);
    hide Apply, HonestFile, Shown;
  }

  /** Only sightings, writes and ends of calls bring results or file contents. */
  predicate Inherits(s: State, t: State) {
    && t.target == s.target && t.files.inodes == s.files.inodes
    && (Onward(t.controller) ==> Onward(s.controller) && ResultOf(t.controller) == ResultOf(s.controller))
    && (Carries(t.watchdog) ==> Carries(s.watchdog) && ResultIn(t.watchdog) == ResultIn(s.watchdog))
  }

  lemma NewNothing(s: State, a: Action)
    requires Apply(s, a).Some? && !a.Observe? && !a.Write? && !a.EndCall?
    ensures Inherits(s, Apply(s, a).value)
  {
    hide ApplyController, ApplyWatchdog, Inherits;
    if a.Drift? || a.Die? {
      InheritsSame(s, Apply(s, a).value);
    } else if Apply(s, a) == ApplyWatchdog(s, a) {
      WatchdogInherits(s, a);
    } else {
      ControllerInherits(s, a);
    }
  }

  lemma InheritsSame(s: State, t: State)
    requires t.target == s.target && t.files == s.files && t.controller == s.controller
    requires t.watchdog == s.watchdog || t.watchdog.Stopped?
    ensures Inherits(s, t)
  {
  }

  lemma WatchdogInherits(s: State, a: Action)
    requires ApplyWatchdog(s, a).Some?
    ensures Inherits(s, ApplyWatchdog(s, a).value)
  {
  }

  lemma ControllerInherits(s: State, a: Action)
    requires ApplyController(s, a).Some?
    ensures Inherits(s, ApplyController(s, a).value)
  {
    if s.controller.Stopping? && !a.Crash? {
      StopInherits(s, a);
    } else if s.controller.Aborting? && !a.Crash? {
      AbortInherits(s, a);
    }
    hide ApplyStop, ApplyAbort;
  }

  lemma StopInherits(s: State, a: Action)
    requires s.controller.Stopping? && ApplyStop(s, s.controller.stage, a).Some?
    ensures Inherits(s, ApplyStop(s, s.controller.stage, a).value)
  {
  }

  lemma AbortInherits(s: State, a: Action)
    requires s.controller.Aborting? && ApplyAbort(s, s.controller.abortStage, a).Some?
    ensures Inherits(s, ApplyAbort(s, s.controller.abortStage, a).value)
  {
  }

  /** The receipt on disk names this instance and a final status its writer was shown; so does the
      result a finished controller or watchdog returns. */
  lemma ReceiptsRecordSightings(target: string, instance: Sight, actions: seq<Action>)
    requires Exec(Initial(target, instance), actions).Some?
    ensures var s := Exec(Initial(target, instance), actions).value;
      && (s.files.receipt.Some? ==>
            && s.files.receipt.value in s.files.inodes
            && var c := s.files.inodes[s.files.receipt.value];
            && c.Complete? && c.receipt.instance == s.target && c.receipt.final.Final()
            && Observe(s.files.receipt.value, Got(Listed(c.receipt.final))) in actions)
      && (s.controller.Finished? ==> Observe(Controller, Got(Listed(s.controller.result.final))) in actions)
      && (s.watchdog.WatchDone? ==> Observe(Watchdog, Got(Listed(s.watchdog.watchResult.final))) in actions)
  {
    RunIsHonest(target, instance, actions);
    RunKeepsInv(Initial(target, instance), actions);
    hide Exec, ControllerTrue, WatchdogTrue, SignalTrue, LinkedByItsWriter, RemovalTrue;
  }

  // ---- What arming and its failure mean ----------------------------------------------

  /** The actions that leave a process running that should have stopped. */
  predicate Spares(a: Action) { a == Signal(false) || a == Reap(true, false) || (a.Kill? && !a.ok) }

  ghost predicate Spared(actions: seq<Action>) {
    exists i :: 0 <= i < |actions| && Spares(actions[i])
  }

  lemma SparedOneMore(before: seq<Action>, a: Action)
    ensures Spared(before + [a]) <==> Spared(before) || Spares(a)
  {
    hide Spares;
    var all := before + [a];
    assert forall i :: 0 <= i < |before| ==> all[i] == before[i];
    assert all[|before|] == a;
  }

  /** What the actions alone say about readiness, the handle, a failed arming and temporary files. */
  predicate Arming(announced: bool, seen: bool, recorded: bool, spared: bool, s: State) {
    && (s.controller.Spawning? ==> s.watchdog.NotStarted?)
    && (s.ready ==> announced)
    && (s.controller.RecordingArmed? || s.handle ==> seen)
    && (s.handle ==> recorded)
    && (s.controller.Removing? ==> !Alive(s.watchdog))
    && (s.controller.ArmFailed? ==> !Alive(s.watchdog) || spared)
    && (Controller in s.files.temporaries ==> s.controller.Crashed? || (s.controller.Writing? && Unfinished(s.controller.writer)))
    && (Watchdog in s.files.temporaries ==> s.watchdog.Stopped? || (s.watchdog.WatchWriting? && Unfinished(s.watchdog.watchWriter)))
  }

  predicate Unfinished(w: Writer) { w.Filling? || w.Linking? || w.Unlinking? }

  ghost predicate ArmingOf(actions: seq<Action>, s: State) {
    Arming(AnnounceReady(true) in actions, SeeReady in actions, RecordArmed in actions, Spared(actions), s)
  }

  lemma {:induction false} RunArms(target: string, instance: Sight, actions: seq<Action>)
    requires Exec(Initial(target, instance), actions).Some?
    ensures ArmingOf(actions, Exec(Initial(target, instance), actions).value)
  {
    hide Apply, Arming, Spared;
    var s0 := Initial(target, instance);
    if actions == [] {
      NothingArmed(s0);
    } else {
      var before, a := actions[..|actions| - 1], actions[|actions| - 1];
      RunArms(target, instance, before);
      assert actions == before + [a];
      SparedOneMore(before, a);
      assert forall b :: b in before + [a] <==> b in before || b == a;
      ArmingStep(AnnounceReady(true) in before, SeeReady in before, RecordArmed in before, Spared(before), Exec(s0, before).value, a);
    }
  }

  lemma NothingArmed(s: State)
    requires s.controller.Spawning? && s.watchdog.NotStarted? && s.files.temporaries == {} && !s.ready && !s.handle
    ensures ArmingOf([], s)
  {
  }

  lemma ArmingStep(announced: bool, seen: bool, recorded: bool, spared: bool, s: State, a: Action)
    requires Arming(announced, seen, recorded, spared, s) && Apply(s, a).Some?
    ensures Arming(announced || a == AnnounceReady(true), seen || a == SeeReady, recorded || a == RecordArmed,
                   spared || Spares(a), Apply(s, a).value)
  {
    hide ApplyController, ApplyWatchdog, ApplyObservation, ApplyEndCall, ApplyWrite, Arming;
    if a.Write? {
      ArmingWrite(announced, seen, recorded, spared, s, a.who, a.ok);
    } else if a.Observe? {
      ArmingObserved(announced, seen, recorded, spared, s, a.who, a.event);
    } else if a.EndCall? {
      ArmingEndCall(announced, seen, recorded, spared, s, a.who);
    } else if a.Drift? || a.Die? {
      ArmingElsewhere(announced, seen, recorded, spared || Spares(a), s, Apply(s, a).value);
    } else if Apply(s, a) == ApplyWatchdog(s, a) {
      ArmingWatchdog(announced, seen, recorded, spared, s, a);
    } else {
      ArmingController(announced, seen, recorded, spared, s, a);
    }
  }

  lemma ArmingElsewhere(announced: bool, seen: bool, recorded: bool, spared: bool, s: State, t: State)
    requires Arming(announced, seen, recorded, spared, s)
    requires t == s.(instance := t.instance, watchdog := t.watchdog)
    requires t.watchdog == s.watchdog || (t.watchdog.Stopped? && Alive(s.watchdog))
    ensures Arming(announced, seen, recorded, spared, t)
  {
  }

  lemma ArmingWrite(announced: bool, seen: bool, recorded: bool, spared: bool, s: State, who: Who, ok: bool)
    requires Arming(announced, seen, recorded, spared, s) && ApplyWrite(s, who, ok).Some?
    ensures Arming(announced, seen, recorded, spared, ApplyWrite(s, who, ok).value)
  {
    var result := if who.Controller? then s.controller.result else s.watchdog.watchResult;
    var writer := if who.Controller? then s.controller.writer else s.watchdog.watchWriter;
    WriterTidies(s.target, s.files, who, result, writer, ok);
    hide WriterStep, Unfinished;
  }

  lemma WriterTidies(target: string, f: Files, who: Who, result: Termination, writer: Writer, ok: bool)
    requires WriterStep(target, f, who, result, writer, ok).Some? && (who in f.temporaries ==> Unfinished(writer))
    ensures var (g, w) := WriterStep(target, f, who, result, writer, ok).value;
      && (who in g.temporaries ==> Unfinished(w))
      && forall other :: other != who ==> (other in g.temporaries <==> other in f.temporaries)
  {
  }

  lemma ArmingObserved(announced: bool, seen: bool, recorded: bool, spared: bool, s: State, who: Who, e: Event)
    requires Arming(announced, seen, recorded, spared, s) && ApplyObservation(s, who, e).Some?
    ensures Arming(announced, seen, recorded, spared, ApplyObservation(s, who, e).value)
  {
    hide Next;
  }

  lemma ArmingEndCall(announced: bool, seen: bool, recorded: bool, spared: bool, s: State, who: Who)
    requires Arming(announced, seen, recorded, spared, s) && ApplyEndCall(s, who).Some?
    ensures Arming(announced, seen, recorded, spared, ApplyEndCall(s, who).value)
  {
  }

  lemma ArmingWatchdog(announced: bool, seen: bool, recorded: bool, spared: bool, s: State, a: Action)
    requires Arming(announced, seen, recorded, spared, s) && ApplyWatchdog(s, a).Some?
    ensures Arming(announced || a == AnnounceReady(true), seen || a == SeeReady, recorded || a == RecordArmed,
                   spared || Spares(a), ApplyWatchdog(s, a).value)
  {
  }

  lemma ArmingController(announced: bool, seen: bool, recorded: bool, spared: bool, s: State, a: Action)
    requires Arming(announced, seen, recorded, spared, s) && ApplyController(s, a).Some?
    ensures Arming(announced, seen || a == SeeReady, recorded || a == RecordArmed, spared || Spares(a), ApplyController(s, a).value)
  {
    if a.Crash? || !(s.controller.Stopping? || s.controller.Aborting? || s.controller.Removing?) {
      ArmingStraight(announced, seen, recorded, spared, s, a);
    } else if s.controller.Stopping? {
      ArmingStop(announced, seen, recorded, spared, s, a);
    } else if s.controller.Aborting? {
      ArmingAbort(announced, seen, recorded, spared, s, a);
    } else {
      ArmingRemove(announced, seen, recorded, spared, s, a);
    }
    hide ApplyStop, ApplyAbort, Unfinished, Arming, Spares;
  }

  lemma ArmingStraight(announced: bool, seen: bool, recorded: bool, spared: bool, s: State, a: Action)
    requires Arming(announced, seen, recorded, spared, s) && ApplyController(s, a).Some?
    requires a.Crash? || !(s.controller.Stopping? || s.controller.Aborting? || s.controller.Removing?)
    ensures Arming(announced, seen || a == SeeReady, recorded || a == RecordArmed, spared || Spares(a), ApplyController(s, a).value)
  {
    if a.Crash? {
      ArmingCrash(announced, seen, recorded, spared, s);
    } else {
      ArmingUncrashed(announced, seen, recorded, spared, s, a);
    }
    hide ApplyStop, ApplyAbort, Arming, Spares;
  }

  lemma ArmingCrash(announced: bool, seen: bool, recorded: bool, spared: bool, s: State)
    requires Arming(announced, seen, recorded, spared, s)
    ensures Arming(announced, seen, recorded, spared, s.(controller := Crashed))
  {
  }

  lemma ArmingUncrashed(announced: bool, seen: bool, recorded: bool, spared: bool, s: State, a: Action)
    requires Arming(announced, seen, recorded, spared, s) && ApplyController(s, a).Some?
    requires !a.Crash? && !(s.controller.Stopping? || s.controller.Aborting? || s.controller.Removing?)
    ensures Arming(announced, seen || a == SeeReady, recorded || a == RecordArmed, spared || Spares(a), ApplyController(s, a).value)
  {
    hide ApplyStop, ApplyAbort;
  }

  lemma ArmingRemove(announced: bool, seen: bool, recorded: bool, spared: bool, s: State, a: Action)
    requires Arming(announced, seen, recorded, spared, s) && ApplyController(s, a).Some? && s.controller.Removing? && !a.Crash?
    ensures Arming(announced, seen || a == SeeReady, recorded || a == RecordArmed, spared || Spares(a), ApplyController(s, a).value)
  {
    hide ApplyStop, ApplyAbort, Unfinished;
  }

  lemma ArmingStop(announced: bool, seen: bool, recorded: bool, spared: bool, s: State, a: Action)
    requires Arming(announced, seen, recorded, spared, s) && s.controller.Stopping? && ApplyStop(s, s.controller.stage, a).Some?
    ensures Arming(announced || a == AnnounceReady(true), seen || a == SeeReady, recorded || a == RecordArmed,
                   spared || Spares(a), ApplyStop(s, s.controller.stage, a).value)
  {
    StopChanges(s, a);
    hide ApplyStop, Unfinished, Alive;
  }

  lemma StopChanges(s: State, a: Action)
    requires s.controller.Stopping? && ApplyStop(s, s.controller.stage, a).Some?
    ensures var t := ApplyStop(s, s.controller.stage, a).value;
      && (t.controller.Stopping? || t.controller.Finished?) && (t.watchdog == s.watchdog || t.watchdog.Stopped?)
      && t.files == s.files && t.ready == s.ready && t.handle == s.handle
  {
  }

  lemma ArmingAbort(announced: bool, seen: bool, recorded: bool, spared: bool, s: State, a: Action)
    requires Arming(announced, seen, recorded, spared, s) && s.controller.Aborting? && ApplyAbort(s, s.controller.abortStage, a).Some?
    ensures Arming(announced, seen, recorded, spared || Spares(a), ApplyAbort(s, s.controller.abortStage, a).value)
  {
    hide Unfinished;
  }

  /** A handle means a watchdog that had announced itself and was seen alive, and a record of that.
      After a failed arming it lives only if a system call to stop it failed.  Temporary files remain
      only of writers cut off. */
  lemma HandleMeans(target: string, instance: Sight, actions: seq<Action>)
    requires Exec(Initial(target, instance), actions).Some?
    ensures var s := Exec(Initial(target, instance), actions).value;
      && (s.handle ==> SeeReady in actions && RecordArmed in actions)
      && (s.controller.ArmFailed? && Alive(s.watchdog) ==>
            exists a :: a in actions && (a == Signal(false) || a == Reap(true, false) || (a.Kill? && !a.ok)))
      && (s.controller.Finished? ==> Controller !in s.files.temporaries)
      && (s.watchdog.WatchDone? || s.watchdog.WatchFailed? ==> Watchdog !in s.files.temporaries)
    ensures Exec(Initial(target, instance), actions + [SeeReady]).Some? ==>
      Alive(Exec(Initial(target, instance), actions).value.watchdog) && AnnounceReady(true) in actions
  {
    RunArms(target, instance, actions);
    var s0 := Initial(target, instance);
    if Spared(actions) {
      var i :| 0 <= i < |actions| && Spares(actions[i]);
      assert actions[i] in actions;
    }
    if Exec(s0, actions + [SeeReady]).Some? { LastStep(s0, actions, SeeReady); }
    SeesTheLiving(Exec(s0, actions).value);
    hide Exec, Apply;
  }

  lemma LastStep(s0: State, before: seq<Action>, a: Action)
    requires Exec(s0, before).Some?
    ensures Exec(s0, before + [a]) == Apply(Exec(s0, before).value, a)
  {
    hide Apply;
    assert (before + [a])[..|before|] == before;
  }

  lemma SeesTheLiving(s: State)
    ensures Apply(s, SeeReady).Some? ==> Alive(s.watchdog) && s.ready
  {
  }

  // ---- When the disarming is complete ----------------------------------------------

  /** A write that reports an error, or a watchdog that could not be stopped. */
  predicate Flaw(s: State, a: Action) {
    || (a == Write(Controller, false) && s.controller.Writing? && s.controller.writer != Unlinking(false))
    || (s.controller.Stopping? && (
          || (a == Signal(false) && Alive(s.watchdog))
          || a == Reap(true, false)
          || (a.Kill? && !a.ok)))
  }

  ghost predicate Flawed(s0: State, actions: seq<Action>) {
    exists k :: 0 <= k < |actions| && FlawAt(s0, actions, k)
  }

  ghost predicate FlawAt(s0: State, actions: seq<Action>, k: nat)
    requires k < |actions|
  {
    Exec(s0, actions[..k]).Some? && Flaw(Exec(s0, actions[..k]).value, actions[k])
  }

  lemma FlawedOneMore(s0: State, before: seq<Action>, a: Action)
    requires Exec(s0, before).Some?
    ensures Flawed(s0, before + [a]) <==> Flawed(s0, before) || Flaw(Exec(s0, before).value, a)
  {
    hide Exec, Flaw;
    var all := before + [a];
    assert all[..|before|] == before;
    forall k | 0 <= k < |before| ensures FlawAt(s0, all, k) <==> FlawAt(s0, before, k) { assert all[..k] == before[..k]; }
    if Flaw(Exec(s0, before).value, a) { assert FlawAt(s0, all, |before|); }
    if Flawed(s0, before) {
      var k :| 0 <= k < |before| && FlawAt(s0, before, k);
      assert FlawAt(s0, all, k);
    }
  }

  predicate Reported(flawed: bool, c: ControllerState) {
    match c
    case Crashed => true
    case Writing(_, writer) => flawed == writer.WriteFailed?
    case Stopping(_, _, complete) => flawed == !complete
    case Finished(_, complete) => flawed == !complete
    case _ => !flawed
  }

  lemma {:induction false} RunReports(target: string, instance: Sight, actions: seq<Action>)
    requires Exec(Initial(target, instance), actions).Some?
    ensures Reported(Flawed(Initial(target, instance), actions), Exec(Initial(target, instance), actions).value.controller)
  {
    hide Apply, Inv, Reported, Flawed, Flaw;
    var s0 := Initial(target, instance);
    if actions == [] {
      NothingFlawed(s0);
    } else {
      var before, a := actions[..|actions| - 1], actions[|actions| - 1];
      RunReports(target, instance, before);
      RunKeepsInv(s0, before);
      assert actions == before + [a];
      FlawedOneMore(s0, before, a);
      ReportedStep(Flawed(s0, before), Exec(s0, before).value, a);
    }
  }

  lemma NothingFlawed(s: State)
    requires s.controller.Spawning?
    ensures Reported(Flawed(s, []), s.controller)
  {
  }

  lemma ReportedStep(flawed: bool, s: State, a: Action)
    requires Inv(s) && Reported(flawed, s.controller) && Apply(s, a).Some?
    ensures Reported(flawed || Flaw(s, a), Apply(s, a).value.controller)
  {
    hide ApplyController, ApplyWatchdog, ApplyObservation, ApplyEndCall, ApplyWrite, Inv, Reported, Flaw;
    if a.Write? {
      ReportedWrite(flawed, s, a.who, a.ok);
    } else if a.Observe? || a.EndCall? {
      ReportedCall(flawed, s, a);
    } else if Apply(s, a) == ApplyController(s, a) {
      ReportedController(flawed, s, a);
    } else {
      ReportedElsewhere(flawed, s, a);
    }
  }

  lemma ReportedElsewhere(flawed: bool, s: State, a: Action)
    requires Reported(flawed, s.controller) && Apply(s, a).Some? && (a.Drift? || a.Die? || Apply(s, a) == ApplyWatchdog(s, a))
    requires !a.Write? && !a.Observe? && !a.EndCall? && Apply(s, a) != ApplyController(s, a)
    ensures Reported(flawed || Flaw(s, a), Apply(s, a).value.controller)
  {
    hide ApplyController;
  }

  lemma ReportedCall(flawed: bool, s: State, a: Action)
    requires Reported(flawed, s.controller) && Apply(s, a).Some? && (a.Observe? || a.EndCall?)
    ensures Reported(flawed || Flaw(s, a), Apply(s, a).value.controller)
  {
    hide Next, ApplyController, ApplyWatchdog, ApplyWrite;
  }

  lemma ReportedWrite(flawed: bool, s: State, who: Who, ok: bool)
    requires Inv(s) && Reported(flawed, s.controller) && ApplyWrite(s, who, ok).Some?
    ensures Reported(flawed || Flaw(s, Write(who, ok)), ApplyWrite(s, who, ok).value.controller)
  {
    hide LinkedByItsWriter, SignalTrue, RemovalTrue, WatchdogTrue;
    if who.Controller? {
      WriterReports(s.target, s.files, who, s.controller.result, s.controller.writer, ok);
    }
    hide WriterStep;
  }

  lemma WriterReports(target: string, f: Files, who: Who, result: Termination, writer: Writer, ok: bool)
    requires WriterStep(target, f, who, result, writer, ok).Some?
    requires WriterTrue(target, f, who, writer) && Whole(target, f)
    ensures WriterStep(target, f, who, result, writer, ok).value.1.WriteFailed? <==> !ok && writer != Unlinking(false)
    ensures !writer.WriteFailed?
  {
  }

  lemma ReportedController(flawed: bool, s: State, a: Action)
    requires Reported(flawed, s.controller) && ApplyController(s, a).Some? && !a.Write?
    ensures Reported(flawed || Flaw(s, a), ApplyController(s, a).value.controller)
  {
    if s.controller.Stopping? && !a.Crash? {
      ReportedStop(flawed, s, a);
    }
    hide ApplyStop;
  }

  lemma ReportedStop(flawed: bool, s: State, a: Action)
    requires Reported(flawed, s.controller) && s.controller.Stopping? && ApplyStop(s, s.controller.stage, a).Some? && !a.Write?
    ensures Reported(flawed || Flaw(s, a), ApplyStop(s, s.controller.stage, a).value.controller)
  {
  }

  /** The controller returns its result without a finalization error if and only if no write of its
      receipt reported an error and no attempt to stop the watchdog failed while it lived. */
  lemma CompleteMeansUnflawed(target: string, instance: Sight, actions: seq<Action>)
    requires Exec(Initial(target, instance), actions).Some?
    requires Exec(Initial(target, instance), actions).value.controller.Finished?
    ensures Exec(Initial(target, instance), actions).value.controller.complete <==> !Flawed(Initial(target, instance), actions)
  {
    RunReports(target, instance, actions);
    hide Exec, Flawed;
  }
}
