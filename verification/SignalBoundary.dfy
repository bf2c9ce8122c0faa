/** The guarded capture under SIGINT and SIGTERM, at the grain of single handler
    installs and restores (scripts/capture_real_gpu_over_ssh.py:4589-4768,
    4820-4865, `guard_signals=True`).  The enclosing `_guarded_interruptible()`
    of `_capture` is the Outer handler. */
module SignalBoundary {
  import opened Wrappers

  datatype Signal = Int | Term

  /** What a signal currently runs: the outer scope's `interrupt`, the cleanup
      boundary's `defer`, the arming scope's `defer`, the capture's `interrupt`. */
  datatype Handler = Outer | Cleanup | Arming | Inner

  /** The step about to be taken. */
  datatype Pc =
    | EnterCleanup1 | EnterCleanup2       // install Cleanup for SIGINT, then SIGTERM
    | EnterArming1 | EnterArming2
    | Arm                                 // inside `_arm_lambda_watchdog`
    | Assign                              // its value is back but not yet in `watchdog`
    | LeaveArming1 | LeaveArming2         // restore SIGINT, then SIGTERM
    | ArmingPending                       // `raise_if_pending` of the arming scope
    | EnterInner1 | EnterInner2
    | CleanupPending                      // `raise_if_pending` before the capture
    | Capture
    | LeaveInner1 | LeaveInner2
    | Finally                             // `if watchdog is not None`
    | Terminate                           // inside `_terminate_guarded_capture`
    | LeaveCleanup1 | LeaveCleanup2
    | FinalPending                        // `raise_if_pending` of the cleanup boundary
    | Exited

  /** How `terminate_guarded_instance` ended. */
  datatype Ending = ConfirmedEnding | FinalizationFailed | UnresolvedRetained | UnresolvedUnretained

  datatype State = State(
    pc: Pc,
    onInt: Handler,
    onTerm: Handler,
    cleanupPending: bool,
    armingPending: bool,
    innerRaised: bool,
    outerRaised: bool,
    failing: bool,                        // an exception is propagating
    returned: bool,                       // arming produced a handle
    watchdog: bool,                       // and it is in the variable
    captured: bool,
    terminations: nat,                    // entries of `_terminate_guarded_capture`
    told: bool,                           // its `capture_failed` argument
    confirmed: bool,                      // `termination is not None`
    signals: nat)                         // signals delivered inside the boundary

  datatype Action =
    | Deliver(signal: Signal)
    | Go
    | ArmReturns(handle: bool)
    | ArmRaises
    | CaptureEnds(ok: bool)
    | TerminationEnds(ending: Ending)

  function On(s: State, signal: Signal): Handler {
    if signal.Int? then s.onInt else s.onTerm
  }

  /** Where an exception raised at this step continues: the innermost `finally`. */
  function Unwind(pc: Pc): Pc {
    match pc
    case EnterCleanup1 => LeaveCleanup1
    case EnterCleanup2 => LeaveCleanup1
    case EnterArming1 => LeaveArming1
    case EnterArming2 => LeaveArming1
    case Arm => LeaveArming1
    case Assign => LeaveArming1
    case LeaveArming1 => Finally
    case LeaveArming2 => Finally
    case ArmingPending => Finally
    case EnterInner1 => LeaveInner1
    case EnterInner2 => LeaveInner1
    case CleanupPending => LeaveInner1
    case Capture => LeaveInner1
    case LeaveInner1 => Finally
    case LeaveInner2 => Finally
    case Finally => LeaveCleanup1
    case Terminate => LeaveCleanup1
    case LeaveCleanup1 => Exited
    case LeaveCleanup2 => Exited
    case FinalPending => Exited
    case Exited => Exited
  }

  function Raise(s: State): State {
    s.(pc := Unwind(s.pc), failing := true)
  }

  /** The handler bodies. */
  function Handle(s: State, signal: Signal): State {
    match On(s, signal)
    case Cleanup => s.(cleanupPending := true)
    case Arming => s.(armingPending := true)
    case Inner => if s.innerRaised then s.(cleanupPending := true) else Raise(s.(innerRaised := true))
    case Outer => if s.outerRaised then s else Raise(s.(outerRaised := true))
  }

  function Step(s: State, a: Action): Option<State> {
    match a
    case Deliver(signal) => if s.pc.Exited? then None else Some(Handle(s.(signals := s.signals + 1), signal))
    case Go => Advance(s)
    case ArmReturns(handle) => if s.pc.Arm? then Some(s.(pc := Assign, returned := handle)) else None
    case ArmRaises => if s.pc.Arm? then Some(Raise(s)) else None
    case CaptureEnds(ok) =>
      if !s.pc.Capture? then None
      else if ok then Some(s.(pc := LeaveInner1, captured := true)) else Some(Raise(s))
    case TerminationEnds(ending) => if s.pc.Terminate? then Some(EndTermination(s, ending)) else None
  }

  /** `_terminate_guarded_capture`: an incomplete ending is an error of its own
      only when the capture had not already failed. */
  function EndTermination(s: State, ending: Ending): State {
    match ending
    case ConfirmedEnding => s.(pc := LeaveCleanup1, confirmed := true)
    case FinalizationFailed => if s.told then s.(pc := LeaveCleanup1, confirmed := true) else Raise(s)
    case UnresolvedRetained => if s.told then s.(pc := LeaveCleanup1) else Raise(s)
    case UnresolvedUnretained => Raise(s)
  }

  function Advance(s: State): Option<State> {
    match s.pc
    case EnterCleanup1 => Some(s.(pc := EnterCleanup2, onInt := Cleanup))
    case EnterCleanup2 => Some(s.(pc := EnterArming1, onTerm := Cleanup))
    case EnterArming1 => Some(s.(pc := EnterArming2, onInt := Arming))
    case EnterArming2 => Some(s.(pc := Arm, onTerm := Arming))
    case Assign => Some(s.(pc := LeaveArming1, watchdog := s.returned))
    case LeaveArming1 => Some(s.(pc := LeaveArming2, onInt := Cleanup))
    case LeaveArming2 => Some(s.(pc := if s.failing then Finally else ArmingPending, onTerm := Cleanup))
    case ArmingPending => if s.armingPending then Some(Raise(s.(armingPending := false))) else Some(s.(pc := EnterInner1))
    case EnterInner1 => Some(s.(pc := EnterInner2, onInt := Inner))
    case EnterInner2 => Some(s.(pc := CleanupPending, onTerm := Inner))
    case CleanupPending => if s.cleanupPending then Some(Raise(s.(cleanupPending := false))) else Some(s.(pc := Capture))
    case LeaveInner1 => Some(s.(pc := LeaveInner2, onInt := Cleanup))
    case LeaveInner2 => Some(s.(pc := Finally, onTerm := Cleanup))
    case Finally =>
      if s.watchdog then Some(s.(pc := Terminate, terminations := s.terminations + 1, told := s.failing))
      else Some(s.(pc := LeaveCleanup1))
    case LeaveCleanup1 => Some(s.(pc := LeaveCleanup2, onInt := Outer))
    case LeaveCleanup2 => Some(s.(pc := if s.failing then Exited else FinalPending, onTerm := Outer))
    case FinalPending => if s.cleanupPending then Some(Raise(s.(cleanupPending := false))) else Some(s.(pc := Exited))
    case _ => None
  }

  /** Entry of the boundary, with the outer scope's handlers in place and unused. */
  function Initial(): State {
    State(EnterCleanup1, Outer, Outer, false, false, false, false, false, false, false, false, 0, false, false, 0)
  }

  function Exec(actions: seq<Action>): Option<State> {
    if actions == [] then Some(Initial())
    else
      var before := Exec(actions[..|actions| - 1]);
      if before.None? then None else Step(before.value, actions[|actions| - 1])
  }

  // ---- The invariant ----------------------------------------------------------

  predicate Before(pc: Pc) {
    (pc.EnterCleanup1? || pc.EnterCleanup2? || pc.EnterArming1? || pc.EnterArming2? || pc.Arm?)
  }

  predicate Restoring(pc: Pc) { (pc.LeaveCleanup1? || pc.LeaveCleanup2? || pc.FinalPending? || pc.Exited?) }

  /** A handler that cannot raise any more. */
  predicate Quiet(s: State, h: Handler) {
    h.Cleanup? || (h.Inner? && s.innerRaised)
  }

  predicate Handlers(s: State) {
    match s.pc
    case EnterCleanup1 => s.onInt.Outer? && s.onTerm.Outer?
    case EnterCleanup2 => s.onInt.Cleanup? && s.onTerm.Outer?
    case EnterArming1 => s.onInt.Cleanup? && s.onTerm.Cleanup?
    case EnterArming2 => s.onInt.Arming? && s.onTerm.Cleanup?
    case Arm => s.onInt.Arming? && s.onTerm.Arming?
    case Assign => s.onInt.Arming? && s.onTerm.Arming?
    case LeaveArming1 => s.onInt.Arming? && s.onTerm.Arming?
    case LeaveArming2 => s.onInt.Cleanup? && s.onTerm.Arming?
    case ArmingPending => s.onInt.Cleanup? && s.onTerm.Cleanup?
    case EnterInner1 => s.onInt.Cleanup? && s.onTerm.Cleanup?
    case EnterInner2 => s.onInt.Inner? && s.onTerm.Cleanup?
    case CleanupPending => s.onInt.Inner? && s.onTerm.Inner?
    case Capture => s.onInt.Inner? && s.onTerm.Inner?
    case LeaveInner1 => s.onInt.Inner? && (s.onTerm.Inner? || (s.onTerm.Cleanup? && s.innerRaised))
    case LeaveInner2 => s.onInt.Cleanup? && (s.onTerm.Inner? || (s.onTerm.Cleanup? && s.innerRaised))
    case Finally => Quiet(s, s.onInt) && Quiet(s, s.onTerm)
    case Terminate => Quiet(s, s.onInt) && Quiet(s, s.onTerm)
    case LeaveCleanup1 => (Quiet(s, s.onInt) && Quiet(s, s.onTerm)) || (s.outerRaised && s.onTerm.Outer? && (s.onInt.Cleanup? || s.onInt.Outer?))
    case LeaveCleanup2 => s.onInt.Outer? && (Quiet(s, s.onTerm) || (s.outerRaised && s.onTerm.Outer?))
    case FinalPending => s.onInt.Outer? && s.onTerm.Outer?
    case Exited => s.onInt.Outer? && (s.onTerm.Outer? || s.outerRaised)
  }

  /** The steps during which a signal may be waiting in the arming scope. */
  predicate InArmingScope(pc: Pc) {
    (pc.EnterArming2? || pc.Arm? || pc.Assign? || pc.LeaveArming1? || pc.LeaveArming2? || pc.ArmingPending?)
  }

  /** No signal has vanished: it propagates already or some later step will see it. */
  predicate Accounted(s: State) {
    && (s.signals > 0 ==> s.failing || s.cleanupPending || (s.armingPending && InArmingScope(s.pc)))
    && (s.innerRaised || s.outerRaised ==> s.failing && s.signals > 0)
    && (s.failing ==> (s.pc.LeaveArming1? || s.pc.LeaveArming2? || s.pc.LeaveInner1? || s.pc.LeaveInner2?) || InFinally(s.pc) || s.pc.LeaveCleanup1?
                      || s.pc.LeaveCleanup2? || s.pc.Exited?)
    && (s.pc.Exited? && !s.failing ==> !s.cleanupPending)
  }

  predicate InFinally(pc: Pc) { pc.Finally? || pc.Terminate? }

  predicate Flow(s: State) {
    && (s.returned && !s.pc.Assign? ==> s.watchdog)
    && (s.watchdog ==> s.returned)
    && (Before(s.pc) ==> !s.returned)
    && s.terminations == (if s.watchdog && (s.pc.Terminate? || Restoring(s.pc)) then 1 else 0)
    && (s.pc.Terminate? ==> s.watchdog && s.told == s.failing)
    && (s.captured ==> !Before(s.pc) && !s.pc.Assign?)
    && ((s.pc.LeaveInner1? || s.pc.LeaveInner2?) || InFinally(s.pc) || Restoring(s.pc) ==> s.captured || s.failing)
    && (s.confirmed ==> Restoring(s.pc) && s.watchdog)
    && (Restoring(s.pc) && s.watchdog ==> s.confirmed || s.failing)
  }

  predicate Inv(s: State) {
    Handlers(s) && Accounted(s) && Flow(s)
  }

  lemma InvStep(s: State, a: Action)
    requires Inv(s) && Step(s, a).Some?
    ensures Inv(Step(s, a).value)
  {
    hide Inv, Handle, Advance, EndTermination, Raise;
    match a
    case Deliver(signal) => InvDeliver(s, signal);
    case Go => InvGo(s);
    case TerminationEnds(ending) => InvEnd(s, ending);
    case _ => InvOutcome(s, a);
  }

  lemma InvOutcome(s: State, a: Action)
    requires Inv(s) && Step(s, a).Some? && (a.ArmReturns? || a.ArmRaises? || a.CaptureEnds?)
    ensures Inv(Step(s, a).value)
  {
    if a.CaptureEnds? { InvCaptureEnds(s, a.ok); } else { InvArming(s, a); }
    hide Inv;
  }

  lemma InvArming(s: State, a: Action)
    requires Inv(s) && Step(s, a).Some? && (a.ArmReturns? || a.ArmRaises?)
    ensures Inv(Step(s, a).value)
  {
    hide Advance, Handle, EndTermination;
  }

  lemma InvCaptureEnds(s: State, ok: bool)
    requires Inv(s) && Step(s, CaptureEnds(ok)).Some?
    ensures Inv(Step(s, CaptureEnds(ok)).value)
  {
    hide Advance, Handle, EndTermination;
  }

  /** Only the capture's own scope and the outermost handler ever raise. */
  lemma WhereSignalsRaise(s: State, signal: Signal)
    requires Handlers(s) && !s.pc.Exited?
    ensures On(s, signal).Inner? && !s.innerRaised ==>
      s.pc.EnterInner2? || s.pc.CleanupPending? || s.pc.Capture? || s.pc.LeaveInner1? || s.pc.LeaveInner2?
    ensures On(s, signal).Outer? && !s.outerRaised ==>
      s.pc.EnterCleanup1? || s.pc.EnterCleanup2? || s.pc.LeaveCleanup2? || s.pc.FinalPending?
    ensures On(s, signal).Arming? ==> InArmingScope(s.pc)
  {
  }

  lemma InvDeliver(s: State, signal: Signal)
    requires Inv(s) && !s.pc.Exited?
    ensures Inv(Handle(s.(signals := s.signals + 1), signal))
  {
    match On(s, signal)
    case Cleanup => DeliverDeferred(s, signal);
    case Arming => DeliverDeferred(s, signal);
    case Inner => DeliverInner(s, signal);
    case Outer => DeliverOuter(s, signal);
    hide *;
  }

  lemma DeliverDeferred(s: State, signal: Signal)
    requires Inv(s) && !s.pc.Exited? && (On(s, signal).Cleanup? || On(s, signal).Arming?)
    ensures Inv(Handle(s.(signals := s.signals + 1), signal))
  {
    WhereSignalsRaise(s, signal);
    NotedOnly(s, Handle(s.(signals := s.signals + 1), signal));
    hide Inv;
  }

  lemma DeliverInner(s: State, signal: Signal)
    requires Inv(s) && !s.pc.Exited? && On(s, signal).Inner?
    ensures Inv(Handle(s.(signals := s.signals + 1), signal))
  {
    WhereSignalsRaise(s, signal);
    if s.innerRaised {
      NotedOnly(s, Handle(s.(signals := s.signals + 1), signal));
    } else {
      InnerRaises(s, signal);
    }
    hide Inv, Raise;
  }

  lemma DeliverOuter(s: State, signal: Signal)
    requires Inv(s) && !s.pc.Exited? && On(s, signal).Outer?
    ensures Inv(Handle(s.(signals := s.signals + 1), signal))
  {
    WhereSignalsRaise(s, signal);
    if s.outerRaised {
      NotedOnly(s, Handle(s.(signals := s.signals + 1), signal));
    } else {
      OuterRaises(s, signal);
    }
    hide Inv, Raise;
  }

  /** A signal that is only noted moves nothing. */
  lemma NotedOnly(s: State, t: State)
    requires Inv(s) && !s.pc.Exited?
    requires t == s.(signals := s.signals + 1, cleanupPending := t.cleanupPending, armingPending := t.armingPending)
    requires t.cleanupPending || (t.armingPending && InArmingScope(t.pc)) || s.failing
    ensures Inv(t)
  {
  }

  lemma InnerRaises(s: State, signal: Signal)
    requires Inv(s) && On(s, signal).Inner? && !s.innerRaised
    requires s.pc.EnterInner2? || s.pc.CleanupPending? || s.pc.Capture? || s.pc.LeaveInner1? || s.pc.LeaveInner2?
    ensures Inv(Raise(s.(signals := s.signals + 1, innerRaised := true)))
  {
    var t := Raise(s.(signals := s.signals + 1, innerRaised := true));
    assert Handlers(t) by { hide Flow, Accounted; }
    assert Accounted(t) && Flow(t) by { hide Handlers; }
    hide Handlers, Accounted, Flow;
  }

  lemma OuterRaises(s: State, signal: Signal)
    requires Inv(s) && On(s, signal).Outer? && !s.outerRaised
    requires s.pc.EnterCleanup1? || s.pc.EnterCleanup2? || s.pc.LeaveCleanup2? || s.pc.FinalPending?
    ensures Inv(Raise(s.(signals := s.signals + 1, outerRaised := true)))
  {
    var t := Raise(s.(signals := s.signals + 1, outerRaised := true));
    assert Handlers(t) by { hide Flow, Accounted; }
    assert Accounted(t) && Flow(t) by { hide Handlers; }
    hide Handlers, Accounted, Flow;
  }

  lemma InvEnd(s: State, ending: Ending)
    requires Inv(s) && s.pc.Terminate?
    ensures Inv(EndTermination(s, ending))
  {
    InvEndRaises(s);
    hide Raise;
    if ending.ConfirmedEnding? || ending.FinalizationFailed? {} else {}
  }

  lemma InvEndRaises(s: State)
    requires Inv(s) && s.pc.Terminate?
    ensures Inv(Raise(s))
  {
  }

  lemma InvGo(s: State)
    requires Inv(s) && Advance(s).Some?
    ensures Inv(Advance(s).value)
  {
    if s.pc.EnterCleanup1? || s.pc.EnterCleanup2? || s.pc.EnterArming1? || s.pc.EnterArming2? || s.pc.Assign? {
      GoIn(s);
    } else if s.pc.LeaveArming1? || s.pc.LeaveArming2? || s.pc.ArmingPending? || s.pc.EnterInner1? {
      GoArmed(s);
    } else if s.pc.EnterInner2? || s.pc.CleanupPending? || s.pc.LeaveInner1? || s.pc.LeaveInner2? {
      GoCapture(s);
    } else {
      GoOut(s);
    }
    hide Handlers, Accounted, Flow;
  }

  lemma GoIn(s: State)
    requires Inv(s)
    requires s.pc.EnterCleanup1? || s.pc.EnterCleanup2? || s.pc.EnterArming1? || s.pc.EnterArming2? || s.pc.Assign?
    ensures Inv(Advance(s).value)
  {
  }

  lemma GoArmed(s: State)
    requires Inv(s) && (s.pc.LeaveArming1? || s.pc.LeaveArming2? || s.pc.ArmingPending? || s.pc.EnterInner1?)
    ensures Inv(Advance(s).value)
  {
  }

  lemma GoCapture(s: State)
    requires Inv(s) && (s.pc.EnterInner2? || s.pc.CleanupPending? || s.pc.LeaveInner1? || s.pc.LeaveInner2?)
    ensures Inv(Advance(s).value)
  {
  }

  lemma GoOut(s: State)
    requires Inv(s) && (s.pc.Finally? || s.pc.LeaveCleanup1? || s.pc.LeaveCleanup2? || s.pc.FinalPending?)
    ensures Inv(Advance(s).value)
  {
  }

  // ---- Whole runs -------------------------------------------------------------

  lemma {:induction false} RunKeepsInv(actions: seq<Action>)
    requires Exec(actions).Some?
    ensures Inv(Exec(actions).value)
  {
    if actions != [] {
      var before := actions[..|actions| - 1];
      RunKeepsInv(before);
      InvStep(Exec(before).value, actions[|actions| - 1]);
    }
  }

  /** For every schedule of signals and every outcome of arming, capture and
      termination: a handle that arming produced is terminated exactly once by
      the time the boundary is left, told truly whether the capture had failed;
      a signal delivered inside is never lost; a normal exit has a capture, and
      with a handle a confirmed termination. */
  lemma SignalSafety(actions: seq<Action>)
    requires Exec(actions).Some?
    ensures var s := Exec(actions).value;
      && s.terminations <= 1
      && (s.pc.Exited? ==> s.terminations == if s.returned then 1 else 0)
      && (s.pc.Terminate? ==> s.returned && s.told == s.failing)
      && (s.pc.Exited? && !s.failing ==>
            && s.signals == 0 && s.captured && (s.returned ==> s.confirmed)
            && s.onInt.Outer? && s.onTerm.Outer?)
  {
    hide Exec, Inv;
    RunKeepsInv(actions);
    InvIsSafe(Exec(actions).value);
  }

  lemma InvIsSafe(s: State)
    requires Inv(s)
    ensures s.terminations <= 1
    ensures s.pc.Exited? ==> s.terminations == if s.returned then 1 else 0
    ensures s.pc.Terminate? ==> s.returned && s.told == s.failing
    ensures s.pc.Exited? && !s.failing ==>
      && s.signals == 0 && s.captured && (s.returned ==> s.confirmed)
      && s.onInt.Outer? && s.onTerm.Outer?
  {
  }

  /** Until the handle is safely stored, and again while termination runs, a
      signal of either kind is only noted: control does not move. */
  lemma SignalsOnlyNoted(actions: seq<Action>, signal: Signal)
    requires Exec(actions).Some?
    requires var pc := Exec(actions).value.pc; pc.Arm? || pc.Assign? || pc.LeaveArming1? || pc.LeaveArming2? || pc.Finally? || pc.Terminate?
    ensures var s := Exec(actions).value;
      && Step(s, Deliver(signal)).Some?
      && var t := Step(s, Deliver(signal)).value;
      && t.pc == s.pc && t.failing == s.failing && t.returned == s.returned && t.watchdog == s.watchdog
      && (t.cleanupPending || t.armingPending)
  {
    RunKeepsInv(actions);
    WhereSignalsRaise(Exec(actions).value, signal);
  }

  /** A SIGINT that raises between the last two restores. */
  ghost predicate RaisesInLastRestore(actions: seq<Action>, k: nat)
    requires k < |actions|
  {
    && actions[k] == Deliver(Int)
    && Exec(actions[..k]).Some?
    && var s := Exec(actions[..k]).value; s.pc.LeaveCleanup2? && !s.outerRaised
  }

  predicate Raises(s: State, signal: Signal) {
    (On(s, signal).Inner? && !s.innerRaised) || (On(s, signal).Outer? && !s.outerRaised)
  }

  lemma RaisingHandler(s: State, signal: Signal)
    requires Raises(s, signal)
    ensures Handle(s, signal).pc == Unwind(s.pc)
    ensures Handle(s, signal).onInt == s.onInt && Handle(s, signal).onTerm == s.onTerm
  {
    hide Unwind, On;
    if On(s, signal).Inner? {} else {}
  }

  lemma NotingHandler(s: State, signal: Signal)
    requires !Raises(s, signal) && !s.pc.Exited?
    ensures !Handle(s, signal).pc.Exited?
  {
    hide Handle, On;
    if On(s, signal).Cleanup? || On(s, signal).Arming? { Defers(s, signal); } else { Spent(s, signal); }
  }

  lemma Defers(s: State, signal: Signal)
    requires On(s, signal).Cleanup? || On(s, signal).Arming?
    ensures Handle(s, signal).pc == s.pc
  {
    hide Unwind, On;
  }

  lemma Spent(s: State, signal: Signal)
    requires (On(s, signal).Inner? && s.innerRaised) || (On(s, signal).Outer? && s.outerRaised)
    ensures Handle(s, signal).pc == s.pc
  {
    hide Unwind, On;
  }

  lemma UnwindToExit(pc: Pc)
    ensures Unwind(pc).Exited? ==> pc.LeaveCleanup1? || pc.LeaveCleanup2? || pc.FinalPending? || pc.Exited?
  {
  }

  lemma ExitStep(s: State, a: Action)
    requires Inv(s) && Step(s, a).Some? && Step(s, a).value.pc.Exited?
    ensures !Step(s, a).value.onTerm.Outer? <==> a == Deliver(Int) && s.pc.LeaveCleanup2? && !s.outerRaised
  {
    hide Handle, Advance, Distance, Accounted, Flow;
    if a.Deliver? {
      ExitByDelivery(s, a.signal);
    } else if a.Go? {
      AdvanceMovesOn(s);
      ExitByGo(s);
    } else {
      OutcomeMovesOn(s, a);
    }
  }

  lemma ExitByDelivery(s: State, signal: Signal)
    requires Handlers(s) && !s.pc.Exited? && Handle(s.(signals := s.signals + 1), signal).pc.Exited?
    ensures !Handle(s.(signals := s.signals + 1), signal).onTerm.Outer? <==> signal == Int && s.pc.LeaveCleanup2? && !s.outerRaised
  {
    hide Handle, Unwind;
    var t := s.(signals := s.signals + 1);
    WhereSignalsRaise(s, signal);
    if Raises(t, signal) { RaisingHandler(t, signal); } else { NotingHandler(t, signal); }
    UnwindToExit(s.pc);
  }

  lemma ExitByGo(s: State)
    requires Handlers(s) && (s.pc.LeaveCleanup2? || s.pc.FinalPending?)
    ensures Advance(s).Some? && (Advance(s).value.pc.Exited? ==> Advance(s).value.onTerm.Outer?)
  {
  }

  lemma InterruptedRestoreExits(s: State)
    requires Inv(s) && s.pc.LeaveCleanup2? && !s.outerRaised
    ensures Step(s, Deliver(Int)).Some? && Step(s, Deliver(Int)).value.pc.Exited?
  {
    hide Accounted, Flow, Advance, EndTermination;
  }

  /** Nothing follows an exit. */
  lemma {:induction false} ExitIsLast(actions: seq<Action>, k: nat)
    requires k <= |actions| && Exec(actions).Some? && Exec(actions[..k]).Some? && Exec(actions[..k]).value.pc.Exited?
    ensures k == |actions|
  {
    hide Inv;
    if k < |actions| {
      var before := actions[..|actions| - 1];
      assert before[..k] == actions[..k];
      ExitIsLast(before, k);
      ExitedIsStuck(Exec(before).value, actions[|actions| - 1]);
    }
  }

  lemma ExitedIsStuck(s: State, a: Action)
    ensures s.pc.Exited? ==> Step(s, a).None?
  {
  }

  /** At the exit SIGINT's outer handler is back.  SIGTERM's is missing if and only if a SIGINT
      raised between the last two restores; the outer scope then restores both itself. */
  lemma HandlersAtExit(actions: seq<Action>)
    requires Exec(actions).Some? && Exec(actions).value.pc.Exited?
    ensures Exec(actions).value.onInt.Outer?
    ensures !Exec(actions).value.onTerm.Outer? <==> exists k :: 0 <= k < |actions| && RaisesInLastRestore(actions, k)
  {
    hide Inv, Step;
    RunKeepsInv(actions);
    AtExit(Exec(actions).value);
    var n := |actions| - 1;
    RunKeepsInv(actions[..n]);
    ExitStep(Exec(actions[..n]).value, actions[n]);
    assert RaisesInLastRestore(actions, n) <==> !Exec(actions).value.onTerm.Outer?;
    forall k | 0 <= k < |actions| && RaisesInLastRestore(actions, k) ensures k == n {
      RunKeepsInv(actions[..k]);
      InterruptedRestoreExits(Exec(actions[..k]).value);
      assert actions[..k + 1][..k] == actions[..k];
      ExitIsLast(actions, k + 1);
    }
  }

  lemma AtExit(s: State)
    requires Inv(s) && s.pc.Exited?
    ensures s.onInt.Outer?
  {
  }

  /** A failed arming, and a SIGINT as its handlers are being put back. */
  function MissingRestore(): seq<Action> {
    [Go, Go, Go, Go, ArmRaises, Go, Go, Go, Go, Deliver(Int)]
  }

  function At(pc: Pc, onInt: Handler, onTerm: Handler, raised: bool, failing: bool): State {
    State(pc, onInt, onTerm, false, false, false, raised, failing, false, false, false, 0, false, false, if raised then 1 else 0)
  }

  function MissingRestoreStates(): seq<State> {
    [At(EnterCleanup1, Outer, Outer, false, false),
     At(EnterCleanup2, Cleanup, Outer, false, false),
     At(EnterArming1, Cleanup, Cleanup, false, false),
     At(EnterArming2, Arming, Cleanup, false, false),
     At(Arm, Arming, Arming, false, false),
     At(LeaveArming1, Arming, Arming, false, true),
     At(LeaveArming2, Cleanup, Arming, false, true),
     At(Finally, Cleanup, Cleanup, false, true),
     At(LeaveCleanup1, Cleanup, Cleanup, false, true),
     At(LeaveCleanup2, Outer, Cleanup, false, true),
     At(Exited, Outer, Cleanup, true, true)]
  }

  /** SIGTERM's outer handler can indeed be missing at the exit. */
  lemma HandlerCanBeMissing()
    ensures Exec(MissingRestore()).Some?
    ensures var s := Exec(MissingRestore()).value; s.pc.Exited? && s.onInt.Outer? && s.onTerm.Cleanup?
  {
    MissingRestoreSteps();
    hide Step;
    RunAlong(MissingRestoreStates(), MissingRestore(), 10);
    assert MissingRestore()[..10] == MissingRestore();
  }

  lemma MissingRestoreSteps()
    ensures forall k :: 0 <= k < 10 ==> Step(MissingRestoreStates()[k], MissingRestore()[k]) == Some(MissingRestoreStates()[k + 1])
  {
  }

  lemma {:induction false} RunAlong(states: seq<State>, run: seq<Action>, n: nat)
    requires n <= |run| && |states| == |run| + 1 && states[0] == Initial()
    requires forall k :: 0 <= k < |run| ==> Step(states[k], run[k]) == Some(states[k + 1])
    ensures Exec(run[..n]) == Some(states[n])
  {
    hide Step;
    if n > 0 {
      RunAlong(states, run, n - 1);
      assert run[..n][..n - 1] == run[..n - 1];
    }
  }

  // ---- The boundary is always left -----------------------------------------------

  /** Steps that remain, at most. */
  function Distance(pc: Pc): nat {
    match pc
    case EnterCleanup1 => 20
    case EnterCleanup2 => 19
    case EnterArming1 => 18
    case EnterArming2 => 17
    case Arm => 16
    case Assign => 15
    case LeaveArming1 => 14
    case LeaveArming2 => 13
    case ArmingPending => 12
    case EnterInner1 => 11
    case EnterInner2 => 10
    case CleanupPending => 9
    case Capture => 8
    case LeaveInner1 => 7
    case LeaveInner2 => 6
    case Finally => 5
    case Terminate => 4
    case LeaveCleanup1 => 3
    case LeaveCleanup2 => 2
    case FinalPending => 1
    case Exited => 0
  }

  lemma UnwindMovesOn(pc: Pc)
    ensures Distance(Unwind(pc)) <= Distance(pc)
    ensures !pc.Exited? ==> Distance(Unwind(pc)) < Distance(pc)
    ensures Distance(pc) <= 20 && (pc.Exited? <==> Distance(pc) == 0)
  {
  }

  /** Every step of the program moves control on. */
  lemma StepsMoveOn(s: State, a: Action)
    requires Step(s, a).Some? && !a.Deliver?
    ensures Distance(Step(s, a).value.pc) < Distance(s.pc)
  {
    hide Advance, Distance, Unwind, Handle, EndTermination, Raise;
    if a.Go? { AdvanceMovesOn(s); } else { OutcomeMovesOn(s, a); }
  }

  lemma OutcomeMovesOn(s: State, a: Action)
    requires Step(s, a).Some? && !a.Deliver? && !a.Go?
    ensures Distance(Step(s, a).value.pc) < Distance(s.pc) && !Step(s, a).value.pc.Exited?
  {
    hide Step, Distance;
    Distances();
    if a.TerminationEnds? { TerminationOutcome(s, a); }
    else if a.CaptureEnds? { CaptureOutcome(s, a); }
    else { ArmingOutcome(s, a); }
  }

  lemma ArmingOutcome(s: State, a: Action)
    requires Step(s, a).Some? && (a.ArmReturns? || a.ArmRaises?)
    ensures s.pc.Arm? && (Step(s, a).value.pc.Assign? || Step(s, a).value.pc.LeaveArming1?)
  {
    hide Advance, Handle, EndTermination;
  }

  lemma CaptureOutcome(s: State, a: Action)
    requires Step(s, a).Some? && a.CaptureEnds?
    ensures s.pc.Capture? && Step(s, a).value.pc.LeaveInner1?
  {
    hide Advance, Handle, EndTermination;
  }

  lemma TerminationOutcome(s: State, a: Action)
    requires Step(s, a).Some? && a.TerminationEnds?
    ensures s.pc.Terminate? && Step(s, a).value.pc.LeaveCleanup1?
  {
    hide Advance, Handle, EndTermination;
    EndingLeaves(s, a.ending);
  }

  lemma EndingLeaves(s: State, ending: Ending)
    requires s.pc.Terminate?
    ensures EndTermination(s, ending).pc.LeaveCleanup1?
  {
    RaiseAtTermination(s);
    hide Raise, Unwind;
    if ending.ConfirmedEnding? || ending.UnresolvedUnretained? {} else {}
  }

  lemma RaiseAtTermination(s: State)
    requires s.pc.Terminate?
    ensures Raise(s).pc.LeaveCleanup1?
  {
  }

  lemma Distances()
    ensures Distance(Arm) == 16 && Distance(Assign) == 15 && Distance(LeaveArming1) == 14
    ensures Distance(Capture) == 8 && Distance(LeaveInner1) == 7
    ensures Distance(Terminate) == 4 && Distance(LeaveCleanup1) == 3
  {
  }

  lemma AdvanceMovesOn(s: State)
    requires Advance(s).Some?
    ensures Distance(Advance(s).value.pc) < Distance(s.pc)
    ensures Advance(s).value.pc.Exited? ==> s.pc.LeaveCleanup2? || s.pc.FinalPending?
  {
    if s.pc.EnterCleanup1? || s.pc.EnterCleanup2? || s.pc.EnterArming1? || s.pc.EnterArming2? || s.pc.Assign? {
      EnterMovesOn(s);
    } else if s.pc.LeaveArming1? || s.pc.LeaveArming2? || s.pc.ArmingPending? || s.pc.EnterInner1? {
      ArmedMovesOn(s);
    } else if s.pc.EnterInner2? || s.pc.CleanupPending? || s.pc.LeaveInner1? || s.pc.LeaveInner2? {
      CaptureMovesOn(s);
    } else {
      LeaveMovesOn(s);
    }
    hide Distance;
  }

  lemma EnterMovesOn(s: State)
    requires s.pc.EnterCleanup1? || s.pc.EnterCleanup2? || s.pc.EnterArming1? || s.pc.EnterArming2? || s.pc.Assign?
    ensures Distance(Advance(s).value.pc) < Distance(s.pc)
    ensures !Advance(s).value.pc.Exited?
  {
  }

  lemma ArmedMovesOn(s: State)
    requires s.pc.LeaveArming1? || s.pc.LeaveArming2? || s.pc.ArmingPending? || s.pc.EnterInner1?
    ensures Distance(Advance(s).value.pc) < Distance(s.pc)
    ensures !Advance(s).value.pc.Exited?
  {
  }

  lemma CaptureMovesOn(s: State)
    requires s.pc.EnterInner2? || s.pc.CleanupPending? || s.pc.LeaveInner1? || s.pc.LeaveInner2?
    ensures Distance(Advance(s).value.pc) < Distance(s.pc)
    ensures !Advance(s).value.pc.Exited?
  {
  }

  lemma LeaveMovesOn(s: State)
    requires s.pc.Finally? || s.pc.LeaveCleanup1? || s.pc.LeaveCleanup2? || s.pc.FinalPending?
    ensures Distance(Advance(s).value.pc) < Distance(s.pc)
    ensures Advance(s).value.pc.Exited? ==> s.pc.LeaveCleanup2? || s.pc.FinalPending?
  {
  }

  /** The next step when arming, capture and termination succeed. */
  function Favourable(s: State): Action {
    match s.pc
    case Arm => ArmReturns(true)
    case Capture => CaptureEnds(true)
    case Terminate => TerminationEnds(ConfirmedEnding)
    case _ => Go
  }

  /** Nothing has gone wrong and no signal has come. */
  predicate Smooth(s: State) {
    && !s.failing && !s.cleanupPending && !s.armingPending && s.signals == 0
    && (s.pc.Assign? || Distance(s.pc) < 15 ==> s.returned)
    && (Restoring(s.pc) ==> s.confirmed)
  }

  lemma FavourableStep(s: State)
    requires Inv(s) && !s.pc.Exited?
    ensures Step(s, Favourable(s)).Some?
    ensures Smooth(s) ==> Smooth(Step(s, Favourable(s)).value)
  {
    hide Accounted, Handlers;
  }

  /** From every reachable point the boundary is left within twenty steps once signals
      cease; and if none came and nothing failed, with a capture, a confirmed
      termination and the outer handlers back. */
  lemma {:induction false} Exits(actions: seq<Action>) returns (plan: seq<Action>)
    requires Exec(actions).Some?
    ensures |plan| <= Distance(Exec(actions).value.pc) <= 20
    ensures Exec(actions + plan).Some? && Exec(actions + plan).value.pc.Exited?
    ensures Smooth(Exec(actions).value) ==>
      var s := Exec(actions + plan).value;
      s.captured && s.terminations == 1 && s.confirmed && s.onInt.Outer? && s.onTerm.Outer?
    decreases Distance(Exec(actions).value.pc)
  {
    hide Inv, Step, Favourable, Distance, Smooth, Exec;
    var s := Exec(actions).value;
    RunKeepsInv(actions);
    UnwindMovesOn(s.pc);
    if s.pc.Exited? {
      plan := [];
      assert actions + [] == actions;
      if Smooth(s) { SmoothExit(s); }
    } else {
      var a := Favourable(s);
      FavourableStep(s);
      NoSignal(s);
      StepsMoveOn(s, a);
      OneMore(actions, a);
      var rest := Exits(actions + [a]);
      plan := [a] + rest;
      assert actions + [a] + rest == actions + plan;
    }
  }

  lemma NoSignal(s: State)
    ensures !Favourable(s).Deliver?
  {
  }

  lemma SmoothExit(s: State)
    requires Inv(s) && Smooth(s) && s.pc.Exited?
    ensures s.captured && s.terminations == 1 && s.confirmed && s.onInt.Outer? && s.onTerm.Outer?
  {
  }

  lemma OneMore(actions: seq<Action>, a: Action)
    requires Exec(actions).Some? && Step(Exec(actions).value, a).Some?
    ensures Exec(actions + [a]) == Step(Exec(actions).value, a)
  {
    assert (actions + [a])[..|actions|] == actions;
  }

  // ---- What happened, read off the actions -----------------------------------------

  /** What a step leaves alone unless it is the step that sets it. */
  predicate SameRecord(s: State, t: State) {
    && t.captured == s.captured && t.returned == s.returned && t.confirmed == s.confirmed
    && t.told == s.told && t.signals == s.signals
  }

  /** A delivered signal raises, or is noted where control stands. */
  lemma Delivered(s: State, signal: Signal)
    ensures var t := Handle(s, signal);
      && SameRecord(s, t) && t.failing == (s.failing || Raises(s, signal))
      && (!Raises(s, signal) ==>
            && t.pc == s.pc
            && t.armingPending == (s.armingPending || On(s, signal).Arming?)
            && (s.cleanupPending || On(s, signal).Cleanup? ==> t.cleanupPending))
      && (Raises(s, signal) ==> t.armingPending == s.armingPending && t.cleanupPending == s.cleanupPending)
  {
    hide Handle, On, SameRecord;
    match On(s, signal)
    case Cleanup => DeliveredToCleanup(s, signal);
    case Arming => DeliveredToArming(s, signal);
    case Inner => if s.innerRaised { DeliveredSpent(s, signal); } else { DeliveredRaising(s, signal); }
    case Outer => if s.outerRaised { DeliveredSpent(s, signal); } else { DeliveredRaising(s, signal); }
  }

  lemma DeliveredToCleanup(s: State, signal: Signal)
    requires On(s, signal).Cleanup?
    ensures var t := Handle(s, signal);
      && SameRecord(s, t) && t.failing == s.failing && t.pc == s.pc && t.armingPending == s.armingPending && t.cleanupPending
  {
    hide On, Raise;
  }

  lemma DeliveredToArming(s: State, signal: Signal)
    requires On(s, signal).Arming?
    ensures var t := Handle(s, signal);
      && SameRecord(s, t) && t.failing == s.failing && t.pc == s.pc && t.armingPending && t.cleanupPending == s.cleanupPending
  {
    hide On, Raise;
  }

  lemma DeliveredSpent(s: State, signal: Signal)
    requires (On(s, signal).Inner? && s.innerRaised) || (On(s, signal).Outer? && s.outerRaised)
    ensures var t := Handle(s, signal);
      && SameRecord(s, t) && t.failing == s.failing && t.pc == s.pc && t.armingPending == s.armingPending
      && (s.cleanupPending ==> t.cleanupPending)
  {
    hide On, Raise;
  }

  lemma DeliveredRaising(s: State, signal: Signal)
    requires Raises(s, signal) && (On(s, signal).Inner? || On(s, signal).Outer?)
    ensures var t := Handle(s, signal);
      && SameRecord(s, t) && t.failing && t.armingPending == s.armingPending && t.cleanupPending == s.cleanupPending
  {
    hide On, Unwind;
    if On(s, signal).Inner? {} else {}
  }

  /** The steps of the program itself. */
  predicate PendingRaised(s: State) {
    || (s.pc.ArmingPending? && s.armingPending)
    || ((s.pc.CleanupPending? || s.pc.FinalPending?) && s.cleanupPending)
  }

  predicate Went(s: State, t: State) {
    && t.captured == s.captured && t.returned == s.returned && t.confirmed == s.confirmed && t.signals == s.signals
    && t.told == (if t.pc.Terminate? then t.failing else s.told)
    && t.failing == (s.failing || PendingRaised(s))
    && (t.armingPending ==> s.armingPending) && (t.cleanupPending ==> s.cleanupPending)
    && (!t.failing ==> t.armingPending == s.armingPending && t.cleanupPending == s.cleanupPending)
  }

  lemma Goes(s: State)
    requires Advance(s).Some?
    ensures Went(s, Advance(s).value)
  {
    hide Went;
    if s.pc.EnterCleanup1? || s.pc.EnterCleanup2? || s.pc.EnterArming1? || s.pc.EnterArming2? || s.pc.Assign? {
      GoesIn(s);
    } else if s.pc.LeaveArming1? || s.pc.LeaveArming2? || s.pc.ArmingPending? || s.pc.EnterInner1? {
      GoesArmed(s);
    } else if s.pc.EnterInner2? || s.pc.CleanupPending? || s.pc.LeaveInner1? || s.pc.LeaveInner2? {
      GoesToCapture(s);
    } else {
      GoesOut(s);
    }
  }

  lemma GoesIn(s: State)
    requires s.pc.EnterCleanup1? || s.pc.EnterCleanup2? || s.pc.EnterArming1? || s.pc.EnterArming2? || s.pc.Assign?
    ensures Went(s, Advance(s).value)
  {
  }

  lemma GoesArmed(s: State)
    requires s.pc.LeaveArming1? || s.pc.LeaveArming2? || s.pc.ArmingPending? || s.pc.EnterInner1?
    ensures Went(s, Advance(s).value)
  {
  }

  lemma GoesToCapture(s: State)
    requires s.pc.EnterInner2? || s.pc.CleanupPending? || s.pc.LeaveInner1? || s.pc.LeaveInner2?
    ensures Went(s, Advance(s).value)
  {
  }

  lemma GoesOut(s: State)
    requires s.pc.Finally? || s.pc.LeaveCleanup1? || s.pc.LeaveCleanup2? || s.pc.FinalPending?
    ensures Went(s, Advance(s).value)
  {
  }

  lemma ArmingEnds(s: State, a: Action)
    requires Step(s, a).Some? && (a.ArmReturns? || a.ArmRaises?)
    ensures var t := Step(s, a).value;
      && t.captured == s.captured && t.confirmed == s.confirmed && t.signals == s.signals && t.told == s.told
      && t.returned == (if a.ArmReturns? then a.handle else s.returned)
      && t.failing == (s.failing || a.ArmRaises?)
      && t.armingPending == s.armingPending && t.cleanupPending == s.cleanupPending
  {
    hide Advance, Handle, EndTermination;
  }

  lemma CaptureEnded(s: State, ok: bool)
    requires Step(s, CaptureEnds(ok)).Some?
    ensures var t := Step(s, CaptureEnds(ok)).value;
      && t.captured == (s.captured || ok) && t.confirmed == s.confirmed && t.signals == s.signals && t.told == s.told
      && t.returned == s.returned && t.failing == (s.failing || !ok)
      && t.armingPending == s.armingPending && t.cleanupPending == s.cleanupPending
  {
    hide Advance, Handle, EndTermination;
  }

  /** The four endings of `_terminate_guarded_capture`: the exit that follows fails unless the
      ending was plain or the capture had failed already, and is confirmed as listed. */
  lemma Endings(s: State, ending: Ending)
    requires s.pc.Terminate? && s.told == s.failing && !s.confirmed
    ensures var t := EndTermination(s, ending);
      && t.captured == s.captured && t.returned == s.returned && t.signals == s.signals && t.told == s.told
      && t.failing == (s.told || !ending.ConfirmedEnding?)
      && t.confirmed == (ending.ConfirmedEnding? || (ending.FinalizationFailed? && s.told))
      && t.armingPending == s.armingPending && t.cleanupPending == s.cleanupPending
  {
    RaisedAtTermination(s);
    hide Raise, Unwind;
    if ending.ConfirmedEnding? || ending.UnresolvedUnretained? {} else {}
  }

  lemma RaisedAtTermination(s: State)
    ensures var t := Raise(s); SameRecord(s, t) && t.failing && t.armingPending == s.armingPending && t.cleanupPending == s.cleanupPending
  {
    hide Unwind;
  }

  predicate BadEnding(a: Action) { a.TerminationEnds? && !a.ending.ConfirmedEnding? }

  /** The actions that alone make the exit fail. */
  predicate Bad(a: Action) { a.Deliver? || a == ArmRaises || a == CaptureEnds(false) || BadEnding(a) }

  ghost predicate Signalled(actions: seq<Action>) { exists a :: a in actions && a.Deliver? }

  ghost predicate Failed(actions: seq<Action>) { exists a :: a in actions && Bad(a) && !a.Deliver? }

  ghost predicate Ended(actions: seq<Action>) { exists a :: a in actions && a.TerminationEnds? }

  /** The record agrees with the actions. */
  ghost predicate Recorded(actions: seq<Action>, s: State) {
    && (s.captured <==> CaptureEnds(true) in actions)
    && (s.returned <==> ArmReturns(true) in actions)
    && (s.signals > 0 <==> Signalled(actions))
    && (s.confirmed <==> TerminationEnds(ConfirmedEnding) in actions || (TerminationEnds(FinalizationFailed) in actions && s.told))
    && (Failed(actions) ==> s.failing)
    && (s.failing ==> Failed(actions) || Signalled(actions))
    && (s.armingPending || s.cleanupPending ==> s.signals > 0)
    && (Ended(actions) ==> Restoring(s.pc))
  }

  lemma OneMoreAction(before: seq<Action>, a: Action)
    ensures Signalled(before + [a]) <==> Signalled(before) || a.Deliver?
    ensures Failed(before + [a]) <==> Failed(before) || (Bad(a) && !a.Deliver?)
    ensures Ended(before + [a]) <==> Ended(before) || a.TerminationEnds?
    ensures forall b :: b in before + [a] <==> b in before || b == a
    ensures forall ending :: TerminationEnds(ending) in before ==> Ended(before)
  {
    hide Bad;
    assert forall b :: b in before + [a] <==> b in before || b == a;
    assert a in before + [a];
  }

  lemma {:induction false} ActionsAreRecorded(actions: seq<Action>)
    requires Exec(actions).Some?
    ensures Recorded(actions, Exec(actions).value)
  {
    hide Step, Inv, Recorded;
    if actions == [] {
      NothingRecorded();
    } else {
      var before, a := actions[..|actions| - 1], actions[|actions| - 1];
      ActionsAreRecorded(before);
      RunKeepsInv(before);
      assert actions == before + [a];
      RecordStep(before, Exec(before).value, a);
    }
  }

  lemma NothingRecorded()
    ensures Recorded([], Initial())
  {
  }

  lemma RecordStep(before: seq<Action>, s: State, a: Action)
    requires Inv(s) && Recorded(before, s) && Step(s, a).Some?
    ensures Recorded(before + [a], Step(s, a).value)
  {
    hide Inv, Handle, Advance, EndTermination, Raise, Recorded;
    match a
    case Deliver(signal) => RecordDelivery(before, s, signal);
    case Go => RecordGo(before, s);
    case ArmReturns(_) => RecordArming(before, s, a);
    case ArmRaises => RecordArming(before, s, a);
    case CaptureEnds(ok) => RecordCapture(before, s, ok);
    case TerminationEnds(ending) => RecordEnding(before, s, ending);
  }

  lemma RecordDelivery(before: seq<Action>, s: State, signal: Signal)
    requires Inv(s) && Recorded(before, s) && !s.pc.Exited?
    ensures Recorded(before + [Deliver(signal)], Handle(s.(signals := s.signals + 1), signal))
  {
    hide Inv, Handle, On, Raises, Unwind, Signalled, Failed, Ended, Restoring;
    var t := s.(signals := s.signals + 1);
    Delivered(t, signal);
    if Restoring(t.pc) { RestoringStays(t, signal); }
    OneMoreAction(before, Deliver(signal));
  }

  lemma RestoringStays(s: State, signal: Signal)
    requires Restoring(s.pc) && !s.pc.Exited?
    ensures Restoring(Handle(s, signal).pc)
  {
    hide Handle, On;
    if Raises(s, signal) { RaisingHandler(s, signal); } else { Delivered(s, signal); }
  }

  lemma RecordGo(before: seq<Action>, s: State)
    requires Inv(s) && Recorded(before, s) && Advance(s).Some?
    ensures Recorded(before + [Go], Advance(s).value)
  {
    hide Inv, Advance, Signalled, Failed, Ended, Restoring;
    Goes(s);
    RestoringGoes(s);
    OneMoreAction(before, Go);
    GoIsNotBad();
  }

  lemma RestoringGoes(s: State)
    requires Advance(s).Some?
    ensures Restoring(s.pc) ==> Restoring(Advance(s).value.pc) && !Advance(s).value.pc.Terminate?
  {
    if Restoring(s.pc) { RestoringGoesOut(s); }
    hide *;
  }

  lemma RestoringGoesOut(s: State)
    requires s.pc.LeaveCleanup1? || s.pc.LeaveCleanup2? || s.pc.FinalPending?
    ensures Restoring(Advance(s).value.pc) && !Advance(s).value.pc.Terminate?
  {
  }

  lemma RecordArming(before: seq<Action>, s: State, a: Action)
    requires Inv(s) && Recorded(before, s) && Step(s, a).Some? && (a.ArmReturns? || a.ArmRaises?)
    ensures Recorded(before + [a], Step(s, a).value)
  {
    ArmingOutcome(s, a);
    ArmingEnds(s, a);
    NotReturnedYet(s);
    hide Inv, Step, Signalled, Failed, Ended;
    OneMoreAction(before, a);
  }

  lemma GoIsNotBad()
    ensures !Bad(Go)
  {
  }

  lemma NotReturnedYet(s: State)
    requires Inv(s) && s.pc.Arm?
    ensures !s.returned
  {
  }

  lemma RecordCapture(before: seq<Action>, s: State, ok: bool)
    requires Inv(s) && Recorded(before, s) && Step(s, CaptureEnds(ok)).Some?
    ensures Recorded(before + [CaptureEnds(ok)], Step(s, CaptureEnds(ok)).value)
  {
    CaptureOutcome(s, CaptureEnds(ok));
    CaptureEnded(s, ok);
    hide Inv, Step, Signalled, Failed, Ended;
    OneMoreAction(before, CaptureEnds(ok));
  }

  lemma RecordEnding(before: seq<Action>, s: State, ending: Ending)
    requires Inv(s) && Recorded(before, s) && s.pc.Terminate?
    ensures Recorded(before + [TerminationEnds(ending)], EndTermination(s, ending))
  {
    BeforeEnding(s);
    Endings(s, ending);
    EndingLeaves(s, ending);
    hide Inv, EndTermination, Signalled, Failed, Ended;
    OneMoreAction(before, TerminationEnds(ending));
  }

  lemma BeforeEnding(s: State)
    requires Inv(s) && s.pc.Terminate?
    ensures s.told == s.failing && !s.confirmed
  {
  }

  /** Whether the boundary is left normally, read off the run: exactly when no signal came, arming
      did not raise, the capture did not fail and the ending was plain.  A normal exit has a
      capture; termination is confirmed by a plain ending, or by one with only local finalization
      left over when the capture had failed. */
  lemma HowItEnds(actions: seq<Action>)
    requires Exec(actions).Some? && Exec(actions).value.pc.Exited?
    ensures var s := Exec(actions).value;
      && (!s.failing <==> forall a :: a in actions ==> !Bad(a))
      && (!s.failing ==> CaptureEnds(true) in actions)
      && (s.confirmed <==> TerminationEnds(ConfirmedEnding) in actions || (TerminationEnds(FinalizationFailed) in actions && s.told))
      && (ArmReturns(true) in actions <==> s.terminations == 1)
  {
    hide Exec, Inv, Bad;
    var s := Exec(actions).value;
    ActionsAreRecorded(actions);
    RunKeepsInv(actions);
    InvIsSafe(s);
    DeliveryIsBad();
  }

  lemma DeliveryIsBad()
    ensures forall a: Action :: a.Deliver? ==> Bad(a)
  {
  }

  // ---- What termination is told ---------------------------------------------------------

  /** A signal this late is noted only: the capture's handler for it has been put back. */
  predicate Late(s: State, signal: Signal) {
    Distance(s.pc) <= 5 || (s.pc.LeaveInner2? && signal.Int?)
  }

  /** Some signal came before that. */
  ghost predicate EarlySignal(actions: seq<Action>) {
    exists k :: 0 <= k < |actions| && IsEarly(actions, k)
  }

  ghost predicate IsEarly(actions: seq<Action>, k: nat)
    requires k < |actions|
  {
    actions[k].Deliver? && Exec(actions[..k]).Some? && !Late(Exec(actions[..k]).value, actions[k].signal)
  }

  lemma EarlyOneMore(before: seq<Action>, a: Action)
    requires Exec(before).Some?
    ensures EarlySignal(before + [a]) <==> EarlySignal(before) || (a.Deliver? && !Late(Exec(before).value, a.signal))
  {
    hide Exec, Late;
    var all := before + [a];
    assert all[..|before|] == before;
    forall k | 0 <= k < |before| ensures IsEarly(all, k) <==> IsEarly(before, k) { assert all[..k] == before[..k]; }
    if a.Deliver? && !Late(Exec(before).value, a.signal) { assert IsEarly(all, |before|); }
    if EarlySignal(before) {
      var k :| 0 <= k < |before| && IsEarly(before, k);
      assert IsEarly(all, k);
    }
  }

  ghost predicate Cause(actions: seq<Action>) {
    EarlySignal(actions) || ArmRaises in actions || CaptureEnds(false) in actions
  }

  /** Up to the end of termination: a cause propagates or is on its way, and nothing else does. */
  predicate Propagates(cause: bool, s: State) {
    && (cause ==> s.failing || (s.armingPending && InArmingScope(s.pc)) || (s.cleanupPending && Distance(s.pc) >= 9))
    && (s.failing && Distance(s.pc) >= 4 ==> cause)
    && ((s.armingPending || s.cleanupPending) && Distance(s.pc) >= 9 ==> cause)
  }

  lemma {:induction false} CausesPropagate(actions: seq<Action>)
    requires Exec(actions).Some?
    ensures Propagates(Cause(actions), Exec(actions).value)
  {
    hide Step, Inv, Propagates, Cause;
    if actions == [] {
      NoCauseYet();
    } else {
      var before, a := actions[..|actions| - 1], actions[|actions| - 1];
      CausesPropagate(before);
      RunKeepsInv(before);
      assert actions == before + [a];
      CauseOneMore(before, a);
      PropagateStep(Cause(before), Exec(before).value, a);
    }
  }

  lemma NoCauseYet()
    ensures Propagates(Cause([]), Initial())
  {
  }

  predicate Adds(s: State, a: Action) {
    (a.Deliver? && !Late(s, a.signal)) || a == ArmRaises || a == CaptureEnds(false)
  }

  lemma CauseOneMore(before: seq<Action>, a: Action)
    requires Exec(before).Some?
    ensures Cause(before + [a]) <==> Cause(before) || Adds(Exec(before).value, a)
  {
    hide Exec, Late, EarlySignal;
    EarlyOneMore(before, a);
  }

  lemma PropagateStep(cause: bool, s: State, a: Action)
    requires Inv(s) && Propagates(cause, s) && Step(s, a).Some?
    ensures Propagates(cause || Adds(s, a), Step(s, a).value)
  {
    hide Inv, Handle, Advance, EndTermination, Raise, Propagates, Adds;
    match a
    case Deliver(signal) => PropagateDelivery(cause, s, signal);
    case Go => PropagateGo(cause, s);
    case ArmReturns(_) => PropagateArming(cause, s, a);
    case ArmRaises => PropagateArming(cause, s, a);
    case CaptureEnds(ok) => PropagateCapture(cause, s, ok);
    case TerminationEnds(ending) => PropagateEnding(cause, s, ending);
  }

  lemma PropagateEnding(cause: bool, s: State, ending: Ending)
    requires Inv(s) && Propagates(cause, s) && s.pc.Terminate?
    ensures Propagates(cause || Adds(s, TerminationEnds(ending)), EndTermination(s, ending))
  {
    BeforeEnding(s);
    Endings(s, ending);
    EndingLeaves(s, ending);
    Distances();
    hide Inv, EndTermination, Distance, Late;
  }

  lemma PropagateCapture(cause: bool, s: State, ok: bool)
    requires Inv(s) && Propagates(cause, s) && Step(s, CaptureEnds(ok)).Some?
    ensures Propagates(cause || Adds(s, CaptureEnds(ok)), Step(s, CaptureEnds(ok)).value)
  {
    CaptureOutcome(s, CaptureEnds(ok));
    CaptureEnded(s, ok);
    Distances();
    hide Inv, Step, Distance, Late;
  }

  lemma PropagateArming(cause: bool, s: State, a: Action)
    requires Inv(s) && Propagates(cause, s) && Step(s, a).Some? && (a.ArmReturns? || a.ArmRaises?)
    ensures Propagates(cause || Adds(s, a), Step(s, a).value)
  {
    ArmingOutcome(s, a);
    ArmingEnds(s, a);
    Distances();
    hide Inv, Step, Distance, Late;
  }

  lemma PropagateDelivery(cause: bool, s: State, signal: Signal)
    requires Inv(s) && Propagates(cause, s) && !s.pc.Exited?
    ensures Propagates(cause || Adds(s, Deliver(signal)), Handle(s.(signals := s.signals + 1), signal))
  {
    var t := s.(signals := s.signals + 1);
    Delivered(t, signal);
    WhereDelivered(s, signal);
    hide Inv, Handle, On, Raises, Unwind, Distance, InArmingScope, Late;
  }

  /** Where a signal of either kind is noted, and where it raises. */
  lemma WhereDelivered(s: State, signal: Signal)
    requires Inv(s) && !s.pc.Exited?
    ensures var t := s.(signals := s.signals + 1);
      && (!Late(s, signal) && !Raises(t, signal) && !s.failing ==>
            (On(s, signal).Arming? && InArmingScope(s.pc)) || (On(s, signal).Cleanup? && Distance(s.pc) >= 9))
      && (Late(s, signal) && Raises(t, signal) ==> Distance(s.pc) < 4)
      && (Late(s, signal) ==> Distance(s.pc) < 9)
      && On(t, signal) == On(s, signal)
      && (Raises(t, signal) ==> Handle(t, signal).pc == Unwind(s.pc))
  {
  }

  lemma PropagateGo(cause: bool, s: State)
    requires Inv(s) && Propagates(cause, s) && Advance(s).Some?
    ensures Propagates(cause || Adds(s, Go), Advance(s).value)
  {
    Goes(s);
    AdvanceMovesOn(s);
    hide Inv, Advance, Distance, Late;
  }

  /** `capture_failed` as termination is told it: true if and only if the capture failed or
      raised, or a signal came before the capture's handler for it was put back. */
  lemma WhatTerminationIsTold(actions: seq<Action>)
    requires Exec(actions).Some? && Exec(actions).value.pc.Terminate?
    ensures Exec(actions).value.told <==> CaptureEnds(false) in actions || EarlySignal(actions)
  {
    hide Exec, Inv, EarlySignal, Recorded;
    var s := Exec(actions).value;
    CausesPropagate(actions);
    RunKeepsInv(actions);
    BeforeEnding(s);
    Distances();
    NeverRaised(actions);
    hide Distance, InArmingScope;
  }

  /** Termination is entered only with a handle, so arming did not raise. */
  lemma NeverRaised(actions: seq<Action>)
    requires Exec(actions).Some? && Exec(actions).value.pc.Terminate?
    ensures ArmRaises !in actions
  {
    hide Exec, Inv;
    if ArmRaises in actions { RaisedArmingStays(actions); }
    RunKeepsInv(actions);
    TerminationHasHandle(Exec(actions).value);
  }

  lemma TerminationHasHandle(s: State)
    requires Inv(s) && s.pc.Terminate?
    ensures s.returned
  {
  }

  lemma {:induction false} RaisedArmingStays(actions: seq<Action>)
    requires Exec(actions).Some? && ArmRaises in actions
    ensures !Exec(actions).value.returned && Distance(Exec(actions).value.pc) < 15
  {
    hide Step, Inv, Distance;
    var before, a := actions[..|actions| - 1], actions[|actions| - 1];
    assert actions == before + [a];
    RunKeepsInv(before);
    if ArmRaises in before {
      RaisedArmingStays(before);
      PastArming(Exec(before).value, a);
    } else {
      RaisesArming(Exec(before).value);
    }
  }

  lemma RaisesArming(s: State)
    requires Inv(s) && Step(s, ArmRaises).Some?
    ensures !Step(s, ArmRaises).value.returned && Distance(Step(s, ArmRaises).value.pc) < 15
  {
    hide Inv, Step, Distance;
    ArmingOutcome(s, ArmRaises);
    ArmingEnds(s, ArmRaises);
    NotReturnedYet(s);
    ArmRaisesTo(s);
    Distances();
  }

  lemma ArmRaisesTo(s: State)
    requires Step(s, ArmRaises).Some?
    ensures Step(s, ArmRaises).value.pc.LeaveArming1?
  {
    hide Advance, Handle, EndTermination;
  }

  lemma PastArming(s: State, a: Action)
    requires Inv(s) && Step(s, a).Some? && !s.returned && Distance(s.pc) < 15
    ensures !Step(s, a).value.returned && Distance(Step(s, a).value.pc) < 15
  {
    hide Inv, Distance, Handle, Advance, EndTermination, Raise;
    Distances();
    match a
    case Deliver(signal) =>
      var t := s.(signals := s.signals + 1);
      Delivered(t, signal);
      UnwindMovesOn(s.pc);
      if Raises(t, signal) { RaisingHandler(t, signal); }
    case Go =>
      Goes(s);
      AdvanceMovesOn(s);
    case ArmReturns(_) => ArmingOutcome(s, a);
    case ArmRaises => ArmingOutcome(s, a);
    case CaptureEnds(ok) =>
      CaptureOutcome(s, a);
      CaptureEnded(s, ok);
    case TerminationEnds(ending) =>
      BeforeEnding(s);
      Endings(s, ending);
      EndingLeaves(s, ending);
  }

  /** A capture that succeeded, and a SIGINT once its handlers have been put back. */
  function LateRun(): seq<Action> {
    [Go, Go, Go, Go, ArmReturns(true), Go, Go, Go, Go, Go, Go, Go, CaptureEnds(true), Go, Go, Deliver(Int), Go]
  }

  function During(pc: Pc, onInt: Handler, onTerm: Handler, returned: bool, stored: bool, captured: bool): State {
    State(pc, onInt, onTerm, false, false, false, false, false, returned, stored, captured, 0, false, false, 0)
  }

  function LateStates(): seq<State> {
    [During(EnterCleanup1, Outer, Outer, false, false, false),
     During(EnterCleanup2, Cleanup, Outer, false, false, false),
     During(EnterArming1, Cleanup, Cleanup, false, false, false),
     During(EnterArming2, Arming, Cleanup, false, false, false),
     During(Arm, Arming, Arming, false, false, false),
     During(Assign, Arming, Arming, true, false, false),
     During(LeaveArming1, Arming, Arming, true, true, false),
     During(LeaveArming2, Cleanup, Arming, true, true, false),
     During(ArmingPending, Cleanup, Cleanup, true, true, false),
     During(EnterInner1, Cleanup, Cleanup, true, true, false),
     During(EnterInner2, Inner, Cleanup, true, true, false),
     During(CleanupPending, Inner, Inner, true, true, false),
     During(Capture, Inner, Inner, true, true, false),
     During(LeaveInner1, Inner, Inner, true, true, true),
     During(LeaveInner2, Cleanup, Inner, true, true, true),
     During(Finally, Cleanup, Cleanup, true, true, true),
     During(Finally, Cleanup, Cleanup, true, true, true).(cleanupPending := true, signals := 1),
     During(Terminate, Cleanup, Cleanup, true, true, true).(cleanupPending := true, signals := 1, terminations := 1)]
  }

  /** Termination is not told of a signal that comes this late; the exit still fails by HowItEnds. */
  lemma LateSignalIsNotTold()
    ensures Exec(LateRun()).Some?
    ensures var s := Exec(LateRun()).value; s.pc.Terminate? && !s.told && s.signals == 1
  {
    LateEntering();
    LateArmed();
    LateLeaving();
    hide Step;
    RunAlong(LateStates(), LateRun(), 17);
    assert LateRun()[..17] == LateRun();
  }

  lemma LateEntering()
    ensures forall k :: 0 <= k < 6 ==> Step(LateStates()[k], LateRun()[k]) == Some(LateStates()[k + 1])
  {
    hide Raise, EndTermination, Handle;
  }

  lemma LateArmed()
    ensures forall k :: 6 <= k < 12 ==> Step(LateStates()[k], LateRun()[k]) == Some(LateStates()[k + 1])
  {
    hide Raise, EndTermination, Handle;
  }

  lemma LateLeaving()
    ensures forall k :: 12 <= k < 17 ==> Step(LateStates()[k], LateRun()[k]) == Some(LateStates()[k + 1])
  {
    hide Raise, EndTermination;
  }
}
