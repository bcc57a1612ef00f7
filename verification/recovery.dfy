/**
 One interrupted run and its recovery (the C4 cases): dispatch, fault, read the external
 ledgers, then reconcile, retry once or stop safely; and the verdict over what is left.
 */
module Recovery {
  import opened Basics
  import opened CaseLedgers
  import opened EffectSinks
  import opened Hosts

  /** What recovery decided, with the ledger sizes it wrote into its reconcile event. */
  datatype Plan =
    | Reconcile(effects: nat, toolResults: nat)
    | SafeStop
    | RetryOnce(effects: nat, toolResults: nat)

  /** The steps of the first dispatch up to and including the fault. */
  function InitialTrace(fault: Option<Fault>): seq<Kind> {
    [ThreadStarted, TurnStarted(Initial), Dispatched(fault)] + StrikeTrace(fault)
  }

  function StrikeTrace(fault: Option<Fault>): seq<Kind> {
    match fault
    case None => [TurnCompleted]
    case Some(ProcessInterrupt) => [FaultInjected(ProcessInterrupt)]
    case Some(f) => [FaultInjected(f), InterruptRequested, TurnCompleted]
  }

  /** What follows once the ledgers are read. */
  function PlanSteps(plan: Plan, number: nat): seq<Kind> {
    match plan
    case Reconcile(e, r) => ReconcileSteps(e, r)
    case SafeStop => [RunSafeStopped]
    case RetryOnce(e, r) => RetrySteps(number) + RetryOutcome(e, r)
  }

  function ReconcileSteps(e: nat, r: nat): seq<Kind> {
    [SideEffectReconciled("no-reexecution", e, r), TurnStarted(ReconcileNoTool), TurnCompleted,
     ResultRecorded("completed-after-reconcile", e, r)]
  }

  function RetrySteps(number: nat): seq<Kind> {
    [RetryDecided(number), TurnStarted(Retry), TurnCompleted]
  }

  function RetryOutcome(e: nat, r: nat): seq<Kind> {
    [SideEffectReconciled("one-bounded-retry", e, r), ResultRecorded("completed-after-retry", e, r)]
  }

  function RecoveryTrace(plan: Plan, number: nat): seq<Kind> {
    [ThreadResumed] + PlanSteps(plan, number)
  }

  lemma RetrySlices(number: nat, e: nat, r: nat, done: nat)
    requires done <= 3
    ensures PlanSteps(RetryOnce(e, r), number)[..done] == RetrySteps(number)[..done]
    ensures PlanSteps(RetryOnce(e, r), number)[..3] == RetrySteps(number)
    ensures PlanSteps(RetryOnce(e, r), number)[..5] == RetrySteps(number)
      + [SideEffectReconciled("one-bounded-retry", e, r)] + [ResultRecorded("completed-after-retry", e, r)]
  {
  }

  lemma TraceSlice(plan: Plan, number: nat, more: nat)
    requires more <= |PlanSteps(plan, number)|
    ensures RecoveryTrace(plan, number)[..1 + more] == [ThreadResumed] + PlanSteps(plan, number)[..more]
  {
  }

  // ----- What the replies let through -----

  /** The signal is sent once the tool has reported, and may be answered or not. */
  function AfterKill(script: seq<Reaction>): (r: Option<seq<Reaction>>)
    ensures r.Some? ==> |r.value| <= |script|
  {
    if AfterAnswers(script, 1).None? || (|script| >= 2 && script[1].reply.Broken?) then None
    else Some(if |script| >= 2 then script[2..] else [])
  }

  function AfterStrike(script: seq<Reaction>, fault: Option<Fault>): (r: Option<seq<Reaction>>)
    ensures r.Some? ==> |r.value| <= |script|
  {
    match fault
    case None => AfterWait(script)
    case Some(ProcessInterrupt) => AfterKill(script)
    case Some(_) => if AfterAnswers(script, 2).None? then None else AfterWait(script[2..])
  }

  /** What the first turn is said to have come to. */
  function StrikeEnd(script: seq<Reaction>, fault: Option<Fault>): string
    requires AfterStrike(script, fault).Some?
  {
    match fault
    case None => EndOf(script)
    case Some(ProcessInterrupt) => "process_interrupted"
    case Some(_) => EndOf(script[2..])
  }

  /** Thread and turn must start before the fault is struck. */
  function AfterInitial(script: seq<Reaction>, fault: Option<Fault>): (r: Option<seq<Reaction>>)
    ensures r.Some? ==> |script| >= 2 && script[0].reply.Answered?
    ensures r.Some? ==> |r.value| <= |script|
  {
    if AfterAnswers(script, 2).None? then None else AfterStrike(script[2..], fault)
  }

  /** A fresh server for a killed one, and a resume that names the thread asked for, which must have a name. */
  function AfterResume(script: seq<Reaction>, killed: bool, threadId: string): (r: Option<seq<Reaction>>)
    ensures r.Some? ==> |r.value| <= |script|
  {
    if threadId == "" || (killed && AfterAnswers(script, 1).None?) then None
    else
      var rest := if killed then script[1..] else script;
      if AfterAnswers(rest, 1).None? || rest[0].reply.value != threadId then None else Some(rest[1..])
  }

  /** Acting on the plan: a safe stop always succeeds, a turn must complete, and a retried write leave one effect. */
  predicate Acts(plan: Plan, script: seq<Reaction>, toolClass: ToolClass) {
    || plan.SafeStop?
    || (AfterTurn(script).Some? && (plan.RetryOnce? && !toolClass.ReadOnly? ==> plan.effects == 1))
  }

  function AfterPlan(plan: Plan, script: seq<Reaction>): seq<Reaction> {
    if plan.SafeStop? || AfterTurn(script).None? then script else AfterTurn(script).value
  }

  /** A turn is dispatched by the second reaction. */
  ghost predicate StartsTurn(
    before: seq<Moment>, script: seq<Reaction>, after: seq<Moment>, rest: seq<Reaction>, turns: nat)
  {
    && script != [] && |after| > |before|
    && Since(before, script, after[..|before| + 1], script[1..], turns, true)
    && Since(after[..|before| + 1], script[1..], after, rest, turns + 1, true)
  }

  /** Both ledgers empty is the only licence to act again, and not after a timed-out approved tool. */
  predicate Decides(plan: Plan, seen: Files, fault: Fault, toolClass: ToolClass) {
    if seen.effects != [] || seen.toolResults != [] then plan == Reconcile(|seen.effects|, |seen.toolResults|)
    else if fault.ToolTimeout? && toolClass.ApprovalRequired? then plan.SafeStop?
    else plan.RetryOnce?
  }

  /** `setup_server`: the provider and the app server come up, or the case raises. */
  method SetUp(host: Host) returns (ok: bool)
    requires host.Valid()
    modifies host`files, host`behind, host`script, host`history, host.ledger
    ensures host.Valid() && Grew(old(host.files), host.files)
    ensures Since(old(host.history), old(host.script), host.history, host.script, host.turns, true)
    ensures ok <==> AfterAnswers(old(host.script), 2).Some?
    ensures ok ==> host.script == old(host.script)[2..]
    ensures |old(host.script)| - |host.script| <= 2
    ensures Advanced(old(host.ledger.View()), host.ledger.View(), if ok then [ProviderReady] else [],
      old(host.ledger.state))
  {
    hide Coherent, Trace, WorldOk, Host.Valid, Since;
    ok := false;
    var reply := host.Call();
    if !reply.Answered? { return; }
    ghost var past, rest := host.history, host.script;
    reply := host.Call();
    SinceThen(old(host.history), old(host.script), past, rest, host.history, host.script, host.turns, true);
    if !reply.Answered? { return; }
    host.Note(ProviderReady);
    ok := true;
  }

  /** `run_codex_initial` up to the dispatch event. */
  method Dispatch(host: Host, fault: Option<Fault>) returns (ok: bool, ghost done: nat)
    requires host.Valid()
    modifies host`files, host`behind, host`script, host`history, host`turns, host.ledger
    ensures host.Valid() && Grew(old(host.files), host.files) && old(host.history) <= host.history
    ensures ok <==> AfterAnswers(old(host.script), 2).Some?
    ensures ok ==> host.script == old(host.script)[2..]
    ensures host.turns == old(host.turns) ==>
      && |old(host.script)| - |host.script| <= 1
      && Since(old(host.history), old(host.script), host.history, host.script, host.turns, true)
    ensures host.turns > old(host.turns) ==>
      StartsTurn(old(host.history), old(host.script), host.history, host.script, old(host.turns))
    ensures old(host.turns) <= host.turns <= old(host.turns) + 1 && (ok ==> host.turns == old(host.turns) + 1)
    ensures done <= 3 && (ok ==> done == 3)
    ensures Advanced(old(host.ledger.View()), host.ledger.View(),
              [ThreadStarted, TurnStarted(Initial), Dispatched(fault)][..done], host.ledger.state)
    ensures host.ledger.state.status == old(host.ledger.state.status)
    ensures host.ledger.state.retryCount == old(host.ledger.state.retryCount)
    ensures ok ==>
      host.ledger.state.threadId == Some(old(host.script)[0].reply.value) && host.ledger.state.turnId.Some?
  {
    hide Coherent, Trace, WorldOk, Host.Valid, Since, StartsTurn;
    done := 0;
    ok := host.ThreadStart();
    ghost var past, rest := host.history, host.script;
    OneTurn(old(host.history), old(host.script), past, rest, past, rest, host.turns);
    if ok {
      done := 1;
      ok := host.TurnStart(Initial);
      OneTurn(old(host.history), old(host.script), past, rest, host.history, host.script, old(host.turns));
      if ok {
        host.Note(Dispatched(fault));
        done := 3;
      }
    }
  }

  /** One reaction, and then what is met with a turn more. */
  lemma OneTurn(
    before: seq<Moment>, script: seq<Reaction>, past: seq<Moment>, middle: seq<Reaction>, after: seq<Moment>,
    rest: seq<Reaction>, turns: nat)
    requires Since(before, script, past, middle, turns, true) && middle == Rest(script)
    ensures before <= past
    ensures script != [] && Since(past, middle, after, rest, turns + 1, true) ==>
      StartsTurn(before, script, after, rest, turns) && before <= after
  {
    if script != [] && Since(past, middle, after, rest, turns + 1, true) {
      assert |middle| == |script| - (|past| - |before|);
      assert after[..|before| + 1] == past;
    }
  }

  /** Read the tool ledgers and log the kill, before the signal is sent. */
  method RecordKill(host: Host)
    requires host.Valid()
    modifies host.ledger
    ensures host.Valid()
    ensures Advanced(old(host.ledger.View()), host.ledger.View(), [FaultInjected(ProcessInterrupt)], host.ledger.state)
    ensures host.ledger.state == old(host.ledger.state).(
              effectStatus := host.ledger.state.effectStatus, resultStatus := host.ledger.state.resultStatus)
  {
    hide Coherent, Trace, WorldOk, Host.Valid;
    var _ := host.UpdateEffectStatus();
    host.Note(FaultInjected(ProcessInterrupt));
  }

  /** The process is killed after the tool result and before the turn completes. */
  method KillProcess(host: Host) returns (ok: bool, ghost done: nat)
    requires host.Valid()
    modifies host`files, host`behind, host`script, host`history, host.ledger
    ensures host.Valid() && Grew(old(host.files), host.files)
    ensures Since(old(host.history), old(host.script), host.history, host.script, host.turns, true)
    ensures ok <==> AfterKill(old(host.script)).Some?
    ensures ok ==> host.script == AfterKill(old(host.script)).value
    ensures done <= 1 && (ok ==> done == 1)
    ensures Advanced(old(host.ledger.View()), host.ledger.View(),
      [FaultInjected(ProcessInterrupt)][..done], host.ledger.state)
    ensures host.ledger.state == old(host.ledger.state).(
              effectStatus := host.ledger.state.effectStatus, resultStatus := host.ledger.state.resultStatus)
  {
    hide Coherent, Trace, WorldOk, Host.Valid, Since;
    ok, done := false, 0;
    var reply := host.Call();
    if !reply.Answered? { return; }
    ghost var past, rest := host.history, host.script;
    RecordKill(host);
    done := 1;
    reply := host.Call();
    SinceThen(old(host.history), old(host.script), past, rest, host.history, host.script, host.turns, true);
    ok := !reply.Broken?;
  }

  /** Wait for the injection point, and interrupt the turn there. */
  method InjectFault(host: Host, fault: Fault) returns (ok: bool, ghost done: nat)
    requires host.Valid()
    modifies host`files, host`behind, host`script, host`history, host.ledger
    ensures host.Valid() && Grew(old(host.files), host.files)
    ensures Since(old(host.history), old(host.script), host.history, host.script, host.turns, true)
    ensures ok <==> AfterAnswers(old(host.script), 2).Some?
    ensures ok ==> host.script == old(host.script)[2..]
    ensures done <= 2 && (ok ==> done == 2)
    ensures Advanced(old(host.ledger.View()), host.ledger.View(),
              [FaultInjected(fault), InterruptRequested][..done], old(host.ledger.state))
  {
    hide Coherent, Trace, WorldOk, Host.Valid, Since;
    ok, done := false, 0;
    var reply := host.Call();
    if !reply.Answered? { return; }
    ghost var past, rest := host.history, host.script;
    ok := host.Interrupt(fault);
    SinceThen(old(host.history), old(host.script), past, rest, host.history, host.script, host.turns, true);
    done := if ok then 2 else 1;
  }

  /** The turn is interrupted over the protocol, and must then report its completion. */
  method InterruptTurn(host: Host, fault: Fault) returns (ok: bool, status: string, ghost done: nat)
    requires host.Valid()
    modifies host`files, host`behind, host`script, host`history, host.ledger
    ensures host.Valid() && Grew(old(host.files), host.files)
    ensures Since(old(host.history), old(host.script), host.history, host.script, host.turns, true)
    ensures ok <==> AfterAnswers(old(host.script), 2).Some? && AfterWait(old(host.script)[2..]).Some?
    ensures ok ==> host.script == AfterWait(old(host.script)[2..]).value && status == EndOf(old(host.script)[2..])
    ensures done <= 3 && (ok ==> done == 3)
    ensures Advanced(old(host.ledger.View()), host.ledger.View(),
              [FaultInjected(fault), InterruptRequested, TurnCompleted][..done], old(host.ledger.state))
  {
    hide Coherent, Trace, WorldOk, Host.Valid, Since, AfterWait, EndOf;
    status := "";
    ok, done := InjectFault(host, fault);
    if ok {
      ghost var past, rest := host.history, host.script;
      ok, status := host.WaitTurnCompleted();
      SinceThen(old(host.history), old(host.script), past, rest, host.history, host.script, host.turns, true);
      done := if ok then 3 else 2;
    }
  }

  /** The rest of `run_codex_initial`: wait for the injection point, inject, observe the end. */
  method Strike(host: Host, fault: Option<Fault>) returns (ok: bool, status: string, ghost done: nat)
    requires host.Valid()
    modifies host`files, host`behind, host`script, host`history, host.ledger
    ensures host.Valid() && Grew(old(host.files), host.files)
    ensures Since(old(host.history), old(host.script), host.history, host.script, host.turns, true)
    ensures ok <==> AfterStrike(old(host.script), fault).Some?
    ensures ok ==> host.script == AfterStrike(old(host.script), fault).value
    ensures ok ==> status == StrikeEnd(old(host.script), fault)
    ensures done <= |StrikeTrace(fault)| && (ok ==> done == |StrikeTrace(fault)|)
    ensures Advanced(old(host.ledger.View()), host.ledger.View(), StrikeTrace(fault)[..done], host.ledger.state)
    ensures host.ledger.state == old(host.ledger.state).(
              effectStatus := host.ledger.state.effectStatus, resultStatus := host.ledger.state.resultStatus)
    ensures fault != Some(ProcessInterrupt) ==> host.ledger.state == old(host.ledger.state)
  {
    hide Coherent, Trace, WorldOk, Host.Valid, Since;
    match fault
    case None =>
      ok, status := host.WaitTurnCompleted();
      done := if ok then 1 else 0;
    case Some(ProcessInterrupt) =>
      ok, done := KillProcess(host);
      status := "process_interrupted";
    case Some(f) =>
      ok, status, done := InterruptTurn(host, f);
  }

  lemma StillStarts(
    before: seq<Moment>, script: seq<Reaction>, between: seq<Moment>, middle: seq<Reaction>,
    after: seq<Moment>, rest: seq<Reaction>, turns: nat)
    requires StartsTurn(before, script, between, middle, turns) && Since(between, middle, after, rest, turns + 1, true)
    ensures StartsTurn(before, script, after, rest, turns) && before <= after
  {
    var first := between[..|before| + 1];
    assert after[..|before| + 1] == first;
    SinceThen(first, script[1..], between, middle, after, rest, turns + 1, true);
    hide Since;
  }

  method RunInitial(host: Host, fault: Option<Fault>) returns (ok: bool, status: string, ghost done: nat)
    requires host.Valid()
    modifies host`files, host`behind, host`script, host`history, host`turns, host.ledger
    ensures host.Valid() && Grew(old(host.files), host.files) && old(host.history) <= host.history
    ensures ok <==> AfterInitial(old(host.script), fault).Some?
    ensures ok ==> host.script == AfterInitial(old(host.script), fault).value
    ensures host.turns == old(host.turns) ==>
      && |old(host.script)| - |host.script| <= 1
      && Since(old(host.history), old(host.script), host.history, host.script, host.turns, true)
    ensures host.turns > old(host.turns) ==>
      StartsTurn(old(host.history), old(host.script), host.history, host.script, old(host.turns))
    ensures ok ==> status == StrikeEnd(old(host.script)[2..], fault)
    ensures old(host.turns) <= host.turns <= old(host.turns) + 1 && (ok ==> host.turns == old(host.turns) + 1)
    ensures done <= |InitialTrace(fault)| && (ok ==> done == |InitialTrace(fault)|)
    ensures Advanced(old(host.ledger.View()), host.ledger.View(), InitialTrace(fault)[..done], host.ledger.state)
    ensures host.ledger.state.status == old(host.ledger.state.status)
    ensures host.ledger.state.retryCount == old(host.ledger.state.retryCount)
    ensures ok ==>
      host.ledger.state.threadId == Some(old(host.script)[0].reply.value) && host.ledger.state.turnId.Some?
  {
    hide Coherent, Trace, WorldOk, Host.Valid, Since, AfterStrike, StrikeEnd;
    status := "";
    var start := [ThreadStarted, TurnStarted(Initial), Dispatched(fault)];
    ok, done := Dispatch(host, fault);
    assert InitialTrace(fault)[..done] == start[..done];
    if ok {
      ghost var struck;
      ghost var past, rest := host.history, host.script;
      ok, status, struck := Strike(host, fault);
      StillStarts(old(host.history), old(host.script), past, rest, host.history, host.script, old(host.turns));
      done := 3 + struck;
      assert InitialTrace(fault)[..done] == start + StrikeTrace(fault)[..struck];
    }
  }

  /** The ledger after an exception-free recovery: status, identity, retry count and result record. */
  ghost predicate Settled(before: Ledger, after: Ledger, plan: Plan) {
    && after.ids == before.ids
    && after.state.threadId == before.state.threadId
    && after.state.retryCount == before.state.retryCount + (if plan.RetryOnce? then 1 else 0)
    && if plan.SafeStop? then
         && after.state.status == SafeStopped
         && after.state.safeStopReason.Some?
         && after.state.turnId == before.state.turnId
         && after.results == before.results
       else
         && after.state.status == Completed
         && after.state.turnId.Some?
         && after.results == before.results + [ResultRecord(
              after.ids, if plan.Reconcile? then "completed-after-reconcile" else "completed-after-retry",
              plan.effects, plan.toolResults, after.state.threadId, after.state.turnId)]
  }

  /** The closing state and the result record. */
  method Complete(host: Host, checkpoint: string, outcome: string, effects: nat, toolResults: nat)
    requires host.Valid()
    modifies host.ledger
    ensures host.Valid()
    ensures Trace(host.ledger.events) == old(Trace(host.ledger.events))
      + [ResultRecorded(outcome, effects, toolResults)]
    ensures old(host.ledger.events) <= host.ledger.events
    ensures host.ledger.state == old(host.ledger.state).(
              status := Completed, phase := "completed", lastCheckpoint := "result-recorded",
              resultStatus := "completed")
    ensures host.ledger.results == old(host.ledger.results) + [ResultRecord(
              host.ledger.ids, outcome, effects, toolResults, host.ledger.state.threadId, host.ledger.state.turnId)]
  {
    hide Coherent, Trace, WorldOk, Host.Valid;
    host.Assign(host.ledger.state.(status := Completed, phase := "completed", lastCheckpoint := checkpoint));
    host.Finish(outcome, effects, toolResults);
  }

  /** The reconcile event and the turn that may not call tools. */
  method ReconcileTurn(host: Host, seen: Files) returns (ok: bool, ghost done: nat)
    requires host.Valid()
    modifies host`files, host`behind, host`script, host`history, host`turns, host.ledger
    ensures host.Valid() && Grew(old(host.files), host.files) && host.turns == old(host.turns)
    ensures Since(old(host.history), old(host.script), host.history, host.script, host.turns, true)
    ensures 1 <= done <= 3 && (ok ==> done == 3)
    ensures ok <==> AfterTurn(old(host.script)).Some?
    ensures ok ==> host.script == AfterTurn(old(host.script)).value
    ensures Advanced(old(host.ledger.View()), host.ledger.View(),
              ReconcileSteps(|seen.effects|, |seen.toolResults|)[..done], host.ledger.state)
    ensures host.ledger.state.retryCount == old(host.ledger.state.retryCount)
    ensures host.ledger.state.effectStatus == old(host.ledger.state.effectStatus)
    ensures host.ledger.state.threadId == old(host.ledger.state.threadId)
    ensures ok ==> host.ledger.state.turnId.Some?
  {
    hide Coherent, Trace, WorldOk, Host.Valid, Since, AfterWait;
    host.Note(SideEffectReconciled("no-reexecution", |seen.effects|, |seen.toolResults|));
    done := 1;
    ok := host.TurnStart(ReconcileNoTool);
    if ok {
      ghost var past, rest := host.history, host.script;
      var status;
      ok, status := host.WaitTurnCompleted();
      SinceThen(old(host.history), old(host.script), past, rest, host.history, host.script, host.turns, true);
      done := if ok then 3 else 2;
    }
  }

  /** Something is on the ledgers: a turn that may not call tools, then the result. */
  method ReconcileLedgers(host: Host, seen: Files) returns (ok: bool, ghost done: nat)
    requires host.Valid()
    modifies host`files, host`behind, host`script, host`history, host`turns, host.ledger
    ensures host.Valid() && Grew(old(host.files), host.files) && host.turns == old(host.turns)
    ensures Since(old(host.history), old(host.script), host.history, host.script, host.turns, true)
    ensures ok <==> AfterTurn(old(host.script)).Some?
    ensures ok ==> host.script == AfterTurn(old(host.script)).value
    ensures done <= 4 && (ok ==> done == 4)
    ensures host.ledger.state.retryCount == old(host.ledger.state.retryCount)
    ensures host.ledger.state.effectStatus == old(host.ledger.state.effectStatus)
    ensures Trace(host.ledger.events) == old(Trace(host.ledger.events))
              + ReconcileSteps(|seen.effects|, |seen.toolResults|)[..done]
    ensures old(host.ledger.events) <= host.ledger.events
    ensures !ok ==> host.ledger.results == old(host.ledger.results)
    ensures ok ==> Settled(old(host.ledger.View()), host.ledger.View(), Reconcile(|seen.effects|, |seen.toolResults|))
  {
    hide Coherent, Trace, WorldOk, Host.Valid, Since;
    ghost var steps := ReconcileSteps(|seen.effects|, |seen.toolResults|);
    ok, done := ReconcileTurn(host, seen);
    if ok {
      assert steps[..4] == steps[..3]
        + [ResultRecorded("completed-after-reconcile", |seen.effects|, |seen.toolResults|)];
      hide ReconcileSteps;
      Complete(host, "reconciled", "completed-after-reconcile", |seen.effects|, |seen.toolResults|);
      done := 4;
    }
  }

  /** The retry is counted and noted before anything is dispatched. */
  method DecideRetry(host: Host)
    requires host.Valid()
    modifies host.ledger
    ensures host.Valid()
    ensures Advanced(old(host.ledger.View()), host.ledger.View(), [RetryDecided(old(host.ledger.state.retryCount) + 1)],
              old(host.ledger.state).(
              retryCount := old(host.ledger.state.retryCount) + 1, phase := "retry-decided",
              lastCheckpoint := "retry-decided"))
  {
    hide Coherent, Trace, WorldOk, Host.Valid;
    host.Assign(host.ledger.state.(
      retryCount := host.ledger.state.retryCount + 1, phase := "retry-decided", lastCheckpoint := "retry-decided"));
    host.Note(RetryDecided(host.ledger.state.retryCount));
  }

  /** The one bounded retry: counted in the state and on the ledger before the turn starts. */
  method RetryTurn(host: Host) returns (ok: bool, ghost done: nat)
    requires host.Valid()
    modifies host`files, host`behind, host`script, host`history, host`turns, host.ledger
    ensures host.Valid() && Grew(old(host.files), host.files)
    ensures Since(old(host.history), old(host.script), host.history, host.script, host.turns, true)
    ensures host.turns == old(host.turns) + 1
    ensures done <= 3 && (ok ==> done == 3)
    ensures ok <==> AfterTurn(old(host.script)).Some?
    ensures ok ==> host.script == AfterTurn(old(host.script)).value
    ensures Advanced(old(host.ledger.View()), host.ledger.View(),
              RetrySteps(old(host.ledger.state.retryCount) + 1)[..done], host.ledger.state)
    ensures host.ledger.state.retryCount == old(host.ledger.state.retryCount) + 1
    ensures host.ledger.state.threadId == old(host.ledger.state.threadId)
    ensures ok ==> host.ledger.state.turnId.Some?
  {
    hide Coherent, Trace, WorldOk, Host.Valid, Since, AfterWait;
    DecideRetry(host);
    done := 1;
    ok := host.TurnStart(Retry);
    if ok {
      done := 2;
      ghost var past, rest := host.history, host.script;
      var status: string;
      ok, status := host.WaitTurnCompleted();
      SinceThen(old(host.history), old(host.script), past, rest, host.history, host.script, host.turns, true);
      done := if ok then 3 else 2;
    }
  }

  /** The reconciliation event and the result of a retry. */
  method CompleteRetry(host: Host, seen: Files)
    requires host.Valid()
    modifies host.ledger
    ensures host.Valid()
    ensures Trace(host.ledger.events) == old(Trace(host.ledger.events))
      + [SideEffectReconciled("one-bounded-retry", |seen.effects|, |seen.toolResults|)]
      + [ResultRecorded("completed-after-retry", |seen.effects|, |seen.toolResults|)]
    ensures old(host.ledger.events) <= host.ledger.events
    ensures host.ledger.state == old(host.ledger.state).(
              status := Completed, phase := "completed", lastCheckpoint := "result-recorded",
              resultStatus := "completed")
    ensures host.ledger.results == old(host.ledger.results) + [ResultRecord(
              host.ledger.ids, "completed-after-retry", |seen.effects|, |seen.toolResults|,
              host.ledger.state.threadId, host.ledger.state.turnId)]
  {
    hide Coherent, Trace, WorldOk, Host.Valid;
    host.Note(SideEffectReconciled("one-bounded-retry", |seen.effects|, |seen.toolResults|));
    Complete(host, "retry-completed", "completed-after-retry", |seen.effects|, |seen.toolResults|);
  }

  /** Nothing is on the ledgers: the retry turn, then read again; a write must show exactly one effect. */
  method RetryTool(host: Host) returns (ok: bool, seen: Files, ghost done: nat)
    requires host.Valid()
    modifies host`files, host`behind, host`script, host`history, host`turns, host.ledger
    ensures host.Valid() && Grew(old(host.files), host.files)
    ensures Since(old(host.history), old(host.script), host.history, host.script, host.turns, true)
    ensures host.turns == old(host.turns) + 1
    ensures AfterTurn(old(host.script)).Some? ==>
      host.script == AfterTurn(old(host.script)).value && seen == host.files
    ensures ok <==> AfterTurn(old(host.script)).Some? && (!host.tool.toolClass.ReadOnly? ==> |seen.effects| == 1)
    ensures done <= 5 && (ok ==> done == 5)
    ensures Trace(host.ledger.events) == old(Trace(host.ledger.events))
              + PlanSteps(RetryOnce(|seen.effects|, |seen.toolResults|), old(host.ledger.state.retryCount) + 1)[..done]
    ensures old(host.ledger.events) <= host.ledger.events
    ensures !ok ==> host.ledger.results == old(host.ledger.results)
    ensures ok ==> (host.ledger.state.effectStatus.Applied? <==> seen.effects != [])
    ensures ok ==> Settled(old(host.ledger.View()), host.ledger.View(), RetryOnce(|seen.effects|, |seen.toolResults|))
    ensures ok ==> Grew(seen, host.files) && (!host.tool.toolClass.ReadOnly? ==> |seen.effects| == 1)
  {
    hide Coherent, Trace, WorldOk, Host.Valid, Since;
    ghost var number := host.ledger.state.retryCount + 1;
    ok, done := RetryTurn(host);
    seen := EMPTY;
    RetrySlices(number, 0, 0, done);
    hide PlanSteps, RetrySteps;
    if !ok { return; }
    seen := host.UpdateEffectStatus();
    RetrySlices(number, |seen.effects|, |seen.toolResults|, 3);
    if !host.tool.toolClass.ReadOnly? && |seen.effects| != 1 {
      ok := false;
      return;
    }
    CompleteRetry(host, seen);
    done := 5;
  }

  /** A fresh server, when the old one was killed. */
  method Restart(host: Host, killed: bool) returns (ok: bool)
    requires host.Valid()
    modifies host`files, host`behind, host`script, host`history, host.ledger
    ensures host.Valid() && Grew(old(host.files), host.files)
    ensures Since(old(host.history), old(host.script), host.history, host.script, host.turns, true)
    ensures ok <==> killed ==> AfterAnswers(old(host.script), 1).Some?
    ensures ok ==> host.script == if killed then old(host.script)[1..] else old(host.script)
    ensures Advanced(old(host.ledger.View()), host.ledger.View(), [], old(host.ledger.state))
  {
    hide Coherent, Trace, WorldOk, Host.Valid, Since;
    NothingSince(host.history, host.script, host.turns, true);
    ok := true;
    if killed {
      var reply := host.Call();
      ok := reply.Answered?;
    }
  }

  /** Reconnect to the interrupted thread and read both external ledgers. */
  method Reconnect(host: Host, killed: bool) returns (ok: bool, seen: Files)
    requires host.Valid()
    modifies host`files, host`behind, host`script, host`history, host.ledger
    ensures host.Valid() && Grew(old(host.files), host.files)
    ensures Since(old(host.history), old(host.script), host.history, host.script, host.turns, true)
    ensures ok <==>
      && old(host.ledger.state.threadId.Some?)
      && AfterResume(old(host.script), killed, old(host.ledger.state.threadId).value).Some?
    ensures ok ==>
      host.script == AfterResume(old(host.script), killed, old(host.ledger.state.threadId).value).value
    ensures Advanced(old(host.ledger.View()), host.ledger.View(), if ok then [ThreadResumed] else [], host.ledger.state)
    ensures ok ==> (host.ledger.state.effectStatus.Applied? <==> seen.effects != [])
    ensures ok ==> seen == host.files && host.ledger.state.threadId.Some?
    ensures host.ledger.state.(phase := "", lastCheckpoint := "", effectStatus := NoEffect, resultStatus := "")
         == old(host.ledger.state).(phase := "", lastCheckpoint := "", effectStatus := NoEffect, resultStatus := "")
  {
    hide Coherent, Trace, WorldOk, Host.Valid, Since;
    ok, seen := false, EMPTY;
    host.Reload();
    if host.ledger.state.threadId.None? || host.ledger.state.threadId.value == "" {
      NothingSince(host.history, host.script, host.turns, true);
      return;
    }
    var threadId := host.ledger.state.threadId.value;
    ok := Restart(host, killed);
    if !ok { return; }
    ghost var past, rest := host.history, host.script;
    ok := host.ThreadResume(threadId);
    SinceThen(old(host.history), old(host.script), past, rest, host.history, host.script, host.turns, true);
    if !ok { return; }
    seen := host.UpdateEffectStatus();
  }

  /** Act on what the ledgers held: reconcile, stop safely, or retry once. */
  method Resolve(host: Host, fault: Fault, seen: Files) returns (ok: bool, plan: Plan, ghost done: nat)
    requires host.Valid()
    modifies host`files, host`behind, host`script, host`history, host`turns, host.ledger
    ensures host.Valid() && Grew(old(host.files), host.files)
    ensures Since(old(host.history), old(host.script), host.history, host.script, host.turns, true)
    ensures Decides(plan, seen, fault, host.tool.toolClass)
    ensures plan.SafeStop? ==> host.files == old(host.files) && host.script == old(host.script)
    ensures ok <==> Acts(plan, old(host.script), host.tool.toolClass)
    ensures ok ==> host.script == AfterPlan(plan, old(host.script))
    ensures plan.RetryOnce? && AfterTurn(old(host.script)).Some? ==>
      && host.script == AfterTurn(old(host.script)).value
      && plan == RetryOnce(|host.files.effects|, |host.files.toolResults|)
    ensures host.turns == old(host.turns) + if plan.RetryOnce? then 1 else 0
    ensures done <= |PlanSteps(plan, old(host.ledger.state.retryCount) + 1)|
    ensures ok ==> done == |PlanSteps(plan, old(host.ledger.state.retryCount) + 1)|
    ensures Trace(host.ledger.events)
         == old(Trace(host.ledger.events)) + PlanSteps(plan, old(host.ledger.state.retryCount) + 1)[..done]
    ensures old(host.ledger.events) <= host.ledger.events
    ensures !ok ==> host.ledger.results == old(host.ledger.results)
    ensures ok ==> (host.ledger.state.effectStatus.Applied? <==>
      if plan.RetryOnce? then host.files.effects != [] else old(host.ledger.state.effectStatus.Applied?))
    ensures ok ==> Settled(old(host.ledger.View()), host.ledger.View(), plan)
    ensures ok && plan.RetryOnce? ==>
      plan.effects <= |host.files.effects| && (!host.tool.toolClass.ReadOnly? ==> plan.effects == 1)
  {
    hide Coherent, Trace, WorldOk, Host.Valid, ReconcileSteps, RetrySteps, RetryOutcome, Since, AfterTurn;
    NothingSince(host.history, host.script, host.turns, true);
    ghost var number := host.ledger.state.retryCount + 1;
    StepCounts(|seen.effects|, |seen.toolResults|, number);
    if seen.effects != [] || seen.toolResults != [] {
      plan := Reconcile(|seen.effects|, |seen.toolResults|);
      ok, done := ReconcileLedgers(host, seen);
    } else if fault.ToolTimeout? && host.tool.toolClass.ApprovalRequired? {
      plan := SafeStop;
      StopSafely(host, "approval-required tool outcome unknown after timeout");
      ok, done := true, 1;
      assert PlanSteps(plan, 0)[..1] == [RunSafeStopped];
    } else {
      var again;
      ok, again, done := RetryTool(host);
      plan := RetryOnce(|again.effects|, |again.toolResults|);
      StepCounts(|again.effects|, |again.toolResults|, number);
    }
  }

  lemma StepCounts(e: nat, r: nat, number: nat)
    ensures |ReconcileSteps(e, r)| == 4
    ensures |PlanSteps(RetryOnce(e, r), number)| == 5
  {
  }

  /** The safe stop: the reason goes into the state, then the event. */
  method StopSafely(host: Host, reason: string)
    requires host.Valid()
    modifies host.ledger
    ensures host.Valid()
    ensures Advanced(old(host.ledger.View()), host.ledger.View(), [RunSafeStopped], old(host.ledger.state).(
              status := SafeStopped, phase := "safe-stopped", lastCheckpoint := "safe-stopped",
              safeStopReason := Some(reason)))
  {
    hide Coherent, Trace, WorldOk, Host.Valid;
    host.Assign(host.ledger.state.(
      status := SafeStopped, phase := "safe-stopped", lastCheckpoint := "safe-stopped",
      safeStopReason := Some(reason)));
    host.Note(RunSafeStopped);
  }

  /** Reconnecting changes nothing that settling looks back at. */
  lemma SettledFrom(before: Ledger, middle: Ledger, after: Ledger, plan: Plan)
    requires Settled(middle, after, plan)
    requires before.ids == middle.ids && before.results == middle.results
    requires before.state.threadId == middle.state.threadId && before.state.turnId == middle.state.turnId
    requires before.state.retryCount == middle.state.retryCount
    ensures Settled(before, after, plan)
  {
  }

  /**
   `recover_after_interruption`.  A killed process means a fresh server must start first.
   `seen` is what the two external ledgers held when recovery read them, after moment `at` of the history.
   */
  method Recover(host: Host, fault: Fault, killed: bool)
    returns (ok: bool, plan: Plan, seen: Files, ghost done: nat, ghost at: nat)
    requires host.Valid()
    modifies host`files, host`behind, host`script, host`history, host`turns, host.ledger
    ensures host.Valid() && Grew(old(host.files), host.files) && old(host.history) <= host.history
    ensures ok ==> done > 0
    ensures done > 0 ==>
      && Decides(plan, seen, fault, host.tool.toolClass) && Grew(old(host.files), seen) && Grew(seen, host.files)
      && HeldAt(host.tool, host.history, at, old(host.turns), seen)
      && (plan.SafeStop? ==> host.files == seen)
    // It reads after the resume, and then acts, as far as the replies let it.
    ensures done > 0 <==>
      && old(host.ledger.state.threadId.Some?)
      && AfterResume(old(host.script), killed, old(host.ledger.state.threadId).value).Some?
    ensures done == 0 ==> Since(old(host.history), old(host.script), host.history, host.script, host.turns, true)
    ensures done > 0 ==>
      var rest := AfterResume(old(host.script), killed, old(host.ledger.state.threadId).value).value;
      && Since(old(host.history), old(host.script), host.history[..at], rest, old(host.turns), true)
      && Since(host.history[..at], rest, host.history, host.script, host.turns, true)
      && (ok <==> Acts(plan, rest, host.tool.toolClass))
      && (ok ==> host.script == AfterPlan(plan, rest))
      && (plan.RetryOnce? && AfterTurn(rest).Some? ==>
            host.script == AfterTurn(rest).value && plan == RetryOnce(|host.files.effects|, |host.files.toolResults|))
    ensures host.turns == old(host.turns) + if done > 0 && plan.RetryOnce? then 1 else 0
    ensures done <= |RecoveryTrace(plan, old(host.ledger.state.retryCount) + 1)|
    ensures ok ==> done == |RecoveryTrace(plan, old(host.ledger.state.retryCount) + 1)|
    ensures Trace(host.ledger.events) == old(Trace(host.ledger.events))
      + RecoveryTrace(plan, old(host.ledger.state.retryCount) + 1)[..done]
    ensures old(host.ledger.events) <= host.ledger.events
    ensures !ok ==> host.ledger.results == old(host.ledger.results)
    // The status in the end is that of the last reading.
    ensures ok ==> (host.ledger.state.effectStatus.Applied? <==>
      (if plan.RetryOnce? then host.files else seen).effects != [])
    ensures ok ==> Settled(old(host.ledger.View()), host.ledger.View(), plan)
    ensures ok && plan.RetryOnce? ==>
      plan.effects <= |host.files.effects| && (!host.tool.toolClass.ReadOnly? ==> plan.effects == 1)
  {
    hide Coherent, Trace, WorldOk, Host.Valid, Settled, HeldAt, Decides, AfterResume, AfterTurn, Acts, AfterPlan;
    plan, done, at := SafeStop, 0, 0;
    ghost var number := host.ledger.state.retryCount + 1;
    ghost var start := host.ledger.View();
    ok, seen := Reconnect(host, killed);
    if !ok { return; }
    ghost var middle, past := host.ledger.View(), host.history;
    at := |past|;
    HeldNow(host);
    ghost var more;
    ok, plan, more := Resolve(host, fault, seen);
    StillHeld(host.tool, past, host.history, at, old(host.turns), seen);
    assert host.history[..at] == past;
    done := 1 + more;
    if ok {
      SettledFrom(start, middle, host.ledger.View(), plan);
    }
    TraceSlice(plan, number, more);
    hide PlanSteps;
  }
}
