/**
 Recovery in front of the composition-owned gate: a timed-out approved call is stopped
 safely, given a bounded time to settle, and completed only on ledger evidence.
 */
module ApprovalRecovery {
  import opened Basics
  import opened CaseLedgers
  import opened EffectSinks
  import opened Hosts
  import Recovery

  datatype Plan =
    | Reconcile(effects: nat, toolResults: nat)
    | SafeStop
    | SettleLate(effects: nat, toolResults: nat)
    | RetryOnce(effects: nat, toolResults: nat)

  function PlanSteps(plan: Plan, number: nat): seq<Kind> {
    match plan
    case Reconcile(e, r) => Recovery.ReconcileSteps(e, r)
    case SafeStop => [RunSafeStopped]
    case SettleLate(e, r) => [RunSafeStopped] + LateSteps(e, r)
    case RetryOnce(e, r) => Recovery.RetrySteps(number) + Recovery.RetryOutcome(e, r)
  }

  function LateSteps(e: nat, r: nat): seq<Kind> {
    [SideEffectReconciled("no-reexecution", e, r), ResultRecorded("completed-after-safe-stop-reconcile", e, r)]
  }

  function RecoveryTrace(plan: Plan, number: nat): seq<Kind> {
    [ThreadResumed] + PlanSteps(plan, number)
  }

  /**
   The settling window that opened after `from` moments: at most `polls` further ones, out of
   `available`, each met because no tool result was there before it, and all of them unless one came.
   */
  ghost predicate Window(tool: Tool, history: seq<Moment>, from: nat, polls: nat, available: nat) {
    && from <= |history| && |history| - from <= polls && |history| - from <= available
    && (forall k :: from <= k < |history| ==> ResultsAfter(tool, history, k) == [])
    && (ResultsAfter(tool, history, |history|) == [] ==>
          |history| - from == if polls < available then polls else available)
  }

  /** The tool results after the first `n` moments. */
  ghost function ResultsAfter(tool: Tool, history: seq<Moment>, n: nat): seq<ToolResult>
    requires n <= |history|
  {
    Play(tool, history[..n]).files.toolResults
  }

  /** The settling window: look at the tool-result ledger at most `polls` times, sleeping in between. */
  method AwaitSettlement(host: Host, polls: nat)
    requires host.Valid()
    modifies host`files, host`behind, host`script, host`history
    ensures host.Valid() && Grew(old(host.files), host.files)
    ensures Since(old(host.history), old(host.script), host.history, host.script, host.turns, false)
    ensures Window(host.tool, host.history, |old(host.history)|, polls, |old(host.script)|)
    ensures old(host.files.toolResults) != [] ==> host.files == old(host.files)
  {
    hide Coherent, WorldOk, ActAll, Host.Valid, Play, Since;
    var left := polls;
    ghost var from := |host.history|;
    NothingSince(host.history, host.script, host.turns, false);
    while left > 0 && host.files.toolResults == []
      invariant host.Valid() && Grew(old(host.files), host.files) && 0 <= left <= polls
      invariant Since(old(host.history), old(host.script), host.history, host.script, host.turns, false)
      invariant from <= |host.history|
      invariant forall k :: from <= k < |host.history| ==> ResultsAfter(host.tool, host.history, k) == []
      invariant |host.history| - from == |old(host.script)| - |host.script|
      invariant |host.history| - from == polls - left || (host.script == [] && |host.history| - from <= polls - left)
      invariant old(host.files.toolResults) != [] ==> host.files == old(host.files)
    {
      HeldNow(host);
      ghost var past, rest := host.history, host.script;
      host.Elapse();
      Elapsed(host.tool, past, rest, host.history, host.script, host.turns, from);
      SinceThen(old(host.history), old(host.script), past, rest, host.history, host.script, host.turns, false);
      left := left - 1;
    }
    HeldNow(host);
    assert host.history[..|host.history|] == host.history;
  }

  /** One more look that finds nothing. */
  lemma Elapsed(
    tool: Tool, past: seq<Moment>, script: seq<Reaction>, history: seq<Moment>, rest: seq<Reaction>, turns: nat,
    from: nat)
    requires Since(past, script, history, rest, turns, false) && rest == Rest(script) && from <= |past|
    requires Play(tool, past).files.toolResults == []
    requires forall k :: from <= k < |past| ==> ResultsAfter(tool, past, k) == []
    ensures |history| - |past| == |script| - |rest|
    ensures forall k :: from <= k < |history| ==> ResultsAfter(tool, history, k) == []
  {
    hide Play;
    assert past[..|past|] == past;
    assert |rest| == |script| - (|history| - |past|);
    forall k | from <= k < |history| ensures ResultsAfter(tool, history, k) == [] {
      if k < |past| {
        assert history[..k] == past[..k];
        assert ResultsAfter(tool, past, k) == [];
      } else {
        assert k == |past|;
        assert history[..k] == past;
      }
    }
  }

  /** The second reading: complete on ledger evidence, or stay stopped. */
  method SettleOnEvidence(host: Host) returns (plan: Plan)
    requires host.Valid() && host.ledger.state.status.SafeStopped?
    modifies host.ledger
    ensures host.Valid()
    ensures plan == if host.files == EMPTY then SafeStop else SettleLate(|host.files.effects|, |host.files.toolResults|)
    ensures Trace(host.ledger.events) == old(Trace(host.ledger.events))
      + if plan.SafeStop? then [] else LateSteps(plan.effects, plan.toolResults)
    ensures old(host.ledger.events) <= host.ledger.events
    ensures host.ledger.state.retryCount == old(host.ledger.state.retryCount)
    ensures host.ledger.state.threadId == old(host.ledger.state.threadId)
    ensures host.ledger.state.turnId == old(host.ledger.state.turnId)
    ensures host.ledger.state.safeStopReason == old(host.ledger.state.safeStopReason)
    ensures host.ledger.state.status == if plan.SafeStop? then SafeStopped else Completed
    ensures host.ledger.results == old(host.ledger.results) + if plan.SafeStop? then [] else [ResultRecord(
              host.ledger.ids, "completed-after-safe-stop-reconcile", plan.effects, plan.toolResults,
              host.ledger.state.threadId, host.ledger.state.turnId)]
  {
    hide Coherent, Trace, WorldOk, Host.Valid;
    var seen := host.UpdateEffectStatus();
    if seen.effects != [] || seen.toolResults != [] {
      plan := SettleLate(|seen.effects|, |seen.toolResults|);
      host.Note(SideEffectReconciled("no-reexecution", |seen.effects|, |seen.toolResults|));
      Recovery.Complete(host, "reconciled-after-safe-stop", "completed-after-safe-stop-reconcile",
        |seen.effects|, |seen.toolResults|);
    } else {
      plan := SafeStop;
    }
  }

  /** The safe stop, the settling window of at most `polls` looks, and the second reading. */
  method StopAndSettle(host: Host, polls: nat) returns (plan: Plan)
    requires host.Valid()
    modifies host`files, host`behind, host`script, host`history, host.ledger
    ensures host.Valid() && Grew(old(host.files), host.files)
    ensures Since(old(host.history), old(host.script), host.history, host.script, host.turns, false)
    ensures Window(host.tool, host.history, |old(host.history)|, polls, |old(host.script)|)
    ensures plan == if host.files == EMPTY then SafeStop else SettleLate(|host.files.effects|, |host.files.toolResults|)
    ensures Trace(host.ledger.events) == old(Trace(host.ledger.events)) + PlanSteps(plan, 0)
    ensures old(host.ledger.events) <= host.ledger.events
    ensures host.ledger.state.retryCount == old(host.ledger.state.retryCount)
    ensures host.ledger.state.threadId == old(host.ledger.state.threadId)
    ensures host.ledger.state.turnId == old(host.ledger.state.turnId)
    ensures host.ledger.state.safeStopReason.Some?
    ensures host.ledger.state.status == if plan.SafeStop? then SafeStopped else Completed
    ensures host.ledger.results == old(host.ledger.results) + if plan.SafeStop? then [] else [ResultRecord(
              host.ledger.ids, "completed-after-safe-stop-reconcile", plan.effects, plan.toolResults,
              host.ledger.state.threadId, host.ledger.state.turnId)]
  {
    hide Coherent, Trace, WorldOk, Host.Valid, Since, Window;
    Recovery.StopSafely(host, "approval-required gate outcome unknown after tool timeout");
    AwaitSettlement(host, polls);
    plan := SettleOnEvidence(host);
  }

  /** The bounded retry of the gate; unlike the plain tool, any outcome of the gate completes the run. */
  method RetryGate(host: Host) returns (ok: bool, plan: Plan)
    requires host.Valid()
    modifies host`files, host`behind, host`script, host`history, host`turns, host.ledger
    ensures host.Valid() && Grew(old(host.files), host.files)
    ensures Since(old(host.history), old(host.script), host.history, host.script, host.turns, true)
    ensures host.turns == old(host.turns) + 1 && plan.RetryOnce?
    ensures ok <==> AfterTurn(old(host.script)).Some?
    ensures ok ==> host.script == AfterTurn(old(host.script)).value
    ensures host.ledger.state.retryCount == old(host.ledger.state.retryCount) + 1
    ensures host.ledger.state.threadId == old(host.ledger.state.threadId)
    ensures old(host.ledger.events) <= host.ledger.events
    ensures !ok ==> host.ledger.results == old(host.ledger.results)
    ensures ok ==>
      && plan == RetryOnce(|host.files.effects|, |host.files.toolResults|)
      && Trace(host.ledger.events) == old(Trace(host.ledger.events))
        + PlanSteps(plan, old(host.ledger.state.retryCount) + 1)
      && host.ledger.state.status.Completed? && host.ledger.state.turnId.Some?
      && |host.ledger.results| == |old(host.ledger.results)| + 1
  {
    hide Coherent, Trace, WorldOk, Host.Valid, Since;
    plan := RetryOnce(0, 0);
    ghost var number := host.ledger.state.retryCount + 1;
    ghost var done;
    ok, done := Recovery.RetryTurn(host);
    assert Recovery.RetrySteps(number)[..3] == Recovery.RetrySteps(number);
    hide Recovery.RetrySteps;
    if !ok { return; }
    var seen := host.UpdateEffectStatus();
    plan := RetryOnce(|seen.effects|, |seen.toolResults|);
    Recovery.CompleteRetry(host, seen);
  }

  /** Act on what the ledgers held. */
  method Resolve(host: Host, fault: Fault, seen: Files, polls: nat) returns (ok: bool, plan: Plan)
    requires host.Valid() && seen == host.files
    modifies host`files, host`behind, host`script, host`history, host`turns, host.ledger
    ensures host.Valid() && Grew(old(host.files), host.files)
    ensures Since(
      old(host.history), old(host.script), host.history, host.script, host.turns, plan.Reconcile? || plan.RetryOnce?)
    ensures ok <==> plan.SafeStop? || plan.SettleLate? || AfterTurn(old(host.script)).Some?
    ensures ok && (plan.Reconcile? || plan.RetryOnce?) ==> host.script == AfterTurn(old(host.script)).value
    ensures plan.Reconcile? ==> plan == Reconcile(|seen.effects|, |seen.toolResults|)
    // Unless it acts at once, it waits: it stays stopped only when both ledgers are empty after the window.
    ensures plan.SafeStop? || plan.SettleLate? <==>
      seen == EMPTY && fault.ToolTimeout? && host.tool.toolClass.ApprovalRequired?
    ensures plan.SafeStop? || plan.SettleLate? ==>
      && Window(host.tool, host.history, |old(host.history)|, polls, |old(host.script)|)
      && plan == if host.files == EMPTY then SafeStop
                 else SettleLate(|host.files.effects|, |host.files.toolResults|)
    ensures ok && plan.RetryOnce? ==> plan == RetryOnce(|host.files.effects|, |host.files.toolResults|)
    ensures fault.ToolTimeout? && host.tool.toolClass.ApprovalRequired? ==> !plan.RetryOnce?
    ensures host.turns == old(host.turns) + if plan.RetryOnce? then 1 else 0
    ensures plan.Reconcile? <==> seen != EMPTY
    ensures plan.RetryOnce? || host.ledger.state.retryCount == old(host.ledger.state.retryCount)
    ensures host.ledger.state.retryCount <= old(host.ledger.state.retryCount) + 1
    ensures ok ==> host.ledger.state.threadId == old(host.ledger.state.threadId)
    ensures old(host.ledger.events) <= host.ledger.events
    ensures !ok ==> host.ledger.results == old(host.ledger.results)
    ensures ok ==>
      && Trace(host.ledger.events) == old(Trace(host.ledger.events))
        + PlanSteps(plan, old(host.ledger.state.retryCount) + 1)
      && (old(host.ledger.state.turnId.Some?) ==> host.ledger.state.turnId.Some?)
      && Outcome(host.ledger.View(), old(|host.ledger.results|), plan, host.files)
  {
    hide Coherent, Trace, WorldOk, Host.Valid, Recovery.RetrySteps, Recovery.RetryOutcome, LateSteps, Since, Window;
    if seen.effects != [] || seen.toolResults != [] {
      plan := Reconcile(|seen.effects|, |seen.toolResults|);
      ghost var done;
      ok, done := Recovery.ReconcileLedgers(host, seen);
      assert Recovery.ReconcileSteps(plan.effects, plan.toolResults)[..4] ==
        Recovery.ReconcileSteps(plan.effects, plan.toolResults);
    } else if fault.ToolTimeout? && host.tool.toolClass.ApprovalRequired? {
      plan := StopAndSettle(host, polls);
      ok := true;
    } else {
      ok, plan := RetryGate(host);
    }
  }

  /**
   Safely stopped without a result and with both ledgers empty, or completed with one result;
   without a retry only on what was read from a non-empty ledger.
   */
  ghost predicate Outcome(after: Ledger, resultsBefore: nat, plan: Plan, files: Files) {
    if plan.SafeStop? then
      after.state.status.SafeStopped? && |after.results| == resultsBefore && files == EMPTY
    else
      && after.state.status.Completed? && |after.results| == resultsBefore + 1
      && plan.effects <= |files.effects| && plan.toolResults <= |files.toolResults|
      && (!plan.RetryOnce? ==> plan.effects + plan.toolResults > 0)
  }

  /** Something on a ledger is reconciled, a timed-out approved call is stopped, and the rest is retried. */
  ghost predicate Chosen(plan: Plan, seen: Files, fault: Fault, toolClass: ToolClass) {
    if seen != EMPTY then plan == Reconcile(|seen.effects|, |seen.toolResults|)
    else if fault.ToolTimeout? && toolClass.ApprovalRequired? then plan.SafeStop? || plan.SettleLate?
    else plan.RetryOnce?
  }

  /** `recover` of the approval runner. */
  method Recover(host: Host, fault: Fault, killed: bool, polls: nat)
    returns (ok: bool, plan: Plan, seen: Files, ghost at: nat)
    requires host.Valid()
    modifies host`files, host`behind, host`script, host`history, host`turns, host.ledger
    ensures host.Valid() && Grew(old(host.files), host.files) && old(host.history) <= host.history
    // It reads after the resume, and then acts, as far as the replies let it.
    ensures ok <==>
      && old(host.ledger.state.threadId.Some?)
      && var reading := Recovery.AfterResume(old(host.script), killed, old(host.ledger.state.threadId).value);
         reading.Some? && (plan.SafeStop? || plan.SettleLate? || AfterTurn(reading.value).Some?)
    ensures old(host.ledger.state.threadId.Some?) ==>
      var reading := Recovery.AfterResume(old(host.script), killed, old(host.ledger.state.threadId).value);
      reading.Some? ==>
        && HeldAt(host.tool, host.history, at, old(host.turns), seen)
        && Since(old(host.history), old(host.script), host.history[..at], reading.value, old(host.turns), true)
        && Since(host.history[..at], reading.value, host.history, host.script, host.turns,
             plan.Reconcile? || plan.RetryOnce?)
        && (ok && (plan.Reconcile? || plan.RetryOnce?) ==> host.script == AfterTurn(reading.value).value)
        && Chosen(plan, seen, fault, host.tool.toolClass)
        && (ok && plan.RetryOnce? ==> plan == RetryOnce(|host.files.effects|, |host.files.toolResults|))
        // A safe stop waits for a late tool result, and stands only on two empty ledgers after that.
        && (plan.SafeStop? || plan.SettleLate? ==>
              && Window(host.tool, host.history, at, polls, |reading.value|)
              && plan == if host.files == EMPTY then SafeStop
                         else SettleLate(|host.files.effects|, |host.files.toolResults|))
    // A timed-out approved call is never run again, whatever happens.
    ensures fault.ToolTimeout? && host.tool.toolClass.ApprovalRequired? ==>
      && !plan.RetryOnce? && host.turns == old(host.turns)
      && host.ledger.state.retryCount == old(host.ledger.state.retryCount)
    ensures host.turns == old(host.turns) + if plan.RetryOnce? then 1 else 0
    ensures host.ledger.state.retryCount <= old(host.ledger.state.retryCount) + 1
    ensures old(host.ledger.events) <= host.ledger.events
    ensures !ok ==> host.ledger.results == old(host.ledger.results)
    ensures ok ==>
      Trace(host.ledger.events) == old(Trace(host.ledger.events))
        + RecoveryTrace(plan, old(host.ledger.state.retryCount) + 1)
    // It ends safely stopped or completed, each on what the ledgers show.
    ensures ok ==> Outcome(host.ledger.View(), old(|host.ledger.results|), plan, host.files)
    ensures ok ==>
      host.ledger.state.threadId.Some? && (old(host.ledger.state.turnId.Some?) ==> host.ledger.state.turnId.Some?)
    ensures ok ==> (plan.Reconcile? <==> seen != EMPTY) && Grew(old(host.files), seen) && Grew(seen, host.files)
  {
    hide Coherent, Trace, WorldOk, Host.Valid, PlanSteps, Outcome, HeldAt, Window, Recovery.AfterResume, AfterTurn;
    plan, at := SafeStop, 0;
    ok, seen := Recovery.Reconnect(host, killed);
    if !ok { return; }
    ghost var past := host.history;
    at := |past|;
    HeldNow(host);
    ok, plan := Resolve(host, fault, seen, polls);
    StillHeld(host.tool, past, host.history, at, old(host.turns), seen);
    assert host.history[..at] == past;
  }
}
