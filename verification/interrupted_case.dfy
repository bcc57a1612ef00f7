/** The C4 case: one faulted dispatch, its recovery, and the verdict on the evidence. */
module InterruptedCases {
  import opened Basics
  import opened CaseLedgers
  import opened EffectSinks
  import opened Hosts
  import opened Recovery
  import opened Courses

  datatype Verdict = Pass | Fail | Undecided

  function CaseIds(runId: string): Ids {
    Ids(runId, "codex-c3-c4-v1", "codex-c3-c4-v1:" + runId)
  }

  function CaseTool(runId: string, toolClass: ToolClass, locked: bool): Tool {
    Sink(runId + ":operation-1", CaseIds(runId).idempotencyKey, toolClass, locked)
  }

  // ----- The case on its script alone -----

  /** The turn of the fault is dispatched by the fourth reaction: two to set up, one for the thread. */
  const FIRST := 3

  /** How many reactions there are before recovery reads the ledgers, if it gets there. */
  function ReadingAt(script: seq<Reaction>, fault: Fault): (at: Option<nat>)
    ensures at.Some? ==> FIRST < at.value <= |script|
  {
    if AfterReading(script, fault).None? then None else Some(|script| - |AfterReading(script, fault).value|)
  }

  /** The whole course of a case; `None` when it raises. */
  ghost function CourseOf(tool: Tool, script: seq<Reaction>, fault: Fault): Option<Course> {
    if ReadingAt(script, fault).None? then None
    else ActingAt(tool, script, fault, FIRST, ReadingAt(script, fault).value)
  }

  lemma AnsweredReading(script: seq<Reaction>, fault: Fault)
    requires |script| >= 8 && forall i :: 0 <= i < 8 ==> script[i].reply.Answered?
    requires script[7].reply.value == script[2].reply.value != ""
    ensures AfterReading(script, fault) == Some(script[8..])
  {
    var started := AfterStart(script, Some(fault));
    assert script[2..][2..] == script[4..] && script[4..][2..] == script[6..];
    if fault.ProcessInterrupt? {
      assert started == Some(script[6..]) && script[6..][2..] == script[8..];
    } else {
      assert script[6..][1..] == script[7..] && script[7..][1..] == script[8..];
      assert started == Some(script[7..]);
    }
    hide AfterStart;
  }

  lemma AnsweredTurn(script: seq<Reaction>)
    requires |script| >= 10 && script[8].reply.Answered? && script[9].reply.Answered?
    ensures AfterTurn(script[8..]) == Some(script[10..])
  {
    assert script[8..][1..] == script[9..] && script[9..][1..] == script[10..];
  }

  /**
   Under every fault ten answers are enough, the eighth of them naming the thread that the third
   one named: recovery then reads after eight reactions, and the case does not raise, unless a
   retried write leaves another number of effects than one.
   */
  lemma AnsweredCaseGoesThrough(tool: Tool, script: seq<Reaction>, fault: Fault)
    requires |script| >= 10 && forall i :: 0 <= i < 10 ==> script[i].reply.Answered?
    requires script[7].reply.value == script[2].reply.value != ""
    ensures ReadingAt(script, fault) == Some(8)
    ensures CourseOf(tool, script, fault).Some? <==>
      (FilesAfter(tool, script, FIRST, 8, 8) == EMPTY && !tool.toolClass.ReadOnly?
       && !(fault.ToolTimeout? && tool.toolClass.ApprovalRequired?) ==>
         |FilesAfter(tool, script, FIRST, 8, 10).effects| == 1)
  {
    AnsweredReading(script, fault);
    AnsweredTurn(script);
    ActsExactly(tool, script, fault, FIRST, 8);
    assert TurnEnd(script, 8) == 10;
    hide WorldAfter, AfterReading, AfterTurn, ActingAt, TurnEnd;
  }

  lemma {:induction false} NothingHappens(tool: Tool, script: seq<Reaction>, first: nat, second: nat, n: nat)
    requires n <= |script| && forall i :: 0 <= i < n ==> script[i].work == []
    ensures WorldAfter(tool, script, first, second, n) == Fresh(tool)
  {
    if n > 0 {
      NothingHappens(tool, script, first, second, n - 1);
    }
  }

  /**
   Such a case: nothing happens before recovery reads, and the tool runs in the retried turn.
   It completes after the retry, with the one effect and the one result of that turn.
   */
  lemma RetriedCaseCompletes(tool: Tool, script: seq<Reaction>, fault: Fault)
    requires |script| >= 10 && forall i :: 0 <= i < 10 ==> script[i].reply.Answered?
    requires script[7].reply.value == script[2].reply.value != ""
    requires forall i :: 0 <= i < 10 ==> script[i].work == if i == 9 then [ToolRuns(1, false)] else []
    requires tool.Sink? && tool.toolClass.Idempotent?
    ensures CourseOf(tool, script, fault) == Some(Course(RetryOnce(1, 1), EMPTY, Files(
        [Effect(tool.operationId, tool.key, 1)], [ToolResult(tool.operationId, AppliedNow, 1)]), 0))
  {
    AnsweredReading(script, fault);
    AnsweredTurn(script);
    assert TurnEnd(script, 8) == 10;
    NothingHappens(tool, script, FIRST, 8, 8);
    NothingHappens(tool, script, FIRST, 8, 9);
    OneRun(tool, script);
    NothingAsked(script, 9);
    assert script[..10][..9] == script[..9];
    hide WorldAfter, AfterReading, AfterTurn, TurnEnd, AsksIn;
  }

  lemma OneRun(tool: Tool, script: seq<Reaction>)
    requires |script| >= 10 && script[9].work == [ToolRuns(1, false)]
    requires tool.Sink? && tool.toolClass.Idempotent?
    requires WorldAfter(tool, script, FIRST, 8, 9) == Fresh(tool)
    ensures FilesAfter(tool, script, FIRST, 8, 10) == Files(
        [Effect(tool.operationId, tool.key, 1)], [ToolResult(tool.operationId, AppliedNow, 1)])
    ensures Asks(script[9].work) == 0
  {
    assert [ToolRuns(1, false)][..0] == [];
    assert ActAll(tool, 2, Fresh(tool), []) == Fresh(tool);
  }

  lemma {:induction false} NothingAsked(script: seq<Reaction>, n: nat)
    requires n < |script| && forall i :: 0 <= i < n ==> script[i].work == []
    requires Asks(script[n].work) == 0
    ensures AsksIn(script[..n]) == 0 && AsksIn(script[..n + 1]) == 0
  {
    if n > 0 {
      NothingAsked(script, n - 1);
    }
    assert script[..n + 1][..n] == script[..n];
  }

  predicate Reconciles(t: seq<Kind>) {
    exists i :: 0 <= i < |t| && t[i].SideEffectReconciled?
  }

  /** `verify_c4_case`: every control of recovery, then the approval evidence. */
  function VerifyC4(l: Ledger, f: Files, toolClass: ToolClass, interrupted: bool): Verdict {
    var physicalEffects := |f.effects|;
    var recoveryControls :=
      && interrupted
      && l.state.threadId.Some?
      && l.state.turnId.Some?
      && l.faults != []
      && (l.state.status.Completed? || l.state.status.SafeStopped?)
      && l.state.retryCount <= 1
      && physicalEffects <= 1
      && (Reconciles(Trace(l.events)) || l.state.status.SafeStopped?)
      && |l.results| <= 1;
    var approvals := Approvals(l.events);
    if recoveryControls && toolClass.ApprovalRequired? && approvals == 0 then Undecided
    else if recoveryControls && (if toolClass.ApprovalRequired? then approvals > 0 else approvals == 0) then Pass
    else Fail
  }

  /** The whole adapter trace of an exception-free case. */
  function CaseTrace(fault: Fault, plan: Plan, approvalMissing: bool): seq<Kind> {
    [RunCreated, ProviderReady] + InitialTrace(Some(fault)) + RecoveryTrace(plan, 1)
    + if approvalMissing then [ApprovalMissing] else []
  }

  lemma {:induction false} FaultsInTrace(events: seq<Event>, i: nat)
    requires i < |Trace(events)| && Trace(events)[i].FaultInjected?
    ensures FaultsOf(events) != []
  {
    var front := events[..|events| - 1];
    if i < |Trace(front)| {
      FaultsInTrace(front, i);
    }
  }

  /**
   The verdict of an exception-free case depends on the approval evidence alone: recovery
   itself can no longer fail it once at most one effect is on the ledger.
   */
  lemma VerdictIsApprovalEvidence(l: Ledger, f: Files, toolClass: ToolClass, fault: Fault, plan: Plan)
    requires Coherent(l) && |f.effects| <= 1 && |l.results| <= 1
    requires Trace(l.events) == CaseTrace(fault, plan, toolClass.ApprovalRequired? && Approvals(l.events) == 0)
    requires l.state.threadId.Some? && l.state.turnId.Some?
    requires l.state.status == (if plan.SafeStop? then SafeStopped else Completed)
    requires l.state.retryCount == (if plan.RetryOnce? then 1 else 0)
    ensures VerifyC4(l, f, toolClass, true) ==
      if toolClass.ApprovalRequired? then (if Approvals(l.events) > 0 then Pass else Undecided)
      else (if Approvals(l.events) > 0 then Fail else Pass)
  {
    var missing := toolClass.ApprovalRequired? && Approvals(l.events) == 0;
    FaultIsInTrace(fault, plan, missing);
    FaultsInTrace(l.events, 5);
    ReconcileIsInTrace(fault, plan, missing);
    hide Coherent, Trace, CaseTrace, Reconciles;
  }

  lemma FaultIsInTrace(fault: Fault, plan: Plan, approvalMissing: bool)
    ensures |CaseTrace(fault, plan, approvalMissing)| > 5
    ensures CaseTrace(fault, plan, approvalMissing)[5] == FaultInjected(fault)
  {
    hide RecoveryTrace;
  }

  lemma ReconcileIsInTrace(fault: Fault, plan: Plan, approvalMissing: bool)
    ensures plan.SafeStop? || Reconciles(CaseTrace(fault, plan, approvalMissing))
  {
    var t, start := CaseTrace(fault, plan, approvalMissing), 2 + |InitialTrace(Some(fault))|;
    var steps := RecoveryTrace(plan, 1);
    hide InitialTrace;
    assert forall i :: 0 <= i < |steps| ==> t[start + i] == steps[i];
    if plan.Reconcile? {
      assert t[start + 1].SideEffectReconciled?;
    } else if plan.RetryOnce? {
      assert t[start + 4].SideEffectReconciled?;
    }
  }

  lemma TwoEffectsFail(l: Ledger, f: Files, toolClass: ToolClass)
    requires |f.effects| > 1
    ensures VerifyC4(l, f, toolClass, true) == Fail
  {
  }

  datatype Report = Report(
    raised: bool, plan: Plan, seen: Files, turns: nat, ledger: Ledger, files: Files, verdict: Verdict)

  /** `run_c4_case`; `met` is how many reactions of the script the run has met. */
  method RunC4Case(runId: string, fault: Fault, toolClass: ToolClass, locked: bool, script: seq<Reaction>)
    returns (r: Report, ghost met: nat)
    // The run raises exactly when the script does not let it through, and otherwise goes as the script says.
    ensures r.raised <==> CourseOf(CaseTool(runId, toolClass, locked), script, fault).None?
    ensures !r.raised ==>
      CourseOf(CaseTool(runId, toolClass, locked), script, fault) ==
      Some(Course(r.plan, r.seen, r.files, Approvals(r.ledger.events)))
    // Raised or not, the ledgers are those that the reactions met lead to.
    ensures met <= |script|
    ensures r.turns == 2 ==> ReadingAt(script, fault).Some?
    ensures r.files == FilesAfter(CaseTool(runId, toolClass, locked), script, FIRST,
      if r.turns == 2 then ReadingAt(script, fault).value else met, met)
    // The ledger is coherent whatever happened, and carries the identity of the case.
    ensures Coherent(r.ledger) && r.ledger.ids == CaseIds(runId)
    // At most one effect behind the locked sink, none for a read-only tool, on every run.
    ensures locked ==> |r.files.effects| <= 1
    ensures toolClass.ReadOnly? ==> r.files.effects == []
    // At most one result, and at most two turns that may call the tool.
    ensures |r.ledger.results| <= 1 && r.turns <= 2
    ensures !r.raised ==> r.turns == if r.plan.RetryOnce? then 2 else 1
    // The second such turn is licensed by two empty ledgers, read before it is dispatched, and never
    // follows a timed-out approved tool.
    ensures r.turns == 2 ==>
      var at := ReadingAt(script, fault).value;
      && at <= met && r.plan.RetryOnce?
      && r.seen == FilesAfter(CaseTool(runId, toolClass, locked), script, FIRST, at, at) == EMPTY
      && !(fault.ToolTimeout? && toolClass.ApprovalRequired?)
    // Without deduplication two effects need the interrupted tool to apply after that reading.
    ensures |r.files.effects| <= r.turns
    ensures (forall i :: 0 <= i < |r.files.effects| ==> r.files.effects[i].turn != 0) ==> |r.files.effects| <= 1
    ensures r.turns == 2 ==> Grew(r.seen, r.files)
    // An exception is recorded as unknown, never as a pass or a failure.
    ensures r.raised ==> r.verdict.Undecided? && r.ledger.state.status.Unknown?
    // It leaves the first steps of a legal run followed by the error.
    ensures r.raised ==> StoppedEarly(Trace(r.ledger.events), CaseTrace(fault, r.plan, false))
    // Without one, the run is exactly one of three traces and settles in a final state.
    ensures !r.raised ==>
      && Trace(r.ledger.events) ==
        CaseTrace(fault, r.plan, toolClass.ApprovalRequired? && Approvals(r.ledger.events) == 0)
      && Decides(r.plan, r.seen, fault, toolClass)
      && r.ledger.state.status == (if r.plan.SafeStop? then SafeStopped else Completed)
      && r.ledger.state.retryCount == (if r.plan.RetryOnce? then 1 else 0)
      && |r.ledger.results| == (if r.plan.SafeStop? then 0 else 1)
      && (r.plan.SafeStop? ==> r.files == EMPTY)
    // And the verdict is decided by the approval evidence alone, unless two effects are found.
    ensures !r.raised ==> (r.verdict ==
      if |r.files.effects| > 1 then Fail
      else if toolClass.ApprovalRequired? then (if Approvals(r.ledger.events) > 0 then Pass else Undecided)
      else (if Approvals(r.ledger.events) > 0 then Fail else Pass))
  {
    hide Coherent, Trace, VerifyC4, WorldOk, InitialTrace, PlanSteps, FilesOk, Host.Valid, StoppedEarly, CaseTrace;
    hide Play, HeldAt, Reactions, Since, Followed, CourseOf, ReadingAt, WorldAfter, Heard;
    var ledger := new CaseLedger(CaseIds(runId));
    var host := new Host(ledger, CaseTool(runId, toolClass, locked), script);
    ghost var done;
    var ok, plan, seen;
    ghost var at;
    ok, plan, seen, done, at := Attempt(host, fault);
    met := |host.history|;
    HostFiles(host);
    EffectsWithinTurns(host.tool, host.turns, host.files);
    var verdict := Undecided;
    if ok {
      verdict := Judge(host, fault, plan);
    } else {
      Fails(host, CaseTrace(fault, plan, false), done);
    }
    LedgerOf(host);
    HeardIsAsked(host);
    r := Report(!ok, plan, seen, host.turns, ledger.View(), host.files, verdict);
  }

  /** The `except` branch after the first `done` steps of the case. */
  method Fails(host: Host, ghost whole: seq<Kind>, ghost done: nat)
    requires host.Valid() && done <= |whole| && Trace(host.ledger.events) == whole[..done]
    modifies host.ledger
    ensures host.Valid() && host.ledger.state.status.Unknown?
    ensures host.ledger.results == old(host.ledger.results)
    ensures StoppedEarly(Trace(host.ledger.events), whole)
  {
    hide Coherent, Trace, WorldOk, Host.Valid;
    host.Note(RunError);
    host.Assign(host.ledger.state.(
      status := Unknown, phase := "stop", lastCheckpoint := "error", safeStopReason := Some("exception")));
  }

  /** Some first steps of `whole`, then the error event. */
  ghost predicate StoppedEarly(t: seq<Kind>, whole: seq<Kind>) {
    && t != []
    && t[|t| - 1] == RunError
    && t[..|t| - 1] <= whole
  }

  /** The end of the `try`: note a missing approval request, then verify. */
  method Judge(host: Host, fault: Fault, plan: Plan) returns (verdict: Verdict)
    requires host.Valid() && |host.ledger.results| <= 1
    requires Trace(host.ledger.events) == CaseTrace(fault, plan, false)
    requires host.ledger.state.threadId.Some? && host.ledger.state.turnId.Some?
    requires host.ledger.state.status == (if plan.SafeStop? then SafeStopped else Completed)
    requires host.ledger.state.retryCount == (if plan.RetryOnce? then 1 else 0)
    modifies host.ledger
    ensures host.Valid()
    ensures Advanced(old(host.ledger.View()), host.ledger.View(),
              if host.tool.toolClass.ApprovalRequired? && Approvals(host.ledger.events) == 0
              then [ApprovalMissing]
              else [],
              old(host.ledger.state))
    ensures Trace(host.ledger.events)
      == CaseTrace(fault, plan, host.tool.toolClass.ApprovalRequired? && Approvals(host.ledger.events) == 0)
    ensures verdict ==
      if |host.files.effects| > 1 then Fail
      else if host.tool.toolClass.ApprovalRequired? then (if Approvals(host.ledger.events) > 0 then Pass else Undecided)
      else (if Approvals(host.ledger.events) > 0 then Fail else Pass)
  {
    hide Coherent, Trace, WorldOk, Host.Valid, VerifyC4, InitialTrace, PlanSteps;
    var ledger := host.ledger;
    var missing := host.tool.toolClass.ApprovalRequired? && Approvals(ledger.events) == 0;
    if missing {
      host.Note(ApprovalMissing);
    }
    assert Trace(ledger.events) == CaseTrace(fault, plan, missing);
    verdict := VerifyC4(ledger.View(), host.files, host.tool.toolClass, true);
    if |host.files.effects| <= 1 {
      LedgerOf(host);
      VerdictIsApprovalEvidence(ledger.View(), host.files, host.tool.toolClass, fault, plan);
    } else {
      TwoEffectsFail(ledger.View(), host.files, host.tool.toolClass);
    }
  }

  /** Each turn ran the tool at most once, so effects are bounded by turns and told apart by them. */
  lemma EffectsWithinTurns(tool: Tool, turns: nat, f: Files)
    requires FilesOk(tool, turns, f) && turns <= 2
    ensures |f.effects| <= turns
    ensures (forall i :: 0 <= i < |f.effects| ==> f.effects[i].turn != 0) ==> |f.effects| <= 1
  {
    DistinctBelow(seq(|f.effects|, i requires 0 <= i < |f.effects| => f.effects[i].turn), turns);
    assert |f.effects| >= 2 ==> f.effects[0].turn != f.effects[1].turn && f.effects[1].turn < turns;
  }

  lemma CaseSlices(fault: Fault, plan: Plan, first: nat, more: nat)
    requires first <= |StartTrace(Some(fault))| && more <= |RecoveryTrace(plan, 1)|
    ensures CaseTrace(fault, plan, false)[..1 + first] == [RunCreated] + StartTrace(Some(fault))[..first]
    ensures CaseTrace(fault, plan, false)[..1 + |StartTrace(Some(fault))| + more]
      == [RunCreated] + StartTrace(Some(fault)) + RecoveryTrace(plan, 1)[..more]
    ensures |CaseTrace(fault, plan, false)| == 1 + |StartTrace(Some(fault))| + |RecoveryTrace(plan, 1)|
  {
    hide InitialTrace, RecoveryTrace;
  }

  lemma CourseFromStart(tool: Tool, script: seq<Reaction>, fault: Fault)
    ensures AfterStart(script, Some(fault)).None? ==>
      ReadingAt(script, fault).None? && CourseOf(tool, script, fault).None?
    ensures AfterStart(script, Some(fault)).Some? ==>
      var started := AfterStart(script, Some(fault)).value;
      var reading := AfterResume(started, fault.ProcessInterrupt?, script[2].reply.value);
      && (reading.None? ==> ReadingAt(script, fault).None? && CourseOf(tool, script, fault).None?)
      && (reading.Some? ==>
            var at := |script| - |reading.value|;
            && FIRST < at && ReadingAt(script, fault) == Some(at)
            && CourseOf(tool, script, fault) == ActingAt(tool, script, fault, FIRST, at))
  {
    hide AfterStart, AfterResume, ActingAt;
  }

  /** The body of the `try`: set up the server, run into the fault, recover. */
  method Attempt(host: Host, fault: Fault)
    returns (ok: bool, plan: Plan, seen: Files, ghost done: nat, ghost at: nat)
    requires host.Valid() && host.turns == 0 && host.files == EMPTY && host.history == []
    requires host.ledger.results == [] && Trace(host.ledger.events) == [RunCreated] && host.ledger.state == CREATED
    modifies host`files, host`behind, host`script, host`history, host`turns, host.ledger
    ensures host.Valid() && host.turns <= 2 && |host.ledger.results| <= 1
    // What the script lets through, and what it makes of the ledgers.
    ensures ok <==> CourseOf(host.tool, old(host.script), fault).Some?
    ensures ok ==>
      CourseOf(host.tool, old(host.script), fault) == Some(Course(plan, seen, host.files, Heard(host.history)))
    ensures |host.history| <= |old(host.script)|
    ensures host.files == FilesAfter(
      host.tool, old(host.script), FIRST, if host.turns == 2 then at else |host.history|, |host.history|)
    ensures host.turns == 2 ==>
      && plan.RetryOnce? && ReadingAt(old(host.script), fault) == Some(at) && at <= |host.history|
      && seen == FilesAfter(host.tool, old(host.script), FIRST, at, at)
      && Decides(plan, seen, fault, host.tool.toolClass) && Grew(seen, host.files)
    ensures ok ==> host.turns == if plan.RetryOnce? then 2 else 1
    ensures ok && plan.SafeStop? ==> host.files == EMPTY
    ensures done <= |CaseTrace(fault, plan, false)| && (ok ==> done == |CaseTrace(fault, plan, false)|)
    ensures Trace(host.ledger.events) == CaseTrace(fault, plan, false)[..done]
    ensures ok ==>
      && Decides(plan, seen, fault, host.tool.toolClass)
      && host.ledger.state.status == (if plan.SafeStop? then SafeStopped else Completed)
      && host.ledger.state.retryCount == (if plan.RetryOnce? then 1 else 0)
      && |host.ledger.results| == (if plan.SafeStop? then 0 else 1)
      && host.ledger.state.threadId.Some? && host.ledger.state.turnId.Some?
  {
    hide Coherent, Trace, WorldOk, StartTrace, RecoveryTrace, CaseTrace, Host.Valid, Grew, Play, AllHeard, Followed;
    hide WorldAfter, ActingAt, AfterStart, AfterResume, Heard, AsksIn, ReadingAt, CourseOf;
    plan, seen, at := SafeStop, EMPTY, 0;
    ghost var script := host.script;
    FollowedNothing(script);
    CourseFromStart(host.tool, script, fault);
    var status;
    ok, status, done := Start(host, Some(fault), script);
    CaseSlices(fault, plan, done, 0);
    done := 1 + done;
    if !ok {
      StartedOnly(host, script, FIRST);
      return;
    }
    var _ := host.UpdateEffectStatus();
    ghost var more;
    ok, plan, seen, more, at := RecoverCase(host, fault, script, FIRST);
    CaseSlices(fault, plan, 0, more);
    done := done + more;
  }
}
