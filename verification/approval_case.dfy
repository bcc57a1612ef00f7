/**
 One case of the approval runner: negative controls, the interrupted run behind the gate, its
 recovery, the replay control on the same ledgers, and the verdict.
 */
module ApprovalCases {
  import opened Basics
  import opened CaseLedgers
  import opened EffectSinks
  import opened Hosts
  import opened GateWorlds
  import opened ReplayControls
  import opened ApprovalRecovery
  import opened Courses
  import opened ApprovalCourses
  import Gates = ApprovalGates
  import Recovery
  import InterruptedCases

  function CaseIds(runId: string): Ids {
    Ids(runId, "codex-c4-approval-v1", "codex-c4-approval-v1:" + runId)
  }

  const APPROVAL_ACTION := "write-case-approval"

  /** The gate command of a case, with the token that is written for an approval-required tool. */
  function CaseTool(runId: string, toolClass: ToolClass, atomic: bool): Tool {
    Gate(
      runId + ":operation-1", "codex-c4-approval-v1:" + runId, toolClass,
      if toolClass.ApprovalRequired? then
        Some(Gates.Token(Some("token:" + runId), APPROVAL_ACTION, TARGET, 1))
      else None,
      atomic)
  }

  lemma CaseToolIsExact(runId: string, atomic: bool)
    ensures ExactTool(CaseTool(runId, ApprovalRequired, atomic).AsGate())
    ensures Id(CaseTool(runId, ApprovalRequired, atomic).AsGate()) == {"token:" + runId}
  {
    assert "token:" + runId != "";
  }

  // ----- The negative controls -----

  /** A direct call in a directory of its own. */
  function DirectControl(call: Gates.GateCall): Control {
    ControlRecord(!Gates.Decide(Gates.NOTHING, call).allow, Gates.Stage(Gates.NOTHING, call, Gates.LAST), 0, 0)
  }

  function NegativeCall(runId: string, suffix: string, token: Option<Gates.Token>): Gates.GateCall {
    Gates.GateCall(runId + suffix, "negative:" + runId, 0, ApprovalRequired, APPROVAL_ACTION, TARGET, true, token)
  }

  /** Without a token, and with a token for another action, the gate denies, blocks and applies nothing. */
  lemma NegativeControlsHold(runId: string)
    ensures ReplayOk(DirectControl(NegativeCall(runId, ":negative-no-token", None)))
    ensures ReplayOk(DirectControl(NegativeCall(runId, ":negative-scope", Some(
      Gates.Token(Some("bad-token:" + runId), "write-case-idempotent", TARGET, 1)))))
  {
    assert "bad-token:" + runId !in Gates.NOTHING.consumed;
  }

  // ----- The run up to the recovery -----

  /** The kill of the approval runner: no reading of the ledgers before it. */
  method KillProcess(host: Host) returns (ok: bool)
    requires host.Valid()
    modifies host`files, host`behind, host`script, host`history, host.ledger
    ensures host.Valid() && Grew(old(host.files), host.files)
    ensures Since(old(host.history), old(host.script), host.history, host.script, host.turns, true)
    ensures ok <==> Recovery.AfterKill(old(host.script)).Some?
    ensures ok ==> host.script == Recovery.AfterKill(old(host.script)).value
    ensures ok ==>
      Advanced(old(host.ledger.View()), host.ledger.View(), [FaultInjected(ProcessInterrupt)], old(host.ledger.state))
    ensures host.ledger.results == old(host.ledger.results)
  {
    hide Coherent, Trace, WorldOk, Host.Valid, Since;
    ok := false;
    var reply := host.Call();
    if !reply.Answered? { return; }
    ghost var past, rest := host.history, host.script;
    host.Note(FaultInjected(ProcessInterrupt));
    reply := host.Call();
    SinceThen(old(host.history), old(host.script), past, rest, host.history, host.script, host.turns, true);
    ok := !reply.Broken?;
  }

  /** `run_initial`. */
  method RunInitial(host: Host, fault: Fault) returns (ok: bool)
    requires host.Valid()
    modifies host`files, host`behind, host`script, host`history, host`turns, host.ledger
    ensures host.Valid() && Grew(old(host.files), host.files) && old(host.history) <= host.history
    ensures old(host.turns) <= host.turns <= old(host.turns) + 1 && (ok ==> host.turns == old(host.turns) + 1)
    ensures ok <==> Recovery.AfterInitial(old(host.script), Some(fault)).Some?
    ensures ok ==> host.script == Recovery.AfterInitial(old(host.script), Some(fault)).value
    ensures host.turns == old(host.turns) ==>
      && |old(host.script)| - |host.script| <= 1
      && Since(old(host.history), old(host.script), host.history, host.script, host.turns, true)
    ensures host.turns > old(host.turns) ==>
      Recovery.StartsTurn(old(host.history), old(host.script), host.history, host.script, old(host.turns))
    ensures host.ledger.results == old(host.ledger.results)
    ensures ok ==>
      && Advanced(old(host.ledger.View()), host.ledger.View(), Recovery.InitialTrace(Some(fault)), host.ledger.state)
      && host.ledger.state.retryCount == old(host.ledger.state.retryCount)
      && host.ledger.state.threadId == Some(old(host.script)[0].reply.value) && host.ledger.state.turnId.Some?
  {
    hide Coherent, Trace, WorldOk, Host.Valid, Since, AfterWait, Recovery.AfterKill, Recovery.StartsTurn;
    ghost var start := [ThreadStarted, TurnStarted(Initial), Dispatched(Some(fault))];
    ghost var done;
    ok, done := Recovery.Dispatch(host, Some(fault));
    assert start[..3] == start;
    if !ok { return; }
    ghost var past, rest := host.history, host.script;
    if fault.ProcessInterrupt? {
      ok := KillProcess(host);
    } else {
      var status;
      ok, status, done := Recovery.InterruptTurn(host, fault);
      assert [FaultInjected(fault), InterruptRequested, TurnCompleted][..3] ==
        [FaultInjected(fault), InterruptRequested, TurnCompleted];
    }
    Recovery.StillStarts(
      old(host.history), old(host.script), past, rest, host.history, host.script, old(host.turns));
    assert Recovery.InitialTrace(Some(fault)) == start + Recovery.StrikeTrace(Some(fault));
  }

  function CaseTrace(fault: Fault, plan: Plan): seq<Kind> {
    [RunCreated, ProviderReady] + Recovery.InitialTrace(Some(fault)) + RecoveryTrace(plan, 1)
  }

  /** Server and fault. */
  method Start(host: Host, fault: Fault) returns (ok: bool)
    requires host.Valid() && host.turns == 0 && host.history == []
    modifies host`files, host`behind, host`script, host`history, host`turns, host.ledger
    ensures host.Valid() && host.turns <= 1 && (ok ==> host.turns == 1)
    ensures host.ledger.results == old(host.ledger.results)
    ensures Followed(old(host.script), host.history, host.script, FIRST, |host.history|)
    ensures ok <==> AfterStart(old(host.script), Some(fault)).Some?
    ensures ok ==>
      && host.script == AfterStart(old(host.script), Some(fault)).value && |host.history| >= FIRST
      && host.ledger.state.threadId == Some(old(host.script)[2].reply.value) && host.ledger.state.turnId.Some?
      && host.ledger.state.retryCount == old(host.ledger.state.retryCount)
      && Trace(host.ledger.events) == old(Trace(host.ledger.events)) + StartTrace(Some(fault))
  {
    hide Coherent, Trace, WorldOk, Host.Valid, Recovery.InitialTrace, Grew, Since, Followed, AllHeard;
    hide Recovery.AfterInitial, Recovery.StartsTurn;
    ghost var script := host.script;
    FollowedNothing(script);
    ok := Recovery.SetUp(host);
    FollowSetUp(script, [], script, host.history, host.script);
    if !ok { return; }
    ghost var past, rest := host.history, host.script;
    ok := RunInitial(host, fault);
    FollowStart(script, past, rest, host.history, host.script, host.turns);
    assert ok ==> rest[0] == script[2];
  }

  /** Server, fault and recovery. */
  method Attempt(host: Host, fault: Fault, polls: nat) returns (ok: bool, plan: Plan)
    requires host.Valid() && host.turns == 0 && host.files == EMPTY && host.history == []
    requires host.ledger.results == [] && Trace(host.ledger.events) == [RunCreated] && host.ledger.state == CREATED
    modifies host`files, host`behind, host`script, host`history, host`turns, host.ledger
    ensures host.Valid() && host.turns <= 2 && |host.ledger.results| <= 1
    // What the script lets through, and how recovery ends on it.
    ensures ok <==> EndingOf(host.tool, old(host.script), fault, polls).Some?
    ensures ok ==>
      var e := EndingOf(host.tool, old(host.script), fault, polls).value;
      && plan == e.plan && host.turns == (if plan.RetryOnce? then 2 else 1)
      && host.script == old(host.script)[e.end..]
      && host.World() == WorldAfter(host.tool, old(host.script), FIRST, SecondOf(e), e.end)
    ensures fault.ToolTimeout? && host.tool.toolClass.ApprovalRequired? ==> host.turns <= 1 && !plan.RetryOnce?
    ensures ok ==>
      && host.ledger.state.retryCount <= 1
      && Trace(host.ledger.events) == CaseTrace(fault, plan)
      && host.ledger.state.threadId.Some? && host.ledger.state.turnId.Some?
      && Outcome(host.ledger.View(), 0, plan, host.files)
  {
    hide Coherent, Trace, WorldOk, Host.Valid, Recovery.InitialTrace, RecoveryTrace, Outcome, Grew, Since, Followed;
    hide AfterStart, Recovery.AfterResume, EndingAt, Window, Play, WorldAfter, SettleAt;
    plan := SafeStop;
    ghost var script := host.script;
    ok := Start(host, fault);
    if !ok { return; }
    var _ := host.UpdateEffectStatus();
    ok, plan := RecoverCase(host, fault, polls, script);
  }

  /** Recovery as it follows the fault, on a host that has gone through `script` so far. */
  method RecoverCase(host: Host, fault: Fault, polls: nat, ghost script: seq<Reaction>) returns (ok: bool, plan: Plan)
    requires host.Valid() && host.turns == 1 && host.ledger.results == [] && host.ledger.state.retryCount == 0
    requires Followed(script, host.history, host.script, FIRST, |host.history|) && |host.history| >= FIRST
    requires host.ledger.state.threadId.Some? && host.ledger.state.turnId.Some?
    modifies host`files, host`behind, host`script, host`history, host`turns, host.ledger
    ensures host.Valid() && host.turns <= 2 && |host.ledger.results| <= 1
    ensures var reading := Recovery.AfterResume(
        old(host.script), fault.ProcessInterrupt?, old(host.ledger.state.threadId).value);
      && (ok ==> reading.Some?)
      && (reading.Some? && |reading.value| <= |script| ==>
            var e := EndingAt(host.tool, script, fault, polls, |script| - |reading.value|);
            && (ok <==> e.Some?)
            && (ok ==>
                  && plan == e.value.plan && host.turns == (if plan.RetryOnce? then 2 else 1)
                  && host.script == script[e.value.end..]
                  && host.World() == WorldAfter(host.tool, script, FIRST, SecondOf(e.value), e.value.end)))
    ensures fault.ToolTimeout? && host.tool.toolClass.ApprovalRequired? ==> host.turns <= 1 && !plan.RetryOnce?
    ensures ok ==>
      && host.ledger.state.retryCount <= 1
      && Trace(host.ledger.events) == old(Trace(host.ledger.events)) + RecoveryTrace(plan, 1)
      && host.ledger.state.threadId.Some? && host.ledger.state.turnId.Some?
      && Outcome(host.ledger.View(), 0, plan, host.files)
  {
    hide Coherent, Trace, WorldOk, Host.Valid, RecoveryTrace, Outcome, Grew, Since, Followed, SettleAt;
    hide Recovery.AfterResume, AfterTurn, EndingAt, Window, Play, WorldAfter, Chosen;
    ghost var past, middle, thread, at := host.history, host.script, host.ledger.state.threadId.value, 0;
    var seen;
    ok, plan, seen, at := Recover(host, fault, fault.ProcessInterrupt?, polls);
    if Recovery.AfterResume(middle, fault.ProcessInterrupt?, thread).Some? {
      ghost var rest := Recovery.AfterResume(middle, fault.ProcessInterrupt?, thread).value;
      RecoveryFollows(host, script, fault, polls, past, middle, at, rest, plan, seen, ok);
    }
    if ok {
      OutcomeMeans(host.ledger.View(), plan, host.files);
    }
  }

  lemma RecoveryFollows(
    host: Host, script: seq<Reaction>, fault: Fault, polls: nat, past: seq<Moment>, middle: seq<Reaction>, at: nat,
    rest: seq<Reaction>, plan: Plan, seen: Files, ok: bool)
    requires host.Valid() && host.turns == if plan.RetryOnce? then 2 else 1
    requires Followed(script, past, middle, FIRST, |past|) && |past| >= FIRST && at <= |host.history|
    requires Since(past, middle, host.history[..at], rest, 1, true)
    requires Since(host.history[..at], rest, host.history, host.script, host.turns, plan.Reconcile? || plan.RetryOnce?)
    requires Play(host.tool, host.history[..at]).files == seen && Chosen(plan, seen, fault, host.tool.toolClass)
    requires ok <==> plan.SafeStop? || plan.SettleLate? || AfterTurn(rest).Some?
    requires ok && (plan.Reconcile? || plan.RetryOnce?) ==> host.script == AfterTurn(rest).value
    requires ok && plan.RetryOnce? ==> plan == RetryOnce(|host.files.effects|, |host.files.toolResults|)
    requires plan.SafeStop? || plan.SettleLate? ==>
      && Window(host.tool, host.history, at, polls, |rest|)
      && plan == if host.files == EMPTY then SafeStop
                 else SettleLate(|host.files.effects|, |host.files.toolResults|)
    ensures at == |script| - |rest| && host.script == script[|host.history|..]
    ensures ok <==> EndingAt(host.tool, script, fault, polls, at).Some?
    ensures ok ==>
      && EndingAt(host.tool, script, fault, polls, at) == Some(Ending(plan, at, |host.history|))
      && host.World() == WorldAfter(
           host.tool, script, FIRST, if plan.RetryOnce? then at else |host.history|, |host.history|)
  {
    hide Play, WorldAfter, Followed, Since, Window, AfterTurn, EndingAt, Host.Valid, AllHeard, Chosen;
    HeldNow(host);
    FollowFurther(host.tool, script, past, middle, host.history[..at], rest, FIRST);
    FollowRecovery(
      host.tool, script, at, rest, host.history, host.script, plan.RetryOnce?, plan.Reconcile? || plan.RetryOnce?,
      FIRST);
    if plan.SafeStop? || plan.SettleLate? {
      WindowIsSettled(host.tool, script, host.history, host.script, at, polls);
    }
    RecoveryEnds(host.tool, script, fault, polls, at, |host.history|, plan, seen, host.files, ok);
  }

  // ----- The gate behind the host -----

  lemma GateOfHost(host: Host)
    requires host.Valid() && host.tool.Gate?
    ensures host.behind.GateSide? && GateOk(host.tool.AsGate(), host.turns, host.behind.world)
    ensures host.files == Visible(Seen(host.behind.world))
    ensures host.behind.world.controls == host.replays
  {
    hide Coherent;
  }

  /** The gate's moves in a reaction of the script. */
  function MovesAt(script: seq<Reaction>, i: nat): seq<Move> {
    if i < |script| then MovesOf(script[i].work) else []
  }

  lemma MovesLater(script: seq<Reaction>, i: nat)
    ensures MovesAt(Rest(script), i) == MovesAt(script, i + 1)
  {
    hide MovesOf;
  }

  /** Time passes, and the gate makes some moves. */
  method Wait(host: Host) returns (ghost moves: seq<Move>)
    requires host.Valid() && host.tool.Gate? && host.behind.GateSide?
    modifies host`files, host`behind, host`script, host`history
    ensures host.Valid() && Grew(old(host.files), host.files) && host.behind.GateSide?
    ensures old(host.history) <= host.history
    ensures moves == MovesAt(old(host.script), 0) && host.script == Rest(old(host.script))
    ensures host.behind.world == Continue(host.tool.AsGate(), host.turns, old(host.behind.world), moves)
    ensures GateOk(host.tool.AsGate(), host.turns, host.behind.world) && host.files == Visible(Seen(host.behind.world))
    ensures Extends(Seen(old(host.behind.world)), Seen(host.behind.world))
    ensures host.behind.world.controls == old(host.behind.world.controls)
  {
    ghost var work := if host.script == [] then [] else host.script[0].work;
    GateOfHost(host);
    moves := MovesOf(work);
    GateActsAreMoves(host.tool, host.turns, host.World(), work);
    ContinueExtends(host.tool.AsGate(), host.turns, host.behind.world, moves);
    ContinueKeepsControls(host.tool.AsGate(), host.turns, host.behind.world, moves);
    hide Coherent, WorldOk, Host.Valid, GateOk, Continue, Visible, Seen, Act, Extends;
    host.Elapse();
    GateOfHost(host);
  }

  // ----- The replay control -----

  /** `beforeEffects` and `beforeResults` are the two counts that the control subtracts. */
  datatype ControlOutcome =
    | NotTaken
    | LockTimeout
    | Taken(beforeEffects: nat, beforeResults: nat, control: Control, newResults: seq<Gates.GateResult>)

  /** The gate as recovery left it, what it did until the effects were counted, and what meanwhile. */
  datatype Taking = Taking(recovered: GateWorld, moves: seq<Move>, meanwhile: Meanwhile)

  /** One reaction each is met before the counts, between them, before the lock and before the ledgers are read. */
  function TakingOn(script: seq<Reaction>, recovered: GateWorld, r: ControlOutcome): Taking {
    if r.NotTaken? then Taking(recovered, [], Meanwhile([], [], []))
    else
      Taking(recovered, MovesAt(script, 0), Meanwhile(
        MovesAt(script, 1), MovesAt(script, 2), if r.Taken? then MovesAt(script, 3) else []))
  }

  /** The gate when the effects are counted. */
  function CountsAt(tool: GateTool, turns: nat, t: Taking): GateWorld {
    Continue(tool, turns, t.recovered, t.moves)
  }

  /** The control asked for: some call was allowed. */
  ghost predicate Asked(tool: GateTool, t: Taking) {
    tool.toolClass.ApprovalRequired? && HasAllow(Seen(t.recovered).approvals)
  }

  /** The outcome of the control is the one that `t` leads to, and the ledgers are `after` in the end. */
  ghost predicate TakenIn(tool: GateTool, turns: nat, t: Taking, r: ControlOutcome, after: Gates.GateFiles) {
    var (w, m) := (CountsAt(tool, turns, t), t.meanwhile);
    && turns > 0 && GateOk(tool, turns, t.recovered) && GateOk(tool, turns, w)
    && (r.NotTaken? <==> !Asked(tool, t))
    && (r.NotTaken? ==> after == Seen(t.recovered))
    && (r.LockTimeout? ==> !LockFree(tool, turns, w, m))
    && (r.Taken? ==>
          && LockFree(tool, turns, w, m)
          && r.beforeEffects == |Seen(w).effects| && r.beforeResults == |Seen(Counted(tool, turns, w, m)).results|
          && r.control == ControlOf(tool, turns, w, m) && r.newResults == NewResults(tool, turns, w, m)
          && after == Seen(AtTheEnd(tool, turns, w, m)))
  }

  /** Count, make the call once more, and look at what the ledgers gained. */
  method CountAndReplay(host: Host) returns (r: ControlOutcome, ghost m: Meanwhile)
    requires host.Valid() && host.tool.Gate? && host.behind.GateSide? && host.turns > 0
    requires GateOk(host.tool.AsGate(), host.turns, host.behind.world)
    modifies host`files, host`behind, host`script, host`history, host`replays
    ensures host.Valid() && Grew(old(host.files), host.files) && host.behind.GateSide?
    ensures old(host.history) <= host.history
    ensures host.behind.world.controls <= old(host.behind.world.controls) + 1
    ensures r.LockTimeout? || r.Taken?
    ensures m == Meanwhile(
      MovesAt(old(host.script), 0), MovesAt(old(host.script), 1),
      if r.Taken? then MovesAt(old(host.script), 2) else [])
    ensures r.Taken? <==> LockFree(host.tool.AsGate(), host.turns, old(host.behind.world), m)
    ensures r.Taken? ==>
      && r.beforeEffects == |Seen(old(host.behind.world)).effects|
      && r.beforeResults == |Seen(Counted(host.tool.AsGate(), host.turns, old(host.behind.world), m)).results|
      && r.control == ControlOf(host.tool.AsGate(), host.turns, old(host.behind.world), m)
      && r.newResults == NewResults(host.tool.AsGate(), host.turns, old(host.behind.world), m)
      && host.behind.world == AtTheEnd(host.tool.AsGate(), host.turns, old(host.behind.world), m)
  {
    hide WorldOk, Coherent, Host.Valid, GateOk, Continue, Seen, Extends, MovesAt;
    var gate := host.tool.AsGate();
    MovesLater(host.script, 0);
    MovesLater(host.script, 1);
    MovesLater(Rest(host.script), 0);
    ghost var start := host.behind.world;
    GateOfHost(host);
    var beforeEffects := |host.files.effects|;
    ghost var counting, waiting, reading;
    counting := Wait(host);
    var beforeResults := |host.files.toolResults|;
    waiting := Wait(host);
    m := Meanwhile(counting, waiting, []);
    assert host.behind.world == AtTheLock(gate, host.turns, start, m);
    if host.behind.world.inflight.Some? {
      return LockTimeout, m;
    }
    var denied := !Gates.Decide(host.behind.world.base, CallOf(gate, 0)).allow;
    host.Replay();
    reading := Wait(host);
    m := Meanwhile(counting, waiting, reading);
    assert LockFree(gate, host.turns, start, m);
    ControlGrows(gate, host.turns, start, m);
    assert host.behind.world == AtTheEnd(gate, host.turns, start, m);
    var after := Seen(host.behind.world);
    r := Taken(beforeEffects, beforeResults,
      ControlRecord(denied, after, beforeEffects, beforeResults), after.results[beforeResults..]);
  }

  /**
   The replay control.  The gate may move before the counts, between them, until the replay has
   the lock, and until the ledgers are read again; `t` says how it did.
   */
  method TakeControl(host: Host) returns (r: ControlOutcome, ghost t: Taking)
    requires host.Valid() && host.tool.Gate? && host.behind.GateSide? && host.turns > 0
    modifies host`files, host`behind, host`script, host`history, host`replays
    ensures host.Valid() && Grew(old(host.files), host.files) && host.behind.GateSide?
    ensures old(host.history) <= host.history
    ensures host.behind.world.controls <= old(host.behind.world.controls) + 1
    ensures t == TakingOn(old(host.script), old(host.behind.world), r)
    ensures TakenIn(host.tool.AsGate(), host.turns, t, r, Seen(host.behind.world))
  {
    hide WorldOk, Coherent, Host.Valid, ExactTool, GateOk, Continue, Seen, Gates.Stage, Settled, MovesAt;
    var gate := host.tool.AsGate();
    GateOfHost(host);
    ghost var recovered := host.behind.world;
    ghost var moves, m;
    t := Taking(recovered, [], Meanwhile([], [], []));
    NoMoves(gate, host.turns, recovered);
    if !(host.tool.toolClass.ApprovalRequired? && HasAllow(Seen(host.behind.world).approvals)) {
      return NotTaken, t;
    }
    MovesLater(host.script, 0);
    MovesLater(host.script, 1);
    MovesLater(host.script, 2);
    moves := Wait(host);
    r, m := CountAndReplay(host);
    t := Taking(recovered, moves, m);
  }

  lemma NoMoves(tool: GateTool, turns: nat, w: GateWorld)
    ensures Continue(tool, turns, w, []) == w
  {
  }

  /** The ledgers at the counts extend those that recovery left. */
  lemma CountsExtend(tool: GateTool, turns: nat, t: Taking)
    requires GateOk(tool, turns, t.recovered)
    ensures Extends(Seen(t.recovered), Seen(CountsAt(tool, turns, t)))
    ensures CountsAt(tool, turns, t).controls == t.recovered.controls
    ensures Asked(tool, t) ==> HasAllow(Seen(CountsAt(tool, turns, t)).approvals)
  {
    ContinueExtends(tool, turns, t.recovered, t.moves);
    ContinueKeepsControls(tool, turns, t.recovered, t.moves);
    hide GateOk, Continue, Seen;
    if Asked(tool, t) {
      AllowStays(Seen(t.recovered), Seen(CountsAt(tool, turns, t)));
    }
  }

  /** The record of a refused replay. */
  function Refusal(runId: string): Gates.GateResult {
    Gates.GateResult(runId + ":operation-1", false, 0)
  }

  /**
   What a control tells, by the ledgers at its counts: one result per dispatched turn makes the
   suffix the one refusal, and one executed result makes the control accept.
   */
  lemma ControlTells(runId: string, atomic: bool, turns: nat, t: Taking, r: ControlOutcome, after: Gates.GateFiles)
    requires TakenIn(CaseTool(runId, ApprovalRequired, atomic).AsGate(), turns, t, r, after)
    requires r.Taken? && t.recovered.controls == 0
    ensures var seen := Seen(CountsAt(CaseTool(runId, ApprovalRequired, atomic).AsGate(), turns, t));
      && (|seen.results| >= turns ==> r.newResults == [Refusal(runId)] && ReplayOk(r.control))
      && (HasExecuted(seen.results) ==> ReplayOk(r.control))
    // By the counts themselves only an effect that came after them can make it refuse.
    ensures r.beforeResults >= turns ==>
      r.newResults == [Refusal(runId)] && (ReplayOk(r.control) <==> r.beforeEffects == |after.effects|)
  {
    var gate, w := CaseTool(runId, ApprovalRequired, atomic).AsGate(), CountsAt(
      CaseTool(runId, ApprovalRequired, atomic).AsGate(), turns, t);
    CaseToolIsExact(runId, atomic);
    CountsExtend(gate, turns, t);
    hide GateOk, Seen, Settled, Extends, AllOver, HasExecuted, ExactTool, CountsAt, Continue, HasAllow;
    if |Seen(w).results| >= turns {
      ReportedIsSettled(gate, turns, w);
      OverSuffix(gate, turns, w, t.meanwhile);
      SettledIsAccepted(gate, turns, w, t.meanwhile);
    }
    if HasExecuted(Seen(w).results) {
      ExecutedIsSettled(gate, turns, w);
      SettledIsAccepted(gate, turns, w, t.meanwhile);
    }
    if r.beforeResults >= turns {
      CountsDecide(gate, turns, w, t.meanwhile);
    }
  }

  /** Evidence behind an atomic gate is one result for the one dispatched turn. */
  lemma EvidenceIsReported(tool: GateTool, t: Taking)
    requires GateOk(tool, 1, t.recovered) && tool.atomic && Visible(Seen(t.recovered)) != EMPTY
    ensures |Seen(CountsAt(tool, 1, t)).results| >= 1
  {
    CountsExtend(tool, 1, t);
    AtomicEvidenceIsAResult(tool, 1, t.recovered);
    hide GateOk, Seen, CountsAt;
  }

  // ----- The verdict -----

  /** `verify`. */
  predicate Verify(
    l: Ledger, f: Gates.GateFiles, operationId: string, toolClass: ToolClass, interrupted: bool,
    negativeOk: bool, replay: ControlOutcome)
  {
    var recoveryPass :=
      && interrupted
      && l.state.threadId.Some? && l.state.turnId.Some?
      && l.faults != []
      && (l.state.status.Completed? || l.state.status.SafeStopped?)
      && l.state.retryCount <= 1
      && |f.effects| <= 1 && |f.results| <= 3
      && (InterruptedCases.Reconciles(Trace(l.events)) || l.state.status.SafeStopped?);
    var positiveOk :=
      && (toolClass.ReadOnly? || l.state.status.SafeStopped? || f.effects != [])
      && (forall i :: 0 <= i < |f.approvals| ==> f.approvals[i].operationId == operationId)
      && (forall i :: 0 <= i < |f.effects| ==> f.effects[i].operationId == operationId)
      && (forall i :: 0 <= i < |f.results| ==> f.results[i].operationId == operationId);
    recoveryPass && negativeOk && positiveOk && (replay.Taken? ==> ReplayOk(replay.control))
  }

  /** After an exception-free run only the visible effect and the replay control are left to decide. */
  lemma VerdictIsEffectAndControl(
    l: Ledger, tool: Tool, turns: nat, w: GateWorld, fault: Fault, plan: Plan, replay: ControlOutcome)
    requires Coherent(l) && Trace(l.events) == CaseTrace(fault, plan)
    requires l.state.threadId.Some? && l.state.turnId.Some? && l.state.retryCount <= 1
    requires l.state.status == (if plan.SafeStop? then SafeStopped else Completed)
    requires tool.Gate? && GateOk(tool.AsGate(), turns, w) && turns <= 2 && w.controls <= 1
    ensures Verify(l, Seen(w), tool.operationId, tool.toolClass, true, true, replay) <==>
      && (tool.toolClass.ReadOnly? || plan.SafeStop? || Seen(w).effects != [])
      && (replay.Taken? ==> ReplayOk(replay.control))
  {
    hide GateOk, Seen, Recovery.RetrySteps;
    SeenIsFiled(tool.AsGate(), turns, w);
    ResultsAreBounded(tool.AsGate(), turns, w);
    FaultIsLogged(l, fault, plan);
    ReconcileIsLogged(fault, plan);
    hide Trace, CaseTrace, InterruptedCases.Reconciles, Coherent;
  }

  lemma FaultIsLogged(l: Ledger, fault: Fault, plan: Plan)
    requires Coherent(l) && Trace(l.events) == CaseTrace(fault, plan)
    ensures l.faults != []
  {
    hide RecoveryTrace, Trace;
    assert CaseTrace(fault, plan)[5] == FaultInjected(fault);
    InterruptedCases.FaultsInTrace(l.events, 5);
  }

  lemma ReconcileIsLogged(fault: Fault, plan: Plan)
    ensures plan.SafeStop? || InterruptedCases.Reconciles(CaseTrace(fault, plan))
  {
    var start := 2 + |Recovery.InitialTrace(Some(fault))| + 1;
    var t := CaseTrace(fault, plan);
    if plan.Reconcile? {
      assert t[start].SideEffectReconciled?;
    } else if plan.SettleLate? {
      assert t[start + 1].SideEffectReconciled?;
    } else if plan.RetryOnce? {
      assert t[start + 3].SideEffectReconciled?;
    }
  }

  /** The `except` branch. */
  method Fails(host: Host)
    requires host.Valid()
    modifies host.ledger
    ensures host.Valid() && host.ledger.state.status.Unknown?
    ensures host.ledger.results == old(host.ledger.results)
  {
    hide Coherent, Trace, WorldOk, Host.Valid;
    host.Note(RunError);
    host.Assign(host.ledger.state.(
      status := Unknown, phase := "stop", lastCheckpoint := "error", safeStopReason := Some("exception")));
  }

  lemma OutcomeMeans(l: Ledger, plan: Plan, files: Files)
    requires Outcome(l, 0, plan, files)
    ensures l.state.status == if plan.SafeStop? then SafeStopped else Completed
    ensures |l.results| == if plan.SafeStop? then 0 else 1
    ensures !plan.RetryOnce? ==> (plan.SafeStop? <==> files == EMPTY)
  {
  }

  lemma SeenIsBounded(tool: Tool, turns: nat, w: GateWorld)
    requires tool.Gate? && GateOk(tool.AsGate(), turns, w)
    ensures |Seen(w).effects| <= 1 && (tool.toolClass.ReadOnly? ==> Seen(w).effects == [])
  {
    SeenIsFiled(tool.AsGate(), turns, w);
    hide GateOk, Seen;
  }

  // ----- The case -----

  datatype Report = Report(
    raised: bool, plan: Plan, turns: nat, replay: ControlOutcome, ledger: Ledger, files: Gates.GateFiles, passed: bool)

  /**
   The case goes as its script says: recovery ends so, the gate is then `t.recovered`, and the
   control and the ledgers in the end are those that the gate's moves lead to.
   */
  ghost predicate AsScripted(
    tool: Tool, script: seq<Reaction>, e: Ending, t: Taking, plan: Plan, turns: nat, replay: ControlOutcome,
    files: Gates.GateFiles)
    requires tool.Gate? && e.end <= |script|
  {
    && plan == e.plan && turns == (if plan.RetryOnce? then 2 else 1)
    && WorldAfter(tool, script, FIRST, SecondOf(e), e.end).behind == GateSide(t.recovered)
    && t == TakingOn(script[e.end..], t.recovered, replay)
    && TakenIn(tool.AsGate(), turns, t, replay, files)
  }

  /** `run_case`; `t` is what the gate did from the end of recovery on, and `history` what the run has met. */
  method RunCase(runId: string, fault: Fault, toolClass: ToolClass, atomic: bool, polls: nat, script: seq<Reaction>)
    returns (r: Report, ghost t: Taking, ghost history: seq<Moment>)
    // The run raises exactly when the script does not let it through or the replay does not get the lock.
    ensures r.raised <==>
      EndingOf(CaseTool(runId, toolClass, atomic), script, fault, polls).None? || r.replay.LockTimeout?
    ensures EndingOf(CaseTool(runId, toolClass, atomic), script, fault, polls).Some? ==>
      AsScripted(
        CaseTool(runId, toolClass, atomic), script,
        EndingOf(CaseTool(runId, toolClass, atomic), script, fault, polls).value,
        t, r.plan, r.turns, r.replay, r.files)
    // Raised or not, the ledgers are those that the reactions met lead to.
    ensures Reactions(history) <= script
    ensures HeldAt(CaseTool(runId, toolClass, atomic), history, |history|, r.turns, Visible(r.files))
    ensures Coherent(r.ledger) && r.ledger.ids == CaseIds(runId)
    // On every run: one effect at most, none for a read-only tool, and two turns that may call the gate at most.
    ensures |r.files.effects| <= 1 && (toolClass.ReadOnly? ==> r.files.effects == []) && r.turns <= 2
    ensures fault.ToolTimeout? && toolClass.ApprovalRequired? ==> r.turns <= 1 && !r.plan.RetryOnce?
    ensures r.raised ==> !r.passed && r.ledger.state.status.Unknown?
    // One result on the case ledger at most; without an exception none exactly when it stopped safely.
    ensures |r.ledger.results| <= 1
    ensures !r.raised ==> |r.ledger.results| == if r.plan.SafeStop? then 0 else 1
    ensures !r.raised ==> r.ledger.state.status == if r.plan.SafeStop? then SafeStopped else Completed
    ensures !r.raised ==> Trace(r.ledger.events) == CaseTrace(fault, r.plan)
    // With atomic appends, a run that completed on evidence leaves the replay's record alone in the suffix.
    ensures atomic && !r.raised && (r.plan.Reconcile? || r.plan.SettleLate?) && r.replay.Taken? ==>
      r.replay.newResults == [Refusal(runId)] && ReplayOk(r.replay.control)
    // Without it that holds once every dispatched turn has its result on the ledger when the control counts,
    ensures r.replay.Taken? ==>
      var seen := Seen(CountsAt(CaseTool(runId, toolClass, atomic).AsGate(), r.turns, t));
      && (|seen.results| >= r.turns ==> r.replay.newResults == [Refusal(runId)] && ReplayOk(r.replay.control))
      && (HasExecuted(seen.results) ==> ReplayOk(r.replay.control))
    // and, by the counts alone, up to an effect that came after them.
    ensures r.replay.Taken? && r.replay.beforeResults >= r.turns ==>
      && r.replay.newResults == [Refusal(runId)]
      && (ReplayOk(r.replay.control) <==> r.replay.beforeEffects == |r.files.effects|)
    // The verdict is left to the visible effect and the control.
    ensures !r.raised ==> (r.passed <==>
      && (toolClass.ReadOnly? || r.plan.SafeStop? || r.files.effects != [])
      && (r.replay.Taken? ==> ReplayOk(r.replay.control)))
  {
    hide Coherent, Trace, WorldOk, Host.Valid, Verify, CaseTrace, GateOk, Seen, Filed, ExactTool, Outcome;
    hide HasExecuted, TakenIn, CountsAt, Play, Reactions, Visible, HeldAt, EndingOf, AsScripted;
    var ledger := new CaseLedger(CaseIds(runId));
    var host := new Host(ledger, CaseTool(runId, toolClass, atomic), script);
    NegativeControlsHold(runId);
    var negativeOk := !toolClass.ApprovalRequired? || (
      && ReplayOk(DirectControl(NegativeCall(runId, ":negative-no-token", None)))
      && ReplayOk(DirectControl(NegativeCall(runId, ":negative-scope", Some(
           Gates.Token(Some("bad-token:" + runId), "write-case-idempotent", TARGET, 1))))));
    var ok, plan, replay;
    ok, plan, replay, t := RecoverAndControl(host, runId, fault, atomic, polls);
    GateOfHost(host);
    HeldNow(host);
    history := host.history;
    if !ok {
      Fails(host);
    }
    var passed := ok && Verify(
      ledger.View(), Seen(host.behind.world), host.tool.operationId, toolClass, true, negativeOk, replay);
    LedgerOf(host);
    SeenIsBounded(host.tool, host.turns, host.behind.world);
    if ok {
      VerdictIsEffectAndControl(ledger.View(), host.tool, host.turns, host.behind.world, fault, plan, replay);
    }
    r := Report(!ok, plan, host.turns, replay, ledger.View(), Seen(host.behind.world), passed);
  }

  /** The body of the `try` up to the verdict. */
  method RecoverAndControl(host: Host, runId: string, fault: Fault, atomic: bool, polls: nat)
    returns (ok: bool, plan: Plan, replay: ControlOutcome, ghost t: Taking)
    requires host.Valid() && host.turns == 0 && host.files == EMPTY && host.history == [] && host.replays == 0
    requires host.ledger.results == [] && Trace(host.ledger.events) == [RunCreated] && host.ledger.state == CREATED
    requires host.tool == CaseTool(runId, host.tool.toolClass, atomic)
    modifies host`files, host`behind, host`script, host`history, host`turns, host`replays, host.ledger
    ensures host.Valid() && host.turns <= 2 && |host.ledger.results| <= 1 && host.behind.GateSide?
    ensures host.behind.world.controls <= 1
    ensures ok <==> EndingOf(host.tool, old(host.script), fault, polls).Some? && !replay.LockTimeout?
    ensures EndingOf(host.tool, old(host.script), fault, polls).Some? ==>
      AsScripted(
        host.tool, old(host.script), EndingOf(host.tool, old(host.script), fault, polls).value,
        t, plan, host.turns, replay, Seen(host.behind.world))
    ensures fault.ToolTimeout? && host.tool.toolClass.ApprovalRequired? ==> host.turns <= 1 && !plan.RetryOnce?
    ensures ok ==>
      && host.ledger.state.retryCount <= 1
      && Trace(host.ledger.events) == CaseTrace(fault, plan)
      && host.ledger.state.threadId.Some? && host.ledger.state.turnId.Some?
      && host.ledger.state.status == (if plan.SafeStop? then SafeStopped else Completed)
      && |host.ledger.results| == if plan.SafeStop? then 0 else 1
    ensures ok ==> Tells(runId, host.tool.toolClass, atomic, plan, host.turns, t, replay, Seen(host.behind.world))
    ensures !ok ==> !replay.Taken?
  {
    hide Coherent, Trace, WorldOk, Host.Valid, CaseTrace, GateOk, Seen, ExactTool, Outcome, Tells, EndingOf;
    hide HasExecuted, TakenIn, CountsAt, Play, Visible, WorldAfter;
    GateOfHost(host);
    ghost var script := host.script;
    ok, plan := Attempt(host, fault, polls);
    GateOfHost(host);
    t, replay := Taking(host.behind.world, [], Meanwhile([], [], [])), NotTaken;
    if ok {
      OutcomeMeans(host.ledger.View(), plan, host.files);
      replay, t := TakeControl(host);
      ControlFollows(runId, host.tool.toolClass, atomic, plan, host.turns, t, replay, Seen(host.behind.world));
      ok := !replay.LockTimeout?;
    }
  }

  /** What the control tells after a recovery that `plan` describes. */
  ghost predicate Tells(
    runId: string, toolClass: ToolClass, atomic: bool, plan: Plan, turns: nat, t: Taking, r: ControlOutcome,
    after: Gates.GateFiles)
  {
    r.Taken? ==>
      var seen := Seen(CountsAt(CaseTool(runId, toolClass, atomic).AsGate(), turns, t));
      && (|seen.results| >= turns ==> r.newResults == [Refusal(runId)] && ReplayOk(r.control))
      && (HasExecuted(seen.results) ==> ReplayOk(r.control))
      && (r.beforeResults >= turns ==>
            r.newResults == [Refusal(runId)] && (ReplayOk(r.control) <==> r.beforeEffects == |after.effects|))
      && (atomic && (plan.Reconcile? || plan.SettleLate?) ==>
            r.newResults == [Refusal(runId)] && ReplayOk(r.control))
  }

  /** The control as it follows a recovery that `plan` describes. */
  lemma ControlFollows(
    runId: string, toolClass: ToolClass, atomic: bool, plan: Plan, turns: nat, t: Taking, r: ControlOutcome,
    after: Gates.GateFiles)
    requires TakenIn(CaseTool(runId, toolClass, atomic).AsGate(), turns, t, r, after)
    requires t.recovered.controls == 0 && turns <= if plan.RetryOnce? then 2 else 1
    requires plan.Reconcile? || plan.SettleLate? ==> Visible(Seen(t.recovered)) != EMPTY
    ensures Tells(runId, toolClass, atomic, plan, turns, t, r, after)
  {
    if r.Taken? {
      assert toolClass.ApprovalRequired?;
      hide HasExecuted, CountsAt, Seen, Visible, GateOk;
      ControlTells(runId, atomic, turns, t, r, after);
      if atomic && (plan.Reconcile? || plan.SettleLate?) {
        EvidenceIsReported(CaseTool(runId, toolClass, atomic).AsGate(), t);
      }
    }
  }
}
