/**
 The replay control of the approval runner: count the effects, count the results, make the
 call once more with the same token, and look at what the ledgers gained.  The gate goes on
 moving in between.
 */
module ReplayControls {
  import opened Basics
  import opened EffectSinks
  import opened ApprovalGates
  import opened GateWorlds

  datatype Control = Control(denied: bool, blocked: bool, effectCount: nat)

  /** `control_record`: only what the ledgers gained since the counts were taken. */
  function ControlRecord(denied: bool, after: GateFiles, beforeEffects: nat, beforeResults: nat): Control
    requires beforeEffects <= |after.effects| && beforeResults <= |after.results|
  {
    var newResults := after.results[beforeResults..];
    Control(
      denied,
      newResults != [] && (forall i :: 0 <= i < |newResults| ==> !newResults[i].executed),
      |after.effects| - beforeEffects)
  }

  predicate ReplayOk(c: Control) {
    c.denied && c.effectCount == 0 && c.blocked
  }

  /** What the gate does between the two counts, until the replay has the lock, and until the ledgers are read again. */
  datatype Meanwhile = Meanwhile(counting: seq<Move>, waiting: seq<Move>, reading: seq<Move>)

  function Counted(tool: GateTool, turns: nat, w: GateWorld, m: Meanwhile): GateWorld {
    Continue(tool, turns, w, m.counting)
  }

  function AtTheLock(tool: GateTool, turns: nat, w: GateWorld, m: Meanwhile): GateWorld {
    Continue(tool, turns, Counted(tool, turns, w, m), m.waiting)
  }

  function AtTheEnd(tool: GateTool, turns: nat, w: GateWorld, m: Meanwhile): GateWorld {
    Continue(tool, turns, Replayed(tool, AtTheLock(tool, turns, w, m)), m.reading)
  }

  /** The replay gets the lock only when no call is in flight. */
  predicate LockFree(tool: GateTool, turns: nat, w: GateWorld, m: Meanwhile) {
    AtTheLock(tool, turns, w, m).inflight.None?
  }

  lemma ControlGrows(tool: GateTool, turns: nat, w: GateWorld, m: Meanwhile)
    requires GateOk(tool, turns, w) && turns > 0 && LockFree(tool, turns, w, m)
    ensures GateOk(tool, turns, Counted(tool, turns, w, m)) && GateOk(tool, turns, AtTheLock(tool, turns, w, m))
    ensures GateOk(tool, turns, Replayed(tool, AtTheLock(tool, turns, w, m)))
    ensures Seen(w).effects <= Seen(AtTheEnd(tool, turns, w, m)).effects
    ensures Seen(Counted(tool, turns, w, m)).results <= AtTheLock(tool, turns, w, m).base.results
    ensures Replayed(tool, AtTheLock(tool, turns, w, m)).base.results <= Seen(AtTheEnd(tool, turns, w, m)).results
    ensures Seen(Counted(tool, turns, w, m)).results <= Seen(AtTheEnd(tool, turns, w, m)).results
  {
    var (one, two) := (Counted(tool, turns, w, m), AtTheLock(tool, turns, w, m));
    var three := Replayed(tool, two);
    ContinueIsOk(tool, turns, w, m.counting);
    ContinueIsOk(tool, turns, one, m.waiting);
    ReplayIsOk(tool, turns, two);
    ContinueExtends(tool, turns, w, m.counting);
    ContinueExtends(tool, turns, one, m.waiting);
    ContinueExtends(tool, turns, three, m.reading);
    StageExtends(two.base, CallOf(tool, 0), LAST);
    hide GateOk, Continue, Stage;
  }

  function ControlOf(tool: GateTool, turns: nat, w: GateWorld, m: Meanwhile): Control
    requires GateOk(tool, turns, w) && turns > 0 && LockFree(tool, turns, w, m)
  {
    ControlGrows(tool, turns, w, m);
    ControlRecord(
      !Decide(AtTheLock(tool, turns, w, m).base, CallOf(tool, 0)).allow,
      Seen(AtTheEnd(tool, turns, w, m)), |Seen(w).effects|, |Seen(Counted(tool, turns, w, m)).results|)
  }

  /** The suffix of the result ledger that the control looks at. */
  function NewResults(tool: GateTool, turns: nat, w: GateWorld, m: Meanwhile): seq<GateResult>
    requires GateOk(tool, turns, w) && turns > 0 && LockFree(tool, turns, w, m)
  {
    ControlGrows(tool, turns, w, m);
    Seen(AtTheEnd(tool, turns, w, m)).results[|Seen(Counted(tool, turns, w, m)).results|..]
  }

  /** The one record the replay itself writes. */
  function OwnResult(tool: GateTool, f: GateFiles): GateResult {
    if Decide(f, CallOf(tool, 0)).allow then
      GateResult(tool.operationId, true, if Applies(f, CallOf(tool, 0)) then 1 else 0)
    else Blocked(CallOf(tool, 0))
  }

  lemma OwnResultIsWritten(tool: GateTool, w: GateWorld)
    ensures Replayed(tool, w).base.results == w.base.results + [OwnResult(tool, w.base)]
  {
    hide Decide;
  }

  // ----- The suffix is the replay's record alone -----

  ghost predicate OwnResultOnly(tool: GateTool, turns: nat, w: GateWorld, m: Meanwhile)
    requires GateOk(tool, turns, w) && turns > 0
  {
    LockFree(tool, turns, w, m) ==>
      NewResults(tool, turns, w, m) == [OwnResult(tool, AtTheLock(tool, turns, w, m).base)]
  }

  lemma OverSuffix(tool: GateTool, turns: nat, w: GateWorld, m: Meanwhile)
    requires GateOk(tool, turns, w) && turns > 0 && AllOver(turns, w)
    ensures LockFree(tool, turns, w, m) && AtTheLock(tool, turns, w, m) == w
    ensures Seen(AtTheEnd(tool, turns, w, m)) == Replayed(tool, w).base
    ensures NewResults(tool, turns, w, m) == [OwnResult(tool, w.base)]
  {
    StaysOver(tool, turns, w, m.counting);
    StaysOver(tool, turns, w, m.waiting);
    StaysOver(tool, turns, Replayed(tool, w), m.reading);
    OwnResultIsWritten(tool, w);
    hide GateOk, Continue, Stage;
  }

  /** Enough writes end the call in flight. */
  lemma {:induction false} WritesEnd(tool: GateTool, turns: nat, w: GateWorld) returns (moves: seq<Move>)
    requires GateOk(tool, turns, w) && w.inflight.Some?
    ensures var c := w.inflight.value.call;
      Continue(tool, turns, w, moves) == w.(base := Stage(w.base, c, Ending(w.base, c)), inflight := None)
    decreases Ending(w.base, w.inflight.value.call) - w.inflight.value.stage
  {
    var next := Step(tool, turns, w, Write);
    WriteIsOk(tool, turns, w);
    if next.inflight.None? {
      moves := [Write];
      assert moves[..0] == [];
      assert Continue(tool, turns, w, []) == w;
    } else {
      var rest := WritesEnd(tool, turns, next);
      moves := [Write] + rest;
      ContinueFirst(tool, turns, w, Write, rest);
    }
  }

  lemma {:induction false} ContinueFirst(tool: GateTool, turns: nat, w: GateWorld, m: Move, rest: seq<Move>)
    ensures Continue(tool, turns, w, [m] + rest) == Continue(tool, turns, Step(tool, turns, w, m), rest)
  {
    hide Step;
    if rest == [] {
      assert [m] + rest == [m] && [m][..0] == [];
      assert Continue(tool, turns, w, []) == w;
    } else {
      assert ([m] + rest)[..|rest|] == [m] + rest[..|rest| - 1];
      ContinueFirst(tool, turns, w, m, rest[..|rest| - 1]);
    }
  }

  /** A gate that is not over can still add a result of its own before the replay. */
  lemma NotOverAddsAResult(tool: GateTool, turns: nat, w: GateWorld) returns (moves: seq<Move>)
    requires GateOk(tool, turns, w) && !AllOver(turns, w)
    ensures var v := Continue(tool, turns, w, moves);
      v.inflight.None? && |v.base.results| == |Seen(w).results| + 1
  {
    if w.inflight.Some? {
      moves := WritesEnd(tool, turns, w);
      StageBeforeTheEnd(w.base, w.inflight.value.call, w.inflight.value.stage);
      hide Stage;
    } else {
      var turn :| 0 <= turn < turns && turn !in w.ran;
      var begun := Step(tool, turns, w, Begin(turn));
      BeginIsOk(tool, turns, w, turn);
      var rest := WritesEnd(tool, turns, begun);
      moves := [Begin(turn)] + rest;
      ContinueFirst(tool, turns, w, Begin(turn), rest);
      StageBeforeTheEnd(w.base, CallOf(tool, turn), 0);
      hide Stage;
    }
  }

  /**
   Whatever the gate does meanwhile, the suffix is exactly the replay's record, if and only if
   at the counts every dispatched turn has made its call and none is in flight.
   */
  lemma SuffixIsOwnResultExactly(tool: GateTool, turns: nat, w: GateWorld)
    requires GateOk(tool, turns, w) && turns > 0
    ensures (forall m :: OwnResultOnly(tool, turns, w, m)) <==> AllOver(turns, w)
  {
    if AllOver(turns, w) {
      forall m ensures OwnResultOnly(tool, turns, w, m) {
        OverSuffix(tool, turns, w, m);
      }
    } else {
      var moves := NotOverAddsAResult(tool, turns, w);
      var m := Meanwhile([], moves, []);
      assert Continue(tool, turns, w, []) == w;
      ControlGrows(tool, turns, w, m);
      OwnResultIsWritten(tool, AtTheLock(tool, turns, w, m));
      hide Continue, Replayed, GateOk;
      assert |NewResults(tool, turns, w, m)| > 1;
      assert !OwnResultOnly(tool, turns, w, m);
    }
  }

  // ----- The control accepts -----

  /**
   What the runner can read before the replay: the token is consumed, and the call that
   consumed it is no longer in flight, be it that its result is on the ledger or that it is dead.
   */
  ghost predicate Settled(tool: GateTool, w: GateWorld) {
    && Id(tool) != {} && Id(tool) <= Seen(w).consumed
    && (w.inflight.Some? ==> !Decide(w.base, w.inflight.value.call).allow)
  }

  /** The tool of an approval-required case: its token fits the call. */
  predicate ExactTool(tool: GateTool) {
    ExactShape(CallOf(tool, 0))
  }

  lemma CallsAreExact(tool: GateTool, turn: nat, f: GateFiles)
    requires ExactTool(tool)
    ensures Id(tool) != {} ==> (Decide(f, CallOf(tool, turn)).allow <==> !(Id(tool) <= f.consumed))
    ensures Id(tool) == {} ==> TokenOf(CallOf(tool, turn)) == Some("")
    ensures Spent(CallOf(tool, turn)) == Id(tool)
  {
  }

  /** From then on every call is denied: no effect, and blocked results only. */
  ghost predicate OnlyBlocked(before: GateFiles, after: GateFiles) {
    && after.effects == before.effects && before.results <= after.results
    && forall i :: |before.results| <= i < |after.results| ==> !after.results[i].executed
  }

  lemma DeniedStage(f: GateFiles, c: GateCall, stage: nat)
    requires !Decide(f, c).allow
    ensures OnlyBlocked(f, Stage(f, c, stage)) && Stage(f, c, stage).consumed == f.consumed
  {
    hide Decide;
  }

  lemma DeniedStages(f: GateFiles, c: GateCall, s: nat, t: nat)
    requires !Decide(f, c).allow && s <= t
    ensures OnlyBlocked(Stage(f, c, s), Stage(f, c, t))
  {
    hide Decide;
  }

  lemma SettledStep(tool: GateTool, turns: nat, w: GateWorld, m: Move)
    requires ExactTool(tool) && GateOk(tool, turns, w) && Settled(tool, w)
    ensures Settled(tool, Step(tool, turns, w, m)) && OnlyBlocked(Seen(w), Seen(Step(tool, turns, w, m)))
  {
    if w.inflight.Some? {
      var (c, stage) := (w.inflight.value.call, w.inflight.value.stage);
      DeniedStage(w.base, c, stage);
      DeniedStages(w.base, c, stage, stage + 1);
      DeniedStage(w.base, c, stage + 1);
      hide Stage, Decide;
    } else if m.Begin? {
      CallsAreExact(tool, m.turn, w.base);
      NoWrites(w.base, CallOf(tool, m.turn));
      hide Stage, Decide;
    }
  }

  lemma {:induction false} SettledContinue(tool: GateTool, turns: nat, w: GateWorld, moves: seq<Move>)
    requires ExactTool(tool) && GateOk(tool, turns, w) && Settled(tool, w)
    ensures Settled(tool, Continue(tool, turns, w, moves))
    ensures OnlyBlocked(Seen(w), Seen(Continue(tool, turns, w, moves)))
  {
    hide GateOk, Settled, Step, Seen, ExactTool;
    if moves != [] {
      var front := moves[..|moves| - 1];
      ContinueIsOk(tool, turns, w, front);
      SettledContinue(tool, turns, w, front);
      SettledStep(tool, turns, Continue(tool, turns, w, front), moves[|moves| - 1]);
    }
  }

  lemma SettledReplay(tool: GateTool, turns: nat, w: GateWorld)
    requires ExactTool(tool) && GateOk(tool, turns, w) && Settled(tool, w) && w.inflight.None?
    ensures !Decide(w.base, CallOf(tool, 0)).allow
    ensures Settled(tool, Replayed(tool, w)) && OnlyBlocked(w.base, Replayed(tool, w).base)
    ensures |Replayed(tool, w).base.results| == |w.base.results| + 1
  {
    CallsAreExact(tool, 0, w.base);
    DeniedStage(w.base, CallOf(tool, 0), LAST);
    hide Decide;
  }

  lemma SettledIsAccepted(tool: GateTool, turns: nat, w: GateWorld, m: Meanwhile)
    requires ExactTool(tool) && GateOk(tool, turns, w) && turns > 0 && Settled(tool, w) && LockFree(tool, turns, w, m)
    ensures ReplayOk(ControlOf(tool, turns, w, m))
  {
    var (one, two) := (Counted(tool, turns, w, m), AtTheLock(tool, turns, w, m));
    var three := Replayed(tool, two);
    ControlGrows(tool, turns, w, m);
    SettledContinue(tool, turns, w, m.counting);
    SettledContinue(tool, turns, one, m.waiting);
    SettledReplay(tool, turns, two);
    SettledContinue(tool, turns, three, m.reading);
    hide GateOk, Settled, Continue, Stage, ExactTool, Decide;
  }

  /** A granted call in flight, run to its end, puts an executed result into the suffix. */
  lemma GrantInFlightIsRefused(tool: GateTool, turns: nat, w: GateWorld) returns (m: Meanwhile)
    requires GateOk(tool, turns, w) && turns > 0
    requires w.inflight.Some? && Decide(w.base, w.inflight.value.call).allow
    ensures LockFree(tool, turns, w, m) && !ReplayOk(ControlOf(tool, turns, w, m))
  {
    var c := w.inflight.value.call;
    var moves := WritesEnd(tool, turns, w);
    m := Meanwhile([], moves, []);
    assert Continue(tool, turns, w, []) == w;
    var two := AtTheLock(tool, turns, w, m);
    ControlGrows(tool, turns, w, m);
    StageBeforeTheEnd(w.base, c, w.inflight.value.stage);
    OwnResultIsWritten(tool, two);
    var k := |w.base.results|;
    assert two.base.results[k].executed;
    var suffix := NewResults(tool, turns, w, m);
    assert suffix[0] == two.base.results[k];
  }

  /** A replay that is granted is not denied. */
  lemma UnspentIsRefused(tool: GateTool, turns: nat, w: GateWorld)
    requires ExactTool(tool) && GateOk(tool, turns, w) && turns > 0 && w.inflight.None?
    requires Id(tool) == {} || !(Id(tool) <= w.base.consumed)
    ensures var m := Meanwhile([], [], []);
      LockFree(tool, turns, w, m) && !ReplayOk(ControlOf(tool, turns, w, m))
  {
    assert Continue(tool, turns, w, []) == w;
    CallsAreExact(tool, 0, w.base);
    ControlGrows(tool, turns, w, Meanwhile([], [], []));
  }

  /** While a call is in flight that is denied, the token is consumed already. */
  lemma DeniedMeansConsumed(tool: GateTool, turns: nat, w: GateWorld)
    requires ExactTool(tool) && GateOk(tool, turns, w)
    requires w.inflight.Some? && !Decide(w.base, w.inflight.value.call).allow
    ensures Id(tool) != {} && Id(tool) <= Seen(w).consumed
  {
    CallsAreExact(tool, w.inflight.value.call.turn, w.base);
    StageExtends(w.base, w.inflight.value.call, w.inflight.value.stage);
    hide Stage;
  }

  ghost predicate Accepts(tool: GateTool, turns: nat, w: GateWorld, m: Meanwhile)
    requires GateOk(tool, turns, w) && turns > 0
  {
    LockFree(tool, turns, w, m) ==> ReplayOk(ControlOf(tool, turns, w, m))
  }

  /**
   Whatever the gate does meanwhile, the control accepts, if and only if at the counts the
   token is consumed and the call that consumed it has left its result or is dead.
   */
  lemma ReplayControlExactly(tool: GateTool, turns: nat, w: GateWorld)
    requires ExactTool(tool) && GateOk(tool, turns, w) && turns > 0
    ensures (forall m :: Accepts(tool, turns, w, m)) <==> Settled(tool, w)
  {
    if Settled(tool, w) {
      forall m ensures Accepts(tool, turns, w, m) {
        if LockFree(tool, turns, w, m) {
          SettledIsAccepted(tool, turns, w, m);
        }
      }
    } else if w.inflight.Some? && Decide(w.base, w.inflight.value.call).allow {
      var m := GrantInFlightIsRefused(tool, turns, w);
      assert !Accepts(tool, turns, w, m);
    } else if w.inflight.Some? {
      DeniedMeansConsumed(tool, turns, w);
      assert false;
    } else {
      UnspentIsRefused(tool, turns, w);
      assert !Accepts(tool, turns, w, Meanwhile([], [], []));
    }
  }

  /** One result per dispatched turn on the ledger is enough, and the suffix is then the one blocked record. */
  lemma ReportedIsSettled(tool: GateTool, turns: nat, w: GateWorld)
    requires ExactTool(tool) && Id(tool) != {} && GateOk(tool, turns, w) && w.controls == 0
    requires |Seen(w).results| >= turns && HasAllow(Seen(w).approvals)
    ensures AllOver(turns, w) && Settled(tool, w) && OwnResult(tool, w.base) == Blocked(CallOf(tool, 0))
  {
    ReportedMeansOver(tool, turns, w);
    CallsAreExact(tool, 0, w.base);
    hide GateOk, Decide, ExactTool;
  }

  /** One executed result on the ledger is enough for the control to accept, whoever is still to call. */
  lemma ExecutedIsSettled(tool: GateTool, turns: nat, w: GateWorld)
    requires ExactTool(tool) && Id(tool) != {} && GateOk(tool, turns, w)
    requires HasExecuted(Seen(w).results)
    ensures Settled(tool, w)
  {
    if w.inflight.Some? {
      var (c, stage) := (w.inflight.value.call, w.inflight.value.stage);
      StageBeforeTheEnd(w.base, c, stage);
      StageExtends(w.base, c, stage);
      CallsAreExact(tool, c.turn, w.base);
    }
    hide Stage, Decide, ExactTool;
  }

  /**
   In terms of the two counts alone: with one result per dispatched turn among those counted, the
   suffix is the one blocked record, and the control accepts unless an effect came after the counts.
   */
  lemma CountsDecide(tool: GateTool, turns: nat, w: GateWorld, m: Meanwhile)
    requires ExactTool(tool) && Id(tool) != {} && GateOk(tool, turns, w) && turns > 0 && w.controls == 0
    requires LockFree(tool, turns, w, m) && HasAllow(Seen(w).approvals)
    requires |Seen(Counted(tool, turns, w, m)).results| >= turns
    ensures NewResults(tool, turns, w, m) == [Blocked(CallOf(tool, 0))]
    ensures ReplayOk(ControlOf(tool, turns, w, m)) <==> |Seen(w).effects| == |Seen(AtTheEnd(tool, turns, w, m)).effects|
  {
    var one, rest := Counted(tool, turns, w, m), Meanwhile([], m.waiting, m.reading);
    ContinueIsOk(tool, turns, w, m.counting);
    ContinueExtends(tool, turns, w, m.counting);
    ContinueKeepsControls(tool, turns, w, m.counting);
    AllowStays(Seen(w), Seen(one));
    ReportedIsSettled(tool, turns, one);
    OverSuffix(tool, turns, one, rest);
    CallsAreExact(tool, 0, one.base);
    assert Counted(tool, turns, one, rest) == one;
    ControlGrows(tool, turns, w, m);
    hide GateOk, Continue, Stage, Decide, ExactTool;
  }

  lemma AllowStays(before: GateFiles, after: GateFiles)
    requires Extends(before, after) && HasAllow(before.approvals)
    ensures HasAllow(after.approvals)
  {
    var i :| 0 <= i < |before.approvals| && before.approvals[i].Decided? && before.approvals[i].decision.allow;
    assert after.approvals[i] == before.approvals[i];
  }

  /** The call of the initial turn, caught between its effect and its result. */
  function EffectWithoutResult(tool: GateTool): GateWorld {
    GateWorld(NOTHING, Some(InFlight(CallOf(tool, 0), APPLIED)), {0}, 0, 0)
  }

  /**
   Where the evidence is an effect whose result is still to come, recovery may complete, and
   yet the control is confused: the late result is part of the suffix.
   */
  lemma EffectWithoutResultConfusesTheControl(tool: GateTool)
    requires ExactTool(tool) && !tool.atomic && Id(tool) != {}
    ensures var w := EffectWithoutResult(tool);
      && GateOk(tool, 1, w) && |Seen(w).effects| == 1 && Seen(w).results == [] && Id(tool) <= Seen(w).consumed
      && exists m :: LockFree(tool, 1, w, m) && !ReplayOk(ControlOf(tool, 1, w, m))
  {
    var w := EffectWithoutResult(tool);
    CallsAreExact(tool, 0, NOTHING);
    assert !HasEffect(NOTHING, tool.operationId);
    assert GateOk(tool, 1, w);
    var m := GrantInFlightIsRefused(tool, 1, w);
  }

  /** Where the first call died before it consumed its token, the replay is granted and the control refuses. */
  lemma UnspentTokenIsGrantedAgain(tool: GateTool)
    requires ExactTool(tool)
    ensures var w := GateWorld(Stage(NOTHING, CallOf(tool, 0), DECIDED), None, {0}, 1, 0);
      && GateOk(tool, 1, w) && HasAllow(Seen(w).approvals)
      && LockFree(tool, 1, w, Meanwhile([], [], [])) && !ReplayOk(ControlOf(tool, 1, w, Meanwhile([], [], [])))
  {
    var c := CallOf(tool, 0);
    CallsAreExact(tool, 0, NOTHING);
    var f := Stage(NOTHING, c, DECIDED);
    StageFiled(tool, 1, NOTHING, c, DECIDED);
    assert f.approvals[1].Decided? && f.approvals[1].decision.allow;
    var w := GateWorld(f, None, {0}, 1, 0);
    assert GateOk(tool, 1, w);
    UnspentIsRefused(tool, 1, w);
  }
}
