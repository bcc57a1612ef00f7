/**
 The gate as a process that moves while the runner does something else: the calls the
 candidate makes, one per dispatched turn, each advancing write by write under the lock or
 killed between two writes.
 */
module GateWorlds {
  import opened Basics
  import opened EffectSinks
  import opened ApprovalGates

  /** The command of one case.  `atomic`: the appends after the consumption come in one step. */
  datatype GateTool = GateTool(operationId: string, key: string, toolClass: ToolClass,
    token: Option<Token>, atomic: bool)

  const TARGET := "case-effect-target"

  function CallOf(tool: GateTool, turn: nat): GateCall {
    GateCall(tool.operationId, tool.key, turn, tool.toolClass, PolicyAction(tool.toolClass), TARGET, true, tool.token)
  }

  datatype InFlight = InFlight(call: GateCall, stage: nat)

  /**
   `base` is what the ledgers held when the call in flight got the lock.  `ran` are the turns
   whose call was made, `died` counts the calls killed on the way, `controls` the runner's own.
   */
  datatype GateWorld = GateWorld(base: GateFiles, inflight: Option<InFlight>, ran: set<nat>, died: nat, controls: nat)

  const FRESH := GateWorld(NOTHING, None, {}, 0, 0)

  /** What a reader of the ledgers sees. */
  function Seen(w: GateWorld): GateFiles {
    if w.inflight.None? then w.base else Stage(w.base, w.inflight.value.call, w.inflight.value.stage)
  }

  /** How many writes the call makes. */
  function Ending(f: GateFiles, c: GateCall): nat {
    if Decide(f, c).allow then LAST else CONSUMED
  }

  datatype Move = Begin(turn: nat) | Write | Die

  function NextStage(tool: GateTool, f: GateFiles, c: GateCall, stage: nat): nat {
    if tool.atomic && stage == CONSUMED && Decide(f, c).allow then LAST else stage + 1
  }

  /** A call that has made its last write releases the lock; so does a killed one. */
  function Step(tool: GateTool, turns: nat, w: GateWorld, m: Move): GateWorld {
    match m
    case Begin(turn) =>
      if w.inflight.None? && turn < turns && turn !in w.ran then
        w.(inflight := Some(InFlight(CallOf(tool, turn), 0)), ran := w.ran + {turn})
      else w
    case Write =>
      if w.inflight.None? then w else
      var (c, next) := (w.inflight.value.call, NextStage(tool, w.base, w.inflight.value.call, w.inflight.value.stage));
      if next < Ending(w.base, c) then w.(inflight := Some(InFlight(c, next)))
      else w.(base := Stage(w.base, c, Ending(w.base, c)), inflight := None)
    case Die =>
      if w.inflight.None? then w else w.(base := Seen(w), inflight := None, died := w.died + 1)
  }

  function Continue(tool: GateTool, turns: nat, w: GateWorld, moves: seq<Move>): GateWorld {
    if moves == [] then w
    else Step(tool, turns, Continue(tool, turns, w, moves[..|moves| - 1]), moves[|moves| - 1])
  }

  /** The runner's own call, which waits for the lock and then runs to its end. */
  function Replayed(tool: GateTool, w: GateWorld): GateWorld {
    w.(base := Stage(w.base, CallOf(tool, 0), LAST), controls := w.controls + 1)
  }

  // ----- What every world keeps -----

  ghost predicate Filed(tool: GateTool, turns: nat, f: GateFiles) {
    && |f.effects| <= 1
    && (tool.toolClass.ReadOnly? ==> f.effects == [])
    && (forall i :: 0 <= i < |f.effects| ==>
          f.effects[i].operationId == tool.operationId && f.effects[i].key == tool.key && f.effects[i].turn < turns)
    && (forall i :: 0 <= i < |f.results| ==> f.results[i].operationId == tool.operationId)
    && (forall i :: 0 <= i < |f.approvals| ==> f.approvals[i].operationId == tool.operationId)
  }

  /** Some call was allowed. */
  predicate HasAllow(approvals: seq<ApprovalRecord>) {
    exists i :: 0 <= i < |approvals| && approvals[i].Decided? && approvals[i].decision.allow
  }

  /** Some call ran to its end. */
  predicate HasExecuted(results: seq<GateResult>) {
    exists i :: 0 <= i < |results| && results[i].executed
  }

  /** The ids an allowed call of the tool leaves consumed. */
  function Id(tool: GateTool): set<string> {
    Spent(CallOf(tool, 0))
  }

  function Pending(w: GateWorld): nat {
    if w.inflight.Some? then 1 else 0
  }

  ghost predicate InFlightOk(tool: GateTool, w: GateWorld) {
    w.inflight.Some? ==>
      var (c, stage) := (w.inflight.value.call, w.inflight.value.stage);
      && c == CallOf(tool, c.turn) && c.turn in w.ran
      && stage < Ending(w.base, c)
      && (tool.atomic && Decide(w.base, c).allow ==> stage <= CONSUMED)
  }

  /**
   Each call of a dispatched turn has left its result, died, or is in flight.  A call that ran
   to its end has consumed the token, and unless one died, so has every allowed call that is
   over.  Atomic calls leave no effect without a result.
   */
  ghost predicate GateOk(tool: GateTool, turns: nat, w: GateWorld) {
    && (forall t :: t in w.ran ==> t < turns)
    && InFlightOk(tool, w)
    && Filed(tool, turns, w.base)
    && |w.base.results| + w.died + Pending(w) == |w.ran| + w.controls
    && (w.died == 0 && HasAllow(w.base.approvals) ==> Id(tool) <= w.base.consumed)
    && (HasExecuted(w.base.results) ==> Id(tool) <= w.base.consumed)
    && (tool.atomic && w.base.effects != [] ==> w.base.results != [])
    && "" !in w.base.consumed
  }

  lemma StageFiled(tool: GateTool, turns: nat, f: GateFiles, c: GateCall, stage: nat)
    requires Filed(tool, turns, f) && c == CallOf(tool, c.turn) && c.turn < turns
    ensures Filed(tool, turns, Stage(f, c, stage))
  {
    hide Decide;
    if |f.effects| == 1 {
      assert f.effects[0].operationId == c.operationId;
      assert HasEffect(f, c.operationId);
    }
  }

  /** Up to its last write a call adds no result, and up to its consumption no effect. */
  lemma StageBeforeTheEnd(f: GateFiles, c: GateCall, stage: nat)
    ensures stage < Ending(f, c) ==> Stage(f, c, stage).results == f.results
    ensures |Stage(f, c, Ending(f, c)).results| == |f.results| + 1
    ensures stage <= CONSUMED || !Decide(f, c).allow ==> Stage(f, c, stage).effects == f.effects
    ensures Decide(f, c).allow && stage >= CONSUMED ==> Spent(c) <= Stage(f, c, stage).consumed
    ensures "" !in f.consumed ==> "" !in Stage(f, c, stage).consumed
    ensures stage == Ending(f, c) && HasAllow(Stage(f, c, stage).approvals) ==>
      HasAllow(f.approvals) || Spent(c) <= Stage(f, c, stage).consumed
  {
    hide Decide, Applies;
    var g := Stage(f, c, stage);
    if stage == Ending(f, c) && HasAllow(g.approvals) && !Decide(f, c).allow {
      var i :| 0 <= i < |g.approvals| && g.approvals[i].Decided? && g.approvals[i].decision.allow;
      assert i < |f.approvals|;
    }
  }

  /** Only a call that has consumed its token leaves an executed result. */
  lemma ExecutedMeansConsumed(f: GateFiles, c: GateCall, stage: nat)
    ensures HasExecuted(Stage(f, c, stage).results) ==>
      HasExecuted(f.results) || Spent(c) <= Stage(f, c, stage).consumed
  {
    hide Decide, Applies;
    var g := Stage(f, c, stage);
    if HasExecuted(g.results) && !HasExecuted(f.results) {
      var i :| 0 <= i < |g.results| && g.results[i].executed;
      assert i >= |f.results|;
    }
  }

  lemma BeginIsOk(tool: GateTool, turns: nat, w: GateWorld, turn: nat)
    requires GateOk(tool, turns, w)
    ensures GateOk(tool, turns, Step(tool, turns, w, Begin(turn)))
  {
    hide Filed, HasAllow, HasExecuted;
  }

  lemma WriteIsOk(tool: GateTool, turns: nat, w: GateWorld)
    requires GateOk(tool, turns, w)
    ensures GateOk(tool, turns, Step(tool, turns, w, Write))
  {
    if w.inflight.Some? {
      var c := w.inflight.value.call;
      StageFiled(tool, turns, w.base, c, Ending(w.base, c));
      StageBeforeTheEnd(w.base, c, Ending(w.base, c));
      ExecutedMeansConsumed(w.base, c, Ending(w.base, c));
      hide Filed, HasAllow, HasExecuted, Decide, Stage;
      StageExtends(w.base, c, Ending(w.base, c));
    }
  }

  lemma StageExtends(f: GateFiles, c: GateCall, stage: nat)
    ensures f.results <= Stage(f, c, stage).results && f.consumed <= Stage(f, c, stage).consumed
    ensures f.effects <= Stage(f, c, stage).effects
  {
  }

  lemma DieIsOk(tool: GateTool, turns: nat, w: GateWorld)
    requires GateOk(tool, turns, w)
    ensures GateOk(tool, turns, Step(tool, turns, w, Die))
  {
    if w.inflight.Some? {
      var (c, stage) := (w.inflight.value.call, w.inflight.value.stage);
      StageFiled(tool, turns, w.base, c, stage);
      StageBeforeTheEnd(w.base, c, stage);
      StageExtends(w.base, c, stage);
      hide Filed, HasAllow, HasExecuted, Decide, Stage;
    }
  }

  lemma StepIsOk(tool: GateTool, turns: nat, w: GateWorld, m: Move)
    requires GateOk(tool, turns, w)
    ensures GateOk(tool, turns, Step(tool, turns, w, m))
  {
    match m
    case Begin(turn) => BeginIsOk(tool, turns, w, turn);
    case Write => WriteIsOk(tool, turns, w);
    case Die => DieIsOk(tool, turns, w);
  }

  lemma {:induction false} ContinueIsOk(tool: GateTool, turns: nat, w: GateWorld, moves: seq<Move>)
    requires GateOk(tool, turns, w)
    ensures GateOk(tool, turns, Continue(tool, turns, w, moves))
  {
    hide GateOk, Step;
    if moves != [] {
      ContinueIsOk(tool, turns, w, moves[..|moves| - 1]);
      StepIsOk(tool, turns, Continue(tool, turns, w, moves[..|moves| - 1]), moves[|moves| - 1]);
    }
  }

  lemma ReplayIsOk(tool: GateTool, turns: nat, w: GateWorld)
    requires GateOk(tool, turns, w) && w.inflight.None? && turns > 0
    ensures GateOk(tool, turns, Replayed(tool, w))
  {
    var c := CallOf(tool, 0);
    StageFiled(tool, turns, w.base, c, LAST);
    StageBeforeTheEnd(w.base, c, Ending(w.base, c));
    StageBeforeTheEnd(w.base, c, LAST);
    ExecutedMeansConsumed(w.base, c, LAST);
    PastTheEnd(w.base, c);
    hide Filed, HasAllow, HasExecuted, Decide, Stage;
    StageExtends(w.base, c, LAST);
  }

  lemma PastTheEnd(f: GateFiles, c: GateCall)
    ensures Stage(f, c, LAST) == Stage(f, c, Ending(f, c))
  {
  }

  /** A further dispatched turn changes nothing yet. */
  lemma OneMoreTurn(tool: GateTool, turns: nat, w: GateWorld)
    requires GateOk(tool, turns, w)
    ensures GateOk(tool, turns + 1, w)
  {
    hide HasAllow, HasExecuted, Decide;
  }

  // ----- The ledgers only grow -----

  ghost predicate Extends(before: GateFiles, after: GateFiles) {
    before.approvals <= after.approvals && before.effects <= after.effects
    && before.results <= after.results && before.consumed <= after.consumed
  }

  lemma LaterStage(f: GateFiles, c: GateCall, s: nat, t: nat)
    requires s <= t && t <= Ending(f, c)
    ensures Extends(Stage(f, c, s), Stage(f, c, t))
  {
    hide Decide, Applies;
  }

  lemma StepExtends(tool: GateTool, turns: nat, w: GateWorld, m: Move)
    requires InFlightOk(tool, w)
    ensures Extends(Seen(w), Seen(Step(tool, turns, w, m)))
  {
    if w.inflight.Some? {
      var (c, stage) := (w.inflight.value.call, w.inflight.value.stage);
      var next := NextStage(tool, w.base, c, stage);
      LaterStage(w.base, c, stage, if next < Ending(w.base, c) then next else Ending(w.base, c));
      hide Stage, Decide;
    } else if m.Begin? {
      NoWrites(w.base, CallOf(tool, m.turn));
    }
  }

  lemma NoWrites(f: GateFiles, c: GateCall)
    ensures Stage(f, c, 0) == f
  {
    assert f.approvals + [] + [] == f.approvals && f.results + [] == f.results && f.effects + [] == f.effects;
    assert f.consumed + {} == f.consumed;
  }

  lemma {:induction false} ContinueExtends(tool: GateTool, turns: nat, w: GateWorld, moves: seq<Move>)
    requires GateOk(tool, turns, w)
    ensures Extends(Seen(w), Seen(Continue(tool, turns, w, moves)))
  {
    hide Step, Seen;
    if moves != [] {
      var front := moves[..|moves| - 1];
      ContinueExtends(tool, turns, w, front);
      ContinueIsOk(tool, turns, w, front);
      StepExtends(tool, turns, Continue(tool, turns, w, front), moves[|moves| - 1]);
    }
  }

  lemma {:induction false} ContinueKeepsControls(tool: GateTool, turns: nat, w: GateWorld, moves: seq<Move>)
    ensures Continue(tool, turns, w, moves).controls == w.controls
  {
    hide Stage;
    if moves != [] {
      ContinueKeepsControls(tool, turns, w, moves[..|moves| - 1]);
    }
  }

  // ----- When nothing more can come -----

  /** Every dispatched turn has made its call and no call is in flight. */
  ghost predicate AllOver(turns: nat, w: GateWorld) {
    w.inflight.None? && forall t :: 0 <= t < turns ==> t in w.ran
  }

  lemma {:induction false} StaysOver(tool: GateTool, turns: nat, w: GateWorld, moves: seq<Move>)
    requires AllOver(turns, w)
    ensures Continue(tool, turns, w, moves) == w
  {
    if moves != [] {
      StaysOver(tool, turns, w, moves[..|moves| - 1]);
    }
  }

  lemma {:induction false} Below(s: set<nat>, n: nat)
    requires forall t :: t in s ==> t < n
    ensures |s| <= n
    ensures |s| == n ==> forall t :: 0 <= t < n ==> t in s
  {
    if n == 0 {
      assert s == {};
    } else {
      var rest := s - {n - 1};
      Below(rest, n - 1);
      if n - 1 in s {
        assert s == rest + {n - 1};
      } else {
        assert s == rest;
      }
    }
  }

  /** One result per dispatched turn on the ledger: then none died, all is over and a grant is consumed. */
  lemma ReportedMeansOver(tool: GateTool, turns: nat, w: GateWorld)
    requires GateOk(tool, turns, w) && w.controls == 0 && |Seen(w).results| >= turns
    ensures AllOver(turns, w) && w.died == 0
    ensures HasAllow(Seen(w).approvals) ==> Id(tool) <= Seen(w).consumed
  {
    Below(w.ran, turns);
    if w.inflight.Some? {
      StageBeforeTheEnd(w.base, w.inflight.value.call, w.inflight.value.stage);
    }
  }

  /** With atomic calls any evidence is a result. */
  lemma AtomicEvidenceIsAResult(tool: GateTool, turns: nat, w: GateWorld)
    requires GateOk(tool, turns, w) && tool.atomic && (Seen(w).effects != [] || Seen(w).results != [])
    ensures Seen(w).results != []
  {
    if w.inflight.Some? {
      StageBeforeTheEnd(w.base, w.inflight.value.call, w.inflight.value.stage);
    }
  }

  /** Never more results than dispatched turns and the runner's own calls. */
  lemma ResultsAreBounded(tool: GateTool, turns: nat, w: GateWorld)
    requires GateOk(tool, turns, w)
    ensures |Seen(w).results| <= turns + w.controls
  {
    Below(w.ran, turns);
    if w.inflight.Some? {
      StageBeforeTheEnd(w.base, w.inflight.value.call, w.inflight.value.stage);
    }
  }
}
