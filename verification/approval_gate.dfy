/**
 The composition-owned approval gate: policy, scope and one-shot token are decided under a
 file lock that is held until the call is over, so calls are serial.  Its ledgers are
 appended write by write, a call can be killed between any two of them, and the runner reads
 the ledgers without taking the lock.
 */
module ApprovalGates {
  import opened Basics
  import opened EffectSinks

  /** `tokenId` is `None` when the token file has no string there. */
  datatype Token = Token(tokenId: Option<string>, action: string, resource: string, maxAttempts: int)

  /**
   `caseLocal`: the resource resolves inside the workspace to the one allowed target.
   `turn` says on whose behalf the call is made; the gate does not see it.
   */
  datatype GateCall = GateCall(
    operationId: string, key: string, turn: nat, toolClass: ToolClass,
    action: string, resource: string, caseLocal: bool, token: Option<Token>)

  datatype Reason =
    | UnknownAction
    | CaseLocalPolicy
    | TokenMissing
    | TokenReplayed
    | ScopeMismatch
    | NotOneAttempt
    | ExactGrant

  datatype Decision = Decision(allow: bool, reason: Reason)

  /** The token of a grant is recorded by its digest. */
  datatype ApprovalRecord =
    | Requested(operationId: string)
    | Decided(operationId: string, decision: Decision, token: Option<Token>)
    | EffectRecorded(operationId: string, applied: bool)

  datatype GateEffect = GateEffect(
    operationId: string, key: string, turn: nat, toolClass: ToolClass, token: Option<string>)

  datatype GateResult = GateResult(operationId: string, executed: bool, physicalEffects: nat)

  datatype GateFiles = GateFiles(
    approvals: seq<ApprovalRecord>, effects: seq<GateEffect>, results: seq<GateResult>, consumed: set<string>)

  function PolicyAction(toolClass: ToolClass): string {
    match toolClass
    case ReadOnly => "read-case-state"
    case Idempotent => "write-case-idempotent"
    case ApprovalRequired => "write-case-approval"
  }

  predicate Admitted(c: GateCall) {
    c.action == PolicyAction(c.toolClass) && c.caseLocal
  }

  function TokenOf(c: GateCall): Option<string> {
    if c.token.Some? then c.token.value.tokenId else None
  }

  /** What an allowed call adds to the consumed ids: its token's, unless there is none or it is empty. */
  function Spent(c: GateCall): set<string> {
    if TokenOf(c).Some? && TokenOf(c).value != "" then {TokenOf(c).value} else {}
  }

  function Decide(f: GateFiles, c: GateCall): Decision {
    if !Admitted(c) then Decision(false, UnknownAction)
    else if !c.toolClass.ApprovalRequired? then Decision(true, CaseLocalPolicy)
    else if c.token.None? then Decision(false, TokenMissing)
    else if TokenOf(c).None? || TokenOf(c).value in f.consumed then Decision(false, TokenReplayed)
    else if c.token.value.action != c.action || c.token.value.resource != c.resource then Decision(false, ScopeMismatch)
    else if c.token.value.maxAttempts != 1 then Decision(false, NotOneAttempt)
    else Decision(true, ExactGrant)
  }

  predicate HasEffect(f: GateFiles, operationId: string) {
    exists i :: 0 <= i < |f.effects| && f.effects[i].operationId == operationId
  }

  predicate Applies(f: GateFiles, c: GateCall) {
    !c.toolClass.ReadOnly? && !HasEffect(f, c.operationId)
  }

  /** The writes of a call in order; a denied call ends with its result where an allowed one consumes its token. */
  const REQUESTED := 1
  const DECIDED := 2
  const CONSUMED := 3
  const APPLIED := 4
  const RECORDED := 5
  const LAST := 6

  /** The files after the first `stage` writes of one call. */
  function Stage(f: GateFiles, c: GateCall, stage: nat): (r: GateFiles)
    ensures f.effects <= r.effects && f.results <= r.results && f.approvals <= r.approvals && f.consumed <= r.consumed
  {
    var decision := Decide(f, c);
    var applies := Applies(f, c);
    var asked := f.approvals
      + (if stage >= REQUESTED then [Requested(c.operationId)] else [])
      + (if stage >= DECIDED then [Decided(c.operationId, decision, if decision.allow then c.token else None)] else []);
    if !decision.allow then
      f.(approvals := asked, results := f.results + if stage >= CONSUMED then [Blocked(c)] else [])
    else
      GateFiles(
        asked + (if stage >= RECORDED && !c.toolClass.ReadOnly? then [EffectRecorded(c.operationId, applies)] else []),
        f.effects + (if stage >= APPLIED && applies then [EffectOf(c)] else []),
        f.results + (if stage >= LAST then [GateResult(c.operationId, true, if applies then 1 else 0)] else []),
        f.consumed + (if stage >= CONSUMED then Spent(c) else {}))
  }

  function Blocked(c: GateCall): GateResult {
    GateResult(c.operationId, false, 0)
  }

  function EffectOf(c: GateCall): GateEffect {
    GateEffect(c.operationId, c.key, c.turn, c.toolClass, TokenOf(c))
  }

  const NOTHING := GateFiles([], [], [], {})

  /** A history of calls, each killed after some write or run to its end. */
  datatype Run = Run(call: GateCall, stage: nat)

  function RunGate(runs: seq<Run>): GateFiles {
    if runs == [] then NOTHING else Stage(RunGate(runs[..|runs| - 1]), runs[|runs| - 1].call, runs[|runs| - 1].stage)
  }

  // ----- Consumption, in terms of the calls and kills alone -----

  /** The call is exact but for the question whether its token was consumed before. */
  predicate ExactShape(c: GateCall) {
    && Admitted(c) && c.toolClass.ApprovalRequired? && TokenOf(c).Some?
    && c.token.value.action == c.action && c.token.value.resource == c.resource && c.token.value.maxAttempts == 1
  }

  /** The run got as far as consuming `t`, had it still been there to consume. */
  predicate Spends(r: Run, t: string) {
    r.stage >= CONSUMED && t in Spent(r.call)
      && (ExactShape(r.call) || (Admitted(r.call) && !r.call.toolClass.ApprovalRequired?))
  }

  ghost predicate SpentBefore(runs: seq<Run>, n: nat, t: string)
    requires n <= |runs|
  {
    exists k :: 0 <= k < n && Spends(runs[k], t)
  }

  lemma DecisionIsShape(f: GateFiles, c: GateCall)
    ensures Decide(f, c) == Decision(true, ExactGrant) <==> ExactShape(c) && TokenOf(c).value !in f.consumed
    ensures Decide(f, c) == Decision(true, CaseLocalPolicy) <==> Admitted(c) && !c.toolClass.ApprovalRequired?
    ensures Decide(f, c).allow ==> Decide(f, c).reason in {ExactGrant, CaseLocalPolicy}
  {
  }

  /**
   In terms of the call itself: it is allowed exactly when the resource is the case's own, the action is the
   one of its class, and an approval-required one shows an unconsumed token for just this, once.
   */
  lemma AllowedExactly(f: GateFiles, c: GateCall)
    ensures Decide(f, c).allow <==>
      && c.caseLocal
      && (c.toolClass.ReadOnly? ==> c.action == "read-case-state")
      && (c.toolClass.Idempotent? ==> c.action == "write-case-idempotent")
      && (c.toolClass.ApprovalRequired? ==>
            && c.action == "write-case-approval" && c.token.Some?
            && c.token.value.tokenId.Some? && c.token.value.tokenId.value !in f.consumed
            && c.token.value.action == c.action && c.token.value.resource == c.resource
            && c.token.value.maxAttempts == 1)
  {
  }

  /** A token id is consumed if and only if some run that may spend it got that far. */
  lemma {:induction false} ConsumedExactly(runs: seq<Run>, t: string)
    ensures t in RunGate(runs).consumed <==> SpentBefore(runs, |runs|, t)
  {
    if runs != [] {
      var front, last := runs[..|runs| - 1], runs[|runs| - 1];
      ConsumedExactly(front, t);
      OneMoreSpender(runs, t);
      DecisionIsShape(RunGate(front), last.call);
      hide SpentBefore, Decide, Admitted, ExactShape;
      assert runs[|runs| - 1] == last;
    }
  }

  lemma OneMoreSpender(runs: seq<Run>, t: string)
    requires runs != []
    ensures SpentBefore(runs, |runs|, t) <==>
      SpentBefore(runs[..|runs| - 1], |runs| - 1, t) || Spends(runs[|runs| - 1], t)
  {
    hide Spends;
    var front := runs[..|runs| - 1];
    if SpentBefore(front, |front|, t) {
      var k :| 0 <= k < |front| && Spends(front[k], t);
      assert Spends(runs[k], t);
    }
    if k :| 0 <= k < |runs| && Spends(runs[k], t) {
      assert k < |front| ==> Spends(front[k], t);
    }
  }

  /** Run `i` recorded a grant of token id `t`: it showed the token exactly, and no earlier run had spent it. */
  ghost predicate GrantedAt(runs: seq<Run>, i: nat, t: string)
    requires i < |runs|
  {
    && runs[i].stage >= DECIDED && ExactShape(runs[i].call) && TokenOf(runs[i].call) == Some(t)
    && !SpentBefore(runs, i, t)
  }

  predicate IsGrant(r: ApprovalRecord, t: string) {
    r.Decided? && r.decision == Decision(true, ExactGrant) && r.token.Some? && r.token.value.tokenId == Some(t)
  }

  /** How many recorded decisions granted token id `t`. */
  function Grants(approvals: seq<ApprovalRecord>, t: string): nat {
    if approvals == [] then 0
    else Grants(approvals[..|approvals| - 1], t) + if IsGrant(approvals[|approvals| - 1], t) then 1 else 0
  }

  lemma {:induction false} GrantsConcat(a: seq<ApprovalRecord>, b: seq<ApprovalRecord>, t: string)
    ensures Grants(a + b, t) == Grants(a, t) + Grants(b, t)
  {
    if b == [] {
      assert a + b == a;
    } else {
      GrantsConcat(a, b[..|b| - 1], t);
      assert (a + b)[..|a + b| - 1] == a + b[..|b| - 1];
    }
  }

  lemma SingleGrant(r: ApprovalRecord, t: string)
    ensures Grants([r], t) == if IsGrant(r, t) then 1 else 0
  {
    assert [r][..0] == [];
  }

  /** One call adds one grant of `t` at most, when it gets to its decision and the decision is one. */
  lemma StageGrants(f: GateFiles, c: GateCall, stage: nat, t: string)
    ensures Grants(Stage(f, c, stage).approvals, t) == Grants(f.approvals, t)
      + if stage >= DECIDED && Decide(f, c) == Decision(true, ExactGrant) && TokenOf(c) == Some(t) then 1 else 0
  {
    hide Grants, Decide, Applies;
    DecisionIsShape(f, c);
    var decision := Decide(f, c);
    var request := if stage >= REQUESTED then [Requested(c.operationId)] else [];
    var record := Decided(c.operationId, decision, if decision.allow then c.token else None);
    var decided := if stage >= DECIDED then [record] else [];
    var closing := EffectRecorded(c.operationId, Applies(f, c));
    var rest := if decision.allow && stage >= RECORDED && !c.toolClass.ReadOnly? then [closing] else [];
    assert Stage(f, c, stage).approvals == f.approvals + request + decided + rest;
    GrantsConcat(f.approvals + request + decided, rest, t);
    GrantsConcat(f.approvals + request, decided, t);
    GrantsConcat(f.approvals, request, t);
    SingleGrant(Requested(c.operationId), t);
    SingleGrant(record, t);
    SingleGrant(closing, t);
    NoRecords(t);
  }

  lemma NoRecords(t: string)
    ensures Grants([], t) == 0
  {
  }

  /** How many runs are granted `t`, by the account in terms of calls and kills. */
  ghost function GrantedRuns(runs: seq<Run>, n: nat, t: string): nat
    requires n <= |runs|
  {
    if n == 0 then 0 else GrantedRuns(runs, n - 1, t) + if GrantedAt(runs, n - 1, t) then 1 else 0
  }

  lemma {:induction false} GrantsAreGrantedRuns(runs: seq<Run>, n: nat, t: string)
    requires n <= |runs|
    ensures Grants(RunGate(runs[..n]).approvals, t) == GrantedRuns(runs, n, t)
  {
    if n == 0 {
      NoRecords(t);
    } else {
      var front := runs[..n - 1];
      assert runs[..n][..n - 1] == front;
      GrantsAreGrantedRuns(runs, n - 1, t);
      ConsumedExactly(front, t);
      SpentInPrefix(runs, n - 1, t);
      StageGrants(RunGate(front), runs[n - 1].call, runs[n - 1].stage, t);
      DecisionIsShape(RunGate(front), runs[n - 1].call);
      assert RunGate(runs[..n]) == Stage(RunGate(front), runs[n - 1].call, runs[n - 1].stage);
      hide Grants, RunGate, Stage, Decide, ExactShape, Admitted, SpentBefore;
    }
  }

  lemma SpentInPrefix(runs: seq<Run>, n: nat, t: string)
    requires n <= |runs|
    ensures SpentBefore(runs[..n], n, t) <==> SpentBefore(runs, n, t)
  {
    hide Spends;
    if k :| 0 <= k < n && Spends(runs[k], t) {
      assert Spends(runs[..n][k], t);
    }
    if k :| 0 <= k < n && Spends(runs[..n][k], t) {
      assert Spends(runs[k], t);
    }
  }

  /** Two runs showed `t` exactly and were decided before any run had spent it. */
  ghost predicate ShownTwiceUnspent(runs: seq<Run>, n: nat, t: string)
    requires n <= |runs|
  {
    exists i, j :: 0 <= i < j < n && GrantedAt(runs, i, t) && GrantedAt(runs, j, t)
  }

  lemma {:induction false} CountingGrantedRuns(runs: seq<Run>, n: nat, t: string)
    requires n <= |runs|
    ensures GrantedRuns(runs, n, t) > 0 <==> exists i :: 0 <= i < n && GrantedAt(runs, i, t)
    ensures GrantedRuns(runs, n, t) > 1 <==> ShownTwiceUnspent(runs, n, t)
  {
    hide GrantedAt;
    if n > 0 {
      CountingGrantedRuns(runs, n - 1, t);
      if ShownTwiceUnspent(runs, n, t) {
        var i, j :| 0 <= i < j < n && GrantedAt(runs, i, t) && GrantedAt(runs, j, t);
        assert j < n - 1 ==> ShownTwiceUnspent(runs, n - 1, t);
      }
    }
  }

  /**
   Over every history, a token id has more than one recorded grant if and only if two runs
   showed it exactly and were decided before any run had spent it; the earlier of the two
   was then killed between its decision and the consumption, unless the id is empty.
   */
  lemma SecondGrantNeedsAKillInBetween(runs: seq<Run>, t: string)
    ensures Grants(RunGate(runs).approvals, t) > 1 <==> ShownTwiceUnspent(runs, |runs|, t)
    ensures forall i, j :: 0 <= i < j < |runs| && GrantedAt(runs, i, t) && GrantedAt(runs, j, t) ==>
      runs[i].stage == DECIDED || t == ""
  {
    assert runs[..|runs|] == runs;
    GrantsAreGrantedRuns(runs, |runs|, t);
    CountingGrantedRuns(runs, |runs|, t);
    forall i, j | 0 <= i < j < |runs| && GrantedAt(runs, i, t) && GrantedAt(runs, j, t)
      ensures runs[i].stage == DECIDED || t == ""
    {
      assert !Spends(runs[i], t);
    }
  }

  /** It happens with any id: killed after its decision, a call leaves its token to be granted to its repetition. */
  lemma UnspentTokenIsGrantedTwice(operationId: string, resource: string, t: string)
    ensures var c := ExactCall(operationId, resource, t);
      Grants(RunGate([Run(c, DECIDED), Run(c, LAST)]).approvals, t) == 2
  {
    var c := ExactCall(operationId, resource, t);
    var runs := [Run(c, DECIDED), Run(c, LAST)];
    GrantsAreGrantedRuns(runs, 2, t);
    assert runs[..2] == runs;
    assert GrantedAt(runs, 0, t) && GrantedAt(runs, 1, t);
    assert GrantedRuns(runs, 0, t) == 0;
    assert GrantedRuns(runs, 1, t) == 1;
  }

  // ----- One effect per operation, one effect per token -----

  predicate Approved(e: GateEffect) {
    e.toolClass.ApprovalRequired?
  }

  /**
   At most one effect per operation; every approved effect shows a token whose id is consumed
   unless it is empty, and no other id stands behind two of them.
   */
  ghost predicate OneShot(f: GateFiles) {
    && (forall i, j :: 0 <= i < j < |f.effects| ==> f.effects[i].operationId != f.effects[j].operationId)
    && (forall i :: 0 <= i < |f.effects| && Approved(f.effects[i]) ==>
          f.effects[i].token.Some? && (f.effects[i].token.value in f.consumed || f.effects[i].token.value == ""))
    && (forall i, j :: 0 <= i < j < |f.effects| && Approved(f.effects[i]) && Approved(f.effects[j]) ==>
          f.effects[i].token != f.effects[j].token || f.effects[i].token == Some(""))
  }

  lemma {:induction false} OneShotTokens(runs: seq<Run>)
    ensures OneShot(RunGate(runs))
  {
    if runs != [] {
      var front, last := runs[..|runs| - 1], runs[|runs| - 1];
      OneShotTokens(front);
      OneMoreStage(RunGate(front), last.call, last.stage);
    }
  }

  lemma OneMoreStage(f: GateFiles, c: GateCall, stage: nat)
    requires OneShot(f)
    ensures OneShot(Stage(f, c, stage))
  {
    var g := Stage(f, c, stage);
    if |g.effects| > |f.effects| {
      assert g.effects == f.effects + [EffectOf(c)];
    }
  }

  /** Two approved effects stand behind token id `t`. */
  ghost predicate UsedTwice(f: GateFiles, t: string) {
    exists i, j :: 0 <= i < j < |f.effects|
      && Approved(f.effects[i]) && Approved(f.effects[j]) && f.effects[i].token == f.effects[j].token == Some(t)
  }

  /** A token id is one-shot on every history if and only if it is not the empty string. */
  lemma OneShotExactly(t: string)
    ensures (forall runs :: !UsedTwice(RunGate(runs), t)) <==> t != ""
  {
    if t != "" {
      forall runs ensures !UsedTwice(RunGate(runs), t) {
        OneShotTokens(runs);
      }
    } else {
      EmptyIdIsReused("target");
      assert UsedTwice(RunGate(EmptyIdRuns("target")), "");
    }
  }

  function ExactCall(operationId: string, resource: string, tokenId: string): GateCall {
    GateCall(operationId, "key", 0, ApprovalRequired, "write-case-approval", resource, true,
      Some(Token(Some(tokenId), "write-case-approval", resource, 1)))
  }

  /** Two operations under one token with an empty id, both run to their end. */
  function EmptyIdRuns(resource: string): seq<Run> {
    [Run(ExactCall("a", resource, ""), LAST), Run(ExactCall("b", resource, ""), LAST)]
  }

  /** An empty token id is granted, never consumed, and so granted again: two approved effects. */
  lemma EmptyIdIsReused(resource: string)
    ensures var f := RunGate(EmptyIdRuns(resource));
      |f.effects| == 2 && UsedTwice(f, "") && "" !in f.consumed
  {
    var runs := EmptyIdRuns(resource);
    var one := runs[..1];
    assert one[..0] == [] && one == [runs[0]];
    assert RunGate([]) == NOTHING;
    var f := RunGate(one);
    assert f == Stage(NOTHING, runs[0].call, LAST);
    assert f.effects == [EffectOf(runs[0].call)] && f.consumed == {};
    var g := RunGate(runs);
    assert g == Stage(f, runs[1].call, LAST);
    assert !HasEffect(f, "b");
    assert g.effects == [EffectOf(runs[0].call), EffectOf(runs[1].call)];
    assert Approved(g.effects[0]) && Approved(g.effects[1]) && g.effects[0].token == g.effects[1].token;
  }

  /**
   Once an allowed call has got past its consumption, a later exact call that shows the same
   token is denied, leaving one blocked result and no effect, if and only if the id is not empty.
   */
  lemma ReplayIsDenied(runs: seq<Run>, i: nat, replay: GateCall, t: string)
    requires i < |runs| && runs[i].stage >= CONSUMED && TokenOf(runs[i].call) == Some(t)
    requires Decide(RunGate(runs[..i]), runs[i].call).allow
    requires ExactShape(replay) && TokenOf(replay) == Some(t)
    ensures !Decide(RunGate(runs), replay).allow <==> t != ""
    ensures t != "" ==> Stage(RunGate(runs), replay, LAST).effects == RunGate(runs).effects
    ensures t != "" ==> Stage(RunGate(runs), replay, LAST).results == RunGate(runs).results + [Blocked(replay)]
    ensures t == "" ==> Decide(RunGate(runs), replay) == Decision(true, ExactGrant)
  {
    ConsumedExactly(runs, t);
    DecisionIsShape(RunGate(runs[..i]), runs[i].call);
    DecisionIsShape(RunGate(runs), replay);
    if t != "" {
      assert Spends(runs[i], t);
    }
  }
}
