/**
 The case-local effect sink: one process run that takes the file lock, looks for an earlier
 effect of the same operation, and appends to the effect and tool-result ledgers.
 */
module EffectSinks {

  datatype ToolClass = ReadOnly | Idempotent | ApprovalRequired

  datatype Action = NoAction | Deduplicated | AppliedNow | Refused

  /** `turn` records which dispatched turn ran the tool; the file itself does not carry it. */
  datatype Effect = Effect(operationId: string, key: string, turn: nat)

  datatype ToolResult = ToolResult(operationId: string, action: Action, logicalEffects: nat)

  datatype Files = Files(effects: seq<Effect>, toolResults: seq<ToolResult>)

  const EMPTY := Files([], [])

  /** One run of the sink.  `dies`: the process is killed after its effect but before its result. */
  datatype SinkRun = SinkRun(operationId: string, key: string, toolClass: ToolClass, turn: nat, dies: bool)

  predicate Has(effects: seq<Effect>, operationId: string) {
    exists i :: 0 <= i < |effects| && effects[i].operationId == operationId
  }

  function RunSink(f: Files, run: SinkRun): (r: Files)
    ensures f.effects <= r.effects && f.toolResults <= r.toolResults
  {
    var action :=
      if run.toolClass == ReadOnly then NoAction
      else if Has(f.effects, run.operationId) then Deduplicated
      else AppliedNow;
    var effects := if action.AppliedNow? then f.effects + [Effect(run.operationId, run.key, run.turn)] else f.effects;
    if run.dies then Files(effects, f.toolResults)
    else Files(effects, f.toolResults + [ToolResult(run.operationId, action, if action.NoAction? then 0 else 1)])
  }

  function RunAll(f: Files, runs: seq<SinkRun>): Files {
    if runs == [] then f else RunSink(RunAll(f, runs[..|runs| - 1]), runs[|runs| - 1])
  }

  function EffectsOf(effects: seq<Effect>, operationId: string): nat {
    if effects == [] then 0 else
    EffectsOf(effects[..|effects| - 1], operationId)
      + if effects[|effects| - 1].operationId == operationId then 1 else 0
  }

  predicate Writes(runs: seq<SinkRun>, operationId: string) {
    exists i :: 0 <= i < |runs| && runs[i].operationId == operationId && runs[i].toolClass != ReadOnly
  }

  lemma {:induction false} HasMeansCounted(effects: seq<Effect>, operationId: string)
    ensures Has(effects, operationId) <==> EffectsOf(effects, operationId) > 0
  {
    if effects != [] {
      var front, last := effects[..|effects| - 1], effects[|effects| - 1];
      HasMeansCounted(front, operationId);
      assert effects == front + [last];
      if Has(front, operationId) {
        var i :| 0 <= i < |front| && front[i].operationId == operationId;
        assert effects[i].operationId == operationId;
      }
    }
  }

  /**
   Exactly once, for any number of runs of any operations in any order, killed or not: an
   operation has one effect if some run was allowed to write it and none otherwise.
   */
  lemma {:induction false} SinkAppliesExactlyOnce(runs: seq<SinkRun>, operationId: string)
    ensures EffectsOf(RunAll(EMPTY, runs).effects, operationId) == if Writes(runs, operationId) then 1 else 0
  {
    if runs != [] {
      var front, last := runs[..|runs| - 1], runs[|runs| - 1];
      SinkAppliesExactlyOnce(front, operationId);
      var before := RunAll(EMPTY, front);
      HasMeansCounted(before.effects, operationId);
      OneMoreWriter(runs, operationId);
      OneMoreEffect(before, last, operationId);
      hide Writes, Has, EffectsOf, RunSink;
    }
  }

  lemma OneMoreWriter(runs: seq<SinkRun>, operationId: string)
    requires runs != []
    ensures var last := runs[|runs| - 1];
      Writes(runs, operationId) <==>
        Writes(runs[..|runs| - 1], operationId) || (last.operationId == operationId && last.toolClass != ReadOnly)
  {
    var front := runs[..|runs| - 1];
    if i :| 0 <= i < |front| && front[i].operationId == operationId && front[i].toolClass != ReadOnly {
      assert runs[i] == front[i];
    }
    if i :| 0 <= i < |runs| && runs[i].operationId == operationId && runs[i].toolClass != ReadOnly {
      assert i < |front| ==> front[i] == runs[i];
    }
  }

  lemma OneMoreEffect(f: Files, run: SinkRun, operationId: string)
    ensures EffectsOf(RunSink(f, run).effects, operationId) == EffectsOf(f.effects, operationId)
      + if run.operationId == operationId && run.toolClass != ReadOnly && !Has(f.effects, operationId) then 1 else 0
  {
    hide Has;
    var after := RunSink(f, run).effects;
    if |after| > |f.effects| {
      assert after[..|after| - 1] == f.effects;
    }
  }

  // ----- Idempotency keys -----

  /** The effects recorded under an idempotency key. */
  function EffectsUnder(effects: seq<Effect>, key: string): nat {
    if effects == [] then 0 else
    EffectsUnder(effects[..|effects| - 1], key) + if effects[|effects| - 1].key == key then 1 else 0
  }

  /** Run `i` is the first one that may write its operation, and it is made under `key`. */
  ghost predicate Introduces(runs: seq<SinkRun>, i: nat, key: string)
    requires i < |runs|
  {
    runs[i].toolClass != ReadOnly && runs[i].key == key && !Writes(runs[..i], runs[i].operationId)
  }

  ghost function Introductions(runs: seq<SinkRun>, n: nat, key: string): nat
    requires n <= |runs|
  {
    if n == 0 then 0 else Introductions(runs, n - 1, key) + if Introduces(runs, n - 1, key) then 1 else 0
  }

  lemma {:induction false} EffectsAreIntroductions(runs: seq<SinkRun>, n: nat, key: string)
    requires n <= |runs|
    ensures EffectsUnder(RunAll(EMPTY, runs[..n]).effects, key) == Introductions(runs, n, key)
  {
    if n > 0 {
      var front, last := runs[..n - 1], runs[n - 1];
      assert runs[..n][..n - 1] == front;
      EffectsAreIntroductions(runs, n - 1, key);
      SinkAppliesExactlyOnce(front, last.operationId);
      var before, after := RunAll(EMPTY, front).effects, RunAll(EMPTY, runs[..n]).effects;
      HasMeansCounted(before, last.operationId);
      if last.toolClass != ReadOnly && !Has(before, last.operationId) {
        assert after == before + [Effect(last.operationId, last.key, last.turn)];
        assert after[..|after| - 1] == before;
      }
    }
  }

  /** Two operations are first written under `key`. */
  ghost predicate IntroducedTwice(runs: seq<SinkRun>, n: nat, key: string)
    requires n <= |runs|
  {
    exists i, j :: 0 <= i < j < n && Introduces(runs, i, key) && Introduces(runs, j, key)
  }

  lemma {:induction false} CountingIntroductions(runs: seq<SinkRun>, n: nat, key: string)
    requires n <= |runs|
    ensures Introductions(runs, n, key) > 0 <==> exists i :: 0 <= i < n && Introduces(runs, i, key)
    ensures Introductions(runs, n, key) > 1 <==> IntroducedTwice(runs, n, key)
  {
    hide Introduces;
    if n > 0 {
      CountingIntroductions(runs, n - 1, key);
      if IntroducedTwice(runs, n, key) {
        var i, j :| 0 <= i < j < n && Introduces(runs, i, key) && Introduces(runs, j, key);
        assert j < n - 1 ==> IntroducedTwice(runs, n - 1, key);
      }
    }
  }

  /** Over any runs a key has at most one effect if and only if no two operations are first written under it. */
  lemma KeyHasOneEffectExactly(runs: seq<SinkRun>, key: string)
    ensures EffectsUnder(RunAll(EMPTY, runs).effects, key) <= 1 <==> !IntroducedTwice(runs, |runs|, key)
  {
    assert runs[..|runs|] == runs;
    EffectsAreIntroductions(runs, |runs|, key);
    CountingIntroductions(runs, |runs|, key);
  }

  predicate WritesUnder(r: SinkRun, key: string) {
    r.toolClass != ReadOnly && r.key == key
  }

  /** Every operation is always called under the same key. */
  ghost predicate KeysAreFaithful(runs: seq<SinkRun>) {
    forall i, j :: 0 <= i < j < |runs| && runs[i].operationId == runs[j].operationId ==> runs[i].key == runs[j].key
  }

  /** Two runs that may write under the key name different operations. */
  ghost predicate TwoOperations(runs: seq<SinkRun>, key: string) {
    exists i, j :: 0 <= i < j < |runs| && TwoWriters(runs, i, j, key)
  }

  ghost predicate TwoWriters(runs: seq<SinkRun>, i: nat, j: nat, key: string)
    requires i < |runs| && j < |runs|
  {
    WritesUnder(runs[i], key) && WritesUnder(runs[j], key) && runs[i].operationId != runs[j].operationId
  }

  /** While operations keep their keys, that is: all runs that may write under the key name one operation. */
  lemma KeysOfFaithfulOperations(runs: seq<SinkRun>, key: string)
    requires KeysAreFaithful(runs)
    ensures EffectsUnder(RunAll(EMPTY, runs).effects, key) <= 1 <==> !TwoOperations(runs, key)
  {
    KeyHasOneEffectExactly(runs, key);
    hide Introduces, TwoWriters, EffectsUnder, RunAll, KeysAreFaithful;
    if i, j :| 0 <= i < j < |runs| && Introduces(runs, i, key) && Introduces(runs, j, key) {
      IntroducersDiffer(runs, i, j, key);
    }
    if i, j :| 0 <= i < j < |runs| && TwoWriters(runs, i, j, key) {
      var a, b := WritersIntroduce(runs, i, j, key);
      assert a < b || b < a;
    }
  }

  lemma IntroducersDiffer(runs: seq<SinkRun>, i: nat, j: nat, key: string)
    requires i < j < |runs| && Introduces(runs, i, key) && Introduces(runs, j, key)
    ensures TwoWriters(runs, i, j, key)
  {
    assert runs[..j][i] == runs[i];
  }

  lemma WritersIntroduce(runs: seq<SinkRun>, i: nat, j: nat, key: string) returns (a: nat, b: nat)
    requires KeysAreFaithful(runs) && i < j < |runs| && TwoWriters(runs, i, j, key)
    ensures a != b && a < |runs| && b < |runs| && Introduces(runs, a, key) && Introduces(runs, b, key)
  {
    hide Writes;
    a := FirstWriter(runs, i);
    b := FirstWriter(runs, j);
  }

  lemma {:induction false} FirstWriter(runs: seq<SinkRun>, i: nat) returns (k: nat)
    requires i < |runs| && runs[i].toolClass != ReadOnly
    ensures k <= i && runs[k].operationId == runs[i].operationId && runs[k].toolClass != ReadOnly
    ensures !Writes(runs[..k], runs[k].operationId)
  {
    k := i;
    if Writes(runs[..i], runs[i].operationId) {
      var h :| 0 <= h < i && runs[..i][h].operationId == runs[i].operationId && runs[..i][h].toolClass != ReadOnly;
      k := FirstWriter(runs, h);
    }
  }

  /** The sink looks its operation up, not its key: two operations under one key leave two effects. */
  lemma TwoEffectsUnderOneKey(key: string)
    ensures var runs := [SinkRun("a", key, Idempotent, 0, false), SinkRun("b", key, Idempotent, 0, false)];
      EffectsUnder(RunAll(EMPTY, runs).effects, key) == 2
  {
    var runs := [SinkRun("a", key, Idempotent, 0, false), SinkRun("b", key, Idempotent, 0, false)];
    assert Introduces(runs, 0, key);
    assert runs[..1] == [runs[0]];
    assert Introduces(runs, 1, key);
    assert runs[..2] == runs;
    EffectsAreIntroductions(runs, 2, key);
    assert Introductions(runs, 0, key) == 0;
    assert Introductions(runs, 1, key) == 1;
  }

  function AppliedOf(results: seq<ToolResult>, operationId: string): nat {
    if results == [] then 0 else
    var last := results[|results| - 1];
    AppliedOf(results[..|results| - 1], operationId)
      + if last.operationId == operationId && last.action.AppliedNow? then 1 else 0
  }

  /** When no run is killed, every run leaves one result and "applied" is claimed once per effect. */
  lemma {:induction false} ResultsMatchEffects(runs: seq<SinkRun>, operationId: string)
    requires forall i :: 0 <= i < |runs| ==> !runs[i].dies
    ensures |RunAll(EMPTY, runs).toolResults| == |runs|
    ensures AppliedOf(RunAll(EMPTY, runs).toolResults, operationId) ==
      EffectsOf(RunAll(EMPTY, runs).effects, operationId)
  {
    if runs != [] {
      var front, last := runs[..|runs| - 1], runs[|runs| - 1];
      ResultsMatchEffects(front, operationId);
      OneRunCounts(RunAll(EMPTY, front), last, operationId);
    }
  }

  lemma OneRunCounts(f: Files, run: SinkRun, operationId: string)
    requires !run.dies
    ensures |RunSink(f, run).toolResults| == |f.toolResults| + 1
    ensures AppliedOf(RunSink(f, run).toolResults, operationId) - AppliedOf(f.toolResults, operationId)
         == EffectsOf(RunSink(f, run).effects, operationId) - EffectsOf(f.effects, operationId)
  {
    var after := RunSink(f, run);
    assert after.toolResults[..|f.toolResults|] == f.toolResults;
    assert |after.effects| > |f.effects| ==> after.effects[..|f.effects|] == f.effects;
  }

  /** The hypothetical sink without the lookup: every run that may write appends an effect. */
  function RunBlind(f: Files, run: SinkRun): (r: Files)
    ensures f.effects <= r.effects && f.toolResults <= r.toolResults
  {
    var writes := run.toolClass != ReadOnly;
    var effects := if writes then f.effects + [Effect(run.operationId, run.key, run.turn)] else f.effects;
    if run.dies then Files(effects, f.toolResults)
    else Files(effects,
      f.toolResults + [ToolResult(run.operationId, if writes then AppliedNow else NoAction, if writes then 1 else 0)])
  }
}
