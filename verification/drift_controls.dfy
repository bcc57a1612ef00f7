/**
 The control cycles of the continuous evaluation, for any summary instead of the synthetic
 one: a mutated identity, a failed or open scenario, and the rollback after it.
 */
module DriftControls {
  import opened Basics
  import opened JsonValues
  import opened RegressionGate
  import IdentityDiff
  import UpgradeRatchet

  /** The run whose evaluation identity was mutated at `path`. */
  function Mutated(s: Summary, path: seq<string>, v: Json): Summary
    requires s.evaluation.Some? && IdentityDiff.SetPath(Obj(s.evaluation.value), path, v).Some?
  {
    IdentityDiff.SetPathIsSeenExactly(Obj(s.evaluation.value), path, v);
    s.(evaluation := Some(IdentityDiff.SetPath(Obj(s.evaluation.value), path, v).value.m))
  }

  lemma MutationKeepsKeys(t: Json, path: seq<string>, v: Json)
    requires t.Obj? && path != [] && IdentityDiff.Lookup(t, path).Some?
    requires IdentityDiff.SetPath(t, path, v).Some?
    ensures IdentityDiff.SetPath(t, path, v).value.Obj?
    ensures IdentityDiff.SetPath(t, path, v).value.m.Keys == t.m.Keys
  {
    assert path[0] in t.m.Keys;
  }

  /**
   Replacing one leaf of the evaluation identity changes no verdict and triggers drift for
   exactly that one path, whatever is compared with whatever.
   */
  lemma LeafDriftIsOneReason(b: Summary, path: seq<string>, v: Json)
    requires b.evaluation.Some? && path != []
    requires var leaf := IdentityDiff.Lookup(Obj(b.evaluation.value), path);
      leaf.Some? && !leaf.value.Obj? && !v.Obj? && leaf.value != v
    ensures IdentityDiff.SetPath(Obj(b.evaluation.value), path, v).Some?
    ensures StatusOfGate(b, Mutated(b, path, v)) == StatusOfGate(b, b)
    ensures forall x :: IdentityChanged(b, Mutated(b, path, v), x) <==>
      x == EvaluationChanged(IdentityDiff.Diff(path, IdentityDiff.Changed))
  {
    var t := Obj(b.evaluation.value);
    IdentityDiff.LeafMutationIsOneDifference(t, path, v);
    MutationKeepsKeys(t, path, v);
    var n := Mutated(b, path, v);
    assert n == b.(evaluation := n.evaluation);
    hide Mutated, StatusOfGate, IdentityChanged, IdentityDiff.SetPath, IdentityDiff.Diffs;
    SameStatus(b, n);
    OneChange(b, n, IdentityDiff.Diff(path, IdentityDiff.Changed));
  }

  lemma OneChange(b: Summary, n: Summary, d: IdentityDiff.Diff)
    requires b.evaluation.Some? && n.evaluation.Some? && n == b.(evaluation := n.evaluation)
    requires IdentityDiff.Diffs(Obj(b.evaluation.value), Obj(n.evaluation.value)) == [d]
    ensures forall x :: IdentityChanged(b, n, x) <==> x == EvaluationChanged(d)
  {
    hide IdentityDiff.Diffs;
  }

  lemma SameStatus(b: Summary, n: Summary)
    requires b.evaluation.Some? && n.evaluation.Some? && n == b.(evaluation := n.evaluation)
    requires b.evaluation.value.Keys == n.evaluation.value.Keys
    ensures StatusOfGate(b, n) == StatusOfGate(b, b)
  {
    hide HardFailure, StillOpen;
    SameVerdicts(b, n, FrozenFixtureMismatch);
    forall f ensures HardFailure(b, n, f) <==> HardFailure(b, b, f) {
      SameVerdicts(b, n, f);
    }
  }

  /** Two runs that differ in the values of their evaluation identity only draw the same objections. */
  lemma SameVerdicts(b: Summary, n: Summary, f: Failure)
    requires b.evaluation.Some? && n.evaluation.Some? && n == b.(evaluation := n.evaluation)
    requires b.evaluation.value.Keys == n.evaluation.value.Keys
    ensures HardFailure(b, n, f) <==> HardFailure(b, b, f)
    ensures forall u :: StillOpen(n, u) <==> StillOpen(b, u)
  {
    forall side ensures SummaryObjection(n, side, f) == SummaryObjection(b, side, f) {
      assert forall k :: k !in n.evaluation.value <==> k !in b.evaluation.value;
    }
    forall c
      ensures CandidateObjection(n, c, f) == CandidateObjection(b, c, f)
      ensures Regression(b, n, c, f) == Regression(b, b, c, f)
    {
    }
    forall u, c ensures OpenQuestion(n, c, u) == OpenQuestion(b, c, u) {
    }
  }

  // ----- The control summaries -----

  function Maybe(s: Option<string>): Json {
    if s.Some? then Str(s.value) else Null
  }

  function FixtureJson(f: Fixture): Json {
    Obj(map[
      "version" := Maybe(f.version), "fixture_id" := Maybe(f.fixtureId),
      "manifest_sha256" := Maybe(f.manifestSha), "source_sha256" := Maybe(f.sourceSha)])
  }

  /** `control_summary`: whatever the identity says about the fixture, the summary's own fixture overwrites it. */
  function ControlSummary(frame: Summary, identity: map<string, Json>, fixture: Fixture): Summary {
    frame.(fixture := fixture, evaluation := Some(identity["fixture" := FixtureJson(fixture)]))
  }

  const FIXTURE_SOURCE := ["fixture", "source_sha256"]

  /** One mutation cycle: the identity is mutated, and for the fixture source the fixture along with it. */
  function CycleFixture(fixture: Fixture, path: seq<string>, v: string): Fixture {
    if path == FIXTURE_SOURCE then fixture.(sourceSha := Some(v)) else fixture
  }

  ghost predicate LeafToMutate(identity: map<string, Json>, path: seq<string>, v: string) {
    var leaf := IdentityDiff.Lookup(Obj(identity), path);
    path != [] && leaf.Some? && !leaf.value.Obj? && leaf.value != Str(v)
  }

  function CycleSummary(
    frame: Summary, identity: map<string, Json>, fixture: Fixture, path: seq<string>, v: string): Summary
    requires LeafToMutate(identity, path, v)
  {
    IdentityDiff.LeafMutationIsOneDifference(Obj(identity), path, Str(v));
    MutationKeepsKeys(Obj(identity), path, Str(v));
    ControlSummary(frame, IdentityDiff.SetPath(Obj(identity), path, Str(v)).value.m, CycleFixture(fixture, path, v))
  }

  lemma MutatesOneKey(identity: map<string, Json>, path: seq<string>, v: Json)
    requires path != [] && IdentityDiff.SetPath(Obj(identity), path, v).Some?
    ensures IdentityDiff.SetPath(Obj(identity), path, v).value.Obj?
    ensures var after := IdentityDiff.SetPath(Obj(identity), path, v).value.m;
      after == identity[path[0] := if path[0] in after then after[path[0]] else Null] && path[0] in after
  {
  }

  lemma FixtureSourceInJson(fixture: Fixture, v: string)
    ensures IdentityDiff.SetPath(FixtureJson(fixture), FIXTURE_SOURCE[1..], Str(v))
      == Some(FixtureJson(fixture.(sourceSha := Some(v))))
  {
    assert FIXTURE_SOURCE[1..] == ["source_sha256"];
    assert FixtureJson(fixture.(sourceSha := Some(v))).m == FixtureJson(fixture).m["source_sha256" := Str(v)];
  }

  /** Outside the fixture the cycle is the plain mutation; inside, only the source change survives. */
  lemma CycleIsMutation(frame: Summary, identity: map<string, Json>, fixture: Fixture, path: seq<string>, v: string)
    requires LeafToMutate(identity, path, v)
    requires "fixture" in identity && identity["fixture"] == FixtureJson(fixture)
    ensures var base := ControlSummary(frame, identity, fixture);
      var cycle := CycleSummary(frame, identity, fixture, path, v);
      && base.evaluation == Some(identity) && IdentityDiff.SetPath(Obj(identity), path, Str(v)).Some?
      && (path[0] != "fixture" ==> cycle == Mutated(base, path, Str(v)))
      && (path == FIXTURE_SOURCE ==>
            cycle == Mutated(base, path, Str(v)).(fixture := fixture.(sourceSha := Some(v))))
      && (path[0] == "fixture" && path != FIXTURE_SOURCE ==> cycle == base)
  {
    IdentityDiff.LeafMutationIsOneDifference(Obj(identity), path, Str(v));
    MutatesOneKey(identity, path, Str(v));
    var after := IdentityDiff.SetPath(Obj(identity), path, Str(v)).value.m;
    OverwriteFixture(identity, after, path[0], FixtureJson(fixture));
    if path == FIXTURE_SOURCE {
      FixtureSourceInJson(fixture, v);
      assert after["fixture"] == FixtureJson(fixture.(sourceSha := Some(v)));
      OverwriteFixture(identity, after, path[0], after["fixture"]);
    }
    hide FixtureJson, IdentityDiff.SetPath, IdentityDiff.Lookup, IdentityDiff.Diffs;
  }

  lemma OverwriteFixture(identity: map<string, Json>, after: map<string, Json>, key: string, fixture: Json)
    requires "fixture" in identity && key in after && after == identity[key := after[key]]
    ensures identity["fixture" := identity["fixture"]] == identity
    ensures key == "fixture" ==> after["fixture" := fixture] == identity["fixture" := fixture]
    ensures key != "fixture" && fixture == identity["fixture"] ==> after["fixture" := fixture] == after
    ensures "fixture" in after && (fixture == after["fixture"] ==> after["fixture" := fixture] == after)
  {
  }

  /**
   The mutation cycles, for any frame that passes against itself: exactly the fixture-source
   mutation fails, with two drift reasons; any other mutation outside the fixture passes with
   its path as the one reason; and one inside the fixture is overwritten and leaves none.
   */
  lemma MutationCycles(frame: Summary, identity: map<string, Json>, fixture: Fixture, path: seq<string>, v: string)
    requires LeafToMutate(identity, path, v)
    requires "fixture" in identity && identity["fixture"] == FixtureJson(fixture)
    requires var base := ControlSummary(frame, identity, fixture); StatusOfGate(base, base) == Pass
    ensures var base := ControlSummary(frame, identity, fixture);
      var cycle := CycleSummary(frame, identity, fixture, path, v);
      var drift := EvaluationChanged(IdentityDiff.Diff(path, IdentityDiff.Changed));
      && StatusOfGate(base, cycle) == (if path == FIXTURE_SOURCE then Fail else Pass)
      && forall x :: IdentityChanged(base, cycle, x) <==>
           || (x == drift && (path[0] != "fixture" || path == FIXTURE_SOURCE))
           || (x == FixtureChanged && path == FIXTURE_SOURCE)
  {
    var base := ControlSummary(frame, identity, fixture);
    var cycle := CycleSummary(frame, identity, fixture, path, v);
    CycleIsMutation(frame, identity, fixture, path, v);
    if path == FIXTURE_SOURCE {
      FixtureLeaf(identity, fixture);
      UpgradeRatchet.FixtureChangeIsRefused(base, cycle);
      LeafDriftIsOneReason(base, path, Str(v));
      FixtureAddsOneReason(base, Mutated(base, path, Str(v)), cycle.fixture);
    } else if path[0] == "fixture" {
      NoChangeToItself(base);
    } else {
      LeafDriftIsOneReason(base, path, Str(v));
    }
  }

  lemma FixtureLeaf(identity: map<string, Json>, fixture: Fixture)
    requires "fixture" in identity && identity["fixture"] == FixtureJson(fixture)
    ensures IdentityDiff.Lookup(Obj(identity), FIXTURE_SOURCE) == Some(Maybe(fixture.sourceSha))
  {
    var rest := FIXTURE_SOURCE[1..];
    assert rest == ["source_sha256"] && rest[1..] == [];
    assert IdentityDiff.Lookup(FixtureJson(fixture), rest) == Some(Maybe(fixture.sourceSha));
  }

  lemma FixtureAddsOneReason(b: Summary, n: Summary, fixture: Fixture)
    requires n.fixture == b.fixture != fixture
    ensures forall x :: IdentityChanged(b, n.(fixture := fixture), x) <==>
      IdentityChanged(b, n, x) || x == FixtureChanged
  {
    hide IdentityDiff.Diffs;
  }

  lemma NoChangeToItself(b: Summary)
    ensures forall x :: !IdentityChanged(b, b, x)
  {
    if b.evaluation.Some? {
      IdentityDiff.NoDifferenceMeansEqual(Obj(b.evaluation.value), Obj(b.evaluation.value));
    }
    hide IdentityDiff.Diffs;
  }

  // ----- Scenario overrides -----

  function Override(s: Summary, c: string, k: string, status: string): Summary
    requires c in s.baseline
  {
    s.(baseline := s.baseline[c := s.baseline[c].(scenarios := s.baseline[c].scenarios[k := status])])
  }

  lemma OverriddenCandidate(s: Summary, c: string, k: string, status: string, x: string, f: Failure)
    requires c in s.baseline && k != "C1" && f != ScenarioFailed(c, k)
    ensures CandidateObjection(Override(s, c, k, status), x, f) == CandidateObjection(s, x, f)
  {
  }

  lemma OverriddenRegression(b: Summary, n: Summary, c: string, k: string, status: string, x: string, f: Failure)
    requires k != "C1"
    ensures c in n.baseline ==> Regression(b, Override(n, c, k, status), x, f) == Regression(b, n, x, f)
    ensures c in b.baseline ==> Regression(Override(b, c, k, status), n, x, f) == Regression(b, n, x, f)
  {
  }

  /** Overriding a scenario other than C1 in the current run changes at most the one objection about it. */
  lemma OverrideIsLocal(b: Summary, n: Summary, c: string, k: string, status: string, f: Failure)
    requires c in n.baseline && k != "C1" && f != ScenarioFailed(c, k)
    ensures HardFailure(b, Override(n, c, k, status), f) <==> HardFailure(b, n, f)
  {
    hide CandidateObjection, Regression;
    var m := Override(n, c, k, status);
    forall x
      ensures CandidateObjection(m, x, f) == CandidateObjection(n, x, f)
      ensures Regression(b, m, x, f) == Regression(b, n, x, f)
    {
      OverriddenCandidate(n, c, k, status, x, f);
      OverriddenRegression(b, n, c, k, status, x, f);
    }
  }

  /** A failed scenario always pauses. */
  lemma FailedScenarioPauses(b: Summary, n: Summary, c: string, k: string)
    requires c in CANDIDATES && c in n.baseline && k in SCENARIOS
    ensures StatusOfGate(b, Override(n, c, k, "fail")) == Fail
  {
    var m := Override(n, c, k, "fail");
    assert CandidateObjection(m, c, ScenarioFailed(c, k));
    assert HardFailure(b, m, ScenarioFailed(c, k));
  }

  /** An open scenario turns a passing gate into a pending one, never into a pass or a fail. */
  lemma OpenScenarioPends(b: Summary, n: Summary, c: string, k: string, status: string)
    requires StatusOfGate(b, n) == Pass
    requires c in CANDIDATES && c in n.baseline && k in SCENARIOS && k != "C1"
    requires status == "unknown" || status == "composition-required"
    ensures StatusOfGate(b, Override(n, c, k, status)) == Pending
  {
    var m := Override(n, c, k, status);
    forall f ensures !HardFailure(b, m, f) {
      if f == ScenarioFailed(c, k) {
        NoScenarioFailure(b, m, c, k);
      } else {
        OverrideIsLocal(b, n, c, k, status, f);
        assert !HardFailure(b, n, f);
      }
    }
    assert OpenQuestion(m, c, ScenarioOpen(c, k, status));
    assert StillOpen(m, ScenarioOpen(c, k, status));
  }

  lemma NoScenarioFailure(b: Summary, n: Summary, c: string, k: string)
    requires c in n.baseline && StatusOf(n.baseline[c], k) != "fail"
    ensures !HardFailure(b, n, ScenarioFailed(c, k))
  {
  }

  /** Rolling back: what the previous run's scenarios other than C1 said does not reach the next verdict. */
  lemma RollbackIsJudgedAlike(b: Summary, n: Summary, c: string, k: string, status: string)
    requires c in b.baseline && k != "C1"
    ensures StatusOfGate(Override(b, c, k, status), n) == StatusOfGate(b, n)
  {
    var d := Override(b, c, k, status);
    forall f ensures HardFailure(d, n, f) <==> HardFailure(b, n, f) {
      hide CandidateObjection, Regression;
      forall x ensures Regression(d, n, x, f) == Regression(b, n, x, f) {
        OverriddenRegression(b, n, c, k, status, x, f);
      }
      assert SummaryObjection(d, Previous, f) == SummaryObjection(b, Previous, f);
    }
  }
}
