/**
 The regression gate: identity checks, the inspection of the current run, the comparison with
 the previous run, and the ratchet that a chain of accepted upgrades forms.
 */
module RegressionGate {
  import opened Basics
  import opened JsonValues
  import IdentityDiff

  const CANDIDATES := ["DeepSeek Harness", "Pi Agent Harness", "Codex Harness", "OpenCode", "Goose"]
  const SCENARIOS := ["C1", "C2", "C3", "C4", "C5", "C6", "C7"]
  const PROVIDERS := ["fake-a", "fake-b"]
  const IDENTITY_KEYS := [
    "harness", "components", "provider", "prompt_sha256", "tool_schema_sha256", "permission_policy_sha256",
    "fixture", "evaluator_version", "sandbox", "replay_cassette_sha256", "dependencies_sha256", "config_sha256"]
  const FIXTURE_VERSION := "W6-0.1"

  /** `Option` fields are keys a summary may lack; the two flags are the truth values the source tests. */
  datatype Sample = Sample(
    status: Option<string>, returncode: Option<int>, outsideAllowed: bool, completeness: Option<real>, forbidden: bool)

  datatype Provider = Provider(
    status: Option<string>, sampleCount: Option<int>, passedCount: Option<int>,
    passRate: Option<real>, outOfScope: Option<int>, samples: seq<Sample>)

  datatype Candidate = Candidate(
    adapter: Json, sourceRef: Json, scenarios: map<string, string>, providers: map<string, Provider>)

  datatype Preflight = Preflight(version: string, adapter: Json, sourceRef: Json)

  datatype Fixture = Fixture(
    version: Option<string>, fixtureId: Option<string>, manifestSha: Option<string>, sourceSha: Option<string>)

  datatype Summary = Summary(
    fixture: Fixture,
    classification: Option<string>,
    selfTests: seq<(string, string)>,
    evaluation: Option<map<string, Json>>,
    preflight: map<string, Preflight>,
    baseline: map<string, Candidate>)

  // ----- Identities -----

  predicate Truthy(j: Json) {
    match j
    case Null => false
    case Num(n) => n != 0.0
    case Str(s) => s != ""
    case Arr(items) => items != []
    case Obj(m) => m != map[]
  }

  function Or(a: Json, b: Json): Json {
    if Truthy(a) then a else b
  }

  datatype CandidateIdentity = CandidateIdentity(version: string, adapter: Json, sourceRef: Json)

  function IdentityOf(s: Summary, name: string): CandidateIdentity {
    var pre := if name in s.preflight then s.preflight[name] else Preflight("", Null, Null);
    var (adapter, ref) :=
      if name in s.baseline then (s.baseline[name].adapter, s.baseline[name].sourceRef) else (Null, Null);
    CandidateIdentity(pre.version, Or(adapter, pre.adapter), Or(Or(ref, pre.sourceRef), Obj(map[])))
  }

  // ----- Everything the gate can object to -----

  datatype Side = Current | Previous

  datatype Problem =
    | NotPass | WrongSampleCount | FewPassed | PassRateNotFull | OutOfScopeSeen | WrongEvidenceCount
    | SampleNotPass(i: nat) | OracleFailed(i: nat) | SampleOutOfScope(i: nat)
    | Incomplete(i: nat) | ForbiddenCommand(i: nat)

  datatype Failure =
    | IdentityIncomplete(side: Side) | WrongVersion(side: Side) | WrongFixtureId(side: Side)
    | WrongClassification(side: Side) | SelfTestNotPass(side: Side)
    | ScenarioFailed(candidate: string, scenario: string)
    | NoProviderEvidence(candidate: string)
    | ProviderAbsent(candidate: string, provider: string)
    | ProviderFault(candidate: string, provider: string, problem: Problem)
    | EvidenceWithoutPass(candidate: string)
    | FrozenFixtureMismatch
    | LostEvaluationIdentity
    | Regressed(candidate: string)
    | EvidenceDisappeared(candidate: string, provider: string)
    | PassedCountFell(candidate: string, provider: string)
    | PassRateFell(candidate: string, provider: string)
    | OutOfScopeRose(candidate: string, provider: string)

  datatype Open =
    | CandidateAbsent(candidate: string)
    | ScenarioOpen(candidate: string, scenario: string, status: string)

  datatype IdentityChange =
    | FixtureChanged
    | EvaluationRemoved
    | EvaluationAdded
    | EvaluationChanged(diff: IdentityDiff.Diff)
    | CandidateChanged(candidate: string)

  // ----- When each objection applies -----

  /** The dictionary built from the list: the last entry of a scenario counts. */
  function SelfTest(tests: seq<(string, string)>, scenario: string): Option<string> {
    if tests == [] then None
    else if tests[|tests| - 1].0 == scenario then Some(tests[|tests| - 1].1)
    else SelfTest(tests[..|tests| - 1], scenario)
  }

  predicate SummaryObjection(s: Summary, side: Side, f: Failure) {
    match f
    case IdentityIncomplete(x) =>
      x == side && s.evaluation.Some? && exists k :: k in IDENTITY_KEYS && k !in s.evaluation.value
    case WrongVersion(x) => x == side && s.fixture.version != Some(FIXTURE_VERSION)
    case WrongFixtureId(x) => x == side && s.fixture.fixtureId != Some("w6-0.1")
    case WrongClassification(x) => x == side && s.classification != Some("acceptance/evaluation")
    case SelfTestNotPass(x) => x == side && exists k :: k in SCENARIOS && SelfTest(s.selfTests, k) != Some("pass")
    case _ => false
  }

  predicate ProviderObjection(r: Provider, p: Problem) {
    match p
    case NotPass => r.status != Some("pass")
    case WrongSampleCount => r.sampleCount != Some(5)
    case FewPassed => Count(r.passedCount) < 4
    case PassRateNotFull => r.passRate != Some(1.0)
    case OutOfScopeSeen => r.outOfScope != Some(0)
    case WrongEvidenceCount => |r.samples| != 5
    case SampleNotPass(i) => i < |r.samples| && r.samples[i].status != Some("pass")
    case OracleFailed(i) => i < |r.samples| && r.samples[i].returncode != Some(0)
    case SampleOutOfScope(i) => i < |r.samples| && r.samples[i].outsideAllowed
    case Incomplete(i) => i < |r.samples| && r.samples[i].completeness != Some(1.0)
    case ForbiddenCommand(i) => i < |r.samples| && r.samples[i].forbidden
  }

  function Count(n: Option<int>): int {
    if n.Some? then n.value else 0
  }

  function Rate(n: Option<real>): real {
    if n.Some? then n.value else 0.0
  }

  function StatusOf(d: Candidate, scenario: string): string {
    if scenario in d.scenarios then d.scenarios[scenario] else "unknown"
  }

  predicate CandidateObjection(s: Summary, c: string, f: Failure) {
    c in s.baseline &&
    var d := s.baseline[c];
    var passes := StatusOf(d, "C1") == "pass";
    match f
    case ScenarioFailed(x, scenario) => x == c && scenario in SCENARIOS && StatusOf(d, scenario) == "fail"
    case NoProviderEvidence(x) => x == c && passes && d.providers == map[]
    case ProviderAbsent(x, p) => x == c && passes && p in PROVIDERS && p !in d.providers
    case ProviderFault(x, p, problem) =>
      x == c && passes && p in PROVIDERS && p in d.providers && ProviderObjection(d.providers[p], problem)
    case EvidenceWithoutPass(x) => x == c && !passes && d.providers != map[]
    case _ => false
  }

  predicate OpenQuestion(s: Summary, c: string, u: Open) {
    match u
    case CandidateAbsent(x) => x == c && c !in s.baseline
    case ScenarioOpen(x, scenario, status) =>
      && x == c && c in s.baseline && scenario in SCENARIOS
      && status == StatusOf(s.baseline[c], scenario)
      && (status == "unknown" || status == "composition-required")
  }

  predicate C1Passes(s: Summary, c: string) {
    c in s.baseline && "C1" in s.baseline[c].scenarios && s.baseline[c].scenarios["C1"] == "pass"
  }

  function ProviderOf(s: Summary, c: string, p: string): Option<Provider> {
    if c in s.baseline && p in s.baseline[c].providers then Some(s.baseline[c].providers[p]) else None
  }

  const NO_PROVIDER := Provider(None, None, None, None, None, [])

  function OldProvider(s: Summary, c: string, p: string): Provider {
    if ProviderOf(s, c, p).Some? then ProviderOf(s, c, p).value else NO_PROVIDER
  }

  predicate Regression(b: Summary, n: Summary, c: string, f: Failure) {
    C1Passes(b, c) &&
    match f
    case Regressed(x) => x == c && !C1Passes(n, c)
    case EvidenceDisappeared(x, p) => x == c && C1Passes(n, c) && p in PROVIDERS && ProviderOf(n, c, p).None?
    case PassedCountFell(x, p) => x == c && Compared(n, c, p)
      && Count(ProviderOf(n, c, p).value.passedCount) < Count(OldProvider(b, c, p).passedCount)
    case PassRateFell(x, p) => x == c && Compared(n, c, p)
      && Rate(ProviderOf(n, c, p).value.passRate) < Rate(OldProvider(b, c, p).passRate)
    case OutOfScopeRose(x, p) => x == c && Compared(n, c, p)
      && Count(ProviderOf(n, c, p).value.outOfScope) > Count(OldProvider(b, c, p).outOfScope)
    case _ => false
  }

  predicate Compared(n: Summary, c: string, p: string) {
    C1Passes(n, c) && p in PROVIDERS && ProviderOf(n, c, p).Some?
  }

  predicate IdentityRegression(b: Summary, n: Summary, f: Failure) {
    match f
    case FrozenFixtureMismatch => b.fixture != n.fixture && n.fixture.version == Some(FIXTURE_VERSION)
    case LostEvaluationIdentity => b.evaluation.Some? && n.evaluation.None?
    case _ => false
  }

  ghost predicate HardFailure(b: Summary, n: Summary, f: Failure) {
    || SummaryObjection(n, Current, f)
    || SummaryObjection(b, Previous, f)
    || (exists c :: c in CANDIDATES && CandidateObjection(n, c, f))
    || IdentityRegression(b, n, f)
    || (exists c :: c in CANDIDATES && Regression(b, n, c, f))
  }

  ghost predicate StillOpen(n: Summary, u: Open) {
    exists c :: c in CANDIDATES && OpenQuestion(n, c, u)
  }

  ghost predicate IdentityChanged(b: Summary, n: Summary, change: IdentityChange) {
    match change
    case FixtureChanged => b.fixture != n.fixture
    case EvaluationRemoved => b.evaluation.Some? && n.evaluation.None?
    case EvaluationAdded => b.evaluation.None? && n.evaluation.Some?
    case EvaluationChanged(d) => b.evaluation.Some? && n.evaluation.Some?
      && d in IdentityDiff.Diffs(Obj(b.evaluation.value), Obj(n.evaluation.value))
    case CandidateChanged(c) => c in CANDIDATES && IdentityOf(b, c) != IdentityOf(n, c)
  }

  datatype GateStatus = Pass | Pending | Fail

  ghost function StatusOfGate(b: Summary, n: Summary): GateStatus {
    if exists f :: HardFailure(b, n, f) then Fail
    else if exists u :: StillOpen(n, u) then Pending
    else Pass
  }

  // ----- The gate -----

  method CheckSummaryIdentity(s: Summary, side: Side) returns (failures: seq<Failure>)
    ensures forall f :: f in failures <==> SummaryObjection(s, side, f)
  {
    failures := [];
    if s.evaluation.Some? && exists k :: k in IDENTITY_KEYS && k !in s.evaluation.value {
      failures := failures + [IdentityIncomplete(side)];
    }
    if s.fixture.version != Some(FIXTURE_VERSION) {
      failures := failures + [WrongVersion(side)];
    }
    if s.fixture.fixtureId != Some("w6-0.1") {
      failures := failures + [WrongFixtureId(side)];
    }
    if s.classification != Some("acceptance/evaluation") {
      failures := failures + [WrongClassification(side)];
    }
    if exists k :: k in SCENARIOS && SelfTest(s.selfTests, k) != Some("pass") {
      failures := failures + [SelfTestNotPass(side)];
    }
  }

  method CheckProviderC1(r: Provider) returns (problems: seq<Problem>)
    ensures forall p :: p in problems <==> ProviderObjection(r, p)
  {
    problems := CheckProviderTotals(r);
    for i := 0 to |r.samples|
      invariant forall p :: p in problems <==>
        ProviderObjection(r, p) && (SampleIndex(p).Some? ==> SampleIndex(p).value < i)
    {
      var found := CheckSample(r, i);
      problems := problems + found;
    }
  }

  function SampleIndex(p: Problem): Option<nat> {
    match p
    case SampleNotPass(i) => Some(i)
    case OracleFailed(i) => Some(i)
    case SampleOutOfScope(i) => Some(i)
    case Incomplete(i) => Some(i)
    case ForbiddenCommand(i) => Some(i)
    case _ => None
  }

  method CheckProviderTotals(r: Provider) returns (problems: seq<Problem>)
    ensures forall p :: p in problems <==> ProviderObjection(r, p) && SampleIndex(p).None?
  {
    problems := [];
    if r.status != Some("pass") { problems := problems + [NotPass]; }
    if r.sampleCount != Some(5) { problems := problems + [WrongSampleCount]; }
    if Count(r.passedCount) < 4 { problems := problems + [FewPassed]; }
    if r.passRate != Some(1.0) { problems := problems + [PassRateNotFull]; }
    if r.outOfScope != Some(0) { problems := problems + [OutOfScopeSeen]; }
    if |r.samples| != 5 { problems := problems + [WrongEvidenceCount]; }
  }

  method CheckSample(r: Provider, i: nat) returns (problems: seq<Problem>)
    requires i < |r.samples|
    ensures forall p :: p in problems <==> ProviderObjection(r, p) && SampleIndex(p) == Some(i)
  {
    problems := [];
    var sample := r.samples[i];
    if sample.status != Some("pass") { problems := problems + [SampleNotPass(i)]; }
    if sample.returncode != Some(0) { problems := problems + [OracleFailed(i)]; }
    if sample.outsideAllowed { problems := problems + [SampleOutOfScope(i)]; }
    if sample.completeness != Some(1.0) { problems := problems + [Incomplete(i)]; }
    if sample.forbidden { problems := problems + [ForbiddenCommand(i)]; }
  }

  /** The scenario loop of `inspect_current`. */
  method InspectScenarios(s: Summary, c: string) returns (failures: seq<Failure>, questions: seq<Open>)
    requires c in s.baseline
    ensures forall f :: f in failures <==> f.ScenarioFailed? && CandidateObjection(s, c, f)
    ensures forall u :: u in questions <==> OpenQuestion(s, c, u)
  {
    failures, questions := [], [];
    var d := s.baseline[c];
    for i := 0 to |SCENARIOS|
      invariant forall f :: f in failures <==>
        f.ScenarioFailed? && CandidateObjection(s, c, f) && f.scenario in SCENARIOS[..i]
      invariant forall u :: u in questions <==> OpenQuestion(s, c, u) && u.scenario in SCENARIOS[..i]
    {
      var scenario := SCENARIOS[i];
      assert SCENARIOS[..i + 1] == SCENARIOS[..i] + [scenario];
      var status := StatusOf(d, scenario);
      if status == "unknown" || status == "composition-required" {
        questions := questions + [ScenarioOpen(c, scenario, status)];
      } else if status == "fail" {
        failures := failures + [ScenarioFailed(c, scenario)];
      }
    }
    assert SCENARIOS[..|SCENARIOS|] == SCENARIOS;
  }

  predicate EvidenceFailure(f: Failure) {
    f.ProviderAbsent? || f.ProviderFault?
  }

  /** The provider loop of `inspect_current` for a candidate whose C1 passes. */
  method InspectProviders(s: Summary, c: string) returns (failures: seq<Failure>)
    requires c in s.baseline && StatusOf(s.baseline[c], "C1") == "pass"
    ensures forall f :: f in failures <==> EvidenceFailure(f) && CandidateObjection(s, c, f)
  {
    failures := [];
    var d := s.baseline[c];
    for i := 0 to |PROVIDERS|
      invariant forall f :: f in failures <==>
        EvidenceFailure(f) && CandidateObjection(s, c, f) && f.provider in PROVIDERS[..i]
    {
      var p := PROVIDERS[i];
      assert PROVIDERS[..i + 1] == PROVIDERS[..i] + [p];
      if p !in d.providers {
        failures := failures + [ProviderAbsent(c, p)];
      } else {
        var problems := CheckProviderC1(d.providers[p]);
        var named := seq(|problems|, k requires 0 <= k < |problems| => ProviderFault(c, p, problems[k]));
        forall f ensures f in named <==>
          f.ProviderFault? && f.candidate == c && f.provider == p && f.problem in problems {
          if f.ProviderFault? && f.candidate == c && f.provider == p && f.problem in problems {
            var k :| 0 <= k < |problems| && problems[k] == f.problem;
            assert named[k] == f;
          }
        }
        failures := failures + named;
      }
    }
    assert PROVIDERS[..|PROVIDERS|] == PROVIDERS;
  }

  method InspectCandidate(s: Summary, c: string) returns (failures: seq<Failure>, questions: seq<Open>)
    ensures forall f :: f in failures <==> CandidateObjection(s, c, f)
    ensures forall u :: u in questions <==> OpenQuestion(s, c, u)
  {
    if c !in s.baseline {
      return [], [CandidateAbsent(c)];
    }
    var d := s.baseline[c];
    failures, questions := InspectScenarios(s, c);
    if StatusOf(d, "C1") == "pass" {
      if d.providers == map[] {
        failures := failures + [NoProviderEvidence(c)];
      }
      var more := InspectProviders(s, c);
      failures := failures + more;
    } else if d.providers != map[] {
      failures := failures + [EvidenceWithoutPass(c)];
    }
  }

  /** `inspect_current`. */
  method InspectCurrent(s: Summary) returns (failures: seq<Failure>, questions: seq<Open>)
    ensures forall f :: f in failures <==> exists c :: c in CANDIDATES && CandidateObjection(s, c, f)
    ensures forall u :: u in questions <==> StillOpen(s, u)
  {
    hide CandidateObjection, OpenQuestion;
    failures, questions := [], [];
    for i := 0 to |CANDIDATES|
      invariant forall f :: f in failures <==> exists c :: c in CANDIDATES[..i] && CandidateObjection(s, c, f)
      invariant forall u :: u in questions <==> exists c :: c in CANDIDATES[..i] && OpenQuestion(s, c, u)
    {
      assert CANDIDATES[..i + 1] == CANDIDATES[..i] + [CANDIDATES[i]];
      var f, q := InspectCandidate(s, CANDIDATES[i]);
      failures, questions := failures + f, questions + q;
    }
    assert CANDIDATES[..|CANDIDATES|] == CANDIDATES;
  }

  /** The provider a regression is about; a lost C1 is about none. */
  predicate About(f: Failure, p: string) {
    match f
    case EvidenceDisappeared(_, q) => q == p
    case PassedCountFell(_, q) => q == p
    case PassRateFell(_, q) => q == p
    case OutOfScopeRose(_, q) => q == p
    case _ => false
  }

  method CompareProvider(b: Summary, n: Summary, c: string, p: string) returns (failures: seq<Failure>)
    requires C1Passes(b, c) && C1Passes(n, c) && p in PROVIDERS
    ensures forall f :: f in failures <==> Regression(b, n, c, f) && About(f, p)
  {
    hide C1Passes;
    var before, after := OldProvider(b, c, p), ProviderOf(n, c, p);
    if after.None? {
      return [EvidenceDisappeared(c, p)];
    }
    failures := [];
    if Count(after.value.passedCount) < Count(before.passedCount) {
      failures := failures + [PassedCountFell(c, p)];
    }
    if Rate(after.value.passRate) < Rate(before.passRate) {
      failures := failures + [PassRateFell(c, p)];
    }
    if Count(after.value.outOfScope) > Count(before.outOfScope) {
      failures := failures + [OutOfScopeRose(c, p)];
    }
  }

  /** The loop body of `compare_runs` for one candidate. */
  method CompareCandidate(b: Summary, n: Summary, c: string) returns (failures: seq<Failure>)
    ensures forall f :: f in failures <==> Regression(b, n, c, f)
  {
    if !C1Passes(b, c) {
      return [];
    }
    if !C1Passes(n, c) {
      return [Regressed(c)];
    }
    failures := [];
    for i := 0 to |PROVIDERS|
      invariant forall f :: f in failures <==> Regression(b, n, c, f) && exists q :: q in PROVIDERS[..i] && About(f, q)
    {
      assert PROVIDERS[..i + 1] == PROVIDERS[..i] + [PROVIDERS[i]];
      var more := CompareProvider(b, n, c, PROVIDERS[i]);
      failures := failures + more;
    }
    assert PROVIDERS[..|PROVIDERS|] == PROVIDERS;
    forall f | Regression(b, n, c, f) ensures exists q :: q in PROVIDERS && About(f, q) {
      assert About(f, f.provider) && f.provider in PROVIDERS;
    }
  }

  /** The part of `compare_runs` above the candidate loop. */
  method CompareIdentities(b: Summary, n: Summary) returns (failures: seq<Failure>, changes: seq<IdentityChange>)
    ensures forall f :: f in failures <==> IdentityRegression(b, n, f)
    ensures forall x :: x in changes <==> IdentityChanged(b, n, x) && !x.CandidateChanged?
  {
    failures, changes := [], [];
    if b.fixture != n.fixture {
      changes := [FixtureChanged];
      if n.fixture.version == Some(FIXTURE_VERSION) {
        failures := [FrozenFixtureMismatch];
      }
    }
    if b.evaluation.Some? && n.evaluation.None? {
      failures := failures + [LostEvaluationIdentity];
      changes := changes + [EvaluationRemoved];
    } else if b.evaluation.None? && n.evaluation.Some? {
      changes := changes + [EvaluationAdded];
    } else if b.evaluation.Some? && n.evaluation.Some? {
      var ds := IdentityDiff.Diffs(Obj(b.evaluation.value), Obj(n.evaluation.value));
      var named := seq(|ds|, k requires 0 <= k < |ds| => EvaluationChanged(ds[k]));
      forall x ensures x in named <==> x.EvaluationChanged? && x.diff in ds {
        if x.EvaluationChanged? && x.diff in ds {
          var k :| 0 <= k < |ds| && ds[k] == x.diff;
          assert named[k] == x;
        }
      }
      changes := changes + named;
    }
  }

  /** `compare_runs`. */
  method CompareRuns(b: Summary, n: Summary) returns (failures: seq<Failure>, changes: seq<IdentityChange>)
    ensures forall f :: f in failures <==>
      IdentityRegression(b, n, f) || exists c :: c in CANDIDATES && Regression(b, n, c, f)
    ensures forall x :: x in changes <==> IdentityChanged(b, n, x)
  {
    hide Regression, IdentityRegression;
    failures, changes := CompareIdentities(b, n);
    for i := 0 to |CANDIDATES|
      invariant forall f :: f in failures <==>
        IdentityRegression(b, n, f) || exists c :: c in CANDIDATES[..i] && Regression(b, n, c, f)
      invariant forall x :: x in changes <==>
        IdentityChanged(b, n, x) && (x.CandidateChanged? ==> x.candidate in CANDIDATES[..i])
    {
      var c := CANDIDATES[i];
      assert CANDIDATES[..i + 1] == CANDIDATES[..i] + [c];
      if IdentityOf(b, c) != IdentityOf(n, c) {
        changes := changes + [CandidateChanged(c)];
      }
      var more := CompareCandidate(b, n, c);
      failures := failures + more;
    }
    assert CANDIDATES[..|CANDIDATES|] == CANDIDATES;
  }

  datatype GateResult = GateResult(
    status: GateStatus, failures: seq<Failure>, questions: seq<Open>, changes: seq<IdentityChange>,
    driftTriggered: bool, allowUpgrade: bool)

  /** `make_gate_result`. */
  method MakeGateResult(b: Summary, n: Summary) returns (r: GateResult)
    ensures r.status == StatusOfGate(b, n) && (r.allowUpgrade <==> r.status.Pass?)
    ensures forall f :: f in r.failures <==> HardFailure(b, n, f)
    ensures forall u :: u in r.questions <==> StillOpen(n, u)
    ensures forall x :: x in r.changes <==> IdentityChanged(b, n, x)
    // Drift is exactly a difference of one of the three kinds of identity.
    ensures r.driftTriggered <==>
      (b.fixture != n.fixture || b.evaluation != n.evaluation
        || exists c :: c in CANDIDATES && IdentityOf(b, c) != IdentityOf(n, c))
  {
    hide SummaryObjection, CandidateObjection, IdentityRegression, Regression, OpenQuestion;
    var failures := CheckSummaryIdentity(n, Current);
    var previous := CheckSummaryIdentity(b, Previous);
    var current, questions := InspectCurrent(n);
    var regressions, changes := CompareRuns(b, n);
    failures := failures + previous + current + regressions;
    var status := if failures != [] then Fail else if questions != [] then Pending else Pass;
    StatusFromLists(b, n, failures, questions);
    DriftIsIdentityDifference(b, n, changes);
    r := GateResult(status, failures, questions, changes, changes != [], status.Pass?);
  }

  lemma StatusFromLists(b: Summary, n: Summary, failures: seq<Failure>, questions: seq<Open>)
    requires forall f :: f in failures <==> HardFailure(b, n, f)
    requires forall u :: u in questions <==> StillOpen(n, u)
    ensures StatusOfGate(b, n) == if failures != [] then Fail else if questions != [] then Pending else Pass
  {
    hide HardFailure, StillOpen;
    assert failures != [] ==> failures[0] in failures;
    assert questions != [] ==> questions[0] in questions;
  }

  lemma DriftIsIdentityDifference(b: Summary, n: Summary, changes: seq<IdentityChange>)
    requires forall x :: x in changes <==> IdentityChanged(b, n, x)
    ensures changes != [] <==>
      (b.fixture != n.fixture || b.evaluation != n.evaluation
        || exists c :: c in CANDIDATES && IdentityOf(b, c) != IdentityOf(n, c))
  {
    hide IdentityDiff.Diffs;
    assert changes != [] ==> changes[0] in changes;
    if b.evaluation.Some? && n.evaluation.Some? {
      var x, y := Obj(b.evaluation.value), Obj(n.evaluation.value);
      IdentityDiff.NoDifferenceMeansEqual(x, y);
      if x != y {
        assert EvaluationChanged(IdentityDiff.Diffs(x, y)[0]) in changes;
      }
    } else if b.evaluation != n.evaluation {
      assert (if b.evaluation.Some? then EvaluationRemoved else EvaluationAdded) in changes;
    }
    if b.fixture != n.fixture {
      assert FixtureChanged in changes;
    }
    if c :| c in CANDIDATES && IdentityOf(b, c) != IdentityOf(n, c) {
      assert CandidateChanged(c) in changes;
    }
  }
}
