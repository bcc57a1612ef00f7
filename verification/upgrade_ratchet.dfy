/** What a passing gate guarantees, and what a chain of passing gates adds up to. */
module UpgradeRatchet {
  import opened Basics
  import opened JsonValues
  import opened RegressionGate

  /** The four scenario statuses the gate knows how to read. */
  predicate Known(status: string) {
    status == "pass" || status == "fail" || status == "unknown" || status == "composition-required"
  }

  predicate StatusesKnown(s: Summary) {
    forall c, k :: c in CANDIDATES && c in s.baseline && k in SCENARIOS ==> Known(StatusOf(s.baseline[c], k))
  }

  predicate AllScenariosPass(s: Summary) {
    forall c :: c in CANDIDATES ==>
      c in s.baseline && forall k :: k in SCENARIOS ==> StatusOf(s.baseline[c], k) == "pass"
  }

  /** The evidence behind a passing C1. */
  predicate SoundEvidence(r: Provider) {
    && r.status == Some("pass")
    && r.sampleCount == Some(5)
    && Count(r.passedCount) >= 4
    && r.passRate == Some(1.0)
    && r.outOfScope == Some(0)
    && |r.samples| == 5
    && forall i :: 0 <= i < 5 ==>
         && r.samples[i].status == Some("pass")
         && r.samples[i].returncode == Some(0)
         && !r.samples[i].outsideAllowed
         && r.samples[i].completeness == Some(1.0)
         && !r.samples[i].forbidden
  }

  lemma NoObjectionMeansSound(r: Provider)
    requires forall p :: !ProviderObjection(r, p)
    ensures SoundEvidence(r)
  {
    assert !ProviderObjection(r, NotPass) && !ProviderObjection(r, WrongSampleCount)
      && !ProviderObjection(r, FewPassed);
    assert !ProviderObjection(r, PassRateNotFull) && !ProviderObjection(r, OutOfScopeSeen)
      && !ProviderObjection(r, WrongEvidenceCount);
    forall i | 0 <= i < 5
      ensures r.samples[i].status == Some("pass") && r.samples[i].returncode == Some(0) && !r.samples[i].outsideAllowed
      ensures r.samples[i].completeness == Some(1.0) && !r.samples[i].forbidden
    {
      assert !ProviderObjection(r, SampleNotPass(i)) && !ProviderObjection(r, OracleFailed(i))
        && !ProviderObjection(r, SampleOutOfScope(i));
      assert !ProviderObjection(r, Incomplete(i)) && !ProviderObjection(r, ForbiddenCommand(i));
    }
  }

  /** A changed fixture is refused under every version label. */
  lemma FixtureChangeIsRefused(b: Summary, n: Summary)
    requires b.fixture != n.fixture
    ensures StatusOfGate(b, n) == Fail
  {
    if n.fixture.version == Some(FIXTURE_VERSION) {
      assert HardFailure(b, n, FrozenFixtureMismatch);
    } else {
      assert HardFailure(b, n, WrongVersion(Current));
    }
  }

  /** Behind a passing gate none of the objections applies, whichever candidate it is about. */
  lemma NothingHeld(b: Summary, n: Summary, c: string, f: Failure)
    requires StatusOfGate(b, n) == Pass && c in CANDIDATES
    ensures !CandidateObjection(n, c, f) && !Regression(b, n, c, f) && !IdentityRegression(b, n, f)
  {
    assert !HardFailure(b, n, f);
  }

  lemma NothingOpen(b: Summary, n: Summary, c: string, u: Open)
    requires StatusOfGate(b, n) == Pass && c in CANDIDATES
    ensures !OpenQuestion(n, c, u)
  {
    assert !StillOpen(n, u);
  }

  /** A passing gate has evidence for every candidate and nothing left open. */
  lemma PassMeansPresentAndClosed(b: Summary, n: Summary, c: string)
    requires StatusOfGate(b, n) == Pass && c in CANDIDATES
    ensures c in n.baseline
    ensures forall k :: k in SCENARIOS ==> StatusOf(n.baseline[c], k) !in ["unknown", "composition-required", "fail"]
  {
    NothingOpen(b, n, c, CandidateAbsent(c));
    forall k | k in SCENARIOS ensures StatusOf(n.baseline[c], k) !in ["unknown", "composition-required", "fail"] {
      NothingHeld(b, n, c, ScenarioFailed(c, k));
      NothingOpen(b, n, c, ScenarioOpen(c, k, StatusOf(n.baseline[c], k)));
    }
  }

  /**
   A status outside the four known names raises neither a failure nor an open question, so a
   passing gate means that every scenario passes exactly when only known names occur.
   */
  lemma PassMeansAllScenariosPass(b: Summary, n: Summary)
    requires StatusOfGate(b, n) == Pass
    ensures AllScenariosPass(n) <==> StatusesKnown(n)
  {
    forall c | c in CANDIDATES ensures c in n.baseline {
      PassMeansPresentAndClosed(b, n, c);
    }
    if StatusesKnown(n) {
      forall c, k | c in CANDIDATES && k in SCENARIOS ensures StatusOf(n.baseline[c], k) == "pass" {
        PassMeansPresentAndClosed(b, n, c);
      }
    }
  }

  const GOOD_SAMPLE := Sample(Some("pass"), Some(0), false, Some(1.0), false)
  const GOOD_PROVIDER := Provider(
    Some("pass"), Some(5), Some(5), Some(1.0), Some(0),
    [GOOD_SAMPLE, GOOD_SAMPLE, GOOD_SAMPLE, GOOD_SAMPLE, GOOD_SAMPLE])

  /** A candidate that passes everywhere but in C2, whose status is `second`. */
  function GoodCandidate(second: string): Candidate {
    Candidate(Null, Null,
      map["C1" := "pass", "C2" := second, "C3" := "pass", "C4" := "pass", "C5" := "pass",
        "C6" := "pass", "C7" := "pass"],
      map["fake-a" := GOOD_PROVIDER, "fake-b" := GOOD_PROVIDER])
  }

  /** All five candidates alike. */
  function GoodSummary(second: string): Summary {
    Summary(
      Fixture(Some(FIXTURE_VERSION), Some("w6-0.1"), Some("m"), Some("s")), Some("acceptance/evaluation"),
      [("C1", "pass"), ("C2", "pass"), ("C3", "pass"), ("C4", "pass"), ("C5", "pass"), ("C6", "pass"), ("C7", "pass")],
      None, map[], map c: string | c in CANDIDATES :: GoodCandidate(second))
  }

  lemma SelfTestsPass(k: string)
    requires k in SCENARIOS
    ensures SelfTest(GoodSummary("pass").selfTests, k) == Some("pass")
  {
    var t := GoodSummary("pass").selfTests;
    assert t[..6][..5] == t[..5] && t[..5][..4] == t[..4] && t[..4][..3] == t[..3]
      && t[..3][..2] == t[..2] && t[..2][..1] == t[..1];
    assert SelfTest(t[..1], "C1") == Some("pass");
    assert forall x :: x == "C1" || x == "C2" ==> SelfTest(t[..2], x) == Some("pass");
    assert forall x :: x in ["C1", "C2", "C3"] ==> SelfTest(t[..3], x) == Some("pass");
    assert forall x :: x in ["C1", "C2", "C3", "C4"] ==> SelfTest(t[..4], x) == Some("pass");
    assert forall x :: x in ["C1", "C2", "C3", "C4", "C5"] ==> SelfTest(t[..5], x) == Some("pass");
    assert forall x :: x in ["C1", "C2", "C3", "C4", "C5", "C6"] ==> SelfTest(t[..6], x) == Some("pass");
  }

  lemma GoodSummaryIsUnobjectionable(second: string, side: Side, f: Failure)
    requires second != "fail"
    ensures !SummaryObjection(GoodSummary(second), side, f)
    ensures forall c ::
      !CandidateObjection(GoodSummary(second), c, f) && !Regression(GoodSummary(second), GoodSummary(second), c, f)
    ensures !IdentityRegression(GoodSummary(second), GoodSummary(second), f)
  {
    forall k | k in SCENARIOS ensures SelfTest(GoodSummary(second).selfTests, k) == Some("pass") {
      SelfTestsPass(k);
    }
    forall c ensures !CandidateObjection(GoodSummary(second), c, f) {
      GoodCandidateIsUnobjectionable(second, c, f);
    }
  }

  lemma GoodProviderIsSound(p: Problem)
    ensures !ProviderObjection(GOOD_PROVIDER, p)
  {
  }

  lemma GoodCandidateIsUnobjectionable(second: string, c: string, f: Failure)
    requires second != "fail"
    ensures !CandidateObjection(GoodSummary(second), c, f)
  {
    hide ProviderObjection;
    var d := GoodCandidate(second);
    assert "fake-a" in d.providers && "fake-b" in d.providers;
    if f.ProviderFault? {
      GoodProviderIsSound(f.problem);
      assert f.provider in d.providers ==> d.providers[f.provider] == GOOD_PROVIDER;
    }
    assert StatusOf(d, "C1") == "pass";
    assert forall k :: k in SCENARIOS ==> StatusOf(d, k) == "pass" || StatusOf(d, k) == second;
  }

  lemma GoodSummaryIsClosed(second: string, c: string, u: Open)
    requires second != "unknown" && second != "composition-required" && c in CANDIDATES
    ensures !OpenQuestion(GoodSummary(second), c, u)
  {
  }

  /** Two equal runs whose C2 has any status outside the four known names: the gate passes. */
  lemma UnlistedStatusPasses(second: string)
    requires !Known(second)
    ensures StatusOfGate(GoodSummary(second), GoodSummary(second)) == Pass
    ensures !AllScenariosPass(GoodSummary(second)) && !StatusesKnown(GoodSummary(second))
  {
    var s := GoodSummary(second);
    forall f ensures !HardFailure(s, s, f) {
      GoodSummaryIsUnobjectionable(second, Current, f);
      GoodSummaryIsUnobjectionable(second, Previous, f);
      hide SummaryObjection, CandidateObjection, Regression, IdentityRegression;
    }
    forall u ensures !StillOpen(s, u) {
      forall c | c in CANDIDATES ensures !OpenQuestion(s, c, u) {
        GoodSummaryIsClosed(second, c, u);
      }
      hide OpenQuestion;
    }
    assert "Goose" in CANDIDATES && "C2" in SCENARIOS;
    assert StatusOf(s.baseline["Goose"], "C2") == second;
  }

  /** Behind a passing gate a passing C1 has sound evidence from both providers. */
  lemma PassMeansSoundEvidence(b: Summary, n: Summary, c: string, p: string)
    requires StatusOfGate(b, n) == Pass && c in CANDIDATES && p in PROVIDERS
    requires c in n.baseline && StatusOf(n.baseline[c], "C1") == "pass"
    ensures p in n.baseline[c].providers && SoundEvidence(n.baseline[c].providers[p])
  {
    NothingHeld(b, n, c, ProviderAbsent(c, p));
    var r := n.baseline[c].providers[p];
    forall problem ensures !ProviderObjection(r, problem) {
      NothingHeld(b, n, c, ProviderFault(c, p, problem));
    }
    NoObjectionMeansSound(r);
  }

  /** One passing gate: fixture and evaluation identity kept, a passing C1 kept, no provider count lower. */
  lemma OneStep(b: Summary, n: Summary)
    requires StatusOfGate(b, n) == Pass
    ensures n.fixture == b.fixture
    ensures b.evaluation.Some? ==> n.evaluation.Some?
    ensures forall c :: c in CANDIDATES && C1Passes(b, c) ==> C1Passes(n, c)
    ensures forall c, p :: c in CANDIDATES && p in PROVIDERS && C1Passes(b, c) ==>
      ProviderOf(n, c, p).Some?
      && Count(OldProvider(b, c, p).passedCount) <= Count(ProviderOf(n, c, p).value.passedCount)
  {
    if n.fixture != b.fixture {
      FixtureChangeIsRefused(b, n);
    }
    NothingHeld(b, n, CANDIDATES[0], LostEvaluationIdentity);
    forall c | c in CANDIDATES && C1Passes(b, c) ensures C1Passes(n, c) {
      NothingHeld(b, n, c, Regressed(c));
    }
    forall c, p | c in CANDIDATES && p in PROVIDERS && C1Passes(b, c)
      ensures ProviderOf(n, c, p).Some?
        && Count(OldProvider(b, c, p).passedCount) <= Count(ProviderOf(n, c, p).value.passedCount)
    {
      PassMeansSoundEvidence(b, n, c, p);
      NothingHeld(b, n, c, PassedCountFell(c, p));
    }
  }

  // ----- Chains of accepted upgrades -----

  ghost predicate Accepted(chain: seq<Summary>) {
    forall i :: 0 <= i < |chain| - 1 ==> StatusOfGate(chain[i], chain[i + 1]) == Pass
  }

  /** From any earlier to any later summary of the chain. */
  lemma {:induction false} Ratchet(chain: seq<Summary>, i: nat, j: nat)
    requires Accepted(chain) && i <= j < |chain|
    ensures chain[j].fixture == chain[i].fixture
    ensures chain[i].evaluation.Some? ==> chain[j].evaluation.Some?
    ensures forall c :: c in CANDIDATES && C1Passes(chain[i], c) ==> C1Passes(chain[j], c)
    ensures forall c, p :: c in CANDIDATES && p in PROVIDERS && C1Passes(chain[i], c) ==>
      Count(OldProvider(chain[i], c, p).passedCount) <= Count(OldProvider(chain[j], c, p).passedCount)
    decreases j - i
  {
    if i < j {
      OneStep(chain[i], chain[i + 1]);
      Ratchet(chain, i + 1, j);
      forall c, p | c in CANDIDATES && p in PROVIDERS && C1Passes(chain[i], c)
        ensures Count(OldProvider(chain[i], c, p).passedCount) <= Count(OldProvider(chain[j], c, p).passedCount)
      {
        assert ProviderOf(chain[i + 1], c, p).Some?;
        assert OldProvider(chain[i + 1], c, p) == ProviderOf(chain[i + 1], c, p).value;
      }
    }
  }

  /** Every accepted summary whose statuses are known passes everywhere, on sound evidence. */
  lemma AcceptedSummariesAreSound(chain: seq<Summary>, j: nat, c: string, p: string)
    requires Accepted(chain) && 1 <= j < |chain| && StatusesKnown(chain[j])
    requires c in CANDIDATES && p in PROVIDERS
    ensures AllScenariosPass(chain[j])
    ensures ProviderOf(chain[j], c, p).Some?
    ensures ProviderOf(chain[j], c, p).value.passRate == Some(1.0)
    ensures ProviderOf(chain[j], c, p).value.outOfScope == Some(0)
    ensures Count(ProviderOf(chain[j], c, p).value.passedCount) >= 4
  {
    assert StatusOfGate(chain[j - 1], chain[j - 1 + 1]) == Pass;
    PassMeansAllScenariosPass(chain[j - 1], chain[j]);
    PassMeansSoundEvidence(chain[j - 1], chain[j], c, p);
  }
}
