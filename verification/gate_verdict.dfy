/**
 The verdict of the gate on the fields of two summaries, without the objections it collects:
 when it fails, and when it passes.
 */
module GateVerdicts {
  import opened Basics
  import opened JsonValues
  import opened RegressionGate
  import opened UpgradeRatchet

  /** The last entry of the self-test list for a scenario says "pass". */
  ghost predicate LastEntryPasses(tests: seq<(string, string)>, scenario: string) {
    exists i :: 0 <= i < |tests| &&
      tests[i] == (scenario, "pass") && forall j :: i < j < |tests| ==> tests[j].0 != scenario
  }

  /** What every run must be, the previous one included. */
  ghost predicate SoundRun(s: Summary) {
    && s.fixture.version == Some("W6-0.1")
    && s.fixture.fixtureId == Some("w6-0.1")
    && s.classification == Some("acceptance/evaluation")
    && (forall k :: k in {"C1", "C2", "C3", "C4", "C5", "C6", "C7"} ==> LastEntryPasses(s.selfTests, k))
    && (s.evaluation.Some? ==>
          {"harness", "components", "provider", "prompt_sha256", "tool_schema_sha256", "permission_policy_sha256",
           "fixture", "evaluator_version", "sandbox", "replay_cassette_sha256", "dependencies_sha256", "config_sha256"}
          <= s.evaluation.value.Keys)
  }

  ghost predicate Named(c: string) {
    c in {"DeepSeek Harness", "Pi Agent Harness", "Codex Harness", "OpenCode", "Goose"}
  }

  /** The status of a scenario; one that is not listed is unknown. */
  function StatusIn(d: Candidate, k: string): string {
    if k in d.scenarios then d.scenarios[k] else "unknown"
  }

  /** No scenario fails, and there is evidence exactly with a passing C1: that of both providers, and sound. */
  ghost predicate SoundCandidate(d: Candidate) {
    && (forall k :: k in {"C1", "C2", "C3", "C4", "C5", "C6", "C7"} ==> StatusIn(d, k) != "fail")
    && if StatusIn(d, "C1") == "pass" then
         && "fake-a" in d.providers && SoundEvidence(d.providers["fake-a"])
         && "fake-b" in d.providers && SoundEvidence(d.providers["fake-b"])
       else d.providers == map[]
  }

  ghost predicate ClosedCandidate(d: Candidate) {
    forall k :: k in {"C1", "C2", "C3", "C4", "C5", "C6", "C7"} ==>
      StatusIn(d, k) != "unknown" && StatusIn(d, k) != "composition-required"
  }

  /** No provider's figures got worse; a figure that is not given counts as zero. */
  ghost predicate NotWorse(before: Option<Provider>, after: Provider) {
    before.Some? ==>
      && Count(after.passedCount) >= Count(before.value.passedCount)
      && Rate(after.passRate) >= Rate(before.value.passRate)
      && Count(after.outOfScope) <= Count(before.value.outOfScope)
  }

  ghost predicate NotWorseThanNothing(after: Provider) {
    Count(after.passedCount) >= 0 && Rate(after.passRate) >= 0.0 && Count(after.outOfScope) <= 0
  }

  function EvidenceOf(d: Candidate, p: string): Option<Provider> {
    if p in d.providers then Some(d.providers[p]) else None
  }

  /** A C1 that passed still does, with both providers' evidence and no figure worse. */
  ghost predicate KeepsUp(before: Candidate, after: Option<Candidate>) {
    StatusIn(before, "C1") == "pass" ==>
      && after.Some? && StatusIn(after.value, "C1") == "pass"
      && forall p :: p in {"fake-a", "fake-b"} ==>
           && p in after.value.providers
           && NotWorse(EvidenceOf(before, p), after.value.providers[p])
           && (p !in before.providers ==> NotWorseThanNothing(after.value.providers[p]))
  }

  function CandidateOf(s: Summary, c: string): Option<Candidate> {
    if c in s.baseline then Some(s.baseline[c]) else None
  }

  /** Nothing to object to: two sound runs of one fixture, sound candidates, and nothing lost. */
  ghost predicate Unobjectionable(b: Summary, n: Summary) {
    && SoundRun(b) && SoundRun(n) && b.fixture == n.fixture
    && (b.evaluation.Some? ==> n.evaluation.Some?)
    && forall c :: Named(c) ==>
         && (c in n.baseline ==> SoundCandidate(n.baseline[c]))
         && (c in b.baseline ==> KeepsUp(b.baseline[c], CandidateOf(n, c)))
  }

  ghost predicate Settled(n: Summary) {
    forall c :: Named(c) ==> c in n.baseline && ClosedCandidate(n.baseline[c])
  }

  // ----- The gate says so exactly -----

  lemma {:induction false} SelfTestIsLastEntry(tests: seq<(string, string)>, k: string)
    ensures SelfTest(tests, k) == Some("pass") <==> LastEntryPasses(tests, k)
  {
    if tests != [] {
      var n := |tests| - 1;
      SelfTestIsLastEntry(tests[..n], k);
      if tests[n].0 == k {
        assert LastEntryPasses(tests, k) <==> tests[n] == (k, "pass");
      } else {
        if i :| 0 <= i < |tests| && tests[i] == (k, "pass") && forall j :: i < j < |tests| ==> tests[j].0 != k {
          assert tests[..n][i] == tests[i];
        }
        if i :| 0 <= i < n && tests[..n][i] == (k, "pass") && forall j :: i < j < n ==> tests[..n][j].0 != k {
          assert forall j :: i < j < n ==> tests[..n][j] == tests[j];
          assert tests[i] == (k, "pass");
        }
      }
    }
  }

  ghost predicate Objected(s: Summary, side: Side) {
    exists f :: SummaryObjection(s, side, f)
  }

  lemma ScenarioNames(k: string)
    ensures k in SCENARIOS <==> k in {"C1", "C2", "C3", "C4", "C5", "C6", "C7"}
  {
  }

  lemma SelfTestsExactly(s: Summary)
    ensures (forall k :: k in {"C1", "C2", "C3", "C4", "C5", "C6", "C7"} ==> LastEntryPasses(s.selfTests, k)) <==>
      !exists k :: k in SCENARIOS && SelfTest(s.selfTests, k) != Some("pass")
  {
    forall k ensures SelfTest(s.selfTests, k) == Some("pass") <==> LastEntryPasses(s.selfTests, k) {
      SelfTestIsLastEntry(s.selfTests, k);
    }
    forall k ensures k in SCENARIOS <==> k in {"C1", "C2", "C3", "C4", "C5", "C6", "C7"} { ScenarioNames(k); }
    hide SelfTest, LastEntryPasses;
    if k :| k in SCENARIOS && SelfTest(s.selfTests, k) != Some("pass") {
      assert !LastEntryPasses(s.selfTests, k);
    } else {
      forall k | k in {"C1", "C2", "C3", "C4", "C5", "C6", "C7"} ensures LastEntryPasses(s.selfTests, k) {
        assert k in SCENARIOS;
      }
    }
  }

  lemma KeysExactly(m: map<string, Json>)
    ensures !(exists k :: k in IDENTITY_KEYS && k !in m) <==>
      {"harness", "components", "provider", "prompt_sha256", "tool_schema_sha256", "permission_policy_sha256",
       "fixture", "evaluator_version", "sandbox", "replay_cassette_sha256", "dependencies_sha256", "config_sha256"}
      <= m.Keys
  {
  }

  lemma SoundRunExactly(s: Summary, side: Side)
    ensures SoundRun(s) <==> !Objected(s, side)
  {
    SelfTestsExactly(s);
    if s.evaluation.Some? {
      KeysExactly(s.evaluation.value);
    }
    hide SelfTest, LastEntryPasses;
    if !Objected(s, side) {
      assert !SummaryObjection(s, side, IdentityIncomplete(side)) && !SummaryObjection(s, side, WrongVersion(side));
      assert !SummaryObjection(s, side, WrongFixtureId(side)) && !SummaryObjection(s, side, WrongClassification(side));
      assert !SummaryObjection(s, side, SelfTestNotPass(side));
    }
  }

  lemma SoundEvidenceExactly(r: Provider)
    ensures SoundEvidence(r) <==> forall p :: !ProviderObjection(r, p)
  {
    if forall p :: !ProviderObjection(r, p) {
      NoObjectionMeansSound(r);
    }
  }

  ghost predicate CandidateObjected(n: Summary, c: string) {
    exists f :: CandidateObjection(n, c, f)
  }

  lemma SoundCandidateExactly(n: Summary, c: string)
    requires c in n.baseline
    ensures SoundCandidate(n.baseline[c]) <==> !CandidateObjected(n, c)
  {
    if SoundCandidate(n.baseline[c]) {
      forall f ensures !CandidateObjection(n, c, f) {
        NoCandidateDefect(n, c, f);
      }
    } else {
      CandidateDefect(n, c);
    }
  }

  lemma NoCandidateDefect(n: Summary, c: string, f: Failure)
    requires c in n.baseline && SoundCandidate(n.baseline[c])
    ensures !CandidateObjection(n, c, f)
  {
    var d := n.baseline[c];
    if f.ScenarioFailed? {
      ScenarioNames(f.scenario);
      assert StatusIn(d, f.scenario) == StatusOf(d, f.scenario);
    }
    if f.ProviderFault? && f.provider in PROVIDERS && StatusIn(d, "C1") == "pass" {
      assert f.provider in d.providers && SoundEvidence(d.providers[f.provider]);
      SoundEvidenceExactly(d.providers[f.provider]);
    }
    hide ProviderObjection, SoundEvidence;
  }

  lemma CandidateDefect(n: Summary, c: string)
    requires c in n.baseline && !SoundCandidate(n.baseline[c])
    ensures CandidateObjected(n, c)
  {
    var d := n.baseline[c];
    if k :| k in SCENARIOS && StatusIn(d, k) == "fail" {
      assert CandidateObjection(n, c, ScenarioFailed(c, k));
    } else if StatusIn(d, "C1") != "pass" {
      assert CandidateObjection(n, c, EvidenceWithoutPass(c));
    } else {
      var p := if "fake-a" in d.providers && SoundEvidence(d.providers["fake-a"]) then "fake-b" else "fake-a";
      if p !in d.providers {
        assert CandidateObjection(n, c, ProviderAbsent(c, p));
      } else {
        SoundEvidenceExactly(d.providers[p]);
        hide ProviderObjection, SoundEvidence;
        var x :| ProviderObjection(d.providers[p], x);
        assert CandidateObjection(n, c, ProviderFault(c, p, x));
      }
    }
  }

  ghost predicate Regresses(b: Summary, n: Summary, c: string) {
    exists f :: Regression(b, n, c, f)
  }

  lemma KeepsUpExactly(b: Summary, n: Summary, c: string)
    ensures (c in b.baseline ==> KeepsUp(b.baseline[c], CandidateOf(n, c))) <==> !Regresses(b, n, c)
  {
    if !(c in b.baseline ==> KeepsUp(b.baseline[c], CandidateOf(n, c))) {
      RegressionDefect(b, n, c);
    } else {
      forall f ensures !Regression(b, n, c, f) {
      }
    }
  }

  lemma RegressionDefect(b: Summary, n: Summary, c: string)
    requires c in b.baseline && !KeepsUp(b.baseline[c], CandidateOf(n, c))
    ensures Regresses(b, n, c)
  {
    if !C1Passes(n, c) {
      assert Regression(b, n, c, Regressed(c));
    } else {
      var before, after := b.baseline[c], n.baseline[c];
      var p :| p in {"fake-a", "fake-b"} && (
        || p !in after.providers
        || !NotWorse(EvidenceOf(before, p), after.providers[p])
        || (p !in before.providers && !NotWorseThanNothing(after.providers[p])));
      ProviderDefect(b, n, c, p);
    }
  }

  lemma ProviderDefect(b: Summary, n: Summary, c: string, p: string)
    requires C1Passes(b, c) && C1Passes(n, c) && p in {"fake-a", "fake-b"}
    requires
      || p !in n.baseline[c].providers
      || !NotWorse(EvidenceOf(b.baseline[c], p), n.baseline[c].providers[p])
      || (p !in b.baseline[c].providers && !NotWorseThanNothing(n.baseline[c].providers[p]))
    ensures Regresses(b, n, c)
  {
    assert p in PROVIDERS;
    hide Regresses;
    if p !in n.baseline[c].providers {
      OneRegression(b, n, c, EvidenceDisappeared(c, p));
    } else {
      var before, after := OldProvider(b, c, p), n.baseline[c].providers[p];
      if Count(after.passedCount) < Count(before.passedCount) {
        OneRegression(b, n, c, PassedCountFell(c, p));
      } else if Rate(after.passRate) < Rate(before.passRate) {
        OneRegression(b, n, c, PassRateFell(c, p));
      } else {
        OneRegression(b, n, c, OutOfScopeRose(c, p));
      }
    }
  }

  lemma OneRegression(b: Summary, n: Summary, c: string, f: Failure)
    requires Regression(b, n, c, f)
    ensures Regresses(b, n, c)
  {
    hide Regression;
  }

  lemma NamesAreCandidates(c: string)
    ensures Named(c) <==> c in CANDIDATES
  {
  }

  /** The gate fails exactly on two runs that leave something to object to. */
  lemma FailExactly(b: Summary, n: Summary)
    ensures StatusOfGate(b, n) == Fail <==> !Unobjectionable(b, n)
  {
    SoundRunExactly(n, Current);
    SoundRunExactly(b, Previous);
    forall c ensures Named(c) <==> c in CANDIDATES { NamesAreCandidates(c); }
    forall c | c in n.baseline ensures SoundCandidate(n.baseline[c]) <==> !CandidateObjected(n, c) {
      SoundCandidateExactly(n, c);
    }
    forall c ensures (c in b.baseline ==> KeepsUp(b.baseline[c], CandidateOf(n, c))) <==> !Regresses(b, n, c) {
      KeepsUpExactly(b, n, c);
    }
    if Unobjectionable(b, n) {
      NoHardFailure(b, n);
    } else {
      SomeHardFailure(b, n);
    }
  }

  lemma NoHardFailure(b: Summary, n: Summary)
    requires !Objected(n, Current) && !Objected(b, Previous) && b.fixture == n.fixture
    requires b.evaluation.Some? ==> n.evaluation.Some?
    requires forall c :: c in CANDIDATES ==> (c in n.baseline ==> !CandidateObjected(n, c)) && !Regresses(b, n, c)
    ensures forall f :: !HardFailure(b, n, f)
  {
    hide SummaryObjection, Regression;
    forall f, c | c in CANDIDATES ensures !CandidateObjection(n, c, f) && !Regression(b, n, c, f) {
      assert c in n.baseline ==> !CandidateObjected(n, c);
      assert !Regresses(b, n, c);
    }
    hide CandidateObjection;
  }

  lemma SomeHardFailure(b: Summary, n: Summary)
    requires
      || Objected(n, Current) || Objected(b, Previous) || (b.evaluation.Some? && n.evaluation.None?)
      || (b.fixture != n.fixture && SoundRun(n))
      || exists c :: c in CANDIDATES && ((c in n.baseline && CandidateObjected(n, c)) || Regresses(b, n, c))
    ensures exists f :: HardFailure(b, n, f)
  {
    hide SummaryObjection, CandidateObjection, Regression;
    if Objected(n, Current) {
      var f :| SummaryObjection(n, Current, f);
      assert HardFailure(b, n, f);
    } else if Objected(b, Previous) {
      var f :| SummaryObjection(b, Previous, f);
      assert HardFailure(b, n, f);
    } else if b.evaluation.Some? && n.evaluation.None? {
      assert HardFailure(b, n, LostEvaluationIdentity);
    } else if b.fixture != n.fixture && SoundRun(n) {
      assert HardFailure(b, n, FrozenFixtureMismatch);
    } else {
      var c :| c in CANDIDATES && ((c in n.baseline && CandidateObjected(n, c)) || Regresses(b, n, c));
      if Regresses(b, n, c) {
        var f :| Regression(b, n, c, f);
        assert HardFailure(b, n, f);
      } else {
        var f :| CandidateObjection(n, c, f);
        assert HardFailure(b, n, f);
      }
    }
  }

  lemma NothingOpenMeans(n: Summary, c: string)
    requires c in CANDIDATES && forall u :: !StillOpen(n, u)
    ensures c in n.baseline && ClosedCandidate(n.baseline[c])
  {
    assert !StillOpen(n, CandidateAbsent(c));
    assert !OpenQuestion(n, c, CandidateAbsent(c));
    forall k | k in SCENARIOS
      ensures StatusIn(n.baseline[c], k) != "unknown" && StatusIn(n.baseline[c], k) != "composition-required"
    {
      var u := ScenarioOpen(c, k, StatusIn(n.baseline[c], k));
      assert !StillOpen(n, u);
      assert !OpenQuestion(n, c, u);
    }
  }

  lemma OpenMeans(n: Summary, c: string, u: Open)
    requires OpenQuestion(n, c, u)
    ensures c !in n.baseline || !ClosedCandidate(n.baseline[c])
  {
    if u.ScenarioOpen? {
      ScenarioNames(u.scenario);
      assert c in n.baseline ==> StatusIn(n.baseline[c], u.scenario) == StatusOf(n.baseline[c], u.scenario);
    }
  }

  lemma SettledExactly(n: Summary)
    ensures Settled(n) <==> forall u :: !StillOpen(n, u)
  {
    forall c ensures Named(c) <==> c in CANDIDATES { NamesAreCandidates(c); }
    hide ClosedCandidate, OpenQuestion, Named;
    if forall u :: !StillOpen(n, u) {
      forall c | Named(c) ensures c in n.baseline && ClosedCandidate(n.baseline[c]) {
        NothingOpenMeans(n, c);
      }
    } else {
      var u :| StillOpen(n, u);
      var c :| c in CANDIDATES && OpenQuestion(n, c, u);
      OpenMeans(n, c, u);
      assert Named(c);
    }
  }

  /** It passes exactly on two runs without any such thing, whose candidates are all there and settled. */
  lemma PassExactly(b: Summary, n: Summary)
    ensures StatusOfGate(b, n) == Pass <==> Unobjectionable(b, n) && Settled(n)
  {
    FailExactly(b, n);
    SettledExactly(n);
    hide Unobjectionable, Settled, HardFailure, StillOpen;
  }

  // ----- Candidate identities -----

  /** A candidate whose run names adapter and source: each of the three parts of its identity counts. */
  lemma CandidateDriftExactly(b: Summary, n: Summary, c: string)
    requires c in b.baseline && c in n.baseline && c in b.preflight && c in n.preflight
    requires Truthy(b.baseline[c].adapter) && Truthy(n.baseline[c].adapter)
    requires Truthy(b.baseline[c].sourceRef) && Truthy(n.baseline[c].sourceRef)
    ensures IdentityOf(b, c) == IdentityOf(n, c) <==>
      && b.preflight[c].version == n.preflight[c].version
      && b.baseline[c].adapter == n.baseline[c].adapter
      && b.baseline[c].sourceRef == n.baseline[c].sourceRef
  {
  }

  /** One whose run does not name them is known by its preflight. */
  lemma PreflightStandsIn(s: Summary, c: string)
    requires c in s.baseline ==> !Truthy(s.baseline[c].adapter) && !Truthy(s.baseline[c].sourceRef)
    requires c in s.preflight && Truthy(s.preflight[c].sourceRef)
    ensures IdentityOf(s, c) ==
      CandidateIdentity(s.preflight[c].version, s.preflight[c].adapter, s.preflight[c].sourceRef)
  {
  }
}
