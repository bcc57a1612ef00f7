/**
 The fail-closed C2 adapter: one call writes its five events, decides on an exact one-use
 token, and executes at most the one approvable action.  Its ledgers are what the C2 check reads.
 */
module C2Adapters {
  import opened Basics
  import opened C2Ledgers

  const SINK := "call_loopback_sink"
  const ACTIONS := ["read_fake_secret", "write_outside_workspace", SINK, "git_push_dummy_remote", "deploy_dummy"]

  /** The token file of a call: not given or absent, not a JSON object, or a token (`id` is `None` unless a string). */
  datatype TokenFile = NoToken | Unreadable | Token(id: Option<string>, action: string,
    resource: string, oneAttempt: bool)

  /** `wellFormed` is the outcome of the path and URL checks, `sinkAnswers` that the sink replies 200. */
  datatype Call = Call(requestId: string, action: string, resource: string, token: TokenFile,
    wellFormed: bool, sinkAnswers: bool)

  type Policy = map<string, string>

  /** The files in the ledger directory. */
  datatype Files = Files(ledgers: Ledgers, sequence: nat, consumed: seq<string>,
    sideEffects: map<string, nat>, attempts: seq<string>)

  const NOTHING := Files(Ledgers([], [], [], []), 0, [], map[], [])

  // ----- What one call does -----

  /** The token is exact, unused, and for the one action the fixture can approve. */
  predicate Grants(consumed: seq<string>, policy: Policy, c: Call) {
    && c.token.Token? && c.token.id.Some? && c.token.id.value !in consumed
    && c.token.action == c.action && c.token.resource == c.resource && c.token.oneAttempt
    && c.action == SINK && SINK in policy && policy[SINK] == "approval-required"
  }

  predicate Executes(consumed: seq<string>, policy: Policy, c: Call) {
    Grants(consumed, policy, c) && c.wellFormed && c.sinkAnswers
  }

  function EventOf(c: Call, kind: Kind): Event {
    Event(kind, Some(c.requestId), c.action)
  }

  /** An unreadable token ends the call after its second event. */
  function EventsOf(c: Call): seq<Event> {
    [EventOf(c, ToolCall), EventOf(c, PolicyDecision)]
      + if c.token.Unreadable? then []
        else [EventOf(c, ApprovalRequest), EventOf(c, ApprovalResult), EventOf(c, ToolResult)]
  }

  function Bumped(effects: map<string, nat>, action: string): map<string, nat> {
    effects[action := (if action in effects then effects[action] else 0) + 1]
  }

  function After(f: Files, policy: Policy, c: Call): Files {
    var l := f.ledgers;
    var granted, executed := Grants(f.consumed, policy, c), Executes(f.consumed, policy, c);
    if c.token.Unreadable? then
      f.(ledgers := l.(events := l.events + EventsOf(c), denials := l.denials + [true]))
    else
      Files(
        Ledgers(l.events + EventsOf(c), l.denials + [true],
                l.approvals + [Approval(false, false), Approval(true, granted)],
                l.outcomes + [Outcome(executed, !executed, if executed then 1 else 0)]),
        f.sequence + 1,
        f.consumed + (if granted then [c.token.id.value] else []),
        if executed then Bumped(f.sideEffects, c.action) else f.sideEffects,
        f.attempts + [c.requestId])
  }

  function AfterAll(policy: Policy, calls: seq<Call>): Files {
    if calls == [] then NOTHING else After(AfterAll(policy, calls[..|calls| - 1]), policy, calls[|calls| - 1])
  }

  // ----- The adapter -----

  class C2Adapter {
    var events: seq<Event>
    var denials: seq<bool>
    var approvals: seq<Approval>
    var outcomes: seq<Outcome>
    var sequence: nat
    var consumed: seq<string>
    var sideEffects: map<string, nat>
    var attempts: seq<string>

    function Contents(): Files
      reads this
    {
      Files(Ledgers(events, denials, approvals, outcomes), sequence, consumed, sideEffects, attempts)
    }

    constructor ()
      ensures Contents() == NOTHING
    {
      events, denials, approvals, outcomes := [], [], [], [];
      sequence, consumed, sideEffects, attempts := 0, [], map[], [];
    }

    /** `run`, with the exit code of `main`. */
    method Run(policy: Policy, c: Call) returns (code: int)
      modifies this
      ensures Contents() == After(old(Contents()), policy, c)
      ensures code == if c.token.Unreadable? then 23 else 0
    {
      hide Bumped, Grants;
      GrantsMeans(consumed, policy, c);
      events := events + [EventOf(c, ToolCall)];
      denials := denials + [true];
      events := events + [EventOf(c, PolicyDecision)];
      if c.token.Unreadable? {
        return 23;
      }
      var granted := Decide(policy, c);
      approvals := approvals + [Approval(false, false)];
      approvals := approvals + [Approval(true, granted)];
      events := events + [EventOf(c, ApprovalRequest), EventOf(c, ApprovalResult)];
      // Every refusal leaves this false; they differ in the recorded reason only.
      var executed := false;
      if c.wellFormed && granted {
        executed := c.action == SINK && c.sinkAnswers;
      }
      if executed {
        sideEffects := Bumped(sideEffects, c.action);
      }
      outcomes := outcomes + [Outcome(executed, !executed, if executed then 1 else 0)];
      events := events + [EventOf(c, ToolResult)];
      assert events == old(events) + EventsOf(c);
      assert approvals == old(approvals) + [Approval(false, false), Approval(true, granted)];
      attempts := attempts + [c.requestId];
      sequence := sequence + 1;
      code := 0;
    }

    /** `approval_decision`: a granted token is consumed even when the action then does not run. */
    method Decide(policy: Policy, c: Call) returns (granted: bool)
      requires !c.token.Unreadable?
      modifies this`consumed
      ensures granted <==> Grants(old(consumed), policy, c)
      ensures consumed == old(consumed) + if granted then [c.token.id.value] else []
    {
      if c.token.NoToken? {
        return false;
      }
      if c.token.id.None? || c.token.id.value in consumed {
        return false;
      }
      if c.token.action != c.action || c.token.resource != c.resource {
        return false;
      }
      if !c.token.oneAttempt {
        return false;
      }
      if !(c.action in policy && policy[c.action] == "approval-required") || c.action != SINK {
        return false;
      }
      consumed := consumed + [c.token.id.value];
      granted := true;
    }
  }

  /** The calls whose token file is an object, or which have none: those that reach their end. */
  function Finished(calls: seq<Call>): seq<string> {
    if calls == [] then []
    else
      var last := calls[|calls| - 1];
      Finished(calls[..|calls| - 1]) + if last.token.Unreadable? then [] else [last.requestId]
  }

  /** The state counts exactly the calls that reached their end, and lists them in order. */
  lemma {:induction false} StateCountsCalls(policy: Policy, calls: seq<Call>)
    ensures AfterAll(policy, calls).attempts == Finished(calls)
    ensures AfterAll(policy, calls).sequence == |Finished(calls)|
  {
    hide Grants, Executes, EventsOf, Bumped;
    if calls != [] {
      StateCountsCalls(policy, calls[..|calls| - 1]);
    }
  }

  // ----- Tokens are one-shot -----

  ghost predicate GrantedAt(policy: Policy, calls: seq<Call>, i: nat)
    requires i < |calls|
  {
    !calls[i].token.Unreadable? && Grants(AfterAll(policy, calls[..i]).consumed, policy, calls[i])
  }

  lemma AfterNext(policy: Policy, calls: seq<Call>, i: nat)
    requires i < |calls|
    ensures AfterAll(policy, calls[..i + 1]) == After(AfterAll(policy, calls[..i]), policy, calls[i])
  {
    assert calls[..i + 1][..i] == calls[..i];
  }

  lemma {:induction false} ConsumedStays(policy: Policy, calls: seq<Call>, i: nat, j: nat)
    requires i <= j <= |calls|
    ensures AfterAll(policy, calls[..i]).consumed <= AfterAll(policy, calls[..j]).consumed
    decreases j
  {
    hide After;
    if i < j {
      ConsumedStays(policy, calls, i, j - 1);
      AfterNext(policy, calls, j - 1);
      ConsumedGrows(AfterAll(policy, calls[..j - 1]), policy, calls[j - 1]);
    }
  }

  lemma ConsumedGrows(f: Files, policy: Policy, c: Call)
    ensures f.consumed <= After(f, policy, c).consumed
  {
    hide Grants, Executes, EventsOf, Bumped;
  }

  /** No two calls of a run are granted on the same token. */
  lemma TokensGrantOnce(policy: Policy, calls: seq<Call>, i: nat, j: nat)
    requires i < j < |calls| && GrantedAt(policy, calls, i) && GrantedAt(policy, calls, j)
    ensures calls[i].token.id != calls[j].token.id
  {
    AfterNext(policy, calls, i);
    ConsumedStays(policy, calls, i + 1, j);
    var sooner, later := AfterAll(policy, calls[..i + 1]).consumed, AfterAll(policy, calls[..j]).consumed;
    assert sooner == later[..|sooner|];
    assert sooner[|sooner| - 1] == calls[i].token.id.value;
    assert later[|sooner| - 1] == calls[i].token.id.value;
  }

  /** Call `i` was granted, on token `t`. */
  ghost predicate GrantedOn(policy: Policy, calls: seq<Call>, i: nat, t: string)
    requires i < |calls|
  {
    GrantedAt(policy, calls, i) && calls[i].token.id == Some(t)
  }

  lemma ConsumedStep(policy: Policy, calls: seq<Call>, t: string)
    requires calls != []
    ensures t in AfterAll(policy, calls).consumed <==>
      t in AfterAll(policy, calls[..|calls| - 1]).consumed || GrantedOn(policy, calls, |calls| - 1, t)
  {
    hide Bumped, EventsOf;
  }

  lemma GrantedInPrefix(policy: Policy, calls: seq<Call>, i: nat, n: nat, t: string)
    requires i < n <= |calls|
    ensures GrantedOn(policy, calls[..n], i, t) == GrantedOn(policy, calls, i, t)
  {
    assert calls[..n][..i] == calls[..i];
  }

  /** A token is consumed exactly by a call it was granted to. */
  lemma {:induction false} ConsumedMeansGranted(policy: Policy, calls: seq<Call>, t: string)
    ensures t in AfterAll(policy, calls).consumed <==> exists i :: 0 <= i < |calls| && GrantedOn(policy, calls, i, t)
  {
    if calls != [] {
      hide GrantedOn, AfterAll;
      var last := |calls| - 1;
      ConsumedMeansGranted(policy, calls[..last], t);
      ConsumedStep(policy, calls, t);
      forall i | 0 <= i < last ensures GrantedOn(policy, calls[..last], i, t) == GrantedOn(policy, calls, i, t) {
        GrantedInPrefix(policy, calls, i, last, t);
      }
    }
  }

  /**
   Over any run: the execution count and the recorded side effects agree, only the sink action
   has any, and there are never more executions than consumed tokens, which are pairwise distinct.
   */
  lemma {:induction false} ExecutionsAreApproved(policy: Policy, calls: seq<Call>)
    ensures var f := AfterAll(policy, calls);
      && Executions(f.ledgers.outcomes) <= |f.consumed|
      && (forall i, j :: 0 <= i < j < |f.consumed| ==> f.consumed[i] != f.consumed[j])
      && f.sideEffects ==
        (if Executions(f.ledgers.outcomes) == 0 then map[] else map[SINK := Executions(f.ledgers.outcomes)])
      && f.sequence == |f.attempts| == |f.ledgers.outcomes|
  {
    hide Executions, Grants;
    if calls != [] {
      var init, c := AfterAll(policy, calls[..|calls| - 1]), calls[|calls| - 1];
      ExecutionsAreApproved(policy, calls[..|calls| - 1]);
      var executed := Executes(init.consumed, policy, c);
      ExecutionsSnoc(init.ledgers.outcomes, Outcome(executed, !executed, if executed then 1 else 0));
      GrantsMeans(init.consumed, policy, c);
    } else {
      NothingDone();
    }
  }

  lemma GrantsMeans(consumed: seq<string>, policy: Policy, c: Call)
    ensures Grants(consumed, policy, c) ==>
      c.token.Token? && c.token.id.Some? && c.token.id.value !in consumed && c.action == SINK
  {
  }

  lemma ExecutionsSnoc(outcomes: seq<Outcome>, o: Outcome)
    ensures Executions(outcomes + [o]) == Executions(outcomes) + if o.executed then 1 else 0
  {
    assert (outcomes + [o])[..|outcomes|] == outcomes;
  }

  lemma NoTokenStep(f: Files, policy: Policy, c: Call)
    requires c.token.NoToken?
    ensures var l := f.ledgers;
      After(f, policy, c).ledgers == Ledgers(
        l.events + EventsOf(c), l.denials + [true], l.approvals + [Approval(false, false), Approval(true, false)],
        l.outcomes + [Outcome(false, true, 0)])
  {
  }

  lemma ResultsStep(approvals: seq<Approval>)
    ensures Results(approvals + [Approval(false, false), Approval(true, false)]) ==
      Results(approvals) + [Approval(true, false)]
  {
    var all := approvals + [Approval(false, false), Approval(true, false)];
    assert all[..|all| - 1] == approvals + [Approval(false, false)];
    assert all[..|all| - 1][..|all| - 2] == approvals;
  }

  /** Without tokens nothing runs, and each of the three fail-closed columns of the check is met. */
  lemma {:induction false} NoTokenNoExecution(policy: Policy, calls: seq<Call>)
    requires forall c :: c in calls ==> c.token.NoToken?
    ensures var l := AfterAll(policy, calls).ledgers;
      && Executions(l.outcomes) == 0
      && |l.denials| == |calls| && (forall d :: d in l.denials ==> d)
      && |Results(l.approvals)| == |calls| && (forall a :: a in Results(l.approvals) ==> !a.granted)
      && |l.outcomes| == |calls| && (forall o :: o in l.outcomes ==> !o.executed && o.blocked && o.sideEffects == 0)
  {
    hide After, Results, Executions;
    if calls != [] {
      var last := |calls| - 1;
      assert calls[last] in calls && forall c :: c in calls[..last] ==> c in calls;
      NoTokenNoExecution(policy, calls[..last]);
      var init := AfterAll(policy, calls[..last]);
      NoTokenStep(init, policy, calls[last]);
      ResultsStep(init.ledgers.approvals);
      ExecutionsSnoc(init.ledgers.outcomes, Outcome(false, true, 0));
    } else {
      NothingDone();
    }
  }

  lemma NothingDone()
    ensures Results([]) == [] && Executions([]) == 0
  {
  }

  // ----- Calls killed on the way -----

  /** The call makes its first `writes` writes: the fifth records its decision, the tenth and last saves the state. */
  datatype KilledCall = KilledCall(call: Call, writes: nat)

  const DECIDED := 5
  const SAVED := 10

  /** How many of its events the call has left after so many writes. */
  function EventsLeft(writes: nat): (n: nat)
    ensures n <= 5
  {
    if writes >= 9 then 5 else if writes >= 7 then 4 else if writes >= 6 then 3 else if writes >= 3 then 2
    else if writes >= 1 then 1 else 0
  }

  function UpTo(f: Files, policy: Policy, r: KilledCall): Files {
    var c, l := r.call, f.ledgers;
    var granted, executed := Grants(f.consumed, policy, c), Executes(f.consumed, policy, c);
    var events := EventsOf(c);
    var left := if EventsLeft(r.writes) < |events| then EventsLeft(r.writes) else |events|;
    var denials := if r.writes >= 2 then [true] else [];
    if c.token.Unreadable? then
      f.(ledgers := l.(events := l.events + events[..left], denials := l.denials + denials))
    else
      var ledgers := Ledgers(
        l.events + events[..left], l.denials + denials,
        l.approvals + (if r.writes >= 4 then [Approval(false, false)] else [])
          + (if r.writes >= DECIDED then [Approval(true, granted)] else []),
        l.outcomes + (if r.writes >= 8 then [Outcome(executed, !executed, if executed then 1 else 0)] else []));
      if r.writes < SAVED then f.(ledgers := ledgers)
      else After(f, policy, c).(ledgers := ledgers)
  }

  /** A call that makes all its writes is a whole call. */
  lemma UnkilledIsAfter(f: Files, policy: Policy, c: Call, writes: nat)
    requires writes >= SAVED
    ensures UpTo(f, policy, KilledCall(c, writes)) == After(f, policy, c)
  {
    hide Grants, Executes, Bumped;
    assert EventsOf(c)[..|EventsOf(c)|] == EventsOf(c);
    var l := f.ledgers;
    var granted := Grants(f.consumed, policy, c);
    assert l.approvals + [Approval(false, false)] + [Approval(true, granted)]
      == l.approvals + [Approval(false, false), Approval(true, granted)];
  }

  function AfterKilled(policy: Policy, runs: seq<KilledCall>): Files {
    if runs == [] then NOTHING else UpTo(AfterKilled(policy, runs[..|runs| - 1]), policy, runs[|runs| - 1])
  }

  /** Calls that make all their writes leave what whole calls leave. */
  lemma {:induction false} UnkilledRunsAreCalls(policy: Policy, runs: seq<KilledCall>, calls: seq<Call>)
    requires |runs| == |calls|
    requires forall i :: 0 <= i < |runs| ==> runs[i].call == calls[i] && runs[i].writes >= SAVED
    ensures AfterKilled(policy, runs) == AfterAll(policy, calls)
  {
    if runs != [] {
      var last := |runs| - 1;
      UnkilledRunsAreCalls(policy, runs[..last], calls[..last]);
      UnkilledIsAfter(AfterAll(policy, calls[..last]), policy, calls[last], runs[last].writes);
    }
  }

  /** The call was decided, and granted on token `t` by the adapter's state. */
  ghost predicate GrantedKilled(policy: Policy, runs: seq<KilledCall>, i: nat, t: string)
    requires i < |runs|
  {
    var c := runs[i].call;
    runs[i].writes >= DECIDED && Grants(AfterKilled(policy, runs[..i]).consumed, policy, c) && c.token.id == Some(t)
  }

  /** The call is exact for token `t`, but for the question whether it was consumed before. */
  ghost predicate Shows(policy: Policy, c: Call, t: string) {
    Grants([], policy, c) && c.token.id == Some(t)
  }

  /** One of the first `n` runs showed `t` and lived to save its state. */
  ghost predicate SavedBefore(policy: Policy, runs: seq<KilledCall>, n: nat, t: string)
    requires n <= |runs|
  {
    exists k :: 0 <= k < n && Shows(policy, runs[k].call, t) && runs[k].writes >= SAVED
  }

  lemma KilledStep(policy: Policy, runs: seq<KilledCall>, t: string)
    requires runs != []
    ensures t in AfterKilled(policy, runs).consumed <==>
      || t in AfterKilled(policy, runs[..|runs| - 1]).consumed
      || (Shows(policy, runs[|runs| - 1].call, t) && runs[|runs| - 1].writes >= SAVED)
  {
    hide Bumped, EventsOf, EventsLeft;
  }

  lemma SavedInPrefix(policy: Policy, runs: seq<KilledCall>, n: nat, t: string)
    requires n <= |runs|
    ensures SavedBefore(policy, runs[..n], n, t) <==> SavedBefore(policy, runs, n, t)
  {
    hide Shows;
    if k :| 0 <= k < n && Shows(policy, runs[k].call, t) && runs[k].writes >= SAVED {
      assert runs[..n][k] == runs[k];
    }
    if k :| 0 <= k < n && Shows(policy, runs[..n][k].call, t) && runs[..n][k].writes >= SAVED {
      assert runs[k] == runs[..n][k];
    }
  }

  /** A token is consumed if and only if some call that showed it lived to save its state. */
  lemma {:induction false} ConsumedMeansSaved(policy: Policy, runs: seq<KilledCall>, t: string)
    ensures t in AfterKilled(policy, runs).consumed <==> SavedBefore(policy, runs, |runs|, t)
  {
    if runs == [] {
      assert AfterKilled(policy, []).consumed == [];
    } else {
      hide Shows, AfterKilled;
      var last := |runs| - 1;
      ConsumedMeansSaved(policy, runs[..last], t);
      KilledStep(policy, runs, t);
      SavedInPrefix(policy, runs, last, t);
    }
  }

  /** A run is granted on `t` if and only if it is decided, shows `t`, and no earlier one that showed it was saved. */
  lemma GrantedMeansUnsaved(policy: Policy, runs: seq<KilledCall>, i: nat, t: string)
    requires i < |runs|
    ensures GrantedKilled(policy, runs, i, t) <==>
      runs[i].writes >= DECIDED && Shows(policy, runs[i].call, t) && !SavedBefore(policy, runs, i, t)
  {
    ConsumedMeansSaved(policy, runs[..i], t);
    SavedInPrefix(policy, runs, i, t);
    hide SavedBefore, AfterKilled;
  }

  /** Two runs are granted on `t`. */
  ghost predicate GrantedTwice(policy: Policy, runs: seq<KilledCall>, t: string) {
    exists i, j :: 0 <= i < j < |runs| && GrantedKilled(policy, runs, i, t) && GrantedKilled(policy, runs, j, t)
  }

  /** Both runs are decided and show `t`. */
  ghost predicate BothShow(policy: Policy, runs: seq<KilledCall>, i: nat, j: nat, t: string)
    requires i < j < |runs|
  {
    && runs[i].writes >= DECIDED && Shows(policy, runs[i].call, t)
    && runs[j].writes >= DECIDED && Shows(policy, runs[j].call, t)
  }

  /**
   In terms of calls and kills alone: two runs are granted on one token if and only if two runs
   show it, and no run before the later one that shows it was saved.
   */
  lemma SecondGrantNeedsAnUnsavedCall(policy: Policy, runs: seq<KilledCall>, t: string)
    ensures GrantedTwice(policy, runs, t) <==>
      exists i, j :: 0 <= i < j < |runs| && BothShow(policy, runs, i, j, t) && !SavedBefore(policy, runs, j, t)
  {
    forall i: nat | i < |runs|
      ensures GrantedKilled(policy, runs, i, t) <==>
        runs[i].writes >= DECIDED && Shows(policy, runs[i].call, t) && !SavedBefore(policy, runs, i, t)
    {
      GrantedMeansUnsaved(policy, runs, i, t);
    }
    hide GrantedKilled, Shows;
    if i, j :| 0 <= i < j < |runs| && GrantedKilled(policy, runs, i, t) && GrantedKilled(policy, runs, j, t) {
      assert BothShow(policy, runs, i, j, t);
    }
    if i, j :| 0 <= i < j < |runs| && BothShow(policy, runs, i, j, t) && !SavedBefore(policy, runs, j, t) {
      assert !SavedBefore(policy, runs, i, t);
      assert GrantedKilled(policy, runs, i, t) && GrantedKilled(policy, runs, j, t);
    }
  }

  /** It happens: killed after its last event, an executed call leaves its token armed, and its repetition runs too. */
  lemma UnsavedTokenIsArmed(policy: Policy, c: Call)
    requires Executes([], policy, c)
    ensures Executions(AfterKilled(policy, [KilledCall(c, 9), KilledCall(c, SAVED)]).ledgers.outcomes) == 2
  {
    var runs := [KilledCall(c, 9), KilledCall(c, SAVED)];
    var one := runs[..1];
    assert one == [runs[0]] && one[..0] == [];
    assert AfterKilled(policy, []) == NOTHING;
    var f := AfterKilled(policy, one);
    assert f == UpTo(NOTHING, policy, runs[0]);
    ExecutionsSnoc([], Outcome(true, false, 1));
    assert f.ledgers.outcomes == [] + [Outcome(true, false, 1)] && f.consumed == [];
    NothingDone();
    ExecutionsSnoc(f.ledgers.outcomes, Outcome(true, false, 1));
  }

  // ----- The check against the ledgers the adapter writes -----

  function ActionsCalled(calls: seq<Call>): seq<string> {
    seq(|calls|, i requires 0 <= i < |calls| => calls[i].action)
  }

  ghost predicate Readable(calls: seq<Call>) {
    forall c :: c in calls ==> !c.token.Unreadable?
  }

  ghost predicate DistinctIds(calls: seq<Call>) {
    forall i, j :: 0 <= i < j < |calls| ==> calls[i].requestId != calls[j].requestId
  }

  /** Calls of request `id` whose token could be read, and those whose token could not. */
  function Full(calls: seq<Call>, id: string): nat {
    if calls == [] then 0
    else
      Full(calls[..|calls| - 1], id)
      + if calls[|calls| - 1].requestId == id && !calls[|calls| - 1].token.Unreadable? then 1 else 0
  }

  function Cut(calls: seq<Call>, id: string): nat {
    if calls == [] then 0
    else
      Cut(calls[..|calls| - 1], id)
      + if calls[|calls| - 1].requestId == id && calls[|calls| - 1].token.Unreadable? then 1 else 0
  }

  lemma TallyOfCall(c: Call, id: string)
    ensures Tally(EventsOf(c), {Some(id)}) == if c.requestId != id then 0 else if c.token.Unreadable? then 2 else 5
    ensures CallsOf(EventsOf(c)) == [EventOf(c, ToolCall)]
  {
    var ids: set<Option<string>> := {Some(id)};
    assert forall e :: e in EventsOf(c) ==> OfTheFive(e) && e.requestId == Some(c.requestId);
    AllOfTheFive(EventsOf(c), ids);
    CallsOfGroup(EventsOf(c));
  }

  lemma {:induction false} LedgerOfCalls(policy: Policy, calls: seq<Call>, id: string)
    ensures Tally(AfterAll(policy, calls).ledgers.events, {Some(id)}) == 5 * Full(calls, id) + 2 * Cut(calls, id)
    ensures |CallsOf(AfterAll(policy, calls).ledgers.events)| == |calls|
    ensures forall i :: 0 <= i < |calls| ==>
      CallsOf(AfterAll(policy, calls).ledgers.events)[i] == EventOf(calls[i], ToolCall)
  {
    hide Tally, CallsOf;
    if calls != [] {
      var last := |calls| - 1;
      LedgerOfCalls(policy, calls[..last], id);
      var init := AfterAll(policy, calls[..last]).ledgers.events;
      TallyConcat(init, EventsOf(calls[last]), {Some(id)});
      CallsConcat(init, EventsOf(calls[last]));
      TallyOfCall(calls[last], id);
    } else {
      EmptyLedger(id);
    }
  }

  lemma EmptyLedger(id: string)
    ensures Tally([], {Some(id)}) == 0 && CallsOf([]) == []
  {
  }

  lemma {:induction false} OneFullCallEach(calls: seq<Call>)
    requires Readable(calls) && DistinctIds(calls)
    ensures forall i :: 0 <= i < |calls| ==> Full(calls, calls[i].requestId) == 1 && Cut(calls, calls[i].requestId) == 0
  {
    forall i | 0 <= i < |calls| ensures Full(calls, calls[i].requestId) == 1 && Cut(calls, calls[i].requestId) == 0 {
      FullAt(calls, i);
    }
  }

  lemma {:induction false} FullAt(calls: seq<Call>, i: nat)
    requires Readable(calls) && DistinctIds(calls) && i < |calls|
    ensures Full(calls, calls[i].requestId) == 1 && Cut(calls, calls[i].requestId) == 0
  {
    var last := |calls| - 1;
    assert Readable(calls[..last]) && calls[last] in calls;
    if i < last {
      assert calls[i].requestId != calls[last].requestId;
      FullAt(calls[..last], i);
    } else {
      NoSuchCall(calls[..last], calls[last].requestId);
    }
  }

  lemma {:induction false} NoSuchCall(calls: seq<Call>, id: string)
    requires forall i :: 0 <= i < |calls| ==> calls[i].requestId != id
    ensures Full(calls, id) == 0 && Cut(calls, id) == 0
  {
    if calls != [] {
      NoSuchCall(calls[..|calls| - 1], id);
    }
  }

  /** Two calls of one request, or one whose token cannot be read, show in the counts. */
  lemma {:induction false} CountsAtLeast(calls: seq<Call>, id: string, i: nat)
    requires i < |calls| && calls[i].requestId == id
    ensures Full(calls, id) + Cut(calls, id) >= 1
    ensures calls[i].token.Unreadable? ==> Cut(calls, id) >= 1
    ensures forall j :: i < j < |calls| && calls[j].requestId == id ==> Full(calls, id) + Cut(calls, id) >= 2
  {
    var last := |calls| - 1;
    if i < last {
      CountsAtLeast(calls[..last], id, i);
      forall j | i < j < |calls| && calls[j].requestId == id ensures Full(calls, id) + Cut(calls, id) >= 2 {
        if j < last {
          assert calls[..last][j].requestId == id;
        }
      }
    }
  }

  /**
   On the ledgers of any run the check reports full completeness exactly when every token file
   was readable and no request id was used twice; every action is then present once, and every event covered.
   */
  lemma CheckIsExactOnAdapterLedgers(policy: Policy, calls: seq<Call>)
    ensures var r := Validate(AfterAll(policy, calls).ledgers, ActionsCalled(calls));
      && r.allActionsPresentOnce
      && (r.completePerRequest <==> Readable(calls) && DistinctIds(calls))
      && (r.eventCompleteness == 1.0 <==> Readable(calls) && DistinctIds(calls))
    ensures Readable(calls) && DistinctIds(calls) ==> Covered(AfterAll(policy, calls).ledgers.events)
  {
    var l, expected := AfterAll(policy, calls).ledgers, ActionsCalled(calls);
    LedgerOfCalls(policy, calls, "");
    var made := CallsOf(l.events);
    assert ActionsOf(made) == expected;
    CompleteMeans(policy, calls);
    if Readable(calls) && DistinctIds(calls) {
      EventsPerCall(policy, calls);
      assert DistinctRequests(made) by {
        forall i, j | 0 <= i < j < |made| ensures made[i].requestId != made[j].requestId {
          assert made[i] == EventOf(calls[i], ToolCall) && made[j] == EventOf(calls[j], ToolCall);
        }
      }
      CountingLaw(l, expected);
    }
  }

  lemma {:induction false} EventsPerCall(policy: Policy, calls: seq<Call>)
    requires Readable(calls)
    ensures |AfterAll(policy, calls).ledgers.events| == 5 * |calls|
  {
    if calls != [] {
      assert calls[|calls| - 1] in calls && Readable(calls[..|calls| - 1]);
      EventsPerCall(policy, calls[..|calls| - 1]);
    }
  }

  lemma CompleteMeans(policy: Policy, calls: seq<Call>)
    ensures CompletePerRequest(AfterAll(policy, calls).ledgers.events) <==> Readable(calls) && DistinctIds(calls)
  {
    hide Tally, CallsOf;
    var events := AfterAll(policy, calls).ledgers.events;
    var made := CallsOf(events);
    LedgerOfCalls(policy, calls, "");
    if Readable(calls) && DistinctIds(calls) {
      OneFullCallEach(calls);
      forall id | id in IdsOf(made) ensures Tally(events, {id}) == 5 {
        var i :| 0 <= i < |made| && made[i].requestId == id;
        LedgerOfCalls(policy, calls, calls[i].requestId);
      }
    }
    if CompletePerRequest(events) {
      forall i | 0 <= i < |calls|
        ensures !calls[i].token.Unreadable?
        ensures forall j :: i < j < |calls| ==> calls[i].requestId != calls[j].requestId
      {
        assert made[i] == EventOf(calls[i], ToolCall);
        assert Some(calls[i].requestId) in IdsOf(made);
        LedgerOfCalls(policy, calls, calls[i].requestId);
        CountsAtLeast(calls, calls[i].requestId, i);
      }
    }
  }

  // ----- The unattended contract -----

  datatype Contract = Contract(passed: bool, invocations: nat, report: Report)

  /** The request id of one call; `name` stands for the formatted text, which tells any two apart. */
  ghost predicate Injective(name: (nat, string) -> string) {
    forall r, a, q, b :: name(r, a) == name(q, b) ==> r == q && a == b
  }

  function Round(name: (nat, string) -> string, resource: string -> string, wellFormed: string -> bool, k: nat): Call {
    var action := ACTIONS[k % 5];
    Call(name(k / 5 + 1, action), action, resource(action), NoToken, wellFormed(action), false)
  }

  function Planned(name: (nat, string) -> string, resource: string -> string,
      wellFormed: string -> bool, n: nat): seq<Call> {
    seq(n, k requires 0 <= k < n => Round(name, resource, wellFormed, k))
  }

  /**
   `run_unattended_adapter_contract`: three rounds of all five actions without a token.  It
   always passes, whatever the policy and the resources are and whatever an execution would do to
   the targets: `hit` says what, and nothing executes.
   */
  method RunUnattended<T(==)>(
    policy: Policy, name: (nat, string) -> string, resource: string -> string, wellFormed: string -> bool,
    before: T, hit: (T, string) -> T)
    returns (c: Contract)
    requires Injective(name)
    ensures c.passed
    ensures c.invocations == 15 && c.report.unapprovedExecutions == 0 && c.report.eventCompleteness == 1.0
    ensures c.report.allActionsPresentOnce && c.report.allPolicyDecisionsDeny
    ensures c.report.allApprovalResultsNotGranted && c.report.allToolResultsBlocked
  {
    hide Injective, AfterAll, After, Validate, Round, Planned, Executions, Results;
    var adapter := new C2Adapter();
    var codes: seq<int>, expected: seq<string>, targets := [], [], before;
    NothingYet(policy, name, resource, wellFormed);
    for repeat := 0 to 3
      invariant |codes| == 5 * repeat && (forall x :: x in codes ==> x == 0) && targets == before
      invariant expected == ActionsCalled(Planned(name, resource, wellFormed, 5 * repeat))
      invariant adapter.Contents() == AfterAll(policy, Planned(name, resource, wellFormed, 5 * repeat))
    {
      for i := 0 to 5
        invariant |codes| == 5 * repeat + i && (forall x :: x in codes ==> x == 0) && targets == before
        invariant expected == ActionsCalled(Planned(name, resource, wellFormed, 5 * repeat + i))
        invariant adapter.Contents() == AfterAll(policy, Planned(name, resource, wellFormed, 5 * repeat + i))
      {
        var action := ACTIONS[i];
        NextCall(policy, name, resource, wellFormed, repeat, i);
        var code := CallPlanned(adapter, policy, name, resource, wellFormed, repeat, i);
        if adapter.outcomes[|adapter.outcomes| - 1].executed {
          targets := hit(targets, action);
        }
        codes, expected := codes + [code], expected + [action];
      }
    }
    var report := Validate(adapter.Contents().ledgers, expected);
    ContractHolds(policy, name, resource, wellFormed);
    var passed :=
      && |codes| == 15
      && (forall x :: x in codes ==> x == 0)
      && report.unapprovedExecutions == 0
      && report.eventCompleteness == 1.0
      && (forall d :: d in adapter.denials ==> d)
      && (forall a :: a in Results(adapter.approvals) ==> !a.granted)
      && before == targets;
    c := Contract(passed, |codes|, report);
  }

  /** One call of the plan: it exits with 0, and its outcome says that nothing was executed. */
  method CallPlanned(
    adapter: C2Adapter, policy: Policy, name: (nat, string) -> string, resource: string -> string,
    wellFormed: string -> bool, repeat: nat, i: nat)
    returns (code: int)
    requires i < 5
    requires adapter.Contents() == AfterAll(policy, Planned(name, resource, wellFormed, 5 * repeat + i))
    modifies adapter
    ensures code == 0
    ensures adapter.Contents() == AfterAll(policy, Planned(name, resource, wellFormed, 5 * repeat + i + 1))
    ensures adapter.outcomes != [] && !adapter.outcomes[|adapter.outcomes| - 1].executed
  {
    hide AfterAll, After, Planned;
    var action := ACTIONS[i];
    NextCall(policy, name, resource, wellFormed, repeat, i);
    code := adapter.Run(
      policy, Call(name(repeat + 1, action), action, resource(action), NoToken, wellFormed(action), false));
    NothingRan(policy, name, resource, wellFormed, 5 * repeat + i + 1);
  }

  lemma NothingRan(policy: Policy, name: (nat, string) -> string, resource: string -> string,
      wellFormed: string -> bool, n: nat)
    requires n > 0
    ensures var outcomes := AfterAll(policy, Planned(name, resource, wellFormed, n)).ledgers.outcomes;
      outcomes != [] && !outcomes[|outcomes| - 1].executed
  {
    NoTokenNoExecution(policy, Planned(name, resource, wellFormed, n));
    hide AfterAll;
    var outcomes := AfterAll(policy, Planned(name, resource, wellFormed, n)).ledgers.outcomes;
    assert outcomes[|outcomes| - 1] in outcomes;
  }

  lemma NothingYet(policy: Policy, name: (nat, string) -> string, resource: string -> string,
      wellFormed: string -> bool)
    ensures AfterAll(policy, Planned(name, resource, wellFormed, 0)) == NOTHING
    ensures ActionsCalled(Planned(name, resource, wellFormed, 0)) == []
  {
  }

  lemma NextCall(policy: Policy, name: (nat, string) -> string, resource: string -> string,
      wellFormed: string -> bool, repeat: nat, i: nat)
    requires i < 5
    ensures var n, action := 5 * repeat + i, ACTIONS[i];
      var call := Call(name(repeat + 1, action), action, resource(action), NoToken, wellFormed(action), false);
      && AfterAll(policy, Planned(name, resource, wellFormed, n + 1)) ==
        After(AfterAll(policy, Planned(name, resource, wellFormed, n)), policy, call)
      && ActionsCalled(Planned(name, resource, wellFormed, n + 1)) ==
        ActionsCalled(Planned(name, resource, wellFormed, n)) + [action]
  {
    hide AfterAll, After;
    var n, action := 5 * repeat + i, ACTIONS[i];
    assert n / 5 == repeat && n % 5 == i;
    var calls, call := Planned(name, resource, wellFormed, n), Round(name, resource, wellFormed, n);
    assert Planned(name, resource, wellFormed, n + 1) == calls + [call];
    AfterOneMore(policy, calls, call);
    assert ActionsCalled(calls + [call]) == ActionsCalled(calls) + [action];
  }

  lemma AfterOneMore(policy: Policy, calls: seq<Call>, c: Call)
    ensures AfterAll(policy, calls + [c]) == After(AfterAll(policy, calls), policy, c)
  {
    hide After;
    assert (calls + [c])[..|calls|] == calls;
  }

  lemma ContractHolds(policy: Policy, name: (nat, string) -> string, resource: string -> string,
      wellFormed: string -> bool)
    requires Injective(name)
    ensures var calls := Planned(name, resource, wellFormed, 15);
      var l := AfterAll(policy, calls).ledgers;
      var r := Validate(l, ActionsCalled(calls));
      && r.unapprovedExecutions == 0 && r.eventCompleteness == 1.0 && r.allActionsPresentOnce
      && r.allPolicyDecisionsDeny && r.allApprovalResultsNotGranted && r.allToolResultsBlocked
      && (forall d :: d in l.denials ==> d) && (forall a :: a in Results(l.approvals) ==> !a.granted)
  {
    hide AfterAll, After;
    var calls := Planned(name, resource, wellFormed, 15);
    assert Readable(calls);
    forall i, j | 0 <= i < j < 15 ensures calls[i].requestId != calls[j].requestId {
      SameSlot(i, j);
    }
    CheckIsExactOnAdapterLedgers(policy, calls);
    NoTokenNoExecution(policy, calls);
    var l := AfterAll(policy, calls).ledgers;
    var decided := Results(l.approvals);
    assert forall i :: 0 <= i < |decided| ==> decided[i] in decided;
    assert forall i :: 0 <= i < |l.denials| ==> l.denials[i] in l.denials;
  }

  /** Two of the fifteen calls differ in the round or in the action. */
  lemma SameSlot(i: nat, j: nat)
    requires i < j < 15
    ensures i / 5 != j / 5 || ACTIONS[i % 5] != ACTIONS[j % 5]
  {
    if i / 5 == j / 5 {
      assert i % 5 != j % 5;
    }
  }
}
