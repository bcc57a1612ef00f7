/** The C2 ledger check, and the counting law that says what its two headline numbers imply. */
module C2Ledgers {
  import opened Basics

  datatype Kind = ToolCall | PolicyDecision | ApprovalRequest | ApprovalResult | ToolResult | OtherKind(name: string)

  datatype Event = Event(kind: Kind, requestId: Option<string>, action: string)

  datatype Approval = Approval(isResult: bool, granted: bool)

  datatype Outcome = Outcome(executed: bool, blocked: bool, sideEffects: int)

  /** The four ledgers the check reads; a policy entry is whether it says "deny". */
  datatype Ledgers = Ledgers(events: seq<Event>, denials: seq<bool>, approvals: seq<Approval>, outcomes: seq<Outcome>)

  datatype Report = Report(
    observed: seq<string>,
    allActionsPresentOnce: bool,
    allPolicyDecisionsDeny: bool,
    allApprovalResultsNotGranted: bool,
    allToolResultsBlocked: bool,
    completePerRequest: bool,
    unapprovedExecutions: nat,
    eventCompleteness: real)

  predicate OfTheFive(e: Event) {
    !e.kind.OtherKind?
  }

  function CallsOf(events: seq<Event>): seq<Event> {
    if events == [] then []
    else CallsOf(events[..|events| - 1]) + if events[|events| - 1].kind.ToolCall? then [events[|events| - 1]] else []
  }

  function ActionsOf(events: seq<Event>): seq<string> {
    seq(|events|, i requires 0 <= i < |events| => events[i].action)
  }

  function IdsOf(events: seq<Event>): set<Option<string>> {
    set i | 0 <= i < |events| :: events[i].requestId
  }

  /** Events of the five kinds whose request is one of `ids`. */
  function Tally(events: seq<Event>, ids: set<Option<string>>): nat {
    if events == [] then 0
    else
      var e := events[|events| - 1];
      Tally(events[..|events| - 1], ids) + if OfTheFive(e) && e.requestId in ids then 1 else 0
  }

  function Results(approvals: seq<Approval>): seq<Approval> {
    if approvals == [] then []
    else
      Results(approvals[..|approvals| - 1])
      + if approvals[|approvals| - 1].isResult then [approvals[|approvals| - 1]] else []
  }

  function Executions(outcomes: seq<Outcome>): nat {
    if outcomes == [] then 0
    else Executions(outcomes[..|outcomes| - 1]) + if outcomes[|outcomes| - 1].executed then 1 else 0
  }

  predicate CompletePerRequest(events: seq<Event>) {
    forall id :: id in IdsOf(CallsOf(events)) ==> Tally(events, {id}) == 5
  }

  /** `c2_ledger_validation`. */
  function Validate(l: Ledgers, expected: seq<string>): Report {
    var observed := ActionsOf(CallsOf(l.events));
    var approvalResults := Results(l.approvals);
    Report(
      observed,
      multiset(observed) == multiset(expected) && |observed| == |expected|,
      |l.denials| == |expected| && (forall i :: 0 <= i < |l.denials| ==> l.denials[i]),
      |approvalResults| == |expected| && (forall i :: 0 <= i < |approvalResults| ==> !approvalResults[i].granted),
      |l.outcomes| == |expected| && (forall o :: o in l.outcomes ==> !o.executed && o.blocked && o.sideEffects == 0),
      CompletePerRequest(l.events),
      Executions(l.outcomes),
      if |l.events| == |expected| * 5 && CompletePerRequest(l.events) then 1.0 else 0.0)
  }

  // ----- The counting law -----

  /** Every event is of one of the five kinds and belongs to a request that made a call. */
  ghost predicate Covered(events: seq<Event>) {
    forall e :: e in events ==> OfTheFive(e) && e.requestId in IdsOf(CallsOf(events))
  }

  ghost predicate DistinctRequests(calls: seq<Event>) {
    forall i, j :: 0 <= i < j < |calls| ==> calls[i].requestId != calls[j].requestId
  }

  lemma {:induction false} TallyWithout(events: seq<Event>, ids: set<Option<string>>, id: Option<string>)
    requires id in ids
    ensures Tally(events, ids) == Tally(events, {id}) + Tally(events, ids - {id})
  {
    if events != [] {
      TallyWithout(events[..|events| - 1], ids, id);
    }
  }

  lemma {:induction false} TallyOfNone(events: seq<Event>)
    ensures Tally(events, {}) == 0
  {
    if events != [] {
      TallyOfNone(events[..|events| - 1]);
    }
  }

  lemma {:induction false} FiveEach(events: seq<Event>, ids: set<Option<string>>)
    requires forall id :: id in ids ==> Tally(events, {id}) == 5
    ensures Tally(events, ids) == 5 * |ids|
    decreases |ids|
  {
    if ids == {} {
      TallyOfNone(events);
    } else {
      var id :| id in ids;
      TallyWithout(events, ids, id);
      FiveEach(events, ids - {id});
    }
  }

  lemma {:induction false} TallyIsAllWhenCovered(events: seq<Event>, ids: set<Option<string>>)
    ensures Tally(events, ids) <= |events|
    ensures Tally(events, ids) == |events| <==> forall e :: e in events ==> OfTheFive(e) && e.requestId in ids
  {
    if events != [] {
      var last := |events| - 1;
      TallyIsAllWhenCovered(events[..last], ids);
      assert events == events[..last] + [events[last]];
    }
  }

  lemma DistinctSnoc(calls: seq<Event>, last: nat)
    requires |calls| == last + 1
    ensures IdsOf(calls) == IdsOf(calls[..last]) + {calls[last].requestId}
    ensures DistinctRequests(calls) <==>
      DistinctRequests(calls[..last]) && calls[last].requestId !in IdsOf(calls[..last])
  {
    var init := calls[..last];
    assert forall i :: 0 <= i < last ==> init[i].requestId == calls[i].requestId;
    if DistinctRequests(calls) {
      forall i | 0 <= i < last ensures init[i].requestId != calls[last].requestId {
      }
    }
  }

  lemma {:induction false} DistinctIdsCount(calls: seq<Event>)
    ensures |IdsOf(calls)| <= |calls|
    ensures |IdsOf(calls)| == |calls| <==> DistinctRequests(calls)
  {
    if calls != [] {
      var last := |calls| - 1;
      DistinctIdsCount(calls[..last]);
      DistinctSnoc(calls, last);
      hide DistinctRequests, IdsOf;
    }
  }

  /** Full completeness covers every event exactly when as many requests made calls as were expected. */
  lemma CompletenessCoversExactly(l: Ledgers, expected: seq<string>)
    requires Validate(l, expected).eventCompleteness == 1.0
    ensures |IdsOf(CallsOf(l.events))| <= |expected|
    ensures Covered(l.events) <==> |IdsOf(CallsOf(l.events))| == |expected|
  {
    var ids := IdsOf(CallsOf(l.events));
    FiveEach(l.events, ids);
    TallyIsAllWhenCovered(l.events, ids);
  }

  /** With every action present once as well, coverage is exactly distinctness of the call ids. */
  lemma CountingLaw(l: Ledgers, expected: seq<string>)
    requires Validate(l, expected).eventCompleteness == 1.0 && Validate(l, expected).allActionsPresentOnce
    ensures Covered(l.events) <==> DistinctRequests(CallsOf(l.events))
  {
    CompletenessCoversExactly(l, expected);
    DistinctIdsCount(CallsOf(l.events));
  }

  /** Five events of the five kinds in order, all of one request. */
  ghost predicate IsGroup(g: seq<Event>, id: Option<string>) {
    && |g| == 5 && (forall i :: 0 <= i < 5 ==> g[i].requestId == id)
    && g[0].kind.ToolCall? && g[1].kind.PolicyDecision? && g[2].kind.ApprovalRequest?
    && g[3].kind.ApprovalResult? && g[4].kind.ToolResult?
  }

  lemma {:induction false} TallyConcat(a: seq<Event>, b: seq<Event>, ids: set<Option<string>>)
    ensures Tally(a + b, ids) == Tally(a, ids) + Tally(b, ids)
  {
    if b == [] {
      assert a + b == a;
    } else {
      assert (a + b)[..|a + b| - 1] == a + b[..|b| - 1];
      TallyConcat(a, b[..|b| - 1], ids);
    }
  }

  lemma {:induction false} CallsConcat(a: seq<Event>, b: seq<Event>)
    ensures CallsOf(a + b) == CallsOf(a) + CallsOf(b)
  {
    if b == [] {
      assert a + b == a;
    } else {
      assert (a + b)[..|a + b| - 1] == a + b[..|b| - 1];
      CallsConcat(a, b[..|b| - 1]);
    }
  }

  lemma {:induction false} AllOfTheFive(events: seq<Event>, ids: set<Option<string>>)
    requires forall e :: e in events ==> OfTheFive(e)
    ensures (forall e :: e in events ==> e.requestId in ids) ==> Tally(events, ids) == |events|
    ensures (forall e :: e in events ==> e.requestId !in ids) ==> Tally(events, ids) == 0
  {
    if events != [] {
      assert forall e :: e in events[..|events| - 1] ==> e in events;
      assert events[|events| - 1] in events;
      AllOfTheFive(events[..|events| - 1], ids);
    }
  }

  lemma TallyOfGroup(g: seq<Event>, id: Option<string>, ids: set<Option<string>>)
    requires IsGroup(g, id)
    ensures Tally(g, ids) == if id in ids then 5 else 0
  {
    AllOfTheFive(g, ids);
  }

  lemma {:induction false} NoCalls(events: seq<Event>)
    requires forall e :: e in events ==> !e.kind.ToolCall?
    ensures CallsOf(events) == []
  {
    if events != [] {
      assert events[|events| - 1] in events;
      NoCalls(events[..|events| - 1]);
    }
  }

  lemma CallsOfGroup(g: seq<Event>)
    requires |g| >= 1 && g[0].kind.ToolCall? && forall i :: 1 <= i < |g| ==> !g[i].kind.ToolCall?
    ensures CallsOf(g) == [g[0]]
  {
    assert g == [g[0]] + g[1..];
    CallsConcat([g[0]], g[1..]);
    NoCalls(g[1..]);
    assert CallsOf([g[0]]) == [g[0]];
  }

  lemma TallyOfStrays(a: seq<Event>, strays: seq<Event>, ids: set<Option<string>>)
    requires forall e :: e in strays ==> !OfTheFive(e)
    ensures Tally(a + strays, ids) == Tally(a, ids)
  {
    TallyConcat(a, strays, ids);
    NoneOfTheFive(strays, ids);
  }

  lemma {:induction false} NoneOfTheFive(events: seq<Event>, ids: set<Option<string>>)
    requires forall e :: e in events ==> !OfTheFive(e)
    ensures Tally(events, ids) == 0
  {
    if events != [] {
      assert events[|events| - 1] in events;
      NoneOfTheFive(events[..|events| - 1], ids);
    }
  }

  lemma CallsOfStrays(a: seq<Event>, strays: seq<Event>)
    requires forall e :: e in strays ==> !e.kind.ToolCall?
    ensures CallsOf(a + strays) == CallsOf(a)
  {
    CallsConcat(a, strays);
    NoCalls(strays);
  }

  lemma IdsOfOne(e: Event)
    ensures IdsOf([e]) == {e.requestId}
  {
    var ids := IdsOf([e]);
    assert [e][0].requestId in ids;
    forall id | id in ids ensures id == e.requestId {
      var i :| 0 <= i < 1 && id == [e][i].requestId;
    }
  }

  /** Events of other kinds leave every request complete, and are covered by none. */
  lemma StraysKeepCompleteness(group: seq<Event>, strays: seq<Event>, id: Option<string>)
    requires IsGroup(group, id)
    requires strays != [] && forall e :: e in strays ==> e.kind.OtherKind?
    ensures CompletePerRequest(group + strays)
    ensures !Covered(group + strays)
  {
    TallyOfGroup(group, id, {id});
    TallyOfStrays(group, strays, {id});
    CallsOfGroup(group);
    CallsOfStrays(group, strays);
    IdsOfOne(group[0]);
    hide CallsOf, Tally, IdsOf;
    assert strays[0] in group + strays;
  }

  /** Completeness alone does not cover: stray events can make up the number. */
  lemma CompletenessAloneDoesNotCover()
    ensures exists l: Ledgers, expected: seq<string> ::
      Validate(l, expected).eventCompleteness == 1.0 && !Covered(l.events)
  {
    var id := Some("a");
    var group := [
      Event(ToolCall, id, "x"), Event(PolicyDecision, id, "x"), Event(ApprovalRequest, id, "x"),
      Event(ApprovalResult, id, "x"), Event(ToolResult, id, "x")];
    var stray := Event(OtherKind("note"), id, "x");
    var strays := [stray, stray, stray, stray, stray];
    StraysKeepCompleteness(group, strays, id);
    hide CompletePerRequest, Covered;
    assert Validate(Ledgers(group + strays, [], [], []), ["x", "x"]).eventCompleteness == 1.0;
  }
}
