/**
 The durable case ledger of the C3/C4 composition adapter.

 `Ledger` is the value stored in the case directory (the state file and the five JSONL
 files the adapter owns) together with the adapter's copy of the state.  `CaseLedger` is
 the object that updates it in place.  The timestamp field `at` is not modelled.
 */
module CaseLedgers {
  import opened Basics

  datatype Ids = Ids(runId: string, scheduleId: string, idempotencyKey: string)

  datatype Mode = Trigger | Resume

  datatype Phase = Started | Terminal

  datatype Fault = TurnInterrupt | ProviderTimeout | ToolTimeout | ProcessInterrupt

  /** The marker that starts a prompt; only `Initial` and `Retry` let the candidate call a tool. */
  datatype Prompt = Initial | Retry | ReconcileNoTool

  datatype Status = Running | Completed | SafeStopped | Unknown

  datatype EffectStatus = EffectUnknown | Pending | Applied | NoEffect

  datatype State = State(
    threadId: Option<string>,
    turnId: Option<string>,
    phase: string,
    status: Status,
    retryCount: nat,
    lastCheckpoint: string,
    effectStatus: EffectStatus,
    resultStatus: string,
    safeStopReason: Option<string>)

  const CREATED := State(None, None, "created", Running, 0, "created", EffectUnknown, "unknown", None)

  datatype Kind =
    | RunCreated
    | ScheduleTriggered(trigger: string, missed: bool, late: bool)
    | AttemptMoved(attempt: nat, mode: Mode, phase: Phase, outcome: string)
    | ResultRecorded(outcome: string, effects: nat, toolResults: nat)
    | FaultInjected(fault: Fault)
    | Duplicate(trigger: string)
    | AlreadyCompleted(trigger: string)
    | SideEffectReconciled(decision: string, effects: nat, toolResults: nat)
    | RetryDecided(number: nat)
    | RunSafeStopped
    | RunError
    | ProviderReady
    | ThreadStarted
    | ThreadResumed
    | TurnStarted(prompt: Prompt)
    | Dispatched(planned: Option<Fault>)
    | InterruptRequested
    | TurnCompleted
    | ApprovalRequested(accepted: bool)
    | ServerRequestDenied
    | ApprovalMissing
  {
    /** Written while answering a request of the candidate, at a moment the adapter does not choose. */
    predicate ServerDriven() {
      ApprovalRequested? || ServerRequestDenied?
    }
  }

  datatype Event = Event(number: nat, ids: Ids, threadId: Option<string>, turnId: Option<string>, kind: Kind)

  datatype ScheduleRecord = ScheduleRecord(ids: Ids, trigger: string, missed: bool, late: bool, semantics: string)

  datatype AttemptRecord = AttemptRecord(
    ids: Ids, attempt: nat, mode: Mode, phase: Phase, outcome: string,
    threadId: Option<string>, turnId: Option<string>)

  datatype ResultRecord = ResultRecord(
    ids: Ids, outcome: string, effects: nat, toolResults: nat,
    threadId: Option<string>, turnId: Option<string>)

  datatype Ledger = Ledger(
    ids: Ids,
    state: State,
    stored: State,
    events: seq<Event>,
    faults: seq<Event>,
    schedule: seq<ScheduleRecord>,
    attempts: seq<AttemptRecord>,
    results: seq<ResultRecord>)

  // ----- What the event log says about the other files -----

  function FaultsOf(events: seq<Event>): seq<Event> {
    if events == [] then [] else
    var last := events[|events| - 1];
    FaultsOf(events[..|events| - 1]) + if last.kind.FaultInjected? then [last] else []
  }

  function ScheduleOf(events: seq<Event>): seq<ScheduleRecord> {
    if events == [] then [] else
    var last := events[|events| - 1];
    ScheduleOf(events[..|events| - 1]) +
    match last.kind
    case ScheduleTriggered(t, missed, late) => [ScheduleEntry(last.ids, t, missed, late)]
    case _ => []
  }

  function AttemptsOf(events: seq<Event>): seq<AttemptRecord> {
    if events == [] then [] else
    var last := events[|events| - 1];
    AttemptsOf(events[..|events| - 1]) +
    match last.kind
    case AttemptMoved(a, mode, phase, outcome) =>
      [AttemptRecord(last.ids, a, mode, phase, outcome, last.threadId, last.turnId)]
    case _ => []
  }

  function ResultsOf(events: seq<Event>): seq<ResultRecord> {
    if events == [] then [] else
    var last := events[|events| - 1];
    ResultsOf(events[..|events| - 1]) +
    match last.kind
    case ResultRecorded(outcome, e, r) => [ResultRecord(last.ids, outcome, e, r, last.threadId, last.turnId)]
    case _ => []
  }

  /** The adapter's own steps in order: the event kinds without the server-driven ones. */
  function Trace(events: seq<Event>): seq<Kind> {
    if events == [] then [] else
    var last := events[|events| - 1];
    Trace(events[..|events| - 1]) + if last.kind.ServerDriven() then [] else [last.kind]
  }

  /** How often the candidate asked for native approval. */
  function Approvals(events: seq<Event>): nat {
    if events == [] then 0 else
    Approvals(events[..|events| - 1]) + if events[|events| - 1].kind.ApprovalRequested? then 1 else 0
  }

  ghost predicate Numbered(events: seq<Event>, ids: Ids) {
    forall i :: 0 <= i < |events| ==> events[i].number == i + 1 && events[i].ids == ids
  }

  /**
   Ledger coherence: memory and disk agree, events are numbered without gaps, every event
   carries the identity of the case, and each of the other files is exactly the matching
   part of the event log, record by record and in order.
   */
  ghost predicate Coherent(l: Ledger) {
    && l.state == l.stored
    && Numbered(l.events, l.ids)
    && l.faults == FaultsOf(l.events)
    && l.schedule == ScheduleOf(l.events)
    && l.attempts == AttemptsOf(l.events)
    && l.results == ResultsOf(l.events)
  }

  // ----- The ledger operations on values -----

  function ScheduleEntry(ids: Ids, trigger: string, missed: bool, late: bool): ScheduleRecord {
    ScheduleRecord(ids, trigger, missed, late, if missed then "run-once-late" else "deliver-once")
  }

  lemma OneMoreEvent(events: seq<Event>, e: Event)
    ensures FaultsOf(events + [e]) == FaultsOf(events) + (if e.kind.FaultInjected? then [e] else [])
    ensures !e.kind.ScheduleTriggered? ==> ScheduleOf(events + [e]) == ScheduleOf(events)
    ensures !e.kind.AttemptMoved? ==> AttemptsOf(events + [e]) == AttemptsOf(events)
    ensures !e.kind.ResultRecorded? ==> ResultsOf(events + [e]) == ResultsOf(events)
    ensures Trace(events + [e]) == Trace(events) + (if e.kind.ServerDriven() then [] else [e.kind])
    ensures Approvals(events + [e]) == Approvals(events) + (if e.kind.ApprovalRequested? then 1 else 0)
  {
    assert (events + [e])[..|events|] == events;
  }

  function Emit(l: Ledger, kind: Kind): (r: Ledger)
    ensures Trace(r.events) == Trace(l.events) + if kind.ServerDriven() then [] else [kind]
    ensures Approvals(r.events) == Approvals(l.events) + if kind.ApprovalRequested? then 1 else 0
    ensures Coherent(l) && !kind.ScheduleTriggered? && !kind.AttemptMoved? && !kind.ResultRecorded? ==> Coherent(r)
  {
    var e := Event(|l.events| + 1, l.ids, l.stored.threadId, l.stored.turnId, kind);
    OneMoreEvent(l.events, e);
    l.(state := l.stored, events := l.events + [e],
       faults := if kind.FaultInjected? then l.faults + [e] else l.faults)
  }

  /** Every event carries the thread and the turn of the stored state. */
  lemma EventsNameThreadAndTurn(l: Ledger, kind: Kind)
    ensures var e := Emit(l, kind).events[|l.events|..];
      |e| == 1 && e[0].kind == kind && e[0].threadId == l.stored.threadId && e[0].turnId == l.stored.turnId
    ensures Emit(l, kind).events[..|l.events|] == l.events
  {
    hide Trace, Approvals, Coherent;
  }

  function SetState(l: Ledger, s: State): (r: Ledger)
    ensures Coherent(l) ==> Coherent(r)
  {
    l.(state := s, stored := s)
  }

  lemma ScheduleIsMirrored(l: Ledger, trigger: string, missed: bool, late: bool)
    ensures var kind := ScheduleTriggered(trigger, missed, late);
      Coherent(l) ==> Coherent(Emit(l.(schedule := l.schedule + [ScheduleEntry(l.ids, trigger, missed, late)]), kind))
  {
    hide ScheduleOf, AttemptsOf, ResultsOf, FaultsOf, Trace, Approvals, ScheduleEntry;
    var kind := ScheduleTriggered(trigger, missed, late);
    var e := Event(|l.events| + 1, l.ids, l.stored.threadId, l.stored.turnId, kind);
    OneMoreEvent(l.events, e);
    OneMoreSchedule(l.events, e);
  }

  lemma OneMoreSchedule(events: seq<Event>, e: Event)
    requires e.kind.ScheduleTriggered?
    ensures ScheduleOf(events + [e])
      == ScheduleOf(events) + [ScheduleEntry(e.ids, e.kind.trigger, e.kind.missed, e.kind.late)]
  {
    assert (events + [e])[..|events|] == events;
  }

  function RecordSchedule(l: Ledger, trigger: string, missed: bool, late: bool): (r: Ledger)
    ensures Coherent(l) ==> Coherent(r)
    ensures Trace(r.events) == Trace(l.events) + [ScheduleTriggered(trigger, missed, late)]
    ensures Approvals(r.events) == Approvals(l.events)
  {
    var kind := ScheduleTriggered(trigger, missed, late);
    ScheduleIsMirrored(l, trigger, missed, late);
    Emit(l.(schedule := l.schedule + [ScheduleEntry(l.ids, trigger, missed, late)]), kind)
  }

  function RecordAttempt(l: Ledger, attempt: nat, mode: Mode, phase: Phase, outcome: string): (r: Ledger)
    ensures Coherent(l) ==> Coherent(r)
    ensures Trace(r.events) == Trace(l.events) + [AttemptMoved(attempt, mode, phase, outcome)]
    ensures Approvals(r.events) == Approvals(l.events)
  {
    var record := AttemptRecord(l.ids, attempt, mode, phase, outcome, l.state.threadId, l.state.turnId);
    var r := Emit(l.(attempts := l.attempts + [record]), AttemptMoved(attempt, mode, phase, outcome));
    assert r.events[..|l.events|] == l.events;
    r
  }

  function RecordResult(l: Ledger, outcome: string, effects: nat, toolResults: nat): (r: Ledger)
    ensures Coherent(l) ==> Coherent(r)
    ensures Trace(r.events) == Trace(l.events) + [ResultRecorded(outcome, effects, toolResults)]
    ensures Approvals(r.events) == Approvals(l.events)
  {
    var record := ResultRecord(l.ids, outcome, effects, toolResults, l.state.threadId, l.state.turnId);
    var settled := l.state.(resultStatus := "completed", lastCheckpoint := "result-recorded");
    var r := Emit(SetState(l.(results := l.results + [record]), settled),
      ResultRecorded(outcome, effects, toolResults));
    assert r.events[..|l.events|] == l.events;
    r
  }

  function Create(ids: Ids): (r: Ledger)
    ensures Coherent(r) && Trace(r.events) == [RunCreated] && Approvals(r.events) == 0
  {
    var empty := Ledger(ids, CREATED, CREATED, [], [], [], [], []);
    assert Coherent(empty);
    Emit(empty, RunCreated)
  }

  // ----- Every sequence of operations -----

  datatype Op =
    | OpEvent(kind: Kind)
    | OpState(state: State)
    | OpSchedule(trigger: string, missed: bool, late: bool)
    | OpAttempt(attempt: nat, mode: Mode, phase: Phase, outcome: string)
    | OpResult(outcome: string, effects: nat, toolResults: nat)
  {
    /** `event` is never called directly with a kind that mirrors a record of another file. */
    predicate Legal() {
      OpEvent? ==> !kind.ScheduleTriggered? && !kind.AttemptMoved? && !kind.ResultRecorded?
    }
  }

  function Apply(l: Ledger, op: Op): Ledger {
    match op
    case OpEvent(kind) => Emit(l, kind)
    case OpState(s) => SetState(l, s)
    case OpSchedule(t, missed, late) => RecordSchedule(l, t, missed, late)
    case OpAttempt(a, mode, phase, outcome) => RecordAttempt(l, a, mode, phase, outcome)
    case OpResult(outcome, e, r) => RecordResult(l, outcome, e, r)
  }

  function ApplyAll(l: Ledger, ops: seq<Op>): Ledger
    decreases |ops|
  {
    if ops == [] then l else ApplyAll(Apply(l, ops[0]), ops[1..])
  }

  lemma OneOperation(l: Ledger, op: Op)
    requires Coherent(l) && op.Legal()
    ensures Coherent(Apply(l, op))
    ensures Apply(l, op).ids == l.ids
    ensures l.events <= Apply(l, op).events
  {
  }

  /** Whatever the adapter does, the case directory stays coherent, append-only and its own. */
  lemma {:induction false} LedgerStaysCoherent(l: Ledger, ops: seq<Op>)
    requires Coherent(l)
    requires forall op :: op in ops ==> op.Legal()
    ensures Coherent(ApplyAll(l, ops))
    ensures ApplyAll(l, ops).ids == l.ids
    ensures l.events <= ApplyAll(l, ops).events
    decreases |ops|
  {
    if ops != [] {
      var next := Apply(l, ops[0]);
      OneOperation(l, ops[0]);
      LedgerStaysCoherent(next, ops[1..]);
      assert ApplyAll(l, ops) == ApplyAll(next, ops[1..]);
    }
  }

  /** The caveat is exact: one operation keeps a coherent ledger coherent iff it is legal. */
  lemma CoherentIffLegal(l: Ledger, op: Op)
    requires Coherent(l)
    ensures Coherent(Apply(l, op)) <==> op.Legal()
  {
    var after := Apply(l, op);
    if op.OpEvent? && !op.Legal() {
      assert after.events[..|l.events|] == l.events;
    }
  }

  // ----- Reading the files through the trace -----

  function AttemptKinds(attempts: seq<AttemptRecord>): seq<Kind> {
    seq(|attempts|, i requires 0 <= i < |attempts| =>
      AttemptMoved(attempts[i].attempt, attempts[i].mode, attempts[i].phase, attempts[i].outcome))
  }

  function ScheduleKinds(schedule: seq<ScheduleRecord>): seq<Kind> {
    seq(|schedule|, i requires 0 <= i < |schedule| =>
      ScheduleTriggered(schedule[i].trigger, schedule[i].missed, schedule[i].late))
  }

  function ResultKinds(results: seq<ResultRecord>): seq<Kind> {
    seq(|results|, i requires 0 <= i < |results| =>
      ResultRecorded(results[i].outcome, results[i].effects, results[i].toolResults))
  }

  function OnlyAttempts(t: seq<Kind>): seq<Kind> {
    if t == [] then [] else (if t[0].AttemptMoved? then [t[0]] else []) + OnlyAttempts(t[1..])
  }

  function OnlySchedule(t: seq<Kind>): seq<Kind> {
    if t == [] then [] else (if t[0].ScheduleTriggered? then [t[0]] else []) + OnlySchedule(t[1..])
  }

  function OnlyResults(t: seq<Kind>): seq<Kind> {
    if t == [] then [] else (if t[0].ResultRecorded? then [t[0]] else []) + OnlyResults(t[1..])
  }

  function Duplicates(t: seq<Kind>): nat {
    if t == [] then 0 else (if t[0].Duplicate? then 1 else 0) + Duplicates(t[1..])
  }

  lemma Regroup(a: seq<Kind>, b: seq<Kind>, c: seq<Kind>)
    ensures a + (b + c) == (a + b) + c
  {
  }

  lemma {:induction false} OnlyAttemptsConcat(a: seq<Kind>, b: seq<Kind>)
    ensures OnlyAttempts(a + b) == OnlyAttempts(a) + OnlyAttempts(b)
  {
    if a == [] {
      assert a + b == b;
    } else {
      OnlyAttemptsConcat(a[1..], b);
      assert (a + b)[1..] == a[1..] + b && (a + b)[0] == a[0];
      Regroup(if a[0].AttemptMoved? then [a[0]] else [], OnlyAttempts(a[1..]), OnlyAttempts(b));
    }
  }

  lemma {:induction false} OnlyScheduleConcat(a: seq<Kind>, b: seq<Kind>)
    ensures OnlySchedule(a + b) == OnlySchedule(a) + OnlySchedule(b)
  {
    if a == [] {
      assert a + b == b;
    } else {
      OnlyScheduleConcat(a[1..], b);
      assert (a + b)[1..] == a[1..] + b && (a + b)[0] == a[0];
      Regroup(if a[0].ScheduleTriggered? then [a[0]] else [], OnlySchedule(a[1..]), OnlySchedule(b));
    }
  }

  lemma {:induction false} OnlyResultsConcat(a: seq<Kind>, b: seq<Kind>)
    ensures OnlyResults(a + b) == OnlyResults(a) + OnlyResults(b)
  {
    if a == [] {
      assert a + b == b;
    } else {
      OnlyResultsConcat(a[1..], b);
      assert (a + b)[1..] == a[1..] + b && (a + b)[0] == a[0];
      Regroup(if a[0].ResultRecorded? then [a[0]] else [], OnlyResults(a[1..]), OnlyResults(b));
    }
  }

  lemma {:induction false} DuplicatesConcat(a: seq<Kind>, b: seq<Kind>)
    ensures Duplicates(a + b) == Duplicates(a) + Duplicates(b)
  {
    if a == [] {
      assert a + b == b;
    } else {
      DuplicatesConcat(a[1..], b);
      assert (a + b)[1..] == a[1..] + b;
    }
  }

  lemma {:induction false} AttemptsFromTrace(events: seq<Event>)
    ensures AttemptKinds(AttemptsOf(events)) == OnlyAttempts(Trace(events))
  {
    if events != [] {
      var front, last := events[..|events| - 1], events[|events| - 1];
      AttemptsFromTrace(front);
      if last.kind.ServerDriven() {
        assert Trace(events) == Trace(front);
      } else {
        OnlyAttemptsConcat(Trace(front), [last.kind]);
        if last.kind.AttemptMoved? {
          assert OnlyAttempts([last.kind]) == [last.kind];
          assert AttemptKinds(AttemptsOf(events)) == AttemptKinds(AttemptsOf(front)) + [last.kind];
        } else {
          assert OnlyAttempts([last.kind]) == [];
        }
      }
    }
  }

  lemma {:induction false} ScheduleFromTrace(events: seq<Event>)
    ensures ScheduleKinds(ScheduleOf(events)) == OnlySchedule(Trace(events))
  {
    if events != [] {
      var front, last := events[..|events| - 1], events[|events| - 1];
      ScheduleFromTrace(front);
      if last.kind.ServerDriven() {
        assert Trace(events) == Trace(front);
      } else {
        OnlyScheduleConcat(Trace(front), [last.kind]);
        if last.kind.ScheduleTriggered? {
          assert OnlySchedule([last.kind]) == [last.kind];
          assert ScheduleKinds(ScheduleOf(events)) == ScheduleKinds(ScheduleOf(front)) + [last.kind];
        } else {
          assert OnlySchedule([last.kind]) == [];
        }
      }
    }
  }

  lemma {:induction false} ResultsFromTrace(events: seq<Event>)
    ensures ResultKinds(ResultsOf(events)) == OnlyResults(Trace(events))
  {
    if events != [] {
      var front, last := events[..|events| - 1], events[|events| - 1];
      ResultsFromTrace(front);
      if last.kind.ServerDriven() {
        assert Trace(events) == Trace(front);
      } else {
        OnlyResultsConcat(Trace(front), [last.kind]);
        if last.kind.ResultRecorded? {
          assert OnlyResults([last.kind]) == [last.kind];
          assert ResultKinds(ResultsOf(events)) == ResultKinds(ResultsOf(front)) + [last.kind];
        } else {
          assert OnlyResults([last.kind]) == [];
        }
      }
    }
  }

  /** Schedule, attempt and result files of a coherent ledger are the matching parts of its trace. */
  lemma FilesFromTrace(l: Ledger)
    requires Coherent(l)
    ensures AttemptKinds(l.attempts) == OnlyAttempts(Trace(l.events))
    ensures ScheduleKinds(l.schedule) == OnlySchedule(Trace(l.events))
    ensures ResultKinds(l.results) == OnlyResults(Trace(l.events))
  {
    AttemptsFromTrace(l.events);
    ScheduleFromTrace(l.events);
    ResultsFromTrace(l.events);
  }

  // ----- The object -----

  class CaseLedger {
    const ids: Ids
    var state: State
    var stored: State
    var events: seq<Event>
    var faults: seq<Event>
    var schedule: seq<ScheduleRecord>
    var attempts: seq<AttemptRecord>
    var results: seq<ResultRecord>

    function View(): Ledger
      reads this
    {
      Ledger(ids, state, stored, events, faults, schedule, attempts, results)
    }

    constructor (ids: Ids)
      ensures View() == Create(ids)
    {
      this.ids := ids;
      state, stored := CREATED, CREATED;
      events, faults, schedule, attempts, results := [], [], [], [], [];
      new;
      Log(RunCreated);
    }

    /** `event`: reload the state file, append the event, mirror a fault. */
    method Log(kind: Kind)
      modifies this
      ensures View() == Emit(old(View()), kind)
    {
      state := stored;
      var event := Event(|events| + 1, ids, state.threadId, state.turnId, kind);
      events := events + [event];
      if kind.FaultInjected? {
        faults := faults + [event];
      }
    }

    method Update(s: State)
      modifies this
      ensures View() == SetState(old(View()), s)
    {
      state := s;
      stored := state;
    }

    method Schedule(trigger: string, missed: bool, late: bool)
      modifies this
      ensures View() == RecordSchedule(old(View()), trigger, missed, late)
    {
      schedule := schedule + [ScheduleEntry(ids, trigger, missed, late)];
      Log(ScheduleTriggered(trigger, missed, late));
    }

    method Attempt(attempt: nat, mode: Mode, phase: Phase, outcome: string)
      modifies this
      ensures View() == RecordAttempt(old(View()), attempt, mode, phase, outcome)
    {
      attempts := attempts + [AttemptRecord(ids, attempt, mode, phase, outcome, state.threadId, state.turnId)];
      Log(AttemptMoved(attempt, mode, phase, outcome));
    }

    method FinishResult(outcome: string, effects: nat, toolResults: nat)
      modifies this
      ensures View() == RecordResult(old(View()), outcome, effects, toolResults)
    {
      results := results + [ResultRecord(ids, outcome, effects, toolResults, state.threadId, state.turnId)];
      Update(state.(resultStatus := "completed", lastCheckpoint := "result-recorded"));
      Log(ResultRecorded(outcome, effects, toolResults));
    }

    /** `refresh_state`: the durable copy wins. */
    method Refresh()
      modifies this
      ensures View() == old(View()).(state := old(stored))
    {
      state := stored;
    }
  }
}
