/**
 The C3 cases: a list of trigger and resume deliveries for one idempotency key.  The first
 delivery claims the key and dispatches the candidate; every later one must find the run
 completed and dispatch nothing.
 */
module Triggers {
  import opened Basics
  import opened CaseLedgers
  import opened EffectSinks
  import opened Hosts
  import opened Recovery
  import opened Courses

  /** `interrupted`: the process is killed during this delivery if it dispatches. */
  datatype Delivery = Delivery(mode: Mode, trigger: string, interrupted: bool)

  datatype Settlement =
    | Direct(effects: nat, toolResults: nat)
    | Recovered(plan: Plan)

  // ----- The exact trace of an exception-free case -----

  function Claim(d: Delivery, number: nat): seq<Kind> {
    [ScheduleTriggered(d.trigger, d.trigger == "missed", d.trigger == "delayed"),
     AttemptMoved(number, d.mode, Started, "claimed")]
  }

  function LaterTrace(d: Delivery, number: nat): seq<Kind> {
    Claim(d, number) +
    if d.mode.Resume? then [AlreadyCompleted(d.trigger), AttemptMoved(number, d.mode, Terminal, "already-completed")]
    else [Duplicate(d.trigger), AttemptMoved(number, d.mode, Terminal, "deduplicated")]
  }

  function FaultOf(d: Delivery): Option<Fault> {
    if d.interrupted then Some(ProcessInterrupt) else None
  }

  function SettlementTrace(s: Settlement): seq<Kind> {
    match s
    case Direct(e, r) => [ResultRecorded("completed", e, r)]
    case Recovered(plan) => RecoveryTrace(plan, 1)
  }

  function FirstTrace(d: Delivery, s: Settlement, status: string): seq<Kind> {
    Claim(d, 1) + [ProviderReady] + InitialTrace(FaultOf(d)) + SettlementTrace(s)
      + [AttemptMoved(1, d.mode, Terminal, status)]
  }

  function LaterTraces(ds: seq<Delivery>): seq<Kind> {
    if |ds| <= 1 then [] else LaterTraces(ds[..|ds| - 1]) + LaterTrace(ds[|ds| - 1], |ds|)
  }

  function CaseTrace(ds: seq<Delivery>, s: Settlement, status: string): seq<Kind> {
    [RunCreated] + (if ds == [] then [] else FirstTrace(ds[0], s, status)) + LaterTraces(ds)
  }

  function LaterTriggers(ds: seq<Delivery>): nat {
    if |ds| <= 1 then 0 else LaterTriggers(ds[..|ds| - 1]) + if ds[|ds| - 1].mode.Trigger? then 1 else 0
  }

  // ----- What that trace says about the ledger files -----

  function ScheduleOfDeliveries(ds: seq<Delivery>): seq<Kind> {
    if ds == [] then [] else ScheduleOfDeliveries(ds[..|ds| - 1]) + [Claim(ds[|ds| - 1], |ds|)[0]]
  }

  /** One started/terminal pair per delivery, numbered 1, 2, 3, ... */
  function AttemptsOfDeliveries(ds: seq<Delivery>, status: string): seq<Kind> {
    if ds == [] then [] else
    var d, n := ds[|ds| - 1], |ds|;
    AttemptsOfDeliveries(ds[..n - 1], status)
    + [Claim(d, n)[1], AttemptMoved(n, d.mode, Terminal,
      if n == 1 then status else if d.mode.Resume? then "already-completed" else "deduplicated")]
  }

  ghost predicate Plain(t: seq<Kind>) {
    forall i :: 0 <= i < |t| ==>
      !t[i].AttemptMoved? && !t[i].ScheduleTriggered? && !t[i].ResultRecorded? && !t[i].Duplicate?
  }

  lemma {:induction false} PlainSaysNothing(t: seq<Kind>)
    requires Plain(t)
    ensures OnlyAttempts(t) == [] && OnlySchedule(t) == [] && OnlyResults(t) == [] && Duplicates(t) == 0
  {
    if t != [] {
      forall i | 0 <= i < |t[1..]| ensures t[1..][i] == t[i + 1] {}
      PlainSaysNothing(t[1..]);
    }
  }

  lemma OnlyConcat(a: seq<Kind>, b: seq<Kind>)
    ensures OnlyAttempts(a + b) == OnlyAttempts(a) + OnlyAttempts(b)
    ensures OnlySchedule(a + b) == OnlySchedule(a) + OnlySchedule(b)
    ensures OnlyResults(a + b) == OnlyResults(a) + OnlyResults(b)
    ensures Duplicates(a + b) == Duplicates(a) + Duplicates(b)
  {
    OnlyAttemptsConcat(a, b);
    OnlyScheduleConcat(a, b);
    OnlyResultsConcat(a, b);
    DuplicatesConcat(a, b);
  }

  lemma SingleKind(k: Kind)
    ensures OnlyAttempts([k]) == if k.AttemptMoved? then [k] else []
    ensures OnlySchedule([k]) == if k.ScheduleTriggered? then [k] else []
    ensures OnlyResults([k]) == if k.ResultRecorded? then [k] else []
    ensures Duplicates([k]) == if k.Duplicate? then 1 else 0
  {
    assert [k][1..] == [];
  }

  lemma ClaimFiles(d: Delivery, number: nat)
    ensures OnlyAttempts(Claim(d, number)) == [Claim(d, number)[1]]
    ensures OnlySchedule(Claim(d, number)) == [Claim(d, number)[0]]
    ensures OnlyResults(Claim(d, number)) == [] && Duplicates(Claim(d, number)) == 0
  {
    hide OnlyAttempts, OnlySchedule, OnlyResults, Duplicates;
    var claim := Claim(d, number);
    assert claim == [claim[0]] + [claim[1]];
    SingleKind(claim[0]);
    SingleKind(claim[1]);
    OnlyConcat([claim[0]], [claim[1]]);
  }

  /** An attempt brackets whatever happened in between. */
  lemma BracketedBy(d: Delivery, number: nat, middle: seq<Kind>, outcome: string)
    requires OnlyAttempts(middle) == [] && OnlySchedule(middle) == []
    ensures var t := Claim(d, number) + middle + [AttemptMoved(number, d.mode, Terminal, outcome)];
      && OnlyAttempts(t) == [Claim(d, number)[1], AttemptMoved(number, d.mode, Terminal, outcome)]
      && OnlySchedule(t) == [Claim(d, number)[0]]
      && OnlyResults(t) == OnlyResults(middle)
      && Duplicates(t) == Duplicates(middle)
  {
    hide OnlyAttempts, OnlySchedule, OnlyResults, Duplicates, Claim;
    var claim := Claim(d, number);
    var end := AttemptMoved(number, d.mode, Terminal, outcome);
    ClaimFiles(d, number);
    SingleKind(end);
    OnlyConcat(claim, middle);
    OnlyConcat(claim + middle, [end]);
  }

  lemma LaterTraceFiles(d: Delivery, number: nat)
    ensures OnlyAttempts(LaterTrace(d, number)) == [Claim(d, number)[1],
      AttemptMoved(number, d.mode, Terminal, if d.mode.Resume? then "already-completed" else "deduplicated")]
    ensures OnlySchedule(LaterTrace(d, number)) == [Claim(d, number)[0]]
    ensures OnlyResults(LaterTrace(d, number)) == []
    ensures Duplicates(LaterTrace(d, number)) == if d.mode.Trigger? then 1 else 0
  {
    hide OnlyAttempts, OnlySchedule, OnlyResults, Duplicates;
    var noted := if d.mode.Resume? then AlreadyCompleted(d.trigger) else Duplicate(d.trigger);
    var outcome := if d.mode.Resume? then "already-completed" else "deduplicated";
    SingleKind(noted);
    BracketedBy(d, number, [noted], outcome);
    assert LaterTrace(d, number) == Claim(d, number) + [noted] + [AttemptMoved(number, d.mode, Terminal, outcome)];
  }

  lemma SettlementEndsInAResult(s: Settlement)
    requires s.Recovered? ==> !s.plan.SafeStop?
    ensures var t := SettlementTrace(s);
      t != [] && Plain(t[..|t| - 1]) && t[|t| - 1].ResultRecorded?
  {
    var t := SettlementTrace(s);
    match s
    case Direct(e, r) =>
      assert t[..|t| - 1] == [];
    case Recovered(plan) =>
      match plan
      case Reconcile(_, _) =>
        assert |t| == 5;
      case SafeStop =>
      case RetryOnce(_, _) =>
        assert |t| == 6;
  }

  lemma SettlementFiles(s: Settlement)
    requires s.Recovered? ==> !s.plan.SafeStop?
    ensures OnlyAttempts(SettlementTrace(s)) == [] && OnlySchedule(SettlementTrace(s)) == []
    ensures |OnlyResults(SettlementTrace(s))| == 1 && Duplicates(SettlementTrace(s)) == 0
  {
    hide OnlyAttempts, OnlySchedule, OnlyResults, Duplicates;
    SettlementEndsInAResult(s);
    hide SettlementTrace;
    var t := SettlementTrace(s);
    var front, last := t[..|t| - 1], t[|t| - 1];
    assert t == front + [last];
    PlainSaysNothing(front);
    SingleKind(last);
    OnlyConcat(front, [last]);
  }

  lemma SetUpIsPlain(fault: Option<Fault>)
    ensures Plain([ProviderReady] + InitialTrace(fault))
  {
  }

  lemma FirstTraceFiles(d: Delivery, s: Settlement, status: string)
    requires s.Recovered? ==> !s.plan.SafeStop?
    ensures OnlyAttempts(FirstTrace(d, s, status)) == [Claim(d, 1)[1], AttemptMoved(1, d.mode, Terminal, status)]
    ensures OnlySchedule(FirstTrace(d, s, status)) == [Claim(d, 1)[0]]
    ensures |OnlyResults(FirstTrace(d, s, status))| == 1 && Duplicates(FirstTrace(d, s, status)) == 0
  {
    hide OnlyAttempts, OnlySchedule, OnlyResults, Duplicates, InitialTrace, SettlementTrace, Claim;
    var plain := [ProviderReady] + InitialTrace(FaultOf(d));
    SetUpIsPlain(FaultOf(d));
    PlainSaysNothing(plain);
    SettlementFiles(s);
    OnlyConcat(plain, SettlementTrace(s));
    BracketedBy(d, 1, plain + SettlementTrace(s), status);
    assert FirstTrace(d, s, status)
        == Claim(d, 1) + (plain + SettlementTrace(s)) + [AttemptMoved(1, d.mode, Terminal, status)];
  }

  /** Dropping the last delivery from a case drops its own steps and nothing else. */
  lemma CaseTraceSnoc(ds: seq<Delivery>, s: Settlement, status: string)
    requires |ds| > 1
    ensures CaseTrace(ds, s, status) == CaseTrace(ds[..|ds| - 1], s, status) + LaterTrace(ds[|ds| - 1], |ds|)
  {
  }

  lemma NothingDelivered(s: Settlement, status: string)
    ensures CaseTrace([], s, status) == [RunCreated]
  {
  }

  /** The trace grows by one delivery at a time. */
  lemma CaseTraceGrows(ds: seq<Delivery>, i: nat, s: Settlement, status: string)
    requires i < |ds|
    ensures i == 0 ==> forall s0, status0 ::
      CaseTrace(ds[..1], s, status) == CaseTrace(ds[..0], s0, status0) + FirstTrace(ds[0], s, status)
    ensures i > 0 ==> CaseTrace(ds[..i + 1], s, status) == CaseTrace(ds[..i], s, status) + LaterTrace(ds[i], i + 1)
  {
    hide FirstTrace, LaterTrace;
    if i > 0 {
      CaseTraceSnoc(ds[..i + 1], s, status);
      assert ds[..i + 1][..i] == ds[..i] && ds[..i + 1][i] == ds[i];
    }
  }

  /**
   For every list of deliveries: one schedule record per delivery, one started/terminal
   pair per delivery under distinct numbers, one result, and one duplicate event per
   trigger-mode delivery after the first.
   */
  lemma {:induction false} CaseTraceFiles(ds: seq<Delivery>, s: Settlement, status: string)
    requires s.Recovered? ==> !s.plan.SafeStop?
    ensures OnlySchedule(CaseTrace(ds, s, status)) == ScheduleOfDeliveries(ds)
    ensures OnlyAttempts(CaseTrace(ds, s, status)) == AttemptsOfDeliveries(ds, status)
    ensures |OnlyResults(CaseTrace(ds, s, status))| == if ds == [] then 0 else 1
    ensures Duplicates(CaseTrace(ds, s, status)) == LaterTriggers(ds)
    decreases |ds|
  {
    hide OnlyAttempts, OnlySchedule, OnlyResults, Duplicates;
    if |ds| <= 1 {
      PlainSaysNothing([RunCreated]);
      if |ds| == 1 {
        FirstTraceFiles(ds[0], s, status);
        OnlyConcat([RunCreated], FirstTrace(ds[0], s, status));
        assert CaseTrace(ds, s, status) == [RunCreated] + FirstTrace(ds[0], s, status);
        assert ds[..0] == [];
      } else {
        assert CaseTrace(ds, s, status) == [RunCreated];
      }
    } else {
      var front, d := ds[..|ds| - 1], ds[|ds| - 1];
      CaseTraceFiles(front, s, status);
      CaseTraceSnoc(ds, s, status);
      LaterTraceFiles(d, |ds|);
      OnlyConcat(CaseTrace(front, s, status), LaterTrace(d, |ds|));
    }
  }

  /** The attempts file read two records at a time: delivery `i` is started and terminal attempt `i + 1`. */
  lemma {:induction false} DeliveryAt(ds: seq<Delivery>, status: string, i: nat)
    requires i < |ds|
    ensures |ScheduleOfDeliveries(ds)| == |ds| && |AttemptsOfDeliveries(ds, status)| == 2 * |ds|
    ensures ScheduleOfDeliveries(ds)[i] == Claim(ds[i], i + 1)[0]
    ensures AttemptsOfDeliveries(ds, status)[2 * i] == Claim(ds[i], i + 1)[1]
    ensures var end := AttemptsOfDeliveries(ds, status)[2 * i + 1];
      end.AttemptMoved? && end == AttemptMoved(i + 1, ds[i].mode, Terminal, end.outcome)
    decreases |ds|
  {
    var front := ds[..|ds| - 1];
    DeliveriesHaveLength(front, status);
    if i < |front| {
      DeliveryAt(front, status, i);
      assert AttemptsOfDeliveries(ds, status)[2 * i] == AttemptsOfDeliveries(front, status)[2 * i];
      assert AttemptsOfDeliveries(ds, status)[2 * i + 1] == AttemptsOfDeliveries(front, status)[2 * i + 1];
    }
  }

  lemma {:induction false} DeliveriesHaveLength(ds: seq<Delivery>, status: string)
    ensures |ScheduleOfDeliveries(ds)| == |ds| && |AttemptsOfDeliveries(ds, status)| == 2 * |ds|
    decreases |ds|
  {
    if ds != [] {
      DeliveriesHaveLength(ds[..|ds| - 1], status);
    }
  }

  /**
   The runner expects one duplicate per delivery after the first.  That is the right number
   exactly for the lists in which no later delivery is a resume.
   */
  lemma {:induction false} ExpectedDuplicates(ds: seq<Delivery>)
    requires ds != []
    ensures |ds| - 1 == LaterTriggers(ds) <==> forall i :: 1 <= i < |ds| ==> ds[i].mode.Trigger?
    ensures LaterTriggers(ds) <= |ds| - 1
    decreases |ds|
  {
    if |ds| > 1 {
      var front := ds[..|ds| - 1];
      ExpectedDuplicates(front);
      assert (forall i :: 1 <= i < |front| ==> front[i].mode.Trigger?) <==>
        (forall i :: 1 <= i < |ds| - 1 ==> ds[i].mode.Trigger?);
    }
  }

  /** The one fixed scenario with a resume is given its own expectation, and it is the right one. */
  lemma InterruptedRetryScenario(a: string, b: string, c: string)
    ensures LaterTriggers([Delivery(Trigger, a, true), Delivery(Resume, b, false), Delivery(Trigger, c, false)]) == 1
  {
    var ds := [Delivery(Trigger, a, true), Delivery(Resume, b, false), Delivery(Trigger, c, false)];
    assert LaterTriggers(ds[..2][..1]) == 0;
    assert LaterTriggers(ds[..2]) == 0;
  }

  // ----- The verdict and the run -----

  /** `verify_c3_case`. */
  predicate VerifyC3(l: Ledger, f: Files, invocations: nat, expectedDuplicates: nat) {
    && l.state.threadId.Some?
    && l.state.turnId.Some?
    && |l.schedule| == invocations
    && |l.attempts| == invocations * 2
    && Duplicates(Trace(l.events)) == expectedDuplicates
    && |f.effects| == 1
    && |f.toolResults| >= 1
    && |l.results| == 1
    && l.state.status.Completed?
    && l.state.effectStatus.Applied?
    && forall i :: 0 <= i < |l.events| ==> l.events[i].ids == l.ids
  }

  /** What the ledger files hold after an exception-free case. */
  ghost predicate DeliveredOnce(l: Ledger, ds: seq<Delivery>) {
    && |l.schedule| == |ds|
    && |l.attempts| == 2 * |ds|
    && (forall i :: 0 <= i < |ds| ==>
          l.schedule[i] == ScheduleEntry(l.ids, ds[i].trigger, ds[i].trigger == "missed", ds[i].trigger == "delayed"))
    && (forall i :: 0 <= i < |ds| ==> Attempted(l.attempts[2 * i], i + 1, ds[i].mode, Started))
    && (forall i :: 0 <= i < |ds| ==> Attempted(l.attempts[2 * i + 1], i + 1, ds[i].mode, Terminal))
    && |l.results| == (if ds == [] then 0 else 1)
    && Duplicates(Trace(l.events)) == LaterTriggers(ds)
  }

  predicate Attempted(a: AttemptRecord, number: nat, mode: Mode, phase: Phase) {
    a.attempt == number && a.mode == mode && a.phase == phase
  }

  lemma {:induction false} ScheduleEntriesOf(events: seq<Event>, ids: Ids)
    requires Numbered(events, ids)
    ensures forall i :: 0 <= i < |ScheduleOf(events)| ==>
      var r := ScheduleOf(events)[i]; r == ScheduleEntry(ids, r.trigger, r.missed, r.late)
  {
    if events != [] {
      ScheduleEntriesOf(events[..|events| - 1], ids);
    }
  }

  /** Exactly-once delivery: the trace of a case fixes every ledger file. */
  lemma TraceMeansDeliveredOnce(l: Ledger, ds: seq<Delivery>, s: Settlement, status: string)
    requires Coherent(l) && Trace(l.events) == CaseTrace(ds, s, status)
    requires s.Recovered? ==> !s.plan.SafeStop?
    ensures DeliveredOnce(l, ds)
  {
    hide OnlyAttempts, OnlySchedule, OnlyResults, CaseTrace, Duplicates, FaultsOf,
      AttemptsOf, ResultsOf, ScheduleOf, Trace;
    hide AttemptsOfDeliveries, ScheduleOfDeliveries;
    FilesFromTrace(l);
    CaseTraceFiles(ds, s, status);
    DeliveriesHaveLength(ds, status);
    assert |ScheduleKinds(l.schedule)| == |l.schedule| && |AttemptKinds(l.attempts)| == |l.attempts|
      && |ResultKinds(l.results)| == |l.results|;
    ScheduleEntriesOf(l.events, l.ids);
    forall i | 0 <= i < |ds|
      ensures l.schedule[i] ==
        ScheduleEntry(l.ids, ds[i].trigger, ds[i].trigger == "missed", ds[i].trigger == "delayed")
      ensures Attempted(l.attempts[2 * i], i + 1, ds[i].mode, Started)
      ensures Attempted(l.attempts[2 * i + 1], i + 1, ds[i].mode, Terminal)
    {
      DeliveryAt(ds, status, i);
      assert ScheduleKinds(l.schedule)[i] ==
        ScheduleTriggered(l.schedule[i].trigger, l.schedule[i].missed, l.schedule[i].late);
      assert AttemptKinds(l.attempts)[2 * i].attempt == l.attempts[2 * i].attempt;
      assert AttemptKinds(l.attempts)[2 * i + 1].attempt == l.attempts[2 * i + 1].attempt;
    }
  }

  // ----- The dispatch on its script alone -----

  /**
   How the dispatch went: what the last reading of the ledgers showed, the reaction at which a
   second turn was dispatched, if one was, and how many reactions there are in the end.
   */
  datatype Dispatch = Dispatch(
    settlement: Settlement, status: string, read: Files, second: Option<nat>, end: nat)

  /** The dispatch of a delivery after `from` reactions; `None` when it raises. */
  ghost function DispatchOf(tool: Tool, script: seq<Reaction>, from: nat, interrupted: bool): (d: Option<Dispatch>)
    requires from <= |script|
    ensures d.Some? ==> from + 3 < d.value.end <= |script|
    ensures d.Some? && d.value.second.Some? ==> d.value.second.value <= d.value.end
  {
    var fault := if interrupted then Some(ProcessInterrupt) else None;
    if AfterStart(script[from..], fault).None? then None
    else
      var status, end :=
        StrikeEnd(script[from + 4..], fault), |script| - |AfterStart(script[from..], fault).value|;
      if interrupted then RecoveryOf(tool, script, from, status)
      else
        var read := FilesAfter(tool, script, from + 3, end, end);
        Some(Dispatch(Direct(|read.effects|, |read.toolResults|), status, read, None, end))
  }

  ghost function RecoveryOf(tool: Tool, script: seq<Reaction>, from: nat, status: string): (d: Option<Dispatch>)
    requires from <= |script|
    ensures d.Some? ==> from + 3 < d.value.end <= |script|
    ensures d.Some? && d.value.second.Some? ==> d.value.second.value <= d.value.end
  {
    if AfterReading(script[from..], ProcessInterrupt).None? then None
    else RecoveryAt(tool, script, from, |script| - |AfterReading(script[from..], ProcessInterrupt).value|, status)
  }

  /** Recovery after `at` reactions: a retry is followed by another reading. */
  ghost function RecoveryAt(tool: Tool, script: seq<Reaction>, from: nat, at: nat, status: string)
    : (d: Option<Dispatch>)
    requires at <= |script|
    ensures d.Some? ==> at <= d.value.end <= |script| && (d.value.second.Some? ==> d.value.second.value == at)
  {
    var course := ActingAt(tool, script, ProcessInterrupt, from + 3, at);
    if course.None? then None
    else if course.value.plan.RetryOnce? then
      Some(Dispatch(
        Recovered(course.value.plan), status, course.value.files, Some(at), TurnEnd(script, at)))
    else
      Some(Dispatch(Recovered(course.value.plan), status, course.value.seen, None, TurnEnd(script, at)))
  }

  /** Nothing is in the way of the tool while the later deliveries are made: time passes before each of them. */
  function MetInAll(script: seq<Reaction>, end: nat, later: nat): nat {
    if end + later < |script| then end + later else |script|
  }

  /** The turn ended without an interruption: complete the run with what the ledgers hold. */
  method FinishDirect(host: Host) returns (s: Settlement)
    requires host.Valid() && host.ledger.results == []
    modifies host.ledger
    ensures host.Valid() && |host.ledger.results| == 1
    ensures s == Direct(|host.files.effects|, |host.files.toolResults|)
    ensures Trace(host.ledger.events) == old(Trace(host.ledger.events)) + SettlementTrace(s)
    ensures host.ledger.state.status.Completed?
    ensures host.ledger.state.threadId == old(host.ledger.state.threadId)
    ensures host.ledger.state.turnId == old(host.ledger.state.turnId)
    ensures host.ledger.state.effectStatus == old(host.ledger.state.effectStatus)
  {
    hide Coherent, Trace, WorldOk, Host.Valid;
    host.Assign(host.ledger.state.(status := Completed, phase := "completed", lastCheckpoint := "turn-completed"));
    host.Finish("completed", |host.files.effects|, |host.files.toolResults|);
    s := Direct(|host.files.effects|, |host.files.toolResults|);
  }

  /** The turn was interrupted: recover. */
  method FinishRecovered(host: Host, ghost script: seq<Reaction>, ghost first: nat)
    returns (ok: bool, s: Settlement, ghost at: nat, ghost read: Files)
    requires host.Valid() && host.tool.toolClass.Idempotent? && host.turns == 1
    requires host.ledger.results == [] && host.ledger.state.retryCount == 0
    requires Followed(script, host.history, host.script, first, |host.history|) && |host.history| >= first
    requires host.ledger.state.threadId.Some? && host.ledger.state.turnId.Some?
    modifies host`files, host`behind, host`script, host`history, host`turns, host.ledger
    ensures host.Valid() && host.turns <= 2 && |host.ledger.results| <= 1
    ensures host.turns == 2 ==> s.Recovered? && s.plan.RetryOnce?
    ensures s.Recovered? ==> !s.plan.SafeStop?
    ensures var reading := AfterResume(old(host.script), true, old(host.ledger.state.threadId).value);
      && (ok ==> reading.Some?)
      && (reading.Some? ==>
            && at == |script| - |reading.value| && at <= |script|
            && (ok <==> ActingAt(host.tool, script, ProcessInterrupt, first, at).Some?))
    ensures ok ==>
      var course := ActingAt(host.tool, script, ProcessInterrupt, first, at).value;
      && s == Recovered(course.plan) && read == (if course.plan.RetryOnce? then course.files else course.seen)
      && host.turns == (if course.plan.RetryOnce? then 2 else 1)
      && (host.ledger.state.effectStatus.Applied? <==> read.effects != [])
      && |host.history| == TurnEnd(script, at)
      && Followed(script, host.history, host.script, first, if host.turns == 2 then at else |host.history|)
    ensures ok ==>
      && s.Recovered? && Trace(host.ledger.events) == old(Trace(host.ledger.events)) + SettlementTrace(s)
      && host.ledger.state.status.Completed? && host.ledger.state.threadId.Some? && host.ledger.state.turnId.Some?
  {
    hide Coherent, Trace, WorldOk, RecoveryTrace, Host.Valid, Grew, Followed, WorldAfter, AllHeard, Heard, AsksIn;
    hide ActingAt, AfterResume, AfterTurn;
    var plan, seen;
    ghost var done;
    ok, plan, seen, done, at := RecoverCase(host, ProcessInterrupt, script, first);
    s := if plan.SafeStop? then Direct(0, 0) else Recovered(plan);
    read := if plan.RetryOnce? then host.files else seen;
  }

  /** Claim the key, dispatch, and read the ledgers. */
  method ClaimAndRun(host: Host, fault: Option<Fault>, ghost script: seq<Reaction>)
    returns (ok: bool, status: string)
    requires host.Valid() && host.turns == 0
    requires Followed(script, host.history, host.script, |host.history| + 3, |host.history|)
    modifies host`files, host`behind, host`script, host`history, host`turns, host.ledger
    ensures host.Valid() && host.turns <= 1
    ensures host.ledger.results == old(host.ledger.results)
    ensures host.ledger.state.retryCount == old(host.ledger.state.retryCount)
    ensures ok <==> AfterStart(old(host.script), fault).Some?
    ensures ok ==>
      && host.script == AfterStart(old(host.script), fault).value && host.turns == 1
      && Followed(script, host.history, host.script, |old(host.history)| + 3, |host.history|)
      && |host.history| >= |old(host.history)| + 3 && |host.history| == |script| - |host.script|
      && host.files == FilesAfter(host.tool, script, |old(host.history)| + 3, |host.history|, |host.history|)
      && status == StrikeEnd(old(host.script)[4..], fault)
      && host.ledger.state.threadId == Some(old(host.script)[2].reply.value)
      && (host.ledger.state.effectStatus.Applied? <==> host.files.effects != [])
    ensures ok ==>
      && Trace(host.ledger.events) == old(Trace(host.ledger.events)) + StartTrace(fault)
      && host.ledger.state.turnId.Some?
  {
    hide Coherent, Trace, WorldOk, StartTrace, Host.Valid, Grew, WorldAfter, AfterStart, StrikeEnd, AllHeard;
    host.Assign(host.ledger.state.(phase := "claimed", lastCheckpoint := "idempotency-claimed",
      effectStatus := Pending));
    ghost var first, done := |host.history| + 3, 0;
    ok, status, done := Start(host, fault, script);
    if !ok { return; }
    StartedOnly(host, script, first);
    assert StartTrace(fault)[..done] == StartTrace(fault);
    var seen := host.UpdateEffectStatus();
  }

  /** From the claim of the key to the settled run, for the delivery that dispatches. */
  method DispatchClaimed(host: Host, interrupted: bool, ghost script: seq<Reaction>)
    returns (ok: bool, status: string, s: Settlement)
    requires host.Valid() && host.tool.toolClass.Idempotent? && host.turns == 0
    requires host.ledger.results == [] && host.ledger.state.retryCount == 0
    requires Followed(script, host.history, host.script, |host.history| + 3, |host.history|)
    modifies host`files, host`behind, host`script, host`history, host`turns, host.ledger
    ensures host.Valid() && host.turns <= 2 && |host.ledger.results| <= 1
    ensures host.turns == 2 ==> interrupted && s.Recovered? && s.plan.RetryOnce?
    ensures s.Recovered? ==> !s.plan.SafeStop?
    ensures ok <==> DispatchOf(host.tool, script, |old(host.history)|, interrupted).Some?
    ensures ok ==> Went(host, script, |old(host.history)|, interrupted, s, status)
    ensures ok ==>
      && Trace(host.ledger.events) == old(Trace(host.ledger.events))
           + StartTrace(if interrupted then Some(ProcessInterrupt) else None) + SettlementTrace(s)
      && (s.Recovered? <==> interrupted)
      && host.ledger.state.status.Completed? && host.ledger.state.threadId.Some? && host.ledger.state.turnId.Some?
  {
    hide Coherent, Trace, WorldOk, StartTrace, SettlementTrace, Host.Valid, Grew, WorldAfter, AfterStart, AfterResume;
    hide ActingAt, StrikeEnd, Followed, DispatchOf, RecoveryOf, TurnEnd, Went;
    s := Direct(0, 0);
    ghost var from, begin := |host.history|, host.script;
    FollowedRest(script, host.history, host.script, from + 3, from);
    PlainDispatch(host.tool, script, from);
    InterruptedDispatch(host.tool, script, from);
    ok, status := ClaimAndRun(host, if interrupted then Some(ProcessInterrupt) else None, script);
    if !ok { return; }
    assert begin[4..] == script[from + 4..] && begin[2] == script[from + 2];
    if interrupted {
      RecoveredDispatch(host.tool, script, from, status);
      ghost var at, read;
      ok, s, at, read := FinishRecovered(host, script, from + 3);
      if ok {
        WentThroughRecovery(host, script, from, s, status, at, read);
      }
    } else {
      s := FinishDirect(host);
      WentStraight(host, script, from, s, status);
    }
  }

  lemma WentStraight(host: Host, script: seq<Reaction>, from: nat, s: Settlement, status: string)
    requires from <= |host.history| <= |script| && host.turns == 1
    requires Followed(script, host.history, host.script, from + 3, |host.history|)
    requires host.files == FilesAfter(host.tool, script, from + 3, |host.history|, |host.history|)
    requires DispatchOf(host.tool, script, from, false) ==
      Some(Dispatch(s, status, host.files, None, |host.history|))
    requires host.ledger.state.effectStatus.Applied? <==> host.files.effects != []
    ensures Went(host, script, from, false, s, status)
  {
    hide Followed, DispatchOf, WorldAfter;
  }

  lemma WentThroughRecovery(
    host: Host, script: seq<Reaction>, from: nat, s: Settlement, status: string, at: nat, read: Files)
    requires host.turns == 1 || host.turns == 2
    requires from <= |script| && at <= |script| && |host.history| == TurnEnd(script, at)
    requires Followed(script, host.history, host.script, from + 3, if host.turns == 2 then at else |host.history|)
    requires DispatchOf(host.tool, script, from, true) ==
      Some(Dispatch(s, status, read, if host.turns == 2 then Some(at) else None, |host.history|))
    requires host.ledger.state.effectStatus.Applied? <==> read.effects != []
    ensures Went(host, script, from, true, s, status)
  {
    hide Followed, DispatchOf, WorldAfter, TurnEnd;
  }

  lemma FollowedRest(
    script: seq<Reaction>, history: seq<Moment>, rest: seq<Reaction>, first: nat, second: nat)
    requires Followed(script, history, rest, first, second)
    ensures |history| <= |script| && rest == script[|history|..]
  {
  }

  /** Without an interruption the ledgers are read when the turn is over. */
  lemma PlainDispatch(tool: Tool, script: seq<Reaction>, from: nat)
    requires from <= |script|
    ensures var d, started := DispatchOf(tool, script, from, false), AfterStart(script[from..], None);
      && (started.None? ==> d.None?)
      && (started.Some? ==>
            var end := |script| - |started.value|;
            var read := FilesAfter(tool, script, from + 3, end, end);
            d == Some(Dispatch(
              Direct(|read.effects|, |read.toolResults|), StrikeEnd(script[from + 4..], None), read, None, end)))
  {
    hide AfterStart, StrikeEnd, WorldAfter;
  }

  lemma InterruptedDispatch(tool: Tool, script: seq<Reaction>, from: nat)
    requires from <= |script|
    ensures var fault := Some(ProcessInterrupt);
      var d, started := DispatchOf(tool, script, from, true), AfterStart(script[from..], fault);
      && (started.None? ==> d.None?)
      && (started.Some? ==> d == RecoveryOf(tool, script, from, StrikeEnd(script[from + 4..], fault)))
  {
    hide AfterStart, StrikeEnd, RecoveryOf;
  }

  /** With one they are read after the resume, and again after a retry. */
  lemma RecoveredDispatch(tool: Tool, script: seq<Reaction>, from: nat, status: string)
    requires from <= |script| && AfterStart(script[from..], Some(ProcessInterrupt)).Some?
    ensures var started := AfterStart(script[from..], Some(ProcessInterrupt)).value;
      var reading := AfterResume(started, true, script[from + 2].reply.value);
      && (reading.None? ==> RecoveryOf(tool, script, from, status).None?)
      && (reading.Some? ==>
            RecoveryOf(tool, script, from, status) ==
            RecoveryAt(tool, script, from, |script| - |reading.value|, status))
  {
    ReadingAfterStart(script[from..], ProcessInterrupt);
    assert script[from..][2] == script[from + 2];
    hide AfterStart, AfterResume, AfterReading, RecoveryAt;
  }

  /** The host has gone through the dispatch as its script says, and its status is that of the last reading. */
  ghost predicate Went(
    host: Host, script: seq<Reaction>, from: nat, interrupted: bool, s: Settlement, status: string)
    requires from <= |script|
    reads host, host.ledger
  {
    var d := DispatchOf(host.tool, script, from, interrupted);
    && d.Some? && s == d.value.settlement && status == d.value.status
    && host.turns == (if d.value.second.Some? then 2 else 1) && |host.history| == d.value.end
    && Followed(script, host.history, host.script, from + 3,
         if d.value.second.Some? then d.value.second.value else |host.history|)
    && (host.ledger.state.effectStatus.Applied? <==> d.value.read.effects != [])
  }

  /** A delivery that finds the run completed: record it, dispatch nothing. */
  method Deduplicate(host: Host, d: Delivery, number: nat)
    requires host.Valid()
    modifies host.ledger
    ensures host.Valid()
    ensures Advanced(old(host.ledger.View()), host.ledger.View(), LaterTrace(d, number)[2..], old(host.ledger.state))
  {
    hide Coherent, Trace, WorldOk;
    if d.mode.Resume? {
      host.Note(AlreadyCompleted(d.trigger));
      host.Attempt(number, d.mode, Terminal, "already-completed");
    } else {
      host.Note(Duplicate(d.trigger));
      host.Attempt(number, d.mode, Terminal, "deduplicated");
    }
  }

  datatype Report = Report(
    raised: bool, settlement: Settlement, status: string, turns: nat, ledger: Ledger, files: Files, passed: bool)

  function CaseIds(runId: string): Ids {
    Ids(runId, "codex-c3-c4-v1", "codex-c3-c4-v1:" + runId)
  }

  function CaseTool(runId: string, locked: bool): Tool {
    Sink(runId + ":operation-1", CaseIds(runId).idempotencyKey, Idempotent, locked)
  }

  /** The dispatch of the first delivery, before which time passes as well; there is none without a delivery. */
  ghost function FirstDispatch(tool: Tool, script: seq<Reaction>, ds: seq<Delivery>): Option<Dispatch>
    requires ds != []
  {
    DispatchOf(tool, script, |script| - |Rest(script)|, ds[0].interrupted)
  }

  /** What the last reading of the ledgers showed. */
  ghost function LastReading(tool: Tool, script: seq<Reaction>, ds: seq<Delivery>): Files
    requires ds != []
  {
    if FirstDispatch(tool, script, ds).Some? then FirstDispatch(tool, script, ds).value.read else EMPTY
  }

  /** Settlement, status, turns and ledgers are those that the script leads to. */
  ghost predicate AsScripted(r: Report, tool: Tool, script: seq<Reaction>, ds: seq<Delivery>)
    requires ds != []
  {
    var d := FirstDispatch(tool, script, ds);
    && d.Some? && r.settlement == d.value.settlement && r.status == d.value.status
    && r.turns == (if d.value.second.Some? then 2 else 1)
    && var met := MetInAll(script, d.value.end, |ds| - 1);
       r.files == FilesAfter(
         tool, script, FIRST, if d.value.second.Some? then d.value.second.value else met, met)
  }

  /** `run_c3_case`, for any list of deliveries. */
  method RunC3Case(runId: string, ds: seq<Delivery>, expectedDuplicates: nat, locked: bool, script: seq<Reaction>)
    returns (r: Report)
    ensures Coherent(r.ledger) && r.ledger.ids == CaseIds(runId)
    // On every run: at most one effect behind the locked sink, one result, and two turns that may call the tool.
    ensures locked ==> |r.files.effects| <= 1
    ensures |r.ledger.results| <= 1 && r.turns <= 2
    ensures r.turns == 2 ==> ds != [] && ds[0].interrupted
    ensures r.raised ==> !r.passed && r.ledger.state.status.Unknown?
    // The run raises exactly when the script does not let its first delivery through.
    ensures r.raised <==> ds != [] && FirstDispatch(CaseTool(runId, locked), script, ds).None?
    // Without an exception only the first delivery dispatches, and the ledgers show one delivery of the key.
    ensures !r.raised ==>
      && Trace(r.ledger.events) == CaseTrace(ds, r.settlement, r.status)
      && (ds != [] ==> (r.settlement.Recovered? <==> ds[0].interrupted))
      && DeliveredOnce(r.ledger, ds)
    // It goes as the script says, and the tool may go on during the later deliveries.
    ensures !r.raised && ds != [] ==> AsScripted(r, CaseTool(runId, locked), script, ds)
    // The case passes exactly when the one effect is visible and was so at the last reading, a result is
    // visible, and the expected duplicates are the later triggers.
    ensures !r.raised && ds != [] ==> (r.passed <==>
      && expectedDuplicates == LaterTriggers(ds)
      && |r.files.effects| == 1
      && |r.files.toolResults| >= 1
      && LastReading(CaseTool(runId, locked), script, ds).effects != [])
  {
    hide Coherent, Trace, FirstTrace, LaterTrace, DeliveredOnce, VerifyC3, CaseTrace, Host.Valid, WorldOk, FilesOk;
    hide Followed, DispatchOf, WorldAfter, Play, Since, Going;
    var ledger := new CaseLedger(CaseIds(runId));
    var host := new Host(ledger, CaseTool(runId, locked), script);
    var ok, s, status := true, Direct(0, 0), "";
    assert CaseTrace([], s, status) == [RunCreated] by { NothingDelivered(s, status); }
    for i := 0 to |ds|
      invariant host.Valid() && host.ledger == ledger && fresh(host) && fresh(ledger)
      invariant host.tool == CaseTool(runId, locked)
      invariant Trace(ledger.events) == CaseTrace(ds[..i], s, status)
      invariant s.Recovered? ==> !s.plan.SafeStop?
      invariant if i == 0 then Untouched(ledger.View()) && host.turns == 0 else Done(ledger.View())
      invariant i > 0 ==> (s.Recovered? <==> ds[0].interrupted)
      invariant |ledger.results| <= 1 && host.turns <= 2 && (host.turns == 2 ==> i > 0 && ds[0].interrupted)
      invariant i == 0 ==> host.history == [] && host.script == script
      invariant i > 0 ==> Going(host, script, ds, i, s, status)
    {
      LedgerOf(host);
      TraceMeansDeliveredOnce(ledger.View(), ds[..i], s, status);
      var number := AttemptNumber(ledger.View(), ds[..i]);
      ok, s, status := Deliver(host, ds, i, number, s, status, script);
      if !ok {
        Fails(host);
        LedgerOf(host);
        HostFiles(host);
        r := Report(true, s, status, host.turns, ledger.View(), host.files, false);
        return;
      }
      CaseTraceGrows(ds, i, s, status);
    }
    assert ds[..|ds|] == ds;
    LedgerOf(host);
    HostFiles(host);
    TraceMeansDeliveredOnce(ledger.View(), ds, s, status);
    var passed := VerifyC3(ledger.View(), host.files, |ds|, expectedDuplicates);
    VerifyC3Exactly(ledger.View(), host.files, ds, expectedDuplicates);
    if ds != [] {
      WentOn(host, script, ds, |ds|, s, status);
    }
    r := Report(false, s, status, host.turns, ledger.View(), host.files, passed);
  }

  const FIRST := 4

  /** After `i` deliveries the host has gone through the dispatch and one pause before each later delivery. */
  ghost predicate Going(
    host: Host, script: seq<Reaction>, ds: seq<Delivery>, i: nat, s: Settlement, status: string)
    requires ds != [] && i > 0
    reads host, host.ledger
  {
    var d := FirstDispatch(host.tool, script, ds);
    && d.Some? && s == d.value.settlement && status == d.value.status
    && host.turns == (if d.value.second.Some? then 2 else 1)
    && |host.history| == MetInAll(script, d.value.end, i - 1)
    && Followed(script, host.history, host.script, FIRST,
         if d.value.second.Some? then d.value.second.value else |host.history|)
    && (d.value.second.Some? ==> d.value.second.value <= |host.history|)
    && (host.ledger.state.effectStatus.Applied? <==> d.value.read.effects != [])
  }

  lemma WentOn(host: Host, script: seq<Reaction>, ds: seq<Delivery>, i: nat, s: Settlement, status: string)
    requires ds != [] && i > 0 && host.Valid() && Going(host, script, ds, i, s, status)
    ensures FirstDispatch(host.tool, script, ds).Some?
    ensures var d := FirstDispatch(host.tool, script, ds).value;
      var met := MetInAll(script, d.end, i - 1);
      && s == d.settlement && status == d.status && host.turns == (if d.second.Some? then 2 else 1)
      && (host.ledger.state.effectStatus.Applied? <==> LastReading(host.tool, script, ds).effects != [])
      && host.files == FilesAfter(host.tool, script, FIRST, if d.second.Some? then d.second.value else met, met)
  {
    hide WorldAfter, Play, Host.Valid, DispatchOf, Followed;
    HeldNow(host);
    var d := FirstDispatch(host.tool, script, ds).value;
    FollowedWorld(host.tool, script, host.history, host.script, FIRST,
      if d.second.Some? then d.second.value else |host.history|);
  }

  ghost predicate Untouched(l: Ledger) {
    l.results == [] && l.state == CREATED
  }

  ghost predicate Done(l: Ledger) {
    l.state.status.Completed? && l.state.threadId.Some? && l.state.turnId.Some?
  }

  lemma VerifyC3Exactly(l: Ledger, f: Files, ds: seq<Delivery>, expectedDuplicates: nat)
    requires Coherent(l) && DeliveredOnce(l, ds)
    requires ds != [] ==> Done(l)
    ensures ds != [] ==> (VerifyC3(l, f, |ds|, expectedDuplicates) <==>
      && expectedDuplicates == LaterTriggers(ds)
      && |f.effects| == 1
      && |f.toolResults| >= 1
      && l.state.effectStatus.Applied?)
  {
  }

  /** The delivery that finds nothing done: claim, bring the server up, dispatch, settle, and close the attempt. */
  method FirstDelivery(host: Host, d: Delivery, ghost script: seq<Reaction>)
    returns (ok: bool, s: Settlement, status: string)
    requires host.Valid() && host.tool.toolClass.Idempotent? && host.turns == 0
    requires host.ledger.results == [] && host.ledger.state.retryCount == 0
    requires Followed(script, host.history, host.script, |host.history| + 3, |host.history|)
    modifies host`files, host`behind, host`script, host`history, host`turns, host.ledger
    ensures host.Valid() && host.turns <= 2 && |host.ledger.results| <= 1
    ensures host.turns == 2 ==> d.interrupted
    ensures s.Recovered? ==> !s.plan.SafeStop?
    ensures ok <==> DispatchOf(host.tool, script, |old(host.history)|, d.interrupted).Some?
    ensures ok ==> Went(host, script, |old(host.history)|, d.interrupted, s, status)
    ensures ok ==>
      && Trace(host.ledger.events) == old(Trace(host.ledger.events)) + FirstTrace(d, s, status)[2..]
      && (s.Recovered? <==> d.interrupted)
      && Done(host.ledger.View())
  {
    hide Coherent, Trace, WorldOk, InitialTrace, SettlementTrace, Host.Valid, Grew, Followed, DispatchOf;
    ok, status, s := DispatchClaimed(host, d.interrupted, script);
    if !ok { return; }
    host.Attempt(1, d.mode, Terminal, status);
    assert FirstTrace(d, s, status)[2..]
      == StartTrace(FaultOf(d)) + SettlementTrace(s) + [AttemptMoved(1, d.mode, Terminal, status)];
  }

  /** Time passes until the delivery, which is then put on the ledger with the start of its attempt. */
  method ClaimDelivery(host: Host, d: Delivery, number: nat)
    requires host.Valid()
    modifies host`files, host`behind, host`script, host`history, host.ledger
    ensures host.Valid()
    ensures Since(old(host.history), old(host.script), host.history, host.script, host.turns, false)
    ensures host.script == Rest(old(host.script))
    ensures Advanced(old(host.ledger.View()), host.ledger.View(), Claim(d, number), old(host.ledger.state))
  {
    hide Coherent, Trace, WorldOk, Host.Valid, Grew, ActAll, Since;
    host.Elapse();
    host.Schedule(d.trigger, d.trigger == "missed", d.trigger == "delayed");
    host.Attempt(number, d.mode, Started, "claimed");
  }

  /** The body of the delivery loop: claim an attempt, then dispatch or deduplicate by the durable status. */
  method Deliver(
    host: Host, ds: seq<Delivery>, i: nat, number: nat, s0: Settlement, status0: string, ghost script: seq<Reaction>)
    returns (ok: bool, s: Settlement, status: string)
    requires i < |ds| && host.Valid() && host.tool.toolClass.Idempotent?
    requires if i == 0 then Untouched(host.ledger.View()) && host.turns == 0 && number == 1
      else Done(host.ledger.View()) && Going(host, script, ds, i, s0, status0)
    requires i == 0 ==> host.history == [] && host.script == script
    modifies host`files, host`behind, host`script, host`history, host`turns, host.ledger
    ensures host.Valid()
    ensures ok <==> FirstDispatch(host.tool, script, ds).Some?
    ensures ok ==> Going(host, script, ds, i + 1, s, status)
    ensures i > 0 ==>
      && ok && s == s0 && status == status0 && host.turns == old(host.turns)
      && Advanced(old(host.ledger.View()), host.ledger.View(), LaterTrace(ds[i], number), old(host.ledger.state))
    ensures i == 0 ==>
      && |host.ledger.results| <= 1 && host.turns <= 2
      && (host.turns == 2 ==> ds[0].interrupted)
      && (s.Recovered? ==> !s.plan.SafeStop?)
    ensures i == 0 && ok ==>
      && Trace(host.ledger.events) == old(Trace(host.ledger.events)) + FirstTrace(ds[0], s, status)
      && (s.Recovered? <==> ds[0].interrupted)
      && Done(host.ledger.View())
  {
    hide Coherent, Trace, WorldOk, InitialTrace, SettlementTrace, Host.Valid, Grew, Since, Followed, DispatchOf;
    ok, s, status := true, s0, status0;
    ghost var past, rest := host.history, host.script;
    ClaimDelivery(host, ds[i], number);
    if host.ledger.state.status.Completed? {
      FollowPause(host.tool, script, ds, i, past, rest, host.history, host.script, host.turns);
      Deduplicate(host, ds[i], number);
      assert LaterTrace(ds[i], number) == Claim(ds[i], number) + LaterTrace(ds[i], number)[2..];
    } else {
      FollowFirstPause(script, host.history, host.script);
      ok, s, status := FirstDelivery(host, ds[0], script);
      if ok {
        StartsGoing(host, script, ds, s, status);
      }
      assert Claim(ds[0], 1) + (FirstTrace(ds[0], s, status)[2..]) == FirstTrace(ds[0], s, status);
    }
  }

  lemma StartsGoing(host: Host, script: seq<Reaction>, ds: seq<Delivery>, s: Settlement, status: string)
    requires ds != [] && Went(host, script, |script| - |Rest(script)|, ds[0].interrupted, s, status)
    ensures Going(host, script, ds, 1, s, status)
  {
    hide Followed, DispatchOf;
    assert script != [];
  }

  lemma FollowFirstPause(script: seq<Reaction>, history: seq<Moment>, rest: seq<Reaction>)
    requires Since([], script, history, rest, 0, false) && rest == Rest(script)
    ensures Followed(script, history, rest, |history| + 3, |history|) && |history| == |script| - |Rest(script)|
  {
    FollowedNothing(script);
    FollowOn(script, [], script, history, rest, 0, false, 3, 0);
  }

  lemma FollowPause(
    tool: Tool, script: seq<Reaction>, ds: seq<Delivery>, i: nat, past: seq<Moment>, middle: seq<Reaction>,
    history: seq<Moment>, rest: seq<Reaction>, turns: nat)
    requires ds != [] && i > 0 && FirstDispatch(tool, script, ds).Some?
    requires var d := FirstDispatch(tool, script, ds).value;
      && turns == (if d.second.Some? then 2 else 1) && |past| == MetInAll(script, d.end, i - 1)
      && Followed(script, past, middle, FIRST, if d.second.Some? then d.second.value else |past|)
      && (d.second.Some? ==> d.second.value <= |past|)
    requires Since(past, middle, history, rest, turns, false) && rest == Rest(middle)
    ensures var d := FirstDispatch(tool, script, ds).value;
      && |history| == MetInAll(script, d.end, i) && |past| <= |history|
      && Followed(script, history, rest, FIRST, if d.second.Some? then d.second.value else |history|)
  {
    var d := FirstDispatch(tool, script, ds).value;
    hide DispatchOf;
    var second := if d.second.Some? then d.second.value else |history|;
    if d.second.None? {
      SecondLater(script, past, middle, FIRST, |past|, second);
    }
    FollowOn(script, past, middle, history, rest, turns, false, FIRST, second);
  }

  /** The attempt id: half the records of the attempts file, plus one. */
  function AttemptNumber(l: Ledger, ghost ds: seq<Delivery>): (number: nat)
    requires DeliveredOnce(l, ds)
    ensures number == |ds| + 1
  {
    |l.attempts| / 2 + 1
  }

  /** The `except` branch. */
  method Fails(host: Host)
    requires host.Valid()
    modifies host.ledger
    ensures host.Valid() && host.ledger.state.status.Unknown?
    ensures host.ledger.results == old(host.ledger.results)
    ensures Trace(host.ledger.events) == old(Trace(host.ledger.events)) + [RunError]
  {
    hide Coherent, Trace, WorldOk;
    host.Note(RunError);
    host.Assign(host.ledger.state.(
      status := Unknown, phase := "stop", lastCheckpoint := "error", safeStopReason := Some("exception")));
  }
}
