/**
 What a script makes of a run, without the run: the ledgers after some of its reactions, given
 the reactions at which the first and the second turn that may call the tool are dispatched.
 */
module Courses {
  import opened Basics
  import opened CaseLedgers
  import opened EffectSinks
  import opened Hosts
  import opened Recovery

  /** The turns dispatched when reaction `i` is met. */
  function TurnsAt(first: nat, second: nat, i: nat): nat {
    if i < first then 0 else if i < second then 1 else 2
  }

  /** The tool's side of the world after the first `n` reactions. */
  ghost function WorldAfter(tool: Tool, script: seq<Reaction>, first: nat, second: nat, n: nat): Outside
    requires n <= |script|
  {
    if n == 0 then Fresh(tool)
    else
      ActAll(tool, TurnsAt(first, second, n - 1), WorldAfter(tool, script, first, second, n - 1), script[n - 1].work)
  }

  ghost function FilesAfter(tool: Tool, script: seq<Reaction>, first: nat, second: nat, n: nat): Files
    requires n <= |script|
  {
    WorldAfter(tool, script, first, second, n).files
  }

  /** How often native approval is asked for during the reactions. */
  ghost function AsksIn(script: seq<Reaction>): nat {
    if script == [] then 0 else AsksIn(script[..|script| - 1]) + Asks(script[|script| - 1].work)
  }

  /** The history is the script up to `rest`, reaction by reaction. */
  ghost predicate Followed(
    script: seq<Reaction>, history: seq<Moment>, rest: seq<Reaction>, first: nat, second: nat)
  {
    && |history| <= |script| && rest == script[|history|..]
    && forall i :: 0 <= i < |history| ==>
         history[i].Met? && history[i].reaction == script[i] && history[i].turns == TurnsAt(first, second, i)
  }

  ghost predicate AllHeard(history: seq<Moment>) {
    forall i :: 0 <= i < |history| ==> history[i].Met? && history[i].heard
  }

  lemma {:induction false} FollowedWorld(
    tool: Tool, script: seq<Reaction>, history: seq<Moment>, rest: seq<Reaction>, first: nat, second: nat)
    requires Followed(script, history, rest, first, second)
    ensures Play(tool, history) == WorldAfter(tool, script, first, second, |history|)
  {
    hide ActAll, Called;
    if history != [] {
      var n := |history| - 1;
      FollowedWorld(tool, script, history[..n], script[n..], first, second);
      assert history[n].reaction == script[n];
    }
  }

  lemma {:induction false} FollowedAsks(
    script: seq<Reaction>, history: seq<Moment>, rest: seq<Reaction>, first: nat, second: nat)
    requires Followed(script, history, rest, first, second) && AllHeard(history)
    ensures Heard(history) == AsksIn(script[..|history|])
  {
    hide Asks;
    if history != [] {
      var n := |history| - 1;
      FollowedAsks(script, history[..n], script[n..], first, second);
      assert script[..n + 1][..n] == script[..n];
    }
  }

  /** Following goes on with whatever is met next. */
  lemma FollowOn(
    script: seq<Reaction>, before: seq<Moment>, middle: seq<Reaction>, after: seq<Moment>, rest: seq<Reaction>,
    turns: nat, heard: bool, first: nat, second: nat)
    requires Followed(script, before, middle, first, second) && Since(before, middle, after, rest, turns, heard)
    requires forall i :: |before| <= i < |after| ==> TurnsAt(first, second, i) == turns
    ensures Followed(script, after, rest, first, second)
    ensures heard && AllHeard(before) ==> AllHeard(after)
  {
    hide TurnsAt;
    forall i | 0 <= i < |after|
      ensures after[i].Met? && after[i].reaction == script[i] && after[i].turns == TurnsAt(first, second, i)
      ensures heard && AllHeard(before) ==> after[i].heard
    {
      if i < |before| {
        assert after[i] == before[i];
      } else {
        assert after[|before| + (i - |before|)] == Met(turns, middle[i - |before|], heard);
      }
    }
  }

  lemma FollowedNothing(script: seq<Reaction>)
    ensures Followed(script, [], script, 3, 0) && AllHeard([])
  {
  }

  /** A later turn does not matter before it is dispatched. */
  lemma SecondLater(
    script: seq<Reaction>, history: seq<Moment>, rest: seq<Reaction>, first: nat, second: nat, later: nat)
    requires Followed(script, history, rest, first, second) && |history| <= second && |history| <= later
    ensures Followed(script, history, rest, first, later)
  {
  }

  lemma {:induction false} SecondLaterWorld(
    tool: Tool, script: seq<Reaction>, first: nat, second: nat, later: nat, n: nat)
    requires n <= |script| && n <= second && n <= later
    ensures WorldAfter(tool, script, first, second, n) == WorldAfter(tool, script, first, later, n)
  {
    hide ActAll;
    if n > 0 {
      SecondLaterWorld(tool, script, first, second, later, n - 1);
    }
  }

  // ----- How far the replies let a run get -----

  /** The components come up, thread and turn start, and the fault, if any, is struck. */
  function AfterStart(script: seq<Reaction>, fault: Option<Fault>): (r: Option<seq<Reaction>>)
    ensures r.Some? ==> |script| > 3 && forall i :: 0 <= i < 4 ==> script[i].reply.Answered?
    ensures r.Some? ==> |r.value| <= |script| - 4
  {
    if AfterAnswers(script, 2).None? then None else AfterInitial(script[2..], fault)
  }

  /** And the interrupted thread is resumed, whose name is the answer to the third request. */
  function AfterReading(script: seq<Reaction>, fault: Fault): (r: Option<seq<Reaction>>)
    ensures r.Some? ==> |r.value| < |script| - 3
  {
    if AfterStart(script, Some(fault)).None? then None
    else AfterResume(AfterStart(script, Some(fault)).value, fault.ProcessInterrupt?, script[2].reply.value)
  }

  lemma ReadingAfterStart(script: seq<Reaction>, fault: Fault)
    ensures AfterStart(script, Some(fault)).None? ==> AfterReading(script, fault).None?
    ensures AfterStart(script, Some(fault)).Some? ==>
      AfterReading(script, fault) ==
      AfterResume(AfterStart(script, Some(fault)).value, fault.ProcessInterrupt?, script[2].reply.value)
  {
    hide AfterStart, AfterResume;
  }

  /** What recovery decides on what it reads, the ledgers in the end, and how often approval is asked for. */
  datatype Course = Course(plan: Plan, seen: Files, files: Files, asked: nat)

  /** How many reactions there are when a turn that starts after `at` of them is over. */
  function TurnEnd(script: seq<Reaction>, at: nat): (n: nat)
    requires at <= |script|
    ensures at <= n <= |script|
  {
    if AfterTurn(script[at..]).Some? then |script| - |AfterTurn(script[at..]).value| else at
  }

  /**
   What recovery makes of the ledgers after reaction `at`, the first turn having been dispatched
   by reaction `first`; `None` when it raises.
   */
  ghost function ActingAt(tool: Tool, script: seq<Reaction>, fault: Fault, first: nat, at: nat): Option<Course>
    requires at <= |script|
  {
    var seen, n := FilesAfter(tool, script, first, at, at), TurnEnd(script, at);
    if seen.effects != [] || seen.toolResults != [] then
      if AfterTurn(script[at..]).None? then None
      else
        Some(Course(
          Reconcile(|seen.effects|, |seen.toolResults|), seen, FilesAfter(tool, script, first, n, n),
          AsksIn(script[..n])))
    else if fault.ToolTimeout? && tool.toolClass.ApprovalRequired? then
      Some(Course(SafeStop, seen, seen, AsksIn(script[..at])))
    else
      var files := FilesAfter(tool, script, first, at, n);
      if AfterTurn(script[at..]).None? || (!tool.toolClass.ReadOnly? && |files.effects| != 1) then None
      else Some(Course(RetryOnce(|files.effects|, |files.toolResults|), seen, files, AsksIn(script[..n])))
  }

  /** When the turn of recovery is answered, only a retried write can raise: it must leave one effect. */
  lemma ActsExactly(tool: Tool, script: seq<Reaction>, fault: Fault, first: nat, at: nat)
    requires at <= |script| && AfterTurn(script[at..]).Some?
    ensures ActingAt(tool, script, fault, first, at).Some? <==>
      (FilesAfter(tool, script, first, at, at) == EMPTY && !tool.toolClass.ReadOnly?
       && !(fault.ToolTimeout? && tool.toolClass.ApprovalRequired?) ==>
         |FilesAfter(tool, script, first, at, TurnEnd(script, at)).effects| == 1)
  {
    hide WorldAfter, AsksIn, AfterTurn, TurnEnd;
  }

  // ----- The runs themselves follow their script -----

  /** The steps of a case before recovery. */
  function StartTrace(fault: Option<Fault>): seq<Kind> {
    [ProviderReady] + InitialTrace(fault)
  }

  /** Set up the server and run into the fault. */
  method Start(host: Host, fault: Option<Fault>, ghost script: seq<Reaction>)
    returns (ok: bool, status: string, ghost done: nat)
    requires host.Valid() && host.turns == 0
    requires Followed(script, host.history, host.script, |host.history| + 3, |host.history|)
    modifies host`files, host`behind, host`script, host`history, host`turns, host.ledger
    ensures host.Valid() && host.turns <= 1 && (ok ==> host.turns == 1)
    ensures Followed(script, host.history, host.script, |old(host.history)| + 3, |host.history|)
    ensures AllHeard(old(host.history)) ==> AllHeard(host.history)
    ensures ok <==> AfterStart(old(host.script), fault).Some?
    ensures ok ==>
      && host.script == AfterStart(old(host.script), fault).value && |host.history| >= |old(host.history)| + 3
      && status == StrikeEnd(old(host.script)[4..], fault)
      && host.ledger.state.threadId == Some(old(host.script)[2].reply.value)
    ensures done <= |StartTrace(fault)| && (ok ==> done == |StartTrace(fault)|)
    ensures Advanced(old(host.ledger.View()), host.ledger.View(), StartTrace(fault)[..done], host.ledger.state)
    ensures host.ledger.state.status == old(host.ledger.state.status)
    ensures host.ledger.state.retryCount == old(host.ledger.state.retryCount)
    ensures ok ==> host.ledger.state.turnId.Some?
  {
    hide Coherent, Trace, WorldOk, InitialTrace, Host.Valid, Since, StartsTurn, AfterInitial, Followed, AllHeard;
    done, status := 0, "";
    ghost var start, begin := host.history, host.script;
    ok := SetUp(host);
    FollowSetUp(script, start, begin, host.history, host.script);
    if ok {
      ghost var past, rest := host.history, host.script;
      ghost var first;
      ok, status, first := RunInitial(host, fault);
      FollowStart(script, past, rest, host.history, host.script, host.turns);
      assert ok ==> rest[0] == begin[2] && rest[2..] == begin[4..];
      done := 1 + first;
      assert StartTrace(fault)[..done] == [ProviderReady] + InitialTrace(fault)[..first];
    }
  }

  lemma FollowSetUp(
    script: seq<Reaction>, past: seq<Moment>, middle: seq<Reaction>, history: seq<Moment>, rest: seq<Reaction>)
    requires Followed(script, past, middle, |past| + 3, |past|)
    requires Since(past, middle, history, rest, 0, true) && |middle| - |rest| <= 2
    ensures Followed(script, history, rest, |past| + 3, |history|) && |history| - |past| == |middle| - |rest|
    ensures AllHeard(past) ==> AllHeard(history)
  {
    SecondLater(script, past, middle, |past| + 3, |past|, |history|);
    FollowOn(script, past, middle, history, rest, 0, true, |past| + 3, |history|);
  }

  lemma FollowStart(
    script: seq<Reaction>, past: seq<Moment>, middle: seq<Reaction>, history: seq<Moment>, rest: seq<Reaction>,
    turns: nat)
    requires Followed(script, past, middle, |past| + 1, |past|)
    requires turns == 0 ==> |middle| - |rest| <= 1 && Since(past, middle, history, rest, 0, true)
    requires turns > 0 ==> StartsTurn(past, middle, history, rest, 0)
    ensures Followed(script, history, rest, |past| + 1, |history|)
    ensures AllHeard(past) ==> AllHeard(history)
    ensures turns > 0 ==> |history| > |past|
  {
    var first := |past| + 1;
    SecondLater(script, past, middle, first, |past|, |history|);
    if turns == 0 {
      FollowOn(script, past, middle, history, rest, 0, true, first, |history|);
    } else {
      var one := history[..first];
      FollowOn(script, past, middle, one, middle[1..], 0, true, first, |history|);
      FollowOn(script, one, middle[1..], history, rest, 1, true, first, |history|);
    }
  }

  lemma FollowFurther(
    tool: Tool, script: seq<Reaction>, past: seq<Moment>, middle: seq<Reaction>,
    history: seq<Moment>, rest: seq<Reaction>, first: nat)
    requires Followed(script, past, middle, first, |past|) && |past| >= first
    requires Since(past, middle, history, rest, 1, true)
    ensures Followed(script, history, rest, first, |history|)
    ensures AllHeard(past) ==> AllHeard(history) && Heard(history) == AsksIn(script[..|history|])
    ensures |history| == |script| - |rest| && |history| >= |past|
    ensures Play(tool, history).files == FilesAfter(tool, script, first, |history|, |history|)
  {
    hide WorldAfter, Play;
    SecondLater(script, past, middle, first, |past|, |history|);
    FollowOn(script, past, middle, history, rest, 1, true, first, |history|);
    FollowedWorld(tool, script, history, rest, first, |history|);
    if AllHeard(past) {
      FollowedAsks(script, history, rest, first, |history|);
    }
  }

  /** Recovery follows the script as well, and its second turn starts at the reading. */
  lemma FollowRecovery(
    tool: Tool, script: seq<Reaction>, at: nat, rest: seq<Reaction>, history: seq<Moment>, left: seq<Reaction>,
    retries: bool, heard: bool, first: nat)
    requires first <= at <= |history| && Followed(script, history[..at], rest, first, at)
    requires Since(history[..at], rest, history, left, if retries then 2 else 1, heard)
    ensures var second := if retries then at else |history|;
      && Followed(script, history, left, first, second)
      && (heard && AllHeard(history[..at]) ==> AllHeard(history) && Heard(history) == AsksIn(script[..|history|]))
      && Play(tool, history[..at]).files == FilesAfter(tool, script, first, at, at)
      && Play(tool, history) == WorldAfter(tool, script, first, second, |history|)
    ensures rest == script[at..] && left == script[|history|..] && at <= |history| <= |script|
  {
    hide WorldAfter, Play, Heard, AsksIn;
    var second := if retries then at else |history|;
    SecondLater(script, history[..at], rest, first, at, second);
    FollowOn(script, history[..at], rest, history, left, if retries then 2 else 1, heard, first, second);
    FollowedWorld(tool, script, history[..at], rest, first, at);
    FollowedWorld(tool, script, history, left, first, second);
    if heard && AllHeard(history[..at]) {
      FollowedAsks(script, history, left, first, second);
    }
  }

  /** What recovery makes of the ledgers is what the script says. */
  lemma RecoveryActs(
    tool: Tool, script: seq<Reaction>, fault: Fault, first: nat, at: nat, n: nat, plan: Plan,
    seen: Files, files: Files, ok: bool)
    requires at <= n <= |script| && seen == FilesAfter(tool, script, first, at, at)
    requires files == FilesAfter(tool, script, first, if plan.RetryOnce? then at else n, n)
    requires Decides(plan, seen, fault, tool.toolClass) && (plan.SafeStop? ==> files == seen)
    requires ok <==> Acts(plan, script[at..], tool.toolClass)
    requires ok ==> script[n..] == AfterPlan(plan, script[at..])
    requires plan.RetryOnce? && AfterTurn(script[at..]).Some? ==>
      script[n..] == AfterTurn(script[at..]).value && plan == RetryOnce(|files.effects|, |files.toolResults|)
    ensures ok <==> ActingAt(tool, script, fault, first, at).Some?
    ensures ok ==> ActingAt(tool, script, fault, first, at) == Some(Course(plan, seen, files, AsksIn(script[..n])))
    ensures ok ==> n == if plan.SafeStop? then at else TurnEnd(script, at)
  {
    hide AfterTurn, WorldAfter, AsksIn;
    assert |script[n..]| == |script| - n && |script[at..]| == |script| - at;
    if AfterTurn(script[at..]).Some? && !plan.SafeStop? {
      assert ok || plan.RetryOnce?;
      assert n == |script| - |AfterTurn(script[at..]).value|;
    }
  }

  /** Recovery as it follows the fault, on a host that has gone through `script` so far. */
  method RecoverCase(host: Host, fault: Fault, ghost script: seq<Reaction>, ghost first: nat)
    returns (ok: bool, plan: Plan, seen: Files, ghost done: nat, ghost at: nat)
    requires host.Valid() && host.turns == 1 && host.ledger.results == [] && host.ledger.state.retryCount == 0
    requires Followed(script, host.history, host.script, first, |host.history|) && |host.history| >= first
    requires host.ledger.state.threadId.Some?
    modifies host`files, host`behind, host`script, host`history, host`turns, host.ledger
    ensures host.Valid() && |host.ledger.results| <= 1 && |host.history| <= |script|
    ensures var reading := AfterResume(
        old(host.script), fault.ProcessInterrupt?, old(host.ledger.state.threadId).value);
      && (done > 0 <==> reading.Some?)
      && (reading.Some? ==> at == |script| - |reading.value| && at <= |host.history|)
    ensures ok <==> done > 0 && at <= |script| && ActingAt(host.tool, script, fault, first, at).Some?
    ensures ok ==>
      ActingAt(host.tool, script, fault, first, at) ==
      Some(Course(plan, seen, host.files, AsksIn(script[..|host.history|])))
    ensures AllHeard(old(host.history)) ==> Heard(host.history) == AsksIn(script[..|host.history|])
    ensures ok ==> (host.ledger.state.effectStatus.Applied? <==>
      (if plan.RetryOnce? then host.files else seen).effects != [])
    ensures ok ==>
      && |host.history| == (if plan.SafeStop? then at else TurnEnd(script, at))
      && Followed(script, host.history, host.script, first, if host.turns == 2 then at else |host.history|)
    ensures host.turns == if done > 0 && plan.RetryOnce? then 2 else 1
    ensures host.files ==
      FilesAfter(host.tool, script, first, if host.turns == 2 then at else |host.history|, |host.history|)
    ensures done > 0 ==>
      && Decides(plan, seen, fault, host.tool.toolClass) && Grew(seen, host.files)
      && seen == FilesAfter(host.tool, script, first, at, at) && (plan.SafeStop? ==> host.files == seen)
    ensures done <= |RecoveryTrace(plan, 1)| && (ok ==> done == |RecoveryTrace(plan, 1)|)
    ensures Trace(host.ledger.events) == old(Trace(host.ledger.events)) + RecoveryTrace(plan, 1)[..done]
    ensures ok ==> Settled(old(host.ledger.View()), host.ledger.View(), plan)
  {
    hide Coherent, Trace, WorldOk, RecoveryTrace, Host.Valid, Grew, Since, Play, AllHeard, Followed, WorldAfter, Heard;
    hide AsksIn, ActingAt, AfterResume, AfterTurn, Acts, AfterPlan, Decides, Settled;
    ghost var past, middle, thread := host.history, host.script, host.ledger.state.threadId.value;
    ghost var before := host.ledger.View();
    ok, plan, seen, done, at := Recover(host, fault, fault.ProcessInterrupt?);
    HeldNow(host);
    if done == 0 {
      FollowFurther(host.tool, script, past, middle, host.history, host.script, first);
    } else {
      ghost var rest := AfterResume(middle, fault.ProcessInterrupt?, thread).value;
      FollowFurther(host.tool, script, past, middle, host.history[..at], rest, first);
      FollowRecovery(host.tool, script, at, rest, host.history, host.script, plan.RetryOnce?, true, first);
      RecoveryActs(host.tool, script, fault, first, at, |host.history|, plan, seen, host.files, ok);
    }
    if ok {
      OneResult(before, host.ledger.View(), plan);
    }
  }

  lemma OneResult(before: Ledger, after: Ledger, plan: Plan)
    requires Settled(before, after, plan) && before.results == []
    ensures |after.results| <= 1
  {
  }

  lemma StartedOnly(host: Host, script: seq<Reaction>, first: nat)
    requires host.Valid() && Followed(script, host.history, host.script, first, |host.history|)
    ensures |host.history| <= |script|
    ensures host.files == FilesAfter(host.tool, script, first, |host.history|, |host.history|)
  {
    hide WorldAfter, Play, Host.Valid;
    HeldNow(host);
    FollowedWorld(host.tool, script, host.history, host.script, first, |host.history|);
  }
}
