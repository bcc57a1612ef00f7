/**
 What a script makes of a case of the approval runner up to the end of its recovery: the
 settling window of a safe stop included, and the ledgers given by the script alone.
 */
module ApprovalCourses {
  import opened Basics
  import opened CaseLedgers
  import opened EffectSinks
  import opened Hosts
  import opened Courses
  import opened ApprovalRecovery

  /** The turn of the fault is dispatched by the fourth reaction: two to set up, one for the thread. */
  const FIRST := 3

  /** Where a settling window that opens after `at` reactions ends: at the first tool result, or when it is used up. */
  ghost function SettleAt(tool: Tool, script: seq<Reaction>, at: nat, polls: nat): (n: nat)
    requires at <= |script|
    ensures at <= n <= |script|
    decreases polls
  {
    if polls == 0 || at == |script| || FilesAfter(tool, script, FIRST, at, at).toolResults != [] then at
    else SettleAt(tool, script, at + 1, polls - 1)
  }

  /** A window that stays without a tool result is used up, and nothing comes in it. */
  lemma {:induction false} SettledMeans(tool: Tool, script: seq<Reaction>, at: nat, polls: nat)
    requires at <= |script|
    ensures var n := SettleAt(tool, script, at, polls);
      && (forall k :: at <= k < n ==> FilesAfter(tool, script, FIRST, k, k).toolResults == [])
      && (FilesAfter(tool, script, FIRST, n, n).toolResults == [] ==>
            n - at == if polls < |script| - at then polls else |script| - at)
    decreases polls
  {
    hide WorldAfter;
    if !(polls == 0 || at == |script| || FilesAfter(tool, script, FIRST, at, at).toolResults != []) {
      SettledMeans(tool, script, at + 1, polls - 1);
    }
  }

  /** Recovery read after `at` reactions, and was done after `end`. */
  datatype Ending = Ending(plan: Plan, at: nat, end: nat)

  /** What recovery makes of the ledgers after `at` reactions; `None` when it raises. */
  ghost function EndingAt(tool: Tool, script: seq<Reaction>, fault: Fault, polls: nat, at: nat): (e: Option<Ending>)
    requires at <= |script|
    ensures e.Some? ==> e.value.at == at <= e.value.end <= |script|
  {
    var seen, n := FilesAfter(tool, script, FIRST, at, at), TurnEnd(script, at);
    if seen != EMPTY then
      if Recovers(script, at) then Some(Ending(Reconcile(|seen.effects|, |seen.toolResults|), at, n)) else None
    else if fault.ToolTimeout? && tool.toolClass.ApprovalRequired? then
      var end := SettleAt(tool, script, at, polls);
      var late := FilesAfter(tool, script, FIRST, end, end);
      Some(Ending(if late == EMPTY then SafeStop else SettleLate(|late.effects|, |late.toolResults|), at, end))
    else
      var files := FilesAfter(tool, script, FIRST, at, n);
      if Recovers(script, at) then Some(Ending(RetryOnce(|files.effects|, |files.toolResults|), at, n)) else None
  }

  /** The turn that starts after `at` reactions starts and completes. */
  predicate Recovers(script: seq<Reaction>, at: nat)
    requires at <= |script|
  {
    AfterTurn(script[at..]).Some?
  }

  /** The case up to the end of its recovery; `None` when it raises. */
  ghost function EndingOf(tool: Tool, script: seq<Reaction>, fault: Fault, polls: nat): (e: Option<Ending>)
    ensures e.Some? ==> FIRST < e.value.at <= e.value.end <= |script|
  {
    if AfterReading(script, fault).None? then None
    else EndingAt(tool, script, fault, polls, |script| - |AfterReading(script, fault).value|)
  }

  /** The reaction by which the second turn is dispatched, or a later one when there is none. */
  function SecondOf(e: Ending): nat {
    if e.plan.RetryOnce? then e.at else e.end
  }

  /** If a tool result comes within the window of a timed-out approved call, the case does not stay stopped. */
  lemma LateResultSettles(tool: Tool, script: seq<Reaction>, fault: Fault, polls: nat, at: nat, k: nat)
    requires at <= k <= |script| && k <= at + polls
    requires fault.ToolTimeout? && tool.toolClass.ApprovalRequired?
    requires FilesAfter(tool, script, FIRST, at, at) == EMPTY
    requires FilesAfter(tool, script, FIRST, k, k).toolResults != []
    ensures EndingAt(tool, script, fault, polls, at).Some?
    ensures EndingAt(tool, script, fault, polls, at).value.plan.SettleLate?
  {
    hide WorldAfter;
    SettledMeans(tool, script, at, polls);
  }

  /** And a case that stays stopped saw no tool result in its whole window, and two empty ledgers in the end. */
  lemma StoppedMeansNothingCame(tool: Tool, script: seq<Reaction>, fault: Fault, polls: nat)
    requires EndingOf(tool, script, fault, polls).Some? && EndingOf(tool, script, fault, polls).value.plan.SafeStop?
    ensures var e := EndingOf(tool, script, fault, polls).value;
      && fault.ToolTimeout? && tool.toolClass.ApprovalRequired?
      && e.end - e.at == (if polls < |script| - e.at then polls else |script| - e.at)
      && (forall k :: e.at <= k <= e.end ==> FilesAfter(tool, script, FIRST, k, k).toolResults == [])
      && FilesAfter(tool, script, FIRST, e.at, e.at) == FilesAfter(tool, script, FIRST, e.end, e.end) == EMPTY
  {
    hide WorldAfter, SettleAt, AfterReading;
    SettledMeans(tool, script, EndingOf(tool, script, fault, polls).value.at, polls);
  }

  // ----- The run follows it -----

  lemma FollowedPart(
    tool: Tool, script: seq<Reaction>, history: seq<Moment>, rest: seq<Reaction>, n: nat)
    requires Followed(script, history, rest, FIRST, |history|) && n <= |history|
    ensures Play(tool, history[..n]).files == FilesAfter(tool, script, FIRST, n, n)
  {
    hide WorldAfter, Play;
    SecondLater(script, history[..n], script[n..], FIRST, |history|, n);
    FollowedWorld(tool, script, history[..n], script[n..], FIRST, n);
  }

  lemma {:induction false} WindowIsSettled(
    tool: Tool, script: seq<Reaction>, history: seq<Moment>, rest: seq<Reaction>, at: nat, polls: nat)
    requires Followed(script, history, rest, FIRST, |history|) && at <= |history|
    requires Window(tool, history, at, polls, |script| - at)
    ensures |history| == SettleAt(tool, script, at, polls)
    decreases polls
  {
    hide WorldAfter, Play;
    FollowedPart(tool, script, history, rest, at);
    if |history| > at {
      assert ResultsAfter(tool, history, at) == [];
      WindowIsSettled(tool, script, history, rest, at + 1, polls - 1);
    }
  }

  /** What recovery makes of the ledgers is what the script says. */
  lemma RecoveryEnds(
    tool: Tool, script: seq<Reaction>, fault: Fault, polls: nat, at: nat, n: nat, plan: Plan,
    seen: Files, files: Files, ok: bool)
    requires at <= n <= |script| && seen == FilesAfter(tool, script, FIRST, at, at)
    requires files == FilesAfter(tool, script, FIRST, if plan.RetryOnce? then at else n, n)
    requires Chosen(plan, seen, fault, tool.toolClass)
    requires ok <==> plan.SafeStop? || plan.SettleLate? || Recovers(script, at)
    requires ok && (plan.Reconcile? || plan.RetryOnce?) ==> script[n..] == AfterTurn(script[at..]).value
    requires ok && plan.RetryOnce? ==> plan == RetryOnce(|files.effects|, |files.toolResults|)
    requires plan.SafeStop? || plan.SettleLate? ==>
      && n == SettleAt(tool, script, at, polls)
      && plan == if files == EMPTY then SafeStop else SettleLate(|files.effects|, |files.toolResults|)
    ensures ok <==> EndingAt(tool, script, fault, polls, at).Some?
    ensures ok ==> EndingAt(tool, script, fault, polls, at) == Some(Ending(plan, at, n))
  {
    hide AfterTurn, WorldAfter, SettleAt;
    assert |script[n..]| == |script| - n && |script[at..]| == |script| - at;
  }
}
