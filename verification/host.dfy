/**
 The candidate seen through its app-server connection, with the tool process behind it.

 Everything outside the adapter is an adversary: each interaction consumes one `Reaction`
 of a script that is arbitrary.  A reaction is whatever the candidate, its tool and the
 sink do while the adapter waits, and how the interaction then ends for the adapter.
 */
module Hosts {
  import opened Basics
  import opened CaseLedgers
  import opened EffectSinks
  import Gates = ApprovalGates
  import opened GateWorlds

  /** `Broken` stands for every exception the adapter does not catch where the call is made. */
  datatype Reply = Answered(value: string) | TimedOut | Broken

  /** The command the candidate may run: the effect sink, or the approval gate in front of it. */
  datatype Tool =
    | Sink(operationId: string, key: string, toolClass: ToolClass, locked: bool)
    | Gate(operationId: string, key: string, toolClass: ToolClass, token: Option<Gates.Token>, atomic: bool)
  {
    function AsGate(): GateTool
      requires Gate?
    {
      GateTool(operationId, key, toolClass, token, atomic)
    }

    /** Every operation has at most one effect, by the lookup under the lock. */
    predicate OneEffect() {
      Gate? || locked
    }
  }

  datatype Activity =
    | ToolRuns(turn: nat, dies: bool)
    | GateMoves(move: Move)
    | AsksApproval(allowlisted: bool)
    | OtherServerRequest

  datatype Reaction = Reaction(work: seq<Activity>, reply: Reply)

  /**
   What is known of the ledgers the tool writes.  With the lookup the operation has at most
   one effect.  With the blind sink each dispatched turn ran the tool at most once.
   */
  ghost predicate FilesOk(tool: Tool, turns: nat, f: Files) {
    && (forall i :: 0 <= i < |f.effects| ==> f.effects[i].operationId == tool.operationId && f.effects[i].turn < turns)
    && (tool.toolClass.ReadOnly? ==> f.effects == [])
    && (tool.OneEffect() ==> |f.effects| <= 1)
    && (forall i, j :: 0 <= i < j < |f.effects| ==> f.effects[i].turn != f.effects[j].turn)
  }

  ghost predicate Grew(before: Files, after: Files) {
    before.effects <= after.effects && before.toolResults <= after.toolResults
  }

  /** What stands behind the ledgers: the turns whose sink has run, or the gate as it moves. */
  datatype Behind = SinkSide(ran: set<nat>) | GateSide(world: GateWorld)

  /** The tool's side of the world: its two ledgers and what stands behind them. */
  datatype Outside = Outside(files: Files, behind: Behind)

  /** The gate's ledgers as the runner reads them. */
  function Visible(f: Gates.GateFiles): (r: Files)
    ensures |r.effects| == |f.effects| && |r.toolResults| == |f.results|
  {
    Files(
      seq(|f.effects|, i requires 0 <= i < |f.effects| =>
        Effect(f.effects[i].operationId, f.effects[i].key, f.effects[i].turn)),
      seq(|f.results|, i requires 0 <= i < |f.results| =>
        ToolResult(f.results[i].operationId, ActionOf(f.results[i]), f.results[i].physicalEffects)))
  }

  function ActionOf(r: Gates.GateResult): Action {
    if !r.executed then Refused else if r.physicalEffects > 0 then AppliedNow else Deduplicated
  }

  function Fresh(tool: Tool): Outside {
    Outside(EMPTY, if tool.Gate? then GateSide(FRESH) else SinkSide({}))
  }

  /** The sink runs only for a dispatched turn, and when it is blind only once per turn; so does the gate. */
  function Act(tool: Tool, turns: nat, o: Outside, a: Activity): Outside {
    match o.behind
    case SinkSide(ran) =>
      if tool.Sink? && a.ToolRuns? && a.turn < turns && (tool.locked || a.turn !in ran) then
        var run := SinkRun(tool.operationId, tool.key, tool.toolClass, a.turn, a.dies);
        Outside(if tool.locked then RunSink(o.files, run) else RunBlind(o.files, run), SinkSide(ran + {a.turn}))
      else o
    case GateSide(world) =>
      if tool.Gate? && a.GateMoves? then
        var moved := Step(tool.AsGate(), turns, world, a.move);
        Outside(Visible(Seen(moved)), GateSide(moved))
      else o
  }

  function ActAll(tool: Tool, turns: nat, o: Outside, work: seq<Activity>): Outside {
    if work == [] then o else
    Act(tool, turns, ActAll(tool, turns, o, work[..|work| - 1]), work[|work| - 1])
  }

  /** The runner's own call of the gate. */
  function Called(tool: Tool, o: Outside): Outside {
    if tool.Gate? && o.behind.GateSide? then
      var next := Replayed(tool.AsGate(), o.behind.world);
      Outside(Visible(Seen(next)), GateSide(next))
    else o
  }

  /**
   What the adapter has been through: a reaction met with `turns` turns dispatched, `heard` if the
   connection was read meanwhile, or its own call of the gate.
   */
  datatype Moment = Met(turns: nat, reaction: Reaction, heard: bool) | OwnCall

  /** The tool's side of the world after a history. */
  ghost function Play(tool: Tool, history: seq<Moment>): Outside {
    if history == [] then Fresh(tool) else
    var before, last := Play(tool, history[..|history| - 1]), history[|history| - 1];
    if last.Met? then ActAll(tool, last.turns, before, last.reaction.work) else Called(tool, before)
  }

  ghost function Reactions(history: seq<Moment>): seq<Reaction> {
    if history == [] then [] else
    var last := history[|history| - 1];
    Reactions(history[..|history| - 1]) + if last.Met? then [last.reaction] else []
  }

  /** After the first `n` moments, none of them with more than `turns` turns dispatched, the ledgers held `seen`. */
  ghost predicate HeldAt(tool: Tool, history: seq<Moment>, n: nat, turns: nat, seen: Files) {
    && n <= |history| && Play(tool, history[..n]).files == seen
    && forall i :: 0 <= i < n && history[i].Met? ==> history[i].turns <= turns
  }

  /** How often native approval was asked for while the connection was read. */
  ghost function Heard(history: seq<Moment>): nat {
    if history == [] then 0 else
    var last := history[|history| - 1];
    Heard(history[..|history| - 1]) + if last.Met? && last.heard then Asks(last.reaction.work) else 0
  }

  /** From `before` to `after` the script up to `rest` was met, reaction by reaction, with `turns` turns dispatched. */
  ghost predicate Since(
    before: seq<Moment>, script: seq<Reaction>, after: seq<Moment>, rest: seq<Reaction>, turns: nat, heard: bool)
  {
    var n := |after| - |before|;
    && before <= after && n <= |script| && rest == script[n..]
    && forall i :: 0 <= i < n ==> after[|before| + i] == Met(turns, script[i], heard)
  }

  lemma SinceThen(
    before: seq<Moment>, script: seq<Reaction>, between: seq<Moment>, middle: seq<Reaction>,
    after: seq<Moment>, rest: seq<Reaction>, turns: nat, heard: bool)
    requires Since(before, script, between, middle, turns, heard) && Since(between, middle, after, rest, turns, heard)
    ensures Since(before, script, after, rest, turns, heard)
  {
    var k, n := |between| - |before|, |after| - |before|;
    forall i | 0 <= i < n ensures after[|before| + i] == Met(turns, script[i], heard) {
      if i < k {
        assert after[|before| + i] == between[|before| + i];
      } else {
        assert after[|between| + (i - k)] == Met(turns, middle[i - k], heard);
      }
    }
  }

  lemma NothingSince(history: seq<Moment>, script: seq<Reaction>, turns: nat, heard: bool)
    ensures Since(history, script, history, script, turns, heard)
  {
  }

  lemma OneMoreMoment(tool: Tool, history: seq<Moment>, m: Moment)
    ensures var before := Play(tool, history);
      Play(tool, history + [m]) ==
        if m.Met? then ActAll(tool, m.turns, before, m.reaction.work) else Called(tool, before)
    ensures Reactions(history + [m]) == Reactions(history) + if m.Met? then [m.reaction] else []
    ensures Heard(history + [m]) == Heard(history) + if m.Met? && m.heard then Asks(m.reaction.work) else 0
  {
    hide ActAll, Called;
    assert (history + [m])[..|history|] == history;
  }

  /** A history only gets longer, so what was held is held in it for good. */
  lemma StillHeld(tool: Tool, before: seq<Moment>, after: seq<Moment>, n: nat, turns: nat, seen: Files)
    requires HeldAt(tool, before, n, turns, seen) && before <= after
    ensures HeldAt(tool, after, n, turns, seen)
  {
    hide Play;
    assert after[..n] == before[..n];
  }

  function Asks(work: seq<Activity>): nat {
    if work == [] then 0 else Asks(work[..|work| - 1]) + if work[|work| - 1].AsksApproval? then 1 else 0
  }

  /** The moves of the gate among the activities. */
  function MovesOf(work: seq<Activity>): seq<Move> {
    if work == [] then []
    else MovesOf(work[..|work| - 1]) + if work[|work| - 1].GateMoves? then [work[|work| - 1].move] else []
  }

  // ----- What the replies of a script let through: the rest of it, or nothing when the adapter raises -----

  /** What one interaction leaves of the script, however it ends. */
  function Rest(script: seq<Reaction>): seq<Reaction> {
    if script == [] then [] else script[1..]
  }

  /** `n` interactions that must be answered. */
  function AfterAnswers(script: seq<Reaction>, n: nat): (r: Option<seq<Reaction>>)
    ensures r.Some? ==> |r.value| <= |script|
  {
    if |script| >= n && forall i :: 0 <= i < n ==> script[i].reply.Answered? then Some(script[n..]) else None
  }

  /** `wait_turn_completed`: the first wait, or after one poll that may time out the second. */
  function AfterWait(script: seq<Reaction>): (r: Option<seq<Reaction>>)
    ensures r.Some? ==> |r.value| <= |script|
  {
    if script == [] then None
    else if script[0].reply.Answered? then Some(script[1..])
    else if script[0].reply.TimedOut? && |script| >= 3 && !script[1].reply.Broken? then AfterAnswers(script[2..], 1)
    else None
  }

  /** What the completion says: the value of the answer that ended the wait. */
  function EndOf(script: seq<Reaction>): string
    requires AfterWait(script).Some?
  {
    if script[0].reply.Answered? then script[0].reply.value else script[2].reply.value
  }

  /** A turn that must start and complete. */
  function AfterTurn(script: seq<Reaction>): (r: Option<seq<Reaction>>)
    ensures r.Some? ==> |r.value| <= |script|
  {
    if AfterAnswers(script, 1).None? then None else AfterWait(script[1..])
  }

  /** The ledger after the adapter's own `steps`, possibly mixed with server-driven events. */
  ghost predicate Advanced(before: Ledger, after: Ledger, steps: seq<Kind>, state: State) {
    && after.ids == before.ids
    && after.state == state
    && before.events <= after.events
    && Trace(after.events) == Trace(before.events) + steps
    && after.results == before.results
  }

  /** The ledgers and what stands behind them agree. */
  ghost predicate WorldOk(tool: Tool, turns: nat, o: Outside) {
    && FilesOk(tool, turns, o.files)
    && match o.behind
       case SinkSide(ran) => tool.Sink? && forall i :: 0 <= i < |o.files.effects| ==> o.files.effects[i].turn in ran
       case GateSide(world) => tool.Gate? && GateOk(tool.AsGate(), turns, world) && o.files == Visible(Seen(world))
  }

  lemma FreshIsOk(tool: Tool)
    ensures WorldOk(tool, 0, Fresh(tool))
  {
  }

  lemma SinkKeepsWorldOk(tool: Tool, turns: nat, o: Outside, a: Activity)
    requires WorldOk(tool, turns, o) && tool.Sink?
    ensures WorldOk(tool, turns, Act(tool, turns, o, a)) && Grew(o.files, Act(tool, turns, o, a).files)
  {
    if tool.locked && |o.files.effects| == 1 {
      assert Has(o.files.effects, tool.operationId) by {
        assert o.files.effects[0].operationId == tool.operationId;
      }
    }
  }

  lemma VisibleGrows(before: Gates.GateFiles, after: Gates.GateFiles)
    requires before.effects <= after.effects && before.results <= after.results
    ensures Grew(Visible(before), Visible(after))
  {
  }

  lemma SeenIsFiled(tool: GateTool, turns: nat, w: GateWorld)
    requires GateOk(tool, turns, w)
    ensures Filed(tool, turns, Seen(w))
  {
    if w.inflight.Some? {
      StageFiled(tool, turns, w.base, w.inflight.value.call, w.inflight.value.stage);
    }
  }

  lemma VisibleFilesOk(tool: Tool, turns: nat, f: Gates.GateFiles)
    requires tool.Gate? && Filed(tool.AsGate(), turns, f)
    ensures FilesOk(tool, turns, Visible(f))
  {
  }

  lemma GateKeepsWorldOk(tool: Tool, turns: nat, o: Outside, a: Activity)
    requires WorldOk(tool, turns, o) && tool.Gate?
    ensures WorldOk(tool, turns, Act(tool, turns, o, a)) && Grew(o.files, Act(tool, turns, o, a).files)
  {
    if a.GateMoves? {
      var gate, w := tool.AsGate(), o.behind.world;
      var moved := Step(gate, turns, w, a.move);
      StepIsOk(gate, turns, w, a.move);
      StepExtends(gate, turns, w, a.move);
      SeenIsFiled(gate, turns, moved);
      VisibleFilesOk(tool, turns, Seen(moved));
      VisibleGrows(Seen(w), Seen(moved));
      hide GateOk, Step, Seen, Filed, FilesOk, Visible;
    }
  }

  /** Whatever the tool does, the ledgers only grow and keep to their bounds. */
  lemma ActKeepsWorldOk(tool: Tool, turns: nat, o: Outside, a: Activity)
    requires WorldOk(tool, turns, o)
    ensures WorldOk(tool, turns, Act(tool, turns, o, a)) && Grew(o.files, Act(tool, turns, o, a).files)
  {
    if tool.Sink? {
      SinkKeepsWorldOk(tool, turns, o, a);
    } else {
      GateKeepsWorldOk(tool, turns, o, a);
    }
  }

  /** So they do when the runner makes the gate's call. */
  lemma CallKeepsWorldOk(tool: Tool, turns: nat, o: Outside)
    requires WorldOk(tool, turns, o) && tool.Gate? && turns > 0
    requires o.behind.GateSide? && o.behind.world.inflight.None?
    ensures WorldOk(tool, turns, Called(tool, o)) && Grew(o.files, Called(tool, o).files)
    ensures Called(tool, o).behind == GateSide(Replayed(tool.AsGate(), o.behind.world))
    ensures Replayed(tool.AsGate(), o.behind.world).controls == o.behind.world.controls + 1
  {
    var gate, w := tool.AsGate(), o.behind.world;
    var next := Replayed(gate, w);
    ReplayIsOk(gate, turns, w);
    SeenIsFiled(gate, turns, next);
    VisibleFilesOk(tool, turns, Seen(next));
    StageExtends(w.base, CallOf(gate, 0), Gates.LAST);
    VisibleGrows(w.base, next.base);
    hide GateOk, FilesOk, Filed, Visible;
  }

  lemma OneTurnMore(tool: Tool, turns: nat, o: Outside)
    requires WorldOk(tool, turns, o)
    ensures WorldOk(tool, turns + 1, o)
  {
    if tool.Gate? {
      OneMoreTurn(tool.AsGate(), turns, o.behind.world);
      hide GateOk;
    }
  }

  /** For a gate the activities are its moves. */
  lemma {:induction false} GateActsAreMoves(tool: Tool, turns: nat, o: Outside, work: seq<Activity>)
    requires tool.Gate? && o.behind.GateSide? && o.files == Visible(Seen(o.behind.world))
    ensures var w := Continue(tool.AsGate(), turns, o.behind.world, MovesOf(work));
      ActAll(tool, turns, o, work) == Outside(Visible(Seen(w)), GateSide(w))
  {
    hide Seen, Visible, Step;
    if work == [] {
      assert Continue(tool.AsGate(), turns, o.behind.world, []) == o.behind.world;
    } else {
      var front, last := work[..|work| - 1], work[|work| - 1];
      GateActsAreMoves(tool, turns, o, front);
      if last.GateMoves? {
        var moves := MovesOf(work);
        assert moves[..|moves| - 1] == MovesOf(front) && moves[|moves| - 1] == last.move;
      } else {
        assert MovesOf(work) == MovesOf(front);
      }
    }
  }

  class Host {
    const ledger: CaseLedger
    const tool: Tool
    var files: Files
    var turns: nat
    var behind: Behind
    var script: seq<Reaction>
    ghost const whole: seq<Reaction>
    ghost var history: seq<Moment>
    ghost var replays: nat

    ghost predicate Consistent()
      reads this, ledger
    {
      && Coherent(ledger.View()) && WorldOk(tool, turns, World())
      && (behind.GateSide? ==> behind.world.controls == replays)
    }

    /** The world is what the script so far has made of it. */
    ghost predicate Recorded()
      reads this, ledger
    {
      && Approvals(ledger.events) == Heard(history)
      && World() == Play(tool, history) && Reactions(history) + script == whole
      && forall i :: 0 <= i < |history| && history[i].Met? ==> history[i].turns <= turns
    }

    ghost predicate Valid()
      reads this, ledger
    {
      Consistent() && Recorded()
    }

    constructor (ledger: CaseLedger, tool: Tool, script: seq<Reaction>)
      requires Coherent(ledger.View()) && Approvals(ledger.events) == 0
      ensures Valid() && this.ledger == ledger && this.tool == tool
      ensures World() == Fresh(tool) && turns == 0 && replays == 0
      ensures this.script == whole == script && history == []
    {
      this.ledger, this.tool, this.script := ledger, tool, script;
      files, turns, behind, replays := EMPTY, 0, Fresh(tool).behind, 0;
      whole, history := script, [];
      FreshIsOk(tool);
    }

    function World(): Outside
      reads this
    {
      Outside(files, behind)
    }

    /** The tool does something, or nothing. */
    method RunTool(activity: Activity)
      requires Consistent()
      modifies this`files, this`behind
      ensures Consistent() && Grew(old(files), files)
      ensures World() == Act(tool, turns, old(World()), activity)
    {
      ActKeepsWorldOk(tool, turns, World(), activity);
      hide WorldOk, Step, Seen, Visible;
      match behind {
        case SinkSide(ran) =>
          if tool.Sink? && activity.ToolRuns? && activity.turn < turns && (tool.locked || activity.turn !in ran) {
            var run := SinkRun(tool.operationId, tool.key, tool.toolClass, activity.turn, activity.dies);
            files := if tool.locked then RunSink(files, run) else RunBlind(files, run);
            behind := SinkSide(ran + {activity.turn});
          }
        case GateSide(world) =>
          if tool.Gate? && activity.GateMoves? {
            var moved := Step(tool.AsGate(), turns, world, activity.move);
            files, behind := Visible(Seen(moved)), GateSide(moved);
          }
      }
    }

    /** `handle_server_request`: log the decision for a request of the candidate. */
    method Serve(kind: Kind)
      requires Consistent() && kind.ServerDriven()
      modifies ledger
      ensures Consistent()
      ensures Advanced(old(ledger.View()), ledger.View(), [], old(ledger.state))
      ensures Approvals(ledger.events) == old(Approvals(ledger.events)) + if kind.ApprovalRequested? then 1 else 0
      ensures |ledger.events| == |old(ledger.events)| + 1 && ledger.events[|ledger.events| - 1].kind == kind
    {
      hide WorldOk, Trace;
      ledger.Log(kind);
    }

    method Perform(activity: Activity)
      requires Consistent()
      modifies this`files, this`behind, ledger
      ensures Consistent() && Grew(old(files), files)
      ensures World() == Act(tool, turns, old(World()), activity)
      ensures Advanced(old(ledger.View()), ledger.View(), [], old(ledger.state))
      ensures Approvals(ledger.events) == old(Approvals(ledger.events)) + if activity.AsksApproval? then 1 else 0
      // A request of the candidate is answered by one event: the decision on its command, or a denial.
      ensures activity.AsksApproval? || activity.OtherServerRequest? ==>
        && |ledger.events| == |old(ledger.events)| + 1
        && ledger.events[|ledger.events| - 1].kind ==
          if activity.AsksApproval? then ApprovalRequested(activity.allowlisted) else ServerRequestDenied
      ensures activity.ToolRuns? || activity.GateMoves? ==> ledger.events == old(ledger.events)
    {
      match activity
      case ToolRuns(_, _) => RunTool(activity);
      case GateMoves(_) => RunTool(activity);
      case AsksApproval(allowlisted) => Serve(ApprovalRequested(allowlisted));
      case OtherServerRequest => Serve(ServerRequestDenied);
    }

    method PerformAll(work: seq<Activity>)
      requires Consistent()
      modifies this`files, this`behind, ledger
      ensures Consistent() && Grew(old(files), files)
      ensures World() == ActAll(tool, turns, old(World()), work)
      ensures Advanced(old(ledger.View()), ledger.View(), [], old(ledger.state))
      ensures Approvals(ledger.events) == old(Approvals(ledger.events)) + Asks(work)
    {
      hide Coherent, WorldOk;
      for i := 0 to |work|
        invariant Consistent() && Grew(old(files), files)
        invariant World() == ActAll(tool, turns, old(World()), work[..i])
        invariant Approvals(ledger.events) == old(Approvals(ledger.events)) + Asks(work[..i])
        invariant Advanced(old(ledger.View()), ledger.View(), [], old(ledger.state))
      {
        assert work[..i + 1][..i] == work[..i];
        Perform(work[i]);
      }
      assert work[..|work|] == work;
    }

    /** One interaction: the script decides what happens meanwhile and how it ends. */
    method Call() returns (reply: Reply)
      requires Valid()
      modifies this`files, this`behind, this`script, this`history, ledger
      ensures Valid() && Grew(old(files), files) && Since(old(history), old(script), history, script, turns, true)
      ensures old(script) == [] ==>
        reply == TimedOut && script == [] && World() == old(World()) && ledger.View() == old(ledger.View())
      ensures old(script) != [] ==>
        && reply == old(script)[0].reply
        && script == old(script)[1..]
        && World() == ActAll(tool, turns, old(World()), old(script)[0].work)
        && Approvals(ledger.events) == old(Approvals(ledger.events)) + Asks(old(script)[0].work)
      ensures Advanced(old(ledger.View()), ledger.View(), [], old(ledger.state))
    {
      hide Coherent, WorldOk, ActAll, Trace, Play, Reactions, Heard;
      if script == [] {
        return TimedOut;
      }
      var reaction := script[0];
      reply := reaction.reply;
      PerformAll(reaction.work);
      OneMoreMoment(tool, history, Met(turns, reaction, true));
      history, script := history + [Met(turns, reaction, true)], script[1..];
      assert Reactions(history) + script == whole;
    }

    /** Time passes while the adapter talks to nobody: the tool goes on, the connection is not read. */
    method Elapse()
      requires Valid()
      modifies this`files, this`behind, this`script, this`history
      ensures Valid() && Grew(old(files), files)
      ensures Since(old(history), old(script), history, script, turns, false)
      ensures script == Rest(old(script))
      ensures World() ==
        if old(script) == [] then old(World()) else ActAll(tool, turns, old(World()), old(script)[0].work)
    {
      hide WorldOk, Coherent, Act, Play, Reactions, Heard;
      if script == [] {
        return;
      }
      var work := script[0].work;
      for i := 0 to |work|
        invariant Consistent() && Grew(old(files), files) && script == old(script) && history == old(history)
        invariant World() == ActAll(tool, turns, old(World()), work[..i])
      {
        assert work[..i + 1][..i] == work[..i];
        RunTool(work[i]);
      }
      assert work[..|work|] == work;
      OneMoreMoment(tool, history, Met(turns, script[0], false));
      hide ActAll;
      history, script := history + [Met(turns, script[0], false)], script[1..];
    }

    /** The adapter makes the gate's call itself, once the lock is free. */
    method Replay()
      requires Valid() && tool.Gate? && turns > 0
      requires behind.GateSide? && behind.world.inflight.None?
      modifies this`files, this`behind, this`replays, this`history
      ensures replays == old(replays) + 1
      ensures Valid() && Grew(old(files), files) && behind.GateSide? && old(history) <= history
      ensures behind.world == Replayed(tool.AsGate(), old(behind).world)
    {
      hide Coherent, WorldOk, ActAll, Called, Replayed, Play, Reactions, Heard, Grew;
      CallKeepsWorldOk(tool, turns, World());
      OneMoreMoment(tool, history, OwnCall);
      var next := Called(tool, World());
      files, behind, replays := next.files, next.behind, replays + 1;
      history := history + [OwnCall];
      assert World() == next;
      assert Consistent();
      assert Reactions(history) == old(Reactions(history));
    }

    /** `case.event` for the adapter's own steps that mirror no other file. */
    method Note(kind: Kind)
      requires Valid()
      requires !kind.ServerDriven() && !kind.ScheduleTriggered? && !kind.AttemptMoved? && !kind.ResultRecorded?
      modifies ledger
      ensures Valid()
      ensures Advanced(old(ledger.View()), ledger.View(), [kind], old(ledger.state))
      ensures Approvals(ledger.events) == old(Approvals(ledger.events))
    {
      ledger.Log(kind);
    }

    /** `case.set_state`. */
    method Assign(s: State)
      requires Valid()
      modifies ledger
      ensures Valid()
      ensures Advanced(old(ledger.View()), ledger.View(), [], s)
    {
      ledger.Update(s);
    }

    /** `case.refresh_state`: a no-op on a coherent ledger. */
    method Reload()
      requires Valid()
      modifies ledger
      ensures Valid() && ledger.View() == old(ledger.View())
    {
      ledger.Refresh();
    }

    /** `case.schedule`. */
    method Schedule(trigger: string, missed: bool, late: bool)
      requires Valid()
      modifies ledger
      ensures Valid()
      ensures Advanced(old(ledger.View()), ledger.View(), [ScheduleTriggered(trigger, missed, late)], old(ledger.state))
    {
      ledger.Schedule(trigger, missed, late);
    }

    /** `case.attempt`. */
    method Attempt(attempt: nat, mode: Mode, phase: Phase, outcome: string)
      requires Valid()
      modifies ledger
      ensures Valid()
      ensures Advanced(old(ledger.View()), ledger.View(), [AttemptMoved(attempt, mode, phase, outcome)],
        old(ledger.state))
    {
      ledger.Attempt(attempt, mode, phase, outcome);
    }

    /** `case.finish_result`. */
    method Finish(outcome: string, effects: nat, toolResults: nat)
      requires Valid()
      modifies ledger
      ensures Valid()
      ensures ledger.state == old(ledger.state).(resultStatus := "completed", lastCheckpoint := "result-recorded")
      ensures old(ledger.events) <= ledger.events
      ensures Trace(ledger.events) == old(Trace(ledger.events)) + [ResultRecorded(outcome, effects, toolResults)]
      ensures ledger.results == old(ledger.results)
           + [ResultRecord(ledger.ids, outcome, effects, toolResults, ledger.state.threadId, ledger.state.turnId)]
    {
      ledger.FinishResult(outcome, effects, toolResults);
    }

    method ThreadStart() returns (ok: bool)
      requires Valid()
      modifies this`files, this`behind, this`script, this`history, ledger
      ensures Valid() && Grew(old(files), files) && Since(old(history), old(script), history, script, turns, true)
      ensures ok <==> AfterAnswers(old(script), 1).Some?
      ensures script == Rest(old(script))
      ensures ok ==> Advanced(old(ledger.View()), ledger.View(), [ThreadStarted],
                old(ledger.state).(threadId := Some(old(script)[0].reply.value), phase := "thread-started",
                lastCheckpoint := "thread-started"))
      ensures !ok ==> Advanced(old(ledger.View()), ledger.View(), [], old(ledger.state))
    {
      hide Coherent, WorldOk, Trace, Host.Valid;
      var reply := Call();
      if !reply.Answered? {
        return false;
      }
      Assign(ledger.state.(threadId := Some(reply.value), phase := "thread-started",
        lastCheckpoint := "thread-started"));
      Note(ThreadStarted);
      ok := true;
    }

    /** Fails when the candidate answers with another thread than the one that was interrupted. */
    method ThreadResume(threadId: string) returns (ok: bool)
      requires Valid()
      modifies this`files, this`behind, this`script, this`history, ledger
      ensures Valid() && Grew(old(files), files) && Since(old(history), old(script), history, script, turns, true)
      ensures ok <==> AfterAnswers(old(script), 1).Some? && old(script)[0].reply.value == threadId
      ensures script == Rest(old(script))
      ensures ok ==> Advanced(old(ledger.View()), ledger.View(), [ThreadResumed],
                old(ledger.state).(threadId := Some(threadId), phase := "thread-resumed",
                  lastCheckpoint := "thread-resumed"))
      ensures !ok ==> Advanced(old(ledger.View()), ledger.View(), [], old(ledger.state))
    {
      hide Coherent, WorldOk, Trace, Host.Valid;
      var reply := Call();
      if !reply.Answered? || reply.value != threadId {
        return false;
      }
      Assign(ledger.state.(threadId := Some(threadId), phase := "thread-resumed", lastCheckpoint := "thread-resumed"));
      Note(ThreadResumed);
      ok := true;
    }

    /** The request leaves before the answer arrives, so a turn counts as dispatched either way. */
    method TurnStart(prompt: Prompt) returns (ok: bool)
      requires Valid()
      modifies this`files, this`behind, this`script, this`history, this`turns, ledger
      ensures Valid() && Grew(old(files), files) && Since(old(history), old(script), history, script, turns, true)
      ensures turns == old(turns) + if prompt.ReconcileNoTool? then 0 else 1
      ensures ok <==> AfterAnswers(old(script), 1).Some?
      ensures script == Rest(old(script))
      ensures ok ==> Advanced(old(ledger.View()), ledger.View(), [TurnStarted(prompt)],
                old(ledger.state).(turnId := Some(old(script)[0].reply.value), phase := "turn-started",
                  lastCheckpoint := "turn-started"))
      ensures !ok ==> Advanced(old(ledger.View()), ledger.View(), [], old(ledger.state))
    {
      hide Coherent, Trace, WorldOk, Play, Reactions, Since;
      OneTurnMore(tool, turns, World());
      if !prompt.ReconcileNoTool? {
        turns := turns + 1;
      }
      var reply := Call();
      if !reply.Answered? {
        return false;
      }
      Assign(ledger.state.(turnId := Some(reply.value), phase := "turn-started", lastCheckpoint := "turn-started"));
      Note(TurnStarted(prompt));
      ok := true;
    }

    /** A first short wait; on its timeout one `thread/read` whose own timeout is ignored, then a second wait. */
    method WaitForEnd() returns (reply: Reply)
      requires Valid()
      modifies this`files, this`behind, this`script, this`history, ledger
      ensures Valid() && Grew(old(files), files) && Since(old(history), old(script), history, script, turns, true)
      ensures reply.Answered? <==> AfterWait(old(script)).Some?
      ensures reply.Answered? ==> script == AfterWait(old(script)).value && reply.value == EndOf(old(script))
      ensures Advanced(old(ledger.View()), ledger.View(), [], old(ledger.state))
    {
      hide Coherent, WorldOk, Trace, Host.Valid, Since;
      reply := Call();
      if reply.TimedOut? {
        ghost var first, rest := history, script;
        reply := PollAndWait();
        SinceThen(old(history), old(script), first, rest, history, script, turns, true);
      }
    }

    /** One `thread/read`, and unless it raises another wait. */
    method PollAndWait() returns (reply: Reply)
      requires Valid()
      modifies this`files, this`behind, this`script, this`history, ledger
      ensures Valid() && Grew(old(files), files) && Since(old(history), old(script), history, script, turns, true)
      ensures reply.Answered? <==> |old(script)| >= 2 && !old(script)[0].reply.Broken? && old(script)[1].reply.Answered?
      ensures reply.Answered? ==> script == old(script)[2..] && reply.value == old(script)[1].reply.value
      ensures Advanced(old(ledger.View()), ledger.View(), [], old(ledger.state))
    {
      hide Coherent, WorldOk, Trace, Host.Valid, Since;
      reply := Call();
      if !reply.Broken? {
        ghost var first, rest := history, script;
        reply := Call();
        SinceThen(old(history), old(script), first, rest, history, script, turns, true);
      }
    }

    /** `wait_turn_completed`: the completion is put on the ledger. */
    method WaitTurnCompleted() returns (ok: bool, status: string)
      requires Valid()
      modifies this`files, this`behind, this`script, this`history, ledger
      ensures Valid() && Grew(old(files), files) && Since(old(history), old(script), history, script, turns, true)
      ensures ok <==> AfterWait(old(script)).Some?
      ensures ok ==> script == AfterWait(old(script)).value && status == EndOf(old(script))
      ensures Advanced(old(ledger.View()), ledger.View(), if ok then [TurnCompleted] else [], old(ledger.state))
    {
      hide Coherent, WorldOk, Trace, Host.Valid;
      var reply := WaitForEnd();
      ok, status := reply.Answered?, "";
      if ok {
        status := reply.value;
        Note(TurnCompleted);
      }
    }

    /** `interrupt`: the fault is on the ledger before the request is sent. */
    method Interrupt(fault: Fault) returns (ok: bool)
      requires Valid()
      modifies this`files, this`behind, this`script, this`history, ledger
      ensures Valid() && Grew(old(files), files) && Since(old(history), old(script), history, script, turns, true)
      ensures Advanced(old(ledger.View()), ledger.View(),
                if ok then [FaultInjected(fault), InterruptRequested] else [FaultInjected(fault)], old(ledger.state))
      ensures ok <==> AfterAnswers(old(script), 1).Some?
      ensures script == Rest(old(script))
    {
      hide Coherent, WorldOk, Trace, Host.Valid;
      Note(FaultInjected(fault));
      var reply := Call();
      if !reply.Answered? {
        return false;
      }
      Note(InterruptRequested);
      ok := true;
    }

    /** `update_effect_status`: what the two external ledgers hold now, copied into the state. */
    method UpdateEffectStatus() returns (seen: Files)
      requires Valid()
      modifies ledger
      ensures Valid() && seen == files
      ensures Advanced(old(ledger.View()), ledger.View(), [], WithEffectStatus(old(ledger.state), seen))
      ensures ledger.state.effectStatus.Applied? <==> files.effects != []
      ensures ledger.state.effectStatus.NoEffect? <==> files.effects == []
    {
      hide Coherent, WorldOk, Trace, Host.Valid;
      seen := files;
      Assign(WithEffectStatus(ledger.state, seen));
    }
  }

  /** What a host shows now is what its history has come to, and its reactions are the first of its script. */
  lemma HeldNow(host: Host)
    requires host.Valid()
    ensures HeldAt(host.tool, host.history, |host.history|, host.turns, host.files)
    ensures Play(host.tool, host.history) == host.World()
    ensures Reactions(host.history) <= host.whole
  {
    hide Play, Coherent, WorldOk;
    assert host.history[..|host.history|] == host.history;
  }

  /** The approvals on the ledger are those that were asked for. */
  lemma HeardIsAsked(host: Host)
    requires host.Valid()
    ensures Approvals(host.ledger.events) == Heard(host.history)
  {
    hide Play, Coherent, WorldOk, Heard;
  }

  lemma HostFiles(host: Host)
    requires host.Valid()
    ensures FilesOk(host.tool, host.turns, host.files)
    ensures host.tool.OneEffect() ==> |host.files.effects| <= 1
    ensures host.tool.toolClass.ReadOnly? ==> host.files.effects == []
  {
    hide Coherent;
  }

  lemma LedgerOf(host: Host)
    requires host.Valid()
    ensures Coherent(host.ledger.View())
  {
    hide Coherent, WorldOk;
  }

  function WithEffectStatus(s: State, seen: Files): State {
    s.(effectStatus := if seen.effects != [] then Applied else NoEffect,
       resultStatus := if seen.toolResults != [] then "completed" else s.resultStatus)
  }
}
