# ZWorkbench evaluation adapters: verified model

This project models the evaluation side of ZWorkbench in Dafny and proves what its protocols
keep. `dafny verify dfyconfig.toml` checks all of it.

The parts, one module per source component:

- **The durable case ledger and the run over it.** `CaseLedgers` is the append-only ledger of
  one run with its mirrored files; `EffectSinks` is the tool's locked effect sink; `Hosts` is the
  candidate behind its app-server connection. Everything outside the adapter is an adversary: each
  interaction consumes one reaction of an arbitrary script, in which tools of any dispatched turn
  may run, die after writing, or run late, approvals may be asked, and the call may be answered,
  time out or raise, and what the adapter reads is tied to the moment of the script at which it
  reads. `Recovery`, `InterruptedCases` (C4) and `Triggers` (C3) are the protocols,
  proved for every script, every fault, every tool class and every list of deliveries. `Courses`
  says what a script makes of a run without running it, and the protocols are proved to go exactly
  that way: when they raise, what they read, and what is on the ledgers in the end.
- **The approval gate and its case.** `ApprovalGates` is the gate with its one-shot tokens, write
  by write, so that a call can be killed between any two of its appends. `GateWorlds` is the gate as
  a process that moves while the runner does something else, `ReplayControls` the replay control
  taken in front of it, and `ApprovalRecovery` the recovery with late settlement after a safe stop.
  `ApprovalCourses` is the case up to there as a function of its script, the settling window included.
  `ApprovalCases` puts them together in the order of the runner: the host's tool is the gate, and
  the control that follows a recovery reads the very ledgers that the recovery read.
- **Stream framing and the message log.** `Framing` is the ACP client's `read_one` over arbitrary
  chunks and the desktop shell's reader; `MessageLog` is the JSON-RPC connection whose one log is
  shared by requests and waits.
- **The regression gate.** `IdentityDiff` is the recursive tree difference and the point mutation
  that provokes it; `NestedDictionaries` is that mutation on dictionaries changed in place;
  `RegressionGate` is the checker; `GateVerdicts` its verdict on the fields of the two summaries alone;
  `UpgradeRatchet` is what a chain of passing gates adds up to;
  `DriftControls` generalises the control cycles of the continuous evaluation.
- **Probing and evidence.** `SemanticShape` and `Probe` are the bounded staging probe;
  `C2Ledgers` and `C2Adapters` are the C2 ledger check and the adapter that writes the ledgers it
  reads; `ValueBaseline` is the N-task comparison; `PixelStats` the page statistics.

`Basics` and `JsonValues` hold the optional value and decoded JSON.

Where the code does less than its documentation or its callers suggest, the model follows the code
and a lemma gives the exact condition:

- The effect sink deduplicates by operation id, not by idempotency key. A key has at most one effect
  exactly when no two operations are first written under it (`EffectSinks.KeyHasOneEffectExactly`);
  two effects under one key are `EffectSinks.TwoEffectsUnderOneKey`.
- A trigger case expects one duplicate per later delivery, which is right exactly when no later
  delivery is a resume (`Triggers.ExpectedDuplicates`).
- The gate does not consume a token whose id is empty, so such a token is granted again
  (`ApprovalGates.EmptyIdIsReused`). A token id is one-shot over every history exactly when it is not
  empty (`ApprovalGates.OneShotExactly`), and a replay is denied exactly then
  (`ApprovalGates.ReplayIsDenied`).
- The gate records a grant before it consumes the token. Over every history a token has two recorded
  grants exactly when two runs showed it before any had spent it; the earlier was then killed in
  between, unless the id is empty (`ApprovalGates.SecondGrantNeedsAKillInBetween`);
  `ApprovalGates.UnspentTokenIsGrantedTwice` is such a history.
- The replay control subtracts counts it takes while the gate may still be moving. It is sure to
  accept exactly when, at the counts, the token is consumed and the call that consumed it has left
  its result or is dead (`ReplayControls.ReplayControlExactly`), and it is sure to look at the
  replay's own record only exactly when every dispatched turn has made its call and none is in flight
  (`ReplayControls.SuffixIsOwnResultExactly`). Recovery waits for the first result, not for that:
  `ReplayControls.EffectWithoutResultConfusesTheControl` and
  `ReplayControls.UnspentTokenIsGrantedAgain` are the two ways to miss it, and
  `ApprovalCases.RunCase` and `ReplayControls.CountsDecide` say when a case does not.
- A request takes the first message with its id for the response. That is sure to be a response
  exactly when the id is none of those the server uses for its own requests
  (`MessageLog.ResponsesExactlyWhenApart`).
- A scenario status outside the four known names is neither a failure nor an open question
  (`UpgradeRatchet.UnlistedStatusPasses`), so a passing gate means that all scenarios pass exactly
  when only known names occur (`UpgradeRatchet.PassMeansAllScenariosPass`).
- The probe's outcome reads "http_success" after an early semantic mismatch exactly when some
  request before the last, started in time, is the first to be answered without the fixture
  (`Probe.RunRepeated`, `Probe.StrayAnswersMislead`). Its time budget can be overrun by less than a
  second, with every answer exact (`Probe.BudgetCanBeOverrun`); it is kept in every world exactly
  for a single request (`Probe.BudgetIsKeptExactly`).
- Full event completeness does not by itself cover every event of a C2 ledger; the exact conditions
  are `C2Ledgers.CompletenessCoversExactly` and `C2Ledgers.CountingLaw`.
- The C2 adapter saves the consumption of a token last, so a call killed before that leaves its
  token armed (`C2Adapters.UnsavedTokenIsArmed`). A token is consumed exactly when some call that
  showed it was saved (`C2Adapters.ConsumedMeansSaved`), and granted twice exactly when two decided
  calls show it with none saved before the later (`C2Adapters.SecondGrantNeedsAnUnsavedCall`).
- The aggregate time saving is the control-weighted mean exactly when no product time was spent on
  tasks that took the control arm none (`ValueBaseline.AggregateIsWeightedMean`);
  `ValueBaseline.UnmatchedTimeHidesSavings` are two arms where it is not.

## Model

| member | source | states |
|---|---|---|
| `CaseLedgers.Emit` | evaluation/runner/run_codex_c3_c4.py:130-147 | the trace grows by exactly this event, and a coherent ledger stays coherent unless the event mirrors a record of another file |
| `CaseLedgers.EventsNameThreadAndTurn` | evaluation/runner/run_codex_c3_c4.py:130-147 | an event carries its kind and the thread and turn of the stored state, and the events before it stay |
| `CaseLedgers.RecordSchedule` | evaluation/runner/run_codex_c3_c4.py:149-162 | a schedule record and its mirrored event are written together, and coherence is kept |
| `CaseLedgers.RecordAttempt` | evaluation/runner/run_codex_c3_c4.py:164-179 | an attempt record and its mirrored event are written together, and coherence is kept |
| `CaseLedgers.RecordResult` | evaluation/runner/run_codex_c3_c4.py:181-195 | a result record and its mirrored event are written together, and coherence is kept |
| `CaseLedgers.LedgerStaysCoherent` | evaluation/runner/run_codex_c3_c4.py:85-195 | after any sequence of ledger operations the events are numbered 1, 2, ..., every record carries the run's ids, the fault file is the fault subsequence of the events, and the schedule, attempt and result files match their mirrored events one to one in order |
| `CaseLedgers.CoherentIffLegal` | evaluation/runner/run_codex_c3_c4.py:130-147 | an operation keeps coherence exactly when it does not log a mirrored kind of event past its file |
| `CaseLedgers.FilesFromTrace` | evaluation/runner/run_codex_c3_c4.py:149-195 | the three record files of a coherent ledger can be recovered from the event kinds alone |
| `CaseLedgers.CaseLedger.constructor` | evaluation/runner/run_codex_c3_c4.py:88-119 | a new case holds the created event only, in its initial state |
| `CaseLedgers.CaseLedger.Log` | evaluation/runner/run_codex_c3_c4.py:130-147 | in place: exactly the ledger value with one more event |
| `CaseLedgers.CaseLedger.Update` | evaluation/runner/run_codex_c3_c4.py:126-128 | in place: memory and stored state are both the new state, and no file changes |
| `CaseLedgers.CaseLedger.Schedule` | evaluation/runner/run_codex_c3_c4.py:149-162 | in place: exactly the ledger value with one more schedule record |
| `CaseLedgers.CaseLedger.Attempt` | evaluation/runner/run_codex_c3_c4.py:164-179 | in place: exactly the ledger value with one more attempt record |
| `CaseLedgers.CaseLedger.FinishResult` | evaluation/runner/run_codex_c3_c4.py:181-195 | in place: exactly the ledger value with one more result record |
| `CaseLedgers.CaseLedger.Refresh` | evaluation/runner/run_codex_c3_c4.py:121-124 | re-reading the stored state changes nothing, since memory and disk agree |
| `EffectSinks.RunSink` | evaluation/fixtures/w7-codex-c3-c4/effect-sink.py:58-91 | whatever a run does and wherever it dies, both ledgers only ever grow |
| `EffectSinks.SinkAppliesExactlyOnce` | evaluation/fixtures/w7-codex-c3-c4/effect-sink.py:59-79 | over any runs an operation has exactly one effect if some run of it may write and none otherwise |
| `EffectSinks.ResultsMatchEffects` | evaluation/fixtures/w7-codex-c3-c4/effect-sink.py:80-91 | when no run is killed every run leaves one result, and as many results claim an application as there are effects of the operation |
| `EffectSinks.KeyHasOneEffectExactly` | evaluation/fixtures/w7-codex-c3-c4/effect-sink.py:59-79 | over any runs a key has at most one effect if and only if no two operations are first written under it |
| `EffectSinks.KeysOfFaithfulOperations` | evaluation/fixtures/w7-codex-c3-c4/effect-sink.py:59-79 | when operations keep their keys, that is if and only if all runs that may write under the key name one operation |
| `EffectSinks.TwoEffectsUnderOneKey` | evaluation/fixtures/w7-codex-c3-c4/effect-sink.py:61-72 | two operations under one key leave two effects |
| `Hosts.ActKeepsWorldOk` | evaluation/fixtures/w7-codex-c3-c4/effect-sink.py:58-91 | whatever the tool does, sink or gate, the ledgers only grow, effects stay within the dispatched turns, at most one with the lookup and none for a read-only tool |
| `Hosts.GateActsAreMoves` | evaluation/fixtures/w7-codex-c4-approval/approval-gate.py:104-169 | for a gate the activities of a script are its moves, so what is proved of the gate holds behind every script |
| `Hosts.HeldNow` | evaluation/runner/run_codex_c3_c4.py:568-575 | a reading of the ledgers shows what the script has made of them by then, and nothing of what it does later |
| `Hosts.Host.Call` | evaluation/runner/run_codex_c3_c4.py:261-313 | one interaction consumes one reaction; the tool ledgers grow by exactly what the reaction's tools do and the case ledger by server-driven events only |
| `Hosts.Host.Perform` | evaluation/runner/run_codex_c3_c4.py:294-313 | a request of the candidate is answered by one event, with the decision on its command or a denial, and the tool alone writes none |
| `Hosts.Host.ThreadStart` | evaluation/runner/run_codex_c3_c4.py:349-366 | succeeds exactly on an answer, whose value is then the thread in state and ledger; otherwise neither changes |
| `Hosts.Host.ThreadResume` | evaluation/runner/run_codex_c3_c4.py:368-377 | succeeds exactly on an answer that names the thread asked for, and one event says so |
| `Hosts.Host.TurnStart` | evaluation/runner/run_codex_c3_c4.py:379-389 | succeeds exactly on an answer, with one turn event; the turns that may call the tool grow by one for a tool-permitting prompt, answered or not, and not at all for a reconcile prompt |
| `Hosts.Host.WaitTurnCompleted` | evaluation/runner/run_codex_c3_c4.py:391-412 | succeeds exactly when the first wait does, or the second after one poll that may time out |
| `Hosts.Host.Interrupt` | evaluation/runner/run_codex_c3_c4.py:424-430 | the fault is on the ledger before the request goes out, even when it then fails, which is exactly when it is not answered |
| `Hosts.Host.UpdateEffectStatus` | evaluation/runner/run_codex_c3_c4.py:568-575 | reads both tool ledgers as they are; the effect status is "applied" exactly when there is an effect, and nothing else changes but the result status |
| `Recovery.SetUp` | evaluation/runner/run_codex_c3_c4.py:578-587 | succeeds, with the provider event, exactly when both processes answer |
| `Recovery.Dispatch` | evaluation/runner/run_codex_c3_c4.py:597-602 | succeeds exactly when thread and turn are answered; a prefix of thread, turn and dispatch events, all three on success; the turn is dispatched by the second request |
| `Recovery.Strike` | evaluation/runner/run_codex_c3_c4.py:604-627 | every fault leaves a prefix of its own trace, the fault event before the interrupt, and succeeds exactly when its own replies let it |
| `Recovery.RunInitial` | evaluation/runner/run_codex_c3_c4.py:597-627 | the first dispatch with any fault: its exact trace on success, a prefix of it otherwise, one tool-permitting turn, retry count and status untouched |
| `Recovery.Reconnect` | evaluation/runner/run_codex_c3_c4.py:630-656 | succeeds exactly when the server, if killed, starts again and the resume names the thread asked for; both tool ledgers are read after that and before anything else is decided |
| `Recovery.ReconcileLedgers` | evaluation/runner/run_codex_c3_c4.py:657-669 | with anything on the ledgers no further tool-permitting turn is dispatched, and the run completes with the counts read |
| `Recovery.RetryTool` | evaluation/runner/run_codex_c3_c4.py:676-688 | the retry is counted before the turn starts; it succeeds exactly when the turn starts and completes and, for a write, exactly one effect is then visible |
| `Recovery.Resolve` | evaluation/runner/run_codex_c3_c4.py:656-688 | reconcile, safe stop or one retry is chosen by what was read, the fault and the tool class; it succeeds exactly when the replies and, for a retried write, the one effect let it |
| `Recovery.Recover` | evaluation/runner/run_codex_c3_c4.py:630-688 | exception-free recovery leaves exactly the trace of one of the three plans; at most one further tool-permitting turn, only on two empty ledgers and never for a timed-out approved tool; what it decides on is what the ledgers held at one moment of the run, before a further turn |
| `Courses.FollowedWorld` | evaluation/runner/run_codex_c3_c4.py:568-575 | the ledgers a run shows are a function of its script and of the reactions at which its two turns are dispatched |
| `Courses.Start` | evaluation/runner/run_codex_c3_c4.py:578-627 | setup and first dispatch succeed exactly when their replies let them, and follow the script reaction by reaction |
| `Courses.RecoverCase` | evaluation/runner/run_codex_c3_c4.py:630-688 | recovery succeeds exactly when the script lets it, and its plan, what it read, the ledgers in the end and the effect status are those the script gives |
| `Courses.ActsExactly` | evaluation/runner/run_codex_c3_c4.py:656-688 | when the turn of recovery completes, only a retried write can raise: it must leave exactly one effect |
| `InterruptedCases.VerdictIsApprovalEvidence` | evaluation/runner/run_codex_c3_c4.py:789-854 | with at most one effect the C4 verdict of an exception-free run depends on the recorded approvals alone |
| `InterruptedCases.TwoEffectsFail` | evaluation/runner/run_codex_c3_c4.py:796-822 | two effects on the ledger always fail the case |
| `InterruptedCases.EffectsWithinTurns` | evaluation/runner/run_codex_c3_c4.py:670-684 | effects never outnumber tool-permitting turns, and two effects need the interrupted turn's tool |
| `InterruptedCases.Attempt` | evaluation/runner/run_codex_c3_c4.py:862-873 | setup, fault and recovery leave a prefix of one case trace, all of it without an exception |
| `InterruptedCases.Judge` | evaluation/runner/run_codex_c3_c4.py:874-886 | pass, fail or undecided follows from the effects and the approval evidence; a missing approval request is put on the ledger |
| `InterruptedCases.RunC4Case` | evaluation/runner/run_codex_c3_c4.py:857-892 | for every fault, tool class and script: the case raises exactly when the script does not let it through, and otherwise its plan, the ledgers it read, those in the end and the approvals asked for are those of the script; coherent ledger, at most one effect behind the sink and none for read-only, at most one result and two tool-permitting turns, the second only after the script had left both ledgers empty; an exception is undecided; otherwise the run completes or stops safely, and its verdict is fixed by the approval evidence, never "pass" for an approval-required case without one |
| `InterruptedCases.AnsweredCaseGoesThrough` | evaluation/runner/run_codex_c3_c4.py:857-892 | under every fault, ten answers of which the eighth names the thread of the third let a case through, unless a retried write leaves another number of effects than one |
| `InterruptedCases.RetriedCaseCompletes` | evaluation/runner/run_codex_c3_c4.py:857-892 | a case in which the tool runs in the retried turn only completes after the retry with one effect and one result |
| `Triggers.CaseTraceFiles` | evaluation/runner/run_codex_c3_c4.py:741-780 | for every list of deliveries: one schedule record each, a started and a terminal attempt each, one result, and one duplicate event per later trigger-mode delivery |
| `Triggers.DeliveryAt` | evaluation/runner/run_codex_c3_c4.py:748-778 | delivery i is exactly the started and terminal attempt number i + 1, so attempt numbers are distinct and paired |
| `Triggers.ExpectedDuplicates` | evaluation/runner/run_codex_c3_c4.py:779-780 | the expected duplicate count of the runner is right if and only if no later delivery is a resume |
| `Triggers.InterruptedRetryScenario` | evaluation/runner/run_codex_c3_c4.py:779-780 | the one fixed scenario with a resume has one duplicate, the number given for it |
| `Triggers.TraceMeansDeliveredOnce` | evaluation/runner/run_codex_c3_c4.py:691-715 | the trace of a case determines all its ledger files, delivery by delivery |
| `Triggers.VerifyC3Exactly` | evaluation/runner/run_codex_c3_c4.py:691-738 | the C3 verdict of an exception-free case holds exactly when one effect and a result are visible, the status says applied and the duplicate expectation is right |
| `Triggers.ClaimAndRun` | evaluation/runner/run_codex_c3_c4.py:763-768 | claim, setup and dispatch succeed exactly when the script lets them, and the effect status is then that of the ledgers after the turn |
| `Triggers.DispatchClaimed` | evaluation/runner/run_codex_c3_c4.py:763-777 | the claimed delivery dispatches once, or twice after an interrupt whose ledgers were empty, completes with one result, and goes exactly as the script says |
| `Triggers.Deduplicate` | evaluation/runner/run_codex_c3_c4.py:752-762 | a delivery of a completed run dispatches nothing and leaves its own two records |
| `Triggers.Deliver` | evaluation/runner/run_codex_c3_c4.py:748-778 | whether a delivery dispatches depends on the durable status alone |
| `Triggers.RunC3Case` | evaluation/runner/run_codex_c3_c4.py:741-786 | for every delivery list, interrupt and script, late tools during later deliveries included: it raises exactly when the script does not let the first delivery through; at most one effect behind the sink, one result and two tool-permitting turns; exception-free, only the first delivery dispatches, the files show one delivery of the key, and settlement and ledgers are those of the script; the case passes exactly when one effect and a result are visible, the last reading of the ledgers showed an effect, and the expectation is right |
| `ApprovalGates.Stage` | evaluation/fixtures/w7-codex-c4-approval/approval-gate.py:88-171 | a call stopped after any of its writes only ever adds to the ledgers and to the consumed tokens |
| `ApprovalGates.AllowedExactly` | evaluation/fixtures/w7-codex-c4-approval/approval-gate.py:115-127 | a call is allowed exactly for a case-local resource, the action of its class and, when approval is required, an unconsumed token for this action and resource, once |
| `ApprovalGates.ConsumedExactly` | evaluation/fixtures/w7-codex-c4-approval/approval-gate.py:115-147 | a token id is consumed if and only if some run that may spend it got past its decision |
| `ApprovalGates.OneShotTokens` | evaluation/fixtures/w7-codex-c4-approval/approval-gate.py:104-169 | over any calls, each killed after any write: one effect per operation, every approved effect shows a token, its id consumed unless it is empty, and no other id stands behind two |
| `ApprovalGates.OneShotExactly` | evaluation/fixtures/w7-codex-c4-approval/approval-gate.py:115-147 | a token id has at most one approved effect on every history if and only if it is not empty |
| `ApprovalGates.EmptyIdIsReused` | evaluation/fixtures/w7-codex-c4-approval/approval-gate.py:145-147 | a token with an empty id is granted twice and leaves two approved effects |
| `ApprovalGates.ReplayIsDenied` | evaluation/fixtures/w7-codex-c4-approval/approval-gate.py:115-147 | once an allowed call has got past its consumption, a later exact call with that token is denied, leaving one blocked result and no effect, if and only if the id is not empty |
| `ApprovalGates.GrantsAreGrantedRuns` | evaluation/fixtures/w7-codex-c4-approval/approval-gate.py:110-136 | the recorded grants of a token are the runs that showed it exactly before any run had spent it |
| `ApprovalGates.SecondGrantNeedsAKillInBetween` | evaluation/fixtures/w7-codex-c4-approval/approval-gate.py:110-147 | over every history a token has more than one recorded grant if and only if two runs showed it exactly and were decided before any had spent it; the earlier was killed between its decision and the consumption, or the id is empty |
| `ApprovalGates.UnspentTokenIsGrantedTwice` | evaluation/fixtures/w7-codex-c4-approval/approval-gate.py:136-147 | with any id: a call killed after its decision and its repetition leave two recorded grants |
| `GateWorlds.StepIsOk` | evaluation/fixtures/w7-codex-c4-approval/approval-gate.py:104-169 | whatever the gate does next, each call of a dispatched turn has left its result, died, or is in flight; one effect at most, none for a read-only tool |
| `GateWorlds.ContinueExtends` | evaluation/fixtures/w7-codex-c4-approval/approval-gate.py:104-169 | whatever the gate does, a reader sees its ledgers only grow |
| `GateWorlds.ReportedMeansOver` | evaluation/runner/run_codex_c4_approval.py:151-160 | one result per dispatched turn on the ledger means that no call died, none is in flight, and a grant is consumed |
| `GateWorlds.AtomicEvidenceIsAResult` | evaluation/fixtures/w7-codex-c4-approval/approval-gate.py:156-168 | if the appends after the consumption come in one step, any evidence is a result |
| `GateWorlds.ResultsAreBounded` | evaluation/runner/run_codex_c4_approval.py:231-231 | never more results than dispatched turns and the runner's own calls |
| `ReplayControls.SuffixIsOwnResultExactly` | evaluation/runner/run_codex_c4_approval.py:248-282 | whatever the gate does meanwhile, the records the control looks at are exactly the replay's own, if and only if at the counts every dispatched turn has made its call and none is in flight |
| `ReplayControls.ReplayControlExactly` | evaluation/runner/run_codex_c4_approval.py:248-282 | whatever the gate does meanwhile, the control accepts, if and only if at the counts the token is consumed and the call that consumed it has left its result or is dead |
| `ReplayControls.SettledIsAccepted` | evaluation/runner/run_codex_c4_approval.py:248-282 | from such a state every continuation is denied: the control sees no effect and blocked results only |
| `ReplayControls.ReportedIsSettled` | evaluation/runner/run_codex_c4_approval.py:151-160 | one result per dispatched turn and a recorded grant are enough for both |
| `ReplayControls.ExecutedIsSettled` | evaluation/runner/run_codex_c4_approval.py:151-160 | one executed result on the ledger is enough for the control to accept |
| `ReplayControls.CountsDecide` | evaluation/runner/run_codex_c4_approval.py:248-282 | by the two counts alone: with one result per dispatched turn counted, the records are the one refusal, and the control accepts unless an effect came after the effects were counted |
| `ReplayControls.EffectWithoutResultConfusesTheControl` | evaluation/runner/run_codex_c4_approval.py:151-166 | an effect whose result is still to come is evidence enough to complete, and yet the control can refuse |
| `ReplayControls.UnspentTokenIsGrantedAgain` | evaluation/fixtures/w7-codex-c4-approval/approval-gate.py:136-147 | where the first call died before it consumed its token, the replay is granted and the control refuses |
| `ApprovalRecovery.AwaitSettlement` | evaluation/runner/run_codex_c4_approval.py:156-160 | it waits for a tool result: each look of the window is taken only while there is none, and all of them are taken unless one comes |
| `ApprovalRecovery.StopAndSettle` | evaluation/runner/run_codex_c4_approval.py:148-167 | after the safe stop and that window the run completes exactly when some ledger is no longer empty, sink or gate |
| `ApprovalRecovery.RetryGate` | evaluation/runner/run_codex_c4_approval.py:168-176 | one counted retry whose outcome, a refusal included, completes the run with one result |
| `ApprovalRecovery.Recover` | evaluation/runner/run_codex_c4_approval.py:127-179 | succeeds exactly when resume and turn are let through; a timed-out approved call is never run again: it waits for a late result, and ends safely stopped with no result and empty ledgers, or completed with one result on ledger evidence |
| `ApprovalCourses.LateResultSettles` | evaluation/runner/run_codex_c4_approval.py:156-166 | a tool result within the window of a timed-out approved call makes it complete after the stop |
| `ApprovalCourses.StoppedMeansNothingCame` | evaluation/runner/run_codex_c4_approval.py:156-167 | a case that stays stopped used its whole window up, saw no tool result in it, and found both ledgers empty at its end |
| `ApprovalCases.NegativeControlsHold` | evaluation/runner/run_codex_c4_approval.py:263-267 | without a token, and with a token for another action, the gate denies, blocks and applies nothing |
| `ApprovalCases.RunInitial` | evaluation/runner/run_codex_c4_approval.py:182-208 | the first dispatch with any fault: it succeeds exactly when its replies let it, with its exact trace and one tool-permitting turn |
| `ApprovalCases.CountAndReplay` | evaluation/runner/run_codex_c4_approval.py:273-282 | count, replay and read again: the control is taken exactly when the replay gets the lock; the counts, the control, the records it sees and the ledgers in the end are those of the gate's moves in between |
| `ApprovalCases.TakeControl` | evaluation/runner/run_codex_c4_approval.py:272-282 | the control is taken exactly where a call was allowed and the replay gets the lock; counts, control and records are fixed by what the gate does from the end of recovery on |
| `ApprovalCases.ControlTells` | evaluation/runner/run_codex_c4_approval.py:271-282 | of any control so taken: one result per dispatched turn at the counts leaves one refusal and acceptance, one executed result leaves acceptance, and by the counts alone only a later effect can make it refuse |
| `ApprovalCases.ControlFollows` | evaluation/runner/run_codex_c4_approval.py:270-282 | and after a recovery that completed on evidence, atomic appends are enough for both |
| `ApprovalCases.VerdictIsEffectAndControl` | evaluation/runner/run_codex_c4_approval.py:211-236 | of the conditions of the verdict, only the visible effect and the control are left open by an exception-free run |
| `ApprovalCases.RunCase` | evaluation/runner/run_codex_c4_approval.py:256-293 | for every fault, tool class and script: it raises exactly when the script does not let it through or the replay does not get the lock; coherent ledger, one effect at most, two tool-permitting turns at most and one for a timed-out approved call; no result when safely stopped and one when completed; the ledgers are those the script leads to and the control is the one the gate's moves lead to; with atomic appends a run completed on evidence is followed by a control that sees the one refusal and accepts, without them one result per dispatched turn gives the same, and one executed result acceptance; the case passes exactly when the effect is visible or not expected and the control, if taken, accepts |
| `Framing.SegmentsRoundTrip` | evaluation/runner/run_deepseek_c3_c4.py:305-316 | splitting at separators loses nothing: the segments and the tail give the stream back |
| `Framing.SegmentsAreMarkFree` | evaluation/runner/run_deepseek_c3_c4.py:305-316 | no segment and no tail contains a separator, so the split is the only one |
| `Framing.AcpClient.Cut` | evaluation/runner/run_deepseek_c3_c4.py:303-309 | taking one segment off the buffer removes exactly the first line of what is left of the stream, or an empty one |
| `Framing.AcpClient.Refill` | evaluation/runner/run_deepseek_c3_c4.py:310-330 | an arriving chunk moves bytes from the pipe to the buffer and changes nothing else |
| `Framing.AcpClient.NextLine` | evaluation/runner/run_deepseek_c3_c4.py:299-330 | buffered lines first, then the pipe, until a line is complete: that line, no sooner and no later; a timeout comes from the deadline only, after chunks that completed no line |
| `Framing.AcpClient.ReadOne` | evaluation/runner/run_deepseek_c3_c4.py:297-341 | for every chunking, the lines taken so far and the lines of what is left are together the lines of the whole stream; exit is reported only when all are taken; a timeout loses nothing; it times out only at the deadline, and never when the chunks before it complete a line |
| `Framing.CompletedInTime` | evaluation/runner/run_deepseek_c3_c4.py:303-330 | no timeout where the chunks before the deadline complete a non-empty line |
| `Framing.AcpClient.WaitFrame` | evaluation/runner/run_deepseek_c3_c4.py:351-357 | returns the first wanted frame before the deadline, all frames before it having been read and refused |
| `Framing.SegmentsExtend` | desktop/main.js:108-113 | splitting the buffered tail with a new chunk continues the split of the whole output |
| `Framing.Drain` | desktop/main.js:111-130 | the inner loop finds the first announcement among the complete lines and keeps the unterminated rest |
| `Framing.WaitForServing` | desktop/main.js:93-130 | whatever the chunks, the address is the first announcement among the complete lines of the whole output |
| `MessageLog.AppServer.ReadOne` | evaluation/runner/run_codex_c3_c4.py:278-292 | every message is logged before anything else, and a server request is answered once |
| `MessageLog.AppServer.WaitFor` | evaluation/runner/run_codex_c3_c4.py:338-347 | returns the earliest match from its start in the log as it then is; reads nothing when the log already has one and nothing beyond it otherwise; it gives up at a deadline or the end only |
| `MessageLog.AppServer.Request` | evaluation/runner/run_codex_c3_c4.py:261-276 | ids are fresh and increasing; the result is the first message read since that carries the id, and it is a response if the server's own requests use other ids; it gives up at a deadline or the end only |
| `MessageLog.AppServer.WaitTurnCompleted` | evaluation/runner/run_codex_c3_c4.py:391-412 | a completion is found wherever it was read, also while another response was awaited |
| `MessageLog.LogGrows` | evaluation/runner/run_codex_c3_c4.py:338-347 | the earliest match never changes as the log grows |
| `MessageLog.DisjointIdsSuffice` | evaluation/runner/run_codex_c3_c4.py:261-276 | server-originated ids kept apart (section 5 of JSON-RPC 2.0 has a response repeat the id of its request) make the first message with the id a response |
| `MessageLog.ServerRequestIsTakenForTheResponse` | evaluation/runner/run_codex_c3_c4.py:261-276 | a log in which a server request with the id is returned although the response follows |
| `MessageLog.ResponsesExactlyWhenApart` | evaluation/runner/run_codex_c3_c4.py:261-276 | in every log whose server requests use given ids a request is answered by a response if and only if its id is none of them |
| `IdentityDiff.DiffsAreDisagreements` | evaluation/runner/check_regression.py:75-93 | a path is reported if and only if the two trees, looked up along it, disagree about its last key |
| `IdentityDiff.NoDifferenceMeansEqual` | evaluation/runner/check_regression.py:75-93 | no difference is reported if and only if the trees are equal |
| `IdentityDiff.SwapArguments` | evaluation/runner/check_regression.py:75-93 | swapping the arguments swaps "added" and "removed" and nothing else |
| `IdentityDiff.Triangle` | evaluation/runner/check_regression.py:75-93 | every path reported between a and c has that path or one above it reported between a and b or between b and c |
| `IdentityDiff.SetPathIsSeenExactly` | evaluation/runner/run_continuous_evaluation.py:54-58 | after replacing anything at a path the difference is the difference at that point and nothing else |
| `IdentityDiff.LeafMutationIsOneDifference` | evaluation/runner/run_continuous_evaluation.py:208-211 | replacing a leaf by a different leaf succeeds and is reported as exactly that one path |
| `IdentityDiff.IdentityDifferences` | evaluation/runner/check_regression.py:75-93 | the list of strings is the tree difference rendered path by path, in sorted key order |
| `NestedDictionaries.ReplacedBelow` | evaluation/runner/run_continuous_evaluation.py:54-58 | writing one entry of the dictionary above the end of a path changes the tree of every dictionary above it as the point mutation does |
| `NestedDictionaries.Descend` | evaluation/runner/run_continuous_evaluation.py:55-57 | the walk reaches the dictionary above the last key exactly when the tree has an object there |
| `NestedDictionaries.SetPath` | evaluation/runner/run_continuous_evaluation.py:54-58 | in place: succeeds exactly when the tree mutation does and gives its tree; otherwise nothing has changed |
| `NestedDictionaries.DeepCopy` | evaluation/runner/run_continuous_evaluation.py:208-211 | a new tree of the same value that shares no dictionary with the old one |
| `NestedDictionaries.MakeMutatedIdentity` | evaluation/runner/run_continuous_evaluation.py:208-211 | the base identity keeps its value, and a changed leaf is the one difference between the two |
| `RegressionGate.CheckSummaryIdentity` | evaluation/runner/check_regression.py:96-126 | reports exactly the identity objections of a summary |
| `RegressionGate.CheckProviderC1` | evaluation/runner/check_regression.py:129-157 | reports exactly the problems of the provider's totals and of each of its samples |
| `RegressionGate.InspectScenarios` | evaluation/runner/check_regression.py:173-177 | failures are exactly the failed scenarios, open questions exactly the unknown and composition-required ones |
| `RegressionGate.InspectProviders` | evaluation/runner/check_regression.py:186-202 | for a passing C1, exactly the absent providers and their problems |
| `RegressionGate.InspectCurrent` | evaluation/runner/check_regression.py:160-204 | over all candidates, exactly the objections and the open questions |
| `RegressionGate.CompareProvider` | evaluation/runner/check_regression.py:240-252 | exactly the lost evidence and the three regressions of one provider |
| `RegressionGate.CompareIdentities` | evaluation/runner/check_regression.py:207-227 | exactly the fixture and evaluation identity changes and the two failures they may cause |
| `RegressionGate.CompareRuns` | evaluation/runner/check_regression.py:207-253 | exactly the regressions and the identity changes of two runs |
| `RegressionGate.MakeGateResult` | evaluation/runner/check_regression.py:256-286 | fail if anything is objected to, else pending if anything is open, else pass; drift exactly when the fixture, the evaluation or a candidate identity differs |
| `RegressionGate.DriftIsIdentityDifference` | evaluation/runner/check_regression.py:207-232 | the list of identity changes is non-empty if and only if one of the three kinds of identity differs |
| `GateVerdicts.SelfTestIsLastEntry` | evaluation/runner/check_regression.py:122-125 | a scenario's self-test passes exactly when its last entry in the list says so |
| `GateVerdicts.SoundRunExactly` | evaluation/runner/check_regression.py:96-126 | nothing is objected to in a summary exactly when version, fixture id and classification are the frozen ones, all seven self-tests pass last, and a present evaluation identity has the twelve keys |
| `GateVerdicts.SoundCandidateExactly` | evaluation/runner/check_regression.py:160-204 | nothing is objected to in a candidate exactly when no scenario fails and there is sound evidence of both providers with a passing C1 and none without |
| `GateVerdicts.KeepsUpExactly` | evaluation/runner/check_regression.py:234-252 | nothing regressed exactly when a C1 that passed still does, with both providers' evidence and no figure worse |
| `GateVerdicts.FailExactly` | evaluation/runner/check_regression.py:256-271 | on the fields of both summaries: the gate fails exactly when a run is unsound, the fixture differs, the evaluation identity is lost, a candidate is unsound or one does not keep up |
| `GateVerdicts.PassExactly` | evaluation/runner/check_regression.py:256-271 | it passes exactly when none of this is so and every candidate is present with nothing open |
| `GateVerdicts.CandidateDriftExactly` | evaluation/runner/check_regression.py:58-67 | of a candidate that names them, version, adapter and source each count in its identity |
| `GateVerdicts.PreflightStandsIn` | evaluation/runner/check_regression.py:58-67 | one that does not is known by its preflight |
| `UpgradeRatchet.NoObjectionMeansSound` | evaluation/runner/check_regression.py:129-157 | a provider result without problems has five passing, in-scope, complete samples and full rates |
| `UpgradeRatchet.FixtureChangeIsRefused` | evaluation/runner/check_regression.py:207-213 | a fixture-identity difference fails the gate whatever version the current run carries |
| `UpgradeRatchet.PassMeansPresentAndClosed` | evaluation/runner/check_regression.py:160-204 | behind a passing gate every candidate is present and no scenario is open or failed |
| `UpgradeRatchet.PassMeansAllScenariosPass` | evaluation/runner/check_regression.py:173-177 | behind a passing gate all scenarios pass if and only if only the four known statuses occur |
| `UpgradeRatchet.UnlistedStatusPasses` | evaluation/runner/check_regression.py:173-177 | a gate that passes with a scenario of any unlisted status |
| `UpgradeRatchet.PassMeansSoundEvidence` | evaluation/runner/check_regression.py:184-202 | behind a passing gate a passing C1 has sound evidence from both providers |
| `UpgradeRatchet.OneStep` | evaluation/runner/check_regression.py:207-253 | one passing gate keeps the fixture, the presence of the evaluation identity, each passing C1 and each provider's count |
| `UpgradeRatchet.Ratchet` | evaluation/runner/check_regression.py:207-286 | along any chain of passing gates, from any earlier to any later run: one fixture, C1 never leaves pass, no provider's count falls |
| `UpgradeRatchet.AcceptedSummariesAreSound` | evaluation/runner/check_regression.py:129-286 | every accepted run with known statuses passes everywhere, at pass rate 1.0 and without out-of-scope modifications |
| `DriftControls.LeafDriftIsOneReason` | evaluation/runner/check_regression.py:207-227 | for any run, one changed leaf of the evaluation identity changes no verdict and is the one drift reason |
| `DriftControls.CycleIsMutation` | evaluation/runner/run_continuous_evaluation.py:123-134 | the fixture entry of an identity is overwritten: a mutation below it is lost, except that of the source digest, which reaches the run's own fixture as well |
| `DriftControls.MutationCycles` | evaluation/runner/run_continuous_evaluation.py:232-257 | of all leaf mutations exactly that of the fixture source is expected to fail, with two drift reasons; the others pass, with one reason, or none below the overwritten entry |
| `DriftControls.OverrideIsLocal` | evaluation/runner/run_continuous_evaluation.py:123-152 | overriding one scenario other than C1 adds or removes no objection but the one about it |
| `DriftControls.FailedScenarioPauses` | evaluation/runner/run_continuous_evaluation.py:260-268 | a failed scenario fails the gate, whatever else holds |
| `DriftControls.OpenScenarioPends` | evaluation/runner/run_continuous_evaluation.py:269-276 | an open scenario turns a passing gate into a pending one |
| `DriftControls.RollbackIsJudgedAlike` | evaluation/runner/run_continuous_evaluation.py:278-279 | what a previous run's scenarios other than C1 said does not reach the next verdict |
| `SemanticShape.StepsShrink` | scripts/run_optional_provider_probe.py:127-164 | every step of the search, parsing a string included, loses weight, so it ends on every value |
| `SemanticShape.ReachesHereOrBelow` | scripts/run_optional_provider_probe.py:127-164 | an object is reachable if and only if it is the value itself or reachable from one of its children |
| `SemanticShape.Search` | scripts/run_optional_provider_probe.py:127-164 | each flag holds exactly when an object of its kind is reachable through objects, lists and parsed strings; exact implies both others |
| `SemanticShape.ExactShowsBoth` | scripts/run_optional_provider_probe.py:127-164 | an exact answer makes both weaker kinds reachable |
| `SemanticShape.HalvesApartAreNotExact` | scripts/run_optional_provider_probe.py:127-164 | the converse fails: the halves in two objects give both weaker flags and no exact answer |
| `Probe.ValidatePreflight` | scripts/run_optional_provider_probe.py:167-198 | accepts exactly the admissible preflights and otherwise refuses on a first fault in the order of the checks |
| `Probe.StripCutsSpace` | scripts/run_optional_provider_probe.py:167-175 | stripping cuts off white space at both ends and nothing else |
| `Probe.LowerFolds` | scripts/run_optional_provider_probe.py:191-196 | folding the fingerprint changes capital letters into small ones and nothing else |
| `Probe.SequenceCoversEachRequest` | scripts/run_optional_provider_probe.py:167-198 | a preflight admitted for a sequence is admitted for each of its requests, and the sequence fits budget and limit |
| `Probe.Run` | scripts/run_optional_provider_probe.py:233-296 | one request exactly when every guard passes, none otherwise; success exactly on a 2xx answer with the fixture reachable |
| `Probe.Sequence` | scripts/run_optional_provider_probe.py:328-345 | sends exactly the requests up to the first that is late or no exact success, and takes as long as they take; runs through exactly when every request starts in time and is exact |
| `Probe.RunRepeated` | scripts/run_optional_provider_probe.py:299-375 | nothing is sent before every guard; requests within repeats, budget and five; no retry; the guards of a request never trip; "verified" exactly for five exact successes in time; misleading exactly after an early answer without the fixture; total time below the budget plus one second |
| `Probe.EndsWithin` | scripts/run_optional_provider_probe.py:331-341 | a request that starts in the budget and keeps its timeout ends less than a second over it |
| `Probe.BudgetHoldsUntilTheLast` | scripts/run_optional_provider_probe.py:328-345 | every request that is sent starts within the budget, so only the last can overrun it |
| `Probe.WholeSecondsKeepTheBudget` | scripts/run_optional_provider_probe.py:331-341 | a request that keeps its timeout is sure to end within the budget if and only if it starts on a whole second |
| `Probe.BudgetCanBeOverrun` | scripts/run_optional_provider_probe.py:331-341 | the overrun is real: two exact answers, each within its timeout, take 0.75 seconds more than the budget |
| `Probe.BudgetIsKeptExactly` | scripts/run_optional_provider_probe.py:331-341 | the budget is kept in every world whose requests keep their timeouts if and only if there is one request |
| `Probe.StrayAnswersMislead` | scripts/run_optional_provider_probe.py:328-375 | an answer without the fixture before the last request gives "http_success" without verification |
| `C2Ledgers.CompletenessCoversExactly` | evaluation/runner/run_c2.py:285-319 | under full completeness every event is covered if and only if as many requests made calls as were expected |
| `C2Ledgers.CountingLaw` | evaluation/runner/run_c2.py:285-319 | with every action present once as well, every event is covered if and only if the call ids are pairwise distinct |
| `C2Ledgers.CompletenessAloneDoesNotCover` | evaluation/runner/run_c2.py:318-318 | a ledger with stray events and full completeness |
| `C2Adapters.C2Adapter.Run` | evaluation/fixtures/w6-0.1/c2-adapter.py:161-224 | in place: exactly the files after one call; a token file that is no object ends it after two events |
| `C2Adapters.C2Adapter.Decide` | evaluation/fixtures/w6-0.1/c2-adapter.py:101-139 | grants exactly an exact, unused, one-attempt token for the approvable action, and consumes it |
| `C2Adapters.StateCountsCalls` | evaluation/fixtures/w6-0.1/c2-adapter.py:167-169 | the saved state counts exactly the calls that reached their end, and lists their ids in order |
| `C2Adapters.TokensGrantOnce` | evaluation/fixtures/w6-0.1/c2-adapter.py:101-139 | no two calls of a run are granted on one token |
| `C2Adapters.ConsumedMeansGranted` | evaluation/fixtures/w6-0.1/c2-adapter.py:136-139 | a token is consumed if and only if some call was granted on it |
| `C2Adapters.UnkilledRunsAreCalls` | evaluation/fixtures/w6-0.1/c2-adapter.py:161-222 | calls that make all their writes leave exactly what whole calls leave |
| `C2Adapters.ConsumedMeansSaved` | evaluation/fixtures/w6-0.1/c2-adapter.py:161-222 | with calls killed after any write, a token is consumed if and only if some call that shows it exactly saved its state |
| `C2Adapters.GrantedMeansUnsaved` | evaluation/fixtures/w6-0.1/c2-adapter.py:101-139 | a call is granted on a token if and only if it is decided, shows it exactly, and no call before it that showed it was saved |
| `C2Adapters.SecondGrantNeedsAnUnsavedCall` | evaluation/fixtures/w6-0.1/c2-adapter.py:161-222 | two calls are granted on one token if and only if two decided calls show it and no call before the later one that shows it was saved |
| `C2Adapters.UnsavedTokenIsArmed` | evaluation/fixtures/w6-0.1/c2-adapter.py:213-222 | such a call can have executed, and its repetition executes again |
| `C2Adapters.ExecutionsAreApproved` | evaluation/fixtures/w6-0.1/c2-adapter.py:206-222 | over any run the executions equal the recorded side effects, belong to the sink action and never outnumber the consumed tokens |
| `C2Adapters.NoTokenNoExecution` | evaluation/fixtures/w6-0.1/c2-adapter.py:161-224 | without tokens nothing runs and every column of the check says so |
| `C2Adapters.CheckIsExactOnAdapterLedgers` | evaluation/runner/run_c2.py:285-319 | on the ledgers the adapter writes, completeness holds if and only if every token file was readable and no request id was used twice, and then every event is covered |
| `C2Adapters.RunUnattended` | evaluation/runner/run_c2.py:595-635 | the unattended contract always passes: whatever executions would do to the targets, none happens, under every policy |
| `ValueBaseline.ComputeValueBaseline` | evaluation/runner/run_n10_value_baseline.py:76-141 | an error exactly on arms of different length; every saving, in total and per task, is the percentage of its control time, absent exactly when that is not positive |
| `ValueBaseline.AggregateIsWeightedMean` | evaluation/runner/run_n10_value_baseline.py:115-141 | the aggregate is the control-weighted mean of the task savings if and only if no product time falls on tasks without control time; review reductions add up |
| `ValueBaseline.UnmatchedTimeHidesSavings` | evaluation/runner/run_n10_value_baseline.py:115-141 | two arms where it is not: the aggregate says 0 percent although the one comparable task saved 50 |
| `ValueBaseline.EvenArmsCompare` | evaluation/runner/run_n10_value_baseline.py:115-141 | the comparison of these two arms |
| `ValueBaseline.AggregateIsBetween` | evaluation/runner/run_n10_value_baseline.py:115-141 | the aggregate lies within any bounds on the task savings |
| `ValueBaseline.DryRun` | evaluation/runner/run_n10_value_baseline.py:196-209 | the dry run gives exactly 50 percent and four reviews per task, for every number of tasks |
| `ValueBaseline.Live` | evaluation/runner/run_n10_value_baseline.py:302-312 | the live result is the comparison of the tasks both of whose arms succeeded, all zero when there are none |
| `ValueBaseline.FailedTasksDoNotCount` | evaluation/runner/run_n10_value_baseline.py:302-312 | two measurements that agree on the tasks that succeeded give the same result |
| `PixelStats.Measure` | desktop/main.js:306-337 | reads in bounds; the colours counted are exactly those sampled; the dominant one has the maximal count; the ink ratio lies in [0, 1) and is 0 if and only if one colour was seen |
| `PixelStats.OneMoreSample` | desktop/main.js:316-321 | counting one more pixel keeps the tally exact, and its counts add up to the samples |
| `PixelStats.Dominant` | desktop/main.js:322-329 | the first entry with the greatest count |
| `PixelStats.SampleCount` | desktop/main.js:310-321 | all pixels are sampled if and only if there are fewer than 400000; from 200000 pixels on the samples number 200000 to 399999 |
| `PixelStats.FlatPagesLookBlank` | desktop/main.js:340-342 | a page of one colour, or an empty capture, is always called blank |

## Left out

- Time stamps (`at`), JSON encoding of the records, fsync and file locking below the level of whole appends.
- Process launch, signals, sockets, `select` and sleeping: they are steps of the scripted environment or polls of a ghost stream.
- Payload fields of ledger events that no check reads; each event keeps its kind and the fields the verdicts use.
- `command_is_allowlisted` and the sandbox checks of a command: an approval request carries a truth value instead.
- Messages of failures and objections are structured values; only the paths of the identity difference are rendered as strings.
- The DeepSeek runner's own case ledger, recovery and verdicts: the same protocol as the Codex one with other event names and a session instead of a thread, and without the approval-event failure for classes that need none.
- How long a replay waits for the gate's lock: it gets it or the case raises; the negative controls run in directories of their own and always get it.
- Each dispatched turn calls the gate at most once, and with the command it was given; the two reads of `update_effect_status` are one moment.
- A call is killed between two whole writes, not within one; the gate's sleep and the sink's are steps of the script.
- Shared fate of several runs on one directory; each case owns its directory as in the source.
- The blind sink of `Hosts` is hypothetical: it stands for a tool without deduplication and shows what the protocol alone guarantees.
- JSON decoding, UTF-8 decoding and SHA-256 are parameters; the decoder is assumed to return no more than its text can hold.
- Not-a-number and rounding of floating-point values; rates, times and ratios are reals, and the ink ratio is taken before `toFixed`.
- Unicode white space in `trim` and `strip` beyond ASCII, and multi-byte characters split over two chunks in the desktop reader.
- Dynamic type errors of Python on malformed summaries, tasks or ledger lines: the model's records are typed, and a summary's version is already stripped.
- An empty provider dictionary, which the comparison treats as absent: a provider record is present or not.
- NestedDictionaries.SetPath: the replacement is not itself a dictionary, as in every mutation of the source; a shared replacement would alias.
- PixelStats.Measure: does not say which of several equally frequent colours is dominant; `PixelStats.Dominant` says it for the order of the tally.
- Probe.Run: the endpoint check, redirects and the truncation of large bodies are not modelled; a reply carries its decoded body.
- C2Adapters.RunUnattended: that the formatted request ids of the fifteen calls differ is a precondition on the formatting.
- C2Adapters.C2Adapter.Run: a resource's path and URL checks are one truth value, and reason texts are not modelled.
- Electron windows, the React and Go user interfaces, install, upgrade and plugin probes, and the runners that only assemble evidence.
- The product core under `src/zworkbench` is not part of this model.
