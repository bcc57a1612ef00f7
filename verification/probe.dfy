/**
 The bounded staging probe: the human preflight gates, one guarded request, and the sequence
 of requests that stops at the first one that is not an exact success.
 */
module Probe {
  import opened Basics
  import opened JsonValues
  import opened SemanticShape

  const REGION := "cn-beijing"
  const MAX_REQUESTS := 5
  const GATES := ["key_scope_confirmed", "data_retention_confirmed", "remote_inventory_confirmed",
    "exit_path_confirmed", "one_time_authorization_confirmed"]

  /** A preflight value as supplied; absent keys are absent from the map. */
  datatype Value = Int(n: int) | Truth(b: bool) | Text(s: string) | Other

  type Preflight = map<string, Value>

  /** An `isinstance(x, int)` value: a truth value is one, counting as 1 or 0. */
  function Integer(p: Preflight, key: string): Option<int> {
    if key !in p then None
    else match p[key]
      case Int(n) => Some(n)
      case Truth(b) => Some(if b then 1 else 0)
      case _ => None
  }

  function Textual(p: Preflight, key: string): Option<string> {
    if key in p && p[key].Text? then Some(p[key].s) else None
  }

  predicate Space(c: char) {
    '\t' <= c <= '\r' || '\U{1c}' <= c <= ' '
  }

  /** Nothing but white space before `i` and from `j` on. */
  ghost predicate Around(s: string, i: nat, j: nat) {
    forall k :: 0 <= k < |s| && (k < i || j <= k) ==> Space(s[k])
  }

  function Strip(s: string): (r: string)
    ensures r == "" || (!Space(r[0]) && !Space(r[|r| - 1]))
    decreases |s|
  {
    if s == "" then ""
    else if Space(s[0]) then Strip(s[1..])
    else if Space(s[|s| - 1]) then Strip(s[..|s| - 1])
    else s
  }

  /** Only white space is cut off, at both ends. */
  lemma {:induction false} StripCutsSpace(s: string) returns (i: nat, j: nat)
    ensures i <= j <= |s| && Around(s, i, j) && Strip(s) == s[i..j]
    decreases |s|
  {
    if s == "" {
      i, j := 0, 0;
    } else if Space(s[0]) {
      i, j := StripCutsSpace(s[1..]);
      assert s[1..][i..j] == s[i + 1..j + 1];
      i, j := i + 1, j + 1;
    } else if Space(s[|s| - 1]) {
      i, j := StripCutsSpace(s[..|s| - 1]);
      assert s[..|s| - 1][i..j] == s[i..j];
    } else {
      i, j := 0, |s|;
    }
  }

  predicate HexDigit(c: char) {
    '0' <= c <= '9' || 'a' <= c <= 'f' || 'A' <= c <= 'F'
  }

  function Lower(s: string): (r: string)
    ensures |r| == |s|
  {
    if s == "" then "" else
    [if 'A' <= s[0] <= 'Z' then (s[0] as int + 32) as char else s[0]] + Lower(s[1..])
  }

  /** Capital letters become small ones, and nothing else changes. */
  lemma {:induction false} LowerFolds(s: string, i: nat)
    requires i < |s|
    ensures 'A' <= s[i] <= 'Z' ==>
      'a' <= Lower(s)[i] <= 'z' && Lower(s)[i] as int - 'a' as int == s[i] as int - 'A' as int
    ensures !('A' <= s[i] <= 'Z') ==> Lower(s)[i] == s[i]
  {
    if i > 0 {
      LowerFolds(s[1..], i - 1);
    }
  }

  datatype Blocked =
    | RegionMissing | RegionWrong | FingerprintMalformed | RepeatsOutOfRange
    | BudgetOutOfRange | DurationOutOfRange | GateOpen(gate: string)

  /** The normalized record that is emitted. */
  datatype Verified = Verified(fingerprint: string, budget: int, duration: int)

  datatype Check = Passed(value: Verified) | Refused(why: Blocked)

  /** What a preflight must satisfy for `repeats` requests. */
  ghost predicate Admissible(p: Preflight, repeats: int) {
    && Textual(p, "region").Some? && Strip(Textual(p, "region").value) == REGION
    && Textual(p, "project_fingerprint").Some? && |Textual(p, "project_fingerprint").value| == 64
    && (forall i :: 0 <= i < 64 ==> HexDigit(Textual(p, "project_fingerprint").value[i]))
    && 1 <= repeats
    && Integer(p, "budget_requests").Some? && repeats <= Integer(p, "budget_requests").value <= MAX_REQUESTS
    && Integer(p, "max_duration_seconds").Some? && 1 <= Integer(p, "max_duration_seconds").value <= 30
    && forall g :: g in GATES ==> g in p && p[g] == Truth(true)
  }

  /** When each refusal applies. */
  ghost predicate Fault(p: Preflight, repeats: int, why: Blocked) {
    var region, fingerprint := Textual(p, "region"), Textual(p, "project_fingerprint");
    var budget, duration := Integer(p, "budget_requests"), Integer(p, "max_duration_seconds");
    match why
    case RegionMissing => region.None? || Strip(region.value) == "" || |Strip(region.value)| > 64
    case RegionWrong => region.Some? && Strip(region.value) != REGION
    case FingerprintMalformed => fingerprint.None? || |fingerprint.value| != 64
      || exists i :: 0 <= i < 64 && !HexDigit(fingerprint.value[i])
    case RepeatsOutOfRange => !(1 <= repeats <= MAX_REQUESTS)
    case BudgetOutOfRange => budget.None? || !(repeats <= budget.value <= MAX_REQUESTS)
    case DurationOutOfRange => duration.None? || !(1 <= duration.value <= 30)
    case GateOpen(g) => g in GATES && !(g in p && p[g] == Truth(true))
  }

  /** The order in which the refusals are tried. */
  function Rank(why: Blocked): nat {
    match why
    case RegionMissing => 0
    case RegionWrong => 1
    case FingerprintMalformed => 2
    case RepeatsOutOfRange => 3
    case BudgetOutOfRange => 4
    case DurationOutOfRange => 5
    case GateOpen(_) => 6
  }

  /** `validate_preflight`: refuses on the first fault, and only on a fault. */
  method ValidatePreflight(p: Preflight, repeats: int) returns (r: Check)
    ensures r.Passed? <==> Admissible(p, repeats)
    ensures r.Passed? ==> r.value == RecordOf(p) && forall why :: !Fault(p, repeats, why)
    ensures r.Refused? ==> Fault(p, repeats, r.why) && forall why :: Fault(p, repeats, why) ==> Rank(r.why) <= Rank(why)
  {
    var region := Textual(p, "region");
    if region.None? || Strip(region.value) == "" || |Strip(region.value)| > 64 {
      return Refused(RegionMissing);
    }
    if Strip(region.value) != REGION {
      return Refused(RegionWrong);
    }
    var fingerprint := Textual(p, "project_fingerprint");
    if fingerprint.None? || |fingerprint.value| != 64 || exists i :: 0 <= i < 64 && !HexDigit(fingerprint.value[i]) {
      return Refused(FingerprintMalformed);
    }
    if !(1 <= repeats <= MAX_REQUESTS) {
      return Refused(RepeatsOutOfRange);
    }
    var budget := Integer(p, "budget_requests");
    if budget.None? || budget.value < repeats || budget.value > MAX_REQUESTS {
      return Refused(BudgetOutOfRange);
    }
    var duration := Integer(p, "max_duration_seconds");
    if duration.None? || !(1 <= duration.value <= 30) {
      return Refused(DurationOutOfRange);
    }
    for i := 0 to |GATES|
      invariant forall g :: g in GATES[..i] ==> g in p && p[g] == Truth(true)
    {
      if !(GATES[i] in p && p[GATES[i]] == Truth(true)) {
        assert GATES[i] in GATES;
        return Refused(GateOpen(GATES[i]));
      }
    }
    assert GATES[..|GATES|] == GATES;
    r := Passed(Verified(Lower(fingerprint.value), budget.value, duration.value));
  }

  ghost function RecordOf(p: Preflight): Verified {
    Verified(Lower(Given(Textual(p, "project_fingerprint"), "")),
      Given(Integer(p, "budget_requests"), 0), Given(Integer(p, "max_duration_seconds"), 0))
  }

  function Given<T>(x: Option<T>, default: T): T {
    if x.Some? then x.value else default
  }

  /** A preflight good for a sequence is good for each request of it, and the sequence fits its budget. */
  lemma SequenceCoversEachRequest(p: Preflight, repeats: int)
    requires Admissible(p, repeats)
    ensures Admissible(p, 1)
    ensures repeats <= RecordOf(p).budget <= MAX_REQUESTS && 1 <= RecordOf(p).duration <= 30
  {
  }

  // ----- One request -----

  type byte = x: int | 0 <= x < 256

  /** What the network does with one request: how long it takes, and how it ends. */
  datatype Exchange = Exchange(seconds: real, reply: Reply)

  /** `body` is the decoded response, or `None` when it is not JSON. */
  datatype Reply = Answered(status: int, body: Option<Json>) | Rejected(status: int, body: Option<Json>) | Broken

  datatype Outcome =
    | NotRun | InputEmpty | PreflightBlocked | InvalidEncoding | TimeBudgetExhausted
    | HttpSuccess | HttpError | TransportError | SemanticMismatch

  datatype Attempt = Attempt(outcome: Outcome, requests: nat, exact: bool)

  predicate Success(a: Attempt) {
    a.outcome == HttpSuccess && a.exact
  }

  /** The parts of the process the probe takes as given. */
  datatype Setting = Setting(
    parse: string -> Option<Json>, digest: seq<byte> -> string, decodable: seq<byte> -> bool,
    key: seq<byte>, preflight: Preflight)

  /** The reply is a 2xx answer with the fixture object reachable in its body. */
  ghost predicate Exact(s: Setting, reply: Reply) {
    reply.Answered? && 200 <= reply.status < 300 && reply.body.Some? && Reaches(Both, s.parse, reply.body.value)
  }

  ghost predicate Received(s: Setting, reply: Reply) {
    reply.Answered? && 200 <= reply.status < 300
  }

  /** `run`: the guards, then one request and no retry. */
  method Run(s: Setting, timeout: int, exchange: Exchange) returns (a: Attempt)
    requires Decoder(s.parse)
    ensures a.requests ==
      if s.key != [] && Admissible(s.preflight, 1) && 1 <= timeout <= RecordOf(s.preflight).duration
        && s.decodable(s.key)
      then 1 else 0
    ensures a.requests == 1 ==>
      (Success(a) <==> Exact(s, exchange.reply)) && (a.outcome == HttpSuccess <==> Received(s, exchange.reply))
    ensures a.requests == 1 ==> a.outcome in {HttpSuccess, HttpError, TransportError}
    ensures a.requests == 0 ==> a.outcome in {InputEmpty, PreflightBlocked, InvalidEncoding}
    ensures a.outcome == InputEmpty <==> s.key == []
    ensures a.outcome == PreflightBlocked <==>
      s.key != [] && !(Admissible(s.preflight, 1) && 1 <= timeout <= RecordOf(s.preflight).duration)
  {
    hide Admissible, Reaches, Decoder;
    if s.key == [] {
      return Attempt(InputEmpty, 0, false);
    }
    var verified := ValidatePreflight(s.preflight, 1);
    if verified.Refused? {
      return Attempt(PreflightBlocked, 0, false);
    }
    if !(1 <= timeout <= verified.value.duration) {
      return Attempt(PreflightBlocked, 0, false);
    }
    if !s.decodable(s.key) {
      return Attempt(InvalidEncoding, 0, false);
    }
    var exact := false;
    if !exchange.reply.Broken? && exchange.reply.body.Some? {
      var shape := Search(s.parse, exchange.reply.body.value);
      exact := shape.exact;
    }
    match exchange.reply {
      case Answered(status, _) => a := Attempt(if 200 <= status < 300 then HttpSuccess else HttpError, 1, exact);
      case Rejected(_, _) => a := Attempt(HttpError, 1, exact);
      case Broken => a := Attempt(TransportError, 1, false);
    }
  }

  // ----- The sequence -----

  datatype Compatibility = NoVerdict | UnknownStop | Partial | VerifiedReadOnly

  datatype Result = Result(outcome: Outcome, compatibility: Compatibility, requests: nat, attempts: seq<Attempt>)

  /** Seconds spent on the first `n` exchanges. */
  function Spent(world: nat -> Exchange, n: nat): real {
    if n == 0 then 0.0 else Spent(world, n - 1) + world(n - 1).seconds
  }

  ghost predicate TimeMoves(world: nat -> Exchange) {
    forall i: nat :: world(i).seconds >= 0.0
  }

  lemma {:induction false} SpentGrows(world: nat -> Exchange, i: nat, j: nat)
    requires TimeMoves(world) && i <= j
    ensures 0.0 <= Spent(world, i) <= Spent(world, j)
    decreases j
  {
    if i < j {
      SpentGrows(world, i, j - 1);
    } else if j > 0 {
      SpentGrows(world, j - 1, j - 1);
    }
  }

  /** Whole seconds left before request `i`. */
  function Remaining(world: nat -> Exchange, i: nat, duration: int): int {
    duration - Spent(world, i).Floor
  }

  /** Every guard above the loop. */
  ghost predicate Admitted(s: Setting, repeats: int) {
    Admissible(s.preflight, repeats) && s.key != [] && s.digest(s.key) != RecordOf(s.preflight).fingerprint
  }

  /** Requests `0` to `n - 1` were all sent in time and answered exactly. */
  ghost predicate ExactUpTo(s: Setting, world: nat -> Exchange, n: nat, duration: int) {
    forall i :: 0 <= i < n ==> Remaining(world, i, duration) >= 1 && Exact(s, world(i).reply)
  }

  /** Every request ends within the timeout it was given. */
  ghost predicate TimeoutsHeld(world: nat -> Exchange, duration: int) {
    forall i: nat :: Remaining(world, i, duration) >= 1 ==> world(i).seconds <= Remaining(world, i, duration) as real
  }

  lemma OneMoreExact(s: Setting, world: nat -> Exchange, n: nat, duration: int)
    ensures ExactUpTo(s, world, n + 1, duration) <==>
      ExactUpTo(s, world, n, duration) && Remaining(world, n, duration) >= 1 && Exact(s, world(n).reply)
  {
    hide Exact, Remaining;
  }

  lemma ExactPrefix(s: Setting, world: nat -> Exchange, n: nat, m: nat, duration: int)
    requires n <= m
    ensures ExactUpTo(s, world, 0, duration)
    ensures ExactUpTo(s, world, m, duration) ==> ExactUpTo(s, world, n, duration)
  {
    hide Exact, Remaining;
  }

  /** How far the sequence gets from request `n` on: the first one not in time and exact, or the end. */
  ghost function StopAt(s: Setting, world: nat -> Exchange, n: nat, repeats: int, duration: int): nat
    decreases repeats - n
  {
    if n < repeats && Remaining(world, n, duration) >= 1 && Exact(s, world(n).reply)
    then StopAt(s, world, n + 1, repeats, duration) else n
  }

  /** How many requests are sent. */
  ghost function Sent(s: Setting, world: nat -> Exchange, repeats: int, duration: int): nat {
    if !s.decodable(s.key) then 0 else
    var n := StopAt(s, world, 0, repeats, duration);
    if n < repeats && Remaining(world, n, duration) >= 1 then n + 1 else n
  }

  lemma {:induction false} StopsLater(s: Setting, world: nat -> Exchange, n: nat, repeats: int, duration: int)
    requires ExactUpTo(s, world, n, duration) && n <= repeats
    ensures StopAt(s, world, 0, repeats, duration) == StopAt(s, world, n, repeats, duration)
    decreases n
  {
    hide Exact, Remaining;
    if n > 0 {
      ExactPrefix(s, world, n - 1, n, duration);
      StopsLater(s, world, n - 1, repeats, duration);
      OneMoreExact(s, world, n - 1, duration);
    }
  }

  /** Before the last try an answer arrived, in time and 2xx, but without the fixture. */
  ghost predicate StrayAnswer(s: Setting, world: nat -> Exchange, n: nat, duration: int) {
    && ExactUpTo(s, world, n, duration) && Remaining(world, n, duration) >= 1
    && Received(s, world(n).reply) && !Exact(s, world(n).reply)
  }

  ghost predicate Misleads(s: Setting, world: nat -> Exchange, repeats: int, duration: int) {
    s.decodable(s.key) && exists n :: 0 <= n < repeats - 1 && StrayAnswer(s, world, n, duration)
  }

  lemma StraysStopTheSequence(s: Setting, world: nat -> Exchange, n: nat, k: nat, duration: int)
    requires ExactUpTo(s, world, n, duration) && k < n
    ensures !StrayAnswer(s, world, k, duration)
  {
    hide Remaining, Received;
    ExactPrefix(s, world, k + 1, n, duration);
    OneMoreExact(s, world, k, duration);
  }

  /** What is known once the sequence has stopped at request `n`. */
  lemma StoppedAt(s: Setting, world: nat -> Exchange, n: nat, repeats: int, duration: int)
    requires ExactUpTo(s, world, n, duration) && n < repeats && !ExactUpTo(s, world, n + 1, duration)
    ensures StopAt(s, world, 0, repeats, duration) == n
    ensures Misleads(s, world, repeats, duration) <==>
      s.decodable(s.key) && n < repeats - 1 && StrayAnswer(s, world, n, duration)
  {
    hide Exact, Remaining, Received;
    StopsLater(s, world, n, repeats, duration);
    OneMoreExact(s, world, n, duration);
    forall k: nat | k < repeats - 1 && StrayAnswer(s, world, k, duration) ensures k == n {
      OneStop(s, world, n, k, duration);
    }
    hide ExactUpTo, StrayAnswer;
  }

  lemma OneStop(s: Setting, world: nat -> Exchange, n: nat, k: nat, duration: int)
    requires ExactUpTo(s, world, n, duration) && !ExactUpTo(s, world, n + 1, duration)
    requires StrayAnswer(s, world, k, duration)
    ensures k == n
  {
    hide ExactUpTo, Exact, Remaining, Received;
    if k < n {
      StraysStopTheSequence(s, world, n, k, duration);
    } else if k > n {
      ExactPrefix(s, world, n + 1, k, duration);
    }
  }

  /** What is known once it has run through. */
  lemma RanThrough(s: Setting, world: nat -> Exchange, repeats: nat, duration: int)
    requires ExactUpTo(s, world, repeats, duration)
    ensures StopAt(s, world, 0, repeats, duration) == repeats && !Misleads(s, world, repeats, duration)
  {
    StopsLater(s, world, repeats, repeats, duration);
    forall k: nat | k < repeats - 1 ensures !StrayAnswer(s, world, k, duration) {
      StraysStopTheSequence(s, world, repeats, k, duration);
    }
  }

  lemma NeverMisleads(s: Setting, world: nat -> Exchange, repeats: int, duration: int)
    ensures !s.decodable(s.key) ==> !Misleads(s, world, repeats, duration)
  {
  }

  lemma NothingSent(s: Setting, world: nat -> Exchange, duration: int)
    ensures ExactUpTo(s, world, 0, duration) && Spent(world, 0) == 0.0
  {
  }

  /** A request that starts within the budget and keeps its timeout ends less than a second over. */
  lemma EndsWithin(world: nat -> Exchange, n: nat, duration: int)
    requires Remaining(world, n, duration) >= 1
    ensures Spent(world, n) < duration as real + 1.0
    ensures TimeoutsHeld(world, duration) ==> Spent(world, n + 1) < duration as real + 1.0
  {
    var now := Spent(world, n);
    assert now < now.Floor as real + 1.0;
  }

  /** One turn of the loop: nothing is sent when no whole second is left. */
  method Try(s: Setting, world: nat -> Exchange, n: nat, duration: int, now: real) returns (a: Attempt, later: real)
    requires Decoder(s.parse) && TimeMoves(world) && duration >= 1
    requires s.key != [] && Admissible(s.preflight, 1) && duration == RecordOf(s.preflight).duration
    requires ExactUpTo(s, world, n, duration) && now == Spent(world, n)
    ensures a.outcome !in {InputEmpty, PreflightBlocked}
    ensures a.requests == if s.decodable(s.key) && Remaining(world, n, duration) >= 1 then 1 else 0
    ensures later == Spent(world, n + a.requests)
    ensures Success(a) <==> s.decodable(s.key) && ExactUpTo(s, world, n + 1, duration)
    ensures Success(a) ==> a.requests == 1
    ensures a.outcome == HttpSuccess && !Success(a) <==> s.decodable(s.key) && StrayAnswer(s, world, n, duration)
    ensures now < duration as real + 1.0 && TimeoutsHeld(world, duration) ==> later < duration as real + 1.0
  {
    hide Decoder, Exact, Admissible, Received, TimeMoves, Reaches, TimeoutsHeld, ExactUpTo;
    SpentGrows(world, 0, n);
    OneMoreExact(s, world, n, duration);
    ExactIsReceived(s, world(n).reply);
    var remaining := duration - now.Floor;
    if remaining < 1 {
      return Attempt(TimeBudgetExhausted, 0, false), now;
    }
    a := Run(s, if remaining < 30 then remaining else 30, world(n));
    EndsWithin(world, n, duration);
    later := now + if a.requests == 1 then world(n).seconds else 0.0;
  }

  lemma ExactIsReceived(s: Setting, reply: Reply)
    ensures Exact(s, reply) ==> Received(s, reply)
  {
  }

  /** The loop of `run_repeated`: stops at the first attempt that is not an exact success. */
  method Sequence(s: Setting, repeats: int, world: nat -> Exchange, duration: int)
    returns (attempts: seq<Attempt>, requests: nat, seconds: real)
    requires Decoder(s.parse) && TimeMoves(world) && repeats >= 1 && duration >= 1
    requires s.key != [] && Admissible(s.preflight, 1) && duration == RecordOf(s.preflight).duration
    ensures 1 <= |attempts| <= repeats && requests <= |attempts|
    ensures forall i :: 0 <= i < |attempts| - 1 ==> Success(attempts[i])
    ensures |attempts| < repeats ==> !Success(attempts[|attempts| - 1])
    ensures forall a :: a in attempts ==> a.outcome !in {InputEmpty, PreflightBlocked}
    ensures |attempts| == repeats && Success(attempts[repeats - 1]) <==>
      s.decodable(s.key) && ExactUpTo(s, world, repeats, duration)
    ensures requests == Sent(s, world, repeats, duration) && seconds == Spent(world, requests)
    ensures |attempts| < repeats && attempts[|attempts| - 1].outcome == HttpSuccess <==>
      Misleads(s, world, repeats, duration)
    ensures TimeoutsHeld(world, duration) ==> seconds < duration as real + 1.0
  {
    hide Decoder, Admissible, TimeMoves, TimeoutsHeld, ExactUpTo, StrayAnswer, Success,
      RecordOf, StopAt, Spent, Misleads;
    attempts, requests, seconds := [], 0, 0.0;
    NothingSent(s, world, duration);
    var stopped := false;
    while |attempts| < repeats && !stopped
      invariant |attempts| <= repeats && requests <= |attempts| && seconds == Spent(world, requests)
      invariant forall i :: 0 <= i < |attempts| - 1 ==> Success(attempts[i])
      invariant forall a :: a in attempts ==> a.outcome !in {InputEmpty, PreflightBlocked}
      invariant stopped <==> attempts != [] && !Success(attempts[|attempts| - 1])
      invariant !stopped ==> ExactUpTo(s, world, |attempts|, duration) && requests == |attempts|
      invariant !stopped && attempts != [] ==> s.decodable(s.key)
      invariant stopped ==>
        var n := |attempts| - 1;
        && ExactUpTo(s, world, n, duration) && !(s.decodable(s.key) && ExactUpTo(s, world, n + 1, duration))
        && requests == n + (if s.decodable(s.key) && Remaining(world, n, duration) >= 1 then 1 else 0)
        && (n > 0 ==> s.decodable(s.key))
        && (attempts[n].outcome == HttpSuccess <==> s.decodable(s.key) && StrayAnswer(s, world, n, duration))
      invariant TimeoutsHeld(world, duration) ==> seconds < duration as real + 1.0
      decreases repeats - |attempts|, !stopped
    {
      var a, later := Try(s, world, |attempts|, duration, seconds);
      attempts, requests, seconds := attempts + [a], requests + a.requests, later;
      stopped := !Success(a);
    }
    ExactPrefix(s, world, |attempts|, repeats, duration);
    if !stopped {
      RanThrough(s, world, repeats, duration);
    } else if s.decodable(s.key) {
      StoppedAt(s, world, |attempts| - 1, repeats, duration);
    } else {
      NeverMisleads(s, world, repeats, duration);
    }
  }

  /** Only the last request can overrun the budget. */
  lemma {:induction false} BudgetHoldsUntilTheLast(s: Setting, world: nat -> Exchange,
      repeats: int, duration: int, i: nat)
    requires i < Sent(s, world, repeats, duration)
    ensures Remaining(world, i, duration) >= 1 && Spent(world, i) < duration as real
  {
    StopIsReached(s, world, 0, repeats, duration, i);
    var now := Spent(world, i);
    assert now < now.Floor as real + 1.0;
  }

  lemma {:induction false} StopIsReached(s: Setting, world: nat -> Exchange, n: nat,
      repeats: int, duration: int, i: nat)
    ensures n <= i < StopAt(s, world, n, repeats, duration) ==> Remaining(world, i, duration) >= 1
    decreases repeats - n
  {
    hide Exact, Remaining;
    if n < repeats && Remaining(world, n, duration) >= 1 && Exact(s, world(n).reply) && n < i {
      StopIsReached(s, world, n + 1, repeats, duration, i);
    }
  }

  /** The timeout handed to a request that starts at `now`. */
  function TimeoutAt(now: real, duration: int): int {
    duration - now.Floor
  }

  predicate KeepsTimeout(now: real, duration: int, takes: real) {
    0.0 <= takes <= TimeoutAt(now, duration) as real
  }

  /** A request that keeps its timeout is sure to end within the budget if and only if it starts on a whole second. */
  lemma WholeSecondsKeepTheBudget(now: real, duration: int)
    requires now >= 0.0 && TimeoutAt(now, duration) >= 1
    ensures (forall takes :: KeepsTimeout(now, duration, takes) ==> now + takes <= duration as real)
      <==> now == now.Floor as real
  {
    var takes := TimeoutAt(now, duration) as real;
    assert KeepsTimeout(now, duration, takes);
    assert now + takes <= duration as real <==> now <= now.Floor as real;
  }

  const FIXTURE_BODY := Obj(map["status" := Str("ok"), "answer" := Str(FIXTURE_ID)])

  lemma FixtureBodyIsExact(s: Setting)
    ensures Exact(s, Answered(200, Some(FIXTURE_BODY)))
  {
    assert At(Both, s.parse, FIXTURE_BODY, []);
  }

  /** Exact answers: the first after three quarters of a second, the second after its whole timeout. */
  function SlowWorld(duration: int): nat -> Exchange {
    (i: nat) => Exchange(
      if i == 0 then 0.75 else if i == 1 then duration as real else 0.0, Answered(200, Some(FIXTURE_BODY)))
  }

  /** The overrun is real, for every budget and every sequence of more than one request that can be sent. */
  lemma BudgetCanBeOverrun(s: Setting, repeats: int, duration: int)
    requires s.decodable(s.key) && repeats >= 2 && duration >= 1
    ensures TimeMoves(SlowWorld(duration)) && TimeoutsHeld(SlowWorld(duration), duration)
    ensures Sent(s, SlowWorld(duration), repeats, duration) == 2
    ensures Spent(SlowWorld(duration), 2) == duration as real + 0.75
  {
    var world := SlowWorld(duration);
    FixtureBodyIsExact(s);
    SlowTimes(duration);
    assert Remaining(world, 0, duration) == duration && Remaining(world, 1, duration) == duration;
    assert Remaining(world, 2, duration) == 0;
    hide Exact, Remaining;
    assert StopAt(s, world, 2, repeats, duration) == 2;
    assert StopAt(s, world, 1, repeats, duration) == 2;
    assert StopAt(s, world, 0, repeats, duration) == 2;
    forall i: nat | Remaining(world, i, duration) >= 1
      ensures world(i).seconds <= Remaining(world, i, duration) as real
    {
    }
  }

  /** Keeping every timeout keeps the budget if and only if the sequence is a single request. */
  lemma BudgetIsKeptExactly(s: Setting, repeats: int, duration: int)
    requires s.decodable(s.key) && repeats >= 1 && duration >= 1
    ensures (forall world ::
        TimeMoves(world) && TimeoutsHeld(world, duration) ==>
          Spent(world, Sent(s, world, repeats, duration)) <= duration as real)
      <==> repeats == 1
  {
    if repeats == 1 {
      forall world | TimeMoves(world) && TimeoutsHeld(world, duration)
        ensures Spent(world, Sent(s, world, repeats, duration)) <= duration as real
      {
        OneRequestFits(s, world, duration);
      }
    } else {
      BudgetCanBeOverrun(s, repeats, duration);
    }
  }

  lemma OneRequestFits(s: Setting, world: nat -> Exchange, duration: int)
    requires TimeMoves(world) && TimeoutsHeld(world, duration) && duration >= 1
    ensures Spent(world, Sent(s, world, 1, duration)) <= duration as real
  {
    hide Exact;
    assert Spent(world, 0) == 0.0 && (0.0).Floor == 0;
    assert Remaining(world, 0, duration) == duration;
    assert Spent(world, 1) == world(0).seconds;
    assert Sent(s, world, 1, duration) <= 1;
  }

  lemma SlowTimes(duration: int)
    requires duration >= 1
    ensures var world := SlowWorld(duration);
      && Spent(world, 0) == 0.0 && Spent(world, 1) == 0.75 && Spent(world, 2) == duration as real + 0.75
      && Spent(world, 0).Floor == 0 && Spent(world, 1).Floor == 0 && Spent(world, 2).Floor == duration
  {
    var world := SlowWorld(duration);
    assert Spent(world, 0) == 0.0;
    assert Spent(world, 1) == 0.75;
    assert Spent(world, 2) == 0.75 + duration as real;
    assert (0.75).Floor == 0 && (duration as real + 0.75).Floor == duration;
  }

  /** Any 2xx answer without the fixture, given to any sequence of more than one request, misleads. */
  lemma StrayAnswersMislead(s: Setting, world: nat -> Exchange, repeats: int, duration: int)
    requires s.decodable(s.key) && repeats >= 2 && duration >= 1
    requires Received(s, world(0).reply) && !Exact(s, world(0).reply)
    ensures Misleads(s, world, repeats, duration) && !ExactUpTo(s, world, repeats, duration)
  {
    assert Spent(world, 0) == 0.0 && (0.0).Floor == 0;
    assert StrayAnswer(s, world, 0, duration);
  }

  lemma AllSucceedWhenTheLastDoes(attempts: seq<Attempt>)
    requires attempts != [] && forall i :: 0 <= i < |attempts| - 1 ==> Success(attempts[i])
    ensures (forall a :: a in attempts ==> a.outcome == HttpSuccess) <==>
      attempts[|attempts| - 1].outcome == HttpSuccess
    ensures (forall a :: a in attempts ==> Success(a)) <==> Success(attempts[|attempts| - 1])
    ensures (forall a :: a in attempts ==> a.outcome == HttpSuccess && a.exact) <==>
      (forall a :: a in attempts ==> Success(a))
  {
    var last := attempts[|attempts| - 1];
    assert last in attempts;
    forall a | a in attempts ensures a == last || Success(a) {
      var i :| 0 <= i < |attempts| && attempts[i] == a;
    }
  }

  /** The closing update of `run_repeated`. */
  method Judge(attempts: seq<Attempt>, requests: nat, repeats: int) returns (r: Result)
    requires 1 <= |attempts| <= repeats && forall i :: 0 <= i < |attempts| - 1 ==> Success(attempts[i])
    requires |attempts| < repeats ==> !Success(attempts[|attempts| - 1])
    ensures r.attempts == attempts && r.requests == requests && !r.compatibility.NoVerdict?
    ensures !r.compatibility.UnknownStop? <==> |attempts| == repeats && Success(attempts[|attempts| - 1])
    ensures !r.compatibility.UnknownStop? <==> |attempts| == repeats && forall a :: a in attempts ==> Success(a)
    ensures r.compatibility.VerifiedReadOnly? <==> !r.compatibility.UnknownStop? && repeats >= 5
    ensures r.outcome == HttpSuccess <==>
      !r.compatibility.UnknownStop? || (|attempts| < repeats && attempts[|attempts| - 1].outcome == HttpSuccess)
  {
    var last := attempts[|attempts| - 1];
    AllSucceedWhenTheLastDoes(attempts);
    var http := |attempts| == repeats && forall a :: a in attempts ==> a.outcome == HttpSuccess;
    var semantic := http && forall a :: a in attempts ==> a.exact;
    r := Result(
      if semantic then HttpSuccess else if http then SemanticMismatch else last.outcome,
      if semantic && repeats >= 5 then VerifiedReadOnly else if semantic then Partial else UnknownStop,
      requests, attempts);
  }

  /** `run_repeated`, with the seconds it took. */
  method RunRepeated(s: Setting, repeats: int, world: nat -> Exchange) returns (r: Result, seconds: real)
    requires Decoder(s.parse) && TimeMoves(world)
    // Nothing is sent before every guard has passed.
    ensures !Admitted(s, repeats) ==> r.attempts == [] && r.requests == 0 && r.compatibility.NoVerdict?
    ensures Admitted(s, repeats) ==>
      r.requests <= |r.attempts| && 1 <= |r.attempts| <= repeats <= RecordOf(s.preflight).budget <= MAX_REQUESTS
    // Never a retry: every attempt but the last is an exact success, and the guards inside a request never trip.
    ensures forall i :: 0 <= i < |r.attempts| - 1 ==> Success(r.attempts[i])
    ensures forall a :: a in r.attempts ==> a.outcome !in {InputEmpty, PreflightBlocked}
    // The verdicts.
    ensures r.compatibility.VerifiedReadOnly? <==>
      Admitted(s, repeats) && s.decodable(s.key) && repeats == 5
        && ExactUpTo(s, world, 5, RecordOf(s.preflight).duration)
    ensures r.compatibility.VerifiedReadOnly? || r.compatibility.Partial? <==>
      Admitted(s, repeats) && |r.attempts| == repeats && forall a :: a in r.attempts ==> Success(a)
    ensures r.compatibility.VerifiedReadOnly? || r.compatibility.Partial? <==>
      Admitted(s, repeats) && s.decodable(s.key) && ExactUpTo(s, world, repeats, RecordOf(s.preflight).duration)
    // The outcome says "http_success" also when an early answer was 2xx but not the fixture, and only then.
    ensures Admitted(s, repeats) ==> (r.outcome == HttpSuccess <==>
      || (s.decodable(s.key) && ExactUpTo(s, world, repeats, RecordOf(s.preflight).duration))
      || Misleads(s, world, repeats, RecordOf(s.preflight).duration))
    // What is sent, and how long it takes.
    ensures Admitted(s, repeats) ==> r.requests == Sent(s, world, repeats, RecordOf(s.preflight).duration)
    ensures seconds == Spent(world, r.requests)
    // The time budget is kept up to the second in which the last request started.
    ensures Admitted(s, repeats) && TimeoutsHeld(world, RecordOf(s.preflight).duration) ==>
      seconds < RecordOf(s.preflight).duration as real + 1.0
  {
    hide Decoder, TimeMoves, TimeoutsHeld, ExactUpTo, Success, RecordOf, Remaining, Spent, Reaches, Misleads, Sent;
    NothingSent(s, world, 1);
    r, seconds := Result(PreflightBlocked, NoVerdict, 0, []), 0.0;
    var verified := ValidatePreflight(s.preflight, repeats);
    if verified.Refused? {
      return;
    }
    SequenceCoversEachRequest(s.preflight, repeats);
    hide Admissible;
    if s.key == [] {
      return Result(InputEmpty, NoVerdict, 0, []), 0.0;
    }
    if s.digest(s.key) == verified.value.fingerprint {
      return;
    }
    var attempts, requests, spent := Sequence(s, repeats, world, verified.value.duration);
    r := Judge(attempts, requests, repeats);
    seconds := spent;
  }
}
