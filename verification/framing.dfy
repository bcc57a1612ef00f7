/**
 Line framing over a byte pipe that delivers arbitrary chunks: the ACP client's `read_one`
 and the desktop shell's reader of the serving announcement.
 */
module Framing {
  import opened Basics

  type byte = x: int | 0 <= x < 256

  type Line = seq<byte>

  const LF: byte := 10
  const CR: byte := 13

  // ----- Splitting a whole stream at its separators -----

  /** Position of the first `mark`, or -1. */
  function Find<T(==)>(s: seq<T>, mark: T): (n: int)
    ensures -1 <= n < |s|
    ensures n >= 0 ==> s[n] == mark
    ensures forall i :: 0 <= i < (if n < 0 then |s| else n) ==> s[i] != mark
  {
    if s == [] then -1
    else if s[0] == mark then 0
    else
      var n := Find(s[1..], mark);
      if n < 0 then -1 else n + 1
  }

  /** The separator-terminated segments of `s`. */
  function Segments<T(==)>(s: seq<T>, mark: T): seq<seq<T>>
    decreases |s|
  {
    var n := Find(s, mark);
    if n < 0 then [] else [s[..n]] + Segments(s[n + 1..], mark)
  }

  /** What follows the last separator. */
  function Tail<T(==)>(s: seq<T>, mark: T): seq<T>
    decreases |s|
  {
    var n := Find(s, mark);
    if n < 0 then s else Tail(s[n + 1..], mark)
  }

  function Joined<T>(segments: seq<seq<T>>, mark: T): seq<T> {
    if segments == [] then [] else segments[0] + [mark] + Joined(segments[1..], mark)
  }

  lemma JoinedCons<T>(first: seq<T>, rest: seq<seq<T>>, mark: T)
    ensures Joined([first] + rest, mark) == first + [mark] + Joined(rest, mark)
  {
    assert ([first] + rest)[1..] == rest;
  }

  /** Splitting loses nothing. */
  lemma {:induction false} SegmentsRoundTrip<T>(s: seq<T>, mark: T)
    ensures Joined(Segments(s, mark), mark) + Tail(s, mark) == s
    decreases |s|
  {
    hide Joined, Find;
    var n := Find(s, mark);
    if n >= 0 {
      var rest := s[n + 1..];
      SegmentsRoundTrip(rest, mark);
      JoinedCons(s[..n], Segments(rest, mark), mark);
      assert s == s[..n] + [mark] + (Joined(Segments(rest, mark), mark) + Tail(rest, mark));
    } else {
      JoinedNothing(mark);
    }
  }

  lemma JoinedNothing<T>(mark: T)
    ensures Joined<T>([], mark) == []
  {
  }

  lemma {:induction false} SegmentsAreMarkFree<T>(s: seq<T>, mark: T)
    ensures mark !in Tail(s, mark)
    ensures forall i :: 0 <= i < |Segments(s, mark)| ==> mark !in Segments(s, mark)[i]
    decreases |s|
  {
    var n := Find(s, mark);
    if n >= 0 {
      SegmentsAreMarkFree(s[n + 1..], mark);
    }
  }

  lemma {:induction false} FindInExtension<T>(s: seq<T>, more: seq<T>, mark: T)
    requires Find(s, mark) >= 0
    ensures Find(s + more, mark) == Find(s, mark)
  {
    if s[0] != mark {
      assert (s + more)[1..] == s[1..] + more;
      FindInExtension(s[1..], more, mark);
    }
  }

  // ----- The ACP client's rules on top of the split -----

  function StripCr(raw: Line): Line {
    if raw != [] && raw[|raw| - 1] == CR then raw[..|raw| - 1] else raw
  }

  /** Nothing but ASCII white space, as `bytes.strip` sees it. */
  predicate Blank(s: Line) {
    forall i :: 0 <= i < |s| ==> 9 <= s[i] <= 13 || s[i] == 32
  }

  function Kept(segments: seq<Line>): seq<Line> {
    if segments == [] then []
    else (if StripCr(segments[0]) == [] then [] else [StripCr(segments[0])]) + Kept(segments[1..])
  }

  /**
   The lines a stream stands for: its segments with one trailing CR removed and the empty
   ones skipped, then the unterminated tail, unchanged, unless it is blank.
   */
  function Lines(s: Line): seq<Line> {
    Kept(Segments(s, LF)) + if Blank(Tail(s, LF)) then [] else [Tail(s, LF)]
  }

  lemma KeptStep(s: Line)
    requires Find(s, LF) >= 0
    ensures var raw := StripCr(s[..Find(s, LF)]);
      Kept(Segments(s, LF)) == (if raw == [] then [] else [raw]) + Kept(Segments(s[Find(s, LF) + 1..], LF))
  {
    hide Find, Kept;
    KeptCons(s[..Find(s, LF)], Segments(s[Find(s, LF) + 1..], LF));
  }

  lemma KeptCons(first: Line, rest: seq<Line>)
    ensures Kept([first] + rest) == (if StripCr(first) == [] then [] else [StripCr(first)]) + Kept(rest)
  {
    assert ([first] + rest)[1..] == rest;
  }

  lemma CutAt(s: Line, n: nat)
    requires Find(s, LF) == n
    ensures n < |s| && Find(s[..n + 1], LF) == n && s[..n + 1][..n] == s[..n] && s == s[..n + 1] + s[n + 1..]
  {
    FirstFound(s, n);
    FirstFound(s[..n + 1], n);
  }

  lemma {:induction false} FirstFound(s: Line, n: nat)
    requires n < |s|
    ensures Find(s, LF) == n <==> s[n] == LF && forall i :: 0 <= i < n ==> s[i] != LF
  {
    if n > 0 {
      FirstFound(s[1..], n - 1);
    }
  }

  /** A buffered separator decides the next line whatever is read later. */
  lemma LinesStep(buffer: Line, more: Line)
    requires Find(buffer, LF) >= 0
    ensures var raw := StripCr(buffer[..Find(buffer, LF)]);
      Lines(buffer + more) == (if raw == [] then [] else [raw]) + Lines(buffer[Find(buffer, LF) + 1..] + more)
  {
    hide Kept, Segments, Find, StripCr, Blank;
    var n := Find(buffer, LF);
    FindInExtension(buffer, more, LF);
    KeptStep(buffer + more);
    assert (buffer + more)[..n] == buffer[..n];
    assert (buffer + more)[n + 1..] == buffer[n + 1..] + more;
  }

  lemma NoSeparatorLeft(s: Line)
    requires Find(s, LF) < 0
    ensures Segments(s, LF) == [] && Lines(s) == if Blank(s) then [] else [s]
    ensures LF !in s
  {
  }

  lemma StaysLive(pipe: seq<Poll>)
    requires pipe != [] && Live(pipe)
    ensures Live(pipe[1..])
  {
    forall i | 0 <= i < |pipe[1..]| ensures pipe[1..][i] == pipe[i + 1] {}
  }

  lemma NextPoll(buffer: Line, pipe: seq<Poll>)
    requires pipe != []
    ensures pipe[0].Chunk? ==> buffer + Pending(pipe) == buffer + pipe[0].bytes + Pending(pipe[1..])
    ensures pipe[0].Deadline? ==> Pending(pipe) == Pending(pipe[1..])
  {
    var rest := Pending(pipe[1..]);
    if pipe[0].Chunk? {
      assert buffer + (pipe[0].bytes + rest) == buffer + pipe[0].bytes + rest;
    } else {
      assert [] + rest == rest;
    }
  }

  lemma NothingKept()
    ensures Kept([]) == []
  {
  }

  /** One `select` and `read`: a non-empty chunk, or the deadline without data.  The pipe then closes. */
  datatype Poll = Chunk(bytes: Line) | Deadline

  function Pending(pipe: seq<Poll>): Line {
    if pipe == [] then []
    else (if pipe[0].Chunk? then pipe[0].bytes else []) + Pending(pipe[1..])
  }

  /** Chunks only, no deadline. */
  ghost predicate Chunks(polls: seq<Poll>) {
    forall i :: 0 <= i < |polls| ==> polls[i].Chunk?
  }

  /** The lines that are complete in a buffer once it has taken these polls in. */
  ghost function Complete(buffer: Line, polls: seq<Poll>): seq<Line> {
    Kept(Segments(buffer + Pending(polls), LF))
  }

  /** A deadline after chunks that completed no line. */
  ghost predicate TimesOut(buffer: Line, used: seq<Poll>) {
    && used != [] && used[|used| - 1].Deadline? && Chunks(used[..|used| - 1])
    && Complete(buffer, used[..|used| - 1]) == []
  }

  /** The first line that these polls complete, all of them being needed. */
  ghost predicate FirstComplete(buffer: Line, used: seq<Poll>, line: Line) {
    && Complete(buffer, used) != [] && line == Complete(buffer, used)[0]
    && (used != [] ==> Complete(buffer, used[..|used| - 1]) == [])
  }

  lemma {:induction false} PendingConcat(a: seq<Poll>, b: seq<Poll>)
    ensures Pending(a + b) == Pending(a) + Pending(b)
  {
    if a == [] {
      assert a + b == b;
    } else {
      assert (a + b)[1..] == a[1..] + b;
      PendingConcat(a[1..], b);
    }
  }

  lemma {:induction false} KeptConcat(a: seq<Line>, b: seq<Line>)
    ensures Kept(a + b) == Kept(a) + Kept(b)
  {
    if a == [] {
      assert a + b == b;
    } else {
      assert (a + b)[1..] == a[1..] + b;
      KeptConcat(a[1..], b);
    }
  }

  /** Lines once complete stay complete. */
  lemma CompleteGrows(buffer: Line, polls: seq<Poll>, n: nat)
    requires n <= |polls|
    ensures Complete(buffer, polls[..n]) <= Complete(buffer, polls)
  {
    hide Kept, Segments, Tail, Pending;
    var seen, more := buffer + Pending(polls[..n]), Pending(polls[n..]);
    PendingConcat(polls[..n], polls[n..]);
    assert polls[..n] + polls[n..] == polls;
    assert buffer + Pending(polls) == seen + more;
    SegmentsExtend(seen, more, LF);
    KeptConcat(Segments(seen, LF), Segments(Tail(seen, LF) + more, LF));
  }

  lemma CompleteFromTheStart(buffer: Line, polls: seq<Poll>)
    ensures Complete(buffer, []) <= Complete(buffer, polls)
  {
    assert polls[..0] == [];
    CompleteGrows(buffer, polls, 0);
  }

  lemma NoDeadlineAmongChunks(pipe: seq<Poll>, n: nat, i: nat)
    requires n <= |pipe| && i < |pipe| && Chunks(pipe[..n]) && pipe[i].Deadline?
    ensures n <= i
  {
    assert forall k :: 0 <= k < n ==> pipe[..n][k] == pipe[k];
  }

  /** There is no timeout where the chunks before the deadline complete a line. */
  lemma CompletedInTime(buffer: Line, pipe: seq<Poll>, n: nat, m: nat)
    requires n <= |pipe| && m <= |pipe| && Chunks(pipe[..n]) && Complete(buffer, pipe[..n]) != []
    ensures !TimesOut(buffer, pipe[..m])
  {
    if TimesOut(buffer, pipe[..m]) {
      hide Complete;
      assert pipe[..m][m - 1] == pipe[m - 1];
      NoDeadlineAmongChunks(pipe, n, m - 1);
      assert pipe[..m][..m - 1] == pipe[..m - 1] && pipe[..m - 1][..n] == pipe[..n];
      CompleteGrows(buffer, pipe[..m - 1], n);
    }
  }

  /** Nothing but empty lines: whatever follows keeps its lines. */
  ghost predicate EmptyLines(prefix: Line) {
    forall z :: Kept(Segments(prefix + z, LF)) == Kept(Segments(z, LF))
  }

  lemma NoEmptyLines()
    ensures EmptyLines([])
  {
    forall z ensures Kept(Segments([] + z, LF)) == Kept(Segments(z, LF)) {
      assert [] + z == z;
    }
  }

  lemma OneEmptyLine(prefix: Line, cut: Line)
    requires EmptyLines(prefix)
    requires Find(cut, LF) == |cut| - 1 && |cut| > 0 && StripCr(cut[..|cut| - 1]) == []
    ensures EmptyLines(prefix + cut)
  {
    hide Kept, Segments, Find, StripCr;
    forall z ensures Kept(Segments(prefix + cut + z, LF)) == Kept(Segments(z, LF)) {
      assert prefix + cut + z == prefix + (cut + z);
      FindInExtension(cut, z, LF);
      KeptStep(cut + z);
      assert (cut + z)[..|cut| - 1] == cut[..|cut| - 1] && (cut + z)[|cut|..] == z;
      assert [] + Kept(Segments(z, LF)) == Kept(Segments(z, LF));
    }
  }

  /** Behind empty lines the buffer holds the complete lines of all that was taken in. */
  lemma CompleteBehind(prefix: Line, buffer: Line, start: Line, polls: seq<Poll>)
    requires EmptyLines(prefix) && start + Pending(polls) == prefix + buffer
    ensures Complete(start, polls) == Kept(Segments(buffer, LF))
  {
  }

  lemma {:induction false} PendingSnoc(polls: seq<Poll>, poll: Poll)
    ensures Pending(polls + [poll]) == Pending(polls) + if poll.Chunk? then poll.bytes else []
  {
    if polls == [] {
      assert [] + [poll] == [poll];
    } else {
      assert (polls + [poll])[1..] == polls[1..] + [poll];
      PendingSnoc(polls[1..], poll);
    }
  }

  ghost predicate Live(pipe: seq<Poll>) {
    forall i :: 0 <= i < |pipe| && pipe[i].Chunk? ==> pipe[i].bytes != []
  }

  /** What the byte level found: a line, an unreadable tail, or nothing. */
  datatype Taken = Got(line: Line) | BadTail | NoneYet | Closed

  datatype ReadResult<F> =
    | Frame(frame: F)
    | BadText        // not UTF-8
    | BadJson(line: Line)
    | TimedOut
    | Exited

  function Parsed<F>(lines: seq<Line>, text: Line -> bool, parse: Line -> Option<F>): seq<F> {
    if lines == [] then []
    else
      var last := lines[|lines| - 1];
      Parsed(lines[..|lines| - 1], text, parse)
      + if text(last) && parse(last).Some? then [parse(last).value] else []
  }

  lemma ParsedSnoc<F>(lines: seq<Line>, line: Line, text: Line -> bool, parse: Line -> Option<F>)
    ensures Parsed(lines + [line], text, parse)
         == Parsed(lines, text, parse) + if text(line) && parse(line).Some? then [parse(line).value] else []
  {
    assert (lines + [line])[..|lines|] == lines;
  }

  /** `used` polls were taken in without completing a line; they left the buffer behind empty lines. */
  ghost predicate Progress(start: Line, polls: seq<Poll>, used: nat, prefix: Line, buffer: Line) {
    && used <= |polls| && Chunks(polls[..used]) && EmptyLines(prefix)
    && start + Pending(polls[..used]) == prefix + buffer
    && (used > 0 ==> Complete(start, polls[..used - 1]) == [])
  }

  lemma NoProgress(start: Line, polls: seq<Poll>)
    ensures Progress(start, polls, 0, [], start)
  {
    hide Complete;
    NoEmptyLines();
    assert polls[..0] == [] && start + [] == start && [] + start == start;
  }

  lemma CutProgress(
    start: Line, polls: seq<Poll>, used: nat, prefix: Line, whole: Line, buffer: Line, raw: Line)
    requires Progress(start, polls, used, prefix, whole) && |buffer| < |whole|
    requires var cut := whole[..|whole| - |buffer|];
      whole == cut + buffer && Find(cut, LF) == |cut| - 1 && raw == StripCr(cut[..|cut| - 1])
    requires Kept(Segments(whole, LF)) == (if raw == [] then [] else [raw]) + Kept(Segments(buffer, LF))
    ensures Chunks(polls[..used])
    ensures raw != [] ==> FirstComplete(start, polls[..used], raw)
    ensures raw == [] ==> Progress(start, polls, used, prefix + whole[..|whole| - |buffer|], buffer)
  {
    hide Kept, Segments, Find, Pending, StripCr, Chunks, Complete, EmptyLines;
    var cut := whole[..|whole| - |buffer|];
    if raw == [] {
      OneEmptyLine(prefix, cut);
      assert prefix + whole == prefix + cut + buffer;
    } else {
      CompleteBehind(prefix, whole, start, polls[..used]);
      assert used > 0 ==> polls[..used][..used - 1] == polls[..used - 1];
    }
  }

  lemma NothingComplete(start: Line, polls: seq<Poll>, used: nat, prefix: Line, buffer: Line)
    requires Progress(start, polls, used, prefix, buffer) && Find(buffer, LF) < 0
    ensures Complete(start, polls[..used]) == [] && Chunks(polls[..used])
  {
    hide Pending, Chunks, EmptyLines, Complete;
    NoSeparatorLeft(buffer);
    NothingKept();
    CompleteBehind(prefix, buffer, start, polls[..used]);
  }

  lemma RefillProgress(
    start: Line, polls: seq<Poll>, used: nat, prefix: Line, past: Line, buffer: Line)
    requires Progress(start, polls, used, prefix, past) && Find(past, LF) < 0 && used < |polls|
    requires buffer == past + if polls[used].Chunk? then polls[used].bytes else []
    ensures polls[used].Chunk? ==> Progress(start, polls, used + 1, prefix, buffer)
    ensures polls[used].Deadline? ==> TimesOut(start, polls[..used + 1])
  {
    hide Find, Pending, EmptyLines, Complete;
    NothingComplete(start, polls, used, prefix, past);
    PendingSnoc(polls[..used], polls[used]);
    assert polls[..used] + [polls[used]] == polls[..used + 1] && polls[..used + 1][..used] == polls[..used];
    if polls[used].Chunk? {
      var more := polls[used].bytes;
      assert start + (Pending(polls[..used]) + more) == (start + Pending(polls[..used])) + more;
      assert (prefix + past) + more == prefix + (past + more);
    }
  }

  /** What the outcome of a reading says about complete lines that were buffered or came in time. */
  lemma ReadsOn(buffer: Line, before: seq<Poll>, used: nat, timedOut: bool, line: Option<Line>, after: seq<Poll>)
    requires used <= |before| && after == before[used..]
    requires !timedOut ==> Chunks(before[..used])
    requires timedOut ==> TimesOut(buffer, before[..used])
    requires line.Some? ==>
      FirstComplete(buffer, before[..used], line.value) || (after == [] && Complete(buffer, before[..used]) == [])
    requires line.None? && !timedOut ==> Complete(buffer, before[..used]) == []
    ensures Complete(buffer, []) != [] ==> after == before && line == Some(Complete(buffer, [])[0])
    ensures timedOut ==> forall n ::
      0 <= n <= |before| && Chunks(before[..n]) ==> Complete(buffer, before[..n]) == []
  {
    hide Complete;
    forall n | 0 <= n <= |before| && Chunks(before[..n]) && timedOut
      ensures Complete(buffer, before[..n]) == []
    {
      if Complete(buffer, before[..n]) != [] {
        CompletedInTime(buffer, before, n, used);
      }
    }
    if Complete(buffer, []) != [] {
      assert used == 0 ==> before[..used] == [];
      CompleteFromTheStart(buffer, before[..used]);
      if used > 0 {
        CompleteFromTheStart(buffer, before[..used][..used - 1]);
      }
    }
  }

  class AcpClient<F> {
    const text: Line -> bool
    const parse: Line -> Option<F>
    var buffer: Line
    var pipe: seq<Poll>
    var frames: seq<F>
    ghost const stream: Line
    ghost var taken: seq<Line>

    /** Conservation: what was taken and what is still to come make up the lines of the whole stream. */
    ghost predicate Conserved()
      reads this
    {
      Live(pipe) && taken + Lines(buffer + Pending(pipe)) == Lines(stream)
    }

    ghost predicate Valid()
      reads this
    {
      Conserved() && frames == Parsed(taken, text, parse)
    }

    constructor (pipe: seq<Poll>, text: Line -> bool, parse: Line -> Option<F>)
      requires Live(pipe)
      ensures Valid() && stream == Pending(pipe) && taken == [] && frames == []
      ensures this.text == text && this.parse == parse
    {
      this.pipe, this.text, this.parse := pipe, text, parse;
      buffer, frames, taken, stream := [], [], [], Pending(pipe);
      new;
      assert buffer + Pending(pipe) == stream;
    }

    /** One turn of the loop when the buffer holds a separator: cut the segment off. */
    method Cut() returns (raw: Line)
      requires Find(buffer, LF) >= 0
      modifies this`buffer
      ensures |buffer| < |old(buffer)|
      ensures var cut := old(buffer)[..|old(buffer)| - |buffer|];
        old(buffer) == cut + buffer && Find(cut, LF) == |cut| - 1 && raw == StripCr(cut[..|cut| - 1])
      ensures Lines(old(buffer) + Pending(pipe)) == (if raw == [] then [] else [raw]) + Lines(buffer + Pending(pipe))
      ensures Kept(Segments(old(buffer), LF)) == (if raw == [] then [] else [raw]) + Kept(Segments(buffer, LF))
    {
      hide Lines, Kept, Segments, Find, Pending, StripCr;
      LinesStep(buffer, Pending(pipe));
      KeptStep(buffer);
      var newline := Find(buffer, LF);
      raw := StripCr(buffer[..newline]);
      CutAt(buffer, newline);
      buffer := buffer[newline + 1..];
    }

    /** One turn of the loop when it does not: wait for the pipe and append what arrives. */
    method Refill() returns (arrived: bool)
      requires pipe != [] && Live(pipe)
      modifies this`buffer, this`pipe
      ensures Live(pipe) && |pipe| == |old(pipe)| - 1
      ensures buffer + Pending(pipe) == old(buffer + Pending(pipe))
      ensures pipe == old(pipe)[1..] && arrived == old(pipe)[0].Chunk?
      ensures buffer == old(buffer) + if arrived then old(pipe)[0].bytes else []
    {
      hide Pending, Live;
      NextPoll(buffer, pipe);
      StaysLive(pipe);
      var poll := pipe[0];
      pipe := pipe[1..];
      arrived := poll.Chunk?;
      if arrived {
        buffer := buffer + poll.bytes;
      }
    }

    /** Cut the next non-empty line off the buffer, reading the pipe only when there is none. */
    method NextLine() returns (line: Option<Line>, timedOut: bool)
      requires Conserved()
      modifies this`buffer, this`pipe
      ensures Live(pipe) && |pipe| <= |old(pipe)| && pipe == old(pipe)[|old(pipe)| - |pipe|..]
      ensures line.Some? ==> !timedOut && taken + [line.value] + Lines(buffer + Pending(pipe)) == Lines(stream)
      ensures line.None? ==> taken + Lines(buffer + Pending(pipe)) == Lines(stream) && LF !in buffer
      ensures line.None? && !timedOut ==> pipe == []
      // What it took from the pipe decides the outcome: the first complete line, as soon as there is one,
      // and a timeout at the deadline only, when the chunks before it completed none.
      ensures var used := old(pipe)[..|old(pipe)| - |pipe|];
        && (!timedOut ==> Chunks(used))
        && (timedOut ==> TimesOut(old(buffer), used) && used != [])
        && (line.Some? ==> FirstComplete(old(buffer), used, line.value))
        && (line.None? && !timedOut ==> Complete(old(buffer), used) == [])
    {
      hide Lines, Kept, Segments, Find, Pending, StripCr, Live;
      hide Progress, EmptyLines, Complete, FirstComplete, TimesOut, Chunks;
      ghost var prefix, used, start, polls := [], 0, buffer, pipe;
      NoProgress(start, polls);
      while true
        invariant Live(pipe) && used == |polls| - |pipe| && 0 <= used && pipe == polls[used..]
        invariant taken + Lines(buffer + Pending(pipe)) == Lines(stream)
        invariant Progress(start, polls, used, prefix, buffer)
        decreases |pipe|, |buffer|
      {
        ghost var whole := buffer;
        var newline := Find(buffer, LF);
        if newline >= 0 {
          var raw := Cut();
          CutProgress(start, polls, used, prefix, whole, buffer, raw);
          if raw != [] {
            return Some(raw), false;
          }
          prefix := prefix + whole[..|whole| - |buffer|];
        } else {
          NoSeparatorLeft(buffer);
          NothingComplete(start, polls, used, prefix, buffer);
          if pipe == [] {
            return None, false;
          }
          var arrived := Refill();
          RefillProgress(start, polls, used, prefix, whole, buffer);
          used := used + 1;
          if !arrived {
            return None, true;
          }
        }
      }
    }

    /** The framing half of `read_one`: the next line, or at the end of the pipe the unterminated rest. */
    method Take() returns (t: Taken)
      requires Conserved()
      modifies this`buffer, this`pipe, this`taken
      ensures Conserved() && |pipe| <= |old(pipe)| && pipe == old(pipe)[|old(pipe)| - |pipe|..]
      ensures var used := old(pipe)[..|old(pipe)| - |pipe|];
        && (!t.NoneYet? ==> Chunks(used))
        && (t.NoneYet? ==> TimesOut(old(buffer), used))
        && (t.Got? ==> FirstComplete(old(buffer), used, t.line) || (pipe == [] && Complete(old(buffer), used) == []))
        && (t.Closed? || t.BadTail? ==> Complete(old(buffer), used) == [])
      ensures taken == old(taken) + if t.Got? then [t.line] else []
      ensures t.NoneYet? ==> |pipe| < |old(pipe)| && LF !in buffer
      ensures t.Closed? ==> taken == Lines(stream) && pipe == []
      ensures t.BadTail? ==> pipe == [] && Lines(buffer) == [buffer] && !text(buffer)
    {
      hide Kept, Segments, Find, Lines, Complete, FirstComplete, TimesOut, Chunks;
      var line, timedOut := NextLine();
      if line.Some? {
        taken := taken + [line.value];
        return Got(line.value);
      }
      if timedOut {
        return NoneYet;
      }
      assert buffer + [] == buffer;
      Unterminated(buffer);
      if Blank(buffer) {
        return Closed;
      }
      if !text(buffer) {
        return BadTail;
      }
      t := Got(buffer);
      taken := taken + [buffer];
      buffer := [];
      assert [] + Pending(pipe) == [];
      Unterminated([]);
    }

    /** `read_one`. */
    method ReadOne() returns (r: ReadResult<F>)
      requires Valid()
      modifies this
      ensures Valid() && old(taken) <= taken
      ensures |pipe| <= |old(pipe)| && pipe == old(pipe)[|old(pipe)| - |pipe|..]
      // Buffered lines come first, without touching the pipe.
      ensures Complete(old(buffer), []) != [] ==>
        pipe == old(pipe) && taken == old(taken) + [Complete(old(buffer), [])[0]]
      // Otherwise it reads on until a line is complete: that one is taken, or the rest at the end of the pipe.
      ensures |taken| > |old(taken)| ==>
        var used := old(pipe)[..|old(pipe)| - |pipe|];
        || FirstComplete(old(buffer), used, taken[|old(taken)|])
        || (pipe == [] && Complete(old(buffer), used) == [])
      // It times out at the deadline only, and not when the chunks before it complete a line.
      ensures r.TimedOut? ==> TimesOut(old(buffer), old(pipe)[..|old(pipe)| - |pipe|])
      ensures !r.TimedOut? ==> Chunks(old(pipe)[..|old(pipe)| - |pipe|])
      ensures r.TimedOut? ==> forall n ::
        0 <= n <= |old(pipe)| && Chunks(old(pipe)[..n]) ==> Complete(old(buffer), old(pipe)[..n]) == []
      // A frame and a malformed line each take exactly one line.
      ensures r.Frame? ==>
        |taken| == |old(taken)| + 1 && frames == old(frames) + [r.frame] && parse(taken[|taken| - 1]) == Some(r.frame)
      ensures r.BadJson? ==>
        taken == old(taken) + [r.line] && frames == old(frames) && text(r.line) && parse(r.line).None?
      // So does an unreadable line, except at the end of the pipe, where the rest stays in the buffer.
      ensures r.BadText? ==> frames == old(frames)
      ensures r.BadText? ==>
        ((|taken| == |old(taken)| + 1 && !text(taken[|taken| - 1]))
          || (taken == old(taken) && pipe == [] && Lines(buffer) == [buffer] && !text(buffer)))
      // A timeout loses nothing and withholds no complete line.
      ensures r.TimedOut? ==> taken == old(taken) && |pipe| < |old(pipe)| && LF !in buffer
      // The exit is reported only when every line of the stream has been taken.
      ensures r.Exited? ==> taken == old(taken) == Lines(stream) && pipe == []
    {
      hide Kept, Segments, Find, Lines, Parsed, Complete, FirstComplete, TimesOut, Chunks;
      ghost var before := taken;
      var t := Take();
      ReadsOn(old(buffer), old(pipe), |old(pipe)| - |pipe|, t.NoneYet?, if t.Got? then Some(t.line) else None, pipe);
      assert before + [] == before;
      match t
      case NoneYet => return TimedOut;
      case Closed => return Exited;
      case BadTail => return BadText;
      case Got(line) =>
        ParsedSnoc(before, line, text, parse);
        if !text(line) {
          return BadText;
        }
        var parsed := parse(line);
        if parsed.None? {
          return BadJson(line);
        }
        frames := frames + [parsed.value];
        return Frame(parsed.value);
    }

    /**
     `wait_frame`: read until a frame satisfies the predicate, until a read does not give a
     frame, or until the deadline, which passes after `patience` frames; a frame read by then is not lost.
     */
    method WaitFrame(wanted: F -> bool, patience: nat) returns (r: ReadResult<F>)
      requires Valid()
      modifies this
      ensures Valid() && old(frames) <= frames && |frames| <= |old(frames)| + patience
      ensures r.Frame? ==> wanted(r.frame) && |frames| > |old(frames)| && frames[|frames| - 1] == r.frame
      ensures forall i :: |old(frames)| <= i < |frames| - (if r.Frame? then 1 else 0) ==> !wanted(frames[i])
      ensures r.Exited? ==> taken == Lines(stream)
      // Short of its patience it gives up at a deadline or on a line that is no frame.
      ensures r.TimedOut? && |frames| < |old(frames)| + patience ==>
        |pipe| < |old(pipe)| && old(pipe)[|old(pipe)| - |pipe| - 1].Deadline?
      ensures r.BadJson? ==> taken != [] && r.line == taken[|taken| - 1] && text(r.line) && parse(r.line).None?
    {
      hide Lines, Parsed, Kept, Segments, Complete, Chunks;
      var left := patience;
      while left > 0
        invariant |pipe| <= |old(pipe)| && pipe == old(pipe)[|old(pipe)| - |pipe|..]
        invariant Valid() && old(frames) <= frames && |frames| + left == |old(frames)| + patience
        invariant forall i :: |old(frames)| <= i < |frames| ==> !wanted(frames[i])
      {
        ghost var before := pipe;
        r := ReadOne();
        assert r.TimedOut? ==> before[|before| - |pipe| - 1] == old(pipe)[|old(pipe)| - |pipe| - 1];
        if !r.Frame? || wanted(r.frame) {
          return;
        }
        left := left - 1;
      }
      r := TimedOut;
    }
  }

  lemma Unterminated(s: Line)
    requires LF !in s
    ensures Lines(s) == if Blank(s) then [] else [s]
  {
    assert Find(s, LF) < 0;
  }

  // ----- The desktop shell's reader -----

  predicate Space(c: char) {
    c == ' ' || '\t' <= c <= '\r'
  }

  /** `trim`. */
  function Trim(s: string): string
    decreases |s|
  {
    if s == [] then s
    else if Space(s[0]) then Trim(s[1..])
    else if Space(s[|s| - 1]) then Trim(s[..|s| - 1])
    else s
  }

  /** The first segment that is an announcement; `announces` is the JSON test and yields the base URL. */
  function FirstAnnouncement(segments: seq<string>, announces: string -> Option<string>): Option<string> {
    if segments == [] then None
    else
      var line := Trim(segments[0]);
      if line != "" && announces(line).Some? then announces(line) else FirstAnnouncement(segments[1..], announces)
  }

  function Concat(chunks: seq<string>): string {
    if chunks == [] then "" else Concat(chunks[..|chunks| - 1]) + chunks[|chunks| - 1]
  }

  lemma {:induction false} SegmentsExtend<T>(s: seq<T>, more: seq<T>, mark: T)
    ensures Segments(s + more, mark) == Segments(s, mark) + Segments(Tail(s, mark) + more, mark)
    ensures Tail(s + more, mark) == Tail(Tail(s, mark) + more, mark)
    decreases |s|
  {
    hide Find;
    var n := Find(s, mark);
    if n >= 0 {
      FindInExtension(s, more, mark);
      assert (s + more)[..n] == s[..n] && (s + more)[n + 1..] == s[n + 1..] + more;
      SegmentsExtend(s[n + 1..], more, mark);
    }
  }

  lemma {:induction false} AnnouncementSkips(a: seq<string>, b: seq<string>, announces: string -> Option<string>)
    ensures FirstAnnouncement(a + b, announces) ==
      if FirstAnnouncement(a, announces).Some? then FirstAnnouncement(a, announces) else FirstAnnouncement(b, announces)
  {
    if a == [] {
      assert a + b == b;
    } else {
      assert (a + b)[1..] == a[1..] + b;
      AnnouncementSkips(a[1..], b, announces);
    }
  }

  /**
   `waitForServing`: whatever the chunks, the address found is the first announcement among
   the complete lines of the whole output.
   */
  method WaitForServing(chunks: seq<string>, announces: string -> Option<string>) returns (url: Option<string>)
    ensures url == FirstAnnouncement(Segments(Concat(chunks), '\n'), announces)
  {
    hide Find, Segments, Tail, FirstAnnouncement, Trim;
    var buffer := "";
    TailOfNothing(announces);
    for i := 0 to |chunks|
      invariant buffer == Tail(Concat(chunks[..i]), '\n')
      invariant FirstAnnouncement(Segments(Concat(chunks[..i]), '\n'), announces).None?
    {
      assert chunks[..i + 1][..i] == chunks[..i];
      SegmentsExtend(Concat(chunks[..i]), chunks[i], '\n');
      buffer := buffer + chunks[i];
      AnnouncementSkips(Segments(Concat(chunks[..i]), '\n'), Segments(buffer, '\n'), announces);
      url, buffer := Drain(buffer, announces);
      if url.Some? {
        LaterChunksDoNotMatter(chunks, i + 1, announces);
        return;
      }
    }
    assert chunks[..|chunks|] == chunks;
    url := None;
  }

  lemma TailOfNothing(announces: string -> Option<string>)
    ensures Tail("", '\n') == "" && Segments("", '\n') == [] && FirstAnnouncement([], announces).None?
  {
  }

  lemma {:induction false} LaterChunksDoNotMatter(chunks: seq<string>, k: nat, announces: string -> Option<string>)
    requires k <= |chunks|
    requires FirstAnnouncement(Segments(Concat(chunks[..k]), '\n'), announces).Some?
    ensures FirstAnnouncement(Segments(Concat(chunks), '\n'), announces) ==
      FirstAnnouncement(Segments(Concat(chunks[..k]), '\n'), announces)
    decreases |chunks|
  {
    hide Segments, FirstAnnouncement;
    if k == |chunks| {
      assert chunks[..k] == chunks;
    } else {
      var front := chunks[..|chunks| - 1];
      assert front[..k] == chunks[..k];
      LaterChunksDoNotMatter(front, k, announces);
      SegmentsExtend(Concat(front), chunks[|chunks| - 1], '\n');
      AnnouncementSkips(Segments(Concat(front), '\n'),
        Segments(Tail(Concat(front), '\n') + chunks[|chunks| - 1], '\n'), announces);
    }
  }

  /** The inner loop over the complete lines of the buffer. */
  method Drain(text: string, announces: string -> Option<string>) returns (url: Option<string>, buffer: string)
    ensures url == FirstAnnouncement(Segments(text, '\n'), announces)
    ensures url.None? ==> buffer == Tail(text, '\n')
  {
    hide Find, Trim;
    buffer := text;
    var newline := Find(buffer, '\n');
    while newline >= 0
      invariant newline == Find(buffer, '\n')
      invariant FirstAnnouncement(Segments(buffer, '\n'), announces) ==
        FirstAnnouncement(Segments(text, '\n'), announces)
      invariant Tail(buffer, '\n') == Tail(text, '\n')
      decreases |buffer|
    {
      var line := Trim(buffer[..newline]);
      assert Segments(buffer, '\n')[1..] == Segments(buffer[newline + 1..], '\n');
      buffer := buffer[newline + 1..];
      newline := Find(buffer, '\n');
      if line != "" && announces(line).Some? {
        return announces(line), buffer;
      }
    }
    url := None;
  }
}
