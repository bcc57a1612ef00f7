/**
 The app-server connection: one log of everything read, shared by requests that wait for
 their response and by waits for notifications.
 */
module MessageLog {
  import opened Basics

  /** A JSON-RPC message: a response has an id, a notification a method name (`call`), a server request both. */
  datatype Message = Message(id: Option<int>, call: Option<string>, params: string)
  {
    predicate ServerRequest() {
      id.Some? && call.Some?
    }

    predicate TurnCompletedFor(turn: string) {
      call == Some("turn/completed") && params == turn
    }
  }

  datatype Sent =
    | SentRequest(id: int, call: string)
    | SentAnswer(id: int)

  /** One turn of a waiting loop: a line arrives, the short wait ends without one, or the deadline passes. */
  datatype Poll = Line(message: Message) | Quiet | Deadline

  function Arriving(feed: seq<Poll>): seq<Message> {
    if feed == [] then [] else (if feed[0].Line? then [feed[0].message] else []) + Arriving(feed[1..])
  }

  datatype Outcome = Found(message: Message) | TimedOut

  /** Position of the first match at or after `start`, or the length of the log. */
  function FirstMatch(log: seq<Message>, start: nat, wanted: Message -> bool): (k: nat)
    ensures start <= |log| ==> start <= k <= |log|
    ensures k < |log| ==> wanted(log[k])
    ensures forall i :: start <= i < k && i < |log| ==> !wanted(log[i])
    decreases |log| - start
  {
    if start >= |log| then |log| else if wanted(log[start]) then start else FirstMatch(log, start + 1, wanted)
  }

  ghost predicate NoDeadline(polls: seq<Poll>) {
    forall i :: 0 <= i < |polls| ==> !polls[i].Deadline?
  }

  /** The feed is read in order, and given up at the first deadline or when nothing more comes, and only then. */
  ghost predicate ReadOn(feed: seq<Poll>, n: int, rest: seq<Poll>, gaveUp: bool) {
    && 0 <= n <= |feed| && rest == feed[n..]
    && (!gaveUp ==> NoDeadline(feed[..n]))
    && (gaveUp ==> (rest == [] && NoDeadline(feed)) || (n > 0 && feed[n - 1].Deadline? && NoDeadline(feed[..n - 1])))
  }

  lemma NothingReadOn(feed: seq<Poll>)
    ensures ReadOn(feed, 0, feed, false)
  {
  }

  /** Three readings in a row, the last of which gave up. */
  lemma GaveUpLast(
    feed: seq<Poll>, first: seq<Poll>, gaveUp: bool, second: seq<Poll>, gaveUpToo: bool, rest: seq<Poll>)
    requires ReadOn(feed, |feed| - |first|, first, gaveUp) && ReadOn(first, |first| - |second|, second, gaveUpToo)
    requires ReadOn(second, |second| - |rest|, rest, true)
    ensures rest == [] || (|rest| < |feed| && feed[|feed| - |rest| - 1].Deadline?)
  {
    if rest != [] {
      var n := |second| - |rest| - 1;
      assert second[n] == first[|first| - |second| + n];
      assert first[|first| - |second| + n] == feed[|feed| - |rest| - 1];
    }
  }

  lemma OnePollMore(feed: seq<Poll>, rest: seq<Poll>, next: seq<Poll>, expired: bool)
    requires |rest| <= |feed| && ReadOn(feed, |feed| - |rest|, rest, false)
    requires next == (if rest == [] then [] else rest[1..]) && (expired <==> rest == [] || rest[0].Deadline?)
    ensures ReadOn(feed, |feed| - |next|, next, expired)
  {
    var n := |feed| - |rest|;
    assert rest == [] ==> feed[..n] == feed;
    assert rest != [] ==> feed[..n + 1] == feed[..n] + [feed[n]] && feed[n] == rest[0] && feed[n + 1..] == next;
  }

  class AppServer {
    var feed: seq<Poll>
    var messages: seq<Message>
    var nextId: int
    var sent: seq<Sent>
    ghost const stream: seq<Message>

    /** The log is exactly the part of the stream that has been read, in order; ids were handed out in order. */
    ghost predicate Valid()
      reads this
    {
      && messages + Arriving(feed) == stream
      && nextId >= 1
      && (forall i :: 0 <= i < |sent| && sent[i].SentRequest? ==> 1 <= sent[i].id < nextId)
      && (forall i, j :: 0 <= i < j < |sent| && sent[i].SentRequest? && sent[j].SentRequest? ==>
        sent[i].id < sent[j].id)
    }

    constructor (feed: seq<Poll>)
      ensures Valid() && stream == Arriving(feed) && messages == [] && nextId == 1 && sent == []
    {
      this.feed := feed;
      messages, nextId, sent := [], 1, [];
      stream := Arriving(feed);
    }

    /** `read_one`: log first, then answer a server request. */
    method ReadOne() returns (item: Option<Message>, expired: bool)
      requires Valid()
      modifies this`feed, this`messages, this`sent
      ensures Valid() && feed == if old(feed) == [] then [] else old(feed)[1..]
      ensures expired <==> old(feed) == [] || old(feed)[0].Deadline?
      ensures item.Some? <==> old(feed) != [] && old(feed)[0].Line?
      ensures item.Some? ==> !expired && messages == old(messages) + [item.value]
      ensures item.None? ==> messages == old(messages) && sent == old(sent)
      ensures item.Some? ==>
        sent == old(sent) + if item.value.ServerRequest() then [SentAnswer(item.value.id.value)] else []
    {
      if feed == [] {
        return None, true;
      }
      var poll := feed[0];
      feed := feed[1..];
      match poll
      case Quiet => return None, false;
      case Deadline => return None, true;
      case Line(message) =>
        assert messages + ([message] + Arriving(feed)) == messages + [message] + Arriving(feed);
        messages := messages + [message];
        if message.ServerRequest() {
          sent := sent + [SentAnswer(message.id.value)];
        }
        return Some(message), false;
    }

    /** `wait_for`: the log first, then the stream; the result is the earliest match either way. */
    method WaitFor(wanted: Message -> bool, start: nat) returns (r: Outcome)
      requires Valid()
      modifies this`feed, this`messages, this`sent
      ensures Valid() && old(messages) <= messages && nextId == old(nextId) && |feed| <= |old(feed)|
      ensures start <= |old(messages)| ==>
        var k := FirstMatch(messages, start, wanted);
        && (r.Found? <==> k < |messages|)
        && (r.Found? ==> r.message == messages[k])
        // Nothing is read when the answer is already in the log, and nothing beyond the answer otherwise.
        && (FirstMatch(old(messages), start, wanted) < |old(messages)| ==>
          messages == old(messages) && feed == old(feed))
        && (r.Found? && messages != old(messages) ==> k == |messages| - 1)
      ensures r.Found? ==> wanted(r.message) && r.message in messages
      ensures ReadOn(old(feed), |old(feed)| - |feed|, feed, r.TimedOut?)
    {
      NoMatchPastTheEnd(messages, wanted);
      hide ReadOn, Arriving, FirstMatch;
      NothingReadOn(feed);
      var known := FirstMatch(messages, start, wanted);
      if known < |messages| {
        return Found(messages[known]);
      }
      while true
        invariant Valid() && old(messages) <= messages
        invariant |feed| <= |old(feed)| && ReadOn(old(feed), |old(feed)| - |feed|, feed, false)
        invariant start <= |old(messages)| ==> FirstMatch(messages, start, wanted) == |messages|
        decreases |feed|
      {
        ghost var before, rest := messages, feed;
        var item, expired := ReadOne();
        OnePollMore(old(feed), rest, feed, expired);
        if expired {
          return TimedOut;
        }
        if item.Some? {
          if start <= |before| {
            LogGrows(before, item.value, start, wanted);
          }
          if wanted(item.value) {
            return Found(item.value);
          }
        }
      }
    }

    /** The sending half of `request`: every request of the connection gets a larger id. */
    method Send(name: string) returns (id: int)
      requires Valid()
      modifies this`nextId, this`sent
      ensures Valid()
      ensures id == old(nextId) && nextId == old(nextId) + 1
      ensures sent == old(sent) + [SentRequest(id, name)]
      ensures forall i :: 0 <= i < |old(sent)| && old(sent)[i].SentRequest? ==> old(sent)[i].id < id
    {
      id := nextId;
      nextId := nextId + 1;
      sent := sent + [SentRequest(id, name)];
    }

    /** The waiting half: everything read is logged, and the first message with the id ends the wait. */
    method Await(id: int) returns (r: Outcome)
      requires Valid()
      modifies this`feed, this`messages, this`sent
      ensures Valid() && old(messages) <= messages && |feed| <= |old(feed)| && old(sent) <= sent
      ensures var k := FirstMatch(messages, |old(messages)|, HasId(id));
        && (r.Found? <==> k < |messages|)
        && (r.Found? ==> k == |messages| - 1 && r.message == messages[k])
      ensures ReadOn(old(feed), |old(feed)| - |feed|, feed, r.TimedOut?)
    {
      hide FirstMatch, Arriving, ReadOn;
      NothingReadOn(feed);
      NoMatchPastTheEnd(messages, HasId(id));
      while true
        invariant Valid() && old(messages) <= messages && old(sent) <= sent
        invariant |feed| <= |old(feed)| && ReadOn(old(feed), |old(feed)| - |feed|, feed, false)
        invariant FirstMatch(messages, |old(messages)|, HasId(id)) == |messages|
        decreases |feed|
      {
        ghost var before, rest := messages, feed;
        var item, expired := ReadOne();
        OnePollMore(old(feed), rest, feed, expired);
        if expired {
          return TimedOut;
        }
        if item.Some? {
          LogGrows(before, item.value, |old(messages)|, HasId(id));
          if item.value.id == Some(id) {
            return Found(item.value);
          }
        }
      }
    }

    /** `request`: the result is the first message read since the request was sent that carries its fresh id. */
    method Request(name: string) returns (r: Outcome, id: int)
      requires Valid()
      modifies this
      ensures Valid() && old(messages) <= messages && |feed| <= |old(feed)|
      ensures id == old(nextId) && nextId == old(nextId) + 1
      ensures old(sent) + [SentRequest(id, name)] <= sent
      ensures forall i :: 0 <= i < |old(sent)| && old(sent)[i].SentRequest? ==> old(sent)[i].id < id
      ensures var k := FirstMatch(messages, |old(messages)|, HasId(id));
        && (r.Found? <==> k < |messages|)
        && (r.Found? ==> k == |messages| - 1 && r.message == messages[k])
      ensures ReadOn(old(feed), |old(feed)| - |feed|, feed, r.TimedOut?)
      // It is the response to this request, if the other side never uses the id for a request of its own.
      ensures r.Found? && Apart(stream, {id}) ==> r.message.call.None? && r.message.id == Some(id)
    {
      ghost var start := |messages|;
      id := Send(name);
      r := Await(id);
      if r.Found? && Apart(stream, {id}) {
        assert messages == stream[..|messages|];
        ApartPrefix(stream, |messages|, {id});
        DisjointIdsSuffice(messages, start, id, {id});
      }
    }

    /** `wait_turn_completed`: a short wait, one poll whose failure is ignored, and a second wait. */
    method WaitTurnCompleted(turn: string) returns (r: Outcome)
      requires Valid()
      modifies this
      ensures Valid() && old(messages) <= messages
      // The completion is found wherever it was read, by either wait or while the poll waited for its response.
      ensures var k := FirstMatch(messages, 0, CompletedTurn(turn));
        && (r.Found? <==> k < |messages|)
        && (r.Found? ==> r.message == messages[k])
      // It is given up only when a wait, the second one, meets its deadline or the end.
      ensures r.TimedOut? ==> feed == [] || (|feed| < |old(feed)| && old(feed)[|old(feed)| - |feed| - 1].Deadline?)
    {
      hide ReadOn, Arriving, FirstMatch;
      ghost var start := feed;
      r := WaitFor(CompletedTurn(turn), 0);
      if r.TimedOut? {
        ghost var first := feed;
        var polled, _ := Request("thread/read");
        ghost var second := feed;
        r := WaitFor(CompletedTurn(turn), 0);
        if r.TimedOut? {
          GaveUpLast(start, first, true, second, polled.TimedOut?, feed);
        }
      }
    }
  }

  function HasId(id: int): Message -> bool {
    (m: Message) => m.id == Some(id)
  }

  function CompletedTurn(turn: string): Message -> bool {
    (m: Message) => m.TurnCompletedFor(turn)
  }

  lemma NoMatchPastTheEnd(log: seq<Message>, wanted: Message -> bool)
    ensures FirstMatch(log, |log|, wanted) == |log|
  {
  }

  lemma {:induction false} LogGrows(log: seq<Message>, item: Message, start: nat, wanted: Message -> bool)
    requires start <= |log|
    ensures FirstMatch(log + [item], start, wanted) ==
      if FirstMatch(log, start, wanted) < |log| then FirstMatch(log, start, wanted)
      else if wanted(item) then |log|
      else |log| + 1
    decreases |log| - start
  {
    if start < |log| && !wanted(log[start]) {
      LogGrows(log, item, start + 1, wanted);
    }
  }

  /** No server request of the log carries one of the ids. */
  ghost predicate Apart(log: seq<Message>, ids: set<int>) {
    forall i :: 0 <= i < |log| && log[i].ServerRequest() ==> log[i].id.value !in ids
  }

  lemma ApartPrefix(log: seq<Message>, n: nat, ids: set<int>)
    requires n <= |log| && Apart(log, ids)
    ensures Apart(log[..n], ids)
  {
  }

  /** A response carries its request's id (section 5 of JSON-RPC 2.0); server ids kept apart make that enough. */
  lemma DisjointIdsSuffice(log: seq<Message>, start: nat, id: int, ids: set<int>)
    requires start <= |log| && FirstMatch(log, start, HasId(id)) < |log|
    requires Apart(log, ids) && id in ids
    ensures log[FirstMatch(log, start, HasId(id))].call.None?
  {
    var k := FirstMatch(log, start, HasId(id));
    assert HasId(id)(log[k]);
  }

  /** The id a request waits for is answered by a response, in this log. */
  ghost predicate Answered(log: seq<Message>, start: nat, id: int) {
    start <= |log| && FirstMatch(log, start, HasId(id)) < |log| ==> log[FirstMatch(log, start, HasId(id))].call.None?
  }

  /** The server's requests use ids of `serverIds` only. */
  ghost predicate Within(log: seq<Message>, serverIds: set<int>) {
    forall i :: 0 <= i < |log| && log[i].ServerRequest() ==> log[i].id.value in serverIds
  }

  /** A server request with the id, read first, is taken for the response, which follows. */
  lemma ServerRequestIsTakenForTheResponse(id: int, name: string)
    ensures var log := [Message(Some(id), Some(name), ""), Message(Some(id), None, "")];
      && Within(log, {id}) && FirstMatch(log, 0, HasId(id)) == 0
      && log[0].ServerRequest() && log[1].call.None? && HasId(id)(log[1]) && !Answered(log, 0, id)
  {
    var log := [Message(Some(id), Some(name), ""), Message(Some(id), None, "")];
    assert HasId(id)(log[0]);
  }

  /** Whatever is read, a request gets a response, if and only if the server may not use its id. */
  lemma ResponsesExactlyWhenApart(id: int, serverIds: set<int>)
    ensures (forall log, start :: Within(log, serverIds) ==> Answered(log, start, id)) <==> id !in serverIds
  {
    if id in serverIds {
      ServerRequestIsTakenForTheResponse(id, "");
      assert Within([Message(Some(id), Some(""), ""), Message(Some(id), None, "")], serverIds);
    } else {
      forall log, start: nat | Within(log, serverIds) ensures Answered(log, start, id) {
        if start <= |log| && FirstMatch(log, start, HasId(id)) < |log| {
          var k := FirstMatch(log, start, HasId(id));
          assert HasId(id)(log[k]);
        }
      }
    }
  }
}
