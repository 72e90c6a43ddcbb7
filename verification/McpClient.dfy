/** Request and response matching over one standard output stream: MCPClient of scripts/mcp-readonly-adapter.py,
    following section 5 of the JSON-RPC 2.0 Specification. Request ids count up from 1; replies wait in one queue; the
    lock admits one request at a time. */
module McpClient {
  import opened Prelude

  /** The id of a message. Python's == lets True answer request 1 and 2.0 answer request 2. */
  datatype Tag = IntTag(n: int) | BoolTag(b: bool) | FloatTag(x: real) | OtherTag

  predicate Matches(tag: Tag, id: int) {
    match tag
    case IntTag(n) => n == id
    case BoolTag(b) => (if b then 1 else 0) == id
    case FloatTag(x) => x == id as real
    case OtherTag => false
  }

  datatype Message = Message(tag: Tag, hasError: bool, result: string)

  /** A line of the server's output; only a JSON object with an id enters the queue. */
  datatype Line = Noise | Object(message: Message)

  datatype Ending = Returned(at: nat) | ServerError(at: nat) | TimedOut | Unwritten

  /** A finished request: the messages it took from the queue are those from first up to last, counted in order of
      arrival; began is how many had arrived when it started. */
  datatype Outcome = Outcome(id: nat, first: nat, last: nat, began: nat, ending: Ending)

  datatype Wait = Idle | Waiting(id: nat, first: nat, began: nat)

  datatype State = State(nextId: nat, arrived: seq<Message>, taken: nat, wait: Wait, log: seq<Outcome>)

  const START := State(1, [], 0, Idle, [])

  datatype Event = Reads(line: Line) | Begins(writable: bool) | Gets | Expires

  function Closed(st: State, w: Wait, ending: Ending): State
    requires w.Waiting?
  {
    st.(wait := Idle, log := st.log + [Outcome(w.id, w.first, st.taken, w.began, ending)])
  }

  function Step(st: State, e: Event): State {
    match e
    case Reads(line) => if line.Object? then st.(arrived := st.arrived + [line.message]) else st
    case Begins(writable) =>
      if st.wait.Waiting? then st
      else
        var begun := st.(nextId := st.nextId + 1, wait := Waiting(st.nextId, st.taken, |st.arrived|));
        if writable then begun else Closed(begun, begun.wait, Unwritten)
    case Gets =>
      if st.wait.Idle? || st.taken >= |st.arrived| then st
      else
        var at, m := st.taken, st.arrived[st.taken];
        var popped := st.(taken := at + 1);
        if !Matches(m.tag, st.wait.id) then popped
        else Closed(popped, st.wait, if m.hasError then ServerError(at) else Returned(at))
    case Expires => if st.wait.Waiting? then Closed(st, st.wait, TimedOut) else st
  }

  function Run(st: State, events: seq<Event>): State {
    if events == [] then st else Step(Run(st, events[..|events| - 1]), events[|events| - 1])
  }

  lemma RunThen(st: State, events: seq<Event>, e: Event)
    ensures Run(st, events + [e]) == Step(Run(st, events), e)
  {
    assert (events + [e])[..|events|] == events;
  }

  // ---------------------------------------------------------------- the client object

  /** What request returns or raises. */
  datatype Reply = Value(result: string) | ProtocolError | Timeout | WriteError

  ghost predicate Reports(reply: Reply, o: Outcome, arrived: seq<Message>) {
    match o.ending
    case Returned(at) => at < |arrived| && reply == Value(arrived[at].result)
    case ServerError(_) => reply == ProtocolError
    case TimedOut => reply == Timeout
    case Unwritten => reply == WriteError
  }

  class MCPClient {
    var nextId: nat
    var responses: seq<Message>
    ghost var arrived: seq<Message>
    ghost var wait: Wait
    ghost var log: seq<Outcome>

    ghost predicate Valid()
      reads this
    {
      |responses| <= |arrived| && responses == arrived[|arrived| - |responses|..]
    }

    ghost function View(): State
      reads this
      requires Valid()
    {
      State(nextId, arrived, |arrived| - |responses|, wait, log)
    }

    constructor ()
      ensures Valid() && View() == START
    {
      nextId, responses, arrived, wait, log := 1, [], [], Idle, [];
    }

    /** One round of the reader thread. */
    method ReadLine(line: Line)
      requires Valid()
      modifies this
      ensures Valid() && View() == Step(old(View()), Reads(line)) && wait == old(wait)
    {
      match line {
        case Noise =>
        case Object(message) =>
          responses := responses + [message];
          arrived := arrived + [message];
      }
    }

    /** One pass of the waiting loop over a queue that may be empty. */
    method TakeOne(requestId: nat) returns (reply: Option<Reply>)
      requires Valid() && wait.Waiting? && wait.id == requestId
      modifies this
      ensures Valid() && View() == Step(old(View()), Gets) && nextId == old(nextId)
      ensures if reply.None? then wait == old(wait) else wait.Idle?
      ensures reply.Some? ==>
                log != [] && log[|log| - 1].id == requestId && Reports(reply.value, log[|log| - 1], arrived)
    {
      if responses == [] {
        return None;
      }
      var message := responses[0];
      ghost var at := |arrived| - |responses|;
      assert message == arrived[at];
      responses := responses[1..];
      if !Matches(message.tag, requestId) {
        return None;
      }
      log := log + [Outcome(requestId, wait.first, at + 1, wait.began, if message.hasError then ServerError(at)
                                                                       else Returned(at))];
      wait := Idle;
      return Some(if message.hasError then ProtocolError else Value(message.result));
    }

    method GiveUp()
      requires Valid() && wait.Waiting?
      modifies this
      ensures Valid() && View() == Step(old(View()), Expires) && wait.Idle? && nextId == old(nextId)
      ensures log != [] && log[|log| - 1].id == old(wait.id) && log[|log| - 1].ending == TimedOut
    {
      log := log + [Outcome(wait.id, wait.first, |arrived| - |responses|, wait.began, TimedOut)];
      wait := Idle;
    }

    method Begin(writable: bool) returns (requestId: nat)
      requires Valid() && wait.Idle?
      modifies this
      ensures Valid() && View() == Step(old(View()), Begins(writable)) && requestId == old(nextId)
      ensures if writable then wait.Waiting? && wait.id == requestId
              else wait.Idle? && log != [] && log[|log| - 1].id == requestId && log[|log| - 1].ending == Unwritten
    {
      requestId := nextId;
      nextId := nextId + 1;
      if writable {
        wait := Waiting(requestId, |arrived| - |responses|, |arrived|);
      } else {
        log := log + [Outcome(requestId, |arrived| - |responses|, |arrived| - |responses|, |arrived|, Unwritten)];
      }
    }

    /** One request; moments are what happens around it until it ends, and time always runs out. */
    method Request(writable: bool, moments: seq<Event>) returns (reply: Reply, used: nat)
      requires Valid() && wait.Idle?
      requires forall e :: e in moments ==> !e.Begins?
      modifies this
      ensures Valid() && wait.Idle? && used <= |moments|
      ensures View() == Run(old(View()), [Begins(writable)] + moments[..used])
              || (used == |moments| && View() == Run(old(View()), [Begins(writable)] + moments + [Expires]))
      ensures log != [] && log[|log| - 1].id == old(nextId) && Reports(reply, log[|log| - 1], arrived)
    {
      ghost var start := View();
      RunThen(start, [], Begins(writable));
      assert [] + [Begins(writable)] == [Begins(writable)] + moments[..0];
      assert Run(start, []) == start;
      var requestId := Begin(writable);
      used := 0;
      if !writable {
        return WriteError, 0;
      }
      hide Run, Step;
      while used < |moments|
        invariant used <= |moments| && Valid() && wait.Waiting? && wait.id == requestId
        invariant View() == Run(start, [Begins(writable)] + moments[..used])
      {
        ghost var before := [Begins(writable)] + moments[..used];
        RunThen(start, before, moments[used]);
        assert [Begins(writable)] + moments[..used + 1] == before + [moments[used]];
        used := used + 1;
        match moments[used - 1] {
          case Reads(line) => ReadLine(line);
          case Gets =>
            var taken := TakeOne(requestId);
            if taken.Some? {
              return taken.value, used;
            }
          case Expires =>
            GiveUp();
            return Timeout, used;
        }
      }
      assert moments[..used] == moments;
      RunThen(start, [Begins(writable)] + moments, Expires);
      GiveUp();
      return Timeout, used;
    }
  }

  // ---------------------------------------------------------------- the queue and the endings

  /** The messages that the reader finds in these moments, error replies included. */
  function Found(events: seq<Event>): seq<Message> {
    if events == [] then []
    else
      (if events[0].Reads? && events[0].line.Object? then [events[0].line.message] else []) + Found(events[1..])
  }

  lemma {:induction false} FoundSnoc(events: seq<Event>, e: Event)
    ensures Found(events + [e]) == Found(events) + Found([e])
  {
    if events == [] {
      assert events + [e] == [e];
    } else {
      assert (events + [e])[1..] == events[1..] + [e];
      FoundSnoc(events[1..], e);
    }
  }

  /** Every object line of the stream, and nothing else, arrives in the queue, in order. */
  lemma {:induction false} ArrivedIsFound(events: seq<Event>)
    ensures Run(START, events).arrived == Found(events)
  {
    if events != [] {
      var front, last := events[..|events| - 1], events[|events| - 1];
      assert events == front + [last] && [last][1..] == [];
      ArrivedIsFound(front);
      FoundSnoc(front, last);
      assert Found(front) + [] == Found(front);
      hide Run;
      RunThen(START, front, last);
    }
  }

  /** A request that is still waiting took no message that answers it: it ends with the first one it takes. */
  lemma WaitingIsUnanswered(events: seq<Event>)
    requires Run(START, events).wait.Waiting?
    ensures var st := Run(START, events);
            && st.wait.id == |st.log| + 1 && st.wait.first == End(st.log) && st.wait.first <= st.taken <= |st.arrived|
            && forall p :: st.wait.first <= p < st.taken ==> !Matches(st.arrived[p].tag, st.wait.id)
  {
    RunKeepsInv(events);
    hide Run;
  }

  /** Which ending a moment brings to the waiting request: an answer with the message taken, a timeout when time runs
      out, a write error when the request cannot be written; every other moment ends none. */
  lemma EndsExactly(events: seq<Event>, e: Event)
    ensures var st, after := Run(START, events), Run(START, events + [e]);
            var answers := e.Gets? && st.wait.Waiting? && st.taken < |st.arrived|
                           && Matches(st.arrived[st.taken].tag, st.wait.id);
            var expires := e.Expires? && st.wait.Waiting?;
            var unwritten := e == Begins(false) && st.wait.Idle?;
            if answers || expires || unwritten then
              && |after.log| == |st.log| + 1 && after.log[..|st.log|] == st.log && after.wait.Idle?
              && after.log[|st.log|].ending
                 == if expires then TimedOut
                    else if unwritten then Unwritten
                    else if st.arrived[st.taken].hasError then ServerError(st.taken)
                    else Returned(st.taken)
            else after.log == st.log
  {
    RunThen(START, events, e);
    hide Run, Matches;
  }

  // ---------------------------------------------------------------- what holds in every run

  predicate Answered(o: Outcome) { o.ending.Returned? || o.ending.ServerError? }

  function ReplyAt(o: Outcome): nat
    requires Answered(o)
  {
    o.ending.at
  }

  /** A finished request discarded every message it took, except that an answered one kept the last. */
  ghost predicate OutcomeOk(arrived: seq<Message>, o: Outcome) {
    && o.first <= o.last <= |arrived| && o.began <= |arrived|
    && (Answered(o) ==> ReplyAt(o) + 1 == o.last && o.first <= ReplyAt(o) && Matches(arrived[ReplyAt(o)].tag, o.id)
                        && (o.ending.ServerError? <==> arrived[ReplyAt(o)].hasError))
    && (forall p :: o.first <= p < (if Answered(o) then ReplyAt(o) else o.last) ==> !Matches(arrived[p].tag, o.id))
  }

  /** Where the last finished request stopped taking messages. */
  function End(log: seq<Outcome>): nat { if log == [] then 0 else log[|log| - 1].last }

  /** Each request starts taking where the one before stopped. */
  predicate Chained(log: seq<Outcome>) {
    log == [] || (Chained(log[..|log| - 1]) && log[|log| - 1].first == End(log[..|log| - 1]))
  }

  ghost predicate Inv(st: State) {
    && st.taken <= |st.arrived|
    && st.nextId == |st.log| + 1 + (if st.wait.Waiting? then 1 else 0)
    && (forall i :: 0 <= i < |st.log| ==> st.log[i].id == i + 1 && OutcomeOk(st.arrived, st.log[i]))
    && Chained(st.log)
    && match st.wait
       case Idle => st.taken == End(st.log)
       case Waiting(id, first, began) =>
         && id == |st.log| + 1 && first == End(st.log) && first <= st.taken && began <= |st.arrived|
         && forall p :: first <= p < st.taken ==> !Matches(st.arrived[p].tag, id)
  }

  lemma ChainGrows(log: seq<Outcome>, o: Outcome)
    requires Chained(log) && o.first == End(log)
    ensures Chained(log + [o]) && End(log + [o]) == o.last
  {
    assert (log + [o])[..|log|] == log;
  }

  lemma OutcomeStays(a: seq<Message>, m: Message, o: Outcome)
    requires OutcomeOk(a, o)
    ensures OutcomeOk(a + [m], o)
  {
  }

  /** Ending the wait, with the outcome that fits what was taken. */
  lemma ClosedKeepsInv(st: State, ending: Ending)
    requires st.wait.Waiting? && st.taken <= |st.arrived| && st.nextId == |st.log| + 2
    requires forall i :: 0 <= i < |st.log| ==> st.log[i].id == i + 1 && OutcomeOk(st.arrived, st.log[i])
    requires Chained(st.log) && st.wait.id == |st.log| + 1 && st.wait.first == End(st.log)
    requires OutcomeOk(st.arrived, Outcome(st.wait.id, st.wait.first, st.taken, st.wait.began, ending))
    ensures Inv(Closed(st, st.wait, ending))
  {
    ChainGrows(st.log, Outcome(st.wait.id, st.wait.first, st.taken, st.wait.began, ending));
    hide OutcomeOk, Chained;
  }

  lemma GetsKeepsInv(st: State)
    requires Inv(st)
    ensures Inv(Step(st, Gets))
  {
    if st.wait.Waiting? && st.taken < |st.arrived| {
      var at, m := st.taken, st.arrived[st.taken];
      if Matches(m.tag, st.wait.id) {
        var popped := st.(taken := at + 1);
        ClosedKeepsInv(popped, if m.hasError then ServerError(at) else Returned(at));
      } else {
        hide OutcomeOk, Chained;
      }
    }
  }

  lemma StepKeepsInv(st: State, e: Event)
    requires Inv(st)
    ensures Inv(Step(st, e))
  {
    match e
    case Gets => GetsKeepsInv(st);
    case Expires =>
      if st.wait.Waiting? {
        ClosedKeepsInv(st, TimedOut);
      }
    case Begins(writable) =>
      if st.wait.Idle? {
        var begun := st.(nextId := st.nextId + 1, wait := Waiting(st.nextId, st.taken, |st.arrived|));
        if !writable {
          ClosedKeepsInv(begun, Unwritten);
        }
      }
    case Reads(line) =>
      if line.Object? {
        forall i | 0 <= i < |st.log|
          ensures OutcomeOk(st.arrived + [line.message], st.log[i])
        {
          OutcomeStays(st.arrived, line.message, st.log[i]);
        }
        hide OutcomeOk;
      }
  }

  lemma {:induction false} RunKeepsInv(events: seq<Event>)
    ensures Inv(Run(START, events))
  {
    if events != [] {
      RunKeepsInv(events[..|events| - 1]);
      StepKeepsInv(Run(START, events[..|events| - 1]), events[|events| - 1]);
    }
  }

  lemma {:induction false} LogIsOrdered(arrived: seq<Message>, log: seq<Outcome>, i: nat)
    requires Chained(log) && i < |log|
    requires forall k :: 0 <= k < |log| ==> OutcomeOk(arrived, log[k])
    ensures log[i].first == End(log[..i])
    ensures log[i].last <= End(log)
    ensures forall j :: i < j < |log| ==> log[i].last <= log[j].first
  {
    var n := |log| - 1;
    if i < n {
      LogIsOrdered(arrived, log[..n], i);
      assert log[..n][..i] == log[..i];
      assert OutcomeOk(arrived, log[n]);
      assert forall j :: i < j < n ==> log[..n][j] == log[j];
    }
  }

  /** Under every interleaving of replies, timeouts and failed writes: request k is the k-th to begin, what it returns
      is the first message matching k among those it took, and the messages that finished requests took follow one
      another without overlap or gap, so no reply is shared and none is skipped. */
  lemma RepliesMatch(events: seq<Event>, k: nat)
    requires k < |Run(START, events).log|
    ensures var st := Run(START, events);
            var o := st.log[k];
            && o.id == k + 1
            && o.first == End(st.log[..k])
            && o.first <= o.last <= st.taken <= |st.arrived|
            && (Answered(o) ==> o.first <= ReplyAt(o) == o.last - 1 && Matches(st.arrived[ReplyAt(o)].tag, o.id)
                                && (o.ending.ServerError? <==> st.arrived[ReplyAt(o)].hasError))
            && (forall p :: o.first <= p < o.last && !(Answered(o) && p == ReplyAt(o)) ==>
                !Matches(st.arrived[p].tag, o.id))
  {
    RunKeepsInv(events);
    var st := Run(START, events);
    hide Run;
    assert OutcomeOk(st.arrived, st.log[k]);
    LogIsOrdered(st.arrived, st.log, k);
    assert st.taken >= End(st.log);
  }

  /** Later requests have larger ids and later replies. */
  lemma NoSharedReply(events: seq<Event>, i: nat, j: nat)
    requires i < j < |Run(START, events).log|
    ensures var log := Run(START, events).log;
            && log[i].id < log[j].id
            && (Answered(log[i]) && Answered(log[j]) ==> ReplyAt(log[i]) < ReplyAt(log[j]))
  {
    RunKeepsInv(events);
    var st := Run(START, events);
    hide Run;
    LogIsOrdered(st.arrived, st.log, i);
    assert OutcomeOk(st.arrived, st.log[i]) && OutcomeOk(st.arrived, st.log[j]);
  }

  /** The tag is below the id, or is no number at all. */
  predicate Below(tag: Tag, id: int) {
    match tag
    case IntTag(n) => n < id
    case BoolTag(b) => (if b then 1 else 0) < id
    case FloatTag(x) => x < id as real
    case OtherTag => true
  }

  /** A late, duplicated or reordered reply to an earlier request is never the answer to a later one. */
  lemma StaleIsDiscarded(events: seq<Event>, k: nat, p: nat)
    requires var st := Run(START, events);
             k < |st.log| && p < |st.arrived| && Below(st.arrived[p].tag, k + 1)
    ensures var st := Run(START, events);
            forall j :: k <= j < |st.log| && Answered(st.log[j]) ==> ReplyAt(st.log[j]) != p
  {
    var st := Run(START, events);
    forall j | k <= j < |st.log| && Answered(st.log[j])
      ensures ReplyAt(st.log[j]) != p
    {
      RepliesMatch(events, j);
    }
  }

  /** Only these tags answer request id: its number, that number as a float, and for the first request also true. */
  lemma TagsThatAnswer(tag: Tag, id: int)
    requires id >= 1
    ensures Matches(tag, id) <==> tag == IntTag(id) || tag == FloatTag(id as real) || (tag == BoolTag(true) && id == 1)
  {
  }

  lemma AnswersCarryTheirId(events: seq<Event>, k: nat)
    requires k < |Run(START, events).log| && Answered(Run(START, events).log[k])
    ensures var st := Run(START, events);
            && ReplyAt(st.log[k]) < |st.arrived|
            && var tag := st.arrived[ReplyAt(st.log[k])].tag;
               tag == IntTag(k + 1) || tag == FloatTag((k + 1) as real) || (tag == BoolTag(true) && k == 0)
  {
    RepliesMatch(events, k);
    var st := Run(START, events);
    TagsThatAnswer(st.arrived[ReplyAt(st.log[k])].tag, k + 1);
  }

  // ---------------------------------------------------------------- answers and questions

  /** No message left in the queue when the request began could answer it. */
  ghost predicate QueueIsInnocent(arrived: seq<Message>, o: Outcome)
    requires o.began <= |arrived|
  {
    forall p :: o.first <= p < o.began ==> !Matches(arrived[p].tag, o.id)
  }

  /** The answer to a request arrived after the request began exactly when no message in the queue at that moment
      matched it. */
  lemma AnswerIsTimelyIff(events: seq<Event>, k: nat)
    requires k < |Run(START, events).log| && Answered(Run(START, events).log[k])
    ensures var st := Run(START, events);
            var o := st.log[k];
            o.began <= |st.arrived| && (ReplyAt(o) >= o.began <==> QueueIsInnocent(st.arrived, o))
  {
    RunKeepsInv(events);
    RepliesMatch(events, k);
    assert OutcomeOk(Run(START, events).arrived, Run(START, events).log[k]);
  }

  /** Every tag read so far is below the id of the next request. */
  ghost predicate Honest(events: seq<Event>) {
    forall n :: 0 <= n < |events| && events[n].Reads? && events[n].line.Object? ==>
      Below(events[n].line.message.tag, Run(START, events[..n]).nextId)
  }

  ghost predicate InTime(st: State) {
    && (forall p :: 0 <= p < |st.arrived| ==> Below(st.arrived[p].tag, st.nextId))
    && (forall i, p :: 0 <= i < |st.log| && 0 <= p < st.log[i].began && p < |st.arrived| ==>
        Below(st.arrived[p].tag, st.log[i].id))
    && (st.wait.Waiting? ==> st.wait.id < st.nextId)
    && (st.wait.Waiting? ==> forall p :: 0 <= p < st.wait.began && p < |st.arrived| ==>
        Below(st.arrived[p].tag, st.wait.id))
  }

  lemma BelowGrows(tag: Tag, id: int)
    requires Below(tag, id)
    ensures Below(tag, id + 1)
  {
  }

  lemma StepKeepsInTime(st: State, e: Event)
    requires Inv(st) && InTime(st)
    requires e.Reads? && e.line.Object? ==> Below(e.line.message.tag, st.nextId)
    ensures InTime(Step(st, e))
  {
    var after := Step(st, e);
    forall p | 0 <= p < |st.arrived|
      ensures Below(st.arrived[p].tag, st.nextId + 1)
    {
      BelowGrows(st.arrived[p].tag, st.nextId);
    }
    assert forall i :: 0 <= i < |st.log| ==> OutcomeOk(st.arrived, st.log[i]);
    hide OutcomeOk, Matches, Below, Chained;
  }

  lemma {:induction false} HonestIsInTime(events: seq<Event>)
    requires Honest(events)
    ensures InTime(Run(START, events))
  {
    if events != [] {
      var front := events[..|events| - 1];
      assert forall n :: 0 <= n < |front| ==> front[n] == events[n] && front[..n] == events[..n];
      HonestIsInTime(front);
      RunKeepsInv(front);
      StepKeepsInTime(Run(START, front), events[|events| - 1]);
    }
  }

  /** A server that tags only what it was asked leaves every queue innocent, so every answer arrives after its request
      began. */
  lemma AnswersComeAfterQuestions(events: seq<Event>, k: nat)
    requires Honest(events) && k < |Run(START, events).log| && Answered(Run(START, events).log[k])
    ensures ReplyAt(Run(START, events).log[k]) >= Run(START, events).log[k].began
  {
    HonestIsInTime(events);
    RunKeepsInv(events);
    var st := Run(START, events);
    var o := st.log[k];
    assert OutcomeOk(st.arrived, o);
    forall p | o.first <= p < o.began
      ensures !Matches(st.arrived[p].tag, o.id)
    {
      assert Below(st.arrived[p].tag, o.id);
    }
    AnswerIsTimelyIff(events, k);
  }

  /** Without that promise it need not: a reply that was there before the first request answers it, even tagged true. */
  lemma PrematureReplyAnswers(m: Message)
    requires m.tag == BoolTag(true) && !m.hasError
    ensures var st := Run(START, [Reads(Object(m)), Begins(true), Gets]);
            st.log == [Outcome(1, 0, 1, 1, Returned(0))]
  {
    RunThen(START, [Reads(Object(m)), Begins(true)], Gets);
    RunThen(START, [Reads(Object(m))], Begins(true));
    RunThen(START, [], Reads(Object(m)));
    assert [] + [Reads(Object(m))] == [Reads(Object(m))];
    assert [Reads(Object(m))] + [Begins(true)] == [Reads(Object(m)), Begins(true)];
    assert [Reads(Object(m)), Begins(true)] + [Gets] == [Reads(Object(m)), Begins(true), Gets];
  }
}
