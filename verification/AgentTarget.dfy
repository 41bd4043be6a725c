// The agent target header of app/portainer/services/httpRequestHelper.js: a queue that goes on
// answering with the last value once it has been emptied.
module AgentTarget {
  import opened Collections

  // The values set since the last reset, and how many of them have been read.
  datatype History = History(values: seq<string>, read: nat)

  predicate Sane(h: History) {
    h.read <= |h.values|
  }

  function Set(h: History, value: string): History {
    if value == "" then h else h.(values := h.values + [value])
  }

  // The next unread value, or the last value again, or nothing.
  function Current(h: History): Option<string>
    requires Sane(h)
  {
    if h.read < |h.values| then Some(h.values[h.read])
    else if h.values != [] then Some(h.values[|h.values| - 1])
    else None
  }

  function Advance(h: History): History {
    if h.read < |h.values| then h.(read := h.read + 1) else h
  }

  datatype Call = SetHeader(value: string) | GetHeader | Reset

  // The answers a history gives to a run of calls.
  function Answers(h: History, calls: seq<Call>): seq<Option<string>>
    requires Sane(h)
    decreases |calls|
  {
    if calls == [] then []
    else
      match calls[0]
      case SetHeader(value) => Answers(Set(h, value), calls[1..])
      case GetHeader => [Current(h)] + Answers(Advance(h), calls[1..])
      case Reset => Answers(History([], 0), calls[1..])
  }

  class HttpRequestHelper {
    var agentTargetQueue: seq<string>
    var agentTargetLastValue: Option<string>
    ghost var history: History

    // The queue is the unread part; the last value is kept once everything has been read.
    ghost predicate Valid()
      reads this
    {
      && Sane(history)
      && agentTargetQueue == history.values[history.read..]
      && (history.values == [] ==> agentTargetLastValue == None)
      && (history.values != [] && history.read == |history.values| ==>
            agentTargetLastValue == Some(history.values[|history.values| - 1]))
      && forall i :: 0 <= i < |history.values| ==> history.values[i] != ""
    }

    constructor ()
      ensures Valid() && history == History([], 0)
    {
      agentTargetQueue, agentTargetLastValue := [], None;
      history := History([], 0);
    }

    method PortainerAgentTargetHeader() returns (header: Option<string>)
      requires Valid()
      modifies this
      ensures Valid()
      ensures header == Current(old(history)) && history == Advance(old(history))
    {
      if |agentTargetQueue| == 0 {
        return agentTargetLastValue;
      } else if |agentTargetQueue| == 1 {
        agentTargetLastValue := Some(agentTargetQueue[0]);
      }
      header := Some(agentTargetQueue[0]);
      agentTargetQueue := agentTargetQueue[1..];
      history := Advance(history);
    }

    // An empty header value is ignored.
    method SetPortainerAgentTargetHeader(headerValue: string)
      requires Valid()
      modifies this
      ensures Valid()
      ensures history == Set(old(history), headerValue)
    {
      if headerValue != "" {
        agentTargetQueue := agentTargetQueue + [headerValue];
        history := Set(history, headerValue);
      }
    }

    method ResetAgentTargetQueue()
      requires Valid()
      modifies this
      ensures Valid()
      ensures history == History([], 0)
    {
      agentTargetQueue := [];
      agentTargetLastValue := None;
      history := History([], 0);
    }

    method Handle(call: Call) returns (answer: seq<Option<string>>)
      requires Valid()
      modifies this
      ensures Valid() && history == Next(old(history), call) && answer == Answered(old(history), call)
    {
      answer := [];
      match call {
        case SetHeader(value) =>
          SetPortainerAgentTargetHeader(value);
        case GetHeader =>
          var header := PortainerAgentTargetHeader();
          answer := [header];
        case Reset =>
          ResetAgentTargetQueue();
      }
    }

    // Over any run of calls the queue answers as the history does.
    method Run(calls: seq<Call>) returns (answers: seq<Option<string>>)
      requires Valid()
      modifies this
      ensures Valid()
      ensures answers == Answers(old(history), calls)
    {
      answers := [];
      for i := 0 to |calls|
        invariant Valid()
        invariant Answers(old(history), calls) == answers + Answers(history, calls[i..])
      {
        NextCall(history, calls, i);
        ghost var rest := Answers(Next(history, calls[i]), calls[i + 1..]);
        var answer := Handle(calls[i]);
        assert answers + (answer + rest) == (answers + answer) + rest;
        answers := answers + answer;
      }
    }
  }

  function Sets(values: seq<string>): (calls: seq<Call>)
    ensures |calls| == |values|
    ensures forall i :: 0 <= i < |values| ==> calls[i] == SetHeader(values[i])
  {
    seq(|values|, i requires 0 <= i < |values| => SetHeader(values[i]))
  }

  // Setting values adds them after those there are, in their order.
  lemma {:induction false} SetsAppend(h: History, values: seq<string>, calls: seq<Call>)
    requires Sane(h) && forall i :: 0 <= i < |values| ==> values[i] != ""
    ensures Answers(h, Sets(values) + calls) == Answers(h.(values := h.values + values), calls)
    decreases |values|
  {
    if values == [] {
      assert Sets(values) + calls == calls && h.values + values == h.values;
    } else {
      var next := Set(h, values[0]);
      SetsAppend(next, values[1..], calls);
      assert (Sets(values) + calls)[0] == SetHeader(values[0]);
      assert (Sets(values) + calls)[1..] == Sets(values[1..]) + calls;
      assert next.values + values[1..] == h.values + values;
    }
  }

  // From an empty queue, values that are set are read in the order they were set, and the last
  // one is read again for ever.
  lemma FirstInFirstOut(values: seq<string>, n: nat, i: nat)
    requires values != [] && i < n && forall j :: 0 <= j < |values| ==> values[j] != ""
    ensures |Answers(History([], 0), Sets(values) + Reads(n))| == n
    ensures Answers(History([], 0), Sets(values) + Reads(n))[i] ==
            Some(values[if i < |values| then i else |values| - 1])
  {
    SetsAppend(History([], 0), values, Reads(n));
    assert [] + values == values;
    ReadsInOrder(History(values, 0), n, i);
  }

  // The state after a call, and its answer if it has one.
  function Next(h: History, call: Call): History
  {
    match call
    case SetHeader(value) => Set(h, value)
    case GetHeader => Advance(h)
    case Reset => History([], 0)
  }

  function Answered(h: History, call: Call): seq<Option<string>>
    requires Sane(h)
  {
    if call.GetHeader? then [Current(h)] else []
  }

  lemma NextCall(h: History, calls: seq<Call>, i: nat)
    requires Sane(h) && i < |calls|
    ensures Sane(Next(h, calls[i]))
    ensures Answers(h, calls[i..]) == Answered(h, calls[i]) + Answers(Next(h, calls[i]), calls[i + 1..])
  {
    assert calls[i..][0] == calls[i] && calls[i..][1..] == calls[i + 1..];
  }

  // n reads in a row.
  function Reads(n: nat): (calls: seq<Call>)
    ensures |calls| == n
  {
    if n == 0 then [] else [GetHeader] + Reads(n - 1)
  }

  // Reading on gives the unread values in the order they were set, then the last one for ever.
  lemma {:induction false} ReadsInOrder(h: History, n: nat, i: nat)
    requires Sane(h) && h.values != [] && i < n
    ensures |Answers(h, Reads(n))| == n
    ensures Answers(h, Reads(n))[i] ==
            Some(h.values[if h.read + i < |h.values| then h.read + i else |h.values| - 1])
    decreases n
  {
    assert Reads(n)[1..] == Reads(n - 1);
    if n == 1 {
      assert Answers(Advance(h), []) == [];
    } else {
      ReadsInOrder(Advance(h), n - 1, if i == 0 then 0 else i - 1);
    }
  }
}
