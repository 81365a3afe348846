/** The dashboard's in-memory event log: an append-only list of JSON objects, each stamped
    with its position (`index`) and arrival time, read back from a cursor and cleared as a
    whole. The log is a value; every operation returns the new log. */
module EventLog {
  import Json

  const IndexKey := "index"
  const TimeKey := "time"

  /** One stored event: the request body as received, plus the two fields the handler
      writes into it. */
  datatype Event = Event(index: int, time: real, payload: map<string, Json.Value>)

  type Log = seq<Event>

  /** The dict the source actually stores: the request body with `index` and `time`
      assigned over it, so a body's own `index` or `time` fields are overwritten. */
  function AsObject(e: Event): map<string, Json.Value> {
    e.payload[IndexKey := Json.Num(e.index as real)][TimeKey := Json.Num(e.time)]
  }

  /** The log's index invariant, generalised to a log whose first index is `first`. */
  ghost predicate IndexedFrom(log: Log, first: int) {
    forall i :: 0 <= i < |log| ==> log[i].index == first + i
  }

  /** Indices are exactly 0, 1, ..., |log|-1, in order. */
  ghost predicate Contiguous(log: Log) {
    IndexedFrom(log, 0)
  }

  /** Adding an event: it takes the current length as its index and `now` as its time,
      and goes at the end; the events already stored are untouched. */
  function Append(log: Log, payload: map<string, Json.Value>, now: real): (log': Log)
    ensures |log'| == |log| + 1
    ensures log'[..|log|] == log
    ensures log'[|log|].index == |log| && log'[|log|].time == now
    ensures log'[|log|].payload == payload
    ensures Contiguous(log) ==> Contiguous(log')
  {
    log + [Event(|log|, now, payload)]
  }

  /** Deleting the events: the log becomes empty. */
  function Clear(log: Log): (log': Log)
    ensures |log'| == 0
  {
    []
  }

  /** A cursor query: the stored events whose index is at least `start`, in stored order. */
  function Query(log: Log, start: int): (r: Log)
    ensures |r| <= |log|
    ensures forall e :: e in r <==> e in log && e.index >= start
  {
    if |log| == 0 then []
    else if log[0].index >= start then [log[0]] + Query(log[1..], start)
    else Query(log[1..], start)
  }

  /** A query keeps the stored order: querying a log made of two parts is querying each
      part and putting the answers side by side. */
  lemma {:induction false} QueryConcat(a: Log, b: Log, start: int)
    ensures Query(a + b, start) == Query(a, start) + Query(b, start)
    decreases |a|
  {
    if |a| == 0 {
      assert a + b == b;
    } else {
      assert (a + b)[1..] == a[1..] + b;
      QueryConcat(a[1..], b, start);
    }
  }

  /** On a log indexed from `first`, a query is a suffix of the log: everything when the
      cursor is at or below `first`, nothing when it is past the last index, and otherwise
      the events from position `start - first` on. */
  lemma {:induction false} QueryIndexedSuffix(log: Log, first: int, start: int)
    requires IndexedFrom(log, first)
    ensures start <= first ==> Query(log, start) == log
    ensures start >= first + |log| ==> Query(log, start) == []
    ensures first < start < first + |log| ==> Query(log, start) == log[start - first..]
    decreases |log|
  {
    if |log| > 0 {
      assert IndexedFrom(log[1..], first + 1);
      QueryIndexedSuffix(log[1..], first + 1, start);
      if first < start < first + |log| && start != first + 1 {
        assert log[1..][start - (first + 1)..] == log[start - first..];
      }
    }
  }

  /** The cursor behaviour on a well-formed log: `start` between 0 and the length returns
      exactly the events from position `start` on; a cursor past the last index returns
      nothing; a cursor at or below 0 returns the whole log. */
  lemma QueryIsSuffix(log: Log, start: int)
    requires Contiguous(log)
    ensures 0 <= start <= |log| ==> Query(log, start) == log[start..]
    ensures start >= |log| ==> Query(log, start) == []
    ensures start <= 0 ==> Query(log, start) == log
  {
    QueryIndexedSuffix(log, 0, start);
  }

  /** After clearing, the next event added gets index 0 again. */
  lemma ClearThenAppend(log: Log, payload: map<string, Json.Value>, now: real)
    ensures Append(Clear(log), payload, now) == [Event(0, now, payload)]
  {
  }

  /** The operations a client can perform on the log. */
  datatype Op = Add(payload: map<string, Json.Value>, now: real) | Get(start: int) | Delete

  /** The log after a run of operations; queries leave it as it is. */
  function Run(log: Log, ops: seq<Op>): Log
    decreases |ops|
  {
    if |ops| == 0 then log
    else
      var next := match ops[0]
        case Add(p, t) => Append(log, p, t)
        case Get(_) => log
        case Delete => Clear(log);
      Run(next, ops[1..])
  }

  /** The number of `Add` operations in a run. */
  function Adds(ops: seq<Op>): nat
    decreases |ops|
  {
    if |ops| == 0 then 0 else (if ops[0].Add? then 1 else 0) + Adds(ops[1..])
  }

  /** Any run of operations keeps the indices contiguous, so no two events ever share
      an index and none is skipped. */
  lemma {:induction false} RunKeepsContiguous(log: Log, ops: seq<Op>)
    requires Contiguous(log)
    ensures Contiguous(Run(log, ops))
    decreases |ops|
  {
    if |ops| > 0 {
      var next := match ops[0]
        case Add(p, t) => Append(log, p, t)
        case Get(_) => log
        case Delete => Clear(log);
      assert Contiguous(next);
      RunKeepsContiguous(next, ops[1..]);
    }
  }

  /** A run without `Delete` only adds: the old events stay in front, one new event per
      `Add` follows, and the indices carry on from the old length. */
  lemma {:induction false} RunWithoutDeleteExtends(log: Log, ops: seq<Op>)
    requires forall i :: 0 <= i < |ops| ==> !ops[i].Delete?
    ensures |Run(log, ops)| == |log| + Adds(ops)
    ensures Run(log, ops)[..|log|] == log
    ensures IndexedFrom(Run(log, ops)[|log|..], |log|)
    decreases |ops|
  {
    if |ops| > 0 {
      var next := match ops[0]
        case Add(p, t) => Append(log, p, t)
        case Get(_) => log
        case Delete => Clear(log);
      RunWithoutDeleteExtends(next, ops[1..]);
      var r := Run(next, ops[1..]);
      assert r == Run(log, ops);
      assert r[..|next|][..|log|] == r[..|log|];
      forall i | 0 <= i < |r| - |log|
        ensures r[|log|..][i].index == |log| + i
      {
        if ops[0].Add? && i == 0 {
          assert r[|log|] == r[..|next|][|log|] == next[|log|];
        } else if ops[0].Add? {
          assert r[|log|..][i] == r[|next|..][i - 1];
        }
      }
    }
  }
}
