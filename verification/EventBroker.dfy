/** The in-process event broker (backend/src/postmortem_backend/events.py:29-83) as the atomic
    steps its lock and its queues leave. Events of one incident are numbered in the order in
    which they were appended; publishers put into queues outside the lock, one at a time, in
    any interleaving with each other, with subscribers and with consumers. */
module EventBroker {
  import opened Contracts
  import Sorting

  /** A stream: the history it replays first, its queue, and what became of its events. */
  datatype Stream = Stream(
    openedAt: nat, closedAt: Option<nat>, replay: seq<nat>, replayed: nat,
    queue: seq<nat>, delivered: seq<nat>, dropped: seq<nat>)
  {
    function Live(): seq<nat> { delivered + queue }
  }

  /** A publisher outside the lock still has to visit these subscribers of its snapshot. */
  datatype Pending = Pending(event: nat, targets: set<int>)

  /** One incident: log[n] is the publisher of event n. */
  datatype Topic = Topic(
    log: seq<int>, history: seq<nat>, streams: map<int, Stream>, publishing: map<int, Pending>)

  const EMPTY_TOPIC := Topic([], [], map[], map[])

  datatype Limits = Limits(history: nat, queue: nat)  // a queue limit of 0 is no limit

  datatype Step =
    | Append(publisher: int)              // under the lock: append and snapshot
    | Put(publisher: int, stream: int)    // put_nowait, or drop on Full
    | Finish(publisher: int)              // publish returns
    | Subscribe(stream: int)              // under the lock: register and copy the history
    | Replay(stream: int)                 // the consumer takes one history event
    | Get(stream: int)                    // the consumer takes one queued event
    | Unsubscribe(stream: int)            // under the lock

  function LastOf(s: seq<nat>, limit: nat): seq<nat> {
    if |s| <= limit then s else s[|s| - limit..]
  }

  function OpenStreams(t: Topic): set<int> {
    set s | s in t.streams && t.streams[s].closedAt == None
  }

  predicate Full(q: seq<nat>, limits: Limits) { limits.queue > 0 && |q| >= limits.queue }

  predicate Enabled(t: Topic, step: Step) {
    match step
    case Append(p) => p !in t.publishing
    case Put(p, s) => p in t.publishing && s in t.publishing[p].targets && s in t.streams
    case Finish(p) => p in t.publishing && t.publishing[p].targets == {}
    case Subscribe(s) => s !in t.streams
    case Replay(s) => s in t.streams && t.streams[s].replayed < |t.streams[s].replay|
    case Get(s) => s in t.streams && t.streams[s].replayed == |t.streams[s].replay| && t.streams[s].queue != []
    case Unsubscribe(s) => s in t.streams && t.streams[s].closedAt == None
  }

  function Offered(x: Stream, n: nat, limits: Limits): Stream {
    if Full(x.queue, limits) then x.(dropped := x.dropped + [n]) else x.(queue := x.queue + [n])
  }

  function Next(t: Topic, step: Step, limits: Limits): Topic
    requires Enabled(t, step)
  {
    match step
    case Append(p) =>
      Topic(t.log + [p], LastOf(t.history + [|t.log|], limits.history), t.streams,
            t.publishing[p := Pending(|t.log|, OpenStreams(t))])
    case Put(p, s) =>
      var job := t.publishing[p];
      t.(streams := t.streams[s := Offered(t.streams[s], job.event, limits)],
         publishing := t.publishing[p := job.(targets := job.targets - {s})])
    case Finish(p) => t.(publishing := t.publishing - {p})
    case Subscribe(s) => t.(streams := t.streams[s := Stream(|t.log|, None, t.history, 0, [], [], [])])
    case Replay(s) => t.(streams := t.streams[s := t.streams[s].(replayed := t.streams[s].replayed + 1)])
    case Get(s) =>
      var x := t.streams[s];
      t.(streams := t.streams[s := x.(delivered := x.delivered + [x.queue[0]], queue := x.queue[1..])])
    case Unsubscribe(s) => t.(streams := t.streams[s := t.streams[s].(closedAt := Some(|t.log|))])
  }

  ghost predicate Legal(steps: seq<Step>, limits: Limits)
    decreases |steps|, 0
  {
    steps == [] || (Legal(steps[..|steps| - 1], limits) && Enabled(After(steps[..|steps| - 1], limits), steps[|steps| - 1]))
  }

  ghost function After(steps: seq<Step>, limits: Limits): Topic
    requires Legal(steps, limits)
    decreases |steps|, 1
  {
    if steps == [] then EMPTY_TOPIC else Next(After(steps[..|steps| - 1], limits), steps[|steps| - 1], limits)
  }

  // ---- History ------------------------------------------------------------------

  function Range(a: nat, b: nat): seq<nat> {
    if a >= b then [] else Range(a, b - 1) + [b - 1]
  }

  lemma {:induction false} RangeIs(a: nat, b: nat)
    ensures |Range(a, b)| == if a <= b then b - a else 0
    ensures forall i :: 0 <= i < |Range(a, b)| ==> Range(a, b)[i] == a + i
    decreases b
  {
    if a < b { RangeIs(a, b - 1); }
  }

  /** The newest events a buffer of this limit holds of the first n. */
  function Window(n: nat, limit: nat): seq<nat> {
    Range(if n <= limit then 0 else n - limit, n)
  }

  lemma WindowSlides(n: nat, limit: nat)
    ensures LastOf(Window(n, limit) + [n], limit) == Window(n + 1, limit)
  {
    RangeIs(if n <= limit then 0 else n - limit, n);
    RangeIs(if n + 1 <= limit then 0 else n + 1 - limit, n + 1);
  }

  ghost predicate Remembers(t: Topic, limits: Limits) {
    && t.history == Window(|t.log|, limits.history)
    && forall s :: s in t.streams ==>
         && t.streams[s].openedAt <= |t.log|
         && t.streams[s].replay == Window(t.streams[s].openedAt, limits.history)
         && t.streams[s].replayed <= |t.streams[s].replay|
  }

  /** History is always the last `limit` appends, and a stream replays the history of the
      moment it registered. */
  lemma {:induction false} HistoryIsTheLastAppends(steps: seq<Step>, limits: Limits)
    requires Legal(steps, limits)
    ensures Remembers(After(steps, limits), limits)
  {
    if steps != [] {
      HistoryIsTheLastAppends(steps[..|steps| - 1], limits);
      StepRemembers(After(steps[..|steps| - 1], limits), steps[|steps| - 1], limits);
    }
  }

  lemma StepRemembers(t: Topic, step: Step, limits: Limits)
    requires Remembers(t, limits) && Enabled(t, step)
    ensures Remembers(Next(t, step, limits), limits)
  {
    if step.Append? { WindowSlides(|t.log|, limits.history); }
  }

  // ---- Conservation ---------------------------------------------------------------

  /** The publisher, if any, that still has to visit stream s with event n. */
  ghost predicate Owed(t: Topic, s: int, n: nat) {
    exists p :: p in t.publishing && t.publishing[p].event == n && s in t.publishing[p].targets
  }

  function Times(n: nat, xs: seq<nat>): nat { multiset(xs)[n] }

  /** Was the stream registered when event n was appended? */
  predicate Due(x: Stream, n: nat, appended: nat) {
    x.openedAt <= n < appended && (x.closedAt.Some? ==> n < x.closedAt.value)
  }

  /** Delivered, queued, dropped or pending: in exactly one of them, exactly once. */
  ghost predicate Accounted(t: Topic, s: int, n: nat)
    requires s in t.streams
  {
    var x := t.streams[s];
    Times(n, x.delivered) + Times(n, x.queue) + Times(n, x.dropped) + (if Owed(t, s, n) then 1 else 0)
      == if Due(x, n, |t.log|) then 1 else 0
  }

  /** A publisher holds its own latest event, no two hold the same, and each target exists. */
  ghost predicate Publishing(t: Topic) {
    && (forall p :: p in t.publishing ==> t.publishing[p].event < |t.log| && t.log[t.publishing[p].event] == p)
    && (forall p, s :: p in t.publishing && s in t.publishing[p].targets ==> s in t.streams)
    && (forall s :: s in t.streams ==>
          t.streams[s].openedAt <= |t.log| && (t.streams[s].closedAt.Some? ==> t.streams[s].closedAt.value <= |t.log|))
  }

  ghost predicate Conserved(t: Topic) {
    Publishing(t) && forall s, n :: s in t.streams && n >= 0 ==> Accounted(t, s, n)
  }

  lemma AppendConserves(t: Topic, p: int, limits: Limits)
    requires Conserved(t) && Enabled(t, Append(p))
    ensures Conserved(Next(t, Append(p), limits))
  {
    var u := Next(t, Append(p), limits);
    forall s, n | s in u.streams && n >= 0 ensures Accounted(u, s, n) {
      assert Accounted(t, s, n);
      OwedAfterAppend(t, p, limits, s, n);
    }
  }

  lemma OwedAfterAppend(t: Topic, p: int, limits: Limits, s: int, n: nat)
    requires Publishing(t) && Enabled(t, Append(p)) && s in t.streams
    ensures Owed(Next(t, Append(p), limits), s, n) <==> Owed(t, s, n) || (n == |t.log| && s in OpenStreams(t))
  {
    var u := Next(t, Append(p), limits);
    if Owed(t, s, n) {
      var q :| q in t.publishing && t.publishing[q].event == n && s in t.publishing[q].targets;
      assert u.publishing[q] == t.publishing[q];
    }
    if n == |t.log| && s in OpenStreams(t) { assert u.publishing[p].event == n; }
  }

  lemma OwedAfterPut(t: Topic, p: int, s: int, limits: Limits, r: int, n: nat)
    requires Publishing(t) && Enabled(t, Put(p, s))
    ensures Owed(Next(t, Put(p, s), limits), r, n) <==> Owed(t, r, n) && !(r == s && n == t.publishing[p].event)
  {
    var u := Next(t, Put(p, s), limits);
    if Owed(t, r, n) {
      var q :| q in t.publishing && t.publishing[q].event == n && r in t.publishing[q].targets;
      assert q in u.publishing && u.publishing[q].event == n;
    }
  }

  lemma PutConserves(t: Topic, p: int, s: int, limits: Limits)
    requires Conserved(t) && Enabled(t, Put(p, s))
    ensures Conserved(Next(t, Put(p, s), limits))
  {
    var u := Next(t, Put(p, s), limits);
    var m := t.publishing[p].event;
    forall r, n | r in u.streams && n >= 0 ensures Accounted(u, r, n) {
      assert Accounted(t, r, n);
      OwedAfterPut(t, p, s, limits, r, n);
      assert Owed(t, s, m);
    }
  }

  lemma GetConserves(t: Topic, s: int, limits: Limits)
    requires Conserved(t) && Enabled(t, Get(s))
    ensures Conserved(Next(t, Get(s), limits))
  {
    var u := Next(t, Get(s), limits);
    var x := t.streams[s];
    assert x.queue == [x.queue[0]] + x.queue[1..];
    forall r, n | r in u.streams && n >= 0 ensures Accounted(u, r, n) {
      assert Accounted(t, r, n);
      assert Owed(u, r, n) == Owed(t, r, n);
    }
  }

  lemma FinishConserves(t: Topic, p: int, limits: Limits)
    requires Conserved(t) && Enabled(t, Finish(p))
    ensures Conserved(Next(t, Finish(p), limits))
  {
    var u := Next(t, Finish(p), limits);
    forall r, n | r in u.streams && n >= 0 ensures Accounted(u, r, n) {
      assert Accounted(t, r, n);
      if Owed(t, r, n) {
        var q :| q in t.publishing && t.publishing[q].event == n && r in t.publishing[q].targets;
        assert q in u.publishing && u.publishing[q] == t.publishing[q];
      }
    }
  }

  lemma StreamStepConserves(t: Topic, step: Step, limits: Limits)
    requires Conserved(t) && Enabled(t, step) && (step.Subscribe? || step.Replay? || step.Unsubscribe?)
    ensures Conserved(Next(t, step, limits))
  {
    var u := Next(t, step, limits);
    forall r, n | r in u.streams && n >= 0 ensures Accounted(u, r, n) {
      assert Owed(u, r, n) == Owed(t, r, n);
      if r in t.streams { assert Accounted(t, r, n); }
    }
  }

  /** Under every interleaving, each event appended while a stream was registered is in
      exactly one of delivered, queued, dropped and pending, and no other event is. */
  lemma {:induction false} EveryEventIsAccountedFor(steps: seq<Step>, limits: Limits)
    requires Legal(steps, limits)
    ensures Conserved(After(steps, limits))
  {
    if steps != [] {
      EveryEventIsAccountedFor(steps[..|steps| - 1], limits);
      var t := After(steps[..|steps| - 1], limits);
      match steps[|steps| - 1]
      case Append(p) => AppendConserves(t, p, limits);
      case Put(p, s) => PutConserves(t, p, s, limits);
      case Finish(p) => FinishConserves(t, p, limits);
      case Get(s) => GetConserves(t, s, limits);
      case _ => StreamStepConserves(t, steps[|steps| - 1], limits);
    }
  }

  /** What was appended before a stream opened is never sent to it live. */
  lemma EarlierIsNotLive(t: Topic, s: int, n: nat)
    requires Conserved(t) && s in t.streams && n < t.streams[s].openedAt
    ensures var x := t.streams[s]; n !in x.delivered && n !in x.queue && n !in x.dropped && !Owed(t, s, n)
  {
    var x := t.streams[s];
    assert Accounted(t, s, n);
    assert n in x.delivered ==> n in multiset(x.delivered);
    assert n in x.queue ==> n in multiset(x.queue);
    assert n in x.dropped ==> n in multiset(x.dropped);
  }

  lemma ReplayIsEarlier(t: Topic, limits: Limits, s: int, n: nat)
    requires Remembers(t, limits) && s in t.streams && n in t.streams[s].replay
    ensures n < t.streams[s].openedAt
  {
    var x := t.streams[s];
    RangeIs(if x.openedAt <= limits.history then 0 else x.openedAt - limits.history, x.openedAt);
  }

  /** Nothing is both replayed from history and sent live. */
  lemma ReplayAndLiveAreDisjoint(steps: seq<Step>, limits: Limits, s: int, n: nat)
    requires Legal(steps, limits) && s in After(steps, limits).streams
    requires n in After(steps, limits).streams[s].replay
    ensures var t := After(steps, limits);
            var x := t.streams[s];
            n !in x.delivered && n !in x.queue && n !in x.dropped && !Owed(t, s, n)
  {
    HistoryIsTheLastAppends(steps, limits);
    EveryEventIsAccountedFor(steps, limits);
    ReplayIsEarlier(After(steps, limits), limits, s, n);
    EarlierIsNotLive(After(steps, limits), s, n);
  }

  // ---- Order ------------------------------------------------------------------------

  /** Events of one publisher appear in the order they were published. */
  ghost predicate InOrder(log: seq<int>, live: seq<nat>) {
    && (forall i :: 0 <= i < |live| ==> live[i] < |log|)
    && (forall i, j :: 0 <= i < j < |live| && log[live[i]] == log[live[j]] ==> live[i] < live[j])
  }

  /** What publisher p still holds for the stream is newer than what it already sent. */
  ghost predicate Newer(t: Topic, s: int, p: int)
    requires s in t.streams && p in t.publishing
  {
    var live := t.streams[s].Live();
    forall i :: 0 <= i < |live| && live[i] < |t.log| && t.log[live[i]] == p ==> live[i] < t.publishing[p].event
  }

  ghost predicate Ordered(t: Topic) {
    && Publishing(t)
    && (forall s :: s in t.streams ==> InOrder(t.log, t.streams[s].Live()))
    && (forall s, p :: s in t.streams && p in t.publishing && s in t.publishing[p].targets ==> Newer(t, s, p))
  }

  lemma AppendKeepsOrder(t: Topic, p: int, limits: Limits)
    requires Ordered(t) && Enabled(t, Append(p)) && Publishing(Next(t, Append(p), limits))
    ensures Ordered(Next(t, Append(p), limits))
  {
    var u := Next(t, Append(p), limits);
    forall s, q | s in u.streams && q in u.publishing && s in u.publishing[q].targets ensures Newer(u, s, q) {
      assert InOrder(t.log, t.streams[s].Live());
      if q != p { assert Newer(t, s, q); }
    }
    forall s | s in u.streams ensures InOrder(u.log, u.streams[s].Live()) {
      assert InOrder(t.log, t.streams[s].Live());
    }
  }

  lemma InOrderGrows(log: seq<int>, live: seq<nat>, n: nat)
    requires InOrder(log, live) && n < |log|
    requires forall i :: 0 <= i < |live| && log[live[i]] == log[n] ==> live[i] < n
    ensures InOrder(log, live + [n])
  {}

  lemma PutKeepsOrder(t: Topic, p: int, s: int, limits: Limits)
    requires Ordered(t) && Enabled(t, Put(p, s)) && Publishing(Next(t, Put(p, s), limits))
    ensures Ordered(Next(t, Put(p, s), limits))
  {
    var u := Next(t, Put(p, s), limits);
    var n := t.publishing[p].event;
    var live := t.streams[s].Live();
    assert Newer(t, s, p) && InOrder(t.log, live);
    InOrderGrows(t.log, live, n);
    assert u.streams[s].Live() == if Full(t.streams[s].queue, limits) then live else live + [n];
    forall r, q | r in u.streams && q in u.publishing && r in u.publishing[q].targets ensures Newer(u, r, q) {
      assert Newer(t, r, q);
    }
  }

  /** The other steps take no job up and send nothing to a stream. */
  ghost predicate SendsNothing(t: Topic, u: Topic) {
    && u.log == t.log
    && (forall q :: q in u.publishing ==> q in t.publishing && u.publishing[q] == t.publishing[q])
    && (forall s :: s in u.streams ==> u.streams[s].Live() == if s in t.streams then t.streams[s].Live() else [])
  }

  lemma NewerCarriesOver(t: Topic, u: Topic, s: int, q: int)
    requires u.log == t.log && s in u.streams && q in t.publishing && q in u.publishing
    requires u.publishing[q] == t.publishing[q]
    requires u.streams[s].Live() == if s in t.streams then t.streams[s].Live() else []
    requires s in t.streams ==> Newer(t, s, q)
    ensures Newer(u, s, q)
  {}

  lemma OrderCarriesOver(t: Topic, u: Topic)
    requires Ordered(t) && Publishing(u) && SendsNothing(t, u)
    ensures Ordered(u)
  {
    forall s | s in u.streams ensures InOrder(u.log, u.streams[s].Live()) {
      if s in t.streams { assert InOrder(t.log, t.streams[s].Live()); }
    }
    forall s, q | s in u.streams && q in u.publishing && s in u.publishing[q].targets ensures Newer(u, s, q) {
      NewerCarriesOver(t, u, s, q);
    }
  }

  lemma OtherStepsSendNothing(t: Topic, step: Step, limits: Limits)
    requires Enabled(t, step) && !step.Append? && !step.Put?
    ensures SendsNothing(t, Next(t, step, limits))
  {
    if step.Get? {
      assert t.streams[step.stream].queue == [t.streams[step.stream].queue[0]] + t.streams[step.stream].queue[1..];
    }
  }

  lemma OtherStepsKeepOrder(t: Topic, step: Step, limits: Limits)
    requires Ordered(t) && Enabled(t, step) && !step.Append? && !step.Put? && Publishing(Next(t, step, limits))
    ensures Ordered(Next(t, step, limits))
  {
    OtherStepsSendNothing(t, step, limits);
    OrderCarriesOver(t, Next(t, step, limits));
  }

  lemma {:induction false} PublisherOrderIsKept(steps: seq<Step>, limits: Limits)
    requires Legal(steps, limits)
    ensures Ordered(After(steps, limits))
  {
    EveryEventIsAccountedFor(steps, limits);
    if steps != [] {
      PublisherOrderIsKept(steps[..|steps| - 1], limits);
      var t := After(steps[..|steps| - 1], limits);
      match steps[|steps| - 1]
      case Append(p) => AppendKeepsOrder(t, p, limits);
      case Put(p, s) => PutKeepsOrder(t, p, s, limits);
      case _ => OtherStepsKeepOrder(t, steps[|steps| - 1], limits);
    }
  }

  /** All events of the topic come from one publisher. */
  predicate Solo(log: seq<int>, p: int) { forall n :: 0 <= n < |log| ==> log[n] == p }

  /** With one publisher and no drop, a stream that is owed nothing holds exactly the events
      of its registration, in order and without a gap. */
  lemma OnePublisherIsGapFree(steps: seq<Step>, limits: Limits, p: int, s: int)
    requires Legal(steps, limits) && Solo(After(steps, limits).log, p)
    requires s in After(steps, limits).streams
    requires var t := After(steps, limits); t.streams[s].dropped == [] && forall n: nat :: !Owed(t, s, n)
    ensures var t := After(steps, limits);
            var x := t.streams[s];
            var end := if x.closedAt.Some? then x.closedAt.value else |t.log|;
            && x.Live() == Range(x.openedAt, end)
            && (x.openedAt <= limits.history && x.openedAt <= end ==> x.replay + x.Live() == Range(0, end))
  {
    HistoryIsTheLastAppends(steps, limits);
    EveryEventIsAccountedFor(steps, limits);
    PublisherOrderIsKept(steps, limits);
    var t := After(steps, limits);
    var x := t.streams[s];
    var end := if x.closedAt.Some? then x.closedAt.value else |t.log|;
    var live := x.Live();
    assert InOrder(t.log, live);
    forall n: nat ensures n in live <==> x.openedAt <= n < end {
      assert Accounted(t, s, n);
      MemberTimes(x, n);
    }
    RisingIsRange(live, x.openedAt, end);
    if x.openedAt <= end { RangesJoin(0, x.openedAt, end); }
  }

  lemma RangesJoin(a: nat, b: nat, c: nat)
    requires a <= b <= c
    ensures Range(a, b) + Range(b, c) == Range(a, c)
  {
    RangeIs(a, b);
    RangeIs(b, c);
    RangeIs(a, c);
  }

  lemma MemberTimes(x: Stream, n: nat)
    ensures n in x.Live() <==> Times(n, x.delivered) + Times(n, x.queue) > 0
  {
    assert n in x.delivered <==> n in multiset(x.delivered);
    assert n in x.queue <==> n in multiset(x.queue);
  }

  lemma {:induction false} RisingIsRange(live: seq<nat>, a: nat, b: nat)
    requires forall i, j :: 0 <= i < j < |live| ==> live[i] < live[j]
    requires forall n: nat :: n in live <==> a <= n < b
    ensures live == Range(a, b)
    decreases b
  {
    if a >= b {
      Sorting.HasMember(live);
    } else {
      var k := |live| - 1;
      assert (b - 1) in live;
      var i :| 0 <= i < |live| && live[i] == b - 1;
      assert live[k] in live;
      assert i == k;
      var front := live[..k];
      assert live == front + [b - 1];
      forall n: nat ensures n in front <==> a <= n < b - 1 {
        assert n in live <==> n in front || n == b - 1;
      }
      RisingIsRange(front, a, b - 1);
    }
  }

  // ---- When an event is dropped -------------------------------------------------------

  /** A put drops its event exactly when there is a limit and the queue already holds that many;
      otherwise the event goes last into the queue. Nothing else moves. */
  lemma PutDropsIff(t: Topic, p: int, s: int, limits: Limits)
    requires Enabled(t, Put(p, s))
    ensures var n := t.publishing[p].event;
            var x, u := t.streams[s], Next(t, Put(p, s), limits);
            && u.streams == t.streams[s := u.streams[s]] && u.log == t.log && u.history == t.history
            && (if limits.queue > 0 && |x.queue| >= limits.queue
                then u.streams[s] == x.(dropped := x.dropped + [n])
                else u.streams[s] == x.(queue := x.queue + [n]))
  {}

  function Received(x: Stream): nat { |x.delivered| + |x.queue| + |x.dropped| }

  /** The queue keeps its bound; a drop means that more than a queue's worth had been sent; and
      the live events wait for the replay. */
  ghost predicate Bounded(x: Stream, limits: Limits) {
    && (limits.queue > 0 ==> |x.queue| <= limits.queue)
    && (x.dropped != [] ==> 0 < limits.queue < Received(x))
    && x.replayed <= |x.replay|
    && (x.delivered != [] ==> x.replayed == |x.replay|)
  }

  ghost predicate AllBounded(t: Topic, limits: Limits) {
    forall s :: s in t.streams ==> Bounded(t.streams[s], limits)
  }

  lemma StepStaysBounded(t: Topic, step: Step, limits: Limits)
    requires AllBounded(t, limits) && Enabled(t, step)
    ensures AllBounded(Next(t, step, limits), limits)
  {
    if step.Put? { PutDropsIff(t, step.publisher, step.stream, limits); }
  }

  lemma {:induction false} QueuesStayBounded(steps: seq<Step>, limits: Limits)
    requires Legal(steps, limits)
    ensures AllBounded(After(steps, limits), limits)
  {
    if steps != [] {
      QueuesStayBounded(steps[..|steps| - 1], limits);
      StepStaysBounded(After(steps[..|steps| - 1], limits), steps[|steps| - 1], limits);
    }
  }

  /** How many events were appended while the stream was registered. */
  function Offers(t: Topic, x: Stream): int {
    (if x.closedAt.Some? then x.closedAt.value else |t.log|) - x.openedAt
  }

  function Between(a: int, b: int): (s: set<int>)
    ensures forall n :: n in s <==> a <= n < b
    ensures |s| == if a < b then b - a else 0
    decreases b - a
  {
    if a >= b then {} else Between(a, b - 1) + {b - 1}
  }

  ghost predicate Single(xs: seq<nat>) { forall n: nat :: multiset(xs)[n] <= 1 }

  lemma {:induction false} ListedOnce(xs: seq<nat>, all: set<int>)
    requires forall i :: 0 <= i < |xs| ==> xs[i] in all
    requires Single(xs)
    ensures |xs| <= |all|
  {
    if xs != [] {
      var last := xs[|xs| - 1];
      var front := xs[..|xs| - 1];
      assert xs == front + [last];
      forall n: nat ensures multiset(front)[n] + (if n == last then 1 else 0) <= 1 {
        assert multiset(xs)[n] == multiset(front)[n] + multiset{last}[n];
      }
      forall i | 0 <= i < |front| ensures front[i] in all - {last} {
        assert xs[i] == front[i] && front[i] in multiset(front);
      }
      ListedOnce(front, all - {last});
    }
  }

  /** A stream is never sent more than was appended while it was registered. */
  lemma ReceivedAtMostOffered(t: Topic, s: int)
    requires Conserved(t) && s in t.streams
    ensures var x := t.streams[s]; Received(x) > 0 ==> Received(x) <= Offers(t, x)
  {
    var x := t.streams[s];
    var all := x.delivered + x.queue + x.dropped;
    assert multiset(all) == multiset(x.delivered) + multiset(x.queue) + multiset(x.dropped);
    forall n: nat ensures multiset(all)[n] <= if Due(x, n, |t.log|) then 1 else 0 { assert Accounted(t, s, n); }
    forall i | 0 <= i < |all| ensures x.openedAt <= all[i] < x.openedAt + Offers(t, x) {
      assert all[i] in multiset(all);
    }
    ListedOnce(all, Between(x.openedAt, x.openedAt + Offers(t, x)));
  }

  /** No stream whose limit is 0, or to which no more was appended than its queue holds, ever
      loses an event, however slow its consumer. */
  lemma DropsNeedAFullQueue(steps: seq<Step>, limits: Limits, s: int)
    requires Legal(steps, limits) && s in After(steps, limits).streams
    ensures var t := After(steps, limits);
            var x := t.streams[s];
            && (limits.queue > 0 ==> |x.queue| <= limits.queue)
            && (limits.queue == 0 || Offers(t, x) <= limits.queue ==> x.dropped == [])
  {
    QueuesStayBounded(steps, limits);
    EveryEventIsAccountedFor(steps, limits);
    ReceivedAtMostOffered(After(steps, limits), s);
  }

  // ---- The broker object ----------------------------------------------------------------

  /** A publish that no other thread interrupts. */
  function Published(t: Topic, p: int, limits: Limits): Topic {
    Topic(t.log + [p], LastOf(t.history + [|t.log|], limits.history),
          map s | s in t.streams :: if t.streams[s].closedAt == None then Offered(t.streams[s], |t.log|, limits) else t.streams[s],
          t.publishing)
  }

  /** The same, while the subscribers in rest are still to be visited. */
  function Visiting(t: Topic, p: int, rest: set<int>, limits: Limits): Topic {
    Topic(t.log + [p], LastOf(t.history + [|t.log|], limits.history),
          map s | s in t.streams :: if t.streams[s].closedAt == None && s !in rest then Offered(t.streams[s], |t.log|, limits)
                                    else t.streams[s],
          t.publishing[p := Pending(|t.log|, rest)])
  }

  lemma VisitingStarts(t: Topic, p: int, limits: Limits)
    requires Enabled(t, Append(p))
    ensures Next(t, Append(p), limits) == Visiting(t, p, OpenStreams(t), limits)
  {
    assert Visiting(t, p, OpenStreams(t), limits).streams == t.streams;
  }

  lemma VisitingGoesOn(t: Topic, p: int, rest: set<int>, s: int, limits: Limits)
    requires s in rest && rest <= OpenStreams(t)
    ensures Enabled(Visiting(t, p, rest, limits), Put(p, s))
    ensures Next(Visiting(t, p, rest, limits), Put(p, s), limits) == Visiting(t, p, rest - {s}, limits)
  {
    var u := Next(Visiting(t, p, rest, limits), Put(p, s), limits);
    assert u.streams == Visiting(t, p, rest - {s}, limits).streams;
    assert u.publishing == Visiting(t, p, rest - {s}, limits).publishing;
  }

  lemma VisitingEnds(t: Topic, p: int, limits: Limits)
    requires p !in t.publishing
    ensures Enabled(Visiting(t, p, {}, limits), Finish(p))
    ensures Next(Visiting(t, p, {}, limits), Finish(p), limits) == Published(t, p, limits)
  {
    assert Visiting(t, p, {}, limits).streams == Published(t, p, limits).streams;
    assert t.publishing[p := Pending(|t.log|, {})] - {p} == t.publishing;
  }

  /** The next element of a set, in whatever order it iterates. */
  method AnyOf<T(==)>(s: set<T>) returns (x: T)
    requires s != {}
    ensures x in s
  {
    x :| x in s;
  }

  class Broker {
    const limits: Limits
    var topics: map<int, Topic>

    constructor (limits: Limits)
      ensures this.limits == limits && topics == map[]
    {
      this.limits := limits;
      topics := map[];
    }

    /** The incident's entry, made on first use as a defaultdict does. */
    function Of(incident: int): Topic
      reads this
    {
      if incident in topics then topics[incident] else EMPTY_TOPIC
    }

    /** One atomic step of one incident; the other incidents are untouched. */
    method Take(incident: int, step: Step)
      requires Enabled(Of(incident), step)
      modifies this
      ensures topics == old(topics)[incident := Next(old(Of(incident)), step, limits)]
    {
      topics := topics[incident := Next(Of(incident), step, limits)];
    }

    /** publish: append and snapshot under the lock, then one put per subscriber. */
    method Publish(incident: int, publisher: int)
      requires publisher !in Of(incident).publishing
      modifies this
      ensures topics == old(topics)[incident := Published(old(Of(incident)), publisher, limits)]
      ensures forall s :: s in old(Of(incident)).streams ==>
                var x := old(Of(incident)).streams[s];
                && s in Of(incident).streams
                && (x.closedAt == None && (limits.queue == 0 || |x.queue| < limits.queue) ==>
                      Of(incident).streams[s] == x.(queue := x.queue + [|old(Of(incident)).log|]))
                && (x.closedAt == None && 0 < limits.queue <= |x.queue| ==>
                      Of(incident).streams[s] == x.(dropped := x.dropped + [|old(Of(incident)).log|]))
                && (x.closedAt.Some? ==> Of(incident).streams[s] == x)
    {
      ghost var t := Of(incident);
      Take(incident, Append(publisher));
      VisitingStarts(t, publisher, limits);
      var rest := topics[incident].publishing[publisher].targets;
      while rest != {}
        invariant rest <= OpenStreams(t)
        invariant topics == old(topics)[incident := Visiting(t, publisher, rest, limits)]
        decreases rest
      {
        var s := AnyOf(rest);
        VisitingGoesOn(t, publisher, rest, s, limits);
        Take(incident, Put(publisher, s));
        rest := rest - {s};
      }
      VisitingEnds(t, publisher, limits);
      Take(incident, Finish(publisher));
    }

    /** stream: registration and the history copy, under the lock. */
    method Subscribe(incident: int, stream: int) returns (history: seq<nat>)
      requires stream !in Of(incident).streams
      modifies this
      ensures topics == old(topics)[incident := Next(old(Of(incident)), Step.Subscribe(stream), limits)]
      ensures history == old(Of(incident)).history
    {
      history := Of(incident).history;
      Take(incident, Step.Subscribe(stream));
    }

    /** One wait on the queue: the oldest queued event, or a heartbeat. */
    method Poll(incident: int, stream: int) returns (event: Option<nat>)
      requires stream in Of(incident).streams
      requires var x := Of(incident).streams[stream]; x.replayed == |x.replay|
      modifies this
      ensures event == None <==> old(Of(incident)).streams[stream].queue == []
      ensures event == None ==> topics == old(topics)
      ensures event.Some? ==>
                && event.value == old(Of(incident)).streams[stream].queue[0]
                && topics == old(topics)[incident := Next(old(Of(incident)), Get(stream), limits)]
    {
      var queue := Of(incident).streams[stream].queue;
      if queue == [] { return None; }
      Take(incident, Get(stream));
      event := Some(queue[0]);
    }
  }
}
