/** The two Lambda handlers around the FIFO queue
    (consolidation/postmortem_consolidation/handlers.py), and what they add up to: any
    number of partly failed or killed batches ends like one clean pass. */
module FifoQueue {
  import opened Contracts
  import opened Grouping
  import opened Pipeline
  import opened RunbookRepository
  import opened Delivery
  import opened CrashReplay

  // ---- Receiver: ten messages per send ------------------------------------

  const CHUNK := 10

  function Flatten(chunks: seq<seq<Message>>): seq<Message> {
    if chunks == [] then [] else Flatten(chunks[..|chunks| - 1]) + chunks[|chunks| - 1]
  }

  /** The sender stops at the first chunk the queue rejects; `rejectAt` names that chunk.
      What was sent is always a prefix, in order, in chunks of at most ten. */
  method SendInChunks(messages: seq<Message>, rejectAt: Option<nat>) returns (sent: seq<seq<Message>>, accepted: Option<nat>)
    ensures forall c :: c in sent ==> 0 < |c| <= 10
    ensures forall i :: 0 <= i < |sent| - 1 ==> |sent[i]| == 10
    ensures Flatten(sent) <= messages
    ensures accepted.Some? ==> Flatten(sent) == messages && accepted.value == |messages|
    ensures accepted == None <==> rejectAt.Some? && rejectAt.value * CHUNK < |messages|
    ensures accepted == None ==> |sent| == rejectAt.value && Flatten(sent) == messages[..rejectAt.value * CHUNK]
  {
    sent := [];
    var start, total := 0, 0;
    while start < |messages|
      invariant start == |sent| * CHUNK
      invariant total == if start < |messages| then start else |messages|
      invariant Flatten(sent) == messages[..total]
      invariant forall c :: c in sent ==> 0 < |c| <= CHUNK
      invariant forall i :: 0 <= i < |sent| && (i < |sent| - 1 || start < |messages|) ==> |sent[i]| == CHUNK
      invariant rejectAt.Some? ==> |sent| <= rejectAt.value || start >= |messages|
      invariant rejectAt.Some? && rejectAt.value * CHUNK < |messages| ==> |sent| <= rejectAt.value
    {
      var end := if start + CHUNK < |messages| then start + CHUNK else |messages|;
      var chunk := messages[start..end];
      if rejectAt == Some(|sent|) {
        return sent, None;
      }
      assert (sent + [chunk])[..|sent|] == sent;
      assert messages[..start] + chunk == messages[..end];
      sent := sent + [chunk];
      total := total + |chunk|;
      start := start + CHUNK;
    }
    assert messages[..|messages|] == messages;
    accepted := Some(total);
  }

  // ---- Consolidator: stop at the first failure ----------------------------

  /** Where the processing of a record raises: before it wrote anything, inside its window
      (some groups written, and possibly one more without its archive entry), or at the end. */
  datatype Fault = Before | Inside(groups: nat, halfway: bool) | AtEnd

  /** What the processing of one record leaves behind. */
  function AttemptsOf(m: Message, fault: Option<Fault>): seq<Attempt> {
    match fault
    case None => [Handled(m)]
    case Some(Before) => []
    case Some(Inside(k, halfway)) => if m.WindowClosed? then [Crashed(m.watermark, k, halfway)] else []
    case Some(AtEnd) => [Handled(m)]
  }

  function FaultAt(faults: seq<Option<Fault>>, i: nat): Option<Fault> {
    if i < |faults| then faults[i] else None
  }

  /** The first of n records that raises; n if none does. */
  function FirstFault(faults: seq<Option<Fault>>, n: nat): (f: nat)
    ensures f <= n && (f < n ==> FaultAt(faults, f).Some?)
    ensures forall i :: 0 <= i < f ==> FaultAt(faults, i) == None
  {
    if n == 0 then 0
    else
      var f := FirstFault(faults, n - 1);
      if f < n - 1 || FaultAt(faults, n - 1).Some? then f else n
  }

  function AllHandled(records: seq<Message>): seq<Attempt> {
    seq(|records|, i requires 0 <= i < |records| => Handled(records[i]))
  }

  /** What a batch leaves behind: the records before the first that raises, and that one as
      far as it got. */
  function BatchLog(records: seq<Message>, faults: seq<Option<Fault>>): seq<Attempt> {
    var f := FirstFault(faults, |records|);
    AllHandled(records[..f]) + if f < |records| then AttemptsOf(records[f], FaultAt(faults, f)) else []
  }

  /** The batchItemFailures: the first record that raised and every later one. */
  function FailuresOf(records: seq<Message>, faults: seq<Option<Fault>>): seq<nat> {
    var f := FirstFault(faults, |records|);
    seq(|records| - f, i => f + i)
  }

  /** One record, interrupted where its fault says. */
  method ProcessOrRaise(processor: ConsolidationProcessor, m: Message, fault: Option<Fault>) returns (raised: bool)
    requires processor.store.State().Valid()
    modifies processor.store, processor.repository
    ensures raised == fault.Some?
    ensures processor.State() == RunLog(processor.Cfg(), old(processor.State()), AttemptsOf(m, fault))
  {
    raised := fault.Some?;
    if fault == None || fault == Some(AtEnd) {
      var _ := processor.Process(m);
    } else if fault.value.Inside? && m.WindowClosed? {
      CloseInterrupted(processor, m.watermark, fault.value.groups, fault.value.halfway);
    }
  }

  /** The window's loop over its groups, dying part of the way. */
  method CloseInterrupted(processor: ConsolidationProcessor, w: int, k: nat, halfway: bool)
    requires processor.store.State().Valid()
    modifies processor.store, processor.repository
    ensures processor.State() == AttemptSpec(processor.Cfg(), old(processor.State()), Crashed(w, k, halfway))
  {
    var events := processor.store.ReadThrough(w);
    var groups := GroupCompletedIncidents(events);
    var n := if k <= |groups| then k else |groups|;
    var _, _ := processor.ConsolidateGroups(groups[..n]);
    if halfway && n < |groups| {
      WriteWithoutArchive(processor, groups[n]);
    }
  }

  method WriteWithoutArchive(processor: ConsolidationProcessor, group: EpisodeGroup)
    modifies processor.repository
    ensures processor.State() == ApplyGroup(processor.Cfg(), old(processor.State()), group)
  {
    var result := processor.ports.distill(group);
    var embedding := processor.ports.embed(result.candidate.triggerDesc);
    var _ := processor.repository.Apply(result.candidate.(embedding := embedding), group.Key());
  }

  /** Processes records in order; the first that raises, and every later one, is reported. */
  method ConsolidateBatch(processor: ConsolidationProcessor, records: seq<Message>, faults: seq<Option<Fault>>)
    returns (failures: seq<nat>)
    requires processor.store.State().Valid()
    modifies processor.store, processor.repository
    ensures processor.State() == RunLog(processor.Cfg(), old(processor.State()), BatchLog(records, faults))
    ensures failures == FailuresOf(records, faults)
  {
    failures := [];
    ghost var cfg, s0 := processor.Cfg(), processor.State();
    for index := 0 to |records|
      invariant FirstFault(faults, |records|) >= index
      invariant failures == []
      invariant processor.State() == RunLog(cfg, s0, AllHandled(records[..index]))
    {
      HandledKeepsValid(cfg, s0, records[..index]);
      var raised := ProcessOrRaise(processor, records[index], FaultAt(faults, index));
      OneMoreAttempt(cfg, s0, records, index, FaultAt(faults, index));
      if raised {
        assert FirstFault(faults, |records|) == index;
        failures := seq(|records| - index, i => index + i);
        return;
      }
    }
    NothingRaised(records, faults);
  }

  lemma NothingRaised(records: seq<Message>, faults: seq<Option<Fault>>)
    requires FirstFault(faults, |records|) == |records|
    ensures BatchLog(records, faults) == AllHandled(records[..|records|]) && FailuresOf(records, faults) == []
  {}

  lemma OneMoreAttempt(cfg: Config, s: SystemState, records: seq<Message>, index: nat, fault: Option<Fault>)
    requires index < |records|
    ensures var before := AllHandled(records[..index]);
            var last := AttemptsOf(records[index], fault);
            && RunLog(cfg, RunLog(cfg, s, before), last) == RunLog(cfg, s, before + last)
            && (fault == None ==> before + last == AllHandled(records[..index + 1]))
  {
    RunLogAppend(cfg, s, AllHandled(records[..index]), AttemptsOf(records[index], fault));
    OneMoreHandled(records, index);
  }

  lemma OneMoreHandled(records: seq<Message>, index: nat)
    requires index < |records|
    ensures AllHandled(records[..index]) + [Handled(records[index])] == AllHandled(records[..index + 1])
  {}

  lemma {:induction false} RunLogAppend(cfg: Config, s: SystemState, a: seq<Attempt>, b: seq<Attempt>)
    ensures RunLog(cfg, s, a + b) == RunLog(cfg, RunLog(cfg, s, a), b)
  {
    if b == [] {
      assert a + b == a;
    } else {
      RunLogAppend(cfg, s, a, b[..|b| - 1]);
      assert (a + b)[..|a + b| - 1] == a + b[..|b| - 1];
    }
  }

  lemma {:induction false} HandledKeepsValid(cfg: Config, s: SystemState, ms: seq<Message>)
    requires s.store.Valid()
    ensures RunLog(cfg, s, AllHandled(ms)).store.Valid()
  {
    if ms != [] {
      var front := ms[..|ms| - 1];
      assert AllHandled(ms)[..|front|] == AllHandled(front);
      HandledKeepsValid(cfg, s, front);
      ProcessKeepsValid(cfg, RunLog(cfg, s, AllHandled(front)), ms[|ms| - 1]);
    }
  }

  lemma ProcessKeepsValid(cfg: Config, s: SystemState, m: Message)
    requires s.store.Valid()
    ensures ProcessSpec(cfg, s, m).store.Valid()
  {
    if m.WindowClosed? {
      ConsolidateAllTouchesOnly(cfg, s, WindowGroups(s, m.watermark));
    }
  }

  // ---- Single deliveries ----------------------------------------------------

  /** Deliver: the next message is processed. Crash: its processing dies part of the way.
      Rewind: the queue resumes earlier. */
  datatype Event = Deliver | Crash(groups: nat, halfway: bool) | Rewind(position: nat)

  /** `reached` counts the sent messages that were processed at least once. */
  datatype QueueState = QueueState(next: nat, reached: nat, log: seq<Attempt>)

  function Step(sent: seq<Message>, q: QueueState, e: Event): QueueState {
    match e
    case Deliver =>
      if q.next < |sent| then
        QueueState(q.next + 1, if q.reached == q.next then q.next + 1 else q.reached, q.log + [Handled(sent[q.next])])
      else q
    case Crash(k, halfway) =>
      if q.next < |sent| && sent[q.next].WindowClosed? then
        q.(log := q.log + [Crashed(sent[q.next].watermark, k, halfway)])
      else q
    case Rewind(position) => if position <= q.next then q.(next := position) else q
  }

  function Steps(sent: seq<Message>, q: QueueState, events: seq<Event>): QueueState {
    if events == [] then q
    else Step(sent, Steps(sent, q, events[..|events| - 1]), events[|events| - 1])
  }

  /** The owed window lies ahead, at or before the first message never processed. */
  ghost predicate OwedAhead(sent: seq<Message>, q: QueueState) {
    Owed(q.log).Some? ==>
      exists i :: q.next <= i <= q.reached && i < |sent| && sent[i] == WindowClosed(Owed(q.log).value)
  }

  /** The message handled at i was sent at a, and all sent before it was handled before i. */
  ghost predicate ClosedAt(sent: seq<Message>, h: seq<Message>, i: int, a: int) {
    && 0 <= i < |h| && 0 <= a < |sent| && sent[a] == h[i]
    && forall b :: 0 <= b < a ==> sent[b] in h[..i]
  }

  ghost predicate Closed(sent: seq<Message>, h: seq<Message>, i: int) {
    exists a :: ClosedAt(sent, h, i, a)
  }

  ghost predicate PrefixClosed(sent: seq<Message>, h: seq<Message>) {
    forall i :: 0 <= i < |h| ==> Closed(sent, h, i)
  }

  ghost predicate InOrder(sent: seq<Message>, q: QueueState) {
    && q.next <= q.reached <= |sent|
    && (forall m :: m in HandledOf(q.log) <==> m in sent[..q.reached])
    && FirstDeliveries(HandledOf(q.log)) == FirstDeliveries(sent[..q.reached])
    && PrefixClosed(sent, HandledOf(q.log))
    && Redelivered(q.log)
    && OwedAhead(sent, q)
  }

  lemma HandleOneMore(sent: seq<Message>, q: QueueState)
    requires InOrder(sent, q) && q.next < |sent|
    ensures var h := HandledOf(q.log) + [sent[q.next]];
            var reached := if q.reached == q.next then q.next + 1 else q.reached;
            && (forall m :: m in h <==> m in sent[..reached])
            && FirstDeliveries(h) == FirstDeliveries(sent[..reached])
            && PrefixClosed(sent, h)
  {
    var h := HandledOf(q.log);
    var t := h + [sent[q.next]];
    assert t[..|h|] == h;
    if q.reached == q.next {
      assert sent[..q.next + 1] == sent[..q.next] + [sent[q.next]];
      assert sent[..q.next + 1][..q.next] == sent[..q.next];
    } else {
      assert sent[q.next] in sent[..q.reached];
    }
    forall i | 0 <= i < |t| ensures Closed(sent, t, i) {
      assert t[..i] == h[..i];
      if i < |h| {
        assert Closed(sent, h, i);
        var a :| ClosedAt(sent, h, i, a);
        assert ClosedAt(sent, t, i, a);
      } else {
        forall b | 0 <= b < q.next ensures sent[b] in t[..i] {
          assert sent[b] in sent[..q.reached];
        }
        assert ClosedAt(sent, t, i, q.next);
      }
    }
  }

  lemma OwedSurvivesDelivery(sent: seq<Message>, q: QueueState)
    requires InOrder(sent, q) && q.next < |sent|
    ensures MayFollow(q.log, Handled(sent[q.next]))
    ensures OwedAhead(sent, Step(sent, q, Deliver))
  {
    var t := Step(sent, q, Deliver);
    assert t.log[..|q.log|] == q.log;
    if Owed(q.log).Some? {
      var i :| q.next <= i <= q.reached && i < |sent| && sent[i] == WindowClosed(Owed(q.log).value);
      if q.next < i { assert sent[q.next] in sent[..q.reached]; }
    }
  }

  lemma OwedSurvivesCrash(sent: seq<Message>, q: QueueState, k: nat, halfway: bool)
    requires InOrder(sent, q) && q.next < |sent| && sent[q.next].WindowClosed?
    ensures MayFollow(q.log, Crashed(sent[q.next].watermark, k, halfway))
    ensures OwedAhead(sent, Step(sent, q, Crash(k, halfway)))
  {
    var t := Step(sent, q, Crash(k, halfway));
    assert t.log[..|q.log|] == q.log;
    if Owed(q.log).Some? {
      var i :| q.next <= i <= q.reached && i < |sent| && sent[i] == WindowClosed(Owed(q.log).value);
      if q.next < i { assert sent[q.next] in sent[..q.reached]; }
    } else {
      assert sent[q.next] == WindowClosed(Owed(t.log).value);
    }
  }

  lemma DeliveryKeepsOrder(sent: seq<Message>, q: QueueState)
    requires InOrder(sent, q) && q.next < |sent|
    ensures InOrder(sent, Step(sent, q, Deliver))
  {
    assert Step(sent, q, Deliver).log[..|q.log|] == q.log;
    HandleOneMore(sent, q);
    OwedSurvivesDelivery(sent, q);
  }

  lemma CrashKeepsOrder(sent: seq<Message>, q: QueueState, k: nat, halfway: bool)
    requires InOrder(sent, q) && q.next < |sent| && sent[q.next].WindowClosed?
    ensures InOrder(sent, Step(sent, q, Crash(k, halfway)))
  {
    assert Step(sent, q, Crash(k, halfway)).log[..|q.log|] == q.log;
    OwedSurvivesCrash(sent, q, k, halfway);
  }

  lemma RewindKeepsOrder(sent: seq<Message>, q: QueueState, position: nat)
    requires InOrder(sent, q) && position <= q.next
    ensures InOrder(sent, Step(sent, q, Rewind(position)))
  {
    if Owed(q.log).Some? {
      var i :| q.next <= i <= q.reached && i < |sent| && sent[i] == WindowClosed(Owed(q.log).value);
      assert position <= i;
    }
  }

  lemma StepKeepsOrder(sent: seq<Message>, q: QueueState, e: Event)
    requires InOrder(sent, q)
    ensures InOrder(sent, Step(sent, q, e))
  {
    if Step(sent, q, e) != q {
      match e
      case Deliver => DeliveryKeepsOrder(sent, q);
      case Crash(k, halfway) => CrashKeepsOrder(sent, q, k, halfway);
      case Rewind(position) => RewindKeepsOrder(sent, q, position);
    }
  }

  lemma {:induction false} StepsKeepOrder(sent: seq<Message>, q: QueueState, events: seq<Event>)
    requires InOrder(sent, q)
    ensures InOrder(sent, Steps(sent, q, events))
  {
    if events != [] {
      StepsKeepOrder(sent, q, events[..|events| - 1]);
      StepKeepsOrder(sent, Steps(sent, q, events[..|events| - 1]), events[|events| - 1]);
    }
  }

  // ---- The queue under failing batches ----------------------------------------

  /** Batch: the handler gets the first messages of the queue. An answered batch removes the
      messages not reported as failures; an unanswered one (killed, or its answer lost)
      removes none. Resume: messages already removed come back. */
  datatype Invocation = Batch(size: nat, faults: seq<Option<Fault>>, answered: bool) | Resume(position: nat)

  /** What is still to be delivered, and what the handler has done so far. */
  datatype Queue = Queue(messages: seq<Message>, log: seq<Attempt>)

  function Taken(messages: seq<Message>, size: nat): seq<Message> {
    if size <= |messages| then messages[..size] else messages
  }

  function Pick(records: seq<Message>, indices: seq<nat>): seq<Message>
    requires forall i :: 0 <= i < |indices| ==> indices[i] < |records|
  {
    seq(|indices|, i requires 0 <= i < |indices| => records[indices[i]])
  }

  function Invoke(sent: seq<Message>, q: Queue, e: Invocation): Queue {
    match e
    case Batch(size, faults, answered) =>
      var records := Taken(q.messages, size);
      var kept := if answered then Pick(records, FailuresOf(records, faults)) else records;
      Queue(kept + q.messages[|records|..], q.log + BatchLog(records, faults))
    case Resume(position) =>
      if position + |q.messages| <= |sent| then q.(messages := sent[position..]) else q
  }

  function Invoked(sent: seq<Message>, events: seq<Invocation>): Queue {
    if events == [] then Queue(sent, [])
    else Invoke(sent, Invoked(sent, events[..|events| - 1]), events[|events| - 1])
  }

  /** The runbook and window state the handler's batches leave, one after the other. */
  ghost function SystemAfter(cfg: Config, s: SystemState, sent: seq<Message>, events: seq<Invocation>): SystemState {
    if events == [] then s
    else
      var front := events[..|events| - 1];
      var before := SystemAfter(cfg, s, sent, front);
      match events[|events| - 1]
      case Batch(size, faults, _) => RunLog(cfg, before, BatchLog(Taken(Invoked(sent, front).messages, size), faults))
      case Resume(_) => before
  }

  lemma {:induction false} SystemFollowsLog(cfg: Config, s: SystemState, sent: seq<Message>, events: seq<Invocation>)
    ensures SystemAfter(cfg, s, sent, events) == RunLog(cfg, s, Invoked(sent, events).log)
  {
    if events != [] {
      var front := events[..|events| - 1];
      SystemFollowsLog(cfg, s, sent, front);
      if events[|events| - 1].Batch? {
        var e := events[|events| - 1];
        RunLogAppend(cfg, s, Invoked(sent, front).log, BatchLog(Taken(Invoked(sent, front).messages, e.size), e.faults));
      }
    }
  }

  /** The queue holds the messages from q.next on, and the handler's log is q's. */
  ghost predicate Matches(sent: seq<Message>, b: Queue, q: QueueState) {
    && q.next <= |sent|
    && b.messages == sent[q.next..]
    && b.log == q.log
  }

  lemma {:induction false} DeliverMany(sent: seq<Message>, q: QueueState, n: nat)
    requires q.next + n <= |sent|
    ensures var t := Steps(sent, q, seq(n, _ => Deliver));
            t.next == q.next + n && t.log == q.log + AllHandled(sent[q.next..q.next + n])
  {
    var events := seq(n, _ => Deliver);
    if n == 0 {
      assert q.log + AllHandled(sent[q.next..q.next]) == q.log;
    } else {
      assert events[..n - 1] == seq(n - 1, _ => Deliver);
      DeliverMany(sent, q, n - 1);
      assert AllHandled(sent[q.next..q.next + n]) ==
             AllHandled(sent[q.next..q.next + n - 1]) + [Handled(sent[q.next + n - 1])];
    }
  }

  /** The record that raises, as single deliveries. */
  function FaultEvents(m: Message, fault: Option<Fault>): seq<Event> {
    match fault
    case Some(Inside(k, halfway)) => if m.WindowClosed? then [Crash(k, halfway)] else []
    case Some(AtEnd) => [Deliver]
    case _ => []
  }

  lemma FaultIsEvents(sent: seq<Message>, q: QueueState, fault: Option<Fault>)
    requires q.next < |sent| && fault.Some?
    ensures var t := Steps(sent, q, FaultEvents(sent[q.next], fault));
            q.next <= t.next && t.log == q.log + AttemptsOf(sent[q.next], fault)
  {
    var events := FaultEvents(sent[q.next], fault);
    assert q.log + [] == q.log;
    assert events != [] ==> Steps(sent, q, events[..|events| - 1]) == q;
  }

  lemma {:induction false} StepsAppend(sent: seq<Message>, q: QueueState, a: seq<Event>, b: seq<Event>)
    ensures Steps(sent, q, a + b) == Steps(sent, Steps(sent, q, a), b)
  {
    if b == [] {
      assert a + b == a;
    } else {
      StepsAppend(sent, q, a, b[..|b| - 1]);
      assert (a + b)[..|a + b| - 1] == a + b[..|b| - 1];
    }
  }

  lemma PrefixIsEvents(sent: seq<Message>, q: QueueState, records: seq<Message>, f: nat)
    requires f <= |records| && q.next + |records| <= |sent| && records == sent[q.next..q.next + |records|]
    ensures var t := Steps(sent, q, seq(f, _ => Deliver));
            t.next == q.next + f && t.log == q.log + AllHandled(records[..f])
  {
    DeliverMany(sent, q, f);
    assert records[..f] == sent[q.next..q.next + f];
  }

  /** What a batch does, as single deliveries, before the queue moves on. */
  lemma BatchLogIsEvents(sent: seq<Message>, q: QueueState, records: seq<Message>, faults: seq<Option<Fault>>)
    returns (events: seq<Event>)
    requires q.next + |records| <= |sent| && records == sent[q.next..q.next + |records|]
    ensures var t := Steps(sent, q, events);
            q.next + FirstFault(faults, |records|) <= t.next && t.log == q.log + BatchLog(records, faults)
  {
    var f := FirstFault(faults, |records|);
    events := seq(f, _ => Deliver);
    PrefixIsEvents(sent, q, records, f);
    if f < |records| {
      events := FaultyIsEvents(sent, q, events, records[f], FaultAt(faults, f));
      Regroups(q.log, AllHandled(records[..f]), AttemptsOf(records[f], FaultAt(faults, f)));
    } else {
      NothingRaised(records, faults);
    }
  }

  lemma FaultyIsEvents(sent: seq<Message>, q: QueueState, front: seq<Event>, m: Message, fault: Option<Fault>)
    returns (events: seq<Event>)
    requires fault.Some?
    requires var t := Steps(sent, q, front); t.next < |sent| && sent[t.next] == m
    ensures var t := Steps(sent, q, front);
            var u := Steps(sent, q, events);
            t.next <= u.next && u.log == t.log + AttemptsOf(m, fault)
  {
    events := front + FaultEvents(m, fault);
    FaultIsEvents(sent, Steps(sent, q, front), fault);
    StepsAppend(sent, q, front, FaultEvents(m, fault));
  }

  lemma Regroups<T>(a: seq<T>, b: seq<T>, c: seq<T>)
    ensures a + b + c == a + (b + c)
  {}

  lemma ReportedIsTheRest(records: seq<Message>, faults: seq<Option<Fault>>)
    ensures Pick(records, FailuresOf(records, faults)) == records[FirstFault(faults, |records|)..]
  {}

  lemma BatchIsEvents(sent: seq<Message>, b: Queue, q: QueueState, records: seq<Message>, faults: seq<Option<Fault>>, next: nat)
    returns (events: seq<Event>)
    requires Matches(sent, b, q) && records <= b.messages
    requires q.next <= next <= q.next + FirstFault(faults, |records|)
    ensures Matches(sent, Queue(sent[next..], b.log + BatchLog(records, faults)), Steps(sent, q, events))
  {
    events := BatchLogIsEvents(sent, q, records, faults);
    StepsAppend(sent, q, events, [Rewind(next)]);
    RewindOnce(sent, Steps(sent, q, events), next);
    events := events + [Rewind(next)];
  }

  lemma LeftAfterBatch(sent: seq<Message>, b: Queue, q: QueueState, e: Invocation)
    requires Matches(sent, b, q) && e.Batch?
    ensures var records := Taken(b.messages, e.size);
            var next := q.next + if e.answered then FirstFault(e.faults, |records|) else 0;
            records <= b.messages && Invoke(sent, b, e) == Queue(sent[next..], b.log + BatchLog(records, e.faults))
  {
    ReportedIsTheRest(Taken(b.messages, e.size), e.faults);
  }

  /** Every invocation is a sequence of single deliveries, crashes and rewinds: the handler
      stops at the first failure, so reporting it and all later records loses nothing and
      overtakes nothing. */
  lemma InvocationIsEvents(sent: seq<Message>, b: Queue, q: QueueState, e: Invocation) returns (events: seq<Event>)
    requires Matches(sent, b, q)
    ensures Matches(sent, Invoke(sent, b, e), Steps(sent, q, events))
  {
    match e
    case Batch(size, faults, answered) =>
      var records := Taken(b.messages, size);
      LeftAfterBatch(sent, b, q, e);
      events := BatchIsEvents(sent, b, q, records, faults, q.next + if answered then FirstFault(faults, |records|) else 0);
    case Resume(position) =>
      events := [];
      if position <= q.next {
        events := [Rewind(position)];
        RewindOnce(sent, q, position);
      }
  }

  lemma RewindOnce(sent: seq<Message>, q: QueueState, next: nat)
    ensures Steps(sent, q, [Rewind(next)]) == Step(sent, q, Rewind(next))
  {
    assert [Rewind(next)][..0] == [];
  }

  /** The messages whose processing succeeded are, first deliveries only, an in-order prefix
      of what was sent; the queue still holds everything after it. */
  ghost predicate PrefixProcessed(sent: seq<Message>, b: Queue) {
    exists q :: Matches(sent, b, q) && InOrder(sent, q)
  }

  /** Whatever fails, however the batches are cut and whichever answers are lost. */
  lemma {:induction false} ProcessedIsAPrefix(sent: seq<Message>, events: seq<Invocation>)
    ensures PrefixProcessed(sent, Invoked(sent, events))
  {
    if events == [] {
      var q := QueueState(0, 0, []);
      assert sent[..0] == [] && sent[0..] == sent;
      assert Matches(sent, Invoked(sent, events), q) && InOrder(sent, q);
    } else {
      var front := events[..|events| - 1];
      ProcessedIsAPrefix(sent, front);
      var q :| Matches(sent, Invoked(sent, front), q) && InOrder(sent, q);
      var steps := InvocationIsEvents(sent, Invoked(sent, front), q, events[|events| - 1]);
      StepsKeepOrder(sent, q, steps);
    }
  }

  lemma PrefixClosedIsTimely(sent: seq<Message>, h: seq<Message>)
    requires Timely(sent) && PrefixClosed(sent, h)
    ensures Timely(h)
  {
    forall i, j | (0 <= i < j < |h| && h[i].WindowClosed? && h[j].Row? && h[j].event.updatedAt <= h[i].watermark)
      ensures h[j] in h[..i]
    {
      assert Closed(sent, h, i) && Closed(sent, h, j);
      var a :| ClosedAt(sent, h, i, a);
      var b :| ClosedAt(sent, h, j, b);
      if a < b {
        assert sent[b] in sent[..a];
        var c :| 0 <= c < a && sent[c] == sent[b];
        assert sent[c] in h[..i];
      } else {
        assert a != b;
        assert sent[b] in h[..i];
      }
    }
  }

  /** The whole path: a changefeed sent through the queue, with failed batches, killed
      batches, lost answers and crashes inside windows, ends, once the queue is empty, in the
      state of one clean pass over the distinct messages. */
  lemma DrainedQueueIsExactlyOnce(cfg: Config, repo: RepoState, sent: seq<Message>, events: seq<Invocation>)
    requires RowsAgree(sent) && OneSided(sent) && Timely(sent)
    requires Invoked(sent, events).messages == []
    ensures SystemAfter(cfg, Start(repo), sent, events) == Run(cfg, Start(repo), FirstDeliveries(sent))
  {
    ProcessedIsAPrefix(sent, events);
    var q :| Matches(sent, Invoked(sent, events), q) && InOrder(sent, q);
    assert |sent[q.next..]| == 0;
    SystemFollowsLog(cfg, Start(repo), sent, events);
    DrainedLogIsClean(cfg, repo, sent, q);
  }

  lemma DrainedLogIsClean(cfg: Config, repo: RepoState, sent: seq<Message>, q: QueueState)
    requires RowsAgree(sent) && OneSided(sent) && Timely(sent)
    requires InOrder(sent, q) && q.next == |sent|
    ensures RunLog(cfg, Start(repo), q.log) == Run(cfg, Start(repo), FirstDeliveries(sent))
  {
    assert sent[..q.reached] == sent;
    assert Owed(q.log) == None;
    PrefixClosedIsTimely(sent, HandledOf(q.log));
    assert Rows(HandledOf(q.log)) == Rows(sent) && Windows(HandledOf(q.log)) == Windows(sent);
    OneSidedIsSteady(HandledOf(q.log));
    CrashesAndRedeliveriesAreInvisible(cfg, repo, q.log);
  }
}
