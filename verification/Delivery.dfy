/** At-least-once delivery with exactly-once effect: what the pending buffer, the grouping
    and the processor guarantee together over whole delivery traces. */
module Delivery {
  import opened Contracts
  import opened Sorting
  import opened Grouping
  import opened WindowStore
  import opened RunbookRepository
  import opened Pipeline

  ghost function Run(cfg: Config, s: SystemState, trace: seq<Message>): SystemState {
    if trace == [] then s
    else ProcessSpec(cfg, Run(cfg, s, trace[..|trace| - 1]), trace[|trace| - 1])
  }

  /** An empty buffer beside any repository. */
  function Start(repo: RepoState): SystemState { SystemState(EMPTY, repo) }

  // ---- What closing a window does to the buffer ---------------------------

  /** The waiting rows of incident k at or before w. */
  ghost function At(pending: map<DedupId, ChangeEvent>, k: IncidentKey, w: int): set<ChangeEvent> {
    set d | d in pending && pending[d].updatedAt <= w && pending[d].Incident() == k :: pending[d]
  }

  ghost predicate Leaves(pending: map<DedupId, ChangeEvent>, e: ChangeEvent, w: int) {
    e.updatedAt <= w && Complete(At(pending, e.Incident(), w))
  }

  ghost function Leaving(pending: map<DedupId, ChangeEvent>, w: int): set<DedupId> {
    set d | d in pending && Leaves(pending, pending[d], w)
  }

  /** An event id belongs to one incident. */
  ghost predicate IdsAgree(events: set<ChangeEvent>) {
    forall a, b :: a in events && b in events && a.eventId == b.eventId ==> a.Incident() == b.Incident()
  }

  lemma WindowOfBuffer(s: StoreState, w: int)
    requires s.Valid()
    ensures var events := ReadSpec(s.pending, w);
            && Ordered(ByUpdate, events)
            && (forall e :: e in events <==> e in s.pending.Values && e.updatedAt <= w)
            && Coherent(set e | e in events)
            && forall k :: RowsOf(events, k) == At(s.pending, k, w)
  {
    WindowMembers(s, w);
    forall k ensures RowsOf(ReadSpec(s.pending, w), k) == At(s.pending, k, w) { RowsOfWindow(s, w, k); }
  }

  lemma WindowMembers(s: StoreState, w: int)
    requires s.Valid()
    ensures var events := ReadSpec(s.pending, w);
            && Ordered(ByUpdate, events)
            && (forall e :: e in events <==> e in s.pending.Values && e.updatedAt <= w)
            && Coherent(set e | e in events)
  {
    OrdersAreTotal();
    SortedSetMembers(ByUpdate, Through(s.pending, w));
  }

  lemma RowsOfWindow(s: StoreState, w: int, k: IncidentKey)
    requires s.Valid()
    ensures RowsOf(ReadSpec(s.pending, w), k) == At(s.pending, k, w)
  {
    WindowMembers(s, w);
  }

  lemma GroupedIds(s: StoreState, w: int)
    requires s.Valid() && IdsAgree(s.pending.Values)
    ensures var events := ReadSpec(s.pending, w);
            forall e :: e in events ==> (e.eventId in EpisodeIds(Groups(events)) <==> Leaves(s.pending, e, w))
  {
    var events := ReadSpec(s.pending, w);
    WindowOfBuffer(s, w);
    GroupsHoldTheirRows(events);
    EpisodeIdsMembers(Groups(events));
    forall e | e in events
      ensures e.eventId in EpisodeIds(Groups(events)) <==> Leaves(s.pending, e, w)
    {
      if e.eventId in EpisodeIds(Groups(events)) {
        var g, f :| g in Groups(events) && f in g.episodes && f.eventId == e.eventId;
        assert f in events && f in s.pending.Values && e in s.pending.Values;
        assert RowsOf(events, g.Incident()) == At(s.pending, e.Incident(), w);
      }
      if Leaves(s.pending, e, w) {
        assert Complete(RowsOf(events, e.Incident()));
        var g :| g in Groups(events) && g.Incident() == e.Incident();
        assert e in g.episodes;
      }
    }
  }

  /** Rows leave the buffer a whole incident at a time: exactly the waiting rows, at or
      before the watermark, of the incidents whose last outcome is known. */
  lemma ClosingMovesWholeIncidents(cfg: Config, s: SystemState, w: int)
    requires s.store.Valid() && IdsAgree(s.store.pending.Values)
    ensures var t := CloseSpec(cfg, s, w);
            && t.store.pending == s.store.pending - Leaving(s.store.pending, w)
            && t.store.processed == s.store.processed + Leaving(s.store.pending, w)
            && t.store.watermark == Some(Advance(s.store.watermark, w))
            && t.store.Valid()
  {
    var events := ReadSpec(s.store.pending, w);
    var groups := Groups(events);
    WindowOfBuffer(s.store, w);
    GroupedIds(s.store, w);
    ConsolidateAllTouchesOnly(cfg, s, groups);
    var out := WithIds(events, EpisodeIds(groups));
    WithIdsMembers(events, EpisodeIds(groups));
    assert DedupIds(out) == Leaving(s.store.pending, w) by {
      forall d | d in DedupIds(out) ensures d in Leaving(s.store.pending, w) {
        var e :| e in out && e.Dedup() == d;
        assert e in events;
      }
      forall d | d in Leaving(s.store.pending, w) ensures d in DedupIds(out) {
        assert s.store.pending[d] in events;
        assert s.store.pending[d] in out;
      }
    }
  }

  lemma NoGroups(s: StoreState, w: int)
    requires s.Valid()
    requires forall k :: !Complete(At(s.pending, k, w))
    ensures Groups(ReadSpec(s.pending, w)) == []
  {
    WindowOfBuffer(s, w);
    GroupsHoldTheirRows(ReadSpec(s.pending, w));
    HasMember(Groups(ReadSpec(s.pending, w)));
  }

  /** A window in which no incident is complete moves nothing but the watermark. */
  lemma QuietWindow(cfg: Config, s: SystemState, w: int)
    requires s.store.Valid() && IdsAgree(s.store.pending.Values)
    requires forall k :: !Complete(At(s.store.pending, k, w))
    ensures CloseSpec(cfg, s, w) == s.(store := s.store.(watermark := Some(Advance(s.store.watermark, w))))
    ensures Groups(ReadSpec(s.store.pending, w)) == []
  {
    NoGroups(s.store, w);
    EmptyCloseMovesNothing(cfg, s, w);
  }

  lemma EmptyCloseMovesNothing(cfg: Config, s: SystemState, w: int)
    requires Groups(ReadSpec(s.store.pending, w)) == []
    ensures CloseSpec(cfg, s, w) == s.(store := s.store.(watermark := Some(Advance(s.store.watermark, w))))
  {
    NoIdsSelectNothing(ReadSpec(s.store.pending, w));
    MarkingNothing(s.store, w);
  }

  lemma NoIdsSelectNothing(events: seq<ChangeEvent>)
    ensures WithIds(events, {}) == []
  {
    WithIdsMembers(events, {});
    HasMember(WithIds(events, {}));
  }

  lemma MarkingNothing(s: StoreState, w: int)
    ensures MarkSpec(s, [], w) == s.(watermark := Some(Advance(s.watermark, w)))
  {
    assert DedupIds([]) == {};
    assert s.pending - {} == s.pending;
  }

  // ---- Delivery traces ----------------------------------------------------

  ghost function Rows(trace: seq<Message>): set<ChangeEvent> {
    set m | m in trace && m.Row? :: m.event
  }

  ghost function Windows(trace: seq<Message>): set<int> {
    set m | m in trace && m.WindowClosed? :: m.watermark
  }

  /** A row version is one row, and a row id belongs to one incident. */
  ghost predicate RowsAgree(trace: seq<Message>) {
    Coherent(Rows(trace)) && IdsAgree(Rows(trace))
  }

  /** The highest window so far is the epoch itself. */
  ghost predicate ZeroStands(trace: seq<Message>) {
    0 in Windows(trace) && forall w :: w in Windows(trace) ==> w <= 0
  }

  /** No window before the epoch arrives while the epoch is the highest one: always so for
      real change timestamps, which are positive. */
  ghost predicate Steady(trace: seq<Message>) {
    forall j :: 0 <= j < |trace| ==> SteadyAt(trace, j)
  }

  ghost predicate SteadyAt(trace: seq<Message>, j: nat)
    requires j < |trace|
  {
    trace[j].WindowClosed? && trace[j].watermark < 0 ==> !ZeroStands(trace[..j])
  }

  /** What a changefeed delivers. */
  ghost predicate WellFormed(trace: seq<Message>) {
    RowsAgree(trace) && Steady(trace)
  }

  lemma SteadyOneMore(front: seq<Message>, m: Message)
    ensures Steady(front + [m]) <==>
              Steady(front) && !(m.WindowClosed? && m.watermark < 0 && ZeroStands(front))
  {
    var trace := front + [m];
    assert trace[..|front|] == front;
    forall j | 0 <= j < |front| ensures SteadyAt(trace, j) <==> SteadyAt(front, j) {
      assert trace[..j] == front[..j];
    }
    if Steady(trace) {
      forall j | 0 <= j < |front| ensures SteadyAt(front, j) { assert SteadyAt(trace, j); }
      assert SteadyAt(trace, |front|);
    }
  }

  /** Without both signs around the epoch, every order of the messages is steady. */
  ghost predicate OneSided(trace: seq<Message>) {
    0 in Windows(trace) ==> forall w :: w in Windows(trace) ==> w >= 0
  }

  lemma OneSidedIsSteady(trace: seq<Message>)
    requires OneSided(trace)
    ensures Steady(trace)
  {
    forall j | 0 <= j < |trace| ensures SteadyAt(trace, j) {
      assert Windows(trace[..j]) <= Windows(trace);
      assert trace[j].WindowClosed? ==> trace[j].watermark in Windows(trace);
    }
  }

  /** A resolved timestamp is honest: no row at or before it is first delivered after it. */
  ghost predicate Timely(trace: seq<Message>) {
    forall i, j :: (0 <= i < j < |trace| && trace[i].WindowClosed? && trace[j].Row?
                    && trace[j].event.updatedAt <= trace[i].watermark) ==> trace[j] in trace[..i]
  }

  /** Each delivered row is waiting or done, never both, and nothing else is held. */
  ghost predicate Conserved(s: StoreState, trace: seq<Message>) {
    && s.Valid()
    && s.pending.Values <= Rows(trace)
    && (forall e :: e in Rows(trace) ==> (e.Dedup() in s.processed || (e.Dedup() in s.pending && s.pending[e.Dedup()] == e)))
    && (forall d :: d in s.processed ==> exists e :: e in Rows(trace) && e.Dedup() == d)
  }

  /** A window that was closed once holds no complete incident any more. */
  ghost predicate Quiet(s: StoreState, trace: seq<Message>) {
    forall w, k :: w in Windows(trace) ==> !Complete(At(s.pending, k, w))
  }

  ghost predicate Caught(s: StoreState, trace: seq<Message>) {
    && (forall w :: w in Windows(trace) ==> s.watermark.Some? && s.watermark.value >= w)
    && (s.watermark.Some? ==> s.watermark.value in Windows(trace))
  }

  lemma PrefixFacts(trace: seq<Message>)
    requires trace != []
    ensures var front := trace[..|trace| - 1];
            var last := trace[|trace| - 1];
            && Rows(trace) == Rows(front) + (if last.Row? then {last.event} else {})
            && Windows(trace) == Windows(front) + (if last.WindowClosed? then {last.watermark} else {})
            && (WellFormed(trace) ==> WellFormed(front))
            && (Timely(trace) ==> Timely(front))
  {
    var n := |trace| - 1;
    var front := trace[..n];
    assert trace == front + [trace[n]];
    assert forall m :: m in trace <==> m in front || m == trace[n];
    SteadyOneMore(front, trace[n]);
    if Timely(trace) {
      forall i, j | 0 <= i < j < |front| && front[i].WindowClosed? && front[j].Row?
                    && front[j].event.updatedAt <= front[i].watermark
        ensures front[j] in front[..i]
      {
        assert trace[j] in trace[..i];
        assert trace[..i] == front[..i];
      }
    }
  }

  /** Two complete halves make a complete whole: the later of their last outcomes decides. */
  lemma CompleteUnion(a: set<ChangeEvent>, b: set<ChangeEvent>)
    requires Complete(a) && Complete(b)
    ensures Complete(a + b)
  {
    var m :| IsLastOutcome(m, a) && Recognised(m.outcomeLabel).Some?;
    var n :| IsLastOutcome(n, b) && Recognised(n.outcomeLabel).Some?;
    OrdersAreTotal();
    var later := if ByEpisode(m, n) then n else m;
    forall e | e in a + b && IsOutcome(e) ensures ByEpisode(e, later) {
      assert ByEpisode(e, m) || ByEpisode(e, n);
    }
    assert IsLastOutcome(later, a + b);
  }

  lemma EmptyIsIncomplete()
    ensures !Complete({})
  {}

  /** Closing w2 does not complete, in a window closed before or now, what it leaves there. */
  lemma ClosingKeepsQuiet(pending: map<DedupId, ChangeEvent>, w2: int, k: IncidentKey, w: int)
    requires w == w2 || !Complete(At(pending, k, w))
    ensures !Complete(At(pending - Leaving(pending, w2), k, w))
  {
    var before := At(pending, k, w);
    var gone := At(pending, k, w2);
    var kept := pending - Leaving(pending, w2);
    var after := At(kept, k, w);
    if Complete(gone) {
      forall e | e in after ensures e in before && e !in gone {
        var d :| d in kept && kept[d] == e && pending[d] == e;
        assert gone == At(pending, e.Incident(), w2);
        assert d !in Leaving(pending, w2);
        assert Leaves(pending, e, w2) <==> e.updatedAt <= w2;
      }
      if w <= w2 {
        forall e | e in before ensures e in gone {}
        assert after == {};
        EmptyIsIncomplete();
      } else {
        assert before == gone + after by {
          forall e | e in before ensures e in gone + after {
            var d :| d in pending && pending[d] == e && pending[d].Incident() == k;
            if e !in gone { assert d in kept && kept[d] == e; }
          }
        }
        if Complete(after) { CompleteUnion(gone, after); }
      }
    } else {
      assert after == before by {
        forall e | e in before ensures e in after {
          var d :| d in pending && pending[d] == e && pending[d].Incident() == k;
          assert gone == At(pending, e.Incident(), w2);
          assert d in kept && kept[d] == e;
        }
      }
    }
  }

  ghost predicate Invariant(s: StoreState, trace: seq<Message>) {
    Conserved(s, trace) && Quiet(s, trace) && Caught(s, trace)
  }

  lemma RowStep(s: StoreState, front: seq<Message>, trace: seq<Message>, e: ChangeEvent)
    requires trace == front + [Row(e)]
    requires WellFormed(trace) && Timely(trace)
    requires Invariant(s, front)
    ensures Invariant(PutSpec(s, e), trace)
  {
    PrefixFacts(trace);
    assert trace[..|trace| - 1] == front;
    RowStaysConserved(s, front, trace, e);
    RowStaysQuiet(s, front, e);
  }

  lemma RowStaysConserved(s: StoreState, front: seq<Message>, trace: seq<Message>, e: ChangeEvent)
    requires Conserved(s, front) && Rows(trace) == Rows(front) + {e} && Coherent(Rows(trace))
    ensures Conserved(PutSpec(s, e), trace)
  {}

  lemma RowStaysQuiet(s: StoreState, front: seq<Message>, e: ChangeEvent)
    requires Timely(front + [Row(e)]) && Coherent(Rows(front) + {e})
    requires Conserved(s, front) && Quiet(s, front)
    ensures forall w, k :: w in Windows(front) ==> !Complete(At(PutSpec(s, e).pending, k, w))
  {
    forall w, k | w in Windows(front) ensures !Complete(At(PutSpec(s, e).pending, k, w)) {
      if e.updatedAt <= w {
        var i :| 0 <= i < |front| && front[i] == WindowClosed(w);
        EarlyRowIsOld(front, e, i);
        OldRowIsIgnored(s, front, e);
      } else {
        LateRowIsOutside(s, e, k, w);
      }
    }
  }

  lemma OldRowIsIgnored(s: StoreState, front: seq<Message>, e: ChangeEvent)
    requires Conserved(s, front) && Row(e) in front
    ensures PutSpec(s, e).pending == s.pending
  {
    assert e in Rows(front);
  }

  lemma LateRowIsOutside(s: StoreState, e: ChangeEvent, k: IncidentKey, w: int)
    requires s.Valid() && w < e.updatedAt
    ensures At(PutSpec(s, e).pending, k, w) == At(s.pending, k, w)
  {
    var t := PutSpec(s, e);
    forall f | f in At(s.pending, k, w) ensures f in At(t.pending, k, w) {
      var d :| d in s.pending && s.pending[d] == f && f.updatedAt <= w && f.Incident() == k;
      assert f.Dedup() == d && d != e.Dedup();
      assert d in t.pending && t.pending[d] == f;
    }
  }

  lemma EarlyRowIsOld(front: seq<Message>, e: ChangeEvent, i: nat)
    requires Timely(front + [Row(e)])
    requires i < |front| && front[i].WindowClosed? && e.updatedAt <= front[i].watermark
    ensures Row(e) in front
  {
    var trace := front + [Row(e)];
    assert trace[i] == front[i] && trace[|front|] == Row(e);
    assert trace[..i] == front[..i];
  }

  lemma StillCaught(s: StoreState, front: seq<Message>, trace: seq<Message>, w: int)
    requires Caught(s, front) && Windows(trace) == Windows(front) + {w}
    requires w < 0 ==> !ZeroStands(front)
    ensures Caught(s.(watermark := Some(Advance(s.watermark, w))), trace)
  {}

  lemma CloseStep(s: StoreState, front: seq<Message>, trace: seq<Message>, w2: int, t: StoreState)
    requires trace == front + [WindowClosed(w2)]
    requires WellFormed(trace)
    requires Invariant(s, front)
    requires t.pending == s.pending - Leaving(s.pending, w2)
    requires t.processed == s.processed + Leaving(s.pending, w2)
    requires t.watermark == Some(Advance(s.watermark, w2))
    ensures Invariant(t, trace)
  {
    PrefixFacts(trace);
    assert trace[..|trace| - 1] == front;
    SteadyOneMore(front, WindowClosed(w2));
    StillCaught(s, front, trace, w2);
    forall w, k | w in Windows(trace) ensures !Complete(At(t.pending, k, w)) {
      ClosingKeepsQuiet(s.pending, w2, k, w);
    }
    forall d | d in t.processed ensures exists e :: e in Rows(trace) && e.Dedup() == d {
      if d !in s.processed { assert s.pending[d] in Rows(trace); }
    }
  }

  /** The invariant of every reachable state. */
  lemma {:induction false} Reachable(cfg: Config, repo: RepoState, trace: seq<Message>)
    requires WellFormed(trace) && Timely(trace)
    ensures Invariant(Run(cfg, Start(repo), trace).store, trace)
  {
    if trace == [] {
      assert Rows(trace) == {} && Windows(trace) == {};
    } else {
      var front := trace[..|trace| - 1];
      var last := trace[|trace| - 1];
      assert trace == front + [last];
      PrefixFacts(trace);
      Reachable(cfg, repo, front);
      var s := Run(cfg, Start(repo), front);
      if last.Row? {
        RowStep(s.store, front, trace, last.event);
      } else {
        IdsStillAgree(s.store, front);
        ClosingMovesWholeIncidents(cfg, s, last.watermark);
        CloseStep(s.store, front, trace, last.watermark, CloseSpec(cfg, s, last.watermark).store);
      }
    }
  }

  lemma IdsStillAgree(s: StoreState, trace: seq<Message>)
    requires RowsAgree(trace) && Conserved(s, trace)
    ensures IdsAgree(s.pending.Values)
  {}

  // ---- At-least-once equals exactly-once ----------------------------------

  /** A message the buffer has seen moves at most the watermark, whatever the repository holds. */
  lemma KnownMessage(cfg: Config, s: SystemState, trace: seq<Message>, m: Message)
    requires RowsAgree(trace) && Invariant(s.store, trace)
    requires m in trace
    ensures m.Row? ==> ProcessSpec(cfg, s, m) == s
    ensures m.WindowClosed? ==>
              && Groups(ReadSpec(s.store.pending, m.watermark)) == []
              && ProcessSpec(cfg, s, m) == s.(store := s.store.(watermark := Some(Advance(s.store.watermark, m.watermark))))
  {
    match m
    case Row(e) =>
      assert e in Rows(trace);
      if e.Dedup() in s.store.pending {
        assert s.store.pending[e.Dedup() := e] == s.store.pending;
      }
    case WindowClosed(w) =>
      assert w in Windows(trace);
      IdsStillAgree(s.store, trace);
      QuietWindow(cfg, s, w);
  }

  lemma ZeroIsStored(s: StoreState, trace: seq<Message>)
    requires Caught(s, trace)
    ensures s.watermark == Some(0) <==> ZeroStands(trace)
  {}

  lemma KnownWatermark(s: StoreState, trace: seq<Message>, w: int)
    requires Caught(s, trace) && w in Windows(trace)
    ensures Some(Advance(s.watermark, w)) == s.watermark <==> !(w < 0 && ZeroStands(trace))
  {
    ZeroIsStored(s, trace);
  }

  /** Delivering again what was delivered before changes nothing at all, except exactly when a
      window before the epoch meets a stored watermark of zero. */
  lemma RedeliveryIsInvisibleIff(cfg: Config, repo: RepoState, trace: seq<Message>, m: Message)
    requires WellFormed(trace) && Timely(trace)
    requires m in trace
    ensures ProcessSpec(cfg, Run(cfg, Start(repo), trace), m) == Run(cfg, Start(repo), trace) <==> Steady(trace + [m])
  {
    Reachable(cfg, repo, trace);
    var s := Run(cfg, Start(repo), trace);
    KnownMessage(cfg, s, trace, m);
    SteadyOneMore(trace, m);
    if m.WindowClosed? {
      assert m.watermark in Windows(trace);
      KnownWatermark(s.store, trace, m.watermark);
    }
  }

  /** The trace with every repeated message dropped. */
  function FirstDeliveries(trace: seq<Message>): seq<Message> {
    if trace == [] then []
    else
      var front := trace[..|trace| - 1];
      var last := trace[|trace| - 1];
      if last in front then FirstDeliveries(front) else FirstDeliveries(front) + [last]
  }

  /** Any duplication of rows and window markers, anywhere in the trace, leaves runbooks,
      processed keys, archives, pending rows and watermark as exactly-once delivery does. */
  lemma {:induction false} AtLeastOnceIsExactlyOnce(cfg: Config, repo: RepoState, trace: seq<Message>)
    requires WellFormed(trace) && Timely(trace)
    ensures Run(cfg, Start(repo), trace) == Run(cfg, Start(repo), FirstDeliveries(trace))
  {
    if trace != [] {
      var front := trace[..|trace| - 1];
      var last := trace[|trace| - 1];
      PrefixFacts(trace);
      AtLeastOnceIsExactlyOnce(cfg, repo, front);
      if last in front {
        assert trace == front + [last];
        RedeliveryIsInvisibleIff(cfg, repo, front, last);
      } else {
        var once := FirstDeliveries(front);
        assert (once + [last])[..|once|] == once;
      }
    }
  }

  // ---- Row order between two windows --------------------------------------

  /** The rows delivered since the previous window, and the window that follows them. */
  datatype Batch = Batch(rows: set<ChangeEvent>, window: int)

  ghost function Batches(trace: seq<Message>): seq<Batch> {
    if trace == [] then []
    else
      var front := trace[..|trace| - 1];
      match trace[|trace| - 1]
      case Row(_) => Batches(front)
      case WindowClosed(w) => Batches(front) + [Batch(Unclosed(front), w)]
  }

  ghost function Unclosed(trace: seq<Message>): set<ChangeEvent> {
    if trace == [] then {}
    else
      match trace[|trace| - 1]
      case Row(e) => Unclosed(trace[..|trace| - 1]) + {e}
      case WindowClosed(_) => {}
  }

  ghost function Arrivals(s: StoreState, rows: set<ChangeEvent>): map<DedupId, ChangeEvent> {
    map d | d in (set e | e in rows :: e.Dedup()) && d !in s.processed :: RowWith(rows, d)
  }

  ghost function RowWith(rows: set<ChangeEvent>, d: DedupId): (e: ChangeEvent)
    requires exists e :: e in rows && e.Dedup() == d
    ensures e in rows && e.Dedup() == d
  {
    var e :| e in rows && e.Dedup() == d;
    e
  }

  ghost function PutAll(s: SystemState, rows: set<ChangeEvent>): SystemState {
    s.(store := s.store.(pending := s.store.pending + Arrivals(s.store, rows)))
  }

  ghost function ReplayBatches(cfg: Config, s: SystemState, batches: seq<Batch>): SystemState {
    if batches == [] then s
    else
      var last := batches[|batches| - 1];
      CloseSpec(cfg, PutAll(ReplayBatches(cfg, s, batches[..|batches| - 1]), last.rows), last.window)
  }

  lemma {:induction false} UnclosedAreRows(trace: seq<Message>)
    ensures Unclosed(trace) <= Rows(trace)
  {
    if trace != [] {
      PrefixFacts(trace);
      UnclosedAreRows(trace[..|trace| - 1]);
    }
  }

  /** a files the rows that are not done yet under their ids. */
  ghost predicate Files(a: map<DedupId, ChangeEvent>, rows: set<ChangeEvent>, done: set<DedupId>) {
    && (forall e :: e in rows && e.Dedup() !in done ==> e.Dedup() in a)
    && (forall d :: d in a ==> d !in done && a[d] in rows && a[d].Dedup() == d)
  }

  lemma FileOneMore(a: map<DedupId, ChangeEvent>, b: map<DedupId, ChangeEvent>, rows: set<ChangeEvent>,
                    done: set<DedupId>, e: ChangeEvent)
    requires Coherent(rows + {e})
    requires Files(a, rows, done) && Files(b, rows + {e}, done)
    ensures b == if e.Dedup() in done then a else a[e.Dedup() := e]
  {
    var c := if e.Dedup() in done then a else a[e.Dedup() := e];
    forall d ensures d in b <==> d in c {
      if d in a { assert a[d] in rows + {e}; }
    }
    forall d | d in b ensures b[d] == c[d] {
      assert c[d] in rows + {e} && c[d].Dedup() == d;
    }
  }

  lemma PutOneMore(s: SystemState, rows: set<ChangeEvent>, e: ChangeEvent)
    requires Coherent(rows + {e})
    ensures PutAll(s, rows + {e}).store == PutSpec(PutAll(s, rows).store, e)
  {
    ArrivalsAre(s.store, rows);
    ArrivalsAre(s.store, rows + {e});
    var a := Arrivals(s.store, rows);
    var b := Arrivals(s.store, rows + {e});
    FileOneMore(a, b, rows, s.store.processed, e);
    assert s.store.pending + a[e.Dedup() := e] == (s.store.pending + a)[e.Dedup() := e];
  }

  lemma ArrivalsAre(s: StoreState, rows: set<ChangeEvent>)
    ensures Files(Arrivals(s, rows), rows, s.processed)
  {}

  /** Only the set of rows between two windows matters, not their order. */
  lemma {:induction false} RunIsReplay(cfg: Config, s: SystemState, trace: seq<Message>)
    requires Coherent(Rows(trace))
    ensures Run(cfg, s, trace) == PutAll(ReplayBatches(cfg, s, Batches(trace)), Unclosed(trace))
  {
    if trace == [] {
      PutNothing(s);
    } else {
      var front := trace[..|trace| - 1];
      PrefixFacts(trace);
      RunIsReplay(cfg, s, front);
      var before := ReplayBatches(cfg, s, Batches(front));
      match trace[|trace| - 1]
      case Row(e) =>
        UnclosedAreRows(trace);
        PutOneMore(before, Unclosed(front), e);
      case WindowClosed(w) =>
        var b := Batch(Unclosed(front), w);
        assert (Batches(front) + [b])[..|Batches(front)|] == Batches(front);
        PutNothing(ReplayBatches(cfg, s, Batches(trace)));
    }
  }

  lemma PutNothing(s: SystemState)
    ensures PutAll(s, {}) == s
  {
    assert Arrivals(s.store, {}) == map[];
    assert s.store.pending + map[] == s.store.pending;
  }

  lemma {:induction false} FirstDeliveriesKeepRows(trace: seq<Message>)
    ensures forall m :: m in FirstDeliveries(trace) <==> m in trace
  {
    if trace != [] {
      FirstDeliveriesKeepRows(trace[..|trace| - 1]);
      assert trace == trace[..|trace| - 1] + [trace[|trace| - 1]];
    }
  }

  /** Two deliveries of one change stream that differ in duplicates and in the order of
      rows between windows end in the same state. */
  lemma DeliveryOrderIsIrrelevant(cfg: Config, repo: RepoState, a: seq<Message>, b: seq<Message>)
    requires WellFormed(a) && Timely(a) && WellFormed(b) && Timely(b)
    requires Batches(FirstDeliveries(a)) == Batches(FirstDeliveries(b))
    requires Unclosed(FirstDeliveries(a)) == Unclosed(FirstDeliveries(b))
    ensures Run(cfg, Start(repo), a) == Run(cfg, Start(repo), b)
  {
    AtLeastOnceIsExactlyOnce(cfg, repo, a);
    AtLeastOnceIsExactlyOnce(cfg, repo, b);
    FirstDeliveriesKeepRows(a);
    FirstDeliveriesKeepRows(b);
    assert Rows(FirstDeliveries(a)) == Rows(a) && Rows(FirstDeliveries(b)) == Rows(b);
    RunIsReplay(cfg, Start(repo), FirstDeliveries(a));
    RunIsReplay(cfg, Start(repo), FirstDeliveries(b));
  }

  const AROUND_EPOCH: seq<Message> := [WindowClosed(-5), WindowClosed(0)]

  lemma AroundEpochIsWellFormed()
    ensures WellFormed(AROUND_EPOCH) && Timely(AROUND_EPOCH)
  {
    assert Rows(AROUND_EPOCH) == {};
    assert AROUND_EPOCH == ([] + [WindowClosed(-5)]) + [WindowClosed(0)];
    SteadyOneMore([], WindowClosed(-5));
    SteadyOneMore([] + [WindowClosed(-5)], WindowClosed(0));
  }

  /** The exception in full: on a well-formed trace a repeated window marker moves the stored watermark backwards. */
  lemma NegativeWindowRegresses(cfg: Config)
    ensures WellFormed(AROUND_EPOCH) && Timely(AROUND_EPOCH)
    ensures Run(cfg, INITIAL, AROUND_EPOCH).store.watermark == Some(0)
    ensures Run(cfg, INITIAL, AROUND_EPOCH + [WindowClosed(-5)]).store.watermark == Some(-5)
  {
    AroundEpochIsWellFormed();
    var again := AROUND_EPOCH + [WindowClosed(-5)];
    assert AROUND_EPOCH[..1] == [WindowClosed(-5)] && again[..2] == AROUND_EPOCH;
    assert [WindowClosed(-5)][..0] == [];
    EmptyWindow(cfg, INITIAL, -5);
    var s1 := CloseSpec(cfg, INITIAL, -5);
    assert Run(cfg, INITIAL, [WindowClosed(-5)]) == s1 by { assert Run(cfg, INITIAL, []) == INITIAL; }
    EmptyWindow(cfg, s1, 0);
    var s2 := CloseSpec(cfg, s1, 0);
    assert Run(cfg, INITIAL, AROUND_EPOCH) == s2;
    EmptyWindow(cfg, s2, -5);
  }

  lemma EmptyWindow(cfg: Config, s: SystemState, w: int)
    requires s.store.pending == map[]
    ensures CloseSpec(cfg, s, w).store == s.store.(watermark := Some(Advance(s.store.watermark, w)))
  {
    forall k ensures !Complete(At(s.store.pending, k, w)) {
      assert At(s.store.pending, k, w) == {};
      EmptyIsIncomplete();
    }
    QuietWindow(cfg, s, w);
  }
}
