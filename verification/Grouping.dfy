/** Grouping of one closed window's rows into completed incidents
    (consolidation/postmortem_consolidation/grouping.py). */
module Grouping {
  import opened Contracts
  import opened Sorting

  // ---- Orders -------------------------------------------------------------

  /** read_through's order: (updated_at, event_id). */
  predicate ByUpdate(a: ChangeEvent, b: ChangeEvent) {
    a.updatedAt < b.updatedAt || (a.updatedAt == b.updatedAt && a.eventId <= b.eventId)
  }

  /** The order of the episodes of one group: (occurred_at, event_id). */
  predicate ByOccurrence(a: ChangeEvent, b: ChangeEvent) {
    a.occurredAt < b.occurredAt || (a.occurredAt == b.occurredAt && a.eventId <= b.eventId)
  }

  predicate ByIncident(a: IncidentKey, b: IncidentKey) {
    a.orgId < b.orgId || (a.orgId == b.orgId && a.incidentId <= b.incidentId)
  }

  /** Two stored versions of one row tie under ByOccurrence; the stable sort leaves them
      in update order. */
  predicate ByEpisode(a: ChangeEvent, b: ChangeEvent) {
    Then(ByOccurrence, ByUpdate, a, b)
  }

  lemma OrdersAreTotal()
    ensures TotalPreorder(ByUpdate) && TotalPreorder(ByOccurrence) && TotalPreorder(ByIncident)
    ensures TotalPreorder(ByEpisode)
  {}

  /** A row version is one row: redeliveries carry the same content. */
  ghost predicate Coherent(events: set<ChangeEvent>) {
    forall a, b :: a in events && b in events && a.Dedup() == b.Dedup() ==> a == b
  }

  // ---- Outcome of an incident ---------------------------------------------

  function Recognised(word: string): Option<RunbookOutcome> {
    if word == "success" || word == "resolved" then Some(Success)
    else if word == "failed" || word == "failure" then Some(Failed)
    else if word == "no_effect" || word == "no-effect" then Some(NoEffect)
    else None
  }

  predicate IsOutcome(e: ChangeEvent) { e.eventType == "outcome" }

  /** The last outcome episode decides; none, or an unknown label, leaves the incident open. */
  function OutcomeFor(events: seq<ChangeEvent>): Option<RunbookOutcome> {
    if events == [] then None
    else if IsOutcome(events[|events| - 1]) then Recognised(events[|events| - 1].outcomeLabel)
    else OutcomeFor(events[..|events| - 1])
  }

  /** m is the latest outcome episode of the bag `events`. */
  ghost predicate IsLastOutcome(m: ChangeEvent, events: set<ChangeEvent>) {
    && m in events && IsOutcome(m)
    && forall e :: e in events && IsOutcome(e) ==> ByEpisode(e, m)
  }

  ghost predicate HasOutcome(events: seq<ChangeEvent>) {
    exists e :: e in events && IsOutcome(e)
  }

  /** m is the latest outcome episode, and its label is what the scan reads. */
  ghost predicate Decides(m: ChangeEvent, events: seq<ChangeEvent>) {
    IsLastOutcome(m, set e | e in events) && OutcomeFor(events) == Recognised(m.outcomeLabel)
  }

  /** The scan from the end reads the latest outcome episode, if there is one. */
  ghost predicate ReadsLast(events: seq<ChangeEvent>) {
    if HasOutcome(events) then exists m :: Decides(m, events) else OutcomeFor(events) == None
  }

  lemma {:induction false} OutcomeForIsLast(events: seq<ChangeEvent>)
    requires Ordered(ByEpisode, events)
    ensures ReadsLast(events)
  {
    if events != [] {
      var front, last := events[..|events| - 1], events[|events| - 1];
      assert events == front + [last];
      if IsOutcome(last) {
        LastIsLastOutcome(events);
        assert Decides(last, events);
        assert last in events;
      } else {
        OutcomeForIsLast(front);
        FrontDecides(front, last);
      }
    }
  }

  lemma FrontDecides(front: seq<ChangeEvent>, last: ChangeEvent)
    requires !IsOutcome(last) && ReadsLast(front)
    ensures ReadsLast(front + [last])
  {
    var events := front + [last];
    assert events[..|events| - 1] == front;
    if HasOutcome(front) {
      var m :| Decides(m, front);
      LastOutcomeOfFront(front, last, m);
      assert Decides(m, events);
    }
    assert HasOutcome(events) ==> HasOutcome(front);
  }

  lemma LastIsLastOutcome(events: seq<ChangeEvent>)
    requires events != [] && Ordered(ByEpisode, events) && IsOutcome(events[|events| - 1])
    ensures IsLastOutcome(events[|events| - 1], set e | e in events)
  {
    forall e | e in events ensures ByEpisode(e, events[|events| - 1]) {
      var i :| 0 <= i < |events| && events[i] == e;
    }
  }

  lemma LastOutcomeOfFront(front: seq<ChangeEvent>, last: ChangeEvent, m: ChangeEvent)
    requires !IsOutcome(last) && IsLastOutcome(m, set e | e in front)
    ensures IsLastOutcome(m, set e | e in front + [last])
  {}

  // ---- Specification of the grouping --------------------------------------

  function OfIncident(events: seq<ChangeEvent>, k: IncidentKey): seq<ChangeEvent> {
    if events == [] then []
    else
      var front := OfIncident(events[..|events| - 1], k);
      if events[|events| - 1].Incident() == k then front + [events[|events| - 1]] else front
  }

  function Episodes(events: seq<ChangeEvent>, k: IncidentKey): seq<ChangeEvent> {
    Sorted(ByOccurrence, OfIncident(events, k))
  }

  function Incidents(events: seq<ChangeEvent>): set<IncidentKey> {
    set e | e in events :: e.Incident()
  }

  /** At most one group: the incident's, if its last outcome is a recognised one. */
  function GroupOf(events: seq<ChangeEvent>, k: IncidentKey): seq<EpisodeGroup> {
    var ordered := Episodes(events, k);
    match OutcomeFor(ordered)
    case None => []
    case Some(outcome) =>
      if ordered == [] then [] else
      var first := ordered[0];
      [EpisodeGroup(first.orgId, first.agentId, first.incidentId, first.serviceId, ordered, outcome)]
  }

  function GroupsOf(events: seq<ChangeEvent>, keys: seq<IncidentKey>): seq<EpisodeGroup> {
    if keys == [] then [] else GroupsOf(events, keys[..|keys| - 1]) + GroupOf(events, keys[|keys| - 1])
  }

  ghost function Groups(events: seq<ChangeEvent>): seq<EpisodeGroup> {
    GroupsOf(events, SortedSet(ByIncident, Incidents(events)))
  }

  // ---- Facts about the specification --------------------------------------

  lemma {:induction false} OfIncidentMembers(events: seq<ChangeEvent>, k: IncidentKey)
    ensures forall e :: e in OfIncident(events, k) <==> e in events && e.Incident() == k
  {
    if events != [] {
      OfIncidentMembers(events[..|events| - 1], k);
      assert events == events[..|events| - 1] + [events[|events| - 1]];
    }
  }

  lemma {:induction false} OfIncidentOrdered(events: seq<ChangeEvent>, k: IncidentKey)
    requires Ordered(ByUpdate, events)
    ensures Ordered(ByUpdate, OfIncident(events, k))
  {
    if events != [] {
      var last := |events| - 1;
      var front := events[..last];
      OfIncidentOrdered(front, k);
      OfIncidentMembers(front, k);
      forall e | e in OfIncident(front, k) ensures ByUpdate(e, events[last]) {
        var i :| 0 <= i < |front| && front[i] == e;
        assert events[i] == e;
      }
    }
  }

  lemma EpisodesMembers(events: seq<ChangeEvent>, k: IncidentKey)
    ensures forall e :: e in Episodes(events, k) <==> e in events && e.Incident() == k
    ensures multiset(Episodes(events, k)) == multiset(OfIncident(events, k))
  {
    OfIncidentMembers(events, k);
    SortedKeepsBag(ByOccurrence, OfIncident(events, k));
    SameBagSameMembers(Episodes(events, k), OfIncident(events, k));
  }

  /** An incident is complete when its latest outcome episode carries a known label. */
  ghost predicate Complete(events: set<ChangeEvent>) {
    exists m :: IsLastOutcome(m, events) && Recognised(m.outcomeLabel).Some?
  }

  lemma EpisodesOrdered(events: seq<ChangeEvent>, k: IncidentKey)
    requires Ordered(ByUpdate, events)
    ensures Ordered(ByEpisode, Episodes(events, k))
  {
    var ordered := Episodes(events, k);
    OrdersAreTotal();
    OfIncidentOrdered(events, k);
    SortedIsStable(ByOccurrence, ByUpdate, OfIncident(events, k));
    forall i, j | 0 <= i < j < |ordered| ensures ByEpisode(ordered[i], ordered[j]) {
      assert ((a, b) => Then(ByOccurrence, ByUpdate, a, b))(ordered[i], ordered[j]);
    }
  }

  lemma TiedIsSame(a: ChangeEvent, b: ChangeEvent, events: set<ChangeEvent>)
    requires Coherent(events) && IsLastOutcome(a, events) && IsLastOutcome(b, events)
    ensures a == b
  {
    assert ByEpisode(a, b) && ByEpisode(b, a);
    assert a.Dedup() == b.Dedup();
  }

  lemma OutcomeIffComplete(ordered: seq<ChangeEvent>)
    requires Ordered(ByEpisode, ordered)
    requires Coherent(set e | e in ordered)
    ensures OutcomeFor(ordered).Some? <==> Complete(set e | e in ordered)
  {
    var mine := set e | e in ordered;
    OutcomeForIsLast(ordered);
    if Complete(mine) {
      var m :| IsLastOutcome(m, mine) && Recognised(m.outcomeLabel).Some?;
      var m2 :| IsLastOutcome(m2, mine) && OutcomeFor(ordered) == Recognised(m2.outcomeLabel);
      TiedIsSame(m, m2, mine);
    }
  }

  ghost function RowsOf(events: seq<ChangeEvent>, k: IncidentKey): set<ChangeEvent> {
    set e | e in events && e.Incident() == k
  }

  /** Completeness depends on which rows the window holds, not on how they are listed. */
  lemma GroupIffComplete(events: seq<ChangeEvent>, k: IncidentKey)
    requires Ordered(ByUpdate, events)
    requires Coherent(set e | e in events)
    ensures GroupOf(events, k) != [] <==> Complete(RowsOf(events, k))
    ensures GroupOf(events, k) != [] ==>
              |GroupOf(events, k)| == 1 && GroupOf(events, k)[0].Incident() == k
              && GroupOf(events, k)[0].episodes == Episodes(events, k)
  {
    var ordered := Episodes(events, k);
    EpisodesMembers(events, k);
    EpisodesOrdered(events, k);
    assert (set e | e in ordered) == RowsOf(events, k);
    OutcomeIffComplete(ordered);
    if ordered != [] { assert ordered[0] in ordered; }
  }

  lemma {:induction false} GroupsOfMembers(events: seq<ChangeEvent>, keys: seq<IncidentKey>)
    requires forall k :: k in keys && GroupOf(events, k) != [] ==>
               |GroupOf(events, k)| == 1 && GroupOf(events, k)[0].Incident() == k
    requires forall i, j :: 0 <= i < j < |keys| ==> keys[i] != keys[j]
    ensures forall g :: g in GroupsOf(events, keys) ==> g.Incident() in keys && GroupOf(events, g.Incident()) == [g]
    ensures forall k :: k in keys && GroupOf(events, k) != [] ==> GroupOf(events, k)[0] in GroupsOf(events, keys)
    ensures forall i, j :: 0 <= i < j < |GroupsOf(events, keys)| ==>
              GroupsOf(events, keys)[i].Incident() != GroupsOf(events, keys)[j].Incident()
  {
    if keys != [] {
      var last := |keys| - 1;
      var front := keys[..last];
      assert forall k :: k in keys <==> k in front || k == keys[last];
      GroupsOfMembers(events, front);
      var before := GroupsOf(events, front);
      forall i | 0 <= i < |before| ensures before[i].Incident() != keys[last] {
        assert before[i] in before;
        var m :| 0 <= m < |front| && front[m] == before[i].Incident();
        assert keys[m] == front[m];
      }
    }
  }

  lemma DistinctListing(s: set<IncidentKey>)
    ensures var keys := SortedSet(ByIncident, s);
            && (forall k :: k in keys <==> k in s)
            && (forall i, j :: 0 <= i < j < |keys| ==> keys[i] != keys[j])
  {
    OrdersAreTotal();
    SortedSetMembers(ByIncident, s);
    ListsOnce(SortedSet(ByIncident, s), s);
  }

  // ---- What a group says, without the functions that build it -----------------

  ghost function RowsWith(events: seq<ChangeEvent>, orgId: int, incidentId: int): set<ChangeEvent> {
    set e | e in events && e.orgId == orgId && e.incidentId == incidentId
  }

  /** The words of each outcome. */
  predicate Means(word: string, outcome: RunbookOutcome) {
    match outcome
    case Success => word in {"success", "resolved"}
    case Failed => word in {"failed", "failure"}
    case NoEffect => word in {"no_effect", "no-effect"}
  }

  /** m is the outcome episode of these rows that occurred last; of several at one time the one
      with the highest id, in its latest stored version. */
  ghost predicate OccurredLast(m: ChangeEvent, rows: set<ChangeEvent>) {
    && m in rows && m.eventType == "outcome"
    && forall e :: e in rows && e.eventType == "outcome" ==>
         || e.occurredAt < m.occurredAt
         || (e.occurredAt == m.occurredAt && e.eventId < m.eventId)
         || (e.occurredAt == m.occurredAt && e.eventId == m.eventId && e.updatedAt <= m.updatedAt)
  }

  /** The rows' last outcome has a known word, and it is this one. */
  ghost predicate EndsIn(rows: set<ChangeEvent>, outcome: RunbookOutcome) {
    exists m :: OccurredLast(m, rows) && Means(m.outcomeLabel, outcome)
  }

  ghost predicate Earliest(first: ChangeEvent, rows: set<ChangeEvent>) {
    first in rows && forall e :: e in rows ==>
      first.occurredAt < e.occurredAt || (first.occurredAt == e.occurredAt && first.eventId <= e.eventId)
  }

  /** The group holds exactly these rows, in order of occurrence; it takes its ids from an
      earliest row and its outcome from the last outcome episode. */
  ghost predicate Reports(g: EpisodeGroup, rows: set<ChangeEvent>) {
    && (forall e :: e in g.episodes <==> e in rows)
    && (forall i, j :: 0 <= i < j < |g.episodes| ==> g.episodes[i].occurredAt <= g.episodes[j].occurredAt)
    && EndsIn(rows, g.outcome)
    && exists first :: Earliest(first, rows) && g.orgId == first.orgId && g.agentId == first.agentId
                       && g.incidentId == first.incidentId && g.serviceId == first.serviceId
  }

  lemma WordsMean(word: string, outcome: RunbookOutcome)
    ensures Recognised(word) == Some(outcome) <==> Means(word, outcome)
  {}

  lemma LastOccurredLast(m: ChangeEvent, rows: set<ChangeEvent>)
    ensures IsLastOutcome(m, rows) <==> OccurredLast(m, rows)
  {}

  lemma CompleteEnds(rows: set<ChangeEvent>)
    ensures Complete(rows) <==> exists outcome :: EndsIn(rows, outcome)
  {
    if Complete(rows) {
      var m :| IsLastOutcome(m, rows) && Recognised(m.outcomeLabel).Some?;
      LastOccurredLast(m, rows);
      WordsMean(m.outcomeLabel, Recognised(m.outcomeLabel).value);
      assert EndsIn(rows, Recognised(m.outcomeLabel).value);
    }
    if outcome :| EndsIn(rows, outcome) {
      var m :| OccurredLast(m, rows) && Means(m.outcomeLabel, outcome);
      LastOccurredLast(m, rows);
      WordsMean(m.outcomeLabel, outcome);
    }
  }

  lemma OutcomeEnds(ordered: seq<ChangeEvent>, rows: set<ChangeEvent>)
    requires Ordered(ByEpisode, ordered) && rows == (set e | e in ordered) && OutcomeFor(ordered).Some?
    ensures EndsIn(rows, OutcomeFor(ordered).value)
  {
    OutcomeForIsLast(ordered);
    var m :| Decides(m, ordered);
    LastOccurredLast(m, rows);
    WordsMean(m.outcomeLabel, OutcomeFor(ordered).value);
  }

  lemma FirstIsEarliest(ordered: seq<ChangeEvent>, rows: set<ChangeEvent>)
    requires Ordered(ByEpisode, ordered) && rows == (set e | e in ordered) && ordered != []
    ensures Earliest(ordered[0], rows)
    ensures forall i, j :: 0 <= i < j < |ordered| ==> ordered[i].occurredAt <= ordered[j].occurredAt
  {
    forall e | e in rows
      ensures ordered[0].occurredAt < e.occurredAt || (ordered[0].occurredAt == e.occurredAt && ordered[0].eventId <= e.eventId)
    {
      var i :| 0 <= i < |ordered| && ordered[i] == e;
      assert i > 0 ==> ByEpisode(ordered[0], ordered[i]);
    }
    forall i, j | 0 <= i < j < |ordered| ensures ordered[i].occurredAt <= ordered[j].occurredAt {
      assert ByEpisode(ordered[i], ordered[j]);
    }
  }

  lemma GroupReports(events: seq<ChangeEvent>, k: IncidentKey)
    requires Ordered(ByUpdate, events) && GroupOf(events, k) != []
    ensures |GroupOf(events, k)| == 1 && Reports(GroupOf(events, k)[0], RowsOf(events, k))
  {
    var ordered := Episodes(events, k);
    EpisodesMembers(events, k);
    EpisodesOrdered(events, k);
    assert (set e | e in ordered) == RowsOf(events, k);
    OutcomeEnds(ordered, RowsOf(events, k));
    FirstIsEarliest(ordered, RowsOf(events, k));
  }

  /** The groups of a window are exactly its complete incidents, one group each, in the order
      of their ids; a group reports every row of its incident. */
  lemma GroupsAreCompleteIncidents(events: seq<ChangeEvent>)
    requires Ordered(ByUpdate, events)
    requires Coherent(set e | e in events)
    ensures forall g :: g in Groups(events) ==>
              && Complete(RowsOf(events, g.Incident()))
              && Reports(g, RowsWith(events, g.orgId, g.incidentId))
              && forall e :: e in g.episodes <==> e in events && e.Incident() == g.Incident()
    ensures forall k :: Complete(RowsOf(events, k)) ==>
              exists g :: g in Groups(events) && g.Incident() == k
    ensures forall orgId, incidentId, outcome :: EndsIn(RowsWith(events, orgId, incidentId), outcome) ==>
              exists g :: g in Groups(events) && g.orgId == orgId && g.incidentId == incidentId
    ensures forall i, j :: 0 <= i < j < |Groups(events)| ==>
              Groups(events)[i].Incident() != Groups(events)[j].Incident()
    ensures forall i, j :: 0 <= i < j < |Groups(events)| ==>
              var g, h := Groups(events)[i], Groups(events)[j];
              g.orgId < h.orgId || (g.orgId == h.orgId && g.incidentId < h.incidentId)
  {
    var keys := SortedSet(ByIncident, Incidents(events));
    DistinctListing(Incidents(events));
    forall k
      ensures GroupOf(events, k) != [] <==> Complete(RowsOf(events, k))
      ensures GroupOf(events, k) != [] ==> |GroupOf(events, k)| == 1 && GroupOf(events, k)[0].Incident() == k
    {
      GroupIffComplete(events, k);
    }
    GroupsOfMembers(events, keys);
    forall g | g in Groups(events)
      ensures Reports(g, RowsWith(events, g.orgId, g.incidentId))
      ensures forall e :: e in g.episodes <==> e in events && e.Incident() == g.Incident()
    {
      GroupReports(events, g.Incident());
      RowsOfIsRowsWith(events, g.orgId, g.incidentId);
    }
    forall k | Complete(RowsOf(events, k)) ensures exists g :: g in Groups(events) && g.Incident() == k {
      CompleteIsListed(events, k);
    }
    forall orgId, incidentId, outcome | EndsIn(RowsWith(events, orgId, incidentId), outcome)
      ensures exists g :: g in Groups(events) && g.orgId == orgId && g.incidentId == incidentId
    {
      RowsOfIsRowsWith(events, orgId, incidentId);
      CompleteEnds(RowsWith(events, orgId, incidentId));
      assert Complete(RowsOf(events, IncidentKey(orgId, incidentId)));
      var g :| g in Groups(events) && g.Incident() == IncidentKey(orgId, incidentId);
      assert g.orgId == orgId && g.incidentId == incidentId;
    }
    GroupsInOrder(events, keys);
  }

  lemma GroupsHoldTheirRows(events: seq<ChangeEvent>)
    requires Ordered(ByUpdate, events) && Coherent(set e | e in events)
    ensures forall g :: g in Groups(events) ==>
              && Complete(RowsOf(events, g.Incident()))
              && forall e :: e in g.episodes <==> e in events && e.Incident() == g.Incident()
    ensures forall k :: Complete(RowsOf(events, k)) ==> exists g :: g in Groups(events) && g.Incident() == k
  {
    GroupsAreCompleteIncidents(events);
  }

  lemma RowsOfIsRowsWith(events: seq<ChangeEvent>, orgId: int, incidentId: int)
    ensures RowsOf(events, IncidentKey(orgId, incidentId)) == RowsWith(events, orgId, incidentId)
  {}

  lemma CompleteIsListed(events: seq<ChangeEvent>, k: IncidentKey)
    requires Ordered(ByUpdate, events) && Coherent(set e | e in events) && Complete(RowsOf(events, k))
    requires var keys := SortedSet(ByIncident, Incidents(events));
             && (forall k :: k in keys <==> k in Incidents(events))
             && (forall k :: k in keys && GroupOf(events, k) != [] ==> GroupOf(events, k)[0] in GroupsOf(events, keys))
    ensures exists g :: g in Groups(events) && g.Incident() == k
  {
    GroupIffComplete(events, k);
    var m :| IsLastOutcome(m, RowsOf(events, k));
    assert m.Incident() in Incidents(events);
    assert GroupOf(events, k)[0] in Groups(events);
  }

  /** Groups follow the order of their keys. */
  lemma {:induction false} GroupsFollowKeys(events: seq<ChangeEvent>, keys: seq<IncidentKey>)
    requires forall k :: k in keys && GroupOf(events, k) != [] ==>
               |GroupOf(events, k)| == 1 && GroupOf(events, k)[0].Incident() == k
    requires forall i, j :: 0 <= i < j < |keys| ==> Precedes(keys[i], keys[j])
    ensures forall g :: g in GroupsOf(events, keys) ==> g.Incident() in keys
    ensures forall i, j :: 0 <= i < j < |GroupsOf(events, keys)| ==>
              Precedes(GroupsOf(events, keys)[i].Incident(), GroupsOf(events, keys)[j].Incident())
  {
    if keys != [] {
      var last := |keys| - 1;
      var front := keys[..last];
      assert forall k :: k in keys <==> k in front || k == keys[last];
      GroupsFollowKeys(events, front);
      var before := GroupsOf(events, front);
      forall i | 0 <= i < |before| ensures Precedes(before[i].Incident(), keys[last]) {
        assert before[i] in before;
        var m :| 0 <= m < |front| && front[m] == before[i].Incident();
        assert keys[m] == front[m];
      }
    }
  }

  predicate Precedes(a: IncidentKey, b: IncidentKey) {
    a.orgId < b.orgId || (a.orgId == b.orgId && a.incidentId < b.incidentId)
  }

  lemma GroupsInOrder(events: seq<ChangeEvent>, keys: seq<IncidentKey>)
    requires keys == SortedSet(ByIncident, Incidents(events))
    requires forall i, j :: 0 <= i < j < |keys| ==> keys[i] != keys[j]
    requires forall k :: k in keys && GroupOf(events, k) != [] ==>
               |GroupOf(events, k)| == 1 && GroupOf(events, k)[0].Incident() == k
    ensures forall i, j :: 0 <= i < j < |Groups(events)| ==>
              Precedes(Groups(events)[i].Incident(), Groups(events)[j].Incident())
  {
    OrdersAreTotal();
    SortedSetMembers(ByIncident, Incidents(events));
    forall i, j | 0 <= i < j < |keys| ensures Precedes(keys[i], keys[j]) {
      assert ByIncident(keys[i], keys[j]) && keys[i] != keys[j];
    }
    GroupsFollowKeys(events, keys);
  }

  /** Two groups have one key exactly when they are of one incident and hold the same events,
      counted as often. */
  lemma KeysCoincideIff(g: EpisodeGroup, h: EpisodeGroup)
    ensures g.Key() == h.Key() <==>
            && g.orgId == h.orgId && g.incidentId == h.incidentId
            && forall id :: multiset(EventIds(g.episodes))[id] == multiset(EventIds(h.episodes))[id]
  {
    if forall id :: multiset(EventIds(g.episodes))[id] == multiset(EventIds(h.episodes))[id] {
      assert multiset(EventIds(g.episodes)) == multiset(EventIds(h.episodes));
    }
  }

  // ---- The two loops ------------------------------------------------------

  lemma {:induction false} OfIncidentAbsent(events: seq<ChangeEvent>, k: IncidentKey)
    requires k !in Incidents(events)
    ensures OfIncident(events, k) == []
  {
    if events != [] {
      assert events[|events| - 1].Incident() in Incidents(events);
      assert forall e :: e in events[..|events| - 1] ==> e in events;
      OfIncidentAbsent(events[..|events| - 1], k);
    }
  }

  /** The keys of a dict in its iteration order, whatever that is. */
  method ListKeys(grouped: map<IncidentKey, seq<ChangeEvent>>) returns (keys: seq<IncidentKey>)
    ensures multiset(keys) == multiset(grouped.Keys)
  {
    keys := [];
    var rest := grouped.Keys;
    while rest != {}
      invariant rest <= grouped.Keys
      invariant multiset(keys) == multiset(grouped.Keys - rest)
      decreases rest
    {
      var k :| k in rest;
      assert grouped.Keys - (rest - {k}) == (grouped.Keys - rest) + {k};
      keys, rest := keys + [k], rest - {k};
    }
    assert grouped.Keys - rest == grouped.Keys;
  }

  lemma OneMoreIncident(events: seq<ChangeEvent>, i: nat)
    requires i < |events|
    ensures Incidents(events[..i + 1]) == Incidents(events[..i]) + {events[i].Incident()}
    ensures forall k :: OfIncident(events[..i + 1], k) ==
                        OfIncident(events[..i], k) + if events[i].Incident() == k then [events[i]] else []
  {
    assert events[..i + 1] == events[..i] + [events[i]];
    assert events[..i + 1][..i] == events[..i];
  }

  /** The dict of lists the first loop fills. */
  method BucketByIncident(events: seq<ChangeEvent>) returns (grouped: map<IncidentKey, seq<ChangeEvent>>)
    ensures grouped.Keys == Incidents(events)
    ensures forall k :: k in grouped ==> grouped[k] == OfIncident(events, k)
  {
    grouped := map[];
    for i := 0 to |events|
      invariant grouped.Keys == Incidents(events[..i])
      invariant forall k :: k in grouped ==> grouped[k] == OfIncident(events[..i], k)
    {
      var k := events[i].Incident();
      OneMoreIncident(events, i);
      if k !in grouped { OfIncidentAbsent(events[..i], k); }
      grouped := grouped[k := (if k in grouped then grouped[k] else []) + [events[i]]];
    }
    assert events[..|events|] == events;
  }

  method CollectGroups(events: seq<ChangeEvent>, grouped: map<IncidentKey, seq<ChangeEvent>>, keys: seq<IncidentKey>)
    returns (result: seq<EpisodeGroup>)
    requires forall k :: k in keys ==> k in grouped && k in Incidents(events)
    requires forall k :: k in grouped ==> grouped[k] == OfIncident(events, k)
    ensures result == GroupsOf(events, keys)
  {
    result := [];
    for i := 0 to |keys|
      invariant result == GroupsOf(events, keys[..i])
    {
      assert keys[i] in keys;
      var ordered := Sorted(ByOccurrence, grouped[keys[i]]);
      var outcome := OutcomeFor(ordered);
      assert keys[..i + 1][..i] == keys[..i];
      if outcome == None { continue; }
      var first := ordered[0];
      result := result + [EpisodeGroup(first.orgId, first.agentId, first.incidentId, first.serviceId,
                                       ordered, outcome.value)];
    }
    assert keys[..|keys|] == keys;
  }

  method GroupCompletedIncidents(events: seq<ChangeEvent>) returns (result: seq<EpisodeGroup>)
    ensures result == Groups(events)
  {
    var grouped := BucketByIncident(events);
    var keys := ListKeys(grouped);
    OrdersAreTotal();
    SortedOfAnyListing(ByIncident, keys, grouped.Keys);
    SortedSetMembers(ByIncident, grouped.Keys);
    keys := Sorted(ByIncident, keys);
    result := CollectGroups(events, grouped, keys);
  }
}
