/** What committed transitions leave behind: per key one linear supersession chain whose
    validity windows tile time, so that a point-in-time lookup is a lookup in the log. */
module FactChains {
  import opened Contracts
  import opened FactStore
  import opened Sorting

  function OfKey(log: seq<Transition>, key: FactKey): seq<Transition> {
    if log == [] then []
    else
      var front := OfKey(log[..|log| - 1], key);
      if log[|log| - 1].key == key then front + [log[|log| - 1]] else front
  }

  /** The row of the i-th transition of a key once all of c has committed. */
  function RowAt(c: seq<Transition>, i: nat): Fact
    requires i < |c|
  {
    Fact(c[i].key, c[i].object_, c[i].at,
         if i + 1 < |c| then Some(c[i + 1].at) else None,
         c[i].recordedAt,
         if i + 1 < |c| then Some(c[i + 1].id) else None)
  }

  /** The rows of the key are exactly the links of c, in order, at increasing instants. */
  ghost predicate Chain(facts: Facts, key: FactKey, c: seq<Transition>) {
    && (forall i :: 0 <= i < |c| ==> c[i].key == key && c[i].id in facts && facts[c[i].id] == RowAt(c, i))
    && (forall id :: id in facts && facts[id].key == key ==> exists i :: 0 <= i < |c| && c[i].id == id)
    && (forall i, j :: 0 <= i < j < |c| ==> c[i].at < c[j].at && c[i].id != c[j].id)
  }

  ghost predicate Chains(facts: Facts, log: seq<Transition>) {
    forall key :: Chain(facts, key, OfKey(log, key))
  }

  lemma OpenRowOfChain(facts: Facts, key: FactKey, c: seq<Transition>, id: int)
    requires Chain(facts, key, c) && id in facts && facts[id].key == key
    ensures c != [] && (facts[id].validTo == None <==> id == c[|c| - 1].id)
  {
    var i :| 0 <= i < |c| && c[i].id == id;
    assert facts[c[i].id] == RowAt(c, i);
    assert i < |c| - 1 ==> c[i].id != c[|c| - 1].id;
  }

  lemma OpenRowOfLog(facts: Facts, log: seq<Transition>, id: int)
    requires Chains(facts, log) && id in facts
    ensures var c := OfKey(log, facts[id].key); c != [] && (facts[id].validTo == None <==> id == c[|c| - 1].id)
  {
    assert Chain(facts, facts[id].key, OfKey(log, facts[id].key));
    OpenRowOfChain(facts, facts[id].key, OfKey(log, facts[id].key), id);
  }

  lemma OpenRowsCoincide(facts: Facts, log: seq<Transition>, a: int, b: int)
    requires Chains(facts, log) && a in facts && b in facts
    requires facts[a].key == facts[b].key && facts[a].validTo == None && facts[b].validTo == None
    ensures a == b
  {
    OpenRowOfLog(facts, log, a);
    OpenRowOfLog(facts, log, b);
  }

  lemma OneOpenRowEach(facts: Facts, log: seq<Transition>)
    requires Chains(facts, log)
    ensures OneOpenRow(facts)
  {
    forall a, b | (a in facts && b in facts && facts[a].key == facts[b].key
                   && facts[a].validTo == None && facts[b].validTo == None) ensures a == b
    {
      OpenRowsCoincide(facts, log, a, b);
    }
  }

  lemma NoRowOfKey(facts: Facts, log: seq<Transition>, key: FactKey)
    requires Chains(facts, log) && OfKey(log, key) == []
    ensures forall id :: id in facts ==> facts[id].key != key
  {
    assert Chain(facts, key, OfKey(log, key));
  }

  lemma OpenIsLast(facts: Facts, log: seq<Transition>, key: FactKey)
    requires Chains(facts, log)
    ensures OneOpenRow(facts)
    ensures var c := OfKey(log, key); OpenRow(facts, key) == if c == [] then None else Some(c[|c| - 1].id)
  {
    OneOpenRowEach(facts, log);
    LastIsIn(facts, log, key);
    var c := OfKey(log, key);
    if c != [] {
      OpenRowOfLog(facts, log, c[|c| - 1].id);
      OpenRowIs(facts, key, c[|c| - 1].id);
    } else {
      NoRowOfKey(facts, log, key);
    }
  }

  lemma LastIsIn(facts: Facts, log: seq<Transition>, key: FactKey)
    requires Chains(facts, log)
    ensures var c := OfKey(log, key); c != [] ==> c[|c| - 1].id in facts && facts[c[|c| - 1].id].key == key
  {
    var c := OfKey(log, key);
    assert Chain(facts, key, c);
    assert c != [] ==> facts[c[|c| - 1].id] == RowAt(c, |c| - 1);
  }

  /** A transition is accepted exactly when it is later than the fact it replaces; the
      schema's window check refuses every other one, however often it is retried. */
  lemma AcceptedIff(facts: Facts, log: seq<Transition>, p: Transition)
    requires Chains(facts, log)
    ensures var c := OfKey(log, p.key);
            CloseAllowed(facts, p.key, p.at) <==> c == [] || c[|c| - 1].at < p.at
  {
    var c := OfKey(log, p.key);
    OpenIsLast(facts, log, p.key);
    assert Chain(facts, p.key, c);
    if c != [] {
      var last := c[|c| - 1].id;
      assert facts[last] == RowAt(c, |c| - 1);
      assert forall id :: id in facts && OpenFor(facts[id], p.key) ==> id == last;
    } else {
      assert forall id :: id in facts ==> facts[id].key != p.key;
    }
  }

  lemma OfKeyAppend(log: seq<Transition>, p: Transition, key: FactKey)
    ensures OfKey(log + [p], key) == OfKey(log, key) + if p.key == key then [p] else []
  {
    assert (log + [p])[..|log|] == log;
  }

  /** One accepted transition appends one link to its own chain and touches no other. */
  lemma TransitionExtends(facts: Facts, log: seq<Transition>, p: Transition)
    requires Chains(facts, log)
    requires CloseAllowed(facts, p.key, p.at) && p.id !in facts
    ensures Chains(Transitioned(facts, p), log + [p])
  {
    OpenIsLast(facts, log, p.key);
    AcceptedIff(facts, log, p);
    forall key ensures Chain(Transitioned(facts, p), key, OfKey(log + [p], key)) {
      OfKeyAppend(log, p, key);
      assert Chain(facts, key, OfKey(log, key)) && Chain(facts, p.key, OfKey(log, p.key));
      if key == p.key {
        OwnChain(facts, OfKey(log, key), p);
      } else {
        OtherChain(facts, OfKey(log, p.key), p, key, OfKey(log, key));
      }
    }
  }

  lemma OwnRows(facts: Facts, c: seq<Transition>, p: Transition, i: nat)
    requires Chain(facts, p.key, c) && p.id !in facts
    requires OpenRow(facts, p.key) == if c == [] then None else Some(c[|c| - 1].id)
    requires i <= |c|
    ensures var d := c + [p];
            d[i].key == p.key && d[i].id in Transitioned(facts, p) && Transitioned(facts, p)[d[i].id] == RowAt(d, i)
  {
    if i < |c| {
      assert facts[c[i].id] == RowAt(c, i);
      assert i < |c| - 1 ==> c[i].id != c[|c| - 1].id;
    }
  }

  lemma OwnChain(facts: Facts, c: seq<Transition>, p: Transition)
    requires Chain(facts, p.key, c) && p.id !in facts
    requires OpenRow(facts, p.key) == if c == [] then None else Some(c[|c| - 1].id)
    requires c == [] || c[|c| - 1].at < p.at
    ensures Chain(Transitioned(facts, p), p.key, c + [p])
  {
    var after := Transitioned(facts, p);
    var d := c + [p];
    forall i | 0 <= i < |d| ensures d[i].key == p.key && d[i].id in after && after[d[i].id] == RowAt(d, i) {
      OwnRows(facts, c, p, i);
    }
    forall id | id in after && after[id].key == p.key ensures exists i :: 0 <= i < |d| && d[i].id == id {
      OwnIsListed(facts, c, p, id);
    }
    OwnRises(facts, c, p);
  }

  lemma OwnRises(facts: Facts, c: seq<Transition>, p: Transition)
    requires Chain(facts, p.key, c) && p.id !in facts
    requires c == [] || c[|c| - 1].at < p.at
    ensures var d := c + [p]; forall i, j :: 0 <= i < j < |d| ==> d[i].at < d[j].at && d[i].id != d[j].id
  {
    assert forall i :: 0 <= i < |c| ==> c[i].id in facts && c[i].at <= c[|c| - 1].at;
  }

  lemma OwnIsListed(facts: Facts, c: seq<Transition>, p: Transition, id: int)
    requires Chain(facts, p.key, c)
    requires id == p.id || (id in facts && facts[id].key == p.key)
    ensures exists i :: 0 <= i < |c + [p]| && (c + [p])[i].id == id
  {
    var d := c + [p];
    if id == p.id {
      assert d[|c|].id == id;
    } else {
      var i :| 0 <= i < |c| && c[i].id == id;
      assert d[i].id == id;
    }
  }

  lemma OtherChain(facts: Facts, own: seq<Transition>, p: Transition, key: FactKey, c: seq<Transition>)
    requires key != p.key && p.id !in facts
    requires Chain(facts, key, c) && Chain(facts, p.key, own)
    requires OpenRow(facts, p.key) == if own == [] then None else Some(own[|own| - 1].id)
    ensures Chain(Transitioned(facts, p), key, c)
  {
    var after := Transitioned(facts, p);
    if own != [] { assert facts[own[|own| - 1].id] == RowAt(own, |own| - 1); }
    forall i | 0 <= i < |c| ensures c[i].key == key && c[i].id in after && after[c[i].id] == RowAt(c, i) {
      assert facts[c[i].id] == RowAt(c, i);
    }
    forall id | id in after && after[id].key == key ensures exists i :: 0 <= i < |c| && c[i].id == id {
      assert id in facts && facts[id].key == key;
    }
  }

  // ---- Reading the chain --------------------------------------------------

  /** The business-time gate of the recall query. */
  predicate ValidAt(f: Fact, asOf: int) {
    f.validFrom <= asOf && (f.validTo == None || f.validTo.value > asOf)
  }

  ghost function Visible(facts: Facts, key: FactKey, asOf: int): set<int> {
    set id | id in facts && facts[id].key == key && ValidAt(facts[id], asOf)
  }

  ghost function VisibleAndRecorded(facts: Facts, key: FactKey, asOf: int): set<int> {
    set id | id in facts && facts[id].key == key && ValidAt(facts[id], asOf) && facts[id].recordedAt <= asOf
  }

  /** The last transition of the key at or before the instant. */
  function InForce(c: seq<Transition>, asOf: int): Option<Transition> {
    if c == [] then None
    else if c[|c| - 1].at <= asOf then Some(c[|c| - 1])
    else InForce(c[..|c| - 1], asOf)
  }

  lemma {:induction false} InForceIs(c: seq<Transition>, asOf: int)
    requires forall i, j :: 0 <= i < j < |c| ==> c[i].at < c[j].at
    ensures InForce(c, asOf) == None ==> forall i :: 0 <= i < |c| ==> asOf < c[i].at
    ensures InForce(c, asOf).Some? ==>
              exists i :: 0 <= i < |c| && c[i] == InForce(c, asOf).value && c[i].at <= asOf && (i + 1 < |c| ==> asOf < c[i + 1].at)
  {
    if c != [] {
      var n := |c| - 1;
      InForceIs(c[..n], asOf);
      if c[n].at <= asOf {
        assert c[n] == InForce(c, asOf).value;
      } else if InForce(c, asOf).Some? {
        var i :| 0 <= i < n && c[..n][i] == InForce(c, asOf).value && c[..n][i].at <= asOf && (i + 1 < n ==> asOf < c[..n][i + 1].at);
        assert c[i] == InForce(c, asOf).value;
      }
    }
  }

  lemma OneLinkInForce(c: seq<Transition>, asOf: int, i: nat, j: nat)
    requires forall i, j :: 0 <= i < j < |c| ==> c[i].at < c[j].at
    requires i < |c| && c[i].at <= asOf && (i + 1 < |c| ==> asOf < c[i + 1].at)
    requires j < |c|
    ensures ValidAt(RowAt(c, j), asOf) <==> j == i
  {
    assert j + 1 < i ==> c[j + 1].at < c[i].at;
    assert i + 1 < j ==> c[i + 1].at < c[j].at;
  }

  lemma OnlyTheHit(facts: Facts, key: FactKey, c: seq<Transition>, asOf: int, i: nat)
    requires Chain(facts, key, c)
    requires i < |c| && c[i].at <= asOf && (i + 1 < |c| ==> asOf < c[i + 1].at)
    ensures Visible(facts, key, asOf) == {c[i].id}
  {
    assert c[i].id in facts && facts[c[i].id].key == key && facts[c[i].id] == RowAt(c, i);
    OneLinkInForce(c, asOf, i, i);
    forall id | id in facts && facts[id].key == key && id != c[i].id ensures !ValidAt(facts[id], asOf) {
      var j :| 0 <= j < |c| && c[j].id == id;
      assert facts[c[j].id] == RowAt(c, j);
      OneLinkInForce(c, asOf, i, j);
    }
  }

  lemma NothingBefore(facts: Facts, key: FactKey, c: seq<Transition>, asOf: int)
    requires Chain(facts, key, c)
    requires forall i :: 0 <= i < |c| ==> asOf < c[i].at
    ensures Visible(facts, key, asOf) == {}
  {
    forall id | id in facts && facts[id].key == key ensures !ValidAt(facts[id], asOf) {
      var j :| 0 <= j < |c| && c[j].id == id;
      assert facts[c[j].id] == RowAt(c, j);
    }
  }

  /** What a lookup of one key must answer, read off its transition log. */
  ghost function Answer(c: seq<Transition>, asOf: int): set<int> {
    var hit := InForce(c, asOf);
    if hit == None then {} else {hit.value.id}
  }

  lemma LookupReadsTheChain(facts: Facts, key: FactKey, c: seq<Transition>, asOf: int)
    requires Chain(facts, key, c)
    ensures Visible(facts, key, asOf) == Answer(c, asOf)
  {
    var hit := InForceAt(c, asOf);
    if hit < |c| {
      OnlyTheHit(facts, key, c, asOf, hit);
    } else {
      NothingBefore(facts, key, c, asOf);
    }
  }

  /** Where in the chain the transition in force stands; the length if there is none. */
  lemma InForceAt(c: seq<Transition>, asOf: int) returns (i: nat)
    requires forall i, j :: 0 <= i < j < |c| ==> c[i].at < c[j].at
    ensures i <= |c|
    ensures i < |c| ==> InForce(c, asOf) == Some(c[i]) && c[i].at <= asOf && (i + 1 < |c| ==> asOf < c[i + 1].at)
    ensures i == |c| ==> InForce(c, asOf) == None && forall j :: 0 <= j < |c| ==> asOf < c[j].at
  {
    InForceIs(c, asOf);
    i := |c|;
    if InForce(c, asOf).Some? {
      i :| 0 <= i < |c| && c[i] == InForce(c, asOf).value && c[i].at <= asOf && (i + 1 < |c| ==> asOf < c[i + 1].at);
    }
  }

  /** Point-in-time lookup reads the log: the one row in force, or none before the first.
      The recorded_at gate of the recall query can only drop that row. */
  lemma LookupReadsTheLog(facts: Facts, log: seq<Transition>, key: FactKey, asOf: int)
    requires Chains(facts, log)
    ensures Visible(facts, key, asOf) == Answer(OfKey(log, key), asOf)
    ensures VisibleAndRecorded(facts, key, asOf) ==
              set p | p in OfKey(log, key) && p.id in Answer(OfKey(log, key), asOf) && p.recordedAt <= asOf :: p.id
  {
    assert Chain(facts, key, OfKey(log, key));
    LookupReadsTheChain(facts, key, OfKey(log, key), asOf);
    RecordedGate(facts, key, OfKey(log, key), asOf);
  }

  lemma RecordedGate(facts: Facts, key: FactKey, c: seq<Transition>, asOf: int)
    requires Chain(facts, key, c)
    ensures VisibleAndRecorded(facts, key, asOf) ==
              set p | p in c && p.id in Visible(facts, key, asOf) && p.recordedAt <= asOf :: p.id
  {
    var gated := set p | p in c && p.id in Visible(facts, key, asOf) && p.recordedAt <= asOf :: p.id;
    forall id ensures id in VisibleAndRecorded(facts, key, asOf) <==> id in gated {
      RecordedGateAt(facts, key, c, asOf, id);
    }
  }

  lemma RecordedGateAt(facts: Facts, key: FactKey, c: seq<Transition>, asOf: int, id: int)
    requires Chain(facts, key, c)
    ensures id in VisibleAndRecorded(facts, key, asOf) <==>
              exists p :: p in c && p.id in Visible(facts, key, asOf) && p.recordedAt <= asOf && p.id == id
  {
    forall i | 0 <= i < |c| ensures facts[c[i].id].recordedAt == c[i].recordedAt {
      assert facts[c[i].id] == RowAt(c, i);
    }
    if id in VisibleAndRecorded(facts, key, asOf) {
      var j :| 0 <= j < |c| && c[j].id == id;
      assert c[j] in c;
    }
  }

  /** Nothing a transition does rewrites the past: a lookup before its instant answers the
      same afterwards. */
  lemma PastIsImmutable(facts: Facts, log: seq<Transition>, p: Transition, key: FactKey, asOf: int)
    requires Chains(facts, log)
    requires CloseAllowed(facts, p.key, p.at) && p.id !in facts
    requires asOf < p.at
    ensures Visible(Transitioned(facts, p), key, asOf) == Visible(facts, key, asOf)
  {
    TransitionExtends(facts, log, p);
    LookupReadsTheLog(facts, log, key, asOf);
    LookupReadsTheLog(Transitioned(facts, p), log + [p], key, asOf);
    OfKeyAppend(log, p, key);
    LaterIsInvisible(OfKey(log, key), p, asOf);
  }

  lemma LaterIsInvisible(c: seq<Transition>, p: Transition, asOf: int)
    requires asOf < p.at
    ensures InForce(c + [p], asOf) == InForce(c, asOf)
  {
    assert (c + [p])[..|c|] == c;
  }

  /** The open and the superseded rows of any reachable table. */
  lemma ClosedIffSuperseded(facts: Facts, log: seq<Transition>, id: int)
    requires Chains(facts, log) && id in facts
    ensures facts[id].validTo == None <==> facts[id].supersededBy == None
    ensures facts[id].supersededBy.Some? ==>
              var next := facts[id].supersededBy.value;
              next in facts && facts[next].key == facts[id].key && Some(facts[next].validFrom) == facts[id].validTo
    ensures facts[id].validTo.Some? ==> facts[id].validFrom < facts[id].validTo.value
  {
    var c := OfKey(log, facts[id].key);
    assert Chain(facts, facts[id].key, c);
    var i :| 0 <= i < |c| && c[i].id == id;
    assert facts[c[i].id] == RowAt(c, i);
    if i + 1 < |c| { assert facts[c[i + 1].id] == RowAt(c, i + 1); }
  }

  // ---- fact_history -------------------------------------------------------

  datatype Entry = Entry(id: int, fact: Fact)

  predicate ByRecorded(a: Entry, b: Entry) { a.fact.recordedAt <= b.fact.recordedAt }

  ghost function EntriesOf(facts: Facts, key: FactKey): set<Entry> {
    set id | id in facts && facts[id].key == key :: Entry(id, facts[id])
  }

  function Story(c: seq<Transition>): seq<Entry> {
    seq(|c|, i requires 0 <= i < |c| => Entry(c[i].id, RowAt(c, i)))
  }

  lemma StoryIsTheRows(facts: Facts, key: FactKey, c: seq<Transition>, e: Entry)
    requires Chain(facts, key, c)
    ensures e in Story(c) <==> e in EntriesOf(facts, key)
  {
    if e in Story(c) {
      var i :| 0 <= i < |c| && Story(c)[i] == e;
      assert facts[c[i].id] == RowAt(c, i);
    }
    if e in EntriesOf(facts, key) {
      var i :| 0 <= i < |c| && c[i].id == e.id;
      assert facts[c[i].id] == RowAt(c, i);
      assert Story(c)[i] == e;
    }
  }

  /** The system times of a chain rise: the committing attempts of one key draw their now()
      in the order in which they commit. */
  predicate RecordedRises(c: seq<Transition>) {
    forall i, j :: 0 <= i < j < |c| ==> c[i].recordedAt < c[j].recordedAt
  }

  lemma StoryIsOrdered(c: seq<Transition>)
    requires RecordedRises(c)
    ensures Ordered(ByRecorded, Story(c)) && Antisymmetric(ByRecorded, Story(c))
  {
    var story := Story(c);
    forall a, b | a in story && b in story && ByRecorded(a, b) && ByRecorded(b, a) ensures a == b {
      var i :| 0 <= i < |c| && story[i] == a;
      var j :| 0 <= j < |c| && story[j] == b;
      assert !(i < j) && !(j < i);
    }
  }

  ghost predicate ScansOf(scan: seq<Entry>, facts: Facts, key: FactKey) {
    multiset(scan) == multiset(EntriesOf(facts, key))
  }

  lemma StoryIsAScan(facts: Facts, key: FactKey, c: seq<Transition>)
    requires Chain(facts, key, c)
    ensures ScansOf(Story(c), facts, key)
  {
    forall e ensures e in Story(c) <==> e in EntriesOf(facts, key) { StoryIsTheRows(facts, key, c, e); }
    forall i, j | 0 <= i < j < |c| ensures Story(c)[i] != Story(c)[j] {}
    NamesEachOnce(Story(c), EntriesOf(facts, key));
  }

  lemma HistoryOfScan(c: seq<Transition>, scan: seq<Entry>)
    requires multiset(scan) == multiset(Story(c)) && RecordedRises(c)
    ensures Sorted(ByRecorded, scan) == Story(c)
  {
    StoryIsOrdered(c);
    SortedKeepsBag(ByRecorded, scan);
    SortedIsOrdered(ByRecorded, scan);
    OrderedIsUnique(ByRecorded, Story(c), Sorted(ByRecorded, scan));
  }

  lemma FirstDrop(c: seq<Transition>) returns (i: nat)
    requires !RecordedRises(c)
    ensures i + 1 < |c| && c[i].recordedAt >= c[i + 1].recordedAt
  {
    if a :| 0 <= a < |c| - 1 && c[a].recordedAt >= c[a + 1].recordedAt {
      i := a;
    } else {
      RisesStepwise(c);
      assert false;
    }
  }

  lemma {:induction false} RisesStepwise(c: seq<Transition>)
    requires forall a :: 0 <= a < |c| - 1 ==> c[a].recordedAt < c[a + 1].recordedAt
    ensures RecordedRises(c)
  {
    if |c| > 1 {
      var front := c[..|c| - 1];
      RisesStepwise(front);
      forall i | 0 <= i < |front| ensures c[i].recordedAt < c[|c| - 1].recordedAt {
        assert c[i] == front[i] && front[|front| - 1] == c[|c| - 2];
      }
      assert forall i, j :: 0 <= i < j < |front| ==> c[i].recordedAt < c[j].recordedAt by {
        assert forall i :: 0 <= i < |front| ==> front[i] == c[i];
      }
    }
  }

  function Swapped(story: seq<Entry>, i: nat): seq<Entry>
    requires i + 1 < |story|
  {
    story[i := story[i + 1]][i + 1 := story[i]]
  }

  lemma SwappedKeepsBag(story: seq<Entry>, i: nat)
    requires i + 1 < |story|
    ensures multiset(Swapped(story, i)) == multiset(story)
  {}

  /** Where two neighbours of a chain do not rise, some scan order misleads the query. */
  lemma DropMisleads(c: seq<Transition>, i: nat)
    requires i + 1 < |c| && c[i].id != c[i + 1].id && c[i].recordedAt >= c[i + 1].recordedAt
    ensures Sorted(ByRecorded, Swapped(Story(c), i)) != Story(c)
  {
    var story := Story(c);
    var scan := Swapped(story, i);
    assert scan[i] != story[i];
    SortedIsOrdered(ByRecorded, scan);
    if Ordered(ByRecorded, story) {
      assert ByRecorded(story[i], story[i + 1]);
      TieKeepsOrder(story, i);
      SortedOfOrdered(ByRecorded, scan);
    }
  }

  lemma TieKeepsOrder(story: seq<Entry>, i: nat)
    requires i + 1 < |story| && Ordered(ByRecorded, story)
    requires story[i].fact.recordedAt == story[i + 1].fact.recordedAt
    ensures Ordered(ByRecorded, Swapped(story, i))
  {
    var scan := Swapped(story, i);
    forall k | 0 <= k < |scan| ensures scan[k].fact.recordedAt == story[k].fact.recordedAt {}
    forall a, b | 0 <= a < b < |scan| ensures ByRecorded(scan[a], scan[b]) { assert ByRecorded(story[a], story[b]); }
  }

  /** The history query answers the whole chain in the order it was written, whatever order
      the rows were scanned in. */
  ghost predicate HistoryFaithful(facts: Facts, key: FactKey, c: seq<Transition>) {
    forall scan :: ScansOf(scan, facts, key) ==> Sorted(ByRecorded, scan) == Story(c)
  }

  /** It does if and only if the system times rise along the chain. */
  lemma HistoryIsTheLogIff(facts: Facts, log: seq<Transition>, key: FactKey)
    requires Chains(facts, log)
    ensures HistoryFaithful(facts, key, OfKey(log, key)) <==> RecordedRises(OfKey(log, key))
  {
    var c := OfKey(log, key);
    assert Chain(facts, key, c);
    StoryIsAScan(facts, key, c);
    if RecordedRises(c) {
      forall scan | ScansOf(scan, facts, key) ensures Sorted(ByRecorded, scan) == Story(c) { HistoryOfScan(c, scan); }
    } else {
      ChainMisleads(facts, key, c);
    }
  }

  lemma ChainMisleads(facts: Facts, key: FactKey, c: seq<Transition>)
    requires Chain(facts, key, c) && ScansOf(Story(c), facts, key) && !RecordedRises(c)
    ensures !HistoryFaithful(facts, key, c)
  {
    var i := FirstDrop(c);
    DropMisleads(c, i);
    SwappedKeepsBag(Story(c), i);
    assert ScansOf(Swapped(Story(c), i), facts, key);
  }
}
