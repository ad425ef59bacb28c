/** The recall ranker: eligibility gates, then the diverse best of each kind
    (backend/src/postmortem_backend/recall.py:15-366). The three score formulas are a port:
    what matters here is that a score depends on the query and the candidate alone. */
module Ranker {
  import opened Contracts
  import opened Sorting

  datatype MemoryKind = Episodic | Semantic | Procedural

  datatype Candidate = Candidate(
    memoryId: int, kind: MemoryKind, orgId: Option<int>, agentId: Option<int>, serviceId: Option<int>,
    similarity: real, successRate: real, confidence: real,
    occurredAt: Option<int>, validFrom: Option<int>, validTo: Option<int>, recordedAt: Option<int>,
    usageCount: int, positive: int, counterexamples: int, tags: set<string>, signatures: set<string>,
    sourceCase: Option<int>, incident: Option<int>, subject: string, predicate_: string, name: string)

  datatype Query = Query(
    orgId: int, agentId: int, serviceId: int, k: int, tags: set<string>, signature: Option<string>,
    asOf: int, coldStart: bool)

  datatype Policy = Policy(
    maxEpisodes: int, maxFacts: int, maxRunbooks: int,
    minEpisodeSimilarity: real, minFactSimilarity: real, minRunbookSimilarity: real,
    minFactConfidence: real, minSuccessRate: real, minUsage: int, minPositive: int,
    maxCounterexampleRatio: real, maxEpisodeAge: int)

  const DAY := 86400

  const DEFAULT_POLICY := Policy(3, 10, 3, 0.65, 0.60, 0.72, 0.65, 0.60, 1, 1, 0.50, 365 * DAY)

  // ---- Gates ------------------------------------------------------------------

  predicate ScopeValid(q: Query, c: Candidate) {
    && (c.orgId.Some? ==> c.orgId.value == q.orgId)
    && (c.agentId.Some? ==> c.agentId.value == q.agentId)
    && (c.serviceId.Some? ==> c.serviceId.value == q.serviceId)
  }

  predicate TemporallyValid(q: Query, c: Candidate) {
    && (c.validFrom.Some? ==> c.validFrom.value <= q.asOf)
    && (c.validTo.Some? ==> q.asOf < c.validTo.value)
    && (c.recordedAt.Some? ==> c.recordedAt.value <= q.asOf)
    && (c.occurredAt.Some? ==> c.occurredAt.value <= q.asOf)
  }

  predicate EpisodeEligible(p: Policy, q: Query, c: Candidate) {
    && c.kind == Episodic && ScopeValid(q, c) && TemporallyValid(q, c)
    && c.similarity >= p.minEpisodeSimilarity
    && (c.occurredAt.Some? ==> q.asOf - c.occurredAt.value <= p.maxEpisodeAge)
  }

  predicate FactEligible(p: Policy, q: Query, c: Candidate) {
    && c.kind == Semantic && ScopeValid(q, c) && TemporallyValid(q, c)
    && c.similarity >= p.minFactSimilarity && c.confidence >= p.minFactConfidence
  }

  /** Usage, positive provenance and counterexample ratio. */
  predicate CountsPass(p: Policy, usage: int, positive: int, counterexamples: int) {
    && usage >= p.minUsage && positive >= p.minPositive
    && var all := if positive + counterexamples > 1 then positive + counterexamples else 1;
       counterexamples as real / all as real <= p.maxCounterexampleRatio
  }

  predicate RunbookEligible(p: Policy, q: Query, c: Candidate) {
    && c.kind == Procedural && ScopeValid(q, c) && TemporallyValid(q, c)
    && c.similarity >= p.minRunbookSimilarity && c.successRate >= p.minSuccessRate
    && CountsPass(p, c.usageCount, c.positive, c.counterexamples)
    && (c.tags != {} ==> c.tags * q.tags != {})
    && (c.signatures != {} ==> q.signature.Some? && q.signature.value in c.signatures)
  }

  // ---- The diverse selection ---------------------------------------------------

  datatype Ranked = Ranked(item: Candidate, score: real)

  /** What two memories must not share in one answer. */
  datatype DiversityKey = Id(id: int) | FactOf(subject: string, predicate_: string) | Named(name: string)

  function EpisodeKey(c: Candidate): DiversityKey {
    Id(if c.sourceCase.Some? then c.sourceCase.value else if c.incident.Some? then c.incident.value else c.memoryId)
  }

  function FactKey(c: Candidate): DiversityKey { FactOf(c.subject, c.predicate_) }

  function RunbookKey(c: Candidate): DiversityKey { if c.name != "" then Named(c.name) else Id(c.memoryId) }

  /** a ranks no lower than b: by score, then similarity, then memory id. */
  predicate Better(a: Ranked, b: Ranked) {
    || a.score > b.score
    || (a.score == b.score && a.item.similarity > b.item.similarity)
    || (a.score == b.score && a.item.similarity == b.item.similarity && a.item.memoryId >= b.item.memoryId)
  }

  lemma BetterIsTotal()
    ensures TotalPreorder(Better)
  {}

  /** x is the best of its key. */
  ghost predicate Champion(x: Ranked, items: set<Ranked>, key: Candidate -> DiversityKey) {
    x in items && forall y :: y in items && key(y.item) == key(x.item) ==> Better(x, y)
  }

  ghost function Champions(items: set<Ranked>, key: Candidate -> DiversityKey): set<Ranked> {
    set x | x in items && Champion(x, items, key)
  }

  function Truncated<T>(xs: seq<T>, limit: int): seq<T> {
    var n := if limit < 1 then 1 else limit;
    if |xs| <= n then xs else xs[..n]
  }

  ghost function Members<T>(xs: seq<T>): set<T> { set x | x in xs }

  /** The best of every key, best first, cut to the limit. The loop tests its limit after it
      has appended, so a limit below 1 acts as 1. */
  ghost function DiverseSpec(items: set<Ranked>, limit: int, key: Candidate -> DiversityKey): seq<Ranked> {
    Truncated(SortedSet(Better, Champions(items, key)), limit)
  }

  /** No two different candidates tie: distinct ids are enough. */
  ghost predicate NoTies(items: seq<Ranked>) {
    forall a, b :: a in items && b in items && a.item.memoryId == b.item.memoryId ==> a == b
  }

  // ---- The loop -------------------------------------------------------------------

  /** The first item of every key. */
  function Firsts(xs: seq<Ranked>, key: Candidate -> DiversityKey): seq<Ranked> {
    if xs == [] then []
    else
      var front := xs[..|xs| - 1];
      var last := xs[|xs| - 1];
      if exists y :: y in front && key(y.item) == key(last.item) then Firsts(front, key)
      else Firsts(front, key) + [last]
  }

  lemma {:induction false} FirstsMembers(xs: seq<Ranked>, key: Candidate -> DiversityKey)
    requires Ordered(Better, xs) && NoTies(xs)
    ensures forall x :: x in Firsts(xs, key) <==> Champion(x, Members(xs), key)
    ensures Ordered(Better, Firsts(xs, key))
    ensures forall i, j :: 0 <= i < j < |Firsts(xs, key)| ==> Firsts(xs, key)[i] != Firsts(xs, key)[j]
  {
    if xs != [] {
      var front := xs[..|xs| - 1];
      var last := xs[|xs| - 1];
      FirstsMembers(front, key);
      assert forall x :: x in xs <==> x in front || x == last;
      forall x | x in front ensures Better(x, last) {
        var i :| 0 <= i < |front| && front[i] == x;
        assert xs[i] == x;
      }
      forall x ensures x in Firsts(xs, key) <==> Champion(x, Members(xs), key) {
        OneMoreItem(front, last, key, x);
      }
      var firsts := Firsts(front, key);
      if !exists y :: y in front && key(y.item) == key(last.item) {
        forall i | 0 <= i < |firsts| ensures firsts[i] != last && Better(firsts[i], last) {
          assert firsts[i] in firsts;
        }
      }
    }
  }

  lemma OneMoreItem(front: seq<Ranked>, last: Ranked, key: Candidate -> DiversityKey, x: Ranked)
    requires forall y :: y in front ==> Better(y, last)
    requires NoTies(front + [last])
    requires x in Firsts(front, key) <==> Champion(x, Members(front), key)
    ensures x in Firsts(front + [last], key) <==> Champion(x, Members(front + [last]), key)
  {
    var xs := front + [last];
    assert xs[..|xs| - 1] == front;
    assert forall y :: y in xs <==> y in front || y == last;
    if exists y :: y in front && key(y.item) == key(last.item) {
      var y :| y in front && key(y.item) == key(last.item);
      if x == last && x !in front {
        assert Better(y, last);
        assert y in Members(xs) && y != last;
        assert Better(last, y) ==> y.item.memoryId == last.item.memoryId;
      }
    }
  }

  /** One ordered list without ties per set. */
  lemma OneOrderOf(xs: seq<Ranked>, s: set<Ranked>)
    requires Ordered(Better, xs) && NoTies(xs) && multiset(xs) == multiset(s)
    ensures xs == SortedSet(Better, s)
  {
    BetterIsTotal();
    SortedSetMembers(Better, s);
    OrderedIsUnique(Better, xs, SortedSet(Better, s));
  }

  lemma FirstsAreSortedChampions(xs: seq<Ranked>, key: Candidate -> DiversityKey)
    requires Ordered(Better, xs) && NoTies(xs)
    ensures Firsts(xs, key) == SortedSet(Better, Champions(Members(xs), key))
  {
    FirstsMembers(xs, key);
    NamesEachOnce(Firsts(xs, key), Champions(Members(xs), key));
    OneOrderOf(Firsts(xs, key), Champions(Members(xs), key));
  }

  lemma SortedFirsts(items: seq<Ranked>, key: Candidate -> DiversityKey)
    requires NoTies(items)
    ensures Firsts(Sorted(Better, items), key) == SortedSet(Better, Champions(Members(items), key))
  {
    var sorted := Sorted(Better, items);
    BetterIsTotal();
    SortedIsOrdered(Better, items);
    SortedKeepsBag(Better, items);
    SameBagSameMembers(items, sorted);
    assert Members(sorted) == Members(items);
    FirstsAreSortedChampions(sorted, key);
  }

  ghost function KeysOf(xs: seq<Ranked>, key: Candidate -> DiversityKey): set<DiversityKey> {
    set x | x in xs :: key(x.item)
  }

  lemma FirstsStep(xs: seq<Ranked>, i: nat, key: Candidate -> DiversityKey)
    requires i < |xs|
    ensures Firsts(xs[..i + 1], key)
         == if key(xs[i].item) in KeysOf(xs[..i], key) then Firsts(xs[..i], key) else Firsts(xs[..i], key) + [xs[i]]
    ensures KeysOf(xs[..i + 1], key) == KeysOf(xs[..i], key) + {key(xs[i].item)}
  {
    var longer := xs[..i + 1];
    assert longer[..|longer| - 1] == xs[..i];
    assert longer == xs[..i] + [xs[i]];
  }

  /** _diverse */
  method Diverse(items: seq<Ranked>, limit: int, key: Candidate -> DiversityKey) returns (selected: seq<Ranked>)
    requires NoTies(items)
    ensures selected == DiverseSpec(Members(items), limit, key)
  {
    var sorted := Sorted(Better, items);
    selected := [];
    var seen: set<DiversityKey> := {};
    var i := 0;
    while i < |sorted|
      invariant 0 <= i <= |sorted|
      invariant selected == Firsts(sorted[..i], key)
      invariant seen == KeysOf(sorted[..i], key)
      invariant |selected| < 1 || |selected| < limit
    {
      var item := sorted[i];
      var diversityKey := key(item.item);
      FirstsStep(sorted, i, key);
      i := i + 1;
      if diversityKey in seen {
        AddingAgain(seen, diversityKey);
        continue;
      }
      seen := seen + {diversityKey};
      selected := selected + [item];
      if |selected| >= limit {
        CutIsSpec(items, i, limit, key);
        return;
      }
    }
    AllIsSpec(items, limit, key);
  }

  lemma AddingAgain<T>(s: set<T>, x: T)
    requires x in s
    ensures s + {x} == s
  {}

  /** A loop that runs to the end has the whole selection. */
  lemma AllIsSpec(items: seq<Ranked>, limit: int, key: Candidate -> DiversityKey)
    requires NoTies(items)
    requires var n := |Firsts(Sorted(Better, items)[..|Sorted(Better, items)|], key)|; n < 1 || n < limit
    ensures Firsts(Sorted(Better, items)[..|Sorted(Better, items)|], key) == DiverseSpec(Members(items), limit, key)
  {
    var sorted := Sorted(Better, items);
    assert sorted[..|sorted|] == sorted;
    SortedFirsts(items, key);
  }

  /** The loop stops with the specified selection once it holds enough items. */
  lemma CutIsSpec(items: seq<Ranked>, i: nat, limit: int, key: Candidate -> DiversityKey)
    requires NoTies(items) && i <= |Sorted(Better, items)|
    requires |Firsts(Sorted(Better, items)[..i], key)| == if limit < 1 then 1 else limit
    ensures Firsts(Sorted(Better, items)[..i], key) == DiverseSpec(Members(items), limit, key)
  {
    CutAt(Sorted(Better, items), i, limit, key);
    SortedFirsts(items, key);
  }

  lemma CutAt(xs: seq<Ranked>, i: nat, limit: int, key: Candidate -> DiversityKey)
    requires i <= |xs|
    requires |Firsts(xs[..i], key)| == if limit < 1 then 1 else limit
    ensures Truncated(Firsts(xs, key), limit) == Firsts(xs[..i], key)
  {
    FirstsPrefix(xs, i, key);
  }

  lemma {:induction false} FirstsPrefix(xs: seq<Ranked>, i: nat, key: Candidate -> DiversityKey)
    requires i <= |xs|
    ensures Firsts(xs[..i], key) <= Firsts(xs, key)
  {
    if i < |xs| {
      var front := xs[..|xs| - 1];
      FirstsPrefix(front, i, key);
      assert front[..i] == xs[..i];
    } else {
      assert xs[..i] == xs;
    }
  }

  // ---- rank -------------------------------------------------------------------------

  /** The score formulas, which read the query and the candidate only. */
  datatype Scores = Scores(episode: (Query, Candidate) -> real, fact: (Query, Candidate) -> real, runbook: (Query, Candidate) -> real)

  datatype Bundle = Bundle(episodes: seq<Ranked>, facts: seq<Ranked>, runbooks: seq<Ranked>, coldStart: bool)

  function Accepted(q: Query, items: seq<Candidate>, eligible: Candidate -> bool, score: (Query, Candidate) -> real): seq<Ranked> {
    if items == [] then []
    else
      var front := Accepted(q, items[..|items| - 1], eligible, score);
      var last := items[|items| - 1];
      if eligible(last) then front + [Ranked(last, score(q, last))] else front
  }

  lemma {:induction false} AcceptedMembers(q: Query, items: seq<Candidate>, eligible: Candidate -> bool, score: (Query, Candidate) -> real)
    ensures forall x :: x in Accepted(q, items, eligible, score) <==>
              x.item in items && eligible(x.item) && x.score == score(q, x.item)
  {
    if items != [] {
      var front := items[..|items| - 1];
      AcceptedMembers(q, front, eligible, score);
      assert items == front + [items[|items| - 1]];
    }
  }

  ghost predicate DistinctIds(items: seq<Candidate>) {
    forall a, b :: a in items && b in items && a.memoryId == b.memoryId ==> a == b
  }

  ghost function Pool(q: Query, items: seq<Candidate>, eligible: Candidate -> bool, score: (Query, Candidate) -> real): set<Ranked> {
    set c | c in items && eligible(c) :: Ranked(c, score(q, c))
  }

  function EpisodeLimit(p: Policy, q: Query): int { if q.k < p.maxEpisodes then q.k else p.maxEpisodes }

  ghost function RankSpec(p: Policy, q: Query, s: Scores, episodes: seq<Candidate>, facts: seq<Candidate>, runbooks: seq<Candidate>): Bundle {
    if q.coldStart then Bundle([], [], [], true)
    else Bundle(
      DiverseSpec(Pool(q, episodes, c => EpisodeEligible(p, q, c), s.episode), EpisodeLimit(p, q), EpisodeKey),
      DiverseSpec(Pool(q, facts, c => FactEligible(p, q, c), s.fact), p.maxFacts, FactKey),
      DiverseSpec(Pool(q, runbooks, c => RunbookEligible(p, q, c), s.runbook), p.maxRunbooks, RunbookKey),
      false)
  }

  /** Filter and score one kind, then select. */
  method RankKind(q: Query, items: seq<Candidate>, eligible: Candidate -> bool, score: (Query, Candidate) -> real,
                  limit: int, key: Candidate -> DiversityKey)
    returns (selected: seq<Ranked>)
    requires DistinctIds(items)
    ensures selected == DiverseSpec(Pool(q, items, eligible, score), limit, key)
  {
    var accepted := Accepted(q, items, eligible, score);
    AcceptedMembers(q, items, eligible, score);
    assert Members(accepted) == Pool(q, items, eligible, score);
    selected := Diverse(accepted, limit, key);
  }

  /** RecallRanker.rank */
  method Rank(p: Policy, q: Query, s: Scores, episodes: seq<Candidate>, facts: seq<Candidate>, runbooks: seq<Candidate>)
    returns (bundle: Bundle)
    requires DistinctIds(episodes) && DistinctIds(facts) && DistinctIds(runbooks)
    ensures bundle == RankSpec(p, q, s, episodes, facts, runbooks)
  {
    if q.coldStart { return Bundle([], [], [], true); }
    var chosenEpisodes := RankKind(q, episodes, c => EpisodeEligible(p, q, c), s.episode, EpisodeLimit(p, q), EpisodeKey);
    var chosenFacts := RankKind(q, facts, c => FactEligible(p, q, c), s.fact, p.maxFacts, FactKey);
    var chosenRunbooks := RankKind(q, runbooks, c => RunbookEligible(p, q, c), s.runbook, p.maxRunbooks, RunbookKey);
    bundle := Bundle(chosenEpisodes, chosenFacts, chosenRunbooks, false);
  }

  /** The order in which candidates arrive, and repeats among them, never show. */
  lemma RankForgetsOrder(p: Policy, q: Query, s: Scores, episodes: seq<Candidate>, facts: seq<Candidate>, runbooks: seq<Candidate>,
                         episodes': seq<Candidate>, facts': seq<Candidate>, runbooks': seq<Candidate>)
    requires forall c :: c in episodes <==> c in episodes'
    requires forall c :: c in facts <==> c in facts'
    requires forall c :: c in runbooks <==> c in runbooks'
    ensures RankSpec(p, q, s, episodes, facts, runbooks) == RankSpec(p, q, s, episodes', facts', runbooks')
  {
    assert Pool(q, episodes, c => EpisodeEligible(p, q, c), s.episode) == Pool(q, episodes', c => EpisodeEligible(p, q, c), s.episode);
    assert Pool(q, facts, c => FactEligible(p, q, c), s.fact) == Pool(q, facts', c => FactEligible(p, q, c), s.fact);
    assert Pool(q, runbooks, c => RunbookEligible(p, q, c), s.runbook) == Pool(q, runbooks', c => RunbookEligible(p, q, c), s.runbook);
  }

  lemma TruncatedIsPrefix<T>(xs: seq<T>, limit: int)
    ensures Truncated(xs, limit) <= xs
    ensures Truncated(xs, limit) == xs || (|Truncated(xs, limit)| >= limit && |Truncated(xs, limit)| >= 1)
    ensures forall x :: x in Truncated(xs, limit) ==> x in xs
    ensures forall j :: 0 <= j < |Truncated(xs, limit)| ==> xs[j] in Truncated(xs, limit)
  {
    forall j | 0 <= j < |Truncated(xs, limit)| ensures xs[j] in Truncated(xs, limit) {
      assert Truncated(xs, limit)[j] == xs[j];
    }
  }

  lemma ChampionsListed(pool: set<Ranked>, key: Candidate -> DiversityKey)
    ensures var sorted := SortedSet(Better, Champions(pool, key));
            Ordered(Better, sorted) && forall x :: x in sorted <==> Champion(x, pool, key)
  {
    BetterIsTotal();
    SortedSetMembers(Better, Champions(pool, key));
  }

  /** A selection holds members of the pool, best first, and two of one key only if they tie. */
  lemma SelectionIsOfBest(pool: set<Ranked>, limit: int, key: Candidate -> DiversityKey)
    ensures var chosen := DiverseSpec(pool, limit, key);
            && Ordered(Better, chosen)
            && (forall y :: y in chosen ==> Champion(y, pool, key))
            && (forall i, j :: 0 <= i < j < |chosen| && key(chosen[i].item) == key(chosen[j].item) ==> Tied(chosen[i], chosen[j]))
  {
    var sorted := SortedSet(Better, Champions(pool, key));
    ChampionsListed(pool, key);
    TruncatedIsPrefix(sorted, limit);
    var chosen := Truncated(sorted, limit);
    forall i, j | 0 <= i < j < |chosen| && key(chosen[i].item) == key(chosen[j].item) ensures Tied(chosen[i], chosen[j]) {
      assert chosen[i] in chosen && chosen[j] in chosen;
    }
  }

  /** What a selection leaves out loses to something: to a better memory of its own key, or to
      every selected one once the limit is reached. */
  lemma LeftOutIsBeaten(pool: set<Ranked>, limit: int, key: Candidate -> DiversityKey, x: Ranked)
    requires x in pool && x !in DiverseSpec(pool, limit, key)
    ensures var chosen := DiverseSpec(pool, limit, key);
            || (exists y :: y in pool && key(y.item) == key(x.item) && Better(y, x) && !Better(x, y))
            || (|chosen| >= limit && |chosen| >= 1 && forall y :: y in chosen ==> Better(y, x))
  {
    var sorted := SortedSet(Better, Champions(pool, key));
    ChampionsListed(pool, key);
    TruncatedIsPrefix(sorted, limit);
    if Champion(x, pool, key) {
      CutOffIsWorse(sorted, limit, x);
    } else {
      var y :| y in pool && key(y.item) == key(x.item) && !Better(x, y);
    }
  }

  lemma CutOffIsWorse(sorted: seq<Ranked>, limit: int, x: Ranked)
    requires Ordered(Better, sorted) && x in sorted && x !in Truncated(sorted, limit)
    ensures var chosen := Truncated(sorted, limit);
            |chosen| >= limit && |chosen| >= 1 && forall y :: y in chosen ==> Better(y, x)
  {
    var m :| 0 <= m < |sorted| && sorted[m] == x;
    var chosen := Truncated(sorted, limit);
    TruncatedIsPrefix(sorted, limit);
    assert |chosen| <= m;
    forall y | y in chosen ensures Better(y, x) {
      var i :| 0 <= i < |chosen| && chosen[i] == y;
      assert sorted[i] == y;
    }
  }

  predicate Tied(a: Ranked, b: Ranked) { Better(a, b) && Better(b, a) }

  /** Nothing recalled bypasses its gates; a cold start recalls nothing. */
  lemma RecalledIsEligible(p: Policy, q: Query, s: Scores, episodes: seq<Candidate>, facts: seq<Candidate>, runbooks: seq<Candidate>)
    ensures var b := RankSpec(p, q, s, episodes, facts, runbooks);
            && (forall x :: x in b.episodes ==> x.item in episodes && EpisodeEligible(p, q, x.item))
            && (forall x :: x in b.facts ==> x.item in facts && FactEligible(p, q, x.item))
            && (forall x :: x in b.runbooks ==> x.item in runbooks && RunbookEligible(p, q, x.item))
  {
    if !q.coldStart {
      ChosenAreInPool(Pool(q, episodes, c => EpisodeEligible(p, q, c), s.episode), EpisodeLimit(p, q), EpisodeKey);
      ChosenAreInPool(Pool(q, facts, c => FactEligible(p, q, c), s.fact), p.maxFacts, FactKey);
      ChosenAreInPool(Pool(q, runbooks, c => RunbookEligible(p, q, c), s.runbook), p.maxRunbooks, RunbookKey);
    }
  }

  lemma ChosenAreInPool(pool: set<Ranked>, limit: int, key: Candidate -> DiversityKey)
    ensures forall y :: y in DiverseSpec(pool, limit, key) ==> y in pool
  {
    SelectionIsOfBest(pool, limit, key);
  }

  // ---- What recall can and cannot show -----------------------------------------------

  /** The memory belongs to the asking organisation, agent and service, or to none. */
  predicate OfTheAsker(q: Query, c: Candidate) {
    && (c.orgId == None || c.orgId == Some(q.orgId))
    && (c.agentId == None || c.agentId == Some(q.agentId))
    && (c.serviceId == None || c.serviceId == Some(q.serviceId))
  }

  /** At the asked instant the memory was valid and known: it had begun and not ended, and it had
      been recorded and had occurred. */
  predicate KnownThen(q: Query, c: Candidate) {
    && !(c.validFrom.Some? && c.validFrom.value > q.asOf)
    && !(c.validTo.Some? && c.validTo.value <= q.asOf)
    && !(c.recordedAt.Some? && c.recordedAt.value > q.asOf)
    && !(c.occurredAt.Some? && c.occurredAt.value > q.asOf)
  }

  predicate FreshEpisode(p: Policy, q: Query, c: Candidate) {
    && c.kind == Episodic && !(c.similarity < p.minEpisodeSimilarity)
    && !(c.occurredAt.Some? && c.occurredAt.value < q.asOf - p.maxEpisodeAge)
  }

  predicate TrustedFact(p: Policy, c: Candidate) {
    c.kind == Semantic && !(c.similarity < p.minFactSimilarity) && !(c.confidence < p.minFactConfidence)
  }

  /** Used, proved and seldom refuted; for the asked tags and signature, where it names any. */
  predicate ProvenRunbook(p: Policy, q: Query, c: Candidate) {
    && c.kind == Procedural && !(c.similarity < p.minRunbookSimilarity) && !(c.successRate < p.minSuccessRate)
    && !(c.usageCount < p.minUsage) && !(c.positive < p.minPositive)
    && !(c.positive + c.counterexamples > 1
         && c.counterexamples as real / (c.positive + c.counterexamples) as real > p.maxCounterexampleRatio)
    && !(c.positive + c.counterexamples <= 1 && c.counterexamples as real > p.maxCounterexampleRatio)
    && (c.tags == {} || exists tag :: tag in c.tags && tag in q.tags)
    && (c.signatures == {} || (q.signature.Some? && q.signature.value in c.signatures))
  }

  lemma EligibleExactly(p: Policy, q: Query, c: Candidate)
    ensures EpisodeEligible(p, q, c) <==> OfTheAsker(q, c) && KnownThen(q, c) && FreshEpisode(p, q, c)
    ensures FactEligible(p, q, c) <==> OfTheAsker(q, c) && KnownThen(q, c) && TrustedFact(p, c)
    ensures RunbookEligible(p, q, c) <==> OfTheAsker(q, c) && KnownThen(q, c) && ProvenRunbook(p, q, c)
  {
    assert c.tags * q.tags != {} <==> exists tag :: tag in c.tags && tag in q.tags by {
      if tag :| tag in c.tags && tag in q.tags { assert tag in c.tags * q.tags; }
    }
  }

  /** Nothing recalled is of another organisation, agent or service, was unknown or no longer
      valid at the asked instant, or is too weak for its kind; and it is one of the candidates,
      with the score its kind's formula gives it. */
  lemma RecallNeverLeaks(p: Policy, q: Query, s: Scores, episodes: seq<Candidate>, facts: seq<Candidate>, runbooks: seq<Candidate>)
    ensures var b := RankSpec(p, q, s, episodes, facts, runbooks);
            && (b.coldStart <==> q.coldStart) && (q.coldStart ==> b.episodes == [] && b.facts == [] && b.runbooks == [])
            && (forall x :: x in b.episodes ==> x.item in episodes && x.score == s.episode(q, x.item)
                                                && OfTheAsker(q, x.item) && KnownThen(q, x.item) && FreshEpisode(p, q, x.item))
            && (forall x :: x in b.facts ==> x.item in facts && x.score == s.fact(q, x.item)
                                             && OfTheAsker(q, x.item) && KnownThen(q, x.item) && TrustedFact(p, x.item))
            && (forall x :: x in b.runbooks ==> x.item in runbooks && x.score == s.runbook(q, x.item)
                                                && OfTheAsker(q, x.item) && KnownThen(q, x.item) && ProvenRunbook(p, q, x.item))
  {
    if !q.coldStart {
      ChosenAreInPool(Pool(q, episodes, c => EpisodeEligible(p, q, c), s.episode), EpisodeLimit(p, q), EpisodeKey);
      ChosenAreInPool(Pool(q, facts, c => FactEligible(p, q, c), s.fact), p.maxFacts, FactKey);
      ChosenAreInPool(Pool(q, runbooks, c => RunbookEligible(p, q, c), s.runbook), p.maxRunbooks, RunbookKey);
      forall c ensures EpisodeEligible(p, q, c) <==> OfTheAsker(q, c) && KnownThen(q, c) && FreshEpisode(p, q, c) { EligibleExactly(p, q, c); }
      forall c ensures FactEligible(p, q, c) <==> OfTheAsker(q, c) && KnownThen(q, c) && TrustedFact(p, c) { EligibleExactly(p, q, c); }
      forall c ensures RunbookEligible(p, q, c) <==> OfTheAsker(q, c) && KnownThen(q, c) && ProvenRunbook(p, q, c) { EligibleExactly(p, q, c); }
    }
  }

  /** Under the default policy: at least these similarities, confidence and success rate; at most a
      year old; used and proved at least once and refuted at most every second time. */
  lemma DefaultsAsk(q: Query, c: Candidate)
    ensures EpisodeEligible(DEFAULT_POLICY, q, c) ==>
              c.similarity >= 0.65 && (c.occurredAt.Some? ==> q.asOf - c.occurredAt.value <= 365 * 24 * 60 * 60)
    ensures FactEligible(DEFAULT_POLICY, q, c) ==> c.similarity >= 0.60 && c.confidence >= 0.65
    ensures RunbookEligible(DEFAULT_POLICY, q, c) ==> c.similarity >= 0.72 && c.successRate >= 0.60
  {}

  lemma DefaultsAskForProof(usage: int, positive: int, counterexamples: int)
    requires CountsPass(DEFAULT_POLICY, usage, positive, counterexamples) && counterexamples >= 0
    ensures usage >= 1 && positive >= 1 && counterexamples <= positive
  {
    AtMostHalf(counterexamples, if positive + counterexamples > 1 then positive + counterexamples else 1);
  }

  lemma AtMostHalf(part: int, whole: int)
    requires whole > 0 && part as real / whole as real <= 0.5
    ensures 2 * part <= whole
  {
    var share := part as real / whole as real;
    assert share * whole as real == part as real;
    assert share * whole as real <= 0.5 * whole as real;
  }

  /** Two episodes of one case: the same source case, or incident where neither names a case, or
      where one names the other's. */
  function CaseOf(c: Candidate): int {
    match c.sourceCase
    case Some(case_) => case_
    case None => match c.incident case Some(incident) => incident case None => c.memoryId
  }

  /** a comes before b: a higher score, or the same and more similar, or the same and a higher id. */
  predicate Above(a: Ranked, b: Ranked) {
    if a.score != b.score then a.score > b.score
    else if a.item.similarity != b.item.similarity then a.item.similarity > b.item.similarity
    else a.item.memoryId > b.item.memoryId
  }

  /** The list falls in rank, and is no longer than its limit (one below 1 acting as 1). */
  ghost predicate FallsTo(xs: seq<Ranked>, limit: int) {
    && (forall i, j :: 0 <= i < j < |xs| ==> Above(xs[i], xs[j]))
    && |xs| <= if limit < 1 then 1 else limit
  }

  lemma SelectionFalls(pool: set<Ranked>, limit: int, key: Candidate -> DiversityKey)
    requires forall a, b :: a in pool && b in pool && a.item.memoryId == b.item.memoryId ==> a == b
    ensures var chosen := DiverseSpec(pool, limit, key);
            && FallsTo(chosen, limit)
            && (forall i, j :: 0 <= i < j < |chosen| ==> key(chosen[i].item) != key(chosen[j].item))
  {
    var sorted := SortedSet(Better, Champions(pool, key));
    var chosen := DiverseSpec(pool, limit, key);
    SelectionIsOfBest(pool, limit, key);
    BetterIsTotal();
    SortedSetMembers(Better, Champions(pool, key));
    ListsOnce(sorted, Champions(pool, key));
    forall i, j | 0 <= i < j < |chosen| ensures Above(chosen[i], chosen[j]) && key(chosen[i].item) != key(chosen[j].item) {
      assert chosen[i] == sorted[i] && chosen[j] == sorted[j];
      assert chosen[i] in chosen && chosen[j] in chosen;
      assert Better(chosen[i], chosen[j]);
    }
  }

  lemma PoolIsDistinct(q: Query, items: seq<Candidate>, eligible: Candidate -> bool, score: (Query, Candidate) -> real)
    requires DistinctIds(items)
    ensures var pool := Pool(q, items, eligible, score);
            forall a, b :: a in pool && b in pool && a.item.memoryId == b.item.memoryId ==> a == b
  {}

  /** No two episodes recalled are of one case, no two facts share subject and predicate, and no
      two runbooks share a name; each kind falls in rank and keeps to its limit. */
  lemma RecallIsDiverse(p: Policy, q: Query, s: Scores, episodes: seq<Candidate>, facts: seq<Candidate>, runbooks: seq<Candidate>)
    requires DistinctIds(episodes) && DistinctIds(facts) && DistinctIds(runbooks)
    ensures var b := RankSpec(p, q, s, episodes, facts, runbooks);
            && FallsTo(b.episodes, if q.k < p.maxEpisodes then q.k else p.maxEpisodes)
            && FallsTo(b.facts, p.maxFacts) && FallsTo(b.runbooks, p.maxRunbooks)
            && (forall i, j :: 0 <= i < j < |b.episodes| ==> CaseOf(b.episodes[i].item) != CaseOf(b.episodes[j].item))
            && (forall i, j :: 0 <= i < j < |b.facts| ==>
                  (b.facts[i].item.subject, b.facts[i].item.predicate_) != (b.facts[j].item.subject, b.facts[j].item.predicate_))
            && (forall i, j :: 0 <= i < j < |b.runbooks| && b.runbooks[i].item.name != "" ==>
                  b.runbooks[i].item.name != b.runbooks[j].item.name)
  {
    if !q.coldStart {
      PoolIsDistinct(q, episodes, c => EpisodeEligible(p, q, c), s.episode);
      PoolIsDistinct(q, facts, c => FactEligible(p, q, c), s.fact);
      PoolIsDistinct(q, runbooks, c => RunbookEligible(p, q, c), s.runbook);
      SelectionFalls(Pool(q, episodes, c => EpisodeEligible(p, q, c), s.episode), EpisodeLimit(p, q), EpisodeKey);
      SelectionFalls(Pool(q, facts, c => FactEligible(p, q, c), s.fact), p.maxFacts, FactKey);
      SelectionFalls(Pool(q, runbooks, c => RunbookEligible(p, q, c), s.runbook), p.maxRunbooks, RunbookKey);
      var b := RankSpec(p, q, s, episodes, facts, runbooks);
      KeysTell(b.episodes, b.facts, b.runbooks);
    }
  }

  lemma KeysTell(episodes: seq<Ranked>, facts: seq<Ranked>, runbooks: seq<Ranked>)
    requires forall i, j :: 0 <= i < j < |episodes| ==> EpisodeKey(episodes[i].item) != EpisodeKey(episodes[j].item)
    requires forall i, j :: 0 <= i < j < |facts| ==> FactKey(facts[i].item) != FactKey(facts[j].item)
    requires forall i, j :: 0 <= i < j < |runbooks| ==> RunbookKey(runbooks[i].item) != RunbookKey(runbooks[j].item)
    ensures forall i, j :: 0 <= i < j < |episodes| ==> CaseOf(episodes[i].item) != CaseOf(episodes[j].item)
    ensures forall i, j :: 0 <= i < j < |facts| ==>
              (facts[i].item.subject, facts[i].item.predicate_) != (facts[j].item.subject, facts[j].item.predicate_)
    ensures forall i, j :: 0 <= i < j < |runbooks| && runbooks[i].item.name != "" ==> runbooks[i].item.name != runbooks[j].item.name
  {
    forall i, j | 0 <= i < j < |episodes| ensures CaseOf(episodes[i].item) != CaseOf(episodes[j].item) {
      assert EpisodeKey(episodes[i].item) != EpisodeKey(episodes[j].item);
    }
    forall i, j | 0 <= i < j < |facts|
      ensures (facts[i].item.subject, facts[i].item.predicate_) != (facts[j].item.subject, facts[j].item.predicate_)
    {
      assert FactKey(facts[i].item) != FactKey(facts[j].item);
    }
    forall i, j | 0 <= i < j < |runbooks| && runbooks[i].item.name != "" ensures runbooks[i].item.name != runbooks[j].item.name {
      assert RunbookKey(runbooks[i].item) != RunbookKey(runbooks[j].item);
    }
  }
}
