/** The consolidation processor (consolidation/postmortem_consolidation/pipeline.py). */
module Pipeline {
  import opened Contracts
  import opened Grouping
  import opened WindowStore
  import opened RunbookRepository

  /** The distiller and the embedder, both functions of their input. */
  datatype Ports = Ports(distill: EpisodeGroup -> ModelResult, embed: string -> Embedding1024)

  datatype Config = Config(ports: Ports, reinforcements: nat)

  datatype SystemState = SystemState(store: StoreState, repo: RepoState)

  const INITIAL := SystemState(EMPTY, NOTHING_LEARNED)

  function Embedded(ports: Ports, g: EpisodeGroup): ModelResult {
    var r := ports.distill(g);
    r.(candidate := r.candidate.(embedding := ports.embed(r.candidate.triggerDesc)))
  }

  /** The repository write of one group; the archive write follows it. */
  function ApplyGroup(cfg: Config, s: SystemState, g: EpisodeGroup): SystemState {
    s.(repo := ApplySpec(cfg.reinforcements, s.repo, Embedded(cfg.ports, g).candidate, g.Key()).0)
  }

  function Consolidate(cfg: Config, s: SystemState, g: EpisodeGroup): SystemState {
    var applied := ApplyGroup(cfg, s, g);
    applied.(store := ArchiveSpec(applied.store, g.Key(), Embedded(cfg.ports, g)))
  }

  function ConsolidateAll(cfg: Config, s: SystemState, groups: seq<EpisodeGroup>): SystemState {
    if groups == [] then s
    else Consolidate(cfg, ConsolidateAll(cfg, s, groups[..|groups| - 1]), groups[|groups| - 1])
  }

  /** What the repository answers; the embedder's contract rules the refusal out. */
  function MutationOf(cfg: Config, s: SystemState, g: EpisodeGroup): RunbookMutation {
    ApplySpec(cfg.reinforcements, s.repo, Embedded(cfg.ports, g).candidate, g.Key()).1.value
  }

  function Mutations(cfg: Config, s: SystemState, groups: seq<EpisodeGroup>): seq<RunbookMutation> {
    if groups == [] then []
    else
      var front := groups[..|groups| - 1];
      Mutations(cfg, s, front) + [MutationOf(cfg, ConsolidateAll(cfg, s, front), groups[|groups| - 1])]
  }

  function EpisodeIds(groups: seq<EpisodeGroup>): set<int> {
    if groups == [] then {}
    else EpisodeIds(groups[..|groups| - 1]) + set e | e in groups[|groups| - 1].episodes :: e.eventId
  }

  lemma {:induction false} EpisodeIdsMembers(groups: seq<EpisodeGroup>)
    ensures forall id :: id in EpisodeIds(groups) <==> exists g, e :: g in groups && e in g.episodes && e.eventId == id
  {
    if groups != [] {
      var front := groups[..|groups| - 1];
      EpisodeIdsMembers(front);
      assert forall g :: g in groups <==> g in front || g == groups[|groups| - 1];
    }
  }

  function WithIds(events: seq<ChangeEvent>, ids: set<int>): seq<ChangeEvent> {
    if events == [] then []
    else
      var front := WithIds(events[..|events| - 1], ids);
      if events[|events| - 1].eventId in ids then front + [events[|events| - 1]] else front
  }

  ghost function CloseSpec(cfg: Config, s: SystemState, w: int): SystemState {
    var events := ReadSpec(s.store.pending, w);
    var groups := Groups(events);
    var done := ConsolidateAll(cfg, s, groups);
    done.(store := MarkSpec(done.store, WithIds(events, EpisodeIds(groups)), w))
  }

  ghost function ProcessSpec(cfg: Config, s: SystemState, m: Message): SystemState {
    match m
    case Row(e) => s.(store := PutSpec(s.store, e))
    case WindowClosed(w) => CloseSpec(cfg, s, w)
  }

  lemma {:induction false} ConsolidateAllTouchesOnly(cfg: Config, s: SystemState, groups: seq<EpisodeGroup>)
    ensures var t := ConsolidateAll(cfg, s, groups);
            t.store.pending == s.store.pending && t.store.processed == s.store.processed
            && t.store.watermark == s.store.watermark
  {
    if groups != [] { ConsolidateAllTouchesOnly(cfg, s, groups[..|groups| - 1]); }
  }

  lemma {:induction false} WithIdsMembers(events: seq<ChangeEvent>, ids: set<int>)
    ensures forall e :: e in WithIds(events, ids) <==> e in events && e.eventId in ids
  {
    if events != [] {
      WithIdsMembers(events[..|events| - 1], ids);
      assert events == events[..|events| - 1] + [events[|events| - 1]];
    }
  }

  // ---- What a window does beyond the buffer -------------------------------

  /** The candidate of a group: the model's, with the embedding of its trigger. */
  function CandidateOf(cfg: Config, g: EpisodeGroup): CandidateRunbook {
    var candidate := cfg.ports.distill(g).candidate;
    candidate.(embedding := cfg.ports.embed(candidate.triggerDesc))
  }

  /** The calls a window makes to the repository: one per group, in order, each with the group's
      candidate and its own key. */
  function Calls(cfg: Config, groups: seq<EpisodeGroup>): seq<Application> {
    seq(|groups|, i requires 0 <= i < |groups| => Application(CandidateOf(cfg, groups[i]), groups[i].Key()))
  }

  lemma CallsOneMore(cfg: Config, groups: seq<EpisodeGroup>)
    requires groups != []
    ensures var front, last := groups[..|groups| - 1], groups[|groups| - 1];
            Calls(cfg, groups) == Calls(cfg, front) + [Application(CandidateOf(cfg, last), last.Key())]
  {}

  lemma ApplyGroupCalls(cfg: Config, s: SystemState, g: EpisodeGroup)
    ensures var (repo, answer) := ApplySpec(cfg.reinforcements, s.repo, CandidateOf(cfg, g), g.Key());
            && Consolidate(cfg, s, g).repo == repo && answer == Some(MutationOf(cfg, s, g))
  {}

  lemma {:induction false} WindowCallsTheRepository(cfg: Config, s: SystemState, groups: seq<EpisodeGroup>)
    ensures ConsolidateAll(cfg, s, groups).repo == RunApplications(cfg.reinforcements, s.repo, Calls(cfg, groups))
    ensures |Mutations(cfg, s, groups)| == |groups|
  {
    if groups != [] {
      var front := groups[..|groups| - 1];
      WindowCallsTheRepository(cfg, s, front);
      CallsOneMore(cfg, groups);
      ApplyGroupCalls(cfg, ConsolidateAll(cfg, s, front), groups[|groups| - 1]);
      assert Calls(cfg, groups)[..|front|] == Calls(cfg, front);
    }
  }

  /** The repository's answer to call i. */
  function AnswerTo(reinforcements: nat, repo: RepoState, calls: seq<Application>, i: nat): Option<RunbookMutation>
    requires i < |calls|
  {
    ApplySpec(reinforcements, RunApplications(reinforcements, repo, calls[..i]), calls[i].candidate, calls[i].key).1
  }

  lemma LastMutationIsAnswer(cfg: Config, s: SystemState, groups: seq<EpisodeGroup>)
    requires groups != []
    ensures var n := |groups| - 1;
            && |Mutations(cfg, s, groups)| == |groups|
            && Some(Mutations(cfg, s, groups)[n]) == AnswerTo(cfg.reinforcements, s.repo, Calls(cfg, groups), n)
  {
    var front := groups[..|groups| - 1];
    WindowCallsTheRepository(cfg, s, front);
    ApplyGroupCalls(cfg, ConsolidateAll(cfg, s, front), groups[|groups| - 1]);
    CallsOneMore(cfg, groups);
    assert Calls(cfg, groups)[..|front|] == Calls(cfg, front);
  }

  lemma EarlierAnswersStay(reinforcements: nat, repo: RepoState, calls: seq<Application>, more: seq<Application>, i: nat)
    requires i < |calls| && calls <= more
    ensures AnswerTo(reinforcements, repo, more, i) == AnswerTo(reinforcements, repo, calls, i)
  {
    assert more[..i] == calls[..i] && more[i] == calls[i];
  }

  /** The i-th mutation a window reports is the repository's answer to its i-th call. */
  lemma {:induction false} MutationsAreAnswers(cfg: Config, s: SystemState, groups: seq<EpisodeGroup>, i: nat)
    requires i < |groups|
    ensures i < |Mutations(cfg, s, groups)|
    ensures Some(Mutations(cfg, s, groups)[i]) == AnswerTo(cfg.reinforcements, s.repo, Calls(cfg, groups), i)
  {
    LastMutationIsAnswer(cfg, s, groups);
    if i < |groups| - 1 {
      var front := groups[..|groups| - 1];
      MutationsAreAnswers(cfg, s, front, i);
      CallsOneMore(cfg, groups);
      EarlierAnswersStay(cfg.reinforcements, s.repo, Calls(cfg, front), Calls(cfg, groups), i);
      assert Mutations(cfg, s, groups)[..|groups| - 1] == Mutations(cfg, s, front);
    }
  }

  /** r is the distillation of some group of the window with this key. */
  ghost predicate ArchivedFrom(cfg: Config, groups: seq<EpisodeGroup>, k: IdempotencyKey, r: ModelResult) {
    exists g :: g in groups && g.Key() == k && Distilled(cfg, g, r)
  }

  predicate Distilled(cfg: Config, g: EpisodeGroup, r: ModelResult) {
    r == cfg.ports.distill(g).(candidate := CandidateOf(cfg, g))
  }

  lemma ConsolidateArchives(cfg: Config, s: SystemState, g: EpisodeGroup)
    ensures var before, after := s.store.archives, Consolidate(cfg, s, g).store.archives;
            && g.Key() in after && after == (if g.Key() in before then before else before[g.Key() := after[g.Key()]])
            && (g.Key() !in before ==> Distilled(cfg, g, after[g.Key()]))
  {}

  /** What the window's groups leave in the archive: an entry under each key, the first one that
      was made, and nothing else. */
  ghost predicate Archived(cfg: Config, before: map<IdempotencyKey, ModelResult>, after: map<IdempotencyKey, ModelResult>, groups: seq<EpisodeGroup>) {
    && (forall k :: k in before ==> k in after && after[k] == before[k])
    && (forall g :: g in groups ==> g.Key() in after)
    && (forall k :: k in after && k !in before ==> ArchivedFrom(cfg, groups, k, after[k]))
  }

  lemma ArchivedOneMore(cfg: Config, before: map<IdempotencyKey, ModelResult>, middle: map<IdempotencyKey, ModelResult>,
                        after: map<IdempotencyKey, ModelResult>, front: seq<EpisodeGroup>, g: EpisodeGroup)
    requires Archived(cfg, before, middle, front)
    requires g.Key() in after && after == if g.Key() in middle then middle else middle[g.Key() := after[g.Key()]]
    requires g.Key() !in middle ==> Distilled(cfg, g, after[g.Key()])
    ensures Archived(cfg, before, after, front + [g])
  {
    forall k | k in after && k !in before ensures ArchivedFrom(cfg, front + [g], k, after[k]) {
      if k in middle {
        assert ArchivedFrom(cfg, front, k, middle[k]);
        var h :| h in front && h.Key() == k && Distilled(cfg, h, middle[k]);
        assert h in front + [g];
      } else {
        assert g in front + [g];
      }
    }
  }

  lemma ArchivesGoOn(cfg: Config, before: map<IdempotencyKey, ModelResult>, s: SystemState, u: SystemState,
                     front: seq<EpisodeGroup>, g: EpisodeGroup, all: seq<EpisodeGroup>)
    requires Archived(cfg, before, s.store.archives, front)
    requires u == Consolidate(cfg, s, g) && all == front + [g]
    ensures Archived(cfg, before, u.store.archives, all)
  {
    ConsolidateArchives(cfg, s, g);
    ArchivedOneMore(cfg, before, s.store.archives, u.store.archives, front, g);
  }

  lemma NothingArchived(cfg: Config, before: map<IdempotencyKey, ModelResult>)
    ensures Archived(cfg, before, before, [])
  {}

  lemma {:induction false} WindowArchives(cfg: Config, s: SystemState, groups: seq<EpisodeGroup>)
    ensures Archived(cfg, s.store.archives, ConsolidateAll(cfg, s, groups).store.archives, groups)
  {
    if groups == [] {
      NothingArchived(cfg, s.store.archives);
    } else {
      var front, last := groups[..|groups| - 1], groups[|groups| - 1];
      WindowArchives(cfg, s, front);
      ArchivesGoOn(cfg, s.store.archives, ConsolidateAll(cfg, s, front), ConsolidateAll(cfg, s, groups), front, last, groups);
    }
  }

  lemma ClosingKeepsWrites(cfg: Config, s: SystemState, w: int)
    ensures var done := ConsolidateAll(cfg, s, Groups(ReadSpec(s.store.pending, w)));
            var u := ProcessSpec(cfg, s, WindowClosed(w));
            u.repo == done.repo && u.store.archives == done.store.archives
  {}

  /** A window closes as its calls, its archive entries and its rows say. */
  lemma WindowTells(cfg: Config, s: SystemState, w: int)
    ensures var groups := Groups(ReadSpec(s.store.pending, w));
            var u := ProcessSpec(cfg, s, WindowClosed(w));
            && u.repo == RunApplications(cfg.reinforcements, s.repo, Calls(cfg, groups))
            && Archived(cfg, s.store.archives, u.store.archives, groups)
  {
    ClosingKeepsWrites(cfg, s, w);
    WindowCallsTheRepository(cfg, s, Groups(ReadSpec(s.store.pending, w)));
    WindowArchives(cfg, s, Groups(ReadSpec(s.store.pending, w)));
  }

  /** A row is buffered once, under its own id, and nothing else happens. */
  lemma RowTells(cfg: Config, s: SystemState, e: ChangeEvent)
    ensures var u := ProcessSpec(cfg, s, Row(e));
            var d := DedupId(e.eventId, e.updatedAt);
            && u.repo == s.repo && u.store == s.store.(pending := u.store.pending)
            && u.store.pending == if d in s.store.processed then s.store.pending else s.store.pending[d := e]
  {}

  datatype ProcessingResult = ProcessingResult(
    bufferedEvents: nat, completedGroups: nat, mutations: seq<RunbookMutation>)

  class ConsolidationProcessor {
    const store: InMemoryWindowStore
    const repository: InMemoryRunbookRepository
    const ports: Ports

    ghost function State(): SystemState
      reads store, repository
    {
      SystemState(store.State(), repository.State())
    }

    ghost function Cfg(): Config { Config(ports, repository.reinforcementsToActivate) }

    constructor (store: InMemoryWindowStore, repository: InMemoryRunbookRepository, ports: Ports)
      ensures this.store == store && this.repository == repository && this.ports == ports
    {
      this.store, this.repository, this.ports := store, repository, ports;
    }

    method ConsolidateGroup(group: EpisodeGroup) returns (mutation: RunbookMutation)
      modifies store, repository
      ensures State() == Consolidate(Cfg(), old(State()), group)
      ensures mutation == MutationOf(Cfg(), old(State()), group)
    {
      var result := ports.distill(group);
      var embedded := result.(candidate := result.candidate.(embedding := ports.embed(result.candidate.triggerDesc)));
      var applied := repository.Apply(embedded.candidate, group.Key());
      store.Archive(embedded, group.Key());
      mutation := applied.value;
    }

    /** The loop over the completed groups. */
    method ConsolidateGroups(groups: seq<EpisodeGroup>)
      returns (mutations: seq<RunbookMutation>, completedEventIds: set<int>)
      modifies store, repository
      ensures State() == ConsolidateAll(Cfg(), old(State()), groups)
      ensures completedEventIds == EpisodeIds(groups)
      ensures mutations == Mutations(Cfg(), old(State()), groups)
    {
      mutations := [];
      completedEventIds := {};
      for i := 0 to |groups|
        invariant State() == ConsolidateAll(Cfg(), old(State()), groups[..i])
        invariant completedEventIds == EpisodeIds(groups[..i])
        invariant mutations == Mutations(Cfg(), old(State()), groups[..i])
      {
        assert groups[..i + 1][..i] == groups[..i];
        var mutation := ConsolidateGroup(groups[i]);
        mutations := mutations + [mutation];
        completedEventIds := completedEventIds + set e | e in groups[i].episodes :: e.eventId;
      }
      assert groups[..|groups|] == groups;
    }

    method Process(message: Message) returns (result: ProcessingResult)
      requires store.State().Valid()
      modifies store, repository
      ensures State() == ProcessSpec(Cfg(), old(State()), message)
      ensures message.Row? ==> result == ProcessingResult(1, 0, [])
      ensures message.WindowClosed? ==>
                var groups := Groups(ReadSpec(old(store.pending), message.watermark));
                result == ProcessingResult(0, |groups|, Mutations(Cfg(), old(State()), groups))
    {
      if message.Row? {
        store.Put(message.event);
        return ProcessingResult(1, 0, []);
      }
      var events := store.ReadThrough(message.watermark);
      var groups := GroupCompletedIncidents(events);
      var mutations, completedEventIds := ConsolidateGroups(groups);
      var completedEvents := SelectRows(events, completedEventIds);
      store.MarkProcessed(completedEvents, message.watermark);
      result := ProcessingResult(0, |groups|, mutations);
    }
  }

  method SelectRows(events: seq<ChangeEvent>, ids: set<int>) returns (selected: seq<ChangeEvent>)
    ensures selected == WithIds(events, ids)
  {
    selected := [];
    for i := 0 to |events|
      invariant selected == WithIds(events[..i], ids)
    {
      assert events[..i + 1][..i] == events[..i];
      if events[i].eventId in ids {
        selected := selected + [events[i]];
      }
    }
    assert events[..|events|] == events;
  }
}
