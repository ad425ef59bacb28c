/** The records the consolidation pipeline passes along. Identifiers are opaque integers
    whose order stands for the string order; a change timestamp is the integer the
    decimal HLC denotes; a SHA-256 key is represented by the value it hashes. */
module Contracts {

  datatype Option<+T> = None | Some(value: T)

  datatype RunbookOutcome = Success | Failed | NoEffect

  datatype DedupId = DedupId(eventId: int, updatedAt: int)

  datatype ChangeEvent = ChangeEvent(
    eventId: int, orgId: int, agentId: int, incidentId: int, serviceId: int,
    eventType: string, content: string, occurredAt: int, updatedAt: int,
    outcomeLabel: string)  // the lower-cased "outcome" entry of the row's metadata, "" if absent
  {
    function Dedup(): DedupId { DedupId(eventId, updatedAt) }
    function Incident(): IncidentKey { IncidentKey(orgId, incidentId) }
  }

  datatype Message = Row(event: ChangeEvent) | WindowClosed(watermark: int)

  datatype IncidentKey = IncidentKey(orgId: int, incidentId: int)

  /** The hashed text is the organisation, the incident and the sorted event ids; sorting
      forgets the order of the ids and keeps their bag. */
  datatype IdempotencyKey = IdempotencyKey(orgId: int, incidentId: int, eventIds: multiset<int>)

  datatype EpisodeGroup = EpisodeGroup(
    orgId: int, agentId: int, incidentId: int, serviceId: int,
    episodes: seq<ChangeEvent>, outcome: RunbookOutcome)
  {
    function Incident(): IncidentKey { IncidentKey(orgId, incidentId) }
    function Key(): IdempotencyKey { IdempotencyKey(orgId, incidentId, multiset(EventIds(episodes))) }
  }

  function EventIds(events: seq<ChangeEvent>): seq<int> {
    seq(|events|, i requires 0 <= i < |events| => events[i].eventId)
  }

  type Embedding = seq<real>

  const EMBEDDING_DIMENSIONS := 1024

  /** What the embedding port returns: it refuses any other length itself. */
  type Embedding1024 = v: Embedding | |v| == EMBEDDING_DIMENSIONS
    witness seq(EMBEDDING_DIMENSIONS, _ => 0.0)

  datatype CandidateRunbook = CandidateRunbook(
    orgId: int, agentId: int, incidentId: int, name: string, triggerDesc: string,
    steps: seq<string>, outcome: RunbookOutcome, sourceEventIds: seq<int>, embedding: Embedding)

  datatype ModelResult = ModelResult(candidate: CandidateRunbook, modelId: string, rawResponse: string)
}
