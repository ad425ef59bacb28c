/** The pending-row buffer (consolidation/postmortem_consolidation/storage.py). */
module WindowStore {
  import opened Contracts
  import opened Sorting
  import opened Grouping

  datatype StoreState = StoreState(
    pending: map<DedupId, ChangeEvent>, processed: set<DedupId>,
    archives: map<IdempotencyKey, ModelResult>, watermark: Option<int>)
  {
    /** A row is filed under its own deduplication id and is never both waiting and done. */
    ghost predicate Valid() {
      && (forall d :: d in pending ==> pending[d].Dedup() == d)
      && pending.Keys !! processed
    }
  }

  const EMPTY := StoreState(map[], {}, map[], None)

  function PutSpec(s: StoreState, e: ChangeEvent): StoreState {
    if e.Dedup() in s.processed then s else s.(pending := s.pending[e.Dedup() := e])
  }

  /** The rows at or before the watermark. */
  function Through(pending: map<DedupId, ChangeEvent>, w: int): set<ChangeEvent> {
    set d | d in pending && pending[d].updatedAt <= w :: pending[d]
  }

  ghost function ReadSpec(pending: map<DedupId, ChangeEvent>, w: int): seq<ChangeEvent> {
    SortedSet(ByUpdate, Through(pending, w))
  }

  function DedupIds(events: seq<ChangeEvent>): set<DedupId> {
    set e | e in events :: e.Dedup()
  }

  /** `max(self.watermark or w, w)`: a stored zero is falsy and is dropped. */
  function Advance(old_: Option<int>, w: int): int {
    var base := if old_ == None || old_ == Some(0) then w else old_.value;
    if base < w then w else base
  }

  function MarkSpec(s: StoreState, events: seq<ChangeEvent>, w: int): StoreState {
    s.(pending := s.pending - DedupIds(events),
       processed := s.processed + DedupIds(events),
       watermark := Some(Advance(s.watermark, w)))
  }

  function ArchiveSpec(s: StoreState, k: IdempotencyKey, r: ModelResult): StoreState {
    if k in s.archives then s else s.(archives := s.archives[k := r])
  }

  lemma ThroughIsCoherent(s: StoreState, w: int)
    requires s.Valid()
    ensures Coherent(Through(s.pending, w))
    ensures AntisymmetricOn(ByUpdate, Through(s.pending, w))
  {}

  /** The watermark only moves forward, except that a window before the epoch forgets a
      stored zero. */
  lemma WatermarkMonotone(old_: Option<int>, w: int)
    ensures old_.Some? ==> (Advance(old_, w) >= old_.value <==> !(old_ == Some(0) && w < 0))
    ensures Advance(old_, w) >= w
  {}

  class InMemoryWindowStore {
    var pending: map<DedupId, ChangeEvent>
    var processed: set<DedupId>
    var archives: map<IdempotencyKey, ModelResult>
    var watermark: Option<int>

    ghost function State(): StoreState
      reads this
    {
      StoreState(pending, processed, archives, watermark)
    }

    constructor ()
      ensures State() == EMPTY
    {
      pending, processed, archives, watermark := map[], {}, map[], None;
    }

    method Put(event: ChangeEvent)
      modifies this
      ensures State() == PutSpec(old(State()), event)
    {
      if event.Dedup() !in processed {
        pending := pending[event.Dedup() := event];
      }
    }

    method ReadThrough(w: int) returns (events: seq<ChangeEvent>)
      requires State().Valid()
      ensures events == ReadSpec(pending, w)
    {
      var found := [];
      var rest := pending.Keys;
      while rest != {}
        invariant rest <= pending.Keys
        invariant multiset(found) == multiset(set d | d in pending.Keys - rest && pending[d].updatedAt <= w :: pending[d])
        decreases rest
      {
        var d :| d in rest;
        ghost var before := set x | x in pending.Keys - rest && pending[x].updatedAt <= w :: pending[x];
        ghost var after := set x | x in pending.Keys - (rest - {d}) && pending[x].updatedAt <= w :: pending[x];
        if pending[d].updatedAt <= w {
          found := found + [pending[d]];
          assert pending[d] !in before;
          assert after == before + {pending[d]};
        } else {
          assert after == before;
        }
        rest := rest - {d};
      }
      assert (set d | d in pending.Keys - rest && pending[d].updatedAt <= w :: pending[d]) == Through(pending, w);
      OrdersAreTotal();
      ThroughIsCoherent(State(), w);
      SortedOfAnyListing(ByUpdate, found, Through(pending, w));
      events := Sorted(ByUpdate, found);
    }

    method MarkProcessed(events: seq<ChangeEvent>, w: int)
      modifies this
      ensures State() == MarkSpec(old(State()), events, w)
    {
      for i := 0 to |events|
        invariant pending == old(pending) - DedupIds(events[..i])
        invariant processed == old(processed) + DedupIds(events[..i])
        invariant archives == old(archives) && watermark == old(watermark)
      {
        assert events[..i + 1] == events[..i] + [events[i]];
        assert DedupIds(events[..i + 1]) == DedupIds(events[..i]) + {events[i].Dedup()};
        processed := processed + {events[i].Dedup()};
        pending := pending - {events[i].Dedup()};
      }
      assert events[..|events|] == events;
      var base := if watermark == None || watermark == Some(0) then w else watermark.value;
      watermark := Some(if base < w then w else base);
    }

    method Archive(result: ModelResult, k: IdempotencyKey)
      modifies this
      ensures State() == ArchiveSpec(old(State()), k, result)
    {
      if k !in archives {
        archives := archives[k := result];
      }
    }
  }
}
