/** The life of one runbook version as a function of the outcomes credited to it: the
    counters and the status that `apply` updates step by step, and their closed form. */
module RunbookStatus {

  datatype Status = Draft | Active | Deprecated

  datatype Tally = Tally(successes: nat, failures: nat, status: Status)

  const CREATED := Tally(1, 0, Draft)

  function Weaken(t: Tally): Tally {
    Tally(t.successes, t.failures + 1, if t.failures + 1 >= t.successes then Deprecated else t.status)
  }

  function Reinforce(reinforcements: nat, t: Tally): Tally {
    Tally(t.successes + 1, t.failures,
          if t.status == Draft && t.successes + 1 >= reinforcements + 1 then Active else t.status)
  }

  /** The outcomes of a version, oldest first; it is born by a success. */
  function Incremental(reinforcements: nat, history: seq<bool>): Tally
    requires history != []
  {
    if |history| == 1 then CREATED
    else
      var before := Incremental(reinforcements, history[..|history| - 1]);
      if history[|history| - 1] then Reinforce(reinforcements, before) else Weaken(before)
  }

  function Count(history: seq<bool>, outcome: bool): nat {
    if history == [] then 0
    else Count(history[..|history| - 1], outcome) + if history[|history| - 1] == outcome then 1 else 0
  }

  /** At some point the counterexamples caught up with the successes. */
  ghost predicate EverOutweighed(history: seq<bool>) {
    exists n :: OutweighedAt(history, n)
  }

  ghost predicate OutweighedAt(history: seq<bool>, n: int) {
    0 < n <= |history| && Count(history[..n], false) >= Count(history[..n], true)
  }

  ghost function StatusOf(reinforcements: nat, history: seq<bool>): Status {
    if EverOutweighed(history) then Deprecated
    else if Count(history, true) >= reinforcements + 1 then Active
    else Draft
  }

  lemma OutweighedLater(history: seq<bool>)
    requires history != []
    ensures EverOutweighed(history) <==>
              EverOutweighed(history[..|history| - 1]) || Count(history, false) >= Count(history, true)
  {
    var front := history[..|history| - 1];
    assert history[..|history|] == history;
    if EverOutweighed(history) {
      var n :| OutweighedAt(history, n);
      if n < |history| {
        assert front[..n] == history[..n];
        assert OutweighedAt(front, n);
      }
    }
    if EverOutweighed(front) {
      var n :| OutweighedAt(front, n);
      assert front[..n] == history[..n];
      assert OutweighedAt(history, n);
    }
    if Count(history, false) >= Count(history, true) {
      assert OutweighedAt(history, |history|);
    }
  }

  /** The step-by-step counters and status equal their closed form. */
  lemma {:induction false} IncrementalIsClosedForm(reinforcements: nat, history: seq<bool>)
    requires reinforcements >= 1
    requires history != [] && history[0]
    ensures Incremental(reinforcements, history) ==
            Tally(Count(history, true), Count(history, false), StatusOf(reinforcements, history))
  {
    var last := |history| - 1;
    var front := history[..last];
    OutweighedLater(history);
    if last == 0 {
      assert Count(front, true) == 0 && Count(front, false) == 0;
      assert !EverOutweighed(front);
    } else {
      IncrementalIsClosedForm(reinforcements, front);
      NotOutweighedBySuccess(front);
    }
  }

  lemma NotOutweighedBySuccess(front: seq<bool>)
    requires front != []
    ensures !EverOutweighed(front) ==> Count(front, false) < Count(front, true)
  {
    if Count(front, false) >= Count(front, true) {
      assert front[..|front|] == front;
      assert OutweighedAt(front, |front|);
    }
  }

  /** Deprecation by evidence is final: no later outcome revives the version. */
  lemma {:induction false} DeprecatedIsAbsorbing(reinforcements: nat, history: seq<bool>, later: seq<bool>)
    requires history != [] && Incremental(reinforcements, history).status == Deprecated
    ensures Incremental(reinforcements, history + later).status == Deprecated
  {
    if later == [] {
      assert history + later == history;
    } else {
      var n := |later| - 1;
      DeprecatedIsAbsorbing(reinforcements, history, later[..n]);
      assert (history + later)[..|history| + n] == history + later[..n];
    }
  }
}
