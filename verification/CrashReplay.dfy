/** Crashes inside a window: a processor that dies after some repository or archive writes,
    but before the rows are marked, is restarted on the same window. */
module CrashReplay {
  import opened Contracts
  import opened Grouping
  import opened WindowStore
  import opened RunbookRepository
  import opened Pipeline
  import opened Delivery

  /** The state a crash leaves behind: k groups written, and possibly the repository write
      of the next one without its archive entry. */
  function Cut(cfg: Config, s: SystemState, groups: seq<EpisodeGroup>, k: nat, halfway: bool): SystemState
    requires k <= |groups|
  {
    var done := ConsolidateAll(cfg, s, groups[..k]);
    if halfway && k < |groups| then ApplyGroup(cfg, done, groups[k]) else done
  }

  ghost predicate Written(s: SystemState, g: EpisodeGroup) {
    g.Key() in s.repo.processed && g.Key() in s.store.archives
  }

  lemma WritingAgainIsInvisible(cfg: Config, s: SystemState, g: EpisodeGroup)
    ensures g.Key() in s.repo.processed ==> ApplyGroup(cfg, s, g) == s
    ensures g.Key() in ApplyGroup(cfg, s, g).repo.processed
    ensures Written(s, g) ==> Consolidate(cfg, s, g) == s
    ensures Written(Consolidate(cfg, s, g), g)
    ensures Consolidate(cfg, ApplyGroup(cfg, s, g), g) == Consolidate(cfg, s, g)
  {}

  lemma {:induction false} WrittenStays(cfg: Config, s: SystemState, groups: seq<EpisodeGroup>, k: nat, i: nat)
    requires i < k <= |groups|
    ensures Written(ConsolidateAll(cfg, s, groups[..k]), groups[i])
  {
    var front := groups[..k - 1];
    assert groups[..k][..k - 1] == front;
    var before := ConsolidateAll(cfg, s, front);
    WritingAgainIsInvisible(cfg, before, groups[k - 1]);
    if i < k - 1 {
      WrittenStays(cfg, s, groups, k - 1, i);
    }
  }

  lemma CutIsWritten(cfg: Config, s: SystemState, groups: seq<EpisodeGroup>, k: nat, halfway: bool, i: nat)
    requires i < k <= |groups|
    ensures Written(Cut(cfg, s, groups, k, halfway), groups[i])
  {
    WrittenStays(cfg, s, groups, k, i);
  }

  /** Where redoing the first i groups leads. */
  function Redone(cfg: Config, s: SystemState, groups: seq<EpisodeGroup>, k: nat, halfway: bool, i: nat): SystemState
    requires k <= |groups| && i <= |groups|
  {
    if i <= k then Cut(cfg, s, groups, k, halfway) else ConsolidateAll(cfg, s, groups[..i])
  }

  lemma RedoOne(cfg: Config, s: SystemState, groups: seq<EpisodeGroup>, k: nat, halfway: bool, i: nat)
    requires k <= |groups| && 0 < i <= |groups|
    ensures Consolidate(cfg, Redone(cfg, s, groups, k, halfway, i - 1), groups[i - 1]) == Redone(cfg, s, groups, k, halfway, i)
  {
    assert groups[..i][..i - 1] == groups[..i - 1];
    if i <= k {
      CutIsWritten(cfg, s, groups, k, halfway, i - 1);
      WritingAgainIsInvisible(cfg, Cut(cfg, s, groups, k, halfway), groups[i - 1]);
    } else if i == k + 1 {
      WritingAgainIsInvisible(cfg, ConsolidateAll(cfg, s, groups[..k]), groups[k]);
    }
  }

  /** Redoing the groups from the start catches up with the cut and then continues as if
      nothing had happened. */
  lemma {:induction false} RedoCatchesUp(cfg: Config, s: SystemState, groups: seq<EpisodeGroup>, k: nat, halfway: bool, i: nat)
    requires k <= |groups| && i <= |groups|
    ensures ConsolidateAll(cfg, Cut(cfg, s, groups, k, halfway), groups[..i]) ==
            if i <= k then Cut(cfg, s, groups, k, halfway) else ConsolidateAll(cfg, s, groups[..i])
  {
    if i > 0 {
      RedoCatchesUp(cfg, s, groups, k, halfway, i - 1);
      RedoOne(cfg, s, groups, k, halfway, i);
      assert groups[..i][..i - 1] == groups[..i - 1];
    }
  }

  lemma CutAgain(cfg: Config, s: SystemState, groups: seq<EpisodeGroup>, k: nat, halfway: bool, k2: nat, halfway2: bool)
    returns (k3: nat, halfway3: bool)
    requires k <= |groups| && k2 <= |groups|
    ensures k3 <= |groups|
    ensures Cut(cfg, Cut(cfg, s, groups, k, halfway), groups, k2, halfway2) == Cut(cfg, s, groups, k3, halfway3)
  {
    var cut := Cut(cfg, s, groups, k, halfway);
    RedoCatchesUp(cfg, s, groups, k, halfway, k2);
    if k2 > k {
      k3, halfway3 := k2, halfway2;
    } else if k2 < k {
      CutIsWritten(cfg, s, groups, k, halfway, k2);
      WritingAgainIsInvisible(cfg, cut, groups[k2]);
      k3, halfway3 := k, halfway;
    } else {
      if k < |groups| {
        WritingAgainIsInvisible(cfg, ConsolidateAll(cfg, s, groups[..k]), groups[k]);
        WritingAgainIsInvisible(cfg, cut, groups[k]);
      }
      k3, halfway3 := k, halfway || halfway2;
    }
  }

  // ---- Delivery logs with crashes -----------------------------------------

  datatype Attempt = Handled(message: Message) | Crashed(window: int, groups: nat, halfway: bool)

  ghost function WindowGroups(s: SystemState, w: int): seq<EpisodeGroup> {
    Groups(ReadSpec(s.store.pending, w))
  }

  ghost function AttemptSpec(cfg: Config, s: SystemState, a: Attempt): SystemState {
    match a
    case Handled(m) => ProcessSpec(cfg, s, m)
    case Crashed(w, k, halfway) =>
      var groups := WindowGroups(s, w);
      Cut(cfg, s, groups, if k <= |groups| then k else |groups|, halfway)
  }

  ghost function RunLog(cfg: Config, s: SystemState, log: seq<Attempt>): SystemState {
    if log == [] then s else AttemptSpec(cfg, RunLog(cfg, s, log[..|log| - 1]), log[|log| - 1])
  }

  function HandledOf(log: seq<Attempt>): seq<Message> {
    if log == [] then []
    else
      var front := HandledOf(log[..|log| - 1]);
      match log[|log| - 1] case Handled(m) => front + [m] case Crashed(_, _, _) => front
  }

  /** The window whose last attempt crashed and that has not been closed since. */
  function Owed(log: seq<Attempt>): Option<int> {
    if log == [] then None
    else
      var before := Owed(log[..|log| - 1]);
      match log[|log| - 1]
      case Crashed(w, _, _) => if before == None then Some(w) else before
      case Handled(m) => if before != None && m == WindowClosed(before.value) then None else before
  }

  /** A queue that keeps order hands a crashed window out again before any new message;
      messages that were handled before may come in between. */
  ghost predicate MayFollow(front: seq<Attempt>, a: Attempt) {
    var owed := Owed(front);
    var message := if a.Handled? then a.message else WindowClosed(a.window);
    owed == None || message == WindowClosed(owed.value) || message in HandledOf(front)
  }

  ghost predicate Redelivered(log: seq<Attempt>) {
    log == [] || (Redelivered(log[..|log| - 1]) && MayFollow(log[..|log| - 1], log[|log| - 1]))
  }

  ghost predicate Partway(cfg: Config, base: SystemState, s: SystemState, w: int) {
    exists k: nat, halfway :: k <= |WindowGroups(base, w)| && s == Cut(cfg, base, WindowGroups(base, w), k, halfway)
  }

  lemma CutKeepsWindow(cfg: Config, s: SystemState, groups: seq<EpisodeGroup>, k: nat, halfway: bool)
    requires k <= |groups|
    ensures Cut(cfg, s, groups, k, halfway).store.pending == s.store.pending
    ensures Cut(cfg, s, groups, k, halfway).store.processed == s.store.processed
    ensures Cut(cfg, s, groups, k, halfway).store.watermark == s.store.watermark
  {
    ConsolidateAllTouchesOnly(cfg, s, groups[..k]);
  }

  lemma RedoAll(cfg: Config, s: SystemState, groups: seq<EpisodeGroup>, k: nat, halfway: bool)
    requires k <= |groups|
    ensures ConsolidateAll(cfg, Cut(cfg, s, groups, k, halfway), groups) == ConsolidateAll(cfg, s, groups)
  {
    assert groups[..|groups|] == groups;
    RedoCatchesUp(cfg, s, groups, k, halfway, |groups|);
  }

  lemma SameWritesSameClose(cfg: Config, s: SystemState, t: SystemState, w: int)
    requires s.store.pending == t.store.pending
    requires ConsolidateAll(cfg, s, WindowGroups(t, w)) == ConsolidateAll(cfg, t, WindowGroups(t, w))
    ensures CloseSpec(cfg, s, w) == CloseSpec(cfg, t, w)
  {}

  lemma RestartFrom(cfg: Config, base: SystemState, w: int, groups: seq<EpisodeGroup>, k: nat, halfway: bool)
    requires groups == WindowGroups(base, w) && k <= |groups|
    ensures CloseSpec(cfg, Cut(cfg, base, groups, k, halfway), w) == CloseSpec(cfg, base, w)
  {
    CutKeepsWindow(cfg, base, groups, k, halfway);
    RedoAll(cfg, base, groups, k, halfway);
    SameWritesSameClose(cfg, Cut(cfg, base, groups, k, halfway), base, w);
  }

  /** Restarting a crashed window ends where an uncrashed run ends. */
  lemma RestartCompletes(cfg: Config, base: SystemState, s: SystemState, w: int)
    requires Partway(cfg, base, s, w)
    ensures CloseSpec(cfg, s, w) == CloseSpec(cfg, base, w)
  {
    var k: nat, halfway :| k <= |WindowGroups(base, w)| && s == Cut(cfg, base, WindowGroups(base, w), k, halfway);
    RestartFrom(cfg, base, w, WindowGroups(base, w), k, halfway);
  }

  lemma CrashStaysPartway(cfg: Config, base: SystemState, s: SystemState, w: int, k: nat, halfway: bool)
    requires s == base || Partway(cfg, base, s, w)
    ensures Partway(cfg, base, AttemptSpec(cfg, s, Crashed(w, k, halfway)), w)
  {
    var groups := WindowGroups(base, w);
    var n := if k <= |groups| then k else |groups|;
    if s == base {
      assert AttemptSpec(cfg, s, Crashed(w, k, halfway)) == Cut(cfg, base, groups, n, halfway);
    } else {
      var k1: nat, h1 :| k1 <= |groups| && s == Cut(cfg, base, groups, k1, h1);
      CutKeepsWindow(cfg, base, groups, k1, h1);
      var k3, h3 := CutAgain(cfg, base, groups, k1, h1, n, halfway);
      assert AttemptSpec(cfg, s, Crashed(w, k, halfway)) == Cut(cfg, base, groups, k3, h3);
    }
  }

  /** The state is that of the handled messages, or part of the way into the owed window. */
  ghost predicate Tracks(cfg: Config, base: SystemState, s: SystemState, owed: Option<int>) {
    match owed case None => s == base case Some(w) => Partway(cfg, base, s, w)
  }

  /** The crash-free trace moves only with handled messages. */
  ghost function HandledSpec(cfg: Config, base: SystemState, a: Attempt): SystemState {
    if a.Handled? then ProcessSpec(cfg, base, a.message) else base
  }

  lemma CutIsStart(cfg: Config, s: SystemState, groups: seq<EpisodeGroup>)
    ensures Cut(cfg, s, groups, 0, false) == s
  {
    assert groups[..0] == [];
  }

  /** Between a crash and the restart, messages that were handled before change nothing. */
  lemma OldMessagesStayInvisible(cfg: Config, repo: RepoState, trace: seq<Message>, s: SystemState, w: int, m: Message)
    requires WellFormed(trace) && Timely(trace)
    requires Partway(cfg, Run(cfg, Start(repo), trace), s, w)
    requires m in trace
    ensures Steady(trace + [m]) ==> ProcessSpec(cfg, s, m) == s
    ensures m.WindowClosed? ==> WindowGroups(s, m.watermark) == []
  {
    var base := Run(cfg, Start(repo), trace);
    var groups := WindowGroups(base, w);
    var k: nat, halfway :| k <= |groups| && s == Cut(cfg, base, groups, k, halfway);
    CutKeepsWindow(cfg, base, groups, k, halfway);
    Reachable(cfg, repo, trace);
    KnownMessage(cfg, s, trace, m);
    SteadyOneMore(trace, m);
    if m.WindowClosed? {
      assert m.watermark in Windows(trace);
      KnownWatermark(s.store, trace, m.watermark);
    }
  }

  lemma TrackOneMore(cfg: Config, repo: RepoState, log: seq<Attempt>, base: SystemState, s: SystemState)
    requires log != [] && Redelivered(log)
    requires var trace := HandledOf(log[..|log| - 1]); WellFormed(trace) && Timely(trace)
    requires Steady(HandledOf(log))
    requires base == Run(cfg, Start(repo), HandledOf(log[..|log| - 1]))
    requires Tracks(cfg, base, s, Owed(log[..|log| - 1]))
    ensures Tracks(cfg, HandledSpec(cfg, base, log[|log| - 1]), AttemptSpec(cfg, s, log[|log| - 1]), Owed(log))
  {
    var front := log[..|log| - 1];
    match log[|log| - 1]
    case Handled(m) =>
      if Owed(front) != None {
        var w := Owed(front).value;
        if m == WindowClosed(w) {
          RestartCompletes(cfg, base, s, w);
        } else {
          OldMessagesStayInvisible(cfg, repo, HandledOf(front), s, w, m);
          RedeliveryIsInvisibleIff(cfg, repo, HandledOf(front), m);
        }
      }
    case Crashed(v, k, halfway) =>
      if Owed(front) == None || Owed(front) == Some(v) {
        CrashStaysPartway(cfg, base, s, v, k, halfway);
      } else {
        OldMessagesStayInvisible(cfg, repo, HandledOf(front), s, Owed(front).value, WindowClosed(v));
        CutIsStart(cfg, s, []);
      }
  }

  lemma {:induction false} LogTracksTrace(cfg: Config, repo: RepoState, log: seq<Attempt>)
    requires Redelivered(log)
    requires WellFormed(HandledOf(log)) && Timely(HandledOf(log))
    ensures Tracks(cfg, Run(cfg, Start(repo), HandledOf(log)), RunLog(cfg, Start(repo), log), Owed(log))
  {
    if log != [] {
      var front := log[..|log| - 1];
      if log[|log| - 1].Handled? {
        assert HandledOf(log)[..|HandledOf(front)|] == HandledOf(front);
        PrefixFacts(HandledOf(log));
      }
      LogTracksTrace(cfg, repo, front);
      TrackOneMore(cfg, repo, log, Run(cfg, Start(repo), HandledOf(front)), RunLog(cfg, Start(repo), front));
    }
  }

  /** Crashes, restarts, duplicated rows and duplicated windows together: once no window
      is owed, the state is the one exactly-once, crash-free delivery gives. */
  lemma CrashesAndRedeliveriesAreInvisible(cfg: Config, repo: RepoState, log: seq<Attempt>)
    requires Redelivered(log) && Owed(log) == None
    requires WellFormed(HandledOf(log)) && Timely(HandledOf(log))
    ensures RunLog(cfg, Start(repo), log) == Run(cfg, Start(repo), FirstDeliveries(HandledOf(log)))
  {
    LogTracksTrace(cfg, repo, log);
    AtLeastOnceIsExactlyOnce(cfg, repo, HandledOf(log));
  }
}
