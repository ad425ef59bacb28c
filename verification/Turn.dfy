/** One responder turn, from signal to terminal event
    (backend/src/postmortem_backend/service.py:84-386), with its guardrails
    (guardrails/allowlist.py:183-267, guardrails/provenance.py:34-59). Every port call either
    answers or raises; publishing an event does not fail. */
module Turn {
  import opened Contracts
  import opened OperationalStore
  import opened FakeStore

  datatype EventType =
    | IncidentReceived | RecallStarted | RecallCompleted | ReasoningStarted | DecisionProposed
    | ActionProposed | ApprovalRequired | TransactionStarted | TransactionCommitted
    | TransactionRolledBack | ResponseCompleted | ResponseFailed

  datatype DecisionKind = Remediate | Propose | AskHuman | Escalate

  datatype Decision = Decision(kind: DecisionKind, command: Option<RemediationCommand>)

  datatype TurnError =
    | SignalRefused | EmbeddingFailed | RecallFailed | MemoryRefused | ReasoningFailed
    | Ungrounded | Blocked | StoreFailed(error: StoreError)

  datatype Reply<T> = Answers(value: T) | Raises

  /** What each port does in this turn; recall and its screen give the surfaced memory ids,
      an embedding is represented by its length. */
  datatype Ports = Ports(
    sanitize: Reply<()>, embedQuery: Reply<nat>, recall: Reply<seq<int>>, screen: Reply<seq<int>>,
    decide: Reply<Decision>, embedAction: Reply<nat>, ids: NewIds)

  datatype Request = Request(incidentId: int, serviceTags: seq<string>, approved: bool, approver: Option<string>)

  /** Python's str.strip and str.lower. */
  datatype Text = Text(strip: string -> string, lower: string -> string)

  // ---- Guardrails -----------------------------------------------------------

  const NIL_ID := 0

  predicate Grounded(c: RemediationCommand, recalled: seq<int>) {
    c.citedMemoryId != NIL_ID && c.citedMemoryId in recalled
  }

  const CRITICAL_SERVICE_TAGS: set<string> := {"checkout", "payments", "payment", "billing", "invoicing"}

  predicate CriticalService(tags: seq<string>, text: Text) {
    exists tag :: tag in tags && text.lower(text.strip(tag)) in CRITICAL_SERVICE_TAGS
  }

  predicate HighBlastRadius(c: RemediationCommand, tags: seq<string>, text: Text) {
    || c.action == Scale || c.action == FeatureFlag
    || ((c.action == Rollback || c.action == Restart) && CriticalService(tags, text))
    || c.requiresApproval
  }

  predicate Named(approver: Option<string>, text: Text) {
    approver.Some? && approver.value != "" && text.strip(approver.value) != ""
  }

  datatype ApprovalRecord = ApprovalRecord(highBlastRadius: bool, approver: Option<string>)

  /** The destructive-action gate. */
  function Authorize(c: RemediationCommand, approver: Option<string>, tags: seq<string>, text: Text): (r: Option<ApprovalRecord>)
    ensures r.Some? <==> (HighBlastRadius(c, tags, text) ==> c.approved && Named(approver, text))
    ensures r.Some? && r.value.highBlastRadius ==> approver.Some? && r.value.approver == Some(text.strip(approver.value))
  {
    if !HighBlastRadius(c, tags, text) then Some(ApprovalRecord(false, approver))
    else if !c.approved then None
    else if approver == None || approver.value == "" || text.strip(approver.value) == "" then None
    else Some(ApprovalRecord(true, Some(text.strip(approver.value))))
  }

  /** The reasoner's own flag can only add caution. */
  lemma FlagOnlyAddsCaution(c: RemediationCommand, approver: Option<string>, tags: seq<string>, text: Text)
    ensures Authorize(c.(requiresApproval := true), approver, tags, text).Some? ==> Authorize(c, approver, tags, text).Some?
    ensures (c.action == Rollback || c.action == Restart) && CriticalService(tags, text) && !c.approved ==>
              Authorize(c.(requiresApproval := false), approver, tags, text) == None
  {}

  // ---- The grammar of traces --------------------------------------------------

  predicate Terminal(e: EventType) {
    e == ResponseCompleted || e == ResponseFailed || e == TransactionRolledBack
  }

  predicate Follows(a: EventType, b: EventType) {
    match a
    case IncidentReceived => b == RecallStarted
    case RecallStarted => b == RecallCompleted || b == ResponseFailed
    case RecallCompleted => b == ReasoningStarted
    case ReasoningStarted => b == DecisionProposed || b == ResponseFailed
    case DecisionProposed => b == ActionProposed || b == ResponseCompleted || b == ResponseFailed
    case ActionProposed => b == ApprovalRequired || b == TransactionStarted || b == ResponseFailed
    case ApprovalRequired => b == ResponseCompleted
    case TransactionStarted => b == TransactionCommitted || b == TransactionRolledBack
    case TransactionCommitted => b == ResponseCompleted
    case _ => false
  }

  predicate Chain(w: seq<EventType>) {
    w != [] && w[0] == IncidentReceived && forall i :: 0 <= i < |w| - 1 ==> Follows(w[i], w[i + 1])
  }

  predicate Word(w: seq<EventType>) {
    Chain(w) && Terminal(w[|w| - 1])
  }

  function Stage(e: EventType): nat {
    match e
    case IncidentReceived => 0
    case RecallStarted => 1
    case RecallCompleted => 2
    case ReasoningStarted => 3
    case DecisionProposed => 4
    case ActionProposed => 5
    case ApprovalRequired => 6
    case TransactionStarted => 6
    case TransactionCommitted => 7
    case TransactionRolledBack => 8
    case ResponseCompleted => 8
    case ResponseFailed => 8
  }

  lemma {:induction false} StagesRise(w: seq<EventType>, i: nat, j: nat)
    requires Chain(w) && i < j < |w|
    ensures Stage(w[i]) < Stage(w[j])
    decreases j
  {
    assert Follows(w[j - 1], w[j]);
    if i < j - 1 { StagesRise(w, i, j - 1); }
  }

  /** A turn's trace has one terminal event, its last, repeats nothing, and says "committed"
      exactly when it started a transaction and did not say "rolled back". */
  lemma WordsEndOnce(w: seq<EventType>)
    requires Word(w)
    ensures forall i :: 0 <= i < |w| ==> (Terminal(w[i]) <==> i == |w| - 1)
    ensures forall i, j :: 0 <= i < j < |w| ==> w[i] != w[j]
    ensures TransactionStarted in w <==> (TransactionCommitted in w || TransactionRolledBack in w)
    ensures !(TransactionCommitted in w && TransactionRolledBack in w)
    ensures TransactionCommitted in w ==> w[|w| - 1] == ResponseCompleted
  {
    forall i, j | 0 <= i < j < |w| ensures Stage(w[i]) < Stage(w[j]) { StagesRise(w, i, j); }
    Started(w);
    forall i | 0 <= i < |w| && w[i] == TransactionCommitted ensures i == |w| - 2 && w[i + 1] == ResponseCompleted {
      assert Follows(w[i], w[i + 1]);
    }
  }

  lemma Started(w: seq<EventType>)
    requires Word(w)
    ensures TransactionStarted in w <==> (TransactionCommitted in w || TransactionRolledBack in w)
  {
    forall i | 0 <= i < |w| && w[i] == TransactionStarted ensures TransactionCommitted in w || TransactionRolledBack in w {
      assert Follows(w[i], w[i + 1]);
      assert w[i + 1] in w;
    }
    forall i | 0 <= i < |w| && (w[i] == TransactionCommitted || w[i] == TransactionRolledBack) ensures TransactionStarted in w {
      assert Follows(w[i - 1], w[i]);
      assert w[i - 1] in w;
    }
  }

  // ---- When the store may be called ---------------------------------------------

  /** The command as executed: approval comes from the request, never from the reasoner. */
  function CommandOf(p: Ports, r: Request): Option<RemediationCommand> {
    if p.decide.Answers? && p.decide.value.kind == Remediate && p.decide.value.command.Some?
    then Some(p.decide.value.command.value.(approved := r.approved)) else None
  }

  predicate Recalls(p: Ports) {
    p.sanitize.Answers? && p.embedQuery.Answers? && p.recall.Answers? && p.screen.Answers?
  }

  /** All gates before the store. */
  predicate Executes(p: Ports, r: Request, text: Text) {
    && Recalls(p) && CommandOf(p, r).Some?
    && var c := CommandOf(p, r).value;
       && Grounded(c, p.screen.value)
       && (c.requiresApproval ==> c.approved)
       && Authorize(c, r.approver, r.serviceTags, text).Some?
       && p.embedAction.Answers?
  }

  /** How a turn ends. */
  datatype Ending =
    | WithoutMemory | WithoutDecision | WithoutAction | UngroundedAction | AwaitingApproval
    | BlockedAction | RolledBackAction | CommittedAction

  function WordOf(e: Ending): seq<EventType> {
    match e
    case WithoutMemory => [IncidentReceived, RecallStarted, ResponseFailed]
    case WithoutDecision => [IncidentReceived, RecallStarted, RecallCompleted, ReasoningStarted, ResponseFailed]
    case WithoutAction => DECIDED + [ResponseCompleted]
    case UngroundedAction => DECIDED + [ResponseFailed]
    case AwaitingApproval => DECIDED + [ActionProposed, ApprovalRequired, ResponseCompleted]
    case BlockedAction => DECIDED + [ActionProposed, ResponseFailed]
    case RolledBackAction => DECIDED + [ActionProposed, TransactionStarted, TransactionRolledBack]
    case CommittedAction => DECIDED + [ActionProposed, TransactionStarted, TransactionCommitted, ResponseCompleted]
  }

  const DECIDED: seq<EventType> := [IncidentReceived, RecallStarted, RecallCompleted, ReasoningStarted, DecisionProposed]

  /** The eight traces are words of the grammar, and the grammar has no others. */
  lemma WordsAreEndings(w: seq<EventType>)
    ensures Word(w) <==> exists e :: w == WordOf(e)
  {
    if Word(w) {
      StepThrough(w);
    }
    forall e ensures Word(WordOf(e)) { EndingIsWord(e); }
  }

  lemma EndingIsWord(e: Ending)
    ensures Word(WordOf(e))
  {}

  lemma StepThrough(w: seq<EventType>)
    requires Word(w)
    ensures exists e :: w == WordOf(e)
  {
    assert Follows(w[0], w[1]);
    assert Follows(w[1], w[2]);
    WordsEndOnce(w);
    if w[2] == ResponseFailed {
      assert w == WordOf(WithoutMemory);
    } else {
      assert Follows(w[2], w[3]) && Follows(w[3], w[4]);
      if w[4] == ResponseFailed {
        assert w == WordOf(WithoutDecision);
      } else {
        assert Follows(w[4], w[5]);
        AfterDecision(w);
      }
    }
  }

  lemma AfterDecision(w: seq<EventType>)
    requires Word(w) && |w| > 5 && w[..5] == DECIDED
    ensures exists e :: w == WordOf(e)
  {
    WordsEndOnce(w);
    assert w[4] == DECIDED[4] && Follows(w[4], w[5]);
    if w[5] == ResponseCompleted {
      assert w == WordOf(WithoutAction);
    } else if w[5] == ResponseFailed {
      assert w == WordOf(UngroundedAction);
    } else {
      assert Follows(w[5], w[6]);
      if w[6] == ResponseFailed {
        assert w == WordOf(BlockedAction);
      } else if w[6] == ApprovalRequired {
        assert Follows(w[6], w[7]);
        assert w == WordOf(AwaitingApproval);
      } else {
        assert Follows(w[6], w[7]);
        if w[7] == TransactionRolledBack {
          assert w == WordOf(RolledBackAction);
        } else {
          assert Follows(w[7], w[8]);
          assert w == WordOf(CommittedAction);
        }
      }
    }
  }

  /** The ending the ports and the store decide. */
  function EndingOf(p: Ports, r: Request, text: Text, accepted: bool): Ending {
    var c := CommandOf(p, r);
    if !(p.embedQuery.Answers? && p.recall.Answers? && p.screen.Answers?) then WithoutMemory
    else if p.decide.Raises? then WithoutDecision
    else if c == None then WithoutAction
    else if !Grounded(c.value, p.screen.value) then UngroundedAction
    else if c.value.requiresApproval && !c.value.approved then AwaitingApproval
    else if Authorize(c.value, r.approver, r.serviceTags, text) == None || p.embedAction.Raises? then BlockedAction
    else if accepted then CommittedAction else RolledBackAction
  }

  /** The trace tells the truth: a transaction is announced exactly when every gate passed,
      committed exactly when the store then accepted, rolled back exactly when it refused; and
      an unattended high-blast-radius action is never executed. */
  lemma TraceTellsTheTruth(p: Ports, r: Request, text: Text, accepted: bool)
    requires p.sanitize.Answers?
    ensures var w := WordOf(EndingOf(p, r, text, accepted));
            && Word(w)
            && (TransactionStarted in w <==> Executes(p, r, text))
            && (TransactionCommitted in w <==> Executes(p, r, text) && accepted)
            && (TransactionRolledBack in w <==> Executes(p, r, text) && !accepted)
            && (TransactionStarted in w && HighBlastRadius(CommandOf(p, r).value, r.serviceTags, text)
                ==> r.approved && Named(r.approver, text))
            && (ApprovalRequired in w ==> !r.approved && CommandOf(p, r).value.requiresApproval)
  {
    EndingIsWord(EndingOf(p, r, text, accepted));
  }

  /** Recall answered, and its memory passed the screen. */
  predicate Surfaced(p: Ports) { p.embedQuery.Answers? && p.recall.Answers? && p.screen.Answers? }

  predicate Understood(p: Ports) { Surfaced(p) && p.decide.Answers? }

  function AnswerOf(e: Ending, ids: NewIds): Reply<Option<NewIds>> {
    match e
    case CommittedAction => Answers(Some(ids))
    case WithoutAction => Answers(None)
    case AwaitingApproval => Answers(None)
    case _ => Raises
  }

  /** What stops a turn before its decision, if anything does. */
  function UnderstandingFails(p: Ports): Option<TurnError> {
    if p.embedQuery.Raises? then Some(EmbeddingFailed)
    else if p.recall.Raises? then Some(RecallFailed)
    else if p.screen.Raises? then Some(MemoryRefused)
    else if p.decide.Raises? then Some(ReasoningFailed)
    else None
  }

  /** What stops a decided action before the store is called, a wait for approval aside. */
  function ActingFails(p: Ports, r: Request, text: Text): Option<TurnError>
    requires Understood(p)
  {
    match CommandOf(p, r)
    case None => None
    case Some(c) =>
      if !Grounded(c, p.screen.value) then Some(Ungrounded)
      else if c.requiresApproval && !c.approved then None
      else if Authorize(c, r.approver, r.serviceTags, text) == None then Some(Blocked)
      else if p.embedAction.Raises? then Some(EmbeddingFailed)
      else None
  }

  function FailureOf(p: Ports, r: Request, text: Text): Option<TurnError> {
    if Understood(p) then ActingFails(p, r, text) else UnderstandingFails(p)
  }

  /** The event that ends the turn after the act stage. */
  function ActClosing(error: Option<TurnError>, started: bool): seq<EventType> {
    [if error == None then ResponseCompleted else if started then TransactionRolledBack else ResponseFailed]
  }

  class ResponderService {
    const store: FakeAtomicRemediationStore
    var events: seq<EventType>
    var received: set<int>
    var results: map<int, Option<NewIds>>

    constructor (store: FakeAtomicRemediationStore)
      ensures this.store == store && events == [] && received == {} && results == map[]
    {
      this.store := store;
      events, received, results := [], {}, map[];
    }

    /** Appends one event behind the ones this turn has published. */
    method Publish(e: EventType, ghost before: seq<EventType>, ghost word: seq<EventType>)
      returns (ghost longer: seq<EventType>)
      requires events == before + word
      modifies this`events
      ensures longer == word + [e] && events == before + longer
    {
      events := events + [e];
      longer := word + [e];
    }

    /** The act stage of a turn that decided to remediate: ground, propose, authorize, store. */
    method Act(command: RemediationCommand, r: Request, p: Ports, text: Text, ghost before: seq<EventType>)
      returns (error: Option<TurnError>, started: bool, remediation: Option<NewIds>, ghost word: seq<EventType>)
      requires Recalls(p) && Understood(p) && CommandOf(p, r) == Some(command)
      requires events == before + DECIDED
      modifies `events, store
      ensures events == before + word
      ensures started <==> Executes(p, r, text)
      ensures var accepted := started
                && Accepts(old(store.rows), old(store.provenance), old(store.failAt), command, p.embedAction.value);
              && word + ActClosing(error, started) == WordOf(EndingOf(p, r, text, accepted))
              && (error == None <==> AnswerOf(EndingOf(p, r, text, accepted), p.ids).Answers?)
              && (accepted <==> remediation == Some(p.ids)) && (!accepted ==> remediation == None)
              && (accepted ==> error == None && store.commits == old(store.commits) + 1
                               && store.rows == AllWritten(old(store.rows), command, p.ids))
              && (!accepted ==> store.rows == old(store.rows) && store.commits == old(store.commits))
              && (started && !accepted <==> error.Some? && error.value.StoreFailed?)
      ensures !started ==> error == ActingFails(p, r, text)
    {
      started, remediation, word := false, None, DECIDED;
      if !Grounded(command, p.screen.value) { error := Some(Ungrounded); return; }
      word := Publish(ActionProposed, before, word);
      if command.requiresApproval && !command.approved {
        word := Publish(ApprovalRequired, before, word);
        return None, started, remediation, word;
      }
      var record := Authorize(command, r.approver, r.serviceTags, text);
      if record == None { error := Some(Blocked); return; }
      if p.embedAction.Raises? { error := Some(EmbeddingFailed); return; }
      word := Publish(TransactionStarted, before, word);
      started := true;
      var reply := store.RemediateAndRecord(command, p.ids, p.embedAction.value);
      if reply.Refused? { error := Some(StoreFailed(reply.error)); return; }
      remediation := Some(reply.ids);
      word := Publish(TransactionCommitted, before, word);
      error := None;
    }

    /** Recall and reason: every event up to the decision, or the first failure. */
    method Understand(p: Ports, ghost before: seq<EventType>) returns (error: Option<TurnError>, ghost word: seq<EventType>)
      requires events == before + [IncidentReceived]
      modifies `events
      ensures events == before + word
      ensures error == None <==> Understood(p)
      ensures error == None ==> word == DECIDED
      ensures error == UnderstandingFails(p)
      ensures error.Some? ==> word + [ResponseFailed] == WordOf(if Surfaced(p) then WithoutDecision else WithoutMemory)
    {
      word := Publish(RecallStarted, before, [IncidentReceived]);
      if p.embedQuery.Raises? { error := Some(EmbeddingFailed); return; }
      if p.recall.Raises? { error := Some(RecallFailed); return; }
      if p.screen.Raises? { error := Some(MemoryRefused); return; }
      word := Publish(RecallCompleted, before, word);
      word := Publish(ReasoningStarted, before, word);
      if p.decide.Raises? { error := Some(ReasoningFailed); return; }
      word := Publish(DecisionProposed, before, word);
      error := None;
    }

    /** The turn; calls counts invocations of the store. A refused signal fails before the
        first event. The store changes only in a committed turn. */
    method Handle(r: Request, p: Ports, text: Text)
      returns (outcome: Reply<Option<NewIds>>, error: Option<TurnError>, ghost calls: nat)
      modifies this, store
      ensures outcome.Raises? <==> error.Some?
      ensures p.sanitize.Raises? ==>
                && events == old(events) && received == old(received) && results == old(results)
                && error == Some(SignalRefused) && calls == 0
                && store.rows == old(store.rows) && store.commits == old(store.commits)
      ensures p.sanitize.Answers? ==>
                && received == old(received) + {r.incidentId}
                && calls == (if Executes(p, r, text) then 1 else 0)
                && var accepted := Executes(p, r, text)
                     && Accepts(old(store.rows), old(store.provenance), old(store.failAt), CommandOf(p, r).value, p.embedAction.value);
                   && events == old(events) + WordOf(EndingOf(p, r, text, accepted))
                   && outcome == AnswerOf(EndingOf(p, r, text, accepted), p.ids)
                   && (accepted ==> store.rows == AllWritten(old(store.rows), CommandOf(p, r).value, p.ids)
                                    && store.commits == old(store.commits) + 1)
                   && (!accepted ==> store.rows == old(store.rows) && store.commits == old(store.commits))
                   && (calls == 1 && !accepted <==> error.Some? && error.value.StoreFailed?)
                   && (calls == 0 ==> error == FailureOf(p, r, text))
      ensures outcome.Raises? ==> results == old(results)
      ensures outcome.Answers? ==> results == old(results)[r.incidentId := outcome.value]
    {
      calls := 0;
      if p.sanitize.Raises? { return Raises, Some(SignalRefused), 0; }
      received := received + {r.incidentId};
      ghost var before := events;
      ghost var word := Publish(IncidentReceived, before, []);
      var transactionStarted := false;
      var remediation: Option<NewIds> := None;
      label Try: {
        error, word := Understand(p, before);
        if error.Some? { break Try; }
        var decision := p.decide.value;
        if decision.kind == Remediate && decision.command.Some? {
          var command := decision.command.value.(approved := r.approved);
          error, transactionStarted, remediation, word := Act(command, r, p, text, before);
          calls := if transactionStarted then 1 else 0;
          if error.Some? { break Try; }
        }
        results := results[r.incidentId := remediation];
        word := Publish(ResponseCompleted, before, word);
      }
      if error.Some? {
        word := Publish(if transactionStarted then TransactionRolledBack else ResponseFailed, before, word);
        outcome := Raises;
      } else {
        outcome := Answers(remediation);
      }
    }
  }
}
