/** What a turn's trace and its store call imply about the request and the ports, said without
    the guardrails' own predicates (backend/src/postmortem_backend/service.py:84-386,
    guardrails/allowlist.py:173-254, guardrails/provenance.py:34-59). */
module TurnRules {
  import opened Contracts
  import opened OperationalStore
  import opened Turn

  /** Recall answered with memory that passed the screen. */
  predicate HadMemory(p: Ports) {
    match (p.embedQuery, p.recall, p.screen)
    case (Answers(_), Answers(_), Answers(_)) => true
    case _ => false
  }

  predicate HadDecision(p: Ports) {
    HadMemory(p) && match p.decide case Answers(_) => true case Raises => false
  }

  /** The reasoner decided to remediate with this command. */
  predicate Ordered(p: Ports, c: RemediationCommand) {
    match p.decide
    case Answers(Decision(Remediate, Some(command))) => command == c
    case _ => false
  }

  /** The command cites a memory that this turn's recall surfaced. */
  predicate CitesRecalled(p: Ports, c: RemediationCommand) {
    match p.screen
    case Answers(ids) => c.citedMemoryId != 0 && exists i :: 0 <= i < |ids| && ids[i] == c.citedMemoryId
    case Raises => false
  }

  /** A tag of the request, stripped and lower-cased, names a critical service. */
  predicate TouchesCritical(r: Request, text: Text) {
    exists i :: 0 <= i < |r.serviceTags| &&
      text.lower(text.strip(r.serviceTags[i])) in {"checkout", "payments", "payment", "billing", "invoicing"}
  }

  /** An action that needs a human: any but a rollback or a restart, those on a critical service,
      and whatever the reasoner itself flags. */
  predicate NeedsHuman(r: Request, text: Text, c: RemediationCommand) {
    || c.action in {Scale, FeatureFlag}
    || TouchesCritical(r, text)
    || c.requiresApproval
  }

  /** The request carries an approval by someone with a name. */
  predicate ApprovedByName(r: Request, text: Text) {
    r.approved && match r.approver case Some(name) => name != "" && text.strip(name) != "" case None => false
  }

  predicate EmbedsAction(p: Ports) { match p.embedAction case Answers(_) => true case Raises => false }

  lemma CriticalIs(r: Request, text: Text)
    ensures CriticalService(r.serviceTags, text) <==> TouchesCritical(r, text)
  {
    if CriticalService(r.serviceTags, text) {
      var tag :| tag in r.serviceTags && text.lower(text.strip(tag)) in CRITICAL_SERVICE_TAGS;
      var i :| 0 <= i < |r.serviceTags| && r.serviceTags[i] == tag;
      assert text.lower(text.strip(r.serviceTags[i])) in CRITICAL_SERVICE_TAGS;
    }
    if TouchesCritical(r, text) {
      var i :| 0 <= i < |r.serviceTags|
               && text.lower(text.strip(r.serviceTags[i])) in {"checkout", "payments", "payment", "billing", "invoicing"};
      assert r.serviceTags[i] in r.serviceTags;
    }
  }

  lemma CommandIs(p: Ports, r: Request)
    ensures CommandOf(p, r).Some? ==> exists c :: Ordered(p, c) && CommandOf(p, r).value == c.(approved := r.approved)
    ensures forall c :: Ordered(p, c) ==> CommandOf(p, r) == Some(c.(approved := r.approved))
  {
    if CommandOf(p, r).Some? { assert Ordered(p, p.decide.value.command.value); }
  }

  /** The two gates, and what the authorization record says of the one it passed. */
  lemma GatesAre(p: Ports, r: Request, text: Text, c: RemediationCommand)
    requires HadMemory(p) && CommandOf(p, r) == Some(c)
    ensures Grounded(c, p.screen.value) <==> CitesRecalled(p, c)
    ensures HighBlastRadius(c, r.serviceTags, text) <==> NeedsHuman(r, text, c)
    ensures Authorize(c, r.approver, r.serviceTags, text).Some? <==> (NeedsHuman(r, text, c) ==> ApprovedByName(r, text))
    ensures var record := Authorize(c, r.approver, r.serviceTags, text);
            record.Some? ==>
              && (record.value.highBlastRadius <==> NeedsHuman(r, text, c))
              && record.value.approver == if NeedsHuman(r, text, c) then Some(text.strip(r.approver.value)) else r.approver
  {
    CriticalIs(r, text);
  }

  /** The store is called exactly for a command that the reasoner ordered, that cites recalled
      memory, and that a named human approved wherever one is needed. Approval is the request's,
      whatever the reasoner claims. */
  lemma StoreIsCalledIff(p: Ports, r: Request, text: Text)
    requires p.sanitize.Answers?
    ensures Executes(p, r, text) <==>
            HadMemory(p) && exists c :: Ordered(p, c) && CitesRecalled(p, c) && EmbedsAction(p)
                                        && (NeedsHuman(r, text, c) ==> ApprovedByName(r, text))
    ensures Executes(p, r, text) ==> exists c :: Ordered(p, c) && CommandOf(p, r) == Some(c.(approved := r.approved))
  {
    CommandIs(p, r);
    if HadMemory(p) && CommandOf(p, r).Some? {
      GatesAre(p, r, text, CommandOf(p, r).value);
    }
  }

  /** Without an approval by name, nothing is done to a critical service, whoever asks for it. */
  lemma CriticalIsLeftAlone(p: Ports, r: Request, text: Text)
    requires p.sanitize.Answers? && TouchesCritical(r, text) && !ApprovedByName(r, text)
    ensures !Executes(p, r, text)
  {
    StoreIsCalledIff(p, r, text);
  }

  /** Each event of the trace says what the ports had done by then. */
  lemma EventsTell(p: Ports, r: Request, text: Text, accepted: bool)
    requires p.sanitize.Answers?
    ensures var w := WordOf(EndingOf(p, r, text, accepted));
            && w[0] == IncidentReceived && w[1] == RecallStarted
            && (RecallCompleted in w <==> HadMemory(p)) && (ReasoningStarted in w <==> HadMemory(p))
            && (DecisionProposed in w <==> HadDecision(p))
            && (ActionProposed in w <==> HadDecision(p) && exists c :: Ordered(p, c) && CitesRecalled(p, c))
            && (ApprovalRequired in w <==>
                  HadDecision(p) && exists c :: Ordered(p, c) && CitesRecalled(p, c) && c.requiresApproval && !r.approved)
  {
    CommandIs(p, r);
    if HadDecision(p) && CommandOf(p, r).Some? {
      GatesAre(p, r, text, CommandOf(p, r).value);
    }
  }

  /** A response is completed by a commit, by a decision without a command, or by a request for
      approval; every other turn fails or is rolled back. */
  lemma CompletionTells(p: Ports, r: Request, text: Text, accepted: bool)
    requires p.sanitize.Answers?
    ensures var w := WordOf(EndingOf(p, r, text, accepted));
            ResponseCompleted in w <==>
              TransactionCommitted in w || ApprovalRequired in w || (HadDecision(p) && forall c :: !Ordered(p, c))
  {
    CommandIs(p, r);
  }

  /** The error of a turn that called no store names the first thing that went wrong. */
  lemma FailuresTell(p: Ports, r: Request, text: Text)
    requires p.sanitize.Answers?
    ensures var failure := FailureOf(p, r, text);
            && (failure == Some(RecallFailed) ==> p.recall == Raises)
            && (failure == Some(MemoryRefused) ==> p.recall != Raises && p.screen == Raises)
            && (failure == Some(ReasoningFailed) <==> HadMemory(p) && !HadDecision(p))
            && (failure.Some? && failure.value in {EmbeddingFailed, RecallFailed, MemoryRefused} <==>
                  || !HadMemory(p)
                  || (HadDecision(p) && !EmbedsAction(p)
                      && exists c :: Ordered(p, c) && CitesRecalled(p, c) && (NeedsHuman(r, text, c) ==> ApprovedByName(r, text))))
            && (failure == Some(Ungrounded) <==> HadDecision(p) && exists c :: Ordered(p, c) && !CitesRecalled(p, c))
            && (failure == Some(Blocked) <==>
                  HadDecision(p)
                  && exists c :: Ordered(p, c) && CitesRecalled(p, c) && (c.requiresApproval ==> r.approved)
                                 && NeedsHuman(r, text, c) && !ApprovedByName(r, text))
            && (failure == None <==> Executes(p, r, text) || ResponseCompleted in WordOf(EndingOf(p, r, text, false)))
  {
    CommandIs(p, r);
    if HadDecision(p) && CommandOf(p, r).Some? { GatesAre(p, r, text, CommandOf(p, r).value); }
  }

  /** A turn answers ids exactly when it committed, and then the store's. */
  lemma AnswerTells(p: Ports, r: Request, text: Text, accepted: bool)
    requires p.sanitize.Answers?
    ensures var ending := EndingOf(p, r, text, accepted);
            && (AnswerOf(ending, p.ids) == Answers(Some(p.ids)) <==> TransactionCommitted in WordOf(ending))
            && (AnswerOf(ending, p.ids) == Answers(None) <==> ResponseCompleted in WordOf(ending) && !(TransactionCommitted in WordOf(ending)))
  {}
}
