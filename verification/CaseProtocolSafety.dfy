/** What every reachable state of the write protocol keeps, whatever interleaving, abort and crash led there. */
module CaseProtocolSafety {
  import opened Options
  import opened CaseFacts
  import opened CaseFactLedger
  import opened CaseFactHistory
  import opened CaseRows
  import opened CaseSafety
  import opened CaseProtocol

  // ---------- How a Case may change in one event ----------

  /** The four edges the service writes beyond the published Case table. */
  predicate ExtraEdge(current: CaseState, next: CaseState) {
    || (current == AwaitingCustomerConfirmation && next == AwaitingRetry)
    || (current == AwaitingRetry && next == ExecutingAction)
    || (current == ExecutingAction && next == AwaitingRetry)
    || (current == AwaitingCustomerInput && next == AwaitingCustomerConfirmation)
  }

  ghost predicate ProposalsEvolve(r: CaseRow, r': CaseRow) {
    forall p :: p in r.proposals ==>
      && p in r'.proposals && r'.proposals[p].version == r.proposals[p].version
      && (r'.proposals[p].state == r.proposals[p].state
           || ProposalMayBecome(r.proposals[p].state, r'.proposals[p].state))
  }

  ghost predicate ActionsEvolve(r: CaseRow, r': CaseRow) {
    && (forall a :: a in r.actions ==>
          && a in r'.actions && r'.actions[a].key == r.actions[a].key
          && (r'.actions[a].state == r.actions[a].state || ActionMayBecome(r.actions[a].state, r'.actions[a].state)))
    && (forall k :: k in r.tickets ==> k in r'.tickets && r'.tickets[k] == r.tickets[k])
  }

  /** Entering the wait for the customer costs exactly one clarification; nothing else does. */
  predicate ClarificationsEvolve(r: CaseRow, r': CaseRow) {
    if r'.clarifications == r.clarifications then r'.state == AwaitingCustomerInput ==> r.state == AwaitingCustomerInput
    else r'.clarifications == r.clarifications + 1 && r'.state == AwaitingCustomerInput
  }

  ghost predicate Evolves(r: CaseRow, r': CaseRow) {
    && (r'.state == r.state || CaseMayBecome(r.state, r'.state) || ExtraEdge(r.state, r'.state))
    && (r.state == Closed ==> r' == r)
    && ProposalsEvolve(r, r') && ActionsEvolve(r, r') && ClarificationsEvolve(r, r')
  }

  ghost predicate AllEvolve(s: State, s': State) {
    && (forall c :: c in s.cases ==> c in s'.cases && Evolves(s.cases[c], s'.cases[c]))
    && (forall c :: c in s'.cases && c !in s.cases ==> s'.cases[c] == NewCase(c))
  }

  // ---------- The invariant ----------

  ghost predicate VersionsBelow(row: CaseRow, version: nat) {
    forall q :: q in row.proposals ==> row.proposals[q].version < version
  }

  /** The rows are where the request's own local variables assume them to be. */
  ghost predicate Fits(p: Progress, row: CaseRow) {
    match p
    case Opened(_) => UnderInvestigation(row)
    case Clarifying(_) => row.state == AwaitingCustomerInput
    case ChoosingTarget(_) => row.state == AwaitingCustomerInput
    case Looking(_, _) => UnderInvestigation(row)
    case Proposing(_, version, pending) => UnderInvestigation(row) && pending == [] && VersionsBelow(row, version)
    case Asking(_) => UnderInvestigation(row) && row.clarifications < CLARIFICATION_LIMIT
    case AskRecorded(_, created) => UnderInvestigation(row) && row.clarifications < CLARIFICATION_LIMIT && created
    case Checked(_, proposal) => IsPending(row, proposal)
    case Confirmable(_, proposal) => IsPending(row, proposal)
    case Declinable(_, proposal) => IsPending(row, proposal)
    case Submitting(_, a) => Submittable(row, a)
    case ReadingBack(_, a) => SubmittedNow(row, a, true)
    case FaultPending(_, a, _) => SubmittedNow(row, a, false)
    case _ => true
  }

  ghost predicate ProgressKept(s: State, p: Progress) {
    && (p.Triaging? ==> s.active == None)
    && (CaseOf(p).Some? ==> CaseOf(p).value in s.cases && Fits(p, s.cases[CaseOf(p).value]))
  }

  ghost predicate CasesKept(s: State) {
    && (forall c :: c in s.cases ==> CaseKept(s.cases[c]))
    && (forall c :: c in s.cases ==> (s.cases[c].state != Closed <==> s.active == Some(c)))
    && (s.active.Some? ==> s.active.value in s.cases)
  }

  /** Mutual exclusion: the one request past the lock is the one that holds it. */
  ghost predicate LockKept(s: State) {
    && (s.lock.Some? ==> s.lock.value in s.requests)
    && (forall id :: id in s.requests ==> (HoldsLock(s.requests[id]) <==> s.lock == Some(id)))
  }

  ghost predicate StateKept(s: State) {
    && CasesKept(s) && LockKept(s)
    && (s.lock.Some? ==> ProgressKept(s, s.requests[s.lock.value]))
  }

  // ---------- Updates ----------

  lemma FinishKeeps(s: State, id: RequestId)
    requires StateKept(s) && s.lock == Some(id)
    ensures StateKept(Finish(s, id)) && AllEvolve(s, Finish(s, id))
  {
    hide CaseKept, Fits;
  }

  lemma ContinueKeeps(s: State, id: RequestId, p: Progress)
    requires CasesKept(s) && LockKept(s) && s.lock == Some(id) && HoldsLock(p) && ProgressKept(s, p)
    ensures StateKept(Continue(s, id, p)) && AllEvolve(s, Continue(s, id, p))
  {
    hide CaseKept, Fits;
  }

  lemma WriteKeeps(s: State, c: CaseId, row: CaseRow)
    requires CasesKept(s) && LockKept(s) && c in s.cases && s.cases[c].state != Closed
    requires CaseKept(row) && Evolves(s.cases[c], row)
    ensures CasesKept(Write(s, c, row)) && LockKept(Write(s, c, row)) && AllEvolve(s, Write(s, c, row))
  {
    hide CaseKept, Evolves;
    forall k | k in s.cases ensures k in Write(s, c, row).cases && Evolves(s.cases[k], Write(s, c, row).cases[k]) {
      EvolvesSelf(s.cases[k]);
    }
  }

  lemma EvolvesSelf(row: CaseRow)
    ensures Evolves(row, row)
  {
  }

  lemma CommitKeeps(s: State, id: RequestId, c: CaseId, tx: Option<CaseRow>, next: Option<Progress>)
    requires StateKept(s) && s.lock == Some(id) && c in s.cases && s.cases[c].state != Closed
    requires tx.Some? ==> CaseKept(tx.value) && Evolves(s.cases[c], tx.value)
    requires tx.Some? && next.Some? ==>
      HoldsLock(next.value) && CaseOf(next.value) == Some(c) && Fits(next.value, tx.value)
    ensures StateKept(Commit(s, id, c, tx, next)) && AllEvolve(s, Commit(s, id, c, tx, next))
  {
    hide CaseKept, Evolves, CasesKept, Fits;
    if tx == None {
      FinishKeeps(s, id);
    } else {
      WriteKeeps(s, c, tx.value);
      var written := Write(s, c, tx.value);
      if next.Some? {
        ContinueKeeps(written, id, next.value);
      } else {
        DropKeeps(written, id);
      }
    }
  }

  lemma DropKeeps(s: State, id: RequestId)
    requires CasesKept(s) && LockKept(s) && s.lock == Some(id)
    ensures StateKept(Finish(s, id)) && Finish(s, id).cases == s.cases
  {
    hide CaseKept;
  }

  // ---------- Transactions ----------

  /** The rows stay kept, and change as a Case may. */
  ghost predicate Sound(row: CaseRow, r: CaseRow) {
    CaseKept(r) && Evolves(row, r)
  }

  lemma FailSound(row: CaseRow, next: CaseState)
    requires CaseKept(row) && UnderInvestigation(row) && next in {Investigating, AwaitingRetry}
    ensures MoveCase(row, next).Some? && Sound(row, MoveCase(row, next).value)
    ensures next == Investigating ==> UnderInvestigation(MoveCase(row, next).value)
  {
    hide Kept;
    MoveKeeps(row, next);
  }

  lemma CloseSound(row: CaseRow, outcome: CaseOutcome)
    requires CaseKept(row) && UnderInvestigation(row) && outcome in {ResolvedNoAction, HumanSupportRequired}
    ensures CloseCase(row, outcome).Some? && Sound(row, CloseCase(row, outcome).value)
  {
    hide Kept;
    CloseKeeps(row, outcome);
  }

  lemma AskSound(row: CaseRow)
    requires CaseKept(row) && UnderInvestigation(row) && row.clarifications < CLARIFICATION_LIMIT
    ensures AskCustomer(row, true).Some? && Sound(row, AskCustomer(row, true).value)
  {
    hide Kept;
    AskKeeps(row);
  }

  lemma AskTargetSound(row: CaseRow)
    requires CaseKept(row) && UnderInvestigation(row)
    ensures AskTarget(row).Some? && Sound(row, AskTarget(row).value)
  {
    hide Kept;
    AskTargetKeeps(row);
  }

  lemma ProposeSound(row: CaseRow, p: ProposalId, version: nat, expiresAt: int)
    requires CaseKept(row) && UnderInvestigation(row)
    ensures Propose(row, [], p, version, expiresAt).Some? ==> Sound(row, Propose(row, [], p, version, expiresAt).value)
  {
    hide Kept;
    ProposeKeeps(row, p, version, expiresAt);
    hide Propose;
  }

  lemma LapseSound(row: CaseRow, p: ProposalId, lapse: ProposalState)
    requires CaseKept(row) && IsPending(row, p) && lapse in {Expired, Invalidated}
    ensures LapseProposal(row, p, lapse).Some? && Sound(row, LapseProposal(row, p, lapse).value)
    ensures row.state == AwaitingCustomerConfirmation
  {
    hide Kept;
    PendingIsActive(row, p);
    LapseKeeps(row, p, lapse);
    hide LapseProposal;
  }

  lemma DeclineSound(row: CaseRow, p: ProposalId)
    requires CaseKept(row) && IsPending(row, p)
    ensures Decline(row, p).Some? && Sound(row, Decline(row, p).value)
    ensures row.state == AwaitingCustomerConfirmation
  {
    hide Kept;
    PendingIsActive(row, p);
    DeclineKeeps(row, p);
    hide Decline;
  }

  lemma ConfirmSound(row: CaseRow, p: ProposalId)
    requires CaseKept(row) && IsPending(row, p)
    ensures Confirm(row, p).Some? && Sound(row, Confirm(row, p).value)
    ensures Submittable(Confirm(row, p).value, StableId(p, row.proposals[p].version))
    ensures row.state == AwaitingCustomerConfirmation
  {
    hide Kept;
    PendingIsActive(row, p);
    NoActionYet(row);
    ConfirmKeeps(row, p);
    hide Confirm;
  }

  lemma SubmitSound(row: CaseRow, a: StableId, faulted: bool, scopeTaken: bool)
    requires CaseKept(row) && Submittable(row, a)
    ensures Submit(row, a, faulted, scopeTaken).Some? ==>
      Sound(row, Submit(row, a, faulted, scopeTaken).value)
          && SubmittedNow(Submit(row, a, faulted, scopeTaken).value, a, !faulted)
  {
    hide Kept;
    SubmitKeeps(row, a, faulted, scopeTaken);
    OnlyAction(row, a);
    hide Submit;
    forall k ensures k !in row.tickets {
    }
  }

  lemma ReadBackSound(row: CaseRow, a: StableId)
    requires CaseKept(row) && SubmittedNow(row, a, true)
    ensures var r := ReadBack(row, a, row.actions[a].key); r.Some? && Sound(row, r.value)
  {
    hide Kept;
    ReadBackKeeps(row, a);
    hide ReadBack;
  }

  lemma FaultSound(row: CaseRow, a: StableId, fault: Fault)
    requires CaseKept(row) && SubmittedNow(row, a, false)
    ensures RecordFault(row, a, fault).Some? && Sound(row, RecordFault(row, a, fault).value)
  {
    hide Kept;
    FaultKeeps(row, a, fault);
    hide RecordFault;
  }

  lemma ResumeSound(row: CaseRow, a: StableId)
    requires CaseKept(row) && row.state == AwaitingRetry && a in row.actions && row.actions[a].state == FailedRetryable
    ensures MoveCase(row, ExecutingAction).Some? && Sound(row, MoveCase(row, ExecutingAction).value)
    ensures Submittable(MoveCase(row, ExecutingAction).value, a)
  {
    hide Kept;
    ResumeKeeps(row, a);
  }

  lemma ReinvestigateSound(row: CaseRow)
    requires CaseKept(row) && row.state == AwaitingRetry && row.actions == map[]
    ensures MoveCase(row, Investigating).Some? && Sound(row, MoveCase(row, Investigating).value)
    ensures UnderInvestigation(MoveCase(row, Investigating).value)
  {
    hide Kept;
    ReinvestigateKeeps(row);
  }

  lemma FactsSound(row: CaseRow, facts: Ledger)
    requires CaseKept(row) && row.state != Closed && Kept(facts)
    ensures Sound(row, row.(facts := facts))
  {
    hide Kept;
  }

  // ---------- Moves of the lock holder ----------

  ghost predicate Good(s: State, s': State) {
    StateKept(s') && AllEvolve(s, s')
  }

  lemma HolderHasLock(s: State, id: RequestId)
    requires StateKept(s) && id in s.requests && HoldsLock(s.requests[id])
    ensures s.lock == Some(id)
  {
    hide CasesKept;
  }

  /** What the lock holder may assume of its Case. */
  lemma HeldCase(s: State, id: RequestId, p: Progress, c: CaseId)
    requires StateKept(s) && s.lock == Some(id) && s.requests[id] == p && CaseOf(p) == Some(c)
    ensures c in s.cases && CaseKept(s.cases[c]) && Fits(p, s.cases[c]) && HoldsLock(p)
  {
    hide CaseKept, Fits;
  }

  /** Request `id` holds the lock and works on Case c at this point. */
  ghost predicate Holds(s: State, id: RequestId, p: Progress, c: CaseId) {
    StateKept(s) && s.lock == Some(id) && id in s.requests && s.requests[id] == p && CaseOf(p) == Some(c)
  }

  lemma FactsMoveGood(s: State, id: RequestId, p: Progress, c: CaseId, op: Op, reader: Reader)
    requires StateKept(s) && s.lock == Some(id) && s.requests[id] == p && CaseOf(p) == Some(c)
    requires c in s.cases && s.cases[c].state != Closed && (p.Opened? || p.Clarifying? || p.Looking?)
    ensures Good(s, Write(s, c, WithFacts(s.cases[c], op, reader)))
  {
    hide CaseKept, Evolves, Kept, Apply;
    HeldCase(s, id, p, c);
    var row := s.cases[c];
    var moved := WithFacts(row, op, reader);
    FactsStaySound(row, op, reader);
    WriteKeeps(s, c, moved);
    assert Fits(p, moved);
    SameHolder(s, Write(s, c, moved), id, p, c);
  }

  lemma FactsStaySound(row: CaseRow, op: Op, reader: Reader)
    requires CaseKept(row) && row.state != Closed
    ensures Sound(row, WithFacts(row, op, reader))
  {
    hide Kept, Apply, RowsKept, Evolves;
    ApplyKeeps(row.facts, op, reader);
    FactsSound(row, Apply(row.facts, op, reader));
    FactsSound(row, row.facts);
    assert row.(facts := row.facts) == row;
  }

  lemma SameHolder(s: State, s': State, id: RequestId, p: Progress, c: CaseId)
    requires CasesKept(s') && LockKept(s') && s'.lock == Some(id) && id in s'.requests && s'.requests[id] == p
    requires CaseOf(p) == Some(c) && c in s'.cases && Fits(p, s'.cases[c])
    ensures StateKept(s')
  {
    hide CaseKept, Fits;
  }

  lemma OpenedGood(s: State, id: RequestId, c: CaseId, move: Move, reader: Reader)
    requires StateKept(s) && s.lock == Some(id) && s.requests[id] == Opened(c)
    ensures c in s.cases && Good(s, CaseMoves(s, id, Opened(c), c, move, reader))
  {
    hide StateKept, Good, Commit, Continue, Finish, Write, CaseKept, Sound, AskTarget, WithFacts;
    HeldCase(s, id, Opened(c), c);
    var row := s.cases[c];
    match move
    case RequestTarget =>
      AskTargetSound(row);
      CommitSound(s, id, c, AskTarget(row), None);
    case StartLooking => ContinueInCase(s, id, c, Looking(c, true));
    case FactsMove(op) => FactsMoveGood(s, id, Opened(c), c, op, reader);
    case _ => StayGood(s);
  }

  lemma StayGood(s: State)
    requires StateKept(s)
    ensures Good(s, s)
  {
    hide Evolves, CaseKept;
    forall c | c in s.cases ensures Evolves(s.cases[c], s.cases[c]) {
      EvolvesSelf(s.cases[c]);
    }
  }

  lemma ContinueGood(s: State, id: RequestId, p: Progress)
    requires StateKept(s) && s.lock == Some(id) && HoldsLock(p) && ProgressKept(s, p)
    ensures Good(s, Continue(s, id, p))
  {
    hide CasesKept, ProgressKept, AllEvolve;
    ContinueKeeps(s, id, p);
  }

  lemma ContinueInCase(s: State, id: RequestId, c: CaseId, p: Progress)
    requires StateKept(s) && s.lock == Some(id) && HoldsLock(p) && CaseOf(p) == Some(c) && c in s.cases
        && Fits(p, s.cases[c])
    ensures Good(s, Continue(s, id, p))
  {
    hide CasesKept, AllEvolve, Good, LockKept, Fits;
    ContinueGood(s, id, p);
  }

  lemma FinishGood(s: State, id: RequestId)
    requires StateKept(s) && s.lock == Some(id)
    ensures Good(s, Finish(s, id))
  {
    hide CasesKept, ProgressKept, AllEvolve;
    FinishKeeps(s, id);
  }

  lemma CommitSound(s: State, id: RequestId, c: CaseId, tx: Option<CaseRow>, next: Option<Progress>)
    requires StateKept(s) && s.lock == Some(id) && c in s.cases && s.cases[c].state != Closed
    requires tx.Some? ==> Sound(s.cases[c], tx.value)
    requires tx.Some? && next.Some? ==>
      HoldsLock(next.value) && CaseOf(next.value) == Some(c) && Fits(next.value, tx.value)
    ensures Good(s, Commit(s, id, c, tx, next))
  {
    hide CasesKept, ProgressKept, AllEvolve, Commit, CaseKept, Evolves, Fits, StateKept;
    CommitKeeps(s, id, c, tx, next);
  }

  lemma ClarifyingGood(s: State, id: RequestId, p: Progress, c: CaseId, move: Move, reader: Reader)
    requires StateKept(s) && s.lock == Some(id) && s.requests[id] == p && CaseOf(p) == Some(c)
        && (p.Clarifying? || p.ChoosingTarget?)
    ensures c in s.cases && Good(s, CaseMoves(s, id, p, c, move, reader))
  {
    hide StateKept, Good, Commit, Continue, Finish, Write, CaseKept, Sound, AskTarget, WithFacts, CloseCase, MoveCase;
    HeldCase(s, id, p, c);
    var row := s.cases[c];
    match (p, move)
    case (Clarifying(_), ChooseTarget) => ContinueInCase(s, id, c, ChoosingTarget(c));
    case (Clarifying(_), StartLooking) =>
      if row.clarifications >= CLARIFICATION_LIMIT {
        CloseSound(row, HumanSupportRequired);
        CommitSound(s, id, c, CloseCase(row, HumanSupportRequired), None);
      } else {
        ContinueInCase(s, id, c, Looking(c, true));
      }
    case (Clarifying(_), FactsMove(op)) => FactsMoveGood(s, id, p, c, op, reader);
    case (ChoosingTarget(_), TargetChosen(chosen)) =>
      if row.clarifications >= CLARIFICATION_LIMIT || !chosen {
        AskTargetSound(row);
        CommitSound(s, id, c, AskTarget(row), None);
      } else {
        FailSound(row, Investigating);
        CommitSound(s, id, c, MoveCase(row, Investigating), Some(Looking(c, true)));
      }
    case _ => StayGood(s);
  }

  lemma SomethingListed<T>(s: seq<T>)
    ensures s != [] ==> exists x :: x in s
  {
    if s != [] {
      assert s[0] in s;
    }
  }

  lemma NothingListed(row: CaseRow)
    requires RowsKept(row) && UnderInvestigation(row)
    ensures PendingIds(row) == []
  {
    var pending := PendingIds(row);
    forall p ensures p !in pending {
    }
    SomethingListed(pending);
  }

  lemma DecidedGood(s: State, id: RequestId, c: CaseId, mayRevise: bool, gate: Gate)
    requires StateKept(s) && s.lock == Some(id) && s.requests[id] == Looking(c, mayRevise)
    ensures c in s.cases && Good(s, Decided(s, id, c, mayRevise, gate))
  {
    hide StateKept, Good, Commit, Continue, Finish, Write, RowsKept, Kept, Sound, CloseCase, MoveCase, PendingIds,
        HighestVersion;
    HeldCase(s, id, Looking(c, mayRevise), c);
    var row := s.cases[c];
    CloseSound(row, HumanSupportRequired);
    CommitSound(s, id, c, CloseCase(row, HumanSupportRequired), None);
    match gate
    case ProposeTicket =>
      NothingListed(row);
      ContinueInCase(s, id, c, Proposing(c, HighestVersion(row.proposals, row.proposals.Keys) + 1, []));
    case Clarify =>
      if row.clarifications < CLARIFICATION_LIMIT {
        ContinueInCase(s, id, c, Asking(c));
      }
    case RetryLater =>
      FailSound(row, AwaitingRetry);
      CommitSound(s, id, c, MoveCase(row, AwaitingRetry), None);
    case CloseForHuman =>
    case CloseResolved =>
      CloseSound(row, ResolvedNoAction);
      CommitSound(s, id, c, CloseCase(row, ResolvedNoAction), None);
    case ReviseIssue =>
      if mayRevise {
        ContinueInCase(s, id, c, Looking(c, false));
      }
  }

  lemma LookingGood(s: State, id: RequestId, c: CaseId, mayRevise: bool, move: Move, reader: Reader)
    requires StateKept(s) && s.lock == Some(id) && s.requests[id] == Looking(c, mayRevise)
    ensures c in s.cases && Good(s, CaseMoves(s, id, Looking(c, mayRevise), c, move, reader))
  {
    hide StateKept, Good, Commit, Continue, Finish, Write, CaseKept, Sound, WithFacts, MoveCase, Decided;
    HeldCase(s, id, Looking(c, mayRevise), c);
    match move
    case FactsMove(op) => FactsMoveGood(s, id, Looking(c, mayRevise), c, op, reader);
    case Fails =>
      FailSound(s.cases[c], AwaitingRetry);
      CommitSound(s, id, c, MoveCase(s.cases[c], AwaitingRetry), None);
    case GateDecides(gate) => DecidedGood(s, id, c, mayRevise, gate);
    case _ => StayGood(s);
  }

  /** A fact question that is found already recorded closes the Case; only a new one goes on to ask. */
  lemma AskFactGood(s: State, id: RequestId, c: CaseId, now: int)
    requires StateKept(s) && s.lock == Some(id) && s.requests[id] == Asking(c)
    ensures c in s.cases && Good(s, AskFact(s, id, c, now))
  {
    hide RowsKept, Kept, Sound, Commit, CloseCase, RecordQuestion, Recomputed;
    HeldCase(s, id, Asking(c), c);
    var row := s.cases[c];
    CloseSound(row, HumanSupportRequired);
    CommitSound(s, id, c, CloseCase(row, HumanSupportRequired), None);
    AskEffect(row.facts, LocationChecked, row.clarifications, now);
    var (facts, asked) := RecordQuestion(row.facts, LocationChecked, row.clarifications, now);
    if asked.Ok? && !asked.value.created {
      RecordedQuestionIsNotOpen(row.facts, LocationChecked, row.clarifications, now);
    }
    FactsSound(row, facts);
    hide AskFact;
    AskFactGoesOn(s, id, c, now, row.(facts := facts));
  }

  lemma AskFactGoesOn(s: State, id: RequestId, c: CaseId, now: int, row: CaseRow)
    requires StateKept(s) && s.lock == Some(id) && s.requests[id] == Asking(c) && c in s.cases
    requires s.cases[c].state != Closed && Fits(Asking(c), s.cases[c])
    requires row == s.cases[c].(facts := row.facts) && Sound(s.cases[c], row)
    requires Good(s, Commit(s, id, c, CloseCase(s.cases[c], HumanSupportRequired), None))
    requires var (facts, asked) := RecordQuestion(s.cases[c].facts, LocationChecked, s.cases[c].clarifications, now);
      && row.facts == facts
      && (asked.Ok? && !asked.value.created && Load(s.cases[c].facts).Ok? ==>
            Load(s.cases[c].facts).value.Asked(LocationChecked).status !in {Unanswered, ConflictRequiresClarification})
    ensures Good(s, AskFact(s, id, c, now))
  {
    hide RecordQuestion, Load, CaseKept, Evolves, CloseCase, Commit, CasesKept;
    WriteKeeps(s, c, row);
    var (_, asked) := RecordQuestion(s.cases[c].facts, LocationChecked, s.cases[c].clarifications, now);
    if asked.Ok? && asked.value.created {
      SameAfterContinue(s, Write(s, c, row), id, AskRecorded(c, true), c);
    }
  }

  lemma SameAfterContinue(s: State, s1: State, id: RequestId, p: Progress, c: CaseId)
    requires CasesKept(s1) && LockKept(s1) && s1.lock == Some(id) && AllEvolve(s, s1)
    requires HoldsLock(p) && CaseOf(p) == Some(c) && c in s1.cases && Fits(p, s1.cases[c])
    ensures Good(s, Continue(s1, id, p))
  {
    hide CaseKept, Evolves, CasesKept, Fits;
    ContinueKeeps(s1, id, p);
  }

  lemma ProposingGood(s: State, id: RequestId, p: Progress, c: CaseId, move: Move, reader: Reader)
    requires StateKept(s) && s.lock == Some(id) && s.requests[id] == p && p.Proposing? && p.caseId == c
    ensures c in s.cases && Good(s, CaseMoves(s, id, p, c, move, reader))
  {
    hide StateKept, Good, Commit, Continue, Finish, Write, CaseKept, Sound, Propose;
    HeldCase(s, id, p, c);
    var row := s.cases[c];
    if move.WriteProposal? {
      ProposeSound(row, move.proposal, p.version, move.expiresAt);
      CommitSound(s, id, c, Propose(row, [], move.proposal, p.version, move.expiresAt), None);
    } else {
      StayGood(s);
    }
  }

  lemma AskingGood(s: State, id: RequestId, p: Progress, c: CaseId, move: Move, reader: Reader)
    requires StateKept(s) && s.lock == Some(id) && s.requests[id] == p && p.Asking? && p.caseId == c
    ensures c in s.cases && Good(s, CaseMoves(s, id, p, c, move, reader))
  {
    hide StateKept, Good, Commit, Continue, Finish, Write, CaseKept, Sound, AskFact;
    HeldCase(s, id, p, c);
    if move.RecordQuestionNow? {
      AskFactGood(s, id, c, move.now);
    } else {
      StayGood(s);
    }
  }

  lemma AskRecordedGood(s: State, id: RequestId, p: Progress, c: CaseId, move: Move, reader: Reader)
    requires StateKept(s) && s.lock == Some(id) && s.requests[id] == p && p.AskRecorded? && p.caseId == c
    ensures c in s.cases && Good(s, CaseMoves(s, id, p, c, move, reader))
  {
    hide StateKept, Good, Commit, Continue, Finish, Write, CaseKept, Sound, AskCustomer;
    HeldCase(s, id, p, c);
    var row := s.cases[c];
    if move.WriteQuestion? {
      AskSound(row);
      CommitSound(s, id, c, AskCustomer(row, true), None);
    } else {
      StayGood(s);
    }
  }

  lemma CheckedGood(s: State, id: RequestId, p: Progress, c: CaseId, move: Move, reader: Reader)
    requires StateKept(s) && s.lock == Some(id) && s.requests[id] == p && p.Checked? && p.caseId == c
    ensures c in s.cases && Good(s, CaseMoves(s, id, p, c, move, reader))
  {
    hide StateKept, Good, Commit, Continue, Finish, Write, CaseKept, Sound, LapseProposal;
    HeldCase(s, id, p, c);
    var row := s.cases[c];
    if move.GateStillHolds? {
      LapseSound(row, p.proposal, Invalidated);
      if move.holds {
        ContinueInCase(s, id, c, Confirmable(c, p.proposal));
      } else {
        CommitSound(s, id, c, LapseProposal(row, p.proposal, Invalidated), None);
      }
    } else {
      StayGood(s);
    }
  }

  lemma ConfirmableGood(s: State, id: RequestId, p: Progress, c: CaseId, move: Move, reader: Reader)
    requires StateKept(s) && s.lock == Some(id) && s.requests[id] == p && p.Confirmable? && p.caseId == c
    ensures c in s.cases && Good(s, CaseMoves(s, id, p, c, move, reader))
  {
    hide StateKept, Good, Commit, Continue, Finish, Write, CaseKept, Sound, Confirm;
    HeldCase(s, id, p, c);
    var row := s.cases[c];
    if move.WriteConfirmation? {
      ConfirmSound(row, p.proposal);
      CommitSound(s, id, c, Confirm(row, p.proposal),
          Some(Submitting(c, StableId(p.proposal, row.proposals[p.proposal].version))));
    } else {
      StayGood(s);
    }
  }

  lemma DeclinableGood(s: State, id: RequestId, p: Progress, c: CaseId, move: Move, reader: Reader)
    requires StateKept(s) && s.lock == Some(id) && s.requests[id] == p && p.Declinable? && p.caseId == c
    ensures c in s.cases && Good(s, CaseMoves(s, id, p, c, move, reader))
  {
    hide StateKept, Good, Commit, Continue, Finish, Write, CaseKept, Sound, Decline;
    HeldCase(s, id, p, c);
    var row := s.cases[c];
    if move.WriteRefusal? {
      DeclineSound(row, p.proposal);
      CommitSound(s, id, c, Decline(row, p.proposal), None);
    } else {
      StayGood(s);
    }
  }

  lemma SubmittingGood(s: State, id: RequestId, p: Progress, c: CaseId, move: Move, reader: Reader)
    requires StateKept(s) && s.lock == Some(id) && s.requests[id] == p && p.Submitting? && p.caseId == c
    ensures c in s.cases && Good(s, CaseMoves(s, id, p, c, move, reader))
  {
    hide StateKept, Good, Commit, Continue, Finish, Write, CaseKept, Sound, Submit;
    HeldCase(s, id, p, c);
    var row := s.cases[c];
    if move.SubmitNow? {
      SubmitSound(row, p.action, move.fault.Some?, move.scopeTaken);
      CommitSound(s, id, c, Submit(row, p.action, move.fault.Some?, move.scopeTaken),
                  Some(if move.fault.Some? then FaultPending(c, p.action, move.fault.value)
                      else ReadingBack(c, p.action)));
    } else {
      StayGood(s);
    }
  }

  lemma ReadingBackGood(s: State, id: RequestId, p: Progress, c: CaseId, move: Move, reader: Reader)
    requires StateKept(s) && s.lock == Some(id) && s.requests[id] == p && p.ReadingBack? && p.caseId == c
    ensures c in s.cases && Good(s, CaseMoves(s, id, p, c, move, reader))
  {
    hide StateKept, Good, Commit, Continue, Finish, Write, CaseKept, Sound, ReadBack;
    HeldCase(s, id, p, c);
    var row := s.cases[c];
    if move.ReadBackNow? {
      ReadBackSound(row, p.action);
      CommitSound(s, id, c, ReadBack(row, p.action, row.actions[p.action].key), None);
    } else {
      StayGood(s);
    }
  }

  lemma FaultPendingGood(s: State, id: RequestId, p: Progress, c: CaseId, move: Move, reader: Reader)
    requires StateKept(s) && s.lock == Some(id) && s.requests[id] == p && p.FaultPending? && p.caseId == c
    ensures c in s.cases && Good(s, CaseMoves(s, id, p, c, move, reader))
  {
    hide StateKept, Good, Commit, Continue, Finish, Write, CaseKept, Sound, RecordFault;
    HeldCase(s, id, p, c);
    var row := s.cases[c];
    if move.WriteFault? {
      FaultSound(row, p.action, p.fault);
      CommitSound(s, id, c, RecordFault(row, p.action, p.fault), None);
    } else {
      StayGood(s);
    }
  }

  lemma CaseMovesGood(s: State, id: RequestId, p: Progress, c: CaseId, move: Move, reader: Reader)
    requires StateKept(s) && s.lock == Some(id) && s.requests[id] == p && CaseOf(p) == Some(c)
    ensures c in s.cases && Good(s, CaseMoves(s, id, p, c, move, reader))
  {
    hide CaseMoves, StateKept, AllEvolve;
    match p
    case Opened(_) => OpenedGood(s, id, c, move, reader);
    case Clarifying(_) => ClarifyingGood(s, id, p, c, move, reader);
    case ChoosingTarget(_) => ClarifyingGood(s, id, p, c, move, reader);
    case Looking(_, mayRevise) => LookingGood(s, id, c, mayRevise, move, reader);
    case Proposing(_, _, _) => ProposingGood(s, id, p, c, move, reader);
    case Asking(_) => AskingGood(s, id, p, c, move, reader);
    case AskRecorded(_, _) => AskRecordedGood(s, id, p, c, move, reader);
    case Checked(_, _) => CheckedGood(s, id, p, c, move, reader);
    case Confirmable(_, _) => ConfirmableGood(s, id, p, c, move, reader);
    case Declinable(_, _) => DeclinableGood(s, id, p, c, move, reader);
    case Submitting(_, _) => SubmittingGood(s, id, p, c, move, reader);
    case ReadingBack(_, _) => ReadingBackGood(s, id, p, c, move, reader);
    case FaultPending(_, _, _) => FaultPendingGood(s, id, p, c, move, reader);
  }

  // ---------- Entering ----------

  lemma KeptCase(s: State, c: CaseId)
    requires CasesKept(s) && c in s.cases
    ensures CaseKept(s.cases[c]) && (s.cases[c].state != Closed <==> s.active == Some(c))
  {
    hide CaseKept;
  }

  lemma AdmitMessageGood(s: State, id: RequestId)
    requires StateKept(s) && s.lock == Some(id)
    ensures Good(s, AdmitMessage(s, id))
  {
    hide CasesKept, LockKept, AllEvolve;
    FinishGood(s, id);
    if s.active == None {
      ContinueGood(s, id, Triaging);
    } else {
      ActiveExists(s);
      if s.cases[s.active.value].state == AwaitingCustomerInput {
        ContinueGood(s, id, Clarifying(s.active.value));
      }
    }
  }

  lemma ActiveExists(s: State)
    requires CasesKept(s) && s.active.Some?
    ensures s.active.value in s.cases
  {
    hide CaseKept;
  }

  lemma AdmitRetryGood(s: State, id: RequestId, c: CaseId)
    requires StateKept(s) && s.lock == Some(id) && c in s.cases
    ensures Good(s, AdmitRetry(s, id, c))
  {
    hide CasesKept, LockKept, AllEvolve, PlanRetry, MoveCase, Commit, Sound, RowsKept, Kept;
    FinishGood(s, id);
    KeptCase(s, c);
    var row := s.cases[c];
    RetryGuardsNeverFire(row);
    match PlanRetry(row)
    case ResumeAction(a) =>
      ResumeSound(row, a);
      CommitSound(s, id, c, MoveCase(row, ExecutingAction), Some(Submitting(c, a)));
    case Reinvestigate =>
      ReinvestigateSound(row);
      CommitSound(s, id, c, MoveCase(row, Investigating), Some(Looking(c, true)));
    case _ =>
  }

  lemma CheckProposalGood(s: State, id: RequestId, c: CaseId, p: ProposalId, version: nat, now: int, next: Progress)
    requires StateKept(s) && s.lock == Some(id) && c in s.cases
    requires next == Checked(c, p) || next == Declinable(c, p)
    ensures Good(s, CheckProposal(s, id, c, p, version, now, next))
  {
    hide CasesKept, LockKept, AllEvolve, LapseProposal, Commit, Sound, RowsKept, Kept;
    FinishGood(s, id);
    KeptCase(s, c);
    var row := s.cases[c];
    if IsPending(row, p) {
      LapseSound(row, p, Expired);
      CommitSound(s, id, c, LapseProposal(row, p, Expired), None);
      ContinueGood(s, id, next);
    }
  }

  lemma OpenCaseGood(s: State, id: RequestId, c: CaseId)
    requires StateKept(s) && s.lock == Some(id) && s.active == None && c !in s.cases
    ensures Good(s, Continue(s.(cases := s.cases[c := NewCase(c)], active := Some(c)), id, Opened(c)))
  {
    hide CaseKept, Evolves, NewCase;
    NewCaseKept(c);
    NewCaseOpen(c);
    var s1 := s.(cases := s.cases[c := NewCase(c)], active := Some(c));
    forall k | k in s.cases ensures k in s1.cases && Evolves(s.cases[k], s1.cases[k]) {
      EvolvesSelf(s.cases[k]);
    }
    SameAfterContinue(s, s1, id, Opened(c), c);
  }

  lemma NewCaseOpen(c: CaseId)
    ensures NewCase(c).state == Investigating
  {
  }

  lemma MovedGood(s: State, id: RequestId, move: Move, reader: Reader)
    requires StateKept(s) && id in s.requests
    ensures Good(s, Moved(s, id, move, reader))
  {
    hide CasesKept, AllEvolve, AdmitMessage, AdmitRetry, CheckProposal, CaseMoves, NewCase, Fits;
    var p := s.requests[id];
    StayGood(s);
    if HoldsLock(p) {
      FinishGood(s, id);
      if CaseOf(p).Some? {
        CaseMovesGood(s, id, p, CaseOf(p).value, move, reader);
      }
      match p
      case Entered(kind) =>
        AdmitMessageGood(s, id);
        EnteredGood(s, id, kind, move);
      case Triaging =>
        if move.OpenCase? && move.newCase !in s.cases {
          OpenCaseGood(s, id, move.newCase);
        }
      case _ =>
    }
  }

  lemma EnteredGood(s: State, id: RequestId, kind: Kind, move: Move)
    requires StateKept(s) && s.lock == Some(id)
    ensures Good(s, EnteredMoves(s, id, kind, move))
  {
    hide StateKept, AllEvolve, AdmitMessage, AdmitRetry, CheckProposal;
    StayGood(s);
    FinishGood(s, id);
    AdmitMessageGood(s, id);
    match kind
    case Posting =>
    case Retrying(c) =>
      if c in s.cases {
        AdmitRetryGood(s, id, c);
      }
    case Confirming(c, p, version) =>
      if c in s.cases && move.Check? {
        CheckProposalGood(s, id, c, p, version, move.now, Checked(c, p));
      }
    case Declining(c, p, version) =>
      if c in s.cases && move.Check? {
        CheckProposalGood(s, id, c, p, version, move.now, Declinable(c, p));
      }
  }

  // ---------- Every event, every run ----------

  lemma RequestsGood(s: State, s': State)
    requires StateKept(s) && s'.cases == s.cases && s'.active == s.active && LockKept(s')
    requires s'.lock.Some? ==> (s'.requests[s'.lock.value].Entered?
      || (s'.lock == s.lock && s'.requests[s'.lock.value] == s.requests[s.lock.value]))
    ensures Good(s, s')
  {
    hide CaseKept, Evolves, Fits;
    forall c | c in s.cases ensures Evolves(s.cases[c], s'.cases[c]) {
      EvolvesSelf(s.cases[c]);
    }
  }

  lemma NextGood(s: State, e: Event, reader: Reader)
    requires StateKept(s)
    ensures Good(s, Next(s, e, reader))
  {
    hide CasesKept, AllEvolve, Moved, ProgressKept;
    StayGood(s);
    match e
    case Arrives(id, kind) => RequestsGood(s, Next(s, e, reader));
    case Acquires(id) => RequestsGood(s, Next(s, e, reader));
    case Moves(id, move) =>
      if id in s.requests {
        MovedGood(s, id, move, reader);
      }
    case Aborts(id) =>
      if id in s.requests && HoldsLock(s.requests[id]) {
        FinishGood(s, id);
      } else {
        RequestsGood(s, Next(s, e, reader));
      }
    case ProcessRestarts => RequestsGood(s, Next(s, e, reader));
  }

  /** Every state of a run keeps the whole invariant, and every step of it evolves each Case soundly. */
  lemma {:induction false} RunKept(run: seq<State>, events: seq<Event>, reader: Reader, k: nat)
    requires IsRun(run, events, reader) && k < |run|
    ensures StateKept(run[k])
    ensures k < |events| ==> AllEvolve(run[k], run[k + 1])
    decreases k
  {
    hide Next, StateKept, AllEvolve;
    if k == 0 {
      StartKept();
    } else {
      RunKept(run, events, reader, k - 1);
      NextGood(run[k - 1], events[k - 1], reader);
    }
    if k < |events| {
      NextGood(run[k], events[k], reader);
    }
  }

  lemma StartKept()
    ensures StateKept(START)
  {
  }
}
