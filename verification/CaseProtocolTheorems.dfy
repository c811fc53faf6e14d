/** The promises of the write protocol, over every run of its events. */
module CaseProtocolTheorems {
  import opened Options
  import opened CaseFacts
  import opened CaseFactLedger
  import opened CaseFactHistory
  import opened CaseRows
  import opened CaseSafety
  import opened CaseProtocol
  import opened CaseProtocolSafety
  import opened CaseProtocolSteps
  import opened CaseProtocolEffects

  lemma RunCase(run: seq<State>, events: seq<Event>, reader: Reader, k: nat, c: CaseId)
    requires IsRun(run, events, reader) && k < |run| && c in run[k].cases
    ensures RowsKept(run[k].cases[c])
  {
    hide RowsKept, IsRun;
    RunKept(run, events, reader, k);
    KeptCase(run[k], c);
  }

  /**
   A Case awaits confirmation exactly when one of its proposals is pending; that proposal is then the
   only pending one, and its active one.
   */
  lemma AwaitsConfirmationExactly(run: seq<State>, events: seq<Event>, reader: Reader, k: nat, c: CaseId)
    requires IsRun(run, events, reader) && k < |run| && c in run[k].cases
    ensures var row := run[k].cases[c];
      && (row.state == AwaitingCustomerConfirmation <==> exists p :: IsPending(row, p))
      && (forall p, q :: IsPending(row, p) && IsPending(row, q) ==> p == q)
      && (forall p :: IsPending(row, p) ==> row.active == Some(p))
  {
    hide IsRun;
    RunCase(run, events, reader, k, c);
    assert run[k].cases[c].active.Some? ==> IsPending(run[k].cases[c], run[k].cases[c].active.value);
  }

  /**
   An action exists only for a confirmed proposal; a Case never has more than one action, nor more than
   one ticket.
   */
  lemma OneActionOneTicket(run: seq<State>, events: seq<Event>, reader: Reader, k: nat, c: CaseId)
    requires IsRun(run, events, reader) && k < |run| && c in run[k].cases
    ensures var row := run[k].cases[c];
      && |row.actions| <= 1 && |row.tickets| <= 1
      && (forall a :: a in row.actions ==>
            a.proposal in row.proposals && row.proposals[a.proposal].state == Confirmed
                && row.proposals[a.proposal].version == a.version)
      && (forall t :: t in row.tickets ==> t in row.actions && row.actions[t].key == t && row.tickets[t].action == t
                                           && row.actions[t].state in {Submitted, Succeeded})
  {
    hide IsRun;
    RunCase(run, events, reader, k, c);
    AtMostOne(run[k].cases[c].actions);
    AtMostOne(run[k].cases[c].tickets);
  }

  lemma AtMostOne<K, V>(m: map<K, V>)
    ensures (forall a, b :: a in m && b in m ==> a == b) ==> |m| <= 1
  {
    if m != map[] && forall a, b :: a in m && b in m ==> a == b {
      var a :| a in m;
      assert m == map[a := m[a]];
    }
  }

  /** The outcome tells how the action ended, and a created ticket carries the action's own key. */
  lemma TicketOutcomeIsVerified(run: seq<State>, events: seq<Event>, reader: Reader, k: nat, c: CaseId)
    requires IsRun(run, events, reader) && k < |run| && c in run[k].cases
    ensures var row := run[k].cases[c];
      && (row.outcome == Some(TicketCreated) <==> exists a :: a in row.actions && row.actions[a].state == Succeeded)
      && (row.outcome == Some(TicketCreated) ==>
            exists a :: a in row.actions && row.actions[a].state == Succeeded && row.actions[a].key in row.tickets
                        && row.tickets[row.actions[a].key] == Ticket(a))
      && (row.outcome == Some(FailedOutcome) <==>
           exists a :: a in row.actions && row.actions[a].state == FailedTerminal)
      && (row.outcome == Some(UncertainOutcome) <==> exists a :: a in row.actions && row.actions[a].state == Uncertain)
  {
    hide IsRun;
    RunCase(run, events, reader, k, c);
    OutcomeIsTheActions(run[k].cases[c]);
  }

  lemma OutcomeIsTheActions(row: CaseRow)
    requires RowsKept(row)
    ensures row.outcome == Some(TicketCreated) <==> exists a :: a in row.actions && row.actions[a].state == Succeeded
    ensures row.outcome == Some(TicketCreated) ==>
      exists a :: a in row.actions && row.actions[a].state == Succeeded && row.actions[a].key in row.tickets
                  && row.tickets[row.actions[a].key] == Ticket(a)
    ensures row.outcome == Some(FailedOutcome) <==>
        exists a :: a in row.actions && row.actions[a].state == FailedTerminal
    ensures row.outcome == Some(UncertainOutcome) <==> exists a :: a in row.actions && row.actions[a].state == Uncertain
  {
    if ActionOutcome(row.outcome) {
      assert row.actions != map[];
      var a :| a in row.actions;
      OnlyAction(row, a);
      assert Lifecycle(row, row.actions[a].state);
    }
  }

  /**
   A retry finds either the one action that failed retryably or no action at all, so neither of its
   refusals is ever raised.
   */
  lemma RetryIsNeverRefused(run: seq<State>, events: seq<Event>, reader: Reader, k: nat, c: CaseId)
    requires IsRun(run, events, reader) && k < |run| && c in run[k].cases
    ensures var row := run[k].cases[c];
      && !PlanRetry(row).WriteUnsafe? && !PlanRetry(row).SeveralFailed?
      && (row.state == AwaitingRetry ==> forall a :: a in row.actions ==> row.actions[a].state == FailedRetryable)
      && (row.state == AwaitingRetry ==> (PlanRetry(row) == Reinvestigate <==> row.actions == map[]))
  {
    hide IsRun;
    RunCase(run, events, reader, k, c);
    var row := run[k].cases[c];
    RetryGuardsNeverFire(row);
    hide PlanRetry;
    forall a | a in row.actions && row.state == AwaitingRetry ensures row.actions[a].state == FailedRetryable {
      assert Lifecycle(row, row.actions[a].state);
    }
  }

  /** Whenever a request reads its ticket back, the ticket is there: the read-back closes the Case on it. */
  lemma ReadBackFindsTheTicket(run: seq<State>, events: seq<Event>, reader: Reader, k: nat, id: RequestId,
      c: CaseId, a: StableId)
    requires IsRun(run, events, reader) && k < |events| && events[k] == Moves(id, ReadBackNow)
    requires id in run[k].requests && run[k].requests[id] == ReadingBack(c, a)
    ensures c in run[k + 1].cases && run[k + 1].cases[c].state == Closed
        && run[k + 1].cases[c].outcome == Some(TicketCreated)
    ensures run[k + 1].lock == None
  {
    hide StateKept, Next;
    RunKept(run, events, reader, k);
    ReadBackCloses(run[k], id, c, a, reader);
  }

  lemma ReadBackCloses(s: State, id: RequestId, c: CaseId, a: StableId, reader: Reader)
    requires StateKept(s) && id in s.requests && s.requests[id] == ReadingBack(c, a)
    ensures var s' := Next(s, Moves(id, ReadBackNow), reader);
      c in s'.cases && s'.cases[c].state == Closed && s'.cases[c].outcome == Some(TicketCreated) && s'.lock == None
  {
    hide CaseKept, RowsKept, ReadBack, StateKept, Commit;
    HolderHasLock(s, id);
    HeldCase(s, id, ReadingBack(c, a), c);
    var row := s.cases[c];
    KeptRows(row);
    ReadBackKeeps(row, a);
    CommitRows(s, id, c, ReadBack(row, a, row.actions[a].key), None);
  }

  /**
   Mutual exclusion and one open Case: requests past the lock are the lock's holder alone; open Cases
   are the active one alone.
   */
  lemma OneHolderOneOpenCase(run: seq<State>, events: seq<Event>, reader: Reader, k: nat)
    requires IsRun(run, events, reader) && k < |run|
    ensures var s := run[k];
      && (forall i, j ::
            i in s.requests && j in s.requests && HoldsLock(s.requests[i]) && HoldsLock(s.requests[j]) ==> i == j)
      && (forall c, d ::
            c in s.cases && d in s.cases && s.cases[c].state != Closed && s.cases[d].state != Closed ==> c == d)
      && (forall c :: c in s.cases ==> (s.cases[c].state == Closed <==> s.cases[c].outcome.Some?))
  {
    hide IsRun, Fits;
    RunKept(run, events, reader, k);
    var s := run[k];
    forall c | c in s.cases ensures (s.cases[c].state == Closed <==> s.cases[c].outcome.Some?)
        && (s.cases[c].state != Closed ==> s.active == Some(c)) {
      KeptCase(s, c);
    }
  }

  lemma RunLength(run: seq<State>, events: seq<Event>, reader: Reader)
    requires IsRun(run, events, reader)
    ensures |run| == |events| + 1 && run[0] == START
  {
  }

  // ---------- Every step ----------

  /**
   Every event moves every Case along the published table or one of the four edges the service adds,
   its proposals and actions along theirs, and leaves closed Cases, keys and tickets as they are.
   */
  lemma EveryStepFollowsTheTables(run: seq<State>, events: seq<Event>, reader: Reader, k: nat, c: CaseId)
    requires IsRun(run, events, reader) && k < |events| && c in run[k].cases
    ensures c in run[k + 1].cases && Evolves(run[k].cases[c], run[k + 1].cases[c])
  {
    hide Evolves, IsRun, StateKept;
    RunLength(run, events, reader);
    RunKept(run, events, reader, k);
  }

  predicate Settled(state: ActionState) {
    state == Succeeded || state == FailedTerminal || state == Uncertain
  }

  /** What no later event changes: a closed Case, a settled action, an action's key, a written ticket. */
  ghost predicate Preserves(r: CaseRow, r': CaseRow) {
    && (r.state == Closed ==> r' == r)
    && (forall a :: a in r.actions ==> a in r'.actions && r'.actions[a].key == r.actions[a].key)
    && (forall a :: a in r.actions && Settled(r.actions[a].state) ==> r'.actions[a] == r.actions[a])
    && (forall k :: k in r.tickets ==> k in r'.tickets && r'.tickets[k] == r.tickets[k])
    && (forall p :: p in r.proposals ==> p in r'.proposals && (r.proposals[p].state != Pending ==>
         r'.proposals[p].state == r.proposals[p].state))
    && r.clarifications <= r'.clarifications
  }

  lemma EvolvingPreserves(r: CaseRow, r1: CaseRow, r2: CaseRow)
    requires Preserves(r, r1) && Evolves(r1, r2)
    ensures Preserves(r, r2)
  {
  }

  /**
   Nothing later in a run, with any failures, retries and crashes, resubmits a settled action, changes
   the key an action is submitted under, removes a ticket, revives a proposal or reopens a closed Case.
   */
  lemma {:induction false} LaterStatesPreserve(run: seq<State>, events: seq<Event>, reader: Reader, j: nat, k: nat,
      c: CaseId)
    requires IsRun(run, events, reader) && j <= k < |run| && c in run[j].cases
    ensures c in run[k].cases && Preserves(run[j].cases[c], run[k].cases[c])
    decreases k
  {
    hide Preserves, IsRun, Evolves;
    if j == k {
      PreservesSelf(run[j].cases[c]);
    } else {
      RunLength(run, events, reader);
      LaterStatesPreserve(run, events, reader, j, k - 1, c);
      EveryStepFollowsTheTables(run, events, reader, k - 1, c);
      EvolvingPreserves(run[j].cases[c], run[k - 1].cases[c], run[k].cases[c]);
    }
  }

  lemma PreservesSelf(r: CaseRow)
    ensures Preserves(r, r)
  {
  }

  /**
   Event by event, the transactions with their checks and rollbacks do to every Case exactly what the
   event is meant to do: which state and outcome it gets, what becomes of its proposals, actions and
   tickets, what a clarification costs, and how its fact ledger moves on.
   */
  lemma EveryEventDoesWhatIsMeant(run: seq<State>, events: seq<Event>, reader: Reader, k: nat, c: CaseId)
    requires IsRun(run, events, reader) && k < |events| && c in run[k].cases
    ensures c in run[k + 1].cases && run[k + 1].cases[c] == EventMeans(run[k], events[k], c, reader)
  {
    hide IsRun, StateKept, Next, EventMeans;
    StepOfRun(run, events, reader, k);
    NextMeans(run[k], events[k], reader, c);
  }

  // ---------- Where the published Case table ends ----------

  /**
   Exactly when an event takes a Case off the published table, told from the state before it: a pending
   proposal is checked at its version after it expired, or its gate no longer holds; a retry resumes an
   action; a scripted retryable fault is recorded; or a new proposal is written while the customer's
   input is awaited.
   */
  lemma {:induction false} TableIsLeftExactly(run: seq<State>, events: seq<Event>, reader: Reader, k: nat, c: CaseId)
    requires IsRun(run, events, reader) && k < |events| && c in run[k].cases
    ensures c in run[k + 1].cases
    ensures LeavesTable(run[k].cases[c], run[k + 1].cases[c]) <==> BeyondTable(run[k], events[k], c)
  {
    hide IsRun, StateKept, AsksCustomer, BeyondTable;
    StepOfRun(run, events, reader, k);
    NextSteps(run[k], events[k], reader, c);
  }

  lemma StepOfRun(run: seq<State>, events: seq<Event>, reader: Reader, k: nat)
    requires IsRun(run, events, reader) && k < |events|
    ensures |run| == |events| + 1 && StateKept(run[k]) && run[k + 1] == Next(run[k], events[k], reader)
  {
    hide StateKept, Next;
    RunKept(run, events, reader, k);
  }

  // ---------- The fact question ----------

  /**
   Whenever a request records the location question, a question that is new is put to the customer
   next, and in every other case (not allowed, not loadable, or found already recorded, since such a
   question is never still open) the Case closes for human support.
   */
  lemma OnlyANewQuestionIsPut(run: seq<State>, events: seq<Event>, reader: Reader, k: nat, id: RequestId, c: CaseId,
      now: int)
    requires IsRun(run, events, reader) && k < |events| && events[k] == Moves(id, RecordQuestionNow(now))
    requires id in run[k].requests && run[k].requests[id] == Asking(c)
    ensures c in run[k].cases && c in run[k + 1].cases
    ensures var row, row' := run[k].cases[c], run[k + 1].cases[c];
      var (facts, asked) := RecordQuestion(row.facts, LocationChecked, row.clarifications, now);
      if Load(row.facts).Ok? && asked.Ok? && asked.value.created then
        && row' == row.(facts := facts)
        && id in run[k + 1].requests && run[k + 1].requests[id] == AskRecorded(c, true)
      else row'.state == Closed && row'.outcome == Some(HumanSupportRequired) && run[k + 1].lock == None
  {
    hide IsRun, StateKept, Next, AskFact, RecordQuestion, Load, Kept;
    StepOfRun(run, events, reader, k);
    var s := run[k];
    HolderHasLock(s, id);
    HeldCase(s, id, Asking(c), c);
    AskFactExactly(s, id, c, now);
    AskFactIsNext(s, id, c, now, reader);
  }

  lemma AskFactIsNext(s: State, id: RequestId, c: CaseId, now: int, reader: Reader)
    requires c in s.cases && id in s.requests && s.requests[id] == Asking(c)
    ensures Next(s, Moves(id, RecordQuestionNow(now)), reader) == AskFact(s, id, c, now)
  {
    hide AskFact;
  }

  // ---------- Clarification terminates ----------

  /** How many of the first k events asked the customer of a Case something. */
  ghost function TimesAsked(run: seq<State>, events: seq<Event>, k: nat, c: CaseId): nat
    requires k <= |events| && k < |run|
  {
    if k == 0 then 0
    else TimesAsked(run, events, k - 1, c) + if AsksCustomer(run[k - 1], events[k - 1], run[k], c) then 1 else 0
  }

  /**
   Each event that asks the customer costs its Case exactly one clarification, no other event costs
   one, no Case starts to wait without being asked, and no run asks a Case a third time: whether it
   was waiting already or not, and whichever of the three questions is put.
   */
  lemma {:induction false} ClarificationTerminates(run: seq<State>, events: seq<Event>, reader: Reader, k: nat,
      c: CaseId)
    requires IsRun(run, events, reader) && k < |run|
    ensures k < |events| && c in run[k].cases ==>
      && c in run[k + 1].cases
      && run[k + 1].cases[c].clarifications
           == run[k].cases[c].clarifications + (if AsksCustomer(run[k], events[k], run[k + 1], c) then 1 else 0)
      && (run[k].cases[c].state != AwaitingCustomerInput && run[k + 1].cases[c].state == AwaitingCustomerInput ==>
            AsksCustomer(run[k], events[k], run[k + 1], c))
    ensures TimesAsked(run, events, k, c) == if c in run[k].cases then run[k].cases[c].clarifications else 0
    ensures TimesAsked(run, events, k, c) <= CLARIFICATION_LIMIT
    decreases k
  {
    hide IsRun, StateKept, AsksCustomer, BeyondTable, RowsKept, ProposalsEvolve, ActionsEvolve, CaseMayBecome,
        ExtraEdge;
    RunLength(run, events, reader);
    if c in run[k].cases {
      RunLimit(run, events, reader, k, c);
    }
    if k < |events| && c in run[k].cases {
      StepOfRun(run, events, reader, k);
      NextSteps(run[k], events[k], reader, c);
      EveryStepFollowsTheTables(run, events, reader, k, c);
    }
    if k > 0 {
      ClarificationTerminates(run, events, reader, k - 1, c);
      if c !in run[k - 1].cases {
        NewCaseIsNotAsked(run, events, reader, k - 1, c);
      }
    }
  }

  lemma NewCaseIsNotAsked(run: seq<State>, events: seq<Event>, reader: Reader, k: nat, c: CaseId)
    requires IsRun(run, events, reader) && k < |events| && c !in run[k].cases
    ensures c in run[k + 1].cases ==> run[k + 1].cases[c].clarifications == 0
    ensures !AsksCustomer(run[k], events[k], run[k + 1], c)
  {
    hide IsRun, Evolves, StateKept;
    RunLength(run, events, reader);
    RunKept(run, events, reader, k);
  }

  lemma RunLimit(run: seq<State>, events: seq<Event>, reader: Reader, k: nat, c: CaseId)
    requires IsRun(run, events, reader) && k < |run| && c in run[k].cases
    ensures run[k].cases[c].clarifications <= CLARIFICATION_LIMIT
  {
    hide IsRun;
    RunCase(run, events, reader, k, c);
  }
}
