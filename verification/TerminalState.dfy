/** The driver's terminal state machine: one active run, its cancellation and its terminal, the
    instance terminal and the shutdown record. */
module TerminalState {
  import opened Wrappers

  datatype TerminalStatus = Cancelled | Completed | Failed

  datatype Source = SessionStop | Shutdown | TurnCancel

  /** A selected run terminal; `event` stands for the whole event. */
  datatype Identity = Identity(event: nat, runId: string, sourceEventId: string, status: TerminalStatus)

  datatype Receipt = Receipt(eventId: string, kind: string, sequence: int)

  datatype Terminal =
    | Selected(value: Identity)
    | Acked(value: Identity, receipt: Receipt)

  /** The signal is the identity of the run's abort controller. */
  datatype Ticket = Ticket(revision: nat, runId: string, signal: nat)

  datatype ActiveRun = ActiveRun(ticket: Ticket, claim: Option<string>, resumeAllowed: bool, terminal: Option<Terminal>)

  datatype InstanceTerminal = InstanceCompleted(runId: string) | InstanceFailed(runId: string, error: nat)

  datatype InstanceState =
    | Open
    | InstanceSelected(terminal: InstanceTerminal)
    | InstanceAcked(terminal: InstanceTerminal)

  datatype LastTerminal = LastTerminal(runId: string, status: TerminalStatus)

  datatype RunFailure = RunFailure(error: nat, runId: Option<string>)

  datatype ShutdownState = ShutdownState(cleanupCompleted: bool, failure: Option<RunFailure>)

  datatype State = State(active: Option<ActiveRun>, instance: InstanceState, lastOwnedRunId: Option<string>,
                         lastRunTerminal: Option<LastTerminal>, revision: nat, shutdown: Option<ShutdownState>)

  datatype InputOutcome = ResolvedInput | CancelledInput | RejectedInput

  datatype Settlement = Resolved | CancelledRun | FailedInput

  datatype ReleaseReason = CommandAcked | DriverFailing

  /** The calls, with the values their callers pass. */
  datatype Call =
    | BeginRun(runId: string, signal: nat)
    | ClaimCancellation(ticket: Ticket, reason: string, source: Source)
    | RememberOwnedRunId(runId: string)
    | SelectRunTerminal(ticket: Ticket, identity: Identity)
    | AckRunTerminal(ticket: Ticket, receipt: Receipt)
    | AbandonRunTerminal(ticket: Ticket, identity: Identity)
    | SettleInput(ticket: Ticket, outcome: InputOutcome)
    | ReleaseRun(ticket: Ticket, release: ReleaseReason)
    | RequestShutdown
    | RecordFailure(error: nat, failedRunId: Option<string>)
    | MarkCleanupCompleted
    | SelectInstanceTerminal(instance: InstanceTerminal)
    | AckInstanceTerminal(instance: InstanceTerminal)
    | AbandonInstanceTerminal(instance: InstanceTerminal)

  datatype Reply =
    | Thrown
    | Done
    | Began(ticket: Ticket)
    | Claimed
    | AlreadyClaimed
    | TerminalSelected
    | NowSelected
    | Pending
    | AlreadyAcked
    | SupersededByCancellation
    | Settled(settlement: Settlement)

  const INITIAL := State(None, Open, None, None, 0, None)

  predicate Holds(s: State, t: Ticket) {
    s.active.Some? && s.active.value.ticket == t
  }

  function SettlementOf(terminal: Option<Terminal>, outcome: InputOutcome): Settlement {
    if outcome.RejectedInput? || terminal.None? || terminal.value.Selected? then FailedInput
    else if outcome.CancelledInput? then
      if terminal.value.value.status == Cancelled then CancelledRun else FailedInput
    else if terminal.value.value.status == Completed then Resolved else FailedInput
  }

  /** What each call does to the state and answers. */
  function Step(s: State, c: Call): (State, Reply) {
    match c
    case BeginRun(runId, signal) =>
      if s.active.Some? || !s.instance.Open? then (s, Thrown)
      else
        var ticket := Ticket(s.revision + 1, runId, signal);
        (s.(active := Some(ActiveRun(ticket, None, true, None)), lastOwnedRunId := Some(runId),
            lastRunTerminal := None, revision := s.revision + 1), Began(ticket))
    case ClaimCancellation(ticket, reason, source) =>
      if !Holds(s, ticket) then (s, Thrown)
      else if s.active.value.terminal.Some? then (s, TerminalSelected)
      else if s.active.value.claim.Some? then
        (s.(active := Some(s.active.value.(resumeAllowed := s.active.value.resumeAllowed && source.TurnCancel?))), AlreadyClaimed)
      else
        (s.(active := Some(s.active.value.(claim := Some(reason), resumeAllowed := source.TurnCancel?))), Claimed)
    case RememberOwnedRunId(runId) =>
      if s.active.Some? && s.active.value.ticket.runId != runId then (s, Thrown)
      else (s.(lastOwnedRunId := Some(runId)), Done)
    case SelectRunTerminal(ticket, identity) =>
      if !Holds(s, ticket) || identity.runId != ticket.runId || identity.sourceEventId == "" then (s, Thrown)
      else if s.active.value.terminal.Some? then
        (s, if s.active.value.terminal.value.value != identity then Thrown
            else if s.active.value.terminal.value.Acked? then AlreadyAcked else Pending)
      else if s.active.value.claim.Some? && identity.status == Completed then (s, SupersededByCancellation)
      else (s.(active := Some(s.active.value.(terminal := Some(Selected(identity))))), NowSelected)
    case AckRunTerminal(ticket, receipt) =>
      if !Holds(s, ticket) || s.active.value.terminal.None? then (s, Thrown)
      else
        var terminal := s.active.value.terminal.value;
        if receipt.eventId != terminal.value.sourceEventId then (s, Thrown)
        else if terminal.Acked? then (s, if terminal.receipt == receipt then Done else Thrown)
        else (s.(active := Some(s.active.value.(terminal := Some(Acked(terminal.value, receipt))))), Done)
    case AbandonRunTerminal(ticket, identity) =>
      if !Holds(s, ticket) || s.active.value.terminal != Some(Selected(identity)) then (s, Thrown)
      else (s.(active := Some(s.active.value.(terminal := None))), Done)
    case SettleInput(ticket, outcome) =>
      if !Holds(s, ticket) then (s, Thrown)
      else (s, Settled(SettlementOf(s.active.value.terminal, outcome)))
    case ReleaseRun(ticket, reason) =>
      if !Holds(s, ticket) then (s, Thrown)
      else
        var acked := s.active.value.terminal.Some? && s.active.value.terminal.value.Acked?;
        if reason.CommandAcked? && !acked then (s, Thrown)
        else
          (s.(active := None, lastOwnedRunId := Some(ticket.runId),
              lastRunTerminal := if acked then Some(LastTerminal(ticket.runId, s.active.value.terminal.value.value.status)) else None), Done)
    case RequestShutdown =>
      (if s.shutdown.None? then s.(shutdown := Some(ShutdownState(false, None))) else s, Done)
    case RecordFailure(error, runId) =>
      var requested := if s.shutdown.None? then ShutdownState(false, None) else s.shutdown.value;
      (s.(shutdown := Some(if requested.failure.None? then requested.(failure := Some(RunFailure(error, runId))) else requested)), Done)
    case MarkCleanupCompleted =>
      if s.shutdown.None? then (s, Thrown) else (s.(shutdown := Some(s.shutdown.value.(cleanupCompleted := true))), Done)
    case SelectInstanceTerminal(t) =>
      if !s.instance.Open? then
        (s, if s.instance.terminal != t then Thrown else if s.instance.InstanceAcked? then AlreadyAcked else Pending)
      else (s.(instance := InstanceSelected(t)), NowSelected)
    case AckInstanceTerminal(t) =>
      if s.instance.Open? || s.instance.terminal != t then (s, Thrown) else (s.(instance := InstanceAcked(t)), Done)
    case AbandonInstanceTerminal(t) =>
      if s.instance != InstanceSelected(t) then (s, Thrown) else (s.(instance := Open), Done)
  }

  function Run(s: State, calls: seq<Call>): State {
    if calls == [] then s else Step(Run(s, calls[..|calls| - 1]), calls[|calls| - 1]).0
  }

  // ---------------------------------------------------------------------------------------------
  // What every reachable state and every run keeps.

  /** Revisions are only given out once, no run is both cancelled and completed, and a terminal
      belongs to its run and to the receipt that acknowledged it. */
  ghost predicate Inv(s: State) {
    s.active.Some? ==>
      var run := s.active.value;
      && run.ticket.revision == s.revision
      && (run.terminal.Some? ==>
            && run.terminal.value.value.runId == run.ticket.runId
            && (run.claim.Some? ==> run.terminal.value.value.status != Completed)
            && (run.terminal.value.Acked? ==> run.terminal.value.receipt.eventId == run.terminal.value.value.sourceEventId))
  }

  lemma {:induction false} ReachableStatesAreSound(calls: seq<Call>)
    ensures Inv(Run(INITIAL, calls))
  {
    if calls != [] {
      ReachableStatesAreSound(calls[..|calls| - 1]);
    }
  }

  /** The run with a given revision is still the one that acknowledged this terminal, or is gone
      for good. */
  ghost predicate AckedOrGone(s: State, run: ActiveRun) {
    && run.ticket.revision <= s.revision
    && (s.active.Some? ==>
          if s.active.value.ticket.revision == run.ticket.revision
          then s.active.value.ticket == run.ticket && s.active.value.terminal == run.terminal && s.active.value.claim == run.claim
          else s.active.value.ticket.revision > run.ticket.revision)
  }

  lemma {:induction false} AcknowledgedTerminalIsFinal(s: State, calls: seq<Call>)
    requires Inv(s) && s.active.Some? && s.active.value.terminal.Some? && s.active.value.terminal.value.Acked?
    ensures Inv(Run(s, calls)) && AckedOrGone(Run(s, calls), s.active.value)
  {
    if calls != [] {
      AcknowledgedTerminalIsFinal(s, calls[..|calls| - 1]);
    }
  }

  lemma {:induction false} RunConcat(s: State, before: seq<Call>, after: seq<Call>)
    ensures Run(s, before + after) == Run(Run(s, before), after)
  {
    if after == [] {
      assert before + after == before;
    } else {
      assert (before + after)[..|before + after| - 1] == before + after[..|after| - 1];
      RunConcat(s, before, after[..|after| - 1]);
    }
  }

  ghost predicate AckedAt(s: State, revision: nat) {
    && s.active.Some? && s.active.value.ticket.revision == revision
    && s.active.value.terminal.Some? && s.active.value.terminal.value.Acked?
  }

  /** Over any run of calls, with current or stale tickets, a revision acknowledges at most one
      terminal with one receipt. */
  lemma OneTerminalPerRevision(calls: seq<Call>, i: nat, j: nat, revision: nat)
    requires i <= j <= |calls|
    requires AckedAt(Run(INITIAL, calls[..i]), revision) && AckedAt(Run(INITIAL, calls[..j]), revision)
    ensures Run(INITIAL, calls[..i]).active.value.terminal == Run(INITIAL, calls[..j]).active.value.terminal
  {
    ReachableStatesAreSound(calls[..i]);
    AcknowledgedTerminalIsFinal(Run(INITIAL, calls[..i]), calls[i..j]);
    RunConcat(INITIAL, calls[..i], calls[i..j]);
    assert calls[..i] + calls[i..j] == calls[..j];
  }

  /** What the `i`-th call of a list is answered. */
  function Answer(calls: seq<Call>, i: nat): Reply
    requires i < |calls|
  {
    Step(Run(INITIAL, calls[..i]), calls[i]).1
  }

  /** The `i`-th call claims the cancellation of the run with that revision. */
  ghost predicate ClaimsAt(calls: seq<Call>, i: int, revision: nat) {
    0 <= i < |calls| && calls[i].ClaimCancellation? && calls[i].ticket.revision == revision && Answer(calls, i).Claimed?
  }

  /** The `i`-th call selects `completed` for the run with that revision. */
  ghost predicate CompletesAt(calls: seq<Call>, i: int, revision: nat) {
    && 0 <= i < |calls| && calls[i].SelectRunTerminal? && calls[i].ticket.revision == revision
    && calls[i].identity.status == Completed && Answer(calls, i).NowSelected?
  }

  /** The `i`-th call gives up the selected terminal of the run with that revision. */
  ghost predicate AbandonsAt(calls: seq<Call>, i: int, revision: nat) {
    0 <= i < |calls| && calls[i].AbandonRunTerminal? && calls[i].ticket.revision == revision && Answer(calls, i).Done?
  }

  /** The run with that revision has been claimed, or is gone for good. */
  ghost predicate ClaimedOrGone(s: State, revision: nat) {
    revision <= s.revision && (s.active.Some? && s.active.value.ticket.revision == revision ==> s.active.value.claim.Some?)
  }

  /** The run with that revision has a terminal, or is gone for good. */
  ghost predicate TerminalOrGone(s: State, revision: nat) {
    revision <= s.revision && (s.active.Some? && s.active.value.ticket.revision == revision ==> s.active.value.terminal.Some?)
  }

  lemma RunOneMore(calls: seq<Call>, n: nat)
    requires n < |calls|
    ensures Run(INITIAL, calls[..n + 1]) == Step(Run(INITIAL, calls[..n]), calls[n]).0
  {
    assert calls[..n + 1][..n] == calls[..n];
  }

  lemma StepKeepsClaim(s: State, c: Call, revision: nat)
    requires Inv(s) && ClaimedOrGone(s, revision)
    ensures ClaimedOrGone(Step(s, c).0, revision)
  {
  }

  lemma StepKeepsTerminal(s: State, c: Call, revision: nat)
    requires Inv(s) && TerminalOrGone(s, revision)
    requires c.AbandonRunTerminal? && c.ticket.revision == revision ==> !Step(s, c).1.Done?
    ensures TerminalOrGone(Step(s, c).0, revision)
  {
  }

  lemma {:induction false} ClaimLasts(calls: seq<Call>, i: nat, n: nat, revision: nat)
    requires ClaimsAt(calls, i, revision) && i < n <= |calls|
    ensures ClaimedOrGone(Run(INITIAL, calls[..n]), revision)
    decreases n
  {
    var s := Run(INITIAL, calls[..n - 1]);
    ReachableStatesAreSound(calls[..n - 1]);
    RunOneMore(calls, n - 1);
    if i < n - 1 {
      ClaimLasts(calls, i, n - 1, revision);
      StepKeepsClaim(s, calls[n - 1], revision);
    } else {
      assert Step(s, calls[i]).1.Claimed?;
    }
  }

  lemma {:induction false} SelectionLasts(calls: seq<Call>, i: nat, n: nat, revision: nat)
    requires CompletesAt(calls, i, revision) && i < n <= |calls|
    requires forall k :: i < k < n ==> !AbandonsAt(calls, k, revision)
    ensures TerminalOrGone(Run(INITIAL, calls[..n]), revision)
    decreases n
  {
    var s := Run(INITIAL, calls[..n - 1]);
    ReachableStatesAreSound(calls[..n - 1]);
    RunOneMore(calls, n - 1);
    if i < n - 1 {
      SelectionLasts(calls, i, n - 1, revision);
      assert !AbandonsAt(calls, n - 1, revision);
      StepKeepsTerminal(s, calls[n - 1], revision);
    } else {
      assert Step(s, calls[i]).1.NowSelected?;
    }
  }

  /** Over any list of calls no run is selected `completed` after its cancellation was claimed, and it is
      claimed after that selection only when the selected terminal was given up in between. */
  lemma SelectionAndClaimExclude(calls: seq<Call>, i: nat, j: nat, revision: nat)
    requires i < j
    ensures !(ClaimsAt(calls, i, revision) && CompletesAt(calls, j, revision))
    ensures CompletesAt(calls, i, revision) && ClaimsAt(calls, j, revision) ==> exists k :: i < k < j && AbandonsAt(calls, k, revision)
  {
    if ClaimsAt(calls, i, revision) && j < |calls| {
      ClaimLasts(calls, i, j, revision);
    }
    if CompletesAt(calls, i, revision) && j < |calls| && !exists k :: i < k < j && AbandonsAt(calls, k, revision) {
      SelectionLasts(calls, i, j, revision);
    }
  }

  /** The exception happens: `completed` is selected, given up, and then the cancellation is claimed. */
  lemma AbandonedSelectionCanBeClaimed(none: seq<Call>, runId: string, signal: nat, identity: Identity, reason: string, source: Source)
    requires none == [] && identity.runId == runId && identity.sourceEventId != "" && identity.status == Completed
    ensures var t := Ticket(1, runId, signal);
            var calls := none + [BeginRun(runId, signal)] + [SelectRunTerminal(t, identity)]
                         + [AbandonRunTerminal(t, identity)] + [ClaimCancellation(t, reason, source)];
            CompletesAt(calls, 1, 1) && AbandonsAt(calls, 2, 1) && ClaimsAt(calls, 3, 1)
  {
    var t := Ticket(1, runId, signal);
    var calls := none + [BeginRun(runId, signal)] + [SelectRunTerminal(t, identity)]
                 + [AbandonRunTerminal(t, identity)] + [ClaimCancellation(t, reason, source)];
    assert calls[..0] == [];
    RunOneMore(calls, 0);
    RunOneMore(calls, 1);
    RunOneMore(calls, 2);
  }

  // ---------------------------------------------------------------------------------------------
  // What a call is answered, from the answers of the calls before it.

  /** The `k`-th call began the run with this ticket. */
  ghost predicate BeginsAt(calls: seq<Call>, k: int, t: Ticket) {
    0 <= k < |calls| && Answer(calls, k) == Began(t)
  }

  ghost predicate ReleasesAt(calls: seq<Call>, k: int, t: Ticket) {
    0 <= k < |calls| && calls[k].ReleaseRun? && calls[k].ticket == t && Answer(calls, k).Done?
  }

  /** Before the `n`-th call the run was begun and not released. */
  ghost predicate Current(calls: seq<Call>, n: nat, t: Ticket) {
    exists k :: k < n && BeginsAt(calls, k, t) && forall j :: k < j < n ==> !ReleasesAt(calls, j, t)
  }

  ghost predicate ClaimedBefore(calls: seq<Call>, n: nat, revision: nat) {
    exists k :: k < n && ClaimsAt(calls, k, revision)
  }

  /** The `k`-th call selects the terminal of the run with that revision. */
  ghost predicate SelectsAt(calls: seq<Call>, k: int, revision: nat, identity: Identity) {
    && 0 <= k < |calls| && calls[k].SelectRunTerminal? && calls[k].ticket.revision == revision
    && calls[k].identity == identity && Answer(calls, k).NowSelected?
  }

  /** Before the `n`-th call the terminal was selected and not given up. */
  ghost predicate Stands(calls: seq<Call>, n: nat, revision: nat, identity: Identity) {
    exists k :: k < n && SelectsAt(calls, k, revision, identity) && forall j :: k < j < n ==> !AbandonsAt(calls, j, revision)
  }

  ghost predicate AcksAt(calls: seq<Call>, k: int, revision: nat) {
    0 <= k < |calls| && calls[k].AckRunTerminal? && calls[k].ticket.revision == revision && Answer(calls, k).Done?
  }

  ghost predicate AckedBefore(calls: seq<Call>, n: nat, revision: nat) {
    exists k :: k < n && AcksAt(calls, k, revision)
  }

  predicate HasSelected(run: ActiveRun, identity: Identity) {
    run.terminal.Some? && run.terminal.value.value == identity
  }

  /** What the state holds of a run is what the answers so far say of it. */
  ghost predicate Remembered(calls: seq<Call>, n: nat) {
    n <= |calls| &&
    var s := Run(INITIAL, calls[..n]);
    && (forall t :: Holds(s, t) <==> Current(calls, n, t))
    && (s.active.Some? ==>
          var run := s.active.value;
          && (run.claim.Some? <==> ClaimedBefore(calls, n, run.ticket.revision))
          && (forall identity :: HasSelected(run, identity) <==> Stands(calls, n, run.ticket.revision, identity))
          && (run.terminal.Some? && run.terminal.value.Acked? <==> AckedBefore(calls, n, run.ticket.revision)))
  }

  /** Nothing was answered about a revision that has not been given out. */
  ghost predicate Unheard(calls: seq<Call>, n: nat, revision: nat) {
    && !ClaimedBefore(calls, n, revision) && !AckedBefore(calls, n, revision)
    && (forall identity :: !Stands(calls, n, revision, identity))
    && forall k :: 0 <= k < n && k < |calls| && Answer(calls, k).Began? ==> Answer(calls, k).ticket.revision != revision
  }

  lemma {:induction false} RevisionsGrow(calls: seq<Call>, k: nat, n: nat)
    requires k <= n <= |calls|
    ensures Run(INITIAL, calls[..k]).revision <= Run(INITIAL, calls[..n]).revision
    decreases n
  {
    if k < n {
      RunOneMore(calls, n - 1);
      RevisionsGrow(calls, k, n - 1);
    }
  }

  /** A call that is answered about a run is about one whose revision was given out. */
  lemma AnsweredRevisions(calls: seq<Call>, k: nat)
    requires k < |calls|
    ensures Answer(calls, k).Began? ==> Answer(calls, k).ticket.revision == Run(INITIAL, calls[..k + 1]).revision
    ensures Answer(calls, k).Claimed? || Answer(calls, k).NowSelected? || Answer(calls, k).Done? ==>
              (calls[k].ClaimCancellation? || calls[k].SelectRunTerminal? || calls[k].AckRunTerminal? ==>
                 calls[k].ticket.revision == Run(INITIAL, calls[..k + 1]).revision)
  {
    ReachableStatesAreSound(calls[..k]);
    RunOneMore(calls, k);
  }

  lemma NewRevisionIsUnheard(calls: seq<Call>, n: nat, revision: nat)
    requires n <= |calls| && revision > Run(INITIAL, calls[..n]).revision
    ensures Unheard(calls, n, revision)
  {
    forall k: nat | k < n
      ensures !ClaimsAt(calls, k, revision) && !AcksAt(calls, k, revision) && (forall x :: !SelectsAt(calls, k, revision, x))
      ensures Answer(calls, k).Began? ==> Answer(calls, k).ticket.revision != revision
    {
      AnsweredRevisions(calls, k);
      RevisionsGrow(calls, k + 1, n);
    }
  }

  lemma CurrentOneMore(calls: seq<Call>, n: nat, t: Ticket)
    requires n < |calls|
    ensures Current(calls, n + 1, t) <==> BeginsAt(calls, n, t) || (Current(calls, n, t) && !ReleasesAt(calls, n, t))
  {
    if Current(calls, n, t) && !ReleasesAt(calls, n, t) {
      var k :| k < n && BeginsAt(calls, k, t) && forall j :: k < j < n ==> !ReleasesAt(calls, j, t);
      assert forall j :: k < j < n + 1 ==> !ReleasesAt(calls, j, t);
    }
  }

  lemma StandsOneMore(calls: seq<Call>, n: nat, revision: nat, identity: Identity)
    requires n < |calls|
    ensures Stands(calls, n + 1, revision, identity)
            <==> SelectsAt(calls, n, revision, identity) || (Stands(calls, n, revision, identity) && !AbandonsAt(calls, n, revision))
  {
    if Stands(calls, n, revision, identity) && !AbandonsAt(calls, n, revision) {
      var k :| k < n && SelectsAt(calls, k, revision, identity) && forall j :: k < j < n ==> !AbandonsAt(calls, j, revision);
      assert forall j :: k < j < n + 1 ==> !AbandonsAt(calls, j, revision);
    }
  }

  lemma ClaimedOneMore(calls: seq<Call>, n: nat, revision: nat)
    requires n < |calls|
    ensures ClaimedBefore(calls, n + 1, revision) <==> ClaimsAt(calls, n, revision) || ClaimedBefore(calls, n, revision)
    ensures AckedBefore(calls, n + 1, revision) <==> AcksAt(calls, n, revision) || AckedBefore(calls, n, revision)
  {
    if ClaimedBefore(calls, n, revision) {
      var k :| k < n && ClaimsAt(calls, k, revision);
      assert k < n + 1;
    }
    if AckedBefore(calls, n, revision) {
      var k :| k < n && AcksAt(calls, k, revision);
      assert k < n + 1;
    }
  }

  lemma StepHolds(s: State, c: Call, t: Ticket)
    requires Inv(s)
    ensures Holds(Step(s, c).0, t)
            <==> Step(s, c).1 == Began(t) || (Holds(s, t) && !(c.ReleaseRun? && c.ticket == t && Step(s, c).1.Done?))
  {
  }

  lemma NextIsCurrent(calls: seq<Call>, n: nat, t: Ticket)
    requires n < |calls| && Remembered(calls, n)
    ensures Holds(Run(INITIAL, calls[..n + 1]), t) <==> Current(calls, n + 1, t)
  {
    RunOneMore(calls, n);
    CurrentOneMore(calls, n, t);
    ReachableStatesAreSound(calls[..n]);
    StepHolds(Run(INITIAL, calls[..n]), calls[n], t);
  }

  /** A run that is active after a call went on in it, or began in it. */
  lemma WhoseRunGoesOn(calls: seq<Call>, n: nat)
    requires n < |calls| && Run(INITIAL, calls[..n + 1]).active.Some?
    ensures var s, next := Run(INITIAL, calls[..n]), Run(INITIAL, calls[..n + 1]);
            if s.active.Some? then next.active.value.ticket == s.active.value.ticket
            else && Unheard(calls, n, next.active.value.ticket.revision) && calls[n].BeginRun?
                 && next.active.value.claim.None? && next.active.value.terminal.None?
  {
    RunOneMore(calls, n);
    if Run(INITIAL, calls[..n]).active.None? {
      NewRevisionIsUnheard(calls, n, Run(INITIAL, calls[..n + 1]).active.value.ticket.revision);
    }
  }

  lemma NextClaimIsRemembered(calls: seq<Call>, n: nat)
    requires n < |calls| && Remembered(calls, n) && Run(INITIAL, calls[..n + 1]).active.Some?
    ensures var run := Run(INITIAL, calls[..n + 1]).active.value;
            && (run.claim.Some? <==> ClaimedBefore(calls, n + 1, run.ticket.revision))
            && (run.terminal.Some? && run.terminal.value.Acked? <==> AckedBefore(calls, n + 1, run.ticket.revision))
  {
    ClaimedOneMore(calls, n, Run(INITIAL, calls[..n + 1]).active.value.ticket.revision);
    WhoseRunGoesOn(calls, n);
    RunOneMore(calls, n);
    ReachableStatesAreSound(calls[..n]);
  }

  lemma NextTerminalIsRemembered(calls: seq<Call>, n: nat, identity: Identity)
    requires n < |calls| && Remembered(calls, n) && Run(INITIAL, calls[..n + 1]).active.Some?
    ensures var run := Run(INITIAL, calls[..n + 1]).active.value;
            HasSelected(run, identity) <==> Stands(calls, n + 1, run.ticket.revision, identity)
  {
    StandsOneMore(calls, n, Run(INITIAL, calls[..n + 1]).active.value.ticket.revision, identity);
    WhoseRunGoesOn(calls, n);
    RunOneMore(calls, n);
    ReachableStatesAreSound(calls[..n]);
  }

  lemma NextIsRemembered(calls: seq<Call>, n: nat)
    requires n < |calls| && Remembered(calls, n)
    ensures Remembered(calls, n + 1)
  {
    var m := n + 1;
    var next := Run(INITIAL, calls[..m]);
    forall t ensures Holds(next, t) <==> Current(calls, m, t) {
      NextIsCurrent(calls, n, t);
    }
    if next.active.Some? {
      NextClaimIsRemembered(calls, n);
      var run := next.active.value;
      forall identity ensures HasSelected(run, identity) <==> Stands(calls, m, run.ticket.revision, identity) {
        NextTerminalIsRemembered(calls, n, identity);
      }
    }
  }

  /** In every list of calls the state is what the answers say: whose run is current, whether it was
      claimed, and which terminal stands and was acknowledged. */
  lemma {:induction false} AnswersTellTheState(calls: seq<Call>, n: nat)
    requires n <= |calls|
    ensures Remembered(calls, n)
  {
    if n == 0 {
      assert calls[..0] == [];
    } else {
      AnswersTellTheState(calls, n - 1);
      NextIsRemembered(calls, n - 1);
    }
  }

  /** A selection with the current ticket, of that run and while no terminal stands, is superseded exactly
      when it is `completed` and the run's cancellation was claimed before; otherwise the terminal is
      selected. */
  lemma SelectionIsAnswered(calls: seq<Call>, i: nat, t: Ticket, identity: Identity)
    requires i < |calls| && calls[i] == SelectRunTerminal(t, identity) && Current(calls, i, t)
    requires identity.runId == t.runId && identity.sourceEventId != "" && forall x :: !Stands(calls, i, t.revision, x)
    ensures Answer(calls, i) == SupersededByCancellation <==> identity.status == Completed && ClaimedBefore(calls, i, t.revision)
    ensures Answer(calls, i) != SupersededByCancellation ==> Answer(calls, i) == NowSelected
  {
    AnswersTellTheState(calls, i);
    var s := Run(INITIAL, calls[..i]);
    assert Holds(s, t);
    assert s.active.value.terminal.Some? ==> HasSelected(s.active.value, s.active.value.terminal.value.value);
  }

  /** A claim with the current ticket is granted exactly when no terminal stands and none was granted
      before. */
  lemma ClaimIsAnswered(calls: seq<Call>, i: nat, t: Ticket, reason: string, source: Source)
    requires i < |calls| && calls[i] == ClaimCancellation(t, reason, source) && Current(calls, i, t)
    ensures Answer(calls, i) == Claimed <==> !ClaimedBefore(calls, i, t.revision) && forall x :: !Stands(calls, i, t.revision, x)
    ensures Answer(calls, i) == AlreadyClaimed <==> ClaimedBefore(calls, i, t.revision) && forall x :: !Stands(calls, i, t.revision, x)
    ensures Answer(calls, i) == TerminalSelected <==> exists x :: Stands(calls, i, t.revision, x)
  {
    AnswersTellTheState(calls, i);
    var s := Run(INITIAL, calls[..i]);
    assert Holds(s, t);
    assert s.active.value.terminal.Some? ==> HasSelected(s.active.value, s.active.value.terminal.value.value);
  }

  /** The terminal that stands is acknowledged by a receipt for it, once; the same receipt may come again. */
  lemma AcknowledgementIsAnswered(calls: seq<Call>, i: nat, t: Ticket, receipt: Receipt, identity: Identity)
    requires i < |calls| && calls[i] == AckRunTerminal(t, receipt) && Current(calls, i, t) && Stands(calls, i, t.revision, identity)
    ensures !AckedBefore(calls, i, t.revision) ==> (Answer(calls, i) == Done <==> receipt.eventId == identity.sourceEventId)
  {
    AnswersTellTheState(calls, i);
    assert Holds(Run(INITIAL, calls[..i]), t);
    assert HasSelected(Run(INITIAL, calls[..i]).active.value, identity);
  }

  /** A run is released when the driver is failing, or once its terminal was acknowledged. */
  lemma ReleaseIsAnswered(calls: seq<Call>, i: nat, t: Ticket, reason: ReleaseReason)
    requires i < |calls| && calls[i] == ReleaseRun(t, reason)
    ensures Answer(calls, i) == Done <==>
              Current(calls, i, t) && (reason.DriverFailing? || AckedBefore(calls, i, t.revision))
  {
    AnswersTellTheState(calls, i);
    var s := Run(INITIAL, calls[..i]);
    assert Holds(s, t) <==> Current(calls, i, t);
  }

  ghost predicate SelectsInstanceAt(calls: seq<Call>, k: int, x: InstanceTerminal) {
    0 <= k < |calls| && calls[k] == SelectInstanceTerminal(x) && Answer(calls, k).NowSelected?
  }

  ghost predicate AbandonsInstanceAt(calls: seq<Call>, k: int) {
    0 <= k < |calls| && calls[k].AbandonInstanceTerminal? && Answer(calls, k).Done?
  }

  /** Before the `n`-th call the instance terminal was selected and not given up. */
  ghost predicate InstanceStands(calls: seq<Call>, n: nat, x: InstanceTerminal) {
    exists k :: k < n && SelectsInstanceAt(calls, k, x) && forall j :: k < j < n ==> !AbandonsInstanceAt(calls, j)
  }

  predicate HasInstance(s: State, x: InstanceTerminal) {
    !s.instance.Open? && s.instance.terminal == x
  }

  lemma InstanceOneMore(calls: seq<Call>, n: nat, x: InstanceTerminal)
    requires n < |calls|
    ensures InstanceStands(calls, n + 1, x)
            <==> SelectsInstanceAt(calls, n, x) || (InstanceStands(calls, n, x) && !AbandonsInstanceAt(calls, n))
  {
    if InstanceStands(calls, n, x) && !AbandonsInstanceAt(calls, n) {
      var k :| k < n && SelectsInstanceAt(calls, k, x) && forall j :: k < j < n ==> !AbandonsInstanceAt(calls, j);
      assert forall j :: k < j < n + 1 ==> !AbandonsInstanceAt(calls, j);
    }
  }

  lemma StepHasInstance(s: State, c: Call, x: InstanceTerminal)
    ensures HasInstance(Step(s, c).0, x)
            <==> (c == SelectInstanceTerminal(x) && Step(s, c).1.NowSelected?)
                 || (HasInstance(s, x) && !(c.AbandonInstanceTerminal? && Step(s, c).1.Done?))
  {
  }

  lemma {:induction false} AnswersTellTheInstance(calls: seq<Call>, n: nat, x: InstanceTerminal)
    requires n <= |calls|
    ensures HasInstance(Run(INITIAL, calls[..n]), x) <==> InstanceStands(calls, n, x)
  {
    if n == 0 {
      assert calls[..0] == [];
    } else {
      AnswersTellTheInstance(calls, n - 1, x);
      InstanceOneMore(calls, n - 1, x);
      RunOneMore(calls, n - 1);
      StepHasInstance(Run(INITIAL, calls[..n - 1]), calls[n - 1], x);
    }
  }

  /** A run begins exactly when no other is current and no instance terminal stands. */
  lemma BeginIsAnswered(calls: seq<Call>, i: nat, runId: string, signal: nat)
    requires i < |calls| && calls[i] == BeginRun(runId, signal)
    ensures Answer(calls, i).Began? <==> (forall t :: !Current(calls, i, t)) && forall x :: !InstanceStands(calls, i, x)
  {
    AnswersTellTheState(calls, i);
    var s := Run(INITIAL, calls[..i]);
    assert s.active.Some? ==> Holds(s, s.active.value.ticket);
    forall x ensures HasInstance(s, x) <==> InstanceStands(calls, i, x) {
      AnswersTellTheInstance(calls, i, x);
    }
    assert !s.instance.Open? ==> HasInstance(s, s.instance.terminal);
  }

  /** The `k`-th call asks to cancel the run, for the first time or again. */
  ghost predicate AsksAt(calls: seq<Call>, k: int, revision: nat) {
    && 0 <= k < |calls| && calls[k].ClaimCancellation? && calls[k].ticket.revision == revision
    && (Answer(calls, k).Claimed? || Answer(calls, k).AlreadyClaimed?)
  }

  /** Only turn cancellations were asked for. */
  ghost predicate AsksForTurns(calls: seq<Call>, n: nat, revision: nat) {
    forall k :: 0 <= k < n && AsksAt(calls, k, revision) ==> calls[k].source.TurnCancel?
  }

  lemma AsksOneMore(calls: seq<Call>, n: nat, revision: nat)
    requires n < |calls|
    ensures AsksForTurns(calls, n + 1, revision)
            <==> AsksForTurns(calls, n, revision) && (AsksAt(calls, n, revision) ==> calls[n].source.TurnCancel?)
  {
  }

  lemma NewRevisionIsUnasked(calls: seq<Call>, n: nat, revision: nat)
    requires n <= |calls| && revision > Run(INITIAL, calls[..n]).revision
    ensures AsksForTurns(calls, n, revision)
  {
    forall k | 0 <= k < n ensures !AsksAt(calls, k, revision) {
      ReachableStatesAreSound(calls[..k]);
      RevisionsGrow(calls, k, n);
    }
  }

  lemma StepKeepsResume(s: State, c: Call)
    requires Inv(s) && s.active.Some? && Step(s, c).0.active.Some?
    ensures var run, next, r := s.active.value, Step(s, c).0.active.value, Step(s, c).1;
            && next.ticket == run.ticket
            && var asks := c.ClaimCancellation? && c.ticket.revision == run.ticket.revision && (r.Claimed? || r.AlreadyClaimed?);
               (run.claim.None? ==> run.resumeAllowed) ==> (next.resumeAllowed <==> run.resumeAllowed && (asks ==> c.source.TurnCancel?))
    ensures (s.active.value.claim.None? ==> s.active.value.resumeAllowed) ==>
              (Step(s, c).0.active.value.claim.None? ==> Step(s, c).0.active.value.resumeAllowed)
  {
  }

  /** What the asking tells of a state's run. */
  ghost predicate ResumeTold(calls: seq<Call>, n: nat, s: State) {
    s.active.Some? ==>
      var run := s.active.value;
      (run.resumeAllowed <==> AsksForTurns(calls, n, run.ticket.revision)) && (run.claim.None? ==> run.resumeAllowed)
  }

  lemma NextResumeTold(calls: seq<Call>, n: nat, s: State)
    requires n < |calls| && s == Run(INITIAL, calls[..n]) && ResumeTold(calls, n, s)
    ensures ResumeTold(calls, n + 1, Step(s, calls[n]).0)
  {
    ReachableStatesAreSound(calls[..n]);
    var next := Step(s, calls[n]).0;
    if next.active.Some? {
      AsksOneMore(calls, n, next.active.value.ticket.revision);
      if s.active.Some? {
        StepKeepsResume(s, calls[n]);
      } else {
        NewRevisionIsUnasked(calls, n, next.active.value.ticket.revision);
      }
    }
  }

  lemma {:induction false} AsksTellResume(calls: seq<Call>, n: nat)
    requires n <= |calls|
    ensures ResumeTold(calls, n, Run(INITIAL, calls[..n]))
  {
    if n == 0 {
      assert calls[..0] == [];
    } else {
      AsksTellResume(calls, n - 1);
      NextResumeTold(calls, n - 1, Run(INITIAL, calls[..n - 1]));
      RunOneMore(calls, n - 1);
    }
  }

  /** A run may be resumed exactly when nothing but turn cancellations asked to cancel it. */
  lemma ResumeIsAllowedIff(calls: seq<Call>, n: nat)
    requires n <= |calls| && Run(INITIAL, calls[..n]).active.Some?
    ensures var run := Run(INITIAL, calls[..n]).active.value; run.resumeAllowed <==> AsksForTurns(calls, n, run.ticket.revision)
  {
    AsksTellResume(calls, n);
  }

  /** The failure of the shutdown is the first one recorded. */
  lemma {:induction false} FailureIsTheFirst(calls: seq<Call>, i: nat)
    requires i < |calls| && calls[i].RecordFailure? && forall k :: 0 <= k < i ==> !calls[k].RecordFailure?
    ensures var shutdown := Run(INITIAL, calls).shutdown;
            shutdown.Some? && shutdown.value.failure == Some(RunFailure(calls[i].error, calls[i].failedRunId))
  {
    if i == |calls| - 1 {
      NoFailureYet(calls[..i]);
    } else {
      FailureIsTheFirst(calls[..|calls| - 1], i);
    }
  }

  lemma {:induction false} NoFailureYet(calls: seq<Call>)
    requires forall c :: c in calls ==> !c.RecordFailure?
    ensures Run(INITIAL, calls).shutdown.Some? ==> Run(INITIAL, calls).shutdown.value.failure.None?
  {
    if calls != [] {
      NoFailureYet(calls[..|calls| - 1]);
      assert calls[|calls| - 1] in calls;
    }
  }

  lemma AnswerOneMore(calls: seq<Call>, c: Call)
    ensures Answer(calls + [c], |calls|) == Step(Run(INITIAL, calls), c).1
    ensures Run(INITIAL, calls + [c]) == Step(Run(INITIAL, calls), c).0
  {
    var all := calls + [c];
    assert all[..|calls|] == calls && all[|calls|] == c;
    assert Run(INITIAL, all) == Step(Run(INITIAL, all[..|all| - 1]), all[|all| - 1]).0;
  }

  /** The run is active with nothing decided about it, or claimed only. */
  ghost predicate Undecided(s: State, t: Ticket) {
    Holds(s, t) && s.active.value.terminal.None?
  }

  lemma BegunIsUndecided(before: seq<Call>, runId: string, signal: nat)
    requires Answer(before + [BeginRun(runId, signal)], |before|).Began?
    ensures var t := Answer(before + [BeginRun(runId, signal)], |before|).ticket;
            && t.runId == runId && Undecided(Run(INITIAL, before + [BeginRun(runId, signal)]), t)
            && Run(INITIAL, before + [BeginRun(runId, signal)]).active.value.claim.None?
  {
    AnswerOneMore(before, BeginRun(runId, signal));
  }

  /** Selecting, hearing the receipt and settling, when the selection is not superseded. */
  lemma SelectedSettles(calls: seq<Call>, t: Ticket, identity: Identity, receipt: Receipt, outcome: InputOutcome)
    requires Undecided(Run(INITIAL, calls), t) && identity.runId == t.runId && identity.sourceEventId != ""
    requires Run(INITIAL, calls).active.value.claim.Some? ==> identity.status != Completed
    requires receipt.eventId == identity.sourceEventId
    requires if identity.status == Completed then outcome.ResolvedInput? else identity.status == Cancelled && outcome.CancelledInput?
    ensures var all := calls + [SelectRunTerminal(t, identity)] + [AckRunTerminal(t, receipt)];
            Answer(all + [SettleInput(t, outcome)], |all|) == Settled(if identity.status == Completed then Resolved else CancelledRun)
  {
    var a := calls + [SelectRunTerminal(t, identity)];
    AnswerOneMore(calls, SelectRunTerminal(t, identity));
    AnswerOneMore(a, AckRunTerminal(t, receipt));
    AnswerOneMore(a + [AckRunTerminal(t, receipt)], SettleInput(t, outcome));
  }

  /** The end of a cancelled turn: whatever came before, a run that begins, is claimed, selects `cancelled`
      and hears its receipt settles its input as cancelled. */
  lemma CancelledTurnSettles(before: seq<Call>, runId: string, signal: nat, reason: string, source: Source, identity: Identity,
                             receipt: Receipt)
    requires Answer(before + [BeginRun(runId, signal)], |before|).Began? && receipt.eventId == identity.sourceEventId
    requires identity.runId == runId && identity.sourceEventId != "" && identity.status == Cancelled
    ensures var t := Answer(before + [BeginRun(runId, signal)], |before|).ticket;
            var all := before + [BeginRun(runId, signal)] + [ClaimCancellation(t, reason, source)]
                       + [SelectRunTerminal(t, identity)] + [AckRunTerminal(t, receipt)];
            Answer(all + [SettleInput(t, CancelledInput)], |all|) == Settled(CancelledRun)
  {
    BegunIsUndecided(before, runId, signal);
    var begun := before + [BeginRun(runId, signal)];
    var t := Answer(begun, |before|).ticket;
    AnswerOneMore(begun, ClaimCancellation(t, reason, source));
    SelectedSettles(begun + [ClaimCancellation(t, reason, source)], t, identity, receipt, CancelledInput);
  }

  /** The end of a completed turn, in the same way. */
  lemma CompletedTurnSettles(before: seq<Call>, runId: string, signal: nat, identity: Identity, receipt: Receipt)
    requires Answer(before + [BeginRun(runId, signal)], |before|).Began? && receipt.eventId == identity.sourceEventId
    requires identity.runId == runId && identity.sourceEventId != "" && identity.status == Completed
    ensures var t := Answer(before + [BeginRun(runId, signal)], |before|).ticket;
            var all := before + [BeginRun(runId, signal)] + [SelectRunTerminal(t, identity)] + [AckRunTerminal(t, receipt)];
            Answer(all + [SettleInput(t, ResolvedInput)], |all|) == Settled(Resolved)
  {
    BegunIsUndecided(before, runId, signal);
    var t := Answer(before + [BeginRun(runId, signal)], |before|).ticket;
    SelectedSettles(before + [BeginRun(runId, signal)], t, identity, receipt, ResolvedInput);
  }

  /** Input settles as resolved or cancelled exactly on a matching acknowledged terminal. */
  lemma SettlementNeedsMatchingTerminal(s: State, t: Ticket, outcome: InputOutcome)
    ensures Step(s, SettleInput(t, outcome)).1 == Settled(Resolved)
       <==> AckedAt(s, t.revision) && Holds(s, t) && outcome.ResolvedInput?
            && s.active.value.terminal.value.value.status == Completed
    ensures Step(s, SettleInput(t, outcome)).1 == Settled(CancelledRun)
       <==> AckedAt(s, t.revision) && Holds(s, t) && outcome.CancelledInput?
            && s.active.value.terminal.value.value.status == Cancelled
    ensures Step(s, SettleInput(t, outcome)).0 == s
  {}

  /** The `i`-th call settles the input of the run with that revision. */
  ghost predicate SettlesAt(calls: seq<Call>, i: int, revision: nat, settlement: Settlement) {
    && 0 <= i < |calls| && calls[i].SettleInput? && calls[i].ticket.revision == revision
    && Answer(calls, i) == Settled(settlement)
  }

  /** No list of calls settles the input of one run both as resolved and as cancelled. */
  lemma InputSettlesOneWay(calls: seq<Call>, i: nat, j: nat, revision: nat)
    ensures !(SettlesAt(calls, i, revision, Resolved) && SettlesAt(calls, j, revision, CancelledRun))
  {
    if SettlesAt(calls, i, revision, Resolved) && SettlesAt(calls, j, revision, CancelledRun) {
      if i <= j {
        OneTerminalPerRevision(calls, i, j, revision);
      } else {
        OneTerminalPerRevision(calls, j, i, revision);
      }
    }
  }

  /** A run is over for its ticket once it was released: no call with that ticket has an effect,
      whatever run is active by then. */
  lemma {:induction false} ReleasedTicketsStayStale(s: State, t: Ticket, calls: seq<Call>)
    requires Inv(s) && t.revision <= s.revision && !Holds(s, t)
    ensures Inv(Run(s, calls)) && t.revision <= Run(s, calls).revision && !Holds(Run(s, calls), t)
  {
    if calls != [] {
      ReleasedTicketsStayStale(s, t, calls[..|calls| - 1]);
    }
  }

  predicate UsesTicket(c: Call, t: Ticket) {
    (c.ClaimCancellation? || c.SelectRunTerminal? || c.AckRunTerminal? || c.AbandonRunTerminal? || c.SettleInput? || c.ReleaseRun?)
    && c.ticket == t
  }

  lemma StaleCallsAreInert(s: State, t: Ticket, calls: seq<Call>, c: Call)
    requires Inv(s) && t.revision <= s.revision && !Holds(s, t) && UsesTicket(c, t)
    ensures Step(Run(s, calls), c) == (Run(s, calls), Thrown)
  {
    ReleasedTicketsStayStale(s, t, calls);
  }

  /** An acknowledged instance terminal is final and blocks every later run. */
  lemma {:induction false} AcknowledgedInstanceIsFinal(s: State, calls: seq<Call>)
    requires s.instance.InstanceAcked?
    ensures Run(s, calls).instance == s.instance && Run(s, calls).revision == s.revision
    ensures forall runId, signal :: Step(Run(s, calls), BeginRun(runId, signal)).1 == Thrown
  {
    if calls != [] {
      AcknowledgedInstanceIsFinal(s, calls[..|calls| - 1]);
    }
  }

  /** The first recorded failure is kept, and a completed cleanup is not taken back. */
  lemma {:induction false} ShutdownOnlyAdvances(s: State, calls: seq<Call>)
    requires s.shutdown.Some?
    ensures var later := Run(s, calls).shutdown;
            && later.Some?
            && (s.shutdown.value.failure.Some? ==> later.value.failure == s.shutdown.value.failure)
            && (s.shutdown.value.cleanupCompleted ==> later.value.cleanupCompleted)
  {
    if calls != [] {
      ShutdownOnlyAdvances(s, calls[..|calls| - 1]);
    }
  }

  // ---------------------------------------------------------------------------------------------

  class DriverTerminalStateMachine {
    var activeRun: Option<ActiveRun>
    var instanceTerminal: InstanceState
    var lastOwnedRunId: Option<string>
    var lastRunTerminal: Option<LastTerminal>
    var revision: nat
    var shutdown: Option<ShutdownState>
    ghost var calls: seq<Call>

    function Abstract(): State
      reads this
    {
      State(activeRun, instanceTerminal, lastOwnedRunId, lastRunTerminal, revision, shutdown)
    }

    ghost predicate Valid()
      reads this
    {
      Abstract() == Run(INITIAL, calls)
    }

    constructor ()
      ensures Valid() && calls == []
    {
      activeRun, instanceTerminal, lastOwnedRunId := None, Open, None;
      lastRunTerminal, revision, shutdown, calls := None, 0, None, [];
    }

    /** The state after a call is the specified one, and the call joins the run so far. */
    twostate predicate Follows(c: Call, r: Reply)
      reads this
    {
      (Abstract(), r) == Step(old(Abstract()), c) && calls == old(calls) + [c]
    }

    ghost method Note(c: Call)
      modifies this`calls
      ensures calls == old(calls) + [c] && Run(INITIAL, calls) == Step(Run(INITIAL, old(calls)), c).0
    {
      assert (calls + [c])[..|calls|] == calls;
      calls := calls + [c];
    }

    method Begin(runId: string, signal: nat) returns (r: Reply)
      requires Valid()
      modifies this
      ensures Valid() && Follows(BeginRun(runId, signal), r)
    {
      Note(BeginRun(runId, signal));
      if activeRun.Some? {
        return Thrown;
      }
      if !instanceTerminal.Open? {
        return Thrown;
      }
      revision := revision + 1;
      lastOwnedRunId := Some(runId);
      lastRunTerminal := None;
      activeRun := Some(ActiveRun(Ticket(revision, runId, signal), None, true, None));
      r := Began(Ticket(revision, runId, signal));
    }

    method Claim(ticket: Ticket, reason: string, source: Source) returns (r: Reply)
      requires Valid()
      modifies this
      ensures Valid() && Follows(ClaimCancellation(ticket, reason, source), r)
    {
      Note(ClaimCancellation(ticket, reason, source));
      if activeRun.None? || activeRun.value.ticket != ticket {
        return Thrown;
      }
      var active := activeRun.value;
      if active.terminal.Some? {
        return TerminalSelected;
      }
      if active.claim.Some? {
        if !source.TurnCancel? {
          activeRun := Some(active.(resumeAllowed := false));
        }
        return AlreadyClaimed;
      }
      activeRun := Some(active.(claim := Some(reason), resumeAllowed := source.TurnCancel?));
      r := Claimed;
    }

    method RememberOwned(runId: string) returns (r: Reply)
      requires Valid()
      modifies this
      ensures Valid() && Follows(RememberOwnedRunId(runId), r)
    {
      Note(RememberOwnedRunId(runId));
      if activeRun.Some? && activeRun.value.ticket.runId != runId {
        return Thrown;
      }
      lastOwnedRunId := Some(runId);
      r := Done;
    }

    method SelectRun(ticket: Ticket, terminal: Identity) returns (r: Reply)
      requires Valid()
      modifies this
      ensures Valid() && Follows(SelectRunTerminal(ticket, terminal), r)
    {
      Note(SelectRunTerminal(ticket, terminal));
      if activeRun.None? || activeRun.value.ticket != ticket || terminal.runId != ticket.runId {
        return Thrown;
      }
      if terminal.sourceEventId == "" {
        return Thrown;
      }
      var active := activeRun.value;
      if active.terminal.Some? {
        if active.terminal.value.value != terminal {
          return Thrown;
        }
        return if active.terminal.value.Acked? then AlreadyAcked else Pending;
      }
      if active.claim.Some? && terminal.status == Completed {
        return SupersededByCancellation;
      }
      activeRun := Some(active.(terminal := Some(Selected(terminal))));
      r := NowSelected;
    }

    method AckRun(ticket: Ticket, receipt: Receipt) returns (r: Reply)
      requires Valid()
      modifies this
      ensures Valid() && Follows(AckRunTerminal(ticket, receipt), r)
    {
      Note(AckRunTerminal(ticket, receipt));
      if activeRun.None? || activeRun.value.ticket != ticket {
        return Thrown;
      }
      var terminal := activeRun.value.terminal;
      if terminal.None? || receipt.eventId != terminal.value.value.sourceEventId {
        return Thrown;
      }
      if terminal.value.Acked? {
        return if terminal.value.receipt == receipt then Done else Thrown;
      }
      activeRun := Some(activeRun.value.(terminal := Some(Acked(terminal.value.value, receipt))));
      r := Done;
    }

    method AbandonRun(ticket: Ticket, terminal: Identity) returns (r: Reply)
      requires Valid()
      modifies this
      ensures Valid() && Follows(AbandonRunTerminal(ticket, terminal), r)
    {
      Note(AbandonRunTerminal(ticket, terminal));
      if activeRun.None? || activeRun.value.ticket != ticket {
        return Thrown;
      }
      var selected := activeRun.value.terminal;
      if selected.None? || !selected.value.Selected? || selected.value.value != terminal {
        return Thrown;
      }
      activeRun := Some(activeRun.value.(terminal := None));
      r := Done;
    }

    /** The status acknowledged last, of the given run when one is given. */
    function AcknowledgedRunTerminal(runId: Option<string>): Option<TerminalStatus>
      reads this
    {
      if activeRun.Some? && activeRun.value.terminal.Some? && activeRun.value.terminal.value.Acked?
         && (runId.None? || runId.value == activeRun.value.ticket.runId)
      then Some(activeRun.value.terminal.value.value.status)
      else if lastRunTerminal.Some? && (runId.None? || runId.value == lastRunTerminal.value.runId)
      then Some(lastRunTerminal.value.status)
      else None
    }

    method Settle(ticket: Ticket, outcome: InputOutcome) returns (r: Reply)
      requires Valid()
      modifies this`calls
      ensures Valid() && Follows(SettleInput(ticket, outcome), r)
    {
      Note(SettleInput(ticket, outcome));
      if activeRun.None? || activeRun.value.ticket != ticket {
        return Thrown;
      }
      var terminal := activeRun.value.terminal;
      if outcome.RejectedInput? || terminal.None? || terminal.value.Selected? {
        return Settled(FailedInput);
      }
      if outcome.CancelledInput? {
        return Settled(if terminal.value.value.status == Cancelled then CancelledRun else FailedInput);
      }
      r := Settled(if terminal.value.value.status == Completed then Resolved else FailedInput);
    }

    /** A release keeps the acknowledged status readable under the run's id. */
    method Release(ticket: Ticket, reason: ReleaseReason) returns (r: Reply)
      requires Valid()
      modifies this
      ensures Valid() && Follows(ReleaseRun(ticket, reason), r)
      ensures r == Done && old(AckedAt(Abstract(), ticket.revision)) ==>
                AcknowledgedRunTerminal(Some(ticket.runId)) == old(AcknowledgedRunTerminal(Some(ticket.runId)))
    {
      Note(ReleaseRun(ticket, reason));
      if activeRun.None? || activeRun.value.ticket != ticket {
        return Thrown;
      }
      var terminal := activeRun.value.terminal;
      var acked := terminal.Some? && terminal.value.Acked?;
      if reason.CommandAcked? && !acked {
        return Thrown;
      }
      lastRunTerminal := if acked then Some(LastTerminal(ticket.runId, terminal.value.value.status)) else None;
      lastOwnedRunId := Some(ticket.runId);
      activeRun := None;
      r := Done;
    }

    method Request() returns (r: Reply)
      requires Valid()
      modifies this
      ensures Valid() && Follows(RequestShutdown, r)
    {
      Note(RequestShutdown);
      if shutdown.None? {
        shutdown := Some(ShutdownState(false, None));
      }
      r := Done;
    }

    method Record(error: nat, runId: Option<string>) returns (r: Reply)
      requires Valid()
      modifies this
      ensures Valid() && Follows(RecordFailure(error, runId), r)
    {
      Note(RecordFailure(error, runId));
      if shutdown.None? {
        shutdown := Some(ShutdownState(false, None));
      }
      if shutdown.value.failure.None? {
        shutdown := Some(shutdown.value.(failure := Some(RunFailure(error, runId))));
      }
      r := Done;
    }

    method MarkCleanup() returns (r: Reply)
      requires Valid()
      modifies this
      ensures Valid() && Follows(MarkCleanupCompleted, r)
    {
      Note(MarkCleanupCompleted);
      if shutdown.None? {
        return Thrown;
      }
      shutdown := Some(shutdown.value.(cleanupCompleted := true));
      r := Done;
    }

    method SelectInstance(terminal: InstanceTerminal) returns (r: Reply)
      requires Valid()
      modifies this
      ensures Valid() && Follows(SelectInstanceTerminal(terminal), r)
    {
      Note(SelectInstanceTerminal(terminal));
      if !instanceTerminal.Open? {
        if instanceTerminal.terminal != terminal {
          return Thrown;
        }
        return if instanceTerminal.InstanceAcked? then AlreadyAcked else Pending;
      }
      instanceTerminal := InstanceSelected(terminal);
      r := NowSelected;
    }

    method AckInstance(terminal: InstanceTerminal) returns (r: Reply)
      requires Valid()
      modifies this
      ensures Valid() && Follows(AckInstanceTerminal(terminal), r)
    {
      Note(AckInstanceTerminal(terminal));
      if instanceTerminal.Open? || instanceTerminal.terminal != terminal {
        return Thrown;
      }
      instanceTerminal := InstanceAcked(terminal);
      r := Done;
    }

    method AbandonInstance(terminal: InstanceTerminal) returns (r: Reply)
      requires Valid()
      modifies this
      ensures Valid() && Follows(AbandonInstanceTerminal(terminal), r)
    {
      Note(AbandonInstanceTerminal(terminal));
      if !instanceTerminal.InstanceSelected? || instanceTerminal.terminal != terminal {
        return Thrown;
      }
      instanceTerminal := Open;
      r := Done;
    }
  }
}
