/** The publisher of driver events: queued pushes, one delivery at a time, what a delivery left over,
    and the settlement of a Run's terminal.

    Every operation is a transition of `State`; the class carries it out on its fields.  When a drain
    starts, what the host answers and when, and the text length of a retry key are the caller's. */
module EventPublisher {
  import opened Wrappers
  import opened EventAdmission
  import opened EventEntries
  import opened EventDelivery
  import opened EventPromises
  import opened TerminalSettlement

  /** What became of the lossless events, by serial, and which ids of the terminal settlement the host
      acknowledged since the slot was taken.  Only the proofs look at it. */
  datatype Ledger = Ledger(next: nat, admitted: set<nat>, accepted: set<nat>, rejected: set<nat>, abandoned: set<nat>,
                           seen: set<Id>)

  datatype State = State(queue: seq<Entry>, pending: Pending, queued: Counters, delivery: Option<Delivery>,
                         settlement: Option<Settlement>, nextEntry: nat, promises: Promises, ledger: Ledger)

  /** A publisher that has not been used. */
  ghost predicate Initial(s: State) {
    && |s.queue| == 0 == |s.pending.events| && s.delivery.None? && s.settlement.None? && s.queued == NONE
    && s.pending.losslessBytes == s.pending.losslessCount == 0 && !s.pending.terminalBatch && s.pending.terminalKey.None?
    && s.promises == NO_PROMISES
    && s.ledger.admitted == s.ledger.accepted == s.ledger.rejected == s.ledger.abandoned == {}
  }

  /** Who pushes: a Run, a Run that is not the active one, the Session, or the terminal settlement that
      holds the slot. */
  datatype Origin = OfRun | OfOtherRun | OfSession | OfSettlement

  predicate HasLossless(events: seq<Event>) {
    exists e :: e in events && e.lossless
  }

  function UsageOf(pending: Pending, queued: Counters): Usage {
    Usage(pending.losslessBytes, pending.losslessCount, pending.terminalBatch, queued.eventBytes, queued.eventCount,
          queued.losslessBytes, queued.losslessCount, queued.terminalBatches)
  }

  /** Everything on its way: the events of the delivery or else what is pending, and the queue. */
  function Underway(pending: Pending, delivery: Option<Delivery>, queue: seq<Entry>): seq<Queued> {
    (if delivery.Some? then delivery.value.events else pending.events) + Flatten(queue)
  }

  function PendingIds(pending: Pending): (r: seq<Id>) {
    seq(|pending.events|, i requires 0 <= i < |pending.events| => pending.events[i].event.id)
  }

  function Enqueued(s: State, e: Entry): State {
    s.(queue := s.queue + [e], queued := Plus(s.queued, e.weight), nextEntry := s.nextEntry + 1,
       promises := Opened(s.promises, e),
       ledger := s.ledger.(next := s.ledger.next + |e.events|,
                           admitted := s.ledger.admitted + Serials(LosslessOf(e.events))))
  }

  /** A finished settlement gives its slot up once another Run is current. */
  function SlotAfter(settlement: Option<Settlement>, runChanged: bool): Option<Settlement> {
    if settlement.Some? && settlement.value.cleanupComplete && runChanged then None else settlement
  }

  /** Admits what is new and asks again for what was adopted. */
  function SubmitAdopted(s: State, adoption: Adoption, origin: Origin): (State, Outcome) {
    var a := if adoption.unseen == [] then EventAdmission.Nothing else AdmissionOf(adoption.unseen, UsageOf(s.pending, s.queued));
    if a.Refused? then (s, Threw(Admission(a.refusal)))
    else if a.Nothing? && adoption.ids == [] then (s, Ignored)
    else if a.Admitted? && !origin.OfSettlement? && Clashes(a.events, Underway(s.pending, s.delivery, s.queue)) then
      (s, Threw(IdConflict))
    else
      var t := if a.Admitted? then Enqueued(s, AdmittedEntry(a, s.nextEntry, s.ledger.next)) else s;
      var entries := if a.Admitted? && (a.losslessCount > 0 || a.terminalBatch) then [s.nextEntry] else [];
      if adoption.ids == [] then (t, Issued(entries, [], None))
      else if !HasPromises(t.promises, adoption.ids) then (t, Threw(PromiseMissing))
      else (Retried(t, adoption.ids), Issued(entries, PromisesOf(t.promises, adoption.ids), Some(t.nextEntry)))
  }

  predicate Clashes(events: seq<Event>, underway: seq<Queued>) {
    exists e :: e in events && e.id in IdsOf(underway)
  }

  /** The push is the pending terminal batch again. */
  predicate RetriesPending(s: State, events: seq<Event>, keyFits: bool) {
    s.pending.terminalKey.Some? && TerminalRetryKey(events, keyFits) == s.pending.terminalKey
  }

  function Submitted(s: State, events: seq<Event>, origin: Origin, runChanged: bool, keyFits: bool): (State, Outcome) {
    if !origin.OfSettlement? && RunTerminals(events) > 0 then (s, Threw(NeedsTerminalPush))
    else if origin.OfSession? && s.settlement.Some? && !s.settlement.value.cleanupComplete then (s, Threw(SettlementSlotFull))
    else if events == [] then (s, Ignored)
    else if origin.OfOtherRun? then (s, if HasLossless(events) then Threw(NotTheActiveRun) else Ignored)
    else
      var c := if origin.OfSettlement? then s else s.(settlement := SlotAfter(s.settlement, runChanged));
      if c.settlement.Some? && origin.OfRun? then
        (c, if HasLossless(events) then Threw(SettlementSlotFull) else Ignored)
      else if RetriesPending(c, events, keyFits) then
        (Retried(c, PendingIds(c.pending)), Issued([c.nextEntry], [], None))
      else if c.pending.terminalBatch || c.queued.terminalBatches > 0 then
        (c, if HasLossless(events) then Threw(TerminalSlotTaken) else Ignored)
      else
        var adoption :=
          if origin.OfSettlement? then Success(Adoption(events, []))
          else Adopt(events, Underway(c.pending, c.delivery, c.queue));
        if adoption.Failure? then (c, Threw(adoption.error)) else SubmitAdopted(c, adoption.value, origin)
  }

  /** Asks again for events that are pending. */
  function Retried(s: State, ids: seq<Id>): State {
    Enqueued(s, RetryEntry(s.nextEntry, ids))
  }

  /** The settlement's task goes on with its next event: it asks again for a closing event that is
      pending, and pushes any other, also one of which a copy is queued or being delivered. */
  predicate CanSubmitNext(s: State) {
    s.settlement.Some? && s.settlement.value.running && s.settlement.value.nextIndex < |s.settlement.value.events|
  }

  function SubmittedNext(s: State, keyFits: bool): (State, Outcome)
    requires CanSubmitNext(s)
  {
    var st := s.settlement.value;
    var e := st.events[st.nextIndex];
    if st.nextIndex < |st.events| - 1 && e.id in IdsOf(s.pending.events) then
      (Retried(s, [e.id]), Issued([s.nextEntry], [], None))
    else Submitted(s, [e], OfSettlement, false, keyFits)
  }

  function Drained(s: State): State {
    if s.delivery.Some? || (s.queue == [] && s.pending.events == []) then s
    else s.(queue := [], delivery := Some(Begin(s.pending, s.queue)))
  }

  /** The host acknowledged these events. */
  function Heard(s: State, qs: seq<Queued>): State {
    s.(settlement := Remembered(s.settlement, IdsOf(qs)), promises := KeepAll(s.promises, qs),
       ledger := s.ledger.(seen := if s.settlement.None? then s.ledger.seen
                                   else s.ledger.seen + IdsOf(qs) * IdSet(s.settlement.value.ids)))
  }

  predicate Trying(s: State) {
    s.delivery.Some? && s.delivery.value.phase.Attempting? && s.delivery.value.phase.accepted <= |s.delivery.value.phase.remaining|
  }

  predicate CanReceipt(s: State, n: nat) {
    Trying(s) && s.delivery.value.phase.accepted + n <= |s.delivery.value.phase.remaining|
  }

  /** The receipts' effect on the delivery and the account, before the settlement hears of them. */
  function Acked(s: State, n: nat): State
    requires CanReceipt(s, n)
  {
    s.(delivery := Some(Receipts(s.delivery.value, n)),
       ledger := s.ledger.(accepted := s.ledger.accepted + Serials(Acknowledged(s.delivery.value, n))))
  }

  function Receipted(s: State, n: nat): State
    requires CanReceipt(s, n)
  {
    Heard(Acked(s, n), Acknowledged(s.delivery.value, n))
  }

  function RefusedById(s: State, id: Id): State
    requires Trying(s)
  {
    var d := s.delivery.value;
    var refused := RefusedEvent(d, id);
    s.(delivery := Some(AttemptRefused(d, id)),
       settlement := if refused.Some? && s.settlement.Some? && id in s.settlement.value.ids
                     then Some(s.settlement.value.(rejected := true)) else s.settlement,
       promises := if refused.Some? then Break(s.promises, id) else s.promises,
       ledger := if refused.Some? then s.ledger.(rejected := s.ledger.rejected + {refused.value.serial}) else s.ledger)
  }

  predicate CanPush(s: State, n: nat) {
    s.delivery.Some? && s.delivery.value.phase.Pushing?
    && s.delivery.value.index + n <= s.delivery.value.phase.bestEffortEnd <= |s.delivery.value.events|
  }

  /** The push's effect on the delivery, before the settlement hears of it. */
  function Pushed(s: State, n: nat): State
    requires CanPush(s, n)
  {
    s.(delivery := Some(BestEffortPushed(s.delivery.value, n)))
  }

  function PushedEvents(s: State, n: nat): seq<Queued>
    requires CanPush(s, n)
  {
    s.delivery.value.events[s.delivery.value.index..s.delivery.value.index + n]
  }

  function BestEffortDone(s: State, n: nat): State
    requires CanPush(s, n)
  {
    Heard(Pushed(s, n), PushedEvents(s, n))
  }

  predicate CanFinish(s: State) {
    s.delivery.Some? && Over(s.delivery.value)
  }

  function Finished(s: State): State
    requires CanFinish(s)
  {
    var d := s.delivery.value;
    s.(pending := PendingOf(d.remainingLossless, d.terminalKey), queued := Minus(s.queued, Weight(d.entries)), delivery := None,
       promises := Closed(s.promises, d))
  }

  // The terminal settlement.

  predicate IsDistinct(events: seq<Event>) {
    forall i, j :: 0 <= i < j < |events| ==> events[i].id != events[j].id
  }

  /** A closing event may be on its way already if it is the same event; the terminal may not. */
  predicate TerminalClashes(events: seq<Event>, underway: seq<Queued>) {
    exists i :: 0 <= i < |events| && FindById(underway, events[i].id).Some?
                && (i == |events| - 1
                    || !FindById(underway, events[i].id).value.event.lossless
                    || FindById(underway, events[i].id).value.event.content != events[i].content)
  }

  function EventIds(events: seq<Event>): (r: seq<Id>)
    ensures |r| == |events| && forall i :: 0 <= i < |r| ==> r[i] == events[i].id
  {
    seq(|events|, i requires 0 <= i < |events| => events[i].id)
  }

  /** Lossless closing events, and a Run's terminal as the last. */
  predicate IsSettlement(events: seq<Event>) {
    && events != [] && (forall e :: e in events ==> e.lossless)
    && forall i :: 0 <= i < |events| ==> (events[i].runTerminal <==> i == |events| - 1)
  }

  predicate CanReserve(s: State, events: seq<Event>, runChanged: bool) {
    && IsSettlement(events) && SlotAfter(s.settlement, runChanged).None?
    && IsDistinct(events) && !TerminalClashes(events, Underway(s.pending, s.delivery, s.queue))
  }

  function AcceptedInFlight(s: State): set<Id> {
    if s.delivery.Some? then s.delivery.value.acceptedIds else {}
  }

  function RejectedInFlight(s: State): set<Id> {
    if s.delivery.Some? then s.delivery.value.rejectedIds else {}
  }

  /** Takes the slot for a Run's closing events and terminal, with what the running delivery has
      already said about them. */
  function Reserved(s: State, events: seq<Event>, runChanged: bool): State {
    if !CanReserve(s, events, runChanged) then s
    else
      var ids := EventIds(events);
      var accepted := IdSet(ids) * AcceptedInFlight(s);
      s.(settlement := Some(Settlement(events, ids, 0, accepted, true, IdSet(ids) * RejectedInFlight(s) != {}, false)),
         ledger := s.ledger.(seen := accepted))
  }

  /** Steps of the task that carries a settlement out. */
  datatype SettlementStep = Advance | FailTask | RestartTask | CleanUp

  function Stepped(s: State, step: SettlementStep): State {
    if s.settlement.None? then s
    else
      var st := s.settlement.value;
      match step
      case Advance => s.(settlement := Some(Advanced(st)))
      case FailTask => s.(settlement := Some(st.(running := false)))
      case RestartTask => s.(settlement := Some(st.(running := true)))
      case CleanUp =>
        if st.nextIndex < |st.ids| then s else s.(settlement := Some(st.(cleanupComplete := true)))
  }

  predicate CanAbandon(s: State) {
    && s.settlement.Some? && s.settlement.value.ids != []
    && var st := s.settlement.value;
       && !st.running && st.nextIndex == |st.ids| - 1 && st.acceptedIds == {}
       && var id := st.ids[|st.ids| - 1];
          && (s.delivery.Some? ==> id !in IdsOf(s.delivery.value.events))
          && id !in IdsOf(Flatten(s.queue))
          && !TallyOf(WithoutId(s.pending.events, id)).terminal
  }

  function WithoutId(qs: seq<Queued>, id: Id): seq<Queued> {
    if qs == [] then [] else if qs[0].event.id == id then WithoutId(qs[1..], id) else [qs[0]] + WithoutId(qs[1..], id)
  }

  /** Gives up a completed terminal that lost to a cancellation. */
  function Abandoned(s: State): State
    requires CanAbandon(s)
  {
    var id := s.settlement.value.ids[|s.settlement.value.ids| - 1];
    var keep := WithoutId(s.pending.events, id);
    s.(pending := PendingOf(keep, None), settlement := None, promises := GivenUp(s.promises, id),
       ledger := s.ledger.(abandoned := s.ledger.abandoned + (Serials(s.pending.events) - Serials(keep))))
  }
}
