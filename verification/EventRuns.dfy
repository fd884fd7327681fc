/** Every run of the publisher: any interleaving of pushes, drains, receipts, refusals, failures and
    settlement steps. */
module EventRuns {
  import opened Wrappers
  import opened EventAdmission
  import opened EventEntries
  import opened EventDelivery
  import opened EventPromises
  import opened EventPublisher
  import opened EventFates

  datatype Op =
    | Submit(events: seq<Event>, origin: Origin, runChanged: bool, keyFits: bool)
    | SubmitNext(keyFits: bool)
    | Retry(ids: seq<Id>)
    | Drain
    | StartBlock
    | Receipt(n: nat)
    | Return
    | Refuse(id: Id)
    | Fail
    | PushBestEffort(n: nat)
    | Finish
    | Reserve(closing: seq<Event>, runChanged: bool)
    | Settle(to: SettlementStep)
    | Abandon

  predicate CanReturn(s: State) {
    Trying(s) && s.delivery.value.phase.accepted == |s.delivery.value.phase.remaining|
  }

  predicate CanStart(s: State) {
    s.delivery.Some? && s.delivery.value.phase.Ready? && s.delivery.value.index < |s.delivery.value.events|
  }

  /** What an operation makes of the state; one that cannot happen now changes nothing. */
  function Next(s: State, op: Op): State {
    match op
    case Submit(events, origin, runChanged, keyFits) =>
      if origin.OfSettlement? then s else Submitted(s, events, origin, runChanged, keyFits).0
    case SubmitNext(keyFits) => if CanSubmitNext(s) then SubmittedNext(s, keyFits).0 else s
    case Retry(ids) => Retried(s, ids)
    case Drain => Drained(s)
    case StartBlock => if CanStart(s) then s.(delivery := Some(NextBlock(s.delivery.value))) else s
    case Receipt(n) => if CanReceipt(s, n) then Receipted(s, n) else s
    case Return => if CanReturn(s) then s.(delivery := Some(AttemptReturned(s.delivery.value))) else s
    case Refuse(id) => if Trying(s) then RefusedById(s, id) else s
    case Fail => if Trying(s) then s.(delivery := Some(AttemptFailed(s.delivery.value))) else s
    case PushBestEffort(n) => if CanPush(s, n) then BestEffortDone(s, n) else s
    case Finish => if CanFinish(s) then Finished(s) else s
    case Reserve(events, runChanged) => Reserved(s, events, runChanged)
    case Settle(to) => Stepped(s, to)
    case Abandon => if CanAbandon(s) then Abandoned(s) else s
  }

  function Run(start: State, ops: seq<Op>): State {
    if ops == [] then start else Next(Run(start, ops[..|ops| - 1]), ops[|ops| - 1])
  }

  predicate Asked(s: State) {
    true
  }

  /** The state `s` is where the operations lead.  The trigger keeps the run out of proofs that do not
      ask for it. */
  ghost predicate Reached(start: State, ops: seq<Op>, s: State) {
    Initial(start) && forall t {:trigger Asked(t)} :: Asked(t) && t == Run(start, ops) ==> s == t
  }

  lemma ReachedIsRun(start: State, ops: seq<Op>, s: State)
    ensures Reached(start, ops, s) <==> Initial(start) && s == Run(start, ops)
  {
    assert Asked(Run(start, ops));
  }

  lemma ReachedOneMore(start: State, ops: seq<Op>, s: State, op: Op)
    requires Reached(start, ops, s)
    ensures Reached(start, ops + [op], Next(s, op))
  {
    ReachedIsRun(start, ops, s);
    RunOneMore(start, ops, op);
    ReachedIsRun(start, ops + [op], Next(s, op));
  }

  lemma RunOneMore(start: State, ops: seq<Op>, op: Op)
    ensures Run(start, ops + [op]) == Next(Run(start, ops), op)
  {
    assert (ops + [op])[..|ops|] == ops;
  }

  // ---------------------------------------------------------------------------------------------
  // Where the events are.

  /** What a delivery took on is still to be settled, or was accepted, or its entry has an error. */
  ghost predicate Answered(d: Delivery, accepted: set<nat>) {
    forall q :: q in d.events && q.event.lossless ==>
      q in d.remainingLossless || q.serial in accepted || q.owner.None? || q.owner.value in d.ownerErrors
  }

  predicate Unowned(qs: seq<Queued>) {
    forall q :: q in qs ==> q.owner.None?
  }

  /** A delivery is of what was pending and its entries, and stands somewhere in them. */
  ghost predicate DeliverySound(d: Option<Delivery>, pending: seq<Queued>, accepted: set<nat>) {
    d.Some? ==>
      && Positioned(d.value) && Answered(d.value, accepted) && AllLossless(d.value.remainingLossless)
      && d.value.events == pending + Flatten(d.value.entries)
  }

  ghost predicate Flowing(s: State) {
    && Accounted(Held(s), s.ledger)
    && AllLossless(s.pending.events) && Unowned(s.pending.events)
    && DeliverySound(s.delivery, s.pending.events, s.ledger.accepted)
  }

  /** The account of the state does not depend on counters, settlement or what was seen of it. */
  lemma FlowingIsAboutEvents(s: State, t: State)
    requires Flowing(s) && t.queue == s.queue && t.delivery == s.delivery && t.pending.events == s.pending.events
    requires t.ledger.(seen := s.ledger.seen) == s.ledger
    ensures Flowing(t)
  {
    SeenDoesNotCount(Held(s), s.ledger, t.ledger.seen);
  }

  lemma InitiallyFlowing(s: State)
    requires Initial(s)
    ensures Flowing(s)
  {
    assert |Held(s)| == 0;
  }

  lemma EnqueuedFlows(s: State, e: Entry)
    requires Flowing(s) && forall i :: 0 <= i < |e.events| ==> e.events[i].serial == s.ledger.next + i
    ensures Flowing(Enqueued(s, e))
  {
    EnqueuedIsAccounted(s, e);
  }

  /** A push that reaches admission enqueues what was admitted, and a request for what was adopted. */
  lemma AdoptedShape(s: State, adoption: Adoption, origin: Origin) returns (t: State)
    ensures t == s || (var a := AdmissionOf(adoption.unseen, UsageOf(s.pending, s.queued));
                       && a.Admitted? && (origin.OfSettlement? || !Clashes(a.events, Underway(s.pending, s.delivery, s.queue)))
                       && t == Enqueued(s, AdmittedEntry(a, s.nextEntry, s.ledger.next)))
    ensures var r := SubmitAdopted(s, adoption, origin);
            && (r.0 == s || r.0 == t || r.0 == Retried(t, adoption.ids))
            && (r.1 == Threw(PromiseMissing) ==> !HasPromises(t.promises, adoption.ids))
  {
    var a := if adoption.unseen == [] then EventAdmission.Nothing else AdmissionOf(adoption.unseen, UsageOf(s.pending, s.queued));
    t := if a.Admitted? && (origin.OfSettlement? || !Clashes(a.events, Underway(s.pending, s.delivery, s.queue)))
      then Enqueued(s, AdmittedEntry(a, s.nextEntry, s.ledger.next)) else s;
  }

  lemma {:induction false} AdoptionErrors(events: seq<Event>, candidates: seq<Queued>)
    ensures Adopt(events, candidates).Failure? ==> Adopt(events, candidates).error != PromiseMissing
  {
    if events != [] {
      AdoptionErrors(events[..|events| - 1], candidates);
    }
  }

  /** A push either changes nothing but the settlement's slot, or enqueues a request or what it brings. */
  lemma SubmittedShape(s: State, events: seq<Event>, origin: Origin, runChanged: bool, keyFits: bool)
    returns (c: State, adoption: Adoption)
    ensures c == s || c == s.(settlement := None)
    ensures var r := Submitted(s, events, origin, runChanged, keyFits).0;
            || r == s || r == c || r == Retried(c, PendingIds(c.pending))
            || (r == SubmitAdopted(c, adoption, origin).0
                && (origin.OfSettlement? ==> adoption == Adoption(events, []) && !RetriesPending(c, events, keyFits)))
    ensures Submitted(s, events, origin, runChanged, keyFits).1 == Threw(PromiseMissing) && !origin.OfSettlement? ==>
              && Adopt(events, Underway(c.pending, c.delivery, c.queue)) == Success(adoption)
              && SubmitAdopted(c, adoption, origin).1 == Threw(PromiseMissing)
  {
    c := if origin.OfSettlement? then s else s.(settlement := SlotAfter(s.settlement, runChanged));
    var adopted :=
      if origin.OfSettlement? then Success(Adoption(events, []))
      else Adopt(events, Underway(c.pending, c.delivery, c.queue));
    adoption := if adopted.Success? then adopted.value else Adoption([], []);
    AdoptionErrors(events, Underway(c.pending, c.delivery, c.queue));
  }

  lemma SubmittedFlows(s: State, events: seq<Event>, origin: Origin, runChanged: bool, keyFits: bool)
    requires Flowing(s)
    ensures Flowing(Submitted(s, events, origin, runChanged, keyFits).0)
  {
    var c, adoption := SubmittedShape(s, events, origin, runChanged, keyFits);
    FlowingIsAboutEvents(s, c);
    EnqueuedFlows(c, RetryEntry(c.nextEntry, PendingIds(c.pending)));
    var t := AdoptedShape(c, adoption, origin);
    if t != c {
      EnqueuedFlows(c, AdmittedEntry(AdmissionOf(adoption.unseen, UsageOf(c.pending, c.queued)), c.nextEntry, c.ledger.next));
    }
    EnqueuedFlows(t, RetryEntry(t.nextEntry, adoption.ids));
  }

  /** What the settlement's task submits or asks for again. */
  lemma SubmittedNextShape(s: State, keyFits: bool) returns (e: Event)
    requires CanSubmitNext(s)
    ensures e == s.settlement.value.events[s.settlement.value.nextIndex]
    ensures var r := SubmittedNext(s, keyFits).0;
            r == Retried(s, [e.id]) || r == Submitted(s, [e], OfSettlement, false, keyFits).0
  {
    e := s.settlement.value.events[s.settlement.value.nextIndex];
  }

  lemma SubmittedNextFlows(s: State, keyFits: bool)
    requires Flowing(s) && CanSubmitNext(s)
    ensures Flowing(SubmittedNext(s, keyFits).0)
  {
    var e := SubmittedNextShape(s, keyFits);
    EnqueuedFlows(s, RetryEntry(s.nextEntry, [e.id]));
    SubmittedFlows(s, [e], OfSettlement, false, keyFits);
  }

  lemma DrainedFlows(s: State)
    requires Flowing(s)
    ensures Flowing(Drained(s))
  {
    if Drained(s) != s {
      DrainedHoldsTheSame(s);
      BeginIsPositioned(s.pending, s.queue);
      LosslessOfHolds(s.pending.events + Flatten(s.queue));
    }
  }

  /** A step of the delivery that leaves the retained list alone. */
  predicate Moves(d: Delivery, e: Delivery) {
    && e.entries == d.entries && e.events == d.events
    && e.remainingLossless == d.remainingLossless && e.ownerErrors == d.ownerErrors
  }

  lemma MovedFlows(s: State, e: Delivery)
    requires Flowing(s) && s.delivery.Some? && Moves(s.delivery.value, e) && Positioned(e)
    ensures Flowing(s.(delivery := Some(e)))
  {
  }

  lemma ReceiptKeeps(d: Delivery, n: nat, accepted: set<nat>)
    requires Positioned(d) && Answered(d, accepted) && AllLossless(d.remainingLossless)
    requires d.phase.Attempting? && d.phase.accepted + n <= |d.phase.remaining|
    ensures Positioned(Receipts(d, n)) && Answered(Receipts(d, n), accepted + Serials(Acknowledged(d, n)))
    ensures AllLossless(Receipts(d, n).remainingLossless)
  {
    SpliceRemovesAcknowledged(d, n);
    assert forall q :: q in d.remainingLossless <==> q in Acknowledged(d, n) || q in Receipts(d, n).remainingLossless;
  }

  lemma AckedFlows(s: State, n: nat)
    requires Flowing(s) && CanReceipt(s, n)
    ensures Flowing(Acked(s, n))
  {
    AckedIsAccounted(s, n);
    ReceiptKeeps(s.delivery.value, n, s.ledger.accepted);
  }

  lemma ReceiptedFlows(s: State, n: nat)
    requires Flowing(s) && CanReceipt(s, n)
    ensures Flowing(Receipted(s, n))
  {
    AckedFlows(s, n);
    FlowingIsAboutEvents(Acked(s, n), Receipted(s, n));
  }

  lemma RefusalKeeps(d: Delivery, id: Id, accepted: set<nat>)
    requires Positioned(d) && Answered(d, accepted) && AllLossless(d.remainingLossless) && Rising(d.remainingLossless)
    requires d.phase.Attempting? && RefusedEvent(d, id).Some?
    ensures Positioned(AttemptRefused(d, id)) && Answered(AttemptRefused(d, id), accepted)
    ensures AllLossless(AttemptRefused(d, id).remainingLossless)
  {
    var j := RefusalRemovesOne(d, id);
    var left, x := WithoutAt(d.remainingLossless, j), d.remainingLossless[j];
    assert d.remainingLossless == d.remainingLossless[..j] + [x] + d.remainingLossless[j + 1..];
    assert forall q :: q in d.remainingLossless <==> q in left || q == x;
  }

  lemma RefusedFlows(s: State, id: Id)
    requires Flowing(s) && Trying(s)
    ensures Flowing(RefusedById(s, id))
  {
    var d := s.delivery.value;
    if RefusedEvent(d, id).Some? {
      RefusedIsAccounted(s, id);
      RisingApart(d.remainingLossless, LosslessOf(Flatten(s.queue)));
      RefusalKeeps(d, id, s.ledger.accepted);
    } else {
      MovedFlows(s, AttemptRefused(d, id));
    }
  }

  lemma PushedFlows(s: State, n: nat)
    requires Flowing(s) && CanPush(s, n)
    ensures Flowing(BestEffortDone(s, n))
  {
    var d := BestEffortPushed(s.delivery.value, n);
    PushedIsPositioned(s.delivery.value, n);
    MovedFlows(s, d);
    FlowingIsAboutEvents(s.(delivery := Some(d)), BestEffortDone(s, n));
  }

  lemma UnownedPending(qs: seq<Queued>)
    requires AllLossless(qs)
    ensures AllLossless(Disowned(qs)) && Unowned(Disowned(qs))
  {
    forall q | q in Disowned(qs) ensures q.event.lossless && q.owner.None? {
      var i :| 0 <= i < |qs| && Disowned(qs)[i] == q;
      assert qs[i] in qs;
    }
  }

  lemma FinishedFlows(s: State)
    requires Flowing(s) && CanFinish(s)
    ensures Flowing(Finished(s))
  {
    FinishedIsAccounted(s);
    UnownedPending(s.delivery.value.remainingLossless);
  }

  lemma {:induction false} WithoutIdAbsent(qs: seq<Queued>, id: Id)
    requires id !in IdsOf(qs)
    ensures WithoutId(qs, id) == qs
  {
    if qs != [] {
      assert qs[0] in qs && forall q :: q in qs[1..] ==> q in qs;
      WithoutIdAbsent(qs[1..], id);
    }
  }

  lemma AlreadyUnowned(qs: seq<Queued>)
    requires Unowned(qs)
    ensures Disowned(qs) == qs
  {
    forall i | 0 <= i < |qs| ensures qs[i].(owner := None) == qs[i] {
      assert qs[i] in qs;
    }
  }

  /** Giving up an id that is not pending leaves what is pending alone. */
  lemma NotPendingAnyMore(qs: seq<Queued>, id: Id, abandoned: set<nat>)
    requires id !in IdsOf(qs) && Unowned(qs)
    ensures WithoutId(qs, id) == qs == Disowned(qs)
    ensures abandoned + (Serials(qs) - Serials(WithoutId(qs, id))) == abandoned
  {
    WithoutIdAbsent(qs, id);
    AlreadyUnowned(qs);
    NothingMore(abandoned, Serials(qs));
  }

  /** While a delivery runs an abandoned terminal is not among the pending events any more. */
  lemma AbandonedInDelivery(s: State)
    requires Flowing(s) && CanAbandon(s) && s.delivery.Some?
    ensures Abandoned(s).pending == PendingOf(s.pending.events, None) && Abandoned(s).pending.events == s.pending.events
    ensures Abandoned(s).ledger == s.ledger
  {
    var id, pending := s.settlement.value.ids[|s.settlement.value.ids| - 1], s.pending.events;
    assert forall q :: q in pending ==> q in s.delivery.value.events;
    NotPendingAnyMore(pending, id, s.ledger.abandoned);
  }

  lemma NothingMore(a: set<nat>, b: set<nat>)
    ensures a + (b - b) == a
  {
  }

  lemma AbandonedFlows(s: State)
    requires Flowing(s) && CanAbandon(s)
    ensures Flowing(Abandoned(s))
  {
    if s.delivery.Some? {
      AbandonedInDelivery(s);
      FlowingIsAboutEvents(s, Abandoned(s));
    } else {
      var id := s.settlement.value.ids[|s.settlement.value.ids| - 1];
      AbandonedIsAccounted(s);
      WithoutIdHolds(s.pending.events, id);
      UnownedPending(WithoutId(s.pending.events, id));
    }
  }

  lemma NextFlows(s: State, op: Op)
    requires Flowing(s)
    ensures Flowing(Next(s, op))
  {
    match op {
      case Submit(events, origin, runChanged, keyFits) => { SubmittedFlows(s, events, origin, runChanged, keyFits); }
      case SubmitNext(keyFits) => if CanSubmitNext(s) { SubmittedNextFlows(s, keyFits); }
      case Retry(ids) => { EnqueuedFlows(s, RetryEntry(s.nextEntry, ids)); }
      case Drain => { DrainedFlows(s); }
      case StartBlock =>
        if CanStart(s) {
          NextBlockIsPositioned(s.delivery.value);
          MovedFlows(s, NextBlock(s.delivery.value));
        }
      case Receipt(n) => if CanReceipt(s, n) { ReceiptedFlows(s, n); }
      case Return => if CanReturn(s) { MovedFlows(s, AttemptReturned(s.delivery.value)); }
      case Refuse(id) => if Trying(s) { RefusedFlows(s, id); }
      case Fail => if Trying(s) { MovedFlows(s, AttemptFailed(s.delivery.value)); }
      case PushBestEffort(n) => if CanPush(s, n) { PushedFlows(s, n); }
      case Finish => if CanFinish(s) { FinishedFlows(s); }
      case Reserve(closing, runChanged) => { FlowingIsAboutEvents(s, Reserved(s, closing, runChanged)); }
      case Settle(to) => { FlowingIsAboutEvents(s, Stepped(s, to)); }
      case Abandon => if CanAbandon(s) { AbandonedFlows(s); }
    }
  }

  lemma {:induction false} EveryRunFlows(start: State, ops: seq<Op>)
    requires Initial(start)
    ensures Flowing(Run(start, ops))
  {
    if ops == [] {
      InitiallyFlowing(start);
    } else {
      EveryRunFlows(start, ops[..|ops| - 1]);
      NextFlows(Run(start, ops[..|ops| - 1]), ops[|ops| - 1]);
    }
  }
}
