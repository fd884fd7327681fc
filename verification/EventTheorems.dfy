/** What holds in every run of the publisher. */
module EventTheorems {
  import opened Wrappers
  import opened EventAdmission
  import opened EventEntries
  import opened EventDelivery
  import opened TerminalSettlement
  import opened EventPublisher
  import opened EventFates
  import opened EventBudget
  import opened EventRuns

  // ---------------------------------------------------------------------------------------------
  // Counters.

  lemma NoEntriesCounted(s: State)
    requires Initial(s)
    ensures EntriesCounted(s.queued, Delivering(s), s.queue)
  {
    assert |Delivering(s)| == 0;
    assert AllWeighed(Delivering(s)) && AllWeighed(s.queue);
    assert Weight(Delivering(s)) == NONE && Weight(s.queue) == NONE;
  }

  lemma NothingPendingCounted(s: State)
    requires Initial(s)
    ensures PendingCounted(s.pending)
  {
    assert TallyOf(s.pending.events).count == 0;
  }

  lemma CountedFrom(s: State)
    requires EntriesCounted(s.queued, Delivering(s), s.queue) && PendingCounted(s.pending) && s.delivery.None?
    ensures Counted(s)
  {
  }

  lemma InitiallyCounted(s: State)
    requires Initial(s)
    ensures Counted(s)
  {
    NoEntriesCounted(s);
    NothingPendingCounted(s);
    CountedFrom(s);
  }

  /** Counting does not look at the settlement, the ledger or the pending batch's key. */
  lemma CountedIsAboutCounters(s: State, t: State)
    requires Counted(s) && t.queue == s.queue && t.queued == s.queued && t.delivery == s.delivery
    requires t.pending.(terminalKey := s.pending.terminalKey) == s.pending
    ensures Counted(t)
  {
  }

  lemma RetriedIsCounted(s: State, ids: seq<Id>)
    requires Counted(s)
    ensures Counted(Retried(s, ids))
  {
    RetryIsWeighed(s.nextEntry, ids);
    EntriesOneMore(s.queued, Delivering(s), s.queue, RetryEntry(s.nextEntry, ids));
    EnqueuedIsCounted(s, RetryEntry(s.nextEntry, ids));
  }

  lemma SubmittedIsCounted(s: State, events: seq<Event>, origin: Origin, runChanged: bool, keyFits: bool)
    requires Counted(s)
    ensures Counted(Submitted(s, events, origin, runChanged, keyFits).0)
  {
    var c, adoption := SubmittedShape(s, events, origin, runChanged, keyFits);
    CountedIsAboutCounters(s, c);
    RetriedIsCounted(c, PendingIds(c.pending));
    var t := AdoptedShape(c, adoption, origin);
    if t != c {
      var u := UsageOf(c.pending, c.queued);
      var e := AdmittedEntry(AdmissionOf(adoption.unseen, u), c.nextEntry, c.ledger.next);
      AdmittedIsWeighed(adoption.unseen, u, c.nextEntry, c.ledger.next);
      EntriesOneMore(c.queued, Delivering(c), c.queue, e);
      EnqueuedIsCounted(c, e);
    }
    RetriedIsCounted(t, adoption.ids);
  }

  lemma MovedIsCounted(s: State, d: Delivery)
    requires Counted(s) && s.delivery.Some? && Moves(s.delivery.value, d)
    ensures Counted(s.(delivery := Some(d)))
  {
    ShortenedIsCounted(s, d);
  }

  lemma ReceiptShortens(d: Delivery, n: nat)
    requires Positioned(d) && AllLossless(d.remainingLossless)
    requires d.phase.Attempting? && d.phase.accepted + n <= |d.phase.remaining|
    ensures Smaller(TallyOf(Receipts(d, n).remainingLossless), TallyOf(d.remainingLossless))
  {
    SpliceRemovesAcknowledged(d, n);
    SmallerSuffix(Acknowledged(d, n), Receipts(d, n).remainingLossless);
  }

  lemma ReceiptedIsCounted(s: State, n: nat)
    requires Counted(s) && Flowing(s) && CanReceipt(s, n)
    ensures Counted(Receipted(s, n))
  {
    var d := Receipts(s.delivery.value, n);
    ReceiptShortens(s.delivery.value, n);
    ReceiptKeeps(s.delivery.value, n, s.ledger.accepted);
    ShortenedIsCounted(s, d);
    CountedIsAboutCounters(s.(delivery := Some(d)), Receipted(s, n));
  }

  lemma RefusalShortens(d: Delivery, id: Id)
    requires Positioned(d) && AllLossless(d.remainingLossless) && Rising(d.remainingLossless)
    requires d.phase.Attempting? && RefusedEvent(d, id).Some?
    ensures Smaller(TallyOf(AttemptRefused(d, id).remainingLossless), TallyOf(d.remainingLossless))
    ensures AllLossless(AttemptRefused(d, id).remainingLossless)
  {
    var j := RefusalRemovesOne(d, id);
    var a, x, b := d.remainingLossless[..j], [d.remainingLossless[j]], d.remainingLossless[j + 1..];
    assert d.remainingLossless == a + x + b;
    SmallerWithout(a, x, b);
    assert forall q :: q in a + b ==> q in d.remainingLossless;
  }

  lemma AttemptRefusedIsCounted(s: State, id: Id)
    requires Counted(s) && Trying(s) && Positioned(s.delivery.value)
    requires Rising(s.delivery.value.remainingLossless) && RefusedEvent(s.delivery.value, id).Some?
    ensures Counted(s.(delivery := Some(AttemptRefused(s.delivery.value, id))))
  {
    RefusalShortens(s.delivery.value, id);
    ShortenedIsCounted(s, AttemptRefused(s.delivery.value, id));
  }

  lemma RefusedIsCounted(s: State, id: Id)
    requires Counted(s) && Flowing(s) && Trying(s)
    ensures Counted(RefusedById(s, id))
  {
    if RefusedEvent(s.delivery.value, id).Some? {
      RisingApart(s.delivery.value.remainingLossless, LosslessOf(Flatten(s.queue)));
      AttemptRefusedIsCounted(s, id);
    } else {
      MovedIsCounted(s, AttemptRefused(s.delivery.value, id));
    }
    CountedIsAboutCounters(s.(delivery := RefusedById(s, id).delivery), RefusedById(s, id));
  }

  lemma PushedIsCounted(s: State, n: nat)
    requires Counted(s) && CanPush(s, n)
    ensures Counted(BestEffortDone(s, n))
  {
    var d := BestEffortPushed(s.delivery.value, n);
    MovedIsCounted(s, d);
    CountedIsAboutCounters(s.(delivery := Some(d)), BestEffortDone(s, n));
  }

  lemma OnlyTheKeyChanges(p: Pending, key: Option<Key>)
    requires PendingCounted(p) && Unowned(p.events)
    ensures PendingOf(p.events, key).(terminalKey := p.terminalKey) == p
  {
    AlreadyUnowned(p.events);
  }

  lemma AnyAbandonedIsCounted(s: State)
    requires Counted(s) && Flowing(s) && CanAbandon(s)
    ensures Counted(Abandoned(s))
  {
    if s.delivery.Some? {
      AbandonedInDelivery(s);
      OnlyTheKeyChanges(s.pending, None);
      CountedIsAboutCounters(s, Abandoned(s));
    } else {
      AbandonedIsCounted(s);
    }
  }

  predicate OfDelivery(op: Op) {
    op.StartBlock? || op.Receipt? || op.Return? || op.Refuse? || op.Fail? || op.PushBestEffort? || op.Finish?
  }

  lemma DeliveryStepIsCounted(s: State, op: Op)
    requires Counted(s) && Flowing(s) && OfDelivery(op)
    ensures Counted(Next(s, op))
  {
    match op {
      case StartBlock => if CanStart(s) { MovedIsCounted(s, NextBlock(s.delivery.value)); }
      case Receipt(n) => if CanReceipt(s, n) { ReceiptedIsCounted(s, n); }
      case Return => if CanReturn(s) { MovedIsCounted(s, AttemptReturned(s.delivery.value)); }
      case Refuse(id) => if Trying(s) { RefusedIsCounted(s, id); }
      case Fail => if Trying(s) { MovedIsCounted(s, AttemptFailed(s.delivery.value)); }
      case PushBestEffort(n) => if CanPush(s, n) { PushedIsCounted(s, n); }
      case Finish => if CanFinish(s) { FinishedIsCounted(s); }
    }
  }

  lemma SettlementStepsApart(s: State, op: Op)
    requires op.Reserve? || op.Settle?
    ensures var t := Next(s, op); t.queue == s.queue && t.queued == s.queued && t.delivery == s.delivery && t.pending == s.pending
  {
  }

  lemma SettlementStepIsCounted(s: State, op: Op)
    requires Counted(s) && (op.Reserve? || op.Settle?)
    ensures Counted(Next(s, op))
  {
    SettlementStepsApart(s, op);
    CountedIsAboutCounters(s, Next(s, op));
  }

  lemma SubmittedNextIsCounted(s: State, keyFits: bool)
    requires Counted(s) && CanSubmitNext(s)
    ensures Counted(SubmittedNext(s, keyFits).0)
  {
    var e := SubmittedNextShape(s, keyFits);
    RetriedIsCounted(s, [e.id]);
    SubmittedIsCounted(s, [e], OfSettlement, false, keyFits);
  }

  lemma PushStepIsCounted(s: State, op: Op)
    requires Counted(s) && (op.Submit? || op.SubmitNext? || op.Retry? || op.Drain?)
    ensures Counted(Next(s, op))
  {
    if op.Submit? {
      SubmittedIsCounted(s, op.events, op.origin, op.runChanged, op.keyFits);
    } else if op.SubmitNext? {
      if CanSubmitNext(s) {
        SubmittedNextIsCounted(s, op.keyFits);
      }
    } else if op.Retry? {
      RetriedIsCounted(s, op.ids);
    } else if s.delivery.None? {
      DrainedIsCounted(s);
    }
  }

  /** In every state the queued counters are the sums over the entries queued or being delivered, and
      the pending ones the measure of the pending list. */
  lemma {:induction false} CountersAreExact(start: State, ops: seq<Op>)
    requires Initial(start)
    ensures Counted(Run(start, ops))
  {
    if ops == [] {
      InitiallyCounted(start);
    } else {
      CountersAreExact(start, ops[..|ops| - 1]);
      EveryRunFlows(start, ops[..|ops| - 1]);
      var s, op := Run(start, ops[..|ops| - 1]), ops[|ops| - 1];
      if OfDelivery(op) {
        DeliveryStepIsCounted(s, op);
      } else if op.Reserve? || op.Settle? {
        SettlementStepIsCounted(s, op);
      } else if !op.Abandon? {
        PushStepIsCounted(s, op);
      } else if CanAbandon(s) {
        AnyAbandonedIsCounted(s);
      }
    }
  }

  // ---------------------------------------------------------------------------------------------
  // Budgets.

  /** The limits look at counters only, and those only change when entries come or a delivery ends. */
  predicate SameBudget(s: State, t: State) {
    && t.pending.losslessCount == s.pending.losslessCount && t.pending.losslessBytes == s.pending.losslessBytes
    && t.pending.terminalBatch == s.pending.terminalBatch && t.queued == s.queued
  }

  lemma RetriedStaysWithin(s: State, ids: seq<Id>)
    requires WithinBudget(s)
    ensures WithinBudget(Retried(s, ids))
  {
  }

  lemma SubmittedStaysWithin(s: State, events: seq<Event>, origin: Origin, runChanged: bool, keyFits: bool)
    requires WithinBudget(s)
    ensures WithinBudget(Submitted(s, events, origin, runChanged, keyFits).0)
  {
    var c, adoption := SubmittedShape(s, events, origin, runChanged, keyFits);
    RetriedStaysWithin(c, PendingIds(c.pending));
    var t := AdoptedShape(c, adoption, origin);
    if t != c {
      AdmittedStaysWithin(c, adoption.unseen, c.nextEntry, c.ledger.next);
    }
    RetriedStaysWithin(t, adoption.ids);
  }

  lemma AnyAbandonedStaysWithin(s: State)
    requires Counted(s) && Flowing(s) && WithinBudget(s) && CanAbandon(s)
    ensures WithinBudget(Abandoned(s))
  {
    if s.delivery.Some? {
      AbandonedInDelivery(s);
      OnlyTheKeyChanges(s.pending, None);
    } else {
      AbandonedIsCounted(s);
    }
  }

  lemma OthersKeepTheBudget(s: State, op: Op)
    requires !op.Submit? && !op.SubmitNext? && !op.Retry? && !op.Finish? && !op.Abandon?
    ensures SameBudget(s, Next(s, op))
  {
  }

  lemma FinishedStaysWithin(s: State)
    requires Counted(s) && WithinBudget(s) && CanFinish(s)
    ensures WithinBudget(Finished(s))
  {
    FinishedIsCounted(s);
  }

  lemma SubmittedNextStaysWithin(s: State, keyFits: bool)
    requires WithinBudget(s) && CanSubmitNext(s)
    ensures WithinBudget(SubmittedNext(s, keyFits).0)
  {
    var e := SubmittedNextShape(s, keyFits);
    RetriedStaysWithin(s, [e.id]);
    SubmittedStaysWithin(s, [e], OfSettlement, false, keyFits);
  }

  lemma NextStaysWithin(s: State, op: Op)
    requires Counted(s) && Flowing(s) && WithinBudget(s)
    ensures WithinBudget(Next(s, op))
  {
    if op.Submit? {
      SubmittedStaysWithin(s, op.events, op.origin, op.runChanged, op.keyFits);
    } else if op.SubmitNext? {
      if CanSubmitNext(s) {
        SubmittedNextStaysWithin(s, op.keyFits);
      }
    } else if op.Retry? {
      RetriedStaysWithin(s, op.ids);
    } else if op.Finish? {
      if CanFinish(s) {
        FinishedStaysWithin(s);
      }
    } else if op.Abandon? {
      if CanAbandon(s) {
        AnyAbandonedStaysWithin(s);
      }
    } else {
      OthersKeepTheBudget(s, op);
    }
  }

  /** Lossless events pending and queued never exceed 1024 or 32 MiB together, as the counters have
      it, and there is never more than one terminal batch. */
  lemma {:induction false} BudgetsHold(start: State, ops: seq<Op>)
    requires Initial(start)
    ensures WithinBudget(Run(start, ops))
  {
    if ops == [] {
    } else {
      var shorter := ops[..|ops| - 1];
      BudgetsHold(start, shorter);
      EveryRunFlows(start, shorter);
      CountersAreExact(start, shorter);
      NextStaysWithin(Run(start, shorter), ops[|ops| - 1]);
    }
  }

  // ---------------------------------------------------------------------------------------------
  // Fates.

  /** Every lossless event ever admitted is, at every moment, in exactly one place: held, in one
      position of the held list, or accepted, rejected or abandoned. */
  lemma EveryLosslessEventHasOneFate(start: State, ops: seq<Op>, k: nat)
    requires Initial(start) && k in Run(start, ops).ledger.admitted
    ensures var s := Run(start, ops);
            var places := [k in Serials(Held(s)), k in s.ledger.accepted, k in s.ledger.rejected, k in s.ledger.abandoned];
            exists i :: 0 <= i < 4 && places[i] && forall j :: 0 <= j < 4 && places[j] ==> j == i
    ensures var held := Held(Run(start, ops));
            forall i, j :: 0 <= i < |held| && 0 <= j < |held| && held[i].serial == k == held[j].serial ==> i == j
  {
    EveryRunFlows(start, ops);
    var s := Run(start, ops);
    var places := [k in Serials(Held(s)), k in s.ledger.accepted, k in s.ledger.rejected, k in s.ledger.abandoned];
    assert k in Serials(Held(s)) + s.ledger.accepted + s.ledger.rejected + s.ledger.abandoned;
    assert places[0] || places[1] || places[2] || places[3];
  }

  /** Nothing best-effort is ever pending or retained, and what is kept stays in order of admission. */
  lemma RetainedIsLosslessInOrder(start: State, ops: seq<Op>)
    requires Initial(start)
    ensures var s := Run(start, ops);
            && AllLossless(s.pending.events) && AllLossless(Held(s)) && Rising(Held(s))
            && (s.delivery.None? ==> Rising(s.pending.events))
  {
    EveryRunFlows(start, ops);
    var s := Run(start, ops);
    if s.delivery.None? {
      RisingApart(s.pending.events, LosslessOf(Flatten(s.queue)));
    }
  }

  ghost predicate Own(e: Entry) {
    forall q :: q in e.events ==> q.owner == Some(e.id)
  }

  ghost predicate EntriesOwn(s: State) {
    (forall e :: e in s.queue ==> Own(e)) && (forall e :: e in Delivering(s) ==> Own(e))
  }

  lemma EnqueuedOwns(s: State, e: Entry)
    requires EntriesOwn(s) && Own(e)
    ensures EntriesOwn(Enqueued(s, e))
  {
  }

  lemma SubmittedOwns(s: State, events: seq<Event>, origin: Origin, runChanged: bool, keyFits: bool)
    requires EntriesOwn(s)
    ensures EntriesOwn(Submitted(s, events, origin, runChanged, keyFits).0)
  {
    var c, adoption := SubmittedShape(s, events, origin, runChanged, keyFits);
    assert EntriesOwn(c);
    EnqueuedOwns(c, RetryEntry(c.nextEntry, PendingIds(c.pending)));
    var t := AdoptedShape(c, adoption, origin);
    if t != c {
      EnqueuedOwns(c, AdmittedEntry(AdmissionOf(adoption.unseen, UsageOf(c.pending, c.queued)), c.nextEntry, c.ledger.next));
    }
    EnqueuedOwns(t, RetryEntry(t.nextEntry, adoption.ids));
  }

  lemma SubmittedNextOwns(s: State, keyFits: bool)
    requires EntriesOwn(s) && CanSubmitNext(s)
    ensures EntriesOwn(SubmittedNext(s, keyFits).0)
  {
    var e := SubmittedNextShape(s, keyFits);
    EnqueuedOwns(s, RetryEntry(s.nextEntry, [e.id]));
    SubmittedOwns(s, [e], OfSettlement, false, keyFits);
  }

  lemma NextOwns(s: State, op: Op)
    requires EntriesOwn(s)
    ensures EntriesOwn(Next(s, op))
  {
    if op.Submit? {
      SubmittedOwns(s, op.events, op.origin, op.runChanged, op.keyFits);
    } else if op.SubmitNext? {
      if CanSubmitNext(s) {
        SubmittedNextOwns(s, op.keyFits);
      }
    } else if op.Retry? {
      EnqueuedOwns(s, RetryEntry(s.nextEntry, op.ids));
    }
  }

  lemma {:induction false} EveryRunOwns(start: State, ops: seq<Op>)
    requires Initial(start)
    ensures EntriesOwn(Run(start, ops))
  {
    if ops != [] {
      EveryRunOwns(start, ops[..|ops| - 1]);
      NextOwns(Run(start, ops[..|ops| - 1]), ops[|ops| - 1]);
    }
  }

  lemma {:induction false} FlattenHolds(entries: seq<Entry>, e: Entry, q: Queued)
    requires e in entries && q in e.events
    ensures q in Flatten(entries)
  {
    if e in entries[..|entries| - 1] {
      FlattenHolds(entries[..|entries| - 1], e, q);
    }
  }

  /** An entry resolves only when the host acknowledged each of its lossless events. */
  lemma ResolvedEntryWasAccepted(s: State, e: Entry)
    requires Flowing(s) && EntriesOwn(s) && CanFinish(s)
    requires e in s.delivery.value.entries && Resolves(s.delivery.value, e)
    ensures Serials(LosslessOf(e.events)) <= s.ledger.accepted
  {
    LosslessOfHolds(e.events);
    forall q | q in e.events && q.event.lossless ensures q.serial in s.ledger.accepted {
      FlattenHolds(s.delivery.value.entries, e, q);
      assert Own(e);
    }
  }

  // ---------------------------------------------------------------------------------------------
  // The settlement.

  /** The settlement's position and the accepted ids beyond it are exactly what the host acknowledged. */
  ghost predicate SlotExact(s: State) {
    s.settlement.Some? ==> s.settlement.value.ids != [] && Exact(s.settlement.value, s.ledger.seen)
  }

  lemma HeardIsExact(s: State, qs: seq<Queued>)
    requires SlotExact(s)
    ensures SlotExact(Heard(s, qs))
  {
    if s.settlement.Some? {
      RememberingIsExact(s.settlement.value, s.ledger.seen, IdsOf(qs));
    }
  }

  lemma ReservedIsExact(s: State, events: seq<Event>, runChanged: bool)
    requires SlotExact(s)
    ensures SlotExact(Reserved(s, events, runChanged))
  {
    if CanReserve(s, events, runChanged) {
      assert IdSet(EventIds(events)[..0]) == {};
      assert Distinct(EventIds(events));
    }
  }

  lemma SteppedIsExact(s: State, step: SettlementStep)
    requires SlotExact(s)
    ensures SlotExact(Stepped(s, step))
  {
    if s.settlement.Some? {
      AdvancingIsExact(s.settlement.value, s.ledger.seen);
    }
  }

  lemma SubmittedIsExact(s: State, events: seq<Event>, origin: Origin, runChanged: bool, keyFits: bool)
    requires SlotExact(s)
    ensures SlotExact(Submitted(s, events, origin, runChanged, keyFits).0)
  {
    var c, adoption := SubmittedShape(s, events, origin, runChanged, keyFits);
    var t := AdoptedShape(c, adoption, origin);
  }

  /** The slot's exactness is about the settlement and what was seen of it. */
  lemma SlotExactIsAboutTheSlot(s: State, t: State)
    requires SlotExact(s) && t.settlement == s.settlement && t.ledger.seen == s.ledger.seen
    ensures SlotExact(t)
  {
  }

  lemma ReceiptedIsExact(s: State, n: nat)
    requires SlotExact(s) && CanReceipt(s, n)
    ensures SlotExact(Receipted(s, n))
  {
    SlotExactIsAboutTheSlot(s, Acked(s, n));
    HeardIsExact(Acked(s, n), Acknowledged(s.delivery.value, n));
  }

  lemma PushedIsExact(s: State, n: nat)
    requires SlotExact(s) && CanPush(s, n)
    ensures SlotExact(BestEffortDone(s, n))
  {
    SlotExactIsAboutTheSlot(s, Pushed(s, n));
    HeardIsExact(Pushed(s, n), PushedEvents(s, n));
  }

  lemma SubmittedNextIsExact(s: State, keyFits: bool)
    requires SlotExact(s) && CanSubmitNext(s)
    ensures SlotExact(SubmittedNext(s, keyFits).0)
  {
    var e := SubmittedNextShape(s, keyFits);
    SubmittedIsExact(s, [e], OfSettlement, false, keyFits);
  }

  lemma NextIsExact(s: State, op: Op)
    requires SlotExact(s)
    ensures SlotExact(Next(s, op))
  {
    if op.Submit? {
      SubmittedIsExact(s, op.events, op.origin, op.runChanged, op.keyFits);
    } else if op.SubmitNext? {
      if CanSubmitNext(s) {
        SubmittedNextIsExact(s, op.keyFits);
      }
    } else if op.Receipt? {
      if CanReceipt(s, op.n) {
        ReceiptedIsExact(s, op.n);
      }
    } else if op.PushBestEffort? {
      if CanPush(s, op.n) {
        PushedIsExact(s, op.n);
      }
    } else if op.Reserve? {
      ReservedIsExact(s, op.closing, op.runChanged);
    } else if op.Settle? {
      SteppedIsExact(s, op.to);
    }
  }

  lemma {:induction false} SettlementIsExact(start: State, ops: seq<Op>)
    requires Initial(start)
    ensures SlotExact(Run(start, ops))
  {
    if ops != [] {
      SettlementIsExact(start, ops[..|ops| - 1]);
      NextIsExact(Run(start, ops[..|ops| - 1]), ops[|ops| - 1]);
    }
  }

  /** A terminal can be abandoned only when the host acknowledged all its closing events and not it; its
      copy, if it was pending, is then the one event that goes.  What the host keeps without a receipt
      is not known here. */
  lemma AbandonedTerminalWasNotAcknowledged(start: State, ops: seq<Op>)
    requires Initial(start) && CanAbandon(Run(start, ops))
    ensures var s := Run(start, ops);
            var ids := s.settlement.value.ids;
            && s.ledger.seen == IdSet(ids) - {ids[|ids| - 1]}
            && Abandoned(s).ledger.accepted == s.ledger.accepted
            && (forall q :: q in s.pending.events && q.event.id != ids[|ids| - 1] ==> q.serial !in Abandoned(s).ledger.abandoned - s.ledger.abandoned)
  {
    SettlementIsExact(start, ops);
    var s := Run(start, ops);
    OnlyTheTerminalIsLeft(s.settlement.value, s.ledger.seen);
    WithoutIdHolds(s.pending.events, s.settlement.value.ids[|s.settlement.value.ids| - 1]);
  }
}
