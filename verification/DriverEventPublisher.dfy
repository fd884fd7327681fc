/** The publisher itself: the operations of `EventPublisher` carried out on its fields. */
module DriverEventPublisher {
  import opened Wrappers
  import opened EventAdmission
  import opened EventEntries
  import opened EventDelivery
  import opened EventPromises
  import opened TerminalSettlement
  import opened EventPublisher
  import opened EventFates
  import opened EventBudget
  import opened EventRuns
  import opened EventTheorems
  import opened EventAnswers

  lemma MinusTwice(a: Counters, b: Counters, c: Counters)
    ensures Minus(Minus(a, b), c) == Minus(a, Plus(b, c)) && Minus(a, NONE) == a
  {
  }

  lemma ResolvedOneMore(d: Delivery, i: nat)
    requires i < |d.entries|
    ensures (set j | 0 <= j < i + 1 && Resolves(d, d.entries[j]) :: d.entries[j].id)
            == (set j | 0 <= j < i && Resolves(d, d.entries[j]) :: d.entries[j].id)
               + (if Resolves(d, d.entries[i]) then {d.entries[i].id} else {})
  {
  }

  /** Takes each entry off the counters and decides what its promise becomes. */
  method SettleEntries(d: Delivery, queued: Counters) returns (resolved: set<nat>, counters: Counters)
    ensures counters == Minus(queued, Weight(d.entries))
    ensures resolved == ResolvedEntries(d)
  {
    resolved, counters := {}, queued;
    MinusTwice(queued, NONE, NONE);
    for i := 0 to |d.entries|
      invariant resolved == set j | 0 <= j < i && Resolves(d, d.entries[j]) :: d.entries[j].id
      invariant counters == Minus(queued, Weight(d.entries[..i]))
    {
      assert d.entries[..i + 1][..i] == d.entries[..i];
      MinusTwice(queued, Weight(d.entries[..i]), d.entries[i].weight);
      counters := Minus(counters, d.entries[i].weight);
      ResolvedOneMore(d, i);
      if Resolves(d, d.entries[i]) {
        resolved := resolved + {d.entries[i].id};
      }
    }
    assert d.entries[..|d.entries|] == d.entries;
  }

  lemma DrainedIsUnderway(s: State)
    ensures var t := Drained(s); Underway(t.pending, t.delivery, t.queue) == Underway(s.pending, s.delivery, s.queue)
  {
  }

  /** The list lost the one event, or nothing. */
  ghost predicate TookOut(before: seq<Queued>, after: seq<Queued>, x: Option<Queued>) {
    if x.None? then after == before
    else exists j: nat :: j < |before| && before[j] == x.value && after == WithoutAt(before, j)
  }

  lemma RefusalTakesOut(s: State, id: Id)
    requires Flowing(s) && Trying(s)
    ensures TookOut(Held(s), Held(RefusedById(s, id)), RefusedEvent(s.delivery.value, id))
  {
    if RefusedEvent(s.delivery.value, id).Some? {
      var a, x, b := RefusalSplits(s, id);
      OneTakenOut(a, x, b);
    }
  }

  lemma OneTakenOut(a: seq<Queued>, x: Queued, b: seq<Queued>)
    ensures TookOut(a + [x] + b, a + b, Some(x))
  {
    var all := a + [x] + b;
    assert all[|a|] == x && WithoutAt(all, |a|) == a + b;
  }

  lemma TerminalIsApart(s: State, closing: seq<Event>, runChanged: bool)
    requires CanReserve(s, closing, runChanged)
    ensures closing[|closing| - 1].id !in IdsOf(Underway(s.pending, s.delivery, s.queue))
  {
    assert FindById(Underway(s.pending, s.delivery, s.queue), closing[|closing| - 1].id).None?;
  }

  /** The publisher's fields, after the operations `ops` on a new one. */
  class Publisher {
    var queue: seq<Entry>
    var pending: Pending
    var queued: Counters
    var delivery: Option<Delivery>
    var settlement: Option<Settlement>
    var nextEntry: nat
    var nextSerial: nat
    var promises: Promises
    ghost var ledger: Ledger
    ghost const start: State
    ghost var ops: seq<Op>

    ghost function Now(): State
      reads this
    {
      State(queue, pending, queued, delivery, settlement, nextEntry, promises, ledger)
    }

    /** The serials handed out are those the ledger counts. */
    ghost predicate Numbered()
      reads this
    {
      nextSerial == ledger.next
    }

    ghost predicate Valid()
      reads this
    {
      Numbered() && Reached(start, ops, Now())
    }

    lemma IsRun()
      ensures Valid() <==> Numbered() && Initial(start) && Now() == Run(start, ops)
    {
      ReachedIsRun(start, ops, Now());
    }

    /** So the object carries what holds in every run. */
    lemma Guarantees()
      requires Valid()
      ensures Flowing(Now()) && Counted(Now()) && WithinBudget(Now()) && SlotExact(Now())
    {
      IsRun();
      EveryRunFlows(start, ops);
      CountersAreExact(start, ops);
      BudgetsHold(start, ops);
      SettlementIsExact(start, ops);
    }

    lemma RefusalTakesOutOne(id: Id)
      requires Valid() && Trying(Now())
      ensures TookOut(Held(Now()), Held(RefusedById(Now(), id)), RefusedEvent(delivery.value, id))
    {
      Guarantees();
      RefusalTakesOut(Now(), id);
    }

    constructor ()
      ensures Valid() && ops == []
    {
      queue := [];
      pending := Pending([], 0, 0, false, None);
      queued := NONE;
      delivery := None;
      settlement := None;
      nextEntry := 0;
      nextSerial := 0;
      promises := NO_PROMISES;
      ledger := Ledger(0, {}, {}, {}, {}, {});
      start := State([], Pending([], 0, 0, false, None), NONE, None, None, 0, NO_PROMISES, Ledger(0, {}, {}, {}, {}, {}));
      ops := [];
      new;
      IsRun();
    }

    /** Records an operation that was carried out on the state `before`. */
    ghost method Note(before: State, op: Op)
      requires Numbered() && Reached(start, ops, before) && Now() == Next(before, op)
      modifies this`ops
      ensures Valid() && ops == old(ops) + [op]
    {
      ReachedOneMore(start, ops, before, op);
      ops := ops + [op];
    }

    method Enqueue(e: Entry)
      requires Numbered()
      modifies this
      ensures ops == old(ops)
      ensures Numbered() && Now() == Enqueued(old(Now()), e)
    {
      queue := queue + [e];
      queued := Plus(queued, e.weight);
      nextEntry := nextEntry + 1;
      nextSerial := nextSerial + |e.events|;
      var p := OpenPromises(promises, e.events);
      promises := p.(brought := promises.brought[e.id := Serials(LosslessOf(e.events))]);
      ledger := ledger.(next := ledger.next + |e.events|, admitted := ledger.admitted + Serials(LosslessOf(e.events)));
    }

    /** Admits what is new and asks again for what was adopted. */
    method EnqueueAdopted(adoption: Adoption, origin: Origin) returns (r: Outcome)
      requires Numbered()
      modifies this
      ensures ops == old(ops)
      ensures Numbered() && (Now(), r) == SubmitAdopted(old(Now()), adoption, origin)
    {
      var a := EventAdmission.Nothing;
      if adoption.unseen != [] {
        a := AdmitDriverEventPush(adoption.unseen, UsageOf(pending, queued));
      }
      if a.Refused? {
        return Threw(Admission(a.refusal));
      }
      if a.Nothing? && adoption.ids == [] {
        return Ignored;
      }
      if a.Admitted? && !origin.OfSettlement? && Clashes(a.events, Underway(pending, delivery, queue)) {
        return Threw(IdConflict);
      }
      var admitted: seq<nat> := [];
      if a.Admitted? {
        if a.losslessCount > 0 || a.terminalBatch {
          admitted := [nextEntry];
        }
        Enqueue(AdmittedEntry(a, nextEntry, nextSerial));
      }
      if adoption.ids == [] {
        return Issued(admitted, [], None);
      }
      if !HasPromises(promises, adoption.ids) {
        return Threw(PromiseMissing);
      }
      r := Issued(admitted, PromisesOf(promises, adoption.ids), Some(nextEntry));
      EnqueueRetry(adoption.ids);
    }

    method DoSubmit(events: seq<Event>, origin: Origin, runChanged: bool, keyFits: bool) returns (r: Outcome)
      requires Numbered()
      modifies this
      ensures ops == old(ops)
      ensures Numbered() && (Now(), r) == Submitted(old(Now()), events, origin, runChanged, keyFits)
    {
      if !origin.OfSettlement? && RunTerminals(events) > 0 {
        return Threw(NeedsTerminalPush);
      }
      if origin.OfSession? && settlement.Some? && !settlement.value.cleanupComplete {
        return Threw(SettlementSlotFull);
      }
      if events == [] {
        return Ignored;
      }
      if origin.OfOtherRun? {
        return if HasLossless(events) then Threw(NotTheActiveRun) else Ignored;
      }
      if !origin.OfSettlement? && settlement.Some? && settlement.value.cleanupComplete && runChanged {
        settlement := None;
      }
      if settlement.Some? && origin.OfRun? {
        return if HasLossless(events) then Threw(SettlementSlotFull) else Ignored;
      }
      if pending.terminalKey.Some? && TerminalRetryKey(events, keyFits) == pending.terminalKey {
        r := Issued([nextEntry], [], None);
        EnqueueRetry(PendingIds(pending));
        return;
      }
      if pending.terminalBatch || queued.terminalBatches > 0 {
        return if HasLossless(events) then Threw(TerminalSlotTaken) else Ignored;
      }
      var adoption := Success(Adoption(events, []));
      if !origin.OfSettlement? {
        adoption := AdoptPending(events, Underway(pending, delivery, queue));
      }
      if adoption.Failure? {
        return Threw(adoption.error);
      }
      r := EnqueueAdopted(adoption.value, origin);
    }

    /** A push of the Run, of another Run or of the Session. */
    method SubmitPush(events: seq<Event>, origin: Origin, runChanged: bool, keyFits: bool) returns (r: Outcome)
      requires Valid() && !origin.OfSettlement?
      modifies this
      ensures Valid() && ops == old(ops) + [Submit(events, origin, runChanged, keyFits)]
      ensures Now() == Next(old(Now()), Submit(events, origin, runChanged, keyFits))
      ensures r == Submitted(old(Now()), events, origin, runChanged, keyFits).1
    {
      r := DoSubmit(events, origin, runChanged, keyFits);
      Note(old(Now()), Submit(events, origin, runChanged, keyFits));
    }

    /** The settlement's task goes on with its next event, which it looks for among the pending ones. */
    method SubmitNextOfSettlement(keyFits: bool) returns (r: Outcome)
      requires Valid() && CanSubmitNext(Now())
      modifies this
      ensures Valid() && ops == old(ops) + [SubmitNext(keyFits)] && Now() == Next(old(Now()), SubmitNext(keyFits))
      ensures r == SubmittedNext(old(Now()), keyFits).1
    {
      var st := settlement.value;
      var e := st.events[st.nextIndex];
      if st.nextIndex < |st.events| - 1 && e.id in IdsOf(pending.events) {
        r := Issued([nextEntry], [], None);
        EnqueueRetry([e.id]);
      } else {
        r := DoSubmit([e], OfSettlement, false, keyFits);
      }
      Note(old(Now()), SubmitNext(keyFits));
    }

    method EnqueueRetry(ids: seq<Id>)
      requires Numbered()
      modifies this
      ensures ops == old(ops)
      ensures Numbered() && Now() == Retried(old(Now()), ids)
    {
      Enqueue(RetryEntry(nextEntry, ids));
    }

    method RetryPending(ids: seq<Id>)
      requires Valid()
      modifies this
      ensures Valid() && ops == old(ops) + [Retry(ids)] && Now() == Next(old(Now()), Retry(ids))
    {
      EnqueueRetry(ids);
      Note(old(Now()), Retry(ids));
    }

    /** Takes everything queued into a delivery, behind what is pending; what is held stays the same,
        in the same order. */
    method StartDrain()
      requires Valid()
      modifies this
      ensures Held(Now()) == old(Held(Now()))
      ensures Underway(pending, delivery, queue) == old(Underway(pending, delivery, queue))
      ensures Valid() && ops == old(ops) + [Drain] && Now() == Next(old(Now()), Drain)
    {
      Guarantees();
      DrainedHoldsTheSame(Now());
      DrainedIsUnderway(Now());
      if delivery.None? && (queue != [] || pending.events != []) {
        delivery := Some(Begin(pending, queue));
        queue := [];
      }
      Note(old(Now()), Drain);
    }

    method StartNextBlock()
      requires Valid() && CanStart(Now())
      modifies this
      ensures Valid() && ops == old(ops) + [StartBlock] && Now() == Next(old(Now()), StartBlock)
    {
      var d := delivery.value;
      var end := FindBlockEnd(d.events, d.index);
      if d.events[d.index].event.lossless {
        delivery := Some(d.(phase := Attempting(end, d.events[d.index..end], 0)));
      } else {
        delivery := Some(d.(phase := Pushing(end)));
      }
      Note(old(Now()), StartBlock);
    }

    /** The promises of acknowledged events are kept, and the settlement moves on over their ids. */
    method RememberAccepted(qs: seq<Queued>)
      requires Numbered()
      modifies this
      ensures ops == old(ops)
      ensures Numbered() && Now() == Heard(old(Now()), qs)
    {
      var kept := KeepPromises(promises, qs);
      promises := kept;
      if settlement.None? {
        return;
      }
      var st := settlement.value;
      ledger := ledger.(seen := ledger.seen + IdsOf(qs) * IdSet(st.ids));
      var moved := AdvanceTerminalSettlement(st.(acceptedIds := st.acceptedIds + IdsOf(qs) * IdSet(st.ids)));
      settlement := Some(moved);
    }

    /** The host acknowledged the next `n` events of the attempt. */
    method TakeReceipts(n: nat)
      requires Valid() && CanReceipt(Now(), n)
      modifies this
      ensures Valid() && ops == old(ops) + [Receipt(n)] && Now() == Next(old(Now()), Receipt(n))
    {
      var d := delivery.value;
      var acknowledged := Acknowledged(d, n);
      delivery := Some(Receipts(d, n));
      ledger := ledger.(accepted := ledger.accepted + Serials(acknowledged));
      RememberAccepted(acknowledged);
      Note(old(Now()), Receipt(n));
    }

    method FinishAttempt()
      requires Valid() && CanReturn(Now())
      modifies this
      ensures Valid() && ops == old(ops) + [Return] && Now() == Next(old(Now()), Return)
    {
      delivery := Some(AttemptReturned(delivery.value));
      Note(old(Now()), Return);
    }

    /** The host refused one event for good: the publisher no longer holds that one and holds all the
        others.  A refusal of anything else only ends the delivery. */
    method TakeRefusal(id: Id)
      requires Valid() && Trying(Now())
      modifies this
      ensures TookOut(old(Held(Now())), Held(Now()), RefusedEvent(old(delivery).value, id))
      ensures Valid() && ops == old(ops) + [Refuse(id)] && Now() == Next(old(Now()), Refuse(id))
    {
      RefusalTakesOutOne(id);
      DoRefuse(id);
      Note(old(Now()), Refuse(id));
    }

    method DoRefuse(id: Id)
      requires Numbered() && Trying(Now())
      modifies this
      ensures ops == old(ops)
      ensures Numbered() && Now() == RefusedById(old(Now()), id)
    {
      var d := delivery.value;
      var refused := RefusedEvent(d, id);
      delivery := Some(AttemptRefused(d, id));
      if refused.Some? {
        promises := Break(promises, id);
        ledger := ledger.(rejected := ledger.rejected + {refused.value.serial});
        if settlement.Some? && id in settlement.value.ids {
          settlement := Some(settlement.value.(rejected := true));
        }
      }
    }

    method BreakAttempt()
      requires Valid() && Trying(Now())
      modifies this
      ensures Valid() && ops == old(ops) + [Fail] && Now() == Next(old(Now()), Fail)
    {
      delivery := Some(AttemptFailed(delivery.value));
      Note(old(Now()), Fail);
    }

    method PushBestEffortBlock(n: nat)
      requires Valid() && CanPush(Now(), n)
      modifies this
      ensures Valid() && ops == old(ops) + [PushBestEffort(n)] && Now() == Next(old(Now()), PushBestEffort(n))
    {
      DoPushBlock(n);
      Note(old(Now()), PushBestEffort(n));
    }

    method DoPushBlock(n: nat)
      requires Numbered() && CanPush(Now(), n)
      modifies this
      ensures ops == old(ops)
      ensures Numbered() && Now() == BestEffortDone(old(Now()), n)
    {
      var d := delivery.value;
      var accepted := d.events[d.index..d.index + n];
      delivery := Some(BestEffortPushed(d, n));
      assert Now() == Pushed(old(Now()), n);
      RememberAccepted(accepted);
    }

    lemma EntriesAreToldIff()
      requires Valid() && CanFinish(Now())
      ensures forall e :: e in delivery.value.entries ==>
                (e.id in ResolvedEntries(delivery.value) <==> DeliveredWhole(delivery.value, e, ledger.accepted))
    {
      IsRun();
      forall e | e in delivery.value.entries
        ensures e.id in ResolvedEntries(delivery.value) <==> DeliveredWhole(delivery.value, e, ledger.accepted)
      {
        EntryIsToldIff(start, ops, e);
      }
    }

    /** Keeps what is left as pending, takes the entries off the counters and settles their promises: an
        entry's is resolved exactly when the host acknowledged all that was lossless in it, and refused or
        left over nothing that it asked for again. */
    method FinishDelivery() returns (resolved: set<nat>)
      requires Valid() && CanFinish(Now())
      modifies this
      ensures Valid() && ops == old(ops) + [Finish] && Now() == Next(old(Now()), Finish)
      ensures resolved == ResolvedEntries(old(delivery).value)
      ensures forall e :: e in old(delivery).value.entries ==>
                (e.id in resolved <==> DeliveredWhole(old(delivery).value, e, old(ledger).accepted))
    {
      EntriesAreToldIff();
      var d := delivery.value;
      var left := SetPending(d.remainingLossless, d.terminalKey);
      pending := left;
      var counters: Counters;
      resolved, counters := SettleEntries(d, queued);
      queued := counters;
      delivery := None;
      promises := Forget(promises, IdsOf(d.events) - IdsOf(d.remainingLossless)).(resolved := promises.resolved + resolved);
      Note(old(Now()), Finish);
    }

    /** Takes the terminal slot for a Run's closing events.  The settlement then knows exactly what the
        running delivery has acknowledged of them, and the terminal itself is not on its way. */
    method ReserveTerminal(closing: seq<Event>, runChanged: bool) returns (ok: bool)
      requires Valid()
      modifies this
      ensures Valid() && ops == old(ops) + [Reserve(closing, runChanged)] && Now() == Next(old(Now()), Reserve(closing, runChanged))
      ensures ok <==> CanReserve(old(Now()), closing, runChanged)
      ensures !ok ==> Now() == old(Now())
      ensures ok ==> settlement.Some? && settlement.value.events == closing && settlement.value.ids == EventIds(closing)
                     && Exact(settlement.value, IdSet(EventIds(closing)) * AcceptedInFlight(Now()))
                     && closing[|closing| - 1].id !in IdsOf(Underway(pending, delivery, queue))
    {
      Guarantees();
      ReservedIsExact(Now(), closing, runChanged);
      if CanReserve(Now(), closing, runChanged) {
        TerminalIsApart(Now(), closing, runChanged);
      }
      ok := IsSettlement(closing) && SlotAfter(settlement, runChanged).None? && IsDistinct(closing)
            && !TerminalClashes(closing, Underway(pending, delivery, queue));
      if ok {
        var ids := EventIds(closing);
        var accepted := IdSet(ids) * (if delivery.Some? then delivery.value.acceptedIds else {});
        var rejected := IdSet(ids) * (if delivery.Some? then delivery.value.rejectedIds else {}) != {};
        settlement := Some(Settlement(closing, ids, 0, accepted, true, rejected, false));
        ledger := ledger.(seen := accepted);
      }
      Note(old(Now()), Reserve(closing, runChanged));
    }

    method StepSettlement(step: SettlementStep)
      requires Valid()
      modifies this
      ensures Valid() && ops == old(ops) + [Settle(step)] && Now() == Next(old(Now()), Settle(step))
    {
      if settlement.Some? {
        var st := settlement.value;
        match step {
          case Advance => { st := AdvanceTerminalSettlement(st); }
          case FailTask => { st := st.(running := false); }
          case RestartTask => { st := st.(running := true); }
          case CleanUp =>
            if st.nextIndex >= |st.ids| {
              st := st.(cleanupComplete := true);
            }
        }
        settlement := Some(st);
      }
      Note(old(Now()), Settle(step));
    }

    /** Whether it is not too late to give the terminal up. */
    method CheckAbandon() returns (ok: bool)
      requires settlement.Some? && settlement.value.ids != []
      ensures ok <==> CanAbandon(Now())
    {
      var st := settlement.value;
      if st.running || st.nextIndex != |st.ids| - 1 || st.acceptedIds != {} {
        return false;
      }
      var id := st.ids[|st.ids| - 1];
      if (delivery.Some? && id in IdsOf(delivery.value.events)) || id in IdsOf(Flatten(queue)) {
        return false;
      }
      ok := !TallyOf(WithoutId(pending.events, id)).terminal;
    }

    /** Gives up a completed terminal that lost to a cancellation; throws when it is too late. */
    method AbandonCancelledTerminalSettlement() returns (ok: bool)
      requires Valid() && settlement.Some? && settlement.value.ids != []
      modifies this
      ensures Valid() && ops == old(ops) + [Abandon] && Now() == Next(old(Now()), Abandon)
      ensures ok <==> CanAbandon(old(Now()))
    {
      ok := CheckAbandon();
      if ok {
        GiveUpTerminal();
      }
      Note(old(Now()), Abandon);
    }

    method GiveUpTerminal()
      requires Numbered() && CanAbandon(Now())
      modifies this
      ensures ops == old(ops)
      ensures Numbered() && Now() == Abandoned(old(Now()))
    {
      var id := settlement.value.ids[|settlement.value.ids| - 1];
      var keep := WithoutId(pending.events, id);
      promises := GivenUp(promises, id);
      ledger := ledger.(abandoned := ledger.abandoned + (Serials(pending.events) - Serials(keep)));
      var left := SetPending(keep, None);
      pending := left;
      settlement := None;
    }
  }
}
