/** The promises of the events on their way, in every run.  Several copies of one event may be on their
    way: the settlement's task pushes its next event without looking at the queue or at the delivery. */
module EventLinks {
  import opened Wrappers
  import opened EventAdmission
  import opened EventEntries
  import opened EventDelivery
  import opened EventPromises
  import opened TerminalSettlement
  import opened EventPublisher
  import opened EventFates
  import opened EventRuns

  /** The events of the delivery, or what is pending. */
  function Front(s: State): seq<Queued> {
    if s.delivery.Some? then s.delivery.value.events else s.pending.events
  }

  function OnTheWay(s: State): seq<Queued> {
    Underway(s.pending, s.delivery, s.queue)
  }

  /** The delivery retains events it was given, and pushes best-effort ones only. */
  ghost predicate DeliversItsOwn(d: Option<Delivery>) {
    d.Some? ==>
      && (forall q :: q in d.value.remainingLossless ==> q in d.value.events)
      && (d.value.phase.Pushing? ==>
            forall k :: d.value.index <= k < d.value.phase.bestEffortEnd && k < |d.value.events| ==> !d.value.events[k].event.lossless)
  }

  /** Each promise is for the events on their way with its id, and is kept by a receipt for one of their
      copies only. */
  ghost predicate Promised(s: State) {
    Linked(s.promises, OnTheWay(s)) && KeptWell(s.promises, s.ledger.accepted) && DeliversItsOwn(s.delivery)
  }

  /** What is on its way with the id of a settlement's event is a copy of that event. */
  ghost predicate CopiesOnly(events: seq<Event>, qs: seq<Queued>) {
    forall e, q :: e in events && q in qs && q.event.id == e.id ==> q.event.lossless && q.event.content == e.content
  }

  ghost predicate SlotFits(st: Settlement, qs: seq<Queued>) {
    && IsSettlement(st.events) && IsDistinct(st.events) && st.ids == EventIds(st.events)
    && (st.cleanupComplete ==> |st.ids| <= st.nextIndex)
    && (st.nextIndex < |st.ids| ==> CopiesOnly(st.events, qs))
  }

  ghost predicate SettlementFits(s: State) {
    s.settlement.Some? ==> SlotFits(s.settlement.value, OnTheWay(s))
  }

  // ---------------------------------------------------------------------------------------------
  // Entries come.

  lemma UnderwayOneMore(s: State, e: Entry)
    ensures OnTheWay(Enqueued(s, e)) == OnTheWay(s) + e.events
  {
    FlattenOneMore(s.queue, e);
  }

  lemma {:induction false} OpeningKeeps(p: Promises, qs: seq<Queued>)
    ensures var r := OpenAll(p, qs); r.kept == p.kept && r.broken == p.broken && r.resolved == p.resolved && r.brought == p.brought
  {
    if qs != [] {
      OpeningKeeps(p, qs[..|qs| - 1]);
    }
  }

  lemma EnqueuedIsPromised(s: State, e: Entry)
    requires Promised(s) && DistinctIds(e.events) && AllFit(e.events, OnTheWay(s))
    ensures Promised(Enqueued(s, e))
  {
    UnderwayOneMore(s, e);
    LinkedGrows(s.promises, OnTheWay(s), e.events);
    OpeningKeeps(s.promises, e.events);
  }

  lemma RetriedIsPromised(s: State, ids: seq<Id>)
    requires Promised(s)
    ensures Promised(Retried(s, ids)) && OnTheWay(Retried(s, ids)) == OnTheWay(s)
  {
    EnqueuedIsPromised(s, RetryEntry(s.nextEntry, ids));
    UnderwayOneMore(s, RetryEntry(s.nextEntry, ids));
  }

  /** The event has an id of its own, or is a copy of what is on its way. */
  ghost predicate EventFits(e: Event, qs: seq<Queued>) {
    forall x :: x in qs && x.event.id == e.id ==> x.event.lossless && e.lossless && x.event.content == e.content
  }

  lemma UnclashingFits(events: seq<Event>, qs: seq<Queued>, e: Event)
    requires !Clashes(events, qs) && e in events
    ensures EventFits(e, qs)
  {
    assert e.id !in IdsOf(qs);
    forall x | x in qs ensures x.event.id != e.id {
      assert x.event.id in IdsOf(qs);
    }
  }

  lemma WrappedFit(events: seq<Event>, owner: nat, terminalBatch: bool, serial: nat, qs: seq<Queued>)
    requires UniqueIds(events) && forall e :: e in events ==> EventFits(e, qs)
    ensures var more := Wrap(events, owner, terminalBatch, serial); DistinctIds(more) && AllFit(more, qs)
  {
    var more := Wrap(events, owner, terminalBatch, serial);
    forall q | q in more ensures Fits(q, qs) {
      var i :| 0 <= i < |more| && more[i] == q;
      assert q.event == events[i] && events[i] in events;
      assert EventFits(events[i], qs);
    }
  }

  lemma AdmittedAreSubmitted(events: seq<Event>, u: Usage, e: Event)
    requires AdmissionOf(events, u).Admitted? && e in AdmissionOf(events, u).events
    ensures e in events
  {
    AdmissionTakes(events, u);
    LosslessHolds(events);
  }

  lemma AdmittedIsPromised(s: State, events: seq<Event>)
    requires Promised(s) && AdmissionOf(events, UsageOf(s.pending, s.queued)).Admitted?
    requires forall e :: e in AdmissionOf(events, UsageOf(s.pending, s.queued)).events ==> EventFits(e, OnTheWay(s))
    ensures Promised(Enqueued(s, AdmittedEntry(AdmissionOf(events, UsageOf(s.pending, s.queued)), s.nextEntry, s.ledger.next)))
  {
    var a := AdmissionOf(events, UsageOf(s.pending, s.queued));
    AdmissionTakes(events, UsageOf(s.pending, s.queued));
    WrappedFit(a.events, s.nextEntry, a.terminalBatch, s.ledger.next, OnTheWay(s));
    EnqueuedIsPromised(s, AdmittedEntry(a, s.nextEntry, s.ledger.next));
  }

  lemma SubmittedAdoptedIsPromised(s: State, adoption: Adoption, origin: Origin) returns (t: State)
    requires Promised(s) && (origin.OfSettlement? ==> forall e :: e in adoption.unseen ==> EventFits(e, OnTheWay(s)))
    ensures Promised(t) && Promised(SubmitAdopted(s, adoption, origin).0)
    ensures t == s || (var a := AdmissionOf(adoption.unseen, UsageOf(s.pending, s.queued));
                       a.Admitted? && t == Enqueued(s, AdmittedEntry(a, s.nextEntry, s.ledger.next)))
    ensures forall q :: q in OnTheWay(s) ==> q in OnTheWay(t)
    ensures SubmitAdopted(s, adoption, origin).1 == Threw(PromiseMissing) ==> !HasPromises(t.promises, adoption.ids)
  {
    t := AdoptedShape(s, adoption, origin);
    if t != s {
      var u := UsageOf(s.pending, s.queued);
      forall e | e in AdmissionOf(adoption.unseen, u).events ensures EventFits(e, OnTheWay(s)) {
        AdmittedAreSubmitted(adoption.unseen, u, e);
        if !origin.OfSettlement? {
          UnclashingFits(AdmissionOf(adoption.unseen, u).events, OnTheWay(s), e);
        }
      }
      AdmittedIsPromised(s, adoption.unseen);
      UnderwayOneMore(s, AdmittedEntry(AdmissionOf(adoption.unseen, u), s.nextEntry, s.ledger.next));
    }
    RetriedIsPromised(t, adoption.ids);
  }

  /** Steps that leave the events on their way, their promises and the past receipts alone. */
  lemma PromisedStays(s: State, t: State)
    requires Promised(s) && Front(t) == Front(s) && t.queue == s.queue && DeliversItsOwn(t.delivery)
    requires t.promises.current == s.promises.current && t.promises.kept == s.promises.kept
    requires t.promises.forgotten == s.promises.forgotten && s.ledger.accepted <= t.ledger.accepted
    ensures Promised(t) && OnTheWay(t) == OnTheWay(s)
  {
  }

  lemma SubmittedIsPromised(s: State, events: seq<Event>, origin: Origin, runChanged: bool, keyFits: bool)
    requires Promised(s) && (origin.OfSettlement? ==> forall e :: e in events ==> EventFits(e, OnTheWay(s)))
    ensures Promised(Submitted(s, events, origin, runChanged, keyFits).0)
  {
    var c, adoption := SubmittedShape(s, events, origin, runChanged, keyFits);
    PromisedStays(s, c);
    RetriedIsPromised(c, PendingIds(c.pending));
    if origin.OfSettlement? ==> adoption == Adoption(events, []) {
      var t := SubmittedAdoptedIsPromised(c, adoption, origin);
    }
  }

  lemma NextOfSettlementFits(s: State)
    requires SettlementFits(s) && CanSubmitNext(s)
    ensures EventFits(s.settlement.value.events[s.settlement.value.nextIndex], OnTheWay(s))
  {
    var st := s.settlement.value;
    assert st.events[st.nextIndex] in st.events;
  }

  lemma SubmittedNextIsPromised(s: State, keyFits: bool)
    requires Promised(s) && SettlementFits(s) && CanSubmitNext(s)
    ensures Promised(SubmittedNext(s, keyFits).0)
  {
    var e := SubmittedNextShape(s, keyFits);
    NextOfSettlementFits(s);
    RetriedIsPromised(s, [e.id]);
    SubmittedIsPromised(s, [e], OfSettlement, false, keyFits);
  }

  // ---------------------------------------------------------------------------------------------
  // Deliveries go on.

  lemma DrainedIsPromised(s: State)
    requires Promised(s)
    ensures Promised(Drained(s)) && OnTheWay(Drained(s)) == OnTheWay(s)
  {
    LosslessOfHolds(s.pending.events + Flatten(s.queue));
  }

  lemma BlockIsPromised(s: State)
    requires Promised(s) && CanStart(s)
    ensures Promised(s.(delivery := Some(NextBlock(s.delivery.value))))
  {
    var d := s.delivery.value;
    assert BlockEnd(d.events, d.index + 1, d.events[d.index].event.lossless) >= d.index;
    PromisedStays(s, s.(delivery := Some(NextBlock(d))));
  }

  lemma ReceiptsKeepItsOwn(d: Delivery, n: nat)
    requires Positioned(d) && AllLossless(d.remainingLossless) && DeliversItsOwn(Some(d))
    requires d.phase.Attempting? && d.phase.accepted + n <= |d.phase.remaining|
    ensures DeliversItsOwn(Some(Receipts(d, n)))
    ensures forall q :: q in Acknowledged(d, n) ==> q in d.events && q.event.lossless
  {
    SpliceRemovesAcknowledged(d, n);
    assert forall q :: q in Acknowledged(d, n) || q in Receipts(d, n).remainingLossless ==> q in d.remainingLossless;
  }

  lemma ReceiptedIsPromised(s: State, n: nat)
    requires Promised(s) && Flowing(s) && CanReceipt(s, n)
    ensures Promised(Receipted(s, n)) && OnTheWay(Receipted(s, n)) == OnTheWay(s)
  {
    var heard := Acknowledged(s.delivery.value, n);
    ReceiptsKeepItsOwn(s.delivery.value, n);
    assert forall q :: q in heard ==> q.serial in Serials(heard);
    ReceiptsKeep(s.promises, OnTheWay(s), s.ledger.accepted + Serials(heard), heard);
  }

  lemma PushedIsPromised(s: State, n: nat)
    requires Promised(s) && CanPush(s, n)
    ensures Promised(BestEffortDone(s, n)) && OnTheWay(BestEffortDone(s, n)) == OnTheWay(s)
  {
    var heard := PushedEvents(s, n);
    assert forall q :: q in heard ==> q in s.delivery.value.events && !q.event.lossless;
    ReceiptsKeep(s.promises, OnTheWay(s), s.ledger.accepted, heard);
  }

  lemma RefusalKeepsItsOwn(d: Delivery, id: Id)
    requires Positioned(d) && Rising(d.remainingLossless) && d.phase.Attempting? && d.phase.accepted <= |d.phase.remaining|
    requires DeliversItsOwn(Some(d))
    ensures DeliversItsOwn(Some(AttemptRefused(d, id))) && AttemptRefused(d, id).events == d.events
  {
    if RefusedEvent(d, id).Some? {
      var j := RefusalRemovesOne(d, id);
      assert forall q :: q in WithoutAt(d.remainingLossless, j) ==> q in d.remainingLossless;
    }
  }

  lemma RefusedIsPromised(s: State, id: Id)
    requires Promised(s) && Flowing(s) && Trying(s)
    ensures Promised(RefusedById(s, id)) && OnTheWay(RefusedById(s, id)) == OnTheWay(s)
  {
    RisingApart(s.delivery.value.remainingLossless, LosslessOf(Flatten(s.queue)));
    RefusalKeepsItsOwn(s.delivery.value, id);
    PromisedStays(s, RefusedById(s, id));
  }

  lemma DisownedIsLeft(left: seq<Queued>, given: seq<Queued>, queued: seq<Queued>)
    requires forall q :: q in left ==> q in given
    ensures LeftOf(Disowned(left) + queued, given + queued) && IdsOf(Disowned(left)) == IdsOf(left)
  {
    forall q | q in Disowned(left) + queued ensures exists x :: x in given + queued && SameEvent(x, q) {
      if q in queued {
        assert q in given + queued && SameEvent(q, q);
      } else {
        var i :| 0 <= i < |left| && Disowned(left)[i] == q;
        assert left[i] in left && left[i] in given + queued && SameEvent(left[i], q);
      }
    }
    SameIds(left);
  }

  lemma SameIds(qs: seq<Queued>)
    ensures IdsOf(Disowned(qs)) == IdsOf(qs)
  {
    forall id | id in IdsOf(qs) ensures id in IdsOf(Disowned(qs)) {
      var i :| 0 <= i < |qs| && qs[i].event.id == id;
      assert Disowned(qs)[i] in Disowned(qs);
    }
    forall id | id in IdsOf(Disowned(qs)) ensures id in IdsOf(qs) {
      var i :| 0 <= i < |qs| && Disowned(qs)[i].event.id == id;
      assert qs[i] in qs;
    }
  }

  lemma IdsConcat(a: seq<Queued>, b: seq<Queued>)
    ensures IdsOf(a + b) == IdsOf(a) + IdsOf(b)
  {
    assert forall q :: q in a + b <==> q in a || q in b;
  }

  /** Of the events on their way, `left` stays, the others of `given` go, and what is queued stays. */
  lemma LinkedLeftover(p: Promises, given: seq<Queued>, left: seq<Queued>, queued: seq<Queued>, gone: set<Id>)
    requires Linked(p, given + queued) && forall q :: q in left ==> q in given
    requires forall id :: id in IdsOf(given) && id !in gone ==> id in IdsOf(left) + IdsOf(queued)
    ensures Linked(Forget(p, gone), Disowned(left) + queued)
  {
    DisownedIsLeft(left, given, queued);
    IdsConcat(Disowned(left), queued);
    IdsConcat(given, queued);
    forall id | id in p.current && id !in gone ensures id in IdsOf(Disowned(left) + queued) {
      assert IsFor(p.current[id], id, given + queued);
    }
    LinkedShrinks(p, given + queued, Disowned(left) + queued, gone);
  }

  lemma FinishedOnTheWay(s: State)
    requires CanFinish(s)
    ensures OnTheWay(Finished(s)) == Disowned(s.delivery.value.remainingLossless) + Flatten(s.queue)
  {
  }

  lemma DeliveredAreLinked(s: State)
    requires Promised(s) && CanFinish(s)
    ensures var d := s.delivery.value;
            Linked(Forget(s.promises, IdsOf(d.events) - IdsOf(d.remainingLossless)),
                   Disowned(d.remainingLossless) + Flatten(s.queue))
  {
    var d := s.delivery.value;
    LinkedLeftover(s.promises, d.events, d.remainingLossless, Flatten(s.queue), IdsOf(d.events) - IdsOf(d.remainingLossless));
  }

  /** Between deliveries only the promises and the past receipts count. */
  lemma PromisedFrom(t: State, p: Promises, qs: seq<Queued>)
    requires t.delivery.None? && OnTheWay(t) == qs && Linked(p, qs) && KeptWell(p, t.ledger.accepted)
    requires t.promises.current == p.current && t.promises.kept == p.kept && t.promises.forgotten == p.forgotten
    ensures Promised(t)
  {
  }

  lemma FinishedIsPromised(s: State)
    requires Promised(s) && CanFinish(s)
    ensures Promised(Finished(s)) && LeftOf(OnTheWay(Finished(s)), OnTheWay(s))
  {
    var d := s.delivery.value;
    var p := Forget(s.promises, IdsOf(d.events) - IdsOf(d.remainingLossless));
    FinishedOnTheWay(s);
    DeliveredAreLinked(s);
    assert KeptWell(p, s.ledger.accepted);
    PromisedFrom(Finished(s), p, OnTheWay(Finished(s)));
    DisownedIsLeft(d.remainingLossless, d.events, Flatten(s.queue));
  }

  lemma BrokenIsLinked(p: Promises, id: Id, qs: seq<Queued>)
    requires Linked(p, qs)
    ensures Linked(Break(p, id), qs)
  {
  }

  lemma KeptIsPromised(s: State, id: Id)
    requires Promised(s) && s.delivery.None?
    ensures var keep := WithoutId(s.pending.events, id); Linked(Forget(Break(s.promises, id), {id}), Disowned(keep) + Flatten(s.queue))
  {
    var keep := WithoutId(s.pending.events, id);
    WithoutIdHolds(s.pending.events, id);
    BrokenIsLinked(s.promises, id, OnTheWay(s));
    forall x | x in IdsOf(s.pending.events) && x != id ensures x in IdsOf(keep) {
      var q :| q in s.pending.events && q.event.id == x;
      assert q in keep;
    }
    LinkedLeftover(Break(s.promises, id), s.pending.events, keep, Flatten(s.queue), {id});
  }

  lemma LinkedForgets(p: Promises, qs: seq<Queued>, id: Id)
    requires Linked(p, qs) && id !in IdsOf(qs)
    ensures Linked(Forget(p, {id}), qs)
  {
    forall x | x in p.current && x != id ensures x in IdsOf(qs) {
      assert IsFor(p.current[x], x, qs);
    }
    assert LeftOf(qs, qs) by {
      forall q | q in qs ensures exists x :: x in qs && SameEvent(x, q) {
        assert SameEvent(q, q);
      }
    }
    LinkedShrinks(p, qs, qs, {id});
  }

  lemma AbandonedIsPromised(s: State)
    requires Promised(s) && CanAbandon(s)
    ensures Promised(Abandoned(s))
  {
    var id := s.settlement.value.ids[|s.settlement.value.ids| - 1];
    if s.delivery.Some? {
      IdsConcat(s.delivery.value.events, Flatten(s.queue));
      BrokenIsLinked(s.promises, id, OnTheWay(s));
      LinkedForgets(Break(s.promises, id), OnTheWay(s), id);
    } else {
      KeptIsPromised(s, id);
    }
  }

  lemma AttemptOverIsPromised(s: State, op: Op)
    requires Promised(s) && (op.Return? || op.Fail?)
    ensures Promised(Next(s, op)) && OnTheWay(Next(s, op)) == OnTheWay(s)
  {
    PromisedStays(s, Next(s, op));
  }

  lemma SlotStepsApart(s: State, op: Op)
    requires op.Reserve? || op.Settle?
    ensures var t := Next(s, op);
            && t.queue == s.queue && t.delivery == s.delivery && t.pending == s.pending && t.promises == s.promises
            && t.ledger.accepted == s.ledger.accepted
  {
  }

  lemma SlotStepIsPromised(s: State, op: Op)
    requires Promised(s) && (op.Reserve? || op.Settle?)
    ensures Promised(Next(s, op)) && OnTheWay(Next(s, op)) == OnTheWay(s)
  {
    SlotStepsApart(s, op);
    PromisedStays(s, Next(s, op));
  }

  lemma NextIsPromised(s: State, op: Op)
    requires Promised(s) && SettlementFits(s) && Flowing(s)
    ensures Promised(Next(s, op))
  {
    match op {
      case Submit(events, origin, runChanged, keyFits) =>
        if !origin.OfSettlement? { SubmittedIsPromised(s, events, origin, runChanged, keyFits); }
      case SubmitNext(keyFits) => if CanSubmitNext(s) { SubmittedNextIsPromised(s, keyFits); }
      case Retry(ids) => RetriedIsPromised(s, ids);
      case Drain => DrainedIsPromised(s);
      case StartBlock => if CanStart(s) { BlockIsPromised(s); }
      case Receipt(n) => if CanReceipt(s, n) { ReceiptedIsPromised(s, n); }
      case Refuse(id) => if Trying(s) { RefusedIsPromised(s, id); }
      case PushBestEffort(n) => if CanPush(s, n) { PushedIsPromised(s, n); }
      case Finish => if CanFinish(s) { FinishedIsPromised(s); }
      case Abandon => if CanAbandon(s) { AbandonedIsPromised(s); }
      case Return => AttemptOverIsPromised(s, op);
      case Fail => AttemptOverIsPromised(s, op);
      case _ => SlotStepIsPromised(s, op);
    }
  }

  // ---------------------------------------------------------------------------------------------
  // The settlement's events.

  lemma CopiesLeft(events: seq<Event>, qs: seq<Queued>, left: seq<Queued>)
    requires CopiesOnly(events, qs) && LeftOf(left, qs)
    ensures CopiesOnly(events, left)
  {
    forall e, q | e in events && q in left && q.event.id == e.id ensures q.event.lossless && q.event.content == e.content {
      var x :| x in qs && SameEvent(x, q);
    }
  }

  lemma {:induction false} AdvancedMoves(st: Settlement)
    ensures var r := Advanced(st);
            && r.events == st.events && r.ids == st.ids && r.running == st.running && r.cleanupComplete == st.cleanupComplete
            && st.nextIndex <= r.nextIndex
    decreases |st.ids| - st.nextIndex
  {
    if st.nextIndex < |st.ids| && st.ids[st.nextIndex] in st.acceptedIds {
      AdvancedMoves(st.(nextIndex := st.nextIndex + 1, acceptedIds := st.acceptedIds - {st.ids[st.nextIndex]}));
    }
  }

  /** The settlement goes on with the same events, no further back, and nothing new comes on its way. */
  ghost predicate GoesOn(s: State, t: State) {
    && t.settlement.Some? ==>
         && s.settlement.Some?
         && var st, u := s.settlement.value, t.settlement.value;
            && u.events == st.events && u.ids == st.ids && st.nextIndex <= u.nextIndex
            && (u.cleanupComplete ==> st.cleanupComplete || |u.ids| <= u.nextIndex)
  }

  lemma SlotStays(s: State, t: State)
    requires SettlementFits(s) && GoesOn(s, t)
    requires t.settlement.Some? && t.settlement.value.nextIndex < |t.settlement.value.ids| ==> LeftOf(OnTheWay(t), OnTheWay(s))
    ensures SettlementFits(t)
  {
    if t.settlement.Some? && t.settlement.value.nextIndex < |t.settlement.value.ids| {
      CopiesLeft(s.settlement.value.events, OnTheWay(s), OnTheWay(t));
    }
  }

  lemma AllLeft(qs: seq<Queued>)
    ensures LeftOf(qs, qs)
  {
    forall q | q in qs ensures exists x :: x in qs && SameEvent(x, q) {
      assert SameEvent(q, q);
    }
  }

  lemma HeardGoesOn(s: State, qs: seq<Queued>)
    ensures GoesOn(s, Heard(s, qs))
  {
    if s.settlement.Some? {
      AdvancedMoves(s.settlement.value.(acceptedIds := s.settlement.value.acceptedIds + IdsOf(qs) * IdSet(s.settlement.value.ids)));
    }
  }

  /** A push that is not the settlement's own does nothing while a settlement has events left. */
  lemma SlotRefusesPushes(s: State, events: seq<Event>, origin: Origin, runChanged: bool, keyFits: bool)
    requires !origin.OfSettlement? && s.settlement.Some? && !s.settlement.value.cleanupComplete
    ensures Submitted(s, events, origin, runChanged, keyFits).0 == s
  {
  }

  lemma SubmittedKeepsTheSlot(s: State, events: seq<Event>, origin: Origin, runChanged: bool, keyFits: bool)
    ensures var r := Submitted(s, events, origin, runChanged, keyFits).0; r.settlement == s.settlement || r.settlement.None?
  {
    var c, adoption := SubmittedShape(s, events, origin, runChanged, keyFits);
    var t := AdoptedShape(c, adoption, origin);
  }

  lemma SubmittedGoesOn(s: State, events: seq<Event>, origin: Origin, runChanged: bool, keyFits: bool)
    requires !origin.OfSettlement?
    ensures var r := Submitted(s, events, origin, runChanged, keyFits).0;
            GoesOn(s, r) && (r.settlement.Some? && !r.settlement.value.cleanupComplete ==> r == s)
  {
    SubmittedKeepsTheSlot(s, events, origin, runChanged, keyFits);
    if s.settlement.Some? && !s.settlement.value.cleanupComplete {
      SlotRefusesPushes(s, events, origin, runChanged, keyFits);
    }
  }

  lemma SubmittedFits(s: State, events: seq<Event>, origin: Origin, runChanged: bool, keyFits: bool)
    requires SettlementFits(s) && !origin.OfSettlement?
    ensures SettlementFits(Submitted(s, events, origin, runChanged, keyFits).0)
  {
    SubmittedGoesOn(s, events, origin, runChanged, keyFits);
    AllLeft(OnTheWay(s));
    SlotStays(s, Submitted(s, events, origin, runChanged, keyFits).0);
  }

  lemma CopyComes(events: seq<Event>, qs: seq<Queued>, more: seq<Queued>, e: Event)
    requires CopiesOnly(events, qs) && IsDistinct(events) && e in events && e.lossless
    requires forall q :: q in more ==> q.event == e
    ensures CopiesOnly(events, qs + more)
  {
    forall x, q | x in events && q in qs + more && q.event.id == x.id ensures q.event.lossless && q.event.content == x.content {
      if q in more {
        var i :| 0 <= i < |events| && events[i] == x;
        var j :| 0 <= j < |events| && events[j] == e;
        assert i == j;
      }
    }
  }

  lemma WrapsOne(e: Event, u: Usage, owner: nat, serial: nat)
    requires AdmissionOf([e], u).Admitted?
    ensures forall q :: q in AdmittedEntry(AdmissionOf([e], u), owner, serial).events ==> q.event == e
  {
    var a := AdmissionOf([e], u);
    forall q | q in AdmittedEntry(a, owner, serial).events ensures q.event == e {
      var i :| 0 <= i < |a.events| && Wrap(a.events, owner, a.terminalBatch, serial)[i] == q;
      AdmittedAreSubmitted([e], u, a.events[i]);
    }
  }

  lemma SubmittedNextFits(s: State, keyFits: bool)
    requires SettlementFits(s) && CanSubmitNext(s)
    ensures SettlementFits(SubmittedNext(s, keyFits).0)
  {
    var e := SubmittedNextShape(s, keyFits);
    var st := s.settlement.value;
    UnderwayOneMore(s, RetryEntry(s.nextEntry, [e.id]));
    var c, adoption := SubmittedShape(s, [e], OfSettlement, false, keyFits);
    UnderwayOneMore(s, RetryEntry(s.nextEntry, PendingIds(s.pending)));
    var t := AdoptedShape(s, Adoption([e], []), OfSettlement);
    if t != s {
      var entry := AdmittedEntry(AdmissionOf([e], UsageOf(s.pending, s.queued)), s.nextEntry, s.ledger.next);
      WrapsOne(e, UsageOf(s.pending, s.queued), s.nextEntry, s.ledger.next);
      UnderwayOneMore(s, entry);
      CopyComes(st.events, OnTheWay(s), entry.events, e);
    }
    UnderwayOneMore(t, RetryEntry(t.nextEntry, []));
  }

  lemma ReservedFits(s: State, events: seq<Event>, runChanged: bool)
    requires SettlementFits(s) && Promised(s)
    ensures SettlementFits(Reserved(s, events, runChanged))
  {
    if CanReserve(s, events, runChanged) {
      forall e, q | e in events && q in OnTheWay(s) && q.event.id == e.id ensures q.event.lossless && q.event.content == e.content {
        var i :| 0 <= i < |events| && events[i] == e;
        var found := FindById(OnTheWay(s), e.id);
        assert q.event.id in IdsOf(OnTheWay(s));
        assert SameEvent(q, found.value) || Agree(q, found.value);
      }
    }
  }

  lemma SteppedFits(s: State, step: SettlementStep)
    requires SettlementFits(s)
    ensures SettlementFits(Stepped(s, step))
  {
    if s.settlement.Some? {
      AdvancedMoves(s.settlement.value);
      AllLeft(OnTheWay(s));
      SlotStays(s, Stepped(s, step));
    }
  }

  predicate InDelivery(op: Op) {
    op.Drain? || op.StartBlock? || op.Receipt? || op.Return? || op.Refuse? || op.Fail? || op.PushBestEffort? || op.Finish?
  }

  lemma DeliveryGoesOn(s: State, op: Op)
    requires InDelivery(op)
    ensures GoesOn(s, Next(s, op))
  {
    match op {
      case Receipt(n) => if CanReceipt(s, n) { HeardGoesOn(Acked(s, n), Acknowledged(s.delivery.value, n)); }
      case PushBestEffort(n) => if CanPush(s, n) { HeardGoesOn(Pushed(s, n), PushedEvents(s, n)); }
      case _ =>
    }
  }

  lemma DeliveryBringsNothing(s: State, op: Op)
    requires Promised(s) && Flowing(s) && InDelivery(op)
    ensures LeftOf(OnTheWay(Next(s, op)), OnTheWay(s))
  {
    AllLeft(OnTheWay(s));
    match op {
      case Drain => DrainedIsPromised(s);
      case Receipt(n) => if CanReceipt(s, n) { ReceiptedIsPromised(s, n); }
      case Refuse(id) => if Trying(s) { RefusedIsPromised(s, id); }
      case PushBestEffort(n) => if CanPush(s, n) { PushedIsPromised(s, n); }
      case Finish => if CanFinish(s) { FinishedIsPromised(s); }
      case _ =>
    }
  }

  lemma NextFits(s: State, op: Op)
    requires SettlementFits(s) && Promised(s) && Flowing(s)
    ensures SettlementFits(Next(s, op))
  {
    if InDelivery(op) {
      DeliveryGoesOn(s, op);
      DeliveryBringsNothing(s, op);
      SlotStays(s, Next(s, op));
    } else if op.Submit? {
      if !op.origin.OfSettlement? {
        SubmittedFits(s, op.events, op.origin, op.runChanged, op.keyFits);
      }
    } else if op.SubmitNext? {
      if CanSubmitNext(s) {
        SubmittedNextFits(s, op.keyFits);
      }
    } else if op.Reserve? {
      ReservedFits(s, op.closing, op.runChanged);
    } else if op.Settle? {
      SteppedFits(s, op.to);
    } else if op.Retry? {
      UnderwayOneMore(s, RetryEntry(s.nextEntry, op.ids));
    }
  }

  // ---------------------------------------------------------------------------------------------
  // Every run.

  lemma InitiallyPromised(s: State)
    requires Initial(s)
    ensures Promised(s) && SettlementFits(s)
  {
    assert |OnTheWay(s)| == 0 && OnTheWay(s) == [];
  }

  /** In every run each promise is for the events on their way with its id, all copies of one event, and is
      kept by a receipt for one of them only; and a lossless event on its way has a promise exactly when
      its id's promise was not forgotten since. */
  lemma {:induction false} EveryRunPromises(start: State, ops: seq<Op>)
    requires Initial(start)
    ensures Promised(Run(start, ops)) && SettlementFits(Run(start, ops))
  {
    if ops == [] {
      InitiallyPromised(start);
    } else {
      var shorter, op := ops[..|ops| - 1], ops[|ops| - 1];
      EveryRunPromises(start, shorter);
      EveryRunFlows(start, shorter);
      NextIsPromised(Run(start, shorter), op);
      NextFits(Run(start, shorter), op);
    }
  }
}
