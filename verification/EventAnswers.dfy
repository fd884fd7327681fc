/** What a push is told, exactly: when its entry resolves and when a promise it waits for is kept. */
module EventAnswers {
  import opened Wrappers
  import opened EventAdmission
  import opened EventEntries
  import opened EventDelivery
  import opened EventPromises
  import opened EventPublisher
  import opened EventFates
  import opened EventBudget
  import opened EventRuns
  import opened EventTheorems
  import opened EventLinks
  import opened EventAcknowledgements

  // ---------------------------------------------------------------------------------------------
  // Entries.

  /** A request brings no events, and a push asks for none again. */
  predicate WellMade(e: Entry) {
    if e.awaitPending then e.events == [] else e.retryIds == []
  }

  ghost predicate IdsRise(entries: seq<Entry>) {
    forall i, j :: 0 <= i < j < |entries| ==> entries[i].id < entries[j].id
  }

  ghost predicate EntriesBelow(entries: seq<Entry>, bound: nat) {
    forall e :: e in entries ==> e.id < bound && WellMade(e)
  }

  /** Entries are numbered in the order in which they were queued. */
  ghost predicate Ordered(s: State) {
    IdsRise(Delivering(s)) && IdsRise(s.queue) && EntriesBelow(Delivering(s) + s.queue, s.nextEntry)
  }

  lemma EnqueuedIsOrdered(s: State, e: Entry)
    requires Ordered(s) && e.id == s.nextEntry && WellMade(e)
    ensures Ordered(Enqueued(s, e))
  {
    var t := Enqueued(s, e);
    forall i, j | 0 <= i < j < |t.queue| ensures t.queue[i].id < t.queue[j].id {
      if j == |s.queue| {
        assert s.queue[i] in Delivering(s) + s.queue;
      }
    }
    forall x | x in Delivering(t) + t.queue ensures x.id < t.nextEntry && WellMade(x) {
      assert x in Delivering(s) + s.queue || x == e;
    }
  }

  lemma SubmittedIsOrdered(s: State, events: seq<Event>, origin: Origin, runChanged: bool, keyFits: bool)
    requires Ordered(s)
    ensures Ordered(Submitted(s, events, origin, runChanged, keyFits).0)
  {
    var c, adoption := SubmittedShape(s, events, origin, runChanged, keyFits);
    assert Ordered(c);
    EnqueuedIsOrdered(c, RetryEntry(c.nextEntry, PendingIds(c.pending)));
    var t := AdoptedShape(c, adoption, origin);
    if t != c {
      EnqueuedIsOrdered(c, AdmittedEntry(AdmissionOf(adoption.unseen, UsageOf(c.pending, c.queued)), c.nextEntry, c.ledger.next));
    }
    EnqueuedIsOrdered(t, RetryEntry(t.nextEntry, adoption.ids));
  }

  lemma SameEntriesOrdered(s: State, t: State)
    requires Ordered(s) && SameEntries(s, t)
    ensures Ordered(t)
  {
  }

  lemma DrainedIsOrdered(s: State)
    requires Ordered(s)
    ensures Ordered(Drained(s))
  {
    if Drained(s) != s {
      assert Delivering(Drained(s)) == s.queue;
    }
  }

  lemma FinishedIsOrdered(s: State)
    requires Ordered(s) && CanFinish(s)
    ensures Ordered(Finished(s))
  {
    assert forall e :: e in s.queue ==> e in Delivering(s) + s.queue;
  }

  lemma NextIsOrdered(s: State, op: Op)
    requires Ordered(s)
    ensures Ordered(Next(s, op))
  {
    if op.Submit? {
      SubmittedIsOrdered(s, op.events, op.origin, op.runChanged, op.keyFits);
    } else if op.SubmitNext? {
      if CanSubmitNext(s) {
        var e := SubmittedNextShape(s, op.keyFits);
        EnqueuedIsOrdered(s, RetryEntry(s.nextEntry, [e.id]));
        SubmittedIsOrdered(s, [e], OfSettlement, false, op.keyFits);
      }
    } else if op.Retry? {
      EnqueuedIsOrdered(s, RetryEntry(s.nextEntry, op.ids));
    } else if op.Drain? {
      DrainedIsOrdered(s);
    } else if op.Finish? {
      if CanFinish(s) {
        FinishedIsOrdered(s);
      }
    } else {
      OthersKeepEntries(s, op);
      SameEntriesOrdered(s, Next(s, op));
    }
  }

  lemma {:induction false} EveryRunIsOrdered(start: State, ops: seq<Op>)
    requires Initial(start)
    ensures Ordered(Run(start, ops))
  {
    if ops == [] {
      assert |Delivering(start)| == 0 && Delivering(start) + start.queue == [];
    } else {
      EveryRunIsOrdered(start, ops[..|ops| - 1]);
      NextIsOrdered(Run(start, ops[..|ops| - 1]), ops[|ops| - 1]);
    }
  }

  // ---------------------------------------------------------------------------------------------
  // Errors.

  /** Something the entry brought was refused, or something it asked for again was refused in this delivery. */
  ghost predicate HasRefused(d: Delivery, e: Entry, rejected: set<nat>) {
    || (exists q :: q in e.events && q.event.lossless && q.serial in rejected)
    || (exists id :: id in e.retryIds && id in d.rejectedIds)
  }

  /** An entry has an error exactly when the host refused something of it. */
  ghost predicate ErrorsExact(s: State) {
    s.delivery.Some? ==>
      forall e :: e in s.delivery.value.entries ==> (e.id in s.delivery.value.ownerErrors <==> HasRefused(s.delivery.value, e, s.ledger.rejected))
  }

  lemma {:induction false} FlattenHas(entries: seq<Entry>, q: Queued) returns (e: Entry)
    requires q in Flatten(entries)
    ensures e in entries && q in e.events
  {
    if q in entries[|entries| - 1].events {
      e := entries[|entries| - 1];
    } else {
      e := FlattenHas(entries[..|entries| - 1], q);
    }
  }

  lemma SameId(entries: seq<Entry>, e: Entry, f: Entry)
    requires IdsRise(entries) && e in entries && f in entries && e.id == f.id
    ensures e == f
  {
    var i :| 0 <= i < |entries| && entries[i] == e;
    var j :| 0 <= j < |entries| && entries[j] == f;
  }

  /** An event of the delivery that is owned is one of its owner's. */
  lemma OwnedIsBrought(s: State, e: Entry, q: Queued)
    requires Flowing(s) && EntriesOwn(s) && Ordered(s) && s.delivery.Some? && e in s.delivery.value.entries
    requires q in s.delivery.value.events && q.owner == Some(e.id)
    ensures q in e.events
  {
    var d := s.delivery.value;
    assert q !in s.pending.events;
    var f := FlattenHas(d.entries, q);
    assert Own(f);
    SameId(d.entries, e, f);
  }

  /** What an entry brought and is still held was neither accepted nor rejected. */
  lemma HeldIsUndecided(s: State, q: Queued)
    requires Flowing(s) && s.delivery.Some? && q in s.delivery.value.remainingLossless
    ensures q.serial !in s.ledger.accepted && q.serial !in s.ledger.rejected
  {
    assert q in Held(s) && q.serial in Serials(Held(s));
  }

  lemma QueuedIsUndecided(s: State, e: Entry, q: Queued)
    requires Flowing(s) && e in s.queue && q in e.events && q.event.lossless
    ensures q.serial !in s.ledger.rejected
  {
    FlattenHolds(s.queue, e, q);
    LosslessOfHolds(Flatten(s.queue));
    assert q in Held(s) && q.serial in Serials(Held(s));
  }

  lemma DrainedErrorsExact(s: State)
    requires ErrorsExact(s) && Flowing(s)
    ensures ErrorsExact(Drained(s))
  {
    var t := Drained(s);
    if t != s {
      forall e | e in t.delivery.value.entries ensures !HasRefused(t.delivery.value, e, t.ledger.rejected) {
        forall q | q in e.events && q.event.lossless ensures q.serial !in t.ledger.rejected {
          QueuedIsUndecided(s, e, q);
        }
      }
    }
  }

  lemma WaitingIs(entries: seq<Entry>, id: Id, e: Entry)
    requires IdsRise(entries) && e in entries && WellMade(e)
    ensures e.id in Waiting(entries, id) <==> id in e.retryIds
  {
    if e.id in Waiting(entries, id) {
      var f :| f in entries && f.awaitPending && id in f.retryIds && f.id == e.id;
      SameId(entries, e, f);
    }
  }

  /** The refused event is the entry's own, or one that the entry asked for again. */
  ghost predicate Concerns(r: Queued, e: Entry) {
    r.owner == Some(e.id) || r.event.id in e.retryIds
  }

  /** Which entries the refusal of one event concerns. */
  lemma RefusalMarks(s: State, id: Id, e: Entry)
    requires Ordered(s) && Flowing(s) && Trying(s)
    requires RefusedEvent(s.delivery.value, id).Some? && e in s.delivery.value.entries
    ensures var d, r := s.delivery.value, RefusedEvent(s.delivery.value, id).value;
            e.id in AttemptRefused(d, id).ownerErrors <==> e.id in d.ownerErrors || Concerns(r, e)
  {
    RisingApart(s.delivery.value.remainingLossless, LosslessOf(Flatten(s.queue)));
    var j := RefusalRemovesOne(s.delivery.value, id);
    assert e in Delivering(s) + s.queue;
    WaitingIs(s.delivery.value.entries, id, e);
  }

  predicate BringsSerial(e: Entry, serial: nat) {
    exists q :: q in e.events && q.event.lossless && q.serial == serial
  }

  lemma OneMoreRefused(d: Delivery, after: Delivery, e: Entry, rejected: set<nat>, r: Queued)
    requires after.rejectedIds == d.rejectedIds + {r.event.id}
    ensures HasRefused(after, e, rejected + {r.serial})
            <==> HasRefused(d, e, rejected) || BringsSerial(e, r.serial) || r.event.id in e.retryIds
  {
    if BringsSerial(e, r.serial) {
      var q :| q in e.events && q.event.lossless && q.serial == r.serial;
      assert q.serial in rejected + {r.serial};
    }
  }

  lemma RefusedIsBrought(s: State, e: Entry, r: Queued)
    requires Flowing(s) && EntriesOwn(s) && Ordered(s) && DeliversItsOwn(s.delivery) && s.delivery.Some?
    requires e in s.delivery.value.entries && r in s.delivery.value.remainingLossless
    ensures r.owner == Some(e.id) ==> BringsSerial(e, r.serial)
    ensures BringsSerial(e, r.serial) ==> r.owner == Some(e.id) || e.id in s.delivery.value.ownerErrors
  {
    if r.owner == Some(e.id) {
      OwnedIsBrought(s, e, r);
      assert r in e.events && r.event.lossless;
    }
    forall q | q in e.events && q.event.lossless && q.serial == r.serial
      ensures (q == r && r.owner == Some(e.id)) || e.id in s.delivery.value.ownerErrors
    {
      RefusedSerialIsOwn(s, e, q, r);
    }
  }

  lemma RefusalShows(s: State, id: Id, e: Entry)
    requires ErrorsExact(s) && Flowing(s) && EntriesOwn(s) && Ordered(s) && DeliversItsOwn(s.delivery) && Trying(s)
    requires RefusedEvent(s.delivery.value, id).Some? && e in s.delivery.value.entries
    ensures var d, r := s.delivery.value, RefusedEvent(s.delivery.value, id).value;
            HasRefused(AttemptRefused(d, id), e, s.ledger.rejected + {r.serial})
            <==> HasRefused(d, e, s.ledger.rejected) || Concerns(r, e)
  {
    var d, r := s.delivery.value, RefusedEvent(s.delivery.value, id).value;
    RisingApart(d.remainingLossless, LosslessOf(Flatten(s.queue)));
    var j := RefusalRemovesOne(d, id);
    assert r == d.remainingLossless[j];
    OneMoreRefused(d, AttemptRefused(d, id), e, s.ledger.rejected, r);
    RefusedIsBrought(s, e, r);
  }

  lemma RefusedSerialIsOwn(s: State, e: Entry, q: Queued, r: Queued)
    requires Flowing(s) && EntriesOwn(s) && s.delivery.Some? && e in s.delivery.value.entries
    requires r in s.delivery.value.remainingLossless && q in e.events && q.event.lossless && q.serial == r.serial
    ensures (q == r && r.owner == Some(e.id)) || e.id in s.delivery.value.ownerErrors
  {
    var d := s.delivery.value;
    FlattenHolds(d.entries, e, q);
    HeldIsUndecided(s, r);
    RisingApart(d.remainingLossless, LosslessOf(Flatten(s.queue)));
    assert Own(e);
  }

  lemma RefusedErrorsExact(s: State, id: Id)
    requires ErrorsExact(s) && Flowing(s) && EntriesOwn(s) && Ordered(s) && DeliversItsOwn(s.delivery) && Trying(s)
    ensures ErrorsExact(RefusedById(s, id))
  {
    if RefusedEvent(s.delivery.value, id).Some? {
      forall e | e in s.delivery.value.entries
        ensures var t := RefusedById(s, id); e.id in t.delivery.value.ownerErrors <==> HasRefused(t.delivery.value, e, t.ledger.rejected)
      {
        RefusalMarks(s, id, e);
        RefusalShows(s, id, e);
      }
    }
  }

  /** Steps that leave a delivery's entries and the past refusals alone. */
  lemma ErrorsStay(s: State, t: State)
    requires ErrorsExact(s) && t.ledger.rejected == s.ledger.rejected
    requires t.delivery.Some? ==>
               && s.delivery.Some? && t.delivery.value.entries == s.delivery.value.entries
               && t.delivery.value.ownerErrors == s.delivery.value.ownerErrors
               && t.delivery.value.rejectedIds == s.delivery.value.rejectedIds
    ensures ErrorsExact(t)
  {
  }

  lemma SubmittedErrorsStay(s: State, events: seq<Event>, origin: Origin, runChanged: bool, keyFits: bool)
    ensures var t := Submitted(s, events, origin, runChanged, keyFits).0;
            t.delivery == s.delivery && t.ledger.rejected == s.ledger.rejected
  {
    var c, adoption := SubmittedShape(s, events, origin, runChanged, keyFits);
    var t := AdoptedShape(c, adoption, origin);
  }

  lemma PushErrorsStay(s: State, op: Op)
    requires op.Submit? || op.SubmitNext? || op.Retry?
    ensures Next(s, op).delivery == s.delivery && Next(s, op).ledger.rejected == s.ledger.rejected
  {
    if op.Submit? {
      SubmittedErrorsStay(s, op.events, op.origin, op.runChanged, op.keyFits);
    } else if op.SubmitNext? && CanSubmitNext(s) {
      var e := SubmittedNextShape(s, op.keyFits);
      SubmittedErrorsStay(s, [e], OfSettlement, false, op.keyFits);
    }
  }

  lemma DeliveryErrorsStay(s: State, op: Op)
    requires ErrorsExact(s) && OfDelivery(op) && !op.Refuse?
    ensures ErrorsExact(Next(s, op))
  {
    ErrorsStay(s, Next(s, op));
  }

  lemma SlotErrorsStay(s: State, op: Op)
    requires op.Reserve? || op.Settle? || op.Abandon?
    ensures Next(s, op).delivery == s.delivery && Next(s, op).ledger.rejected == s.ledger.rejected
  {
  }

  lemma NextErrorsExact(s: State, op: Op)
    requires ErrorsExact(s) && Flowing(s) && EntriesOwn(s) && Ordered(s) && DeliversItsOwn(s.delivery)
    ensures ErrorsExact(Next(s, op))
  {
    if op.Drain? {
      DrainedErrorsExact(s);
    } else if op.Refuse? {
      if Trying(s) {
        RefusedErrorsExact(s, op.id);
      }
    } else if OfDelivery(op) {
      DeliveryErrorsStay(s, op);
    } else if op.Submit? || op.SubmitNext? || op.Retry? {
      PushErrorsStay(s, op);
    } else {
      SlotErrorsStay(s, op);
    }
  }

  lemma {:induction false} EveryErrorIsARefusal(start: State, ops: seq<Op>)
    requires Initial(start)
    ensures ErrorsExact(Run(start, ops))
  {
    if ops != [] {
      var shorter := ops[..|ops| - 1];
      EveryErrorIsARefusal(start, shorter);
      EveryRunFlows(start, shorter);
      EveryRunOwns(start, shorter);
      EveryRunIsOrdered(start, shorter);
      EveryRunPromises(start, shorter);
      NextErrorsExact(Run(start, shorter), ops[|ops| - 1]);
    }
  }

  // ---------------------------------------------------------------------------------------------
  // What an entry is told.

  /** Everything lossless the entry brought was acknowledged, and nothing it asked for again was refused or
      is left over. */
  ghost predicate DeliveredWhole(d: Delivery, e: Entry, accepted: set<nat>) {
    && (forall q :: q in e.events && q.event.lossless ==> q.serial in accepted)
    && (forall id :: id in e.retryIds ==> id !in d.rejectedIds && id !in IdsOf(d.remainingLossless))
  }

  lemma RetainedIsNotWhole(s: State, e: Entry)
    requires Flowing(s) && EntriesOwn(s) && Ordered(s) && DeliversItsOwn(s.delivery) && s.delivery.Some?
    requires e in s.delivery.value.entries && Retains(s.delivery.value, e)
    ensures !DeliveredWhole(s.delivery.value, e, s.ledger.accepted)
  {
    var d := s.delivery.value;
    var q :| q in d.remainingLossless && (q.owner == Some(e.id) || (e.awaitPending && q.event.id in e.retryIds));
    HeldIsUndecided(s, q);
    if q.owner == Some(e.id) {
      OwnedIsBrought(s, e, q);
    } else {
      assert q.event.id in IdsOf(d.remainingLossless);
    }
  }

  lemma ErroneousIsNotWhole(s: State, e: Entry)
    requires Flowing(s) && s.delivery.Some? && HasRefused(s.delivery.value, e, s.ledger.rejected)
    ensures !DeliveredWhole(s.delivery.value, e, s.ledger.accepted)
  {
  }

  lemma ResolvedIsWhole(s: State, e: Entry)
    requires Flowing(s) && EntriesOwn(s) && Ordered(s) && ErrorsExact(s) && CanFinish(s)
    requires e in s.delivery.value.entries && Resolves(s.delivery.value, e)
    ensures DeliveredWhole(s.delivery.value, e, s.ledger.accepted)
  {
    var d := s.delivery.value;
    ResolvedEntryWasAccepted(s, e);
    LosslessOfHolds(e.events);
    assert e in Delivering(s) + s.queue;
    forall q | q in e.events && q.event.lossless ensures q.serial in s.ledger.accepted {
      assert q.serial in Serials(LosslessOf(e.events));
    }
    forall id | id in e.retryIds ensures id !in d.rejectedIds && id !in IdsOf(d.remainingLossless) {
      assert !HasRefused(d, e, s.ledger.rejected);
    }
  }

  /** When a delivery ends, an entry is told that it succeeded if and only if the host acknowledged each
      lossless event it brought, and of the events it asked for again refused none and left none over. */
  lemma EntryIsToldIff(start: State, ops: seq<Op>, e: Entry)
    requires Initial(start) && CanFinish(Run(start, ops)) && e in Run(start, ops).delivery.value.entries
    ensures var d := Run(start, ops).delivery.value;
            e.id in ResolvedEntries(d) <==> DeliveredWhole(d, e, Run(start, ops).ledger.accepted)
  {
    var s := Run(start, ops);
    EveryErrorIsARefusal(start, ops);
    EveryRunFlows(start, ops);
    EveryRunOwns(start, ops);
    EveryRunIsOrdered(start, ops);
    EveryRunPromises(start, ops);
    OnlyItselfResolves(s, e);
    WholeResolves(s, e);
  }

  lemma OnlyItselfResolves(s: State, e: Entry)
    requires Ordered(s) && s.delivery.Some? && e in s.delivery.value.entries
    ensures e.id in ResolvedEntries(s.delivery.value) <==> Resolves(s.delivery.value, e)
  {
    var d := s.delivery.value;
    if e.id in ResolvedEntries(d) {
      var f :| f in d.entries && Resolves(d, f) && f.id == e.id;
      SameId(d.entries, e, f);
    }
  }

  lemma WholeResolves(s: State, e: Entry)
    requires Flowing(s) && EntriesOwn(s) && Ordered(s) && ErrorsExact(s) && DeliversItsOwn(s.delivery) && CanFinish(s)
    requires e in s.delivery.value.entries
    ensures Resolves(s.delivery.value, e) <==> DeliveredWhole(s.delivery.value, e, s.ledger.accepted)
  {
    var d := s.delivery.value;
    if Resolves(d, e) {
      ResolvedIsWhole(s, e);
    } else if Retains(d, e) {
      RetainedIsNotWhole(s, e);
    } else {
      ErroneousIsNotWhole(s, e);
    }
  }

  /** At `n` a delivery with this entry ends, and it was delivered whole. */
  ghost predicate EndsWhole(start: State, ops: seq<Op>, n: nat, id: nat) {
    && n < |ops| && ops[n].Finish? && CanFinish(Run(start, ops[..n]))
    && exists e :: e in Run(start, ops[..n]).delivery.value.entries && e.id == id
                   && DeliveredWhole(Run(start, ops[..n]).delivery.value, e, Run(start, ops[..n]).ledger.accepted)
  }

  ghost predicate EverEndsWhole(start: State, ops: seq<Op>, id: nat) {
    exists n: nat :: EndsWhole(start, ops, n, id)
  }

  lemma EndsEarlier(start: State, ops: seq<Op>, n: nat, id: nat)
    requires ops != [] && n < |ops| - 1
    ensures EndsWhole(start, ops[..|ops| - 1], n, id) <==> EndsWhole(start, ops, n, id)
  {
    assert ops[..|ops| - 1][..n] == ops[..n];
  }

  lemma EndsOneMore(start: State, ops: seq<Op>, id: nat)
    requires ops != []
    ensures EverEndsWhole(start, ops, id) <==> EverEndsWhole(start, ops[..|ops| - 1], id) || EndsWhole(start, ops, |ops| - 1, id)
  {
    var shorter := ops[..|ops| - 1];
    if EverEndsWhole(start, ops, id) {
      var n: nat :| EndsWhole(start, ops, n, id);
      if n < |ops| - 1 {
        EndsEarlier(start, ops, n, id);
      }
    }
    if EverEndsWhole(start, shorter, id) {
      var n: nat :| EndsWhole(start, shorter, n, id);
      EndsEarlier(start, ops, n, id);
    }
  }

  lemma OthersResolveNothing(s: State, op: Op)
    requires !op.Finish?
    ensures Next(s, op).promises.resolved == s.promises.resolved
  {
    if op.Submit? {
      SubmittedResolvesNothing(s, op.events, op.origin, op.runChanged, op.keyFits);
    } else if op.SubmitNext? {
      if CanSubmitNext(s) {
        var e := SubmittedNextShape(s, op.keyFits);
        OpeningKeeps(s.promises, RetryEntry(s.nextEntry, [e.id]).events);
        SubmittedResolvesNothing(s, [e], OfSettlement, false, op.keyFits);
      }
    } else if op.Retry? {
      OpeningKeeps(s.promises, RetryEntry(s.nextEntry, op.ids).events);
    } else if !op.Drain? {
      OthersKeepEntries(s, op);
    }
  }

  lemma SubmittedResolvesNothing(s: State, events: seq<Event>, origin: Origin, runChanged: bool, keyFits: bool)
    ensures Submitted(s, events, origin, runChanged, keyFits).0.promises.resolved == s.promises.resolved
  {
    var c, adoption := SubmittedShape(s, events, origin, runChanged, keyFits);
    OpeningKeeps(c.promises, RetryEntry(c.nextEntry, PendingIds(c.pending)).events);
    var t := AdoptedShape(c, adoption, origin);
    if t != c {
      OpeningKeeps(c.promises, AdmittedEntry(AdmissionOf(adoption.unseen, UsageOf(c.pending, c.queued)), c.nextEntry, c.ledger.next).events);
    }
    OpeningKeeps(t.promises, RetryEntry(t.nextEntry, adoption.ids).events);
  }

  lemma FinishResolves(start: State, ops: seq<Op>, id: nat)
    requires Initial(start) && ops != [] && ops[|ops| - 1].Finish?
    ensures id in Run(start, ops).promises.resolved
            <==> id in Run(start, ops[..|ops| - 1]).promises.resolved || EndsWhole(start, ops, |ops| - 1, id)
  {
    var shorter := ops[..|ops| - 1];
    var s := Run(start, shorter);
    if CanFinish(s) {
      forall e | e in s.delivery.value.entries
        ensures e.id in ResolvedEntries(s.delivery.value) <==> DeliveredWhole(s.delivery.value, e, s.ledger.accepted)
      {
        EntryIsToldIff(start, shorter, e);
      }
    }
  }

  /** In every run an entry's promise is resolved if and only if a delivery of it ended with the entry
      delivered whole. */
  lemma {:induction false} ResolvedIff(start: State, ops: seq<Op>, id: nat)
    requires Initial(start)
    ensures id in Run(start, ops).promises.resolved <==> EverEndsWhole(start, ops, id)
  {
    if ops != [] {
      var shorter, op := ops[..|ops| - 1], ops[|ops| - 1];
      ResolvedIff(start, shorter, id);
      EndsOneMore(start, ops, id);
      if op.Finish? {
        FinishResolves(start, ops, id);
      } else {
        OthersResolveNothing(Run(start, shorter), op);
      }
    }
  }

  // ---------------------------------------------------------------------------------------------
  // What was refused in a delivery.

  /** The host refuses an event that waits for its receipt. */
  ghost predicate Refuses(s: State, op: Op, id: Id) {
    op == Refuse(id) && Trying(s) && id in IdsOf(s.delivery.value.phase.remaining[s.delivery.value.phase.accepted..])
  }

  /** A delivery is on after the first `m` operations. */
  ghost predicate OnAt(start: State, ops: seq<Op>, m: int) {
    0 <= m <= |ops| && Run(start, ops[..m]).delivery.Some?
  }

  /** A delivery has been on since the operation at `n`. */
  ghost predicate OnSince(start: State, ops: seq<Op>, n: nat) {
    forall m :: n < m <= |ops| ==> OnAt(start, ops, m)
  }

  lemma OnEarlier(start: State, ops: seq<Op>, m: int)
    requires ops != [] && m != |ops|
    ensures OnAt(start, ops, m) <==> OnAt(start, ops[..|ops| - 1], m)
  {
    if 0 <= m < |ops| {
      assert ops[..|ops| - 1][..m] == ops[..m];
    }
  }

  lemma OnOneMore(start: State, ops: seq<Op>, n: nat)
    requires ops != [] && n < |ops|
    ensures OnSince(start, ops, n) <==> OnSince(start, ops[..|ops| - 1], n) && Run(start, ops).delivery.Some?
  {
    var shorter, m := ops[..|ops| - 1], |ops|;
    assert ops[..m] == ops;
    assert OnAt(start, ops, m) <==> Run(start, ops).delivery.Some?;
    forall m | n < m < |ops| ensures OnAt(start, shorter, m) <==> OnAt(start, ops, m) {
      OnEarlier(start, ops, m);
    }
  }

  /** At `n` the host refused the event, in the delivery that is still on. */
  ghost predicate RefusedAt(start: State, ops: seq<Op>, n: nat, id: Id) {
    n < |ops| && Refuses(Run(start, ops[..n]), ops[n], id) && OnSince(start, ops, n)
  }

  ghost predicate RefusedInDelivery(start: State, ops: seq<Op>, id: Id) {
    exists n: nat :: RefusedAt(start, ops, n, id)
  }

  lemma RefusedEarlier(start: State, ops: seq<Op>, n: nat, id: Id)
    requires ops != [] && n < |ops| - 1
    ensures RefusedAt(start, ops, n, id) <==> RefusedAt(start, ops[..|ops| - 1], n, id) && Run(start, ops).delivery.Some?
  {
    assert ops[..|ops| - 1][..n] == ops[..n];
    OnOneMore(start, ops, n);
  }

  lemma RefusedOneMore(start: State, ops: seq<Op>, id: Id)
    requires ops != [] && Run(start, ops).delivery.Some?
    ensures RefusedInDelivery(start, ops, id)
            <==> RefusedInDelivery(start, ops[..|ops| - 1], id) || Refuses(Run(start, ops[..|ops| - 1]), ops[|ops| - 1], id)
  {
    var shorter := ops[..|ops| - 1];
    if RefusedInDelivery(start, ops, id) {
      var n: nat :| RefusedAt(start, ops, n, id);
      if n < |ops| - 1 {
        RefusedEarlier(start, ops, n, id);
      }
    }
    if RefusedInDelivery(start, shorter, id) {
      var n: nat :| RefusedAt(start, shorter, n, id);
      RefusedEarlier(start, ops, n, id);
    }
    if Refuses(Run(start, shorter), ops[|ops| - 1], id) {
      OnNow(start, ops);
      assert RefusedAt(start, ops, |ops| - 1, id);
    }
  }

  lemma RefusalIsNoted(s: State, op: Op, id: Id)
    requires Flowing(s) && op.Refuse?
    ensures Next(s, op).delivery.Some? <==> s.delivery.Some?
    ensures s.delivery.Some? ==>
              (id in Next(s, op).delivery.value.rejectedIds <==> id in s.delivery.value.rejectedIds || Refuses(s, op, id))
  {
    if Trying(s) {
      StrayRefusalBreaks(s.delivery.value, op.id);
    }
  }

  lemma NothingElseIsNoted(s: State, op: Op)
    requires !op.Submit? && !op.SubmitNext? && !op.Retry? && !op.Refuse? && Next(s, op).delivery.Some?
    ensures Next(s, op).delivery.value.rejectedIds == if s.delivery.Some? then s.delivery.value.rejectedIds else {}
  {
  }

  /** Which ids the delivery after an operation has refused. */
  lemma NextRejected(s: State, op: Op, id: Id)
    requires Flowing(s) && Next(s, op).delivery.Some?
    ensures id in Next(s, op).delivery.value.rejectedIds
            <==> (s.delivery.Some? && id in s.delivery.value.rejectedIds) || Refuses(s, op, id)
  {
    if op.Submit? || op.SubmitNext? || op.Retry? {
      PushErrorsStay(s, op);
    } else if op.Refuse? {
      RefusalIsNoted(s, op, id);
    } else {
      NothingElseIsNoted(s, op);
    }
  }

  lemma NothingRefusedYet(start: State, ops: seq<Op>, id: Id)
    requires Run(start, ops).delivery.None?
    ensures !RefusedInDelivery(start, ops, id)
  {
    NotOnNow(start, ops);
  }

  lemma NotOnNow(start: State, ops: seq<Op>)
    requires Run(start, ops).delivery.None?
    ensures forall n: nat :: n < |ops| ==> !OnSince(start, ops, n)
  {
    var m := |ops|;
    assert ops[..m] == ops;
    assert !OnAt(start, ops, m);
  }

  lemma OnNow(start: State, ops: seq<Op>)
    requires ops != [] && Run(start, ops).delivery.Some?
    ensures OnSince(start, ops, |ops| - 1)
  {
    assert ops[..|ops|] == ops;
  }

  /** In every run the ids that count as refused in a delivery are those the host refused since it began. */
  lemma {:induction false} RejectedIdsAreExact(start: State, ops: seq<Op>, id: Id)
    requires Initial(start) && Run(start, ops).delivery.Some?
    ensures id in Run(start, ops).delivery.value.rejectedIds <==> RefusedInDelivery(start, ops, id)
  {
    if ops != [] {
      var shorter := ops[..|ops| - 1];
      EveryRunFlows(start, shorter);
      NextRejected(Run(start, shorter), ops[|ops| - 1], id);
      RefusedOneMore(start, ops, id);
      if Run(start, shorter).delivery.Some? {
        RejectedIdsAreExact(start, shorter, id);
      } else {
        NothingRefusedYet(start, shorter, id);
      }
    }
  }

  // ---------------------------------------------------------------------------------------------
  // Promises of events.

  /** The events whose receipts an operation is. */
  function HeardIn(s: State, op: Op): seq<Queued> {
    match op
    case Receipt(n) => if CanReceipt(s, n) then Acknowledged(s.delivery.value, n) else []
    case PushBestEffort(n) => if CanPush(s, n) then PushedEvents(s, n) else []
    case _ => []
  }

  /** The operation is a receipt for an event under the promise, or a refusal of one, or the abandonment of
      its terminal. */
  ghost predicate Answers(s: State, op: Op, a: Queued) {
    exists q :: q in HeardIn(s, op) && PromiseIs(s.promises, q.event.id, a)
  }

  ghost predicate Fails(s: State, op: Op, a: Queued) {
    || (op.Refuse? && Refuses(s, op, op.id) && PromiseIs(s.promises, op.id, a))
    || (op.Abandon? && CanAbandon(s) && PromiseIs(s.promises, s.settlement.value.ids[|s.settlement.value.ids| - 1], a))
  }

  lemma {:induction false} KeepsExactly(p: Promises, heard: seq<Queued>, a: Queued)
    ensures a in KeepAll(p, heard).kept
            <==> a in p.kept || (a !in p.broken && exists q :: q in heard && PromiseIs(p, q.event.id, a))
  {
    if heard != [] {
      var fewer, last := heard[..|heard| - 1], heard[|heard| - 1];
      KeepsExactly(p, fewer, a);
      KeepingLeaves(p, fewer);
      assert forall q :: q in heard <==> q in fewer || q == last;
    }
  }

  lemma NextKeeps(s: State, op: Op, a: Queued)
    ensures a in Next(s, op).promises.kept <==> a in s.promises.kept || (a !in s.promises.broken && Answers(s, op, a))
  {
    if op.Receipt? {
      if CanReceipt(s, op.n) {
        KeepsExactly(s.promises, Acknowledged(s.delivery.value, op.n), a);
      }
    } else if op.PushBestEffort? {
      if CanPush(s, op.n) {
        KeepsExactly(s.promises, PushedEvents(s, op.n), a);
      }
    } else {
      OthersKeepKept(s, op);
    }
  }

  lemma SubmittedBreaksNothing(s: State, events: seq<Event>, origin: Origin, runChanged: bool, keyFits: bool)
    ensures Submitted(s, events, origin, runChanged, keyFits).0.promises.broken == s.promises.broken
  {
    var c, adoption := SubmittedShape(s, events, origin, runChanged, keyFits);
    OpeningKeeps(c.promises, RetryEntry(c.nextEntry, PendingIds(c.pending)).events);
    var t := AdoptedShape(c, adoption, origin);
    if t != c {
      OpeningKeeps(c.promises, AdmittedEntry(AdmissionOf(adoption.unseen, UsageOf(c.pending, c.queued)), c.nextEntry, c.ledger.next).events);
    }
    OpeningKeeps(t.promises, RetryEntry(t.nextEntry, adoption.ids).events);
  }

  lemma PushBreaksNothing(s: State, op: Op)
    requires op.Submit? || op.SubmitNext? || op.Retry?
    ensures Next(s, op).promises.broken == s.promises.broken
  {
    if op.Submit? {
      SubmittedBreaksNothing(s, op.events, op.origin, op.runChanged, op.keyFits);
    } else if op.SubmitNext? {
      if CanSubmitNext(s) {
        var e := SubmittedNextShape(s, op.keyFits);
        OpeningKeeps(s.promises, RetryEntry(s.nextEntry, [e.id]).events);
        SubmittedBreaksNothing(s, [e], OfSettlement, false, op.keyFits);
      }
    } else {
      OpeningKeeps(s.promises, RetryEntry(s.nextEntry, op.ids).events);
    }
  }

  lemma NextBreaks(s: State, op: Op, a: Queued)
    requires Flowing(s)
    ensures a in Next(s, op).promises.broken <==> a in s.promises.broken || (a !in s.promises.kept && Fails(s, op, a))
  {
    if op.Submit? || op.SubmitNext? || op.Retry? {
      PushBreaksNothing(s, op);
    } else if op.Refuse? {
      if Trying(s) {
        StrayRefusalBreaks(s.delivery.value, op.id);
      }
    } else if op.Receipt? {
      if CanReceipt(s, op.n) {
        KeepingLeaves(s.promises, Acknowledged(s.delivery.value, op.n));
      }
    } else if op.PushBestEffort? {
      if CanPush(s, op.n) {
        KeepingLeaves(s.promises, PushedEvents(s, op.n));
      }
    }
  }

  /** At `n` the host acknowledged an event under the promise, which had not failed before. */
  ghost predicate AnsweredAt(start: State, ops: seq<Op>, n: nat, a: Queued) {
    n < |ops| && Answers(Run(start, ops[..n]), ops[n], a) && !EverFailed(start, ops[..n], a)
  }

  /** At `n` an event under the promise was refused, or given up, and the promise had not been kept before. */
  ghost predicate FailedAt(start: State, ops: seq<Op>, n: nat, a: Queued) {
    n < |ops| && Fails(Run(start, ops[..n]), ops[n], a) && a !in Run(start, ops[..n]).promises.kept
  }

  ghost predicate EverFailed(start: State, ops: seq<Op>, a: Queued) {
    exists n: nat :: FailedAt(start, ops, n, a)
  }

  ghost predicate EverAnswered(start: State, ops: seq<Op>, a: Queued) {
    exists n: nat :: AnsweredAt(start, ops, n, a)
  }

  lemma FailedEarlier(start: State, ops: seq<Op>, n: nat, a: Queued)
    requires ops != [] && n < |ops| - 1
    ensures FailedAt(start, ops, n, a) <==> FailedAt(start, ops[..|ops| - 1], n, a)
  {
    assert ops[..|ops| - 1][..n] == ops[..n];
  }

  lemma AnsweredEarlier(start: State, ops: seq<Op>, n: nat, a: Queued)
    requires ops != [] && n < |ops| - 1
    ensures AnsweredAt(start, ops, n, a) <==> AnsweredAt(start, ops[..|ops| - 1], n, a)
  {
    assert ops[..|ops| - 1][..n] == ops[..n];
  }

  lemma FailedOneMore(start: State, ops: seq<Op>, a: Queued)
    requires ops != []
    ensures EverFailed(start, ops, a) <==> EverFailed(start, ops[..|ops| - 1], a) || FailedAt(start, ops, |ops| - 1, a)
  {
    var shorter := ops[..|ops| - 1];
    forall n: nat | n < |shorter| ensures FailedAt(start, shorter, n, a) <==> FailedAt(start, ops, n, a) {
      FailedEarlier(start, ops, n, a);
    }
  }

  lemma AnsweredOneMore(start: State, ops: seq<Op>, a: Queued)
    requires ops != []
    ensures EverAnswered(start, ops, a) <==> EverAnswered(start, ops[..|ops| - 1], a) || AnsweredAt(start, ops, |ops| - 1, a)
  {
    var shorter := ops[..|ops| - 1];
    forall n: nat | n < |shorter| ensures AnsweredAt(start, shorter, n, a) <==> AnsweredAt(start, ops, n, a) {
      AnsweredEarlier(start, ops, n, a);
    }
  }

  lemma {:induction false} BrokenIff(start: State, ops: seq<Op>, a: Queued)
    requires Initial(start)
    ensures a in Run(start, ops).promises.broken <==> EverFailed(start, ops, a)
  {
    if ops != [] {
      BrokenIff(start, ops[..|ops| - 1], a);
      EveryRunFlows(start, ops[..|ops| - 1]);
      NextBreaks(Run(start, ops[..|ops| - 1]), ops[|ops| - 1], a);
      FailedOneMore(start, ops, a);
    }
  }

  /** In every run a promise is kept if and only if the host acknowledged an event under it before one was
      refused or given up. */
  lemma {:induction false} KeptIff(start: State, ops: seq<Op>, a: Queued)
    requires Initial(start)
    ensures a in Run(start, ops).promises.kept <==> EverAnswered(start, ops, a)
  {
    if ops != [] {
      KeptIff(start, ops[..|ops| - 1], a);
      BrokenIff(start, ops[..|ops| - 1], a);
      NextKeeps(Run(start, ops[..|ops| - 1]), ops[|ops| - 1], a);
      AnsweredOneMore(start, ops, a);
    }
  }

  // ---------------------------------------------------------------------------------------------
  // What a push is told.

  /** What a push waits for has come. */
  ghost predicate Answered(start: State, ops: seq<Op>, o: Outcome) {
    match o
    case Threw(_) => false
    case Ignored => true
    case Issued(entries, adopted, _) =>
      (forall i :: i in entries ==> EverEndsWhole(start, ops, i)) && (forall a :: a in adopted ==> EverAnswered(start, ops, a))
  }

  /** In every run a push has been told that it succeeded if and only if the delivery of its entry ended with
      everything lossless in it acknowledged, and each promise it found was answered by a receipt before
      it failed. */
  lemma PushSucceedsIff(start: State, ops: seq<Op>, o: Outcome)
    requires Initial(start)
    ensures Succeeded(Run(start, ops).promises, o) <==> Answered(start, ops, o)
  {
    if o.Issued? {
      forall i | i in o.entries ensures i in Run(start, ops).promises.resolved <==> EverEndsWhole(start, ops, i) {
        ResolvedIff(start, ops, i);
      }
      forall a | a in o.adopted ensures a in Run(start, ops).promises.kept <==> EverAnswered(start, ops, a) {
        KeptIff(start, ops, a);
      }
    }
  }

  /** The events that a push brings are its own, and each id it adopts is that of one of its events, which
      was found on the way. */
  ghost predicate AdoptedFrom(adoption: Adoption, events: seq<Event>, candidates: seq<Queued>) {
    && (forall x :: x in adoption.unseen ==> x in events)
    && forall id :: id in adoption.ids ==> exists e, q :: e in events && e.lossless && e.id == id && q in candidates && Carries(q, e)
  }

  lemma {:induction false} AdoptTakes(events: seq<Event>, candidates: seq<Queued>)
    requires Adopt(events, candidates).Success?
    ensures AdoptedFrom(Adopt(events, candidates).value, events, candidates)
  {
    if events != [] {
      var n := |events| - 1;
      var prior := Adopt(events[..n], candidates).value;
      AdoptTakes(events[..n], candidates);
      assert forall x :: x in events[..n] ==> x in events;
      assert events[n] in events;
      forall id | id in prior.ids ensures exists e, q :: e in events && e.lossless && e.id == id && q in candidates && Carries(q, e) {
        var e, q :| e in events[..n] && e.lossless && e.id == id && q in candidates && Carries(q, e);
      }
      var found := FindById(candidates, events[n].id);
      if found.Some? && events[n].lossless && events[n].explicitId {
        assert found.value in candidates && Carries(found.value, events[n]);
      }
    }
  }

  /** What a push waits for is about its own lossless events: an entry that brings some, and promises made
      for them. */
  ghost predicate WaitsForItsOwn(events: seq<Event>, o: Outcome) {
    o.Issued? ==>
      && (o.entries != [] ==> HasLossless(events))
      && forall a :: a in o.adopted ==> exists e :: e in events && e.lossless && Carries(a, e)
  }

  lemma AdmittedHasLossless(events: seq<Event>, u: Usage)
    requires AdmissionOf(events, u).Admitted? && (AdmissionOf(events, u).losslessCount > 0 || AdmissionOf(events, u).terminalBatch)
    ensures HasLossless(events)
  {
    AdmissionIsMeasured(events, u);
    AdmissionTakes(events, u);
    LosslessHolds(events);
    assert Lossless(events) != [] ==> Lossless(events)[0] in Lossless(events);
  }

  lemma AdoptedIsItsOwn(s: State, adoption: Adoption, origin: Origin, events: seq<Event>)
    requires Promised(s) && !origin.OfSettlement? && AdoptedFrom(adoption, events, OnTheWay(s))
    ensures WaitsForItsOwn(events, SubmitAdopted(s, adoption, origin).1)
  {
    var o := SubmitAdopted(s, adoption, origin).1;
    if o.Issued? {
      if o.entries != [] {
        AdmittedHasLossless(adoption.unseen, UsageOf(s.pending, s.queued));
      }
      if adoption.ids != [] {
        var t := AdoptedPromises(s, adoption, origin);
        forall a | a in o.adopted ensures exists e :: e in events && e.lossless && Carries(a, e) {
          var i :| 0 <= i < |o.adopted| && o.adopted[i] == a;
          PromiseCarries(s, t, adoption, events, adoption.ids[i]);
        }
      }
    }
  }

  lemma PromiseCarries(s: State, t: State, adoption: Adoption, events: seq<Event>, id: Id)
    requires AdoptedFrom(adoption, events, OnTheWay(s)) && id in adoption.ids
    requires Promised(t) && HasPromises(t.promises, adoption.ids) && forall q :: q in OnTheWay(s) ==> q in OnTheWay(t)
    ensures exists e :: e in events && e.lossless && Carries(t.promises.current[id], e)
  {
    var e, q :| e in events && e.lossless && e.id == id && q in OnTheWay(s) && Carries(q, e);
    assert IsFor(t.promises.current[id], id, OnTheWay(t));
    assert Agree(t.promises.current[id], q);
  }

  /** A push waits for nothing but its own lossless events; one without any is told at once. */
  lemma PushWaitsForItsOwn(s: State, events: seq<Event>, origin: Origin, runChanged: bool, keyFits: bool)
    requires Promised(s) && !origin.OfSettlement?
    ensures WaitsForItsOwn(events, Submitted(s, events, origin, runChanged, keyFits).1)
  {
    if Submitted(s, events, origin, runChanged, keyFits).1.Issued? {
      FewerTerminals(events);
      var c := s.(settlement := SlotAfter(s.settlement, runChanged));
      AdoptTakes(events, OnTheWay(c));
      PromisedStays(s, c);
      AdoptedIsItsOwn(c, Adopt(events, OnTheWay(c)).value, origin, events);
    }
  }
}
