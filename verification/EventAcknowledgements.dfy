/** What a push that succeeded says about its events, those it brought and those it found on their way. */
module EventAcknowledgements {
  import opened EventAdmission
  import opened EventEntries
  import opened EventDelivery
  import opened EventPromises
  import opened EventPublisher
  import opened EventBudget
  import opened EventRuns
  import opened EventTheorems
  import opened EventLinks

  ghost predicate Brought(p: Promises, e: Entry) {
    e.id in p.brought && p.brought[e.id] == Serials(LosslessOf(e.events))
  }

  /** An entry's promise is resolved only when its lossless events were acknowledged. */
  ghost predicate EntriesPromised(s: State) {
    && (forall i :: i in s.promises.brought ==> i < s.nextEntry)
    && (forall e :: e in s.queue ==> Brought(s.promises, e))
    && (forall e :: e in Delivering(s) ==> Brought(s.promises, e))
    && (forall i :: i in s.promises.resolved ==> i in s.promises.brought && s.promises.brought[i] <= s.ledger.accepted)
  }

  // ---------------------------------------------------------------------------------------------
  // Entries.

  lemma EnqueuedIsBrought(s: State, e: Entry)
    requires EntriesPromised(s) && e.id == s.nextEntry
    ensures EntriesPromised(Enqueued(s, e))
    ensures Enqueued(s, e).promises.brought == s.promises.brought[e.id := Serials(LosslessOf(e.events))]
  {
    var t := Enqueued(s, e);
    OpeningKeeps(s.promises, e.events);
    forall x | x in t.queue ensures Brought(t.promises, x) {
      assert x in s.queue ==> Brought(s.promises, x);
    }
    forall x | x in Delivering(t) ensures Brought(t.promises, x) {
      assert Brought(s.promises, x);
    }
  }

  /** Steps that leave entries, their promises and the past receipts alone keep what was promised. */
  lemma BroughtStays(s: State, t: State)
    requires EntriesPromised(s) && SameEntries(s, t)
    ensures EntriesPromised(t)
  {
  }

  lemma FinishedIsBrought(s: State)
    requires EntriesPromised(s) && Flowing(s) && EntriesOwn(s) && CanFinish(s)
    ensures EntriesPromised(Finished(s))
  {
    var d, t := s.delivery.value, Finished(s);
    forall i | i in t.promises.resolved && i !in s.promises.resolved
      ensures i in t.promises.brought && t.promises.brought[i] <= t.ledger.accepted
    {
      var e :| e in d.entries && Resolves(d, e) && e.id == i;
      assert Brought(s.promises, e);
      ResolvedEntryWasAccepted(s, e);
    }
  }

  /** What a push makes of the state, step by step. */
  lemma SubmittedIsBrought(s: State, events: seq<Event>, origin: Origin, runChanged: bool, keyFits: bool)
    requires EntriesPromised(s)
    ensures EntriesPromised(Submitted(s, events, origin, runChanged, keyFits).0)
  {
    var c, adoption := SubmittedShape(s, events, origin, runChanged, keyFits);
    BroughtStays(s, c);
    EnqueuedIsBrought(c, RetryEntry(c.nextEntry, PendingIds(c.pending)));
    var t := AdoptedShape(c, adoption, origin);
    if t != c {
      EnqueuedIsBrought(c, AdmittedEntry(AdmissionOf(adoption.unseen, UsageOf(c.pending, c.queued)), c.nextEntry, c.ledger.next));
    }
    EnqueuedIsBrought(t, RetryEntry(t.nextEntry, adoption.ids));
  }

  lemma SubmittedNextIsBrought(s: State, keyFits: bool)
    requires EntriesPromised(s) && CanSubmitNext(s)
    ensures EntriesPromised(SubmittedNext(s, keyFits).0)
  {
    var e := SubmittedNextShape(s, keyFits);
    EnqueuedIsBrought(s, RetryEntry(s.nextEntry, [e.id]));
    SubmittedIsBrought(s, [e], OfSettlement, false, keyFits);
  }

  /** The same entries, and nothing more decided about them. */
  ghost predicate SameEntries(s: State, t: State) {
    && t.queue == s.queue && Delivering(t) == Delivering(s) && t.nextEntry == s.nextEntry
    && t.promises.brought == s.promises.brought && t.promises.resolved == s.promises.resolved
    && s.ledger.accepted <= t.ledger.accepted
  }

  lemma DeliveryKeepsEntries(s: State, op: Op)
    requires OfDelivery(op) && !op.Finish?
    ensures SameEntries(s, Next(s, op))
  {
    match op {
      case StartBlock =>
      case Receipt(n) => if CanReceipt(s, n) { KeepingLeaves(s.promises, Acknowledged(s.delivery.value, n)); }
      case Return =>
      case Refuse(id) => if Trying(s) { assert SameEntries(s, RefusedById(s, id)); }
      case Fail =>
      case PushBestEffort(n) => if CanPush(s, n) { KeepingLeaves(s.promises, PushedEvents(s, n)); }
    }
  }

  lemma SettlementKeepsEntries(s: State, op: Op)
    requires op.Reserve? || op.Settle? || op.Abandon?
    ensures SameEntries(s, Next(s, op))
  {
    if op.Abandon? && CanAbandon(s) {
      assert SameEntries(s, Abandoned(s));
    }
  }

  /** Only a push, a retry, a drain and the end of a delivery change entries or decide about them. */
  lemma OthersKeepEntries(s: State, op: Op)
    requires !op.Submit? && !op.SubmitNext? && !op.Retry? && !op.Drain? && !op.Finish?
    ensures SameEntries(s, Next(s, op))
  {
    if OfDelivery(op) {
      DeliveryKeepsEntries(s, op);
    } else {
      SettlementKeepsEntries(s, op);
    }
  }

  lemma DrainedIsBrought(s: State)
    requires EntriesPromised(s)
    ensures EntriesPromised(Drained(s))
  {
  }

  lemma NextIsBrought(s: State, op: Op)
    requires EntriesPromised(s) && Flowing(s) && EntriesOwn(s)
    ensures EntriesPromised(Next(s, op))
  {
    if op.Submit? {
      SubmittedIsBrought(s, op.events, op.origin, op.runChanged, op.keyFits);
    } else if op.SubmitNext? {
      if CanSubmitNext(s) {
        SubmittedNextIsBrought(s, op.keyFits);
      }
    } else if op.Retry? {
      EnqueuedIsBrought(s, RetryEntry(s.nextEntry, op.ids));
    } else if op.Drain? {
      DrainedIsBrought(s);
    } else if op.Finish? {
      if CanFinish(s) {
        FinishedIsBrought(s);
      }
    } else {
      OthersKeepEntries(s, op);
      BroughtStays(s, Next(s, op));
    }
  }

  lemma NothingBrought(s: State)
    requires Initial(s)
    ensures EntriesPromised(s)
  {
  }

  lemma {:induction false} EveryRunBrings(start: State, ops: seq<Op>)
    requires Initial(start)
    ensures EntriesPromised(Run(start, ops))
  {
    if ops == [] {
      NothingBrought(start);
    } else {
      var shorter := ops[..|ops| - 1];
      EveryRunBrings(start, shorter);
      EveryRunFlows(start, shorter);
      EveryRunOwns(start, shorter);
      NextIsBrought(Run(start, shorter), ops[|ops| - 1]);
    }
  }

  ghost predicate BroughtIs(p: Promises, i: nat, serials: set<nat>) {
    i in p.brought && p.brought[i] == serials
  }

  lemma EnqueuedKeepsBrought(s: State, e: Entry, i: nat, serials: set<nat>)
    requires e.id != i && BroughtIs(s.promises, i, serials)
    ensures BroughtIs(Enqueued(s, e).promises, i, serials)
  {
    OpeningKeeps(s.promises, e.events);
  }

  lemma SubmittedKeepsBrought(s: State, events: seq<Event>, origin: Origin, runChanged: bool, keyFits: bool, i: nat,
                              serials: set<nat>)
    requires i < s.nextEntry && BroughtIs(s.promises, i, serials)
    ensures BroughtIs(Submitted(s, events, origin, runChanged, keyFits).0.promises, i, serials)
  {
    var c, adoption := SubmittedShape(s, events, origin, runChanged, keyFits);
    EnqueuedKeepsBrought(c, RetryEntry(c.nextEntry, PendingIds(c.pending)), i, serials);
    var t := AdoptedShape(c, adoption, origin);
    if t != c {
      EnqueuedKeepsBrought(c, AdmittedEntry(AdmissionOf(adoption.unseen, UsageOf(c.pending, c.queued)), c.nextEntry, c.ledger.next),
                           i, serials);
    }
    EnqueuedKeepsBrought(t, RetryEntry(t.nextEntry, adoption.ids), i, serials);
  }

  lemma SubmittedNextKeepsBrought(s: State, keyFits: bool, i: nat, serials: set<nat>)
    requires CanSubmitNext(s) && i < s.nextEntry && BroughtIs(s.promises, i, serials)
    ensures BroughtIs(SubmittedNext(s, keyFits).0.promises, i, serials)
  {
    var e := SubmittedNextShape(s, keyFits);
    EnqueuedKeepsBrought(s, RetryEntry(s.nextEntry, [e.id]), i, serials);
    SubmittedKeepsBrought(s, [e], OfSettlement, false, keyFits, i, serials);
  }

  lemma NextKeepsBrought(s: State, op: Op, i: nat, serials: set<nat>)
    requires i < s.nextEntry && BroughtIs(s.promises, i, serials)
    ensures BroughtIs(Next(s, op).promises, i, serials)
  {
    if op.Submit? {
      SubmittedKeepsBrought(s, op.events, op.origin, op.runChanged, op.keyFits, i, serials);
    } else if op.SubmitNext? {
      if CanSubmitNext(s) {
        SubmittedNextKeepsBrought(s, op.keyFits, i, serials);
      }
    } else if op.Retry? {
      EnqueuedKeepsBrought(s, RetryEntry(s.nextEntry, op.ids), i, serials);
    } else if op.Drain? || op.Finish? {
    } else {
      OthersKeepEntries(s, op);
    }
  }

  lemma OneMoreKeepsBrought(start: State, ops: seq<Op>, op: Op, i: nat, serials: set<nat>)
    requires Initial(start) && BroughtIs(Run(start, ops).promises, i, serials)
    ensures BroughtIs(Run(start, ops + [op]).promises, i, serials)
  {
    EveryRunBrings(start, ops);
    NextKeepsBrought(Run(start, ops), op, i, serials);
    RunOneMore(start, ops, op);
  }

  lemma {:induction false} RunKeepsBrought(start: State, ops: seq<Op>, more: seq<Op>, i: nat, serials: set<nat>)
    requires Initial(start) && BroughtIs(Run(start, ops).promises, i, serials)
    ensures BroughtIs(Run(start, ops + more).promises, i, serials)
    decreases |more|
  {
    if more == [] {
      assert ops + more == ops;
    } else {
      var n := |more| - 1;
      RunKeepsBrought(start, ops, more[..n], i, serials);
      OneMoreKeepsBrought(start, ops + more[..n], more[n], i, serials);
      assert ops + more == ops + more[..n] + [more[n]];
    }
  }

  // ---------------------------------------------------------------------------------------------
  // Pushes.

  /** The event on its way by which a pushed one is delivered: itself, or the same one pushed before. */
  predicate Carries(q: Queued, e: Event) {
    q.event.lossless && q.event.id == e.id && q.event.content == e.content
  }

  ghost predicate AdoptedOrUnseen(adoption: Adoption, candidates: seq<Queued>, e: Event) {
    e in adoption.unseen || (e.id in adoption.ids && exists q :: q in candidates && Carries(q, e))
  }

  lemma {:induction false} AdoptSplits(events: seq<Event>, candidates: seq<Queued>, e: Event)
    requires Adopt(events, candidates).Success? && e in events && e.lossless
    ensures AdoptedOrUnseen(Adopt(events, candidates).value, candidates, e)
  {
    var n := |events| - 1;
    var prior := Adopt(events[..n], candidates);
    if e in events[..n] {
      AdoptSplits(events[..n], candidates, e);
    } else {
      assert e == events[n];
      var found := FindById(candidates, e.id);
      if e.explicitId && found.Some? {
        assert found.value in candidates && Carries(found.value, e);
      }
    }
  }

  lemma LosslessAreAdmitted(events: seq<Event>, u: Usage, e: Event)
    requires e in events && e.lossless && !AdmissionOf(events, u).Refused?
    ensures AdmissionOf(events, u).Admitted? && e in AdmissionOf(events, u).events
    ensures AdmissionOf(events, u).losslessCount > 0 || AdmissionOf(events, u).terminalBatch
  {
    LosslessHolds(events);
    AdmissionTakes(events, u);
    AdmissionIsMeasured(events, u);
  }

  lemma WrappedIs(events: seq<Event>, owner: nat, terminalBatch: bool, serial: nat, e: Event) returns (q: Queued)
    requires e in events && e.lossless
    ensures q in LosslessOf(Wrap(events, owner, terminalBatch, serial)) && Carries(q, e)
  {
    var i :| 0 <= i < |events| && events[i] == e;
    q := Wrap(events, owner, terminalBatch, serial)[i];
    LosslessOfHolds(Wrap(events, owner, terminalBatch, serial));
  }

  /** The push waits for an entry that brings the event. */
  ghost predicate BringsIt(t: State, o: Outcome, q: Queued) {
    q in OnTheWay(t) && o.Issued? && exists i :: i in o.entries && i in t.promises.brought && q.serial in t.promises.brought[i]
  }

  /** The push waits for the promise under the event's id. */
  ghost predicate Awaits(t: State, o: Outcome, a: Queued) {
    o.Issued? && a in o.adopted && PromiseIs(t.promises, a.event.id, a)
  }

  lemma BroughtIsAwaited(s: State, entry: Entry, ids: seq<Id>, q: Queued)
    requires entry.id == s.nextEntry && q in LosslessOf(entry.events)
    ensures var t := Enqueued(s, entry); q in OnTheWay(t) && BroughtIs(t.promises, entry.id, Serials(LosslessOf(entry.events)))
    ensures var u := Retried(Enqueued(s, entry), ids);
            q in OnTheWay(u) && BroughtIs(u.promises, entry.id, Serials(LosslessOf(entry.events)))
  {
    var t := Enqueued(s, entry);
    LosslessOfHolds(entry.events);
    UnderwayOneMore(s, entry);
    OpeningKeeps(s.promises, entry.events);
    UnderwayOneMore(t, RetryEntry(t.nextEntry, ids));
    OpeningKeeps(t.promises, []);
  }

  /** A push that brings lossless events and is not refused waits for its own entry. */
  lemma OwnEntryIsAwaited(s: State, adoption: Adoption, origin: Origin)
    requires adoption.unseen != [] && AdmissionOf(adoption.unseen, UsageOf(s.pending, s.queued)).Admitted?
    requires var a := AdmissionOf(adoption.unseen, UsageOf(s.pending, s.queued)); a.losslessCount > 0 || a.terminalBatch
    requires !SubmitAdopted(s, adoption, origin).1.Threw?
    ensures var (r, o) := SubmitAdopted(s, adoption, origin);
            var a := AdmissionOf(adoption.unseen, UsageOf(s.pending, s.queued));
            var t := Enqueued(s, AdmittedEntry(a, s.nextEntry, s.ledger.next));
            (r == t || r == Retried(t, adoption.ids)) && o.Issued? && s.nextEntry in o.entries
  {
  }

  lemma UnseenIsAwaited(s: State, adoption: Adoption, origin: Origin, e: Event) returns (q: Queued)
    requires e in adoption.unseen && e.lossless && !SubmitAdopted(s, adoption, origin).1.Threw?
    ensures Carries(q, e) && BringsIt(SubmitAdopted(s, adoption, origin).0, SubmitAdopted(s, adoption, origin).1, q)
  {
    var u := UsageOf(s.pending, s.queued);
    assert !AdmissionOf(adoption.unseen, u).Refused?;
    LosslessAreAdmitted(adoption.unseen, u, e);
    var a := AdmissionOf(adoption.unseen, u);
    q := WrappedIs(a.events, s.nextEntry, a.terminalBatch, s.ledger.next, e);
    OwnEntryIsAwaited(s, adoption, origin);
    BroughtIsAwaited(s, AdmittedEntry(a, s.nextEntry, s.ledger.next), adoption.ids, q);
    assert q.serial in Serials(LosslessOf(AdmittedEntry(a, s.nextEntry, s.ledger.next).events));
  }

  lemma PromiseIsAmong(p: Promises, ids: seq<Id>, id: Id)
    requires HasPromises(p, ids) && id in ids
    ensures p.current[id] in PromisesOf(p, ids)
  {
    var i :| 0 <= i < |ids| && ids[i] == id;
    assert PromisesOf(p, ids)[i] == p.current[id];
  }

  /** A push that adopts waits for the promises of the ids it adopts. */
  lemma AdoptedPromises(s: State, adoption: Adoption, origin: Origin) returns (t: State)
    requires Promised(s) && !origin.OfSettlement? && !SubmitAdopted(s, adoption, origin).1.Threw? && adoption.ids != []
    ensures Promised(t) && HasPromises(t.promises, adoption.ids) && forall q :: q in OnTheWay(s) ==> q in OnTheWay(t)
    ensures var (r, o) := SubmitAdopted(s, adoption, origin);
            o.Issued? && o.adopted == PromisesOf(t.promises, adoption.ids) && r.promises.current == t.promises.current
  {
    var a := if adoption.unseen == [] then EventAdmission.Nothing else AdmissionOf(adoption.unseen, UsageOf(s.pending, s.queued));
    t := s;
    if a.Admitted? {
      var entry := AdmittedEntry(a, s.nextEntry, s.ledger.next);
      forall x | x in a.events ensures EventFits(x, OnTheWay(s)) {
        UnclashingFits(a.events, OnTheWay(s), x);
      }
      AdmittedIsPromised(s, adoption.unseen);
      UnderwayOneMore(s, entry);
      t := Enqueued(s, entry);
    }
  }

  /** The promise under the id of an event on its way was made for the same event. */
  lemma AdoptedIsAwaited(s: State, adoption: Adoption, origin: Origin, e: Event, q: Queued) returns (a: Queued)
    requires Promised(s) && !origin.OfSettlement? && !SubmitAdopted(s, adoption, origin).1.Threw?
    requires e.id in adoption.ids && q in OnTheWay(s) && Carries(q, e)
    ensures Carries(a, e) && Awaits(SubmitAdopted(s, adoption, origin).0, SubmitAdopted(s, adoption, origin).1, a)
  {
    var t := AdoptedPromises(s, adoption, origin);
    a := t.promises.current[e.id];
    PromiseIsAmong(t.promises, adoption.ids, e.id);
    assert IsFor(a, e.id, OnTheWay(t));
    assert Agree(a, q);
  }

  lemma {:induction false} FewerTerminals(events: seq<Event>)
    ensures RunTerminals(Lossless(events)) <= RunTerminals(events)
  {
    if events != [] {
      var shorter, last := events[..|events| - 1], events[|events| - 1];
      FewerTerminals(shorter);
      if last.lossless {
        assert Lossless(events)[..|Lossless(events)| - 1] == Lossless(shorter);
      }
    }
  }

  /** A push that does not throw waits for each of its lossless events. */
  lemma PushWaitsForAll(s: State, op: Op, e: Event) returns (q: Queued)
    requires Promised(s) && op.Submit? && !op.origin.OfSettlement? && e in op.events && e.lossless
    requires !Submitted(s, op.events, op.origin, op.runChanged, op.keyFits).1.Threw?
    ensures var (t, o) := Submitted(s, op.events, op.origin, op.runChanged, op.keyFits);
            Carries(q, e) && (BringsIt(t, o, q) || Awaits(t, o, q))
  {
    var c := s.(settlement := SlotAfter(s.settlement, op.runChanged));
    assert HasLossless(op.events);
    FewerTerminals(op.events);
    PromisedStays(s, c);
    AdoptSplits(op.events, OnTheWay(c), e);
    var adoption := Adopt(op.events, OnTheWay(c)).value;
    if e in adoption.unseen {
      q := UnseenIsAwaited(c, adoption, op.origin, e);
    } else {
      q :| q in OnTheWay(c) && Carries(q, e);
      q := AdoptedIsAwaited(c, adoption, op.origin, e, q);
    }
  }

  // ---------------------------------------------------------------------------------------------
  // By which event a promise was kept.

  lemma EnqueuedKeepsKept(s: State, e: Entry)
    ensures Enqueued(s, e).promises.kept == s.promises.kept
  {
    OpeningKeeps(s.promises, e.events);
  }

  lemma SubmittedKeepsKept(s: State, events: seq<Event>, origin: Origin, runChanged: bool, keyFits: bool)
    ensures Submitted(s, events, origin, runChanged, keyFits).0.promises.kept == s.promises.kept
  {
    var c, adoption := SubmittedShape(s, events, origin, runChanged, keyFits);
    EnqueuedKeepsKept(c, RetryEntry(c.nextEntry, PendingIds(c.pending)));
    var t := AdoptedShape(c, adoption, origin);
    if t != c {
      EnqueuedKeepsKept(c, AdmittedEntry(AdmissionOf(adoption.unseen, UsageOf(c.pending, c.queued)), c.nextEntry, c.ledger.next));
    }
    EnqueuedKeepsKept(t, RetryEntry(t.nextEntry, adoption.ids));
  }

  /** Only receipts keep promises. */
  lemma OthersKeepKept(s: State, op: Op)
    requires !op.Receipt? && !op.PushBestEffort?
    ensures Next(s, op).promises.kept == s.promises.kept
  {
    if op.Submit? {
      SubmittedKeepsKept(s, op.events, op.origin, op.runChanged, op.keyFits);
    } else if op.SubmitNext? {
      if CanSubmitNext(s) {
        var e := SubmittedNextShape(s, op.keyFits);
        EnqueuedKeepsKept(s, RetryEntry(s.nextEntry, [e.id]));
        SubmittedKeepsKept(s, [e], OfSettlement, false, op.keyFits);
      }
    } else if op.Retry? {
      EnqueuedKeepsKept(s, RetryEntry(s.nextEntry, op.ids));
    }
  }

  /** The event is on its way under the promise. */
  ghost predicate UnderPromise(s: State, q: Queued, a: Queued) {
    q in OnTheWay(s) && PromiseIs(s.promises, q.event.id, a)
  }

  /** A promise that an operation finds kept, or that it keeps by an event on its way. */
  ghost predicate KeptBefore(s: State, t: State, a: Queued) {
    a in t.promises.kept && ((a in s.promises.kept && t.promises.kept[a] == s.promises.kept[a]) || UnderPromise(s, t.promises.kept[a], a))
  }

  lemma NextKeepsByEvents(s: State, op: Op, a: Queued)
    requires Promised(s) && Flowing(s) && a in Next(s, op).promises.kept
    ensures KeptBefore(s, Next(s, op), a)
  {
    if op.Receipt? {
      if CanReceipt(s, op.n) {
        ReceiptsKeepItsOwn(s.delivery.value, op.n);
        KeptByHeard(s.promises, Acknowledged(s.delivery.value, op.n), a);
      }
    } else if op.PushBestEffort? {
      if CanPush(s, op.n) {
        KeptByHeard(s.promises, PushedEvents(s, op.n), a);
      }
    } else {
      OthersKeepKept(s, op);
    }
  }

  ghost predicate WasUnderPromise(start: State, ops: seq<Op>, q: Queued, a: Queued) {
    exists n: nat :: n <= |ops| && UnderPromise(Run(start, ops[..n]), q, a)
  }

  lemma WasEarlier(start: State, ops: seq<Op>, more: seq<Op>, q: Queued, a: Queued)
    requires WasUnderPromise(start, ops, q, a)
    ensures WasUnderPromise(start, ops + more, q, a)
  {
    var n: nat :| n <= |ops| && UnderPromise(Run(start, ops[..n]), q, a);
    assert (ops + more)[..n] == ops[..n];
  }

  lemma KeptNow(start: State, ops: seq<Op>, a: Queued)
    requires ops != [] && a in Run(start, ops).promises.kept
    requires UnderPromise(Run(start, ops[..|ops| - 1]), Run(start, ops).promises.kept[a], a)
    ensures WasUnderPromise(start, ops, Run(start, ops).promises.kept[a], a)
  {
  }

  lemma KeptEarlier(start: State, ops: seq<Op>, q: Queued, a: Queued)
    requires ops != [] && WasUnderPromise(start, ops[..|ops| - 1], q, a)
    ensures WasUnderPromise(start, ops, q, a)
  {
    WasEarlier(start, ops[..|ops| - 1], [ops[|ops| - 1]], q, a);
    assert ops[..|ops| - 1] + [ops[|ops| - 1]] == ops;
  }

  /** Every promise was kept by the receipt for an event that was on its way under it. */
  lemma {:induction false} KeptWasUnderPromise(start: State, ops: seq<Op>, a: Queued)
    requires Initial(start) && a in Run(start, ops).promises.kept
    ensures WasUnderPromise(start, ops, Run(start, ops).promises.kept[a], a)
  {
    if ops != [] {
      var shorter := ops[..|ops| - 1];
      EveryRunPromises(start, shorter);
      EveryRunFlows(start, shorter);
      NextKeepsByEvents(Run(start, shorter), ops[|ops| - 1], a);
      if UnderPromise(Run(start, shorter), Run(start, ops).promises.kept[a], a) {
        KeptNow(start, ops, a);
      } else {
        KeptWasUnderPromise(start, shorter, a);
        KeptEarlier(start, ops, Run(start, ops).promises.kept[a], a);
      }
    }
  }

  // ---------------------------------------------------------------------------------------------
  // Pushes that succeeded.

  /** The host acknowledged the event and did not refuse it. */
  predicate WasAccepted(s: State, q: Queued) {
    q.serial in s.ledger.accepted && q.serial !in s.ledger.rejected
  }

  /** After `ops` the event is on its way, or in `all` it is once under the promise that then is under its
      id. */
  ghost predicate IsOrShares(start: State, ops: seq<Op>, all: seq<Op>, q: Queued) {
    || q in OnTheWay(Run(start, ops))
    || exists a :: PromiseIs(Run(start, ops).promises, q.event.id, a) && WasUnderPromise(start, all, q, a)
  }

  lemma BroughtWasAccepted(start: State, ops: seq<Op>, more: seq<Op>, o: Outcome, q: Queued)
    requires Initial(start) && BringsIt(Run(start, ops), o, q) && Succeeded(Run(start, ops + more).promises, o)
    ensures WasAccepted(Run(start, ops + more), q)
  {
    var t := Run(start, ops);
    EveryRunBrings(start, ops + more);
    EveryRunFlows(start, ops + more);
    var i :| i in o.entries && i in t.promises.brought && q.serial in t.promises.brought[i];
    RunKeepsBrought(start, ops, more, i, t.promises.brought[i]);
  }

  lemma AwaitedWasAccepted(start: State, ops: seq<Op>, more: seq<Op>, o: Outcome, a: Queued, e: Event) returns (q: Queued)
    requires Initial(start) && Awaits(Run(start, ops), o, a) && Succeeded(Run(start, ops + more).promises, o) && Carries(a, e)
    ensures Carries(q, e) && WasAccepted(Run(start, ops + more), q) && IsOrShares(start, ops, ops + more, q)
  {
    EveryRunPromises(start, ops + more);
    EveryRunFlows(start, ops + more);
    KeptWasUnderPromise(start, ops + more, a);
    q := Run(start, ops + more).promises.kept[a];
    assert Agree(a, q);
    assert PromiseIs(Run(start, ops).promises, q.event.id, a);
  }

  /** A push that was told that it succeeded had each of its lossless events acknowledged by the host,
      those it brought and those that were on their way already.  Of an event on its way already the host
      acknowledged a copy that was on its way under the promise the push found. */
  lemma ResolvedPushesWereAccepted(start: State, ops: seq<Op>, push: Op, more: seq<Op>, e: Event) returns (q: Queued)
    requires Initial(start)
    requires push.Submit? && !push.origin.OfSettlement? && e in push.events && e.lossless
    requires Succeeded(Run(start, ops + [push] + more).promises,
                       Submitted(Run(start, ops), push.events, push.origin, push.runChanged, push.keyFits).1)
    ensures Carries(q, e) && IsOrShares(start, ops + [push], ops + [push] + more, q)
    ensures WasAccepted(Run(start, ops + [push] + more), q)
  {
    EveryRunPromises(start, ops);
    q := PushWaitsForAll(Run(start, ops), push, e);
    RunOneMore(start, ops, push);
    var o := Submitted(Run(start, ops), push.events, push.origin, push.runChanged, push.keyFits).1;
    if BringsIt(Run(start, ops + [push]), o, q) {
      BroughtWasAccepted(start, ops + [push], more, o, q);
    } else {
      q := AwaitedWasAccepted(start, ops + [push], more, o, q, e);
    }
  }
}
