/** When a push finds an event on its way without a promise: only when the settlement's task pushed a copy
    of an event that was queued or being delivered, and the first copy was acknowledged. */
module EventCopies {
  import opened Wrappers
  import opened EventAdmission
  import opened EventEntries
  import opened EventDelivery
  import opened EventPromises
  import opened TerminalSettlement
  import opened EventPublisher
  import opened EventFates
  import opened EventRuns
  import opened EventTotals
  import opened EventLinks
  import opened EventAcknowledgements

  // ---------------------------------------------------------------------------------------------
  // One push.

  ghost predicate AllFound(ids: seq<Id>, candidates: seq<Queued>) {
    forall id :: id in ids ==> exists q :: q in candidates && q.event.lossless && q.event.id == id
  }

  lemma {:induction false} AdoptedAreFound(events: seq<Event>, candidates: seq<Queued>)
    requires Adopt(events, candidates).Success?
    ensures AllFound(Adopt(events, candidates).value.ids, candidates)
  {
    if events != [] {
      var n := |events| - 1;
      AdoptedAreFound(events[..n], candidates);
      var found := FindById(candidates, events[n].id);
      if found.Some? {
        assert found.value in candidates;
      }
    }
  }

  lemma {:induction false} OpeningLeavesOthers(p: Promises, qs: seq<Queued>, id: Id)
    requires id !in IdsOf(qs)
    ensures id in OpenAll(p, qs).current <==> id in p.current
  {
    if qs != [] {
      assert qs[|qs| - 1] in qs && forall q :: q in qs[..|qs| - 1] ==> q in qs;
      OpeningLeavesOthers(p, qs[..|qs| - 1], id);
    }
  }

  /** The push adopts an event whose promise was forgotten. */
  ghost predicate AdoptsForgotten(s: State, events: seq<Event>) {
    var r := Adopt(events, OnTheWay(s));
    r.Success? && exists id :: id in r.value.ids && id in s.promises.forgotten
  }

  lemma AdmittedLeavesPromises(s: State, unseen: seq<Event>, ids: seq<Id>)
    requires AllFound(ids, OnTheWay(s)) && AdmissionOf(unseen, UsageOf(s.pending, s.queued)).Admitted?
    requires !Clashes(AdmissionOf(unseen, UsageOf(s.pending, s.queued)).events, OnTheWay(s))
    ensures var e := AdmittedEntry(AdmissionOf(unseen, UsageOf(s.pending, s.queued)), s.nextEntry, s.ledger.next);
            HasPromises(Enqueued(s, e).promises, ids) <==> HasPromises(s.promises, ids)
  {
    var a := AdmissionOf(unseen, UsageOf(s.pending, s.queued));
    var e := AdmittedEntry(a, s.nextEntry, s.ledger.next);
    forall id | id in ids ensures id in OpenAll(s.promises, e.events).current <==> id in s.promises.current {
      var q :| q in OnTheWay(s) && q.event.lossless && q.event.id == id;
      forall x | x in e.events ensures x.event.id != id {
        var i :| 0 <= i < |a.events| && e.events[i] == x;
        assert a.events[i] in a.events;
      }
      OpeningLeavesOthers(s.promises, e.events, id);
    }
  }

  /** What a push that got as far as its adopted events says of their promises. */
  lemma AdoptionTells(s: State, adoption: Adoption, origin: Origin)
    requires AllFound(adoption.ids, OnTheWay(s)) && !origin.OfSettlement?
    ensures var o := SubmitAdopted(s, adoption, origin).1;
            && (o == Threw(PromiseMissing) ==> !HasPromises(s.promises, adoption.ids))
            && (o.Issued? ==> HasPromises(s.promises, adoption.ids)) && (o.Ignored? ==> adoption.ids == [])
  {
    var a := if adoption.unseen == [] then EventAdmission.Nothing else AdmissionOf(adoption.unseen, UsageOf(s.pending, s.queued));
    if a.Admitted? && !Clashes(a.events, OnTheWay(s)) {
      AdmittedLeavesPromises(s, adoption.unseen, adoption.ids);
    }
  }

  lemma FoundHavePromises(s: State, ids: seq<Id>)
    requires Promised(s) && AllFound(ids, OnTheWay(s))
    ensures HasPromises(s.promises, ids) <==> forall id :: id in ids ==> id !in s.promises.forgotten
  {
    forall id | id in ids ensures id in s.promises.current <==> id !in s.promises.forgotten {
      var q :| q in OnTheWay(s) && q.event.lossless && q.event.id == id;
    }
  }

  /** What a push comes to after its first checks. */
  lemma PushComesTo(s: State, events: seq<Event>, origin: Origin, runChanged: bool, keyFits: bool) returns (c: State)
    requires !origin.OfSettlement?
    requires var o := Submitted(s, events, origin, runChanged, keyFits).1; o.Threw? ==> o.error == PromiseMissing
    ensures c == s || c == s.(settlement := None)
    ensures var o, adopted := Submitted(s, events, origin, runChanged, keyFits).1, Adopt(events, OnTheWay(c));
            || (o.Ignored? && !HasLossless(events))
            || (adopted.Success? && o == SubmitAdopted(c, adopted.value, origin).1)
  {
    c := s.(settlement := SlotAfter(s.settlement, runChanged));
    FewerTerminals(events);
    AdoptionErrors(events, OnTheWay(c));
  }

  lemma NothingAdopted(events: seq<Event>, candidates: seq<Queued>)
    requires !HasLossless(events)
    ensures Adopt(events, candidates).Success? && Adopt(events, candidates).value.ids == []
  {
    BestEffortIsUnseen(events, candidates);
  }

  /** A push that is refused for no other reason is refused for a missing promise exactly when it adopts an
      event whose promise was forgotten. */
  lemma PromiseMissingIff(s: State, events: seq<Event>, origin: Origin, runChanged: bool, keyFits: bool)
    requires Promised(s) && !origin.OfSettlement?
    requires var o := Submitted(s, events, origin, runChanged, keyFits).1; o.Threw? ==> o.error == PromiseMissing
    ensures Submitted(s, events, origin, runChanged, keyFits).1 == Threw(PromiseMissing) <==> AdoptsForgotten(s, events)
  {
    var o := Submitted(s, events, origin, runChanged, keyFits).1;
    var c := PushComesTo(s, events, origin, runChanged, keyFits);
    if o.Ignored? && !HasLossless(events) {
      NothingAdopted(events, OnTheWay(s));
    } else {
      var adoption := Adopt(events, OnTheWay(c)).value;
      AdoptedAreFound(events, OnTheWay(c));
      AdoptionTells(c, adoption, origin);
      FoundHavePromises(s, adoption.ids);
    }
  }

  // ---------------------------------------------------------------------------------------------
  // Runs in which the settlement's task brings no copy.

  /** The settlement's task pushes an event of which a copy is queued or being delivered. */
  predicate BringsCopy(s: State, keyFits: bool) {
    && CanSubmitNext(s) && s.settlement.value.events[s.settlement.value.nextIndex].id in IdsOf(OnTheWay(s))
    && OnTheWay(SubmittedNext(s, keyFits).0) != OnTheWay(s)
  }

  predicate NoCopies(start: State, ops: seq<Op>) {
    forall i :: 0 <= i < |ops| && ops[i].SubmitNext? ==> !BringsCopy(Run(start, ops[..i]), ops[i].keyFits)
  }

  /** No id is on its way twice, and every lossless event on its way has its promise. */
  ghost predicate Single(s: State) {
    && IdsOf(Front(s)) !! IdsOf(Flatten(s.queue))
    && forall q :: q in OnTheWay(s) && q.event.lossless ==> q.event.id in s.promises.current
  }

  lemma {:induction false} OpeningOpens(p: Promises, qs: seq<Queued>)
    ensures forall q :: q in qs && q.event.lossless ==> q.event.id in OpenAll(p, qs).current
    ensures p.current.Keys <= OpenAll(p, qs).current.Keys
  {
    if qs != [] {
      OpeningOpens(p, qs[..|qs| - 1]);
    }
  }

  lemma EnqueuedIsSingle(s: State, e: Entry)
    requires Single(s) && IdsOf(e.events) !! IdsOf(OnTheWay(s))
    ensures Single(Enqueued(s, e))
  {
    UnderwayOneMore(s, e);
    FlattenOneMore(s.queue, e);
    IdsConcat(Front(s), Flatten(s.queue));
    IdsConcat(Flatten(s.queue), e.events);
    OpeningOpens(s.promises, e.events);
    forall q | q in OnTheWay(Enqueued(s, e)) && q.event.lossless ensures q.event.id in OpenAll(s.promises, e.events).current {
      assert q in OnTheWay(s) || q in e.events;
    }
  }

  lemma RetriedIsSingle(s: State, ids: seq<Id>)
    requires Single(s)
    ensures Single(Retried(s, ids)) && OnTheWay(Retried(s, ids)) == OnTheWay(s)
  {
    var e := RetryEntry(s.nextEntry, ids);
    assert IdsOf(e.events) == {};
    EnqueuedIsSingle(s, e);
    UnderwayOneMore(s, e);
  }

  lemma AdmittedAreApart(s: State, events: seq<Event>)
    requires AdmissionOf(events, UsageOf(s.pending, s.queued)).Admitted?
    requires !Clashes(AdmissionOf(events, UsageOf(s.pending, s.queued)).events, OnTheWay(s))
    ensures var e := AdmittedEntry(AdmissionOf(events, UsageOf(s.pending, s.queued)), s.nextEntry, s.ledger.next);
            IdsOf(e.events) !! IdsOf(OnTheWay(s))
  {
    var a := AdmissionOf(events, UsageOf(s.pending, s.queued));
    var e := AdmittedEntry(a, s.nextEntry, s.ledger.next);
    forall q | q in e.events ensures q.event.id !in IdsOf(OnTheWay(s)) {
      var i :| 0 <= i < |a.events| && e.events[i] == q;
      assert a.events[i] in a.events;
    }
  }

  /** A push of events that are apart from what is on its way. */
  lemma SubmittedIsSingle(s: State, events: seq<Event>, origin: Origin, runChanged: bool, keyFits: bool)
    requires Single(s) && (origin.OfSettlement? ==> !Clashes(events, OnTheWay(s)))
    ensures Single(Submitted(s, events, origin, runChanged, keyFits).0)
  {
    var c, adoption := SubmittedShape(s, events, origin, runChanged, keyFits);
    RetriedIsSingle(c, PendingIds(c.pending));
    var t := AdoptedShape(c, adoption, origin);
    if t != c && (origin.OfSettlement? ==> adoption == Adoption(events, [])) {
      var u := UsageOf(c.pending, c.queued);
      forall e | e in AdmissionOf(adoption.unseen, u).events ensures e.id !in IdsOf(OnTheWay(s)) {
        AdmittedAreSubmitted(adoption.unseen, u, e);
      }
      AdmittedAreApart(c, adoption.unseen);
      EnqueuedIsSingle(c, AdmittedEntry(AdmissionOf(adoption.unseen, u), c.nextEntry, c.ledger.next));
    }
    if Single(t) {
      RetriedIsSingle(t, adoption.ids);
    }
  }

  /** An entry either brings something, which shows, or leaves what is on its way single. */
  lemma EntryShows(s: State, e: Entry)
    requires Single(s)
    ensures OnTheWay(Enqueued(s, e)) == OnTheWay(s) ==> Single(Enqueued(s, e))
  {
    UnderwayOneMore(s, e);
    if e.events == [] {
      assert IdsOf(e.events) == {};
      EnqueuedIsSingle(s, e);
    } else {
      assert |OnTheWay(s) + e.events| > |OnTheWay(s)|;
    }
  }

  lemma AdmittedNothingIsSingle(s: State, e: Event)
    requires Single(s)
    ensures var r := SubmitAdopted(s, Adoption([e], []), OfSettlement).0; OnTheWay(r) == OnTheWay(s) ==> Single(r)
  {
    var a := AdmissionOf([e], UsageOf(s.pending, s.queued));
    if a.Admitted? {
      EntryShows(s, AdmittedEntry(a, s.nextEntry, s.ledger.next));
    }
  }

  /** A push of the settlement's event that brings nothing asks again for what is pending at most. */
  lemma BringingNothingIsSingle(s: State, e: Event, keyFits: bool)
    requires Single(s) && OnTheWay(Submitted(s, [e], OfSettlement, false, keyFits).0) == OnTheWay(s)
    ensures Single(Submitted(s, [e], OfSettlement, false, keyFits).0)
  {
    var c, adoption := SubmittedShape(s, [e], OfSettlement, false, keyFits);
    RetriedIsSingle(s, PendingIds(s.pending));
    AdmittedNothingIsSingle(s, e);
  }

  lemma NextOfSettlementIsSingle(s: State, keyFits: bool)
    requires Single(s) && CanSubmitNext(s) && !BringsCopy(s, keyFits)
    ensures Single(SubmittedNext(s, keyFits).0)
  {
    var e := SubmittedNextShape(s, keyFits);
    RetriedIsSingle(s, [e.id]);
    if SubmittedNext(s, keyFits).0 != Retried(s, [e.id]) {
      if e.id in IdsOf(OnTheWay(s)) {
        BringingNothingIsSingle(s, e, keyFits);
      } else {
        SubmittedIsSingle(s, [e], OfSettlement, false, keyFits);
      }
    }
  }

  /** Steps that leave the events on their way and their promises alone. */
  lemma SingleStays(s: State, t: State)
    requires Single(s) && Front(t) == Front(s) && t.queue == s.queue && t.promises.current == s.promises.current
    ensures Single(t)
  {
  }

  lemma DrainedIsSingle(s: State)
    requires Single(s) && Promised(s)
    ensures Single(Drained(s))
  {
    DrainedIsPromised(s);
    assert Flatten([]) == [];
  }

  /** Of the events on their way `left` stays of those in front, and so does what is queued. */
  lemma LeftIsSingle(current: map<Id, Queued>, front: seq<Queued>, queued: seq<Queued>, left: seq<Queued>, gone: set<Id>)
    requires IdsOf(front) !! IdsOf(queued) && forall q :: q in front + queued && q.event.lossless ==> q.event.id in current
    requires (forall q :: q in left ==> q in front) && gone !! IdsOf(left) && gone !! IdsOf(queued)
    ensures IdsOf(Disowned(left)) !! IdsOf(queued)
    ensures forall q :: q in Disowned(left) + queued && q.event.lossless ==> q.event.id in current - gone
  {
    SameIds(left);
    assert IdsOf(left) <= IdsOf(front);
    forall q | q in Disowned(left) + queued && q.event.lossless ensures q.event.id in current - gone {
      if q in queued {
        assert q in front + queued && q.event.id in IdsOf(queued);
      } else {
        var i :| 0 <= i < |left| && Disowned(left)[i] == q;
        assert left[i] in left && left[i] in front + queued;
        assert left[i].event.id in IdsOf(left);
      }
    }
  }

  lemma FinishedIsSingle(s: State)
    requires Single(s) && Promised(s) && CanFinish(s)
    ensures Single(Finished(s))
  {
    var d := s.delivery.value;
    var gone := IdsOf(d.events) - IdsOf(d.remainingLossless);
    FinishedOnTheWay(s);
    LeftIsSingle(s.promises.current, d.events, Flatten(s.queue), d.remainingLossless, gone);
    assert Finished(s).promises.current == s.promises.current - gone;
  }

  lemma AbandonedIsSingle(s: State)
    requires Single(s) && CanAbandon(s)
    ensures Single(Abandoned(s))
  {
    var id := s.settlement.value.ids[|s.settlement.value.ids| - 1];
    assert Abandoned(s).promises.current == s.promises.current - {id};
    if s.delivery.Some? {
      forall q | q in OnTheWay(s) ensures q.event.id != id {
        assert q in s.delivery.value.events || q in Flatten(s.queue);
      }
    } else {
      var keep := WithoutId(s.pending.events, id);
      WithoutIdHolds(s.pending.events, id);
      LeftIsSingle(s.promises.current, s.pending.events, Flatten(s.queue), keep, {id});
    }
  }

  lemma DeliveryStepIsSingle(s: State, op: Op)
    requires Single(s) && (op.StartBlock? || op.Receipt? || op.Return? || op.Refuse? || op.Fail? || op.PushBestEffort?)
    ensures Single(Next(s, op))
  {
    match op {
      case Receipt(n) => if CanReceipt(s, n) { KeepingLeaves(s.promises, Acknowledged(s.delivery.value, n)); }
      case PushBestEffort(n) => if CanPush(s, n) { KeepingLeaves(s.promises, PushedEvents(s, n)); }
      case _ =>
    }
    SingleStays(s, Next(s, op));
  }

  lemma NextIsSingle(s: State, op: Op)
    requires Single(s) && Promised(s) && (op.SubmitNext? ==> !BringsCopy(s, op.keyFits))
    ensures Single(Next(s, op))
  {
    match op {
      case Submit(events, origin, runChanged, keyFits) =>
        if !origin.OfSettlement? { SubmittedIsSingle(s, events, origin, runChanged, keyFits); }
      case SubmitNext(keyFits) => if CanSubmitNext(s) { NextOfSettlementIsSingle(s, keyFits); }
      case Retry(ids) => RetriedIsSingle(s, ids);
      case Drain => DrainedIsSingle(s);
      case Finish => if CanFinish(s) { FinishedIsSingle(s); }
      case Abandon => if CanAbandon(s) { AbandonedIsSingle(s); }
      case Reserve(closing, runChanged) => SlotStepsApart(s, op);
      case Settle(to) => SlotStepsApart(s, op);
      case _ => DeliveryStepIsSingle(s, op);
    }
  }

  lemma NoCopiesBefore(start: State, ops: seq<Op>)
    requires ops != [] && NoCopies(start, ops)
    ensures NoCopies(start, ops[..|ops| - 1])
    ensures ops[|ops| - 1].SubmitNext? ==> !BringsCopy(Run(start, ops[..|ops| - 1]), ops[|ops| - 1].keyFits)
  {
    var shorter := ops[..|ops| - 1];
    forall i | 0 <= i < |shorter| && shorter[i].SubmitNext? ensures !BringsCopy(Run(start, shorter[..i]), shorter[i].keyFits) {
      assert shorter[..i] == ops[..i] && shorter[i] == ops[i];
    }
  }

  lemma {:induction false} WithoutCopiesSingle(start: State, ops: seq<Op>)
    requires Initial(start) && NoCopies(start, ops)
    ensures Single(Run(start, ops))
  {
    if ops == [] {
      assert |OnTheWay(start)| == 0 && |Front(start)| == 0;
    } else {
      NoCopiesBefore(start, ops);
      WithoutCopiesSingle(start, ops[..|ops| - 1]);
      EveryRunPromises(start, ops[..|ops| - 1]);
      NextIsSingle(Run(start, ops[..|ops| - 1]), ops[|ops| - 1]);
    }
  }

  lemma NothingForgotten(s: State, events: seq<Event>)
    requires Single(s) && Promised(s)
    ensures !AdoptsForgotten(s, events)
  {
    if Adopt(events, OnTheWay(s)).Success? {
      AdoptedAreFound(events, OnTheWay(s));
      forall id | id in Adopt(events, OnTheWay(s)).value.ids ensures id !in s.promises.forgotten {
        var q :| q in OnTheWay(s) && q.event.lossless && q.event.id == id;
      }
    }
  }

  /** As long as the settlement's task brought no copy, no push is refused for a missing promise. */
  lemma WithoutCopiesNoneIsMissing(start: State, ops: seq<Op>, events: seq<Event>, origin: Origin, runChanged: bool, keyFits: bool)
    requires Initial(start) && NoCopies(start, ops) && !origin.OfSettlement?
    ensures Submitted(Run(start, ops), events, origin, runChanged, keyFits).1 != Threw(PromiseMissing)
  {
    WithoutCopiesSingle(start, ops);
    EveryRunPromises(start, ops);
    NothingForgotten(Run(start, ops), events);
    if Submitted(Run(start, ops), events, origin, runChanged, keyFits).1 == Threw(PromiseMissing) {
      PromiseMissingIff(Run(start, ops), events, origin, runChanged, keyFits);
    }
  }

  // ---------------------------------------------------------------------------------------------
  // A run in which a push is refused for a missing promise.

  /** A closing event of a Run, and what its one entry weighs. */
  predicate IsClosing(x: Event) {
    x.lossless && x.explicitId && !x.runTerminal && 2 * (x.bytes + 2) <= MAX_PENDING_DRIVER_EVENT_BYTES
  }

  function WeightOf(x: Event): Counters {
    Counters(x.bytes + 2, 1, x.bytes + 2, 1, 0)
  }

  /** Nothing is pending. */
  predicate NonePending(p: Pending) {
    p.events == [] && p.losslessCount == p.losslessBytes == 0 && !p.terminalBatch && p.terminalKey.None?
  }

  predicate Brings(e: Entry, q: Queued, x: Event) {
    e.events == [q] && q.event == x && !q.terminalLane && e.weight == WeightOf(x) && e.terminalKey.None? && !e.awaitPending
  }

  lemma ClosingAdmitted(x: Event, u: Usage)
    requires IsClosing(x) && 0 <= u.pendingLosslessCount + u.queuedLosslessCount <= 1
    requires 0 <= u.pendingLosslessBytes + u.queuedLosslessBytes <= x.bytes + 2 && 0 <= u.pendingLosslessCount + u.queuedEventCount <= 1
    ensures AdmissionOf([x], u) == Admitted([x], x.bytes + 2, 1, x.bytes + 2, 1, false)
  {
    LosslessOne(x);
    assert Measure([x]) == x.bytes + 2 && UniqueIds([x]);
    assert CountRefusal([x], u).None? && Candidates([x], u) == Some([x]) && LosslessFits([x], false, u);
  }

  lemma ClosingBrings(x: Event, owner: nat, serial: nat) returns (q: Queued)
    requires IsClosing(x)
    ensures Brings(AdmittedEntry(Admitted([x], x.bytes + 2, 1, x.bytes + 2, 1, false), owner, serial), q, x)
  {
    q := Wrap([x], owner, false, serial)[0];
    assert Wrap([x], owner, false, serial) == [q];
  }

  lemma OpensOne(p: Promises, q: Queued)
    ensures OpenAll(p, [q]) == OpenOne(p, q)
  {
    assert [q][..0] == [];
  }

  /** The first copy waits in the queue. */
  ghost predicate FirstQueued(s: State, x: Event, q: Queued) {
    && NonePending(s.pending) && s.delivery.None? && |s.queue| == 1 && Brings(s.queue[0], q, x)
    && s.queued == WeightOf(x) && s.promises.current == map[x.id := q]
  }

  lemma FlattenOne(queue: seq<Entry>)
    requires |queue| == 1
    ensures Flatten(queue) == queue[0].events && Weight(queue) == queue[0].weight
  {
    assert queue[..0] == [];
    assert Flatten(queue[..0]) == [];
  }

  lemma ClosingIsEnqueued(s: State, x: Event, origin: Origin)
    requires AdmissionOf([x], UsageOf(s.pending, s.queued)) == Admitted([x], x.bytes + 2, 1, x.bytes + 2, 1, false)
    requires origin.OfSettlement? || x.id !in IdsOf(OnTheWay(s))
    ensures SubmitAdopted(s, Adoption([x], []), origin).0
            == Enqueued(s, AdmittedEntry(Admitted([x], x.bytes + 2, 1, x.bytes + 2, 1, false), s.nextEntry, s.ledger.next))
  {
  }

  lemma NewPublisherQueues(s: State, x: Event, e: Entry, q: Queued)
    requires Initial(s) && x.lossless && Brings(e, q, x)
    ensures FirstQueued(Enqueued(s, e), x, q) && Enqueued(s, e).settlement.None?
  {
    OpensOne(s.promises, q);
    assert s.queue == [] && s.promises.current == map[];
  }

  lemma FirstIsQueued(s: State, x: Event, keyFits: bool) returns (q: Queued)
    requires Initial(s) && IsClosing(x)
    ensures var t := Next(s, Submit([x], OfRun, false, keyFits)); FirstQueued(t, x, q) && t.settlement.None?
  {
    assert OnTheWay(s) == [];
    OneIsUnseen(x, OnTheWay(s));
    ClosingAdmitted(x, UsageOf(s.pending, s.queued));
    LosslessOne(x);
    PlainSubmit(s, [x], keyFits);
    ClosingIsEnqueued(s, x, OfRun);
    q := ClosingBrings(x, s.nextEntry, s.ledger.next);
    NewPublisherQueues(s, x, AdmittedEntry(Admitted([x], x.bytes + 2, 1, x.bytes + 2, 1, false), s.nextEntry, s.ledger.next), q);
  }

  /** The slot is taken for the closing event and the terminal. */
  function SlotFor(x: Event, terminal: Event, index: nat, running: bool): Option<Settlement> {
    Some(Settlement([x, terminal], [x.id, terminal.id], index, {}, running, false, false))
  }

  lemma SlotIsTaken(s: State, x: Event, terminal: Event, q: Queued)
    requires FirstQueued(s, x, q) && s.settlement.None? && IsSettlement([x, terminal]) && x.id != terminal.id
    ensures var t := Next(s, Reserve([x, terminal], false)); FirstQueued(t, x, q) && t.settlement == SlotFor(x, terminal, 0, true)
  {
    FlattenOne(s.queue);
    assert OnTheWay(s) == [q];
    assert q.event.id in IdsOf([q]);
    assert FindById([q], x.id) == Some(q);
    assert FindById([q], terminal.id).None?;
    assert EventIds([x, terminal]) == [x.id, terminal.id];
    var ids := EventIds([x, terminal]);
    assert IdSet(ids) * {} == {};
  }

  /** The first copy is in its attempt, and nothing is queued. */
  ghost predicate FirstAttempted(s: State, x: Event, q: Queued, first: Entry) {
    && NonePending(s.pending) && Brings(first, q, x)
    && s.delivery == Some(Delivery([first], [q], 0, Attempting(1, [q], 0), [q], None, {}, {}, {}))
    && s.promises.current == map[x.id := q]
  }

  lemma BegunAlone(pending: Pending, e: Entry, x: Event, q: Queued)
    requires NonePending(pending) && Brings(e, q, x) && x.lossless
    ensures Begin(pending, [e]) == Delivery([e], [q], 0, Ready, [q], None, {}, {}, {})
  {
    FlattenOne([e]);
    assert pending.events + [q] == [q];
    assert FirstKey([e]).None? by {
      assert [e][1..] == [];
    }
    assert [q][..0] == [] && LosslessOf([q]) == [q];
  }

  lemma BlockAlone(d: Delivery, e: Entry, q: Queued)
    requires d == Delivery([e], [q], 0, Ready, [q], None, {}, {}, {}) && q.event.lossless
    ensures NextBlock(d) == d.(phase := Attempting(1, [q], 0))
  {
    assert [q][0..1] == [q];
  }

  lemma FirstIsAttempted(s: State, x: Event, q: Queued)
    requires FirstQueued(s, x, q) && x.lossless
    ensures var t := Next(Next(s, Drain), StartBlock);
            FirstAttempted(t, x, q, s.queue[0]) && t.queue == [] && t.queued == WeightOf(x) && t.settlement == s.settlement
  {
    assert s.queue == [s.queue[0]];
    BegunAlone(s.pending, s.queue[0], x, q);
    BlockAlone(Begin(s.pending, s.queue), s.queue[0], q);
  }

  /** Behind the attempt waits the copy that the settlement's task pushed. */
  ghost predicate SecondQueued(s: State, x: Event, copy: Queued) {
    |s.queue| == 1 && Brings(s.queue[0], copy, x) && s.queued == Plus(WeightOf(x), WeightOf(x))
  }

  lemma SecondIsQueued(s: State, x: Event, terminal: Event, q: Queued, first: Entry, keyFits: bool) returns (copy: Queued)
    requires FirstAttempted(s, x, q, first) && s.queue == [] && s.queued == WeightOf(x) && IsClosing(x)
    requires s.settlement == SlotFor(x, terminal, 0, true)
    ensures var t := Next(s, SubmitNext(keyFits));
            FirstAttempted(t, x, q, first) && SecondQueued(t, x, copy) && t.settlement == s.settlement
  {
    ClosingAdmitted(x, UsageOf(s.pending, s.queued));
    copy := ClosingBrings(x, s.nextEntry, s.ledger.next);
    OpensOne(s.promises, copy);
    assert x.id !in IdsOf(s.pending.events);
    assert [x, terminal][0] == x;
  }

  lemma SlotMovesOn(x: Event, terminal: Event)
    requires x.id != terminal.id
    ensures Remembered(SlotFor(x, terminal, 0, true), {x.id}) == SlotFor(x, terminal, 1, true)
  {
    var st, ids := SlotFor(x, terminal, 0, true).value, [x.id, terminal.id];
    assert ids[0] in IdSet(ids);
    assert {} + {x.id} * IdSet(ids) == {x.id} && {x.id} - {x.id} == {};
    assert Advanced(st.(nextIndex := 1)) == st.(nextIndex := 1);
    assert Advanced(st.(acceptedIds := {x.id})) == Advanced(st.(nextIndex := 1));
  }

  lemma FirstIsAcknowledged(s: State, x: Event, terminal: Event, q: Queued, first: Entry, copy: Queued)
    requires FirstAttempted(s, x, q, first) && SecondQueued(s, x, copy) && x.id != terminal.id
    requires s.settlement == SlotFor(x, terminal, 0, true)
    ensures var t := Next(s, Receipt(1));
            && SecondQueued(t, x, copy) && t.settlement == SlotFor(x, terminal, 1, true) && t.promises.current == s.promises.current
            && t.delivery == Some(Delivery([first], [q], 0, Attempting(1, [q], 1), [], None, {}, {x.id}, {}))
  {
    assert [q][0..1] == [q] && [q][1..] == [];
    assert IdsOf([q]) == {x.id};
    KeepingLeaves(s.promises, [q]);
    SlotMovesOn(x, terminal);
    assert {} + {x.id} == {x.id};
  }

  /** One copy is on its way, alone, and its id has no promise. */
  ghost predicate Orphaned(s: State, x: Event) {
    && s.delivery.None? && |OnTheWay(s)| == 1 && OnTheWay(s)[0].event == x && !OnTheWay(s)[0].terminalLane
    && x.id !in s.promises.current && !s.pending.terminalBatch && s.pending.terminalKey.None? && s.queued.terminalBatches == 0
    && |s.queue| <= 1 && (forall e :: e in s.queue ==> e.weight.terminalBatches == 0)
  }

  lemma FirstIsOver(s: State, x: Event, q: Queued, first: Entry, copy: Queued)
    requires SecondQueued(s, x, copy) && Brings(first, q, x)
    requires s.delivery == Some(Delivery([first], [q], 0, Attempting(1, [q], 1), [], None, {}, {x.id}, {}))
    ensures var t := Next(Next(s, Return), Finish);
            Orphaned(t, x) && t.settlement == s.settlement && t.queue == s.queue
  {
    var t := Next(Next(s, Return), Finish);
    FlattenOne([first]);
    FlattenOne(s.queue);
    assert q in [q] && x.id in IdsOf([q]);
    assert Disowned([]) == [];
    assert OnTheWay(t) == [copy];
  }

  lemma NotInTheLane(q: Queued)
    requires !q.terminalLane
    ensures !TallyOf([q]).terminal
  {
    assert [q][..0] == [];
  }

  /** The copy on its way is in an attempt, alone. */
  ghost predicate OrphanAttempted(s: State, q: Queued, entry: Entry) {
    && s.queue == [] && s.delivery.Some? && s.delivery.value.entries == [entry] && s.delivery.value.events == [q]
    && s.delivery.value.phase == Attempting(1, [q], 0) && s.delivery.value.remainingLossless == [q]
    && !q.terminalLane && entry.weight.terminalBatches == 0 && s.queued.terminalBatches == 0
  }

  lemma OrphanIsAttempted(s: State, x: Event) returns (q: Queued)
    requires Orphaned(s, x) && x.lossless && |s.queue| == 1
    ensures var t := Next(Next(s, Drain), StartBlock);
            OrphanAttempted(t, q, s.queue[0]) && t.settlement == s.settlement && t.promises == s.promises
    ensures q.event == x
  {
    q := OnTheWay(s)[0];
    assert OnTheWay(s) == [q] && s.queue == [s.queue[0]] && s.queue[0] in s.queue;
    assert [q][..0] == [] && LosslessOf([q]) == [q];
    assert [q][0..1] == [q];
  }

  lemma OrphanIsLeft(s: State, x: Event, q: Queued, entry: Entry)
    requires OrphanAttempted(s, q, entry) && q.event == x && x.id !in s.promises.current
    ensures var t := Next(Next(s, Fail), Finish); Orphaned(t, x) && t.settlement == s.settlement && t.queue == []
  {
    var t := Next(Next(s, Fail), Finish);
    FlattenOne([entry]);
    NotInTheLane(q);
    assert OnTheWay(t) == Disowned([q]);
  }

  lemma FailedRound(s: State, x: Event)
    requires Orphaned(s, x) && x.lossless && |s.queue| == 1
    ensures var t := Next(Next(Next(Next(s, Drain), StartBlock), Fail), Finish);
            Orphaned(t, x) && t.settlement == s.settlement && t.queue == []
  {
    var q := OrphanIsAttempted(s, x);
    OrphanIsLeft(Next(Next(s, Drain), StartBlock), x, q, s.queue[0]);
  }

  lemma AskedAgain(s: State, x: Event)
    requires Orphaned(s, x) && s.queue == []
    ensures var t := Next(s, Retry([x.id])); Orphaned(t, x) && |t.queue| == 1 && t.settlement == s.settlement
  {
    UnderwayOneMore(s, RetryEntry(s.nextEntry, [x.id]));
    assert OnTheWay(Retried(s, [x.id])) == OnTheWay(s);
  }

  lemma GivenUpAround(s: State, x: Event, terminal: Event)
    requires Orphaned(s, x) && s.queue == [] && x.id != terminal.id && s.settlement == SlotFor(x, terminal, 1, true)
    ensures var t := Next(Next(s, Settle(FailTask)), Abandon); Orphaned(t, x) && t.settlement.None?
  {
    var q := s.pending.events[0];
    assert Flatten(s.queue) == [] && OnTheWay(s) == s.pending.events == [q];
    assert WithoutId([q], terminal.id) == [q];
    NotInTheLane(q);
    assert Disowned([q])[0].event == x;
  }

  lemma AdoptsOne(x: Event, q: Queued)
    requires x.lossless && x.explicitId && q.event == x
    ensures Adopt([x], [q]) == Success(Adoption([], [x.id]))
  {
    var none: seq<Id> := [];
    assert [x][..0] == [] && Adopt([x][..0], [q]) == Success(Adoption([], []));
    assert FindById([q], x.id) == Some(q);
    assert none + [x.id] == [x.id];
  }

  lemma OrphanIsRefused(s: State, x: Event, keyFits: bool)
    requires Orphaned(s, x) && IsClosing(x) && s.settlement.None?
    ensures Submitted(s, [x], OfRun, false, keyFits).1 == Threw(PromiseMissing)
  {
    var q := OnTheWay(s)[0];
    LosslessOne(x);
    AdoptsOne(x, q);
    assert OnTheWay(s) == [q] && s.(settlement := None) == s;
  }

  /** The operations lead from a new publisher to the state. */
  lemma OneMore(start: State, ops: seq<Op>, s: State, op: Op) returns (all: seq<Op>)
    requires Reached(start, ops, s)
    ensures Reached(start, all, Next(s, op))
  {
    ReachedOneMore(start, ops, s, op);
    all := ops + [op];
  }

  lemma PlayedUntilCopied(start: State, x: Event, terminal: Event, keyFits: bool)
    returns (ops: seq<Op>, s: State, q: Queued, first: Entry, copy: Queued)
    requires Initial(start) && IsClosing(x) && IsSettlement([x, terminal]) && x.id != terminal.id
    ensures Reached(start, ops, s) && FirstAttempted(s, x, q, first) && SecondQueued(s, x, copy)
    ensures s.settlement == SlotFor(x, terminal, 0, true)
  {
    ReachedIsRun(start, [], start);
    q := FirstIsQueued(start, x, keyFits);
    ops := OneMore(start, [], start, Submit([x], OfRun, false, keyFits));
    s := Next(start, Submit([x], OfRun, false, keyFits));
    SlotIsTaken(s, x, terminal, q);
    ops := OneMore(start, ops, s, Reserve([x, terminal], false));
    s := Next(s, Reserve([x, terminal], false));
    first := s.queue[0];
    FirstIsAttempted(s, x, q);
    ops := OneMore(start, ops, s, Drain);
    ops := OneMore(start, ops, Next(s, Drain), StartBlock);
    s := Next(Next(s, Drain), StartBlock);
    copy := SecondIsQueued(s, x, terminal, q, first, keyFits);
    ops := OneMore(start, ops, s, SubmitNext(keyFits));
    s := Next(s, SubmitNext(keyFits));
  }

  lemma PlayedUntilOrphaned(start: State, before: seq<Op>, s: State, x: Event, terminal: Event, q: Queued, first: Entry, copy: Queued)
    returns (ops: seq<Op>, t: State)
    requires Reached(start, before, s) && FirstAttempted(s, x, q, first) && SecondQueued(s, x, copy) && x.id != terminal.id
    requires s.settlement == SlotFor(x, terminal, 0, true)
    ensures Reached(start, ops, t) && Orphaned(t, x) && |t.queue| == 1 && t.settlement == SlotFor(x, terminal, 1, true)
  {
    FirstIsAcknowledged(s, x, terminal, q, first, copy);
    ops := OneMore(start, before, s, Receipt(1));
    t := Next(s, Receipt(1));
    FirstIsOver(t, x, q, first, copy);
    ops := OneMore(start, ops, t, Return);
    ops := OneMore(start, ops, Next(t, Return), Finish);
    t := Next(Next(t, Return), Finish);
  }

  lemma PlayedRound(start: State, before: seq<Op>, s: State, x: Event) returns (ops: seq<Op>, t: State)
    requires Reached(start, before, s) && Orphaned(s, x) && x.lossless && |s.queue| == 1
    ensures Reached(start, ops, t) && Orphaned(t, x) && t.settlement == s.settlement && t.queue == []
  {
    FailedRound(s, x);
    ops := OneMore(start, before, s, Drain);
    ops := OneMore(start, ops, Next(s, Drain), StartBlock);
    ops := OneMore(start, ops, Next(Next(s, Drain), StartBlock), Fail);
    ops := OneMore(start, ops, Next(Next(Next(s, Drain), StartBlock), Fail), Finish);
    t := Next(Next(Next(Next(s, Drain), StartBlock), Fail), Finish);
  }

  lemma PlayedUntilGivenUp(start: State, before: seq<Op>, s: State, x: Event, terminal: Event) returns (ops: seq<Op>, t: State)
    requires Reached(start, before, s) && Orphaned(s, x) && s.queue == [] && x.id != terminal.id
    requires s.settlement == SlotFor(x, terminal, 1, true)
    ensures Reached(start, ops, t) && Orphaned(t, x) && t.settlement.None?
  {
    GivenUpAround(s, x, terminal);
    ops := OneMore(start, before, s, Settle(FailTask));
    ops := OneMore(start, ops, Next(s, Settle(FailTask)), Abandon);
    t := Next(Next(s, Settle(FailTask)), Abandon);
  }

  /** The failing case.  A closing event is queued when its Run's settlement takes the slot, and is being
      delivered when the settlement's task goes on: the task looks among the pending events only and pushes
      a copy.  The first copy is acknowledged, which drops the promise; the transport fails for the second,
      twice; the terminal is superseded and given up.  The Run then pushes the event again and is told that
      its promise is missing. */
  lemma PromiseCanBeMissing(start: State, x: Event, terminal: Event, keyFits: bool) returns (ops: seq<Op>)
    requires Initial(start) && IsClosing(x) && IsSettlement([x, terminal]) && x.id != terminal.id
    ensures Submitted(Run(start, ops), [x], OfRun, false, keyFits).1 == Threw(PromiseMissing)
    ensures !NoCopies(start, ops)
  {
    var s, q, first, copy;
    ops, s, q, first, copy := PlayedUntilCopied(start, x, terminal, keyFits);
    ops, s := PlayedUntilOrphaned(start, ops, s, x, terminal, q, first, copy);
    ops, s := PlayedRound(start, ops, s, x);
    AskedAgain(s, x);
    ops := OneMore(start, ops, s, Retry([x.id]));
    ops, s := PlayedRound(start, ops, Next(s, Retry([x.id])), x);
    ops, s := PlayedUntilGivenUp(start, ops, s, x, terminal);
    OrphanIsRefused(s, x, keyFits);
    ReachedIsRun(start, ops, s);
    if NoCopies(start, ops) {
      WithoutCopiesNoneIsMissing(start, ops, [x], OfRun, false, keyFits);
    }
  }
}
