/** Limits on the events themselves: what holds of everything held, and what does not hold of the total. */
module EventTotals {
  import opened Wrappers
  import opened EventAdmission
  import opened EventEntries
  import opened EventDelivery
  import opened EventPublisher
  import opened EventFates
  import opened EventBudget
  import opened EventRuns
  import opened EventTheorems

  lemma Associated(a: seq<Queued>, b: seq<Queued>, c: seq<Queued>)
    ensures a + (b + c) == (a + b) + c
  {
  }

  lemma {:induction false} FlattenConcat(a: seq<Entry>, b: seq<Entry>)
    ensures Flatten(a + b) == Flatten(a) + Flatten(b)
  {
    if b == [] {
      assert a + b == a;
    } else {
      var fewer, last := b[..|b| - 1], b[|b| - 1];
      FlattenConcat(a, fewer);
      assert a + b == a + fewer + [last];
      FlattenOneMore(a + fewer, last);
      Associated(Flatten(a), Flatten(fewer), last.events);
    }
  }

  lemma {:induction false} AllWeighedConcat(a: seq<Entry>, b: seq<Entry>)
    requires AllWeighed(a) && AllWeighed(b)
    ensures AllWeighed(a + b)
  {
    if b == [] {
      assert a + b == a;
    } else {
      AllWeighedConcat(a, b[..|b| - 1]);
      AllWeighedOneMore(a + b[..|b| - 1], b[|b| - 1]);
      assert a + b == a + b[..|b| - 1] + [b[|b| - 1]];
    }
  }

  lemma {:induction false} WeightConcat(a: seq<Entry>, b: seq<Entry>)
    ensures Weight(a + b) == Plus(Weight(a), Weight(b))
  {
    if b == [] {
      assert a + b == a;
      Sums(NONE, Weight(a), NONE);
    } else {
      var fewer, last := b[..|b| - 1], b[|b| - 1];
      WeightConcat(a, fewer);
      WeightOneMore(a + fewer, last);
      assert a + b == a + fewer + [last];
      Sums(Weight(a), Weight(fewer), last.weight);
    }
  }

  lemma SmallerBoth(a: seq<Queued>, b: seq<Queued>, c: seq<Queued>, d: seq<Queued>)
    requires Smaller(TallyOf(a), TallyOf(c)) && Smaller(TallyOf(b), TallyOf(d))
    ensures Smaller(TallyOf(a + b), TallyOf(c + d))
  {
    TallyConcat(a, b);
    TallyConcat(c, d);
  }

  /** What the delivery retains, or what is pending. */
  function Retained(s: State): seq<Queued> {
    if s.delivery.Some? then s.delivery.value.remainingLossless else s.pending.events
  }

  lemma RetainedIsSmaller(s: State)
    requires Counted(s)
    ensures Smaller(TallyOf(Retained(s)), TallyOf(s.pending.events + Flatten(Delivering(s))))
  {
    assert s.pending.events + [] == s.pending.events;
  }

  lemma GivenAndQueued(s: State)
    ensures s.pending.events + Flatten(Delivering(s) + s.queue) == (s.pending.events + Flatten(Delivering(s))) + Flatten(s.queue)
  {
    FlattenConcat(Delivering(s), s.queue);
    Associated(s.pending.events, Flatten(Delivering(s)), Flatten(s.queue));
  }

  lemma HeldIsSmaller(s: State)
    requires Counted(s)
    ensures Smaller(TallyOf(Held(s)), TallyOf(s.pending.events + Flatten(Delivering(s) + s.queue)))
  {
    RetainedIsSmaller(s);
    GivenAndQueued(s);
    QueuedIsSmaller(Retained(s), s.queue, s.pending.events + Flatten(Delivering(s)));
  }

  lemma QueuedIsSmaller(retained: seq<Queued>, queue: seq<Entry>, given: seq<Queued>)
    requires Smaller(TallyOf(retained), TallyOf(given))
    ensures Smaller(TallyOf(retained + LosslessOf(Flatten(queue))), TallyOf(given + Flatten(queue)))
  {
    LosslessTally(Flatten(queue));
    SmallerBoth(retained, LosslessOf(Flatten(queue)), given, Flatten(queue));
  }

  /** Everything lossless that is held outside the terminal lane fits both limits in one batch, after
      any run. */
  lemma HeldFitsTheBudget(start: State, ops: seq<Op>)
    requires Initial(start)
    ensures var t := TallyOf(Held(Run(start, ops)));
            && t.count <= MAX_PENDING_DRIVER_EVENTS
            && DriverEventBatchBytes(t.bytes, t.count) <= MAX_PENDING_DRIVER_EVENT_BYTES
  {
    var s := Run(start, ops);
    EveryRunFlows(start, ops);
    CountersAreExact(start, ops);
    BudgetsHold(start, ops);
    HeldIsSmaller(s);
    AllWeighedConcat(Delivering(s), s.queue);
    WeightConcat(Delivering(s), s.queue);
    LeftoverFits(s.pending, Delivering(s) + s.queue, Held(s));
  }

  // ---------------------------------------------------------------------------------------------
  // The total with best-effort events.

  /** Everything counted against the limits when best-effort events are pushed. */
  function Total(s: State): int {
    s.pending.losslessCount + s.queued.eventCount
  }

  /** Unique best-effort events that fill the queue to its limit and fit its bytes. */
  predicate Fills(best: seq<Event>) {
    && |best| == MAX_PENDING_DRIVER_EVENTS && UniqueIds(best) && Measure(best) <= MAX_PENDING_DRIVER_EVENT_BYTES
    && RunTerminals(best) == 0 && Lossless(best) == []
  }

  predicate IsOrdinary(e: Event) {
    e.lossless && !e.runTerminal && e.bytes + 2 <= MAX_PENDING_DRIVER_EVENT_BYTES
  }

  lemma {:induction false} BestEffortIsUnseen(events: seq<Event>, candidates: seq<Queued>)
    requires forall e :: e in events ==> !e.lossless
    ensures var r := Adopt(events, candidates); r.Success? && r.value.unseen == events && r.value.ids == []
  {
    if events != [] {
      var shorter, last := events[..|events| - 1], events[|events| - 1];
      BestEffortIsUnseen(shorter, candidates);
      assert shorter + [last] == events;
    }
  }

  lemma FilledIsAdmitted(best: seq<Event>, u: Usage)
    requires Fills(best) && u == UsageOf(Pending([], 0, 0, false, None), NONE)
    ensures AdmissionOf(best, u) == Admitted(best, Measure(best), MAX_PENDING_DRIVER_EVENTS, 0, 0, false)
  {
    assert best[..|best|] == best;
  }

  /** A queue full of best-effort events `best`. */
  ghost predicate Full(s: State, best: seq<Event>) {
    && |s.queue| == 1 && (forall q :: q in s.queue[0].events ==> q.event in best) && s.pending.events == [] && s.delivery.None? && s.settlement.None?
    && s.pending.losslessCount == s.pending.losslessBytes == 0 && !s.pending.terminalBatch && s.pending.terminalKey.None?
    && s.queued.eventCount == MAX_PENDING_DRIVER_EVENTS && s.queued.losslessCount == s.queued.losslessBytes == 0
    && s.queued.terminalBatches == 0
  }

  lemma FilledIsFull(start: State, best: seq<Event>, keyFits: bool)
    requires Initial(start) && Fills(best)
    ensures Full(Next(start, Submit(best, OfRun, false, keyFits)), best)
  {
    assert Underway(start.pending, start.delivery, start.queue) == [];
    LosslessHolds(best);
    BestEffortIsUnseen(best, Underway(start.pending, start.delivery, start.queue));
    FilledIsAdmitted(best, UsageOf(start.pending, start.queued));
    var e := AdmittedEntry(AdmissionOf(best, UsageOf(start.pending, start.queued)), start.nextEntry, start.ledger.next);
    assert start.queue + [e] == [e];
    forall q | q in e.events ensures q.event in best {
      var i :| 0 <= i < |best| && e.events[i] == q;
      assert q.event == best[i];
    }
  }

  lemma OneIsAdmitted(e: Event, u: Usage)
    requires IsOrdinary(e) && u.pendingLosslessCount == u.queuedLosslessCount == 0
    requires u.pendingLosslessBytes == u.queuedLosslessBytes == 0 && u.queuedEventCount == MAX_PENDING_DRIVER_EVENTS
    ensures AdmissionOf([e], u) == Admitted([e], Measure([e]), 1, Measure([e]), 1, false)
  {
    LosslessOne(e);
  }

  lemma OneIsUnseen(e: Event, candidates: seq<Queued>)
    requires e.id !in IdsOf(candidates)
    ensures Adopt([e], candidates) == Success(Adoption([e], []))
  {
    assert [e][..0] == [];
    assert forall q :: q in candidates ==> q.event.id in IdsOf(candidates);
    assert [] + [e] == [e];
  }

  lemma FullIsApart(s: State, best: seq<Event>, e: Event)
    requires Full(s, best) && forall b :: b in best ==> b.id != e.id
    ensures e.id !in IdsOf(Underway(s.pending, s.delivery, s.queue))
  {
    assert s.queue[..0] == [];
    assert Flatten(s.queue) == Flatten(s.queue[..0]) + s.queue[0].events;
    assert Flatten(s.queue[..0]) == [];
  }

  lemma OneIsEnqueued(s: State, e: Event)
    requires s.queued.eventCount == MAX_PENDING_DRIVER_EVENTS && e.id !in IdsOf(Underway(s.pending, s.delivery, s.queue))
    requires AdmissionOf([e], UsageOf(s.pending, s.queued)) == Admitted([e], Measure([e]), 1, Measure([e]), 1, false)
    ensures var t := SubmitAdopted(s, Adoption([e], []), OfRun).0;
            t.pending == s.pending && t.queued.eventCount == MAX_PENDING_DRIVER_EVENTS + 1
  {
  }

  /** A Run's push when no terminal and no settlement is in the way. */
  lemma PlainSubmit(s: State, events: seq<Event>, keyFits: bool)
    requires events != [] && RunTerminals(events) == 0 && s.settlement.None? && s.pending.terminalKey.None?
    requires !s.pending.terminalBatch && s.queued.terminalBatches == 0
    requires Adopt(events, Underway(s.pending, s.delivery, s.queue)) == Success(Adoption(events, []))
    ensures Next(s, Submit(events, OfRun, false, keyFits)) == SubmitAdopted(s, Adoption(events, []), OfRun).0
  {
    assert s.(settlement := None) == s;
  }

  lemma OneMoreExceeds(s: State, best: seq<Event>, e: Event, keyFits: bool)
    requires Full(s, best) && IsOrdinary(e) && forall b :: b in best ==> b.id != e.id
    ensures Total(Next(s, Submit([e], OfRun, false, keyFits))) == MAX_PENDING_DRIVER_EVENTS + 1
  {
    FullIsApart(s, best, e);
    OneIsUnseen(e, Underway(s.pending, s.delivery, s.queue));
    OneIsAdmitted(e, UsageOf(s.pending, s.queued));
    LosslessOne(e);
    PlainSubmit(s, [e], keyFits);
    OneIsEnqueued(s, e);
  }

  /** The failing case: a push of best-effort events that fills the queue, then a push of one lossless
      event. */
  lemma TotalCanExceed(start: State, best: seq<Event>, e: Event, keyFits: bool)
    requires Initial(start) && Fills(best) && IsOrdinary(e) && forall b :: b in best ==> b.id != e.id
    ensures var ops: seq<Op> := [];
            Total(Run(start, ops + [Submit(best, OfRun, false, keyFits)] + [Submit([e], OfRun, false, keyFits)]))
            == MAX_PENDING_DRIVER_EVENTS + 1
  {
    var ops: seq<Op> := [];
    RunOneMore(start, ops, Submit(best, OfRun, false, keyFits));
    RunOneMore(start, ops + [Submit(best, OfRun, false, keyFits)], Submit([e], OfRun, false, keyFits));
    FilledIsFull(start, best, keyFits);
    OneMoreExceeds(Next(start, Submit(best, OfRun, false, keyFits)), best, e, keyFits);
  }
}
