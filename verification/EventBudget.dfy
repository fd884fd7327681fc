/** The publisher's counters, and the budgets that they keep although the measure of a batch is not
    the sum of the measures of its parts. */
module EventBudget {
  import opened Wrappers
  import opened EventAdmission
  import opened EventEntries
  import opened EventDelivery
  import opened EventPublisher
  import opened EventFates

  function Delivering(s: State): seq<Entry> {
    if s.delivery.Some? then s.delivery.value.entries else []
  }

  function CountersOf(t: Tally): Counters {
    Counters(DriverEventBatchBytes(t.bytes, t.count), t.count, DriverEventBatchBytes(t.losslessBytes, t.losslessCount),
             t.losslessCount, if t.terminal then 1 else 0)
  }

  /** An entry's counters are the measures of its events outside the terminal lane. */
  ghost predicate Weighed(e: Entry) {
    e.weight == CountersOf(TallyOf(e.events))
  }

  ghost predicate AllWeighed(entries: seq<Entry>) {
    entries != [] ==> AllWeighed(entries[..|entries| - 1]) && Weighed(entries[|entries| - 1])
  }

  ghost predicate PendingCounted(p: Pending) {
    var t := TallyOf(p.events);
    && AllLossless(p.events)
    && p.losslessBytes == DriverEventBatchBytes(t.bytes, t.count) && p.losslessCount == t.count && p.terminalBatch == t.terminal
  }

  /** No more lossless events than there were. */
  ghost predicate Smaller(a: Tally, b: Tally) {
    a.losslessBytes <= b.losslessBytes && a.losslessCount <= b.losslessCount && (a.terminal ==> b.terminal)
  }

  ghost predicate EntriesCounted(queued: Counters, delivering: seq<Entry>, queue: seq<Entry>) {
    AllWeighed(queue) && AllWeighed(delivering) && queued == Plus(Weight(delivering), Weight(queue))
  }

  ghost predicate DeliveryCounted(d: Delivery, pending: Pending) {
    && d.events == pending.events + Flatten(d.entries)
    && AllLossless(d.remainingLossless) && Smaller(TallyOf(d.remainingLossless), TallyOf(d.events))
  }

  /** The queued counters are the sums over the queue and the delivery, the pending ones the measure of
      the pending list, and a delivery is of what was pending and its entries. */
  ghost predicate Counted(s: State) {
    && EntriesCounted(s.queued, Delivering(s), s.queue) && PendingCounted(s.pending)
    && (s.delivery.Some? ==> DeliveryCounted(s.delivery.value, s.pending))
  }

  /** Lossless events outside the terminal lane, pending and queued together, stay within both
      limits, and there is at most one terminal batch. */
  predicate WithinBudget(s: State) {
    && s.pending.losslessCount + s.queued.losslessCount <= MAX_PENDING_DRIVER_EVENTS
    && s.pending.losslessBytes + s.queued.losslessBytes <= MAX_PENDING_DRIVER_EVENT_BYTES
    && (if s.pending.terminalBatch then 1 else 0) + s.queued.terminalBatches <= 1
  }

  // ---------------------------------------------------------------------------------------------
  // Tallies.

  function Both(a: Tally, b: Tally): Tally {
    Tally(a.bytes + b.bytes, a.count + b.count, a.losslessBytes + b.losslessBytes, a.losslessCount + b.losslessCount,
          a.terminal || b.terminal)
  }

  lemma TallyOneOfBoth(a: Tally, b: Tally, q: Queued)
    ensures TallyOne(Both(a, b), q) == Both(a, TallyOne(b, q))
  {
  }

  lemma NothingBoth(a: Tally)
    ensures Both(a, TallyOf([])) == a
  {
  }

  lemma {:induction false} TallyConcat(a: seq<Queued>, b: seq<Queued>)
    ensures TallyOf(a + b) == Both(TallyOf(a), TallyOf(b))
  {
    if b == [] {
      assert a + b == a;
      NothingBoth(TallyOf(a));
    } else {
      TallyConcat(a, b[..|b| - 1]);
      assert (a + b)[..|a + b| - 1] == a + b[..|b| - 1];
      TallyOneOfBoth(TallyOf(a), TallyOf(b[..|b| - 1]), b[|b| - 1]);
    }
  }

  lemma TallyOneMore(qs: seq<Queued>, q: Queued)
    ensures TallyOf(qs + [q]) == TallyOne(TallyOf(qs), q)
  {
    assert (qs + [q])[..|qs|] == qs;
  }

  /** Leaving a stretch out makes a list smaller. */
  lemma SmallerWithout(a: seq<Queued>, x: seq<Queued>, b: seq<Queued>)
    ensures Smaller(TallyOf(a + b), TallyOf(a + x + b))
  {
    TallyConcat(a, b);
    TallyConcat(a + x, b);
    TallyConcat(a, x);
  }

  lemma SmallerSuffix(x: seq<Queued>, left: seq<Queued>)
    ensures Smaller(TallyOf(left), TallyOf(x + left))
  {
    TallyConcat(x, left);
  }

  ghost predicate SameLossless(l: Tally, t: Tally) {
    l.losslessBytes == t.losslessBytes && l.losslessCount == t.losslessCount && (l.terminal ==> t.terminal)
  }

  lemma SameLosslessOneMore(l: Tally, t: Tally, q: Queued)
    requires SameLossless(l, t)
    ensures SameLossless(if q.event.lossless then TallyOne(l, q) else l, TallyOne(t, q))
  {
  }

  lemma {:induction false} LosslessTally(qs: seq<Queued>)
    ensures SameLossless(TallyOf(LosslessOf(qs)), TallyOf(qs))
  {
    if qs != [] {
      var shorter, last := qs[..|qs| - 1], qs[|qs| - 1];
      LosslessTally(shorter);
      SameLosslessOneMore(TallyOf(LosslessOf(shorter)), TallyOf(shorter), last);
      TallyOneMore(LosslessOf(shorter), last);
    }
  }

  lemma {:induction false} AllLosslessTally(qs: seq<Queued>)
    requires AllLossless(qs)
    ensures TallyOf(qs).bytes == TallyOf(qs).losslessBytes && TallyOf(qs).count == TallyOf(qs).losslessCount
  {
    if qs != [] {
      AllLosslessTally(qs[..|qs| - 1]);
      assert qs[|qs| - 1] in qs;
    }
  }

  lemma {:induction false} NothingTallied(qs: seq<Queued>)
    ensures NothingIfNone(TallyOf(qs))
  {
    if qs != [] {
      NothingTallied(qs[..|qs| - 1]);
    }
  }

  // ---------------------------------------------------------------------------------------------
  // Entries.

  function TallyOfEvents(events: seq<Event>): Tally {
    Tally(Bytes(events), |events|, Bytes(Lossless(events)), |Lossless(events)|, false)
  }

  lemma EventsOneMore(events: seq<Event>, q: Queued)
    requires !q.terminalLane
    ensures TallyOfEvents(events + [q.event]) == TallyOne(TallyOfEvents(events), q)
  {
    assert (events + [q.event])[..|events|] == events;
    if q.event.lossless {
      BytesOfOneMore(Lossless(events), q.event);
    }
  }

  lemma WrapOneMore(events: seq<Event>, id: nat, serial: nat)
    requires events != []
    ensures var n := |events| - 1;
            Wrap(events, id, false, serial) == Wrap(events[..n], id, false, serial) + [Queued(events[n], Some(id), false, serial + n)]
  {
  }

  lemma {:induction false} WrapTally(events: seq<Event>, id: nat, serial: nat)
    ensures TallyOf(Wrap(events, id, false, serial)) == TallyOfEvents(events)
  {
    if events != [] {
      var n, q := |events| - 1, Queued(events[|events| - 1], Some(id), false, serial + |events| - 1);
      var shorter := Wrap(events[..n], id, false, serial);
      WrapTally(events[..n], id, serial);
      WrapOneMore(events, id, serial);
      TallyOneMore(shorter, q);
      EventsOneMore(events[..n], q);
      assert events[..n] + [q.event] == events;
    }
  }

  lemma {:induction false} WrapInLane(events: seq<Event>, id: nat, serial: nat)
    requires forall e :: e in events ==> e.lossless
    ensures TallyOf(Wrap(events, id, true, serial)) == Tally(0, 0, 0, 0, events != [])
  {
    if events != [] {
      var n := |events| - 1;
      WrapInLane(events[..n], id, serial);
      assert Wrap(events, id, true, serial)[..n] == Wrap(events[..n], id, true, serial);
      assert events[n] in events;
    }
  }

  lemma AdmittedIsWeighed(events: seq<Event>, u: Usage, id: nat, serial: nat)
    requires AdmissionOf(events, u).Admitted?
    ensures Weighed(AdmittedEntry(AdmissionOf(events, u), id, serial))
  {
    var a := AdmissionOf(events, u);
    AdmissionTakes(events, u);
    AdmissionIsMeasured(events, u);
    if a.terminalBatch {
      LosslessHolds(events);
      WrapInLane(a.events, id, serial);
    } else {
      WrapTally(a.events, id, serial);
    }
  }

  lemma RetryIsWeighed(id: nat, ids: seq<Id>)
    ensures Weighed(RetryEntry(id, ids))
  {
  }

  lemma Sums(a: Counters, b: Counters, c: Counters)
    ensures Plus(Plus(a, b), c) == Plus(a, Plus(b, c))
    ensures Minus(Plus(a, b), a) == b && Plus(NONE, b) == b == Plus(b, NONE)
  {
  }

  lemma AllWeighedOneMore(entries: seq<Entry>, e: Entry)
    requires AllWeighed(entries) && Weighed(e)
    ensures AllWeighed(entries + [e])
  {
    assert (entries + [e])[..|entries|] == entries;
  }

  lemma WeightOneMore(entries: seq<Entry>, e: Entry)
    ensures Weight(entries + [e]) == Plus(Weight(entries), e.weight)
  {
    assert (entries + [e])[..|entries|] == entries;
  }

  lemma EntriesOneMore(queued: Counters, delivering: seq<Entry>, queue: seq<Entry>, e: Entry)
    requires EntriesCounted(queued, delivering, queue) && Weighed(e)
    ensures EntriesCounted(Plus(queued, e.weight), delivering, queue + [e])
  {
    AllWeighedOneMore(queue, e);
    WeightOneMore(queue, e);
    Sums(Weight(delivering), Weight(queue), e.weight);
  }

  lemma EntriesTaken(queued: Counters, delivering: seq<Entry>, queue: seq<Entry>)
    requires EntriesCounted(queued, delivering, queue)
    ensures EntriesCounted(Minus(queued, Weight(delivering)), [], queue)
    ensures delivering == [] ==> EntriesCounted(queued, queue, [])
  {
    Sums(Weight(delivering), Weight(queue), NONE);
  }

  lemma EnqueuedIsCounted(s: State, e: Entry)
    requires Counted(s) && EntriesCounted(Plus(s.queued, e.weight), Delivering(s), s.queue + [e])
    ensures Counted(Enqueued(s, e))
  {
  }

  lemma AdmittedStaysWithin(s: State, events: seq<Event>, id: nat, serial: nat)
    requires WithinBudget(s) && AdmissionOf(events, UsageOf(s.pending, s.queued)).Admitted?
    ensures WithinBudget(Enqueued(s, AdmittedEntry(AdmissionOf(events, UsageOf(s.pending, s.queued)), id, serial)))
  {
    AdmissionIsSafe(events, UsageOf(s.pending, s.queued));
    AdmissionIsMeasured(events, UsageOf(s.pending, s.queued));
  }

  // ---------------------------------------------------------------------------------------------
  // Deliveries.

  lemma BegunIsCounted(pending: Pending, entries: seq<Entry>)
    requires PendingCounted(pending)
    ensures DeliveryCounted(Begin(pending, entries), pending)
  {
    var events := pending.events + Flatten(entries);
    LosslessOfHolds(events);
    LosslessTally(events);
  }

  lemma DrainedIsCounted(s: State)
    requires Counted(s) && s.delivery.None?
    ensures Counted(Drained(s)) && (WithinBudget(s) ==> WithinBudget(Drained(s)))
  {
    if Drained(s) != s {
      EntriesTaken(s.queued, [], s.queue);
      BegunIsCounted(s.pending, s.queue);
    }
  }

  /** A step of the delivery that only shortens the retained list. */
  lemma ShortenedIsCounted(s: State, d: Delivery)
    requires Counted(s) && s.delivery.Some?
    requires d.entries == s.delivery.value.entries && d.events == s.delivery.value.events
    requires Smaller(TallyOf(d.remainingLossless), TallyOf(s.delivery.value.remainingLossless))
    requires AllLossless(d.remainingLossless)
    ensures Counted(s.(delivery := Some(d)))
  {
  }

  /** What entries weigh together is at least the weight of their events in one batch. */
  ghost predicate Covers(w: Counters, t: Tally) {
    && t.losslessCount == w.losslessCount && CountersOf(t).losslessBytes <= w.losslessBytes
    && CountersOf(t).terminalBatches <= w.terminalBatches
  }

  ghost predicate NothingIfNone(t: Tally) {
    t.losslessCount == 0 ==> t.losslessBytes == 0
  }

  lemma CoversBoth(v: Counters, w: Counters, t: Tally, u: Tally)
    requires Covers(v, t) && Covers(w, u) && NothingIfNone(t) && NothingIfNone(u)
    ensures Covers(Plus(v, w), Both(t, u))
  {
  }

  lemma {:induction false} WeightOfAll(entries: seq<Entry>)
    requires AllWeighed(entries)
    ensures Covers(Weight(entries), TallyOf(Flatten(entries)))
  {
    if entries != [] {
      var shorter, last := entries[..|entries| - 1], entries[|entries| - 1];
      WeightOfAll(shorter);
      TallyConcat(Flatten(shorter), last.events);
      NothingTallied(Flatten(shorter));
      NothingTallied(last.events);
      CoversBoth(Weight(shorter), last.weight, TallyOf(Flatten(shorter)), TallyOf(last.events));
    }
  }

  lemma {:induction false} DisownedTally(qs: seq<Queued>)
    ensures TallyOf(Disowned(qs)) == TallyOf(qs)
  {
    if qs != [] {
      DisownedTally(qs[..|qs| - 1]);
      assert Disowned(qs)[..|qs| - 1] == Disowned(qs[..|qs| - 1]);
    }
  }

  lemma NewPendingIsCounted(qs: seq<Queued>, key: Option<Key>)
    requires AllLossless(qs)
    ensures PendingCounted(PendingOf(qs, key))
  {
    DisownedTally(qs);
    forall q | q in Disowned(qs) ensures q.event.lossless {
      var i :| 0 <= i < |qs| && Disowned(qs)[i] == q;
      assert qs[i] in qs;
    }
  }

  /** What a delivery leaves over is never larger than what was pending and what it took on. */
  lemma LeftoverFits(pending: Pending, entries: seq<Entry>, left: seq<Queued>)
    requires PendingCounted(pending) && AllWeighed(entries) && AllLossless(left)
    requires Smaller(TallyOf(left), TallyOf(pending.events + Flatten(entries)))
    ensures var p, w := PendingOf(left, None), Weight(entries);
            && p.losslessCount <= pending.losslessCount + w.losslessCount
            && p.losslessBytes <= pending.losslessBytes + w.losslessBytes
            && (if p.terminalBatch then 1 else 0) <= (if pending.terminalBatch then 1 else 0) + w.terminalBatches
  {
    var t, p, f := TallyOf(left), TallyOf(pending.events), TallyOf(Flatten(entries));
    AllLosslessTally(left);
    AllLosslessTally(pending.events);
    NothingTallied(pending.events);
    NothingTallied(Flatten(entries));
    TallyConcat(pending.events, Flatten(entries));
    WeightOfAll(entries);
    CoversBoth(CountersOf(p), Weight(entries), p, f);
    CoversSmaller(Plus(CountersOf(p), Weight(entries)), Both(p, f), t);
  }

  lemma CoversSmaller(w: Counters, u: Tally, t: Tally)
    requires Covers(w, u) && Smaller(t, u)
    ensures t.losslessCount <= w.losslessCount && CountersOf(t).losslessBytes <= w.losslessBytes
    ensures CountersOf(t).terminalBatches <= w.terminalBatches
  {
  }

  lemma FinishedIsCounted(s: State)
    requires Counted(s) && CanFinish(s)
    ensures Counted(Finished(s)) && (WithinBudget(s) ==> WithinBudget(Finished(s)))
  {
    var d := s.delivery.value;
    NewPendingIsCounted(d.remainingLossless, d.terminalKey);
    EntriesTaken(s.queued, d.entries, s.queue);
    LeftoverFits(s.pending, d.entries, d.remainingLossless);
  }

  lemma {:induction false} WithoutIdIsSmaller(qs: seq<Queued>, id: Id)
    ensures Smaller(TallyOf(WithoutId(qs, id)), TallyOf(qs))
  {
    if qs != [] {
      WithoutIdIsSmaller(qs[1..], id);
      assert qs == [qs[0]] + qs[1..];
      TallyConcat([qs[0]], qs[1..]);
      TallyConcat([qs[0]], WithoutId(qs[1..], id));
    }
  }

  /** Keeping fewer of the pending events keeps the counters and the budget. */
  lemma KeptIsCounted(s: State, id: Id, keep: seq<Queued>)
    requires PendingCounted(s.pending) && keep == WithoutId(s.pending.events, id)
    ensures PendingCounted(PendingOf(keep, None))
    ensures WithinBudget(s) ==> WithinBudget(s.(pending := PendingOf(keep, None)))
  {
    WithoutIdHolds(s.pending.events, id);
    WithoutIdIsSmaller(s.pending.events, id);
    AllLosslessTally(s.pending.events);
    AllLosslessTally(keep);
    NewPendingIsCounted(keep, None);
  }

  lemma AbandonedIsCounted(s: State)
    requires Counted(s) && CanAbandon(s) && s.delivery.None?
    ensures Counted(Abandoned(s)) && (WithinBudget(s) ==> WithinBudget(Abandoned(s)))
  {
    var id := s.settlement.value.ids[|s.settlement.value.ids| - 1];
    KeptIsCounted(s, id, WithoutId(s.pending.events, id));
  }
}
