/** How a terminal that a delivery left over is known again: by the key of the batch it came in, which the
    publisher keeps for as long as the terminal is pending. */
module EventKeys {
  import opened Wrappers
  import opened EventAdmission
  import opened EventEntries
  import opened EventDelivery
  import opened EventPromises
  import opened EventPublisher
  import opened EventBudget
  import opened EventRuns
  import opened EventTheorems
  import EventLinks
  import EventSettlements
  import EventSubmissions

  /** The key of a terminal that was pushed alone. */
  function OwnKey(q: Queued): Option<Key> {
    Some(KeyOf([q.event]))
  }

  ghost predicate HasTerminal(qs: seq<Queued>) {
    exists q :: q in qs && q.terminalLane
  }

  /** The key is that of the terminal among the events. */
  ghost predicate KeyIsFor(key: Option<Key>, qs: seq<Queued>) {
    forall q :: q in qs && q.terminalLane ==> key == OwnKey(q)
  }

  ghost predicate Keyed(e: Entry) {
    KeyIsFor(e.terminalKey, e.events) && (e.terminalKey.Some? <==> HasTerminal(e.events))
  }

  ghost predicate AllKeyed(entries: seq<Entry>) {
    forall e :: e in entries ==> Keyed(e)
  }

  ghost predicate KeysKnown(s: State) {
    && AllKeyed(s.queue)
    && KeyIsFor(s.pending.terminalKey, s.pending.events) && (s.pending.terminalKey.Some? ==> HasTerminal(s.pending.events))
    && (s.delivery.Some? ==> AllKeyed(s.delivery.value.entries) && KeyIsFor(s.delivery.value.terminalKey, s.delivery.value.events))
  }

  // ---------------------------------------------------------------------------------------------
  // Pushes.

  lemma {:induction false} FewerTerminals(events: seq<Event>)
    ensures RunTerminals(Lossless(events)) <= RunTerminals(events)
  {
    if events != [] {
      var shorter, last := events[..|events| - 1], events[|events| - 1];
      FewerTerminals(shorter);
      if last.lossless {
        assert Lossless(events)[..|Lossless(events)| - 1] == Lossless(shorter);
      }
    }
  }

  lemma {:induction false} UnseenHasNoTerminals(events: seq<Event>, candidates: seq<Queued>)
    requires Adopt(events, candidates).Success? && RunTerminals(events) == 0
    ensures RunTerminals(Adopt(events, candidates).value.unseen) == 0
  {
    if events != [] {
      var shorter, last := events[..|events| - 1], events[|events| - 1];
      UnseenHasNoTerminals(shorter, candidates);
      var before, after := Adopt(shorter, candidates).value.unseen, Adopt(events, candidates).value.unseen;
      if after != before {
        assert after == before + [last] && after[..|after| - 1] == before;
      }
    }
  }

  /** Either the push has no terminal, or it is one event. */
  ghost predicate Plain(events: seq<Event>) {
    RunTerminals(events) == 0 || |events| == 1
  }

  lemma AdmittedIsKeyed(events: seq<Event>, u: Usage, id: nat, serial: nat)
    requires Plain(events) && AdmissionOf(events, u).Admitted?
    ensures Keyed(AdmittedEntry(AdmissionOf(events, u), id, serial))
  {
    var a := AdmissionOf(events, u);
    var e := AdmittedEntry(a, id, serial);
    FewerTerminals(events);
    if a.terminalBatch {
      LosslessIsShorter(events);
      assert a.events == events && |events| == 1;
      assert events[0] in Lossless(events) by { assert Lossless(events) == events; }
      LosslessHolds(events);
      assert e.events[0].terminalLane && e.events[0] in e.events;
      assert events == [e.events[0].event];
    }
  }

  lemma RetryIsKeyed(id: nat, ids: seq<Id>)
    ensures Keyed(RetryEntry(id, ids))
  {
  }

  lemma EnqueuedIsKnown(s: State, e: Entry)
    requires KeysKnown(s) && Keyed(e)
    ensures KeysKnown(Enqueued(s, e))
  {
  }

  lemma AdoptedIsKnown(s: State, adoption: Adoption, origin: Origin)
    requires KeysKnown(s) && Plain(adoption.unseen)
    ensures KeysKnown(SubmitAdopted(s, adoption, origin).0)
  {
    var t := AdoptedShape(s, adoption, origin);
    if t != s {
      AdmittedIsKeyed(adoption.unseen, UsageOf(s.pending, s.queued), s.nextEntry, s.ledger.next);
      EnqueuedIsKnown(s, AdmittedEntry(AdmissionOf(adoption.unseen, UsageOf(s.pending, s.queued)), s.nextEntry, s.ledger.next));
    }
    RetryIsKeyed(t.nextEntry, adoption.ids);
    EnqueuedIsKnown(t, RetryEntry(t.nextEntry, adoption.ids));
  }

  /** A push that gets as far as admission has no terminal, or is the settlement's. */
  lemma AdmittedIsPlain(s: State, events: seq<Event>, origin: Origin, runChanged: bool, keyFits: bool) returns (c: State, adoption: Adoption)
    requires origin.OfSettlement? ==> |events| == 1
    ensures c == s || c == s.(settlement := None)
    ensures var r := Submitted(s, events, origin, runChanged, keyFits).0;
            r == s || r == c || r == Retried(c, PendingIds(c.pending)) || (r == SubmitAdopted(c, adoption, origin).0 && Plain(adoption.unseen))
  {
    c := if origin.OfSettlement? then s else s.(settlement := SlotAfter(s.settlement, runChanged));
    var underway := Underway(c.pending, c.delivery, c.queue);
    var adopted := if origin.OfSettlement? then Success(Adoption(events, [])) else Adopt(events, underway);
    adoption := if adopted.Success? then adopted.value else Adoption([], []);
    if adopted.Success? && !origin.OfSettlement? && RunTerminals(events) == 0 {
      UnseenHasNoTerminals(events, underway);
    }
  }

  lemma SubmittedIsKnown(s: State, events: seq<Event>, origin: Origin, runChanged: bool, keyFits: bool)
    requires KeysKnown(s) && (origin.OfSettlement? ==> |events| == 1)
    ensures KeysKnown(Submitted(s, events, origin, runChanged, keyFits).0)
  {
    var c, adoption := AdmittedIsPlain(s, events, origin, runChanged, keyFits);
    RetryIsKeyed(c.nextEntry, PendingIds(c.pending));
    EnqueuedIsKnown(c, RetryEntry(c.nextEntry, PendingIds(c.pending)));
    if Plain(adoption.unseen) {
      AdoptedIsKnown(c, adoption, origin);
    }
  }

  lemma SubmittedNextIsKnown(s: State, keyFits: bool)
    requires KeysKnown(s) && CanSubmitNext(s)
    ensures KeysKnown(SubmittedNext(s, keyFits).0)
  {
    var e := SubmittedNextShape(s, keyFits);
    RetryIsKeyed(s.nextEntry, [e.id]);
    EnqueuedIsKnown(s, RetryEntry(s.nextEntry, [e.id]));
    SubmittedIsKnown(s, [e], OfSettlement, false, keyFits);
  }

  // ---------------------------------------------------------------------------------------------
  // A delivery begins.

  lemma TerminalIsCounted(qs: seq<Queued>)
    ensures TallyOf(qs).terminal <==> HasTerminal(qs)
  {
    EventSettlements.TerminalLaneIsCounted(qs);
  }

  function KeyCount(e: Entry): nat {
    if e.terminalKey.Some? then 1 else 0
  }

  lemma KeyCounts(e: Entry)
    requires Weighed(e) && Keyed(e)
    ensures e.weight.terminalBatches == KeyCount(e)
  {
    TerminalIsCounted(e.events);
  }

  /** Every key among the entries counts. */
  lemma {:induction false} KeysAreCounted(entries: seq<Entry>, i: nat, j: nat)
    requires AllWeighed(entries) && AllKeyed(entries) && i <= j < |entries|
    ensures Weight(entries).terminalBatches >= if i == j then KeyCount(entries[j]) else KeyCount(entries[i]) + KeyCount(entries[j])
  {
    var n := |entries| - 1;
    var shorter := entries[..n];
    assert entries[n] in entries && forall e :: e in shorter ==> e in entries;
    KeyCounts(entries[n]);
    if j < n {
      KeysAreCounted(shorter, i, j);
    } else if i < n {
      KeysAreCounted(shorter, i, i);
    } else {
      WeightIsPositive(shorter);
    }
  }

  lemma {:induction false} WeightIsPositive(entries: seq<Entry>)
    requires AllWeighed(entries) && AllKeyed(entries)
    ensures Weight(entries).terminalBatches >= 0
  {
    if entries != [] {
      var n := |entries| - 1;
      assert entries[n] in entries && forall e :: e in entries[..n] ==> e in entries;
      KeyCounts(entries[n]);
      WeightIsPositive(entries[..n]);
    }
  }

  lemma {:induction false} TheOnlyKeyIsFirst(entries: seq<Entry>, j: nat)
    requires j < |entries| && entries[j].terminalKey.Some?
    requires forall i :: 0 <= i < |entries| && i != j ==> entries[i].terminalKey.None?
    ensures FirstKey(entries) == entries[j].terminalKey
  {
    if j > 0 {
      TheOnlyKeyIsFirst(entries[1..], j - 1);
    }
  }

  /** With one terminal batch at most, the first key is that of any entry with a terminal. */
  lemma KeyOfTheQueue(entries: seq<Entry>, e: Entry)
    requires AllWeighed(entries) && AllKeyed(entries) && e in entries && e.terminalKey.Some?
    requires Weight(entries).terminalBatches <= 1
    ensures FirstKey(entries) == e.terminalKey && Weight(entries).terminalBatches == 1
  {
    var j :| 0 <= j < |entries| && entries[j] == e;
    KeysAreCounted(entries, j, j);
    forall i | 0 <= i < |entries| && i != j ensures entries[i].terminalKey.None? {
      if i < j {
        KeysAreCounted(entries, i, j);
      } else {
        KeysAreCounted(entries, j, i);
      }
    }
    TheOnlyKeyIsFirst(entries, j);
  }

  lemma {:induction false} WhoseEvent(entries: seq<Entry>, q: Queued) returns (e: Entry)
    requires q in Flatten(entries)
    ensures e in entries && q in e.events
  {
    var n := |entries| - 1;
    if q in entries[n].events {
      e := entries[n];
    } else {
      e := WhoseEvent(entries[..n], q);
    }
  }

  lemma QueuedTerminalIsKnown(s: State, q: Queued)
    requires KeysKnown(s) && Counted(s) && WithinBudget(s) && s.delivery.None? && q in Flatten(s.queue) && q.terminalLane
    ensures s.pending.terminalKey.None? && FirstKey(s.queue) == OwnKey(q)
  {
    var e := WhoseEvent(s.queue, q);
    WeightIsPositive(s.queue);
    TerminalIsCounted(s.pending.events);
    KeyOfTheQueue(s.queue, e);
  }

  lemma DrainedIsKnown(s: State)
    requires KeysKnown(s) && Counted(s) && WithinBudget(s)
    ensures KeysKnown(Drained(s))
  {
    if Drained(s) != s {
      var d := Drained(s).delivery.value;
      forall q | q in d.events && q.terminalLane ensures d.terminalKey == OwnKey(q) {
        if q in Flatten(s.queue) {
          QueuedTerminalIsKnown(s, q);
        } else {
          assert q in s.pending.events;
        }
      }
    }
  }

  // ---------------------------------------------------------------------------------------------
  // And ends.

  lemma PendingIsKnown(qs: seq<Queued>, key: Option<Key>)
    requires KeyIsFor(key, qs)
    ensures var p := PendingOf(qs, key); KeyIsFor(p.terminalKey, p.events) && (p.terminalKey.Some? ==> HasTerminal(p.events))
  {
    var p := PendingOf(qs, key);
    TerminalIsCounted(qs);
    forall q | q in p.events && q.terminalLane ensures p.terminalKey == OwnKey(q) {
      var i :| 0 <= i < |p.events| && p.events[i] == q;
      assert qs[i] in qs && qs[i].terminalLane;
    }
    if HasTerminal(qs) {
      var q :| q in qs && q.terminalLane;
      var i :| 0 <= i < |qs| && qs[i] == q;
      assert p.events[i] in p.events && p.events[i].terminalLane;
    }
  }

  lemma FinishedIsKnown(s: State)
    requires KeysKnown(s) && EventLinks.DeliversItsOwn(s.delivery) && CanFinish(s)
    ensures KeysKnown(Finished(s))
  {
    var d := s.delivery.value;
    assert forall q :: q in d.remainingLossless ==> q in d.events;
    PendingIsKnown(d.remainingLossless, d.terminalKey);
  }

  lemma AbandonedIsKnown(s: State)
    requires KeysKnown(s) && CanAbandon(s)
    ensures KeysKnown(Abandoned(s))
  {
    var keep := WithoutId(s.pending.events, s.settlement.value.ids[|s.settlement.value.ids| - 1]);
    TerminalIsCounted(keep);
    PendingIsKnown(keep, None);
  }

  predicate WithinDelivery(op: Op) {
    op.StartBlock? || op.Receipt? || op.Return? || op.Refuse? || op.Fail? || op.PushBestEffort?
  }

  lemma DeliveryStepIsKnown(s: State, op: Op)
    requires KeysKnown(s) && WithinDelivery(op)
    ensures KeysKnown(Next(s, op))
  {
    var t := Next(s, op);
    assert t.queue == s.queue && t.pending == s.pending && t.delivery.Some? == s.delivery.Some?;
    assert s.delivery.Some? ==>
        t.delivery.value.entries == s.delivery.value.entries && t.delivery.value.events == s.delivery.value.events
        && t.delivery.value.terminalKey == s.delivery.value.terminalKey;
  }

  lemma SlotStepIsKnown(s: State, op: Op)
    requires KeysKnown(s) && (op.Reserve? || op.Settle?)
    ensures KeysKnown(Next(s, op))
  {
    var t := Next(s, op);
    assert t.queue == s.queue && t.pending == s.pending && t.delivery == s.delivery;
  }

  lemma NextIsKnown(s: State, op: Op)
    requires KeysKnown(s) && Counted(s) && WithinBudget(s) && EventLinks.DeliversItsOwn(s.delivery)
    ensures KeysKnown(Next(s, op))
  {
    match op {
      case Submit(events, origin, runChanged, keyFits) =>
        if !origin.OfSettlement? { SubmittedIsKnown(s, events, origin, runChanged, keyFits); }
      case SubmitNext(keyFits) => if CanSubmitNext(s) { SubmittedNextIsKnown(s, keyFits); }
      case Retry(ids) => {
        RetryIsKeyed(s.nextEntry, ids);
        EnqueuedIsKnown(s, RetryEntry(s.nextEntry, ids));
      }
      case Drain => DrainedIsKnown(s);
      case Finish => if CanFinish(s) { FinishedIsKnown(s); }
      case Abandon => if CanAbandon(s) { AbandonedIsKnown(s); }
      case Reserve(_, _) => SlotStepIsKnown(s, op);
      case Settle(_) => SlotStepIsKnown(s, op);
      case _ => DeliveryStepIsKnown(s, op);
    }
  }

  lemma {:induction false} EveryRunKnowsKeys(start: State, ops: seq<Op>)
    requires Initial(start)
    ensures KeysKnown(Run(start, ops))
  {
    if ops != [] {
      var shorter := ops[..|ops| - 1];
      EveryRunKnowsKeys(start, shorter);
      CountersAreExact(start, shorter);
      BudgetsHold(start, shorter);
      EventLinks.EveryRunPromises(start, shorter);
      NextIsKnown(Run(start, shorter), ops[|ops| - 1]);
    }
  }

  /** In every run a terminal that is pending is known by its key, through failed deliveries and abandoned ones:
      when its settlement goes on with the same terminal, it asks again for what is pending instead of being
      refused for the lane being taken. */
  lemma PendingTerminalIsKnown(start: State, ops: seq<Op>, q: Queued)
    requires Initial(start) && q in Run(start, ops).pending.events && q.terminalLane
    ensures Run(start, ops).pending.terminalKey == Some(KeyOf([q.event]))
    ensures q.event.lossless && q.event.runTerminal ==> RetriesPending(Run(start, ops), [q.event], true)
  {
    EveryRunKnowsKeys(start, ops);
    if q.event.lossless && q.event.runTerminal {
      TerminalAlone(q.event);
    }
  }

  lemma TerminalAlone(e: Event)
    requires e.lossless && e.runTerminal
    ensures TerminalRetryKey([e], true) == Some(KeyOf([e]))
  {
    assert [e][..0] == [];
    assert Lossless([e]) == [e];
    assert RunTerminals([e]) == 1;
  }

  /** So the settlement's last step, when its terminal is pending, asks for everything that is pending, and a step
      before that for its own event alone. */
  lemma SettlementAsksAgain(start: State, ops: seq<Op>, q: Queued)
    requires Initial(start) && CanSubmitNext(Run(start, ops)) && q in Run(start, ops).pending.events
    requires var st := Run(start, ops).settlement.value;
             && q.event == st.events[st.nextIndex]
             && (st.nextIndex == |st.events| - 1 ==> q.terminalLane && q.event.lossless && q.event.runTerminal)
    ensures var s := Run(start, ops);
            var asked := if s.settlement.value.nextIndex == |s.settlement.value.events| - 1 then PendingIds(s.pending) else [q.event.id];
            SubmittedNext(s, true) == (Retried(s, asked), Issued([s.nextEntry], [], None))
  {
    var s := Run(start, ops);
    if s.settlement.value.nextIndex == |s.settlement.value.events| - 1 {
      PendingTerminalIsKnown(start, ops, q);
      EventSubmissions.PendingTerminalIsRetried(s, [q.event], OfSettlement, false, true);
    }
  }
}
