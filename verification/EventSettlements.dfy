/** What the settlement of a Run's terminal knows and when it may go on or be given up, told from what the host
    has said. */
module EventSettlements {
  import opened Wrappers
  import opened EventAdmission
  import opened EventEntries
  import opened EventDelivery
  import opened TerminalSettlement
  import opened EventPublisher
  import opened EventRuns
  import opened EventTheorems
  import opened EventAnswers

  // ---------------------------------------------------------------------------------------------
  // What was acknowledged in a delivery.

  /** The operation brings a receipt for the id. */
  ghost predicate Hears(s: State, op: Op, id: Id) {
    id in IdsOf(HeardIn(s, op))
  }

  /** At `n` the host acknowledged the id, in the delivery that is still on. */
  ghost predicate HeardAt(start: State, ops: seq<Op>, n: nat, id: Id) {
    n < |ops| && Hears(Run(start, ops[..n]), ops[n], id) && OnSince(start, ops, n)
  }

  ghost predicate HeardInDelivery(start: State, ops: seq<Op>, id: Id) {
    exists n: nat :: HeardAt(start, ops, n, id)
  }

  lemma HeardEarlier(start: State, ops: seq<Op>, n: nat, id: Id)
    requires ops != [] && n < |ops| - 1
    ensures HeardAt(start, ops, n, id) <==> HeardAt(start, ops[..|ops| - 1], n, id) && Run(start, ops).delivery.Some?
  {
    assert ops[..|ops| - 1][..n] == ops[..n];
    OnOneMore(start, ops, n);
  }

  lemma HeardOneMore(start: State, ops: seq<Op>, id: Id)
    requires ops != [] && Run(start, ops).delivery.Some?
    ensures HeardInDelivery(start, ops, id)
            <==> HeardInDelivery(start, ops[..|ops| - 1], id) || Hears(Run(start, ops[..|ops| - 1]), ops[|ops| - 1], id)
  {
    var shorter := ops[..|ops| - 1];
    if HeardInDelivery(start, ops, id) {
      var n: nat :| HeardAt(start, ops, n, id);
      if n < |ops| - 1 {
        HeardEarlier(start, ops, n, id);
      }
    }
    if HeardInDelivery(start, shorter, id) {
      var n: nat :| HeardAt(start, shorter, n, id);
      HeardEarlier(start, ops, n, id);
    }
    if Hears(Run(start, shorter), ops[|ops| - 1], id) {
      OnNow(start, ops);
      assert HeardAt(start, ops, |ops| - 1, id);
    }
  }

  predicate ForDelivery(op: Op) {
    op.Drain? || op.StartBlock? || op.Receipt? || op.Return? || op.Refuse? || op.Fail? || op.PushBestEffort? || op.Finish?
  }

  /** Whatever is not about the delivery leaves it alone. */
  lemma OthersLeaveTheDelivery(s: State, op: Op)
    requires Flowing(s) && !ForDelivery(op)
    ensures Next(s, op).delivery == s.delivery && HeardIn(s, op) == []
  {
    if op.Submit? || op.SubmitNext? || op.Retry? {
      PushErrorsStay(s, op);
    }
  }

  lemma BlocksAreHeard(s: State, op: Op, id: Id)
    requires op.Receipt? || op.PushBestEffort?
    ensures Next(s, op).delivery.Some? <==> s.delivery.Some?
    ensures s.delivery.Some? ==>
              (id in Next(s, op).delivery.value.acceptedIds <==> id in s.delivery.value.acceptedIds || Hears(s, op, id))
  {
  }

  lemma AttemptsAreNotHeard(s: State, op: Op, id: Id)
    requires ForDelivery(op) && !op.Receipt? && !op.PushBestEffort? && Next(s, op).delivery.Some?
    ensures HeardIn(s, op) == []
    ensures Next(s, op).delivery.value.acceptedIds == if s.delivery.Some? then s.delivery.value.acceptedIds else {}
  {
  }

  /** Which ids the delivery after an operation has heard of. */
  lemma NextHeard(s: State, op: Op, id: Id)
    requires Flowing(s) && Next(s, op).delivery.Some?
    ensures id in Next(s, op).delivery.value.acceptedIds
            <==> (s.delivery.Some? && id in s.delivery.value.acceptedIds) || Hears(s, op, id)
  {
    if !ForDelivery(op) {
      OthersLeaveTheDelivery(s, op);
    } else if op.Receipt? || op.PushBestEffort? {
      BlocksAreHeard(s, op, id);
    } else {
      AttemptsAreNotHeard(s, op, id);
    }
  }

  /** In every run the ids that count as acknowledged in a delivery are those the host acknowledged since it
      began. */
  lemma {:induction false} AcceptedIdsAreExact(start: State, ops: seq<Op>, id: Id)
    requires Initial(start) && Run(start, ops).delivery.Some?
    ensures id in Run(start, ops).delivery.value.acceptedIds <==> HeardInDelivery(start, ops, id)
  {
    if ops != [] {
      var shorter := ops[..|ops| - 1];
      EveryRunFlows(start, shorter);
      NextHeard(Run(start, shorter), ops[|ops| - 1], id);
      HeardOneMore(start, ops, id);
      if Run(start, shorter).delivery.Some? {
        AcceptedIdsAreExact(start, shorter, id);
      } else {
        NotOnNow(start, shorter);
      }
    }
  }

  // ---------------------------------------------------------------------------------------------
  // Taking the slot.

  /** A slot is taken exactly when it is free, by closing events and a terminal of distinct ids, of which those on
      their way are the same events and the terminal is not; and it knows at once what the running delivery
      has heard of them. */
  lemma ReservationIsExact(start: State, ops: seq<Op>, events: seq<Event>, runChanged: bool, id: Id)
    requires Initial(start)
    ensures var s := Run(start, ops);
            if CanReserve(s, events, runChanged) then
              var st := Reserved(s, events, runChanged).settlement;
              && st.Some? && st.value.events == events && st.value.ids == EventIds(events) && st.value.nextIndex == 0 && st.value.running
              && !st.value.cleanupComplete
              && (id in st.value.acceptedIds <==> id in EventIds(events) && s.delivery.Some? && HeardInDelivery(start, ops, id))
            else Reserved(s, events, runChanged) == s
  {
    if Run(start, ops).delivery.Some? {
      AcceptedIdsAreExact(start, ops, id);
    }
  }

  /** And it knows whether one of them was refused. */
  lemma ReservationKnowsRefusals(start: State, ops: seq<Op>, events: seq<Event>, runChanged: bool)
    requires Initial(start) && CanReserve(Run(start, ops), events, runChanged)
    ensures Reserved(Run(start, ops), events, runChanged).settlement.value.rejected
            <==> Run(start, ops).delivery.Some? && exists id :: id in EventIds(events) && RefusedInDelivery(start, ops, id)
  {
    var s := Run(start, ops);
    if s.delivery.Some? {
      forall id ensures id in s.delivery.value.rejectedIds <==> RefusedInDelivery(start, ops, id) {
        RejectedIdsAreExact(start, ops, id);
      }
      if IdSet(EventIds(events)) * s.delivery.value.rejectedIds != {} {
        var id :| id in IdSet(EventIds(events)) * s.delivery.value.rejectedIds;
        assert id in EventIds(events) && RefusedInDelivery(start, ops, id);
      }
      if id :| id in EventIds(events) && RefusedInDelivery(start, ops, id) {
        assert id in IdSet(EventIds(events)) * s.delivery.value.rejectedIds;
      }
    }
  }

  /** The settlement goes on being the same one. */
  predicate SameSlot(s: State, t: State) {
    s.settlement.Some? && t.settlement.Some? && t.settlement.value.events == s.settlement.value.events
  }

  predicate SlotOp(op: Op) {
    op.Reserve? || op.Abandon? || op.Submit? || op.SubmitNext?
  }

  /** It is marked as refused exactly when the host refuses one of its events, and stays so. */
  lemma RefusalsAreRemembered(s: State, op: Op)
    requires s.settlement.Some? && !SlotOp(op)
    ensures SameSlot(s, Next(s, op))
    ensures Next(s, op).settlement.value.rejected
            <==> s.settlement.value.rejected
                 || (op.Refuse? && Trying(s) && RefusedEvent(s.delivery.value, op.id).Some? && op.id in s.settlement.value.ids)
  {
    match op {
      case Receipt(n) => if CanReceipt(s, n) { RememberingKeeps(s.settlement.value, IdsOf(Acknowledged(s.delivery.value, n))); }
      case PushBestEffort(n) => if CanPush(s, n) { RememberingKeeps(s.settlement.value, IdsOf(PushedEvents(s, n))); }
      case Settle(_) => AdvancingKeeps(s.settlement.value);
      case _ =>
    }
  }

  lemma {:induction false} AdvancingKeeps(st: Settlement)
    ensures var a := Advanced(st); a.events == st.events && a.rejected == st.rejected && a.running == st.running && a.ids == st.ids
    decreases |st.ids| - st.nextIndex
  {
    if st.nextIndex < |st.ids| && st.ids[st.nextIndex] in st.acceptedIds {
      AdvancingKeeps(st.(nextIndex := st.nextIndex + 1, acceptedIds := st.acceptedIds - {st.ids[st.nextIndex]}));
    }
  }

  lemma RememberingKeeps(st: Settlement, ids: set<Id>)
    ensures var r := Remembered(Some(st), ids).value; r.events == st.events && r.rejected == st.rejected && r.running == st.running
  {
    AdvancingKeeps(st.(acceptedIds := st.acceptedIds + ids * IdSet(st.ids)));
  }

  // ---------------------------------------------------------------------------------------------
  // Going on, and giving up.

  /** A task that failed can be started again, and then goes on with the event at its position. */
  lemma TaskCanGoOn(s: State)
    requires s.settlement.Some?
    ensures var st, t := s.settlement.value, Next(s, Settle(RestartTask));
            t == s.(settlement := Some(st.(running := true))) && (CanSubmitNext(t) <==> st.nextIndex < |st.events|)
  {
  }

  /** No other terminal is pending than the one with that id. */
  predicate OnlyTerminal(qs: seq<Queued>, id: Id) {
    forall q :: q in qs && q.terminalLane ==> q.event.id == id
  }

  lemma {:induction false} TerminalLaneIsCounted(qs: seq<Queued>)
    ensures TallyOf(qs).terminal <==> exists q :: q in qs && q.terminalLane
  {
    if qs != [] {
      TerminalLaneIsCounted(qs[..|qs| - 1]);
      assert forall q :: q in qs <==> q in qs[..|qs| - 1] || q == qs[|qs| - 1];
    }
  }

  lemma {:induction false} WithoutIdHoldsOthers(qs: seq<Queued>, id: Id)
    ensures forall q :: q in WithoutId(qs, id) <==> q in qs && q.event.id != id
  {
    if qs != [] {
      WithoutIdHoldsOthers(qs[1..], id);
      assert forall q :: q in qs <==> q == qs[0] || q in qs[1..];
    }
  }

  lemma OthersInTheLane(qs: seq<Queued>, id: Id)
    ensures TallyOf(WithoutId(qs, id)).terminal <==> !OnlyTerminal(qs, id)
  {
    TerminalLaneIsCounted(WithoutId(qs, id));
    WithoutIdHoldsOthers(qs, id);
  }

  /** In every run a terminal can be given up if and only if its task is not running, the host has acknowledged
      every closing event and not the terminal, each once as far as is noted, the terminal is neither queued nor
      in a delivery, and no other terminal is pending. */
  lemma CanBeGivenUpIff(start: State, ops: seq<Op>)
    requires Initial(start)
    ensures var s := Run(start, ops);
            CanAbandon(s) <==>
              && s.settlement.Some? && s.settlement.value.ids != [] && !s.settlement.value.running && s.settlement.value.acceptedIds == {}
              && var ids := s.settlement.value.ids; var id := ids[|ids| - 1];
                 && s.ledger.seen == IdSet(ids) - {id}
                 && (s.delivery.Some? ==> id !in IdsOf(s.delivery.value.events)) && id !in IdsOf(Flatten(s.queue))
                 && OnlyTerminal(s.pending.events, id)
  {
    var s := Run(start, ops);
    SettlementIsExact(start, ops);
    if s.settlement.Some? && s.settlement.value.ids != [] && s.settlement.value.acceptedIds == {} {
      var ids := s.settlement.value.ids;
      OthersInTheLane(s.pending.events, ids[|ids| - 1]);
      StandsBeforeItsTerminal(s.settlement.value, s.ledger.seen);
    }
  }

  lemma StandsBeforeItsTerminal(st: Settlement, seen: set<Id>)
    requires Exact(st, seen) && st.ids != [] && st.acceptedIds == {}
    ensures st.nextIndex == |st.ids| - 1 <==> seen == IdSet(st.ids) - {st.ids[|st.ids| - 1]}
  {
    var n := |st.ids| - 1;
    if st.nextIndex == n {
      OnlyTheTerminalIsLeft(st, seen);
    } else if st.nextIndex < n {
      assert st.ids[st.nextIndex] in IdSet(st.ids) - {st.ids[n]};
      assert st.ids[st.nextIndex] !in IdSet(st.ids[..st.nextIndex]);
    } else {
      assert st.ids[..st.nextIndex] == st.ids;
      assert st.ids[n] in seen;
    }
  }
}
