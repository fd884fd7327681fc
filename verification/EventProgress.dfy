/** A publisher can always deliver all it holds: whatever happened before, if the host takes everything from
    now on, one or two deliveries leave nothing behind. */
module EventProgress {
  import opened EventAdmission
  import opened EventEntries
  import opened EventDelivery
  import opened EventPublisher
  import opened EventFates
  import opened EventRuns

  /** From the state `s` the operations lead to `t`.  The trigger keeps the run out of proofs that do not ask
      for it. */
  ghost predicate Leads(s: State, ops: seq<Op>, t: State) {
    forall u {:trigger Asked(u)} :: Asked(u) && u == Run(s, ops) ==> t == u
  }

  lemma LeadsIsRun(s: State, ops: seq<Op>, t: State)
    ensures Leads(s, ops, t) <==> t == Run(s, ops)
  {
    assert Asked(Run(s, ops));
  }

  lemma {:induction false} RunTogether(s: State, a: seq<Op>, b: seq<Op>)
    ensures Run(s, a + b) == Run(Run(s, a), b)
  {
    if b == [] {
      assert a + b == a;
    } else {
      assert (a + b)[..|a + b| - 1] == a + b[..|b| - 1];
      RunTogether(s, a, b[..|b| - 1]);
    }
  }

  lemma LeadsTogether(s: State, a: seq<Op>, t: State, b: seq<Op>, u: State)
    requires Leads(s, a, t) && Leads(t, b, u)
    ensures Leads(s, a + b, u)
  {
    LeadsIsRun(s, a, t);
    LeadsIsRun(t, b, u);
    RunTogether(s, a, b);
    LeadsIsRun(s, a + b, u);
  }

  lemma LeadsOne(s: State, op: Op)
    ensures Leads(s, [op], Next(s, op))
  {
    assert [op][..0] == [];
    LeadsIsRun(s, [op], Next(s, op));
  }

  lemma LeadsNowhere(s: State)
    ensures Leads(s, [], s)
  {
    LeadsIsRun(s, [], s);
  }

  /** Nobody pushes, and the host takes what it is given. */
  predicate Taking(op: Op) {
    op.Drain? || op.StartBlock? || op.Receipt? || op.Return? || op.PushBestEffort? || op.Finish?
  }

  ghost predicate AllTaking(ops: seq<Op>) {
    forall op :: op in ops ==> Taking(op)
  }

  /** Nothing was admitted, refused or given up, and nothing was queued or taken off the queue. */
  predicate OnlyDelivered(s: State, t: State) {
    && t.ledger.admitted == s.ledger.admitted && t.ledger.rejected == s.ledger.rejected
    && t.ledger.abandoned == s.ledger.abandoned && t.queue == s.queue
  }

  /** Where the operations have led. */
  ghost predicate Arrives(s: State, ops: seq<Op>, t: State) {
    Leads(s, ops, t) && AllTaking(ops) && Flowing(t) && OnlyDelivered(s, t)
  }

  lemma ArrivesTogether(s: State, a: seq<Op>, t: State, b: seq<Op>, u: State)
    requires Arrives(s, a, t) && Arrives(t, b, u)
    ensures Arrives(s, a + b, u)
  {
    LeadsTogether(s, a, t, b, u);
  }

  lemma ArrivesByOne(s: State, op: Op)
    requires Flowing(s) && Taking(op) && OnlyDelivered(s, Next(s, op))
    ensures Arrives(s, [op], Next(s, op))
  {
    LeadsOne(s, op);
    NextFlows(s, op);
  }

  predicate StandsReady(s: State, index: nat) {
    s.delivery.Some? && s.delivery.value.phase.Ready? && s.delivery.value.index == index
  }

  predicate SameEvents(s: State, t: State) {
    s.delivery.Some? && t.delivery.Some? && t.delivery.value.events == s.delivery.value.events
  }

  /** The host acknowledges the rest of the attempt. */
  lemma AttemptCanEnd(s: State) returns (ops: seq<Op>, t: State)
    requires Flowing(s) && s.delivery.Some? && s.delivery.value.phase.Attempting?
    ensures Arrives(s, ops, t) && SameEvents(s, t) && StandsReady(t, s.delivery.value.phase.losslessEnd)
  {
    var d := s.delivery.value;
    var receipt := Receipt(|d.phase.remaining| - d.phase.accepted);
    var acked := Next(s, receipt);
    ArrivesByOne(s, receipt);
    ArrivesByOne(acked, Return);
    t := Next(acked, Return);
    ops := [receipt] + [Return];
    ArrivesTogether(s, [receipt], acked, [Return], t);
  }

  /** The host takes a block of best-effort events. */
  lemma PushCanEnd(s: State) returns (ops: seq<Op>, t: State)
    requires Flowing(s) && s.delivery.Some? && s.delivery.value.phase.Pushing?
    ensures Arrives(s, ops, t) && SameEvents(s, t) && StandsReady(t, s.delivery.value.phase.bestEffortEnd)
  {
    var push := PushBestEffort(s.delivery.value.phase.bestEffortEnd - s.delivery.value.index);
    ArrivesByOne(s, push);
    t := Next(s, push);
    ops := [push];
  }

  lemma BlockCanEnd(s: State) returns (ops: seq<Op>, t: State)
    requires Flowing(s) && s.delivery.Some? && (s.delivery.value.phase.Attempting? || s.delivery.value.phase.Pushing?)
    ensures Arrives(s, ops, t) && SameEvents(s, t)
    ensures exists i: nat :: s.delivery.value.index < i && StandsReady(t, i)
  {
    if s.delivery.value.phase.Attempting? {
      ops, t := AttemptCanEnd(s);
    } else {
      ops, t := PushCanEnd(s);
    }
  }

  lemma NextBlockCanEnd(s: State) returns (ops: seq<Op>, t: State)
    requires Flowing(s) && CanStart(s)
    ensures Arrives(s, ops, t) && SameEvents(s, t)
    ensures exists i: nat :: s.delivery.value.index < i && StandsReady(t, i)
  {
    ArrivesByOne(s, StartBlock);
    var started := Next(s, StartBlock);
    var rest;
    rest, t := BlockCanEnd(started);
    ops := [StartBlock] + rest;
    ArrivesTogether(s, [StartBlock], started, rest, t);
  }

  predicate NothingPending(s: State) {
    s.delivery.None? && s.pending.events == []
  }

  /** A delivery at its end leaves nothing pending. */
  lemma EndLeavesNothing(s: State)
    requires Flowing(s) && s.delivery.Some? && s.delivery.value.phase.Ready? && s.delivery.value.index == |s.delivery.value.events|
    ensures Arrives(s, [Finish], Next(s, Finish)) && NothingPending(Next(s, Finish))
  {
    var d := s.delivery.value;
    assert d.events[d.index..] == [];
    assert Disowned(d.remainingLossless) == [];
    ArrivesByOne(s, Finish);
  }

  lemma {:induction false} ReadyCanEnd(s: State) returns (ops: seq<Op>, t: State)
    requires Flowing(s) && s.delivery.Some? && s.delivery.value.phase.Ready?
    ensures Arrives(s, ops, t) && NothingPending(t)
    decreases |s.delivery.value.events| - s.delivery.value.index
  {
    if CanStart(s) {
      var first, between := NextBlockCanEnd(s);
      var rest;
      rest, t := ReadyCanEnd(between);
      ops := first + rest;
      ArrivesTogether(s, first, between, rest, t);
    } else {
      EndLeavesNothing(s);
      ops, t := [Finish], Next(s, Finish);
    }
  }

  /** The delivery that is running, if any, comes to an end. */
  lemma DeliveryCanEnd(s: State) returns (ops: seq<Op>, t: State)
    requires Flowing(s)
    ensures Arrives(s, ops, t) && t.delivery.None?
  {
    if s.delivery.None? {
      ops, t := [], s;
      LeadsNowhere(s);
    } else if s.delivery.value.phase.Broken? {
      ops, t := [Finish], Next(s, Finish);
      ArrivesByOne(s, Finish);
    } else if s.delivery.value.phase.Ready? {
      ops, t := ReadyCanEnd(s);
    } else {
      var first, between := BlockCanEnd(s);
      var rest;
      rest, t := ReadyCanEnd(between);
      ops := first + rest;
      ArrivesTogether(s, first, between, rest, t);
    }
  }

  predicate Nothing(s: State) {
    NothingPending(s) && s.queue == []
  }

  predicate SameFates(s: State, t: State) {
    t.ledger.admitted == s.ledger.admitted && t.ledger.rejected == s.ledger.rejected && t.ledger.abandoned == s.ledger.abandoned
  }

  /** What is pending and queued is delivered in one go. */
  lemma RestCanBeDelivered(s: State) returns (ops: seq<Op>, t: State)
    requires Flowing(s) && s.delivery.None?
    ensures Leads(s, ops, t) && AllTaking(ops) && Flowing(t) && SameFates(s, t) && Nothing(t)
  {
    if Nothing(s) {
      ops, t := [], s;
      LeadsNowhere(s);
    } else {
      var drained := Next(s, Drain);
      LeadsOne(s, Drain);
      NextFlows(s, Drain);
      var rest;
      rest, t := ReadyCanEnd(drained);
      ops := [Drain] + rest;
      LeadsTogether(s, [Drain], drained, rest, t);
    }
  }

  lemma AllCanBeDelivered(s: State) returns (ops: seq<Op>, t: State)
    requires Flowing(s)
    ensures Leads(s, ops, t) && AllTaking(ops) && Flowing(t) && SameFates(s, t) && Nothing(t)
  {
    var first, between := DeliveryCanEnd(s);
    var rest;
    rest, t := RestCanBeDelivered(between);
    ops := first + rest;
    LeadsTogether(s, first, between, rest, t);
  }

  /** From every state a publisher can get into, if nobody pushes any more and the host takes what it is given,
      nothing is left to deliver, and every lossless event that was ever admitted has been acknowledged but for
      those that were refused or given up before. */
  lemma EverythingCanBeDelivered(start: State, ops: seq<Op>) returns (more: seq<Op>)
    requires Initial(start)
    ensures AllTaking(more)
    ensures var s, t := Run(start, ops), Run(start, ops + more);
            && Nothing(t) && t.ledger.admitted == s.ledger.admitted
            && t.ledger.accepted == s.ledger.admitted - s.ledger.rejected - s.ledger.abandoned
  {
    var s := Run(start, ops);
    EveryRunFlows(start, ops);
    var t;
    more, t := AllCanBeDelivered(s);
    LeadsIsRun(s, more, t);
    RunTogether(start, ops, more);
    NothingIsHeld(t);
  }

  lemma NothingIsHeld(t: State)
    requires Flowing(t) && Nothing(t)
    ensures t.ledger.accepted == t.ledger.admitted - t.ledger.rejected - t.ledger.abandoned
  {
    assert Held(t) == [];
    assert Serials(Held(t)) == {};
  }

  // ---------------------------------------------------------------------------------------------
  // A refusal.

  /** A delivery goes on after a refusal: with the rest of the attempt, in order, or behind the block. */
  lemma RefusalGoesOn(d: Delivery, id: Id)
    requires d.phase.Attempting? && d.phase.accepted <= |d.phase.remaining| && RefusedEvent(d, id).Some?
    ensures var t, rest := AttemptRefused(d, id), d.phase.remaining[d.phase.accepted..];
            var left := WithoutAt(rest, IndexOfId(rest, id));
            if t.phase.Ready? then |rest| == 1 && t.index == d.phase.losslessEnd
            else t.phase == Attempting(d.phase.losslessEnd, left, 0) && |left| == |rest| - 1 > 0
  {
  }

  lemma RestCanEnd(s: State) returns (ops: seq<Op>, t: State)
    requires Flowing(s) && s.delivery.Some? && (s.delivery.value.phase.Ready? || s.delivery.value.phase.Attempting?)
    ensures Arrives(s, ops, t) && NothingPending(t)
  {
    if s.delivery.value.phase.Ready? {
      ops, t := ReadyCanEnd(s);
    } else {
      var first, between := BlockCanEnd(s);
      var rest;
      rest, t := ReadyCanEnd(between);
      ops := first + rest;
      ArrivesTogether(s, first, between, rest, t);
    }
  }

  /** When a delivery has come to its end, all it retained has been acknowledged. */
  lemma EndAcknowledges(s: State, t: State, q: Queued)
    requires Flowing(s) && Flowing(t) && OnlyDelivered(s, t) && NothingPending(t)
    requires s.delivery.Some? && q in s.delivery.value.remainingLossless
    ensures q.serial in t.ledger.accepted
  {
    var kept, queued := s.delivery.value.remainingLossless, LosslessOf(Flatten(s.queue));
    assert Held(s) == kept + queued;
    assert Held(t) == queued by { assert Held(t) == [] + queued; }
    RisingApart(kept, queued);
    assert q in Held(s) && q.serial in Serials(Held(s));
    assert q.serial !in Serials(queued);
  }

  lemma RefusedRestCanEnd(s: State, id: Id) returns (more: seq<Op>, t: State)
    requires Flowing(s) && Trying(s) && RefusedEvent(s.delivery.value, id).Some?
    ensures Leads(Next(s, Refuse(id)), more, t) && AllTaking(more) && t.delivery.None? && t.queue == s.queue
    ensures forall q :: q in s.delivery.value.remainingLossless ==>
              q == RefusedEvent(s.delivery.value, id).value || q.serial in t.ledger.accepted
  {
    var u := Next(s, Refuse(id));
    NextFlows(s, Refuse(id));
    RefusalGoesOn(s.delivery.value, id);
    more, t := RestCanEnd(u);
    forall q | q in s.delivery.value.remainingLossless && q != RefusedEvent(s.delivery.value, id).value
      ensures q.serial in t.ledger.accepted
    {
      OthersAreRetained(s.delivery.value, id, q);
      EndAcknowledges(u, t, q);
    }
  }

  lemma RunLeads(start: State, ops: seq<Op>, op: Op, more: seq<Op>, t: State)
    requires Leads(Next(Run(start, ops), op), more, t)
    ensures Run(start, ops + [op] + more) == t
  {
    RunOneMore(start, ops, op);
    LeadsIsRun(Next(Run(start, ops), op), more, t);
    RunTogether(start, ops + [op], more);
  }

  /** In every run, when the host refuses one event and takes the rest of the delivery, everything the delivery
      still retained is acknowledged but for that event. */
  lemma ARefusalSparesTheRest(start: State, ops: seq<Op>, id: Id) returns (more: seq<Op>)
    requires Initial(start) && Trying(Run(start, ops)) && RefusedEvent(Run(start, ops).delivery.value, id).Some?
    ensures AllTaking(more)
    ensures var s, t := Run(start, ops), Run(start, ops + [Refuse(id)] + more);
            && t.delivery.None? && t.queue == s.queue
            && forall q :: q in s.delivery.value.remainingLossless ==>
                 q == RefusedEvent(s.delivery.value, id).value || q.serial in t.ledger.accepted
  {
    EveryRunFlows(start, ops);
    var t;
    more, t := RefusedRestCanEnd(Run(start, ops), id);
    RunLeads(start, ops, Refuse(id), more, t);
  }

  lemma OthersAreRetained(d: Delivery, id: Id, q: Queued)
    requires d.phase.Attempting? && d.phase.accepted <= |d.phase.remaining| && RefusedEvent(d, id).Some?
    requires q in d.remainingLossless && q != RefusedEvent(d, id).value
    ensures q in AttemptRefused(d, id).remainingLossless
  {
    OthersStay(d.remainingLossless, IndexOf(d.remainingLossless, RefusedEvent(d, id).value), q);
  }

  lemma OthersStay(qs: seq<Queued>, j: nat, q: Queued)
    requires j < |qs| && q in qs && q != qs[j]
    ensures q in WithoutAt(qs, j)
  {
    assert qs == qs[..j] + [qs[j]] + qs[j + 1..];
  }
}
