/** The publisher's runs with the host beside them.  The host keeps an event unless it has one with the
    same source id, and it may have kept more than its receipts say when an attempt fails. */
module EventHost {
  import opened Wrappers
  import opened EventAdmission
  import opened EventEntries
  import opened EventDelivery
  import opened TerminalSettlement
  import opened EventPublisher
  import opened EventRuns
  import opened EventTheorems
  import opened EventLinks

  function Keep(held: seq<Id>, qs: seq<Queued>): seq<Id> {
    if qs == [] then held
    else
      var before := Keep(held, qs[..|qs| - 1]);
      var id := qs[|qs| - 1].event.id;
      if id in before then before else before + [id]
  }

  /** An operation, and how many events the host keeps in it beyond those it answers for. */
  datatype Turn = Turn(op: Op, extra: nat)

  function Prefix(qs: seq<Queued>, n: nat): seq<Queued> {
    if n <= |qs| then qs[..n] else qs
  }

  /** What of the attempt has no receipt yet. */
  function Rest(s: State): seq<Queued>
    requires Trying(s)
  {
    s.delivery.value.phase.remaining[s.delivery.value.phase.accepted..]
  }

  /** The events that the host has been given when the operation happens and does not refuse: those it
      acknowledges, those before the refused one, the rest of an attempt that fails, or a best-effort
      block. */
  function Offered(s: State, op: Op): seq<Queued> {
    match op
    case Receipt(n) => if CanReceipt(s, n) then Acknowledged(s.delivery.value, n) else []
    case Refuse(id) => if Trying(s) then Rest(s)[..IndexOfId(Rest(s), id)] else []
    case Fail => if Trying(s) then Rest(s) else []
    case PushBestEffort(n) =>
      if CanPush(s, n) then s.delivery.value.events[s.delivery.value.index..s.delivery.value.phase.bestEffortEnd] else []
    case _ => []
  }

  /** How many of them the host answers for. */
  function Answers(op: Op): nat {
    match op
    case Receipt(n) => n
    case PushBestEffort(n) => n
    case _ => 0
  }

  /** The events of a turn that the host keeps. */
  function Given(s: State, turn: Turn): seq<Queued> {
    Prefix(Offered(s, turn.op), Answers(turn.op) + turn.extra)
  }

  datatype World = World(state: State, held: seq<Id>)

  function Turned(w: World, turn: Turn): World {
    World(Next(w.state, turn.op), Keep(w.held, Given(w.state, turn)))
  }

  function Play(start: State, turns: seq<Turn>): World {
    if turns == [] then World(start, []) else Turned(Play(start, turns[..|turns| - 1]), turns[|turns| - 1])
  }

  function Ops(turns: seq<Turn>): (r: seq<Op>)
    ensures |r| == |turns| && forall i :: 0 <= i < |r| ==> r[i] == turns[i].op
  {
    seq(|turns|, i requires 0 <= i < |turns| => turns[i].op)
  }

  lemma IdsOneMore(qs: seq<Queued>)
    requires qs != []
    ensures IdsOf(qs) == IdsOf(qs[..|qs| - 1]) + {qs[|qs| - 1].event.id}
  {
    assert qs == qs[..|qs| - 1] + [qs[|qs| - 1]];
    IdsConcat(qs[..|qs| - 1], [qs[|qs| - 1]]);
  }

  /** The host keeps every id it is given, once, and loses none. */
  lemma {:induction false} KeepsAll(held: seq<Id>, qs: seq<Queued>, id: Id)
    ensures id in Keep(held, qs) <==> id in held || id in IdsOf(qs)
  {
    if qs != [] {
      KeepsAll(held, qs[..|qs| - 1], id);
      IdsOneMore(qs);
    }
  }

  lemma PlayOneMore(start: State, turns: seq<Turn>, turn: Turn)
    ensures Play(start, turns + [turn]) == Turned(Play(start, turns), turn)
  {
    assert (turns + [turn])[..|turns|] == turns;
  }

  lemma {:induction false} PlayIsRun(start: State, turns: seq<Turn>)
    ensures Play(start, turns).state == Run(start, Ops(turns))
  {
    if turns != [] {
      var shorter := turns[..|turns| - 1];
      PlayIsRun(start, shorter);
      assert Ops(turns)[..|turns| - 1] == Ops(shorter);
    }
  }

  // ---------------------------------------------------------------------------------------------
  // What the host can hold.

  /** The id was among what the host was given in the operation at `k`. */
  predicate OfferedAt(start: State, ops: seq<Op>, k: nat, id: Id) {
    k < |ops| && id in IdsOf(Offered(Run(start, ops[..k]), ops[k]))
  }

  predicate GivenAt(start: State, turns: seq<Turn>, k: nat, id: Id) {
    k < |turns| && id in IdsOf(Given(Run(start, Ops(turns)[..k]), turns[k]))
  }

  lemma GivenEarlier(start: State, turns: seq<Turn>, k: nat, id: Id)
    requires turns != [] && k < |turns| - 1
    ensures GivenAt(start, turns[..|turns| - 1], k, id) <==> GivenAt(start, turns, k, id)
  {
    assert Ops(turns[..|turns| - 1])[..k] == Ops(turns)[..k];
  }

  lemma GivenNow(start: State, turns: seq<Turn>, id: Id)
    requires turns != []
    ensures GivenAt(start, turns, |turns| - 1, id) <==> id in IdsOf(Given(Play(start, turns[..|turns| - 1]).state, turns[|turns| - 1]))
  {
    PlayIsRun(start, turns[..|turns| - 1]);
    assert Ops(turns[..|turns| - 1]) == Ops(turns)[..|turns| - 1];
  }

  ghost predicate EverGiven(start: State, turns: seq<Turn>, id: Id) {
    exists k: nat :: GivenAt(start, turns, k, id)
  }

  lemma GivenBefore(start: State, turns: seq<Turn>, k: nat, id: Id)
    requires turns != [] && GivenAt(start, turns, k, id) && k < |turns| - 1
    ensures EverGiven(start, turns[..|turns| - 1], id)
  {
    GivenEarlier(start, turns, k, id);
  }

  lemma StillGiven(start: State, turns: seq<Turn>, id: Id)
    requires turns != [] && EverGiven(start, turns[..|turns| - 1], id)
    ensures EverGiven(start, turns, id)
  {
    var k: nat :| GivenAt(start, turns[..|turns| - 1], k, id);
    GivenEarlier(start, turns, k, id);
  }

  lemma GivenOneMore(start: State, turns: seq<Turn>, id: Id)
    requires turns != []
    ensures EverGiven(start, turns, id) <==> EverGiven(start, turns[..|turns| - 1], id) || GivenAt(start, turns, |turns| - 1, id)
  {
    if EverGiven(start, turns, id) {
      var k: nat :| GivenAt(start, turns, k, id);
      if k < |turns| - 1 {
        GivenBefore(start, turns, k, id);
      }
    }
    if EverGiven(start, turns[..|turns| - 1], id) {
      StillGiven(start, turns, id);
    }
  }

  /** The host holds exactly the ids it was given at some turn. */
  lemma {:induction false} HeldIffGiven(start: State, turns: seq<Turn>, id: Id)
    ensures id in Play(start, turns).held <==> EverGiven(start, turns, id)
  {
    if turns != [] {
      var shorter, last := turns[..|turns| - 1], turns[|turns| - 1];
      HeldIffGiven(start, shorter, id);
      KeepsAll(Play(start, shorter).held, Given(Play(start, shorter).state, last), id);
      GivenNow(start, turns, id);
      GivenOneMore(start, turns, id);
    }
  }

  /** The turns in which the host keeps all that it is given. */
  function Most(start: State, ops: seq<Op>): (r: seq<Turn>)
    ensures |r| == |ops| && forall i :: 0 <= i < |r| ==> r[i] == Turn(ops[i], |Offered(Run(start, ops[..i]), ops[i])|)
  {
    seq(|ops|, i requires 0 <= i < |ops| => Turn(ops[i], |Offered(Run(start, ops[..i]), ops[i])|))
  }

  /** These operations, and the host holds the id after them. */
  predicate HoldsAfter(start: State, turns: seq<Turn>, ops: seq<Op>, id: Id) {
    Ops(turns) == ops && id in Play(start, turns).held
  }

  lemma GivenIsOffered(s: State, turn: Turn)
    ensures IdsOf(Given(s, turn)) <= IdsOf(Offered(s, turn.op))
    ensures |Offered(s, turn.op)| <= Answers(turn.op) + turn.extra ==> Given(s, turn) == Offered(s, turn.op)
  {
  }

  lemma HeldWasOffered(start: State, turns: seq<Turn>, id: Id) returns (k: nat)
    requires id in Play(start, turns).held
    ensures OfferedAt(start, Ops(turns), k, id)
  {
    HeldIffGiven(start, turns, id);
    k :| GivenAt(start, turns, k, id);
    GivenIsOffered(Run(start, Ops(turns)[..k]), turns[k]);
  }

  lemma OfferedCanBeHeld(start: State, ops: seq<Op>, k: nat, id: Id)
    requires OfferedAt(start, ops, k, id)
    ensures HoldsAfter(start, Most(start, ops), ops, id)
  {
    var turns := Most(start, ops);
    assert Ops(turns) == ops;
    GivenIsOffered(Run(start, ops[..k]), turns[k]);
    HeldIffGiven(start, turns, id);
    assert GivenAt(start, turns, k, id);
  }

  /** After given operations of the publisher the host can hold an id if and only if it was given an event
      with this id in one of them and did not refuse it. */
  lemma MayBeHeldIff(start: State, ops: seq<Op>, id: Id)
    ensures (exists turns :: HoldsAfter(start, turns, ops, id)) <==> exists k: nat :: OfferedAt(start, ops, k, id)
  {
    if exists turns :: HoldsAfter(start, turns, ops, id) {
      var turns :| HoldsAfter(start, turns, ops, id);
      var k := HeldWasOffered(start, turns, id);
    }
    if exists k: nat :: OfferedAt(start, ops, k, id) {
      var k: nat :| OfferedAt(start, ops, k, id);
      OfferedCanBeHeld(start, ops, k, id);
    }
  }

  // ---------------------------------------------------------------------------------------------
  // Since the slot was taken.

  /** The same settlement, no further back, and nothing of what was seen of it is unseen. */
  predicate SameSlot(s: State, t: State) {
    && s.settlement.Some? && t.settlement.Some? && s.ledger.seen <= t.ledger.seen
    && t.settlement.value.events == s.settlement.value.events && t.settlement.value.ids == s.settlement.value.ids
    && s.settlement.value.nextIndex <= t.settlement.value.nextIndex
  }

  predicate TakesSlot(s: State, op: Op) {
    op.Reserve? && CanReserve(s, op.closing, op.runChanged)
  }

  lemma SubmittedKeepsSeen(s: State, events: seq<Event>, origin: Origin, runChanged: bool, keyFits: bool)
    ensures Submitted(s, events, origin, runChanged, keyFits).0.ledger.seen == s.ledger.seen
  {
    var c, adoption := SubmittedShape(s, events, origin, runChanged, keyFits);
    var t := AdoptedShape(c, adoption, origin);
  }

  lemma PushKeepsTheSlot(s: State, op: Op)
    requires op.Submit? || op.SubmitNext? || op.Retry?
    ensures Next(s, op).settlement.Some? ==> SameSlot(s, Next(s, op))
  {
    if op.Submit? {
      SubmittedKeepsTheSlot(s, op.events, op.origin, op.runChanged, op.keyFits);
      SubmittedKeepsSeen(s, op.events, op.origin, op.runChanged, op.keyFits);
    } else if op.SubmitNext? && CanSubmitNext(s) {
      var e := SubmittedNextShape(s, op.keyFits);
      SubmittedKeepsTheSlot(s, [e], OfSettlement, false, op.keyFits);
      SubmittedKeepsSeen(s, [e], OfSettlement, false, op.keyFits);
    }
  }

  lemma DeliveryKeepsTheSlot(s: State, op: Op)
    requires InDelivery(op)
    ensures Next(s, op).settlement.Some? ==> SameSlot(s, Next(s, op))
  {
    DeliveryGoesOn(s, op);
  }

  lemma OthersKeepTheSlot(s: State, op: Op)
    requires !TakesSlot(s, op) && Next(s, op).settlement.Some?
    ensures SameSlot(s, Next(s, op))
  {
    if InDelivery(op) {
      DeliveryKeepsTheSlot(s, op);
    } else if op.Settle? {
      if s.settlement.Some? {
        AdvancedMoves(s.settlement.value);
      }
    } else if !op.Reserve? && !op.Abandon? {
      PushKeepsTheSlot(s, op);
    }
  }

  /** The slot was taken at `r` for what is in it after `ops`. */
  ghost predicate SlotSince(start: State, ops: seq<Op>, r: nat) {
    && r < |ops| && TakesSlot(Run(start, ops[..r]), ops[r])
    && forall m :: r < m <= |ops| ==> SameSlot(Run(start, ops[..m]), Run(start, ops))
  }

  lemma SlotSinceOneMore(start: State, ops: seq<Op>, r: nat)
    requires ops != [] && SlotSince(start, ops[..|ops| - 1], r) && SameSlot(Run(start, ops[..|ops| - 1]), Run(start, ops))
    ensures SlotSince(start, ops, r)
  {
    var shorter := ops[..|ops| - 1];
    assert shorter[..r] == ops[..r];
    forall m | r < m <= |ops| ensures SameSlot(Run(start, ops[..m]), Run(start, ops)) {
      if m < |ops| {
        assert shorter[..m] == ops[..m];
      } else {
        assert ops[..m] == ops;
      }
    }
  }

  lemma {:induction false} SlotWasTaken(start: State, ops: seq<Op>) returns (r: nat)
    requires start.settlement.None? && Run(start, ops).settlement.Some?
    ensures SlotSince(start, ops, r)
  {
    var n := |ops| - 1;
    if TakesSlot(Run(start, ops[..n]), ops[n]) {
      r := n;
      assert ops[..n + 1] == ops;
    } else {
      OthersKeepTheSlot(Run(start, ops[..n]), ops[n]);
      r := SlotWasTaken(start, ops[..n]);
      SlotSinceOneMore(start, ops, r);
    }
  }

  // ---------------------------------------------------------------------------------------------
  // An abandoned terminal.

  function TerminalId(s: State): Id
    requires CanAbandon(s)
  {
    s.settlement.value.ids[|s.settlement.value.ids| - 1]
  }

  /** At `k` an attempt that had begun on the event ended in a failure, or in a refusal that was not for
      the event or one before it. */
  predicate UnansweredAt(start: State, ops: seq<Op>, k: nat, id: Id) {
    OfferedAt(start, ops, k, id) && (ops[k].Fail? || ops[k].Refuse?)
  }

  /** What receipts of a settlement's events are for is seen. */
  lemma ReceiptIsSeen(s: State, n: nat, id: Id)
    requires CanReceipt(s, n) && s.settlement.Some? && id in s.settlement.value.ids && id in IdsOf(Acknowledged(s.delivery.value, n))
    ensures id in Receipted(s, n).ledger.seen
  {
    assert id in IdSet(s.settlement.value.ids);
  }

  /** No best-effort block has an event with the id of a settlement that waits for it. */
  lemma NoCopyIsBestEffort(s: State, n: nat, id: Id)
    requires Promised(s) && SettlementFits(s) && CanPush(s, n) && s.settlement.Some?
    requires s.settlement.value.nextIndex < |s.settlement.value.ids| && id in s.settlement.value.ids
    ensures id !in IdsOf(Offered(s, PushBestEffort(n)))
  {
    var d, st := s.delivery.value, s.settlement.value;
    forall q | q in Offered(s, PushBestEffort(n)) ensures q.event.id != id {
      var k :| d.index <= k < d.phase.bestEffortEnd && d.events[k] == q;
      assert q in OnTheWay(s) && !q.event.lossless;
      var i :| 0 <= i < |st.ids| && st.ids[i] == id;
      assert st.events[i] in st.events && st.events[i].id == id;
    }
  }

  /** When the terminal can be given up, all the settlement's other ids were seen, and it was not. */
  lemma SeenButTheTerminal(start: State, ops: seq<Op>)
    requires Initial(start) && CanAbandon(Run(start, ops))
    ensures var s := Run(start, ops); s.ledger.seen == IdSet(s.settlement.value.ids) - {TerminalId(s)}
  {
    SettlementIsExact(start, ops);
    OnlyTheTerminalIsLeft(Run(start, ops).settlement.value, Run(start, ops).ledger.seen);
  }

  /** While a settlement waits for an event only attempts without an answer give it to the host. */
  lemma UnseenIsUnanswered(s: State, op: Op, id: Id)
    requires Promised(s) && SettlementFits(s) && s.settlement.Some? && id in s.settlement.value.ids
    requires s.settlement.value.nextIndex < |s.settlement.value.ids| && id in IdsOf(Offered(s, op)) && id !in Next(s, op).ledger.seen
    ensures op.Fail? || op.Refuse?
  {
    match op {
      case Receipt(n) => if CanReceipt(s, n) { ReceiptIsSeen(s, n, id); }
      case PushBestEffort(n) => if CanPush(s, n) { NoCopyIsBestEffort(s, n, id); }
      case _ =>
    }
  }

  lemma TerminalIsUnanswered(s: State, op: Op, last: State)
    requires Promised(s) && SettlementFits(s) && SameSlot(s, last) && SameSlot(Next(s, op), last)
    requires CanAbandon(last) && TerminalId(last) !in last.ledger.seen && TerminalId(last) in IdsOf(Offered(s, op))
    ensures op.Fail? || op.Refuse?
  {
    UnseenIsUnanswered(s, op, TerminalId(last));
  }

  lemma NextInRun(start: State, ops: seq<Op>, k: nat)
    requires k < |ops|
    ensures Run(start, ops[..k + 1]) == Next(Run(start, ops[..k]), ops[k])
  {
    assert ops[..k + 1] == ops[..k] + [ops[k]];
    RunOneMore(start, ops[..k], ops[k]);
  }

  lemma SlotAt(start: State, ops: seq<Op>, r: nat, m: nat)
    requires SlotSince(start, ops, r) && r < m <= |ops|
    ensures SameSlot(Run(start, ops[..m]), Run(start, ops))
  {
  }

  /** Since the slot was taken only attempts without an answer gave the terminal to the host. */
  lemma OfferedIsUnanswered(start: State, ops: seq<Op>, r: nat, k: nat)
    requires Initial(start) && CanAbandon(Run(start, ops)) && SlotSince(start, ops, r) && r < k
    requires OfferedAt(start, ops, k, TerminalId(Run(start, ops)))
    ensures UnansweredAt(start, ops, k, TerminalId(Run(start, ops)))
  {
    SlotAt(start, ops, r, k);
    SlotAt(start, ops, r, k + 1);
    NextInRun(start, ops, k);
    SeenButTheTerminal(start, ops);
    EveryRunPromises(start, ops[..k]);
    TerminalIsUnanswered(Run(start, ops[..k]), ops[k], Run(start, ops));
  }

  lemma NotAtTheReserve(start: State, ops: seq<Op>, r: nat, id: Id)
    requires SlotSince(start, ops, r)
    ensures !OfferedAt(start, ops, r, id)
  {
  }

  /** When a terminal can be given up, the host may hold its id if and only if the host was given the id
      before the slot was taken for it, or an attempt that had begun on the terminal since then ended in a
      failure, or in a refusal that was not for the terminal or an event before it. */
  lemma AbandonedMayBeHeldIff(start: State, ops: seq<Op>) returns (r: nat)
    requires Initial(start) && CanAbandon(Run(start, ops))
    ensures SlotSince(start, ops, r)
    ensures var id := TerminalId(Run(start, ops));
            (exists turns :: HoldsAfter(start, turns, ops, id))
            <==> (exists k: nat :: k < r && OfferedAt(start, ops, k, id)) || (exists k: nat :: k > r && UnansweredAt(start, ops, k, id))
  {
    var id := TerminalId(Run(start, ops));
    r := SlotWasTaken(start, ops);
    MayBeHeldIff(start, ops, id);
    NotAtTheReserve(start, ops, r, id);
    forall k: nat | k > r && OfferedAt(start, ops, k, id) ensures UnansweredAt(start, ops, k, id) {
      OfferedIsUnanswered(start, ops, r, k);
    }
    if exists k: nat :: OfferedAt(start, ops, k, id) {
      var k: nat :| OfferedAt(start, ops, k, id);
      assert k < r || k > r;
    }
  }

  /** The event is in a block that is being delivered. */
  predicate BeingDelivered(s: State, id: Id) {
    && s.delivery.Some?
    && match s.delivery.value.phase
       case Attempting(_, remaining, _) => id in IdsOf(remaining)
       case Pushing(end) => s.delivery.value.index <= end <= |s.delivery.value.events| && id in IdsOf(s.delivery.value.events[s.delivery.value.index..end])
       case _ => false
  }

  lemma OfferedIsDelivered(s: State, op: Op, id: Id)
    requires id in IdsOf(Offered(s, op))
    ensures BeingDelivered(s, id)
  {
  }

  /** So an event of which no block was ever delivered is not held. */
  lemma NeverDeliveredIsNotHeld(start: State, turns: seq<Turn>, id: Id)
    requires forall k :: 0 <= k < |turns| ==> !BeingDelivered(Run(start, Ops(turns)[..k]), id)
    ensures id !in Play(start, turns).held
  {
    if id in Play(start, turns).held {
      var k := HeldWasOffered(start, turns, id);
      OfferedIsDelivered(Run(start, Ops(turns)[..k]), Ops(turns)[k], id);
    }
  }

  // ---------------------------------------------------------------------------------------------
  // What the host certainly holds.

  /** The host holds what it has acknowledged of the delivery and of the settlement. */
  ghost predicate HoldsWhatIsKnown(w: World) {
    && (w.state.delivery.Some? ==> forall id :: id in w.state.delivery.value.acceptedIds ==> id in w.held)
    && (w.state.settlement.Some? ==> forall id :: id in w.state.ledger.seen ==> id in w.held)
  }

  /** The events that the host answers for. */
  function AnsweredFor(s: State, op: Op): seq<Queued> {
    Prefix(Offered(s, op), Answers(op))
  }

  lemma AnsweredIsGiven(s: State, turn: Turn)
    ensures IdsOf(AnsweredFor(s, turn.op)) <= IdsOf(Given(s, turn))
  {
    assert forall q :: q in AnsweredFor(s, turn.op) ==> q in Given(s, turn);
  }

  /** Every id the host answered for is held, now and later. */
  lemma AcknowledgedIsHeld(start: State, turns: seq<Turn>, k: nat, id: Id)
    requires k < |turns| && id in IdsOf(AnsweredFor(Run(start, Ops(turns)[..k]), turns[k].op))
    ensures id in Play(start, turns).held
  {
    AnsweredIsGiven(Run(start, Ops(turns)[..k]), turns[k]);
    HeldIffGiven(start, turns, id);
    assert GivenAt(start, turns, k, id);
  }

  lemma AnsweredForReceipt(s: State, n: nat)
    requires CanReceipt(s, n)
    ensures AnsweredFor(s, Receipt(n)) == Acknowledged(s.delivery.value, n)
  {
  }

  lemma AnsweredForBlock(s: State, n: nat)
    requires CanPush(s, n)
    ensures AnsweredFor(s, PushBestEffort(n)) == PushedEvents(s, n)
  {
  }

  /** An operation makes known only what was known before and what the host answers for in it. */
  lemma DeliveryMakesKnown(s: State, op: Op)
    requires InDelivery(op)
    ensures var t := Next(s, op);
            && AcceptedInFlight(t) <= AcceptedInFlight(s) + IdsOf(AnsweredFor(s, op))
            && (t.settlement.Some? ==> s.settlement.Some? && t.ledger.seen <= s.ledger.seen + IdsOf(AnsweredFor(s, op)))
  {
    match op {
      case Receipt(n) => if CanReceipt(s, n) { AnsweredForReceipt(s, n); }
      case PushBestEffort(n) => if CanPush(s, n) { AnsweredForBlock(s, n); }
      case _ =>
    }
  }

  lemma PushMakesNothingKnown(s: State, op: Op)
    requires op.Submit? || op.SubmitNext? || op.Retry?
    ensures var t := Next(s, op);
            AcceptedInFlight(t) == AcceptedInFlight(s) && t.ledger.seen == s.ledger.seen && (t.settlement.Some? ==> s.settlement.Some?)
  {
    PushKeepsTheSlot(s, op);
    if op.Submit? {
      SubmittedKeepsSeen(s, op.events, op.origin, op.runChanged, op.keyFits);
      SubmittedKeepsDelivery(s, op.events, op.origin, op.runChanged, op.keyFits);
    } else if op.SubmitNext? && CanSubmitNext(s) {
      var e := SubmittedNextShape(s, op.keyFits);
      SubmittedKeepsSeen(s, [e], OfSettlement, false, op.keyFits);
      SubmittedKeepsDelivery(s, [e], OfSettlement, false, op.keyFits);
    }
  }

  lemma SubmittedKeepsDelivery(s: State, events: seq<Event>, origin: Origin, runChanged: bool, keyFits: bool)
    ensures Submitted(s, events, origin, runChanged, keyFits).0.delivery == s.delivery
  {
    var c, adoption := SubmittedShape(s, events, origin, runChanged, keyFits);
    var t := AdoptedShape(c, adoption, origin);
  }

  lemma SlotMakesNothingKnown(s: State, op: Op)
    requires op.Reserve? || op.Settle? || op.Abandon?
    ensures var t := Next(s, op);
            && AcceptedInFlight(t) == AcceptedInFlight(s)
            && (t.settlement.Some? ==> (s.settlement.Some? && t.ledger.seen == s.ledger.seen) || t.ledger.seen <= AcceptedInFlight(s))
  {
  }

  lemma KnownOneMore(w: World, turn: Turn)
    requires HoldsWhatIsKnown(w)
    ensures HoldsWhatIsKnown(Turned(w, turn))
  {
    var s, op := w.state, turn.op;
    forall id | id in w.held || id in IdsOf(AnsweredFor(s, op)) ensures id in Turned(w, turn).held {
      AnsweredIsGiven(s, turn);
      KeepsAll(w.held, Given(s, turn), id);
    }
    if InDelivery(op) {
      DeliveryMakesKnown(s, op);
    } else if op.Submit? || op.SubmitNext? || op.Retry? {
      PushMakesNothingKnown(s, op);
    } else {
      SlotMakesNothingKnown(s, op);
    }
  }

  lemma {:induction false} KnownIsHeld(start: State, turns: seq<Turn>)
    requires Initial(start)
    ensures HoldsWhatIsKnown(Play(start, turns))
  {
    if turns != [] {
      KnownIsHeld(start, turns[..|turns| - 1]);
      KnownOneMore(Play(start, turns[..|turns| - 1]), turns[|turns| - 1]);
    }
  }

  /** When a terminal can be given up, the host holds all its closing events. */
  lemma ClosingEventsAreHeld(start: State, turns: seq<Turn>, id: Id)
    requires Initial(start) && CanAbandon(Play(start, turns).state)
    requires id in Play(start, turns).state.settlement.value.ids && id != TerminalId(Play(start, turns).state)
    ensures id in Play(start, turns).held
  {
    PlayIsRun(start, turns);
    SeenButTheTerminal(start, Ops(turns));
    KnownIsHeld(start, turns);
    assert id in IdSet(Play(start, turns).state.settlement.value.ids);
  }

  // ---------------------------------------------------------------------------------------------
  // A terminal that the host holds and the publisher gives up.

  /** A Run's terminal that fits its lane. */
  predicate IsTerminal(e: Event) {
    e.lossless && e.runTerminal && e.bytes + 2 <= MAX_RUN_TERMINAL_BATCH_BYTES
  }

  function SlotOf(e: Event, running: bool): Option<Settlement> {
    Some(Settlement([e], [e.id], 0, {}, running, false, false))
  }

  lemma ReservedAlone(s: State, e: Event)
    requires Initial(s) && IsTerminal(e)
    ensures var t := Reserved(s, [e], false);
            && t == s.(settlement := SlotOf(e, true), ledger := t.ledger)
  {
    assert Underway(s.pending, s.delivery, s.queue) == [];
    assert EventIds([e]) == [e.id];
    assert IdSet([e.id]) * {} == {};
  }

  lemma TerminalAdmitted(e: Event, u: Usage)
    requires IsTerminal(e) && !u.pendingTerminalBatch && u.queuedTerminalBatches == 0
    requires u.pendingLosslessCount + u.queuedLosslessCount == 0
    ensures AdmissionOf([e], u) == Admitted([e], 0, 0, 0, 0, true)
  {
    LosslessOne(e);
    assert Measure([e]) == e.bytes + 2 && UniqueIds([e]);
    assert CountRefusal([e], u).None? && Candidates([e], u) == Some([e]) && LosslessFits([e], true, u);
  }

  /** The terminal alone in the queue, its settlement waiting. */
  ghost predicate Waiting(s: State, e: Event, q: Queued) {
    && q.event == e && q.terminalLane && |s.queue| == 1 && s.queue[0].events == [q] && s.delivery.None?
    && s.pending.events == [] && s.settlement == SlotOf(e, true)
  }

  lemma SubmittedAlone(s: State, e: Event, keyFits: bool) returns (q: Queued)
    requires s.queue == [] && s.pending.events == [] && s.delivery.None? && s.queued == NONE && IsTerminal(e)
    requires s.pending.terminalKey.None? && !s.pending.terminalBatch && s.pending.losslessCount == 0
    requires s.settlement == SlotOf(e, true)
    ensures Waiting(Next(s, SubmitNext(keyFits)), e, q)
  {
    TerminalAdmitted(e, UsageOf(s.pending, s.queued));
    var a := AdmissionOf([e], UsageOf(s.pending, s.queued));
    q := Wrap([e], s.nextEntry, true, s.ledger.next)[0];
    assert AdmittedEntry(a, s.nextEntry, s.ledger.next).events == [q];
  }

  /** The terminal in its one attempt. */
  ghost predicate InAttempt(s: State, e: Event, q: Queued) {
    && q.event == e && q.terminalLane && s.queue == [] && s.delivery.Some? && s.delivery.value.events == [q]
    && s.delivery.value.phase == Attempting(1, [q], 0) && s.delivery.value.remainingLossless == [q]
    && s.settlement == SlotOf(e, true)
  }

  lemma AttemptedAlone(s: State, e: Event, q: Queued)
    requires Waiting(s, e, q) && e.lossless
    ensures InAttempt(Next(Drained(s), StartBlock), e, q)
  {
    assert s.queue[..0] == [];
    assert Flatten(s.queue) == [q];
    assert s.pending.events + Flatten(s.queue) == [q];
    assert [q][..0] == [];
    var d := Drained(s).delivery.value;
    assert d.events == [q] && LosslessOf([q]) == [q];
    assert d.events[0..1] == [q];
  }

  lemma KeptAlone(q: Queued)
    ensures Keep([], Prefix([q][0..], 1)) == [q.event.id]
  {
    assert Prefix([q][0..], 1) == [q];
    assert [q][..0] == [];
  }

  lemma FailedAlone(s: State, e: Event, q: Queued)
    requires InAttempt(s, e, q)
    ensures Given(s, Turn(Fail, 1)) == Prefix([q][0..], 1)
    ensures var t := Next(Next(Next(s, Fail), Finish), Settle(FailTask));
            CanAbandon(t) && t.settlement == SlotOf(e, false)
  {
    var u := Next(s, Fail);
    assert CanFinish(u);
    assert Disowned([q]) == [q.(owner := None)];
    assert WithoutId(Disowned([q]), e.id) == [];
    assert Flatten([]) == [];
  }

  /** The world a play has come to, with nothing kept and nothing acknowledged so far. */
  ghost predicate At(start: State, turns: seq<Turn>, s: State) {
    Play(start, turns) == World(s, []) && s.ledger.accepted == {}
  }

  /** A turn in which nothing reaches the host. */
  lemma QuietTurn(start: State, turns: seq<Turn>, s: State, turn: Turn)
    requires At(start, turns, s) && Given(s, turn) == [] && Next(s, turn.op).ledger.accepted == {}
    ensures At(start, turns + [turn], Next(s, turn.op))
  {
    PlayOneMore(start, turns, turn);
  }

  lemma PlayedUntilQueued(start: State, e: Event, keyFits: bool) returns (turns: seq<Turn>, s: State, q: Queued)
    requires Initial(start) && IsTerminal(e)
    ensures At(start, turns, s) && Waiting(s, e, q)
  {
    var submit := SubmitNext(keyFits);
    ReservedAlone(start, e);
    var t := Next(start, Reserve([e], false));
    assert At(start, [], start);
    QuietTurn(start, [], start, Turn(Reserve([e], false), 0));
    turns := [] + [Turn(Reserve([e], false), 0)];
    q := SubmittedAlone(t, e, keyFits);
    s := Next(t, submit);
    SubmittedIsNotAcknowledged(t, submit);
    QuietTurn(start, turns, t, Turn(submit, 0));
    turns := turns + [Turn(submit, 0)];
  }

  lemma SubmittedIsNotAcknowledged(s: State, op: Op)
    requires op.SubmitNext? && CanSubmitNext(s)
    ensures Next(s, op).ledger.accepted == s.ledger.accepted
  {
    var e := SubmittedNextShape(s, op.keyFits);
    var c, adoption := SubmittedShape(s, [e], OfSettlement, false, op.keyFits);
    var t := AdoptedShape(c, adoption, OfSettlement);
  }

  lemma PlayedUntilAttempt(start: State, turns: seq<Turn>, s: State, e: Event, q: Queued)
    requires At(start, turns, s) && Waiting(s, e, q) && e.lossless
    ensures At(start, turns + [Turn(Drain, 0)] + [Turn(StartBlock, 0)], Next(Drained(s), StartBlock))
  {
    QuietTurn(start, turns, s, Turn(Drain, 0));
    QuietTurn(start, turns + [Turn(Drain, 0)], Drained(s), Turn(StartBlock, 0));
  }

  lemma PlayedUntilGivenUp(start: State, turns: seq<Turn>, s: State, e: Event, q: Queued) returns (all: seq<Turn>)
    requires At(start, turns, s) && InAttempt(s, e, q)
    ensures var t := Next(Next(Next(s, Fail), Finish), Settle(FailTask)); Play(start, all) == World(t, [e.id])
  {
    FailedAlone(s, e, q);
    KeptAlone(q);
    all := turns + [Turn(Fail, 1)];
    PlayOneMore(start, turns, Turn(Fail, 1));
    PlayOneMore(start, all, Turn(Finish, 0));
    PlayOneMore(start, all + [Turn(Finish, 0)], Turn(Settle(FailTask), 0));
    all := all + [Turn(Finish, 0)] + [Turn(Settle(FailTask), 0)];
  }

  lemma NothingAcknowledged(s: State)
    ensures Next(Next(Next(s, Fail), Finish), Settle(FailTask)).ledger.accepted == s.ledger.accepted
  {
  }

  /** The failing case: the host kept the terminal and the transport failed before its receipt; the
      publisher may then give the terminal up although the host holds it. */
  lemma AbandonedTerminalMayBeHeld(start: State, e: Event, keyFits: bool) returns (turns: seq<Turn>)
    requires Initial(start) && IsTerminal(e)
    ensures var w := Play(start, turns);
            && CanAbandon(w.state) && w.state.settlement.value.ids == [e.id]
            && w.held == [e.id] && w.state.ledger.accepted == {}
  {
    var before, s, q := PlayedUntilQueued(start, e, keyFits);
    PlayedUntilAttempt(start, before, s, e, q);
    AttemptedAlone(s, e, q);
    var t := Next(Drained(s), StartBlock);
    turns := PlayedUntilGivenUp(start, before + [Turn(Drain, 0)] + [Turn(StartBlock, 0)], t, e, q);
    FailedAlone(t, e, q);
    NothingAcknowledged(t);
  }
}
