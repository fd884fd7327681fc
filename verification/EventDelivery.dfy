/** One delivery, as the steps between which other calls may come in: blocks of lossless and of
    best-effort events, in each lossless block the host's receipts, refusals and failures. */
module EventDelivery {
  import opened Wrappers
  import opened EventAdmission
  import opened EventEntries

  datatype Phase =
    | Ready
    | Attempting(losslessEnd: nat, remaining: seq<Queued>, accepted: nat)
    | Pushing(bestEffortEnd: nat)
    | Broken

  datatype Delivery = Delivery(entries: seq<Entry>, events: seq<Queued>, index: nat, phase: Phase,
                               remainingLossless: seq<Queued>, terminalKey: Option<Key>,
                               ownerErrors: set<nat>, acceptedIds: set<Id>, rejectedIds: set<Id>)

  function FirstKey(entries: seq<Entry>): Option<Key> {
    if entries == [] then None
    else if entries[0].terminalKey.Some? then entries[0].terminalKey else FirstKey(entries[1..])
  }

  function Begin(pending: Pending, entries: seq<Entry>): Delivery {
    var events := pending.events + Flatten(entries);
    Delivery(entries, events, 0, Ready, LosslessOf(events),
             if pending.terminalKey.Some? then pending.terminalKey else FirstKey(entries), {}, {}, {})
  }

  /** Where the block of equal losslessness that starts before `i` ends. */
  function BlockEnd(events: seq<Queued>, i: nat, lossless: bool): (r: nat)
    requires i <= |events|
    ensures i <= r <= |events|
    ensures forall k :: i <= k < r ==> events[k].event.lossless == lossless
    ensures r < |events| ==> events[r].event.lossless != lossless
    decreases |events| - i
  {
    if i < |events| && events[i].event.lossless == lossless then BlockEnd(events, i + 1, lossless) else i
  }

  method FindBlockEnd(events: seq<Queued>, index: nat) returns (end: nat)
    requires index < |events|
    ensures end == BlockEnd(events, index + 1, events[index].event.lossless)
  {
    var lossless := events[index].event.lossless;
    end := index + 1;
    while end < |events| && events[end].event.lossless == lossless
      invariant index < end <= |events|
      invariant BlockEnd(events, end, lossless) == BlockEnd(events, index + 1, lossless)
    {
      end := end + 1;
    }
  }

  function NextBlock(d: Delivery): Delivery
    requires d.phase.Ready? && d.index < |d.events|
  {
    var lossless := d.events[d.index].event.lossless;
    var end := BlockEnd(d.events, d.index + 1, lossless);
    d.(phase := if lossless then Attempting(end, d.events[d.index..end], 0) else Pushing(end))
  }

  function Drop(qs: seq<Queued>, n: nat): seq<Queued> {
    if n <= |qs| then qs[n..] else []
  }

  /** The events that `n` receipts are for. */
  function Acknowledged(d: Delivery, n: nat): seq<Queued>
    requires d.phase.Attempting? && d.phase.accepted + n <= |d.phase.remaining|
  {
    d.phase.remaining[d.phase.accepted..d.phase.accepted + n]
  }

  function Receipts(d: Delivery, n: nat): Delivery
    requires d.phase.Attempting? && d.phase.accepted + n <= |d.phase.remaining|
  {
    d.(phase := d.phase.(accepted := d.phase.accepted + n),
       remainingLossless := Drop(d.remainingLossless, n),
       acceptedIds := d.acceptedIds + IdsOf(Acknowledged(d, n)))
  }

  /** The attempt came back with a receipt for every event it was given. */
  function AttemptReturned(d: Delivery): Delivery
    requires d.phase.Attempting? && d.phase.accepted == |d.phase.remaining|
  {
    d.(phase := Ready, index := d.phase.losslessEnd)
  }

  function IndexOf(qs: seq<Queued>, q: Queued): (r: nat)
    ensures r <= |qs| && (r < |qs| ==> qs[r] == q)
    ensures forall k :: 0 <= k < r ==> qs[k] != q
  {
    if qs == [] || qs[0] == q then 0 else 1 + IndexOf(qs[1..], q)
  }

  function IndexOfId(qs: seq<Queued>, id: Id): (r: nat)
    ensures r <= |qs| && (r < |qs| ==> qs[r].event.id == id)
    ensures forall k :: 0 <= k < r ==> qs[k].event.id != id
  {
    if qs == [] || qs[0].event.id == id then 0 else 1 + IndexOfId(qs[1..], id)
  }

  function WithoutAt(qs: seq<Queued>, i: nat): seq<Queued>
    requires i < |qs|
  {
    qs[..i] + qs[i + 1..]
  }

  /** The entries that wait for one of the events they did not bring. */
  function Waiting(entries: seq<Entry>, id: Id): set<nat> {
    set e | e in entries && e.awaitPending && id in e.retryIds :: e.id
  }

  /** The event a refusal is for: one that the host has not accepted in this attempt, if any. */
  function RefusedEvent(d: Delivery, id: Id): Option<Queued>
    requires d.phase.Attempting? && d.phase.accepted <= |d.phase.remaining|
  {
    var rest := d.phase.remaining[d.phase.accepted..];
    var j := IndexOfId(rest, id);
    if j < |rest| && IndexOf(d.remainingLossless, rest[j]) < |d.remainingLossless| then Some(rest[j]) else None
  }

  /** The host refused one event for good; the rest is attempted again without it. */
  function AttemptRefused(d: Delivery, id: Id): Delivery
    requires d.phase.Attempting? && d.phase.accepted <= |d.phase.remaining|
  {
    if RefusedEvent(d, id).None? then d.(phase := Broken)
    else
      var refused := RefusedEvent(d, id).value;
      var rest := d.phase.remaining[d.phase.accepted..];
      var left := WithoutAt(rest, IndexOfId(rest, id));
      d.(phase := if left == [] then Ready else d.phase.(remaining := left, accepted := 0),
         index := if left == [] then d.phase.losslessEnd else d.index,
         remainingLossless := WithoutAt(d.remainingLossless, IndexOf(d.remainingLossless, refused)),
         ownerErrors := d.ownerErrors + Waiting(d.entries, id)
                        + (if refused.owner.Some? then {refused.owner.value} else {}),
         rejectedIds := d.rejectedIds + {id})
  }

  /** The attempt failed for another reason, which ends the delivery. */
  function AttemptFailed(d: Delivery): Delivery
    requires d.phase.Attempting?
  {
    d.(phase := Broken)
  }

  /** A best-effort block is pushed once; whatever the host does not accept is dropped. */
  function BestEffortPushed(d: Delivery, n: nat): Delivery
    requires d.phase.Pushing? && d.index + n <= d.phase.bestEffortEnd <= |d.events|
  {
    d.(phase := Ready, index := d.phase.bestEffortEnd,
       acceptedIds := d.acceptedIds + IdsOf(d.events[d.index..d.index + n]))
  }

  predicate Over(d: Delivery) {
    d.phase.Broken? || (d.phase.Ready? && d.index == |d.events|)
  }

  /** What is left of an entry when the delivery is over. */
  predicate Retains(d: Delivery, e: Entry) {
    exists q :: q in d.remainingLossless && (q.owner == Some(e.id) || (e.awaitPending && q.event.id in e.retryIds))
  }

  /** Whether the entry's push is told that it succeeded. */
  predicate Resolves(d: Delivery, e: Entry) {
    e.id !in d.ownerErrors && !Retains(d, e)
  }

  // ---------------------------------------------------------------------------------------------
  // Positions.

  lemma {:induction false} LosslessOfConcat(a: seq<Queued>, b: seq<Queued>)
    ensures LosslessOf(a + b) == LosslessOf(a) + LosslessOf(b)
  {
    if b == [] {
      assert a + b == a;
    } else {
      LosslessOfConcat(a, b[..|b| - 1]);
      assert (a + b)[..|a + b| - 1] == a + b[..|b| - 1];
    }
  }

  predicate AllLossless(qs: seq<Queued>) {
    forall q :: q in qs ==> q.event.lossless
  }

  predicate NoneLossless(qs: seq<Queued>) {
    forall q :: q in qs ==> !q.event.lossless
  }

  lemma {:induction false} LosslessOfUniform(qs: seq<Queued>)
    ensures AllLossless(qs) ==> LosslessOf(qs) == qs
    ensures NoneLossless(qs) ==> LosslessOf(qs) == []
  {
    if qs != [] {
      LosslessOfUniform(qs[..|qs| - 1]);
      assert qs == qs[..|qs| - 1] + [qs[|qs| - 1]];
    }
  }

  lemma {:induction false} LosslessOfHolds(qs: seq<Queued>)
    ensures forall q :: q in LosslessOf(qs) <==> q in qs && q.event.lossless
  {
    if qs != [] {
      LosslessOfHolds(qs[..|qs| - 1]);
    }
  }

  /** The retained list is, at every step, exactly what has not been dealt with, in order: the rest of
      the attempt, then the lossless events after the block. */
  ghost predicate Positioned(d: Delivery) {
    match d.phase
    case Ready => d.index <= |d.events| && d.remainingLossless == LosslessOf(d.events[d.index..])
    case Attempting(end, remaining, accepted) =>
      && d.index < end <= |d.events| && accepted <= |remaining|
      && d.remainingLossless == remaining[accepted..] + LosslessOf(d.events[end..])
    case Pushing(end) =>
      d.index < end <= |d.events| && d.remainingLossless == LosslessOf(d.events[end..])
    case Broken => true
  }

  lemma BeginIsPositioned(pending: Pending, entries: seq<Entry>)
    ensures Positioned(Begin(pending, entries))
  {
    var d := Begin(pending, entries);
    assert d.events[0..] == d.events;
  }

  lemma NextBlockIsPositioned(d: Delivery)
    requires Positioned(d) && d.phase.Ready? && d.index < |d.events|
    ensures Positioned(NextBlock(d))
  {
    var end := BlockEnd(d.events, d.index + 1, d.events[d.index].event.lossless);
    BlockOfOneKind(d.events, d.index, end);
    var block := d.events[d.index..end];
    assert block[0..] == block;
  }

  /** A block of one kind goes in front of the lossless events after it, or adds nothing to them. */
  lemma BlockOfOneKind(events: seq<Queued>, index: nat, end: nat)
    requires index < end <= |events|
    requires forall k :: index <= k < end ==> events[k].event.lossless == events[index].event.lossless
    ensures LosslessOf(events[index..])
            == (if events[index].event.lossless then events[index..end] else []) + LosslessOf(events[end..])
  {
    var block := events[index..end];
    assert events[index..] == block + events[end..];
    LosslessOfConcat(block, events[end..]);
    assert if events[index].event.lossless then AllLossless(block) else NoneLossless(block);
    LosslessOfUniform(block);
  }

  /** The splice at the front of the retained list removes exactly the acknowledged events. */
  lemma SpliceRemovesAcknowledged(d: Delivery, n: nat)
    requires Positioned(d) && d.phase.Attempting? && d.phase.accepted + n <= |d.phase.remaining|
    ensures d.remainingLossless == Acknowledged(d, n) + Receipts(d, n).remainingLossless
    ensures Positioned(Receipts(d, n))
  {
    var rest := d.phase.remaining[d.phase.accepted..];
    assert rest == Acknowledged(d, n) + rest[n..];
    assert rest[n..] == d.phase.remaining[d.phase.accepted + n..];
  }

  lemma PushedIsPositioned(d: Delivery, n: nat)
    requires Positioned(d) && d.phase.Pushing? && d.index + n <= d.phase.bestEffortEnd
    ensures Positioned(BestEffortPushed(d, n))
  {
  }

  /** Serials grow along the list, so an event is in it once and its order is the order of admission. */
  ghost predicate Rising(qs: seq<Queued>) {
    forall i, j :: 0 <= i < j < |qs| ==> qs[i].serial < qs[j].serial
  }

  /** A refusal takes the refused event out of the middle, and nothing else. */
  lemma RefusalRemovesOne(d: Delivery, id: Id) returns (j: nat)
    requires Positioned(d) && Rising(d.remainingLossless) && d.phase.Attempting?
    requires RefusedEvent(d, id).Some?
    ensures j < |d.remainingLossless| && d.remainingLossless[j] == RefusedEvent(d, id).value
    ensures RefusedEvent(d, id).value.event.id == id
    ensures AttemptRefused(d, id).remainingLossless == WithoutAt(d.remainingLossless, j)
    ensures Positioned(AttemptRefused(d, id))
  {
    var rest, tail := d.phase.remaining[d.phase.accepted..], LosslessOf(d.events[d.phase.losslessEnd..]);
    j := IndexOfId(rest, id);
    assert d.remainingLossless[j] == rest[j];
    assert IndexOf(d.remainingLossless, rest[j]) == j;
    assert WithoutAt(d.remainingLossless, j) == WithoutAt(rest, j) + tail;
    var left := WithoutAt(rest, j);
    assert left[0..] == left;
  }

  /** A refusal for an event that is not waiting for a receipt only ends the delivery. */
  lemma StrayRefusalBreaks(d: Delivery, id: Id)
    requires Positioned(d) && d.phase.Attempting?
    ensures RefusedEvent(d, id).None? <==> id !in IdsOf(d.phase.remaining[d.phase.accepted..])
    ensures RefusedEvent(d, id).None? ==> AttemptRefused(d, id) == d.(phase := Broken)
  {
    var rest := d.phase.remaining[d.phase.accepted..];
    var j := IndexOfId(rest, id);
    if id in IdsOf(rest) {
      var q :| q in rest && q.event.id == id;
      assert rest[j] in d.remainingLossless;
    }
    if j < |rest| {
      assert d.remainingLossless[j] == rest[j];
      assert rest[j] in rest;
    }
  }
}
