/** Lossless delivery of one batch of events to a host that dedupes by source event ID. */
module RuntimeIo {
  import opened Wrappers

  /** Only what delivery looks at: the kind, the two identities and everything else as one value. */
  datatype Event = Event(kind: string, id: Option<string>, sourceEventId: Option<string>, content: nat)

  datatype Receipt = Receipt(eventId: string, kind: string, sequence: int)

  const MAX_SAFE_INTEGER := 0x1F_FFFF_FFFF_FFFF

  predicate HasSourceId(e: Event) {
    e.sourceEventId.Some? && e.sourceEventId.value != ""
  }

  /** Stamps missing source IDs; `minted` are the IDs generated for the events without one. */
  function WithSourceEventIds(events: seq<Event>, minted: seq<string>): (r: seq<Event>)
    requires |minted| == |events| && "" !in minted
    ensures |r| == |events|
    ensures forall i :: 0 <= i < |r| ==> HasSourceId(r[i])
    ensures forall i :: 0 <= i < |r| && HasSourceId(events[i]) ==> r[i] == events[i]
  {
    seq(|events|, i requires 0 <= i < |events| =>
      if HasSourceId(events[i]) then events[i] else events[i].(sourceEventId := Some(minted[i])))
  }

  predicate ReceiptMatches(e: Event, r: Receipt) {
    && 0 <= r.sequence <= MAX_SAFE_INTEGER
    && r.kind == e.kind
    && Some(r.eventId) == if e.sourceEventId.Some? then e.sourceEventId else e.id
  }

  predicate ReceiptPrefix(events: seq<Event>, receipts: seq<Receipt>) {
    && |receipts| <= |events|
    && forall i :: 0 <= i < |receipts| ==> ReceiptMatches(events[i], receipts[i])
  }

  // ---------------------------------------------------------------------------------------------
  // The host: it stores an event unless it already holds one with the same source ID.

  function SourceIds(held: seq<Event>): set<Option<string>> {
    set e | e in held :: e.sourceEventId
  }

  function Store(held: seq<Event>, events: seq<Event>): seq<Event> {
    if events == [] then held
    else
      var before := Store(held, events[..|events| - 1]);
      var e := events[|events| - 1];
      if e.sourceEventId in SourceIds(before) then before else before + [e]
  }

  lemma {:induction false} StoreConcat(held: seq<Event>, xs: seq<Event>, ys: seq<Event>)
    ensures Store(held, xs + ys) == Store(Store(held, xs), ys)
  {
    if ys == [] {
      assert xs + ys == xs;
    } else {
      assert (xs + ys)[..|xs + ys| - 1] == xs + ys[..|ys| - 1];
      StoreConcat(held, xs, ys[..|ys| - 1]);
    }
  }

  lemma {:induction false} StoredIdsStay(held: seq<Event>, events: seq<Event>)
    ensures held <= Store(held, events)
    ensures SourceIds(held) <= SourceIds(Store(held, events))
    ensures forall e :: e in events ==> e.sourceEventId in SourceIds(Store(held, events))
  {
    if events != [] {
      var n := |events| - 1;
      StoredIdsStay(held, events[..n]);
      var after := Store(held, events);
      assert SourceIds(Store(held, events[..n])) <= SourceIds(after);
      assert events[n].sourceEventId in SourceIds(after) by {
        if events[n].sourceEventId !in SourceIds(Store(held, events[..n])) {
          assert events[n] in after;
        }
      }
      assert events == events[..n] + [events[n]];
    }
  }

  lemma {:induction false} StoreHeldIsIdle(held: seq<Event>, events: seq<Event>)
    requires forall e :: e in events ==> e.sourceEventId in SourceIds(held)
    ensures Store(held, events) == held
  {
    if events != [] {
      StoreHeldIsIdle(held, events[..|events| - 1]);
      assert events[|events| - 1] in events;
    }
  }

  /** Sending a batch again, from any point the host may have reached, is as good as sending on. */
  lemma StoreOverlap(held: seq<Event>, events: seq<Event>, from: nat, reached: nat, to: nat)
    requires from <= reached <= |events| && from <= to <= |events|
    ensures Store(Store(held, events[..reached]), events[from..to])
         == Store(held, events[..if reached < to then to else reached])
  {
    var h := Store(held, events[..reached]);
    StoredIdsStay(held, events[..reached]);
    if to <= reached {
      assert forall e :: e in events[from..to] ==> e in events[..reached];
      StoreHeldIsIdle(h, events[from..to]);
    } else {
      assert events[from..to] == events[from..reached] + events[reached..to];
      assert events[..to] == events[..reached] + events[reached..to];
      assert forall e :: e in events[from..reached] ==> e in events[..reached];
      StoreHeldIsIdle(h, events[from..reached]);
      StoreConcat(h, events[from..reached], events[reached..to]);
      StoreConcat(held, events[..reached], events[reached..to]);
    }
  }

  ghost predicate DistinctSourceIds(events: seq<Event>) {
    forall i, j :: 0 <= i < j < |events| ==> events[i].sourceEventId != events[j].sourceEventId
  }

  /** No two events share a source ID, and the host holds none of them. */
  ghost predicate NewTo(held: seq<Event>, events: seq<Event>) {
    DistinctSourceIds(events) && forall e :: e in events ==> e.sourceEventId !in SourceIds(held)
  }

  /** A host that held none of the events ends up with each exactly once, in submitted order. */
  lemma {:induction false} FreshBatchIsAppended(held: seq<Event>, events: seq<Event>)
    requires NewTo(held, events)
    ensures Store(held, events) == held + events
  {
    if events != [] {
      var n := |events| - 1;
      FreshBatchIsAppended(held, events[..n]);
      assert events[n] in events;
      assert events == events[..n] + [events[n]];
    }
  }

  /** Delivering a whole batch again, after any interrupted delivery of it, changes nothing more. */
  lemma RedeliveryIsIdempotent(held: seq<Event>, events: seq<Event>, reached: nat)
    requires reached <= |events|
    ensures Store(Store(held, events[..reached]), events) == Store(held, events)
  {
    StoreOverlap(held, events, 0, reached, |events|);
    assert events[0..|events|] == events == events[..|events|];
  }

  /** What the transport does with one attempt: how much the host stored, and what came back. */
  datatype Answer =
    | Accepts(stored: nat, receipts: seq<Receipt>)
    | Rejects(stored: nat, sourceEventId: string)
    | Fails(stored: nat)

  datatype PortResult = Accepted(receipts: seq<Receipt>) | RejectedEvent(sourceEventId: string) | TransportFailure

  /** What the sender hears of an answer. */
  function Told(a: Answer): PortResult {
    match a
    case Accepts(_, receipts) => Accepted(receipts)
    case Rejects(_, id) => RejectedEvent(id)
    case Fails(_) => TransportFailure
  }

  /** A host behind a transport that may store any prefix and fail at any point; it sends no more
      receipts than it stored events, and nothing else is assumed of the receipts. */
  class Host {
    var held: seq<Event>
    var attempts: nat
    const answers: nat -> Answer
    const expired: nat -> bool  // whether the deadline has passed before the n-th attempt

    constructor (held: seq<Event>, answers: nat -> Answer, expired: nat -> bool)
      ensures this.held == held && attempts == 0 && this.answers == answers && this.expired == expired
    {
      this.held, this.answers, this.expired, attempts := held, answers, expired, 0;
    }

    method PushEvents(batch: seq<Event>) returns (r: PortResult, ghost stored: nat)
      modifies this
      ensures attempts == old(attempts) + 1
      ensures stored <= |batch| && held == Store(old(held), batch[..stored])
      ensures r.Accepted? && |r.receipts| <= |batch| ==> |r.receipts| <= stored
      ensures r == Told(answers(old(attempts)))
    {
      var answer := answers(attempts);
      attempts := attempts + 1;
      var n := if answer.stored < |batch| then answer.stored else |batch|;
      match answer {
        case Accepts(_, receipts) =>
          if n < |receipts| <= |batch| {
            n := |receipts|;
          }
          r := Accepted(receipts);
        case Rejects(_, id) => r := RejectedEvent(id);
        case Fails(_) => r := TransportFailure;
      }
      stored := n;
      held := Store(held, batch[..n]);
    }
  }

  datatype Delivery =
    | Delivered
    | Rejected(sourceEventId: string)
    | OutcomeUnknown
    | InvalidReceipts
    | NoProgress
    | DeadlineExpired

  /** One attempt to send what is left after the first `sent` events. */
  method Attempt(host: Host, batch: seq<Event>, sent: nat, ghost reached: nat, ghost initial: seq<Event>)
    returns (r: PortResult, ghost nowReached: nat)
    requires sent <= reached <= |batch| && host.held == Store(initial, batch[..reached])
    modifies host
    ensures reached <= nowReached <= |batch| && host.held == Store(initial, batch[..nowReached])
    ensures r.Accepted? && |r.receipts| <= |batch| - sent ==> sent + |r.receipts| <= nowReached
    ensures host.attempts == old(host.attempts) + 1 && r == Told(host.answers(old(host.attempts)))
  {
    ghost var stored;
    r, stored := host.PushEvents(batch[sent..]);
    assert batch[sent..][..stored] == batch[sent..sent + stored];
    StoreOverlap(initial, batch, sent, reached, sent + stored);
    nowReached := if reached < sent + stored then sent + stored else reached;
  }

  lemma ReceiptsExtend(batch: seq<Event>, receipts: seq<Receipt>, more: seq<Receipt>)
    requires ReceiptPrefix(batch, receipts) && ReceiptPrefix(batch[|receipts|..], more)
    ensures ReceiptPrefix(batch, receipts + more)
  {
    forall i | |receipts| <= i < |receipts + more| ensures ReceiptMatches(batch[i], (receipts + more)[i]) {
      assert ReceiptMatches(batch[|receipts|..][i - |receipts|], more[i - |receipts|]);
    }
  }

  /** Why the delivery ended without having delivered everything, read off the last answers: the deadline
      had passed; the host refused an event, or acknowledged something else than what was left to send, or
      nothing; or the transport failed, either at the first attempt or twice in a row. */
  ghost predicate Explains(host: Host, first: nat, attempts: nat, outcome: Delivery, left: seq<Event>) {
    outcome != Delivered ==>
      if outcome.DeadlineExpired? then host.expired(attempts)
      else
        && first < attempts
        && var last := host.answers(attempts - 1);
           if outcome.Rejected? then last.Rejects? && last.sourceEventId == outcome.sourceEventId
           else if outcome.InvalidReceipts? then last.Accepts? && !ReceiptPrefix(left, last.receipts)
           else if outcome.NoProgress? then last.Accepts? && last.receipts == []
           else last.Fails? && (attempts == first + 1 || host.answers(attempts - 2).Fails?)
  }

  /** Drains the batch, prefix by acknowledged prefix.  One transport failure after a prefix is
      retried with the same events.  `receipts` are those passed on so far, also on an error. */
  method Drain(host: Host, batch: seq<Event>)
    returns (outcome: Delivery, receipts: seq<Receipt>, ghost reached: nat)
    modifies host
    ensures ReceiptPrefix(batch, receipts) && |receipts| <= reached <= |batch|
    ensures host.held == Store(old(host.held), batch[..reached])
    ensures outcome.Delivered? <==> |receipts| == |batch|
    ensures host.attempts <= old(host.attempts) + 2 * |batch|
    ensures Explains(host, old(host.attempts), host.attempts, outcome, batch[|receipts|..])
  {
    var remaining := batch;
    var retryTransport := false;
    receipts := [];
    reached := 0;
    while remaining != []
      invariant ReceiptPrefix(batch, receipts) && |receipts| <= reached <= |batch|
      invariant remaining == batch[|receipts|..]
      invariant host.held == Store(old(host.held), batch[..reached])
      invariant host.attempts <= old(host.attempts) + 2 * |receipts| - (if retryTransport then 1 else 0)
      invariant host.attempts >= old(host.attempts)
      invariant !retryTransport && host.attempts > old(host.attempts) ==> host.answers(host.attempts - 1).Fails?
      decreases |remaining|, retryTransport
    {
      if host.expired(host.attempts) {
        outcome := DeadlineExpired;
        return;
      }
      var r;
      r, reached := Attempt(host, batch, |receipts|, reached, old(host.held));
      match r {
        case RejectedEvent(id) =>
          outcome := Rejected(id);
          return;
        case TransportFailure =>
          if !retryTransport {
            outcome := OutcomeUnknown;
            return;
          }
          retryTransport := false;
        case Accepted(accepted) =>
          if !ReceiptPrefix(remaining, accepted) {
            outcome := InvalidReceipts;
            return;
          }
          if |accepted| == 0 {
            outcome := NoProgress;
            return;
          }
          ReceiptsExtend(batch, receipts, accepted);
          receipts := receipts + accepted;
          remaining := remaining[|accepted|..];
          retryTransport := true;
      }
    }
    outcome := Delivered;
  }

  method PushLosslessEvents(host: Host, events: seq<Event>, minted: seq<string>)
    returns (outcome: Delivery, receipts: seq<Receipt>, ghost reached: nat)
    requires |minted| == |events| && "" !in minted
    modifies host
    ensures ReceiptPrefix(WithSourceEventIds(events, minted), receipts) && |receipts| <= reached <= |events|
    ensures host.held == Store(old(host.held), WithSourceEventIds(events, minted)[..reached])
    ensures outcome.Delivered? <==> |receipts| == |events|
    ensures outcome.Delivered? ==> host.held == Store(old(host.held), WithSourceEventIds(events, minted))
    ensures outcome.Delivered? && NewTo(old(host.held), WithSourceEventIds(events, minted)) ==>
              host.held == old(host.held) + WithSourceEventIds(events, minted)
    ensures host.attempts <= old(host.attempts) + 2 * |events|
    ensures Explains(host, old(host.attempts), host.attempts, outcome, WithSourceEventIds(events, minted)[|receipts|..])
  {
    var batch := WithSourceEventIds(events, minted);
    outcome, receipts, reached := Drain(host, batch);
    assert batch[..|batch|] == batch;
    if NewTo(old(host.held), batch) {
      FreshBatchIsAppended(old(host.held), batch);
    }
  }
}
