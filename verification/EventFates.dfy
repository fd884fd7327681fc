/** Where the lossless events are: every one that was admitted is in exactly one place. */
module EventFates {
  import opened EventAdmission
  import opened EventEntries
  import opened EventDelivery
  import opened EventPublisher

  /** The events not dealt with yet, oldest first: what the delivery still has to settle, or what is
      pending when there is none, and then the queue. */
  function Held(s: State): seq<Queued> {
    (if s.delivery.Some? then s.delivery.value.remainingLossless else s.pending.events) + LosslessOf(Flatten(s.queue))
  }

  /** Each serial that was ever admitted is held, once and in order of admission, or was accepted,
      rejected or abandoned: exactly one of these. */
  ghost predicate Accounted(held: seq<Queued>, l: Ledger) {
    && Rising(held) && AllLossless(held)
    && (forall k :: k in l.admitted ==> k < l.next)
    && Serials(held) + l.accepted + l.rejected + l.abandoned == l.admitted
    && Serials(held) !! l.accepted !! l.rejected !! l.abandoned
  }

  lemma SerialsConcat(a: seq<Queued>, b: seq<Queued>)
    ensures Serials(a + b) == Serials(a) + Serials(b)
  {
    assert forall q :: q in a + b <==> q in a || q in b;
  }

  ghost predicate Before(a: seq<Queued>, b: seq<Queued>) {
    forall x, y :: x in a && y in b ==> x.serial < y.serial
  }

  lemma RisingJoins(a: seq<Queued>, b: seq<Queued>)
    requires Rising(a) && Rising(b) && Before(a, b)
    ensures Rising(a + b)
  {
    var c := a + b;
    forall i, j | 0 <= i < j < |c| ensures c[i].serial < c[j].serial {
      if i >= |a| {
        assert c[i] == b[i - |a|] && c[j] == b[j - |a|];
      } else if j >= |a| {
        assert c[i] in a && c[j] == b[j - |a|] && b[j - |a|] in b;
      }
    }
  }

  lemma RisingSplits(a: seq<Queued>, b: seq<Queued>)
    requires Rising(a + b)
    ensures Rising(a) && Rising(b) && Before(a, b)
  {
    var c := a + b;
    assert a == c[..|a|] && b == c[|a|..];
    forall x, y | x in a && y in b ensures x.serial < y.serial {
      var i :| 0 <= i < |a| && a[i] == x;
      var j :| 0 <= j < |b| && b[j] == y;
      assert c[i].serial < c[|a| + j].serial;
    }
  }

  lemma RisingConcat(a: seq<Queued>, b: seq<Queued>)
    ensures Rising(a + b) <==> Rising(a) && Rising(b) && Before(a, b)
  {
    if Rising(a + b) {
      RisingSplits(a, b);
    } else if Rising(a) && Rising(b) && Before(a, b) {
      RisingJoins(a, b);
    }
  }

  /** Rising lists share no serial when one follows the other. */
  lemma RisingApart(a: seq<Queued>, b: seq<Queued>)
    requires Rising(a + b)
    ensures Serials(a) !! Serials(b) && Rising(a) && Rising(b)
  {
    RisingConcat(a, b);
  }

  lemma {:induction false} RisingLossless(qs: seq<Queued>)
    requires Rising(qs)
    ensures Rising(LosslessOf(qs)) && AllLossless(LosslessOf(qs))
  {
    if qs != [] {
      var shorter, last := qs[..|qs| - 1], qs[|qs| - 1];
      RisingLossless(shorter);
      LosslessOfHolds(shorter);
      RisingConcat(LosslessOf(shorter), [last]);
    }
  }

  lemma Grown(held: seq<Queued>, l: Ledger, more: seq<Queued>, n: nat)
    requires Accounted(held, l)
    requires Rising(more) && AllLossless(more) && forall q :: q in more ==> l.next <= q.serial < l.next + n
    ensures Accounted(held + more, l.(next := l.next + n, admitted := l.admitted + Serials(more)))
  {
    SerialsConcat(held, more);
    forall x, y | x in held && y in more ensures x.serial < y.serial {
      assert x.serial in Serials(held);
    }
    RisingConcat(held, more);
  }

  /** Taking a stretch out of the held list, and the serials it had. */
  lemma Shrunk(a: seq<Queued>, x: seq<Queued>, b: seq<Queued>)
    requires Rising(a + x + b) && AllLossless(a + x + b)
    ensures Rising(a + b) && AllLossless(a + b)
    ensures Serials(a + x + b) == Serials(a + b) + Serials(x) && Serials(a + b) !! Serials(x)
  {
    RisingConcat(a + x, b);
    RisingConcat(a, x);
    RisingConcat(a, b);
    RisingApart(a, x);
    RisingApart(a + x, b);
    SerialsConcat(a + x, b);
    SerialsConcat(a, x);
    SerialsConcat(a, b);
  }

  lemma TakenOut(a: seq<Queued>, x: seq<Queued>, b: seq<Queued>, l: Ledger)
    requires Accounted(a + x + b, l)
    ensures Accounted(a + b, l.(accepted := l.accepted + Serials(x)))
    ensures Accounted(a + b, l.(rejected := l.rejected + Serials(x)))
  {
    Shrunk(a, x, b);
  }

  /** The account does not depend on which ids of the settlement were seen. */
  lemma SeenDoesNotCount(held: seq<Queued>, l: Ledger, seen: set<Id>)
    requires Accounted(held, l)
    ensures Accounted(held, l.(seen := seen))
  {
  }

  // ---------------------------------------------------------------------------------------------
  // The steps.

  lemma FlattenOneMore(entries: seq<Entry>, e: Entry)
    ensures Flatten(entries + [e]) == Flatten(entries) + e.events
  {
    assert (entries + [e])[..|entries|] == entries;
  }

  lemma EnqueuedHoldsMore(s: State, e: Entry)
    ensures Held(Enqueued(s, e)) == Held(s) + LosslessOf(e.events)
  {
    FlattenOneMore(s.queue, e);
    LosslessOfConcat(Flatten(s.queue), e.events);
  }

  lemma EnqueuedIsAccounted(s: State, e: Entry)
    requires Accounted(Held(s), s.ledger)
    requires forall i :: 0 <= i < |e.events| ==> e.events[i].serial == s.ledger.next + i
    ensures Accounted(Held(Enqueued(s, e)), Enqueued(s, e).ledger)
  {
    EnqueuedHoldsMore(s, e);
    RisingLossless(e.events);
    LosslessOfHolds(e.events);
    Grown(Held(s), s.ledger, LosslessOf(e.events), |e.events|);
  }

  lemma DrainedHoldsTheSame(s: State)
    requires AllLossless(s.pending.events)
    ensures Held(Drained(s)) == Held(s)
  {
    LosslessOfConcat(s.pending.events, Flatten(s.queue));
    LosslessOfUniform(s.pending.events);
  }

  lemma ReceiptSplits(s: State, n: nat)
    requires CanReceipt(s, n) && Positioned(s.delivery.value)
    ensures Held(s) == [] + Acknowledged(s.delivery.value, n) + Held(Acked(s, n))
  {
    SpliceRemovesAcknowledged(s.delivery.value, n);
    Reassociated(Acknowledged(s.delivery.value, n), Receipts(s.delivery.value, n).remainingLossless,
                 LosslessOf(Flatten(s.queue)));
  }

  lemma Reassociated(x: seq<Queued>, r: seq<Queued>, tail: seq<Queued>)
    ensures (x + r) + tail == [] + x + (r + tail)
  {
  }

  lemma SplitAround(r: seq<Queued>, j: nat, tail: seq<Queued>)
    requires j < |r|
    ensures r + tail == r[..j] + [r[j]] + (r[j + 1..] + tail)
    ensures WithoutAt(r, j) + tail == r[..j] + (r[j + 1..] + tail)
  {
  }

  lemma AckedIsAccounted(s: State, n: nat)
    requires CanReceipt(s, n) && Positioned(s.delivery.value) && Accounted(Held(s), s.ledger)
    ensures Accounted(Held(Acked(s, n)), Acked(s, n).ledger)
  {
    ReceiptSplits(s, n);
    TakenOut([], Acknowledged(s.delivery.value, n), Held(Acked(s, n)), s.ledger);
    assert [] + Held(Acked(s, n)) == Held(Acked(s, n));
  }

  lemma RefusedIsAccounted(s: State, id: Id)
    requires Trying(s) && Positioned(s.delivery.value) && Accounted(Held(s), s.ledger)
    ensures Accounted(Held(RefusedById(s, id)), RefusedById(s, id).ledger)
  {
    if RefusedEvent(s.delivery.value, id).Some? {
      var a, x, b := RefusalSplits(s, id);
      TakenOut(a, [x], b, s.ledger);
      assert Serials([x]) == {x.serial};
    }
  }

  lemma RefusalSplits(s: State, id: Id) returns (a: seq<Queued>, x: Queued, b: seq<Queued>)
    requires Trying(s) && Positioned(s.delivery.value) && Rising(Held(s)) && RefusedEvent(s.delivery.value, id).Some?
    ensures Held(s) == a + [x] + b && Held(RefusedById(s, id)) == a + b
    ensures x == RefusedEvent(s.delivery.value, id).value
  {
    var d, tail := s.delivery.value, LosslessOf(Flatten(s.queue));
    RisingApart(d.remainingLossless, tail);
    var j := RefusalRemovesOne(d, id);
    SplitAround(d.remainingLossless, j, tail);
    a, x, b := d.remainingLossless[..j], d.remainingLossless[j], d.remainingLossless[j + 1..] + tail;
  }

  lemma SameSerials(a: seq<Queued>, b: seq<Queued>)
    requires |a| == |b| && forall i :: 0 <= i < |a| ==> a[i].serial == b[i].serial && a[i].event == b[i].event
    ensures Serials(a) == Serials(b) && (Rising(a) ==> Rising(b)) && (AllLossless(a) ==> AllLossless(b))
  {
    forall k | k in Serials(a) ensures k in Serials(b) {
      var i :| 0 <= i < |a| && a[i].serial == k;
      assert b[i] in b;
    }
    forall k | k in Serials(b) ensures k in Serials(a) {
      var i :| 0 <= i < |b| && b[i].serial == k;
      assert a[i] in a;
    }
    if AllLossless(a) {
      forall q | q in b ensures q.event.lossless {
        var i :| 0 <= i < |b| && b[i] == q;
        assert a[i] in a;
      }
    }
  }

  lemma FinishedIsAccounted(s: State)
    requires CanFinish(s) && Accounted(Held(s), s.ledger)
    ensures Accounted(Held(Finished(s)), Finished(s).ledger)
  {
    var d, tail := s.delivery.value, LosslessOf(Flatten(s.queue));
    SameSerials(d.remainingLossless + tail, Disowned(d.remainingLossless) + tail);
  }

  lemma {:induction false} WithoutIdHolds(qs: seq<Queued>, id: Id)
    ensures forall q :: q in WithoutId(qs, id) <==> q in qs && q.event.id != id
    ensures Rising(qs) ==> Rising(WithoutId(qs, id))
  {
    if qs != [] {
      WithoutIdHolds(qs[1..], id);
      assert qs == [qs[0]] + qs[1..];
      RisingConcat([qs[0]], qs[1..]);
      RisingConcat([qs[0]], WithoutId(qs[1..], id));
    }
  }

  lemma Dropped(all: seq<Queued>, tail: seq<Queued>, id: Id, l: Ledger)
    requires Accounted(all + tail, l)
    ensures Accounted(WithoutId(all, id) + tail,
                      l.(abandoned := l.abandoned + (Serials(all) - Serials(WithoutId(all, id)))))
  {
    var keep := WithoutId(all, id);
    WithoutIdHolds(all, id);
    RisingConcat(all, tail);
    RisingConcat(keep, tail);
    RisingApart(all, tail);
    SerialsConcat(all, tail);
    SerialsConcat(keep, tail);
    assert Serials(keep) <= Serials(all);
  }

  lemma AbandonedIsAccounted(s: State)
    requires CanAbandon(s) && s.delivery.None? && Accounted(Held(s), s.ledger)
    ensures Accounted(Held(Abandoned(s)), Abandoned(s).ledger)
  {
    var id := s.settlement.value.ids[|s.settlement.value.ids| - 1];
    var keep, tail := WithoutId(s.pending.events, id), LosslessOf(Flatten(s.queue));
    Dropped(s.pending.events, tail, id, s.ledger);
    SameSerials(keep + tail, Disowned(keep) + tail);
  }
}
