/** The promises of the publisher: one for each lossless event on its way, which the pushes that adopt
    the event wait for, and one for each entry. */
module EventPromises {
  import opened Wrappers
  import opened EventAdmission
  import opened EventEntries
  import opened EventDelivery

  /** An event's promise is known by the event it was made for, and an entry's by its id.  `current` has
      the promise of each id on its way.  A promise is kept or broken once, and `kept` says by the receipt
      for which event.  `forgotten` are the ids whose promise was dropped since it was last made, and
      `brought` the serials of an entry's lossless events; only the proofs look at these two. */
  datatype Promises = Promises(current: map<Id, Queued>, kept: map<Queued, Queued>, broken: set<Queued>,
                               resolved: set<nat>, forgotten: set<Id>, brought: map<nat, set<nat>>)

  const NO_PROMISES := Promises(map[], map[], {}, {}, {}, map[])

  function OpenOne(p: Promises, q: Queued): Promises {
    if q.event.lossless && q.event.id !in p.current then
      p.(current := p.current[q.event.id := q], forgotten := p.forgotten - {q.event.id})
    else p
  }

  /** A promise for each lossless event whose id has none yet. */
  function OpenAll(p: Promises, qs: seq<Queued>): Promises {
    if qs == [] then p else OpenOne(OpenAll(p, qs[..|qs| - 1]), qs[|qs| - 1])
  }

  method OpenPromises(p: Promises, qs: seq<Queued>) returns (r: Promises)
    ensures r == OpenAll(p, qs)
  {
    r := p;
    for i := 0 to |qs|
      invariant r == OpenAll(p, qs[..i])
    {
      assert qs[..i + 1][..i] == qs[..i];
      r := OpenOne(r, qs[i]);
    }
    assert qs[..|qs|] == qs;
  }

  function Opened(p: Promises, e: Entry): Promises {
    OpenAll(p, e.events).(brought := p.brought[e.id := Serials(LosslessOf(e.events))])
  }

  predicate Undecided(p: Promises, q: Queued) {
    q !in p.kept && q !in p.broken
  }

  function KeepOne(p: Promises, q: Queued): Promises {
    if q.event.id in p.current && Undecided(p, p.current[q.event.id]) then
      p.(kept := p.kept[p.current[q.event.id] := q])
    else p
  }

  /** The host acknowledged these events. */
  function KeepAll(p: Promises, qs: seq<Queued>): Promises {
    if qs == [] then p else KeepOne(KeepAll(p, qs[..|qs| - 1]), qs[|qs| - 1])
  }

  method KeepPromises(p: Promises, qs: seq<Queued>) returns (r: Promises)
    ensures r == KeepAll(p, qs)
  {
    r := p;
    for i := 0 to |qs|
      invariant r == KeepAll(p, qs[..i])
    {
      assert qs[..i + 1][..i] == qs[..i];
      r := KeepOne(r, qs[i]);
    }
    assert qs[..|qs|] == qs;
  }

  /** The promise of an id fails, unless it was kept before. */
  function Break(p: Promises, id: Id): Promises {
    if id in p.current && Undecided(p, p.current[id]) then p.(broken := p.broken + {p.current[id]}) else p
  }

  function Forget(p: Promises, ids: set<Id>): Promises {
    p.(current := p.current - ids, forgotten := p.forgotten + ids)
  }

  function ResolvedEntries(d: Delivery): set<nat> {
    set e | e in d.entries && Resolves(d, e) :: e.id
  }

  /** The delivery is over: promises of what is not pending are forgotten, the entries' are decided. */
  function Closed(p: Promises, d: Delivery): Promises {
    Forget(p, IdsOf(d.events) - IdsOf(d.remainingLossless)).(resolved := p.resolved + ResolvedEntries(d))
  }

  /** An abandoned terminal's promise fails and is forgotten. */
  function GivenUp(p: Promises, id: Id): Promises {
    Forget(Break(p, id), {id})
  }

  predicate HasPromises(p: Promises, ids: seq<Id>) {
    forall id :: id in ids ==> id in p.current
  }

  function PromisesOf(p: Promises, ids: seq<Id>): (r: seq<Queued>)
    requires HasPromises(p, ids)
    ensures |r| == |ids| && forall i :: 0 <= i < |r| ==> r[i] == p.current[ids[i]]
  {
    seq(|ids|, i requires 0 <= i < |ids| => p.current[ids[i]])
  }

  /** The push throws, resolves at once, or waits: for entries, for the promises of what it adopted, and
      for a request to deliver those again, which can only fail it before they are kept. */
  datatype Outcome = Threw(error: PushError) | Ignored | Issued(entries: seq<nat>, adopted: seq<Queued>, retry: Option<nat>)

  /** When the push can have been told that it succeeded. */
  predicate Succeeded(p: Promises, o: Outcome) {
    match o
    case Threw(_) => false
    case Ignored => true
    case Issued(entries, adopted, _) =>
      (forall i :: i in entries ==> i in p.resolved) && (forall k :: k in adopted ==> k in p.kept)
  }

  // ---------------------------------------------------------------------------------------------
  // Promises and the events on their way.

  predicate SameEvent(p: Queued, q: Queued) {
    p.event == q.event && p.serial == q.serial
  }

  /** Two copies of one lossless event. */
  predicate Agree(p: Queued, q: Queued) {
    p.event.id == q.event.id && p.event.lossless && q.event.lossless && p.event.content == q.event.content
  }

  /** Events on their way share an id only when they are copies of one lossless event. */
  ghost predicate Twins(qs: seq<Queued>) {
    forall p, q :: p in qs && q in qs && p.event.id == q.event.id ==> SameEvent(p, q) || Agree(p, q)
  }

  /** The promise `a` under the id `id` is for an event on its way, and all copies on their way agree with
      the event it was made for. */
  ghost predicate IsFor(a: Queued, id: Id, qs: seq<Queued>) {
    && a.event.id == id && a.event.lossless && id in IdsOf(qs)
    && forall q :: q in qs && q.event.id == id ==> Agree(a, q)
  }

  /** Each promise is for events on their way, and a lossless event on its way has one exactly when its
      id's promise was not forgotten. */
  ghost predicate Linked(p: Promises, qs: seq<Queued>) {
    && Twins(qs)
    && (forall id :: id in p.current ==> IsFor(p.current[id], id, qs))
    && (forall q :: q in qs && q.event.lossless ==> (q.event.id in p.current <==> q.event.id !in p.forgotten))
  }

  /** A newcomer has an id of its own, or is a copy of the lossless events on their way with that id. */
  ghost predicate Fits(q: Queued, qs: seq<Queued>) {
    forall x :: x in qs && x.event.id == q.event.id ==> Agree(x, q)
  }

  lemma TwinsOneMore(qs: seq<Queued>, q: Queued)
    requires Twins(qs) && Fits(q, qs)
    ensures Twins(qs + [q])
  {
    assert forall x :: x in qs + [q] <==> x in qs || x == q;
  }

  lemma IsForOneMore(a: Queued, id: Id, qs: seq<Queued>, q: Queued)
    requires IsFor(a, id, qs) && Fits(q, qs)
    ensures IsFor(a, id, qs + [q])
  {
    assert forall x :: x in qs + [q] <==> x in qs || x == q;
    var y :| y in qs && y.event.id == id;
    assert y in qs + [q];
    assert Agree(a, y);
  }

  lemma MadeForNewcomer(qs: seq<Queued>, q: Queued)
    requires Fits(q, qs) && q.event.lossless
    ensures IsFor(q, q.event.id, qs + [q])
  {
    assert forall x :: x in qs + [q] <==> x in qs || x == q;
    assert q in qs + [q];
  }

  lemma LinkedOneMore(p: Promises, qs: seq<Queued>, q: Queued)
    requires Linked(p, qs) && Fits(q, qs)
    ensures Linked(OpenOne(p, q), qs + [q])
  {
    var r, all := OpenOne(p, q), qs + [q];
    TwinsOneMore(qs, q);
    forall id | id in r.current ensures IsFor(r.current[id], id, all) {
      if id in p.current {
        IsForOneMore(p.current[id], id, qs, q);
      } else {
        MadeForNewcomer(qs, q);
      }
    }
    forall x | x in all && x.event.lossless ensures x.event.id in r.current <==> x.event.id !in r.forgotten {
      CoveredOneMore(p, qs, q, x);
    }
  }

  lemma CoveredOneMore(p: Promises, qs: seq<Queued>, q: Queued, x: Queued)
    requires Linked(p, qs) && Fits(q, qs) && x in qs + [q] && x.event.lossless
    ensures x.event.id in OpenOne(p, q).current <==> x.event.id !in OpenOne(p, q).forgotten
  {
    if x.event.id in IdsOf(qs) {
      var y :| y in qs && y.event.id == x.event.id;
      assert x in qs || Agree(y, x);
      assert y.event.lossless by {
        assert x in qs ==> SameEvent(x, y) || Agree(x, y);
      }
    } else {
      assert x == q;
      assert q.event.id in p.current ==> IsFor(p.current[q.event.id], q.event.id, qs);
    }
  }

  predicate DistinctIds(qs: seq<Queued>) {
    forall i, j :: 0 <= i < j < |qs| ==> qs[i].event.id != qs[j].event.id
  }

  ghost predicate AllFit(more: seq<Queued>, qs: seq<Queued>) {
    forall q :: q in more ==> Fits(q, qs)
  }

  lemma LastFits(qs: seq<Queued>, more: seq<Queued>)
    requires more != [] && DistinctIds(more) && AllFit(more, qs)
    ensures Fits(more[|more| - 1], qs + more[..|more| - 1])
  {
    var q, fewer := more[|more| - 1], more[..|more| - 1];
    assert q in more;
    forall x | x in fewer ensures x.event.id != q.event.id {
      var i :| 0 <= i < |fewer| && more[i] == x;
    }
  }

  lemma {:induction false} LinkedGrows(p: Promises, qs: seq<Queued>, more: seq<Queued>)
    requires Linked(p, qs) && DistinctIds(more) && AllFit(more, qs)
    ensures Linked(OpenAll(p, more), qs + more)
  {
    if more == [] {
      assert qs + more == qs;
    } else {
      var fewer, last := more[..|more| - 1], more[|more| - 1];
      LinkedGrows(p, qs, fewer);
      LastFits(qs, more);
      LinkedOneMore(OpenAll(p, fewer), qs + fewer, last);
      assert qs + more == qs + fewer + [last];
    }
  }

  /** What is left of the events on their way, each under its own event. */
  ghost predicate LeftOf(left: seq<Queued>, qs: seq<Queued>) {
    forall q :: q in left ==> exists x :: x in qs && SameEvent(x, q)
  }

  lemma TwinsShrink(qs: seq<Queued>, left: seq<Queued>)
    requires Twins(qs) && LeftOf(left, qs)
    ensures Twins(left)
  {
    forall p, q | p in left && q in left && p.event.id == q.event.id ensures SameEvent(p, q) || Agree(p, q) {
      var x :| x in qs && SameEvent(x, p);
      var y :| y in qs && SameEvent(y, q);
      assert SameEvent(x, y) || Agree(x, y);
    }
  }

  lemma IsForShrinks(a: Queued, id: Id, qs: seq<Queued>, left: seq<Queued>)
    requires IsFor(a, id, qs) && LeftOf(left, qs) && id in IdsOf(left)
    ensures IsFor(a, id, left)
  {
    forall q | q in left && q.event.id == id ensures Agree(a, q) {
      var x :| x in qs && SameEvent(x, q);
      assert Agree(a, x);
    }
  }

  /** Promises of ids that are not on their way any more are forgotten, others may be. */
  lemma LinkedShrinks(p: Promises, qs: seq<Queued>, left: seq<Queued>, gone: set<Id>)
    requires Linked(p, qs) && LeftOf(left, qs)
    requires forall id :: id in p.current && id !in gone ==> id in IdsOf(left)
    ensures Linked(Forget(p, gone), left)
  {
    var r := Forget(p, gone);
    TwinsShrink(qs, left);
    forall id | id in r.current ensures IsFor(r.current[id], id, left) {
      assert IsFor(p.current[id], id, qs);
      IsForShrinks(p.current[id], id, qs, left);
    }
    forall q | q in left && q.event.lossless ensures q.event.id in r.current <==> q.event.id !in r.forgotten {
      var x :| x in qs && SameEvent(x, q);
    }
  }

  // What receipts keep.

  /** The promise `a` was kept by a receipt for a copy of its event. */
  ghost predicate KeptWell(p: Promises, accepted: set<nat>) {
    forall a :: a in p.kept ==> Agree(a, p.kept[a]) && p.kept[a].serial in accepted
  }

  lemma KeptOne(p: Promises, qs: seq<Queued>, accepted: set<nat>, q: Queued)
    requires Linked(p, qs) && KeptWell(p, accepted) && q in qs && (q.event.lossless ==> q.serial in accepted)
    ensures KeptWell(KeepOne(p, q), accepted) && Linked(KeepOne(p, q), qs)
    ensures KeepOne(p, q).current == p.current && KeepOne(p, q).forgotten == p.forgotten
    ensures !q.event.lossless ==> KeepOne(p, q) == p
  {
    if q.event.id in p.current {
      assert IsFor(p.current[q.event.id], q.event.id, qs);
      assert Agree(p.current[q.event.id], q);
    }
  }

  lemma {:induction false} ReceiptsKeep(p: Promises, qs: seq<Queued>, accepted: set<nat>, heard: seq<Queued>)
    requires Linked(p, qs) && KeptWell(p, accepted)
    requires forall q :: q in heard ==> q in qs && (q.event.lossless ==> q.serial in accepted)
    ensures KeptWell(KeepAll(p, heard), accepted) && Linked(KeepAll(p, heard), qs)
    ensures KeepAll(p, heard).current == p.current && KeepAll(p, heard).forgotten == p.forgotten
  {
    if heard != [] {
      ReceiptsKeep(p, qs, accepted, heard[..|heard| - 1]);
      KeptOne(KeepAll(p, heard[..|heard| - 1]), qs, accepted, heard[|heard| - 1]);
    }
  }

  predicate PromiseIs(p: Promises, id: Id, a: Queued) {
    id in p.current && p.current[id] == a
  }

  lemma {:induction false} KeepingLeaves(p: Promises, qs: seq<Queued>)
    ensures KeepAll(p, qs) == p.(kept := KeepAll(p, qs).kept)
  {
    if qs != [] {
      KeepingLeaves(p, qs[..|qs| - 1]);
    }
  }

  /** A promise that receipts keep is kept by an event under its id. */
  lemma {:induction false} KeptByHeard(p: Promises, heard: seq<Queued>, a: Queued)
    requires a in KeepAll(p, heard).kept
    ensures var q := KeepAll(p, heard).kept[a];
            (a in p.kept && q == p.kept[a]) || (q in heard && PromiseIs(p, q.event.id, a))
  {
    if heard != [] {
      var fewer, last := heard[..|heard| - 1], heard[|heard| - 1];
      KeepingLeaves(p, fewer);
      if a in KeepAll(p, fewer).kept {
        KeptByHeard(p, fewer, a);
      }
    }
  }
}
