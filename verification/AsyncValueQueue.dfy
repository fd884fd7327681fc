/** The bounded queue between the kernel's producers and its consumers.

    A consumer that finds the queue empty leaves a waiter behind; each call of `Next` takes a
    ticket, and `settled` records the promises in the order they were settled. */
module AsyncValueQueue {
  import opened Wrappers

  datatype Buffered<+T> = Buffered(bytes: nat, reserved: bool, value: T)

  datatype Reserve = Reserve(maxBytes: nat, maxSize: nat)

  /** A settled promise of `Next`: a value, or the end of the queue. */
  datatype Delivery<+T> = Value(ticket: nat, value: T) | Done(ticket: nat)

  datatype PushError = Closed | NoReserve | InvalidMeasure | TooManyItems | TooManyBytes

  const MAX_SAFE_INTEGER := 0x1F_FFFF_FFFF_FFFF

  predicate Measurable(bytes: int) {
    0 <= bytes <= MAX_SAFE_INTEGER
  }

  function LaneBytes<T>(values: seq<Buffered<T>>, reserved: bool): nat {
    if values == [] then 0
    else LaneBytes(values[1..], reserved) + if values[0].reserved == reserved then values[0].bytes else 0
  }

  function LaneSize<T>(values: seq<Buffered<T>>, reserved: bool): nat {
    if values == [] then 0
    else LaneSize(values[1..], reserved) + if values[0].reserved == reserved then 1 else 0
  }

  lemma {:induction false} LanesConcat<T>(xs: seq<Buffered<T>>, ys: seq<Buffered<T>>, reserved: bool)
    ensures LaneBytes(xs + ys, reserved) == LaneBytes(xs, reserved) + LaneBytes(ys, reserved)
    ensures LaneSize(xs + ys, reserved) == LaneSize(xs, reserved) + LaneSize(ys, reserved)
  {
    if xs == [] {
      assert xs + ys == ys;
    } else {
      assert (xs + ys)[1..] == xs[1..] + ys;
      LanesConcat(xs[1..], ys, reserved);
    }
  }

  function Contents<T>(values: seq<Buffered<T>>): seq<T> {
    if values == [] then [] else [values[0].value] + Contents(values[1..])
  }

  lemma {:induction false} ContentsConcat<T>(xs: seq<Buffered<T>>, ys: seq<Buffered<T>>)
    ensures Contents(xs + ys) == Contents(xs) + Contents(ys)
  {
    if xs == [] {
      assert xs + ys == ys;
    } else {
      assert (xs + ys)[1..] == xs[1..] + ys;
      ContentsConcat(xs[1..], ys);
    }
  }

  // ---------------------------------------------------------------------------------------------
  // What consumers may observe, without lanes and budgets.

  datatype Event<+T> =
    | Asked                    // a consumer called Next
    | Offered(values: seq<T>)  // a push was accepted
    | Ended(discard: bool)     // the queue was closed

  datatype Books<+T> = Books(closed: bool, waiters: seq<nat>, settled: seq<Delivery<T>>,
                             buffer: seq<T>, accepted: seq<T>, discarded: seq<T>)

  /** Hands the values to the waiting consumers, one each. */
  function Handed<T>(waiters: seq<nat>, values: seq<T>): (r: seq<Delivery<T>>)
    requires |waiters| == |values|
    ensures |r| == |waiters|
  {
    if waiters == [] then []
    else Handed(waiters[..|waiters| - 1], values[..|waiters| - 1]) + [Value(waiters[|waiters| - 1], values[|waiters| - 1])]
  }

  function Dismissed<T>(waiters: seq<nat>): (r: seq<Delivery<T>>)
    ensures |r| == |waiters|
  {
    if waiters == [] then [] else Dismissed(waiters[..|waiters| - 1]) + [Done(waiters[|waiters| - 1])]
  }

  function Min(a: nat, b: nat): nat {
    if a < b then a else b
  }

  function Record<T>(b: Books<T>, e: Event<T>): Books<T> {
    match e
    case Asked =>
      var ticket := |b.settled| + |b.waiters|;
      if b.buffer != [] then b.(buffer := b.buffer[1..], settled := b.settled + [Value(ticket, b.buffer[0])])
      else if b.closed then b.(settled := b.settled + [Done(ticket)])
      else b.(waiters := b.waiters + [ticket])
    case Offered(values) =>
      if b.closed then b
      else
        var direct := Min(|values|, |b.waiters|);
        b.(settled := b.settled + Handed(b.waiters[..direct], values[..direct]), waiters := b.waiters[direct..],
           buffer := b.buffer + values[direct..], accepted := b.accepted + values)
    case Ended(discard) =>
      b.(closed := true, waiters := [], settled := b.settled + Dismissed(b.waiters),
         buffer := if discard then [] else b.buffer,
         discarded := b.discarded + if discard then b.buffer else [])
  }

  function Replay<T>(history: seq<Event<T>>): Books<T> {
    if history == [] then Books(false, [], [], [], [], [])
    else Record(Replay(history[..|history| - 1]), history[|history| - 1])
  }

  /** The values that consumers received, in the order the promises were settled. */
  function Received<T>(settled: seq<Delivery<T>>): seq<T> {
    if settled == [] then []
    else
      var before := Received(settled[..|settled| - 1]);
      var last := settled[|settled| - 1];
      if last.Value? then before + [last.value] else before
  }

  lemma {:induction false} ReceivedConcat<T>(xs: seq<Delivery<T>>, ys: seq<Delivery<T>>)
    ensures Received(xs + ys) == Received(xs) + Received(ys)
  {
    if ys == [] {
      assert xs + ys == xs;
    } else {
      assert (xs + ys)[..|xs + ys| - 1] == xs + ys[..|ys| - 1];
      ReceivedConcat(xs, ys[..|ys| - 1]);
    }
  }

  lemma ReceivedOneMore<T>(settled: seq<Delivery<T>>, d: Delivery<T>)
    ensures Received(settled + [d]) == if d.Value? then Received(settled) + [d.value] else Received(settled)
  {
    assert (settled + [d])[..|settled|] == settled;
  }

  lemma {:induction false} HandedFacts<T>(waiters: seq<nat>, values: seq<T>)
    requires |waiters| == |values|
    ensures Received(Handed(waiters, values)) == values
    ensures forall i :: 0 <= i < |waiters| ==> Handed(waiters, values)[i] == Value(waiters[i], values[i])
  {
    if waiters != [] {
      var n := |waiters| - 1;
      var before := Handed(waiters[..n], values[..n]);
      HandedFacts(waiters[..n], values[..n]);
      assert Handed(waiters, values) == before + [Value(waiters[n], values[n])];
      ReceivedOneMore(before, Value(waiters[n], values[n]));
      assert values == values[..n] + [values[n]];
    }
  }

  lemma {:induction false} DismissedFacts<T>(waiters: seq<nat>)
    ensures Received(Dismissed<T>(waiters)) == []
    ensures forall i :: 0 <= i < |waiters| ==> Dismissed<T>(waiters)[i] == Done(waiters[i])
  {
    if waiters != [] {
      var n := |waiters| - 1;
      DismissedFacts<T>(waiters[..n]);
      assert Dismissed<T>(waiters)[..n] == Dismissed<T>(waiters[..n]);
    }
  }

  /** Promises are settled in the order of their tickets, values before the end. */
  ghost predicate InOrder<T>(settled: seq<Delivery<T>>) {
    && (forall i :: 0 <= i < |settled| ==> settled[i].ticket == i)
    && (forall i, j :: 0 <= i < j < |settled| && settled[i].Done? ==> settled[j].Done?)
  }

  /** Waiters and buffered values never coexist, and no accepted value is lost or reordered. */
  ghost predicate Orderly<T>(b: Books<T>) {
    && (b.buffer == [] || b.waiters == [])
    && InOrder(b.settled)
    && (forall i :: 0 <= i < |b.waiters| ==> b.waiters[i] == |b.settled| + i)
    && (forall i :: 0 <= i < |b.settled| && b.settled[i].Done? ==> b.closed && b.buffer == [])
    && (b.closed ==> b.waiters == [])
    && (b.discarded != [] ==> b.closed && b.buffer == [])
    && b.accepted == Received(b.settled) + b.discarded + b.buffer
  }

  lemma AskedKeepsOrder<T>(b: Books<T>)
    requires Orderly(b)
    ensures Orderly(Record(b, Asked))
  {
    var ticket := |b.settled| + |b.waiters|;
    if b.buffer != [] {
      ReceivedOneMore(b.settled, Value(ticket, b.buffer[0]));
      assert Received(b.settled) + [] + b.buffer == (Received(b.settled) + [b.buffer[0]]) + [] + b.buffer[1..];
    } else if b.closed {
      ReceivedOneMore(b.settled, Done(ticket));
    }
  }

  lemma OrderExtends<T>(xs: seq<Delivery<T>>, ys: seq<Delivery<T>>)
    requires InOrder(xs)
    requires forall i :: 0 <= i < |ys| ==> ys[i].ticket == |xs| + i
    requires (forall i :: 0 <= i < |ys| ==> ys[i].Done?) || (forall i :: 0 <= i < |xs + ys| ==> (xs + ys)[i].Value?)
    ensures InOrder(xs + ys)
  {
    assert forall i :: 0 <= i < |ys| ==> (xs + ys)[|xs| + i] == ys[i];
  }

  lemma OfferedKeepsValues<T>(b: Books<T>, values: seq<T>)
    requires Orderly(b) && !b.closed
    ensures var r := Record(b, Offered(values));
            r.accepted == Received(r.settled) + r.discarded + r.buffer
  {
    var direct := Min(|values|, |b.waiters|);
    var r := Record(b, Offered(values));
    assert Received(r.settled) == Received(b.settled) + values[..direct] by {
      HandedFacts(b.waiters[..direct], values[..direct]);
      ReceivedConcat(b.settled, Handed(b.waiters[..direct], values[..direct]));
    }
    assert b.discarded == [] && (direct > 0 ==> b.buffer == []);
    Regrouped(Received(b.settled), b.buffer, values, direct);
  }

  lemma Regrouped<T>(received: seq<T>, buffer: seq<T>, values: seq<T>, direct: nat)
    requires direct <= |values| && (direct > 0 ==> buffer == [])
    ensures received + [] + buffer + values == (received + values[..direct]) + [] + (buffer + values[direct..])
  {
    assert values == values[..direct] + values[direct..];
  }

  lemma OfferedInOrder<T>(b: Books<T>, values: seq<T>)
    requires Orderly(b) && !b.closed
    ensures var r := Record(b, Offered(values));
            InOrder(r.settled) && forall i :: 0 <= i < |r.settled| ==> r.settled[i].Value?
  {
    var direct := Min(|values|, |b.waiters|);
    var handed := Handed(b.waiters[..direct], values[..direct]);
    HandedFacts(b.waiters[..direct], values[..direct]);
    forall i | 0 <= i < |handed| ensures handed[i] == Value(|b.settled| + i, values[i]) {
      assert b.waiters[..direct][i] == b.waiters[i];
    }
    forall i | 0 <= i < |b.settled + handed| ensures (b.settled + handed)[i].Value? {
      if i < |b.settled| {
        assert (b.settled + handed)[i] == b.settled[i];
      } else {
        assert (b.settled + handed)[i] == handed[i - |b.settled|];
      }
    }
    OrderExtends(b.settled, handed);
  }

  lemma OfferedKeepsOrder<T>(b: Books<T>, values: seq<T>)
    requires Orderly(b) && !b.closed
    ensures Orderly(Record(b, Offered(values)))
  {
    OfferedKeepsValues(b, values);
    OfferedInOrder(b, values);
    var r := Record(b, Offered(values));
    assert |r.settled| + |r.waiters| == |b.settled| + |b.waiters|;
    forall i | 0 <= i < |r.waiters| ensures r.waiters[i] == |r.settled| + i {
      assert r.waiters[i] == b.waiters[Min(|values|, |b.waiters|) + i];
    }
  }

  lemma EndedKeepsOrder<T>(b: Books<T>, discard: bool)
    requires Orderly(b)
    ensures Orderly(Record(b, Ended(discard)))
  {
    DismissedFacts<T>(b.waiters);
    assert InOrder(b.settled + Dismissed(b.waiters)) by {
      OrderExtends(b.settled, Dismissed(b.waiters));
    }
    assert Received(b.settled + Dismissed(b.waiters)) == Received(b.settled) by {
      ReceivedConcat(b.settled, Dismissed(b.waiters));
    }
  }

  lemma {:induction false} EveryRunIsOrderly<T>(history: seq<Event<T>>)
    ensures Orderly(Replay(history))
  {
    if history != [] {
      var b := Replay(history[..|history| - 1]);
      EveryRunIsOrderly(history[..|history| - 1]);
      match history[|history| - 1]
      case Asked => AskedKeepsOrder(b);
      case Offered(values) => if !b.closed { OfferedKeepsOrder(b, values); }
      case Ended(discard) => EndedKeepsOrder(b, discard);
    }
  }

  lemma ClosedQueueIsUnawaited<T>(history: seq<Event<T>>)
    ensures Replay(history).closed ==> Replay(history).waiters == []
  {
    EveryRunIsOrderly(history);
  }

  lemma {:induction false} ReceivedIsPrefix<T>(settled: seq<Delivery<T>>)
    requires InOrder(settled)
    ensures |Received(settled)| <= |settled|
    ensures forall i :: 0 <= i < |settled| ==>
              settled[i] == if i < |Received(settled)| then Value(i, Received(settled)[i]) else Done(i)
  {
    if settled != [] {
      var n := |settled| - 1;
      assert forall i :: 0 <= i < n ==> settled[..n][i] == settled[i];
      ReceivedIsPrefix(settled[..n]);
    }
  }

  /** In every run of calls, the consumer with the n-th ticket receives the n-th accepted value,
      or the end of the queue when the values ran out before. */
  lemma ConsumersSeeAcceptedOrder<T>(history: seq<Event<T>>, n: nat)
    requires n < |Replay(history).settled|
    ensures var b := Replay(history);
            var d := b.settled[n];
            && d.ticket == n
            && (d.Value? ==> n < |b.accepted| && d.value == b.accepted[n])
            && (d.Done? ==> b.closed && n >= |Received(b.settled)| && b.buffer == []
                            && b.accepted == Received(b.settled) + b.discarded)
  {
    EveryRunIsOrderly(history);
    ReceivedIsPrefix(Replay(history).settled);
  }

  class Queue<T> {
    const maxBytes: Option<nat>  // None is an infinite budget
    const maxSize: nat
    const measure: T -> int
    const reserve: Option<Reserve>
    var values: seq<Buffered<T>>
    var waiters: seq<nat>
    var bytes: nat
    var closed: bool
    var reservedBytes: nat
    var reservedSize: nat
    var size: nat
    var issued: nat                 // tickets given out by Next
    var settled: seq<Delivery<T>>
    ghost var history: seq<Event<T>>

    /** Each lane's counters equal its sums and stay within its budget. */
    ghost predicate LanesValid()
      reads this
    {
      && bytes == LaneBytes(values, false) && size == LaneSize(values, false)
      && reservedBytes == LaneBytes(values, true) && reservedSize == LaneSize(values, true)
      && size <= maxSize && (maxBytes.Some? ==> bytes <= maxBytes.value)
      && (reserve.None? ==> reservedSize == 0 && reservedBytes == 0)
      && (reserve.Some? ==> reservedSize <= reserve.value.maxSize && reservedBytes <= reserve.value.maxBytes)
    }

    ghost predicate Matches(b: Books<T>)
      reads this
    {
      && closed == b.closed && waiters == b.waiters && settled == b.settled && Contents(values) == b.buffer
      && issued == |settled| + |waiters|
    }

    ghost predicate Valid()
      reads this
    {
      LanesValid() && Matches(Replay(history))
    }

    constructor (maxSize: nat, maxBytes: Option<nat>, measure: T -> int, reserve: Option<Reserve>)
      ensures Valid() && history == []
      ensures this.maxSize == maxSize && this.maxBytes == maxBytes && this.measure == measure && this.reserve == reserve
    {
      this.maxSize, this.maxBytes, this.measure, this.reserve := maxSize, maxBytes, measure, reserve;
      values, waiters, closed, issued, settled, history := [], [], false, 0, [], [];
      bytes, size, reservedBytes, reservedSize := 0, 0, 0, 0;
    }

    /** Ghost record of the call the method around it has served. */
    ghost method Note(e: Event<T>)
      modifies this`history
      ensures history == old(history) + [e] && Replay(history) == Record(old(Replay(history)), e)
    {
      assert (history + [e])[..|history|] == history;
      history := history + [e];
    }

    method Close(discard: bool)
      requires Valid()
      modifies this
      ensures Valid() && history == old(history) + [Ended(discard)]
      ensures values == if discard then [] else old(values)
    {
      ClosedQueueIsUnawaited(history);
      Note(Ended(discard));
      if discard {
        DiscardValues();
      }
      if closed {
        return;
      }
      closed := true;
      DismissWaiters();
    }

    method DiscardValues()
      modifies this`values, this`bytes, this`size, this`reservedBytes, this`reservedSize
      ensures LanesValid() && values == []
    {
      values := [];
      bytes, reservedBytes, reservedSize, size := 0, 0, 0, 0;
    }

    method DismissWaiters()
      modifies this`settled, this`waiters
      ensures waiters == [] && settled == old(settled) + Dismissed(old(waiters))
    {
      ghost var i := 0;
      while waiters != []
        invariant i + |waiters| == |old(waiters)| && waiters == old(waiters)[i..]
        invariant settled == old(settled) + Dismissed(old(waiters)[..i])
        decreases |waiters|
      {
        assert old(waiters)[..i + 1][..i] == old(waiters)[..i];
        settled := settled + [Done(waiters[0])];
        waiters := waiters[1..];
        i := i + 1;
      }
      assert old(waiters)[..i] == old(waiters);
    }

    method Shift() returns (buffered: Buffered<T>)
      requires LanesValid() && values != []
      modifies this`values, this`bytes, this`size, this`reservedBytes, this`reservedSize
      ensures LanesValid() && buffered == old(values)[0] && values == old(values)[1..]
    {
      buffered := values[0];
      values := values[1..];
      if buffered.reserved {
        reservedBytes := reservedBytes - buffered.bytes;
        reservedSize := reservedSize - 1;
      } else {
        bytes := bytes - buffered.bytes;
        size := size - 1;
      }
    }

    /** Returns the ticket whose promise the caller awaits. */
    method Next() returns (ticket: nat)
      requires Valid()
      modifies this
      ensures Valid() && history == old(history) + [Asked]
      ensures ticket == old(issued) && issued == old(issued) + 1
      ensures values == if old(values) == [] then [] else old(values)[1..]
    {
      Note(Asked);
      ticket := issued;
      issued := issued + 1;
      if values != [] {
        assert Contents(values) == [values[0].value] + Contents(values[1..]);
        var buffered := Shift();
        settled := settled + [Value(ticket, buffered.value)];
      } else if closed {
        settled := settled + [Done(ticket)];
      } else {
        waiters := waiters + [ticket];
      }
    }

    /** Why a reserved push is refused, if it is. */
    function ReservedRefusal(value: T): Option<PushError>
      reads this
    {
      if closed then Some(Closed)
      else if reserve.None? then Some(NoReserve)
      else if !Measurable(measure(value)) then Some(InvalidMeasure)
      else if measure(value) > reserve.value.maxBytes then Some(TooManyBytes)
      else if waiters != [] then None
      else if reservedSize >= reserve.value.maxSize then Some(TooManyItems)
      else if measure(value) > reserve.value.maxBytes - reservedBytes then Some(TooManyBytes)
      else None
    }

    /** What the lane may hold of these values. */
    ghost predicate Fits(vs: seq<Buffered<T>>, reserved: bool) {
      if reserved then
        reserve.Some? && LaneSize(vs, true) <= reserve.value.maxSize && LaneBytes(vs, true) <= reserve.value.maxBytes
      else LaneSize(vs, false) <= maxSize && (maxBytes.Some? ==> LaneBytes(vs, false) <= maxBytes.value)
    }

    /** Exactly when a reserved value is taken: into an open queue with a reserve and with a size that can be
        told, when a consumer waits for it and it is no larger than the whole reserve, or when the reserve
        holds it beside what it holds already. */
    lemma ReservedIsTakenIff(value: T)
      requires Valid()
      ensures ReservedRefusal(value).None?
              <==> && !closed && reserve.Some? && Measurable(measure(value))
                   && if waiters != [] then measure(value) <= reserve.value.maxBytes
                      else Fits(values + [Buffered(measure(value), true, value)], true)
      ensures ReservedRefusal(value) == Some(Closed) <==> closed
    {
      if Measurable(measure(value)) {
        var one := [Buffered(measure(value), true, value)];
        assert one[1..] == [];
        LanesConcat(values, one, true);
      }
    }

    /** A refused push changes nothing; an accepted value goes to a waiter or to the buffer. */
    method PushReserved(value: T) returns (r: Option<PushError>)
      requires Valid()
      modifies this
      ensures Valid() && r == old(ReservedRefusal(value))
      ensures r.Some? ==> unchanged(this)
      ensures r.None? ==> history == old(history) + [Offered([value])]
      ensures r.None? ==>
                values == old(values) + if old(waiters) == [] then [Buffered(measure(value), true, value)] else []
    {
      r := ReservedRefusal(value);
      if r.Some? {
        return;
      }
      if waiters != [] {
        GiveToWaiter(value);
      } else {
        BufferReserved(value);
      }
    }

    method GiveToWaiter(value: T)
      requires Valid() && !closed && waiters != []
      modifies this`history, this`settled, this`waiters
      ensures Valid() && history == old(history) + [Offered([value])]
    {
      Note(Offered([value]));
      assert [value][..1] == [value] && [value][1..] == [];
      HandOut([value]);
    }

    method BufferReserved(value: T)
      requires Valid() && !closed && waiters == [] && reserve.Some? && 0 <= measure(value)
      requires reservedSize < reserve.value.maxSize && reservedBytes + measure(value) <= reserve.value.maxBytes
      modifies this`history, this`values, this`reservedBytes, this`reservedSize
      ensures Valid() && history == old(history) + [Offered([value])]
      ensures values == old(values) + [Buffered(measure(value), true, value)]
    {
      Note(Offered([value]));
      assert [value][..0] == [] && [value][0..] == [value];
      StoreReserved(Buffered(measure(value), true, value));
    }

    method StoreReserved(buffered: Buffered<T>)
      requires LanesValid() && buffered.reserved && reserve.Some? && reservedSize < reserve.value.maxSize
      requires reservedBytes + buffered.bytes <= reserve.value.maxBytes
      modifies this`values, this`reservedBytes, this`reservedSize
      ensures LanesValid() && values == old(values) + [buffered]
      ensures Contents(values) == old(Contents(values)) + [buffered.value]
    {
      assert [buffered][1..] == [];
      LanesConcat(values, [buffered], false);
      LanesConcat(values, [buffered], true);
      ContentsConcat(values, [buffered]);
      values := values + [buffered];
      reservedBytes := reservedBytes + buffered.bytes;
      reservedSize := reservedSize + 1;
    }

    function BufferAll(vs: seq<T>): (r: seq<Buffered<T>>)
      requires forall i :: 0 <= i < |vs| ==> Measurable(measure(vs[i]))
      ensures Contents(r) == vs && |r| == |vs|
      ensures LaneSize(r, false) == |vs| && LaneSize(r, true) == 0 && LaneBytes(r, true) == 0
    {
      if vs == [] then []
      else
        assert Measurable(measure(vs[0]));
        [Buffered(measure(vs[0]), false, vs[0])] + BufferAll(vs[1..])
    }

    function Refusal(vs: seq<T>): Option<PushError>
      reads this
    {
      var rest := vs[Min(|vs|, |waiters|)..];
      if closed then Some(Closed)
      else if exists i :: 0 <= i < |rest| && !Measurable(measure(rest[i])) then Some(InvalidMeasure)
      else if size + |rest| > maxSize then Some(TooManyItems)
      else if maxBytes.Some? && LaneBytes(BufferAll(rest), false) > maxBytes.value - bytes then Some(TooManyBytes)
      else None
    }

    /** Exactly when a push is taken: into an open queue, when the sizes of what no consumer waits for can be
        told and the lane holds it beside what it holds already. */
    lemma ManyAreTakenIff(vs: seq<T>)
      requires Valid()
      ensures var rest := vs[Min(|vs|, |waiters|)..];
              Refusal(vs).None?
              <==> && !closed && (forall i :: 0 <= i < |rest| ==> Measurable(measure(rest[i])))
                   && Fits(values + BufferAll(rest), false)
      ensures Refusal(vs) == Some(Closed) <==> closed
    {
      var rest := vs[Min(|vs|, |waiters|)..];
      if forall i :: 0 <= i < |rest| ==> Measurable(measure(rest[i])) {
        LanesConcat(values, BufferAll(rest), false);
      }
    }

    /** Refused as a whole, or accepted as a whole: first the waiters, then the buffer. */
    method PushMany(vs: seq<T>) returns (r: Option<PushError>)
      requires Valid()
      modifies this
      ensures Valid() && r == old(Refusal(vs))
      ensures r.Some? ==> unchanged(this)
      ensures r.None? ==> history == old(history) + [Offered(vs)]
    {
      r := Refusal(vs);
      if r.Some? {
        return;
      }
      AcceptMany(vs, BufferAll(vs[Min(|vs|, |waiters|)..]));
    }

    method AcceptMany(vs: seq<T>, buffered: seq<Buffered<T>>)
      requires Valid() && !closed && Contents(buffered) == vs[Min(|vs|, |waiters|)..]
      requires LaneSize(buffered, false) == |buffered| && LaneSize(buffered, true) == 0 && LaneBytes(buffered, true) == 0
      requires size + |buffered| <= maxSize && (maxBytes.Some? ==> bytes + LaneBytes(buffered, false) <= maxBytes.value)
      modifies this
      ensures Valid() && history == old(history) + [Offered(vs)]
    {
      var direct := Min(|vs|, |waiters|);
      Note(Offered(vs));
      HandOut(vs[..direct]);
      Store(buffered);
    }

    method HandOut(vs: seq<T>)
      requires |vs| <= |waiters|
      modifies this`settled, this`waiters
      ensures waiters == old(waiters)[|vs|..] && settled == old(settled) + Handed(old(waiters)[..|vs|], vs)
    {
      for i := 0 to |vs|
        invariant waiters == old(waiters)[i..] && settled == old(settled) + Handed(old(waiters)[..i], vs[..i])
      {
        assert old(waiters)[..i + 1][..i] == old(waiters)[..i] && vs[..i + 1][..i] == vs[..i];
        settled := settled + [Value(waiters[0], vs[i])];
        waiters := waiters[1..];
      }
      assert vs[..|vs|] == vs;
    }

    method Store(buffered: seq<Buffered<T>>)
      requires LanesValid() && LaneSize(buffered, false) == |buffered|
      requires LaneSize(buffered, true) == 0 && LaneBytes(buffered, true) == 0
      requires size + |buffered| <= maxSize && (maxBytes.Some? ==> bytes + LaneBytes(buffered, false) <= maxBytes.value)
      modifies this`values, this`bytes, this`size
      ensures LanesValid() && values == old(values) + buffered
      ensures Contents(values) == old(Contents(values)) + Contents(buffered)
    {
      LanesConcat(values, buffered, false);
      LanesConcat(values, buffered, true);
      ContentsConcat(values, buffered);
      values := values + buffered;
      bytes := bytes + LaneBytes(buffered, false);
      size := size + |buffered|;
    }
  }
}
