/** The bounded single-flight buffer in front of the preview channel.

    Each method is one synchronous stretch of the source between two awaits; the event loop may
    run them in any order their preconditions allow.  The flush callback does not re-enter the
    buffer while it is being called. */
module PreviewBuffer {
  import opened Preview

  /** What became of an admitted update: the number is the flush call or drop call it went to. */
  datatype Fate = Buffered | Flushed(call: nat) | Dropped(call: nat) | Disposed

  /** The drain task: not running, awaiting a flush call, or finished but not yet cleared. */
  datatype Phase = Idle | InFlight | Ending

  function Collect(admitted: seq<Update>, fates: seq<Fate>, f: Fate): seq<Update>
    requires |admitted| == |fates|
  {
    if admitted == [] then []
    else
      var n := |admitted| - 1;
      Collect(admitted[..n], fates[..n], f) + if fates[n] == f then [admitted[n]] else []
  }

  function Relabel(fates: seq<Fate>, from: Fate, to: Fate): (r: seq<Fate>)
    ensures |r| == |fates|
  {
    seq(|fates|, i requires 0 <= i < |fates| => if fates[i] == from then to else fates[i])
  }

  lemma {:induction false} CollectRelabelled(admitted: seq<Update>, fates: seq<Fate>, from: Fate, to: Fate, f: Fate)
    requires |admitted| == |fates| && from != to && to !in fates
    ensures Collect(admitted, Relabel(fates, from, to), f)
         == if f == to then Collect(admitted, fates, from)
            else if f == from then []
            else Collect(admitted, fates, f)
  {
    if admitted != [] {
      var n := |admitted| - 1;
      assert Relabel(fates, from, to)[..n] == Relabel(fates[..n], from, to);
      CollectRelabelled(admitted[..n], fates[..n], from, to, f);
    }
  }

  lemma CollectAppended(admitted: seq<Update>, fates: seq<Fate>, u: Update, g: Fate, f: Fate)
    requires |admitted| == |fates|
    ensures Collect(admitted + [u], fates + [g], f)
         == Collect(admitted, fates, f) + if f == g then [u] else []
  {
    assert (admitted + [u])[..|admitted|] == admitted && (fates + [g])[..|fates|] == fates;
  }

  lemma {:induction false} CollectUnused(admitted: seq<Update>, fates: seq<Fate>, f: Fate)
    requires |admitted| == |fates| && f !in fates
    ensures Collect(admitted, fates, f) == []
  {
    if admitted != [] {
      CollectUnused(admitted[..|admitted| - 1], fates[..|admitted| - 1], f);
    }
  }

  /** Size in bytes of a non-empty JSON array of the updates; nothing buffered counts as zero. */
  function EncodedSize(measure: Update -> nat, updates: seq<Update>): nat {
    if updates == [] then 0
    else if |updates| == 1 then measure(updates[0]) + 2
    else EncodedSize(measure, updates[..|updates| - 1]) + 1 + measure(updates[|updates| - 1])
  }

  function TotalSize(measure: Update -> nat, updates: seq<Update>): nat {
    if updates == [] then 0 else TotalSize(measure, updates[..|updates| - 1]) + measure(updates[|updates| - 1])
  }

  /** Two brackets, and a comma between every two updates. */
  lemma {:induction false} EncodedSizeIsExact(measure: Update -> nat, updates: seq<Update>)
    requires updates != []
    ensures EncodedSize(measure, updates) == 2 + TotalSize(measure, updates) + (|updates| - 1)
  {
    if |updates| > 1 {
      EncodedSizeIsExact(measure, updates[..|updates| - 1]);
    }
  }

  lemma SizeOneMore(measure: Update -> nat, updates: seq<Update>, u: Update)
    ensures EncodedSize(measure, updates + [u])
            == if updates == [] then measure(u) + 2 else EncodedSize(measure, updates) + 1 + measure(u)
  {
    assert (updates + [u])[..|updates|] == updates;
  }

  /** The calls that move updates through the buffer. */
  datatype Event =
    | Keep(u: Update)    // admitted into the buffer
    | Refuse(u: Update)  // admitted and dropped on its own
    | FlushAll           // the buffer goes to one flush call
    | DropAll            // the buffer goes to one drop call
    | Forget             // the buffer is disposed

  datatype Ledger = Ledger(admitted: seq<Update>, fates: seq<Fate>,
                           buffered: seq<Update>, flushed: seq<seq<Update>>, dropped: seq<seq<Update>>)

  function Record(l: Ledger, e: Event): Ledger {
    match e
    case Keep(u) => l.(admitted := l.admitted + [u], fates := l.fates + [Buffered], buffered := l.buffered + [u])
    case Refuse(u) => l.(admitted := l.admitted + [u], fates := l.fates + [Dropped(|l.dropped|)], dropped := l.dropped + [[u]])
    case FlushAll => l.(fates := Relabel(l.fates, Buffered, Flushed(|l.flushed|)), buffered := [],
                        flushed := l.flushed + [Coalesced(l.buffered)])
    case DropAll => l.(fates := Relabel(l.fates, Buffered, Dropped(|l.dropped|)), buffered := [],
                       dropped := l.dropped + [l.buffered])
    case Forget => l.(fates := Relabel(l.fates, Buffered, Disposed), buffered := [])
  }

  function Replay(history: seq<Event>): Ledger {
    if history == [] then Ledger([], [], [], [], [])
    else Record(Replay(history[..|history| - 1]), history[|history| - 1])
  }

  /** Every admitted update has one fate, and the arguments of the two callbacks are exactly the
      updates of that fate, in the order they were admitted. */
  ghost predicate Accounted(l: Ledger) {
    && |l.admitted| == |l.fates|
    && l.buffered == Collect(l.admitted, l.fates, Buffered)
    && (forall f :: f in l.fates ==> (f.Flushed? ==> f.call < |l.flushed|) && (f.Dropped? ==> f.call < |l.dropped|))
    && (forall n :: 0 <= n < |l.flushed| ==> l.flushed[n] == Coalesced(Collect(l.admitted, l.fates, Flushed(n))))
    && (forall n :: 0 <= n < |l.dropped| ==> l.dropped[n] == Collect(l.admitted, l.fates, Dropped(n)))
  }

  /** Disposing forgets what is buffered and nothing else. */
  lemma {:induction false} CollectDisposed(admitted: seq<Update>, fates: seq<Fate>, f: Fate)
    requires |admitted| == |fates| && f != Disposed
    ensures Collect(admitted, Relabel(fates, Buffered, Disposed), f)
         == if f == Buffered then [] else Collect(admitted, fates, f)
  {
    if admitted != [] {
      var n := |admitted| - 1;
      assert Relabel(fates, Buffered, Disposed)[..n] == Relabel(fates[..n], Buffered, Disposed);
      CollectDisposed(admitted[..n], fates[..n], f);
    }
  }

  /** What one event does to the updates of a fate. */
  function Moved(l: Ledger, e: Event, f: Fate): seq<Update>
    requires |l.admitted| == |l.fates|
  {
    var was := Collect(l.admitted, l.fates, f);
    match e
    case Keep(u) => was + if f == Buffered then [u] else []
    case Refuse(u) => was + if f == Dropped(|l.dropped|) then [u] else []
    case FlushAll => if f == Flushed(|l.flushed|) then Collect(l.admitted, l.fates, Buffered) else if f == Buffered then [] else was
    case DropAll => if f == Dropped(|l.dropped|) then Collect(l.admitted, l.fates, Buffered) else if f == Buffered then [] else was
    case Forget => if f == Buffered then [] else was
  }

  lemma EventMoves(l: Ledger, e: Event, f: Fate)
    requires Accounted(l) && f != Disposed
    ensures |Record(l, e).admitted| == |Record(l, e).fates|
    ensures Collect(Record(l, e).admitted, Record(l, e).fates, f) == Moved(l, e, f)
  {
    match e
    case Keep(u) => CollectAppended(l.admitted, l.fates, u, Buffered, f);
    case Refuse(u) => CollectAppended(l.admitted, l.fates, u, Dropped(|l.dropped|), f);
    case FlushAll => CollectRelabelled(l.admitted, l.fates, Buffered, Flushed(|l.flushed|), f);
    case DropAll => CollectRelabelled(l.admitted, l.fates, Buffered, Dropped(|l.dropped|), f);
    case Forget => CollectDisposed(l.admitted, l.fates, f);
  }

  lemma FlushKeepsAccount(l: Ledger, e: Event, n: nat)
    requires Accounted(l) && n < |Record(l, e).flushed|
    ensures var r := Record(l, e);
            |r.admitted| == |r.fates| && r.flushed[n] == Coalesced(Collect(r.admitted, r.fates, Flushed(n)))
  {
    EventMoves(l, e, Flushed(n));
    if n < |l.flushed| {
      assert Record(l, e).flushed[n] == l.flushed[n];
      assert Moved(l, e, Flushed(n)) == Collect(l.admitted, l.fates, Flushed(n));
    } else {
      assert Moved(l, e, Flushed(n)) == l.buffered;
    }
  }

  lemma DropKeepsAccount(l: Ledger, e: Event, n: nat)
    requires Accounted(l) && n < |Record(l, e).dropped|
    ensures var r := Record(l, e); |r.admitted| == |r.fates| && r.dropped[n] == Collect(r.admitted, r.fates, Dropped(n))
  {
    CollectUnused(l.admitted, l.fates, Dropped(|l.dropped|));
    EventMoves(l, e, Dropped(n));
  }

  lemma FatesStayValid(l: Ledger, e: Event)
    requires Accounted(l)
    ensures var r := Record(l, e);
            && |r.admitted| == |r.fates|
            && forall f :: f in r.fates ==> (f.Flushed? ==> f.call < |r.flushed|) && (f.Dropped? ==> f.call < |r.dropped|)
  {
    forall f | f in Record(l, e).fates
      ensures (f.Flushed? ==> f.call < |Record(l, e).flushed|) && (f.Dropped? ==> f.call < |Record(l, e).dropped|)
    {
      var i :| 0 <= i < |Record(l, e).fates| && Record(l, e).fates[i] == f;
      if i < |l.fates| {
        assert l.fates[i] in l.fates;
      }
    }
  }

  lemma EventKeepsAccount(l: Ledger, e: Event)
    requires Accounted(l)
    ensures Accounted(Record(l, e))
  {
    var r := Record(l, e);
    FatesStayValid(l, e);
    EventMoves(l, e, Buffered);
    forall n | 0 <= n < |r.flushed| ensures r.flushed[n] == Coalesced(Collect(r.admitted, r.fates, Flushed(n))) {
      FlushKeepsAccount(l, e, n);
    }
    forall n | 0 <= n < |r.dropped| ensures r.dropped[n] == Collect(r.admitted, r.fates, Dropped(n)) {
      DropKeepsAccount(l, e, n);
    }
  }

  /** After any history each admitted update went to exactly one flush call, one drop call or
      the disposal, or is still buffered. */
  lemma {:induction false} EveryUpdateHasOneFate(history: seq<Event>)
    ensures Accounted(Replay(history))
  {
    if history != [] {
      EveryUpdateHasOneFate(history[..|history| - 1]);
      EventKeepsAccount(Replay(history[..|history| - 1]), history[|history| - 1]);
    }
  }

  /** A fate, once decided, is final, and no admitted update is ever forgotten. */
  lemma {:induction false} FatesAreFinal(history: seq<Event>, more: seq<Event>)
    ensures Replay(history).admitted <= Replay(history + more).admitted
    ensures |Replay(history).fates| <= |Replay(history + more).fates|
    ensures forall i :: 0 <= i < |Replay(history).fates| && Replay(history).fates[i] != Buffered ==>
              Replay(history + more).fates[i] == Replay(history).fates[i]
  {
    if more == [] {
      assert history + more == history;
    } else {
      var n := |more| - 1;
      assert (history + more)[..|history + more| - 1] == history + more[..n];
      FatesAreFinal(history, more[..n]);
    }
  }

  lemma TwoEvents(history: seq<Event>, a: Event, b: Event)
    ensures history + [a] + [b] == history + [a, b]
  {
  }

  class Buffer {
    const measure: Update -> nat
    const maxBytes: nat
    const maxUpdates: nat
    var updates: seq<Update>
    var bytes: nat
    var timer: bool
    var phase: Phase
    var flushRequested: bool
    var disposed: bool
    var flushed: seq<seq<Update>>  // arguments of the calls of flush, in order
    var settled: nat               // how many of those calls have settled
    var dropped: seq<seq<Update>>  // arguments of the calls of onDrop, in order
    ghost var history: seq<Event>

    ghost predicate Core()
      reads this
    {
      && 1 <= maxBytes && 1 <= maxUpdates
      && bytes == EncodedSize(measure, updates)
      && |flushed| == settled + (if phase.InFlight? then 1 else 0)
      && (disposed ==> updates == [] && !timer)
      && Replay(history).buffered == updates && Replay(history).flushed == flushed && Replay(history).dropped == dropped
    }

    /** Both limits hold, at most one flush call is outstanding, and whatever is buffered has a
        timer or a requested flush that will take it. */
    ghost predicate Valid()
      reads this
    {
      && Core()
      && bytes < maxBytes && |updates| < maxUpdates
      && (updates != [] ==> timer || (flushRequested && !phase.Idle?))
      && (phase.Idle? && !disposed ==> !flushRequested)
    }

    constructor (measure: Update -> nat, maxBytes: nat, maxUpdates: nat)
      requires 1 <= maxBytes && 1 <= maxUpdates
      ensures Valid() && !disposed && phase == Idle && history == []
      ensures this.measure == measure && this.maxBytes == maxBytes && this.maxUpdates == maxUpdates
    {
      this.measure, this.maxBytes, this.maxUpdates := measure, maxBytes, maxUpdates;
      updates, bytes, timer, phase, flushRequested, disposed := [], 0, false, Idle, false, false;
      flushed, settled, dropped, history := [], 0, [], [];
    }

    /** Ghost record of what the method around it has just done. */
    ghost method Note(e: Event)
      modifies this`history
      ensures history == old(history) + [e] && Replay(history) == Record(old(Replay(history)), e)
    {
      assert (history + [e])[..|history|] == history;
      history := history + [e];
    }

    /** Hands everything buffered to one flush call. */
    method CallFlush(throws: bool)
      requires Core() && phase.Ending? && !disposed && updates != []
      modifies this
      ensures Core() && !disposed && timer == old(timer) && flushRequested == old(flushRequested)
      ensures updates == [] && history == old(history) + [FlushAll]
      ensures phase == if throws then Ending else InFlight
      ensures settled == old(settled) + if throws then 1 else 0
    {
      Note(FlushAll);
      var batch := CoalescePreviewUpdates(updates);
      flushed := flushed + [batch];
      updates := [];
      bytes := 0;
      if throws {
        settled := settled + 1;
      } else {
        phase := InFlight;
      }
    }

    predicate Takes()
      reads this
    {
      !disposed && flushRequested && updates != []
    }

    /** The loop of the drain task, up to the flush call it awaits or to its end.  `throws` says
        whether the flush callback throws instead of returning a promise. */
    method Drain(throws: bool)
      requires Core() && phase.Ending?
      modifies this
      ensures Core() && disposed == old(disposed) && timer == old(timer)
      ensures flushRequested == (disposed && old(flushRequested))
      ensures phase == if old(Takes()) && !throws then InFlight else Ending
      ensures history == old(history) + if old(Takes()) then [FlushAll] else []
      ensures updates == if old(Takes()) then [] else old(updates)
      ensures settled == old(settled) + if old(Takes()) && throws then 1 else 0
    {
      ghost var takes := Takes();
      while !disposed && flushRequested
        invariant Core() && phase == Ending && disposed == old(disposed) && timer == old(timer)
        invariant disposed ==> flushRequested == old(flushRequested)
        invariant flushRequested ==>
                    && old(flushRequested) && updates == old(updates) && history == old(history) && settled == old(settled)
        invariant !flushRequested ==>
                    && (takes ==> throws)
                    && history == old(history) + (if takes then [FlushAll] else [])
                    && updates == (if takes then [] else old(updates))
                    && settled == old(settled) + if takes then 1 else 0
        decreases flushRequested
      {
        flushRequested := false;
        if updates == [] {
          continue;
        }
        CallFlush(throws);
        if !throws {
          return;
        }
      }
    }

    method Flush(throws: bool)
      requires Core()
      modifies this
      ensures Core() && !timer && disposed == old(disposed)
      ensures if old(phase).Idle? && !disposed
              then !flushRequested && updates == [] && history == old(history) + (if old(updates) != [] then [FlushAll] else [])
              else flushRequested && updates == old(updates) && history == old(history)
      ensures if old(phase).Idle? then !phase.Idle? else phase == old(phase)
    {
      timer := false;
      flushRequested := true;
      if phase.Idle? {
        phase := Ending;
        Drain(throws);
      }
    }

    method Store(u: Update)
      requires Core() && !disposed
      modifies this`updates, this`bytes, this`history
      ensures Core() && updates == old(updates) + [u] && history == old(history) + [Keep(u)]
      ensures bytes == if old(updates) == [] then measure(u) + 2 else old(bytes) + measure(u) + 1
    {
      Note(Keep(u));
      assert (updates + [u])[..|updates|] == updates;
      updates := updates + [u];
      bytes := if |updates| == 1 then measure(u) + 2 else bytes + measure(u) + 1;
    }

    /** Gives up everything buffered behind a drain that is still running. */
    method DropBuffered()
      requires Core()
      modifies this`updates, this`bytes, this`timer, this`dropped, this`history
      ensures Core() && !timer && updates == [] && history == old(history) + [DropAll]
    {
      timer := false;
      Note(DropAll);
      dropped := dropped + [updates];
      updates := [];
      bytes := 0;
    }

    /** Gives up one update that is too large, or does not fit behind a drain that is still running. */
    method DropOne(u: Update)
      requires Core()
      modifies this`dropped, this`history
      ensures Core() && history == old(history) + [Refuse(u)]
    {
      Note(Refuse(u));
      dropped := dropped + [[u]];
    }

    /** With one more update, `held` is at a limit. */
    ghost predicate Fills(held: seq<Update>, u: Update) {
      |held + [u]| >= maxUpdates || EncodedSize(measure, held + [u]) >= maxBytes
    }

    /** The update does not fit behind what is buffered. */
    ghost predicate Overflows(u: Update)
      reads this
    {
      updates != [] && EncodedSize(measure, updates + [u]) > maxBytes
    }

    /** The update does not fit even alone. */
    ghost predicate TooLarge(u: Update) {
      EncodedSize(measure, [u]) > maxBytes
    }

    /** Adds one update that fits; a full buffer is flushed, or dropped behind a running drain. */
    method Insert(u: Update, throws: bool)
      requires Valid() && !disposed && !TooLarge(u) && !Overflows(u)
      modifies this
      ensures Valid() && !disposed
      ensures history == old(history)
                       + if !Fills(old(updates), u) then [Keep(u)]
                         else if old(phase).Idle? then [Keep(u), FlushAll] else [Keep(u), DropAll]
    {
      Store(u);
      if |updates| >= maxUpdates || bytes >= maxBytes {
        TwoEvents(old(history), Keep(u), if phase.Idle? then FlushAll else DropAll);
        Empty(throws);
      } else {
        timer := true;
      }
    }

    /** Flushes a full buffer, or drops it behind a running drain. */
    method Empty(throws: bool)
      requires Core() && !disposed && updates != [] && (phase.Idle? ==> !flushRequested)
      modifies this
      ensures Valid() && !disposed
      ensures history == old(history) + if old(phase).Idle? then [FlushAll] else [DropAll]
    {
      if phase.Idle? {
        Flush(throws);
      } else {
        DropBuffered();
      }
    }

    /** Admits one update; false when the buffer is disposed, and then nothing changed. */
    method Push(u: Update, throws: bool) returns (ok: bool)
      requires Valid()
      modifies this
      ensures Valid() && disposed == old(disposed) && ok == !disposed
      ensures !ok ==> history == old(history)
      ensures ok && (TooLarge(u) || (old(Overflows(u)) && !old(phase).Idle?)) ==>
                history == old(history) + [Refuse(u)]
      ensures ok && !TooLarge(u) && !old(Overflows(u)) ==>
                history == old(history)
                         + if !Fills(old(updates), u) then [Keep(u)]
                           else if old(phase).Idle? then [Keep(u), FlushAll] else [Keep(u), DropAll]
      ensures ok && !TooLarge(u) && old(Overflows(u)) && old(phase).Idle? ==>
                history == old(history) + [FlushAll] + if Fills([], u) then [Keep(u), DropAll] else [Keep(u)]
    {
      if disposed {
        return false;
      }
      ok := true;
      SizeOneMore(measure, updates, u);
      SizeOneMore(measure, [], u);
      var overflows := updates != [] && bytes + measure(u) + 1 > maxBytes;
      if measure(u) + 2 > maxBytes || (overflows && !phase.Idle?) {
        DropOne(u);
        return;
      }
      if overflows {
        Flush(throws);
      }
      Insert(u, throws);
    }

    /** The drain task's flush call has settled; its error, if any, was reported. */
    method FlushSettled(throws: bool)
      requires Valid() && phase.InFlight?
      modifies this
      ensures Valid() && disposed == old(disposed) && settled > old(settled)
      ensures history == old(history) + if !disposed && old(flushRequested) && old(updates) != [] then [FlushAll] else []
    {
      settled := settled + 1;
      phase := Ending;
      Drain(throws);
    }

    /** The drain task has ended; a flush requested meanwhile starts the next one. */
    method DrainEnded(throws: bool)
      requires Valid() && phase.Ending?
      modifies this
      ensures Valid() && disposed == old(disposed)
      ensures history == old(history) + if !disposed && old(flushRequested) && old(updates) != [] then [FlushAll] else []
      ensures disposed || !old(flushRequested) ==> phase == Idle
    {
      phase := Idle;
      if !disposed && flushRequested {
        Flush(throws);
      }
    }

    method TimerFired(throws: bool)
      requires Valid() && timer
      modifies this
      ensures Valid() && !timer
      ensures if old(phase).Idle? then updates == [] else flushRequested && updates == old(updates)
    {
      Flush(throws);
    }

    method ForgetBuffered()
      requires Core()
      modifies this`updates, this`bytes, this`timer, this`history
      ensures Core() && !timer && updates == [] && history == old(history) + [Forget]
    {
      timer := false;
      Note(Forget);
      updates := [];
      bytes := 0;
    }

    method Dispose()
      requires Valid()
      modifies this
      ensures Valid() && disposed && updates == [] && !timer && phase == old(phase)
      ensures history == old(history) + [Forget]
    {
      ForgetBuffered();
      disposed := true;
    }
  }
}
