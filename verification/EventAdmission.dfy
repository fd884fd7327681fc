/** Which events of a push are taken on, given what is queued and pending already. */
module EventAdmission {
  import opened Wrappers

  type Id = string

  /** An event, scoped to its Run, with its source id, whether the pusher chose that id, and the length of
      its JSON text. */
  datatype Event = Event(id: Id, explicitId: bool, content: string, lossless: bool, runTerminal: bool, bytes: nat)

  const MAX_PENDING_DRIVER_EVENTS: nat := 1024
  const MAX_PENDING_DRIVER_EVENT_BYTES: nat := 33_554_432
  const MAX_RUN_TERMINAL_BATCH_EVENTS: nat := MAX_PENDING_DRIVER_EVENTS
  const MAX_RUN_TERMINAL_BATCH_BYTES: nat := 1_048_576

  /** The length of a JSON array of `count` values of `bytes` in all. */
  function DriverEventBatchBytes(bytes: nat, count: nat): (r: nat) {
    if count == 0 then 0 else bytes + count + 1
  }

  function Lossless(events: seq<Event>): (r: seq<Event>)
    ensures |r| <= |events|
  {
    if events == [] then []
    else
      var last := events[|events| - 1];
      if last.lossless then Lossless(events[..|events| - 1]) + [last] else Lossless(events[..|events| - 1])
  }

  function Bytes(events: seq<Event>): nat {
    if events == [] then 0 else Bytes(events[..|events| - 1]) + events[|events| - 1].bytes
  }

  function Measure(events: seq<Event>): nat {
    DriverEventBatchBytes(Bytes(events), |events|)
  }

  function RunTerminals(events: seq<Event>): nat {
    if events == [] then 0
    else RunTerminals(events[..|events| - 1]) + (if events[|events| - 1].runTerminal then 1 else 0)
  }

  /** What the publisher holds already. */
  datatype Usage = Usage(pendingLosslessBytes: int, pendingLosslessCount: int, pendingTerminalBatch: bool,
                         queuedEventBytes: int, queuedEventCount: int,
                         queuedLosslessBytes: int, queuedLosslessCount: int, queuedTerminalBatches: int)

  datatype Refusal = TerminalSlotFull | TerminalNotLast | TerminalTooLarge | QueueFull | DuplicateIds

  datatype Admission =
    | Refused(refusal: Refusal)
    | Nothing
    | Admitted(events: seq<Event>, eventBytes: nat, eventCount: nat, losslessBytes: nat, losslessCount: nat,
               terminalBatch: bool)

  predicate UniqueIds(events: seq<Event>) {
    forall i, j :: 0 <= i < j < |events| ==> events[i].id != events[j].id
  }

  /** The rules that look at counts and kinds only. */
  function CountRefusal(events: seq<Event>, u: Usage): Option<Refusal> {
    var lossless := Lossless(events);
    var terminal := RunTerminals(lossless) > 0;
    if RunTerminals(lossless) > 1 then Some(TerminalSlotFull)
    else if terminal && (u.pendingTerminalBatch || u.queuedTerminalBatches > 0) then Some(TerminalSlotFull)
    else if terminal && !lossless[|lossless| - 1].runTerminal then Some(TerminalNotLast)
    else if terminal && |lossless| > MAX_RUN_TERMINAL_BATCH_EVENTS then Some(TerminalTooLarge)
    else if u.pendingLosslessCount + u.queuedLosslessCount + (if terminal then 0 else |lossless|) > MAX_PENDING_DRIVER_EVENTS then
      Some(QueueFull)
    else None
  }

  /** The events to measure: best-effort ones only as far as the count leaves room. */
  function Candidates(events: seq<Event>, u: Usage): Option<seq<Event>> {
    var lossless := Lossless(events);
    if RunTerminals(lossless) > 0 then Some(lossless)
    else if lossless == [] then
      var capacity: int := MAX_PENDING_DRIVER_EVENTS - u.pendingLosslessCount - u.queuedEventCount;
      if capacity <= 0 then None else Some(if capacity < |events| then events[..capacity] else events)
    else if u.pendingLosslessCount + u.queuedEventCount + |events| <= MAX_PENDING_DRIVER_EVENTS then Some(events)
    else Some(lossless)
  }

  function LosslessFits(lossless: seq<Event>, terminal: bool, u: Usage): bool {
    if lossless == [] then true
    else if terminal then Measure(lossless) <= MAX_RUN_TERMINAL_BATCH_BYTES
    else u.pendingLosslessBytes + u.queuedLosslessBytes + Measure(lossless) <= MAX_PENDING_DRIVER_EVENT_BYTES
  }

  predicate BestEffortFits(u: Usage, sum: nat, count: nat) {
    u.pendingLosslessBytes + u.queuedEventBytes + DriverEventBatchBytes(sum, count) <= MAX_PENDING_DRIVER_EVENT_BYTES
  }

  function AdmissionOf(events: seq<Event>, u: Usage): Admission {
    var lossless := Lossless(events);
    var terminal := RunTerminals(lossless) > 0;
    if CountRefusal(events, u).Some? then Refused(CountRefusal(events, u).value)
    else if Candidates(events, u).None? then Nothing
    else
      var candidates := Candidates(events, u).value;
      if !UniqueIds(candidates) then Refused(DuplicateIds)
      else if !LosslessFits(lossless, terminal, u) then Refused(if terminal then TerminalTooLarge else QueueFull)
      else
        var counted := if terminal then [] else lossless;
        if |candidates| > |lossless|
           && BestEffortFits(u, Bytes(candidates), |candidates|) then
          Admitted(candidates, Measure(candidates), |candidates|, Measure(counted), |counted|, terminal)
        else if lossless == [] then Nothing
        else Admitted(lossless, Measure(counted), |counted|, Measure(counted), |counted|, terminal)
  }

  // ---------------------------------------------------------------------------------------------
  // The measure.

  lemma {:induction false} BytesConcat(a: seq<Event>, b: seq<Event>)
    ensures Bytes(a + b) == Bytes(a) + Bytes(b)
  {
    if b == [] {
      assert a + b == a;
    } else {
      BytesConcat(a, b[..|b| - 1]);
      assert (a + b)[..|a + b| - 1] == a + b[..|b| - 1];
    }
  }

  lemma {:induction false} LosslessConcat(a: seq<Event>, b: seq<Event>)
    ensures Lossless(a + b) == Lossless(a) + Lossless(b)
  {
    if b == [] {
      assert a + b == a;
    } else {
      LosslessConcat(a, b[..|b| - 1]);
      assert (a + b)[..|a + b| - 1] == a + b[..|b| - 1];
    }
  }

  lemma {:induction false} LosslessHolds(events: seq<Event>)
    ensures forall e :: e in Lossless(events) <==> e in events && e.lossless
  {
    if events != [] {
      LosslessHolds(events[..|events| - 1]);
    }
  }

  lemma {:induction false} LosslessTwice(events: seq<Event>)
    ensures Lossless(Lossless(events)) == Lossless(events)
  {
    if events != [] {
      var shorter, last := events[..|events| - 1], events[|events| - 1];
      LosslessTwice(shorter);
      if last.lossless {
        assert Lossless(events)[..|Lossless(events)| - 1] == Lossless(shorter);
      } else {
        assert Lossless(events) == Lossless(shorter);
      }
    }
  }

  /** The measure is not additive: a batch is never longer than its two halves apart, and exactly one
      shorter when neither is empty.  A part is never longer than the whole. */
  lemma MeasureIsSubadditive(a: seq<Event>, b: seq<Event>)
    ensures Measure(a + b) <= Measure(a) + Measure(b)
    ensures a != [] && b != [] ==> Measure(a + b) == Measure(a) + Measure(b) - 1
    ensures Measure(a) <= Measure(a + b)
  {
    BytesConcat(a, b);
  }

  lemma MeasureOfPrefix(events: seq<Event>, i: nat)
    requires i <= |events|
    ensures Measure(Lossless(events[..i])) <= Measure(Lossless(events))
  {
    assert events == events[..i] + events[i..];
    LosslessConcat(events[..i], events[i..]);
    MeasureIsSubadditive(Lossless(events[..i]), Lossless(events[i..]));
  }

  lemma LosslessOne(e: Event)
    requires e.lossless
    ensures Lossless([e]) == [e] && RunTerminals([e]) == (if e.runTerminal then 1 else 0) && Bytes([e]) == e.bytes
  {
    assert [e][..0] == [];
  }

  // ---------------------------------------------------------------------------------------------
  // Admission.

  predicate LosslessByteBudget(u: Usage, terminal: bool, sum: nat, count: nat) {
    if terminal then DriverEventBatchBytes(sum, count) <= MAX_RUN_TERMINAL_BATCH_BYTES
    else u.pendingLosslessBytes + u.queuedLosslessBytes + DriverEventBatchBytes(sum, count) <= MAX_PENDING_DRIVER_EVENT_BYTES
  }

  /** One more event in the running sums. */
  lemma OneMoreEvent(events: seq<Event>, i: nat)
    requires i < |events|
    ensures Bytes(events[..i + 1]) == Bytes(events[..i]) + events[i].bytes
    ensures |Lossless(events[..i + 1])| == |Lossless(events[..i])| + (if events[i].lossless then 1 else 0)
    ensures Bytes(Lossless(events[..i + 1])) == Bytes(Lossless(events[..i])) + (if events[i].lossless then events[i].bytes else 0)
  {
    assert events[..i + 1][..i] == events[..i];
    if events[i].lossless {
      BytesOfOneMore(Lossless(events[..i]), events[i]);
    }
  }

  lemma BytesOfOneMore(events: seq<Event>, e: Event)
    ensures Bytes(events + [e]) == Bytes(events) + e.bytes
  {
    assert (events + [e])[..|events|] == events;
  }

  /** Adds the lossless events up one by one, giving up at the first that does not fit. */
  method SumLossless(candidates: seq<Event>, terminal: bool, u: Usage) returns (fits: bool, sum: nat, count: nat)
    ensures fits <==> LosslessFits(Lossless(candidates), terminal, u)
    ensures fits ==> sum == Bytes(Lossless(candidates)) && count == |Lossless(candidates)|
  {
    sum, count := 0, 0;
    for i := 0 to |candidates|
      invariant sum == Bytes(Lossless(candidates[..i])) && count == |Lossless(candidates[..i])|
      invariant count > 0 ==> LosslessByteBudget(u, terminal, sum, count)
    {
      var event := candidates[i];
      OneMoreEvent(candidates, i);
      if event.lossless {
        sum := sum + event.bytes;
        count := count + 1;
        if !LosslessByteBudget(u, terminal, sum, count) {
          MeasureOfPrefix(candidates, i + 1);
          return false, sum, count;
        }
      }
    }
    assert candidates[..|candidates|] == candidates;
    fits := true;
  }

  function BestEffortBytes(events: seq<Event>): nat {
    if events == [] then 0
    else
      var last := events[|events| - 1];
      BestEffortBytes(events[..|events| - 1]) + (if last.lossless then 0 else last.bytes)
  }

  function BestEffortCount(events: seq<Event>): nat {
    if events == [] then 0
    else BestEffortCount(events[..|events| - 1]) + (if events[|events| - 1].lossless then 0 else 1)
  }

  lemma {:induction false} TwoParts(events: seq<Event>)
    ensures Bytes(events) == Bytes(Lossless(events)) + BestEffortBytes(events)
    ensures |events| == |Lossless(events)| + BestEffortCount(events)
  {
    if events != [] {
      var shorter, last := events[..|events| - 1], events[|events| - 1];
      TwoParts(shorter);
      if last.lossless {
        BytesOfOneMore(Lossless(shorter), last);
      }
    }
  }

  lemma {:induction false} BestEffortPrefix(events: seq<Event>, i: nat)
    requires i <= |events|
    ensures BestEffortBytes(events[..i]) <= BestEffortBytes(events)
    ensures BestEffortCount(events[..i]) <= BestEffortCount(events)
  {
    if i == |events| {
      assert events[..i] == events;
    } else {
      var shorter := events[..|events| - 1];
      BestEffortPrefix(shorter, i);
      assert shorter[..i] == events[..i];
    }
  }

  lemma OneMoreBestEffort(events: seq<Event>, i: nat)
    requires i < |events|
    ensures BestEffortBytes(events[..i + 1]) == BestEffortBytes(events[..i]) + (if events[i].lossless then 0 else events[i].bytes)
    ensures BestEffortCount(events[..i + 1]) == BestEffortCount(events[..i]) + (if events[i].lossless then 0 else 1)
  {
    assert events[..i + 1][..i] == events[..i];
  }

  /** Adds the best-effort events on top; either all of them fit or none is kept. */
  method SumBestEffort(candidates: seq<Event>, u: Usage, sum: nat, count: nat)
    returns (included: bool, eventByteSum: nat, eventCount: nat)
    requires sum == Bytes(Lossless(candidates)) && count == |Lossless(candidates)| < |candidates|
    ensures included <==> BestEffortFits(u, Bytes(candidates), |candidates|)
    ensures included ==> eventByteSum == Bytes(candidates) && eventCount == |candidates|
  {
    TwoParts(candidates);
    eventByteSum, eventCount := sum, count;
    for i := 0 to |candidates|
      invariant eventByteSum == sum + BestEffortBytes(candidates[..i])
      invariant eventCount == count + BestEffortCount(candidates[..i])
      invariant eventCount > count ==> BestEffortFits(u, eventByteSum, eventCount)
    {
      var event := candidates[i];
      OneMoreBestEffort(candidates, i);
      if event.lossless {
        continue;
      }
      if !BestEffortFits(u, eventByteSum + event.bytes, eventCount + 1) {
        BestEffortPrefix(candidates, i + 1);
        return false, eventByteSum, eventCount;
      }
      eventByteSum := eventByteSum + event.bytes;
      eventCount := eventCount + 1;
    }
    assert candidates[..|candidates|] == candidates;
    included := true;
  }

  lemma CandidatesKeepLossless(events: seq<Event>, u: Usage)
    requires Candidates(events, u).Some?
    ensures Lossless(Candidates(events, u).value) == Lossless(events)
    ensures Candidates(events, u).value == Lossless(events) || RunTerminals(Lossless(events)) == 0
  {
    LosslessTwice(events);
    if Lossless(events) == [] {
      var candidates := Candidates(events, u).value;
      assert events == candidates + events[|candidates|..];
      LosslessConcat(candidates, events[|candidates|..]);
    }
  }

  method AdmitDriverEventPush(events: seq<Event>, u: Usage) returns (r: Admission)
    ensures r == AdmissionOf(events, u)
  {
    var lossless := Lossless(events);
    var terminal := RunTerminals(lossless) > 0;
    var refusal := CountRefusal(events, u);
    if refusal.Some? {
      return Refused(refusal.value);
    }
    var chosen := Candidates(events, u);
    if chosen.None? {
      return Nothing;
    }
    var candidates := chosen.value;
    if !UniqueIds(candidates) {
      return Refused(DuplicateIds);
    }
    CandidatesKeepLossless(events, u);
    var fits, sum, count := SumLossless(candidates, terminal, u);
    if !fits {
      return Refused(if terminal then TerminalTooLarge else QueueFull);
    }
    var included, eventByteSum, eventCount := |candidates| > |lossless|, sum, count;
    if included {
      included, eventByteSum, eventCount := SumBestEffort(candidates, u, sum, count);
    }
    if !included && |lossless| == 0 {
      return Nothing;
    }
    if terminal {
      sum, count := 0, 0;
    }
    if !included {
      eventByteSum, eventCount := sum, count;
    }
    r := Admitted(if included then candidates else lossless, DriverEventBatchBytes(eventByteSum, eventCount), eventCount,
                  DriverEventBatchBytes(sum, count), count, terminal);
  }

  /** What an admission takes: no lossless event is left behind or reordered, and the best-effort
      ones are taken all together or, when nothing else was pushed, as a prefix. */
  lemma AdmissionTakes(events: seq<Event>, u: Usage)
    requires AdmissionOf(events, u).Admitted?
    ensures var a := AdmissionOf(events, u);
            && Lossless(a.events) == Lossless(events) && UniqueIds(a.events)
            && (a.events == Lossless(events) || a.events == events || (Lossless(events) == [] && a.events <= events))
            && (a.terminalBatch ==> a.events == Lossless(events))
            && (a.terminalBatch <==> RunTerminals(Lossless(events)) == 1)
  {
    LosslessTwice(events);
    CandidatesKeepLossless(events, u);
    LosslessIsShorter(Candidates(events, u).value);
    UniqueLossless(Candidates(events, u).value);
  }

  lemma {:induction false} LosslessIsShorter(events: seq<Event>)
    ensures |Lossless(events)| == |events| ==> Lossless(events) == events
  {
    if events != [] {
      LosslessIsShorter(events[..|events| - 1]);
    }
  }

  lemma {:induction false} UniqueLossless(events: seq<Event>)
    requires UniqueIds(events)
    ensures UniqueIds(Lossless(events))
  {
    if events != [] {
      UniqueLossless(events[..|events| - 1]);
      LosslessHolds(events[..|events| - 1]);
    }
  }

  /** The admission's counters are the measures of what it takes; a run terminal batch has its own
      lane and counts for nothing. */
  lemma AdmissionIsMeasured(events: seq<Event>, u: Usage)
    requires AdmissionOf(events, u).Admitted?
    ensures var a := AdmissionOf(events, u);
            if a.terminalBatch then a.losslessCount == a.losslessBytes == a.eventCount == a.eventBytes == 0
            else
              && a.losslessCount == |Lossless(a.events)| && a.losslessBytes == Measure(Lossless(a.events))
              && a.eventCount == |a.events| && a.eventBytes == Measure(a.events)
  {
    CandidatesKeepLossless(events, u);
    LosslessTwice(events);
  }

  /** With the newcomers added the lossless budgets still hold, and there is one terminal batch. */
  lemma AdmissionIsSafe(events: seq<Event>, u: Usage)
    requires AdmissionOf(events, u).Admitted?
    ensures var a := AdmissionOf(events, u);
            && u.pendingLosslessCount + u.queuedLosslessCount + a.losslessCount <= MAX_PENDING_DRIVER_EVENTS
            && (a.losslessCount > 0 ==>
                  u.pendingLosslessBytes + u.queuedLosslessBytes + a.losslessBytes <= MAX_PENDING_DRIVER_EVENT_BYTES)
            && (a.terminalBatch ==> !u.pendingTerminalBatch && u.queuedTerminalBatches <= 0)
  {
  }

  /** Whether lossless events are refused does not depend on how many best-effort events are queued. */
  lemma BestEffortDoesNotBlockLossless(events: seq<Event>, u: Usage, queuedEventBytes: int, queuedEventCount: int)
    requires Lossless(events) != [] && UniqueIds(events)
    ensures var v := u.(queuedEventBytes := queuedEventBytes, queuedEventCount := queuedEventCount);
            && (AdmissionOf(events, v).Refused? <==> AdmissionOf(events, u).Refused?)
            && (!AdmissionOf(events, v).Refused? ==> AdmissionOf(events, v).Admitted?)
  {
    UniqueLossless(events);
  }

  /** Exactly when an admission takes the total, best-effort events included, over the limit: when it
      has lossless events and these alone do not fit beside everything queued. */
  lemma TotalExceedsExactly(events: seq<Event>, u: Usage)
    requires AdmissionOf(events, u).Admitted? && !AdmissionOf(events, u).terminalBatch
    ensures u.pendingLosslessCount + u.queuedEventCount + AdmissionOf(events, u).eventCount > MAX_PENDING_DRIVER_EVENTS
            <==> Lossless(events) != []
                 && u.pendingLosslessCount + u.queuedEventCount + |Lossless(events)| > MAX_PENDING_DRIVER_EVENTS
  {
    CandidatesKeepLossless(events, u);
  }

  // ---------------------------------------------------------------------------------------------
  // Exactly what a push comes to, on counts and bytes.

  lemma BestEffortCandidates(events: seq<Event>, u: Usage, n: nat)
    requires Lossless(events) == [] && n <= |events|
    requires n == |events| || u.pendingLosslessCount + u.queuedEventCount + n >= MAX_PENDING_DRIVER_EVENTS
    requires n == 0 || u.pendingLosslessCount + u.queuedEventCount + n <= MAX_PENDING_DRIVER_EVENTS
    ensures Candidates(events, u).Some? ==> Candidates(events, u).value == events[..n]
    ensures Candidates(events, u).None? ==> n == 0
  {
    assert events[..|events|] == events;
  }

  /** Only best-effort events: refused by the lossless count or a repeated id among the longest prefix that
      the count has room for; taken as that prefix, whole or not at all, if its bytes fit. */
  lemma BestEffortPushIsExact(events: seq<Event>, u: Usage, n: nat)
    requires Lossless(events) == [] && n <= |events|
    requires n == |events| || u.pendingLosslessCount + u.queuedEventCount + n >= MAX_PENDING_DRIVER_EVENTS
    requires n == 0 || u.pendingLosslessCount + u.queuedEventCount + n <= MAX_PENDING_DRIVER_EVENTS
    ensures var a, prefix := AdmissionOf(events, u), events[..n];
            && (a.Refused? <==> u.pendingLosslessCount + u.queuedLosslessCount > MAX_PENDING_DRIVER_EVENTS || !UniqueIds(prefix))
            && (a.Admitted? <==> !a.Refused? && n > 0
                                 && u.pendingLosslessBytes + u.queuedEventBytes + Measure(prefix) <= MAX_PENDING_DRIVER_EVENT_BYTES)
            && (a.Admitted? ==> a.events == prefix)
  {
    BestEffortCandidates(events, u, n);
    assert UniqueIds(events[..0]);
  }

  lemma MixedCandidates(events: seq<Event>, u: Usage)
    requires Lossless(events) != [] && RunTerminals(Lossless(events)) == 0
    ensures Candidates(events, u)
            == Some(if u.pendingLosslessCount + u.queuedEventCount + |events| <= MAX_PENDING_DRIVER_EVENTS then events else Lossless(events))
    ensures |events| > |Lossless(events)| <==> events != Lossless(events)
  {
    LosslessIsShorter(events);
  }

  /** Lossless events and no Run terminal: the lossless ones are taken or refused together whatever else is
      in the push, and the best-effort ones are taken with them exactly when the whole push fits both the
      count and the bytes. */
  lemma MixedPushIsExact(events: seq<Event>, u: Usage)
    requires Lossless(events) != [] && RunTerminals(Lossless(events)) == 0
    ensures var a, lossless := AdmissionOf(events, u), Lossless(events);
            var counted := u.pendingLosslessCount + u.queuedEventCount + |events| <= MAX_PENDING_DRIVER_EVENTS;
            && (a.Refused? <==>
                  || u.pendingLosslessCount + u.queuedLosslessCount + |lossless| > MAX_PENDING_DRIVER_EVENTS
                  || u.pendingLosslessBytes + u.queuedLosslessBytes + Measure(lossless) > MAX_PENDING_DRIVER_EVENT_BYTES
                  || !UniqueIds(lossless) || (counted && !UniqueIds(events)))
            && (a.Admitted? <==> !a.Refused?)
            && (a.Admitted? ==> a.events == lossless || a.events == events)
            && (a.Admitted? && lossless != events ==>
                  (a.events == events <==>
                     counted && u.pendingLosslessBytes + u.queuedEventBytes + Measure(events) <= MAX_PENDING_DRIVER_EVENT_BYTES))
  {
    MixedCandidates(events, u);
    if UniqueIds(events) {
      UniqueLossless(events);
    }
  }

  /** A push with a Run terminal: its lossless events go as one batch of their own lane, and the
      best-effort ones are left out. */
  lemma TerminalPushIsExact(events: seq<Event>, u: Usage)
    requires RunTerminals(Lossless(events)) > 0
    ensures var a, lossless := AdmissionOf(events, u), Lossless(events);
            && (a.Refused? <==>
                  || RunTerminals(lossless) > 1 || u.pendingTerminalBatch || u.queuedTerminalBatches > 0
                  || lossless == [] || !lossless[|lossless| - 1].runTerminal
                  || |lossless| > MAX_RUN_TERMINAL_BATCH_EVENTS || Measure(lossless) > MAX_RUN_TERMINAL_BATCH_BYTES
                  || u.pendingLosslessCount + u.queuedLosslessCount > MAX_PENDING_DRIVER_EVENTS
                  || !UniqueIds(lossless))
            && (a.Admitted? <==> !a.Refused?) && (a.Admitted? ==> a.events == lossless && a.terminalBatch)
  {
  }

  /** What the Run terminals of a push are refused for. */
  lemma TerminalRefusalIsExact(events: seq<Event>, u: Usage)
    ensures var a, lossless := AdmissionOf(events, u), Lossless(events);
            var slotFull := RunTerminals(lossless) > 1
                            || (RunTerminals(lossless) == 1 && (u.pendingTerminalBatch || u.queuedTerminalBatches > 0));
            && (a == Refused(TerminalSlotFull) <==> slotFull)
            && (a == Refused(TerminalNotLast) <==>
                  !slotFull && RunTerminals(lossless) == 1 && lossless != [] && !lossless[|lossless| - 1].runTerminal)
            && (a == Refused(TerminalTooLarge) ==>
                  RunTerminals(lossless) == 1
                  && (|lossless| > MAX_RUN_TERMINAL_BATCH_EVENTS || Measure(lossless) > MAX_RUN_TERMINAL_BATCH_BYTES))
  {
  }

  /** A push is told that the queue is full only when its lossless events do not fit. */
  lemma QueueFullIsTrue(events: seq<Event>, u: Usage)
    requires AdmissionOf(events, u) == Refused(QueueFull)
    ensures var lossless := Lossless(events);
            var counted := if RunTerminals(lossless) > 0 then 0 else |lossless|;
            || u.pendingLosslessCount + u.queuedLosslessCount + counted > MAX_PENDING_DRIVER_EVENTS
            || (lossless != [] && u.pendingLosslessBytes + u.queuedLosslessBytes + Measure(lossless) > MAX_PENDING_DRIVER_EVENT_BYTES)
  {
  }
}
