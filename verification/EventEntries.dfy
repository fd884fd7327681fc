/** What the publisher queues, keeps pending and recognises as on its way already. */
module EventEntries {
  import opened Wrappers
  import opened EventAdmission

  /** A queued event.  Its serial, counted over all events ever queued, stands for the identity of
      the object. */
  datatype Queued = Queued(event: Event, owner: Option<nat>, terminalLane: bool, serial: nat)

  /** A part of a terminal batch's retry key. */
  datatype KeyPart = KeyPart(id: Option<Id>, content: string)

  type Key = seq<KeyPart>

  datatype Counters = Counters(eventBytes: int, eventCount: int, losslessBytes: int, losslessCount: int, terminalBatches: int)

  /** One admitted push, or a request to deliver what is pending again. */
  datatype Entry = Entry(id: nat, awaitPending: bool, retryIds: seq<Id>, events: seq<Queued>, weight: Counters,
                         terminalKey: Option<Key>)

  datatype Pending = Pending(events: seq<Queued>, losslessBytes: nat, losslessCount: nat, terminalBatch: bool,
                             terminalKey: Option<Key>)

  function Flatten(entries: seq<Entry>): seq<Queued> {
    if entries == [] then [] else Flatten(entries[..|entries| - 1]) + entries[|entries| - 1].events
  }

  function LosslessOf(qs: seq<Queued>): (r: seq<Queued>)
    ensures |r| <= |qs|
  {
    if qs == [] then []
    else
      var last := qs[|qs| - 1];
      if last.event.lossless then LosslessOf(qs[..|qs| - 1]) + [last] else LosslessOf(qs[..|qs| - 1])
  }

  function IdsOf(qs: seq<Queued>): set<Id> {
    set q | q in qs :: q.event.id
  }

  function Serials(qs: seq<Queued>): set<nat> {
    set q | q in qs :: q.serial
  }

  /** Bytes and counts outside the terminal lane, of all events and of the lossless ones, and whether
      anything is in that lane. */
  datatype Tally = Tally(bytes: nat, count: nat, losslessBytes: nat, losslessCount: nat, terminal: bool)

  function TallyOne(t: Tally, q: Queued): Tally {
    if q.terminalLane then t.(terminal := true)
    else if q.event.lossless then
      Tally(t.bytes + q.event.bytes, t.count + 1, t.losslessBytes + q.event.bytes, t.losslessCount + 1, t.terminal)
    else t.(bytes := t.bytes + q.event.bytes, count := t.count + 1)
  }

  function TallyOf(qs: seq<Queued>): Tally {
    if qs == [] then Tally(0, 0, 0, 0, false) else TallyOne(TallyOf(qs[..|qs| - 1]), qs[|qs| - 1])
  }

  function Plus(a: Counters, b: Counters): Counters {
    Counters(a.eventBytes + b.eventBytes, a.eventCount + b.eventCount, a.losslessBytes + b.losslessBytes,
             a.losslessCount + b.losslessCount, a.terminalBatches + b.terminalBatches)
  }

  function Minus(a: Counters, b: Counters): Counters {
    Counters(a.eventBytes - b.eventBytes, a.eventCount - b.eventCount, a.losslessBytes - b.losslessBytes,
             a.losslessCount - b.losslessCount, a.terminalBatches - b.terminalBatches)
  }

  const NONE := Counters(0, 0, 0, 0, 0)

  function Weight(entries: seq<Entry>): Counters {
    if entries == [] then NONE else Plus(Weight(entries[..|entries| - 1]), entries[|entries| - 1].weight)
  }

  // ---------------------------------------------------------------------------------------------
  // Pending events.

  function Disowned(qs: seq<Queued>): (r: seq<Queued>)
    ensures |r| == |qs| && forall i :: 0 <= i < |r| ==> r[i] == qs[i].(owner := None)
  {
    seq(|qs|, i requires 0 <= i < |qs| => qs[i].(owner := None))
  }

  function PendingOf(qs: seq<Queued>, key: Option<Key>): Pending {
    var t := TallyOf(qs);
    Pending(Disowned(qs), DriverEventBatchBytes(t.bytes, t.count), t.count, t.terminal, if t.terminal then key else None)
  }

  method SetPending(qs: seq<Queued>, key: Option<Key>) returns (r: Pending)
    ensures r == PendingOf(qs, key)
  {
    var losslessByteSum: nat, losslessCount: nat, terminalBatch := 0, 0, false;
    for i := 0 to |qs|
      invariant var t := TallyOf(qs[..i]); losslessByteSum == t.bytes && losslessCount == t.count && terminalBatch == t.terminal
    {
      assert qs[..i + 1][..i] == qs[..i];
      if qs[i].terminalLane {
        terminalBatch := true;
      } else {
        losslessByteSum := losslessByteSum + qs[i].event.bytes;
        losslessCount := losslessCount + 1;
      }
    }
    assert qs[..|qs|] == qs;
    r := Pending(Disowned(qs), DriverEventBatchBytes(losslessByteSum, losslessCount), losslessCount, terminalBatch,
                 if terminalBatch then key else None);
  }

  // ---------------------------------------------------------------------------------------------
  // Adopting what is on its way already.

  function FindById(qs: seq<Queued>, id: Id): (r: Option<Queued>)
    ensures r.Some? ==> r.value in qs && r.value.event.id == id
    ensures r.None? ==> id !in IdsOf(qs)
  {
    if qs == [] then None else if qs[0].event.id == id then Some(qs[0]) else FindById(qs[1..], id)
  }

  datatype PushError =
    | Admission(refusal: Refusal)
    | IdConflict
    | SettlementSlotFull
    | TerminalSlotTaken
    | NeedsTerminalPush
    | NotTheActiveRun
    | PromiseMissing

  datatype Adoption = Adoption(unseen: seq<Event>, ids: seq<Id>)

  /** A lossless event whose chosen id is on its way already is adopted when it is the same event. */
  function AdoptOne(prior: Adoption, event: Event, candidates: seq<Queued>): Result<Adoption, PushError> {
    if !event.lossless || !event.explicitId || FindById(candidates, event.id).None? then
      Success(prior.(unseen := prior.unseen + [event]))
    else
      var candidate := FindById(candidates, event.id).value.event;
      if event.id in prior.ids then Failure(Admission(DuplicateIds))
      else if !candidate.lossless || candidate.content != event.content then Failure(IdConflict)
      else Success(prior.(ids := prior.ids + [event.id]))
  }

  function Adopt(events: seq<Event>, candidates: seq<Queued>): Result<Adoption, PushError> {
    if events == [] then Success(Adoption([], []))
    else
      var prior := Adopt(events[..|events| - 1], candidates);
      if prior.Failure? then prior else AdoptOne(prior.value, events[|events| - 1], candidates)
  }

  lemma {:induction false} AdoptFailureSticks(events: seq<Event>, candidates: seq<Queued>, i: nat)
    requires i <= |events| && Adopt(events[..i], candidates).Failure?
    ensures Adopt(events, candidates) == Adopt(events[..i], candidates)
  {
    if i < |events| {
      var shorter := events[..|events| - 1];
      assert shorter[..i] == events[..i];
      AdoptFailureSticks(shorter, candidates, i);
    } else {
      assert events[..i] == events;
    }
  }

  method AdoptPending(events: seq<Event>, candidates: seq<Queued>) returns (r: Result<Adoption, PushError>)
    ensures r == Adopt(events, candidates)
  {
    r := Success(Adoption([], []));
    for i := 0 to |events|
      invariant r.Success? && r == Adopt(events[..i], candidates)
    {
      assert events[..i + 1][..i] == events[..i];
      r := AdoptOne(r.value, events[i], candidates);
      if r.Failure? {
        AdoptFailureSticks(events, candidates, i + 1);
        return;
      }
    }
    assert events[..|events|] == events;
  }

  // ---------------------------------------------------------------------------------------------
  // Entries.

  function Wrap(events: seq<Event>, owner: nat, terminalBatch: bool, serial: nat): (r: seq<Queued>)
    ensures |r| == |events|
    ensures forall i :: 0 <= i < |r| ==>
              r[i] == Queued(events[i], Some(owner), terminalBatch && events[i].lossless, serial + i)
  {
    seq(|events|, i requires 0 <= i < |events| =>
          Queued(events[i], Some(owner), terminalBatch && events[i].lossless, serial + i))
  }

  function KeyOf(events: seq<Event>): Key {
    seq(|events|, i requires 0 <= i < |events| =>
          KeyPart(if events[i].explicitId then Some(events[i].id) else None, events[i].content))
  }

  /** The key by which a push is known as the pending terminal batch again.  `keyFits` says whether
      the key's text is within the terminal batch limit. */
  function TerminalRetryKey(events: seq<Event>, keyFits: bool): Option<Key> {
    var lossless := Lossless(events);
    if lossless == [] || RunTerminals(lossless) != 1 || !lossless[|lossless| - 1].runTerminal || !keyFits then None
    else Some(KeyOf(lossless))
  }

  function AdmittedEntry(a: EventAdmission.Admission, id: nat, serial: nat): Entry
    requires a.Admitted?
  {
    Entry(id, false, [], Wrap(a.events, id, a.terminalBatch, serial),
          Counters(a.eventBytes, a.eventCount, a.losslessBytes, a.losslessCount, if a.terminalBatch then 1 else 0),
          if a.terminalBatch then Some(KeyOf(a.events)) else None)
  }

  function RetryEntry(id: nat, ids: seq<Id>): Entry {
    Entry(id, true, ids, [], NONE, None)
  }
}
