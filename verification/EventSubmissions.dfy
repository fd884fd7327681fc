/** What a push is answered at once: which pushes are refused and why, which resolve without being queued, and
    what becomes of every event of a push that is taken on. */
module EventSubmissions {
  import opened Wrappers
  import opened EventAdmission
  import opened EventEntries
  import opened EventPromises
  import opened EventPublisher
  import EventRuns
  import EventLinks

  // ---------------------------------------------------------------------------------------------
  // Adoption.

  /** The event's chosen id is on its way. */
  predicate Known(e: Event, candidates: seq<Queued>) {
    e.lossless && e.explicitId && e.id in IdsOf(candidates)
  }

  /** And what is on its way under it is another event. */
  predicate Differs(e: Event, candidates: seq<Queued>) {
    Known(e, candidates) && exists q :: q in candidates && q.event.id == e.id && !(q.event.lossless && q.event.content == e.content)
  }

  function Unknown(events: seq<Event>, candidates: seq<Queued>): seq<Event> {
    if events == [] then []
    else
      var before, last := Unknown(events[..|events| - 1], candidates), events[|events| - 1];
      if Known(last, candidates) then before else before + [last]
  }

  function KnownIds(events: seq<Event>, candidates: seq<Queued>): seq<Id> {
    if events == [] then []
    else
      var before, last := KnownIds(events[..|events| - 1], candidates), events[|events| - 1];
      if Known(last, candidates) then before + [last.id] else before
  }

  lemma {:induction false} KnownIdsHold(events: seq<Event>, candidates: seq<Queued>, id: Id)
    ensures id in KnownIds(events, candidates) <==> exists e :: e in events && Known(e, candidates) && e.id == id
  {
    if events != [] {
      var shorter, last := events[..|events| - 1], events[|events| - 1];
      KnownIdsHold(shorter, candidates, id);
      assert forall e :: e in events <==> e in shorter || e == last;
    }
  }

  /** A push clashes by one of its events, or by naming one on its way twice. */
  ghost predicate Clashing(events: seq<Event>, candidates: seq<Queued>) {
    || (exists e :: e in events && Differs(e, candidates))
    || (exists i, j :: 0 <= i < j < |events| && Known(events[i], candidates) && Known(events[j], candidates) && events[i].id == events[j].id)
  }

  lemma ClashingOneMore(events: seq<Event>, shorter: seq<Event>, last: Event, candidates: seq<Queued>)
    requires events == shorter + [last]
    ensures Clashing(events, candidates)
            <==> Clashing(shorter, candidates) || Differs(last, candidates)
                 || (Known(last, candidates) && last.id in KnownIds(shorter, candidates))
  {
    KnownIdsHold(shorter, candidates, last.id);
    assert forall i :: 0 <= i < |shorter| ==> events[i] == shorter[i];
    assert events[|shorter|] == last;
    assert forall e :: e in events <==> e in shorter || e == last;
  }

  /** Those on their way under one id are copies of one event. */
  ghost predicate Consistent(candidates: seq<Queued>) {
    forall p, q :: p in candidates && q in candidates && p.event.id == q.event.id ==>
      p.event.lossless == q.event.lossless && p.event.content == q.event.content
  }

  lemma FoundDiffers(e: Event, candidates: seq<Queued>)
    requires Consistent(candidates) && Known(e, candidates)
    ensures FindById(candidates, e.id).Some?
    ensures var found := FindById(candidates, e.id).value.event;
            Differs(e, candidates) <==> !(found.lossless && found.content == e.content)
  {
    var found := FindById(candidates, e.id);
  }

  /** A push is told apart exactly: the events on their way are adopted, all others are new, each in their order,
      and it fails exactly when it clashes. */
  lemma {:induction false} AdoptionIsExact(events: seq<Event>, candidates: seq<Queued>)
    requires Consistent(candidates)
    ensures Adopt(events, candidates).Failure? <==> Clashing(events, candidates)
    ensures Adopt(events, candidates).Success? ==>
              Adopt(events, candidates).value == Adoption(Unknown(events, candidates), KnownIds(events, candidates))
  {
    if events != [] {
      var shorter, last := events[..|events| - 1], events[|events| - 1];
      assert events == shorter + [last];
      AdoptionIsExact(shorter, candidates);
      ClashingOneMore(events, shorter, last, candidates);
      if Known(last, candidates) {
        FoundDiffers(last, candidates);
      }
    }
  }

  /** In every run what is on its way is consistent, so pushes are told apart exactly. */
  lemma PushesAreToldApart(start: State, ops: seq<EventRuns.Op>, events: seq<Event>)
    requires Initial(start)
    ensures var s := EventRuns.Run(start, ops);
            var underway := Underway(s.pending, s.delivery, s.queue);
            && (Adopt(events, underway).Failure? <==> Clashing(events, underway))
            && (Adopt(events, underway).Success? ==>
                  Adopt(events, underway).value == Adoption(Unknown(events, underway), KnownIds(events, underway)))
  {
    EventLinks.EveryRunPromises(start, ops);
    var s := EventRuns.Run(start, ops);
    TwinsAreConsistent(EventLinks.OnTheWay(s));
    AdoptionIsExact(events, EventLinks.OnTheWay(s));
  }

  lemma TwinsAreConsistent(qs: seq<Queued>)
    requires Twins(qs)
    ensures Consistent(qs)
  {
  }

  // ---------------------------------------------------------------------------------------------
  // Refusals.

  predicate BringsTerminal(events: seq<Event>, origin: Origin) {
    !origin.OfSettlement? && RunTerminals(events) > 0
  }

  /** The slot is held against the Session while a settlement is not tidied up, and against a Run also
      afterwards, until another Run is current. */
  predicate HeldAgainst(s: State, origin: Origin, runChanged: bool) {
    && s.settlement.Some?
    && if origin.OfSession? then !s.settlement.value.cleanupComplete
       else origin.OfRun? && !(s.settlement.value.cleanupComplete && runChanged)
  }

  predicate TerminalUnderway(s: State) {
    s.pending.terminalBatch || s.queued.terminalBatches > 0
  }

  lemma AdoptedAnswers(s: State, adoption: Adoption, origin: Origin)
    ensures var answer := SubmitAdopted(s, adoption, origin).1;
            && (answer.Threw? ==> answer.error.Admission? || answer.error.IdConflict? || answer.error.PromiseMissing?)
            && (answer.Ignored? ==>
                  adoption.ids == [] && (adoption.unseen == [] || AdmissionOf(adoption.unseen, UsageOf(s.pending, s.queued)).Nothing?))
  {
  }

  /** Past the slot a push can only find the terminal lane taken, or is looked at event by event. */
  lemma PastTheSlot(s: State, events: seq<Event>, origin: Origin, runChanged: bool, keyFits: bool)
    requires !BringsTerminal(events, origin) && events != [] && !origin.OfOtherRun? && !HeldAgainst(s, origin, runChanged)
    ensures var answer := Submitted(s, events, origin, runChanged, keyFits).1;
            && answer != Threw(NotTheActiveRun) && answer != Threw(SettlementSlotFull) && answer != Threw(NeedsTerminalPush)
            && (answer == Threw(TerminalSlotTaken) <==> TerminalUnderway(s) && HasLossless(events) && !RetriesPending(s, events, keyFits))
  {
    var c := if origin.OfSettlement? then s else s.(settlement := SlotAfter(s.settlement, runChanged));
    var underway := Underway(c.pending, c.delivery, c.queue);
    AdoptionErrorsAreItsOwn(events, underway);
    if !RetriesPending(s, events, keyFits) && !TerminalUnderway(s) {
      var adoption := if origin.OfSettlement? then Success(Adoption(events, [])) else Adopt(events, underway);
      if adoption.Success? {
        AdoptedAnswers(c, adoption.value, origin);
        assert Submitted(s, events, origin, runChanged, keyFits) == SubmitAdopted(c, adoption.value, origin);
      }
    }
  }

  /** Up to there, the Run and the slot decide. */
  lemma UpToTheSlot(s: State, events: seq<Event>, origin: Origin, runChanged: bool, keyFits: bool)
    requires !BringsTerminal(events, origin) && (events == [] || origin.OfOtherRun? || HeldAgainst(s, origin, runChanged))
    ensures Submitted(s, events, origin, runChanged, keyFits).1
            == if HeldAgainst(s, origin, runChanged) && (origin.OfSession? || HasLossless(events)) then Threw(SettlementSlotFull)
               else if HasLossless(events) then Threw(NotTheActiveRun)
               else Ignored
  {
  }

  lemma TerminalIsRefused(s: State, events: seq<Event>, origin: Origin, runChanged: bool, keyFits: bool)
    requires BringsTerminal(events, origin)
    ensures Submitted(s, events, origin, runChanged, keyFits) == (s, Threw(NeedsTerminalPush))
  {
  }

  /** Exactly when a push is refused before its events are looked at one by one. */
  lemma RefusalsAreExact(s: State, events: seq<Event>, origin: Origin, runChanged: bool, keyFits: bool)
    ensures var answer := Submitted(s, events, origin, runChanged, keyFits).1;
            && (answer == Threw(NeedsTerminalPush) <==> BringsTerminal(events, origin))
            && (!BringsTerminal(events, origin) ==>
                  && (answer == Threw(NotTheActiveRun) <==> origin.OfOtherRun? && HasLossless(events))
                  && (answer == Threw(SettlementSlotFull)
                      <==> HeldAgainst(s, origin, runChanged) && (origin.OfSession? || HasLossless(events)))
                  && (answer == Threw(TerminalSlotTaken)
                      <==> && TerminalUnderway(s) && HasLossless(events) && !origin.OfOtherRun? && !HeldAgainst(s, origin, runChanged)
                           && !RetriesPending(s, events, keyFits)))
  {
    if !BringsTerminal(events, origin) {
      if events == [] || origin.OfOtherRun? || HeldAgainst(s, origin, runChanged) {
        UpToTheSlot(s, events, origin, runChanged, keyFits);
      } else {
        PastTheSlot(s, events, origin, runChanged, keyFits);
      }
    } else {
      TerminalIsRefused(s, events, origin, runChanged, keyFits);
    }
  }

  lemma {:induction false} AdoptionErrorsAreItsOwn(events: seq<Event>, candidates: seq<Queued>)
    ensures Adopt(events, candidates).Failure? ==> Adopt(events, candidates).error in {Admission(DuplicateIds), IdConflict}
  {
    if events != [] {
      AdoptionErrorsAreItsOwn(events[..|events| - 1], candidates);
    }
  }

  lemma AdoptedRefusalChangesNothing(s: State, adoption: Adoption, origin: Origin)
    requires SubmitAdopted(s, adoption, origin).1.Threw? && SubmitAdopted(s, adoption, origin).1 != Threw(PromiseMissing)
    ensures SubmitAdopted(s, adoption, origin).0 == s
  {
  }

  /** Whatever is refused changes nothing but, at most, that a settlement gives up its slot, or that what is new
      of the push is queued although something it adopts has lost its promise. */
  lemma RefusedPushChangesNothing(s: State, events: seq<Event>, origin: Origin, runChanged: bool, keyFits: bool)
    requires Submitted(s, events, origin, runChanged, keyFits).1.Threw?
    requires Submitted(s, events, origin, runChanged, keyFits).1 != Threw(PromiseMissing)
    ensures var t := Submitted(s, events, origin, runChanged, keyFits).0;
            t == s || t == s.(settlement := SlotAfter(s.settlement, runChanged))
  {
    var c := if origin.OfSettlement? then s else s.(settlement := SlotAfter(s.settlement, runChanged));
    var r := Submitted(s, events, origin, runChanged, keyFits);
    if r.0 != s && r.0 != c {
      var adoption := if origin.OfSettlement? then Success(Adoption(events, [])) else Adopt(events, Underway(c.pending, c.delivery, c.queue));
      assert adoption.Success? && r == SubmitAdopted(c, adoption.value, origin);
      AdoptedRefusalChangesNothing(c, adoption.value, origin);
    }
  }

  lemma {:induction false} LosslessOnly(events: seq<Event>)
    ensures Lossless(events) == [] <==> !HasLossless(events)
  {
    if events != [] {
      var shorter, last := events[..|events| - 1], events[|events| - 1];
      LosslessOnly(shorter);
      assert forall e :: e in events <==> e in shorter || e == last;
    }
  }

  lemma {:induction false} AdoptionHasAll(events: seq<Event>, candidates: seq<Queued>)
    requires Adopt(events, candidates).Success?
    ensures var a := Adopt(events, candidates).value;
            forall e :: e in events ==> e in a.unseen || (e.lossless && e.id in a.ids)
  {
    if events != [] {
      var shorter, last := events[..|events| - 1], events[|events| - 1];
      AdoptionHasAll(shorter, candidates);
      assert forall e :: e in events <==> e in shorter || e == last;
    }
  }

  lemma NothingIsBestEffort(events: seq<Event>, u: Usage)
    requires AdmissionOf(events, u).Nothing?
    ensures !HasLossless(events)
  {
    LosslessOnly(events);
  }

  lemma AdoptedAtOnceIsBestEffort(c: State, events: seq<Event>, adoption: Adoption, origin: Origin)
    requires SubmitAdopted(c, adoption, origin).1.Ignored?
    requires forall e :: e in events ==> e in adoption.unseen || (e.lossless && e.id in adoption.ids)
    ensures !HasLossless(events)
  {
    AdoptedAnswers(c, adoption, origin);
    if adoption.unseen != [] {
      NothingIsBestEffort(adoption.unseen, UsageOf(c.pending, c.queued));
    }
  }

  /** How a push comes to be resolved at once: it has nothing lossless, or gets as far as admission. */
  lemma ResolvedAtOnce(s: State, events: seq<Event>, origin: Origin, runChanged: bool, keyFits: bool)
    returns (c: State, adoption: Result<Adoption, PushError>)
    requires Submitted(s, events, origin, runChanged, keyFits).1.Ignored? && HasLossless(events)
    ensures adoption == if origin.OfSettlement? then Success(Adoption(events, []))
                        else Adopt(events, Underway(c.pending, c.delivery, c.queue))
    ensures adoption.Success? && SubmitAdopted(c, adoption.value, origin).1.Ignored?
  {
    c := if origin.OfSettlement? then s else s.(settlement := SlotAfter(s.settlement, runChanged));
    adoption := if origin.OfSettlement? then Success(Adoption(events, [])) else Adopt(events, Underway(c.pending, c.delivery, c.queue));
  }

  /** A push that resolves at once, without being queued, has brought nothing lossless. */
  lemma ResolvedAtOnceIsBestEffort(s: State, events: seq<Event>, origin: Origin, runChanged: bool, keyFits: bool)
    requires Submitted(s, events, origin, runChanged, keyFits).1.Ignored?
    ensures !HasLossless(events)
  {
    if HasLossless(events) {
      var c, adoption := ResolvedAtOnce(s, events, origin, runChanged, keyFits);
      if !origin.OfSettlement? {
        AdoptionHasAll(events, Underway(c.pending, c.delivery, c.queue));
      }
      AdoptedAtOnceIsBestEffort(c, events, adoption.value, origin);
    }
  }

  /** The terminal batch that is pending, pushed again while its Run may push, asks for all that is pending, and
      is told what becomes of that. */
  lemma PendingTerminalIsRetried(s: State, events: seq<Event>, origin: Origin, runChanged: bool, keyFits: bool)
    requires RetriesPending(s, events, keyFits) && origin.OfSettlement? && events != []
    ensures Submitted(s, events, origin, runChanged, keyFits)
            == (Enqueued(s, Entry(s.nextEntry, true, PendingIds(s.pending), [], NONE, None)), Issued([s.nextEntry], [], None))
  {
  }

  // ---------------------------------------------------------------------------------------------
  // What is taken on.

  ghost predicate Queues(s: State, t: State, taken: seq<Event>) {
    && |t.queue| > |s.queue| && t.queue[..|s.queue|] == s.queue
    && var e := t.queue[|s.queue|];
       && e.id == s.nextEntry && !e.awaitPending && |e.events| == |taken|
       && forall i :: 0 <= i < |taken| ==> e.events[i].event == taken[i] && e.events[i].owner == Some(e.id)
                                           && e.events[i].serial == s.ledger.next + i
  }

  /** A push that is issued has queued exactly what was admitted of its new events, each under the next serial,
      behind everything queued before, and waits for the entry if it holds anything lossless. */
  lemma NewEventsAreQueued(s: State, adoption: Adoption, origin: Origin)
    requires SubmitAdopted(s, adoption, origin).1.Issued? && adoption.unseen != []
    ensures var a := AdmissionOf(adoption.unseen, UsageOf(s.pending, s.queued));
            var r := SubmitAdopted(s, adoption, origin);
            && !a.Refused?
            && (a.Admitted? ==> Queues(s, r.0, a.events))
            && (s.nextEntry in r.1.entries <==> a.Admitted? && (a.losslessCount > 0 || a.terminalBatch))
            && (r.1.retry.Some? <==> adoption.ids != [])
  {
    var a := AdmissionOf(adoption.unseen, UsageOf(s.pending, s.queued));
    if a.Admitted? {
      var t := Enqueued(s, AdmittedEntry(a, s.nextEntry, s.ledger.next));
      assert t.queue[..|s.queue|] == s.queue;
      assert adoption.ids != [] ==> Retried(t, adoption.ids).queue[..|s.queue|] == s.queue;
    }
  }
}
