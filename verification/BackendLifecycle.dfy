/** Starting and stopping the backend.

    Promises become numbered tasks that are issued and later settled; every stretch of the source
    between two awaits is one event, and the events come in any order the tasks allow.  A timeout
    may fire whenever something is awaited. */
module BackendLifecycle {
  import opened Wrappers

  /** What the running cleanup owner awaits. */
  datatype Wait =
    | AwaitPrevious(previous: nat, final: bool)  // an earlier stop that is still in flight
    | AwaitStop(generation: nat, final: bool)    // the stop it issued itself
    | AwaitStart                                 // the start task it found

  /** `startsSeen` counts the start tasks issued before the owner was created. */
  datatype Owner = Owner(id: nat, start: Option<nat>, wait: Wait, startsSeen: nat)

  /** A cleanup that failed but left something to watch. */
  datatype Deferred =
    | FinalStop(start: Option<nat>, stop: Option<nat>)
    | LateStop(generation: nat)

  /** A late stop that resolved while an owner was at work. */
  datatype LateAccept = LateAccept(generation: nat, owner: nat)

  /** What was true when a stop was issued. */
  datatype StopInfo = StopInfo(final: bool, startsSeen: nat, settledStarts: set<nat>)

  datatype State = State(
    startTask: Option<nat>, startCount: nat, settledStarts: set<nat>,
    owner: Option<Owner>, ownerCount: nat, ownerResults: map<nat, bool>,
    inFlightStop: Option<nat>, stopGeneration: nat, stopResults: map<nat, bool>, stops: map<nat, StopInfo>,
    startupStopTask: Option<nat>, stopped: bool,
    deferred: seq<Deferred>, lateAccepts: seq<LateAccept>)

  const INITIAL := State(None, 0, {}, None, 0, map[], None, 0, map[], map[], None, false, [], [])

  datatype Event =
    | Start                        // start() is called with a signal that is not aborted
    | StartSettled                 // the start task settles, either way
    | Shutdown                     // shutdown() is called
    | StopSettled(ok: bool)        // the stop in flight settles
    | Wake                         // the owner resumes: what it awaits has settled
    | Timeout                      // the owner resumes: its deadline passed
    | DeferredReady(index: nat)    // a watched task has settled
    | LateReady(index: nat)        // the owner a late stop waited for has settled

  function Settled(s: State, start: Option<nat>, stop: Option<nat>): bool {
    && (start.None? || start.value in s.settledStarts)
    && (stop.None? || stop.value in s.stopResults)
  }

  predicate Enabled(s: State, e: Event) {
    match e
    case Start => true
    case StartSettled => s.startTask.Some?
    case Shutdown => true
    case StopSettled(_) => s.inFlightStop.Some?
    case Wake =>
      && s.owner.Some?
      && (match s.owner.value.wait
          case AwaitPrevious(p, _) => p in s.stopResults
          case AwaitStop(g, _) => g in s.stopResults
          case AwaitStart => s.owner.value.start.Some? && s.owner.value.start.value in s.settledStarts)
    case Timeout => s.owner.Some?
    case DeferredReady(i) =>
      && i < |s.deferred|
      && (match s.deferred[i]
          case FinalStop(start, stop) => Settled(s, start, stop)
          case LateStop(g) => g in s.stopResults)
    case LateReady(i) => i < |s.lateAccepts| && s.lateAccepts[i].owner in s.ownerResults
  }

  // The stretches of code.

  function Waiting(s: State, w: Wait): State
    requires s.owner.Some?
  {
    s.(owner := Some(s.owner.value.(wait := w)))
  }

  function Launch(s: State, final: bool): State
    requires s.owner.Some?
  {
    var g := s.stopGeneration + 1;
    Waiting(s.(stopGeneration := g, inFlightStop := Some(g),
               stops := s.stops[g := StopInfo(final, s.owner.value.startsSeen, s.settledStarts)]),
            AwaitStop(g, final))
  }

  function Stop(s: State, final: bool): State
    requires s.owner.Some?
  {
    if s.inFlightStop.Some? then Waiting(s, AwaitPrevious(s.inFlightStop.value, final)) else Launch(s, final)
  }

  function CreateOwner(s: State): State {
    var t := Owning(s);
    if s.startTask.None? then Stop(t, true)
    else if s.startupStopTask != s.startTask then Stop(t.(startupStopTask := s.startTask), false)
    else t
  }

  function Fail(s: State, deferred: seq<Deferred>): State
    requires s.owner.Some?
  {
    s.(owner := None, ownerResults := s.ownerResults[s.owner.value.id := false], deferred := s.deferred + deferred)
  }

  function Succeed(s: State): State
    requires s.owner.Some?
  {
    s.(owner := None, ownerResults := s.ownerResults[s.owner.value.id := true], stopped := true)
  }

  function DoShutdown(s: State): State {
    if s.stopped || s.owner.Some? then s else CreateOwner(s)
  }

  function DoWake(s: State): State
    requires Enabled(s, Wake)
  {
    match s.owner.value.wait
    case AwaitPrevious(_, final) => Launch(s, final)
    case AwaitStop(g, final) =>
      if !final then Waiting(s, AwaitStart) else if s.stopResults[g] then Succeed(s) else Fail(s, [])
    case AwaitStart => Stop(s, true)
  }

  function DoTimeout(s: State): State
    requires Enabled(s, Timeout)
  {
    match s.owner.value.wait
    case AwaitPrevious(p, final) => if final then Fail(s, [FinalStop(None, Some(p))]) else Waiting(s, AwaitStart)
    case AwaitStop(g, final) => if final then Fail(s, [LateStop(g)]) else Waiting(s, AwaitStart)
    case AwaitStart => Fail(s, [FinalStop(s.owner.value.start, s.inFlightStop)])
  }

  function AcceptLateStop(s: State, generation: nat): State {
    if generation != s.stopGeneration then s else s.(stopped := true)
  }

  function DoDeferred(s: State, i: nat): State
    requires Enabled(s, DeferredReady(i))
  {
    var t := s.(deferred := s.deferred[..i] + s.deferred[i + 1..]);
    match s.deferred[i]
    case FinalStop(_, _) => DoShutdown(t)
    case LateStop(g) =>
      if !s.stopResults[g] then t
      else if s.owner.Some? then t.(lateAccepts := s.lateAccepts + [LateAccept(g, s.owner.value.id)])
      else AcceptLateStop(t, g)
  }

  function DoLate(s: State, i: nat): State
    requires Enabled(s, LateReady(i))
  {
    var late := s.lateAccepts[i];
    var t := s.(lateAccepts := s.lateAccepts[..i] + s.lateAccepts[i + 1..]);
    if s.ownerResults[late.owner] then t
    else if late.generation != s.stopGeneration || s.inFlightStop.Some? then t
    else AcceptLateStop(t, late.generation)
  }

  function Step(s: State, e: Event): State
    requires Enabled(s, e)
  {
    match e
    case Start => if s.startTask.Some? then s else s.(startTask := Some(s.startCount + 1), startCount := s.startCount + 1)
    case StartSettled => s.(startTask := None, settledStarts := s.settledStarts + {s.startTask.value})
    case Shutdown => DoShutdown(s)
    case StopSettled(ok) => s.(inFlightStop := None, stopResults := s.stopResults[s.inFlightStop.value := ok])
    case Wake => DoWake(s)
    case Timeout => DoTimeout(s)
    case DeferredReady(i) => DoDeferred(s, i)
    case LateReady(i) => DoLate(s, i)
  }

  // ---------------------------------------------------------------------------------------------
  // Invariant.

  /** Every stop ever issued has settled, except the one in flight, which is the latest. */
  ghost predicate OneStopInFlight(s: State) {
    && (s.inFlightStop.Some? ==> s.inFlightStop.value == s.stopGeneration > 0)
    && (forall g :: g in s.stops <==> 1 <= g <= s.stopGeneration)
    && (forall g :: g in s.stopResults <==> 1 <= g <= s.stopGeneration && s.inFlightStop != Some(g))
  }

  ghost predicate StartsTracked(s: State) {
    && (s.startTask.Some? ==> s.startTask.value == s.startCount > 0)
    && (forall n :: n in s.settledStarts <==> 1 <= n <= s.startCount && s.startTask != Some(n))
  }

  /** Everything the owner saw started has settled by now. */
  ghost predicate SeenSettled(startsSeen: nat, settled: set<nat>) {
    forall n: nat :: 1 <= n <= startsSeen ==> n in settled
  }

  ghost predicate OwnerTracked(s: State) {
    s.owner.Some? ==>
      var o := s.owner.value;
      && o.startsSeen <= s.startCount
      && (o.start.Some? ==> o.start.value == o.startsSeen)
      && (forall n: nat :: 1 <= n <= o.startsSeen && o.start != Some(n) ==> n in s.settledStarts)
  }

  ghost predicate WaitSound(s: State) {
    s.owner.Some? ==>
      var o := s.owner.value;
      match o.wait
      case AwaitPrevious(p, final) =>
        p == s.stopGeneration > 0 && if final then SeenSettled(o.startsSeen, s.settledStarts) else o.start.Some?
      case AwaitStop(g, final) =>
        g == s.stopGeneration > 0 && g in s.stops && s.stops[g].final == final && (!final ==> o.start.Some?)
      case AwaitStart => o.start.Some?
  }

  /** A final stop began after every start its owner had found was over. */
  ghost predicate FinalStopsAreLate(s: State) {
    forall g :: g in s.stops && s.stops[g].final ==> SeenSettled(s.stops[g].startsSeen, s.stops[g].settledStarts)
  }

  ghost predicate LateStopsAreFinal(s: State) {
    && (forall d :: d in s.deferred && d.LateStop? ==> d.generation in s.stops && s.stops[d.generation].final)
    && (forall l :: l in s.lateAccepts ==>
          && l.generation in s.stops && s.stops[l.generation].final
          && l.generation in s.stopResults && s.stopResults[l.generation])
  }

  ghost predicate Tracked(s: State) {
    OneStopInFlight(s) && StartsTracked(s) && OwnerTracked(s) && FinalStopsAreLate(s) && LateStopsAreFinal(s)
  }

  ghost predicate Inv(s: State) {
    Tracked(s) && WaitSound(s)
  }

  lemma LaunchKeeps(s: State, final: bool)
    requires Tracked(s) && s.owner.Some? && s.inFlightStop.None?
    requires if final then SeenSettled(s.owner.value.startsSeen, s.settledStarts) else s.owner.value.start.Some?
    ensures Inv(Launch(s, final))
  {}

  lemma StopKeeps(s: State, final: bool)
    requires Tracked(s) && s.owner.Some?
    requires if final then SeenSettled(s.owner.value.startsSeen, s.settledStarts) else s.owner.value.start.Some?
    ensures Inv(Stop(s, final))
  {
    if s.inFlightStop.None? {
      LaunchKeeps(s, final);
    }
  }

  /** A new owner, before it has begun to wait. */
  function Owning(s: State): State {
    s.(owner := Some(Owner(s.ownerCount + 1, s.startTask, AwaitStart, s.startCount)), ownerCount := s.ownerCount + 1)
  }

  lemma OwningKeeps(s: State, startupStopTask: Option<nat>)
    requires Tracked(s)
    ensures Tracked(Owning(s).(startupStopTask := startupStopTask))
  {}

  lemma ShutdownKeeps(s: State)
    requires Inv(s)
    ensures Inv(DoShutdown(s))
  {
    if !s.stopped && s.owner.None? {
      OwningKeeps(s, s.startupStopTask);
      OwningKeeps(s, s.startTask);
      if s.startTask.None? {
        StopKeeps(Owning(s), true);
      } else if s.startupStopTask != s.startTask {
        StopKeeps(Owning(s).(startupStopTask := s.startTask), false);
      }
    }
  }

  lemma WakeKeeps(s: State)
    requires Inv(s) && Enabled(s, Wake)
    ensures Inv(DoWake(s))
  {
    match s.owner.value.wait
    case AwaitPrevious(_, final) => LaunchKeeps(s, final);
    case AwaitStop(_, _) =>
    case AwaitStart => StopKeeps(s, true);
  }

  lemma DeferredKeeps(s: State, i: nat)
    requires Inv(s) && Enabled(s, DeferredReady(i))
    ensures Inv(DoDeferred(s, i))
  {
    var t := s.(deferred := s.deferred[..i] + s.deferred[i + 1..]);
    assert s.deferred[i] in s.deferred;
    assert Inv(t);
    if s.deferred[i].FinalStop? {
      ShutdownKeeps(t);
    }
  }

  lemma StartSettledKeeps(s: State)
    requires Inv(s) && s.startTask.Some?
    ensures Inv(Step(s, StartSettled))
  {}

  lemma StopSettledKeeps(s: State, ok: bool)
    requires Inv(s) && s.inFlightStop.Some?
    ensures Inv(Step(s, StopSettled(ok)))
  {}

  lemma FailKeeps(s: State, d: Deferred)
    requires Inv(s) && s.owner.Some?
    requires d.LateStop? ==> d.generation in s.stops && s.stops[d.generation].final
    ensures Inv(Fail(s, [d]))
  {}

  lemma TimeoutKeeps(s: State)
    requires Inv(s) && s.owner.Some?
    ensures Inv(DoTimeout(s))
  {
    match s.owner.value.wait
    case AwaitPrevious(p, final) => FailKeeps(s, FinalStop(None, Some(p)));
    case AwaitStop(g, final) => if final { FailKeeps(s, LateStop(g)); }
    case AwaitStart => FailKeeps(s, FinalStop(s.owner.value.start, s.inFlightStop));
  }

  lemma LateKeeps(s: State, i: nat)
    requires Inv(s) && Enabled(s, LateReady(i))
    ensures Inv(DoLate(s, i))
  {}

  lemma StepKeeps(s: State, e: Event)
    requires Inv(s) && Enabled(s, e)
    ensures Inv(Step(s, e))
  {
    match e
    case Start =>
    case StartSettled => StartSettledKeeps(s);
    case Shutdown => ShutdownKeeps(s);
    case StopSettled(ok) => StopSettledKeeps(s, ok);
    case Wake => WakeKeeps(s);
    case Timeout => TimeoutKeeps(s);
    case DeferredReady(i) => DeferredKeeps(s, i);
    case LateReady(i) => LateKeeps(s, i);
  }

  ghost predicate Legal(events: seq<Event>)
    decreases |events|, 0
  {
    events == [] || (Legal(events[..|events| - 1]) && Enabled(Run(events[..|events| - 1]), events[|events| - 1]))
  }

  ghost function Run(events: seq<Event>): State
    requires Legal(events)
    decreases |events|, 1
  {
    if events == [] then INITIAL else Step(Run(events[..|events| - 1]), events[|events| - 1])
  }

  /** In every interleaving at most one stop is in flight, and it is the latest one issued. */
  lemma {:induction false} EveryRunIsSound(events: seq<Event>)
    requires Legal(events)
    ensures Inv(Run(events))
  {
    if events != [] {
      EveryRunIsSound(events[..|events| - 1]);
      StepKeeps(Run(events[..|events| - 1]), events[|events| - 1]);
    }
  }

  /** The stop that lets the lifecycle become stopped: final, the latest issued, resolved, and
      begun after every start that its shutdown had found was over. */
  ghost predicate StoppedBy(s: State, g: nat) {
    && g == s.stopGeneration && s.inFlightStop.None?
    && g in s.stops && s.stops[g].final
    && g in s.stopResults && s.stopResults[g]
    && SeenSettled(s.stops[g].startsSeen, s.stops[g].settledStarts)
  }

  /** Becoming stopped changes nothing about starts and stops. */
  ghost predicate SameTasks(s: State, t: State) {
    && t.startTask == s.startTask && t.startCount == s.startCount && t.settledStarts == s.settledStarts
    && t.stops == s.stops && t.stopGeneration == s.stopGeneration
  }

  lemma WakeBecomesStopped(s: State)
    requires Inv(s) && Enabled(s, Wake) && !s.stopped && DoWake(s).stopped
    ensures StoppedBy(DoWake(s), s.stopGeneration) && SameTasks(s, DoWake(s))
  {
  }

  lemma DeferredBecomesStopped(s: State, i: nat)
    requires Inv(s) && Enabled(s, DeferredReady(i)) && !s.stopped && DoDeferred(s, i).stopped
    ensures StoppedBy(DoDeferred(s, i), s.stopGeneration) && SameTasks(s, DoDeferred(s, i))
  {
    assert s.deferred[i] in s.deferred;
  }

  lemma LateBecomesStopped(s: State, i: nat)
    requires Inv(s) && Enabled(s, LateReady(i)) && !s.stopped && DoLate(s, i).stopped
    ensures StoppedBy(DoLate(s, i), s.stopGeneration) && SameTasks(s, DoLate(s, i))
  {
    assert s.lateAccepts[i] in s.lateAccepts;
  }

  lemma StepBecomesStopped(s: State, e: Event)
    requires Inv(s) && Enabled(s, e) && !s.stopped && Step(s, e).stopped
    ensures StoppedBy(Step(s, e), s.stopGeneration) && SameTasks(s, Step(s, e))
  {
    match e
    case Wake => WakeBecomesStopped(s);
    case DeferredReady(i) => DeferredBecomesStopped(s, i);
    case LateReady(i) => LateBecomesStopped(s, i);
    case _ =>
  }

  lemma BecomesStopped(events: seq<Event>, e: Event)
    requires Legal(events) && Enabled(Run(events), e)
    requires !Run(events).stopped && Step(Run(events), e).stopped
    ensures StoppedBy(Step(Run(events), e), Run(events).stopGeneration)
  {
    EveryRunIsSound(events);
    StepBecomesStopped(Run(events), e);
  }

  ghost predicate SettledStartsGrow(s: State) {
    forall g :: g in s.stops ==> s.stops[g].settledStarts <= s.settledStarts
  }

  lemma WakeSettledStartsGrow(s: State)
    requires SettledStartsGrow(s) && Enabled(s, Wake)
    ensures SettledStartsGrow(DoWake(s))
  {
  }

  lemma ShutdownSettledStartsGrow(s: State)
    requires SettledStartsGrow(s)
    ensures SettledStartsGrow(DoShutdown(s))
  {
  }

  lemma StepSettledStartsGrow(s: State, e: Event)
    requires SettledStartsGrow(s) && Enabled(s, e)
    ensures SettledStartsGrow(Step(s, e))
  {
    match e
    case Wake => WakeSettledStartsGrow(s);
    case Shutdown => ShutdownSettledStartsGrow(s);
    case DeferredReady(i) => ShutdownSettledStartsGrow(s.(deferred := s.deferred[..i] + s.deferred[i + 1..]));
    case _ =>
  }

  lemma {:induction false} StartsOutliveStops(events: seq<Event>)
    requires Legal(events)
    ensures SettledStartsGrow(Run(events))
  {
    if events != [] {
      StartsOutliveStops(events[..|events| - 1]);
      StepSettledStartsGrow(Run(events[..|events| - 1]), events[|events| - 1]);
    }
  }

  /** A start that is still pending when the lifecycle becomes stopped was called after the shutdown that
      issued the stop. */
  lemma NothingStartsUnlessCalledLater(events: seq<Event>, e: Event)
    requires Legal(events) && Enabled(Run(events), e)
    requires !Run(events).stopped && Step(Run(events), e).stopped
    ensures var s := Step(Run(events), e);
            && s.stopGeneration in s.stops
            && (s.startTask.Some? ==> s.startTask.value > s.stops[s.stopGeneration].startsSeen)
  {
    var s := Run(events);
    EveryRunIsSound(events);
    StartsOutliveStops(events);
    StepBecomesStopped(s, e);
    var info := s.stops[s.stopGeneration];
    assert info.settledStarts <= s.settledStarts;
  }

  /** The starts numbered from `first` on were over when the stop began. */
  ghost predicate OverBefore(s: State, g: nat, first: nat)
    requires g in s.stops
  {
    forall n: nat :: first <= n <= s.startCount && n > 0 ==> n in s.stops[g].settledStarts
  }

  /** Exactly when no start can have got past the stop that makes the lifecycle stopped: every start ever
      called was over when that stop began if and only if every start called after its shutdown was. */
  lemma EveryStartWasOverIff(events: seq<Event>, e: Event, s: State, g: nat)
    requires Legal(events) && Enabled(Run(events), e) && s == Step(Run(events), e)
    requires !Run(events).stopped && s.stopped && g == Run(events).stopGeneration
    ensures g in s.stops && s.stopGeneration == g
    ensures OverBefore(s, g, 0) <==> OverBefore(s, g, s.stops[g].startsSeen + 1)
  {
    BecomesStopped(events, e);
    SeenWereOver(s, g);
  }

  lemma SeenWereOver(s: State, g: nat)
    requires StoppedBy(s, g)
    ensures OverBefore(s, g, 0) <==> OverBefore(s, g, s.stops[g].startsSeen + 1)
  {
  }

  /** The events that can begin a shutdown. */
  predicate Begins(e: Event) {
    e.Shutdown? || e.DeferredReady?
  }

  /** Some shutdown began when that many starts had been called. */
  ghost predicate SeenAt(events: seq<Event>, starts: nat) {
    exists j :: 0 <= j < |events| && Begins(events[j]) && Legal(events[..j]) && Run(events[..j]).startCount == starts
  }

  /** What an owner or a stop remembers of the starts was remembered before, or is seen in this step. */
  ghost predicate Remembers(s: State, t: State, begins: bool) {
    && (t.owner.Some? ==> (s.owner.Some? && t.owner.value.startsSeen == s.owner.value.startsSeen)
                          || (begins && t.owner.value.startsSeen == s.startCount))
    && (forall g :: g in t.stops ==>
          || (g in s.stops && t.stops[g] == s.stops[g])
          || (s.owner.Some? && t.stops[g].startsSeen == s.owner.value.startsSeen)
          || (begins && t.stops[g].startsSeen == s.startCount))
    && t.startCount == s.startCount && t.settledStarts == s.settledStarts
  }

  lemma ShutdownRemembers(s: State)
    ensures Remembers(s, DoShutdown(s), true)
  {
  }

  lemma WakeRemembers(s: State)
    requires Enabled(s, Wake)
    ensures Remembers(s, DoWake(s), false)
  {
  }

  lemma TimeoutRemembers(s: State)
    requires Enabled(s, Timeout)
    ensures Remembers(s, DoTimeout(s), false)
  {
  }

  lemma DeferredRemembers(s: State, i: nat)
    requires Enabled(s, DeferredReady(i))
    ensures Remembers(s, DoDeferred(s, i), true)
  {
    if s.deferred[i].FinalStop? {
      ShutdownRemembers(s.(deferred := s.deferred[..i] + s.deferred[i + 1..]));
    }
  }

  lemma StepRemembers(s: State, e: Event)
    requires Enabled(s, e) && !e.Start? && !e.StartSettled?
    ensures Remembers(s, Step(s, e), Begins(e))
  {
    match e
    case Shutdown => ShutdownRemembers(s);
    case StopSettled(_) =>
    case Wake => WakeRemembers(s);
    case Timeout => TimeoutRemembers(s);
    case DeferredReady(i) => DeferredRemembers(s, i);
    case LateReady(_) =>
  }

  ghost predicate AllSeen(events: seq<Event>, s: State) {
    && (s.owner.Some? ==> SeenAt(events, s.owner.value.startsSeen))
    && (forall g :: g in s.stops ==> SeenAt(events, s.stops[g].startsSeen))
  }

  lemma SeenLater(events: seq<Event>, e: Event, starts: nat)
    requires SeenAt(events, starts)
    ensures SeenAt(events + [e], starts)
  {
    var j :| 0 <= j < |events| && Begins(events[j]) && Legal(events[..j]) && Run(events[..j]).startCount == starts;
    assert (events + [e])[..j] == events[..j] && (events + [e])[j] == events[j];
  }

  lemma SeenNow(events: seq<Event>, e: Event)
    requires Legal(events) && Begins(e)
    ensures SeenAt(events + [e], Run(events).startCount)
  {
    assert (events + [e])[..|events|] == events && (events + [e])[|events|] == e;
  }

  lemma {:induction false} EveryShutdownIsSeen(events: seq<Event>)
    requires Legal(events)
    ensures AllSeen(events, Run(events))
  {
    if events != [] {
      var shorter, e := events[..|events| - 1], events[|events| - 1];
      var s, t := Run(shorter), Run(events);
      EveryShutdownIsSeen(shorter);
      if !e.Start? && !e.StartSettled? {
        StepRemembers(s, e);
      }
      assert events == shorter + [e];
      if Begins(e) {
        SeenNow(shorter, e);
      }
      if s.owner.Some? {
        SeenLater(shorter, e, s.owner.value.startsSeen);
      }
      forall g | g in t.stops ensures SeenAt(events, t.stops[g].startsSeen) {
        if g in s.stops {
          SeenLater(shorter, e, s.stops[g].startsSeen);
        }
      }
    }
  }

  lemma {:induction false} NoStartNoCount(events: seq<Event>, j: nat)
    requires Legal(events) && j <= |events| && Legal(events[..j])
    requires forall k :: j <= k < |events| ==> !events[k].Start?
    ensures Run(events).startCount == Run(events[..j]).startCount
  {
    if j == |events| {
      assert events[..j] == events;
    } else {
      var shorter := events[..|events| - 1];
      assert shorter[..j] == events[..j];
      NoStartNoCount(shorter, j);
      OnlyStartCounts(Run(shorter), events[|events| - 1]);
    }
  }

  lemma OnlyStartCounts(s: State, e: Event)
    requires Enabled(s, e) && !e.Start?
    ensures Step(s, e).startCount == s.startCount
  {
    if !e.StartSettled? {
      StepRemembers(s, e);
    }
  }

  /** It suffices that nobody calls start from the shutdown on, which begins at some event `j`: then every
      start ever called was over when the stop began. */
  lemma NoStartSuffices(events: seq<Event>, e: Event) returns (j: nat)
    requires Legal(events) && Enabled(Run(events), e)
    requires !Run(events).stopped && Step(Run(events), e).stopped
    ensures j < |events| && Begins(events[j])
    ensures var s := Step(Run(events), e); s.stopGeneration in s.stops
    ensures (forall k :: j <= k < |events| ==> !events[k].Start?) ==>
              OverBefore(Step(Run(events), e), Step(Run(events), e).stopGeneration, 0)
  {
    BecomesStopped(events, e);
    EveryRunIsSound(events);
    StepBecomesStopped(Run(events), e);
    EveryShutdownIsSeen(events);
    var s := Run(events);
    j :| 0 <= j < |events| && Begins(events[j]) && Legal(events[..j])
         && Run(events[..j]).startCount == s.stops[s.stopGeneration].startsSeen;
    if forall k :: j <= k < |events| ==> !events[k].Start? {
      NoStartNoCount(events, j);
    }
  }

  // ---------------------------------------------------------------------------------------------
  // Progress: a shutdown is never forgotten.

  /** The last stop issued is a final one, and it was rejected. */
  ghost predicate LastFinalFailed(s: State) {
    && s.stopGeneration in s.stops && s.stops[s.stopGeneration].final
    && s.stopGeneration in s.stopResults && !s.stopResults[s.stopGeneration]
  }

  predicate Promising(d: Deferred, latest: nat) {
    d.FinalStop? || d.generation == latest
  }

  /** Something is watched that can still bring the lifecycle on: a final stop to be begun, or the latest stop. */
  ghost predicate Watching(s: State) {
    || (exists d :: d in s.deferred && Promising(d, s.stopGeneration))
    || (exists l :: l in s.lateAccepts && l.generation == s.stopGeneration)
  }

  ghost predicate OwnersTracked(s: State) {
    && (s.owner.Some? ==> s.owner.value.id == s.ownerCount > 0)
    && (forall id: nat :: id in s.ownerResults <==> 1 <= id <= s.ownerCount && !(s.owner.Some? && s.owner.value.id == id))
    && (forall l :: l in s.lateAccepts ==> 1 <= l.owner <= s.ownerCount)
    && (forall id :: id in s.ownerResults && s.ownerResults[id] ==> s.stopped)
  }

  /** What is watched was issued, so each part of it has settled or is the one task outstanding. */
  ghost predicate Issued(d: Deferred, starts: nat, stops: nat) {
    match d
    case FinalStop(start, stop) => (start.Some? ==> 1 <= start.value <= starts) && (stop.Some? ==> 1 <= stop.value <= stops)
    case LateStop(g) => 1 <= g <= stops
  }

  ghost predicate WatchesIssued(s: State) {
    && (forall d :: d in s.deferred ==> Issued(d, s.startCount, s.stopGeneration))
    && (s.owner.Some? && s.owner.value.start.Some? ==> 1 <= s.owner.value.start.value <= s.startCount)
  }

  /** After a shutdown, while not stopped, an owner is at work or something is watched, unless the last stop
      issued was final and rejected. */
  ghost predicate GoesOn(s: State) {
    s.ownerCount > 0 && !s.stopped && s.owner.None? ==> Watching(s) || LastFinalFailed(s)
  }

  ghost predicate Progressing(s: State) {
    OwnersTracked(s) && WatchesIssued(s) && GoesOn(s)
  }

  lemma LaunchProgresses(s: State, final: bool)
    requires Progressing(s) && s.owner.Some?
    ensures Progressing(Launch(s, final))
  {
  }

  lemma StopProgresses(s: State, final: bool)
    requires Progressing(s) && s.owner.Some?
    ensures Progressing(Stop(s, final))
  {
    LaunchProgresses(s, final);
  }

  lemma ShutdownProgresses(s: State)
    requires StartsTracked(s) && OwnersTracked(s) && WatchesIssued(s)
    ensures Progressing(DoShutdown(s)) && (DoShutdown(s).stopped || DoShutdown(s).owner.Some?)
  {
    if !s.stopped && s.owner.None? {
      var t := Owning(s);
      assert Progressing(t) && Progressing(t.(startupStopTask := s.startTask));
      if s.startTask.None? {
        StopProgresses(t, true);
      } else if s.startupStopTask != s.startTask {
        StopProgresses(t.(startupStopTask := s.startTask), false);
      }
    }
  }

  lemma FailProgresses(s: State, d: Deferred)
    requires Progressing(s) && s.owner.Some? && Issued(d, s.startCount, s.stopGeneration) && Promising(d, s.stopGeneration)
    ensures Progressing(Fail(s, [d])) && Watching(Fail(s, [d]))
  {
    var t := Fail(s, [d]);
    assert t.deferred[|s.deferred|] == d;
    assert d in t.deferred && Promising(d, t.stopGeneration);
  }

  /** An owner whose deadline passes while it waits for its start, or for a stop before or at its final one,
      leaves exactly that watched. */
  lemma TimeoutProgresses(s: State)
    requires Inv(s) && Progressing(s) && s.owner.Some?
    ensures Progressing(DoTimeout(s)) && (DoTimeout(s).owner.Some? || Watching(DoTimeout(s)))
  {
    match s.owner.value.wait
    case AwaitPrevious(p, final) => if final { FailProgresses(s, FinalStop(None, Some(p))); }
    case AwaitStop(g, final) => if final { FailProgresses(s, LateStop(g)); }
    case AwaitStart => FailProgresses(s, FinalStop(s.owner.value.start, s.inFlightStop));
  }

  lemma WakeProgresses(s: State)
    requires Inv(s) && Progressing(s) && Enabled(s, Wake)
    ensures Progressing(DoWake(s))
  {
    match s.owner.value.wait
    case AwaitPrevious(_, final) => LaunchProgresses(s, final);
    case AwaitStop(_, _) =>
    case AwaitStart => StopProgresses(s, true);
  }

  lemma RestHolds<T>(xs: seq<T>, i: nat)
    requires i < |xs|
    ensures forall x :: x in xs <==> x in xs[..i] + xs[i + 1..] || x == xs[i]
  {
    assert xs == xs[..i] + [xs[i]] + xs[i + 1..];
  }

  lemma DeferredProgresses(s: State, i: nat)
    requires Inv(s) && Progressing(s) && Enabled(s, DeferredReady(i))
    ensures Progressing(DoDeferred(s, i))
  {
    RestHolds(s.deferred, i);
    var t := s.(deferred := s.deferred[..i] + s.deferred[i + 1..]);
    if s.deferred[i].FinalStop? {
      ShutdownProgresses(t);
    } else {
      LateStopProgresses(s, i);
    }
  }

  lemma LateStopProgresses(s: State, i: nat)
    requires Inv(s) && Progressing(s) && Enabled(s, DeferredReady(i)) && s.deferred[i].LateStop?
    ensures Progressing(DoDeferred(s, i))
  {
    RestHolds(s.deferred, i);
    assert s.deferred[i] in s.deferred;
  }

  lemma LateProgresses(s: State, i: nat)
    requires Inv(s) && Progressing(s) && Enabled(s, LateReady(i))
    ensures Progressing(DoLate(s, i))
  {
    RestHolds(s.lateAccepts, i);
    assert s.lateAccepts[i] in s.lateAccepts;
  }

  lemma StepProgresses(s: State, e: Event)
    requires Inv(s) && Progressing(s) && Enabled(s, e)
    ensures Progressing(Step(s, e))
  {
    match e
    case Start =>
    case StartSettled =>
    case Shutdown => ShutdownProgresses(s);
    case StopSettled(ok) =>
    case Wake => WakeProgresses(s);
    case Timeout => TimeoutProgresses(s);
    case DeferredReady(i) => DeferredProgresses(s, i);
    case LateReady(i) => LateProgresses(s, i);
  }

  lemma {:induction false} EveryRunProgresses(events: seq<Event>)
    requires Legal(events)
    ensures Progressing(Run(events))
  {
    if events != [] {
      var shorter, e := events[..|events| - 1], events[|events| - 1];
      EveryRunProgresses(shorter);
      EveryRunIsSound(shorter);
      StepProgresses(Run(shorter), e);
    }
  }

  lemma {:induction false} ShutdownsCount(events: seq<Event>)
    requires Legal(events)
    ensures Shutdown in events ==> Run(events).stopped || Run(events).ownerCount > 0
  {
    if events != [] {
      ShutdownsCount(events[..|events| - 1]);
      EveryRunProgresses(events[..|events| - 1]);
      CountsGrow(Run(events[..|events| - 1]), events[|events| - 1]);
    }
  }

  lemma CountsGrow(s: State, e: Event)
    requires Enabled(s, e)
    ensures Step(s, e).ownerCount >= s.ownerCount && (s.stopped ==> Step(s, e).stopped)
    ensures e.Shutdown? && OwnersTracked(s) ==> Step(s, e).stopped || Step(s, e).ownerCount > 0
  {
    match e {
      case Shutdown => ShutdownCounts(s);
      case DeferredReady(i) => ShutdownCounts(s.(deferred := s.deferred[..i] + s.deferred[i + 1..]));
      case Wake => WakeCounts(s);
      case _ =>
    }
  }

  lemma WakeCounts(s: State)
    requires Enabled(s, Wake)
    ensures DoWake(s).ownerCount == s.ownerCount && (s.stopped ==> DoWake(s).stopped)
  {
    StopCounts(s, true);
  }

  lemma StopCounts(s: State, final: bool)
    requires s.owner.Some?
    ensures Stop(s, final).ownerCount == s.ownerCount && Stop(s, final).stopped == s.stopped
  {
  }

  lemma ShutdownCounts(s: State)
    ensures DoShutdown(s).ownerCount >= s.ownerCount && DoShutdown(s).stopped == s.stopped
    ensures s.stopped || s.owner.Some? || DoShutdown(s).ownerCount > 0
  {
    StopCounts(Owning(s), true);
    StopCounts(Owning(s).(startupStopTask := s.startTask), false);
  }

  /** In every run a shutdown is at work, watched, or over: once one was called, the lifecycle is stopped, or
      an owner is at work, or something is watched that can bring it on, or the last stop issued was final
      and was rejected. */
  lemma ShutdownsAreNotForgotten(events: seq<Event>)
    requires Legal(events) && Shutdown in events
    ensures var s := Run(events); s.stopped || s.owner.Some? || Watching(s) || LastFinalFailed(s)
  {
    EveryRunProgresses(events);
    ShutdownsCount(events);
  }

  /** The stop that is in flight, if any, has settled. */
  predicate FlownIn(s: State, later: State) {
    s.inFlightStop.Some? ==> s.inFlightStop.value in later.stopResults
  }

  /** An owner whose deadline ends it leaves one thing watched, which is ready exactly when the start it
      awaited, if it awaited that, and the stop in flight at the time have settled. */
  lemma TimeoutIsWatched(s: State, later: State)
    requires Inv(s) && s.owner.Some? && DoTimeout(s).owner.None?
    requires later.deferred == DoTimeout(s).deferred && s.stopResults.Keys <= later.stopResults.Keys
    ensures |later.deferred| == |s.deferred| + 1
    ensures Enabled(later, DeferredReady(|s.deferred|)) <==>
              FlownIn(s, later) && (s.owner.value.wait.AwaitStart? ==> s.owner.value.start.value in later.settledStarts)
  {
    var d := TimeoutLeaves(s);
    assert later.deferred[|s.deferred|] == d;
    assert s.stopGeneration > 0 && s.inFlightStop.None? ==> s.stopGeneration in s.stopResults;
    match s.owner.value.wait {
      case AwaitPrevious(p, _) => assert p == s.stopGeneration;
      case AwaitStop(g, _) => assert g == s.stopGeneration;
      case AwaitStart =>
    }
  }

  lemma TimeoutLeaves(s: State) returns (d: Deferred)
    requires s.owner.Some? && DoTimeout(s).owner.None?
    ensures DoTimeout(s).deferred == s.deferred + [d]
    ensures match s.owner.value.wait
            case AwaitPrevious(p, _) => d == FinalStop(None, Some(p))
            case AwaitStop(g, _) => d == LateStop(g)
            case AwaitStart => d == FinalStop(s.owner.value.start, s.inFlightStop)
  {
    var t := DoTimeout(s);
    d := t.deferred[|s.deferred|];
  }

  /** What is watched is ready once no start and no stop is outstanding. */
  lemma WatchedBecomesReady(events: seq<Event>, i: nat)
    requires Legal(events) && i < |Run(events).deferred| && Run(events).startTask.None? && Run(events).inFlightStop.None?
    ensures Enabled(Run(events), DeferredReady(i))
  {
    EveryRunIsSound(events);
    EveryRunProgresses(events);
    assert Run(events).deferred[i] in Run(events).deferred;
  }

  /** A task settles, a stop by resolving, or what waited for one goes on; nobody calls, nothing times out. */
  predicate Settling(e: Event) {
    e.StartSettled? || e == StopSettled(true) || e.Wake? || e.DeferredReady? || e.LateReady?
  }

  ghost predicate Continues(events: seq<Event>, all: seq<Event>) {
    events <= all && Legal(all) && forall k :: |events| <= k < |all| ==> Settling(all[k])
  }

  lemma OneMore(events: seq<Event>, all: seq<Event>, e: Event) returns (more: seq<Event>)
    requires Continues(events, all) && Enabled(Run(all), e) && Settling(e)
    ensures Continues(events, more) && Run(more) == Step(Run(all), e)
  {
    more := all + [e];
    ReplayAppend(all, e);
  }

  predicate NothingOutstanding(s: State) {
    s.startTask.None? && s.inFlightStop.None?
  }

  /** The same but for what has settled, a stop by resolving. */
  ghost predicate OnlySettled(s: State, t: State) {
    && t.owner == s.owner && t.deferred == s.deferred && t.lateAccepts == s.lateAccepts && t.stopped == s.stopped
    && t.stopGeneration == s.stopGeneration && t.stops == s.stops && (LastFinalFailed(t) ==> LastFinalFailed(s))
  }

  lemma AllSettle(events: seq<Event>) returns (all: seq<Event>)
    requires Legal(events)
    ensures Continues(events, all) && NothingOutstanding(Run(all)) && OnlySettled(Run(events), Run(all))
  {
    all := events;
    EveryRunIsSound(events);
    if Run(events).startTask.Some? {
      all := OneMore(events, all, StartSettled);
    }
    if Run(all).inFlightStop.Some? {
      all := OneMore(events, all, StopSettled(true));
    }
  }

  /** A final stop in flight that resolves ends the shutdown. */
  lemma FinalStopEnds(events: seq<Event>, all: seq<Event>) returns (more: seq<Event>)
    requires Continues(events, all) && Run(all).owner.Some? && Run(all).inFlightStop.Some?
    requires Run(all).owner.value.wait == AwaitStop(Run(all).inFlightStop.value, true)
    ensures Continues(events, more) && Run(more).stopped
  {
    var between := OneMore(events, all, StopSettled(true));
    more := OneMore(events, between, Wake);
  }

  /** An owner whose start is over begins its final stop. */
  lemma OwnerGoesOn(events: seq<Event>, all: seq<Event>) returns (more: seq<Event>)
    requires Continues(events, all) && Run(all).owner.Some? && NothingOutstanding(Run(all)) && Run(all).owner.value.wait.AwaitStart?
    ensures Continues(events, more) && Run(more).stopped
  {
    EveryRunIsSound(all);
    EveryRunProgresses(all);
    var launched := OneMore(events, all, Wake);
    more := FinalStopEnds(events, launched);
  }

  lemma StoppingGoesOn(events: seq<Event>, all: seq<Event>) returns (more: seq<Event>)
    requires Continues(events, all) && Run(all).owner.Some? && NothingOutstanding(Run(all)) && !LastFinalFailed(Run(all))
    requires Run(all).owner.value.wait.AwaitStop?
    ensures Continues(events, more) && Run(more).stopped
  {
    EveryRunIsSound(all);
    more := OneMore(events, all, Wake);
    if !Run(all).owner.value.wait.final {
      more := OwnerGoesOn(events, more);
    }
  }

  lemma PreviousGoesOn(events: seq<Event>, all: seq<Event>) returns (more: seq<Event>)
    requires Continues(events, all) && Run(all).owner.Some? && NothingOutstanding(Run(all)) && Run(all).owner.value.wait.AwaitPrevious?
    ensures Continues(events, more) && Run(more).stopped
  {
    EveryRunIsSound(all);
    more := OneMore(events, all, Wake);
    if Run(all).owner.value.wait.final {
      more := FinalStopEnds(events, more);
    } else {
      var settled := OneMore(events, more, StopSettled(true));
      var waiting := OneMore(events, settled, Wake);
      more := OwnerGoesOn(events, waiting);
    }
  }

  lemma AnyOwnerGoesOn(events: seq<Event>, all: seq<Event>) returns (more: seq<Event>)
    requires Continues(events, all) && Run(all).owner.Some? && NothingOutstanding(Run(all))
    requires Run(all).owner.value.wait.AwaitStop? ==> !LastFinalFailed(Run(all))
    ensures Continues(events, more) && Run(more).stopped
  {
    match Run(all).owner.value.wait {
      case AwaitPrevious(_, _) => more := PreviousGoesOn(events, all);
      case AwaitStop(_, _) => more := StoppingGoesOn(events, all);
      case AwaitStart => more := OwnerGoesOn(events, all);
    }
  }

  lemma WatchedGoesOn(events: seq<Event>, all: seq<Event>, i: nat) returns (more: seq<Event>)
    requires Continues(events, all) && NothingOutstanding(Run(all)) && !LastFinalFailed(Run(all)) && !Run(all).stopped
    requires Run(all).owner.None? && i < |Run(all).deferred| && Promising(Run(all).deferred[i], Run(all).stopGeneration)
    ensures Continues(events, more) && Run(more).stopped
  {
    EveryRunIsSound(all);
    WatchedBecomesReady(all, i);
    assert Run(all).deferred[i] in Run(all).deferred;
    more := OneMore(events, all, DeferredReady(i));
    if Run(all).deferred[i].FinalStop? {
      more := FinalStopEnds(events, more);
    }
  }

  lemma LateGoesOn(events: seq<Event>, all: seq<Event>, i: nat) returns (more: seq<Event>)
    requires Continues(events, all) && NothingOutstanding(Run(all)) && !Run(all).stopped && Run(all).owner.None?
    requires i < |Run(all).lateAccepts| && Run(all).lateAccepts[i].generation == Run(all).stopGeneration
    ensures Continues(events, more) && Run(more).stopped
  {
    EveryRunProgresses(all);
    assert Run(all).lateAccepts[i] in Run(all).lateAccepts;
    more := OneMore(events, all, LateReady(i));
  }

  /** A shutdown that is not forgotten can always end: if the tasks outstanding settle and the next final
      stop resolves, the lifecycle becomes stopped without any further call. */
  lemma ShutdownsCanEnd(events: seq<Event>) returns (more: seq<Event>)
    requires Legal(events) && Shutdown in events && !LastFinalFailed(Run(events))
    ensures Continues(events, more) && Run(more).stopped
  {
    ShutdownsAreNotForgotten(events);
    var all := AllSettle(events);
    if Run(all).stopped {
      more := all;
    } else if Run(all).owner.Some? {
      more := AnyOwnerGoesOn(events, all);
    } else if d :| d in Run(all).deferred && Promising(d, Run(all).stopGeneration) {
      var i :| 0 <= i < |Run(all).deferred| && Run(all).deferred[i] == d;
      more := WatchedGoesOn(events, all, i);
    } else {
      var l :| l in Run(all).lateAccepts && l.generation == Run(all).stopGeneration;
      var i :| 0 <= i < |Run(all).lateAccepts| && Run(all).lateAccepts[i] == l;
      more := LateGoesOn(events, all, i);
    }
  }

  /** When the last final stop was rejected, one more call of shutdown is enough. */
  lemma ShutdownCanBeRepeated(events: seq<Event>) returns (more: seq<Event>)
    requires Legal(events) && LastFinalFailed(Run(events)) && Run(events).owner.None?
    ensures Continues(events + [Shutdown], more) && Run(more).stopped
  {
    ReplayAppend(events, Shutdown);
    EveryRunIsSound(events);
    var again := events + [Shutdown];
    if Run(again).stopped {
      more := again;
    } else {
      more := NewOwnerGoesOn(again);
    }
  }

  lemma NewOwnerGoesOn(events: seq<Event>) returns (more: seq<Event>)
    requires Legal(events) && Run(events).owner.Some?
    requires Run(events).owner.value.wait.AwaitStop? ==> !LastFinalFailed(Run(events))
    ensures Continues(events, more) && Run(more).stopped
  {
    var all := AllSettle(events);
    more := AnyOwnerGoesOn(events, all);
  }

  /** An earlier shutdown found this start pending. */
  ghost predicate FoundBefore(events: seq<Event>, start: Option<nat>) {
    exists j :: 0 <= j < |events| && Begins(events[j]) && Legal(events[..j]) && Run(events[..j]).startTask == start
  }

  lemma OnlyShutdownsBegin(s: State, e: Event)
    requires Enabled(s, e)
    ensures Step(s, e).startupStopTask == s.startupStopTask || (Begins(e) && Step(s, e).startupStopTask == s.startTask)
  {
    match e {
      case Shutdown => ShutdownBeginsOne(s);
      case DeferredReady(i) => ShutdownBeginsOne(s.(deferred := s.deferred[..i] + s.deferred[i + 1..]));
      case Wake => StopBeginsNone(s, true);
      case _ =>
    }
  }

  lemma StopBeginsNone(s: State, final: bool)
    requires s.owner.Some?
    ensures Stop(s, final).startupStopTask == s.startupStopTask
  {
  }

  lemma ShutdownBeginsOne(s: State)
    ensures DoShutdown(s).startupStopTask == s.startupStopTask || DoShutdown(s).startupStopTask == s.startTask
  {
    StopBeginsNone(Owning(s), true);
    StopBeginsNone(Owning(s).(startupStopTask := s.startTask), false);
  }

  lemma {:induction false} StartupStopsWereBegun(events: seq<Event>)
    requires Legal(events)
    ensures Run(events).startupStopTask.Some? ==> FoundBefore(events, Run(events).startupStopTask)
  {
    if events != [] {
      var shorter, e := events[..|events| - 1], events[|events| - 1];
      StartupStopsWereBegun(shorter);
      OnlyShutdownsBegin(Run(shorter), e);
      if Run(events).startupStopTask == Run(shorter).startupStopTask && Run(events).startupStopTask.Some? {
        var j :| 0 <= j < |shorter| && Begins(shorter[j]) && Legal(shorter[..j])
                 && Run(shorter[..j]).startTask == Run(events).startupStopTask;
        assert events[..j] == shorter[..j] && events[j] == shorter[j];
      }
    }
  }

  /** The owner waits for the stop in flight, or has issued a stop itself. */
  ghost predicate Stopping(s: State, t: State, final: bool) {
    && t.owner.Some?
    && if s.inFlightStop.Some? then t.owner.value.wait == AwaitPrevious(s.inFlightStop.value, final)
       else && t.inFlightStop == Some(s.stopGeneration + 1) && s.stopGeneration + 1 in t.stops
            && t.stops[s.stopGeneration + 1].final == final && t.owner.value.wait == AwaitStop(s.stopGeneration + 1, final)
  }

  lemma StopIsStopping(s: State, final: bool)
    requires s.owner.Some?
    ensures Stopping(s, Stop(s, final), final)
  {
  }

  lemma ShutdownIsStopping(s: State)
    requires !s.stopped && s.owner.None? && (s.startTask.None? || s.startupStopTask != s.startTask)
    ensures Stopping(s, DoShutdown(s), s.startTask.None?)
  {
    if s.startTask.None? {
      StopIsStopping(Owning(s), true);
    } else {
      StopIsStopping(Owning(s).(startupStopTask := s.startTask), false);
    }
  }

  /** A shutdown that finds no start pending begins the final stop at once; the first that finds a certain
      start pending begins a stop for it at once.  While another stop is in flight it waits for that one. */
  lemma ShutdownStopsAtOnce(events: seq<Event>)
    requires Legal(events) && !Run(events).stopped && Run(events).owner.None?
    requires Run(events).startTask.None? || !FoundBefore(events, Run(events).startTask)
    ensures Stopping(Run(events), Step(Run(events), Shutdown), Run(events).startTask.None?)
  {
    StartupStopsWereBegun(events);
    ShutdownIsStopping(Run(events));
  }

  /** A start called while the final stop is running, with a signal that is not aborted, is still pending
      when the lifecycle becomes stopped. */
  lemma StartDuringShutdownIsMissed(none: seq<Event>)
    requires none == []
    ensures var events := none + [Shutdown] + [Start] + [StopSettled(true)] + [Wake];
            Legal(events) && Run(events).stopped && Run(events).startTask == Some(1)
  {
    ReplayAppend(none, Shutdown);
    ReplayAppend(none + [Shutdown], Start);
    ReplayAppend(none + [Shutdown] + [Start], StopSettled(true));
    ReplayAppend(none + [Shutdown] + [Start] + [StopSettled(true)], Wake);
  }

  /** Worse, such a start may have settled by then, after the stop began: nothing is pending, the lifecycle is
      stopped, and the backend may be running. */
  lemma StartSettledDuringShutdownIsMissed(none: seq<Event>)
    requires none == []
    ensures var events := none + [Shutdown] + [Start] + [StartSettled] + [StopSettled(true)] + [Wake];
            && Legal(events) && Run(events).stopped && Run(events).startTask.None?
            && Run(events).stopGeneration in Run(events).stops && !OverBefore(Run(events), Run(events).stopGeneration, 0)
  {
    ReplayAppend(none, Shutdown);
    var a := none + [Shutdown];
    ReplayAppend(a, Start);
    var b := a + [Start];
    ReplayAppend(b, StartSettled);
    var c := b + [StartSettled];
    ReplayAppend(c, StopSettled(true));
    var d := c + [StopSettled(true)];
    ReplayAppend(d, Wake);
    assert 1 !in Run(d).stops[1].settledStarts;
  }

  lemma ReplayAppend(events: seq<Event>, e: Event)
    requires Legal(events) && Enabled(Run(events), e)
    ensures Legal(events + [e]) && Run(events + [e]) == Step(Run(events), e)
  {
    assert (events + [e])[..|events|] == events;
  }

  // ---------------------------------------------------------------------------------------------

  class AgentBackendLifecycle {
    var startTask: Option<nat>
    var startCount: nat
    var settledStarts: set<nat>
    var owner: Option<Owner>
    var ownerCount: nat
    var ownerResults: map<nat, bool>
    var inFlightStop: Option<nat>
    var stopGeneration: nat
    var stopResults: map<nat, bool>
    ghost var stops: map<nat, StopInfo>
    var startupStopTask: Option<nat>
    var stopped: bool
    var deferred: seq<Deferred>
    var lateAccepts: seq<LateAccept>
    ghost var events: seq<Event>

    ghost function Abstract(): State
      reads this
    {
      State(startTask, startCount, settledStarts, owner, ownerCount, ownerResults, inFlightStop, stopGeneration,
            stopResults, stops, startupStopTask, stopped, deferred, lateAccepts)
    }

    ghost predicate Valid()
      reads this
    {
      Legal(events) && Abstract() == Run(events)
    }

    constructor ()
      ensures Valid() && events == []
    {
      startTask, startCount, settledStarts := None, 0, {};
      owner, ownerCount, ownerResults := None, 0, map[];
      inFlightStop, stopGeneration, stopResults, stops := None, 0, map[], map[];
      startupStopTask, stopped, deferred, lateAccepts, events := None, false, [], [], [];
    }

    ghost method Note(e: Event)
      requires Valid() && Enabled(Abstract(), e)
      modifies this`events
      ensures events == old(events) + [e] && Legal(events) && Run(events) == Step(Abstract(), e)
    {
      ReplayAppend(events, e);
      events := events + [e];
    }

    method CallStart()
      requires Valid()
      modifies this
      ensures Valid() && events == old(events) + [Start]
    {
      Note(Start);
      if startTask.None? {
        startCount := startCount + 1;
        startTask := Some(startCount);
      }
    }

    method OnStartSettled()
      requires Valid() && startTask.Some?
      modifies this
      ensures Valid() && events == old(events) + [StartSettled]
    {
      Note(StartSettled);
      settledStarts := settledStarts + {startTask.value};
      startTask := None;
    }

    method OnStopSettled(ok: bool)
      requires Valid() && inFlightStop.Some?
      modifies this
      ensures Valid() && events == old(events) + [StopSettled(ok)]
    {
      Note(StopSettled(ok));
      stopResults := stopResults[inFlightStop.value := ok];
      inFlightStop := None;
    }

    method CallShutdown()
      requires Valid()
      modifies this
      ensures Valid() && events == old(events) + [Shutdown]
    {
      Note(Shutdown);
      ShutdownNow();
    }

    method ShutdownNow()
      modifies this
      ensures Abstract() == DoShutdown(old(Abstract())) && events == old(events)
    {
      if stopped || owner.Some? {
        return;
      }
      ownerCount := ownerCount + 1;
      owner := Some(Owner(ownerCount, startTask, AwaitStart, startCount));
      if startTask.None? {
        BeginStop(true);
        return;
      }
      if startupStopTask != startTask {
        startupStopTask := startTask;
        BeginStop(false);
      }
    }

    /** The stop routine up to its first await. */
    method BeginStop(final: bool)
      requires owner.Some?
      modifies this
      ensures Abstract() == Stop(old(Abstract()), final) && events == old(events)
    {
      if inFlightStop.Some? {
        owner := Some(owner.value.(wait := AwaitPrevious(inFlightStop.value, final)));
        return;
      }
      IssueStop(final);
    }

    method IssueStop(final: bool)
      requires owner.Some?
      modifies this
      ensures Abstract() == Launch(old(Abstract()), final) && events == old(events)
    {
      stopGeneration := stopGeneration + 1;
      stops := stops[stopGeneration := StopInfo(final, owner.value.startsSeen, settledStarts)];
      inFlightStop := Some(stopGeneration);
      owner := Some(owner.value.(wait := AwaitStop(stopGeneration, final)));
    }

    method FailOwner(watch: seq<Deferred>)
      requires owner.Some?
      modifies this
      ensures Abstract() == Fail(old(Abstract()), watch) && events == old(events)
    {
      ownerResults := ownerResults[owner.value.id := false];
      owner := None;
      deferred := deferred + watch;
    }

    /** The owner resumes because what it awaits has settled. */
    method OnWake()
      requires Valid() && Enabled(Abstract(), Wake)
      modifies this
      ensures Valid() && events == old(events) + [Wake]
    {
      Note(Wake);
      match owner.value.wait {
        case AwaitPrevious(_, final) => IssueStop(final);
        case AwaitStop(g, final) =>
          if !final {
            owner := Some(owner.value.(wait := AwaitStart));
          } else if stopResults[g] {
            ownerResults := ownerResults[owner.value.id := true];
            owner := None;
            stopped := true;
          } else {
            FailOwner([]);
          }
        case AwaitStart => BeginStop(true);
      }
    }

    /** The owner resumes because its deadline passed. */
    method OnTimeout()
      requires Valid() && owner.Some?
      modifies this
      ensures Valid() && events == old(events) + [Timeout]
    {
      Note(Timeout);
      match owner.value.wait {
        case AwaitPrevious(p, final) =>
          if final {
            FailOwner([FinalStop(None, Some(p))]);
          } else {
            owner := Some(owner.value.(wait := AwaitStart));
          }
        case AwaitStop(g, final) =>
          if final {
            FailOwner([LateStop(g)]);
          } else {
            owner := Some(owner.value.(wait := AwaitStart));
          }
        case AwaitStart => FailOwner([FinalStop(owner.value.start, inFlightStop)]);
      }
    }

    method OnDeferredReady(i: nat)
      requires Valid() && Enabled(Abstract(), DeferredReady(i))
      modifies this
      ensures Valid() && events == old(events) + [DeferredReady(i)]
    {
      Note(DeferredReady(i));
      var watched := deferred[i];
      deferred := deferred[..i] + deferred[i + 1..];
      match watched {
        case FinalStop(_, _) => ShutdownNow();
        case LateStop(g) =>
          if stopResults[g] {
            if owner.Some? {
              lateAccepts := lateAccepts + [LateAccept(g, owner.value.id)];
            } else if g == stopGeneration {
              stopped := true;
            }
          }
      }
    }

    method OnLateReady(i: nat)
      requires Valid() && Enabled(Abstract(), LateReady(i))
      modifies this
      ensures Valid() && events == old(events) + [LateReady(i)]
    {
      Note(LateReady(i));
      var late := lateAccepts[i];
      lateAccepts := lateAccepts[..i] + lateAccepts[i + 1..];
      if ownerResults[late.owner] {
        return;
      }
      if late.generation != stopGeneration || inFlightStop.Some? {
        return;
      }
      stopped := true;
    }
  }
}
