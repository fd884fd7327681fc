/** How many stops a backend is asked for, and what a stop that settles late is still good for. */
module BackendStops {
  import opened Wrappers
  import opened BackendLifecycle

  // ---------------------------------------------------------------------------------------------
  // One startup stop per start.

  predicate StartupStop(s: State, g: nat) {
    g in s.stops && !s.stops[g].final
  }

  /** The owner's start is the one whose startup stop was taken on last, and none has been issued for it. */
  ghost predicate Unissued(s: State, start: nat) {
    s.startupStopTask == Some(start) && forall g :: StartupStop(s, g) ==> s.stops[g].startsSeen < start
  }

  ghost predicate StartupStopsTracked(s: State) {
    && (s.startupStopTask.Some? ==> 1 <= s.startupStopTask.value <= s.startCount)
    && (forall g :: StartupStop(s, g) ==> s.startupStopTask.Some? && 1 <= s.stops[g].startsSeen <= s.startupStopTask.value)
    && (forall g, h :: StartupStop(s, g) && StartupStop(s, h) && s.stops[g].startsSeen == s.stops[h].startsSeen ==> g == h)
  }

  ghost predicate OncePerStart(s: State) {
    && StartupStopsTracked(s)
    && (s.owner.Some? && s.owner.value.wait.AwaitPrevious? && !s.owner.value.wait.final ==> Unissued(s, s.owner.value.startsSeen))
  }

  lemma LaunchOnce(s: State, final: bool)
    requires OneStopInFlight(s) && s.owner.Some? && StartupStopsTracked(s)
    requires final || Unissued(s, s.owner.value.startsSeen)
    ensures OncePerStart(Launch(s, final))
  {
    var t, issued := Launch(s, final), s.stopGeneration + 1;
    assert forall g :: g in t.stops <==> g in s.stops || g == issued;
    assert forall g :: g in s.stops ==> t.stops[g] == s.stops[g];
  }

  lemma StopOnce(s: State, final: bool)
    requires OneStopInFlight(s) && s.owner.Some? && StartupStopsTracked(s)
    requires final || Unissued(s, s.owner.value.startsSeen)
    ensures OncePerStart(Stop(s, final))
  {
    if s.inFlightStop.None? {
      LaunchOnce(s, final);
    }
  }

  /** A start whose startup stop was not taken on yet is the newest, so no stop was issued for it. */
  lemma NewestIsUnissued(s: State)
    requires StartsTracked(s) && StartupStopsTracked(s) && s.startTask.Some? && s.startupStopTask != s.startTask
    ensures var t := Owning(s).(startupStopTask := s.startTask);
            StartupStopsTracked(t) && Unissued(t, s.startCount) && t.owner.value.startsSeen == s.startCount
  {
  }

  lemma ShutdownOnce(s: State)
    requires OneStopInFlight(s) && StartsTracked(s) && OncePerStart(s)
    ensures OncePerStart(DoShutdown(s))
  {
    if !s.stopped && s.owner.None? {
      if s.startTask.None? {
        StopOnce(Owning(s), true);
      } else if s.startupStopTask != s.startTask {
        NewestIsUnissued(s);
        StopOnce(Owning(s).(startupStopTask := s.startTask), false);
      }
    }
  }

  /** What neither issues a stop nor makes an owner wait to issue a startup stop. */
  lemma OnceCarries(s: State, t: State)
    requires OncePerStart(s) && t.stops == s.stops && t.startupStopTask == s.startupStopTask && t.startCount >= s.startCount
    requires t.owner == s.owner || t.owner.None? || t.owner.value.wait.AwaitStart?
    ensures OncePerStart(t)
  {
  }

  lemma WakeOnce(s: State)
    requires OneStopInFlight(s) && OncePerStart(s) && Enabled(s, Wake)
    ensures OncePerStart(DoWake(s))
  {
    match s.owner.value.wait
    case AwaitPrevious(_, final) => LaunchOnce(s, final);
    case AwaitStop(_, _) => AwaitedOnce(s);
    case AwaitStart => StopOnce(s, true);
  }

  lemma AwaitedOnce(s: State)
    requires OncePerStart(s) && Enabled(s, Wake) && s.owner.value.wait.AwaitStop?
    ensures OncePerStart(DoWake(s))
  {
    OnceCarries(s, DoWake(s));
  }

  lemma LateStopOnce(s: State, i: nat)
    requires OncePerStart(s) && Enabled(s, DeferredReady(i)) && s.deferred[i].LateStop?
    ensures OncePerStart(DoDeferred(s, i))
  {
    var t := DoDeferred(s, i);
    assert t.stops == s.stops && t.startupStopTask == s.startupStopTask && t.startCount == s.startCount && t.owner == s.owner;
    OnceCarries(s, t);
  }

  lemma DeferredOnce(s: State, i: nat)
    requires OneStopInFlight(s) && StartsTracked(s) && OncePerStart(s) && Enabled(s, DeferredReady(i))
    ensures OncePerStart(DoDeferred(s, i))
  {
    if s.deferred[i].FinalStop? {
      var t := s.(deferred := s.deferred[..i] + s.deferred[i + 1..]);
      OnceCarries(s, t);
      ShutdownOnce(t);
    } else {
      LateStopOnce(s, i);
    }
  }

  lemma TimeoutOnce(s: State)
    requires OncePerStart(s) && Enabled(s, Timeout)
    ensures OncePerStart(DoTimeout(s))
  {
    OnceCarries(s, DoTimeout(s));
  }

  lemma LateOnce(s: State, i: nat)
    requires OncePerStart(s) && Enabled(s, LateReady(i))
    ensures OncePerStart(DoLate(s, i))
  {
    OnceCarries(s, DoLate(s, i));
  }

  lemma SettlingOnce(s: State, e: Event)
    requires OncePerStart(s) && Enabled(s, e) && (e.Start? || e.StartSettled? || e.StopSettled?)
    ensures OncePerStart(Step(s, e))
  {
    OnceCarries(s, Step(s, e));
  }

  lemma StepOnce(s: State, e: Event)
    requires OneStopInFlight(s) && StartsTracked(s) && OncePerStart(s) && Enabled(s, e)
    ensures OncePerStart(Step(s, e))
  {
    match e {
      case Shutdown => ShutdownOnce(s);
      case Wake => WakeOnce(s);
      case DeferredReady(i) => DeferredOnce(s, i);
      case Timeout => TimeoutOnce(s);
      case LateReady(i) => LateOnce(s, i);
      case _ => SettlingOnce(s, e);
    }
  }

  lemma {:induction false} EveryRunOnce(events: seq<Event>)
    requires Legal(events)
    ensures OncePerStart(Run(events))
  {
    if events != [] {
      EveryRunOnce(events[..|events| - 1]);
      EveryRunIsSound(events[..|events| - 1]);
      StepOnce(Run(events[..|events| - 1]), events[|events| - 1]);
    }
  }

  /** However many shutdowns are called and time out, the backend is asked at most once to stop during one
      start: every other stop is a final one. */
  lemma OneStartupStopPerStart(events: seq<Event>, g: nat, h: nat)
    requires Legal(events) && StartupStop(Run(events), g) && StartupStop(Run(events), h) && g != h
    ensures Run(events).stops[g].startsSeen != Run(events).stops[h].startsSeen
  {
    EveryRunOnce(events);
  }

  // ---------------------------------------------------------------------------------------------
  // Starts.

  /** A start is joined while one is pending and issued otherwise, whatever the shutdowns are doing. */
  lemma StartsAreJoined(s: State)
    ensures Step(s, Start).startTask.Some? && Step(s, Start).startCount == s.startCount + if s.startTask.Some? then 0 else 1
    ensures s.startTask.Some? ==> Step(s, Start) == s
  {
  }

  // ---------------------------------------------------------------------------------------------
  // The end of a final stop.

  /** A final stop that its owner still awaits ends the shutdown either way: stopped if it resolved, and
      otherwise with nothing more watched than before and nothing more asked for. */
  lemma AwaitedStopDecides(s: State)
    requires Enabled(s, Wake) && s.owner.value.wait.AwaitStop? && s.owner.value.wait.final
    ensures var t, ok := DoWake(s), s.stopResults[s.owner.value.wait.generation];
            && t.owner.None? && (t.stopped <==> s.stopped || ok)
            && t.deferred == s.deferred && t.stopGeneration == s.stopGeneration
            && s.owner.value.id in t.ownerResults && t.ownerResults[s.owner.value.id] == ok
  {
  }

  /** What comes of a late stop that has settled: it ends the shutdown exactly when it resolved, is still the
      latest stop and no owner is at work; while one is, it is remembered until that owner is done. */
  lemma LateStopDecides(s: State, i: nat)
    requires Enabled(s, DeferredReady(i)) && s.deferred[i].LateStop? && !s.stopped
    ensures var t, g := DoDeferred(s, i), s.deferred[i].generation;
            && (t.stopped <==> s.stopResults[g] && g == s.stopGeneration && s.owner.None?)
            && (s.stopResults[g] && s.owner.Some? ==> t.lateAccepts == s.lateAccepts + [LateAccept(g, s.owner.value.id)])
            && (!s.stopResults[g] || s.owner.None? ==> t.lateAccepts == s.lateAccepts)
            && t.owner == s.owner && t.stopGeneration == s.stopGeneration
  {
  }

  /** A remembered one ends the shutdown exactly when its owner has failed and no stop was issued after it. */
  lemma RememberedStopDecides(s: State, i: nat)
    requires Inv(s) && Enabled(s, LateReady(i)) && !s.stopped
    ensures Step(s, LateReady(i)).stopped <==> !s.ownerResults[s.lateAccepts[i].owner] && s.lateAccepts[i].generation == s.stopGeneration
  {
    assert s.lateAccepts[i] in s.lateAccepts;
  }

  /** So a late stop that resolves counts even when an owner that is still waiting for its start gives up only
      after it. */
  lemma ALateStopCounts(events: seq<Event>, i: nat) returns (more: seq<Event>)
    requires Legal(events) && Enabled(Run(events), DeferredReady(i)) && !Run(events).stopped
    requires var s := Run(events);
             && s.deferred[i] == LateStop(s.stopGeneration) && s.stopResults[s.stopGeneration]
             && s.owner.Some? && s.owner.value.wait.AwaitStart?
    ensures more == [DeferredReady(i)] + [Timeout] + [LateReady(|Run(events).lateAccepts|)]
    ensures Legal(events + more) && Run(events + more).stopped
  {
    var s := Run(events);
    EveryRunIsSound(events);
    var a, b, c := DeferredReady(i), Timeout, LateReady(|s.lateAccepts|);
    more := [a] + [b] + [c];
    assert events + more == events + [a] + [b] + [c];
    ReplayAppend(events, a);
    LateStopDecides(s, i);
    var t := Run(events + [a]);
    ReplayAppend(events + [a], b);
    var u := Run(events + [a] + [b]);
    assert u.lateAccepts == t.lateAccepts && u.lateAccepts[|s.lateAccepts|] == LateAccept(s.stopGeneration, s.owner.value.id);
    ReplayAppend(events + [a] + [b], c);
    EveryRunIsSound(events + [a] + [b]);
    RememberedStopDecides(u, |s.lateAccepts|);
  }
}
