/** What the dispatcher does with a delivered command before it works on it: a replay is answered, a
    command that targets another run than the current one is rejected. */
module CommandHandling {
  import opened Wrappers
  import opened CommandDelivery

  datatype Kind = InputStart | PermissionResolve | McpExecute | TurnCancel | SessionStop

  datatype Command = Command(id: Id, identity: string, kind: Kind, runId: Id)

  datatype PendingInput = PendingInput(commandId: Id, runId: Id)

  /** What the dispatcher and the socket say when the command is looked at. */
  datatype Situation = Situation(currentRun: Option<Id>, pendingInput: Option<PendingInput>, activeTask: bool, ready: bool,
                                 shuttingDown: bool, runSettled: bool, mcpFenced: bool)

  datatype Mode = NewCommand | ActiveReplay | TerminalReplay

  function ModeOf(s: State, c: Command): Mode {
    if c.id !in s.tracked then NewCommand else if s.tracked[c.id].terminal.None? then ActiveReplay else TerminalReplay
  }

  predicate OwnsInput(c: Command, at: Situation, mode: Mode) {
    if mode.ActiveReplay? && at.pendingInput.Some? && at.pendingInput.value.commandId == c.id then true
    else if mode.NewCommand? && at.pendingInput.Some? then false
    else if mode.NewCommand? && at.activeTask && at.currentRun != Some(c.runId) && !at.shuttingDown
            && (at.runSettled || (at.currentRun.None? && at.ready)) then true
    else if match mode
            case TerminalReplay => at.currentRun.Some? && at.currentRun != Some(c.runId)
            case ActiveReplay => at.currentRun != Some(c.runId)
            case NewCommand => at.activeTask || at.currentRun.Some? then false
    else mode.NewCommand? ==> at.ready
  }

  /** Whether the command may be handled now. */
  predicate Owns(c: Command, at: Situation, mode: Mode) {
    if c.kind.SessionStop? then true
    else if c.kind.InputStart? then OwnsInput(c, at, mode)
    else if c.kind.TurnCancel? && at.pendingInput.Some? && at.pendingInput.value.runId == c.runId then true
    else at.currentRun == Some(c.runId) || (mode.TerminalReplay? && at.currentRun.None?)
  }

  predicate Refuses(s: State, c: Command, at: Situation) {
    || (c.kind.McpExecute? && ModeOf(s, c).NewCommand? && at.mcpFenced)
    || !Owns(c, at, ModeOf(s, c))
  }

  /** A delivered command, with the failure a rejection would carry and how its sends would go; or the
      work on commands that goes on beside it. */
  datatype Step =
    | Deliver(command: Command, at: Situation, error: string, outcomes: seq<bool>)
    | Work(op: Op)

  function Handled(s: State, step: Step): State {
    match step
    case Work(op) => if op.Finish? || op.RunJob? then Next(s, op) else s
    case Deliver(c, at, error, outcomes) =>
      if Replay(s, c.id, c.identity) == Some(ChangedIdentity) then s
      else if Refuses(s, c, at) then Rejected(s, c.id, Failed(error), outcomes)
      else match ModeOf(s, c)
        case NewCommand => if Received(s, c.id, c.identity).1.Fresh? then Accepted(Received(s, c.id, c.identity).0, c.id) else s
        case ActiveReplay => Accepted(s, c.id)
        case TerminalReplay => Finished(s, c.id, s.tracked[c.id].terminal.value).0
  }

  function Play(steps: seq<Step>): State {
    if steps == [] then State(map[], []) else Handled(Play(steps[..|steps| - 1]), steps[|steps| - 1])
  }

  lemma PlayOneMore(steps: seq<Step>, step: Step)
    ensures Play(steps + [step]) == Handled(Play(steps), step)
  {
    assert (steps + [step])[..|steps|] == steps;
  }

  /** A command that has its terminal is refused exactly while another run is current. */
  lemma ReplayIsRefusedIff(s: State, c: Command, at: Situation)
    requires c.id in s.tracked && s.tracked[c.id].terminal.Some?
    ensures Refuses(s, c, at)
            <==> && !c.kind.SessionStop? && at.currentRun.Some? && at.currentRun != Some(c.runId)
                 && !(c.kind.TurnCancel? && at.pendingInput.Some? && at.pendingInput.value.runId == c.runId)
  {
  }

  /** Nothing is going on, and the socket takes input. */
  predicate Idle(at: Situation) {
    !at.activeTask && at.currentRun.None? && at.ready
  }

  /** What is going on is over but for its own tidying up, and the input is for another run. */
  predicate Follows(c: Command, at: Situation) {
    && at.activeTask && !at.shuttingDown && at.currentRun != Some(c.runId)
    && (at.runSettled || (at.currentRun.None? && at.ready))
  }

  predicate CancelsPending(c: Command, at: Situation) {
    c.kind.TurnCancel? && at.pendingInput.Some? && at.pendingInput.value.runId == c.runId
  }

  /** A command that is not known: a stop is never refused; input is, unless no other input waits and
      nothing is going on or what goes on is about over; anything else is, unless it is for the current run
      (or cancels the input that waits), and a fence keeps tool calls out altogether. */
  lemma NewIsRefusedIff(s: State, c: Command, at: Situation)
    requires c.id !in s.tracked
    ensures Refuses(s, c, at)
            <==> match c.kind
                 case SessionStop => false
                 case InputStart => at.pendingInput.Some? || !(Idle(at) || Follows(c, at))
                 case McpExecute => at.mcpFenced || at.currentRun != Some(c.runId)
                 case _ => at.currentRun != Some(c.runId) && !CancelsPending(c, at)
  {
  }

  /** A command that is being worked on is refused exactly while its run is not current, unless its own
      input is the one that waits. */
  lemma ActiveReplayIsRefusedIff(s: State, c: Command, at: Situation)
    requires c.id in s.tracked && s.tracked[c.id].terminal.None?
    ensures Refuses(s, c, at)
            <==> && !c.kind.SessionStop? && at.currentRun != Some(c.runId) && !CancelsPending(c, at)
                 && !(c.kind.InputStart? && at.pendingInput.Some? && at.pendingInput.value.commandId == c.id)
  {
  }

  // ---------------------------------------------------------------------------------------------
  // Every play.

  lemma NewIsSound(s: State, c: Command)
    requires Sound(s)
    ensures Sound(Accepted(s, c.id)) && Sound(Accepted(Received(s, c.id, c.identity).0, c.id))
  {
    NextIsSound(s, Accept(c.id));
    NextIsSound(s, Receive(c.id, c.identity));
    NextIsSound(Received(s, c.id, c.identity).0, Accept(c.id));
  }

  lemma FinishedIsSound(s: State, id: Id, update: Update)
    requires Sound(s)
    ensures Sound(Finished(s, id, update).0)
  {
    NextIsSound(s, Finish(id, update));
  }

  lemma RejectedIsSound(s: State, id: Id, update: Update, outcomes: seq<bool>)
    requires Sound(s)
    ensures Sound(Rejected(s, id, update, outcomes))
  {
    NextIsSound(s, Reject(id, update, outcomes));
  }

  lemma HandledIsSound(s: State, step: Step)
    requires Sound(s)
    ensures Sound(Handled(s, step))
  {
    match step
    case Work(op) => NextIsSound(s, op);
    case Deliver(c, at, error, outcomes) =>
      RejectedIsSound(s, c.id, Failed(error), outcomes);
      NewIsSound(s, c);
      if ModeOf(s, c).TerminalReplay? {
        FinishedIsSound(s, c.id, s.tracked[c.id].terminal.value);
      }
  }

  lemma {:induction false} EveryPlayIsSound(steps: seq<Step>)
    ensures Sound(Play(steps))
  {
    if steps != [] {
      EveryPlayIsSound(steps[..|steps| - 1]);
      HandledIsSound(Play(steps[..|steps| - 1]), steps[|steps| - 1]);
    }
  }

  /** The `k`-th step is a delivery of the command that was refused, and the host was sent that. */
  ghost predicate RefusedAt(steps: seq<Step>, k: int, id: Id) {
    && 0 <= k < |steps| && steps[k].Deliver? && steps[k].command.id == id && steps[k].outcomes != []
    && var s := Play(steps[..k]);
       Replay(s, id, steps[k].command.identity) != Some(ChangedIdentity) && Refuses(s, steps[k].command, steps[k].at)
  }

  /** The host was sent something for the command beside its chain. */
  ghost predicate ToldBeside(s: State, id: Id) {
    exists x :: x in s.sent && x.id == id && !x.chained
  }

  ghost predicate BesideAreFailures(s: State) {
    forall x :: x in s.sent && !x.chained ==> x.terminal.Some? && x.terminal.value.Failed?
  }

  lemma HandledBeside(s: State, step: Step, id: Id)
    requires BesideAreFailures(s)
    ensures BesideAreFailures(Handled(s, step))
    ensures ToldBeside(Handled(s, step), id)
            <==> ToldBeside(s, id)
                 || (step.Deliver? && step.command.id == id && step.outcomes != []
                     && Replay(s, id, step.command.identity) != Some(ChangedIdentity) && Refuses(s, step.command, step.at))
  {
    var t := Handled(s, step);
    if step.Deliver? && Replay(s, step.command.id, step.command.identity) != Some(ChangedIdentity) && Refuses(s, step.command, step.at) {
      var more := Repeated(Sent(step.command.id, Some(Failed(step.error)), false), Attempts(step.outcomes, TERMINAL_UPDATE_MAX_ATTEMPTS).0);
      assert t.sent == s.sent + more;
      if step.outcomes != [] {
        assert more[0] in t.sent;
      }
      assert forall x :: x in t.sent <==> x in s.sent || x in more;
    } else {
      assert s.sent <= t.sent;
      assert forall x :: x in s.sent ==> x in t.sent;
      assert forall x :: x in t.sent && x !in s.sent ==> x.chained;
    }
  }

  /** Something is sent beside a command's chain exactly when a delivery of it was refused. */
  lemma {:induction false} ToldBesideIff(steps: seq<Step>, id: Id)
    ensures BesideAreFailures(Play(steps))
    ensures ToldBeside(Play(steps), id) <==> exists k :: RefusedAt(steps, k, id)
  {
    if steps != [] {
      var n := |steps| - 1;
      var shorter := steps[..n];
      ToldBesideIff(shorter, id);
      HandledBeside(Play(shorter), steps[n], id);
      RefusalsOfPrefix(steps, shorter, id);
    }
  }

  lemma RefusalsOfPrefix(steps: seq<Step>, shorter: seq<Step>, id: Id)
    requires steps != [] && shorter == steps[..|steps| - 1]
    ensures (exists k :: RefusedAt(steps, k, id))
            <==> (exists k :: RefusedAt(shorter, k, id)) || RefusedAt(steps, |steps| - 1, id)
  {
    forall k | 0 <= k < |shorter| ensures RefusedAt(shorter, k, id) <==> RefusedAt(steps, k, id) {
      assert shorter[..k] == steps[..k];
    }
  }

  /** Exactly when the host is told one thing only.  A command of which it was told that it completed or
      was cancelled must never have been refused: neither before it was received nor on a redelivery
      while another run was current. */
  lemma FinishedCommandsAgreeIff(steps: seq<Step>, id: Id)
    requires var s := Play(steps);
             Told(s, id) && id in s.tracked && s.tracked[id].terminal.Some? && !s.tracked[id].terminal.value.Failed?
    ensures Agree(Play(steps), id) <==> !exists k :: RefusedAt(steps, k, id)
  {
    var s := Play(steps);
    EveryPlayIsSound(steps);
    ToldBesideIff(steps, id);
    var told :| told in s.sent && told.id == id && told.chained && told.terminal.Some?;
    if ToldBeside(s, id) {
      var x :| x in s.sent && x.id == id && !x.chained;
      assert x.terminal != told.terminal;
    }
  }

  /** Any command whose deliveries were never refused is told one thing only. */
  lemma UnrefusedCommandsAgree(steps: seq<Step>, id: Id)
    requires !exists k :: RefusedAt(steps, k, id)
    ensures Agree(Play(steps), id)
  {
    EveryPlayIsSound(steps);
    ToldBesideIff(steps, id);
  }

  /** The failing case: a command completed and the host was told so; it is delivered again while
      another run is current, and the host is told that it failed. */
  lemma RedeliveryTellsAnother(steps: seq<Step>, c: Command, at: Situation, error: string, outcomes: seq<bool>)
    requires var s := Play(steps);
             && Told(s, c.id) && c.id in s.tracked && s.tracked[c.id].identity == c.identity
             && s.tracked[c.id].terminal.Some? && !s.tracked[c.id].terminal.value.Failed?
    requires !c.kind.SessionStop? && !c.kind.TurnCancel? && at.currentRun.Some? && at.currentRun != Some(c.runId)
    requires outcomes != []
    ensures !Agree(Play(steps + [Deliver(c, at, error, outcomes)]), c.id)
  {
    var step, s := Deliver(c, at, error, outcomes), Play(steps);
    PlayOneMore(steps, step);
    ReplayIsRefusedIff(s, c, at);
    ToldBesideIff(steps, c.id);
    HandledBeside(s, step, c.id);
    var t := Handled(s, step);
    var told :| told in s.sent && told.id == c.id && told.chained && told.terminal.Some?;
    EveryPlayIsSound(steps);
    assert told in t.sent;
    var x :| x in t.sent && x.id == c.id && !x.chained;
    assert x.terminal != told.terminal;
  }

  /** And there is such a play: the command is received and accepted, completes, and is delivered again
      once another run is current. */
  lemma SuchRedeliveryHappens(c: Command, now: Situation, later: Situation, result: string, error: string)
    returns (steps: seq<Step>)
    requires c.kind.InputStart? && now == Situation(None, None, false, true, false, false, false)
    requires later.currentRun.Some? && later.currentRun != Some(c.runId)
    ensures !Agree(Play(steps + [Deliver(c, later, error, [true])]), c.id)
  {
    var accept, finish := ANewCommandIsTold([], c, now, Completed(result));
    steps := [] + accept + finish;
    var told := Sent(c.id, Some(Completed(result)), true);
    var s := Play(steps);
    assert s.sent[|s.sent| - 1] == told && told in s.sent;
    RedeliveryTellsAnother(steps, c, later, error, [true]);
  }

  lemma OneSend(id: Id, update: Update)
    ensures Attempts([true], TERMINAL_UPDATE_MAX_ATTEMPTS) == (1, true)
    ensures Repeated(Sent(id, Some(update), true), 1) == [Sent(id, Some(update), true)]
  {
    assert Repeated(Sent(id, Some(update), true), 0) == [];
  }

  // ---------------------------------------------------------------------------------------------
  // What becomes of a delivery.

  /** The `k`-th step delivers a command that is not known yet and is not refused, while there is room. */
  ghost predicate TakenAt(steps: seq<Step>, k: int, id: Id) {
    && 0 <= k < |steps| && steps[k].Deliver? && steps[k].command.id == id
    && var s := Play(steps[..k]);
       id !in s.tracked && !Refuses(s, steps[k].command, steps[k].at) && |s.tracked| < MAX_TRACKED_COMMANDS
  }

  lemma HandledTracks(s: State, step: Step, id: Id)
    ensures id in Handled(s, step).tracked
            <==> id in s.tracked
                 || (step.Deliver? && step.command.id == id && !Refuses(s, step.command, step.at) && |s.tracked| < MAX_TRACKED_COMMANDS)
    ensures id in s.tracked ==> Handled(s, step).tracked[id].identity == s.tracked[id].identity
    ensures id !in s.tracked && id in Handled(s, step).tracked ==> Handled(s, step).tracked[id].identity == step.command.identity
  {
  }

  ghost predicate EverTaken(steps: seq<Step>, id: Id) {
    exists k :: TakenAt(steps, k, id)
  }

  ghost predicate TakenAs(steps: seq<Step>, id: Id, identity: string) {
    forall k :: TakenAt(steps, k, id) ==> steps[k].command.identity == identity
  }

  /** A command is known exactly when a delivery of it was taken on, and under the identity it had then. */
  lemma {:induction false} KnownIff(steps: seq<Step>, id: Id)
    ensures id in Play(steps).tracked <==> EverTaken(steps, id)
    ensures id in Play(steps).tracked ==> TakenAs(steps, id, Play(steps).tracked[id].identity)
  {
    if steps != [] {
      var n := |steps| - 1;
      var shorter := steps[..n];
      KnownIff(shorter, id);
      HandledTracks(Play(shorter), steps[n], id);
      TakenOfPrefix(steps, shorter, id, if id in Play(steps).tracked then Play(steps).tracked[id].identity else "");
    }
  }

  lemma TakenEarlier(steps: seq<Step>, shorter: seq<Step>, k: int, id: Id)
    requires steps != [] && shorter == steps[..|steps| - 1] && k != |steps| - 1
    ensures TakenAt(steps, k, id) <==> TakenAt(shorter, k, id)
    ensures TakenAt(steps, k, id) ==> steps[k] == shorter[k]
  {
    if 0 <= k < |shorter| {
      assert shorter[..k] == steps[..k];
    }
  }

  lemma TakenOfPrefix(steps: seq<Step>, shorter: seq<Step>, id: Id, identity: string)
    requires steps != [] && shorter == steps[..|steps| - 1]
    ensures EverTaken(steps, id) <==> EverTaken(shorter, id) || TakenAt(steps, |steps| - 1, id)
    ensures TakenAs(shorter, id, identity) && (TakenAt(steps, |steps| - 1, id) ==> steps[|steps| - 1].command.identity == identity)
            ==> TakenAs(steps, id, identity)
  {
    forall k | k != |steps| - 1
      ensures TakenAt(steps, k, id) <==> TakenAt(shorter, k, id)
      ensures TakenAt(steps, k, id) ==> steps[k] == shorter[k]
    {
      TakenEarlier(steps, shorter, k, id);
    }
  }

  lemma PlayTogether(steps: seq<Step>, a: seq<Step>, b: seq<Step>)
    ensures Play(steps + (a + b)) == Play(steps + a + b)
  {
    assert steps + (a + b) == steps + a + b;
  }

  lemma PlayTwoMore(steps: seq<Step>, x: Step, y: Step)
    ensures Play(steps + ([x] + [y])) == Handled(Handled(Play(steps), x), y)
  {
    PlayTogether(steps, [x], [y]);
    PlayOneMore(steps, x);
    PlayOneMore(steps + [x], y);
  }

  /** Everything the command was given to do is done, and its chain has not failed. */
  predicate AtRest(t: Tracked) {
    t.jobs == [] && !t.broken && !t.terminalTask
  }

  lemma NewIsTaken(s: State, c: Command, at: Situation)
    requires c.id !in s.tracked && |s.tracked| < MAX_TRACKED_COMMANDS && !Refuses(s, c, at)
    ensures var t := Handled(Handled(s, Deliver(c, at, "", [])), Work(RunJob(c.id, [true])));
            && t.sent == s.sent + [Sent(c.id, None, true)]
            && t.tracked == s.tracked[c.id := Tracked(c.identity, [], false, None, false)]
  {
    var taken := Handled(s, Deliver(c, at, "", []));
    var none: seq<Job> := [];
    assert none + [AcceptedJob] == [AcceptedJob] && [AcceptedJob][1..] == none;
    assert taken.tracked[c.id] == Tracked(c.identity, [AcceptedJob], false, None, false);
  }

  lemma TerminalIsSent(s: State, id: Id, update: Update)
    requires id in s.tracked && AtRest(s.tracked[id])
    ensures var terminal := if s.tracked[id].terminal.Some? then s.tracked[id].terminal.value else update;
            var t := JobRun(Finished(s, id, update).0, id, [true]);
            && t.sent == s.sent + [Sent(id, Some(terminal), true)]
            && t.tracked == s.tracked[id := s.tracked[id].(terminal := Some(terminal))]
  {
    var terminal := if s.tracked[id].terminal.Some? then s.tracked[id].terminal.value else update;
    OneSend(id, terminal);
    var done := Finished(s, id, update).0;
    assert done.tracked[id].jobs == [TerminalJob(terminal)];
    assert done.tracked[id].jobs[1..] == [];
  }

  /** A new command that is not refused can be worked on to its end: the host hears that it is accepted
      and then its terminal, once each and nothing else. */
  lemma ANewCommandIsTold(steps: seq<Step>, c: Command, at: Situation, update: Update) returns (accept: seq<Step>, finish: seq<Step>)
    requires var s := Play(steps); c.id !in s.tracked && |s.tracked| < MAX_TRACKED_COMMANDS && !Refuses(s, c, at)
    ensures |accept| == 2 && accept[0] == Deliver(c, at, "", [])
    ensures Play(steps + accept).sent == Play(steps).sent + [Sent(c.id, None, true)]
    ensures Play(steps + accept + finish).sent == Play(steps + accept).sent + [Sent(c.id, Some(update), true)]
    ensures Play(steps + accept + finish).tracked == Play(steps).tracked[c.id := Tracked(c.identity, [], false, Some(update), false)]
  {
    accept := [Deliver(c, at, "", [])] + [Work(RunJob(c.id, [true]))];
    PlayTwoMore(steps, accept[0], accept[1]);
    NewIsTaken(Play(steps), c, at);
    finish := ItCanFinish(steps + accept, c.id, update);
  }

  lemma ItCanFinish(steps: seq<Step>, id: Id, update: Update) returns (more: seq<Step>)
    requires id in Play(steps).tracked && AtRest(Play(steps).tracked[id])
    ensures var s, t := Play(steps), Play(steps + more);
            var terminal := if s.tracked[id].terminal.Some? then s.tracked[id].terminal.value else update;
            t.sent == s.sent + [Sent(id, Some(terminal), true)] && t.tracked == s.tracked[id := s.tracked[id].(terminal := Some(terminal))]
  {
    more := [Work(Finish(id, update))] + [Work(RunJob(id, [true]))];
    PlayTwoMore(steps, more[0], more[1]);
    TerminalIsSent(Play(steps), id, update);
  }

  /** A finished command that is delivered again and not refused is answered with what was recorded, again. */
  lemma ARedeliveryIsAnswered(steps: seq<Step>, c: Command, at: Situation) returns (more: seq<Step>)
    requires var s := Play(steps);
             && c.id in s.tracked && s.tracked[c.id].identity == c.identity && s.tracked[c.id].terminal.Some?
             && AtRest(s.tracked[c.id]) && !Refuses(s, c, at)
    ensures |more| == 2 && more[0] == Deliver(c, at, "", [])
    ensures var s, t := Play(steps), Play(steps + more);
            t.sent == s.sent + [Sent(c.id, s.tracked[c.id].terminal, true)] && t.tracked == s.tracked
  {
    var s := Play(steps);
    more := [Deliver(c, at, "", [])] + [Work(RunJob(c.id, [true]))];
    PlayTwoMore(steps, more[0], more[1]);
    TerminalIsSent(s, c.id, s.tracked[c.id].terminal.value);
    assert s.tracked[c.id := s.tracked[c.id]] == s.tracked;
  }

  /** A command that is still being worked on, delivered again and not refused, is accepted again. */
  lemma AnActiveRedeliveryIsAnswered(steps: seq<Step>, c: Command, at: Situation) returns (more: seq<Step>)
    requires var s := Play(steps);
             && c.id in s.tracked && s.tracked[c.id].identity == c.identity && s.tracked[c.id].terminal.None?
             && AtRest(s.tracked[c.id]) && !Refuses(s, c, at)
    ensures |more| == 2 && more[0] == Deliver(c, at, "", [])
    ensures var s, t := Play(steps), Play(steps + more);
            t.sent == s.sent + [Sent(c.id, None, true)] && t.tracked == s.tracked
  {
    var s := Play(steps);
    more := [Deliver(c, at, "", [])] + [Work(RunJob(c.id, [true]))];
    PlayTwoMore(steps, more[0], more[1]);
    AcceptedIsSent(s, c.id);
    assert s.tracked[c.id := s.tracked[c.id]] == s.tracked;
  }

  lemma AcceptedIsSent(s: State, id: Id)
    requires id in s.tracked && AtRest(s.tracked[id])
    ensures var t := JobRun(Accepted(s, id), id, [true]);
            t.sent == s.sent + [Sent(id, None, true)] && t.tracked == s.tracked[id := s.tracked[id]]
  {
    var none: seq<Job> := [];
    assert none + [AcceptedJob] == [AcceptedJob] && [AcceptedJob][1..] == none;
    assert Accepted(s, id).tracked[id].jobs == [AcceptedJob];
  }

  /** A known command that comes with another identity is neither worked on nor answered. */
  lemma AnotherIdentityIsIgnored(steps: seq<Step>, c: Command, at: Situation, error: string, outcomes: seq<bool>)
    requires c.id in Play(steps).tracked && Play(steps).tracked[c.id].identity != c.identity
    ensures Play(steps + [Deliver(c, at, error, outcomes)]) == Play(steps)
  {
    PlayOneMore(steps, Deliver(c, at, error, outcomes));
  }
}
