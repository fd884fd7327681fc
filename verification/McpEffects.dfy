/** One external tool effect, the durable ledger that records it, and any number of drivers that are
    handed its command: side by side, again after a crash, with requests and replies lost, delayed
    or repeated. */
module McpEffects {
  import opened Wrappers

  /** A driver's claim token; every delivery of the command draws a new one. */
  type Token = nat

  datatype Command = Command(requestId: string, serverId: string, toolName: string)

  datatype ToolResult = ToolResult(requestId: string, serverId: string, toolName: string, outputText: string)

  datatype Settlement = SettleSucceeded(outcome: ToolResult) | SettleUnknown

  /** The effect as the ledger keeps it. */
  datatype Entry = Intent | Claimed(token: Token) | Succeeded(result: ToolResult) | Unknown

  /** The effect as a driver is told about it. */
  datatype Reply = SaysIntent | SaysClaimed | SaysSucceeded(reported: ToolResult) | SaysUnknown

  predicate Matches(r: ToolResult, c: Command) {
    r.requestId == c.requestId && r.serverId == c.serverId && r.toolName == c.toolName
  }

  /** What a successful execution is settled with: the tool's text under the command's identity. */
  function Durable(c: Command, outputText: string): (r: ToolResult)
    ensures Matches(r, c)
  {
    ToolResult(c.requestId, c.serverId, c.toolName, outputText)
  }

  // ---------------------------------------------------------------------------------------------
  // The ledger.

  function Observed(e: Entry): Reply {
    match e
    case Intent => SaysIntent
    case Claimed(_) => SaysClaimed
    case Succeeded(r) => SaysSucceeded(r)
    case Unknown => SaysUnknown
  }

  /** A claim is granted to the first token, and again to the same token. */
  function ClaimedBy(e: Entry, t: Token): Entry {
    if e.Intent? then Claimed(t) else e
  }

  function ClaimReply(e: Entry, t: Token): Reply {
    match e
    case Intent => SaysClaimed
    case Claimed(owner) => if owner == t then SaysClaimed else SaysUnknown
    case Succeeded(r) => SaysSucceeded(r)
    case Unknown => SaysUnknown
  }

  /** Only the token that holds the claim settles it, once. */
  function SettledBy(e: Entry, t: Token, s: Settlement): Entry {
    if e == Claimed(t) then (if s.SettleSucceeded? then Succeeded(s.outcome) else Unknown) else e
  }

  /** A fenced call may be repeated: the second one changes nothing and hears the same. */
  lemma RepeatingIsSafe(e: Entry, t: Token, s: Settlement)
    ensures ClaimedBy(ClaimedBy(e, t), t) == ClaimedBy(e, t) && ClaimReply(ClaimedBy(e, t), t) == ClaimReply(e, t)
    ensures SettledBy(SettledBy(e, t, s), t, s) == SettledBy(e, t, s)
    ensures forall u :: u != t ==> !ClaimReply(ClaimedBy(e, t), u).SaysClaimed? || e == Claimed(u)
  {
  }

  // ---------------------------------------------------------------------------------------------
  // A driver's attempt at the command.

  datatype Phase =
    | Observing
    | Preparing
    | Claiming(tries: nat)
    | Executing
    | Settling(settlement: Settlement, tries: nat)
    | Resolved(result: ToolResult)
    | Completed(result: ToolResult)
    | Failed
    | Cancelled
    | Unsettled
    | Crashed

  /** What a state of the effect means for the command: only a success with the command's own identity
      gives a result, and only an effect known to be unknown fails it. */
  function Resolve(c: Command, reply: Reply, sameEffect: bool): Phase {
    if !sameEffect then Unsettled
    else match reply
      case SaysSucceeded(r) => if Matches(r, c) then Resolved(r) else Unsettled
      case SaysUnknown => Failed
      case _ => Unsettled
  }

  function AfterObserving(c: Command, reply: Reply): Phase {
    if reply.SaysIntent? then Preparing else Resolve(c, reply, true)
  }

  function AfterClaim(c: Command, reply: Reply, sameEffect: bool): Phase {
    if reply.SaysClaimed? && sameEffect then Executing else Resolve(c, reply, sameEffect)
  }

  /** A fenced call is made once more after its first failure; after the second the effect stays
      unsettled. */
  function AfterError(p: Phase): Phase {
    match p
    case Claiming(tries) => if tries < 2 then Claiming(tries + 1) else Unsettled
    case Settling(s, tries) => if tries < 2 then Settling(s, tries + 1) else Unsettled
    case _ => p
  }

  // ---------------------------------------------------------------------------------------------
  // The world.

  datatype Message =
    | ObserveRequest(token: Token)
    | ClaimRequest(token: Token)
    | SettleRequest(token: Token, settlement: Settlement)
    | Observes(token: Token, reply: Reply)
    | Claims(token: Token, reply: Reply)
    | Settles(token: Token, reply: Reply)

  /** An execution of the tool, with what it returned once it has. */
  datatype Execution = Execution(token: Token, returned: Option<ToolResult>)

  /** Messages stay in the network: each may arrive any number of times, or never.  `granted` is the
      token the ledger first granted the claim to. */
  datatype World = World(command: Command, entry: Entry, granted: Option<Token>, attempts: map<Token, Phase>,
                         network: set<Message>, executions: seq<Execution>, updates: seq<ToolResult>)

  datatype Step =
    | Begin(token: Token)
    | Crash(token: Token)
    | LedgerObserves(token: Token)
    | ObserveReplied(token: Token, reply: Reply)
    | FailEarly(token: Token, cancelled: bool)
    | Prepared(token: Token)
    | LedgerClaims(token: Token)
    | ClaimReplied(token: Token, reply: Reply, sameEffect: bool)
    | CallFails(token: Token)
    | ToolReturns(token: Token, outputText: string)
    | ToolFails(token: Token)
    | LedgerSettles(token: Token, settlement: Settlement)
    | SettleReplied(token: Token, reply: Reply, sameEffect: bool)
    | LedgerGivesUp
    | SendCompleted(token: Token)

  function Moved(w: World, t: Token, p: Phase): World {
    w.(attempts := w.attempts[t := p])
  }

  function Settle(w: World, t: Token, s: Settlement): World {
    Moved(w, t, Settling(s, 1)).(network := w.network + {SettleRequest(t, s)})
  }

  function Returned(xs: seq<Execution>, t: Token, r: ToolResult): seq<Execution> {
    if xs != [] && xs[0].token == t then [Execution(t, Some(r))] + xs[1..] else xs
  }

  /** One step; a step that is not possible leaves the world alone. */
  function Next(w: World, step: Step): World {
    match step
    case Begin(t) => if t in w.attempts then w else Moved(w, t, Observing).(network := w.network + {ObserveRequest(t)})
    case Crash(t) => if t in w.attempts then Moved(w, t, Crashed) else w
    case LedgerObserves(t) =>
      if ObserveRequest(t) in w.network then w.(network := w.network + {Observes(t, Observed(w.entry))}) else w
    case ObserveReplied(t, reply) =>
      if t in w.attempts && w.attempts[t].Observing? && Observes(t, reply) in w.network then
        Moved(w, t, AfterObserving(w.command, reply))
      else w
    case FailEarly(t, cancelled) =>
      if t in w.attempts && (w.attempts[t].Observing? || w.attempts[t].Preparing?) then
        Moved(w, t, if cancelled then Cancelled else Failed)
      else w
    case Prepared(t) =>
      if t in w.attempts && w.attempts[t].Preparing? then
        Moved(w, t, Claiming(1)).(network := w.network + {ClaimRequest(t)})
      else w
    case LedgerClaims(t) =>
      if ClaimRequest(t) in w.network then
        w.(entry := ClaimedBy(w.entry, t), granted := if w.entry.Intent? then Some(t) else w.granted,
           network := w.network + {Claims(t, ClaimReply(w.entry, t))})
      else w
    case ClaimReplied(t, reply, sameEffect) =>
      if t in w.attempts && w.attempts[t].Claiming? && Claims(t, reply) in w.network then
        var p := AfterClaim(w.command, reply, sameEffect);
        Moved(w, t, p).(executions := if p.Executing? then w.executions + [Execution(t, None)] else w.executions)
      else w
    case CallFails(t) => if t in w.attempts then Moved(w, t, AfterError(w.attempts[t])) else w
    case ToolReturns(t, outputText) =>
      if t in w.attempts && w.attempts[t].Executing? then
        var r := Durable(w.command, outputText);
        Settle(w, t, SettleSucceeded(r)).(executions := Returned(w.executions, t, r))
      else w
    case ToolFails(t) => if t in w.attempts && w.attempts[t].Executing? then Settle(w, t, SettleUnknown) else w
    case LedgerSettles(t, s) =>
      if SettleRequest(t, s) in w.network && !w.entry.Intent? && (w.entry.Claimed? ==> w.entry.token == t) then
        w.(entry := SettledBy(w.entry, t, s), network := w.network + {Settles(t, Observed(SettledBy(w.entry, t, s)))})
      else w
    case SettleReplied(t, reply, sameEffect) =>
      if t in w.attempts && w.attempts[t].Settling? && Settles(t, reply) in w.network then
        Moved(w, t, Resolve(w.command, reply, sameEffect))
      else w
    case LedgerGivesUp => if w.entry.Intent? || w.entry.Claimed? then w.(entry := Unknown) else w
    case SendCompleted(t) =>
      if t in w.attempts && w.attempts[t].Resolved? then
        Moved(w, t, Completed(w.attempts[t].result)).(updates := w.updates + [w.attempts[t].result])
      else w
  }

  function Run(c: Command, steps: seq<Step>): World {
    if steps == [] then World(c, Intent, None, map[], {}, [], [])
    else Next(Run(c, steps[..|steps| - 1]), steps[|steps| - 1])
  }

  // ---------------------------------------------------------------------------------------------
  // The invariant.

  predicate BeforeClaim(p: Phase) {
    p.Observing? || p.Preparing? || p.Claiming?
  }

  predicate HasResult(p: Phase) {
    p.Resolved? || p.Completed?
  }

  ghost predicate EntrySound(w: World) {
    && (w.entry.Intent? ==> w.granted.None?)
    && (w.entry.Claimed? ==> w.granted == Some(w.entry.token))
    && (w.entry.Succeeded? ==>
          |w.executions| == 1 && w.executions[0].returned == Some(w.entry.result))
  }

  /** The tool was executed at most once, by the token the claim was granted to. */
  ghost predicate ExecutionsSound(w: World) {
    && |w.executions| <= 1
    && (w.executions != [] ==>
          var t := w.executions[0].token;
          w.granted == Some(t) && t in w.attempts && !BeforeClaim(w.attempts[t]))
  }

  ghost predicate MessageSound(w: World, m: Message) {
    match m
    case ObserveRequest(t) => true
    case ClaimRequest(t) => true
    case SettleRequest(t, s) =>
      && |w.executions| == 1 && w.executions[0].token == t
      && (s.SettleSucceeded? ==> w.executions[0].returned == Some(s.outcome))
    case Claims(t, reply) =>
      (reply.SaysClaimed? ==> w.granted == Some(t)) && (reply.SaysSucceeded? ==> w.entry == Succeeded(reply.reported))
    case Observes(t, reply) =>
      reply.SaysSucceeded? ==> w.entry == Succeeded(reply.reported)
    case Settles(t, reply) =>
      reply.SaysSucceeded? ==> w.entry == Succeeded(reply.reported)
  }

  ghost predicate PhaseSound(w: World, t: Token, p: Phase) {
    && (p.Executing? ==> |w.executions| == 1 && w.executions[0] == Execution(t, None))
    && (HasResult(p) ==> w.entry == Succeeded(p.result) && Matches(p.result, w.command))
  }

  ghost predicate Sound(w: World) {
    && EntrySound(w) && ExecutionsSound(w)
    && (forall m :: m in w.network ==> MessageSound(w, m))
    && (forall t :: t in w.attempts ==> PhaseSound(w, t, w.attempts[t]))
    && (forall r :: r in w.updates ==> w.entry == Succeeded(r) && Matches(r, w.command))
  }

  /** Whether a step is the ledger's own. */
  predicate OfLedger(step: Step) {
    step.LedgerObserves? || step.LedgerClaims? || step.LedgerSettles? || step.LedgerGivesUp?
  }

  /** What the ledger does keeps every claim it granted and every success it recorded. */
  lemma LedgerIsSteady(w: World, step: Step)
    requires EntrySound(w) && OfLedger(step)
    ensures var v := Next(w, step);
            && (w.granted.Some? ==> v.granted == w.granted) && (w.entry.Succeeded? ==> v.entry == w.entry)
            && v.attempts == w.attempts && v.executions == w.executions && v.updates == w.updates
            && v.command == w.command && w.network <= v.network
  {
  }

  lemma LedgerStepIsSound(w: World, step: Step)
    requires Sound(w) && OfLedger(step)
    ensures Sound(Next(w, step))
  {
    var v := Next(w, step);
    LedgerIsSteady(w, step);
    assert EntrySound(v) by {
      if step.LedgerSettles? {
        assert SettleRequest(step.token, step.settlement) in w.network ==> MessageSound(w, SettleRequest(step.token, step.settlement));
      }
    }
    forall m | m in v.network ensures MessageSound(v, m) {
      if m in w.network {
        assert MessageSound(w, m);
      }
    }
  }

  /** What a driver does leaves the ledger's entry alone. */
  lemma DriverStepIsSound(w: World, step: Step)
    requires Sound(w) && !OfLedger(step) && !step.ClaimReplied? && !step.ToolReturns? && !step.ToolFails?
    ensures Sound(Next(w, step))
  {
    var v := Next(w, step);
    if step.ObserveReplied? {
      assert Observes(step.token, step.reply) in w.network ==> MessageSound(w, Observes(step.token, step.reply));
    }
    if step.SettleReplied? {
      assert Settles(step.token, step.reply) in w.network ==> MessageSound(w, Settles(step.token, step.reply));
    }
    forall m | m in v.network ensures MessageSound(v, m) {
      assert m in w.network ==> MessageSound(w, m);
    }
  }

  lemma ClaimReplyIsSound(w: World, step: Step)
    requires Sound(w) && step.ClaimReplied?
    ensures Sound(Next(w, step))
  {
    var v := Next(w, step);
    if v != w {
      assert MessageSound(w, Claims(step.token, step.reply));
      assert w.executions == [] || w.executions[0].token != step.token;
      forall m | m in v.network ensures MessageSound(v, m) {
        assert MessageSound(w, m);
      }
    }
  }

  lemma ToolStepIsSound(w: World, step: Step)
    requires Sound(w) && (step.ToolReturns? || step.ToolFails?)
    ensures Sound(Next(w, step))
  {
    var v := Next(w, step);
    if v != w {
      assert PhaseSound(w, step.token, Executing);
      forall m | m in v.network ensures MessageSound(v, m) {
        assert m in w.network ==> MessageSound(w, m);
      }
    }
  }

  lemma NextIsSound(w: World, step: Step)
    requires Sound(w)
    ensures Sound(Next(w, step))
  {
    if OfLedger(step) {
      LedgerStepIsSound(w, step);
    } else if step.ClaimReplied? {
      ClaimReplyIsSound(w, step);
    } else if step.ToolReturns? || step.ToolFails? {
      ToolStepIsSound(w, step);
    } else {
      DriverStepIsSound(w, step);
    }
  }

  lemma {:induction false} EveryRunIsSound(c: Command, steps: seq<Step>)
    ensures Sound(Run(c, steps)) && Run(c, steps).command == c
  {
    if steps != [] {
      EveryRunIsSound(c, steps[..|steps| - 1]);
      NextIsSound(Run(c, steps[..|steps| - 1]), steps[|steps| - 1]);
    }
  }

  /** Across any number of drivers, restarts and redeliveries the tool is executed at most once. */
  lemma AtMostOneExecution(c: Command, steps: seq<Step>)
    ensures |Run(c, steps).executions| <= 1
  {
    EveryRunIsSound(c, steps);
  }

  /** Every completed update carries the one result that the ledger holds as succeeded, which is what
      the one execution returned, and it is this command's. */
  lemma CompletedMeansSucceeded(c: Command, steps: seq<Step>, r: ToolResult)
    requires r in Run(c, steps).updates
    ensures var w := Run(c, steps);
            w.entry == Succeeded(r) && Matches(r, c) && |w.executions| == 1 && w.executions[0].returned == Some(r)
  {
    EveryRunIsSound(c, steps);
  }

  // ---------------------------------------------------------------------------------------------
  // What can always be reached.

  lemma RunOneMore(c: Command, steps: seq<Step>, x: Step)
    ensures Run(c, steps + [x]) == Next(Run(c, steps), x)
  {
    assert (steps + [x])[..|steps|] == steps;
  }

  function Three(w: World, x: Step, y: Step, z: Step): World {
    Next(Next(Next(w, x), y), z)
  }

  lemma RunThreeMore(c: Command, steps: seq<Step>, x: Step, y: Step, z: Step)
    ensures Run(c, steps + [x] + [y] + [z]) == Three(Run(c, steps), x, y, z)
  {
    RunOneMore(c, steps, x);
    RunOneMore(c, steps + [x], y);
    RunOneMore(c, steps + [x] + [y], z);
  }

  lemma RunTogether(c: Command, steps: seq<Step>, a: seq<Step>, b: seq<Step>)
    ensures Run(c, steps + (a + b)) == Run(c, steps + a + b)
  {
    assert steps + (a + b) == steps + a + b;
  }

  /** Only the attempt under the token has moved, and what was sent stays in the network. */
  ghost predicate OnlyMoved(w: World, v: World, t: Token, p: Phase) {
    v == Moved(w, t, p).(network := v.network) && w.network <= v.network
  }

  /** A new driver can always learn what the ledger holds. */
  lemma DriverCanAsk(c: Command, steps: seq<Step>, t: Token) returns (more: seq<Step>)
    requires t !in Run(c, steps).attempts
    ensures var w := Run(c, steps);
            OnlyMoved(w, Run(c, steps + more), t, if w.entry.Intent? then Preparing else Resolve(c, Observed(w.entry), true))
  {
    var w := Run(c, steps);
    var x, y, z := Begin(t), LedgerObserves(t), ObserveReplied(t, Observed(w.entry));
    more := [x] + [y] + [z];
    assert steps + more == steps + [x] + [y] + [z];
    RunThreeMore(c, steps, x, y, z);
    EveryRunIsSound(c, steps);
    BeginsAndLearns(w, t);
  }

  lemma BeginsAndLearns(w: World, t: Token)
    requires t !in w.attempts
    ensures OnlyMoved(w, Three(w, Begin(t), LedgerObserves(t), ObserveReplied(t, Observed(w.entry))), t,
                      AfterObserving(w.command, Observed(w.entry)))
  {
    var x := Next(w, Begin(t));
    var y := Next(x, LedgerObserves(t));
    assert y.attempts == w.attempts[t := Observing] && y.entry == w.entry;
    assert Next(y, ObserveReplied(t, Observed(w.entry))).attempts == w.attempts[t := AfterObserving(w.command, Observed(w.entry))];
  }

  lemma ClaimsAndExecutes(w: World, t: Token)
    requires t in w.attempts && w.attempts[t].Preparing? && w.entry.Intent?
    ensures var v := Three(w, Prepared(t), LedgerClaims(t), ClaimReplied(t, SaysClaimed, true));
            && t in v.attempts && v.attempts[t].Executing? && v.entry == Claimed(t)
            && v.executions == w.executions + [Execution(t, None)] && v.updates == w.updates && v.command == w.command
  {
  }

  lemma SettlesAndResolves(w: World, t: Token, outputText: string)
    requires t in w.attempts && w.attempts[t].Executing? && w.entry == Claimed(t) && w.executions == [Execution(t, None)]
    ensures var r := Durable(w.command, outputText);
            var v := Three(w, ToolReturns(t, outputText), LedgerSettles(t, SettleSucceeded(r)), SettleReplied(t, SaysSucceeded(r), true));
            && t in v.attempts && v.attempts[t] == Resolved(r) && v.entry == Succeeded(r)
            && v.executions == [Execution(t, Some(r))] && v.updates == w.updates && v.command == w.command
  {
  }

  lemma DriverCanExecute(c: Command, steps: seq<Step>, t: Token) returns (more: seq<Step>)
    requires var w := Run(c, steps); t in w.attempts && w.attempts[t].Preparing? && w.entry.Intent?
    ensures var w, v := Run(c, steps), Run(c, steps + more);
            && t in v.attempts && v.attempts[t].Executing? && v.entry == Claimed(t)
            && v.executions == [Execution(t, None)] && v.updates == w.updates
  {
    var x, y, z := Prepared(t), LedgerClaims(t), ClaimReplied(t, SaysClaimed, true);
    EveryRunIsSound(c, steps);
    RunThreeMore(c, steps, x, y, z);
    ClaimsAndExecutes(Run(c, steps), t);
    more := [x] + [y] + [z];
    assert steps + more == steps + [x] + [y] + [z];
  }

  lemma DriverCanSettle(c: Command, steps: seq<Step>, t: Token, outputText: string) returns (more: seq<Step>)
    requires var w := Run(c, steps);
             t in w.attempts && w.attempts[t].Executing? && w.entry == Claimed(t) && w.executions == [Execution(t, None)]
    ensures var w, v, r := Run(c, steps), Run(c, steps + more), Durable(c, outputText);
            && t in v.attempts && v.attempts[t] == Resolved(r) && v.entry == Succeeded(r)
            && v.executions == [Execution(t, Some(r))] && v.updates == w.updates
  {
    var r := Durable(c, outputText);
    var x, y, z := ToolReturns(t, outputText), LedgerSettles(t, SettleSucceeded(r)), SettleReplied(t, SaysSucceeded(r), true);
    EveryRunIsSound(c, steps);
    RunThreeMore(c, steps, x, y, z);
    SettlesAndResolves(Run(c, steps), t, outputText);
    more := [x] + [y] + [z];
    assert steps + more == steps + [x] + [y] + [z];
  }

  lemma DriverCanSend(c: Command, steps: seq<Step>, t: Token) returns (more: seq<Step>)
    requires t in Run(c, steps).attempts && Run(c, steps).attempts[t].Resolved?
    ensures var w, v := Run(c, steps), Run(c, steps + more);
            && t in v.attempts && v.attempts[t] == Completed(w.attempts[t].result) && v.entry == w.entry
            && v.executions == w.executions && v.updates == w.updates + [w.attempts[t].result]
  {
    more := [SendCompleted(t)];
    RunOneMore(c, steps, SendCompleted(t));
  }

  lemma DriverCanFinish(c: Command, steps: seq<Step>, t: Token, outputText: string) returns (more: seq<Step>)
    requires var w := Run(c, steps);
             t in w.attempts && w.attempts[t].Executing? && w.entry == Claimed(t) && w.executions == [Execution(t, None)]
    ensures var w, v, r := Run(c, steps), Run(c, steps + more), Durable(c, outputText);
            && t in v.attempts && v.attempts[t] == Completed(r) && v.entry == Succeeded(r)
            && v.executions == [Execution(t, Some(r))] && v.updates == w.updates + [r]
  {
    var settled := DriverCanSettle(c, steps, t, outputText);
    var sent := DriverCanSend(c, steps + settled, t);
    more := settled + sent;
    RunTogether(c, steps, settled, sent);
  }

  lemma DriverCanWork(c: Command, steps: seq<Step>, t: Token, outputText: string) returns (more: seq<Step>)
    requires var w := Run(c, steps); t in w.attempts && w.attempts[t].Preparing? && w.entry.Intent?
    ensures var w, v, r := Run(c, steps), Run(c, steps + more), Durable(c, outputText);
            && t in v.attempts && v.attempts[t] == Completed(r) && v.entry == Succeeded(r)
            && v.executions == [Execution(t, Some(r))] && v.updates == w.updates + [r]
  {
    var executed := DriverCanExecute(c, steps, t);
    var finished := DriverCanFinish(c, steps + executed, t, outputText);
    more := executed + finished;
    RunTogether(c, steps, executed, finished);
  }

  /** An effect nobody has claimed can always be completed by a new driver, with what the tool returns to it. */
  lemma AnIntentCompletes(c: Command, steps: seq<Step>, t: Token, outputText: string) returns (more: seq<Step>)
    requires t !in Run(c, steps).attempts && Run(c, steps).entry.Intent?
    ensures var w, v, r := Run(c, steps), Run(c, steps + more), Durable(c, outputText);
            && t in v.attempts && v.attempts[t] == Completed(r) && v.entry == Succeeded(r)
            && v.executions == [Execution(t, Some(r))] && v.updates == w.updates + [r]
  {
    var asked := DriverCanAsk(c, steps, t);
    var worked := DriverCanWork(c, steps + asked, t, outputText);
    more := asked + worked;
    RunTogether(c, steps, asked, worked);
  }

  /** After the effect was recorded as succeeded, a new driver can always complete with it, without executing. */
  lemma ARecordedSuccessCompletes(c: Command, steps: seq<Step>, t: Token) returns (more: seq<Step>)
    requires t !in Run(c, steps).attempts && Run(c, steps).entry.Succeeded? && Matches(Run(c, steps).entry.result, c)
    ensures var w, v := Run(c, steps), Run(c, steps + more);
            v.updates == w.updates + [w.entry.result] && v.entry == w.entry && v.executions == w.executions
  {
    var asked := DriverCanAsk(c, steps, t);
    var sent := DriverCanSend(c, steps + asked, t);
    more := asked + sent;
    RunTogether(c, steps, asked, sent);
  }

  /** A claim whose driver never comes back does not block for ever: once the ledger has given up on it, a new
      driver can fail the command, and until then none does. */
  lemma AnAbandonedClaimFails(c: Command, steps: seq<Step>, t: Token, u: Token) returns (early: seq<Step>, more: seq<Step>)
    requires t !in Run(c, steps).attempts && u !in Run(c, steps).attempts && t != u && Run(c, steps).entry.Claimed?
    ensures OnlyMoved(Run(c, steps), Run(c, steps + early), t, Unsettled)
    ensures var w := Run(c, steps + early + more); u in w.attempts && w.attempts[u].Failed? && w.entry.Unknown?
  {
    early := DriverCanAsk(c, steps, t);
    var w := Run(c, steps + early);
    RunOneMore(c, steps + early, LedgerGivesUp);
    var asked := DriverCanAsk(c, steps + early + [LedgerGivesUp], u);
    more := [LedgerGivesUp] + asked;
    assert steps + early + more == steps + early + [LedgerGivesUp] + asked;
  }

  /** A fenced call survives one failure and no second one. */
  lemma CallsAreMadeTwice(w: World, t: Token)
    requires t in w.attempts && (w.attempts[t] == Claiming(1) || (w.attempts[t].Settling? && w.attempts[t].tries == 1))
    ensures var once := Next(w, CallFails(t));
            && (w.attempts[t].Claiming? ==> once.attempts[t].Claiming?)
            && (w.attempts[t].Settling? ==> once.attempts[t].Settling? && once.attempts[t].settlement == w.attempts[t].settlement)
            && Next(once, CallFails(t)).attempts[t].Unsettled?
  {
    var once := Next(w, CallFails(t));
    assert once.attempts[t] == AfterError(w.attempts[t]);
    assert Next(once, CallFails(t)).attempts[t] == AfterError(once.attempts[t]);
  }
}
