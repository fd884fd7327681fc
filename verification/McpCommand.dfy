/** One driver's run of an `mcp.execute` command against the ledger, call by call. */
module McpCommand {
  import opened Wrappers
  import opened McpEffects

  /** How one call to the ledger goes: it works, the request is lost, or only the reply is. */
  datatype Fault = Works | RequestLost | ReplyLost

  /** How the `i`-th of the calls to come goes; those after the listed ones work. */
  function FaultAt(faults: seq<Fault>, i: nat): Fault {
    if i < |faults| then faults[i] else Works
  }

  function After(faults: seq<Fault>, calls: nat): seq<Fault> {
    if calls <= |faults| then faults[calls..] else []
  }

  /** Of a call and its one repetition, one works. */
  predicate Answered(faults: seq<Fault>, i: nat) {
    FaultAt(faults, i).Works? || FaultAt(faults, i + 1).Works?
  }

  /** How many calls are made: the second only after the first has failed. */
  function Calls(faults: seq<Fault>, i: nat): nat {
    if FaultAt(faults, i).Works? then 1 else 2
  }

  class Ledger {
    var entry: Entry
    var faults: seq<Fault>

    constructor (e: Entry, faults: seq<Fault>)
      ensures entry == e && this.faults == faults
    {
      this.entry := e;
      this.faults := faults;
    }

    method NextFault() returns (f: Fault)
      modifies this`faults
      ensures f == FaultAt(old(faults), 0) && faults == After(old(faults), 1)
    {
      f := Works;
      if faults != [] {
        f := faults[0];
        faults := faults[1..];
      }
    }

    method Observe() returns (r: Option<Reply>)
      modifies this`faults
      ensures r == if FaultAt(old(faults), 0).Works? then Some(Observed(entry)) else None
      ensures faults == After(old(faults), 1)
    {
      var f := NextFault();
      r := if f.Works? then Some(Observed(entry)) else None;
    }

    method Claim(t: Token) returns (r: Option<Reply>)
      modifies this
      ensures entry == old(entry) || entry == ClaimedBy(old(entry), t)
      ensures r.Some? ==> entry == ClaimedBy(old(entry), t) && r.value == ClaimReply(old(entry), t)
      ensures r.Some? <==> FaultAt(old(faults), 0).Works?
      ensures faults == After(old(faults), 1)
    {
      var f := NextFault();
      if f.RequestLost? {
        return None;
      }
      r := if f.Works? then Some(ClaimReply(entry, t)) else None;
      entry := ClaimedBy(entry, t);
    }

    /** Refuses a token that does not hold the claim of an unsettled effect. */
    method Settle(t: Token, s: Settlement) returns (r: Option<Reply>)
      modifies this
      ensures entry == old(entry) || entry == SettledBy(old(entry), t, s)
      ensures r.Some? ==> entry == SettledBy(old(entry), t, s) && r.value == Observed(entry)
      ensures !RefusesSettlement(old(entry), t) ==> (r.Some? <==> FaultAt(old(faults), 0).Works?)
      ensures faults == After(old(faults), 1)
    {
      var f := NextFault();
      if f.RequestLost? || RefusesSettlement(entry, t) {
        return None;
      }
      entry := SettledBy(entry, t, s);
      r := if f.Works? then Some(Observed(entry)) else None;
    }
  }

  /** The token holds no claim of the unsettled effect. */
  predicate RefusesSettlement(e: Entry, t: Token) {
    e.Intent? || (e.Claimed? && e.token != t)
  }

  /** Claims, and once more if that fails.  Whatever got lost, the claim is made at most once, and an
      answer is the answer to the first claim that arrived. */
  method RetryClaim(ledger: Ledger, t: Token) returns (r: Option<Reply>)
    modifies ledger
    ensures ledger.entry == old(ledger.entry) || ledger.entry == ClaimedBy(old(ledger.entry), t)
    ensures r.Some? ==> ledger.entry == ClaimedBy(old(ledger.entry), t) && r.value == ClaimReply(old(ledger.entry), t)
    ensures r.Some? <==> Answered(old(ledger.faults), 0)
    ensures ledger.faults == After(old(ledger.faults), Calls(old(ledger.faults), 0))
  {
    r := ledger.Claim(t);
    if r.None? {
      RepeatingIsSafe(old(ledger.entry), t, SettleUnknown);
      r := ledger.Claim(t);
    }
  }

  method RetrySettle(ledger: Ledger, t: Token, s: Settlement) returns (r: Option<Reply>)
    modifies ledger
    ensures ledger.entry == old(ledger.entry) || ledger.entry == SettledBy(old(ledger.entry), t, s)
    ensures r.Some? ==> ledger.entry == SettledBy(old(ledger.entry), t, s) && r.value == Observed(ledger.entry)
    ensures !RefusesSettlement(old(ledger.entry), t) ==> (r.Some? <==> Answered(old(ledger.faults), 0))
  {
    r := ledger.Settle(t, s);
    if r.None? {
      RepeatingIsSafe(old(ledger.entry), t, s);
      r := ledger.Settle(t, s);
    }
  }

  /** The settlement, called after the claim, is answered. */
  predicate SettlementAnswered(faults: seq<Fault>, i: nat) {
    Answered(faults, i + Calls(faults, i))
  }

  /** Claims the effect and, only when the claim is granted, executes the tool and settles; `tool` is
      the text the tool returns, if it returns.  Cancellation counts until the claim is made. */
  method ExecuteMcpIntent(ledger: Ledger, c: Command, t: Token, prepares: bool, aborted: bool, tool: Option<string>)
    returns (p: Phase, executed: bool)
    modifies ledger
    ensures p.Resolved? || p.Failed? || p.Cancelled? || p.Unsettled?
    ensures executed ==> ClaimReply(old(ledger.entry), t).SaysClaimed? && prepares && !aborted
    ensures !executed ==> ledger.entry == old(ledger.entry) || ledger.entry == ClaimedBy(old(ledger.entry), t)
    ensures p.Resolved? ==> ledger.entry == Succeeded(p.result) && Matches(p.result, c)
    ensures executed && p.Resolved? ==> tool.Some? && p.result == Durable(c, tool.value)
    ensures executed && p.Failed? ==> ledger.entry.Unknown? && tool.None?
    ensures p.Cancelled? ==> aborted && !executed && ledger.entry == old(ledger.entry)
    ensures old(ledger.entry).Intent? ==>
              && (executed <==> prepares && !aborted && Answered(old(ledger.faults), 0))
              && (p.Resolved? <==> executed && tool.Some? && SettlementAnswered(old(ledger.faults), 0))
              && (p.Failed? <==> !aborted && (!prepares || (executed && tool.None? && SettlementAnswered(old(ledger.faults), 0))))
              && (p.Cancelled? <==> aborted)
  {
    executed := false;
    if !prepares || aborted {
      p := if aborted then Cancelled else Failed;
      return;
    }
    var claim := RetryClaim(ledger, t);
    if claim.None? {
      return Unsettled, false;
    }
    if !claim.value.SaysClaimed? {
      p := Resolve(c, claim.value, true);
      return;
    }
    executed := true;
    var settlement := if tool.Some? then SettleSucceeded(Durable(c, tool.value)) else SettleUnknown;
    var settled := RetrySettle(ledger, t, settlement);
    p := if settled.None? then Unsettled else Resolve(c, settled.value, true);
  }

  /** The circumstances of a run of the command: `running` and `reported` say whether the host took the
      update before the tool call and the one after it, `abortedFirst` whether the command was cancelled
      before the ledger was asked and `aborted` whether it was before the claim, `prepares` whether the call
      could be prepared and `tool` is the text the tool returns, if it returns. */
  datatype Course = Course(running: bool, abortedFirst: bool, prepares: bool, aborted: bool, tool: Option<string>, reported: bool)

  /** The ledger is asked, and says what it holds. */
  predicate Learns(at: Course, faults: seq<Fault>) {
    at.running && !at.abortedFirst && FaultAt(faults, 0).Works?
  }

  /** Exactly when the tool is executed. */
  predicate Executes(e: Entry, at: Course, faults: seq<Fault>) {
    Learns(at, faults) && e.Intent? && at.prepares && !at.aborted && Answered(faults, 1)
  }

  /** Exactly when the run ends with the ledger's success: one that was recorded before, or the one of
      this execution. */
  predicate Succeeds(e: Entry, c: Command, at: Course, faults: seq<Fault>) {
    || (Learns(at, faults) && e.Succeeded? && Matches(e.result, c))
    || (Executes(e, at, faults) && at.tool.Some? && SettlementAnswered(faults, 1))
  }

  /** Exactly when the command has failed: before the ledger was asked or could answer, because the ledger
      knows that nobody knows, or because the tool did not return and the ledger knows that. */
  predicate Fails(e: Entry, at: Course, faults: seq<Fault>) {
    || (!at.running && !at.abortedFirst)
    || (at.running && !at.abortedFirst && !at.aborted && (FaultAt(faults, 0).Works? ==> e.Intent? && !at.prepares))
    || (Learns(at, faults) && e.Unknown?)
    || (Executes(e, at, faults) && at.tool.None? && SettlementAnswered(faults, 1))
  }

  /** Exactly when the command is cancelled: before the claim, unless the ledger says what became of it. */
  predicate IsCancelled(e: Entry, at: Course, faults: seq<Fault>) {
    at.abortedFirst || (at.running && at.aborted && (FaultAt(faults, 0).Works? ==> e.Intent?))
  }

  /** The command from its delivery to its terminal update: completed with the ledger's own success,
      failed or cancelled, each after the host has taken the tool call's last update; or left without any
      terminal, unsettled or with a result the ledger keeps. */
  method RunMcpCommand(ledger: Ledger, c: Command, t: Token, at: Course) returns (p: Phase, executed: bool)
    modifies ledger
    ensures p.Completed? || p.Resolved? || p.Failed? || p.Cancelled? || p.Unsettled?
    ensures executed <==> Executes(old(ledger.entry), at, old(ledger.faults))
    ensures HasResult(p) <==> Succeeds(old(ledger.entry), c, at, old(ledger.faults))
    ensures HasResult(p) ==> ledger.entry == Succeeded(p.result) && Matches(p.result, c)
    ensures HasResult(p) && executed ==> at.tool.Some? && p.result == Durable(c, at.tool.value)
    ensures HasResult(p) && !executed ==> old(ledger.entry) == ledger.entry
    ensures HasResult(p) ==> (p.Completed? <==> at.reported)
    ensures p.Failed? <==> at.reported && Fails(old(ledger.entry), at, old(ledger.faults))
    ensures p.Cancelled? <==> at.reported && IsCancelled(old(ledger.entry), at, old(ledger.faults))
    ensures p.Cancelled? || !Learns(at, old(ledger.faults)) ==> ledger.entry == old(ledger.entry)
  {
    executed := false;
    if !at.running || at.abortedFirst {
      p := if at.abortedFirst then Cancelled else Failed;
    } else {
      p, executed := ObserveAndExecute(ledger, c, t, at.prepares, at.aborted, at.tool);
    }
    if p.Resolved? && at.reported {
      p := Completed(p.result);
    }
    if (p.Failed? || p.Cancelled?) && !at.reported {
      p := Unsettled;
    }
  }

  /** What the ledger says of the effect, or what becomes of it when it was never claimed. */
  method ObserveAndExecute(ledger: Ledger, c: Command, t: Token, prepares: bool, aborted: bool, tool: Option<string>)
    returns (p: Phase, executed: bool)
    modifies ledger
    ensures p.Resolved? || p.Failed? || p.Cancelled? || p.Unsettled?
    ensures var at := Course(true, false, prepares, aborted, tool, true);
            && (executed <==> Executes(old(ledger.entry), at, old(ledger.faults)))
            && (p.Resolved? <==> Succeeds(old(ledger.entry), c, at, old(ledger.faults)))
            && (p.Failed? <==> Fails(old(ledger.entry), at, old(ledger.faults)))
            && (p.Cancelled? <==> IsCancelled(old(ledger.entry), at, old(ledger.faults)))
    ensures p.Resolved? ==> ledger.entry == Succeeded(p.result) && Matches(p.result, c)
    ensures p.Resolved? && executed ==> tool.Some? && p.result == Durable(c, tool.value)
    ensures p.Resolved? && !executed ==> old(ledger.entry) == ledger.entry
    ensures p.Cancelled? || !FaultAt(old(ledger.faults), 0).Works? ==> ledger.entry == old(ledger.entry)
  {
    executed := false;
    var observed := ledger.Observe();
    if observed.None? {
      p := if aborted then Cancelled else Failed;
      return;
    }
    p := AfterObserving(c, observed.value);
    if p.Preparing? {
      p, executed := ExecuteMcpIntent(ledger, c, t, prepares, aborted, tool);
    }
  }
}
