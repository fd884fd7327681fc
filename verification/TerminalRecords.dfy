/** What the terminal state machine still tells of runs that are gone, of the instance and of the shutdown,
    from the answers of the calls alone. */
module TerminalRecords {
  import opened Wrappers
  import opened TerminalState

  function At(calls: seq<Call>, n: nat): State
    requires n <= |calls|
  {
    Run(INITIAL, calls[..n])
  }

  // ---------------------------------------------------------------------------------------------
  // The run owned last.

  /** The `k`-th call names the run: it begins it, remembers it or releases it. */
  ghost predicate NamesAt(calls: seq<Call>, k: int, runId: string) {
    && 0 <= k < |calls|
    && match calls[k]
       case BeginRun(id, _) => Answer(calls, k).Began? && id == runId
       case RememberOwnedRunId(id) => Answer(calls, k).Done? && id == runId
       case ReleaseRun(t, _) => Answer(calls, k).Done? && t.runId == runId
       case _ => false
  }

  ghost predicate NamesAny(calls: seq<Call>, k: int) {
    exists runId :: NamesAt(calls, k, runId)
  }

  /** Of the first `n` calls that name a run, the last names this one. */
  ghost predicate NamedLast(calls: seq<Call>, n: nat, runId: string) {
    exists k :: k < n && NamesAt(calls, k, runId) && forall j :: k < j < n ==> !NamesAny(calls, j)
  }

  lemma NamedOneMore(calls: seq<Call>, n: nat, runId: string)
    requires n < |calls|
    ensures NamedLast(calls, n + 1, runId) <==> NamesAt(calls, n, runId) || (NamedLast(calls, n, runId) && !NamesAny(calls, n))
  {
    if NamedLast(calls, n, runId) && !NamesAny(calls, n) {
      var k :| k < n && NamesAt(calls, k, runId) && forall j :: k < j < n ==> !NamesAny(calls, j);
      assert forall j :: k < j < n + 1 ==> !NamesAny(calls, j);
    }
  }

  lemma NameIsKept(calls: seq<Call>, n: nat, runId: string)
    requires n < |calls|
    ensures At(calls, n + 1).lastOwnedRunId == Some(runId)
            <==> NamesAt(calls, n, runId) || (At(calls, n).lastOwnedRunId == Some(runId) && !NamesAny(calls, n))
  {
    RunOneMore(calls, n);
    match calls[n]
    case BeginRun(id, _) => assert Answer(calls, n).Began? ==> NamesAt(calls, n, id);
    case RememberOwnedRunId(id) => assert Answer(calls, n).Done? ==> NamesAt(calls, n, id);
    case ReleaseRun(t, _) => assert Answer(calls, n).Done? ==> NamesAt(calls, n, t.runId);
    case _ =>
  }

  /** The run owned last is the one that was begun, remembered or released last. */
  lemma {:induction false} LastOwnedRunIs(calls: seq<Call>, n: nat, runId: string)
    requires n <= |calls|
    ensures At(calls, n).lastOwnedRunId == Some(runId) <==> NamedLast(calls, n, runId)
  {
    if n == 0 {
      assert calls[..0] == [];
    } else {
      LastOwnedRunIs(calls, n - 1, runId);
      NamedOneMore(calls, n - 1, runId);
      NameIsKept(calls, n - 1, runId);
    }
  }

  /** A run id can be remembered unless another run is current. */
  lemma RememberIsAnswered(calls: seq<Call>, i: nat, runId: string)
    requires i < |calls| && calls[i] == RememberOwnedRunId(runId)
    ensures Answer(calls, i) == Done <==> forall t :: Current(calls, i, t) ==> t.runId == runId
  {
    AnswersTellTheState(calls, i);
    var s := Run(INITIAL, calls[..i]);
    assert s.active.Some? ==> Holds(s, s.active.value.ticket);
  }

  /** A selected terminal can be given up exactly while it stands and is not acknowledged. */
  lemma AbandonIsAnswered(calls: seq<Call>, i: nat, t: Ticket, identity: Identity)
    requires i < |calls| && calls[i] == AbandonRunTerminal(t, identity)
    ensures Answer(calls, i) == Done
            <==> Current(calls, i, t) && Stands(calls, i, t.revision, identity) && !AckedBefore(calls, i, t.revision)
  {
    AnswersTellTheState(calls, i);
    var s := Run(INITIAL, calls[..i]);
    assert Holds(s, t) <==> Current(calls, i, t);
    if Holds(s, t) {
      assert HasSelected(s.active.value, identity) <==> Stands(calls, i, t.revision, identity);
    }
  }

  // ---------------------------------------------------------------------------------------------
  // The terminal acknowledged last.

  /** The `k`-th call releases a run of that id, whose terminal with that status was acknowledged. */
  ghost predicate LeavesAt(calls: seq<Call>, k: int, last: LastTerminal) {
    0 <= k < |calls| && exists t, identity :: Leaves(calls, k, t, identity, last)
  }

  ghost predicate Leaves(calls: seq<Call>, k: nat, t: Ticket, identity: Identity, last: LastTerminal) {
    && ReleasesAt(calls, k, t) && AckedBefore(calls, k, t.revision) && Stands(calls, k, t.revision, identity)
    && last == LastTerminal(t.runId, identity.status)
  }

  /** The `k`-th call begins a run or releases one. */
  ghost predicate TurnsAt(calls: seq<Call>, k: int) {
    0 <= k < |calls| && (Answer(calls, k).Began? || (calls[k].ReleaseRun? && Answer(calls, k).Done?))
  }

  ghost predicate LeftLast(calls: seq<Call>, n: nat, last: LastTerminal) {
    exists k :: k < n && LeavesAt(calls, k, last) && forall j :: k < j < n ==> !TurnsAt(calls, j)
  }

  lemma LeftOneMore(calls: seq<Call>, n: nat, last: LastTerminal)
    requires n < |calls|
    ensures LeftLast(calls, n + 1, last) <==> LeavesAt(calls, n, last) || (LeftLast(calls, n, last) && !TurnsAt(calls, n))
  {
    if LeftLast(calls, n, last) && !TurnsAt(calls, n) {
      var k :| k < n && LeavesAt(calls, k, last) && forall j :: k < j < n ==> !TurnsAt(calls, j);
      assert forall j :: k < j < n + 1 ==> !TurnsAt(calls, j);
    }
  }

  /** What a release leaves behind, by the state. */
  predicate Releases(s: State, c: Call, last: LastTerminal) {
    && c.ReleaseRun? && Step(s, c).1.Done?
    && s.active.Some? && s.active.value.terminal.Some? && s.active.value.terminal.value.Acked?
    && last == LastTerminal(s.active.value.ticket.runId, s.active.value.terminal.value.value.status)
  }

  lemma ReleasesIff(calls: seq<Call>, n: nat, last: LastTerminal)
    requires n < |calls|
    ensures Releases(At(calls, n), calls[n], last) <==> LeavesAt(calls, n, last)
  {
    AnswersTellTheState(calls, n);
    var s := Run(INITIAL, calls[..n]);
    if Releases(s, calls[n], last) {
      var run := s.active.value;
      assert Holds(s, run.ticket) && HasSelected(run, run.terminal.value.value);
      assert Leaves(calls, n, run.ticket, run.terminal.value.value, last);
    }
    if LeavesAt(calls, n, last) {
      var t, identity :| Leaves(calls, n, t, identity, last);
      assert Holds(s, t);
      assert HasSelected(s.active.value, identity);
    }
  }

  lemma LastIsKept(s: State, c: Call, last: LastTerminal)
    ensures Step(s, c).0.lastRunTerminal == Some(last)
            <==> Releases(s, c, last)
                 || (s.lastRunTerminal == Some(last) && !Step(s, c).1.Began? && !(c.ReleaseRun? && Step(s, c).1.Done?))
  {
  }

  /** The terminal status that can still be read after a run is that of the run released last, if its terminal
      was acknowledged and no run was begun since. */
  lemma {:induction false} LastTerminalIs(calls: seq<Call>, n: nat, last: LastTerminal)
    requires n <= |calls|
    ensures At(calls, n).lastRunTerminal == Some(last) <==> LeftLast(calls, n, last)
  {
    if n == 0 {
      assert calls[..0] == [];
    } else {
      LastTerminalIs(calls, n - 1, last);
      LeftOneMore(calls, n - 1, last);
      RunOneMore(calls, n - 1);
      LastIsKept(At(calls, n - 1), calls[n - 1], last);
      ReleasesIff(calls, n - 1, last);
    }
  }

  // ---------------------------------------------------------------------------------------------
  // The instance.

  ghost predicate AcksInstanceAt(calls: seq<Call>, k: int) {
    0 <= k < |calls| && calls[k].AckInstanceTerminal? && Answer(calls, k).Done?
  }

  ghost predicate InstanceAckedBefore(calls: seq<Call>, n: nat) {
    exists k :: k < n && AcksInstanceAt(calls, k)
  }

  lemma InstanceAckedOneMore(calls: seq<Call>, n: nat)
    requires n < |calls|
    ensures InstanceAckedBefore(calls, n + 1) <==> AcksInstanceAt(calls, n) || InstanceAckedBefore(calls, n)
  {
    if InstanceAckedBefore(calls, n) {
      var k :| k < n && AcksInstanceAt(calls, k);
      assert k < n + 1;
    }
  }

  lemma StepAcksInstance(s: State, c: Call)
    ensures Step(s, c).0.instance.InstanceAcked? <==> s.instance.InstanceAcked? || (c.AckInstanceTerminal? && Step(s, c).1.Done?)
  {
  }

  lemma {:induction false} InstanceIsAckedIff(calls: seq<Call>, n: nat)
    requires n <= |calls|
    ensures At(calls, n).instance.InstanceAcked? <==> InstanceAckedBefore(calls, n)
  {
    if n == 0 {
      assert calls[..0] == [];
    } else {
      InstanceIsAckedIff(calls, n - 1);
      InstanceAckedOneMore(calls, n - 1);
      RunOneMore(calls, n - 1);
      StepAcksInstance(At(calls, n - 1), calls[n - 1]);
    }
  }

  /** What the calls about the instance terminal are answered: it is selected when none stands, the same one
      may be selected again, it is acknowledged when it stands, and given up until it is acknowledged. */
  lemma InstanceCallsAreAnswered(calls: seq<Call>, i: nat, x: InstanceTerminal)
    requires i < |calls|
    ensures calls[i] == SelectInstanceTerminal(x) ==>
              && (Answer(calls, i) == NowSelected <==> forall y :: !InstanceStands(calls, i, y))
              && (Answer(calls, i) == AlreadyAcked <==> InstanceStands(calls, i, x) && InstanceAckedBefore(calls, i))
              && (Answer(calls, i) == Pending <==> InstanceStands(calls, i, x) && !InstanceAckedBefore(calls, i))
    ensures calls[i] == AckInstanceTerminal(x) ==> (Answer(calls, i) == Done <==> InstanceStands(calls, i, x))
    ensures calls[i] == AbandonInstanceTerminal(x) ==>
              (Answer(calls, i) == Done <==> InstanceStands(calls, i, x) && !InstanceAckedBefore(calls, i))
  {
    var s := Run(INITIAL, calls[..i]);
    InstanceIsAckedIff(calls, i);
    AnswersTellTheInstance(calls, i, x);
    forall y ensures HasInstance(s, y) <==> InstanceStands(calls, i, y) {
      AnswersTellTheInstance(calls, i, y);
    }
    assert !s.instance.Open? ==> HasInstance(s, s.instance.terminal);
  }

  // ---------------------------------------------------------------------------------------------
  // The shutdown.

  predicate Requests(c: Call) {
    c.RequestShutdown? || c.RecordFailure?
  }

  ghost predicate RequestedBefore(calls: seq<Call>, n: nat) {
    exists k :: 0 <= k < n && k < |calls| && Requests(calls[k])
  }

  ghost predicate MarkedBefore(calls: seq<Call>, n: nat) {
    exists k :: 0 <= k < n && k < |calls| && calls[k].MarkCleanupCompleted? && Answer(calls, k).Done?
  }

  lemma ShutdownOneMore(calls: seq<Call>, n: nat)
    requires n < |calls|
    ensures RequestedBefore(calls, n + 1) <==> Requests(calls[n]) || RequestedBefore(calls, n)
    ensures MarkedBefore(calls, n + 1) <==> (calls[n].MarkCleanupCompleted? && Answer(calls, n).Done?) || MarkedBefore(calls, n)
  {
    if RequestedBefore(calls, n) {
      var k :| 0 <= k < n && k < |calls| && Requests(calls[k]);
      assert k < n + 1;
    }
    if MarkedBefore(calls, n) {
      var k :| 0 <= k < n && k < |calls| && calls[k].MarkCleanupCompleted? && Answer(calls, k).Done?;
      assert k < n + 1;
    }
  }

  predicate CleanedUp(s: State) {
    s.shutdown.Some? && s.shutdown.value.cleanupCompleted
  }

  lemma StepAdvancesShutdown(s: State, c: Call)
    ensures Step(s, c).0.shutdown.Some? <==> s.shutdown.Some? || Requests(c)
    ensures CleanedUp(Step(s, c).0) <==> CleanedUp(s) || (c.MarkCleanupCompleted? && Step(s, c).1.Done?)
  {
  }

  /** A shutdown is recorded exactly once it was requested or a failure was recorded, and its cleanup counts as
      completed exactly once that was marked after it. */
  lemma {:induction false} ShutdownIsExact(calls: seq<Call>, n: nat)
    requires n <= |calls|
    ensures At(calls, n).shutdown.Some? <==> RequestedBefore(calls, n)
    ensures CleanedUp(At(calls, n)) <==> MarkedBefore(calls, n)
  {
    if n == 0 {
      assert calls[..0] == [];
    } else {
      ShutdownIsExact(calls, n - 1);
      ShutdownOneMore(calls, n - 1);
      RunOneMore(calls, n - 1);
      StepAdvancesShutdown(At(calls, n - 1), calls[n - 1]);
    }
  }

  lemma MarkIsAnswered(calls: seq<Call>, i: nat)
    requires i < |calls| && calls[i].MarkCleanupCompleted?
    ensures Answer(calls, i) == Done <==> RequestedBefore(calls, i)
  {
    ShutdownIsExact(calls, i);
  }
}
