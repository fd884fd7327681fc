/** The delivery of command updates to the host: one chain of jobs per command, and the terminal
    update that is recorded once.

    Jobs of one command run one after the other and, once one has failed, not at all.  A rejection is
    sent at once, beside the chain and without a record.  When jobs run, and which sends the host
    acknowledges before the deadline, is the environment's choice. */
module CommandDelivery {
  import opened Wrappers

  type Id = string

  datatype Update = Cancelled | Completed(result: string) | Failed(error: string)

  datatype Job = AcceptedJob | TerminalJob(update: Update)

  /** `terminalTask` stands for the recorded task: it goes when the terminal is delivered, and stays
      when that fails. */
  datatype Tracked = Tracked(identity: string, jobs: seq<Job>, broken: bool, terminal: Option<Update>, terminalTask: bool)

  /** A send to the host: the terminal update, or None for "accepted", from the command's chain or as a
      rejection. */
  datatype Sent = Sent(id: Id, terminal: Option<Update>, chained: bool)

  datatype State = State(tracked: map<Id, Tracked>, sent: seq<Sent>)

  const MAX_TRACKED_COMMANDS: nat := 1024
  const TERMINAL_UPDATE_MAX_ATTEMPTS: nat := 3

  datatype Receipt = Fresh | Replayed | ChangedIdentity | HistoryFull

  datatype Finishing = NotTracked | Joined | Issued

  datatype Op =
    | Receive(id: Id, identity: string)
    | Accept(id: Id)
    | Finish(id: Id, update: Update)
    | RunJob(id: Id, outcomes: seq<bool>)
    | Reject(id: Id, update: Update, outcomes: seq<bool>)

  function Replay(s: State, id: Id, identity: string): Option<Receipt> {
    if id !in s.tracked then None
    else if s.tracked[id].identity != identity then Some(ChangedIdentity)
    else Some(Replayed)
  }

  function Received(s: State, id: Id, identity: string): (State, Receipt) {
    var replay := Replay(s, id, identity);
    if replay.Some? then (s, replay.value)
    else if |s.tracked| >= MAX_TRACKED_COMMANDS then (s, HistoryFull)
    else (s.(tracked := s.tracked[id := Tracked(identity, [], false, None, false)]), Fresh)
  }

  function Accepted(s: State, id: Id): State {
    if id !in s.tracked then s
    else
      var t := s.tracked[id];
      s.(tracked := s.tracked[id := t.(jobs := t.jobs + [AcceptedJob])])
  }

  /** Records the terminal unless one is recorded, and issues its delivery unless one is on its way. */
  function Finished(s: State, id: Id, update: Update): (State, Finishing) {
    if id !in s.tracked then (s, NotTracked)
    else
      var t := s.tracked[id];
      var terminal := if t.terminal.Some? then t.terminal.value else update;
      if t.terminalTask then (s.(tracked := s.tracked[id := t.(terminal := Some(terminal))]), Joined)
      else
        (s.(tracked := s.tracked[id := t.(terminal := Some(terminal), jobs := t.jobs + [TerminalJob(terminal)],
                                          terminalTask := true)]),
         Issued)
  }

  /** How many times a terminal is sent, and whether one send was acknowledged: `outcomes` are those of
      the attempts that start before the deadline. */
  function Attempts(outcomes: seq<bool>, left: nat): (r: (nat, bool))
    ensures r.0 <= left && r.0 <= |outcomes|
    ensures r.1 <==> exists i :: 0 <= i < left && i < |outcomes| && outcomes[i]
    ensures r.1 ==> r.0 > 0 && outcomes[r.0 - 1] && forall i :: 0 <= i < r.0 - 1 ==> !outcomes[i]
    ensures !r.1 ==> r.0 == if |outcomes| < left then |outcomes| else left
  {
    if left == 0 || outcomes == [] then (0, false)
    else if outcomes[0] then (1, true)
    else
      var rest := Attempts(outcomes[1..], left - 1);
      assert forall i :: 0 < i < |outcomes| ==> outcomes[i] == outcomes[1..][i - 1];
      assert rest.1 ==> exists i :: 0 <= i < left - 1 && i < |outcomes[1..]| && outcomes[1..][i];
      (rest.0 + 1, rest.1)
  }

  function Repeated(x: Sent, n: nat): (r: seq<Sent>)
    ensures |r| == n && forall y :: y in r ==> y == x
  {
    if n == 0 then [] else Repeated(x, n - 1) + [x]
  }

  /** Runs the oldest job of a command. */
  function JobRun(s: State, id: Id, outcomes: seq<bool>): State {
    if id !in s.tracked || s.tracked[id].jobs == [] then s
    else
      var t := s.tracked[id].(jobs := s.tracked[id].jobs[1..]);
      var job := s.tracked[id].jobs[0];
      if t.broken then s.(tracked := s.tracked[id := t])
      else if job.AcceptedJob? then
        var ok := outcomes != [] && outcomes[0];
        State(s.tracked[id := t.(broken := !ok)], s.sent + [Sent(id, None, true)])
      else
        var (n, ok) := Attempts(outcomes, TERMINAL_UPDATE_MAX_ATTEMPTS);
        State(s.tracked[id := if ok then t.(terminalTask := false) else t.(broken := true)],
              s.sent + Repeated(Sent(id, Some(job.update), true), n))
  }

  /** Sends a terminal update without waiting for the command's chain or recording anything. */
  function Rejected(s: State, id: Id, update: Update, outcomes: seq<bool>): State {
    s.(sent := s.sent + Repeated(Sent(id, Some(update), false), Attempts(outcomes, TERMINAL_UPDATE_MAX_ATTEMPTS).0))
  }

  function Next(s: State, op: Op): State {
    match op
    case Receive(id, identity) => Received(s, id, identity).0
    case Accept(id) => Accepted(s, id)
    case Finish(id, update) => Finished(s, id, update).0
    case RunJob(id, outcomes) => JobRun(s, id, outcomes)
    case Reject(id, update, outcomes) => Rejected(s, id, update, outcomes)
  }

  function Run(ops: seq<Op>): State {
    if ops == [] then State(map[], []) else Next(Run(ops[..|ops| - 1]), ops[|ops| - 1])
  }

  lemma RunOneMore(ops: seq<Op>, op: Op)
    ensures Run(ops + [op]) == Next(Run(ops), op)
  {
    assert (ops + [op])[..|ops|] == ops;
  }

  // ---------------------------------------------------------------------------------------------
  // The class.

  /** The tracked commands, after the calls and jobs `ops`. */
  class DriverCommandDelivery {
    var tracked: map<Id, Tracked>
    ghost var sent: seq<Sent>
    ghost var ops: seq<Op>

    ghost function Now(): State
      reads this
    {
      State(tracked, sent)
    }

    ghost predicate Valid()
      reads this
    {
      Now() == Run(ops)
    }

    /** So the object carries what holds in every run. */
    lemma Guarantees()
      requires Valid()
      ensures Sound(Now())
    {
      EveryRunIsSound(ops);
    }

    constructor ()
      ensures Valid() && ops == []
    {
      tracked := map[];
      sent := [];
      ops := [];
    }

    ghost method Note(op: Op)
      requires Now() == Next(Run(ops), op)
      modifies this`ops
      ensures Valid() && ops == old(ops) + [op]
    {
      RunOneMore(ops, op);
      ops := ops + [op];
    }

    /** A new command is tracked while there is room, a known one is a replay if it is the same command,
        and everything else is refused without change. */
    method ReceiveCommand(id: Id, identity: string) returns (r: Receipt)
      requires Valid()
      modifies this
      ensures Valid() && ops == old(ops) + [Receive(id, identity)] && sent == old(sent)
      ensures r.Fresh? <==> id !in old(tracked) && |old(tracked)| < MAX_TRACKED_COMMANDS
      ensures r.Fresh? ==> tracked == old(tracked)[id := Tracked(identity, [], false, None, false)]
      ensures !r.Fresh? ==> tracked == old(tracked)
      ensures r.Replayed? <==> id in old(tracked) && old(tracked)[id].identity == identity
      ensures |tracked| <= MAX_TRACKED_COMMANDS
    {
      Guarantees();
      if id in tracked {
        r := if tracked[id].identity != identity then ChangedIdentity else Replayed;
      } else if |tracked| >= MAX_TRACKED_COMMANDS {
        r := HistoryFull;
      } else {
        tracked := tracked[id := Tracked(identity, [], false, None, false)];
        r := Fresh;
      }
      Note(Receive(id, identity));
    }

    method HasTerminal(id: Id) returns (r: bool)
      ensures r <==> id in tracked && tracked[id].terminal.Some?
    {
      r := id in tracked && tracked[id].terminal.Some?;
    }

    method AcceptCommand(id: Id)
      requires Valid() && id in tracked
      modifies this
      ensures Valid() && ops == old(ops) + [Accept(id)]
    {
      tracked := tracked[id := tracked[id].(jobs := tracked[id].jobs + [AcceptedJob])];
      Note(Accept(id));
    }

    /** Whatever the caller finishes with, the first update is the one recorded, and at most one delivery
        of it is outstanding: the one just issued, or the one this call joined. */
    method FinishCommand(id: Id, update: Update) returns (r: Finishing)
      requires Valid()
      modifies this
      ensures Valid() && ops == old(ops) + [Finish(id, update)] && sent == old(sent)
      ensures r.NotTracked? <==> id !in old(tracked)
      ensures r.NotTracked? ==> tracked == old(tracked)
      ensures !r.NotTracked? ==>
                && id in tracked && tracked == old(tracked)[id := tracked[id]]
                && tracked[id].terminal == Some(if old(tracked)[id].terminal.Some? then old(tracked)[id].terminal.value else update)
                && TerminalJobs(tracked[id].jobs) <= 1
                && (r.Issued? <==> !old(tracked)[id].terminalTask)
                && (r.Issued? ==> tracked[id].jobs == old(tracked)[id].jobs + [TerminalJob(tracked[id].terminal.value)])
                && (r.Joined? ==> tracked[id].jobs == old(tracked)[id].jobs)
    {
      if id !in tracked {
        Note(Finish(id, update));
        return NotTracked;
      }
      var t := tracked[id];
      if t.terminal.None? {
        t := t.(terminal := Some(update));
      }
      if t.terminalTask {
        r := Joined;
      } else {
        t := t.(jobs := t.jobs + [TerminalJob(t.terminal.value)], terminalTask := true);
        r := Issued;
      }
      tracked := tracked[id := t];
      Note(Finish(id, update));
      Guarantees();
      assert CommandSound(tracked[id]);
    }

    /** Sends a terminal update until it is acknowledged, at most three times and before the deadline. */
    method DeliverTerminal(id: Id, update: Update, chained: bool, outcomes: seq<bool>) returns (ok: bool)
      modifies this`sent
      ensures ok == Attempts(outcomes, TERMINAL_UPDATE_MAX_ATTEMPTS).1
      ensures sent == old(sent) + Repeated(Sent(id, Some(update), chained), Attempts(outcomes, TERMINAL_UPDATE_MAX_ATTEMPTS).0)
    {
      var attempt := 0;
      ok := false;
      ghost var all := Attempts(outcomes, TERMINAL_UPDATE_MAX_ATTEMPTS);
      while attempt < TERMINAL_UPDATE_MAX_ATTEMPTS && attempt < |outcomes|
        invariant attempt <= TERMINAL_UPDATE_MAX_ATTEMPTS && attempt <= |outcomes|
        invariant forall i :: 0 <= i < attempt ==> !outcomes[i]
        invariant sent == old(sent) + Repeated(Sent(id, Some(update), chained), attempt)
      {
        sent := sent + [Sent(id, Some(update), chained)];
        attempt := attempt + 1;
        if outcomes[attempt - 1] {
          ok := true;
          break;
        }
      }
      assert ok ==> all.1 && all.0 == attempt;
      assert !ok ==> !all.1 && all.0 == attempt;
    }

    /** Tells the host that the command failed, leaving the command's record alone. */
    method RejectCommand(id: Id, update: Update, outcomes: seq<bool>) returns (ok: bool)
      requires Valid()
      modifies this
      ensures Valid() && ops == old(ops) + [Reject(id, update, outcomes)] && tracked == old(tracked)
      ensures ok == Attempts(outcomes, TERMINAL_UPDATE_MAX_ATTEMPTS).1
    {
      ok := DeliverTerminal(id, update, false, outcomes);
      Note(Reject(id, update, outcomes));
    }

    method RunNextJob(id: Id, outcomes: seq<bool>)
      requires Valid() && id in tracked && tracked[id].jobs != []
      modifies this
      ensures Valid() && ops == old(ops) + [RunJob(id, outcomes)]
    {
      var job := tracked[id].jobs[0];
      var t := tracked[id].(jobs := tracked[id].jobs[1..]);
      if t.broken {
        tracked := tracked[id := t];
      } else if job.AcceptedJob? {
        sent := sent + [Sent(id, None, true)];
        tracked := tracked[id := t.(broken := !(outcomes != [] && outcomes[0]))];
      } else {
        var ok := DeliverTerminal(id, job.update, true, outcomes);
        tracked := tracked[id := if ok then t.(terminalTask := false) else t.(broken := true)];
      }
      Note(RunJob(id, outcomes));
    }
  }

  // ---------------------------------------------------------------------------------------------
  // Every run.

  function TerminalJobs(jobs: seq<Job>): nat {
    if jobs == [] then 0 else TerminalJobs(jobs[1..]) + (if jobs[0].TerminalJob? then 1 else 0)
  }

  lemma {:induction false} TerminalJobsOneMore(jobs: seq<Job>, job: Job)
    ensures TerminalJobs(jobs + [job]) == TerminalJobs(jobs) + (if job.TerminalJob? then 1 else 0)
  {
    if jobs == [] {
      assert jobs + [job] == [job];
    } else {
      assert (jobs + [job])[1..] == jobs[1..] + [job];
      TerminalJobsOneMore(jobs[1..], job);
    }
  }

  /** Every terminal job carries the recorded terminal, and there is one at most. */
  ghost predicate CommandSound(t: Tracked) {
    && (forall job :: job in t.jobs && job.TerminalJob? ==> t.terminal == Some(job.update))
    && TerminalJobs(t.jobs) <= (if t.terminalTask then 1 else 0)
  }

  ghost predicate Sound(s: State) {
    && |s.tracked| <= MAX_TRACKED_COMMANDS
    && (forall id :: id in s.tracked ==> CommandSound(s.tracked[id]))
    && (forall x :: x in s.sent && x.chained ==>
          x.id in s.tracked && (x.terminal.Some? ==> s.tracked[x.id].terminal == x.terminal))
    && (forall x :: x in s.sent && !x.chained ==> x.terminal.Some?)
  }

  /** What the state remembers about a command never changes: its identity, its terminal once it is
      recorded, and that its chain is broken. */
  ghost predicate Keeps(s: State, t: State) {
    && s.sent <= t.sent
    && (forall id :: id in s.tracked ==>
          && id in t.tracked && t.tracked[id].identity == s.tracked[id].identity
          && (s.tracked[id].terminal.Some? ==> t.tracked[id].terminal == s.tracked[id].terminal)
          && (s.tracked[id].broken ==> t.tracked[id].broken))
  }

  lemma NextKeeps(s: State, op: Op)
    ensures Keeps(s, Next(s, op))
  {
  }

  lemma FinishedCommandIsSound(s: State, id: Id, update: Update)
    requires id in s.tracked && CommandSound(s.tracked[id])
    ensures CommandSound(Finished(s, id, update).0.tracked[id])
  {
    var t := s.tracked[id];
    TerminalJobsOneMore(t.jobs, TerminalJob(if t.terminal.Some? then t.terminal.value else update));
  }

  lemma RunCommandIsSound(s: State, id: Id, outcomes: seq<bool>)
    requires id in s.tracked && CommandSound(s.tracked[id])
    ensures CommandSound(JobRun(s, id, outcomes).tracked[id])
  {
    var jobs := s.tracked[id].jobs;
    if jobs != [] {
      assert jobs[0] in jobs && forall job :: job in jobs[1..] ==> job in jobs;
    }
  }

  lemma JobsOfNext(s: State, op: Op, id: Id)
    requires Sound(s) && id in Next(s, op).tracked
    ensures CommandSound(Next(s, op).tracked[id])
  {
    if id in s.tracked && op.id == id {
      assert CommandSound(s.tracked[id]);
      if op.Finish? {
        FinishedCommandIsSound(s, id, op.update);
      } else if op.RunJob? {
        RunCommandIsSound(s, id, op.outcomes);
      } else {
        TerminalJobsOneMore(s.tracked[id].jobs, AcceptedJob);
      }
    }
  }

  lemma SentOfNext(s: State, op: Op, x: Sent)
    requires Sound(s) && x in Next(s, op).sent && x.chained
    ensures var t := Next(s, op); x.id in t.tracked && (x.terminal.Some? ==> t.tracked[x.id].terminal == x.terminal)
  {
    NextKeeps(s, op);
    if x !in s.sent {
      assert op.RunJob? && CommandSound(s.tracked[op.id]) && s.tracked[op.id].jobs[0] in s.tracked[op.id].jobs;
    }
  }

  lemma NextIsSound(s: State, op: Op)
    requires Sound(s)
    ensures Sound(Next(s, op))
  {
    var t := Next(s, op);
    forall id | id in t.tracked ensures CommandSound(t.tracked[id]) {
      JobsOfNext(s, op, id);
    }
    forall x | x in t.sent && x.chained
      ensures x.id in t.tracked && (x.terminal.Some? ==> t.tracked[x.id].terminal == x.terminal)
    {
      SentOfNext(s, op, x);
    }
  }

  lemma {:induction false} EveryRunIsSound(ops: seq<Op>)
    ensures Sound(Run(ops))
  {
    if ops != [] {
      EveryRunIsSound(ops[..|ops| - 1]);
      NextIsSound(Run(ops[..|ops| - 1]), ops[|ops| - 1]);
    }
  }

  /** A command's recorded terminal never changes, whatever happens later. */
  lemma {:induction false} RecordedTerminalIsFinal(ops: seq<Op>, more: seq<Op>)
    ensures Keeps(Run(ops), Run(ops + more))
    decreases |more|
  {
    if more == [] {
      assert ops + more == ops;
    } else {
      var n := |more| - 1;
      RecordedTerminalIsFinal(ops, more[..n]);
      assert (ops + more)[..|ops + more| - 1] == ops + more[..n];
      NextKeeps(Run(ops + more[..n]), more[n]);
    }
  }

  /** Every terminal update a command's chain ever sends is the one that is recorded for it. */
  lemma ChainedTerminalsAgree(ops: seq<Op>, x: Sent)
    requires x in Run(ops).sent && x.chained && x.terminal.Some?
    ensures x.id in Run(ops).tracked && x.terminal == Run(ops).tracked[x.id].terminal
  {
    EveryRunIsSound(ops);
  }

  /** The `k`-th step rejects the command, and the host was sent that at least once. */
  ghost predicate RejectsAt(ops: seq<Op>, k: int, id: Id) {
    0 <= k < |ops| && ops[k].Reject? && ops[k].id == id && ops[k].outcomes != []
  }

  /** What is sent beside the chain is what rejections carry, all of it. */
  lemma {:induction false} UnchainedAreRejections(ops: seq<Op>, id: Id, update: Update)
    ensures Sent(id, Some(update), false) in Run(ops).sent
            <==> exists k :: RejectsAt(ops, k, id) && ops[k].update == update
  {
    if ops != [] {
      var n := |ops| - 1;
      var shorter := ops[..n];
      UnchainedAreRejections(shorter, id, update);
      assert forall k :: RejectsAt(shorter, k, id) ==> RejectsAt(ops, k, id) && ops[k] == shorter[k];
      assert forall k :: RejectsAt(ops, k, id) && k < n ==> RejectsAt(shorter, k, id) && ops[k] == shorter[k];
      UnchainedOfNext(Run(shorter), ops[n], id, update);
      if ops[n].Reject? && ops[n].id == id && ops[n].outcomes != [] {
        assert RejectsAt(ops, n, id);
      }
    }
  }

  lemma UnchainedOfNext(s: State, op: Op, id: Id, update: Update)
    ensures Sent(id, Some(update), false) in Next(s, op).sent
            <==> Sent(id, Some(update), false) in s.sent
                 || (op.Reject? && op.id == id && op.outcomes != [] && op.update == update)
  {
    var x := Sent(id, Some(update), false);
    if op.Reject? {
      var n := Attempts(op.outcomes, TERMINAL_UPDATE_MAX_ATTEMPTS).0;
      var more := Repeated(Sent(op.id, Some(op.update), false), n);
      if op.outcomes != [] {
        assert n > 0 && more[0] in more;
      }
      assert x in s.sent + more <==> x in s.sent || x in more;
    } else if op.RunJob? {
      assert forall y :: y in Next(s, op).sent && y !in s.sent ==> y.chained;
    }
  }

  /** The host took what the job sends: "accepted" at once, a terminal within three attempts. */
  predicate Acknowledged(job: Job, outcomes: seq<bool>) {
    if job.AcceptedJob? then outcomes != [] && outcomes[0] else exists i :: 0 <= i < 3 && i < |outcomes| && outcomes[i]
  }

  /** The job is the command's oldest, and the host does not take what it sends. */
  ghost predicate FailsIn(s: State, op: Op, id: Id) {
    && op.RunJob? && op.id == id && id in s.tracked && s.tracked[id].jobs != []
    && !Acknowledged(s.tracked[id].jobs[0], op.outcomes)
  }

  ghost predicate FailsAt(ops: seq<Op>, k: int, id: Id) {
    0 <= k < |ops| && FailsIn(Run(ops[..k]), ops[k], id)
  }

  ghost predicate EverFails(ops: seq<Op>, id: Id) {
    exists k :: FailsAt(ops, k, id)
  }

  predicate Broken(s: State, id: Id) {
    id in s.tracked && s.tracked[id].broken
  }

  lemma NextBreaks(s: State, op: Op, id: Id)
    ensures Broken(Next(s, op), id) <==> Broken(s, id) || FailsIn(s, op, id)
  {
  }

  lemma FailsEarlier(ops: seq<Op>, shorter: seq<Op>, k: int, id: Id)
    requires ops != [] && shorter == ops[..|ops| - 1] && k != |ops| - 1
    ensures FailsAt(ops, k, id) <==> FailsAt(shorter, k, id)
  {
    if 0 <= k < |shorter| {
      assert shorter[..k] == ops[..k];
    }
  }

  /** A command's chain is broken exactly when the host has not taken what one of its jobs sent. */
  lemma {:induction false} BrokenIff(ops: seq<Op>, id: Id)
    ensures Broken(Run(ops), id) <==> EverFails(ops, id)
  {
    if ops != [] {
      var n := |ops| - 1;
      var shorter := ops[..n];
      BrokenIff(shorter, id);
      NextBreaks(Run(shorter), ops[n], id);
      forall k | k != n ensures FailsAt(ops, k, id) <==> FailsAt(shorter, k, id) {
        FailsEarlier(ops, shorter, k, id);
      }
      assert FailsAt(ops, n, id) <==> FailsIn(Run(shorter), ops[n], id);
    }
  }

  /** The terminal updates the host was sent for the command are all the same. */
  ghost predicate Agree(s: State, id: Id) {
    forall x, y :: x in s.sent && y in s.sent && x.id == id == y.id && x.terminal.Some? && y.terminal.Some? ==> x.terminal == y.terminal
  }

  /** The command's chain has sent its terminal. */
  ghost predicate Told(s: State, id: Id) {
    exists x :: x in s.sent && x.id == id && x.chained && x.terminal.Some?
  }

  ghost predicate RejectedAlike(ops: seq<Op>, id: Id) {
    forall i, j :: RejectsAt(ops, i, id) && RejectsAt(ops, j, id) ==> ops[i].update == ops[j].update
  }

  ghost predicate RejectedAsRecorded(ops: seq<Op>, id: Id) {
    Told(Run(ops), id) ==>
      id in Run(ops).tracked && forall k :: RejectsAt(ops, k, id) ==> Run(ops).tracked[id].terminal == Some(ops[k].update)
  }

  /** Rejections are sent beside the chain and are recorded nowhere, so different terminals can be sent
      for one command.  They agree exactly when all its rejections carried one update and, if its chain
      has sent the recorded terminal, that one. */
  lemma SentTerminalsAgreeIff(ops: seq<Op>, id: Id)
    ensures Agree(Run(ops), id) <==> RejectedAlike(ops, id) && RejectedAsRecorded(ops, id)
  {
    EveryRunIsSound(ops);
    var s := Run(ops);
    if Agree(s, id) {
      forall k | RejectsAt(ops, k, id) ensures Sent(id, Some(ops[k].update), false) in s.sent {
        UnchainedAreRejections(ops, id, ops[k].update);
      }
    }
    if RejectedAlike(ops, id) && RejectedAsRecorded(ops, id) {
      forall x, y | x in s.sent && y in s.sent && x.id == id == y.id && x.terminal.Some? && y.terminal.Some?
        ensures x.terminal == y.terminal
      {
        SentIsExplained(ops, x);
        SentIsExplained(ops, y);
      }
    }
  }

  lemma SentIsExplained(ops: seq<Op>, x: Sent)
    requires x in Run(ops).sent && x.terminal.Some?
    ensures if x.chained then Told(Run(ops), x.id) && x.id in Run(ops).tracked && x.terminal == Run(ops).tracked[x.id].terminal
            else exists k :: RejectsAt(ops, k, x.id) && x.terminal == Some(ops[k].update)
  {
    if x.chained {
      ChainedTerminalsAgree(ops, x);
    } else {
      assert x == Sent(x.id, Some(x.terminal.value), false);
      UnchainedAreRejections(ops, x.id, x.terminal.value);
    }
  }

  /** A command whose host was told that it completed or was cancelled: what was sent agrees exactly when
      it was never rejected. */
  lemma ToldTerminalsAgreeIff(ops: seq<Op>, id: Id)
    requires forall k :: RejectsAt(ops, k, id) ==> ops[k].update.Failed?
    requires id in Run(ops).tracked && Told(Run(ops), id)
    requires Run(ops).tracked[id].terminal.Some? && !Run(ops).tracked[id].terminal.value.Failed?
    ensures Agree(Run(ops), id) <==> !exists k :: RejectsAt(ops, k, id)
  {
    SentTerminalsAgreeIff(ops, id);
  }

  /** Nothing was sent from the command's chain after the first `n` sends. */
  ghost predicate Silent(sent: seq<Sent>, n: nat, id: Id) {
    forall i :: n <= i < |sent| && sent[i].id == id ==> !sent[i].chained
  }

  lemma RepeatedSilent(sent: seq<Sent>, x: Sent, n: nat, id: Id)
    requires x.id != id || !x.chained
    ensures Silent(sent + Repeated(x, n), |sent|, id)
  {
    var all := sent + Repeated(x, n);
    forall i | |sent| <= i < |all| && all[i].id == id ensures !all[i].chained {
      assert all[i] == Repeated(x, n)[i - |sent|] && Repeated(x, n)[i - |sent|] in Repeated(x, n);
    }
  }

  lemma BrokenStepIsSilent(s: State, op: Op, id: Id)
    requires id in s.tracked && s.tracked[id].broken
    ensures Silent(Next(s, op).sent, |s.sent|, id)
  {
    if op.Reject? {
      RepeatedSilent(s.sent, Sent(op.id, Some(op.update), false), Attempts(op.outcomes, TERMINAL_UPDATE_MAX_ATTEMPTS).0, id);
    } else if op.RunJob? && op.id != id && op.id in s.tracked && s.tracked[op.id].jobs != [] {
      var job := s.tracked[op.id].jobs[0];
      if job.TerminalJob? {
        RepeatedSilent(s.sent, Sent(op.id, Some(job.update), true), Attempts(op.outcomes, TERMINAL_UPDATE_MAX_ATTEMPTS).0, id);
      }
    }
  }

  /** The command's chain is broken and has sent nothing after the first `n` sends. */
  ghost predicate SilentFrom(s: State, n: nat, id: Id) {
    id in s.tracked && s.tracked[id].broken && n <= |s.sent| && Silent(s.sent, n, id)
  }

  lemma NextStaysSilent(s: State, op: Op, n: nat, id: Id)
    requires SilentFrom(s, n, id)
    ensures SilentFrom(Next(s, op), n, id)
  {
    BrokenStepIsSilent(s, op, id);
    NextKeeps(s, op);
    SilentTogether(s.sent, Next(s, op).sent, n, id);
  }

  lemma {:induction false} RunStaysSilent(ops: seq<Op>, more: seq<Op>, n: nat, id: Id)
    requires SilentFrom(Run(ops), n, id)
    ensures SilentFrom(Run(ops + more), n, id)
    decreases |more|
  {
    if more == [] {
      assert ops + more == ops;
    } else {
      var fewer, last := more[..|more| - 1], more[|more| - 1];
      RunStaysSilent(ops, fewer, n, id);
      NextStaysSilent(Run(ops + fewer), last, n, id);
      RunOneMore(ops + fewer, last);
      assert ops + more == ops + fewer + [last];
    }
  }

  /** Once a send of a command's chain has failed, the chain never sends anything again; in particular
      its terminal never follows an "accepted" that was not acknowledged. */
  lemma BrokenChainsAreSilent(ops: seq<Op>, more: seq<Op>, id: Id)
    requires id in Run(ops).tracked && Run(ops).tracked[id].broken
    ensures Silent(Run(ops + more).sent, |Run(ops).sent|, id)
  {
    RunStaysSilent(ops, more, |Run(ops).sent|, id);
  }

  lemma SilentTogether(before: seq<Sent>, after: seq<Sent>, n: nat, id: Id)
    requires n <= |before| && before <= after && Silent(before, n, id) && Silent(after, |before|, id)
    ensures Silent(after, n, id)
  {
    forall i | n <= i < |after| && after[i].id == id ensures !after[i].chained {
      if i < |before| {
        assert after[i] == before[i];
      }
    }
  }
}
