/** The crash-safe swap of the skill catalog directory.

    The file system is reduced to the slots the transaction renames: the `live` catalog, the owner
    directory listed under the name `active` (holding `next` for `new`, `backup` for `old` and the commit marker), and the
    quarantined owners.  Every rename and the creation of the marker is one atomic action.  A fault
    schedule decides, action by action, whether the action fails before it takes effect, whether
    the sync or identity check that follows it fails, or whether the process dies around it. */
module SkillTransaction {
  import opened Wrappers

  /** A whole catalog directory; its contents never matter here. */
  type Catalog(==)

  datatype Owner = Owner(next: Option<Catalog>, backup: Option<Catalog>, marker: bool)

  datatype Disk = Disk(live: Option<Catalog>, active: Option<Owner>, quarantine: seq<Owner>)

  datatype Action =
    | Activate(next: Catalog)  // stage-* -> active
    | Backup                    // live -> active/old
    | Mark                      // create active/COMMITTED
    | Install                   // active/new -> live
    | Restore                   // active/old -> live
    | Retire                    // active -> quarantine-*

  /** When the protocol may perform an action. */
  predicate Enabled(d: Disk, a: Action) {
    match a
    case Activate(_) => d.active.None?
    case Backup => d.active.Some? && !d.active.value.marker && d.active.value.backup.None? && d.live.Some?
    case Mark => d.active.Some? && !d.active.value.marker && d.active.value.next.Some? && d.live.None?
    case Install => d.active.Some? && d.active.value.marker && d.active.value.next.Some? && d.live.None?
    case Restore => d.active.Some? && !d.active.value.marker && d.active.value.backup.Some? && d.live.None?
    case Retire =>
      && d.active.Some?
      && (if d.active.value.marker then d.live.Some? && d.active.value.next.None? else d.active.value.backup.None?)
  }

  function Do(d: Disk, a: Action): Disk
    requires Enabled(d, a)
  {
    match a
    case Activate(c) => d.(active := Some(Owner(Some(c), None, false)))
    case Backup => d.(live := None, active := Some(d.active.value.(backup := d.live)))
    case Mark => d.(active := Some(d.active.value.(marker := true)))
    case Install => d.(live := d.active.value.next, active := Some(d.active.value.(next := None)))
    case Restore => d.(live := d.active.value.backup, active := Some(d.active.value.(backup := None)))
    case Retire => d.(active := None, quarantine := d.quarantine + [d.active.value])
  }

  /** What holds of the directories between any two actions. */
  predicate Inv(d: Disk) {
    d.active.Some? ==>
      var o := d.active.value;
      if o.marker then d.live.Some? != o.next.Some? else o.next.Some? && !(d.live.Some? && o.backup.Some?)
  }

  /** The catalog the session owns, wherever its directory is at the moment. */
  function Logical(d: Disk): Option<Catalog> {
    if d.active.None? then d.live
    else if d.active.value.marker && d.active.value.next.Some? then d.active.value.next
    else if !d.active.value.marker && d.active.value.backup.Some? then d.active.value.backup
    else d.live
  }

  /** Every action keeps the invariant, and only the creation of the marker changes the catalog. */
  lemma StepKeepsCatalog(d: Disk, a: Action)
    requires Inv(d) && Enabled(d, a)
    ensures Inv(Do(d, a))
    ensures Logical(Do(d, a)) == if a.Mark? then d.active.value.next else Logical(d)
  {}

  // ---------------------------------------------------------------------------------------------
  // Runs: any sequence of actions, whichever processes performed them and wherever they died.

  ghost predicate Legal(d: Disk, trace: seq<Action>)
    decreases |trace|, 0
  {
    trace == [] || (Legal(d, trace[..|trace| - 1]) && Enabled(Replay(d, trace[..|trace| - 1]), trace[|trace| - 1]))
  }

  ghost function Replay(d: Disk, trace: seq<Action>): Disk
    requires Legal(d, trace)
    decreases |trace|, 1
  {
    if trace == [] then d else Do(Replay(d, trace[..|trace| - 1]), trace[|trace| - 1])
  }

  /** The catalog of the transaction activated last in the run. */
  ghost function LastActivated(trace: seq<Action>): Option<Catalog> {
    if trace == [] then None
    else if trace[|trace| - 1].Activate? then Some(trace[|trace| - 1].next)
    else LastActivated(trace[..|trace| - 1])
  }

  /** The catalog of the last transaction whose marker was created, read off the run alone. */
  ghost function LastCommitted(initial: Option<Catalog>, trace: seq<Action>): Option<Catalog> {
    if trace == [] then initial
    else if trace[|trace| - 1].Mark? then LastActivated(trace[..|trace| - 1])
    else LastCommitted(initial, trace[..|trace| - 1])
  }

  lemma {:induction false} RunFacts(d: Disk, trace: seq<Action>)
    requires d.active.None? && Legal(d, trace)
    ensures Inv(Replay(d, trace))
    ensures Logical(Replay(d, trace)) == LastCommitted(d.live, trace)
    ensures var e := Replay(d, trace);
            e.active.Some? && e.active.value.next.Some? ==> e.active.value.next == LastActivated(trace)
  {
    if trace != [] {
      RunFacts(d, trace[..|trace| - 1]);
      StepKeepsCatalog(Replay(d, trace[..|trace| - 1]), trace[|trace| - 1]);
    }
  }

  /** Atomicity over every run: once no transaction owner is active, the live catalog is the
      catalog of the last committed transaction, or the initial one when none committed. */
  lemma QuiescentCatalog(d: Disk, trace: seq<Action>)
    requires d.active.None? && Legal(d, trace) && Replay(d, trace).active.None?
    ensures Replay(d, trace).live == LastCommitted(d.live, trace)
  {
    RunFacts(d, trace);
  }

  lemma {:induction false} LegalPrefix(d: Disk, before: seq<Action>, after: seq<Action>)
    requires Legal(d, before + after)
    ensures Legal(d, before)
    ensures Legal(Replay(d, before), after)
    ensures Replay(d, before + after) == Replay(Replay(d, before), after)
  {
    if after == [] {
      assert before + after == before;
    } else {
      var n := |after| - 1;
      assert (before + after)[..|before + after| - 1] == before + after[..n];
      LegalPrefix(d, before, after[..n]);
    }
  }

  lemma {:induction false} NoSecondActivation(d: Disk, trace: seq<Action>)
    requires Legal(d, trace) && d.active.Some?
    requires Retire !in trace
    ensures Replay(d, trace).active.Some?
    ensures forall i :: 0 <= i < |trace| ==> !trace[i].Activate?
  {
    if trace != [] {
      var n := |trace| - 1;
      NoSecondActivation(d, trace[..n]);
      assert forall i :: 0 <= i < n ==> trace[..n][i] == trace[i];
    }
  }

  lemma {:induction false} CommittedByMark(initial: Option<Catalog>, next: Catalog, rest: seq<Action>)
    requires forall i :: 0 <= i < |rest| ==> !rest[i].Activate?
    ensures LastActivated([Activate(next)] + rest) == Some(next)
    ensures LastCommitted(initial, [Activate(next)] + rest) == if Mark in rest then Some(next) else initial
  {
    var trace := [Activate(next)] + rest;
    if rest == [] {
      assert trace == [Activate(next)];
      assert trace[..0] == [];
      assert LastCommitted(initial, trace) == LastCommitted(initial, trace[..0]);
    } else {
      var n := |rest| - 1;
      assert trace[..|trace| - 1] == [Activate(next)] + rest[..n];
      assert rest == rest[..n] + [rest[n]];
      CommittedByMark(initial, next, rest[..n]);
    }
  }

  /** One transaction, from its activation to the retirement of its owner, however many crashes
      and recoveries lie between: the live catalog ends as exactly the new one if the marker was
      created, and as exactly the previous one otherwise. */
  lemma TransactionIsAtomic(d: Disk, next: Catalog, middle: seq<Action>)
    requires d.active.None?
    requires Retire !in middle
    requires Legal(d, [Activate(next)] + middle + [Retire])
    ensures var e := Replay(d, [Activate(next)] + middle + [Retire]);
            e.active.None? && e.live == if Mark in middle then Some(next) else d.live
  {
    var whole := [Activate(next)] + middle + [Retire];
    assert whole[..|whole| - 1] == [Activate(next)] + middle;
    LegalPrefix(d, [Activate(next)], middle);
    NoSecondActivation(Replay(d, [Activate(next)]), middle);
    CommittedByMark(d.live, next, middle);
    QuiescentCatalog(d, whole);
    assert LastCommitted(d.live, whole) == LastCommitted(d.live, [Activate(next)] + middle);
  }

  // ---------------------------------------------------------------------------------------------
  // The processes that perform the actions.

  datatype Fault = NoFault | FailBefore | FailAfter | CrashBefore | CrashAfter

  /** How one awaited step ended for the process that issued it. */
  datatype Step = Done | Error | Halt

  datatype Outcome =
    | Completed  // returned normally
    | Failed     // threw, after its own rollback or completion succeeded
    | Stuck      // threw and left the transaction to the next recovery
    | Crashed    // the process died

  datatype Job = Recover | Commit(next: Catalog)

  ghost predicate FaultFree(faults: nat -> Fault, from: nat) {
    forall i: nat :: from <= i ==> faults(i) == NoFault
  }

  class SkillStore {
    var disk: Disk
    var clock: nat
    const faults: nat -> Fault
    ghost const start: Disk
    ghost var trace: seq<Action>

    ghost predicate Valid()
      reads this
    {
      && start.active.None?
      && Legal(start, trace)
      && disk == Replay(start, trace)
    }

    constructor (initial: Option<Catalog>, faults: nat -> Fault)
      ensures Valid() && disk == Disk(initial, None, []) && trace == [] && start == disk && clock == 0
    {
      disk := Disk(initial, None, []);
      start := Disk(initial, None, []);
      trace := [];
      clock := 0;
      this.faults := faults;
    }

    /** A step that touches no directory: an abort check or an identity assertion. */
    method Check() returns (r: Step)
      requires Valid()
      modifies this`clock
      ensures Valid() && clock == old(clock) + 1
      ensures faults(old(clock)).NoFault? ==> r == Done
    {
      var f := faults(clock);
      clock := clock + 1;
      r := if f.NoFault? then Done else if f.FailBefore? || f.FailAfter? then Error else Halt;
    }

    method Perform(a: Action)
      requires Valid() && Enabled(disk, a)
      modifies this`disk, this`trace
      ensures Valid() && disk == Do(old(disk), a) && trace == old(trace) + [a]
    {
      assert (trace + [a])[..|trace|] == trace;
      disk := Do(disk, a);
      trace := trace + [a];
    }

    /** One atomic rename or marker creation, with the sync and the checks that follow it. */
    method Attempt(a: Action) returns (r: Step)
      requires Valid() && Enabled(disk, a)
      modifies this
      ensures Valid() && clock == old(clock) + 1
      ensures faults(old(clock)).NoFault? ==> r == Done
      ensures r == Done ==> disk == Do(old(disk), a) && trace == old(trace) + [a]
      ensures r != Done ==>
                || (disk == old(disk) && trace == old(trace))
                || (disk == Do(old(disk), a) && trace == old(trace) + [a])
    {
      var f := faults(clock);
      clock := clock + 1;
      if f.NoFault? || f.FailAfter? || f.CrashAfter? {
        Perform(a);
      }
      r := if f.NoFault? then Done else if f.FailBefore? || f.FailAfter? then Error else Halt;
    }

    method MoveLiveSkillCatalogToBackup() returns (r: Step)
      requires Valid() && disk.active.Some? && !disk.active.value.marker
      modifies this
      ensures Valid() && disk.active.Some? && disk.active.value == old(disk.active.value).(backup := disk.active.value.backup)
      ensures LastCommitted(start.live, trace) == old(LastCommitted(start.live, trace))
      ensures FaultFree(faults, old(clock)) && old(disk.active.value.backup.None?) ==> r == Done
      ensures r == Done ==>
                && disk.live.None?
                && disk.active.value.backup == if old(disk.live.Some?) then old(disk.live) else old(disk.active.value.backup)
      ensures clock >= old(clock)
    {
      RunFacts(start, trace);
      if disk.live.None? {
        return Done;
      }
      if disk.active.value.backup.Some? {
        return Error;
      }
      r := Attempt(Backup);
      RunFacts(start, trace);
    }

    method RetireMaterializationOwner() returns (r: Step)
      requires Valid() && Enabled(disk, Retire)
      modifies this
      ensures Valid()
      ensures LastCommitted(start.live, trace) == old(LastCommitted(start.live, trace))
      ensures r == Done ==> disk.active.None? && disk.quarantine == old(disk.quarantine) + [old(disk.active.value)]
      ensures disk.live == old(disk.live)
      ensures faults(old(clock)).NoFault? ==> r == Done
      ensures clock >= old(clock)
    {
      RunFacts(start, trace);
      r := Attempt(Retire);
      RunFacts(start, trace);
    }

    method RollbackSkillTransaction() returns (r: Step)
      requires Valid() && disk.active.Some? && !disk.active.value.marker
      modifies this
      ensures Valid()
      ensures LastCommitted(start.live, trace) == old(LastCommitted(start.live, trace))
      ensures r == Done ==> disk.active.None? && disk.live == LastCommitted(start.live, trace)
      ensures FaultFree(faults, old(clock)) ==> r == Done
      ensures clock >= old(clock)
    {
      RunFacts(start, trace);
      if disk.active.value.next.None? {
        return Error;
      }
      if disk.live.Some? && disk.active.value.backup.Some? {
        return Error;
      }
      if disk.active.value.backup.Some? {
        r := Attempt(Restore);
        RunFacts(start, trace);
        if r != Done {
          return;
        }
      }
      r := RetireMaterializationOwner();
      RunFacts(start, trace);
    }

    method FinishCommittedSkillTransaction() returns (r: Step)
      requires Valid() && disk.active.Some? && disk.active.value.marker
      modifies this
      ensures Valid()
      ensures LastCommitted(start.live, trace) == old(LastCommitted(start.live, trace))
      ensures r == Done ==> Enabled(disk, Retire) && disk.live == LastCommitted(start.live, trace)
      ensures FaultFree(faults, old(clock)) ==> r == Done
      ensures clock >= old(clock)
    {
      RunFacts(start, trace);
      if disk.live.Some? && disk.active.value.next.Some? {
        return Error;
      }
      if disk.live.None? && disk.active.value.next.None? {
        return Error;
      }
      if disk.live.Some? {
        return Done;
      }
      r := Attempt(Install);
      RunFacts(start, trace);
    }

    /** Finishes a marked transaction, as a commit and a recovery both do. */
    method FinishAndRetire() returns (r: Step)
      requires Valid() && disk.active.Some? && disk.active.value.marker
      modifies this
      ensures Valid()
      ensures LastCommitted(start.live, trace) == old(LastCommitted(start.live, trace))
      ensures r == Done ==> disk.active.None? && disk.live == LastCommitted(start.live, trace)
      ensures FaultFree(faults, old(clock)) ==> r == Done
      ensures clock >= old(clock)
    {
      r := FinishCommittedSkillTransaction();
      if r == Done {
        r := RetireMaterializationOwner();
      }
    }

    /** The part of a commit that the source guards with its catch clause. */
    method BackupAndMark(next: Catalog) returns (r: Step)
      requires Valid() && disk.active == Some(Owner(Some(next), None, false))
      modifies this
      ensures Valid() && disk.active.Some?
      ensures LastCommitted(start.live, trace)
           == if disk.active.value.marker then Some(next) else old(LastCommitted(start.live, trace))
      ensures r == Done ==> disk.active.value.marker
      ensures FaultFree(faults, old(clock)) ==> r == Done
      ensures clock >= old(clock)
    {
      r := MoveLiveSkillCatalogToBackup();
      if r != Done {
        return;
      }
      r := Check();
      if r != Done {
        return;
      }
      if disk.live.Some? {
        return Error;
      }
      RunFacts(start, trace);
      r := Attempt(Mark);
      RunFacts(start, trace);
    }

    method CommitSkillTransaction(next: Catalog) returns (outcome: Outcome)
      requires Valid()
      modifies this
      ensures Valid()
      ensures || LastCommitted(start.live, trace) == old(LastCommitted(start.live, trace))
              || LastCommitted(start.live, trace) == Some(next)
      ensures outcome == Completed ==> disk.active.None? && disk.live == Some(next)
      ensures outcome == Failed ==> disk.active.None? && disk.live == LastCommitted(start.live, trace)
      ensures FaultFree(faults, old(clock)) && old(disk.active.None?) ==> outcome == Completed
      ensures old(disk.active.Some?) ==> disk == old(disk)
      ensures clock >= old(clock)
    {
      RunFacts(start, trace);
      var r := Check();
      if r != Done {
        return if r == Halt then Crashed else if disk.active.None? then Failed else Stuck;
      }
      if disk.active.Some? {
        return Stuck;  // the name `active` is taken by a directory that is not empty
      }
      r := Attempt(Activate(next));
      RunFacts(start, trace);
      if r != Done {
        return if r == Halt then Crashed else if disk.active.None? then Failed else Stuck;
      }

      r := BackupAndMark(next);
      if r == Halt {
        return Crashed;
      }
      if r == Error {
        if disk.active.value.marker {
          r := FinishAndRetire();
        } else {
          r := RollbackSkillTransaction();
        }
        return if r == Halt then Crashed else if r == Error then Stuck else Failed;
      }
      r := FinishAndRetire();
      return if r == Halt then Crashed else if r == Error then Stuck else Completed;
    }

    method RecoverSkillTransactions() returns (outcome: Outcome)
      requires Valid()
      modifies this
      ensures Valid()
      ensures LastCommitted(start.live, trace) == old(LastCommitted(start.live, trace))
      ensures outcome == Completed ==> disk.active.None? && disk.live == LastCommitted(start.live, trace)
      ensures FaultFree(faults, old(clock)) ==> outcome == Completed
      ensures clock >= old(clock)
    {
      RunFacts(start, trace);
      var r := Check();
      if r != Done {
        return if r == Halt then Crashed else Stuck;
      }
      if disk.active.None? {
        return Completed;
      }
      if disk.active.value.marker {
        r := FinishAndRetire();
      } else {
        r := RollbackSkillTransaction();
      }
      return if r == Halt then Crashed else if r == Error then Stuck else Completed;
    }

    /** Any number of recoveries and commits in any order, as the processes of a session start
        and die; any of them may fail or crash at any step.  A last recovery that completes shows
        exactly the last committed catalog and leaves nothing in progress. */
    method RunJobs(jobs: seq<Job>) returns (outcome: Outcome)
      requires Valid()
      modifies this
      ensures Valid()
      ensures || LastCommitted(start.live, trace) == old(LastCommitted(start.live, trace))
              || exists c :: Commit(c) in jobs && LastCommitted(start.live, trace) == Some(c)
      ensures outcome == Completed ==> disk.active.None? && disk.live == LastCommitted(start.live, trace)
    {
      for i := 0 to |jobs|
        invariant Valid()
        invariant || LastCommitted(start.live, trace) == old(LastCommitted(start.live, trace))
                  || exists c :: Commit(c) in jobs && LastCommitted(start.live, trace) == Some(c)
      {
        assert jobs[i] in jobs;
        match jobs[i]
        case Recover => var recovered := RecoverSkillTransactions();
        case Commit(next) => var committed := CommitSkillTransaction(next);
      }
      outcome := RecoverSkillTransactions();
    }
  }
}
