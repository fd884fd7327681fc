/** Applying one committed mutation to a Session snapshot.

    Refusals keep the two codes that callers act on; the remaining codes are one. */
module ContractReducer {
  import opened Wrappers
  import opened Timestamps
  import opened RunGraph
  import opened ContractState

  datatype Entity = ASession(session: Session) | ARun(run: Run) | AnItem(item: Item) | AnInteraction(interaction: Interaction)

  datatype Operation = Put(entity: Entity) | Remove(id: Id)

  datatype Mutation = Mutation(mutationId: Id, sessionId: Id, baseRevision: nat, revision: nat,
                               committedAt: Timestamp, operations: seq<Operation>)

  datatype Code = SessionMismatch | RevisionGap | Invalid

  datatype Key = SessionKey(id: Id) | RunKey(id: Id) | ItemKey(runId: Id, id: Id) | InteractionKey(id: Id)

  function EntityKey(e: Entity): Key {
    match e
    case ASession(session) => SessionKey(session.id)
    case ARun(run) => RunKey(run.id)
    case AnItem(item) => ItemKey(item.runId, item.id)
    case AnInteraction(interaction) => InteractionKey(interaction.id)
  }

  function KeyOf(op: Operation): Key {
    if op.Remove? then RunKey(op.id) else EntityKey(op.entity)
  }

  datatype Content = Content(session: Session, runs: seq<Run>, items: seq<Item>, interactions: seq<Interaction>)

  function ContentOf(s: Snapshot): Content {
    Content(s.session, s.runs, s.items, s.interactions)
  }

  function KeepRuns(runs: seq<Run>, removed: set<Id>): seq<Run> {
    if runs == [] then [] else (if runs[0].id in removed then [] else [runs[0]]) + KeepRuns(runs[1..], removed)
  }

  function KeepItems(items: seq<Item>, removed: set<Id>): seq<Item> {
    if items == [] then [] else (if items[0].runId in removed then [] else [items[0]]) + KeepItems(items[1..], removed)
  }

  function KeepInteractions(xs: seq<Interaction>, removed: set<Id>): seq<Interaction> {
    if xs == [] then [] else (if xs[0].runId in removed then [] else [xs[0]]) + KeepInteractions(xs[1..], removed)
  }

  function ApplyPut(rules: Rules, c: Content, e: Entity): Option<Content> {
    match e
    case ASession(next) => if SessionTransition(c.session, next) then Some(c.(session := next)) else None
    case ARun(next) => (
      var runs := PutRun(c.runs, next);
      if runs.None? then None else Some(c.(runs := runs.value)))
    case AnItem(next) => (
      var items := PutItem(c.items, next);
      if items.None? then None else Some(c.(items := items.value)))
    case AnInteraction(next) => (
      var xs := PutInteraction(rules, c.interactions, next);
      if xs.None? then None else Some(c.(interactions := xs.value)))
  }

  function Without(c: Content, removed: set<Id>): Content {
    c.(runs := KeepRuns(c.runs, removed),
       items := KeepItems(c.items, removed),
       interactions := KeepInteractions(c.interactions, removed))
  }

  predicate AllTerminal(runs: seq<Run>, ids: set<Id>) {
    forall r :: r in runs && r.id in ids ==> !r.status.Active?
  }

  ghost function ApplyRemove(c: Content, id: Id): Option<Content> {
    if FindRun(c.runs, id).None? then None
    else
      var removed := Subtree(GraphOf(c.runs, ParentRunId), id);
      if AllTerminal(c.runs, removed) then Some(Without(c, removed)) else None
  }

  ghost function ApplyOperation(rules: Rules, c: Content, op: Operation): Option<Content> {
    if op.Put? then ApplyPut(rules, c, op.entity) else ApplyRemove(c, op.id)
  }

  ghost function ApplyOperations(rules: Rules, c: Content, ops: seq<Operation>): Option<Content> {
    if ops == [] then Some(c)
    else
      var before := ApplyOperations(rules, c, ops[..|ops| - 1]);
      if before.None? then None else ApplyOperation(rules, before.value, ops[|ops| - 1])
  }

  predicate UniqueTargets(ops: seq<Operation>) {
    forall i, j :: 0 <= i < j < |ops| ==> KeyOf(ops[i]) != KeyOf(ops[j])
  }

  predicate Unmixed(ops: seq<Operation>) {
    (exists op :: op in ops && op.Remove?) ==> forall op :: op in ops ==> op.Remove?
  }

  predicate NewRun(s: Snapshot, op: Operation) {
    op.Put? && op.entity.ARun? && FindRun(s.runs, op.entity.run.id).None?
  }

  /** The Runs that were active before the mutation, and those it starts. */
  predicate Writable(s: Snapshot, ops: seq<Operation>, id: Id) {
    || (exists r :: r in s.runs && r.status.Active? && r.id == id)
    || (exists op :: op in ops && NewRun(s, op) && op.entity.run.id == id)
  }

  predicate ItemsWritable(s: Snapshot, ops: seq<Operation>) {
    forall op :: op in ops && op.Put? && op.entity.AnItem? ==> Writable(s, ops, op.entity.item.runId)
  }

  predicate RetriesKnown(s: Snapshot, ops: seq<Operation>, runs: seq<Run>) {
    forall op :: op in ops && NewRun(s, op) && op.entity.run.retryOf.Some? ==>
      RetryTarget(op.entity.run, FindRun(runs, op.entity.run.retryOf.value), true)
  }

  predicate Admissible(s: Snapshot, m: Mutation) {
    NotBefore(m.committedAt, s.capturedAt) && Unmixed(m.operations) && UniqueTargets(m.operations)
    && ItemsWritable(s, m.operations)
  }

  function NextSnapshot(m: Mutation, c: Content): Snapshot {
    Snapshot(m.revision, m.committedAt, c.session, c.runs, c.items, c.interactions)
  }

  ghost function Applied(rules: Rules, s: Snapshot, m: Mutation): Result<Snapshot, Code> {
    if m.sessionId != s.session.id then Failure(SessionMismatch)
    else if m.revision <= s.revision then Success(s)
    else if m.baseRevision != s.revision || m.revision != s.revision + 1 then Failure(RevisionGap)
    else if !Admissible(s, m) then Failure(Invalid)
    else
      var c := ApplyOperations(rules, ContentOf(s), m.operations);
      if c.None? || !RetriesKnown(s, m.operations, c.value.runs) then Failure(Invalid)
      else if ValidState(rules, NextSnapshot(m, c.value)) then Success(NextSnapshot(m, c.value))
      else Failure(Invalid)
  }

  // ---------------------------------------------------------------------------------------------
  // The reducer.

  lemma {:induction false} FailureSticks(rules: Rules, c: Content, ops: seq<Operation>, i: nat)
    requires i <= |ops| && ApplyOperations(rules, c, ops[..i]).None?
    ensures ApplyOperations(rules, c, ops).None?
  {
    if i < |ops| {
      var shorter := ops[..|ops| - 1];
      assert shorter[..i] == ops[..i];
      FailureSticks(rules, c, shorter, i);
    } else {
      assert ops[..i] == ops;
    }
  }

  lemma OneMore(rules: Rules, c: Content, ops: seq<Operation>, i: nat)
    requires i < |ops| && ApplyOperations(rules, c, ops[..i]).Some?
    ensures ApplyOperations(rules, c, ops[..i + 1])
            == ApplyOperation(rules, ApplyOperations(rules, c, ops[..i]).value, ops[i])
  {
    assert ops[..i + 1][..i] == ops[..i];
  }

  /** Removes a Run and everything below it, unless some of that is still active. */
  method RemoveTree(c: Content, id: Id) returns (r: Option<Content>)
    ensures r == ApplyRemove(c, id)
  {
    if FindRun(c.runs, id).None? {
      return None;
    }
    GraphNodes(c.runs, ParentRunId);
    var g := GraphOf(c.runs, ParentRunId);
    assert FindRun(c.runs, id).value.id in g;
    var removed := RemovalClosure(RunIds(c.runs), g, id);
    if !AllTerminal(c.runs, removed) {
      return None;
    }
    r := Some(Without(c, removed));
  }

  method ApplyMutation(rules: Rules, s: Snapshot, m: Mutation) returns (r: Result<Snapshot, Code>)
    ensures r == Applied(rules, s, m)
  {
    if m.sessionId != s.session.id {
      return Failure(SessionMismatch);
    }
    if m.revision <= s.revision {
      return Success(s);
    }
    if m.baseRevision != s.revision || m.revision != s.revision + 1 {
      return Failure(RevisionGap);
    }
    if !Admissible(s, m) {
      return Failure(Invalid);
    }
    var ops := m.operations;
    var start := ContentOf(s);
    var c := start;
    for i := 0 to |ops|
      invariant ApplyOperations(rules, start, ops[..i]) == Some(c)
    {
      OneMore(rules, start, ops, i);
      var next: Option<Content>;
      if ops[i].Put? {
        next := ApplyPut(rules, c, ops[i].entity);
      } else {
        next := RemoveTree(c, ops[i].id);
      }
      if next.None? {
        FailureSticks(rules, start, ops, i + 1);
        return Failure(Invalid);
      }
      c := next.value;
    }
    assert ops[..|ops|] == ops;
    if !RetriesKnown(s, ops, c.runs) {
      return Failure(Invalid);
    }
    var valid := ValidateState(rules, NextSnapshot(m, c));
    r := if valid then Success(NextSnapshot(m, c)) else Failure(Invalid);
  }
}
