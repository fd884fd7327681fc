/** A Session from its opening to its closing, each step an accepted mutation. */
module ContractPlay {
  import opened Wrappers
  import opened Timestamps
  import opened RunGraph
  import opened ContractState
  import opened ContractReducer
  import opened ContractHistory
  import opened ContractChanges

  function At(second: int): Timestamp {
    Timestamp(second, [])
  }

  lemma SecondsCompare()
    ensures forall a, b :: NotBefore(At(a), At(b)) <==> a >= b
    ensures forall a, b :: Compare(At(a), At(b)) > 0 <==> a > b
    ensures forall a, b :: Compare(At(a), At(b)) < 0 <==> a < b
  {
    forall a, b ensures (NotBefore(At(a), At(b)) <==> a >= b) && (Compare(At(a), At(b)) > 0 <==> a > b)
                        && (Compare(At(a), At(b)) < 0 <==> a < b) {
      CompareIsChronological(At(a), At(b));
    }
  }

  /** An open Session, a Run of the user that has used something, an Item and a blocking question of it that
      expires later; `used` is the Run with its usage later on. */
  datatype Cast = Cast(session: Session, run: Run, used: Run, item: Item, question: Interaction)

  ghost predicate IsCast(c: Cast) {
    && c.session.status.SessionOpen? && c.session.createdAt == c.session.updatedAt == At(0) && c.session.closedAt.None?
    && c.session.parent.None?
    && IsRunOfCast(c.run, At(1)) && RunGoesOn(c.run, c.used) && IsRunOfCast(c.used, At(1))
    && c.item.status.Active? && c.item.runId == c.run.id && c.item.createdAt == c.item.updatedAt == At(1) && c.item.endedAt.None?
    && c.item.terminalItemId.None?
    && c.question.status.Open? && c.question.blocking && c.question.runId == c.run.id && c.question.createdAt == At(1)
    && c.question.expiresAt == At(9) && c.question.endedAt.None? && c.question.itemId.None? && c.question.kind.Input?
  }

  ghost predicate IsRunOfCast(run: Run, startedAt: Timestamp) {
    && run.status.Active? && run.origin.User? && run.input != [] && run.startedAt == startedAt && run.endedAt.None?
    && run.parentRunId.None? && run.retryOf.None?
  }

  /** Rules that permit everything. */
  ghost predicate PermitsAll(rules: Rules) {
    && (forall s :: rules.session(s)) && (forall s, i :: rules.item(s, i)) && (forall s, x :: rules.interaction(s, x))
    && (forall x :: rules.interactionContent(x)) && (forall s, rs, items, xs :: rules.content(s, rs, items, xs))
  }

  // The snapshots.

  function Opened(c: Cast): Snapshot {
    Snapshot(0, At(0), c.session, [], [], [])
  }

  function Started(c: Cast): Snapshot {
    Snapshot(1, At(1), c.session, [c.run], [c.item], [c.question])
  }

  function Answer(c: Cast): Interaction {
    c.question.(status := Resolved, endedAt := Some(At(2)))
  }

  function Answered(c: Cast): Snapshot {
    Snapshot(2, At(2), c.session, [c.used], [c.item], [Answer(c)])
  }

  function OverRun(c: Cast): Run {
    c.used.(status := Completed, endedAt := Some(At(3)))
  }

  function OverItem(c: Cast): Item {
    c.item.(status := Completed, updatedAt := At(3), endedAt := Some(At(3)))
  }

  function Ended(c: Cast): Snapshot {
    Snapshot(3, At(3), c.session, [OverRun(c)], [OverItem(c)], [Answer(c)])
  }

  function ClosedSession(c: Cast): Session {
    c.session.(status := SessionClosed, updatedAt := At(4), closedAt := Some(At(4)))
  }

  function Closed(c: Cast): Snapshot {
    Snapshot(4, At(4), ClosedSession(c), [OverRun(c)], [OverItem(c)], [Answer(c)])
  }

  function Cleared(c: Cast): Snapshot {
    Snapshot(5, At(5), ClosedSession(c), [], [], [])
  }

  // ---------------------------------------------------------------------------------------------
  // They are valid.

  lemma NoTargetsNoCycles(runs: seq<Run>, relation: Relation)
    requires forall r :: r in runs ==> Target(r, relation).None?
    ensures Acyclic(GraphOf(runs, relation))
  {
    var g := GraphOf(runs, relation);
    forall id, n: nat | id in g && n > 0 ensures Walk(g, id, n) != Some(id) {
      assert FindRun(runs, id).value in runs;
      assert Successor(g, id).None?;
    }
  }

  lemma EmptyIsValid(rules: Rules, s: Snapshot)
    requires PermitsAll(rules) && SessionValid(rules, s.session, s.capturedAt) && s.runs == [] && s.items == [] && s.interactions == []
    ensures ValidState(rules, s)
  {
    NoTargetsNoCycles(s.runs, ParentRunId);
    NoTargetsNoCycles(s.runs, RetryOf);
  }

  lemma OneRunIsValid(rules: Rules, s: Snapshot, run: Run, item: Item, x: Interaction)
    requires PermitsAll(rules) && SessionValid(rules, s.session, s.capturedAt)
    requires s.runs == [run] && s.items == [item] && s.interactions == [x] && run.parentRunId.None? && run.retryOf.None?
    requires RunValid(s, run) && ItemValid(rules, s, item) && InteractionValid(rules, s, x) && ClosedValid(s)
    ensures ValidState(rules, s)
  {
    NoTargetsNoCycles(s.runs, ParentRunId);
    NoTargetsNoCycles(s.runs, RetryOf);
  }

  lemma OpenedIsValid(rules: Rules, c: Cast)
    requires PermitsAll(rules) && IsCast(c)
    ensures ValidState(rules, Opened(c))
  {
    SecondsCompare();
    EmptyIsValid(rules, Opened(c));
  }

  lemma StartedIsValid(rules: Rules, c: Cast)
    requires PermitsAll(rules) && IsCast(c)
    ensures ValidState(rules, Started(c))
  {
    SecondsCompare();
    OneRunIsValid(rules, Started(c), c.run, c.item, c.question);
  }

  lemma AnsweredIsValid(rules: Rules, c: Cast)
    requires PermitsAll(rules) && IsCast(c)
    ensures ValidState(rules, Answered(c))
  {
    SecondsCompare();
    OneRunIsValid(rules, Answered(c), c.used, c.item, Answer(c));
  }

  lemma EndedIsValid(rules: Rules, c: Cast)
    requires PermitsAll(rules) && IsCast(c)
    ensures ValidState(rules, Ended(c))
  {
    SecondsCompare();
    OneRunIsValid(rules, Ended(c), OverRun(c), OverItem(c), Answer(c));
  }

  lemma ClosedIsValid(rules: Rules, c: Cast)
    requires PermitsAll(rules) && IsCast(c)
    ensures ValidState(rules, Closed(c))
  {
    SecondsCompare();
    OneRunIsValid(rules, Closed(c), OverRun(c), OverItem(c), Answer(c));
  }

  lemma ClearedIsValid(rules: Rules, c: Cast)
    requires PermitsAll(rules) && IsCast(c)
    ensures ValidState(rules, Cleared(c))
  {
    SecondsCompare();
    EmptyIsValid(rules, Cleared(c));
  }

  // ---------------------------------------------------------------------------------------------
  // They follow one another.

  function Committed(c: Cast, revision: nat, ops: seq<Operation>): Mutation
    requires revision > 0
  {
    Mutation("", c.session.id, revision - 1, revision, At(revision), ops)
  }

  /** The mutations, in order. */
  function Start(c: Cast): Mutation {
    Committed(c, 1, [Put(ARun(c.run)), Put(AnItem(c.item)), Put(AnInteraction(c.question))])
  }

  function Hear(c: Cast): Mutation {
    Committed(c, 2, [Put(ARun(c.used)), Put(AnInteraction(Answer(c)))])
  }

  function End(c: Cast): Mutation {
    Committed(c, 3, [Put(AnItem(OverItem(c))), Put(ARun(OverRun(c)))])
  }

  function Close(c: Cast): Mutation {
    Committed(c, 4, [Put(ASession(ClosedSession(c)))])
  }

  function Clear(c: Cast): Mutation {
    Committed(c, 5, [Remove(c.run.id)])
  }

  ghost function Then(rules: Rules, c: Option<Content>, op: Operation): Option<Content> {
    if c.None? then None else ApplyOperation(rules, c.value, op)
  }

  lemma TwoOperations(rules: Rules, c: Content, x: Operation, y: Operation)
    ensures ApplyOperations(rules, c, [x, y]) == Then(rules, ApplyOperation(rules, c, x), y)
  {
    OneOperation(rules, c, x);
    assert [x, y][..1] == [x];
  }

  lemma ThreeOperations(rules: Rules, c: Content, x: Operation, y: Operation, z: Operation)
    ensures ApplyOperations(rules, c, [x, y, z]) == Then(rules, Then(rules, ApplyOperation(rules, c, x), y), z)
  {
    TwoOperations(rules, c, x, y);
    assert [x, y, z][..2] == [x, y];
  }

  lemma Accepts(rules: Rules, s: Snapshot, m: Mutation, d: Content)
    requires Successive(s, m) && Admissible(s, m) && ApplyOperations(rules, ContentOf(s), m.operations) == Some(d)
    requires RetriesKnown(s, m.operations, d.runs) && ValidState(rules, NextSnapshot(m, d))
    ensures Applied(rules, s, m) == Success(NextSnapshot(m, d))
  {
  }

  lemma StartApplies(rules: Rules, c: Cast)
    requires PermitsAll(rules) && IsCast(c)
    ensures ApplyOperations(rules, ContentOf(Opened(c)), Start(c).operations) == Some(ContentOf(Started(c)))
  {
    ThreeOperations(rules, ContentOf(Opened(c)), Put(ARun(c.run)), Put(AnItem(c.item)), Put(AnInteraction(c.question)));
  }

  lemma StartIsAdmissible(c: Cast)
    requires IsCast(c)
    ensures Admissible(Opened(c), Start(c)) && RetriesKnown(Opened(c), Start(c).operations, Started(c).runs)
  {
    SecondsCompare();
    var ops := Start(c).operations;
    assert ops[0] in ops && NewRun(Opened(c), ops[0]);
    assert Writable(Opened(c), ops, c.run.id);
  }

  lemma HearApplies(rules: Rules, c: Cast)
    requires PermitsAll(rules) && IsCast(c)
    ensures ApplyOperations(rules, ContentOf(Started(c)), Hear(c).operations) == Some(ContentOf(Answered(c)))
  {
    TwoOperations(rules, ContentOf(Started(c)), Put(ARun(c.used)), Put(AnInteraction(Answer(c))));
    PutRunReplaces(Started(c).runs, 0, c.used);
    assert [c.run][0 := c.used] == [c.used];
    assert [Answer(c)] + Started(c).interactions[1..] == [Answer(c)];
  }

  lemma HearIsAdmissible(c: Cast)
    requires IsCast(c)
    ensures Admissible(Started(c), Hear(c)) && RetriesKnown(Started(c), Hear(c).operations, Answered(c).runs)
  {
    SecondsCompare();
  }

  lemma ItemIsPut(c: Cast)
    requires IsCast(c)
    ensures PutItem([c.item], OverItem(c)) == Some([OverItem(c)])
  {
    SecondsCompare();
    assert ItemTransition(c.item, OverItem(c));
    assert [OverItem(c)] + [c.item][1..] == [OverItem(c)];
  }

  lemma RunIsPut(c: Cast)
    requires IsCast(c)
    ensures PutRun([c.used], OverRun(c)) == Some([OverRun(c)])
  {
    PutRunReplaces([c.used], 0, OverRun(c));
    assert [c.used][0 := OverRun(c)] == [OverRun(c)];
  }

  lemma EndApplies(rules: Rules, c: Cast)
    requires PermitsAll(rules) && IsCast(c)
    ensures ApplyOperations(rules, ContentOf(Answered(c)), End(c).operations) == Some(ContentOf(Ended(c)))
  {
    TwoOperations(rules, ContentOf(Answered(c)), Put(AnItem(OverItem(c))), Put(ARun(OverRun(c))));
    ItemIsPut(c);
    RunIsPut(c);
  }

  lemma EndIsAdmissible(c: Cast)
    requires IsCast(c)
    ensures Admissible(Answered(c), End(c)) && RetriesKnown(Answered(c), End(c).operations, Ended(c).runs)
  {
    SecondsCompare();
    assert c.used in Answered(c).runs && Writable(Answered(c), End(c).operations, c.run.id);
  }

  lemma CloseApplies(rules: Rules, c: Cast)
    requires PermitsAll(rules) && IsCast(c)
    ensures ApplyOperations(rules, ContentOf(Ended(c)), Close(c).operations) == Some(ContentOf(Closed(c)))
    ensures Admissible(Ended(c), Close(c))
  {
    OneOperation(rules, ContentOf(Ended(c)), Put(ASession(ClosedSession(c))));
    SecondsCompare();
  }

  lemma AloneInItsTree(runs: seq<Run>, run: Run)
    requires runs == [run] && run.parentRunId.None?
    ensures Subtree(GraphOf(runs, ParentRunId), run.id) == {run.id}
  {
    var g := GraphOf(runs, ParentRunId);
    assert run in runs && run.id in g;
    assert Walk(g, run.id, 0) == Some(run.id);
  }

  lemma NothingIsKept(s: Snapshot, id: Id)
    requires |s.runs| == |s.items| == |s.interactions| == 1
    requires s.runs[0].id == s.items[0].runId == s.interactions[0].runId == id
    ensures KeepRuns(s.runs, {id}) == [] && KeepItems(s.items, {id}) == [] && KeepInteractions(s.interactions, {id}) == []
  {
  }

  lemma ClearRemoves(c: Cast)
    requires IsCast(c)
    ensures ApplyRemove(ContentOf(Closed(c)), c.run.id) == Some(ContentOf(Cleared(c)))
  {
    AloneInItsTree(Closed(c).runs, OverRun(c));
    NothingIsKept(Closed(c), c.run.id);
  }

  lemma ClearApplies(rules: Rules, c: Cast)
    requires PermitsAll(rules) && IsCast(c)
    ensures ApplyOperations(rules, ContentOf(Closed(c)), Clear(c).operations) == Some(ContentOf(Cleared(c)))
    ensures Admissible(Closed(c), Clear(c))
  {
    OneOperation(rules, ContentOf(Closed(c)), Remove(c.run.id));
    ClearRemoves(c);
    SecondsCompare();
  }

  lemma ActivitiesOfThePlay(c: Cast)
    requires IsCast(c)
    ensures DeriveSessionActivity(Opened(c)).Idle? && DeriveSessionActivity(Started(c)).RequiresAction?
    ensures DeriveSessionActivity(Answered(c)).Running? && DeriveSessionActivity(Ended(c)).Idle? && DeriveSessionActivity(Closed(c)).ClosedActivity?
  {
    assert c.question in Started(c).interactions && c.used in Answered(c).runs;
  }

  /** Such a Session happens: it opens, starts a Run with an Item and a blocking question, hears the answer
      while usage grows, ends the Run, closes and loses it; and it is idle, requires action, runs, is idle
      and is closed in turn. */
  lemma SuchSessionHappens(rules: Rules, c: Cast)
    requires PermitsAll(rules) && IsCast(c)
    ensures ValidState(rules, Opened(c))
    ensures Becomes(rules, Opened(c), Start(c), Started(c)) && Becomes(rules, Started(c), Hear(c), Answered(c))
    ensures Becomes(rules, Answered(c), End(c), Ended(c)) && Becomes(rules, Ended(c), Close(c), Closed(c))
    ensures Becomes(rules, Closed(c), Clear(c), Cleared(c))
    ensures DeriveSessionActivity(Opened(c)).Idle? && DeriveSessionActivity(Started(c)).RequiresAction?
    ensures DeriveSessionActivity(Answered(c)).Running? && DeriveSessionActivity(Ended(c)).Idle? && DeriveSessionActivity(Closed(c)).ClosedActivity?
  {
    OpenedIsValid(rules, c);
    StartHappens(rules, c);
    HearHappens(rules, c);
    EndHappens(rules, c);
    CloseHappens(rules, c);
    ClearHappens(rules, c);
    ActivitiesOfThePlay(c);
  }

  lemma StartHappens(rules: Rules, c: Cast)
    requires PermitsAll(rules) && IsCast(c)
    ensures Becomes(rules, Opened(c), Start(c), Started(c))
  {
    StartApplies(rules, c);
    StartIsAdmissible(c);
    StartedIsValid(rules, c);
    Accepts(rules, Opened(c), Start(c), ContentOf(Started(c)));
  }

  lemma HearHappens(rules: Rules, c: Cast)
    requires PermitsAll(rules) && IsCast(c)
    ensures Becomes(rules, Started(c), Hear(c), Answered(c))
  {
    HearApplies(rules, c);
    HearIsAdmissible(c);
    AnsweredIsValid(rules, c);
    Accepts(rules, Started(c), Hear(c), ContentOf(Answered(c)));
  }

  lemma EndHappens(rules: Rules, c: Cast)
    requires PermitsAll(rules) && IsCast(c)
    ensures Becomes(rules, Answered(c), End(c), Ended(c))
  {
    EndApplies(rules, c);
    EndIsAdmissible(c);
    EndedIsValid(rules, c);
    Accepts(rules, Answered(c), End(c), ContentOf(Ended(c)));
  }

  lemma CloseHappens(rules: Rules, c: Cast)
    requires PermitsAll(rules) && IsCast(c)
    ensures Becomes(rules, Ended(c), Close(c), Closed(c))
  {
    CloseApplies(rules, c);
    ClosedIsValid(rules, c);
    Accepts(rules, Ended(c), Close(c), ContentOf(Closed(c)));
  }

  lemma ClearHappens(rules: Rules, c: Cast)
    requires PermitsAll(rules) && IsCast(c)
    ensures Becomes(rules, Closed(c), Clear(c), Cleared(c))
  {
    ClearApplies(rules, c);
    ClearedIsValid(rules, c);
    Accepts(rules, Closed(c), Clear(c), ContentOf(Cleared(c)));
  }
}
