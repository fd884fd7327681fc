/** The Session snapshot: its entities, their transitions and its validation.

    Fields that no rule compares are kept together as opaque JSON.  The checks that look at the
    content of one entity only (negotiated capabilities, config, plan entries, permission options)
    are the parameter `Rules`: everything below holds whatever they are. */
module ContractState {
  import opened Wrappers
  import opened Timestamps
  import opened RunGraph

  type Json(==, !new)

  datatype SessionStatus = SessionOpen | SessionClosed

  datatype Parent = Parent(sessionId: Id, revision: nat)

  datatype Session = Session(id: Id, status: SessionStatus, createdAt: Timestamp, updatedAt: Timestamp,
                             closedAt: Option<Timestamp>, capabilities: map<string, Json>,
                             parent: Option<Parent>, content: Json)

  datatype Status = Active | Completed | Failed | Cancelled

  datatype Origin = User | Agent | System

  datatype Cost = Cost(amount: real, currency: string)

  datatype Run = Run(id: Id, status: Status, origin: Origin, input: seq<Json>, startedAt: Timestamp,
                     endedAt: Option<Timestamp>, parentRunId: Option<Id>, retryOf: Option<Id>,
                     usage: map<string, nat>, cost: Option<Cost>, content: Json)

  /** The kind of an Item with the fields that belong to its identity. */
  datatype ItemKind =
    | Message(role: string)
    | Reasoning
    | Plan
    | Tool(origin: string)
    | Terminal
    | Change
    | Artifact
    | Extension(name: string)

  datatype Item = Item(id: Id, runId: Id, status: Status, kind: ItemKind, createdAt: Timestamp, updatedAt: Timestamp,
                       endedAt: Option<Timestamp>, audience: Json, error: Option<Json>,
                       terminalItemId: Option<Id>, content: Json, provenance: Option<Json>)

  datatype InteractionStatus = Open | Resolved | Expired

  /** A permission request may have an Item as its subject. */
  datatype InteractionKind = Permission(subjectItemId: Option<Id>) | Input | ToolCall | ExtensionKind(name: string)

  datatype Interaction = Interaction(id: Id, runId: Id, itemId: Option<Id>, status: InteractionStatus,
                                     kind: InteractionKind, createdAt: Timestamp, expiresAt: Timestamp,
                                     endedAt: Option<Timestamp>, blocking: bool, audience: Json,
                                     request: Json, content: Json)

  datatype Snapshot = Snapshot(revision: nat, capturedAt: Timestamp, session: Session,
                               runs: seq<Run>, items: seq<Item>, interactions: seq<Interaction>)

  datatype Rules = Rules(
    session: Session -> bool,
    content: (Session, seq<Run>, seq<Item>, seq<Interaction>) -> bool,
    item: (Session, Item) -> bool,
    interaction: (Session, Interaction) -> bool,
    interactionContent: Interaction -> bool)

  // ---------------------------------------------------------------------------------------------
  // Transitions.

  predicate NotBeforeIfAny(t: Option<Timestamp>, bound: Timestamp) {
    t.Some? ==> NotBefore(t.value, bound)
  }

  predicate NotAfterIfAny(t: Option<Timestamp>, bound: Timestamp) {
    t.Some? ==> NotBefore(bound, t.value)
  }

  predicate SessionTransition(previous: Session, next: Session) {
    && previous.id == next.id
    && previous.createdAt == next.createdAt && previous.parent == next.parent
    && NotBefore(next.updatedAt, previous.updatedAt)
    && (forall name :: name in previous.capabilities ==>
          name in next.capabilities && next.capabilities[name] == previous.capabilities[name])
    && previous.status.SessionOpen?
  }

  predicate RunTransition(previous: Run, next: Run) {
    && previous.id == next.id
    && previous.startedAt == next.startedAt && previous.origin == next.origin
    && previous.parentRunId == next.parentRunId && previous.retryOf == next.retryOf
    && previous.input == next.input
    && (forall key :: key in previous.usage ==> key in next.usage && next.usage[key] >= previous.usage[key])
    && (previous.cost.Some? ==>
          next.cost.Some? && next.cost.value.currency == previous.cost.value.currency
          && next.cost.value.amount >= previous.cost.value.amount)
    && previous.status.Active?
  }

  predicate NewItem(next: Item) {
    !next.status.Active? ==> NotBeforeIfAny(next.endedAt, next.updatedAt)
  }

  predicate ItemTransition(previous: Item, next: Item) {
    && previous.id == next.id && previous.runId == next.runId && previous.kind == next.kind
    && previous.createdAt == next.createdAt && previous.audience == next.audience
    && NotBefore(next.updatedAt, previous.updatedAt)
    && if !previous.status.Active? then
         && next.status == previous.status
         && previous.endedAt == next.endedAt && previous.error == next.error
         && NotBefore(next.updatedAt, if previous.endedAt.Some? then previous.endedAt.value else previous.updatedAt)
         && next.(provenance := None, updatedAt := previous.updatedAt) != previous.(provenance := None)
       else
         !next.status.Active? ==> NotBeforeIfAny(next.endedAt, next.updatedAt)
  }

  predicate InteractionTransition(previous: Interaction, next: Interaction) {
    && previous.id == next.id && previous.runId == next.runId && previous.itemId == next.itemId
    && previous.kind == next.kind && previous.createdAt == next.createdAt
    && previous.blocking == next.blocking && previous.audience == next.audience
    && previous.request == next.request && previous.expiresAt == next.expiresAt
    && previous.status.Open?
  }

  function FindRun(runs: seq<Run>, id: Id): (r: Option<Run>)
    ensures r.Some? ==> r.value in runs && r.value.id == id
    ensures r.None? ==> forall x :: x in runs ==> x.id != id
  {
    if runs == [] then None
    else if runs[0].id == id then Some(runs[0])
    else FindRun(runs[1..], id)
  }

  function PutRun(runs: seq<Run>, next: Run): Option<seq<Run>> {
    if runs == [] then (if next.status.Active? then Some([next]) else None)
    else if runs[0].id == next.id then (if RunTransition(runs[0], next) then Some([next] + runs[1..]) else None)
    else
      var rest := PutRun(runs[1..], next);
      if rest.None? then None else Some([runs[0]] + rest.value)
  }

  function PutItem(items: seq<Item>, next: Item): Option<seq<Item>> {
    if items == [] then (if NewItem(next) then Some([next]) else None)
    else if items[0].runId == next.runId && items[0].id == next.id then
      (if ItemTransition(items[0], next) then Some([next] + items[1..]) else None)
    else
      var rest := PutItem(items[1..], next);
      if rest.None? then None else Some([items[0]] + rest.value)
  }

  function PutInteraction(rules: Rules, xs: seq<Interaction>, next: Interaction): Option<seq<Interaction>> {
    if !rules.interactionContent(next) then None
    else if xs == [] then (if next.status.Open? then Some([next]) else None)
    else if xs[0].id == next.id then (if InteractionTransition(xs[0], next) then Some([next] + xs[1..]) else None)
    else
      var rest := PutInteraction(rules, xs[1..], next);
      if rest.None? then None else Some([xs[0]] + rest.value)
  }

  // ---------------------------------------------------------------------------------------------
  // Validation.

  predicate UniqueRuns(runs: seq<Run>) {
    forall i, j :: 0 <= i < j < |runs| ==> runs[i].id != runs[j].id
  }

  predicate UniqueItems(items: seq<Item>) {
    forall i, j :: 0 <= i < j < |items| ==> items[i].runId != items[j].runId || items[i].id != items[j].id
  }

  predicate UniqueInteractions(xs: seq<Interaction>) {
    forall i, j :: 0 <= i < j < |xs| ==> xs[i].id != xs[j].id
  }

  predicate SessionValid(rules: Rules, s: Session, capturedAt: Timestamp) {
    && rules.session(s)
    && NotBefore(s.updatedAt, s.createdAt)
    && NotBeforeIfAny(s.closedAt, s.createdAt) && NotBeforeIfAny(s.closedAt, s.updatedAt)
    && NotBefore(capturedAt, s.createdAt) && NotBefore(capturedAt, s.updatedAt) && NotAfterIfAny(s.closedAt, capturedAt)
    && (s.status.SessionClosed? <==> s.closedAt.Some?)
    && (s.parent.Some? ==> s.parent.value.sessionId != s.id)
  }

  predicate TopLevel(run: Run) {
    run.status.Active? && run.parentRunId.None?
  }

  predicate OneActiveTopLevel(runs: seq<Run>) {
    forall i, j :: 0 <= i < j < |runs| ==> !(TopLevel(runs[i]) && TopLevel(runs[j]))
  }

  predicate RetryTarget(run: Run, previous: Option<Run>, required: bool) {
    && (required ==> previous.Some?)
    && (previous.Some? ==>
          !previous.value.status.Active? && (previous.value.endedAt.Some? ==> NotBefore(run.startedAt, previous.value.endedAt.value)))
  }

  predicate RunValid(s: Snapshot, run: Run) {
    && NotBefore(run.startedAt, s.session.createdAt) && NotBefore(s.capturedAt, run.startedAt)
    && NotBeforeIfAny(run.endedAt, run.startedAt) && NotAfterIfAny(run.endedAt, s.capturedAt)
    && (run.origin.User? ==> run.input != [])
    && (run.origin.Agent? ==> "run.agent_initiated" in s.session.capabilities)
    && (run.parentRunId.Some? ==>
          && "run.child" in s.session.capabilities
          && FindRun(s.runs, run.parentRunId.value).Some?
          && var parent := FindRun(s.runs, run.parentRunId.value).value;
             && NotBefore(run.startedAt, parent.startedAt)
             && (run.status.Active? ==> parent.status.Active?)
             && (run.endedAt.Some? && parent.endedAt.Some? ==> NotBefore(parent.endedAt.value, run.endedAt.value)))
    && (run.retryOf.Some? ==> RetryTarget(run, FindRun(s.runs, run.retryOf.value), false))
  }

  predicate HasItem(items: seq<Item>, runId: Id, id: Id) {
    exists i :: 0 <= i < |items| && items[i].runId == runId && items[i].id == id
  }

  predicate ItemValid(rules: Rules, s: Snapshot, item: Item) {
    && NotBefore(item.updatedAt, item.createdAt) && NotBeforeIfAny(item.endedAt, item.createdAt)
    && NotBefore(s.capturedAt, item.createdAt) && NotBefore(s.capturedAt, item.updatedAt)
    && NotAfterIfAny(item.endedAt, s.capturedAt)
    && FindRun(s.runs, item.runId).Some?
    && var run := FindRun(s.runs, item.runId).value;
       && NotBefore(item.createdAt, run.startedAt)
       && (item.status.Active? ==> run.status.Active?)
       && (run.endedAt.Some? ==>
             NotBefore(run.endedAt.value, item.updatedAt) && NotAfterIfAny(item.endedAt, run.endedAt.value))
       && rules.item(s.session, item)
       && (item.kind.Tool? && item.terminalItemId.Some? ==>
             exists t :: t in s.items && t.runId == item.runId && t.id == item.terminalItemId.value && t.kind.Terminal?)
  }

  predicate InteractionValid(rules: Rules, s: Snapshot, x: Interaction) {
    && rules.interactionContent(x) && rules.interaction(s.session, x)
    && Compare(x.expiresAt, x.createdAt) > 0
    && (x.status.Open? ==> Compare(x.expiresAt, s.capturedAt) > 0)
    && NotBeforeIfAny(x.endedAt, x.createdAt)
    && NotBefore(s.capturedAt, x.createdAt) && NotAfterIfAny(x.endedAt, s.capturedAt)
    && (x.status.Resolved? ==> x.endedAt.Some? && Compare(x.endedAt.value, x.expiresAt) < 0)
    && FindRun(s.runs, x.runId).Some?
    && var run := FindRun(s.runs, x.runId).value;
       && NotBefore(x.createdAt, run.startedAt)
       && (x.status.Open? ==> run.status.Active?)
       && (run.endedAt.Some? ==> NotBefore(run.endedAt.value, if x.endedAt.Some? then x.endedAt.value else x.createdAt))
       && (x.itemId.Some? ==> HasItem(s.items, x.runId, x.itemId.value))
       && (x.kind.Permission? && x.kind.subjectItemId.Some? ==> HasItem(s.items, x.runId, x.kind.subjectItemId.value))
  }

  predicate ClosedValid(s: Snapshot) {
    s.session.status.SessionClosed? ==>
      && (forall r :: r in s.runs ==> !r.status.Active?)
      && (forall x :: x in s.interactions ==> !x.status.Open? && x.endedAt.Some?)
      && s.session.closedAt.Some?
      && var closedAt := s.session.closedAt.value;
         && (forall r :: r in s.runs ==> NotAfterIfAny(r.endedAt, closedAt))
         && (forall i :: i in s.items ==> NotBefore(closedAt, if i.endedAt.Some? then i.endedAt.value else i.updatedAt))
         && (forall x :: x in s.interactions ==> NotAfterIfAny(x.endedAt, closedAt))
  }

  datatype Relation = ParentRunId | RetryOf

  function Target(run: Run, relation: Relation): Option<Id> {
    if relation.ParentRunId? then run.parentRunId else run.retryOf
  }

  function GraphOf(runs: seq<Run>, relation: Relation): Graph {
    map r | r in runs :: r.id := Target(FindRun(runs, r.id).value, relation)
  }

  ghost predicate ValidState(rules: Rules, s: Snapshot) {
    && SessionValid(rules, s.session, s.capturedAt)
    && UniqueRuns(s.runs) && UniqueItems(s.items) && UniqueInteractions(s.interactions)
    && rules.content(s.session, s.runs, s.items, s.interactions)
    && OneActiveTopLevel(s.runs)
    && (forall r :: r in s.runs ==> RunValid(s, r))
    && Acyclic(GraphOf(s.runs, ParentRunId)) && Acyclic(GraphOf(s.runs, RetryOf))
    && (forall i :: i in s.items ==> ItemValid(rules, s, i))
    && (forall x :: x in s.interactions ==> InteractionValid(rules, s, x))
    && ClosedValid(s)
  }

  function RunIds(runs: seq<Run>): (r: seq<Id>)
    ensures |r| == |runs| && forall i :: 0 <= i < |r| ==> r[i] == runs[i].id
  {
    seq(|runs|, i requires 0 <= i < |runs| => runs[i].id)
  }

  lemma GraphNodes(runs: seq<Run>, relation: Relation)
    ensures forall id :: id in RunIds(runs) <==> id in GraphOf(runs, relation)
  {
    forall id | id in RunIds(runs) ensures id in GraphOf(runs, relation) {
      var i :| 0 <= i < |runs| && RunIds(runs)[i] == id;
      assert runs[i] in runs;
    }
    forall id | id in GraphOf(runs, relation) ensures id in RunIds(runs) {
      var r :| r in runs && r.id == id;
      var i :| 0 <= i < |runs| && runs[i] == r;
      assert RunIds(runs)[i] == id;
    }
  }

  /** Runs all the checks, the two acyclicity checks by following the chains. */
  method ValidateState(rules: Rules, s: Snapshot) returns (ok: bool)
    ensures ok <==> ValidState(rules, s)
  {
    if !SessionValid(rules, s.session, s.capturedAt) || !UniqueRuns(s.runs) || !UniqueItems(s.items)
       || !UniqueInteractions(s.interactions) || !rules.content(s.session, s.runs, s.items, s.interactions)
       || !OneActiveTopLevel(s.runs) || !(forall r :: r in s.runs ==> RunValid(s, r)) {
      return false;
    }
    GraphNodes(s.runs, ParentRunId);
    GraphNodes(s.runs, RetryOf);
    var parents := AssertAcyclicRunRelation(RunIds(s.runs), GraphOf(s.runs, ParentRunId));
    if !parents {
      return false;
    }
    var retries := AssertAcyclicRunRelation(RunIds(s.runs), GraphOf(s.runs, RetryOf));
    if !retries {
      return false;
    }
    ok := (forall i :: i in s.items ==> ItemValid(rules, s, i))
          && (forall x :: x in s.interactions ==> InteractionValid(rules, s, x))
          && ClosedValid(s);
  }

  // ---------------------------------------------------------------------------------------------
  // What a valid snapshot means.

  lemma {:induction false} FoundIsTheRun(runs: seq<Run>, run: Run)
    requires UniqueRuns(runs) && run in runs
    ensures FindRun(runs, run.id) == Some(run)
  {
    if runs[0] != run {
      assert run in runs[1..];
      FoundIsTheRun(runs[1..], run);
      var k :| 0 <= k < |runs[1..]| && runs[1..][k] == run;
      assert runs[k + 1] == run;
    }
  }

  ghost predicate ActiveRun(runs: seq<Run>, id: Id) {
    FindRun(runs, id).Some? && FindRun(runs, id).value.status.Active?
  }

  /** What the rules on the Runs say about active Runs. */
  ghost predicate ActiveForest(runs: seq<Run>) {
    && UniqueRuns(runs) && Acyclic(GraphOf(runs, ParentRunId))
    && (forall r :: r in runs && r.status.Active? && r.parentRunId.Some? ==> ActiveRun(runs, r.parentRunId.value))
  }

  lemma ValidActiveForest(rules: Rules, s: Snapshot)
    requires ValidState(rules, s)
    ensures ActiveForest(s.runs)
  {
    forall r | r in s.runs && r.status.Active? && r.parentRunId.Some? ensures ActiveRun(s.runs, r.parentRunId.value) {
      assert RunValid(s, r);
    }
  }

  lemma ActiveStep(runs: seq<Run>, id: Id)
    requires ActiveForest(runs) && ActiveRun(runs, id)
    ensures var up := Successor(GraphOf(runs, ParentRunId), id);
            if up.Some? then ActiveRun(runs, up.value) else TopLevel(FindRun(runs, id).value)
  {
    var g := GraphOf(runs, ParentRunId);
    var run := FindRun(runs, id).value;
    assert id in g && g[id] == run.parentRunId;
    if run.parentRunId.Some? {
      assert FindRun(runs, run.parentRunId.value).value.id in g;
    }
  }

  ghost predicate ActiveUpwards(runs: seq<Run>, g: Graph) {
    forall id :: ActiveRun(runs, id) && Successor(g, id).Some? ==> ActiveRun(runs, Successor(g, id).value)
  }

  lemma {:induction false} ActiveParents(runs: seq<Run>, g: Graph, id: Id, n: nat)
    requires ActiveUpwards(runs, g) && ActiveRun(runs, id)
    ensures var up := Walk(g, id, n); up.Some? ==> ActiveRun(runs, up.value)
    decreases n
  {
    var up := Successor(g, id);
    if n > 0 && up.Some? {
      ActiveParents(runs, g, up.value, n - 1);
    }
  }

  /** The last node of a chain, and how far it is. */
  lemma LastOfChain(g: Graph, id: Id) returns (last: Id, depth: nat)
    requires ChainEnds(g, id)
    ensures Walk(g, id, depth) == Some(last) && Successor(g, last).None?
    ensures forall n: nat :: n <= depth ==> Walk(g, id, n).Some?
  {
    depth := 0;
    var end: nat :| Walk(g, id, end).None?;
    while Walk(g, id, depth + 1).Some?
      invariant depth < end
      invariant forall n: nat :: n <= depth ==> Walk(g, id, n).Some?
      decreases end - depth
    {
      depth := depth + 1;
    }
    last := Walk(g, id, depth).value;
    WalkConcat(g, id, depth, 1);
    assert Successor(g, last).Some? ==> Walk(g, last, 1) == Walk(g, Successor(g, last).value, 0);
  }

  /** Each active Run reaches the one active top-level Run, through active parents only. */
  lemma ActiveRunsHaveOneRoot(rules: Rules, s: Snapshot, run: Run) returns (root: Run, depth: nat)
    requires ValidState(rules, s) && run in s.runs && run.status.Active?
    ensures root in s.runs && TopLevel(root)
    ensures Walk(GraphOf(s.runs, ParentRunId), run.id, depth) == Some(root.id)
    ensures forall n: nat :: n <= depth ==>
              var up := Walk(GraphOf(s.runs, ParentRunId), run.id, n); up.Some? && ActiveRun(s.runs, up.value)
    ensures forall r :: r in s.runs && TopLevel(r) ==> r == root
  {
    ValidActiveForest(rules, s);
    root, depth := RootOfForest(s.runs, run);
    OnlyOneTopLevel(s.runs, root);
  }

  lemma RootOfForest(runs: seq<Run>, run: Run) returns (root: Run, depth: nat)
    requires ActiveForest(runs) && run in runs && run.status.Active?
    ensures root in runs && TopLevel(root)
    ensures Walk(GraphOf(runs, ParentRunId), run.id, depth) == Some(root.id)
    ensures forall n: nat :: n <= depth ==>
              var up := Walk(GraphOf(runs, ParentRunId), run.id, n); up.Some? && ActiveRun(runs, up.value)
  {
    var g := GraphOf(runs, ParentRunId);
    FoundIsTheRun(runs, run);
    AcyclicChainsEnd(g, run.id, {}) by {
      assert run.id in g;
    }
    var last: Id;
    last, depth := LastOfChain(g, run.id);
    assert ActiveUpwards(runs, g) by {
      forall id | ActiveRun(runs, id) && Successor(g, id).Some? ensures ActiveRun(runs, Successor(g, id).value) {
        ActiveStep(runs, id);
      }
    }
    forall n: nat | n <= depth ensures var up := Walk(g, run.id, n); up.Some? && ActiveRun(runs, up.value) {
      ActiveParents(runs, g, run.id, n);
    }
    ActiveStep(runs, last);
    root := FindRun(runs, last).value;
  }

  lemma OnlyOneTopLevel(runs: seq<Run>, root: Run)
    requires OneActiveTopLevel(runs) && root in runs && TopLevel(root)
    ensures forall r :: r in runs && TopLevel(r) ==> r == root
  {
    forall r | r in runs && TopLevel(r) ensures r == root {
      var i :| 0 <= i < |runs| && runs[i] == r;
      var j :| 0 <= j < |runs| && runs[j] == root;
    }
  }

  datatype Activity = ClosedActivity | Idle | RequiresAction | Running

  function DeriveSessionActivity(s: Snapshot): Activity {
    if s.session.status.SessionClosed? then ClosedActivity
    else if exists x :: x in s.interactions && x.status.Open? && x.blocking then RequiresAction
    else if exists r :: r in s.runs && TopLevel(r) then Running
    else Idle
  }

  lemma ClosedHasNothingActive(rules: Rules, s: Snapshot)
    requires ValidState(rules, s) && s.session.status.SessionClosed?
    ensures (forall r :: r in s.runs ==> !r.status.Active?) && (forall x :: x in s.interactions ==> !x.status.Open?)
  {
  }

  predicate SomeActive(s: Snapshot) {
    exists r :: r in s.runs && r.status.Active?
  }

  predicate SomeWaiting(s: Snapshot) {
    exists x :: x in s.interactions && x.status.Open? && x.blocking
  }

  lemma ActivityFrom(s: Snapshot)
    requires SomeActive(s) <==> exists r :: r in s.runs && TopLevel(r)
    requires SomeWaiting(s) ==> SomeActive(s)
    ensures DeriveSessionActivity(s).ClosedActivity? <==> s.session.status.SessionClosed?
    ensures DeriveSessionActivity(s).RequiresAction? <==> s.session.status.SessionOpen? && SomeWaiting(s)
    ensures DeriveSessionActivity(s).Running? <==> s.session.status.SessionOpen? && SomeActive(s) && !SomeWaiting(s)
    ensures DeriveSessionActivity(s).Idle? <==> s.session.status.SessionOpen? && !SomeActive(s)
  {
  }

  /** Exactly when a Session is closed, requires action, runs or is idle: it requires action when some blocking
      Interaction is open, and runs when none is and some Run is active. */
  lemma ActivityIsExact(rules: Rules, s: Snapshot)
    requires ValidState(rules, s)
    ensures DeriveSessionActivity(s).ClosedActivity? <==> s.session.status.SessionClosed?
    ensures DeriveSessionActivity(s).RequiresAction? <==> s.session.status.SessionOpen? && SomeWaiting(s)
    ensures DeriveSessionActivity(s).Running? <==> s.session.status.SessionOpen? && SomeActive(s) && !SomeWaiting(s)
    ensures DeriveSessionActivity(s).Idle? <==> s.session.status.SessionOpen? && !SomeActive(s)
  {
    ActiveMeansTopLevel(rules, s);
    WaitingMeansActive(rules, s);
    ActivityFrom(s);
  }

  lemma WaitingMeansActive(rules: Rules, s: Snapshot)
    requires ValidState(rules, s)
    ensures SomeWaiting(s) ==> SomeActive(s)
  {
    if !SomeActive(s) {
      NothingActive(rules, s);
    }
  }

  /** An idle or closed Session has no active Run, no active Item and no open Interaction at all. */
  lemma IdleMeansNothingActive(rules: Rules, s: Snapshot)
    requires ValidState(rules, s) && (DeriveSessionActivity(s).Idle? || DeriveSessionActivity(s).ClosedActivity?)
    ensures forall r :: r in s.runs ==> !r.status.Active?
    ensures forall i :: i in s.items ==> !i.status.Active?
    ensures forall x :: x in s.interactions ==> !x.status.Open?
  {
    if s.session.status.SessionClosed? {
      ClosedHasNothingActive(rules, s);
    } else {
      ActivityIsExact(rules, s);
    }
    NothingActive(rules, s);
  }

  /** Some Run is active exactly when a top-level one is. */
  lemma ActiveMeansTopLevel(rules: Rules, s: Snapshot)
    requires ValidState(rules, s)
    ensures SomeActive(s) <==> exists r :: r in s.runs && TopLevel(r)
  {
    if r :| r in s.runs && r.status.Active? {
      var root, _ := ActiveRunsHaveOneRoot(rules, s, r);
    }
  }

  lemma NothingActive(rules: Rules, s: Snapshot)
    requires ValidState(rules, s) && forall r :: r in s.runs ==> !r.status.Active?
    ensures (forall i :: i in s.items ==> !i.status.Active?) && (forall x :: x in s.interactions ==> !x.status.Open?)
  {
    forall i | i in s.items ensures !i.status.Active? {
      assert ItemValid(rules, s, i);
    }
    forall x | x in s.interactions ensures !x.status.Open? {
      assert InteractionValid(rules, s, x);
    }
  }
}
