/** What a valid snapshot means in time: Runs lie within their parents, Items and Interactions within their
    Runs, and everything within the Session. */
module ContractNesting {
  import opened Wrappers
  import opened Timestamps
  import opened RunGraph
  import opened ContractState
  import opened ContractHistory

  // ---------------------------------------------------------------------------------------------
  // Nesting.

  /** `t` lies in the Session's time. */
  predicate InSession(s: Snapshot, t: Timestamp) {
    NotBefore(t, s.session.createdAt) && NotBefore(s.capturedAt, t)
  }

  predicate InSessionIfAny(s: Snapshot, t: Option<Timestamp>) {
    t.Some? ==> InSession(s, t.value)
  }

  lemma Between(a: Timestamp, b: Timestamp, c: Timestamp)
    requires NotBefore(b, a) && NotBefore(c, b)
    ensures NotBefore(c, a)
  {
    NotBeforeIsTransitive(c, b, a);
  }

  /** A Run begins and ends in the Session's time, and not before it began. */
  lemma RunsAreInTime(rules: Rules, s: Snapshot, run: Run)
    requires ValidState(rules, s) && run in s.runs
    ensures InSession(s, run.startedAt) && InSessionIfAny(s, run.endedAt) && NotBeforeIfAny(run.endedAt, run.startedAt)
    ensures s.session.status.SessionClosed? ==> !run.status.Active? && NotAfterIfAny(run.endedAt, s.session.closedAt.value)
  {
    assert RunValid(s, run);
    if run.endedAt.Some? {
      Between(s.session.createdAt, run.startedAt, run.endedAt.value);
    }
  }

  /** Every entity has passed the checks of its own content, and no Session is its own parent. */
  lemma EntitiesAreAdmitted(rules: Rules, s: Snapshot)
    requires ValidState(rules, s)
    ensures rules.session(s.session) && rules.content(s.session, s.runs, s.items, s.interactions)
    ensures forall item :: item in s.items ==> rules.item(s.session, item)
    ensures forall x :: x in s.interactions ==> rules.interaction(s.session, x) && rules.interactionContent(x)
    ensures s.session.parent.Some? ==> s.session.parent.value.sessionId != s.session.id
  {
    forall item | item in s.items ensures rules.item(s.session, item) {
      assert ItemValid(rules, s, item);
    }
    forall x | x in s.interactions ensures rules.interaction(s.session, x) && rules.interactionContent(x) {
      assert InteractionValid(rules, s, x);
    }
  }

  /** An Item lies in its Run's time and so in the Session's. */
  lemma ItemsAreInTime(rules: Rules, s: Snapshot, item: Item)
    requires ValidState(rules, s) && item in s.items
    ensures HasRun(s, item.runId)
    ensures var run := FindRun(s.runs, item.runId).value;
            && NotBefore(item.createdAt, run.startedAt) && (item.status.Active? ==> run.status.Active?)
            && NotBeforeIfAny(run.endedAt, item.updatedAt) && NotBefore(item.updatedAt, item.createdAt)
            && (item.endedAt.Some? ==> NotBefore(item.endedAt.value, item.createdAt) && NotBeforeIfAny(run.endedAt, item.endedAt.value))
    ensures InSession(s, item.createdAt) && InSession(s, item.updatedAt) && InSessionIfAny(s, item.endedAt)
  {
    assert ItemValid(rules, s, item);
    var run := FindRun(s.runs, item.runId).value;
    RunsAreInTime(rules, s, run);
    Between(s.session.createdAt, run.startedAt, item.createdAt);
    Between(s.session.createdAt, item.createdAt, item.updatedAt);
    if item.endedAt.Some? {
      Between(s.session.createdAt, item.createdAt, item.endedAt.value);
    }
  }

  /** An Interaction lies in its Run's time and so in the Session's; it is answered before it expires, and one
      that is open has not expired. */
  lemma InteractionsAreInTime(rules: Rules, s: Snapshot, x: Interaction)
    requires ValidState(rules, s) && x in s.interactions
    ensures HasRun(s, x.runId)
    ensures var run := FindRun(s.runs, x.runId).value;
            && NotBefore(x.createdAt, run.startedAt) && (x.status.Open? ==> run.status.Active?)
            && NotBeforeIfAny(run.endedAt, if x.endedAt.Some? then x.endedAt.value else x.createdAt)
            && NotBeforeIfAny(x.endedAt, x.createdAt)
    ensures InSession(s, x.createdAt) && InSessionIfAny(s, x.endedAt)
    ensures !NotBefore(x.createdAt, x.expiresAt) && (x.status.Open? ==> !NotBefore(s.capturedAt, x.expiresAt))
    ensures x.status.Resolved? ==> x.endedAt.Some? && !NotBefore(x.endedAt.value, x.expiresAt)
  {
    assert InteractionValid(rules, s, x);
    var run := FindRun(s.runs, x.runId).value;
    RunsAreInTime(rules, s, run);
    Between(s.session.createdAt, run.startedAt, x.createdAt);
    CompareIsChronological(x.expiresAt, x.createdAt);
    CompareIsChronological(x.expiresAt, s.capturedAt);
    if x.endedAt.Some? {
      Between(s.session.createdAt, x.createdAt, x.endedAt.value);
    }
  }

  /** The Session was opened, changed and closed in this order, and captured after that. */
  lemma SessionIsInTime(rules: Rules, s: Snapshot)
    requires ValidState(rules, s)
    ensures InSession(s, s.session.createdAt) && InSession(s, s.session.updatedAt) && InSessionIfAny(s, s.session.closedAt)
    ensures s.session.closedAt.Some? <==> s.session.status.SessionClosed?
    ensures s.session.closedAt.Some? ==> NotBefore(s.session.closedAt.value, s.session.updatedAt)
  {
    NotBeforeItself(s.session.createdAt);
  }

  /** A parent is there, was there first, is active as long as its child, and ends no earlier. */
  lemma ParentsEnclose(rules: Rules, s: Snapshot, run: Run)
    requires ValidState(rules, s) && run in s.runs && run.parentRunId.Some?
    ensures HasRun(s, run.parentRunId.value)
    ensures var parent := FindRun(s.runs, run.parentRunId.value).value;
            && parent in s.runs && parent.id != run.id && NotBefore(run.startedAt, parent.startedAt)
            && (run.status.Active? ==> parent.status.Active?)
            && (run.endedAt.Some? ==> NotBeforeIfAny(parent.endedAt, run.endedAt.value))
  {
    assert RunValid(s, run);
    ParentIsAnother(rules, s, run);
  }

  lemma SelfLoop(g: Graph, id: Id)
    requires id in g && g[id] == Some(id)
    ensures OnCycle(g, id)
  {
    assert Walk(g, id, 1) == Walk(g, id, 0);
  }

  lemma ParentIsAnother(rules: Rules, s: Snapshot, run: Run)
    requires ValidState(rules, s) && run in s.runs && run.parentRunId.Some?
    ensures run.parentRunId.value != run.id
  {
    var g := GraphOf(s.runs, ParentRunId);
    FoundIsTheRun(s.runs, run);
    assert run.id in g && g[run.id] == run.parentRunId;
    if run.parentRunId.value == run.id {
      SelfLoop(g, run.id);
    }
  }

  /** `run` began no earlier than `above`, and is over once that one is. */
  ghost predicate Encloses(above: Run, run: Run) {
    NotBefore(run.startedAt, above.startedAt) && (!above.status.Active? ==> !run.status.Active?)
  }

  /** Some Run with this id encloses the Run. */
  ghost predicate EnclosedBy(runs: seq<Run>, run: Run, up: Id) {
    exists above :: above in runs && above.id == up && Encloses(above, run)
  }

  predicate LookedAt(run: Run) {
    true
  }

  /** Every Run is enclosed by the next in the graph.  The trigger keeps the chain from being followed all
      the way up. */
  ghost predicate AllEnclosed(runs: seq<Run>, g: Graph) {
    forall r {:trigger LookedAt(r)} :: LookedAt(r) && r in runs && Successor(g, r.id).Some? ==>
      EnclosedBy(runs, r, Successor(g, r.id).value)
  }

  lemma ParentEncloses(rules: Rules, s: Snapshot, run: Run)
    requires ValidState(rules, s) && run in s.runs && Successor(GraphOf(s.runs, ParentRunId), run.id).Some?
    ensures EnclosedBy(s.runs, run, Successor(GraphOf(s.runs, ParentRunId), run.id).value)
  {
    var g := GraphOf(s.runs, ParentRunId);
    FoundIsTheRun(s.runs, run);
    assert run.id in g && g[run.id] == run.parentRunId;
    ParentsEnclose(rules, s, run);
    assert FindRun(s.runs, run.parentRunId.value).value in s.runs;
  }

  lemma {:induction false} ChainEncloses(runs: seq<Run>, g: Graph, run: Run, n: nat)
    requires AllEnclosed(runs, g) && run in runs && Walk(g, run.id, n).Some?
    ensures EnclosedBy(runs, run, Walk(g, run.id, n).value)
    decreases n
  {
    if n == 0 {
      NotBeforeItself(run.startedAt);
    } else {
      assert LookedAt(run);
      var parent :| parent in runs && parent.id == Successor(g, run.id).value && Encloses(parent, run);
      ChainEncloses(runs, g, parent, n - 1);
      var above :| above in runs && above.id == Walk(g, run.id, n).value && Encloses(above, parent);
      Between(above.startedAt, parent.startedAt, run.startedAt);
    }
  }

  /** A Run began no earlier than any Run above it, and is over once one of those is. */
  lemma AncestorsEnclose(rules: Rules, s: Snapshot, run: Run, n: nat)
    requires ValidState(rules, s) && run in s.runs && Walk(GraphOf(s.runs, ParentRunId), run.id, n).Some?
    ensures EnclosedBy(s.runs, run, Walk(GraphOf(s.runs, ParentRunId), run.id, n).value)
  {
    var g := GraphOf(s.runs, ParentRunId);
    forall r | LookedAt(r) && r in s.runs && Successor(g, r.id).Some? ensures EnclosedBy(s.runs, r, Successor(g, r.id).value) {
      ParentEncloses(rules, s, r);
    }
    ChainEncloses(s.runs, g, run, n);
  }

  /** A Run retries one that was over before it began, and no chain of retries goes on for ever. */
  lemma RetriesFollow(rules: Rules, s: Snapshot, run: Run)
    requires ValidState(rules, s) && run in s.runs
    ensures run.retryOf.Some? && HasRun(s, run.retryOf.value) ==>
              var previous := FindRun(s.runs, run.retryOf.value).value;
              !previous.status.Active? && (previous.endedAt.Some? ==> NotBefore(run.startedAt, previous.endedAt.value))
    ensures ChainEnds(GraphOf(s.runs, RetryOf), run.id)
  {
    assert RunValid(s, run);
    assert run.id in GraphOf(s.runs, RetryOf);
    AcyclicChainsEnd(GraphOf(s.runs, RetryOf), run.id, {});
  }

  /** What an entity refers to is there, in the same Run. */
  lemma ReferencesResolve(rules: Rules, s: Snapshot)
    requires ValidState(rules, s)
    ensures forall i :: i in s.items && i.kind.Tool? && i.terminalItemId.Some? ==>
              exists t :: t in s.items && t.runId == i.runId && t.id == i.terminalItemId.value && t.kind.Terminal?
    ensures forall x :: x in s.interactions && x.itemId.Some? ==> exists t :: t in s.items && t.runId == x.runId && t.id == x.itemId.value
    ensures forall x :: x in s.interactions && x.kind.Permission? && x.kind.subjectItemId.Some? ==>
              exists t :: t in s.items && t.runId == x.runId && t.id == x.kind.subjectItemId.value
  {
    forall i | i in s.items && i.kind.Tool? && i.terminalItemId.Some?
      ensures exists t :: t in s.items && t.runId == i.runId && t.id == i.terminalItemId.value && t.kind.Terminal?
    {
      assert ItemValid(rules, s, i);
    }
    forall x | x in s.interactions
      ensures x.itemId.Some? ==> exists t :: t in s.items && t.runId == x.runId && t.id == x.itemId.value
      ensures x.kind.Permission? && x.kind.subjectItemId.Some? ==>
                exists t :: t in s.items && t.runId == x.runId && t.id == x.kind.subjectItemId.value
    {
      assert InteractionValid(rules, s, x);
      ItemIsThere(s.items, x);
    }
  }

  lemma ItemIsThere(items: seq<Item>, x: Interaction)
    ensures x.itemId.Some? && HasItem(items, x.runId, x.itemId.value) ==>
              exists t :: t in items && t.runId == x.runId && t.id == x.itemId.value
    ensures x.kind.Permission? && x.kind.subjectItemId.Some? && HasItem(items, x.runId, x.kind.subjectItemId.value) ==>
              exists t :: t in items && t.runId == x.runId && t.id == x.kind.subjectItemId.value
  {
    if x.itemId.Some? && HasItem(items, x.runId, x.itemId.value) {
      var i :| 0 <= i < |items| && items[i].runId == x.runId && items[i].id == x.itemId.value;
      assert items[i] in items;
    }
    if x.kind.Permission? && x.kind.subjectItemId.Some? && HasItem(items, x.runId, x.kind.subjectItemId.value) {
      var i :| 0 <= i < |items| && items[i].runId == x.runId && items[i].id == x.kind.subjectItemId.value;
      assert items[i] in items;
    }
  }

  /** A Run of the agent, or below another, needs the capability, and one of the user some input. */
  lemma RunsAreEntitled(rules: Rules, s: Snapshot, run: Run)
    requires ValidState(rules, s) && run in s.runs
    ensures run.origin.User? ==> run.input != []
    ensures run.origin.Agent? ==> "run.agent_initiated" in s.session.capabilities
    ensures run.parentRunId.Some? ==> "run.child" in s.session.capabilities
  {
    assert RunValid(s, run);
  }

  /** Nothing of a closed Session ends after it closed. */
  lemma ClosedSessionIsOver(rules: Rules, s: Snapshot)
    requires ValidState(rules, s) && s.session.status.SessionClosed?
    ensures s.session.closedAt.Some?
    ensures forall r :: r in s.runs ==> NotAfterIfAny(r.endedAt, s.session.closedAt.value)
    ensures forall i :: i in s.items ==> NotBefore(s.session.closedAt.value, if i.endedAt.Some? then i.endedAt.value else i.updatedAt)
    ensures forall x :: x in s.interactions ==> x.endedAt.Some? && NotBefore(s.session.closedAt.value, x.endedAt.value)
  {
  }
}
