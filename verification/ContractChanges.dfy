/** How entities may change, field by field: over histories nothing of them is lost, and exactly such
    changes are accepted. */
module ContractChanges {
  import opened Wrappers
  import opened Timestamps
  import opened RunGraph
  import opened ContractState
  import opened ContractReducer
  import opened ContractHistory

  // ---------------------------------------------------------------------------------------------
  // What a later version of an entity keeps of an earlier one.

  predicate CostGoesOn(a: Option<Cost>, b: Option<Cost>) {
    a.Some? ==> b.Some? && b.value.currency == a.value.currency && b.value.amount >= a.value.amount
  }

  /** The same origin and input, no usage lost or lowered, the same currency; a Run that is over stays as it is. */
  ghost predicate RunGoesOn(a: Run, b: Run) {
    && b.id == a.id && b.startedAt == a.startedAt && b.origin == a.origin && b.input == a.input
    && b.parentRunId == a.parentRunId && b.retryOf == a.retryOf
    && (forall key :: key in a.usage ==> key in b.usage && a.usage[key] <= b.usage[key])
    && CostGoesOn(a.cost, b.cost) && (!a.status.Active? ==> b == a)
  }

  /** The same origin, no capability lost or changed, time goes on; a closed Session stays as it is. */
  ghost predicate SessionGoesOn(a: Session, b: Session) {
    && b.id == a.id && b.createdAt == a.createdAt && b.parent == a.parent && NotBefore(b.updatedAt, a.updatedAt)
    && (forall name :: name in a.capabilities ==> name in b.capabilities && b.capabilities[name] == a.capabilities[name])
    && (a.status.SessionClosed? ==> b == a)
  }

  /** The same identity and audience, time goes on; an Item that is over keeps its outcome. */
  predicate ItemGoesOn(a: Item, b: Item) {
    && b.id == a.id && b.runId == a.runId && b.kind == a.kind && b.createdAt == a.createdAt && b.audience == a.audience
    && NotBefore(b.updatedAt, a.updatedAt)
    && (!a.status.Active? ==> b.status == a.status && b.endedAt == a.endedAt && b.error == a.error)
  }

  /** The same request with the same expiry; one that is answered or expired stays as it is. */
  predicate InteractionGoesOn(a: Interaction, b: Interaction) {
    && b.id == a.id && b.runId == a.runId && b.itemId == a.itemId && b.kind == a.kind && b.createdAt == a.createdAt
    && b.expiresAt == a.expiresAt && b.blocking == a.blocking && b.audience == a.audience && b.request == a.request
    && (!a.status.Open? ==> b == a)
  }

  lemma RunsGoOnTogether(a: Run, b: Run, c: Run)
    requires RunGoesOn(a, b) && RunGoesOn(b, c)
    ensures RunGoesOn(a, c)
  {
  }

  lemma SessionsGoOnTogether(a: Session, b: Session, c: Session)
    requires SessionGoesOn(a, b) && SessionGoesOn(b, c)
    ensures SessionGoesOn(a, c)
  {
    NotBeforeIsTransitive(c.updatedAt, b.updatedAt, a.updatedAt);
  }

  lemma ItemsGoOnTogether(a: Item, b: Item, c: Item)
    requires ItemGoesOn(a, b) && ItemGoesOn(b, c)
    ensures ItemGoesOn(a, c)
  {
    NotBeforeIsTransitive(c.updatedAt, b.updatedAt, a.updatedAt);
  }

  // ---------------------------------------------------------------------------------------------
  // What may follow what.

  predicate Enriches(a: Item, b: Item) {
    b.terminalItemId != a.terminalItemId || b.content != a.content
  }

  /** What an Item may become: one that is over is only enriched, and none is over before it was updated. */
  predicate ItemMayFollow(a: Item, b: Item) {
    && ItemGoesOn(a, b)
    && if a.status.Active? then !b.status.Active? ==> NotBeforeIfAny(b.endedAt, b.updatedAt)
       else Enriches(a, b) && NotBefore(b.updatedAt, if a.endedAt.Some? then a.endedAt.value else a.updatedAt)
  }

  /** The change of one entity, new if there is no previous one.  Sessions, Runs and Interactions change
      until they are over, and the latter two start active. */
  ghost predicate MayFollow(rules: Rules, previous: Option<Entity>, next: Entity) {
    match next
    case ASession(b) =>
      previous.Some? && previous.value.ASession? && previous.value.session.status.SessionOpen? && SessionGoesOn(previous.value.session, b)
    case ARun(b) =>
      if previous.None? then b.status.Active?
      else previous.value.ARun? && previous.value.run.status.Active? && RunGoesOn(previous.value.run, b)
    case AnItem(b) =>
      if previous.None? then !b.status.Active? ==> NotBeforeIfAny(b.endedAt, b.updatedAt)
      else previous.value.AnItem? && ItemMayFollow(previous.value.item, b)
    case AnInteraction(b) =>
      && rules.interactionContent(b)
      && if previous.None? then b.status.Open?
         else && previous.value.AnInteraction? && previous.value.interaction.status.Open?
              && InteractionGoesOn(previous.value.interaction, b)
  }

  lemma ItemMayFollowIff(a: Item, b: Item)
    ensures ItemMayFollow(a, b) <==> ItemTransition(a, b)
  {
    if ItemGoesOn(a, b) && !a.status.Active? {
      assert (b.(provenance := None, updatedAt := a.updatedAt) == a.(provenance := None)) <==> !Enriches(a, b);
    }
  }

  lemma {:induction false} PutRunIff(runs: seq<Run>, next: Run)
    ensures var p := FindRun(runs, next.id);
            PutRun(runs, next).Some? <==> if p.Some? then p.value.status.Active? && RunGoesOn(p.value, next) else next.status.Active?
  {
    if runs != [] && runs[0].id != next.id {
      PutRunIff(runs[1..], next);
    }
  }

  lemma {:induction false} PutItemIff(items: seq<Item>, next: Item)
    ensures var p := FindItem(items, next.runId, next.id);
            PutItem(items, next).Some? <==>
              if p.Some? then ItemMayFollow(p.value, next) else !next.status.Active? ==> NotBeforeIfAny(next.endedAt, next.updatedAt)
  {
    if items != [] {
      if items[0].runId == next.runId && items[0].id == next.id {
        ItemMayFollowIff(items[0], next);
      } else {
        PutItemIff(items[1..], next);
      }
    }
  }

  lemma {:induction false} PutInteractionIff(rules: Rules, xs: seq<Interaction>, next: Interaction)
    ensures var p := FindInteraction(xs, next.id);
            PutInteraction(rules, xs, next).Some? <==>
              && rules.interactionContent(next)
              && if p.Some? then p.value.status.Open? && InteractionGoesOn(p.value, next) else next.status.Open?
  {
    if xs != [] && xs[0].id != next.id {
      PutInteractionIff(rules, xs[1..], next);
    }
  }

  /** One put is taken exactly when it may follow what the key holds. */
  lemma PutIff(rules: Rules, c: Content, e: Entity)
    ensures ApplyPut(rules, c, e).Some? <==> MayFollow(rules, Lookup(c, EntityKey(e)), e)
  {
    match e {
      case ASession(_) =>
      case ARun(next) => PutRunIff(c.runs, next);
      case AnItem(next) => PutItemIff(c.items, next);
      case AnInteraction(next) => PutInteractionIff(rules, c.interactions, next);
    }
  }

  /** Each put may follow what its key holds before all of them. */
  ghost predicate AllMayFollow(rules: Rules, c: Content, ops: seq<Operation>) {
    forall op :: op in ops && op.Put? ==> MayFollow(rules, Lookup(c, KeyOf(op)), op.entity)
  }

  lemma UniqueBefore(ops: seq<Operation>)
    requires ops != [] && UniqueTargets(ops)
    ensures UniqueTargets(ops[..|ops| - 1]) && !Touches(ops[..|ops| - 1], KeyOf(ops[|ops| - 1]))
  {
    var shorter, last := ops[..|ops| - 1], ops[|ops| - 1];
    forall op | op in shorter ensures KeyOf(op) != KeyOf(last) {
      var i :| 0 <= i < |shorter| && shorter[i] == op;
      assert ops[i] == op;
    }
  }

  lemma {:induction false} PutsIff(rules: Rules, c: Content, ops: seq<Operation>)
    requires AllPuts(ops) && UniqueTargets(ops)
    ensures ApplyOperations(rules, c, ops).Some? <==> AllMayFollow(rules, c, ops)
  {
    if ops != [] {
      var shorter, last := ops[..|ops| - 1], ops[|ops| - 1];
      assert last in ops && forall op :: op in ops <==> op in shorter || op == last;
      UniqueBefore(ops);
      PutsIff(rules, c, shorter);
      if ApplyOperations(rules, c, shorter).Some? {
        var before := ApplyOperations(rules, c, shorter).value;
        UntouchedStays(rules, c, shorter, KeyOf(last));
        PutIff(rules, before, last.entity);
      }
    }
  }

  /** The mutation is the next one for this snapshot. */
  predicate Successive(s: Snapshot, m: Mutation) {
    m.sessionId == s.session.id && m.baseRevision == s.revision && m.revision == s.revision + 1
  }

  /** The next mutation, if it consists of puts, is accepted if and only if it is not older than the
      snapshot, names each key once and no Item of a Run that is over, each put may follow what its key
      holds, a new Run retries only one that is over, and the outcome is valid. */
  lemma PutsAreAcceptedIff(rules: Rules, s: Snapshot, m: Mutation)
    requires Successive(s, m) && AllPuts(m.operations)
    ensures Applied(rules, s, m).Success? <==>
              && NotBefore(m.committedAt, s.capturedAt) && UniqueTargets(m.operations) && ItemsWritable(s, m.operations)
              && AllMayFollow(rules, ContentOf(s), m.operations)
              && var c := ApplyOperations(rules, ContentOf(s), m.operations);
                 c.Some? && RetriesKnown(s, m.operations, c.value.runs) && ValidState(rules, NextSnapshot(m, c.value))
  {
    if UniqueTargets(m.operations) {
      PutsIff(rules, ContentOf(s), m.operations);
    }
  }

  lemma {:induction false} PutRunReplaces(runs: seq<Run>, i: nat, next: Run)
    requires i < |runs| && UniqueRuns(runs) && runs[i].id == next.id && runs[i].status.Active? && RunGoesOn(runs[i], next)
    ensures PutRun(runs, next) == Some(runs[i := next])
  {
    if i == 0 {
      assert [next] + runs[1..] == runs[0 := next];
    } else {
      PutRunReplaces(runs[1..], i - 1, next);
      assert [runs[0]] + runs[1..][i - 1 := next] == runs[i := next];
    }
  }

  lemma OneOperation(rules: Rules, c: Content, op: Operation)
    ensures ApplyOperations(rules, c, [op]) == ApplyOperation(rules, c, op)
  {
    assert [op][..0] == [];
  }

  lemma OneRunPutIsAdmissible(s: Snapshot, m: Mutation, next: Run)
    requires m.operations == [Put(ARun(next))] && NotBefore(m.committedAt, s.capturedAt) && HasRun(s, next.id)
    ensures Admissible(s, m) && forall runs :: RetriesKnown(s, m.operations, runs)
  {
  }

  /** So an active Run is replaced by any later version of it, one with higher usage for instance, whenever
      the outcome is valid. */
  lemma RunIsReplaced(rules: Rules, s: Snapshot, m: Mutation, i: nat, next: Run)
    requires UniqueRuns(s.runs) && Successive(s, m) && NotBefore(m.committedAt, s.capturedAt)
    requires i < |s.runs| && s.runs[i].status.Active? && RunGoesOn(s.runs[i], next) && m.operations == [Put(ARun(next))]
    requires ValidState(rules, NextSnapshot(m, ContentOf(s).(runs := s.runs[i := next])))
    ensures Applied(rules, s, m) == Success(NextSnapshot(m, ContentOf(s).(runs := s.runs[i := next])))
  {
    PutRunReplaces(s.runs, i, next);
    OneOperation(rules, ContentOf(s), Put(ARun(next)));
    FoundIsTheRun(s.runs, s.runs[i]);
    OneRunPutIsAdmissible(s, m, next);
  }

  /** The removal of one Run, if it is the next mutation, is accepted if and only if the Run is there, nothing
      of its tree is active, and the outcome is valid. */
  lemma RemovalIsAcceptedIff(rules: Rules, s: Snapshot, m: Mutation, id: Id)
    requires Successive(s, m) && m.operations == [Remove(id)]
    ensures var tree := Subtree(GraphOf(s.runs, ParentRunId), id);
            Applied(rules, s, m).Success? <==>
              && NotBefore(m.committedAt, s.capturedAt) && HasRun(s, id)
              && (forall r :: r in s.runs && r.id in tree ==> !r.status.Active?)
              && ValidState(rules, NextSnapshot(m, Without(ContentOf(s), tree)))
  {
    OneOperation(rules, ContentOf(s), Remove(id));
  }

  // ---------------------------------------------------------------------------------------------
  // Histories.

  lemma RunGoesOnce(rules: Rules, s: Snapshot, m: Mutation, next: Snapshot, id: Id)
    requires ValidState(rules, s) && Becomes(rules, s, m, next) && HasRun(s, id) && HasRun(next, id)
    ensures RunGoesOn(FindRun(s.runs, id).value, FindRun(next.runs, id).value)
  {
    if m.revision > s.revision {
      PutsOrRemoves(rules, s, m, next);
      if AllPuts(m.operations) {
        PutsAreExact(rules, s, m, next, RunKey(id));
        RunPutGoesOn(s, m, next, id);
      } else {
        RemovalsAreExact(rules, s, m, next);
      }
    }
  }

  lemma RunPutGoesOn(s: Snapshot, m: Mutation, next: Snapshot, id: Id)
    requires HasRun(s, id) && HasRun(next, id)
    requires forall op :: op in m.operations && KeyOf(op) == RunKey(id) && op.Put? ==>
               Lookup(ContentOf(next), RunKey(id)) == Some(op.entity) && Allowed(Lookup(ContentOf(s), RunKey(id)), op.entity)
    requires AllPuts(m.operations)
    requires !Touches(m.operations, RunKey(id)) ==> Lookup(ContentOf(next), RunKey(id)) == Lookup(ContentOf(s), RunKey(id))
    ensures RunGoesOn(FindRun(s.runs, id).value, FindRun(next.runs, id).value)
  {
    if Touches(m.operations, RunKey(id)) {
      var op :| op in m.operations && KeyOf(op) == RunKey(id);
      assert Lookup(ContentOf(next), RunKey(id)) == Some(op.entity);
    }
  }

  ghost predicate RunStays(s: Snapshot, next: Snapshot, id: Id) {
    HasRun(s, id) && HasRun(next, id) ==> RunGoesOn(FindRun(s.runs, id).value, FindRun(next.runs, id).value)
  }

  lemma HistoryKeepsRun(rules: Rules, states: seq<Snapshot>, mutations: seq<Mutation>, k: nat, id: Id)
    requires History(rules, states, mutations) && k < |mutations|
    ensures |states| == |mutations| + 1 && RunStays(states[k], states[k + 1], id)
  {
    HistoryIsValid(rules, states, mutations, k);
    HistoryBecomes(rules, states, mutations, k + 1);
    if HasRun(states[k], id) && HasRun(states[k + 1], id) {
      RunGoesOnce(rules, states[k], mutations[k], states[k + 1], id);
    }
  }

  lemma {:induction false} RunStaysThroughout(states: seq<Snapshot>, i: nat, n: nat, id: Id)
    requires i <= n < |states| && forall k :: i <= k <= n ==> HasRun(states[k], id)
    requires forall k :: i < k <= n ==> RunStays(states[k - 1], states[k], id)
    ensures RunStays(states[i], states[n], id)
    decreases n
  {
    if i < n {
      RunStaysThroughout(states, i, n - 1, id);
      assert HasRun(states[i], id) && HasRun(states[n - 1], id) && HasRun(states[n], id) && RunStays(states[n - 1], states[n], id);
      RunsGoOnTogether(FindRun(states[i].runs, id).value, FindRun(states[n - 1].runs, id).value, FindRun(states[n].runs, id).value);
    }
  }

  /** While a Run is there it never loses or lowers usage, keeps its currency, origin, input, parent and retry
      target, and stays as it is once it is over. */
  lemma RunsGoOn(rules: Rules, states: seq<Snapshot>, mutations: seq<Mutation>, i: nat, n: nat, id: Id)
    requires History(rules, states, mutations) && i <= n < |states| && forall k :: i <= k <= n ==> HasRun(states[k], id)
    ensures RunStays(states[i], states[n], id)
  {
    forall k | i < k <= n ensures RunStays(states[k - 1], states[k], id) {
      HistoryKeepsRun(rules, states, mutations, k - 1, id);
    }
    RunStaysThroughout(states, i, n, id);
  }

  lemma SessionGoesOnce(rules: Rules, s: Snapshot, m: Mutation, next: Snapshot)
    requires ValidState(rules, s) && Becomes(rules, s, m, next)
    ensures SessionGoesOn(s.session, next.session)
  {
    NotBeforeItself(s.session.updatedAt);
    if m.revision > s.revision {
      PutsOrRemoves(rules, s, m, next);
      if AllPuts(m.operations) {
        var key := SessionKey(s.session.id);
        PutsAreExact(rules, s, m, next, key);
        assert Lookup(ContentOf(s), key) == Some(ASession(s.session));
        if op :| op in m.operations && KeyOf(op) == key {
          assert Lookup(ContentOf(next), key) == Some(op.entity);
        }
      } else {
        RemovalsAreExact(rules, s, m, next);
      }
    }
  }

  lemma HistoryKeepsSession(rules: Rules, states: seq<Snapshot>, mutations: seq<Mutation>, k: nat)
    requires History(rules, states, mutations) && k < |mutations|
    ensures |states| == |mutations| + 1 && SessionGoesOn(states[k].session, states[k + 1].session)
  {
    HistoryIsValid(rules, states, mutations, k);
    HistoryBecomes(rules, states, mutations, k + 1);
    SessionGoesOnce(rules, states[k], mutations[k], states[k + 1]);
  }

  /** A Session never loses or changes a capability, keeps its origin, and stays as it is once it is closed. */
  lemma {:induction false} SessionsGoOn(rules: Rules, states: seq<Snapshot>, mutations: seq<Mutation>, i: nat, n: nat)
    requires History(rules, states, mutations) && i <= n < |states|
    ensures SessionGoesOn(states[i].session, states[n].session)
    decreases n
  {
    if i < n {
      SessionsGoOn(rules, states, mutations, i, n - 1);
      HistoryKeepsSession(rules, states, mutations, n - 1);
      SessionsGoOnTogether(states[i].session, states[n - 1].session, states[n].session);
    } else {
      NotBeforeItself(states[i].session.updatedAt);
    }
  }

  ghost predicate ItemThere(s: Snapshot, next: Snapshot, runId: Id, id: Id) {
    FindItem(s.items, runId, id).Some? ==>
      FindItem(next.items, runId, id).Some? && ItemGoesOn(FindItem(s.items, runId, id).value, FindItem(next.items, runId, id).value)
  }

  lemma ItemPutGoesOn(rules: Rules, s: Snapshot, m: Mutation, next: Snapshot, runId: Id, id: Id)
    requires Advances(rules, s, m, next) && AllPuts(m.operations)
    ensures ItemThere(s, next, runId, id)
  {
    var key := ItemKey(runId, id);
    PutsAreExact(rules, s, m, next, key);
    if FindItem(s.items, runId, id).Some? {
      NotBeforeItself(FindItem(s.items, runId, id).value.updatedAt);
      if op :| op in m.operations && KeyOf(op) == key {
        assert Lookup(ContentOf(next), key) == Some(op.entity);
      } else {
        assert !Touches(m.operations, key);
      }
    }
  }

  lemma ItemSurvives(rules: Rules, s: Snapshot, m: Mutation, next: Snapshot, runId: Id, id: Id)
    requires Advances(rules, s, m, next) && AllRemoves(m.operations) && HasRun(next, runId)
    ensures ItemThere(s, next, runId, id)
  {
    RemovalsAreExact(rules, s, m, next);
    var p := FindItem(s.items, runId, id);
    if p.Some? {
      NotBeforeItself(p.value.updatedAt);
      assert p.value in next.items;
      FoundIsTheItem(next.items, p.value);
    }
  }

  lemma ItemGoesOnce(rules: Rules, s: Snapshot, m: Mutation, next: Snapshot, runId: Id, id: Id)
    requires ValidState(rules, s) && Becomes(rules, s, m, next) && HasRun(next, runId)
    ensures ItemThere(s, next, runId, id)
  {
    if m.revision > s.revision {
      PutsOrRemoves(rules, s, m, next);
      if AllPuts(m.operations) {
        ItemPutGoesOn(rules, s, m, next, runId, id);
      } else {
        ItemSurvives(rules, s, m, next, runId, id);
      }
    } else if FindItem(s.items, runId, id).Some? {
      NotBeforeItself(FindItem(s.items, runId, id).value.updatedAt);
    }
  }

  lemma HistoryKeepsItem(rules: Rules, states: seq<Snapshot>, mutations: seq<Mutation>, k: nat, runId: Id, id: Id)
    requires History(rules, states, mutations) && k < |mutations| && k + 1 < |states| && HasRun(states[k + 1], runId)
    ensures ItemThere(states[k], states[k + 1], runId, id)
  {
    HistoryIsValid(rules, states, mutations, k);
    HistoryBecomes(rules, states, mutations, k + 1);
    ItemGoesOnce(rules, states[k], mutations[k], states[k + 1], runId, id);
  }

  lemma ItemThereTogether(s: Snapshot, t: Snapshot, u: Snapshot, runId: Id, id: Id)
    requires ItemThere(s, t, runId, id) && ItemThere(t, u, runId, id)
    ensures ItemThere(s, u, runId, id)
  {
    if FindItem(s.items, runId, id).Some? {
      ItemsGoOnTogether(FindItem(s.items, runId, id).value, FindItem(t.items, runId, id).value, FindItem(u.items, runId, id).value);
    }
  }

  lemma ItemThereItself(s: Snapshot, runId: Id, id: Id)
    ensures ItemThere(s, s, runId, id)
  {
    if FindItem(s.items, runId, id).Some? {
      NotBeforeItself(FindItem(s.items, runId, id).value.updatedAt);
    }
  }

  /** While its Run is there an Item is there, with the same identity, and keeps its outcome once it is over. */
  lemma {:induction false} ItemsGoOn(rules: Rules, states: seq<Snapshot>, mutations: seq<Mutation>, i: nat, n: nat, runId: Id, id: Id)
    requires History(rules, states, mutations) && i <= n < |states| && forall k :: i <= k <= n ==> HasRun(states[k], runId)
    ensures ItemThere(states[i], states[n], runId, id)
    decreases n
  {
    if i < n {
      ItemsGoOn(rules, states, mutations, i, n - 1, runId, id);
      HistoryKeepsItem(rules, states, mutations, n - 1, runId, id);
      ItemThereTogether(states[i], states[n - 1], states[n], runId, id);
    } else {
      ItemThereItself(states[i], runId, id);
    }
  }

  ghost predicate InteractionThere(s: Snapshot, next: Snapshot, id: Id) {
    FindInteraction(s.interactions, id).Some? ==>
      && FindInteraction(next.interactions, id).Some?
      && InteractionGoesOn(FindInteraction(s.interactions, id).value, FindInteraction(next.interactions, id).value)
  }

  lemma InteractionPutGoesOn(rules: Rules, s: Snapshot, m: Mutation, next: Snapshot, id: Id)
    requires Advances(rules, s, m, next) && AllPuts(m.operations)
    ensures InteractionThere(s, next, id)
  {
    var key := InteractionKey(id);
    PutsAreExact(rules, s, m, next, key);
    if op :| op in m.operations && KeyOf(op) == key {
      assert Lookup(ContentOf(next), key) == Some(op.entity);
    } else {
      assert !Touches(m.operations, key);
    }
  }

  lemma InteractionSurvives(rules: Rules, s: Snapshot, m: Mutation, next: Snapshot, x: Interaction)
    requires Advances(rules, s, m, next) && AllRemoves(m.operations) && HasRun(next, x.runId)
    requires FindInteraction(s.interactions, x.id) == Some(x)
    ensures FindInteraction(next.interactions, x.id) == Some(x)
  {
    RemovalsAreExact(rules, s, m, next);
    assert x in next.interactions;
    FoundIsTheInteraction(next.interactions, x);
  }

  lemma InteractionGoesOnce(rules: Rules, s: Snapshot, m: Mutation, next: Snapshot, id: Id)
    requires ValidState(rules, s) && Becomes(rules, s, m, next)
    requires FindInteraction(s.interactions, id).Some? ==> HasRun(next, FindInteraction(s.interactions, id).value.runId)
    ensures InteractionThere(s, next, id)
  {
    if m.revision > s.revision {
      PutsOrRemoves(rules, s, m, next);
      if AllPuts(m.operations) {
        InteractionPutGoesOn(rules, s, m, next, id);
      } else if FindInteraction(s.interactions, id).Some? {
        InteractionSurvives(rules, s, m, next, FindInteraction(s.interactions, id).value);
      }
    }
  }

  lemma HistoryKeepsInteraction(rules: Rules, states: seq<Snapshot>, mutations: seq<Mutation>, k: nat, id: Id)
    requires History(rules, states, mutations) && k < |mutations| && k + 1 < |states|
    requires FindInteraction(states[k].interactions, id).Some? ==>
               HasRun(states[k + 1], FindInteraction(states[k].interactions, id).value.runId)
    ensures InteractionThere(states[k], states[k + 1], id)
  {
    HistoryIsValid(rules, states, mutations, k);
    HistoryBecomes(rules, states, mutations, k + 1);
    InteractionGoesOnce(rules, states[k], mutations[k], states[k + 1], id);
  }

  /** While its Run is there an Interaction is there, with the same request and expiry, and stays as it is once
      it is answered or expired. */
  lemma {:induction false} InteractionsGoOn(rules: Rules, states: seq<Snapshot>, mutations: seq<Mutation>, i: nat, n: nat, runId: Id,
                                            id: Id)
    requires History(rules, states, mutations) && i <= n < |states| && forall k :: i <= k <= n ==> HasRun(states[k], runId)
    requires FindInteraction(states[i].interactions, id).Some? ==> FindInteraction(states[i].interactions, id).value.runId == runId
    ensures InteractionThere(states[i], states[n], id)
    decreases n
  {
    if i < n && FindInteraction(states[i].interactions, id).Some? {
      InteractionsGoOn(rules, states, mutations, i, n - 1, runId, id);
      assert HasRun(states[n], runId);
      HistoryKeepsInteraction(rules, states, mutations, n - 1, id);
    }
  }
}
