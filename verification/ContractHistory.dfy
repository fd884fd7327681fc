/** What mutations do to a Session: puts take effect exactly, removals remove exactly the trees of
    the named Runs, terminal Runs are frozen and closed Sessions only ever lose Runs. */
module ContractHistory {
  import opened Wrappers
  import opened RunGraph
  import opened ContractState
  import opened ContractReducer

  function FindItem(items: seq<Item>, runId: Id, id: Id): (r: Option<Item>)
    ensures r.Some? ==> r.value in items && r.value.runId == runId && r.value.id == id
    ensures r.None? ==> forall x :: x in items ==> x.runId != runId || x.id != id
  {
    if items == [] then None
    else if items[0].runId == runId && items[0].id == id then Some(items[0])
    else FindItem(items[1..], runId, id)
  }

  function FindInteraction(xs: seq<Interaction>, id: Id): (r: Option<Interaction>)
    ensures r.Some? ==> r.value in xs && r.value.id == id
    ensures r.None? ==> forall x :: x in xs ==> x.id != id
  {
    if xs == [] then None
    else if xs[0].id == id then Some(xs[0])
    else FindInteraction(xs[1..], id)
  }

  /** The entity a key stands for. */
  function Lookup(c: Content, key: Key): (r: Option<Entity>)
    ensures r.Some? ==> EntityKey(r.value) == key
  {
    match key
    case SessionKey(id) => if c.session.id == id then Some(ASession(c.session)) else None
    case RunKey(id) => (var r := FindRun(c.runs, id); if r.Some? then Some(ARun(r.value)) else None)
    case ItemKey(runId, id) => (
      var r := FindItem(c.items, runId, id); if r.Some? then Some(AnItem(r.value)) else None)
    case InteractionKey(id) => (
      var r := FindInteraction(c.interactions, id); if r.Some? then Some(AnInteraction(r.value)) else None)
  }

  /** The rule each kind of entity changes by: what a new one must be, and what may follow it. */
  predicate Allowed(previous: Option<Entity>, next: Entity) {
    match next
    case ASession(s) => previous.Some? && previous.value.ASession? && SessionTransition(previous.value.session, s)
    case ARun(r) =>
      if previous.Some? then previous.value.ARun? && RunTransition(previous.value.run, r) else r.status.Active?
    case AnItem(i) =>
      if previous.Some? then previous.value.AnItem? && ItemTransition(previous.value.item, i) else NewItem(i)
    case AnInteraction(x) =>
      if previous.Some? then
        previous.value.AnInteraction? && InteractionTransition(previous.value.interaction, x)
      else x.status.Open?
  }

  // ---------------------------------------------------------------------------------------------
  // Puts.

  lemma {:induction false} PutRunFinds(runs: seq<Run>, next: Run, id: Id)
    requires PutRun(runs, next).Some?
    ensures FindRun(PutRun(runs, next).value, id) == if id == next.id then Some(next) else FindRun(runs, id)
    ensures var p := FindRun(runs, next.id);
            if p.Some? then RunTransition(p.value, next) else next.status.Active?
  {
    if runs != [] && runs[0].id != next.id {
      PutRunFinds(runs[1..], next, id);
    }
  }

  lemma {:induction false} PutItemFinds(items: seq<Item>, next: Item, runId: Id, id: Id)
    requires PutItem(items, next).Some?
    ensures FindItem(PutItem(items, next).value, runId, id)
            == if runId == next.runId && id == next.id then Some(next) else FindItem(items, runId, id)
    ensures var p := FindItem(items, next.runId, next.id);
            if p.Some? then ItemTransition(p.value, next) else NewItem(next)
  {
    if items != [] && !(items[0].runId == next.runId && items[0].id == next.id) {
      PutItemFinds(items[1..], next, runId, id);
    }
  }

  lemma {:induction false} PutInteractionFinds(rules: Rules, xs: seq<Interaction>, next: Interaction, id: Id)
    requires PutInteraction(rules, xs, next).Some?
    ensures FindInteraction(PutInteraction(rules, xs, next).value, id)
            == if id == next.id then Some(next) else FindInteraction(xs, id)
    ensures var p := FindInteraction(xs, next.id);
            if p.Some? then InteractionTransition(p.value, next) else next.status.Open?
  {
    if xs != [] && xs[0].id != next.id {
      PutInteractionFinds(rules, xs[1..], next, id);
    }
  }

  /** One put changes one key, by the rule of its kind. */
  lemma OnePut(rules: Rules, c: Content, e: Entity, key: Key)
    requires ApplyPut(rules, c, e).Some?
    ensures var d := ApplyPut(rules, c, e).value;
            Lookup(d, key) == if key == EntityKey(e) then Some(e) else Lookup(c, key)
    ensures Allowed(Lookup(c, EntityKey(e)), e)
  {
    match e {
      case ASession(next) => {}
      case ARun(next) => { PutRunFinds(c.runs, next, key.id); }
      case AnItem(next) => {
        PutItemFinds(c.items, next, if key.ItemKey? then key.runId else next.runId, key.id);
      }
      case AnInteraction(next) => { PutInteractionFinds(rules, c.interactions, next, key.id); }
    }
  }

  predicate AllPuts(ops: seq<Operation>) {
    forall op :: op in ops ==> op.Put?
  }

  predicate Touches(ops: seq<Operation>, key: Key) {
    exists op :: op in ops && KeyOf(op) == key
  }

  lemma {:induction false} UntouchedStays(rules: Rules, c: Content, ops: seq<Operation>, key: Key)
    requires AllPuts(ops) && !Touches(ops, key) && ApplyOperations(rules, c, ops).Some?
    ensures Lookup(ApplyOperations(rules, c, ops).value, key) == Lookup(c, key)
  {
    if ops != [] {
      var shorter, last := ops[..|ops| - 1], ops[|ops| - 1];
      assert last in ops && forall op :: op in shorter ==> op in ops;
      UntouchedStays(rules, c, shorter, key);
      OnePut(rules, ApplyOperations(rules, c, shorter).value, last.entity, key);
    }
  }

  lemma {:induction false} PutShows(rules: Rules, c: Content, ops: seq<Operation>, k: nat)
    requires AllPuts(ops) && UniqueTargets(ops) && ApplyOperations(rules, c, ops).Some? && k < |ops|
    ensures ops[k] in ops && Lookup(ApplyOperations(rules, c, ops).value, KeyOf(ops[k])) == Some(ops[k].entity)
    ensures Allowed(Lookup(c, KeyOf(ops[k])), ops[k].entity)
  {
    var shorter, last := ops[..|ops| - 1], ops[|ops| - 1];
    var key := KeyOf(ops[k]);
    assert last in ops && forall op :: op in shorter ==> op in ops;
    var before := ApplyOperations(rules, c, shorter).value;
    OnePut(rules, before, last.entity, key);
    if k < |shorter| {
      PutShows(rules, c, shorter, k);
    } else {
      UntouchedStays(rules, c, shorter, key);
    }
  }

  /** The mutation brought the replica forward, by one revision. */
  ghost predicate Advances(rules: Rules, s: Snapshot, m: Mutation, next: Snapshot) {
    ValidState(rules, s) && m.revision > s.revision && Applied(rules, s, m) == Success(next)
  }

  /** After a mutation of puts every key it names holds what it put, by a transition from what the
      snapshot held before; every other key holds what it held. */
  lemma PutsAreExact(rules: Rules, s: Snapshot, m: Mutation, next: Snapshot, key: Key)
    requires Advances(rules, s, m, next) && AllPuts(m.operations)
    ensures next.revision == s.revision + 1 && next.capturedAt == m.committedAt
    ensures forall op :: op in m.operations && KeyOf(op) == key ==>
              Lookup(ContentOf(next), key) == Some(op.entity) && Allowed(Lookup(ContentOf(s), key), op.entity)
    ensures !Touches(m.operations, key) ==> Lookup(ContentOf(next), key) == Lookup(ContentOf(s), key)
  {
    var ops := m.operations;
    forall op | op in ops && KeyOf(op) == key
      ensures Lookup(ContentOf(next), key) == Some(op.entity) && Allowed(Lookup(ContentOf(s), key), op.entity)
    {
      var k :| 0 <= k < |ops| && ops[k] == op;
      PutShows(rules, ContentOf(s), ops, k);
    }
    if !Touches(ops, key) {
      UntouchedStays(rules, ContentOf(s), ops, key);
    }
  }

  // ---------------------------------------------------------------------------------------------
  // Removals.

  lemma {:induction false} KeepRunsFinds(runs: seq<Run>, removed: set<Id>, id: Id)
    ensures FindRun(KeepRuns(runs, removed), id) == if id in removed then None else FindRun(runs, id)
  {
    if runs != [] {
      KeepRunsFinds(runs[1..], removed, id);
      assert KeepRuns(runs, removed) == KeepRuns(runs[1..], removed)
             || KeepRuns(runs, removed)[1..] == KeepRuns(runs[1..], removed);
    }
  }

  lemma {:induction false} KeepRunsHolds(runs: seq<Run>, removed: set<Id>, r: Run)
    ensures r in KeepRuns(runs, removed) <==> r in runs && r.id !in removed
  {
    if runs != [] {
      KeepRunsHolds(runs[1..], removed, r);
    }
  }

  lemma {:induction false} KeepItemsHolds(items: seq<Item>, removed: set<Id>, x: Item)
    ensures x in KeepItems(items, removed) <==> x in items && x.runId !in removed
  {
    if items != [] {
      KeepItemsHolds(items[1..], removed, x);
    }
  }

  lemma {:induction false} KeepInteractionsHolds(xs: seq<Interaction>, removed: set<Id>, x: Interaction)
    ensures x in KeepInteractions(xs, removed) <==> x in xs && x.runId !in removed
  {
    if xs != [] {
      KeepInteractionsHolds(xs[1..], removed, x);
    }
  }

  predicate AllRemoves(ops: seq<Operation>) {
    forall op :: op in ops ==> op.Remove?
  }

  /** The trees of the named Runs, in the graph before the mutation. */
  ghost function Gone(g: Graph, ops: seq<Operation>): set<Id> {
    if ops == [] then {}
    else Gone(g, ops[..|ops| - 1]) + (if ops[|ops| - 1].Remove? then Subtree(g, ops[|ops| - 1].id) else {})
  }

  lemma {:induction false} GoneIsClosed(g: Graph, ops: seq<Operation>)
    ensures ClosedDownwards(g, Gone(g, ops)) && Gone(g, ops) <= g.Keys
  {
    if ops != [] {
      GoneIsClosed(g, ops[..|ops| - 1]);
      if ops[|ops| - 1].Remove? {
        SubtreeIsClosed(g, ops[|ops| - 1].id);
      }
    }
  }

  lemma SubtreeIsClosed(g: Graph, root: Id)
    ensures ClosedDownwards(g, Subtree(g, root))
  {
    forall id | id in g && Successor(g, id).Some? && Successor(g, id).value in Subtree(g, root)
      ensures id in Subtree(g, root)
    {
      ReachesBackwards(g, id, root);
    }
  }

  /** `h` is `g` without the nodes of `gone`. */
  ghost predicate Minus(h: Graph, g: Graph, gone: set<Id>) {
    h.Keys == g.Keys - gone && forall id :: id in h ==> h[id] == g[id]
  }

  lemma {:induction false} SameWalk(g: Graph, h: Graph, gone: set<Id>, id: Id, n: nat)
    requires Minus(h, g, gone) && ClosedDownwards(g, gone) && id in h
    ensures Walk(h, id, n) == Walk(g, id, n)
    decreases n
  {
    assert Successor(h, id) == Successor(g, id);
    if n > 0 && Successor(g, id).Some? {
      SameWalk(g, h, gone, Successor(g, id).value, n - 1);
    }
  }

  lemma SubtreeAfterRemoval(g: Graph, h: Graph, gone: set<Id>, root: Id)
    requires Minus(h, g, gone) && ClosedDownwards(g, gone)
    ensures Subtree(h, root) == Subtree(g, root) - gone
  {
    forall id | id in h ensures Reaches(h, id, root) <==> Reaches(g, id, root) {
      forall n: nat ensures Walk(h, id, n) == Walk(g, id, n) {
        SameWalk(g, h, gone, id, n);
      }
    }
  }

  /** `d` is `c` without the Runs of `gone` and what belongs to them. */
  ghost predicate Lost(c: Content, d: Content, gone: set<Id>) {
    && d.session == c.session
    && (forall id :: FindRun(d.runs, id) == if id in gone then None else FindRun(c.runs, id))
    && (forall r :: r in d.runs <==> r in c.runs && r.id !in gone)
    && (forall x :: x in d.items <==> x in c.items && x.runId !in gone)
    && (forall x :: x in d.interactions <==> x in c.interactions && x.runId !in gone)
  }

  lemma WithoutLoses(c: Content, removed: set<Id>)
    ensures Lost(c, Without(c, removed), removed)
  {
    forall id ensures FindRun(KeepRuns(c.runs, removed), id) == if id in removed then None else FindRun(c.runs, id) {
      KeepRunsFinds(c.runs, removed, id);
    }
    forall r ensures r in KeepRuns(c.runs, removed) <==> r in c.runs && r.id !in removed {
      KeepRunsHolds(c.runs, removed, r);
    }
    forall x ensures x in KeepItems(c.items, removed) <==> x in c.items && x.runId !in removed {
      KeepItemsHolds(c.items, removed, x);
    }
    forall x ensures x in KeepInteractions(c.interactions, removed) <==> x in c.interactions && x.runId !in removed {
      KeepInteractionsHolds(c.interactions, removed, x);
    }
  }

  lemma LosingTwice(c: Content, d: Content, e: Content, a: set<Id>, b: set<Id>)
    requires Lost(c, d, a) && Lost(d, e, b)
    ensures Lost(c, e, a + b)
  {
  }

  lemma GraphAfter(c: Content, d: Content, gone: set<Id>)
    requires Lost(c, d, gone)
    ensures Minus(GraphOf(d.runs, ParentRunId), GraphOf(c.runs, ParentRunId), gone)
  {
    var g, h := GraphOf(c.runs, ParentRunId), GraphOf(d.runs, ParentRunId);
    forall id ensures (id in g <==> FindRun(c.runs, id).Some?) && (id in h <==> FindRun(d.runs, id).Some?) {
    }
  }

  lemma {:induction false} RemovesLose(rules: Rules, c: Content, ops: seq<Operation>)
    requires AllRemoves(ops) && ApplyOperations(rules, c, ops).Some?
    ensures var gone := Gone(GraphOf(c.runs, ParentRunId), ops);
            Lost(c, ApplyOperations(rules, c, ops).value, gone) && AllTerminal(c.runs, gone)
  {
    if ops != [] {
      var shorter, last := ops[..|ops| - 1], ops[|ops| - 1];
      assert last in ops && forall op :: op in shorter ==> op in ops;
      RemovesLose(rules, c, shorter);
      var g := GraphOf(c.runs, ParentRunId);
      var d := ApplyOperations(rules, c, shorter).value;
      LastRemove(rules, c, d, Gone(g, shorter), last.id) by {
        GoneIsClosed(g, shorter);
      }
    }
  }

  lemma BothTerminal(c: Content, d: Content, a: set<Id>, b: set<Id>)
    requires Lost(c, d, a) && AllTerminal(c.runs, a) && AllTerminal(d.runs, b)
    ensures AllTerminal(c.runs, a + b)
  {
    forall r | r in c.runs && r.id in a + b ensures !r.status.Active? {
      assert r.id in a || r in d.runs;
    }
  }

  lemma LastRemove(rules: Rules, c: Content, d: Content, gone: set<Id>, id: Id)
    requires Lost(c, d, gone) && ClosedDownwards(GraphOf(c.runs, ParentRunId), gone)
    requires AllTerminal(c.runs, gone) && ApplyRemove(d, id).Some?
    ensures var all := gone + Subtree(GraphOf(c.runs, ParentRunId), id);
            Lost(c, ApplyRemove(d, id).value, all) && AllTerminal(c.runs, all)
  {
    var removed := Subtree(GraphOf(d.runs, ParentRunId), id);
    assert gone + removed == gone + Subtree(GraphOf(c.runs, ParentRunId), id) by {
      GraphAfter(c, d, gone);
      SubtreeAfterRemoval(GraphOf(c.runs, ParentRunId), GraphOf(d.runs, ParentRunId), gone, id);
    }
    BothTerminal(c, d, gone, removed);
    assert Lost(c, Without(d, removed), gone + removed) by {
      WithoutLoses(d, removed);
      LosingTwice(c, d, Without(d, removed), gone, removed);
    }
  }

  /** A mutation of removals takes away exactly the trees of the named Runs, as they were before the
      mutation, with their Items and Interactions, all of them terminal; nothing else changes. */
  lemma RemovalsAreExact(rules: Rules, s: Snapshot, m: Mutation, next: Snapshot)
    requires Advances(rules, s, m, next) && AllRemoves(m.operations)
    ensures var gone := Gone(GraphOf(s.runs, ParentRunId), m.operations);
            Lost(ContentOf(s), ContentOf(next), gone) && AllTerminal(s.runs, gone)
    ensures next.session == s.session
  {
    RemovesLose(rules, ContentOf(s), m.operations);
  }

  lemma PutsOrRemoves(rules: Rules, s: Snapshot, m: Mutation, next: Snapshot)
    requires Advances(rules, s, m, next)
    ensures AllPuts(m.operations) || AllRemoves(m.operations)
  {
  }

  // ---------------------------------------------------------------------------------------------
  // Terminal Runs.

  function ItemsOf(s: Snapshot, id: Id): set<Item> {
    set x | x in s.items && x.runId == id
  }

  function InteractionsOf(s: Snapshot, id: Id): set<Interaction> {
    set x | x in s.interactions && x.runId == id
  }

  predicate HasRun(s: Snapshot, id: Id) {
    FindRun(s.runs, id).Some?
  }

  /** The Run, its Items and its Interactions are what they were. */
  ghost predicate Frozen(s: Snapshot, next: Snapshot, run: Run) {
    && run in next.runs
    && ItemsOf(next, run.id) == ItemsOf(s, run.id)
    && InteractionsOf(next, run.id) == InteractionsOf(s, run.id)
  }

  lemma {:induction false} FoundIsTheItem(items: seq<Item>, x: Item)
    requires UniqueItems(items) && x in items
    ensures FindItem(items, x.runId, x.id) == Some(x)
  {
    if items[0] != x {
      assert x in items[1..];
      FoundIsTheItem(items[1..], x);
      var k :| 0 <= k < |items[1..]| && items[1..][k] == x;
      assert items[k + 1] == x;
    }
  }

  lemma {:induction false} FoundIsTheInteraction(xs: seq<Interaction>, x: Interaction)
    requires UniqueInteractions(xs) && x in xs
    ensures FindInteraction(xs, x.id) == Some(x)
  {
    if xs[0] != x {
      assert x in xs[1..];
      FoundIsTheInteraction(xs[1..], x);
      var k :| 0 <= k < |xs[1..]| && xs[1..][k] == x;
      assert xs[k + 1] == x;
    }
  }

  /** A key that only a put by a terminal Run's own transition could touch is untouched. */
  lemma RunUntouched(rules: Rules, s: Snapshot, m: Mutation, next: Snapshot, run: Run)
    requires Advances(rules, s, m, next) && AllPuts(m.operations)
    requires run in s.runs && !run.status.Active?
    ensures !Touches(m.operations, RunKey(run.id)) && run in next.runs && FindRun(next.runs, run.id) == Some(run)
  {
    FoundIsTheRun(s.runs, run);
    PutsAreExact(rules, s, m, next, RunKey(run.id));
    assert Lookup(ContentOf(s), RunKey(run.id)) == Some(ARun(run));
  }

  lemma ItemsUntouched(rules: Rules, s: Snapshot, m: Mutation, run: Run, id: Id)
    requires ValidState(rules, s) && ItemsWritable(s, m.operations) && AllPuts(m.operations)
    requires run in s.runs && !run.status.Active?
    ensures !Touches(m.operations, ItemKey(run.id, id))
  {
    FoundIsTheRun(s.runs, run);
    if op :| op in m.operations && KeyOf(op) == ItemKey(run.id, id) {
      if r :| r in s.runs && r.status.Active? && r.id == run.id {
        FoundIsTheRun(s.runs, r);
      }
    }
  }

  lemma ItemStays(rules: Rules, s: Snapshot, m: Mutation, next: Snapshot, run: Run, x: Item)
    requires Advances(rules, s, m, next) && AllPuts(m.operations)
    requires run in s.runs && !run.status.Active? && x.runId == run.id
    ensures x in next.items <==> x in s.items
  {
    ItemsUntouched(rules, s, m, run, x.id);
    PutsAreExact(rules, s, m, next, ItemKey(run.id, x.id));
    if x in s.items {
      FoundIsTheItem(s.items, x);
    }
    if x in next.items {
      FoundIsTheItem(next.items, x);
    }
  }

  lemma ItemsFrozen(rules: Rules, s: Snapshot, m: Mutation, next: Snapshot, run: Run)
    requires Advances(rules, s, m, next) && AllPuts(m.operations)
    requires run in s.runs && !run.status.Active?
    ensures ItemsOf(next, run.id) == ItemsOf(s, run.id)
  {
    forall x: Item | x.runId == run.id ensures x in next.items <==> x in s.items {
      ItemStays(rules, s, m, next, run, x);
    }
  }

  lemma SettledInteraction(rules: Rules, s: Snapshot, run: Run, x: Interaction)
    requires ValidState(rules, s) && run in s.runs && !run.status.Active?
    requires x in s.interactions && x.runId == run.id
    ensures !x.status.Open?
  {
    FoundIsTheRun(s.runs, run);
    assert InteractionValid(rules, s, x);
  }

  lemma InteractionStays(rules: Rules, s: Snapshot, m: Mutation, next: Snapshot, run: Run, x: Interaction)
    requires Advances(rules, s, m, next) && AllPuts(m.operations)
    requires run in s.runs && !run.status.Active? && run in next.runs && x.runId == run.id
    ensures x in next.interactions <==> x in s.interactions
  {
    var key := InteractionKey(x.id);
    PutsAreExact(rules, s, m, next, key);
    if x in s.interactions {
      FoundIsTheInteraction(s.interactions, x);
      SettledInteraction(rules, s, run, x);
      assert Lookup(ContentOf(s), key) == Some(AnInteraction(x));
      assert !Touches(m.operations, key);
    }
    if x in next.interactions {
      FoundIsTheInteraction(next.interactions, x);
      SettledInteraction(rules, next, run, x);
      assert Lookup(ContentOf(next), key) == Some(AnInteraction(x));
      var p := FindInteraction(s.interactions, x.id);
      if p.Some? && p.value.runId == run.id {
        SettledInteraction(rules, s, run, p.value);
      }
      assert !Touches(m.operations, key);
    }
  }

  lemma InteractionsFrozen(rules: Rules, s: Snapshot, m: Mutation, next: Snapshot, run: Run)
    requires Advances(rules, s, m, next) && AllPuts(m.operations)
    requires run in s.runs && !run.status.Active? && run in next.runs
    ensures InteractionsOf(next, run.id) == InteractionsOf(s, run.id)
  {
    forall x: Interaction | x.runId == run.id ensures x in next.interactions <==> x in s.interactions {
      InteractionStays(rules, s, m, next, run, x);
    }
  }

  lemma LosingFreezes(s: Snapshot, next: Snapshot, gone: set<Id>, run: Run)
    requires Lost(ContentOf(s), ContentOf(next), gone) && run in s.runs
    ensures if run.id in gone then !HasRun(next, run.id) && ItemsOf(next, run.id) == {} && InteractionsOf(next, run.id) == {}
            else Frozen(s, next, run)
  {
  }

  /** One mutation leaves a terminal Run and all that belongs to it alone, or removes it whole. */
  lemma TerminalRunIsFrozenOrGone(rules: Rules, s: Snapshot, m: Mutation, next: Snapshot, run: Run)
    requires Advances(rules, s, m, next) && run in s.runs && !run.status.Active?
    ensures if HasRun(next, run.id) then Frozen(s, next, run)
            else AllRemoves(m.operations) && ItemsOf(next, run.id) == {} && InteractionsOf(next, run.id) == {}
  {
    PutsOrRemoves(rules, s, m, next);
    if AllPuts(m.operations) {
      PutsFreeze(rules, s, m, next, run);
    } else {
      RemovalsAreExact(rules, s, m, next);
      LosingFreezes(s, next, Gone(GraphOf(s.runs, ParentRunId), m.operations), run);
    }
  }

  lemma PutsFreeze(rules: Rules, s: Snapshot, m: Mutation, next: Snapshot, run: Run)
    requires Advances(rules, s, m, next) && AllPuts(m.operations)
    requires run in s.runs && !run.status.Active?
    ensures HasRun(next, run.id) && Frozen(s, next, run)
  {
    RunUntouched(rules, s, m, next, run);
    ItemsFrozen(rules, s, m, next, run);
    InteractionsFrozen(rules, s, m, next, run);
  }

  // ---------------------------------------------------------------------------------------------
  // Histories.

  ghost predicate Becomes(rules: Rules, s: Snapshot, m: Mutation, next: Snapshot) {
    Applied(rules, s, m) == Success(next)
  }

  predicate Point(k: int) {
    true
  }

  /** A replica's snapshots, one mutation after another; a mutation it already has changes nothing.
      The trigger keeps what holds at a point out of proofs that do not ask for it. */
  ghost predicate History(rules: Rules, states: seq<Snapshot>, mutations: seq<Mutation>) {
    && |states| == |mutations| + 1
    && forall k {:trigger Point(k)} :: Point(k) && 0 <= k < |states| ==>
         if k == 0 then ValidState(rules, states[0]) else Becomes(rules, states[k - 1], mutations[k - 1], states[k])
  }

  lemma HistoryBecomes(rules: Rules, states: seq<Snapshot>, mutations: seq<Mutation>, k: nat)
    requires History(rules, states, mutations) && k < |states|
    ensures if k == 0 then ValidState(rules, states[0]) else Becomes(rules, states[k - 1], mutations[k - 1], states[k])
  {
    assert Point(k);
  }

  lemma StaysValid(rules: Rules, s: Snapshot, m: Mutation, next: Snapshot)
    requires ValidState(rules, s) && Becomes(rules, s, m, next)
    ensures ValidState(rules, next)
  {
  }

  lemma {:induction false} HistoryIsValid(rules: Rules, states: seq<Snapshot>, mutations: seq<Mutation>, k: nat)
    requires History(rules, states, mutations) && k < |states|
    ensures ValidState(rules, states[k])
  {
    HistoryBecomes(rules, states, mutations, k);
    if k > 0 {
      HistoryIsValid(rules, states, mutations, k - 1);
      StaysValid(rules, states[k - 1], mutations[k - 1], states[k]);
    }
  }

  lemma StepFreezes(rules: Rules, s: Snapshot, m: Mutation, next: Snapshot, run: Run)
    requires ValidState(rules, s) && Becomes(rules, s, m, next)
    requires run in s.runs && !run.status.Active? && HasRun(next, run.id)
    ensures Frozen(s, next, run)
  {
    if m.revision > s.revision {
      TerminalRunIsFrozenOrGone(rules, s, m, next, run);
    }
  }

  /** A terminal Run of `s` that is still there in `next` is frozen. */
  ghost predicate StaysFrozen(s: Snapshot, next: Snapshot, run: Run) {
    run in s.runs && HasRun(next, run.id) ==> Frozen(s, next, run)
  }

  lemma HistoryFreezes(rules: Rules, states: seq<Snapshot>, mutations: seq<Mutation>, k: nat, run: Run)
    requires History(rules, states, mutations) && k < |mutations| && !run.status.Active?
    ensures |states| == |mutations| + 1 && StaysFrozen(states[k], states[k + 1], run)
  {
    HistoryIsValid(rules, states, mutations, k);
    HistoryBecomes(rules, states, mutations, k + 1);
    var s, next := states[k], states[k + 1];
    if run in s.runs && HasRun(next, run.id) {
      StepFreezes(rules, s, mutations[k], next, run);
    }
  }

  lemma FrozenTogether(s: Snapshot, t: Snapshot, u: Snapshot, run: Run)
    requires Frozen(s, t, run) && Frozen(t, u, run)
    ensures Frozen(s, u, run)
  {
  }

  lemma {:induction false} FrozenThroughout(states: seq<Snapshot>, i: nat, n: nat, run: Run)
    requires i <= n < |states| && run in states[i].runs
    requires forall k :: i < k <= n ==> HasRun(states[k], run.id) && StaysFrozen(states[k - 1], states[k], run)
    ensures Frozen(states[i], states[n], run)
    decreases n
  {
    if i < n {
      FrozenThroughout(states, i, n - 1, run);
      FrozenTogether(states[i], states[n - 1], states[n], run);
    }
  }

  /** A Run that is terminal at some point of a history is the same at the end of it, with the same
      Items and Interactions, unless it was removed in between. */
  lemma TerminalRunsAreFrozen(rules: Rules, states: seq<Snapshot>, mutations: seq<Mutation>, i: nat, run: Run)
    requires History(rules, states, mutations) && i < |states|
    requires run in states[i].runs && !run.status.Active?
    requires forall k :: i <= k < |states| ==> HasRun(states[k], run.id)
    ensures Frozen(states[i], states[|mutations|], run)
  {
    forall k | i < k <= |mutations| ensures StaysFrozen(states[k - 1], states[k], run) {
      HistoryFreezes(rules, states, mutations, k - 1, run);
    }
    FrozenThroughout(states, i, |mutations|, run);
  }

  // ---------------------------------------------------------------------------------------------
  // Closed Sessions.

  lemma NoPutWhenClosed(rules: Rules, s: Snapshot, m: Mutation, next: Snapshot, op: Operation)
    requires Advances(rules, s, m, next) && s.session.status.SessionClosed? && AllPuts(m.operations)
    requires op in m.operations
    ensures op.entity.AnItem?
  {
    var key := KeyOf(op);
    PutsAreExact(rules, s, m, next, key);
    SessionStaysClosed(rules, s, m, next);
    match op.entity {
      case ASession(_) => {}
      case ARun(run) => {}
      case AnItem(_) => {}
      case AnInteraction(x) => {}
    }
  }

  lemma SessionStaysClosed(rules: Rules, s: Snapshot, m: Mutation, next: Snapshot)
    requires Advances(rules, s, m, next) && s.session.status.SessionClosed? && AllPuts(m.operations)
    ensures next.session == s.session
  {
    PutsAreExact(rules, s, m, next, SessionKey(s.session.id));
  }

  /** Once a Session is closed a mutation that succeeds only removes Runs, and keeps it closed. */
  lemma ClosedSessionsOnlyLoseRuns(rules: Rules, s: Snapshot, m: Mutation, next: Snapshot)
    requires Advances(rules, s, m, next) && s.session.status.SessionClosed?
    ensures AllRemoves(m.operations) && next.session == s.session
  {
    PutsOrRemoves(rules, s, m, next);
    if AllRemoves(m.operations) {
      RemovalsAreExact(rules, s, m, next);
    } else {
      var op :| op in m.operations && op.Put?;
      NoPutWhenClosed(rules, s, m, next, op);
      assert Writable(s, m.operations, op.entity.item.runId);
      if other :| other in m.operations && NewRun(s, other) {
        NoPutWhenClosed(rules, s, m, next, other);
      }
    }
  }

  lemma StepKeepsClosed(rules: Rules, s: Snapshot, m: Mutation, next: Snapshot)
    requires ValidState(rules, s) && Becomes(rules, s, m, next) && s.session.status.SessionClosed?
    ensures next.session == s.session
    ensures m.revision > s.revision ==> AllRemoves(m.operations)
  {
    if m.revision > s.revision {
      ClosedSessionsOnlyLoseRuns(rules, s, m, next);
    }
  }

  lemma {:induction false} StaysClosed(rules: Rules, states: seq<Snapshot>, mutations: seq<Mutation>, i: nat, k: nat)
    requires History(rules, states, mutations) && i <= k < |states| && states[i].session.status.SessionClosed?
    ensures states[k].session == states[i].session
    decreases k
  {
    if i < k {
      StaysClosed(rules, states, mutations, i, k - 1);
      HistoryKeepsClosed(rules, states, mutations, k - 1);
    }
  }

  lemma HistoryKeepsClosed(rules: Rules, states: seq<Snapshot>, mutations: seq<Mutation>, k: nat)
    requires History(rules, states, mutations) && k < |mutations| && states[k].session.status.SessionClosed?
    ensures states[k + 1].session == states[k].session
    ensures mutations[k].revision > states[k].revision ==> AllRemoves(mutations[k].operations)
  {
    HistoryIsValid(rules, states, mutations, k);
    HistoryBecomes(rules, states, mutations, k + 1);
    StepKeepsClosed(rules, states[k], mutations[k], states[k + 1]);
  }

  /** Closing is final: the Session never changes again, and from then on every mutation that
      succeeds and is new consists of removals. */
  lemma ClosedForever(rules: Rules, states: seq<Snapshot>, mutations: seq<Mutation>, i: nat)
    requires History(rules, states, mutations) && i < |states| && states[i].session.status.SessionClosed?
    ensures states[|mutations|].session == states[i].session
    ensures forall k :: i <= k < |mutations| && mutations[k].revision > states[k].revision ==>
              AllRemoves(mutations[k].operations)
  {
    StaysClosed(rules, states, mutations, i, |mutations|);
    forall k | i <= k < |mutations| && mutations[k].revision > states[k].revision ensures AllRemoves(mutations[k].operations) {
      StaysClosed(rules, states, mutations, i, k);
      HistoryKeepsClosed(rules, states, mutations, k);
    }
  }
}
