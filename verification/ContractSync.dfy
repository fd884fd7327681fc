/** Following an authoritative log from windows of mutations and snapshots cut out of it. */
module ContractSync {
  import opened Wrappers
  import opened Timestamps
  import opened RunGraph
  import opened ContractState
  import opened ContractReducer
  import opened ContractHistory
  import Folds

  datatype Payload =
    | SnapshotSync(snapshot: Snapshot, minimumResumeRevision: nat)
    | MutationSync(baseRevision: nat, throughRevision: nat, mutations: seq<Mutation>)

  // ---------------------------------------------------------------------------------------------
  // The shape of a window.

  /** Revisions `base + 1`, `base + 2` and so on, each on top of the one before. */
  predicate Consecutive(ms: seq<Mutation>, base: nat) {
    forall i :: 0 <= i < |ms| ==> ms[i].baseRevision == base + i && ms[i].revision == base + i + 1
  }

  predicate OneSession(ms: seq<Mutation>) {
    forall i :: 0 <= i < |ms| ==> ms[i].sessionId == ms[0].sessionId
  }

  predicate UniqueMutations(ms: seq<Mutation>) {
    forall i, j :: 0 <= i < j < |ms| ==> ms[i].mutationId != ms[j].mutationId
  }

  predicate Contiguous(p: Payload)
    requires p.MutationSync?
  {
    && Consecutive(p.mutations, p.baseRevision) && OneSession(p.mutations) && UniqueMutations(p.mutations)
    && p.throughRevision == p.baseRevision + |p.mutations|
  }

  function MutationIds(ms: seq<Mutation>): (r: seq<Id>)
    ensures |r| == |ms| && forall i :: 0 <= i < |r| ==> r[i] == ms[i].mutationId
  {
    seq(|ms|, i requires 0 <= i < |ms| => ms[i].mutationId)
  }

  function Elements(ids: seq<Id>): set<Id> {
    set id | id in ids
  }

  predicate Distinct(ids: seq<Id>) {
    forall i, j :: 0 <= i < j < |ids| ==> ids[i] != ids[j]
  }

  lemma {:induction false} DistinctIds(ids: seq<Id>)
    ensures |Elements(ids)| <= |ids|
    ensures |Elements(ids)| == |ids| <==> Distinct(ids)
  {
    if ids != [] {
      var n := |ids| - 1;
      var shorter, last := ids[..n], ids[n];
      DistinctIds(shorter);
      assert Elements(ids) == Elements(shorter) + {last};
      assert Distinct(ids) <==> Distinct(shorter) && last !in shorter;
      if last in shorter {
        assert Elements(shorter) + {last} == Elements(shorter);
      }
    }
  }

  /** The check of a window, one pass over its mutations. */
  method CheckWindow(p: Payload) returns (ok: bool)
    requires p.MutationSync?
    ensures ok <==> Contiguous(p)
  {
    ok := true;
    var expected := p.baseRevision + 1;
    var sessionId: Option<Id> := None;
    for i := 0 to |p.mutations|
      invariant expected == p.baseRevision + i + 1
      invariant sessionId == if i == 0 then None else Some(p.mutations[0].sessionId)
      invariant ok <==> Consecutive(p.mutations[..i], p.baseRevision) && OneSession(p.mutations[..i])
    {
      var m := p.mutations[i];
      ghost var longer := p.mutations[..i + 1];
      assert longer[i] == m && longer[..i] == p.mutations[..i];
      assert Consecutive(longer, p.baseRevision)
             <==> Consecutive(longer[..i], p.baseRevision) && m.baseRevision == expected - 1 && m.revision == expected;
      if m.baseRevision != expected - 1 {
        ok := false;
      }
      if m.revision != expected {
        ok := false;
      }
      if sessionId.None? {
        sessionId := Some(m.sessionId);
      }
      assert OneSession(longer) <==> OneSession(longer[..i]) && m.sessionId == sessionId.value;
      if m.sessionId != sessionId.value {
        ok := false;
      }
      expected := expected + 1;
    }
    assert p.mutations[..|p.mutations|] == p.mutations;
    var ids := MutationIds(p.mutations);
    assert Distinct(ids) <==> UniqueMutations(p.mutations);
    DistinctIds(ids);
    if |Elements(ids)| != |p.mutations| {
      ok := false;
    }
    var expectedThrough := if |p.mutations| == 0 then p.baseRevision else expected - 1;
    if p.throughRevision != expectedThrough {
      ok := false;
    }
  }

  predicate WellFormedPayload(p: Payload) {
    match p
    case SnapshotSync(s, minimum) => minimum <= s.revision
    case MutationSync(_, _, _) => Contiguous(p)
  }

  // ---------------------------------------------------------------------------------------------
  // Applying a payload.

  ghost function Apply(rules: Rules): Reducer {
    (s, m) => Applied(rules, s, m)
  }

  function Newer(ms: seq<Mutation>, revision: nat): seq<Mutation> {
    if ms == [] then []
    else (if ms[0].revision > revision then [ms[0]] else []) + Newer(ms[1..], revision)
  }

  ghost function SnapshotReceived(rules: Rules, current: Option<Snapshot>, next: Snapshot): Result<Snapshot, Code> {
    if !ValidState(rules, next) then Failure(Invalid)
    else if current.None? then Success(next)
    else if current.value.session.id != next.session.id then Failure(SessionMismatch)
    else if next.revision < current.value.revision
            || (next.revision == current.value.revision && Compare(next.capturedAt, current.value.capturedAt) < 0) then
      Success(current.value)
    else if NotBefore(next.capturedAt, current.value.capturedAt) then Success(next)
    else Failure(Invalid)
  }

  type Reducer = (Snapshot, Mutation) -> Result<Snapshot, Code>

  ghost function WindowReceived(apply: Reducer, current: Option<Snapshot>, p: Payload): Result<Snapshot, Code>
    requires p.MutationSync?
  {
    if current.None? || p.baseRevision > current.value.revision then Failure(RevisionGap)
    else if p.mutations != [] && p.mutations[0].sessionId != current.value.session.id then Failure(SessionMismatch)
    else if p.throughRevision <= current.value.revision then Success(current.value)
    else Folds.Fold(apply, current.value, Newer(p.mutations, current.value.revision))
  }

  /** `admitted` says whether the payload is within the receiver's size limits. */
  ghost function Received(rules: Rules, current: Option<Snapshot>, p: Payload, admitted: bool): Result<Snapshot, Code> {
    if !WellFormedPayload(p) || (current.Some? && !ValidState(rules, current.value)) || !admitted then Failure(Invalid)
    else if p.SnapshotSync? then SnapshotReceived(rules, current, p.snapshot)
    else WindowReceived(Apply(rules), current, p)
  }

  method Reduce(rules: Rules, s: Snapshot, ms: seq<Mutation>) returns (r: Result<Snapshot, Code>)
    ensures r == Folds.Fold(Apply(rules), s, ms)
  {
    r := Success(s);
    for i := 0 to |ms|
      invariant r.Success? && r == Folds.Fold(Apply(rules), s, ms[..i])
    {
      Folds.OneMore(Apply(rules), s, ms, i);
      r := ApplyMutation(rules, r.value, ms[i]);
      if r.Failure? {
        Folds.FailureSticks(Apply(rules), s, ms, i + 1);
        return r;
      }
    }
    assert ms[..|ms|] == ms;
  }

  method ApplySyncPayload(rules: Rules, current: Option<Snapshot>, p: Payload, admitted: bool)
    returns (r: Result<Snapshot, Code>)
    ensures r == Received(rules, current, p, admitted)
  {
    var parsed := true;
    match p {
      case SnapshotSync(s, minimum) => { parsed := minimum <= s.revision; }
      case MutationSync(_, _, _) => { parsed := CheckWindow(p); }
    }
    if !parsed {
      return Failure(Invalid);
    }
    if current.Some? {
      var valid := ValidateState(rules, current.value);
      if !valid {
        return Failure(Invalid);
      }
    }
    if !admitted {
      return Failure(Invalid);
    }
    if p.SnapshotSync? {
      r := TakeSnapshot(rules, current, p.snapshot);
      return;
    }
    if current.None? || p.baseRevision > current.value.revision {
      return Failure(RevisionGap);
    }
    if p.mutations != [] && p.mutations[0].sessionId != current.value.session.id {
      return Failure(SessionMismatch);
    }
    if p.throughRevision <= current.value.revision {
      return Success(current.value);
    }
    r := Reduce(rules, current.value, Newer(p.mutations, current.value.revision));
  }

  method TakeSnapshot(rules: Rules, current: Option<Snapshot>, next: Snapshot) returns (r: Result<Snapshot, Code>)
    ensures r == SnapshotReceived(rules, current, next)
  {
    var valid := ValidateState(rules, next);
    if !valid {
      return Failure(Invalid);
    }
    if current.Some? {
      if current.value.session.id != next.session.id {
        return Failure(SessionMismatch);
      }
      if next.revision < current.value.revision
         || (next.revision == current.value.revision && Compare(next.capturedAt, current.value.capturedAt) < 0) {
        return Success(current.value);
      }
      if !NotBefore(next.capturedAt, current.value.capturedAt) {
        return Failure(Invalid);
      }
    }
    r := Success(next);
  }

  /** Earlier in revision, or at the same revision captured earlier. */
  predicate Older(a: Snapshot, b: Snapshot) {
    a.revision < b.revision || (a.revision == b.revision && Compare(a.capturedAt, b.capturedAt) < 0)
  }

  /** What becomes of any snapshot, from wherever it comes, that its receiver's size limits admit: an older
      one of the same Session is passed over; one that was not captured before the one held is taken; and
      everything else is refused. */
  lemma SnapshotIsTakenIff(rules: Rules, current: Snapshot, next: Snapshot, minimum: nat)
    requires ValidState(rules, current)
    ensures var r := Received(rules, Some(current), SnapshotSync(next, minimum), true);
            var genuine := ValidState(rules, next) && minimum <= next.revision && next.session.id == current.session.id;
            && (genuine && Older(next, current) ==> r == Success(current))
            && (genuine && !Older(next, current) && NotBefore(next.capturedAt, current.capturedAt) ==> r == Success(next))
            && (r.Success? ==> genuine && (Older(next, current) || NotBefore(next.capturedAt, current.capturedAt)))
            && (r == Failure(SessionMismatch)
                <==> ValidState(rules, next) && minimum <= next.revision && next.session.id != current.session.id)
  {
  }

  /** A window of another Session, whatever it brings, is never taken nor passed over. */
  lemma WindowOfAnotherIsRefused(rules: Rules, current: Option<Snapshot>, p: Payload, admitted: bool)
    requires p.MutationSync? && p.mutations != []
    requires current.Some? ==> p.mutations[0].sessionId != current.value.session.id
    ensures Received(rules, current, p, admitted).Failure?
    ensures current.Some? && ValidState(rules, current.value) && admitted && Contiguous(p) && p.baseRevision <= current.value.revision
            ==> Received(rules, current, p, admitted) == Failure(SessionMismatch)
  {
  }

  // ---------------------------------------------------------------------------------------------
  // An authoritative log.

  /** A log of mutations that the authority committed, one revision each, on top of `start`. */
  ghost predicate Authoritative(rules: Rules, start: Snapshot, log: seq<Mutation>) {
    && ValidState(rules, start)
    && Consecutive(log, start.revision) && UniqueMutations(log)
    && (forall i :: 0 <= i < |log| ==> log[i].sessionId == start.session.id)
    && Folds.Fold(Apply(rules), start, log).Success?
  }

  /** The authority's snapshot after `i` mutations. */
  ghost function StateAt(rules: Rules, start: Snapshot, log: seq<Mutation>, i: nat): Snapshot
    requires Authoritative(rules, start, log) && i <= |log|
  {
    Folds.Prefix(Apply(rules), start, log, i);
    Folds.Fold(Apply(rules), start, log[..i]).value
  }

  lemma AdvanceKeepsSession(rules: Rules, s: Snapshot, m: Mutation, next: Snapshot)
    requires Advances(rules, s, m, next)
    ensures next.session.id == s.session.id && next.revision == m.revision
    ensures next.capturedAt == m.committedAt && NotBefore(next.capturedAt, s.capturedAt)
    ensures ValidState(rules, next)
  {
    PutsOrRemoves(rules, s, m, next);
    if AllPuts(m.operations) {
      var key := SessionKey(s.session.id);
      PutsAreExact(rules, s, m, next, key);
      assert Lookup(ContentOf(next), key).Some?;
    } else {
      RemovalsAreExact(rules, s, m, next);
    }
  }

  /** What the authority's snapshots have in common. */
  ghost predicate LogState(rules: Rules, start: Snapshot, i: nat, s: Snapshot) {
    && s.revision == start.revision + i && s.session.id == start.session.id
    && ValidState(rules, s)
  }

  lemma StepInLog(rules: Rules, start: Snapshot, log: seq<Mutation>, i: nat)
    requires Authoritative(rules, start, log) && i < |log|
    requires LogState(rules, start, i, StateAt(rules, start, log, i))
    ensures Advances(rules, StateAt(rules, start, log, i), log[i], StateAt(rules, start, log, i + 1))
  {
    Folds.Prefix(Apply(rules), start, log, i);
    Folds.Prefix(Apply(rules), start, log, i + 1);
    Folds.OneMore(Apply(rules), start, log, i);
  }

  lemma {:induction false} StatesOfLog(rules: Rules, start: Snapshot, log: seq<Mutation>, i: nat)
    requires Authoritative(rules, start, log) && i <= |log|
    ensures LogState(rules, start, i, StateAt(rules, start, log, i))
  {
    if i > 0 {
      StatesOfLog(rules, start, log, i - 1);
      StepInLog(rules, start, log, i - 1);
      AdvanceKeepsSession(rules, StateAt(rules, start, log, i - 1), log[i - 1], StateAt(rules, start, log, i));
    }
  }

  lemma StepTime(rules: Rules, start: Snapshot, log: seq<Mutation>, i: nat)
    requires Authoritative(rules, start, log) && i < |log|
    ensures NotBefore(StateAt(rules, start, log, i + 1).capturedAt, StateAt(rules, start, log, i).capturedAt)
  {
    StatesOfLog(rules, start, log, i);
    StatesOfLog(rules, start, log, i + 1);
    StepInLog(rules, start, log, i);
    AdvanceKeepsSession(rules, StateAt(rules, start, log, i), log[i], StateAt(rules, start, log, i + 1));
  }

  ghost function TimeAt(rules: Rules, start: Snapshot, log: seq<Mutation>, i: nat): Timestamp
    requires Authoritative(rules, start, log) && i <= |log|
  {
    StateAt(rules, start, log, i).capturedAt
  }

  lemma {:induction false} RisingTimes(ts: seq<Timestamp>, i: nat, j: nat)
    requires i < j < |ts|
    requires forall k :: 1 <= k < |ts| ==> NotBefore(ts[k], ts[k - 1])
    ensures NotBefore(ts[j], ts[i])
    decreases j
  {
    if i < j - 1 {
      RisingTimes(ts, i, j - 1);
      NotBeforeIsTransitive(ts[j], ts[j - 1], ts[i]);
    }
  }

  lemma TimeOfLog(rules: Rules, start: Snapshot, log: seq<Mutation>, i: nat, j: nat)
    requires Authoritative(rules, start, log) && i < j <= |log|
    ensures NotBefore(TimeAt(rules, start, log, j), TimeAt(rules, start, log, i))
  {
    var ts := seq(|log| + 1, k requires 0 <= k <= |log| => TimeAt(rules, start, log, k));
    forall k | 1 <= k < |ts| ensures NotBefore(ts[k], ts[k - 1]) {
      StepTime(rules, start, log, k - 1);
    }
    RisingTimes(ts, i, j);
  }

  // ---------------------------------------------------------------------------------------------
  // A replica.

  /** Something cut from the log: its mutations from one position to another, or its snapshot at one.
      The receiver's size limits admit it or not. */
  datatype Delivery =
    | Window(from: nat, to: nat, admitted: bool)
    | SnapshotOf(at: nat, minimumResumeRevision: nat, admitted: bool)

  predicate CutFrom(log: seq<Mutation>, start: Snapshot, d: Delivery) {
    match d
    case Window(from, to, _) => from <= to <= |log|
    case SnapshotOf(at, minimum, _) => at <= |log| && minimum <= start.revision + at
  }

  ghost function PayloadOf(rules: Rules, start: Snapshot, log: seq<Mutation>, d: Delivery): Payload
    requires Authoritative(rules, start, log) && CutFrom(log, start, d)
  {
    match d
    case Window(from, to, _) => MutationSync(start.revision + from, start.revision + to, log[from..to])
    case SnapshotOf(at, minimum, _) => SnapshotSync(StateAt(rules, start, log, at), minimum)
  }

  /** Where in the log the replica is after one more delivery. */
  function Moved(position: Option<nat>, d: Delivery): Option<nat> {
    if !d.admitted then position
    else match d
      case Window(from, to, _) =>
        if position.None? || from > position.value || to <= position.value then position else Some(to)
      case SnapshotOf(at, _, _) =>
        if position.Some? && at <= position.value then position else Some(at)
  }

  ghost function HeldAt(rules: Rules, start: Snapshot, log: seq<Mutation>, position: Option<nat>): Option<Snapshot>
    requires Authoritative(rules, start, log) && (position.Some? ==> position.value <= |log|)
  {
    if position.None? then None else Some(StateAt(rules, start, log, position.value))
  }

  lemma WindowIsContiguous(rules: Rules, start: Snapshot, log: seq<Mutation>, d: Delivery)
    requires Authoritative(rules, start, log) && CutFrom(log, start, d) && d.Window?
    ensures Contiguous(PayloadOf(rules, start, log, d))
  {
    var ms := log[d.from..d.to];
    forall i | 0 <= i < |ms|
      ensures ms[i].baseRevision == start.revision + d.from + i && ms[i].revision == start.revision + d.from + i + 1
              && ms[i].sessionId == start.session.id
    {
      assert ms[i] == log[d.from + i];
    }
    forall i, j | 0 <= i < j < |ms| ensures ms[i].mutationId != ms[j].mutationId {
      assert ms[i] == log[d.from + i] && ms[j] == log[d.from + j];
    }
  }

  function Later(a: nat, b: nat): nat {
    if a < b then b else a
  }

  /** What a window holds that is newer than position `k`. */
  lemma {:induction false} NewerInWindow(log: seq<Mutation>, base: nat, from: nat, to: nat, k: nat)
    requires Consecutive(log, base) && from <= to <= |log| && k <= to
    ensures Newer(log[from..to], base + k) == log[Later(from, k)..to]
    decreases |log| - from
  {
    if from < to {
      var ms := log[from..to];
      assert ms[0] == log[from] && ms[1..] == log[from + 1..to];
      NewerInWindow(log, base, from + 1, to, k);
      if k <= from {
        assert [log[from]] + log[from + 1..to] == ms;
      }
    }
  }

  lemma NewerAreApplied(apply: Reducer, s: Snapshot, p: Payload, newer: seq<Mutation>)
    requires p.MutationSync? && p.baseRevision <= s.revision < p.throughRevision && Newer(p.mutations, s.revision) == newer
    requires p.mutations != [] ==> p.mutations[0].sessionId == s.session.id
    ensures WindowReceived(apply, Some(s), p) == Folds.Fold(apply, s, newer)
  {
  }

  lemma WindowIsOld(apply: Reducer, s: Snapshot, p: Payload)
    requires p.MutationSync? && p.baseRevision <= s.revision && p.throughRevision <= s.revision
    requires p.mutations != [] ==> p.mutations[0].sessionId == s.session.id
    ensures WindowReceived(apply, Some(s), p) == Success(s)
  {
  }

  /** The mutations of a window that a replica at position `k` lacks bring it to the end of the window; a
      window that starts ahead of it is refused. */
  lemma WindowTaken(apply: Reducer, base: nat, log: seq<Mutation>, s: Snapshot, k: nat, from: nat, to: nat)
    requires Consecutive(log, base) && k <= |log| && from <= to <= |log|
    requires s.revision == base + k && (from < to ==> log[from].sessionId == s.session.id)
    ensures WindowReceived(apply, Some(s), MutationSync(base + from, base + to, log[from..to]))
            == if from > k then Failure(RevisionGap)
               else if to <= k then Success(s)
               else Folds.Fold(apply, s, log[k..to])
  {
    var p := MutationSync(base + from, base + to, log[from..to]);
    if from < to {
      assert p.mutations[0] == log[from];
    }
    if from <= k < to {
      NewerInWindow(log, base, from, to, k);
      NewerAreApplied(apply, s, p, log[k..to]);
    } else if from <= k {
      WindowIsOld(apply, s, p);
    }
  }

  lemma WindowDelivered(rules: Rules, start: Snapshot, log: seq<Mutation>, k: nat, d: Delivery)
    requires Authoritative(rules, start, log) && k <= |log| && CutFrom(log, start, d) && d.Window?
    ensures WindowReceived(Apply(rules), Some(StateAt(rules, start, log, k)), PayloadOf(rules, start, log, d))
            == if d.from > k then Failure(RevisionGap)
               else Success(StateAt(rules, start, log, if d.to <= k then k else d.to))
  {
    StatesOfLog(rules, start, log, k);
    WindowTaken(Apply(rules), start.revision, log, StateAt(rules, start, log, k), k, d.from, d.to);
    if d.from <= k < d.to {
      Folds.Resume(Apply(rules), start, log, k, d.to);
    }
  }

  lemma SnapshotDelivered(rules: Rules, start: Snapshot, log: seq<Mutation>, k: nat, at: nat)
    requires Authoritative(rules, start, log) && k <= |log| && at <= |log|
    ensures SnapshotReceived(rules, Some(StateAt(rules, start, log, k)), StateAt(rules, start, log, at))
            == Success(StateAt(rules, start, log, if at <= k then k else at))
  {
    StatesOfLog(rules, start, log, k);
    StatesOfLog(rules, start, log, at);
    if at == k {
      NotBeforeItself(StateAt(rules, start, log, k).capturedAt);
    } else if k < at {
      TimeOfLog(rules, start, log, k, at);
    }
  }

  /** One delivery: a replica that holds a snapshot of the log moves to the furthest of where it is
      and where the delivery ends, unless the delivery is refused: for its size, or because the
      window starts ahead of the replica.  A refusal, and nothing else, is a failure. */
  lemma DeliveryMoves(rules: Rules, start: Snapshot, log: seq<Mutation>, position: Option<nat>, d: Delivery)
    requires Authoritative(rules, start, log) && CutFrom(log, start, d)
    requires position.Some? ==> position.value <= |log|
    ensures Moved(position, d).Some? ==> Moved(position, d).value <= |log|
    ensures var r := Received(rules, HeldAt(rules, start, log, position), PayloadOf(rules, start, log, d), d.admitted);
            if !d.admitted then r == Failure(Invalid)
            else if d.Window? && (position.None? || d.from > position.value) then r == Failure(RevisionGap)
            else r.Success? && Some(r.value) == HeldAt(rules, start, log, Moved(position, d))
  {
    if position.Some? {
      StatesOfLog(rules, start, log, position.value);
    }
    if d.Window? {
      WindowIsContiguous(rules, start, log, d);
      if position.Some? {
        WindowDelivered(rules, start, log, position.value, d);
      }
    } else {
      StatesOfLog(rules, start, log, d.at);
      if position.Some? {
        SnapshotDelivered(rules, start, log, position.value, d.at);
      }
    }
  }

  /** The replica after a run of deliveries, each either taken or refused. */
  ghost function Follow(rules: Rules, start: Snapshot, log: seq<Mutation>, ds: seq<Delivery>): Option<Snapshot>
    requires Authoritative(rules, start, log) && forall d :: d in ds ==> CutFrom(log, start, d)
  {
    if ds == [] then None
    else
      var last := ds[|ds| - 1];
      var before := Follow(rules, start, log, ds[..|ds| - 1]);
      var r := Received(rules, before, PayloadOf(rules, start, log, last), last.admitted);
      if r.Success? then Some(r.value) else before
  }

  function Position(ds: seq<Delivery>): Option<nat> {
    if ds == [] then None else Moved(Position(ds[..|ds| - 1]), ds[|ds| - 1])
  }

  /** Whatever overlapping, repeated, stale or early pieces of the log a replica is fed, it holds
      exactly the fold of the log up to its position, which is the revision it reports. */
  lemma {:induction false} ReplicaFollowsTheLog(rules: Rules, start: Snapshot, log: seq<Mutation>, ds: seq<Delivery>)
    requires Authoritative(rules, start, log) && forall d :: d in ds ==> CutFrom(log, start, d)
    ensures Position(ds).Some? ==> Position(ds).value <= |log|
    ensures Follow(rules, start, log, ds) == HeldAt(rules, start, log, Position(ds))
    ensures Follow(rules, start, log, ds).Some? ==>
              Follow(rules, start, log, ds).value.revision == start.revision + Position(ds).value
  {
    if ds != [] {
      var shorter, last := ds[..|ds| - 1], ds[|ds| - 1];
      assert last in ds && forall d :: d in shorter ==> d in ds;
      ReplicaFollowsTheLog(rules, start, log, shorter);
      DeliveryMoves(rules, start, log, Position(shorter), last);
      if Position(ds).Some? {
        StatesOfLog(rules, start, log, Position(ds).value);
      }
    }
  }

  /** The replica never goes back, and never forgets. */
  lemma {:induction false} PositionNeverDecreases(ds: seq<Delivery>, more: seq<Delivery>)
    ensures Position(ds).Some? ==> Position(ds + more).Some? && Position(ds + more).value >= Position(ds).value
  {
    if more == [] {
      assert ds + more == ds;
    } else {
      PositionNeverDecreases(ds, more[..|more| - 1]);
      assert (ds + more)[..|ds + more| - 1] == ds + more[..|more| - 1];
    }
  }
}
