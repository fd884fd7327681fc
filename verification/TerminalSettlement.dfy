/** The settlement of a Run's terminal: its closing events and the terminal itself, in order. */
module TerminalSettlement {
  import opened Wrappers
  import opened EventAdmission

  datatype Settlement = Settlement(events: seq<Event>, ids: seq<Id>, nextIndex: nat, acceptedIds: set<Id>, running: bool,
                                   rejected: bool, cleanupComplete: bool)

  /** Passes over what has been accepted. */
  function Advanced(st: Settlement): Settlement
    decreases |st.ids| - st.nextIndex
  {
    if st.nextIndex < |st.ids| && st.ids[st.nextIndex] in st.acceptedIds then
      Advanced(st.(nextIndex := st.nextIndex + 1, acceptedIds := st.acceptedIds - {st.ids[st.nextIndex]}))
    else st
  }

  method AdvanceTerminalSettlement(st: Settlement) returns (r: Settlement)
    ensures r == Advanced(st)
  {
    r := st;
    while r.nextIndex < |r.ids| && r.ids[r.nextIndex] in r.acceptedIds
      invariant r.ids == st.ids && Advanced(r) == Advanced(st)
      decreases |r.ids| - r.nextIndex
    {
      r := r.(nextIndex := r.nextIndex + 1, acceptedIds := r.acceptedIds - {r.ids[r.nextIndex]});
    }
  }

  function IdSet(ids: seq<Id>): set<Id> {
    set id | id in ids
  }

  /** The host acknowledged these ids. */
  function Remembered(st: Option<Settlement>, ids: set<Id>): Option<Settlement> {
    if st.None? then None
    else Some(Advanced(st.value.(acceptedIds := st.value.acceptedIds + ids * IdSet(st.value.ids))))
  }

  // ---------------------------------------------------------------------------------------------
  // What the position means.

  predicate Distinct(ids: seq<Id>) {
    forall i, j :: 0 <= i < j < |ids| ==> ids[i] != ids[j]
  }

  /** `seen` are the ids of the settlement that the host acknowledged: those before the position and
      those waiting in the set, and the event at the position is not among them. */
  ghost predicate Exact(st: Settlement, seen: set<Id>) {
    && Distinct(st.ids) && st.nextIndex <= |st.ids|
    && IdSet(st.ids[..st.nextIndex]) + st.acceptedIds == seen <= IdSet(st.ids)
  }

  ghost predicate Settled(st: Settlement, seen: set<Id>) {
    Exact(st, seen) && (st.nextIndex < |st.ids| ==> st.ids[st.nextIndex] !in st.acceptedIds)
  }

  lemma {:induction false} AdvancingIsExact(st: Settlement, seen: set<Id>)
    requires Exact(st, seen)
    ensures Settled(Advanced(st), seen)
    ensures Advanced(st).(nextIndex := 0, acceptedIds := {}) == st.(nextIndex := 0, acceptedIds := {})
    decreases |st.ids| - st.nextIndex
  {
    var n := st.nextIndex;
    assert n < |st.ids| ==> st.ids[n] !in IdSet(st.ids[..n]);
    if n < |st.ids| && st.ids[n] in st.acceptedIds {
      var next := st.(nextIndex := n + 1, acceptedIds := st.acceptedIds - {st.ids[n]});
      assert IdSet(st.ids[..n + 1]) == IdSet(st.ids[..n]) + {st.ids[n]};
      AdvancingIsExact(next, seen);
    }
  }

  /** Receipts move the position over exactly the accepted ids, in whatever order they arrive. */
  lemma RememberingIsExact(st: Settlement, seen: set<Id>, ids: set<Id>)
    requires Exact(st, seen)
    ensures Settled(Remembered(Some(st), ids).value, seen + ids * IdSet(st.ids))
    ensures Remembered(Some(st), ids).value.ids == st.ids
  {
    AdvancingIsExact(st.(acceptedIds := st.acceptedIds + ids * IdSet(st.ids)), seen + ids * IdSet(st.ids));
  }

  /** A settlement that stands before its terminal, with nothing acknowledged beyond, has had everything
      but the terminal acknowledged. */
  lemma OnlyTheTerminalIsLeft(st: Settlement, seen: set<Id>)
    requires Exact(st, seen) && st.nextIndex == |st.ids| - 1 && st.acceptedIds == {}
    ensures seen == IdSet(st.ids) - {st.ids[|st.ids| - 1]}
  {
    var n := st.nextIndex;
    assert st.ids == st.ids[..n] + [st.ids[n]];
    assert forall id :: id in IdSet(st.ids) <==> id in IdSet(st.ids[..n]) || id == st.ids[n];
  }
}
