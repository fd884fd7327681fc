/** The relations between Runs, as graphs in which every node has at most one successor. */
module RunGraph {
  import opened Wrappers

  type Id = string

  /** Each Run's id with the id it points at, if any; the target may be missing. */
  type Graph = map<Id, Option<Id>>

  function Successor(g: Graph, id: Id): Option<Id> {
    if id in g && g[id].Some? && g[id].value in g then g[id] else None
  }

  /** The node n steps on, or None when the chain ends before. */
  function Walk(g: Graph, id: Id, n: nat): Option<Id>
    decreases n
  {
    if n == 0 then Some(id)
    else if Successor(g, id).None? then None
    else Walk(g, Successor(g, id).value, n - 1)
  }

  lemma {:induction false} WalkConcat(g: Graph, id: Id, m: nat, n: nat)
    ensures Walk(g, id, m + n) == if Walk(g, id, m).Some? then Walk(g, Walk(g, id, m).value, n) else None
    decreases m
  {
    if m > 0 && Successor(g, id).Some? {
      WalkConcat(g, Successor(g, id).value, m - 1, n);
    }
  }

  ghost predicate OnCycle(g: Graph, id: Id) {
    exists n: nat :: n > 0 && Walk(g, id, n) == Some(id)
  }

  ghost predicate Acyclic(g: Graph) {
    forall id :: id in g ==> !OnCycle(g, id)
  }

  ghost predicate ChainEnds(g: Graph, id: Id) {
    exists n: nat :: Walk(g, id, n).None?
  }

  lemma {:induction false} RoundAndRound(g: Graph, id: Id, n: nat, m: nat)
    requires n > 0 && Walk(g, id, n) == Some(id)
    ensures Walk(g, id, m).Some?
    decreases m
  {
    if m >= n {
      WalkConcat(g, id, n, m - n);
      RoundAndRound(g, id, n, m - n);
    } else {
      WalkConcat(g, id, m, n - m);
    }
  }

  lemma EndingChainHasNoCycle(g: Graph, id: Id)
    requires ChainEnds(g, id)
    ensures !OnCycle(g, id)
  {
    var m: nat :| Walk(g, id, m).None?;
    forall n: nat | n > 0 ensures Walk(g, id, n) != Some(id) {
      if Walk(g, id, n) == Some(id) {
        RoundAndRound(g, id, n, m);
      }
    }
  }

  lemma ChainEndsBackwards(g: Graph, id: Id)
    requires Successor(g, id).Some? && ChainEnds(g, Successor(g, id).value)
    ensures ChainEnds(g, id)
  {
    var n: nat :| Walk(g, Successor(g, id).value, n).None?;
    assert Walk(g, id, n + 1).None?;
  }

  /** Every node met on the path leads to the current one. */
  ghost predicate LeadsTo(g: Graph, path: set<Id>, current: Id) {
    forall v :: v in path ==> exists n: nat :: n > 0 && Walk(g, v, n) == Some(current)
  }

  lemma LeadsOn(g: Graph, path: set<Id>, current: Id)
    requires LeadsTo(g, path, current) && Successor(g, current).Some?
    ensures LeadsTo(g, path + {current}, Successor(g, current).value)
  {
    var next := Successor(g, current).value;
    assert Walk(g, current, 1) == Walk(g, next, 0) == Some(next);
    forall v | v in path ensures exists n: nat :: n > 0 && Walk(g, v, n) == Some(next) {
      var n: nat :| n > 0 && Walk(g, v, n) == Some(current);
      WalkConcat(g, v, n, 1);
      assert Walk(g, v, n + 1) == Some(next);
    }
  }

  /** Without a cycle every chain ends: a node cannot be met twice, and there are finitely many. */
  lemma {:induction false} AcyclicChainsEnd(g: Graph, id: Id, visited: set<Id>)
    requires Acyclic(g) && id in g && visited <= g.Keys && LeadsTo(g, visited, id)
    ensures ChainEnds(g, id)
    decreases |g.Keys - visited|
  {
    var next := Successor(g, id);
    if next.None? {
      assert Walk(g, id, 1).None?;
    } else {
      if id in visited {
        assert OnCycle(g, id);
      }
      var more := visited + {id};
      assert g.Keys - more < g.Keys - visited by {
        assert id in g.Keys - visited && id !in g.Keys - more;
      }
      ShrinkingSet(g.Keys - more, g.Keys - visited);
      LeadsOn(g, visited, id);
      AcyclicChainsEnd(g, next.value, more);
      ChainEndsBackwards(g, id);
    }
  }

  lemma ShrinkingSet<T>(a: set<T>, b: set<T>)
    requires a < b
    ensures |a| < |b|
  {
    assert b == a + (b - a);
    assert |b| == |a| + |b - a|;
  }

  // ---------------------------------------------------------------------------------------------
  // The acyclicity check.

  ghost predicate AllEnd(g: Graph, ids: set<Id>) {
    forall id :: id in ids ==> ChainEnds(g, id)
  }

  lemma PathEnds(g: Graph, path: set<Id>, last: Id)
    requires LeadsTo(g, path, last) && ChainEnds(g, last)
    ensures AllEnd(g, path)
  {
    var m: nat :| Walk(g, last, m).None?;
    forall v | v in path ensures ChainEnds(g, v) {
      var n: nat :| n > 0 && Walk(g, v, n) == Some(last);
      WalkConcat(g, v, n, m);
      assert Walk(g, v, n + m).None?;
    }
  }

  /** Follows the chain from `root` until it ends or meets a node already known to end; false when
      it meets itself. */
  method FollowChain(g: Graph, root: Id, complete: set<Id>) returns (ok: bool, visiting: set<Id>)
    requires root in g && AllEnd(g, complete)
    ensures ok ==> AllEnd(g, visiting) && (root in complete || root in visiting)
    ensures !ok ==> !Acyclic(g)
  {
    visiting := {};
    var current := Some(root);
    ghost var last := root;
    while current.Some? && current.value !in complete
      invariant visiting <= g.Keys
      invariant current.Some? ==> current.value in g && LeadsTo(g, visiting, current.value)
      invariant current.None? ==> AllEnd(g, visiting)
      invariant root in visiting || current == Some(root)
      decreases |g.Keys - visiting|, current.Some?
    {
      if current.value in visiting {
        assert OnCycle(g, current.value);
        return false, visiting;
      }
      ghost var before := visiting;
      visiting := visiting + {current.value};
      ShrinkingSet(g.Keys - visiting, g.Keys - before) by {
        assert current.value in g.Keys - before && current.value !in g.Keys - visiting;
      }
      var next := Successor(g, current.value);
      if next.None? {
        assert Walk(g, current.value, 1).None?;
        PathEnds(g, before, current.value);
      } else {
        LeadsOn(g, before, current.value);
      }
      current := next;
    }
    if current.Some? {
      PathEnds(g, visiting, current.value);
    }
    ok := true;
  }

  /** Terminates, and accepts exactly the acyclic relations. */
  method AssertAcyclicRunRelation(order: seq<Id>, g: Graph) returns (ok: bool)
    requires forall id :: id in order <==> id in g
    ensures ok <==> Acyclic(g)
  {
    var complete: set<Id> := {};
    for i := 0 to |order|
      invariant AllEnd(g, complete)
      invariant forall j :: 0 <= j < i ==> order[j] in complete
    {
      var root := order[i];
      assert root in order;
      if root in complete {
        continue;
      }
      var followed, path := FollowChain(g, root, complete);
      if !followed {
        return false;
      }
      complete := complete + path;
    }
    forall id | id in g ensures !OnCycle(g, id) {
      assert id in order;
      EndingChainHasNoCycle(g, id);
    }
    ok := true;
  }

  // ---------------------------------------------------------------------------------------------
  // The removal closure.

  ghost predicate Reaches(g: Graph, id: Id, root: Id) {
    exists n: nat :: Walk(g, id, n) == Some(root)
  }

  /** The Run and everything below it. */
  ghost function Subtree(g: Graph, root: Id): set<Id> {
    set id | id in g && Reaches(g, id, root)
  }

  ghost predicate ClosedDownwards(g: Graph, ids: set<Id>) {
    forall id :: id in g && Successor(g, id).Some? && Successor(g, id).value in ids ==> id in ids
  }

  lemma {:induction false} ReachesInto(g: Graph, ids: set<Id>, id: Id, root: Id, n: nat)
    requires ClosedDownwards(g, ids) && root in ids && id in g && Walk(g, id, n) == Some(root)
    ensures id in ids
    decreases n
  {
    if n > 0 {
      ReachesInto(g, ids, Successor(g, id).value, root, n - 1);
    }
  }

  lemma ReachesBackwards(g: Graph, id: Id, root: Id)
    requires Successor(g, id).Some? && Reaches(g, Successor(g, id).value, root)
    ensures Reaches(g, id, root)
  {
    var n: nat :| Walk(g, Successor(g, id).value, n) == Some(root);
    assert Walk(g, id, n + 1) == Some(root);
  }

  /** Grows the set of removed Runs, pass after pass over the list, until nothing is added. */
  method RemovalClosure(order: seq<Id>, g: Graph, root: Id) returns (removed: set<Id>)
    requires root in g && forall id :: id in order <==> id in g
    ensures removed == Subtree(g, root)
  {
    removed := {root};
    assert Walk(g, root, 0) == Some(root);
    var added := true;
    while added
      invariant root in removed && removed <= Subtree(g, root)
      invariant !added ==> ClosedDownwards(g, removed)
      decreases |g.Keys - removed|, added
    {
      ghost var before := removed;
      added := false;
      for i := 0 to |order|
        invariant before <= removed <= Subtree(g, root)
        invariant added ==> before < removed
        invariant !added ==> removed == before
        invariant !added ==> forall j :: 0 <= j < i ==>
                    Successor(g, order[j]).Some? && Successor(g, order[j]).value in removed ==> order[j] in removed
      {
        var id := order[i];
        assert id in order;
        var parent := Successor(g, id);
        if parent.Some? && parent.value in removed && id !in removed {
          ReachesBackwards(g, id, root);
          removed := removed + {id};
          added := true;
        }
      }
      if added {
        assert g.Keys - removed < g.Keys - before by {
          var x :| x in removed && x !in before;
          assert x in Subtree(g, root);
        }
        ShrinkingSet(g.Keys - removed, g.Keys - before);
      } else {
        forall id | id in g && Successor(g, id).Some? && Successor(g, id).value in removed ensures id in removed {
          assert id in order;
        }
      }
    }
    forall id | id in Subtree(g, root) ensures id in removed {
      var n: nat :| Walk(g, id, n) == Some(root);
      ReachesInto(g, removed, id, root, n);
    }
  }
}
