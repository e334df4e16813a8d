/**
 * The engine's `extendMap`: for each template class, the set of template classes that
 * extend it. `invalidate(parent)` walks it recursively; the walk only ends when the graph
 * has no cycle, which the model states as the existence of a rank that every edge lowers.
 */
module ExtendGraph {

  /** A template class, identified by its generated class name. */
  type ClassRef = string

  /** Parent to the set of its direct children. */
  type ExtendMap = map<ClassRef, set<ClassRef>>

  /** `addExtendRelationship(parent, child)` outside prod mode: create the set if absent, add the child. */
  function AddEdge(g: ExtendMap, parent: ClassRef, child: ClassRef): (g': ExtendMap)
    ensures g'.Keys == g.Keys + {parent}
    ensures g'[parent] == (if parent in g then g[parent] else {}) + {child}
    ensures forall p :: p in g && p != parent ==> g'[p] == g[p]
  {
    g[parent := (if parent in g then g[parent] else {}) + {child}]
  }

  /** Every edge goes from a higher to a strictly lower rank, so the graph has no cycle. */
  ghost predicate Ranked(g: ExtendMap, rank: map<ClassRef, nat>) {
    forall p | p in g :: p in rank && forall c | c in g[p] :: c in rank && rank[c] < rank[p]
  }

  /** `d` is reachable from `p` by one or more edges: `d` is a descendant of `p`. */
  ghost predicate Reaches(g: ExtendMap, rank: map<ClassRef, nat>, p: ClassRef, d: ClassRef)
    requires Ranked(g, rank)
    decreases if p in rank then rank[p] else 0
  {
    p in g && exists c :: c in g[p] && (c == d || Reaches(g, rank, c, d))
  }

  /** A direct child and all of its descendants are descendants of the parent. */
  lemma ChildReaches(g: ExtendMap, rank: map<ClassRef, nat>, p: ClassRef, c: ClassRef)
    requires Ranked(g, rank) && p in g && c in g[p]
    ensures Reaches(g, rank, p, c)
    ensures forall d :: Reaches(g, rank, c, d) ==> Reaches(g, rank, p, d)
  {
  }

  /** A descendant has a strictly lower rank than its ancestor. */
  lemma {:induction false} ReachesRankBelow(g: ExtendMap, rank: map<ClassRef, nat>, p: ClassRef, d: ClassRef)
    requires Ranked(g, rank) && Reaches(g, rank, p, d)
    ensures p in rank && d in rank && rank[d] < rank[p]
    decreases if p in rank then rank[p] else 0
  {
    var c :| c in g[p] && (c == d || Reaches(g, rank, c, d));
    if c != d {
      ReachesRankBelow(g, rank, c, d);
    }
  }

  /** No class is its own descendant, so `invalidate(p)` never resets `p` itself. */
  lemma NotOwnDescendant(g: ExtendMap, rank: map<ClassRef, nat>, p: ClassRef)
    requires Ranked(g, rank)
    ensures !Reaches(g, rank, p, p)
  {
    if Reaches(g, rank, p, p) {
      ReachesRankBelow(g, rank, p, p);
    }
  }

  /** A descendant of a descendant is a descendant. */
  lemma {:induction false} ReachesTransitive(g: ExtendMap, rank: map<ClassRef, nat>, p: ClassRef, d: ClassRef, e: ClassRef)
    requires Ranked(g, rank) && Reaches(g, rank, p, d) && Reaches(g, rank, d, e)
    ensures Reaches(g, rank, p, e)
    decreases if p in rank then rank[p] else 0
  {
    var c :| c in g[p] && (c == d || Reaches(g, rank, c, d));
    if c != d {
      ReachesRankBelow(g, rank, p, c);
      ReachesTransitive(g, rank, c, d, e);
    }
    ChildReaches(g, rank, p, c);
  }

  /** Adding an edge never removes a dependency: every descendant stays one. */
  lemma {:induction false} AddEdgeKeepsDescendants(g: ExtendMap, rank: map<ClassRef, nat>, parent: ClassRef, child: ClassRef, p: ClassRef, d: ClassRef)
    requires Ranked(g, rank) && Ranked(AddEdge(g, parent, child), rank)
    requires Reaches(g, rank, p, d)
    ensures Reaches(AddEdge(g, parent, child), rank, p, d)
    decreases if p in rank then rank[p] else 0
  {
    var g' := AddEdge(g, parent, child);
    var c :| c in g[p] && (c == d || Reaches(g, rank, c, d));
    assert c in g'[p];
    if c != d {
      AddEdgeKeepsDescendants(g, rank, parent, child, c, d);
    }
    ChildReaches(g', rank, p, c);
  }

  /** After the edge is added, the child and everything below it are descendants of the parent. */
  lemma AddEdgeMakesDescendant(g: ExtendMap, rank: map<ClassRef, nat>, parent: ClassRef, child: ClassRef)
    requires Ranked(AddEdge(g, parent, child), rank)
    ensures Reaches(AddEdge(g, parent, child), rank, parent, child)
    ensures forall d :: Reaches(AddEdge(g, parent, child), rank, child, d) ==> Reaches(AddEdge(g, parent, child), rank, parent, d)
  {
    ChildReaches(AddEdge(g, parent, child), rank, parent, child);
  }

  /**
   * The reset log from position `from` on is in post-order: every class reset there was
   * preceded, in the same stretch of the log, by resets of all of its own descendants.
   */
  ghost predicate PostOrder(g: ExtendMap, rank: map<ClassRef, nat>, log: seq<ClassRef>, from: nat)
    requires Ranked(g, rank)
  {
    from <= |log| &&
    forall k, d | from <= k < |log| && Reaches(g, rank, log[k], d) :: d in log[from..k]
  }

  /** Two post-ordered stretches of the log, one after the other, form one. */
  lemma PostOrderJoin(g: ExtendMap, rank: map<ClassRef, nat>, log: seq<ClassRef>, from: nat, mid: nat)
    requires Ranked(g, rank) && from <= mid <= |log|
    requires PostOrder(g, rank, log[..mid], from) && PostOrder(g, rank, log, mid)
    ensures PostOrder(g, rank, log, from)
  {
    forall k, d | from <= k < |log| && Reaches(g, rank, log[k], d) ensures d in log[from..k] {
      if k < mid {
        assert log[..mid][k] == log[k];
        assert log[..mid][from..k] == log[from..k];
      } else {
        assert d in log[mid..k];
        assert log[mid..k] == log[from..k][mid - from..];
      }
    }
  }

  /** Appending a class whose descendants all occur in the stretch keeps it post-ordered. */
  lemma PostOrderSnoc(g: ExtendMap, rank: map<ClassRef, nat>, log: seq<ClassRef>, from: nat, c: ClassRef)
    requires Ranked(g, rank) && PostOrder(g, rank, log, from)
    requires forall d | Reaches(g, rank, c, d) :: d in log[from..]
    ensures PostOrder(g, rank, log + [c], from)
  {
    var log' := log + [c];
    forall k, d | from <= k < |log'| && Reaches(g, rank, log'[k], d) ensures d in log'[from..k] {
      if k < |log| {
        assert log'[k] == log[k];
        assert log'[from..k] == log[from..k];
      } else {
        assert log'[from..k] == log[from..];
      }
    }
  }

  /**
   * The state of `invalidate(parent)` part way through its loop, after the children in `done`
   * were handled: the log from `start` on holds only descendants of `parent`, holds every
   * handled child and all of its descendants, and is in post-order.
   */
  ghost predicate WalkState(g: ExtendMap, rank: map<ClassRef, nat>, parent: ClassRef, done: set<ClassRef>,
                            log: seq<ClassRef>, start: nat)
    requires Ranked(g, rank)
  {
    && start <= |log|
    && (forall d | d in log[start..] :: Reaches(g, rank, parent, d))
    && (forall c, d | c in done && (d == c || Reaches(g, rank, c, d)) :: d in log[start..])
    && PostOrder(g, rank, log, start)
  }

  /** Before the loop nothing is handled and nothing is logged. */
  lemma WalkStart(g: ExtendMap, rank: map<ClassRef, nat>, parent: ClassRef, log: seq<ClassRef>)
    requires Ranked(g, rank)
    ensures WalkState(g, rank, parent, {}, log, |log|)
  {
  }

  /**
   * One turn of the loop: the recursive call logs exactly the descendants of `child`, in
   * post-order, and then `child` itself is reset.
   */
  lemma WalkStep(g: ExtendMap, rank: map<ClassRef, nat>, parent: ClassRef, done: set<ClassRef>, child: ClassRef,
                 before: seq<ClassRef>, after: seq<ClassRef>, start: nat)
    requires Ranked(g, rank) && parent in g && child in g[parent]
    requires WalkState(g, rank, parent, done, before, start)
    requires |before| <= |after| && after[..|before|] == before
    requires forall d :: d in after[|before|..] <==> Reaches(g, rank, child, d)
    requires PostOrder(g, rank, after, |before|)
    ensures WalkState(g, rank, parent, done + {child}, after + [child], start)
  {
    var mid := |before|;
    var log := after + [child];
    ChildReaches(g, rank, parent, child);
    assert after[start..] == before[start..] + after[mid..] by {
      assert after == before + after[mid..];
    }
    assert log[start..] == after[start..] + [child];
    assert after[..mid] == before;
    PostOrderJoin(g, rank, after, start, mid);
    forall d | Reaches(g, rank, child, d) ensures d in after[start..] {
      assert d in after[mid..];
    }
    PostOrderSnoc(g, rank, after, start, child);
    forall c, d | c in done + {child} && (d == c || Reaches(g, rank, c, d)) ensures d in log[start..] {
      if c != child {
        assert d in before[start..];
      } else if d != c {
        assert d in after[mid..];
      }
    }
  }

  /** When every child is handled, the log from `start` on holds exactly the descendants. */
  lemma WalkDone(g: ExtendMap, rank: map<ClassRef, nat>, parent: ClassRef, log: seq<ClassRef>, start: nat)
    requires Ranked(g, rank) && parent in g
    requires WalkState(g, rank, parent, g[parent], log, start)
    ensures forall d :: d in log[start..] <==> Reaches(g, rank, parent, d)
  {
    forall d | Reaches(g, rank, parent, d) ensures d in log[start..] {
      var c :| c in g[parent] && (c == d || Reaches(g, rank, c, d));
    }
  }

  /**
   * The invalidation cascade of a chain: when B extends A and C extends B, invalidating A
   * reaches both B and C, and invalidating C reaches nothing.
   */
  lemma ChainCascade(a: ClassRef, b: ClassRef, c: ClassRef)
    requires a != b && b != c && a != c
    ensures var g := map[a := {b}, b := {c}];
            var rank := map[a := 2, b := 1, c := 0];
            Ranked(g, rank)
            && (forall x :: Reaches(g, rank, a, x) <==> x == b || x == c)
            && (forall x :: Reaches(g, rank, b, x) <==> x == c)
            && (forall x :: !Reaches(g, rank, c, x))
  {
    var g := map[a := {b}, b := {c}];
    var rank := map[a := 2, b := 1, c := 0];
    assert Ranked(g, rank);
    forall x ensures !Reaches(g, rank, c, x) { }
    forall x ensures Reaches(g, rank, b, x) <==> x == c {
      assert g[b] == {c};
    }
    forall x ensures Reaches(g, rank, a, x) <==> x == b || x == c {
      assert g[a] == {b};
      if x == c { ChildReaches(g, rank, a, b); }
    }
  }
}
