/**
 Reachability in a finite undirected graph given by a vertex set and an edge relation:
 the independent definition that the depth-first search is held against.
 */
module Components {

  ghost predicate Symmetric<T(!new)>(vs: set<T>, edge: (T, T) -> bool) {
    forall a, b :: a in vs && b in vs && edge(a, b) ==> edge(b, a)
  }

  ghost predicate IsPath<T>(vs: set<T>, edge: (T, T) -> bool, p: seq<T>) {
    && p != []
    && (forall i :: 0 <= i < |p| ==> p[i] in vs)
    && (forall i :: 0 < i < |p| ==> edge(p[i - 1], p[i]))
  }

  ghost predicate Connected<T(!new)>(vs: set<T>, edge: (T, T) -> bool, a: T, b: T) {
    exists p :: IsPath(vs, edge, p) && p[0] == a && p[|p| - 1] == b
  }

  /** The connected component of `a`. */
  ghost function Class<T(!new)>(vs: set<T>, edge: (T, T) -> bool, a: T): set<T> {
    set b | b in vs && Connected(vs, edge, a, b)
  }

  ghost function Classes<T(!new)>(vs: set<T>, edge: (T, T) -> bool): set<set<T>> {
    set a | a in vs :: Class(vs, edge, a)
  }

  /** `s` is closed under the edges of the graph. */
  ghost predicate Closed<T(!new)>(vs: set<T>, edge: (T, T) -> bool, s: set<T>) {
    forall a, b :: a in s && a in vs && b in vs && edge(a, b) ==> b in s
  }

  lemma ConnectedToSelf<T(!new)>(vs: set<T>, edge: (T, T) -> bool, a: T)
    requires a in vs
    ensures Connected(vs, edge, a, a)
    ensures a in Class(vs, edge, a)
  {
    assert IsPath(vs, edge, [a]);
  }

  lemma ConnectedByEdge<T(!new)>(vs: set<T>, edge: (T, T) -> bool, a: T, b: T, c: T)
    requires Connected(vs, edge, a, b) && c in vs && edge(b, c)
    ensures Connected(vs, edge, a, c)
  {
    var p :| IsPath(vs, edge, p) && p[0] == a && p[|p| - 1] == b;
    var q := p + [c];
    assert IsPath(vs, edge, q) && q[0] == a && q[|q| - 1] == c;
  }

  lemma {:induction false} ConnectedTransitive<T(!new)>(vs: set<T>, edge: (T, T) -> bool, a: T, b: T, c: T)
    requires Connected(vs, edge, a, b) && Connected(vs, edge, b, c)
    ensures Connected(vs, edge, a, c)
  {
    var q :| IsPath(vs, edge, q) && q[0] == b && q[|q| - 1] == c;
    FollowPath(vs, edge, a, q);
  }

  lemma {:induction false} FollowPath<T(!new)>(vs: set<T>, edge: (T, T) -> bool, a: T, q: seq<T>)
    requires IsPath(vs, edge, q) && Connected(vs, edge, a, q[0])
    ensures Connected(vs, edge, a, q[|q| - 1])
    decreases |q|
  {
    if |q| > 1 {
      var q' := q[..|q| - 1];
      FollowPath(vs, edge, a, q');
      ConnectedByEdge(vs, edge, a, q'[|q'| - 1], q[|q| - 1]);
    }
  }

  lemma ConnectedSymmetric<T(!new)>(vs: set<T>, edge: (T, T) -> bool, a: T, b: T)
    requires Symmetric(vs, edge) && Connected(vs, edge, a, b)
    ensures Connected(vs, edge, b, a)
  {
    var p :| IsPath(vs, edge, p) && p[0] == a && p[|p| - 1] == b;
    var q := seq(|p|, i requires 0 <= i < |p| => p[|p| - 1 - i]);
    forall i | 0 < i < |q| ensures edge(q[i - 1], q[i]) {
      assert edge(p[|p| - 1 - i], p[|p| - i]);
    }
    assert IsPath(vs, edge, q) && q[0] == b && q[|q| - 1] == a;
  }

  /** No path leaves a closed set. */
  lemma ClosedContainsClass<T(!new)>(vs: set<T>, edge: (T, T) -> bool, s: set<T>, a: T)
    requires Closed(vs, edge, s) && a in s
    ensures Class(vs, edge, a) <= s
  {
    forall b | b in Class(vs, edge, a) ensures b in s {
      var p :| IsPath(vs, edge, p) && p[0] == a && p[|p| - 1] == b;
      PathStays(vs, edge, s, p);
    }
  }

  lemma {:induction false} PathStays<T(!new)>(vs: set<T>, edge: (T, T) -> bool, s: set<T>, p: seq<T>)
    requires Closed(vs, edge, s) && IsPath(vs, edge, p) && p[0] in s
    ensures p[|p| - 1] in s
    decreases |p|
  {
    if |p| > 1 {
      PathStays(vs, edge, s, p[..|p| - 1]);
      assert edge(p[|p| - 2], p[|p| - 1]);
    }
  }

  lemma ClassIsClosed<T(!new)>(vs: set<T>, edge: (T, T) -> bool, a: T)
    ensures Closed(vs, edge, Class(vs, edge, a))
  {
    forall b, c | b in Class(vs, edge, a) && c in vs && edge(b, c)
      ensures c in Class(vs, edge, a)
    {
      ConnectedByEdge(vs, edge, a, b, c);
    }
  }

  /** Connected vertices have the same class. */
  lemma ClassOfMember<T(!new)>(vs: set<T>, edge: (T, T) -> bool, a: T, b: T)
    requires Symmetric(vs, edge) && b in Class(vs, edge, a)
    ensures Class(vs, edge, b) == Class(vs, edge, a)
  {
    forall c | c in vs
      ensures Connected(vs, edge, a, c) <==> Connected(vs, edge, b, c)
    {
      ConnectedSymmetric(vs, edge, a, b);
      if Connected(vs, edge, a, c) {
        ConnectedTransitive(vs, edge, b, a, c);
      }
      if Connected(vs, edge, b, c) {
        ConnectedTransitive(vs, edge, a, b, c);
      }
    }
  }

  /** The classes partition the vertices. */
  lemma ClassesPartition<T(!new)>(vs: set<T>, edge: (T, T) -> bool)
    requires Symmetric(vs, edge)
    ensures forall a :: a in vs ==> a in Class(vs, edge, a) && Class(vs, edge, a) in Classes(vs, edge)
    ensures forall c, d :: c in Classes(vs, edge) && d in Classes(vs, edge) && c != d ==> c !! d
  {
    forall a | a in vs ensures a in Class(vs, edge, a) && Class(vs, edge, a) in Classes(vs, edge) {
      ConnectedToSelf(vs, edge, a);
    }
    forall c, d | c in Classes(vs, edge) && d in Classes(vs, edge) && c != d
      ensures c !! d
    {
      var a :| a in vs && c == Class(vs, edge, a);
      var b :| b in vs && d == Class(vs, edge, b);
      if x :| x in c && x in d {
        ClassOfMember(vs, edge, a, x);
        ClassOfMember(vs, edge, b, x);
        assert false;
      }
    }
  }

  /** More edges give larger classes. */
  lemma ClassMonotone<T(!new)>(vs: set<T>, fewer: (T, T) -> bool, more: (T, T) -> bool, a: T)
    requires forall x, y :: x in vs && y in vs && fewer(x, y) ==> more(x, y)
    ensures Class(vs, fewer, a) <= Class(vs, more, a)
  {
  }

  /**
   Leaving edges out keeps every class exactly when both ends of each missing edge stay in one
   class of the sparser graph.
   */
  lemma SameClassesIff<T(!new)>(vs: set<T>, fewer: (T, T) -> bool, more: (T, T) -> bool)
    requires Symmetric(vs, fewer)
    requires forall x, y :: x in vs && y in vs && fewer(x, y) ==> more(x, y)
    ensures (forall a :: a in vs ==> Class(vs, fewer, a) == Class(vs, more, a))
       <==> (forall x, y :: x in vs && y in vs && more(x, y) ==> y in Class(vs, fewer, x))
  {
    if forall a :: a in vs ==> Class(vs, fewer, a) == Class(vs, more, a) {
      forall x, y | x in vs && y in vs && more(x, y) ensures y in Class(vs, fewer, x) {
        ConnectedToSelf(vs, more, x);
        ConnectedByEdge(vs, more, x, x, y);
      }
    }
    if forall x, y :: x in vs && y in vs && more(x, y) ==> y in Class(vs, fewer, x) {
      forall a | a in vs ensures Class(vs, fewer, a) == Class(vs, more, a) {
        MissingEdgesInside(vs, fewer, more, a);
      }
    }
  }

  lemma MissingEdgesInside<T(!new)>(vs: set<T>, fewer: (T, T) -> bool, more: (T, T) -> bool, a: T)
    requires a in vs
    requires forall x, y :: x in vs && y in vs && fewer(x, y) ==> more(x, y)
    requires forall x, y :: x in vs && y in vs && more(x, y) ==> y in Class(vs, fewer, x)
    ensures Class(vs, fewer, a) == Class(vs, more, a)
  {
    var c := Class(vs, fewer, a);
    forall x, y | x in c && x in vs && y in vs && more(x, y) ensures y in c {
      assert y in Class(vs, fewer, x);
      ConnectedTransitive(vs, fewer, a, x, y);
    }
    ConnectedToSelf(vs, fewer, a);
    ClosedContainsClass(vs, more, c, a);
    ClassMonotone(vs, fewer, more, a);
  }

  // ---- Clusters ---------------------------------------------------------------------------------

  /** Every two members are joined by an edge, and no edge leaves. */
  ghost predicate Cluster<T(!new)>(vs: set<T>, edge: (T, T) -> bool, part: set<T>) {
    && part <= vs && part != {} && Closed(vs, edge, part)
    && forall a, b :: a in part && b in part && a != b ==> edge(a, b)
  }

  lemma ClusterIsClass<T(!new)>(vs: set<T>, edge: (T, T) -> bool, part: set<T>, a: T)
    requires Cluster(vs, edge, part) && a in part
    ensures Class(vs, edge, a) == part
  {
    ClosedContainsClass(vs, edge, part, a);
    ConnectedToSelf(vs, edge, a);
    forall b | b in part ensures b in Class(vs, edge, a) {
      if b != a {
        ConnectedByEdge(vs, edge, a, a, b);
      }
    }
  }

  /** Where the vertices are two clusters, these are the classes. */
  lemma TwoClusters<T(!new)>(vs: set<T>, edge: (T, T) -> bool, p: set<T>, q: set<T>)
    requires vs == p + q && Cluster(vs, edge, p) && Cluster(vs, edge, q)
    ensures Classes(vs, edge) == {p, q}
  {
    ClusterIsAmong(vs, edge, p);
    ClusterIsAmong(vs, edge, q);
    forall c | c in Classes(vs, edge) ensures c in {p, q} {
      var a :| a in vs && c == Class(vs, edge, a);
      ClusterIsClass(vs, edge, if a in p then p else q, a);
    }
  }

  lemma ClusterIsAmong<T(!new)>(vs: set<T>, edge: (T, T) -> bool, part: set<T>)
    requires Cluster(vs, edge, part)
    ensures part in Classes(vs, edge)
  {
    var a :| a in part;
    ClusterIsClass(vs, edge, part, a);
  }
}
