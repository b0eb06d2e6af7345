/**
 Component search and group gates (backend/app/services/correlation_engine.py, lines 40-44 and
 70-105).
 */
module Groups {
  import opened Base
  import opened Config
  import opened Components
  import opened Correlation

  // ---- Cohesion -----------------------------------------------------------------------------

  function Sum(s: seq<int>): int {
    if s == [] then 0 else s[0] + Sum(s[1..])
  }

  lemma {:induction false} SumAppend(s: seq<int>, t: seq<int>)
    ensures Sum(s + t) == Sum(s) + Sum(t)
  {
    if s == [] {
      assert s + t == t;
    } else {
      assert (s + t)[1..] == s[1..] + t;
      SumAppend(s[1..], t);
    }
  }

  /** The scores of `a` against each later member. */
  function RowScores(cfg: Settings, a: Event, rest: seq<Event>): seq<int> {
    if rest == [] then [] else [ConnectionScore(cfg, a, rest[0])] + RowScores(cfg, a, rest[1..])
  }

  /** The scores of all pairs: each event with every one behind it. */
  function PairScores(cfg: Settings, group: seq<Event>): seq<int> {
    if group == [] then [] else RowScores(cfg, group[0], group[1..]) + PairScores(cfg, group[1..])
  }

  function GroupCohesion(cfg: Settings, group: seq<Event>): real {
    var scores := PairScores(cfg, group);
    if scores == [] then 0.0 else Sum(scores) as real / |scores| as real
  }

  ghost function RowTotal(cfg: Settings, a: Event, rest: seq<Event>): int {
    Sum(RowScores(cfg, a, rest))
  }

  ghost function PairTotal(cfg: Settings, group: seq<Event>): int {
    Sum(PairScores(cfg, group))
  }

  lemma RowTotalCons(cfg: Settings, a: Event, b: Event, rest: seq<Event>)
    ensures RowTotal(cfg, a, [b] + rest) == ConnectionScore(cfg, a, b) + RowTotal(cfg, a, rest)
  {
  }

  lemma PairTotalCons(cfg: Settings, a: Event, rest: seq<Event>)
    ensures PairTotal(cfg, [a] + rest) == RowTotal(cfg, a, rest) + PairTotal(cfg, rest)
  {
    assert ([a] + rest)[1..] == rest;
    SumAppend(RowScores(cfg, a, rest), PairScores(cfg, rest));
  }

  lemma {:induction false} RowTotalMove(cfg: Settings, a: Event, s: seq<Event>, b: Event, t: seq<Event>)
    ensures RowTotal(cfg, a, s + [b] + t) == ConnectionScore(cfg, a, b) + RowTotal(cfg, a, s + t)
  {
    if s == [] {
      assert s + [b] + t == [b] + t && s + t == t;
      RowTotalCons(cfg, a, b, t);
    } else {
      assert s + [b] + t == [s[0]] + (s[1..] + [b] + t) && s + t == [s[0]] + (s[1..] + t);
      RowTotalCons(cfg, a, s[0], s[1..] + [b] + t);
      RowTotalCons(cfg, a, s[0], s[1..] + t);
      RowTotalMove(cfg, a, s[1..], b, t);
    }
  }

  /** Moving a member to the front changes no pair, because the score is symmetric. */
  lemma {:induction false} PairTotalMove(cfg: Settings, s: seq<Event>, b: Event, t: seq<Event>)
    ensures PairTotal(cfg, s + [b] + t) == RowTotal(cfg, b, s + t) + PairTotal(cfg, s + t)
  {
    if s == [] {
      assert s + [b] + t == [b] + t && s + t == t;
      PairTotalCons(cfg, b, t);
    } else {
      var a, s' := s[0], s[1..];
      assert s + [b] + t == [a] + (s' + [b] + t) && s + t == [a] + (s' + t);
      PairTotalCons(cfg, a, s' + [b] + t);
      PairTotalCons(cfg, a, s' + t);
      PairTotalMove(cfg, s', b, t);
      RowTotalMove(cfg, a, s', b, t);
      RowTotalCons(cfg, b, a, s' + t);
      ConnectionScoreSymmetric(cfg, a, b);
    }
  }

  lemma {:induction false} RowTotalPermuted(cfg: Settings, a: Event, s: seq<Event>, t: seq<Event>)
    requires multiset(s) == multiset(t)
    ensures RowTotal(cfg, a, s) == RowTotal(cfg, a, t)
  {
    if s == [] {
      assert t == [] by { assert |multiset(t)| == 0; }
    } else {
      var t1, t2 := SplitAt(s, t);
      assert s == [s[0]] + s[1..];
      RowTotalCons(cfg, a, s[0], s[1..]);
      RowTotalMove(cfg, a, t1, s[0], t2);
      RowTotalPermuted(cfg, a, s[1..], t1 + t2);
    }
  }

  lemma {:induction false} PairTotalPermuted(cfg: Settings, s: seq<Event>, t: seq<Event>)
    requires multiset(s) == multiset(t)
    ensures PairTotal(cfg, s) == PairTotal(cfg, t)
  {
    if s == [] {
      assert t == [] by { assert |multiset(t)| == 0; }
    } else {
      var t1, t2 := SplitAt(s, t);
      assert s == [s[0]] + s[1..];
      PairTotalCons(cfg, s[0], s[1..]);
      PairTotalMove(cfg, t1, s[0], t2);
      PairTotalPermuted(cfg, s[1..], t1 + t2);
      RowTotalPermuted(cfg, s[0], s[1..], t1 + t2);
    }
  }

  /** Finds the first member of `s` in a permutation `t` of it. */
  lemma SplitAt<T>(s: seq<T>, t: seq<T>) returns (t1: seq<T>, t2: seq<T>)
    requires s != [] && multiset(s) == multiset(t)
    ensures t == t1 + [s[0]] + t2 && multiset(s[1..]) == multiset(t1 + t2)
  {
    assert s[0] in multiset(t);
    var k :| 0 <= k < |t| && t[k] == s[0];
    t1, t2 := t[..k], t[k + 1..];
    assert t == t1 + [s[0]] + t2;
    assert s == [s[0]] + s[1..];
    assert multiset(s[1..]) == multiset(s) - multiset{s[0]};
  }

  lemma {:induction false} RowScoresLength(cfg: Settings, a: Event, rest: seq<Event>)
    ensures |RowScores(cfg, a, rest)| == |rest|
  {
    if rest != [] { RowScoresLength(cfg, a, rest[1..]); }
  }

  /** A group of n events has n(n-1)/2 pairs in the denominator, scored zero or not. */
  lemma {:induction false} PairScoresLength(cfg: Settings, group: seq<Event>)
    ensures 2 * |PairScores(cfg, group)| == |group| * (|group| - 1)
  {
    if group == [] {
    } else {
      RowScoresLength(cfg, group[0], group[1..]);
      PairScoresLength(cfg, group[1..]);
    }
  }

  /** Cohesion belongs to the set of events: the order of the group does not matter. */
  lemma CohesionPermuted(cfg: Settings, s: seq<Event>, t: seq<Event>)
    requires multiset(s) == multiset(t)
    ensures GroupCohesion(cfg, s) == GroupCohesion(cfg, t)
  {
    PairTotalPermuted(cfg, s, t);
    assert |s| == |multiset(s)| == |multiset(t)| == |t|;
    PairScoresLength(cfg, s);
    PairScoresLength(cfg, t);
  }

  // ---- Gates --------------------------------------------------------------------------------

  /** The three conditions under which a time-sorted component becomes a group. */
  predicate Gate(cfg: Settings, group: seq<Event>) {
    && |group| >= 2
    && group[|group| - 1].timestamp - group[0].timestamp <= cfg.maxIncidentSpanMinutes * MINUTE
    && GroupCohesion(cfg, group) >= cfg.minGroupCohesion
  }

  /** `s` lists the events of `c`, each once, in time order. */
  ghost predicate Arrangement(s: seq<Event>, c: set<Event>) {
    multiset(s) == multiset(c) && Sorted(s, (e: Event) => e.timestamp)
  }

  ghost predicate Qualifies(cfg: Settings, c: set<Event>) {
    exists s :: Arrangement(s, c) && Gate(cfg, s)
  }

  /** Whichever way ties in time are broken, the gates decide alike. */
  lemma GateOfArrangement(cfg: Settings, s: seq<Event>, c: set<Event>)
    requires Arrangement(s, c)
    ensures Gate(cfg, s) <==> Qualifies(cfg, c)
  {
    if Qualifies(cfg, c) {
      var t :| Arrangement(t, c) && Gate(cfg, t);
      CohesionPermuted(cfg, s, t);
      assert |s| == |multiset(s)| == |multiset(t)| == |t|;
      SortedEnds(s, t);
    }
  }

  lemma SortedEnds(s: seq<Event>, t: seq<Event>)
    requires s != [] && multiset(s) == multiset(t)
    requires Sorted(s, (e: Event) => e.timestamp) && Sorted(t, (e: Event) => e.timestamp)
    ensures t != [] && s[0].timestamp == t[0].timestamp
    ensures s[|s| - 1].timestamp == t[|t| - 1].timestamp
  {
    assert |s| == |multiset(s)| == |multiset(t)| == |t|;
    assert s[0] in multiset(t) && t[0] in multiset(s);
    assert s[|s| - 1] in multiset(t) && t[|t| - 1] in multiset(s);
    var key := (e: Event) => e.timestamp;
    assert key(s[0]) == key(t[0]) && key(s[|s| - 1]) == key(t[|t| - 1]);
  }

  /** The groups as sets: the classes of the accepted-edge graph that pass the gates. */
  ghost function GroupSets(cfg: Settings, vs: set<Event>, edge: (Event, Event) -> bool): set<set<Event>> {
    set c | c in Classes(vs, edge) && Qualifies(cfg, c)
  }

  // ---- The search ---------------------------------------------------------------------------

  function ById(events: seq<Event>): (byId: map<string, Event>)
    requires UniqueIds(events)
    ensures forall e :: e in events ==> e.id in byId && byId[e.id] == e
    ensures forall id :: id in byId ==> byId[id] in events && byId[id].id == id
  {
    map e | e in events :: e.id := e
  }

  /** An id without an entry has no neighbours. */
  function Neighbours(adjacency: map<string, set<string>>, id: string): set<string> {
    if id in adjacency then adjacency[id] else {}
  }

  /** The adjacency sets say exactly which pairs of events have an edge. */
  ghost predicate Represents(adjacency: map<string, set<string>>, byId: map<string, Event>,
                             edge: (Event, Event) -> bool) {
    && (forall id, other :: id in byId && other in Neighbours(adjacency, id) ==> other in byId)
    && (forall id, other :: id in byId && other in byId ==>
          (other in Neighbours(adjacency, id) <==> edge(byId[id], byId[other])))
  }

  lemma PrunedEdgeSymmetric(cfg: Settings, vs: set<Event>)
    ensures Symmetric(vs, PrunedEdge(cfg))
  {
  }

  ghost predicate LinkFor(cfg: Settings, byId: map<string, Event>, p: (string, string)) {
    && p.0 in byId && p.1 in byId
    && ConnectionScore(cfg, byId[p.0], byId[p.1]) >= cfg.correlationMinScore
  }

  /** The edge loop: adjacency holds each accepted candidate pair in both directions. */
  method Adjacency(cfg: Settings, byId: map<string, Event>, pairs: set<(string, string)>)
    returns (adjacency: map<string, set<string>>)
    requires forall p :: p in pairs ==> p.0 in byId && p.1 in byId
    ensures forall id, other :: other in Neighbours(adjacency, id) <==>
              || ((id, other) in pairs && LinkFor(cfg, byId, (id, other)))
              || ((other, id) in pairs && LinkFor(cfg, byId, (other, id)))
  {
    adjacency := map[];
    var rest := pairs;
    while rest != {}
      invariant rest <= pairs
      invariant forall id, other :: other in Neighbours(adjacency, id) <==>
                  || ((id, other) in pairs - rest && LinkFor(cfg, byId, (id, other)))
                  || ((other, id) in pairs - rest && LinkFor(cfg, byId, (other, id)))
    {
      var p :| p in rest;
      if ConnectionScore(cfg, byId[p.0], byId[p.1]) >= cfg.correlationMinScore {
        LinkAdded(adjacency, p.0, p.1);
        adjacency := adjacency[p.0 := Neighbours(adjacency, p.0) + {p.1}];
        adjacency := adjacency[p.1 := Neighbours(adjacency, p.1) + {p.0}];
      }
      rest := rest - {p};
    }
  }

  /** Recording a link in both directions adds exactly those two neighbours. */
  lemma LinkAdded(adjacency: map<string, set<string>>, a: string, b: string)
    ensures var one := adjacency[a := Neighbours(adjacency, a) + {b}];
            var both := one[b := Neighbours(one, b) + {a}];
            forall id, other :: other in Neighbours(both, id) <==>
              other in Neighbours(adjacency, id) || (id == a && other == b) || (id == b && other == a)
  {
  }

  /** The adjacency built from the candidate pairs represents the pruned edge relation. */
  lemma AdjacencyRepresents(cfg: Settings, events: seq<Event>, pairs: set<(string, string)>,
                            adjacency: map<string, set<string>>)
    requires UniqueIds(events)
    requires forall p :: p in pairs <==> PairOfAnchored(events, p)
    requires forall id, other :: other in Neighbours(adjacency, id) <==>
               || ((id, other) in pairs && LinkFor(cfg, ById(events), (id, other)))
               || ((other, id) in pairs && LinkFor(cfg, ById(events), (other, id)))
    ensures Represents(adjacency, ById(events), PrunedEdge(cfg))
  {
    var byId := ById(events);
    forall id, other | id in byId && other in byId
      ensures other in Neighbours(adjacency, id) <==> PrunedEdge(cfg)(byId[id], byId[other])
    {
      PairOfTwo(events, id, other);
      ConnectionScoreSymmetric(cfg, byId[id], byId[other]);
    }
  }

  lemma PairOfTwo(events: seq<Event>, id: string, other: string)
    requires UniqueIds(events) && id in ById(events) && other in ById(events)
    ensures PairOfAnchored(events, (id, other)) || PairOfAnchored(events, (other, id))
       <==> id != other && Anchored(ById(events)[id], ById(events)[other])
  {
  }

  lemma PairMembers(events: seq<Event>, p: (string, string))
    requires UniqueIds(events) && PairOfAnchored(events, p)
    ensures p.0 != p.1 && p.0 in ById(events) && p.1 in ById(events)
    ensures Anchored(ById(events)[p.0], ById(events)[p.1])
  {
  }

  lemma ElementsSnoc<T>(s: seq<T>, x: T)
    ensures Elements(s + [x]) == Elements(s) + {x}
  {
  }

  /** Iterates over a set in some unspecified order. */
  method Listed(s: set<string>) returns (r: seq<string>)
    ensures Elements(r) == s
  {
    r := [];
    var rest := s;
    while rest != {}
      invariant rest <= s && Elements(r) == s - rest
    {
      var x :| x in rest;
      ElementsSnoc(r, x);
      r, rest := r + [x], rest - {x};
    }
  }

  ghost function Ids(events: set<Event>): set<string> {
    set e | e in events :: e.id
  }

  /** A finished part of the search: no edge leads from a visited event to an unvisited one. */
  ghost predicate ClosedIds(byId: map<string, Event>, edge: (Event, Event) -> bool, visited: set<string>) {
    forall id, other :: id in byId && other in byId && id in visited && edge(byId[id], byId[other])
      ==> other in visited
  }

  /** The component collected so far: new events of the search, each once. */
  ghost predicate Collected(byId: map<string, Event>, done: set<string>, component: seq<Event>, visited: set<string>) {
    && visited == done + Ids(Elements(component)) && visited <= byId.Keys
    && (forall e :: e in component ==> e.id in byId && byId[e.id] == e && e.id !in done)
    && multiset(component) == multiset(Elements(component))
  }

  /** Every event seen so far was reached from the root, and none of its edges is forgotten. */
  ghost predicate Exploring(byId: map<string, Event>, edge: (Event, Event) -> bool, root: Event,
                            component: seq<Event>, visited: set<string>, stack: seq<string>) {
    && (forall e :: e in component ==> Connected(byId.Values, edge, root, e))
    && (forall id :: id in stack ==> id in byId && Connected(byId.Values, edge, root, byId[id]))
    && (forall e, other :: e in component && other in byId && edge(e, byId[other])
          ==> other in visited || other in stack)
    && (root.id in visited || root.id in stack)
  }

  /**
   The stack loop for one root. The stack may hold an id several times; the visited set makes the
   later copies harmless. What is collected is exactly the root's class.
   */
  method Explore(root: Event, byId: map<string, Event>, adjacency: map<string, set<string>>,
                 done: set<string>, ghost edge: (Event, Event) -> bool)
    returns (component: seq<Event>, visited: set<string>)
    requires forall id :: id in byId ==> byId[id].id == id
    requires Represents(adjacency, byId, edge) && Symmetric(byId.Values, edge)
    requires root.id in byId && byId[root.id] == root && root.id !in done
    requires done <= byId.Keys && ClosedIds(byId, edge, done)
    ensures Elements(component) == Class(byId.Values, edge, root)
    ensures multiset(component) == multiset(Elements(component))
    ensures visited == done + Ids(Elements(component))
  {
    component, visited := [], done;
    var stack := [root.id];
    ConnectedToSelf(byId.Values, edge, root);
    while stack != []
      invariant Collected(byId, done, component, visited)
      invariant Exploring(byId, edge, root, component, visited, stack)
      decreases byId.Keys - visited, |stack|
    {
      var id := stack[|stack| - 1];
      assert stack == stack[..|stack| - 1] + [id];
      stack := stack[..|stack| - 1];
      if id !in visited {
        var more := Listed(Neighbours(adjacency, id) - (visited + {id}));
        VisitKeepsExploring(byId, adjacency, edge, root, component, visited, stack, id, more);
        VisitCollects(byId, done, component, visited, id);
        component, visited, stack := component + [byId[id]], visited + {id}, stack + more;
      } else {
        SkipKeepsExploring(byId, edge, root, component, visited, stack, id);
      }
    }
    ExploredAll(root, byId, done, edge, component, visited);
  }

  lemma SkipKeepsExploring(byId: map<string, Event>, edge: (Event, Event) -> bool, root: Event,
                           component: seq<Event>, visited: set<string>, stack: seq<string>, id: string)
    requires Exploring(byId, edge, root, component, visited, stack + [id]) && id in visited
    ensures Exploring(byId, edge, root, component, visited, stack)
  {
  }

  lemma VisitCollects(byId: map<string, Event>, done: set<string>, component: seq<Event>,
                      visited: set<string>, id: string)
    requires forall i :: i in byId ==> byId[i].id == i
    requires Collected(byId, done, component, visited)
    requires id in byId && id !in visited
    ensures Collected(byId, done, component + [byId[id]], visited + {id})
  {
  }

  lemma VisitKeepsExploring(byId: map<string, Event>, adjacency: map<string, set<string>>,
                            edge: (Event, Event) -> bool, root: Event, component: seq<Event>,
                            visited: set<string>, stack: seq<string>, id: string, more: seq<string>)
    requires Represents(adjacency, byId, edge) && forall i :: i in byId ==> byId[i].id == i
    requires Exploring(byId, edge, root, component, visited, stack + [id])
    requires Elements(more) == Neighbours(adjacency, id) - (visited + {id})
    ensures id in byId
    ensures Exploring(byId, edge, root, component + [byId[id]], visited + {id}, stack + more)
  {
    assert id in stack + [id];
    var e := byId[id];
    forall other | other in more ensures other in byId && Connected(byId.Values, edge, root, byId[other]) {
      assert other in Elements(more);
      ConnectedByEdge(byId.Values, edge, root, e, byId[other]);
    }
    forall other | other in byId && edge(e, byId[other])
      ensures other in visited + {id} || other in more
    {
      assert other in Neighbours(adjacency, id);
      assert other in visited + {id} || other in Elements(more);
    }
    forall x, other | x in component + [e] && other in byId && edge(x, byId[other])
      ensures other in visited + {id} || other in stack + more
    {
      if x != e {
        assert x in component;
        assert other in visited || other in stack + [id];
      }
    }
  }

  lemma ExploredAll(root: Event, byId: map<string, Event>, done: set<string>,
                    edge: (Event, Event) -> bool, component: seq<Event>, visited: set<string>)
    requires forall id :: id in byId ==> byId[id].id == id
    requires Symmetric(byId.Values, edge)
    requires root.id in byId && byId[root.id] == root && root.id !in done
    requires ClosedIds(byId, edge, done)
    requires Collected(byId, done, component, visited)
    requires Exploring(byId, edge, root, component, visited, [])
    ensures Elements(component) == Class(byId.Values, edge, root)
  {
    var c := Elements(component);
    assert root in c by {
      assert root.id in visited;
      var r :| r in c && r.id == root.id;
    }
    forall e, f | e in c && e in byId.Values && f in byId.Values && edge(e, f) ensures f in c {
      assert f.id in byId && byId[f.id] == f;
      assert f.id in visited;
      assert edge(byId[f.id], byId[e.id]);
      assert f.id !in done;
      var g :| g in c && g.id == f.id;
    }
    ClosedContainsClass(byId.Values, edge, c, root);
    forall e | e in c ensures e in Class(byId.Values, edge, root) {
      assert byId[e.id] in byId.Values;
    }
  }

  ghost function GroupFamily(groups: seq<seq<Event>>): set<set<Event>> {
    set g | g in groups :: Elements(g)
  }

  /** No event is in two groups. */
  ghost predicate Disjoint(groups: seq<seq<Event>>) {
    forall k, l :: 0 <= k < l < |groups| ==> Elements(groups[k]) !! Elements(groups[l])
  }

  /** Some event of `g` comes before every event of `later`. */
  ghost predicate StartsBefore(events: seq<Event>, g: seq<Event>, later: seq<Event>) {
    exists i :: 0 <= i < |events| && events[i] in g && forall j :: 0 <= j <= i ==> events[j] !in later
  }

  /** The groups come in the order of their first events. */
  ghost predicate InOrder(events: seq<Event>, groups: seq<seq<Event>>) {
    forall k, l :: 0 <= k < l < |groups| ==> StartsBefore(events, groups[k], groups[l])
  }

  /** The groups are the qualifying classes of the accepted edges, each once and time-sorted, first come first. */
  ghost predicate Emitted(cfg: Settings, events: seq<Event>, groups: seq<seq<Event>>) {
    && (forall g :: g in groups ==> Arrangement(g, Elements(g)) && Gate(cfg, g))
    && Disjoint(groups) && InOrder(events, groups)
    && GroupFamily(groups) == GroupSets(cfg, Elements(events), PrunedEdge(cfg))
  }

  /** Every emitted group is a class that passes the gates, made of visited events only. */
  ghost predicate Sound(cfg: Settings, vs: set<Event>, edge: (Event, Event) -> bool,
                        groups: seq<seq<Event>>, visited: set<string>) {
    forall g :: g in groups ==>
      && Arrangement(g, Elements(g)) && Gate(cfg, g)
      && Elements(g) in GroupSets(cfg, vs, edge) && Ids(Elements(g)) <= visited
  }

  /** Every qualifying class with a visited event has been emitted. */
  ghost predicate Complete(cfg: Settings, vs: set<Event>, edge: (Event, Event) -> bool,
                           groups: seq<seq<Event>>, visited: set<string>) {
    forall e :: e in vs && e.id in visited && Qualifies(cfg, Class(vs, edge, e))
      ==> Class(vs, edge, e) in GroupFamily(groups)
  }

  /** The edge loop over the candidate pairs. */
  method AcceptedEdges(cfg: Settings, events: seq<Event>) returns (adjacency: map<string, set<string>>)
    requires UniqueIds(events)
    ensures Represents(adjacency, ById(events), PrunedEdge(cfg))
  {
    var pairs := CandidatePairs(events);
    forall p | p in pairs ensures p.0 in ById(events) && p.1 in ById(events) {
      PairMembers(events, p);
    }
    adjacency := Adjacency(cfg, ById(events), pairs);
    AdjacencyRepresents(cfg, events, pairs, adjacency);
  }

  /** One component, collected and sorted by time. */
  method NextComponent(events: seq<Event>, adjacency: map<string, set<string>>, visited: set<string>,
                       root: Event, ghost edge: (Event, Event) -> bool)
    returns (component: seq<Event>, reached: set<string>)
    requires UniqueIds(events) && root in events && root.id !in visited
    requires Represents(adjacency, ById(events), edge) && Symmetric(Elements(events), edge)
    requires visited <= ById(events).Keys && ClosedIds(ById(events), edge, visited)
    ensures Arrangement(component, Class(Elements(events), edge, root))
    ensures reached == visited + Ids(Class(Elements(events), edge, root))
  {
    assert ById(events).Values == Elements(events);
    component, reached := Explore(root, ById(events), adjacency, visited, edge);
    SortByIsSorted(component, (e: Event) => e.timestamp);
    component := SortBy(component, (e: Event) => e.timestamp);
  }

  /**
   The whole search. Every group is a time-sorted component passing the gates, no event is in two
   groups, the groups are exactly the classes of the accepted-edge graph that pass the gates, and they
   come in the order of their first events.
   */
  method ConnectedGroups(cfg: Settings, events: seq<Event>) returns (groups: seq<seq<Event>>)
    requires UniqueIds(events)
    ensures Emitted(cfg, events, groups)
  {
    var adjacency := AcceptedEdges(cfg, events);
    ghost var vs, edge := Elements(events), PrunedEdge(cfg);
    PrunedEdgeSymmetric(cfg, vs);
    var visited: set<string> := {};
    groups := [];
    for n := 0 to |events|
      invariant Progress(cfg, events, edge, n, groups, visited)
    {
      if events[n].id !in visited {
        var component, reached := NextComponent(events, adjacency, visited, events[n], edge);
        ComponentKeepsProgress(cfg, events, edge, n, groups, visited, component);
        visited := reached;
        if Gate(cfg, component) {
          groups := groups + [component];
        }
      }
    }
    AllEmitted(cfg, events, edge, groups, visited);
  }

  /** The search invariant after the first `n` events. */
  ghost predicate Progress(cfg: Settings, events: seq<Event>, edge: (Event, Event) -> bool, n: nat,
                           groups: seq<seq<Event>>, visited: set<string>)
    requires UniqueIds(events)
  {
    && n <= |events|
    && visited <= ById(events).Keys && ClosedIds(ById(events), edge, visited)
    && (forall i :: 0 <= i < n ==> events[i].id in visited)
    && Sound(cfg, Elements(events), edge, groups, visited)
    && Complete(cfg, Elements(events), edge, groups, visited)
    && Disjoint(groups) && InOrder(events, groups) && Begun(events, groups, n)
  }

  /** Every group has one of the first `n` events. */
  ghost predicate Begun(events: seq<Event>, groups: seq<seq<Event>>, n: nat)
    requires n <= |events|
  {
    forall g :: g in groups ==> exists i :: 0 <= i < n && events[i] in g
  }

  lemma EmitKeepsOrder(cfg: Settings, events: seq<Event>, groups: seq<seq<Event>>, n: nat, component: seq<Event>)
    requires n < |events| && InOrder(events, groups) && Begun(events, groups, n)
    requires events[n] in component && forall j :: 0 <= j < n ==> events[j] !in component
    ensures InOrder(events, Emit(cfg, groups, component)) && Begun(events, Emit(cfg, groups, component), n + 1)
  {
    forall k | 0 <= k < |groups| ensures StartsBefore(events, groups[k], component) {
      assert groups[k] in groups;
      var i :| 0 <= i < n && events[i] in groups[k];
    }
    forall g | g in groups ensures exists i :: 0 <= i < n + 1 && events[i] in g {
      var i :| 0 <= i < n && events[i] in g;
    }
  }

  lemma ExploredKeepsOrder(cfg: Settings, events: seq<Event>, edge: (Event, Event) -> bool,
                           groups: seq<seq<Event>>, visited: set<string>, n: nat, component: seq<Event>)
    requires UniqueIds(events) && n < |events| && events[n].id !in visited && Symmetric(Elements(events), edge)
    requires ClosedIds(ById(events), edge, visited) && forall i :: 0 <= i < n ==> events[i].id in visited
    requires Elements(component) == Class(Elements(events), edge, events[n])
    requires InOrder(events, groups) && Begun(events, groups, n)
    ensures InOrder(events, Emit(cfg, groups, component)) && Begun(events, Emit(cfg, groups, component), n + 1)
  {
    UnvisitedClass(events, edge, visited, events[n]);
    ConnectedToSelf(Elements(events), edge, events[n]);
    assert events[n] in Elements(component);
    assert forall e :: e in component ==> e in Class(Elements(events), edge, events[n]);
    EmitKeepsOrder(cfg, events, groups, n, component);
  }

  lemma ComponentKeepsProgress(cfg: Settings, events: seq<Event>, edge: (Event, Event) -> bool, n: nat,
                               groups: seq<seq<Event>>, visited: set<string>, component: seq<Event>)
    requires UniqueIds(events) && Symmetric(Elements(events), edge)
    requires n < |events| && events[n].id !in visited
    requires Progress(cfg, events, edge, n, groups, visited)
    requires Arrangement(component, Class(Elements(events), edge, events[n]))
    ensures Progress(cfg, events, edge, n + 1, Emit(cfg, groups, component),
                     visited + Ids(Class(Elements(events), edge, events[n])))
  {
    ReachedIsClosed(events, edge, visited, events[n]);
    ExploredKeepsSound(cfg, events, edge, groups, visited, events[n], component);
    ExploredKeepsComplete(cfg, events, edge, groups, visited, events[n], component);
    ElementsOfArrangement(component, Class(Elements(events), edge, events[n]));
    ExploredKeepsDisjoint(cfg, events, edge, groups, visited, events[n], component);
    ExploredKeepsOrder(cfg, events, edge, groups, visited, n, component);
  }

  ghost function Emit(cfg: Settings, groups: seq<seq<Event>>, component: seq<Event>): seq<seq<Event>> {
    if Gate(cfg, component) then groups + [component] else groups
  }

  lemma ReachedIsClosed(events: seq<Event>, edge: (Event, Event) -> bool, visited: set<string>, root: Event)
    requires UniqueIds(events) && root in events
    requires ClosedIds(ById(events), edge, visited)
    ensures ClosedIds(ById(events), edge, visited + Ids(Class(Elements(events), edge, root)))
    ensures root.id in Ids(Class(Elements(events), edge, root))
    ensures Ids(Class(Elements(events), edge, root)) <= ById(events).Keys
  {
    var vs, byId := Elements(events), ById(events);
    ClassIsClosed(vs, edge, root);
    ConnectedToSelf(vs, edge, root);
    forall id, other | id in byId && other in byId && edge(byId[id], byId[other])
        && id in visited + Ids(Class(vs, edge, root))
      ensures other in visited + Ids(Class(vs, edge, root))
    {
      if id !in visited {
        var e :| e in Class(vs, edge, root) && e.id == id;
        assert byId[id] == e;
        assert byId[other] in Class(vs, edge, root);
      }
    }
  }

  lemma ElementsOfArrangement(s: seq<Event>, c: set<Event>)
    requires Arrangement(s, c)
    ensures Elements(s) == c
  {
    forall e: Event ensures e in s <==> e in c {
      assert e in multiset(s) <==> e in multiset(c);
    }
  }

  lemma ExploredKeepsSound(cfg: Settings, events: seq<Event>, edge: (Event, Event) -> bool,
                           groups: seq<seq<Event>>, visited: set<string>, root: Event, component: seq<Event>)
    requires root in events
    requires Sound(cfg, Elements(events), edge, groups, visited)
    requires Arrangement(component, Class(Elements(events), edge, root))
    ensures Sound(cfg, Elements(events), edge, Emit(cfg, groups, component),
                  visited + Ids(Class(Elements(events), edge, root)))
  {
    var c := Class(Elements(events), edge, root);
    ElementsOfArrangement(component, c);
    GateOfArrangement(cfg, component, c);
    assert c in Classes(Elements(events), edge);
  }

  lemma ExploredKeepsDisjoint(cfg: Settings, events: seq<Event>, edge: (Event, Event) -> bool,
                              groups: seq<seq<Event>>, visited: set<string>, root: Event, component: seq<Event>)
    requires UniqueIds(events) && root in events && root.id !in visited
    requires Symmetric(Elements(events), edge) && ClosedIds(ById(events), edge, visited)
    requires forall g :: g in groups ==> Ids(Elements(g)) <= visited
    requires Disjoint(groups)
    requires Elements(component) == Class(Elements(events), edge, root)
    ensures Disjoint(groups + [component])
  {
    UnvisitedClass(events, edge, visited, root);
    forall g | g in groups ensures Elements(g) !! Elements(component) {
      forall e | e in g ensures e !in Elements(component) {
        assert e.id in Ids(Elements(g));
      }
    }
  }

  lemma ExploredKeepsComplete(cfg: Settings, events: seq<Event>, edge: (Event, Event) -> bool,
                              groups: seq<seq<Event>>, visited: set<string>, root: Event, component: seq<Event>)
    requires UniqueIds(events) && root in events
    requires Symmetric(Elements(events), edge)
    requires Complete(cfg, Elements(events), edge, groups, visited)
    requires Arrangement(component, Class(Elements(events), edge, root))
    ensures Complete(cfg, Elements(events), edge, Emit(cfg, groups, component),
                     visited + Ids(Class(Elements(events), edge, root)))
  {
    var vs := Elements(events);
    var c := Class(vs, edge, root);
    ElementsOfArrangement(component, c);
    GateOfArrangement(cfg, component, c);
    var groups' := Emit(cfg, groups, component);
    FamilyGrows(cfg, groups, component);
    forall e | e in vs && e.id in visited + Ids(c) && Qualifies(cfg, Class(vs, edge, e))
      ensures Class(vs, edge, e) in GroupFamily(groups')
    {
      if e.id !in visited {
        var f :| f in c && f.id == e.id;
        assert f == e;
        ClassOfMember(vs, edge, root, e);
      }
    }
  }

  lemma FamilyGrows(cfg: Settings, groups: seq<seq<Event>>, component: seq<Event>)
    ensures GroupFamily(groups) <= GroupFamily(Emit(cfg, groups, component))
    ensures Gate(cfg, component) ==> Elements(component) in GroupFamily(Emit(cfg, groups, component))
  {
  }

  /** A new root's whole class is unvisited. */
  lemma UnvisitedClass(events: seq<Event>, edge: (Event, Event) -> bool, visited: set<string>, root: Event)
    requires UniqueIds(events) && root in events && root.id !in visited
    requires Symmetric(Elements(events), edge)
    requires ClosedIds(ById(events), edge, visited)
    ensures forall e :: e in Class(Elements(events), edge, root) ==> e.id !in visited
  {
    var vs, byId := Elements(events), ById(events);
    var unseen := set e | e in vs && e.id !in visited;
    forall a, b | a in unseen && b in vs && edge(a, b) ensures b in unseen {
      assert edge(byId[b.id], byId[a.id]);
    }
    ClosedContainsClass(vs, edge, unseen, root);
  }

  lemma AllEmitted(cfg: Settings, events: seq<Event>, edge: (Event, Event) -> bool,
                   groups: seq<seq<Event>>, visited: set<string>)
    requires forall i :: 0 <= i < |events| ==> events[i].id in visited
    requires Sound(cfg, Elements(events), edge, groups, visited)
    requires Complete(cfg, Elements(events), edge, groups, visited)
    ensures GroupFamily(groups) == GroupSets(cfg, Elements(events), edge)
  {
  }

  // ---- Laws of grouping ---------------------------------------------------------------------

  /**
   Any two runs over the same events in any two orders yield the same groups, as sets of events:
   both are the function of the event set named in the contract of `ConnectedGroups`.
   */
  lemma GroupingOrderIndependent(cfg: Settings, events: seq<Event>, shuffled: seq<Event>,
                                 groups: seq<seq<Event>>, others: seq<seq<Event>>)
    requires multiset(events) == multiset(shuffled)
    requires GroupFamily(groups) == GroupSets(cfg, Elements(events), PrunedEdge(cfg))
    requires GroupFamily(others) == GroupSets(cfg, Elements(shuffled), PrunedEdge(cfg))
    ensures GroupFamily(groups) == GroupFamily(others)
  {
    forall e: Event ensures e in Elements(events) <==> e in Elements(shuffled) {
      assert e in multiset(events) <==> e in multiset(shuffled);
    }
    assert Elements(events) == Elements(shuffled);
  }

  /** With a minimum score of at least 6, bucketing gives the groups of an all-pairs comparison. */
  lemma PrunedGroupsEqualAllPairs(cfg: Settings, vs: set<Event>)
    requires cfg.correlationMinScore >= 6
    ensures GroupSets(cfg, vs, PrunedEdge(cfg)) == GroupSets(cfg, vs, FullEdge(cfg))
  {
    forall a | a in vs ensures Class(vs, PrunedEdge(cfg), a) == Class(vs, FullEdge(cfg), a) {
      forall x, y ensures PrunedEdge(cfg)(x, y) == FullEdge(cfg)(x, y) {
        PruningLosesNothing(cfg, x, y);
      }
      ClassMonotone(vs, PrunedEdge(cfg), FullEdge(cfg), a);
      ClassMonotone(vs, FullEdge(cfg), PrunedEdge(cfg), a);
    }
    assert Classes(vs, PrunedEdge(cfg)) == Classes(vs, FullEdge(cfg));
  }

  /** The pairs an all-pairs comparison would link but the buckets never compare. */
  ghost predicate Unseen(cfg: Settings, a: Event, b: Event) {
    FullEdge(cfg)(a, b) && !Anchored(a, b)
  }

  /**
   At any threshold the component structure survives pruning exactly when every unseen pair is
   linked through other events anyway.
   */
  lemma PruningKeepsClassesIff(cfg: Settings, vs: set<Event>)
    ensures (forall a :: a in vs ==> Class(vs, PrunedEdge(cfg), a) == Class(vs, FullEdge(cfg), a))
       <==> (forall a, b :: a in vs && b in vs && Unseen(cfg, a, b) ==> b in Class(vs, PrunedEdge(cfg), a))
  {
    PrunedEdgeSymmetric(cfg, vs);
    SameClassesIff(vs, PrunedEdge(cfg), FullEdge(cfg));
    forall a, b | a in vs && b in vs && PrunedEdge(cfg)(a, b)
      ensures b in Class(vs, PrunedEdge(cfg), a)
    {
      ConnectedToSelf(vs, PrunedEdge(cfg), a);
      ConnectedByEdge(vs, PrunedEdge(cfg), a, a, b);
    }
  }

  /** No pair the buckets leave out has one end in the set and the other outside. */
  ghost predicate NoneLeaves(cfg: Settings, vs: set<Event>, c: set<Event>) {
    forall a, b :: a in c && b in vs && Unseen(cfg, a, b) ==> b in c
  }

  /** Every pair the buckets leave out inside the set is linked through other events. */
  ghost predicate LinkedInside(cfg: Settings, vs: set<Event>, c: set<Event>) {
    forall a, b :: a in c && b in c && Unseen(cfg, a, b) ==> b in Class(vs, PrunedEdge(cfg), a)
  }

  /**
   At any threshold the emitted groups are those of comparing all pairs exactly when every group by all
   pairs is linked inside without the unseen pairs, and no unseen pair leaves an emitted group.
   */
  lemma PruningKeepsGroupsIff(cfg: Settings, vs: set<Event>)
    ensures GroupSets(cfg, vs, PrunedEdge(cfg)) == GroupSets(cfg, vs, FullEdge(cfg))
       <==> && (forall c :: c in GroupSets(cfg, vs, FullEdge(cfg)) ==> LinkedInside(cfg, vs, c))
            && (forall c :: c in GroupSets(cfg, vs, PrunedEdge(cfg)) ==> NoneLeaves(cfg, vs, c))
  {
    forall c | c in Classes(vs, FullEdge(cfg))
      ensures c in Classes(vs, PrunedEdge(cfg)) <==> LinkedInside(cfg, vs, c)
    {
      FullClassKept(cfg, vs, c);
    }
    forall c | c in Classes(vs, PrunedEdge(cfg))
      ensures c in Classes(vs, FullEdge(cfg)) <==> NoneLeaves(cfg, vs, c)
    {
      PrunedClassKept(cfg, vs, c);
    }
  }

  lemma FullClassKept(cfg: Settings, vs: set<Event>, c: set<Event>)
    requires c in Classes(vs, FullEdge(cfg))
    ensures c in Classes(vs, PrunedEdge(cfg)) <==> LinkedInside(cfg, vs, c)
  {
    PrunedEdgeSymmetric(cfg, vs);
    if c in Classes(vs, PrunedEdge(cfg)) {
      var x :| x in vs && c == Class(vs, PrunedEdge(cfg), x);
      forall a, b | a in c && b in c && Unseen(cfg, a, b) ensures b in Class(vs, PrunedEdge(cfg), a) {
        ClassOfMember(vs, PrunedEdge(cfg), x, a);
      }
    }
    if LinkedInside(cfg, vs, c) {
      var x :| x in vs && c == Class(vs, FullEdge(cfg), x);
      ConnectedToSelf(vs, FullEdge(cfg), x);
      LinkedClass(cfg, vs, x);
      assert Class(vs, PrunedEdge(cfg), x) in Classes(vs, PrunedEdge(cfg));
    }
  }

  lemma LinkedClass(cfg: Settings, vs: set<Event>, x: Event)
    requires x in vs && LinkedInside(cfg, vs, Class(vs, FullEdge(cfg), x))
    ensures Class(vs, PrunedEdge(cfg), x) == Class(vs, FullEdge(cfg), x)
  {
    var c, d := Class(vs, FullEdge(cfg), x), Class(vs, PrunedEdge(cfg), x);
    ClassMonotone(vs, PrunedEdge(cfg), FullEdge(cfg), x);
    ClassIsClosed(vs, FullEdge(cfg), x);
    forall a, b | a in d && b in vs && FullEdge(cfg)(a, b) ensures b in d {
      assert b in Class(vs, PrunedEdge(cfg), a) || PrunedEdge(cfg)(a, b);
      if PrunedEdge(cfg)(a, b) {
        ConnectedByEdge(vs, PrunedEdge(cfg), x, a, b);
      } else {
        ConnectedTransitive(vs, PrunedEdge(cfg), x, a, b);
      }
    }
    ConnectedToSelf(vs, PrunedEdge(cfg), x);
    ClosedContainsClass(vs, FullEdge(cfg), d, x);
  }

  lemma PrunedClassKept(cfg: Settings, vs: set<Event>, c: set<Event>)
    requires c in Classes(vs, PrunedEdge(cfg))
    ensures c in Classes(vs, FullEdge(cfg)) <==> NoneLeaves(cfg, vs, c)
  {
    if c in Classes(vs, FullEdge(cfg)) {
      var x :| x in vs && c == Class(vs, FullEdge(cfg), x);
      ClassIsClosed(vs, FullEdge(cfg), x);
    }
    if NoneLeaves(cfg, vs, c) {
      var x :| x in vs && c == Class(vs, PrunedEdge(cfg), x);
      ConnectedToSelf(vs, PrunedEdge(cfg), x);
      ClassIsClosed(vs, PrunedEdge(cfg), x);
      forall a, b | a in c && a in vs && b in vs && FullEdge(cfg)(a, b) ensures b in c {
        assert PrunedEdge(cfg)(a, b) || Unseen(cfg, a, b);
      }
      ClosedContainsClass(vs, FullEdge(cfg), c, x);
      ClassMonotone(vs, PrunedEdge(cfg), FullEdge(cfg), x);
      assert c == Class(vs, FullEdge(cfg), x);
    }
  }

  // ---- Groups of events that all score enough ------------------------------------------------

  lemma {:induction false} SumAtLeast(s: seq<int>, m: nat)
    requires forall x :: x in s ==> x >= m
    ensures Sum(s) >= m * |s|
  {
    if s == [] {
    } else {
      assert forall x :: x in s[1..] ==> x in s;
      SumAtLeast(s[1..], m);
      assert s[0] in s;
    }
  }

  /** Every two events of the sequence score at least `m`. */
  ghost predicate Tight(cfg: Settings, s: seq<Event>, m: nat) {
    forall a, b :: a in s && b in s && a != b ==> ConnectionScore(cfg, a, b) >= m
  }

  lemma {:induction false} RowAtLeast(cfg: Settings, a: Event, rest: seq<Event>, m: nat)
    requires forall b :: b in rest ==> ConnectionScore(cfg, a, b) >= m
    ensures forall x :: x in RowScores(cfg, a, rest) ==> x >= m
  {
    if rest == [] {
    } else {
      assert rest[0] in rest && forall b :: b in rest[1..] ==> b in rest;
      RowAtLeast(cfg, a, rest[1..], m);
    }
  }

  lemma {:induction false} PairsAtLeast(cfg: Settings, s: seq<Event>, m: nat)
    requires UniqueIds(s) && Tight(cfg, s, m)
    ensures forall x :: x in PairScores(cfg, s) ==> x >= m
  {
    if s == [] {
    } else {
      forall b | b in s[1..] ensures ConnectionScore(cfg, s[0], b) >= m {
        var k :| 0 <= k < |s| - 1 && s[1..][k] == b;
        assert s[0].id != s[k + 1].id && s[0] in s && s[k + 1] in s;
      }
      RowAtLeast(cfg, s[0], s[1..], m);
      assert forall b :: b in s[1..] ==> b in s;
      PairsAtLeast(cfg, s[1..], m);
    }
  }

  /** The mean is no lower than the lowest score. */
  lemma CohesionAtLeast(cfg: Settings, s: seq<Event>, m: nat)
    requires UniqueIds(s) && |s| >= 2 && Tight(cfg, s, m)
    ensures GroupCohesion(cfg, s) >= m as real
  {
    var scores := PairScores(cfg, s);
    PairsAtLeast(cfg, s, m);
    SumAtLeast(scores, m);
    PairScoresLength(cfg, s);
    assert |s| * (|s| - 1) >= 2;
    Mean(Sum(scores), |scores|, m);
  }

  lemma Mean(total: int, n: nat, m: nat)
    requires 0 < n && total >= m * n
    ensures total as real / n as real >= m as real
  {
    assert total as real >= m as real * n as real;
  }

  lemma {:induction false} UniqueArranged(s: seq<Event>)
    requires UniqueIds(s)
    ensures multiset(s) == multiset(Elements(s))
  {
    if s == [] {
    } else {
      var n := |s| - 1;
      assert s == s[..n] + [s[n]];
      UniqueArranged(s[..n]);
      ElementsSnoc(s[..n], s[n]);
      forall e | e in s[..n] ensures e != s[n] {
        var k :| 0 <= k < n && s[..n][k] == e;
        assert s[k].id != s[n].id;
      }
    }
  }

  /** Events in time order, any two of which are linked, and not too far apart. */
  ghost predicate Burst(cfg: Settings, s: seq<Event>) {
    && |s| >= 2 && UniqueIds(s) && Sorted(s, (e: Event) => e.timestamp)
    && s[|s| - 1].timestamp - s[0].timestamp <= cfg.maxIncidentSpanMinutes * MINUTE
    && forall a, b :: a in s && b in s && a != b ==> PrunedEdge(cfg)(a, b)
  }

  lemma BurstPasses(cfg: Settings, s: seq<Event>)
    requires Burst(cfg, s) && 0 <= cfg.correlationMinScore && cfg.minGroupCohesion <= cfg.correlationMinScore as real
    ensures Arrangement(s, Elements(s)) && Gate(cfg, s) && Qualifies(cfg, Elements(s))
  {
    UniqueArranged(s);
    assert Tight(cfg, s, cfg.correlationMinScore);
    CohesionAtLeast(cfg, s, cfg.correlationMinScore);
    assert Arrangement(s, Elements(s));
    assert Gate(cfg, s);
  }

  ghost predicate NoneAcross(cfg: Settings, s: seq<Event>, t: seq<Event>) {
    forall a, b :: a in s && b in t ==> a != b && !PrunedEdge(cfg)(a, b) && !PrunedEdge(cfg)(b, a)
  }

  /** A burst on its own is emitted. */
  lemma BurstEmitted(cfg: Settings, s: seq<Event>)
    requires Burst(cfg, s) && 0 <= cfg.correlationMinScore && cfg.minGroupCohesion <= cfg.correlationMinScore as real
    ensures Emitted(cfg, s, [s])
  {
    var vs := Elements(s);
    BurstPasses(cfg, s);
    BurstIsCluster(cfg, s, vs);
    TwoClusters(vs, PrunedEdge(cfg), vs, vs);
    assert GroupFamily([s]) == {vs};
  }

  lemma TwoBurstSets(cfg: Settings, s: seq<Event>, t: seq<Event>)
    requires Burst(cfg, s) && Burst(cfg, t) && NoneAcross(cfg, s, t)
    requires Qualifies(cfg, Elements(s)) && Qualifies(cfg, Elements(t))
    ensures GroupSets(cfg, Elements(s) + Elements(t), PrunedEdge(cfg)) == {Elements(s), Elements(t)}
  {
    var vs := Elements(s) + Elements(t);
    BurstIsCluster(cfg, s, vs);
    BurstIsCluster(cfg, t, vs);
    TwoClusters(vs, PrunedEdge(cfg), Elements(s), Elements(t));
    BothQualify(cfg, vs, Elements(s), Elements(t));
  }

  lemma ElementsAppend<T>(s: seq<T>, t: seq<T>)
    ensures Elements(s + t) == Elements(s) + Elements(t)
  {
  }

  /** Two bursts without a link between them are emitted as two groups. */
  lemma TwoBurstsEmitted(cfg: Settings, s: seq<Event>, t: seq<Event>)
    requires Burst(cfg, s) && Burst(cfg, t) && NoneAcross(cfg, s, t)
    requires 0 <= cfg.correlationMinScore && cfg.minGroupCohesion <= cfg.correlationMinScore as real
    ensures Emitted(cfg, s + t, [s, t])
  {
    BurstPasses(cfg, s);
    BurstPasses(cfg, t);
    TwoBurstSets(cfg, s, t);
    ElementsApart(cfg, s, t);
    FirstStarts(s, t);
    TwoEmitted(cfg, s + t, s, t);
  }

  lemma FirstStarts(s: seq<Event>, t: seq<Event>)
    requires s != [] && Elements(s) !! Elements(t)
    ensures StartsBefore(s + t, s, t)
  {
    assert (s + t)[0] == s[0] && s[0] in Elements(s);
    assert s[0] !in t;
  }

  lemma ElementsApart(cfg: Settings, s: seq<Event>, t: seq<Event>)
    requires NoneAcross(cfg, s, t)
    ensures Elements(s) !! Elements(t) && Elements(s + t) == Elements(s) + Elements(t)
  {
    ElementsAppend(s, t);
  }

  lemma TwoEmitted(cfg: Settings, events: seq<Event>, s: seq<Event>, t: seq<Event>)
    requires Arrangement(s, Elements(s)) && Gate(cfg, s) && Arrangement(t, Elements(t)) && Gate(cfg, t)
    requires Elements(s) !! Elements(t)
    requires GroupSets(cfg, Elements(events), PrunedEdge(cfg)) == {Elements(s), Elements(t)}
    requires StartsBefore(events, s, t)
    ensures Emitted(cfg, events, [s, t])
  {
    FamilyOfTwo(s, t);
    BothArranged(cfg, s, t);
    OrderOfTwo(events, s, t);
  }

  lemma OrderOfTwo(events: seq<Event>, s: seq<Event>, t: seq<Event>)
    requires StartsBefore(events, s, t)
    ensures InOrder(events, [s, t])
  {
  }

  lemma BurstIsCluster(cfg: Settings, s: seq<Event>, vs: set<Event>)
    requires Burst(cfg, s) && Elements(s) <= vs
    requires forall a, b :: a in s && b in vs && b !in s ==> !PrunedEdge(cfg)(a, b)
    ensures Cluster(vs, PrunedEdge(cfg), Elements(s))
  {
    assert s[0] in Elements(s);
  }

  lemma BothQualify(cfg: Settings, vs: set<Event>, p: set<Event>, q: set<Event>)
    requires Classes(vs, PrunedEdge(cfg)) == {p, q} && Qualifies(cfg, p) && Qualifies(cfg, q)
    ensures GroupSets(cfg, vs, PrunedEdge(cfg)) == {p, q}
  {
  }

  lemma BothArranged(cfg: Settings, s: seq<Event>, t: seq<Event>)
    requires Arrangement(s, Elements(s)) && Gate(cfg, s) && Arrangement(t, Elements(t)) && Gate(cfg, t)
    requires Elements(s) !! Elements(t)
    ensures Disjoint([s, t]) && forall g :: g in [s, t] ==> Arrangement(g, Elements(g)) && Gate(cfg, g)
  {
  }

  lemma FamilyOfTwo(s: seq<Event>, t: seq<Event>)
    ensures GroupFamily([s, t]) == {Elements(s), Elements(t)}
  {
    assert s in [s, t] && t in [s, t];
  }

  /**
   With the default settings pruning does lose a group: two events on their own that the buckets never
   compare, although comparing all pairs would link them.
   */
  lemma PruningLosesAGroup(a: Event, b: Event)
    requires a.timestamp <= b.timestamp && Unseen(DEFAULTS, a, b)
    ensures {a, b} in GroupSets(DEFAULTS, {a, b}, FullEdge(DEFAULTS))
    ensures GroupSets(DEFAULTS, {a, b}, PrunedEdge(DEFAULTS)) == {}
  {
    LostPairQualifies(a, b);
    AnchoredMeaning(a, b);
    AnchoredMeaning(b, a);
    forall c | c in GroupSets(DEFAULTS, {a, b}, PrunedEdge(DEFAULTS)) ensures false {
      var x :| x in {a, b} && c == Class({a, b}, PrunedEdge(DEFAULTS), x);
      assert Closed({a, b}, PrunedEdge(DEFAULTS), {x});
      ClosedContainsClass({a, b}, PrunedEdge(DEFAULTS), {x}, x);
      SingletonFails(DEFAULTS, c, x);
    }
  }

  lemma LostPairQualifies(a: Event, b: Event)
    requires a.timestamp <= b.timestamp && Unseen(DEFAULTS, a, b)
    ensures {a, b} in GroupSets(DEFAULTS, {a, b}, FullEdge(DEFAULTS))
  {
    var vs := {a, b};
    PruningGap(DEFAULTS, a, b);
    ConnectedToSelf(vs, FullEdge(DEFAULTS), a);
    ConnectedByEdge(vs, FullEdge(DEFAULTS), a, a, b);
    assert Class(vs, FullEdge(DEFAULTS), a) == vs;
    CohesionOfTwo(DEFAULTS, a, b);
    assert Arrangement([a, b], vs) && Gate(DEFAULTS, [a, b]);
  }

  lemma CohesionOfTwo(cfg: Settings, a: Event, b: Event)
    ensures GroupCohesion(cfg, [a, b]) == ConnectionScore(cfg, a, b) as real
  {
    var x := ConnectionScore(cfg, a, b);
    assert [a, b][1..] == [b] && [b][1..] == [];
    assert RowScores(cfg, a, [b]) == [x] + RowScores(cfg, a, []);
    assert PairScores(cfg, [b]) == RowScores(cfg, b, []) + PairScores(cfg, []);
    assert PairScores(cfg, [a, b]) == RowScores(cfg, a, [b]) + PairScores(cfg, [b]);
    assert PairScores(cfg, [a, b]) == [x];
    assert Sum([x]) == x + Sum([x][1..]);
  }

  /** A class of one event never becomes a group. */
  lemma SingletonFails(cfg: Settings, c: set<Event>, x: Event)
    requires c <= {x}
    ensures !Qualifies(cfg, c)
  {
    forall s | Arrangement(s, c) ensures !Gate(cfg, s) {
      assert |s| == |multiset(s)| == |multiset(c)| == |c|;
      assert |c| <= |{x}| by { if c != {} { assert c == {x}; } }
    }
  }
}
