/** Which crates a change reaches: the transitive reverse dependencies of the crates it names. */
module Dependents {

  type Crate = string

  /** Every known crate with the crates it depends on directly. */
  type Edges = map<Crate, set<Crate>>

  ghost predicate Edge(edges: Edges, from: Crate, to: Crate) {
    from in edges && to in edges[from]
  }

  /** A chain of one or more dependency edges. */
  ghost predicate Chain(edges: Edges, path: seq<Crate>) {
    |path| >= 2 && forall i :: 0 <= i < |path| - 1 ==> Edge(edges, path[i], path[i + 1])
  }

  ghost predicate Links(edges: Edges, names: set<Crate>, crate: Crate, path: seq<Crate>) {
    Chain(edges, path) && path[0] == crate && path[|path| - 1] in names
  }

  ghost predicate Reaches(edges: Edges, names: set<Crate>, crate: Crate) {
    exists path :: Links(edges, names, crate, path)
  }

  lemma {:induction false} OneEdge(edges: Edges, names: set<Crate>, crate: Crate, to: Crate)
    requires Edge(edges, crate, to) && to in names
    ensures Reaches(edges, names, crate)
  {
    assert Links(edges, names, crate, [crate, to]);
  }

  lemma {:induction false} OneMore(edges: Edges, names: set<Crate>, crate: Crate, to: Crate)
    requires Edge(edges, crate, to) && Reaches(edges, names, to)
    ensures Reaches(edges, names, crate)
  {
    var path :| Links(edges, names, to, path);
    var longer := [crate] + path;
    forall i | 0 <= i < |longer| - 1
      ensures Edge(edges, longer[i], longer[i + 1])
    {
      if i > 0 {
        assert Edge(edges, path[i - 1], path[i]);
      }
    }
    assert Links(edges, names, crate, longer);
  }

  /** Everything with an edge into the closure or the named crates is in the closure or named. */
  ghost predicate Closed(edges: Edges, names: set<Crate>, closure: set<Crate>) {
    forall c, d :: Edge(edges, c, d) && (d in names || d in closure) ==> c in closure || c in names
  }

  lemma {:induction false} ClosedHolds(edges: Edges, names: set<Crate>, closure: set<Crate>, path: seq<Crate>)
    requires Closed(edges, names, closure) && Chain(edges, path) && path[|path| - 1] in names
    ensures path[0] in closure || path[0] in names
    decreases |path|
  {
    assert Edge(edges, path[0], path[1]);
    if |path| > 2 {
      forall i | 0 <= i < |path[1..]| - 1
        ensures Edge(edges, path[1..][i], path[1..][i + 1])
      {
        assert Edge(edges, path[i + 1], path[i + 2]);
      }
      ClosedHolds(edges, names, closure, path[1..]);
    }
  }

  /** The crates not yet reached that depend on the frontier. */
  method Expand(edges: Edges, closure: set<Crate>, frontier: set<Crate>) returns (dependents: set<Crate>)
    ensures forall c :: c in dependents <==> c in edges && c !in closure && c !in frontier && edges[c] * frontier != {}
  {
    dependents := {};
    var left := edges.Keys;
    while left != {}
      invariant left <= edges.Keys
      invariant forall c :: c in dependents <==>
                c in edges.Keys - left && c !in closure && c !in frontier && edges[c] * frontier != {}
      decreases left
    {
      var crate :| crate in left;
      left := left - {crate};
      if crate !in closure && crate !in frontier && edges[crate] * frontier != {} {
        dependents := dependents + {crate};
      }
    }
  }

  /** Every edge into an explored crate starts inside; only the frontier is still to be explored. */
  ghost predicate Settled(edges: Edges, names: set<Crate>, closure: set<Crate>, frontier: set<Crate>) {
    forall c, d :: Edge(edges, c, d) && (d in names || d in closure) && d !in frontier ==> c in closure || c in names
  }

  lemma {:induction false} SettledNext(edges: Edges, names: set<Crate>, closure: set<Crate>, frontier: set<Crate>,
                                       dependents: set<Crate>)
    requires Settled(edges, names, closure, frontier) && frontier <= names + closure
    requires forall c :: c in dependents <==> c in edges && c !in closure && c !in frontier && edges[c] * frontier != {}
    ensures Settled(edges, names, closure + dependents, dependents)
  {
    forall c, d | Edge(edges, c, d) && (d in names || d in closure + dependents) && d !in dependents
      ensures c in closure + dependents || c in names
    {
      if d in frontier {
        assert d in edges[c] * frontier;
      }
    }
  }

  lemma {:induction false} SettledCloses(edges: Edges, names: set<Crate>, closure: set<Crate>, frontier: set<Crate>)
    requires Settled(edges, names, closure, frontier) && frontier == {}
    ensures Closed(edges, names, closure)
  {
  }

  /** Ends on every finite graph, cycles included, with exactly the crates that reach a named one, less the named. */
  method ReverseDependents(edges: Edges, names: set<Crate>) returns (result: set<Crate>)
    ensures forall c :: c in result <==> Reaches(edges, names, c) && c !in names
  {
    var frontier, closure: set<Crate> := names, {};
    while frontier != {}
      invariant closure <= edges.Keys && frontier <= names + closure
      invariant forall c :: c in closure ==> Reaches(edges, names, c)
      invariant Settled(edges, names, closure, frontier)
      decreases edges.Keys - closure, frontier
    {
      var dependents := Expand(edges, closure, frontier);
      forall c | c in dependents
        ensures Reaches(edges, names, c)
      {
        var d :| d in edges[c] * frontier;
        assert Edge(edges, c, d);
        if d in names {
          OneEdge(edges, names, c, d);
        } else {
          OneMore(edges, names, c, d);
        }
      }
      SettledNext(edges, names, closure, frontier, dependents);
      closure, frontier := closure + dependents, dependents;
    }
    result := closure - names;
    SettledCloses(edges, names, closure, frontier);
    forall c | Reaches(edges, names, c)
      ensures c in closure || c in names
    {
      var path :| Links(edges, names, c, path);
      ClosedHolds(edges, names, closure, path);
    }
  }
}
