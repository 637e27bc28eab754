/**
 * The directed graph of a transition dict: one edge (u, v) per entry whose key names the
 * source state u and whose value is the target v. Labels and counter patterns are dropped and
 * repeated edges collapse, as in a networkx `DiGraph` filled by `add_edge`.
 */
module TransitionGraphs {
  /** The edge set of `delta`, where `source` reads the source state out of a key. */
  function Edges<K>(delta: map<K, int>, source: K -> int): (e: set<(int, int)>)
    ensures forall k :: k in delta ==> (source(k), delta[k]) in e
    ensures forall u, v :: (u, v) in e ==> exists k :: k in delta && source(k) == u && delta[k] == v
  {
    set k | k in delta :: (source(k), delta[k])
  }

  /** The edges of two dicts with disjoint keys are the edges of either. */
  lemma EdgesUnion<K>(a: map<K, int>, b: map<K, int>, source: K -> int)
    requires a.Keys !! b.Keys
    ensures Edges(a + b, source) == Edges(a, source) + Edges(b, source)
  {
    forall x | x in Edges(a + b, source)
      ensures x in Edges(a, source) + Edges(b, source)
    {
      var k :| k in a + b && source(k) == x.0 && (a + b)[k] == x.1;
      if k in b {
        assert (source(k), b[k]) in Edges(b, source);
      } else {
        assert (source(k), a[k]) in Edges(a, source);
      }
    }
    forall x | x in Edges(a, source) + Edges(b, source)
      ensures x in Edges(a + b, source)
    {
      if x in Edges(a, source) {
        var k :| k in a && source(k) == x.0 && a[k] == x.1;
        assert k !in b && (a + b)[k] == a[k];
        assert (source(k), (a + b)[k]) in Edges(a + b, source);
      } else {
        var k :| k in b && source(k) == x.0 && b[k] == x.1;
        assert (source(k), (a + b)[k]) in Edges(a + b, source);
      }
    }
  }

  /** The `add_edge` loop over the entries of `delta`. */
  method TransitionGraph<K>(delta: map<K, int>, source: K -> int) returns (edges: set<(int, int)>)
    ensures edges == Edges(delta, source)
  {
    edges := {};
    var todo := delta.Keys;
    while todo != {}
      invariant todo <= delta.Keys
      invariant edges == set k | k in delta.Keys - todo :: (source(k), delta[k])
      decreases |todo|
    {
      var key :| key in todo;
      edges := edges + {(source(key), delta[key])};
      todo := todo - {key};
    }
  }
}
