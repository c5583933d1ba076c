/** The similarity index and the threshold decision of the resolver. */
module Similarity {
  import opened Types

  type Vector = seq<real>

  /** The vector collection: one embedding per stored id. */
  type Index = map<string, Vector>

  /** The distance the index ranks by (lower is more similar). */
  type Metric = (Vector, Vector) -> real

  /** Largest distance at which a match is accepted. */
  const SimilarityThreshold: real := 0.45

  /** `id` is an entry of minimum distance to `q`. */
  predicate IsNearest(idx: Index, dist: Metric, q: Vector, id: string)
  {
    id in idx && forall k :: k in idx ==> dist(q, idx[id]) <= dist(q, idx[k])
  }

  /** A non-empty index always has an entry of minimum distance. */
  lemma {:induction false} NearestExists(idx: Index, dist: Metric, q: Vector)
    requires idx != map[]
    ensures exists id :: IsNearest(idx, dist, q, id)
    decreases |idx|
  {
    var x :| x in idx;
    var rest := idx - {x};
    assert forall k :: k in idx ==> k == x || (k in rest && rest[k] == idx[k]);
    if rest == map[] {
      assert IsNearest(idx, dist, q, x);
    } else {
      assert |rest| < |idx| by { assert rest.Keys < idx.Keys; }
      NearestExists(rest, dist, q);
      var y :| IsNearest(rest, dist, q, y);
      if dist(q, idx[x]) <= dist(q, idx[y]) {
        assert IsNearest(idx, dist, q, x);
      } else {
        assert IsNearest(idx, dist, q, y);
      }
    }
  }

  /** What the top-1 query hands back: no ids, or the nearest id with its distance. */
  datatype QueryResult = NoIds | Nearest(id: string, distance: real)

  /** The threshold decision: no ids, or a best distance strictly above the threshold,
      means no match; a distance equal to the threshold is accepted. */
  function Accept(res: QueryResult): (r: Option<string>)
    ensures r.Some? <==> res.Nearest? && res.distance <= SimilarityThreshold
    ensures r.Some? ==> r.value == res.id
  {
    match res
    case NoIds => None
    case Nearest(id, d) => if d > SimilarityThreshold then None else Some(id)
  }

  /** The promise of the resolver: no match exactly when the index is empty or every entry
      is farther than the threshold; otherwise an entry of minimum distance. */
  ghost predicate Resolves(idx: Index, dist: Metric, q: Vector, r: Option<string>)
  {
    (r.None? <==> (idx == map[] || forall k :: k in idx ==> dist(q, idx[k]) > SimilarityThreshold)) &&
    (r.Some? ==> IsNearest(idx, dist, q, r.value) && dist(q, idx[r.value]) <= SimilarityThreshold)
  }

  /** Applying the threshold to a correct top-1 answer gives what the resolver promises. */
  lemma AcceptResolves(idx: Index, dist: Metric, q: Vector, res: QueryResult)
    requires res.NoIds? <==> idx == map[]
    requires res.Nearest? ==> IsNearest(idx, dist, q, res.id) && res.distance == dist(q, idx[res.id])
    ensures Resolves(idx, dist, q, Accept(res))
  {
  }

  /** When an entry holds exactly the query vector and the metric puts a vector at distance
      zero from itself and never below zero, the resolver matches, at distance zero. */
  lemma ExactVectorMatches(idx: Index, dist: Metric, q: Vector, n: string, r: Option<string>)
    requires forall v :: dist(v, v) == 0.0
    requires forall u, v :: dist(u, v) >= 0.0
    requires n in idx && idx[n] == q
    requires Resolves(idx, dist, q, r)
    ensures r.Some? && dist(q, idx[r.value]) == 0.0
  {
  }
}
