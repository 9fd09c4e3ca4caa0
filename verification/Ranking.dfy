/** SELECT ... ORDER BY rank LIMIT limit, over the rows that passed the WHERE clause. */
module Ranking {
  /** chosen lists distinct keys of least rank, in rank order, as many as the limit allows. */
  ghost predicate Chosen<K(!new)>(rank: map<K, int>, limit: nat, chosen: seq<K>) {
    && (forall k <- chosen :: k in rank)
    && (forall i, j | 0 <= i < j < |chosen| :: chosen[i] != chosen[j] && rank[chosen[i]] <= rank[chosen[j]])
    && |chosen| <= limit
    && (forall k <- rank.Keys :: k !in chosen ==> |chosen| == limit && forall c <- chosen :: rank[c] <= rank[k])
  }

  method Least<K(==)>(rank: map<K, int>, todo: set<K>) returns (best: K)
    requires todo != {} && todo <= rank.Keys
    ensures best in todo && forall k <- todo :: rank[best] <= rank[k]
  {
    best :| best in todo;
    var rest := todo - {best};
    while rest != {}
      invariant best in todo && rest <= todo
      invariant forall k <- todo :: k in rest || rank[best] <= rank[k]
      decreases |rest|
    {
      var k :| k in rest;
      if rank[k] < rank[best] {
        best := k;
      }
      rest := rest - {k};
    }
  }

  method Choose<K(!new, ==)>(rank: map<K, int>, limit: nat) returns (chosen: seq<K>)
    ensures Chosen(rank, limit, chosen)
  {
    chosen := [];
    var todo := rank.Keys;
    while todo != {} && |chosen| < limit
      invariant todo <= rank.Keys && |chosen| <= limit
      invariant forall k <- chosen :: k in rank && k !in todo
      invariant forall i, j | 0 <= i < j < |chosen| :: chosen[i] != chosen[j] && rank[chosen[i]] <= rank[chosen[j]]
      invariant forall k <- todo, c <- chosen :: rank[c] <= rank[k]
      invariant forall k <- rank.Keys :: k in todo || k in chosen
      decreases |todo|
    {
      var best := Least(rank, todo);
      chosen, todo := chosen + [best], todo - {best};
    }
  }
}
