/** The static shape of a compiled `StateGraph`: the edges its builder declared. */
module Graphs {

  /** `add_edge(src, dst)`, or `add_conditional_edges(src, router, targets)` with the targets
      the router may pick or dispatch to. */
  datatype Edge<N> = Direct(src: N, dst: N) | Conditional(src: N, targets: set<N>)

  /** The nodes an edge declares as possible next steps from `n`. */
  function EdgeTargets<N(==)>(e: Edge<N>, n: N): set<N> {
    match e
    case Direct(a, b) => if a == n then {b} else {}
    case Conditional(a, ts) => if a == n then ts else {}
  }

  function Successors<N(==)>(edges: seq<Edge<N>>, n: N): set<N> {
    if |edges| == 0 then {} else EdgeTargets(edges[0], n) + Successors(edges[1..], n)
  }

  /** `m` may follow `n` exactly when some declared edge allows it. */
  lemma {:induction false} SuccessorsSound<N>(edges: seq<Edge<N>>, n: N, m: N)
    ensures m in Successors(edges, n) <==> exists i :: 0 <= i < |edges| && m in EdgeTargets(edges[i], n)
  {
    if |edges| > 0 {
      SuccessorsSound(edges[1..], n, m);
      if m in Successors(edges[1..], n) {
        var i :| 0 <= i < |edges| - 1 && m in EdgeTargets(edges[1..][i], n);
        assert m in EdgeTargets(edges[i + 1], n);
      }
      if exists i :: 0 <= i < |edges| && m in EdgeTargets(edges[i], n) {
        var i :| 0 <= i < |edges| && m in EdgeTargets(edges[i], n);
        if i > 0 {
          assert m in EdgeTargets(edges[1..][i - 1], n);
        }
      }
    }
  }

  /** Declaring edges in two batches allows the union of what each batch allows. */
  lemma {:induction false} SuccessorsAppend<N>(a: seq<Edge<N>>, b: seq<Edge<N>>, n: N)
    ensures Successors(a + b, n) == Successors(a, n) + Successors(b, n)
    decreases |a|
  {
    if |a| > 0 {
      assert (a + b)[1..] == a[1..] + b;
      SuccessorsAppend(a[1..], b, n);
    } else {
      assert a + b == b;
    }
  }
}
