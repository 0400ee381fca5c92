/**
 Order-preserving selection: the positions of a query's rows that pass a
 filter. The scene extraction pushes one GPU record per passing row, in query
 order; this module is the reference those buffers are compared with.
 */
module Selection {

  /** The positions `i` with `keep(s[i])`, in increasing order. */
  function Indices<T>(s: seq<T>, keep: T -> bool): (idx: seq<nat>)
    ensures |idx| <= |s|
    ensures forall k :: 0 <= k < |idx| ==> idx[k] < |s| && keep(s[idx[k]])
    ensures forall k, l :: 0 <= k < l < |idx| ==> idx[k] < idx[l]
    ensures forall i :: 0 <= i < |s| && keep(s[i]) ==> i in idx
    decreases |s|
  {
    if |s| == 0 then []
    else Indices(s[..|s| - 1], keep) + (if keep(s[|s| - 1]) then [|s| - 1] else [])
  }

  /** Number of rows that pass the filter. */
  function Count<T>(s: seq<T>, keep: T -> bool): (n: nat)
    ensures n <= |s|
    ensures n == 0 <==> forall i :: 0 <= i < |s| ==> !keep(s[i])
    ensures n == |s| <==> forall i :: 0 <= i < |s| ==> keep(s[i])
    decreases |s|
  {
    if |s| == 0 then 0
    else Count(s[..|s| - 1], keep) + (if keep(s[|s| - 1]) then 1 else 0)
  }

  /** The two views agree: as many positions are selected as rows pass. */
  lemma {:induction false} CountIsIndicesLength<T>(s: seq<T>, keep: T -> bool)
    ensures |Indices(s, keep)| == Count(s, keep)
    decreases |s|
  {
    if |s| > 0 {
      CountIsIndicesLength(s[..|s| - 1], keep);
    }
  }
}
