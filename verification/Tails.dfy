/** The last entries of a list, as bounded logs keep them. */
module Tails {

  function Tail<T>(s: seq<T>, limit: nat): (kept: seq<T>)
    ensures |kept| == if |s| < limit then |s| else limit
  {
    if |s| <= limit then s else s[|s| - limit..]
  }

  /** Trimming before more is appended loses nothing that trimming afterwards would keep. */
  lemma TrimEarly<T>(s: seq<T>, more: seq<T>, limit: nat)
    ensures Tail(Tail(s, limit) + more, limit) == Tail(s + more, limit)
  {
    if |s| > limit {
      assert s + more == s[..|s| - limit] + (Tail(s, limit) + more);
    }
  }
}
