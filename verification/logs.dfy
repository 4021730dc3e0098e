/**
 * Event logs built attempt by attempt: each step appends its block of
 * events to what came before.
 */
module Logs {

  /** The blocks f(0), f(1), ..., f(m - 1), one after another. */
  function Blocks<T>(f: nat -> seq<T>, m: nat): seq<T> {
    if m == 0 then [] else Blocks(f, m - 1) + f(m - 1)
  }

  /** When every block holds two entries, the log has 2m entries and block j
      occupies positions 2j and 2j + 1. */
  lemma {:induction false} PairBlocksAt<T>(f: nat -> seq<T>, m: nat, j: nat)
    requires forall i :: 0 <= i < m ==> |f(i)| == 2
    requires j < m
    ensures |Blocks(f, m)| == 2 * m
    ensures Blocks(f, m)[2 * j..2 * j + 2] == f(j)
  {
    PairBlocksLength(f, m - 1);
    if j < m - 1 {
      PairBlocksAt(f, m - 1, j);
      assert Blocks(f, m)[2 * j..2 * j + 2] == Blocks(f, m - 1)[2 * j..2 * j + 2];
    } else {
      assert Blocks(f, m)[2 * j..] == f(j);
    }
  }

  /** When every block holds two entries, m blocks make 2m entries. */
  lemma {:induction false} PairBlocksLength<T>(f: nat -> seq<T>, m: nat)
    requires forall i :: 0 <= i < m ==> |f(i)| == 2
    ensures |Blocks(f, m)| == 2 * m
  {
    if m > 0 {
      PairBlocksLength(f, m - 1);
    }
  }
}
