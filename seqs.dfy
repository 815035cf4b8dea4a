/**
 * Small facts about sequences that the list-building loops rely on, and about
 * increasing lists of indices, where a position and the index it holds can differ.
 */
module Seqs {

  lemma Associative<T>(a: seq<T>, b: seq<T>, c: seq<T>)
    ensures (a + b) + c == a + (b + c)
  {
  }

  /** The entries strictly increase from left to right. */
  predicate Increasing(ids: seq<nat>) {
    forall a, b :: 0 <= a < b < |ids| ==> ids[a] < ids[b]
  }

  /**
   * In an increasing list of naturals, entry k is at least its position k,
   * and equals it exactly when every smaller value is listed.
   */
  lemma PositionAtMostValue(ids: seq<nat>, k: nat)
    requires Increasing(ids) && k < |ids|
    ensures k <= ids[k]
    ensures k == ids[k] <==> forall i :: 0 <= i < ids[k] ==> i in ids
  {
    AtLeastPosition(ids, k);
    if k == ids[k] {
      forall i | 0 <= i < k
        ensures i in ids
      {
        TightPrefix(ids, k, i);
        assert ids[i] == i;
      }
    }
    if forall i :: 0 <= i < ids[k] ==> i in ids {
      NoGap(ids, k);
    }
  }

  lemma {:induction false} AtLeastPosition(ids: seq<nat>, k: nat)
    requires Increasing(ids)
    requires k < |ids|
    ensures k <= ids[k]
  {
    if k > 0 {
      AtLeastPosition(ids, k - 1);
    }
  }

  /** In an increasing list of naturals with ids[k] == k, every earlier entry is its own position. */
  lemma {:induction false} TightPrefix(ids: seq<nat>, k: nat, i: nat)
    requires Increasing(ids)
    requires i < k < |ids| && ids[k] == k
    ensures ids[i] == i
    decreases k - i
  {
    AtLeastPosition(ids, i);
    if i + 1 < k {
      TightPrefix(ids, k, i + 1);
    }
  }

  /** In an increasing list of naturals, an entry with every smaller value listed sits at its own position. */
  lemma {:induction false} NoGap(ids: seq<nat>, k: nat)
    requires Increasing(ids)
    requires k < |ids| && forall i :: 0 <= i < ids[k] ==> i in ids
    ensures ids[k] == k
  {
    AtLeastPosition(ids, k);
    if k > 0 {
      assert ids[k - 1] < ids[k];
      NoGap(ids, k - 1);
    }
    SkippedValueMissing(ids, k);
  }

  /** When the entries before k are their own positions and ids[k] jumps past k, the value k is not listed. */
  lemma SkippedValueMissing(ids: seq<nat>, k: nat)
    requires Increasing(ids)
    requires k < |ids| && (k > 0 ==> ids[k - 1] == k - 1)
    ensures k < ids[k] ==> k !in ids
  {
    if k < ids[k] {
      forall a | 0 <= a < |ids|
        ensures ids[a] != k
      {
        if a < k - 1 {
          assert ids[a] < ids[k - 1];
        } else if a > k {
          assert ids[k] < ids[a];
        }
      }
    }
  }
}
