/**
 * The four bucket totals of the builder. Each is a filter of the payout's
 * transactions by bucket followed by a left fold that adds up one field,
 * starting from 0.
 */
module Totals {
  import opened Ledger
  import opened Classifier

  /** The transactions of one bucket, in their original order. */
  function Filter(ts: seq<Transaction>, b: Bucket): (r: seq<Transaction>)
    ensures |r| <= |ts|
  {
    if ts == [] then []
    else
      var rest := Filter(ts[..|ts| - 1], b);
      var last := ts[|ts| - 1];
      assert ts == ts[..|ts| - 1] + [last];
      if BucketOf(last) == b then rest + [last] else rest
  }

  /** A bucket's filter keeps exactly the transactions of that bucket. */
  lemma {:induction false} FilterMembers(ts: seq<Transaction>, b: Bucket)
    ensures forall t :: t in Filter(ts, b) <==> t in ts && BucketOf(t) == b
  {
    if ts != [] {
      var init, last := ts[..|ts| - 1], ts[|ts| - 1];
      FilterMembers(init, b);
      assert ts == init + [last];
    }
  }

  /** The fold `carry + amount` over a sequence, from the left. */
  function SumAmounts(ts: seq<Transaction>): int
  {
    if ts == [] then 0 else SumAmounts(ts[..|ts| - 1]) + ts[|ts| - 1].amount
  }

  /** The fold `carry + fee` over a sequence, from the left. */
  function SumFees(ts: seq<Transaction>): int
  {
    if ts == [] then 0 else SumFees(ts[..|ts| - 1]) + ts[|ts| - 1].fee
  }

  /** The fold over a concatenation is the sum of the folds over its parts. */
  lemma {:induction false} SumAmountsAppend(a: seq<Transaction>, b: seq<Transaction>)
    ensures SumAmounts(a + b) == SumAmounts(a) + SumAmounts(b)
  {
    if b != [] {
      var init := b[..|b| - 1];
      SumAmountsAppend(a, init);
      assert (a + b)[..|a + b| - 1] == a + init;
    } else {
      assert a + b == a;
    }
  }

  /** The fold over a concatenation is the sum of the folds over its parts. */
  lemma {:induction false} SumFeesAppend(a: seq<Transaction>, b: seq<Transaction>)
    ensures SumFees(a + b) == SumFees(a) + SumFees(b)
  {
    if b != [] {
      var init := b[..|b| - 1];
      SumFeesAppend(a, init);
      assert (a + b)[..|a + b| - 1] == a + init;
    } else {
      assert a + b == a;
    }
  }

  /** The bucket a transaction is not in. */
  function Other(b: Bucket): Bucket
  {
    if b == Sponsorship then Sale else Sponsorship
  }

  /** The amounts of one bucket; together with the other bucket's they make up the sum of all amounts. */
  function AmountTotal(ts: seq<Transaction>, b: Bucket): (r: int)
    ensures r + SumAmounts(Filter(ts, Other(b))) == SumAmounts(ts)
  {
    AmountTotalsPartition(ts);
    SumAmounts(Filter(ts, b))
  }

  /** The fees of one bucket; together with the other bucket's they make up the sum of all fees. */
  function FeeTotal(ts: seq<Transaction>, b: Bucket): (r: int)
    ensures r + SumFees(Filter(ts, Other(b))) == SumFees(ts)
  {
    FeeTotalsPartition(ts);
    SumFees(Filter(ts, b))
  }

  /** Every transaction lands in exactly one bucket, each as often as it occurs. */
  lemma {:induction false} FilterPartitions(ts: seq<Transaction>)
    ensures multiset(Filter(ts, Sponsorship)) + multiset(Filter(ts, Sale)) == multiset(ts)
    ensures |Filter(ts, Sponsorship)| + |Filter(ts, Sale)| == |ts|
  {
    if ts != [] {
      var init, last := ts[..|ts| - 1], ts[|ts| - 1];
      FilterPartitions(init);
      assert ts == init + [last];
      assert multiset(ts) == multiset(init) + multiset{last};
      var sp, sa := Filter(init, Sponsorship), Filter(init, Sale);
      if BucketOf(last) == Sponsorship {
        assert Filter(ts, Sponsorship) == sp + [last] && Filter(ts, Sale) == sa;
        assert multiset(sp + [last]) == multiset(sp) + multiset{last};
      } else {
        assert Filter(ts, Sale) == sa + [last] && Filter(ts, Sponsorship) == sp;
        assert multiset(sa + [last]) == multiset(sa) + multiset{last};
      }
    }
  }

  /** The amount totals of the two buckets add up to the sum of all amounts. */
  lemma {:induction false} AmountTotalsPartition(ts: seq<Transaction>)
    ensures SumAmounts(Filter(ts, Sponsorship)) + SumAmounts(Filter(ts, Sale)) == SumAmounts(ts)
  {
    if ts != [] {
      var init := ts[..|ts| - 1];
      var last := ts[|ts| - 1];
      AmountTotalsPartition(init);
      var sp, sa := Filter(init, Sponsorship), Filter(init, Sale);
      if BucketOf(last) == Sponsorship {
        assert Filter(ts, Sponsorship) == sp + [last];
        assert (sp + [last])[..|sp|] == sp;
      } else {
        assert Filter(ts, Sale) == sa + [last];
        assert (sa + [last])[..|sa|] == sa;
      }
    }
  }

  /** The fee totals of the two buckets add up to the sum of all fees. */
  lemma {:induction false} FeeTotalsPartition(ts: seq<Transaction>)
    ensures SumFees(Filter(ts, Sponsorship)) + SumFees(Filter(ts, Sale)) == SumFees(ts)
  {
    if ts != [] {
      var init := ts[..|ts| - 1];
      var last := ts[|ts| - 1];
      FeeTotalsPartition(init);
      var sp, sa := Filter(init, Sponsorship), Filter(init, Sale);
      if BucketOf(last) == Sponsorship {
        assert Filter(ts, Sponsorship) == sp + [last];
        assert (sp + [last])[..|sp|] == sp;
      } else {
        assert Filter(ts, Sale) == sa + [last];
        assert (sa + [last])[..|sa|] == sa;
      }
    }
  }
}
