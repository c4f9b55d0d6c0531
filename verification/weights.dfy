/** Reserve-weighted averages of stablecoin quotes: each quote's weight is its
    WOKT-side reserve divided by the basket's total WOKT-side reserve. */
module Weights {

  /** One stablecoin pair's contribution: its WOKT-side reserve and its USD price of WOKT. */
  datatype Quote = Quote(reserve: real, price: real)

  function TotalReserve(qs: seq<Quote>): real
  {
    if |qs| == 0 then 0.0 else qs[0].reserve + TotalReserve(qs[1..])
  }

  /** The sum of the weights `reserve / total` over the basket. */
  function WeightSum(qs: seq<Quote>, total: real): real
    requires total != 0.0
  {
    if |qs| == 0 then 0.0 else qs[0].reserve / total + WeightSum(qs[1..], total)
  }

  /** The sum of `price * (reserve / total)` over the basket. */
  function WeightedSum(qs: seq<Quote>, total: real): real
    requires total != 0.0
  {
    if |qs| == 0 then 0.0 else qs[0].price * (qs[0].reserve / total) + WeightedSum(qs[1..], total)
  }

  /** The reserve-weighted average price of a basket whose total reserve is not zero. */
  function WeightedPrice(qs: seq<Quote>): real
    requires TotalReserve(qs) != 0.0
  {
    WeightedSum(qs, TotalReserve(qs))
  }

  /** Totals of a two-quote basket, written out. */
  lemma PairOfQuotes(a: Quote, b: Quote, total: real)
    requires total != 0.0
    ensures TotalReserve([a, b]) == a.reserve + b.reserve
    ensures WeightedSum([a, b], total) == a.price * (a.reserve / total) + b.price * (b.reserve / total)
  {
    assert [a, b][1..] == [b];
    assert [b][1..] == [];
    assert TotalReserve([b]) == b.reserve;
    assert WeightedSum([b], total) == b.price * (b.reserve / total);
  }

  /** Totals of a three-quote basket, written out. */
  lemma TripleOfQuotes(a: Quote, b: Quote, c: Quote, total: real)
    requires total != 0.0
    ensures TotalReserve([a, b, c]) == a.reserve + b.reserve + c.reserve
    ensures WeightedSum([a, b, c], total)
         == a.price * (a.reserve / total) + b.price * (b.reserve / total) + c.price * (c.reserve / total)
  {
    assert [a, b, c][1..] == [b, c];
    PairOfQuotes(b, c, total);
  }

  lemma {:induction false} WeightSumIsShare(qs: seq<Quote>, total: real)
    requires total != 0.0
    ensures WeightSum(qs, total) == TotalReserve(qs) / total
  {
    if |qs| > 0 {
      WeightSumIsShare(qs[1..], total);
      assert qs[0].reserve / total + TotalReserve(qs[1..]) / total
          == (qs[0].reserve + TotalReserve(qs[1..])) / total;
    }
  }

  /** The weights of a basket with a nonzero total sum to exactly one. */
  lemma WeightsSumToOne(qs: seq<Quote>)
    requires TotalReserve(qs) != 0.0
    ensures WeightSum(qs, TotalReserve(qs)) == 1.0
  {
    var total := TotalReserve(qs);
    WeightSumIsShare(qs, total);
    assert total / total == 1.0;
  }

  lemma {:induction false} WeightedSumBounds(qs: seq<Quote>, total: real, lo: real, hi: real)
    requires total > 0.0
    requires forall i | 0 <= i < |qs| :: qs[i].reserve >= 0.0 && lo <= qs[i].price <= hi
    ensures lo * WeightSum(qs, total) <= WeightedSum(qs, total) <= hi * WeightSum(qs, total)
  {
    if |qs| > 0 {
      WeightedSumBounds(qs[1..], total, lo, hi);
      var w := qs[0].reserve / total;
      assert w >= 0.0;
      assert lo * w <= qs[0].price * w <= hi * w by {
        assert (qs[0].price - lo) * w >= 0.0;
        assert (hi - qs[0].price) * w >= 0.0;
      }
    }
  }

  /** With nonnegative reserves, the weighted price is a convex combination:
      it lies between the lowest and the highest quoted price. */
  lemma WeightedPriceBetween(qs: seq<Quote>, lo: real, hi: real)
    requires TotalReserve(qs) > 0.0
    requires forall i | 0 <= i < |qs| :: qs[i].reserve >= 0.0 && lo <= qs[i].price <= hi
    ensures lo <= WeightedPrice(qs) <= hi
  {
    WeightedSumBounds(qs, TotalReserve(qs), lo, hi);
    WeightsSumToOne(qs);
  }
}
