/**
 * The portfolio totals of the main page: fiat prices summed over balance
 * records, where a record without a price is skipped and a total over no
 * priced record is absent rather than zero.
 */
module Portfolio {
  import opened Options

  /** A fiat amount, exact and non-negative. */
  type Price = nat

  /**
   * A balance record as the page sees it: its fiat price, if a price feed
   * exists, and whether its chain is embedded in the client (not user-added).
   */
  datatype PricedBalance = PricedBalance(price: Option<Price>, embedded: bool)

  /** An unbonding entry, whose priced balance sits under `viewToken`. */
  datatype UnbondingBalance = UnbondingBalance(viewToken: PricedBalance)

  // ---------------------------------------------------------------------------
  // Reference definitions: which prices a total is made of, and their sum.
  // ---------------------------------------------------------------------------

  /** The prices of the priced records, in order. */
  function PricesOf(bals: seq<PricedBalance>): seq<Price> {
    if bals == [] then []
    else match bals[0].price
      case Some(p) => [p] + PricesOf(bals[1..])
      case None => PricesOf(bals[1..])
  }

  function Sum(xs: seq<Price>): nat {
    if xs == [] then 0 else xs[0] + Sum(xs[1..])
  }

  /** The total the page means: absent when nothing had a price, else the sum. */
  function PricedTotal(bals: seq<PricedBalance>): Option<Price> {
    if PricesOf(bals) == [] then None else Some(Sum(PricesOf(bals)))
  }

  ghost predicate NoPriced(bals: seq<PricedBalance>) {
    forall i :: 0 <= i < |bals| ==> bals[i].price.None?
  }

  /** The records whose chain is embedded, in order. */
  function EmbeddedOnly(bals: seq<PricedBalance>): (r: seq<PricedBalance>)
    ensures |r| <= |bals|
    ensures forall i :: 0 <= i < |r| ==> r[i].embedded
  {
    if bals == [] then []
    else if bals[0].embedded then [bals[0]] + EmbeddedOnly(bals[1..])
    else EmbeddedOnly(bals[1..])
  }

  /** The priced balances of the unbonding entries, in order. */
  function ViewTokens(unbondings: seq<UnbondingBalance>): (r: seq<PricedBalance>)
    ensures |r| == |unbondings|
    ensures forall i :: 0 <= i < |r| ==> r[i] == unbondings[i].viewToken
  {
    if unbondings == [] then [] else [unbondings[0].viewToken] + ViewTokens(unbondings[1..])
  }

  // ---------------------------------------------------------------------------
  // The loops of the page, as left folds over an accumulator.
  // ---------------------------------------------------------------------------

  /**
   * One iteration of a price loop: an absent price leaves the accumulator
   * alone, the first price becomes it, a later price is added to it.
   */
  function AddPrice(result: Option<Price>, price: Option<Price>): (r: Option<Price>)
    ensures r.None? <==> result.None? && price.None?
    ensures r.Some? ==> r.value == result.GetOr(0) + price.GetOr(0)
  {
    match price
    case None => result
    case Some(p) =>
      match result
      case None => Some(p)
      case Some(acc) => Some(acc + p)
  }

  /** `for (const bal of bals) { if (bal.price) … }`, continuing from `result`. */
  function Accumulate(result: Option<Price>, bals: seq<PricedBalance>): (r: Option<Price>)
    ensures r.None? <==> result.None? && NoPriced(bals)
    ensures result.Some? ==> r.Some? && r.value >= result.value
    decreases |bals|
  {
    if bals == [] then result
    else Accumulate(AddPrice(result, bals[0].price), bals[1..])
  }

  /** The same loop, with `continue` for a record whose chain is not embedded. */
  function AccumulateEmbedOnly(result: Option<Price>, bals: seq<PricedBalance>): (r: Option<Price>)
    ensures result.Some? ==> r.Some? && r.value >= result.value
    ensures result.None? && NoPriced(bals) ==> r.None?
    decreases |bals|
  {
    if bals == [] then result
    else if !bals[0].embedded then AccumulateEmbedOnly(result, bals[1..])
    else AccumulateEmbedOnly(AddPrice(result, bals[0].price), bals[1..])
  }

  // ---------------------------------------------------------------------------
  // The four totals of the page.
  // ---------------------------------------------------------------------------

  /** Total over all known balances. */
  function AvailableTotalPrice(bals: seq<PricedBalance>): (r: Option<Price>)
    ensures r == PricedTotal(bals)
  {
    AccumulateMatchesReference(None, bals);
    Accumulate(None, bals)
  }

  /** Total over the known balances of embedded chains. */
  function AvailableTotalPriceEmbedOnly(bals: seq<PricedBalance>): (r: Option<Price>)
    ensures r == PricedTotal(EmbeddedOnly(bals))
  {
    AccumulateEmbedOnlyFilters(None, bals);
    AccumulateMatchesReference(None, EmbeddedOnly(bals));
    AccumulateEmbedOnly(None, bals)
  }

  /** Delegations, then unbondings, folded into one accumulator. */
  function StakedTotalPrice(delegations: seq<PricedBalance>, unbondings: seq<UnbondingBalance>): (r: Option<Price>)
    ensures r == PricedTotal(delegations + ViewTokens(unbondings))
  {
    var afterDelegations := Accumulate(None, delegations);
    AccumulateMatchesReference(None, delegations);
    AccumulateMatchesReference(afterDelegations, ViewTokens(unbondings));
    PricedTotalAppend(delegations, ViewTokens(unbondings));
    Accumulate(afterDelegations, ViewTokens(unbondings))
  }

  /** The staked total restricted to records of embedded chains. */
  function StakedTotalPriceEmbedOnly(delegations: seq<PricedBalance>, unbondings: seq<UnbondingBalance>): (r: Option<Price>)
    ensures r == PricedTotal(EmbeddedOnly(delegations + ViewTokens(unbondings)))
  {
    var afterDelegations := AccumulateEmbedOnly(None, delegations);
    AccumulateEmbedOnlyFilters(None, delegations);
    AccumulateMatchesReference(None, EmbeddedOnly(delegations));
    AccumulateEmbedOnlyFilters(afterDelegations, ViewTokens(unbondings));
    AccumulateMatchesReference(afterDelegations, EmbeddedOnly(ViewTokens(unbondings)));
    EmbeddedOnlyAppend(delegations, ViewTokens(unbondings));
    PricedTotalAppend(EmbeddedOnly(delegations), EmbeddedOnly(ViewTokens(unbondings)));
    AccumulateEmbedOnly(afterDelegations, ViewTokens(unbondings))
  }

  // ---------------------------------------------------------------------------
  // Lemmas.
  // ---------------------------------------------------------------------------

  lemma AddPriceAssociative(a: Option<Price>, b: Option<Price>, c: Option<Price>)
    ensures AddPrice(AddPrice(a, b), c) == AddPrice(a, AddPrice(b, c))
  {
  }

  /** Unfolding the reference total at the first record. */
  lemma PricedTotalCons(bals: seq<PricedBalance>)
    requires bals != []
    ensures PricedTotal(bals) == AddPrice(bals[0].price, PricedTotal(bals[1..]))
  {
  }

  lemma {:induction false} SumAppend(xs: seq<Price>, ys: seq<Price>)
    ensures Sum(xs + ys) == Sum(xs) + Sum(ys)
  {
    if xs == [] {
      assert xs + ys == ys;
    } else {
      assert (xs + ys)[1..] == xs[1..] + ys;
      SumAppend(xs[1..], ys);
    }
  }

  lemma {:induction false} PricesOfAppend(a: seq<PricedBalance>, b: seq<PricedBalance>)
    ensures PricesOf(a + b) == PricesOf(a) + PricesOf(b)
  {
    if a == [] {
      assert a + b == b;
    } else {
      assert (a + b)[1..] == a[1..] + b;
      PricesOfAppend(a[1..], b);
    }
  }

  /** The total of a concatenation combines the totals of the parts. */
  lemma PricedTotalAppend(a: seq<PricedBalance>, b: seq<PricedBalance>)
    ensures PricedTotal(a + b) == AddPrice(PricedTotal(a), PricedTotal(b))
  {
    PricesOfAppend(a, b);
    SumAppend(PricesOf(a), PricesOf(b));
  }

  lemma {:induction false} EmbeddedOnlyAppend(a: seq<PricedBalance>, b: seq<PricedBalance>)
    ensures EmbeddedOnly(a + b) == EmbeddedOnly(a) + EmbeddedOnly(b)
  {
    if a == [] {
      assert a + b == b;
    } else {
      assert (a + b)[1..] == a[1..] + b;
      EmbeddedOnlyAppend(a[1..], b);
    }
  }

  /** The page's loop computes the reference total, continuing from `result`. */
  lemma {:induction false} AccumulateMatchesReference(result: Option<Price>, bals: seq<PricedBalance>)
    ensures Accumulate(result, bals) == AddPrice(result, PricedTotal(bals))
    decreases |bals|
  {
    if bals != [] {
      AccumulateMatchesReference(AddPrice(result, bals[0].price), bals[1..]);
      AddPriceAssociative(result, bals[0].price, PricedTotal(bals[1..]));
      PricedTotalCons(bals);
    }
  }

  /** Skipping non-embedded records is folding over the embedded subsequence. */
  lemma {:induction false} AccumulateEmbedOnlyFilters(result: Option<Price>, bals: seq<PricedBalance>)
    ensures AccumulateEmbedOnly(result, bals) == Accumulate(result, EmbeddedOnly(bals))
    decreases |bals|
  {
    if bals != [] {
      if bals[0].embedded {
        AccumulateEmbedOnlyFilters(AddPrice(result, bals[0].price), bals[1..]);
        assert EmbeddedOnly(bals)[0] == bals[0];
        assert EmbeddedOnly(bals)[1..] == EmbeddedOnly(bals[1..]);
      } else {
        AccumulateEmbedOnlyFilters(result, bals[1..]);
      }
    }
  }

  lemma {:induction false} PricesOfEmptyIffNoPriced(bals: seq<PricedBalance>)
    ensures PricesOf(bals) == [] <==> NoPriced(bals)
  {
    if bals != [] {
      PricesOfEmptyIffNoPriced(bals[1..]);
      assert forall i :: 1 <= i < |bals| ==> bals[i] == bals[1..][i - 1];
    }
  }

  /** Absent exactly when no record has a price; never coerced to zero. */
  lemma TotalAbsentIffNoPriced(bals: seq<PricedBalance>)
    ensures AvailableTotalPrice(bals).None? <==> NoPriced(bals)
    ensures AvailableTotalPrice(bals).Some? ==> AvailableTotalPrice(bals).value == Sum(PricesOf(bals))
  {
    PricesOfEmptyIffNoPriced(bals);
  }

  lemma {:induction false} SumZeroIffAllZero(xs: seq<Price>)
    ensures Sum(xs) == 0 <==> AllZero(xs)
  {
    if xs != [] {
      SumZeroIffAllZero(xs[1..]);
      assert forall i :: 1 <= i < |xs| ==> xs[i] == xs[1..][i - 1];
    }
  }

  ghost predicate AllZero(xs: seq<Price>) {
    forall i :: 0 <= i < |xs| ==> xs[i] == 0
  }

  lemma AllZeroCons(x: Price, xs: seq<Price>)
    ensures AllZero([x] + xs) <==> x == 0 && AllZero(xs)
  {
    if x == 0 && AllZero(xs) {
      forall i | 0 <= i < |[x] + xs|
        ensures ([x] + xs)[i] == 0
      {
        if i > 0 { assert ([x] + xs)[i] == xs[i - 1]; }
      }
    }
    if AllZero([x] + xs) {
      assert ([x] + xs)[0] == x;
      forall i | 0 <= i < |xs|
        ensures xs[i] == 0
      {
        assert ([x] + xs)[i + 1] == xs[i];
      }
    }
  }

  /** Every priced record is priced zero. */
  ghost predicate PricedAtZero(bals: seq<PricedBalance>) {
    forall i :: 0 <= i < |bals| && bals[i].price.Some? ==> bals[i].price.value == 0
  }

  lemma {:induction false} PricesOfAllZero(bals: seq<PricedBalance>)
    ensures AllZero(PricesOf(bals)) <==> PricedAtZero(bals)
  {
    if bals != [] {
      var rest := PricesOf(bals[1..]);
      PricesOfAllZero(bals[1..]);
      assert PricedAtZero(bals) <==> (bals[0].price.Some? ==> bals[0].price.value == 0) && PricedAtZero(bals[1..]) by {
        assert forall i :: 1 <= i < |bals| ==> bals[i] == bals[1..][i - 1];
      }
      if bals[0].price.Some? {
        var ps := PricesOf(bals);
        assert ps == [bals[0].price.value] + rest;
        AllZeroCons(bals[0].price.value, rest);
      }
    }
  }

  /**
   * A known zero is kept apart from unknown: the total is a present zero
   * exactly when some record is priced and every priced record is priced 0.
   */
  lemma ZeroPricedCountsAsPresent(bals: seq<PricedBalance>)
    ensures AvailableTotalPrice(bals) == Some(0)
        <==> !NoPriced(bals) && PricedAtZero(bals)
  {
    PricesOfEmptyIffNoPriced(bals);
    SumZeroIffAllZero(PricesOf(bals));
    PricesOfAllZero(bals);
  }

  /** When every chain is embedded, the embed-only total is the full total. */
  lemma {:induction false} AllEmbeddedKeepsTotal(bals: seq<PricedBalance>)
    requires forall i :: 0 <= i < |bals| ==> bals[i].embedded
    ensures EmbeddedOnly(bals) == bals
    ensures AvailableTotalPriceEmbedOnly(bals) == AvailableTotalPrice(bals)
  {
    if bals != [] {
      AllEmbeddedKeepsTotal(bals[1..]);
    }
  }

  /** Dropping records can only lose prices: embed-only never exceeds the total. */
  lemma EmbedOnlyBoundedByTotal(bals: seq<PricedBalance>)
    ensures AvailableTotalPriceEmbedOnly(bals).Some? ==> AvailableTotalPrice(bals).Some?
    ensures AvailableTotalPriceEmbedOnly(bals).Some?
        ==> AvailableTotalPriceEmbedOnly(bals).value <= AvailableTotalPrice(bals).value
  {
    EmbeddedOnlyPart(bals);
  }

  /** The embedded records' total plus the others' is the whole total. */
  lemma {:induction false} EmbeddedOnlyPart(bals: seq<PricedBalance>)
    ensures PricedTotal(bals) == AddPrice(PricedTotal(EmbeddedOnly(bals)), PricedTotal(NotEmbedded(bals)))
  {
    if bals != [] {
      EmbeddedOnlyPart(bals[1..]);
      PricedTotalCons(bals);
      if bals[0].embedded {
        assert EmbeddedOnly(bals) == [bals[0]] + EmbeddedOnly(bals[1..]);
        PricedTotalCons(EmbeddedOnly(bals));
        assert EmbeddedOnly(bals)[1..] == EmbeddedOnly(bals[1..]);
        AddPriceAssociative(bals[0].price, PricedTotal(EmbeddedOnly(bals[1..])), PricedTotal(NotEmbedded(bals[1..])));
      } else {
        assert NotEmbedded(bals) == [bals[0]] + NotEmbedded(bals[1..]);
        PricedTotalCons(NotEmbedded(bals));
        assert NotEmbedded(bals)[1..] == NotEmbedded(bals[1..]);
        AddPriceAssociative(PricedTotal(EmbeddedOnly(bals[1..])), bals[0].price, PricedTotal(NotEmbedded(bals[1..])));
        AddPriceAssociative(bals[0].price, PricedTotal(EmbeddedOnly(bals[1..])), PricedTotal(NotEmbedded(bals[1..])));
      }
    }
  }

  /** The records whose chain is not embedded, in order. */
  function NotEmbedded(bals: seq<PricedBalance>): seq<PricedBalance> {
    if bals == [] then []
    else if bals[0].embedded then NotEmbedded(bals[1..])
    else [bals[0]] + NotEmbedded(bals[1..])
  }

  /**
   * The staked total combines the delegations' total with the unbondings'
   * total, and is absent only when neither has a priced record.
   */
  lemma StakedTotalCombinesParts(delegations: seq<PricedBalance>, unbondings: seq<UnbondingBalance>)
    ensures StakedTotalPrice(delegations, unbondings)
         == AddPrice(AvailableTotalPrice(delegations), AvailableTotalPrice(ViewTokens(unbondings)))
    ensures StakedTotalPrice(delegations, unbondings).None?
        <==> NoPriced(delegations) && NoPriced(ViewTokens(unbondings))
  {
    PricedTotalAppend(delegations, ViewTokens(unbondings));
    TotalAbsentIffNoPriced(delegations);
    TotalAbsentIffNoPriced(ViewTokens(unbondings));
  }

  /** The embed-only staked total is the staked total of the embedded records. */
  lemma StakedEmbedOnlyFilters(delegations: seq<PricedBalance>, unbondings: seq<UnbondingBalance>)
    ensures StakedTotalPriceEmbedOnly(delegations, unbondings)
         == AvailableTotalPrice(EmbeddedOnly(delegations) + EmbeddedOnly(ViewTokens(unbondings)))
  {
    EmbeddedOnlyAppend(delegations, ViewTokens(unbondings));
  }
}
