/** The price a frozen exit asks for - 25 basis points under the bid, rounded down to a cent - against
the band in which the engine accepts a sell: at most 50 basis points under the bid.
*/
module ExitPrices {
  import opened Contracts
  import opened Ledgers
  import opened Accounts

  function ExitPrice(bid: real): real {
    FloorCents(bid * 0.9975)
  }

  predicate InSellBand(price: real, bid: real) {
    bid * 0.995 <= price <= bid
  }

  /** The rounding costs less than a cent. */
  lemma FloorCentsLoss(x: real)
    ensures x - 0.01 < FloorCents(x) <= x
  {
  }

  /** The price is in the band exactly when the whole cents under 99.75 bids reach 99.5 bids. */
  lemma InBandIffCents(bid: real)
    requires 0.0 < bid
    ensures InSellBand(ExitPrice(bid), bid) <==> bid * 99.5 <= (bid * 99.75).Floor as real
  {
    assert bid * 0.9975 * 100.0 == bid * 99.75;
    FloorCentsLoss(bid * 0.9975);
  }

  lemma HighBidsInBand(bid: real)
    requires 398.0 / 99.75 <= bid
    ensures InSellBand(ExitPrice(bid), bid)
  {
    InBandIffCents(bid);
    var cents := (bid * 99.75).Floor;
    assert bid * 99.75 >= 398.0;
    assert bid * 99.75 < cents as real + 1.0;
  }

  /** From 4.00 up, a frozen exit is never refused on its price for the quote it was frozen on. */
  lemma FromFourDollarsInBand(bid: real)
    requires 4.0 <= bid
    ensures InSellBand(ExitPrice(bid), bid)
  {
    HighBidsInBand(bid);
  }

  /** The exact threshold: every bid from `least` up is safe just when `least` is at least 398 / 99.75,
  a little under 3.99. */
  lemma SafeFromIff(least: real)
    requires 0.0 < least
    ensures (forall bid: real | bid >= least :: InSellBand(ExitPrice(bid), bid)) <==> least >= 398.0 / 99.75
  {
    if least >= 398.0 / 99.75 {
      forall bid: real | bid >= least
        ensures InSellBand(ExitPrice(bid), bid)
      {
        HighBidsInBand(bid);
      }
    } else {
      var bid := if least >= 3.98996 then least else 3.98996;
      InBandIffCents(bid);
      assert 397.0 <= bid * 99.75 < 398.0;
      assert (bid * 99.75).Floor == 397;
      assert !InSellBand(ExitPrice(bid), bid);
    }
  }

  /** For bids in whole cents - what a listed share shows - the band is met exactly from 2.00 up. */
  lemma WholeCentsIff(cents: int)
    requires 0 < cents
    ensures InSellBand(ExitPrice(cents as real / 100.0), cents as real / 100.0) <==> cents >= 200
  {
    var bid := cents as real / 100.0;
    InBandIffCents(bid);
    assert bid * 99.75 == cents as real - cents as real / 400.0;
    if cents < 400 {
      assert (bid * 99.75).Floor == cents - 1;
    } else {
      HighBidsInBand(bid);
    }
  }

  /** What `submit` says to the frozen exit while the quote it was frozen on still stands, when the shares are
  there: it is refused on its price exactly when rounding down 99.75 bids to whole cents goes below 99.5. */
  lemma FrozenExitRefusedIff(profile: Profile, plan: Plan, filled: real, quote: Quote, now: int, s: Snapshot)
    requires ValidQuote(quote) && filled <= Quantity(s.positions, plan.entry.symbol)
    ensures SellRefusal(ExitIntent(profile, plan, filled, quote, now), quote, s) ==
            if (quote.bid * 99.75).Floor as real < quote.bid * 99.5 then Some(LimitPriceOutsideBand) else None
  {
    InBandIffCents(quote.bid);
  }

  /** A share under two dollars, bid in whole cents, therefore cannot be sold on that quote. */
  lemma PennyStockExitRefused(profile: Profile, plan: Plan, filled: real, quote: Quote, now: int, s: Snapshot,
                              cents: int)
    requires ValidQuote(quote) && filled <= Quantity(s.positions, plan.entry.symbol)
    requires quote.bid == cents as real / 100.0
    ensures SellRefusal(ExitIntent(profile, plan, filled, quote, now), quote, s) == Some(LimitPriceOutsideBand)
            <==> cents < 200
  {
    WholeCentsIff(cents);
    InBandIffCents(quote.bid);
    FrozenExitRefusedIff(profile, plan, filled, quote, now, s);
  }
}
