/** The price series a holding is sold against, and the sale proceeds. Prices
    are in hundredths, since the series is rounded to two decimals. */
module Market {

  /** One candle of the chart, each price in hundredths. */
  datatype Candle = Candle(open: int, high: int, low: int, close: int)

  /** How many candles a purchase opens. */
  const SeriesLength: nat := 50

  /** The series a purchase opens: fifty candles, each opening at the
      previous close, every close positive and every candle's low and high
      bracketing its open and close. */
  predicate PriceSeries(candles: seq<Candle>) {
    && |candles| == SeriesLength
    && candles[0].open > 0
    && (forall i :: 0 <= i < |candles| ==>
          && candles[i].close > 0
          && candles[i].low <= candles[i].open && candles[i].low <= candles[i].close
          && candles[i].open <= candles[i].high && candles[i].close <= candles[i].high)
    && (forall i :: 0 < i < |candles| ==> candles[i].open == candles[i - 1].close)
  }

  /** The cash a sale brings: the value invested scaled by the ratio of the
      chosen close to the first close, truncated to whole yen. */
  function SaleProceeds(invested: int, close: int, firstClose: int): (r: int)
    requires invested >= 0 && close > 0 && firstClose > 0
    ensures r >= 0
    ensures r * firstClose <= invested * close < (r + 1) * firstClose
  {
    invested * close / firstClose
  }

  /** Scaling both sides of an inequality by a non-negative factor. */
  lemma ScaleLe(a: int, x: int, y: int)
    requires a >= 0 && x <= y
    ensures a * x <= a * y
  {
    assert a * y - a * x == a * (y - x);
  }

  /** Scaling both sides of a strict inequality by a positive factor. */
  lemma ScaleLt(a: int, x: int, y: int)
    requires a > 0 && x < y
    ensures a * x < a * y
  {
    assert a * y - a * x == a * (y - x);
  }

  /** Dropping a common positive factor from a strict inequality. */
  lemma CancelLt(x: int, y: int, c: int)
    requires c > 0 && x * c < y * c
    ensures x < y
  {
    if y <= x {
      ScaleLe(c, y, x);
    }
  }

  /** Selling at the first close returns exactly what was invested, and a
      sale is at least the value invested exactly when the price has not
      fallen below the first close. */
  lemma ProceedsAgainstInvested(invested: int, close: int, firstClose: int)
    requires invested > 0 && close > 0 && firstClose > 0
    ensures close == firstClose ==> SaleProceeds(invested, close, firstClose) == invested
    ensures SaleProceeds(invested, close, firstClose) >= invested <==> close >= firstClose
  {
    var r := SaleProceeds(invested, close, firstClose);
    if close >= firstClose {
      ScaleLe(invested, firstClose, close);
      CancelLt(invested, r + 1, firstClose);
      if close == firstClose {
        assert (invested + 1) * firstClose == invested * firstClose + firstClose;
        CancelLt(r, invested + 1, firstClose);
      }
    } else {
      ScaleLt(invested, close, firstClose);
      CancelLt(r, invested, firstClose);
    }
  }

  /** A higher close never brings less. */
  lemma ProceedsMonotone(invested: int, close: int, higher: int, firstClose: int)
    requires invested >= 0 && 0 < close <= higher && firstClose > 0
    ensures SaleProceeds(invested, close, firstClose) <= SaleProceeds(invested, higher, firstClose)
  {
    var r := SaleProceeds(invested, close, firstClose);
    var s := SaleProceeds(invested, higher, firstClose);
    ScaleLe(invested, close, higher);
    CancelLt(r, s + 1, firstClose);
  }
}
