/** Switching tariffs in the middle of a paid period (services/order_service.py,
    calculate_tariff_change), over exact rationals with rounding half to even. */
module TariffChange {
  import opened Options

  datatype Tariff = Tariff(price: nat, days: int)

  const DAY := 86400.0
  const SAME_RATE := 0.000001
  const FALLBACK_DAYS := 30

  function Times(x: real, y: real): real {
    x * y
  }

  function Over(x: real, y: real): real
    requires y != 0.0
  {
    x / y
  }

  function Abs(x: real): real {
    if x < 0.0 then -x else x
  }

  function Ceil(x: real): int {
    -((-x).Floor)
  }

  function Round(x: real): int {
    var f := x.Floor;
    var d := x - f as real;
    if d < 0.5 then f else if d > 0.5 then f + 1 else if f % 2 == 0 then f else f + 1
  }

  function Cycle(t: Tariff): (r: int)
    ensures r > 0
  {
    if t.days > 0 then t.days else FALLBACK_DAYS
  }

  /** What one day of a tariff costs. */
  function Daily(t: Tariff): real {
    Over(t.price as real, Cycle(t) as real)
  }

  predicate Priced(t: Tariff) {
    t.price > 0 && Daily(t) > 0.0
  }

  /** Days left, started days counted whole. */
  function DaysLeft(end: real, now: real): int {
    Ceil(Over(end - now, DAY))
  }

  /** The unspent part of the current tariff in whole roubles. */
  function Remaining(cur: Tariff, left: int): int {
    Round(Times(left as real, Daily(cur)))
  }

  predicate SameRate(cur: Tariff, tgt: Tariff) {
    Abs(Daily(cur) - Daily(tgt)) < SAME_RATE
  }

  datatype Quote = Quote(due: int, days: int)

  /** The unspent value as days of the target tariff. */
  function Converted(tgt: Tariff, rest: int): int
    requires Daily(tgt) != 0.0
  {
    Round(Over(rest as real, Daily(tgt)))
  }

  function Switch(cur: Tariff, tgt: Tariff, left: int): Quote
    requires Priced(tgt)
  {
    var rest := Remaining(cur, left);
    if rest >= tgt.price then
      if SameRate(cur, tgt) then Quote(0, left)
      else Quote(0, if Converted(tgt, rest) < 1 then 1 else Converted(tgt, rest))
    else Quote(if tgt.price - rest < 0 then 0 else tgt.price - rest, tgt.days)
  }

  /** Without a running paid tariff there is nothing to convert. */
  function CalculateTariffChange(cur: Option<Tariff>, tgt: Tariff, end: Option<real>, now: real): Quote {
    if end == None || end.value <= now || cur == None then Quote(tgt.price, tgt.days)
    else if DaysLeft(end.value, now) <= 0 then Quote(tgt.price, tgt.days)
    else if cur.value.price == 0 || tgt.price == 0 then Quote(tgt.price, tgt.days)
    else
      PricedIs(tgt);
      Switch(cur.value, tgt, DaysLeft(end.value, now))
  }

  // ----- arithmetic

  lemma TimesOrder(x: real, y: real, z: real)
    requires z > 0.0
    ensures x <= y <==> Times(x, z) <= Times(y, z)
  {
    assert (y - x) * z == y * z - x * z;
    if x <= y { assert (y - x) * z >= 0.0; } else { assert (y - x) * z < 0.0; }
  }

  lemma OverTimes(x: real, y: real)
    requires y != 0.0
    ensures Times(Over(x, y), y) == x
  {
  }

  lemma OverOrder(x: real, y: real, z: real)
    requires z > 0.0
    ensures x <= y <==> Over(x, z) <= Over(y, z)
  {
    OverTimes(x, z);
    OverTimes(y, z);
    TimesOrder(Over(x, z), Over(y, z), z);
  }

  lemma RoundIsNear(x: real)
    ensures Abs(x - Round(x) as real) <= 0.5
  {
  }

  lemma RoundMonotone(x: real, y: real)
    requires x <= y
    ensures Round(x) <= Round(y)
  {
    assert x.Floor <= y.Floor;
  }

  lemma RoundReaches(x: real, n: int)
    requires x >= n as real
    ensures Round(x) >= n
  {
    assert x.Floor >= n;
  }

  lemma DistanceScales(x: real, y: real, z: real)
    requires z > 0.0
    ensures Times(Abs(x - y), z) == Abs(Times(x, z) - Times(y, z))
  {
    assert (x - y) * z == x * z - y * z;
    assert (y - x) * z == y * z - x * z;
    if x < y { TimesOrder(x, y, z); } else { TimesOrder(y, x, z); }
  }

  /** Rounding a number of days costs at most half a day's price. */
  lemma RoundedDays(value: real, rate: real)
    requires rate > 0.0
    ensures Abs(Times(Round(Over(value, rate)) as real, rate) - value) <= rate / 2.0
  {
    hide Round, Abs, Over;
    var x := Over(value, rate);
    var r := Round(x) as real;
    OverTimes(value, rate);
    RoundIsNear(x);
    AbsMirrors(x, r);
    DistanceScales(r, x, rate);
    TimesOrder(Abs(r - x), 0.5, rate);
    assert Times(0.5, rate) == rate / 2.0;
  }

  lemma AbsMirrors(x: real, y: real)
    ensures Abs(x - y) == Abs(y - x)
  {
  }

  // ----- rates and unspent value

  lemma DailyIs(t: Tariff)
    ensures Times(Daily(t), Cycle(t) as real) == t.price as real
  {
    OverTimes(t.price as real, Cycle(t) as real);
  }

  lemma PricedIs(t: Tariff)
    ensures Priced(t) <==> t.price > 0
    ensures Daily(t) >= 0.0
  {
    OverOrder(0.0, t.price as real, Cycle(t) as real);
    OverOrder(t.price as real, 0.0, Cycle(t) as real);
    assert Over(0.0, Cycle(t) as real) == 0.0;
  }

  lemma RemainingMonotone(cur: Tariff, d1: int, d2: int)
    requires Priced(cur) && d1 <= d2
    ensures Remaining(cur, d1) <= Remaining(cur, d2)
  {
    hide Times, Round, Daily;
    TimesOrder(d1 as real, d2 as real, Daily(cur));
    RoundMonotone(Times(d1 as real, Daily(cur)), Times(d2 as real, Daily(cur)));
  }

  lemma RemainingNonNegative(cur: Tariff, left: int)
    requires Priced(cur) && left >= 0
    ensures Remaining(cur, left) >= 0
  {
    hide Round, Daily;
    TimesOrder(0.0, left as real, Daily(cur));
    RoundReaches(Times(left as real, Daily(cur)), 0);
  }

  lemma ConvertedMonotone(tgt: Tariff, r1: int, r2: int)
    requires Priced(tgt) && r1 <= r2
    ensures Converted(tgt, r1) <= Converted(tgt, r2)
  {
    hide Over, Round, Daily;
    OverOrder(r1 as real, r2 as real, Daily(tgt));
    RoundMonotone(Over(r1 as real, Daily(tgt)), Over(r2 as real, Daily(tgt)));
  }

  /** Value for at least one cycle converts to at least one cycle of days. */
  lemma ConvertedIsACycle(tgt: Tariff, rest: int)
    requires Priced(tgt) && rest >= tgt.price
    ensures Converted(tgt, rest) >= Cycle(tgt)
  {
    hide Over, Times, Round, Daily, Cycle;
    var x := Over(rest as real, Daily(tgt));
    DailyIs(tgt);
    OverTimes(rest as real, Daily(tgt));
    TimesCommutes(Daily(tgt), Cycle(tgt) as real);
    TimesOrder(Cycle(tgt) as real, x, Daily(tgt));
    RoundReaches(x, Cycle(tgt));
  }

  lemma TimesCommutes(x: real, y: real)
    ensures Times(x, y) == Times(y, x)
  {
  }

  // ----- the quote

  /** Whoever pays, pays exactly what the unspent value falls short of the price. */
  lemma DueCompletesThePrice(cur: Tariff, tgt: Tariff, left: int)
    requires Priced(cur) && Priced(tgt) && left >= 0
    ensures var q, rest := Switch(cur, tgt, left), Remaining(cur, left);
            && 0 <= q.due <= tgt.price
            && (q.due > 0 <==> rest < tgt.price)
            && (q.due > 0 ==> q.due + rest == tgt.price && q.days == tgt.days)
  {
    RemainingNonNegative(cur, left);
  }

  /** A free switch to another daily rate gives at least one cycle of the new tariff, and days
      worth the unspent value to within half a day; at the same rate it keeps the days. */
  lemma FreeSwitchIsFair(cur: Tariff, tgt: Tariff, left: int)
    requires Priced(cur) && Priced(tgt) && Remaining(cur, left) >= tgt.price
    ensures var q, rest := Switch(cur, tgt, left), Remaining(cur, left);
            && q.due == 0
            && (SameRate(cur, tgt) ==> q.days == left)
            && (!SameRate(cur, tgt) ==>
                 && q.days == Converted(tgt, rest) >= Cycle(tgt) >= tgt.days
                 && Abs(Times(q.days as real, Daily(tgt)) - rest as real) <= Daily(tgt) / 2.0)
  {
    hide Daily, Round, Remaining, SameRate, Abs, Over, Times;
    ConvertedIsACycle(tgt, Remaining(cur, left));
    RoundedDays(Remaining(cur, left) as real, Daily(tgt));
  }

  /** More days left never raise the price of a switch. */
  lemma MoreDaysNeverCostMore(cur: Tariff, tgt: Tariff, d1: int, d2: int)
    requires Priced(cur) && Priced(tgt) && d1 <= d2
    ensures Switch(cur, tgt, d2).due <= Switch(cur, tgt, d1).due
  {
    hide Remaining, SameRate, Converted, Priced;
    RemainingMonotone(cur, d1, d2);
  }

  /** More days left lower the resulting days exactly when the rates are the same, the fewer days
      still had to be paid for, the more days are free, and they are less than a cycle. */
  lemma MoreDaysGiveFewerIff(cur: Tariff, tgt: Tariff, d1: int, d2: int)
    requires Priced(cur) && Priced(tgt) && 1 <= d1 <= d2
    ensures Switch(cur, tgt, d2).days < Switch(cur, tgt, d1).days
            <==> SameRate(cur, tgt) && Remaining(cur, d1) < tgt.price <= Remaining(cur, d2) && d2 < tgt.days
  {
    hide Remaining, SameRate, Converted, Priced, Times, Abs, Daily;
    RemainingMonotone(cur, d1, d2);
    if Remaining(cur, d2) >= tgt.price {
      FreeSwitchIsFair(cur, tgt, d2);
      if Remaining(cur, d1) >= tgt.price {
        FreeSwitchIsFair(cur, tgt, d1);
        ConvertedMonotone(tgt, Remaining(cur, d1), Remaining(cur, d2));
      }
    }
  }

  /** It does happen: of a one-rouble month, 15 days left buy a new month, 16 days left keep 16 days. */
  lemma SixteenDaysAreWorthLess()
    ensures var t := Tariff(1, 30); Priced(t) && Switch(t, t, 15) == Quote(1, 30) && Switch(t, t, 16) == Quote(0, 16)
  {
    var t := Tariff(1, 30);
    assert Daily(t) == 1.0 / 30.0;
    assert Times(15 as real, Daily(t)) == 0.5;
    assert 0.5 < Times(16 as real, Daily(t)) < 1.0;
  }

  // ----- there and back

  lemma SameRateMirrors(a: Tariff, b: Tariff)
    ensures SameRate(a, b) <==> SameRate(b, a)
  {
    hide Daily;
  }

  lemma FourSteps(v: real, m: real, w: real, n: real, z: real, halfA: real, halfB: real)
    requires Abs(v - m) <= 0.5 && Abs(w - m) <= halfB && Abs(w - n) <= 0.5 && Abs(z - n) <= halfA
    ensures Abs(z - v) <= 1.0 + (halfA + halfB)
  {
  }

  lemma RemainingIsNear(t: Tariff, d: int)
    ensures Abs(Times(d as real, Daily(t)) - Remaining(t, d) as real) <= 0.5
  {
    hide Round, Times, Daily, Abs;
    RoundIsNear(Times(d as real, Daily(t)));
  }

  lemma NoDistance(x: real, z: real)
    ensures Times(Abs(x - x), z) == 0.0
  {
  }

  /** Switching there and back for free at one instant moves the days by at most one rouble and
      half a day of either tariff; at the same rate not at all. */
  lemma ThereAndBack(a: Tariff, b: Tariff, d: int)
    requires Priced(a) && Priced(b) && Remaining(a, d) >= b.price
    requires Remaining(b, Switch(a, b, d).days) >= a.price
    ensures var back := Switch(b, a, Switch(a, b, d).days).days;
            && (SameRate(a, b) ==> back == d)
            && Times(Abs(back as real - d as real), Daily(a)) <= 1.0 + (Daily(a) / 2.0 + Daily(b) / 2.0)
  {
    hide Daily, Remaining, SameRate, Abs, Times, Converted;
    var e := Switch(a, b, d).days;
    var back := Switch(b, a, e).days;
    FreeSwitchIsFair(a, b, d);
    FreeSwitchIsFair(b, a, e);
    SameRateMirrors(a, b);
    if SameRate(a, b) {
      NoDistance(d as real, Daily(a));
    } else {
      DistanceScales(back as real, d as real, Daily(a));
      RemainingIsNear(a, d);
      RemainingIsNear(b, e);
      FourSteps(Times(d as real, Daily(a)), Remaining(a, d) as real,
                Times(e as real, Daily(b)), Remaining(b, e) as real,
                Times(back as real, Daily(a)), Daily(a) / 2.0, Daily(b) / 2.0);
    }
  }

  // ----- the days left

  lemma CeilIs(x: real)
    ensures (Ceil(x) - 1) as real < x <= Ceil(x) as real
  {
  }

  /** A running tariff always has a day left to count: the unspent value is never overlooked, and
      at most one day too much is counted. */
  lemma RunningTariffIsConverted(cur: Tariff, tgt: Tariff, end: real, now: real)
    requires Priced(cur) && Priced(tgt)
    ensures CalculateTariffChange(Some(cur), tgt, Some(end), now)
            == if now < end then Switch(cur, tgt, DaysLeft(end, now)) else Quote(tgt.price, tgt.days)
    ensures now < end ==> DaysLeft(end, now) >= 1
    ensures now < end ==>
              Times((DaysLeft(end, now) - 1) as real, DAY) < end - now <= Times(DaysLeft(end, now) as real, DAY)
  {
    hide Times, Over, Ceil, Remaining, Daily, Converted, SameRate;
    if now < end {
      var n := DaysLeft(end, now);
      var x := Over(end - now, DAY);
      OverTimes(end - now, DAY);
      CeilIs(x);
      TimesOrder(x, (n - 1) as real, DAY);
      TimesOrder(x, n as real, DAY);
      TimesOrder(x, 0.0, DAY);
      ZeroTimes(DAY);
    }
  }

  /** Without a tariff that still runs, or with one that costs nothing on either side, the new tariff
      is simply bought. */
  lemma NothingToConvert(cur: Option<Tariff>, tgt: Tariff, end: Option<real>, now: real)
    requires cur == None || end == None || end.value <= now || cur.value.price == 0 || tgt.price == 0
    ensures CalculateTariffChange(cur, tgt, end, now) == Quote(tgt.price, tgt.days)
  {
    hide Switch, DaysLeft;
  }

  lemma ZeroTimes(z: real)
    ensures Times(0.0, z) == 0.0
  {
  }

  // ----- the quote in whole numbers

  /** `n` is the whole number nearest to `a / b`, the even one of two. */
  predicate Nearest(a: int, b: int, n: int) {
    var off := if a < n * b then n * b - a else a - n * b;
    2 * off < b || (2 * off == b && n % 2 == 0)
  }

  lemma RoundIsHalfEven(x: real, n: int)
    ensures Round(x) == n <==> Abs(x - n as real) < 0.5 || (Abs(x - n as real) == 0.5 && n % 2 == 0)
  {
  }

  /** Rounding a fraction gives the nearest whole number. */
  lemma RoundedFraction(x: real, a: int, b: int)
    requires b > 0 && Times(x, b as real) == a as real
    ensures Nearest(a, b, Round(x))
  {
    var n := Round(x);
    RoundIsHalfEven(x, n);
    var d := x - n as real;
    assert d * b as real == a as real - (n * b) as real by {
      assert Times(x, b as real) == x * b as real;
      assert (n * b) as real == n as real * b as real;
    }
    ScaledDistance(d, b as real, (a - n * b) as real);
  }

  lemma AbsTimes(d: real, b: real)
    requires b > 0.0
    ensures Times(Abs(d), b) == Abs(Times(d, b))
  {
    if d < 0.0 {
      assert (-d) * b == -(d * b);
      assert d * b <= 0.0;
    } else {
      assert d * b >= 0.0;
    }
  }

  lemma ScaledDistance(d: real, b: real, e: real)
    requires b > 0.0 && d * b == e
    ensures Abs(d) < 0.5 ==> 2.0 * Abs(e) < b
    ensures Abs(d) == 0.5 ==> 2.0 * Abs(e) == b
  {
    assert Times(d, b) == e && Times(0.5, b) == b / 2.0;
    hide Times;
    AbsTimes(d, b);
    TimesOrder(0.5, Abs(d), b);
  }

  lemma DailyTimesCycle(t: Tariff)
    ensures Times(Daily(t), Cycle(t) as real) == t.price as real
  {
    OverTimes(t.price as real, Cycle(t) as real);
  }

  lemma RemainingIs(cur: Tariff, left: int)
    ensures Nearest(left * cur.price, Cycle(cur), Remaining(cur, left))
  {
    DailyTimesCycle(cur);
    var x, c := Times(left as real, Daily(cur)), Cycle(cur) as real;
    assert Times(x, c) == (left * cur.price) as real by {
      assert x * c == left as real * (Daily(cur) * c);
    }
    hide Round, Daily, Cycle;
    RoundedFraction(x, left * cur.price, Cycle(cur));
  }

  lemma ConvertedIs(tgt: Tariff, rest: int)
    requires Priced(tgt)
    ensures Nearest(rest * Cycle(tgt), tgt.price, Converted(tgt, rest))
  {
    DailyTimesCycle(tgt);
    var x, c := Over(rest as real, Daily(tgt)), Cycle(tgt) as real;
    OverTimes(rest as real, Daily(tgt));
    assert Times(x, tgt.price as real) == (rest * Cycle(tgt)) as real by {
      assert x * (Daily(tgt) * c) == x * Daily(tgt) * c;
    }
    hide Round, Daily, Cycle, Over;
    RoundedFraction(x, rest * Cycle(tgt), tgt.price);
  }

  /** Two daily rates count as the same when they differ by less than a millionth of a rouble. */
  predicate AlmostSame(p: int, c: int, q: int, d: int) {
    1000000 * (if p * d < q * c then q * c - p * d else p * d - q * c) < c * d
  }

  lemma SameRateIs(a: Tariff, b: Tariff)
    ensures SameRate(a, b) <==> AlmostSame(a.price, Cycle(a), b.price, Cycle(b))
  {
    DailyTimesCycle(a);
    DailyTimesCycle(b);
    var x, y, c, d := Daily(a), Daily(b), Cycle(a) as real, Cycle(b) as real;
    var p, q := a.price, b.price;
    assert (x - y) * (c * d) == (p * Cycle(b) - q * Cycle(a)) as real by {
      assert x * (c * d) == (x * c) * d && y * (c * d) == (y * d) * c;
    }
    assert c * d > 0.0;
    hide Daily, Cycle;
    SmallScaled(x - y, c * d, (p * Cycle(b) - q * Cycle(a)) as real);
    assert (Cycle(a) * Cycle(b)) as real == c * d;
  }

  lemma SmallScaled(x: real, b: real, e: real)
    requires b > 0.0 && x * b == e
    ensures Abs(x) < SAME_RATE <==> 1000000.0 * Abs(e) < b
  {
    assert Times(x, b) == e && Times(SAME_RATE, b) == SAME_RATE * b;
    hide Times;
    AbsTimes(x, b);
    TimesOrder(SAME_RATE, Abs(x), b);
  }

  /** The whole quote in whole numbers: the unspent days at the old daily price, rounded, are set
      against the new price; a switch they do not cover costs the rest, one they cover is free and
      lasts as many days as they buy, or as many as were left where the daily prices are the same. */
  lemma QuoteIs(cur: Tariff, tgt: Tariff, left: int) returns (rest: int)
    requires cur.price > 0 && tgt.price > 0 && left >= 1
    ensures var c := if cur.days > 0 then cur.days else 30; var d := if tgt.days > 0 then tgt.days else 30;
            Priced(tgt) && Nearest(left * cur.price, c, rest)
            && var q := Switch(cur, tgt, left);
               if rest < tgt.price then q == Quote(tgt.price - rest, tgt.days)
               else q.due == 0 && if AlmostSame(cur.price, c, tgt.price, d) then q.days == left
                                  else q.days >= 1 && Nearest(rest * d, tgt.price, q.days)
  {
    PricedIs(cur);
    PricedIs(tgt);
    rest := Remaining(cur, left);
    RemainingIs(cur, left);
    ConvertedIs(tgt, rest);
    SameRateIs(cur, tgt);
    RemainingNonNegative(cur, left);
    hide Remaining, SameRate, AlmostSame, Nearest, Daily;
    if rest >= tgt.price && !SameRate(cur, tgt) { FreeSwitchIsFair(cur, tgt, left); }
    hide Converted;
  }
}
