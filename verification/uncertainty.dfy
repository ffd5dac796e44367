/** How rating uncertainty evolves over many rounds of competing and waiting. */
module Uncertainty {
  import opened Options
  import opened Reals
  import opened Rating
  import opened RatingBounds

  const LEAST_VARIANCE := 2500.0
  const MOST_VARIANCE := 122500.0

  function Distance(x: real, y: real): real {
    if x <= y then y - x else x - y
  }

  /** One round of the calendar: compete against some opponents, then wait some days. */
  function Cycle(m: Maths, d: real, opponents: nat, days: real): real
    requires m.Sound()
  {
    GrownDeviation(m, ShrunkDeviation(d, opponents), Some(days))
  }

  function Retained(opponents: nat): real {
    1.0 - Learned(opponents)
  }

  /** What a wait adds to the variance. */
  function Forgotten(days: real): real {
    GROWTH_SQUARED * (days / PERIOD_DAYS)
  }

  // ------------------------------------------------------- In terms of variance

  lemma SquareOfMost(x: real, y: real)
    requires x >= 0.0 && y >= 0.0
    ensures Square(Most(x, y)) == Most(Square(x), Square(y))
    ensures Square(Least(x, y)) == Least(Square(x), Square(y))
  {
    hide Times;
    SquareOrder(x, y);
    SquareOrder(y, x);
  }

  lemma SquareOfProduct(x: real, y: real)
    ensures Square(Times(x, y)) == Times(Square(x), Square(y))
  {
    hide Times;
    TimesAssociates(Times(x, y), x, y);
    TimesCommutes(Times(x, y), x);
    TimesAssociates(x, x, y);
    TimesAssociates(Square(x), y, y);
  }

  lemma Ends()
    ensures Square(DEVIATION_MIN) == LEAST_VARIANCE && Square(DEVIATION_NEW) == MOST_VARIANCE
  {
  }

  lemma ShrunkVariance(d: real, opponents: nat)
    requires d >= 0.0 && opponents > 0
    ensures Square(ShrunkDeviation(d, opponents)) == Most(LEAST_VARIANCE, Times(Square(d), Square(Retained(opponents))))
    ensures ShrunkDeviation(d, opponents) >= DEVIATION_MIN
  {
    hide Times, Learned;
    LearnedInRange(opponents);
    var shrunk := Times(d, Retained(opponents));
    TimesNonnegative(d, Retained(opponents));
    SquareOfMost(DEVIATION_MIN, shrunk);
    SquareOfProduct(d, Retained(opponents));
    Ends();
  }

  lemma GrownVariance(m: Maths, d: real, days: real)
    requires m.Sound() && d >= 0.0 && days >= 0.0
    ensures Square(GrownDeviation(m, d, Some(days))) == Least(Square(d) + Forgotten(days), MOST_VARIANCE)
    ensures GrownDeviation(m, d, Some(days)) >= 0.0
  {
    hide Times;
    Ends();
    TimesNonnegative(d, d);
    var v := Square(d) + Forgotten(days);
    if days > 0.0 {
      assert m.sqrt(v) >= 0.0 && Square(m.sqrt(v)) == v;
      SquareOfMost(m.sqrt(v), DEVIATION_NEW);
    } else {
      SquareOfMost(d, DEVIATION_NEW);
    }
  }

  lemma CycleVariance(m: Maths, d: real, opponents: nat, days: real)
    requires m.Sound() && d >= 0.0 && opponents > 0 && days >= 0.0
    ensures Square(Cycle(m, d, opponents, days)) ==
      Least(Most(LEAST_VARIANCE, Times(Square(d), Square(Retained(opponents)))) + Forgotten(days), MOST_VARIANCE)
    ensures Cycle(m, d, opponents, days) >= 0.0
  {
    hide Maths.Sound, Times, GrownDeviation, ShrunkDeviation, Learned, Forgotten;
    ShrunkVariance(d, opponents);
    GrownVariance(m, ShrunkDeviation(d, opponents), days);
  }

  // -------------------------------------------------------------- Contraction

  lemma ClampsDoNotSpread(x: real, y: real, low: real, add: real, high: real)
    ensures Distance(Least(Most(low, x) + add, high), Least(Most(low, y) + add, high)) <= Distance(x, y)
  {
  }

  lemma ScaledDistance(x: real, y: real, c: real)
    requires c >= 0.0
    ensures Distance(Times(x, c), Times(y, c)) == Times(c, Distance(x, y))
  {
    hide Times;
    SumOverTimes(x, y, c);
    SumOverTimes(y, x, c);
    TimesCommutes(c, Distance(x, y));
    if x <= y {
      TimesMonotone(c, x, y);
    } else {
      TimesMonotone(c, y, x);
    }
  }

  /** One round brings any two competitors' variances closer by at least the square of what the round retains, both
      clamps notwithstanding. */
  lemma OneRoundContracts(m: Maths, d: real, e: real, opponents: nat, days: real)
    requires m.Sound() && d >= 0.0 && e >= 0.0 && opponents > 0 && days >= 0.0
    ensures Distance(Square(Cycle(m, d, opponents, days)), Square(Cycle(m, e, opponents, days))) <=
      Times(Square(Retained(opponents)), Distance(Square(d), Square(e)))
  {
    hide Maths.Sound, Times, Cycle, Retained, Forgotten, Least, Most, Distance;
    var c := Square(Retained(opponents));
    CycleVariance(m, d, opponents, days);
    CycleVariance(m, e, opponents, days);
    ClampsDoNotSpread(Times(Square(d), c), Times(Square(e), c), LEAST_VARIANCE, Forgotten(days), MOST_VARIANCE);
    RetainedSquare(opponents);
    ScaledDistance(Square(d), Square(e), c);
  }

  lemma RetainedSquare(opponents: nat)
    requires opponents > 0
    ensures 0.25 < Square(Retained(opponents)) < 1.0
  {
    LearnedInRange(opponents);
    var r := Retained(opponents);
    hide Times, Learned;
    TimesPositive(r - 0.5, r + 0.5);
    TimesPositive(1.0 - r, 1.0 + r);
    SumOverTimes(r, 0.5, r + 0.5);
    TimesOverSum(r, r, 0.5);
    TimesOverSum(0.5, r, 0.5);
    TimesCommutes(r, 0.5);
    SumOverTimes(1.0, r, 1.0 + r);
    TimesOverSum(1.0, 1.0, r);
    TimesOverSum(r, 1.0, r);
    TimesUnit(r);
    TimesUnit(1.0);
    assert Times(0.5, 0.5) == 0.25 by { Quarter(); }
  }

  lemma Quarter()
    ensures Times(0.5, 0.5) == 0.25
  {
  }

  /** Any number of rounds on the same calendar. */
  function Rounds(m: Maths, d: real, opponents: nat, days: real, n: nat): real
    requires m.Sound()
  {
    if n == 0 then d else Cycle(m, Rounds(m, d, opponents, days, n - 1), opponents, days)
  }

  lemma {:induction false} RoundsNonnegative(m: Maths, d: real, opponents: nat, days: real, n: nat)
    requires m.Sound() && d >= 0.0 && opponents > 0 && days >= 0.0
    ensures Rounds(m, d, opponents, days, n) >= 0.0
  {
    hide Maths.Sound, Times, Cycle, Retained, Forgotten;
    if n > 0 {
      RoundsNonnegative(m, d, opponents, days, n - 1);
      CycleVariance(m, Rounds(m, d, opponents, days, n - 1), opponents, days);
    }
  }

  /** So where a competitor starts is forgotten geometrically, however long the season. */
  lemma {:induction false} RoundsContract(m: Maths, d: real, e: real, opponents: nat, days: real, n: nat)
    requires m.Sound() && d >= 0.0 && e >= 0.0 && opponents > 0 && days >= 0.0
    ensures Distance(Square(Rounds(m, d, opponents, days, n)), Square(Rounds(m, e, opponents, days, n))) <=
      Times(Power(Square(Retained(opponents)), n), Distance(Square(d), Square(e)))
  {
    hide Maths.Sound, Times, Cycle, Retained, Distance;
    var c, start := Square(Retained(opponents)), Distance(Square(d), Square(e));
    if n == 0 {
      TimesUnit(start);
    } else {
      var x, y := Rounds(m, d, opponents, days, n - 1), Rounds(m, e, opponents, days, n - 1);
      RoundsNonnegative(m, d, opponents, days, n - 1);
      RoundsNonnegative(m, e, opponents, days, n - 1);
      RoundsContract(m, d, e, opponents, days, n - 1);
      OneRoundContracts(m, x, y, opponents, days);
      RetainedSquare(opponents);
      TimesMonotone(c, Distance(Square(x), Square(y)), Times(Power(c, n - 1), start));
      TimesAssociates(c, Power(c, n - 1), start);
    }
  }

  // ------------------------------------------------------------ Waiting twice

  lemma SameSquare(x: real, y: real)
    requires x >= 0.0 && y >= 0.0 && Square(x) == Square(y)
    ensures x == y
  {
    hide Times;
    SquareOrder(x, y);
    SquareOrder(y, x);
  }

  /** Only the total time away matters, not how it is split. */
  lemma WaitingAddsUp(m: Maths, d: real, a: real, b: real)
    requires m.Sound() && d >= 0.0 && a >= 0.0 && b >= 0.0
    ensures GrownDeviation(m, GrownDeviation(m, d, Some(a)), Some(b)) == GrownDeviation(m, d, Some(a + b))
  {
    hide Maths.Sound, Times, GrownDeviation;
    var once := GrownDeviation(m, d, Some(a));
    GrownVariance(m, d, a);
    GrownVariance(m, once, b);
    GrownVariance(m, d, a + b);
    SameSquare(GrownDeviation(m, once, Some(b)), GrownDeviation(m, d, Some(a + b)));
  }

  // --------------------------------------------------------- Never settled

  /** On a calendar with any gap at all K never comes down to its settled value; with a fortnight between rounds it
      stays above 39. */
  lemma NeverSettles(m: Maths, d: real, opponents: nat, days: real)
    requires m.Sound() && d >= 0.0 && opponents > 0 && days > 0.0
    ensures KFactor(Cycle(m, d, opponents, days)) > K_SETTLED
    ensures days >= PERIOD_DAYS ==> KFactor(Cycle(m, d, opponents, days)) > 39.0
  {
    hide Maths.Sound, Times, Cycle, Retained;
    CycleVariance(m, d, opponents, days);
    var after := Cycle(m, d, opponents, days);
    Ends();
    SquareOrder(after, DEVIATION_MIN);
    assert Times(108.0, 108.0) == 11664.0 by { Numbers(); }
    SquareOrder(after, 108.0);
  }

  lemma Numbers()
    ensures Times(108.0, 108.0) == 11664.0 && Times(136.0, 136.0) == 18496.0 && Times(137.0, 137.0) == 18769.0
  {
  }

  // ------------------------------------------------------------- The standoff

  const CLUB := 11
  /** The variance a fortnightly round against that many opponents leaves as it found it. */
  const STANDOFF := (120000.0 / 13.0) * (1444.0 / 715.0)

  lemma ClubNumbers()
    ensures Square(Retained(CLUB)) == 729.0 / 1444.0
    ensures Forgotten(PERIOD_DAYS) == 120000.0 / 13.0
    ensures Times(STANDOFF, 729.0 / 1444.0) + 120000.0 / 13.0 == STANDOFF
    ensures 18642.0 < STANDOFF < 18643.0
  {
    assert Learned(CLUB) == 5.5 / 19.0;
    assert Retained(CLUB) == 27.0 / 38.0;
  }

  lemma StandoffIsFixed(m: Maths, d: real, n: nat)
    requires m.Sound() && d >= 0.0 && Square(d) == STANDOFF
    ensures Square(Rounds(m, d, CLUB, PERIOD_DAYS, n)) == STANDOFF
  {
    if n > 0 {
      StandoffIsFixed(m, d, n - 1);
      RoundsNonnegative(m, d, CLUB, PERIOD_DAYS, n - 1);
      hide Maths.Sound, Times, Cycle, Retained, Forgotten;
      CycleVariance(m, Rounds(m, d, CLUB, PERIOD_DAYS, n - 1), CLUB, PERIOD_DAYS);
      ClubNumbers();
    }
  }

  lemma PowerStep(x: real, n: nat, bound: real)
    requires 0.0 <= x <= 0.51 && 0.0 <= Power(x, n) <= bound
    ensures 0.0 <= Power(x, n + 1) <= Times(0.51, bound)
  {
    hide Times;
    TimesNonnegative(x, Power(x, n));
    TimesMonotone(x, Power(x, n), bound);
    TimesMonotone(bound, x, 0.51);
  }

  lemma SeasonNumbers()
    ensures Times(0.51, 1.0) <= 0.51 && Times(0.51, 0.51) <= 0.2602 && Times(0.51, 0.2602) <= 0.1328
    ensures Times(0.51, 0.1328) <= 0.0678 && Times(0.51, 0.0678) <= 0.0346 && Times(0.51, 0.0346) <= 0.0177
    ensures Times(0.51, 0.0177) <= 0.0091 && Times(0.51, 0.0091) <= 0.0047 && Times(0.51, 0.0047) <= 0.0024
    ensures Times(0.51, 0.0024) <= 0.0013 && Times(0.51, 0.0013) <= 0.0007 && Times(0.51, 0.0007) <= 0.0004
    ensures Times(0.51, 0.0004) <= 0.00021 && Times(0.51, 0.00021) <= 0.00011
    ensures Times(0.00011, 120000.0) < 14.0
  {
  }

  /** Fourteen rounds of a factor of at most 0.51 leave about one part in nine thousand. */
  lemma {:induction false} SeasonPower(x: real, n: nat)
    requires 0.0 <= x <= 0.51 && n >= 14
    ensures 0.0 <= Power(x, n) <= 0.00011
  {
    hide Times;
    if n == 14 {
      SeasonNumbers();
      PowerStep(x, 0, 1.0);
      PowerStep(x, 1, 0.51);
      PowerStep(x, 2, 0.2602);
      PowerStep(x, 3, 0.1328);
      PowerStep(x, 4, 0.0678);
      PowerStep(x, 5, 0.0346);
      PowerStep(x, 6, 0.0177);
      PowerStep(x, 7, 0.0091);
      PowerStep(x, 8, 0.0047);
      PowerStep(x, 9, 0.0024);
      PowerStep(x, 10, 0.0013);
      PowerStep(x, 11, 0.0007);
      PowerStep(x, 12, 0.0004);
      PowerStep(x, 13, 0.00021);
    } else {
      SeasonPower(x, n - 1);
      TimesNonnegative(x, Power(x, n - 1));
      TimesMonotone(Power(x, n - 1), x, 1.0);
      TimesUnit(Power(x, n - 1));
    }
  }

  /** The documented standoff: against eleven opponents a fortnight apart, wherever a competitor starts, from the
      fourteenth round on the deviation lies between 136 and 137 and K between 48 and 49. */
  lemma SeasonEndsAtTheStandoff(m: Maths, d: real, n: nat)
    requires m.Sound() && DeviationInRange(d) && n >= 14
    ensures 136.0 < Rounds(m, d, CLUB, PERIOD_DAYS, n) < 137.0
    ensures 48.0 < KFactor(Rounds(m, d, CLUB, PERIOD_DAYS, n)) <= 49.0
  {
    hide Maths.Sound, Times, Cycle, Retained, Rounds, Power;
    var still, after := m.sqrt(STANDOFF), Rounds(m, d, CLUB, PERIOD_DAYS, n);
    ClubNumbers();
    RootOf(m, STANDOFF);
    StandoffIsFixed(m, still, n);
    RoundsContract(m, d, still, CLUB, PERIOD_DAYS, n);
    RoundsNonnegative(m, d, CLUB, PERIOD_DAYS, n);
    SeasonPower(Square(Retained(CLUB)), n);
    Ends();
    SquareOrder(DEVIATION_MIN, d);
    SquareOrder(d, DEVIATION_NEW);
    var start := Distance(Square(d), STANDOFF);
    SeasonNumbers();
    TimesMonotone(start, Power(Square(Retained(CLUB)), n), 0.00011);
    TimesMonotone(0.00011, start, 120000.0);
    Numbers();
    SquareOrder(after, 136.0);
    SquareOrder(137.0, after);
  }

  /** Thirteen fortnights of silence, and no fewer days, take a fully settled rating back to knowing nothing. */
  lemma SettledIsForgottenIn182Days(m: Maths, days: real)
    requires m.Sound() && days >= 0.0
    ensures GrownDeviation(m, 50.0, Some(days)) == 350.0 <==> days >= 182.0
  {
    hide Times;
    Ends();
    if days > 0.0 {
      var x := LEAST_VARIANCE + GROWTH_SQUARED * (days / PERIOD_DAYS);
      GrowthOver(days);
      RootOf(m, x);
      SquareOrder(m.sqrt(x), 350.0);
      SquareOrder(350.0, m.sqrt(x));
    }
  }

  lemma GrowthOver(days: real)
    requires days > 0.0
    ensures GROWTH_SQUARED * (days / PERIOD_DAYS) >= 120000.0 <==> days >= 182.0
    ensures GROWTH_SQUARED * (days / PERIOD_DAYS) >= 0.0
  {
    assert GROWTH_SQUARED * (days / PERIOD_DAYS) == 120000.0 * days / 182.0;
  }

  lemma RootOf(m: Maths, x: real)
    requires m.Sound() && x >= 0.0
    ensures m.sqrt(x) >= 0.0 && Square(m.sqrt(x)) == x
  {
    hide Times;
  }
}
