/** The scale of the ratings: what a difference is worth, what K is, and what a result against the odds moves. */
module RatingScale {
  import opened Options
  import opened Reals
  import opened Rounding
  import opened Selection
  import opened Rating

  // ------------------------------------------------------------ Powers of ten

  function Multiple(n: nat, x: real): real {
    if n == 0 then 0.0 else x + Multiple(n - 1, x)
  }

  lemma {:induction false} FlatMultiples(m: Maths, x: real, n: nat)
    requires m.PowerLaws() && m.pow10(x) == 1.0
    ensures m.pow10(Multiple(n, x)) == 1.0
  {
    if n > 0 {
      FlatMultiples(m, x, n - 1);
      assert Times(m.pow10(x), m.pow10(Multiple(n - 1, x))) == m.pow10(x + Multiple(n - 1, x));
      TimesUnit(1.0);
    }
  }

  lemma {:induction false} MultipleIsProduct(n: nat, x: real)
    ensures Multiple(n, x) == Times(n as real, x)
  {
    if n == 0 {
      TimesUnit(x);
    } else {
      MultipleIsProduct(n - 1, x);
      SumOverTimes(1.0, (n - 1) as real, x);
      TimesUnit(x);
    }
  }

  lemma SomeMultiplePassesOne(x: real) returns (n: nat)
    requires x > 0.0
    ensures Multiple(n, x) >= 1.0
  {
    var quotient := Over(1.0, x);
    OverPositive(x);
    n := quotient.Floor + 1;
    MultipleIsProduct(n, x);
    OverTimes(1.0, x);
    TimesMonotone(x, quotient, n as real);
    TimesCommutes(x, quotient);
    TimesCommutes(x, n as real);
  }

  lemma OverPositive(x: real)
    requires x > 0.0
    ensures Over(1.0, x) > 0.0
  {
  }

  /** A larger exponent gives a strictly larger power. */
  lemma PowersGrow(m: Maths, x: real, y: real)
    requires m.PowerLaws() && x < y
    ensures m.pow10(x) < m.pow10(y)
  {
    var d := y - x;
    assert Times(m.pow10(x), m.pow10(d)) == m.pow10(x + d) == m.pow10(y);
    assert m.pow10(x) <= m.pow10(y) && m.pow10(0.0) <= m.pow10(d);
    var n := SomeMultiplePassesOne(d);
    assert m.pow10(1.0) <= m.pow10(Multiple(n, d));
    if m.pow10(d) == 1.0 {
      FlatMultiples(m, d, n);
    }
    TimesPositive(m.pow10(x), m.pow10(d) - 1.0);
    TimesOverSum(m.pow10(x), m.pow10(d), 1.0);
    TimesUnit(m.pow10(x));
  }

  // -------------------------------------------------------------- Expectation

  lemma FractionShrinks(a: real, b: real)
    requires 0.0 < a < b
    ensures Over(1.0, 1.0 + b) < Over(1.0, 1.0 + a)
  {
    var x, y := Over(1.0, 1.0 + a), Over(1.0, 1.0 + b);
    assert x * (1.0 + a) == 1.0 && y * (1.0 + b) == 1.0;
    assert y * (b - a) > 0.0;
    assert (x - y) * (1.0 + a) == y * (b - a);
  }

  /** The stronger an entrant, the more is expected of them; the stronger the opponent, the less. */
  lemma MoreIsExpectedOfTheStronger(m: Maths, r: int, s: int, o: int)
    requires m.Sound() && r < s
    ensures ExpectedScore(m, r, o) < ExpectedScore(m, s, o)
    ensures ExpectedScore(m, o, s) < ExpectedScore(m, o, r)
  {
    hide Over, Times, Maths.RootLaws;
    var a, b := (o - s) as real / 400.0, (o - r) as real / 400.0;
    var c, d := (r - o) as real / 400.0, (s - o) as real / 400.0;
    PowersGrow(m, a, b);
    PowersGrow(m, c, d);
    assert m.pow10(a) > 0.0 && m.pow10(c) > 0.0;
    FractionShrinks(m.pow10(a), m.pow10(b));
    FractionShrinks(m.pow10(c), m.pow10(d));
  }

  /** Whoever is rated higher is the favourite, and nobody else. */
  lemma FavouriteIsRatedHigher(m: Maths, r: int, o: int)
    requires m.Sound()
    ensures ExpectedScore(m, r, o) > 0.5 <==> r > o
  {
    hide Maths.Sound, ExpectedScore;
    ExpectedPair(m, r, o);
    ExpectedPair(m, o, o);
    if r > o {
      MoreIsExpectedOfTheStronger(m, o, r, o);
    } else if r < o {
      MoreIsExpectedOfTheStronger(m, r, o, o);
    }
  }

  /** The odds an entrant is given against an opponent. */
  function Odds(m: Maths, r: int, o: int): real
    requires m.Sound()
  {
    ExpectedBounds(m, r, o);
    Over(ExpectedScore(m, r, o), 1.0 - ExpectedScore(m, r, o))
  }

  lemma OddsOfFraction(a: real)
    requires a > 0.0
    ensures Over(1.0, 1.0 + a) < 1.0
    ensures Over(Over(1.0, 1.0 + a), 1.0 - Over(1.0, 1.0 + a)) == Over(1.0, a)
  {
    var x, y := 1.0 / (1.0 + a), 1.0 / a;
    assert x * (1.0 + a) == 1.0 && y * a == 1.0;
    assert 1.0 - x == x * a;
    assert y * (1.0 - x) == x * (y * a);
  }

  lemma InverseOf(a: real, b: real)
    requires a > 0.0 && Times(a, b) == 1.0
    ensures Over(1.0, a) == b
  {
    assert (1.0 / a) * a == 1.0;
    assert b == b * (a * (1.0 / a)) == (a * b) * (1.0 / a);
  }

  lemma OddsArePowers(m: Maths, r: int, o: int)
    requires m.Sound()
    ensures Odds(m, r, o) == m.pow10((r - o) as real / 400.0)
  {
    var x := (o - r) as real / 400.0;
    OddsOfFraction(m.pow10(x));
    assert (r - o) as real / 400.0 == -x;
    assert Times(m.pow10(x), m.pow10(-x)) == m.pow10(x + -x) == 1.0;
    InverseOf(m.pow10(x), m.pow10(-x));
  }

  /** Four hundred points multiply the odds by ten, from wherever they start. */
  lemma FourHundredIsTenfold(m: Maths, r: int, o: int)
    requires m.Sound()
    ensures Odds(m, r + 400, o) == Times(10.0, Odds(m, r, o))
  {
    hide Times, Over, Maths.RootLaws, ExpectedScore, Odds;
    OddsArePowers(m, r, o);
    OddsArePowers(m, r + 400, o);
    var x := (r - o) as real / 400.0;
    assert (r + 400 - o) as real / 400.0 == 1.0 + x;
    assert Times(m.pow10(1.0), m.pow10(x)) == m.pow10(1.0 + x);
  }

  /** Between equals an even game; four hundred points ahead, ten in eleven. */
  lemma TenInEleven(m: Maths, o: int)
    requires m.Sound()
    ensures ExpectedScore(m, o, o) == 0.5
    ensures ExpectedScore(m, o + 400, o) == 10.0 / 11.0 && ExpectedScore(m, o, o + 400) == 1.0 / 11.0
  {
    ExpectedPair(m, o, o);
    ExpectedPair(m, o + 400, o);
    assert (o + 400 - o) as real / 400.0 == 1.0;
    assert ExpectedScore(m, o, o + 400) == Over(1.0, 1.0 + m.pow10(1.0));
  }

  // ------------------------------------------------------------------- A contest

  lemma {:induction false} LessIsExpectedInAll(m: Maths, a: Entrant, b: Entrant, others: seq<Entrant>)
    requires m.Sound() && a.rating < b.rating && others != []
    ensures Expected(m, a, others) < Expected(m, b, others)
  {
    hide Maths.Sound, ExpectedScore;
    MoreIsExpectedOfTheStronger(m, a.rating, b.rating, others[0].rating);
    if |others| > 1 {
      LessIsExpectedInAll(m, a, b, others[1..]);
    }
  }

  lemma {:induction false} SamePlaceSameScore(a: Entrant, b: Entrant, others: seq<Entrant>)
    requires a.place == b.place
    ensures Actual(a, others) == Actual(b, others)
  {
    if others != [] {
      SamePlaceSameScore(a, b, others[1..]);
    }
  }

  lemma StrictlyOver(x: real, y: real, n: real)
    requires x < y && n > 0.0
    ensures Over(x, n) < Over(y, n)
  {
  }

  /** The same place against the same opponents is worth strictly more to whoever was rated lower. */
  lemma SamePlaceMovesTheLowerMore(m: Maths, a: Entrant, b: Entrant, others: seq<Entrant>)
    requires m.Sound() && others != []
    requires a.rating < b.rating && a.place == b.place && Grown(m, a) == Grown(m, b)
    ensures UnroundedChange(m, a, others) > UnroundedChange(m, b, others)
  {
    hide Maths.Sound, Times, Over, KFactor, Grown, Actual, Expected;
    LessIsExpectedInAll(m, a, b, others);
    SamePlaceSameScore(a, b, others);
    var n := |others| as real;
    StrictlyOver(Actual(b, others) - Expected(m, b, others), Actual(a, others) - Expected(m, a, others), n);
    var k := KFactor(Grown(m, a));
    KIsAtLeastSettled(Grown(m, a));
    TimesPositive(k, Margin(m, a, others) - Margin(m, b, others));
    TimesOverSum(k, Margin(m, a, others), Margin(m, b, others));
  }

  lemma KIsAtLeastSettled(deviation: real)
    ensures KFactor(deviation) >= 20.0
  {
  }

  /** K runs straight from 20 at a deviation of 50 to 120 at 350, and no further. */
  lemma KIsALine(deviation: real)
    ensures deviation <= 50.0 ==> KFactor(deviation) == 20.0
    ensures deviation >= 350.0 ==> KFactor(deviation) == 120.0
    ensures 50.0 <= deviation <= 350.0 ==> 3.0 * (KFactor(deviation) - 20.0) == deviation - 50.0
  {
  }

  /** A field of n takes 4 / (n + 8) less than half of the deviation away. */
  lemma LearnedFallsShortOfHalf(n: nat)
    ensures (0.5 - Learned(n)) * (n as real + 8.0) == 4.0 && Learned(n) < 0.5
  {
    assert Learned(n) * (n as real + 8.0) == 0.5 * n as real;
  }

  /** How much of the deviation a field takes away: a quarter for eight opponents, more for more, never half. */
  lemma LearningGrowsWithTheField(n: nat, more: nat)
    requires n < more
    ensures Learned(8) == 0.25 && Learned(n) < Learned(more) < 0.5
  {
    hide Learned;
    LearnedFallsShortOfHalf(n);
    LearnedFallsShortOfHalf(more);
    LearnedFallsShortOfHalf(8);
    SmallerOverMore(0.5 - Learned(n), 0.5 - Learned(more), n as real + 8.0, more as real + 8.0);
  }

  lemma SmallerOverMore(x: real, y: real, n: real, more: real)
    requires 0.0 < n < more && x * n == 4.0 && y * more == 4.0 && x > 0.0
    ensures y < x
  {
    assert x * (more - n) > 0.0;
    assert (x - y) * more == x * (more - n);
  }

  /** A win, a draw and a loss, and nothing else, by place. */
  lemma PointsByPlace(a: int, b: int)
    ensures PointsFor(a, b) + PointsFor(b, a) == 1.0
    ensures PointsFor(a, b) == 1.0 <==> a < b
    ensures PointsFor(a, b) == 0.5 <==> a == b
  {
  }

  /** Everybody plays everybody else, and nobody themselves. */
  function NotThem(user: int): Entrant -> bool {
    (e: Entrant) => e.user != user
  }

  lemma {:induction false} OthersOfOneMore(field: seq<Entrant>, last: Entrant, user: int)
    ensures Others(field + [last], user) == Others(field, user) + if last.user != user then [last] else []
  {
    if field == [] {
      assert [last][1..] == [] && [] + [last] == [last];
    } else {
      assert (field + [last])[1..] == field[1..] + [last];
      OthersOfOneMore(field[1..], last, user);
      var first := if field[0].user != user then [field[0]] else [];
      var more := if last.user != user then [last] else [];
      assert Others(field, user) == first + Others(field[1..], user);
      assert first + (Others(field[1..], user) + more) == first + Others(field[1..], user) + more;
    }
  }

  lemma {:induction false} OpponentsAreTheOthers(field: seq<Entrant>, user: int)
    ensures Picks(field, NotThem(user), Others(field, user))
  {
    hide Picks, Others;
    if field == [] {
      PicksNothing(NotThem(user));
      NoOthers(user);
    } else {
      var most, last := field[..|field| - 1], field[|field| - 1];
      OpponentsAreTheOthers(most, user);
      PicksOneMore(most, last, NotThem(user), Others(most, user));
      OthersOfOneMore(most, last, user);
      assert most + [last] == field && Others(most, user) + [] == Others(most, user);
    }
  }

  lemma NoOthers(user: int)
    ensures Others([], user) == []
  {
  }

  // ------------------------------------------------------------------ Two entrants

  /** The settled favourite who wins gains two points; the one who loses drops eighteen. */
  function Settled(user: int, rating: int, place: int): Entrant {
    Entrant(user, rating, 50.0, None, place)
  }

  lemma OneGame(m: Maths, e: Entrant, o: Entrant, expected: real)
    requires m.Sound() && e.deviation == 50.0 && e.daysIdle == None && e.place != o.place
    requires ExpectedScore(m, e.rating, o.rating) == expected
    ensures UnroundedChange(m, e, [o]) == 20.0 * ((if e.place < o.place then 1.0 else 0.0) - expected)
    ensures [o] != []
  {
    hide Maths.Sound, ExpectedScore;
    assert [o][1..] == [];
    assert Grown(m, e) == 50.0;
    KIsALine(50.0);
    var d := (if e.place < o.place then 1.0 else 0.0) - expected;
    assert Actual(e, [o]) == if e.place < o.place then 1.0 else 0.0;
    assert Expected(m, e, [o]) == expected;
    assert Over(d, 1.0) == d;
    assert Margin(m, e, [o]) == Over(d, 1.0);
    assert KFactor(Grown(m, e)) == 20.0;
  }

  lemma FavouriteWins(m: Maths, a: int, b: int)
    requires m.Sound() && a != b
    ensures
      var first, second := Settled(a, 1400, 1), Settled(b, 1000, 2);
      ChangeOf(m, first, [second]).ratingAfter == 1402 && ChangeOf(m, second, [first]).ratingAfter == 998
  {
    var first, second := Settled(a, 1400, 1), Settled(b, 1000, 2);
    TenInEleven(m, 1000);
    hide Maths.Sound, ExpectedScore, UnroundedChange, Round, ShrunkDeviation, Grown;
    OneGame(m, first, second, 10.0 / 11.0);
    OneGame(m, second, first, 1.0 / 11.0);
    NearestTo(1400.0 + 20.0 / 11.0, 1402);
    NearestTo(1000.0 - 20.0 / 11.0, 998);
  }

  lemma UnderdogWins(m: Maths, a: int, b: int)
    requires m.Sound() && a != b
    ensures
      var first, second := Settled(b, 1000, 1), Settled(a, 1400, 2);
      ChangeOf(m, first, [second]).ratingAfter == 1018 && ChangeOf(m, second, [first]).ratingAfter == 1382
  {
    var first, second := Settled(b, 1000, 1), Settled(a, 1400, 2);
    TenInEleven(m, 1000);
    hide Maths.Sound, ExpectedScore, UnroundedChange, Round, ShrunkDeviation, Grown;
    OneGame(m, first, second, 1.0 / 11.0);
    OneGame(m, second, first, 10.0 / 11.0);
    NearestTo(1000.0 + 200.0 / 11.0, 1018);
    NearestTo(1400.0 - 200.0 / 11.0, 1382);
  }

  lemma NearestTo(x: real, n: int)
    requires -0.5 < x - n as real < 0.5
    ensures Round(x) == n
  {
    NearByHalf(x, n);
  }
}
