/** Bounds and fairness of one rated contest. */
module RatingBounds {
  import opened Options
  import opened Reals
  import opened Rounding
  import opened Sorting
  import opened Rating
  import opened RatingLaws

  // ----------------------------------------------------------- The deviation

  predicate DeviationInRange(d: real) {
    DEVIATION_MIN <= d <= DEVIATION_NEW
  }

  lemma RootAtLeast(m: Maths, low: real, x: real)
    requires m.Sound() && low >= 0.0 && Square(low) <= x
    ensures low <= m.sqrt(x)
  {
    hide Times;
    TimesNonnegative(low, low);
    SquareOrder(low, m.sqrt(x));
  }

  /** Waiting never makes a rating more certain, and never less certain than knowing nothing. */
  lemma GrownInRange(m: Maths, d: real, days: Option<real>)
    requires m.Sound() && DeviationInRange(d)
    ensures d <= GrownDeviation(m, d, days) <= DEVIATION_NEW
  {
    hide Maths.Sound, Times;
    if days.Some? && days.value > 0.0 {
      RootAtLeast(m, d, Square(d) + GROWTH_SQUARED * (days.value / PERIOD_DAYS));
    }
  }

  lemma LearnedInRange(opponents: nat)
    ensures 0.0 <= Learned(opponents) < 0.5
    ensures opponents > 0 ==> Learned(opponents) > 0.0
  {
    var x := opponents as real;
    OverTimes(0.5 * x, x + 8.0);
  }

  lemma ShrunkInRange(d: real, opponents: nat)
    requires DeviationInRange(d)
    ensures DEVIATION_MIN <= ShrunkDeviation(d, opponents) <= d
  {
    hide Times, Learned;
    LearnedInRange(opponents);
    TimesMonotone(d, 1.0 - Learned(opponents), 1.0);
    TimesUnit(d);
  }

  // ------------------------------------------------------------- The margin

  lemma {:induction false} SumsInRange(m: Maths, e: Entrant, others: seq<Entrant>)
    requires m.Sound()
    ensures 0.0 <= Actual(e, others) <= |others| as real
    ensures 0.0 <= Expected(m, e, others) <= |others| as real
  {
    hide Maths.Sound, ExpectedScore;
    if others != [] {
      SumsInRange(m, e, others[1..]);
      ExpectedBounds(m, e.rating, others[0].rating);
    }
  }

  lemma MarginInRange(m: Maths, e: Entrant, others: seq<Entrant>)
    requires m.Sound() && others != []
    ensures -1.0 <= Margin(m, e, others) <= 1.0
  {
    hide Maths.Sound, Over, Actual, Expected;
    SumsInRange(m, e, others);
    var n, balance := |others| as real, Actual(e, others) - Expected(m, e, others);
    OverMonotone(balance, n, n);
    OverMonotone(-n, balance, n);
    OverUnit(n);
    OverNegated(n, n);
  }

  function Ceiling(x: real): (n: int)
    ensures n as real - 1.0 < x <= n as real
  {
    -((-x).Floor)
  }

  lemma UnroundedInRange(m: Maths, e: Entrant, others: seq<Entrant>)
    requires m.Sound() && others != []
    ensures
      var k := KFactor(Grown(m, e));
      -k <= UnroundedChange(m, e, others) <= k
  {
    hide Maths.Sound, Times, KFactor, Grown, Margin;
    var k := KFactor(Grown(m, e));
    KIsPositive(Grown(m, e));
    MarginInRange(m, e, others);
    TimesMonotone(k, Margin(m, e, others), 1.0);
    TimesMonotone(k, -1.0, Margin(m, e, others));
    TimesUnit(k);
    TimesOverSum(k, 0.0, 1.0);
  }

  /** One contest keeps every rating at or above the floor, every deviation in range, and moves nobody further than
      their own K rounded up. */
  lemma ChangeInRange(m: Maths, e: Entrant, others: seq<Entrant>)
    requires m.Sound() && others != []
    requires e.rating >= RATING_FLOOR && DeviationInRange(e.deviation)
    ensures
      var c := ChangeOf(m, e, others);
      var most := Ceiling(KFactor(Grown(m, e)));
      && c.ratingAfter >= RATING_FLOOR
      && DeviationInRange(c.deviationAfter)
      && c.ratingBefore - most <= c.ratingAfter <= c.ratingBefore + most
  {
    hide Maths.Sound, Times, KFactor, GrownDeviation, UnroundedChange, ShrunkDeviation, Round, Ceiling;
    UnroundedInRange(m, e, others);
    KIsPositive(Grown(m, e));
    GrownInRange(m, e.deviation, e.daysIdle);
    ShrunkInRange(Grown(m, e), |others|);
    var most := Ceiling(KFactor(Grown(m, e)));
    RoundKeepsIntegerBounds(e.rating as real + UnroundedChange(m, e, others), e.rating - most, e.rating + most);
  }

  // --------------------------------------------------- First place, last place

  lemma {:induction false} WinnerTakesAll(e: Entrant, others: seq<Entrant>)
    ensures (forall i | 0 <= i < |others| :: e.place < others[i].place) ==> Actual(e, others) == |others| as real
    ensures (forall i | 0 <= i < |others| :: e.place > others[i].place) ==> Actual(e, others) == 0.0
  {
    if others != [] {
      WinnerTakesAll(e, others[1..]);
    }
  }

  /** A sole winner never falls, and somebody alone in last place never rises. */
  lemma WinnerAndLast(m: Maths, e: Entrant, others: seq<Entrant>)
    requires m.Sound() && others != [] && e.rating >= RATING_FLOOR
    ensures (forall i | 0 <= i < |others| :: e.place < others[i].place) ==>
      ChangeOf(m, e, others).ratingAfter >= e.rating
    ensures (forall i | 0 <= i < |others| :: e.place > others[i].place) ==>
      ChangeOf(m, e, others).ratingAfter <= e.rating
  {
    hide Maths.Sound, Times, Over, KFactor, Grown, Round, Actual, Expected;
    WinnerTakesAll(e, others);
    SumsInRange(m, e, others);
    var n, balance := |others| as real, Actual(e, others) - Expected(m, e, others);
    var k, margin := KFactor(Grown(m, e)), Margin(m, e, others);
    KIsPositive(Grown(m, e));
    OverUnit(n);
    TimesUnit(k);
    if balance >= 0.0 {
      OverMonotone(0.0, balance, n);
      TimesMonotone(k, 0.0, margin);
    }
    if balance <= 0.0 {
      OverMonotone(balance, 0.0, n);
      TimesMonotone(k, margin, 0.0);
    }
    RoundKeepsIntegerBounds(e.rating as real + Times(k, margin), e.rating, e.rating);
  }

  // ----------------------------------------------------------------- Fairness

  lemma EvenGame(m: Maths, r: int)
    requires m.Sound()
    ensures ExpectedScore(m, r, r) == 0.5
  {
    hide Maths.Sound, ExpectedScore;
    ExpectedPair(m, r, r);
  }

  predicate KnownBy(e: Entrant, list: seq<Entrant>) {
    forall i | 0 <= i < |list| :: list[i].user == e.user ==> list[i] == e
  }

  lemma {:induction false} BetterPlaceLeads(m: Maths, a: Entrant, b: Entrant, list: seq<Entrant>)
    requires m.Sound()
    requires a.rating == b.rating && a.place <= b.place && a.user != b.user
    requires KnownBy(a, list) && KnownBy(b, list)
    ensures Lead(m, b, list) <= Lead(m, a, list)
  {
    hide Maths.Sound, ExpectedScore;
    if list != [] {
      var o := list[0];
      assert o.user == a.user ==> o == a;
      assert o.user == b.user ==> o == b;
      BetterPlaceLeads(m, a, b, list[1..]);
      EvenGame(m, a.rating);
    }
  }

  lemma DistinctAreKnown(field: seq<Entrant>, i: nat)
    requires DistinctUsers(field) && i < |field|
    ensures KnownBy(field[i], field)
  {
  }

  /** Of two entrants equal in rating and grown deviation, the one placed no worse ends no lower. */
  lemma BetterPlacedEndsNoLower(m: Maths, field: seq<Entrant>, i: nat, j: nat)
    requires m.Sound() && DistinctUsers(field) && |field| >= 2
    requires i < |field| && j < |field| && i != j
    requires field[i].rating == field[j].rating && Grown(m, field[i]) == Grown(m, field[j])
    requires field[i].place <= field[j].place
    ensures Others(field, field[i].user) != [] && Others(field, field[j].user) != []
    ensures ChangeOf(m, field[j], Others(field, field[j].user)).ratingAfter <=
      ChangeOf(m, field[i], Others(field, field[i].user)).ratingAfter
  {
    hide Maths.Sound, Times, Over, KFactor, Grown, Round, Actual, Expected, Lead, Others;
    var a, b := field[i], field[j];
    assert a.user != b.user;
    OthersOf(field, i);
    OthersOf(field, j);
    DistinctAreKnown(field, i);
    DistinctAreKnown(field, j);
    BetterPlaceLeads(m, a, b, field);
    LeadIsBalance(m, a, field);
    LeadIsBalance(m, b, field);
    var n, k := (|field| - 1) as real, KFactor(Grown(m, a));
    KIsPositive(Grown(m, a));
    OverMonotone(Lead(m, b, field), Lead(m, a, field), n);
    TimesMonotone(k, Over(Lead(m, b, field), n), Over(Lead(m, a, field), n));
    RoundIsMonotone(b.rating as real + Times(k, Over(Lead(m, b, field), n)),
                    a.rating as real + Times(k, Over(Lead(m, a, field), n)));
  }

  // -------------------------------------------------------------- No ordering

  lemma {:induction false} LeadConcat(m: Maths, e: Entrant, a: seq<Entrant>, b: seq<Entrant>)
    requires m.Sound()
    ensures Lead(m, e, a + b) == Lead(m, e, a) + Lead(m, e, b)
  {
    hide Maths.Sound, Edge;
    if a == [] {
      assert a + b == b;
    } else {
      LeadConcat(m, e, a[1..], b);
      assert (a + b)[1..] == a[1..] + b;
    }
  }

  lemma {:induction false} LeadIgnoresOrder(m: Maths, e: Entrant, a: seq<Entrant>, b: seq<Entrant>)
    requires m.Sound()
    requires multiset(a) == multiset(b)
    ensures Lead(m, e, a) == Lead(m, e, b)
  {
    hide Maths.Sound, Edge;
    if a == [] {
      assert |multiset(b)| == 0;
    } else {
      assert a[0] in multiset(b);
      var k := Locate(a[0], b);
      TailElements(a);
      WithoutElements(b, k);
      LeadIgnoresOrder(m, e, a[1..], Without(b, k));
      LeadConcat(m, e, b[..k], b[k..]);
      LeadConcat(m, e, b[..k], b[k + 1..]);
      assert b == b[..k] + b[k..] && b[k..][1..] == b[k + 1..];
    }
  }

  /** Listing the field in another order changes nobody's result. */
  lemma OrderDoesNotMatter(m: Maths, a: seq<Entrant>, b: seq<Entrant>, e: Entrant)
    requires m.Sound() && DistinctUsers(a) && DistinctUsers(b) && |a| >= 2
    requires multiset(a) == multiset(b) && e in a
    ensures Others(a, e.user) != [] && Others(b, e.user) != []
    ensures ChangeOf(m, e, Others(a, e.user)) == ChangeOf(m, e, Others(b, e.user))
  {
    hide Maths.Sound, Times, Over, KFactor, Grown, Round, Actual, Expected, Lead, Others, ShrunkDeviation;
    assert |multiset(a)| == |a| && |multiset(b)| == |b|;
    assert e in multiset(a);
    var i := Locate(e, a);
    var j := Locate(e, b);
    OthersOf(a, i);
    OthersOf(b, j);
    LeadIgnoresOrder(m, e, a, b);
    LeadIsBalance(m, e, a);
    LeadIsBalance(m, e, b);
  }
}
