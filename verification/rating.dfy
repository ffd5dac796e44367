/** One rated contest: Elo over a field, moved by how uncertain each rating is. */
module Rating {
  import opened Options
  import opened Reals
  import opened Rounding

  const START_RATING := 1000
  const RATING_FLOOR := 100
  const DEVIATION_NEW := 350.0
  const DEVIATION_MIN := 50.0
  const PERIOD_DAYS := 14.0
  const PERIODS_TO_FORGET := 13.0
  /** The square of the growth constant: in that many periods it takes the smallest variance to the largest. */
  const GROWTH_SQUARED := (DEVIATION_NEW * DEVIATION_NEW - DEVIATION_MIN * DEVIATION_MIN) / PERIODS_TO_FORGET
  const K_SETTLED := 20.0
  const K_UNPLACED := 120.0

  datatype Entrant = Entrant(user: int, rating: int, deviation: real, daysIdle: Option<real>, place: int)
  datatype Change = Change(user: int, place: int, ratingBefore: int, ratingAfter: int,
                           deviationBefore: real, deviationAfter: real)

  // ------------------------------------------------------- The real functions

  /** Ten to a power, and the square root: all that is used of them is what `Sound` says. */
  datatype Maths = Maths(pow10: real -> real, sqrt: real -> real) {
    ghost predicate PowerLaws() {
      && (forall x :: pow10(x) > 0.0)
      && pow10(0.0) == 1.0 && pow10(1.0) == 10.0
      && (forall x, y :: Times(pow10(x), pow10(y)) == pow10(x + y))
      && (forall x, y :: x <= y ==> pow10(x) <= pow10(y))
    }

    ghost predicate RootLaws() {
      forall x :: x >= 0.0 ==> sqrt(x) >= 0.0 && Times(sqrt(x), sqrt(x)) == x
    }

    ghost predicate Sound() {
      PowerLaws() && RootLaws()
    }
  }

  // ----------------------------------------------------------- One opponent

  function ExpectedScore(m: Maths, rating: int, opponent: int): real
    requires m.Sound()
  {
    Over(1.0, 1.0 + m.pow10((opponent - rating) as real / 400.0))
  }

  function PointsFor(place: int, other: int): real {
    if place < other then 1.0 else if place == other then 0.5 else 0.0
  }

  lemma Reciprocals(a: real, b: real)
    requires a > 0.0 && b > 0.0 && Times(a, b) == 1.0
    ensures Over(1.0, 1.0 + a) + Over(1.0, 1.0 + b) == 1.0
  {
    var x, y := Over(1.0, 1.0 + a), Over(1.0, 1.0 + b);
    assert x * (1.0 + a) == 1.0 && y * (1.0 + b) == 1.0;
    assert x == b / (b + 1.0) by {
      assert (b + 1.0) * x == b * ((1.0 + a) * x);
    }
  }

  /** Two opponents' expectations of each other add up to one game. */
  lemma ExpectedPair(m: Maths, r: int, o: int)
    requires m.Sound()
    ensures ExpectedScore(m, r, o) + ExpectedScore(m, o, r) == 1.0
  {
    var x := (o - r) as real / 400.0;
    var a, b := m.pow10(x), m.pow10(-x);
    assert (r - o) as real / 400.0 == -x;
    assert Times(a, b) == m.pow10(x + -x) == 1.0;
    Reciprocals(a, b);
  }

  lemma ExpectedBounds(m: Maths, r: int, o: int)
    requires m.Sound()
    ensures 0.0 < ExpectedScore(m, r, o) < 1.0
  {
    Fraction(m.pow10((o - r) as real / 400.0));
  }

  lemma Fraction(a: real)
    requires a > 0.0
    ensures 0.0 < Over(1.0, 1.0 + a) < 1.0
  {
  }

  // ---------------------------------------------------------- The deviation

  function Least(x: real, y: real): real {
    if x <= y then x else y
  }

  function Most(x: real, y: real): real {
    if x >= y then x else y
  }

  function Square(x: real): real {
    Times(x, x)
  }

  function GrownDeviation(m: Maths, deviation: real, daysIdle: Option<real>): real
    requires m.Sound()
  {
    if daysIdle == None || daysIdle.value <= 0.0 then Least(deviation, DEVIATION_NEW)
    else
      var periods := daysIdle.value / PERIOD_DAYS;
      Least(m.sqrt(Square(deviation) + GROWTH_SQUARED * periods), DEVIATION_NEW)
  }

  function Learned(opponents: nat): real {
    Over(0.5 * opponents as real, opponents as real + 8.0)
  }

  function ShrunkDeviation(deviation: real, opponents: nat): real {
    if opponents == 0 then deviation
    else Most(DEVIATION_MIN, Times(deviation, 1.0 - Learned(opponents)))
  }

  function KFactor(deviation: real): real {
    var position := (deviation - DEVIATION_MIN) / (DEVIATION_NEW - DEVIATION_MIN);
    K_SETTLED + (K_UNPLACED - K_SETTLED) * Least(1.0, Most(0.0, position))
  }

  // -------------------------------------------------------------- The field

  function Others(field: seq<Entrant>, user: int): seq<Entrant> {
    if field == [] then []
    else (if field[0].user != user then [field[0]] else []) + Others(field[1..], user)
  }

  function Actual(e: Entrant, others: seq<Entrant>): real {
    if others == [] then 0.0 else PointsFor(e.place, others[0].place) + Actual(e, others[1..])
  }

  function Expected(m: Maths, e: Entrant, others: seq<Entrant>): real
    requires m.Sound()
  {
    if others == [] then 0.0 else ExpectedScore(m, e.rating, others[0].rating) + Expected(m, e, others[1..])
  }

  predicate DistinctUsers(field: seq<Entrant>) {
    forall i, j | 0 <= i < j < |field| :: field[i].user != field[j].user
  }

  function Grown(m: Maths, e: Entrant): real
    requires m.Sound()
  {
    GrownDeviation(m, e.deviation, e.daysIdle)
  }

  /** Above or below expectation, averaged over the opponents. */
  function Margin(m: Maths, e: Entrant, others: seq<Entrant>): real
    requires m.Sound() && others != []
  {
    Over(Actual(e, others) - Expected(m, e, others), |others| as real)
  }

  function UnroundedChange(m: Maths, e: Entrant, others: seq<Entrant>): real
    requires m.Sound() && others != []
  {
    Times(KFactor(Grown(m, e)), Margin(m, e, others))
  }

  function AtLeastFloor(rating: int): int {
    if rating >= RATING_FLOOR then rating else RATING_FLOOR
  }

  /** What one contest does to an entrant, given the opponents. */
  function ChangeOf(m: Maths, e: Entrant, others: seq<Entrant>): Change
    requires m.Sound() && others != []
  {
    Change(e.user, e.place, e.rating, AtLeastFloor(Round(e.rating as real + UnroundedChange(m, e, others))),
           e.deviation, ShrunkDeviation(Grown(m, e), |others|))
  }

  lemma {:induction false} OthersLength(field: seq<Entrant>, user: int)
    requires DistinctUsers(field)
    ensures |Others(field, user)| == |field| || |Others(field, user)| == |field| - 1
    ensures (exists i | 0 <= i < |field| :: field[i].user == user) ==> |Others(field, user)| == |field| - 1
  {
    if field != [] {
      OthersLength(field[1..], user);
      if field[0].user == user {
        NobodyElse(field[1..], user);
      } else if i :| 0 <= i < |field| && field[i].user == user {
        assert field[1..][i - 1].user == user;
      }
    }
  }

  lemma {:induction false} NobodyElse(field: seq<Entrant>, user: int)
    requires forall i | 0 <= i < |field| :: field[i].user != user
    ensures Others(field, user) == field
  {
    if field != [] {
      NobodyElse(field[1..], user);
    }
  }

  lemma OthersOf(field: seq<Entrant>, i: nat)
    requires DistinctUsers(field) && |field| >= 2 && i < |field|
    ensures |Others(field, field[i].user)| == |field| - 1 && Others(field, field[i].user) != []
  {
    OthersLength(field, field[i].user);
  }

  /** A lone entrant is left alone; otherwise everyone changes against everyone else as they stood at the start. */
  method Compute(m: Maths, field: seq<Entrant>) returns (changes: seq<Change>)
    requires m.Sound() && DistinctUsers(field)
    ensures |field| < 2 ==> changes == []
    ensures |field| >= 2 ==> |changes| == |field| && forall i | 0 <= i < |field| ::
      Others(field, field[i].user) != [] && changes[i] == ChangeOf(m, field[i], Others(field, field[i].user))
  {
    hide Maths.Sound, ExpectedScore, GrownDeviation, KFactor, Learned, Times, Over, Round;
    if |field| < 2 {
      return [];
    }
    var grown: map<int, real> := map[];
    for i := 0 to |field|
      invariant forall j | 0 <= j < i :: field[j].user in grown && grown[field[j].user] == Grown(m, field[j])
    {
      grown := grown[field[i].user := GrownDeviation(m, field[i].deviation, field[i].daysIdle)];
    }
    changes := [];
    for i := 0 to |field|
      invariant |changes| == i
      invariant forall j | 0 <= j < i ::
        Others(field, field[j].user) != [] && changes[j] == ChangeOf(m, field[j], Others(field, field[j].user))
    {
      var entrant := field[i];
      OthersOf(field, i);
      var others := Others(field, entrant.user);
      var actual := Actual(entrant, others);
      var expected := Expected(m, entrant, others);
      var margin := Over(actual - expected, |others| as real);
      var deviation := grown[entrant.user];
      var after := entrant.rating as real + Times(KFactor(deviation), margin);
      var rounded := Round(after);
      var change := Change(entrant.user, entrant.place, entrant.rating,
                           if rounded > RATING_FLOOR then rounded else RATING_FLOOR,
                           entrant.deviation, ShrunkDeviation(deviation, |others|));
      changes := changes + [change];
    }
  }
}
