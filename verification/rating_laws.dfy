/** What one contest may and may not do to a field: conservation, bounds, fairness, no dependence on order. */
module RatingLaws {
  import opened Options
  import opened Reals
  import opened Rounding
  import opened Sorting
  import opened Rating

  // ------------------------------------------------------------ Conservation

  /** How far one game went above expectation. */
  function Edge(m: Maths, e: Entrant, o: Entrant): real
    requires m.Sound()
  {
    PointsFor(e.place, o.place) - ExpectedScore(m, e.rating, o.rating)
  }

  lemma EdgesCancel(m: Maths, e: Entrant, o: Entrant)
    requires m.Sound()
    ensures Edge(m, e, o) + Edge(m, o, e) == 0.0
  {
    hide Maths.Sound, ExpectedScore;
    ExpectedPair(m, e.rating, o.rating);
  }

  /** An entrant's games against everyone else in a list. */
  function Lead(m: Maths, e: Entrant, list: seq<Entrant>): real
    requires m.Sound()
  {
    if list == [] then 0.0
    else (if list[0].user != e.user then Edge(m, e, list[0]) else 0.0) + Lead(m, e, list[1..])
  }

  function TotalLead(m: Maths, these: seq<Entrant>, those: seq<Entrant>): real
    requires m.Sound()
  {
    if these == [] then 0.0 else Lead(m, these[0], those) + TotalLead(m, these[1..], those)
  }

  lemma {:induction false} LeadIsBalance(m: Maths, e: Entrant, field: seq<Entrant>)
    requires m.Sound()
    ensures Lead(m, e, field) == Actual(e, Others(field, e.user)) - Expected(m, e, Others(field, e.user))
  {
    hide Maths.Sound, ExpectedScore;
    if field != [] {
      var rest := Others(field[1..], e.user);
      LeadIsBalance(m, e, field[1..]);
      if field[0].user != e.user {
        assert Others(field, e.user)[1..] == rest;
      } else {
        assert Others(field, e.user) == rest;
      }
    }
  }

  lemma {:induction false} TotalAgainstOneMore(m: Maths, these: seq<Entrant>, o: Entrant, those: seq<Entrant>)
    requires m.Sound()
    ensures TotalLead(m, these, [o] + those) == TotalLead(m, these, those) - Lead(m, o, these)
  {
    hide Maths.Sound, Edge;
    assert ([o] + those)[1..] == those;
    if these != [] {
      TotalAgainstOneMore(m, these[1..], o, those);
      EdgesCancel(m, these[0], o);
    }
  }

  lemma {:induction false} TotalsCancel(m: Maths, these: seq<Entrant>, those: seq<Entrant>)
    requires m.Sound()
    ensures TotalLead(m, these, those) + TotalLead(m, those, these) == 0.0
  {
    hide Maths.Sound, Lead;
    if these == [] {
      NothingToLead(m, those);
    } else {
      TotalsCancel(m, these[1..], those);
      TotalAgainstOneMore(m, those, these[0], these[1..]);
      assert these == [these[0]] + these[1..];
    }
  }

  lemma {:induction false} NothingToLead(m: Maths, these: seq<Entrant>)
    requires m.Sound()
    ensures TotalLead(m, these, []) == 0.0
  {
    if these != [] {
      NothingToLead(m, these[1..]);
    }
  }

  /** The sum, over some entrants of a field, of each unrounded change divided by that entrant's own K. */
  function ChangesOverK(m: Maths, field: seq<Entrant>, n: nat): real
    requires m.Sound() && DistinctUsers(field) && |field| >= 2 && n <= |field|
  {
    if n == 0 then 0.0
    else
      var e := field[n - 1];
      OthersOf(field, n - 1);
      KIsPositive(Grown(m, e));
      ChangesOverK(m, field, n - 1) + Over(UnroundedChange(m, e, Others(field, e.user)), KFactor(Grown(m, e)))
  }

  lemma KIsPositive(deviation: real)
    ensures K_SETTLED <= KFactor(deviation) <= K_UNPLACED
  {
  }

  lemma {:induction false} ChangesOverKIsLead(m: Maths, field: seq<Entrant>, n: nat)
    requires m.Sound() && DistinctUsers(field) && |field| >= 2 && n <= |field|
    ensures Times(ChangesOverK(m, field, n), (|field| - 1) as real) == TotalLead(m, field[..n], field)
  {
    hide Maths.Sound, KFactor, Grown, Times, Over, Actual, Expected, Others, Lead;
    if n == 0 {
      TimesUnit((|field| - 1) as real);
    } else {
      var e := field[n - 1];
      OthersOf(field, n - 1);
      var others := Others(field, e.user);
      ChangesOverKIsLead(m, field, n - 1);
      KIsPositive(Grown(m, e));
      var k, margin, size := KFactor(Grown(m, e)), Margin(m, e, others), |others| as real;
      TimesCommutes(k, margin);
      TimesOver(margin, k);
      OverTimes(Actual(e, others) - Expected(m, e, others), size);
      SumOverTimes(ChangesOverK(m, field, n - 1), margin, size);
      LeadIsBalance(m, e, field);
      assert field[..n] == field[..n - 1] + [e];
      TotalOfOneMore(m, field[..n - 1], e, field);
    }
  }

  lemma {:induction false} TotalOfOneMore(m: Maths, these: seq<Entrant>, e: Entrant, those: seq<Entrant>)
    requires m.Sound()
    ensures TotalLead(m, these + [e], those) == TotalLead(m, these, those) + Lead(m, e, those)
  {
    hide Maths.Sound, Lead;
    if these == [] {
      assert these + [e] == [e] && [e][1..] == [];
    } else {
      TotalOfOneMore(m, these[1..], e, those);
      assert (these + [e])[1..] == these[1..] + [e];
    }
  }

  /** Nothing is created: over any field, the unrounded changes, each in units of its own K, sum to exactly zero. */
  lemma ChangesAreConserved(m: Maths, field: seq<Entrant>)
    requires m.Sound() && DistinctUsers(field) && |field| >= 2
    ensures ChangesOverK(m, field, |field|) == 0.0
  {
    hide Maths.Sound, ChangesOverK, TotalLead;
    ChangesOverKIsLead(m, field, |field|);
    TotalsCancel(m, field, field);
    assert field[..|field|] == field;
    var size := (|field| - 1) as real;
    TimesOver(ChangesOverK(m, field, |field|), size);
    OverUnit(size);
  }

  // ------------------------------------------------- Conservation after rounding

  predicate HitsFloor(c: Change) {
    c.ratingAfter == RATING_FLOOR
  }

  /** The sum of the rating changes as stored. */
  function StoredSum(changes: seq<Change>): int {
    if changes == [] then 0
    else
      var c := changes[|changes| - 1];
      StoredSum(changes[..|changes| - 1]) + (c.ratingAfter - c.ratingBefore)
  }

  ghost predicate AreChanges(m: Maths, field: seq<Entrant>, changes: seq<Change>)
    requires m.Sound()
  {
    |changes| == |field| && forall i | 0 <= i < |field| ::
      Others(field, field[i].user) != [] && changes[i] == ChangeOf(m, field[i], Others(field, field[i].user))
  }

  lemma RoundedChange(m: Maths, e: Entrant, others: seq<Entrant>)
    requires m.Sound() && others != []
    ensures
      var c := ChangeOf(m, e, others);
      var stored, exact := (c.ratingAfter - c.ratingBefore) as real, UnroundedChange(m, e, others);
      && exact - 0.5 <= stored
      && (!HitsFloor(c) ==> stored <= exact + 0.5)
  {
    hide Maths.Sound, UnroundedChange, Round, Grown;
  }

  lemma {:induction false} StoredSumBounds(m: Maths, field: seq<Entrant>, changes: seq<Change>, k: real, n: nat)
    requires m.Sound() && DistinctUsers(field) && |field| >= 2 && n <= |field|
    requires AreChanges(m, field, changes)
    requires forall i | 0 <= i < |field| :: KFactor(Grown(m, field[i])) == k
    ensures
      var exact := Times(ChangesOverK(m, field, n), k);
      && exact - 0.5 * n as real <= StoredSum(changes[..n]) as real
      && ((forall i | 0 <= i < n :: !HitsFloor(changes[i])) ==>
        StoredSum(changes[..n]) as real <= exact + 0.5 * n as real)
  {
    hide Maths.Sound, KFactor, Grown, Times, Over, UnroundedChange, ChangeOf, HitsFloor, Others;
    if n == 0 {
      TimesUnit(k);
    } else {
      var e := field[n - 1];
      OthersOf(field, n - 1);
      var others := Others(field, e.user);
      StoredSumBounds(m, field, changes, k, n - 1);
      KIsPositive(Grown(m, e));
      var exact := UnroundedChange(m, e, others);
      SumOverTimes(ChangesOverK(m, field, n - 1), Over(exact, k), k);
      OverTimes(exact, k);
      RoundedChange(m, e, others);
      assert changes[..n][..n - 1] == changes[..n - 1];
    }
  }

  /** With one K for everyone, the stored changes sum to within half a point a head of zero when nobody lands on the
      floor, and never to less than minus that when somebody does. */
  lemma StoredChangesNearlyCancel(m: Maths, field: seq<Entrant>, changes: seq<Change>, k: real)
    requires m.Sound() && DistinctUsers(field) && |field| >= 2
    requires AreChanges(m, field, changes)
    requires forall i | 0 <= i < |field| :: KFactor(Grown(m, field[i])) == k
    ensures -(|field| as real) / 2.0 <= StoredSum(changes) as real
    ensures (forall i | 0 <= i < |changes| :: !HitsFloor(changes[i])) ==>
      StoredSum(changes) as real <= |field| as real / 2.0
  {
    hide Maths.Sound, KFactor, Grown, ChangesOverK, AreChanges;
    ChangesAreConserved(m, field);
    StoredSumBounds(m, field, changes, k, |field|);
    LengthOfChanges(m, field, changes);
    TimesUnit(k);
  }

  lemma LengthOfChanges(m: Maths, field: seq<Entrant>, changes: seq<Change>)
    requires m.Sound() && AreChanges(m, field, changes)
    ensures |changes| == |field| && changes[..|field|] == changes
  {
  }
}
