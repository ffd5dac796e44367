/** What a run earns, picked out of its tests and shares. */
module RunnerEarning {
  import opened Reals
  import opened Rounding
  import opened Selection
  import opened Runner
  import opened RunnerLaws

  predicate IsHidden(t: TestSpec) {
    !t.isSample
  }

  /** The subtask has a test, and every test of it is among the passed ones. */
  predicate AllOf(tests: seq<TestSpec>, passed: set<nat>, group: int) {
    (exists t :: t in tests && t.subtask == group) && forall t | t in tests && t.subtask == group :: t.idx in passed
  }

  lemma AllOfIsPassed(tests: seq<TestSpec>, passed: set<nat>, group: int)
    ensures AllOf(tests, passed, group) <==> GroupPassed(tests, passed, group)
  {
    if AllOf(tests, passed, group) {
      var t :| t in tests && t.subtask == group;
      var i :| 0 <= i < |tests| && tests[i] == t;
      assert InGroup(tests, i, group);
    }
    if GroupPassed(tests, passed, group) {
      var i :| 0 <= i < |tests| && InGroup(tests, i, group);
      assert tests[i] in tests;
      forall t | t in tests && t.subtask == group ensures t.idx in passed {
        var j :| 0 <= j < |tests| && tests[j] == t;
        assert InGroup(tests, j, group);
      }
    }
  }

  function IsPaid(tests: seq<TestSpec>, passed: set<nat>): Share -> bool {
    (s: Share) => AllOf(tests, passed, s.group)
  }

  function IsPassed(passed: set<nat>): TestSpec -> bool {
    (t: TestSpec) => t.idx in passed
  }

  lemma LastOf<T>(s: seq<T>, x: T)
    ensures (s + [x])[..|s + [x]| - 1] == s && (s + [x])[|s + [x]| - 1] == x && |s + [x]| == |s| + 1
  {
  }

  /** The shares that count are those of the subtasks passed in full. */
  lemma {:induction false} PaidAreSummed(tests: seq<TestSpec>, passed: set<nat>, shares: seq<Share>)
    returns (paid: seq<Share>)
    ensures Picks(shares, IsPaid(tests, passed), paid) && PaidShares(tests, passed, shares) == TotalShare(paid)
  {
    hide Picks, AllOf, GroupPassed;
    if shares == [] {
      PicksNothing(IsPaid(tests, passed));
      paid := [];
    } else {
      var most, last := shares[..|shares| - 1], shares[|shares| - 1];
      var some := PaidAreSummed(tests, passed, most);
      AllOfIsPassed(tests, passed, last.group);
      PicksOneMore(most, last, IsPaid(tests, passed), some);
      assert most + [last] == shares;
      LastOf(some, last);
      paid := if AllOf(tests, passed, last.group) then some + [last] else some;
    }
  }

  lemma {:induction false} HiddenArePicked(tests: seq<TestSpec>)
    ensures Picks(tests, IsHidden, Hidden(tests))
  {
    hide Picks;
    if tests == [] {
      PicksNothing(IsHidden);
    } else {
      var most, last := tests[..|tests| - 1], tests[|tests| - 1];
      HiddenArePicked(most);
      PicksOneMore(most, last, IsHidden, Hidden(most));
      assert most + [last] == tests;
      assert Hidden(most) + [] == Hidden(most);
    }
  }

  lemma {:induction false} PassedAreCounted(tests: seq<TestSpec>, passed: set<nat>) returns (passing: seq<TestSpec>)
    ensures Picks(tests, IsPassed(passed), passing) && CountPassed(tests, passed) == |passing|
  {
    hide Picks;
    if tests == [] {
      PicksNothing(IsPassed(passed));
      passing := [];
    } else {
      var most, last := tests[..|tests| - 1], tests[|tests| - 1];
      var some := PassedAreCounted(most, passed);
      PicksOneMore(most, last, IsPassed(passed), some);
      assert most + [last] == tests;
      passing := if last.idx in passed then some + [last] else some;
    }
  }

  /** The tests that score: the hidden ones in order, or every test if there is no hidden one. */
  ghost predicate AreScored(tests: seq<TestSpec>, scored: seq<TestSpec>) {
    if exists t :: t in tests && !t.isSample then Picks(tests, IsHidden, scored) else scored == tests
  }

  lemma ScoredAreScored(tests: seq<TestSpec>)
    ensures AreScored(tests, Scored(tests))
  {
    HiddenArePicked(tests);
    PickedAreWanted(tests, IsHidden, Hidden(tests));
    hide Picks;
    if Hidden(tests) != [] {
      assert Hidden(tests)[0] in Hidden(tests);
    }
  }

  lemma PercentageIsNearest(part: nat, whole: nat)
    requires whole > 0
    ensures IsNearest(100 * part, whole, Percentage(part, whole))
  {
    RoundIsNearest(100 * part, whole, Percentage(part, whole));
  }

  /** With subtasks, the shares of those passed in full, a hundred at most; on a partial problem the nearest percentage
      of the scored tests; otherwise everything for passing every scored test, and nothing for less. */
  lemma WhatIsEarned(tests: seq<TestSpec>, passed: set<nat>, shares: seq<Share>, partial: bool)
    returns (paid: seq<Share>, scored: seq<TestSpec>, passing: seq<TestSpec>)
    requires tests != []
    ensures Picks(shares, IsPaid(tests, passed), paid)
    ensures AreScored(tests, scored) && scored != [] && Picks(scored, IsPassed(passed), passing)
    ensures shares != [] ==>
      EarnedBy(tests, passed, shares, partial) == if TotalShare(paid) <= 100 then TotalShare(paid) else 100
    ensures shares == [] && partial ==>
      IsNearest(100 * |passing|, |scored|, EarnedBy(tests, passed, shares, partial))
    ensures shares == [] && !partial ==>
      EarnedBy(tests, passed, shares, partial) == if passing == scored then 100 else 0
  {
    hide Picks, AreScored, IsNearest, Percentage;
    paid := PaidAreSummed(tests, passed, shares);
    scored := Scored(tests);
    ScoredAreScored(tests);
    passing := PassedAreCounted(scored, passed);
    PercentageIsNearest(|passing|, |scored|);
    MoreCounted(scored, passed, passed);
    PassingAll(scored, passed, passing);
  }

  lemma PassingAll(scored: seq<TestSpec>, passed: set<nat>, passing: seq<TestSpec>)
    requires Picks(scored, IsPassed(passed), passing)
    ensures passing == scored <==> EveryPassed(scored, passed)
  {
    PickedAreWanted(scored, IsPassed(passed), passing);
    if EveryPassed(scored, passed) {
      EverythingPicked(scored, IsPassed(passed));
      PicksAreUnique(scored, IsPassed(passed), passing, scored);
    } else {
      var i :| 0 <= i < |scored| && scored[i].idx !in passed;
      assert scored[i] in scored;
    }
  }

  function UpTo(n: nat): (ps: seq<nat>)
    ensures |ps| == n && forall i | 0 <= i < n :: ps[i] == i
  {
    seq(n, i requires 0 <= i < n => i)
  }

  lemma EverythingPicked<T(!new)>(all: seq<T>, wanted: T -> bool)
    requires forall x | x in all :: wanted(x)
    ensures Picks(all, wanted, all)
  {
    var ps := UpTo(|all|);
    forall p | 0 <= p < |all| ensures p in ps <==> wanted(all[p]) {
      assert ps[p] == p;
    }
    assert PicksAt(all, wanted, all, ps);
  }

  lemma {:induction false} NothingPaid(tests: seq<TestSpec>, shares: seq<Share>)
    ensures PaidShares(tests, {}, shares) == 0
  {
    if shares != [] {
      NothingPaid(tests, shares[..|shares| - 1]);
    }
  }

  lemma {:induction false} NothingCounted(tests: seq<TestSpec>)
    ensures CountPassed(tests, {}) == 0
  {
    if tests != [] {
      NothingCounted(tests[..|tests| - 1]);
    }
  }

  lemma NothingPassedEarnsNothing(tests: seq<TestSpec>, shares: seq<Share>, partial: bool)
    ensures EarnedBy(tests, {}, shares, partial) == 0
  {
    NothingPaid(tests, shares);
    var scored := Scored(tests);
    NothingCounted(scored);
    if tests != [] {
      PercentageOrder(0, 0, |scored|);
      PercentageIsNearest(0, |scored|);
    }
  }
}
