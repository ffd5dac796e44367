/** A result written over another one: exactly when it costs its author points. */
module Overwriting {
  import opened Reals
  import opened Rounding
  import opened Sorting
  import opened Scoring
  import opened Standings

  // --------------------------------------------------------- One value raised

  /** Raising one value raises the decayed sum. */
  lemma {:induction false} RaisedValue(s: seq<nat>, k: nat, y: nat, d: real)
    requires IsDecay(d) && k < |s| && s[k] < y
    ensures Decayed(s, d) < Decayed(s[k := y], d)
  {
    hide Times, Decayed;
    var rest := s[1..];
    assert s == [s[0]] + rest;
    DecayedOfCons(s[0], rest, d);
    if k == 0 {
      assert s[k := y] == [y] + rest;
      DecayedOfCons(y, rest, d);
    } else {
      assert s[k := y] == [s[0]] + rest[k - 1 := y];
      DecayedOfCons(s[0], rest[k - 1 := y], d);
      RaisedValue(rest, k - 1, y, d);
      var low, high := Decayed(rest, d), Decayed(rest[k - 1 := y], d);
      TimesPositive(d, high - low);
      TimesOverSum(d, high, low);
    }
  }

  lemma ReplacedElements(s: seq<nat>, k: nat, y: nat)
    requires k < |s|
    ensures multiset(s[k := y]) == multiset(s) - multiset{s[k]} + multiset{y}
  {
  }

  lemma RaisedScore(points: seq<nat>, x: nat, y: nat, d: real)
    requires IsDecay(d) && x < y
    ensures WeightedScore(points + [x], d) < WeightedScore(points + [y], d)
  {
    hide Decayed, WeightedScore, Terms, HardestFirst;
    var sorted := Listing(points + [x], d);
    assert x in multiset(sorted);
    var k := Locate(x, sorted);
    var raised := sorted[k := y];
    ReplacedElements(sorted, k, y);
    assert multiset(raised) == multiset(points + [y]);
    RaisedValue(sorted, k, y, d);
    ScoreIsTheBestOrder(points + [y], raised, d);
    AsGivenIsDecayed(raised, d);
  }

  /** What is worth nothing adds nothing. */
  lemma NothingAdded(points: seq<nat>, d: real)
    requires IsDecay(d)
    ensures WeightedScore(points + [0], d) == WeightedScore(points, d)
  {
    hide WeightedScore;
    OneMoreSolve(points, 0, d);
    TimesUnit(Power(d, |points|));
  }

  // --------------------------------------------------- A user's values but for one problem

  function Rest(groups: seq<Group>, problem: int): seq<Group> {
    if groups == [] then []
    else (if groups[0].problem == problem then [] else [groups[0]]) + Rest(groups[1..], problem)
  }

  lemma {:induction false} RestHas(groups: seq<Group>, problem: int)
    ensures forall g :: g in Rest(groups, problem) <==> g in groups && g.problem != problem
  {
    if groups != [] {
      RestHas(groups[1..], problem);
      assert groups == [groups[0]] + groups[1..];
    }
  }

  lemma {:induction false} RestNoRepeats(groups: seq<Group>, problem: int)
    requires NoRepeats(groups)
    ensures NoRepeats(Rest(groups, problem))
  {
    if groups != [] {
      RestNoRepeats(groups[1..], problem);
      RestHas(groups[1..], problem);
      assert groups[0] !in groups[1..];
    }
  }

  /** What the best on a problem is worth. */
  function WorthOfBest(user: int, problem: int, best: nat, problems: Problems): nat {
    if problem in problems then Worth(Group(user, problem, best), problems) else 0
  }

  lemma NothingIsWorthNothing(user: int, problem: int, problems: Problems)
    ensures WorthOfBest(user, problem, 0, problems) == 0
  {
    if problem in problems {
      RoundOfInteger(0);
    }
  }

  predicate AllOf(groups: seq<Group>, user: int) {
    forall i | 0 <= i < |groups| :: groups[i].user == user
  }

  lemma RestEarned(groups: seq<Group>, problem: int, problems: Problems)
    requires AllEarned(groups, problems)
    ensures AllEarned(Rest(groups, problem), problems)
  {
    RestHas(groups, problem);
    forall i | 0 <= i < |Rest(groups, problem)|
      ensures Rest(groups, problem)[i].best > 0 && Rest(groups, problem)[i].problem in problems
    {
      assert Rest(groups, problem)[i] in groups;
    }
  }

  lemma {:induction false} RestIsAll(groups: seq<Group>, problem: int)
    requires forall i | 0 <= i < |groups| :: groups[i].problem != problem
    ensures Rest(groups, problem) == groups
  {
    if groups != [] {
      RestIsAll(groups[1..], problem);
    }
  }

  lemma ConsValues(g: Group, rest: seq<Group>, problems: Problems)
    requires AllEarned([g] + rest, problems)
    ensures AllEarned(rest, problems) && g.problem in problems
    ensures Values([g] + rest, problems) == [Worth(g, problems)] + Values(rest, problems)
  {
    hide Worth;
    assert forall i | 0 <= i < |rest| :: ([g] + rest)[i + 1] == rest[i];
    assert ([g] + rest)[0] == g;
  }

  lemma OneFewer(g: Group, rest: seq<Group>, user: int, problem: int, problems: Problems)
    requires OnePerKey([g] + rest) && AllEarned([g] + rest, problems) && AllOf([g] + rest, user)
    ensures OnePerKey(rest) && AllEarned(rest, problems) && AllOf(rest, user) && g.user == user && g.best > 0
    ensures Find([g] + rest, user, problem) == if g.problem == problem then g.best else Find(rest, user, problem)
    ensures Rest([g] + rest, problem) == if g.problem == problem then rest else [g] + Rest(rest, problem)
  {
    var groups := [g] + rest;
    assert groups[1..] == rest && groups[0] == g;
    forall i | 0 <= i < |rest|
      ensures rest[i] == groups[i + 1] && (g.problem == problem ==> rest[i].problem != problem)
    {
      assert !SameKey(groups[0], groups[i + 1]);
    }
    forall i, j | 0 <= i < j < |rest| ensures !SameKey(rest[i], rest[j]) {
      assert !SameKey(groups[i + 1], groups[j + 1]);
    }
    if g.problem == problem {
      RestIsAll(rest, problem);
    }
  }

  /** A user's values: those on the other problems, and the one on this problem if there is one. */
  lemma {:induction false} ValuesSplit(groups: seq<Group>, user: int, problem: int, problems: Problems)
    requires OnePerKey(groups) && AllEarned(groups, problems) && AllOf(groups, user)
    ensures AllEarned(Rest(groups, problem), problems)
    ensures
      var best := Find(groups, user, problem);
      multiset(Values(groups, problems)) == multiset(Values(Rest(groups, problem), problems))
        + (if best > 0 then multiset{WorthOfBest(user, problem, best, problems)} else multiset{})
  {
    hide Worth, Values, Find, OnePerKey, AllOf, Rest;
    RestEarned(groups, problem, problems);
    if groups == [] {
      NothingToSplit(user, problem, problems);
    } else {
      var g, rest := groups[0], groups[1..];
      assert groups == [g] + rest;
      OneFewer(g, rest, user, problem, problems);
      ValuesSplit(rest, user, problem, problems);
      ValuesSplitOnce(g, rest, user, problem, problems);
    }
  }

  lemma NothingToSplit(user: int, problem: int, problems: Problems)
    ensures Find([], user, problem) == 0 && Rest([], problem) == []
  {
  }

  lemma ValuesSplitOnce(g: Group, rest: seq<Group>, user: int, problem: int, problems: Problems)
    requires OnePerKey([g] + rest) && AllEarned([g] + rest, problems) && AllOf([g] + rest, user)
    requires AllEarned(rest, problems) && AllEarned(Rest(rest, problem), problems)
    requires
      var best := Find(rest, user, problem);
      multiset(Values(rest, problems)) == multiset(Values(Rest(rest, problem), problems))
        + (if best > 0 then multiset{WorthOfBest(user, problem, best, problems)} else multiset{})
    ensures AllEarned(Rest([g] + rest, problem), problems)
    ensures
      var best := Find([g] + rest, user, problem);
      multiset(Values([g] + rest, problems)) == multiset(Values(Rest([g] + rest, problem), problems))
        + (if best > 0 then multiset{WorthOfBest(user, problem, best, problems)} else multiset{})
  {
    hide Worth, Values, Rest, Find, OnePerKey, AllOf;
    OneFewer(g, rest, user, problem, problems);
    RestEarned([g] + rest, problem, problems);
    ConsValues(g, rest, problems);
    if g.problem == problem {
      assert g == Group(user, problem, g.best);
    } else {
      ConsValues(g, Rest(rest, problem), problems);
    }
  }

  /** A user's score is the score of the other problems with what this one is worth added, zero or not. */
  lemma ScoreSplit(subs: seq<Submission>, problems: Problems, user: int, problem: int, d: real)
    requires IsDecay(d)
    ensures AllEarned(Rest(UserGroups(subs, problems, user), problem), problems)
    ensures
      var others := Values(Rest(UserGroups(subs, problems, user), problem), problems);
      var worth := WorthOfBest(user, problem, Best(subs, problems, user, problem), problems);
      UserScore(subs, problems, user, d) == WeightedScore(others + [worth], d)
  {
    hide Worth, WeightedScore;
    var groups := UserGroups(subs, problems, user);
    GroupsAreBest(subs, problems);
    OfKeeps(Groups(subs, problems), problems, user);
    var best := Best(subs, problems, user, problem);
    assert Find(groups, user, problem) == best;
    ValuesSplit(groups, user, problem, problems);
    var others := Values(Rest(groups, problem), problems);
    var worth := WorthOfBest(user, problem, best, problems);
    if best > 0 {
      assert multiset(Values(groups, problems)) == multiset(others + [worth]);
      ScoreIsTheBestOrder(Values(groups, problems), others + [worth], d);
    } else {
      NothingIsWorthNothing(user, problem, problems);
      NothingAdded(others, d);
      assert multiset(Values(groups, problems)) == multiset(others);
      ScoreIsTheBestOrder(Values(groups, problems), others, d);
    }
  }

  // ------------------------------------------------------------- One row overwritten

  function Overwritten(subs: seq<Submission>, row: nat, earned: nat): seq<Submission>
    requires row < |subs|
  {
    subs[row := subs[row].(earned := earned)]
  }

  lemma {:induction false} OtherBestsStay(subs: seq<Submission>, problems: Problems, row: nat, earned: nat, user: int,
                                          problem: int)
    requires row < |subs| && (subs[row].user != user || subs[row].problem != problem)
    ensures Best(Overwritten(subs, row, earned), problems, user, problem) == Best(subs, problems, user, problem)
  {
    var later := Overwritten(subs, row, earned);
    if row == |subs| - 1 {
      assert later[..row] == subs[..row];
    } else {
      assert later[..|subs| - 1] == Overwritten(subs[..|subs| - 1], row, earned);
      OtherBestsStay(subs[..|subs| - 1], problems, row, earned, user, problem);
    }
  }

  lemma OneGroupEach(subs: seq<Submission>, problems: Problems, user: int)
    ensures
      var groups := UserGroups(subs, problems, user);
      && NoRepeats(groups) && AllOf(groups, user)
      && forall g :: g in groups <==>
        g.user == user && g.best > 0 && g.best == Best(subs, problems, user, g.problem)
  {
    var groups := UserGroups(subs, problems, user);
    GroupsAreBest(subs, problems);
    OfKeeps(Groups(subs, problems), problems, user);
    forall g ensures g in groups <==> g.user == user && g.best > 0 && g.best == Best(subs, problems, user, g.problem) {
      if g in groups {
        var k :| 0 <= k < |groups| && groups[k] == g;
        FindAt(groups, k);
      }
      if g.user == user && g.best > 0 && g.best == Best(subs, problems, user, g.problem) {
        var k := FindLocates(groups, user, g.problem);
        assert groups[k] == g;
      }
    }
  }

  lemma SameRest(subs: seq<Submission>, problems: Problems, row: nat, earned: nat, user: int, problem: int)
    requires row < |subs| && (subs[row].user == user ==> subs[row].problem == problem)
    ensures multiset(Rest(UserGroups(subs, problems, user), problem)) ==
            multiset(Rest(UserGroups(Overwritten(subs, row, earned), problems, user), problem))
  {
    var before, after := UserGroups(subs, problems, user), UserGroups(Overwritten(subs, row, earned), problems, user);
    OneGroupEach(subs, problems, user);
    OneGroupEach(Overwritten(subs, row, earned), problems, user);
    RestNoRepeats(before, problem);
    RestNoRepeats(after, problem);
    RestHas(before, problem);
    RestHas(after, problem);
    forall g: Group ensures g in Rest(before, problem) <==> g in Rest(after, problem) {
      if g.problem != problem {
        OtherBestsStay(subs, problems, row, earned, user, g.problem);
      }
    }
    SameElements(Rest(before, problem), Rest(after, problem));
  }

  /** Whatever result is written over whatever result, its author's score falls exactly when what their best on that
      problem is worth falls, and rises exactly when it rises. */
  lemma ScoreFollowsTheBest(subs: seq<Submission>, problems: Problems, row: nat, earned: nat, d: real)
    requires IsDecay(d) && row < |subs|
    ensures
      var later, user, problem := Overwritten(subs, row, earned), subs[row].user, subs[row].problem;
      var before := WorthOfBest(user, problem, Best(subs, problems, user, problem), problems);
      var after := WorthOfBest(user, problem, Best(later, problems, user, problem), problems);
      && (UserScore(later, problems, user, d) < UserScore(subs, problems, user, d) <==> after < before)
      && (UserScore(later, problems, user, d) > UserScore(subs, problems, user, d) <==> after > before)
  {
    hide UserScore, WeightedScore, WorthOfBest, Rest;
    var later, user, problem := Overwritten(subs, row, earned), subs[row].user, subs[row].problem;
    var before := WorthOfBest(user, problem, Best(subs, problems, user, problem), problems);
    var after := WorthOfBest(user, problem, Best(later, problems, user, problem), problems);
    ScoreSplit(subs, problems, user, problem, d);
    ScoreSplit(later, problems, user, problem, d);
    SameRest(subs, problems, row, earned, user, problem);
    var a := Values(Rest(UserGroups(subs, problems, user), problem), problems);
    var b := Values(Rest(UserGroups(later, problems, user), problem), problems);
    ValuesIgnoreOrder(Rest(UserGroups(subs, problems, user), problem), Rest(UserGroups(later, problems, user), problem),
                      problems);
    assert multiset(a + [after]) == multiset(b + [after]);
    ScoreIsTheBestOrder(a + [after], b + [after], d);
    if after < before {
      RaisedScore(a, after, before, d);
    } else if before < after {
      RaisedScore(a, before, after, d);
    }
  }

  /** And nobody else's score moves. */
  lemma OthersKeepTheirScore(subs: seq<Submission>, problems: Problems, row: nat, earned: nat, user: int, d: real)
    requires IsDecay(d) && row < |subs| && subs[row].user != user
    ensures UserScore(Overwritten(subs, row, earned), problems, user, d) == UserScore(subs, problems, user, d)
  {
    hide UserScore, WeightedScore, WorthOfBest, Rest;
    var later, problem := Overwritten(subs, row, earned), subs[row].problem;
    ScoreSplit(subs, problems, user, problem, d);
    ScoreSplit(later, problems, user, problem, d);
    SameRest(subs, problems, row, earned, user, problem);
    OtherBestsStay(subs, problems, row, earned, user, problem);
    var worth := WorthOfBest(user, problem, Best(subs, problems, user, problem), problems);
    var a := Values(Rest(UserGroups(subs, problems, user), problem), problems);
    var b := Values(Rest(UserGroups(later, problems, user), problem), problems);
    ValuesIgnoreOrder(Rest(UserGroups(subs, problems, user), problem), Rest(UserGroups(later, problems, user), problem),
                      problems);
    ScoreIsTheBestOrder(a + [worth], b + [worth], d);
  }

  /** One lower result can cost everything: the only solve of a hundred-point problem, judged again and failed. */
  lemma LowerResultLowersTheScore(d: real)
    requires IsDecay(d)
    ensures
      var problems := map[1 := Problem(100, true)];
      var subs := [Submission(7, 1, 100)];
      UserScore(Overwritten(subs, 0, 0), problems, 7, d) < UserScore(subs, problems, 7, d)
  {
    var problems := map[1 := Problem(100, true)];
    var subs := [Submission(7, 1, 100)];
    var later := Overwritten(subs, 0, 0);
    assert subs[..0] == [] && later[..0] == [];
    assert Best(subs, problems, 7, 1) == 100 && Best(later, problems, 7, 1) == 0;
    RoundOfInteger(100);
    assert (100 * 100) as real / 100.0 == 100 as real;
    NothingIsWorthNothing(7, 1, problems);
    ScoreFollowsTheBest(subs, problems, 0, 0, d);
  }
}
