/** The global score read off the submissions table, without the grouped query. */
module StandingsTable {
  import opened Reals
  import opened Rounding
  import opened Sorting
  import opened Scoring
  import opened Standings
  import opened Leaderboard

  /** A result that counts for somebody on a problem: at least one percent, on a published problem. */
  predicate CountsFor(s: Submission, problems: Problems, user: int, problem: int) {
    && s.user == user && s.problem == problem && s.earned >= 1
    && problem in problems && problems[problem].visible
  }

  /** The best of the results that count, or nothing. */
  ghost predicate IsBest(subs: seq<Submission>, problems: Problems, user: int, problem: int, best: nat) {
    && (forall s | s in subs && CountsFor(s, problems, user, problem) :: s.earned <= best)
    && (best > 0 ==> exists s :: s in subs && CountsFor(s, problems, user, problem) && s.earned == best)
  }

  lemma {:induction false} BestIsBest(subs: seq<Submission>, problems: Problems, user: int, problem: int)
    ensures IsBest(subs, problems, user, problem, Best(subs, problems, user, problem))
  {
    if subs != [] {
      var earlier, last := subs[..|subs| - 1], subs[|subs| - 1];
      BestIsBest(earlier, problems, user, problem);
      assert subs == earlier + [last];
      var best := Best(subs, problems, user, problem);
      if Best(earlier, problems, user, problem) == best > 0 {
        var s :| s in earlier && CountsFor(s, problems, user, problem) && s.earned == best;
        assert s in subs;
      }
    }
  }

  /** A result of so many percent on a problem is worth the nearest whole number of points; all of it, all of them. */
  lemma WorthIsNearest(g: Group, problems: Problems)
    requires g.problem in problems
    ensures IsNearest(problems[g.problem].points * g.best, 100, Worth(g, problems))
    ensures g.best == 100 ==> Worth(g, problems) == problems[g.problem].points
  {
    var product := problems[g.problem].points * g.best;
    RoundIsNearest(product, 100, Worth(g, problems));
    if g.best == 100 {
      RoundIsNearest(product, 100, problems[g.problem].points);
    }
  }

  /** Each problem once with a result that counts, and the points the best of them is worth. */
  ghost predicate AreValues(subs: seq<Submission>, problems: Problems, user: int, solved: seq<int>, values: seq<nat>) {
    && NoRepeats(solved) && |values| == |solved|
    && (forall p :: p in solved <==> exists s :: s in subs && CountsFor(s, problems, user, p))
    && forall i | 0 <= i < |solved| ::
         solved[i] in problems && ValueFor(subs, problems, user, solved[i], values[i])
  }

  ghost predicate ValueFor(subs: seq<Submission>, problems: Problems, user: int, problem: int, value: nat)
    requires problem in problems
  {
    exists best :: IsBest(subs, problems, user, problem, best) && best > 0
                   && IsNearest(problems[problem].points * best, 100, value)
  }

  function ProblemsOf(groups: seq<Group>): (ps: seq<int>)
    ensures |ps| == |groups| && forall i | 0 <= i < |ps| :: ps[i] == groups[i].problem
  {
    seq(|groups|, i requires 0 <= i < |groups| => groups[i].problem)
  }

  lemma CountedIsScored(subs: seq<Submission>, problems: Problems, user: int, problem: int)
    ensures Best(subs, problems, user, problem) > 0 <==>
            exists s :: s in subs && CountsFor(s, problems, user, problem)
  {
    BestIsBest(subs, problems, user, problem);
  }

  lemma GroupOfEach(subs: seq<Submission>, problems: Problems, user: int, i: nat)
    requires i < |UserGroups(subs, problems, user)|
    ensures
      var g := UserGroups(subs, problems, user)[i];
      g.user == user && g.best == Best(subs, problems, user, g.problem) > 0 && g.problem in problems
  {
    GroupsAreBest(subs, problems);
    OfKeeps(Groups(subs, problems), problems, user);
    FindAt(UserGroups(subs, problems, user), i);
  }

  lemma GroupFor(subs: seq<Submission>, problems: Problems, user: int, problem: int)
    requires Best(subs, problems, user, problem) > 0
    ensures problem in ProblemsOf(UserGroups(subs, problems, user))
  {
    GroupsAreBest(subs, problems);
    OfKeeps(Groups(subs, problems), problems, user);
    var groups := UserGroups(subs, problems, user);
    var k := FindLocates(groups, user, problem);
    assert ProblemsOf(groups)[k] == problem;
  }

  /** A user's score, over the table as it stands: the decayed sum of what the best result on each problem is worth. */
  lemma ScoreSaysTheTable(subs: seq<Submission>, problems: Problems, user: int, d: real)
    returns (solved: seq<int>, values: seq<nat>)
    ensures AreValues(subs, problems, user, solved, values)
    ensures UserScore(subs, problems, user, d) == WeightedScore(values, d)
  {
    hide UserGroups, Worth, Best, CountsFor, WeightedScore, IsBest, IsNearest;
    var groups := UserGroups(subs, problems, user);
    solved, values := ProblemsOf(groups), Values(groups, problems);
    forall i | 0 <= i < |groups| ensures ValueFor(subs, problems, user, solved[i], values[i]) {
      GroupOfEach(subs, problems, user, i);
      BestIsBest(subs, problems, user, solved[i]);
      WorthIsNearest(groups[i], problems);
    }
    forall i, j | 0 <= i < j < |solved| ensures solved[i] != solved[j] {
      GroupOfEach(subs, problems, user, i);
      GroupOfEach(subs, problems, user, j);
      assert !SameKey(groups[i], groups[j]);
    }
    forall p ensures p in solved <==> exists s :: s in subs && CountsFor(s, problems, user, p) {
      CountedIsScored(subs, problems, user, p);
      if p in solved {
        var i :| 0 <= i < |solved| && solved[i] == p;
        GroupOfEach(subs, problems, user, i);
      } else if Best(subs, problems, user, p) > 0 {
        GroupFor(subs, problems, user, p);
      }
    }
    ScoreIs(subs, problems, user, d);
  }

  lemma ScoreIs(subs: seq<Submission>, problems: Problems, user: int, d: real)
    ensures UserScore(subs, problems, user, d) == WeightedScore(Values(UserGroups(subs, problems, user), problems), d)
  {
  }
}
