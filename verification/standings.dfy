/** The global ranking: best result per problem, the score over a whole submission history, and the leaderboard. */
module Standings {
  import opened Reals
  import opened Rounding
  import opened Sorting
  import opened Scoring

  const MIN_EARNED_PERCENT := 1
  const FULL_SOLVE_PERCENT := 100

  datatype Submission = Submission(user: int, problem: int, earned: nat)
  datatype Problem = Problem(points: nat, visible: bool)
  type Problems = map<int, Problem>

  /** One row of the grouped query: the best a user ever earned on a problem. */
  datatype Group = Group(user: int, problem: int, best: nat)

  // ------------------------------------------------------- The grouped query

  predicate Counts(s: Submission, problems: Problems) {
    s.earned >= MIN_EARNED_PERCENT && s.problem in problems && problems[s.problem].visible
  }

  function Max(a: nat, b: nat): nat {
    if a >= b then a else b
  }

  function Merge(groups: seq<Group>, s: Submission): seq<Group> {
    if groups == [] then [Group(s.user, s.problem, s.earned)]
    else if groups[0].user == s.user && groups[0].problem == s.problem then
      [groups[0].(best := Max(groups[0].best, s.earned))] + groups[1..]
    else [groups[0]] + Merge(groups[1..], s)
  }

  function Groups(subs: seq<Submission>, problems: Problems): seq<Group> {
    if subs == [] then []
    else
      var earlier, last := Groups(subs[..|subs| - 1], problems), subs[|subs| - 1];
      if Counts(last, problems) then Merge(earlier, last) else earlier
  }

  /** The best a user ever earned on a published problem, straight from the table; 0 when nothing counts. */
  function Best(subs: seq<Submission>, problems: Problems, user: int, problem: int): nat {
    if subs == [] then 0
    else
      var earlier, last := Best(subs[..|subs| - 1], problems, user, problem), subs[|subs| - 1];
      if last.user == user && last.problem == problem && Counts(last, problems) then Max(earlier, last.earned)
      else earlier
  }

  function Find(groups: seq<Group>, user: int, problem: int): nat {
    if groups == [] then 0
    else if groups[0].user == user && groups[0].problem == problem then groups[0].best
    else Find(groups[1..], user, problem)
  }

  predicate SameKey(a: Group, b: Group) {
    a.user == b.user && a.problem == b.problem
  }

  predicate OnePerKey(groups: seq<Group>) {
    forall i, j | 0 <= i < j < |groups| :: !SameKey(groups[i], groups[j])
  }

  predicate AllEarned(groups: seq<Group>, problems: Problems) {
    forall i | 0 <= i < |groups| :: groups[i].best > 0 && groups[i].problem in problems
  }

  lemma {:induction false} MergeFind(groups: seq<Group>, s: Submission, user: int, problem: int)
    ensures Find(Merge(groups, s), user, problem) ==
      if s.user == user && s.problem == problem then Max(Find(groups, user, problem), s.earned)
      else Find(groups, user, problem)
  {
    if groups != [] {
      MergeFind(groups[1..], s, user, problem);
    }
  }

  lemma {:induction false} MergeKeys(groups: seq<Group>, s: Submission)
    ensures |groups| <= |Merge(groups, s)| <= |groups| + 1
    ensures forall i | 0 <= i < |groups| :: SameKey(groups[i], Merge(groups, s)[i])
    ensures forall i | 0 <= i < |groups| :: groups[i].best <= Merge(groups, s)[i].best
    ensures |Merge(groups, s)| > |groups| ==>
      && Merge(groups, s) == groups + [Group(s.user, s.problem, s.earned)]
      && forall i | 0 <= i < |groups| :: !(groups[i].user == s.user && groups[i].problem == s.problem)
    ensures (forall i | 0 <= i < |groups| :: !(groups[i].user == s.user && groups[i].problem == s.problem))
      ==> |Merge(groups, s)| > |groups|
  {
    if groups != [] && !(groups[0].user == s.user && groups[0].problem == s.problem) {
      MergeKeys(groups[1..], s);
      assert groups == [groups[0]] + groups[1..];
    }
  }

  /** The grouped query holds one row per user and published problem scored on, with exactly the best result. */
  lemma {:induction false} GroupsAreBest(subs: seq<Submission>, problems: Problems)
    ensures OnePerKey(Groups(subs, problems)) && AllEarned(Groups(subs, problems), problems)
    ensures forall user, problem ::
      Find(Groups(subs, problems), user, problem) == Best(subs, problems, user, problem)
  {
    if subs != [] {
      var earlier, last := Groups(subs[..|subs| - 1], problems), subs[|subs| - 1];
      GroupsAreBest(subs[..|subs| - 1], problems);
      if Counts(last, problems) {
        MergeKeys(earlier, last);
        forall user, problem
          ensures Find(Groups(subs, problems), user, problem) == Best(subs, problems, user, problem)
        {
          MergeFind(earlier, last, user, problem);
        }
        var merged := Merge(earlier, last);
        forall i, j | 0 <= i < j < |merged| ensures !SameKey(merged[i], merged[j]) {
          assert i < |earlier|;
          if j < |earlier| {
            assert !SameKey(earlier[i], earlier[j]);
          }
        }
        forall i | 0 <= i < |merged| ensures merged[i].best > 0 && merged[i].problem in problems {
          if i < |earlier| {
            assert earlier[i].best > 0;
          }
        }
      }
    }
  }

  lemma {:induction false} FindLocates(groups: seq<Group>, user: int, problem: int) returns (k: nat)
    requires Find(groups, user, problem) > 0
    ensures k < |groups| && groups[k] == Group(user, problem, Find(groups, user, problem))
  {
    if groups[0].user == user && groups[0].problem == problem {
      k := 0;
    } else {
      k := FindLocates(groups[1..], user, problem);
      k := k + 1;
    }
  }

  lemma {:induction false} FindAt(groups: seq<Group>, k: nat)
    requires OnePerKey(groups) && k < |groups|
    ensures Find(groups, groups[k].user, groups[k].problem) == groups[k].best
  {
    if k > 0 {
      assert !SameKey(groups[0], groups[k]);
      FindAt(groups[1..], k - 1);
    }
  }

  // -------------------------------------------------------------- The score

  /** A user's share of the grouped query. */
  function Of(groups: seq<Group>, user: int): seq<Group> {
    if groups == [] then []
    else (if groups[0].user == user then [groups[0]] else []) + Of(groups[1..], user)
  }

  /** What a result is worth: its share of the problem's points, rounded. */
  function Worth(g: Group, problems: Problems): (v: nat)
    requires g.problem in problems
  {
    var share := (problems[g.problem].points * g.best) as real / 100.0;
    RoundKeepsIntegerBounds(share, 0, 0);
    Round(share)
  }

  function Values(groups: seq<Group>, problems: Problems): (values: seq<nat>)
    requires AllEarned(groups, problems)
    ensures |values| == |groups|
    ensures forall i | 0 <= i < |groups| :: values[i] == Worth(groups[i], problems)
  {
    seq(|groups|, i requires 0 <= i < |groups| => Worth(groups[i], problems))
  }

  lemma {:induction false} OfIsPart(groups: seq<Group>, user: int)
    ensures forall g :: g in Of(groups, user) <==> g in groups && g.user == user
  {
    if groups != [] {
      OfIsPart(groups[1..], user);
      assert groups == [groups[0]] + groups[1..];
    }
  }

  lemma {:induction false} OfFind(groups: seq<Group>, user: int, problem: int)
    ensures Find(Of(groups, user), user, problem) == Find(groups, user, problem)
  {
    if groups != [] {
      OfFind(groups[1..], user, problem);
      if groups[0].user == user {
        assert ([groups[0]] + Of(groups[1..], user))[1..] == Of(groups[1..], user);
      } else {
        assert Of(groups, user) == Of(groups[1..], user);
      }
    }
  }

  lemma {:induction false} OfOnePerKey(groups: seq<Group>, user: int)
    requires OnePerKey(groups)
    ensures OnePerKey(Of(groups, user))
  {
    if groups != [] {
      var rest := Of(groups[1..], user);
      OfOnePerKey(groups[1..], user);
      OfIsPart(groups[1..], user);
      forall i | 0 <= i < |rest| ensures !SameKey(groups[0], rest[i]) {
        assert rest[i] in groups[1..];
      }
    }
  }

  lemma OfKeeps(groups: seq<Group>, problems: Problems, user: int)
    requires OnePerKey(groups) && AllEarned(groups, problems)
    ensures OnePerKey(Of(groups, user)) && AllEarned(Of(groups, user), problems)
    ensures forall i | 0 <= i < |Of(groups, user)| :: Of(groups, user)[i].user == user
    ensures forall problem :: Find(Of(groups, user), user, problem) == Find(groups, user, problem)
  {
    OfOnePerKey(groups, user);
    OfIsPart(groups, user);
    var mine := Of(groups, user);
    forall i | 0 <= i < |mine|
      ensures mine[i].user == user && mine[i].best > 0 && mine[i].problem in problems
    {
      assert mine[i] in groups;
    }
    forall problem ensures Find(mine, user, problem) == Find(groups, user, problem) {
      OfFind(groups, user, problem);
    }
  }

  function UserGroups(subs: seq<Submission>, problems: Problems, user: int): (groups: seq<Group>)
    ensures AllEarned(groups, problems) && OnePerKey(groups)
  {
    GroupsAreBest(subs, problems);
    OfKeeps(Groups(subs, problems), problems, user);
    Of(Groups(subs, problems), user)
  }

  function UserScore(subs: seq<Submission>, problems: Problems, user: int, d: real): real {
    WeightedScore(Values(UserGroups(subs, problems, user), problems), d)
  }

  // ---------------------------------------------------- Comparing two scores

  lemma ProductMonotone(p: nat, a: nat, b: nat)
    requires a <= b
    ensures p * a <= p * b
  {
  }

  lemma WorthMonotone(a: Group, b: Group, problems: Problems)
    requires a.problem in problems && b.problem == a.problem && a.best <= b.best
    ensures Worth(a, problems) <= Worth(b, problems)
  {
    var p := problems[a.problem].points;
    ProductMonotone(p, a.best, b.best);
    RoundIsMonotone((p * a.best) as real / 100.0, (p * b.best) as real / 100.0);
  }

  predicate WorthMore(problems: Problems, a: Group, b: Group) {
    a.problem in problems && b.problem in problems && Worth(a, problems) >= Worth(b, problems)
  }

  lemma {:induction false} InsertCommutes(x: Group, s: seq<Group>, problems: Problems)
    requires x.problem in problems && x.best > 0 && AllEarned(s, problems)
    ensures AllEarned(Insert((a, b) => WorthMore(problems, a, b), x, s), problems)
    ensures Values(Insert((a, b) => WorthMore(problems, a, b), x, s), problems) ==
      Insert<nat>(Harder, Worth(x, problems), Values(s, problems))
  {
    hide Worth, Values;
    var le := (a, b) => WorthMore(problems, a, b);
    if s == [] || WorthMore(problems, x, s[0]) {
      assert Insert(le, x, s) == [x] + s;
      assert Values([x] + s, problems) == [Worth(x, problems)] + Values(s, problems);
    } else {
      var rest := Insert(le, x, s[1..]);
      InsertCommutes(x, s[1..], problems);
      assert Insert(le, x, s) == [s[0]] + rest;
      assert Values([s[0]] + rest, problems) == [Worth(s[0], problems)] + Values(rest, problems);
      assert Values(s, problems)[1..] == Values(s[1..], problems);
    }
  }

  /** The groups in the order their values are summed. */
  lemma {:induction false} HeaviestFirst(groups: seq<Group>, problems: Problems) returns (ordered: seq<Group>)
    requires AllEarned(groups, problems)
    ensures multiset(ordered) == multiset(groups) && AllEarned(ordered, problems)
    ensures Values(ordered, problems) == HardestFirst(Values(groups, problems))
  {
    hide Worth, Values;
    if groups == [] {
      ordered := [];
    } else {
      var rest := HeaviestFirst(groups[1..], problems);
      var le := (a, b) => WorthMore(problems, a, b);
      ordered := Insert(le, groups[0], rest);
      InsertKeepsElements(le, groups[0], rest);
      InsertCommutes(groups[0], rest, problems);
      assert groups == [groups[0]] + groups[1..];
      assert Values(groups, problems)[1..] == Values(groups[1..], problems);
    }
  }

  predicate Covers(high: seq<Group>, low: seq<Group>) {
    forall i | 0 <= i < |low| :: low[i].best <= Find(high, low[i].user, low[i].problem)
  }

  lemma {:induction false} WithoutFind(groups: seq<Group>, k: nat, user: int, problem: int)
    requires k < |groups| && !(groups[k].user == user && groups[k].problem == problem)
    ensures Find(Without(groups, k), user, problem) == Find(groups, user, problem)
  {
    if k == 0 {
      assert Without(groups, 0) == groups[1..];
    } else {
      WithoutFind(groups[1..], k - 1, user, problem);
      assert Without(groups, k) == [groups[0]] + Without(groups[1..], k - 1);
    }
  }

  lemma WithoutKeeps(groups: seq<Group>, k: nat, problems: Problems)
    requires k < |groups| && AllEarned(groups, problems)
    ensures AllEarned(Without(groups, k), problems)
  {
  }

  lemma CoversRest(low: seq<Group>, high: seq<Group>, k: nat)
    requires OnePerKey(low) && Covers(high, low)
    requires low != [] && k < |high| && SameKey(high[k], low[0])
    ensures Covers(Without(high, k), low[1..])
  {
    var rest := low[1..];
    forall i | 0 <= i < |rest| ensures rest[i].best <= Find(Without(high, k), rest[i].user, rest[i].problem) {
      assert rest[i] == low[i + 1] && !SameKey(low[0], low[i + 1]);
      WithoutFind(high, k, rest[i].user, rest[i].problem);
    }
  }

  predicate LinedUp(low: seq<Group>, lined: seq<Group>) {
    |low| <= |lined| &&
    forall i | 0 <= i < |low| :: lined[i].problem == low[i].problem && low[i].best <= lined[i].best
  }

  lemma LinedUpCons(low: seq<Group>, g: Group, rest: seq<Group>)
    requires low != [] && LinedUp(low[1..], rest)
    requires g.problem == low[0].problem && low[0].best <= g.best
    ensures LinedUp(low, [g] + rest)
  {
    assert low == [low[0]] + low[1..];
  }

  /** Line the better list up behind the worse one: the same problems in the same order, the extra ones last. */
  lemma {:induction false} LineUp(low: seq<Group>, high: seq<Group>, problems: Problems) returns (lined: seq<Group>)
    requires OnePerKey(low) && AllEarned(low, problems) && AllEarned(high, problems) && Covers(high, low)
    ensures multiset(lined) == multiset(high) && AllEarned(lined, problems)
    ensures LinedUp(low, lined)
  {
    hide Worth, Values;
    if low == [] {
      lined := high;
    } else {
      var k := FindLocates(high, low[0].user, low[0].problem);
      CoversRest(low, high, k);
      WithoutKeeps(high, k, problems);
      var rest := LineUp(low[1..], Without(high, k), problems);
      WithoutElements(high, k);
      lined := [high[k]] + rest;
      LinedUpCons(low, high[k], rest);
    }
  }

  lemma {:induction false} ValuesIgnoreOrder(a: seq<Group>, b: seq<Group>, problems: Problems)
    requires AllEarned(a, problems) && AllEarned(b, problems)
    requires multiset(a) == multiset(b)
    ensures multiset(Values(a, problems)) == multiset(Values(b, problems))
  {
    hide Worth, Values;
    if a == [] {
      assert |multiset(b)| == 0;
    } else {
      assert a[0] in multiset(b);
      var k := Locate(a[0], b);
      TailElements(a);
      WithoutElements(b, k);
      WithoutKeeps(b, k, problems);
      ValuesIgnoreOrder(a[1..], Without(b, k), problems);
      ValuesWithout(a, 0, problems);
      ValuesWithout(b, k, problems);
      assert Without(a, 0) == a[1..];
    }
  }

  lemma ValuesConcat(a: seq<Group>, b: seq<Group>, problems: Problems)
    requires AllEarned(a, problems) && AllEarned(b, problems)
    ensures AllEarned(a + b, problems)
    ensures Values(a + b, problems) == Values(a, problems) + Values(b, problems)
  {
    hide Worth, Values;
  }

  lemma ValuesWithout(a: seq<Group>, k: nat, problems: Problems)
    requires AllEarned(a, problems) && k < |a|
    ensures AllEarned(Without(a, k), problems)
    ensures multiset(Values(a, problems)) == multiset(Values(Without(a, k), problems)) + multiset{Worth(a[k], problems)}
  {
    hide Worth, Values;
    var values := Values(a, problems);
    WithoutElements(values, k);
    assert values[k] == Worth(a[k], problems);
    assert Without(values, k) == Values(Without(a, k), problems);
  }

  /** A user who has done at least as well on every problem scores at least as much. */
  lemma BetterEverywhereScoresMore(low: seq<Group>, high: seq<Group>, problems: Problems, d: real)
    requires IsDecay(d)
    requires OnePerKey(low) && AllEarned(low, problems) && AllEarned(high, problems) && Covers(high, low)
    ensures WeightedScore(Values(low, problems), d) <= WeightedScore(Values(high, problems), d)
  {
    hide Worth, Values;
    var ordered := HeaviestFirst(low, problems);
    CoversIgnoresOrder(high, low, ordered);
    var lined := LineUp(ordered, high, problems);
    forall i | 0 <= i < |ordered|
      ensures Values(ordered, problems)[i] <= Values(lined, problems)[i]
    {
      WorthMonotone(ordered[i], lined[i], problems);
    }
    DecayedMonotone(Values(ordered, problems), Values(lined, problems), d);
    ScoreIsDecayed(Values(low, problems), d);
    ValuesIgnoreOrder(high, lined, problems);
    ScoreIsTheBestOrder(Values(high, problems), Values(lined, problems), d);
    AsGivenIsDecayed(Values(lined, problems), d);
  }

  lemma CoversIgnoresOrder(high: seq<Group>, low: seq<Group>, ordered: seq<Group>)
    requires multiset(low) == multiset(ordered)
    requires OnePerKey(low) && Covers(high, low)
    ensures OnePerKey(ordered) && Covers(high, ordered)
  {
    forall i | 0 <= i < |ordered| ensures ordered[i].best <= Find(high, ordered[i].user, ordered[i].problem) {
      assert ordered[i] in multiset(low);
    }
    forall i, j | 0 <= i < j < |ordered| ensures !SameKey(ordered[i], ordered[j]) {
      var a, b := ordered[i], ordered[j];
      if SameKey(a, b) {
        var p := Locate(a, low);
        var q := Locate(b, low);
        assert p == q;
        TwiceInside(ordered, i, j);
        OnceInside(low, p);
        assert false;
      }
    }
  }

  lemma OnceInside(s: seq<Group>, k: nat)
    requires OnePerKey(s) && k < |s|
    ensures multiset(s)[s[k]] == 1
  {
    WithoutElements(s, k);
    var rest := Without(s, k);
    forall i | 0 <= i < |rest| ensures rest[i] != s[k] {
      assert !SameKey(s[k], s[if i < k then i else i + 1]);
    }
    assert s[k] !in multiset(rest) && s[k] in multiset(s);
  }

  // ------------------------------------------------------- The whole history

  /** What happens to the submission table: a new row, worth nothing until judged, or a row's result landing. */
  datatype Event = Submitted(user: int, problem: int) | Judged(row: nat, earned: nat)

  predicate Possible(subs: seq<Submission>, e: Event) {
    e.Judged? ==> e.row < |subs| && subs[e.row].earned <= e.earned
  }

  function After(subs: seq<Submission>, e: Event): seq<Submission>
    requires Possible(subs, e)
  {
    match e
    case Submitted(user, problem) => subs + [Submission(user, problem, 0)]
    case Judged(row, earned) => subs[row := subs[row].(earned := earned)]
  }

  predicate History(subs: seq<Submission>, events: seq<Event>)
    decreases |events|
  {
    events == [] || (Possible(subs, events[0]) && History(After(subs, events[0]), events[1..]))
  }

  function Play(subs: seq<Submission>, events: seq<Event>): seq<Submission>
    requires History(subs, events)
    decreases |events|
  {
    if events == [] then subs else Play(After(subs, events[0]), events[1..])
  }

  lemma {:induction false} BestAfterRaise(subs: seq<Submission>, problems: Problems, row: nat, earned: nat,
                                          user: int, problem: int)
    requires row < |subs| && subs[row].earned <= earned
    ensures Best(subs, problems, user, problem) <=
      Best(subs[row := subs[row].(earned := earned)], problems, user, problem)
  {
    var raised := subs[row := subs[row].(earned := earned)];
    var n := |subs| - 1;
    if row == n {
      assert raised[..n] == subs[..n];
    } else {
      assert raised[..n] == subs[..n][row := subs[row].(earned := earned)];
      BestAfterRaise(subs[..n], problems, row, earned, user, problem);
    }
  }

  lemma BestNeverFalls(subs: seq<Submission>, problems: Problems, e: Event, user: int, problem: int)
    requires Possible(subs, e)
    ensures Best(subs, problems, user, problem) <= Best(After(subs, e), problems, user, problem)
  {
    match e
    case Submitted(u, p) =>
      assert After(subs, e)[..|subs|] == subs;
    case Judged(row, earned) =>
      BestAfterRaise(subs, problems, row, earned, user, problem);
  }

  lemma StepNeverLowers(subs: seq<Submission>, problems: Problems, e: Event, user: int, d: real)
    requires IsDecay(d) && Possible(subs, e)
    ensures UserScore(subs, problems, user, d) <= UserScore(After(subs, e), problems, user, d)
  {
    var later := After(subs, e);
    var low, high := UserGroups(subs, problems, user), UserGroups(later, problems, user);
    GroupsAreBest(subs, problems);
    GroupsAreBest(later, problems);
    OfKeeps(Groups(subs, problems), problems, user);
    OfKeeps(Groups(later, problems), problems, user);
    forall i | 0 <= i < |low| ensures low[i].best <= Find(high, low[i].user, low[i].problem) {
      FindAt(low, i);
      BestNeverFalls(subs, problems, e, user, low[i].problem);
    }
    BetterEverywhereScoresMore(low, high, problems, d);
  }

  /** Score never goes down: with points and visibility fixed, no history of submissions and results lowers anyone. */
  lemma {:induction false} ScoreNeverGoesDown(subs: seq<Submission>, events: seq<Event>, problems: Problems,
                                              user: int, d: real)
    requires IsDecay(d) && History(subs, events)
    ensures UserScore(subs, problems, user, d) <= UserScore(Play(subs, events), problems, user, d)
    decreases |events|
  {
    if events != [] {
      StepNeverLowers(subs, problems, events[0], user, d);
      ScoreNeverGoesDown(After(subs, events[0]), events[1..], problems, user, d);
    }
  }

  lemma {:induction false} OfAppended(groups: seq<Group>, g: Group, user: int)
    ensures Of(groups + [g], user) == Of(groups, user) + if g.user == user then [g] else []
  {
    if groups == [] {
      assert groups + [g] == [g] && [g][1..] == [];
    } else {
      assert (groups + [g])[1..] == groups[1..] + [g];
      OfAppended(groups[1..], g, user);
      var first := if groups[0].user == user then [groups[0]] else [];
      var last := if g.user == user then [g] else [];
      assert first + (Of(groups[1..], user) + last) == (first + Of(groups[1..], user)) + last;
    }
  }

  /** The first result on a problem worth v, on top of n problems scored on, adds between v * d^n and v. */
  lemma FirstResultGain(subs: seq<Submission>, problems: Problems, s: Submission, d: real)
    requires IsDecay(d)
    requires Counts(s, problems) && Best(subs, problems, s.user, s.problem) == 0
    ensures
      var n := |UserGroups(subs, problems, s.user)|;
      var v := Worth(Group(s.user, s.problem, s.earned), problems);
      var gain := UserScore(subs + [s], problems, s.user, d) - UserScore(subs, problems, s.user, d);
      AtRank(v, d, n) <= gain <= v as real && (v > 0 ==> gain > 0.0)
  {
    hide Worth, Values;
    var g := Group(s.user, s.problem, s.earned);
    var mine := UserGroups(subs, problems, s.user);
    NewGroup(subs, problems, s);
    ValuesConcat(mine, [g], problems);
    assert Values([g], problems) == [Worth(g, problems)];
    OneMoreSolve(Values(mine, problems), Worth(g, problems), d);
  }

  lemma NewGroup(subs: seq<Submission>, problems: Problems, s: Submission)
    requires Counts(s, problems) && Best(subs, problems, s.user, s.problem) == 0
    ensures UserGroups(subs + [s], problems, s.user) ==
      UserGroups(subs, problems, s.user) + [Group(s.user, s.problem, s.earned)]
  {
    var groups := Groups(subs, problems);
    assert (subs + [s])[..|subs|] == subs;
    GroupsAreBest(subs, problems);
    MergeKeys(groups, s);
    forall i | 0 <= i < |groups| ensures !(groups[i].user == s.user && groups[i].problem == s.problem) {
      FindAt(groups, i);
    }
    OfAppended(groups, Group(s.user, s.problem, s.earned), s.user);
  }
}
