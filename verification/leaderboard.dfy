/** The leaderboard: the grouped query folded into one entry per user, sorted, and ranked with shared places. */
module Leaderboard {
  import opened Options
  import opened Rounding
  import opened Sorting
  import opened Scoring
  import opened Standings

  datatype User = User(username: string, role: string)
  datatype Solves = Solves(username: string, role: string, points: seq<nat>, full: nat)
  datatype Standing = Standing(user: int, username: string, role: string, score: real, solved: nat, hardest: nat)
  datatype Entry = Entry(rank: nat, standing: Standing)

  // ------------------------------------------------------ One entry per user

  function FullSolves(groups: seq<Group>): nat {
    if groups == [] then 0
    else FullSolves(groups[..|groups| - 1]) + if groups[|groups| - 1].best >= FULL_SOLVE_PERCENT then 1 else 0
  }

  /** What the fold must leave for a user: the values of that user's rows, and how many are complete solves. */
  function SolvesOf(groups: seq<Group>, problems: Problems, users: map<int, User>, user: int): Solves
    requires AllEarned(groups, problems) && OnePerKey(groups) && user in users
  {
    OfKeeps(groups, problems, user);
    var mine := Of(groups, user);
    Solves(users[user].username, users[user].role, Values(mine, problems), FullSolves(mine))
  }

  /** One row folded into its user's entry, which is made if it is not there yet. */
  function Folded(entry: Solves, g: Group, problems: Problems): Solves
    requires g.problem in problems
  {
    entry.(points := entry.points + [Worth(g, problems)],
           full := entry.full + if g.best >= FULL_SOLVE_PERCENT then 1 else 0)
  }

  ghost predicate GoodRows(groups: seq<Group>, problems: Problems, users: map<int, User>) {
    && AllEarned(groups, problems) && OnePerKey(groups)
    && forall i | 0 <= i < |groups| :: groups[i].user in users
  }

  /** The keys are the users that have a row, and every entry is what that user's rows amount to. */
  ghost predicate IsFold(groups: seq<Group>, problems: Problems, users: map<int, User>,
                         out: map<int, Solves>, keys: seq<int>)
    requires GoodRows(groups, problems, users)
  {
    && NoRepeats(keys)
    && (forall u :: u in keys <==> u in out)
    && (forall u :: u in out <==> Of(groups, u) != [])
    && (forall u | u in out :: u in users && out[u] == SolvesOf(groups, problems, users, u))
  }

  lemma SolvesOfOneMore(groups: seq<Group>, g: Group, problems: Problems, users: map<int, User>, user: int)
    requires GoodRows(groups, problems, users) && GoodRows(groups + [g], problems, users)
    requires user in users && g.problem in problems
    ensures Of(groups + [g], user) == [] <==> Of(groups, user) == [] && g.user != user
    ensures SolvesOf(groups + [g], problems, users, user) ==
      if g.user != user then SolvesOf(groups, problems, users, user)
      else Folded(SolvesOf(groups, problems, users, user), g, problems)
  {
    hide Worth, Values;
    assert (groups + [g])[|groups|] == g;
    OfAppended(groups, g, user);
    OfKeeps(groups, problems, user);
    var mine := Of(groups, user);
    if g.user == user {
      ValuesConcat(mine, [g], problems);
      assert (mine + [g])[..|mine|] == mine;
    } else {
      assert mine + [] == mine;
    }
  }

  lemma EntryOf(groups: seq<Group>, g: Group, problems: Problems, users: map<int, User>,
                out: map<int, Solves>, keys: seq<int>, entry: Solves)
    requires GoodRows(groups, problems, users) && IsFold(groups, problems, users, out, keys) && g.user in users
    requires entry == if g.user in out then out[g.user] else Solves(users[g.user].username, users[g.user].role, [], 0)
    ensures entry == SolvesOf(groups, problems, users, g.user)
  {
    hide Worth;
    if g.user !in out {
      assert Of(groups, g.user) == [];
    }
  }

  lemma FoldStep(groups: seq<Group>, g: Group, problems: Problems, users: map<int, User>,
                 out: map<int, Solves>, keys: seq<int>, entry: Solves)
    requires GoodRows(groups, problems, users) && GoodRows(groups + [g], problems, users)
    requires IsFold(groups, problems, users, out, keys)
    requires g.user in users
    requires entry == if g.user in out then out[g.user] else Solves(users[g.user].username, users[g.user].role, [], 0)
    requires g.problem in problems
    ensures IsFold(groups + [g], problems, users, out[g.user := Folded(entry, g, problems)],
                   if g.user in out then keys else keys + [g.user])
  {
    hide Worth, Values, Folded, SolvesOf;
    EntryOf(groups, g, problems, users, out, keys, entry);
    assert entry == SolvesOf(groups, problems, users, g.user);
    var out' := out[g.user := Folded(entry, g, problems)];
    forall u
      ensures u in out' <==> Of(groups + [g], u) != []
      ensures u in out' ==> u in users && out'[u] == SolvesOf(groups + [g], problems, users, u)
    {
      if u in users {
        SolvesOfOneMore(groups, g, problems, users, u);
      } else {
        OfAppended(groups, g, u);
      }
    }
  }

  lemma GoodPrefix(groups: seq<Group>, problems: Problems, users: map<int, User>, n: nat)
    requires GoodRows(groups, problems, users) && n <= |groups|
    ensures GoodRows(groups[..n], problems, users)
    ensures n < |groups| ==> groups[n].user in users && groups[n].problem in problems
    ensures n < |groups| ==> groups[..n + 1] == groups[..n] + [groups[n]]
    ensures groups[..|groups|] == groups
  {
  }

  lemma NothingFolded(problems: Problems, users: map<int, User>)
    ensures GoodRows([], problems, users) && IsFold([], problems, users, map[], [])
  {
  }

  /** The fold over the grouped query; `keys` lists the users in the order their entries were made. */
  method SolvedPointsByUser(groups: seq<Group>, problems: Problems, users: map<int, User>)
    returns (out: map<int, Solves>, keys: seq<int>)
    requires GoodRows(groups, problems, users)
    ensures IsFold(groups, problems, users, out, keys)
  {
    hide IsFold, GoodRows, Worth;
    out, keys := map[], [];
    NothingFolded(problems, users);
    assert groups[..0] == [];
    GoodPrefix(groups, problems, users, |groups|);
    for n := 0 to |groups|
      invariant GoodRows(groups[..n], problems, users)
      invariant IsFold(groups[..n], problems, users, out, keys)
    {
      var g := groups[n];
      GoodPrefix(groups, problems, users, n);
      GoodPrefix(groups, problems, users, n + 1);
      var entry := if g.user in out then out[g.user] else Solves(users[g.user].username, users[g.user].role, [], 0);
      FoldStep(groups[..n], g, problems, users, out, keys, entry);
      if g.user !in out {
        keys := keys + [g.user];
      }
      entry := entry.(points := entry.points + [Worth(g, problems)]);
      if g.best >= FULL_SOLVE_PERCENT {
        entry := entry.(full := entry.full + 1);
      }
      out := out[g.user := entry];
    }
  }

  ghost predicate HasScored(subs: seq<Submission>, problems: Problems, user: int) {
    exists problem :: Best(subs, problems, user, problem) > 0
  }

  /** The leaderboard's points and a profile's points are the same list, so the two scores cannot disagree. */
  lemma BoardAgreesWithProfile(subs: seq<Submission>, problems: Problems, users: map<int, User>,
                               out: map<int, Solves>, keys: seq<int>, user: int, d: real)
    requires GoodRows(Groups(subs, problems), problems, users)
    requires IsFold(Groups(subs, problems), problems, users, out, keys)
    ensures user in out ==> WeightedScore(out[user].points, d) == UserScore(subs, problems, user, d)
    ensures user !in out ==> UserScore(subs, problems, user, d) == 0.0
    ensures user in out <==> HasScored(subs, problems, user)
  {
    var groups := Groups(subs, problems);
    GroupsAreBest(subs, problems);
    OfKeeps(groups, problems, user);
    var mine := Of(groups, user);
    if user in out {
      FindAt(mine, 0);
      assert Best(subs, problems, user, mine[0].problem) > 0;
    } else {
      assert Values(mine, problems) == [];
      assert forall problem :: Find(mine, user, problem) == 0;
    }
  }

  // ----------------------------------------------------- Sorting and ranking

  /** Best score first, then hardest solve, then name. */
  predicate Before(a: Standing, b: Standing) {
    a.score > b.score || (a.score == b.score && (a.hardest > b.hardest
      || (a.hardest == b.hardest && StringLe(a.username, b.username))))
  }

  /** Scores are compared to six decimals when places are shared. */
  function ShownScore(score: real): int {
    Round(score * 1000000.0)
  }

  function Shown(s: Standing): int {
    ShownScore(s.score)
  }

  predicate Above(a: Standing, b: Standing) {
    Shown(a) > Shown(b)
  }

  lemma BeforeIsAnOrder()
    ensures TotalPreorder<Standing>(Before)
  {
    forall x, y ensures Before(x, y) || Before(y, x) {
      StringLeTotal(x.username, y.username);
    }
    forall x, y, z | Before(x, y) && Before(y, z) ensures Before(x, z) {
      if StringLe(x.username, y.username) && StringLe(y.username, z.username) {
        StringLeTransitive(x.username, y.username, z.username);
      }
    }
  }

  lemma SortedIsBestFirst(ordered: seq<Standing>)
    requires Sorted<Standing>(Before, ordered)
    ensures BestFirst<Standing>(Above, ordered)
  {
    forall i, j | 0 <= i < j < |ordered| ensures !Above(ordered[j], ordered[i]) {
      assert Before(ordered[i], ordered[j]);
      RoundIsMonotone(ordered[j].score * 1000000.0, ordered[i].score * 1000000.0);
    }
  }

  function Hardest(points: seq<nat>): nat {
    if points == [] then 0 else Max(points[0], Hardest(points[1..]))
  }

  function StandingOf(user: int, s: Solves, d: real): Standing {
    Standing(user, s.username, s.role, WeightedScore(s.points, d), s.full, Hardest(s.points))
  }

  /** How many rows the board shows: the limit is only looked at after a row has been added. */
  function Shortened(n: nat, limit: Option<int>): nat {
    match limit
    case None => n
    case Some(l) => if n == 0 then 0 else if l <= 1 then 1 else if l <= n then l else n
  }

  method ListStandings(out: map<int, Solves>, keys: seq<int>, d: real) returns (listed: seq<Standing>)
    requires forall u | u in keys :: u in out
    ensures |listed| == |keys|
    ensures forall i | 0 <= i < |keys| :: listed[i] == StandingOf(keys[i], out[keys[i]], d)
  {
    hide StandingOf;
    listed := [];
    for i := 0 to |keys|
      invariant |listed| == i
      invariant forall j | 0 <= j < i :: listed[j] == StandingOf(keys[j], out[keys[j]], d)
    {
      listed := listed + [StandingOf(keys[i], out[keys[i]], d)];
    }
  }

  /** Every row shows one more than the number of standings whose shown score is strictly higher. */
  method Rank(listed: seq<Standing>, limit: Option<int>) returns (result: seq<Entry>)
    ensures |result| == Shortened(|listed|, limit)
    ensures |result| <= |Sort<Standing>(Before, listed)|
    ensures forall i | 0 <= i < |result| :: result[i].standing == Sort<Standing>(Before, listed)[i]
    ensures forall i | 0 <= i < |result| :: result[i].rank == 1 + Ahead<Standing>(Above, listed, result[i].standing)
  {
    hide Ahead, Sort, Shown, Before;
    var ordered := Sort<Standing>(Before, listed);
    Arranged(listed, ordered);
    result := [];
    var rank: nat, previous: int := 0, 0;
    var position := 0;
    while position < |ordered|
      invariant 0 <= position <= |ordered| && |result| == position
      invariant position > 0 ==> previous == Shown(ordered[position - 1])
      invariant position > 0 ==> rank == 1 + Ahead<Standing>(Above, listed, ordered[position - 1])
      invariant forall i | 0 <= i < position ::
        result[i] == Entry(1 + Ahead<Standing>(Above, listed, ordered[i]), ordered[i])
      invariant position > 0 && limit.Some? ==> position < limit.value
    {
      Walk(listed, ordered, position);
      var key := Shown(ordered[position]);
      if position == 0 || key != previous {
        rank := position + 1;
        previous := key;
      }
      result := result + [Entry(rank, ordered[position])];
      position := position + 1;
      if limit.Some? && |result| >= limit.value {
        break;
      }
    }
  }

  lemma Arranged(listed: seq<Standing>, ordered: seq<Standing>)
    requires ordered == Sort<Standing>(Before, listed)
    ensures |ordered| == |listed| && multiset(ordered) == multiset(listed)
    ensures BestFirst<Standing>(Above, ordered)
  {
    BeforeIsAnOrder();
    SortIsSorted<Standing>(Before, listed);
    SortKeepsElements<Standing>(Before, listed);
    SortedIsBestFirst(ordered);
  }

  lemma Walk(listed: seq<Standing>, ordered: seq<Standing>, i: nat)
    requires i < |ordered| && BestFirst<Standing>(Above, ordered) && multiset(ordered) == multiset(listed)
    ensures Ahead<Standing>(Above, listed, ordered[i]) ==
      if i > 0 && Shown(ordered[i]) == Shown(ordered[i - 1]) then Ahead<Standing>(Above, listed, ordered[i - 1]) else i
  {
    hide Shown, Ahead;
    AheadWhileWalking<Standing>(Above, ordered, i);
    AheadIgnoresOrder<Standing>(Above, ordered, listed, ordered[i]);
    if i > 0 {
      assert !Above(ordered[i], ordered[i - 1]);
      AheadIgnoresOrder<Standing>(Above, ordered, listed, ordered[i - 1]);
    }
  }

  // ------------------------------------------------------------- The leaderboard

  ghost function Scorers(subs: seq<Submission>, problems: Problems, users: map<int, User>): set<int> {
    set u | u in users && HasScored(subs, problems, u)
  }

  /** A row for a user who has scored on something: the user's own score, and a rank counting those strictly higher. */
  ghost predicate Ranked(subs: seq<Submission>, problems: Problems, users: map<int, User>, d: real, e: Entry) {
    && e.standing.user in Scorers(subs, problems, users)
    && e.standing.score == UserScore(subs, problems, e.standing.user, d)
    && e.rank == 1 + |set u | u in Scorers(subs, problems, users) &&
                       ShownScore(UserScore(subs, problems, u, d)) > ShownScore(e.standing.score)|
  }

  /** All of them, or as many as the limit allows and never none for want of it. */
  predicate IsCut(shown: nat, n: nat, limit: Option<int>) {
    && (limit == None ==> shown == n)
    && (limit.Some? && shown != n ==> shown < n && shown == if limit.value > 1 then limit.value else 1)
    && (limit.Some? && shown > 1 ==> shown <= limit.value)
  }

  lemma LimitCuts(n: nat, limit: Option<int>)
    ensures IsCut(Shortened(n, limit), n, limit)
  {
  }

  /** Scores fall down the board; among equals the hardest result does, and among equals again names rise. */
  predicate NotBelow(a: Standing, b: Standing) {
    && a.score >= b.score && (a.score == b.score ==> a.hardest >= b.hardest)
    && (a.score == b.score && a.hardest == b.hardest ==> StringLe(a.username, b.username))
  }

  lemma BestThenHardestThenName(a: Standing, b: Standing)
    requires Before(a, b)
    ensures NotBelow(a, b)
  {
    StringLeTotal(a.username, b.username);
  }

  /** Scores that share a place are within a millionth of each other, and of scores that do not the one shown higher is
      the higher one. */
  lemma SharedScoresAreClose(a: real, b: real)
    ensures ShownScore(a) == ShownScore(b) ==> -0.000001 <= a - b <= 0.000001
    ensures ShownScore(a) > ShownScore(b) ==> a > b
  {
    if a <= b {
      RoundIsMonotone(a * 1000000.0, b * 1000000.0);
    }
  }

  /** The problems a user has solved in full. */
  ghost function SolvedInFull(subs: seq<Submission>, problems: Problems, user: int): set<int> {
    set p | p in problems && Best(subs, problems, user, p) >= 100
  }

  /** The most any one result of the user is worth. */
  ghost predicate IsHardest(subs: seq<Submission>, problems: Problems, user: int, most: nat) {
    && (forall p | p in problems && Best(subs, problems, user, p) > 0 ::
          Worth(Group(user, p, Best(subs, problems, user, p)), problems) <= most)
    && (most > 0 ==> exists p :: p in problems && Best(subs, problems, user, p) > 0
                       && Worth(Group(user, p, Best(subs, problems, user, p)), problems) == most)
  }

  /** A row carries its user's name and role, how many problems they solved in full, and their hardest result. */
  ghost predicate Describes(subs: seq<Submission>, problems: Problems, users: map<int, User>, s: Standing) {
    && s.user in users && s.username == users[s.user].username && s.role == users[s.user].role
    && s.solved == |SolvedInFull(subs, problems, s.user)| && IsHardest(subs, problems, s.user, s.hardest)
  }

  function FullOf(groups: seq<Group>): set<int> {
    if groups == [] then {}
    else
      var last := groups[|groups| - 1];
      FullOf(groups[..|groups| - 1]) + if last.best >= 100 then {last.problem} else {}
  }

  lemma {:induction false} FullAreOf(groups: seq<Group>)
    ensures forall p | p in FullOf(groups) ::
      exists i :: 0 <= i < |groups| && groups[i].problem == p && groups[i].best >= 100
    ensures forall i | 0 <= i < |groups| && groups[i].best >= 100 :: groups[i].problem in FullOf(groups)
  {
    if groups != [] {
      var most := groups[..|groups| - 1];
      FullAreOf(most);
      assert forall i | 0 <= i < |most| :: most[i] == groups[i];
    }
  }

  lemma {:induction false} FullAreCounted(groups: seq<Group>, user: int)
    requires OnePerKey(groups) && forall i | 0 <= i < |groups| :: groups[i].user == user
    ensures FullSolves(groups) == |FullOf(groups)|
  {
    if groups != [] {
      var most, last := groups[..|groups| - 1], groups[|groups| - 1];
      FullAreCounted(most, user);
      FullAreOf(most);
      if last.problem in FullOf(most) {
        var i :| 0 <= i < |most| && most[i].problem == last.problem;
        assert SameKey(groups[i], groups[|most|]);
        assert false;
      }
    }
  }

  lemma {:induction false} HardestIsMost(points: seq<nat>)
    ensures forall i | 0 <= i < |points| :: points[i] <= Hardest(points)
    ensures Hardest(points) > 0 ==> Hardest(points) in points
  {
    if points != [] {
      HardestIsMost(points[1..]);
      assert forall i | 0 < i < |points| :: points[i] == points[1..][i - 1];
    }
  }

  lemma MineAreBest(subs: seq<Submission>, problems: Problems, user: int)
    ensures
      var mine := UserGroups(subs, problems, user);
      && (forall i | 0 <= i < |mine| :: mine[i].user == user && mine[i].problem in problems
            && mine[i].best == Best(subs, problems, user, mine[i].problem) > 0)
      && (forall p | Best(subs, problems, user, p) > 0 :: exists i :: 0 <= i < |mine| && mine[i].problem == p)
  {
    hide Best, Groups;
    GroupsAreBest(subs, problems);
    OfKeeps(Groups(subs, problems), problems, user);
    var mine := UserGroups(subs, problems, user);
    forall i | 0 <= i < |mine|
      ensures mine[i].user == user && mine[i].problem in problems
      ensures mine[i].best == Best(subs, problems, user, mine[i].problem) > 0
    {
      FindAt(mine, i);
    }
    forall p | Best(subs, problems, user, p) > 0 ensures exists i :: 0 <= i < |mine| && mine[i].problem == p {
      var k := FindLocates(mine, user, p);
    }
  }

  lemma SolvesDescribe(subs: seq<Submission>, problems: Problems, users: map<int, User>, user: int, d: real)
    requires GoodRows(Groups(subs, problems), problems, users) && user in users
    ensures Describes(subs, problems, users,
                      StandingOf(user, SolvesOf(Groups(subs, problems), problems, users, user), d))
  {
    hide Best, Groups, Worth, WeightedScore, Hardest, FullSolves, FullOf, Of, GoodRows;
    var groups := Groups(subs, problems);
    GoodRowsAre(groups, problems, users);
    var mine := UserGroups(subs, problems, user);
    assert mine == Of(groups, user);
    MineAreBest(subs, problems, user);
    FullAreCounted(mine, user);
    FullAreOf(mine);
    forall p ensures p in FullOf(mine) <==> p in SolvedInFull(subs, problems, user) {
      if p in FullOf(mine) {
        var i :| 0 <= i < |mine| && mine[i].problem == p && mine[i].best >= 100;
      }
      if p in SolvedInFull(subs, problems, user) {
        var i :| 0 <= i < |mine| && mine[i].problem == p;
        assert mine[i].best >= 100;
      }
    }
    assert FullOf(mine) == SolvedInFull(subs, problems, user);
    var values := Values(mine, problems);
    HardestIsMost(values);
    assert forall i | 0 <= i < |mine| :: mine[i] == Group(user, mine[i].problem, mine[i].best);
    forall p | p in problems && Best(subs, problems, user, p) > 0
      ensures Worth(Group(user, p, Best(subs, problems, user, p)), problems) <= Hardest(values)
    {
      var i :| 0 <= i < |mine| && mine[i].problem == p;
      assert values[i] == Worth(mine[i], problems);
    }
    if Hardest(values) > 0 {
      var i :| 0 <= i < |values| && values[i] == Hardest(values);
      assert values[i] == Worth(mine[i], problems);
    }
  }

  lemma GoodRowsAre(groups: seq<Group>, problems: Problems, users: map<int, User>)
    requires GoodRows(groups, problems, users)
    ensures AllEarned(groups, problems) && OnePerKey(groups)
  {
  }

  /** Everyone who has scored on something, once each, best first, cut where the limit says. */
  method Leaderboard(subs: seq<Submission>, problems: Problems, users: map<int, User>, d: real, limit: Option<int>)
    returns (board: seq<Entry>)
    requires GoodRows(Groups(subs, problems), problems, users)
    ensures |board| == Shortened(|Scorers(subs, problems, users)|, limit)
    ensures forall i, j | 0 <= i < j < |board| ::
      board[i].standing.user != board[j].standing.user && Before(board[i].standing, board[j].standing)
    ensures forall i | 0 <= i < |board| :: Ranked(subs, problems, users, d, board[i])
    ensures forall i | 0 <= i < |board| :: Describes(subs, problems, users, board[i].standing)
  {
    hide Describes, SolvesOf, IsFold, GoodRows, Before, Above, Sort, Ahead, StandingOf, Scorers, Groups, Ranked,
         Shortened;
    var groups := Groups(subs, problems);
    var out, keys := SolvedPointsByUser(groups, problems, users);
    KeysAreScorers(subs, problems, users, out, keys, d);
    var listed := ListStandings(out, keys, d);
    board := Rank(listed, limit);
    OneKeyEach(keys, Scorers(subs, problems, users));
    var ordered := Sort<Standing>(Before, listed);
    Arranged(listed, ordered);
    BeforeIsAnOrder();
    SortIsSorted<Standing>(Before, listed);
    StandingsDiffer(out, keys, d, listed, ordered);
    forall i | 0 <= i < |board|
      ensures Ranked(subs, problems, users, d, board[i]) && Describes(subs, problems, users, board[i].standing)
    {
      assert ordered[i] in multiset(ordered);
      var k := Locate(ordered[i], listed);
      FoldIs(groups, problems, users, out, keys, keys[k]);
      SolvesDescribe(subs, problems, users, keys[k], d);
      RankCounts(subs, problems, users, out, keys, d, listed, k, board[i]);
    }
  }

  lemma FoldIs(groups: seq<Group>, problems: Problems, users: map<int, User>, out: map<int, Solves>, keys: seq<int>,
               u: int)
    requires GoodRows(groups, problems, users) && IsFold(groups, problems, users, out, keys) && u in keys
    ensures AllEarned(groups, problems) && OnePerKey(groups) && u in users && u in out
    ensures out[u] == SolvesOf(groups, problems, users, u)
  {
    hide SolvesOf;
  }

  lemma OneKeyEach(keys: seq<int>, users: set<int>)
    requires NoRepeats(keys) && forall u :: u in keys <==> u in users
    ensures |keys| == |users|
    decreases |keys|
  {
    if keys != [] {
      assert keys == [keys[0]] + keys[1..];
      OneKeyEach(keys[1..], users - {keys[0]});
    } else {
      assert forall u | u in users :: u in keys;
      assert users == {};
    }
  }

  lemma KeysAreScorers(subs: seq<Submission>, problems: Problems, users: map<int, User>, out: map<int, Solves>,
                       keys: seq<int>, d: real)
    requires GoodRows(Groups(subs, problems), problems, users)
    requires IsFold(Groups(subs, problems), problems, users, out, keys)
    ensures NoRepeats(keys) && (forall u :: u in keys <==> u in out)
    ensures forall u :: u in keys <==> u in Scorers(subs, problems, users)
    ensures forall u | u in out :: WeightedScore(out[u].points, d) == UserScore(subs, problems, u, d)
  {
    forall u
      ensures u in out <==> HasScored(subs, problems, u)
      ensures u in out ==> u in users && WeightedScore(out[u].points, d) == UserScore(subs, problems, u, d)
    {
      BoardAgreesWithProfile(subs, problems, users, out, keys, u, d);
    }
  }

  lemma StandingsDiffer(out: map<int, Solves>, keys: seq<int>, d: real, listed: seq<Standing>, ordered: seq<Standing>)
    requires NoRepeats(keys) && |listed| == |keys| && multiset(listed) == multiset(ordered)
    requires forall i | 0 <= i < |keys| :: keys[i] in out && listed[i] == StandingOf(keys[i], out[keys[i]], d)
    ensures forall i, j | 0 <= i < j < |ordered| :: ordered[i].user != ordered[j].user
  {
    RepeatsIgnoreOrder(listed, ordered);
    forall i, j | 0 <= i < j < |ordered| ensures ordered[i].user != ordered[j].user {
      assert ordered[i] in multiset(ordered) && ordered[j] in multiset(ordered);
      var k := Locate(ordered[i], listed);
      var l := Locate(ordered[j], listed);
      assert ordered[i] != ordered[j];
      assert keys[k] != keys[l];
    }
  }

  lemma RankCounts(subs: seq<Submission>, problems: Problems, users: map<int, User>, out: map<int, Solves>,
                   keys: seq<int>, d: real, listed: seq<Standing>, k: nat, e: Entry)
    requires NoRepeats(keys) && |listed| == |keys| && k < |keys|
    requires forall u :: u in keys <==> u in Scorers(subs, problems, users)
    requires forall u | u in out :: WeightedScore(out[u].points, d) == UserScore(subs, problems, u, d)
    requires forall i | 0 <= i < |keys| :: keys[i] in out && listed[i] == StandingOf(keys[i], out[keys[i]], d)
    requires e == Entry(1 + Ahead<Standing>(Above, listed, listed[k]), listed[k])
    ensures Ranked(subs, problems, users, d, e)
  {
    hide Scorers, UserScore, ShownScore, Ahead, WeightedScore, Hardest;
    var f := (u: int) => ShownScore(UserScore(subs, problems, u, d)) > ShownScore(e.standing.score);
    CountOfKeys<Standing>(keys, f, listed, Above, listed[k]);
    assert (set u | u in keys && f(u)) == set u | u in Scorers(subs, problems, users) &&
      ShownScore(UserScore(subs, problems, u, d)) > ShownScore(e.standing.score);
    assert keys[k] in keys;
  }
}
