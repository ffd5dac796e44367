/** What an accepted archive guarantees, through to what its problem pays. */
module TestDataLaws {
  import opened Options
  import opened Verdicts
  import opened Sorting
  import opened Runner
  import opened RunnerLaws
  import opened TestData

  // ----------------------------------------------------------------- The shares

  function GroupsIn(shares: seq<Share>): seq<int> {
    if shares == [] then [] else GroupsIn(shares[..|shares| - 1]) + [shares[|shares| - 1].group]
  }

  function GroupsOf(declared: seq<Declaration>): seq<int> {
    if declared == [] then [] else GroupsOf(declared[..|declared| - 1]) + [declared[|declared| - 1].group]
  }

  lemma {:induction false} ExplicitCounts(declared: seq<Declaration>)
    ensures Priced(Explicit(declared)) && |Explicit(declared)| <= |declared|
    ensures |Explicit(declared)| == |declared| <==> forall i | 0 <= i < |declared| :: declared[i].percent.Some?
    ensures Explicit(declared) == [] <==> forall i | 0 <= i < |declared| :: declared[i].percent.None?
  {
    if declared != [] {
      ExplicitCounts(declared[..|declared| - 1]);
    }
  }

  lemma {:induction false} ExplicitGroups(declared: seq<Declaration>)
    ensures |Explicit(declared)| == |declared| ==> GroupsIn(Explicit(declared)) == GroupsOf(declared)
    ensures Explicit(declared) == [] ==> Unpriced(declared) == GroupsOf(declared)
  {
    if declared != [] {
      ExplicitCounts(declared[..|declared| - 1]);
      ExplicitGroups(declared[..|declared| - 1]);
    }
  }

  lemma {:induction false} ConstantTotal(shares: seq<Share>, percent: int)
    requires forall i | 0 <= i < |shares| :: shares[i].percent == percent
    ensures TotalShare(shares) == AllBut(percent, |shares|)
  {
    if shares != [] {
      ConstantTotal(shares[..|shares| - 1], percent);
      OneMoreOf(percent, |shares|);
    }
  }

  lemma OneMoreOf(percent: int, n: nat)
    requires n > 0
    ensures AllBut(percent, n - 1) + percent == AllBut(percent, n)
  {
  }

  lemma EvenShareBounds(n: nat)
    requires n > 0
    ensures 0 <= EvenShare(n) && 0 <= 100 - AllBut(EvenShare(n), n) < n
  {
  }

  lemma {:induction false} GroupsAt(shares: seq<Share>)
    ensures |GroupsIn(shares)| == |shares|
    ensures forall i | 0 <= i < |shares| :: GroupsIn(shares)[i] == shares[i].group
  {
    if shares != [] {
      GroupsAt(shares[..|shares| - 1]);
    }
  }

  /** An even split pays exactly a hundred: every subtask the same whole share, and the last one what is left over,
      which is less than one more point for every subtask. */
  lemma EvenSplitAddsUp(order: seq<int>)
    requires order != []
    ensures
      var shares := EvenSplit(order);
      && TotalShare(shares) == 100 && Priced(shares) && GroupsIn(shares) == order
      && (forall i, j | 0 <= i < j < |shares| - 1 :: shares[i].percent == shares[j].percent)
      && (forall i | 0 <= i < |shares| - 1 :: 0 <= shares[|shares| - 1].percent - shares[i].percent < |shares|)
  {
    hide EvenShare, AllBut;
    var shares, n := EvenSplit(order), |order|;
    EvenShareBounds(n);
    ConstantTotal(shares[..n - 1], EvenShare(n));
    OneMoreOf(EvenShare(n), n);
    GroupsAt(shares);
    assert GroupsIn(shares) == order;
  }

  predicate Repriced(declared: seq<Declaration>) {
    || (forall i | 0 <= i < |declared| :: declared[i].percent.None?)
    || ((forall i | 0 <= i < |declared| :: declared[i].percent.Some?) && TotalShare(Explicit(declared)) == 100)
  }

  /** Shares are resolved exactly when none is declared, or all are and they add up; the result then pays a hundred
      over the same subtasks. */
  lemma ResolvedExactlyWhen(declared: seq<Declaration>)
    requires declared != []
    ensures Resolved(declared).Ok? <==> Repriced(declared)
    ensures Resolved(declared).Ok? ==>
      var shares := Resolved(declared).value;
      TotalShare(shares) == 100 && Priced(shares) && multiset(GroupsIn(shares)) == multiset(GroupsOf(declared))
  {
    hide Sort, EvenSplit;
    ExplicitCounts(declared);
    ExplicitGroups(declared);
    if Explicit(declared) == [] {
      UnpricedLength(declared);
      SortKeepsElements(AT_MOST, Unpriced(declared));
      EvenSplitAddsUp(Sort(AT_MOST, Unpriced(declared)));
    }
  }

  // ---------------------------------------------------------------- The archive

  lemma {:induction false} KeysAndGroups(entries: seq<Entry>)
    ensures NoRepeats(InputKeys(entries)) && NoRepeats(Groups(entries))
    ensures forall k | k in InputKeys(entries) && k.subtask != 0 :: k.subtask in Groups(entries)
    ensures forall g | g in Groups(entries) :: g > 0 && exists k :: k in InputKeys(entries) && k.subtask == g
  {
    if entries != [] {
      var most, last := entries[..|entries| - 1], entries[|entries| - 1];
      KeysAndGroups(most);
      assert last.kind == Input ==> KeyOf(last) in InputKeys(entries);
      assert forall k | k in InputKeys(most) :: k in InputKeys(entries);
      forall g | g in Groups(entries) ensures g > 0 && exists k :: k in InputKeys(entries) && k.subtask == g {
        if g in Groups(most) {
          var k :| k in InputKeys(most) && k.subtask == g;
          assert k in InputKeys(entries);
        } else {
          assert KeyOf(last).subtask == g;
        }
      }
    }
  }

  lemma {:induction false} DeclaredGroups(entries: seq<Entry>, groups: seq<int>)
    ensures GroupsOf(Declarations(entries, groups)) == groups
  {
    if groups != [] {
      DeclaredGroups(entries, groups[..|groups| - 1]);
      var ds := Declarations(entries, groups);
      assert ds[..|ds| - 1] == Declarations(entries, groups[..|groups| - 1]);
    }
  }

  lemma {:induction false} NoStrays(names: Names, keys: seq<Key>)
    ensures Stray(names, keys) == [] <==> forall k | k in keys :: k.subtask != 0 || names.isSample(k.stem)
  {
    if keys != [] {
      var most, last := keys[..|keys| - 1], keys[|keys| - 1];
      NoStrays(names, most);
      assert keys == most + [last];
      assert last in keys && forall k :: k in keys <==> k in most || k == last;
    }
  }

  /** The archives that are accepted. */
  predicate Acceptable(names: Names, entries: seq<Entry>) {
    var keys := InputKeys(entries);
    && keys != []
    && (forall k | k in keys :: Latest(entries, Answer, k).Some?)
    && (Groups(entries) != [] ==>
        && (forall k | k in keys :: k.subtask != 0 || names.isSample(k.stem))
        && Repriced(Declarations(entries, Groups(entries))))
  }

  lemma AcceptedExactlyWhen(names: Names, entries: seq<Entry>)
    ensures Parsed(names, entries).Ok? <==> Acceptable(names, entries)
  {
    hide Sort, Resolved, Repriced;
    AllAnswered(entries, InputKeys(entries));
    NoStrays(names, InputKeys(entries));
    var declared := Declarations(entries, Groups(entries));
    if declared != [] {
      ResolvedExactlyWhen(declared);
    }
  }

  lemma OrderIsTotal(names: Names)
    requires names.Ordered()
    ensures TotalPreorder(names.Order())
  {
  }

  predicate IsTestOf(names: Names, entries: seq<Entry>, key: Key, t: ParsedTest) {
    && Latest(entries, Input, key) == Some(t.input) && Latest(entries, Answer, key) == Some(t.output)
    && t.isSample == names.isSample(key.stem) && t.subtask == key.subtask
  }

  /** Every input becomes exactly one test, paired with the answer under the same key; samples come first, then
      subtask by subtask, naturally inside each. */
  lemma AcceptedTests(names: Names, entries: seq<Entry>) returns (keys: seq<Key>)
    requires names.Ordered() && Parsed(names, entries).Ok?
    ensures
      var tests := Parsed(names, entries).value.tests;
      && |tests| == |keys| > 0
      && multiset(keys) == multiset(InputKeys(entries)) && Sorted(names.Order(), keys)
      && forall i | 0 <= i < |tests| :: IsTestOf(names, entries, keys[i], tests[i])
  {
    hide Sort, Resolved, TotalPreorder, Sorted, Latest, Names.Order, IsTestOf;
    AllAnswered(entries, InputKeys(entries));
    OrderIsTotal(names);
    keys := Sort(names.Order(), InputKeys(entries));
    SortKeepsElements(names.Order(), InputKeys(entries));
    SortIsSorted(names.Order(), InputKeys(entries));
    var tests := Parsed(names, entries).value.tests;
    assert tests == TestsOf(names, entries, keys);
    forall i | 0 <= i < |tests| ensures IsTestOf(names, entries, keys[i], tests[i]) {
      assert keys[i] in multiset(keys);
      assert keys[i] in InputKeys(entries);
      IsTest(names, entries, keys, i);
    }
  }

  lemma IsTest(names: Names, entries: seq<Entry>, keys: seq<Key>, i: nat)
    requires i < |keys| && keys[i] in InputKeys(entries) && Latest(entries, Answer, keys[i]).Some?
    ensures IsTestOf(names, entries, keys[i], TestsOf(names, entries, keys)[i])
  {
    InputsHaveContent(entries, keys[i]);
    var t := TestsOf(names, entries, keys)[i];
    assert t.input == OrEmpty(Latest(entries, Input, keys[i])) && t.output == OrEmpty(Latest(entries, Answer, keys[i]));
  }

  // -------------------------------------------------- As the judge loads it back

  /** The test set written for an archive, numbered from one, with the point each unpriced test scores. */
  function Loaded(tests: seq<ParsedTest>): (specs: seq<TestSpec>)
    ensures |specs| == |tests|
    ensures forall i | 0 <= i < |tests| ::
      specs[i] == TestSpec(i + 1, LoadedPoints(0), tests[i].isSample, tests[i].subtask)
  {
    seq(|tests|, i requires 0 <= i < |tests| =>
      TestSpec(i + 1, LoadedPoints(0), tests[i].isSample, tests[i].subtask))
  }

  function LoadedPoints(stored: int): int {
    if stored > 0 then stored else 1
  }

  const BY_GROUP: (Share, Share) -> bool := (a: Share, b: Share) => a.group <= b.group

  function LoadedShares(shares: seq<Share>): seq<Share> {
    Sort(BY_GROUP, shares)
  }

  lemma {:induction false} TotalSplit(a: seq<Share>, b: seq<Share>)
    ensures TotalShare(a + b) == TotalShare(a) + TotalShare(b)
  {
    if b == [] {
      assert a + b == a;
    } else {
      assert (a + b)[..|a + b| - 1] == a + b[..|b| - 1];
      TotalSplit(a, b[..|b| - 1]);
    }
  }

  lemma TotalWithout(s: seq<Share>, k: nat)
    requires k < |s|
    ensures TotalShare(s) == s[k].percent + TotalShare(Without(s, k))
  {
    hide TotalShare;
    var before, at, after := s[..k], [s[k]], s[k + 1..];
    assert s == before + (at + after);
    TotalSplit(before, at + after);
    TotalSplit(at, after);
    TotalSplit(before, after);
    TotalOfOne(s[k]);
  }

  lemma TotalOfOne(s: Share)
    ensures TotalShare([s]) == s.percent
  {
    assert [s][..0] == [];
  }

  lemma {:induction false} TotalIgnoresOrder(a: seq<Share>, b: seq<Share>)
    requires multiset(a) == multiset(b)
    ensures TotalShare(a) == TotalShare(b)
  {
    hide TotalShare;
    if a == [] {
      assert |multiset(b)| == 0;
    } else {
      assert a[0] in multiset(b);
      var k := Locate(a[0], b);
      WithoutElements(a, 0);
      WithoutElements(b, k);
      TotalIgnoresOrder(Without(a, 0), Without(b, k));
      TotalWithout(a, 0);
      TotalWithout(b, k);
    }
  }

  lemma LoadedSharesAddUp(shares: seq<Share>)
    ensures TotalShare(LoadedShares(shares)) == TotalShare(shares)
    ensures forall s :: s in LoadedShares(shares) <==> s in shares
    ensures |LoadedShares(shares)| == |shares|
  {
    hide Sort;
    SortKeepsElements(BY_GROUP, shares);
    TotalIgnoresOrder(LoadedShares(shares), shares);
    forall s ensures s in LoadedShares(shares) <==> s in shares {
      assert s in LoadedShares(shares) <==> s in multiset(LoadedShares(shares));
      assert s in shares <==> s in multiset(shares);
    }
  }

  lemma AcceptedShares(names: Names, entries: seq<Entry>)
    requires Parsed(names, entries).Ok?
    ensures
      var shares := Parsed(names, entries).value.subtasks;
      && multiset(GroupsIn(shares)) == multiset(Groups(entries)) && Priced(shares)
      && (Groups(entries) != [] ==> shares != [] && TotalShare(shares) == 100)
      && (Groups(entries) == [] ==> shares == [])
  {
    hide Sort, Resolved;
    var declared := Declarations(entries, Groups(entries));
    DeclaredGroups(entries, Groups(entries));
    if declared != [] {
      ResolvedExactlyWhen(declared);
    }
  }

  /** The test set and shares of an accepted archive: numbered apart, and if there are subtasks then every one of
      them has a test, every share is nonnegative and they add up to a hundred. */
  lemma AcceptedArchiveIsScorable(names: Names, entries: seq<Entry>)
    requires names.Ordered() && Parsed(names, entries).Ok?
    ensures
      var data := Parsed(names, entries).value;
      var tests, shares := Loaded(data.tests), LoadedShares(data.subtasks);
      && tests != []
      && (forall i, j | 0 <= i < j < |tests| :: tests[i].idx != tests[j].idx)
      && (shares != [] <==> Groups(entries) != [])
      && Priced(shares) && Covered(tests, shares)
      && (shares != [] ==> TotalShare(shares) == 100)
      && (shares != [] ==> forall i | 0 <= i < |tests| ::
            tests[i].isSample || exists s :: s in shares && s.group == tests[i].subtask)
  {
    hide Parsed, LoadedShares;
    var data := Parsed(names, entries).value;
    var tests, shares := Loaded(data.tests), LoadedShares(data.subtasks);
    var keys := AcceptedTests(names, entries);
    AcceptedShares(names, entries);
    LoadedSharesAddUp(data.subtasks);
    KeysAndGroups(entries);
    assert Priced(shares) by {
      forall i | 0 <= i < |shares| ensures shares[i].percent >= 0 {
        assert shares[i] in data.subtasks;
      }
    }
    forall i | 0 <= i < |shares| ensures HasTest(tests, shares[i].group) {
      var g := ShareIsAGroup(entries, data.subtasks, shares[i]);
      GroupHasTest(names, entries, keys, data.tests, g);
    }
    if shares != [] {
      forall i | 0 <= i < |tests| && !tests[i].isSample
        ensures exists s :: s in shares && s.group == tests[i].subtask
      {
        AcceptedExactlyWhen(names, entries);
        assert IsTestOf(names, entries, keys[i], data.tests[i]);
        assert keys[i] in multiset(keys);
        assert keys[i] in InputKeys(entries);
        var s := GroupHasShare(entries, data.subtasks, tests[i].subtask);
        assert s in shares;
      }
    }
  }

  lemma ShareIsAGroup(entries: seq<Entry>, shares: seq<Share>, s: Share) returns (g: int)
    requires multiset(GroupsIn(shares)) == multiset(Groups(entries)) && s in shares
    ensures g == s.group && g in Groups(entries)
  {
    g := s.group;
    GroupsAt(shares);
    var i :| 0 <= i < |shares| && shares[i] == s;
    assert GroupsIn(shares)[i] in multiset(GroupsIn(shares));
    assert g in multiset(Groups(entries));
  }

  lemma GroupHasShare(entries: seq<Entry>, shares: seq<Share>, g: int) returns (s: Share)
    requires multiset(GroupsIn(shares)) == multiset(Groups(entries)) && g in Groups(entries)
    ensures s in shares && s.group == g
  {
    GroupsAt(shares);
    assert g in multiset(Groups(entries));
    assert g in multiset(GroupsIn(shares));
    var i :| 0 <= i < |shares| && GroupsIn(shares)[i] == g;
    s := shares[i];
  }

  lemma GroupHasTest(names: Names, entries: seq<Entry>, keys: seq<Key>, tests: seq<ParsedTest>, g: int)
    requires |tests| == |keys| && multiset(keys) == multiset(InputKeys(entries))
    requires forall i | 0 <= i < |tests| :: IsTestOf(names, entries, keys[i], tests[i])
    requires g in Groups(entries)
    ensures HasTest(Loaded(tests), g)
  {
    KeysAndGroups(entries);
    var k :| k in InputKeys(entries) && k.subtask == g;
    assert k in multiset(keys);
    var i := Locate(k, keys);
    assert IsTestOf(names, entries, keys[i], tests[i]);
    assert InGroup(Loaded(tests), i, g);
  }

  /** The submission gets to its tests, nothing interrupts it, and it passes every one. */
  ghost predicate AllAccepted(tests: seq<TestSpec>, env: Environment) {
    && TurnedAway(tests, env) == None && Uninterrupted(env)
    && forall i | 0 <= i < |tests| :: env.run(i).Ran? && env.run(i).verdict == AC
  }

  /** On any accepted archive, passing every test earns exactly everything; and if it has subtasks, everything is
      earned exactly when every subtask worth something passed. */
  lemma AcceptedArchivePaysInFull(names: Names, entries: seq<Entry>, partial: bool, env: Environment,
                                  results: seq<TestOutcome>)
    requires names.Ordered() && Parsed(names, entries).Ok?
    ensures
      var data := Parsed(names, entries).value;
      var tests, shares := Loaded(data.tests), LoadedShares(data.subtasks);
      && (AllAccepted(tests, env) ==>
            var outcome := Judged(tests, partial, env).outcome;
            outcome.verdict == AC && outcome.score == |tests| && Earned(tests, outcome.tests, shares, partial) == 100)
      && (Groups(entries) != [] ==>
            (Earned(tests, results, shares, partial) == 100 <==>
              forall i | 0 <= i < |shares| && shares[i].percent > 0 ::
                GroupPassed(tests, Passed(results), shares[i].group)))
  {
    hide Parsed, LoadedShares, Judged, Earned, GroupPassed;
    var data := Parsed(names, entries).value;
    var tests, shares := Loaded(data.tests), LoadedShares(data.subtasks);
    AcceptedArchiveIsScorable(names, entries);
    if shares != [] {
      SubtasksEarnAllExactlyWhen(tests, results, shares, partial);
    }
    if AllAccepted(tests, env) {
      AllAcceptedEarnsAll(tests, shares, partial, env);
      OnePointEach(tests);
    }
  }

  lemma {:induction false} OnePointEach(tests: seq<TestSpec>)
    requires forall i | 0 <= i < |tests| :: tests[i].points == 1
    ensures MaxScore(tests) == |tests|
  {
    if tests != [] {
      OnePointEach(tests[..|tests| - 1]);
    }
  }
}
