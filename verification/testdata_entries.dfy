/** What is read from a test archive, said of its entries: which file is which test, in what order, at what price, and
    what a refusal names. */
module TestDataEntries {
  import opened Options
  import opened Sorting
  import opened Runner
  import opened RunnerLaws
  import opened TestData
  import opened TestDataLaws

  // --------------------------------------------------------------------- Files and keys

  predicate IsFile(e: Entry, kind: Kind, key: Key) {
    e.kind == kind && e.subtask == key.subtask && e.stem == key.stem
  }

  predicate HasFile(entries: seq<Entry>, kind: Kind, key: Key) {
    exists i :: 0 <= i < |entries| && IsFile(entries[i], kind, key)
  }

  /** The content of the last file of the kind under the key. */
  predicate IsContent(entries: seq<Entry>, kind: Kind, key: Key, content: string) {
    exists i :: 0 <= i < |entries| && IsFile(entries[i], kind, key) && entries[i].content == content
      && forall j | i < j < |entries| :: !IsFile(entries[j], kind, key)
  }

  lemma OneMoreFile(most: seq<Entry>, last: Entry, kind: Kind, key: Key)
    ensures HasFile(most + [last], kind, key) <==> HasFile(most, kind, key) || IsFile(last, kind, key)
  {
    var entries := most + [last];
    if HasFile(most, kind, key) {
      var i :| 0 <= i < |most| && IsFile(most[i], kind, key);
      assert IsFile(entries[i], kind, key);
    } else if IsFile(last, kind, key) {
      assert IsFile(entries[|most|], kind, key);
    }
  }

  lemma ContentStays(most: seq<Entry>, last: Entry, kind: Kind, key: Key, content: string)
    requires if IsFile(last, kind, key) then last.content == content else IsContent(most, kind, key, content)
    ensures IsContent(most + [last], kind, key, content)
  {
    var entries := most + [last];
    if IsFile(last, kind, key) {
      assert IsFile(entries[|most|], kind, key);
    } else {
      var i :| 0 <= i < |most| && IsFile(most[i], kind, key) && most[i].content == content
               && forall j | i < j < |most| :: !IsFile(most[j], kind, key);
      assert IsFile(entries[i], kind, key);
    }
  }

  lemma {:induction false} LatestIsLast(entries: seq<Entry>, kind: Kind, key: Key)
    ensures
      var content := Latest(entries, kind, key);
      && (content.None? <==> !HasFile(entries, kind, key))
      && (content.Some? ==> IsContent(entries, kind, key, content.value))
  {
    if entries != [] {
      hide HasFile, IsContent;
      var most, last := entries[..|entries| - 1], entries[|entries| - 1];
      LatestIsLast(most, kind, key);
      assert entries == most + [last];
      OneMoreFile(most, last, kind, key);
      if Latest(entries, kind, key).Some? {
        ContentStays(most, last, kind, key, Latest(entries, kind, key).value);
      }
    }
  }

  lemma KeysHaveInputs(entries: seq<Entry>, key: Key)
    ensures key in InputKeys(entries) <==> HasFile(entries, Input, key)
  {
    InputsHaveContent(entries, key);
    LatestIsLast(entries, Input, key);
  }

  predicate IsMember(e: Entry, group: int) {
    e.kind == Input && e.subtask == group && group != 0
  }

  lemma {:induction false} GroupsHaveInputs(entries: seq<Entry>, group: int)
    ensures group in Groups(entries) <==> exists e :: e in entries && IsMember(e, group)
  {
    if entries != [] {
      var most, last := entries[..|entries| - 1], entries[|entries| - 1];
      GroupsHaveInputs(most, group);
      assert entries == most + [last];
      assert last in entries && forall e | e in most :: e in entries;
      if group in Groups(most) {
        var e :| e in most && IsMember(e, group);
        assert e in entries;
      } else if IsMember(last, group) {
        assert group in Groups(entries);
      }
    }
  }

  /** The percentage on the last input of the subtask that declares one. */
  predicate IsDeclared(entries: seq<Entry>, group: int, percent: nat) {
    exists i :: 0 <= i < |entries| && IsPriced(entries[i], group) && entries[i].declared == Some(percent)
      && forall j | i < j < |entries| :: !IsPriced(entries[j], group)
  }

  predicate IsPriced(e: Entry, group: int) {
    e.kind == Input && e.subtask == group && e.declared.Some?
  }

  predicate IsUndeclared(entries: seq<Entry>, group: int) {
    forall i | 0 <= i < |entries| :: !IsPriced(entries[i], group)
  }

  lemma DeclarationStays(most: seq<Entry>, last: Entry, group: int, percent: nat)
    requires if IsPriced(last, group) then last.declared == Some(percent) else IsDeclared(most, group, percent)
    ensures IsDeclared(most + [last], group, percent)
  {
    hide IsPriced;
    var entries := most + [last];
    assert entries[|most|] == last;
    if IsPriced(last, group) {
      assert IsPriced(entries[|most|], group);
    } else {
      var i :| 0 <= i < |most| && IsPriced(most[i], group) && most[i].declared == Some(percent)
               && forall j | i < j < |most| :: !IsPriced(most[j], group);
      assert IsPriced(entries[i], group);
    }
  }

  lemma {:induction false} DeclaredIsLast(entries: seq<Entry>, group: int)
    ensures
      var percent := DeclaredShare(entries, group);
      && (percent.None? ==> IsUndeclared(entries, group))
      && (percent.Some? ==> IsDeclared(entries, group, percent.value))
  {
    if entries != [] {
      hide IsDeclared;
      var most, last := entries[..|entries| - 1], entries[|entries| - 1];
      DeclaredIsLast(most, group);
      assert entries == most + [last];
      if DeclaredShare(entries, group).Some? {
        DeclarationStays(most, last, group, DeclaredShare(entries, group).value);
      }
    }
  }

  // ----------------------------------------------------------------------- Accepted

  /** Samples come first; then subtask by subtask; then in the natural order of the names. */
  predicate InPlace(names: Names, a: Key, b: Key) {
    && (names.isSample(b.stem) ==> names.isSample(a.stem))
    && (names.isSample(a.stem) == names.isSample(b.stem) ==> a.subtask <= b.subtask)
    && (names.isSample(a.stem) == names.isSample(b.stem) && a.subtask == b.subtask ==> names.naturally(a, b))
  }

  /** A test is the last input under its key with the last answer under it. */
  predicate IsTestFrom(names: Names, entries: seq<Entry>, key: Key, t: ParsedTest) {
    && IsContent(entries, Input, key, t.input) && IsContent(entries, Answer, key, t.output)
    && t.isSample == names.isSample(key.stem) && t.subtask == key.subtask
  }

  lemma InOrderInPlace(names: Names, keys: seq<Key>)
    requires Sorted(names.Order(), keys)
    ensures forall i, j | 0 <= i < j < |keys| :: InPlace(names, keys[i], keys[j])
  {
    forall i, j | 0 <= i < j < |keys| ensures InPlace(names, keys[i], keys[j]) {
      assert names.Order()(keys[i], keys[j]);
    }
  }

  /** The tests of an accepted archive: one for every key that has an input, in their places, each as its files say. */
  lemma TestsSayTheArchive(names: Names, entries: seq<Entry>) returns (keys: seq<Key>)
    requires names.Ordered() && Parsed(names, entries).Ok?
    ensures NoRepeats(keys) && forall k :: k in keys <==> HasFile(entries, Input, k)
    ensures forall i, j | 0 <= i < j < |keys| :: InPlace(names, keys[i], keys[j])
    ensures
      var tests := Parsed(names, entries).value.tests;
      |tests| == |keys| > 0 && forall i | 0 <= i < |keys| :: IsTestFrom(names, entries, keys[i], tests[i])
  {
    hide Parsed, HasFile, InPlace, IsContent, Sorted, Names.Order, Latest;
    keys := AcceptedTests(names, entries);
    KeysAndGroups(entries);
    RepeatsIgnoreOrder(InputKeys(entries), keys);
    InOrderInPlace(names, keys);
    forall k ensures k in keys <==> HasFile(entries, Input, k) {
      KeysHaveInputs(entries, k);
      assert k in keys <==> k in multiset(keys);
      assert k in InputKeys(entries) <==> k in multiset(InputKeys(entries));
    }
    var tests := Parsed(names, entries).value.tests;
    forall i | 0 <= i < |keys| ensures IsTestFrom(names, entries, keys[i], tests[i]) {
      assert IsTestOf(names, entries, keys[i], tests[i]);
      LatestIsLast(entries, Input, keys[i]);
      LatestIsLast(entries, Answer, keys[i]);
    }
  }

  // -------------------------------------------------------------------------- The prices

  predicate Ascending(groups: seq<int>) {
    forall i, j | 0 <= i < j < |groups| :: groups[i] < groups[j]
  }

  lemma SortedApartAscends(groups: seq<int>)
    requires NoRepeats(groups)
    ensures Ascending(Sort(AT_MOST, groups)) && forall g :: g in Sort(AT_MOST, groups) <==> g in groups
  {
    hide Sort;
    var ordered := Sort(AT_MOST, groups);
    SortIsSorted(AT_MOST, groups);
    SortKeepsElements(AT_MOST, groups);
    RepeatsIgnoreOrder(groups, ordered);
    forall g ensures g in ordered <==> g in groups {
      assert g in ordered <==> g in multiset(ordered);
      assert g in groups <==> g in multiset(groups);
    }
    forall i, j | 0 <= i < j < |ordered| ensures ordered[i] < ordered[j] {
      assert AT_MOST(ordered[i], ordered[j]);
    }
  }

  /** Declarations, each group once: what every one of them says is what the archive last said. */
  lemma DeclarationsSay(entries: seq<Entry>)
    ensures
      var declared := Declarations(entries, Groups(entries));
      && |declared| == |Groups(entries)|
      && forall i | 0 <= i < |declared| ::
           declared[i].group == Groups(entries)[i] && declared[i].percent == DeclaredShare(entries, Groups(entries)[i])
  {
  }

  predicate Prices(d: Declaration, s: Share) {
    d.group == s.group && d.percent.Some? && d.percent.value == s.percent
  }

  lemma {:induction false} ExplicitAreDeclared(declared: seq<Declaration>)
    ensures forall s | s in Explicit(declared) ::
      exists i :: 0 <= i < |declared| && Prices(declared[i], s)
  {
    if declared != [] {
      var most, last := declared[..|declared| - 1], declared[|declared| - 1];
      ExplicitAreDeclared(most);
      forall s | s in Explicit(declared)
        ensures exists i :: 0 <= i < |declared| && Prices(declared[i], s)
      {
        if s in Explicit(most) {
          var i :| 0 <= i < |most| && Prices(most[i], s);
          assert declared[i] == most[i];
        } else {
          assert Prices(declared[|declared| - 1], s);
        }
      }
    }
  }

  lemma {:induction false} UnpricedAreUndeclared(declared: seq<Declaration>)
    ensures forall g :: g in Unpriced(declared) <==> Declaration(g, None) in declared
  {
    if declared != [] {
      var most, last := declared[..|declared| - 1], declared[|declared| - 1];
      UnpricedAreUndeclared(most);
      assert declared == most + [last];
    }
  }

  predicate Apart(declared: seq<Declaration>) {
    forall i, j | 0 <= i < j < |declared| :: declared[i].group != declared[j].group
  }

  lemma {:induction false} UnpricedApart(declared: seq<Declaration>)
    requires Apart(declared)
    ensures NoRepeats(Unpriced(declared))
  {
    if declared != [] {
      var most, last := declared[..|declared| - 1], declared[|declared| - 1];
      UnpricedApart(most);
      UnpricedAreUndeclared(most);
      assert last.group !in Unpriced(most);
    }
  }

  lemma {:induction false} GroupsOfAt(declared: seq<Declaration>)
    ensures |GroupsOf(declared)| == |declared|
    ensures forall i | 0 <= i < |declared| :: GroupsOf(declared)[i] == declared[i].group
  {
    if declared != [] {
      GroupsOfAt(declared[..|declared| - 1]);
    }
  }

  /** A subtask of the archive for which no input declares a share. */
  ghost predicate IsUnpriced(entries: seq<Entry>, group: int) {
    && (exists e :: e in entries && IsMember(e, group))
    && IsUndeclared(entries, group)
  }

  lemma UnpricedSay(entries: seq<Entry>)
    ensures
      var unpriced := Unpriced(Declarations(entries, Groups(entries)));
      NoRepeats(unpriced) && forall g :: g in unpriced <==> IsUnpriced(entries, g)
  {
    hide Declarations, Groups, DeclaredShare, Unpriced, GroupsOf;
    var groups := Groups(entries);
    var declared := Declarations(entries, groups);
    KeysAndGroups(entries);
    DeclaredGroups(entries, groups);
    GroupsOfAt(declared);
    UnpricedApart(declared);
    UnpricedAreUndeclared(declared);
    forall g ensures g in Unpriced(declared) <==> IsUnpriced(entries, g) {
      GroupsHaveInputs(entries, g);
      DeclaredIsLast(entries, g);
      if IsUnpriced(entries, g) {
        var i :| 0 <= i < |groups| && groups[i] == g;
        assert declared[i] == Declaration(g, None);
      }
      if g in Unpriced(declared) {
        var i :| 0 <= i < |declared| && declared[i] == Declaration(g, None);
      }
    }
  }

  /** The shares of an accepted archive: each as its subtask last declared it, or an even split over the subtasks in
      ascending order, whatever is left over going to the greatest. */
  lemma SharesSayTheArchive(names: Names, entries: seq<Entry>)
    requires names.Ordered() && Parsed(names, entries).Ok?
    ensures
      var shares := Parsed(names, entries).value.subtasks;
      || (forall s | s in shares :: s.percent >= 0 && IsDeclared(entries, s.group, s.percent))
      || (&& Ascending(GroupsIn(shares))
          && (forall g :: g in GroupsIn(shares) <==> IsUnpriced(entries, g))
          && forall i | 0 <= i < |shares| ::
               shares[i].percent == if i < |shares| - 1 then 100 / |shares| else 100 - 100 / |shares| * (|shares| - 1))
  {
    hide Sort, Declarations, Groups, DeclaredShare, Explicit, Unpriced, EvenSplit, GroupsIn;
    var declared := Declarations(entries, Groups(entries));
    if declared != [] {
      DeclarationsSay(entries);
      ExplicitAreDeclared(declared);
      if Explicit(declared) == [] {
        UnpricedSay(entries);
        SortedApartAscends(Unpriced(declared));
        UnpricedLength(declared);
        SortKeepsElements(AT_MOST, Unpriced(declared));
        EvenSplitSays(Sort(AT_MOST, Unpriced(declared)));
      } else {
        forall s | s in Explicit(declared) ensures s.percent >= 0 && IsDeclared(entries, s.group, s.percent) {
          var i :| 0 <= i < |declared| && Prices(declared[i], s);
          DeclaredIsLast(entries, s.group);
        }
      }
    }
  }

  lemma EvenSplitSays(order: seq<int>)
    requires order != []
    ensures
      var shares := EvenSplit(order);
      && GroupsIn(shares) == order && |shares| == |order|
      && forall i | 0 <= i < |shares| ::
           shares[i].percent == if i < |shares| - 1 then 100 / |shares| else 100 - 100 / |shares| * (|shares| - 1)
  {
    EvenSplitAddsUp(order);
    var shares, n := EvenSplit(order), |order|;
    assert EvenShare(n) == 100 / n && AllBut(EvenShare(n), n - 1) == 100 / n * (n - 1);
    assert shares[n - 1].percent == 100 - AllBut(EvenShare(n), n - 1);
    assert forall i | 0 <= i < n - 1 :: shares[i].percent == EvenShare(n);
  }

  // -------------------------------------------------------------------------- Refused

  /** The stems of the first five of exactly these keys, each once, in some order. */
  ghost predicate NamesFirst(first: seq<string>, which: Key -> bool, order: (Key, Key) -> bool) {
    exists keys: seq<Key> ::
      && NoRepeats(keys) && (forall k :: k in keys <==> which(k))
      && (forall i, j | 0 <= i < j < |keys| :: order(keys[i], keys[j]))
      && |first| == (if |keys| <= 5 then |keys| else 5)
      && forall i | 0 <= i < |first| :: first[i] == keys[i].stem
  }

  predicate LacksAnswer(entries: seq<Entry>, k: Key) {
    HasFile(entries, Input, k) && !HasFile(entries, Answer, k)
  }

  predicate IsStray(names: Names, entries: seq<Entry>, k: Key) {
    HasFile(entries, Input, k) && k.subtask == 0 && !names.isSample(k.stem)
  }

  function Lacking(entries: seq<Entry>): Key -> bool {
    (k: Key) => LacksAnswer(entries, k)
  }

  function Straying(names: Names, entries: seq<Entry>): Key -> bool {
    (k: Key) => IsStray(names, entries, k)
  }

  lemma {:induction false} UnansweredAre(entries: seq<Entry>, keys: seq<Key>)
    requires NoRepeats(keys)
    ensures NoRepeats(Unanswered(entries, keys))
    ensures forall k :: k in Unanswered(entries, keys) <==> k in keys && Latest(entries, Answer, k).None?
  {
    hide Latest;
    if keys != [] {
      var most, last := keys[..|keys| - 1], keys[|keys| - 1];
      UnansweredAre(entries, most);
      assert keys == most + [last];
    }
  }

  lemma {:induction false} StraysAre(names: Names, keys: seq<Key>)
    requires NoRepeats(keys)
    ensures NoRepeats(Stray(names, keys))
    ensures forall k :: k in Stray(names, keys) <==> k in keys && k.subtask == 0 && !names.isSample(k.stem)
  {
    if keys != [] {
      var most, last := keys[..|keys| - 1], keys[|keys| - 1];
      StraysAre(names, most);
      assert keys == most + [last];
    }
  }

  lemma FirstAreNamed(keys: seq<Key>, which: Key -> bool, order: (Key, Key) -> bool)
    requires TotalPreorder(order) && NoRepeats(keys) && forall k :: k in keys <==> which(k)
    ensures NamesFirst(FirstFive(Sort(order, keys)), which, order)
  {
    hide Sort;
    var ordered := Sort(order, keys);
    SortIsSorted(order, keys);
    SortKeepsElements(order, keys);
    RepeatsIgnoreOrder(keys, ordered);
    forall k ensures k in ordered <==> which(k) {
      assert k in ordered <==> k in multiset(ordered);
      assert k in keys <==> k in multiset(keys);
    }
  }

  /** What a refusal says: in this order, no inputs at all; the inputs nothing answers; the hidden tests outside the
      subtasks; the subtasks without a share beside others with one; a total other than a hundred. */
  lemma RefusalSaysTheArchive(names: Names, entries: seq<Entry>)
    requires names.Ordered() && Parsed(names, entries).Err?
    ensures
      var error := Parsed(names, entries).error;
      && (error.NoInputs? <==> forall k :: !HasFile(entries, Input, k))
      && (error.MissingAnswers? <==> exists k :: LacksAnswer(entries, k))
      && (error.MissingAnswers? ==> NamesFirst(error.first, Lacking(entries), names.naturally))
      && (error.StrayTests? ==> NamesFirst(error.first, Straying(names, entries), names.plainly))
      && (error.MissingShares? ==>
            Ascending(error.groups) && forall g :: g in error.groups <==> IsUnpriced(entries, g))
      && (error.WrongTotal? ==>
            error.total != 100 && error.total == TotalShare(Explicit(Declarations(entries, Groups(entries)))))
  {
    hide Sort, Declarations, Groups, Explicit, Unpriced, Unanswered, Stray, TotalPreorder, NamesFirst, HasFile,
         FirstFive, Latest, IsUnpriced, Ascending, InputKeys;
    var keys := InputKeys(entries);
    KeysAndGroups(entries);
    UnansweredAre(entries, keys);
    StraysAre(names, keys);
    var missing, stray := Unanswered(entries, keys), Stray(names, keys);
    forall k
      ensures k in keys <==> HasFile(entries, Input, k)
      ensures k in missing <==> LacksAnswer(entries, k)
      ensures k in stray <==> IsStray(names, entries, k)
    {
      KeysHaveInputs(entries, k);
      LatestIsLast(entries, Answer, k);
    }
    assert missing != [] ==> missing[0] in missing;
    assert keys != [] ==> keys[0] in keys;
    FirstAreNamed(missing, Lacking(entries), names.naturally);
    FirstAreNamed(stray, Straying(names, entries), names.plainly);
    UnpricedSay(entries);
    SortedApartAscends(Unpriced(Declarations(entries, Groups(entries))));
  }

  /** The shares are loaded by subtask, in ascending order. */
  lemma LoadedSharesAscend(shares: seq<Share>)
    ensures forall i, j | 0 <= i < j < |LoadedShares(shares)| ::
      LoadedShares(shares)[i].group <= LoadedShares(shares)[j].group
  {
    hide Sort;
    SortIsSorted(BY_GROUP, shares);
    var loaded := LoadedShares(shares);
    forall i, j | 0 <= i < j < |loaded| ensures loaded[i].group <= loaded[j].group {
      assert BY_GROUP(loaded[i], loaded[j]);
    }
  }
}
