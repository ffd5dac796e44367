/** Reading a test archive: pairing inputs with answers, grouping them into subtasks, pricing the subtasks. */
module TestData {
  import opened Options
  import opened Sorting
  import opened Runner
  import opened RunnerLaws

  datatype Kind = Input | Answer | Other
  datatype Entry = Entry(kind: Kind, subtask: nat, declared: Option<nat>, stem: string, content: string)
  /** Files pair up by stem inside a subtask; subtask 0 is no subtask. */
  datatype Key = Key(subtask: nat, stem: string)

  datatype Error =
    | NoInputs
    | MissingAnswers(first: seq<string>)
    | StrayTests(first: seq<string>)
    | MissingShares(groups: seq<int>)
    | WrongTotal(total: int)
  datatype Result<T> = Ok(value: T) | Err(error: Error)

  datatype ParsedTest = ParsedTest(input: string, output: string, isSample: bool, subtask: nat)
  datatype ParsedTestData = ParsedTestData(tests: seq<ParsedTest>, subtasks: seq<Share>)

  /** How names are read: which stems are samples, the natural order of keys, and their plain order. */
  datatype Names = Names(isSample: string -> bool, naturally: (Key, Key) -> bool, plainly: (Key, Key) -> bool) {
    ghost predicate Ordered() {
      TotalPreorder(naturally) && TotalPreorder(plainly)
    }

    predicate Before(a: Key, b: Key) {
      var x, y := isSample(a.stem), isSample(b.stem);
      if x != y then x
      else if a.subtask != b.subtask then a.subtask < b.subtask
      else naturally(a, b)
    }

    /** Samples first, then subtask by subtask, naturally inside each. */
    function Order(): (Key, Key) -> bool {
      (a, b) => Before(a, b)
    }
  }

  // ------------------------------------------------ What an archive says, declaratively

  function KeyOf(e: Entry): Key {
    Key(e.subtask, e.stem)
  }

  /** The last file of a kind under a key. */
  function Latest(entries: seq<Entry>, kind: Kind, key: Key): Option<string> {
    if entries == [] then None
    else
      var last := entries[|entries| - 1];
      if last.kind == kind && KeyOf(last) == key then Some(last.content)
      else Latest(entries[..|entries| - 1], kind, key)
  }

  /** The keys that have an input, in order of first appearance. */
  function InputKeys(entries: seq<Entry>): seq<Key> {
    if entries == [] then []
    else
      var last := entries[|entries| - 1];
      var keys := InputKeys(entries[..|entries| - 1]);
      if last.kind == Input && KeyOf(last) !in keys then keys + [KeyOf(last)] else keys
  }

  /** The subtasks that have an input, in order of first appearance. */
  function Groups(entries: seq<Entry>): seq<int> {
    if entries == [] then []
    else
      var last := entries[|entries| - 1];
      var groups := Groups(entries[..|entries| - 1]);
      if last.kind == Input && last.subtask != 0 && last.subtask !in groups then groups + [last.subtask] else groups
  }

  /** The share a subtask was last declared with. */
  function DeclaredShare(entries: seq<Entry>, group: int): Option<nat> {
    if entries == [] then None
    else
      var last := entries[|entries| - 1];
      if last.kind == Input && last.subtask == group && last.declared.Some? then last.declared
      else DeclaredShare(entries[..|entries| - 1], group)
  }

  // ----------------------------------------------------------------- The shares

  datatype Declaration = Declaration(group: int, percent: Option<nat>)

  function Declarations(entries: seq<Entry>, groups: seq<int>): (ds: seq<Declaration>)
    ensures |ds| == |groups|
    ensures forall i | 0 <= i < |ds| :: ds[i] == Declaration(groups[i], DeclaredShare(entries, groups[i]))
  {
    if groups == [] then []
    else
      var most := groups[..|groups| - 1];
      Declarations(entries, most) + [Declaration(groups[|most|], DeclaredShare(entries, groups[|most|]))]
  }

  function Explicit(declared: seq<Declaration>): seq<Share> {
    if declared == [] then []
    else
      var last := declared[|declared| - 1];
      Explicit(declared[..|declared| - 1])
        + (if last.percent.Some? then [Share(last.group, last.percent.value)] else [])
  }

  function Unpriced(declared: seq<Declaration>): seq<int> {
    if declared == [] then []
    else
      var last := declared[|declared| - 1];
      Unpriced(declared[..|declared| - 1]) + (if last.percent.None? then [last.group] else [])
  }

  const AT_MOST: (int, int) -> bool := (a, b) => a <= b

  /** An even split of the hundred, the remainder on the last subtask. */
  function EvenSplit(order: seq<int>): (shares: seq<Share>)
    requires order != []
    ensures |shares| == |order|
  {
    var share := EvenShare(|order|);
    seq(|order|, i requires 0 <= i < |order| =>
      Share(order[i], if i == |order| - 1 then 100 - AllBut(share, |order| - 1) else share))
  }

  function EvenShare(n: nat): int
    requires n > 0
  {
    100 / n
  }

  function AllBut(share: int, n: nat): int {
    share * n
  }

  function Resolved(declared: seq<Declaration>): Result<seq<Share>>
    requires declared != []
  {
    var explicit := Explicit(declared);
    if explicit != [] && |explicit| != |declared| then Err(MissingShares(Sort(AT_MOST, Unpriced(declared))))
    else if explicit != [] then
      if TotalShare(explicit) != 100 then Err(WrongTotal(TotalShare(explicit))) else Ok(explicit)
    else
      SortKeepsElements(AT_MOST, Unpriced(declared));
      UnpricedLength(declared);
      Ok(EvenSplit(Sort(AT_MOST, Unpriced(declared))))
  }

  lemma {:induction false} UnpricedLength(declared: seq<Declaration>)
    ensures |Unpriced(declared)| + |Explicit(declared)| == |declared|
  {
    if declared != [] {
      UnpricedLength(declared[..|declared| - 1]);
    }
  }

  method ResolvePercentages(declared: seq<Declaration>) returns (shares: Result<seq<Share>>)
    requires declared != []
    ensures shares == Resolved(declared)
  {
    var explicit, unpriced, total := [], [], 0;
    assert declared[..|declared|] == declared;
    for i := 0 to |declared|
      invariant explicit == Explicit(declared[..i]) && unpriced == Unpriced(declared[..i])
      invariant total == TotalShare(explicit)
    {
      assert declared[..i + 1][..i] == declared[..i];
      if declared[i].percent.Some? {
        var share := Share(declared[i].group, declared[i].percent.value);
        assert (explicit + [share])[..|explicit|] == explicit;
        explicit, total := explicit + [share], total + share.percent;
      } else {
        unpriced := unpriced + [declared[i].group];
      }
    }
    if explicit != [] && |explicit| != |declared| {
      return Err(MissingShares(Sort(AT_MOST, unpriced)));
    }
    if explicit != [] {
      return if total != 100 then Err(WrongTotal(total)) else Ok(explicit);
    }
    var order := Sort(AT_MOST, unpriced);
    SortKeepsElements(AT_MOST, unpriced);
    UnpricedLength(declared);
    var out := SplitEvenly(order);
    return Ok(out);
  }

  method SplitEvenly(order: seq<int>) returns (out: seq<Share>)
    requires order != []
    ensures out == EvenSplit(order)
  {
    var n := |order|;
    var share := EvenShare(n);
    out := seq(n, i requires 0 <= i < n => Share(order[i], share));
    LastShare(n, share);
    out := out[n - 1 := Share(order[n - 1], share + (100 - AllBut(share, n)))];
  }

  lemma LastShare(n: nat, share: int)
    requires n > 0
    ensures share + (100 - AllBut(share, n)) == 100 - AllBut(share, n - 1)
  {
  }

  // ---------------------------------------------------------------- The archive

  function Stems(keys: seq<Key>): seq<string> {
    seq(|keys|, i requires 0 <= i < |keys| => keys[i].stem)
  }

  function FirstFive(keys: seq<Key>): seq<string> {
    Stems(if |keys| <= 5 then keys else keys[..5])
  }

  function Unanswered(entries: seq<Entry>, keys: seq<Key>): seq<Key> {
    if keys == [] then []
    else
      var last := keys[|keys| - 1];
      Unanswered(entries, keys[..|keys| - 1]) + (if Latest(entries, Answer, last).None? then [last] else [])
  }

  function Stray(names: Names, keys: seq<Key>): seq<Key> {
    if keys == [] then []
    else
      var last := keys[|keys| - 1];
      Stray(names, keys[..|keys| - 1]) + (if last.subtask == 0 && !names.isSample(last.stem) then [last] else [])
  }

  function OrEmpty(content: Option<string>): string {
    if content.Some? then content.value else ""
  }

  function TestsOf(names: Names, entries: seq<Entry>, keys: seq<Key>): (tests: seq<ParsedTest>)
    ensures |tests| == |keys|
  {
    seq(|keys|, i requires 0 <= i < |keys| =>
      ParsedTest(OrEmpty(Latest(entries, Input, keys[i])), OrEmpty(Latest(entries, Answer, keys[i])),
                 names.isSample(keys[i].stem), keys[i].subtask))
  }

  function SharesOf(entries: seq<Entry>): Result<seq<Share>> {
    var declared := Declarations(entries, Groups(entries));
    if declared == [] then Ok([]) else Resolved(declared)
  }

  function Parsed(names: Names, entries: seq<Entry>): Result<ParsedTestData> {
    var keys := InputKeys(entries);
    var missing := Unanswered(entries, keys);
    var stray := Stray(names, keys);
    if keys == [] then Err(NoInputs)
    else if missing != [] then Err(MissingAnswers(FirstFive(Sort(names.naturally, missing))))
    else if Groups(entries) != [] && stray != [] then Err(StrayTests(FirstFive(Sort(names.plainly, stray))))
    else match SharesOf(entries)
      case Err(error) => Err(error)
      case Ok(shares) => Ok(ParsedTestData(TestsOf(names, entries, Sort(names.Order(), keys)), shares))
  }

  lemma InputsHaveContent(entries: seq<Entry>, key: Key)
    ensures key in InputKeys(entries) <==> Latest(entries, Input, key).Some?
  {
    if entries != [] {
      InputsHaveContent(entries[..|entries| - 1], key);
    }
  }

  /** What the one pass over the archive has collected from the entries so far: the files, and the subtasks. */
  ghost predicate CollectedFiles(entries: seq<Entry>, order: seq<Key>, inputs: map<Key, string>,
                                 answers: map<Key, string>)
  {
    && order == InputKeys(entries)
    && (forall k :: k in inputs <==> k in order)
    && (forall k :: k in inputs ==> Latest(entries, Input, k) == Some(inputs[k]))
    && (forall k :: Latest(entries, Answer, k) == if k in answers then Some(answers[k]) else None)
  }

  ghost predicate CollectedGroups(entries: seq<Entry>, groups: seq<int>, declared: map<int, Option<nat>>) {
    && groups == Groups(entries)
    && (forall g :: g in declared <==> g in groups)
    && (forall g | g != 0 :: DeclaredShare(entries, g) == if g in declared then declared[g] else None)
    && 0 !in declared
  }

  method Collect(entries: seq<Entry>)
    returns (order: seq<Key>, inputs: map<Key, string>, answers: map<Key, string>, groups: seq<int>,
             declared: map<int, Option<nat>>)
    ensures CollectedFiles(entries, order, inputs, answers)
    ensures CollectedGroups(entries, groups, declared)
  {
    hide CollectedFiles, CollectedGroups;
    order, inputs, answers, groups, declared := [], map[], map[], [], map[];
    assert entries[..|entries|] == entries;
    NothingCollected();
    for i := 0 to |entries|
      invariant CollectedFiles(entries[..i], order, inputs, answers)
      invariant CollectedGroups(entries[..i], groups, declared)
    {
      assert entries[..i + 1] == entries[..i] + [entries[i]];
      var e := entries[i];
      var key := KeyOf(e);
      ghost var was := declared;
      FileAdded(entries[..i], e, order, inputs, answers);
      GroupAdded(entries[..i], e, groups, declared);
      if e.kind == Input {
        if key !in inputs {
          order := order + [key];
        }
        inputs := inputs[key := e.content];
        if e.subtask != 0 {
          if e.subtask !in declared {
            groups := groups + [e.subtask];
            declared := declared[e.subtask := e.declared];
          }
          if e.declared.Some? {
            declared := declared[e.subtask := e.declared];
          }
          assert e.subtask !in was || e.declared.Some? ==> declared == was[e.subtask := e.declared];
        }
      } else if e.kind == Answer {
        answers := answers[key := e.content];
      }
    }
  }

  lemma KeysAreCollected(entries: seq<Entry>, order: seq<Key>, inputs: map<Key, string>, answers: map<Key, string>)
    requires CollectedFiles(entries, order, inputs, answers)
    ensures order == InputKeys(entries)
  {
  }

  lemma GroupsAreCollected(entries: seq<Entry>, groups: seq<int>, declared: map<int, Option<nat>>)
    requires CollectedGroups(entries, groups, declared)
    ensures groups == Groups(entries)
  {
  }

  lemma CollectedGroupIsDeclared(entries: seq<Entry>, groups: seq<int>, declared: map<int, Option<nat>>, g: int)
    requires CollectedGroups(entries, groups, declared) && g in groups
    ensures g in declared && declared[g] == DeclaredShare(entries, g)
  {
  }

  lemma CollectedKeyIsAnswered(entries: seq<Entry>, order: seq<Key>, inputs: map<Key, string>,
                               answers: map<Key, string>, k: Key)
    requires CollectedFiles(entries, order, inputs, answers)
    requires k in order && Latest(entries, Answer, k).Some?
    ensures k in inputs && inputs[k] == OrEmpty(Latest(entries, Input, k))
    ensures k in answers && answers[k] == OrEmpty(Latest(entries, Answer, k))
  {
  }

  lemma NothingCollected()
    ensures CollectedFiles([], [], map[], map[]) && CollectedGroups([], [], map[])
  {
  }

  lemma FileAdded(entries: seq<Entry>, e: Entry, order: seq<Key>, inputs: map<Key, string>, answers: map<Key, string>)
    requires CollectedFiles(entries, order, inputs, answers)
    ensures
      var key := KeyOf(e);
      CollectedFiles(entries + [e],
                     if e.kind == Input && key !in inputs then order + [key] else order,
                     if e.kind == Input then inputs[key := e.content] else inputs,
                     if e.kind == Answer then answers[key := e.content] else answers)
  {
    assert (entries + [e])[..|entries|] == entries;
    forall k ensures Latest(entries + [e], Answer, k) ==
      if e.kind == Answer && KeyOf(e) == k then Some(e.content) else Latest(entries, Answer, k) {
    }
  }

  lemma GroupAdded(entries: seq<Entry>, e: Entry, groups: seq<int>, declared: map<int, Option<nat>>)
    requires CollectedGroups(entries, groups, declared)
    ensures
      var priced := e.kind == Input && e.subtask != 0;
      var first := priced && e.subtask !in declared;
      CollectedGroups(entries + [e],
                      if first then groups + [e.subtask] else groups,
                      if first || (priced && e.declared.Some?) then declared[e.subtask := e.declared] else declared)
  {
    assert (entries + [e])[..|entries|] == entries;
    forall g | g != 0 ensures DeclaredShare(entries + [e], g) ==
      if e.kind == Input && e.subtask == g && e.declared.Some? then e.declared else DeclaredShare(entries, g) {
    }
  }

  method Faults(names: Names, entries: seq<Entry>, order: seq<Key>, inputs: map<Key, string>, answers: map<Key, string>)
    returns (missing: seq<Key>, stray: seq<Key>)
    requires CollectedFiles(entries, order, inputs, answers)
    ensures missing == Unanswered(entries, order) && stray == Stray(names, order)
  {
    missing, stray := [], [];
    assert order[..|order|] == order;
    for i := 0 to |order|
      invariant missing == Unanswered(entries, order[..i])
      invariant stray == Stray(names, order[..i])
    {
      assert order[..i + 1][..i] == order[..i];
      if order[i] !in answers {
        missing := missing + [order[i]];
      }
      if order[i].subtask == 0 && !names.isSample(order[i].stem) {
        stray := stray + [order[i]];
      }
    }
  }

  method Declare(entries: seq<Entry>, groups: seq<int>, declared: map<int, Option<nat>>)
    returns (declarations: seq<Declaration>)
    requires CollectedGroups(entries, groups, declared)
    ensures declarations == Declarations(entries, groups)
  {
    hide CollectedGroups, DeclaredShare;
    declarations := [];
    assert groups[..|groups|] == groups;
    for i := 0 to |groups|
      invariant declarations == Declarations(entries, groups[..i])
    {
      assert groups[..i + 1][..i] == groups[..i];
      CollectedGroupIsDeclared(entries, groups, declared, groups[i]);
      declarations := declarations + [Declaration(groups[i], declared[groups[i]])];
    }
  }

  method Gather(names: Names, entries: seq<Entry>, order: seq<Key>, sorted: seq<Key>, inputs: map<Key, string>,
                answers: map<Key, string>) returns (tests: seq<ParsedTest>)
    requires CollectedFiles(entries, order, inputs, answers)
    requires sorted == Sort(names.Order(), order) && forall k | k in order :: Latest(entries, Answer, k).Some?
    ensures tests == TestsOf(names, entries, sorted)
  {
    hide CollectedFiles, Latest;
    SortKeepsElements(names.Order(), order);
    forall i | 0 <= i < |sorted|
      ensures sorted[i] in inputs && inputs[sorted[i]] == OrEmpty(Latest(entries, Input, sorted[i]))
      ensures sorted[i] in answers && answers[sorted[i]] == OrEmpty(Latest(entries, Answer, sorted[i]))
    {
      assert sorted[i] in multiset(sorted);
      CollectedKeyIsAnswered(entries, order, inputs, answers, sorted[i]);
    }
    tests := seq(|sorted|, i requires 0 <= i < |sorted| =>
      ParsedTest(inputs[sorted[i]], answers[sorted[i]], names.isSample(sorted[i].stem), sorted[i].subtask));
  }

  method ParseZip(names: Names, entries: seq<Entry>) returns (data: Result<ParsedTestData>)
    ensures data == Parsed(names, entries)
  {
    hide CollectedFiles, CollectedGroups, Resolved, Sort, Unanswered, Stray;
    var order, inputs, answers, groups, declared := Collect(entries);
    KeysAreCollected(entries, order, inputs, answers);
    GroupsAreCollected(entries, groups, declared);
    if order == [] {
      return Err(NoInputs);
    }
    var missing, stray := Faults(names, entries, order, inputs, answers);
    if missing != [] {
      return Err(MissingAnswers(FirstFive(Sort(names.naturally, missing))));
    }
    if groups != [] && stray != [] {
      return Err(StrayTests(FirstFive(Sort(names.plainly, stray))));
    }
    var shares := Ok([]);
    if groups != [] {
      var declarations := Declare(entries, groups, declared);
      shares := ResolvePercentages(declarations);
    }
    if shares.Err? {
      return Err(shares.error);
    }
    var sorted := Sort(names.Order(), order);
    AllAnswered(entries, order);
    var tests := Gather(names, entries, order, sorted, inputs, answers);
    return Ok(ParsedTestData(tests, shares.value));
  }

  lemma {:induction false} AllAnswered(entries: seq<Entry>, keys: seq<Key>)
    ensures Unanswered(entries, keys) == [] <==> forall k | k in keys :: Latest(entries, Answer, k).Some?
  {
    if keys != [] {
      var most, last := keys[..|keys| - 1], keys[|keys| - 1];
      AllAnswered(entries, most);
      assert keys == most + [last];
      assert last in keys && forall k :: k in keys <==> k in most || k == last;
    }
  }
}
