/** Problem labels: the letters a contest's problems get by position. */
module Labels {
  import opened Selection

  const ALPHABET := 26

  predicate IsLetter(c: char) {
    'A' <= c <= 'Z'
  }

  predicate IsLabel(s: string) {
    s != "" && forall i | 0 <= i < |s| :: IsLetter(s[i])
  }

  function Letter(n: nat): (c: char)
    requires n < ALPHABET
    ensures IsLetter(c) && Digit(c) == n
  {
    'A' + n as char
  }

  function Digit(c: char): nat
    requires IsLetter(c)
  {
    (c - 'A') as nat
  }

  /** The decoder: reads a label as a numeral whose digits run from 1 to 26. */
  function Value(s: string): nat
    requires forall i | 0 <= i < |s| :: IsLetter(s[i])
  {
    if s == "" then 0 else Value(s[..|s| - 1]) * ALPHABET + Digit(s[|s| - 1]) + 1
  }

  /** The position a label stands for. */
  function Position(s: string): nat
    requires IsLabel(s)
  {
    Value(s) - 1
  }

  /** Two labels with the same value are the same label. */
  lemma {:induction false} ValueIsInjective(s: string, t: string)
    requires forall i | 0 <= i < |s| :: IsLetter(s[i])
    requires forall i | 0 <= i < |t| :: IsLetter(t[i])
    requires Value(s) == Value(t)
    ensures s == t
  {
    if s != "" && t != "" {
      var a, b := s[..|s| - 1], t[..|t| - 1];
      var x, y := Digit(s[|s| - 1]), Digit(t[|t| - 1]);
      assert Value(a) * ALPHABET + x == Value(b) * ALPHABET + y;
      assert Value(a) == Value(b) && x == y;
      ValueIsInjective(a, b);
      assert s == a + [s[|s| - 1]] && t == b + [t[|t| - 1]];
    }
  }

  /** The label at a position, as a function: the one label whose decoded position it is. */
  function LabelOf(position: nat): (s: string)
    ensures IsLabel(s) && Position(s) == position
  {
    var q, r := position / ALPHABET, position % ALPHABET;
    if q == 0 then
      var s := [Letter(r)];
      assert s[..|s| - 1] == "" && Value("") == 0;
      s
    else
      var init := LabelOf(q - 1);
      var s := init + [Letter(r)];
      assert s[..|s| - 1] == init;
      s
  }

  /** Every label is the label of exactly the position it decodes to. */
  lemma LabelOfPosition(s: string)
    requires IsLabel(s)
    ensures LabelOf(Position(s)) == s
  {
    ValueIsInjective(LabelOf(Position(s)), s);
  }

  /** Shorter, or as long and earlier at the first letter that differs. */
  ghost predicate ComesBefore(s: string, t: string) {
    || |s| < |t|
    || (|s| == |t| && exists k :: 0 <= k < |s| && s[..k] == t[..k] && s[k] < t[k])
  }

  lemma OneLetterMore(n: nat)
    ensures n < ALPHABET ==> LabelOf(n) == ['A' + n as char]
    ensures n >= ALPHABET ==> LabelOf(n) == LabelOf(n / ALPHABET - 1) + ['A' + (n % ALPHABET) as char]
  {
  }

  lemma LongerComesAfter(a: string, b: string, c: char, d: char)
    requires ComesBefore(a, b)
    ensures ComesBefore(a + [c], b + [d])
  {
    if |a| == |b| {
      var k :| 0 <= k < |a| && a[..k] == b[..k] && a[k] < b[k];
      assert (a + [c])[..k] == a[..k] && (b + [d])[..k] == b[..k];
      assert (a + [c])[k] < (b + [d])[k];
    }
  }

  /** Labels run A to Z, then AA, AB and so on: a later position has the longer label, or the one later in the
      alphabet. */
  lemma {:induction false} LabelsInOrder(p: nat, q: nat)
    requires p < q
    ensures ComesBefore(LabelOf(p), LabelOf(q))
    ensures LabelOf(0) == "A"
    decreases q
  {
    hide LabelOf;
    OneLetterMore(0);
    OneLetterMore(p);
    OneLetterMore(q);
    if p >= ALPHABET && p / ALPHABET < q / ALPHABET {
      var c, d := 'A' + (p % ALPHABET) as char, 'A' + (q % ALPHABET) as char;
      LabelsInOrder(p / ALPHABET - 1, q / ALPHABET - 1);
      LongerComesAfter(LabelOf(p / ALPHABET - 1), LabelOf(q / ALPHABET - 1), c, d);
    } else if p / ALPHABET == q / ALPHABET {
      var s, t := LabelOf(p), LabelOf(q);
      assert s[..|s| - 1] == t[..|t| - 1] && s[|s| - 1] < t[|t| - 1];
    }
  }

  /** What the loop still has to put in front: nothing once the count has run out. */
  function Ahead(rest: nat): string {
    if rest == 0 then "" else LabelOf(rest - 1)
  }

  lemma OneLetter(rest: nat, text: string)
    requires rest > 0
    ensures Ahead(rest) + text == Ahead((rest - 1) / ALPHABET) + ([Letter((rest - 1) % ALPHABET)] + text)
  {
    var q, r := (rest - 1) / ALPHABET, (rest - 1) % ALPHABET;
    assert LabelOf(rest - 1) == Ahead(q) + [Letter(r)];
  }

  method LabelFor(position: nat) returns (text: string)
    ensures IsLabel(text) && Position(text) == position
    ensures text == LabelOf(position)
  {
    text := "";
    var rest: nat := position + 1;
    while rest != 0
      invariant Ahead(rest) + text == LabelOf(position)
    {
      OneLetter(rest, text);
      var quotient, remainder := (rest - 1) / ALPHABET, (rest - 1) % ALPHABET;
      rest := quotient;
      text := [Letter(remainder)] + text;
    }
    assert Ahead(0) + text == text;
  }

  // ------------------------------------------------- Filling in a problem set

  /** One problem as the admin sends it; the label is empty when none is given. */
  datatype Item = Item(slug: string, name: string)
  datatype Entry = Entry(contest: int, problem: int, name: string)

  datatype Outcome = Accepted(count: nat) | NoSuchProblem(slug: string) | LabelsMustBeUnique | RepeatedProblem

  function Assigned(items: seq<Item>, position: nat): string
    requires position < |items|
  {
    if items[position].name != "" then items[position].name else LabelOf(position)
  }

  predicate AllKnown(items: seq<Item>, problems: map<string, int>) {
    forall i | 0 <= i < |items| :: items[i].slug in problems
  }

  /** The rows a problem set is stored as. */
  function Entries(contest: int, items: seq<Item>, problems: map<string, int>): (entries: seq<Entry>)
    requires AllKnown(items, problems)
    ensures |entries| == |items|
    ensures forall i | 0 <= i < |items| ::
      entries[i] == Entry(contest, problems[items[i].slug], Assigned(items, i))
  {
    seq(|items|, i requires 0 <= i < |items| => Entry(contest, problems[items[i].slug], Assigned(items, i)))
  }

  function LabelsOf(entries: seq<Entry>): (labels: seq<string>)
    ensures |labels| == |entries| && forall i | 0 <= i < |entries| :: labels[i] == entries[i].name
  {
    seq(|entries|, i requires 0 <= i < |entries| => entries[i].name)
  }

  predicate LabelsDiffer(entries: seq<Entry>) {
    PairwiseDistinct(LabelsOf(entries))
  }

  predicate ProblemsDiffer(entries: seq<Entry>) {
    forall i, j | 0 <= i < j < |entries| :: entries[i].problem != entries[j].problem
  }

  function OtherContests(rows: seq<Entry>, contest: int): seq<Entry> {
    if rows == [] then []
    else
      var last := rows[|rows| - 1];
      OtherContests(rows[..|rows| - 1], contest) + (if last.contest == contest then [] else [last])
  }

  function OfOthers(contest: int): Entry -> bool {
    (e: Entry) => e.contest != contest
  }

  lemma {:induction false} OthersArePicked(rows: seq<Entry>, contest: int)
    ensures Picks(rows, OfOthers(contest), OtherContests(rows, contest))
  {
    hide Picks;
    if rows == [] {
      PicksNothing(OfOthers(contest));
    } else {
      var most, last := rows[..|rows| - 1], rows[|rows| - 1];
      OthersArePicked(most, contest);
      PicksOneMore(most, last, OfOthers(contest), OtherContests(most, contest));
      assert most + [last] == rows;
      assert OtherContests(most, contest) + [] == OtherContests(most, contest);
    }
  }

  /** The rows of a problem set: each problem in its place, under its own label or the one of its position. */
  ghost predicate AreRows(rows: seq<Entry>, contest: int, items: seq<Item>, problems: map<string, int>)
    requires AllKnown(items, problems)
  {
    && |rows| == |items|
    && forall i | 0 <= i < |items| ::
         && rows[i].contest == contest && rows[i].problem == problems[items[i].slug]
         && (items[i].name != "" ==> rows[i].name == items[i].name)
         && (items[i].name == "" ==> IsLabel(rows[i].name) && Position(rows[i].name) == i)
  }

  lemma EntriesAreRows(contest: int, items: seq<Item>, problems: map<string, int>)
    requires AllKnown(items, problems)
    ensures AreRows(Entries(contest, items, problems), contest, items, problems)
  {
  }

  predicate PairwiseDistinct(labels: seq<string>) {
    forall i, j | 0 <= i < j < |labels| :: labels[i] != labels[j]
  }

  /** The distinct-count test finds exactly the repeated labels. */
  lemma {:induction false} CountingFindsRepeats(labels: seq<string>)
    ensures |set i | 0 <= i < |labels| :: labels[i]| <= |labels|
    ensures |set i | 0 <= i < |labels| :: labels[i]| == |labels| <==> PairwiseDistinct(labels)
  {
    var all := set i | 0 <= i < |labels| :: labels[i];
    if labels != [] {
      var init, last := labels[..|labels| - 1], labels[|labels| - 1];
      var rest := set i | 0 <= i < |init| :: init[i];
      CountingFindsRepeats(init);
      assert all == rest + {last};
      if last in rest {
        assert all == rest;
        assert !PairwiseDistinct(labels);
      } else {
        assert |all| == |rest| + 1;
        if PairwiseDistinct(init) {
          forall i | 0 <= i < |init| ensures labels[i] != last {
            assert init[i] in rest;
          }
          assert PairwiseDistinct(labels);
        }
        if PairwiseDistinct(labels) {
          forall i, j | 0 <= i < j < |init| ensures init[i] != init[j] {
            assert labels[i] != labels[j];
          }
        }
      }
    } else {
      assert all == {};
    }
  }

  class ProblemSets {
    var rows: seq<Entry>

    constructor (rows: seq<Entry>)
      ensures this.rows == rows
    {
      this.rows := rows;
    }

    /** A contest's problems replaced as a whole: the first unknown problem is reported, then labels that clash; a
        problem listed twice is refused by the table itself and the old set stays. */
    method SetContestProblems(contest: int, problems: map<string, int>, items: seq<Item>) returns (r: Outcome)
      modifies this
      ensures r.NoSuchProblem? <==> !AllKnown(items, problems)
      ensures r.NoSuchProblem? ==> exists i | 0 <= i < |items| ::
        items[i].slug == r.slug && r.slug !in problems && forall j | 0 <= j < i :: items[j].slug in problems
      ensures AllKnown(items, problems) ==>
        var entries := Entries(contest, items, problems);
        && (r.LabelsMustBeUnique? <==> !LabelsDiffer(entries))
        && (r.RepeatedProblem? <==> LabelsDiffer(entries) && !ProblemsDiffer(entries))
        && (r.Accepted? ==> r.count == |items| && rows == OtherContests(old(rows), contest) + entries)
      ensures !r.Accepted? ==> rows == old(rows)
      ensures r.Accepted? ==>
        && AllKnown(items, problems)
        && exists others, mine :: rows == others + mine
             && Picks(old(rows), OfOthers(contest), others) && AreRows(mine, contest, items, problems)
    {
      hide Picks, AreRows;
      var entries: seq<Entry> := [];
      for position := 0 to |items|
        invariant rows == old(rows)
        invariant |entries| == position && forall j | 0 <= j < position :: items[j].slug in problems
        invariant forall i | 0 <= i < position ::
          entries[i] == Entry(contest, problems[items[i].slug], Assigned(items, i))
      {
        if items[position].slug !in problems {
          return NoSuchProblem(items[position].slug);
        }
        var chosen := items[position].name;
        if chosen == "" {
          chosen := LabelFor(position);
        }
        entries := entries + [Entry(contest, problems[items[position].slug], chosen)];
      }
      assert entries == Entries(contest, items, problems);
      var labels := LabelsOf(entries);
      var distinct := set i | 0 <= i < |labels| :: labels[i];
      CountingFindsRepeats(labels);
      if |distinct| != |labels| {
        return LabelsMustBeUnique;
      }
      if !ProblemsDiffer(entries) {
        return RepeatedProblem;
      }
      OthersArePicked(rows, contest);
      EntriesAreRows(contest, items, problems);
      rows := OtherContests(rows, contest) + entries;
      return Accepted(|entries|);
    }
  }

  /** A problem set sent with no labels of its own never clashes, however long it is. */
  lemma AutomaticLabelsNeverClash(contest: int, items: seq<Item>, problems: map<string, int>)
    requires AllKnown(items, problems) && forall k | 0 <= k < |items| :: items[k].name == ""
    ensures LabelsDiffer(Entries(contest, items, problems))
  {
    forall i, j | 0 <= i < j < |items|
      ensures Entries(contest, items, problems)[i].name != Entries(contest, items, problems)[j].name
    {
      assert Position(LabelOf(i)) != Position(LabelOf(j));
    }
  }
}
