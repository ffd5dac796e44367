/** The stable sort the rankings rely on, and the rank loop that hands out shared places. */
module Sorting {

  ghost predicate TotalPreorder<T(!new)>(le: (T, T) -> bool) {
    && (forall x, y :: le(x, y) || le(y, x))
    && (forall x, y, z :: le(x, y) && le(y, z) ==> le(x, z))
  }

  ghost predicate Sorted<T>(le: (T, T) -> bool, s: seq<T>) {
    forall i, j | 0 <= i < j < |s| :: le(s[i], s[j])
  }

  function Insert<T>(le: (T, T) -> bool, x: T, s: seq<T>): seq<T> {
    if s == [] || le(x, s[0]) then [x] + s else [s[0]] + Insert(le, x, s[1..])
  }

  function Sort<T>(le: (T, T) -> bool, s: seq<T>): seq<T> {
    if s == [] then [] else Insert(le, s[0], Sort(le, s[1..]))
  }

  lemma {:induction false} InsertKeepsElements<T>(le: (T, T) -> bool, x: T, s: seq<T>)
    ensures multiset(Insert(le, x, s)) == multiset{x} + multiset(s)
    ensures |Insert(le, x, s)| == |s| + 1
  {
    if s == [] || le(x, s[0]) {
    } else {
      InsertKeepsElements(le, x, s[1..]);
      assert s == [s[0]] + s[1..];
    }
  }

  lemma {:induction false} SortKeepsElements<T>(le: (T, T) -> bool, s: seq<T>)
    ensures multiset(Sort(le, s)) == multiset(s)
    ensures |Sort(le, s)| == |s|
  {
    if s != [] {
      SortKeepsElements(le, s[1..]);
      InsertKeepsElements(le, s[0], Sort(le, s[1..]));
      assert s == [s[0]] + s[1..];
    }
  }

  lemma {:induction false} InsertIsSorted<T(!new)>(le: (T, T) -> bool, x: T, s: seq<T>)
    requires TotalPreorder(le) && Sorted(le, s)
    ensures Sorted(le, Insert(le, x, s))
  {
    if s == [] || le(x, s[0]) {
      forall j | 0 <= j < |s| ensures le(x, s[j]) {
        assert le(s[0], s[j]) || j == 0;
      }
    } else {
      var tail := Insert(le, x, s[1..]);
      InsertIsSorted(le, x, s[1..]);
      InsertKeepsElements(le, x, s[1..]);
      forall j | 0 <= j < |tail| ensures le(s[0], tail[j]) {
        assert tail[j] in multiset(tail);
        assert tail[j] == x || tail[j] in s[1..];
      }
    }
  }

  lemma {:induction false} SortIsSorted<T(!new)>(le: (T, T) -> bool, s: seq<T>)
    requires TotalPreorder(le)
    ensures Sorted(le, Sort(le, s))
  {
    if s != [] {
      SortIsSorted(le, s[1..]);
      InsertIsSorted(le, s[0], Sort(le, s[1..]));
    }
  }

  lemma TailElements<T>(s: seq<T>)
    requires s != []
    ensures multiset(s[1..]) == multiset(s) - multiset{s[0]}
  {
    assert s == [s[0]] + s[1..];
  }

  function Without<T>(s: seq<T>, k: nat): seq<T>
    requires k < |s|
  {
    s[..k] + s[k + 1..]
  }

  lemma WithoutElements<T>(s: seq<T>, k: nat)
    requires k < |s|
    ensures multiset(Without(s, k)) == multiset(s) - multiset{s[k]}
  {
    assert s == s[..k] + [s[k]] + s[k + 1..];
  }

  lemma Locate<T>(x: T, s: seq<T>) returns (k: nat)
    requires x in multiset(s)
    ensures k < |s| && s[k] == x
  {
    k :| 0 <= k < |s| && s[k] == x;
  }

  lemma HeadIsLeast<T(!new)>(le: (T, T) -> bool, s: seq<T>, x: T)
    requires TotalPreorder(le) && Sorted(le, s)
    requires x in multiset(s)
    ensures s != [] && le(s[0], x)
  {
    var k := Locate(x, s);
    assert le(s[0], s[0]);
  }

  /** Among the listed, values that compare equal are equal. */
  ghost predicate Separates<T(!new)>(le: (T, T) -> bool, s: seq<T>) {
    forall x, y | x in s && y in s :: le(x, y) && le(y, x) ==> x == y
  }

  /** A sorted arrangement is unique when no two different values compare equal. */
  lemma {:induction false} SortedIsUnique<T(!new)>(le: (T, T) -> bool, s: seq<T>, t: seq<T>)
    requires TotalPreorder(le) && Separates(le, s) && Sorted(le, s) && Sorted(le, t)
    requires multiset(s) == multiset(t)
    ensures s == t
  {
    if s == [] {
      assert |multiset(t)| == 0;
    } else {
      assert s[0] in multiset(s);
      HeadIsLeast(le, t, s[0]);
      assert t[0] in multiset(s);
      HeadIsLeast(le, s, t[0]);
      assert t[0] in s;
      TailElements(s);
      TailElements(t);
      SortedIsUnique(le, s[1..], t[1..]);
      assert s == [s[0]] + s[1..] && t == [t[0]] + t[1..];
    }
  }

  /** How many entries a key places strictly ahead of an entry. */
  function Ahead<T>(better: (T, T) -> bool, s: seq<T>, x: T): nat {
    if s == [] then 0 else (if better(s[0], x) then 1 else 0) + Ahead(better, s[1..], x)
  }

  lemma {:induction false} AheadConcat<T>(better: (T, T) -> bool, s: seq<T>, t: seq<T>, x: T)
    ensures Ahead(better, s + t, x) == Ahead(better, s, x) + Ahead(better, t, x)
  {
    if s == [] {
      assert s + t == t;
    } else {
      assert (s + t)[1..] == s[1..] + t;
      AheadConcat(better, s[1..], t, x);
    }
  }

  lemma AheadWithout<T>(better: (T, T) -> bool, s: seq<T>, k: nat, x: T)
    requires k < |s|
    ensures Ahead(better, s, x) == Ahead(better, Without(s, k), x) + if better(s[k], x) then 1 else 0
  {
    AheadConcat(better, s[..k], s[k..], x);
    AheadConcat(better, s[..k], s[k + 1..], x);
    assert s == s[..k] + s[k..] && s[k..][1..] == s[k + 1..];
  }

  /** The count depends on who is there, not on the order they are listed in. */
  lemma {:induction false} AheadIgnoresOrder<T>(better: (T, T) -> bool, s: seq<T>, t: seq<T>, x: T)
    requires multiset(s) == multiset(t)
    ensures Ahead(better, s, x) == Ahead(better, t, x)
  {
    if s == [] {
      assert |multiset(t)| == 0;
    } else {
      assert s[0] in multiset(t);
      var k := Locate(s[0], t);
      TailElements(s);
      WithoutElements(t, k);
      AheadIgnoresOrder(better, s[1..], Without(t, k), x);
      AheadWithout(better, t, k, x);
    }
  }

  /** In a listing from best to worst, an entry whose predecessor is strictly better has everything before it ahead
      of it; one that ties with its predecessor has as many ahead as its predecessor. */
  lemma {:induction false} AheadAll<T>(better: (T, T) -> bool, s: seq<T>, k: nat, x: T)
    requires k <= |s|
    requires forall i | 0 <= i < k :: better(s[i], x)
    requires forall i | k <= i < |s| :: !better(s[i], x)
    ensures Ahead(better, s, x) == k
  {
    if s != [] {
      AheadAll(better, s[1..], if k > 0 then k - 1 else 0, x);
    }
  }

  // ------------------------------------------------------------ Shared places

  ghost predicate StrictWeak<T(!new)>(better: (T, T) -> bool) {
    && (forall x :: !better(x, x))
    && (forall x, y, z :: better(x, z) ==> better(x, y) || better(y, z))
  }

  ghost predicate BestFirst<T>(better: (T, T) -> bool, s: seq<T>) {
    forall i, j | 0 <= i < j < |s| :: !better(s[j], s[i])
  }

  lemma {:induction false} AheadOfEquals<T>(better: (T, T) -> bool, s: seq<T>, x: T, y: T)
    requires forall z :: z in s ==> (better(z, x) <==> better(z, y))
    ensures Ahead(better, s, x) == Ahead(better, s, y)
  {
    if s != [] {
      AheadOfEquals(better, s[1..], x, y);
    }
  }

  /** Walking a best-first listing, the number ahead is kept while entries tie and is the position otherwise. */
  lemma AheadWhileWalking<T(!new)>(better: (T, T) -> bool, s: seq<T>, i: nat)
    requires StrictWeak(better) && BestFirst(better, s)
    requires i < |s|
    ensures Ahead(better, s, s[i]) == if i > 0 && !better(s[i - 1], s[i]) then Ahead(better, s, s[i - 1]) else i
  {
    if i > 0 && !better(s[i - 1], s[i]) {
      AheadOfEquals(better, s, s[i - 1], s[i]);
    } else {
      forall j | 0 <= j < i ensures better(s[j], s[i]) {
        assert j < i - 1 ==> !better(s[i - 1], s[j]);
      }
      forall j | i <= j < |s| ensures !better(s[j], s[i]) {
      }
      AheadAll(better, s, i, s[i]);
    }
  }

  // ------------------------------------------------------------ Lists without repeats

  predicate NoRepeats<T(==)>(s: seq<T>) {
    forall i, j | 0 <= i < j < |s| :: s[i] != s[j]
  }

  lemma TwiceInside<T>(s: seq<T>, i: nat, j: nat)
    requires i < j < |s| && s[i] == s[j]
    ensures multiset(s)[s[i]] >= 2
  {
    WithoutElements(s, j);
    assert Without(s, j)[i] == s[i];
    assert s[i] in multiset(Without(s, j));
  }

  lemma {:induction false} OnceEach<T>(s: seq<T>, x: T)
    requires NoRepeats(s)
    ensures multiset(s)[x] <= 1
  {
    if s != [] {
      OnceEach(s[1..], x);
      TailElements(s);
      assert x == s[0] ==> x !in s[1..];
    }
  }

  /** Rearranging a list without repeats makes none. */
  lemma RepeatsIgnoreOrder<T>(a: seq<T>, b: seq<T>)
    requires multiset(a) == multiset(b) && NoRepeats(a)
    ensures NoRepeats(b)
  {
    forall i, j | 0 <= i < j < |b| ensures b[i] != b[j] {
      OnceEach(a, b[i]);
      if b[i] == b[j] {
        TwiceInside(b, i, j);
      }
    }
  }

  lemma SameElements<T(!new)>(a: seq<T>, b: seq<T>)
    requires NoRepeats(a) && NoRepeats(b) && forall x :: x in a <==> x in b
    ensures multiset(a) == multiset(b)
  {
    forall x ensures multiset(a)[x] == multiset(b)[x] {
      OnceEach(a, x);
      OnceEach(b, x);
      assert x in a <==> x in multiset(a);
      assert x in b <==> x in multiset(b);
    }
  }

  lemma OneMoreKey(keys: seq<int>, f: int -> bool)
    requires NoRepeats(keys) && keys != []
    ensures |set u | u in keys && f(u)| == |set u | u in keys[1..] && f(u)| + if f(keys[0]) then 1 else 0
  {
    var all, rest := set u | u in keys && f(u), set u | u in keys[1..] && f(u);
    assert keys == [keys[0]] + keys[1..];
    assert keys[0] !in rest;
    assert all == if f(keys[0]) then rest + {keys[0]} else rest;
  }

  /** What is ahead in a list of records, one for each key, counted over the keys. */
  lemma {:induction false} CountOfKeys<T>(keys: seq<int>, f: int -> bool, listed: seq<T>, better: (T, T) -> bool, x: T)
    requires NoRepeats(keys) && |listed| == |keys|
    requires forall i | 0 <= i < |keys| :: better(listed[i], x) == f(keys[i])
    ensures Ahead(better, listed, x) == |set u | u in keys && f(u)|
  {
    if keys == [] {
      assert (set u | u in keys && f(u)) == {};
    } else {
      CountOfKeys(keys[1..], f, listed[1..], better, x);
      OneMoreKey(keys, f);
    }
  }

  // ------------------------------------------------------------------ Strings

  /** Code-point order on strings. */
  predicate StringLe(a: string, b: string) {
    a == "" || (b != "" && (a[0] < b[0] || (a[0] == b[0] && StringLe(a[1..], b[1..]))))
  }

  lemma {:induction false} StringLeTotal(a: string, b: string)
    ensures StringLe(a, b) || StringLe(b, a)
    ensures StringLe(a, b) && StringLe(b, a) ==> a == b
  {
    if a != "" && b != "" {
      StringLeTotal(a[1..], b[1..]);
      if a[0] == b[0] && a[1..] == b[1..] {
        assert a == [a[0]] + a[1..] && b == [b[0]] + b[1..];
      }
    }
  }

  lemma {:induction false} StringLeTransitive(a: string, b: string, c: string)
    requires StringLe(a, b) && StringLe(b, c)
    ensures StringLe(a, c)
  {
    if a != "" && a[0] == b[0] == c[0] {
      StringLeTransitive(a[1..], b[1..], c[1..]);
    }
  }
}
