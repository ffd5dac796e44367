/** Picking the wanted entries of a list, in order. */
module Selection {

  predicate Increasing(ps: seq<nat>) {
    forall i, j | 0 <= i < j < |ps| :: ps[i] < ps[j]
  }

  /** Positions in increasing order, exactly those of the wanted entries, and what stands there. */
  ghost predicate PicksAt<T(!new)>(all: seq<T>, wanted: T -> bool, picked: seq<T>, ps: seq<nat>) {
    && |ps| == |picked| && Increasing(ps)
    && (forall k | 0 <= k < |ps| :: ps[k] < |all| && picked[k] == all[ps[k]])
    && (forall p | 0 <= p < |all| :: p in ps <==> wanted(all[p]))
  }

  ghost predicate Picks<T(!new)>(all: seq<T>, wanted: T -> bool, picked: seq<T>) {
    exists ps :: PicksAt(all, wanted, picked, ps)
  }

  lemma PicksNothing<T(!new)>(wanted: T -> bool)
    ensures Picks([], wanted, [])
  {
    assert PicksAt([], wanted, [], []);
  }

  lemma OneMorePosition(ps: seq<nat>, n: nat)
    requires Increasing(ps) && forall k | 0 <= k < |ps| :: ps[k] < n
    ensures Increasing(ps + [n])
    ensures forall p :: p in ps + [n] <==> p in ps || p == n
  {
  }

  /** One more entry is picked last, or not at all. */
  lemma PicksOneMore<T(!new)>(all: seq<T>, x: T, wanted: T -> bool, picked: seq<T>)
    requires Picks(all, wanted, picked)
    ensures Picks(all + [x], wanted, if wanted(x) then picked + [x] else picked)
  {
    hide Increasing;
    var ps :| PicksAt(all, wanted, picked, ps);
    OneMorePosition(ps, |all|);
    if wanted(x) {
      PickedLast(all, x, wanted, picked, ps);
    } else {
      PassedOver(all, x, wanted, picked, ps);
    }
  }

  lemma PickedLast<T(!new)>(all: seq<T>, x: T, wanted: T -> bool, picked: seq<T>, ps: seq<nat>)
    requires PicksAt(all, wanted, picked, ps) && wanted(x)
    ensures PicksAt(all + [x], wanted, picked + [x], ps + [|all|])
  {
    hide Increasing;
    OneMorePosition(ps, |all|);
    forall p | 0 <= p < |all + [x]| ensures p in ps + [|all|] <==> wanted((all + [x])[p]) {
      assert p < |all| ==> (p in ps <==> wanted(all[p]));
    }
  }

  lemma PassedOver<T(!new)>(all: seq<T>, x: T, wanted: T -> bool, picked: seq<T>, ps: seq<nat>)
    requires PicksAt(all, wanted, picked, ps) && !wanted(x)
    ensures PicksAt(all + [x], wanted, picked, ps)
  {
    hide Increasing;
    forall p | 0 <= p < |all + [x]| ensures p in ps <==> wanted((all + [x])[p]) {
      assert p < |all| ==> (p in ps <==> wanted(all[p]));
      assert p == |all| ==> p !in ps;
    }
  }

  function Through(ps: seq<nat>, qs: seq<nat>): (rs: seq<nat>)
    requires forall k | 0 <= k < |qs| :: qs[k] < |ps|
    ensures |rs| == |qs| && forall k | 0 <= k < |qs| :: rs[k] == ps[qs[k]]
  {
    seq(|qs|, k requires 0 <= k < |qs| => ps[qs[k]])
  }

  lemma ThroughPositions(ps: seq<nat>, qs: seq<nat>, i: nat)
    requires Increasing(ps) && Increasing(qs) && i < |ps|
    requires forall k | 0 <= k < |qs| :: qs[k] < |ps|
    ensures Increasing(Through(ps, qs))
    ensures ps[i] in Through(ps, qs) <==> i in qs
  {
    var rs := Through(ps, qs);
    if i in qs {
      var k :| 0 <= k < |qs| && qs[k] == i;
      assert rs[k] == ps[i];
    }
    if ps[i] in rs {
      var k :| 0 <= k < |rs| && rs[k] == ps[i];
      assert qs[k] == i;
    }
  }

  lemma PickedThrough<T(!new)>(all: seq<T>, first: T -> bool, some: seq<T>, second: T -> bool, few: seq<T>,
                               both: T -> bool, ps: seq<nat>, qs: seq<nat>, p: nat)
    requires PicksAt(all, first, some, ps) && PicksAt(some, second, few, qs) && p < |all|
    requires forall x :: both(x) <==> first(x) && second(x)
    ensures p in Through(ps, qs) <==> both(all[p])
  {
    hide Increasing;
    if p in ps {
      var i :| 0 <= i < |ps| && ps[i] == p;
      ThroughPositions(ps, qs, i);
      assert i in qs <==> second(some[i]);
    }
  }

  /** Picking from what was picked is picking what is wanted by both. */
  lemma PicksTwice<T(!new)>(all: seq<T>, first: T -> bool, some: seq<T>, second: T -> bool, few: seq<T>,
                            both: T -> bool)
    requires Picks(all, first, some) && Picks(some, second, few)
    requires forall x :: both(x) <==> first(x) && second(x)
    ensures Picks(all, both, few)
  {
    hide PicksAt;
    var ps :| PicksAt(all, first, some, ps);
    var qs :| PicksAt(some, second, few, qs);
    PicksThrough(all, first, some, second, few, both, ps, qs);
  }

  lemma PicksThrough<T(!new)>(all: seq<T>, first: T -> bool, some: seq<T>, second: T -> bool, few: seq<T>,
                              both: T -> bool, ps: seq<nat>, qs: seq<nat>)
    requires PicksAt(all, first, some, ps) && PicksAt(some, second, few, qs)
    requires forall x :: both(x) <==> first(x) && second(x)
    ensures forall k | 0 <= k < |qs| :: qs[k] < |ps|
    ensures PicksAt(all, both, few, Through(ps, qs))
  {
    hide Increasing;
    var rs := Through(ps, qs);
    forall p | 0 <= p < |all| ensures p in rs <==> both(all[p]) {
      PickedThrough(all, first, some, second, few, both, ps, qs, p);
    }
    ThroughIncreases(ps, qs);
  }

  lemma ThroughIncreases(ps: seq<nat>, qs: seq<nat>)
    requires Increasing(ps) && Increasing(qs) && forall k | 0 <= k < |qs| :: qs[k] < |ps|
    ensures Increasing(Through(ps, qs))
  {
  }

  lemma SameWish<T(!new)>(all: seq<T>, first: T -> bool, second: T -> bool, picked: seq<T>)
    requires Picks(all, first, picked) && forall x | x in all :: first(x) <==> second(x)
    ensures Picks(all, second, picked)
  {
    var ps :| PicksAt(all, first, picked, ps);
    assert PicksAt(all, second, picked, ps);
  }

  /** What is picked is wanted, and what is wanted is picked. */
  lemma PickedAreWanted<T(!new)>(all: seq<T>, wanted: T -> bool, picked: seq<T>)
    requires Picks(all, wanted, picked)
    ensures forall x :: x in picked <==> x in all && wanted(x)
  {
    var ps :| PicksAt(all, wanted, picked, ps);
    forall x ensures x in picked <==> x in all && wanted(x) {
      if x in picked {
        var k :| 0 <= k < |picked| && picked[k] == x;
        assert ps[k] in ps;
      }
      if x in all && wanted(x) {
        var p :| 0 <= p < |all| && all[p] == x;
        var k :| 0 <= k < |ps| && ps[k] == p;
        assert picked[k] == x;
      }
    }
  }

  function Positions(ps: seq<nat>): set<nat> {
    set p | p in ps
  }

  lemma LastPosition(ps: seq<nat>)
    requires Increasing(ps) && ps != []
    ensures ps[|ps| - 1] in Positions(ps) && forall p | p in Positions(ps) :: p <= ps[|ps| - 1]
    ensures Increasing(ps[..|ps| - 1])
    ensures Positions(ps[..|ps| - 1]) == Positions(ps) - {ps[|ps| - 1]}
  {
    assert ps == ps[..|ps| - 1] + [ps[|ps| - 1]];
  }

  lemma NoPositions(ps: seq<nat>)
    ensures Positions(ps) == {} <==> ps == []
  {
    assert ps != [] ==> ps[0] in Positions(ps);
  }

  lemma {:induction false} SamePositions(ps: seq<nat>, qs: seq<nat>)
    requires Increasing(ps) && Increasing(qs) && Positions(ps) == Positions(qs)
    ensures ps == qs
  {
    hide Increasing;
    NoPositions(ps);
    NoPositions(qs);
    if ps != [] {
      hide Positions;
      LastPosition(ps);
      LastPosition(qs);
      SamePositions(ps[..|ps| - 1], qs[..|qs| - 1]);
      assert ps == ps[..|ps| - 1] + [ps[|ps| - 1]];
      assert qs == qs[..|qs| - 1] + [qs[|qs| - 1]];
    }
  }

  lemma PositionsInRange<T(!new)>(all: seq<T>, wanted: T -> bool, picked: seq<T>, ps: seq<nat>, p: nat)
    requires PicksAt(all, wanted, picked, ps)
    ensures p in ps <==> p < |all| && wanted(all[p])
  {
    hide Increasing;
    if p in ps {
      var k :| 0 <= k < |ps| && ps[k] == p;
    }
  }

  /** There is one way to do it. */
  lemma PicksAreUnique<T(!new)>(all: seq<T>, wanted: T -> bool, a: seq<T>, b: seq<T>)
    requires Picks(all, wanted, a) && Picks(all, wanted, b)
    ensures a == b
  {
    hide Increasing;
    var ps :| PicksAt(all, wanted, a, ps);
    var qs :| PicksAt(all, wanted, b, qs);
    forall p: nat ensures p in Positions(ps) <==> p in Positions(qs) {
      PositionsInRange(all, wanted, a, ps, p);
      PositionsInRange(all, wanted, b, qs, p);
    }
    SamePositions(ps, qs);
  }
}
