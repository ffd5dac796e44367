/** The sliding-window rate limiter: a pruned deque per key, against the full history of hits. */
module RateLimiting {

  /** What one key's deque keeps once every entry at or before the cutoff has been popped. */
  function Pruned(hits: seq<real>, cutoff: real): seq<real> {
    if hits != [] && hits[0] <= cutoff then Pruned(hits[1..], cutoff) else hits
  }

  /** The deques; a key without an entry has never hit, or has nothing left. */
  type Table = map<string, seq<real>>

  function At(table: Table, key: string): seq<real> {
    if key in table then table[key] else []
  }

  function Put(table: Table, key: string, hits: seq<real>): Table {
    if hits == [] then table - {key} else table[key := hits]
  }

  // --------------------------------------------------------- The full history

  predicate Nondecreasing(times: seq<real>) {
    forall i, j | 0 <= i < j < |times| :: times[i] <= times[j]
  }

  /** How many recorded hits lie in the window that ends at an instant: after it opened, up to now. */
  function InWindow(log: seq<real>, window: real, now: real): nat {
    if log == [] then 0
    else InWindow(log[..|log| - 1], window, now) + if now - window < log[|log| - 1] <= now then 1 else 0
  }

  function Recent(log: seq<real>, window: real, now: real): set<nat> {
    set i: nat | i < |log| && log[i] > now - window && log[i] <= now
  }

  /** The hits counted are those that are not in the future and less than a whole window old. */
  lemma {:induction false} RecentAreCounted(log: seq<real>, window: real, now: real)
    ensures InWindow(log, window, now) == |Recent(log, window, now)|
  {
    if log != [] {
      var n := |log| - 1;
      var most, all := Recent(log[..n], window, now), Recent(log, window, now);
      RecentAreCounted(log[..n], window, now);
      var counts := now - window < log[n] <= now;
      forall i: nat ensures i in all <==> i in most || (i == n && counts) {
        if i < n {
          assert log[..n][i] == log[i];
        }
      }
      assert n !in most && all == if counts then most + {n} else most;
    }
  }

  /** A single hit shuts a limit of one for exactly the window: open again at the very instant it is a window old. */
  lemma OneHitShutsForTheWindow(hit: real, window: real, now: real)
    requires hit <= now && window > 0.0
    ensures Wait(Pruned([hit], now - window), 1, window, now) == if now < hit + window then hit + window - now else 0.0
  {
    assert [hit][1..] == [];
  }

  predicate AllAfter(hits: seq<real>, cutoff: real) {
    forall i | 0 <= i < |hits| :: hits[i] > cutoff
  }

  /** The deque is the end of the history, and everything popped has already left the window. */
  ghost predicate Refines(hits: seq<real>, log: seq<real>, window: real, clock: real) {
    && |hits| <= |log|
    && hits == log[|log| - |hits|..]
    && Nondecreasing(log)
    && (forall i | 0 <= i < |log| :: log[i] <= clock)
    && (forall i | 0 <= i < |log| - |hits| :: log[i] <= clock - window)
  }

  lemma {:induction false} PrunedRefines(hits: seq<real>, log: seq<real>, window: real, clock: real, now: real)
    requires Refines(hits, log, window, clock)
    requires clock <= now
    ensures Refines(Pruned(hits, now - window), log, window, now)
    ensures AllAfter(Pruned(hits, now - window), now - window)
  {
    if hits != [] && hits[0] <= now - window {
      assert hits[1..] == log[|log| - |hits[1..]|..];
      assert log[|log| - |hits|] == hits[0];
      PrunedRefines(hits[1..], log, window, now, now);
    } else if hits != [] {
      assert forall i | 0 <= i < |hits| :: hits[i] == log[|log| - |hits| + i];
    }
  }

  /** Counting the window of a sorted history: all of it but a prefix that has expired. */
  lemma {:induction false} WindowIsSuffix(log: seq<real>, window: real, now: real, from: nat)
    requires from <= |log|
    requires forall i | 0 <= i < |log| :: log[i] <= now
    requires forall i | 0 <= i < from :: log[i] <= now - window
    requires forall i | from <= i < |log| :: now - window < log[i]
    ensures InWindow(log, window, now) == |log| - from
  {
    if log != [] {
      WindowIsSuffix(log[..|log| - 1], window, now, if from == |log| then from - 1 else from);
    }
  }

  /** After a prune the deque holds exactly the hits that are in the window. */
  lemma PrunedCountsWindow(hits: seq<real>, log: seq<real>, window: real, clock: real, now: real)
    requires Refines(hits, log, window, clock)
    requires clock <= now
    ensures |Pruned(hits, now - window)| == InWindow(log, window, now)
  {
    PrunedRefines(hits, log, window, clock, now);
    var live := Pruned(hits, now - window);
    assert forall i | |log| - |live| <= i < |log| :: log[i] == live[i - (|log| - |live|)];
    WindowIsSuffix(log, window, now, |log| - |live|);
  }

  // ---------------------------------------------------------- The wait answer

  /** What `check` answers for a pruned deque. */
  function Wait(live: seq<real>, limit: int, window: real, now: real): real
    requires limit >= 1
  {
    if |live| < limit then 0.0
    else if live[0] + window - now > 0.0 then live[0] + window - now else 0.0
  }

  /** With no further hit, the key is let in again exactly from the moment its limit-th newest hit expires. */
  lemma FreeAgainAt(live: seq<real>, log: seq<real>, limit: int, window: real, now: real, later: real)
    requires Refines(live, log, window, now)
    requires 1 <= limit <= |live|
    requires AllAfter(live, now - window)
    requires now <= later
    ensures InWindow(log, window, later) < limit <==> live[|live| - limit] + window <= later
  {
    PrunedCountsWindow(live, log, window, now, later);
    PrunedLength(live, later - window, |live| - limit);
  }

  lemma {:induction false} PrunedLength(hits: seq<real>, cutoff: real, k: nat)
    requires Nondecreasing(hits)
    requires k < |hits|
    ensures |Pruned(hits, cutoff)| < |hits| - k <==> hits[k] <= cutoff
    ensures |Pruned(hits, cutoff)| <= |hits|
    decreases |hits|
  {
    if hits[0] <= cutoff {
      if k > 0 {
        PrunedLength(hits[1..], cutoff, k - 1);
      } else if |hits| > 1 {
        PrunedLength(hits[1..], cutoff, 0);
      }
    }
  }

  /** A positive answer names the earliest instant the key is free exactly when no hit expires between the oldest
      one and the one that brings the count under the limit; a deque no longer than the limit is the usual case. */
  lemma WaitIsEarliestExactlyWhen(live: seq<real>, log: seq<real>, limit: int, window: real, now: real)
    requires Refines(live, log, window, now)
    requires 1 <= limit <= |live|
    requires AllAfter(live, now - window)
    ensures Wait(live, limit, window, now) > 0.0
    ensures (forall later | now <= later ::
      InWindow(log, window, later) < limit <==> now + Wait(live, limit, window, now) <= later)
      <==> live[0] == live[|live| - limit]
    ensures |live| == limit ==> live[0] == live[|live| - limit]
  {
    var wait := Wait(live, limit, window, now);
    forall later | now <= later
      ensures InWindow(log, window, later) < limit <==> live[|live| - limit] + window <= later
    {
      FreeAgainAt(live, log, limit, window, now, later);
    }
    assert live == log[|log| - |live|..];
    if live[0] != live[|live| - limit] {
      assert live[0] < live[|live| - limit];
      assert !(InWindow(log, window, now + wait) < limit);
    }
  }

  /** A zero answer says exactly that the window has room. */
  lemma ZeroMeansRoom(hits: seq<real>, log: seq<real>, limit: int, window: real, clock: real, now: real)
    requires limit >= 1
    requires Refines(hits, log, window, clock) && clock <= now
    ensures Wait(Pruned(hits, now - window), limit, window, now) == 0.0 <==> InWindow(log, window, now) < limit
  {
    PrunedRefines(hits, log, window, clock, now);
    PrunedCountsWindow(hits, log, window, clock, now);
  }

  // --------------------------------------------------------- The whole table

  datatype Call = Check(key: string, at: real) | Hit(key: string, at: real) | Reset(key: string)

  /** The deques and the clock, beside the history they stand for. */
  datatype State = State(table: Table, log: Table, clock: real)

  function After(s: State, call: Call, window: real): State {
    match call
    case Check(key, now) =>
      s.(table := Put(s.table, key, Pruned(At(s.table, key), now - window)), clock := now)
    case Hit(key, now) =>
      s.(table := s.table[key := Pruned(At(s.table, key), now - window) + [now]],
         log := s.log[key := At(s.log, key) + [now]], clock := now)
    case Reset(key) =>
      s.(table := s.table - {key}, log := s.log - {key})
  }

  predicate OnTime(s: State, call: Call) {
    call.Reset? || s.clock <= call.at
  }

  ghost predicate KeySound(s: State, key: string, window: real) {
    Refines(At(s.table, key), At(s.log, key), window, s.clock)
  }

  /** Every deque refines its history, and no key keeps an entry for an empty deque. */
  ghost predicate Sound(s: State, window: real) {
    && (forall key :: KeySound(s, key, window))
    && (forall key | key in s.table :: s.table[key] != [])
  }

  lemma ClockAdvances(hits: seq<real>, log: seq<real>, window: real, clock: real, now: real)
    requires Refines(hits, log, window, clock) && clock <= now
    ensures Refines(hits, log, window, now)
  {
  }

  /** What a call leaves under its own key. */
  function OwnHits(hits: seq<real>, call: Call, window: real): seq<real> {
    match call
    case Check(_, now) => Pruned(hits, now - window)
    case Hit(_, now) => Pruned(hits, now - window) + [now]
    case Reset(_) => []
  }

  function OwnLog(log: seq<real>, call: Call): seq<real> {
    match call
    case Check(_, _) => log
    case Hit(_, now) => log + [now]
    case Reset(_) => []
  }

  lemma KeyAfter(s: State, call: Call, window: real, key: string)
    ensures
      var t := After(s, call, window);
      && At(t.table, key) == (if key == call.key then OwnHits(At(s.table, key), call, window) else At(s.table, key))
      && At(t.log, key) == (if key == call.key then OwnLog(At(s.log, key), call) else At(s.log, key))
  {
  }

  lemma NothingRefinesNothing(window: real, clock: real)
    ensures Refines([], [], window, clock)
  {
  }

  lemma OwnKeyRefines(hits: seq<real>, log: seq<real>, call: Call, window: real, clock: real)
    requires window >= 0.0
    requires Refines(hits, log, window, clock)
    requires call.Reset? || clock <= call.at
    ensures Refines(OwnHits(hits, call, window), OwnLog(log, call), window, if call.Reset? then clock else call.at)
  {
    hide Refines, Pruned;
    if call.Reset? {
      NothingRefinesNothing(window, clock);
    } else {
      PrunedRefines(hits, log, window, clock, call.at);
      HitRefines(Pruned(hits, call.at - window), log, window, call.at);
    }
  }

  lemma KeyStaysSound(s: State, call: Call, window: real, key: string)
    requires window >= 0.0
    requires KeySound(s, key, window) && OnTime(s, call)
    ensures KeySound(After(s, call, window), key, window)
  {
    KeyAfter(s, call, window, key);
    if key == call.key {
      OwnKeyRefines(At(s.table, key), At(s.log, key), call, window, s.clock);
    } else if !call.Reset? {
      ClockAdvances(At(s.table, key), At(s.log, key), window, s.clock, call.at);
    }
  }

  lemma HitRefines(live: seq<real>, log: seq<real>, window: real, now: real)
    requires Refines(live, log, window, now)
    ensures Refines(live + [now], log + [now], window, now)
  {
    assert live + [now] == (log + [now])[|log| - |live|..];
  }

  lemma SoundIsKept(s: State, call: Call, window: real)
    requires window >= 0.0
    requires Sound(s, window) && OnTime(s, call)
    ensures Sound(After(s, call, window), window)
  {
    forall key
      ensures KeySound(After(s, call, window), key, window)
    {
      KeyStaysSound(s, call, window, key);
    }
  }

  ghost predicate AllOnTime(s: State, calls: seq<Call>, window: real)
    decreases |calls|
  {
    calls == [] || (OnTime(s, calls[0]) && AllOnTime(After(s, calls[0], window), calls[1..], window))
  }

  function Run(s: State, calls: seq<Call>, window: real): State
    decreases |calls|
  {
    if calls == [] then s else Run(After(s, calls[0], window), calls[1..], window)
  }

  const EMPTY := State(map[], map[], 0.0)

  /** Over any run on a clock that never goes back, the deques refine the full history. */
  lemma {:induction false} RunIsSound(s: State, calls: seq<Call>, window: real)
    requires window >= 0.0
    requires Sound(s, window) && AllOnTime(s, calls, window)
    ensures Sound(Run(s, calls, window), window)
    decreases |calls|
  {
    if calls != [] {
      SoundIsKept(s, calls[0], window);
      RunIsSound(After(s, calls[0], window), calls[1..], window);
    }
  }

  // ------------------------------------------------------ The history, read off the calls

  lemma {:induction false} RunOneMore(s: State, calls: seq<Call>, call: Call, window: real)
    ensures Run(s, calls + [call], window) == After(Run(s, calls, window), call, window)
    decreases |calls|
  {
    hide After;
    if calls == [] {
      assert [] + [call] == [call] && [call][1..] == [];
      assert Run(After(s, call, window), [], window) == After(s, call, window);
    } else {
      assert (calls + [call])[1..] == calls[1..] + [call];
      RunOneMore(After(s, calls[0], window), calls[1..], call, window);
    }
  }

  predicate InLast(window: real, at: real, now: real) {
    now - window < at <= now
  }

  /** A hit of the key, less than a window old, that no later reset has forgotten. */
  predicate Counts(calls: seq<Call>, i: nat, key: string, window: real, now: real) {
    && i < |calls| && calls[i].Hit? && calls[i].key == key && InLast(window, calls[i].at, now)
    && forall j | i < j < |calls| :: calls[j] != Reset(key)
  }

  function Live(calls: seq<Call>, key: string, window: real, now: real): set<nat> {
    set i: nat | i < |calls| && Counts(calls, i, key, window, now)
  }

  lemma LiveOneMore(calls: seq<Call>, call: Call, key: string, window: real, now: real)
    ensures
      var more, live := Live(calls + [call], key, window, now), Live(calls, key, window, now);
      && (call == Reset(key) ==> more == {})
      && (call.Hit? && call.key == key && InLast(window, call.at, now) ==> more == live + {|calls|})
      && (call != Reset(key) && !(call.Hit? && call.key == key && InLast(window, call.at, now)) ==> more == live)
  {
    hide InLast;
    var all := calls + [call];
    assert all[|calls|] == call;
    forall i: nat | i < |calls|
      ensures Counts(all, i, key, window, now) <==> Counts(calls, i, key, window, now) && call != Reset(key)
    {
      assert all[i] == calls[i];
      if Counts(all, i, key, window, now) {
        forall j | i < j < |calls| ensures calls[j] != Reset(key) {
          assert all[j] == calls[j];
        }
      }
    }
  }

  lemma LogOneMore(log: seq<real>, at: real, window: real, now: real)
    ensures InWindow(log + [at], window, now) == InWindow(log, window, now) + if InLast(window, at, now) then 1 else 0
    ensures InWindow([], window, now) == 0
  {
    assert (log + [at])[..|log|] == log;
  }

  /** After any calls the history under a key holds in the window exactly the hits that were made in it. */
  lemma {:induction false} HistoryIsTheHits(calls: seq<Call>, key: string, window: real, now: real)
    ensures InWindow(At(Run(EMPTY, calls, window).log, key), window, now) == |Live(calls, key, window, now)|
  {
    hide InWindow, Run, After, Live, InLast;
    if calls == [] {
      NothingHit(key, window, now);
    } else {
      var init, call := calls[..|calls| - 1], calls[|calls| - 1];
      HistoryIsTheHits(init, key, window, now);
      assert calls == init + [call];
      RunOneMore(EMPTY, init, call, window);
      LiveOneMore(init, call, key, window, now);
      NotLiveYet(init, key, window, now);
      var s := Run(EMPTY, init, window);
      KeyAfter(s, call, window, key);
      if call.key == key {
        LogOneMore(At(s.log, key), if call.Hit? then call.at else 0.0, window, now);
      }
    }
  }

  lemma NothingHit(key: string, window: real, now: real)
    ensures InWindow(At(Run(EMPTY, [], window).log, key), window, now) == 0 && Live([], key, window, now) == {}
  {
  }

  lemma NotLiveYet(calls: seq<Call>, key: string, window: real, now: real)
    ensures |calls| !in Live(calls, key, window, now)
  {
  }

  /** So after any run, a check at any instant not before the clock answers zero exactly when fewer than `limit` of the
      hits made since the last reset, each counted by its call, lie in the window that ends then. */
  lemma CheckCountsTheHistory(calls: seq<Call>, key: string, limit: int, window: real, now: real)
    requires limit >= 1 && window >= 0.0
    requires AllOnTime(EMPTY, calls, window)
    requires Run(EMPTY, calls, window).clock <= now
    ensures
      var s := Run(EMPTY, calls, window);
      var live := Pruned(At(s.table, key), now - window);
      && (Wait(live, limit, window, now) == 0.0 <==> InWindow(At(s.log, key), window, now) < limit)
      && (Wait(live, limit, window, now) == 0.0 <==> |Live(calls, key, window, now)| < limit)
  {
    hide Live;
    var s := Run(EMPTY, calls, window);
    RunIsSound(EMPTY, calls, window);
    assert KeySound(s, key, window);
    ZeroMeansRoom(At(s.table, key), At(s.log, key), limit, window, s.clock, now);
    HistoryIsTheHits(calls, key, window, now);
  }

  // --------------------------------------------- Callers who check, then hit

  /** Every hit of the run lands when a check at that instant would have answered zero. */
  ghost predicate Disciplined(s: State, calls: seq<Call>, limit: int, window: real)
    decreases |calls|
  {
    calls == [] || (
      && (calls[0].Hit? ==> InWindow(At(s.log, calls[0].key), window, calls[0].at) < limit)
      && Disciplined(After(s, calls[0], window), calls[1..], limit, window))
  }

  ghost predicate WithinLimit(log: seq<real>, limit: int, window: real) {
    forall t: real :: InWindow(log, window, t) <= limit
  }

  lemma {:induction false} LaterWindowHoldsNoMore(log: seq<real>, window: real, now: real, later: real)
    requires now <= later
    requires forall i | 0 <= i < |log| :: log[i] <= now
    ensures InWindow(log, window, later) <= InWindow(log, window, now)
  {
    if log != [] {
      LaterWindowHoldsNoMore(log[..|log| - 1], window, now, later);
    }
  }

  lemma OneMoreHit(log: seq<real>, limit: int, window: real, now: real)
    requires WithinLimit(log, limit, window)
    requires InWindow(log, window, now) < limit
    requires forall i | 0 <= i < |log| :: log[i] <= now
    ensures WithinLimit(log + [now], limit, window)
  {
    forall t: real
      ensures InWindow(log + [now], window, t) <= limit
    {
      assert (log + [now])[..|log|] == log;
      if now <= t {
        LaterWindowHoldsNoMore(log, window, now, t);
      } else {
        assert InWindow(log, window, t) <= limit;
      }
    }
  }

  /** Then no window, wherever it is placed, ever holds more than `limit` hits of one key. */
  lemma {:induction false} DisciplinedStaysWithinLimit(s: State, calls: seq<Call>, limit: int, window: real)
    requires limit >= 1 && window >= 0.0
    requires Sound(s, window) && AllOnTime(s, calls, window)
    requires Disciplined(s, calls, limit, window)
    requires forall key :: WithinLimit(At(s.log, key), limit, window)
    ensures forall key :: WithinLimit(At(Run(s, calls, window).log, key), limit, window)
    decreases |calls|
  {
    if calls != [] {
      var t := After(s, calls[0], window);
      SoundIsKept(s, calls[0], window);
      forall key
        ensures WithinLimit(At(t.log, key), limit, window)
      {
        assert WithinLimit(At(s.log, key), limit, window);
        assert KeySound(s, key, window);
        if calls[0].Hit? && calls[0].key == key {
          OneMoreHit(At(s.log, key), limit, window, calls[0].at);
        }
      }
      DisciplinedStaysWithinLimit(t, calls[1..], limit, window);
    }
  }

  ghost predicate AllWithinLimit(s: State, limit: int, window: real) {
    forall key :: WithinLimit(At(s.log, key), limit, window)
  }

  ghost predicate AlwaysWithinLimit(s: State, calls: seq<Call>, limit: int, window: real)
    decreases |calls|
  {
    && AllWithinLimit(s, limit, window)
    && (calls != [] ==> AlwaysWithinLimit(After(s, calls[0], window), calls[1..], limit, window))
  }

  /** A hit without room is seen at once: the window that ends with it holds too many. */
  lemma UndisciplinedHitOverruns(log: seq<real>, limit: int, window: real, now: real)
    requires window > 0.0 && InWindow(log, window, now) >= limit
    ensures InWindow(log + [now], window, now) > limit
    ensures !WithinLimit(log + [now], limit, window)
  {
    assert (log + [now])[..|log|] == log;
  }

  lemma OneCallWithinLimit(s: State, call: Call, limit: int, window: real)
    requires limit >= 1 && window > 0.0
    requires Sound(s, window) && OnTime(s, call) && AllWithinLimit(s, limit, window)
    ensures
      (call.Hit? ==> InWindow(At(s.log, call.key), window, call.at) < limit) <==>
      AllWithinLimit(After(s, call, window), limit, window)
  {
    hide Refines, InWindow, WithinLimit;
    var t := After(s, call, window);
    if call.Hit? && InWindow(At(s.log, call.key), window, call.at) >= limit {
      UndisciplinedHitOverruns(At(s.log, call.key), limit, window, call.at);
      KeyAfter(s, call, window, call.key);
      assert !WithinLimit(At(t.log, call.key), limit, window);
    } else {
      forall key
        ensures WithinLimit(At(t.log, key), limit, window)
      {
        KeyAfter(s, call, window, key);
        assert WithinLimit(At(s.log, key), limit, window);
        if call.key == key {
          if call.Hit? {
            assert KeySound(s, key, window);
            NotAfterTheClock(s, key, window);
            OneMoreHit(At(s.log, key), limit, window, call.at);
          } else {
            NothingIsWithin(limit, window);
          }
        }
      }
    }
  }

  lemma NotAfterTheClock(s: State, key: string, window: real)
    requires KeySound(s, key, window)
    ensures forall i | 0 <= i < |At(s.log, key)| :: At(s.log, key)[i] <= s.clock
  {
  }

  lemma NothingIsWithin(limit: int, window: real)
    requires limit >= 1
    ensures WithinLimit([], limit, window)
  {
  }

  /** The discipline is exactly what keeps the limit: a run stays within it at every step if and only if each of its
      hits lands when a check would have answered zero. */
  lemma {:induction false} DisciplinedExactlyWhen(s: State, calls: seq<Call>, limit: int, window: real)
    requires limit >= 1 && window > 0.0
    requires Sound(s, window) && AllOnTime(s, calls, window) && AllWithinLimit(s, limit, window)
    ensures Disciplined(s, calls, limit, window) <==> AlwaysWithinLimit(s, calls, limit, window)
    decreases |calls|
  {
    hide Sound, AllWithinLimit, After;
    if calls != [] {
      OneCallWithinLimit(s, calls[0], limit, window);
      SoundIsKept(s, calls[0], window);
      if AllWithinLimit(After(s, calls[0], window), limit, window) {
        DisciplinedExactlyWhen(After(s, calls[0], window), calls[1..], limit, window);
      }
    }
  }

  /** A caller among disciplined callers can trust the wait: a positive answer is the earliest instant, with no
      further hit, at which the key is let in again. */
  lemma DisciplinedWaitIsEarliest(calls: seq<Call>, key: string, limit: int, window: real, now: real)
    requires limit >= 1 && window >= 0.0
    requires AllOnTime(EMPTY, calls, window) && Disciplined(EMPTY, calls, limit, window)
    requires Run(EMPTY, calls, window).clock <= now
    ensures
      var s := Run(EMPTY, calls, window);
      var wait := Wait(Pruned(At(s.table, key), now - window), limit, window, now);
      wait > 0.0 ==> forall later | now <= later ::
        InWindow(At(s.log, key), window, later) < limit <==> now + wait <= later
  {
    hide Sound, KeySound, InWindow, Disciplined, AllOnTime, Run, Pruned, Wait, WithinLimit, EMPTY;
    var s := Run(EMPTY, calls, window);
    NobodyYet(limit, window);
    RunIsSound(EMPTY, calls, window);
    DisciplinedStaysWithinLimit(EMPTY, calls, limit, window);
    BoundedWaitIsEarliest(s, key, limit, window, now);
  }

  lemma BoundedWaitIsEarliest(s: State, key: string, limit: int, window: real, now: real)
    requires limit >= 1 && window >= 0.0 && Sound(s, window) && s.clock <= now
    requires WithinLimit(At(s.log, key), limit, window)
    ensures
      var wait := Wait(Pruned(At(s.table, key), now - window), limit, window, now);
      wait > 0.0 ==> forall later | now <= later ::
        InWindow(At(s.log, key), window, later) < limit <==> now + wait <= later
  {
    hide Sound, Refines, InWindow, Pruned;
    KeyOfSound(s, key, window);
    var hits, log := At(s.table, key), At(s.log, key);
    var live := Pruned(hits, now - window);
    PrunedRefines(hits, log, window, s.clock, now);
    PrunedCountsWindow(hits, log, window, s.clock, now);
    assert InWindow(log, window, now) <= limit;
    if Wait(live, limit, window, now) > 0.0 {
      assert |live| == limit;
      WaitIsEarliestExactlyWhen(live, log, limit, window, now);
    }
  }

  lemma NobodyYet(limit: int, window: real)
    requires limit >= 1
    ensures Sound(EMPTY, window) && forall key :: WithinLimit(At(EMPTY.log, key), limit, window)
  {
  }

  lemma KeyOfSound(s: State, key: string, window: real)
    requires Sound(s, window)
    ensures KeySound(s, key, window)
  {
  }

  /** Without it the wait can be short: after two hits under a limit of one, the answer is the time until the older
      hit expires, and at that instant the younger one still bars the way. */
  lemma WaitCanBeShort(key: string)
    ensures
      var calls := [Hit(key, 1.0), Hit(key, 2.0)];
      var s := Run(EMPTY, calls, 10.0);
      && AllOnTime(EMPTY, calls, 10.0) && !Disciplined(EMPTY, calls, 1, 10.0)
      && Wait(Pruned(At(s.table, key), 3.0 - 10.0), 1, 10.0, 3.0) == 8.0
      && InWindow(At(s.log, key), 10.0, 3.0 + 8.0) == 1 && InWindow(At(s.log, key), 10.0, 3.0 + 9.0) == 0
  {
    var w := 10.0;
    var s1 := After(EMPTY, Hit(key, 1.0), w);
    var s2 := After(s1, Hit(key, 2.0), w);
    var calls := [Hit(key, 1.0), Hit(key, 2.0)];
    assert calls[1..] == [Hit(key, 2.0)] && calls[1..][1..] == [];
    assert Run(s2, [], w) == s2 && AllOnTime(s2, [], w);
    assert Run(s1, calls[1..], w) == s2 && AllOnTime(s1, calls[1..], w);
    assert At(s1.log, key) == [1.0] && At(s2.log, key) == [1.0, 2.0] && At(s2.table, key) == [1.0, 2.0];
    assert [1.0, 2.0][..1] == [1.0] && [1.0][..0] == [];
    assert InWindow([], w, 2.0) == 0 && InWindow([], w, 11.0) == 0 && InWindow([], w, 12.0) == 0;
    assert InWindow([1.0], w, 2.0) == 1 && InWindow([1.0], w, 11.0) == 0 && InWindow([1.0], w, 12.0) == 0;
    assert !Disciplined(s1, calls[1..], 1, w);
  }

  /** The discipline is not what two separate lock sections give: two callers who both check first can both be
      let in, and a window then holds more than the limit. */
  lemma TwoCallersCanOverrun(key: string)
    ensures
      var calls := [Check(key, 1.0), Check(key, 1.0), Hit(key, 1.0), Hit(key, 1.0)];
      && AllOnTime(EMPTY, calls, 10.0)
      && Wait(Pruned(At(Run(EMPTY, calls[..1], 10.0).table, key), -9.0), 1, 10.0, 1.0) == 0.0
      && InWindow(At(Run(EMPTY, calls, 10.0).log, key), 10.0, 1.0) == 2
  {
    var w := 10.0;
    var c, h := Check(key, 1.0), Hit(key, 1.0);
    var calls := [c, c, h, h];
    var s1 := After(EMPTY, c, w);
    var s2 := After(s1, c, w);
    var s3 := After(s2, h, w);
    var s4 := After(s3, h, w);
    assert calls[1..] == [c, h, h] && [c, h, h][1..] == [h, h] && [h, h][1..] == [h] && [h][1..] == [];
    assert Run(s4, [], w) == s4 && AllOnTime(s4, [], w);
    assert Run(s3, [h], w) == s4 && AllOnTime(s3, [h], w);
    assert Run(s2, [h, h], w) == s4 && AllOnTime(s2, [h, h], w);
    assert Run(s1, [c, h, h], w) == s4 && AllOnTime(s1, [c, h, h], w);
    assert Run(EMPTY, calls, w) == s4 && AllOnTime(EMPTY, calls, w);
    assert calls[..1][1..] == [];
    assert Run(EMPTY, calls[..1], w) == s1;
    assert At(s4.log, key) == [1.0, 1.0];
    assert [1.0, 1.0][..1] == [1.0] && [1.0][..0] == [];
    assert InWindow([1.0], w, 1.0) == 1;
  }

  // ------------------------------------------------------------ The limiter

  lemma NothingIsSound(window: real)
    ensures Sound(EMPTY, window)
  {
  }

  class RateLimiter {
    const limit: int
    const window: real
    var hits: Table
    ghost var log: Table
    ghost var clock: real

    ghost function Abstract(): State
      reads this
    {
      State(hits, log, clock)
    }

    ghost predicate Valid()
      reads this
    {
      limit >= 1 && window >= 0.0 && Sound(Abstract(), window)
    }

    constructor (limit: int, window: real)
      requires limit >= 1 && window >= 0.0
      ensures Valid() && this.limit == limit && this.window == window
      ensures Abstract() == EMPTY
    {
      hide Sound;
      NothingIsSound(window);
      this.limit := limit;
      this.window := window;
      hits := map[];
      log := map[];
      clock := 0.0;
    }

    method Prune(key: string, now: real) returns (kept: seq<real>)
      modifies this`hits
      ensures kept == Pruned(At(old(hits), key), now - window)
      ensures hits == Put(old(hits), key, kept)
    {
      if key !in hits {
        hits := hits[key := []];
      }
      var cutoff := now - window;
      while hits[key] != [] && hits[key][0] <= cutoff
        invariant key in hits && hits == old(hits)[key := hits[key]]
        invariant Pruned(hits[key], cutoff) == Pruned(At(old(hits), key), cutoff)
        decreases |hits[key]|
      {
        hits := hits[key := hits[key][1..]];
      }
      if hits[key] == [] {
        hits := hits - {key};
        return [];
      }
      return hits[key];
    }

    method Check(key: string, now: real) returns (wait: real)
      requires Valid() && clock <= now
      modifies this
      ensures Abstract() == After(old(Abstract()), Call.Check(key, now), window)
      ensures Valid()
      ensures wait == Wait(Pruned(At(old(hits), key), now - window), limit, window, now)
      ensures wait == 0.0 <==> InWindow(At(log, key), window, now) < limit
    {
      SoundIsKept(Abstract(), Call.Check(key, now), window);
      assert KeySound(Abstract(), key, window);
      ZeroMeansRoom(At(hits, key), At(log, key), limit, window, clock, now);
      wait := Ask(key, now);
      clock := now;
    }

    /** The body of `check`, on the deques alone. */
    method Ask(key: string, now: real) returns (wait: real)
      requires limit >= 1
      modifies this`hits
      ensures hits == Put(old(hits), key, Pruned(At(old(hits), key), now - window))
      ensures wait == Wait(Pruned(At(old(hits), key), now - window), limit, window, now)
    {
      var live := Prune(key, now);
      if |live| < limit {
        return 0.0;
      }
      return if live[0] + window - now > 0.0 then live[0] + window - now else 0.0;
    }

    method Hit(key: string, now: real)
      requires Valid() && clock <= now
      modifies this
      ensures Abstract() == After(old(Abstract()), Call.Hit(key, now), window)
      ensures Valid()
    {
      SoundIsKept(Abstract(), Call.Hit(key, now), window);
      Record(key, now);
      log := log[key := At(log, key) + [now]];
      clock := now;
    }

    /** The body of `hit`, on the deques alone. */
    method Record(key: string, now: real)
      modifies this`hits
      ensures hits == old(hits)[key := Pruned(At(old(hits), key), now - window) + [now]]
    {
      if key !in hits {
        hits := hits[key := []];
      }
      var _ := Prune(key, now);
      if key !in hits {
        hits := hits[key := []];
      }
      hits := hits[key := hits[key] + [now]];
    }

    method Reset(key: string)
      requires Valid()
      modifies this
      ensures Abstract() == After(old(Abstract()), Call.Reset(key), window)
      ensures Valid()
    {
      SoundIsKept(Abstract(), Call.Reset(key), window);
      hits := hits - {key};
      log := log - {key};
    }
  }
}
