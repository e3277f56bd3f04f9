/** The fixed-window rate limiter, which prunes stale entries on every call. Times and the window are integers. */
module RateLimiter {

  datatype Entry = Entry(count: int, resetAt: int, lastSeen: int)

  datatype Limits = Limits(requests: int, window: int)

  datatype Decision = Decision(allowed: bool, resetAt: int)

  const ZERO_TIME: int := 0

  predicate Active(l: Limits) {
    l.requests > 0 && l.window > 0
  }

  // ---------------------------------------------------------------- one call

  predicate Stale(l: Limits, e: Entry, now: int) {
    now > e.resetAt + l.window
  }

  function Pruned(l: Limits, entries: map<string, Entry>, now: int): map<string, Entry> {
    map k | k in entries && !Stale(l, entries[k], now) :: entries[k]
  }

  function Touched(l: Limits, entries: map<string, Entry>, key: string, now: int): Entry {
    if key !in entries || now >= entries[key].resetAt then Entry(1, now + l.window, now)
    else if entries[key].count >= l.requests then entries[key].(lastSeen := now)
    else entries[key].(lastSeen := now, count := entries[key].count + 1)
  }

  function Decide(l: Limits, entries: map<string, Entry>, key: string, now: int): Decision {
    if key !in entries || now >= entries[key].resetAt then Decision(true, now + l.window)
    else Decision(entries[key].count < l.requests, entries[key].resetAt)
  }

  class Limiter {
    const limits: Limits
    var entries: map<string, Entry>

    constructor (requests: int, window: int)
      ensures limits == Limits(requests, window) && entries == map[]
    {
      limits, entries := Limits(requests, window), map[];
    }

    /** allowed and resetAt are those of a limiter that looks at the pruned entries. */
    method Allow(key: string, now: int) returns (allowed: bool, resetAt: int)
      modifies this`entries
      ensures limits.requests <= 0 || limits.window <= 0 ==> allowed && resetAt == ZERO_TIME && entries == old(entries)
      ensures limits.requests > 0 && limits.window > 0 ==>
                var pruned := Pruned(limits, old(entries), now);
                Decision(allowed, resetAt) == Decide(limits, pruned, key, now) &&
                entries == pruned[key := Touched(limits, pruned, key, now)]
    {
      if limits.requests <= 0 || limits.window <= 0 {
        return true, ZERO_TIME;
      }
      Prune(now);
      if key !in entries || now >= entries[key].resetAt {
        resetAt := now + limits.window;
        entries := entries[key := Entry(1, resetAt, now)];
        return true, resetAt;
      }
      var entry := entries[key].(lastSeen := now);
      if entry.count >= limits.requests {
        entries := entries[key := entry];
        return false, entry.resetAt;
      }
      entry := entry.(count := entry.count + 1);
      entries := entries[key := entry];
      return true, entry.resetAt;
    }

    method Prune(now: int)
      modifies this`entries
      ensures entries == Pruned(limits, old(entries), now)
    {
      var unseen := entries.Keys;
      while unseen != {}
        invariant unseen <= entries.Keys <= old(entries).Keys
        invariant forall k :: k in entries ==> entries[k] == old(entries)[k] && (k in unseen || !Stale(limits, entries[k], now))
        invariant forall k :: k in old(entries) && k !in entries ==> Stale(limits, old(entries)[k], now)
        decreases unseen
      {
        var key :| key in unseen;
        if now > entries[key].resetAt + limits.window {
          entries := entries - {key};
        }
        unseen := unseen - {key};
      }
    }
  }

  // ---------------------------------------------------------------- runs

  datatype Call = Call(key: string, now: int)

  /** The entries after a run of calls; a limiter that never prunes serves as the reference. */
  function EntriesAfter(l: Limits, prune: bool, calls: seq<Call>): map<string, Entry>
    decreases |calls|, 1
  {
    if calls == [] then map[]
    else
      var seen := EntriesSeen(l, prune, calls);
      var c := calls[|calls| - 1];
      seen[c.key := Touched(l, seen, c.key, c.now)]
  }

  /** The entries the last call of a run looks at. */
  function EntriesSeen(l: Limits, prune: bool, calls: seq<Call>): map<string, Entry>
    requires calls != []
    decreases |calls|, 0
  {
    var before := EntriesAfter(l, prune, calls[..|calls| - 1]);
    if prune then Pruned(l, before, calls[|calls| - 1].now) else before
  }

  /** What the last call of a run is told. */
  function LastDecision(l: Limits, prune: bool, calls: seq<Call>): Decision
    requires calls != []
  {
    Decide(l, EntriesSeen(l, prune, calls), calls[|calls| - 1].key, calls[|calls| - 1].now)
  }

  /** Admitted calls for a key in the window that ends at resetAt. */
  function AdmittedInWindow(l: Limits, prune: bool, calls: seq<Call>, key: string, resetAt: int): nat {
    if calls == [] then 0
    else
      AdmittedInWindow(l, prune, calls[..|calls| - 1], key, resetAt) +
      if calls[|calls| - 1].key == key && LastDecision(l, prune, calls) == Decision(true, resetAt) then 1 else 0
  }

  /** Admitted calls for a key made in [from, to). */
  function AdmittedBetween(l: Limits, prune: bool, calls: seq<Call>, key: string, from: int, to: int): nat {
    if calls == [] then 0
    else
      var c := calls[|calls| - 1];
      AdmittedBetween(l, prune, calls[..|calls| - 1], key, from, to) +
      if c.key == key && from <= c.now < to && LastDecision(l, prune, calls).allowed then 1 else 0
  }

  // ---------------------------------------------------------------- pruning is invisible

  /** No call's clock reading lags behind an earlier one by more than this. */
  predicate LagAtMost(calls: seq<Call>, lag: int) {
    forall i, j :: 0 <= i < j < |calls| ==> calls[j].now >= calls[i].now - lag
  }

  /** What is missing from the pruned entries was stale at the time of some earlier call. */
  ghost predicate OnlyStaleMissing(l: Limits, calls: seq<Call>, plain: map<string, Entry>, pruned: map<string, Entry>) {
    pruned.Keys <= plain.Keys &&
    (forall k :: k in pruned ==> pruned[k] == plain[k]) &&
    (forall k :: k in plain && k !in pruned ==> exists i :: 0 <= i < |calls| && Stale(l, plain[k], calls[i].now))
  }

  lemma {:induction false} PruningInvisible(l: Limits, calls: seq<Call>)
    requires l.requests > 0 && l.window > 0 && LagAtMost(calls, l.window + 1)
    ensures OnlyStaleMissing(l, calls, EntriesAfter(l, false, calls), EntriesAfter(l, true, calls))
    ensures calls != [] ==> LastDecision(l, true, calls) == LastDecision(l, false, calls)
  {
    if calls != [] {
      var init, c := calls[..|calls| - 1], calls[|calls| - 1];
      PruningInvisible(l, init);
      var plain, pruned := EntriesSeen(l, false, calls), EntriesSeen(l, true, calls);
      assert OnlyStaleMissing(l, calls, plain, pruned) by {
        forall k | k in plain && k !in pruned ensures exists i :: 0 <= i < |calls| && Stale(l, plain[k], calls[i].now) {
          if k in EntriesAfter(l, true, init) {
            assert Stale(l, plain[k], calls[|calls| - 1].now);
          } else {
            var i :| 0 <= i < |init| && Stale(l, plain[k], init[i].now);
            assert calls[i] == init[i];
          }
        }
      }
      SameTouch(l, calls, plain, pruned);
    }
  }

  lemma {:induction false} SameTouch(l: Limits, calls: seq<Call>, plain: map<string, Entry>, pruned: map<string, Entry>)
    requires Active(l) && calls != [] && LagAtMost(calls, l.window + 1) && OnlyStaleMissing(l, calls, plain, pruned)
    ensures var c := calls[|calls| - 1];
            Decide(l, plain, c.key, c.now) == Decide(l, pruned, c.key, c.now) &&
            Touched(l, plain, c.key, c.now) == Touched(l, pruned, c.key, c.now)
  {
    var c := calls[|calls| - 1];
    if c.key in plain && c.key !in pruned {
      var i :| 0 <= i < |calls| && Stale(l, plain[c.key], calls[i].now);
      assert c.now >= calls[i].now - (l.window + 1);
    }
  }

  lemma {:induction false} OneMoreCall(l: Limits, prune: bool, init: seq<Call>, c: Call)
    ensures var before := EntriesAfter(l, prune, init);
            var seen := if prune then Pruned(l, before, c.now) else before;
            LastDecision(l, prune, init + [c]) == Decide(l, seen, c.key, c.now) &&
            EntriesAfter(l, prune, init + [c]) == seen[c.key := Touched(l, seen, c.key, c.now)]
  {
    assert (init + [c])[..|init|] == init;
  }

  lemma {:induction false} SameCounts(l: Limits, calls: seq<Call>, key: string, resetAt: int, from: int, to: int)
    requires Active(l) && LagAtMost(calls, l.window + 1)
    ensures AdmittedInWindow(l, true, calls, key, resetAt) == AdmittedInWindow(l, false, calls, key, resetAt)
    ensures AdmittedBetween(l, true, calls, key, from, to) == AdmittedBetween(l, false, calls, key, from, to)
  {
    if calls != [] {
      SameCounts(l, calls[..|calls| - 1], key, resetAt, from, to);
      PruningInvisible(l, calls);
    }
  }

  // ---------------------------------------------------------------- counting

  /** The stored entry counts the admitted calls of its window; later windows are empty, and none is overfull. */
  lemma {:induction false} EntryCounts(l: Limits, calls: seq<Call>, key: string, resetAt: int)
    requires Active(l)
    ensures var entries := EntriesAfter(l, false, calls);
            var n := AdmittedInWindow(l, false, calls, key, resetAt);
            n <= l.requests &&
            (key !in entries ==> n == 0) &&
            (key in entries && resetAt == entries[key].resetAt ==> n == entries[key].count) &&
            (key in entries && resetAt > entries[key].resetAt ==> n == 0)
  {
    if calls != [] { EntryCounts(l, calls[..|calls| - 1], key, resetAt); }
  }

  /** A fixed window never admits more than the configured requests. */
  lemma {:induction false} WindowBound(l: Limits, calls: seq<Call>, key: string, resetAt: int)
    requires l.requests > 0 && l.window > 0 && LagAtMost(calls, l.window + 1)
    ensures AdmittedInWindow(l, true, calls, key, resetAt) <= l.requests
  {
    SameCounts(l, calls, key, resetAt, 0, 0);
    EntryCounts(l, calls, key, resetAt);
  }

  /** A call is refused exactly when its current window has already admitted the configured number. */
  lemma {:induction false} RefusedIffFull(l: Limits, calls: seq<Call>)
    requires l.requests > 0 && l.window > 0 && calls != [] && LagAtMost(calls, l.window + 1)
    ensures var d, c := LastDecision(l, true, calls), calls[|calls| - 1];
            !d.allowed <==> AdmittedInWindow(l, true, calls[..|calls| - 1], c.key, d.resetAt) == l.requests
  {
    var init, c := calls[..|calls| - 1], calls[|calls| - 1];
    var d := LastDecision(l, true, calls);
    PruningInvisible(l, calls);
    SameCounts(l, init, c.key, d.resetAt, 0, 0);
    EntryCounts(l, init, c.key, d.resetAt);
  }

  predicate Monotone(calls: seq<Call>) {
    LagAtMost(calls, 0)
  }

  /** How many calls of [from, from + window) the run can have admitted, given the key's entry. */
  function Allowance(l: Limits, entries: map<string, Entry>, key: string, from: int): int {
    if key !in entries then 0
    else
      var start := entries[key].resetAt - l.window;
      if start < from then entries[key].count - 1
      else if start < from + l.window then l.requests - 1 + entries[key].count
      else 2 * l.requests - 1
  }

  lemma {:induction false} WithinAllowance(l: Limits, calls: seq<Call>, key: string, from: int)
    requires Active(l) && Monotone(calls)
    ensures var entries := EntriesAfter(l, false, calls);
            var n := AdmittedBetween(l, false, calls, key, from, from + l.window);
            n <= Allowance(l, entries, key, from) &&
            (key in entries ==> 1 <= entries[key].count <= l.requests && calls != [] &&
                                entries[key].resetAt - l.window <= calls[|calls| - 1].now) &&
            (calls != [] && calls[|calls| - 1].now < from ==> n == 0)
  {
    if calls != [] {
      var init := calls[..|calls| - 1];
      WithinAllowance(l, init, key, from);
      if init != [] { assert init[|init| - 1] == calls[|calls| - 2]; }
    }
  }

  /** Any half-open interval one window long admits at most 2 * requests - 1 calls of a key. */
  lemma {:induction false} IntervalBound(l: Limits, calls: seq<Call>, key: string, from: int)
    requires l.requests > 0 && l.window > 0 && Monotone(calls)
    ensures AdmittedBetween(l, true, calls, key, from, from + l.window) <= 2 * l.requests - 1
  {
    SameCounts(l, calls, key, 0, from, from + l.window);
    WithinAllowance(l, calls, key, from);
  }

  function Repeated(c: Call, n: nat): seq<Call> {
    if n == 0 then [] else Repeated(c, n - 1) + [c]
  }

  /** The key's window holds count calls, n more fit, and c falls into it. */
  predicate Room(l: Limits, entries: map<string, Entry>, c: Call, resetAt: int, count: int, n: int) {
    c.key in entries && entries[c.key].resetAt == resetAt && entries[c.key].count == count &&
    c.now < resetAt && count + n <= l.requests
  }

  /** Calls at one instant of a window are admitted until it is full. */
  lemma {:induction false} AdmitsUntilFull(l: Limits, init: seq<Call>, c: Call, resetAt: int, count: int, n: nat, from: int)
    requires Active(l) && from <= c.now < from + l.window
    requires Room(l, EntriesAfter(l, false, init), c, resetAt, count, n)
    ensures Room(l, EntriesAfter(l, false, init + Repeated(c, n)), c, resetAt, count + n, 0)
    ensures AdmittedBetween(l, false, init + Repeated(c, n), c.key, from, from + l.window) ==
            AdmittedBetween(l, false, init, c.key, from, from + l.window) + n
  {
    if n == 0 {
      assert init + Repeated(c, 0) == init;
    } else {
      AdmitsUntilFull(l, init, c, resetAt, count, n - 1, from);
      var before := init + Repeated(c, n - 1);
      assert init + Repeated(c, n) == before + [c];
    }
  }

  /** One call at 0, then a full window at its last instant, and another full window right after it. */
  function Burst(l: Limits, key: string): seq<Call>
    requires Active(l)
  {
    [Call(key, 0)] + Repeated(Call(key, l.window - 1), l.requests - 1) + [Call(key, l.window)] +
    Repeated(Call(key, l.window), l.requests - 1)
  }

  lemma {:induction false} RepeatedIs(c: Call, n: nat)
    ensures |Repeated(c, n)| == n && forall i :: 0 <= i < n ==> Repeated(c, n)[i] == c
  {
    if n > 0 { RepeatedIs(c, n - 1); }
  }

  lemma {:induction false} BurstIsMonotone(l: Limits, key: string)
    requires Active(l)
    ensures Monotone(Burst(l, key))
  {
    RepeatedIs(Call(key, l.window - 1), l.requests - 1);
    RepeatedIs(Call(key, l.window), l.requests - 1);
    forall i | 0 <= i < |Burst(l, key)|
      ensures Burst(l, key)[i].now == if i == 0 then 0 else if i < l.requests then l.window - 1 else l.window
    {
    }
  }

  /** The interval bound is reached. */
  lemma {:induction false} IntervalBoundReached(l: Limits, key: string)
    requires l.requests > 0 && l.window > 0 && l.window > 1
    ensures Monotone(Burst(l, key)) &&
            AdmittedBetween(l, true, Burst(l, key), key, l.window - 1, 2 * l.window - 1) == 2 * l.requests - 1
  {
    BurstIsMonotone(l, key);
    SameCounts(l, Burst(l, key), key, 0, l.window - 1, 2 * l.window - 1);
    BurstFillsInterval(l, key);
  }

  lemma {:induction false} BurstFillsInterval(l: Limits, key: string)
    requires Active(l) && l.window > 1
    ensures AdmittedBetween(l, false, Burst(l, key), key, l.window - 1, 2 * l.window - 1) == 2 * l.requests - 1
  {
    var first, c := [Call(key, 0)], Call(key, l.window);
    OneMoreCall(l, false, [], Call(key, 0));
    assert [] + [Call(key, 0)] == first && first[..0] == [];
    assert AdmittedBetween(l, false, first, key, l.window - 1, 2 * l.window - 1) == 0;
    AdmitsUntilFull(l, first, Call(key, l.window - 1), l.window, 1, l.requests - 1, l.window - 1);
    var full := first + Repeated(Call(key, l.window - 1), l.requests - 1);
    OneMoreCall(l, false, full, c);
    assert (full + [c])[..|full|] == full;
    AdmitsUntilFull(l, full + [c], c, 2 * l.window, 1, l.requests - 1, l.window - 1);
  }

  // ---------------------------------------------------------------- exactly when pruning is invisible

  /** Every call of the run is told the same with and without pruning. */
  predicate SameDecisions(l: Limits, calls: seq<Call>) {
    calls != [] ==>
      SameDecisions(l, calls[..|calls| - 1]) && LastDecision(l, true, calls) == LastDecision(l, false, calls)
  }

  lemma {:induction false} SameWithinLag(l: Limits, calls: seq<Call>)
    requires Active(l) && LagAtMost(calls, l.window + 1)
    ensures SameDecisions(l, calls)
  {
    if calls != [] {
      SameWithinLag(l, calls[..|calls| - 1]);
      PruningInvisible(l, calls);
    }
  }

  const FULL_KEY: string := "a"
  const OTHER_KEY: string := "b"

  /** Fill a key's window at time 0, let another key's call prune it, and call again just before the window ends. */
  function LateReturn(l: Limits): seq<Call>
    requires Active(l)
  {
    Repeated(Call(FULL_KEY, 0), l.requests) + [Call(OTHER_KEY, 2 * l.window + 1)] + [Call(FULL_KEY, l.window - 1)]
  }

  lemma {:induction false} LateReturnLag(l: Limits)
    requires Active(l)
    ensures LagAtMost(LateReturn(l), l.window + 2)
  {
    var n := l.requests;
    RepeatedIs(Call(FULL_KEY, 0), n);
    forall i | 0 <= i < |LateReturn(l)|
      ensures LateReturn(l)[i].now == if i < n then 0 else if i == n then 2 * l.window + 1 else l.window - 1
    {
    }
  }

  /** At one instant of a window a limiter that prunes has the same entry as one that does not. */
  lemma {:induction false} FullWindow(l: Limits, n: nat)
    requires Active(l) && 1 <= n <= l.requests
    ensures forall prune :: EntriesAfter(l, prune, Repeated(Call(FULL_KEY, 0), n)) == map[FULL_KEY := Entry(n, l.window, 0)]
  {
    var c, before := Call(FULL_KEY, 0), Repeated(Call(FULL_KEY, 0), n - 1);
    if n > 1 { FullWindow(l, n - 1); } else { assert before == []; }
    forall prune ensures EntriesAfter(l, prune, Repeated(c, n)) == map[FULL_KEY := Entry(n, l.window, 0)] {
      OneMoreCall(l, prune, before, c);
    }
  }

  lemma {:induction false} OtherCall(l: Limits)
    requires Active(l)
    ensures var calls := Repeated(Call(FULL_KEY, 0), l.requests) + [Call(OTHER_KEY, 2 * l.window + 1)];
            FULL_KEY !in EntriesAfter(l, true, calls) && FULL_KEY in EntriesAfter(l, false, calls) &&
            EntriesAfter(l, false, calls)[FULL_KEY] == Entry(l.requests, l.window, 0)
  {
    assert FULL_KEY[0] != OTHER_KEY[0];
    FullWindow(l, l.requests);
    OneMoreCall(l, true, Repeated(Call(FULL_KEY, 0), l.requests), Call(OTHER_KEY, 2 * l.window + 1));
    OneMoreCall(l, false, Repeated(Call(FULL_KEY, 0), l.requests), Call(OTHER_KEY, 2 * l.window + 1));
  }

  /** With a lag of window + 2 pruning admits a call that would have been refused, whatever the limits. */
  lemma {:induction false} PruningVisibleBeyondLag(l: Limits)
    requires l.requests > 0 && l.window > 0
    ensures LagAtMost(LateReturn(l), l.window + 2)
    ensures LastDecision(l, true, LateReturn(l)).allowed && !LastDecision(l, false, LateReturn(l)).allowed
  {
    LateReturnLag(l);
    OtherCall(l);
    var calls := Repeated(Call(FULL_KEY, 0), l.requests) + [Call(OTHER_KEY, 2 * l.window + 1)];
    OneMoreCall(l, true, calls, Call(FULL_KEY, l.window - 1));
    OneMoreCall(l, false, calls, Call(FULL_KEY, l.window - 1));
  }

  /** Pruning changes no decision in any run with clock readings lagging by at most `lag` exactly when that is at most one
      tick more than a window. */
  lemma {:induction false} PruningInvisibleIff(l: Limits, lag: int)
    requires l.requests > 0 && l.window > 0
    ensures (forall calls :: LagAtMost(calls, lag) ==> SameDecisions(l, calls)) <==> lag <= l.window + 1
  {
    if lag <= l.window + 1 {
      forall calls | LagAtMost(calls, lag) ensures SameDecisions(l, calls) {
        SameWithinLag(l, calls);
      }
    } else {
      PruningVisibleBeyondLag(l);
      assert LagAtMost(LateReturn(l), lag) && !SameDecisions(l, LateReturn(l));
    }
  }
}
