/** The per-key rate limiter of the Discord runtime: despite its name it counts in fixed windows,
    each opened by the first call that finds no window open. */
module Limiter {

  datatype Limits = Limits(max: int, window: int) {
    predicate Valid() { max > 0 && window > 0 }
  }

  /** windowStart == 0 is time.Time's zero instant, which IsZero recognises. */
  datatype Bucket = Bucket(windowStart: int, count: int)

  datatype Call = Call(key: string, at: int)

  const MINUTE: int := 60_000_000_000

  /** A missing map entry reads as the zero bucket. */
  function Lookup(buckets: map<string, Bucket>, key: string): Bucket {
    if key in buckets then buckets[key] else Bucket(0, 0)
  }

  /** Whether a call at `now` finds no window open and so opens one itself. */
  predicate Expired(windowStart: int, window: int, now: int) {
    windowStart == 0 || now - windowStart >= window
  }

  /** One call: the buckets afterwards and the verdict. */
  function Decide(limits: Limits, buckets: map<string, Bucket>, call: Call): (map<string, Bucket>, bool) {
    if call.key == "" then (buckets, true) else
    var found := Lookup(buckets, call.key);
    var b := if Expired(found.windowStart, limits.window, call.at) then Bucket(call.at, 0) else found;
    if b.count >= limits.max then (buckets[call.key := b], false)
    else (buckets[call.key := b.(count := b.count + 1)], true)
  }

  // ---- Whole runs of one limiter ----

  /** The buckets after a run of calls on a new limiter. */
  function After(limits: Limits, calls: seq<Call>): map<string, Bucket> {
    if calls == [] then map[]
    else Decide(limits, After(limits, calls[..|calls| - 1]), calls[|calls| - 1]).0
  }

  predicate Accepted(limits: Limits, calls: seq<Call>, i: nat)
    requires i < |calls|
  {
    Decide(limits, After(limits, calls[..i]), calls[i]).1
  }

  predicate InOrder(calls: seq<Call>) {
    forall i, j :: 0 <= i < j < |calls| ==> calls[i].at <= calls[j].at
  }

  /** How many of the calls on `key` with a <= at < b were accepted. */
  function AcceptedBetween(limits: Limits, calls: seq<Call>, key: string, a: int, b: int): nat {
    if calls == [] then 0 else
    var n := |calls| - 1;
    AcceptedBetween(limits, calls[..n], key, a, b) +
    if calls[n].key == key && a <= calls[n].at < b && Accepted(limits, calls, n) then 1 else 0
  }

  // ---- The reference: windows tile time by the calls alone, verdicts play no part ----

  /** Start of the window a key is in after the calls; 0 when it is in none. */
  function WindowStart(window: int, calls: seq<Call>, key: string): int {
    if calls == [] then 0 else
    var n := |calls| - 1;
    var s := WindowStart(window, calls[..n], key);
    if calls[n].key == key && Expired(s, window, calls[n].at) then calls[n].at else s
  }

  /** Calls on the key since its current window opened, accepted or not. */
  function CallsInWindow(window: int, calls: seq<Call>, key: string): nat {
    if calls == [] then 0 else
    var n := |calls| - 1;
    var c := CallsInWindow(window, calls[..n], key);
    if calls[n].key != key then c
    else if Expired(WindowStart(window, calls[..n], key), window, calls[n].at) then 1
    else c + 1
  }

  lemma {:induction false} BucketIsWindow(limits: Limits, calls: seq<Call>, key: string)
    requires limits.Valid() && key != ""
    ensures var b := Lookup(After(limits, calls), key);
            && b.windowStart == WindowStart(limits.window, calls, key)
            && (var c := CallsInWindow(limits.window, calls, key);
                b.count == if c < limits.max then c else limits.max)
  {
    if calls != [] {
      BucketIsWindow(limits, calls[..|calls| - 1], key);
    }
  }

  /** A call is let through exactly when it is among the first `max` calls of its window. */
  lemma AcceptedIffAmongFirstOfWindow(limits: Limits, calls: seq<Call>, i: nat)
    requires limits.Valid() && i < |calls| && calls[i].key != ""
    ensures Accepted(limits, calls, i) <==>
            CallsInWindow(limits.window, calls[..i + 1], calls[i].key) <= limits.max
  {
    BucketIsWindow(limits, calls[..i], calls[i].key);
    assert calls[..i + 1][..i] == calls[..i];
  }

  lemma {:induction false} WindowOpenedByNow(window: int, calls: seq<Call>, key: string)
    requires InOrder(calls) && WindowStart(window, calls, key) != 0
    ensures |calls| > 0 && WindowStart(window, calls, key) <= calls[|calls| - 1].at
    ensures CallsInWindow(window, calls, key) >= 1
  {
    var n := |calls| - 1;
    if calls != [] && WindowStart(window, calls[..n], key) != 0 && n > 0 {
      WindowOpenedByNow(window, calls[..n], key);
    }
  }

  /** No call on the key at the zero instant, which IsZero takes for "no window yet". */
  ghost predicate NeverAtZero(calls: seq<Call>, key: string) {
    forall i :: 0 <= i < |calls| && calls[i].key == key ==> calls[i].at != 0
  }

  lemma {:induction false} WindowIsOpen(window: int, calls: seq<Call>, key: string)
    requires NeverAtZero(calls, key)
    ensures WindowStart(window, calls, key) == 0 <==> CallsInWindow(window, calls, key) == 0
    ensures CallsInWindow(window, calls, key) == 0 <==> forall i :: 0 <= i < |calls| ==> calls[i].key != key
  {
    if calls != [] {
      WindowIsOpen(window, calls[..|calls| - 1], key);
    }
  }

  lemma {:induction false} NothingAcceptedOnAnotherKey(limits: Limits, calls: seq<Call>, key: string, a: int, b: int)
    requires forall i :: 0 <= i < |calls| ==> calls[i].key != key
    ensures AcceptedBetween(limits, calls, key, a, b) == 0
  {
    if calls != [] {
      NothingAcceptedOnAnotherKey(limits, calls[..|calls| - 1], key, a, b);
    }
  }

  /** What an interval of one window's length has accepted so far, by where the key's current window opened. */
  ghost predicate BoundSoFar(limits: Limits, calls: seq<Call>, key: string, a: int) {
    var openedAt := WindowStart(limits.window, calls, key);
    var c := CallsInWindow(limits.window, calls, key);
    var passed := if c < limits.max then c else limits.max;
    var total := AcceptedBetween(limits, calls, key, a, a + limits.window);
    if calls == [] || calls[|calls| - 1].at < a then total == 0
    else if openedAt == 0 then total == 0 || (total < 2 * limits.max && a + limits.window <= 0 <= calls[|calls| - 1].at)
    else if openedAt < a then total < passed
    else if openedAt < a + limits.window then total < limits.max + passed
    else total < 2 * limits.max
  }

  predicate HoldsZero(limits: Limits, a: int) {
    a <= 0 < a + limits.window
  }

  lemma {:induction false} BoundKept(limits: Limits, calls: seq<Call>, key: string, a: int)
    requires limits.Valid() && key != "" && InOrder(calls) && (NeverAtZero(calls, key) || !HoldsZero(limits, a))
    ensures BoundSoFar(limits, calls, key, a)
  {
    if calls != [] {
      var n := |calls| - 1;
      BoundKept(limits, calls[..n], key, a);
      BucketIsWindow(limits, calls[..n], key);
      if n > 0 && WindowStart(limits.window, calls[..n], key) != 0 {
        WindowOpenedByNow(limits.window, calls[..n], key);
      }
      if NeverAtZero(calls, key) && WindowStart(limits.window, calls, key) == 0 {
        WindowIsOpen(limits.window, calls, key);
        NothingAcceptedOnAnotherKey(limits, calls, key, a, a + limits.window);
      }
    }
  }

  /** Every interval of one window's length lets through less than twice the limit, whatever the interval: it cannot
      hold the opening calls of two windows. */
  lemma {:induction false} LessThanTwiceTheLimit(limits: Limits, calls: seq<Call>, key: string, a: int)
    requires limits.Valid() && key != "" && InOrder(calls) && NeverAtZero(calls, key)
    ensures AcceptedBetween(limits, calls, key, a, a + limits.window) < 2 * limits.max
  {
    BoundKept(limits, calls, key, a);
  }

  /** At the zero instant nothing is ever denied: n calls are n acceptances, all in the window that never opens. */
  lemma {:induction false} ZeroInstantIsNeverLimited(limits: Limits, key: string, n: nat, a: int)
    requires limits.Valid() && key != "" && HoldsZero(limits, a)
    ensures var calls := seq(n, _ => Call(key, 0));
            InOrder(calls) && AcceptedBetween(limits, calls, key, a, a + limits.window) == n
            && WindowStart(limits.window, calls, key) == 0
  {
    if n > 0 {
      ZeroInstantIsNeverLimited(limits, key, n - 1, a);
      var calls := seq(n, _ => Call(key, 0));
      assert calls[..n - 1] == seq(n - 1, _ => Call(key, 0));
      BucketIsWindow(limits, calls[..n - 1], key);
    }
  }

  ghost predicate BoundHolds(limits: Limits, key: string, a: int) {
    forall calls :: InOrder(calls) ==> AcceptedBetween(limits, calls, key, a, a + limits.window) < 2 * limits.max
  }

  /** With calls at the zero instant admitted, the bound holds of just the intervals that do not hold it. */
  lemma {:induction false} BoundHoldsAwayFromZero(limits: Limits, key: string, a: int)
    requires limits.Valid() && key != ""
    ensures BoundHolds(limits, key, a) <==> !HoldsZero(limits, a)
  {
    if HoldsZero(limits, a) {
      ZeroInstantIsNeverLimited(limits, key, 2 * limits.max, a);
      var calls := seq(2 * limits.max, _ => Call(key, 0));
      assert InOrder(calls) && AcceptedBetween(limits, calls, key, a, a + limits.window) == 2 * limits.max;
    } else {
      forall calls | InOrder(calls) ensures AcceptedBetween(limits, calls, key, a, a + limits.window) < 2 * limits.max {
        BoundKept(limits, calls, key, a);
      }
    }
  }

  // ---- The bound is reached ----

  /** `n` calls on the key at one instant after `before`. */
  function Burst(before: seq<Call>, key: string, at: int, n: nat): seq<Call> {
    before + seq(n, _ => Call(key, at))
  }

  lemma BurstGrows(before: seq<Call>, key: string, at: int, n: nat)
    requires n > 0
    ensures var calls := Burst(before, key, at, n);
            && calls == Burst(before, key, at, n - 1) + [Call(key, at)]
            && calls[..|calls| - 1] == Burst(before, key, at, n - 1)
  {
  }

  lemma {:induction false} OneMoreFits(limits: Limits, calls: seq<Call>, key: string, at: int, a: int)
    requires limits.Valid() && key != "" && a <= at < a + limits.window
    requires var s := WindowStart(limits.window, calls, key); s != 0 && at - s < limits.window
    requires CallsInWindow(limits.window, calls, key) < limits.max
    ensures var longer := calls + [Call(key, at)];
            && WindowStart(limits.window, longer, key) == WindowStart(limits.window, calls, key)
            && CallsInWindow(limits.window, longer, key) == CallsInWindow(limits.window, calls, key) + 1
            && AcceptedBetween(limits, longer, key, a, a + limits.window) ==
               AcceptedBetween(limits, calls, key, a, a + limits.window) + 1
  {
    assert (calls + [Call(key, at)])[..|calls|] == calls;
    BucketIsWindow(limits, calls, key);
  }

  /** A burst inside an open window with room for it is accepted as a whole. */
  lemma {:induction false} BurstFits(limits: Limits, before: seq<Call>, key: string, at: int, n: nat, a: int)
    requires limits.Valid() && key != "" && a <= at < a + limits.window
    requires var s := WindowStart(limits.window, before, key); s != 0 && at - s < limits.window
    requires CallsInWindow(limits.window, before, key) + n <= limits.max
    ensures var calls := Burst(before, key, at, n);
            && WindowStart(limits.window, calls, key) == WindowStart(limits.window, before, key)
            && CallsInWindow(limits.window, calls, key) == CallsInWindow(limits.window, before, key) + n
            && AcceptedBetween(limits, calls, key, a, a + limits.window) ==
               AcceptedBetween(limits, before, key, a, a + limits.window) + n
  {
    hide AcceptedBetween, CallsInWindow, WindowStart;
    if n == 0 {
      assert Burst(before, key, at, 0) == before;
    } else {
      BurstFits(limits, before, key, at, n - 1, a);
      BurstGrows(before, key, at, n);
      OneMoreFits(limits, Burst(before, key, at, n - 1), key, at, a);
    }
  }

  /** One call opens a window at 1, the rest of its allowance comes at its end, and a full window follows. */
  function FullestRun(limits: Limits, key: string): seq<Call>
    requires limits.Valid()
  {
    Burst(Burst([Call(key, 1)], key, limits.window, limits.max - 1), key, limits.window + 1, limits.max)
  }

  /** For every limit with a window of two units or more the bound is reached. */
  lemma {:induction false} OneLessThanTwiceTheLimitIsReached(limits: Limits, key: string)
    requires limits.Valid() && limits.window >= 2 && key != ""
    ensures var calls, w := FullestRun(limits, key), limits.window;
            && InOrder(calls) && NeverAtZero(calls, key)
            && AcceptedBetween(limits, calls, key, 2, 2 + w) == 2 * limits.max - 1
            && WindowStart(w, calls, key) == w + 1 && CallsInWindow(w, calls, key) == limits.max
  {
    hide AcceptedBetween, CallsInWindow, WindowStart;
    var w, m := limits.window, limits.max;
    var early := Burst([Call(key, 1)], key, w, m - 1);
    var reopened := Burst(early, key, w + 1, 1);
    FirstCallOpens(limits, key);
    BurstFits(limits, [Call(key, 1)], key, w, m - 1, 2);
    LateCallReopens(limits, early, key);
    BurstFits(limits, reopened, key, w + 1, m - 1, 2);
    assert Burst(reopened, key, w + 1, m - 1) == Burst(early, key, w + 1, m);
  }

  lemma {:induction false} FirstCallOpens(limits: Limits, key: string)
    requires limits.Valid() && key != ""
    ensures WindowStart(limits.window, [Call(key, 1)], key) == 1
    ensures CallsInWindow(limits.window, [Call(key, 1)], key) == 1
    ensures AcceptedBetween(limits, [Call(key, 1)], key, 2, 2 + limits.window) == 0
  {
    assert [Call(key, 1)][..0] == [];
  }

  lemma {:induction false} LateCallReopens(limits: Limits, early: seq<Call>, key: string)
    requires limits.Valid() && limits.window >= 2 && key != "" && WindowStart(limits.window, early, key) == 1
    ensures var calls, w := Burst(early, key, limits.window + 1, 1), limits.window;
            && WindowStart(w, calls, key) == w + 1 && CallsInWindow(w, calls, key) == 1
            && AcceptedBetween(limits, calls, key, 2, 2 + w) == AcceptedBetween(limits, early, key, 2, 2 + w) + 1
  {
    BurstGrows(early, key, limits.window + 1, 1);
    assert Burst(early, key, limits.window + 1, 0) == early;
    BucketIsWindow(limits, early, key);
  }

  /** A window of one unit holds no two instants: there an interval lets through no more than the limit. */
  lemma {:induction false} NoMoreThanTheLimitInAUnitWindow(limits: Limits, calls: seq<Call>, key: string, a: int)
    requires limits.Valid() && limits.window == 1 && key != "" && InOrder(calls) && NeverAtZero(calls, key)
    ensures AcceptedBetween(limits, calls, key, a, a + 1) <= limits.max
  {
    UnitWindowKept(limits, calls, key, a);
  }

  lemma {:induction false} AcceptedWhenRoom(limits: Limits, calls: seq<Call>, n: nat)
    requires limits.Valid() && n < |calls| && calls[n].key != ""
    ensures var s, c := WindowStart(limits.window, calls[..n], calls[n].key),
              CallsInWindow(limits.window, calls[..n], calls[n].key);
            Accepted(limits, calls, n) <==> Expired(s, limits.window, calls[n].at) || c < limits.max
  {
    BucketIsWindow(limits, calls[..n], calls[n].key);
  }

  lemma {:induction false} UnitWindowKept(limits: Limits, calls: seq<Call>, key: string, a: int)
    requires limits.Valid() && limits.window == 1 && key != "" && InOrder(calls) && NeverAtZero(calls, key)
    ensures var openedAt, c := WindowStart(1, calls, key), CallsInWindow(1, calls, key);
            var total := AcceptedBetween(limits, calls, key, a, a + 1);
            if openedAt == 0 || openedAt < a then total == 0
            else if openedAt == a then total == if c < limits.max then c else limits.max
            else total <= limits.max
  {
    hide Accepted;
    if calls != [] {
      var n := |calls| - 1;
      if calls[n].key == key {
        AcceptedWhenRoom(limits, calls, n);
      }
      UnitWindowKept(limits, calls[..n], key, a);
      BucketIsWindow(limits, calls[..n], key);
      WindowIsOpen(1, calls[..n], key);
      if n > 0 && WindowStart(1, calls[..n], key) != 0 {
        WindowOpenedByNow(1, calls[..n], key);
      }
    }
  }

  // ---- Why a call is denied ----

  lemma {:induction false} CallsStayInWindow(window: int, calls: seq<Call>, key: string)
    requires window > 0 && InOrder(calls) && NeverAtZero(calls, key)
    ensures forall i :: 0 <= i < |calls| && calls[i].key == key ==>
              calls[i].at < WindowStart(window, calls, key) + window
  {
    if calls != [] {
      CallsStayInWindow(window, calls[..|calls| - 1], key);
    }
  }

  lemma {:induction false} NothingAcceptedYet(limits: Limits, calls: seq<Call>, key: string, a: int, b: int)
    requires forall i :: 0 <= i < |calls| && calls[i].key == key ==> calls[i].at < a
    ensures AcceptedBetween(limits, calls, key, a, b) == 0
  {
    if calls != [] {
      NothingAcceptedYet(limits, calls[..|calls| - 1], key, a, b);
    }
  }

  lemma {:induction false} AcceptedSinceOpening(limits: Limits, calls: seq<Call>, key: string, b: int)
    requires limits.Valid() && key != "" && InOrder(calls) && NeverAtZero(calls, key)
    requires calls != [] ==> calls[|calls| - 1].at < b
    requires WindowStart(limits.window, calls, key) != 0
    ensures var c := CallsInWindow(limits.window, calls, key);
            AcceptedBetween(limits, calls, key, WindowStart(limits.window, calls, key), b) ==
            if c < limits.max then c else limits.max
  {
    if calls != [] {
      var n := |calls| - 1;
      var s := WindowStart(limits.window, calls[..n], key);
      BucketIsWindow(limits, calls[..n], key);
      if s != 0 && WindowStart(limits.window, calls, key) == s {
        WindowOpenedByNow(limits.window, calls, key);
        AcceptedSinceOpening(limits, calls[..n], key, b);
      } else {
        CallsStayInWindow(limits.window, calls[..n], key);
        WindowIsOpen(limits.window, calls[..n], key);
        NothingAcceptedYet(limits, calls[..n], key, calls[n].at, b);
      }
    }
  }

  /** A denied call has exactly `max` acceptances on its key since its window opened, less than one window ago. */
  lemma {:induction false} DeniedAfterMaxAcceptances(limits: Limits, calls: seq<Call>, i: nat)
    requires limits.Valid() && InOrder(calls) && i < |calls| && calls[i].key != "" && NeverAtZero(calls, calls[i].key)
    ensures Accepted(limits, calls, i) || AcceptedBetween(limits, calls[..i], calls[i].key,
              WindowStart(limits.window, calls[..i], calls[i].key), calls[i].at + 1) == limits.max
    ensures !Accepted(limits, calls, i) ==>
              calls[i].at - limits.window < WindowStart(limits.window, calls[..i], calls[i].key) <= calls[i].at
  {
    var before, key := calls[..i], calls[i].key;
    BucketIsWindow(limits, before, key);
    if !Accepted(limits, calls, i) {
      WindowIsOpen(limits.window, before, key);
      AcceptedSinceOpening(limits, before, key, calls[i].at + 1);
      WindowOpenedByNow(limits.window, before, key);
    }
  }

  lemma {:induction false} AcceptedInWider(limits: Limits, calls: seq<Call>, key: string, a: int, s: int, b: int)
    requires a <= s
    ensures AcceptedBetween(limits, calls, key, s, b) <= AcceptedBetween(limits, calls, key, a, b)
  {
    hide Accepted;
    if calls != [] {
      AcceptedInWider(limits, calls[..|calls| - 1], key, a, s, b);
    }
  }

  /** The acceptances less than one window before call i. */
  ghost function AcceptedJustBefore(limits: Limits, calls: seq<Call>, key: string, i: nat): nat
    requires i < |calls|
  {
    AcceptedBetween(limits, calls[..i], key, calls[i].at - limits.window + 1, calls[i].at + 1)
  }

  /** Orderly calls of which call i, on the key, is denied. */
  ghost predicate Denies(limits: Limits, calls: seq<Call>, key: string, i: nat) {
    i < |calls| && InOrder(calls) && NeverAtZero(calls, key) && calls[i].key == key && !Accepted(limits, calls, i)
  }

  /** Whenever a call is denied, exactly `max` calls were accepted less than one window before it. */
  ghost predicate ExactlyMaxBeforeDenials(limits: Limits, key: string) {
    forall calls, i :: Denies(limits, calls, key, i) ==> AcceptedJustBefore(limits, calls, key, i) == limits.max
  }

  lemma {:induction false} AtLeastMaxBeforeDenial(limits: Limits, calls: seq<Call>, key: string, i: nat)
    requires limits.Valid() && key != "" && Denies(limits, calls, key, i)
    ensures AcceptedJustBefore(limits, calls, key, i) >= limits.max
  {
    hide Accepted, AcceptedBetween, WindowStart;
    DeniedAfterMaxAcceptances(limits, calls, i);
    AcceptedInWider(limits, calls[..i], key, calls[i].at - limits.window + 1,
                    WindowStart(limits.window, calls[..i], key), calls[i].at + 1);
  }

  lemma {:induction false} AtMostMaxBeforeDenial(limits: Limits, calls: seq<Call>, key: string, i: nat)
    requires limits.Valid() && key != "" && Denies(limits, calls, key, i)
    requires limits.max == 1 || limits.window == 1
    ensures AcceptedJustBefore(limits, calls, key, i) <= limits.max
  {
    hide Accepted, AcceptedBetween;
    if limits.max == 1 {
      LessThanTwiceTheLimit(limits, calls[..i], key, calls[i].at - limits.window + 1);
    } else {
      NoMoreThanTheLimitInAUnitWindow(limits, calls[..i], key, calls[i].at);
    }
  }

  /** Otherwise there can be nearly twice as many: one more call after the run that reaches the bound is denied. */
  lemma {:induction false} NearlyTwiceMaxBeforeDenial(limits: Limits, key: string)
    requires limits.Valid() && limits.window >= 2 && key != ""
    ensures var calls := FullestRun(limits, key);
            var all := calls + [Call(key, limits.window + 1)];
            Denies(limits, all, key, |calls|) && AcceptedJustBefore(limits, all, key, |calls|) == 2 * limits.max - 1
  {
    hide Accepted, AcceptedBetween, CallsInWindow, WindowStart;
    var calls := FullestRun(limits, key);
    var all := calls + [Call(key, limits.window + 1)];
    OneLessThanTwiceTheLimitIsReached(limits, key);
    assert all[..|calls|] == calls;
    AcceptedWhenRoom(limits, all, |calls|);
  }

  /** "Denied only after exactly max acceptances less than one window before" holds of just the limits of one call and
      the windows of one unit. */
  lemma {:induction false} ExactlyMaxBeforeDenialsIff(limits: Limits, key: string)
    requires limits.Valid() && key != ""
    ensures ExactlyMaxBeforeDenials(limits, key) <==> limits.max == 1 || limits.window == 1
  {
    hide InOrder, NeverAtZero, Accepted, AcceptedJustBefore;
    if limits.max == 1 || limits.window == 1 {
      forall calls, i | Denies(limits, calls, key, i) ensures AcceptedJustBefore(limits, calls, key, i) == limits.max {
        AtLeastMaxBeforeDenial(limits, calls, key, i);
        AtMostMaxBeforeDenial(limits, calls, key, i);
      }
    } else {
      NearlyTwiceMaxBeforeDenial(limits, key);
    }
  }

  // ---- Keys do not influence one another ----

  function OfKey(calls: seq<Call>, key: string): (r: seq<Call>)
    ensures |r| <= |calls|
  {
    if calls == [] then [] else
    var n := |calls| - 1;
    OfKey(calls[..n], key) + if calls[n].key == key then [calls[n]] else []
  }

  lemma {:induction false} OtherKeysLeaveTheBucket(limits: Limits, calls: seq<Call>, key: string)
    requires limits.Valid() && key != ""
    ensures Lookup(After(limits, calls), key) == Lookup(After(limits, OfKey(calls, key)), key)
  {
    if calls != [] {
      var n := |calls| - 1;
      OtherKeysLeaveTheBucket(limits, calls[..n], key);
      var own := OfKey(calls[..n], key);
      if calls[n].key == key {
        assert OfKey(calls, key) == own + [calls[n]] && (own + [calls[n]])[..|own|] == own;
      } else {
        assert OfKey(calls, key) == own;
      }
    }
  }

  /** The verdict on a call is the one it would get if only calls on its own key had been made. */
  lemma KeysAreIndependent(limits: Limits, calls: seq<Call>, i: nat)
    requires limits.Valid() && i < |calls| && calls[i].key != ""
    ensures var own := OfKey(calls[..i], calls[i].key) + [calls[i]];
            Accepted(limits, calls, i) <==> Accepted(limits, own, |own| - 1)
  {
    OtherKeysLeaveTheBucket(limits, calls[..i], calls[i].key);
    var own := OfKey(calls[..i], calls[i].key);
    assert (own + [calls[i]])[..|own|] == own;
  }

  // ---- The limiter itself ----

  class SlidingCounter {
    const limits: Limits
    var bucket: map<string, Bucket>
    ghost var calls: seq<Call>

    /** The buckets are those of the calls made so far. */
    ghost predicate Valid()
      reads this
    {
      limits.Valid() && bucket == After(limits, calls)
    }

    constructor (max: int, window: int)
      requires max > 0 && window > 0
      ensures Valid() && limits == Limits(max, window) && calls == []
    {
      limits := Limits(max, window);
      bucket := map[];
      calls := [];
    }

    /** A call is let through exactly when it has no key or is among the first max of its key's window. */
    method Allow(key: string, now: int) returns (ok: bool)
      requires Valid()
      modifies this
      ensures Valid() && calls == old(calls) + [Call(key, now)]
      ensures ok <==> key == "" || CallsInWindow(limits.window, calls, key) <= limits.max
    {
      ghost var before := calls;
      calls := calls + [Call(key, now)];
      assert calls[..|before|] == before;
      if key == "" {
        return true;
      }
      BucketIsWindow(limits, before, key);
      var b := if key in bucket then bucket[key] else Bucket(0, 0);
      if b.windowStart == 0 || now - b.windowStart >= limits.window {
        b := Bucket(now, 0);
      }
      if b.count >= limits.max {
        bucket := bucket[key := b];
        return false;
      }
      b := b.(count := b.count + 1);
      bucket := bucket[key := b];
      return true;
    }
  }

  /** A limit that is not positive means no limiter at all. */
  method NewSlidingCounter(max: int, window: int) returns (c: SlidingCounter?)
    ensures c == null <==> max <= 0
    ensures c != null ==>
              fresh(c) && c.Valid() && c.calls == [] && c.limits == Limits(max, if window <= 0 then MINUTE else window)
  {
    if max <= 0 {
      return null;
    }
    c := new SlidingCounter(max, if window <= 0 then MINUTE else window);
  }

  /** Allow may be called on a nil limiter, which lets everything through. */
  method AllowOn(c: SlidingCounter?, key: string, now: int) returns (ok: bool)
    requires c != null ==> c.Valid()
    modifies if c == null then {} else {c}
    ensures c == null ==> ok
    ensures c != null ==>
              && c.Valid() && c.calls == old(c.calls) + [Call(key, now)]
              && (ok <==> key == "" || CallsInWindow(c.limits.window, c.calls, key) <= c.limits.max)
  {
    if c == null {
      return true;
    }
    ok := c.Allow(key, now);
  }
}
