/** The per-key sliding-window limiter (app/api/rate_limiter.py). */
module RateLimiter {
  import opened Options

  type Key = nat

  /** `Crashed` is the index error of a limit below one met by an empty window. */
  datatype Outcome = Granted | Refused(retryAfter: int) | Crashed

  type Windows = map<Key, seq<real>>

  function Window(windows: Windows, key: Key): seq<real> { if key in windows then windows[key] else [] }

  function Recent(window: seq<real>, now: real): seq<real> {
    if window != [] && window[0] < now - 60.0 then Recent(window[1..], now) else window
  }

  lemma {:induction false} RecentIsSuffix(window: seq<real>, now: real)
    ensures var r := Recent(window, now); |r| <= |window| && r == window[|window| - |r|..]
    ensures forall i | 0 <= i < |window| - |Recent(window, now)| :: window[i] < now - 60.0
    ensures Recent(window, now) != [] ==> Recent(window, now)[0] >= now - 60.0
  {
    if window != [] && window[0] < now - 60.0 { RecentIsSuffix(window[1..], now); }
  }

  /** int(x) drops the fraction towards zero. */
  function Truncated(x: real): (r: int)
    ensures x >= 0.0 ==> r as real <= x < r as real + 1.0
    ensures x < 0.0 ==> r as real - 1.0 < x <= r as real
  {
    if x >= 0.0 then x.Floor else -(-x).Floor
  }

  /** Never less than a second, whatever the clock did. */
  function RetryAfter(oldest: real, now: real): (r: int)
    ensures r >= 1
    ensures oldest + 60.0 >= now ==> r as real - 1.0 <= oldest + 60.0 - now < r as real
    ensures oldest + 60.0 < now ==> r == 1
  {
    var wait := Truncated(oldest + 60.0 - now) + 1;
    if wait < 1 then 1 else wait
  }

  function Decide(window: seq<real>, limit: int, now: real): Outcome {
    var recent := Recent(window, now);
    if |recent| >= limit then if recent == [] then Crashed else Refused(RetryAfter(recent[0], now)) else Granted
  }

  function Next(window: seq<real>, limit: int, now: real): seq<real> {
    if Decide(window, limit, now).Granted? then Recent(window, now) + [now] else Recent(window, now)
  }

  datatype Call = Call(key: Key, limit: Option<int>, now: real)

  /** A call touches its own key only, and nothing when it has no limit. */
  function After(windows: Windows, c: Call): Windows {
    if c.limit.None? then windows else windows[c.key := Next(Window(windows, c.key), c.limit.value, c.now)]
  }

  class Limiter {
    var windows: Windows

    constructor ()
      ensures windows == map[]
    {
      windows := map[];
    }

    method Check(key: Key, limit: Option<int>, now: real) returns (outcome: Outcome)
      modifies this
      ensures outcome == if limit.None? then Granted else Decide(Window(old(windows), key), limit.value, now)
      ensures windows == After(old(windows), Call(key, limit, now))
    {
      if limit.None? { return Granted; }
      var window := if key in windows then windows[key] else [];
      while window != [] && window[0] < now - 60.0
        invariant Recent(window, now) == Recent(Window(old(windows), key), now)
        decreases |window|
      {
        window := window[1..];
      }
      if |window| >= limit.value {
        windows := windows[key := window];
        if window == [] { return Crashed; }
        var retryAfter := Truncated(window[0] + 60.0 - now) + 1;
        if retryAfter < 1 { retryAfter := 1; }
        return Refused(retryAfter);
      }
      windows := windows[key := window + [now]];
      outcome := Granted;
    }

    method Reset(key: Key)
      modifies this
      ensures windows == old(windows) - {key}
    {
      windows := windows - {key};
    }
  }

  /* ---------- Histories of one key under a fixed limit ---------- */

  datatype History = History(window: seq<real>, grants: seq<real>)

  function Called(h: History, limit: int, now: real): History {
    History(Next(h.window, limit, now), if Decide(h.window, limit, now).Granted? then h.grants + [now] else h.grants)
  }

  function Calls(h: History, limit: int, times: seq<real>): History
    decreases |times|
  {
    if times == [] then h else Calls(Called(h, limit, times[0]), limit, times[1..])
  }

  const FRESH := History([], [])

  ghost predicate Ordered(times: seq<real>, first: real) {
    times != [] ==> first <= times[0] && Ordered(times[1..], times[0])
  }

  function Later(a: real, b: real): real { if a < b then b else a }

  /** No call comes more than `skew` seconds after a later one. */
  ghost predicate Skewed(times: seq<real>, last: real, skew: real) {
    times != [] ==> last - skew <= times[0] && Skewed(times[1..], Later(last, times[0]), skew)
  }

  lemma {:induction false} OrderedIsUnskewed(times: seq<real>, first: real)
    requires Ordered(times, first)
    ensures Skewed(times, first, 0.0)
    decreases |times|
  {
    if times != [] { OrderedIsUnskewed(times[1..], times[0]); }
  }

  /** A grant and the one `limit` places later are more than `width` seconds apart. */
  ghost predicate Spaced(grants: seq<real>, limit: nat, width: real) {
    forall i, j | 0 <= i <= j - limit && j < |grants| :: grants[i] + width < grants[j]
  }

  /** The window is the end of the grant list; what was dropped is more than a minute older than the latest call. */
  ghost predicate Tracks(h: History, limit: nat, last: real) {
    && |h.window| <= |h.grants| && |h.window| <= limit
    && h.window == h.grants[|h.grants| - |h.window|..]
    && Expired(h.grants, |h.grants| - |h.window|, last)
  }

  /** What has left the window by now. */
  predicate Expired(grants: seq<real>, n: int, now: real) {
    forall i | 0 <= i < n && i < |grants| :: grants[i] + 60.0 < now
  }

  lemma EvictionTracks(window: seq<real>, grants: seq<real>, last: real, now: real)
    requires |window| <= |grants| && window == grants[|grants| - |window|..]
    requires Expired(grants, |grants| - |window|, last)
    ensures var recent := Recent(window, now);
            && |recent| <= |window| && recent == grants[|grants| - |recent|..]
            && Expired(grants, |grants| - |recent|, Later(last, now))
  {
    RecentIsSuffix(window, now);
    var dropped, gone := |grants| - |window|, |window| - |Recent(window, now)|;
    forall i | 0 <= i < dropped + gone ensures grants[i] + 60.0 < Later(last, now) {
      if i >= dropped { assert grants[i] == window[i - dropped]; }
    }
  }

  lemma CallTracks(h: History, limit: nat, last: real, now: real, skew: real)
    requires limit >= 1 && Tracks(h, limit, last) && last - skew <= now && 0.0 <= skew && Spaced(h.grants, limit, 60.0 - skew)
    ensures Tracks(Called(h, limit, now), limit, Later(last, now)) && Spaced(Called(h, limit, now).grants, limit, 60.0 - skew)
  {
    EvictionTracks(h.window, h.grants, last, now);
    if Decide(h.window, limit, now).Granted? {
      Granting(h.grants, Recent(h.window, now), limit, now, Later(last, now), skew);
    }
  }

  lemma Granting(grants: seq<real>, recent: seq<real>, limit: nat, now: real, last: real, skew: real)
    requires |recent| < limit && |recent| <= |grants| && recent == grants[|grants| - |recent|..] && last - skew <= now
    requires Expired(grants, |grants| - |recent|, last) && Spaced(grants, limit, 60.0 - skew)
    ensures Tracks(History(recent + [now], grants + [now]), limit, last) && Spaced(grants + [now], limit, 60.0 - skew)
  {
    var kept := |grants| - |recent|;
    assert Expired(grants, |grants| - limit + 1, last);
    SpacedSnoc(grants, limit, now, last, skew);
    assert (grants + [now])[kept..] == grants[kept..] + [now];
  }

  lemma SpacedSnoc(grants: seq<real>, limit: nat, now: real, last: real, skew: real)
    requires Spaced(grants, limit, 60.0 - skew) && limit >= 1 && last - skew <= now
    requires Expired(grants, |grants| - limit + 1, last)
    ensures Spaced(grants + [now], limit, 60.0 - skew)
  {}

  lemma {:induction false} CallsTrack(h: History, limit: nat, last: real, times: seq<real>, skew: real)
    requires limit >= 1 && Tracks(h, limit, last) && 0.0 <= skew && Spaced(h.grants, limit, 60.0 - skew)
    requires Skewed(times, last, skew)
    ensures Spaced(Calls(h, limit, times).grants, limit, 60.0 - skew)
    decreases |times|
  {
    if times != [] {
      CallTracks(h, limit, last, times[0], skew);
      CallsTrack(Called(h, limit, times[0]), limit, Later(last, times[0]), times[1..], skew);
    }
  }

  function CountIn(grants: seq<real>, low: real, high: real): nat {
    if grants == [] then 0
    else (if low <= grants[0] <= high then 1 else 0) + CountIn(grants[1..], low, high)
  }

  lemma {:induction false} CountFirst(grants: seq<real>, n: nat, low: real, high: real)
    requires forall j | n <= j < |grants| :: !(low <= grants[j] <= high)
    ensures CountIn(grants, low, high) <= n
  {
    if grants != [] { CountFirst(grants[1..], if n == 0 then 0 else n - 1, low, high); }
  }

  lemma {:induction false} CountSpaced(grants: seq<real>, limit: nat, width: real, high: real)
    requires limit >= 1 && Spaced(grants, limit, width)
    ensures CountIn(grants, high - width, high) <= limit
  {
    if grants != [] {
      if grants[0] >= high - width {
        CountFirst(grants, limit, high - width, high);
      } else {
        CountSpaced(grants[1..], limit, width, high);
      }
    }
  }

  /** Calls that come at most `skew` seconds out of order keep intervals that much shorter than a minute in the limit. */
  lemma LimitHoldsUnderSkew(limit: nat, times: seq<real>, start: real, skew: real, high: real)
    requires limit >= 1 && 0.0 <= skew && Skewed(times, start, skew)
    ensures CountIn(Calls(FRESH, limit, times).grants, high - (60.0 - skew), high) <= limit
  {
    FreshTracks(limit, start, 60.0 - skew);
    CallsTrack(FRESH, limit, start, times, skew);
    CountSpaced(Calls(FRESH, limit, times).grants, limit, 60.0 - skew, high);
  }

  lemma FreshTracks(limit: nat, last: real, width: real)
    ensures Tracks(FRESH, limit, last) && Spaced(FRESH.grants, limit, width)
  {
  }

  /** In order, no closed interval of sixty seconds, ending at a grant or anywhere else, holds more grants than the limit. */
  lemma LimitHolds(limit: nat, times: seq<real>, start: real, high: real)
    requires limit >= 1 && Ordered(times, start)
    ensures CountIn(Calls(FRESH, limit, times).grants, high - 60.0, high) <= limit
  {
    OrderedIsUnskewed(times, start);
    LimitHoldsUnderSkew(limit, times, start, 0.0, high);
  }

  lemma CallOnce(h: History, limit: int, now: real, rest: seq<real>)
    ensures Calls(h, limit, [now] + rest) == Calls(Called(h, limit, now), limit, rest)
  {
    assert ([now] + rest)[1..] == rest;
  }

  /* ---------- How much disorder the limit bears ---------- */

  /** Every history at most `skew` seconds out of order keeps every closed interval of the width within the limit. */
  ghost predicate Holds(limit: nat, skew: real, width: real) {
    forall times, start, high | Skewed(times, start, skew) :: Within(limit, times, width, high)
  }

  predicate Within(limit: nat, times: seq<real>, width: real, high: real) {
    CountIn(Calls(FRESH, limit, times).grants, high - width, high) <= limit
  }

  /** Under a limit of one the window is the last grant, so grants are a minute apart however calls are ordered. */
  predicate Enough(limit: nat, skew: real, width: real) {
    width < 0.0 || width <= 60.0 - skew || (limit == 1 && width <= 60.0)
  }

  /** A limit of `limit` calls holds for exactly these widths. */
  lemma HoldsExactly(limit: nat, skew: real, width: real)
    requires limit >= 1 && 0.0 <= skew
    ensures Holds(limit, skew, width) <==> Enough(limit, skew, width)
  {
    if Enough(limit, skew, width) {
      forall times, start, high | Skewed(times, start, skew) ensures Within(limit, times, width, high) {
        EnoughHolds(limit, skew, width, times, start, high);
      }
    } else if limit == 1 {
      TwoInOrder(skew, width);
    } else {
      DisorderBreaks(limit, skew, width);
    }
  }

  lemma EnoughHolds(limit: nat, skew: real, width: real, times: seq<real>, start: real, high: real)
    requires limit >= 1 && 0.0 <= skew && Enough(limit, skew, width) && Skewed(times, start, skew)
    ensures CountIn(Calls(FRESH, limit, times).grants, high - width, high) <= limit
  {
    var grants := Calls(FRESH, limit, times).grants;
    if width < 0.0 {
      CountFirst(grants, 0, high - width, high);
    } else if width <= 60.0 - skew {
      LimitHoldsUnderSkew(limit, times, start, skew, high);
      CountNarrower(grants, high - (60.0 - skew), high - width, high);
    } else {
      SinglesSpaced(FRESH, times);
      CountSpaced(grants, 1, 60.0, high);
      CountNarrower(grants, high - 60.0, high - width, high);
    }
  }

  lemma {:induction false} CountNarrower(grants: seq<real>, low: real, above: real, high: real)
    requires low <= above
    ensures CountIn(grants, above, high) <= CountIn(grants, low, high)
  {
    if grants != [] { CountNarrower(grants[1..], low, above, high); }
  }

  /** Under a limit of one. */
  predicate LastGrant(h: History) {
    if h.grants == [] then h.window == [] else h.window == [h.grants[|h.grants| - 1]]
  }

  lemma {:induction false} SinglesSpaced(h: History, times: seq<real>)
    requires LastGrant(h) && Spaced(h.grants, 1, 60.0)
    ensures Spaced(Calls(h, 1, times).grants, 1, 60.0)
    decreases |times|
  {
    if times != [] {
      SingleCall(h, times[0]);
      SinglesSpaced(Called(h, 1, times[0]), times[1..]);
    }
  }

  lemma SingleCall(h: History, now: real)
    requires LastGrant(h) && Spaced(h.grants, 1, 60.0)
    ensures LastGrant(Called(h, 1, now)) && Spaced(Called(h, 1, now).grants, 1, 60.0)
  {
    RecentIsSuffix(h.window, now);
    if Decide(h.window, 1, now).Granted? && h.grants != [] {
      assert Recent(h.window, now) == [];
      assert h.window[0] < now - 60.0;
    }
  }

  /** Two calls in order, just outside each other's window. */
  lemma TwoInOrder(skew: real, width: real)
    requires 0.0 <= skew && width > 60.0
    ensures !Holds(1, skew, width)
  {
    var times := [0.0] + [width];
    var first := History([0.0], [0.0]);
    assert Called(FRESH, 1, 0.0) == first;
    CallOnce(FRESH, 1, 0.0, [width]);
    CallOnce(first, 1, width, []);
    assert [width] + [] == [width] && [width][1..] == [] && times[1..] == [width];
    assert Recent([0.0], width) == [];
    assert Called(first, 1, width).grants == [0.0] + [width];
    assert Calls(FRESH, 1, times).grants == [0.0] + [width];
    CountConcat([0.0], [width], 0.0, width);
    assert Skewed([width], 0.0, skew);
    assert Skewed(times, 0.0, skew);
    assert CountIn([0.0], 0.0, width) == 1 && CountIn([width], 0.0, width) == 1;
    assert !Within(1, times, width, width);
  }

  function Zeros(n: nat): seq<real> { if n == 0 then [] else Zeros(n - 1) + [0.0] }

  /** As many calls as the limit, one that empties the window, and one that comes late. */
  function Disorder(limit: nat, skew: real, width: real): seq<real> { Zeros(limit) + [width + skew, width] }

  /** The late call is granted beside the first ones, of which the window knows nothing any more. */
  lemma DisorderBreaks(limit: nat, skew: real, width: real)
    requires limit >= 2 && 0.0 <= skew && 0.0 <= width && width > 60.0 - skew
    ensures Skewed(Disorder(limit, skew, width), 0.0, skew)
    ensures CountIn(Calls(FRESH, limit, Disorder(limit, skew, width)).grants, 0.0, width) > limit
    ensures !Holds(limit, skew, width)
  {
    var late := [width + skew, width];
    ZerosSkewed(limit, late, skew);
    assert late[1..] == [width] && [width][1..] == [];
    assert Skewed([width], width + skew, skew);
    CallsConcat(FRESH, limit, Zeros(limit), late);
    ZerosGranted(limit, limit);
    LateGranted(limit, skew, width);
    CountConcat(Zeros(limit), late, 0.0, width);
    CountZeros(limit, width);
    assert CountIn(late, 0.0, width) >= 1;
    assert !Within(limit, Disorder(limit, skew, width), width, width);
  }

  lemma {:induction false} ZerosSkewed(n: nat, rest: seq<real>, skew: real)
    requires 0.0 <= skew
    ensures Skewed(rest, 0.0, skew) ==> Skewed(Zeros(n) + rest, 0.0, skew)
  {
    if n == 0 {
      assert Zeros(n) + rest == rest;
    } else {
      ZerosFront(n);
      assert (Zeros(n) + rest)[1..] == Zeros(n - 1) + rest;
      ZerosSkewed(n - 1, rest, skew);
    }
  }

  lemma {:induction false} ZerosFront(n: nat)
    requires n > 0
    ensures Zeros(n) == [0.0] + Zeros(n - 1)
  {
    if n > 1 { ZerosFront(n - 1); }
  }

  lemma {:induction false} CallsConcat(h: History, limit: int, a: seq<real>, b: seq<real>)
    ensures Calls(h, limit, a + b) == Calls(Calls(h, limit, a), limit, b)
    decreases |a|
  {
    if a == [] {
      assert a + b == b;
    } else {
      assert (a + b)[0] == a[0] && (a + b)[1..] == a[1..] + b;
      CallsConcat(Called(h, limit, a[0]), limit, a[1..], b);
    }
  }

  lemma {:induction false} ZerosGranted(n: nat, limit: nat)
    requires n <= limit
    ensures Calls(FRESH, limit, Zeros(n)) == History(Zeros(n), Zeros(n)) && |Zeros(n)| == n
  {
    if n > 0 {
      ZerosGranted(n - 1, limit);
      CallsConcat(FRESH, limit, Zeros(n - 1), [0.0]);
      CallOnce(History(Zeros(n - 1), Zeros(n - 1)), limit, 0.0, []);
      ZerosRecent(n - 1, 0.0);
      assert [0.0] + [] == [0.0];
    }
  }

  lemma {:induction false} ZerosRecent(n: nat, now: real)
    ensures Recent(Zeros(n), now) == if now > 60.0 then [] else Zeros(n)
  {
    if n > 0 {
      ZerosFront(n);
      assert Zeros(n)[1..] == Zeros(n - 1);
      ZerosRecent(n - 1, now);
    }
  }

  lemma LateGranted(limit: nat, skew: real, width: real)
    requires limit >= 2 && 0.0 <= skew && width + skew > 60.0
    ensures Calls(History(Zeros(limit), Zeros(limit)), limit, [width + skew, width]).grants
         == Zeros(limit) + [width + skew, width]
  {
    var first := History(Zeros(limit), Zeros(limit));
    var second := History([width + skew], Zeros(limit) + [width + skew]);
    ZerosRecent(limit, width + skew);
    assert Called(first, limit, width + skew) == second;
    CallOnce(first, limit, width + skew, [width]);
    CallOnce(second, limit, width, []);
    assert [width + skew] + [width] == [width + skew, width] && [width] + [] == [width];
    assert Recent([width + skew], width) == [width + skew];
    assert Zeros(limit) + [width + skew] + [width] == Zeros(limit) + [width + skew, width];
  }

  lemma {:induction false} CountConcat(a: seq<real>, b: seq<real>, low: real, high: real)
    ensures CountIn(a + b, low, high) == CountIn(a, low, high) + CountIn(b, low, high)
  {
    if a == [] {
      assert a + b == b;
    } else {
      assert (a + b)[0] == a[0] && (a + b)[1..] == a[1..] + b;
      CountConcat(a[1..], b, low, high);
    }
  }

  lemma {:induction false} CountZeros(n: nat, high: real)
    requires 0.0 <= high
    ensures CountIn(Zeros(n), 0.0, high) == n
  {
    if n > 0 {
      CountZeros(n - 1, high);
      CountConcat(Zeros(n - 1), [0.0], 0.0, high);
    }
  }

  /* ---------- The advice to retry ---------- */

  /** Refusals in between leave the window as it was. */
  lemma {:induction false} RefusalsWait(h: History, limit: nat, last: real, times: seq<real>)
    requires limit >= 1 && |h.window| == limit && Ordered(times, last) && Calls(h, limit, times).grants == h.grants
    ensures Calls(h, limit, times).window == h.window
    decreases |times|
  {
    if times != [] {
      var v := Called(h, limit, times[0]);
      RecentIsSuffix(h.window, times[0]);
      GrantsGrow(v, limit, times[1..]);
      assert v.window == h.window;
      RefusalsWait(v, limit, times[0], times[1..]);
    }
  }

  lemma {:induction false} GrantsGrow(h: History, limit: nat, times: seq<real>)
    ensures |Calls(h, limit, times).grants| >= |h.grants|
    ensures |Calls(h, limit, times).grants| == |h.grants| ==> Calls(h, limit, times).grants == h.grants
    decreases |times|
  {
    if times != [] { GrantsGrow(Called(h, limit, times[0]), limit, times[1..]); }
  }

  /**
   * After a refusal, a call made `retryAfter` seconds later, with no grant in between, is granted; and a call made
   * a full second or more too early is refused again.
   */
  lemma RetryAdvice(h: History, limit: nat, last: real, now: real, between: seq<real>, later: real)
    requires limit >= 1 && Tracks(h, limit, last) && last <= now
    requires Decide(h.window, limit, now).Refused? && Ordered(between + [later], now)
    requires Calls(Called(h, limit, now), limit, between).grants == h.grants
    ensures var retryAfter := Decide(h.window, limit, now).retryAfter;
            var outcome := Decide(Calls(Called(h, limit, now), limit, between).window, limit, later);
            && retryAfter >= 1
            && (later >= now + retryAfter as real ==> outcome.Granted?)
            && (later <= now + (retryAfter - 1) as real ==> outcome.Refused?)
  {
    RecentIsSuffix(h.window, now);
    OrderedFront(between, later, now);
    RefusalsWait(Called(h, limit, now), limit, now, between);
    var window := Recent(h.window, now);
    assert Called(h, limit, now).window == window;
    RetryArithmetic(window[0], now, later);
    FullWindow(window, limit, later);
  }

  lemma RetryArithmetic(oldest: real, now: real, later: real)
    requires oldest >= now - 60.0
    ensures RetryAfter(oldest, now) >= 1
    ensures later >= now + RetryAfter(oldest, now) as real ==> oldest < later - 60.0
    ensures later <= now + (RetryAfter(oldest, now) - 1) as real ==> oldest >= later - 60.0
  {}

  /** A full window grants the next call exactly when its oldest entry has expired. */
  lemma FullWindow(window: seq<real>, limit: nat, now: real)
    requires limit >= 1 && |window| == limit
    ensures Decide(window, limit, now).Granted? <==> window[0] < now - 60.0
    ensures !Decide(window, limit, now).Granted? ==> Decide(window, limit, now).Refused?
  {
    if window[0] < now - 60.0 { RecentIsSuffix(window[1..], now); }
  }

  lemma {:induction false} OrderedFront(times: seq<real>, later: real, first: real)
    requires Ordered(times + [later], first)
    ensures Ordered(times, first) && first <= later
    decreases |times|
  {
    if times != [] {
      assert (times + [later])[1..] == times[1..] + [later];
      OrderedFront(times[1..], later, times[0]);
    }
  }

  /* ---------- Many keys share one limiter ---------- */

  function AfterAll(windows: Windows, calls: seq<Call>): Windows
    decreases |calls|
  {
    if calls == [] then windows else AfterAll(After(windows, calls[0]), calls[1..])
  }

  function TimesOf(calls: seq<Call>, key: Key): seq<real> {
    if calls == [] then [] else (if calls[0].key == key then [calls[0].now] else []) + TimesOf(calls[1..], key)
  }

  /** However calls are interleaved, each key has the window of its own history. */
  lemma {:induction false} KeysAreIndependent(windows: Windows, h: History, calls: seq<Call>, key: Key, limit: int)
    requires Window(windows, key) == h.window && forall c | c in calls && c.key == key :: c.limit == Some(limit)
    ensures Window(AfterAll(windows, calls), key) == Calls(h, limit, TimesOf(calls, key)).window
    decreases |calls|
  {
    if calls != [] {
      assert calls[0] in calls;
      var next := if calls[0].key == key then Called(h, limit, calls[0].now) else h;
      KeysAreIndependent(After(windows, calls[0]), next, calls[1..], key, limit);
      assert [] + TimesOf(calls[1..], key) == TimesOf(calls[1..], key);
      if calls[0].key == key { CallOnce(h, limit, calls[0].now, TimesOf(calls[1..], key)); }
    }
  }
}
