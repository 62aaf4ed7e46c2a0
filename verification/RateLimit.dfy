/**
 The in-memory sliding-window limiter. The pruned lists it keeps decide every call as
 the full history of allowed calls would.
 */
module RateLimit {
  import opened Wrappers

  const PER_IP_MINUTE_LIMIT := 5
  const PER_IP_HOUR_LIMIT := 20
  const GLOBAL_MINUTE_LIMIT := 30
  const EVENT_PER_IP_LIMIT := 60
  const EVENT_GLOBAL_LIMIT := 1000
  const MINUTE := 60_000
  const HOUR := 3_600_000

  type Ip = string

  /** An allowed call. */
  datatype Call = Call(ip: Ip, at: int)

  // ---------------------------------------------------------------- counting

  predicate Sorted(ts: seq<int>) {
    forall i, j | 0 <= i < j < |ts| :: ts[i] <= ts[j]
  }

  /** How many of the times lie after `cutoff`. */
  function Live(ts: seq<int>, cutoff: int): (n: nat)
    ensures n <= |ts|
  {
    if ts == [] then 0 else Live(ts[..|ts| - 1], cutoff) + if ts[|ts| - 1] > cutoff then 1 else 0
  }

  /** How many lie in the window that ends at `end`. */
  function InWindow(ts: seq<int>, window: nat, end: int): (n: nat)
  {
    if ts == [] then 0
    else InWindow(ts[..|ts| - 1], window, end) + if end - window < ts[|ts| - 1] <= end then 1 else 0
  }

  /** In ascending times, exactly the last `Live` ones are after the cutoff. */
  lemma {:induction false} LiveSplits(ts: seq<int>, cutoff: int)
    requires Sorted(ts)
    ensures forall i | 0 <= i < |ts| :: ts[i] > cutoff <==> i >= |ts| - Live(ts, cutoff)
  {
    if ts != [] {
      var init := ts[..|ts| - 1];
      LiveSplits(init, cutoff);
      forall i | 0 <= i < |ts| ensures ts[i] > cutoff <==> i >= |ts| - Live(ts, cutoff) {
        if i < |init| {
          assert init[i] == ts[i] && ts[i] <= ts[|ts| - 1];
          assert init[|init| - 1] == ts[|ts| - 2] && ts[|ts| - 2] <= ts[|ts| - 1];
        }
      }
    }
  }

  /** Fewer than `limit` are live exactly when the `limit`-th from the end has expired. */
  lemma LiveBelow(ts: seq<int>, cutoff: int, limit: nat)
    requires Sorted(ts) && 1 <= limit <= |ts|
    ensures Live(ts, cutoff) < limit <==> ts[|ts| - limit] <= cutoff
  {
    LiveSplits(ts, cutoff);
  }

  lemma {:induction false} LiveFalls(ts: seq<int>, cutoff: int, later: int)
    requires cutoff <= later
    ensures Live(ts, later) <= Live(ts, cutoff)
  {
    if ts != [] {
      LiveFalls(ts[..|ts| - 1], cutoff, later);
    }
  }

  // ---------------------------------------------------------------- stored lists

  /** `list` is the end of `times`, and whatever it lacks is not after `cutoff`. */
  predicate IsTail(list: seq<int>, times: seq<int>, cutoff: int) {
    && |list| <= |times| && (forall i | 0 <= i < |list| :: list[i] == times[|times| - |list| + i])
    && forall i | 0 <= i < |times| - |list| :: times[i] <= cutoff
  }

  /** A list that lost only expired times counts as the whole history does. */
  lemma TailCounts(list: seq<int>, times: seq<int>, cutoff: int, later: int)
    requires Sorted(times) && IsTail(list, times, cutoff) && cutoff <= later
    ensures Sorted(list) && Live(list, later) == Live(times, later)
  {
    var skipped := |times| - |list|;
    assert forall i | 0 <= i < |list| :: list[i] == times[skipped + i];
    LiveSplits(times, later);
    LiveSplits(list, later);
    var n, m := Live(times, later), Live(list, later);
    assert skipped > 0 ==> times[skipped - 1] <= later;
    assert n > 0 ==> (skipped <= |times| - n ==> list[|list| - n] == times[|times| - n]);
    assert m > 0 ==> list[|list| - m] == times[|times| - m];
  }

  lemma SuffixIsTail(list: seq<int>, times: seq<int>, cutoff: int, later: int, n: nat)
    requires IsTail(list, times, cutoff) && n <= |list|
    requires forall i | 0 <= i < |times| - n :: times[i] <= later
    ensures IsTail(list[|list| - n..], times, later)
  {
    var kept := list[|list| - n..];
    forall i | 0 <= i < n ensures kept[i] == times[|times| - n + i] {
      assert kept[i] == list[|list| - n + i];
    }
  }

  lemma ExpiredBelow(times: seq<int>, later: int)
    requires Sorted(times)
    ensures forall i | 0 <= i < |times| - Live(times, later) :: times[i] <= later
  {
    LiveSplits(times, later);
  }

  lemma PrunedTail(list: seq<int>, times: seq<int>, cutoff: int, later: int)
    requires Sorted(times) && IsTail(list, times, cutoff) && cutoff <= later
    ensures IsTail(list[|list| - Live(list, later)..], times, later)
    ensures |list[|list| - Live(list, later)..]| == Live(times, later)
  {
    TailCounts(list, times, cutoff, later);
    ExpiredBelow(times, later);
    SuffixIsTail(list, times, cutoff, later, Live(list, later));
  }

  lemma LongerTail(list: seq<int>, times: seq<int>, cutoff: int, at: int)
    requires IsTail(list, times, cutoff)
    ensures IsTail(list + [at], times + [at], cutoff)
  {
    assert (times + [at])[|times| - |list|..] == times[|times| - |list|..] + [at];
  }

  /** Drops the times at or before the cutoff from the front. */
  method PruneBefore(timestamps: seq<int>, cutoff: int) returns (live: seq<int>)
    requires Sorted(timestamps)
    ensures live == timestamps[|timestamps| - Live(timestamps, cutoff)..]
  {
    var firstLive := 0;
    while firstLive < |timestamps| && timestamps[firstLive] <= cutoff
      invariant firstLive <= |timestamps|
      invariant forall i | 0 <= i < firstLive :: timestamps[i] <= cutoff
    {
      firstLive := firstLive + 1;
    }
    LiveSplits(timestamps, cutoff);
    var n := Live(timestamps, cutoff);
    assert firstLive < |timestamps| ==> timestamps[firstLive] > cutoff;
    assert firstLive > 0 ==> timestamps[firstLive - 1] <= cutoff;
    live := timestamps[firstLive..];
  }

  // ---------------------------------------------------------------- waiting

  function Max(a: int, b: int): int {
    if a < b then b else a
  }

  /** `Math.max(1, Math.ceil(ms / 1000))` */
  function WholeSeconds(ms: int): int {
    Max(1, (ms + 999) / 1000)
  }

  function RetryAfterFor(timestamps: seq<int>, limit: nat, window: nat, now: int): int
    requires 1 <= limit <= |timestamps|
  {
    WholeSeconds(timestamps[|timestamps| - limit] + window - now)
  }

  lemma SecondsCover(ms: int, s: int)
    requires s >= 1
    ensures 1000 * s >= ms <==> s >= WholeSeconds(ms)
  {
  }

  /**
   The wait given for a full window is exact: after `s` whole seconds without another
   call the window has room if and only if `s` is at least that wait.
   */
  lemma RetryIsExact(times: seq<int>, limit: nat, window: nat, now: int, s: int)
    requires Sorted(times) && 1 <= limit <= Live(times, now - window) && s >= 1
    ensures Live(times, now + 1000 * s - window) < limit
       <==> s >= RetryAfterFor(times, limit, window, now)
  {
    LiveBelow(times, now + 1000 * s - window, limit);
    SecondsCover(times[|times| - limit] + window - now, s);
  }

  // ---------------------------------------------------------------- the specification over the full history

  function Times(history: seq<Call>, ip: Ip): seq<int> {
    if history == [] then []
    else
      var last := history[|history| - 1];
      Times(history[..|history| - 1], ip) + if last.ip == ip then [last.at] else []
  }

  function AllTimes(history: seq<Call>): seq<int> {
    if history == [] then []
    else AllTimes(history[..|history| - 1]) + [history[|history| - 1].at]
  }

  /** Three windows have room for one more call. */
  predicate Admits(history: seq<Call>, ip: Ip, now: int) {
    && Live(Times(history, ip), now - MINUTE) < PER_IP_MINUTE_LIMIT
    && Live(Times(history, ip), now - HOUR) < PER_IP_HOUR_LIMIT
    && Live(AllTimes(history), now - MINUTE) < GLOBAL_MINUTE_LIMIT
  }

  predicate InOrder(history: seq<Call>) {
    forall i, j | 0 <= i < j < |history| :: history[i].at <= history[j].at
  }

  /** Every call was admitted by the calls before it. */
  predicate AllAdmitted(history: seq<Call>) {
    history != [] ==>
      var init, last := history[..|history| - 1], history[|history| - 1];
      AllAdmitted(init) && Admits(init, last.ip, last.at)
  }

  predicate NotAfter(ts: seq<int>, clock: int) {
    forall i | 0 <= i < |ts| :: ts[i] <= clock
  }

  lemma {:induction false} TimesAreSorted(history: seq<Call>, ip: Ip)
    requires InOrder(history)
    ensures Sorted(AllTimes(history)) && Sorted(Times(history, ip))
    ensures history != [] ==> NotAfter(AllTimes(history), history[|history| - 1].at)
    ensures history != [] ==> NotAfter(Times(history, ip), history[|history| - 1].at)
  {
    if history != [] {
      var init := history[..|history| - 1];
      TimesAreSorted(init, ip);
      assert init != [] ==> init[|init| - 1].at <= history[|history| - 1].at;
    }
  }

  lemma WindowIsLive(ts: seq<int>, window: nat, at: int, end: int)
    requires at <= end
    ensures InWindow(ts, window, end) <= Live(ts, at - window)
  {
    if ts != [] {
      WindowIsLive(ts[..|ts| - 1], window, at, end);
    }
  }

  /** A call admitted at `at` leaves every window within its limit. */
  lemma AdmittedStays(ts: seq<int>, limit: nat, window: nat, end: int, at: int)
    requires InWindow(ts, window, end) <= limit && Live(ts, at - window) < limit
    ensures InWindow(ts + [at], window, end) <= limit
  {
    assert (ts + [at])[..|ts|] == ts;
    if at <= end {
      WindowIsLive(ts, window, at, end);
    }
  }

  /** The allowed calls of one address after `from`, up to `to`. */
  function CallsWithin(history: seq<Call>, ip: Ip, from: int, to: int): set<nat> {
    set i: nat | i < |history| && history[i].ip == ip && from < history[i].at <= to
  }

  function AllWithinTime(history: seq<Call>, from: int, to: int): set<nat> {
    set i: nat | i < |history| && from < history[i].at <= to
  }

  lemma CallsWithinGrow(init: seq<Call>, last: Call, ip: Ip, from: int, to: int)
    ensures CallsWithin(init + [last], ip, from, to)
         == CallsWithin(init, ip, from, to) + if last.ip == ip && from < last.at <= to then {|init|} else {}
  {
    var history := init + [last];
    forall i: nat ensures i in CallsWithin(history, ip, from, to)
                     <==> i in CallsWithin(init, ip, from, to)
                          || (i == |init| && last.ip == ip && from < last.at <= to)
    {
      assert i < |init| ==> history[i] == init[i];
    }
  }

  lemma AllWithinGrow(init: seq<Call>, last: Call, from: int, to: int)
    ensures AllWithinTime(init + [last], from, to)
         == AllWithinTime(init, from, to) + if from < last.at <= to then {|init|} else {}
  {
    var history := init + [last];
    forall i: nat ensures i in AllWithinTime(history, from, to)
                     <==> i in AllWithinTime(init, from, to) || (i == |init| && from < last.at <= to)
    {
      assert i < |init| ==> history[i] == init[i];
    }
  }

  lemma OneMoreWithin(init: seq<Call>, last: Call, ip: Ip, from: int, to: int)
    ensures |CallsWithin(init + [last], ip, from, to)|
         == |CallsWithin(init, ip, from, to)| + if last.ip == ip && from < last.at <= to then 1 else 0
    ensures |AllWithinTime(init + [last], from, to)|
         == |AllWithinTime(init, from, to)| + if from < last.at <= to then 1 else 0
  {
    CallsWithinGrow(init, last, ip, from, to);
    AllWithinGrow(init, last, from, to);
    assert |init| !in CallsWithin(init, ip, from, to) && |init| !in AllWithinTime(init, from, to);
  }

  lemma WindowOneMore(ts: seq<int>, window: nat, end: int, at: int)
    ensures InWindow(ts + [at], window, end) == InWindow(ts, window, end) + (if end - window < at <= end then 1 else 0)
    ensures ts + [] == ts
  {
    assert (ts + [at])[..|ts|] == ts;
  }

  lemma {:induction false} WindowCounts(history: seq<Call>, ip: Ip, window: nat, end: int)
    ensures InWindow(Times(history, ip), window, end) == |CallsWithin(history, ip, end - window, end)|
    ensures InWindow(AllTimes(history), window, end) == |AllWithinTime(history, end - window, end)|
  {
    if history == [] {
      assert CallsWithin(history, ip, end - window, end) == {} && AllWithinTime(history, end - window, end) == {};
    } else {
      var init, last := history[..|history| - 1], history[|history| - 1];
      WindowCounts(init, ip, window, end);
      assert history == init + [last];
      WindowCountsMore(init, last, ip, window, end);
    }
  }

  lemma WindowCountsMore(init: seq<Call>, last: Call, ip: Ip, window: nat, end: int)
    requires InWindow(Times(init, ip), window, end) == |CallsWithin(init, ip, end - window, end)|
    requires InWindow(AllTimes(init), window, end) == |AllWithinTime(init, end - window, end)|
    ensures InWindow(Times(init + [last], ip), window, end) == |CallsWithin(init + [last], ip, end - window, end)|
    ensures InWindow(AllTimes(init + [last]), window, end) == |AllWithinTime(init + [last], end - window, end)|
  {
    assert (init + [last])[..|init|] == init;
    OneMoreWithin(init, last, ip, end - window, end);
    WindowOneMore(Times(init, ip), window, end, last.at);
    WindowOneMore(AllTimes(init), window, end, last.at);
  }

  /** No sliding minute of all calls, wherever it ends, ever holds more than thirty. */
  lemma NoGlobalWindowExceeds(history: seq<Call>, end: int)
    requires AllAdmitted(history)
    ensures |AllWithinTime(history, end - 60_000, end)| <= 30
  {
    GlobalWindowHolds(history, end);
    WindowCounts(history, "", MINUTE, end);
  }

  lemma {:induction false} GlobalWindowHolds(history: seq<Call>, end: int)
    requires AllAdmitted(history)
    ensures InWindow(AllTimes(history), MINUTE, end) <= GLOBAL_MINUTE_LIMIT
  {
    if history != [] {
      var init, last := history[..|history| - 1], history[|history| - 1];
      GlobalWindowHolds(init, end);
      AdmittedStays(AllTimes(init), GLOBAL_MINUTE_LIMIT, MINUTE, end, last.at);
    }
  }

  /** Nor does any minute of one address hold more than five, or any hour more than twenty. */
  lemma NoWindowExceeds(history: seq<Call>, ip: Ip, end: int)
    requires AllAdmitted(history)
    ensures |CallsWithin(history, ip, end - 60_000, end)| <= 5
    ensures |CallsWithin(history, ip, end - 3_600_000, end)| <= 20
  {
    WindowHolds(history, ip, end);
    WindowCounts(history, ip, MINUTE, end);
    WindowCounts(history, ip, HOUR, end);
  }

  lemma {:induction false} WindowHolds(history: seq<Call>, ip: Ip, end: int)
    requires AllAdmitted(history)
    ensures InWindow(Times(history, ip), MINUTE, end) <= PER_IP_MINUTE_LIMIT
    ensures InWindow(Times(history, ip), HOUR, end) <= PER_IP_HOUR_LIMIT
  {
    if history != [] {
      var init, last := history[..|history| - 1], history[|history| - 1];
      WindowHolds(init, ip, end);
      if last.ip == ip {
        AdmittedStays(Times(init, ip), PER_IP_MINUTE_LIMIT, MINUTE, end, last.at);
        AdmittedStays(Times(init, ip), PER_IP_HOUR_LIMIT, HOUR, end, last.at);
      } else {
        assert Times(history, ip) == Times(init, ip);
      }
    }
  }

  // ---------------------------------------------------------------- the returned wait

  datatype Window = Window(times: seq<int>, limit: nat, length: nat)

  predicate IsFull(w: Window, now: int) {
    Live(w.times, now - w.length) >= w.limit
  }

  function MinuteOf(history: seq<Call>, ip: Ip): Window {
    Window(Times(history, ip), PER_IP_MINUTE_LIMIT, MINUTE)
  }

  function HourOf(history: seq<Call>, ip: Ip): Window {
    Window(Times(history, ip), PER_IP_HOUR_LIMIT, HOUR)
  }

  function GlobalOf(history: seq<Call>): Window {
    Window(AllTimes(history), GLOBAL_MINUTE_LIMIT, MINUTE)
  }

  /** The wait of a window, if it is full. */
  function WaitOf(w: Window, now: int): (wait: seq<int>)
    requires w.limit >= 1
    ensures forall s | s in wait :: s >= 1
  {
    if IsFull(w, now) then [RetryAfterFor(w.times, w.limit, w.length, now)] else []
  }

  function Waits(history: seq<Call>, ip: Ip, now: int): (waits: seq<int>)
    ensures forall s | s in waits :: s >= 1
  {
    WaitOf(MinuteOf(history, ip), now) + WaitOf(HourOf(history, ip), now) + WaitOf(GlobalOf(history), now)
  }

  function Least(waits: seq<int>): (least: int)
    requires waits != []
    ensures least in waits && forall s | s in waits :: least <= s
  {
    if |waits| == 1 then waits[0]
    else
      var rest := Least(waits[1..]);
      assert waits == [waits[0]] + waits[1..];
      if rest < waits[0] then rest else waits[0]
  }

  predicate AllWithin(waits: seq<int>, s: int) {
    forall x | x in waits :: x <= s
  }

  predicate AllSame(waits: seq<int>) {
    forall s, t | s in waits && t in waits :: s == t
  }

  lemma RoomAfter(w: Window, now: int, s: int)
    requires Sorted(w.times) && w.limit >= 1 && s >= 1
    ensures !IsFull(w, now + 1000 * s) <==> AllWithin(WaitOf(w, now), s)
  {
    if IsFull(w, now) {
      RetryIsExact(w.times, w.limit, w.length, now, s);
      assert WaitOf(w, now)[0] in WaitOf(w, now);
    } else {
      LiveFalls(w.times, now - w.length, now + 1000 * s - w.length);
    }
  }

  lemma WithinParts(a: seq<int>, b: seq<int>, c: seq<int>, s: int)
    ensures AllWithin(a + b + c, s) <==> AllWithin(a, s) && AllWithin(b, s) && AllWithin(c, s)
  {
    assert forall x | x in a :: x in a + b + c;
    assert forall x | x in b :: x in a + b + c;
    assert forall x | x in c :: x in a + b + c;
  }

  lemma AdmitsIsRoom(history: seq<Call>, ip: Ip, t: int)
    ensures Admits(history, ip, t)
       <==> !IsFull(MinuteOf(history, ip), t) && !IsFull(HourOf(history, ip), t) && !IsFull(GlobalOf(history), t)
  {
  }

  lemma RoomInAllAfter(minute: Window, hour: Window, global: Window, now: int, s: int)
    requires Sorted(minute.times) && Sorted(hour.times) && Sorted(global.times)
    requires minute.limit >= 1 && hour.limit >= 1 && global.limit >= 1 && s >= 1
    ensures !IsFull(minute, now + 1000 * s) && !IsFull(hour, now + 1000 * s) && !IsFull(global, now + 1000 * s)
       <==> AllWithin(WaitOf(minute, now) + WaitOf(hour, now) + WaitOf(global, now), s)
  {
    RoomAfter(minute, now, s);
    RoomAfter(hour, now, s);
    RoomAfter(global, now, s);
    WithinParts(WaitOf(minute, now), WaitOf(hour, now), WaitOf(global, now), s);
  }

  /** After `s` seconds without an allowed call, the caller is admitted once every full window's wait is over. */
  lemma AdmittedAfter(history: seq<Call>, ip: Ip, now: int, s: int)
    requires InOrder(history) && s >= 1
    ensures Admits(history, ip, now + 1000 * s) <==> AllWithin(Waits(history, ip, now), s)
  {
    TimesAreSorted(history, ip);
    RoomInAllAfter(MinuteOf(history, ip), HourOf(history, ip), GlobalOf(history), now, s);
    AdmitsIsRoom(history, ip, now + 1000 * s);
  }

  lemma LeastIsAll(waits: seq<int>, admitted: bool)
    requires waits != [] && (admitted <==> AllWithin(waits, Least(waits)))
    ensures admitted <==> AllSame(waits)
  {
  }

  lemma AdmittedAfterLeast(history: seq<Call>, ip: Ip, now: int, waits: seq<int>, s: int)
    requires InOrder(history) && waits == Waits(history, ip, now) && s in waits
    ensures Admits(history, ip, now + 1000 * s) <==> AllWithin(waits, s)
  {
    AdmittedAfter(history, ip, now, s);
  }

  lemma WaitsIffDenied(history: seq<Call>, ip: Ip, now: int)
    ensures Waits(history, ip, now) == [] <==> Admits(history, ip, now)
  {
  }

  /**
   When the returned wait is right: if no call is allowed in between, the denied caller
   is admitted after exactly the returned seconds if and only if all full windows have
   the same wait. With one full window that is always so; with several it may not be,
   and then the hint is too short.
   */
  lemma ReturnedWaitSuffices(history: seq<Call>, ip: Ip, now: int)
    requires InOrder(history) && Waits(history, ip, now) != []
    ensures Admits(history, ip, now + 1000 * Least(Waits(history, ip, now))) <==> AllSame(Waits(history, ip, now))
  {
    var waits := Waits(history, ip, now);
    AdmittedAfterLeast(history, ip, now, waits, Least(waits));
    LeastIsAll(waits, Admits(history, ip, now + 1000 * Least(waits)));
  }

  /** It is never too long: no earlier whole second would do. */
  lemma ReturnedWaitIsNeeded(history: seq<Call>, ip: Ip, now: int, s: int)
    requires InOrder(history) && Waits(history, ip, now) != []
    requires 1 <= s < Least(Waits(history, ip, now))
    ensures !Admits(history, ip, now + 1000 * s)
  {
    AdmittedAfter(history, ip, now, s);
  }

  /** The failing family: an address whose hour is full, and whose minute is full for a shorter time. */
  lemma ShortHint(history: seq<Call>, ip: Ip, now: int)
    requires InOrder(history) && IsFull(MinuteOf(history, ip), now) && IsFull(HourOf(history, ip), now)
    requires WaitOf(MinuteOf(history, ip), now)[0] < WaitOf(HourOf(history, ip), now)[0]
    ensures Waits(history, ip, now) != [] && !Admits(history, ip, now + 1000 * Least(Waits(history, ip, now)))
  {
    var waits := Waits(history, ip, now);
    assert waits[0] == WaitOf(MinuteOf(history, ip), now)[0] && waits[1] == WaitOf(HourOf(history, ip), now)[0];
    assert waits[0] in waits && waits[1] in waits;
    ReturnedWaitSuffices(history, ip, now);
  }

  // An address that the limiter itself lets through, five calls a minute, four times.

  function BusyTime(i: nat): int {
    60_001 * (i / 5)
  }

  function BusyTimes(n: nat): (ts: seq<int>)
    ensures |ts| == n && forall i | 0 <= i < n :: ts[i] == BusyTime(i)
  {
    if n == 0 then [] else BusyTimes(n - 1) + [BusyTime(n - 1)]
  }

  function BusyHour(ip: Ip, n: nat): (history: seq<Call>)
    ensures |history| == n
  {
    if n == 0 then [] else BusyHour(ip, n - 1) + [Call(ip, BusyTime(n - 1))]
  }

  lemma TimesOfLast(history: seq<Call>, call: Call)
    ensures Times(history + [call], call.ip) == Times(history, call.ip) + [call.at]
    ensures AllTimes(history + [call]) == AllTimes(history) + [call.at]
  {
    assert (history + [call])[..|history|] == history;
  }

  lemma BusyTimeGrows(i: nat, j: nat)
    requires i <= j
    ensures BusyTime(i) <= BusyTime(j) && BusyTime(i + 5) == BusyTime(i) + 60_001
  {
  }

  lemma {:induction false} BusyHourTimes(ip: Ip, n: nat)
    ensures Times(BusyHour(ip, n), ip) == BusyTimes(n) && AllTimes(BusyHour(ip, n)) == BusyTimes(n)
  {
    if n > 0 {
      BusyHourTimes(ip, n - 1);
      TimesOfLast(BusyHour(ip, n - 1), Call(ip, BusyTime(n - 1)));
    }
  }

  lemma {:induction false} BusyHourIsInOrder(ip: Ip, n: nat)
    ensures InOrderUpTo(BusyHour(ip, n), BusyTime(n))
  {
    if n > 0 {
      var before, call := BusyHour(ip, n - 1), Call(ip, BusyTime(n - 1));
      BusyHourIsInOrder(ip, n - 1);
      LastInOrder(before, call);
      BusyTimeGrows(n - 1, n);
      LaterInOrder(before + [call], call.at, BusyTime(n));
    }
  }

  lemma LaterInOrder(history: seq<Call>, clock: int, later: int)
    requires InOrderUpTo(history, clock) && clock <= later
    ensures InOrderUpTo(history, later)
  {
  }

  lemma BusyTimesAreSorted(ts: seq<int>)
    requires forall i | 0 <= i < |ts| :: ts[i] == BusyTime(i)
    ensures Sorted(ts)
  {
    forall i, j | 0 <= i < j < |ts| ensures ts[i] <= ts[j] {
      BusyTimeGrows(i, j);
    }
  }

  /** The fifth call before is always more than a minute ago. */
  lemma MinuteHasRoom(ts: seq<int>, n: nat)
    requires |ts| == n && forall i | 0 <= i < n :: ts[i] == BusyTime(i)
    ensures Live(ts, BusyTime(n) - MINUTE) < PER_IP_MINUTE_LIMIT
  {
    if n >= PER_IP_MINUTE_LIMIT {
      BusyTimesAreSorted(ts);
      BusyTimeGrows(n - 5, n);
      LiveBelow(ts, BusyTime(n) - MINUTE, PER_IP_MINUTE_LIMIT);
    }
  }

  lemma RoomAdmits(history: seq<Call>, ip: Ip, ts: seq<int>, now: int)
    requires Times(history, ip) == ts && AllTimes(history) == ts && |ts| < PER_IP_HOUR_LIMIT
    requires Live(ts, now - MINUTE) < PER_IP_MINUTE_LIMIT
    ensures Admits(history, ip, now)
  {
  }

  lemma BusyCallIsAdmitted(ip: Ip, n: nat)
    requires n < PER_IP_HOUR_LIMIT
    ensures Admits(BusyHour(ip, n), ip, BusyTime(n))
  {
    BusyHourTimes(ip, n);
    NextIsAdmitted(BusyHour(ip, n), ip, BusyTimes(n), n);
  }

  lemma NextIsAdmitted(history: seq<Call>, ip: Ip, ts: seq<int>, n: nat)
    requires Times(history, ip) == ts && AllTimes(history) == ts
    requires |ts| == n && n < PER_IP_HOUR_LIMIT && forall i | 0 <= i < n :: ts[i] == BusyTime(i)
    ensures Admits(history, ip, BusyTime(n))
  {
    MinuteHasRoom(ts, n);
    RoomAdmits(history, ip, ts, BusyTime(n));
  }

  lemma {:induction false} BusyHourIsAdmitted(ip: Ip, n: nat)
    requires n <= PER_IP_HOUR_LIMIT
    ensures AllAdmitted(BusyHour(ip, n))
  {
    if n > 0 {
      BusyHourIsAdmitted(ip, n - 1);
      BusyCallIsAdmitted(ip, n - 1);
      AdmittedLast(BusyHour(ip, n - 1), Call(ip, BusyTime(n - 1)));
    }
  }

  lemma BusyWaits(ts: seq<int>, now: int)
    requires |ts| == 20 && (forall i | 0 <= i < 20 :: ts[i] == BusyTime(i)) && now == 180_004
    ensures WaitOf(Window(ts, PER_IP_MINUTE_LIMIT, MINUTE), now) == [60]
    ensures WaitOf(Window(ts, PER_IP_HOUR_LIMIT, HOUR), now) == [3420]
    ensures WaitOf(Window(ts, GLOBAL_MINUTE_LIMIT, MINUTE), now) == []
  {
    BusyTimesAreSorted(ts);
    assert ts[15] == 180_003 && ts[0] == 0;
    LiveBelow(ts, now - MINUTE, PER_IP_MINUTE_LIMIT);
    LiveBelow(ts, now - HOUR, PER_IP_HOUR_LIMIT);
  }

  lemma TwoWaits(short: int, long: int, s: int)
    requires short < long
    ensures AllWithin([short, long], s) <==> long <= s
    ensures Least([short, long]) == short && [short] + [long] + [] == [short, long]
  {
    var waits := [short, long];
    assert waits[0] in waits && waits[1] in waits;
    assert waits[1..] == [long] && Least([long]) == long;
  }

  /**
   And it does happen: after five calls let through at each of 0, 60001, 120002 and 180003
   milliseconds, a call a millisecond later is told to wait 60 seconds, and is denied for 3420.
   */
  lemma ShortHintHappens(ip: Ip, s: int)
    requires s >= 1
    ensures AllAdmitted(BusyHour(ip, 20)) && InOrder(BusyHour(ip, 20))
    ensures Waits(BusyHour(ip, 20), ip, 180_004) == [60, 3420] && Least([60, 3420]) == 60
    ensures Admits(BusyHour(ip, 20), ip, 180_004 + 1000 * s) <==> s >= 3420
  {
    BusyHourIsAdmitted(ip, 20);
    BusyHourTimes(ip, 20);
    BusyHourIsInOrder(ip, 20);
    BusyWaits(BusyTimes(20), 180_004);
    TwoWaits(60, 3420, s);
    AdmittedAfter(BusyHour(ip, 20), ip, 180_004, s);
  }

  // ---------------------------------------------------------------- counting the calls themselves

  /** The allowed calls of one address after a moment. */
  function CallsSince(history: seq<Call>, ip: Ip, moment: int): set<nat> {
    set i: nat | i < |history| && history[i].ip == ip && history[i].at > moment
  }

  function AllSince(history: seq<Call>, moment: int): set<nat> {
    set i: nat | i < |history| && history[i].at > moment
  }

  lemma CallsGrow(init: seq<Call>, last: Call, ip: Ip, moment: int)
    ensures CallsSince(init + [last], ip, moment)
         == CallsSince(init, ip, moment) + if last.ip == ip && last.at > moment then {|init|} else {}
  {
    var history := init + [last];
    forall i: nat ensures i in CallsSince(history, ip, moment)
                     <==> i in CallsSince(init, ip, moment)
                          || (i == |init| && last.ip == ip && last.at > moment)
    {
      assert i < |init| ==> history[i] == init[i];
    }
  }

  lemma AllGrow(init: seq<Call>, last: Call, moment: int)
    ensures AllSince(init + [last], moment)
         == AllSince(init, moment) + if last.at > moment then {|init|} else {}
  {
    var history := init + [last];
    forall i: nat ensures i in AllSince(history, moment)
                     <==> i in AllSince(init, moment) || (i == |init| && last.at > moment)
    {
      assert i < |init| ==> history[i] == init[i];
    }
  }

  lemma OneMoreSince(init: seq<Call>, last: Call, ip: Ip, moment: int)
    ensures |CallsSince(init + [last], ip, moment)|
         == |CallsSince(init, ip, moment)| + if last.ip == ip && last.at > moment then 1 else 0
    ensures |AllSince(init + [last], moment)| == |AllSince(init, moment)| + if last.at > moment then 1 else 0
  {
    CallsGrow(init, last, ip, moment);
    AllGrow(init, last, moment);
    assert |init| !in CallsSince(init, ip, moment) && |init| !in AllSince(init, moment);
  }

  lemma {:induction false} LiveCounts(history: seq<Call>, ip: Ip, moment: int)
    ensures Live(Times(history, ip), moment) == |CallsSince(history, ip, moment)|
    ensures Live(AllTimes(history), moment) == |AllSince(history, moment)|
  {
    if history != [] {
      var init, last := history[..|history| - 1], history[|history| - 1];
      LiveCounts(init, ip, moment);
      OneMoreSince(init, last, ip, moment);
      assert history == init + [last];
      LiveOneMore(Times(init, ip), last.at, moment);
      LiveOneMore(AllTimes(init), last.at, moment);
    } else {
      assert CallsSince(history, ip, moment) == {} && AllSince(history, moment) == {};
    }
  }

  lemma LiveOneMore(ts: seq<int>, at: int, moment: int)
    ensures Live(ts + [at], moment) == Live(ts, moment) + (if at > moment then 1 else 0) && ts + [] == ts
  {
    assert (ts + [at])[..|ts|] == ts;
  }

  /** Fewer than 5 calls of this address in the last minute, 20 in the last hour, and 30 of all in the last minute. */
  predicate HasRoom(history: seq<Call>, ip: Ip, now: int) {
    && |CallsSince(history, ip, now - 60_000)| < 5
    && |CallsSince(history, ip, now - 3_600_000)| < 20
    && |AllSince(history, now - 60_000)| < 30
  }

  lemma AdmitsIff(history: seq<Call>, ip: Ip, now: int)
    ensures Admits(history, ip, now) <==> HasRoom(history, ip, now)
  {
    LiveCounts(history, ip, now - MINUTE);
    LiveCounts(history, ip, now - HOUR);
  }

  /** Some limit that is reached at `now` is not reached `s` seconds later, if nothing is let through meanwhile. */
  predicate Opens(history: seq<Call>, ip: Ip, now: int, s: int) {
    var later := now + 1000 * s;
    || (|CallsSince(history, ip, now - 60_000)| >= 5 && |CallsSince(history, ip, later - 60_000)| < 5)
    || (|CallsSince(history, ip, now - 3_600_000)| >= 20 && |CallsSince(history, ip, later - 3_600_000)| < 20)
    || (|AllSince(history, now - 60_000)| >= 30 && |AllSince(history, later - 60_000)| < 30)
  }

  predicate WindowOpens(w: Window, now: int, s: int) {
    IsFull(w, now) && !IsFull(w, now + 1000 * s)
  }

  lemma OpensIff(history: seq<Call>, ip: Ip, now: int, s: int)
    ensures Opens(history, ip, now, s)
       <==> || WindowOpens(MinuteOf(history, ip), now, s) || WindowOpens(HourOf(history, ip), now, s)
            || WindowOpens(GlobalOf(history), now, s)
  {
    LiveCounts(history, ip, now - MINUTE);
    LiveCounts(history, ip, now - HOUR);
    LiveCounts(history, ip, now + 1000 * s - MINUTE);
    LiveCounts(history, ip, now + 1000 * s - HOUR);
  }

  lemma WindowOpensIff(w: Window, now: int, s: int)
    requires Sorted(w.times) && w.limit >= 1 && s >= 1
    ensures WindowOpens(w, now, s) <==> exists x :: x in WaitOf(w, now) && x <= s
  {
    if IsFull(w, now) {
      RoomAfter(w, now, s);
      assert WaitOf(w, now)[0] in WaitOf(w, now);
    }
  }

  lemma SomeWithin(a: seq<int>, b: seq<int>, c: seq<int>, s: int)
    requires a + b + c != []
    ensures Least(a + b + c) <= s
       <==> || (exists x :: x in a && x <= s) || (exists x :: x in b && x <= s) || (exists x :: x in c && x <= s)
  {
    var all := a + b + c;
    assert forall x :: x in all <==> x in a || x in b || x in c;
  }

  /** The returned hint is the first whole second at which some reached limit is not reached any more. */
  lemma HintIsFirstOpening(history: seq<Call>, ip: Ip, now: int, s: int)
    requires InOrder(history) && Waits(history, ip, now) != [] && s >= 1
    ensures Opens(history, ip, now, s) <==> s >= Least(Waits(history, ip, now))
  {
    TimesAreSorted(history, ip);
    OpensIff(history, ip, now, s);
    WindowOpensIff(MinuteOf(history, ip), now, s);
    WindowOpensIff(HourOf(history, ip), now, s);
    WindowOpensIff(GlobalOf(history), now, s);
    SomeWithin(WaitOf(MinuteOf(history, ip), now), WaitOf(HourOf(history, ip), now), WaitOf(GlobalOf(history), now), s);
  }

  /** A hint as the calls themselves give it: nothing opens before it, and something then. */
  ghost predicate IsHint(history: seq<Call>, ip: Ip, now: int, hint: int) {
    hint >= 1 && Opens(history, ip, now, hint) && forall s | 1 <= s < hint :: !Opens(history, ip, now, s)
  }

  lemma LeastIsHint(history: seq<Call>, ip: Ip, now: int)
    requires InOrder(history) && Waits(history, ip, now) != []
    ensures IsHint(history, ip, now, Least(Waits(history, ip, now)))
  {
    var hint := Least(Waits(history, ip, now));
    HintIsFirstOpening(history, ip, now, hint);
    forall s | 1 <= s < hint ensures !Opens(history, ip, now, s) {
      HintIsFirstOpening(history, ip, now, s);
    }
  }

  /** Fewer than 60 events of this address in the last minute, and fewer than 1000 of all. */
  predicate HasEventRoom(history: seq<Call>, ip: Ip, now: int) {
    |CallsSince(history, ip, now - 60_000)| < 60 && |AllSince(history, now - 60_000)| < 1000
  }

  lemma AdmitsEventIff(history: seq<Call>, ip: Ip, now: int)
    ensures AdmitsEvent(history, ip, now) <==> HasEventRoom(history, ip, now)
  {
    LiveCounts(history, ip, now - MINUTE);
  }

  // ---------------------------------------------------------------- the limiter

  datatype Answer = Allowed | Denied(retryAfterSeconds: int)

  function ListOf(perIp: map<Ip, seq<int>>, ip: Ip): seq<int> {
    if ip in perIp then perIp[ip] else []
  }

  predicate ListFits(perIp: map<Ip, seq<int>>, history: seq<Call>, cutoff: int, ip: Ip) {
    IsTail(ListOf(perIp, ip), Times(history, ip), cutoff)
  }

  /** Each address's list ends its calls, and lacks none later than `cutoff`. */
  ghost predicate StoresEach(perIp: map<Ip, seq<int>>, history: seq<Call>, cutoff: int) {
    forall ip :: ListFits(perIp, history, cutoff, ip)
  }

  /** The lists stored for each address and for all, against the history of the last `ipWindow` and minute. */
  ghost predicate Stores(perIp: map<Ip, seq<int>>, global: seq<int>, history: seq<Call>, clock: int, ipWindow: nat) {
    IsTail(global, AllTimes(history), clock - MINUTE) && StoresEach(perIp, history, clock - ipWindow)
  }

  lemma EmptyIsTidy(clock: int, ipWindow: nat)
    ensures InOrderUpTo([], clock) && Stores(map[], [], [], clock, ipWindow)
  {
  }

  lemma LaterTail(list: seq<int>, times: seq<int>, cutoff: int, later: int)
    requires IsTail(list, times, cutoff) && cutoff <= later
    ensures IsTail(list, times, later)
  {
  }

  predicate SameElsewhere(perIp: map<Ip, seq<int>>, perIp': map<Ip, seq<int>>, ip: Ip) {
    (forall x | x in perIp && x != ip :: x in perIp' && perIp'[x] == perIp[x])
    && forall x | x in perIp' && x != ip :: x in perIp
  }

  lemma EachAfterPrune(perIp: map<Ip, seq<int>>, perIp': map<Ip, seq<int>>, history: seq<Call>, cutoff: int,
                       later: int, ip: Ip, list: seq<int>)
    requires StoresEach(perIp, history, cutoff) && cutoff <= later && SameElsewhere(perIp, perIp', ip)
    requires ListOf(perIp', ip) == list && IsTail(list, Times(history, ip), later)
    ensures StoresEach(perIp', history, later)
  {
    forall x ensures ListFits(perIp', history, later, x) {
      assert ListFits(perIp, history, cutoff, x);
      if x != ip {
        assert ListOf(perIp', x) == ListOf(perIp, x);
        LaterTail(ListOf(perIp, x), Times(history, x), cutoff, later);
      }
    }
  }

  /** After a pruning only the pruned lists are stored, which no later call can tell from the unpruned ones. */
  lemma PrunedStores(perIp: map<Ip, seq<int>>, global: seq<int>, history: seq<Call>, clock: int, ipWindow: nat,
                     now: int, ip: Ip, list: seq<int>, global': seq<int>, perIp': map<Ip, seq<int>>)
    requires Stores(perIp, global, history, clock, ipWindow) && clock <= now && SameElsewhere(perIp, perIp', ip)
    requires ListOf(perIp', ip) == list && IsTail(list, Times(history, ip), now - ipWindow)
    requires IsTail(global', AllTimes(history), now - MINUTE)
    ensures Stores(perIp', global', history, now, ipWindow)
  {
    EachAfterPrune(perIp, perIp', history, clock - ipWindow, now - ipWindow, ip, list);
  }

  lemma EachAfterCall(perIp: map<Ip, seq<int>>, history: seq<Call>, cutoff: int, now: int, ip: Ip)
    requires StoresEach(perIp, history, cutoff)
    ensures StoresEach(perIp[ip := ListOf(perIp, ip) + [now]], history + [Call(ip, now)], cutoff)
  {
    var history', perIp' := history + [Call(ip, now)], perIp[ip := ListOf(perIp, ip) + [now]];
    assert history'[..|history|] == history;
    forall x ensures ListFits(perIp', history', cutoff, x) {
      assert ListFits(perIp, history, cutoff, x);
      if x == ip {
        LongerTail(ListOf(perIp, ip), Times(history, ip), cutoff, now);
      } else {
        assert Times(history', x) == Times(history, x) && ListOf(perIp', x) == ListOf(perIp, x);
      }
    }
  }

  /** After an allowed call its time is at the end of both lists. */
  lemma RecordedStores(perIp: map<Ip, seq<int>>, global: seq<int>, history: seq<Call>, now: int, ipWindow: nat, ip: Ip)
    requires Stores(perIp, global, history, now, ipWindow)
    ensures Stores(perIp[ip := ListOf(perIp, ip) + [now]], global + [now], history + [Call(ip, now)], now, ipWindow)
  {
    assert (history + [Call(ip, now)])[..|history|] == history;
    LongerTail(global, AllTimes(history), now - MINUTE, now);
    EachAfterCall(perIp, history, now - ipWindow, now, ip);
  }

  /** Puts a pruned list back, or forgets the address. */
  method StoreList(perIp: map<Ip, seq<int>>, ip: Ip, list: seq<int>) returns (perIp': map<Ip, seq<int>>)
    ensures SameElsewhere(perIp, perIp', ip) && ListOf(perIp', ip) == list
  {
    if |list| > 0 {
      perIp' := perIp[ip := list];
    } else {
      perIp' := perIp - {ip};
    }
  }

  predicate IsPruned(list: seq<int>, times: seq<int>, cutoff: int) {
    IsTail(list, times, cutoff) && |list| == Live(times, cutoff)
  }

  method PruneTail(list: seq<int>, cutoff: int, ghost times: seq<int>, ghost before: int) returns (live: seq<int>)
    requires Sorted(times) && IsTail(list, times, before) && before <= cutoff
    ensures IsPruned(live, times, cutoff)
  {
    TailCounts(list, times, before, cutoff);
    PrunedTail(list, times, before, cutoff);
    live := PruneBefore(list, cutoff);
  }

  method PruneAll(stored: seq<int>, globals: seq<int>, now: int, ghost times: seq<int>, ghost all: seq<int>,
                  ghost clock: int)
    returns (ipMinute: seq<int>, ipHour: seq<int>, global: seq<int>)
    requires Sorted(times) && Sorted(all) && clock <= now
    requires IsTail(stored, times, clock - HOUR) && IsTail(globals, all, clock - MINUTE)
    ensures IsPruned(ipMinute, times, now - MINUTE) && IsPruned(ipHour, times, now - HOUR)
    ensures IsPruned(global, all, now - MINUTE)
  {
    ipHour := PruneTail(stored, now - HOUR, times, clock - HOUR);
    ipMinute := PruneTail(ipHour, now - MINUTE, times, now - HOUR);
    global := PruneTail(globals, now - MINUTE, all, clock - MINUTE);
  }

  /** The wait that a pruned list calls for: one if its window is full, none otherwise. */
  function RetryIfFull(timestamps: seq<int>, limit: nat, window: nat, now: int): seq<int>
    requires limit >= 1
  {
    if |timestamps| >= limit then [RetryAfterFor(timestamps, limit, window, now)] else []
  }

  lemma PrunedWait(list: seq<int>, w: Window, now: int)
    requires w.limit >= 1 && IsPruned(list, w.times, now - w.length)
    ensures WaitOf(w, now) == RetryIfFull(list, w.limit, w.length, now)
  {
  }

  /** The waits of the full windows, computed from the pruned lists alone. */
  method Retries(ipMinute: seq<int>, ipHour: seq<int>, global: seq<int>, now: int, ghost history: seq<Call>,
                 ghost ip: Ip)
    returns (retries: seq<int>)
    requires IsPruned(ipMinute, Times(history, ip), now - MINUTE) && IsPruned(ipHour, Times(history, ip), now - HOUR)
    requires IsPruned(global, AllTimes(history), now - MINUTE)
    ensures retries == Waits(history, ip, now)
  {
    PrunedWait(ipMinute, MinuteOf(history, ip), now);
    PrunedWait(ipHour, HourOf(history, ip), now);
    PrunedWait(global, GlobalOf(history), now);
    var minute := RetryIfFull(ipMinute, PER_IP_MINUTE_LIMIT, MINUTE, now);
    var hour := RetryIfFull(ipHour, PER_IP_HOUR_LIMIT, HOUR, now);
    var all := RetryIfFull(global, GLOBAL_MINUTE_LIMIT, MINUTE, now);
    retries := minute + hour + all;
  }

  predicate InOrderUpTo(history: seq<Call>, clock: int) {
    InOrder(history) && forall i | 0 <= i < |history| :: history[i].at <= clock
  }

  lemma LastInOrder(history: seq<Call>, call: Call)
    requires InOrderUpTo(history, call.at)
    ensures InOrderUpTo(history + [call], call.at)
  {
  }

  lemma AdmittedLast(history: seq<Call>, call: Call)
    requires AllAdmitted(history) && Admits(history, call.ip, call.at)
    ensures AllAdmitted(history + [call])
  {
    assert (history + [call])[..|history|] == history;
  }

  class SubmissionLimiter {
    var perIpTimestamps: map<Ip, seq<int>>
    var globalTimestamps: seq<int>
    ghost var history: seq<Call>
    ghost var clock: int

    ghost predicate Valid()
      reads this
    {
      && Tidy() && AllAdmitted(history)
    }

    /** The stored lists against the history, up to the clock. */
    ghost predicate Tidy()
      reads this
    {
      && InOrderUpTo(history, clock)
      && Stores(perIpTimestamps, globalTimestamps, history, clock, HOUR)
    }

    constructor (ghost start: int)
      ensures Valid() && history == [] && clock == start
    {
      perIpTimestamps, globalTimestamps := map[], [];
      history, clock := [], start;
      EmptyIsTidy(start, HOUR);
    }

    /**
     Decides exactly as the full history of allowed calls does, for calls in order of
     time; a denied call leaves that history as it was, and its hint is the first second at
     which one of the limits that it reached is not reached any more.
     */
    method CheckSubmissionRateLimit(ip: Ip, now: int) returns (answer: Answer)
      requires Valid() && clock <= now
      modifies this
      ensures Valid() && clock == now
      ensures answer.Allowed? <==> HasRoom(old(history), ip, now)
      ensures history == if answer.Allowed? then old(history) + [Call(ip, now)] else old(history)
      ensures answer.Denied? ==>
                && Waits(history, ip, now) != [] && answer.retryAfterSeconds == Least(Waits(history, ip, now))
                && IsHint(history, ip, now, answer.retryAfterSeconds)
    {
      AdmitsIff(history, ip, now);
      var ipMinute, ipHour, global := Pruned(ip, now);
      var retries := Retries(ipMinute, ipHour, global, now, history, ip);
      WaitsIffDenied(history, ip, now);
      Settle(ip, now, ipHour, global);
      if |retries| > 0 {
        LeastIsHint(history, ip, now);
        return Denied(Least(retries));
      }
      AdmittedLast(history, Call(ip, now));
      Record(ip, now, ipHour, global);
      return Allowed;
    }

    method Record(ip: Ip, now: int, ipHour: seq<int>, global: seq<int>)
      requires Tidy() && clock == now && globalTimestamps == global
      requires ListOf(perIpTimestamps, ip) == ipHour
      modifies this
      ensures Tidy() && clock == now && history == old(history) + [Call(ip, now)]
    {
      LastInOrder(history, Call(ip, now));
      RecordedStores(perIpTimestamps, globalTimestamps, history, now, HOUR, ip);
      perIpTimestamps := perIpTimestamps[ip := ipHour + [now]];
      globalTimestamps := globalTimestamps + [now];
      history := history + [Call(ip, now)];
    }

    /** The lists pruned to their windows hold exactly the calls of the history that the windows hold. */
    method Pruned(ip: Ip, now: int) returns (ipMinute: seq<int>, ipHour: seq<int>, global: seq<int>)
      requires Tidy() && clock <= now
      ensures IsPruned(ipMinute, Times(history, ip), now - MINUTE) && IsPruned(ipHour, Times(history, ip), now - HOUR)
      ensures IsPruned(global, AllTimes(history), now - MINUTE)
    {
      var stored := ListOf(perIpTimestamps, ip);
      TimesAreSorted(history, ip);
      assert ListFits(perIpTimestamps, history, clock - HOUR, ip);
      ipMinute, ipHour, global := PruneAll(stored, globalTimestamps, now, Times(history, ip), AllTimes(history), clock);
    }

    /** Stores the pruned lists, which no later call can tell from the unpruned ones. */
    method Settle(ip: Ip, now: int, ipHour: seq<int>, global: seq<int>)
      requires Tidy() && clock <= now
      requires IsPruned(ipHour, Times(history, ip), now - HOUR) && IsPruned(global, AllTimes(history), now - MINUTE)
      modifies this`perIpTimestamps, this`globalTimestamps, this`clock
      ensures Tidy() && clock == now && globalTimestamps == global
      ensures ListOf(perIpTimestamps, ip) == ipHour
    {
      var perIp := StoreList(perIpTimestamps, ip, ipHour);
      PrunedStores(perIpTimestamps, globalTimestamps, history, clock, HOUR, now, ip, ipHour, global, perIp);
      perIpTimestamps, globalTimestamps := perIp, global;
      clock := now;
    }
  }

  // ---------------------------------------------------------------- event beacons

  /** Both one-minute windows have room for one more event. */
  predicate AdmitsEvent(history: seq<Call>, ip: Ip, now: int) {
    && Live(Times(history, ip), now - MINUTE) < EVENT_PER_IP_LIMIT
    && Live(AllTimes(history), now - MINUTE) < EVENT_GLOBAL_LIMIT
  }

  predicate AllEventsAdmitted(history: seq<Call>) {
    history != [] ==>
      var init, last := history[..|history| - 1], history[|history| - 1];
      AllEventsAdmitted(init) && AdmitsEvent(init, last.ip, last.at)
  }

  lemma AdmittedLastEvent(history: seq<Call>, call: Call)
    requires AllEventsAdmitted(history) && AdmitsEvent(history, call.ip, call.at)
    ensures AllEventsAdmitted(history + [call])
  {
    assert (history + [call])[..|history|] == history;
  }

  /** No minute, wherever it ends, holds more than sixty events of one address, or a thousand of all. */
  lemma NoEventWindowExceeds(history: seq<Call>, ip: Ip, end: int)
    requires AllEventsAdmitted(history)
    ensures |CallsWithin(history, ip, end - 60_000, end)| <= 60
    ensures |AllWithinTime(history, end - 60_000, end)| <= 1000
  {
    EventWindowHolds(history, ip, end);
    WindowCounts(history, ip, MINUTE, end);
  }

  lemma {:induction false} EventWindowHolds(history: seq<Call>, ip: Ip, end: int)
    requires AllEventsAdmitted(history)
    ensures InWindow(Times(history, ip), MINUTE, end) <= EVENT_PER_IP_LIMIT
    ensures InWindow(AllTimes(history), MINUTE, end) <= EVENT_GLOBAL_LIMIT
  {
    if history != [] {
      var init, last := history[..|history| - 1], history[|history| - 1];
      EventWindowHolds(init, ip, end);
      AdmittedStays(AllTimes(init), EVENT_GLOBAL_LIMIT, MINUTE, end, last.at);
      if last.ip == ip {
        AdmittedStays(Times(init, ip), EVENT_PER_IP_LIMIT, MINUTE, end, last.at);
      } else {
        assert Times(history, ip) == Times(init, ip);
      }
    }
  }

  class EventLimiter {
    var perIpTimestamps: map<Ip, seq<int>>
    var globalTimestamps: seq<int>
    ghost var history: seq<Call>
    ghost var clock: int

    ghost predicate Valid()
      reads this
    {
      && InOrderUpTo(history, clock) && AllEventsAdmitted(history)
      && Stores(perIpTimestamps, globalTimestamps, history, clock, MINUTE)
    }

    constructor (ghost start: int)
      ensures Valid() && history == [] && clock == start
    {
      perIpTimestamps, globalTimestamps := map[], [];
      history, clock := [], start;
      EmptyIsTidy(start, MINUTE);
    }

    method Prune(ip: Ip, now: int) returns (ipPruned: seq<int>, globalPruned: seq<int>)
      requires InOrderUpTo(history, clock) && Stores(perIpTimestamps, globalTimestamps, history, clock, MINUTE)
      requires clock <= now
      ensures IsPruned(ipPruned, Times(history, ip), now - MINUTE)
      ensures IsPruned(globalPruned, AllTimes(history), now - MINUTE)
    {
      var stored := ListOf(perIpTimestamps, ip);
      TimesAreSorted(history, ip);
      assert ListFits(perIpTimestamps, history, clock - MINUTE, ip);
      ipPruned := PruneTail(stored, now - MINUTE, Times(history, ip), clock - MINUTE);
      globalPruned := PruneTail(globalTimestamps, now - MINUTE, AllTimes(history), clock - MINUTE);
    }

    /** Allowed, and recorded, exactly when the full history of allowed events leaves room. */
    method CheckEventRateLimit(ip: Ip, now: int) returns (allowed: bool)
      requires Valid() && clock <= now
      modifies this
      ensures Valid() && clock == now && (allowed <==> HasEventRoom(old(history), ip, now))
      ensures history == if allowed then old(history) + [Call(ip, now)] else old(history)
    {
      AdmitsEventIff(history, ip, now);
      var ipPruned, globalPruned := Prune(ip, now);
      Settle(ip, now, ipPruned, globalPruned);
      allowed := !(|ipPruned| >= EVENT_PER_IP_LIMIT || |globalTimestamps| >= EVENT_GLOBAL_LIMIT);
      if allowed {
        Record(ip, now, ipPruned);
      }
    }

    method Settle(ip: Ip, now: int, ipPruned: seq<int>, globalPruned: seq<int>)
      requires InOrderUpTo(history, clock) && Stores(perIpTimestamps, globalTimestamps, history, clock, MINUTE)
      requires clock <= now
      requires IsPruned(ipPruned, Times(history, ip), now - MINUTE)
      requires IsPruned(globalPruned, AllTimes(history), now - MINUTE)
      modifies this`perIpTimestamps, this`globalTimestamps, this`clock
      ensures InOrderUpTo(history, clock) && Stores(perIpTimestamps, globalTimestamps, history, now, MINUTE)
      ensures clock == now
      ensures ListOf(perIpTimestamps, ip) == ipPruned && globalTimestamps == globalPruned
    {
      var perIp := StoreList(perIpTimestamps, ip, ipPruned);
      PrunedStores(perIpTimestamps, globalTimestamps, history, clock, MINUTE, now, ip, ipPruned, globalPruned, perIp);
      perIpTimestamps, globalTimestamps := perIp, globalPruned;
      clock := now;
    }

    method Record(ip: Ip, now: int, ipPruned: seq<int>)
      requires InOrderUpTo(history, clock) && AllEventsAdmitted(history) && AdmitsEvent(history, ip, now)
      requires clock == now
      requires Stores(perIpTimestamps, globalTimestamps, history, now, MINUTE)
      requires ListOf(perIpTimestamps, ip) == ipPruned
      modifies this
      ensures Valid() && clock == now && history == old(history) + [Call(ip, now)]
    {
      AdmittedLastEvent(history, Call(ip, now));
      LastInOrder(history, Call(ip, now));
      RecordedStores(perIpTimestamps, globalTimestamps, history, now, MINUTE, ip);
      perIpTimestamps := perIpTimestamps[ip := ipPruned + [now]];
      globalTimestamps := globalTimestamps + [now];
      history := history + [Call(ip, now)];
    }
  }
}
