/** The statistics derived from the stored lists: minutes per day over the
    last seven days, the breath-hold chart series and the ten most recent
    sessions. Day labels are left abstract: each day is named by the instant
    its local midnight falls on. */
module StatsDerivations {
  import opened JsMath
  import opened Store

  /** `dayStarts` holds the local midnights of the six days before today,
      of today and of tomorrow, oldest first. */
  predicate DayBoundaries(dayStarts: seq<int>) {
    |dayStarts| == 8 && forall i, j :: 0 <= i < j < |dayStarts| ==> dayStarts[i] < dayStarts[j]
  }

  predicate InWindow(s: BreathingSession, start: int, end: int) {
    start <= s.timestamp < end
  }

  /** The sessions inside `[start, end)`, in their original order. */
  function SessionsIn(sessions: seq<BreathingSession>, start: int, end: int): (r: seq<BreathingSession>)
    ensures |r| <= |sessions|
    ensures forall x :: x in r <==> x in sessions && InWindow(x, start, end)
  {
    if sessions == [] then []
    else if InWindow(sessions[0], start, end) then [sessions[0]] + SessionsIn(sessions[1..], start, end)
    else SessionsIn(sessions[1..], start, end)
  }

  /** The summed durations, in milliseconds. */
  function TotalDuration(sessions: seq<BreathingSession>): (total: int)
    ensures (forall i :: 0 <= i < |sessions| ==> sessions[i].duration >= 0) ==> total >= 0
  {
    if sessions == [] then 0 else sessions[0].duration + TotalDuration(sessions[1..])
  }

  /** One day's minutes: the day's total, rounded to whole minutes. */
  function DayMinutes(sessions: seq<BreathingSession>, start: int, end: int): (minutes: int)
    ensures (forall i :: 0 <= i < |sessions| ==> sessions[i].duration >= 0) ==> minutes >= 0
  {
    var day := SessionsIn(sessions, start, end);
    assert forall i :: 0 <= i < |day| ==> day[i] in sessions;
    Round(TotalDuration(day) as real / 60000.0)
  }

  datatype DailyMinutes = DailyMinutes(dayStart: int, minutes: int)

  /** `getLast7DaysMinutes`: seven entries, oldest day first and today last,
      each holding the rounded minutes of the sessions of its day. */
  method Last7DaysMinutes(sessions: seq<BreathingSession>, dayStarts: seq<int>) returns (days: seq<DailyMinutes>)
    requires DayBoundaries(dayStarts)
    ensures |days| == 7
    ensures forall k :: 0 <= k < 7 ==>
              days[k] == DailyMinutes(dayStarts[k], DayMinutes(sessions, dayStarts[k], dayStarts[k + 1]))
  {
    days := [];
    var i := 6;
    while i >= 0
      invariant -1 <= i <= 6
      invariant |days| == 6 - i
      invariant forall k :: 0 <= k < |days| ==>
                  days[k] == DailyMinutes(dayStarts[k], DayMinutes(sessions, dayStarts[k], dayStarts[k + 1]))
    {
      var dayStart := dayStarts[6 - i];
      var dayEnd := dayStarts[7 - i];
      var daySessions := SessionsIn(sessions, dayStart, dayEnd);
      var totalMs := TotalDuration(daySessions);
      days := days + [DailyMinutes(dayStart, Round(totalMs as real / 60000.0))];
      i := i - 1;
    }
  }

  /** Splitting a window at any instant inside it splits its total: no
      session is counted in both halves or missed by both. */
  lemma {:induction false} SplitWindow(sessions: seq<BreathingSession>, a: int, b: int, c: int)
    requires a <= b <= c
    ensures TotalDuration(SessionsIn(sessions, a, c))
         == TotalDuration(SessionsIn(sessions, a, b)) + TotalDuration(SessionsIn(sessions, b, c))
  {
    if sessions != [] {
      SplitWindow(sessions[1..], a, b, c);
      var s := sessions[0];
      if InWindow(s, a, b) {
        assert InWindow(s, a, c) && !InWindow(s, b, c);
      } else if InWindow(s, b, c) {
        assert InWindow(s, a, c);
      } else {
        assert !InWindow(s, a, c);
      }
    }
  }

  /** The total of consecutive days, the first `|dayStarts| - 1` of them. */
  function DaysTotal(sessions: seq<BreathingSession>, dayStarts: seq<int>): int
    decreases |dayStarts|
  {
    if |dayStarts| < 2 then 0
    else TotalDuration(SessionsIn(sessions, dayStarts[0], dayStarts[1])) + DaysTotal(sessions, dayStarts[1..])
  }

  /** The half-open days tile the week: the day totals add up to the total of
      the whole window, so every session of the week is counted exactly once. */
  lemma {:induction false} DaysTileWindow(sessions: seq<BreathingSession>, dayStarts: seq<int>)
    requires |dayStarts| >= 1
    requires forall i, j :: 0 <= i < j < |dayStarts| ==> dayStarts[i] < dayStarts[j]
    ensures DaysTotal(sessions, dayStarts) == TotalDuration(SessionsIn(sessions, dayStarts[0], dayStarts[|dayStarts| - 1]))
    decreases |dayStarts|
  {
    if |dayStarts| == 1 {
      EmptyWindow(sessions, dayStarts[0]);
    } else {
      var rest := dayStarts[1..];
      DaysTileWindow(sessions, rest);
      assert rest[|rest| - 1] == dayStarts[|dayStarts| - 1];
      assert dayStarts[0] < dayStarts[1] <= dayStarts[|dayStarts| - 1];
      SplitWindow(sessions, dayStarts[0], dayStarts[1], dayStarts[|dayStarts| - 1]);
    }
  }

  /** An empty window holds nothing. */
  lemma {:induction false} EmptyWindow(sessions: seq<BreathingSession>, a: int)
    ensures SessionsIn(sessions, a, a) == []
  {
    if sessions != [] {
      EmptyWindow(sessions[1..], a);
    }
  }

  /** Ascending order of `key`. */
  predicate SortedBy<T>(s: seq<T>, key: T -> int) {
    forall i, j :: 0 <= i < j < |s| ==> key(s[i]) <= key(s[j])
  }

  /** The in-place `Array.prototype.sort` with a comparator `key(a) - key(b)`,
      as an insertion sort: the array ends up ordered by `key` and holds the
      same elements. */
  method SortBy<T>(a: array<T>, key: T -> int)
    modifies a
    ensures SortedBy(a[..], key)
    ensures multiset(a[..]) == multiset(old(a[..]))
  {
    if a.Length == 0 {
      return;
    }
    var i := 1;
    while i < a.Length
      invariant 1 <= i <= a.Length
      invariant SortedBy(a[..i], key)
      invariant multiset(a[..]) == multiset(old(a[..]))
    {
      InsertLast(a, i, key);
      i := i + 1;
    }
    assert a[..a.Length] == a[..];
  }

  /** Moves `a[i]` left into the sorted prefix `a[..i]`. */
  method InsertLast<T>(a: array<T>, i: nat, key: T -> int)
    requires i < a.Length
    requires SortedBy(a[..i], key)
    modifies a
    ensures SortedBy(a[..i + 1], key)
    ensures multiset(a[..]) == multiset(old(a[..]))
  {
    var j := i;
    assert forall p, q :: 0 <= p < q < i ==> key(a[p]) <= key(a[q]) by {
      assert forall p :: 0 <= p < i ==> a[..i][p] == a[p];
    }
    while j > 0 && key(a[j - 1]) > key(a[j])
      invariant 0 <= j <= i
      invariant forall p, q :: 0 <= p < q <= i && p != j && q != j ==> key(a[p]) <= key(a[q])
      invariant forall q :: j < q <= i ==> key(a[j]) < key(a[q])
      invariant multiset(a[..]) == multiset(old(a[..]))
    {
      Swap(a, j - 1, j);
      j := j - 1;
    }
  }

  method Swap<T>(a: array<T>, x: nat, y: nat)
    requires x < a.Length && y < a.Length
    modifies a
    ensures a[..] == old(a[..])[x := old(a[y])][y := old(a[x])]
    ensures multiset(a[..]) == multiset(old(a[..]))
  {
    a[x], a[y] := a[y], a[x];
  }

  datatype HoldPoint = HoldPoint(timestamp: int, seconds: int)

  /** A hold duration in milliseconds as whole seconds, rounded half up. */
  function HoldSeconds(duration: int): (seconds: int)
    ensures duration as real - 500.0 < seconds as real * 1000.0 <= duration as real + 500.0
  {
    Round(duration as real / 1000.0)
  }

  /** The chart series of `records`, point by point. */
  function ChartPoints(records: seq<BreathHoldRecord>): (points: seq<HoldPoint>)
    ensures |points| == |records|
    ensures forall i :: 0 <= i < |records| ==>
              points[i] == HoldPoint(records[i].timestamp, HoldSeconds(records[i].duration))
  {
    if records == [] then [] else [HoldPoint(records[0].timestamp, HoldSeconds(records[0].duration))] + ChartPoints(records[1..])
  }

  function Timestamp(r: BreathHoldRecord): int {
    r.timestamp
  }

  /** Newest first, as an ascending key. */
  function Recency(s: BreathingSession): int {
    -s.timestamp
  }

  /** `getBreathHoldChartData`: sorts the caller's array by timestamp, oldest
      first, and maps every record to a point. */
  method BreathHoldChartData(records: array<BreathHoldRecord>) returns (data: seq<HoldPoint>)
    modifies records
    ensures multiset(records[..]) == multiset(old(records[..]))
    ensures forall i, j :: 0 <= i < j < records.Length ==> records[i].timestamp <= records[j].timestamp
    ensures data == ChartPoints(records[..])
    ensures |data| == records.Length
    ensures forall i, j :: 0 <= i < j < |data| ==> data[i].timestamp <= data[j].timestamp
  {
    SortBy(records, Timestamp);
    data := ChartPoints(records[..]);
  }

  /** `getLast10Sessions`: sorts the caller's array newest first and returns
      its first ten sessions (all of them when there are fewer). */
  method Last10Sessions(sessions: array<BreathingSession>) returns (recent: seq<BreathingSession>)
    modifies sessions
    ensures multiset(sessions[..]) == multiset(old(sessions[..]))
    ensures forall i, j :: 0 <= i < j < sessions.Length ==> sessions[i].timestamp >= sessions[j].timestamp
    ensures |recent| == MinInt(10, sessions.Length)
    ensures recent == sessions[..|recent|]
    ensures forall i, j :: 0 <= i < |recent| <= j < sessions.Length ==> recent[i].timestamp >= sessions[j].timestamp
  {
    SortBy(sessions, Recency);
    assert forall i, j :: 0 <= i < j < sessions.Length ==> Recency(sessions[i]) <= Recency(sessions[j]) by {
      assert forall i :: 0 <= i < sessions.Length ==> sessions[..][i] == sessions[i];
    }
    recent := sessions[..MinInt(10, sessions.Length)];
  }
}
