/** The statistics page: what it shows once its loading effect has run. */
module StatsPage {
  import opened Wrappers
  import opened JsMath
  import opened Store
  import opened LocalStore
  import opened StatsDerivations
  import opened SessionListView

  /** The weekly chart, the breath-hold card (absent when there is no data)
      and the recent-sessions section. */
  datatype StatsView = StatsView(weekly: seq<DailyMinutes>, holdCard: Option<seq<HoldPoint>>, recent: SessionListView)

  /** The loading effect and the render. The stored lists are decoded into
      fresh arrays, so the in-place sorts do not touch the store.
      `newestFirst` and `oldestFirst` are the two sorted arrays: the stored
      sessions and records, reordered; the page shows the first ten of the
      one and the chart of the other. */
  method LoadStats(st: Storage, dayStarts: seq<int>)
    returns (view: StatsView, ghost newestFirst: seq<BreathingSession>, ghost oldestFirst: seq<BreathHoldRecord>)
    requires DayBoundaries(dayStarts)
    ensures |view.weekly| == 7
    ensures forall k :: 0 <= k < 7 ==>
              view.weekly[k] == DailyMinutes(dayStarts[k], DayMinutes(GetBreathingSessions(st), dayStarts[k], dayStarts[k + 1]))
    ensures multiset(oldestFirst) == multiset(GetBreathHoldRecords(st))
    ensures forall i, j :: 0 <= i < j < |oldestFirst| ==> oldestFirst[i].timestamp <= oldestFirst[j].timestamp
    ensures view.holdCard == if oldestFirst == [] then None else Some(ChartPoints(oldestFirst))
    ensures view.holdCard.Some? <==> GetBreathHoldRecords(st) != []
    ensures multiset(newestFirst) == multiset(GetBreathingSessions(st))
    ensures forall i, j :: 0 <= i < j < |newestFirst| ==> newestFirst[i].timestamp >= newestFirst[j].timestamp
    ensures view.recent == RenderSessionList(newestFirst[..MinInt(10, |newestFirst|)])
    ensures view.recent.NoSessionsMessage? <==> GetBreathingSessions(st) == []
    ensures view.recent.SessionTable? ==> |view.recent.rows| == MinInt(10, |GetBreathingSessions(st)|)
  {
    var storedSessions := GetBreathingSessions(st);
    var storedRecords := GetBreathHoldRecords(st);
    var sessions := new BreathingSession[|storedSessions|](i requires 0 <= i < |storedSessions| => storedSessions[i]);
    var records := new BreathHoldRecord[|storedRecords|](i requires 0 <= i < |storedRecords| => storedRecords[i]);
    assert sessions[..] == storedSessions;
    assert records[..] == storedRecords;
    var weekly := Last7DaysMinutes(sessions[..], dayStarts);
    var chart := BreathHoldChartData(records);
    var recent := Last10Sessions(sessions);
    newestFirst := sessions[..];
    oldestFirst := records[..];
    view := StatsView(weekly, if chart != [] then Some(chart) else None, RenderSessionList(recent));
  }
}
