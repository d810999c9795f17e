/** The session list: the 'Xm Ys' duration text and the rows it renders. */
module SessionListView {
  import opened Wrappers
  import opened JsMath
  import opened Text
  import opened Store

  /** `formatDuration`: whole seconds (floored), then minutes and the
      remaining seconds, neither padded. The seconds use `%`, so a negative
      duration gives negative fields. */
  function FormatDuration(ms: int): (r: string)
  {
    var totalSeconds := FloorDiv(ms, 1000);
    var minutes := FloorDiv(totalSeconds, 60);
    var seconds := Rem(totalSeconds, 60);
    IntToString(minutes) + "m " + IntToString(seconds) + "s"
  }

  /** A non-negative duration reads back as the minutes and the seconds 0..59
      of its whole seconds, so 59 999 ms is "0m 59s", not a minute. */
  lemma FormatDurationReadsBack(ms: int)
    requires ms >= 0
    ensures ParseUnits(FormatDuration(ms), ['m', 's']) == Some([(ms / 1000) / 60, (ms / 1000) % 60])
  {
    var t := ms / 1000;
    assert FloorDiv(ms, 1000) == t;
    assert IntToString(t / 60) == Digits(t / 60);
    assert IntToString(t % 60) == Digits(t % 60);
    ParseMinutesSeconds(t / 60, t % 60);
  }

  datatype SessionRow = SessionRow(timestamp: int, exerciseName: string, duration: string)

  /** Either the placeholder message alone or one table row per session. */
  datatype SessionListView = NoSessionsMessage | SessionTable(rows: seq<SessionRow>)

  function Row(session: BreathingSession): SessionRow {
    SessionRow(session.timestamp, session.exerciseName, FormatDuration(session.duration))
  }

  /** `SessionList`: the placeholder for no sessions, otherwise one row per
      session in the order given. */
  function RenderSessionList(sessions: seq<BreathingSession>): (view: SessionListView)
    ensures view.NoSessionsMessage? <==> sessions == []
    ensures view.SessionTable? ==> |view.rows| == |sessions|
    ensures view.SessionTable? ==> forall i :: 0 <= i < |sessions| ==> view.rows[i] == Row(sessions[i])
  {
    if sessions == [] then NoSessionsMessage
    else SessionTable(seq(|sessions|, i requires 0 <= i < |sessions| => Row(sessions[i])))
  }
}
