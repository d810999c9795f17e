/** The browser's key-value store as an in-memory map, the record types kept
    in it, and the keys the application uses. JSON lists and tables of the
    expected shape are kept in decoded form; `OtherJson` is JSON text that
    parses to some other value; `Text` is any other stored string (text that
    `JSON.parse` rejects, the empty string, or a settings value). */
module Store {
  import opened Wrappers

  const BreathHoldRecordsKey := "zenbreathe_breath_hold_records"
  const BreathingSessionsKey := "zenbreathe_breathing_sessions"
  const PerExerciseDurationsKey := "zenbreathe_per_exercise_durations"
  const AmbientModeKey := "zenbreathe_ambient_mode"
  const AmbientVolumeKey := "zenbreathe_ambient_volume"
  const GuidedMeditationEnabledKey := "zenbreathe_guided_meditation_enabled"

  /** The six keys, each used by exactly one reader/writer pair. */
  function StorageKeys(): (r: seq<string>)
    ensures |r| == 6
    ensures forall i, j :: 0 <= i < j < |r| ==> r[i] != r[j]
  {
    [BreathHoldRecordsKey, BreathingSessionsKey, PerExerciseDurationsKey,
     AmbientModeKey, AmbientVolumeKey, GuidedMeditationEnabledKey]
  }

  /** One breath-hold attempt; duration in milliseconds. */
  datatype BreathHoldRecord = BreathHoldRecord(timestamp: int, duration: int)

  /** One breathing session; duration in milliseconds. */
  datatype BreathingSession = BreathingSession(timestamp: int, exerciseName: string, duration: int)

  /** What `JSON.parse` makes of JSON text that is neither a list of records
      nor a table of numbers. */
  datatype JsonKind = JsonNull | JsonScalar | JsonObject

  datatype StoredValue =
    | Text(text: string)
    | OtherJson(json: string, kind: JsonKind)
    | HoldRecordList(records: seq<BreathHoldRecord>)
    | SessionList(sessions: seq<BreathingSession>)
    | DurationTable(durations: map<string, real>)

  class Storage {
    var items: map<string, StoredValue>
    /** Every access throws (storage disabled). */
    var blocked: bool

    constructor (items: map<string, StoredValue>, blocked: bool)
      ensures this.items == items && this.blocked == blocked
    {
      this.items := items;
      this.blocked := blocked;
    }

    /** `getItem`, with a throwing access read as a missing key: every caller
        treats the two alike. */
    function GetItem(key: string): (r: Option<StoredValue>)
      reads this
      ensures r.Some? <==> !blocked && key in items
      ensures r.Some? ==> r.value == items[key]
    {
      if !blocked && key in items then Some(items[key]) else None
    }

    /** `setItem`; when the store throws, nothing changes. */
    method SetItem(key: string, value: StoredValue)
      modifies this`items
      ensures items == if blocked then old(items) else old(items)[key := value]
    {
      if !blocked {
        items := items[key := value];
      }
    }
  }
}
