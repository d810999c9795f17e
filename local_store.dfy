/** Read-modify-write access to the persisted record lists and the
    per-exercise duration table. Each reader returns the decoded list (or
    table) it expects, and the empty one for anything else; each writer
    parses, changes and writes back, and a write whose change would throw in
    the source leaves the store as it was. */
module LocalStore {
  import opened Wrappers
  import opened Store
  import opened Text

  /** `getBreathHoldRecords`: the stored list, or [] when the key is missing,
      storage throws, or the content is not a list of records. */
  function GetBreathHoldRecords(st: Storage): (r: seq<BreathHoldRecord>)
    reads st
    ensures st.GetItem(BreathHoldRecordsKey).None? ==> r == []
    ensures st.GetItem(BreathHoldRecordsKey).Some? && !st.GetItem(BreathHoldRecordsKey).value.HoldRecordList? ==> r == []
    ensures st.GetItem(BreathHoldRecordsKey) == Some(HoldRecordList(r)) || r == []
  {
    match st.GetItem(BreathHoldRecordsKey)
    case Some(HoldRecordList(records)) => records
    case _ => []
  }

  /** The stored content parses to a value that is not an array (null, a
      number, a string, a boolean or an object), so `push` on it throws and
      the writer's `catch` drops the write. */
  predicate PushThrows(v: Option<StoredValue>) {
    v.Some? && (v.value.OtherJson? || v.value.DurationTable?)
  }

  /** The store after `addBreathHoldRecord(duration)` at instant `now`. */
  function ItemsAfterAddBreathHoldRecord(st: Storage, duration: int, now: int): map<string, StoredValue>
    reads st
  {
    if st.blocked || PushThrows(st.GetItem(BreathHoldRecordsKey)) then st.items
    else st.items[BreathHoldRecordsKey := HoldRecordList(GetBreathHoldRecords(st) + [BreathHoldRecord(now, duration)])]
  }

  /** `addBreathHoldRecord`: appends one record stamped `now` and writes the
      list back under its own key; a throwing store, or content that `push`
      throws on, is left as it was. */
  method AddBreathHoldRecord(st: Storage, duration: int, now: int)
    modifies st`items
    ensures st.items == old(ItemsAfterAddBreathHoldRecord(st, duration, now))
    ensures old(PushThrows(st.GetItem(BreathHoldRecordsKey))) ==> st.items == old(st.items)
    ensures !st.blocked && !old(PushThrows(st.GetItem(BreathHoldRecordsKey))) ==>
              && GetBreathHoldRecords(st) == old(GetBreathHoldRecords(st)) + [BreathHoldRecord(now, duration)]
              && (forall k :: k != BreathHoldRecordsKey ==> (k in st.items <==> k in old(st.items)))
              && (forall k :: k != BreathHoldRecordsKey && k in st.items ==> st.items[k] == old(st.items)[k])
  {
    var records := GetBreathHoldRecords(st);
    if !PushThrows(st.GetItem(BreathHoldRecordsKey)) {
      records := records + [BreathHoldRecord(now, duration)];
      st.SetItem(BreathHoldRecordsKey, HoldRecordList(records));
    }
  }

  /** `getBreathingSessions`: the stored list, or [] when the key is missing,
      storage throws, or the content is not a list of sessions. */
  function GetBreathingSessions(st: Storage): (r: seq<BreathingSession>)
    reads st
    ensures st.GetItem(BreathingSessionsKey).None? ==> r == []
    ensures st.GetItem(BreathingSessionsKey).Some? && !st.GetItem(BreathingSessionsKey).value.SessionList? ==> r == []
    ensures st.GetItem(BreathingSessionsKey) == Some(SessionList(r)) || r == []
  {
    match st.GetItem(BreathingSessionsKey)
    case Some(SessionList(sessions)) => sessions
    case _ => []
  }

  /** The store after `addBreathingSession(exerciseName, duration)` at `now`. */
  function ItemsAfterAddBreathingSession(st: Storage, exerciseName: string, duration: int, now: int): map<string, StoredValue>
    reads st
  {
    if st.blocked || PushThrows(st.GetItem(BreathingSessionsKey)) then st.items
    else st.items[BreathingSessionsKey := SessionList(GetBreathingSessions(st) + [BreathingSession(now, exerciseName, duration)])]
  }

  /** `addBreathingSession`: appends one session stamped `now`; text that does
      not parse is replaced by a one-session list, and content that `push`
      throws on is left as it was. */
  method AddBreathingSession(st: Storage, exerciseName: string, duration: int, now: int)
    modifies st`items
    ensures st.items == old(ItemsAfterAddBreathingSession(st, exerciseName, duration, now))
    ensures old(PushThrows(st.GetItem(BreathingSessionsKey))) ==> st.items == old(st.items)
    ensures !st.blocked && !old(PushThrows(st.GetItem(BreathingSessionsKey))) ==>
              && GetBreathingSessions(st) == old(GetBreathingSessions(st)) + [BreathingSession(now, exerciseName, duration)]
              && (forall k :: k != BreathingSessionsKey ==> (k in st.items <==> k in old(st.items)))
              && (forall k :: k != BreathingSessionsKey && k in st.items ==> st.items[k] == old(st.items)[k])
  {
    var sessions := GetBreathingSessions(st);
    if !PushThrows(st.GetItem(BreathingSessionsKey)) {
      sessions := sessions + [BreathingSession(now, exerciseName, duration)];
      st.SetItem(BreathingSessionsKey, SessionList(sessions));
    }
  }

  /** `getPerExerciseDurations`: the stored table, or the empty table. */
  function GetPerExerciseDurations(st: Storage): (r: map<string, real>)
    reads st
    ensures st.GetItem(PerExerciseDurationsKey).None? ==> r == map[]
    ensures st.GetItem(PerExerciseDurationsKey).Some? && !st.GetItem(PerExerciseDurationsKey).value.DurationTable? ==> r == map[]
    ensures st.GetItem(PerExerciseDurationsKey) == Some(DurationTable(r)) || r == map[]
  {
    match st.GetItem(PerExerciseDurationsKey)
    case Some(DurationTable(durations)) => durations
    case _ => map[]
  }

  /** A property name an array handles itself: `length`, or a canonical
      array index (a decimal below 2^32 - 1 without leading zeros). */
  predicate IsArrayKey(id: string) {
    id == "length" || (IsCanonical(id) && Value(id) < 0xFFFF_FFFF)
  }

  /** Of the preset exercise ids, '478' is an array index and the others are
      plain property names. */
  lemma PresetIdsAsArrayKeys()
    ensures IsArrayKey("478")
    ensures !IsArrayKey("equal") && !IsArrayKey("box")
  {
    assert "478"[..2] == "47" && "47"[..1] == "4";
  }

  /** The stored content parses to a value on which upserting `id` has no
      effect: assigning a property of null or of a primitive throws (module
      code is strict), and a plain named property of an array is dropped by
      `JSON.stringify`, which writes the same array back. */
  predicate UpsertIsLost(v: Option<StoredValue>, id: string) {
    v.Some? && ((v.value.OtherJson? && v.value.kind != JsonObject)
                || ((v.value.HoldRecordList? || v.value.SessionList?) && !IsArrayKey(id)))
  }

  /** The store after `setPerExerciseDuration(exerciseId, duration)`. */
  function ItemsAfterSetPerExerciseDuration(st: Storage, exerciseId: string, duration: real): map<string, StoredValue>
    reads st
  {
    if st.blocked || UpsertIsLost(st.GetItem(PerExerciseDurationsKey), exerciseId) then st.items
    else st.items[PerExerciseDurationsKey := DurationTable(GetPerExerciseDurations(st)[exerciseId := duration])]
  }

  /** `setPerExerciseDuration`: upserts one entry of the table. */
  method SetPerExerciseDuration(st: Storage, exerciseId: string, duration: real)
    modifies st`items
    ensures st.items == old(ItemsAfterSetPerExerciseDuration(st, exerciseId, duration))
    ensures old(UpsertIsLost(st.GetItem(PerExerciseDurationsKey), exerciseId)) ==> st.items == old(st.items)
    ensures !st.blocked && !old(UpsertIsLost(st.GetItem(PerExerciseDurationsKey), exerciseId)) ==>
              && exerciseId in GetPerExerciseDurations(st) && GetPerExerciseDurations(st)[exerciseId] == duration
              && (forall id :: id != exerciseId && id in old(GetPerExerciseDurations(st)) ==>
                    id in GetPerExerciseDurations(st) && GetPerExerciseDurations(st)[id] == old(GetPerExerciseDurations(st))[id])
  {
    var durations := GetPerExerciseDurations(st);
    if !UpsertIsLost(st.GetItem(PerExerciseDurationsKey), exerciseId) {
      durations := durations[exerciseId := duration];
      st.SetItem(PerExerciseDurationsKey, DurationTable(durations));
    }
  }
}
