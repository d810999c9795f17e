/** The per-exercise duration table of the home screen: an in-memory copy of
    the persisted table, read with a 300 s default and written through. */
module PerExercise {
  import opened Store
  import opened LocalStore

  const DefaultDuration: real := 300.0

  class PerExerciseDuration {
    var durations: map<string, real>

    /** The lazy initialiser: the in-memory table is the persisted one. */
    constructor (st: Storage)
      ensures durations == GetPerExerciseDurations(st)
    {
      durations := GetPerExerciseDurations(st);
    }

    /** `getDuration`: the known value, 0 included (the default applies only
        to an id with no entry), or 300 s. */
    function GetDuration(exerciseId: string): (r: real)
      reads this
      ensures exerciseId in durations ==> r == durations[exerciseId]
      ensures exerciseId !in durations ==> r == DefaultDuration
    {
      if exerciseId in durations then durations[exerciseId] else DefaultDuration
    }

    /** `setDuration`: the new value is read back for this id, every other id
        keeps its value, and the same entry is written to storage. */
    method SetDuration(st: Storage, exerciseId: string, duration: real)
      modifies this`durations, st`items
      ensures durations == old(durations)[exerciseId := duration]
      ensures GetDuration(exerciseId) == duration
      ensures forall id :: id != exerciseId ==> GetDuration(id) == old(GetDuration(id))
      ensures st.items == old(ItemsAfterSetPerExerciseDuration(st, exerciseId, duration))
    {
      durations := durations[exerciseId := duration];
      SetPerExerciseDuration(st, exerciseId, duration);
    }
  }

  /** A stored 0 is returned as 0, not replaced by the default. */
  method StoredZeroIsKept(st: Storage, exerciseId: string) returns (d: real)
    requires !st.blocked
    requires PerExerciseDurationsKey in st.items
    requires st.items[PerExerciseDurationsKey] == DurationTable(map[exerciseId := 0.0])
    ensures d == 0.0
  {
    var table := new PerExerciseDuration(st);
    d := table.GetDuration(exerciseId);
  }
}
