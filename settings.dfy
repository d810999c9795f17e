/** The settings store: ambient mode, ambient volume and the guided-meditation
    switch, each kept as text under its own key. Getters fall back to their
    default when the key is missing or storage throws; setters then do nothing. */
module Settings {
  import opened Wrappers
  import opened JsMath
  import opened Text
  import opened Store

  /** The text the browser holds for a stored value. A list or table the
      record store wrote is JSON text opening with '[' or '{'; no settings
      getter reads beyond that first character, so it stands for the whole
      text. */
  function RawText(v: StoredValue): string {
    match v
    case Text(t) => t
    case OtherJson(json, _) => json
    case DurationTable(_) => "{"
    case _ => "["
  }

  /** `getStorageItem`: the stored text, or `defaultValue` when the key is
      missing or storage throws. */
  function GetStorageItem(st: Storage, key: string, defaultValue: string): (r: string)
    reads st
    ensures st.GetItem(key).None? ==> r == defaultValue
    ensures forall t :: st.GetItem(key) == Some(Text(t)) ==> r == t
    ensures forall t, k :: st.GetItem(key) == Some(OtherJson(t, k)) ==> r == t
    ensures st.GetItem(key).Some? && (st.GetItem(key).value.HoldRecordList? || st.GetItem(key).value.SessionList?) ==> r == "["
    ensures st.GetItem(key).Some? && st.GetItem(key).value.DurationTable? ==> r == "{"
  {
    match st.GetItem(key)
    case None => defaultValue
    case Some(v) => RawText(v)
  }

  /** `setStorageItem`. */
  method SetStorageItem(st: Storage, key: string, value: string)
    modifies st`items
    ensures st.items == if st.blocked then old(st.items) else old(st.items)[key := Text(value)]
  {
    st.SetItem(key, Text(value));
  }

  datatype AmbientMode = Off | Rain | Waves

  function ModeName(mode: AmbientMode): (r: string)
    ensures r in {"off", "rain", "waves"}
  {
    match mode
    case Off => "off"
    case Rain => "rain"
    case Waves => "waves"
  }

  /** The whitelist: a stored mode name is taken as it is, anything else is 'off'. */
  function ParseAmbientMode(value: string): (r: AmbientMode)
    ensures value in {"off", "rain", "waves"} ==> ModeName(r) == value
    ensures value !in {"off", "rain", "waves"} ==> r == Off
  {
    if value == "rain" then Rain else if value == "waves" then Waves else Off
  }

  /** `getAmbientMode`. */
  function GetAmbientMode(st: Storage): (r: AmbientMode)
    reads st
    ensures st.GetItem(AmbientModeKey).None? ==> r == Off
    ensures forall t :: st.GetItem(AmbientModeKey) == Some(Text(t)) ==> r == ParseAmbientMode(t)
    ensures forall t, k :: st.GetItem(AmbientModeKey) == Some(OtherJson(t, k)) ==> r == ParseAmbientMode(t)
    ensures r != Off ==> st.GetItem(AmbientModeKey).Some? && RawText(st.GetItem(AmbientModeKey).value) == ModeName(r)
  {
    ParseAmbientMode(GetStorageItem(st, AmbientModeKey, "off"))
  }

  /** `setAmbientMode`; a later `getAmbientMode` returns the mode written. */
  method SetAmbientMode(st: Storage, mode: AmbientMode)
    modifies st`items
    ensures st.items == if st.blocked then old(st.items) else old(st.items)[AmbientModeKey := Text(ModeName(mode))]
    ensures !st.blocked ==> GetAmbientMode(st) == mode
  {
    SetStorageItem(st, AmbientModeKey, ModeName(mode));
  }

  /** Every mode survives being written as its name and read back. */
  lemma AmbientModeRoundTrip(mode: AmbientMode)
    ensures ParseAmbientMode(ModeName(mode)) == mode
  {
  }

  /** `Math.max(0, Math.min(100, x))`. */
  function ClampVolume(x: int): (r: int)
    ensures 0 <= r <= 100
    ensures 0 <= x <= 100 ==> r == x
    ensures x < 0 ==> r == 0
    ensures x > 100 ==> r == 100
  {
    MaxInt(0, MinInt(100, x))
  }

  /** The volume a stored text stands for: `parseInt`, 50 for NaN, clamped. */
  function ParseAmbientVolume(value: string): (r: int)
    ensures 0 <= r <= 100
    ensures ParseInt(value).None? ==> r == 50
    ensures ParseInt(value).Some? ==> r == ClampVolume(ParseInt(value).value)
    ensures ParseInt(value).Some? && 0 <= ParseInt(value).value <= 100 ==> r == ParseInt(value).value
  {
    match ParseInt(value)
    case None => 50
    case Some(parsed) => ClampVolume(parsed)
  }

  /** `getAmbientVolume`: always in [0, 100]; the stored text as
      `ParseAmbientVolume` reads it, and 50 when nothing readable is stored. */
  function GetAmbientVolume(st: Storage): (r: int)
    reads st
    ensures 0 <= r <= 100
    ensures st.GetItem(AmbientVolumeKey).None? ==> r == 50
    ensures forall t :: st.GetItem(AmbientVolumeKey) == Some(Text(t)) ==> r == ParseAmbientVolume(t)
    ensures forall t, k :: st.GetItem(AmbientVolumeKey) == Some(OtherJson(t, k)) ==> r == ParseAmbientVolume(t)
    ensures st.GetItem(AmbientVolumeKey).Some? && !(st.GetItem(AmbientVolumeKey).value.Text? || st.GetItem(AmbientVolumeKey).value.OtherJson?) ==> r == 50
  {
    StoredVolumeReads(st);
    ParseAmbientVolume(GetStorageItem(st, AmbientVolumeKey, "50"))
  }

  /** How the volume getter's text reads, case by case. */
  lemma StoredVolumeReads(st: Storage)
    ensures st.GetItem(AmbientVolumeKey).None? ==> ParseAmbientVolume(GetStorageItem(st, AmbientVolumeKey, "50")) == 50
    ensures st.GetItem(AmbientVolumeKey).Some? && !(st.GetItem(AmbientVolumeKey).value.Text? || st.GetItem(AmbientVolumeKey).value.OtherJson?) ==>
              ParseAmbientVolume(GetStorageItem(st, AmbientVolumeKey, "50")) == 50
  {
    var text := GetStorageItem(st, AmbientVolumeKey, "50");
    if st.GetItem(AmbientVolumeKey).None? {
      assert text == "50";
      DefaultVolumeParses();
    } else if st.GetItem(AmbientVolumeKey).value.DurationTable? {
      assert text == "{";
      NonNumericVolumeReadsDefault(text);
    } else if st.GetItem(AmbientVolumeKey).value.HoldRecordList? || st.GetItem(AmbientVolumeKey).value.SessionList? {
      assert text == "[";
      NonNumericVolumeReadsDefault(text);
    }
  }

  /** The default text '50' reads as 50. */
  lemma DefaultVolumeParses()
    ensures ParseAmbientVolume("50") == 50
  {
    var s := "50";
    assert IsDigits(s);
    assert TrimStart(s) == s;
    assert Unsigned(s) == s;
    DigitPrefixOfDigits(s, []);
    assert s + [] == s;
    assert Value(s) == 50;
  }

  /** Text that opens with neither white space, a sign nor a digit, such as
      'abc' or the opening of JSON text, is NaN to `parseInt`, so the volume
      reads as 50. */
  lemma NonNumericVolumeReadsDefault(value: string)
    requires value != [] && !IsSpace(value[0]) && !IsDigit(value[0]) && value[0] != '-' && value[0] != '+'
    ensures ParseInt(value).None?
    ensures ParseAmbientVolume(value) == 50
  {
    assert TrimStart(value) == value;
    assert Unsigned(value) == value;
  }

  /** The text `setAmbientVolume` stores: the rounded, clamped volume. */
  function AmbientVolumeText(volume: real): (r: string)
    ensures IsCanonical(r)
  {
    IntToString(ClampVolume(Round(volume)))
  }

  /** What `setAmbientVolume(v)` writes is read back as `clamp(round(v))`. */
  lemma AmbientVolumeRoundTrip(volume: real)
    ensures ParseAmbientVolume(AmbientVolumeText(volume)) == ClampVolume(Round(volume))
  {
    ParseIntOfToString(ClampVolume(Round(volume)));
  }

  /** `setAmbientVolume`. */
  method SetAmbientVolume(st: Storage, volume: real)
    modifies st`items
    ensures st.items == if st.blocked then old(st.items) else old(st.items)[AmbientVolumeKey := Text(AmbientVolumeText(volume))]
    ensures !st.blocked ==> GetAmbientVolume(st) == ClampVolume(Round(volume))
  {
    var clamped := ClampVolume(Round(volume));
    SetStorageItem(st, AmbientVolumeKey, IntToString(clamped));
    AmbientVolumeRoundTrip(volume);
  }

  /** `Boolean.prototype.toString`. */
  function BoolText(b: bool): (r: string)
    ensures r == "true" <==> b
  {
    if b then "true" else "false"
  }

  /** `getGuidedMeditationEnabled`: true exactly when the stored text is
      'true' or nothing readable is stored; an empty string reads as false. */
  function GetGuidedMeditationEnabled(st: Storage): (r: bool)
    reads st
    ensures r <==> st.GetItem(GuidedMeditationEnabledKey).None? || RawText(st.GetItem(GuidedMeditationEnabledKey).value) == "true"
  {
    GetStorageItem(st, GuidedMeditationEnabledKey, "true") == "true"
  }

  /** `setGuidedMeditationEnabled`; a later get returns the value written. */
  method SetGuidedMeditationEnabled(st: Storage, enabled: bool)
    modifies st`items
    ensures st.items == if st.blocked then old(st.items) else old(st.items)[GuidedMeditationEnabledKey := Text(BoolText(enabled))]
    ensures !st.blocked ==> GetGuidedMeditationEnabled(st) == enabled
  {
    SetStorageItem(st, GuidedMeditationEnabledKey, BoolText(enabled));
  }
}
