/**
 * The persisted settings of the Desidus AutoSave (Assets/Desidus/AutoSave/Editor/AutoSave.cs):
 * the EditorPrefs keys, the defaults and the property accessors.  Two
 * getters write a default back when they find their sentinel: SaveMinutes
 * (0) and LastSaveTime (DateTime.MinValue).  The popup timeout setter
 * clamps what it stores to [0, 30].
 *
 * Time is counted in whole seconds since DateTime.MinValue, so MIN_TIME is
 * the sentinel "never saved".
 */
module DesidusSettings {
  import opened Prefs

  const SAVE_MINUTES_KEY := "DAS_SaveMin"
  const ENABLED_KEY := "DAS_Enabled"
  const ON_PLAY_KEY := "DAS_OnPlay"
  const IN_BACKGROUND_KEY := "DAS_BgOn"
  const DEFAULT_RUN_IN_BACKGROUND_KEY := "DAS_DefRunBg"
  const POPUP_KEY := "DAS_PopOn"
  const TIMEOUT_KEY := "DAS_PopTime"
  const LOG_KEY := "DAS_LogOn"
  const LAST_SAVE_KEY := "DAS_LastSave"

  const DEFAULT_SAVE_MINUTES := 10
  const DEFAULT_POPUP_TIMEOUT := 10
  const MAX_SAVE_MINUTES := 30
  const MAX_POPUP_TIMEOUT := 30

  /** DateTime.MinValue, in seconds since DateTime.MinValue. */
  const MIN_TIME := 0

  function AutoSaveEnabled(p: Store): bool { GetBool(p, ENABLED_KEY, true) }
  function AutoSaveAfterPlay(p: Store): bool { GetBool(p, ON_PLAY_KEY, true) }
  function EnabledInBackground(p: Store): bool { GetBool(p, IN_BACKGROUND_KEY, true) }
  function DefaultRunInBackground(p: Store): bool { GetBool(p, DEFAULT_RUN_IN_BACKGROUND_KEY, false) }
  function ShowPopup(p: Store): bool { GetBool(p, POPUP_KEY, true) }
  function LogInfo(p: Store): bool { GetBool(p, LOG_KEY, true) }

  /** PopupTimeout's getter: the stored value, 10 when unset; nothing is written. */
  function PopupTimeout(p: Store): int { GetInt(p, TIMEOUT_KEY, DEFAULT_POPUP_TIMEOUT) }

  /** SaveMinutes: a stored (or missing) 0 becomes 10 and is written back. */
  function ReadSaveMinutes(p: Store): (r: Read<int>)
    ensures r.value != 0 && GetInt(r.store, SAVE_MINUTES_KEY, 0) == r.value
    ensures r.store == p || r.store == SetInt(p, SAVE_MINUTES_KEY, r.value)
    ensures GetInt(p, SAVE_MINUTES_KEY, 0) != 0 ==> r == Read(GetInt(p, SAVE_MINUTES_KEY, 0), p)
    ensures GetInt(p, SAVE_MINUTES_KEY, 0) == 0 ==> r.value == DEFAULT_SAVE_MINUTES
  {
    var current := GetInt(p, SAVE_MINUTES_KEY, 0);
    if current == 0 then Read(DEFAULT_SAVE_MINUTES, SetInt(p, SAVE_MINUTES_KEY, DEFAULT_SAVE_MINUTES))
    else Read(current, p)
  }

  /** LastSaveTime: a missing or MinValue time becomes now and is written back. */
  function ReadLastSaveTime(p: Store, now: int): (r: Read<int>)
    ensures GetTime(r.store, LAST_SAVE_KEY, MIN_TIME) == r.value
    ensures r.store == p || r.store == SetTime(p, LAST_SAVE_KEY, now)
    ensures GetTime(p, LAST_SAVE_KEY, MIN_TIME) != MIN_TIME ==> r == Read(GetTime(p, LAST_SAVE_KEY, MIN_TIME), p)
    ensures GetTime(p, LAST_SAVE_KEY, MIN_TIME) == MIN_TIME ==> r.value == now
  {
    var current := GetTime(p, LAST_SAVE_KEY, MIN_TIME);
    if current == MIN_TIME then Read(now, SetTime(p, LAST_SAVE_KEY, now)) else Read(current, p)
  }

  /** PopupTimeout's setter: the value is clamped to [0, MAX_POPUP_TIMEOUT] before it is stored. */
  function SetPopupTimeout(p: Store, v: int): (r: Store)
    ensures PopupTimeout(r) == Clamp(v, 0, MAX_POPUP_TIMEOUT)
    ensures 0 <= v <= MAX_POPUP_TIMEOUT ==> PopupTimeout(r) == v
    ensures SameExcept(p, r, {TIMEOUT_KEY})
  {
    SetInt(p, TIMEOUT_KEY, Clamp(v, 0, MAX_POPUP_TIMEOUT))
  }

  /** The timeout the getter returns is one the setter can store. */
  predicate TimeoutInRange(p: Store) {
    0 <= PopupTimeout(p) <= MAX_POPUP_TIMEOUT
  }

  /**
   * The timeout is in range with nothing stored (it reads as 10), after any
   * use of the setter, and after any change to other keys.
   */
  lemma TimeoutAlwaysInRange(p: Store, q: Store, v: int)
    ensures TimeoutInRange(map[]) && PopupTimeout(map[]) == DEFAULT_POPUP_TIMEOUT
    ensures TimeoutInRange(SetPopupTimeout(p, v))
    ensures TimeoutInRange(p) && AgreeOn(p, q, TIMEOUT_KEY) ==> TimeoutInRange(q)
  {
    if AgreeOn(p, q, TIMEOUT_KEY) {
      ReadsAgree(p, q, TIMEOUT_KEY);
    }
  }

  /** SetInterval stores the value as given; the getter then turns 0 into 10 and returns anything else. */
  lemma SaveMinutesAfterSet(p: Store, v: int)
    ensures ReadSaveMinutes(SetInt(p, SAVE_MINUTES_KEY, v)).value == if v == 0 then DEFAULT_SAVE_MINUTES else v
  {
  }

  /**
   * Both normalising getters are stable: reading a second time returns the
   * same value and writes nothing.
   */
  lemma GettersAreStable(p: Store, now: int)
    ensures ReadSaveMinutes(ReadSaveMinutes(p).store) == Read(ReadSaveMinutes(p).value, ReadSaveMinutes(p).store)
    ensures ReadLastSaveTime(ReadLastSaveTime(p, now).store, now) == ReadLastSaveTime(p, now).(store := ReadLastSaveTime(p, now).store)
  {
  }

  /** Each normalising getter writes at most its own key. */
  lemma GettersWriteOnlyTheirKey(p: Store, now: int)
    ensures SameExcept(p, ReadSaveMinutes(p).store, {SAVE_MINUTES_KEY})
    ensures SameExcept(p, ReadLastSaveTime(p, now).store, {LAST_SAVE_KEY})
  {
  }
}
