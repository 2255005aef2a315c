/**
 * The persisted settings of the GameBang AutoSave (Assets/GameBang/AutoSave/Editor/AutoSave.cs):
 * the EditorPrefs keys, the defaults, and the property getters.  A getter
 * that finds its sentinel returns the default and writes it back, so that
 * the next read finds the default stored.
 *
 * Time is counted in whole seconds since DateTime.MinValue, so MIN_TIME is
 * the sentinel "never saved".
 */
module GameBangSettings {
  import opened Prefs

  const FOLDER_KEY := "AutoSave_Folder"
  const SAVE_MINUTES_KEY := "AutoSave_SaveMinutes"
  const BACKUP_MINUTES_KEY := "AutoSave_BackupMinutes"
  const DELETE_MINUTES_KEY := "AutoSave_DeleteMinutes"
  const ENABLED_KEY := "AutoSave_Enabled"
  const SAVE_AFTER_PLAY_KEY := "AutoSave_SaveAfterPlay"
  const BACKUP_ENABLED_KEY := "AutoSave_BackupEnabled"
  const DELETE_ENABLED_KEY := "AutoSave_DeleteEnabled"
  const IN_BACKGROUND_KEY := "AutoSave_EnabledInBackground"
  const LOG_KEY := "AutoSave_LogInfo"
  const LAST_SAVE_KEY := "AutoSave_LastSave"
  const LAST_BACKUP_KEY := "AutoSave_LastBackup"

  const DEFAULT_SAVE_FOLDER := "/AutoSaves/"
  const DEFAULT_SAVE_MINUTES := 10
  const DEFAULT_BACKUP_MINUTES := 20
  const DEFAULT_DELETE_MINUTES := 60

  /** DateTime.MinValue, in seconds since DateTime.MinValue. */
  const MIN_TIME := 0

  /** SaveFolder: an empty stored folder becomes "./AutoSaves/". */
  function ReadSaveFolder(p: Store): (r: Read<string>)
    ensures r.value != "" && GetString(r.store, FOLDER_KEY, "") == r.value
    ensures r.store == p || r.store == SetString(p, FOLDER_KEY, r.value)
    ensures GetString(p, FOLDER_KEY, "") != "" ==> r == Read(GetString(p, FOLDER_KEY, ""), p)
    ensures GetString(p, FOLDER_KEY, "") == "" ==> r.value == "./AutoSaves/"
  {
    var current := GetString(p, FOLDER_KEY, "");
    if current == "" then
      var folder := "." + DEFAULT_SAVE_FOLDER;
      Read(folder, SetString(p, FOLDER_KEY, folder))
    else Read(current, p)
  }

  /** SaveMinutes: a stored (or missing) 0 becomes 10. */
  function ReadSaveMinutes(p: Store): (r: Read<int>)
    ensures r.value != 0 && GetInt(r.store, SAVE_MINUTES_KEY, 0) == r.value
    ensures r.store == p || r.store == SetInt(p, SAVE_MINUTES_KEY, r.value)
    ensures GetInt(p, SAVE_MINUTES_KEY, 0) != 0 ==> r == Read(GetInt(p, SAVE_MINUTES_KEY, 0), p)
    ensures GetInt(p, SAVE_MINUTES_KEY, 0) == 0 ==> r.value == 10
  {
    var current := GetInt(p, SAVE_MINUTES_KEY, 0);
    if current == 0 then Read(DEFAULT_SAVE_MINUTES, SetInt(p, SAVE_MINUTES_KEY, DEFAULT_SAVE_MINUTES))
    else Read(current, p)
  }

  /**
   * BackupMinutes as the source writes it: only a value below -1 is
   * replaced, so the unset default -1 is returned unchanged.
   */
  function ReadBackupMinutes(p: Store): (r: Read<int>)
    ensures r.value >= -1 && GetInt(r.store, BACKUP_MINUTES_KEY, -1) == r.value
    ensures r.store == p || r.store == SetInt(p, BACKUP_MINUTES_KEY, r.value)
    ensures GetInt(p, BACKUP_MINUTES_KEY, -1) >= -1 ==> r == Read(GetInt(p, BACKUP_MINUTES_KEY, -1), p)
    ensures GetInt(p, BACKUP_MINUTES_KEY, -1) < -1 ==> r.value == 20
  {
    var current := GetInt(p, BACKUP_MINUTES_KEY, -1);
    if current < -1 then Read(DEFAULT_BACKUP_MINUTES, SetInt(p, BACKUP_MINUTES_KEY, DEFAULT_BACKUP_MINUTES))
    else Read(current, p)
  }

  /**
   * BackupMinutes as its documentation describes it ("a negative value is
   * set to DEFAULT_BACKUP_MINUTES"), the way DeleteMinutes is written: an
   * unset or negative interval becomes 20.
   */
  function ReadBackupMinutesFixed(p: Store): (r: Read<int>)
    ensures r.value >= 0 && GetInt(r.store, BACKUP_MINUTES_KEY, -1) == r.value
    ensures r.store == p || r.store == SetInt(p, BACKUP_MINUTES_KEY, r.value)
    ensures GetInt(p, BACKUP_MINUTES_KEY, -1) >= 0 ==> r == Read(GetInt(p, BACKUP_MINUTES_KEY, -1), p)
    ensures GetInt(p, BACKUP_MINUTES_KEY, -1) < 0 ==> r.value == 20
  {
    var current := GetInt(p, BACKUP_MINUTES_KEY, -1);
    if current < 0 then Read(DEFAULT_BACKUP_MINUTES, SetInt(p, BACKUP_MINUTES_KEY, DEFAULT_BACKUP_MINUTES))
    else Read(current, p)
  }

  /** DeleteMinutes: an unset or negative age limit becomes 60. */
  function ReadDeleteMinutes(p: Store): (r: Read<int>)
    ensures r.value >= 0 && GetInt(r.store, DELETE_MINUTES_KEY, -1) == r.value
    ensures r.store == p || r.store == SetInt(p, DELETE_MINUTES_KEY, r.value)
    ensures GetInt(p, DELETE_MINUTES_KEY, -1) >= 0 ==> r == Read(GetInt(p, DELETE_MINUTES_KEY, -1), p)
    ensures GetInt(p, DELETE_MINUTES_KEY, -1) < 0 ==> r.value == 60
  {
    var current := GetInt(p, DELETE_MINUTES_KEY, -1);
    if current < 0 then Read(DEFAULT_DELETE_MINUTES, SetInt(p, DELETE_MINUTES_KEY, DEFAULT_DELETE_MINUTES))
    else Read(current, p)
  }

  /** LastSaveTime: a missing or MinValue time becomes now. */
  function ReadLastSaveTime(p: Store, now: int): (r: Read<int>)
    ensures GetTime(r.store, LAST_SAVE_KEY, MIN_TIME) == r.value
    ensures r.store == p || r.store == SetTime(p, LAST_SAVE_KEY, now)
    ensures GetTime(p, LAST_SAVE_KEY, MIN_TIME) != MIN_TIME ==> r == Read(GetTime(p, LAST_SAVE_KEY, MIN_TIME), p)
    ensures GetTime(p, LAST_SAVE_KEY, MIN_TIME) == MIN_TIME ==> r.value == now
  {
    var current := GetTime(p, LAST_SAVE_KEY, MIN_TIME);
    if current == MIN_TIME then Read(now, SetTime(p, LAST_SAVE_KEY, now)) else Read(current, p)
  }

  /** LastBackupTime: a missing or MinValue time becomes now. */
  function ReadLastBackupTime(p: Store, now: int): (r: Read<int>)
    ensures GetTime(r.store, LAST_BACKUP_KEY, MIN_TIME) == r.value
    ensures r.store == p || r.store == SetTime(p, LAST_BACKUP_KEY, now)
    ensures GetTime(p, LAST_BACKUP_KEY, MIN_TIME) != MIN_TIME ==> r == Read(GetTime(p, LAST_BACKUP_KEY, MIN_TIME), p)
    ensures GetTime(p, LAST_BACKUP_KEY, MIN_TIME) == MIN_TIME ==> r.value == now
  {
    var current := GetTime(p, LAST_BACKUP_KEY, MIN_TIME);
    if current == MIN_TIME then Read(now, SetTime(p, LAST_BACKUP_KEY, now)) else Read(current, p)
  }

  /**
   * Every getter is stable: reading a second time returns the same value
   * and writes nothing, because the first read stored a non-sentinel.
   */
  lemma GettersAreStable(p: Store, now: int)
    ensures ReadSaveFolder(ReadSaveFolder(p).store) == Read(ReadSaveFolder(p).value, ReadSaveFolder(p).store)
    ensures ReadSaveMinutes(ReadSaveMinutes(p).store) == Read(ReadSaveMinutes(p).value, ReadSaveMinutes(p).store)
    ensures ReadBackupMinutes(ReadBackupMinutes(p).store) == Read(ReadBackupMinutes(p).value, ReadBackupMinutes(p).store)
    ensures ReadDeleteMinutes(ReadDeleteMinutes(p).store) == Read(ReadDeleteMinutes(p).value, ReadDeleteMinutes(p).store)
    ensures ReadLastSaveTime(ReadLastSaveTime(p, now).store, now) == ReadLastSaveTime(p, now).(store := ReadLastSaveTime(p, now).store)
    ensures ReadLastBackupTime(ReadLastBackupTime(p, now).store, now) == ReadLastBackupTime(p, now).(store := ReadLastBackupTime(p, now).store)
  {
  }

  /** Each getter writes at most its own key. */
  lemma GettersWriteOnlyTheirKey(p: Store, now: int)
    ensures SameExcept(p, ReadSaveFolder(p).store, {FOLDER_KEY})
    ensures SameExcept(p, ReadSaveMinutes(p).store, {SAVE_MINUTES_KEY})
    ensures SameExcept(p, ReadBackupMinutes(p).store, {BACKUP_MINUTES_KEY})
    ensures SameExcept(p, ReadDeleteMinutes(p).store, {DELETE_MINUTES_KEY})
    ensures SameExcept(p, ReadLastSaveTime(p, now).store, {LAST_SAVE_KEY})
    ensures SameExcept(p, ReadLastBackupTime(p, now).store, {LAST_BACKUP_KEY})
  {
  }

  /** Each getter's value depends only on what is stored under its key. */
  lemma GettersReadOnlyTheirKey(p: Store, q: Store, now: int)
    ensures AgreeOn(p, q, FOLDER_KEY) ==> ReadSaveFolder(p).value == ReadSaveFolder(q).value
    ensures AgreeOn(p, q, SAVE_MINUTES_KEY) ==> ReadSaveMinutes(p).value == ReadSaveMinutes(q).value
    ensures AgreeOn(p, q, BACKUP_MINUTES_KEY) ==> ReadBackupMinutes(p).value == ReadBackupMinutes(q).value
    ensures AgreeOn(p, q, DELETE_MINUTES_KEY) ==> ReadDeleteMinutes(p).value == ReadDeleteMinutes(q).value
    ensures AgreeOn(p, q, LAST_SAVE_KEY) ==> ReadLastSaveTime(p, now).value == ReadLastSaveTime(q, now).value
    ensures AgreeOn(p, q, LAST_BACKUP_KEY) ==> ReadLastBackupTime(p, now).value == ReadLastBackupTime(q, now).value
  {
  }

  /**
   * The defect in BackupMinutes: with nothing stored the getter returns -1,
   * so "elapsed minutes >= BackupMinutes" holds at every tick and the
   * backup timer never waits.  The corrected getter returns 20.
   */
  lemma UnsetBackupIntervalNeverWaits(elapsed: int)
    requires elapsed >= 0
    ensures ReadBackupMinutes(map[]) == Read(-1, map[])
    ensures elapsed >= 60 * ReadBackupMinutes(map[]).value
    ensures ReadBackupMinutesFixed(map[]).value == DEFAULT_BACKUP_MINUTES
    ensures elapsed < 60 * DEFAULT_BACKUP_MINUTES ==> elapsed < 60 * ReadBackupMinutesFixed(map[]).value
  {
  }
}
