/**
 * The GameBang AutoSave scheduler (OnUpdate and the actions it calls).  On
 * each editor tick it saves the open scenes when SaveMinutes have passed
 * since LastSaveTime, then, if backups are enabled and BackupMinutes have
 * passed since LastBackupTime, writes a backup of every loaded scene and,
 * if deletion is enabled, deletes old backups.
 *
 * Tick is the specification: a function from the state before a tick to
 * the state after it.  The class AutoSave performs the same steps one
 * property access at a time and is proved to agree with Tick.
 */
module GameBangAutoSave {
  import opened Prefs
  import opened GameBangSettings
  import opened GameBangNaming
  import opened GameBangRetention

  /** What a tick did, in order. */
  datatype Event = ScenesSaved | BackupsSaved | BackupsPruned

  /** The persisted settings, the backup folder and the actions taken so far. */
  datatype World = World(prefs: Store, backups: Folder, events: seq<Event>)

  function BackupEnabled(p: Store): bool {
    GetBool(p, BACKUP_ENABLED_KEY, true)
  }

  function DeleteEnabled(p: Store): bool {
    GetBool(p, DELETE_ENABLED_KEY, true)
  }

  /** At least SaveMinutes have passed since LastSaveTime. */
  function SaveDue(p: Store, now: int): bool {
    now - ReadLastSaveTime(p, now).value >= 60 * ReadSaveMinutes(p).value
  }

  /** At least BackupMinutes have passed since LastBackupTime. */
  function BackupDue(p: Store, now: int): bool {
    now - ReadLastBackupTime(p, now).value >= 60 * ReadBackupMinutes(p).value
  }

  /** The names of the backups of the given scenes at time t. */
  function BackupNames(scenes: seq<string>, t: Stamp): set<string>
    requires ValidStamp(t)
  {
    set i | 0 <= i < |scenes| :: SceneBackupName(scenes[i], t)
  }

  /**
   * The folder after a backup of each scene in turn: every backup name is
   * present with creation time now (a name already present is
   * overwritten), and every other file is unchanged.
   */
  function AddBackups(files: Folder, scenes: seq<string>, t: Stamp, now: int): (r: Folder)
    requires ValidStamp(t)
    ensures r.Keys == files.Keys + BackupNames(scenes, t)
    ensures forall f :: f in r ==> r[f] == (if f in BackupNames(scenes, t) then now else files[f])
    decreases |scenes|
  {
    if scenes == [] then files
    else
      var front := scenes[..|scenes| - 1];
      var name := SceneBackupName(scenes[|scenes| - 1], t);
      assert BackupNames(scenes, t) == BackupNames(front, t) + {name} by {
        forall f | f in BackupNames(scenes, t) ensures f in BackupNames(front, t) + {name} {
          var i :| 0 <= i < |scenes| && f == SceneBackupName(scenes[i], t);
          if i < |scenes| - 1 {
            assert scenes[i] == front[i];
          }
        }
        forall f | f in BackupNames(front, t) ensures f in BackupNames(scenes, t) {
          var i :| 0 <= i < |front| && f == SceneBackupName(front[i], t);
          assert front[i] == scenes[i];
        }
      }
      AddBackups(files, front, t, now)[name := now]
  }

  /** Backing up one more scene adds its backup name with creation time now. */
  lemma AddBackupsSnoc(files: Folder, scenes: seq<string>, i: int, t: Stamp, now: int)
    requires ValidStamp(t) && 0 <= i < |scenes|
    ensures AddBackups(files, scenes[..i + 1], t, now) == AddBackups(files, scenes[..i], t, now)[SceneBackupName(scenes[i], t) := now]
  {
    var s := scenes[..i + 1];
    assert s[..|s| - 1] == scenes[..i];
    assert s[|s| - 1] == scenes[i];
  }

  /** SaveScene in a due tick, then LastSaveTime := now. */
  function SaveStep(w: World, now: int): (r: World)
    ensures r.backups == w.backups
    ensures r.events == w.events + (if SaveDue(w.prefs, now) then [ScenesSaved] else [])
    ensures GetTime(r.prefs, LAST_SAVE_KEY, MIN_TIME) == (if SaveDue(w.prefs, now) then now else ReadLastSaveTime(w.prefs, now).value)
    ensures ReadSaveMinutes(r.prefs).value == ReadSaveMinutes(w.prefs).value
    ensures SameExcept(w.prefs, r.prefs, {LAST_SAVE_KEY, SAVE_MINUTES_KEY})
  {
    var last := ReadLastSaveTime(w.prefs, now);
    var minutes := ReadSaveMinutes(last.store);
    assert minutes.value == ReadSaveMinutes(w.prefs).value;
    if now - last.value >= 60 * minutes.value then
      World(SetTime(minutes.store, LAST_SAVE_KEY, now), w.backups, w.events + [ScenesSaved])
    else
      World(minutes.store, w.backups, w.events)
  }

  /** SaveBackupScene: the folder setting is read, and each loaded scene is backed up. */
  function BackupStep(w: World, scenes: seq<string>, t: Stamp, now: int): (r: World)
    requires ValidStamp(t)
    ensures r.backups == AddBackups(w.backups, scenes, t, now)
    ensures r.events == w.events + [BackupsSaved]
    ensures r.prefs == ReadSaveFolder(w.prefs).store
  {
    World(ReadSaveFolder(w.prefs).store, AddBackups(w.backups, scenes, t, now), w.events + [BackupsSaved])
  }

  /** Some file of the folder is a scene, so DeleteOldBackups enters its loop. */
  predicate HasSceneFile(files: Folder) {
    exists f :: f in files && IsSceneFile(f)
  }

  /**
   * DeleteOldBackups: the folder setting is read; DeleteMinutes is read
   * only when the folder holds a scene file; the expired scenes are deleted.
   */
  function PruneStep(w: World, now: int): (r: World)
    ensures r.events == w.events + [BackupsPruned]
    ensures r.backups == Prune(w.backups, now, ReadDeleteMinutes(ReadSaveFolder(w.prefs).store).value)
    ensures r.prefs == if HasSceneFile(w.backups) then ReadDeleteMinutes(ReadSaveFolder(w.prefs).store).store
                       else ReadSaveFolder(w.prefs).store
  {
    var folder := ReadSaveFolder(w.prefs);
    if HasSceneFile(w.backups) then
      var limit := ReadDeleteMinutes(folder.store);
      World(limit.store, Prune(w.backups, now, limit.value), w.events + [BackupsPruned])
    else
      assert Doomed(w.backups, now, ReadDeleteMinutes(folder.store).value) == {};
      World(folder.store, w.backups, w.events + [BackupsPruned])
  }

  /** DeleteOldBackups if deletion is enabled. */
  function DeletePhase(w: World, now: int): World {
    if DeleteEnabled(w.prefs) then PruneStep(w, now) else w
  }

  /** The backup half of OnUpdate: the backup, LastBackupTime := now, then the deletion. */
  function BackupPhase(w: World, now: int, stamp: Stamp, scenes: seq<string>): World
    requires ValidStamp(stamp)
  {
    if !BackupEnabled(w.prefs) then w
    else
      var lastBackup := ReadLastBackupTime(w.prefs, now);
      var minutes := ReadBackupMinutes(lastBackup.store);
      if now - lastBackup.value < 60 * minutes.value then w.(prefs := minutes.store)
      else
        var backedUp := BackupStep(w.(prefs := minutes.store), scenes, stamp, now);
        DeletePhase(backedUp.(prefs := SetTime(backedUp.prefs, LAST_BACKUP_KEY, now)), now)
  }

  /** One call of OnUpdate at time now (stamp: the same instant broken into calendar fields). */
  function Tick(w: World, now: int, stamp: Stamp, scenes: seq<string>): World
    requires ValidStamp(stamp)
  {
    BackupPhase(SaveStep(w, now), now, stamp, scenes)
  }

  /** What a tick does, stated on the settings before it: save, then backup, then delete. */
  function PlannedEvents(p: Store, now: int): seq<Event> {
    (if SaveDue(p, now) then [ScenesSaved] else [])
      + (if BackupEnabled(p) && BackupDue(p, now)
         then [BackupsSaved] + (if DeleteEnabled(p) then [BackupsPruned] else [])
         else [])
  }

  /** The keys a tick may write: the two timestamps and the getters' write-backs. */
  const TICK_KEYS := {LAST_SAVE_KEY, SAVE_MINUTES_KEY, LAST_BACKUP_KEY, BACKUP_MINUTES_KEY, FOLDER_KEY, DELETE_MINUTES_KEY}

  /** The save step leaves every backup setting as it was. */
  lemma SaveStepKeepsBackupSettings(w: World, now: int)
    ensures var q := SaveStep(w, now).prefs;
      BackupEnabled(q) == BackupEnabled(w.prefs) && DeleteEnabled(q) == DeleteEnabled(w.prefs)
      && ReadLastBackupTime(q, now).value == ReadLastBackupTime(w.prefs, now).value
      && ReadBackupMinutes(q).value == ReadBackupMinutes(w.prefs).value
      && ReadDeleteMinutes(q).value == ReadDeleteMinutes(w.prefs).value
  {
    var q := SaveStep(w, now).prefs;
    var changed := {LAST_SAVE_KEY, SAVE_MINUTES_KEY};
    assert SameExcept(w.prefs, q, changed);
    assert AgreeOn(w.prefs, q, LAST_BACKUP_KEY) && AgreeOn(w.prefs, q, BACKUP_MINUTES_KEY);
    assert AgreeOn(w.prefs, q, DELETE_MINUTES_KEY);
    assert AgreeOn(w.prefs, q, BACKUP_ENABLED_KEY) && AgreeOn(w.prefs, q, DELETE_ENABLED_KEY);
    ReadsAgree(w.prefs, q, BACKUP_ENABLED_KEY);
    ReadsAgree(w.prefs, q, DELETE_ENABLED_KEY);
    GettersReadOnlyTheirKey(w.prefs, q, now);
  }

  /** The store after the backup-time reads, the backup and LastBackupTime := now. */
  function AfterBackup(q: Store, now: int): Store {
    var lastBackup := ReadLastBackupTime(q, now);
    var minutes := ReadBackupMinutes(lastBackup.store);
    SetTime(ReadSaveFolder(minutes.store).store, LAST_BACKUP_KEY, now)
  }

  /** The backup writes only the backup timestamp, the backup interval and the folder. */
  lemma AfterBackupFrame(q: Store, now: int)
    ensures SameExcept(q, AfterBackup(q, now), {LAST_BACKUP_KEY, BACKUP_MINUTES_KEY, FOLDER_KEY})
    ensures GetTime(AfterBackup(q, now), LAST_BACKUP_KEY, MIN_TIME) == now
    ensures ReadBackupMinutes(AfterBackup(q, now)).value == ReadBackupMinutes(q).value
  {
    var s1 := ReadLastBackupTime(q, now).store;
    var minutes := ReadBackupMinutes(s1);
    var s2 := minutes.store;
    var s3 := ReadSaveFolder(s2).store;
    GettersWriteOnlyTheirKey(q, now);
    GettersWriteOnlyTheirKey(s1, now);
    GettersWriteOnlyTheirKey(s2, now);
    WriteIsLocal(s3, LAST_BACKUP_KEY, TimePref(now));
    SameExceptTransitive(q, s1, s2, {LAST_BACKUP_KEY}, {BACKUP_MINUTES_KEY});
    SameExceptTransitive(q, s2, s3, {LAST_BACKUP_KEY} + {BACKUP_MINUTES_KEY}, {FOLDER_KEY});
    SameExceptTransitive(q, s3, AfterBackup(q, now), {LAST_BACKUP_KEY} + {BACKUP_MINUTES_KEY} + {FOLDER_KEY}, {LAST_BACKUP_KEY});
    assert {LAST_BACKUP_KEY} + {BACKUP_MINUTES_KEY} + {FOLDER_KEY} + {LAST_BACKUP_KEY}
      == {LAST_BACKUP_KEY, BACKUP_MINUTES_KEY, FOLDER_KEY};
    assert AgreeOn(q, s1, BACKUP_MINUTES_KEY);
    GettersReadOnlyTheirKey(q, s1, now);
    assert AgreeOn(s2, AfterBackup(q, now), BACKUP_MINUTES_KEY);
    GettersReadOnlyTheirKey(s2, AfterBackup(q, now), now);
  }

  /** The backup leaves the delete settings and the save settings as they were. */
  lemma AfterBackupKeepsOtherSettings(q: Store, now: int)
    ensures DeleteEnabled(AfterBackup(q, now)) == DeleteEnabled(q)
    ensures ReadDeleteMinutes(ReadSaveFolder(AfterBackup(q, now)).store).value == ReadDeleteMinutes(q).value
    ensures GetTime(AfterBackup(q, now), LAST_SAVE_KEY, MIN_TIME) == GetTime(q, LAST_SAVE_KEY, MIN_TIME)
    ensures ReadSaveMinutes(AfterBackup(q, now)).value == ReadSaveMinutes(q).value
  {
    var r := AfterBackup(q, now);
    AfterBackupFrame(q, now);
    assert AgreeOn(q, r, DELETE_ENABLED_KEY) && AgreeOn(q, r, LAST_SAVE_KEY) && AgreeOn(q, r, SAVE_MINUTES_KEY);
    assert AgreeOn(q, r, DELETE_MINUTES_KEY);
    ReadsAgree(q, r, DELETE_ENABLED_KEY);
    ReadsAgree(q, r, LAST_SAVE_KEY);
    GettersReadOnlyTheirKey(q, r, now);
    var s := ReadSaveFolder(r).store;
    GettersWriteOnlyTheirKey(r, now);
    assert AgreeOn(r, s, DELETE_MINUTES_KEY);
    GettersReadOnlyTheirKey(r, s, now);
  }

  /** Deletion writes only the folder setting and the age limit. */
  lemma PruneStepFrame(w: World, now: int)
    ensures SameExcept(w.prefs, PruneStep(w, now).prefs, {FOLDER_KEY, DELETE_MINUTES_KEY})
  {
    var s1 := ReadSaveFolder(w.prefs).store;
    GettersWriteOnlyTheirKey(w.prefs, now);
    GettersWriteOnlyTheirKey(s1, now);
    SameExceptTransitive(w.prefs, s1, ReadDeleteMinutes(s1).store, {FOLDER_KEY}, {DELETE_MINUTES_KEY});
    assert {FOLDER_KEY} + {DELETE_MINUTES_KEY} == {FOLDER_KEY, DELETE_MINUTES_KEY};
  }

  /** Backup happened in the tick. */
  function BackedUp(p: Store, now: int): bool {
    BackupEnabled(p) && BackupDue(p, now)
  }

  /** The save step leaves the backup decision and the deletion switch as they were. */
  lemma SaveStepKeepsBackupDecision(w: World, now: int)
    ensures BackedUp(SaveStep(w, now).prefs, now) == BackedUp(w.prefs, now)
    ensures DeleteEnabled(SaveStep(w, now).prefs) == DeleteEnabled(w.prefs)
  {
    SaveStepKeepsBackupSettings(w, now);
  }

  /** The reads of the backup timestamp and interval before a backup decision. */
  function BackupReads(p: Store, now: int): Store {
    ReadBackupMinutes(ReadLastBackupTime(p, now).store).store
  }

  lemma BackupReadsFrame(p: Store, now: int)
    ensures SameExcept(p, BackupReads(p, now), {LAST_BACKUP_KEY, BACKUP_MINUTES_KEY})
    ensures GetTime(BackupReads(p, now), LAST_BACKUP_KEY, MIN_TIME) == ReadLastBackupTime(p, now).value
    ensures ReadBackupMinutes(BackupReads(p, now)).value == ReadBackupMinutes(p).value
    ensures ReadBackupMinutes(ReadLastBackupTime(p, now).store).value == ReadBackupMinutes(p).value
  {
    var s1 := ReadLastBackupTime(p, now).store;
    var s2 := BackupReads(p, now);
    GettersWriteOnlyTheirKey(p, now);
    GettersWriteOnlyTheirKey(s1, now);
    SameExceptTransitive(p, s1, s2, {LAST_BACKUP_KEY}, {BACKUP_MINUTES_KEY});
    assert {LAST_BACKUP_KEY} + {BACKUP_MINUTES_KEY} == {LAST_BACKUP_KEY, BACKUP_MINUTES_KEY};
    assert AgreeOn(p, s1, BACKUP_MINUTES_KEY) && AgreeOn(s1, s2, LAST_BACKUP_KEY);
    GettersReadOnlyTheirKey(p, s1, now);
    ReadsAgree(s1, s2, LAST_BACKUP_KEY);
  }

  /** The backup half when no backup is made. */
  lemma BackupPhaseSkipped(w: World, now: int, stamp: Stamp, scenes: seq<string>)
    requires ValidStamp(stamp) && !BackedUp(w.prefs, now)
    ensures var r := BackupPhase(w, now, stamp, scenes);
      r.events == w.events && r.backups == w.backups
      && r.prefs == (if BackupEnabled(w.prefs) then BackupReads(w.prefs, now) else w.prefs)
  {
    if BackupEnabled(w.prefs) {
      BackupReadsFrame(w.prefs, now);
    }
  }

  /** The backup half when a backup is made. */
  lemma BackupPhaseTaken(w: World, now: int, stamp: Stamp, scenes: seq<string>)
    requires ValidStamp(stamp) && BackedUp(w.prefs, now)
    ensures var stamped := World(AfterBackup(w.prefs, now), AddBackups(w.backups, scenes, stamp, now), w.events + [BackupsSaved]);
      BackupPhase(w, now, stamp, scenes) == DeletePhase(stamped, now)
  {
    BackupReadsFrame(w.prefs, now);
  }

  /** The events of the backup half. */
  lemma BackupPhaseEvents(w: World, now: int, stamp: Stamp, scenes: seq<string>)
    requires ValidStamp(stamp)
    ensures BackupPhase(w, now, stamp, scenes).events == w.events
      + (if BackedUp(w.prefs, now) then [BackupsSaved] + (if DeleteEnabled(w.prefs) then [BackupsPruned] else []) else [])
  {
    if BackedUp(w.prefs, now) {
      BackupPhaseTaken(w, now, stamp, scenes);
      AfterBackupKeepsOtherSettings(w.prefs, now);
    } else {
      BackupPhaseSkipped(w, now, stamp, scenes);
    }
  }

  /**
   * The actions of a tick, in order: a save exactly when it is due; a
   * backup exactly when backups are enabled and one is due; the deletion
   * of old backups exactly when a backup was just made and deletion is enabled.
   */
  lemma TickEvents(w: World, now: int, stamp: Stamp, scenes: seq<string>)
    requires ValidStamp(stamp)
    ensures Tick(w, now, stamp, scenes).events == w.events + PlannedEvents(w.prefs, now)
  {
    var saved := SaveStep(w, now);
    SaveStepKeepsBackupDecision(w, now);
    BackupPhaseEvents(saved, now, stamp, scenes);
    var a := if SaveDue(w.prefs, now) then [ScenesSaved] else [];
    var b := if BackedUp(w.prefs, now) then [BackupsSaved] + (if DeleteEnabled(w.prefs) then [BackupsPruned] else []) else [];
    assert PlannedEvents(w.prefs, now) == a + b;
    EventsAppend(w.events, a, b);
  }

  lemma EventsAppend(x: seq<Event>, y: seq<Event>, z: seq<Event>)
    ensures (x + y) + z == x + (y + z)
  {
  }

  /** The keys the backup half may write. */
  const BACKUP_KEYS := {LAST_BACKUP_KEY, BACKUP_MINUTES_KEY, FOLDER_KEY, DELETE_MINUTES_KEY}

  /** The save settings are not among the backup keys. */
  lemma SaveKeysAreNotBackupKeys()
    ensures LAST_SAVE_KEY !in BACKUP_KEYS && SAVE_MINUTES_KEY !in BACKUP_KEYS
  {
    assert LAST_SAVE_KEY[13] == 'S' && SAVE_MINUTES_KEY[9] == 'S';
    assert LAST_BACKUP_KEY[13] == 'B' && BACKUP_MINUTES_KEY[9] == 'B';
    assert FOLDER_KEY[9] == 'F' && DELETE_MINUTES_KEY[9] == 'D';
  }

  /** The backup half writes only the backup keys; it keeps the backup interval it read. */
  lemma BackupPhaseFrame(w: World, now: int, stamp: Stamp, scenes: seq<string>)
    requires ValidStamp(stamp)
    ensures SameExcept(w.prefs, BackupPhase(w, now, stamp, scenes).prefs, BACKUP_KEYS)
    ensures ReadBackupMinutes(BackupPhase(w, now, stamp, scenes).prefs).value == ReadBackupMinutes(w.prefs).value
  {
    var r := BackupPhase(w, now, stamp, scenes).prefs;
    if !BackedUp(w.prefs, now) {
      BackupPhaseSkipped(w, now, stamp, scenes);
      if BackupEnabled(w.prefs) {
        BackupReadsFrame(w.prefs, now);
      }
    } else {
      BackupPhaseTaken(w, now, stamp, scenes);
      var stamped := World(AfterBackup(w.prefs, now), AddBackups(w.backups, scenes, stamp, now), w.events + [BackupsSaved]);
      AfterBackupFrame(w.prefs, now);
      if DeleteEnabled(stamped.prefs) {
        PruneStepFrame(stamped, now);
        SameExceptTransitive(w.prefs, stamped.prefs, r, {LAST_BACKUP_KEY, BACKUP_MINUTES_KEY, FOLDER_KEY}, {FOLDER_KEY, DELETE_MINUTES_KEY});
        assert {LAST_BACKUP_KEY, BACKUP_MINUTES_KEY, FOLDER_KEY} + {FOLDER_KEY, DELETE_MINUTES_KEY} == BACKUP_KEYS;
        assert AgreeOn(stamped.prefs, r, BACKUP_MINUTES_KEY);
        GettersReadOnlyTheirKey(stamped.prefs, r, now);
      }
    }
  }

  /** The backup timestamp after the backup half. */
  lemma BackupPhaseBackupTime(w: World, now: int, stamp: Stamp, scenes: seq<string>)
    requires ValidStamp(stamp)
    ensures GetTime(BackupPhase(w, now, stamp, scenes).prefs, LAST_BACKUP_KEY, MIN_TIME) ==
      (if BackedUp(w.prefs, now) then now
       else if BackupEnabled(w.prefs) then ReadLastBackupTime(w.prefs, now).value
       else GetTime(w.prefs, LAST_BACKUP_KEY, MIN_TIME))
  {
    if !BackedUp(w.prefs, now) {
      BackupPhaseSkipped(w, now, stamp, scenes);
      if BackupEnabled(w.prefs) {
        BackupReadsFrame(w.prefs, now);
      }
    } else {
      BackupPhaseTaken(w, now, stamp, scenes);
      var stamped := World(AfterBackup(w.prefs, now), AddBackups(w.backups, scenes, stamp, now), w.events + [BackupsSaved]);
      AfterBackupFrame(w.prefs, now);
      if DeleteEnabled(stamped.prefs) {
        PruneStepFrame(stamped, now);
        assert AgreeOn(stamped.prefs, PruneStep(stamped, now).prefs, LAST_BACKUP_KEY);
        ReadsAgree(stamped.prefs, PruneStep(stamped, now).prefs, LAST_BACKUP_KEY);
      }
    }
  }

  /** The backup folder after the backup half. */
  lemma BackupPhaseFiles(w: World, now: int, stamp: Stamp, scenes: seq<string>)
    requires ValidStamp(stamp)
    ensures BackupPhase(w, now, stamp, scenes).backups ==
      (if !BackedUp(w.prefs, now) then w.backups
       else if DeleteEnabled(w.prefs)
       then Prune(AddBackups(w.backups, scenes, stamp, now), now, ReadDeleteMinutes(w.prefs).value)
       else AddBackups(w.backups, scenes, stamp, now))
  {
    if !BackedUp(w.prefs, now) {
      BackupPhaseSkipped(w, now, stamp, scenes);
    } else {
      BackupPhaseTaken(w, now, stamp, scenes);
      AfterBackupKeepsOtherSettings(w.prefs, now);
    }
  }

  /** A tick writes only its timestamps and the getters' write-backs; every other setting stays. */
  lemma TickFrame(w: World, now: int, stamp: Stamp, scenes: seq<string>)
    requires ValidStamp(stamp)
    ensures SameExcept(w.prefs, Tick(w, now, stamp, scenes).prefs, TICK_KEYS)
  {
    var saved := SaveStep(w, now);
    BackupPhaseFrame(saved, now, stamp, scenes);
    SameExceptTransitive(w.prefs, saved.prefs, Tick(w, now, stamp, scenes).prefs, {LAST_SAVE_KEY, SAVE_MINUTES_KEY}, BACKUP_KEYS);
    assert {LAST_SAVE_KEY, SAVE_MINUTES_KEY} + BACKUP_KEYS == TICK_KEYS;
  }

  /** The save step leaves the backup timestamp as it was. */
  lemma SaveStepKeepsBackupTime(w: World, now: int)
    ensures BackupEnabled(SaveStep(w, now).prefs) == BackupEnabled(w.prefs)
    ensures ReadLastBackupTime(SaveStep(w, now).prefs, now).value == ReadLastBackupTime(w.prefs, now).value
    ensures GetTime(SaveStep(w, now).prefs, LAST_BACKUP_KEY, MIN_TIME) == GetTime(w.prefs, LAST_BACKUP_KEY, MIN_TIME)
  {
    var q := SaveStep(w, now).prefs;
    assert SameExcept(w.prefs, q, {LAST_SAVE_KEY, SAVE_MINUTES_KEY});
    assert AgreeOn(w.prefs, q, LAST_BACKUP_KEY) && AgreeOn(w.prefs, q, BACKUP_ENABLED_KEY);
    ReadsAgree(w.prefs, q, LAST_BACKUP_KEY);
    ReadsAgree(w.prefs, q, BACKUP_ENABLED_KEY);
    GettersReadOnlyTheirKey(w.prefs, q, now);
  }

  /**
   * LastSaveTime after a tick: now exactly when a save was due, otherwise
   * what its getter returned (the stored time, or now if none was stored),
   * whatever the backup half did.
   */
  lemma TickSaveTime(w: World, now: int, stamp: Stamp, scenes: seq<string>)
    requires ValidStamp(stamp)
    ensures GetTime(Tick(w, now, stamp, scenes).prefs, LAST_SAVE_KEY, MIN_TIME) ==
      (if SaveDue(w.prefs, now) then now else ReadLastSaveTime(w.prefs, now).value)
  {
    var saved := SaveStep(w, now);
    var r := Tick(w, now, stamp, scenes);
    BackupPhaseFrame(saved, now, stamp, scenes);
    SaveKeysAreNotBackupKeys();
    assert AgreeOn(saved.prefs, r.prefs, LAST_SAVE_KEY);
    ReadsAgree(saved.prefs, r.prefs, LAST_SAVE_KEY);
  }

  /**
   * LastBackupTime after a tick: now exactly when a backup was made,
   * otherwise what its getter returned, and not even read when backups are
   * off, whether or not the tick saved.
   */
  lemma TickBackupTime(w: World, now: int, stamp: Stamp, scenes: seq<string>)
    requires ValidStamp(stamp)
    ensures GetTime(Tick(w, now, stamp, scenes).prefs, LAST_BACKUP_KEY, MIN_TIME) ==
      (if BackedUp(w.prefs, now) then now
       else if BackupEnabled(w.prefs) then ReadLastBackupTime(w.prefs, now).value
       else GetTime(w.prefs, LAST_BACKUP_KEY, MIN_TIME))
  {
    SaveStepKeepsBackupDecision(w, now);
    SaveStepKeepsBackupTime(w, now);
    BackupPhaseBackupTime(SaveStep(w, now), now, stamp, scenes);
  }

  /**
   * The backup folder after a tick: the scenes' backups are added exactly
   * when a backup was made, and then the expired scenes are deleted if
   * deletion is enabled.
   */
  lemma TickFiles(w: World, now: int, stamp: Stamp, scenes: seq<string>)
    requires ValidStamp(stamp)
    ensures Tick(w, now, stamp, scenes).backups ==
      (if !BackedUp(w.prefs, now) then w.backups
       else if DeleteEnabled(w.prefs)
       then Prune(AddBackups(w.backups, scenes, stamp, now), now, ReadDeleteMinutes(w.prefs).value)
       else AddBackups(w.backups, scenes, stamp, now))
  {
    SaveStepKeepsBackupSettings(w, now);
    SaveStepKeepsBackupDecision(w, now);
    BackupPhaseFiles(SaveStep(w, now), now, stamp, scenes);
  }

  /**
   * Which actions a tick takes (its events are PlannedEvents, by
   * TickEvents): it saves exactly when a save is due, backs up exactly when
   * backups are on and one is due, and deletes old backups exactly right
   * after a backup when deletion is on; the backup comes after the save and
   * the deletion after the backup.
   */
  lemma PlannedActions(p: Store, now: int)
    ensures var added := PlannedEvents(p, now);
      && (ScenesSaved in added <==> SaveDue(p, now))
      && (BackupsSaved in added <==> BackupEnabled(p) && BackupDue(p, now))
      && (BackupsPruned in added <==> BackupsSaved in added && DeleteEnabled(p))
      && (ScenesSaved in added ==> added[0] == ScenesSaved)
      && (BackupsSaved in added ==> added[|added| - 1] == BackupsSaved || added[|added| - 2] == BackupsSaved)
      && (BackupsPruned in added ==> added[|added| - 1] == BackupsPruned && added[|added| - 2] == BackupsSaved)
  {
  }

  /** A tick keeps the save interval as its getter returns it. */
  lemma TickKeepsSaveInterval(w: World, now: int, stamp: Stamp, scenes: seq<string>)
    requires ValidStamp(stamp)
    ensures ReadSaveMinutes(Tick(w, now, stamp, scenes).prefs).value == ReadSaveMinutes(w.prefs).value
  {
    var saved := SaveStep(w, now);
    var r := Tick(w, now, stamp, scenes).prefs;
    BackupPhaseFrame(saved, now, stamp, scenes);
    SaveKeysAreNotBackupKeys();
    assert AgreeOn(saved.prefs, r, SAVE_MINUTES_KEY);
    GettersReadOnlyTheirKey(saved.prefs, r, now);
  }

  /** The save step keeps the backup interval as its getter returns it. */
  lemma SaveStepKeepsBackupInterval(w: World, now: int)
    ensures ReadBackupMinutes(SaveStep(w, now).prefs).value == ReadBackupMinutes(w.prefs).value
  {
    SaveStepKeepsBackupSettings(w, now);
  }

  /** A tick keeps the backup interval as its getter returns it. */
  lemma TickKeepsBackupInterval(w: World, now: int, stamp: Stamp, scenes: seq<string>)
    requires ValidStamp(stamp)
    ensures ReadBackupMinutes(Tick(w, now, stamp, scenes).prefs).value == ReadBackupMinutes(w.prefs).value
  {
    SaveStepKeepsBackupInterval(w, now);
    BackupPhaseFrame(SaveStep(w, now), now, stamp, scenes);
  }

  /** A tick keeps the backup switch. */
  lemma TickKeepsBackupSwitch(w: World, now: int, stamp: Stamp, scenes: seq<string>)
    requires ValidStamp(stamp)
    ensures BackupEnabled(Tick(w, now, stamp, scenes).prefs) == BackupEnabled(w.prefs)
  {
    var r := Tick(w, now, stamp, scenes).prefs;
    TickFrame(w, now, stamp, scenes);
    assert AgreeOn(w.prefs, r, BACKUP_ENABLED_KEY);
    ReadsAgree(w.prefs, r, BACKUP_ENABLED_KEY);
  }

  /** With a positive SaveMinutes, a second tick at the same moment does not save again. */
  lemma SecondTickDoesNotSave(w: World, now: int, stamp: Stamp, scenes: seq<string>)
    requires ValidStamp(stamp) && ReadSaveMinutes(w.prefs).value > 0
    ensures !SaveDue(Tick(w, now, stamp, scenes).prefs, now)
  {
    TickSaveTime(w, now, stamp, scenes);
    TickKeepsSaveInterval(w, now, stamp, scenes);
  }

  /** With a positive BackupMinutes, a second tick at the same moment does not back up again. */
  lemma SecondTickDoesNotBackUp(w: World, now: int, stamp: Stamp, scenes: seq<string>)
    requires ValidStamp(stamp) && ReadBackupMinutes(w.prefs).value > 0
    ensures !BackedUp(Tick(w, now, stamp, scenes).prefs, now)
  {
    TickBackupTime(w, now, stamp, scenes);
    TickKeepsBackupInterval(w, now, stamp, scenes);
    TickKeepsBackupSwitch(w, now, stamp, scenes);
  }

  /** A tick keeps the deletion switch. */
  lemma TickKeepsDeleteSwitch(w: World, now: int, stamp: Stamp, scenes: seq<string>)
    requires ValidStamp(stamp)
    ensures DeleteEnabled(Tick(w, now, stamp, scenes).prefs) == DeleteEnabled(w.prefs)
  {
    var r := Tick(w, now, stamp, scenes).prefs;
    TickFrame(w, now, stamp, scenes);
    assert AgreeOn(w.prefs, r, DELETE_ENABLED_KEY);
    ReadsAgree(w.prefs, r, DELETE_ENABLED_KEY);
  }

  /** With BackupMinutes at -1 and a last backup not in the future, a backup is due. */
  lemma MinusOneIntervalIsDue(p: Store, now: int)
    requires ReadBackupMinutes(p).value == -1 && GetTime(p, LAST_BACKUP_KEY, MIN_TIME) <= now
    ensures BackupDue(p, now)
  {
  }

  /** With backups on and BackupMinutes at -1, a tick backs up, then deletes old backups if deletion is on. */
  lemma MinusOneIntervalTickBacksUp(w: World, now: int, stamp: Stamp, scenes: seq<string>)
    requires ValidStamp(stamp) && BacksUpAtOnce(w.prefs, now)
    ensures BackupsSaved in Tick(w, now, stamp, scenes).events[|w.events|..]
    ensures DeleteEnabled(w.prefs) ==> BackupsPruned in Tick(w, now, stamp, scenes).events[|w.events|..]
  {
    MinusOneIntervalIsDue(w.prefs, now);
    TickEvents(w, now, stamp, scenes);
    assert Tick(w, now, stamp, scenes).events[|w.events|..] == PlannedEvents(w.prefs, now);
  }

  /** The settings under which every tick backs up: backups on, BackupMinutes -1, no last backup in the future. */
  predicate BacksUpAtOnce(p: Store, now: int) {
    BackupEnabled(p) && ReadBackupMinutes(p).value == -1 && GetTime(p, LAST_BACKUP_KEY, MIN_TIME) <= now
  }

  /** After such a tick the interval still reads -1, the last backup is now, and the deletion switch is kept. */
  lemma MinusOneIntervalPersists(w: World, now: int, stamp: Stamp, scenes: seq<string>)
    requires ValidStamp(stamp) && BacksUpAtOnce(w.prefs, now)
    ensures BacksUpAtOnce(Tick(w, now, stamp, scenes).prefs, now)
    ensures DeleteEnabled(Tick(w, now, stamp, scenes).prefs) == DeleteEnabled(w.prefs)
  {
    MinusOneIntervalIsDue(w.prefs, now);
    TickBackupTime(w, now, stamp, scenes);
    TickKeepsBackupInterval(w, now, stamp, scenes);
    TickKeepsBackupSwitch(w, now, stamp, scenes);
    TickKeepsDeleteSwitch(w, now, stamp, scenes);
  }

  /** Ticks at the same moment, one after the other: each world is the tick of the one before. */
  predicate IsRun(ws: seq<World>, now: int, stamp: Stamp, scenes: seq<string>)
    requires ValidStamp(stamp)
  {
    forall i :: 0 < i < |ws| ==> ws[i] == Tick(ws[i - 1], now, stamp, scenes)
  }

  /** The settings that make a tick back up hold all along a run. */
  lemma {:induction false} RunKeepsBackingUp(ws: seq<World>, i: int, now: int, stamp: Stamp, scenes: seq<string>)
    requires ValidStamp(stamp) && IsRun(ws, now, stamp, scenes) && 0 <= i < |ws|
    requires BacksUpAtOnce(ws[0].prefs, now)
    ensures BacksUpAtOnce(ws[i].prefs, now) && DeleteEnabled(ws[i].prefs) == DeleteEnabled(ws[0].prefs)
  {
    if i > 0 {
      RunKeepsBackingUp(ws, i - 1, now, stamp, scenes);
      assert ws[i] == Tick(ws[i - 1], now, stamp, scenes);
      MinusOneIntervalPersists(ws[i - 1], now, stamp, scenes);
    }
  }

  /**
   * The defect in BackupMinutes, tick by tick: with backups on and no
   * interval stored, BackupMinutes reads -1, so every tick of a run backs
   * up (and then deletes old backups when deletion is on), even ticks that
   * follow one another at the same moment: the backup timer never waits.
   */
  lemma UnsetIntervalBacksUpEveryTick(ws: seq<World>, i: int, now: int, stamp: Stamp, scenes: seq<string>)
    requires ValidStamp(stamp) && IsRun(ws, now, stamp, scenes) && 0 <= i < |ws| - 1
    requires BackupEnabled(ws[0].prefs) && BACKUP_MINUTES_KEY !in ws[0].prefs
    requires GetTime(ws[0].prefs, LAST_BACKUP_KEY, MIN_TIME) <= now
    ensures |ws[i].events| <= |ws[i + 1].events| && BackupsSaved in ws[i + 1].events[|ws[i].events|..]
    ensures DeleteEnabled(ws[0].prefs) ==> BackupsPruned in ws[i + 1].events[|ws[i].events|..]
  {
    assert BacksUpAtOnce(ws[0].prefs, now);
    RunKeepsBackingUp(ws, i, now, stamp, scenes);
    assert ws[i + 1] == Tick(ws[i], now, stamp, scenes);
    TickEvents(ws[i], now, stamp, scenes);
    MinusOneIntervalTickBacksUp(ws[i], now, stamp, scenes);
  }

  /** With nothing stored at all, the first tick backs up the scenes and deletes old backups. */
  lemma EmptyStoreBacksUpAndPrunes(files: Folder, now: int, stamp: Stamp, scenes: seq<string>)
    requires ValidStamp(stamp) && now >= MIN_TIME
    ensures var r := Tick(World(map[], files, []), now, stamp, scenes);
      BackupsSaved in r.events && BackupsPruned in r.events
  {
    var w := World(map[], files, []);
    MinusOneIntervalTickBacksUp(w, now, stamp, scenes);
    assert Tick(w, now, stamp, scenes).events[0..] == Tick(w, now, stamp, scenes).events;
  }

  /** The backup decision as the getter's documentation intends it: with the corrected BackupMinutes. */
  function BackupDueFixed(p: Store, now: int): bool {
    now - ReadLastBackupTime(p, now).value >= 60 * ReadBackupMinutesFixed(p).value
  }

  /**
   * The corrected decision: with a negative or missing interval the backup
   * waits the default 20 minutes, so right after a backup none is due.
   */
  lemma FixedUnsetIntervalWaits(p: Store, now: int)
    requires GetInt(p, BACKUP_MINUTES_KEY, -1) < 0
    ensures BackupDueFixed(p, now) <==> now - ReadLastBackupTime(p, now).value >= 60 * DEFAULT_BACKUP_MINUTES
    ensures GetTime(p, LAST_BACKUP_KEY, MIN_TIME) == now ==> !BackupDueFixed(p, now)
  {
  }

  /**
   * The static class AutoSave: the EditorPrefs it reads and writes, the
   * backup folder and the actions taken.  Each property getter is a method
   * that returns the getter's value and performs its write-back.
   */
  class AutoSave {
    var prefs: Store
    var backups: Folder
    var events: seq<Event>

    function State(): World
      reads this
    {
      World(prefs, backups, events)
    }

    constructor(p: Store, files: Folder)
      ensures State() == World(p, files, [])
    {
      prefs := p;
      backups := files;
      events := [];
    }

    method SaveFolder() returns (folder: string)
      modifies this
      ensures Read(folder, prefs) == ReadSaveFolder(old(prefs))
      ensures backups == old(backups) && events == old(events)
    {
      var r := ReadSaveFolder(prefs);
      folder, prefs := r.value, r.store;
    }

    method SaveMinutes() returns (minutes: int)
      modifies this
      ensures Read(minutes, prefs) == ReadSaveMinutes(old(prefs))
      ensures backups == old(backups) && events == old(events)
    {
      var r := ReadSaveMinutes(prefs);
      minutes, prefs := r.value, r.store;
    }

    method BackupMinutes() returns (minutes: int)
      modifies this
      ensures Read(minutes, prefs) == ReadBackupMinutes(old(prefs))
      ensures backups == old(backups) && events == old(events)
    {
      var r := ReadBackupMinutes(prefs);
      minutes, prefs := r.value, r.store;
    }

    method DeleteMinutes() returns (minutes: int)
      modifies this
      ensures Read(minutes, prefs) == ReadDeleteMinutes(old(prefs))
      ensures backups == old(backups) && events == old(events)
    {
      var r := ReadDeleteMinutes(prefs);
      minutes, prefs := r.value, r.store;
    }

    method LastSaveTime(now: int) returns (t: int)
      modifies this
      ensures Read(t, prefs) == ReadLastSaveTime(old(prefs), now)
      ensures backups == old(backups) && events == old(events)
    {
      var r := ReadLastSaveTime(prefs, now);
      t, prefs := r.value, r.store;
    }

    method LastBackupTime(now: int) returns (t: int)
      modifies this
      ensures Read(t, prefs) == ReadLastBackupTime(old(prefs), now)
      ensures backups == old(backups) && events == old(events)
    {
      var r := ReadLastBackupTime(prefs, now);
      t, prefs := r.value, r.store;
    }

    /** SaveScene: the open scenes are saved. */
    method SaveScene()
      modifies this
      ensures State() == old(State()).(events := old(events) + [ScenesSaved])
    {
      events := events + [ScenesSaved];
    }

    /**
     * SaveBackupScene: the folder is ensured, then each loaded scene is
     * written under its backup name (the folder setting is read again for
     * every scene).
     */
    method SaveBackupScene(scenes: seq<string>, stamp: Stamp, now: int)
      requires ValidStamp(stamp)
      modifies this
      ensures State() == BackupStep(old(State()), scenes, stamp, now)
    {
      var folder := SaveFolder();
      var i := 0;
      while i < |scenes|
        invariant 0 <= i <= |scenes|
        invariant prefs == ReadSaveFolder(old(prefs)).store
        invariant backups == AddBackups(old(backups), scenes[..i], stamp, now)
        invariant events == old(events)
      {
        var name := SceneBackupName(scenes[i], stamp);
        GettersAreStable(old(prefs), now);
        folder := SaveFolder();
        AddBackupsSnoc(old(backups), scenes, i, stamp, now);
        backups := backups[name := now];
        i := i + 1;
      }
      assert scenes[..i] == scenes;
      events := events + [BackupsSaved];
    }

    /**
     * DeleteOldBackups: the "*.unity" files of the folder are listed, and
     * each listed file whose age is at least DeleteMinutes (read again for
     * every file) is deleted.
     */
    method DeleteOldBackups(now: int)
      modifies this
      ensures State() == PruneStep(old(State()), now)
    {
      var folder := SaveFolder();
      ghost var folderStore := prefs;
      ghost var limitRead := ReadDeleteMinutes(folderStore);
      ghost var doomed := Doomed(old(backups), now, limitRead.value);
      var listed := set f | f in backups && IsSceneFile(f);
      if listed != {} {
        var remaining := listed;
        while remaining != {}
          invariant remaining <= listed
          invariant prefs == if remaining == listed then folderStore else limitRead.store
          invariant backups == old(backups) - (doomed - remaining)
          invariant events == old(events)
          decreases |remaining|
        {
          var f :| f in remaining;
          GettersAreStable(folderStore, now);
          var limit := DeleteMinutes();
          assert f in backups && backups[f] == old(backups)[f];
          if now - backups[f] >= 60 * limit {
            backups := backups - {f};
          }
          remaining := remaining - {f};
        }
        assert HasSceneFile(old(backups));
      } else {
        assert forall f :: f in backups && IsSceneFile(f) ==> f in listed;
      }
      events := events + [BackupsPruned];
    }

    /** OnUpdate: one editor tick. */
    method OnUpdate(now: int, stamp: Stamp, scenes: seq<string>)
      requires ValidStamp(stamp)
      modifies this
      ensures State() == Tick(old(State()), now, stamp, scenes)
    {
      var lastSave := LastSaveTime(now);
      var saveMinutes := SaveMinutes();
      if now - lastSave >= 60 * saveMinutes {
        SaveScene();
        prefs := SetTime(prefs, LAST_SAVE_KEY, now);
      }
      assert State() == SaveStep(old(State()), now);
      ghost var saved := State();
      if GetBool(prefs, BACKUP_ENABLED_KEY, true) {
        var lastBackup := LastBackupTime(now);
        var backupMinutes := BackupMinutes();
        if now - lastBackup >= 60 * backupMinutes {
          SaveBackupScene(scenes, stamp, now);
          prefs := SetTime(prefs, LAST_BACKUP_KEY, now);
          if GetBool(prefs, DELETE_ENABLED_KEY, true) {
            DeleteOldBackups(now);
          }
        }
      }
      assert State() == BackupPhase(saved, now, stamp, scenes);
    }
  }
}
