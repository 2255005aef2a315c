# AutoSave for the Unity Editor, in Dafny

A model of the logic of the AutoSave editor plugin, in both of its versions, with proofs of what it does.

**GameBang (version 1.0)**
- The tick scheduler saves the open scenes and backs them up into a folder. Saving and backing up each run on their own interval and timestamp. Old backups are deleted only right after a backup, and DeleteMinutes is their age limit, not an interval.
- The scheduler, the getters it calls and the status message follow the code as written, BackupMinutes included (see Findings). The corrected BackupMinutes getter and the backup decision it would give are modelled beside them.
- The backup naming rule.
- The retention rule.
- The "Choose folder" path relativisation.
- The property getters, which write a default back into EditorPrefs.
- The status message GetInfo / GetIntervalsInfo.

**Desidus (version 2.0)**
- The tick scheduler saves the scenes, or shows a countdown popup, when a scene is dirty.
- The popup window's state machine: countdown, "Save now" and "Skip".
- EnableAutoSave, DisableAutoSave and EnableInBackground, with the editor's event registrations.
- The play-mode handler.
- The settings, including the clamped popup timeout.
- The status message.
- The NavMesh area-mask field of DesidusEditorUtility: compression and expansion of masks.

## How the model works

**Stores and time**
- EditorPrefs is a map from key to a typed value (`Prefs.Store`). Every getter returns its value together with the store after its write-back (`Prefs.Read`).
- Time is whole seconds since DateTime.MinValue, passed in as `now`. "`TotalMinutes >= m`" becomes "`elapsed >= 60 * m`". The popup's `timeSinceStartup` is a `real`.

**Classes and specification functions**
- Each static class, and the popup window, is a Dafny `class`. Its fields are the store and the state the C# code changes.
- Every method is proved to produce exactly the state given by a specification function of the old state, for example `AutoSave.OnUpdate` and `Tick`. The lemmas are proved about those functions.

**What the model records instead of I/O**
- Scene saves, backups and deletions are recorded in an event list.
- The backup folder is a map from file name to creation time.
- The editor's `update` and `playModeStateChanged` events are counts of registrations. The editor calls a handler once per registration.

**Status messages**
- Each status message is built from typed lines (`InfoLines`).
- A parser reads the settings back, so "the message reports the settings" is a proved round trip.

## Model

| member | source | states |
|---|---|---|
| GameBangSettings.ReadSaveFolder | Assets/GameBang/AutoSave/Editor/AutoSave.cs:90-106 | an empty stored folder reads as "./AutoSaves/" and that value is written back; a non-empty folder is returned and nothing is written |
| GameBangSettings.ReadSaveMinutes | Assets/GameBang/AutoSave/Editor/AutoSave.cs:113-129 | a stored or missing 0 reads as 10 and is written back; any other value is returned unchanged without a write; the result is never 0 |
| GameBangSettings.ReadBackupMinutes | Assets/GameBang/AutoSave/Editor/AutoSave.cs:136-152 | the getter as written, which the scheduler and the message use: only values below -1 become 20 and are written back, so the unset key reads as -1 with no write; the result is never below -1 |
| GameBangSettings.ReadBackupMinutesFixed | Assets/GameBang/AutoSave/Editor/AutoSave.cs:136-152 | the corrected getter: any negative value (the unset key included) becomes 20 and is written back; the result is never negative |
| GameBangSettings.ReadDeleteMinutes | Assets/GameBang/AutoSave/Editor/AutoSave.cs:159-175 | an unset or negative age limit reads as 60 and is written back; the result is never negative |
| GameBangSettings.ReadLastSaveTime | Assets/GameBang/AutoSave/Editor/AutoSave.cs:279-296 | a missing or DateTime.MinValue save time reads as now and now is written back; any other stored time is returned |
| GameBangSettings.ReadLastBackupTime | Assets/GameBang/AutoSave/Editor/AutoSave.cs:304-321 | the same rule for the backup time |
| GameBangSettings.GettersAreStable | Assets/GameBang/AutoSave/Editor/AutoSave.cs:90-175 | a second read through any getter returns the same value and writes nothing more |
| GameBangSettings.GettersWriteOnlyTheirKey | Assets/GameBang/AutoSave/Editor/AutoSave.cs:90-175 | each getter's write-back touches only its own key |
| GameBangSettings.GettersReadOnlyTheirKey | Assets/GameBang/AutoSave/Editor/AutoSave.cs:90-175 | each getter's value depends only on what is stored under its own key |
| GameBangSettings.UnsetBackupIntervalNeverWaits | Assets/GameBang/AutoSave/Editor/AutoSave.cs:140-145 | with nothing stored, the as-written getter returns -1, so every elapsed time counts as due; the corrected getter waits 20 minutes |
| GameBangNaming.Pad2 | Assets/GameBang/AutoSave/Editor/AutoSave.cs:799 | a two-digit field: exactly two digits whose value is the number |
| GameBangNaming.Pad4 | Assets/GameBang/AutoSave/Editor/AutoSave.cs:799 | a four-digit year: exactly four digits whose value is the number |
| GameBangNaming.FormatStamp | Assets/GameBang/AutoSave/Editor/AutoSave.cs:799 | "yyyy-MM-dd_HH-mm-ss" is always 19 characters long |
| GameBangNaming.StampRoundTrip | Assets/GameBang/AutoSave/Editor/AutoSave.cs:799 | the formatted timestamp parses back to the same calendar fields |
| GameBangNaming.FileName | Assets/GameBang/AutoSave/Editor/AutoSave.cs:798 | the file name of a path contains no directory separator |
| GameBangNaming.FileNameWithoutExtension | Assets/GameBang/AutoSave/Editor/AutoSave.cs:798 | the stem contains no directory separator |
| GameBangNaming.SceneBackupName | Assets/GameBang/AutoSave/Editor/AutoSave.cs:796-800 | a backup name starts with the scene's stem and "_" and ends with ".unity", whatever the scene's own extension was |
| GameBangNaming.BackupNameRoundTrip | Assets/GameBang/AutoSave/Editor/AutoSave.cs:796-800 | the stem and the backup time can both be read back from a backup name |
| GameBangNaming.BackupNamesCollideOnlyWithinOneSecond | Assets/GameBang/AutoSave/Editor/AutoSave.cs:796-800 | two backups get the same name only for scenes with the same stem backed up in the same second |
| GameBangNaming.BackupNameExample | Assets/GameBang/AutoSave/Editor/AutoSave.cs:796-800 | the scene "Assets/Level1.scene" backed up at 2024-01-02 03:04:05 is named "Level1_2024-01-02_03-04-05.unity" |
| GameBangNaming.ExampleAssembled | Assets/GameBang/AutoSave/Editor/AutoSave.cs:799 | the example name is put together from its stem and timestamp |
| GameBangNaming.ExampleStem | Assets/GameBang/AutoSave/Editor/AutoSave.cs:798 | the example path has the stem "Level1" |
| GameBangNaming.ExampleStamp | Assets/GameBang/AutoSave/Editor/AutoSave.cs:799 | the example time is formatted "2024-01-02_03-04-05" |
| GameBangRetention.IsSceneFile | Assets/GameBang/AutoSave/Editor/AutoSave.cs:769 | defines the files DeleteOldBackups lists: names ending in ".unity" |
| GameBangRetention.Expired | Assets/GameBang/AutoSave/Editor/AutoSave.cs:779 | defines the age test: at least 60 times the limit in seconds have passed since creation, the boundary included |
| GameBangRetention.Doomed | Assets/GameBang/AutoSave/Editor/AutoSave.cs:766-781 | defines the files deleted: the scene files that pass the age test |
| GameBangRetention.Prune | Assets/GameBang/AutoSave/Editor/AutoSave.cs:766-789 | defines the folder after deletion: the folder without the deleted files |
| GameBangRetention.PruneKeepsExactly | Assets/GameBang/AutoSave/Editor/AutoSave.cs:769-781 | a file survives deletion exactly when it is not a "*.unity" file or is younger than the age limit, and a surviving file keeps its creation time |
| GameBangRetention.BoundaryIsInclusive | Assets/GameBang/AutoSave/Editor/AutoSave.cs:779-780 | a scene exactly at the age limit is deleted; one a second younger stays |
| GameBangRetention.OtherFilesSurvive | Assets/GameBang/AutoSave/Editor/AutoSave.cs:769 | files other than "*.unity" are never deleted, however old |
| GameBangRetention.PruneShrinks | Assets/GameBang/AutoSave/Editor/AutoSave.cs:769-781 | deletion only removes files; it never adds or alters one |
| GameBangRetention.PruneIdempotent | Assets/GameBang/AutoSave/Editor/AutoSave.cs:769-781 | deleting again at the same moment deletes nothing more |
| GameBangRetention.LaterDeletesMore | Assets/GameBang/AutoSave/Editor/AutoSave.cs:779-780 | a later deletion removes at least what an earlier one would |
| GameBangRetention.LongerLimitDeletesLess | Assets/GameBang/AutoSave/Editor/AutoSave.cs:779-780 | a longer age limit removes at most what a shorter one would |
| GameBangRetention.SixtyMinuteExample | Assets/GameBang/AutoSave/Editor/AutoSave.cs:769-781 | with the default 60-minute limit, scenes 30 and 59 minutes old stay and a scene 61 minutes old goes |
| GameBangRetention.ZeroLimitDeletesEveryScene | Assets/GameBang/AutoSave/Editor/AutoSave.cs:779-780 | a limit of 0 deletes every scene file, even one created this second |
| GameBangFolder.ProjectName | Assets/GameBang/AutoSave/Editor/AutoSave.cs:396-397 | defines the project marker: "/" + the next-to-last segment of dataPath split at '/', and none with fewer than two segments, where the source throws |
| GameBangFolder.ProjectRoot | Assets/GameBang/AutoSave/Editor/AutoSave.cs:390 | defines the project folder of the corrected branch: dataPath without its final "/Assets", as the dialog's start folder is computed |
| GameBangFolder.WithAutoSaves | Assets/GameBang/AutoSave/Editor/AutoSave.cs:409-412 | the result always ends with "/AutoSaves"; "/AutoSaves" is appended only when it is missing |
| GameBangFolder.RelativeTo | Assets/GameBang/AutoSave/Editor/AutoSave.cs:398-408 | no result exactly when the project name occurs nowhere in the selection; otherwise "." followed by the text after the first occurrence |
| GameBangFolder.ChooseFolder | Assets/GameBang/AutoSave/Editor/AutoSave.cs:389-417 | the branch as written: an empty answer cancels; a selection without "/"+projectName is refused and the folder is kept; otherwise the folder is relocated to the relative path ending with "/AutoSaves" |
| GameBangFolder.ChooseFolderFixed | Assets/GameBang/AutoSave/Editor/AutoSave.cs:389-417 | the corrected branch: an empty answer cancels, and a relocated folder always ends with "/AutoSaves" |
| GameBangFolder.FixedIsRelativeToRoot | Assets/GameBang/AutoSave/Editor/AutoSave.cs:405-412 | a selection at or below the project root becomes "." plus its path below the root, with "/AutoSaves" appended |
| GameBangFolder.FixedRejectsOutside | Assets/GameBang/AutoSave/Editor/AutoSave.cs:400-404 | the corrected branch refuses any selection that is not at or below the project root |
| GameBangFolder.SplitAround | Assets/GameBang/AutoSave/Editor/AutoSave.cs:396 | splitting on a separator distributes over a joined path, which is how the project name is found |
| GameBangFolder.ProjectNameOf | Assets/GameBang/AutoSave/Editor/AutoSave.cs:396-397 | for a data path "<parent>/<name>/Assets" the project name is "/<name>" |
| GameBangFolder.ChooseFolderRelocates | Assets/GameBang/AutoSave/Editor/AutoSave.cs:405-414 | once the name has been found, the as-written branch relocates to the relative path ending with "/AutoSaves" |
| GameBangFolder.RelativeToOnClash | Assets/GameBang/AutoSave/Editor/AutoSave.cs:398-408 | "/Proj" is first found at index 0 of "/Projects/Proj/Backups", as the start of "/Projects", so the relative path is ".ects/Proj/Backups" |
| GameBangFolder.SuffixAppended | Assets/GameBang/AutoSave/Editor/AutoSave.cs:409-412 | "/AutoSaves" is appended to ".ects/Proj/Backups" |
| GameBangFolder.AsWrittenOnAncestorClash | Assets/GameBang/AutoSave/Editor/AutoSave.cs:389-417 | with the project at /Projects/Proj, choosing /Projects/Proj/Backups stores ".ects/Proj/Backups/AutoSaves" |
| GameBangFolder.FixedOnAncestorClash | Assets/GameBang/AutoSave/Editor/AutoSave.cs:389-417 | the corrected branch stores "./Backups/AutoSaves" for the same selection |
| GameBangFolder.ProjectNameInsideAncestor | Assets/GameBang/AutoSave/Editor/AutoSave.cs:398 | on that selection, the as-written and corrected branches differ |
| GameBangInfo.IntervalsText | Assets/GameBang/AutoSave/Editor/AutoSave.cs:691-714 | defines the text of GetIntervalsInfo: the save line, then the backup line or "AutoBackup disabled.", then the deletion line or "Auto-delete backups disabled." |
| GameBangInfo.InfoText | Assets/GameBang/AutoSave/Editor/AutoSave.cs:645-685 | defines the text of GetInfo for a report: "AutoSave disabled.\n", or the on-Play line, the intervals text, the background line and the log line |
| GameBangInfo.CurrentReport | Assets/GameBang/AutoSave/Editor/AutoSave.cs:645-714 | defines what GetInfo reports of a store: each setting as its getter returns it, the backup interval only when backups are on and the age limit only when deletion is on |
| GameBangInfo.LinesAreUnambiguous | Assets/GameBang/AutoSave/Editor/AutoSave.cs:645-714 | the two variants of each line of the message are told apart by their text |
| GameBangInfo.EnabledIsNotDisabledText | Assets/GameBang/AutoSave/Editor/AutoSave.cs:649-661 | an enabled message is never "AutoSave disabled.\n" |
| GameBangInfo.ReportOfFields | Assets/GameBang/AutoSave/Editor/AutoSave.cs:645-714 | the values of an enabled message give back its report |
| GameBangInfo.ParseEnabledInfo | Assets/GameBang/AutoSave/Editor/AutoSave.cs:645-714 | an enabled message is read line by line |
| GameBangInfo.InfoRoundTrip | Assets/GameBang/AutoSave/Editor/AutoSave.cs:645-714 | every message parses back to the settings it reports |
| GameBangInfo.InfoTextInjective | Assets/GameBang/AutoSave/Editor/AutoSave.cs:645-714 | different settings give different messages |
| GameBangInfo.TailLayout | Assets/GameBang/AutoSave/Editor/AutoSave.cs:665-681 | the last two lines are the background line followed by the log line |
| GameBangInfo.InfoTextLayout | Assets/GameBang/AutoSave/Editor/AutoSave.cs:654-681 | an enabled message is the on-Play line, the intervals text, the background line and the log line, in that order |
| GameBangInfo.InfoTextEnds | Assets/GameBang/AutoSave/Editor/AutoSave.cs:654-681 | an enabled message begins with the on-Play line and ends with "Log enabled." or "Log disabled." |
| GameBangInfo.OnlyIntervalsWrittenTransitive | Assets/GameBang/AutoSave/Editor/AutoSave.cs:691-714 | successive write-backs of interval keys leave every other key alone |
| GameBangInfo.SaveMinutesReadFrame | Assets/GameBang/AutoSave/Editor/AutoSave.cs:693 | reading SaveMinutes changes nothing else the message reports |
| GameBangInfo.BackupMinutesReadFrame | Assets/GameBang/AutoSave/Editor/AutoSave.cs:697 | reading BackupMinutes changes nothing else the message reports |
| GameBangInfo.DeleteMinutesReadFrame | Assets/GameBang/AutoSave/Editor/AutoSave.cs:706 | reading DeleteMinutes changes nothing else the message reports |
| GameBangInfo.GetIntervalsInfo | Assets/GameBang/AutoSave/Editor/AutoSave.cs:691-714 | the intervals text reports SaveMinutes, the backup interval only when backups are on (as the getter as written returns it, so -1 when unset), and the age limit only when deletion is on; only interval keys are written |
| GameBangInfo.GetInfo | Assets/GameBang/AutoSave/Editor/AutoSave.cs:645-685 | disabled: exactly "AutoSave disabled.\n", with nothing read or written; enabled: the message parses back to the current settings, begins with the on-Play line and ends with the log line |
| GameBangAutoSave.BackupEnabled | Assets/GameBang/AutoSave/Editor/AutoSave.cs:213-218 | defines BackupEnabled: on unless false is stored |
| GameBangAutoSave.DeleteEnabled | Assets/GameBang/AutoSave/Editor/AutoSave.cs:229-234 | defines DeleteEnabled: on unless false is stored |
| GameBangAutoSave.SaveDue | Assets/GameBang/AutoSave/Editor/AutoSave.cs:526 | defines the save test: at least SaveMinutes have passed since LastSaveTime, both as their getters return them |
| GameBangAutoSave.BackupDue | Assets/GameBang/AutoSave/Editor/AutoSave.cs:533 | defines the backup test: at least BackupMinutes, read by the getter as written, have passed since LastBackupTime |
| GameBangAutoSave.BackupDueFixed | Assets/GameBang/AutoSave/Editor/AutoSave.cs:533 | defines the same test with the corrected BackupMinutes getter |
| GameBangAutoSave.DeletePhase | Assets/GameBang/AutoSave/Editor/AutoSave.cs:537-540 | defines the deletion step: DeleteOldBackups when DeleteEnabled, otherwise nothing |
| GameBangAutoSave.BackupPhase | Assets/GameBang/AutoSave/Editor/AutoSave.cs:531-541 | defines the backup half of OnUpdate: nothing when backups are off; otherwise the two getters, and when due the backup, LastBackupTime := now and the deletion step |
| GameBangAutoSave.Tick | Assets/GameBang/AutoSave/Editor/AutoSave.cs:524-543 | defines one OnUpdate: the save half, then the backup half, on the state the save half leaves |
| GameBangAutoSave.AddBackups | Assets/GameBang/AutoSave/Editor/AutoSave.cs:750-756 | after backing up the scenes, every backup name is present with creation time now, and every other file is unchanged |
| GameBangAutoSave.SaveStep | Assets/GameBang/AutoSave/Editor/AutoSave.cs:526-530 | a due tick records a save and sets LastSaveTime to now; a tick that is not due records nothing |
| GameBangAutoSave.BackupStep | Assets/GameBang/AutoSave/Editor/AutoSave.cs:744-761 | a backup adds the scenes' backups to the folder and records a backup |
| GameBangAutoSave.PruneStep | Assets/GameBang/AutoSave/Editor/AutoSave.cs:766-789 | the folder after deletion is the retention rule applied with DeleteMinutes, and a deletion is recorded |
| GameBangAutoSave.SaveStepKeepsBackupSettings | Assets/GameBang/AutoSave/Editor/AutoSave.cs:526-530 | the save half leaves every backup setting as it was |
| GameBangAutoSave.AfterBackupFrame | Assets/GameBang/AutoSave/Editor/AutoSave.cs:533-536 | a backup writes only the backup time, the backup interval and the folder setting |
| GameBangAutoSave.AfterBackupKeepsOtherSettings | Assets/GameBang/AutoSave/Editor/AutoSave.cs:533-536 | a backup leaves the deletion and save settings as they were |
| GameBangAutoSave.PruneStepFrame | Assets/GameBang/AutoSave/Editor/AutoSave.cs:766-789 | deletion writes only the folder setting and the age limit |
| GameBangAutoSave.SaveStepKeepsBackupDecision | Assets/GameBang/AutoSave/Editor/AutoSave.cs:526-536 | whether a backup is made does not depend on whether the tick saved |
| GameBangAutoSave.BackupReadsFrame | Assets/GameBang/AutoSave/Editor/AutoSave.cs:533 | the backup-time reads write only their own keys |
| GameBangAutoSave.BackupPhaseSkipped | Assets/GameBang/AutoSave/Editor/AutoSave.cs:531-541 | with no backup due, or backups off, the backup half makes no backup and deletes nothing |
| GameBangAutoSave.BackupPhaseTaken | Assets/GameBang/AutoSave/Editor/AutoSave.cs:531-541 | with a backup due, the backup half backs up, sets LastBackupTime and then deletes if deletion is on |
| GameBangAutoSave.BackupPhaseEvents | Assets/GameBang/AutoSave/Editor/AutoSave.cs:531-541 | the backup half records the backup and then the deletion, as applicable |
| GameBangAutoSave.TickEvents | Assets/GameBang/AutoSave/Editor/AutoSave.cs:524-543 | a tick saves exactly when a save is due; it backs up exactly when backups are on and one is due; it deletes exactly right after a backup when deletion is on; the order is save, backup, delete |
| GameBangAutoSave.BackupPhaseFrame | Assets/GameBang/AutoSave/Editor/AutoSave.cs:531-541 | the backup half writes only the backup keys |
| GameBangAutoSave.BackupPhaseBackupTime | Assets/GameBang/AutoSave/Editor/AutoSave.cs:531-536 | after the backup half, LastBackupTime is now exactly when a backup was made |
| GameBangAutoSave.BackupPhaseFiles | Assets/GameBang/AutoSave/Editor/AutoSave.cs:531-541 | the folder after the backup half: backups added, then expired scenes deleted if deletion is on |
| GameBangAutoSave.TickFrame | Assets/GameBang/AutoSave/Editor/AutoSave.cs:524-543 | a tick writes only the two timestamps and the getters' write-backs |
| GameBangAutoSave.SaveStepKeepsBackupTime | Assets/GameBang/AutoSave/Editor/AutoSave.cs:526-530 | the save half leaves the backup timestamp alone |
| GameBangAutoSave.TickSaveTime | Assets/GameBang/AutoSave/Editor/AutoSave.cs:526-530 | LastSaveTime after a tick is now exactly when a save was due; otherwise it is what its getter returned, whatever the backup half did |
| GameBangAutoSave.TickBackupTime | Assets/GameBang/AutoSave/Editor/AutoSave.cs:531-536 | LastBackupTime after a tick is now exactly when a backup was made; it is not even read when backups are off; this holds independently of the save |
| GameBangAutoSave.TickFiles | Assets/GameBang/AutoSave/Editor/AutoSave.cs:524-543 | the folder after a tick: backups added exactly when a backup was made, then pruned if deletion is on |
| GameBangAutoSave.PlannedActions | Assets/GameBang/AutoSave/Editor/AutoSave.cs:524-543 | a save is planned exactly when due, a backup exactly when backups are on and one is due, a deletion exactly after a backup with deletion on; the save comes first and the deletion right after the backup |
| GameBangAutoSave.TickKeepsSaveInterval | Assets/GameBang/AutoSave/Editor/AutoSave.cs:524-543 | a tick keeps SaveMinutes |
| GameBangAutoSave.SaveStepKeepsBackupInterval | Assets/GameBang/AutoSave/Editor/AutoSave.cs:526-530 | the save half keeps BackupMinutes |
| GameBangAutoSave.TickKeepsBackupInterval | Assets/GameBang/AutoSave/Editor/AutoSave.cs:524-543 | a tick keeps BackupMinutes |
| GameBangAutoSave.TickKeepsBackupSwitch | Assets/GameBang/AutoSave/Editor/AutoSave.cs:524-543 | a tick keeps BackupEnabled |
| GameBangAutoSave.SecondTickDoesNotSave | Assets/GameBang/AutoSave/Editor/AutoSave.cs:526-530 | with a positive SaveMinutes, a second tick at the same moment does not save again |
| GameBangAutoSave.SecondTickDoesNotBackUp | Assets/GameBang/AutoSave/Editor/AutoSave.cs:531-536 | with a positive BackupMinutes, a second tick at the same moment does not back up again |
| GameBangAutoSave.TickKeepsDeleteSwitch | Assets/GameBang/AutoSave/Editor/AutoSave.cs:524-543 | a tick keeps DeleteEnabled |
| GameBangAutoSave.MinusOneIntervalIsDue | Assets/GameBang/AutoSave/Editor/AutoSave.cs:531-536 | with BackupMinutes reading -1, a backup is due whenever LastBackupTime is not in the future |
| GameBangAutoSave.MinusOneIntervalTickBacksUp | Assets/GameBang/AutoSave/Editor/AutoSave.cs:531-541 | with backups on and BackupMinutes reading -1, the tick backs up, and deletes if deletion is on |
| GameBangAutoSave.MinusOneIntervalPersists | Assets/GameBang/AutoSave/Editor/AutoSave.cs:531-541 | after such a tick, backups are still on, BackupMinutes still reads -1, LastBackupTime is not after now and the deletion switch is kept |
| GameBangAutoSave.RunKeepsBackingUp | Assets/GameBang/AutoSave/Editor/AutoSave.cs:524-543 | along a run of ticks at the same moment, every world still has backups on, BackupMinutes reading -1 and LastBackupTime not after now, with the deletion switch of the first |
| GameBangAutoSave.UnsetIntervalBacksUpEveryTick | Assets/GameBang/AutoSave/Editor/AutoSave.cs:531-541 | with backups on and BackupMinutes never stored, every tick of a run at the same moment makes a backup, and deletes old backups when deletion is on |
| GameBangAutoSave.EmptyStoreBacksUpAndPrunes | Assets/GameBang/AutoSave/Editor/AutoSave.cs:524-543 | from an empty EditorPrefs, the first tick both backs up and deletes, because every switch defaults to on and the unset interval reads -1 |
| GameBangAutoSave.FixedUnsetIntervalWaits | Assets/GameBang/AutoSave/Editor/AutoSave.cs:136-152 | with the corrected getter and a negative or unset interval, a backup is due exactly when 20 minutes have passed since LastBackupTime, so never right after one |
| GameBangAutoSave.AutoSave.constructor | Assets/GameBang/AutoSave/Editor/AutoSave.cs:26-30 | starts from the given store and folder with no events |
| GameBangAutoSave.AutoSave.SaveFolder | Assets/GameBang/AutoSave/Editor/AutoSave.cs:90-106 | returns the folder getter's value and applies its write-back |
| GameBangAutoSave.AutoSave.SaveMinutes | Assets/GameBang/AutoSave/Editor/AutoSave.cs:113-129 | returns the SaveMinutes getter's value and applies its write-back |
| GameBangAutoSave.AutoSave.BackupMinutes | Assets/GameBang/AutoSave/Editor/AutoSave.cs:136-152 | returns the BackupMinutes getter's value as written (-1 when unset, with no write) and applies its write-back |
| GameBangAutoSave.AutoSave.DeleteMinutes | Assets/GameBang/AutoSave/Editor/AutoSave.cs:159-175 | returns the DeleteMinutes getter's value and applies its write-back |
| GameBangAutoSave.AutoSave.LastSaveTime | Assets/GameBang/AutoSave/Editor/AutoSave.cs:279-296 | returns the save-time getter's value and applies its write-back |
| GameBangAutoSave.AutoSave.LastBackupTime | Assets/GameBang/AutoSave/Editor/AutoSave.cs:304-321 | returns the backup-time getter's value and applies its write-back |
| GameBangAutoSave.AutoSave.SaveScene | Assets/GameBang/AutoSave/Editor/AutoSave.cs:731-739 | records one save and changes nothing else |
| GameBangAutoSave.AutoSave.SaveBackupScene | Assets/GameBang/AutoSave/Editor/AutoSave.cs:744-761 | its loop over the loaded scenes leaves the state given by BackupStep |
| GameBangAutoSave.AutoSave.DeleteOldBackups | Assets/GameBang/AutoSave/Editor/AutoSave.cs:766-789 | its loop over the listed files leaves the state given by PruneStep: exactly the expired scenes are gone |
| GameBangAutoSave.AutoSave.OnUpdate | Assets/GameBang/AutoSave/Editor/AutoSave.cs:524-543 | one call leaves the state given by Tick, about which the lemmas above are proved |
| DesidusSettings.AutoSaveEnabled | Assets/Desidus/AutoSave/Editor/AutoSave.cs:90-93 | defines AutoSaveEnabled: on unless false is stored |
| DesidusSettings.AutoSaveAfterPlay | Assets/Desidus/AutoSave/Editor/AutoSave.cs:129-132 | defines AutoSaveAfterPlay: on unless false is stored |
| DesidusSettings.EnabledInBackground | Assets/Desidus/AutoSave/Editor/AutoSave.cs:145-148 | defines EnabledInBackground: on unless false is stored |
| DesidusSettings.DefaultRunInBackground | Assets/Desidus/AutoSave/Editor/AutoSave.cs:161-164 | defines DefaultRunInBackground: off unless true is stored |
| DesidusSettings.ShowPopup | Assets/Desidus/AutoSave/Editor/AutoSave.cs:177-180 | defines ShowPopup: on unless false is stored |
| DesidusSettings.PopupTimeout | Assets/Desidus/AutoSave/Editor/AutoSave.cs:193-196 | defines PopupTimeout: the stored timeout, 10 when unset, read without a write-back |
| DesidusSettings.LogInfo | Assets/Desidus/AutoSave/Editor/AutoSave.cs:210-213 | defines LogInfo: on unless false is stored |
| DesidusSettings.ReadSaveMinutes | Assets/Desidus/AutoSave/Editor/AutoSave.cs:105-121 | a stored or missing 0 reads as 10 and is written back; any other value is returned without a write |
| DesidusSettings.ReadLastSaveTime | Assets/Desidus/AutoSave/Editor/AutoSave.cs:227-253 | a missing or DateTime.MinValue save time reads as now and now is written back |
| DesidusSettings.SetPopupTimeout | Assets/Desidus/AutoSave/Editor/AutoSave.cs:197-200 | the stored timeout is the value clamped to [0, 30]; a value already in range is stored as given; nothing else is written |
| DesidusSettings.TimeoutAlwaysInRange | Assets/Desidus/AutoSave/Editor/AutoSave.cs:191-201 | an unset timeout reads as 10; after the setter the timeout is within [0, 30]; writes to other keys keep it there |
| DesidusSettings.SaveMinutesAfterSet | Assets/Desidus/AutoSave/Editor/AutoSave.cs:666-671 | after SetInterval(v), SaveMinutes reads v, or 10 when v is 0 |
| DesidusSettings.GettersAreStable | Assets/Desidus/AutoSave/Editor/AutoSave.cs:105-253 | a second read of SaveMinutes or LastSaveTime returns the same value and writes nothing more |
| DesidusSettings.GettersWriteOnlyTheirKey | Assets/Desidus/AutoSave/Editor/AutoSave.cs:105-253 | each normalising getter writes only its own key |
| DesidusInfo.InfoText | Assets/Desidus/AutoSave/Editor/AutoSave.cs:673-722 | defines the text of GetInfo for a report: "AutoSave disabled.\n", or the on-Play, interval, background, popup and log lines |
| DesidusInfo.CurrentReport | Assets/Desidus/AutoSave/Editor/AutoSave.cs:673-722 | defines what GetInfo reports of a store: each setting as its getter returns it, the popup timeout only when the popup is on |
| DesidusInfo.LinesAreUnambiguous | Assets/Desidus/AutoSave/Editor/AutoSave.cs:673-722 | the two variants of each line of the message are told apart |
| DesidusInfo.EnabledIsNotDisabledText | Assets/Desidus/AutoSave/Editor/AutoSave.cs:677-689 | an enabled message is never "AutoSave disabled.\n" |
| DesidusInfo.ReportOfFields | Assets/Desidus/AutoSave/Editor/AutoSave.cs:673-722 | the values of an enabled message give back its report |
| DesidusInfo.ParseEnabledInfo | Assets/Desidus/AutoSave/Editor/AutoSave.cs:673-722 | an enabled message is read line by line |
| DesidusInfo.InfoRoundTrip | Assets/Desidus/AutoSave/Editor/AutoSave.cs:673-722 | every message parses back to the settings it reports, the popup timeout included only when the popup is on |
| DesidusInfo.InfoTextInjective | Assets/Desidus/AutoSave/Editor/AutoSave.cs:673-722 | different settings give different messages |
| DesidusInfo.RenderFirst | Assets/Desidus/AutoSave/Editor/AutoSave.cs:682-720 | a message is its first line followed by the remaining lines |
| DesidusInfo.InfoTextLayout | Assets/Desidus/AutoSave/Editor/AutoSave.cs:682-720 | an enabled message is the on-Play, interval, background, popup and log lines, in that order |
| DesidusInfo.InfoTextEnds | Assets/Desidus/AutoSave/Editor/AutoSave.cs:682-720 | an enabled message begins with the on-Play line and ends with the log line |
| DesidusInfo.SaveMinutesReadFrame | Assets/Desidus/AutoSave/Editor/AutoSave.cs:691 | reading SaveMinutes changes no other reported setting |
| DesidusInfo.GetInfo | Assets/Desidus/AutoSave/Editor/AutoSave.cs:673-722 | disabled: exactly "AutoSave disabled.\n" with nothing read; enabled: it starts with the on-Play line, ends with the log line, and writes only SaveMinutes' default; in both cases it parses back to the current settings |
| DesidusPopup.ShowStep | Assets/Desidus/AutoSave/Editor/AutoSave.cs:460-482 | defines ShowAutoSavePopup: GetWindow, then Setup with the callback and timeout |
| DesidusPopup.Deliver | Assets/Desidus/AutoSave/Editor/AutoSave.cs:516-575 | defines how one input reaches the window: a frame only while PopupUpdate is registered, a button or the title-bar close only while the window is open |
| DesidusPopup.Run | Assets/Desidus/AutoSave/Editor/AutoSave.cs:516-575 | defines a sequence of inputs delivered in order |
| DesidusPopup.WindowStep | Assets/Desidus/AutoSave/Editor/AutoSave.cs:462-466 | GetWindow returns the open window unchanged, otherwise a new open window with its field initialisers (time 10, no input, no callback) |
| DesidusPopup.SetupStep | Assets/Desidus/AutoSave/Editor/AutoSave.cs:506-514 | Setup stores the callback and timeout, clears hasInput, records the start time and registers PopupUpdate; `time` is left as it was |
| DesidusPopup.CloseStep | Assets/Desidus/AutoSave/Editor/AutoSave.cs:572-575 | a closed window is no longer open or registered, and nothing is saved |
| DesidusPopup.UpdateStep | Assets/Desidus/AutoSave/Editor/AutoSave.cs:516-536 | while time > 0 with no input, time := timeOut - (now - startTime); at time <= 0 with no input, the callback saves once and the window closes; after input nothing happens |
| DesidusPopup.SaveNowStep | Assets/Desidus/AutoSave/Editor/AutoSave.cs:554-559 | "Save now" sets hasInput, saves once and closes |
| DesidusPopup.SkipStep | Assets/Desidus/AutoSave/Editor/AutoSave.cs:561-565 | "Skip" sets hasInput and closes without saving |
| DesidusPopup.ShowIsWellFormed | Assets/Desidus/AutoSave/Editor/AutoSave.cs:460-482 | a shown popup is open, has its callback and is registered |
| DesidusPopup.DeliverStep | Assets/Desidus/AutoSave/Editor/AutoSave.cs:516-575 | one input keeps the window consistent; a closed window ignores it; a window that stays open has not saved |
| DesidusPopup.ClosedIgnoresInputs | Assets/Desidus/AutoSave/Editor/AutoSave.cs:572-575 | no sequence of inputs affects a closed window |
| DesidusPopup.AtMostOneSave | Assets/Desidus/AutoSave/Editor/AutoSave.cs:516-575 | whatever inputs follow, an open window saves at most once |
| DesidusPopup.ShowSavesAtMostOnce | Assets/Desidus/AutoSave/Editor/AutoSave.cs:460-575 | each popup shown saves the scenes at most once |
| DesidusPopup.NewPopupCountsDown | Assets/Desidus/AutoSave/Editor/AutoSave.cs:460-514 | a new popup counts down from its timeout, starting at the time it was shown |
| DesidusPopup.NoSaveBeforeDeadline | Assets/Desidus/AutoSave/Editor/AutoSave.cs:518-527 | frames before startTime + timeOut only update the countdown: nothing is saved and the window stays |
| DesidusPopup.FiresAfterDeadline | Assets/Desidus/AutoSave/Editor/AutoSave.cs:516-536 | the first frame at or after the deadline brings time to <= 0, and the next frame saves once and closes the window |
| DesidusPopup.SaveNowSavesOnce | Assets/Desidus/AutoSave/Editor/AutoSave.cs:554-559 | "Save now" during the countdown saves exactly once, whatever follows |
| DesidusPopup.ClosingCancels | Assets/Desidus/AutoSave/Editor/AutoSave.cs:572-575 | closing the window from its title bar during the countdown goes through OnDestroy with no input and no save, and nothing saves afterwards |
| DesidusPopup.SkipCancels | Assets/Desidus/AutoSave/Editor/AutoSave.cs:561-565 | "Skip" during the countdown means no save, whatever follows |
| DesidusPopup.AutoSavePopup.constructor | Assets/Desidus/AutoSave/Editor/AutoSave.cs:451-458 | before any popup, no window exists |
| DesidusPopup.AutoSavePopup.GetWindow | Assets/Desidus/AutoSave/Editor/AutoSave.cs:462-466 | leaves the state given by WindowStep |
| DesidusPopup.AutoSavePopup.Setup | Assets/Desidus/AutoSave/Editor/AutoSave.cs:506-514 | leaves the state given by SetupStep |
| DesidusPopup.AutoSavePopup.ShowAutoSavePopup | Assets/Desidus/AutoSave/Editor/AutoSave.cs:460-482 | leaves the state given by ShowStep, which is consistent |
| DesidusPopup.AutoSavePopup.Close | Assets/Desidus/AutoSave/Editor/AutoSave.cs:572-575 | leaves the state given by CloseStep |
| DesidusPopup.AutoSavePopup.OnDestroy | Assets/Desidus/AutoSave/Editor/AutoSave.cs:572-575 | unregisters PopupUpdate and changes nothing else |
| DesidusPopup.AutoSavePopup.Callback | Assets/Desidus/AutoSave/Editor/AutoSave.cs:724-732 | SaveScenes: one save more |
| DesidusPopup.AutoSavePopup.PopupUpdate | Assets/Desidus/AutoSave/Editor/AutoSave.cs:516-536 | leaves the state given by UpdateStep |
| DesidusPopup.AutoSavePopup.SaveNowClicked | Assets/Desidus/AutoSave/Editor/AutoSave.cs:554-559 | leaves the state given by SaveNowStep |
| DesidusPopup.AutoSavePopup.SkipClicked | Assets/Desidus/AutoSave/Editor/AutoSave.cs:561-565 | leaves the state given by SkipStep |
| DesidusAutoSave.SaveDue | Assets/Desidus/AutoSave/Editor/AutoSave.cs:587 | defines the save test: at least SaveMinutes have passed since LastSaveTime, both as their getters return them |
| DesidusAutoSave.Act | Assets/Desidus/AutoSave/Editor/AutoSave.cs:593-603 | defines the action at the first dirty scene: the popup with PopupTimeout when ShowPopup is on, otherwise SaveScenes |
| DesidusAutoSave.Tick | Assets/Desidus/AutoSave/Editor/AutoSave.cs:585-608 | defines one OnUpdate: the two getters, then when due the action if some scene is dirty and LastSaveTime := now |
| DesidusAutoSave.UpdateDispatch | Assets/Desidus/AutoSave/Editor/AutoSave.cs:612-613 | defines the editor's update event: OnUpdate once per registration |
| DesidusAutoSave.EditorUpdate | Assets/Desidus/AutoSave/Editor/AutoSave.cs:612-613 | defines an editor frame: the update event with the current registrations |
| DesidusAutoSave.PlayDispatch | Assets/Desidus/AutoSave/Editor/AutoSave.cs:620-621 | defines the play-mode event: OnPlayModeStateChanged once per registration |
| DesidusAutoSave.EditorPlayModeChanged | Assets/Desidus/AutoSave/Editor/AutoSave.cs:620-621 | defines a play-mode change: the play-mode event with the current registrations |
| DesidusAutoSave.Unsubscribe | Assets/Desidus/AutoSave/Editor/AutoSave.cs:644-645 | `-=` removes at most one registration: no registration is left when there was at most one |
| DesidusAutoSave.Resubscribe | Assets/Desidus/AutoSave/Editor/AutoSave.cs:612-613 | `-=` then `+=` leaves the handler registered; exactly once when it was registered at most once |
| DesidusAutoSave.TickReadsFrame | Assets/Desidus/AutoSave/Editor/AutoSave.cs:587 | the tick's two getters write only their own keys and change no other setting |
| DesidusAutoSave.TickActions | Assets/Desidus/AutoSave/Editor/AutoSave.cs:585-608 | a tick's events are exactly the planned action; the popup is shown with PopupTimeout exactly when that action is a popup; the registrations are untouched |
| DesidusAutoSave.TickActsAtMostOnce | Assets/Desidus/AutoSave/Editor/AutoSave.cs:589-605 | a tick triggers at most one save or popup, and one exactly when the save is due and some scene is dirty |
| DesidusAutoSave.TickSaveTime | Assets/Desidus/AutoSave/Editor/AutoSave.cs:587-607 | a due tick sets LastSaveTime to now whether or not a scene was dirty and whether or not a popup was shown; a tick that is not due leaves it as the getter returned it |
| DesidusAutoSave.TickFrame | Assets/Desidus/AutoSave/Editor/AutoSave.cs:585-608 | a tick writes only LastSaveTime and SaveMinutes' default, and keeps SaveMinutes |
| DesidusAutoSave.SecondTickWaits | Assets/Desidus/AutoSave/Editor/AutoSave.cs:587-607 | after a due tick, no tick is due until SaveMinutes more have passed |
| DesidusAutoSave.TickKeepsInvariants | Assets/Desidus/AutoSave/Editor/AutoSave.cs:585-608 | a tick keeps the registrations valid and the popup timeout in range |
| DesidusAutoSave.PopupTimeoutInRange | Assets/Desidus/AutoSave/Editor/AutoSave.cs:595-597 | a popup shown by a tick counts down from a timeout in [0, 30], starting at the tick's time |
| DesidusAutoSave.EditorUpdateTicksOnce | Assets/Desidus/AutoSave/Editor/AutoSave.cs:612-613 | with valid registrations, an editor frame runs OnUpdate once when AutoSave is enabled and not at all otherwise |
| DesidusAutoSave.PlayModeStep | Assets/Desidus/AutoSave/Editor/AutoSave.cs:631-637 | a play-mode change saves only when leaving edit mode, and then saves once |
| DesidusAutoSave.PlayModeSavesOnce | Assets/Desidus/AutoSave/Editor/AutoSave.cs:620-637 | with valid registrations, leaving edit mode saves once if the handler is registered; no other change saves |
| DesidusAutoSave.EnableInBackgroundStep | Assets/Desidus/AutoSave/Editor/AutoSave.cs:652-659 | in the editor, runInBackground := b or DefaultRunInBackground, and b is stored; outside the editor nothing changes |
| DesidusAutoSave.EnableStep | Assets/Desidus/AutoSave/Editor/AutoSave.cs:610-628 | AutoSave becomes enabled and OnUpdate registered (once, from at most one); the play handler is registered if AutoSaveAfterPlay; runInBackground follows EnabledInBackground; only the enabled, background and SaveMinutes keys are written; the returned text states the new settings |
| DesidusAutoSave.EnableWritesFrame | Assets/Desidus/AutoSave/Editor/AutoSave.cs:610-626 | the registrations and setting writes of EnableAutoSave before its GetInfo |
| DesidusAutoSave.GetInfoFrame | Assets/Desidus/AutoSave/Editor/AutoSave.cs:673-722 | GetInfo writes only SaveMinutes' default and keeps SaveMinutes |
| DesidusAutoSave.EnabledPrefs | Assets/Desidus/AutoSave/Editor/AutoSave.cs:610-628 | after EnableAutoSave, enabling again would write back the values already stored |
| DesidusAutoSave.EnableIdempotent | Assets/Desidus/AutoSave/Editor/AutoSave.cs:610-628 | calling EnableAutoSave twice gives the same state as calling it once, registrations included |
| DesidusAutoSave.DisableStep | Assets/Desidus/AutoSave/Editor/AutoSave.cs:640-650 | when already disabled, nothing changes; otherwise both handlers are unregistered and AutoSave is marked disabled; the text is "AutoSave disabled.\n" |
| DesidusAutoSave.SetIntervalStep | Assets/Desidus/AutoSave/Editor/AutoSave.cs:666-671 | SaveMinutes then reads v (10 for 0); only that key is written; the returned text states the new settings |
| DesidusAutoSave.SetPopupTimeoutStep | Assets/Desidus/AutoSave/Editor/AutoSave.cs:197-200 | the timeout is the clamped value and is in range; nothing else changes |
| DesidusAutoSave.StartupStep | Assets/Desidus/AutoSave/Editor/AutoSave.cs:257-274 | DefaultRunInBackground captures runInBackground only when the enabled key was never stored; AutoSave is enabled if the setting says so, with the play handler exactly when AutoSaveAfterPlay; the registrations are valid |
| DesidusAutoSave.OperationsKeepValid | Assets/Desidus/AutoSave/Editor/AutoSave.cs:610-671 | enabling, disabling, EnableInBackground, SetInterval, the timeout setter and a play-mode change keep OnUpdate registered exactly while enabled |
| DesidusAutoSave.SetSaveAfterPlayAsWritten | Assets/Desidus/AutoSave/Editor/AutoSave.cs:422-425 | the setter as written stores AutoSaveAfterPlay and nothing else |
| DesidusAutoSave.SetSaveAfterPlay | Assets/Desidus/AutoSave/Editor/AutoSave.cs:422-425 | the corrected setter also registers or unregisters the play handler while AutoSave is enabled |
| DesidusAutoSave.InfoSaysSavesOnPlayText | Assets/Desidus/AutoSave/Editor/AutoSave.cs:677-689 | the message says "Saves scenes on Play." exactly when AutoSave and AutoSaveAfterPlay are both on |
| DesidusAutoSave.PlayConsistentPreserved | Assets/Desidus/AutoSave/Editor/AutoSave.cs:610-650 | startup, enabling, disabling and the corrected setter keep the play handler registered exactly when the message says scenes are saved on Play |
| DesidusAutoSave.PlayConsistentTransfer | Assets/Desidus/AutoSave/Editor/AutoSave.cs:620-622 | a step that keeps the registrations and the two settings keeps that agreement |
| DesidusAutoSave.PlayConsistentKeptBySetters | Assets/Desidus/AutoSave/Editor/AutoSave.cs:585-671 | EnableInBackground, SetInterval, the timeout setter and a tick keep that agreement |
| DesidusAutoSave.PlaySaveMatchesInfo | Assets/Desidus/AutoSave/Editor/AutoSave.cs:631-637 | with the corrected setter, leaving edit mode saves exactly when the message says scenes are saved on Play |
| DesidusAutoSave.SaveOnPlayOutlivesItsSetting | Assets/Desidus/AutoSave/Editor/AutoSave.cs:422-425 | with the setter as written: after startup, unchecking "Save on Play" makes the message say "Doesn't save scenes on Play.", yet leaving edit mode still saves |
| DesidusAutoSave.AutoSave.constructor | Assets/Desidus/AutoSave/Editor/AutoSave.cs:257-274 | the static constructor leaves the state given by StartupStep |
| DesidusAutoSave.AutoSave.SaveMinutes | Assets/Desidus/AutoSave/Editor/AutoSave.cs:105-121 | returns the getter's value and applies its write-back |
| DesidusAutoSave.AutoSave.LastSaveTime | Assets/Desidus/AutoSave/Editor/AutoSave.cs:227-253 | returns the getter's value and applies its write-back |
| DesidusAutoSave.AutoSave.GetInfo | Assets/Desidus/AutoSave/Editor/AutoSave.cs:673-722 | returns the status text and applies its write-back |
| DesidusAutoSave.AutoSave.SaveScenes | Assets/Desidus/AutoSave/Editor/AutoSave.cs:724-732 | records one save and changes nothing else |
| DesidusAutoSave.AutoSave.OnUpdate | Assets/Desidus/AutoSave/Editor/AutoSave.cs:585-608 | its loop, which breaks at the first dirty scene, leaves the state given by Tick, popup window included |
| DesidusAutoSave.AutoSave.EnableInBackground | Assets/Desidus/AutoSave/Editor/AutoSave.cs:652-659 | leaves the state given by EnableInBackgroundStep |
| DesidusAutoSave.AutoSave.EnableAutoSave | Assets/Desidus/AutoSave/Editor/AutoSave.cs:610-628 | leaves the state and returns the text given by EnableStep |
| DesidusAutoSave.AutoSave.OnPlayModeStateChanged | Assets/Desidus/AutoSave/Editor/AutoSave.cs:631-637 | leaves the state given by PlayModeStep |
| DesidusAutoSave.AutoSave.DisableAutoSave | Assets/Desidus/AutoSave/Editor/AutoSave.cs:640-650 | leaves the state and returns the text given by DisableStep |
| DesidusAutoSave.AutoSave.SetInterval | Assets/Desidus/AutoSave/Editor/AutoSave.cs:666-671 | leaves the state and returns the text given by SetIntervalStep |
| DesidusAutoSave.AutoSave.SetPopupTimeout | Assets/Desidus/AutoSave/Editor/AutoSave.cs:197-200 | leaves the state given by SetPopupTimeoutStep |
| DesidusAutoSave.AutoSave.SetAutoSaveAfterPlay | Assets/Desidus/AutoSave/Editor/AutoSave.cs:133-136 | the corrected setter: leaves the state given by SetSaveAfterPlay |
| NavMeshMask.Bit | Assets/Desidus/AutoSave/Editor/DesidusEditorUtility.cs:239 | defines `1 << k` on int: the single bit k modulo 32 |
| NavMeshMask.SignExtend | Assets/Desidus/AutoSave/Editor/DesidusEditorUtility.cs:239 | defines an int widened to long for `& currentMask`: bit 31 copied into bits 32..63 |
| NavMeshMask.FromIntOrUint | Assets/Desidus/AutoSave/Editor/DesidusEditorUtility.cs:233 | defines the longValue an int or uint mask field yields: bits 0..31, or an int's bits sign-extended |
| NavMeshMask.AreaSet | Assets/Desidus/AutoSave/Editor/DesidusEditorUtility.cs:239 | defines the compress test `((1 << areaIndex) & currentMask) != 0` |
| NavMeshMask.Compressed | Assets/Desidus/AutoSave/Editor/DesidusEditorUtility.cs:234-243 | defines the compress loop's result: menu bit i for each i-th area that passes the test |
| NavMeshMask.Expanded | Assets/Desidus/AutoSave/Editor/DesidusEditorUtility.cs:273-282 | defines the expand loop's result: the bit of the i-th area for each set menu bit i |
| NavMeshMask.Range | Assets/Desidus/AutoSave/Editor/DesidusEditorUtility.cs:269 | the bit positions lo..hi-1, as in 0xffffffff |
| NavMeshMask.ShiftRight | Assets/Desidus/AutoSave/Editor/DesidusEditorUtility.cs:276 | an int shifted right holds only bits 0..31 |
| NavMeshMask.ShiftRightBitZero | Assets/Desidus/AutoSave/Editor/DesidusEditorUtility.cs:276 | `(x >> i) & 1` reads bit i modulo 32 of x |
| NavMeshMask.ShiftRightReadsBit | Assets/Desidus/AutoSave/Editor/DesidusEditorUtility.cs:276 | below 32, `(x >> i) & 1` reads bit i |
| NavMeshMask.AreasMask | Assets/Desidus/AutoSave/Editor/DesidusEditorUtility.cs:274-282 | the bits of the listed areas are exactly their indices modulo 32 |
| NavMeshMask.SerializedProperty.constructor | Assets/Desidus/AutoSave/Editor/DesidusEditorUtility.cs:233 | the property holds the given mask |
| NavMeshMask.NavMeshAreaMaskField | Assets/Desidus/AutoSave/Editor/DesidusEditorUtility.cs:229-286 | the returned menu mask is the compressed stored mask; an unchanged menu leaves the property alone; "Everything" stores 0xffffffff; any other answer stores the expanded menu mask |
| NavMeshMask.CompressedBits | Assets/Desidus/AutoSave/Editor/DesidusEditorUtility.cs:236-243 | bit j of the menu mask is set exactly when j < n and the j-th area passes the test; no bit at or above n is set |
| NavMeshMask.AreaSetReadsBit | Assets/Desidus/AutoSave/Editor/DesidusEditorUtility.cs:239 | for an area in [0, 32) and a stored mask an int or uint field yields (a negative int sign-extended to bits 32..63 included), the test reads the area's bit |
| NavMeshMask.CompressedReadsAreaBits | Assets/Desidus/AutoSave/Editor/DesidusEditorUtility.cs:236-243 | for a stored mask an int or uint field yields and areas in [0, 32), bit i of the menu mask is set exactly when i < n and the stored mask has the bit of the i-th area |
| NavMeshMask.ExpandedBits | Assets/Desidus/AutoSave/Editor/DesidusEditorUtility.cs:273-283 | the stored mask has bit b exactly when some listed area i has index b and menu bit i set; no other bits |
| NavMeshMask.ExpandedReadsLowBits | Assets/Desidus/AutoSave/Editor/DesidusEditorUtility.cs:274-282 | expansion over n areas depends only on the menu bits below n |
| NavMeshMask.RestrictOneMore | Assets/Desidus/AutoSave/Editor/DesidusEditorUtility.cs:278-280 | restricting to one more area bit adds that bit exactly when the mask has it |
| NavMeshMask.ExpandCompressed | Assets/Desidus/AutoSave/Editor/DesidusEditorUtility.cs:236-283 | round trip: for a stored mask an int or uint field yields (NavMesh.AllAreas, the int -1, included) and areas in [0, 32), expanding the compressed mask gives back the stored mask restricted to the listed areas' bits, even when indices repeat |
| NavMeshMask.SignExtendedIsFromInt | Assets/Desidus/AutoSave/Editor/DesidusEditorUtility.cs:233 | an int mask widened to long is a stored mask the round trip covers |
| NavMeshMask.AllAreasIsIntMask | Assets/Desidus/AutoSave/Editor/DesidusEditorUtility.cs:233 | NavMesh.AllAreas, the int -1, is handed over as bits 0..63: covered, though wider than 32 bits |
| NavMeshMask.FullMaskRoundTrip | Assets/Desidus/AutoSave/Editor/DesidusEditorUtility.cs:233-283 | for a stored mask holding every bit 0..31, expanding the compressed mask gives back exactly the listed areas' bits |
| NavMeshMask.AllAreasRoundTrip | Assets/Desidus/AutoSave/Editor/DesidusEditorUtility.cs:233-283 | for NavMesh.AllAreas, expanding the compressed mask gives back exactly the listed areas' bits |
| NavMeshMask.CompressedLastBit | Assets/Desidus/AutoSave/Editor/DesidusEditorUtility.cs:239-242 | the last area's menu bit is set exactly when that area passes the test |
| NavMeshMask.LowBitsOfCompressed | Assets/Desidus/AutoSave/Editor/DesidusEditorUtility.cs:236-243 | one more area leaves the lower menu bits as they were |

## Left out

**Host interfaces**
- GUI layout and widgets are not modelled: AutoSavePreferences / DrawGUI, OnGUI drawing, the SettingsProvider and the slider ranges. A widget's result is an input value of the operation it feeds.
- The filesystem and scene I/O are not modelled: EditorSceneManager, AssetDatabase and EnsureAutoSavePathExists. Saves, backups and deletions are events, and the backup folder is a map from name to creation time.
- The calendar conversion from `now` to the fields of a timestamp is not modelled. The tick takes both the seconds count and the calendar fields of the same instant.
- DATE_FORMAT string storage and DateTime.ParseExact errors are not modelled. A time is stored as a number of seconds, so the tenths of a second kept by DATE_FORMAT are below the model's resolution.
- `DateTime.Now` is read once per tick. The source reads it several times within one OnUpdate, and those reads could differ by a few milliseconds.
- Debug.Log, Repaint and ShowNotification are not modelled. They do not change any modelled state.
- The popup's placement (UpdateMainPos, GetEditorMainWindowPos, window size and position) is not modelled. It is reflection and floating-point Rect arithmetic.

**Editor events and conditional compilation**
- EditorApplication.update and playModeStateChanged are counts of registrations, not delegates. The editor calls a handler once per registration.
- `PopupUpdate`'s registration is a boolean, since Setup always removes it before adding it.
- The branches compiled only before Unity 2017.2 are not modelled. These are the static constructor's save on startup and the missing play-mode handler.

**GameBang operations outside the core**
- GameBang EnableAutoSave, DisableAutoSave, EnableBackground, SetIntervals, SetFolder, CleanupFolder and its static constructor are UI-facing commands that lie outside the modelled core.

**Other abstractions**
- NavMeshMask.NavMeshAreaMaskField: the area names are abstracted to their indices, as GetNavMeshAreaFromName returns them. The menu itself (EditorGUI.MaskField) is an input.
- NavMeshMask.ExpandCompressed needs areas in [0, 32), at most 32 of them, and a stored mask that an int or uint field yields (bits 0..31, or an int's bits sign-extended). A long field holding other bits above 31 is not covered; the menu drops those bits anyway.
- DesidusPopup.AutoSavePopup.Callback requires a callback to be set. The source would throw on a null callback, and "Save now" without a callback is modelled as recording the input only.
- DesidusPopup.UpdateStep: `time` is a real number. Double rounding and the `(int) time` repaint test are not modelled.
- Text comparison: IndexOf and EndsWith with a string argument are culture-sensitive in .NET; the model compares characters exactly. GameBangRetention.IsSceneFile is case-sensitive, while Directory.GetFiles with "*.unity" matches case-insensitively on Windows and macOS, so a file ending in ".UNITY" is pruned there but not in the model.
- The scheduler is modelled only with the BackupMinutes getter as written. The corrected getter is modelled as a getter and as the backup decision it gives (GameBangAutoSave.BackupDueFixed), not as a whole corrected tick.
- DesidusAutoSave.Resubscribe registers a handler exactly once only when it was registered at most once. This is because `-=` removes a single registration, and the invariant Valid keeps the counts at most one.

## Findings

| source | as written | input that shows it | evidently intended | confidence | as-written member | corrected member |
|---|---|---|---|---|---|---|
| Assets/GameBang/AutoSave/Editor/AutoSave.cs:140-145 | BackupMinutes replaces the stored value only when it is `< -1`; the unset key reads as -1 | nothing stored: BackupMinutes is -1, so the elapsed time always counts as due, every editor tick makes a backup and prunes the folder, and the message says "AutoBackup interval: -1 minutes." | any negative value becomes the default 20, as the getter's own documentation says | not executed; high | GameBangSettings.ReadBackupMinutes, GameBangSettings.UnsetBackupIntervalNeverWaits, GameBangAutoSave.UnsetIntervalBacksUpEveryTick, GameBangAutoSave.EmptyStoreBacksUpAndPrunes | GameBangSettings.ReadBackupMinutesFixed, GameBangAutoSave.FixedUnsetIntervalWaits |
| Assets/GameBang/AutoSave/Editor/AutoSave.cs:396-408 | the folder is made relative at the first occurrence of "/" + projectName anywhere in the selected path | project /Projects/Proj, selection /Projects/Proj/Backups: "/Proj" is first found at the start of "/Projects", giving ".ects/Proj/Backups/AutoSaves" | the path below the project root, "./Backups/AutoSaves" | not executed; high | GameBangFolder.ChooseFolder, GameBangFolder.ProjectNameInsideAncestor | GameBangFolder.ChooseFolderFixed, GameBangFolder.FixedIsRelativeToRoot, GameBangFolder.FixedRejectsOutside |
| Assets/Desidus/AutoSave/Editor/AutoSave.cs:422-425 | toggling "Save on Play" only stores the setting; the play-mode handler is added only by EnableAutoSave and removed only by DisableAutoSave | nothing stored, editor starts (enabled, handler registered), user unchecks "Save on Play": the message says "Doesn't save scenes on Play." yet entering Play mode saves; the opposite toggle does not save on Play either; the mismatch lasts until AutoSave is re-enabled or the next domain reload, when the static constructor registers the handler by the setting again | the handler follows the setting at once while AutoSave is enabled, as after a reload, and as GameBang's version, which checks the setting when the play mode changes | not executed; medium | DesidusAutoSave.SetSaveAfterPlayAsWritten, DesidusAutoSave.SaveOnPlayOutlivesItsSetting | DesidusAutoSave.SetSaveAfterPlay, DesidusAutoSave.PlayConsistentPreserved, DesidusAutoSave.PlaySaveMatchesInfo |
