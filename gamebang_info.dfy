/**
 * GetInfo / GetIntervalsInfo of the GameBang AutoSave: the status text
 * shown in the preferences, composed from the current settings, and a
 * parser showing that the text determines the settings it reports.
 */
module GameBangInfo {
  import opened Wrappers
  import opened Strings
  import opened Prefs
  import opened InfoLines
  import opened GameBangSettings

  const DISABLED_INFO := "AutoSave disabled.\n"
  const ON_PLAY_YES := "AutoSave enabled. Saves scenes on Play.\n"
  const ON_PLAY_NO := "AutoSave enabled. Doesn't save scenes on Play.\n"
  const SAVE_PREFIX := "AutoSave interval: "
  const MINUTES_SUFFIX := " minutes.\n"
  const BACKUP_PREFIX := "AutoBackup interval: "
  const BACKUP_OFF := "AutoBackup disabled.\n"
  const DELETE_PREFIX := "Backups will be deleted after "
  const DELETE_OFF := "Auto-delete backups disabled.\n"
  const BACKGROUND_YES := "AutoSave enabled when Editor is in background.\n"
  const BACKGROUND_NO := "AutoSave disabled when Editor is in background.\n"
  const LOG_YES := "Log enabled."
  const LOG_NO := "Log disabled."

  /** What the message reports; an interval is reported only when its feature is enabled. */
  datatype Report =
    | Disabled
    | Enabled(saveOnPlay: bool, saveMinutes: int, backupMinutes: Option<int>,
              deleteMinutes: Option<int>, inBackground: bool, log: bool)

  /** The lines of GetIntervalsInfo. */
  const INTERVAL_SHAPES: seq<Shape> :=
    [Number(SAVE_PREFIX, MINUTES_SUFFIX),
     Optional(BACKUP_PREFIX, MINUTES_SUFFIX, BACKUP_OFF),
     Optional(DELETE_PREFIX, MINUTES_SUFFIX, DELETE_OFF)]

  /** The lines of GetInfo when AutoSave is enabled. */
  const INFO_SHAPES: seq<Shape> :=
    [Flag(ON_PLAY_YES, ON_PLAY_NO)] + INTERVAL_SHAPES + [Flag(BACKGROUND_YES, BACKGROUND_NO), Flag(LOG_YES, LOG_NO)]

  function IntervalFields(saveMinutes: int, backupMinutes: Option<int>, deleteMinutes: Option<int>): seq<Field> {
    [NumberField(saveMinutes), OptionalField(backupMinutes), OptionalField(deleteMinutes)]
  }

  function Fields(r: Report): seq<Field>
    requires r.Enabled?
  {
    [FlagField(r.saveOnPlay)] + IntervalFields(r.saveMinutes, r.backupMinutes, r.deleteMinutes)
      + [FlagField(r.inBackground), FlagField(r.log)]
  }

  /** The intervals part of the message (GetIntervalsInfo). */
  function IntervalsText(saveMinutes: int, backupMinutes: Option<int>, deleteMinutes: Option<int>): string {
    Render(INTERVAL_SHAPES, IntervalFields(saveMinutes, backupMinutes, deleteMinutes))
  }

  /** The whole message (GetInfo). */
  function InfoText(r: Report): string {
    match r
    case Disabled => DISABLED_INFO
    case Enabled(_, _, _, _, _, _) => Render(INFO_SHAPES, Fields(r))
  }

  /** The report stated by the values read from an enabled message. */
  function ReportOf(fs: seq<Field>): Option<Report> {
    if |fs| == 6 && fs[0].FlagField? && fs[1].NumberField? && fs[2].OptionalField?
      && fs[3].OptionalField? && fs[4].FlagField? && fs[5].FlagField?
    then Some(Enabled(fs[0].b, fs[1].n, fs[2].v, fs[3].v, fs[4].b, fs[5].b))
    else None
  }

  /** Reads a message back into the report it states. */
  function ParseInfo(t: string): Option<Report> {
    if t == DISABLED_INFO then Some(Disabled)
    else
      var fs :- ParseLines(t, INFO_SHAPES);
      ReportOf(fs)
  }

  lemma LinesAreUnambiguous()
    ensures AllUnambiguous(INFO_SHAPES)
  {
    assert ON_PLAY_YES[18] != ON_PLAY_NO[18];
    assert BACKUP_PREFIX[11] != BACKUP_OFF[11];
    assert DELETE_PREFIX[1] != DELETE_OFF[1];
    assert BACKGROUND_YES[9] != BACKGROUND_NO[9];
    assert LOG_YES[4] != LOG_NO[4];
  }

  /** Every enabled message begins "AutoSave enabled.", so it is never the disabled one. */
  lemma EnabledIsNotDisabledText(r: Report)
    requires r.Enabled?
    ensures InfoText(r) != DISABLED_INFO
  {
    var first := FlagLine(ON_PLAY_YES, ON_PLAY_NO, r.saveOnPlay);
    RenderStartsWithFirst(INFO_SHAPES, Fields(r));
    assert first[9] == 'e';
    assert InfoText(r)[9] == first[9];
  }

  lemma ReportOfFields(r: Report)
    requires r.Enabled?
    ensures ReportOf(Fields(r)) == Some(r)
  {
  }

  lemma ParseEnabledInfo(t: string, fs: seq<Field>)
    requires t != DISABLED_INFO && ParseLines(t, INFO_SHAPES) == Some(fs)
    ensures ParseInfo(t) == ReportOf(fs)
  {
  }

  /** The message states its report unambiguously: parsing it gives the report back. */
  lemma InfoRoundTrip(r: Report)
    ensures ParseInfo(InfoText(r)) == Some(r)
  {
    if r.Enabled? {
      LinesAreUnambiguous();
      EnabledIsNotDisabledText(r);
      RenderParses(INFO_SHAPES, Fields(r));
      ParseEnabledInfo(InfoText(r), Fields(r));
      ReportOfFields(r);
    }
  }

  /** Different reports give different messages. */
  lemma InfoTextInjective(r1: Report, r2: Report)
    requires InfoText(r1) == InfoText(r2)
    ensures r1 == r2
  {
    InfoRoundTrip(r1);
    InfoRoundTrip(r2);
  }

  /** The background and log lines that end an enabled message. */
  lemma TailLayout(background: bool, log: bool)
    ensures Render([Flag(BACKGROUND_YES, BACKGROUND_NO), Flag(LOG_YES, LOG_NO)], [FlagField(background), FlagField(log)])
      == FlagLine(BACKGROUND_YES, BACKGROUND_NO, background) + FlagLine(LOG_YES, LOG_NO, log)
  {
    var shapes := [Flag(BACKGROUND_YES, BACKGROUND_NO), Flag(LOG_YES, LOG_NO)];
    var fields := [FlagField(background), FlagField(log)];
    RenderOne(shapes[1], fields[1]);
    assert shapes[1..] == [shapes[1]] && fields[1..] == [fields[1]];
  }

  /** An enabled message is the on-Play line, the intervals text, the background line and the log line. */
  lemma InfoTextLayout(r: Report)
    requires r.Enabled?
    ensures InfoText(r) ==
      FlagLine(ON_PLAY_YES, ON_PLAY_NO, r.saveOnPlay)
        + IntervalsText(r.saveMinutes, r.backupMinutes, r.deleteMinutes)
        + (FlagLine(BACKGROUND_YES, BACKGROUND_NO, r.inBackground) + FlagLine(LOG_YES, LOG_NO, r.log))
  {
    var head := [Flag(ON_PLAY_YES, ON_PLAY_NO)];
    var tail := [Flag(BACKGROUND_YES, BACKGROUND_NO), Flag(LOG_YES, LOG_NO)];
    var headFields := [FlagField(r.saveOnPlay)];
    var middle := IntervalFields(r.saveMinutes, r.backupMinutes, r.deleteMinutes);
    var tailFields := [FlagField(r.inBackground), FlagField(r.log)];
    RenderOne(head[0], headFields[0]);
    RenderThree(head, headFields, INTERVAL_SHAPES, middle, tail, tailFields);
    TailLayout(r.inBackground, r.log);
  }

  /** An enabled message starts with the on-Play line and ends with the log line. */
  lemma InfoTextEnds(r: Report)
    requires r.Enabled?
    ensures StartsWith(InfoText(r), FlagLine(ON_PLAY_YES, ON_PLAY_NO, r.saveOnPlay))
    ensures EndsWith(InfoText(r), FlagLine(LOG_YES, LOG_NO, r.log))
  {
    RenderStartsWithFirst(INFO_SHAPES, Fields(r));
    RenderEndsWithLast(INFO_SHAPES, Fields(r));
  }

  /** The report GetInfo makes of a store: each setting as its getter returns it. */
  function CurrentReport(p: Store): Report {
    if !GetBool(p, ENABLED_KEY, true) then Disabled
    else Enabled(
      GetBool(p, SAVE_AFTER_PLAY_KEY, true),
      ReadSaveMinutes(p).value,
      if GetBool(p, BACKUP_ENABLED_KEY, true) then Some(ReadBackupMinutes(p).value) else None,
      if GetBool(p, DELETE_ENABLED_KEY, true) then Some(ReadDeleteMinutes(p).value) else None,
      GetBool(p, IN_BACKGROUND_KEY, true),
      GetBool(p, LOG_KEY, true))
  }

  /** Keys the status getters may write back: the three intervals. */
  predicate IsIntervalKey(k: string) {
    k == SAVE_MINUTES_KEY || k == BACKUP_MINUTES_KEY || k == DELETE_MINUTES_KEY
  }

  /** q differs from p at most in the interval keys. */
  ghost predicate OnlyIntervalsWritten(p: Store, q: Store) {
    forall k :: !IsIntervalKey(k) ==> (k in q <==> k in p) && (k in p ==> q[k] == p[k])
  }


  lemma OnlyIntervalsWrittenTransitive(p: Store, q: Store, r: Store)
    requires OnlyIntervalsWritten(p, q) && OnlyIntervalsWritten(q, r)
    ensures OnlyIntervalsWritten(p, r)
  {
  }

  /** Reading SaveMinutes writes only its key: nothing reported changes. */
  lemma SaveMinutesReadFrame(p: Store)
    ensures OnlyIntervalsWritten(p, ReadSaveMinutes(p).store)
    ensures CurrentReport(ReadSaveMinutes(p).store) == CurrentReport(p)
    ensures ReadBackupMinutes(ReadSaveMinutes(p).store).value == ReadBackupMinutes(p).value
    ensures ReadDeleteMinutes(ReadSaveMinutes(p).store).value == ReadDeleteMinutes(p).value
  {
  }

  /** Reading BackupMinutes writes only its key: nothing reported changes. */
  lemma BackupMinutesReadFrame(p: Store)
    ensures OnlyIntervalsWritten(p, ReadBackupMinutes(p).store)
    ensures CurrentReport(ReadBackupMinutes(p).store) == CurrentReport(p)
    ensures ReadDeleteMinutes(ReadBackupMinutes(p).store).value == ReadDeleteMinutes(p).value
  {
  }

  /** Reading DeleteMinutes writes only its key: nothing reported changes. */
  lemma DeleteMinutesReadFrame(p: Store)
    ensures OnlyIntervalsWritten(p, ReadDeleteMinutes(p).store)
    ensures CurrentReport(ReadDeleteMinutes(p).store) == CurrentReport(p)
  {
  }

  /**
   * GetIntervalsInfo: reads SaveMinutes, then BackupMinutes and
   * DeleteMinutes only if their features are on, and reports what they return.
   */
  function GetIntervalsInfo(p: Store): (r: Read<string>)
    ensures r.value == IntervalsText(ReadSaveMinutes(p).value,
      if GetBool(p, BACKUP_ENABLED_KEY, true) then Some(ReadBackupMinutes(p).value) else None,
      if GetBool(p, DELETE_ENABLED_KEY, true) then Some(ReadDeleteMinutes(p).value) else None)
    ensures OnlyIntervalsWritten(p, r.store)
    ensures CurrentReport(r.store) == CurrentReport(p)
  {
    var save := ReadSaveMinutes(p);
    SaveMinutesReadFrame(p);
    var backup :=
      if GetBool(save.store, BACKUP_ENABLED_KEY, true) then
        var b := ReadBackupMinutes(save.store);
        BackupMinutesReadFrame(save.store);
        OnlyIntervalsWrittenTransitive(p, save.store, b.store);
        Read(Some(b.value), b.store)
      else Read(None, save.store);
    assert OnlyIntervalsWritten(p, backup.store) && CurrentReport(backup.store) == CurrentReport(p);
    assert ReadDeleteMinutes(backup.store).value == ReadDeleteMinutes(p).value;
    var delete :=
      if GetBool(backup.store, DELETE_ENABLED_KEY, true) then
        var d := ReadDeleteMinutes(backup.store);
        DeleteMinutesReadFrame(backup.store);
        OnlyIntervalsWrittenTransitive(p, backup.store, d.store);
        Read(Some(d.value), d.store)
      else Read(None, backup.store);
    Read(IntervalsText(save.value, backup.value, delete.value), delete.store)
  }

  /**
   * GetInfo: the message reports the settings as the getters return them;
   * when AutoSave is disabled it is exactly "AutoSave disabled.\n" and no
   * getter is read; otherwise it starts with the on-Play line and ends with
   * the log line.  The getters' write-backs do not change what is reported.
   */
  function GetInfo(p: Store): (r: Read<string>)
    ensures ParseInfo(r.value) == Some(CurrentReport(p))
    ensures !GetBool(p, ENABLED_KEY, true) ==> r == Read(DISABLED_INFO, p)
    ensures GetBool(p, ENABLED_KEY, true) ==>
      StartsWith(r.value, FlagLine(ON_PLAY_YES, ON_PLAY_NO, GetBool(p, SAVE_AFTER_PLAY_KEY, true)))
      && EndsWith(r.value, FlagLine(LOG_YES, LOG_NO, GetBool(p, LOG_KEY, true)))
    ensures OnlyIntervalsWritten(p, r.store)
    ensures CurrentReport(r.store) == CurrentReport(p)
  {
    if !GetBool(p, ENABLED_KEY, true) then
      InfoRoundTrip(Disabled);
      Read(DISABLED_INFO, p)
    else
      var onPlay := FlagLine(ON_PLAY_YES, ON_PLAY_NO, GetBool(p, SAVE_AFTER_PLAY_KEY, true));
      var intervals := GetIntervalsInfo(p);
      var background := FlagLine(BACKGROUND_YES, BACKGROUND_NO, GetBool(intervals.store, IN_BACKGROUND_KEY, true));
      var log := FlagLine(LOG_YES, LOG_NO, GetBool(intervals.store, LOG_KEY, true));
      var report := CurrentReport(p);
      InfoTextLayout(report);
      InfoTextEnds(report);
      InfoRoundTrip(report);
      Read(onPlay + intervals.value + (background + log), intervals.store)
  }
}
