/**
 * GetInfo of the Desidus AutoSave: the status text shown in the
 * preferences, composed from the current settings, and a parser showing
 * that the text determines the settings it reports.
 */
module DesidusInfo {
  import opened Wrappers
  import opened Strings
  import opened Prefs
  import opened InfoLines
  import opened DesidusSettings

  const DISABLED_INFO := "AutoSave disabled.\n"
  const ON_PLAY_YES := "AutoSave enabled. Saves scenes on Play.\n"
  const ON_PLAY_NO := "AutoSave enabled. Doesn't save scenes on Play.\n"
  const EVERY_PREFIX := "AutoSave every "
  const MINUTES_SUFFIX := " minutes.\n"
  const BACKGROUND_YES := "AutoSave enabled when Editor is in background.\n"
  const BACKGROUND_NO := "AutoSave disabled when Editor is in background.\n"
  const POPUP_PREFIX := "Popup enabled with "
  const POPUP_SUFFIX := " seconds timeout.\n"
  const POPUP_OFF := "Popup disabled.\n"
  const LOG_YES := "Log enabled."
  const LOG_NO := "Log disabled."

  /** What the message reports; the popup timeout is reported only when the popup is enabled. */
  datatype Report =
    | Disabled
    | Enabled(saveOnPlay: bool, saveMinutes: int, inBackground: bool, popupTimeout: Option<int>, log: bool)

  /** The lines of GetInfo when AutoSave is enabled. */
  const INFO_SHAPES: seq<Shape> :=
    [Flag(ON_PLAY_YES, ON_PLAY_NO), Number(EVERY_PREFIX, MINUTES_SUFFIX), Flag(BACKGROUND_YES, BACKGROUND_NO),
     Optional(POPUP_PREFIX, POPUP_SUFFIX, POPUP_OFF), Flag(LOG_YES, LOG_NO)]

  function Fields(r: Report): seq<Field>
    requires r.Enabled?
  {
    [FlagField(r.saveOnPlay), NumberField(r.saveMinutes), FlagField(r.inBackground),
     OptionalField(r.popupTimeout), FlagField(r.log)]
  }

  /** The whole message. */
  function InfoText(r: Report): string {
    match r
    case Disabled => DISABLED_INFO
    case Enabled(_, _, _, _, _) => Render(INFO_SHAPES, Fields(r))
  }

  /** The report stated by the values read from an enabled message. */
  function ReportOf(fs: seq<Field>): Option<Report> {
    if |fs| == 5 && fs[0].FlagField? && fs[1].NumberField? && fs[2].FlagField?
      && fs[3].OptionalField? && fs[4].FlagField?
    then Some(Enabled(fs[0].b, fs[1].n, fs[2].b, fs[3].v, fs[4].b))
    else None
  }

  /** Reads a message back into the report it states. */
  function ParseInfo(t: string): Option<Report> {
    if t == DISABLED_INFO then Some(Disabled)
    else
      var fs :- ParseLines(t, INFO_SHAPES);
      ReportOf(fs)
  }

  lemma LinesAreUnambiguous()
    ensures AllUnambiguous(INFO_SHAPES)
  {
    assert ON_PLAY_YES[18] != ON_PLAY_NO[18];
    assert BACKGROUND_YES[9] != BACKGROUND_NO[9];
    assert POPUP_PREFIX[6] != POPUP_OFF[6];
    assert LOG_YES[4] != LOG_NO[4];
  }

  /** Every enabled message begins "AutoSave enabled.", so it is never the disabled one. */
  lemma EnabledIsNotDisabledText(r: Report)
    requires r.Enabled?
    ensures InfoText(r) != DISABLED_INFO
  {
    var first := FlagLine(ON_PLAY_YES, ON_PLAY_NO, r.saveOnPlay);
    RenderStartsWithFirst(INFO_SHAPES, Fields(r));
    assert first[9] == 'e';
    assert InfoText(r)[9] == first[9];
  }

  lemma ReportOfFields(r: Report)
    requires r.Enabled?
    ensures ReportOf(Fields(r)) == Some(r)
  {
  }

  lemma ParseEnabledInfo(t: string, fs: seq<Field>)
    requires t != DISABLED_INFO && ParseLines(t, INFO_SHAPES) == Some(fs)
    ensures ParseInfo(t) == ReportOf(fs)
  {
  }

  /** The message states its report unambiguously: parsing it gives the report back. */
  lemma InfoRoundTrip(r: Report)
    ensures ParseInfo(InfoText(r)) == Some(r)
  {
    if r.Enabled? {
      LinesAreUnambiguous();
      EnabledIsNotDisabledText(r);
      RenderParses(INFO_SHAPES, Fields(r));
      ParseEnabledInfo(InfoText(r), Fields(r));
      ReportOfFields(r);
    }
  }

  /** Different reports give different messages. */
  lemma InfoTextInjective(r1: Report, r2: Report)
    requires InfoText(r1) == InfoText(r2)
    ensures r1 == r2
  {
    InfoRoundTrip(r1);
    InfoRoundTrip(r2);
  }

  /** A message of several lines is its first line followed by the others. */
  lemma RenderFirst(shapes: seq<Shape>, fields: seq<Field>)
    requires AllFit(shapes, fields) && shapes != []
    ensures AllFit(shapes[1..], fields[1..])
    ensures Render(shapes, fields) == Line(shapes[0], fields[0]) + Render(shapes[1..], fields[1..])
  {
    assert forall i :: 0 <= i < |shapes| - 1 ==> shapes[1..][i] == shapes[i + 1] && fields[1..][i] == fields[i + 1];
  }

  /** An enabled message is its five lines one after the other. */
  lemma InfoTextLayout(r: Report)
    requires r.Enabled?
    ensures InfoText(r) ==
      FlagLine(ON_PLAY_YES, ON_PLAY_NO, r.saveOnPlay)
        + (IntLine(EVERY_PREFIX, r.saveMinutes, MINUTES_SUFFIX)
        + (FlagLine(BACKGROUND_YES, BACKGROUND_NO, r.inBackground)
        + (OptionLine(POPUP_PREFIX, POPUP_SUFFIX, POPUP_OFF, r.popupTimeout)
        + FlagLine(LOG_YES, LOG_NO, r.log))))
  {
    var s0 := INFO_SHAPES;
    var f0 := Fields(r);
    var s1, f1 := s0[1..], f0[1..];
    var s2, f2 := s1[1..], f1[1..];
    var s3, f3 := s2[1..], f2[1..];
    RenderFirst(s0, f0);
    RenderFirst(s1, f1);
    RenderFirst(s2, f2);
    RenderFirst(s3, f3);
    assert s3[1..] == [s0[4]] && f3[1..] == [f0[4]];
    RenderOne(s0[4], f0[4]);
  }

  /** An enabled message starts with the on-Play line and ends with the log line. */
  lemma InfoTextEnds(r: Report)
    requires r.Enabled?
    ensures StartsWith(InfoText(r), FlagLine(ON_PLAY_YES, ON_PLAY_NO, r.saveOnPlay))
    ensures EndsWith(InfoText(r), FlagLine(LOG_YES, LOG_NO, r.log))
  {
    RenderStartsWithFirst(INFO_SHAPES, Fields(r));
    RenderEndsWithLast(INFO_SHAPES, Fields(r));
  }

  /** The report GetInfo makes of a store: each setting as its getter returns it. */
  function CurrentReport(p: Store): Report {
    if !AutoSaveEnabled(p) then Disabled
    else Enabled(
      AutoSaveAfterPlay(p),
      ReadSaveMinutes(p).value,
      EnabledInBackground(p),
      if ShowPopup(p) then Some(PopupTimeout(p)) else None,
      LogInfo(p))
  }

  /** Reading SaveMinutes writes only its key, so no other setting changes. */
  lemma SaveMinutesReadFrame(p: Store)
    ensures AutoSaveEnabled(ReadSaveMinutes(p).store) == AutoSaveEnabled(p)
    ensures AutoSaveAfterPlay(ReadSaveMinutes(p).store) == AutoSaveAfterPlay(p)
    ensures EnabledInBackground(ReadSaveMinutes(p).store) == EnabledInBackground(p)
    ensures ShowPopup(ReadSaveMinutes(p).store) == ShowPopup(p)
    ensures PopupTimeout(ReadSaveMinutes(p).store) == PopupTimeout(p)
    ensures LogInfo(ReadSaveMinutes(p).store) == LogInfo(p)
  {
  }

  /**
   * GetInfo: the message reports the settings as the getters return them;
   * when AutoSave is disabled it is exactly "AutoSave disabled.\n" and no
   * getter is read; otherwise it starts with the on-Play line and ends with
   * the log line, and the only write is SaveMinutes' write-back.
   */
  function GetInfo(p: Store): (r: Read<string>)
    ensures ParseInfo(r.value) == Some(CurrentReport(p))
    ensures !AutoSaveEnabled(p) ==> r == Read(DISABLED_INFO, p)
    ensures AutoSaveEnabled(p) ==>
      StartsWith(r.value, FlagLine(ON_PLAY_YES, ON_PLAY_NO, AutoSaveAfterPlay(p)))
      && EndsWith(r.value, FlagLine(LOG_YES, LOG_NO, LogInfo(p)))
      && r.store == ReadSaveMinutes(p).store
    ensures CurrentReport(r.store) == CurrentReport(p)
  {
    if !AutoSaveEnabled(p) then
      InfoRoundTrip(Disabled);
      Read(DISABLED_INFO, p)
    else
      var onPlay := FlagLine(ON_PLAY_YES, ON_PLAY_NO, AutoSaveAfterPlay(p));
      var minutes := ReadSaveMinutes(p);
      var q := minutes.store;
      SaveMinutesReadFrame(p);
      GettersAreStable(p, 0);
      var every := IntLine(EVERY_PREFIX, minutes.value, MINUTES_SUFFIX);
      var background := FlagLine(BACKGROUND_YES, BACKGROUND_NO, EnabledInBackground(q));
      var popup := OptionLine(POPUP_PREFIX, POPUP_SUFFIX, POPUP_OFF, if ShowPopup(q) then Some(PopupTimeout(q)) else None);
      var log := FlagLine(LOG_YES, LOG_NO, LogInfo(q));
      var report := CurrentReport(p);
      InfoTextLayout(report);
      InfoTextEnds(report);
      InfoRoundTrip(report);
      Read(onPlay + (every + (background + (popup + log))), q)
  }
}
