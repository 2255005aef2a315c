/**
 * The Desidus AutoSave (Assets/Desidus/AutoSave/Editor/AutoSave.cs): the
 * scheduler OnUpdate, which saves the open scenes (or shows the popup that
 * will save them) when SaveMinutes have passed and some scene is dirty, and
 * the functions that switch AutoSave on and off.
 *
 * The editor's events are modelled by counts: `updateHandlers` is the
 * number of times OnUpdate is registered on EditorApplication.update and
 * `playHandlers` the number of times OnPlayModeStateChanged is registered
 * on EditorApplication.playModeStateChanged.  `-=` removes one
 * registration if there is one and `+=` adds one; the editor calls a
 * handler once per registration.  `runInBackground` is
 * Application.runInBackground.  The events list records SaveScenes calls
 * and popups shown, and the popup window is the AutoSavePopup.
 *
 * Each operation is specified by a function from the state before to the
 * state after; the class AutoSave performs the same steps and is proved to
 * agree with it.
 */
module DesidusAutoSave {
  import opened Wrappers
  import opened Strings
  import opened Prefs
  import opened DesidusSettings
  import DesidusInfo
  import opened DesidusPopup

  /** What the AutoSave did: SaveScenes, or ShowAutoSavePopup with a timeout in seconds. */
  datatype Event = ScenesSaved | PopupShown(timeout: int)

  datatype PlayModeStateChange = EnteredEditMode | ExitingEditMode | EnteredPlayMode | ExitingPlayMode

  datatype World = World(
    prefs: Store, updateHandlers: nat, playHandlers: nat, runInBackground: bool,
    events: seq<Event>, popup: PopupState)

  /** `-= handler`: one registration fewer, if there is one. */
  function Unsubscribe(n: nat): (r: nat)
    ensures r <= n && (n <= 1 ==> r == 0)
  {
    if n == 0 then 0 else n - 1
  }

  /**
   * `-= handler` then `+= handler`: registered at least once, exactly once
   * if it was registered at most once, and a count above zero is kept.
   */
  function Resubscribe(n: nat): (r: nat)
    ensures r >= 1 && (n <= 1 ==> r == 1) && (n >= 1 ==> r == n)
  {
    Unsubscribe(n) + 1
  }

  predicate AnyDirty(dirty: seq<bool>) {
    exists i :: 0 <= i < |dirty| && dirty[i]
  }

  /** At least SaveMinutes have passed since LastSaveTime (times in seconds). */
  function SaveDue(p: Store, now: int): bool {
    now - ReadLastSaveTime(p, now).value >= 60 * ReadSaveMinutes(p).value
  }

  /** At the first dirty scene: the popup with PopupTimeout when ShowPopup is on, otherwise SaveScenes. */
  function Act(w: World, sinceStartup: real): World {
    if ShowPopup(w.prefs) then
      var timeout := PopupTimeout(w.prefs);
      w.(events := w.events + [PopupShown(timeout)], popup := ShowStep(w.popup, timeout as real, sinceStartup))
    else w.(events := w.events + [ScenesSaved])
  }

  /** The store after OnUpdate's two getters, LastSaveTime then SaveMinutes. */
  function TickReads(p: Store, now: int): Store {
    ReadSaveMinutes(ReadLastSaveTime(p, now).store).store
  }

  /**
   * OnUpdate: when due, act at the first dirty scene if there is one, then
   * LastSaveTime := now whether or not anything was dirty.
   */
  function Tick(w: World, now: int, sinceStartup: real, dirty: seq<bool>): World {
    var last := ReadLastSaveTime(w.prefs, now);
    var minutes := ReadSaveMinutes(last.store);
    var read := w.(prefs := minutes.store);
    if now - last.value >= 60 * minutes.value then
      var acted := if AnyDirty(dirty) then Act(read, sinceStartup) else read;
      acted.(prefs := SetTime(acted.prefs, LAST_SAVE_KEY, now))
    else read
  }

  /** The actions a tick takes, as the settings before it determine them. */
  function Planned(p: Store, now: int, dirty: seq<bool>): seq<Event> {
    if SaveDue(p, now) && AnyDirty(dirty) then
      [if ShowPopup(p) then PopupShown(PopupTimeout(p)) else ScenesSaved]
    else []
  }

  /** The two getters write only their own keys and change no other setting. */
  lemma TickReadsFrame(p: Store, now: int)
    ensures SameExcept(p, TickReads(p, now), {LAST_SAVE_KEY, SAVE_MINUTES_KEY})
    ensures ReadSaveMinutes(ReadLastSaveTime(p, now).store).value == ReadSaveMinutes(p).value
    ensures ReadSaveMinutes(TickReads(p, now)).value == ReadSaveMinutes(p).value
    ensures GetTime(TickReads(p, now), LAST_SAVE_KEY, MIN_TIME) == ReadLastSaveTime(p, now).value
    ensures ShowPopup(TickReads(p, now)) == ShowPopup(p) && PopupTimeout(TickReads(p, now)) == PopupTimeout(p)
    ensures AutoSaveEnabled(TickReads(p, now)) == AutoSaveEnabled(p)
    ensures AutoSaveAfterPlay(TickReads(p, now)) == AutoSaveAfterPlay(p)
  {
    var q := ReadLastSaveTime(p, now).store;
    GettersWriteOnlyTheirKey(p, now);
    GettersWriteOnlyTheirKey(q, now);
    SameExceptTransitive(p, q, ReadSaveMinutes(q).store, {LAST_SAVE_KEY}, {SAVE_MINUTES_KEY});
    assert AgreeOn(p, q, SAVE_MINUTES_KEY);
    ReadsAgree(p, q, SAVE_MINUTES_KEY);
  }

  /**
   * What a tick does: the planned action, and the popup shown with
   * PopupTimeout exactly when the action is a popup; the handlers and
   * runInBackground are untouched.
   */
  lemma TickActions(w: World, now: int, sinceStartup: real, dirty: seq<bool>)
    ensures Tick(w, now, sinceStartup, dirty).events == w.events + Planned(w.prefs, now, dirty)
    ensures Tick(w, now, sinceStartup, dirty).popup ==
      if SaveDue(w.prefs, now) && AnyDirty(dirty) && ShowPopup(w.prefs)
      then ShowStep(w.popup, PopupTimeout(w.prefs) as real, sinceStartup) else w.popup
    ensures Tick(w, now, sinceStartup, dirty).updateHandlers == w.updateHandlers
    ensures Tick(w, now, sinceStartup, dirty).playHandlers == w.playHandlers
    ensures Tick(w, now, sinceStartup, dirty).runInBackground == w.runInBackground
  {
    TickReadsFrame(w.prefs, now);
  }

  /** A tick triggers at most one save or popup, and one exactly when it is due and a scene is dirty. */
  lemma TickActsAtMostOnce(w: World, now: int, sinceStartup: real, dirty: seq<bool>)
    ensures |Tick(w, now, sinceStartup, dirty).events| <= |w.events| + 1
    ensures |Tick(w, now, sinceStartup, dirty).events| == |w.events| + 1 <==> SaveDue(w.prefs, now) && AnyDirty(dirty)
  {
    TickActions(w, now, sinceStartup, dirty);
  }

  /**
   * A due tick sets LastSaveTime to now, dirty scenes or not, popup or not;
   * a tick that is not due leaves it as the getter returned it.
   */
  lemma TickSaveTime(w: World, now: int, sinceStartup: real, dirty: seq<bool>)
    ensures GetTime(Tick(w, now, sinceStartup, dirty).prefs, LAST_SAVE_KEY, MIN_TIME) ==
      if SaveDue(w.prefs, now) then now else ReadLastSaveTime(w.prefs, now).value
  {
    TickReadsFrame(w.prefs, now);
  }

  /** A tick writes only LastSaveTime and SaveMinutes' write-back, and keeps SaveMinutes. */
  lemma TickFrame(w: World, now: int, sinceStartup: real, dirty: seq<bool>)
    ensures SameExcept(w.prefs, Tick(w, now, sinceStartup, dirty).prefs, {LAST_SAVE_KEY, SAVE_MINUTES_KEY})
    ensures ReadSaveMinutes(Tick(w, now, sinceStartup, dirty).prefs).value == ReadSaveMinutes(w.prefs).value
  {
    var q := TickReads(w.prefs, now);
    TickReadsFrame(w.prefs, now);
    if SaveDue(w.prefs, now) {
      WriteIsLocal(q, LAST_SAVE_KEY, TimePref(now));
      SameExceptTransitive(w.prefs, q, SetTime(q, LAST_SAVE_KEY, now), {LAST_SAVE_KEY, SAVE_MINUTES_KEY}, {LAST_SAVE_KEY});
      assert {LAST_SAVE_KEY, SAVE_MINUTES_KEY} + {LAST_SAVE_KEY} == {LAST_SAVE_KEY, SAVE_MINUTES_KEY};
      assert AgreeOn(q, SetTime(q, LAST_SAVE_KEY, now), SAVE_MINUTES_KEY);
      ReadsAgree(q, SetTime(q, LAST_SAVE_KEY, now), SAVE_MINUTES_KEY);
    }
  }

  /**
   * After a due tick at `now`, a tick before SaveMinutes more have passed
   * is not due: the timer was reset.
   */
  lemma SecondTickWaits(w: World, now: int, later: int, sinceStartup: real, dirty: seq<bool>)
    requires SaveDue(w.prefs, now)
    requires now <= later < now + 60 * ReadSaveMinutes(w.prefs).value
    ensures !SaveDue(Tick(w, now, sinceStartup, dirty).prefs, later)
  {
    TickSaveTime(w, now, sinceStartup, dirty);
    TickFrame(w, now, sinceStartup, dirty);
  }

  /** Handlers are registered once while AutoSave is enabled and not at all otherwise. */
  predicate Valid(w: World) {
    w.updateHandlers == (if AutoSaveEnabled(w.prefs) then 1 else 0) && w.playHandlers <= w.updateHandlers
  }

  /** A tick keeps the registrations valid and the timeout in range. */
  lemma TickKeepsInvariants(w: World, now: int, sinceStartup: real, dirty: seq<bool>)
    ensures Valid(w) ==> Valid(Tick(w, now, sinceStartup, dirty))
    ensures TimeoutInRange(w.prefs) ==> TimeoutInRange(Tick(w, now, sinceStartup, dirty).prefs)
  {
    var r := Tick(w, now, sinceStartup, dirty);
    TickActions(w, now, sinceStartup, dirty);
    TickFrame(w, now, sinceStartup, dirty);
    assert AgreeOn(w.prefs, r.prefs, ENABLED_KEY) && AgreeOn(w.prefs, r.prefs, TIMEOUT_KEY);
    ReadsAgree(w.prefs, r.prefs, ENABLED_KEY);
    ReadsAgree(w.prefs, r.prefs, TIMEOUT_KEY);
  }

  /** A shown popup counts down from a timeout in [0, 30] when the stored timeout is in range. */
  lemma PopupTimeoutInRange(w: World, now: int, sinceStartup: real, dirty: seq<bool>)
    requires TimeoutInRange(w.prefs)
    requires SaveDue(w.prefs, now) && AnyDirty(dirty) && ShowPopup(w.prefs)
    ensures var pop := Tick(w, now, sinceStartup, dirty).popup;
      0.0 <= pop.timeOut <= MAX_POPUP_TIMEOUT as real && pop.startTime == sinceStartup && pop.subscribed
  {
    TickActions(w, now, sinceStartup, dirty);
  }

  /** The editor's update event: OnUpdate once per registration. */
  function UpdateDispatch(w: World, n: nat, now: int, sinceStartup: real, dirty: seq<bool>): World
    decreases n
  {
    if n == 0 then w else UpdateDispatch(Tick(w, now, sinceStartup, dirty), n - 1, now, sinceStartup, dirty)
  }

  function EditorUpdate(w: World, now: int, sinceStartup: real, dirty: seq<bool>): World {
    UpdateDispatch(w, w.updateHandlers, now, sinceStartup, dirty)
  }

  /** With valid registrations, an editor frame runs OnUpdate once when enabled and never otherwise. */
  lemma EditorUpdateTicksOnce(w: World, now: int, sinceStartup: real, dirty: seq<bool>)
    requires Valid(w)
    ensures EditorUpdate(w, now, sinceStartup, dirty) == if AutoSaveEnabled(w.prefs) then Tick(w, now, sinceStartup, dirty) else w
  {
    if AutoSaveEnabled(w.prefs) {
      assert UpdateDispatch(Tick(w, now, sinceStartup, dirty), 0, now, sinceStartup, dirty) == Tick(w, now, sinceStartup, dirty);
    }
  }

  /** OnPlayModeStateChanged: SaveScenes only when leaving edit mode. */
  function PlayModeStep(w: World, state: PlayModeStateChange): (r: World)
    ensures state == ExitingEditMode ==> r == w.(events := w.events + [ScenesSaved])
    ensures state != ExitingEditMode ==> r == w
  {
    if state == ExitingEditMode then w.(events := w.events + [ScenesSaved]) else w
  }

  /** The editor's play-mode event: OnPlayModeStateChanged once per registration. */
  function PlayDispatch(w: World, n: nat, state: PlayModeStateChange): World
    decreases n
  {
    if n == 0 then w else PlayDispatch(PlayModeStep(w, state), n - 1, state)
  }

  function EditorPlayModeChanged(w: World, state: PlayModeStateChange): World {
    PlayDispatch(w, w.playHandlers, state)
  }

  /** With valid registrations, leaving edit mode saves once if the handler is registered, and nothing else does. */
  lemma PlayModeSavesOnce(w: World, state: PlayModeStateChange)
    requires Valid(w)
    ensures EditorPlayModeChanged(w, state) ==
      if state == ExitingEditMode && w.playHandlers == 1 then w.(events := w.events + [ScenesSaved]) else w
  {
    if w.playHandlers == 1 {
      assert PlayDispatch(PlayModeStep(w, state), 0, state) == PlayModeStep(w, state);
    }
  }

  /**
   * EnableInBackground: in the editor, runInBackground becomes the
   * argument or the default captured at startup, and the argument is stored.
   */
  function EnableInBackgroundStep(w: World, b: bool, isEditor: bool): (r: World)
    ensures isEditor ==> r.runInBackground == (b || DefaultRunInBackground(w.prefs)) && EnabledInBackground(r.prefs) == b
    ensures !isEditor ==> r == w
    ensures SameExcept(w.prefs, r.prefs, {IN_BACKGROUND_KEY})
    ensures r.updateHandlers == w.updateHandlers && r.playHandlers == w.playHandlers
    ensures r.events == w.events && r.popup == w.popup
  {
    if isEditor then
      w.(runInBackground := b || DefaultRunInBackground(w.prefs), prefs := SetBool(w.prefs, IN_BACKGROUND_KEY, b))
    else w
  }

  /** GetInfo's result stated back by the status text. */
  predicate InfoStates(info: string, p: Store) {
    DesidusInfo.ParseInfo(info) == Some(DesidusInfo.CurrentReport(p))
  }

  /** The registrations and setting writes of EnableAutoSave, before GetInfo. */
  function EnableWrites(w: World, isEditor: bool): World {
    var w1 := w.(updateHandlers := Resubscribe(w.updateHandlers));
    var w2 := EnableInBackgroundStep(w1, EnabledInBackground(w1.prefs), isEditor);
    var w3 := if AutoSaveAfterPlay(w2.prefs) then w2.(playHandlers := Resubscribe(w2.playHandlers)) else w2;
    w3.(prefs := SetBool(w3.prefs, ENABLED_KEY, true))
  }

  /**
   * EnableAutoSave: OnUpdate is registered exactly once, runInBackground
   * follows EnabledInBackground, OnPlayModeStateChanged is registered
   * exactly once if AutoSaveAfterPlay, AutoSave is marked enabled, and
   * the returned text states the new settings.
   */
  function EnableStep(w: World, isEditor: bool): (r: (World, string))
    ensures AutoSaveEnabled(r.0.prefs) && r.0.updateHandlers >= 1
    ensures w.updateHandlers <= 1 ==> r.0.updateHandlers == 1
    ensures AutoSaveAfterPlay(w.prefs) && w.playHandlers <= 1 ==> r.0.playHandlers == 1
    ensures !AutoSaveAfterPlay(w.prefs) ==> r.0.playHandlers == w.playHandlers
    ensures r.0.updateHandlers == Resubscribe(w.updateHandlers)
    ensures r.0.playHandlers == if AutoSaveAfterPlay(w.prefs) then Resubscribe(w.playHandlers) else w.playHandlers
    ensures isEditor ==> r.0.runInBackground == (EnabledInBackground(w.prefs) || DefaultRunInBackground(w.prefs))
    ensures !isEditor ==> r.0.runInBackground == w.runInBackground
    ensures r.0.events == w.events && r.0.popup == w.popup
    ensures SameExcept(w.prefs, r.0.prefs, {ENABLED_KEY, IN_BACKGROUND_KEY, SAVE_MINUTES_KEY})
    ensures EnabledInBackground(r.0.prefs) == EnabledInBackground(w.prefs)
    ensures AutoSaveAfterPlay(r.0.prefs) == AutoSaveAfterPlay(w.prefs)
    ensures InfoStates(r.1, r.0.prefs)
  {
    var w4 := EnableWrites(w, isEditor);
    EnableWritesFrame(w, isEditor);
    var info := DesidusInfo.GetInfo(w4.prefs);
    GetInfoFrame(w4.prefs);
    SameExceptTransitive(w.prefs, w4.prefs, info.store, {ENABLED_KEY, IN_BACKGROUND_KEY}, {SAVE_MINUTES_KEY});
    assert {ENABLED_KEY, IN_BACKGROUND_KEY} + {SAVE_MINUTES_KEY} == {ENABLED_KEY, IN_BACKGROUND_KEY, SAVE_MINUTES_KEY};
    (w4.(prefs := info.store), info.value)
  }

  lemma EnableWritesFrame(w: World, isEditor: bool)
    ensures var r := EnableWrites(w, isEditor);
      && r.updateHandlers == Resubscribe(w.updateHandlers) && AutoSaveEnabled(r.prefs)
      && r.playHandlers == (if AutoSaveAfterPlay(w.prefs) then Resubscribe(w.playHandlers) else w.playHandlers)
      && (isEditor ==> r.runInBackground == (EnabledInBackground(w.prefs) || DefaultRunInBackground(w.prefs)))
      && (!isEditor ==> r.runInBackground == w.runInBackground)
      && r.events == w.events && r.popup == w.popup
      && SameExcept(w.prefs, r.prefs, {ENABLED_KEY, IN_BACKGROUND_KEY})
      && EnabledInBackground(r.prefs) == EnabledInBackground(w.prefs)
      && AutoSaveAfterPlay(r.prefs) == AutoSaveAfterPlay(w.prefs)
  {
    var w1 := w.(updateHandlers := Resubscribe(w.updateHandlers));
    var w2 := EnableInBackgroundStep(w1, EnabledInBackground(w1.prefs), isEditor);
    assert AgreeOn(w.prefs, w2.prefs, ON_PLAY_KEY);
    ReadsAgree(w.prefs, w2.prefs, ON_PLAY_KEY);
  }

  /** GetInfo writes only SaveMinutes and changes no boolean setting and not the timeout. */
  lemma GetInfoFrame(p: Store)
    ensures SameExcept(p, DesidusInfo.GetInfo(p).store, {SAVE_MINUTES_KEY})
    ensures InfoStates(DesidusInfo.GetInfo(p).value, DesidusInfo.GetInfo(p).store)
    ensures ReadSaveMinutes(DesidusInfo.GetInfo(p).store).value == ReadSaveMinutes(p).value
  {
    GettersWriteOnlyTheirKey(p, 0);
    GettersAreStable(p, 0);
  }

  /** After EnableAutoSave, AutoSave is stored as enabled, in the editor EnabledInBackground is stored as a boolean, and SaveMinutes reads stably. */
  lemma EnabledPrefs(w: World, isEditor: bool)
    ensures var p := EnableStep(w, isEditor).0.prefs;
      && SetBool(p, ENABLED_KEY, true) == p
      && (isEditor ==> SetBool(p, IN_BACKGROUND_KEY, EnabledInBackground(p)) == p)
      && ReadSaveMinutes(p).store == p
  {
    var q := EnableWrites(w, isEditor).prefs;
    EnableWritesFrame(w, isEditor);
    assert EnableStep(w, isEditor).0.prefs == ReadSaveMinutes(q).store;
    WrittenKeysKept(q);
    GettersAreStable(q, 0);
    if isEditor {
      var w1 := w.(updateHandlers := Resubscribe(w.updateHandlers));
      var w2 := EnableInBackgroundStep(w1, EnabledInBackground(w1.prefs), isEditor);
      assert w2.prefs[IN_BACKGROUND_KEY].BoolPref?;
      assert AgreeOn(w2.prefs, q, IN_BACKGROUND_KEY);
    }
  }

  /** The SaveMinutes getter keeps what is stored under the other keys. */
  lemma WrittenKeysKept(q: Store)
    ensures AgreeOn(q, ReadSaveMinutes(q).store, ENABLED_KEY)
    ensures AgreeOn(q, ReadSaveMinutes(q).store, IN_BACKGROUND_KEY)
  {
  }

  /** Enabling twice is enabling once. */
  lemma EnableIdempotent(w: World, isEditor: bool)
    ensures EnableStep(EnableStep(w, isEditor).0, isEditor).0 == EnableStep(w, isEditor).0
  {
    var e := EnableStep(w, isEditor).0;
    EnabledPrefs(w, isEditor);
    var w1 := e.(updateHandlers := Resubscribe(e.updateHandlers));
    var w2 := EnableInBackgroundStep(w1, EnabledInBackground(w1.prefs), isEditor);
    assert w2.prefs == e.prefs;
    assert EnableWrites(e, isEditor).prefs == e.prefs;
  }

  /**
   * DisableAutoSave: when enabled, both handlers are unregistered and
   * AutoSave is marked disabled; when already disabled nothing changes.
   * The returned text is the disabled message.
   */
  function DisableStep(w: World): (r: (World, string))
    ensures !AutoSaveEnabled(w.prefs) ==> r == (w, DesidusInfo.DISABLED_INFO)
    ensures !AutoSaveEnabled(r.0.prefs) && r.1 == DesidusInfo.DISABLED_INFO
    ensures Valid(w) ==> r.0.updateHandlers == 0 && r.0.playHandlers == 0
    ensures SameExcept(w.prefs, r.0.prefs, {ENABLED_KEY})
    ensures r.0.events == w.events && r.0.popup == w.popup && r.0.runInBackground == w.runInBackground
  {
    var w1 :=
      if AutoSaveEnabled(w.prefs) then
        w.(updateHandlers := Unsubscribe(w.updateHandlers), playHandlers := Unsubscribe(w.playHandlers),
           prefs := SetBool(w.prefs, ENABLED_KEY, false))
      else w;
    var info := DesidusInfo.GetInfo(w1.prefs);
    (w1.(prefs := info.store), info.value)
  }

  /** SetInterval: SaveMinutes := v, then GetInfo. */
  function SetIntervalStep(w: World, v: int): (r: (World, string))
    ensures ReadSaveMinutes(r.0.prefs).value == if v == 0 then DEFAULT_SAVE_MINUTES else v
    ensures SameExcept(w.prefs, r.0.prefs, {SAVE_MINUTES_KEY})
    ensures r.0 == w.(prefs := r.0.prefs)
    ensures InfoStates(r.1, r.0.prefs)
  {
    var p := SetInt(w.prefs, SAVE_MINUTES_KEY, v);
    var info := DesidusInfo.GetInfo(p);
    GetInfoFrame(p);
    SaveMinutesAfterSet(w.prefs, v);
    WriteIsLocal(w.prefs, SAVE_MINUTES_KEY, IntPref(v));
    SameExceptTransitive(w.prefs, p, info.store, {SAVE_MINUTES_KEY}, {SAVE_MINUTES_KEY});
    assert {SAVE_MINUTES_KEY} + {SAVE_MINUTES_KEY} == {SAVE_MINUTES_KEY};
    (w.(prefs := info.store), info.value)
  }

  /** The PopupTimeout setter, applied to the world. */
  function SetPopupTimeoutStep(w: World, v: int): (r: World)
    ensures PopupTimeout(r.prefs) == Clamp(v, 0, MAX_POPUP_TIMEOUT) && TimeoutInRange(r.prefs)
    ensures SameExcept(w.prefs, r.prefs, {TIMEOUT_KEY})
    ensures r == w.(prefs := r.prefs)
  {
    w.(prefs := SetPopupTimeout(w.prefs, v))
  }

  /** The static constructor: capture runInBackground if AutoSave has never been configured, then enable if enabled. */
  function StartupStep(p: Store, runInBackground: bool, isEditor: bool, popup: PopupState): (r: World)
    ensures Valid(r) && r.events == [] && r.popup == popup
    ensures DefaultRunInBackground(r.prefs) == if ENABLED_KEY !in p then runInBackground else DefaultRunInBackground(p)
    ensures AutoSaveEnabled(r.prefs) == AutoSaveEnabled(p)
    ensures AutoSaveEnabled(p) ==> r.playHandlers == (if AutoSaveAfterPlay(p) then 1 else 0)
  {
    var w0 := World(p, 0, 0, runInBackground, [], popup);
    var w1 := if ENABLED_KEY !in p then w0.(prefs := SetBool(p, DEFAULT_RUN_IN_BACKGROUND_KEY, runInBackground)) else w0;
    assert AutoSaveEnabled(w1.prefs) == AutoSaveEnabled(p) && AutoSaveAfterPlay(w1.prefs) == AutoSaveAfterPlay(p);
    if AutoSaveEnabled(w1.prefs) then
      var r := EnableStep(w1, isEditor).0;
      assert AgreeOn(w1.prefs, r.prefs, DEFAULT_RUN_IN_BACKGROUND_KEY);
      r
    else w1
  }

  /** Enabling, disabling, a play-mode change and the setters keep the registrations valid. */
  lemma OperationsKeepValid(w: World, isEditor: bool, b: bool, v: int, state: PlayModeStateChange)
    requires Valid(w)
    ensures Valid(EnableStep(w, isEditor).0)
    ensures Valid(DisableStep(w).0)
    ensures Valid(EnableInBackgroundStep(w, b, isEditor))
    ensures Valid(SetIntervalStep(w, v).0)
    ensures Valid(SetPopupTimeoutStep(w, v))
    ensures Valid(PlayModeStep(w, state))
  {
    assert AgreeOn(w.prefs, EnableInBackgroundStep(w, b, isEditor).prefs, ENABLED_KEY);
    assert AgreeOn(w.prefs, SetIntervalStep(w, v).0.prefs, ENABLED_KEY);
    assert AgreeOn(w.prefs, SetPopupTimeoutStep(w, v).prefs, ENABLED_KEY);
  }

  // ----- Save on Play -----

  /** The AutoSaveAfterPlay setter as written: only the setting is stored. */
  function SetSaveAfterPlayAsWritten(w: World, b: bool): (r: World)
    ensures AutoSaveAfterPlay(r.prefs) == b && r == w.(prefs := r.prefs)
    ensures SameExcept(w.prefs, r.prefs, {ON_PLAY_KEY})
  {
    w.(prefs := SetBool(w.prefs, ON_PLAY_KEY, b))
  }

  /**
   * The AutoSaveAfterPlay setter as the setting is described: while
   * AutoSave is enabled the play-mode handler is registered when the
   * setting is switched on and unregistered when it is switched off.
   */
  function SetSaveAfterPlay(w: World, b: bool): (r: World)
    ensures AutoSaveAfterPlay(r.prefs) == b
    ensures SameExcept(w.prefs, r.prefs, {ON_PLAY_KEY})
    ensures Valid(w) && AutoSaveEnabled(w.prefs) ==> r.playHandlers == (if b then 1 else 0)
    ensures !AutoSaveEnabled(w.prefs) ==> r.playHandlers == w.playHandlers
    ensures r == w.(prefs := r.prefs, playHandlers := r.playHandlers)
  {
    var handlers :=
      if !AutoSaveEnabled(w.prefs) then w.playHandlers
      else if b then Resubscribe(w.playHandlers) else Unsubscribe(w.playHandlers);
    w.(prefs := SetBool(w.prefs, ON_PLAY_KEY, b), playHandlers := handlers)
  }

  /** The status text says "Saves scenes on Play." */
  predicate InfoSaysSavesOnPlay(p: Store) {
    DesidusInfo.CurrentReport(p).Enabled? && DesidusInfo.CurrentReport(p).saveOnPlay
  }

  /** The play-mode handler is registered exactly when the status text says scenes are saved on Play. */
  predicate PlayConsistent(w: World) {
    Valid(w) && w.playHandlers == (if InfoSaysSavesOnPlay(w.prefs) then 1 else 0)
  }

  lemma InfoSaysSavesOnPlayText(p: Store)
    ensures InfoSaysSavesOnPlay(p) <==> AutoSaveEnabled(p) && AutoSaveAfterPlay(p)
    ensures InfoSaysSavesOnPlay(p) ==> StartsWith(DesidusInfo.GetInfo(p).value, DesidusInfo.ON_PLAY_YES)
    ensures AutoSaveEnabled(p) && !AutoSaveAfterPlay(p) ==> StartsWith(DesidusInfo.GetInfo(p).value, DesidusInfo.ON_PLAY_NO)
  {
  }

  /**
   * Startup, the operations and the corrected setter keep the handler in
   * line with the status text.
   */
  lemma PlayConsistentPreserved(w: World, p: Store, rib: bool, isEditor: bool, pop: PopupState, b: bool, v: int)
    ensures PlayConsistent(StartupStep(p, rib, isEditor, pop))
    ensures PlayConsistent(w) ==> PlayConsistent(EnableStep(w, isEditor).0)
    ensures PlayConsistent(w) ==> PlayConsistent(DisableStep(w).0)
    ensures PlayConsistent(w) ==> PlayConsistent(SetSaveAfterPlay(w, b))
  {
    var s := StartupStep(p, rib, isEditor, pop);
    InfoSaysSavesOnPlayText(s.prefs);
    InfoSaysSavesOnPlayText(p);
    if PlayConsistent(w) {
      InfoSaysSavesOnPlayText(w.prefs);
      InfoSaysSavesOnPlayText(EnableStep(w, isEditor).0.prefs);
      InfoSaysSavesOnPlayText(DisableStep(w).0.prefs);
      var f := SetSaveAfterPlay(w, b);
      InfoSaysSavesOnPlayText(f.prefs);
      assert AgreeOn(w.prefs, f.prefs, ENABLED_KEY);
    }
  }

  /** A step that keeps the registrations and the two settings read by the status text's first line keeps PlayConsistent. */
  lemma PlayConsistentTransfer(w: World, q: World)
    requires PlayConsistent(w)
    requires q.updateHandlers == w.updateHandlers && q.playHandlers == w.playHandlers
    requires AgreeOn(w.prefs, q.prefs, ENABLED_KEY) && AgreeOn(w.prefs, q.prefs, ON_PLAY_KEY)
    ensures PlayConsistent(q)
  {
    ReadsAgree(w.prefs, q.prefs, ENABLED_KEY);
    ReadsAgree(w.prefs, q.prefs, ON_PLAY_KEY);
    InfoSaysSavesOnPlayText(w.prefs);
    InfoSaysSavesOnPlayText(q.prefs);
  }

  /** The other setters and a tick keep the handler in line with the status text. */
  lemma PlayConsistentKeptBySetters(w: World, isEditor: bool, b: bool, v: int, now: int, sinceStartup: real, dirty: seq<bool>)
    requires PlayConsistent(w)
    ensures PlayConsistent(EnableInBackgroundStep(w, b, isEditor))
    ensures PlayConsistent(SetIntervalStep(w, v).0)
    ensures PlayConsistent(SetPopupTimeoutStep(w, v))
    ensures PlayConsistent(Tick(w, now, sinceStartup, dirty))
  {
    PlayConsistentTransfer(w, EnableInBackgroundStep(w, b, isEditor));
    PlayConsistentTransfer(w, SetIntervalStep(w, v).0);
    PlayConsistentTransfer(w, SetPopupTimeoutStep(w, v));
    TickActions(w, now, sinceStartup, dirty);
    TickFrame(w, now, sinceStartup, dirty);
    PlayConsistentTransfer(w, Tick(w, now, sinceStartup, dirty));
  }

  /** With the corrected setter, leaving edit mode saves exactly when the status text says it will. */
  lemma PlaySaveMatchesInfo(w: World)
    requires PlayConsistent(w)
    ensures EditorPlayModeChanged(w, ExitingEditMode).events ==
      w.events + (if InfoSaysSavesOnPlay(w.prefs) then [ScenesSaved] else [])
  {
    PlayModeSavesOnce(w, ExitingEditMode);
  }

  /**
   * The setter as written: after startup with nothing stored, switching
   * "Save on Play" off makes the status text say "Doesn't save scenes on
   * Play.", yet leaving edit mode still saves the scenes.
   */
  lemma SaveOnPlayOutlivesItsSetting()
    ensures var w := SetSaveAfterPlayAsWritten(StartupStep(map[], false, true, NO_WINDOW), false);
      && StartsWith(DesidusInfo.GetInfo(w.prefs).value, DesidusInfo.ON_PLAY_NO)
      && !InfoSaysSavesOnPlay(w.prefs)
      && EditorPlayModeChanged(w, ExitingEditMode).events == w.events + [ScenesSaved]
  {
    var s := StartupStep(map[], false, true, NO_WINDOW);
    var w := SetSaveAfterPlayAsWritten(s, false);
    assert AutoSaveEnabled(s.prefs) && s.playHandlers == 1;
    assert AgreeOn(s.prefs, w.prefs, ENABLED_KEY);
    assert AutoSaveEnabled(w.prefs) && !AutoSaveAfterPlay(w.prefs);
    InfoSaysSavesOnPlayText(w.prefs);
    PlayModeSavesOnce(w, ExitingEditMode);
  }

  /** The static class AutoSave, with the popup window it shows. */
  class AutoSave {
    var prefs: Store
    var updateHandlers: nat
    var playHandlers: nat
    var runInBackground: bool
    var events: seq<Event>
    const isEditor: bool
    const popup: AutoSavePopup

    function State(): World
      reads this, popup
    {
      World(prefs, updateHandlers, playHandlers, runInBackground, events, popup.State())
    }

    /** The static constructor, run when the editor loads the class. */
    constructor(p: Store, runInBackground: bool, isEditor: bool, popup: AutoSavePopup)
      ensures this.popup == popup && this.isEditor == isEditor
      ensures State() == StartupStep(p, runInBackground, isEditor, popup.State())
    {
      this.prefs := p;
      this.updateHandlers := 0;
      this.playHandlers := 0;
      this.runInBackground := runInBackground;
      this.events := [];
      this.isEditor := isEditor;
      this.popup := popup;
      new;
      if ENABLED_KEY !in prefs {
        prefs := SetBool(prefs, DEFAULT_RUN_IN_BACKGROUND_KEY, this.runInBackground);
      }
      if AutoSaveEnabled(prefs) {
        var _ := EnableAutoSave();
      }
    }

    method SaveMinutes() returns (minutes: int)
      modifies this
      ensures minutes == ReadSaveMinutes(old(prefs)).value
      ensures State() == old(State()).(prefs := ReadSaveMinutes(old(prefs)).store)
    {
      var r := ReadSaveMinutes(prefs);
      minutes, prefs := r.value, r.store;
    }

    method LastSaveTime(now: int) returns (t: int)
      modifies this
      ensures t == ReadLastSaveTime(old(prefs), now).value
      ensures State() == old(State()).(prefs := ReadLastSaveTime(old(prefs), now).store)
    {
      var r := ReadLastSaveTime(prefs, now);
      t, prefs := r.value, r.store;
    }

    method GetInfo() returns (info: string)
      modifies this
      ensures info == DesidusInfo.GetInfo(old(prefs)).value
      ensures State() == old(State()).(prefs := DesidusInfo.GetInfo(old(prefs)).store)
    {
      var r := DesidusInfo.GetInfo(prefs);
      info, prefs := r.value, r.store;
    }

    method SaveScenes()
      modifies this
      ensures State() == old(State()).(events := old(events) + [ScenesSaved])
    {
      events := events + [ScenesSaved];
    }

    /** OnUpdate at `now` (seconds), `sinceStartup` seconds after startup, with the open scenes' dirty flags. */
    method OnUpdate(now: int, sinceStartup: real, dirty: seq<bool>)
      modifies this, popup
      ensures State() == Tick(old(State()), now, sinceStartup, dirty)
    {
      var last := LastSaveTime(now);
      var minutes := SaveMinutes();
      if now - last >= 60 * minutes {
        ghost var before := State();
        var sc := |dirty|;
        var i := 0;
        while i < sc
          invariant 0 <= i <= sc
          invariant forall j :: 0 <= j < i ==> !dirty[j]
          invariant State() == before
        {
          if dirty[i] {
            assert AnyDirty(dirty);
            if ShowPopup(prefs) {
              var timeout := PopupTimeout(prefs);
              popup.ShowAutoSavePopup(timeout as real, sinceStartup);
              events := events + [PopupShown(timeout)];
            } else {
              SaveScenes();
            }
            break;
          }
          i := i + 1;
        }
        assert State() == if AnyDirty(dirty) then Act(before, sinceStartup) else before;
        prefs := SetTime(prefs, LAST_SAVE_KEY, now);
      }
    }

    method EnableInBackground(b: bool)
      modifies this
      ensures State() == EnableInBackgroundStep(old(State()), b, isEditor)
    {
      if isEditor {
        runInBackground := b || DefaultRunInBackground(prefs);
        prefs := SetBool(prefs, IN_BACKGROUND_KEY, b);
      }
    }

    method EnableAutoSave() returns (info: string)
      modifies this
      ensures (State(), info) == EnableStep(old(State()), isEditor)
    {
      updateHandlers := Unsubscribe(updateHandlers);
      updateHandlers := updateHandlers + 1;
      EnableInBackground(EnabledInBackground(prefs));
      if AutoSaveAfterPlay(prefs) {
        playHandlers := Unsubscribe(playHandlers);
        playHandlers := playHandlers + 1;
      }
      prefs := SetBool(prefs, ENABLED_KEY, true);
      assert State() == EnableWrites(old(State()), isEditor);
      info := GetInfo();
    }

    method OnPlayModeStateChanged(state: PlayModeStateChange)
      modifies this
      ensures State() == PlayModeStep(old(State()), state)
    {
      if state == ExitingEditMode {
        SaveScenes();
      }
    }

    method DisableAutoSave() returns (info: string)
      modifies this
      ensures (State(), info) == DisableStep(old(State()))
    {
      if AutoSaveEnabled(prefs) {
        updateHandlers := Unsubscribe(updateHandlers);
        playHandlers := Unsubscribe(playHandlers);
        prefs := SetBool(prefs, ENABLED_KEY, false);
      }
      info := GetInfo();
    }

    method SetInterval(save: int) returns (info: string)
      modifies this
      ensures (State(), info) == SetIntervalStep(old(State()), save)
    {
      prefs := SetInt(prefs, SAVE_MINUTES_KEY, save);
      info := GetInfo();
    }

    /** The PopupTimeout setter. */
    method SetPopupTimeout(timeout: int)
      modifies this
      ensures State() == SetPopupTimeoutStep(old(State()), timeout)
    {
      prefs := DesidusSettings.SetPopupTimeout(prefs, timeout);
    }

    /** The AutoSaveAfterPlay setter, corrected to keep the play-mode handler in line with the setting. */
    method SetAutoSaveAfterPlay(b: bool)
      modifies this
      ensures State() == SetSaveAfterPlay(old(State()), b)
    {
      if AutoSaveEnabled(prefs) {
        if b {
          playHandlers := Unsubscribe(playHandlers);
          playHandlers := playHandlers + 1;
        } else {
          playHandlers := Unsubscribe(playHandlers);
        }
      }
      prefs := SetBool(prefs, ON_PLAY_KEY, b);
    }
  }
}
