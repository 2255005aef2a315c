/**
 * The AutoSave popup of the Desidus AutoSave (AutoSavePopup): a small
 * window that counts down from the popup timeout and then saves the scenes,
 * unless the user presses "Save now" (save at once) or "Skip" (no save).
 *
 * The window's fields are modelled as they are in the source: `hasInput`,
 * the countdown `time` (a double, here a real), `timeOut`, `startTime` and
 * the callback, of which only whether it is set matters (`armed`; the
 * AutoSave passes SaveScenes).  Three fields stand for engine state:
 * `open` for the window being shown, `subscribed` for PopupUpdate being
 * registered on EditorApplication.update, and `saves` counts the calls of
 * the callback.  Closing a window destroys it, and OnDestroy unregisters
 * PopupUpdate.  GetWindow returns the open window if there is one and
 * otherwise creates a new one with the field initialisers.
 *
 * The step functions below are the specification of each operation; the
 * class performs them field by field.  Run feeds a window a sequence of
 * editor frames and button presses the way the editor delivers them.
 */
module DesidusPopup {

  datatype PopupState = PopupState(
    open: bool, hasInput: bool, time: real, timeOut: real,
    armed: bool, startTime: real, subscribed: bool, saves: nat)

  /** The initial value of `time` in a new window. */
  const INITIAL_TIME: real := 10.0

  /** No window has been shown yet. */
  const NO_WINDOW := PopupState(false, false, INITIAL_TIME, 0.0, false, 0.0, false, 0)

  /** EditorWindow.GetWindow: the open window, or a new one, shown, with fresh fields. */
  function WindowStep(s: PopupState): (r: PopupState)
    ensures r.open && r.saves == s.saves
    ensures s.open ==> r == s
    ensures !s.open ==> r.time == INITIAL_TIME && !r.hasInput && !r.armed && !r.subscribed
  {
    if s.open then s else PopupState(true, false, INITIAL_TIME, 0.0, false, 0.0, false, s.saves)
  }

  /** Setup: store the callback and the timeout, clear the input, start the clock, (re)register PopupUpdate. */
  function SetupStep(s: PopupState, timeOut: real, now: real): (r: PopupState)
    ensures r.armed && !r.hasInput && r.subscribed && r.timeOut == timeOut && r.startTime == now
    ensures r.open == s.open && r.time == s.time && r.saves == s.saves
  {
    s.(armed := true, timeOut := timeOut, hasInput := false, startTime := now, subscribed := true)
  }

  /** ShowAutoSavePopup: GetWindow, then Setup. */
  function ShowStep(s: PopupState, timeOut: real, now: real): PopupState {
    SetupStep(WindowStep(s), timeOut, now)
  }

  /** Close: the window is destroyed and OnDestroy unregisters PopupUpdate. */
  function CloseStep(s: PopupState): (r: PopupState)
    ensures !r.open && !r.subscribed && r.saves == s.saves
  {
    s.(open := false, subscribed := false)
  }

  /**
   * PopupUpdate: while time is positive and there is no input, time is the
   * timeout minus the seconds since Setup; otherwise, with no input and a
   * callback, the callback is called and the window closes.
   */
  function UpdateStep(s: PopupState, now: real): (r: PopupState)
    ensures s.hasInput ==> r == s
    ensures s.time > 0.0 && !s.hasInput ==> r == s.(time := s.timeOut - (now - s.startTime))
    ensures s.time <= 0.0 && !s.hasInput && s.armed ==> r == CloseStep(s.(saves := s.saves + 1))
    ensures r.saves == s.saves || (r.saves == s.saves + 1 && !r.open)
  {
    if s.time > 0.0 && !s.hasInput then s.(time := s.timeOut - (now - s.startTime))
    else if !s.hasInput && s.armed then CloseStep(s.(saves := s.saves + 1))
    else s
  }

  /**
   * "Save now": input is recorded, the callback is called once and the
   * window closes.  Without a callback the call throws before Close.
   */
  function SaveNowStep(s: PopupState): (r: PopupState)
    ensures r.hasInput
    ensures s.armed ==> r.saves == s.saves + 1 && !r.open && !r.subscribed
    ensures !s.armed ==> r.saves == s.saves
  {
    if s.armed then CloseStep(s.(hasInput := true, saves := s.saves + 1))
    else s.(hasInput := true)
  }

  /** "Skip": input is recorded and the window closes; the callback is not called. */
  function SkipStep(s: PopupState): (r: PopupState)
    ensures r.hasInput && !r.open && !r.subscribed && r.saves == s.saves
  {
    CloseStep(s.(hasInput := true))
  }

  /**
   * What reaches the window: an editor frame at a time since startup, a
   * button press, or the user closing the window from its title bar.
   */
  datatype Input = Frame(now: real) | SaveNowPressed | SkipPressed | WindowClosed

  /** Frames reach PopupUpdate only while it is registered; buttons exist only in an open window. */
  function Deliver(s: PopupState, e: Input): PopupState {
    match e
    case Frame(now) => if s.subscribed then UpdateStep(s, now) else s
    case SaveNowPressed => if s.open then SaveNowStep(s) else s
    case SkipPressed => if s.open then SkipStep(s) else s
    case WindowClosed => if s.open then CloseStep(s) else s
  }

  function Run(s: PopupState, es: seq<Input>): PopupState
    decreases |es|
  {
    if es == [] then s else Run(Deliver(s, es[0]), es[1..])
  }

  /** Only an open window is registered, and an open window has its callback. */
  predicate WellFormed(s: PopupState) {
    (s.subscribed ==> s.open) && (s.open ==> s.armed)
  }

  lemma ShowIsWellFormed(s: PopupState, timeOut: real, now: real)
    ensures WellFormed(ShowStep(s, timeOut, now)) && ShowStep(s, timeOut, now).open
  {
  }

  /** One input keeps a window well formed; a window that stays open has not saved. */
  lemma DeliverStep(s: PopupState, e: Input)
    requires WellFormed(s)
    ensures WellFormed(Deliver(s, e))
    ensures !s.open ==> Deliver(s, e) == s
    ensures Deliver(s, e).open ==> Deliver(s, e).saves == s.saves
    ensures Deliver(s, e).saves <= s.saves + 1
  {
  }

  /** A closed window ignores everything. */
  lemma {:induction false} ClosedIgnoresInputs(s: PopupState, es: seq<Input>)
    requires WellFormed(s) && !s.open
    ensures Run(s, es) == s
    decreases |es|
  {
    if es != [] {
      DeliverStep(s, es[0]);
      ClosedIgnoresInputs(Deliver(s, es[0]), es[1..]);
    }
  }

  /** Whatever happens, an open window calls its callback at most once. */
  lemma {:induction false} AtMostOneSave(s: PopupState, es: seq<Input>)
    requires WellFormed(s)
    ensures Run(s, es).saves <= s.saves + (if s.open then 1 else 0)
    ensures WellFormed(Run(s, es))
    decreases |es|
  {
    if es != [] {
      var s' := Deliver(s, es[0]);
      DeliverStep(s, es[0]);
      AtMostOneSave(s', es[1..]);
      if !s'.open {
        ClosedIgnoresInputs(s', es[1..]);
      }
    }
  }

  /** Each popup shown saves the scenes at most once. */
  lemma ShowSavesAtMostOnce(s: PopupState, timeOut: real, now: real, es: seq<Input>)
    ensures Run(ShowStep(s, timeOut, now), es).saves <= s.saves + 1
  {
    ShowIsWellFormed(s, timeOut, now);
    AtMostOneSave(ShowStep(s, timeOut, now), es);
  }

  /** A window counting down from `timeOut` seconds started at `start`, with no input yet. */
  predicate CountingDown(c: PopupState, timeOut: real, start: real) {
    c.open && c.subscribed && c.armed && !c.hasInput && c.time > 0.0
      && c.timeOut == timeOut && c.startTime == start
  }

  /** A window newly shown starts counting down. */
  lemma NewPopupCountsDown(s: PopupState, timeOut: real, now: real)
    requires !s.open
    ensures CountingDown(ShowStep(s, timeOut, now), timeOut, now)
    ensures ShowStep(s, timeOut, now).saves == s.saves
  {
  }

  /** Frames before the deadline only update the countdown: nothing is saved and the window stays. */
  lemma {:induction false} NoSaveBeforeDeadline(c: PopupState, timeOut: real, start: real, es: seq<Input>)
    requires CountingDown(c, timeOut, start)
    requires forall i :: 0 <= i < |es| ==> es[i].Frame? && es[i].now < start + timeOut
    ensures CountingDown(Run(c, es), timeOut, start) && Run(c, es).saves == c.saves
    decreases |es|
  {
    if es != [] {
      var c' := Deliver(c, es[0]);
      assert c'.time == timeOut - (es[0].now - start);
      assert forall i :: 0 <= i < |es[1..]| ==> es[1..][i] == es[i + 1];
      NoSaveBeforeDeadline(c', timeOut, start, es[1..]);
    }
  }

  /**
   * A frame at or after the deadline ends the countdown, and the next
   * frame calls the callback once and closes the window.
   */
  lemma FiresAfterDeadline(c: PopupState, timeOut: real, start: real, t1: real, t2: real)
    requires CountingDown(c, timeOut, start) && t1 >= start + timeOut
    ensures Run(c, [Frame(t1)]).open && Run(c, [Frame(t1)]).saves == c.saves
    ensures Run(c, [Frame(t1), Frame(t2)]).saves == c.saves + 1
    ensures !Run(c, [Frame(t1), Frame(t2)]).open && !Run(c, [Frame(t1), Frame(t2)]).subscribed
  {
    var c1 := Deliver(c, Frame(t1));
    assert c1.time <= 0.0;
    var c2 := Deliver(c1, Frame(t2));
    assert [Frame(t1), Frame(t2)][1..] == [Frame(t2)];
    assert Run(c1, [Frame(t2)]) == c2 by { assert [Frame(t2)][1..] == []; }
  }

  /** "Save now" during the countdown saves exactly once, whatever follows. */
  lemma SaveNowSavesOnce(c: PopupState, timeOut: real, start: real, es: seq<Input>)
    requires CountingDown(c, timeOut, start)
    ensures Run(c, [SaveNowPressed] + es).saves == c.saves + 1
  {
    var c' := Deliver(c, SaveNowPressed);
    assert ([SaveNowPressed] + es)[1..] == es;
    ClosedIgnoresInputs(c', es);
  }

  /** Closing the window during the countdown cancels the save, whatever follows. */
  lemma ClosingCancels(c: PopupState, timeOut: real, start: real, es: seq<Input>)
    requires CountingDown(c, timeOut, start)
    ensures Run(c, [WindowClosed] + es).saves == c.saves
    ensures !Run(c, [WindowClosed] + es).open && !Run(c, [WindowClosed] + es).hasInput
  {
    var c' := Deliver(c, WindowClosed);
    assert ([WindowClosed] + es)[1..] == es;
    ClosedIgnoresInputs(c', es);
  }

  /** "Skip" during the countdown cancels the save, whatever follows. */
  lemma SkipCancels(c: PopupState, timeOut: real, start: real, es: seq<Input>)
    requires CountingDown(c, timeOut, start)
    ensures Run(c, [SkipPressed] + es).saves == c.saves
  {
    var c' := Deliver(c, SkipPressed);
    assert ([SkipPressed] + es)[1..] == es;
    ClosedIgnoresInputs(c', es);
  }

  /** The popup window. */
  class AutoSavePopup {
    var open: bool
    var hasInput: bool
    var time: real
    var timeOut: real
    var armed: bool
    var startTime: real
    var subscribed: bool
    var saves: nat

    function State(): PopupState
      reads this
    {
      PopupState(open, hasInput, time, timeOut, armed, startTime, subscribed, saves)
    }

    constructor()
      ensures State() == NO_WINDOW
    {
      open, hasInput, time, timeOut := false, false, INITIAL_TIME, 0.0;
      armed, startTime, subscribed, saves := false, 0.0, false, 0;
    }

    /** EditorWindow.GetWindow: a closed window is created anew with its field initialisers. */
    method GetWindow()
      modifies this
      ensures State() == WindowStep(old(State()))
    {
      if !open {
        hasInput, time, timeOut, armed, startTime, subscribed := false, INITIAL_TIME, 0.0, false, 0.0, false;
        open := true;
      }
    }

    method Setup(timeOut: real, now: real)
      modifies this
      ensures State() == SetupStep(old(State()), timeOut, now)
    {
      armed := true;
      this.timeOut := timeOut;
      hasInput := false;
      startTime := now;
      subscribed := true;  // -= then +=: PopupUpdate is registered once
    }

    /** ShowAutoSavePopup(SaveScenes, timeOut) at `now` seconds since startup. */
    method ShowAutoSavePopup(timeOut: real, now: real)
      modifies this
      ensures State() == ShowStep(old(State()), timeOut, now)
      ensures WellFormed(State())
    {
      GetWindow();
      Setup(timeOut, now);
    }

    method Close()
      modifies this
      ensures State() == CloseStep(old(State()))
    {
      open := false;
      OnDestroy();
    }

    method OnDestroy()
      modifies this
      ensures State() == old(State()).(subscribed := false)
    {
      subscribed := false;
    }

    /** The callback: SaveScenes. */
    method Callback()
      requires armed
      modifies this
      ensures State() == old(State()).(saves := old(saves) + 1)
    {
      saves := saves + 1;
    }

    method PopupUpdate(now: real)
      modifies this
      ensures State() == UpdateStep(old(State()), now)
    {
      if time > 0.0 && !hasInput {
        time := timeOut - (now - startTime);
      } else {
        if !hasInput && armed {
          Callback();
          Close();
        }
      }
    }

    /** The "Save now" button. */
    method SaveNowClicked()
      modifies this
      ensures State() == SaveNowStep(old(State()))
    {
      hasInput := true;
      if armed {
        Callback();
        Close();
      }
    }

    /** The "Skip" button. */
    method SkipClicked()
      modifies this
      ensures State() == SkipStep(old(State()))
    {
      hasInput := true;
      Close();
    }
  }
}
