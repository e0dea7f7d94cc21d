/**
 * The front panel of src/UI.cpp: a rotary encoder with a push button walks a
 * six-screen menu that configures one port, and a buzzer plays timed beeps.
 * The interrupt handlers only move `encoderPos` and set `buttonPressed`; the
 * main loop's `update` acts on them. Drawing on the OLED is not modelled; the
 * buzzer output is the frequency last passed to `tone` (0 after `noTone`).
 */
module UI {
  import opened Arduino
  import opened Config
  import opened BatteryTypes

  /** MenuState. */
  datatype Menu = Main | PortSelect | ModeSelect | BatterySelect | CutoffAdjust | Confirm

  /** BuzzerPattern. */
  datatype BuzzerPattern = NoBeep | MenuBeep | SelectBeep | CompleteBeep | ErrorBeep

  /** A call of `notifyComplete` or `notifyError` and the port it named. */
  datatype Notice = Completed(port: int) | Faulted(port: int)

  /** The beep notifyComplete and notifyError play. */
  function NoticeBeep(n: Notice): (b: BuzzerPattern)
    ensures b == CompleteBeep <==> n.Completed?
    ensures b == ErrorBeep <==> n.Faulted?
  {
    match n
    case Completed(_) => CompleteBeep
    case Faulted(_) => ErrorBeep
  }

  /**
   * The panel outputs a notification writes: the beep, its start, whether it
   * sounds, the tone and the redraw request.
   */
  datatype Signal = Signal(beep: BuzzerPattern, start: Millis, sounding: bool, tone: nat, redraw: bool)

  /**
   * The panel outputs after receiving the notices `heard`: unchanged when
   * there are none, otherwise the last one's beep, started now, with a
   * redraw requested.
   */
  ghost predicate Announced(before: Signal, after: Signal, heard: seq<Notice>, now: Millis) {
    if heard == [] then after == before
    else after == Signal(NoticeBeep(heard[|heard| - 1]), now, true, Frequency(NoticeBeep(heard[|heard| - 1])), true)
  }

  /** Two runs of notices in a row leave the outputs of the later run's last notice, if any. */
  lemma AnnouncedChain(a: Signal, b: Signal, c: Signal, f1: seq<Notice>, f2: seq<Notice>, now: Millis)
    requires Announced(a, b, f1, now) && Announced(b, c, f2, now)
    ensures Announced(a, c, f1 + f2, now)
  {
    if f2 == [] {
      assert f1 + f2 == f1;
    }
  }

  /** The screen a button press leads to from each screen. */
  function NextMenu(m: Menu): (n: Menu)
    ensures n != m
  {
    match m
    case Main => PortSelect
    case PortSelect => ModeSelect
    case ModeSelect => BatterySelect
    case BatterySelect => CutoffAdjust
    case CutoffAdjust => Confirm
    case Confirm => Main
  }

  /** Six presses walk every screen once and come back. */
  lemma MenuCycle(m: Menu)
    ensures NextMenu(NextMenu(NextMenu(NextMenu(NextMenu(NextMenu(m)))))) == m
    ensures m == Main ==>
              NextMenu(m) == PortSelect && NextMenu(NextMenu(m)) == ModeSelect &&
              NextMenu(NextMenu(NextMenu(m))) == BatterySelect &&
              NextMenu(NextMenu(NextMenu(NextMenu(m)))) == CutoffAdjust &&
              NextMenu(NextMenu(NextMenu(NextMenu(NextMenu(m))))) == Confirm
  {
  }

  /** The largest cutoff index: 35 tenths of a volt. */
  const CUTOFF_INDEX_MAX: nat := 35

  /**
   * The `maxMenuIndex` a button press sets on entering each screen: a port
   * number, one of three modes, one of three chemistries, a cutoff in tenths
   * of a volt, or Yes/No.
   */
  function MaxIndexFor(m: Menu): nat {
    match m
    case Main => NUM_PORTS - 1
    case PortSelect => NUM_PORTS - 1
    case ModeSelect => 2
    case BatterySelect => 2
    case CutoffAdjust => CUTOFF_INDEX_MAX
    case Confirm => 1
  }

  /**
   * The wrap-around of handleEncoderChange: an index beyond either end of
   * 0..max jumps to the other end, and the result is always in range.
   */
  function Wrapped(index: int, max: int): (r: int)
    requires 0 <= max
    ensures 0 <= r <= max
    ensures 0 <= index <= max ==> r == index
    ensures index < 0 ==> r == max
    ensures index > max ==> r == 0
  {
    if index < 0 then max else if index > max then 0 else index
  }

  /** `menuIndex / 10.0`: the cutoff voltage a cutoff index stands for. */
  function CutoffOfIndex(i: int): (v: real)
    ensures 0 <= i <= CUTOFF_INDEX_MAX ==> 0.0 <= v <= CUTOFF_SETTING_MAX
    ensures 0 <= i ==> v * 10.0 == i as real
  {
    i as real / 10.0
  }

  /** `(int)(customCutoff * 10)`: the cutoff index the adjust screen starts from. */
  function IndexOfCutoff(v: real): (i: int)
    ensures 0.0 <= v <= CUTOFF_SETTING_MAX ==> 0 <= i <= CUTOFF_INDEX_MAX
  {
    TruncToInt(v * 10.0)
  }

  /**
   * Entering the adjust screen and confirming it without turning the knob
   * stores the cutoff the screen started from, for every cutoff the panel
   * can produce.
   */
  lemma CutoffIndexRoundTrip(i: int)
    requires 0 <= i <= CUTOFF_INDEX_MAX
    ensures IndexOfCutoff(CutoffOfIndex(i)) == i
  {
    assert CutoffOfIndex(i) * 10.0 == i as real;
  }

  /** The frequency (Hz) playBeep sounds for a pattern. */
  function Frequency(b: BuzzerPattern): (hz: nat)
    ensures BUZZER_FREQ_ERROR <= hz <= BUZZER_FREQ_COMPLETE
    ensures b == CompleteBeep <==> hz == BUZZER_FREQ_COMPLETE
    ensures b == ErrorBeep <==> hz == BUZZER_FREQ_ERROR
  {
    match b
    case MenuBeep => BUZZER_FREQ_MENU
    case SelectBeep => BUZZER_FREQ_SELECT
    case CompleteBeep => BUZZER_FREQ_COMPLETE
    case ErrorBeep => BUZZER_FREQ_ERROR
    case NoBeep => BUZZER_FREQ_MENU
  }

  /** How long (ms) updateBuzzer lets a pattern sound. */
  function Duration(b: BuzzerPattern): (ms: nat)
    ensures BUZZER_DURATION_SHORT <= ms <= BUZZER_DURATION_COMPLETE
    ensures b == CompleteBeep <==> ms == BUZZER_DURATION_COMPLETE
  {
    match b
    case MenuBeep => BUZZER_DURATION_SHORT
    case SelectBeep => BUZZER_DURATION_LONG
    case CompleteBeep => BUZZER_DURATION_COMPLETE
    case ErrorBeep => BUZZER_DURATION_LONG
    case NoBeep => BUZZER_DURATION_SHORT
  }

  /** A pending press is acted on only after more than the debounce time. */
  predicate PressAccepted(pressed: bool, lastPress: Millis, now: Millis) {
    pressed && Elapsed(now, lastPress) > ENCODER_DEBOUNCE
  }

  /** Lines 136-137 of update: outside MAIN with more than MENU_TIMEOUT ms since the last activity. */
  predicate TimedOut(menu: Menu, lastActivity: Millis, now: Millis) {
    menu != Main && Elapsed(now, lastActivity) > MENU_TIMEOUT
  }

  /**
   * What the menu logic of update reads and writes: the screen, its index and
   * range, the selected port and the shared port table.
   */
  datatype PanelState = PanelState(menu: Menu, index: int, maxIndex: int, selected: int,
                                   table: seq<PortData>)

  /** The menu invariant of PhysicalUI, on a panel state. */
  predicate PanelValid(s: PanelState) {
    |s.table| == NUM_PORTS &&
    0 <= s.index <= s.maxIndex &&
    (s.maxIndex == MaxIndexFor(s.menu) || (s.menu == Main && s.maxIndex == 0)) &&
    0 <= s.selected < NUM_PORTS
  }

  /** Every record of a port table keeps the record invariant. */
  predicate TableValid(t: seq<PortData>) {
    forall k :: 0 <= k < |t| ==> t[k].Valid()
  }

  /**
   * Lines 113-118 of update: encoder travel moves only the index, wrapped
   * into the screen's range; no travel changes nothing.
   */
  function Turn(s: PanelState, delta: int): (r: PanelState)
    requires PanelValid(s)
    ensures PanelValid(r)
    ensures r == s.(index := r.index)
  {
    if delta != 0 then s.(index := Wrapped(s.index + delta, s.maxIndex)) else s
  }

  /**
   * handleButtonPress on a panel state: one screen on, with that screen's
   * range, writing at most the selected port's record.
   */
  function Press(s: PanelState, now: Millis): (r: PanelState)
    requires PanelValid(s) && TableValid(s.table)
    ensures PanelValid(r)
    ensures r.menu == NextMenu(s.menu) && r.maxIndex == MaxIndexFor(r.menu)
    ensures r.selected == (if s.menu == PortSelect then s.index else s.selected)
  {
    var t := s.table;
    var i := s.selected;
    match s.menu
    case Main =>
      s.(menu := PortSelect, index := 0, maxIndex := NUM_PORTS - 1)
    case PortSelect =>
      s.(menu := ModeSelect, selected := s.index, index := t[s.index].mode.Index(), maxIndex := 2)
    case ModeSelect =>
      var p := t[i].(mode := ModeOf(s.index));
      s.(menu := BatterySelect, table := t[i := p], index := p.batteryType.Index(), maxIndex := 2)
    case BatterySelect =>
      var p := t[i].(batteryType := BatteryTypeOf(s.index));
      s.(menu := CutoffAdjust, table := t[i := p], index := IndexOfCutoff(p.customCutoff),
         maxIndex := CUTOFF_INDEX_MAX)
    case CutoffAdjust =>
      var p := t[i].(customCutoff := CutoffOfIndex(s.index), useCustomCutoff := true);
      s.(menu := Confirm, table := t[i := p], index := 0, maxIndex := 1)
    case Confirm =>
      s.(menu := Main, index := 0, maxIndex := NUM_PORTS - 1,
         table := if s.index == 0 then t[i := t[i].(active := true).Reset(now)] else t)
  }

  /** The beep a press plays: completion on "Start", the select beep otherwise. */
  function PressBeep(s: PanelState): (b: BuzzerPattern)
    ensures b == CompleteBeep <==> s.menu == Confirm && s.index == 0
    ensures b != CompleteBeep ==> b == SelectBeep
  {
    if s.menu == Confirm && s.index == 0 then CompleteBeep else SelectBeep
  }

  /**
   * A press writes at most the selected port's record, and keeps every valid
   * record valid.
   */
  lemma PressFrame(s: PanelState, now: Millis)
    requires PanelValid(s) && TableValid(s.table)
    ensures |Press(s, now).table| == |s.table|
    ensures forall k :: 0 <= k < |s.table| && k != Press(s, now).selected ==>
              Press(s, now).table[k] == s.table[k]
    ensures TableValid(Press(s, now).table)
  {
  }

  /**
   * The per-screen writes of handleButtonPress: port selection and MAIN write
   * no record; the mode, chemistry and cutoff screens write only their field;
   * "Start" activates and resets the port, any other answer writes nothing.
   */
  lemma PressPerScreen(s: PanelState, now: Millis)
    requires PanelValid(s) && TableValid(s.table)
    ensures var r := Press(s, now); var i := r.selected;
      (s.menu == Main ==> r.index == 0 && r.table == s.table) &&
      (s.menu == PortSelect ==> r.index == s.table[i].mode.Index() && r.table == s.table) &&
      (s.menu == ModeSelect ==>
         r.table == s.table[i := s.table[i].(mode := ModeOf(s.index))] &&
         r.index == r.table[i].batteryType.Index()) &&
      (s.menu == BatterySelect ==>
         r.table == s.table[i := s.table[i].(batteryType := BatteryTypeOf(s.index))] &&
         r.index == IndexOfCutoff(r.table[i].customCutoff)) &&
      (s.menu == CutoffAdjust ==>
         r.table == s.table[i := s.table[i].(customCutoff := CutoffOfIndex(s.index), useCustomCutoff := true)] &&
         r.index == 0) &&
      (s.menu == Confirm && s.index == 0 ==>
         r.table == s.table[i := s.table[i].(active := true).Reset(now)] && r.index == 0) &&
      (s.menu == Confirm && s.index != 0 ==> r.table == s.table && r.index == 0)
  {
  }

  class PhysicalUI {
    /** The shared port table. */
    const ports: array<PortData>

    // Menu state
    var currentMenu: Menu
    var selectedPort: int
    var menuIndex: int
    var maxMenuIndex: int
    var lastMenuActivity: Millis

    // Encoder state
    var encoderPos: int
    var lastEncoderPos: int
    var buttonPressed: bool
    var lastButtonPress: Millis

    // Display state
    var lastRefresh: Millis
    var displayNeedsUpdate: bool

    // Buzzer state
    var currentBeep: BuzzerPattern
    var beepStartTime: Millis
    var beepActive: bool
    var toneFrequency: nat

    /** Every notification received, in order. */
    ghost var notifications: seq<Notice>

    /**
     * The menu invariant: the index lies within the screen's range, the
     * range is the one the screen was entered with (the constructor's MAIN
     * has range 0..0), and the selected port exists.
     */
    ghost predicate Valid()
      reads this
    {
      ports.Length == NUM_PORTS &&
      0 <= menuIndex <= maxMenuIndex &&
      (maxMenuIndex == MaxIndexFor(currentMenu) || (currentMenu == Main && maxMenuIndex == 0)) &&
      0 <= selectedPort < NUM_PORTS
    }

    /** The menu fields and the port table, as a panel state. */
    ghost function PanelOf(): PanelState
      reads this`currentMenu, this`menuIndex, this`maxMenuIndex, this`selectedPort, ports
    {
      PanelState(currentMenu, menuIndex, maxMenuIndex, selectedPort, ports[..])
    }

    /** The beep and redraw fields, as a signal. */
    ghost function SignalOf(): Signal
      reads this`currentBeep, this`beepStartTime, this`beepActive, this`toneFrequency, this`displayNeedsUpdate
    {
      Signal(currentBeep, beepStartTime, beepActive, toneFrequency, displayNeedsUpdate)
    }

    constructor (data: array<PortData>)
      requires data.Length == NUM_PORTS
      ensures ports == data && Valid()
      ensures currentMenu == Main && selectedPort == 0 && menuIndex == 0 && maxMenuIndex == 0
      ensures lastMenuActivity == 0
      ensures encoderPos == 0 && lastEncoderPos == 0 && !buttonPressed && lastButtonPress == 0
      ensures lastRefresh == 0 && displayNeedsUpdate
      ensures currentBeep == NoBeep && beepStartTime == 0 && !beepActive && toneFrequency == 0
      ensures notifications == []
    {
      ports := data;
      currentMenu := Main;
      selectedPort := 0;
      menuIndex := 0;
      maxMenuIndex := 0;
      lastMenuActivity := 0;
      encoderPos := 0;
      lastEncoderPos := 0;
      buttonPressed := false;
      lastButtonPress := 0;
      lastRefresh := 0;
      displayNeedsUpdate := true;
      currentBeep := NoBeep;
      beepStartTime := 0;
      beepActive := false;
      toneFrequency := 0;
      notifications := [];
    }

    /** handleEncoderA: one detent clockwise when the two pins agree, else anticlockwise. */
    method EncoderEdge(clk: bool, dt: bool)
      modifies this`encoderPos
      ensures encoderPos == old(encoderPos) + (if clk == dt then 1 else -1)
    {
      if clk == dt {
        encoderPos := encoderPos + 1;
      } else {
        encoderPos := encoderPos - 1;
      }
    }

    /** handleButton: the interrupt only raises the flag. */
    method ButtonEdge()
      modifies this`buttonPressed
      ensures buttonPressed
    {
      buttonPressed := true;
    }

    /** playBeep: start the pattern now and sound its frequency. */
    method PlayBeep(pattern: BuzzerPattern, now: Millis)
      modifies this`currentBeep, this`beepStartTime, this`beepActive, this`toneFrequency
      ensures currentBeep == pattern && beepStartTime == now && beepActive
      ensures toneFrequency == Frequency(pattern)
    {
      currentBeep := pattern;
      beepStartTime := now;
      beepActive := true;
      var freq := BUZZER_FREQ_MENU;
      match pattern {
        case MenuBeep => freq := BUZZER_FREQ_MENU;
        case SelectBeep => freq := BUZZER_FREQ_SELECT;
        case CompleteBeep => freq := BUZZER_FREQ_COMPLETE;
        case ErrorBeep => freq := BUZZER_FREQ_ERROR;
        case NoBeep =>
      }
      toneFrequency := freq;
    }

    /**
     * updateBuzzer: a sounding beep is silenced, and the pattern cleared, once
     * its pattern's duration has elapsed; otherwise nothing changes.
     */
    method UpdateBuzzer(now: Millis)
      modifies this`currentBeep, this`beepActive, this`toneFrequency
      ensures old(beepActive) && Elapsed(now, beepStartTime) >= Duration(old(currentBeep)) ==>
                !beepActive && currentBeep == NoBeep && toneFrequency == 0
      ensures !(old(beepActive) && Elapsed(now, beepStartTime) >= Duration(old(currentBeep))) ==>
                beepActive == old(beepActive) && currentBeep == old(currentBeep) &&
                toneFrequency == old(toneFrequency)
    {
      if !beepActive {
        return;
      }
      var elapsed := Elapsed(now, beepStartTime);
      var duration := BUZZER_DURATION_SHORT;
      match currentBeep {
        case MenuBeep => duration := BUZZER_DURATION_SHORT;
        case SelectBeep => duration := BUZZER_DURATION_LONG;
        case CompleteBeep => duration := BUZZER_DURATION_COMPLETE;
        case ErrorBeep => duration := BUZZER_DURATION_LONG;
        case NoBeep =>
      }
      if elapsed >= duration {
        toneFrequency := 0;
        beepActive := false;
        currentBeep := NoBeep;
      }
    }

    /** notifyComplete: the completion beep and a redraw. */
    method NotifyComplete(port: int, now: Millis)
      modifies this`currentBeep, this`beepStartTime, this`beepActive, this`toneFrequency,
               this`displayNeedsUpdate, this`notifications
      ensures currentBeep == CompleteBeep && beepStartTime == now && beepActive
      ensures toneFrequency == Frequency(CompleteBeep) && displayNeedsUpdate
      ensures notifications == old(notifications) + [Completed(port)]
      ensures Announced(old(SignalOf()), SignalOf(), [Completed(port)], now)
    {
      PlayBeep(CompleteBeep, now);
      displayNeedsUpdate := true;
      notifications := notifications + [Completed(port)];
    }

    /** notifyError: the error beep and a redraw. */
    method NotifyError(port: int, now: Millis)
      modifies this`currentBeep, this`beepStartTime, this`beepActive, this`toneFrequency,
               this`displayNeedsUpdate, this`notifications
      ensures currentBeep == ErrorBeep && beepStartTime == now && beepActive
      ensures toneFrequency == Frequency(ErrorBeep) && displayNeedsUpdate
      ensures notifications == old(notifications) + [Faulted(port)]
      ensures Announced(old(SignalOf()), SignalOf(), [Faulted(port)], now)
    {
      PlayBeep(ErrorBeep, now);
      displayNeedsUpdate := true;
      notifications := notifications + [Faulted(port)];
    }

    method ForceRedraw()
      modifies this`displayNeedsUpdate
      ensures displayNeedsUpdate
    {
      displayNeedsUpdate := true;
    }

    /** returnToMain. */
    method ReturnToMain()
      modifies this`currentMenu, this`menuIndex, this`maxMenuIndex
      ensures currentMenu == Main && menuIndex == 0 && maxMenuIndex == NUM_PORTS - 1
    {
      currentMenu := Main;
      menuIndex := 0;
      maxMenuIndex := NUM_PORTS - 1;
    }

    /**
     * handleEncoderChange: the index moves by the encoder's travel since the
     * last update, wrapped into the screen's range, with a menu beep.
     */
    method HandleEncoderChange(now: Millis)
      requires Valid()
      modifies this`menuIndex, this`currentBeep, this`beepStartTime, this`beepActive,
               this`toneFrequency
      ensures Valid()
      ensures menuIndex == Wrapped(old(menuIndex) + (encoderPos - lastEncoderPos), maxMenuIndex)
      ensures currentBeep == MenuBeep && beepStartTime == now && beepActive
      ensures toneFrequency == Frequency(MenuBeep)
    {
      var delta := encoderPos - lastEncoderPos;
      menuIndex := menuIndex + delta;
      if menuIndex < 0 {
        menuIndex := maxMenuIndex;
      }
      if menuIndex > maxMenuIndex {
        menuIndex := 0;
      }
      PlayBeep(MenuBeep, now);
    }

    /** The MENU_MAIN case of handleButtonPress: on to port selection. */
    method EnterPortSelect()
      modifies this`currentMenu, this`menuIndex, this`maxMenuIndex
      ensures currentMenu == PortSelect && menuIndex == 0 && maxMenuIndex == NUM_PORTS - 1
    {
      currentMenu := PortSelect;
      menuIndex := 0;
      maxMenuIndex := NUM_PORTS - 1;
    }

    /** The MENU_PORT_SELECT case: the index becomes the selected port. */
    method SelectPort()
      requires Valid() && currentMenu == PortSelect
      modifies this`selectedPort, this`currentMenu, this`menuIndex, this`maxMenuIndex
      ensures Valid()
      ensures selectedPort == old(menuIndex) && currentMenu == ModeSelect && maxMenuIndex == 2
      ensures menuIndex == ports[selectedPort].mode.Index()
    {
      selectedPort := menuIndex;
      currentMenu := ModeSelect;
      menuIndex := ports[selectedPort].mode.Index();
      maxMenuIndex := 2;
    }

    /** The MENU_MODE_SELECT case: the index becomes the selected port's mode. */
    method SelectMode()
      requires Valid() && currentMenu == ModeSelect && AllValid(ports)
      modifies ports, this`currentMenu, this`menuIndex, this`maxMenuIndex
      ensures Valid() && AllValid(ports)
      ensures ports[..] == old(ports[..])[selectedPort := old(ports[selectedPort]).(mode := ModeOf(old(menuIndex)))]
      ensures currentMenu == BatterySelect && maxMenuIndex == 2
      ensures menuIndex == ports[selectedPort].batteryType.Index()
    {
      ports[selectedPort] := ports[selectedPort].(mode := ModeOf(menuIndex));
      currentMenu := BatterySelect;
      menuIndex := ports[selectedPort].batteryType.Index();
      maxMenuIndex := 2;
    }

    /** The MENU_BATTERY_SELECT case: the index becomes the selected port's chemistry. */
    method SelectBattery()
      requires Valid() && currentMenu == BatterySelect && AllValid(ports)
      modifies ports, this`currentMenu, this`menuIndex, this`maxMenuIndex
      ensures Valid() && AllValid(ports)
      ensures ports[..] == old(ports[..])[selectedPort :=
                old(ports[selectedPort]).(batteryType := BatteryTypeOf(old(menuIndex)))]
      ensures currentMenu == CutoffAdjust && maxMenuIndex == CUTOFF_INDEX_MAX
      ensures menuIndex == IndexOfCutoff(ports[selectedPort].customCutoff)
    {
      ports[selectedPort] := ports[selectedPort].(batteryType := BatteryTypeOf(menuIndex));
      currentMenu := CutoffAdjust;
      menuIndex := IndexOfCutoff(ports[selectedPort].customCutoff);
      maxMenuIndex := CUTOFF_INDEX_MAX;
    }

    /** The MENU_CUTOFF_ADJUST case: the index, in tenths of a volt, becomes the custom cutoff. */
    method SelectCutoff()
      requires Valid() && currentMenu == CutoffAdjust && AllValid(ports)
      modifies ports, this`currentMenu, this`menuIndex, this`maxMenuIndex
      ensures Valid() && AllValid(ports)
      ensures ports[..] == old(ports[..])[selectedPort :=
                old(ports[selectedPort]).(customCutoff := CutoffOfIndex(old(menuIndex)), useCustomCutoff := true)]
      ensures currentMenu == Confirm && menuIndex == 0 && maxMenuIndex == 1
    {
      ports[selectedPort] := ports[selectedPort].(customCutoff := CutoffOfIndex(menuIndex));
      ports[selectedPort] := ports[selectedPort].(useCustomCutoff := true);
      currentMenu := Confirm;
      menuIndex := 0;
      maxMenuIndex := 1;
    }

    /**
     * The MENU_CONFIRM case: "Yes" (index 0) activates and resets the selected
     * port and plays the completion beep; either answer returns to MAIN.
     */
    method ConfirmChoice(now: Millis)
      requires Valid() && currentMenu == Confirm && AllValid(ports)
      modifies ports, this`currentMenu, this`menuIndex, this`maxMenuIndex,
               this`currentBeep, this`beepStartTime, this`beepActive, this`toneFrequency
      ensures Valid() && AllValid(ports)
      ensures currentMenu == Main && menuIndex == 0 && maxMenuIndex == NUM_PORTS - 1
      ensures old(menuIndex) == 0 ==>
                ports[..] == old(ports[..])[selectedPort := old(ports[selectedPort]).(active := true).Reset(now)] &&
                currentBeep == CompleteBeep && beepActive && beepStartTime == now &&
                toneFrequency == Frequency(CompleteBeep)
      ensures old(menuIndex) != 0 ==>
                ports[..] == old(ports[..]) && currentBeep == old(currentBeep) &&
                beepActive == old(beepActive) && beepStartTime == old(beepStartTime) &&
                toneFrequency == old(toneFrequency)
    {
      if menuIndex == 0 {
        ports[selectedPort] := ports[selectedPort].(active := true);
        ports[selectedPort] := ports[selectedPort].Reset(now);
        ports[selectedPort] := ports[selectedPort].(startTime := now);
        PlayBeep(CompleteBeep, now);
      }
      ReturnToMain();
    }

    /**
     * handleButtonPress: one step along the menu, writing at most the
     * selected port's record, and only the field the screen configures.
     */
    method HandleButtonPress(now: Millis)
      requires Valid() && AllValid(ports)
      modifies this`currentMenu, this`selectedPort, this`menuIndex, this`maxMenuIndex,
               this`currentBeep, this`beepStartTime, this`beepActive, this`toneFrequency, ports
      ensures Valid() && AllValid(ports)
      ensures PanelOf() == Press(old(PanelOf()), now)
      ensures currentBeep == PressBeep(old(PanelOf())) && beepActive && beepStartTime == now &&
              toneFrequency == Frequency(currentBeep)
    {
      PlayBeep(SelectBeep, now);
      match currentMenu {
        case Main => EnterPortSelect();
        case PortSelect => SelectPort();
        case ModeSelect => SelectMode();
        case BatterySelect => SelectBattery();
        case CutoffAdjust => SelectCutoff();
        case Confirm => ConfirmChoice(now);
      }
    }

    /** Lines 113-118 of update: act on encoder travel since the last update. */
    method EncoderStep(now: Millis)
      requires Valid()
      modifies this`menuIndex, this`currentBeep, this`beepStartTime, this`beepActive,
               this`toneFrequency, this`lastEncoderPos, this`lastMenuActivity, this`displayNeedsUpdate
      ensures Valid() && lastEncoderPos == encoderPos
      ensures old(encoderPos) != old(lastEncoderPos) ==>
                menuIndex == Wrapped(old(menuIndex) + (encoderPos - old(lastEncoderPos)), maxMenuIndex) &&
                lastMenuActivity == now && displayNeedsUpdate &&
                currentBeep == MenuBeep && beepActive && beepStartTime == now &&
                toneFrequency == Frequency(MenuBeep)
      ensures old(encoderPos) == old(lastEncoderPos) ==>
                menuIndex == old(menuIndex) && lastMenuActivity == old(lastMenuActivity) &&
                displayNeedsUpdate == old(displayNeedsUpdate) &&
                currentBeep == old(currentBeep) && beepActive == old(beepActive) &&
                beepStartTime == old(beepStartTime) && toneFrequency == old(toneFrequency)
    {
      if encoderPos != lastEncoderPos {
        HandleEncoderChange(now);
        lastEncoderPos := encoderPos;
        lastMenuActivity := now;
        displayNeedsUpdate := true;
      }
    }

    /**
     * Lines 121-133 of update: a pending press is always cleared, and acted on
     * only when more than ENCODER_DEBOUNCE ms have passed since the last
     * accepted one.
     */
    method ButtonStep(now: Millis)
      requires Valid() && AllValid(ports)
      modifies this`currentMenu, this`selectedPort, this`menuIndex, this`maxMenuIndex,
               this`currentBeep, this`beepStartTime, this`beepActive, this`toneFrequency, ports,
               this`buttonPressed, this`lastButtonPress, this`lastMenuActivity, this`displayNeedsUpdate
      ensures Valid() && AllValid(ports) && !buttonPressed
      ensures PressAccepted(old(buttonPressed), old(lastButtonPress), now) ==>
                PanelOf() == Press(old(PanelOf()), now) &&
                currentBeep == PressBeep(old(PanelOf())) && beepActive && beepStartTime == now &&
                toneFrequency == Frequency(currentBeep) &&
                lastButtonPress == now && lastMenuActivity == now && displayNeedsUpdate
      ensures !PressAccepted(old(buttonPressed), old(lastButtonPress), now) ==>
                PanelOf() == old(PanelOf()) &&
                currentBeep == old(currentBeep) && beepActive == old(beepActive) &&
                beepStartTime == old(beepStartTime) && toneFrequency == old(toneFrequency) &&
                lastButtonPress == old(lastButtonPress) &&
                lastMenuActivity == old(lastMenuActivity) && displayNeedsUpdate == old(displayNeedsUpdate)
    {
      if buttonPressed {
        if Elapsed(now, lastButtonPress) > ENCODER_DEBOUNCE {
          buttonPressed := false;
          HandleButtonPress(now);
          lastButtonPress := now;
          lastMenuActivity := now;
          displayNeedsUpdate := true;
        } else {
          buttonPressed := false;
        }
      }
    }

    /** Lines 136-140 of update: back to MAIN after MENU_TIMEOUT ms without activity. */
    method TimeoutStep(now: Millis)
      requires Valid()
      modifies this`currentMenu, this`menuIndex, this`maxMenuIndex, this`displayNeedsUpdate
      ensures Valid()
      ensures TimedOut(old(currentMenu), lastMenuActivity, now) ==>
                currentMenu == Main && menuIndex == 0 && maxMenuIndex == NUM_PORTS - 1 &&
                displayNeedsUpdate
      ensures !TimedOut(old(currentMenu), lastMenuActivity, now) ==>
                currentMenu == old(currentMenu) && menuIndex == old(menuIndex) &&
                maxMenuIndex == old(maxMenuIndex) && displayNeedsUpdate == old(displayNeedsUpdate)
    {
      if TimedOut(currentMenu, lastMenuActivity, now) {
        ReturnToMain();
        displayNeedsUpdate := true;
      }
    }

    /** Lines 143-168 of update: redraw when asked to or when the refresh interval has passed. */
    method RefreshStep(now: Millis)
      modifies this`lastRefresh, this`displayNeedsUpdate
      ensures !displayNeedsUpdate
      ensures lastRefresh ==
                (if old(displayNeedsUpdate) || Elapsed(now, old(lastRefresh)) > UI_REFRESH_INTERVAL
                 then now else old(lastRefresh))
    {
      if displayNeedsUpdate || Elapsed(now, lastRefresh) > UI_REFRESH_INTERVAL {
        lastRefresh := now;
        displayNeedsUpdate := false;
      }
    }

    /** Lines 113-133 of update: encoder travel, then a pending press. */
    method HandleInput(now: Millis)
      requires Valid() && AllValid(ports)
      modifies this`currentMenu, this`selectedPort, this`menuIndex, this`maxMenuIndex,
               this`currentBeep, this`beepStartTime, this`beepActive, this`toneFrequency, ports,
               this`buttonPressed, this`lastButtonPress, this`lastMenuActivity, this`displayNeedsUpdate,
               this`lastEncoderPos
      ensures Valid() && AllValid(ports)
      ensures lastEncoderPos == encoderPos && !buttonPressed
      ensures lastButtonPress == (if PressAccepted(old(buttonPressed), old(lastButtonPress), now)
                                  then now else old(lastButtonPress))
      ensures lastMenuActivity ==
                (if encoderPos != old(lastEncoderPos) ||
                    PressAccepted(old(buttonPressed), old(lastButtonPress), now)
                 then now else old(lastMenuActivity))
      ensures PressAccepted(old(buttonPressed), old(lastButtonPress), now) ==>
                PanelOf() == Press(Turn(old(PanelOf()), encoderPos - old(lastEncoderPos)), now) &&
                currentBeep == PressBeep(Turn(old(PanelOf()), encoderPos - old(lastEncoderPos))) &&
                beepActive && beepStartTime == now && toneFrequency == Frequency(currentBeep) &&
                displayNeedsUpdate
      ensures !PressAccepted(old(buttonPressed), old(lastButtonPress), now) ==>
                PanelOf() == Turn(old(PanelOf()), encoderPos - old(lastEncoderPos))
      ensures !PressAccepted(old(buttonPressed), old(lastButtonPress), now) &&
              encoderPos != old(lastEncoderPos) ==>
                currentBeep == MenuBeep && beepActive && beepStartTime == now &&
                toneFrequency == Frequency(MenuBeep) && displayNeedsUpdate
      ensures !PressAccepted(old(buttonPressed), old(lastButtonPress), now) &&
              encoderPos == old(lastEncoderPos) ==>
                displayNeedsUpdate == old(displayNeedsUpdate) &&
                currentBeep == old(currentBeep) && beepActive == old(beepActive) &&
                beepStartTime == old(beepStartTime) && toneFrequency == old(toneFrequency)
    {
      ghost var turned := Turn(PanelOf(), encoderPos - lastEncoderPos);
      EncoderStep(now);
      assert PanelOf() == turned;
      ButtonStep(now);
    }

    /** Lines 113-140 of update: encoder travel, a pending press, then the menu timeout. */
    method MenuStep(now: Millis)
      requires Valid() && AllValid(ports)
      modifies this`currentMenu, this`selectedPort, this`menuIndex, this`maxMenuIndex,
               this`currentBeep, this`beepStartTime, this`beepActive, this`toneFrequency, ports,
               this`buttonPressed, this`lastButtonPress, this`lastMenuActivity, this`displayNeedsUpdate,
               this`lastEncoderPos
      ensures Valid() && AllValid(ports)
      ensures lastEncoderPos == encoderPos && !buttonPressed
      ensures displayNeedsUpdate ==
                (old(displayNeedsUpdate) || encoderPos != old(lastEncoderPos) ||
                 PressAccepted(old(buttonPressed), old(lastButtonPress), now) ||
                 TimedOut(old(currentMenu), old(lastMenuActivity), now))
      ensures lastButtonPress == (if PressAccepted(old(buttonPressed), old(lastButtonPress), now)
                                  then now else old(lastButtonPress))
      ensures lastMenuActivity ==
                (if encoderPos != old(lastEncoderPos) ||
                    PressAccepted(old(buttonPressed), old(lastButtonPress), now)
                 then now else old(lastMenuActivity))
      ensures PressAccepted(old(buttonPressed), old(lastButtonPress), now) ==>
                PanelOf() == Press(Turn(old(PanelOf()), encoderPos - old(lastEncoderPos)), now) &&
                currentBeep == PressBeep(Turn(old(PanelOf()), encoderPos - old(lastEncoderPos))) &&
                beepActive && beepStartTime == now && toneFrequency == Frequency(currentBeep)
      ensures !PressAccepted(old(buttonPressed), old(lastButtonPress), now) &&
              encoderPos != old(lastEncoderPos) ==>
                PanelOf() == Turn(old(PanelOf()), encoderPos - old(lastEncoderPos)) &&
                currentBeep == MenuBeep && beepActive && beepStartTime == now &&
                toneFrequency == Frequency(MenuBeep)
      ensures !PressAccepted(old(buttonPressed), old(lastButtonPress), now) &&
              encoderPos == old(lastEncoderPos) ==>
                PanelOf() ==
                  (if TimedOut(old(currentMenu), old(lastMenuActivity), now)
                   then old(PanelOf()).(menu := Main, index := 0, maxIndex := NUM_PORTS - 1)
                   else old(PanelOf())) &&
                currentBeep == old(currentBeep) && beepActive == old(beepActive) &&
                beepStartTime == old(beepStartTime) && toneFrequency == old(toneFrequency)
    {
      HandleInput(now);
      TimeoutStep(now);
    }

    /**
     * update: expire the beep; act on encoder travel; act on a pending press
     * if it is past the debounce time and drop it otherwise; return to MAIN
     * after MENU_TIMEOUT without activity; redraw when asked to or when the
     * refresh interval has passed.
     */
    method Update(now: Millis)
      requires Valid() && AllValid(ports)
      modifies this`currentMenu, this`selectedPort, this`menuIndex, this`maxMenuIndex,
               this`currentBeep, this`beepStartTime, this`beepActive, this`toneFrequency, ports,
               this`buttonPressed, this`lastButtonPress, this`lastMenuActivity, this`displayNeedsUpdate,
               this`lastEncoderPos, this`lastRefresh
      ensures Valid() && AllValid(ports)
      ensures lastEncoderPos == encoderPos
      ensures !buttonPressed && !displayNeedsUpdate
      ensures lastButtonPress == (if PressAccepted(old(buttonPressed), old(lastButtonPress), now)
                                  then now else old(lastButtonPress))
      ensures lastMenuActivity ==
                (if encoderPos != old(lastEncoderPos) ||
                    PressAccepted(old(buttonPressed), old(lastButtonPress), now)
                 then now else old(lastMenuActivity))
      ensures lastRefresh ==
                (if old(displayNeedsUpdate) || encoderPos != old(lastEncoderPos) ||
                    PressAccepted(old(buttonPressed), old(lastButtonPress), now) ||
                    TimedOut(old(currentMenu), old(lastMenuActivity), now) ||
                    Elapsed(now, old(lastRefresh)) > UI_REFRESH_INTERVAL
                 then now else old(lastRefresh))
      ensures PressAccepted(old(buttonPressed), old(lastButtonPress), now) ==>
                PanelOf() == Press(Turn(old(PanelOf()), encoderPos - old(lastEncoderPos)), now) &&
                currentBeep == PressBeep(Turn(old(PanelOf()), encoderPos - old(lastEncoderPos))) &&
                beepActive && beepStartTime == now && toneFrequency == Frequency(currentBeep)
      ensures !PressAccepted(old(buttonPressed), old(lastButtonPress), now) &&
              encoderPos != old(lastEncoderPos) ==>
                PanelOf() == Turn(old(PanelOf()), encoderPos - old(lastEncoderPos)) &&
                currentBeep == MenuBeep && beepActive && beepStartTime == now &&
                toneFrequency == Frequency(MenuBeep)
      ensures !PressAccepted(old(buttonPressed), old(lastButtonPress), now) &&
              encoderPos == old(lastEncoderPos) ==>
                PanelOf() ==
                  if TimedOut(old(currentMenu), old(lastMenuActivity), now)
                  then old(PanelOf()).(menu := Main, index := 0, maxIndex := NUM_PORTS - 1)
                  else old(PanelOf())
      ensures !PressAccepted(old(buttonPressed), old(lastButtonPress), now) &&
              encoderPos == old(lastEncoderPos) ==>
                if old(beepActive) && Elapsed(now, old(beepStartTime)) >= Duration(old(currentBeep))
                then !beepActive && currentBeep == NoBeep && toneFrequency == 0 &&
                     beepStartTime == old(beepStartTime)
                else currentBeep == old(currentBeep) && beepActive == old(beepActive) &&
                     beepStartTime == old(beepStartTime) && toneFrequency == old(toneFrequency)
    {
      ghost var before := PanelOf();
      UpdateBuzzer(now);
      assert PanelOf() == before;
      MenuStep(now);
      ghost var after := PanelOf();
      RefreshStep(now);
      assert PanelOf() == after;
    }
  }
}
