/**
 * The Win32 backend (zdl_win32.c): the window procedure that turns
 * window messages into queued events, virtual-key translation, and the
 * fullscreen, size, title and polling operations of a window.
 *
 * Each native call the backend makes is recorded in a ghost log of
 * `Win32Call` values; the message pump itself is modelled by handing the
 * pending messages to `PollEvent`.
 */
module Win32 {
  import opened Zdl
  import opened Queue

  // ---- LPARAM / WPARAM decoding ----

  /** `(l >> 0) & 0xffff` */
  function LowWord(l: int): (r: int)
    ensures 0 <= r < 0x10000
  {
    l % 0x10000
  }

  /** `(l >> 16) & 0xffff` (an arithmetic shift is a floor division) */
  function HighWord(l: int): (r: int)
    ensures 0 <= r < 0x10000
  {
    (l / 0x10000) % 0x10000
  }

  /** The words of a packed coordinate pair come back out unchanged. */
  lemma WordsRoundTrip(x: int, y: int)
    requires 0 <= x < 0x10000 && 0 <= y < 0x10000
    ensures LowWord(x + y * 0x10000) == x
    ensures HighWord(x + y * 0x10000) == y
  {
    assert (x + y * 0x10000) / 0x10000 == y;
  }

  /** A 16-bit word read as a `short`. */
  function SignedShort(word: int): (r: int)
    requires 0 <= word < 0x10000
    ensures -0x8000 <= r < 0x8000
    ensures r < 0 <==> word >= 0x8000
    ensures (r + 0x10000) % 0x10000 == word
  {
    if word < 0x8000 then word else word - 0x10000
  }

  // ---- key translation (zdl_translate) ----

  /** The keysym of a virtual-key code, or KEYSYM_UNKNOWN. */
  function VirtualKeySym(vk: nat): (sym: int)
    ensures sym == KEYSYM_UNKNOWN || 0 <= sym <= KEYSYM_UNDO
  {
    match vk
      case 0x08 => KEYSYM_BACKSPACE  // VK_BACK
      case 0x09 => KEYSYM_TAB  // VK_TAB
      case 0x0C => KEYSYM_CLEAR  // VK_CLEAR
      case 0x0D => KEYSYM_RETURN  // VK_RETURN
      case 0x13 => KEYSYM_PAUSE  // VK_PAUSE
      case 0x1B => KEYSYM_ESCAPE  // VK_ESCAPE
      case 0x20 => KEYSYM_SPACE  // VK_SPACE
      case 0xDE => KEYSYM_QUOTE  // VK_OEM_7
      case 0xBB => KEYSYM_PLUS  // VK_OEM_PLUS
      case 0xBC => KEYSYM_COMMA  // VK_OEM_COMMA
      case 0xBD => KEYSYM_MINUS  // VK_OEM_MINUS
      case 0xBE => KEYSYM_PERIOD  // VK_OEM_PERIOD
      case 0xBF => KEYSYM_SLASH  // VK_OEM_2
      case 0x30 => KEYSYM_0
      case 0x31 => KEYSYM_1
      case 0x32 => KEYSYM_2
      case 0x33 => KEYSYM_3
      case 0x34 => KEYSYM_4
      case 0x35 => KEYSYM_5
      case 0x36 => KEYSYM_6
      case 0x37 => KEYSYM_7
      case 0x38 => KEYSYM_8
      case 0x39 => KEYSYM_9
      case 0xBA => KEYSYM_COLON  // VK_OEM_1
      case 0xDB => KEYSYM_LEFTBRACKET  // VK_OEM_4
      case 0xDC => KEYSYM_BACKSLASH  // VK_OEM_5
      case 0xDD => KEYSYM_RIGHTBRACKET  // VK_OEM_6
      case 0xC0 => KEYSYM_BACKQUOTE  // VK_OEM_3
      case 0x41 => KEYSYM_A
      case 0x42 => KEYSYM_B
      case 0x43 => KEYSYM_C
      case 0x44 => KEYSYM_D
      case 0x45 => KEYSYM_E
      case 0x46 => KEYSYM_F
      case 0x47 => KEYSYM_G
      case 0x48 => KEYSYM_H
      case 0x49 => KEYSYM_I
      case 0x4A => KEYSYM_J
      case 0x4B => KEYSYM_K
      case 0x4C => KEYSYM_L
      case 0x4D => KEYSYM_M
      case 0x4E => KEYSYM_N
      case 0x4F => KEYSYM_O
      case 0x50 => KEYSYM_P
      case 0x51 => KEYSYM_Q
      case 0x52 => KEYSYM_R
      case 0x53 => KEYSYM_S
      case 0x54 => KEYSYM_T
      case 0x55 => KEYSYM_U
      case 0x56 => KEYSYM_V
      case 0x57 => KEYSYM_W
      case 0x58 => KEYSYM_X
      case 0x59 => KEYSYM_Y
      case 0x5A => KEYSYM_Z
      case 0x2E => KEYSYM_DELETE  // VK_DELETE
      case 0x60 => KEYSYM_KEYPAD_0  // VK_NUMPAD0
      case 0x61 => KEYSYM_KEYPAD_1  // VK_NUMPAD1
      case 0x62 => KEYSYM_KEYPAD_2  // VK_NUMPAD2
      case 0x63 => KEYSYM_KEYPAD_3  // VK_NUMPAD3
      case 0x64 => KEYSYM_KEYPAD_4  // VK_NUMPAD4
      case 0x65 => KEYSYM_KEYPAD_5  // VK_NUMPAD5
      case 0x66 => KEYSYM_KEYPAD_6  // VK_NUMPAD6
      case 0x67 => KEYSYM_KEYPAD_7  // VK_NUMPAD7
      case 0x68 => KEYSYM_KEYPAD_8  // VK_NUMPAD8
      case 0x69 => KEYSYM_KEYPAD_9  // VK_NUMPAD9
      case 0x6E => KEYSYM_KEYPAD_PERIOD  // VK_DECIMAL
      case 0x6F => KEYSYM_KEYPAD_DIVIDE  // VK_DIVIDE
      case 0x6A => KEYSYM_KEYPAD_MULTIPLY  // VK_MULTIPLY
      case 0x6D => KEYSYM_KEYPAD_MINUS  // VK_SUBTRACT
      case 0x6B => KEYSYM_KEYPAD_PLUS  // VK_ADD
      case 0x26 => KEYSYM_UP  // VK_UP
      case 0x28 => KEYSYM_DOWN  // VK_DOWN
      case 0x27 => KEYSYM_RIGHT  // VK_RIGHT
      case 0x25 => KEYSYM_LEFT  // VK_LEFT
      case 0x2D => KEYSYM_INSERT  // VK_INSERT
      case 0x24 => KEYSYM_HOME  // VK_HOME
      case 0x23 => KEYSYM_END  // VK_END
      case 0x21 => KEYSYM_PAGEUP  // VK_PRIOR
      case 0x22 => KEYSYM_PAGEDOWN  // VK_NEXT
      case 0x70 => KEYSYM_F1  // VK_F1
      case 0x71 => KEYSYM_F2  // VK_F2
      case 0x72 => KEYSYM_F3  // VK_F3
      case 0x73 => KEYSYM_F4  // VK_F4
      case 0x74 => KEYSYM_F5  // VK_F5
      case 0x75 => KEYSYM_F6  // VK_F6
      case 0x76 => KEYSYM_F7  // VK_F7
      case 0x77 => KEYSYM_F8  // VK_F8
      case 0x78 => KEYSYM_F9  // VK_F9
      case 0x79 => KEYSYM_F10  // VK_F10
      case 0x7A => KEYSYM_F11  // VK_F11
      case 0x7B => KEYSYM_F12  // VK_F12
      case 0x7C => KEYSYM_F13  // VK_F13
      case 0x7D => KEYSYM_F14  // VK_F14
      case 0x7E => KEYSYM_F15  // VK_F15
      case 0x90 => KEYSYM_NUMLOCK  // VK_NUMLOCK
      case 0x14 => KEYSYM_CAPSLOCK  // VK_CAPITAL
      case 0x91 => KEYSYM_SCROLLLOCK  // VK_SCROLL
      case 0xA1 => KEYSYM_RSHIFT  // VK_RSHIFT
      case 0xA0 => KEYSYM_LSHIFT  // VK_LSHIFT
      case 0xA3 => KEYSYM_RCTRL  // VK_RCONTROL
      case 0xA2 => KEYSYM_LCTRL  // VK_LCONTROL
      case 0x12 => KEYSYM_RALT  // VK_MENU
      case 0x5B => KEYSYM_LSUPER  // VK_LWIN
      case 0x5C => KEYSYM_RSUPER  // VK_RWIN
      case 0x1F => KEYSYM_MODE  // VK_MODECHANGE
      case 0x2F => KEYSYM_HELP  // VK_HELP
      case 0x2A => KEYSYM_PRINT  // VK_PRINT
      case 0x03 => KEYSYM_BREAK  // VK_CANCEL
      case _ => KEYSYM_UNKNOWN
  }

  /** Letters, digits, keypad digits and F1..F15 are contiguous ranges of virtual keys. */
  lemma VirtualKeyRanges()
    ensures forall vk: nat :: 0x41 <= vk <= 0x5A ==> VirtualKeySym(vk) == KEYSYM_A + (vk - 0x41)
    ensures forall vk: nat :: 0x30 <= vk <= 0x39 ==> VirtualKeySym(vk) == KEYSYM_0 + (vk - 0x30)
    ensures forall vk: nat :: 0x60 <= vk <= 0x69 ==> VirtualKeySym(vk) == KEYSYM_KEYPAD_0 + (vk - 0x60)
    ensures forall vk: nat :: 0x70 <= vk <= 0x7E ==> VirtualKeySym(vk) == FUNCTION_KEYS[vk - 0x70]
  {
    FunctionKeysAreConsecutive();
  }

  /**
   * `zdl_translate`: the keysym of `wParam`, the scancode bits 16..22 of
   * `lParam`, and no code point or modifiers. The C function always
   * returns 0, so the model returns the key record alone.
   */
  function Translate(wParam: nat, lParam: int): (k: KeyInfo)
    ensures k.sym == VirtualKeySym(wParam)
    ensures 0 <= k.scancode < 0x80 && k.scancode == HighWord(lParam) % 0x80
    ensures k.unicode == 0 && k.modifiers == KEYMOD_NONE
  {
    KeyInfo(VirtualKeySym(wParam), KEYMOD_NONE, 0, (lParam / 0x10000) % 0x80)
  }

  // ---- mouse buttons ----

  datatype MouseButton = LeftButton | MiddleButton | RightButton

  /** Left is 1, right is 2, middle is 3. */
  function ButtonNumber(b: MouseButton): (n: int)
    ensures n in {1, 2, 3}
    ensures b == LeftButton <==> n == 1
    ensures b == RightButton <==> n == 2
    ensures b == MiddleButton <==> n == 3
  {
    match b
    case LeftButton => 1
    case RightButton => 2
    case MiddleButton => 3
  }

  /** `4 + ((short)(wParam >> 16) < 0)`: 4 scrolls up, 5 scrolls down. */
  function WheelButton(wParam: nat): (n: int)
    ensures n == 4 || n == 5
    ensures n == 5 <==> SignedShort(HighWord(wParam)) < 0
  {
    if SignedShort(HighWord(wParam)) < 0 then 5 else 4
  }

  // ---- window state ----

  datatype WindowStyle = OverlappedWindow | Disabled

  /** The native calls the backend makes. */
  datatype Win32Call =
    | RegisterClass
    | CreateNativeWindow(width: int, height: int)
    | GlSetup
    | GlTeardown
    | DestroyNativeWindow
    | PostQuitMessage(code: int)
    | DefWindowProc(message: nat)
    | SetWindowStyle(style: WindowStyle)
    | SetWindowPos(x: int, y: int, width: int, height: int, move: bool)
    | ShowWindow
    | SetWindowText(text: string)
    | ShowCursor(shown: bool)
    | SwapBuffers

  /** The WM_DESTROY handler, which DestroyWindow runs before it returns: GL teardown, then the quit message. */
  const DESTROY_CALLS: seq<Win32Call> := [GlTeardown, PostQuitMessage(0)]

  /** The monitor rectangle GetMonitorInfo reports. */
  datatype MonitorRect = MonitorRect(left: int, top: int, right: int, bottom: int)

  /** The window messages the window procedure handles, with their parameters. */
  datatype Message =
    | WmCreate
    | WmChar(wParam: nat)
    | WmKeyDown(wParam: nat, lParam: int)
    | WmKeyUp(wParam: nat, lParam: int)
    | WmMouseWheel(wParam: nat, lParam: int)
    | WmButtonDown(which: MouseButton, lParam: int)
    | WmButtonUp(which: MouseButton, lParam: int)
    | WmMouseMove(lParam: int)
    | WmSize(lParam: int)
    | WmClose
    | WmDestroy
    | WmOther(code: nat)

  /** Everything `struct zdl_window` holds that the backend reads or writes. */
  datatype Win32State = Win32State(
    title: Option<string>,
    width: int, height: int,
    fullscreen: int,
    maskedWidth: int, maskedHeight: int,
    lastMotionX: int, lastMotionY: int,
    queue: seq<Event>,
    calls: seq<Win32Call>)

  /**
   * `zdl_WndProc`: the new window state after one message. Only the
   * queue, the last motion position, the live size and the call log can
   * change; fullscreen, masked size and title never do.
   */
  function OnMessage(s: Win32State, m: Message): (t: Win32State)
    ensures t.title == s.title && t.fullscreen == s.fullscreen
    ensures t.maskedWidth == s.maskedWidth && t.maskedHeight == s.maskedHeight
    ensures |s.queue| <= |t.queue| <= |s.queue| + 1
  {
    match m
    case WmCreate => s.(calls := s.calls + [GlSetup])
    case WmChar(wParam) => s.(queue := SmashTail(s.queue, wParam % 0x10000))
    case WmKeyDown(wParam, lParam) => s.(queue := s.queue + [KeyPress(Translate(wParam, lParam))])
    case WmKeyUp(wParam, lParam) => s.(queue := s.queue + [KeyRelease(Translate(wParam, lParam))])
    case WmMouseWheel(wParam, lParam) =>
      s.(queue := s.queue + [ButtonPress(ButtonInfo(WheelButton(wParam), LowWord(lParam), HighWord(lParam), KEYMOD_NONE))])
    case WmButtonDown(b, lParam) =>
      s.(queue := s.queue + [ButtonPress(ButtonInfo(ButtonNumber(b), LowWord(lParam), HighWord(lParam), KEYMOD_NONE))])
    case WmButtonUp(b, lParam) =>
      s.(queue := s.queue + [ButtonRelease(ButtonInfo(ButtonNumber(b), LowWord(lParam), HighWord(lParam), KEYMOD_NONE))])
    case WmMouseMove(lParam) =>
      var x, y := LowWord(lParam), HighWord(lParam);
      s.(queue := s.queue + [Motion(MotionInfo(x, y, x - s.lastMotionX, y - s.lastMotionY, 0, 0))],
         lastMotionX := x, lastMotionY := y)
    case WmSize(lParam) =>
      var width, height := LowWord(lParam), HighWord(lParam);
      if width == s.width && height == s.height then s
      else s.(queue := s.queue + [Reconfigure(width, height)], width := width, height := height)
    case WmClose => s.(queue := s.queue + [Exit], calls := s.calls + [DestroyNativeWindow] + DESTROY_CALLS)
    case WmDestroy => s.(calls := s.calls + DESTROY_CALLS)
    case WmOther(code) => s.(calls := s.calls + [DefWindowProc(code)])
  }

  /** The state after the window procedure has handled each message in turn. */
  function Dispatch(s: Win32State, messages: seq<Message>): Win32State
  {
    if messages == [] then s
    else OnMessage(Dispatch(s, messages[..|messages| - 1]), messages[|messages| - 1])
  }

  /** `zdl_window_poll_event`: dispatch everything pending, then pop the queue. */
  function PollSpec(s: Win32State, messages: seq<Message>): (r: (Win32State, Option<Event>))
    ensures r.1.None? ==> r.0 == Dispatch(s, messages) && r.0.queue == []
    ensures r.1.Some? ==> [r.1.value] + r.0.queue == Dispatch(s, messages).queue
    ensures r.0 == Dispatch(s, messages).(queue := r.0.queue)
  {
    var d := Dispatch(s, messages);
    if d.queue == [] then (d, None) else (d.(queue := d.queue[1..]), Some(d.queue[0]))
  }

  /** `zdl_window_set_fullscreen`. */
  function SetFullscreenSpec(s: Win32State, fullscreen: int, monitor: MonitorRect): (t: Win32State)
    ensures t.fullscreen == fullscreen
    ensures t.queue == s.queue && t.title == s.title && t.width == s.width && t.height == s.height
    ensures |t.calls| >= |s.calls| && t.calls[..|s.calls|] == s.calls
  {
    if fullscreen == s.fullscreen then s
    else if fullscreen != 0 then
      s.(maskedWidth := s.width, maskedHeight := s.height, fullscreen := fullscreen,
         calls := s.calls + [SetWindowStyle(Disabled),
                             SetWindowPos(monitor.left, monitor.top, monitor.right - monitor.left,
                                          monitor.bottom - monitor.top, true),
                             ShowWindow])
    else
      s.(fullscreen := 0,
         calls := s.calls + [SetWindowStyle(OverlappedWindow),
                             SetWindowPos(0, 0, s.maskedWidth, s.maskedHeight, false),
                             ShowWindow])
  }

  /** `zdl_window_set_size`. */
  function SetSizeSpec(s: Win32State, width: int, height: int): (t: Win32State)
    ensures t.fullscreen == s.fullscreen && t.queue == s.queue && t.title == s.title
    ensures s.fullscreen == 0 ==> t.width == width && t.height == height
    ensures s.fullscreen != 0 ==> t.width == s.width && t.height == s.height && t.calls == s.calls
  {
    if width == s.width && height == s.height then s
    else if s.fullscreen == 0 then
      s.(width := width, height := height, calls := s.calls + [SetWindowPos(0, 0, width, height, false)])
    else
      s.(maskedWidth := width, maskedHeight := height)
  }

  /** `zdl_window_set_title`. */
  function SetTitleSpec(s: Win32State, icon: Option<string>, name: Option<string>): (t: Win32State)
    ensures t == s.(title := t.title, calls := t.calls)
    ensures t.calls == s.calls || (t.title.Some? && t.calls == s.calls + [SetWindowText(t.title.value)])
  {
    match ResolveTitle(icon, name)
    case None => s
    case Some(names) => s.(title := Some(names.1), calls := s.calls + [SetWindowText(names.1)])
  }

  /**
   * The state `zdl_window_create` leaves behind when registration and
   * window creation succeed. Creating the native window delivers
   * WM_CREATE, which sets up GL. The live fullscreen field starts out as
   * the negated request, so any non-zero request differs from it and
   * enters fullscreen.
   */
  function CreateSpec(width: int, height: int, fullscreen: int, monitor: MonitorRect): (t: Win32State)
    ensures t.fullscreen == fullscreen && t.queue == [] && t.title == None
    ensures |t.calls| >= 4 && t.calls[..3] == [RegisterClass, CreateNativeWindow(width, height), GlSetup]
    ensures t.calls[|t.calls| - 1] == ShowWindow
  {
    var s := Win32State(None, width, height, -fullscreen, 0, 0, 0, 0, [],
                        [RegisterClass, CreateNativeWindow(width, height), GlSetup]);
    var t := if s.fullscreen != 0 then SetFullscreenSpec(s, fullscreen, monitor) else s;
    t.(calls := t.calls + [ShowWindow])
  }

  // ---- properties of the window procedure ----

  /** Every key message queues exactly one key record: translation never drops a key. */
  lemma KeyMessagesNeverDropped(s: Win32State, wParam: nat, lParam: int)
    ensures OnMessage(s, WmKeyDown(wParam, lParam)).queue == s.queue + [KeyPress(Translate(wParam, lParam))]
    ensures OnMessage(s, WmKeyUp(wParam, lParam)).queue == s.queue + [KeyRelease(Translate(wParam, lParam))]
    ensures Translate(wParam, lParam).sym == KEYSYM_UNKNOWN <==> VirtualKeySym(wParam) == KEYSYM_UNKNOWN
  {
  }

  /**
   * A key press followed by its WM_CHAR leaves one KEYPRESS carrying the
   * character (truncated to an `unsigned short`), not two records.
   */
  lemma CharJoinsKeyPress(s: Win32State, vk: nat, lParam: int, ch: nat)
    ensures OnMessage(OnMessage(s, WmKeyDown(vk, lParam)), WmChar(ch)).queue
            == s.queue + [KeyPress(Translate(vk, lParam).(unicode := ch % 0x10000))]
  {
    PushThenSmash(s.queue, Translate(vk, lParam), ch % 0x10000);
  }

  /**
   * The wheel only ever queues a BUTTONPRESS (button 4 or 5), never a
   * release; a button press and its release carry the same number. Every
   * button record is at the position packed in `lParam`: x in the low
   * word, y in the high word.
   */
  lemma ButtonMessages(s: Win32State, wParam: nat, b: MouseButton, lParam: int)
    ensures var t := OnMessage(s, WmMouseWheel(wParam, lParam));
            |t.queue| == |s.queue| + 1 && t.queue[..|s.queue|] == s.queue && t.queue[|s.queue|].ButtonPress? &&
            t.queue[|s.queue|].button.button in {4, 5} && t.queue[|s.queue|].button.button == WheelButton(wParam) &&
            t.queue[|s.queue|].button.x == LowWord(lParam) && t.queue[|s.queue|].button.y == HighWord(lParam)
    ensures var down := OnMessage(s, WmButtonDown(b, lParam)).queue[|s.queue|];
            var up := OnMessage(s, WmButtonUp(b, lParam)).queue[|s.queue|];
            down.ButtonPress? && up.ButtonRelease? && down.button == up.button &&
            down.button.button == ButtonNumber(b) &&
            down.button.x == LowWord(lParam) && down.button.y == HighWord(lParam)
  {
  }

  function MotionSum(events: seq<Event>): (int, int)
  {
    if events == [] then (0, 0)
    else
      var rest := MotionSum(events[..|events| - 1]);
      var last := events[|events| - 1];
      if last.Motion? then (rest.0 + last.motion.dx, rest.1 + last.motion.dy) else rest
  }

  function MouseMoves(positions: seq<int>): (ms: seq<Message>)
    ensures |ms| == |positions|
  {
    seq(|positions|, i requires 0 <= i < |positions| => WmMouseMove(positions[i]))
  }

  /**
   * Motion deltas are measured from the last motion position: over any
   * run of mouse moves they add up to the distance from the starting
   * position to the last one, and the last position is remembered.
   */
  lemma {:induction false} MotionDeltasTelescope(s: Win32State, positions: seq<int>)
    requires positions != []
    ensures var t := Dispatch(s, MouseMoves(positions));
            var last := positions[|positions| - 1];
            t.lastMotionX == LowWord(last) && t.lastMotionY == HighWord(last) &&
            |t.queue| == |s.queue| + |positions| && t.queue[..|s.queue|] == s.queue &&
            MotionSum(t.queue[|s.queue|..]) == (LowWord(last) - s.lastMotionX, HighWord(last) - s.lastMotionY)
  {
    var n := |positions|;
    var ms := MouseMoves(positions);
    assert ms[..n - 1] == MouseMoves(positions[..n - 1]);
    var d := Dispatch(s, ms[..n - 1]);
    var t := Dispatch(s, ms);
    assert t == OnMessage(d, WmMouseMove(positions[n - 1]));
    if n == 1 {
      assert d == s;
      assert t.queue[|s.queue|..] == [t.queue[|s.queue|]];
    } else {
      MotionDeltasTelescope(s, positions[..n - 1]);
      var prev := positions[n - 2];
      assert d.lastMotionX == LowWord(prev) && d.lastMotionY == HighWord(prev);
      assert d.queue[..|s.queue|] == s.queue;
      assert t.queue == d.queue + [t.queue[|d.queue|]];
      assert t.queue[|s.queue|..][..|t.queue[|s.queue|..]| - 1] == d.queue[|s.queue|..];
    }
  }

  /**
   * A WM_SIZE equal to the current size changes nothing; otherwise it
   * queues one RECONFIGURE and records the size, so the same WM_SIZE
   * delivered twice is reported once.
   */
  lemma SizeMessagesDeduplicated(s: Win32State, lParam: int)
    ensures var t := OnMessage(s, WmSize(lParam));
            (LowWord(lParam) == s.width && HighWord(lParam) == s.height ==> t == s) &&
            (LowWord(lParam) != s.width || HighWord(lParam) != s.height ==>
               t.queue == s.queue + [Reconfigure(LowWord(lParam), HighWord(lParam))]) &&
            t.width == LowWord(lParam) && t.height == HighWord(lParam)
    ensures OnMessage(OnMessage(s, WmSize(lParam)), WmSize(lParam)) == OnMessage(s, WmSize(lParam))
  {
  }

  /** Only the last record queued before a poll can be touched by later messages. */
  lemma {:induction false} DispatchKeepsQueuedRecords(s: Win32State, messages: seq<Message>)
    ensures var t := Dispatch(s, messages);
            |t.queue| >= |s.queue| &&
            (forall i :: 0 <= i < |s.queue| ==> t.queue[i].Tag() == s.queue[i].Tag()) &&
            (forall i :: 0 <= i < |s.queue| - 1 ==> t.queue[i] == s.queue[i])
  {
    if messages != [] {
      var d := Dispatch(s, messages[..|messages| - 1]);
      DispatchKeepsQueuedRecords(s, messages[..|messages| - 1]);
      var m := messages[|messages| - 1];
      if m.WmChar? {
        SmashKeepsTags(d.queue, m.wParam % 0x10000);
      }
    }
  }

  /** A record already queued before the pump runs is returned first. */
  lemma PollReturnsOldestRecordFirst(s: Win32State, messages: seq<Message>)
    requires |s.queue| >= 2
    ensures PollSpec(s, messages).1 == Some(s.queue[0])
    ensures |PollSpec(s, messages).0.queue| >= |s.queue| - 1
    ensures PollSpec(s, messages).0.queue[..|s.queue| - 2] == s.queue[1..|s.queue| - 1]
  {
    DispatchKeepsQueuedRecords(s, messages);
  }

  /**
   * A lone queued record still comes out first, with its tag kept; only a
   * KEYPRESS can differ, by the code point a later WM_CHAR smashed into it.
   */
  lemma PollReturnsLoneRecordFirst(s: Win32State, messages: seq<Message>)
    requires |s.queue| == 1
    ensures PollSpec(s, messages).1.Some?
    ensures PollSpec(s, messages).1.value.Tag() == s.queue[0].Tag()
  {
    DispatchKeepsQueuedRecords(s, messages);
  }

  // ---- properties of fullscreen and size ----

  /**
   * Setting the current fullscreen value is a no-op; entering fullscreen
   * saves the live size into the masked size; leaving resizes the window
   * to the masked size.
   */
  lemma SetFullscreenTransitions(s: Win32State, fullscreen: int, monitor: MonitorRect)
    ensures fullscreen == s.fullscreen ==> SetFullscreenSpec(s, fullscreen, monitor) == s
    ensures fullscreen != s.fullscreen && fullscreen != 0 ==>
              var t := SetFullscreenSpec(s, fullscreen, monitor);
              t.maskedWidth == s.width && t.maskedHeight == s.height && t.fullscreen == fullscreen &&
              t.width == s.width && t.height == s.height
    ensures fullscreen != s.fullscreen && fullscreen == 0 ==>
              var t := SetFullscreenSpec(s, fullscreen, monitor);
              t.fullscreen == 0 && SetWindowPos(0, 0, s.maskedWidth, s.maskedHeight, false) in t.calls[|s.calls|..]
  {
  }

  /**
   * Windowed -> fullscreen -> windowed asks for the original windowed
   * size again, even if the window was resized while fullscreen.
   */
  lemma FullscreenRoundTripRestoresSize(s: Win32State, monitor: MonitorRect, lParam: int)
    requires s.fullscreen == 0
    ensures var inFs := OnMessage(SetFullscreenSpec(s, 1, monitor), WmSize(lParam));
            var back := SetFullscreenSpec(inFs, 0, monitor);
            back.fullscreen == 0 &&
            back.calls[|back.calls| - 2] == SetWindowPos(0, 0, s.width, s.height, false)
  {
  }

  /**
   * Setting the current size is a no-op; while windowed the live size
   * changes and the window is resized; while fullscreen only the masked
   * size changes and no native call is made.
   */
  lemma SetSizeTransitions(s: Win32State, width: int, height: int)
    ensures width == s.width && height == s.height ==> SetSizeSpec(s, width, height) == s
    ensures (width != s.width || height != s.height) && s.fullscreen == 0 ==>
              var t := SetSizeSpec(s, width, height);
              t.width == width && t.height == height && t.maskedWidth == s.maskedWidth &&
              t.maskedHeight == s.maskedHeight && t.calls == s.calls + [SetWindowPos(0, 0, width, height, false)]
    ensures (width != s.width || height != s.height) && s.fullscreen != 0 ==>
              SetSizeSpec(s, width, height) == s.(maskedWidth := width, maskedHeight := height)
  {
  }

  /** Any non-zero request at creation enters fullscreen and remembers the requested size. */
  lemma CreateEntersRequestedFullscreen(width: int, height: int, fullscreen: int, monitor: MonitorRect)
    ensures var s := CreateSpec(width, height, fullscreen, monitor);
            s.fullscreen == fullscreen && s.queue == [] && s.width == width && s.height == height &&
            (fullscreen != 0 ==> s.maskedWidth == width && s.maskedHeight == height)
  {
  }

  /** A title call with both names missing changes nothing; otherwise the window name is shown. */
  lemma SetTitleDefaults(s: Win32State, icon: Option<string>, name: Option<string>)
    ensures icon.None? && name.None? ==> SetTitleSpec(s, icon, name) == s
    ensures name.Some? ==> SetTitleSpec(s, icon, name).title == Some(name.value)
    ensures name.None? && icon.Some? ==>
              SetTitleSpec(s, icon, name).calls == s.calls + [SetWindowText(icon.value)]
  {
  }

  // ---- the window object ----

  class Win32Window {
    var title: Option<string>
    var width: int
    var height: int
    var fullscreen: int
    var maskedWidth: int
    var maskedHeight: int
    var lastMotionX: int
    var lastMotionY: int
    const queue: EventQueue
    ghost var calls: seq<Win32Call>

    ghost function State(): Win32State
      reads this, queue
    {
      Win32State(title, width, height, fullscreen, maskedWidth, maskedHeight,
                 lastMotionX, lastMotionY, queue.items, calls)
    }

    /** The zero-filled window `calloc` returns, with an empty queue. */
    constructor ()
      ensures State() == Win32State(None, 0, 0, 0, 0, 0, 0, 0, [], [])
      ensures fresh(queue)
    {
      title := None;
      width, height, fullscreen := 0, 0, 0;
      maskedWidth, maskedHeight := 0, 0;
      lastMotionX, lastMotionY := 0, 0;
      queue := new EventQueue();
      calls := [];
    }

    /** `zdl_WndProc` for one message. */
    method HandleMessage(m: Message)
      modifies this, queue
      ensures State() == OnMessage(old(State()), m)
    {
      match m
      case WmCreate =>
        calls := calls + [GlSetup];
      case WmChar(wParam) =>
        queue.SmashKey(wParam % 0x10000);
      case WmKeyDown(wParam, lParam) =>
        var key := Translate(wParam, lParam);
        queue.Push(KeyPress(key));
      case WmKeyUp(wParam, lParam) =>
        var key := Translate(wParam, lParam);
        queue.Push(KeyRelease(key));
      case WmMouseWheel(wParam, lParam) =>
        queue.Push(ButtonPress(ButtonInfo(WheelButton(wParam), LowWord(lParam), HighWord(lParam), KEYMOD_NONE)));
      case WmButtonDown(b, lParam) =>
        queue.Push(ButtonPress(ButtonInfo(ButtonNumber(b), LowWord(lParam), HighWord(lParam), KEYMOD_NONE)));
      case WmButtonUp(b, lParam) =>
        queue.Push(ButtonRelease(ButtonInfo(ButtonNumber(b), LowWord(lParam), HighWord(lParam), KEYMOD_NONE)));
      case WmMouseMove(lParam) =>
        var x, y := LowWord(lParam), HighWord(lParam);
        var ev := Motion(MotionInfo(x, y, x - lastMotionX, y - lastMotionY, 0, 0));
        lastMotionX, lastMotionY := x, y;
        queue.Push(ev);
      case WmSize(lParam) =>
        var w, h := LowWord(lParam), HighWord(lParam);
        if w != width || h != height {
          queue.Push(Reconfigure(w, h));
          width, height := w, h;
        }
      case WmClose =>
        queue.Push(Exit);
        calls := calls + [DestroyNativeWindow] + DESTROY_CALLS;
      case WmDestroy =>
        calls := calls + DESTROY_CALLS;
      case WmOther(code) =>
        calls := calls + [DefWindowProc(code)];
    }

    /** `zdl_window_poll_event`: the pending messages are dispatched in order, then one pop. */
    method PollEvent(messages: seq<Message>) returns (r: Option<Event>)
      modifies this, queue
      ensures (State(), r) == PollSpec(old(State()), messages)
    {
      var i := 0;
      while i < |messages|
        invariant 0 <= i <= |messages|
        invariant State() == Dispatch(old(State()), messages[..i])
      {
        assert messages[..i + 1][..i] == messages[..i];
        HandleMessage(messages[i]);
        i := i + 1;
      }
      assert messages[..i] == messages;
      r := queue.Pop();
    }

    /** `zdl_window_set_fullscreen`. */
    method SetFullscreen(fs: int, monitor: MonitorRect)
      modifies this
      ensures State() == SetFullscreenSpec(old(State()), fs, monitor)
    {
      if fs == fullscreen {
        return;
      }
      if fs != 0 {
        maskedWidth, maskedHeight := width, height;
        calls := calls + [SetWindowStyle(Disabled),
                          SetWindowPos(monitor.left, monitor.top, monitor.right - monitor.left,
                                       monitor.bottom - monitor.top, true)];
      } else {
        calls := calls + [SetWindowStyle(OverlappedWindow),
                          SetWindowPos(0, 0, maskedWidth, maskedHeight, false)];
      }
      fullscreen := fs;
      calls := calls + [ShowWindow];
    }

    /** `zdl_window_get_fullscreen` */
    method GetFullscreen() returns (fs: int)
      ensures fs == fullscreen
    {
      fs := fullscreen;
    }

    /** `zdl_window_set_size`. */
    method SetSize(w: int, h: int)
      modifies this
      ensures State() == SetSizeSpec(old(State()), w, h)
    {
      if w == width && h == height {
        return;
      }
      if fullscreen == 0 {
        width, height := w, h;
        calls := calls + [SetWindowPos(0, 0, width, height, false)];
      } else {
        maskedWidth, maskedHeight := w, h;
      }
    }

    /** `zdl_window_get_size` */
    method GetSize() returns (w: int, h: int)
      ensures w == width && h == height
    {
      w, h := width, height;
    }

    /** `zdl_window_set_title`: the window keeps its own copy of the window name. */
    method SetTitle(icon: Option<string>, name: Option<string>)
      modifies this
      ensures State() == SetTitleSpec(old(State()), icon, name)
    {
      if icon.None? && name.None? {
        return;
      }
      var n := if name.Some? then name.value else icon.value;
      title := Some(n);
      calls := calls + [SetWindowText(n)];
    }

    /** `zdl_window_show_cursor` */
    method ShowCursorCall(shown: bool)
      modifies this
      ensures State() == old(State()).(calls := old(calls) + [ShowCursor(shown)])
    {
      calls := calls + [ShowCursor(shown)];
    }

    /** `zdl_window_swap`: presents the back buffer. */
    method Swap()
      modifies this
      ensures State() == old(State()).(calls := old(calls) + [SwapBuffers])
    {
      calls := calls + [SwapBuffers];
    }

    /**
     * `zdl_window_destroy`: the native window goes away, running the
     * WM_DESTROY handler before DestroyWindow returns, and every queued
     * record is freed.
     */
    method Destroy()
      modifies this, queue
      ensures queue.items == [] && calls == old(calls) + [DestroyNativeWindow, GlTeardown, PostQuitMessage(0)]
    {
      calls := calls + [DestroyNativeWindow] + DESTROY_CALLS;
      queue.Destroy();
    }
  }

  /**
   * `zdl_window_create`: null when the record cannot be allocated
   * (`allocOk` false), the window class cannot be registered or the
   * native window cannot be created, otherwise a window in the state
   * CreateSpec describes.
   */
  method CreateWindow(width: int, height: int, fullscreen: int, monitor: MonitorRect,
                      allocOk: bool, registered: bool, created: bool)
    returns (w: Win32Window?)
    ensures w == null <==> !allocOk || !registered || !created
    ensures w != null ==> fresh(w) && fresh(w.queue) && w.State() == CreateSpec(width, height, fullscreen, monitor)
  {
    if !allocOk || !registered || !created {
      return null;
    }
    w := new Win32Window();
    w.width, w.height := width, height;
    w.fullscreen := -fullscreen;
    w.calls := w.calls + [RegisterClass, CreateNativeWindow(width, height), GlSetup];
    if w.fullscreen != 0 {
      w.SetFullscreen(fullscreen, monitor);
    }
    w.calls := w.calls + [ShowWindow];
  }
}
