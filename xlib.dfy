/**
 * The X11 backend (zdl_xlib.c): key translation with an accumulated
 * modifier mask, the filtering of X events into library events, and the
 * window's flag, size, position and title operations.
 *
 * X events arrive as values of `XEvent` (what XNextEvent and
 * XLookupString would deliver); each X request the backend issues is
 * recorded in a ghost log of `XCall` values.
 */
module Xlib {
  import opened Zdl

  // ---- X keysyms the backend treats specially ----

  const XK_HYPER_L := 0xFFED
  const XK_HYPER_R := 0xFFEE

  /** The modifier bit a keysym stands for (the first switch of zdl_window_translate), or none. */
  function ModifierBit(ks: nat): Mask
  {
    match ks
      case 0xFFE1 => KEYMOD_LSHIFT  // XK_Shift_L
      case 0xFFE2 => KEYMOD_RSHIFT  // XK_Shift_R
      case 0xFFE3 => KEYMOD_LCTRL  // XK_Control_L
      case 0xFFE4 => KEYMOD_RCTRL  // XK_Control_R
      case 0xFFE9 => KEYMOD_LALT  // XK_Alt_L
      case 0xFFEA => KEYMOD_RALT  // XK_Alt_R
      case 0xFFEB => KEYMOD_LSUPER  // XK_Super_L
      case 0xFFEC => KEYMOD_RSUPER  // XK_Super_R
      case 0xFFED => KEYMOD_LHYPER  // XK_Hyper_L
      case 0xFFEE => KEYMOD_RHYPER  // XK_Hyper_R
      case 0xFFE7 => KEYMOD_LMETA  // XK_Meta_L
      case 0xFFE8 => KEYMOD_RMETA  // XK_Meta_R
      case 0xFF7F => KEYMOD_NUM  // XK_Num_Lock
      case 0xFFE5 => KEYMOD_CAPS  // XK_Caps_Lock
      case 0xFF14 => KEYMOD_SCROLL  // XK_Scroll_Lock
      case 0xFF7E => KEYMOD_MODE  // XK_Mode_switch
      case _ => KEYMOD_NONE
  }

  /** Each modifier key stands for exactly one of the sixteen single modifier bits. */
  lemma ModifierBitIsSingle(ks: nat)
    ensures ModifierBit(ks) == KEYMOD_NONE || ModifierBit(ks) in SINGLE_MODIFIERS
    ensures ModifierBit(ks) != KEYMOD_NONE <==> ks in {0xFFE1, 0xFFE2, 0xFFE3, 0xFFE4, 0xFFE5, 0xFFE7, 0xFFE8,
                                                      0xFFE9, 0xFFEA, 0xFFEB, 0xFFEC, 0xFFED, 0xFFEE,
                                                      0xFF7F, 0xFF14, 0xFF7E}
  {
  }

  /**
   * The library keysym of an X keysym (the table of zdl_window_translate),
   * or KEYSYM_UNKNOWN. Letters of either case, digits, keypad digits and
   * F1..F15 are contiguous runs on both sides; the rest is listed.
   */
  function XKeysym(ks: nat): (sym: int)
    ensures sym == KEYSYM_UNKNOWN || 0 <= sym <= KEYSYM_UNDO
  {
    if 0x41 <= ks <= 0x5A then KEYSYM_A + (ks - 0x41)
    else if 0x61 <= ks <= 0x7A then KEYSYM_A + (ks - 0x61)
    else if 0x30 <= ks <= 0x39 then KEYSYM_0 + (ks - 0x30)
    else if 0xFFB0 <= ks <= 0xFFB9 then KEYSYM_KEYPAD_0 + (ks - 0xFFB0)
    else if 0xFFBE <= ks <= 0xFFCC then KEYSYM_F1 + (ks - 0xFFBE)
    else ListedKeysym(ks)
  }

  /** The listed entries of the table. */
  function ListedKeysym(ks: nat): (sym: int)
    ensures sym == KEYSYM_UNKNOWN || 0 <= sym <= KEYSYM_UNDO
  {
    match ks
      case 0xFF08 => KEYSYM_BACKSPACE  // XK_BackSpace
      case 0xFF09 => KEYSYM_TAB  // XK_Tab
      case 0xFF0B => KEYSYM_CLEAR  // XK_Clear
      case 0xFF0D => KEYSYM_RETURN  // XK_Return
      case 0xFF13 => KEYSYM_PAUSE  // XK_Pause
      case 0xFF1B => KEYSYM_ESCAPE  // XK_Escape
      case 0x0020 => KEYSYM_SPACE  // XK_space
      case 0x0021 => KEYSYM_EXCLAIM  // XK_exclam
      case 0x0022 => KEYSYM_QUOTEDBL  // XK_quotedbl
      case 0x0023 => KEYSYM_HASH  // XK_numbersign
      case 0x0024 => KEYSYM_DOLLAR  // XK_dollar
      case 0x0026 => KEYSYM_AMPERSAND  // XK_ampersand
      case 0x0027 => KEYSYM_QUOTE  // XK_quoteright
      case 0x0028 => KEYSYM_LEFTPAREN  // XK_parenleft
      case 0x0029 => KEYSYM_RIGHTPAREN  // XK_parenright
      case 0x002A => KEYSYM_ASTERISK  // XK_asterisk
      case 0x002B => KEYSYM_PLUS  // XK_plus
      case 0x002C => KEYSYM_COMMA  // XK_comma
      case 0x002D => KEYSYM_MINUS  // XK_minus
      case 0x002E => KEYSYM_PERIOD  // XK_period
      case 0x002F => KEYSYM_SLASH  // XK_slash
      case 0x003A => KEYSYM_COLON  // XK_colon
      case 0x003B => KEYSYM_SEMICOLON  // XK_semicolon
      case 0x003C => KEYSYM_LESS  // XK_less
      case 0x003D => KEYSYM_EQUALS  // XK_equal
      case 0x003E => KEYSYM_GREATER  // XK_greater
      case 0x003F => KEYSYM_QUESTION  // XK_question
      case 0x0040 => KEYSYM_AT  // XK_at
      case 0x005B => KEYSYM_LEFTBRACKET  // XK_bracketleft
      case 0x005C => KEYSYM_BACKSLASH  // XK_backslash
      case 0x005D => KEYSYM_RIGHTBRACKET  // XK_bracketright
      case 0x005E => KEYSYM_CARET  // XK_asciicircum
      case 0x005F => KEYSYM_UNDERSCORE  // XK_underscore
      case 0x0060 => KEYSYM_BACKQUOTE  // XK_grave
      case 0xFFFF => KEYSYM_DELETE  // XK_Delete
      case 0xFFAE => KEYSYM_KEYPAD_PERIOD  // XK_KP_Decimal
      case 0xFFAF => KEYSYM_KEYPAD_DIVIDE  // XK_KP_Divide
      case 0xFFAA => KEYSYM_KEYPAD_MULTIPLY  // XK_KP_Multiply
      case 0xFFAD => KEYSYM_KEYPAD_MINUS  // XK_KP_Subtract
      case 0xFFAB => KEYSYM_KEYPAD_PLUS  // XK_KP_Add
      case 0xFF8D => KEYSYM_KEYPAD_ENTER  // XK_KP_Enter
      case 0xFFBD => KEYSYM_KEYPAD_EQUALS  // XK_KP_Equal
      case 0xFF52 => KEYSYM_UP  // XK_Up
      case 0xFF54 => KEYSYM_DOWN  // XK_Down
      case 0xFF53 => KEYSYM_RIGHT  // XK_Right
      case 0xFF51 => KEYSYM_LEFT  // XK_Left
      case 0xFF63 => KEYSYM_INSERT  // XK_Insert
      case 0xFF50 => KEYSYM_HOME  // XK_Home
      case 0xFF57 => KEYSYM_END  // XK_End
      case 0xFF55 => KEYSYM_PAGEUP  // XK_Page_Up
      case 0xFF56 => KEYSYM_PAGEDOWN  // XK_Page_Down
      case 0xFF7F => KEYSYM_NUMLOCK  // XK_Num_Lock
      case 0xFFE5 => KEYSYM_CAPSLOCK  // XK_Caps_Lock
      case 0xFF14 => KEYSYM_SCROLLLOCK  // XK_Scroll_Lock
      case 0xFFE2 => KEYSYM_RSHIFT  // XK_Shift_R
      case 0xFFE1 => KEYSYM_LSHIFT  // XK_Shift_L
      case 0xFFE4 => KEYSYM_RCTRL  // XK_Control_R
      case 0xFFE3 => KEYSYM_LCTRL  // XK_Control_L
      case 0xFFEA => KEYSYM_RALT  // XK_Alt_R
      case 0xFFE9 => KEYSYM_LALT  // XK_Alt_L
      case 0xFFE8 => KEYSYM_RMETA  // XK_Meta_R
      case 0xFFE7 => KEYSYM_LMETA  // XK_Meta_L
      case 0xFFEB => KEYSYM_LSUPER  // XK_Super_L
      case 0xFFEC => KEYSYM_RSUPER  // XK_Super_R
      case 0xFF7E => KEYSYM_MODE  // XK_Mode_switch
      case 0xFF6A => KEYSYM_HELP  // XK_Help
      case 0xFF61 => KEYSYM_PRINT  // XK_Print
      case 0xFF15 => KEYSYM_SYSREQ  // XK_Sys_Req
      case 0xFF6B => KEYSYM_BREAK  // XK_Break
      case 0xFF67 => KEYSYM_MENU  // XK_Menu
      case 0x20AC => KEYSYM_EURO  // XK_EuroSign
      case 0xFF65 => KEYSYM_UNDO  // XK_Undo
      case _ => KEYSYM_UNKNOWN
  }

  /**
   * Lower and upper case letters give the same symbol, and the X function
   * keys F1..F15 give the library's function keys with the same number.
   */
  lemma XKeysymCaseAndFunctionKeys()
    ensures forall lower: nat, upper: nat :: 0x41 <= upper <= 0x5A && lower == upper + 0x20 ==>
              XKeysym(lower) == XKeysym(upper) != KEYSYM_UNKNOWN
    ensures forall ks: nat :: 0xFFBE <= ks <= 0xFFCC ==>
              IsFunctionKey(XKeysym(ks)) && FunctionKeyNumber(XKeysym(ks)) == ks - 0xFFBD
  {
    forall lower: nat, upper: nat | 0x41 <= upper <= 0x5A && lower == upper + 0x20
      ensures XKeysym(lower) == XKeysym(upper) != KEYSYM_UNKNOWN
    {
      assert XKeysym(lower) == KEYSYM_A + (upper - 0x41);
    }
    FunctionKeysAreConsecutive();
  }

  // ---- window state ----

  /** The X requests the backend issues. */
  datatype XCall =
    | CreateNativeWindow(width: int, height: int, flags: Mask)
    | SetHints(width: int, height: int, flags: Mask)
    | MoveResizeWindow(x: int, y: int, width: int, height: int)
    | MoveWindow(target: int, x: int, y: int)
    | ResizeWindow(width: int, height: int)
    | DefineCursor(hidden: bool)
    | SendToRoot(keysym: nat, down: bool)
    | StoreName(name: string)
    | SetIconName(icon: string)
    | SwapBuffers
    | DestroyNativeWindow

  datatype Point = Point(x: int, y: int)
  datatype Rect = Rect(x: int, y: int, width: int, height: int)

  /**
   * Everything `struct zdl_window` holds that the backend reads or writes;
   * the display size is what XDisplayWidth/XDisplayHeight report.
   */
  datatype XState = XState(
    x: int, y: int, width: int, height: int,
    lastConfig: Point,
    masked: Rect,
    flags: Mask,
    lastMotion: Point,
    modifiers: Mask,
    window: int, wmDeleteWindow: int,
    displayWidth: int, displayHeight: int,
    calls: seq<XCall>)

  /** The X events `zdl_window_read_event` distinguishes, with the fields it reads. */
  datatype XEvent =
    | XKeyPress(keysym: nat)
    | XKeyRelease(keysym: nat)
    | XButtonPress(button: int, x: int, y: int)
    | XButtonRelease(button: int, x: int, y: int)
    | XMotion(x: int, y: int)
    | XEnter(x: int, y: int)
    | XLeave
      /** rootX/rootY: what XTranslateCoordinates reports for the window origin */
    | XConfigure(target: int, x: int, y: int, width: int, height: int, sendEvent: bool, rootX: int, rootY: int)
    | XExpose
    | XClientMessage(data0: int)
    | XOther(kind: int)

  // ---- key translation ----

  /**
   * `zdl_window_translate`: the mask is updated first; a keysym outside
   * the table is resent to the root window and gives no key record.
   * Keysyms from 0xff00 up carry no scancode or code point; below that
   * both are the keysym, truncated to their C widths.
   */
  function TranslateSpec(s: XState, down: bool, ks: nat): (r: (XState, Option<KeyInfo>))
    ensures r.0 == s.(modifiers := r.0.modifiers, calls := r.0.calls)
    ensures r.0.calls == s.calls || r.0.calls == s.calls + [SendToRoot(ks, down)]
    ensures r.1.Some? ==> r.1.value.scancode < 0x100 && r.1.value.unicode < 0x10000
  {
    var mods := UpdateModifiers(s.modifiers, down, ModifierBit(ks));
    var sym := XKeysym(ks);
    if sym == KEYSYM_UNKNOWN then (s.(modifiers := mods, calls := s.calls + [SendToRoot(ks, down)]), None)
    else
      var code := if ks >= 0xff00 then 0 else ks;
      (s.(modifiers := mods), Some(KeyInfo(sym, mods, code % 0x10000, code % 0x100)))
  }

  /**
   * Every key record emitted carries the updated mask; a keysym outside
   * the table is resent to the root window and gives no record.
   */
  lemma TranslateProperties(s: XState, down: bool, ks: nat)
    ensures var r := TranslateSpec(s, down, ks);
            r.0.modifiers == UpdateModifiers(s.modifiers, down, ModifierBit(ks)) &&
            (r.1.Some? ==> r.1.value.modifiers == r.0.modifiers && r.1.value.sym == XKeysym(ks)) &&
            (r.1.None? <==> XKeysym(ks) == KEYSYM_UNKNOWN) &&
            (r.1.None? ==> r.0.calls == s.calls + [SendToRoot(ks, down)]) &&
            (r.1.Some? ==> r.0.calls == s.calls)
  {
  }

  /** Keysyms from 0xff00 up give scancode and code point 0; below, both are the keysym. */
  lemma TranslateCodes(s: XState, down: bool, ks: nat)
    requires XKeysym(ks) != KEYSYM_UNKNOWN
    ensures var k := TranslateSpec(s, down, ks).1.value;
            (ks >= 0xff00 ==> k.scancode == 0 && k.unicode == 0) &&
            (ks < 0x100 ==> k.scancode == ks && k.unicode == ks) &&
            (ks < 0xff00 ==> k.unicode == ks && k.scancode == ks % 0x100)
  {
  }

  /** The Hyper keys update the mask, but the table lacks them, so no record is emitted. */
  lemma HyperKeysUpdateMaskButAreDropped(s: XState, down: bool)
    ensures var r := TranslateSpec(s, down, XK_HYPER_L);
            r.1.None? && (down ==> r.0.modifiers & KEYMOD_LHYPER != 0) && (!down ==> r.0.modifiers & KEYMOD_LHYPER == 0)
    ensures var r := TranslateSpec(s, down, XK_HYPER_R);
            r.1.None? && (down ==> r.0.modifiers & KEYMOD_RHYPER != 0) && (!down ==> r.0.modifiers & KEYMOD_RHYPER == 0)
  {
  }

  // ---- reading events ----

  /**
   * `zdl_window_read_event`: the new state and the event, or None where
   * the C function returns -1.
   */
  function ReadEventSpec(s: XState, e: XEvent): (r: (XState, Option<Event>))
    ensures r.0.flags == s.flags && r.0.masked == s.masked
    ensures r.0.window == s.window && r.0.wmDeleteWindow == s.wmDeleteWindow
    ensures r.1 == Some(Exit) <==> e.XClientMessage? && e.data0 == s.wmDeleteWindow
  {
    match e
    case XKeyPress(ks) =>
      var r := TranslateSpec(s, true, ks);
      (r.0, if r.1.Some? then Some(KeyPress(r.1.value)) else None)
    case XKeyRelease(ks) =>
      var r := TranslateSpec(s, false, ks);
      (r.0, if r.1.Some? then Some(KeyRelease(r.1.value)) else None)
    case XButtonPress(b, x, y) => (s, Some(ButtonPress(ButtonInfo(b, x, y, KEYMOD_NONE))))
    case XButtonRelease(b, x, y) => (s, Some(ButtonRelease(ButtonInfo(b, x, y, KEYMOD_NONE))))
    case XMotion(x, y) =>
      (s.(lastMotion := Point(x, y)),
       Some(Motion(MotionInfo(x, y, x - s.lastMotion.x, y - s.lastMotion.y, 0, 0))))
    case XEnter(x, y) => (s.(lastMotion := Point(x, y)), Some(GainFocus))
    case XLeave => (s, Some(LoseFocus))
    case XConfigure(target, x, y, width, height, sendEvent, rootX, rootY) =>
      ConfigureSpec(s, target, x, y, width, height, sendEvent, rootX, rootY)
    case XExpose => (s, Some(Expose))
    case XClientMessage(data0) => (s, if data0 == s.wmDeleteWindow then Some(Exit) else None)
    case XOther(_) => (s, None)
  }

  /**
   * ConfigureNotify: events for other windows and repeats of the last
   * geometry are dropped; a move records the new origin (the event's own
   * coordinates when it was sent by the window manager, otherwise the
   * translated root coordinates); only a size change is reported.
   */
  function ConfigureSpec(s: XState, target: int, x: int, y: int, width: int, height: int,
                         sendEvent: bool, rootX: int, rootY: int): (r: (XState, Option<Event>))
    ensures r.0 == s.(x := r.0.x, y := r.0.y, lastConfig := r.0.lastConfig, width := r.0.width, height := r.0.height)
    ensures r.1.Some? <==> target == s.window && (width != s.width || height != s.height)
    ensures r.1.Some? ==> r.1.value == Reconfigure(width, height) && r.0.width == width && r.0.height == height
  {
    if target != s.window then (s, None)
    else if width == s.width && height == s.height && x == s.lastConfig.x && y == s.lastConfig.y then (s, None)
    else
      var moved := x != s.lastConfig.x || y != s.lastConfig.y;
      var nx := if !moved then s.x else if sendEvent then x else rootX;
      var ny := if !moved then s.y else if sendEvent then y else rootY;
      var t := s.(x := nx, y := ny, lastConfig := Point(x, y), width := width, height := height);
      (t, if width == s.width && height == s.height then None else Some(Reconfigure(width, height)))
  }

  /**
   * A motion delta is measured from the last motion position, which the
   * motion then replaces; entering the window resets that position and
   * reports GAINFOCUS.
   */
  lemma MotionAndEnter(s: XState, ex: int, ey: int, x: int, y: int)
    ensures var r := ReadEventSpec(s, XMotion(x, y));
            r.1 == Some(Motion(MotionInfo(x, y, x - s.lastMotion.x, y - s.lastMotion.y, 0, 0))) &&
            r.0.lastMotion == Point(x, y)
    ensures var entered := ReadEventSpec(s, XEnter(ex, ey));
            entered.1 == Some(GainFocus) &&
            ReadEventSpec(entered.0, XMotion(x, y)).1.value.motion.dx == x - ex &&
            ReadEventSpec(entered.0, XMotion(x, y)).1.value.motion.dy == y - ey
  {
  }

  /**
   * ConfigureNotify filtering: another window's event is ignored; the same
   * size at the same position is ignored; a move alone updates x/y and
   * reports nothing; a size change is reported and stored.
   */
  lemma ConfigureFiltering(s: XState, target: int, x: int, y: int, width: int, height: int,
                           sendEvent: bool, rootX: int, rootY: int)
    ensures var r := ReadEventSpec(s, XConfigure(target, x, y, width, height, sendEvent, rootX, rootY));
            (target != s.window ==> r == (s, None)) &&
            ((target == s.window && width == s.width && height == s.height &&
              x == s.lastConfig.x && y == s.lastConfig.y) ==> r == (s, None)) &&
            ((target == s.window && width == s.width && height == s.height &&
              (x != s.lastConfig.x || y != s.lastConfig.y)) ==>
               r.1 == None && r.0.x == (if sendEvent then x else rootX) &&
               r.0.y == (if sendEvent then y else rootY) && r.0.lastConfig.x == x && r.0.lastConfig.y == y) &&
            (target == s.window && (width != s.width || height != s.height) ==>
               r.1 == Some(Reconfigure(width, height)) && r.0.width == width && r.0.height == height)
  {
  }

  /** The same ConfigureNotify read twice is reported at most once. */
  lemma ConfigureReportedOnce(s: XState, e: XEvent)
    requires e.XConfigure?
    ensures ReadEventSpec(ReadEventSpec(s, e).0, e).1 == None
  {
  }

  /** `zdl_window_wait_event`: read until an event is produced; None if the input runs out first. */
  function WaitSpec(s: XState, es: seq<XEvent>): (r: (XState, Option<Event>, nat))
    ensures r.2 <= |es|
    ensures r.1.None? ==> r.2 == |es|
    decreases |es|
  {
    if es == [] then (s, None, 0)
    else
      var r := ReadEventSpec(s, es[0]);
      if r.1.Some? then (r.0, r.1, 1)
      else
        var rest := WaitSpec(r.0, es[1..]);
        (rest.0, rest.1, rest.2 + 1)
  }

  /** The window state after reading every event of `es`, whatever records they give. */
  function ReadAll(s: XState, es: seq<XEvent>): XState
    decreases |es|
  {
    if es == [] then s else ReadAll(ReadEventSpec(s, es[0]).0, es[1..])
  }

  /** Reading the first `k` events is one read and then `k - 1` more. */
  lemma ReadAllPrefix(s: XState, es: seq<XEvent>, k: nat)
    requires 0 < k <= |es|
    ensures ReadAll(s, es[..k]) == ReadAll(ReadEventSpec(s, es[0]).0, es[1..][..k - 1])
  {
    assert es[..k][1..] == es[1..][..k - 1];
  }

  /** The first event either gives the record or is read on the way to it. */
  lemma WaitSpecStep(s: XState, es: seq<XEvent>)
    requires es != []
    ensures var t := ReadEventSpec(s, es[0]);
            var r := WaitSpec(s, es);
            if t.1.Some? then r.0 == t.0 && r.1 == t.1 && r.2 == 1
            else r.0 == WaitSpec(t.0, es[1..]).0 && r.1 == WaitSpec(t.0, es[1..]).1 &&
                 r.2 == WaitSpec(t.0, es[1..]).2 + 1
  {
  }

  /** Every event wait reads before the one that gives its record yields no record. */
  lemma {:induction false} WaitSkipsSilentEvents(s: XState, es: seq<XEvent>)
    ensures var r := WaitSpec(s, es);
            forall k :: 0 <= k < |es| && (if r.1.Some? then k < r.2 - 1 else k < r.2) ==>
              ReadEventSpec(ReadAll(s, es[..k]), es[k]).1.None?
    decreases |es|
  {
    if es != [] {
      WaitSpecStep(s, es);
      var t := ReadEventSpec(s, es[0]);
      if t.1.None? {
        assert es[..0] == [];
        WaitSkipsSilentEvents(t.0, es[1..]);
        var r := WaitSpec(s, es);
        forall k | 0 < k < |es| && (if r.1.Some? then k < r.2 - 1 else k < r.2)
          ensures ReadEventSpec(ReadAll(s, es[..k]), es[k]).1.None?
        {
          ReadAllPrefix(s, es, k);
          assert es[k] == es[1..][k - 1];
        }
      }
    }
  }

  /**
   * The record wait returns is that of its last event, read in the state
   * the events before it leave; so is the state afterwards.
   */
  lemma {:induction false} WaitRecordIsRead(s: XState, es: seq<XEvent>)
    ensures var r := WaitSpec(s, es);
            r.1.Some? ==> 1 <= r.2 && var t := ReadEventSpec(ReadAll(s, es[..r.2 - 1]), es[r.2 - 1]);
                          t.0 == r.0 && t.1 == r.1
    decreases |es|
  {
    if es != [] {
      WaitSpecStep(s, es);
      var t := ReadEventSpec(s, es[0]);
      if t.1.None? {
        WaitRecordIsRead(t.0, es[1..]);
        var rest := WaitSpec(t.0, es[1..]);
        if rest.1.Some? {
          ReadAllPrefix(s, es, rest.2);
          assert es[rest.2] == es[1..][rest.2 - 1];
        }
      } else {
        assert es[..0] == [];
      }
    }
  }

  /** A wait that runs out of events leaves the state all of them leave. */
  lemma {:induction false} WaitWithoutRecordState(s: XState, es: seq<XEvent>)
    ensures var r := WaitSpec(s, es);
            r.1.None? ==> r.0 == ReadAll(s, es)
    decreases |es|
  {
    if es != [] {
      WaitSpecStep(s, es);
      if ReadEventSpec(s, es[0]).1.None? {
        WaitWithoutRecordState(ReadEventSpec(s, es[0]).0, es[1..]);
      }
    }
  }

  // ---- flags and geometry ----

  /**
   * The changes `zdl_window_set_flags` still has to apply after a
   * fullscreen change, which absorbs any NORESIZE or NODECOR change.
   */
  function PendingChanges(current: Mask, flags: Mask): Mask
  {
    var changed := flags ^ current;
    if changed & FLAG_FULLSCREEN != 0 then changed & !(FLAG_NORESIZE | FLAG_NODECOR) else changed
  }

  /** Entering fullscreen saves the geometry and covers the display; leaving restores the masked geometry. */
  function FullscreenStep(s: XState, flags: Mask): (t: XState)
    ensures t.x == s.x && t.y == s.y && t.flags == s.flags && t.modifiers == s.modifiers && t.lastMotion == s.lastMotion
    ensures |t.calls| >= |s.calls| && t.calls[..|s.calls|] == s.calls
  {
    if (flags ^ s.flags) & FLAG_FULLSCREEN == 0 then s
    else if flags & FLAG_FULLSCREEN != 0 then
      s.(masked := Rect(s.x, s.y, s.width, s.height),
         width := s.displayWidth, height := s.displayHeight,
         calls := s.calls + [SetHints(s.displayWidth, s.displayHeight, flags),
                             MoveResizeWindow(0, 0, s.displayWidth, s.displayHeight)])
    else
      s.(width := s.masked.width, height := s.masked.height,
         calls := s.calls + [SetHints(s.masked.width, s.masked.height, flags),
                             MoveResizeWindow(s.masked.x, s.masked.y, s.masked.width, s.masked.height)])
  }

  /** A NORESIZE or NODECOR change updates the hints and remaps the window in place. */
  function HintsStep(s: XState, pending: Mask, flags: Mask): (t: XState)
    ensures t.x == s.x && t.y == s.y && t.flags == s.flags && t.modifiers == s.modifiers && t.lastMotion == s.lastMotion
    ensures |t.calls| >= |s.calls| && t.calls[..|s.calls|] == s.calls
  {
    if pending & (FLAG_NORESIZE | FLAG_NODECOR) != 0 then
      s.(calls := s.calls + [SetHints(s.width, s.height, flags), MoveWindow(s.window, s.x, s.y)])
    else s
  }

  /** A NOCURSOR change hides or restores the cursor. */
  function CursorStep(s: XState, pending: Mask, flags: Mask): (t: XState)
    ensures t.x == s.x && t.y == s.y && t.flags == s.flags && t.modifiers == s.modifiers && t.lastMotion == s.lastMotion
    ensures |t.calls| >= |s.calls| && t.calls[..|s.calls|] == s.calls
  {
    if pending & FLAG_NOCURSOR != 0 then s.(calls := s.calls + [DefineCursor(flags & FLAG_NOCURSOR != 0)])
    else s
  }

  /** `zdl_window_set_flags`. */
  function SetFlagsSpec(s: XState, flags: Mask): (t: XState)
    ensures t.flags == flags
    ensures t.x == s.x && t.y == s.y && t.modifiers == s.modifiers && t.lastMotion == s.lastMotion
    ensures |t.calls| >= |s.calls| && t.calls[..|s.calls|] == s.calls
  {
    var pending := PendingChanges(s.flags, flags);
    CursorStep(HintsStep(FullscreenStep(s, flags), pending, flags), pending, flags).(flags := flags)
  }

  /** Setting the current flags changes nothing and makes no X request. */
  lemma SetFlagsUnchanged(s: XState)
    ensures SetFlagsSpec(s, s.flags) == s
  {
  }

  /**
   * Entering fullscreen saves the position and size into the masked
   * geometry and covers the display; leaving restores the masked size,
   * so windowed -> fullscreen -> windowed gives back the windowed size.
   * The live x/y are not updated by either step.
   */
  lemma FullscreenRoundTrip(s: XState)
    requires s.flags & FLAG_FULLSCREEN == 0
    ensures var fs := SetFlagsSpec(s, s.flags | FLAG_FULLSCREEN);
            fs.masked.x == s.x && fs.masked.y == s.y && fs.masked.width == s.width && fs.masked.height == s.height &&
            fs.width == s.displayWidth && fs.height == s.displayHeight && fs.x == s.x && fs.y == s.y
    ensures var back := SetFlagsSpec(SetFlagsSpec(s, s.flags | FLAG_FULLSCREEN), s.flags);
            back.width == s.width && back.height == s.height && back.x == s.x && back.y == s.y &&
            back.flags == s.flags &&
            back.calls[|back.calls| - 1] == MoveResizeWindow(s.x, s.y, s.width, s.height)
  {
  }

  /**
   * A NORESIZE or NODECOR change that comes with a fullscreen change is
   * folded into it: one hints update and one move-resize, nothing more.
   */
  lemma DecorationChangeFoldedIntoFullscreen(s: XState, flags: Mask)
    requires (flags ^ s.flags) & FLAG_FULLSCREEN != 0
    requires (flags ^ s.flags) & FLAG_NOCURSOR == 0
    ensures |SetFlagsSpec(s, flags).calls| == |s.calls| + 2
    ensures SetFlagsSpec(s, flags).calls[|s.calls|].SetHints?
    ensures SetFlagsSpec(s, flags).calls[|s.calls| + 1].MoveResizeWindow?
  {
  }

  /** `zdl_window_set_size`. */
  function SetSizeSpec(s: XState, width: int, height: int): (t: XState)
    ensures t.x == s.x && t.y == s.y && t.flags == s.flags
    ensures s.flags & FLAG_FULLSCREEN == 0 ==> t.width == width && t.height == height
    ensures s.flags & FLAG_FULLSCREEN != 0 ==> t.width == s.width && t.height == s.height && t.calls == s.calls
  {
    if width == s.width && height == s.height then s
    else if s.flags & FLAG_FULLSCREEN == 0 then
      s.(width := width, height := height, calls := s.calls + [ResizeWindow(width, height)])
    else
      s.(masked := s.masked.(width := width, height := height))
  }

  /** `zdl_window_set_position`, moving this window to the new position. */
  function SetPositionSpec(s: XState, x: int, y: int): (t: XState)
    ensures t.width == s.width && t.height == s.height && t.flags == s.flags
    ensures s.flags & FLAG_FULLSCREEN == 0 ==> t.x == x && t.y == y
    ensures s.flags & FLAG_FULLSCREEN != 0 ==> t.x == s.x && t.y == s.y && t.calls == s.calls
    ensures t.calls == s.calls || t.calls == s.calls + [MoveWindow(s.window, x, y)]
  {
    if x == s.x && y == s.y then s
    else if s.flags & FLAG_FULLSCREEN == 0 then
      s.(x := x, y := y, calls := s.calls + [MoveWindow(s.window, x, y)])
    else
      s.(masked := s.masked.(x := x, y := y))
  }

  /**
   * `zdl_window_set_position` as the source writes it: the request is
   * `XMoveWindow(display, w->x, w->y, w->height)`, naming the new x as the
   * window and moving that to (y, height).
   */
  function SetPositionAsWritten(s: XState, x: int, y: int): (t: XState)
    ensures t == SetPositionSpec(s, x, y).(calls := t.calls)
    ensures t.calls == s.calls || t.calls == s.calls + [MoveWindow(x, y, s.height)]
  {
    if x == s.x && y == s.y then s
    else if s.flags & FLAG_FULLSCREEN == 0 then
      s.(x := x, y := y, calls := s.calls + [MoveWindow(x, y, s.height)])
    else
      s.(masked := s.masked.(x := x, y := y))
  }

  /**
   * The request the source sends does not move this window to (x, y):
   * unless the new x happens to equal the window id, it targets another
   * window; and even then it moves to (y, height).
   */
  lemma SetPositionAsWrittenMissesWindow(s: XState, x: int, y: int)
    requires s.flags & FLAG_FULLSCREEN == 0 && (x != s.x || y != s.y)
    requires x != s.window || y != x || s.height != y
    ensures var t := SetPositionAsWritten(s, x, y);
            t.x == x && t.y == y && t.calls[|t.calls| - 1] != MoveWindow(s.window, x, y)
  {
  }

  /** A concrete case: a window with id 0x400001 at (0, 0), asked to move to (10, 20). */
  lemma SetPositionAsWrittenExample(s: XState)
    requires s.window == 0x400001 && s.x == 0 && s.y == 0 && s.height == 480 && s.flags == FLAG_NONE
    ensures SetPositionAsWritten(s, 10, 20).calls == s.calls + [MoveWindow(10, 20, 480)]
    ensures SetPositionSpec(s, 10, 20).calls == s.calls + [MoveWindow(0x400001, 10, 20)]
  {
  }

  /**
   * Size and position requests equal to the current values are no-ops;
   * while windowed they move or resize the window; while fullscreen they
   * only write the masked geometry and issue no request.
   */
  lemma GeometryRequests(s: XState, a: int, b: int)
    ensures a == s.width && b == s.height ==> SetSizeSpec(s, a, b) == s
    ensures a == s.x && b == s.y ==> SetPositionSpec(s, a, b) == s
    ensures s.flags & FLAG_FULLSCREEN != 0 && (a != s.width || b != s.height) ==>
              SetSizeSpec(s, a, b) == s.(masked := s.masked.(width := a, height := b))
    ensures s.flags & FLAG_FULLSCREEN != 0 && (a != s.x || b != s.y) ==>
              SetPositionSpec(s, a, b) == s.(masked := s.masked.(x := a, y := b))
    ensures s.flags & FLAG_FULLSCREEN == 0 && (a != s.x || b != s.y) ==>
              var t := SetPositionSpec(s, a, b);
              t.x == a && t.y == b && t.calls == s.calls + [MoveWindow(s.window, a, b)]
    ensures s.flags & FLAG_FULLSCREEN == 0 && (a != s.width || b != s.height) ==>
              var t := SetSizeSpec(s, a, b);
              t.width == a && t.height == b && t.calls == s.calls + [ResizeWindow(a, b)]
  {
  }

  /** A size set while fullscreen is the size restored on leaving it. */
  lemma SizeSetWhileFullscreenIsRestored(s: XState, width: int, height: int)
    requires s.flags & FLAG_FULLSCREEN != 0
    requires width != s.width || height != s.height
    ensures var back := SetFlagsSpec(SetSizeSpec(s, width, height), s.flags & !FLAG_FULLSCREEN);
            back.width == width && back.height == height
  {
  }

  /** `zdl_window_set_title`: both names are sent, a missing one taking the other's value. */
  function SetTitleSpec(s: XState, icon: Option<string>, name: Option<string>): XState
  {
    match ResolveTitle(icon, name)
    case None => s
    case Some(names) => s.(calls := s.calls + [StoreName(names.1), SetIconName(names.0)])
  }

  lemma SetTitleDefaults(s: XState, icon: Option<string>, name: Option<string>)
    ensures icon.None? && name.None? ==> SetTitleSpec(s, icon, name) == s
    ensures icon.Some? && name.None? ==>
              SetTitleSpec(s, icon, name).calls == s.calls + [StoreName(icon.value), SetIconName(icon.value)]
    ensures icon.None? && name.Some? ==>
              SetTitleSpec(s, icon, name).calls == s.calls + [StoreName(name.value), SetIconName(name.value)]
  {
  }

  /**
   * The state `zdl_window_create` leaves when the display opens and the
   * native window is created. The flags are stored without NOCURSOR
   * before `set_flags` runs, so that call only applies the cursor.
   */
  function CreateSpec(width: int, height: int, flags: Mask, window: int, wmDeleteWindow: int,
                      displayWidth: int, displayHeight: int): (s: XState)
    ensures s.window == window && s.wmDeleteWindow == wmDeleteWindow && s.modifiers == KEYMOD_NONE
    ensures |s.calls| >= 1 && s.calls[0].CreateNativeWindow? && s.calls[0].flags == flags
  {
    SetFlagsSpec(CreatedState(width, height, flags, window, wmDeleteWindow, displayWidth, displayHeight), flags)
  }

  /** The state just before `zdl_window_create` calls `set_flags`. */
  function CreatedState(width: int, height: int, flags: Mask, window: int, wmDeleteWindow: int,
                        displayWidth: int, displayHeight: int): XState
  {
    var fs := flags & FLAG_FULLSCREEN != 0;
    var liveWidth := if fs then displayWidth else width;
    var liveHeight := if fs then displayHeight else height;
    XState(0, 0, liveWidth, liveHeight, Point(0, 0),
           Rect(0, 0, if fs then width else 0, if fs then height else 0),
           flags & !FLAG_NOCURSOR, Point(0, 0), KEYMOD_NONE, window, wmDeleteWindow,
           displayWidth, displayHeight, [CreateNativeWindow(liveWidth, liveHeight, flags)])
  }

  /**
   * A window created fullscreen covers the display and remembers the
   * requested size as its masked size; the flags end up as requested and
   * the only request after creating the window is the cursor one.
   */
  lemma CreateProperties(width: int, height: int, flags: Mask, window: int, wmDeleteWindow: int,
                         displayWidth: int, displayHeight: int)
    ensures var s := CreateSpec(width, height, flags, window, wmDeleteWindow, displayWidth, displayHeight);
            s.flags == flags &&
            (flags & FLAG_FULLSCREEN != 0 ==>
               s.width == displayWidth && s.height == displayHeight &&
               s.masked.width == width && s.masked.height == height) &&
            (flags & FLAG_FULLSCREEN == 0 ==> s.width == width && s.height == height) &&
            s.calls[1..] == (if flags & FLAG_NOCURSOR != 0 then [DefineCursor(true)] else [])
  {
  }

  // ---- the window object ----

  class XlibWindow {
    var x: int
    var y: int
    var width: int
    var height: int
    var lastConfig: Point
    var masked: Rect
    var flags: Mask
    var lastMotion: Point
    var modifiers: Mask
    const window: int
    const wmDeleteWindow: int
    const displayWidth: int
    const displayHeight: int
    ghost var calls: seq<XCall>

    ghost function State(): XState
      reads this
    {
      XState(x, y, width, height, lastConfig, masked, flags, lastMotion, modifiers, window, wmDeleteWindow,
             displayWidth, displayHeight, calls)
    }

    /** The zero-filled window with its display, window and atom in place. */
    constructor (window: int, wmDeleteWindow: int, displayWidth: int, displayHeight: int)
      ensures State() == XState(0, 0, 0, 0, Point(0, 0), Rect(0, 0, 0, 0), FLAG_NONE, Point(0, 0), KEYMOD_NONE,
                                window, wmDeleteWindow, displayWidth, displayHeight, [])
    {
      x, y, width, height := 0, 0, 0, 0;
      lastConfig := Point(0, 0);
      masked := Rect(0, 0, 0, 0);
      flags := FLAG_NONE;
      lastMotion := Point(0, 0);
      modifiers := KEYMOD_NONE;
      this.window := window;
      this.wmDeleteWindow := wmDeleteWindow;
      this.displayWidth := displayWidth;
      this.displayHeight := displayHeight;
      calls := [];
    }

    /** `zdl_window_translate` */
    method Translate(down: bool, ks: nat) returns (key: Option<KeyInfo>)
      modifies this
      ensures (State(), key) == TranslateSpec(old(State()), down, ks)
    {
      modifiers := UpdateModifiers(modifiers, down, ModifierBit(ks));
      var sym := XKeysym(ks);
      if sym == KEYSYM_UNKNOWN {
        calls := calls + [SendToRoot(ks, down)];
        return None;
      }
      var code := if ks >= 0xff00 then 0 else ks;
      key := Some(KeyInfo(sym, modifiers, code % 0x10000, code % 0x100));
    }

    /** The ConfigureNotify branch of `zdl_window_read_event`. */
    method Configure(target: int, cx: int, cy: int, cw: int, ch: int, sendEvent: bool, rootX: int, rootY: int)
      returns (ev: Option<Event>)
      modifies this
      ensures (State(), ev) == ConfigureSpec(old(State()), target, cx, cy, cw, ch, sendEvent, rootX, rootY)
    {
      if target != window {
        return None;
      }
      if cw == width && ch == height && cx == lastConfig.x && cy == lastConfig.y {
        return None;
      }
      if cx != lastConfig.x || cy != lastConfig.y {
        if !sendEvent {
          x, y := rootX, rootY;
        } else {
          x, y := cx, cy;
        }
      }
      lastConfig := Point(cx, cy);
      ev := if cw == width && ch == height then None else Some(Reconfigure(cw, ch));
      width, height := cw, ch;
    }

    /** `zdl_window_read_event` for one X event. */
    method ReadEvent(e: XEvent) returns (ev: Option<Event>)
      modifies this
      ensures (State(), ev) == ReadEventSpec(old(State()), e)
    {
      match e
      case XKeyPress(ks) =>
        var key := Translate(true, ks);
        ev := if key.Some? then Some(KeyPress(key.value)) else None;
      case XKeyRelease(ks) =>
        var key := Translate(false, ks);
        ev := if key.Some? then Some(KeyRelease(key.value)) else None;
      case XButtonPress(b, px, py) =>
        ev := Some(ButtonPress(ButtonInfo(b, px, py, KEYMOD_NONE)));
      case XButtonRelease(b, px, py) =>
        ev := Some(ButtonRelease(ButtonInfo(b, px, py, KEYMOD_NONE)));
      case XMotion(mx, my) =>
        ev := Some(Motion(MotionInfo(mx, my, mx - lastMotion.x, my - lastMotion.y, 0, 0)));
        lastMotion := Point(mx, my);
      case XEnter(ex, ey) =>
        ev := Some(GainFocus);
        lastMotion := Point(ex, ey);
      case XLeave =>
        ev := Some(LoseFocus);
      case XConfigure(target, cx, cy, cw, ch, sendEvent, rootX, rootY) =>
        ev := Configure(target, cx, cy, cw, ch, sendEvent, rootX, rootY);
      case XExpose =>
        ev := Some(Expose);
      case XClientMessage(data0) =>
        ev := if data0 == wmDeleteWindow then Some(Exit) else None;
      case XOther(_) =>
        ev := None;
    }

    /** `zdl_window_poll_event`: -1 (None) without reading when nothing is pending. */
    method PollEvent(pending: Option<XEvent>) returns (rc: int, ev: Option<Event>)
      modifies this
      ensures pending.None? ==> rc == -1 && ev == None && State() == old(State())
      ensures pending.Some? ==> (State(), ev) == ReadEventSpec(old(State()), pending.value)
      ensures rc == 0 <==> ev.Some?
      ensures rc == 0 || rc == -1
    {
      if pending.None? {
        return -1, None;
      }
      ev := ReadEvent(pending.value);
      rc := if ev.Some? then 0 else -1;
    }

    /** `zdl_window_wait_event`: reads until an event is produced. */
    method WaitEvent(events: seq<XEvent>) returns (ev: Option<Event>, used: nat)
      modifies this
      ensures (State(), ev, used) == WaitSpec(old(State()), events)
    {
      ghost var s0 := State();
      ev, used := None, 0;
      while used < |events|
        invariant 0 <= used <= |events|
        invariant var r := WaitSpec(State(), events[used..]);
                  WaitSpec(s0, events) == (r.0, r.1, r.2 + used)
        invariant ev == None
      {
        assert events[used..][1..] == events[used + 1..];
        ev := ReadEvent(events[used]);
        used := used + 1;
        if ev.Some? {
          return;
        }
      }
    }

    /** The fullscreen part of `zdl_window_set_flags`. */
    method ApplyFullscreen(newFlags: Mask)
      modifies this
      ensures State() == FullscreenStep(old(State()), newFlags)
    {
      if (newFlags ^ flags) & FLAG_FULLSCREEN == 0 {
        return;
      }
      var nx, ny, nw, nh;
      if newFlags & FLAG_FULLSCREEN != 0 {
        masked := Rect(x, y, width, height);
        nx, ny, nw, nh := 0, 0, displayWidth, displayHeight;
      } else {
        nx, ny, nw, nh := masked.x, masked.y, masked.width, masked.height;
      }
      calls := calls + [SetHints(nw, nh, newFlags), MoveResizeWindow(nx, ny, nw, nh)];
      width, height := nw, nh;
    }

    /** `zdl_window_set_flags` */
    method SetFlags(newFlags: Mask)
      modifies this
      ensures State() == SetFlagsSpec(old(State()), newFlags)
    {
      var changed := PendingChanges(flags, newFlags);
      ApplyFullscreen(newFlags);
      if changed & (FLAG_NORESIZE | FLAG_NODECOR) != 0 {
        calls := calls + [SetHints(width, height, newFlags), MoveWindow(window, x, y)];
      }
      if changed & FLAG_NOCURSOR != 0 {
        calls := calls + [DefineCursor(newFlags & FLAG_NOCURSOR != 0)];
      }
      flags := newFlags;
    }

    /** `zdl_window_get_flags` */
    method GetFlags() returns (r: Mask)
      ensures r == flags
    {
      r := flags;
    }

    /** `zdl_window_set_size` */
    method SetSize(w: int, h: int)
      modifies this
      ensures State() == SetSizeSpec(old(State()), w, h)
    {
      if w == width && h == height {
        return;
      }
      if flags & FLAG_FULLSCREEN == 0 {
        width, height := w, h;
        calls := calls + [ResizeWindow(width, height)];
      } else {
        masked := masked.(width := w, height := h);
      }
    }

    /** `zdl_window_set_position`, with the move request addressed to this window. */
    method SetPosition(px: int, py: int)
      modifies this
      ensures State() == SetPositionSpec(old(State()), px, py)
    {
      if px == x && py == y {
        return;
      }
      if flags & FLAG_FULLSCREEN == 0 {
        x, y := px, py;
        calls := calls + [MoveWindow(window, x, y)];
      } else {
        masked := masked.(x := px, y := py);
      }
    }

    /** `zdl_window_get_size` */
    method GetSize() returns (w: int, h: int)
      ensures w == width && h == height
    {
      w, h := width, height;
    }

    /** `zdl_window_get_position` */
    method GetPosition() returns (px: int, py: int)
      ensures px == x && py == y
    {
      px, py := x, y;
    }

    /** `zdl_window_swap`: presents the back buffer. */
    method Swap()
      modifies this
      ensures State() == old(State()).(calls := old(calls) + [SwapBuffers])
    {
      calls := calls + [SwapBuffers];
    }

    /** `zdl_window_destroy`: releases the colormap, window, context and display. */
    method Destroy()
      modifies this
      ensures State() == old(State()).(calls := old(calls) + [DestroyNativeWindow])
    {
      calls := calls + [DestroyNativeWindow];
    }

    /** `zdl_window_set_title` */
    method SetTitle(icon: Option<string>, name: Option<string>)
      modifies this
      ensures State() == SetTitleSpec(old(State()), icon, name)
    {
      if icon.None? && name.None? {
        return;
      }
      var n := if name.Some? then name.value else icon.value;
      var i := if icon.Some? then icon.value else name.value;
      calls := calls + [StoreName(n), SetIconName(i)];
    }
  }

  /**
   * `zdl_window_create`: null when the record cannot be allocated
   * (`allocOk` false), the display cannot be opened or the native window
   * cannot be created; otherwise a window in the state CreateSpec
   * describes.
   */
  method CreateWindow(width: int, height: int, flags: Mask, allocOk: bool, displayOpened: bool, configured: bool,
                      window: int, wmDeleteWindow: int, displayWidth: int, displayHeight: int)
    returns (w: XlibWindow?)
    ensures w == null <==> !allocOk || !displayOpened || !configured
    ensures w != null ==> fresh(w)
    ensures w != null ==> w.State() == CreateSpec(width, height, flags, window, wmDeleteWindow, displayWidth, displayHeight)
  {
    if !allocOk || !displayOpened {
      return null;
    }
    w := new XlibWindow(window, wmDeleteWindow, displayWidth, displayHeight);
    w.width, w.height := width, height;
    w.flags := flags & !FLAG_NOCURSOR;
    if flags & FLAG_FULLSCREEN != 0 {
      w.masked := w.masked.(width := w.width, height := w.height);
      w.width, w.height := displayWidth, displayHeight;
    }
    if !configured {
      return null;
    }
    w.calls := w.calls + [CreateNativeWindow(w.width, w.height, flags)];
    assert w.State() == CreatedState(width, height, flags, window, wmDeleteWindow, displayWidth, displayHeight);
    w.SetFlags(flags);
  }
}
