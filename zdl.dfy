/**
 * The public vocabulary shared by every backend (zdl.h): the modifier
 * bitmask, the key symbols, the event record, the window flags and the
 * invalid window handle.
 *
 * Some names the backends use are not declared in zdl.h (window flags,
 * motion identifiers and flags, the motion `id`/`flags` fields, the button
 * `modifiers` field, the clipboard types and KEYSYM_PERCENT); this module
 * gives them fixed values of its own, listed in README.md.
 */
module Zdl {

  datatype Option<T> = None | Some(value: T)

  /** An `unsigned int` bit set: modifier masks and window flags. */
  type Mask = bv32

  // ---- enum zdl_keymod ----

  const KEYMOD_NONE: Mask := 0
  const KEYMOD_LSHIFT: Mask := 1 << 0
  const KEYMOD_RSHIFT: Mask := 1 << 1
  const KEYMOD_LCTRL: Mask := 1 << 6
  const KEYMOD_RCTRL: Mask := 1 << 7
  const KEYMOD_LALT: Mask := 1 << 8
  const KEYMOD_RALT: Mask := 1 << 9
  const KEYMOD_LSUPER: Mask := 1 << 10
  const KEYMOD_RSUPER: Mask := 1 << 11
  const KEYMOD_LHYPER: Mask := 1 << 12
  const KEYMOD_RHYPER: Mask := 1 << 13
  const KEYMOD_LMETA: Mask := 1 << 14
  const KEYMOD_RMETA: Mask := 1 << 15
  const KEYMOD_NUM: Mask := 1 << 16
  const KEYMOD_CAPS: Mask := 1 << 17
  const KEYMOD_SCROLL: Mask := 1 << 18
  const KEYMOD_MODE: Mask := 1 << 19

  const KEYMOD_CTRL: Mask := KEYMOD_LCTRL | KEYMOD_RCTRL
  const KEYMOD_SHIFT: Mask := KEYMOD_LSHIFT | KEYMOD_RSHIFT
  const KEYMOD_ALT: Mask := KEYMOD_LALT | KEYMOD_RALT
  const KEYMOD_META: Mask := KEYMOD_LMETA | KEYMOD_RMETA
  const KEYMOD_SUPER: Mask := KEYMOD_LSUPER | KEYMOD_RSUPER
  const KEYMOD_HYPER: Mask := KEYMOD_LHYPER | KEYMOD_RHYPER

  /** The sixteen single-key modifiers, in declaration order. */
  const SINGLE_MODIFIERS: seq<Mask> := [
    KEYMOD_LSHIFT, KEYMOD_RSHIFT, KEYMOD_LCTRL, KEYMOD_RCTRL,
    KEYMOD_LALT, KEYMOD_RALT, KEYMOD_LSUPER, KEYMOD_RSUPER,
    KEYMOD_LHYPER, KEYMOD_RHYPER, KEYMOD_LMETA, KEYMOD_RMETA,
    KEYMOD_NUM, KEYMOD_CAPS, KEYMOD_SCROLL, KEYMOD_MODE
  ]

  predicate IsSingleBit(m: Mask) {
    m != 0 && m & (m - 1) == 0
  }

  /** Each single modifier is its own bit, and NONE holds no bit. */
  lemma SingleModifiersAreDistinctBits()
    ensures KEYMOD_NONE == 0
    ensures |SINGLE_MODIFIERS| == 16
    ensures forall i :: 0 <= i < |SINGLE_MODIFIERS| ==> IsSingleBit(SINGLE_MODIFIERS[i])
    ensures forall i, j :: 0 <= i < j < |SINGLE_MODIFIERS| ==>
              SINGLE_MODIFIERS[i] & SINGLE_MODIFIERS[j] == 0
  {
  }

  /**
   * A combined mask covers exactly its two halves: a single modifier
   * meets it only when it is the left or the right half, and a mask meets
   * it exactly when it meets one of the halves.
   */
  lemma CombinedMasksAreUnions(m: Mask)
    ensures forall i :: 0 <= i < |SINGLE_MODIFIERS| ==>
              (SINGLE_MODIFIERS[i] & KEYMOD_SHIFT != 0 <==>
                 SINGLE_MODIFIERS[i] == KEYMOD_LSHIFT || SINGLE_MODIFIERS[i] == KEYMOD_RSHIFT)
    ensures forall i :: 0 <= i < |SINGLE_MODIFIERS| ==>
              (SINGLE_MODIFIERS[i] & KEYMOD_CTRL != 0 <==>
                 SINGLE_MODIFIERS[i] == KEYMOD_LCTRL || SINGLE_MODIFIERS[i] == KEYMOD_RCTRL)
    ensures forall i :: 0 <= i < |SINGLE_MODIFIERS| ==>
              (SINGLE_MODIFIERS[i] & KEYMOD_ALT != 0 <==>
                 SINGLE_MODIFIERS[i] == KEYMOD_LALT || SINGLE_MODIFIERS[i] == KEYMOD_RALT)
    ensures forall i :: 0 <= i < |SINGLE_MODIFIERS| ==>
              (SINGLE_MODIFIERS[i] & KEYMOD_META != 0 <==>
                 SINGLE_MODIFIERS[i] == KEYMOD_LMETA || SINGLE_MODIFIERS[i] == KEYMOD_RMETA)
    ensures forall i :: 0 <= i < |SINGLE_MODIFIERS| ==>
              (SINGLE_MODIFIERS[i] & KEYMOD_SUPER != 0 <==>
                 SINGLE_MODIFIERS[i] == KEYMOD_LSUPER || SINGLE_MODIFIERS[i] == KEYMOD_RSUPER)
    ensures forall i :: 0 <= i < |SINGLE_MODIFIERS| ==>
              (SINGLE_MODIFIERS[i] & KEYMOD_HYPER != 0 <==>
                 SINGLE_MODIFIERS[i] == KEYMOD_LHYPER || SINGLE_MODIFIERS[i] == KEYMOD_RHYPER)
    ensures m & KEYMOD_SHIFT != 0 <==> m & KEYMOD_LSHIFT != 0 || m & KEYMOD_RSHIFT != 0
    ensures m & KEYMOD_CTRL != 0 <==> m & KEYMOD_LCTRL != 0 || m & KEYMOD_RCTRL != 0
    ensures m & KEYMOD_ALT != 0 <==> m & KEYMOD_LALT != 0 || m & KEYMOD_RALT != 0
    ensures m & KEYMOD_META != 0 <==> m & KEYMOD_LMETA != 0 || m & KEYMOD_RMETA != 0
    ensures m & KEYMOD_SUPER != 0 <==> m & KEYMOD_LSUPER != 0 || m & KEYMOD_RSUPER != 0
    ensures m & KEYMOD_HYPER != 0 <==> m & KEYMOD_LHYPER != 0 || m & KEYMOD_RHYPER != 0
  {
  }

  /**
   * How a backend that tracks modifier keys updates its mask: a press sets
   * the key's modifier bits, a release clears them.
   */
  function UpdateModifiers(mods: Mask, down: bool, bits: Mask): Mask
  {
    if down then mods | bits else mods & !bits
  }

  /**
   * A press sets the key's modifier bits and a release clears them; the
   * other bits of the mask are left as they were.
   */
  lemma UpdateModifiersTouchesOnlyItsBits(mods: Mask, down: bool, bits: Mask)
    ensures down ==> UpdateModifiers(mods, down, bits) & bits == bits
    ensures !down ==> UpdateModifiers(mods, down, bits) & bits == 0
    ensures UpdateModifiers(mods, down, bits) & !bits == mods & !bits
  {
  }

  /** A key with no modifier bits leaves the mask as it was. */
  lemma UpdateWithoutBits(mods: Mask, down: bool)
    ensures UpdateModifiers(mods, down, KEYMOD_NONE) == mods
  {
  }

  /** A release changes the mask exactly when one of its bits was held. */
  lemma ReleaseChangesMask(mods: Mask, bits: Mask)
    ensures UpdateModifiers(mods, false, bits) == mods & !bits
    ensures UpdateModifiers(mods, false, bits) == mods <==> mods & bits == 0
  {
  }

  // ---- enum zdl_keysym (ordinal values, in declaration order) ----

  const KEYSYM_BACKSPACE := 0
  const KEYSYM_TAB := 1
  const KEYSYM_CLEAR := 2
  const KEYSYM_RETURN := 3
  const KEYSYM_PAUSE := 4
  const KEYSYM_ESCAPE := 5
  const KEYSYM_SPACE := 6
  const KEYSYM_EXCLAIM := 7
  const KEYSYM_QUOTEDBL := 8
  const KEYSYM_HASH := 9
  const KEYSYM_DOLLAR := 10
  const KEYSYM_AMPERSAND := 11
  const KEYSYM_QUOTE := 12
  const KEYSYM_LEFTPAREN := 13
  const KEYSYM_RIGHTPAREN := 14
  const KEYSYM_ASTERISK := 15
  const KEYSYM_PLUS := 16
  const KEYSYM_COMMA := 17
  const KEYSYM_MINUS := 18
  const KEYSYM_PERIOD := 19
  const KEYSYM_SLASH := 20
  const KEYSYM_0 := 21
  const KEYSYM_1 := 22
  const KEYSYM_2 := 23
  const KEYSYM_3 := 24
  const KEYSYM_4 := 25
  const KEYSYM_5 := 26
  const KEYSYM_6 := 27
  const KEYSYM_7 := 28
  const KEYSYM_8 := 29
  const KEYSYM_9 := 30
  const KEYSYM_COLON := 31
  const KEYSYM_SEMICOLON := 32
  const KEYSYM_LESS := 33
  const KEYSYM_EQUALS := 34
  const KEYSYM_GREATER := 35
  const KEYSYM_QUESTION := 36
  const KEYSYM_AT := 37
  const KEYSYM_LEFTBRACKET := 38
  const KEYSYM_BACKSLASH := 39
  const KEYSYM_RIGHTBRACKET := 40
  const KEYSYM_CARET := 41
  const KEYSYM_UNDERSCORE := 42
  const KEYSYM_BACKQUOTE := 43
  const KEYSYM_A := 44
  const KEYSYM_B := 45
  const KEYSYM_C := 46
  const KEYSYM_D := 47
  const KEYSYM_E := 48
  const KEYSYM_F := 49
  const KEYSYM_G := 50
  const KEYSYM_H := 51
  const KEYSYM_I := 52
  const KEYSYM_J := 53
  const KEYSYM_K := 54
  const KEYSYM_L := 55
  const KEYSYM_M := 56
  const KEYSYM_N := 57
  const KEYSYM_O := 58
  const KEYSYM_P := 59
  const KEYSYM_Q := 60
  const KEYSYM_R := 61
  const KEYSYM_S := 62
  const KEYSYM_T := 63
  const KEYSYM_U := 64
  const KEYSYM_V := 65
  const KEYSYM_W := 66
  const KEYSYM_X := 67
  const KEYSYM_Y := 68
  const KEYSYM_Z := 69
  const KEYSYM_DELETE := 70
  const KEYSYM_KEYPAD_0 := 71
  const KEYSYM_KEYPAD_1 := 72
  const KEYSYM_KEYPAD_2 := 73
  const KEYSYM_KEYPAD_3 := 74
  const KEYSYM_KEYPAD_4 := 75
  const KEYSYM_KEYPAD_5 := 76
  const KEYSYM_KEYPAD_6 := 77
  const KEYSYM_KEYPAD_7 := 78
  const KEYSYM_KEYPAD_8 := 79
  const KEYSYM_KEYPAD_9 := 80
  const KEYSYM_KEYPAD_PERIOD := 81
  const KEYSYM_KEYPAD_DIVIDE := 82
  const KEYSYM_KEYPAD_MULTIPLY := 83
  const KEYSYM_KEYPAD_MINUS := 84
  const KEYSYM_KEYPAD_PLUS := 85
  const KEYSYM_KEYPAD_ENTER := 86
  const KEYSYM_KEYPAD_EQUALS := 87
  const KEYSYM_UP := 88
  const KEYSYM_DOWN := 89
  const KEYSYM_RIGHT := 90
  const KEYSYM_LEFT := 91
  const KEYSYM_INSERT := 92
  const KEYSYM_HOME := 93
  const KEYSYM_END := 94
  const KEYSYM_PAGEUP := 95
  const KEYSYM_PAGEDOWN := 96
  const KEYSYM_F1 := 97
  const KEYSYM_F2 := 98
  const KEYSYM_F3 := 99
  const KEYSYM_F4 := 100
  const KEYSYM_F5 := 101
  const KEYSYM_F6 := 102
  const KEYSYM_F7 := 103
  const KEYSYM_F8 := 104
  const KEYSYM_F9 := 105
  const KEYSYM_F10 := 106
  const KEYSYM_F11 := 107
  const KEYSYM_F12 := 108
  const KEYSYM_F13 := 109
  const KEYSYM_F14 := 110
  const KEYSYM_F15 := 111
  const KEYSYM_NUMLOCK := 112
  const KEYSYM_CAPSLOCK := 113
  const KEYSYM_SCROLLLOCK := 114
  const KEYSYM_RSHIFT := 115
  const KEYSYM_LSHIFT := 116
  const KEYSYM_RCTRL := 117
  const KEYSYM_LCTRL := 118
  const KEYSYM_RALT := 119
  const KEYSYM_LALT := 120
  const KEYSYM_RMETA := 121
  const KEYSYM_LMETA := 122
  const KEYSYM_LSUPER := 123
  const KEYSYM_RSUPER := 124
  const KEYSYM_MODE := 125
  const KEYSYM_COMPOSE := 126
  const KEYSYM_HELP := 127
  const KEYSYM_PRINT := 128
  const KEYSYM_SYSREQ := 129
  const KEYSYM_BREAK := 130
  const KEYSYM_MENU := 131
  const KEYSYM_POWER := 132
  const KEYSYM_EURO := 133
  const KEYSYM_UNDO := 134

  /** Extra key symbol used by the DRM keysym table but missing from zdl.h. */
  const KEYSYM_PERCENT := 135

  /** The value a translator stores for a key it does not know. */
  const KEYSYM_UNKNOWN := -1

  const FUNCTION_KEYS: seq<int> := [
    KEYSYM_F1, KEYSYM_F2, KEYSYM_F3, KEYSYM_F4, KEYSYM_F5,
    KEYSYM_F6, KEYSYM_F7, KEYSYM_F8, KEYSYM_F9, KEYSYM_F10,
    KEYSYM_F11, KEYSYM_F12, KEYSYM_F13, KEYSYM_F14, KEYSYM_F15
  ]

  predicate IsFunctionKey(sym: int) {
    KEYSYM_F1 <= sym <= KEYSYM_F15
  }

  /** F1..F15 are fifteen consecutive symbols and nothing else lies between them. */
  lemma FunctionKeysAreConsecutive()
    ensures |FUNCTION_KEYS| == 15
    ensures forall i :: 0 <= i < |FUNCTION_KEYS| ==> FUNCTION_KEYS[i] == KEYSYM_F1 + i
    ensures forall sym :: IsFunctionKey(sym) <==> sym in FUNCTION_KEYS
  {
  }

  /** `sym - F1 + 1`: the number printed on a function key. */
  function FunctionKeyNumber(sym: int): (n: int)
    requires IsFunctionKey(sym)
    ensures 1 <= n <= 15
    ensures FUNCTION_KEYS[n - 1] == sym
  {
    sym - KEYSYM_F1 + 1
  }

  // ---- struct zdl_event ----

  /**
   * The key payload. `unicode` is an `unsigned short` and `scancode` an
   * `unsigned char`: every backend stores values already reduced to that
   * width.
   */
  datatype KeyInfo = KeyInfo(sym: int, modifiers: Mask, unicode: int, scancode: int)

  /** The button payload (`modifiers` is only written by the Android backend). */
  datatype ButtonInfo = ButtonInfo(button: int, x: int, y: int, modifiers: Mask)

  /** The motion payload (`id` and `flags` are only written by the Android backend). */
  datatype MotionInfo = MotionInfo(x: int, y: int, dx: int, dy: int, id: int, flags: int)

  /** A tag and, for four of the tags, a payload. */
  datatype Event =
    | KeyPress(key: KeyInfo)
    | KeyRelease(key: KeyInfo)
    | ButtonPress(button: ButtonInfo)
    | ButtonRelease(button: ButtonInfo)
    | Motion(motion: MotionInfo)
    | GainFocus
    | LoseFocus
    | Reconfigure(width: int, height: int)
    | Expose
    | Error
    | Exit
  {
    /** The `enum zdl_event_type` ordinal of the tag. */
    function Tag(): (t: nat)
      ensures t <= 10
      ensures t <= 1 <==> this.KeyPress? || this.KeyRelease?
    {
      match this
      case KeyPress(_) => 0
      case KeyRelease(_) => 1
      case ButtonPress(_) => 2
      case ButtonRelease(_) => 3
      case Motion(_) => 4
      case GainFocus => 5
      case LoseFocus => 6
      case Reconfigure(_, _) => 7
      case Expose => 8
      case Error => 9
      case Exit => 10
    }

    predicate HasPayload() {
      this.KeyPress? || this.KeyRelease? || this.ButtonPress? || this.ButtonRelease?
        || this.Motion? || this.Reconfigure?
    }
  }

  /**
   * The tag decides which payload an event has, and a tag without a
   * payload carries nothing else: two such events with the same tag are
   * the same event.
   */
  lemma TagDeterminesPayload(a: Event, b: Event)
    ensures a.HasPayload() <==> a.Tag() in {0, 1, 2, 3, 4, 7}
    ensures a.Tag() == b.Tag() && !a.HasPayload() ==> a == b
    ensures a.Tag() == b.Tag() ==> (a.HasPayload() <==> b.HasPayload())
  {
  }

  // ---- window flags and motion identifiers (not declared in zdl.h) ----

  const FLAG_NONE: Mask := 0
  const FLAG_FULLSCREEN: Mask := 1 << 0
  const FLAG_NORESIZE: Mask := 1 << 1
  const FLAG_NOCURSOR: Mask := 1 << 2
  const FLAG_NODECOR: Mask := 1 << 3
  const FLAG_CLIPBOARD: Mask := 1 << 4
  const FLAG_COPYONHL: Mask := 1 << 5
  const FLAG_FLIP_Y: Mask := 1 << 6

  /** Identifier of the mouse pointer; touch contacts are numbered from MOTION_TOUCH_START. */
  const MOTION_POINTER := 0
  const MOTION_TOUCH_START := 1

  const MOTION_FLAG_NONE := 0
  const MOTION_FLAG_INITIAL := 1
  const MOTION_FLAG_FINAL := 2

  // ---- window handles ----

  /** A `zdl_window_t`: a pointer that is null or refers to a window. */
  datatype WindowHandle = Null | Ptr(address: nat)

  const WINDOW_INVALID: WindowHandle := Null

  /** The outcome of the C++ `ZDL::Window` constructor. */
  datatype Construction = Constructed(window: WindowHandle) | Thrown(code: int)

  /** The C++ wrapper keeps the handle `create` returned, or throws 0 when it is invalid. */
  function ConstructWindow(created: WindowHandle): (r: Construction)
    ensures r.Thrown? <==> created == WINDOW_INVALID
    ensures r.Thrown? ==> r.code == 0
    ensures r.Constructed? ==> r.window == created && r.window != WINDOW_INVALID
  {
    if created == Null then Thrown(0) else Constructed(created)
  }

  // ---- title defaulting (set_title in every desktop backend) ----

  /**
   * The (icon name, window name) pair `set_title` applies, or None when
   * both are missing and the call does nothing: a missing name takes the
   * other's value.
   */
  function ResolveTitle(icon: Option<string>, name: Option<string>): (r: Option<(string, string)>)
    ensures r.None? <==> icon.None? && name.None?
    ensures r.Some? ==> r.value.0 == (if icon.Some? then icon.value else name.value)
    ensures r.Some? ==> r.value.1 == (if name.Some? then name.value else icon.value)
  {
    match (icon, name)
    case (None, None) => None
    case (Some(i), None) => Some((i, i))
    case (None, Some(n)) => Some((n, n))
    case (Some(i), Some(n)) => Some((i, n))
  }
}
