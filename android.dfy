/**
 * The Android native-activity backend (zdl_android.c): the per-window
 * event queue, translation of input events (multi-touch motion, keys),
 * the mapping of host lifecycle notifications to events, the window
 * flags, the single-window rule and the shutdown latch of the event
 * pump.
 *
 * The looper is modelled by a sequence of callbacks, each one host
 * notification or one input event, run in order; JNI lookups and the
 * native window size are inputs; native calls go to ghost logs.
 */
module Android {
  import opened Zdl
  import opened Queue

  // ---- NDK constants (android/input.h, android/keycodes.h) ----

  const AINPUT_SOURCE_MOUSE := 0x2002

  const AMOTION_EVENT_ACTION_DOWN := 0
  const AMOTION_EVENT_ACTION_UP := 1
  const AMOTION_EVENT_ACTION_MOVE := 2
  const AMOTION_EVENT_ACTION_CANCEL := 3
  const AMOTION_EVENT_ACTION_POINTER_DOWN := 5
  const AMOTION_EVENT_ACTION_POINTER_UP := 6

  const AKEY_EVENT_ACTION_DOWN := 0
  const AKEY_EVENT_ACTION_UP := 1
  const AKEY_EVENT_ACTION_MULTIPLE := 2

  const AKEYCODE_DEL := 67

  const AMETA_SHIFT_ON: bv32 := 0x01
  const AMETA_ALT_ON: bv32 := 0x02
  const AMETA_SYM_ON: bv32 := 0x04
  const AMETA_ALT_LEFT_ON: bv32 := 0x10
  const AMETA_ALT_RIGHT_ON: bv32 := 0x20
  const AMETA_SHIFT_LEFT_ON: bv32 := 0x40
  const AMETA_SHIFT_RIGHT_ON: bv32 := 0x80

  /** The activity window flag the fullscreen window flag maps to. */
  const LAYOUTPARAMS_FULLSCREEN: Mask := 0x400

  // ---- enum zdl_app_event_type ----

  const APP_INVALID := 0
  const APP_DESTROY := 1
  const APP_START := 2
  const APP_RESUME := 3
  const APP_STATE_SAVE := 4
  const APP_PAUSE := 5
  const APP_STOP := 6

  /** A host lifecycle notification, with the data the handler reads for it. */
  datatype AppEvent =
    | AppInvalid
    | AppDestroy(semaphore: nat)
    | AppStart
    | AppResume
    | AppStateSave
    | AppPause
    | AppStop
    | AppConfigChanged
      /** the size the native window reports when the handler asks for it */
    | AppContentRectChanged(nativeWidth: int, nativeHeight: int)
    | AppLowMemory
    | AppFocusLost
    | AppFocusGained
    | AppRedrawNeeded
    | AppWindowCreated(native: nat)
    | AppWindowDestroyed
    | AppInputQueueCreated(inputQueue: nat)
    | AppInputQueueDestroyed

  /** The application state after a notification: only the lifecycle transitions record one. */
  function AppStateAfter(state: int, aev: AppEvent): (r: int)
    ensures aev.AppStop? ==> r == APP_STOP
    ensures aev.AppDestroy? ==> r == APP_DESTROY
    ensures aev.AppStart? ==> r == APP_START
    ensures aev.AppPause? ==> r == APP_PAUSE
    ensures aev.AppResume? ==> r == APP_RESUME
    ensures !(aev.AppStop? || aev.AppDestroy? || aev.AppStart? || aev.AppPause? || aev.AppResume?) ==> r == state
  {
    match aev
    case AppStop => APP_STOP
    case AppDestroy(_) => APP_DESTROY
    case AppStart => APP_START
    case AppPause => APP_PAUSE
    case AppResume => APP_RESUME
    case _ => state
  }

  /** The native calls the backend makes. */
  datatype AndroidCall =
    | SetWindowFlags(add: Mask, remove: Mask)
    | ClearSavedState
    | ReloadConfiguration
    | DetachLooper(inputQueue: nat)
    | AttachLooper(inputQueue: nat)
    | FinishInputEvent(handled: bool)
    | DisplayInit
    | DisplayFini

  // ---- motion translation ----

  /**
   * One pointer of a motion event: its id, its current position and its
   * position at the last historical sample (read only when the event has
   * history). Coordinates are the integer parts of the host's floats.
   */
  datatype PointerSample = PointerSample(id: int, x: int, y: int, historyX: int, historyY: int)

  /** `action & AMOTION_EVENT_ACTION_MASK` */
  function ActionCode(action: bv32): int
  {
    (action & 0xff) as int
  }

  /** `(action & AMOTION_EVENT_ACTION_POINTER_INDEX_MASK) >> AMOTION_EVENT_ACTION_POINTER_INDEX_SHIFT` */
  function ActionPointerIndex(action: bv32): int
  {
    ((action & 0xff00) >> 8) as int
  }

  function MotionIdOffset(source: int): int
  {
    if source == AINPUT_SOURCE_MOUSE then MOTION_POINTER else MOTION_TOUCH_START
  }

  /**
   * The flag of pointer `i`: only the pointer the action names is
   * flagged, INITIAL when it goes down and FINAL when it goes up or the
   * gesture is cancelled.
   */
  function MotionFlag(code: int, actionIndex: int, i: int): (f: int)
    ensures f == MOTION_FLAG_INITIAL <==>
              i == actionIndex && (code == AMOTION_EVENT_ACTION_DOWN || code == AMOTION_EVENT_ACTION_POINTER_DOWN)
    ensures f == MOTION_FLAG_FINAL <==>
              i == actionIndex && (code == AMOTION_EVENT_ACTION_UP || code == AMOTION_EVENT_ACTION_CANCEL ||
                                   code == AMOTION_EVENT_ACTION_POINTER_UP)
    ensures f == MOTION_FLAG_NONE || f == MOTION_FLAG_INITIAL || f == MOTION_FLAG_FINAL
  {
    if i != actionIndex then MOTION_FLAG_NONE
    else if code == AMOTION_EVENT_ACTION_DOWN || code == AMOTION_EVENT_ACTION_POINTER_DOWN then MOTION_FLAG_INITIAL
    else if code == AMOTION_EVENT_ACTION_UP || code == AMOTION_EVENT_ACTION_CANCEL ||
            code == AMOTION_EVENT_ACTION_POINTER_UP then MOTION_FLAG_FINAL
    else MOTION_FLAG_NONE
  }

  /** The Motion record of pointer `i`. */
  function MotionRecord(source: int, action: bv32, historySize: nat, p: PointerSample, i: int): Event
  {
    var dx := if historySize > 0 then p.x - p.historyX else 0;
    var dy := if historySize > 0 then p.y - p.historyY else 0;
    Motion(MotionInfo(p.x, p.y, dx, dy, p.id + MotionIdOffset(source),
                      MotionFlag(ActionCode(action), ActionPointerIndex(action), i)))
  }

  /** The records a motion event fans out into, one per pointer, in pointer order. */
  function MotionRecords(source: int, action: bv32, historySize: nat, pointers: seq<PointerSample>): (r: seq<Event>)
    ensures |r| == |pointers|
    ensures forall i :: 0 <= i < |r| ==> r[i] == MotionRecord(source, action, historySize, pointers[i], i)
  {
    seq(|pointers|, i requires 0 <= i < |pointers| => MotionRecord(source, action, historySize, pointers[i], i))
  }

  /**
   * A notification with N pointers yields exactly N Motion records, each
   * carrying its pointer's position and id shifted into the mouse or the
   * touch range; distinct pointers keep distinct ids; only the action's
   * pointer is flagged; a delta is measured from the last historical
   * sample, or is 0 without history.
   */
  lemma MotionFanOut(source: int, action: bv32, historySize: nat, pointers: seq<PointerSample>)
    ensures var r := MotionRecords(source, action, historySize, pointers);
            |r| == |pointers| &&
            (forall i :: 0 <= i < |r| ==>
               r[i].Motion? && r[i].motion.x == pointers[i].x && r[i].motion.y == pointers[i].y &&
               r[i].motion.id == pointers[i].id +
                 (if source == AINPUT_SOURCE_MOUSE then MOTION_POINTER else MOTION_TOUCH_START) &&
               (r[i].motion.flags != MOTION_FLAG_NONE ==> i == ActionPointerIndex(action)) &&
               r[i].motion.dx == (if historySize > 0 then pointers[i].x - pointers[i].historyX else 0) &&
               r[i].motion.dy == (if historySize > 0 then pointers[i].y - pointers[i].historyY else 0))
    ensures var r := MotionRecords(source, action, historySize, pointers);
            forall i, j :: 0 <= i < j < |pointers| && pointers[i].id != pointers[j].id ==>
              r[i].motion.id != r[j].motion.id
  {
  }

  // ---- key translation ----

  /**
   * The modifier mask of a meta state: the ALT and SHIFT "on" bits count
   * as the left key, SYM counts as the left meta key; nothing else is
   * reported.
   */
  function MetaModifiers(meta: bv32): (m: Mask)
    ensures m & KEYMOD_LALT != 0 <==> meta & (AMETA_ALT_ON | AMETA_ALT_LEFT_ON) != 0
    ensures m & KEYMOD_RALT != 0 <==> meta & AMETA_ALT_RIGHT_ON != 0
    ensures m & KEYMOD_LSHIFT != 0 <==> meta & (AMETA_SHIFT_ON | AMETA_SHIFT_LEFT_ON) != 0
    ensures m & KEYMOD_RSHIFT != 0 <==> meta & AMETA_SHIFT_RIGHT_ON != 0
    ensures m & KEYMOD_LMETA != 0 <==> meta & AMETA_SYM_ON != 0
    ensures m & !(KEYMOD_LALT | KEYMOD_RALT | KEYMOD_LSHIFT | KEYMOD_RSHIFT | KEYMOD_LMETA) == 0
  {
    (if meta & AMETA_ALT_ON != 0 then KEYMOD_LALT else 0)
    | (if meta & AMETA_ALT_LEFT_ON != 0 then KEYMOD_LALT else 0)
    | (if meta & AMETA_ALT_RIGHT_ON != 0 then KEYMOD_RALT else 0)
    | (if meta & AMETA_SHIFT_ON != 0 then KEYMOD_LSHIFT else 0)
    | (if meta & AMETA_SHIFT_LEFT_ON != 0 then KEYMOD_LSHIFT else 0)
    | (if meta & AMETA_SHIFT_RIGHT_ON != 0 then KEYMOD_RSHIFT else 0)
    | (if meta & AMETA_SYM_ON != 0 then KEYMOD_LMETA else 0)
  }

  // `zdl_keysyms`, indexed by key code, in four runs of 28 codes.

  const KEYSYMS_0_27: seq<int> := [
    0,  // 0: not listed, left zero
    KEYSYM_LEFT,  // 1: SOFT_LEFT
    KEYSYM_RIGHT,  // 2: SOFT_RIGHT
    KEYSYM_HOME,  // 3: HOME
    KEYSYM_ESCAPE,  // 4: BACK
    KEYSYM_UNKNOWN,  // 5: CALL
    KEYSYM_UNKNOWN,  // 6: ENDCALL
    KEYSYM_0,  // 7: 0
    KEYSYM_1,  // 8: 1
    KEYSYM_2,  // 9: 2
    KEYSYM_3,  // 10: 3
    KEYSYM_4,  // 11: 4
    KEYSYM_5,  // 12: 5
    KEYSYM_6,  // 13: 6
    KEYSYM_7,  // 14: 7
    KEYSYM_8,  // 15: 8
    KEYSYM_9,  // 16: 9
    KEYSYM_ASTERISK,  // 17: STAR
    KEYSYM_HASH,  // 18: POUND
    KEYSYM_UP,  // 19: DPAD_UP
    KEYSYM_DOWN,  // 20: DPAD_DOWN
    KEYSYM_LEFT,  // 21: DPAD_LEFT
    KEYSYM_RIGHT,  // 22: DPAD_RIGHT
    KEYSYM_RETURN,  // 23: DPAD_CENTER
    KEYSYM_UNKNOWN,  // 24: VOLUME_UP
    KEYSYM_UNKNOWN,  // 25: VOLUME_DOWN
    KEYSYM_POWER,  // 26: POWER
    KEYSYM_PRINT  // 27: CAMERA
  ]

  const KEYSYMS_28_55: seq<int> := [
    KEYSYM_CLEAR,  // 28: CLEAR
    KEYSYM_A,  // 29: A
    KEYSYM_B,  // 30: B
    KEYSYM_C,  // 31: C
    KEYSYM_D,  // 32: D
    KEYSYM_E,  // 33: E
    KEYSYM_F,  // 34: F
    KEYSYM_G,  // 35: G
    KEYSYM_H,  // 36: H
    KEYSYM_I,  // 37: I
    KEYSYM_J,  // 38: J
    KEYSYM_K,  // 39: K
    KEYSYM_L,  // 40: L
    KEYSYM_M,  // 41: M
    KEYSYM_N,  // 42: N
    KEYSYM_O,  // 43: O
    KEYSYM_P,  // 44: P
    KEYSYM_Q,  // 45: Q
    KEYSYM_R,  // 46: R
    KEYSYM_S,  // 47: S
    KEYSYM_T,  // 48: T
    KEYSYM_U,  // 49: U
    KEYSYM_V,  // 50: V
    KEYSYM_W,  // 51: W
    KEYSYM_X,  // 52: X
    KEYSYM_Y,  // 53: Y
    KEYSYM_Z,  // 54: Z
    KEYSYM_COMMA  // 55: COMMA
  ]

  const KEYSYMS_56_83: seq<int> := [
    KEYSYM_PERIOD,  // 56: PERIOD
    KEYSYM_LALT,  // 57: ALT_LEFT
    KEYSYM_RALT,  // 58: ALT_RIGHT
    KEYSYM_LSHIFT,  // 59: SHIFT_LEFT
    KEYSYM_RSHIFT,  // 60: SHIFT_RIGHT
    KEYSYM_TAB,  // 61: TAB
    KEYSYM_SPACE,  // 62: SPACE
    KEYSYM_MODE,  // 63: SYM
    KEYSYM_UNKNOWN,  // 64: EXPLORER
    KEYSYM_COMPOSE,  // 65: ENVELOPE
    KEYSYM_RETURN,  // 66: ENTER
    KEYSYM_DELETE,  // 67: DEL
    KEYSYM_BACKQUOTE,  // 68: GRAVE
    KEYSYM_MINUS,  // 69: MINUS
    KEYSYM_EQUALS,  // 70: EQUALS
    KEYSYM_LEFTBRACKET,  // 71: LEFT_BRACKET
    KEYSYM_RIGHTBRACKET,  // 72: RIGHT_BRACKET
    KEYSYM_BACKSLASH,  // 73: BACKSLASH
    KEYSYM_SEMICOLON,  // 74: SEMICOLON
    KEYSYM_QUOTE,  // 75: APOSTROPHE
    KEYSYM_SLASH,  // 76: SLASH
    KEYSYM_AT,  // 77: AT
    KEYSYM_NUMLOCK,  // 78: NUM
    KEYSYM_ESCAPE,  // 79: HEADSETHOOK
    KEYSYM_UNKNOWN,  // 80: FOCUS
    KEYSYM_PLUS,  // 81: PLUS
    KEYSYM_MENU,  // 82: MENU
    KEYSYM_UNKNOWN  // 83: NOTIFICATION
  ]

  const KEYSYMS_84_110: seq<int> := [
    KEYSYM_UNKNOWN,  // 84: SEARCH
    KEYSYM_UNKNOWN,  // 85: MEDIA_PLAY_PAUSE
    KEYSYM_UNKNOWN,  // 86: MEDIA_STOP
    KEYSYM_UNKNOWN,  // 87: MEDIA_NEXT
    KEYSYM_UNKNOWN,  // 88: MEDIA_PREVIOUS
    KEYSYM_UNKNOWN,  // 89: MEDIA_REWIND
    KEYSYM_UNKNOWN,  // 90: MEDIA_FAST_FORWARD
    KEYSYM_UNKNOWN,  // 91: MUTE
    KEYSYM_PAGEUP,  // 92: PAGE_UP
    KEYSYM_PAGEDOWN,  // 93: PAGE_DOWN
    KEYSYM_UNKNOWN,  // 94: PICTSYMBOLS
    KEYSYM_MODE,  // 95: SWITCH_CHARSET
    KEYSYM_UNKNOWN,  // 96: BUTTON_A
    KEYSYM_UNKNOWN,  // 97: BUTTON_B
    KEYSYM_UNKNOWN,  // 98: BUTTON_C
    KEYSYM_UNKNOWN,  // 99: BUTTON_X
    KEYSYM_UNKNOWN,  // 100: BUTTON_Y
    KEYSYM_UNKNOWN,  // 101: BUTTON_Z
    KEYSYM_UNKNOWN,  // 102: BUTTON_L1
    KEYSYM_UNKNOWN,  // 103: BUTTON_R1
    KEYSYM_UNKNOWN,  // 104: BUTTON_L2
    KEYSYM_UNKNOWN,  // 105: BUTTON_R2
    KEYSYM_UNKNOWN,  // 106: BUTTON_THUMBL
    KEYSYM_UNKNOWN,  // 107: BUTTON_THUMBR
    KEYSYM_UNKNOWN,  // 108: BUTTON_START
    KEYSYM_UNKNOWN,  // 109: BUTTON_SELECT
    KEYSYM_UNKNOWN  // 110: BUTTON_MODE
  ]

  /** `zdl_keysyms`, indexed by key code. */
  const ANDROID_KEYSYMS: seq<int> := KEYSYMS_0_27 + KEYSYMS_28_55 + KEYSYMS_56_83 + KEYSYMS_84_110

  /**
   * The width of `size_t` on the ABI the library is built for: 32 bits on
   * armeabi-v7a and x86, 64 bits on arm64-v8a and x86_64.
   */
  datatype Abi = Ilp32 | Lp64

  /** The number of `size_t` values: 2^32 or 2^64. */
  function SizeModulus(abi: Abi): (m: nat)
    ensures m > 0
  {
    match abi
    case Ilp32 => 0x1_0000_0000
    case Lp64 => 0x1_0000_0000_0000_0000
  }

  /**
   * The conversion of an `int` to `size_t` that C applies before a
   * remainder by a `size_t`: a negative value wraps through the modulus.
   */
  function AsSize(abi: Abi, code: int): (u: nat)
    ensures u < SizeModulus(abi)
    ensures 0 <= code < SizeModulus(abi) ==> u == code
    ensures code < 0 <= code + SizeModulus(abi) ==> u == code + SizeModulus(abi)
  {
    code % SizeModulus(abi)
  }

  /**
   * `code % (sizeof(zdl_keysyms)/4)`: the remainder of the converted code,
   * so always a valid index, and the code itself when it is one.
   */
  function KeysymIndex(abi: Abi, code: int): (i: nat)
    ensures i < |ANDROID_KEYSYMS|
    ensures 0 <= code < |ANDROID_KEYSYMS| ==> i == code
  {
    AsSize(abi, code) % |ANDROID_KEYSYMS|
  }

  /** Letters and digits are contiguous in the table; key code 0 and its aliases give symbol 0. */
  lemma KeysymTableRanges()
    ensures |ANDROID_KEYSYMS| == 111
    ensures forall c :: 29 <= c <= 54 ==> ANDROID_KEYSYMS[c] == KEYSYM_A + (c - 29)
    ensures forall c :: 7 <= c <= 16 ==> ANDROID_KEYSYMS[c] == KEYSYM_0 + (c - 7)
    ensures ANDROID_KEYSYMS[AKEYCODE_DEL] == KEYSYM_DELETE
    ensures forall abi :: ANDROID_KEYSYMS[KeysymIndex(abi, 0)] == KEYSYM_BACKSPACE
    ensures forall abi :: ANDROID_KEYSYMS[KeysymIndex(abi, 111)] == KEYSYM_BACKSPACE
  {
    forall abi: Abi
      ensures KeysymIndex(abi, 0) == 0 && KeysymIndex(abi, 111) == 0
    {
      assert AsSize(abi, 0) == 0 && AsSize(abi, 111) == 111;
    }
  }

  /**
   * A negative key code is not reduced mod 111 as a mathematical integer
   * (which would give 110 for -1): it wraps through the width of `size_t`
   * first, so the entry it selects depends on the ABI.
   */
  lemma NegativeKeyCodeWraps()
    ensures AsSize(Lp64, -1) == 0xFFFF_FFFF_FFFF_FFFF && KeysymIndex(Lp64, -1) == 48
    ensures AsSize(Ilp32, -1) == 0xFFFF_FFFF && KeysymIndex(Ilp32, -1) == 6
    ensures -1 % |ANDROID_KEYSYMS| == 110
  {
  }

  /**
   * `zdl_key_uc`: DEL always gives 8 (backspace); any other code gives
   * the host's character for it, as an `unsigned short`.
   */
  function KeyUnicode(code: int, hostChar: int): (u: int)
    ensures 0 <= u < 0x10000
    ensures code == AKEYCODE_DEL ==> u == 8
    ensures code != AKEYCODE_DEL ==> (u - hostChar) % 0x10000 == 0
  {
    if code == AKEYCODE_DEL then 8 else hostChar % 0x10000
  }

  /**
   * The record a key event produces. For DOWN and UP the modifiers come
   * from the event's own meta state; a mouse source gives a button
   * record whose other fields the source leaves unset (0 here). Any
   * other action leaves the record unwritten, so whatever `stale` holds
   * is queued. The table index is taken with a 64-bit `size_t`.
   */
  function KeyRecord(source: int, action: int, code: int, scan: int, meta: bv32, hostChar: int, stale: Event): (r: Event)
    ensures action != AKEY_EVENT_ACTION_DOWN && action != AKEY_EVENT_ACTION_UP ==> r == stale
    ensures action == AKEY_EVENT_ACTION_DOWN || action == AKEY_EVENT_ACTION_UP ==>
              ((r.KeyPress? || r.KeyRelease?) && r.key.sym in ANDROID_KEYSYMS) ||
              ((r.ButtonPress? || r.ButtonRelease?) && r.button.modifiers == MetaModifiers(meta))
  {
    var modifiers := MetaModifiers(meta);
    var key := KeyInfo(ANDROID_KEYSYMS[KeysymIndex(Lp64, code)], modifiers, KeyUnicode(code, hostChar), scan % 0x100);
    if action == AKEY_EVENT_ACTION_DOWN then
      if source == AINPUT_SOURCE_MOUSE then ButtonPress(ButtonInfo(0, 0, 0, modifiers)) else KeyPress(key)
    else if action == AKEY_EVENT_ACTION_UP then
      if source == AINPUT_SOURCE_MOUSE then ButtonRelease(ButtonInfo(0, 0, 0, modifiers)) else KeyRelease(key)
    else
      stale
  }

  /**
   * Key modifiers depend only on the event's meta state, never on earlier
   * events; a mouse source produces button records instead of key
   * records; the symbol is the table entry at the code, converted to
   * `size_t`, mod 111.
   */
  lemma KeyTranslation(source: int, action: int, code: int, scan: int, meta: bv32, hostChar: int, stale: Event)
    requires action == AKEY_EVENT_ACTION_DOWN || action == AKEY_EVENT_ACTION_UP
    ensures var r := KeyRecord(source, action, code, scan, meta, hostChar, stale);
            (source == AINPUT_SOURCE_MOUSE <==> r.ButtonPress? || r.ButtonRelease?) &&
            (action == AKEY_EVENT_ACTION_DOWN <==> r.KeyPress? || r.ButtonPress?) &&
            (r.KeyPress? || r.KeyRelease? ==>
               r.key.modifiers == MetaModifiers(meta) &&
               r.key.sym == ANDROID_KEYSYMS[AsSize(Lp64, code) % 111] &&
               r.key.unicode == KeyUnicode(code, hostChar) && 0 <= r.key.scancode < 0x100) &&
            (r.ButtonPress? || r.ButtonRelease? ==> r.button.modifiers == MetaModifiers(meta))
  {
  }

  /** The input event kinds the handler reads. */
  datatype InputEvent =
    | MotionInput(source: int, action: bv32, historySize: nat, pointers: seq<PointerSample>)
    | KeyInput(source: int, keyAction: int, code: int, scan: int, meta: bv32, hostChar: int)
    | OtherInput

  /** The records `zdl_app_handle_input` queues for one input event. */
  function InputRecords(input: InputEvent, stale: Event): (r: seq<Event>)
    ensures input.OtherInput? ==> r == []
    ensures input.KeyInput? ==> |r| == 1
    ensures input.MotionInput? ==> |r| == |input.pointers|
  {
    match input
    case MotionInput(source, action, historySize, pointers) => MotionRecords(source, action, historySize, pointers)
    case KeyInput(source, action, code, scan, meta, hostChar) => [KeyRecord(source, action, code, scan, meta, hostChar, stale)]
    case OtherInput => []
  }

  // ---- lifecycle mapping ----

  /** What a notification can change in a window: its queue, stored size and native window. */
  datatype WindowView = WindowView(queue: seq<Event>, width: int, height: int, native: Option<nat>)

  /** The effect of `zdl_app_handle_event` on the (existing) window. */
  function AfterAppEvent(v: WindowView, aev: AppEvent): (u: WindowView)
    ensures u.native != v.native ==> aev.AppWindowCreated? || aev.AppWindowDestroyed?
    ensures u.width != v.width || u.height != v.height ==> aev.AppContentRectChanged?
  {
    match aev
    case AppStop => v.(queue := v.queue + [Exit])
    case AppDestroy(_) => v.(queue := v.queue + [Exit])
    case AppContentRectChanged(w, h) =>
      if w != v.width || h != v.height then v.(width := w, height := h, queue := v.queue + [Reconfigure(w, h)])
      else v
    case AppWindowCreated(n) => v.(native := Some(n), queue := v.queue + [Expose])
    case AppWindowDestroyed => v.(native := None)
    case AppFocusLost => v.(queue := v.queue + [LoseFocus])
    case AppFocusGained => v.(queue := v.queue + [GainFocus])
    case AppRedrawNeeded => v.(queue := v.queue + [Expose])
    case _ => v
  }

  /**
   * STOP and DESTROY queue EXIT, WINDOW_CREATED and REDRAW_NEEDED queue
   * EXPOSE, and no other notification does; a content-rect change queues
   * RECONFIGURE exactly when the native size differs from the stored one
   * and stores the new size, so the same change delivered twice is
   * reported once. Records already queued are never touched.
   */
  lemma LifecycleMapping(v: WindowView, aev: AppEvent)
    ensures var u := AfterAppEvent(v, aev);
            |v.queue| <= |u.queue| <= |v.queue| + 1 && u.queue[..|v.queue|] == v.queue &&
            ((|u.queue| > |v.queue| && u.queue[|v.queue|] == Exit) <==> aev.AppStop? || aev.AppDestroy?) &&
            ((|u.queue| > |v.queue| && u.queue[|v.queue|] == Expose) <==>
               aev.AppWindowCreated? || aev.AppRedrawNeeded?)
    ensures aev.AppContentRectChanged? ==>
              var u := AfterAppEvent(v, aev);
              (|u.queue| > |v.queue| <==> aev.nativeWidth != v.width || aev.nativeHeight != v.height) &&
              u.width == aev.nativeWidth && u.height == aev.nativeHeight &&
              AfterAppEvent(u, aev) == u
  {
  }

  /** A looper callback: one host notification or one input event. */
  datatype Callback = AppCallback(aev: AppEvent) | InputCallback(input: InputEvent, stale: Event)

  function AfterCallback(v: WindowView, cb: Callback): (u: WindowView)
    ensures |u.queue| >= |v.queue| && u.queue[..|v.queue|] == v.queue
  {
    match cb
    case AppCallback(aev) =>
      LifecycleMapping(v, aev);
      AfterAppEvent(v, aev)
    case InputCallback(input, stale) => v.(queue := v.queue + InputRecords(input, stale))
  }

  /**
   * The pump shared by `poll_event` and `wait_event`: run one callback,
   * then try to pop; stop at the first record popped. The result is the
   * window afterwards, the record (None when the callbacks ran out first)
   * and how many callbacks ran.
   */
  function PumpSpec(v: WindowView, cbs: seq<Callback>): (r: (WindowView, Option<Event>, nat))
    ensures r.2 <= |cbs|
    ensures r.1.Some? ==> 1 <= r.2
    ensures r.1.None? ==> r.2 == |cbs|
    decreases |cbs|
  {
    if cbs == [] then (v, None, 0)
    else
      var u := AfterCallback(v, cbs[0]);
      if u.queue != [] then (u.(queue := u.queue[1..]), Some(u.queue[0]), 1)
      else
        var r := PumpSpec(u, cbs[1..]);
        (r.0, r.1, r.2 + 1)
  }

  /** The first callback either lets a record be popped or hands over to the rest. */
  lemma PumpSpecStep(v: WindowView, cbs: seq<Callback>)
    requires cbs != []
    ensures var u := AfterCallback(v, cbs[0]);
            var r := PumpSpec(v, cbs);
            if u.queue != [] then r.0 == u.(queue := u.queue[1..]) && r.1 == Some(u.queue[0]) && r.2 == 1
            else r.0 == PumpSpec(u, cbs[1..]).0 && r.1 == PumpSpec(u, cbs[1..]).1 &&
                 r.2 == PumpSpec(u, cbs[1..]).2 + 1
  {
  }

  /**
   * The pump only pops after a callback has run: with no callback it
   * returns nothing even when records are queued; with one, a record
   * that was already queued comes out first.
   */
  lemma PumpReturnsOldestRecord(v: WindowView, cbs: seq<Callback>)
    ensures cbs == [] ==> PumpSpec(v, cbs) == (v, None, 0)
    ensures cbs != [] && v.queue != [] ==>
              PumpSpec(v, cbs).1 == Some(v.queue[0]) && PumpSpec(v, cbs).2 == 1
  {
    if cbs != [] && v.queue != [] {
      var u := AfterCallback(v, cbs[0]);
      assert u.queue[0] == u.queue[..|v.queue|][0];
    }
  }

  /**
   * The wait loop of `zdl_window_create` on a new window: pump until EXPOSE
   * is popped, discarding every other record. EXIT latches shutdown, after
   * which the source's loop only ever gets ERROR, so the wait ends there
   * without EXPOSE. The result is the window afterwards, whether EXPOSE was
   * popped and how many callbacks ran.
   */
  function ExposeSpec(v: WindowView, cbs: seq<Callback>): (r: (WindowView, bool, nat))
    ensures r.2 <= |cbs|
    ensures r.1 ==> 1 <= r.2
    decreases |cbs|
  {
    var p := PumpSpec(v, cbs);
    if p.1 == Some(Expose) then (p.0, true, p.2)
    else if p.1.None? || p.1 == Some(Exit) then (p.0, false, p.2)
    else
      var r := ExposeSpec(p.0, cbs[p.2..]);
      (r.0, r.1, p.2 + r.2)
  }

  /** A round of the wait that pops EXPOSE or EXIT, or runs out of callbacks, ends it. */
  lemma ExposeSpecStops(v: WindowView, cbs: seq<Callback>)
    requires var e := PumpSpec(v, cbs).1; e == Some(Expose) || e == Some(Exit) || e.None?
    ensures ExposeSpec(v, cbs) == (PumpSpec(v, cbs).0, PumpSpec(v, cbs).1 == Some(Expose), PumpSpec(v, cbs).2)
  {
  }

  /** A round of the wait that pops any other record discards it and waits on with the rest. */
  lemma ExposeSpecContinues(v: WindowView, cbs: seq<Callback>)
    requires var e := PumpSpec(v, cbs).1; e.Some? && e != Some(Expose) && e != Some(Exit)
    ensures var p := PumpSpec(v, cbs);
            var rest := ExposeSpec(p.0, cbs[p.2..]);
            ExposeSpec(v, cbs) == (rest.0, rest.1, p.2 + rest.2)
  {
  }

  /** The usual start: the host's window-created notification exposes the window at once. */
  lemma ExposedByWindowCreated(v: WindowView, n: nat, rest: seq<Callback>)
    requires v.queue == []
    ensures ExposeSpec(v, [AppCallback(AppWindowCreated(n))] + rest) == (v.(native := Some(n)), true, 1)
  {
    PumpSpecStep(v, [AppCallback(AppWindowCreated(n))] + rest);
  }

  /** A stop before the window is created ends the wait without EXPOSE. */
  lemma StopBeforeExposeFails(v: WindowView, rest: seq<Callback>)
    requires v.queue == []
    ensures ExposeSpec(v, [AppCallback(AppStop)] + rest) == (v, false, 1)
  {
    PumpSpecStep(v, [AppCallback(AppStop)] + rest);
  }

  // ---- window flags ----

  datatype FlagMap = FlagMap(flag: Mask, windowFlag: Mask)

  /** `zdl_flag_mapping` */
  const FLAG_MAPPING: seq<FlagMap> := [FlagMap(FLAG_FULLSCREEN, LAYOUTPARAMS_FULLSCREEN)]

  /** One pass of the loop for `e`, on the add set: a changed flag that is now set adds its window flag. */
  function AddStep(add: Mask, e: FlagMap, newFlags: Mask, changed: Mask): Mask
  {
    if changed & e.flag != 0 && newFlags & e.flag != 0 then add | e.windowFlag else add
  }

  /** One pass of the loop for `e`, on the remove set: a changed flag that is now clear removes its window flag. */
  function RemoveStep(remove: Mask, e: FlagMap, newFlags: Mask, changed: Mask): Mask
  {
    if changed & e.flag != 0 && newFlags & e.flag == 0 then remove | e.windowFlag else remove
  }

  /** The window flags to add for the mapped flags that changed. */
  function AddedFlags(newFlags: Mask, changed: Mask, mapping: seq<FlagMap>): Mask
  {
    if mapping == [] then 0
    else AddStep(AddedFlags(newFlags, changed, mapping[..|mapping| - 1]), mapping[|mapping| - 1], newFlags, changed)
  }

  /** The window flags to remove for the mapped flags that changed. */
  function RemovedFlags(newFlags: Mask, changed: Mask, mapping: seq<FlagMap>): Mask
  {
    if mapping == [] then 0
    else RemoveStep(RemovedFlags(newFlags, changed, mapping[..|mapping| - 1]), mapping[|mapping| - 1], newFlags, changed)
  }

  /** Whatever the mapping, nothing is added or removed when no flag changed. */
  lemma {:induction false} NoChangeNoWindowFlags(newFlags: Mask, mapping: seq<FlagMap>)
    ensures AddedFlags(newFlags, 0, mapping) == 0
    ensures RemovedFlags(newFlags, 0, mapping) == 0
  {
    if mapping != [] {
      NoChangeNoWindowFlags(newFlags, mapping[..|mapping| - 1]);
    }
  }

  /**
   * `set_flags` forces FULLSCREEN and NORESIZE into the compared flags:
   * it never removes a window flag, and adds the fullscreen window flag
   * exactly when the stored flags lack FULLSCREEN. Because the requested
   * flags are what gets stored, repeating a request without FULLSCREEN
   * calls the host again, while repeating one with FULLSCREEN does not.
   */
  lemma SetFlagsWindowChanges(stored: Mask, requested: Mask)
    ensures var forced := requested | FLAG_FULLSCREEN | FLAG_NORESIZE;
            var add := AddedFlags(forced, forced ^ stored, FLAG_MAPPING);
            RemovedFlags(forced, forced ^ stored, FLAG_MAPPING) == 0 &&
            (add != 0 <==> stored & FLAG_FULLSCREEN == 0) &&
            (add != 0 ==> add == LAYOUTPARAMS_FULLSCREEN)
    ensures var forced := requested | FLAG_FULLSCREEN | FLAG_NORESIZE;
            var changed := forced ^ requested;
            (AddedFlags(forced, changed, FLAG_MAPPING) | RemovedFlags(forced, changed, FLAG_MAPPING) != 0 <==>
               requested & FLAG_FULLSCREEN == 0)
  {
    var forced := requested | FLAG_FULLSCREEN | FLAG_NORESIZE;
    ForcedFullscreen(stored, requested);
    FullscreenMapping(forced, forced ^ stored);
    FullscreenMapping(forced, forced ^ requested);
  }

  /** On the window's table, the add and remove sets depend on FULLSCREEN alone. */
  lemma FullscreenMapping(newFlags: Mask, changed: Mask)
    ensures AddedFlags(newFlags, changed, FLAG_MAPPING) ==
            if changed & FLAG_FULLSCREEN != 0 && newFlags & FLAG_FULLSCREEN != 0 then LAYOUTPARAMS_FULLSCREEN else 0
    ensures RemovedFlags(newFlags, changed, FLAG_MAPPING) ==
            if changed & FLAG_FULLSCREEN != 0 && newFlags & FLAG_FULLSCREEN == 0 then LAYOUTPARAMS_FULLSCREEN else 0
  {
    var e := FLAG_MAPPING[0];
    assert FLAG_MAPPING[..0] == [];
    assert AddedFlags(newFlags, changed, FLAG_MAPPING) == AddStep(0, e, newFlags, changed);
    assert RemovedFlags(newFlags, changed, FLAG_MAPPING) == RemoveStep(0, e, newFlags, changed);
  }

  /** The forced flags always hold FULLSCREEN, so it changed exactly when the compared flags lack it. */
  lemma ForcedFullscreen(stored: Mask, requested: Mask)
    ensures var forced := requested | FLAG_FULLSCREEN | FLAG_NORESIZE;
            forced & FLAG_FULLSCREEN != 0 &&
            ((forced ^ stored) & FLAG_FULLSCREEN != 0 <==> stored & FLAG_FULLSCREEN == 0) &&
            ((forced ^ requested) & FLAG_FULLSCREEN != 0 <==> requested & FLAG_FULLSCREEN == 0)
  {
  }

  /** Extending the table by one entry is one more pass of the loop. */
  lemma FlagChangesStep(newFlags: Mask, changed: Mask, mapping: seq<FlagMap>, i: nat)
    requires i < |mapping|
    ensures AddedFlags(newFlags, changed, mapping[..i + 1]) ==
            AddStep(AddedFlags(newFlags, changed, mapping[..i]), mapping[i], newFlags, changed)
    ensures RemovedFlags(newFlags, changed, mapping[..i + 1]) ==
            RemoveStep(RemovedFlags(newFlags, changed, mapping[..i]), mapping[i], newFlags, changed)
  {
    assert mapping[..i + 1][..i] == mapping[..i];
  }

  /**
   * The add/remove accumulation loop of `zdl_window_set_flags`, over a
   * mapping table (the window passes `FLAG_MAPPING`). Each pass skips an
   * unchanged flag and otherwise extends the add or the remove set.
   */
  method ComputeWindowFlags(newFlags: Mask, changed: Mask, mapping: seq<FlagMap>) returns (add: Mask, remove: Mask)
    ensures add == AddedFlags(newFlags, changed, mapping)
    ensures remove == RemovedFlags(newFlags, changed, mapping)
  {
    add, remove := 0, 0;
    var i := 0;
    while i < |mapping|
      invariant 0 <= i <= |mapping|
      invariant add == AddedFlags(newFlags, changed, mapping[..i])
      invariant remove == RemovedFlags(newFlags, changed, mapping[..i])
    {
      FlagChangesStep(newFlags, changed, mapping, i);
      var e := mapping[i];
      add := AddStep(add, e, newFlags, changed);
      remove := RemoveStep(remove, e, newFlags, changed);
      i := i + 1;
    }
    assert mapping[..i] == mapping;
  }

  // ---- the window and the application ----

  class AndroidWindow {
    var native: Option<nat>
    var flags: Mask
    var shutdown: bool
    var width: int
    var height: int
    const queue: EventQueue
    ghost var calls: seq<AndroidCall>

    ghost function View(): WindowView
      reads this, queue
    {
      WindowView(queue.items, width, height, native)
    }

    /** The zero-filled window `calloc` returns, with an empty queue. */
    constructor ()
      ensures native == None && flags == FLAG_NONE && !shutdown && width == 0 && height == 0
      ensures fresh(queue) && queue.items == [] && calls == []
    {
      native := None;
      flags := FLAG_NONE;
      shutdown := false;
      width, height := 0, 0;
      queue := new EventQueue();
      calls := [];
    }

    /** `zdl_window_set_flags`: the host is called only when a window flag is added or removed. */
    method SetFlags(requested: Mask)
      modifies this
      ensures flags == requested
      ensures var forced := requested | FLAG_FULLSCREEN | FLAG_NORESIZE;
              var add := AddedFlags(forced, forced ^ old(flags), FLAG_MAPPING);
              var remove := RemovedFlags(forced, forced ^ old(flags), FLAG_MAPPING);
              calls == old(calls) + (if add | remove != 0 then [SetWindowFlags(add, remove)] else [])
      ensures native == old(native) && shutdown == old(shutdown)
      ensures width == old(width) && height == old(height)
    {
      var forced := requested | FLAG_FULLSCREEN | FLAG_NORESIZE;
      var changed := forced ^ flags;
      var add, remove := ComputeWindowFlags(forced, changed, FLAG_MAPPING);
      if add | remove != 0 {
        calls := calls + [SetWindowFlags(add, remove)];
      }
      flags := requested;
    }

    /** `zdl_window_get_flags` */
    method GetFlags() returns (r: Mask)
      ensures r == flags
    {
      r := flags;
    }
  }

  /** `zdl_window_queue_push`: a push to the invalid window is ignored. */
  method WindowQueuePush(w: AndroidWindow?, ev: Event)
    modifies if w != null then {w.queue} else {}
    ensures w != null ==> w.queue.items == old(w.queue.items) + [ev]
  {
    if w != null {
      w.queue.Push(ev);
    }
  }

  class AndroidApp {
    var state: int
    var window: AndroidWindow?
    var nativeWindow: Option<nat>
    var inputQueue: Option<nat>
    var destroyer: Option<nat>
    ghost var calls: seq<AndroidCall>

    ghost function Repr(): set<object>
      reads this
    {
      {this} + (if window != null then {window, window.queue} else {})
    }

    constructor ()
      ensures state == APP_INVALID && window == null && nativeWindow == None
      ensures inputQueue == None && destroyer == None && calls == []
    {
      state := APP_INVALID;
      window := null;
      nativeWindow := None;
      inputQueue := None;
      destroyer := None;
      calls := [];
    }

    /**
     * `zdl_app_handle_event`. `fault` is set when a content-rect change
     * arrives with no window: the source reads the size of a null window
     * there.
     */
    method HandleEvent(aev: AppEvent) returns (fault: bool)
      modifies Repr()
      ensures window == old(window)
      ensures fault <==> aev.AppContentRectChanged? && window == null
      ensures state == AppStateAfter(old(state), aev)
      ensures window != null ==> window.View() == AfterAppEvent(old(window.View()), aev)
      ensures window != null ==> window.flags == old(window.flags) && window.shutdown == old(window.shutdown)
      ensures nativeWindow == (match aev
                               case AppWindowCreated(n) => Some(n)
                               case AppWindowDestroyed => None
                               case _ => old(nativeWindow))
      ensures inputQueue == (match aev
                             case AppInputQueueCreated(q) => Some(q)
                             case AppInputQueueDestroyed => None
                             case _ => old(inputQueue))
      ensures destroyer == (if aev.AppDestroy? then Some(aev.semaphore) else old(destroyer))
      ensures calls == old(calls) + (match aev
                                     case AppStateSave => [ClearSavedState]
                                     case AppConfigChanged => [ReloadConfiguration]
                                     case AppInputQueueDestroyed =>
                                       if old(inputQueue).Some? then [DetachLooper(old(inputQueue).value)] else []
                                     case AppInputQueueCreated(q) =>
                                       (if old(inputQueue).Some? then [DetachLooper(old(inputQueue).value)] else [])
                                       + [AttachLooper(q)]
                                     case _ => [])
    {
      var w := window;
      fault := false;
      match aev
      case AppInvalid =>
      case AppStop =>
        state := APP_STOP;
        WindowQueuePush(w, Exit);
      case AppStart =>
        state := APP_START;
      case AppPause =>
        state := APP_PAUSE;
      case AppResume =>
        state := APP_RESUME;
      case AppDestroy(semaphore) =>
        destroyer := Some(semaphore);
        state := APP_DESTROY;
        WindowQueuePush(w, Exit);
      case AppLowMemory =>
      case AppStateSave =>
        calls := calls + [ClearSavedState];
      case AppConfigChanged =>
        calls := calls + [ReloadConfiguration];
      case AppContentRectChanged(nw, nh) =>
        if w == null {
          fault := true;
        } else if nw != w.width || nh != w.height {
          w.width, w.height := nw, nh;
          WindowQueuePush(w, Reconfigure(nw, nh));
        }
      case AppWindowCreated(n) =>
        nativeWindow := Some(n);
        if w != null {
          w.native := Some(n);
        }
        WindowQueuePush(w, Expose);
      case AppWindowDestroyed =>
        nativeWindow := None;
        if w != null {
          w.native := None;
        }
      case AppFocusLost =>
        WindowQueuePush(w, LoseFocus);
      case AppFocusGained =>
        WindowQueuePush(w, GainFocus);
      case AppRedrawNeeded =>
        WindowQueuePush(w, Expose);
      case AppInputQueueDestroyed =>
        if inputQueue.Some? {
          calls := calls + [DetachLooper(inputQueue.value)];
        }
        inputQueue := None;
      case AppInputQueueCreated(q) =>
        if inputQueue.Some? {
          calls := calls + [DetachLooper(inputQueue.value)];
        }
        inputQueue := Some(q);
        calls := calls + [AttachLooper(q)];
    }

    /**
     * `zdl_app_handle_input`: a motion event pushes one record per
     * pointer, a key event one record, anything else nothing and is
     * reported unhandled.
     */
    method HandleInput(input: InputEvent, stale: Event) returns (handled: bool)
      modifies if window != null then {window.queue} else {}
      ensures handled <==> !input.OtherInput?
      ensures window != null ==> window.queue.items == old(window.queue.items) + InputRecords(input, stale)
    {
      var w := window;
      handled := true;
      match input
      case MotionInput(source, action, historySize, pointers) =>
        ghost var records := MotionRecords(source, action, historySize, pointers);
        var i := 0;
        while i < |pointers|
          invariant 0 <= i <= |pointers|
          invariant w != null ==> w.queue.items == old(w.queue.items) + records[..i]
        {
          var ev := MotionRecord(source, action, historySize, pointers[i], i);
          WindowQueuePush(w, ev);
          assert records[..i + 1] == records[..i] + [ev];
          i := i + 1;
        }
        assert records[..i] == records;
      case KeyInput(source, action, code, scan, meta, hostChar) =>
        WindowQueuePush(w, KeyRecord(source, action, code, scan, meta, hostChar, stale));
      case OtherInput =>
        handled := false;
    }

    /** One looper callback; an input event is finished with its handled flag. */
    method RunCallback(cb: Callback)
      modifies Repr()
      ensures window == old(window)
      ensures window != null ==> window.View() == AfterCallback(old(window.View()), cb)
      ensures window != null ==> window.flags == old(window.flags) && window.shutdown == old(window.shutdown)
    {
      match cb
      case AppCallback(aev) =>
        var fault := HandleEvent(aev);
      case InputCallback(input, stale) =>
        var handled := HandleInput(input, stale);
        calls := calls + [FinishInputEvent(handled)];
    }

    /** The pump loop shared by poll and wait; popping EXIT latches shutdown. */
    method Pump(w: AndroidWindow, callbacks: seq<Callback>) returns (ev: Option<Event>, used: nat)
      requires window == w
      modifies Repr()
      ensures window == w
      ensures w.View() == PumpSpec(old(w.View()), callbacks).0
      ensures ev == PumpSpec(old(w.View()), callbacks).1
      ensures used == PumpSpec(old(w.View()), callbacks).2
      ensures w.shutdown == (old(w.shutdown) || ev == Some(Exit))
      ensures w.flags == old(w.flags)
    {
      ghost var spec := PumpSpec(w.View(), callbacks);
      ev, used := None, 0;
      while used < |callbacks|
        invariant 0 <= used <= |callbacks|
        invariant window == w && ev == None
        invariant w.shutdown == old(w.shutdown) && w.flags == old(w.flags)
        invariant PumpSpec(w.View(), callbacks[used..]).0 == spec.0
        invariant PumpSpec(w.View(), callbacks[used..]).1 == spec.1
        invariant PumpSpec(w.View(), callbacks[used..]).2 + used == spec.2
        decreases |callbacks| - used
      {
        PumpSpecStep(w.View(), callbacks[used..]);
        assert callbacks[used..][1..] == callbacks[used + 1..];
        RunCallback(callbacks[used]);
        used := used + 1;
        ev := w.queue.Pop();
        if ev.Some? {
          if ev.value == Exit {
            w.shutdown := true;
          }
          return;
        }
      }
    }

    /**
     * `zdl_window_poll_event`: -1 at once after shutdown, otherwise the
     * pump over the callbacks that are ready, -1 when it pops nothing.
     */
    method PollEvent(w: AndroidWindow, callbacks: seq<Callback>) returns (rc: int, ev: Option<Event>, used: nat)
      requires window == w
      modifies Repr()
      ensures window == w
      ensures old(w.shutdown) ==> rc == -1 && ev == None && used == 0 && w.shutdown &&
                                  w.View() == old(w.View()) && state == old(state)
      ensures !old(w.shutdown) ==> (w.View(), ev, used) == PumpSpec(old(w.View()), callbacks)
      ensures rc == 0 <==> ev.Some?
      ensures rc == 0 || rc == -1
      ensures w.shutdown == (old(w.shutdown) || ev == Some(Exit))
    {
      if w.shutdown {
        return -1, None, 0;
      }
      ev, used := Pump(w, callbacks);
      rc := if ev.Some? then 0 else -1;
    }

    /**
     * `zdl_window_wait_event`: ERROR at once after shutdown, otherwise the
     * pump; None means the callbacks ran out while it was still waiting.
     */
    method WaitEvent(w: AndroidWindow, callbacks: seq<Callback>) returns (ev: Option<Event>, used: nat)
      requires window == w
      modifies Repr()
      ensures window == w
      ensures old(w.shutdown) ==> ev == Some(Error) && used == 0 && w.shutdown &&
                                  w.View() == old(w.View()) && state == old(state)
      ensures !old(w.shutdown) ==> w.View() == PumpSpec(old(w.View()), callbacks).0
      ensures !old(w.shutdown) ==> ev == PumpSpec(old(w.View()), callbacks).1
      ensures !old(w.shutdown) ==> used == PumpSpec(old(w.View()), callbacks).2
      ensures w.shutdown == (old(w.shutdown) || ev == Some(Exit))
      ensures w.flags == old(w.flags)
    {
      if w.shutdown {
        return Some(Error), 0;
      }
      ev, used := Pump(w, callbacks);
    }

    /**
     * One turn of the `do … while (ev.type != ZDL_EVENT_EXPOSE)` loop of
     * `zdl_window_create`: one wait, and whether the loop stops after it.
     */
    method ExposeTurn(w: AndroidWindow, callbacks: seq<Callback>, from: nat, ghost target: (WindowView, bool, int))
      returns (stop: bool, exposed: bool, used: nat, ghost after: WindowView)
      requires window == w && !w.shutdown && from < |callbacks|
      requires ExposeSpec(w.View(), callbacks[from..]) == target
      modifies Repr()
      ensures window == w && w.flags == old(w.flags) && w.View() == after
      ensures stop ==> (after, exposed, used as int) == target
      ensures !stop ==> !w.shutdown && 1 <= used <= |callbacks| - from
      ensures !stop ==> ExposeSpec(after, callbacks[from + used..]) == (target.0, target.1, target.2 - used)
    {
      ghost var v := w.View();
      var cbs := callbacks[from..];
      var ev;
      ev, used := WaitEvent(w, cbs);
      after := w.View();
      stop := ev == Some(Expose) || ev == Some(Exit) || ev.None?;
      exposed := ev == Some(Expose);
      if stop {
        ExposeSpecStops(v, cbs);
      } else {
        ExposeSpecContinues(v, cbs);
        assert cbs[used..] == callbacks[from + used..];
      }
    }

    /**
     * The `do … while (ev.type != ZDL_EVENT_EXPOSE)` loop of
     * `zdl_window_create`: wait events until EXPOSE is popped, the
     * callbacks run out, or EXIT latches shutdown.
     */
    method AwaitExpose(w: AndroidWindow, callbacks: seq<Callback>) returns (exposed: bool, used: nat)
      requires window == w && !w.shutdown
      modifies Repr()
      ensures window == w && w.flags == old(w.flags)
      ensures w.View() == ExposeSpec(old(w.View()), callbacks).0
      ensures exposed == ExposeSpec(old(w.View()), callbacks).1
      ensures used == ExposeSpec(old(w.View()), callbacks).2
    {
      exposed := false;
      ghost var cur := w.View();
      ghost var spec := ExposeSpec(cur, callbacks);
      assert callbacks[0..] == callbacks;
      used := 0;
      while used < |callbacks|
        invariant 0 <= used <= |callbacks|
        invariant window == w && w.flags == old(w.flags) && !w.shutdown && !exposed
        invariant w.View() == cur
        invariant ExposeSpec(cur, callbacks[used..]) == (spec.0, spec.1, spec.2 - used)
        decreases |callbacks| - used
      {
        var stop, seen, n;
        stop, seen, n, cur := ExposeTurn(w, callbacks, used, (spec.0, spec.1, spec.2 - used));
        if stop {
          return seen, used + n;
        }
        used := used + n;
      }
    }

    /**
     * `zdl_window_create`: fails while a window exists or when the record
     * cannot be allocated (`allocOk` false); otherwise the new
     * window takes the flags, becomes the application's window and waits
     * for EXPOSE, discarding everything popped before it. `exposed` is
     * false when the callbacks run out first, or when EXIT was popped
     * before EXPOSE: from then on the source's loop gets ERROR forever.
     */
    method CreateWindow(flags: Mask, allocOk: bool, callbacks: seq<Callback>) returns (w: AndroidWindow?, exposed: bool)
      modifies this
      ensures old(window) != null || !allocOk ==> w == null && !exposed && window == old(window) && calls == old(calls)
      ensures old(window) == null && allocOk ==> w != null && fresh(w) && window == w && w.flags == flags
      ensures old(window) == null && allocOk ==>
                w.View() == ExposeSpec(WindowView([], 0, 0, None), callbacks).0 &&
                exposed == ExposeSpec(WindowView([], 0, 0, None), callbacks).1
      ensures exposed ==> |calls| > 0 && calls[|calls| - 1] == DisplayInit
    {
      if window != null || !allocOk {
        return null, false;
      }
      w := new AndroidWindow();
      w.SetFlags(flags);
      window := w;
      var used;
      exposed, used := AwaitExpose(w, callbacks);
      if exposed {
        calls := calls + [DisplayInit];
      }
    }

    /** `zdl_window_destroy`: the application forgets the window, whose queued records are freed. */
    method DestroyWindow(w: AndroidWindow)
      requires window == w
      modifies this, w.queue
      ensures window == null && w.queue.items == [] && calls == old(calls) + [DisplayFini]
    {
      window := null;
      calls := calls + [DisplayFini];
      w.queue.Destroy();
    }
  }
}
