/**
 * The raw keyboard decoder of the DRM backend (zdl_drm.c): the console is
 * switched to medium-raw mode, so every byte read from the tty is a key
 * code in its low seven bits and a release flag in its high bit. The
 * decoder tracks the modifier keys in its own mask and falls back to two
 * US-layout tables for the printable keys.
 */
module DrmTty {
  import opened Zdl

  /** An `unsigned char` read from the tty. */
  type Byte = b: int | 0 <= b < 256

  // ---- the key-code switch of tty_read_event ----

  /** The symbol of a seven-bit key code, or KEYSYM_UNKNOWN for a code the switch does not list. */
  function ScancodeKeysym(code: nat): int
  {
    if 0x3b <= code <= 0x44 then KEYSYM_F1 + (code - 0x3b)
    else
      match code
      case 0x1d => KEYSYM_LCTRL
      case 0x2a => KEYSYM_LSHIFT
      case 0x36 => KEYSYM_RSHIFT
      case 0x38 => KEYSYM_LALT
      case 0x3a => KEYSYM_CAPSLOCK
      case 0x57 => KEYSYM_F11
      case 0x58 => KEYSYM_F12
      case 0x61 => KEYSYM_RCTRL
      case 0x63 => KEYSYM_PRINT
      case 0x64 => KEYSYM_RALT
      case 0x66 => KEYSYM_HOME
      case 0x67 => KEYSYM_UP
      case 0x68 => KEYSYM_PAGEUP
      case 0x69 => KEYSYM_LEFT
      case 0x6a => KEYSYM_RIGHT
      case 0x6b => KEYSYM_END
      case 0x6c => KEYSYM_DOWN
      case 0x6d => KEYSYM_PAGEDOWN
      case 0x6e => KEYSYM_INSERT
      case 0x6f => KEYSYM_DELETE
      case 0x7d => KEYSYM_LSUPER
      case _ => KEYSYM_UNKNOWN
  }

  /** The modifier bit a symbol stands for, or KEYMOD_NONE (the second switch of tty_read_event). */
  function KeymodOf(sym: int): Mask
  {
    match sym
    case 123 /* LSUPER */ => KEYMOD_LSUPER
    case 124 /* RSUPER */ => KEYMOD_RSUPER
    case 118 /* LCTRL */ => KEYMOD_LCTRL
    case 117 /* RCTRL */ => KEYMOD_RCTRL
    case 120 /* LALT */ => KEYMOD_LALT
    case 119 /* RALT */ => KEYMOD_RALT
    case 116 /* LSHIFT */ => KEYMOD_LSHIFT
    case 115 /* RSHIFT */ => KEYMOD_RSHIFT
    case _ => KEYMOD_NONE
  }

  /**
   * The seven codes the decoder treats as modifiers. Caps Lock has a
   * symbol but no modifier bit, so it is reported like any other key.
   */
  lemma ModifierCodes(code: nat)
    ensures KeymodOf(ScancodeKeysym(code)) != KEYMOD_NONE <==>
              code in {0x1d, 0x2a, 0x36, 0x38, 0x61, 0x64, 0x7d}
    ensures KeymodOf(ScancodeKeysym(code)) == KEYMOD_NONE ||
              KeymodOf(ScancodeKeysym(code)) in SINGLE_MODIFIERS
    ensures code == 0x3a ==> (ScancodeKeysym(code) == KEYSYM_CAPSLOCK &&
              KeymodOf(ScancodeKeysym(code)) == KEYMOD_NONE)
  {
  }

  /** Codes 0x3b..0x44, 0x57 and 0x58 are the function keys F1..F12, in order. */
  lemma FunctionKeyCodes(code: nat)
    ensures IsFunctionKey(ScancodeKeysym(code)) <==> 0x3b <= code <= 0x44 || code in {0x57, 0x58}
    ensures 0x3b <= code <= 0x44 ==> FunctionKeyNumber(ScancodeKeysym(code)) == code - 0x3a
    ensures code == 0x57 ==> FunctionKeyNumber(ScancodeKeysym(code)) == 11
    ensures code == 0x58 ==> FunctionKeyNumber(ScancodeKeysym(code)) == 12
  {
  }

  // ---- kbd_us_ascii and kbd_us_keysym ----

  /**
   * The code points of the US layout: 64 unshifted entries, then 64
   * shifted ones. Kept as the source has them, including the unshifted
   * '~' and shifted '`' on code 0x29.
   */
  const KBD_US_ASCII: seq<char> :=
    "\0\0123456" + "7890-=\U{8}\t" + "qwertyui" + "op[]\n\0as" +
    "dfghjkl;" + "'~\0\\zxcv" + "bnm,./\0\0" + "\0 \0\0\0\0\0\0" +
    "\0\0!@#$%^" + "&*()_+\U{8}\t" + "QWERTYUI" + "OP{}\n\0AS" +
    "DFGHJKL:" + "\"`\0|ZXCV" + "BNM<>?\0\0" + "\0 \0\0\0\0\0\0"

  /**
   * The symbols of the US layout, in the same order. An empty entry is
   * written 0 in the source, which is the ordinal of KEYSYM_BACKSPACE.
   */
  const KBD_US_KEYSYM: seq<int> :=
    [0, KEYSYM_ESCAPE, KEYSYM_1, KEYSYM_2, KEYSYM_3, KEYSYM_4, KEYSYM_5, KEYSYM_6] +
    [KEYSYM_7, KEYSYM_8, KEYSYM_9, KEYSYM_0, KEYSYM_MINUS, KEYSYM_EQUALS, KEYSYM_BACKSPACE, KEYSYM_TAB] +
    [KEYSYM_Q, KEYSYM_W, KEYSYM_E, KEYSYM_R, KEYSYM_T, KEYSYM_Y, KEYSYM_U, KEYSYM_I] +
    [KEYSYM_O, KEYSYM_P, KEYSYM_LEFTBRACKET, KEYSYM_RIGHTBRACKET, KEYSYM_RETURN, 0, KEYSYM_A, KEYSYM_S] +
    [KEYSYM_D, KEYSYM_F, KEYSYM_G, KEYSYM_H, KEYSYM_J, KEYSYM_K, KEYSYM_L, KEYSYM_SEMICOLON] +
    [KEYSYM_QUOTE, KEYSYM_BACKQUOTE, KEYSYM_QUESTION, KEYSYM_BACKSLASH, KEYSYM_Z, KEYSYM_X, KEYSYM_C, KEYSYM_V] +
    [KEYSYM_B, KEYSYM_N, KEYSYM_M, KEYSYM_COMMA, KEYSYM_PERIOD, KEYSYM_SLASH, 0, 0] +
    [0, KEYSYM_SPACE, 0, 0, 0, 0, 0, 0] +
    [0, KEYSYM_ESCAPE, KEYSYM_EXCLAIM, KEYSYM_AT, KEYSYM_HASH, KEYSYM_DOLLAR, KEYSYM_PERCENT, KEYSYM_CARET] +
    [KEYSYM_AMPERSAND, KEYSYM_ASTERISK, KEYSYM_LEFTPAREN, KEYSYM_RIGHTPAREN, KEYSYM_UNDERSCORE, KEYSYM_PLUS,
     KEYSYM_BACKSPACE, KEYSYM_TAB] +
    [KEYSYM_Q, KEYSYM_W, KEYSYM_E, KEYSYM_R, KEYSYM_T, KEYSYM_Y, KEYSYM_U, KEYSYM_I] +
    [KEYSYM_O, KEYSYM_P, KEYSYM_LEFTBRACKET, KEYSYM_RIGHTBRACKET, KEYSYM_RETURN, 0, KEYSYM_A, KEYSYM_S] +
    [KEYSYM_D, KEYSYM_F, KEYSYM_G, KEYSYM_H, KEYSYM_J, KEYSYM_K, KEYSYM_L, KEYSYM_COLON] +
    [KEYSYM_QUOTEDBL, KEYSYM_BACKQUOTE, 0, KEYSYM_BACKSLASH, KEYSYM_Z, KEYSYM_X, KEYSYM_C, KEYSYM_V] +
    [KEYSYM_B, KEYSYM_N, KEYSYM_M, KEYSYM_LESS, KEYSYM_GREATER, KEYSYM_QUESTION, 0, 0] +
    [0, KEYSYM_SPACE, 0, 0, 0, 0, 0, 0]

  /** Both tables hold an unshifted half of 64 entries followed by a shifted half. */
  lemma LayoutTableSizes()
    ensures |KBD_US_ASCII| == 128 && |KBD_US_KEYSYM| == 128
  {
  }

  /**
   * `tty_kbd_translate`: the symbol and code point of a code below 64,
   * taken from the shifted half when either shift key is held; codes of
   * 64 and above are not in the tables.
   */
  function KbdTranslate(keymod: Mask, code: nat): (r: Option<(int, int)>)
    ensures r.None? <==> code >= 64
  {
    if code < 64 then
      LayoutTableSizes();
      var index := code + (if keymod & KEYMOD_SHIFT != 0 then 64 else 0);
      Some((KBD_US_KEYSYM[index], KBD_US_ASCII[index] as int))
    else None
  }

  // ---- tty_read_event ----

  /** A key going down when the byte's high bit is clear, up when it is set. */
  function KeyEvent(press: bool, key: KeyInfo): Event
  {
    if press then KeyPress(key) else KeyRelease(key)
  }

  /**
   * One pass of the `tty_read_event` loop over byte `b`: the new modifier
   * mask, and the record the pass returns, or None when the pass skips
   * the byte (`continue`).
   */
  function DecodeByte(keymod: Mask, b: Byte): (r: (Mask, Option<Event>))
    ensures r.0 != keymod ==> KeymodOf(ScancodeKeysym(b % 0x80)) != KEYMOD_NONE && r.1.Some?
  {
    var sym := ScancodeKeysym(b % 0x80);
    DecodeSymbol(keymod, b, sym, KeymodOf(sym))
  }

  /** The pass once the two switches have given the byte's symbol and modifier bits. */
  function DecodeSymbol(keymod: Mask, b: Byte, sym: int, bits: Mask): (Mask, Option<Event>)
  {
    var press := b < 0x80;
    if bits != KEYMOD_NONE then
      var mods := UpdateModifiers(keymod, press, bits);
      if mods == keymod then (keymod, None)
      else (mods, Some(KeyEvent(press, KeyInfo(sym, mods, 0, b))))
    else if sym != KEYSYM_UNKNOWN then
      (keymod, Some(KeyEvent(press, KeyInfo(sym, keymod, 0, b))))
    else
      match KbdTranslate(keymod, b % 0x80)
      case None => (keymod, None)
      case Some(t) => (keymod, Some(KeyEvent(press, KeyInfo(t.0, keymod, t.1, b))))
  }

  /**
   * Every record is a press exactly when the high bit is clear, keeps the
   * raw byte as its scancode, carries the mask as it is after the byte
   * and, for a code the switch lists, that code's symbol.
   */
  lemma DecodedRecords(keymod: Mask, b: Byte)
    ensures var r := DecodeByte(keymod, b);
            r.1.Some? ==>
              (r.1.value.KeyPress? || r.1.value.KeyRelease?) &&
              (r.1.value.KeyPress? <==> b < 0x80) &&
              r.1.value.key.scancode == b &&
              r.1.value.key.modifiers == r.0 &&
              (ScancodeKeysym(b % 0x80) != KEYSYM_UNKNOWN ==> r.1.value.key.sym == ScancodeKeysym(b % 0x80))
  {
    var sym := ScancodeKeysym(b % 0x80);
    SymbolRecords(keymod, b, sym, KeymodOf(sym));
  }

  lemma SymbolRecords(keymod: Mask, b: Byte, sym: int, bits: Mask)
    ensures var r := DecodeSymbol(keymod, b, sym, bits);
            r.1.Some? ==>
              (r.1.value.KeyPress? || r.1.value.KeyRelease?) &&
              (r.1.value.KeyPress? <==> b < 0x80) &&
              r.1.value.key.scancode == b &&
              r.1.value.key.modifiers == r.0 &&
              (sym != KEYSYM_UNKNOWN ==> r.1.value.key.sym == sym)
  {
  }

  /**
   * A modifier press sets its bit and a release clears it, and a
   * modifier byte that leaves the mask as it was gives no record. Any
   * other byte leaves the mask alone.
   */
  lemma ModifierTracking(keymod: Mask, b: Byte)
    ensures DecodeByte(keymod, b).0 == UpdateModifiers(keymod, b < 0x80, KeymodOf(ScancodeKeysym(b % 0x80)))
    ensures KeymodOf(ScancodeKeysym(b % 0x80)) == KEYMOD_NONE ==> DecodeByte(keymod, b).0 == keymod
    ensures KeymodOf(ScancodeKeysym(b % 0x80)) != KEYMOD_NONE ==>
              (DecodeByte(keymod, b).1.None? <==> DecodeByte(keymod, b).0 == keymod)
  {
    var sym := ScancodeKeysym(b % 0x80);
    SymbolModifiers(keymod, b, sym, KeymodOf(sym));
  }

  lemma SymbolModifiers(keymod: Mask, b: Byte, sym: int, bits: Mask)
    ensures DecodeSymbol(keymod, b, sym, bits).0 == UpdateModifiers(keymod, b < 0x80, bits)
    ensures bits == KEYMOD_NONE ==> DecodeSymbol(keymod, b, sym, bits).0 == keymod
    ensures bits != KEYMOD_NONE ==>
              (DecodeSymbol(keymod, b, sym, bits).1.None? <==> DecodeSymbol(keymod, b, sym, bits).0 == keymod)
  {
    if bits == KEYMOD_NONE {
      UpdateWithoutBits(keymod, b < 0x80);
    }
  }

  /**
   * A code the switch does not list is looked up in the layout tables,
   * in the shifted half when a shift key is held, and skipped when it is
   * 64 or more. A listed key that is not a modifier carries code point 0.
   */
  lemma TableFallback(keymod: Mask, b: Byte)
    ensures var code := b % 0x80;
            var r := DecodeByte(keymod, b);
            (ScancodeKeysym(code) == KEYSYM_UNKNOWN && code >= 64 ==> r == (keymod, None)) &&
            (ScancodeKeysym(code) == KEYSYM_UNKNOWN && code < 64 ==>
               var index := code + (if keymod & KEYMOD_SHIFT != 0 then 64 else 0);
               LayoutTableSizes();
               r.1.Some? && r.1.value.key.sym == KBD_US_KEYSYM[index] &&
               r.1.value.key.unicode == KBD_US_ASCII[index] as int) &&
            (ScancodeKeysym(code) != KEYSYM_UNKNOWN && KeymodOf(ScancodeKeysym(code)) == KEYMOD_NONE ==>
               r.1.Some? && r.1.value.key.sym == ScancodeKeysym(code) && r.1.value.key.unicode == 0)
  {
    LayoutTableSizes();
  }

  /**
   * The source lists 0xe0..0xe2 as lead bytes to skip, but it tests the
   * byte after clearing the high bit, so that case never matches: 0xe0
   * and 0xe2 are skipped only because codes 0x60 and 0x62 are unknown
   * and above the tables, and 0xe1 is the release of Right Ctrl (code 0x61).
   */
  lemma LeadBytes(keymod: Mask)
    ensures DecodeByte(keymod, 0xe0) == (keymod, None)
    ensures DecodeByte(keymod, 0xe2) == (keymod, None)
    ensures DecodeByte(keymod, 0xe1).0 == keymod & !KEYMOD_RCTRL
    ensures DecodeByte(keymod, 0xe1).1.Some? <==> keymod & KEYMOD_RCTRL != 0
    ensures DecodeByte(keymod, 0xe1).1.Some? ==>
              DecodeByte(keymod, 0xe1).1.value == KeyRelease(KeyInfo(KEYSYM_RCTRL, keymod & !KEYMOD_RCTRL, 0, 0xe1))
  {
    assert ScancodeKeysym(0x60) == KEYSYM_UNKNOWN && ScancodeKeysym(0x62) == KEYSYM_UNKNOWN;
    assert ScancodeKeysym(0x61) == KEYSYM_RCTRL && KeymodOf(KEYSYM_RCTRL) == KEYMOD_RCTRL;
    SymbolModifiers(keymod, 0xe1, KEYSYM_RCTRL, KEYMOD_RCTRL);
    SymbolRecords(keymod, 0xe1, KEYSYM_RCTRL, KEYMOD_RCTRL);
    ReleaseChangesMask(keymod, KEYMOD_RCTRL);
  }

  /**
   * `tty_read_event` over the bytes the tty delivers: the mask after the
   * bytes consumed, the record returned (None when the bytes ran out and
   * the read failed) and the number of bytes consumed.
   */
  function ReadSpec(keymod: Mask, bytes: seq<Byte>): (r: (Mask, Option<Event>, nat))
    ensures r.2 <= |bytes|
    ensures r.1.None? ==> r.2 == |bytes|
    ensures r.1.Some? ==> r.2 >= 1
    decreases |bytes|
  {
    if bytes == [] then (keymod, None, 0)
    else
      var d := DecodeByte(keymod, bytes[0]);
      if d.1.Some? then (d.0, d.1, 1)
      else
        var rest := ReadSpec(d.0, bytes[1..]);
        (rest.0, rest.1, rest.2 + 1)
  }

  /** The modifier mask after decoding every byte of `bytes`, whatever records they give. */
  function KeymodAfter(keymod: Mask, bytes: seq<Byte>): Mask
    decreases |bytes|
  {
    if bytes == [] then keymod else KeymodAfter(DecodeByte(keymod, bytes[0]).0, bytes[1..])
  }

  /** Decoding the first `k` bytes is one byte and then `k - 1` more. */
  lemma KeymodAfterPrefix(keymod: Mask, bytes: seq<Byte>, k: nat)
    requires 0 < k <= |bytes|
    ensures KeymodAfter(keymod, bytes[..k]) == KeymodAfter(DecodeByte(keymod, bytes[0]).0, bytes[1..][..k - 1])
  {
    assert bytes[..k][1..] == bytes[1..][..k - 1];
  }

  /** Every byte a read consumes before the one that gives its record yields nothing. */
  lemma {:induction false} ReadSkipsSilentBytes(keymod: Mask, bytes: seq<Byte>)
    ensures var r := ReadSpec(keymod, bytes);
            forall k :: 0 <= k < |bytes| && (if r.1.Some? then k < r.2 - 1 else k < r.2) ==>
              DecodeByte(KeymodAfter(keymod, bytes[..k]), bytes[k]).1.None?
    decreases |bytes|
  {
    if bytes != [] {
      ReadSpecStep(keymod, bytes);
      var d := DecodeByte(keymod, bytes[0]);
      assert bytes[..0] == [];
      if d.1.None? {
        ReadSkipsSilentBytes(d.0, bytes[1..]);
        var r := ReadSpec(keymod, bytes);
        forall k | 0 < k < |bytes| && (if r.1.Some? then k < r.2 - 1 else k < r.2)
          ensures DecodeByte(KeymodAfter(keymod, bytes[..k]), bytes[k]).1.None?
        {
          KeymodAfterPrefix(keymod, bytes, k);
          assert bytes[k] == bytes[1..][k - 1];
        }
      }
    }
  }

  /**
   * The record a read returns is that of its last consumed byte, decoded
   * with the mask the bytes before it leave; so is the mask afterwards.
   */
  lemma {:induction false} ReadRecordIsDecoded(keymod: Mask, bytes: seq<Byte>)
    ensures var r := ReadSpec(keymod, bytes);
            r.1.Some? ==> var d := DecodeByte(KeymodAfter(keymod, bytes[..r.2 - 1]), bytes[r.2 - 1]);
                          d.0 == r.0 && d.1 == r.1
    decreases |bytes|
  {
    if bytes != [] {
      ReadSpecStep(keymod, bytes);
      var d := DecodeByte(keymod, bytes[0]);
      if d.1.None? {
        ReadRecordIsDecoded(d.0, bytes[1..]);
        var rest := ReadSpec(d.0, bytes[1..]);
        if rest.1.Some? {
          KeymodAfterPrefix(keymod, bytes, rest.2);
          assert bytes[rest.2] == bytes[1..][rest.2 - 1];
        }
      } else {
        assert bytes[..0] == [];
      }
    }
  }

  /** A read that returns no record leaves the mask all its bytes leave. */
  lemma {:induction false} ReadWithoutRecordMask(keymod: Mask, bytes: seq<Byte>)
    ensures var r := ReadSpec(keymod, bytes);
            r.1.None? ==> r.0 == KeymodAfter(keymod, bytes)
    decreases |bytes|
  {
    if bytes != [] {
      ReadSpecStep(keymod, bytes);
      if DecodeByte(keymod, bytes[0]).1.None? {
        ReadWithoutRecordMask(DecodeByte(keymod, bytes[0]).0, bytes[1..]);
      }
    }
  }

  /** The first byte either gives the record or is consumed on the way to it. */
  lemma ReadSpecStep(keymod: Mask, bytes: seq<Byte>)
    requires bytes != []
    ensures var d := DecodeByte(keymod, bytes[0]);
            var r := ReadSpec(keymod, bytes);
            if d.1.Some? then r.0 == d.0 && r.1 == d.1 && r.2 == 1
            else r.0 == ReadSpec(d.0, bytes[1..]).0 && r.1 == ReadSpec(d.0, bytes[1..]).1 &&
                 r.2 == ReadSpec(d.0, bytes[1..]).2 + 1
  {
  }

  /** The decoder state kept across reads: `struct tty` without the saved terminal settings. */
  class Tty {
    var keymod: Mask

    /** `tty_create` zero-fills the structure, so no modifier is held. */
    constructor()
      ensures keymod == KEYMOD_NONE
    {
      keymod := KEYMOD_NONE;
    }

    /**
     * Reads bytes until one gives a record; returns 0 with that record,
     * or -1 without one when the bytes run out.
     */
    method ReadEvent(bytes: seq<Byte>) returns (rc: int, ev: Option<Event>, used: nat)
      modifies this
      ensures keymod == ReadSpec(old(keymod), bytes).0
      ensures ev == ReadSpec(old(keymod), bytes).1
      ensures used == ReadSpec(old(keymod), bytes).2
      ensures rc == 0 <==> ev.Some?
      ensures rc == -1 <==> ev.None?
    {
      ghost var spec := ReadSpec(keymod, bytes);
      used := 0;
      while used < |bytes|
        invariant 0 <= used <= |bytes|
        invariant ReadSpec(keymod, bytes[used..]).0 == spec.0
        invariant ReadSpec(keymod, bytes[used..]).1 == spec.1
        invariant ReadSpec(keymod, bytes[used..]).2 + used == spec.2
      {
        ReadSpecStep(keymod, bytes[used..]);
        assert bytes[used..][1..] == bytes[used + 1..];
        var d := DecodeByte(keymod, bytes[used]);
        keymod := d.0;
        used := used + 1;
        if d.1.Some? {
          return 0, d.1, used;
        }
      }
      return -1, None, used;
    }
  }
}
