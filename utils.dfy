/**
 * The keyboard side of the tone generator (namespace utils): the table from the
 * repository's logical keys to X11 keysyms, and the key-state query that turns a
 * keysym into a keycode and tests that keycode's bit in a keymap snapshot.
 *
 * The X server is not modelled. XKeysymToKeycode becomes the function parameter
 * `keycodeOf` (the server's current keyboard mapping), and XQueryKeymap becomes
 * the 32-byte snapshot it would have filled in.
 */
module Utils {
  import opened Wrappers

  /**
   * The logical keys that the keysym table names, one constructor per case of its
   * switch, and `Unlisted` for every other KeyCode value the switch can receive.
   * (The keys with Latin-1 keysyms are declared first; the order carries no meaning.)
   */
  datatype Key =
    | KeyA | KeyB | KeyC | KeyD | KeyE | KeyF | KeyG | KeyH | KeyI | KeyJ | KeyK | KeyL | KeyM
    | KeyN | KeyO | KeyP | KeyQ | KeyR | KeyS | KeyT | KeyU | KeyV | KeyW | KeyX | KeyY | KeyZ
    | Key0 | Key1 | Key2 | Key3 | Key4 | Key5 | Key6 | Key7 | Key8 | Key9 | KeySpace | KeyQuote
    | KeyComma | KeyMinus | KeyStop | KeySlash | KeyColon | KeyBackslash2 | KeyOpenbrace
    | KeyBackslash | KeyClosebrace | KeyTilde | KeyBackspace | KeyTab | KeyEnter | KeyPause
    | KeyScrLock | KeyEsc | KeyDel | KeyHome | KeyLeft | KeyUp | KeyRight | KeyDown | KeyPageUp
    | KeyPageDown | KeyEnd | KeyPrtscr | KeyInsert | KeyMenu | KeyNumLock | KeyEnterPad
    | Key0Pad | Key1Pad | Key2Pad | Key3Pad | Key4Pad | Key5Pad | Key6Pad | Key7Pad | Key8Pad
    | Key9Pad | KeyDelPad | KeyEqualsPad | KeyAsterisk | KeyPlusPad | KeyMinusPad | KeySlashPad
    | KeyF1 | KeyF2 | KeyF3 | KeyF4 | KeyF5 | KeyF6 | KeyF7 | KeyF8 | KeyF9 | KeyF10 | KeyF11
    | KeyF12 | KeyLShift | KeyRShift | KeyLControl | KeyRControl | KeyCapsLock | KeyAlt
    | KeyAltGr | KeyLWin | KeyRWin
    | Unlisted(code: nat)

  /**
   * x11_keysym_to_scancode: the keysym a logical key is queried under, with the
   * values of X11's KEYSYM encoding (Appendix A of the X Window System Protocol);
   * 0 for a key the switch does not name. The switch is read here in the groups it
   * lists its cases in, and the first group that names the key gives its keysym.
   * Every listed key is found
   * again from its keysym by the independently written inverse table, and a key
   * that stands for a character is queried under that character's code.
   */
  function KeysymOf(k: Key): (ks: nat)
    ensures ks == 0 <==> k.Unlisted?
    ensures !k.Unlisted? ==> KeyOfKeysym(ks) == Some(k)
    ensures CharOf(k).Some? ==> ks == CharOf(k).value as nat
    ensures !k.Unlisted? && CharOf(k).None? ==> 0xFF00 <= ks
  {
    if EditingKeysym(k) != 0 then EditingKeysym(k)
    else if KeypadKeysym(k) != 0 then KeypadKeysym(k)
    else if FunctionKeysym(k) != 0 then FunctionKeysym(k)
    else if ModifierKeysym(k) != 0 then ModifierKeysym(k)
    else if PunctuationKeysym(k) != 0 then PunctuationKeysym(k)
    else LetterKeysym(k)
  }

  /** Editing, cursor and lock keys; 0 for every other key. */
  function EditingKeysym(k: Key): (ks: nat)
    ensures ks != 0 ==> KeyOfKeysym(ks) == Some(k) && CharOf(k).None? && 0xFF00 <= ks
  {
    match k
    case KeyBackspace => 0xFF08  // XK_BackSpace
    case KeyTab => 0xFF09  // XK_Tab
    case KeyEnter => 0xFF0D  // XK_Return
    case KeyPause => 0xFF13  // XK_Pause
    case KeyScrLock => 0xFF14  // XK_Scroll_Lock
    case KeyEsc => 0xFF1B  // XK_Escape
    case KeyDel => 0xFFFF  // XK_Delete
    case KeyHome => 0xFF50  // XK_Home
    case KeyLeft => 0xFF51  // XK_Left
    case KeyUp => 0xFF52  // XK_Up
    case KeyRight => 0xFF53  // XK_Right
    case KeyDown => 0xFF54  // XK_Down
    case KeyPageUp => 0xFF55  // XK_Page_Up
    case KeyPageDown => 0xFF56  // XK_Page_Down
    case KeyEnd => 0xFF57  // XK_End
    case KeyPrtscr => 0xFF61  // XK_Print
    case KeyInsert => 0xFF63  // XK_Insert
    case KeyMenu => 0xFF67  // XK_Menu
    case KeyNumLock => 0xFF7F  // XK_Num_Lock
    case _ => 0
  }

  /** The numeric keypad; 0 for every other key. */
  function KeypadKeysym(k: Key): (ks: nat)
    ensures ks != 0 ==> KeyOfKeysym(ks) == Some(k) && CharOf(k).None? && 0xFF00 <= ks
  {
    match k
    case KeyEnterPad => 0xFF8D  // XK_KP_Enter
    case Key0Pad => 0xFFB0  // XK_KP_0
    case Key1Pad => 0xFFB1  // XK_KP_1
    case Key2Pad => 0xFFB2  // XK_KP_2
    case Key3Pad => 0xFFB3  // XK_KP_3
    case Key4Pad => 0xFFB4  // XK_KP_4
    case Key5Pad => 0xFFB5  // XK_KP_5
    case Key6Pad => 0xFFB6  // XK_KP_6
    case Key7Pad => 0xFFB7  // XK_KP_7
    case Key8Pad => 0xFFB8  // XK_KP_8
    case Key9Pad => 0xFFB9  // XK_KP_9
    case KeyDelPad => 0xFF9F  // XK_KP_Delete
    case KeyEqualsPad => 0xFFBD  // XK_KP_Equal
    case KeyAsterisk => 0xFFAA  // XK_KP_Multiply
    case KeyPlusPad => 0xFFAB  // XK_KP_Add
    case KeyMinusPad => 0xFFAD  // XK_KP_Subtract
    case KeySlashPad => 0xFFAF  // XK_KP_Divide
    case _ => 0
  }

  /** F1 to F12; 0 for every other key. */
  function FunctionKeysym(k: Key): (ks: nat)
    ensures ks != 0 ==> KeyOfKeysym(ks) == Some(k) && CharOf(k).None? && 0xFF00 <= ks
  {
    match k
    case KeyF1 => 0xFFBE  // XK_F1
    case KeyF2 => 0xFFBF  // XK_F2
    case KeyF3 => 0xFFC0  // XK_F3
    case KeyF4 => 0xFFC1  // XK_F4
    case KeyF5 => 0xFFC2  // XK_F5
    case KeyF6 => 0xFFC3  // XK_F6
    case KeyF7 => 0xFFC4  // XK_F7
    case KeyF8 => 0xFFC5  // XK_F8
    case KeyF9 => 0xFFC6  // XK_F9
    case KeyF10 => 0xFFC7  // XK_F10
    case KeyF11 => 0xFFC8  // XK_F11
    case KeyF12 => 0xFFC9  // XK_F12
    case _ => 0
  }

  /** Shift, Control, Caps Lock, Alt and the Windows keys; 0 for every other key. */
  function ModifierKeysym(k: Key): (ks: nat)
    ensures ks != 0 ==> KeyOfKeysym(ks) == Some(k) && CharOf(k).None? && 0xFF00 <= ks
  {
    match k
    case KeyLShift => 0xFFE1  // XK_Shift_L
    case KeyRShift => 0xFFE2  // XK_Shift_R
    case KeyLControl => 0xFFE3  // XK_Control_L
    case KeyRControl => 0xFFE4  // XK_Control_R
    case KeyCapsLock => 0xFFE5  // XK_Caps_Lock
    case KeyAlt => 0xFFE9  // XK_Alt_L
    case KeyAltGr => 0xFFEA  // XK_Alt_R
    case KeyLWin => 0xFFEB  // XK_Super_L
    case KeyRWin => 0xFFEC  // XK_Super_R
    case _ => 0
  }

  /** Space, punctuation and the digits; 0 for every other key. */
  function PunctuationKeysym(k: Key): (ks: nat)
    ensures ks != 0 ==> KeyOfKeysym(ks) == Some(k) && CharOf(k).Some? && ks == CharOf(k).value as nat
  {
    match k
    case KeySpace => 0x0020  // XK_space
    case KeyQuote => 0x0027  // XK_apostrophe
    case KeyComma => 0x002C  // XK_comma
    case KeyMinus => 0x002D  // XK_minus
    case KeyStop => 0x002E  // XK_period
    case KeySlash => 0x002F  // XK_slash
    case Key0 => 0x0030  // XK_0
    case Key1 => 0x0031  // XK_1
    case Key2 => 0x0032  // XK_2
    case Key3 => 0x0033  // XK_3
    case Key4 => 0x0034  // XK_4
    case Key5 => 0x0035  // XK_5
    case Key6 => 0x0036  // XK_6
    case Key7 => 0x0037  // XK_7
    case Key8 => 0x0038  // XK_8
    case Key9 => 0x0039  // XK_9
    case KeyColon => 0x003B  // XK_semicolon
    case KeyBackslash2 => 0x003C  // XK_less
    case KeyOpenbrace => 0x005B  // XK_bracketleft
    case KeyBackslash => 0x005C  // XK_backslash
    case KeyClosebrace => 0x005D  // XK_bracketright
    case KeyTilde => 0x0060  // XK_grave
    case _ => 0
  }

  /** The letters; 0 for every other key. */
  function LetterKeysym(k: Key): (ks: nat)
    ensures ks != 0 ==> KeyOfKeysym(ks) == Some(k) && CharOf(k).Some? && ks == CharOf(k).value as nat
  {
    match k
    case KeyA => 0x0061  // XK_a
    case KeyB => 0x0062  // XK_b
    case KeyC => 0x0063  // XK_c
    case KeyD => 0x0064  // XK_d
    case KeyE => 0x0065  // XK_e
    case KeyF => 0x0066  // XK_f
    case KeyG => 0x0067  // XK_g
    case KeyH => 0x0068  // XK_h
    case KeyI => 0x0069  // XK_i
    case KeyJ => 0x006A  // XK_j
    case KeyK => 0x006B  // XK_k
    case KeyL => 0x006C  // XK_l
    case KeyM => 0x006D  // XK_m
    case KeyN => 0x006E  // XK_n
    case KeyO => 0x006F  // XK_o
    case KeyP => 0x0070  // XK_p
    case KeyQ => 0x0071  // XK_q
    case KeyR => 0x0072  // XK_r
    case KeyS => 0x0073  // XK_s
    case KeyT => 0x0074  // XK_t
    case KeyU => 0x0075  // XK_u
    case KeyV => 0x0076  // XK_v
    case KeyW => 0x0077  // XK_w
    case KeyX => 0x0078  // XK_x
    case KeyY => 0x0079  // XK_y
    case KeyZ => 0x007A  // XK_z
    case _ => 0
  }

  /** No two listed logical keys share a keysym. */
  lemma KeysymInjective(a: Key, b: Key)
    requires !a.Unlisted? && !b.Unlisted?
    requires KeysymOf(a) == KeysymOf(b)
    ensures a == b
  {
    assert KeyOfKeysym(KeysymOf(a)) == Some(a);
  }

  /**
   * The inverse table: the logical key a keysym belongs to, if any, split by the
   * ranges of X11's keysyms: Latin-1 characters below 0x100, then the function-key
   * keysyms from 0xFF00.
   */
  function KeyOfKeysym(ks: nat): Option<Key>
  {
    if ks < 0x61 then KeyOfSymbolKeysym(ks)
    else if ks < 0x100 then KeyOfLetterKeysym(ks)
    else if ks < 0xFF00 then None
    else if ks < 0xFF80 then KeyOfEditingKeysym(ks)
    else if ks < 0xFFBE then KeyOfKeypadKeysym(ks)
    else if ks < 0xFFE0 then KeyOfFunctionKeysym(ks)
    else KeyOfModifierKeysym(ks)
  }

  /** Space, punctuation and digits (0x20..0x60); each digit's code is the keysym of that digit's key. */
  function KeyOfSymbolKeysym(ks: nat): (r: Option<Key>)
    ensures 0x30 <= ks <= 0x39 ==> r.Some? && CharOf(r.value).Some? && CharOf(r.value).value as nat == ks
  {
    match ks
    case 0x0020 => Some(KeySpace)  // XK_space
    case 0x0027 => Some(KeyQuote)  // XK_apostrophe
    case 0x002C => Some(KeyComma)  // XK_comma
    case 0x002D => Some(KeyMinus)  // XK_minus
    case 0x002E => Some(KeyStop)  // XK_period
    case 0x002F => Some(KeySlash)  // XK_slash
    case 0x0030 => Some(Key0)  // XK_0
    case 0x0031 => Some(Key1)  // XK_1
    case 0x0032 => Some(Key2)  // XK_2
    case 0x0033 => Some(Key3)  // XK_3
    case 0x0034 => Some(Key4)  // XK_4
    case 0x0035 => Some(Key5)  // XK_5
    case 0x0036 => Some(Key6)  // XK_6
    case 0x0037 => Some(Key7)  // XK_7
    case 0x0038 => Some(Key8)  // XK_8
    case 0x0039 => Some(Key9)  // XK_9
    case 0x003B => Some(KeyColon)  // XK_semicolon
    case 0x003C => Some(KeyBackslash2)  // XK_less
    case 0x005B => Some(KeyOpenbrace)  // XK_bracketleft
    case 0x005C => Some(KeyBackslash)  // XK_backslash
    case 0x005D => Some(KeyClosebrace)  // XK_bracketright
    case 0x0060 => Some(KeyTilde)  // XK_grave
    case _ => None
  }

  /** The lower-case letters (0x61..0x7A); each letter's code is the keysym of that letter's key. */
  function KeyOfLetterKeysym(ks: nat): (r: Option<Key>)
    ensures 0x61 <= ks <= 0x7A ==> r.Some? && CharOf(r.value).Some? && CharOf(r.value).value as nat == ks
  {
    match ks
    case 0x0061 => Some(KeyA)  // XK_a
    case 0x0062 => Some(KeyB)  // XK_b
    case 0x0063 => Some(KeyC)  // XK_c
    case 0x0064 => Some(KeyD)  // XK_d
    case 0x0065 => Some(KeyE)  // XK_e
    case 0x0066 => Some(KeyF)  // XK_f
    case 0x0067 => Some(KeyG)  // XK_g
    case 0x0068 => Some(KeyH)  // XK_h
    case 0x0069 => Some(KeyI)  // XK_i
    case 0x006A => Some(KeyJ)  // XK_j
    case 0x006B => Some(KeyK)  // XK_k
    case 0x006C => Some(KeyL)  // XK_l
    case 0x006D => Some(KeyM)  // XK_m
    case 0x006E => Some(KeyN)  // XK_n
    case 0x006F => Some(KeyO)  // XK_o
    case 0x0070 => Some(KeyP)  // XK_p
    case 0x0071 => Some(KeyQ)  // XK_q
    case 0x0072 => Some(KeyR)  // XK_r
    case 0x0073 => Some(KeyS)  // XK_s
    case 0x0074 => Some(KeyT)  // XK_t
    case 0x0075 => Some(KeyU)  // XK_u
    case 0x0076 => Some(KeyV)  // XK_v
    case 0x0077 => Some(KeyW)  // XK_w
    case 0x0078 => Some(KeyX)  // XK_x
    case 0x0079 => Some(KeyY)  // XK_y
    case 0x007A => Some(KeyZ)  // XK_z
    case _ => None
  }

  /** Editing, cursor and lock keys (0xFF00..0xFF7F). */
  function KeyOfEditingKeysym(ks: nat): Option<Key>
  {
    match ks
    case 0xFF08 => Some(KeyBackspace)  // XK_BackSpace
    case 0xFF09 => Some(KeyTab)  // XK_Tab
    case 0xFF0D => Some(KeyEnter)  // XK_Return
    case 0xFF13 => Some(KeyPause)  // XK_Pause
    case 0xFF14 => Some(KeyScrLock)  // XK_Scroll_Lock
    case 0xFF1B => Some(KeyEsc)  // XK_Escape
    case 0xFF50 => Some(KeyHome)  // XK_Home
    case 0xFF51 => Some(KeyLeft)  // XK_Left
    case 0xFF52 => Some(KeyUp)  // XK_Up
    case 0xFF53 => Some(KeyRight)  // XK_Right
    case 0xFF54 => Some(KeyDown)  // XK_Down
    case 0xFF55 => Some(KeyPageUp)  // XK_Page_Up
    case 0xFF56 => Some(KeyPageDown)  // XK_Page_Down
    case 0xFF57 => Some(KeyEnd)  // XK_End
    case 0xFF61 => Some(KeyPrtscr)  // XK_Print
    case 0xFF63 => Some(KeyInsert)  // XK_Insert
    case 0xFF67 => Some(KeyMenu)  // XK_Menu
    case 0xFF7F => Some(KeyNumLock)  // XK_Num_Lock
    case _ => None
  }

  /** Keypad keys (0xFF80..0xFFBD). */
  function KeyOfKeypadKeysym(ks: nat): Option<Key>
  {
    match ks
    case 0xFF8D => Some(KeyEnterPad)  // XK_KP_Enter
    case 0xFF9F => Some(KeyDelPad)  // XK_KP_Delete
    case 0xFFAA => Some(KeyAsterisk)  // XK_KP_Multiply
    case 0xFFAB => Some(KeyPlusPad)  // XK_KP_Add
    case 0xFFAD => Some(KeyMinusPad)  // XK_KP_Subtract
    case 0xFFAF => Some(KeySlashPad)  // XK_KP_Divide
    case 0xFFB0 => Some(Key0Pad)  // XK_KP_0
    case 0xFFB1 => Some(Key1Pad)  // XK_KP_1
    case 0xFFB2 => Some(Key2Pad)  // XK_KP_2
    case 0xFFB3 => Some(Key3Pad)  // XK_KP_3
    case 0xFFB4 => Some(Key4Pad)  // XK_KP_4
    case 0xFFB5 => Some(Key5Pad)  // XK_KP_5
    case 0xFFB6 => Some(Key6Pad)  // XK_KP_6
    case 0xFFB7 => Some(Key7Pad)  // XK_KP_7
    case 0xFFB8 => Some(Key8Pad)  // XK_KP_8
    case 0xFFB9 => Some(Key9Pad)  // XK_KP_9
    case 0xFFBD => Some(KeyEqualsPad)  // XK_KP_Equal
    case _ => None
  }

  /** F1 to F12 (0xFFBE..0xFFDF). */
  function KeyOfFunctionKeysym(ks: nat): Option<Key>
  {
    match ks
    case 0xFFBE => Some(KeyF1)  // XK_F1
    case 0xFFBF => Some(KeyF2)  // XK_F2
    case 0xFFC0 => Some(KeyF3)  // XK_F3
    case 0xFFC1 => Some(KeyF4)  // XK_F4
    case 0xFFC2 => Some(KeyF5)  // XK_F5
    case 0xFFC3 => Some(KeyF6)  // XK_F6
    case 0xFFC4 => Some(KeyF7)  // XK_F7
    case 0xFFC5 => Some(KeyF8)  // XK_F8
    case 0xFFC6 => Some(KeyF9)  // XK_F9
    case 0xFFC7 => Some(KeyF10)  // XK_F10
    case 0xFFC8 => Some(KeyF11)  // XK_F11
    case 0xFFC9 => Some(KeyF12)  // XK_F12
    case _ => None
  }

  /** Modifier keys and Delete (0xFFE0..0xFFFF). */
  function KeyOfModifierKeysym(ks: nat): Option<Key>
  {
    match ks
    case 0xFFE1 => Some(KeyLShift)  // XK_Shift_L
    case 0xFFE2 => Some(KeyRShift)  // XK_Shift_R
    case 0xFFE3 => Some(KeyLControl)  // XK_Control_L
    case 0xFFE4 => Some(KeyRControl)  // XK_Control_R
    case 0xFFE5 => Some(KeyCapsLock)  // XK_Caps_Lock
    case 0xFFE9 => Some(KeyAlt)  // XK_Alt_L
    case 0xFFEA => Some(KeyAltGr)  // XK_Alt_R
    case 0xFFEB => Some(KeyLWin)  // XK_Super_L
    case 0xFFEC => Some(KeyRWin)  // XK_Super_R
    case 0xFFFF => Some(KeyDel)  // XK_Delete
    case _ => None
  }

  /**
   * The character a key stands for, for the keys whose keysym lies on the Latin-1
   * page: letters, digits and punctuation.
   */
  function CharOf(k: Key): Option<char>
  {
    match k
    case KeySpace => Some(' ')
    case KeyQuote => Some('\'')
    case KeyComma => Some(',')
    case KeyMinus => Some('-')
    case KeyStop => Some('.')
    case KeySlash => Some('/')
    case Key0 => Some('0')
    case Key1 => Some('1')
    case Key2 => Some('2')
    case Key3 => Some('3')
    case Key4 => Some('4')
    case Key5 => Some('5')
    case Key6 => Some('6')
    case Key7 => Some('7')
    case Key8 => Some('8')
    case Key9 => Some('9')
    case KeyColon => Some(';')
    case KeyBackslash2 => Some('<')
    case KeyOpenbrace => Some('[')
    case KeyBackslash => Some('\\')
    case KeyClosebrace => Some(']')
    case KeyTilde => Some('`')
    case KeyA => Some('a')
    case KeyB => Some('b')
    case KeyC => Some('c')
    case KeyD => Some('d')
    case KeyE => Some('e')
    case KeyF => Some('f')
    case KeyG => Some('g')
    case KeyH => Some('h')
    case KeyI => Some('i')
    case KeyJ => Some('j')
    case KeyK => Some('k')
    case KeyL => Some('l')
    case KeyM => Some('m')
    case KeyN => Some('n')
    case KeyO => Some('o')
    case KeyP => Some('p')
    case KeyQ => Some('q')
    case KeyR => Some('r')
    case KeyS => Some('s')
    case KeyT => Some('t')
    case KeyU => Some('u')
    case KeyV => Some('v')
    case KeyW => Some('w')
    case KeyX => Some('x')
    case KeyY => Some('y')
    case KeyZ => Some('z')
    case _ => None
  }

  // ---------------------------------------------------------------------------
  // Key-state query

  /** An X11 KeyCode is an unsigned 8-bit value; 0 is NoSymbol. */
  type KeyCode = n: int | 0 <= n < 256
  const NoSymbol: KeyCode := 0

  /** The snapshot XQueryKeymap fills in: 32 bytes, one bit per keycode. */
  type Keymap = s: seq<bv8> | |s| == 32 witness seq(32, _ => 0 as bv8)

  /** Bit `kc % 8` of byte `kc / 8`; the byte index is below 32 because kc < 256. */
  predicate KeyBit(keymap: Keymap, kc: KeyCode)
  {
    keymap[kc / 8] & (1 << (kc % 8)) != 0
  }

  /**
   * is_key_press_by_vk: false when the keysym has no keycode, whatever the
   * snapshot holds, and otherwise the keycode's bit in the snapshot.
   */
  function IsKeyPressByVk(vk: nat, keycodeOf: nat -> KeyCode, keymap: Keymap): (r: bool)
    ensures keycodeOf(vk) == NoSymbol ==> !r
  {
    var keycode := keycodeOf(vk);
    if keycode == NoSymbol then false
    else KeyBit(keymap, keycode)
  }

  /**
   * is_key_press_by_keycode: a logical key is queried under its keysym, so a key
   * the table does not name is queried under keysym 0.
   */
  function IsKeyPressByKeycode(k: Key, keycodeOf: nat -> KeyCode, keymap: Keymap): (r: bool)
    ensures k.Unlisted? ==> r == IsKeyPressByVk(0, keycodeOf, keymap)
    ensures k.Unlisted? && keycodeOf(0) == NoSymbol ==> !r
  {
    IsKeyPressByVk(KeysymOf(k), keycodeOf, keymap)
  }

  /**
   * Lower-case letters and digits are queried under their ASCII codes: for such a
   * character, the key the table files under its code reads exactly as the raw
   * character does. Upper-case letters are not covered: the table sends kKeyZ to
   * XK_z, and no key to XK_Z.
   */
  lemma LetterAndDigitKeysymsAreAscii(c: char, keycodeOf: nat -> KeyCode, keymap: Keymap)
    requires 'a' <= c <= 'z' || '0' <= c <= '9'
    ensures KeyOfKeysym(c as nat).Some?
    ensures KeysymOf(KeyOfKeysym(c as nat).value) == c as nat
    ensures IsKeyPressByKeycode(KeyOfKeysym(c as nat).value, keycodeOf, keymap) == IsKeyPressByVk(c as nat, keycodeOf, keymap)
  {
    var k := KeyOfKeysym(c as nat).value;
    assert CharOf(k).Some? && CharOf(k).value as nat == c as nat;
  }

  // ---------------------------------------------------------------------------
  // The snapshot as the set of held keycodes

  /** The keycodes a snapshot reports as held. */
  function HeldKeycodes(keymap: Keymap): set<KeyCode>
  {
    set kc: KeyCode | KeyBit(keymap, kc)
  }

  /**
   * One byte of a snapshot in XQueryKeymap's layout: bit b (least significant
   * first) is set exactly when keycode `base + b` is held.
   */
  function PackByte(base: int, down: set<KeyCode>): bv8
  {
    (if base + 0 in down then 1 << 0 else 0) | (if base + 1 in down then 1 << 1 else 0) |
    (if base + 2 in down then 1 << 2 else 0) | (if base + 3 in down then 1 << 3 else 0) |
    (if base + 4 in down then 1 << 4 else 0) | (if base + 5 in down then 1 << 5 else 0) |
    (if base + 6 in down then 1 << 6 else 0) | (if base + 7 in down then 1 << 7 else 0)
  }

  /** The snapshot the X server reports while exactly the keycodes in `down` are held. */
  function KeymapOf(down: set<KeyCode>): Keymap
  {
    seq(32, j requires 0 <= j < 32 => PackByte(8 * j, down))
  }

  /** Bit b of a packed byte is set exactly when keycode base + b is held. */
  lemma PackByteBit(base: int, down: set<KeyCode>, b: nat)
    requires b < 8
    ensures PackByte(base, down) & (1 << b) != 0 <==> base + b in down
  {
  }

  /** Bit b of byte j of a snapshot is keycode 8j + b. */
  lemma KeyBitAt(keymap: Keymap, j: nat, b: nat)
    requires j < 32 && b < 8
    ensures KeyBit(keymap, 8 * j + b) <==> keymap[j] & (1 << b) != 0
  {
    assert (8 * j + b) / 8 == j && (8 * j + b) % 8 == b;
  }

  /** Reading a keycode's bit from an encoded snapshot tells whether it is held. */
  lemma KeymapOfHeld(down: set<KeyCode>)
    ensures HeldKeycodes(KeymapOf(down)) == down
  {
    forall kc: KeyCode
      ensures kc in HeldKeycodes(KeymapOf(down)) <==> kc in down
    {
      PackByteBit(8 * (kc / 8), down, kc % 8);
    }
  }

  /** A byte is the sum of its bits. */
  lemma ByteOfBits(x: bv8)
    ensures x == (if x & (1 << 0) != 0 then 1 << 0 else 0) | (if x & (1 << 1) != 0 then 1 << 1 else 0) |
                 (if x & (1 << 2) != 0 then 1 << 2 else 0) | (if x & (1 << 3) != 0 then 1 << 3 else 0) |
                 (if x & (1 << 4) != 0 then 1 << 4 else 0) | (if x & (1 << 5) != 0 then 1 << 5 else 0) |
                 (if x & (1 << 6) != 0 then 1 << 6 else 0) | (if x & (1 << 7) != 0 then 1 << 7 else 0)
  {
  }

  /** Keycode 8j + b is held in a snapshot exactly when bit b of byte j is set. */
  lemma HeldBit(keymap: Keymap, j: nat, b: nat)
    requires j < 32 && b < 8
    ensures 8 * j + b in HeldKeycodes(keymap) <==> keymap[j] & (1 << b) != 0
  {
    KeyBitAt(keymap, j, b);
  }

  /** Re-encoding the held keycodes of a snapshot gives back each of its bytes. */
  lemma PackHeldByte(keymap: Keymap, j: nat)
    requires j < 32
    ensures PackByte(8 * j, HeldKeycodes(keymap)) == keymap[j]
  {
    HeldBit(keymap, j, 0); HeldBit(keymap, j, 1); HeldBit(keymap, j, 2); HeldBit(keymap, j, 3);
    HeldBit(keymap, j, 4); HeldBit(keymap, j, 5); HeldBit(keymap, j, 6); HeldBit(keymap, j, 7);
    ByteOfBits(keymap[j]);
  }

  /** Every snapshot is the encoding of the keycodes it reports as held. */
  lemma KeymapOfHeldKeycodes(keymap: Keymap)
    ensures KeymapOf(HeldKeycodes(keymap)) == keymap
  {
    forall j | 0 <= j < 32
      ensures KeymapOf(HeldKeycodes(keymap))[j] == keymap[j]
    {
      PackHeldByte(keymap, j);
    }
  }

  /** For a keysym that has a keycode, the query reads the keycode's bit: pressed exactly when the snapshot reports it held. */
  lemma IsKeyPressByVkIsHeld(vk: nat, keycodeOf: nat -> KeyCode, keymap: Keymap)
    requires keycodeOf(vk) != NoSymbol
    ensures IsKeyPressByVk(vk, keycodeOf, keymap) <==> keycodeOf(vk) in HeldKeycodes(keymap)
  {
  }

  /**
   * The key-state query on the snapshot of a set of held keycodes: true exactly
   * when the keysym has a keycode and that keycode is held.
   */
  lemma IsKeyPressByVkHeld(vk: nat, keycodeOf: nat -> KeyCode, down: set<KeyCode>)
    ensures IsKeyPressByVk(vk, keycodeOf, KeymapOf(down)) <==> keycodeOf(vk) != NoSymbol && keycodeOf(vk) in down
  {
    KeymapOfHeld(down);
    if keycodeOf(vk) != NoSymbol {
      IsKeyPressByVkIsHeld(vk, keycodeOf, KeymapOf(down));
    }
  }
}
