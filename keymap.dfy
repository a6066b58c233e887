/**
 * MapVirtualKeyToInputKey: the table from Win32 virtual-key codes to the
 * library's InputKey (lib/rwin/windows/WindowsWindowManager.cpp).
 */
module Keymap {
  import opened Types
  import opened Win32

  /** Bits 16..23 of lParam: the scan code, a byte. */
  function ScanCode(lParam: bv64): (code: int)
    ensures 0 <= code < 0x100
  {
    ((lParam >> 16) & 0xFF) as int
  }

  /** Bit 24 of lParam: the extended-key flag. */
  predicate IsExtended(lParam: bv64)
    ensures IsExtended(lParam) <==> lParam & 0x100_0000 != 0
  {
    (lParam >> 24) & 0x1 != 0
  }

  /** The scan code of the right Shift key. */
  const RIGHT_SHIFT_SCAN: int := 0x36

  /**
   * Total: every code has a key. Unlisted codes fall back to InputKey::A
   * (MapVirtualKeyToInputKey's default case, not Unknown), so Unknown and F25
   * are never produced. The cases of its switch are disjoint, so the runs 'A'..'Z',
   * '0'..'9' and F1..F24 are looked up in tables of their own.
   */
  function MapVirtualKeyToInputKey(vk: int, lParam: bv64): (k: InputKey)
    ensures k != Unknown && k != F25
  {
    if 0x41 <= vk <= 0x5A then LetterKey(vk)
    else if 0x30 <= vk <= 0x39 then DigitKey(vk)
    else if VK_F1 <= vk <= VK_F24 then FunctionKey(vk)
    else OtherKey(vk, lParam)
  }

  /** The letter codes 'A'..'Z'. */
  function LetterKey(vk: int): InputKey
    requires 0x41 <= vk <= 0x5A
  {
    match vk
    case 0x41 => A
    case 0x42 => B
    case 0x43 => C
    case 0x44 => D
    case 0x45 => E
    case 0x46 => F
    case 0x47 => G
    case 0x48 => H
    case 0x49 => I
    case 0x4A => J
    case 0x4B => K
    case 0x4C => L
    case 0x4D => M
    case 0x4E => N
    case 0x4F => O
    case 0x50 => P
    case 0x51 => Q
    case 0x52 => R
    case 0x53 => S
    case 0x54 => T
    case 0x55 => U
    case 0x56 => V
    case 0x57 => W
    case 0x58 => X
    case 0x59 => Y
    case _ => Z
  }

  /** The digit codes '0'..'9'. */
  function DigitKey(vk: int): InputKey
    requires 0x30 <= vk <= 0x39
  {
    match vk
    case 0x30 => Zero
    case 0x31 => InputKey.One
    case 0x32 => InputKey.Two
    case 0x33 => InputKey.Three
    case 0x34 => InputKey.Four
    case 0x35 => InputKey.Five
    case 0x36 => InputKey.Six
    case 0x37 => InputKey.Seven
    case 0x38 => Eight
    case _ => Nine
  }

  /** The function-key codes VK_F1..VK_F24. */
  function FunctionKey(vk: int): InputKey
    requires VK_F1 <= vk <= VK_F24
  {
    match vk
    case 0x70 => F1
    case 0x71 => F2
    case 0x72 => F3
    case 0x73 => F4
    case 0x74 => F5
    case 0x75 => F6
    case 0x76 => F7
    case 0x77 => F8
    case 0x78 => F9
    case 0x79 => F10
    case 0x7A => F11
    case 0x7B => F12
    case 0x7C => F13
    case 0x7D => F14
    case 0x7E => F15
    case 0x7F => F16
    case 0x80 => F17
    case 0x81 => F18
    case 0x82 => F19
    case 0x83 => F20
    case 0x84 => F21
    case 0x85 => F22
    case 0x86 => F23
    case _ => F24
  }

  /** The remaining listed codes, and the fallback to A. */
  function OtherKey(vk: int, lParam: bv64): InputKey
  {
    match vk
    case 0x20 => Space
    case 0xDE => Apostrophe
    case 0xBC => Comma
    case 0xBD => Minus
    case 0xBE => Period
    case 0xBF => Slash
    case 0xBA => Semicolon
    case 0xBB => Equal
    case 0xDB => LeftBracket
    case 0xDC => Backslash
    case 0xDD => RightBracket
    case 0xC0 => GraveAccent
    case 0x1B => Escape
    case 0x0D => Enter
    case 0x09 => Tab
    case 0x08 => Backspace
    case 0x2D => Insert
    case 0x2E => Delete
    case 0x24 => Home
    case 0x23 => End
    case 0x21 => PageUp
    case 0x22 => PageDown
    case 0x25 => Left
    case 0x27 => Right
    case 0x26 => Up
    case 0x28 => Down
    case 0x14 => CapsLockKey
    case 0x91 => ScrollLock
    case 0x90 => NumLockKey
    case 0x2C => PrintScreen
    case 0x13 => Pause
    case 0x10 => if ScanCode(lParam) == RIGHT_SHIFT_SCAN then RightShift else LeftShift
    case 0x11 => if IsExtended(lParam) then RightControl else LeftControl
    case 0x12 => if IsExtended(lParam) then RightAlt else LeftAlt
    case 0x5B => LeftSuper
    case 0x5C => RightSuper
    case 0x5D => Menu
    case _ => A
  }

  /** The codes the table lists explicitly. */
  predicate Listed(vk: int)
  {
    || 0x41 <= vk <= 0x5A                  // 'A'..'Z'
    || 0x30 <= vk <= 0x39                  // '0'..'9'
    || VK_F1 <= vk <= VK_F24
    || vk == VK_SPACE || vk == VK_OEM_7 || vk == VK_OEM_COMMA || vk == VK_OEM_MINUS
    || vk == VK_OEM_PERIOD || vk == VK_OEM_2 || vk == VK_OEM_1 || vk == VK_OEM_PLUS
    || vk == VK_OEM_4 || vk == VK_OEM_5 || vk == VK_OEM_6 || vk == VK_OEM_3
    || vk == VK_ESCAPE || vk == VK_RETURN || vk == VK_TAB || vk == VK_BACK
    || vk == VK_INSERT || vk == VK_DELETE || vk == VK_HOME || vk == VK_END
    || vk == VK_PRIOR || vk == VK_NEXT
    || VK_LEFT <= vk <= VK_DOWN
    || vk == VK_CAPITAL || vk == VK_SCROLL || vk == VK_NUMLOCK || vk == VK_SNAPSHOT || vk == VK_PAUSE
    || vk == VK_SHIFT || vk == VK_CONTROL || vk == VK_MENU || vk == VK_LWIN || vk == VK_RWIN || vk == VK_APPS
  }

  /** Every unlisted code maps to A, and A comes only from 'A' or an unlisted code. */
  lemma FallbackIsA(vk: int, lParam: bv64)
    ensures !Listed(vk) ==> MapVirtualKeyToInputKey(vk, lParam) == A
    ensures MapVirtualKeyToInputKey(vk, lParam) == A <==> vk == 0x41 || !Listed(vk)
  {
  }

  /** Shift: right iff the scan code is 0x36. */
  lemma ShiftSide(lParam: bv64)
    ensures MapVirtualKeyToInputKey(VK_SHIFT, lParam) == RightShift <==> ScanCode(lParam) == RIGHT_SHIFT_SCAN
    ensures MapVirtualKeyToInputKey(VK_SHIFT, lParam) in {LeftShift, RightShift}
  {
  }

  /** Control and Alt: right iff bit 24 of lParam (extended key) is set. */
  lemma ExtendedSides(lParam: bv64)
    ensures MapVirtualKeyToInputKey(VK_CONTROL, lParam) == RightControl <==> IsExtended(lParam)
    ensures MapVirtualKeyToInputKey(VK_CONTROL, lParam) in {LeftControl, RightControl}
    ensures MapVirtualKeyToInputKey(VK_MENU, lParam) == RightAlt <==> IsExtended(lParam)
    ensures MapVirtualKeyToInputKey(VK_MENU, lParam) in {LeftAlt, RightAlt}
  {
  }

  /** Codes for the letters A to M. */
  function FirstLettersCode(k: InputKey): (c: (int, bv64))
    requires k in {A, B, C, D, E, F, G, H, I, J, K, L, M}
    ensures Listed(c.0)
    ensures MapVirtualKeyToInputKey(c.0, c.1) == k
  {
    match k
    case A => (0x41, 0)
    case B => (0x42, 0)
    case C => (0x43, 0)
    case D => (0x44, 0)
    case E => (0x45, 0)
    case F => (0x46, 0)
    case G => (0x47, 0)
    case H => (0x48, 0)
    case I => (0x49, 0)
    case J => (0x4A, 0)
    case K => (0x4B, 0)
    case L => (0x4C, 0)
    case M => (0x4D, 0)
  }

  /** Codes for the letters N to Z. */
  function LastLettersCode(k: InputKey): (c: (int, bv64))
    requires k in {N, O, P, Q, R, S, T, U, V, W, X, Y, Z}
    ensures Listed(c.0)
    ensures MapVirtualKeyToInputKey(c.0, c.1) == k
  {
    match k
    case N => (0x4E, 0)
    case O => (0x4F, 0)
    case P => (0x50, 0)
    case Q => (0x51, 0)
    case R => (0x52, 0)
    case S => (0x53, 0)
    case T => (0x54, 0)
    case U => (0x55, 0)
    case V => (0x56, 0)
    case W => (0x57, 0)
    case X => (0x58, 0)
    case Y => (0x59, 0)
    case Z => (0x5A, 0)
  }

  /** Codes for the digit keys. */
  function DigitsCode(k: InputKey): (c: (int, bv64))
    requires k in {Zero, InputKey.One, InputKey.Two, InputKey.Three, InputKey.Four, InputKey.Five, InputKey.Six, InputKey.Seven, Eight, Nine}
    ensures Listed(c.0)
    ensures MapVirtualKeyToInputKey(c.0, c.1) == k
  {
    match k
    case Zero => (0x30, 0)
    case One => (0x31, 0)
    case Two => (0x32, 0)
    case Three => (0x33, 0)
    case Four => (0x34, 0)
    case Five => (0x35, 0)
    case Six => (0x36, 0)
    case Seven => (0x37, 0)
    case Eight => (0x38, 0)
    case Nine => (0x39, 0)
  }

  /** Codes for F1 to F6. */
  function LowFunctionKeysCode(k: InputKey): (c: (int, bv64))
    requires k in {F1, F2, F3, F4, F5, F6}
    ensures Listed(c.0)
    ensures MapVirtualKeyToInputKey(c.0, c.1) == k
  {
    match k
    case F1 => (0x70, 0)
    case F2 => (0x71, 0)
    case F3 => (0x72, 0)
    case F4 => (0x73, 0)
    case F5 => (0x74, 0)
    case F6 => (0x75, 0)
  }

  /** Codes for F7 to F12. */
  function MidFunctionKeysCode(k: InputKey): (c: (int, bv64))
    requires k in {F7, F8, F9, F10, F11, F12}
    ensures Listed(c.0)
    ensures MapVirtualKeyToInputKey(c.0, c.1) == k
  {
    match k
    case F7 => (0x76, 0)
    case F8 => (0x77, 0)
    case F9 => (0x78, 0)
    case F10 => (0x79, 0)
    case F11 => (0x7A, 0)
    case F12 => (0x7B, 0)
  }

  /** Codes for F13 to F18. */
  function HighFunctionKeysCode(k: InputKey): (c: (int, bv64))
    requires k in {F13, F14, F15, F16, F17, F18}
    ensures Listed(c.0)
    ensures MapVirtualKeyToInputKey(c.0, c.1) == k
  {
    match k
    case F13 => (0x7C, 0)
    case F14 => (0x7D, 0)
    case F15 => (0x7E, 0)
    case F16 => (0x7F, 0)
    case F17 => (0x80, 0)
    case F18 => (0x81, 0)
  }

  /** Codes for F19 to F24. */
  function TopFunctionKeysCode(k: InputKey): (c: (int, bv64))
    requires k in {F19, F20, F21, F22, F23, F24}
    ensures Listed(c.0)
    ensures MapVirtualKeyToInputKey(c.0, c.1) == k
  {
    match k
    case F19 => (0x82, 0)
    case F20 => (0x83, 0)
    case F21 => (0x84, 0)
    case F22 => (0x85, 0)
    case F23 => (0x86, 0)
    case F24 => (0x87, 0)
  }

  /** Codes for the first half of the punctuation keys. */
  function PunctuationCode(k: InputKey): (c: (int, bv64))
    requires k in {Space, Apostrophe, Comma, Minus, Period, Slash}
    ensures Listed(c.0)
    ensures MapVirtualKeyToInputKey(c.0, c.1) == k
  {
    match k
    case Space => (0x20, 0)
    case Apostrophe => (0xDE, 0)
    case Comma => (0xBC, 0)
    case Minus => (0xBD, 0)
    case Period => (0xBE, 0)
    case Slash => (0xBF, 0)
  }

  /** Codes for the second half of the punctuation keys. */
  function SymbolsCode(k: InputKey): (c: (int, bv64))
    requires k in {Semicolon, Equal, LeftBracket, Backslash, RightBracket, GraveAccent}
    ensures Listed(c.0)
    ensures MapVirtualKeyToInputKey(c.0, c.1) == k
  {
    match k
    case Semicolon => (0xBA, 0)
    case Equal => (0xBB, 0)
    case LeftBracket => (0xDB, 0)
    case Backslash => (0xDC, 0)
    case RightBracket => (0xDD, 0)
    case GraveAccent => (0xC0, 0)
  }

  /** Codes for the editing keys. */
  function EditingKeysCode(k: InputKey): (c: (int, bv64))
    requires k in {Escape, Enter, Tab, Backspace, Insert, Delete}
    ensures Listed(c.0)
    ensures MapVirtualKeyToInputKey(c.0, c.1) == k
  {
    match k
    case Escape => (0x1B, 0)
    case Enter => (0x0D, 0)
    case Tab => (0x09, 0)
    case Backspace => (0x08, 0)
    case Insert => (0x2D, 0)
    case Delete => (0x2E, 0)
  }

  /** Codes for the navigation keys. */
  function NavigationKeysCode(k: InputKey): (c: (int, bv64))
    requires k in {Home, End, PageUp, PageDown}
    ensures Listed(c.0)
    ensures MapVirtualKeyToInputKey(c.0, c.1) == k
  {
    match k
    case Home => (0x24, 0)
    case End => (0x23, 0)
    case PageUp => (0x21, 0)
    case PageDown => (0x22, 0)
  }

  /** Codes for the arrow keys. */
  function ArrowKeysCode(k: InputKey): (c: (int, bv64))
    requires k in {Left, Right, Up, Down}
    ensures Listed(c.0)
    ensures MapVirtualKeyToInputKey(c.0, c.1) == k
  {
    match k
    case Left => (0x25, 0)
    case Right => (0x27, 0)
    case Up => (0x26, 0)
    case Down => (0x28, 0)
  }

  /** Codes for the lock keys. */
  function LockKeysCode(k: InputKey): (c: (int, bv64))
    requires k in {CapsLockKey, ScrollLock, NumLockKey}
    ensures Listed(c.0)
    ensures MapVirtualKeyToInputKey(c.0, c.1) == k
  {
    match k
    case CapsLockKey => (0x14, 0)
    case ScrollLock => (0x91, 0)
    case NumLockKey => (0x90, 0)
  }

  /** Codes for Print Screen and Pause. */
  function SystemKeysCode(k: InputKey): (c: (int, bv64))
    requires k in {PrintScreen, Pause}
    ensures Listed(c.0)
    ensures MapVirtualKeyToInputKey(c.0, c.1) == k
  {
    match k
    case PrintScreen => (0x2C, 0)
    case Pause => (0x13, 0)
  }

  /** Codes for the left Shift, Control and Alt keys. */
  function LeftModifierKeysCode(k: InputKey): (c: (int, bv64))
    requires k in {LeftShift, LeftControl, LeftAlt}
    ensures Listed(c.0)
    ensures MapVirtualKeyToInputKey(c.0, c.1) == k
  {
    match k
    case LeftShift => (0x10, 0)
    case LeftControl => (0x11, 0)
    case LeftAlt => (0x12, 0)
  }

  /** Codes for the left Super key and the menu key. */
  function SuperKeysCode(k: InputKey): (c: (int, bv64))
    requires k in {LeftSuper, Menu}
    ensures Listed(c.0)
    ensures MapVirtualKeyToInputKey(c.0, c.1) == k
  {
    match k
    case LeftSuper => (0x5B, 0)
    case Menu => (0x5D, 0)
  }

  /** Codes for the right Shift and Control keys. */
  function RightShiftControlCode(k: InputKey): (c: (int, bv64))
    requires k in {RightShift, RightControl}
    ensures Listed(c.0)
    ensures MapVirtualKeyToInputKey(c.0, c.1) == k
  {
    match k
    case RightShift => (0x10, 0x36_0000)
    case RightControl => (0x11, 0x100_0000)
  }

  /** Codes for the right Alt and Super keys. */
  function RightAltSuperCode(k: InputKey): (c: (int, bv64))
    requires k in {RightAlt, RightSuper}
    ensures Listed(c.0)
    ensures MapVirtualKeyToInputKey(c.0, c.1) == k
  {
    match k
    case RightAlt => (0x12, 0x100_0000)
    case RightSuper => (0x5C, 0)
  }

  /**
   * The inverse table: for every key the mapping can produce, a listed
   * virtual key and lParam that map back to it. So the table is onto every
   * key except Unknown and F25.
   */
  function KeyCode(k: InputKey): (c: (int, bv64))
    requires k != Unknown && k != F25
    ensures Listed(c.0)
    ensures MapVirtualKeyToInputKey(c.0, c.1) == k
  {
    match k
    case A | B | C | D | E | F | G | H | I | J | K | L | M => FirstLettersCode(k)
    case N | O | P | Q | R | S | T | U | V | W | X | Y | Z => LastLettersCode(k)
    case Zero | One | Two | Three | Four | Five | Six | Seven | Eight | Nine => DigitsCode(k)
    case F1 | F2 | F3 | F4 | F5 | F6 => LowFunctionKeysCode(k)
    case F7 | F8 | F9 | F10 | F11 | F12 => MidFunctionKeysCode(k)
    case F13 | F14 | F15 | F16 | F17 | F18 => HighFunctionKeysCode(k)
    case F19 | F20 | F21 | F22 | F23 | F24 => TopFunctionKeysCode(k)
    case Space | Apostrophe | Comma | Minus | Period | Slash => PunctuationCode(k)
    case Semicolon | Equal | LeftBracket | Backslash | RightBracket | GraveAccent => SymbolsCode(k)
    case Escape | Enter | Tab | Backspace | Insert | Delete => EditingKeysCode(k)
    case Home | End | PageUp | PageDown => NavigationKeysCode(k)
    case Left | Right | Up | Down => ArrowKeysCode(k)
    case CapsLockKey | ScrollLock | NumLockKey => LockKeysCode(k)
    case PrintScreen | Pause => SystemKeysCode(k)
    case LeftShift | LeftControl | LeftAlt => LeftModifierKeysCode(k)
    case LeftSuper | Menu => SuperKeysCode(k)
    case RightShift | RightControl => RightShiftControlCode(k)
    case RightAlt | RightSuper => RightAltSuperCode(k)
  }
}
