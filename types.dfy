/**
 * The value types of the library: geometry, the input vocabularies, the window
 * flags and the tagged union of window events (include/rwin/types.h).
 */
module Types {

  /** Width of the unsigned 32-bit fields (uint32_t). */
  const TWO_32: int := 0x1_0000_0000
  /** Width of the unsigned 64-bit window identifiers (std::uint64_t). */
  const TWO_64: int := 0x1_0000_0000_0000_0000

  type uint32 = x: int | 0 <= x < TWO_32
  type uint64 = x: int | 0 <= x < TWO_64

  /** A 2D vector. The source stores floats; coordinates here are integers. */
  datatype Vector2 = Vector2(x: int, y: int)

  datatype Point2D = Point2D(x: int, y: int)

  datatype Extent2D = Extent2D(width: uint32, height: uint32)

  /** Extent2D::operator==: field-wise comparison. */
  function ExtentEquals(a: Extent2D, b: Extent2D): (r: bool)
    ensures r <==> a == b
  {
    a.width == b.width && a.height == b.height
  }

  datatype HitTestResult =
    | None | DragArea | TopResize | LeftResize | RightResize | BottomResize
    | CloseButton | MinimizeButton | MaximizeButton

  datatype WindowEventType =
    | Key | Resize | Minimize | Maximize | Scroll | CursorMove | CursorButton
    | Close | Text | CursorFocus | KeyboardFocus | DndEnter | DndDrop | DndLeave

  datatype InputState = Pressed | Released | Repeat

  /** InputModifier: each member is a distinct bit of the modifier mask. */
  datatype InputModifier = Shift | Control | Alt | Super | CapsLock | NumLock
  {
    function Bit(): bv32
    {
      match this
      case Shift => 0x0001
      case Control => 0x0002
      case Alt => 0x0004
      case Super => 0x0008
      case CapsLock => 0x0010
      case NumLock => 0x0020
    }
  }

  /** The union of every InputModifier bit. */
  const ALL_MODIFIERS: bv32 := 0x3F

  predicate SingleBit(b: bv32)
  {
    b != 0 && b & (b - 1) == 0
  }

  /** Every modifier is a single bit, and distinct modifiers have disjoint bits. */
  lemma ModifierBitsDistinct(m: InputModifier, n: InputModifier)
    ensures SingleBit(m.Bit()) && m.Bit() & ALL_MODIFIERS == m.Bit()
    ensures m != n ==> m.Bit() & n.Bit() == 0
  {
  }

  // CapsLock and NumLock are InputModifier constructors as well, so the keys
  // are CapsLockKey and NumLockKey here.
  datatype InputKey =
    | Unknown
    | A | B | C | D | E | F | G | H | I | J | K | L | M
    | N | O | P | Q | R | S | T | U | V | W | X | Y | Z
    | Zero | One | Two | Three | Four | Five | Six | Seven | Eight | Nine
    | F1 | F2 | F3 | F4 | F5 | F6 | F7 | F8 | F9 | F10 | F11 | F12 | F13
    | F14 | F15 | F16 | F17 | F18 | F19 | F20 | F21 | F22 | F23 | F24 | F25
    | Space | Apostrophe | Comma | Minus | Period | Slash | Semicolon | Equal
    | LeftBracket | Backslash | RightBracket | GraveAccent
    | Escape | Enter | Tab | Backspace | Insert | Delete
    | Right | Left | Down | Up | PageUp | PageDown | Home | End
    | CapsLockKey | ScrollLock | NumLockKey | PrintScreen | Pause
    | LeftShift | LeftControl | LeftAlt | LeftSuper
    | RightShift | RightControl | RightAlt | RightSuper
    | Menu

  datatype CursorButton = One | Two | Three | Four | Five | Six | Seven

  /**
   * WindowFlags: the creation flags, as the bits of a Flags<WindowFlags> mask.
   * WindowFlags::None is NoFlags, so that it does not clash with Option.None.
   */
  datatype WindowFlags = NoFlags | Frameless | Floating | Resizable | Visible | Transparent | Focused | DragAndDrop
  {
    function Bit(): bv32
    {
      match this
      case NoFlags => 0
      case Frameless => 1 << 0
      case Floating => 1 << 1
      case Resizable => 1 << 2
      case Visible => 1 << 3
      case Transparent => 1 << 4
      case Focused => 1 << 5
      case DragAndDrop => 1 << 5
    }
  }

  /**
   * Focused and DragAndDrop share bit 5; every other pair of flags other
   * than NoFlags has disjoint single bits.
   */
  lemma WindowFlagBits(f: WindowFlags, g: WindowFlags)
    ensures f != NoFlags ==> SingleBit(f.Bit())
    ensures Focused.Bit() == DragAndDrop.Bit()
    ensures f != g && {f, g} != {Focused, DragAndDrop} ==> f.Bit() & g.Bit() == 0
  {
  }

  /**
   * The event union. Every variant carries the windowId of the EventInfo
   * header; the header's type is Type().
   */
  datatype WindowEvent =
    | KeyEvent(windowId: uint64, key: InputKey, state: InputState, modifier: bv32)
    | ResizeEvent(windowId: uint64, size: Extent2D)
    | MinimizeEvent(windowId: uint64)
    | MaximizeEvent(windowId: uint64)
    | ScrollEvent(windowId: uint64, position: Vector2, delta: Vector2)
    | CursorMoveEvent(windowId: uint64, position: Vector2)
    | CursorButtonEvent(windowId: uint64, button: CursorButton, state: InputState, modifier: bv32)
    | CursorFocusEvent(windowId: uint64, focused: int)
    | KeyboardFocusEvent(windowId: uint64, focused: int)
    | CloseEvent(windowId: uint64)
    | TextEvent(windowId: uint64, text: bv16)
  {
    /** The discriminant stored in the shared header. */
    function Type(): WindowEventType
    {
      match this
      case KeyEvent(_, _, _, _) => Key
      case ResizeEvent(_, _) => Resize
      case MinimizeEvent(_) => Minimize
      case MaximizeEvent(_) => Maximize
      case ScrollEvent(_, _, _) => Scroll
      case CursorMoveEvent(_, _) => CursorMove
      case CursorButtonEvent(_, _, _, _) => CursorButton
      case CursorFocusEvent(_, _) => CursorFocus
      case KeyboardFocusEvent(_, _) => KeyboardFocus
      case CloseEvent(_) => Close
      case TextEvent(_, _) => Text
    }
  }

  /**
   * The header identifies the variant: two events have the same type exactly
   * when they are the same variant, and the Resize type means a ResizeEvent.
   */
  lemma HeaderIdentifiesVariant(e: WindowEvent, f: WindowEvent)
    ensures e.Type() == f.Type() <==>
      (e.KeyEvent? && f.KeyEvent?) || (e.ResizeEvent? && f.ResizeEvent?) ||
      (e.MinimizeEvent? && f.MinimizeEvent?) || (e.MaximizeEvent? && f.MaximizeEvent?) ||
      (e.ScrollEvent? && f.ScrollEvent?) || (e.CursorMoveEvent? && f.CursorMoveEvent?) ||
      (e.CursorButtonEvent? && f.CursorButtonEvent?) || (e.CursorFocusEvent? && f.CursorFocusEvent?) ||
      (e.KeyboardFocusEvent? && f.KeyboardFocusEvent?) || (e.CloseEvent? && f.CloseEvent?) ||
      (e.TextEvent? && f.TextEvent?)
    ensures e.Type() == Resize <==> e.ResizeEvent?
    ensures e.Type() !in {DndEnter, DndDrop, DndLeave}
  {
  }
}
