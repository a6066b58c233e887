/**
 * The event translator of the Windows window procedure, as pure functions:
 * the button, key-state, modifier, hit-test and style tables, and Translate,
 * which gives the event queue, the mouse-tracking flag and the procedure's
 * result after one native message (lib/rwin/windows/WindowsWindowManager.cpp).
 * The window manager's WindowProc method is proved against Translate.
 */
module Translation {
  import opened Types
  import opened Win32
  import opened Wrappers
  import opened Keymap

  /** A native message: its code and the two parameters. */
  datatype Message = Message(msg: int, wParam: bv64, lParam: bv64)

  /** GetClientRect's result for a window. */
  datatype Rect = Rect(left: int, top: int, right: int, bottom: int)

  /** The GetKeyState samples the modifier mask is built from. */
  datatype KeySample = KeySample(shift: bv16, control: bv16, menu: bv16, lwin: bv16, rwin: bv16, capital: bv16, numlock: bv16)

  /**
   * What the operating system answers while one message is handled: the
   * default hit classification, the hit-test point in client coordinates,
   * whether TrackMouseEvent succeeds, the client rectangle (None when
   * GetClientRect fails) and the key states.
   */
  datatype NativeInputs = NativeInputs(
    defaultHit: int,
    hitPoint: Vector2,
    trackSucceeds: bool,
    clientRect: Option<Rect>,
    keys: KeySample)

  /** What the window procedure returns: a value of its own, or DefWindowProc's. */
  datatype ProcResult = Returned(value: int) | DefaultProc

  /** The per-window state Translate reads: the window's id, its tracking flag and its hit-test callback. */
  datatype WindowView = WindowView(id: uint64, trackingMouse: bool, hitTest: Option<Vector2 -> HitTestResult>)

  datatype Outcome = Outcome(queue: seq<WindowEvent>, trackingMouse: bool, result: ProcResult)

  /** static_cast<uint32_t> of a signed value: reduction modulo 2^32. */
  function Wrap32(x: int): (r: uint32)
    ensures 0 <= x < TWO_32 ==> r == x
    ensures (r - x) % TWO_32 == 0
  {
    x % TWO_32
  }

  /** (short) of a 16-bit word. */
  function SignedWord(w: bv64): (r: int)
    requires w < 0x1_0000
    ensures -0x8000 <= r < 0x8000
    ensures (r - w as int) % 0x1_0000 == 0
  {
    if w < 0x8000 then w as int else w as int - 0x1_0000
  }

  /** GET_X_LPARAM / GET_Y_LPARAM: the low and high words of lParam, each read as a signed 16-bit value. */
  function PointFromLParam(lParam: bv64): (p: Vector2)
    ensures -0x8000 <= p.x < 0x8000 && (p.x - (lParam & 0xFFFF) as int) % 0x1_0000 == 0
    ensures -0x8000 <= p.y < 0x8000 && (p.y - ((lParam >> 16) & 0xFFFF) as int) % 0x1_0000 == 0
  {
    Vector2(SignedWord(lParam & 0xFFFF), SignedWord((lParam >> 16) & 0xFFFF))
  }

  /** The extent GetClientSize reports: the rectangle's size cast to uint32, or zero when the rectangle is unavailable. */
  function ClientExtent(rect: Option<Rect>): (e: Extent2D)
    ensures rect.None? ==> e == Extent2D(0, 0)
    ensures rect.Some? && 0 <= rect.value.right - rect.value.left < TWO_32 ==> e.width == rect.value.right - rect.value.left
    ensures rect.Some? && 0 <= rect.value.bottom - rect.value.top < TWO_32 ==> e.height == rect.value.bottom - rect.value.top
    ensures rect.Some? ==> (e.width - (rect.value.right - rect.value.left)) % TWO_32 == 0
    ensures rect.Some? ==> (e.height - (rect.value.bottom - rect.value.top)) % TWO_32 == 0
  {
    match rect
    case None => Extent2D(0, 0)
    case Some(r) => Extent2D(Wrap32(r.right - r.left), Wrap32(r.bottom - r.top))
  }

  // ---------------------------------------------------------------- modifiers

  /** The high bit of a GetKeyState sample: the key is down. */
  predicate IsDown(state: bv16)
  {
    state & KF_UP != 0
  }

  /** The low bit of a GetKeyState sample: the key is toggled on. */
  predicate IsToggled(state: bv16)
  {
    state & 0x0001 != 0
  }

  /** Flags::Add of bit when cond holds. */
  function AddIf(mask: bv32, cond: bool, bit: bv32): bv32
  {
    if cond then mask | bit else mask
  }

  /**
   * The modifier mask sampled at delivery time, built up one modifier at a
   * time from an empty mask. It decomposes uniquely: it uses only the six
   * modifier bits, and each bit is set exactly when its key is down (or
   * toggled, for the locks).
   */
  function ModifierMask(k: KeySample): (mask: bv32)
    ensures mask & !ALL_MODIFIERS == 0
    ensures DecodeModifiers(mask) ==
      [IsDown(k.shift), IsDown(k.control), IsDown(k.menu),
       IsDown(k.lwin) || IsDown(k.rwin), IsToggled(k.capital), IsToggled(k.numlock)]
  {
    var m1 := AddIf(0, IsDown(k.shift), Shift.Bit());
    var m2 := AddIf(m1, IsDown(k.control), Control.Bit());
    var m3 := AddIf(m2, IsDown(k.menu), Alt.Bit());
    var m4 := AddIf(m3, IsDown(k.lwin) || IsDown(k.rwin), Super.Bit());
    var m5 := AddIf(m4, IsToggled(k.capital), CapsLock.Bit());
    AddIf(m5, IsToggled(k.numlock), NumLock.Bit())
  }

  /** Reads a modifier mask back as one flag per modifier. */
  function DecodeModifiers(mask: bv32): seq<bool>
  {
    [mask & Shift.Bit() != 0, mask & Control.Bit() != 0, mask & Alt.Bit() != 0,
     mask & Super.Bit() != 0, mask & CapsLock.Bit() != 0, mask & NumLock.Bit() != 0]
  }

  /** Two masks within the modifier bits are equal exactly when they decode alike. */
  lemma ModifierMaskUnique(m1: bv32, m2: bv32)
    requires m1 & !ALL_MODIFIERS == 0 && m2 & !ALL_MODIFIERS == 0
    ensures DecodeModifiers(m1) == DecodeModifiers(m2) <==> m1 == m2
  {
  }

  // ---------------------------------------------------------------- buttons and keys

  predicate IsButtonMessage(msg: int)
  {
    msg in {WM_LBUTTONDOWN, WM_LBUTTONUP, WM_RBUTTONDOWN, WM_RBUTTONUP,
            WM_MBUTTONDOWN, WM_MBUTTONUP, WM_XBUTTONDOWN, WM_XBUTTONUP}
  }

  /** The messages of the hit-test and mouse-tracking cases. */
  predicate IsPointerMessage(msg: int)
  {
    msg == WM_NCHITTEST || msg == WM_MOUSEHOVER || msg == WM_MOUSELEAVE || msg == WM_MOUSEMOVE
  }

  /** The messages of the button, character and key cases. */
  predicate IsInputMessage(msg: int)
  {
    IsButtonMessage(msg) || msg == WM_CHAR || msg == WM_KEYDOWN || msg == WM_KEYUP
  }

  predicate IsButtonDown(msg: int)
  {
    msg == WM_LBUTTONDOWN || msg == WM_RBUTTONDOWN || msg == WM_MBUTTONDOWN || msg == WM_XBUTTONDOWN
  }

  /** GET_XBUTTON_WPARAM: the high word of wParam. */
  function XButton(wParam: bv64): int
  {
    ((wParam >> 16) & 0xFFFF) as int
  }

  /**
   * The button a mouse-button message reports: left, right and middle give
   * One, Two and Three; an X button gives Four for XBUTTON1, Five for
   * XBUTTON2 and Six for any other value of HIWORD(wParam).
   */
  function ButtonOf(msg: int, wParam: bv64): (b: CursorButton)
    ensures IsButtonMessage(msg) ==> (b == CursorButton.One <==> msg == WM_LBUTTONDOWN || msg == WM_LBUTTONUP)
    ensures b == CursorButton.Two <==> msg == WM_RBUTTONDOWN || msg == WM_RBUTTONUP
    ensures b == CursorButton.Three <==> msg == WM_MBUTTONDOWN || msg == WM_MBUTTONUP
    ensures b in {CursorButton.Four, CursorButton.Five, CursorButton.Six} <==> msg == WM_XBUTTONDOWN || msg == WM_XBUTTONUP
    ensures msg == WM_XBUTTONDOWN || msg == WM_XBUTTONUP ==>
      (b == CursorButton.Four <==> XButton(wParam) == XBUTTON1) && (b == CursorButton.Five <==> XButton(wParam) == XBUTTON2)
  {
    if msg == WM_LBUTTONDOWN || msg == WM_LBUTTONUP then CursorButton.One
    else if msg == WM_RBUTTONDOWN || msg == WM_RBUTTONUP then CursorButton.Two
    else if msg == WM_MBUTTONDOWN || msg == WM_MBUTTONUP then CursorButton.Three
    else if msg == WM_XBUTTONDOWN || msg == WM_XBUTTONUP then
      (if XButton(wParam) == XBUTTON1 then CursorButton.Four
       else if XButton(wParam) == XBUTTON2 then CursorButton.Five
       else CursorButton.Six)
    else CursorButton.One
  }

  /** KF_REPEAT in HIWORD(lParam): bit 30 of lParam, the key was already down. */
  predicate IsRepeat(lParam: bv64)
    ensures IsRepeat(lParam) <==> lParam & 0x4000_0000 != 0
  {
    ((lParam >> 16) & 0xFFFF) & KF_REPEAT == KF_REPEAT
  }

  /** A key message's state: Released on key-up, otherwise Repeat when the key was already down, else Pressed. */
  function KeyStateOf(msg: int, lParam: bv64): (state: InputState)
    ensures state == Released <==> msg == WM_KEYUP
    ensures state == Repeat <==> msg != WM_KEYUP && lParam & 0x4000_0000 != 0
  {
    if msg == WM_KEYUP then Released
    else if IsRepeat(lParam) then Repeat
    else Pressed
  }

  /** static_cast<UINT>(wParam): the virtual-key code. */
  function VirtualKey(wParam: bv64): int
  {
    (wParam & 0xFFFF_FFFF) as int
  }

  /** static_cast<char16_t>(wParam): one UTF-16 code unit. */
  function CodeUnit(wParam: bv64): bv16
  {
    (wParam & 0xFFFF) as bv16
  }

  // ---------------------------------------------------------------- hit testing

  /** The native region a callback's answer stands for; only None keeps the client area. */
  function HitCode(r: HitTestResult): (code: int)
    ensures code == HTCLIENT <==> r == HitTestResult.None
    ensures code in {HTCLIENT, HTCAPTION, HTTOP, HTLEFT, HTRIGHT, HTBOTTOM, HTCLOSE, HTMINBUTTON, HTMAXBUTTON}
  {
    match r
    case None => HTCLIENT
    case DragArea => HTCAPTION
    case TopResize => HTTOP
    case LeftResize => HTLEFT
    case RightResize => HTRIGHT
    case BottomResize => HTBOTTOM
    case CloseButton => HTCLOSE
    case MinimizeButton => HTMINBUTTON
    case MaximizeButton => HTMAXBUTTON
  }

  /** WM_NCHITTEST: only a client-area point with a callback set is reclassified. */
  function HitDispatch(defaultHit: int, hitTest: Option<Vector2 -> HitTestResult>, point: Vector2): (hit: int)
    ensures defaultHit != HTCLIENT || hitTest.None? ==> hit == defaultHit
    ensures defaultHit == HTCLIENT && hitTest.Some? ==> hit == HitCode(hitTest.value(point))
  {
    if defaultHit == HTCLIENT && hitTest.Some? then HitCode(hitTest.value(point)) else defaultHit
  }

  /** The answers map one-to-one onto native regions. */
  lemma HitCodeInjective(a: HitTestResult, b: HitTestResult)
    ensures HitCode(a) == HitCode(b) ==> a == b
  {
  }

  // ---------------------------------------------------------------- the translator

  /** The event kinds the translator ever produces. */
  predicate Produced(e: WindowEvent)
  {
    e.CursorFocusEvent? || e.CursorMoveEvent? || e.CursorButtonEvent? || e.TextEvent? ||
    e.KeyEvent? || e.ResizeEvent? || e.CloseEvent?
  }

  /**
   * WM_SIZE's queueing: ev ends the queue, and everything before it is kept,
   * except a Resize at the back of the queue (of any window), which ev
   * overwrites.
   */
  function PushResize(q: seq<WindowEvent>, ev: WindowEvent): (r: seq<WindowEvent>)
    ensures r != [] && |q| <= |r| <= |q| + 1
    ensures r == q[..|r| - 1] + [ev]
    ensures |r| == |q| <==> q != [] && q[|q| - 1].Type() == Resize
  {
    if q != [] && q[|q| - 1].Type() == Resize then q[..|q| - 1] + [ev] else q + [ev]
  }

  /**
   * The hit-test and mouse-tracking cases: at most two events are appended
   * and nothing queued is changed; only a WM_MOUSEMOVE whose tracking request
   * fails is left to DefWindowProc, and then nothing is queued.
   */
  function TranslatePointer(q: seq<WindowEvent>, w: WindowView, m: Message, os: NativeInputs): (r: Outcome)
    requires IsPointerMessage(m.msg)
    ensures q <= r.queue && |r.queue| <= |q| + 2
    ensures r.result == DefaultProc <==> m.msg == WM_MOUSEMOVE && !w.trackingMouse && !os.trackSucceeds
    ensures r.result == DefaultProc ==> r.queue == q
  {
    if m.msg == WM_NCHITTEST then
      Outcome(q, w.trackingMouse, Returned(HitDispatch(os.defaultHit, w.hitTest, os.hitPoint)))
    else if m.msg == WM_MOUSEHOVER then
      Outcome(q, w.trackingMouse, Returned(0))
    else if m.msg == WM_MOUSELEAVE then
      Outcome(q + [CursorFocusEvent(w.id, 0)], false, Returned(0))
    else
      var move := CursorMoveEvent(w.id, PointFromLParam(m.lParam));
      if w.trackingMouse then Outcome(q + [move], true, Returned(0))
      else if os.trackSucceeds then Outcome(q + [CursorFocusEvent(w.id, 1), move], true, Returned(0))
      else Outcome(q, false, DefaultProc)
  }

  /**
   * The mouse-button, character and key cases: exactly one event for this
   * window is appended, stamped with the live modifiers where it has any; the
   * message is answered with 0 and tracking is untouched.
   */
  function TranslateInput(q: seq<WindowEvent>, w: WindowView, m: Message, os: NativeInputs): (r: Outcome)
    requires IsInputMessage(m.msg)
    ensures |r.queue| == |q| + 1 && q <= r.queue && r.queue[|q|].windowId == w.id
    ensures r.result == Returned(0) && r.trackingMouse == w.trackingMouse
  {
    var ev :=
      if IsButtonMessage(m.msg) then
        CursorButtonEvent(w.id, ButtonOf(m.msg, m.wParam), if IsButtonDown(m.msg) then Pressed else Released, ModifierMask(os.keys))
      else if m.msg == WM_CHAR then
        TextEvent(w.id, CodeUnit(m.wParam))
      else
        KeyEvent(w.id, MapVirtualKeyToInputKey(VirtualKey(m.wParam), m.lParam), KeyStateOf(m.msg, m.lParam), ModifierMask(os.keys));
    Outcome(q + [ev], w.trackingMouse, Returned(0))
  }

  /**
   * The resize and close cases, and every other message: only WM_CLOSE is
   * answered (with 0), everything else goes on to DefWindowProc; only
   * WM_SIZE may replace a queued event, and tracking is untouched.
   */
  function TranslateWindowMessage(q: seq<WindowEvent>, w: WindowView, m: Message, os: NativeInputs): (r: Outcome)
    ensures r.trackingMouse == w.trackingMouse
    ensures r.result == (if m.msg == WM_CLOSE then Returned(0) else DefaultProc)
    ensures m.msg != WM_SIZE ==> q <= r.queue && |r.queue| <= |q| + 1
  {
    if m.msg == WM_SIZE then
      Outcome(PushResize(q, ResizeEvent(w.id, ClientExtent(os.clientRect))), w.trackingMouse, DefaultProc)
    else if m.msg == WM_CLOSE then
      Outcome(q + [CloseEvent(w.id)], w.trackingMouse, Returned(0))
    else
      Outcome(q, w.trackingMouse, DefaultProc)
  }

  /**
   * The queue, tracking flag and result after the window procedure handles m
   * for window w. Only the mouse-tracking messages change the tracking flag,
   * and at most two events are added.
   */
  function Translate(q: seq<WindowEvent>, w: WindowView, m: Message, os: NativeInputs): (r: Outcome)
    ensures !(m.msg == WM_MOUSELEAVE || m.msg == WM_MOUSEMOVE) ==> r.trackingMouse == w.trackingMouse
    ensures |r.queue| <= |q| + 2
  {
    if IsPointerMessage(m.msg) then TranslatePointer(q, w, m, os)
    else if IsInputMessage(m.msg) then TranslateInput(q, w, m, os)
    else TranslateWindowMessage(q, w, m, os)
  }

  /**
   * One message adds at most two events, all of the seven produced kinds and
   * all for this window; only WM_SIZE may replace the last queued event,
   * and everything before it is kept.
   */
  lemma TranslateQueueShape(q: seq<WindowEvent>, w: WindowView, m: Message, os: NativeInputs)
    ensures var out := Translate(q, w, m, os).queue;
      && |q| <= |out| + 1 && |out| <= |q| + 2
      && (m.msg != WM_SIZE ==> q <= out)
      && (m.msg == WM_SIZE ==> q[..|q| - 1 + |out| - |q|] <= out && |q| <= |out| <= |q| + 1)
      && (forall i :: |q| <= i < |out| ==> Produced(out[i]) && out[i].windowId == w.id)
  {
  }

  /**
   * WM_SIZE: a Resize carrying the current client size; if the last queued
   * event is any Resize (whatever its window) it is overwritten, otherwise the
   * new one is appended. The procedure then falls through to DefWindowProc.
   */
  lemma ResizeCoalesces(q: seq<WindowEvent>, w: WindowView, m: Message, os: NativeInputs)
    requires m.msg == WM_SIZE
    ensures var out := Translate(q, w, m, os);
      var ev := ResizeEvent(w.id, ClientExtent(os.clientRect));
      && out.result == DefaultProc && out.trackingMouse == w.trackingMouse
      && (q != [] && q[|q| - 1].ResizeEvent? ==> out.queue == q[..|q| - 1] + [ev])
      && (q == [] || !q[|q| - 1].ResizeEvent? ==> out.queue == q + [ev])
  {
  }

  /** No two adjacent Resize events. */
  ghost predicate NoAdjacentResize(q: seq<WindowEvent>)
  {
    forall i :: 0 <= i < |q| - 1 ==> !(q[i].ResizeEvent? && q[i + 1].ResizeEvent?)
  }

  /** Any message but WM_SIZE keeps the queue and appends only non-Resize events. */
  lemma OnlySizeResizes(q: seq<WindowEvent>, w: WindowView, m: Message, os: NativeInputs)
    requires m.msg != WM_SIZE
    ensures var out := Translate(q, w, m, os).queue;
      |q| <= |out| && out[..|q|] == q && forall i :: |q| <= i < |out| ==> !out[i].ResizeEvent?
  {
  }

  /** The translator keeps the queue free of adjacent Resize events. */
  lemma NoAdjacentResizeKept(q: seq<WindowEvent>, w: WindowView, m: Message, os: NativeInputs)
    requires NoAdjacentResize(q)
    ensures NoAdjacentResize(Translate(q, w, m, os).queue)
  {
    var out := Translate(q, w, m, os).queue;
    var n := |q|;
    if m.msg == WM_SIZE {
      ResizeCoalesces(q, w, m, os);
      var keep := if q != [] && q[n - 1].ResizeEvent? then n - 1 else n;
      assert out[..keep] == q[..keep] && |out| == keep + 1;
      forall i | 0 <= i < |out| - 1
        ensures !(out[i].ResizeEvent? && out[i + 1].ResizeEvent?)
      {
        assert out[i] == q[i];
        if i + 1 < keep {
          assert out[i + 1] == q[i + 1];
        }
      }
    } else {
      OnlySizeResizes(q, w, m, os);
      forall i | 0 <= i < |out| - 1
        ensures !(out[i].ResizeEvent? && out[i + 1].ResizeEvent?)
      {
        if i + 1 < n {
          assert out[i] == q[i] && out[i + 1] == q[i + 1];
        }
      }
    }
  }

  /**
   * Mouse tracking: the first move while not tracking requests tracking; on
   * success it sets the flag and queues CursorFocus(1) then CursorMove, on
   * failure it queues nothing and defers to DefWindowProc. While tracking,
   * a move queues only CursorMove. WM_MOUSELEAVE clears the flag and queues
   * CursorFocus(0).
   */
  lemma MouseTracking(q: seq<WindowEvent>, w: WindowView, m: Message, os: NativeInputs)
    ensures var out := Translate(q, w, m, os);
      var move := CursorMoveEvent(w.id, PointFromLParam(m.lParam));
      && (m.msg == WM_MOUSEMOVE && !w.trackingMouse && os.trackSucceeds ==>
            out.trackingMouse && out.queue == q + [CursorFocusEvent(w.id, 1), move])
      && (m.msg == WM_MOUSEMOVE && w.trackingMouse ==>
            out.trackingMouse && out.queue == q + [move])
      && (m.msg == WM_MOUSEMOVE && !w.trackingMouse && !os.trackSucceeds ==>
            !out.trackingMouse && out.queue == q && out.result == DefaultProc)
      && (m.msg == WM_MOUSELEAVE ==>
            !out.trackingMouse && out.queue == q + [CursorFocusEvent(w.id, 0)])
      && (m.msg != WM_MOUSEMOVE && m.msg != WM_MOUSELEAVE ==> out.trackingMouse == w.trackingMouse)
  {
  }

  /**
   * Keys: WM_KEYUP gives Released; WM_KEYDOWN gives Repeat exactly when
   * KF_REPEAT is set in HIWORD(lParam), and Pressed otherwise. The key comes
   * from the virtual-key table and the modifiers from the live key states.
   */
  lemma KeyEvents(q: seq<WindowEvent>, w: WindowView, m: Message, os: NativeInputs)
    requires m.msg == WM_KEYDOWN || m.msg == WM_KEYUP
    ensures var out := Translate(q, w, m, os);
      && |out.queue| == |q| + 1 && out.queue[..|q|] == q
      && out.queue[|q|].KeyEvent?
      && out.queue[|q|].key == MapVirtualKeyToInputKey(VirtualKey(m.wParam), m.lParam)
      && out.queue[|q|].modifier == ModifierMask(os.keys)
      && (m.msg == WM_KEYUP ==> out.queue[|q|].state == Released)
      && (m.msg == WM_KEYDOWN ==> (out.queue[|q|].state == Repeat <==> m.lParam & 0x4000_0000 != 0))
      && (m.msg == WM_KEYDOWN ==> out.queue[|q|].state != Released)
  {
  }

  /**
   * Buttons: left, right and middle give One, Two and Three; X button 1 and 2
   * give Four and Five, any other X button Six. Down messages give Pressed,
   * up messages Released.
   */
  lemma ButtonEvents(q: seq<WindowEvent>, w: WindowView, m: Message, os: NativeInputs)
    requires IsButtonMessage(m.msg)
    ensures var out := Translate(q, w, m, os);
      && out.queue == q + [out.queue[|q|]] && out.queue[|q|].CursorButtonEvent?
      && var b := out.queue[|q|].button;
      && (m.msg in {WM_LBUTTONDOWN, WM_LBUTTONUP} ==> b == CursorButton.One)
      && (m.msg in {WM_RBUTTONDOWN, WM_RBUTTONUP} ==> b == CursorButton.Two)
      && (m.msg in {WM_MBUTTONDOWN, WM_MBUTTONUP} ==> b == CursorButton.Three)
      && (m.msg in {WM_XBUTTONDOWN, WM_XBUTTONUP} ==>
            b == (if XButton(m.wParam) == XBUTTON1 then CursorButton.Four
                  else if XButton(m.wParam) == XBUTTON2 then CursorButton.Five
                  else CursorButton.Six))
      && (out.queue[|q|].state == Pressed <==> m.msg in {WM_LBUTTONDOWN, WM_RBUTTONDOWN, WM_MBUTTONDOWN, WM_XBUTTONDOWN})
      && (out.queue[|q|].state != Repeat)
  {
  }

  /**
   * WM_NCHITTEST is answered synchronously and never queued: the default
   * classification stands unless it is the client area and a callback is set.
   */
  lemma HitTestNotQueued(q: seq<WindowEvent>, w: WindowView, m: Message, os: NativeInputs)
    requires m.msg == WM_NCHITTEST
    ensures var out := Translate(q, w, m, os);
      && out.queue == q && out.trackingMouse == w.trackingMouse
      && (os.defaultHit != HTCLIENT || w.hitTest.None? ==> out.result == Returned(os.defaultHit))
      && (os.defaultHit == HTCLIENT && w.hitTest.Some? && w.hitTest.value(os.hitPoint) == HitTestResult.None ==>
            out.result == Returned(HTCLIENT))
      && (os.defaultHit == HTCLIENT && w.hitTest.Some? && w.hitTest.value(os.hitPoint) == DragArea ==>
            out.result == Returned(HTCAPTION))
  {
  }

  /** WM_CHAR: one Text event per message, carrying one UTF-16 code unit, answered with 0. */
  lemma TextEvents(q: seq<WindowEvent>, w: WindowView, m: Message, os: NativeInputs)
    requires m.msg == WM_CHAR
    ensures Translate(q, w, m, os).queue == q + [TextEvent(w.id, CodeUnit(m.wParam))]
    ensures Translate(q, w, m, os).result == Returned(0)
  {
  }

  /** WM_CLOSE: one advisory Close event; the window is not destroyed (no DefWindowProc), answered with 0. */
  lemma CloseEvents(q: seq<WindowEvent>, w: WindowView, m: Message, os: NativeInputs)
    requires m.msg == WM_CLOSE
    ensures Translate(q, w, m, os).queue == q + [CloseEvent(w.id)]
    ensures Translate(q, w, m, os).result == Returned(0)
  {
  }

  /**
   * The frameless-window hit-test callback of the demo program, for a client
   * area of the given size. The border tests subtract from the unsigned
   * client size, so they wrap for a window narrower or lower than 20.
   */
  function DemoHitTest(size: Extent2D): Vector2 -> HitTestResult
  {
    (point: Vector2) =>
      if point.y < 25 then DragArea
      else if point.x <= 20 then LeftResize
      else if point.x > Wrap32(size.width - 20) then RightResize
      else if point.y >= Wrap32(size.height - 20) then BottomResize
      else HitTestResult.None
  }

  /** With the demo callback, the client point (50, 5) of a window resolves to the caption (drag) region. */
  lemma DemoDragArea(q: seq<WindowEvent>, id: uint64, tracking: bool, size: Extent2D, m: Message, os: NativeInputs)
    requires m.msg == WM_NCHITTEST && os.defaultHit == HTCLIENT && os.hitPoint == Vector2(50, 5)
    ensures Translate(q, WindowView(id, tracking, Some(DemoHitTest(size))), m, os).result == Returned(HTCAPTION)
  {
  }

  /** Three WM_SIZE messages with nothing in between leave one Resize, carrying the last extent. */
  lemma ResizesCollapse(w: WindowView, m: Message, os1: NativeInputs, os2: NativeInputs, os3: NativeInputs)
    requires m.msg == WM_SIZE
    ensures var q1 := Translate([], w, m, os1).queue;
      var q2 := Translate(q1, w, m, os2).queue;
      Translate(q2, w, m, os3).queue == [ResizeEvent(w.id, ClientExtent(os3.clientRect))]
  {
    var q1 := Translate([], w, m, os1).queue;
    ResizeCoalesces([], w, m, os1);
    assert q1 == [ResizeEvent(w.id, ClientExtent(os1.clientRect))];
    var q2 := Translate(q1, w, m, os2).queue;
    ResizeCoalesces(q1, w, m, os2);
    assert q1[..0] == [];
    assert q2 == [ResizeEvent(w.id, ClientExtent(os2.clientRect))];
    ResizeCoalesces(q2, w, m, os3);
    assert q2[..0] == [];
  }

  // ---------------------------------------------------------------- window creation

  /**
   * The native style Create derives from the requested flags. It always has
   * the system menu; it has a sizing border exactly when Resizable is
   * requested; a frameless window is a popup without caption or
   * minimize/maximize boxes, any other window has all three and is not a popup.
   */
  function WindowStyle(flags: bv32): (style: bv32)
    ensures style & WS_SYSMENU != 0
    ensures style & WS_SIZEBOX != 0 <==> flags & Resizable.Bit() != 0
    ensures style & WS_POPUP != 0 <==> flags & Frameless.Bit() != 0
    ensures style & WS_CAPTION == WS_CAPTION <==> flags & Frameless.Bit() == 0
    ensures style & (WS_MINIMIZEBOX | WS_MAXIMIZEBOX) != 0 <==> flags & Frameless.Bit() == 0
  {
    WS_SYSMENU
    | (if flags & Resizable.Bit() != 0 then WS_SIZEBOX else 0)
    | (if flags & Frameless.Bit() != 0 then WS_POPUP
       else WS_OVERLAPPED | WS_CAPTION | WS_MINIMIZEBOX | WS_MAXIMIZEBOX)
  }

  /**
   * The centring offset (screen - extent) / 2, where screen is an int and
   * extent a uint32_t: the subtraction and the halving are done in unsigned
   * 32-bit arithmetic, so the offset always fits the int CreateWindowEx takes.
   */
  function CenterOffset(screen: int, extent: uint32): (r: int)
    ensures 0 <= r < 0x8000_0000
  {
    Wrap32(screen - extent) / 2
  }

  /**
   * A window that fits is centred. One wider than the screen is not placed at
   * a negative offset: after the unsigned wrap-around, an extent less than
   * 2^31 past the screen gives an offset of at least 2^30 (beyond the right
   * edge of any screen up to 2^30 wide), and a larger one gives half of
   * screen - extent + 2^32.
   */
  lemma CenterOffsetWraps(screen: int, extent: uint32)
    requires 0 <= screen < 0x8000_0000
    ensures extent <= screen ==> CenterOffset(screen, extent) == (screen - extent) / 2
    ensures screen < extent < screen + 0x8000_0000 ==> CenterOffset(screen, extent) >= 0x4000_0000 > screen / 2
    ensures screen <= 0x4000_0000 && screen < extent < screen + 0x8000_0000 ==> CenterOffset(screen, extent) >= screen
    ensures screen + 0x8000_0000 <= extent ==> CenterOffset(screen, extent) == (screen - extent + TWO_32) / 2
  {
  }
}
