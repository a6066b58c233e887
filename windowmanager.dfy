/**
 * The Windows window manager (lib/rwin/windows/WindowsWindowManager.cpp and
 * its header): the window registry with its two maps, the pending-event
 * queue fed by the window procedure and drained by GetEvents, the per-id
 * queries and commands, and the OLE drop target each drag-and-drop window
 * registers. Every native call is replaced by its result, passed in as a
 * parameter, or by a returned value naming the call the manager would make.
 */
module WindowManager {
  import opened Types
  import opened Wrappers
  import opened Win32
  import opened Bitmask
  import opened Ids
  import opened Translation
  import opened DropData
  import opened Keymap

  /**
   * The enter and over callbacks decide whether a drag is accepted. The
   * drop and leave callbacks return nothing; the drop target reports their
   * invocation as a Notice instead.
   */
  datatype DropCallbacks = DropCallbacks(enter: (Vector2, DropContext) -> bool, over: (Vector2, DropContext) -> bool)

  /** Which void drop callback a drop-target method invoked, and with what. */
  datatype Notice = NoCallback | LeaveCalled | DropCalled(position: Vector2, context: DropContext)

  /** The interfaces QueryInterface may be asked for. */
  datatype Iid = IUnknown | IDropTarget | OtherInterface

  /** The per-window record. */
  datatype WindowInfo = WindowInfo(
    id: uint64,
    hwnd: nat,
    trackingMouse: bool,
    dropTarget: Option<WindowDropTarget>,
    dropCallbacks: Option<DropCallbacks>,
    hitTestFunction: Option<Vector2 -> HitTestResult>)

  /** The part of a record the window procedure reads. */
  function View(info: WindowInfo): WindowView
  {
    WindowView(info.id, info.trackingMouse, info.hitTestFunction)
  }

  // ---------------------------------------------------------------- the registry as a value

  /** The two maps: id to record (_windows) and native handle to id (_hwndToWindowId). */
  datatype Registry = Registry(windows: map<uint64, WindowInfo>, handles: map<nat, uint64>)

  /** Each record is filed under its own id and its handle maps back to it; every handle maps to a record with that handle. */
  ghost predicate Consistent(r: Registry)
  {
    && (forall id :: id in r.windows ==>
          r.windows[id].id == id && r.windows[id].hwnd in r.handles && r.handles[r.windows[id].hwnd] == id)
    && (forall h :: h in r.handles ==> r.handles[h] in r.windows && r.windows[r.handles[h]].hwnd == h)
  }

  /**
   * In a consistent registry the two maps are inverse to each other: the ids
   * with a record are exactly the ids some handle maps to, and no two handles
   * map to the same id.
   */
  lemma ConsistentIsOneToOne(r: Registry)
    requires Consistent(r)
    ensures r.windows.Keys == r.handles.Values
    ensures forall h1, h2 :: h1 in r.handles && h2 in r.handles && r.handles[h1] == r.handles[h2] ==> h1 == h2
  {
  }

  /** unordered_map::emplace: inserts only when the key is absent. */
  function Emplace<K, V>(m: map<K, V>, k: K, v: V): map<K, V>
  {
    if k in m then m else m[k := v]
  }

  /**
   * What Create files: the record under its id, and its handle under the id.
   * Both keys are then present, and emplace never overwrites: a record or a
   * handle already filed stays as it was.
   */
  function Register(r: Registry, info: WindowInfo): (u: Registry)
    ensures u.windows.Keys == r.windows.Keys + {info.id}
    ensures u.handles.Keys == r.handles.Keys + {info.hwnd}
    ensures info.id in r.windows ==> u.windows == r.windows
    ensures info.hwnd in r.handles ==> u.handles == r.handles
  {
    Registry(Emplace(r.windows, info.id, info), Emplace(r.handles, info.hwnd, info.id))
  }

  /** What Destroy erases: the record and its handle, and nothing else; an unknown id changes nothing. */
  function Unregister(r: Registry, id: uint64): (u: Registry)
    ensures u.windows.Keys == r.windows.Keys - {id}
    ensures u.handles.Keys <= r.handles.Keys && |r.handles.Keys| <= |u.handles.Keys| + 1
    ensures id !in r.windows ==> u == r
  {
    if id in r.windows then Registry(r.windows - {id}, r.handles - {r.windows[id].hwnd}) else r
  }

  /** Filing a record under a new id and a new handle keeps the maps consistent and adds exactly that id. */
  lemma RegisterKeepsConsistent(r: Registry, info: WindowInfo)
    requires Consistent(r)
    requires info.id !in r.windows && info.hwnd !in r.handles
    ensures Consistent(Register(r, info))
    ensures Register(r, info).windows.Keys == r.windows.Keys + {info.id}
    ensures Register(r, info).handles.Keys == r.handles.Keys + {info.hwnd}
    ensures forall id :: id in r.windows ==> Register(r, info).windows[id] == r.windows[id]
  {
  }

  /** Erasing keeps the maps consistent and removes exactly the id and its handle. */
  lemma UnregisterKeepsConsistent(r: Registry, id: uint64)
    requires Consistent(r)
    ensures Consistent(Unregister(r, id))
    ensures Unregister(r, id).windows.Keys == r.windows.Keys - {id}
    ensures forall h :: h in Unregister(r, id).handles <==> h in r.handles && r.handles[h] != id
    ensures forall k :: k in Unregister(r, id).windows ==> Unregister(r, id).windows[k] == r.windows[k]
  {
    if id in r.windows {
      var u := Unregister(r, id);
      forall h | h in u.handles
        ensures u.handles[h] in u.windows && u.windows[u.handles[h]].hwnd == h
      {
        assert h != r.windows[id].hwnd;
      }
    }
  }

  /** Replacing a record by one with the same id and handle keeps the maps consistent. */
  lemma ReplaceKeepsConsistent(r: Registry, id: uint64, info: WindowInfo)
    requires Consistent(r)
    requires id in r.windows && info.id == id && info.hwnd == r.windows[id].hwnd
    ensures Consistent(Registry(r.windows[id := info], r.handles))
  {
  }

  /**
   * Two creations that both got the null handle (CreateWindowEx failed)
   * break the registry: the second record carries a handle that maps to the
   * first, and destroying the second erases the first's handle entry.
   */
  lemma FailedCreationsCollide(r: Registry, a: WindowInfo, b: WindowInfo)
    requires Consistent(r)
    requires a.id !in r.windows && b.id !in r.windows && a.id != b.id
    requires a.hwnd == NULL_HWND && b.hwnd == NULL_HWND && NULL_HWND !in r.handles
    ensures var r2 := Register(Register(r, a), b);
      && r2.windows[b.id].hwnd == NULL_HWND && r2.handles[NULL_HWND] == a.id
      && !Consistent(r2)
    ensures var r3 := Unregister(Register(Register(r, a), b), b.id);
      && a.id in r3.windows && NULL_HWND !in r3.handles
      && !Consistent(r3)
  {
    var r1 := Register(r, a);
    var r2 := Register(r1, b);
    assert r2.handles[NULL_HWND] == a.id;
    assert r2.windows[b.id].hwnd == NULL_HWND;
    var r3 := Unregister(r2, b.id);
    assert r3.windows[a.id].hwnd == NULL_HWND;
  }

  /** Destroying a window right after creating it gives back the maps as they were. */
  lemma UnregisterUndoesRegister(r: Registry, info: WindowInfo)
    requires Consistent(r)
    requires info.id !in r.windows && info.hwnd !in r.handles
    ensures Unregister(Register(r, info), info.id) == r
  {
    var u := Unregister(Register(r, info), info.id);
    assert u.windows == r.windows;
    assert u.handles == r.handles;
  }

  // ---------------------------------------------------------------- the event queue as a value

  function Min(a: int, b: int): int
  {
    if a <= b then a else b
  }

  /** GetEvents on a queue and a buffer capacity: the events taken, and the queue left. */
  function Drain(q: seq<WindowEvent>, capacity: nat): (r: (seq<WindowEvent>, seq<WindowEvent>))
    ensures |r.0| == Min(capacity, |q|)
    ensures r.0 + r.1 == q
  {
    var n := Min(capacity, |q|);
    (q[..n], q[n..])
  }

  /** Draining in two calls hands out the same events, in the same order, as one call with the combined capacity. */
  lemma DrainTwice(q: seq<WindowEvent>, c1: nat, c2: nat)
    ensures var (a, rest) := Drain(q, c1);
      var (b, rest') := Drain(rest, c2);
      a + b == Drain(q, c1 + c2).0 && rest' == Drain(q, c1 + c2).1
  {
    var (a, rest) := Drain(q, c1);
    var (b, rest') := Drain(rest, c2);
    var (ab, r) := Drain(q, c1 + c2);
    assert a + b + rest' == q;
    assert ab + r == q;
    assert |a + b| == |ab|;
    assert a + b == q[..|ab|] == ab;
  }

  // ---------------------------------------------------------------- native calls the manager makes

  /** The native calls Create makes around CreateWindowEx. */
  datatype CreateCalls = CreateCalls(style: bv32, x: int, y: int, setFocus: bool, showCmd: int, registerDragDrop: bool)

  /** The calls Create makes for the requested flags, size and screen size. */
  function CreateCallsFor(flags: bv32, size: Extent2D, screenWidth: int, screenHeight: int): (c: CreateCalls)
    ensures c.setFocus == c.registerDragDrop
    ensures c.registerDragDrop <==> Overlaps(flags, WindowFlags.DragAndDrop.Bit())
    ensures c.showCmd == SW_SHOW <==> Overlaps(flags, WindowFlags.Visible.Bit())
    ensures c.showCmd != SW_SHOW ==> c.showCmd == SW_HIDE
    ensures 0 <= c.x < 0x8000_0000 && 0 <= c.y < 0x8000_0000
  {
    CreateCalls(
      WindowStyle(flags),
      CenterOffset(screenWidth, size.width),
      CenterOffset(screenHeight, size.height),
      Overlaps(flags, WindowFlags.Focused.Bit()),
      if Overlaps(flags, WindowFlags.Visible.Bit()) then SW_SHOW else SW_HIDE,
      Overlaps(flags, WindowFlags.DragAndDrop.Bit()))
  }

  /** The calls Destroy makes for a known window. */
  datatype DestroyCalls = DestroyCalls(hwnd: nat, revokeDragDrop: bool)

  /** A ShowWindow call. */
  datatype ShowCall = ShowCall(hwnd: nat, command: int)

  /** InterlockedIncrement / InterlockedDecrement on a 32-bit count wrap modulo 2^32. */
  lemma AddRefReleaseInverse(count: uint32)
    ensures Wrap32(Wrap32(count + 1) - 1) == count
    ensures count > 0 ==> Wrap32(Wrap32(count - 1) + 1) == count
    ensures Wrap32(count - 1) == 0 <==> count == 1
  {
  }

  // ---------------------------------------------------------------- the drop target

  /**
   * The IDropTarget registered for a drag-and-drop window. It keeps only the
   * window's id and looks the record up again on every call; the context of
   * an accepted drag is kept until the next accepted DragEnter.
   */
  class WindowDropTarget {
    var refCount: uint32
    const windowId: uint64
    var dropContext: DropContext?
    /** Set when Release brings the count to zero (delete this). */
    var deleted: bool

    constructor (id: uint64)
      ensures windowId == id && refCount == 1 && dropContext == null && !deleted
    {
      windowId := id;
      refCount := 1;
      dropContext := null;
      deleted := false;
    }

    /** The status QueryInterface reports. */
    static function QueryStatus(riid: Iid, hasOut: bool): (hr: int)
      ensures hr == S_OK <==> hasOut && (riid == IUnknown || riid == IDropTarget)
      ensures hr == E_POINTER <==> !hasOut
      ensures hr == E_NOINTERFACE <==> hasOut && riid == OtherInterface
    {
      if !hasOut then E_POINTER
      else
        match riid
        case IUnknown => S_OK
        case IDropTarget => S_OK
        case OtherInterface => E_NOINTERFACE
    }

    /**
     * QueryInterface: without an out pointer, E_POINTER. For IUnknown and
     * IDropTarget, hands out this object and adds a reference; for any other
     * interface, hands out null and E_NOINTERFACE.
     */
    method QueryInterface(riid: Iid, hasOut: bool) returns (hr: int, iface: WindowDropTarget?)
      modifies this
      ensures hr == QueryStatus(riid, hasOut)
      ensures iface == (if hr == S_OK then this else null)
      ensures refCount == (if hr == S_OK then Wrap32(old(refCount) + 1) else old(refCount))
      ensures dropContext == old(dropContext) && deleted == old(deleted)
    {
      iface := null;
      if !hasOut {
        hr := E_POINTER;
        return;
      }
      if riid == IUnknown || riid == IDropTarget {
        iface := this;
        var _ := AddRef();
        hr := S_OK;
        return;
      }
      hr := E_NOINTERFACE;
    }

    method AddRef() returns (count: uint32)
      modifies this
      ensures refCount == Wrap32(old(refCount) + 1) && count == refCount
      ensures dropContext == old(dropContext) && deleted == old(deleted)
    {
      refCount := Wrap32(refCount + 1);
      count := refCount;
    }

    /** Release: drops a reference; the object is deleted when the count reaches zero. */
    method Release() returns (count: uint32)
      modifies this
      ensures refCount == Wrap32(old(refCount) - 1) && count == refCount
      ensures deleted == (old(deleted) || count == 0)
      ensures dropContext == old(dropContext)
    {
      refCount := Wrap32(refCount - 1);
      count := refCount;
      if count == 0 {
        deleted := true;
      }
    }

    /**
     * DragEnter: when the window still exists, wraps the data object in a
     * new context and offers it to the enter callback. The drag is accepted,
     * the context kept and COPY reported, exactly when callbacks are set and
     * enter returns true; otherwise NONE is reported and the previously kept
     * context stays.
     */
    method DragEnter(m: WindowsWindowManager, data: DataObject, clientPoint: Vector2)
      returns (hr: int, effect: int, offered: DropContext?)
      modifies this
      ensures hr == S_OK
      ensures offered != null <==> windowId in m.windows
      ensures offered != null ==> fresh(offered) && offered.data == data && offered.Valid()
      ensures effect == DROPEFFECT_COPY <==>
        offered != null && m.windows[windowId].dropCallbacks.Some? &&
        m.windows[windowId].dropCallbacks.value.enter(clientPoint, offered)
      ensures effect != DROPEFFECT_COPY ==> effect == DROPEFFECT_NONE && dropContext == old(dropContext)
      ensures effect == DROPEFFECT_COPY ==> dropContext == offered
      ensures refCount == old(refCount) && deleted == old(deleted)
    {
      var accept := false;
      offered := null;
      var info := m.GetWindowInfo(windowId);
      if info.Some? {
        var ctx := new DropContext(data);
        offered := ctx;
        accept := info.value.dropCallbacks.Some? && info.value.dropCallbacks.value.enter(clientPoint, ctx);
        if accept {
          dropContext := ctx;
        }
      }
      effect := if accept then DROPEFFECT_COPY else DROPEFFECT_NONE;
      hr := S_OK;
    }

    /** DragOver: COPY exactly when the window exists, a context is kept, callbacks are set and over accepts. */
    method DragOver(m: WindowsWindowManager, clientPoint: Vector2) returns (hr: int, effect: int)
      ensures hr == S_OK
      ensures effect == DROPEFFECT_COPY || effect == DROPEFFECT_NONE
      ensures effect == DROPEFFECT_COPY <==>
        windowId in m.windows && dropContext != null && m.windows[windowId].dropCallbacks.Some? &&
        m.windows[windowId].dropCallbacks.value.over(clientPoint, dropContext)
    {
      var accept := false;
      var info := m.GetWindowInfo(windowId);
      if info.Some? && dropContext != null {
        accept := info.value.dropCallbacks.Some? && info.value.dropCallbacks.value.over(clientPoint, dropContext);
      }
      effect := if accept then DROPEFFECT_COPY else DROPEFFECT_NONE;
      hr := S_OK;
    }

    /** DragLeave: calls leave when the window exists, a context is kept and callbacks are set. */
    method DragLeave(m: WindowsWindowManager) returns (hr: int, notice: Notice)
      ensures hr == S_OK
      ensures notice == LeaveCalled <==>
        windowId in m.windows && dropContext != null && m.windows[windowId].dropCallbacks.Some?
      ensures notice != LeaveCalled ==> notice == NoCallback
    {
      notice := NoCallback;
      var info := m.GetWindowInfo(windowId);
      if info.Some? && dropContext != null {
        if info.value.dropCallbacks.Some? {
          notice := LeaveCalled;
        }
      }
      hr := S_OK;
    }

    /**
     * Drop: calls drop with the client point and the context kept at
     * DragEnter (the data object passed to Drop itself is not looked at),
     * under the same conditions as DragLeave.
     */
    method Drop(m: WindowsWindowManager, data: DataObject, clientPoint: Vector2) returns (hr: int, notice: Notice)
      ensures hr == S_OK
      ensures notice.DropCalled? <==>
        windowId in m.windows && dropContext != null && m.windows[windowId].dropCallbacks.Some?
      ensures notice.DropCalled? ==> notice == DropCalled(clientPoint, dropContext)
      ensures !notice.DropCalled? ==> notice == NoCallback
    {
      notice := NoCallback;
      var info := m.GetWindowInfo(windowId);
      if info.Some? && dropContext != null {
        if info.value.dropCallbacks.Some? {
          notice := DropCalled(clientPoint, dropContext);
        }
      }
      hr := S_OK;
    }
  }

  // ---------------------------------------------------------------- the manager

  class WindowsWindowManager {
    /** The FIFO of translated events (std::list<WindowEvent>). */
    var pendingEvents: seq<WindowEvent>
    var windows: map<uint64, WindowInfo>
    var hwndToWindowId: map<nat, uint64>
    const idFactory: IdFactory

    /**
     * The maps agree, every record's id is below the factory's counter,
     * nothing was ever freed, and a record's drop target is the one made
     * for its id.
     */
    ghost predicate Valid()
      reads this, idFactory
    {
      && Consistent(Registry(windows, hwndToWindowId))
      && idFactory.freeIds == []
      && (forall id :: id in windows ==> id < idFactory.next)
      && (forall id :: id in windows && windows[id].dropTarget.Some? ==> windows[id].dropTarget.value.windowId == id)
    }

    constructor ()
      ensures Valid() && fresh(idFactory)
      ensures pendingEvents == [] && windows == map[] && hwndToWindowId == map[]
      ensures idFactory.State() == FRESH
    {
      pendingEvents := [];
      windows := map[];
      hwndToWindowId := map[];
      idFactory := new IdFactory();
    }

    function Registered(): Registry
      reads this
    {
      Registry(windows, hwndToWindowId)
    }

    /** GetWindowInfo(id): the record, or none for an unknown id. */
    function GetWindowInfo(id: uint64): (r: Option<WindowInfo>)
      reads this
      ensures r.Some? <==> id in windows
      ensures r.Some? ==> r.value == windows[id] && (Consistent(Registered()) ==> r.value.id == id)
    {
      if id in windows then Some(windows[id]) else Option.None
    }

    /** GetWindowInfo(hwnd): the record the handle maps to, if any. */
    function GetWindowInfoByHandle(hwnd: nat): (r: Option<WindowInfo>)
      reads this
      ensures r.Some? <==> hwnd in hwndToWindowId && hwndToWindowId[hwnd] in windows
      ensures r.Some? ==> r.value == windows[hwndToWindowId[hwnd]]
      ensures Consistent(Registered()) ==> (r.Some? <==> hwnd in hwndToWindowId)
      ensures Consistent(Registered()) && r.Some? ==> r.value.hwnd == hwnd && r.value.id == hwndToWindowId[hwnd]
    {
      if hwnd in hwndToWindowId then GetWindowInfo(hwndToWindowId[hwnd]) else Option.None
    }

    /** `if (cond) flags.Add(bit)`. */
    static method AddWhen(flags: Flags, cond: bool, bit: bv32)
      modifies flags
      ensures flags.value == AddIf(old(flags.value), cond, bit)
    {
      if cond {
        var _ := flags.Add(bit);
      }
    }

    /** The current modifier mask, built with a Flags<InputModifier> as the window procedure does. */
    static method SampleModifiers(keys: KeySample) returns (mask: bv32)
      ensures mask == ModifierMask(keys)
    {
      var modifiers := new Flags.Empty();
      AddWhen(modifiers, IsDown(keys.shift), Shift.Bit());
      AddWhen(modifiers, IsDown(keys.control), Control.Bit());
      AddWhen(modifiers, IsDown(keys.menu), Alt.Bit());
      AddWhen(modifiers, IsDown(keys.lwin) || IsDown(keys.rwin), Super.Bit());
      AddWhen(modifiers, IsToggled(keys.capital), CapsLock.Bit());
      AddWhen(modifiers, IsToggled(keys.numlock), NumLock.Bit());
      mask := modifiers.Underlying();
    }

    /**
     * The window procedure: for a handle with no record, DefWindowProc;
     * otherwise the queue, the record's tracking flag and the result are
     * those Translate gives, and nothing else changes.
     */
    method WindowProc(hwnd: nat, m: Message, os: NativeInputs) returns (result: ProcResult)
      requires Valid()
      modifies this
      ensures Valid()
      ensures hwndToWindowId == old(hwndToWindowId)
      ensures old(GetWindowInfoByHandle(hwnd)).None? ==>
        pendingEvents == old(pendingEvents) && windows == old(windows) && result == DefaultProc
      ensures old(GetWindowInfoByHandle(hwnd)).Some? ==>
        var info := old(GetWindowInfoByHandle(hwnd)).value;
        var out := Translate(old(pendingEvents), View(info), m, os);
        && pendingEvents == out.queue
        && result == out.result
        && windows == old(windows)[info.id := info.(trackingMouse := out.trackingMouse)]
    {
      var found := GetWindowInfoByHandle(hwnd);
      if found.None? {
        return DefaultProc;
      }
      var info := found.value;
      var queue, tracking;
      if IsPointerMessage(m.msg) {
        queue, tracking, result := HandlePointer(pendingEvents, View(info), m, os);
      } else if IsInputMessage(m.msg) {
        queue, tracking, result := HandleInput(pendingEvents, View(info), m, os);
      } else {
        queue, tracking, result := HandleWindowMessage(pendingEvents, View(info), m, os);
      }
      SetTracking(info.id, tracking);
      pendingEvents := queue;
    }

    /** Writes the tracking flag back into the window's record (WindowInfo is held by reference). */
    method SetTracking(id: uint64, tracking: bool)
      requires Valid() && id in windows
      modifies this
      ensures Valid()
      ensures windows == old(windows)[id := old(windows)[id].(trackingMouse := tracking)]
      ensures hwndToWindowId == old(hwndToWindowId) && pendingEvents == old(pendingEvents)
    {
      ReplaceKeepsConsistent(Registered(), id, windows[id].(trackingMouse := tracking));
      windows := windows[id := windows[id].(trackingMouse := tracking)];
    }

    /** The hit-test and mouse-tracking cases of the window procedure. */
    static method HandlePointer(q: seq<WindowEvent>, w: WindowView, m: Message, os: NativeInputs)
      returns (queue: seq<WindowEvent>, tracking: bool, result: ProcResult)
      requires IsPointerMessage(m.msg)
      ensures Outcome(queue, tracking, result) == TranslatePointer(q, w, m, os)
    {
      queue, tracking := q, w.trackingMouse;
      if m.msg == WM_NCHITTEST {
        var hit := os.defaultHit;
        if hit == HTCLIENT && w.hitTest.Some? {
          hit := HitCode(w.hitTest.value(os.hitPoint));
        }
        result := Returned(hit);
      } else if m.msg == WM_MOUSEHOVER {
        result := Returned(0);
      } else if m.msg == WM_MOUSELEAVE {
        tracking := false;
        queue := queue + [CursorFocusEvent(w.id, 0)];
        result := Returned(0);
      } else {
        if !tracking && !os.trackSucceeds {
          result := DefaultProc;
          return;
        }
        if !tracking {
          tracking := true;
          queue := queue + [CursorFocusEvent(w.id, 1)];
        }
        queue := queue + [CursorMoveEvent(w.id, PointFromLParam(m.lParam))];
        result := Returned(0);
      }
    }

    /** The mouse-button, character and key cases of the window procedure. */
    static method HandleInput(q: seq<WindowEvent>, w: WindowView, m: Message, os: NativeInputs)
      returns (queue: seq<WindowEvent>, tracking: bool, result: ProcResult)
      requires IsInputMessage(m.msg)
      ensures Outcome(queue, tracking, result) == TranslateInput(q, w, m, os)
    {
      tracking := w.trackingMouse;
      result := Returned(0);
      if IsButtonMessage(m.msg) {
        var isDown := IsButtonDown(m.msg);
        var state := if isDown then Pressed else Released;
        var button := ButtonOf(m.msg, m.wParam);
        var modifiers := SampleModifiers(os.keys);
        queue := q + [CursorButtonEvent(w.id, button, state, modifiers)];
      } else if m.msg == WM_CHAR {
        queue := q + [TextEvent(w.id, CodeUnit(m.wParam))];
      } else {
        var key := MapVirtualKeyToInputKey(VirtualKey(m.wParam), m.lParam);
        var keyFlags := (m.lParam >> 16) & 0xFFFF;
        var isRepeat := keyFlags & KF_REPEAT == KF_REPEAT;
        var state := if m.msg == WM_KEYUP then Released else if isRepeat then Repeat else Pressed;
        var modifiers := SampleModifiers(os.keys);
        queue := q + [KeyEvent(w.id, key, state, modifiers)];
      }
    }

    /** The resize and close cases of the window procedure, and every other message. */
    method HandleWindowMessage(q: seq<WindowEvent>, w: WindowView, m: Message, os: NativeInputs)
      returns (queue: seq<WindowEvent>, tracking: bool, result: ProcResult)
      requires w.id in windows
      ensures Outcome(queue, tracking, result) == TranslateWindowMessage(q, w, m, os)
    {
      queue, tracking := q, w.trackingMouse;
      if m.msg == WM_SIZE {
        var ev := ResizeEvent(w.id, GetClientSize(w.id, os.clientRect));
        if queue != [] && queue[|queue| - 1].Type() == Resize {
          queue := queue[..|queue| - 1] + [ev];
        } else {
          queue := queue + [ev];
        }
        result := DefaultProc;
      } else if m.msg == WM_CLOSE {
        queue := queue + [CloseEvent(w.id)];
        result := Returned(0);
      } else {
        result := DefaultProc;
      }
    }

    /**
     * GetEvents: moves min(capacity, queue length) events from the front of
     * the queue into the buffer, oldest first; the rest of the buffer and
     * the registry are untouched.
     */
    method GetEvents(events: array<WindowEvent>) returns (gotten: nat)
      modifies this, events
      ensures gotten <= events.Length
      ensures (events[..gotten], pendingEvents) == Drain(old(pendingEvents), events.Length)
      ensures events[gotten..] == old(events[gotten..])
      ensures windows == old(windows) && hwndToWindowId == old(hwndToWindowId)
    {
      gotten := 0;
      var i := 0;
      while i < events.Length
        invariant 0 <= i <= events.Length && gotten == i
        invariant i <= |old(pendingEvents)|
        invariant pendingEvents == old(pendingEvents)[i..]
        invariant events[..i] == old(pendingEvents)[..i]
        invariant events[i..] == old(events[i..])
        invariant windows == old(windows) && hwndToWindowId == old(hwndToWindowId)
      {
        if pendingEvents == [] {
          break;
        }
        var event := pendingEvents[0];
        pendingEvents := pendingEvents[1..];
        events[i] := event;
        gotten := gotten + 1;
        i := i + 1;
      }
    }

    /**
     * Create: takes the next id from the factory, files a record for the
     * new handle (not tracking the mouse, no callbacks) with a drop target
     * exactly when the DragAndDrop bit is requested, and returns the id and
     * the native calls made for it. RegisterDragDrop takes a reference of its
     * own on the drop target, so a new target holds two.
     */
    method Create(size: Extent2D, flags: Flags, screenWidth: int, screenHeight: int, hwnd: nat)
      returns (id: uint64, calls: CreateCalls)
      requires Valid()
      requires hwnd !in hwndToWindowId
      requires idFactory.next < MAX_ID
      modifies this, idFactory
      ensures Valid()
      ensures id == old(idFactory.next) && idFactory.next == id + 1
      ensures id !in old(windows) && id in windows
      ensures Registered() == Register(old(Registered()), windows[id])
      ensures windows[id] == WindowInfo(id, hwnd, false, windows[id].dropTarget, Option.None, Option.None)
      ensures windows[id].dropTarget.Some? <==> flags.Has(WindowFlags.DragAndDrop.Bit())
      ensures windows[id].dropTarget.Some? ==>
        var t := windows[id].dropTarget.value;
        fresh(t) && t.windowId == id && t.refCount == 2 && t.dropContext == null && !t.deleted
      ensures calls == CreateCallsFor(flags.value, size, screenWidth, screenHeight)
      ensures pendingEvents == old(pendingEvents)
    {
      id := idFactory.New();
      calls := CreateCallsFor(flags.value, size, screenWidth, screenHeight);
      var dropTarget: Option<WindowDropTarget> := Option.None;
      if flags.Has(WindowFlags.DragAndDrop.Bit()) {
        var t := new WindowDropTarget(id);
        // RegisterDragDrop: OLE keeps the target and AddRefs it.
        var _ := t.AddRef();
        dropTarget := Some(t);
      }
      File(WindowInfo(id, hwnd, false, dropTarget, Option.None, Option.None));
    }

    /** The two emplace calls that file a new record under its id and its handle. */
    method File(info: WindowInfo)
      requires Valid()
      requires info.id !in windows && info.hwnd !in hwndToWindowId && info.id < idFactory.next
      requires info.dropTarget.Some? ==> info.dropTarget.value.windowId == info.id
      modifies this
      ensures Valid()
      ensures Registered() == Register(old(Registered()), info)
      ensures pendingEvents == old(pendingEvents)
    {
      RegisterKeepsConsistent(Registered(), info);
      windows := Emplace(windows, info.id, info);
      hwndToWindowId := Emplace(hwndToWindowId, info.hwnd, info.id);
    }

    /** The drop target Destroy releases, if any. */
    function TargetOf(id: uint64): set<WindowDropTarget>
      reads this
    {
      if id in windows && windows[id].dropTarget.Some? then {windows[id].dropTarget.value} else {}
    }

    /**
     * Destroy: for a known id, revokes and releases the drop target, if any,
     * and erases the record and its handle; for an unknown id, nothing. The
     * id is not given back to the factory. RevokeDragDrop drops OLE's
     * reference and the manager then drops its own, so a target that nobody
     * else holds is deleted, while one OLE still holds (mid-drag) lives on.
     */
    method Destroy(id: uint64) returns (calls: Option<DestroyCalls>)
      requires Valid()
      modifies this, TargetOf(id)
      ensures Valid()
      ensures Registered() == Unregister(old(Registered()), id)
      ensures calls.Some? <==> id in old(windows)
      ensures calls.Some? ==> calls.value == DestroyCalls(old(windows[id].hwnd), old(windows[id].dropTarget.Some?))
      ensures id in old(windows) && old(windows[id].dropTarget.Some?) ==>
        var t := old(windows[id].dropTarget.value);
        var revoked := Wrap32(old(t.refCount) - 1);
        t.refCount == Wrap32(revoked - 1) && t.deleted == (old(t.deleted) || revoked == 0 || t.refCount == 0)
      ensures id in old(windows) && old(windows[id].dropTarget.Some?) ==>
        var t := old(windows[id].dropTarget.value);
        (old(t.refCount) == 2 ==> t.deleted) && (old(t.refCount) > 2 && !old(t.deleted) ==> !t.deleted)
      ensures pendingEvents == old(pendingEvents)
    {
      calls := Option.None;
      if id in windows {
        var info := windows[id];
        var hwnd := info.hwnd;
        if info.dropTarget.Some? {
          // RevokeDragDrop: OLE releases the reference RegisterDragDrop took.
          var _ := info.dropTarget.value.Release();
          var _ := info.dropTarget.value.Release();
        }
        calls := Some(DestroyCalls(hwnd, info.dropTarget.Some?));
        Unfile(id);
      }
    }

    /** The two erase calls that drop a record and its handle. */
    method Unfile(id: uint64)
      requires Valid() && id in windows
      modifies this
      ensures Valid()
      ensures Registered() == Unregister(old(Registered()), id)
      ensures pendingEvents == old(pendingEvents)
    {
      UnregisterKeepsConsistent(Registered(), id);
      hwndToWindowId := hwndToWindowId - {windows[id].hwnd};
      windows := windows - {id};
    }

    /** GetClientSize: the client rectangle's size cast to uint32, or {0, 0} for an unknown id or a failed GetClientRect. */
    function GetClientSize(id: uint64, rect: Option<Rect>): (e: Extent2D)
      reads this
      ensures id !in windows || rect.None? ==> e == Extent2D(0, 0)
      ensures id in windows && rect.Some? ==> e == ClientExtent(rect)
    {
      if id in windows then ClientExtent(rect) else Extent2D(0, 0)
    }

    /** GetClientPosition: the client rectangle's top-left corner, or {0, 0}. */
    function GetClientPosition(id: uint64, rect: Option<Rect>): (p: Point2D)
      reads this
      ensures id !in windows || rect.None? ==> p == Point2D(0, 0)
      ensures id in windows && rect.Some? ==> p == Point2D(rect.value.left, rect.value.top)
    {
      if id in windows && rect.Some? then Point2D(rect.value.left, rect.value.top) else Point2D(0, 0)
    }

    /** GetCursorPosition: the cursor in client coordinates, or {0, 0} for an unknown id or a failed GetCursorPos. */
    function GetCursorPosition(id: uint64, cursor: Option<Vector2>): (v: Vector2)
      reads this
      ensures id !in windows || cursor.None? ==> v == Vector2(0, 0)
      ensures id in windows && cursor.Some? ==> v == cursor.value
    {
      if id in windows && cursor.Some? then cursor.value else Vector2(0, 0)
    }

    function GetDefaultDpi(): (dpi: int)
      ensures dpi == USER_DEFAULT_SCREEN_DPI
    {
      USER_DEFAULT_SCREEN_DPI
    }

    /** GetDpi: the window's own DPI, or the default DPI for an unknown id. */
    function GetDpi(id: uint64, windowDpi: nat): (dpi: int)
      reads this
      ensures id in windows ==> dpi == windowDpi
      ensures id !in windows ==> dpi == 96
    {
      if id in windows then windowDpi else GetDefaultDpi()
    }

    /** The ShowWindow call a command makes: none for an unknown id. */
    function ShowWindowCall(id: uint64, command: int): (c: Option<ShowCall>)
      reads this
      ensures c.Some? <==> id in windows
      ensures c.Some? ==> c.value.hwnd == windows[id].hwnd && c.value.command == command
    {
      if id in windows then Some(ShowCall(windows[id].hwnd, command)) else Option.None
    }

    function Show(id: uint64): (c: Option<ShowCall>)
      reads this
      ensures c.Some? <==> id in windows
      ensures c.Some? ==> c.value == ShowCall(windows[id].hwnd, SW_SHOW)
    {
      ShowWindowCall(id, SW_SHOW)
    }

    function Hide(id: uint64): (c: Option<ShowCall>)
      reads this
      ensures c.Some? <==> id in windows
      ensures c.Some? ==> c.value == ShowCall(windows[id].hwnd, SW_HIDE)
    {
      ShowWindowCall(id, SW_HIDE)
    }

    function Minimize(id: uint64): (c: Option<ShowCall>)
      reads this
      ensures c.Some? <==> id in windows
      ensures c.Some? ==> c.value == ShowCall(windows[id].hwnd, SW_MINIMIZE)
    {
      ShowWindowCall(id, SW_MINIMIZE)
    }

    function Maximize(id: uint64): (c: Option<ShowCall>)
      reads this
      ensures c.Some? <==> id in windows
      ensures c.Some? ==> c.value == ShowCall(windows[id].hwnd, SW_MAXIMIZE)
    {
      ShowWindowCall(id, SW_MAXIMIZE)
    }

    /** CreateSurface: the handle a Vulkan surface is created for, or none (a null surface) for an unknown id. */
    function CreateSurface(id: uint64): (surfaceFor: Option<nat>)
      reads this
      ensures surfaceFor.Some? <==> id in windows
      ensures surfaceFor.Some? ==> surfaceFor.value == windows[id].hwnd
    {
      if id in windows then Some(windows[id].hwnd) else Option.None
    }

    /** GetRequiredExtensions: appends the Win32 surface extension, then the surface extension. */
    static function GetRequiredExtensions(extensions: seq<string>): (r: seq<string>)
      ensures |r| == |extensions| + 2 && r[..|extensions|] == extensions
      ensures r[|extensions|] == "VK_KHR_win32_surface" && r[|extensions| + 1] == "VK_KHR_surface"
    {
      extensions + ["VK_KHR_win32_surface", "VK_KHR_surface"]
    }

    /** SetHitTestCallback: installs the callback on a known window; an unknown id changes nothing. */
    method SetHitTestCallback(id: uint64, callback: Vector2 -> HitTestResult)
      requires Valid()
      modifies this
      ensures Valid()
      ensures id in old(windows) ==> windows == old(windows)[id := old(windows[id]).(hitTestFunction := Some(callback))]
      ensures id !in old(windows) ==> windows == old(windows)
      ensures hwndToWindowId == old(hwndToWindowId) && pendingEvents == old(pendingEvents)
    {
      if id in windows {
        windows := windows[id := windows[id].(hitTestFunction := Some(callback))];
      }
    }

    /** ClearHitTestCallback: removes the callback of a known window. */
    method ClearHitTestCallback(id: uint64)
      requires Valid()
      modifies this
      ensures Valid()
      ensures id in old(windows) ==> windows == old(windows)[id := old(windows[id]).(hitTestFunction := Option.None)]
      ensures id !in old(windows) ==> windows == old(windows)
      ensures hwndToWindowId == old(hwndToWindowId) && pendingEvents == old(pendingEvents)
    {
      if id in windows {
        windows := windows[id := windows[id].(hitTestFunction := Option.None)];
      }
    }

    /** SetDropCallbacks: installs the drop callbacks of a known window. */
    method SetDropCallbacks(id: uint64, callbacks: DropCallbacks)
      requires Valid()
      modifies this
      ensures Valid()
      ensures id in old(windows) ==> windows == old(windows)[id := old(windows[id]).(dropCallbacks := Some(callbacks))]
      ensures id !in old(windows) ==> windows == old(windows)
      ensures hwndToWindowId == old(hwndToWindowId) && pendingEvents == old(pendingEvents)
    {
      if id in windows {
        windows := windows[id := windows[id].(dropCallbacks := Some(callbacks))];
      }
    }

    /** ClearDropCallbacks: removes the drop callbacks of a known window. */
    method ClearDropCallbacks(id: uint64)
      requires Valid()
      modifies this
      ensures Valid()
      ensures id in old(windows) ==> windows == old(windows)[id := old(windows[id]).(dropCallbacks := Option.None)]
      ensures id !in old(windows) ==> windows == old(windows)
      ensures hwndToWindowId == old(hwndToWindowId) && pendingEvents == old(pendingEvents)
    {
      if id in windows {
        windows := windows[id := windows[id].(dropCallbacks := Option.None)];
      }
    }
  }

  /**
   * Queries and commands against an unknown id fail soft: zero-valued
   * results, the default DPI, a null surface and no native call.
   */
  lemma UnknownIdFailsSoft(m: WindowsWindowManager, id: uint64, rect: Option<Rect>, cursor: Option<Vector2>, windowDpi: nat)
    requires id !in m.windows
    ensures m.GetWindowInfo(id).None?
    ensures m.GetClientSize(id, rect) == Extent2D(0, 0) && m.GetClientPosition(id, rect) == Point2D(0, 0)
    ensures m.GetCursorPosition(id, cursor) == Vector2(0, 0)
    ensures m.GetDpi(id, windowDpi) == m.GetDefaultDpi()
    ensures m.Show(id).None? && m.Hide(id).None? && m.Minimize(id).None? && m.Maximize(id).None?
    ensures m.CreateSurface(id).None?
  {
  }

  /** The four show commands are distinct, and each is sent to the window's own handle. */
  lemma ShowCommandsDistinct(m: WindowsWindowManager, id: uint64)
    requires id in m.windows
    ensures m.Show(id).value.hwnd == m.Hide(id).value.hwnd == m.Minimize(id).value.hwnd == m.Maximize(id).value.hwnd == m.windows[id].hwnd
    ensures |{m.Show(id).value.command, m.Hide(id).value.command, m.Minimize(id).value.command, m.Maximize(id).value.command}| == 4
  {
  }
}
