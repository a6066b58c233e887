# rwin: the Windows window manager, modelled in Dafny

rwin is a small C++ windowing library. An application creates native windows
through a window manager and gets back 64-bit window ids. It drains a FIFO of
normalised window events once per tick. It installs per-window callbacks for
custom hit-testing (frameless windows) and for OLE drag-and-drop.

This project models the core of the library:

- **Value types** (`types.dfy`, from `include/rwin/types.h`): geometry, the
  input vocabularies, the window flags and the tagged union of window events.
- **`Flags<T>` bitmask** (`bitmask.dfy`, from `include/rwin/flags.h`): a class
  whose operators update a 32-bit mask in place.
- **`IdFactory`** (`ids.dfy`, from `lib/rwin/IdFactory.cpp`): a class with a
  64-bit counter and a LIFO free list. Its steps are also written as pure
  functions, so that sequences of calls can be reasoned about.
- **Window manager** (`lib/rwin/windows/WindowsWindowManager.cpp` and its
  header), in four files:
  - `keymap.dfy`: the virtual-key table `MapVirtualKeyToInputKey`.
  - `translation.dfy`: the event translation of the window procedure, as the
    pure function `Translate`.
  - `dropdata.dfy`: the drag-and-drop `DropContext` class and the line
    splitting of dropped text.
  - `windowmanager.dfy`: the `WindowDropTarget` and `WindowsWindowManager`
    classes. These hold the two registry maps, the pending-event queue, the
    per-id queries and commands, and the setters.
- **Win32 constants** (`win32.dfy`) and an `Option` type (`wrappers.dfy`).

Native calls are replaced in one of two ways. A result the code reads is
passed in as a parameter: `NativeInputs` for the window procedure, an
`Option<Rect>` for `GetClientRect`, a `DataObject` value for the OLE data
object, and the new handle for `CreateWindowEx`. A call the code makes for its
effect on the OS is returned as a value naming it, with its arguments
(`CreateCalls`, `DestroyCalls`, `ShowCall`, a `Notice` for the void drop
callbacks).

`WindowProc` is a method on the manager. It is proved against `Translate`: the
new queue, the record's tracking flag and the procedure's result are exactly
what `Translate` gives. The properties of the procedure are then lemmas about
`Translate`:

- resize coalescing;
- no two adjacent Resize events;
- mouse-tracking transitions;
- key and button states;
- hit-test dispatch.

The manager keeps a `Valid()` invariant through every state change. The two
maps agree with each other, every id is below the factory's counter, and every
drop target belongs to its own window. This holds only while `CreateWindowEx`
returns a handle that is not already registered, which `Create` assumes. A
first null handle is accepted and filed, as in the code. The code does not
check for failure. After two failed creations, both records carry the null
handle, the handle map sends it to the first id, and destroying the second
window erases the first window's handle entry
(`WindowManager.FailedCreationsCollide`).

The model follows the code, including these behaviours:

- An unmapped virtual key maps to `InputKey::A`. `InputKey::Unknown` exists
  (`include/rwin/types.h:122`) but is never produced (`Keymap.FallbackIsA`).
- `WindowFlags::Focused` and `WindowFlags::DragAndDrop` are both `1 << 5`. A
  drag-and-drop window therefore also gets `SetFocus`, and a focused one gets a
  drop target (`Types.WindowFlagBits`, `WindowManager.CreateCallsFor`).
- `WM_SIZE` overwrites a Resize at the back of the queue even when that event
  belongs to another window (`Translation.ResizeCoalesces`).
- The drop target keeps the context of the last accepted `DragEnter`:
  - A rejected `DragEnter` leaves the earlier context in place, so `DragOver`,
    `DragLeave` and `Drop` may still fire with it.
  - `Drop` ignores the data object it is given and passes the kept context.
- `Destroy` never gives the id back to the factory, so ids are never reused by
  the manager. `IdFactory` itself does support reuse, and its LIFO properties
  are proved in `Ids`.

## Model

| member | source | states |
|---|---|---|
| Types.ExtentEquals | include/rwin/types.h:43-45 | Extent equality holds exactly when width and height agree. |
| Types.ModifierBitsDistinct | include/rwin/types.h:110-118 | Each modifier is a single bit within 0x3F. Distinct modifiers have disjoint bits. |
| Types.WindowFlagBits | include/rwin/types.h:237-247 | Every flag except None is one bit. Focused and DragAndDrop share bit 5. Any other two distinct flags are disjoint. |
| Types.HeaderIdentifiesVariant | include/rwin/types.h:249-348 | The header type equals another's exactly when both events are the same union member. Resize means a ResizeEvent. No drag-and-drop event type is ever carried. |
| Bitmask.Flags.Empty | include/rwin/flags.h:13-16 | A default mask is 0. |
| Bitmask.Flags.FromValue | include/rwin/flags.h:18-34 | Constructing from a value stores it, and the conversion gives it back. |
| Bitmask.Flags.Underlying | include/rwin/flags.h:26-34 | The conversion gives the stored mask, which the mask has exactly when it is not empty. |
| Bitmask.Flags.Has | include/rwin/flags.h:48-51 | Has(v) implies that neither v nor the mask is empty. Every non-empty v whose bits all lie in the mask is had. |
| Bitmask.Overlaps | include/rwin/flags.h:48-51 | The overlap test behind Has: an overlap needs both sides non-empty, and containment of a non-empty value implies overlap. |
| Bitmask.Flags.And | include/rwin/flags.h:36-40 | Member `&` mutates the receiver to `value & v` and returns it. |
| Bitmask.Flags.Or | include/rwin/flags.h:42-46 | Member `\|` mutates the receiver to `value \| v` and returns it. |
| Bitmask.Flags.Add | include/rwin/flags.h:53-57 | Add sets the bits of v and returns the receiver. |
| Bitmask.Flags.Remove | include/rwin/flags.h:59-63 | Remove clears the bits of v, after which Has(v) is false, and returns the receiver. |
| Bitmask.Flags.OrAssign | include/rwin/flags.h:65-69 | `\|=` sets the bits of v and returns the receiver. |
| Bitmask.Flags.AndAssign | include/rwin/flags.h:71-75 | `&=` keeps only the bits of v and returns the receiver. |
| Bitmask.Intersection | include/rwin/flags.h:79-84 | Free `&` gives a new mask `lhs & rhs`. |
| Bitmask.Union | include/rwin/flags.h:86-91 | Free `\|` gives a new mask `lhs \| rhs`. |
| Bitmask.OverlapNotContainment | include/rwin/flags.h:48-51 | Has tests overlap, not containment: Has(0) is false, and a partial overlap is enough. |
| Bitmask.AddIdempotent | include/rwin/flags.h:53-57 | Adding twice equals adding once. Add sets every bit of v and changes no bit outside v. |
| Bitmask.RemoveIdempotent | include/rwin/flags.h:59-63 | Removing twice equals removing once. Remove clears v and keeps every other bit. |
| Ids.IdFactory.constructor | include/rwin/IdFactory.h:10-11 | A new factory has counter 0 and an empty free list. |
| Ids.IdFactory.New | lib/rwin/IdFactory.cpp:4-16 | The returned id and the new fields are those of one step of the specification NewStep. |
| Ids.IdFactory.Free | lib/rwin/IdFactory.cpp:18-21 | Free appends the id to the free list, unchecked. |
| Ids.NewStep | lib/rwin/IdFactory.cpp:4-16 | With an empty free list, New issues the counter value and increments it (with 64-bit wrap). Otherwise it undoes the last Free. The free list never grows. |
| Ids.FreeStep | lib/rwin/IdFactory.cpp:18-21 | Free pushes the id onto the back of the free list, unchecked, and leaves the counter alone. |
| Ids.NewFromCounter | lib/rwin/IdFactory.cpp:6-9 | With an empty free list, New returns the counter and increments it. |
| Ids.NewPopsFreeList | lib/rwin/IdFactory.cpp:11-21 | New right after Free(id) returns id and restores the previous state exactly. |
| Ids.CountsUpFrom | lib/rwin/IdFactory.cpp:6-9 | With an empty free list, n calls return start, start+1, …, start+n-1. |
| Ids.FreshFactoryCountsUp | lib/rwin/IdFactory.cpp:4-9 | A fresh factory hands out 0, 1, 2, … in order. |
| Ids.FreeAllAppends | lib/rwin/IdFactory.cpp:18-21 | Freeing a list appends it, in order, to the free list. |
| Ids.NewManyPops | lib/rwin/IdFactory.cpp:11-15 | The next calls pop the appended ids from the back. |
| Ids.FreedReissuedFirst | lib/rwin/IdFactory.cpp:4-21 | After freeing xs, the next calls return xs reversed (LIFO), before any counter value. They restore the prior state, counter included. |
| Ids.DoubleFreeReissuesTwice | lib/rwin/IdFactory.cpp:18-21 | Free is not checked: freeing an id twice makes New return it twice. |
| Ids.NewKeepsDiscipline | lib/rwin/IdFactory.cpp:4-16 | Under the caller obligation, New never returns a live id, and the obligation still holds afterwards. Only a New that reads the counter (empty free list) needs it below 2^64 - 1. |
| Ids.FreeKeepsDiscipline | lib/rwin/IdFactory.cpp:18-21 | Freeing a live id once keeps the caller obligation. |
| Ids.NeverReissuesLive | lib/rwin/IdFactory.cpp:4-21 | While the counter is not exhausted (every New made with an empty free list runs with the counter below 2^64 - 1; a New that pops the free list has no such condition), no call sequence that frees only live ids ever returns an id that is still live. |
| Ids.FreshFactoryDisciplined | include/rwin/IdFactory.h:10-11 | A fresh factory satisfies the caller obligation. |
| Keymap.MapVirtualKeyToInputKey | lib/rwin/windows/WindowsWindowManager.cpp:248-375 | The table is total and never yields Unknown or F25. |
| Keymap.ScanCode | lib/rwin/windows/WindowsWindowManager.cpp:364 | The scan code read from lParam bits 16..23 is a byte. |
| Keymap.IsExtended | lib/rwin/windows/WindowsWindowManager.cpp:251 | The extended-key flag is exactly bit 24 of lParam. |
| Keymap.FallbackIsA | lib/rwin/windows/WindowsWindowManager.cpp:373 | Every unlisted code maps to A. A is produced exactly by 'A' and by unlisted codes. |
| Keymap.ShiftSide | lib/rwin/windows/WindowsWindowManager.cpp:361-366 | VK_SHIFT gives RightShift exactly when the scan code is 0x36, otherwise LeftShift. |
| Keymap.ExtendedSides | lib/rwin/windows/WindowsWindowManager.cpp:367-368 | VK_CONTROL and VK_MENU give the right key exactly when lParam bit 24 is set. |
| Keymap.FirstLettersCode | lib/rwin/windows/WindowsWindowManager.cpp:256-268 | For the letter keys A–M, a listed code that maps back to the key. |
| Keymap.LastLettersCode | lib/rwin/windows/WindowsWindowManager.cpp:269-281 | As above, for N–Z. |
| Keymap.DigitsCode | lib/rwin/windows/WindowsWindowManager.cpp:283-293 | As above, for the digit keys. |
| Keymap.LowFunctionKeysCode | lib/rwin/windows/WindowsWindowManager.cpp:295-319 | As above, for F1–F6. |
| Keymap.MidFunctionKeysCode | lib/rwin/windows/WindowsWindowManager.cpp:295-319 | As above, for F7–F12. |
| Keymap.HighFunctionKeysCode | lib/rwin/windows/WindowsWindowManager.cpp:295-319 | As above, for F13–F18. |
| Keymap.TopFunctionKeysCode | lib/rwin/windows/WindowsWindowManager.cpp:295-319 | As above, for F19–F24. |
| Keymap.PunctuationCode | lib/rwin/windows/WindowsWindowManager.cpp:322-327 | As above, for space and punctuation. |
| Keymap.SymbolsCode | lib/rwin/windows/WindowsWindowManager.cpp:328-333 | As above, for the OEM symbol keys. |
| Keymap.EditingKeysCode | lib/rwin/windows/WindowsWindowManager.cpp:336-341 | As above, for Escape, Enter, Tab, Backspace, Insert and Delete. |
| Keymap.NavigationKeysCode | lib/rwin/windows/WindowsWindowManager.cpp:342-345 | As above, for Home, End, PageUp and PageDown. |
| Keymap.ArrowKeysCode | lib/rwin/windows/WindowsWindowManager.cpp:348-351 | As above, for the arrows. |
| Keymap.LockKeysCode | lib/rwin/windows/WindowsWindowManager.cpp:354-356 | As above, for the lock keys. |
| Keymap.SystemKeysCode | lib/rwin/windows/WindowsWindowManager.cpp:357-358 | As above, for PrintScreen and Pause. |
| Keymap.LeftModifierKeysCode | lib/rwin/windows/WindowsWindowManager.cpp:361-368 | As above, for left Shift, Control and Alt. |
| Keymap.SuperKeysCode | lib/rwin/windows/WindowsWindowManager.cpp:369-371 | As above, for LeftSuper and Menu. |
| Keymap.RightShiftControlCode | lib/rwin/windows/WindowsWindowManager.cpp:361-367 | As above, for RightShift (scan code 0x36) and RightControl (extended). |
| Keymap.RightAltSuperCode | lib/rwin/windows/WindowsWindowManager.cpp:368-370 | As above, for RightAlt (extended) and RightSuper. |
| Keymap.KeyCode | lib/rwin/windows/WindowsWindowManager.cpp:253-375 | The inverse table: for every key except Unknown and F25, a listed code that maps back to it, so the table is onto those keys. |
| Translation.ClientExtent | lib/rwin/windows/WindowsWindowManager.cpp:781-799 | A failed GetClientRect gives {0, 0}. Otherwise each dimension is the rectangle's width or height reduced modulo 2^32: congruent to it modulo 2^32, and equal to it when it lies in [0, 2^32). |
| Translation.PointFromLParam | lib/rwin/windows/WindowsWindowManager.cpp:474-475 | The point is the low and high words of lParam, each read as a signed 16-bit value. |
| Translation.ModifierMask | lib/rwin/windows/WindowsWindowManager.cpp:582-589 | The mask uses only the six modifier bits. Each bit is set exactly when its key is down (Shift, Control, Alt, either Win key) or toggled (Caps Lock, Num Lock). |
| Translation.ModifierMaskUnique | include/rwin/types.h:110-118 | Two masks within the modifier bits are equal exactly when they decode alike. |
| Translation.ButtonOf | lib/rwin/windows/WindowsWindowManager.cpp:501-532 | For a button message: One exactly for left, Two for right, Three for middle, and Four to Six exactly for the X buttons. Among those, Four means XBUTTON1 and Five means XBUTTON2. |
| Translation.IsRepeat | lib/rwin/windows/WindowsWindowManager.cpp:575-577 | KF_REPEAT in the high word of lParam is exactly lParam bit 30. |
| Translation.KeyStateOf | lib/rwin/windows/WindowsWindowManager.cpp:578-580 | Released exactly on key-up. Repeat exactly on key-down with lParam bit 30 set. Otherwise Pressed. |
| Translation.PushResize | lib/rwin/windows/WindowsWindowManager.cpp:614-622 | The new Resize ends the queue, and everything before it is kept. The queue stays the same length exactly when a Resize was last, which is then overwritten. |
| Translation.TranslatePointer | lib/rwin/windows/WindowsWindowManager.cpp:386-484 | Hit-test and mouse messages append at most two events and change nothing already queued. Only a first WM_MOUSEMOVE whose tracking request fails defers to DefWindowProc, and then nothing is queued. |
| Translation.TranslateInput | lib/rwin/windows/WindowsWindowManager.cpp:485-605 | Button, character and key messages append exactly one event for this window, answer 0 and leave tracking alone. |
| Translation.TranslateWindowMessage | lib/rwin/windows/WindowsWindowManager.cpp:606-638 | Only WM_CLOSE is answered (with 0); WM_SIZE and every other message go on to DefWindowProc. Tracking is untouched, and every message but WM_SIZE keeps the queue as a prefix. |
| Translation.Translate | lib/rwin/windows/WindowsWindowManager.cpp:377-639 | The whole window procedure for a known window: only WM_MOUSELEAVE and WM_MOUSEMOVE can change the tracking flag, and at most two events are added. |
| Translation.HitDispatch | lib/rwin/windows/WindowsWindowManager.cpp:386-429 | The default classification stands unless it is HTCLIENT and a callback is set. In that case the callback's answer is mapped to its native code. |
| Translation.HitCode | lib/rwin/windows/WindowsWindowManager.cpp:397-426 | Only None keeps HTCLIENT. Every answer maps to one of the nine native region codes. |
| Translation.HitCodeInjective | lib/rwin/windows/WindowsWindowManager.cpp:396-424 | Distinct answers map to distinct native codes. |
| Translation.TranslateQueueShape | lib/rwin/windows/WindowsWindowManager.cpp:377-639 | One message appends at most two events, of the produced kinds and all for this window. Only WM_SIZE may replace the last event, and everything earlier is kept. |
| Translation.ResizeCoalesces | lib/rwin/windows/WindowsWindowManager.cpp:606-624 | WM_SIZE overwrites a trailing Resize of any window, else appends. It then defers to DefWindowProc. |
| Translation.OnlySizeResizes | lib/rwin/windows/WindowsWindowManager.cpp:377-639 | Any other message keeps the queue and appends no Resize. |
| Translation.NoAdjacentResizeKept | lib/rwin/windows/WindowsWindowManager.cpp:606-624 | If the queue has no two adjacent Resize events, it still has none after any message. |
| Translation.ResizesCollapse | lib/rwin/windows/WindowsWindowManager.cpp:606-624 | Three WM_SIZE messages in a row leave one Resize, carrying the last size. |
| Translation.MouseTracking | lib/rwin/windows/WindowsWindowManager.cpp:434-484 | The first move with tracking off queues CursorFocus(1) then CursorMove and sets the flag. If the request fails, nothing is queued and DefWindowProc runs. While tracking, a move queues CursorMove only. Leave clears the flag and queues CursorFocus(0). |
| Translation.KeyEvents | lib/rwin/windows/WindowsWindowManager.cpp:565-605 | One KeyEvent per message, carrying the mapped key and the live modifiers. Key-up gives Released. Key-down gives Repeat exactly when lParam bit 30 is set, else Pressed. |
| Translation.ButtonEvents | lib/rwin/windows/WindowsWindowManager.cpp:485-553 | One CursorButton event per message. Left, right and middle give One, Two and Three. XBUTTON1 gives Four, XBUTTON2 gives Five, any other X button gives Six. Down messages give Pressed, up messages Released. |
| Translation.HitTestNotQueued | lib/rwin/windows/WindowsWindowManager.cpp:386-429 | WM_NCHITTEST queues nothing and answers with the dispatched code. |
| Translation.TextEvents | lib/rwin/windows/WindowsWindowManager.cpp:554-564 | WM_CHAR queues one Text event with the UTF-16 code unit and answers 0. |
| Translation.CloseEvents | lib/rwin/windows/WindowsWindowManager.cpp:625-634 | WM_CLOSE queues one Close event and answers 0 without destroying the window. |
| Translation.DemoDragArea | test/main.cpp:230-257 | With the demo program's callback, the point (50, 5) resolves to HTCAPTION (drag area). |
| Translation.WindowStyle | lib/rwin/windows/WindowsWindowManager.cpp:705-719 | The style always has WS_SYSMENU, and WS_SIZEBOX exactly when Resizable is set. A frameless window is WS_POPUP. Any other window has a caption and minimize/maximize boxes. |
| Translation.CenterOffset | lib/rwin/windows/WindowsWindowManager.cpp:721-724 | The unsigned centring offset always fits in a non-negative int. |
| Translation.CenterOffsetWraps | lib/rwin/windows/WindowsWindowManager.cpp:721-724 | A window that fits the screen is centred. One wider than the screen is never at a negative offset. Up to 2^31 past the screen width, the offset is at least 2^30, which is past the right edge of any screen up to 2^30 wide. Beyond that, it is half of screen - extent + 2^32. |
| DropData.ScanFormats | lib/rwin/windows/WindowsWindowManager.cpp:121-139 | The file probe holds exactly when CF_HDROP is enumerated. The text probe holds exactly when CF_UNICODETEXT or CF_TEXT is. |
| DropData.Present | lib/rwin/windows/WindowsWindowManager.cpp:43-51 | A path is kept exactly when DragQueryFileW copied it for some index. No more paths than indices. |
| DropData.Probes | lib/rwin/windows/WindowsWindowManager.cpp:121-139 | The file probe holds exactly when CF_HDROP is enumerated, and the text probe exactly when CF_UNICODETEXT or CF_TEXT is. A failed enumeration leaves both false. |
| DropData.Split | lib/rwin/windows/WindowsWindowManager.cpp:104-114 | There is always at least one segment. Its round trip with Join is SplitJoin. |
| DropData.Lines | lib/rwin/windows/WindowsWindowManager.cpp:105-108 | getline reads the segments in order. Only a last, empty segment (after a final newline, or of empty text) is not read. |
| DropData.NonEmpty | lib/rwin/windows/WindowsWindowManager.cpp:109-113 | The kept lines are exactly the non-empty ones. |
| DropData.SplitJoin | lib/rwin/windows/WindowsWindowManager.cpp:104-114 | Joining the newline-separated segments with newlines gives the text back. |
| DropData.SplitHasNoNewline | lib/rwin/windows/WindowsWindowManager.cpp:104-114 | No segment contains a newline. |
| DropData.LinesAreSegments | lib/rwin/windows/WindowsWindowManager.cpp:104-114 | The non-empty lines getline reads are the non-empty segments, none holding a newline. |
| DropData.CarriageReturnKept | lib/rwin/windows/WindowsWindowManager.cpp:104-114 | A CRLF line keeps its '\r'. Text after the final newline is read as a line too. |
| DropData.EmptyLinesDropped | lib/rwin/windows/WindowsWindowManager.cpp:107-113 | Two newlines, a line x and a final newline read as two empty lines and x; only x is added. |
| DropData.DropContext.constructor | lib/rwin/windows/WindowsWindowManager.cpp:121-139 | The enumeration loop sets the two probes to ScanFormats of the enumerated formats, or both false when enumeration fails. |
| DropData.DropContext.HasFiles | lib/rwin/windows/WindowsWindowManager.cpp:25-28 | True exactly when CF_HDROP was enumerated. |
| DropData.DropContext.HasText | lib/rwin/windows/WindowsWindowManager.cpp:29-32 | True exactly when CF_UNICODETEXT or CF_TEXT was enumerated. |
| DropData.DropContext.GetFiles | lib/rwin/windows/WindowsWindowManager.cpp:34-61 | Succeeds exactly when GetData and GlobalLock succeed, even with no files. On success it appends the copied paths in index order. On failure the list is unchanged. |
| DropData.DropContext.TextMedium | lib/rwin/windows/WindowsWindowManager.cpp:67-76 | Unicode text when it can be fetched, else ANSI text. No medium only when both fail. |
| DropData.DropContext.GetText | lib/rwin/windows/WindowsWindowManager.cpp:63-120 | Uses Unicode text, else ANSI. If no medium is fetched, or the handle or lock fails, nothing is appended and the result is false. Otherwise the non-empty lines are appended in order, and the result is true exactly when at least one was. |
| WindowManager.RegisterKeepsConsistent | lib/rwin/windows/WindowsWindowManager.cpp:758-759 | Filing a new id under a new handle keeps the two maps in agreement. It adds exactly that id and handle and leaves the other records alone. |
| WindowManager.Register | lib/rwin/windows/WindowsWindowManager.cpp:758-759 | After the two emplaces, the id and the handle are both keys. emplace never overwrites: an id or handle already filed keeps its entry. |
| WindowManager.Unregister | lib/rwin/windows/WindowsWindowManager.cpp:776-777 | The two erases remove exactly the id, and at most one handle. An unknown id changes nothing. |
| WindowManager.ConsistentIsOneToOne | lib/rwin/windows/WindowsWindowManager.cpp:758-777 | In a consistent registry (the invariant Consistent), the ids with a record are exactly the ids some handle maps to, and no two handles map to the same id. |
| WindowManager.FailedCreationsCollide | lib/rwin/windows/WindowsWindowManager.cpp:728-777 | Two creations that both got the null handle leave the second record's handle mapped to the first id, so the maps disagree. Destroying the second then erases the first's handle entry. |
| WindowManager.UnregisterKeepsConsistent | lib/rwin/windows/WindowsWindowManager.cpp:776-777 | Erasing keeps the maps in agreement and removes exactly the id and its handle. |
| WindowManager.ReplaceKeepsConsistent | lib/rwin/windows/WindowsWindowManager.cpp:434-484 | Updating a record in place, same id and handle, keeps the maps in agreement. |
| WindowManager.UnregisterUndoesRegister | lib/rwin/windows/WindowsWindowManager.cpp:758-777 | Destroy right after Create gives back the maps as they were. |
| WindowManager.Drain | lib/rwin/windows/WindowsWindowManager.cpp:682-699 | Takes min(capacity, length) events from the front. Taken events followed by the rest equal the queue. |
| WindowManager.DrainTwice | lib/rwin/windows/WindowsWindowManager.cpp:682-699 | Two drains hand out the same events, in the same order, as one drain of the combined capacity. |
| WindowManager.CreateCallsFor | lib/rwin/windows/WindowsWindowManager.cpp:705-756 | RegisterDragDrop happens exactly when bit 5 is set, and SetFocus with it. ShowWindow gets SW_SHOW exactly when Visible, else SW_HIDE. The position is non-negative. |
| WindowManager.AddRefReleaseInverse | lib/rwin/windows/WindowsWindowManager.cpp:169-181 | AddRef and Release undo each other modulo 2^32. Release reaches 0 exactly from a count of 1. |
| WindowManager.WindowDropTarget.constructor | lib/rwin/windows/WindowsWindowManager.cpp:150-154 | A new target has one reference, the window's id and no context. |
| WindowManager.WindowDropTarget.QueryStatus | lib/rwin/windows/WindowsWindowManager.cpp:156-168 | Gives S_OK exactly for IUnknown and IDropTarget with an out pointer, and E_POINTER without one. Any other interface gives E_NOINTERFACE. |
| WindowManager.WindowDropTarget.QueryInterface | lib/rwin/windows/WindowsWindowManager.cpp:156-168 | Hands out this object and adds a reference exactly on S_OK, otherwise null and no change. |
| WindowManager.WindowDropTarget.AddRef | lib/rwin/windows/WindowsWindowManager.cpp:169-172 | Increments the count modulo 2^32 and returns it. |
| WindowManager.WindowDropTarget.Release | lib/rwin/windows/WindowsWindowManager.cpp:173-181 | Decrements the count modulo 2^32 and returns it. The object is deleted when the count reaches 0. |
| WindowManager.WindowDropTarget.DragEnter | lib/rwin/windows/WindowsWindowManager.cpp:195-209 | A context is built exactly when the window exists. COPY is reported and the context kept exactly when the enter callback accepts it. Otherwise NONE is reported and the old context stays. |
| WindowManager.WindowDropTarget.DragOver | lib/rwin/windows/WindowsWindowManager.cpp:210-219 | Reports COPY exactly when the window exists, a context is kept, callbacks are set and over accepts. Otherwise NONE. |
| WindowManager.WindowDropTarget.DragLeave | lib/rwin/windows/WindowsWindowManager.cpp:220-230 | Calls leave exactly when the window exists, a context is kept and callbacks are set. |
| WindowManager.WindowDropTarget.Drop | lib/rwin/windows/WindowsWindowManager.cpp:231-241 | Calls drop with the point and the kept context, under the same conditions as DragLeave. |
| WindowManager.WindowsWindowManager.constructor | lib/rwin/windows/WindowsWindowManager.h:42-58 | Starts with no windows, no handles, an empty queue and a fresh id factory. |
| WindowManager.WindowsWindowManager.GetWindowInfo | lib/rwin/windows/WindowsWindowManager.cpp:869-876 | Gives the record exactly when the id is known. |
| WindowManager.WindowsWindowManager.GetWindowInfoByHandle | lib/rwin/windows/WindowsWindowManager.cpp:878-886 | Gives the record the handle maps to. With consistent maps, that record carries this handle. |
| WindowManager.WindowsWindowManager.AddWhen | lib/rwin/windows/WindowsWindowManager.cpp:583 | A conditional Add on the Flags object. |
| WindowManager.WindowsWindowManager.SampleModifiers | lib/rwin/windows/WindowsWindowManager.cpp:582-589 | The Flags object built call by call equals ModifierMask, whose ensures give each bit exactly when its key is down or toggled. |
| WindowManager.WindowsWindowManager.WindowProc | lib/rwin/windows/WindowsWindowManager.cpp:377-639 | An unknown handle defers to DefWindowProc and changes nothing. For a known handle, the queue, tracking flag and result are those of Translate. Only that record changes, and the invariant is kept. |
| WindowManager.WindowsWindowManager.SetTracking | lib/rwin/windows/WindowsWindowManager.cpp:434-484 | Writes the tracking flag back into the record and keeps the invariant. |
| WindowManager.WindowsWindowManager.HandlePointer | lib/rwin/windows/WindowsWindowManager.cpp:386-484 | Equals TranslatePointer. |
| WindowManager.WindowsWindowManager.HandleInput | lib/rwin/windows/WindowsWindowManager.cpp:485-605 | Equals TranslateInput. |
| WindowManager.WindowsWindowManager.HandleWindowMessage | lib/rwin/windows/WindowsWindowManager.cpp:606-638 | Equals TranslateWindowMessage. |
| WindowManager.WindowsWindowManager.GetEvents | lib/rwin/windows/WindowsWindowManager.cpp:682-699 | The buffer's prefix and the remaining queue are Drain of the old queue. The rest of the buffer and the registry are untouched. |
| WindowManager.WindowsWindowManager.Create | lib/rwin/windows/WindowsWindowManager.cpp:701-761 | Takes the counter as id and registers a fresh record with no callbacks and tracking off. A new drop target is made exactly when bit 5 is set, holding two references: the manager's and the one RegisterDragDrop takes. Returns the native calls, and the invariant is kept. |
| WindowManager.WindowsWindowManager.File | lib/rwin/windows/WindowsWindowManager.cpp:758-759 | The two emplace calls are Register, and the invariant is kept. |
| WindowManager.WindowsWindowManager.Destroy | lib/rwin/windows/WindowsWindowManager.cpp:764-779 | For a known id: RevokeDragDrop drops OLE's reference and the manager drops its own, so a target with no other holder is deleted, while one OLE still holds mid-drag survives. Then it erases the record and its handle, and reports the calls. An unknown id changes nothing. The id is not freed. |
| WindowManager.WindowsWindowManager.Unfile | lib/rwin/windows/WindowsWindowManager.cpp:776-777 | The two erase calls are Unregister, and the invariant is kept. |
| WindowManager.WindowsWindowManager.GetClientSize | lib/rwin/windows/WindowsWindowManager.cpp:781-799 | {0, 0} for an unknown id or a failed GetClientRect, else the client extent. |
| WindowManager.WindowsWindowManager.GetClientPosition | lib/rwin/windows/WindowsWindowManager.cpp:801-819 | {0, 0} for an unknown id or a failed GetClientRect, else the rectangle's top-left corner. |
| WindowManager.WindowsWindowManager.GetCursorPosition | lib/rwin/windows/WindowsWindowManager.cpp:821-841 | {0, 0} for an unknown id or a failed cursor query, else the client-space cursor. |
| WindowManager.WindowsWindowManager.GetDefaultDpi | lib/rwin/windows/WindowsWindowManager.cpp:936-939 | USER_DEFAULT_SCREEN_DPI (96). |
| WindowManager.WindowsWindowManager.GetDpi | lib/rwin/windows/WindowsWindowManager.cpp:927-934 | The window's DPI, or the default for an unknown id. |
| WindowManager.WindowsWindowManager.ShowWindowCall | lib/rwin/windows/WindowsWindowManager.cpp:843-857 | A ShowWindow call on the record's handle exactly when the id is known. |
| WindowManager.WindowsWindowManager.Show | lib/rwin/windows/WindowsWindowManager.cpp:843-849 | SW_SHOW on the handle, or nothing for an unknown id. |
| WindowManager.WindowsWindowManager.Hide | lib/rwin/windows/WindowsWindowManager.cpp:851-857 | SW_HIDE on the handle, or nothing. |
| WindowManager.WindowsWindowManager.Minimize | lib/rwin/windows/WindowsWindowManager.cpp:911-917 | SW_MINIMIZE on the handle, or nothing. |
| WindowManager.WindowsWindowManager.Maximize | lib/rwin/windows/WindowsWindowManager.cpp:919-925 | SW_MAXIMIZE on the handle, or nothing. |
| WindowManager.WindowsWindowManager.CreateSurface | lib/rwin/windows/WindowsWindowManager.cpp:664-680 | A surface for the record's handle exactly when the id is known, otherwise a null surface. |
| WindowManager.WindowsWindowManager.GetRequiredExtensions | lib/rwin/windows/WindowsWindowManager.cpp:888-892 | Keeps the given list and appends VK_KHR_win32_surface, then VK_KHR_surface. |
| WindowManager.WindowsWindowManager.SetHitTestCallback | lib/rwin/windows/WindowsWindowManager.cpp:894-901 | Installs the callback on a known window only. Nothing else changes, and the invariant is kept. |
| WindowManager.WindowsWindowManager.ClearHitTestCallback | lib/rwin/windows/WindowsWindowManager.cpp:903-909 | Removes the callback of a known window only. |
| WindowManager.WindowsWindowManager.SetDropCallbacks | lib/rwin/windows/WindowsWindowManager.cpp:941-947 | Installs the drop callbacks on a known window only. |
| WindowManager.WindowsWindowManager.ClearDropCallbacks | lib/rwin/windows/WindowsWindowManager.cpp:949-955 | Removes the drop callbacks of a known window only. |
| WindowManager.UnknownIdFailsSoft | lib/rwin/windows/WindowsWindowManager.cpp:781-939 | For an unknown id, every query gives its zero value or the default DPI, every show command is skipped, and the surface is null. |
| WindowManager.ShowCommandsDistinct | lib/rwin/windows/WindowsWindowManager.cpp:843-925 | Show, Hide, Minimize and Maximize send four distinct commands to the same handle. |

## Left out

- PumpEvents (the PeekMessage/DispatchMessage loop): it is OS I/O. Its effect is modelled as a sequence of `WindowProc` calls.
- Native calls are replaced by parameters or returned descriptions:
  - `CreateWindowEx`, `GetClientRect`, `GetCursorPos`/`ScreenToClient`, `GetDpiForWindow`, `GetKeyState`, `TrackMouseEvent`, `DefWindowProc`;
  - the OLE data object, `RegisterDragDrop`/`RevokeDragDrop`, `DestroyWindow`, `ShowWindow`, `SetFocus`;
  - `vkCreateWin32SurfaceKHR`.
- Create: the `DwmSetWindowAttribute` corner preference and the window title are not modelled. They affect no state of the library.
- WindowsWindowManager.Create: assumes `CreateWindowEx` returns a handle that is not already registered, and that the id counter is not exhausted (`next < 2^64 - 1`). The method does not model a failed creation (a null handle). In the code, two failed creations break the agreement of the two maps, and destroying the second erases the first's handle entry. This is shown on the registry by `WindowManager.FailedCreationsCollide`.
- DropData.DropContext: the context keeps a raw, non-owning `IDataObject*` and never calls `AddRef` on it (`lib/rwin/windows/WindowsWindowManager.cpp:121-123, 145`). `_dropContext` is never reset (`:195-241`). So after a rejected `DragEnter` in a later drag session, `DragOver` and `Drop` use the old session's data object, which OLE may already have released. The model keeps the old context as a value, so it answers with the old session's data. Use after release is not modelled.
- DropData.DropContext.GetText: the `_dataObject` null check always passes, because a context is only built from a data object. The UTF-16 to UTF-8 conversion is not modelled: the medium supplies the converted text. The release of the storage medium is not modelled.
- DropData.DropContext.GetFiles: `GlobalUnlock` and `ReleaseStgMedium` are not modelled (no state of the library). The fixed `MAX_PATH` buffer is not modelled: a path is either copied or not.
- WindowManager.WindowDropTarget: `refCount` counts two references: the manager's, which is the constructor's initial 1, and the one `RegisterDragDrop` takes and `RevokeDragDrop` gives back. Any further reference OLE takes, for example during a drag, is left to the caller's own `AddRef`/`Release` calls. `RegisterDragDrop` and `RevokeDragDrop` are assumed to succeed.
- WindowManager.WindowDropTarget.AddRef: `InterlockedIncrement`/`InterlockedDecrement` are modelled as plain wrap-around arithmetic, without atomicity. The model has no concurrency.
- WindowManager.WindowDropTarget.DragEnter: the screen-to-client conversion of the drag point is an input (`clientPoint`). The key state `grfKeyState` is ignored, as in the code.
- Floating-point coordinates (`Vector2` of floats, `GetDpi` as float) are integers here. The values the code produces come from integer sources.
- Translation.CenterOffset: `GetSystemMetrics` screen sizes are parameters.
- The manager's destructor (`OleUninitialize`), its constructor's `OleInitialize`, window-class registration and the global `MANAGER_INSTANCE` are OS set-up and not modelled.
- The platform selection in `lib/rwin/rwin.cpp`, `IWindowManager.cpp` and the macOS manager are not part of this model.
- Events the code never produces (Minimize, Maximize, Scroll, KeyboardFocus, drag-and-drop events) exist only as datatype members.
