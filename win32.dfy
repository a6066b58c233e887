/**
 * Numeric values of the Win32 message, key, hit-test, style and clipboard
 * constants the window manager branches on, as the Windows SDK headers
 * (winuser.h, oleidl.h) define them.
 */
module Win32 {

  // Window messages.
  const WM_SIZE: int := 0x0005
  const WM_CLOSE: int := 0x0010
  const WM_NCHITTEST: int := 0x0084
  const WM_KEYDOWN: int := 0x0100
  const WM_KEYUP: int := 0x0101
  const WM_CHAR: int := 0x0102
  const WM_MOUSEMOVE: int := 0x0200
  const WM_LBUTTONDOWN: int := 0x0201
  const WM_LBUTTONUP: int := 0x0202
  const WM_RBUTTONDOWN: int := 0x0204
  const WM_RBUTTONUP: int := 0x0205
  const WM_MBUTTONDOWN: int := 0x0207
  const WM_MBUTTONUP: int := 0x0208
  const WM_XBUTTONDOWN: int := 0x020B
  const WM_XBUTTONUP: int := 0x020C
  const WM_MOUSEHOVER: int := 0x02A1
  const WM_MOUSELEAVE: int := 0x02A3

  const XBUTTON1: int := 0x0001
  const XBUTTON2: int := 0x0002

  // Key-state flags.
  const KF_REPEAT: bv64 := 0x4000
  const KF_UP: bv16 := 0x8000

  // Hit-test codes.
  const HTCLIENT: int := 1
  const HTCAPTION: int := 2
  const HTMINBUTTON: int := 8
  const HTMAXBUTTON: int := 9
  const HTLEFT: int := 10
  const HTRIGHT: int := 11
  const HTTOP: int := 12
  const HTBOTTOM: int := 15
  const HTCLOSE: int := 20

  // The handle CreateWindowEx returns when it fails.
  const NULL_HWND: nat := 0

  // Window styles.
  const WS_OVERLAPPED: bv32 := 0x0000_0000
  const WS_POPUP: bv32 := 0x8000_0000
  const WS_CAPTION: bv32 := 0x00C0_0000
  const WS_SYSMENU: bv32 := 0x0008_0000
  const WS_SIZEBOX: bv32 := 0x0004_0000
  const WS_MINIMIZEBOX: bv32 := 0x0002_0000
  const WS_MAXIMIZEBOX: bv32 := 0x0001_0000

  // ShowWindow commands.
  const SW_HIDE: int := 0
  const SW_MAXIMIZE: int := 3
  const SW_SHOW: int := 5
  const SW_MINIMIZE: int := 6

  // Clipboard formats.
  const CF_TEXT: int := 1
  const CF_UNICODETEXT: int := 13
  const CF_HDROP: int := 15

  // Drop effects.
  const DROPEFFECT_NONE: int := 0
  const DROPEFFECT_COPY: int := 1

  // Result codes.
  const S_OK: int := 0
  const E_NOINTERFACE: int := 0x8000_4002
  const E_POINTER: int := 0x8000_4003

  const USER_DEFAULT_SCREEN_DPI: int := 96

  // Virtual-key codes.
  const VK_BACK: int := 0x08
  const VK_TAB: int := 0x09
  const VK_RETURN: int := 0x0D
  const VK_SHIFT: int := 0x10
  const VK_CONTROL: int := 0x11
  const VK_MENU: int := 0x12
  const VK_PAUSE: int := 0x13
  const VK_CAPITAL: int := 0x14
  const VK_ESCAPE: int := 0x1B
  const VK_SPACE: int := 0x20
  const VK_PRIOR: int := 0x21
  const VK_NEXT: int := 0x22
  const VK_END: int := 0x23
  const VK_HOME: int := 0x24
  const VK_LEFT: int := 0x25
  const VK_UP: int := 0x26
  const VK_RIGHT: int := 0x27
  const VK_DOWN: int := 0x28
  const VK_SNAPSHOT: int := 0x2C
  const VK_INSERT: int := 0x2D
  const VK_DELETE: int := 0x2E
  const VK_LWIN: int := 0x5B
  const VK_RWIN: int := 0x5C
  const VK_APPS: int := 0x5D
  const VK_F1: int := 0x70
  const VK_F24: int := 0x87
  const VK_NUMLOCK: int := 0x90
  const VK_SCROLL: int := 0x91
  const VK_OEM_1: int := 0xBA
  const VK_OEM_PLUS: int := 0xBB
  const VK_OEM_COMMA: int := 0xBC
  const VK_OEM_MINUS: int := 0xBD
  const VK_OEM_PERIOD: int := 0xBE
  const VK_OEM_2: int := 0xBF
  const VK_OEM_3: int := 0xC0
  const VK_OEM_4: int := 0xDB
  const VK_OEM_5: int := 0xDC
  const VK_OEM_6: int := 0xDD
  const VK_OEM_7: int := 0xDE
}
