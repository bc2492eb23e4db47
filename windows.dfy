/**
 * The window-procedure trampoline `windowImplProc` and the `WindowImpl`
 * objects it binds to windows. The platform's per-window `GWLP_USERDATA`
 * slot is the map `WindowSlots.userData` (a window absent from it holds
 * NULL). The handlers' virtual `handleMessage` and the platform's
 * `DefWindowProc` are opaque functions given as parameters.
 */
module Windows {

  /** A window handle; 0 is NULL. */
  type Hwnd = int

  const WM_NCCREATE: int := 0x0081

  /** The per-window handler object; `wnd` is its window, set on `WM_NCCREATE`. */
  class WindowImpl {
    var wnd: Hwnd

    constructor ()
    {
    }
  }

  /** The platform's `GWLP_USERDATA` storage, keyed by window. */
  class WindowSlots {
    var userData: map<Hwnd, WindowImpl>

    constructor ()
      ensures userData == map[]
    {
      userData := map[];
    }
  }

  /** `handleMessage(msg, wParam, lParam)` of the given handler. */
  type HandleMessage = (WindowImpl, int, int, int) -> int
  /** `DefWindowProc(wnd, msg, wParam, lParam)`. */
  type DefWindowProc = (Hwnd, int, int, int) -> int

  /** Every bound handler records the window it is bound to. */
  ghost predicate Bound(slots: WindowSlots)
    reads slots, slots.userData.Values
  {
    forall w | w in slots.userData :: slots.userData[w].wnd == w
  }

  /** `self` is bound to no window other than `wnd`. */
  ghost predicate BoundOnlyTo(slots: WindowSlots, self: WindowImpl?, wnd: Hwnd)
    reads slots
  {
    forall w | w in slots.userData && w != wnd :: slots.userData[w] != self
  }

  /**
   * `windowImplProc`. `create` is `((CREATESTRUCT *)lParam)->lpCreateParams`,
   * read only for `WM_NCCREATE`; winchroma.h dereferences it unchecked, so it
   * must not be NULL for that message.
   */
  method WindowImplProc(slots: WindowSlots, wnd: Hwnd, msg: int, wParam: int, lParam: int,
                        create: WindowImpl?, handleMessage: HandleMessage, defWindowProc: DefWindowProc)
    returns (result: int)
    requires msg == WM_NCCREATE ==> create != null
    modifies slots, if msg == WM_NCCREATE then {create} else {}
    ensures msg == WM_NCCREATE ==>
      && create.wnd == wnd
      && slots.userData == old(slots.userData)[wnd := create]
      && result == handleMessage(create, msg, wParam, lParam)
    ensures msg != WM_NCCREATE ==>
      && slots.userData == old(slots.userData)
      && result == if wnd in slots.userData
                   then handleMessage(slots.userData[wnd], msg, wParam, lParam)
                   else defWindowProc(wnd, msg, wParam, lParam)
    ensures old(Bound(slots)) && (msg == WM_NCCREATE ==> old(BoundOnlyTo(slots, create, wnd))) ==> Bound(slots)
  {
    var self: WindowImpl?;
    if msg == WM_NCCREATE {
      self := create;
      self.wnd := wnd;
      slots.userData := slots.userData[wnd := self];
    } else {
      self := if wnd in slots.userData then slots.userData[wnd] else null;
    }
    if self != null {
      result := handleMessage(self, msg, wParam, lParam);
    } else {
      result := defWindowProc(wnd, msg, wParam, lParam);
    }
  }

  /**
   * Two windows created with two handlers: each handler records its own
   * window, and a later message to the second window reaches only the second
   * handler.
   */
  method TwoWindows(a: Hwnd, b: Hwnd, msg: int, wParam: int, lParam: int,
                    handleMessage: HandleMessage, defWindowProc: DefWindowProc)
    returns (h1: WindowImpl, h2: WindowImpl, resultA: int, resultB: int)
    requires a != b && msg != WM_NCCREATE
    ensures h1 != h2 && h1.wnd == a && h2.wnd == b
    ensures resultB == handleMessage(h2, msg, wParam, lParam)
    ensures resultA == handleMessage(h1, msg, wParam, lParam)
  {
    var slots := new WindowSlots();
    h1 := new WindowImpl();
    h2 := new WindowImpl();
    var r1 := WindowImplProc(slots, a, WM_NCCREATE, 0, 0, h1, handleMessage, defWindowProc);
    var r2 := WindowImplProc(slots, b, WM_NCCREATE, 0, 0, h2, handleMessage, defWindowProc);
    resultB := WindowImplProc(slots, b, msg, wParam, lParam, null, handleMessage, defWindowProc);
    resultA := WindowImplProc(slots, a, msg, wParam, lParam, null, handleMessage, defWindowProc);
  }
}
