# winchroma in Dafny

A model of the logic in `winchroma.h`, a header-only helper layer over the
Win32 windowing API. Five parts of it are modelled:

- **Geometry** (`geometry.dfy`): POINT and SIZE equality and inequality,
  `rectWidth`, `rectHeight`, `rectSize` and `makeRect`. It proves the round
  trip between a rectangle and its top-left corner plus size.
- **CStrings** (`cstrings.dfy`): the `_tcsrchr` search (last occurrence of
  a character), the length of a NUL-terminated buffer, and `impl::fileName`.
  `fileName` returns the part of a path after its last backslash. It exists
  only in `CHROMA_DEBUG` builds, where `LOG` and `logLastError` use it to
  print the source file name.
- **Windows** (`windows.dfy`): the `windowImplProc` trampoline.
  - On `WM_NCCREATE` it records the window in the `WindowImpl` handler named
    by the creation parameter, stores the handler in the window's
    `GWLP_USERDATA` slot, and dispatches.
  - On any other message it dispatches to the bound handler, or to
    `DefWindowProc` when the slot is NULL.
  - The slot table is a `WindowSlots` object holding a map. A window missing
    from the map has a NULL slot.
  - Each handler is a `WindowImpl` object with its `wnd` field.
- **Gdi** (`gdi.dfy`): `CResource`, the RAII wrapper around one handle.
  - The class performs `reset`, `release`, assignment and destruction in
    place.
  - Each of those operations is specified by a function on a value-level
    `Slot`: the handle plus an ownership log.
  - The log has three kinds of event. `Took(h)` marks ownership taken.
    `Closed(h)` is one call of the close function. `Detached(h)` is a
    `release`.
  - The predicate `Episodes` states single ownership. Every operation
    preserves it. The lemmas derive from it that each acquisition of a
    handle is ended (closed or released) at most once, that any close after
    a release is of a later acquisition, and that every close is of the
    handle held at that moment. These hold per acquisition, not per handle
    value: storing the same value again and destroying the wrapper closes
    it again, in winchroma.h as in the model.
  - `operator=` takes its argument by reference. Assigning the wrapper's own
    `_obj` to it (`r = r._obj`) closes the handle and leaves the wrapper
    empty, because the store reads `_obj` after `reset` cleared it. The
    model covers this case with the flag `aliasesObj`.
- **CommonControls** (`commoncontrols.dfy`):
  - the menu-state to toolbar-state bit mapping and the loop of
    `updateToolbarState`;
  - the tab-to-newline rewrite and the flag update of `handleToolbarTip`.

Handles and windows are integers, with 0 standing for NULL. The callbacks the
code cannot see are parameters of the model: the close function `CloseFn`,
the handler's virtual `handleMessage`, `DefWindowProc`, and `GetMenuState`.

Two behaviours of winchroma.h are worth stating because a reader might
expect otherwise:

- No copy constructor of `CResource` is deleted, so the type is not
  move-only, and nothing here claims that it is.
- `CDC(HDC, HGDIOBJ)` calls `SelectObject` even when `CreateCompatibleDC`
  failed. It is not modelled (see below).

## Model

| member | source | states |
|---|---|---|
| Geometry.PointEq | winchroma.h:90-92 | POINT `==` holds exactly when the two points are equal values |
| Geometry.PointNe | winchroma.h:94-96 | POINT `!=` holds exactly when the points differ, the negation of `==` |
| Geometry.SizeEq | winchroma.h:98-100 | SIZE `==` holds exactly when the two sizes are equal values |
| Geometry.SizeNe | winchroma.h:102-104 | SIZE `!=` holds exactly when the sizes differ, the negation of `==` |
| Geometry.RectWidth | winchroma.h:108-110 | the width is right − left: the right edge lies the width past the left edge, and the width is non-negative exactly when left ≤ right |
| Geometry.RectHeight | winchroma.h:112-114 | the height is bottom − top: the bottom edge lies the height below the top edge, and the height is non-negative exactly when top ≤ bottom |
| Geometry.RectSize | winchroma.h:116-118 | the SIZE of width and height: placed at the rectangle's top-left corner, it spans exactly that rectangle |
| Geometry.MakeRect | winchroma.h:108-122 | the rectangle built from a point and a size has that point as its top-left corner; its `rectWidth` is `cx`, its `rectHeight` is `cy`, so its `rectSize` is the size given |
| Geometry.MakeRectFromParts | winchroma.h:108-122 | any rectangle is rebuilt by `makeRect` from its top-left corner and its `rectSize` |
| CStrings.LastIndexOf | winchroma.h:56 | the `_tcsrchr` search finds nothing exactly when the character does not occur; otherwise it finds an occurrence with none after it |
| CStrings.StrLen | winchroma.h:358 | the string in a buffer ends at the first NUL, or at the buffer's end when the buffer holds no NUL |
| CStrings.FileName | winchroma.h:54-58 | the result has no backslash; it is the suffix after the last backslash, or the whole path when the path has no backslash |
| Windows.WindowImplProc | winchroma.h:264-278 | on `WM_NCCREATE` (non-NULL create param), the handler's `wnd` becomes the window and only that window's slot changes, to that handler; the message then goes to that handler. On other messages the slots are unchanged and the result is the bound handler's `handleMessage`, or exactly `DefWindowProc` for a NULL slot. Only the handler named by the create param is modified. "Every bound handler records its window" is preserved when that handler is bound to no other window |
| Windows.TwoWindows | winchroma.h:264-278 | after creating windows A and B with two handlers, each handler records its own window; a message to B reaches only B's handler and a message to A only A's |
| Gdi.ConstructSlot | winchroma.h:291-292 | construction holds the given handle (NULL for the default constructor) and has called no close function |
| Gdi.ResetSlot | winchroma.h:307-311 | `reset` leaves NULL; it adds one close call, with the held handle, when that handle is non-NULL, and none otherwise |
| Gdi.ReleaseSlot | winchroma.h:313-317 | `release` leaves NULL and calls no close function |
| Gdi.AssignSlot | winchroma.h:297-300 | assignment closes the old non-NULL handle once, and that close comes before the new handle is taken; afterwards it holds the new handle, or NULL when the reference argument is the wrapper's own `_obj` |
| Gdi.SelfAssignThenDestroy | winchroma.h:297-311 | `r = r._obj` followed by destruction closes the held handle exactly once and leaves NULL |
| Gdi.ApplyKeepsEpisodes | winchroma.h:293-317 | assign (including `r = r._obj`), reset and release each preserve single ownership |
| Gdi.RunKeepsEpisodes | winchroma.h:293-317 | any sequence of assign/reset/release preserves single ownership |
| Gdi.LifetimeCompletes | winchroma.h:289-320 | after construction, any operations and destruction, the wrapper is NULL; every acquisition was ended by exactly one close or one release |
| Gdi.EpisodeShape | winchroma.h:289-320 | in the ownership log, acquisitions and endings alternate; each close or release is of the handle taken just before it; the open acquisition is the held handle |
| Gdi.AtMostOneEnding | winchroma.h:307-311 | of two close/release events, the later one ends a later acquisition, so each acquisition is ended at most once |
| Gdi.DetachedNeverClosed | winchroma.h:313-317 | after a release, any later close is of a later acquisition |
| Gdi.ClosesOnlyOwned | winchroma.h:307-311 | every close call is of the non-NULL handle held at that moment |
| Gdi.ReleaseThenDestroy | winchroma.h:293-317 | `release` followed by destruction calls the close function not at all and leaves NULL |
| Gdi.CResource.Empty | winchroma.h:291 | the default constructor holds NULL |
| Gdi.CResource.constructor | winchroma.h:292 | the constructor takes the given handle into ownership unchecked |
| Gdi.CResource.Get | winchroma.h:305 | `operator T` yields the held handle and changes nothing |
| Gdi.CResource.Reset | winchroma.h:307-311 | in place, as `ResetSlot`: the close function is called once on a non-NULL handle, its result is ignored, and `_obj` becomes NULL |
| Gdi.CResource.Release | winchroma.h:313-317 | in place, as `ReleaseSlot`: returns the held handle, `_obj` becomes NULL, and nothing is closed |
| Gdi.CResource.Assign | winchroma.h:297-300 | in place, as `AssignSlot`: reset, then store the argument; when the argument is a reference to `_obj` itself, the store reads NULL |
| Gdi.CResource.Destroy | winchroma.h:293-295 | the destructor resets |
| CommonControls.ButtonState | winchroma.h:350-351 | the toolbar state has INDETERMINATE exactly when the menu item is MF_GRAYED, and ENABLED exactly otherwise (so exactly one of the two); it has CHECKED exactly when the item is MF_CHECKED, and no other bit |
| CommonControls.UpdateToolbarState | winchroma.h:341-354 | every non-separator button's command gets `ButtonState` of its menu state; separators are skipped; every other state is left as it was |
| CommonControls.TipText | winchroma.h:358 | the last tab of the buffer's string becomes a newline; a string without a tab is unchanged; the buffer keeps its size |
| CommonControls.TipTextKeepsString | winchroma.h:358 | the rewrite keeps the string's length, and the only character that can change is a tab, which becomes a newline |
| CommonControls.HandleToolbarTip | winchroma.h:356-360 | in place, the text buffer becomes `TipText` of its old content, and `TTF_DI_SETITEM` is added to the flags |

## Left out

- Geometry.MakeRect: computes with unbounded integers. The header's 32-bit `LONG`/`int` arithmetic overflows when a coordinate plus a size, or a difference of edges, leaves the 32-bit range. The model agrees with winchroma.h whenever every value stays in that range.
- Geometry.RectWidth, Geometry.RectHeight, Geometry.RectSize: same 32-bit caveat as `MakeRect`.
- `inflateRect`, `offsetRect`, `defaultWindowRect`, `windowRect`, `clientRect`, `clientSize`, `screenToClient`, `clientToScreen`, `cursorPos`, `bitmapSize`: each wraps a platform call whose semantics the code does not show.
- `createWindow`, `createChildWindow`, `WindowImpl::create`, `WindowImpl::createChild`: thin `CreateWindowEx` calls. The model starts from the `WM_NCCREATE` message that creation delivers, whose create param is the handler.
- `WindowImpl::className` and `handleMessage` are user code. `handleMessage` is an opaque function of the handler, message and parameters, so its effects on state are not modelled.
- Windows.WindowImplProc: requires a non-NULL create param on `WM_NCCREATE`. winchroma.h dereferences it unchecked, so a window of a `windowImplProc` class created through `createWindow`/`createChildWindow` with their default `param = NULL` crashes there; that undefined behaviour is not modelled.
- `simpleMessageLoop`: a blocking message pump, I/O only.
- `logLastError`, `checkErr`, `LOG`: diagnostic output only. `CHECKERR` is the identity on its value, so a close result has no effect.
- `CResource::operator&`: it refers to a member `obj` that does not exist, so it cannot be instantiated.
- Gdi.CResource.Assign, Gdi.AssignSlot: they model `operator=(T &h)`, which C++ overload resolution picks only when a non-const lvalue of type `T` is assigned to a `CResource`. Any other right-hand side is converted to a temporary wrapper and goes through the compiler-generated copy assignment: on a `CResource` through the non-explicit `CResource(T obj)`; on a `CDC`, whose implicit `operator=` hides the base one, through `CDC(HDC dc)`, which passes the handle on to `CResource(dc)`. The copy assignment overwrites the old handle without closing it, so the old handle leaks. With a non-NULL rvalue handle (`r = CreateBitmap(...)`), the temporary's destructor also closes the new handle at once, and the wrapper's own destructor later closes it a second time. With `r = NULL`, the temporary holds NULL and closes nothing, so the wrapper ends empty and the old handle only leaks. This copy path is left out below and is not modelled. The reference argument is modelled as a value plus the flag `aliasesObj`. Only aliasing of the wrapper's own `_obj` is covered; a reference to another wrapper's field is treated as a value. `operator=` falls off its end without returning a value, so only its effect on the handle and the close calls is modelled.
- Copying a `CResource`: the compiler-generated copy constructor and copy assignment are allowed by the code and let two wrappers close one handle (including the conversion path of assigning an rvalue handle, above). Copies are not modelled.
- `CDC(HDC, HGDIOBJ)`: `CreateCompatibleDC` and `SelectObject` are foreign GDI calls. The code selects even when creation failed. `CGDIObj` and the other `CDC` constructors are `CResource` instances, covered by its model.
- `TB_BUTTONCOUNT`/`TB_GETBUTTONINFO`, `GetMenu`, `WM_INITMENU`, `GetMenuState`, `TB_SETSTATE`: the toolbar and the menu are inputs. Button states are keyed by command identifier, as `TB_SETSTATE` addresses them, so buttons that share a command share one entry.
- `GetMenuString` in `handleToolbarTip`: the model starts from the buffer it filled. It requires that buffer to hold a NUL, as `_tcsrchr` needs a terminated string.
- `SCRATCH_CLASS`, `makeClass`, `makeOpenFileName`, `tempPtr`, `CHROMA_MAIN`, the `InitCommonControls` static initializer and the linker pragmas: constant structures, build settings or startup effects with no logic.
