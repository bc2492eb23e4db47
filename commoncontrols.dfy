/**
 * Common-control helpers: mirroring menu item state onto toolbar buttons
 * (`updateToolbarState`) and preparing a toolbar tooltip from the menu
 * string (`handleToolbarTip`).
 */
module CommonControls {
  import opened CStrings
  import opened Wrappers

  // Menu item state bits, as returned by GetMenuState.
  const MF_GRAYED: bv32 := 0x1
  const MF_CHECKED: bv32 := 0x8
  // Toolbar button state bits, as taken by TB_SETSTATE.
  const TBSTATE_CHECKED: bv32 := 0x1
  const TBSTATE_ENABLED: bv32 := 0x4
  const TBSTATE_INDETERMINATE: bv32 := 0x10
  // Toolbar button style bit of a separator.
  const BTNS_SEP: bv8 := 0x1
  // Tooltip flag asking the control to keep the supplied text.
  const TTF_DI_SETITEM: bv32 := 0x8000

  const TAB: char := '\t'
  const NEWLINE: char := '\n'

  /** The fields of TBBUTTONINFO that TB_GETBUTTONINFO is asked for. */
  datatype ButtonInfo = ButtonInfo(idCommand: int, fsStyle: bv8)

  predicate IsSeparator(b: ButtonInfo)
  {
    b.fsStyle & BTNS_SEP != 0
  }

  /**
   * The toolbar state for a menu state: INDETERMINATE when the item is
   * grayed and ENABLED otherwise, plus CHECKED when the item is checked.
   */
  function ButtonState(menuState: bv32): (s: bv32)
    ensures (s & TBSTATE_INDETERMINATE != 0) <==> (menuState & MF_GRAYED != 0)
    ensures (s & TBSTATE_ENABLED != 0) <==> (menuState & MF_GRAYED == 0)
    ensures (s & TBSTATE_CHECKED != 0) <==> (menuState & MF_CHECKED != 0)
    ensures s & !(TBSTATE_CHECKED | TBSTATE_ENABLED | TBSTATE_INDETERMINATE) == 0
  {
    (if menuState & MF_GRAYED != 0 then TBSTATE_INDETERMINATE else TBSTATE_ENABLED)
    | (if menuState & MF_CHECKED != 0 then TBSTATE_CHECKED else 0)
  }

  /** The command identifiers of the buttons that are not separators. */
  function Commands(buttons: seq<ButtonInfo>): set<int>
  {
    set b | b in buttons && !IsSeparator(b) :: b.idCommand
  }

  /**
   * `updateToolbarState`: `buttons` are the toolbar's buttons by index,
   * `menuState` is GetMenuState by command after WM_INITMENU, and `states`
   * are the toolbar's button states by command before the call. Every
   * non-separator button gets the state its menu item calls for; every
   * other state is left as it was.
   */
  method UpdateToolbarState(buttons: seq<ButtonInfo>, menuState: int -> bv32, states: map<int, bv32>)
    returns (updated: map<int, bv32>)
    ensures updated.Keys == states.Keys + Commands(buttons)
    ensures forall i | 0 <= i < |buttons| && !IsSeparator(buttons[i]) ::
      updated[buttons[i].idCommand] == ButtonState(menuState(buttons[i].idCommand))
    ensures forall id | id in states && id !in Commands(buttons) :: updated[id] == states[id]
  {
    updated := states;
    for i := 0 to |buttons|
      invariant updated.Keys == states.Keys + Commands(buttons[..i])
      invariant forall j | 0 <= j < i && !IsSeparator(buttons[j]) ::
        updated[buttons[j].idCommand] == ButtonState(menuState(buttons[j].idCommand))
      invariant forall id | id in states && id !in Commands(buttons[..i]) :: updated[id] == states[id]
    {
      var info := buttons[i];
      assert buttons[..i + 1] == buttons[..i] + [info];
      if IsSeparator(info) {
        continue;
      }
      var menuSt := menuState(info.idCommand);
      var btnState := ButtonState(menuSt);
      updated := updated[info.idCommand := btnState];
    }
    assert buttons[..|buttons|] == buttons;
  }

  /**
   * The tooltip text: the last tab of the string in the buffer becomes a
   * newline; a string without a tab is left as it is.
   */
  function TipText(buf: seq<char>): (t: seq<char>)
    ensures |t| == |buf|
    ensures TAB in buf[..StrLen(buf)] ==>
      exists i :: IsLastIndex(buf[..StrLen(buf)], TAB, i) && t == buf[i := NEWLINE]
    ensures TAB !in buf[..StrLen(buf)] ==> t == buf
  {
    match LastIndexOf(buf[..StrLen(buf)], TAB)
    case Some(i) => buf[i := NEWLINE]
    case None => buf
  }

  /** Rewriting a character of the string other than NUL keeps the string's length. */
  lemma {:induction false} StrLenUpdate(buf: seq<char>, i: nat, c: char)
    requires i < StrLen(buf) && c != NUL
    ensures StrLen(buf[i := c]) == StrLen(buf)
    decreases i
  {
    if i > 0 {
      assert buf[i := c][1..] == buf[1..][i - 1 := c];
      StrLenUpdate(buf[1..], i - 1, c);
    }
  }

  /**
   * The tooltip string keeps its length, and the only character that can
   * change is a tab, which becomes a newline.
   */
  lemma {:induction false} TipTextKeepsString(buf: seq<char>)
    ensures StrLen(TipText(buf)) == StrLen(buf)
    ensures forall j | 0 <= j < |buf| && TipText(buf)[j] != buf[j] :: buf[j] == TAB && TipText(buf)[j] == NEWLINE
  {
    match LastIndexOf(buf[..StrLen(buf)], TAB)
    case Some(i) => StrLenUpdate(buf, i, NEWLINE);
    case None =>
  }

  /** The parts of NMTTDISPINFO the handler touches. */
  class ToolTipInfo {
    const szText: array<char>
    var uFlags: bv32

    constructor (szText: array<char>, uFlags: bv32)
      ensures this.szText == szText && this.uFlags == uFlags
    {
      this.szText := szText;
      this.uFlags := uFlags;
    }
  }

  /**
   * `handleToolbarTip` after GetMenuString has filled `szText` with the
   * terminated menu string: the last tab becomes a newline, and the tooltip
   * is told to keep the text.
   */
  method HandleToolbarTip(info: ToolTipInfo)
    requires NUL in info.szText[..]
    modifies info`uFlags, info.szText
    ensures info.szText[..] == TipText(old(info.szText[..]))
    ensures info.uFlags == old(info.uFlags) | TTF_DI_SETITEM
  {
    var n := StrLen(info.szText[..]);
    var tab := LastIndexOf(info.szText[..n], TAB);
    if tab.Some? {
      info.szText[tab.value] := NEWLINE;
    }
    info.uFlags := info.uFlags | TTF_DI_SETITEM;
  }
}
