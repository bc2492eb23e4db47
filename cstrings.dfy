/**
 * NUL-terminated character strings: the `_tcsrchr` search the header relies
 * on, the length of a terminated buffer, and `impl::fileName`.
 */
module CStrings {
  import opened Wrappers

  const NUL: char := '\0'
  const BACKSLASH: char := '\\'

  /** The characters of a C string, without its terminator. */
  type CString = s: seq<char> | NUL !in s

  /** `i` is the position of the last occurrence of `c` in `s`. */
  predicate IsLastIndex(s: seq<char>, c: char, i: int)
  {
    0 <= i < |s| && s[i] == c && forall j | i < j < |s| :: s[j] != c
  }

  /**
   * `_tcsrchr` for `c` other than NUL: the position of the last occurrence
   * of `c`, or None (the NULL pointer) when `c` does not occur. (For NUL,
   * `_tcsrchr` finds the terminator, which is not part of `s` here.)
   */
  function LastIndexOf(s: seq<char>, c: char): (r: Option<nat>)
    ensures r.None? <==> c !in s
    ensures r.Some? ==> IsLastIndex(s, c, r.value)
    decreases |s|
  {
    if |s| == 0 then None
    else if s[|s| - 1] == c then Some(|s| - 1)
    else LastIndexOf(s[..|s| - 1], c)
  }

  /**
   * The length of the string held in a character buffer: the index of the
   * first NUL, or the whole buffer when it holds none.
   */
  function StrLen(buf: seq<char>): (n: nat)
    ensures n <= |buf|
    ensures NUL !in buf[..n]
    ensures n < |buf| ==> buf[n] == NUL
    decreases |buf|
  {
    if |buf| == 0 || buf[0] == NUL then 0
    else 1 + StrLen(buf[1..])
  }

  /**
   * `impl::fileName` (defined only in `CHROMA_DEBUG` builds, for the log
   * lines): the part of a path after its last backslash, or the
   * whole path when it has none.
   */
  function FileName(path: CString): (name: CString)
    ensures BACKSLASH !in name
    ensures BACKSLASH in path ==>
      exists i :: IsLastIndex(path, BACKSLASH, i) && name == path[i + 1..]
    ensures BACKSLASH !in path ==> name == path
  {
    match LastIndexOf(path, BACKSLASH)
    case Some(i) => path[i + 1..]
    case None => path
  }
}
