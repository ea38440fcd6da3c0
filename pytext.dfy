/**
 * The handful of Python string operations the monitor relies on, written out
 * with Python's semantics: `str.startswith`, `str.endswith`, `str.rjust`, the
 * negative slice `s[-n:]`, and the `0x`-prefix helpers of `eth_utils`
 * (`remove_0x_prefix`, `add_0x_prefix`), which accept either `0x` or `0X`.
 */
module PyText {

  function Min(a: int, b: int): int { if a <= b then a else b }
  function Max(a: int, b: int): int { if a <= b then b else a }

  /** `s.startswith(p)` */
  predicate StartsWith(s: string, p: string) {
    |p| <= |s| && s[..|p|] == p
  }

  /** `s.endswith(p)` */
  predicate EndsWith(s: string, p: string) {
    |p| <= |s| && s[|s| - |p|..] == p
  }

  predicate Is0xPrefixed(s: string) {
    StartsWith(s, "0x") || StartsWith(s, "0X")
  }

  /** `eth_utils.remove_0x_prefix` */
  function Remove0x(s: string): (r: string)
    ensures !Is0xPrefixed(s) ==> r == s
    ensures Is0xPrefixed(s) ==> |r| == |s| - 2 && s == s[..2] + r
  {
    if Is0xPrefixed(s) then s[2..] else s
  }

  /** `eth_utils.add_0x_prefix` */
  function Add0x(s: string): (r: string)
    ensures Is0xPrefixed(r)
    ensures Is0xPrefixed(s) ==> r == s
    ensures !Is0xPrefixed(s) ==> r == "0x" + s
  {
    if Is0xPrefixed(s) then s else "0x" + s
  }

  /** `s.rjust(width, fill)`: left-pad with `fill` up to `width`; never truncates. */
  function RJust(s: string, width: int, fill: char): (r: string)
    ensures |r| == Max(|s|, width)
    ensures EndsWith(r, s)
    ensures forall i :: 0 <= i < |r| - |s| ==> r[i] == fill
  {
    if |s| >= width then s else seq(width - |s|, _ => fill) + s
  }

  /**
   * `s[-n:]`: the last `n` characters, or all of `s` when it is shorter.
   * (`s[-0:]` is all of `s` in Python, hence `n > 0`.)
   */
  function TakeLast(s: string, n: nat): (r: string)
    requires n > 0
    ensures |r| == Min(|s|, n)
    ensures EndsWith(s, r)
  {
    if |s| <= n then s else s[|s| - n..]
  }
}
