/** The few Kotlin string operations the app relies on, over `string` (a `seq<char>`). */
module Text {
  import opened Wrappers

  /** `s.startsWith(p)` */
  predicate StartsWith(s: string, p: string) {
    |p| <= |s| && s[..|p|] == p
  }

  /** `s.endsWith(p)` */
  predicate EndsWith(s: string, p: string) {
    |p| <= |s| && s[|s| - |p|..] == p
  }

  /** `sub` occurs in `s` starting at index `i`. */
  predicate OccursAt(s: string, sub: string, i: int) {
    0 <= i && i + |sub| <= |s| && s[i..i + |sub|] == sub
  }

  /** `sub in s`, that is `s.contains(sub)`. */
  predicate Contains(s: string, sub: string) {
    exists i | 0 <= i <= |s| :: OccursAt(s, sub, i)
  }

  /** The first index at or after `from` where `sub` occurs, as `s.indexOf(sub, from)`. */
  function IndexOfFrom(s: string, sub: string, from: nat): (r: Option<nat>)
    decreases |s| + 1 - from
    ensures r.Some? ==> from <= r.value && OccursAt(s, sub, r.value)
    ensures r.Some? ==> forall j | from <= j < r.value :: !OccursAt(s, sub, j)
    ensures r.None? ==> forall j | from <= j :: !OccursAt(s, sub, j)
  {
    if OccursAt(s, sub, from) then Some(from)
    else if from >= |s| then None
    else IndexOfFrom(s, sub, from + 1)
  }

  /** `s.replaceFirst(target, replacement)` with literal (non-regex) strings. */
  function ReplaceFirst(s: string, target: string, replacement: string): (r: string)
    ensures !Contains(s, target) ==> r == s
    ensures Contains(s, target) ==>
              exists k | 0 <= k <= |s| && OccursAt(s, target, k) ::
                (forall j | 0 <= j < k :: !OccursAt(s, target, j)) && r == s[..k] + replacement + s[k + |target|..]
  {
    match IndexOfFrom(s, target, 0)
    case Some(k) => s[..k] + replacement + s[k + |target|..]
    case None => s
  }

  /** Replacing a prefix swaps it for the replacement and keeps the rest. */
  lemma ReplaceFirstAtStart(s: string, target: string, replacement: string)
    requires StartsWith(s, target)
    ensures ReplaceFirst(s, target, replacement) == replacement + s[|target|..]
  {
    assert OccursAt(s, target, 0);
    assert IndexOfFrom(s, target, 0) == Some(0);
    assert s[..0] + replacement == replacement;
    assert ReplaceFirst(s, target, replacement) == s[..0] + replacement + s[|target|..];
  }

  /** `s.removePrefix(p)`: drops one leading `p` if there is one. */
  function RemovePrefix(s: string, p: string): (r: string)
    ensures StartsWith(s, p) ==> p + r == s
    ensures !StartsWith(s, p) ==> r == s
  {
    if StartsWith(s, p) then
      assert s == s[..|p|] + s[|p|..];
      s[|p|..]
    else s
  }

  /** `s.removeSuffix(p)`: drops one trailing `p` if there is one. */
  function RemoveSuffix(s: string, p: string): (r: string)
    ensures EndsWith(s, p) ==> r + p == s
    ensures !EndsWith(s, p) ==> r == s
  {
    if EndsWith(s, p) then
      assert s == s[..|s| - |p|] + s[|s| - |p|..];
      s[..|s| - |p|]
    else s
  }

  /** Kotlin's `Char.isWhitespace()`: Java whitespace or a Unicode space separator. */
  predicate IsWhitespace(c: char) {
    var n := c as int;
    || 0x09 <= n <= 0x0D
    || 0x1C <= n <= 0x20
    || n == 0xA0 || n == 0x1680
    || 0x2000 <= n <= 0x200A
    || n == 0x2028 || n == 0x2029 || n == 0x202F || n == 0x205F || n == 0x3000
  }

  /** Kotlin's `CharSequence.isBlank()`: empty or whitespace only. */
  predicate IsBlank(s: string) {
    forall i | 0 <= i < |s| :: IsWhitespace(s[i])
  }

  /** A string that starts with `p` contains `p`. */
  lemma StartsWithContains(s: string, p: string)
    requires StartsWith(s, p)
    ensures Contains(s, p)
  {
    assert OccursAt(s, p, 0);
  }
}
