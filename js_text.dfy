/** The ECMAScript string operations the signature board relies on:
    `String.prototype.trim`, `slice`, and the truthiness test that `||`
    and `&&` apply to strings. Strings are sequences of code points. */
module JsText {
  import opened Wrappers

  /** The code points `trim` removes: ECMAScript's WhiteSpace (tab, vertical
      tab, form feed, space, no-break space, zero-width no-break space and the
      Unicode space separators) and LineTerminator (LF, CR, LS, PS). */
  predicate IsWhitespace(c: char) {
    c == '\t' || c == '\n' || c == '\U{0B}' || c == '\U{0C}' || c == '\r' || c == ' '
    || c == '\U{A0}' || c == '\U{1680}' || ('\U{2000}' <= c <= '\U{200A}')
    || c == '\U{2028}' || c == '\U{2029}' || c == '\U{202F}' || c == '\U{205F}'
    || c == '\U{3000}' || c == '\U{FEFF}'
  }

  /** A string made of whitespace only (the empty string included). */
  predicate IsBlank(s: string) {
    forall k :: 0 <= k < |s| ==> IsWhitespace(s[k])
  }

  /** The index of the first character at or after `i` that is not
      whitespace, or `|s|` when there is none. */
  function SkipBlanks(s: string, i: nat): (j: nat)
    requires i <= |s|
    decreases |s| - i
    ensures i <= j <= |s|
    ensures forall k :: i <= k < j ==> IsWhitespace(s[k])
    ensures j < |s| ==> !IsWhitespace(s[j])
  {
    if i < |s| && IsWhitespace(s[i]) then SkipBlanks(s, i + 1) else i
  }

  /** The index just past the last character before `j` that is not
      whitespace, or 0 when there is none. */
  function BackOverBlanks(s: string, j: nat): (i: nat)
    requires j <= |s|
    ensures i <= j
    ensures forall k :: i <= k < j ==> IsWhitespace(s[k])
    ensures 0 < i ==> !IsWhitespace(s[i - 1])
  {
    if 0 < j && IsWhitespace(s[j - 1]) then BackOverBlanks(s, j - 1) else j
  }

  /** `s.trim()`: the part of `s` between its leading and its trailing
      whitespace. It is empty exactly for a blank string, and otherwise
      neither starts nor ends with whitespace. */
  function Trim(s: string): (r: string)
    ensures |r| <= |s|
    ensures r != [] ==> !IsWhitespace(r[0]) && !IsWhitespace(r[|r| - 1])
  {
    var from, to := SkipBlanks(s, 0), BackOverBlanks(s, |s|);
    if from < to then s[from..to] else []
  }

  /** `trim` leaves nothing exactly of a blank string. */
  lemma TrimEmptyIffBlank(s: string)
    ensures Trim(s) == [] <==> IsBlank(s)
  {
  }

  /** The forward scan is determined by its contract: an index with only
      whitespace before it and no whitespace at it is where the scan stops. */
  lemma SkipBlanksAt(s: string, j: nat)
    requires j <= |s|
    requires forall k :: 0 <= k < j ==> IsWhitespace(s[k])
    requires j < |s| ==> !IsWhitespace(s[j])
    ensures SkipBlanks(s, 0) == j
  {
  }

  /** The backward scan is determined by its contract in the same way. */
  lemma BackOverBlanksAt(s: string, i: nat)
    requires i <= |s|
    requires forall k :: i <= k < |s| ==> IsWhitespace(s[k])
    requires 0 < i ==> !IsWhitespace(s[i - 1])
    ensures BackOverBlanks(s, |s|) == i
  {
  }

  /** Two blank strings make a blank string. */
  lemma BlankConcat(a: string, b: string)
    requires IsBlank(a) && IsBlank(b)
    ensures IsBlank(a + b)
  {
    forall k | 0 <= k < |a + b| ensures IsWhitespace((a + b)[k]) {
      if k < |a| { assert (a + b)[k] == a[k]; } else { assert (a + b)[k] == b[k - |a|]; }
    }
  }

  /** Blank padding in front shifts where the leading scan stops. */
  lemma SkipPadding(pre: string, s: string, post: string)
    requires IsBlank(pre)
    requires SkipBlanks(s, 0) < |s|
    ensures SkipBlanks(pre + s + post, 0) == |pre| + SkipBlanks(s, 0)
  {
    var t, i := pre + s + post, SkipBlanks(s, 0);
    forall k | 0 <= k < |pre| + i ensures IsWhitespace(t[k]) {
      if k < |pre| { assert t[k] == pre[k]; } else { assert t[k] == s[k - |pre|]; }
    }
    assert t[|pre| + i] == s[i];
    SkipBlanksAt(t, |pre| + i);
  }

  /** Blank padding behind shifts where the trailing scan stops. */
  lemma BackOverPadding(pre: string, s: string, post: string)
    requires IsBlank(post)
    requires 0 < BackOverBlanks(s, |s|)
    ensures BackOverBlanks(pre + s + post, |pre + s + post|) == |pre| + BackOverBlanks(s, |s|)
  {
    var t, j := pre + s + post, BackOverBlanks(s, |s|);
    forall k | |pre| + j <= k < |t| ensures IsWhitespace(t[k]) {
      if k < |pre| + |s| { assert t[k] == s[k - |pre|]; } else { assert t[k] == post[k - |pre| - |s|]; }
    }
    assert t[|pre| + j - 1] == s[j - 1];
    BackOverBlanksAt(t, |pre| + j);
  }

  /** A slice of `s` is the same slice of any sequence holding `s` at offset `d`. */
  lemma SliceShift<T>(t: seq<T>, s: seq<T>, d: nat, i: nat, j: nat)
    requires d + |s| <= |t| && t[d..d + |s|] == s
    requires i <= j <= |s|
    ensures t[d + i..d + j] == s[i..j]
  {
    forall k | 0 <= k < j - i ensures t[d + i..d + j][k] == s[i..j][k] {
      assert t[d + i + k] == t[d..d + |s|][i + k];
    }
  }

  /** Blank padding around a blank string leaves a blank string. */
  lemma TrimOfBlankPadded(pre: string, s: string, post: string)
    requires IsBlank(pre) && IsBlank(s) && IsBlank(post)
    ensures Trim(pre + s + post) == []
  {
    BlankConcat(pre, s);
    BlankConcat(pre + s, post);
  }

  /** `trim` keeps what lies between the two scans' stopping points. */
  lemma TrimBetween(s: string, i: nat, j: nat)
    requires i < j <= |s|
    requires SkipBlanks(s, 0) == i && BackOverBlanks(s, |s|) == j
    ensures Trim(s) == s[i..j]
  {
  }

  /** When `s` sits at offset `d` in `t`, is not blank, and both scans over
      `t` stop `d` further on than over `s`, the two trims agree. */
  lemma TrimOfShifted(t: string, s: string, d: nat)
    requires d + |s| <= |t| && t[d..d + |s|] == s
    requires SkipBlanks(s, 0) < BackOverBlanks(s, |s|)
    requires SkipBlanks(t, 0) == d + SkipBlanks(s, 0)
    requires BackOverBlanks(t, |t|) == d + BackOverBlanks(s, |s|)
    ensures Trim(t) == Trim(s)
  {
    var i, j := SkipBlanks(s, 0), BackOverBlanks(s, |s|);
    TrimBetween(t, d + i, d + j);
    TrimBetween(s, i, j);
    SliceShift(t, s, d, i, j);
  }

  /** `trim` ignores blank padding on either side. */
  lemma TrimIgnoresPadding(pre: string, s: string, post: string)
    requires IsBlank(pre) && IsBlank(post)
    ensures Trim(pre + s + post) == Trim(s)
  {
    var i, j := SkipBlanks(s, 0), BackOverBlanks(s, |s|);
    if i < j {
      SkipPadding(pre, s, post);
      BackOverPadding(pre, s, post);
      assert (pre + s + post)[|pre|..|pre| + |s|] == s;
      TrimOfShifted(pre + s + post, s, |pre|);
    } else {
      TrimOfBlankPadded(pre, s, post);
    }
  }

  /** A string that neither starts nor ends with whitespace is its own trim. */
  lemma TrimOfCore(core: string)
    requires core == [] || (!IsWhitespace(core[0]) && !IsWhitespace(core[|core| - 1]))
    ensures Trim(core) == core
  {
    if core != [] {
      SkipBlanksAt(core, 0);
      BackOverBlanksAt(core, |core|);
    }
  }

  /** `trim` removes exactly the surrounding whitespace: a core that neither
      starts nor ends with whitespace comes back unchanged, whatever blank
      padding surrounds it. */
  lemma TrimOfPadded(pre: string, core: string, post: string)
    requires IsBlank(pre) && IsBlank(post)
    requires core == [] || (!IsWhitespace(core[0]) && !IsWhitespace(core[|core| - 1]))
    ensures Trim(pre + core + post) == core
  {
    TrimIgnoresPadding(pre, core, post);
    TrimOfCore(core);
  }

  /** Trimming twice is trimming once. */
  lemma TrimIdempotent(s: string)
    ensures Trim(Trim(s)) == Trim(s)
  {
    TrimOfCore(Trim(s));
  }

  /** How `slice` reads an index: a negative one counts back from the end,
      and the result is clamped to `[0, len]`. */
  function SliceIndex(i: int, len: nat): (k: nat)
    ensures k <= len
    ensures 0 <= i ==> k == if i < len then i else len
    ensures i < 0 ==> k == if -i < len then len + i else 0
  {
    if i < 0 then (if len + i < 0 then 0 else len + i)
    else if i < len then i else len
  }

  /** `s.slice(start, end)`: the elements from index `start` up to, not
      including, index `end`, both read by `SliceIndex`; empty when the
      resolved start is not before the resolved end. */
  function Slice<T>(s: seq<T>, start: int, end: int): (r: seq<T>)
    ensures |r| <= |s|
    ensures var from, to := SliceIndex(start, |s|), SliceIndex(end, |s|);
      |r| == (if from < to then to - from else 0)
      && forall k :: 0 <= k < |r| ==> r[k] == s[from + k]
  {
    var from, to := SliceIndex(start, |s|), SliceIndex(end, |s|);
    if from < to then s[from..to] else []
  }

  /** `s.slice(start)`: from `start` to the end. */
  function SliceFrom<T>(s: seq<T>, start: int): (r: seq<T>)
    ensures 0 <= start ==> r == s[Min(start, |s|)..]
    ensures start < 0 ==> r == s[|s| - Min(-start, |s|)..]
  {
    Slice(s, start, |s|)
  }

  function Min(a: int, b: int): int {
    if a < b then a else b
  }

  /** `s || fallback` for a string `s`: the empty string is falsy. */
  function OrElse(s: string, fallback: string): (r: string)
    ensures s != "" ==> r == s
    ensures s == "" ==> r == fallback
  {
    if s != "" then s else fallback
  }

  /** A value that may be `null` or `undefined` is truthy when it is present
      and not the empty string. */
  predicate Truthy(o: Option<string>) {
    o.Some? && o.value != ""
  }

  /** `o || undefined`: keeps a truthy value and drops `null`, `undefined`
      and the empty string alike. */
  function OrUndefined(o: Option<string>): (r: Option<string>)
    ensures r.Some? <==> Truthy(o)
    ensures r.Some? ==> r == o
  {
    if Truthy(o) then o else None
  }
}
