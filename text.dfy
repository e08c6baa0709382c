/**
 * The string operations of JavaScript that the extension relies on,
 * `String.prototype.trim` and `Array.prototype.join`, and
 * `String.prototype.split` with a one-character separator. The extension never
 * calls `split`; it is here only as the inverse of `join`, to state what a
 * joined text holds.
 */
module Text {

  /** The characters `String.prototype.trim` removes: the ECMAScript
      WhiteSpace and LineTerminator code points. */
  predicate IsWhitespace(c: char) {
    || c == ' ' || c == '\t' || c == '\n' || c == '\r'
    || c == '\U{000B}' || c == '\U{000C}' || c == '\U{00A0}' || c == '\U{1680}'
    || ('\U{2000}' <= c <= '\U{200A}')
    || c == '\U{2028}' || c == '\U{2029}' || c == '\U{202F}' || c == '\U{205F}'
    || c == '\U{3000}' || c == '\U{FEFF}'
  }

  ghost predicate AllWhitespace(s: string) {
    forall i :: 0 <= i < |s| ==> IsWhitespace(s[i])
  }

  /** `t` is a suffix of `s`. */
  predicate EndsWith(s: string, t: string) {
    |t| <= |s| && s[|s| - |t|..] == t
  }

  /** No whitespace at either end. */
  ghost predicate Trimmed(s: string) {
    s == [] || (!IsWhitespace(s[0]) && !IsWhitespace(s[|s| - 1]))
  }

  /** The index of the first non-whitespace character at or after `i`, or
      `|s|` when there is none. */
  function FirstKept(s: string, i: nat): (k: nat)
    requires i <= |s|
    ensures i <= k <= |s|
    ensures forall j :: i <= j < k ==> IsWhitespace(s[j])
    ensures k < |s| ==> !IsWhitespace(s[k])
    decreases |s| - i
  {
    if i < |s| && IsWhitespace(s[i]) then FirstKept(s, i + 1) else i
  }

  /** One past the last non-whitespace character before `j`, or `lo` when
      `s[lo..j]` is all whitespace. */
  function LastKept(s: string, lo: nat, j: nat): (k: nat)
    requires lo <= j <= |s|
    ensures lo <= k <= j
    ensures forall m :: k <= m < j ==> IsWhitespace(s[m])
    ensures k > lo ==> !IsWhitespace(s[k - 1])
    decreases j
  {
    if j > lo && IsWhitespace(s[j - 1]) then LastKept(s, lo, j - 1) else j
  }

  /** `String.prototype.trim`: what lies between the leading and the
      trailing whitespace. */
  function Trim(s: string): string {
    var i := FirstKept(s, 0);
    s[i..LastKept(s, i, |s|)]
  }

  /** The result of `trim` has no whitespace at either end. */
  lemma TrimIsTrimmed(s: string)
    ensures Trimmed(Trim(s))
  {
  }

  /** `trim` cuts `s` into leading whitespace, the result and trailing
      whitespace. */
  lemma TrimIsInfix(s: string)
    ensures exists i, k :: 0 <= i <= k <= |s| && Trim(s) == s[i..k]
              && AllWhitespace(s[..i]) && AllWhitespace(s[k..])
  {
    var i := FirstKept(s, 0);
    var k := LastKept(s, i, |s|);
    assert AllWhitespace(s[..i]) && AllWhitespace(s[k..]);
  }

  /** Conversely, a trimmed infix with only whitespace around it is the
      result of `trim`: the cut is unique. */
  lemma TrimOfInfix(s: string, i: nat, k: nat)
    requires i <= k <= |s| && Trimmed(s[i..k])
    requires AllWhitespace(s[..i]) && AllWhitespace(s[k..])
    ensures Trim(s) == s[i..k]
  {
    if i < k {
      assert s[i] == s[i..k][0] && s[k - 1] == s[i..k][k - i - 1];
      assert forall j :: 0 <= j < i ==> s[j] == s[..i][j];
      assert forall j :: k <= j < |s| ==> s[j] == s[k..][j - k];
    } else {
      forall j | 0 <= j < |s| ensures IsWhitespace(s[j]) {
        if j < i { assert s[j] == s[..i][j]; } else { assert s[j] == s[k..][j - k]; }
      }
    }
  }

  /** A string without edge whitespace is left as it is; hence `trim` is
      idempotent. */
  lemma TrimOfTrimmed(s: string)
    requires Trimmed(s)
    ensures Trim(s) == s
  {
    assert s[0..|s|] == s;
    TrimOfInfix(s, 0, |s|);
  }

  lemma TrimIdempotent(s: string)
    ensures Trim(Trim(s)) == Trim(s)
  {
    TrimIsTrimmed(s);
    TrimOfTrimmed(Trim(s));
  }

  /** `trim` yields the empty string exactly when `s` is all whitespace. */
  lemma TrimEmptyIff(s: string)
    ensures Trim(s) == [] <==> AllWhitespace(s)
  {
    if AllWhitespace(s) {
      assert s[..0] == [] && s[0..] == s;
      TrimOfInfix(s, 0, 0);
    }
  }

  /** `s || fallback` on strings: the empty string is falsy. */
  function OrDefault(s: string, fallback: string): (r: string)
    ensures fallback != "" ==> r != ""
    ensures s != "" ==> r == s
    ensures s == "" ==> r == fallback
  {
    if s == "" then fallback else s
  }

  /** `Array.prototype.join`: the elements with `sep` between neighbours. */
  function Join(parts: seq<string>, sep: string): string
  {
    if |parts| == 0 then ""
    else if |parts| == 1 then parts[0]
    else parts[0] + sep + Join(parts[1..], sep)
  }

  /** The joined text starts with the first element. */
  lemma {:induction false} JoinStartsWithFirst(parts: seq<string>, sep: string)
    requires |parts| > 0
    ensures |parts[0]| <= |Join(parts, sep)|
    ensures Join(parts, sep)[..|parts[0]|] == parts[0]
  {
    if |parts| > 1 {
      var rest := Join(parts[1..], sep);
      assert Join(parts, sep) == parts[0] + (sep + rest);
    }
  }

  /** `String.prototype.split` with a one-character separator (an empty
      string splits into one empty piece). */
  function Split(s: string, sep: char): (r: seq<string>)
    ensures |r| >= 1
  {
    if s == [] then [""]
    else if s[0] == sep then [""] + Split(s[1..], sep)
    else
      var rest := Split(s[1..], sep);
      [[s[0]] + rest[0]] + rest[1..]
  }

  lemma {:induction false} SplitWithoutSeparator(s: string, sep: char)
    requires sep !in s
    ensures Split(s, sep) == [s]
  {
    if s != [] {
      SplitWithoutSeparator(s[1..], sep);
      assert [s[0]] + s[1..] == s;
    }
  }

  lemma {:induction false} SplitAtFirstSeparator(a: string, sep: char, b: string)
    requires sep !in a
    ensures Split(a + [sep] + b, sep) == [a] + Split(b, sep)
  {
    if a == [] {
      assert a + [sep] + b == [sep] + b;
      assert ([sep] + b)[1..] == b;
    } else {
      var s := a + [sep] + b;
      assert s[0] == a[0];
      assert s[1..] == a[1..] + [sep] + b;
      SplitAtFirstSeparator(a[1..], sep, b);
      assert [a[0]] + a[1..] == a;
    }
  }

  /** Splitting a joined text at the separator gives back the parts, as
      long as no part contains the separator. */
  lemma {:induction false} SplitJoin(parts: seq<string>, sep: char)
    requires |parts| >= 1
    requires forall i :: 0 <= i < |parts| ==> sep !in parts[i]
    ensures Split(Join(parts, [sep]), sep) == parts
  {
    if |parts| == 1 {
      SplitWithoutSeparator(parts[0], sep);
    } else {
      SplitJoin(parts[1..], sep);
      SplitAtFirstSeparator(parts[0], sep, Join(parts[1..], [sep]));
      assert [parts[0]] + parts[1..] == parts;
    }
  }
}
