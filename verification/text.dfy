/**
 * The .NET string operations the plugin relies on: `char.IsWhiteSpace`,
 * `string.Trim`, `string.StartsWith(char)` and `string.Join`, plus the
 * splitting that undoes a join.
 */
module Text {

  /** `char.IsWhiteSpace`: TAB to CR, NEXT LINE, and the Unicode space, line and paragraph separators. */
  predicate IsWhiteSpace(c: char) {
    || c == ' '
    || ('\t' <= c <= '\r')
    || c == '\U{85}'
    || c == '\U{A0}'
    || c == '\U{1680}'
    || ('\U{2000}' <= c <= '\U{200A}')
    || c == '\U{2028}'
    || c == '\U{2029}'
    || c == '\U{202F}'
    || c == '\U{205F}'
    || c == '\U{3000}'
  }

  /** `s.StartsWith(c)` */
  predicate StartsWith(s: string, c: char) {
    |s| > 0 && s[0] == c
  }

  /** The first position at or after `i` that does not hold white space, or `|s|`. */
  function SkipWhiteSpace(s: string, i: nat): (j: nat)
    requires i <= |s|
    ensures i <= j <= |s| && (j == |s| || !IsWhiteSpace(s[j]))
    ensures forall k :: i <= k < j ==> IsWhiteSpace(s[k])
    decreases |s| - i
  {
    if i < |s| && IsWhiteSpace(s[i]) then SkipWhiteSpace(s, i + 1) else i
  }

  /** The position just after the last character before `j` that is not white space, or 0. */
  function SkipWhiteSpaceBack(s: string, j: nat): (i: nat)
    requires j <= |s|
    ensures i <= j && (i == 0 || !IsWhiteSpace(s[i - 1]))
    ensures forall k :: i <= k < j ==> IsWhiteSpace(s[k])
  {
    if j > 0 && IsWhiteSpace(s[j - 1]) then SkipWhiteSpaceBack(s, j - 1) else j
  }

  /**
   * `s.Trim()`: the slice of `s` between its leading and its trailing white
   * space; everything outside the slice is white space, the slice neither
   * starts nor ends with white space, and only an all-white-space string
   * trims to "".
   */
  function Trim(s: string): (r: string)
    ensures var i := SkipWhiteSpace(s, 0);
      && i + |r| <= |s| && r == s[i..i + |r|]
      && (forall k :: 0 <= k < i ==> IsWhiteSpace(s[k]))
      && (forall k :: i + |r| <= k < |s| ==> IsWhiteSpace(s[k]))
    ensures r == [] || (!IsWhiteSpace(r[0]) && !IsWhiteSpace(r[|r| - 1]))
    ensures r == [] <==> forall i :: 0 <= i < |s| ==> IsWhiteSpace(s[i])
  {
    var i := SkipWhiteSpace(s, 0);
    if i == |s| then []
    else
      var j := SkipWhiteSpaceBack(s, |s|);
      assert !IsWhiteSpace(s[i]);
      s[i..j]
  }

  /** `string.Join(sep, parts)` */
  function Join(sep: char, parts: seq<string>): string
  {
    if |parts| == 0 then ""
    else if |parts| == 1 then parts[0]
    else parts[0] + [sep] + Join(sep, parts[1..])
  }

  /** The position of the first `c` in `s`. */
  function IndexOf(c: char, s: string): (i: nat)
    requires c in s
    ensures i < |s| && s[i] == c && c !in s[..i]
  {
    if s[0] == c then 0
    else
      assert c in s[1..] by { var j :| 0 <= j < |s| && s[j] == c; assert s[1..][j - 1] == c; }
      var i := IndexOf(c, s[1..]) + 1;
      assert s[..i] == [s[0]] + s[1..][..i - 1];
      i
  }

  /** The first `c` in `a + [c] + b` is the one after `a` when `a` holds none. */
  lemma IndexOfAfter(c: char, a: string, b: string)
    requires c !in a
    ensures c in a + [c] + b && IndexOf(c, a + [c] + b) == |a|
  {
    var s := a + [c] + b;
    assert s[|a|] == c;
  }

  /** `s.Split(sep)`: the pieces between the separators. */
  function Split(sep: char, s: string): (r: seq<string>)
    ensures |r| >= 1
    decreases |s|
  {
    if sep in s then
      var i := IndexOf(sep, s);
      [s[..i]] + Split(sep, s[i + 1..])
    else [s]
  }

  /** Splitting a join gives back the parts, as long as no part holds the separator. */
  lemma {:induction false} SplitJoin(sep: char, parts: seq<string>)
    requires |parts| >= 1
    requires forall k :: 0 <= k < |parts| ==> sep !in parts[k]
    ensures Split(sep, Join(sep, parts)) == parts
  {
    if |parts| == 1 {
      assert sep !in parts[0];
    } else {
      var tail := parts[1..];
      var rest := Join(sep, tail);
      var s := parts[0] + [sep] + rest;
      assert Split(sep, rest) == tail by {
        forall k | 0 <= k < |tail|
          ensures sep !in tail[k]
        {
          assert tail[k] == parts[k + 1];
        }
        SplitJoin(sep, tail);
      }
      assert Split(sep, s) == [parts[0]] + Split(sep, rest) by {
        assert sep !in parts[0];
        IndexOfAfter(sep, parts[0], rest);
        assert s[..|parts[0]|] == parts[0];
        assert s[|parts[0]| + 1..] == rest;
      }
      assert Join(sep, parts) == s;
      assert parts == [parts[0]] + tail;
    }
  }
}
