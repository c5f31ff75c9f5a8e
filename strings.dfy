/**
 * The handful of JavaScript string operations the application's decision
 * logic relies on: `trim()` tested for emptiness, `toLowerCase` and
 * `toUpperCase` (restricted to the ASCII letters), `includes`, `split` on a
 * single character, `join` and `reverse`.
 */
module Strings {

  /** The characters `String.prototype.trim` removes: the ECMAScript
      WhiteSpace and LineTerminator code points. */
  predicate IsJsWhitespace(c: char)
  {
    var n := c as int;
    n == 0x09 || n == 0x0A || n == 0x0B || n == 0x0C || n == 0x0D || n == 0x20
    || n == 0xA0 || n == 0x1680 || (0x2000 <= n <= 0x200A)
    || n == 0x2028 || n == 0x2029 || n == 0x202F || n == 0x205F
    || n == 0x3000 || n == 0xFEFF
  }

  /** `!s.trim()`: nothing is left once surrounding white space is removed. */
  predicate Blank(s: string)
  {
    forall i :: 0 <= i < |s| ==> IsJsWhitespace(s[i])
  }

  /** `r` is the slice of `s` at `i`, with nothing but white space before
      and after it. */
  ghost predicate Surrounded(s: string, r: string, i: int)
  {
    0 <= i <= |s| - |r| && r == s[i..i + |r|] && Blank(s[..i]) && Blank(s[i + |r|..])
  }

  /** The first index from `i` on that does not hold white space. */
  function TrimStart(s: string, i: nat): (k: nat)
    requires i <= |s| && Blank(s[..i])
    ensures i <= k <= |s| && Blank(s[..k])
    ensures k == |s| || !IsJsWhitespace(s[k])
    decreases |s| - i
  {
    if i < |s| && IsJsWhitespace(s[i]) then
      assert forall n :: 0 <= n < i + 1 ==> s[..i + 1][n] == s[n];
      TrimStart(s, i + 1)
    else i
  }

  /** Going down from `j` but not below `lo`, the end of the last character
      that is not white space. */
  function TrimEnd(s: string, lo: nat, j: nat): (k: nat)
    requires lo <= j <= |s| && Blank(s[j..])
    ensures lo <= k <= j && Blank(s[k..])
    ensures k == lo || !IsJsWhitespace(s[k - 1])
  {
    if j > lo && IsJsWhitespace(s[j - 1]) then
      TrimEnd(s, lo, j - 1)
    else j
  }

  /** `s.trim()`: `s` without its leading and trailing white space, that is
      the slice of `s` left between a blank prefix and a blank suffix, with
      neither end of the slice white space. */
  function Trim(s: string): (r: string)
    ensures exists i :: Surrounded(s, r, i)
    ensures r == [] || (!IsJsWhitespace(r[0]) && !IsJsWhitespace(r[|r| - 1]))
  {
    var i := TrimStart(s, 0);
    var j := TrimEnd(s, i, |s|);
    assert Surrounded(s, s[i..j], i);
    s[i..j]
  }

  /** A string is blank exactly when trimming leaves nothing, which is the
      test `!s.trim()` makes. */
  lemma BlankTrim(s: string)
    ensures Blank(s) <==> Trim(s) == ""
  {
    var i := TrimStart(s, 0);
    var j := TrimEnd(s, i, |s|);
    assert Trim(s) == s[i..j];
    if j == i {
      assert s[..i] == s;
    }
  }

  function LowerChar(c: char): char
  {
    if 'A' <= c <= 'Z' then (c as int + 32) as char else c
  }

  function UpperChar(c: char): char
  {
    if 'a' <= c <= 'z' then (c as int - 32) as char else c
  }

  /** `s.toLowerCase()`, folding only the ASCII letters. */
  function Lower(s: string): (r: string)
    ensures |r| == |s|
    ensures forall i :: 0 <= i < |s| ==> r[i] == LowerChar(s[i])
  {
    seq(|s|, i requires 0 <= i < |s| => LowerChar(s[i]))
  }

  /** `s.toUpperCase()`, folding only the ASCII letters. */
  function Upper(s: string): (r: string)
    ensures |r| == |s|
    ensures forall i :: 0 <= i < |s| ==> r[i] == UpperChar(s[i])
  {
    seq(|s|, i requires 0 <= i < |s| => UpperChar(s[i]))
  }

  /** `needle` sits in `hay` starting at index `i`. */
  ghost predicate OccursAt(hay: string, needle: string, i: int)
  {
    0 <= i && i + |needle| <= |hay| && hay[i..i + |needle|] == needle
  }

  /** `hay.includes(needle)`: tries every start position from the left. */
  function Includes(hay: string, needle: string): (b: bool)
    ensures b <==> exists i :: OccursAt(hay, needle, i)
    decreases |hay|
  {
    if needle <= hay then
      assert OccursAt(hay, needle, 0);
      true
    else if hay == [] then
      assert forall i :: !OccursAt(hay, needle, i);
      false
    else
      var b := Includes(hay[1..], needle);
      assert forall i :: OccursAt(hay[1..], needle, i) <==> OccursAt(hay, needle, i + 1);
      assert forall i :: OccursAt(hay, needle, i) ==> i == 0 || OccursAt(hay[1..], needle, i - 1);
      b
  }

  /** How many times `c` occurs in `s`. */
  function Count(s: string, c: char): nat
  {
    if s == [] then 0 else (if s[0] == c then 1 else 0) + Count(s[1..], c)
  }

  /** `s.split(sep)` for a one-character separator: the pieces between
      separators, including the empty ones before a leading separator,
      between two adjacent ones and after a trailing one; `"".split(sep)`
      is `[""]`. */
  function Split(s: string, sep: char): (pieces: seq<string>)
    ensures |pieces| == Count(s, sep) + 1
    ensures forall k :: 0 <= k < |pieces| ==> sep !in pieces[k]
  {
    if s == [] then [""]
    else
      var rest := Split(s[1..], sep);
      if s[0] == sep then [""] + rest
      else [[s[0]] + rest[0]] + rest[1..]
  }

  /** The summed lengths of `pieces`. */
  function TotalLength(pieces: seq<string>): nat
  {
    if pieces == [] then 0 else |pieces[0]| + TotalLength(pieces[1..])
  }

  /** `pieces.join(sep)`: the pieces in order with one separator between
      neighbours; the empty list joins to the empty string. */
  function Join(pieces: seq<string>, sep: string): string
  {
    if |pieces| == 0 then ""
    else if |pieces| == 1 then pieces[0]
    else pieces[0] + sep + Join(pieces[1..], sep)
  }

  /** A join is as long as its pieces plus one separator between each two. */
  lemma {:induction false} JoinLength(pieces: seq<string>, sep: string)
    requires pieces != []
    ensures |Join(pieces, sep)| == TotalLength(pieces) + (|pieces| - 1) * |sep|
  {
    if |pieces| > 1 {
      JoinLength(pieces[1..], sep);
    }
  }

  /** `a.reverse()` on a fresh array, as a value. */
  function Reverse<T>(a: seq<T>): (r: seq<T>)
    ensures |r| == |a|
    ensures forall i :: 0 <= i < |a| ==> r[i] == a[|a| - 1 - i]
  {
    if a == [] then [] else Reverse(a[1..]) + [a[0]]
  }

  lemma {:induction false} TotalLengthSnoc(pieces: seq<string>, last: string)
    ensures TotalLength(pieces + [last]) == TotalLength(pieces) + |last|
  {
    if pieces != [] {
      assert (pieces + [last])[1..] == pieces[1..] + [last];
      TotalLengthSnoc(pieces[1..], last);
    } else {
      assert ([last])[1..] == [];
    }
  }

  /** Reversing the pieces keeps their summed length. */
  lemma {:induction false} TotalLengthReverse(pieces: seq<string>)
    ensures TotalLength(Reverse(pieces)) == TotalLength(pieces)
  {
    if pieces != [] {
      TotalLengthReverse(pieces[1..]);
      TotalLengthSnoc(Reverse(pieces[1..]), pieces[0]);
    }
  }

  /** Splitting then joining with the same separator gives back the string. */
  lemma {:induction false} JoinSplit(s: string, sep: char)
    ensures Join(Split(s, sep), [sep]) == s
  {
    if s != [] {
      var rest := Split(s[1..], sep);
      JoinSplit(s[1..], sep);
      if s[0] != sep {
        if |rest| > 1 {
          assert Join(rest, [sep]) == rest[0] + [sep] + Join(rest[1..], [sep]);
          assert ([[s[0]] + rest[0]] + rest[1..])[1..] == rest[1..];
        }
      }
    }
  }

  /** A piece without the separator stays whole: it is glued to the first
      piece of whatever follows it. */
  lemma {:induction false} SplitPrefix(a: string, sep: char, tail: string)
    requires sep !in a
    ensures Split(a + tail, sep) == [a + Split(tail, sep)[0]] + Split(tail, sep)[1..]
  {
    var t := Split(tail, sep);
    if a == [] {
      assert a + tail == tail;
      assert a + t[0] == t[0];
      assert t == [t[0]] + t[1..];
    } else {
      assert (a + tail)[0] == a[0] && (a + tail)[1..] == a[1..] + tail;
      SplitPrefix(a[1..], sep, tail);
      var rest := Split(a[1..] + tail, sep);
      assert rest[0] == a[1..] + t[0] && rest[1..] == t[1..];
      assert [a[0]] + (a[1..] + t[0]) == a + t[0];
    }
  }

  /** A string without the separator splits into itself. */
  lemma SplitWhole(a: string, sep: char)
    requires sep !in a
    ensures Split(a, sep) == [a]
  {
    SplitPrefix(a, sep, "");
    assert a + "" == a;
  }

  /** The pieces of `a sep b` are `a` followed by the pieces of `b`. */
  lemma SplitAt(a: string, sep: char, b: string)
    requires sep !in a
    ensures Split(a + [sep] + b, sep) == [a] + Split(b, sep)
  {
    SplitPrefix(a, sep, [sep] + b);
    assert a + [sep] + b == a + ([sep] + b);
    assert ([sep] + b)[0] == sep && ([sep] + b)[1..] == b;
    var t := Split([sep] + b, sep);
    assert t == [""] + Split(b, sep);
    assert a + t[0] == a;
  }
}
