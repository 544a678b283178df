/** The JavaScript string operations the components use, on `seq<char>`. */
module Text {

  /** `String.prototype.toUpperCase` on one character, for the ASCII letters the
      components upper-case ("attack", "success", ...). */
  function UpperChar(c: char): (u: char)
    ensures 'a' <= c <= 'z' ==> 'A' <= u <= 'Z' && u as int == c as int - 32
    ensures !('a' <= c <= 'z') ==> u == c
  {
    if 'a' <= c <= 'z' then (c as int - 32) as char else c
  }

  /** `String.prototype.toUpperCase`, character by character. */
  function Upper(s: string): (r: string)
    ensures |r| == |s|
    ensures forall i :: 0 <= i < |s| ==> r[i] == UpperChar(s[i])
  {
    seq(|s|, i requires 0 <= i < |s| => UpperChar(s[i]))
  }

  /** `k` copies of `c`. */
  function Repeat(c: char, k: nat): (r: string)
    ensures |r| == k
    ensures forall i :: 0 <= i < k ==> r[i] == c
  {
    seq(k, _ => c)
  }

  /** `s.padStart(n, c)`: `s` unchanged when it is already `n` long, otherwise `s` with
      copies of `c` in front to make it exactly `n` long. */
  function PadStart(s: string, n: nat, c: char): (r: string)
    ensures |r| == if |s| >= n then |s| else n
    ensures r[|r| - |s|..] == s
    ensures forall i :: 0 <= i < |r| - |s| ==> r[i] == c
  {
    if |s| >= n then s else Repeat(c, n - |s|) + s
  }

  /** `parts.join(sep)` with a one-character separator; the empty array joins to "". */
  function Join(parts: seq<string>, sep: char): string
  {
    if parts == [] then ""
    else if |parts| == 1 then parts[0]
    else parts[0] + [sep] + Join(parts[1..], sep)
  }

  /** Joining two-character parts puts part `j` at offset `3 * j` and the separator
      right after every part but the last. */
  lemma {:induction false} JoinPairs(parts: seq<string>, sep: char)
    requires |parts| >= 1
    requires forall j :: 0 <= j < |parts| ==> |parts[j]| == 2
    ensures |Join(parts, sep)| == 3 * |parts| - 1
    ensures forall j :: 0 <= j < |parts| ==> Join(parts, sep)[3 * j..3 * j + 2] == parts[j]
    ensures forall j :: 0 <= j < |parts| - 1 ==> Join(parts, sep)[3 * j + 2] == sep
  {
    if |parts| > 1 {
      var rest := parts[1..];
      JoinPairs(rest, sep);
      var head := parts[0] + [sep];
      var s := head + Join(rest, sep);
      assert Join(parts, sep) == s;
      forall j | 1 <= j < |parts|
        ensures s[3 * j..3 * j + 2] == parts[j]
      {
        assert s[3 * j..3 * j + 2] == Join(rest, sep)[3 * (j - 1)..3 * (j - 1) + 2];
        assert rest[j - 1] == parts[j];
      }
      forall j | 1 <= j < |parts| - 1
        ensures s[3 * j + 2] == sep
      {
        assert s[3 * j + 2] == Join(rest, sep)[3 * (j - 1) + 2];
      }
      assert s[0..2] == parts[0];
    }
  }

  /** `s.split(' ')[0]`: everything before the first space, or all of `s` without one. */
  function FirstToken(s: string): (r: string)
    ensures |r| <= |s| && r == s[..|r|]
    ensures ' ' !in r
    ensures r == s || (|r| < |s| && s[|r|] == ' ')
  {
    if s == [] || s[0] == ' ' then "" else [s[0]] + FirstToken(s[1..])
  }

  /** The first token of two words separated by a space is the first word. */
  lemma {:induction false} FirstTokenOfPair(a: string, b: string)
    requires ' ' !in a
    ensures FirstToken(a + " " + b) == a
  {
    if a != [] {
      assert (a + " " + b)[1..] == a[1..] + " " + b;
      FirstTokenOfPair(a[1..], b);
    }
  }

  /** `s.startsWith(prefix)`. */
  predicate StartsWith(s: string, prefix: string)
  {
    |prefix| <= |s| && s[..|prefix|] == prefix
  }
}
