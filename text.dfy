/** String helpers standing in for the Python `str` operations the core uses:
    `startswith`, `endswith`, the `in` substring test, `strip`, `"sep".join` and `lower`. */
module Text {

  /** `s.startswith(p)` */
  predicate StartsWith(s: string, p: string) {
    |p| <= |s| && s[..|p|] == p
  }

  /** `s.endswith(p)` */
  predicate EndsWith(s: string, p: string) {
    |p| <= |s| && s[|s| - |p|..] == p
  }

  /** `sub` occurs in `s` starting at index `k`. */
  predicate OccursAt(s: string, sub: string, k: int) {
    0 <= k && k + |sub| <= |s| && s[k..k + |sub|] == sub
  }

  /** Python's `sub in s`. */
  predicate Contains(s: string, sub: string) {
    exists k | 0 <= k <= |s| :: OccursAt(s, sub, k)
  }

  lemma ContainsMiddle(a: string, b: string, c: string)
    ensures Contains(a + b + c, b)
  {
    var s := a + b + c;
    assert s[|a|..|a| + |b|] == b;
    assert OccursAt(s, b, |a|);
  }

  lemma ContainsPrefix(b: string, c: string)
    ensures Contains(b + c, b)
  {
    assert b + c == [] + b + c;
    ContainsMiddle([], b, c);
  }

  lemma ContainsSuffix(a: string, b: string)
    ensures Contains(a + b, b)
  {
    assert a + b == a + b + [];
    ContainsMiddle(a, b, []);
  }

  /** Containment is transitive: a fragment of a fragment of `s` is a fragment of `s`. */
  lemma ContainsTransitive(s: string, t: string, u: string)
    requires Contains(s, t) && Contains(t, u)
    ensures Contains(s, u)
  {
    var i :| 0 <= i <= |s| && OccursAt(s, t, i);
    var j :| 0 <= j <= |t| && OccursAt(t, u, j);
    forall m | 0 <= m < |u| ensures s[i + j + m] == u[m] {
      assert t[j + m] == u[m];
      assert t[j + m] == s[i + j + m];
    }
    assert s[i + j..i + j + |u|] == u;
    assert OccursAt(s, u, i + j);
  }

  /** The characters Python's `str.isspace` (and so `str.strip`) treats as white space. */
  predicate IsSpace(c: char) {
    var n := c as int;
    n == 0x20 || 0x09 <= n <= 0x0D || 0x1C <= n <= 0x1F || n == 0x85 || n == 0xA0
    || n == 0x1680 || 0x2000 <= n <= 0x200A || n == 0x2028 || n == 0x2029
    || n == 0x202F || n == 0x205F || n == 0x3000
  }

  /** How many white-space characters open `s`. */
  function LeadingSpaces(s: string): (n: nat)
    ensures n <= |s|
    ensures forall i :: 0 <= i < n ==> IsSpace(s[i])
    ensures n < |s| ==> !IsSpace(s[n])
  {
    if |s| > 0 && IsSpace(s[0]) then 1 + LeadingSpaces(s[1..]) else 0
  }

  /** How many white-space characters close `s`. */
  function TrailingSpaces(s: string): (n: nat)
    ensures n <= |s|
    ensures forall i :: |s| - n <= i < |s| ==> IsSpace(s[i])
    ensures n < |s| ==> !IsSpace(s[|s| - n - 1])
  {
    if |s| > 0 && IsSpace(s[|s| - 1]) then 1 + TrailingSpaces(s[..|s| - 1]) else 0
  }

  /** `s.strip()`: drops white space from both ends, so it never lengthens its input. */
  function Strip(s: string): (r: string)
    ensures |r| <= |s|
    ensures |r| == |s| ==> r == s
  {
    var t := s[LeadingSpaces(s)..];
    t[..|t| - TrailingSpaces(t)]
  }

  /** A string that neither opens nor closes with white space. */
  predicate Trimmed(s: string) {
    |s| == 0 || (!IsSpace(s[0]) && !IsSpace(s[|s| - 1]))
  }

  /** `strip` keeps a contiguous piece of its input, only white space goes, and what is left is trimmed. */
  lemma StripSpec(s: string)
    ensures Trimmed(Strip(s))
    ensures exists i, j :: (0 <= i <= j <= |s| && Strip(s) == s[i..j]
                           && (forall k :: 0 <= k < i ==> IsSpace(s[k]))
                           && (forall k :: j <= k < |s| ==> IsSpace(s[k])))
  {
    var i := LeadingSpaces(s);
    var t := s[i..];
    var m := TrailingSpaces(t);
    var j := i + |t| - m;
    assert Strip(s) == s[i..j];
    forall k | j <= k < |s| ensures IsSpace(s[k]) {
      assert s[k] == t[k - i];
    }
    if |Strip(s)| > 0 {
      assert Strip(s)[|Strip(s)| - 1] == t[|t| - m - 1];
    }
  }

  /** A string that is already trimmed is left alone by `strip`. */
  lemma StripTrimmed(s: string)
    requires Trimmed(s)
    ensures Strip(s) == s
  {
    assert LeadingSpaces(s) == 0;
    assert s[0..] == s;
    assert TrailingSpaces(s) == 0;
  }

  /** `sep.join(parts)`: the parts with one separator between each neighbouring pair. */
  function Join(parts: seq<string>, sep: string): (r: string)
    ensures |parts| > 0 ==> |r| == TotalLength(parts) + (|parts| - 1) * |sep|
  {
    if |parts| == 0 then ""
    else if |parts| == 1 then parts[0]
    else parts[0] + sep + Join(parts[1..], sep)
  }

  /** Every part can be found in the joined string. */
  lemma {:induction false} JoinContainsPart(parts: seq<string>, sep: string, i: nat)
    requires i < |parts|
    ensures Contains(Join(parts, sep), parts[i])
  {
    if |parts| == 1 {
      assert parts[0] == [] + parts[0] + [];
      ContainsMiddle([], parts[0], []);
    } else if i == 0 {
      ContainsPrefix(parts[0], sep + Join(parts[1..], sep));
      assert Join(parts, sep) == parts[0] + (sep + Join(parts[1..], sep));
    } else {
      JoinContainsPart(parts[1..], sep, i - 1);
      ContainsSuffix(parts[0] + sep, Join(parts[1..], sep));
      ContainsTransitive(Join(parts, sep), Join(parts[1..], sep), parts[i]);
    }
  }

  /** The summed length of the parts. */
  function TotalLength(parts: seq<string>): nat {
    if |parts| == 0 then 0 else |parts[0]| + TotalLength(parts[1..])
  }

  /** ASCII upper case maps to lower case; every other character is kept (Unicode case mapping is not modelled). */
  function LowerChar(c: char): (r: char)
    ensures 'A' <= c <= 'Z' ==> 'a' <= r <= 'z' && r as int - c as int == 32
    ensures !('A' <= c <= 'Z') ==> r == c
  {
    if 'A' <= c <= 'Z' then (c as int + 32) as char else c
  }

  /** `s.lower()` for ASCII letters. */
  function Lower(s: string): (r: string)
    ensures |r| == |s|
    ensures forall i :: 0 <= i < |s| ==> r[i] == LowerChar(s[i])
  {
    if |s| == 0 then "" else [LowerChar(s[0])] + Lower(s[1..])
  }
}
