/** The handful of Go `strings` functions the modelled code relies on,
    over Dafny strings (sequences of Unicode scalar values). */
module Text {

  /** `sub` occurs in `s` starting at index `k`. */
  predicate OccursAt(s: string, sub: string, k: int)
  {
    0 <= k && k + |sub| <= |s| && s[k..k + |sub|] == sub
  }

  /** Go's `strings.Contains`. */
  predicate Contains(s: string, sub: string)
  {
    exists k :: 0 <= k <= |s| - |sub| && OccursAt(s, sub, k)
  }

  /** Go's `strings.HasPrefix`. */
  predicate HasPrefix(s: string, prefix: string)
  {
    |prefix| <= |s| && s[..|prefix|] == prefix
  }

  /** Go's `strings.LastIndex` for a one-character separator: the index of
      the last `c` in `s`, or -1 when there is none. */
  function LastIndexOf(s: string, c: char): (r: int)
    ensures -1 <= r < |s|
    ensures r == -1 <==> c !in s
    ensures r >= 0 ==> s[r] == c && c !in s[r + 1..]
  {
    if |s| == 0 then -1
    else if s[|s| - 1] == c then |s| - 1
    else
      var r := LastIndexOf(s[..|s| - 1], c);
      assert s[r + 1..] == s[..|s| - 1][r + 1..] + [s[|s| - 1]];
      r
  }

  /** The index of the first occurrence of `sub` in `s` at or after `from`,
      or -1. */
  function IndexFrom(s: string, sub: string, from: nat): (r: int)
    requires |sub| > 0
    decreases |s| - from
    ensures r == -1 || (from <= r && OccursAt(s, sub, r))
    ensures r == -1 ==> forall k :: from <= k ==> !OccursAt(s, sub, k)
    ensures r >= 0 ==> forall k :: from <= k < r ==> !OccursAt(s, sub, k)
  {
    if from + |sub| > |s| then -1
    else if s[from..from + |sub|] == sub then from
    else IndexFrom(s, sub, from + 1)
  }

  /** Go's `strings.Index` for a non-empty needle. */
  function IndexOf(s: string, sub: string): (r: int)
    requires |sub| > 0
    ensures r == -1 <==> forall k :: !OccursAt(s, sub, k)
    ensures r >= 0 ==> OccursAt(s, sub, r) && forall k :: k < r ==> !OccursAt(s, sub, k)
  {
    IndexFrom(s, sub, 0)
  }

  /** Go's `strings.Replace(s, pattern, repl, 1)`: the first occurrence of `pattern`
      is replaced. */
  function ReplaceFirst(s: string, pattern: string, repl: string): (r: string)
    requires |pattern| > 0
    ensures !Contains(s, pattern) ==> r == s
  {
    var i := IndexOf(s, pattern);
    if i < 0 then s else s[..i] + repl + s[i + |pattern|..]
  }

  /** Go's `strings.Replace(s, pattern, repl, -1)`: every non-overlapping
      occurrence of `pattern`, scanning left to right, is replaced. */
  function ReplaceAll(s: string, pattern: string, repl: string): (r: string)
    requires |pattern| > 0
    decreases |s|
    ensures !Contains(s, pattern) ==> r == s
  {
    var i := IndexOf(s, pattern);
    if i < 0 then s else s[..i] + repl + ReplaceAll(s[i + |pattern|..], pattern, repl)
  }

  /** When the needle's first character does not occur in `p`, the first
      occurrence of the needle in `p + needle + q` is right after `p`. */
  lemma FirstOccurrenceAfter(p: string, needle: string, q: string)
    requires |needle| > 0 && needle[0] !in p
    ensures IndexOf(p + needle + q, needle) == |p|
  {
    var s := p + needle + q;
    assert OccursAt(s, needle, |p|) by { assert s[|p|..|p| + |needle|] == needle; }
    forall k | 0 <= k < |p|
      ensures !OccursAt(s, needle, k)
    {
      if k + |needle| <= |s| {
        assert s[k..k + |needle|][0] == s[k] == p[k];
      }
    }
  }

  /** Replacing the first occurrence of a needle placed after a prefix that
      cannot start it splices the replacement in its place. */
  lemma ReplaceFirstSplice(p: string, needle: string, q: string, repl: string)
    requires |needle| > 0 && needle[0] !in p
    ensures ReplaceFirst(p + needle + q, needle, repl) == p + repl + q
  {
    var s := p + needle + q;
    FirstOccurrenceAfter(p, needle, q);
    assert s[..|p|] == p;
    assert s[|p| + |needle|..] == q;
  }

  /** A string that lacks the needle's first character does not contain it. */
  lemma NoFirstCharNoOccurrence(s: string, needle: string)
    requires |needle| > 0 && needle[0] !in s
    ensures !Contains(s, needle)
  {
    forall k | 0 <= k <= |s| - |needle|
      ensures !OccursAt(s, needle, k)
    {
      assert s[k..k + |needle|][0] == s[k];
    }
  }

  /** `ReplaceAll` on `p + needle + q`, where neither `p` nor `q` can hold
      the needle, splices the replacement in once. */
  lemma ReplaceAllSplice(p: string, needle: string, q: string, repl: string)
    requires |needle| > 0 && needle[0] !in p && !Contains(q, needle)
    ensures ReplaceAll(p + needle + q, needle, repl) == p + repl + q
  {
    var s := p + needle + q;
    FirstOccurrenceAfter(p, needle, q);
    assert s[..|p|] == p;
    assert s[|p| + |needle|..] == q;
  }

  /** `x + y` holds no occurrence of `t` when neither part does and the
      character at the seam, on either side, is foreign to `t`. */
  lemma NoOccurrenceAcrossSeam(x: string, y: string, t: string)
    requires |t| > 0 && !Contains(x, t) && !Contains(y, t)
    requires (|x| > 0 && x[|x| - 1] !in t) || (|y| > 0 && y[0] !in t)
    ensures !Contains(x + y, t)
  {
    var s := x + y;
    forall k | 0 <= k <= |s| - |t|
      ensures !OccursAt(s, t, k)
    {
      if k + |t| <= |x| {
        assert !OccursAt(x, t, k);
        assert s[k..k + |t|] == x[k..k + |t|];
      } else if k >= |x| {
        assert !OccursAt(y, t, k - |x|);
        assert s[k..k + |t|] == y[k - |x|..k - |x| + |t|];
      } else if |x| > 0 && x[|x| - 1] !in t {
        assert s[k..k + |t|][|x| - 1 - k] == x[|x| - 1];
      } else {
        assert s[k..k + |t|][|x| - k] == y[0];
      }
    }
  }

  /** When `p` holds no occurrence of the needle and ends in a character
      foreign to it, the first occurrence in `p + needle + q` is right after
      `p`. */
  lemma FirstOccurrenceAfterSeam(p: string, needle: string, q: string)
    requires |needle| > 0 && !Contains(p, needle) && (|p| == 0 || p[|p| - 1] !in needle)
    ensures IndexOf(p + needle + q, needle) == |p|
  {
    var s := p + needle + q;
    assert OccursAt(s, needle, |p|) by { assert s[|p|..|p| + |needle|] == needle; }
    forall k | 0 <= k < |p|
      ensures !OccursAt(s, needle, k)
    {
      if k + |needle| <= |p| {
        assert !OccursAt(p, needle, k);
        assert s[k..k + |needle|] == p[k..k + |needle|];
      } else if k + |needle| <= |s| {
        assert s[k..k + |needle|][|p| - 1 - k] == p[|p| - 1];
      }
    }
  }

  /** `ReplaceAll` splices the replacement in once under the seam
      conditions of `FirstOccurrenceAfterSeam`. */
  lemma ReplaceAllSpliceAtSeam(p: string, needle: string, q: string, repl: string)
    requires |needle| > 0 && !Contains(p, needle) && (|p| == 0 || p[|p| - 1] !in needle)
    requires !Contains(q, needle)
    ensures ReplaceAll(p + needle + q, needle, repl) == p + repl + q
  {
    var s := p + needle + q;
    FirstOccurrenceAfterSeam(p, needle, q);
    assert s[..|p|] == p;
    assert s[|p| + |needle|..] == q;
  }

  /** A string shorter than the needle does not contain it. */
  lemma ShorterNoOccurrence(s: string, needle: string)
    requires |s| < |needle|
    ensures !Contains(s, needle)
  {
  }

  /** ASCII letters are lower-cased; every other character is kept. */
  function ToLowerChar(c: char): char
  {
    if 'A' <= c <= 'Z' then (c as int - 'A' as int + 'a' as int) as char else c
  }

  /** Go's `strings.ToLower`, restricted to the ASCII case mapping. */
  function ToLower(s: string): (r: string)
    ensures |r| == |s|
    ensures forall k :: 0 <= k < |s| ==> r[k] == ToLowerChar(s[k])
  {
    if |s| == 0 then [] else [ToLowerChar(s[0])] + ToLower(s[1..])
  }

  /** Go's `unicode.IsSpace`: the Unicode White_Space characters. */
  predicate IsSpace(c: char)
  {
    c == ' ' || c == '\t' || c == '\n' || c == '\r' || c == '\U{000B}' || c == '\U{000C}'
    || c == '\U{0085}' || c == '\U{00A0}' || c == '\U{1680}'
    || ('\U{2000}' <= c <= '\U{200A}')
    || c == '\U{2028}' || c == '\U{2029}' || c == '\U{202F}' || c == '\U{205F}' || c == '\U{3000}'
  }

  /** Drops leading white space. */
  function TrimLeft(s: string): (r: string)
    ensures |r| <= |s| && r == s[|s| - |r|..]
    ensures forall k :: 0 <= k < |s| - |r| ==> IsSpace(s[k])
    ensures |r| > 0 ==> !IsSpace(r[0])
  {
    if |s| > 0 && IsSpace(s[0]) then TrimLeft(s[1..]) else s
  }

  /** Drops trailing white space. */
  function TrimRight(s: string): (r: string)
    ensures |r| <= |s| && r == s[..|r|]
    ensures forall k :: |r| <= k < |s| ==> IsSpace(s[k])
    ensures |r| > 0 ==> !IsSpace(r[|r| - 1])
  {
    if |s| > 0 && IsSpace(s[|s| - 1]) then TrimRight(s[..|s| - 1]) else s
  }

  /** The number of white-space characters `TrimSpace` drops in front. */
  function LeadingSpace(s: string): (n: nat)
    ensures n <= |s|
  {
    |s| - |TrimLeft(s)|
  }

  /** Go's `strings.TrimSpace`: the slice of `s` left once the white space
      on both sides is dropped. */
  function TrimSpace(s: string): (r: string)
    ensures LeadingSpace(s) + |r| <= |s|
    ensures r == s[LeadingSpace(s)..LeadingSpace(s) + |r|]
    ensures forall k :: 0 <= k < LeadingSpace(s) ==> IsSpace(s[k])
    ensures forall k :: LeadingSpace(s) + |r| <= k < |s| ==> IsSpace(s[k])
    ensures |r| > 0 ==> !IsSpace(r[0]) && !IsSpace(r[|r| - 1])
  {
    var l := TrimLeft(s);
    var r := TrimRight(l);
    assert r == s[|s| - |l|..|s| - |l| + |r|];
    r
  }

  /** Trimming an already trimmed string changes nothing. */
  lemma TrimSpaceIdempotent(s: string)
    ensures TrimSpace(TrimSpace(s)) == TrimSpace(s)
  {
    var t := TrimSpace(s);
    assert TrimLeft(t) == t;
    assert TrimRight(t) == t;
  }

  /** A lower-case ASCII letter is not white space and is its own
      lower-case form. */
  predicate IsLowerLetter(c: char)
  {
    'a' <= c <= 'z'
  }

  /** A word of lower-case ASCII letters is its own trimmed form. */
  lemma LowerWordIsTrimmed(s: string)
    requires forall k :: 0 <= k < |s| ==> IsLowerLetter(s[k])
    ensures TrimSpace(s) == s
  {
    if |s| > 0 {
      assert IsLowerLetter(s[0]) && IsLowerLetter(s[|s| - 1]);
      assert TrimLeft(s) == s;
      assert TrimRight(s) == s;
    }
  }

  /** A word of lower-case ASCII letters is its own lower-cased form. */
  lemma LowerWordIsLower(s: string)
    requires forall k :: 0 <= k < |s| ==> IsLowerLetter(s[k])
    ensures ToLower(s) == s
  {
    var l := ToLower(s);
    assert forall k :: 0 <= k < |s| ==> l[k] == s[k];
  }
}
