/**
 * The Python `str` operations the approval hooks and the discovery script rely
 * on: `sub in s`, `startswith`, `endswith`, `find`, `split`, `"sep".join`,
 * `strip` and the case-insensitive comparison done with `lower()`.
 * Strings are sequences of Unicode code points, as Python's are.
 */
module PyStrings {

  datatype Option<+T> = None | Some(value: T)

  /** `sub` occurs in `s` starting at index `i`. */
  predicate OccursAt(s: string, sub: string, i: int) {
    0 <= i <= |s| - |sub| && s[i..i + |sub|] == sub
  }

  /** Python's `sub in s`. */
  predicate Contains(s: string, sub: string) {
    exists i | 0 <= i <= |s| - |sub| :: OccursAt(s, sub, i)
  }

  /** Python's `s.startswith(p)`. */
  predicate StartsWith(s: string, p: string) {
    |p| <= |s| && s[..|p|] == p
  }

  /** Python's `s.endswith(p)`. */
  predicate EndsWith(s: string, p: string) {
    |p| <= |s| && s[|s| - |p|..] == p
  }

  /** Python's `s.find(sub, start)`: the first occurrence at or after `start`. */
  function FindFrom(s: string, sub: string, start: nat): (r: Option<nat>)
    decreases |s| - start
    ensures r.Some? ==> start <= r.value && OccursAt(s, sub, r.value)
    ensures r.Some? ==> forall j | start <= j < r.value :: !OccursAt(s, sub, j)
    ensures r.None? ==> forall j | start <= j :: !OccursAt(s, sub, j)
  {
    if start + |sub| > |s| then None
    else if s[start..start + |sub|] == sub then Some(start)
    else FindFrom(s, sub, start + 1)
  }

  /** Python's `s.find(sub)`. */
  function Find(s: string, sub: string): (r: Option<nat>)
    ensures r.Some? <==> Contains(s, sub)
    ensures r.Some? ==> OccursAt(s, sub, r.value) && forall j | 0 <= j < r.value :: !OccursAt(s, sub, j)
  {
    FindFrom(s, sub, 0)
  }

  /**
   * Python's `s.split(sep)` for a non-empty separator: the pieces between the
   * matches found left to right, without overlap.  (Python raises ValueError
   * on an empty separator; every caller passes a literal one.)
   */
  function Split(s: string, sep: string): (parts: seq<string>)
    requires |sep| > 0
    decreases |s|
    ensures |parts| >= 1
  {
    match Find(s, sep)
    case None => [s]
    case Some(i) => [s[..i]] + Split(s[i + |sep|..], sep)
  }

  /** A split has more than one piece exactly when `s` holds the separator. */
  lemma SplitCount(s: string, sep: string)
    requires |sep| > 0
    ensures Contains(s, sep) <==> |Split(s, sep)| >= 2
  {
    if Find(s, sep).Some? {
      assert |Split(s, sep)| == 1 + |Split(s[Find(s, sep).value + |sep|..], sep)|;
    }
  }

  /** No piece of a split holds the separator. */
  lemma {:induction false} SplitPieces(s: string, sep: string)
    requires |sep| > 0
    decreases |s|
    ensures forall k | 0 <= k < |Split(s, sep)| :: !Contains(Split(s, sep)[k], sep)
  {
    var f := Find(s, sep);
    if f.Some? {
      var i := f.value;
      var head := s[..i];
      var rest := s[i + |sep|..];
      SplitPieces(rest, sep);
      assert Split(s, sep) == [head] + Split(rest, sep);
      forall j | 0 <= j <= |head| - |sep| ensures !OccursAt(head, sep, j) {
        assert !OccursAt(s, sep, j);
        assert head[j..j + |sep|] == s[j..j + |sep|];
      }
    }
  }

  /** The last element of a non-empty sequence (Python's `xs[-1]`). */
  function Last<T>(xs: seq<T>): T
    requires |xs| > 0
  {
    xs[|xs| - 1]
  }

  /** Python's `sep.join(parts)`. */
  function Join(parts: seq<string>, sep: string): string
    decreases |parts|
  {
    if |parts| == 0 then ""
    else if |parts| == 1 then parts[0]
    else parts[0] + sep + Join(parts[1..], sep)
  }

  /** Joining the pieces of a split puts the string back together. */
  lemma {:induction false} JoinSplit(s: string, sep: string)
    requires |sep| > 0
    ensures Join(Split(s, sep), sep) == s
    decreases |s|
  {
    var f := Find(s, sep);
    if f.Some? {
      var i := f.value;
      var rest := s[i + |sep|..];
      var tail := Split(rest, sep);
      JoinSplit(rest, sep);
      assert Split(s, sep) == [s[..i]] + tail;
      JoinCons(s[..i], tail, sep);
      assert s == s[..i] + s[i..i + |sep|] + rest;
    }
  }

  lemma JoinCons(head: string, tail: seq<string>, sep: string)
    requires |tail| > 0
    ensures Join([head] + tail, sep) == head + sep + Join(tail, sep)
  {
    assert ([head] + tail)[1..] == tail;
  }

  /** Joining two non-empty runs of lines. */
  lemma {:induction false} JoinAppend(xs: seq<string>, ys: seq<string>, sep: string)
    requires |xs| > 0 && |ys| > 0
    ensures Join(xs + ys, sep) == Join(xs, sep) + sep + Join(ys, sep)
    decreases |xs|
  {
    if |xs| == 1 {
      assert (xs + ys)[1..] == ys;
    } else {
      assert (xs + ys)[1..] == xs[1..] + ys;
      JoinAppend(xs[1..], ys, sep);
    }
  }

  /** Characters Python's `str.isspace()`, `\s` and `strip()` treat as whitespace. */
  predicate IsSpace(c: char) {
    var n := c as int;
    (9 <= n <= 13) || (28 <= n <= 32) || n == 0x85 || n == 0xA0 || n == 0x1680
    || (0x2000 <= n <= 0x200A) || n == 0x2028 || n == 0x2029 || n == 0x202F
    || n == 0x205F || n == 0x3000
  }

  /** Number of whitespace characters at the front of `s`. */
  function LeadingSpaces(s: string): (n: nat)
    ensures n <= |s|
    ensures forall k | 0 <= k < n :: IsSpace(s[k])
    ensures n < |s| ==> !IsSpace(s[n])
  {
    if |s| > 0 && IsSpace(s[0]) then 1 + LeadingSpaces(s[1..]) else 0
  }

  /** Number of whitespace characters at the end of `s`. */
  function TrailingSpaces(s: string): (n: nat)
    ensures n <= |s|
    ensures forall k | |s| - n <= k < |s| :: IsSpace(s[k])
    ensures n < |s| ==> !IsSpace(s[|s| - n - 1])
  {
    if |s| > 0 && IsSpace(s[|s| - 1]) then 1 + TrailingSpaces(s[..|s| - 1]) else 0
  }

  /** Python's `s.strip()`. */
  function Strip(s: string): (r: string)
    ensures exists a, b | 0 <= a <= b <= |s| ::
              (r == s[a..b]
               && (forall k | 0 <= k < a :: IsSpace(s[k]))
               && (forall k | b <= k < |s| :: IsSpace(s[k])))
    ensures |r| > 0 ==> !IsSpace(r[0]) && !IsSpace(r[|r| - 1])
  {
    var a := LeadingSpaces(s);
    if a == |s| then
      assert s[a..a] == "";
      ""
    else
      var b := |s| - TrailingSpaces(s);
      assert !IsSpace(s[a]);
      s[a..b]
  }

  /** ASCII lower-casing of one character. */
  function LowerChar(c: char): char {
    if 'A' <= c <= 'Z' then (c as int + 32) as char else c
  }

  /**
   * `s.lower() == word` for an all-lower-case ASCII `word`.  Python lower-cases
   * non-ASCII letters too, but no non-ASCII character lower-cases to the ASCII
   * letters of "true" or "false", so comparing per character is exact here.
   */
  predicate LowerEquals(s: string, word: string) {
    |s| == |word| && forall k | 0 <= k < |s| :: LowerChar(s[k]) == word[k]
  }

  /** No occurrence of `sub` can start where its first two characters do not. */
  lemma NoPair(s: string, sub: string)
    requires |sub| >= 2
    requires forall i | 0 <= i < |s| - 1 :: !(s[i] == sub[0] && s[i + 1] == sub[1])
    ensures !Contains(s, sub)
  {
    forall i | 0 <= i <= |s| - |sub| ensures !OccursAt(s, sub, i) {
      assert s[i..i + |sub|][0] == s[i] && s[i..i + |sub|][1] == s[i + 1];
    }
  }

  /** No occurrence of `sub` can start where its first character and its character `k` do not both match. */
  lemma NoPairAt(s: string, sub: string, k: nat)
    requires 1 <= k < |sub|
    requires forall i | 0 <= i < |s| - k :: !(s[i] == sub[0] && s[i + k] == sub[k])
    ensures !Contains(s, sub)
  {
    forall i | 0 <= i <= |s| - |sub| ensures !OccursAt(s, sub, i) {
      assert s[i..i + |sub|][0] == s[i] && s[i..i + |sub|][k] == s[i + k];
    }
  }

  /** A string lacking one of `sub`'s characters does not contain `sub`. */
  lemma NoChar(s: string, sub: string, k: nat)
    requires k < |sub|
    requires forall i | 0 <= i < |s| :: s[i] != sub[k]
    ensures !Contains(s, sub)
  {
    forall i | 0 <= i <= |s| - |sub| ensures !OccursAt(s, sub, i) {
      assert s[i..i + |sub|][k] == s[i + k];
    }
  }

  /** A string that does not contain `sub` contains no extension of it. */
  lemma NotExtended(s: string, sub: string, rest: string)
    requires !Contains(s, sub)
    ensures !Contains(s, sub + rest)
  {
    forall i | 0 <= i <= |s| - |sub + rest| ensures !OccursAt(s, sub + rest, i) {
      if OccursAt(s, sub + rest, i) {
        assert s[i..i + |sub|] == (sub + rest)[..|sub|] == sub;
        assert OccursAt(s, sub, i);
      }
    }
  }

  lemma EndsWithAppend(a: string, b: string)
    ensures EndsWith(a + b, b)
  {
    assert (a + b)[|a|..] == b;
  }

  lemma EndsWithTrans(s: string, t: string, u: string)
    requires EndsWith(s, t) && EndsWith(t, u)
    ensures EndsWith(s, u)
  {
    assert s[|s| - |u|..] == s[|s| - |t|..][|t| - |u|..];
  }

  lemma JoinSingle(x: string, sep: string)
    ensures Join([x], sep) == x
  {
  }

  /** A join of two or more parts ends with the separator and the last part. */
  lemma JoinLast(parts: seq<string>, sep: string)
    requires |parts| >= 2
    ensures EndsWith(Join(parts, sep), sep + Last(parts))
  {
    var init := parts[..|parts| - 1];
    var last := Last(parts);
    assert init + [last] == parts;
    JoinAppend(init, [last], sep);
    JoinSingle(last, sep);
    EndsWithAppend(Join(init, sep), sep + last);
    assert Join(init, sep) + sep + last == Join(init, sep) + (sep + last);
  }

  /**
   * The last piece of a split ends the string and, when the string holds the
   * separator, follows an occurrence of it.
   */
  lemma SplitLast(s: string, sep: string)
    requires |sep| > 0
    ensures EndsWith(s, Last(Split(s, sep)))
    ensures Contains(s, sep) ==> EndsWith(s, sep + Last(Split(s, sep)))
  {
    JoinSplit(s, sep);
    SplitCount(s, sep);
    if Contains(s, sep) {
      JoinLast(Split(s, sep), sep);
      EndsWithTrans(s, sep + Last(Split(s, sep)), Last(Split(s, sep)));
    } else {
      assert Find(s, sep).None?;
    }
  }
}
