/** Character-level models of the Python string operations the request handler
    relies on: `str.strip()` without arguments, `str.lower()`, `str.replace()` of
    one character by another, and the substring test `t in s`. */
module PyText {

  /** The characters for which Python's `str.isspace()` holds; `str.strip()`
      without arguments removes exactly these from both ends. */
  predicate IsSpace(c: char) {
    || ('\t' <= c <= '\r')
    || ('\U{1C}' <= c <= '\U{1F}')
    || c == ' ' || c == '\U{85}' || c == '\U{A0}' || c == '\U{1680}'
    || ('\U{2000}' <= c <= '\U{200A}')
    || c == '\U{2028}' || c == '\U{2029}' || c == '\U{202F}' || c == '\U{205F}'
    || c == '\U{3000}'
  }

  ghost predicate AllSpace(s: string) {
    forall k :: 0 <= k < |s| ==> IsSpace(s[k])
  }

  /** The number of whitespace characters `str.lstrip()` removes. */
  function LeadingSpaces(s: string): (n: nat)
    ensures n <= |s|
    ensures forall k :: 0 <= k < n ==> IsSpace(s[k])
    ensures n < |s| ==> !IsSpace(s[n])
  {
    if s == [] || !IsSpace(s[0]) then 0 else 1 + LeadingSpaces(s[1..])
  }

  /** The number of whitespace characters `str.rstrip()` removes. */
  function TrailingSpaces(s: string): (n: nat)
    ensures n <= |s|
    ensures forall k :: |s| - n <= k < |s| ==> IsSpace(s[k])
    ensures n < |s| ==> !IsSpace(s[|s| - 1 - n])
  {
    if s == [] || !IsSpace(s[|s| - 1]) then 0 else 1 + TrailingSpaces(s[..|s| - 1])
  }

  /** Python's `s.strip()`: the longest run of `s` that neither starts nor ends
      with whitespace, once the whitespace around it is removed. */
  function Strip(s: string): (r: string)
    ensures LeadingSpaces(s) + |r| <= |s|
    ensures r == s[LeadingSpaces(s)..LeadingSpaces(s) + |r|]
    ensures forall k :: LeadingSpaces(s) + |r| <= k < |s| ==> IsSpace(s[k])
    ensures r != [] ==> !IsSpace(r[0]) && !IsSpace(r[|r| - 1])
  {
    var t := s[LeadingSpaces(s)..];
    t[..|t| - TrailingSpaces(t)]
  }

  /** Whatever whitespace surrounds a text that neither starts nor ends with
      whitespace, stripping gives back exactly that text. */
  lemma {:induction false} StripRemovesExactlyTheSurroundingSpace(a: string, r: string, b: string)
    requires AllSpace(a) && AllSpace(b)
    requires r != [] ==> !IsSpace(r[0]) && !IsSpace(r[|r| - 1])
    ensures Strip(a + r + b) == r
  {
    var s := a + r + b;
    var n := LeadingSpaces(s);
    if r == [] {
      assert s == a + b;
      assert n == |s|;
    } else {
      assert s[|a|] == r[0];
      assert n == |a|;
      var t := s[n..];
      assert t == r + b;
      var m := TrailingSpaces(t);
      assert t[|t| - 1 - |b|] == r[|r| - 1];
      assert m == |b|;
      assert t[..|t| - m] == r;
    }
  }

  /** Stripping twice is the same as stripping once. */
  lemma StripIsIdempotent(s: string)
    ensures Strip(Strip(s)) == Strip(s)
  {
  }

  /** A model of Python's character case mapping used by `str.lower()`. */
  type CaseMap = char -> char

  /** The properties of Python's lowercase mapping the handler depends on: it is
      idempotent, it maps the ASCII capitals to the ASCII small letters, and it
      leaves the small letters, the space and the underscore alone. */
  ghost predicate IsCaseMap(lower: CaseMap) {
    && (forall c {:trigger lower(lower(c))} :: lower(lower(c)) == lower(c))
    && (forall c :: 'A' <= c <= 'Z' ==> lower(c) == (c as int + 32) as char)
    && (forall c :: 'a' <= c <= 'z' ==> lower(c) == c)
    && lower(' ') == ' '
    && lower('_') == '_'
  }

  /** `s.lower()`, one character at a time. */
  function Lower(lower: CaseMap, s: string): (r: string)
    ensures |r| == |s|
    ensures forall k :: 0 <= k < |s| ==> r[k] == lower(s[k])
  {
    seq(|s|, k requires 0 <= k < |s| => lower(s[k]))
  }

  /** `s.replace(from, to)` for one-character `from` and `to`. */
  function ReplaceChar(s: string, from: char, to: char): (r: string)
    ensures |r| == |s|
    ensures forall k :: 0 <= k < |s| ==> r[k] == if s[k] == from then to else s[k]
  {
    seq(|s|, k requires 0 <= k < |s| => if s[k] == from then to else s[k])
  }

  predicate IsPrefix(t: string, s: string) {
    |t| <= |s| && s[..|t|] == t
  }

  /** Python's `t in s` for strings. The empty string is found in every
      string, a prefix is found, and nothing longer than `s` is found. */
  predicate Contains(s: string, t: string)
    ensures t == [] ==> Contains(s, t)
    ensures IsPrefix(t, s) ==> Contains(s, t)
    ensures Contains(s, t) ==> |t| <= |s|
    decreases |s|
  {
    IsPrefix(t, s) || (s != [] && Contains(s[1..], t))
  }

  /** `t` occurs in `s` starting at index `i`. */
  ghost predicate OccursAt(s: string, t: string, i: int) {
    0 <= i && i + |t| <= |s| && s[i..i + |t|] == t
  }

  /** The recursive substring test agrees with the index-based definition. */
  lemma {:induction false} ContainsIffOccurs(s: string, t: string)
    ensures Contains(s, t) <==> exists i :: OccursAt(s, t, i)
    decreases |s|
  {
    if IsPrefix(t, s) {
      assert s[0..|t|] == s[..|t|];
      assert OccursAt(s, t, 0);
    } else if s == [] {
      assert !exists i :: OccursAt(s, t, i);
    } else {
      ContainsIffOccurs(s[1..], t);
      if Contains(s[1..], t) {
        var i :| OccursAt(s[1..], t, i);
        assert s[1..][i..i + |t|] == s[i + 1..i + 1 + |t|];
        assert OccursAt(s, t, i + 1);
      } else {
        forall j | 0 < j && OccursAt(s, t, j) ensures OccursAt(s[1..], t, j - 1) {
          assert s[1..][j - 1..j - 1 + |t|] == s[j..j + |t|];
        }
        assert !OccursAt(s, t, 0) by {
          if |t| <= |s| {
            assert s[..|t|] == s[0..|t|];
          }
        }
      }
    }
  }

  /** For a one-character string, Python's substring test `c in s` is
      membership of the character. */
  lemma CharInIffContains(s: string, c: char)
    ensures c in s <==> Contains(s, [c])
  {
    ContainsIffOccurs(s, [c]);
    if c in s {
      var i :| 0 <= i < |s| && s[i] == c;
      assert OccursAt(s, [c], i);
    }
    if Contains(s, [c]) {
      var i :| OccursAt(s, [c], i);
      assert s[i] == s[i..i + 1][0];
    }
  }

  /** Lowercasing both sides keeps a substring a substring: this is what makes
      the tests on lowercased text insensitive to case. */
  lemma LowerPreservesContains(lower: CaseMap, s: string, t: string)
    requires Contains(s, t)
    ensures Contains(Lower(lower, s), Lower(lower, t))
  {
    ContainsIffOccurs(s, t);
    var i :| OccursAt(s, t, i);
    var ls, lt := Lower(lower, s), Lower(lower, t);
    assert ls[i..i + |t|] == lt by {
      forall k | 0 <= k < |t| ensures ls[i..i + |t|][k] == lt[k] {
        assert s[i..i + |t|][k] == t[k];
      }
    }
    assert OccursAt(ls, lt, i);
    ContainsIffOccurs(ls, lt);
  }
}
