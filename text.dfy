/** String helpers shared by the whole model: the JavaScript string operations the
    pages call (`trim`, `toLowerCase`, `includes`, `split(c)[0]`, `replace(/\D/g, '')`)
    and the character classes `\s` and `\d` of JavaScript regular expressions. */
module Text {

  /** JavaScript's `\s`: the WhiteSpace and LineTerminator code points. `String.prototype.trim`
      strips exactly the same set. */
  predicate IsSpace(c: char) {
    || c == ' ' || c == '\t' || c == '\n' || c == '\r' || c == '\U{000B}' || c == '\U{000C}'
    || c == '\U{00A0}' || c == '\U{1680}' || ('\U{2000}' <= c <= '\U{200A}')
    || c == '\U{2028}' || c == '\U{2029}' || c == '\U{202F}' || c == '\U{205F}'
    || c == '\U{3000}' || c == '\U{FEFF}'
  }

  /** JavaScript's `\d`: the ASCII digits only. */
  predicate IsDigit(c: char) {
    '0' <= c <= '9'
  }

  predicate NoSpace(s: string) {
    forall i :: 0 <= i < |s| ==> !IsSpace(s[i])
  }

  predicate AllSpace(s: string) {
    forall i :: 0 <= i < |s| ==> IsSpace(s[i])
  }

  predicate AllDigits(s: string) {
    forall i :: 0 <= i < |s| ==> IsDigit(s[i])
  }

  // ---------------------------------------------------------------------------
  // toLowerCase (ASCII letters only)

  function LowerChar(c: char): char {
    if 'A' <= c <= 'Z' then (c as int + 32) as char else c
  }

  /** `toLowerCase`, restricted to the ASCII letters. */
  function ToLower(s: string): string {
    seq(|s|, i requires 0 <= i < |s| => LowerChar(s[i]))
  }

  predicate IsLower(s: string) {
    forall i :: 0 <= i < |s| ==> !('A' <= s[i] <= 'Z')
  }

  lemma ToLowerIsLower(s: string)
    ensures IsLower(ToLower(s)) && |ToLower(s)| == |s|
  {
  }

  /** Lower-casing a string that holds no upper-case letter changes nothing. */
  lemma ToLowerOfLower(s: string)
    requires IsLower(s)
    ensures ToLower(s) == s
  {
  }

  lemma ToLowerSpace(s: string)
    ensures forall i :: 0 <= i < |s| ==> (IsSpace(ToLower(s)[i]) <==> IsSpace(s[i]))
  {
  }

  // ---------------------------------------------------------------------------
  // trim

  /** The length of the white space `s` starts with. */
  function LeadingSpaces(s: string): (n: nat)
    ensures n <= |s|
  {
    if |s| > 0 && IsSpace(s[0]) then 1 + LeadingSpaces(s[1..]) else 0
  }

  /** The length of the white space `s` ends with. */
  function TrailingSpaces(s: string): (n: nat)
    ensures n <= |s|
  {
    if |s| > 0 && IsSpace(s[|s| - 1]) then 1 + TrailingSpaces(s[..|s| - 1]) else 0
  }

  /** What `LeadingSpaces` counts is white space, and the character after it is not. */
  lemma {:induction false} LeadingSpacesFacts(s: string)
    ensures AllSpace(s[..LeadingSpaces(s)])
    ensures LeadingSpaces(s) < |s| ==> !IsSpace(s[LeadingSpaces(s)])
    decreases |s|
  {
    if |s| > 0 && IsSpace(s[0]) {
      LeadingSpacesFacts(s[1..]);
      var n := LeadingSpaces(s[1..]);
      forall i | 0 <= i < n + 1 ensures IsSpace(s[i]) {
        if i > 0 {
          assert s[i] == s[1..][..n][i - 1];
        }
      }
      assert s[n + 1..] == s[1..][n..];
    }
  }

  /** What `TrailingSpaces` counts is white space, and the character before it is not. */
  lemma {:induction false} TrailingSpacesFacts(s: string)
    ensures AllSpace(s[|s| - TrailingSpaces(s)..])
    ensures TrailingSpaces(s) < |s| ==> !IsSpace(s[|s| - TrailingSpaces(s) - 1])
    decreases |s|
  {
    if |s| > 0 && IsSpace(s[|s| - 1]) {
      var t := s[..|s| - 1];
      TrailingSpacesFacts(t);
      var n := TrailingSpaces(t);
      forall i | |s| - n - 1 <= i < |s| ensures IsSpace(s[i]) {
        if i < |s| - 1 {
          assert s[i] == t[|t| - n..][i - (|t| - n)];
        }
      }
      if n + 1 < |s| {
        assert s[|s| - n - 2] == t[|t| - n - 1];
      }
    }
  }

  /** `trimStart`. */
  function TrimStart(s: string): string {
    s[LeadingSpaces(s)..]
  }

  /** `trimEnd`. */
  function TrimEnd(s: string): string {
    s[..|s| - TrailingSpaces(s)]
  }

  /** `String.prototype.trim`. */
  function Trim(s: string): string {
    TrimEnd(TrimStart(s))
  }

  /** What `trim` returns neither starts nor ends with white space. */
  lemma TrimTrimmed(s: string)
    ensures Trimmed(Trim(s))
  {
    var t := TrimStart(s);
    var r := Trim(s);
    LeadingSpacesFacts(s);
    TrailingSpacesFacts(t);
    if r != [] {
      assert r[0] == t[0] == s[LeadingSpaces(s)];
      assert r[|r| - 1] == t[|t| - TrailingSpaces(t) - 1];
    }
  }

  /** `LeadingSpaces` spans the whole string exactly when it is all white space. */
  lemma {:induction false} LeadingSpacesAll(s: string)
    ensures LeadingSpaces(s) == |s| <==> AllSpace(s)
    decreases |s|
  {
    if s != [] {
      if IsSpace(s[0]) {
        LeadingSpacesAll(s[1..]);
        assert AllSpace(s) <==> AllSpace(s[1..]) by {
          if AllSpace(s[1..]) {
            forall i | 0 < i < |s| ensures IsSpace(s[i]) {
              assert s[i] == s[1..][i - 1];
            }
          }
        }
      } else {
        assert !AllSpace(s) by {
          assert !IsSpace(s[0]);
        }
      }
    }
  }

  /** `TrailingSpaces` spans the whole string exactly when it is all white space. */
  lemma {:induction false} TrailingSpacesAll(s: string)
    ensures TrailingSpaces(s) == |s| <==> AllSpace(s)
    decreases |s|
  {
    if s != [] {
      var t := s[..|s| - 1];
      if IsSpace(s[|s| - 1]) {
        TrailingSpacesAll(t);
        assert AllSpace(s) <==> AllSpace(t) by {
          if AllSpace(t) {
            forall i | 0 <= i < |s| - 1 ensures IsSpace(s[i]) {
              assert s[i] == t[i];
            }
          }
        }
      } else {
        assert !AllSpace(s) by {
          assert !IsSpace(s[|s| - 1]);
        }
      }
    }
  }

  /** The input is blank (`!s.trim()`) exactly when every character of it is white space. */
  lemma TrimEmptyIffAllSpace(s: string)
    ensures Trim(s) == [] <==> AllSpace(s)
  {
    var n := LeadingSpaces(s);
    var t := TrimStart(s);
    LeadingSpacesAll(s);
    if n == |s| {
      assert t == [];
    } else {
      LeadingSpacesFacts(s);
      TrailingSpacesAll(t);
      assert !AllSpace(t) by {
        assert !IsSpace(t[0]);
      }
      assert |Trim(s)| == |t| - TrailingSpaces(t) > 0;
    }
  }

  /** Text after a non-blank string leaves it non-blank. */
  lemma NonBlankExtended(s: string, t: string)
    requires Trim(s) != []
    ensures Trim(s + t) != []
  {
    TrimEmptyIffAllSpace(s);
    TrimEmptyIffAllSpace(s + t);
    var i :| 0 <= i < |s| && !IsSpace(s[i]);
    assert (s + t)[i] == s[i];
  }

  /** Neither starts nor ends with white space. */
  predicate Trimmed(s: string) {
    s != [] ==> !IsSpace(s[0]) && !IsSpace(s[|s| - 1])
  }

  /** Trimming a string that neither starts nor ends with white space changes nothing. */
  lemma TrimFixed(s: string)
    requires Trimmed(s)
    ensures Trim(s) == s
  {
    assert s[0..] == s;
    assert s[..|s|] == s;
  }

  /** What `trim` returns is trimmed, so trimming twice is trimming once. */
  lemma TrimIdempotent(s: string)
    ensures Trimmed(Trim(s)) && Trim(Trim(s)) == Trim(s)
  {
    TrimTrimmed(s);
    TrimFixed(Trim(s));
  }

  // ---------------------------------------------------------------------------
  // includes

  predicate StartsWith(s: string, p: string) {
    |p| <= |s| && s[..|p|] == p
  }

  /** `s.includes(p)`, as a left-to-right scan over the start positions. */
  predicate Contains(s: string, p: string)
    decreases |s|
  {
    StartsWith(s, p) || (|s| > 0 && Contains(s[1..], p))
  }

  /** `p` occurs in `s` starting at position `k`. */
  predicate OccursAt(s: string, p: string, k: int) {
    0 <= k <= |s| - |p| && s[k..k + |p|] == p
  }

  /** The scan finds `p` exactly when `p` occurs in `s` at some position. */
  lemma {:induction false} ContainsIff(s: string, p: string)
    ensures Contains(s, p) <==> exists k :: OccursAt(s, p, k)
    decreases |s|
  {
    if StartsWith(s, p) {
      assert OccursAt(s, p, 0);
    } else if |s| > 0 {
      ContainsIff(s[1..], p);
      if Contains(s[1..], p) {
        var k :| OccursAt(s[1..], p, k);
        assert s[k + 1..k + 1 + |p|] == s[1..][k..k + |p|];
        assert OccursAt(s, p, k + 1);
      } else if exists k :: OccursAt(s, p, k) {
        var k :| OccursAt(s, p, k);
        assert k != 0;
        assert s[1..][k - 1..k - 1 + |p|] == s[k..k + |p|];
        assert OccursAt(s[1..], p, k - 1);
      }
    }
  }

  /** A string contains each of its own prefixes. */
  lemma ContainsPrefix(s: string, p: string)
    requires StartsWith(s, p)
    ensures Contains(s, p)
  {
  }

  /** Occurrence survives extending the string on either side. */
  lemma ContainsInConcat(a: string, s: string, b: string, p: string)
    requires Contains(s, p)
    ensures Contains(a + s + b, p)
  {
    ContainsIff(s, p);
    var k :| OccursAt(s, p, k);
    var t := a + s + b;
    assert t[|a| + k..|a| + k + |p|] == s[k..k + |p|];
    assert OccursAt(t, p, |a| + k);
    ContainsIff(t, p);
  }

  /** A pattern holding a character the string lacks never occurs in it. */
  lemma MissingChar(s: string, p: string, i: int)
    requires 0 <= i < |p| && p[i] !in s
    ensures !Contains(s, p)
  {
    ContainsIff(s, p);
  }

  /** A pattern longer than the string never occurs in it. */
  lemma ContainsTooLong(s: string, p: string)
    requires |s| < |p|
    ensures !Contains(s, p)
  {
    ContainsIff(s, p);
  }

  // ---------------------------------------------------------------------------
  // split(c)[0] and replace(/\D/g, '')

  /** `s.split(c)[0]`: the longest prefix of `s` free of `c`. */
  function Before(s: string, c: char): (r: string)
    ensures |r| <= |s| && r == s[..|r|]
    ensures c !in r
    ensures |r| < |s| ==> s[|r|] == c
  {
    if s == [] || s[0] == c then [] else [s[0]] + Before(s[1..], c)
  }

  /** `Before` of a string that begins with a `c`-free part `h` followed by `c`. */
  lemma {:induction false} BeforeOfConcat(h: string, c: char, rest: string)
    requires c !in h
    ensures Before(h + [c] + rest, c) == h
    decreases |h|
  {
    if h != [] {
      assert (h + [c] + rest)[1..] == h[1..] + [c] + rest;
      BeforeOfConcat(h[1..], c, rest);
    }
  }

  /** `s.replace(/\D/g, '')`: the digits of `s`, in order. */
  function Digits(s: string): (r: string)
    ensures AllDigits(r) && |r| <= |s|
  {
    if s == [] then [] else (if IsDigit(s[0]) then [s[0]] else []) + Digits(s[1..])
  }

  /** The digit filter keeps every digit of `s` as often as `s` holds it, and nothing else. */
  lemma {:induction false} DigitsKeepsDigits(s: string)
    ensures forall c :: c in Digits(s) <==> c in s && IsDigit(c)
    ensures forall c :: IsDigit(c) ==> multiset(Digits(s))[c] == multiset(s)[c]
    decreases |s|
  {
    if s != [] {
      DigitsKeepsDigits(s[1..]);
      var head := if IsDigit(s[0]) then [s[0]] else [];
      assert s == [s[0]] + s[1..];
      assert Digits(s) == head + Digits(s[1..]);
    }
  }

  /** The digit filter works piece by piece, so it keeps the digits in their order. */
  lemma {:induction false} DigitsConcat(a: string, b: string)
    ensures Digits(a + b) == Digits(a) + Digits(b)
    decreases |a|
  {
    if a != [] {
      assert (a + b)[1..] == a[1..] + b;
      DigitsConcat(a[1..], b);
    } else {
      assert a + b == b;
    }
  }

  /** The number of positions of `s` that hold a digit, counted from the end. */
  function DigitCount(s: string): nat
    decreases |s|
  {
    if s == [] then 0 else DigitCount(s[..|s| - 1]) + (if IsDigit(s[|s| - 1]) then 1 else 0)
  }

  /** The digit filter keeps one character per digit position. */
  lemma {:induction false} DigitsLength(s: string)
    ensures |Digits(s)| == DigitCount(s)
    decreases |s|
  {
    if s != [] {
      var init, last := s[..|s| - 1], s[|s| - 1];
      assert s == init + [last];
      DigitsConcat(init, [last]);
      DigitsLength(init);
      assert Digits([last]) == (if IsDigit(last) then [last] else []) + Digits([]);
    }
  }

  /** A string of digits is its own digit string. */
  lemma {:induction false} DigitsOfDigits(s: string)
    requires AllDigits(s)
    ensures Digits(s) == s
    decreases |s|
  {
    if s != [] {
      DigitsOfDigits(s[1..]);
    }
  }
}
