/**
 * The JavaScript string operations the dashboard relies on, written out over
 * `seq<char>`: `startsWith`, `endsWith`, `includes`, `trim`, `toLowerCase`
 * (ASCII letters only), `slice(-n)` and `length` (counted in UTF-16 code units,
 * as JavaScript counts it).
 */
module JsText {

  /** `s.startsWith(p)` */
  predicate StartsWith(s: string, p: string) {
    |p| <= |s| && s[..|p|] == p
  }

  /** `s.endsWith(p)` */
  predicate EndsWith(s: string, p: string) {
    |p| <= |s| && s[|s| - |p|..] == p
  }

  /** `pat` occurs in `s` starting at index `i`. */
  predicate OccursAt(s: string, pat: string, i: nat) {
    i + |pat| <= |s| && s[i..i + |pat|] == pat
  }

  /** `s.includes(pat)`, scanning from the left. */
  predicate Contains(s: string, pat: string)
    decreases |s|
  {
    StartsWith(s, pat) || (|s| > 0 && Contains(s[1..], pat))
  }

  lemma {:induction false} ContainsIff(s: string, pat: string)
    ensures Contains(s, pat) <==> exists i: nat :: OccursAt(s, pat, i)
    decreases |s|
  {
    if StartsWith(s, pat) {
      assert OccursAt(s, pat, 0);
    } else if |s| == 0 {
    } else {
      ContainsIff(s[1..], pat);
      if Contains(s[1..], pat) {
        var i: nat :| OccursAt(s[1..], pat, i);
        assert s[i + 1..i + 1 + |pat|] == s[1..][i..i + |pat|];
        assert OccursAt(s, pat, i + 1);
      } else {
        forall i: nat | OccursAt(s, pat, i) ensures false {
          assert i != 0;
          assert s[1..][i - 1..i - 1 + |pat|] == s[i..i + |pat|];
          assert OccursAt(s[1..], pat, i - 1);
        }
      }
    }
  }

  /** A text contains every part it is concatenated from. */
  lemma ContainsMiddle(a: string, b: string, c: string)
    ensures Contains(a + b + c, b)
  {
    var s := a + b + c;
    assert s[|a|..|a| + |b|] == b;
    assert OccursAt(s, b, |a|);
    ContainsIff(s, b);
  }

  /** A text contains what it starts with. */
  lemma ContainsPrefix(a: string, b: string)
    ensures Contains(a + b, a)
  {
    assert (a + b)[..|a|] == a;
  }

  /** Text added on either side keeps what a text contains. */
  lemma ContainsWithin(a: string, s: string, c: string, pat: string)
    requires Contains(s, pat)
    ensures Contains(a + s + c, pat)
  {
    ContainsIff(s, pat);
    var k: nat :| OccursAt(s, pat, k);
    var t := a + s + c;
    forall m | 0 <= m < |pat| ensures t[|a| + k + m] == pat[m] {
      assert t[|a| + k + m] == s[k + m];
      assert s[k..k + |pat|][m] == s[k + m];
    }
    assert t[|a| + k..|a| + k + |pat|] == pat;
    assert OccursAt(t, pat, |a| + k);
    ContainsIff(t, pat);
  }

  lemma ContainsAfter(a: string, s: string, pat: string)
    requires Contains(s, pat)
    ensures Contains(a + s, pat)
  {
    ContainsWithin(a, s, "", pat);
    assert a + s + "" == a + s;
  }

  /** A text containing `pat` also contains every part of `pat`. */
  lemma ContainsPart(s: string, pat: string, i: nat, j: nat)
    requires i <= j <= |pat|
    requires Contains(s, pat)
    ensures Contains(s, pat[i..j])
  {
    ContainsIff(s, pat);
    var k: nat :| OccursAt(s, pat, k);
    forall m | 0 <= m < j - i ensures pat[i..j][m] == s[k + i..k + j][m] {
      assert pat[i + m] == s[k..k + |pat|][i + m];
    }
    assert pat[i..j] == s[k + i..k + j];
    assert OccursAt(s, pat[i..j], k + i);
    ContainsIff(s, pat[i..j]);
  }

  /** `toLowerCase` on one character, for the ASCII range. */
  function LowerChar(c: char): char {
    if 'A' <= c <= 'Z' then (c as int + 32) as char else c
  }

  /** `s.toLowerCase()`, restricted to ASCII letters. */
  function ToLower(s: string): (r: string)
    ensures |r| == |s|
    ensures forall i :: 0 <= i < |s| ==> r[i] == LowerChar(s[i])
  {
    if s == [] then [] else [LowerChar(s[0])] + ToLower(s[1..])
  }

  /** Lower-casing works character by character, so it distributes over `+`. */
  lemma ToLowerAppend(a: string, b: string)
    ensures ToLower(a + b) == ToLower(a) + ToLower(b)
  {
  }

  /** Lower-casing keeps every occurrence, lower-cased. */
  lemma ToLowerContains(s: string, pat: string)
    requires Contains(s, pat)
    ensures Contains(ToLower(s), ToLower(pat))
  {
    ContainsIff(s, pat);
    var i: nat :| OccursAt(s, pat, i);
    ToLowerOccurs(s, pat, i);
    OccursContains(ToLower(s), ToLower(pat), i);
  }

  lemma ToLowerOccurs(s: string, pat: string, i: nat)
    requires OccursAt(s, pat, i)
    ensures OccursAt(ToLower(s), ToLower(pat), i)
  {
    forall m | 0 <= m < |pat| ensures ToLower(s)[i + m] == ToLower(pat)[m] {
      assert s[i..i + |pat|][m] == s[i + m];
    }
    assert ToLower(s)[i..i + |pat|] == ToLower(pat);
  }

  /** An occurrence at any position makes the text contain the pattern. */
  lemma OccursContains(s: string, pat: string, i: nat)
    requires OccursAt(s, pat, i)
    ensures Contains(s, pat)
  {
    ContainsIff(s, pat);
  }

  /**
   * The characters `String.prototype.trim` removes: the ECMAScript WhiteSpace
   * and LineTerminator code points.
   */
  predicate IsSpace(c: char) {
    c == '\t' || c == '\n' || c == '\U{000B}' || c == '\U{000C}' || c == '\r' || c == ' '
    || c == '\U{00A0}' || c == '\U{1680}' || ('\U{2000}' <= c <= '\U{200A}')
    || c == '\U{2028}' || c == '\U{2029}' || c == '\U{202F}' || c == '\U{205F}'
    || c == '\U{3000}' || c == '\U{FEFF}'
  }

  function TrimStart(s: string): (r: string)
    ensures |r| <= |s| && r == s[|s| - |r|..]
    ensures r == [] || !IsSpace(r[0])
    ensures forall i :: 0 <= i < |s| - |r| ==> IsSpace(s[i])
  {
    if |s| > 0 && IsSpace(s[0]) then TrimStart(s[1..]) else s
  }

  function TrimEnd(s: string): (r: string)
    ensures |r| <= |s| && r == s[..|r|]
    ensures r == [] || !IsSpace(r[|r| - 1])
    ensures forall i :: |r| <= i < |s| ==> IsSpace(s[i])
  {
    if |s| > 0 && IsSpace(s[|s| - 1]) then TrimEnd(s[..|s| - 1]) else s
  }

  /** `s.trim()` */
  function Trim(s: string): (r: string)
    ensures r == [] || (!IsSpace(r[0]) && !IsSpace(r[|r| - 1]))
    ensures exists i, j :: 0 <= i <= j <= |s| && r == s[i..j]
  {
    var t := TrimStart(s);
    var r := TrimEnd(t);
    assert r == s[|s| - |t|..|s| - |t| + |r|];
    r
  }

  /** Trimming an already-trimmed text changes nothing. */
  lemma TrimIdempotent(s: string)
    ensures Trim(Trim(s)) == Trim(s)
  {
  }

  /** A text trims to nothing exactly when every character of it is white space. */
  lemma {:induction false} TrimEmptyIff(s: string)
    ensures Trim(s) == [] <==> forall i :: 0 <= i < |s| ==> IsSpace(s[i])
  {
    var t := TrimStart(s);
    if t != [] {
      assert !IsSpace(s[|s| - |t|]);
      assert !IsSpace(t[0]);
      assert TrimEnd(t) != [];
    }
  }

  /** A text with neither leading nor trailing white space trims to itself. */
  lemma TrimOfTrimmed(s: string)
    requires s == [] || (!IsSpace(s[0]) && !IsSpace(s[|s| - 1]))
    ensures Trim(s) == s
  {
  }

  /** `s.length`: one code unit per BMP character, two for the others. */
  function Utf16Length(s: string): (n: nat)
    ensures |s| <= n <= 2 * |s|
  {
    if s == [] then 0 else (if s[0] as int > 0xFFFF then 2 else 1) + Utf16Length(s[1..])
  }

  /** `s.slice(-n)` for `n > 0`: the last `n` characters, or all of `s` when it is shorter. */
  function SliceLast(s: string, n: nat): (r: string)
    requires n > 0
    ensures |r| == if |s| < n then |s| else n
    ensures EndsWith(s, r)
  {
    if |s| < n then s else s[|s| - n..]
  }
}
