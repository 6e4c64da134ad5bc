/** The few Python `str` operations the reply parser uses, written out over
    `seq<char>`: `isspace`, `strip`, `startswith`, `in`, `split('\n')` and
    `replace(pattern, "")`. */
module PyText {

  /** Python's `str.isspace` for one character: the ASCII controls TAB..CR, the
      separators U+001C..U+001F, SPACE, NEL, NO-BREAK SPACE and the Unicode
      space separators. */
  predicate IsSpace(c: char)
  {
    var n := c as int;
    || 0x09 <= n <= 0x0D
    || 0x1C <= n <= 0x20
    || n == 0x85 || n == 0xA0 || n == 0x1680
    || 0x2000 <= n <= 0x200A
    || n == 0x2028 || n == 0x2029 || n == 0x202F || n == 0x205F || n == 0x3000
  }

  /** `r` is `s` with its leading and trailing whitespace removed: a slice of `s`
      that neither starts nor ends with whitespace, everything cut off before and
      after it being whitespace. */
  ghost predicate TrimmedOf(r: string, s: string)
  {
    && (r == [] || (!IsSpace(r[0]) && !IsSpace(r[|r| - 1])))
    && exists a, b :: CutsWhitespace(r, s, a, b)
  }

  /** `r` is `s[a..b]`, and everything before `a` and from `b` on is whitespace. */
  ghost predicate CutsWhitespace(r: string, s: string, a: int, b: int)
  {
    && 0 <= a <= b <= |s| && r == s[a..b]
    && (forall i :: 0 <= i < a ==> IsSpace(s[i]))
    && (forall i :: b <= i < |s| ==> IsSpace(s[i]))
  }

  /** `s.lstrip()`. */
  function LStrip(s: string): (r: string)
    ensures |r| <= |s|
    ensures r == [] || !IsSpace(r[0])
  {
    if s != [] && IsSpace(s[0]) then LStrip(s[1..]) else s
  }

  /** `s.lstrip()` is the suffix of `s` left after its leading whitespace. */
  lemma {:induction false} LStripCuts(s: string)
    ensures LStrip(s) == s[|s| - |LStrip(s)|..]
    ensures forall i :: 0 <= i < |s| - |LStrip(s)| ==> IsSpace(s[i])
  {
    if s != [] && IsSpace(s[0]) {
      LStripCuts(s[1..]);
    }
  }

  /** `s.rstrip()`. */
  function RStrip(s: string): (r: string)
    ensures |r| <= |s|
    ensures r == [] || !IsSpace(r[|r| - 1])
  {
    if s != [] && IsSpace(s[|s| - 1]) then RStrip(s[..|s| - 1]) else s
  }

  /** `s.rstrip()` is the prefix of `s` left before its trailing whitespace. */
  lemma {:induction false} RStripCuts(s: string)
    ensures RStrip(s) == s[..|RStrip(s)|]
    ensures forall i :: |RStrip(s)| <= i < |s| ==> IsSpace(s[i])
  {
    if s != [] && IsSpace(s[|s| - 1]) {
      RStripCuts(s[..|s| - 1]);
    }
  }

  /** `s.strip()`. */
  function Strip(s: string): (r: string)
    ensures |r| <= |s|
    ensures r == [] || (!IsSpace(r[0]) && !IsSpace(r[|r| - 1]))
  {
    var l := LStrip(s);
    RStripCuts(l);
    assert RStrip(l) != [] ==> RStrip(l)[0] == l[0];
    RStrip(l)
  }

  /** `s.strip()` cuts only whitespace: its result is a slice of `s` that neither
      starts nor ends with whitespace, with whitespace only before and after it. */
  lemma StripTrims(s: string)
    ensures TrimmedOf(Strip(s), s)
  {
    var l := LStrip(s);
    var r := RStrip(l);
    var a := |s| - |l|;
    LStripCuts(s);
    RStripCuts(l);
    assert l == s[a..];
    assert r == l[..|r|];
    assert r == s[a..a + |r|];
    forall i | a + |r| <= i < |s| ensures IsSpace(s[i]) {
      assert s[i] == l[i - a];
    }
    assert CutsWhitespace(r, s, a, a + |r|);
  }

  /** `s.startswith(p)`. */
  predicate StartsWith(s: string, p: string)
  {
    |p| <= |s| && s[..|p|] == p
  }

  /** `p in s`: `p` occurs somewhere in `s`. */
  predicate Contains(s: string, p: string)
    decreases |s|
  {
    StartsWith(s, p) || (s != [] && Contains(s[1..], p))
  }

  /** `s.split(sep)` for a one-character separator. */
  function Split(s: string, sep: char): (r: seq<string>)
    ensures |r| >= 1
  {
    if s == [] then [""]
    else
      var rest := Split(s[1..], sep);
      if s[0] == sep then [""] + rest else [[s[0]] + rest[0]] + rest[1..]
  }

  /** `sep.join(parts)`. */
  function Join(parts: seq<string>, sep: char): string
  {
    if |parts| == 0 then ""
    else if |parts| == 1 then parts[0]
    else parts[0] + [sep] + Join(parts[1..], sep)
  }

  /** Splitting loses nothing, and no piece holds the separator. */
  lemma {:induction false} SplitJoin(s: string, sep: char)
    ensures Join(Split(s, sep), sep) == s
    ensures forall i :: 0 <= i < |Split(s, sep)| ==> sep !in Split(s, sep)[i]
  {
    if s != [] {
      SplitJoin(s[1..], sep);
      var rest := Split(s[1..], sep);
      if s[0] != sep {
        assert Split(s, sep) == [[s[0]] + rest[0]] + rest[1..];
        if |rest| > 1 {
          assert rest == [rest[0]] + rest[1..];
          assert Join(rest, sep) == rest[0] + [sep] + Join(rest[1..], sep);
        }
      }
    }
  }

  /** `s.replace(p, "")` for a non-empty pattern: occurrences are removed left to
      right, and the scan resumes after each removed occurrence. */
  function Remove(s: string, p: string): (r: string)
    requires |p| > 0
    ensures |r| <= |s|
    decreases |s|
  {
    if StartsWith(s, p) then Remove(s[|p|..], p)
    else if s == [] then []
    else [s[0]] + Remove(s[1..], p)
  }

  /** A string without the pattern is left as it is. */
  lemma {:induction false} RemoveAbsent(s: string, p: string)
    requires |p| > 0 && !Contains(s, p)
    ensures Remove(s, p) == s
    decreases |s|
  {
    if s != [] {
      RemoveAbsent(s[1..], p);
    }
  }

  /** A pattern in front of a rest that does not hold it again is removed, and the
      rest is left as it is: `("SCORE:" + rest).replace("SCORE:", "") == rest`. */
  lemma RemoveLeading(p: string, rest: string)
    requires |p| > 0 && !Contains(rest, p)
    ensures Remove(p + rest, p) == rest
  {
    assert (p + rest)[..|p|] == p;
    assert (p + rest)[|p|..] == rest;
    RemoveAbsent(rest, p);
  }
}
