/**
 * String helpers with the meaning of Go's strings.TrimSpace, strings.ToLower,
 * strings.EqualFold, strings.HasSuffix and strings.LastIndex, on `seq<char>`.
 * Case mapping is ASCII only; whitespace is the set unicode.IsSpace accepts.
 */
module TextUtil {

  /** The characters Go's unicode.IsSpace reports as white space. */
  predicate IsSpace(c: char) {
    c == ' ' || c == '\t' || c == '\n' || c == '\U{b}' || c == '\U{c}' || c == '\r'
    || c == '\U{85}' || c == '\U{a0}' || c == '\U{1680}'
    || ('\U{2000}' <= c <= '\U{200a}')
    || c == '\U{2028}' || c == '\U{2029}' || c == '\U{202f}' || c == '\U{205f}' || c == '\U{3000}'
  }

  predicate AllSpace(s: string) {
    forall i :: 0 <= i < |s| ==> IsSpace(s[i])
  }

  /** No white space at either end. */
  predicate IsTrimmed(s: string) {
    s == [] || (!IsSpace(s[0]) && !IsSpace(s[|s| - 1]))
  }

  /** Drops the leading white space (its shape is stated by TrimLeftShape). */
  function TrimLeft(s: string): (r: string)
    ensures |r| <= |s|
  {
    if s != [] && IsSpace(s[0]) then TrimLeft(s[1..]) else s
  }

  /** TrimLeft keeps a suffix of `s`, drops only white space, and stops at a non-space character. */
  lemma {:induction false} TrimLeftShape(s: string)
    ensures TrimLeft(s) == s[|s| - |TrimLeft(s)|..]
    ensures AllSpace(s[..|s| - |TrimLeft(s)|])
    ensures TrimLeft(s) != [] ==> !IsSpace(TrimLeft(s)[0])
    decreases |s|
  {
    if s != [] && IsSpace(s[0]) {
      TrimLeftShape(s[1..]);
      var n := |s| - |TrimLeft(s)|;
      assert s[1..][|s| - 1 - |TrimLeft(s)|..] == s[n..];
      assert s[..n] == [s[0]] + s[1..][..n - 1];
    }
  }

  /** Drops the trailing white space (its shape is stated by TrimRightShape). */
  function TrimRight(s: string): (r: string)
    ensures |r| <= |s|
  {
    if s != [] && IsSpace(s[|s| - 1]) then TrimRight(s[..|s| - 1]) else s
  }

  /** TrimRight keeps a prefix of `s`, drops only white space, and stops at a non-space character. */
  lemma {:induction false} TrimRightShape(s: string)
    ensures TrimRight(s) == s[..|TrimRight(s)|]
    ensures AllSpace(s[|TrimRight(s)|..])
    ensures TrimRight(s) != [] ==> !IsSpace(TrimRight(s)[|TrimRight(s)| - 1])
    decreases |s|
  {
    if s != [] && IsSpace(s[|s| - 1]) {
      TrimRightShape(s[..|s| - 1]);
      var n := |TrimRight(s)|;
      assert s[..|s| - 1][..n] == s[..n];
      assert s[n..] == s[..|s| - 1][n..] + [s[|s| - 1]];
    }
  }

  /** strings.TrimSpace */
  function TrimSpace(s: string): (r: string)
    ensures IsTrimmed(r)
    ensures |r| <= |s|
  {
    var l := TrimLeft(s);
    var r := TrimRight(l);
    TrimLeftShape(s);
    TrimRightShape(l);
    assert r != [] ==> r[0] == l[0];
    r
  }

  predicate IsBlank(s: string) {
    TrimSpace(s) == []
  }

  lemma {:induction false} TrimLeftOfTrimmed(s: string)
    requires s == [] || !IsSpace(s[0])
    ensures TrimLeft(s) == s
  {
  }

  lemma {:induction false} TrimRightOfTrimmed(s: string)
    requires s == [] || !IsSpace(s[|s| - 1])
    ensures TrimRight(s) == s
  {
  }

  /** Trimming twice is trimming once. */
  lemma TrimSpaceOfTrimmed(s: string)
    requires IsTrimmed(s)
    ensures TrimSpace(s) == s
  {
    TrimLeftOfTrimmed(s);
    TrimRightOfTrimmed(s);
  }

  lemma TrimSpaceIdempotent(s: string)
    ensures TrimSpace(TrimSpace(s)) == TrimSpace(s)
  {
    TrimSpaceOfTrimmed(TrimSpace(s));
  }

  /** A leading run of white space does not change TrimLeft. */
  lemma {:induction false} TrimLeftSkipsSpace(l: string, s: string)
    requires AllSpace(l)
    ensures TrimLeft(l + s) == TrimLeft(s)
    decreases |l|
  {
    if l != [] {
      assert (l + s)[1..] == l[1..] + s;
      TrimLeftSkipsSpace(l[1..], s);
    } else {
      assert l + s == s;
    }
  }

  /** A trailing run of white space does not change TrimRight. */
  lemma {:induction false} TrimRightSkipsSpace(s: string, t: string)
    requires AllSpace(t)
    ensures TrimRight(s + t) == TrimRight(s)
    decreases |t|
  {
    if t != [] {
      assert (s + t)[..|s + t| - 1] == s + t[..|t| - 1];
      TrimRightSkipsSpace(s, t[..|t| - 1]);
    } else {
      assert s + t == s;
    }
  }

  /** TrimRight of a string with one more character in front. */
  lemma {:induction false} TrimRightCons(c: char, s: string)
    ensures TrimRight([c] + s) == if IsSpace(c) && TrimRight(s) == [] then [] else [c] + TrimRight(s)
    decreases |s|
  {
    if s == [] {
    } else if IsSpace(s[|s| - 1]) {
      assert ([c] + s)[..|[c] + s| - 1] == [c] + s[..|s| - 1];
      TrimRightCons(c, s[..|s| - 1]);
    } else {
    }
  }

  /** Trimming either end first gives the same result. */
  lemma {:induction false} TrimEndsCommute(s: string)
    ensures TrimRight(TrimLeft(s)) == TrimLeft(TrimRight(s))
    decreases |s|
  {
    if s != [] {
      assert s == [s[0]] + s[1..];
      TrimRightCons(s[0], s[1..]);
      if IsSpace(s[0]) {
        TrimEndsCommute(s[1..]);
      } else {
        TrimLeftOfTrimmed(s);
        TrimLeftOfTrimmed(TrimRight(s));
      }
    }
  }

  /** White space around a string does not change its trimmed form. */
  lemma TrimSpaceIgnoresPadding(l: string, s: string, t: string)
    requires AllSpace(l) && AllSpace(t)
    ensures TrimSpace(l + s + t) == TrimSpace(s)
  {
    assert l + s + t == l + (s + t);
    TrimLeftSkipsSpace(l, s + t);
    TrimEndsCommute(s + t);
    TrimRightSkipsSpace(s, t);
    TrimEndsCommute(s);
  }

  /** A string that starts with a non-space character is not blank. */
  lemma TrimSpaceKeepsFirst(s: string)
    requires s != [] && !IsSpace(s[0])
    ensures TrimSpace(s) != [] && TrimSpace(s)[0] == s[0]
  {
    TrimLeftOfTrimmed(s);
    TrimRightShape(s);
    assert TrimRight(s)[0] == s[0];
  }

  // ----- ASCII case mapping -----

  function LowerChar(c: char): char {
    if 'A' <= c <= 'Z' then (c as int + 32) as char else c
  }

  function UpperChar(c: char): char {
    if 'a' <= c <= 'z' then (c as int - 32) as char else c
  }

  /** strings.ToLower restricted to ASCII letters. */
  function ToLower(s: string): (r: string)
    ensures |r| == |s|
    ensures forall i :: 0 <= i < |s| ==> r[i] == LowerChar(s[i])
  {
    seq(|s|, i requires 0 <= i < |s| => LowerChar(s[i]))
  }

  /** strings.ToUpper restricted to ASCII letters (used to state case insensitivity). */
  function ToUpper(s: string): (r: string)
    ensures |r| == |s|
    ensures forall i :: 0 <= i < |s| ==> r[i] == UpperChar(s[i])
  {
    seq(|s|, i requires 0 <= i < |s| => UpperChar(s[i]))
  }

  /** strings.EqualFold restricted to ASCII letters. */
  predicate EqualFold(a: string, b: string) {
    ToLower(a) == ToLower(b)
  }

  lemma ToLowerIdempotent(s: string)
    ensures ToLower(ToLower(s)) == ToLower(s)
  {
  }

  lemma ToLowerOfUpper(s: string)
    ensures ToLower(ToUpper(s)) == ToLower(s)
  {
  }

  lemma ToLowerConcat(a: string, b: string)
    ensures ToLower(a + b) == ToLower(a) + ToLower(b)
  {
  }

  lemma ToLowerSlice(s: string, i: nat, j: nat)
    requires i <= j <= |s|
    ensures ToLower(s[i..j]) == ToLower(s)[i..j]
  {
  }

  /** A string with no upper-case ASCII letter is its own lower-case form. */
  lemma ToLowerOfLower(s: string)
    requires forall i :: 0 <= i < |s| ==> !('A' <= s[i] <= 'Z')
    ensures ToLower(s) == s
  {
  }

  /** White space has no case: lower-casing neither makes nor removes it. */
  lemma LowerCharSpace(c: char)
    ensures IsSpace(LowerChar(c)) == IsSpace(c)
    ensures IsSpace(c) ==> LowerChar(c) == c
  {
  }

  lemma {:induction false} TrimLeftToLower(s: string)
    ensures ToLower(TrimLeft(s)) == TrimLeft(ToLower(s))
    decreases |s|
  {
    if s != [] {
      var t := ToLower(s);
      LowerCharSpace(s[0]);
      assert t[0] == LowerChar(s[0]);
      ToLowerSlice(s, 1, |s|);
      assert t[1..] == ToLower(s[1..]);
      if IsSpace(s[0]) {
        assert TrimLeft(s) == TrimLeft(s[1..]);
        assert TrimLeft(t) == TrimLeft(t[1..]);
        TrimLeftToLower(s[1..]);
      } else {
        assert TrimLeft(s) == s;
        assert TrimLeft(t) == t;
      }
    }
  }

  lemma {:induction false} TrimRightToLower(s: string)
    ensures ToLower(TrimRight(s)) == TrimRight(ToLower(s))
    decreases |s|
  {
    if s != [] {
      var t := ToLower(s);
      LowerCharSpace(s[|s| - 1]);
      assert t[|s| - 1] == LowerChar(s[|s| - 1]);
      ToLowerSlice(s, 0, |s| - 1);
      assert t[..|s| - 1] == ToLower(s[..|s| - 1]);
      if IsSpace(s[|s| - 1]) {
        assert TrimRight(s) == TrimRight(s[..|s| - 1]);
        assert TrimRight(t) == TrimRight(t[..|s| - 1]);
        TrimRightToLower(s[..|s| - 1]);
      } else {
        assert TrimRight(s) == s;
        assert TrimRight(t) == t;
      }
    }
  }

  /** Lower-casing and trimming commute (white space has no case). */
  lemma TrimSpaceToLower(s: string)
    ensures ToLower(TrimSpace(s)) == TrimSpace(ToLower(s))
  {
    TrimLeftToLower(s);
    TrimRightToLower(TrimLeft(s));
  }

  // ----- searching -----

  /** strings.HasSuffix */
  predicate HasSuffix(s: string, suffix: string) {
    |suffix| <= |s| && s[|s| - |suffix|..] == suffix
  }

  /** strings.LastIndex for a one-character needle: -1 when absent. */
  function LastIndexOf(s: string, c: char): (r: int)
    ensures -1 <= r < |s|
    ensures r >= 0 ==> s[r] == c
    ensures forall i :: r < i < |s| ==> s[i] != c
  {
    if s == [] then -1
    else if s[|s| - 1] == c then |s| - 1
    else LastIndexOf(s[..|s| - 1], c)
  }

  // ----- decimal rendering of integers (gjson's String() of a number) -----

  function DigitChar(d: nat): char
    requires d < 10
  {
    "0123456789"[d]
  }

  function NatText(n: nat): (r: string)
    ensures r != []
    decreases n
  {
    if n < 10 then [DigitChar(n)] else NatText(n / 10) + [DigitChar(n % 10)]
  }

  function IntText(n: int): (r: string)
    ensures r != []
  {
    if n < 0 then "-" + NatText(-n) else NatText(n)
  }
}
