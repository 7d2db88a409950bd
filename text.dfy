/**
 * The string operations the tracker calls: `toLowerCase`, `includes`,
 * `trim`, and number-to-text in template literals. `toLowerCase` is
 * modelled on the ASCII letters only; other characters are kept as they are.
 */
module Text {

  // ---- toLowerCase ----

  predicate IsUpper(c: char) { 'A' <= c <= 'Z' }

  function LowerChar(c: char): (r: char)
    ensures !IsUpper(r)
    ensures !IsUpper(c) ==> r == c
  {
    if IsUpper(c) then (c as int + 32) as char else c
  }

  function UpperChar(c: char): char
  {
    if 'a' <= c <= 'z' then (c as int - 32) as char else c
  }

  /** `s.toLowerCase()`: every ASCII capital replaced by its small letter. */
  function ToLower(s: string): (r: string)
    ensures |r| == |s|
    ensures forall i :: 0 <= i < |s| ==> r[i] == LowerChar(s[i])
  {
    seq(|s|, i requires 0 <= i < |s| => LowerChar(s[i]))
  }

  function ToUpper(s: string): (r: string)
    ensures |r| == |s|
    ensures forall i :: 0 <= i < |s| ==> r[i] == UpperChar(s[i])
  {
    seq(|s|, i requires 0 <= i < |s| => UpperChar(s[i]))
  }

  /** Lowering twice is lowering once. */
  lemma ToLowerIdempotent(s: string)
    ensures ToLower(ToLower(s)) == ToLower(s)
  {
  }

  /** Upper-casing first makes no difference once the text is lowered. */
  lemma ToLowerOfUpper(s: string)
    ensures ToLower(ToUpper(s)) == ToLower(s)
  {
    forall i | 0 <= i < |s|
      ensures LowerChar(UpperChar(s[i])) == LowerChar(s[i])
    {
    }
  }

  // ---- includes ----

  /** `s.startsWith(t)`. */
  predicate StartsWith(s: string, t: string)
  {
    |t| <= |s| && s[..|t|] == t
  }

  /** `t` occurs in `s` starting at position `i`. */
  predicate OccursAt(s: string, t: string, i: int)
  {
    0 <= i && i + |t| <= |s| && s[i..i + |t|] == t
  }

  /** `s.includes(t)`: `t` occurs in `s` at some position. */
  function Contains(s: string, t: string): (r: bool)
    ensures r <==> exists i :: OccursAt(s, t, i)
  {
    if StartsWith(s, t) then
      assert OccursAt(s, t, 0);
      true
    else if s == [] then false
    else
      var r := Contains(s[1..], t);
      assert forall i :: OccursAt(s[1..], t, i) <==> OccursAt(s, t, i + 1) by {
        forall i ensures OccursAt(s[1..], t, i) <==> OccursAt(s, t, i + 1) {
          if 0 <= i && i + 1 + |t| <= |s| {
            assert s[1..][i..i + |t|] == s[i + 1..i + 1 + |t|];
          }
        }
      }
      assert !OccursAt(s, t, 0);
      assert forall i :: OccursAt(s, t, i) ==> OccursAt(s[1..], t, i - 1);
      r
  }

  /** The text itself occurs in any text built around it. */
  lemma ContainsInfix(a: string, t: string, b: string)
    ensures Contains(a + t + b, t)
  {
    var s := a + t + b;
    assert s[|a|..|a| + |t|] == t;
    assert OccursAt(s, t, |a|);
  }

  // ---- trim ----

  /**
   * The characters `String.prototype.trim` removes: the ECMAScript WhiteSpace
   * (tab, vertical tab, form feed, no-break space, byte-order mark and the
   * Unicode space separators) and LineTerminator characters.
   */
  predicate IsWhiteSpace(c: char)
  {
    || c == ' ' || c == '\t' || c == '\n' || c == '\r' || c == '\U{000B}' || c == '\U{000C}'
    || c == '\U{00A0}' || c == '\U{1680}' || ('\U{2000}' <= c <= '\U{200A}')
    || c == '\U{2028}' || c == '\U{2029}' || c == '\U{202F}' || c == '\U{205F}'
    || c == '\U{3000}' || c == '\U{FEFF}'
  }

  function TrimStart(s: string): (r: string)
    ensures |r| <= |s| && r == s[|s| - |r|..]
    ensures forall i :: 0 <= i < |s| - |r| ==> IsWhiteSpace(s[i])
    ensures r == [] || !IsWhiteSpace(r[0])
  {
    if s != [] && IsWhiteSpace(s[0]) then
      var r := TrimStart(s[1..]);
      assert forall i :: 1 <= i < |s| - |r| ==> s[i] == s[1..][i - 1];
      r
    else s
  }

  function TrimEnd(s: string): (r: string)
    ensures |r| <= |s| && r == s[..|r|]
    ensures forall i :: |r| <= i < |s| ==> IsWhiteSpace(s[i])
    ensures r == [] || !IsWhiteSpace(r[|r| - 1])
  {
    if s != [] && IsWhiteSpace(s[|s| - 1]) then TrimEnd(s[..|s| - 1]) else s
  }

  /** `s.trim()`: `s` without its leading and trailing white space. */
  function Trim(s: string): (r: string)
    ensures r == [] || (!IsWhiteSpace(r[0]) && !IsWhiteSpace(r[|r| - 1]))
    ensures exists k :: OccursAt(s, r, k)
  {
    var t := TrimStart(s);
    var r := TrimEnd(t);
    var k := |s| - |t|;
    assert r == s[k..k + |r|];
    assert OccursAt(s, r, k);
    assert r != [] ==> r[0] == t[0];
    r
  }

  /** Every character of `u` is white space. */
  predicate AllWhiteSpace(u: string)
  {
    forall c :: 0 <= c < |u| ==> IsWhiteSpace(u[c])
  }

  /**
   * The trimmed text is the slice of `s` outside which every character is
   * white space; with the ends of Trim's contract, it is the widest such slice.
   */
  lemma TrimSlice(s: string) returns (i: nat, j: nat)
    ensures i <= j <= |s| && Trim(s) == s[i..j]
    ensures AllWhiteSpace(s[..i]) && AllWhiteSpace(s[j..])
  {
    var t := TrimStart(s);
    i := |s| - |t|;
    j := i + |TrimEnd(t)|;
    LeadingWhiteSpace(s);
    TrailingWhiteSpace(t);
    assert s[j..] == t[|TrimEnd(t)|..];
    assert Trim(s) == s[i..j];
  }

  lemma LeadingWhiteSpace(s: string)
    ensures AllWhiteSpace(s[..|s| - |TrimStart(s)|])
  {
    var n := |s| - |TrimStart(s)|;
    forall c | 0 <= c < n ensures IsWhiteSpace(s[..n][c]) {
      assert s[..n][c] == s[c];
    }
  }

  lemma TrailingWhiteSpace(t: string)
    ensures AllWhiteSpace(t[|TrimEnd(t)|..])
  {
    var n := |TrimEnd(t)|;
    forall c | 0 <= c < |t| - n ensures IsWhiteSpace(t[n..][c]) {
      assert t[n..][c] == t[n + c];
    }
  }

  /** A text trims to nothing exactly when it is all white space. */
  lemma TrimEmpty(s: string)
    ensures Trim(s) == [] <==> forall i :: 0 <= i < |s| ==> IsWhiteSpace(s[i])
  {
    var t := TrimStart(s);
    if t != [] {
      assert s[|s| - |t|] == t[0];
      assert TrimEnd(t)[0] == t[0];
    }
  }

  // ---- numbers in template literals ----

  function DigitChar(d: nat): char
    requires d < 10
  {
    "0123456789"[d]
  }

  predicate IsDigit(c: char) { '0' <= c <= '9' }

  function DigitValue(c: char): nat
    requires IsDigit(c)
  {
    c as int - '0' as int
  }

  /** `${n}` for a non-negative integer: its decimal digits, no leading zero. */
  function NatToString(n: nat): (s: string)
    ensures |s| > 0 && forall i :: 0 <= i < |s| ==> IsDigit(s[i])
    ensures |s| > 1 ==> s[0] != '0'
  {
    if n < 10 then [DigitChar(n)] else NatToString(n / 10) + [DigitChar(n % 10)]
  }

  /** The value of a string of decimal digits. */
  function DigitsValue(s: string): nat
    requires forall i :: 0 <= i < |s| ==> IsDigit(s[i])
  {
    if s == [] then 0 else 10 * DigitsValue(s[..|s| - 1]) + DigitValue(s[|s| - 1])
  }

  /** Reading the digits back gives the number: the text names `n` and no other number. */
  lemma {:induction false} NatToStringRoundTrip(n: nat)
    ensures DigitsValue(NatToString(n)) == n
  {
    if n >= 10 {
      NatToStringRoundTrip(n / 10);
      var s := NatToString(n);
      assert s[..|s| - 1] == NatToString(n / 10);
    }
  }

  /** Different numbers render differently. */
  lemma NatToStringInjective(m: nat, n: nat)
    ensures NatToString(m) == NatToString(n) ==> m == n
  {
    NatToStringRoundTrip(m);
    NatToStringRoundTrip(n);
  }
}
