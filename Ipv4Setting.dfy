/** The `ip` setting's pattern `^(?!0)(?!.*\.$)((1?\d?\d|25[0-5]|2[0-4]\d)(\.|$)){4}$`,
    read as a JavaScript regular expression without flags; and a definition of a dotted
    quad in terms of splitting at the dots, which the pattern is proved to accept exactly. */
module Ipv4Setting {

  predicate IsDigit(c: char)
  {
    '0' <= c <= '9'
  }

  predicate AllDigits(w: string)
  {
    forall i :: 0 <= i < |w| ==> IsDigit(w[i])
  }

  // ---------------------------------------------------------------------------
  // The pattern as written

  /** The alternative `1?\d?\d`. */
  predicate ShortOctet(w: string)
  {
    (|w| == 1 && IsDigit(w[0])) ||
    (|w| == 2 && IsDigit(w[0]) && IsDigit(w[1])) ||
    (|w| == 3 && w[0] == '1' && IsDigit(w[1]) && IsDigit(w[2]))
  }

  /** The alternative `25[0-5]`. */
  predicate HighOctet(w: string)
  {
    |w| == 3 && w[0] == '2' && w[1] == '5' && '0' <= w[2] <= '5'
  }

  /** The alternative `2[0-4]\d`. */
  predicate MidOctet(w: string)
  {
    |w| == 3 && w[0] == '2' && '0' <= w[1] <= '4' && IsDigit(w[2])
  }

  /** The group `(1?\d?\d|25[0-5]|2[0-4]\d)` matches exactly `w`. */
  predicate OctetAlternative(w: string)
  {
    ShortOctet(w) || HighOctet(w) || MidOctet(w)
  }

  /** The octet `t[..len]` matches, followed by `(\.|$)`: a dot or the end of input. */
  predicate OctetThenSeparator(t: string, len: nat)
  {
    len <= |t| && OctetAlternative(t[..len]) && (len == |t| || t[len] == '.')
  }

  /** What is left of `t` after the octet `t[..len]` and its separator. */
  function After(t: string, len: nat): string
    requires len <= |t|
  {
    if len < |t| then t[len + 1..] else t[len..]
  }

  /** `((octet)(\.|$)){n}$` matches all of `t`. The matcher backtracks over the
      length of each octet, which is one, two or three characters. */
  predicate Repeats(t: string, n: nat)
  {
    if n == 0 then t == []
    else
      (OctetThenSeparator(t, 1) && Repeats(After(t, 1), n - 1)) ||
      (OctetThenSeparator(t, 2) && Repeats(After(t, 2), n - 1)) ||
      (OctetThenSeparator(t, 3) && Repeats(After(t, 3), n - 1))
  }

  /** Line terminators, which `.` does not match. */
  predicate IsLineTerminator(c: char)
  {
    c == '\n' || c == '\r' || c == '\U{2028}' || c == '\U{2029}'
  }

  /** `.*\.$` matches at the start of `s`. */
  predicate DotAtEndAhead(s: string)
  {
    |s| > 0 && s[|s| - 1] == '.' &&
    forall i :: 0 <= i < |s| - 1 ==> !IsLineTerminator(s[i])
  }

  /** `0` matches at the start of `s`. */
  predicate ZeroAhead(s: string)
  {
    |s| > 0 && s[0] == '0'
  }

  /** The whole pattern with its two negative lookaheads. What it accepts is at least
      seven characters of digits and dots, beginning with a digit other than '0' and
      ending with a digit. */
  predicate IpPattern(s: string)
    ensures IpPattern(s) ==>
      |s| >= 7 && (forall i :: 0 <= i < |s| ==> IsDigit(s[i]) || s[i] == '.') &&
      IsDigit(s[0]) && s[0] != '0' && IsDigit(s[|s| - 1])
  {
    if Repeats(s, 4) then
      RepeatsChars(s, 4);
      RepeatsShape(s, 4);
      !ZeroAhead(s) && !DotAtEndAhead(s)
    else
      false
  }

  // ---------------------------------------------------------------------------
  // Dotted quads, defined by splitting at the dots

  /** The index of the first '.' in `t`, or `|t|` when there is none. */
  function DotIndex(t: string): (k: nat)
    ensures k <= |t|
    ensures forall i :: 0 <= i < k ==> t[i] != '.'
    ensures k < |t| ==> t[k] == '.'
  {
    if t == [] || t[0] == '.' then 0 else 1 + DotIndex(t[1..])
  }

  /** The fields of `t` between its dots (like `t.split('.')`). */
  function Fields(t: string): (fs: seq<string>)
    ensures |fs| >= 1
    decreases |t|
  {
    var k := DotIndex(t);
    if k == |t| then [t] else [t[..k]] + Fields(t[k + 1..])
  }

  function DigitValue(c: char): nat
    requires IsDigit(c)
  {
    (c as int) - ('0' as int)
  }

  /** The decimal value of a string of digits. */
  function Value(w: string): nat
    requires AllDigits(w)
  {
    if w == [] then 0 else 10 * Value(w[..|w| - 1]) + DigitValue(w[|w| - 1])
  }

  /** An octet: one to three digits, value at most 255, no leading '0' on three digits. */
  predicate ValidOctet(w: string)
  {
    1 <= |w| <= 3 && AllDigits(w) && Value(w) <= 255 && (|w| == 3 ==> w[0] != '0')
  }

  /** `t` has exactly `n` dot-separated fields and every one of them is an octet. */
  predicate OctetFields(t: string, n: nat)
  {
    var fs := Fields(t);
    |fs| == n && forall i :: 0 <= i < |fs| ==> ValidOctet(fs[i])
  }

  /** Four octets separated by dots, the first of which does not begin with '0'. */
  predicate DottedQuad(s: string)
  {
    OctetFields(s, 4) && Fields(s)[0][0] != '0'
  }

  predicate EndsWithDot(t: string)
  {
    |t| > 0 && t[|t| - 1] == '.'
  }

  // ---------------------------------------------------------------------------
  // The pattern accepts exactly the dotted quads

  /** The octet alternation accepts exactly the octets. */
  lemma OctetAlternativeIsOctet(w: string)
    ensures OctetAlternative(w) <==> ValidOctet(w)
  {
    if |w| == 1 && IsDigit(w[0]) {
      assert w[..0] == [];
    } else if |w| == 2 && IsDigit(w[0]) && IsDigit(w[1]) {
      assert w[..1][..0] == [];
      assert Value(w[..1]) == DigitValue(w[0]);
    } else if |w| == 3 && AllDigits(w) {
      assert w[..2][..1] == w[..1];
      assert w[..1][..0] == [];
      assert Value(w[..1]) == DigitValue(w[0]);
      assert Value(w[..2]) == 10 * DigitValue(w[0]) + DigitValue(w[1]);
    }
  }

  /** Whatever the repetitions match consists of digits and dots. */
  lemma {:induction false} RepeatsChars(t: string, n: nat)
    requires Repeats(t, n)
    ensures forall i :: 0 <= i < |t| ==> IsDigit(t[i]) || t[i] == '.'
    decreases n, 0
  {
    if n > 0 {
      if OctetThenSeparator(t, 1) && Repeats(After(t, 1), n - 1) {
        StepChars(t, 1, n);
      } else if OctetThenSeparator(t, 2) && Repeats(After(t, 2), n - 1) {
        StepChars(t, 2, n);
      } else {
        StepChars(t, 3, n);
      }
    }
  }

  lemma {:induction false} StepChars(t: string, len: nat, n: nat)
    requires n >= 1 && OctetThenSeparator(t, len) && Repeats(After(t, len), n - 1)
    ensures forall i :: 0 <= i < |t| ==> IsDigit(t[i]) || t[i] == '.'
    decreases n - 1, 1
  {
    OctetAlternativeIsOctet(t[..len]);
    assert forall i :: 0 <= i < len ==> t[i] == t[..len][i];
    if len < |t| {
      RepeatsChars(t[len + 1..], n - 1);
      forall i | len < i < |t| ensures IsDigit(t[i]) || t[i] == '.' {
        assert t[i] == t[len + 1..][i - len - 1];
      }
    }
  }

  /** The repetitions match at least `2n - 1` characters, starting with a digit. */
  lemma {:induction false} RepeatsShape(t: string, n: nat)
    requires n >= 1 && Repeats(t, n)
    ensures |t| >= 2 * n - 1 && IsDigit(t[0])
    decreases n
  {
    var len: nat :=
      if OctetThenSeparator(t, 1) && Repeats(After(t, 1), n - 1) then 1
      else if OctetThenSeparator(t, 2) && Repeats(After(t, 2), n - 1) then 2
      else 3;
    assert OctetThenSeparator(t, len) && Repeats(After(t, len), n - 1);
    OctetAlternativeIsOctet(t[..len]);
    assert t[0] == t[..len][0];
    if n > 1 {
      RepeatsShape(After(t, len), n - 1);
    }
  }

  /** An octet the matcher picks contains no dot, so it ends where the first field does. */
  lemma OctetEndsAtFirstDot(t: string, len: nat)
    requires OctetThenSeparator(t, len)
    ensures len == DotIndex(t)
  {
    OctetAlternativeIsOctet(t[..len]);
    assert forall i :: 0 <= i < len ==> t[i] == t[..len][i];
  }

  /** A string that ends with a dot has an empty last field. */
  lemma {:induction false} LastFieldOfTrailingDot(t: string)
    requires EndsWithDot(t)
    ensures Fields(t)[|Fields(t)| - 1] == ""
    decreases |t|
  {
    var k := DotIndex(t);
    var rest := t[k + 1..];
    if rest != [] {
      assert rest[|rest| - 1] == t[|t| - 1];
      LastFieldOfTrailingDot(rest);
    }
  }

  /** The matcher's only choice for the first octet is the first field. */
  lemma RepeatsFirstField(t: string, n: nat)
    requires n >= 1
    ensures var k := DotIndex(t);
      Repeats(t, n) <==> 1 <= k <= 3 && OctetThenSeparator(t, k) && Repeats(After(t, k), n - 1)
  {
    if OctetThenSeparator(t, 1) { OctetEndsAtFirstDot(t, 1); }
    if OctetThenSeparator(t, 2) { OctetEndsAtFirstDot(t, 2); }
    if OctetThenSeparator(t, 3) { OctetEndsAtFirstDot(t, 3); }
  }

  /** Splitting off the first field. */
  lemma {:induction false} OctetFieldsSplit(t: string, n: nat)
    requires n >= 1
    requires DotIndex(t) < |t|
    ensures var k := DotIndex(t);
      OctetFields(t, n) <==> n > 1 && ValidOctet(t[..k]) && OctetFields(t[k + 1..], n - 1)
  {
    var k := DotIndex(t);
    var fs, rs := Fields(t), Fields(t[k + 1..]);
    assert fs == [t[..k]] + rs;
    if ValidOctet(t[..k]) && OctetFields(t[k + 1..], n - 1) {
      forall i | 0 <= i < |fs| ensures ValidOctet(fs[i]) {
        if i > 0 { assert fs[i] == rs[i - 1]; }
      }
    }
    if OctetFields(t, n) {
      assert ValidOctet(fs[0]);
      forall i | 0 <= i < |rs| ensures ValidOctet(rs[i]) {
        assert fs[i + 1] == rs[i];
      }
    }
  }

  /** A string without a dot is a single field. */
  lemma OctetFieldsSingle(t: string, n: nat)
    requires DotIndex(t) == |t|
    ensures OctetFields(t, n) <==> n == 1 && ValidOctet(t)
  {
    assert Fields(t) == [t];
    if OctetFields(t, n) { assert ValidOctet(Fields(t)[0]); }
  }

  /** The repetitions, on a string not ending with a dot, match exactly `n` octet fields. */
  lemma {:induction false} RepeatsAreOctetFields(t: string, n: nat)
    requires n >= 1
    requires !EndsWithDot(t)
    ensures Repeats(t, n) <==> OctetFields(t, n)
    decreases n
  {
    var k := DotIndex(t);
    if k < |t| {
      var rest := t[k + 1..];
      if rest != [] {
        assert rest[|rest| - 1] == t[|t| - 1];
      }
      if n > 1 {
        RepeatsAreOctetFields(rest, n - 1);
      }
      RepeatsAreOctetFieldsStep(t, n);
    } else {
      RepeatsAreOctetFieldsLast(t, n);
    }
  }

  /** The inductive step: the first field is an octet and the rest matches. */
  lemma RepeatsAreOctetFieldsStep(t: string, n: nat)
    requires n >= 1
    requires !EndsWithDot(t)
    requires DotIndex(t) < |t|
    requires var rest := t[DotIndex(t) + 1..];
      n > 1 ==> (Repeats(rest, n - 1) <==> OctetFields(rest, n - 1))
    ensures Repeats(t, n) <==> OctetFields(t, n)
  {
    var k := DotIndex(t);
    RepeatsFirstField(t, n);
    OctetAlternativeIsOctet(t[..k]);
    OctetFieldsSplit(t, n);
    assert t[k + 1..] != [];
  }

  /** The last field, after which the input ends. */
  lemma RepeatsAreOctetFieldsLast(t: string, n: nat)
    requires n >= 1
    requires DotIndex(t) == |t|
    ensures Repeats(t, n) <==> OctetFields(t, n)
  {
    var k := DotIndex(t);
    RepeatsFirstField(t, n);
    OctetAlternativeIsOctet(t[..k]);
    assert t[..k] == t && After(t, k) == [];
    OctetFieldsSingle(t, n);
    assert n > 1 ==> !Repeats([], n - 1);
  }

  /** What the pattern accepts does not end with a dot. */
  lemma PatternHasNoTrailingDot(s: string)
    requires IpPattern(s)
    ensures !EndsWithDot(s)
  {
    RepeatsChars(s, 4);
  }

  /** The first character of a string is the first character of its first field. */
  lemma FirstFieldStart(s: string)
    requires |Fields(s)[0]| > 0
    ensures |s| > 0 && s[0] == Fields(s)[0][0]
  {
  }

  /** The `ip` pattern accepts a string exactly when it is a dotted quad of octets
      (each at most 255, none of three digits with a leading '0') whose first octet does
      not begin with '0'. */
  lemma IpPatternIsDottedQuad(s: string)
    ensures IpPattern(s) <==> DottedQuad(s)
  {
    if IpPattern(s) {
      PatternHasNoTrailingDot(s);
      RepeatsAreOctetFields(s, 4);
      assert ValidOctet(Fields(s)[0]);
      FirstFieldStart(s);
    }
    if DottedQuad(s) {
      assert ValidOctet(Fields(s)[3]);
      if EndsWithDot(s) {
        LastFieldOfTrailingDot(s);
      }
      RepeatsAreOctetFields(s, 4);
      FirstFieldStart(s);
    }
  }

  /** A private address is accepted. */
  lemma AcceptsPrivateAddress()
    ensures IpPattern("192.168.1.10")
  {
  }

  /** An octet above 255 is refused. */
  lemma RejectsOctetAbove255()
    ensures !IpPattern("256.1.1.1")
  {
  }
}
