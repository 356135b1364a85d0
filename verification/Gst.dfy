/** The check character of a GSTIN: Luhn mod N with N = 36, as `check_gst_no` computes it. */
module Gst {
  import opened Options

  const CP_CHARS := "0123456789ABCDEFGHIJKLMNOPQRSTUVWXYZ"

  /** The number accepted whatever its check character. */
  const EXCEPTION := "29AABCT1332L000"

  // ---- the formula ---------------------------------------------------------------------------------------------

  /** The place of a character in the alphabet, or -1. */
  function CodePoint(c: char): (p: int)
    ensures -1 <= p < 36
  {
    if '0' <= c <= '9' then c as int - '0' as int
    else if 'A' <= c <= 'Z' then c as int - 'A' as int + 10
    else -1
  }

  function CodeChar(p: int): char
    requires 0 <= p < 36
  {
    if p < 10 then '0' + p as char else 'A' + (p - 10) as char
  }

  /** The alphabet lists each code point's character in its place. */
  lemma Alphabet(p: int)
    requires 0 <= p < 36
    ensures CP_CHARS[p] == CodeChar(p)
  {
  }

  lemma CodeCharIs(c: char, p: int)
    requires 0 <= p < 36
    ensures CodeChar(p) == c <==> CodePoint(c) == p
  {
  }

  function CodeAt(s: string, i: nat): int { if i < |s| then CodePoint(s[i]) else -1 }

  predicate Alphanumeric(s: string) { forall i :: 0 <= i < |s| ==> CodePoint(s[i]) >= 0 }

  /** SQL's remainder on `numeric` and `int`: it has the sign of the dividend. */
  function Rem(a: int, b: nat): int
    requires b > 0
  {
    if a >= 0 then a % b else -((-a) % b)
  }

  /** One summand: `floor(d / 36.0 + d % 36)`. */
  function Folded(d: int): int { (d as real / 36.0 + Rem(d, 36) as real).Floor }

  /** The floor of the float expression is the sum of the two base-36 digits. */
  lemma FoldedAddsDigits(d: int)
    requires 0 <= d < 36 * 36
    ensures Folded(d) == d / 36 + d % 36
  {
    var q, r := d / 36, d % 36;
    assert d as real == 36.0 * q as real + r as real;
    assert d as real / 36.0 + r as real == (q + r) as real + r as real / 36.0;
    assert 0.0 <= r as real / 36.0 < 1.0;
  }

  lemma FoldedCode(x: int)
    requires 0 <= x < 36
    ensures Folded(x) == x
    ensures Folded(2 * x) == if x < 18 then 2 * x else 2 * x - 35
  {
    hide Folded;
    FoldedAddsDigits(x);
    FoldedAddsDigits(2 * x);
  }

  type Factor = f: int | f == 1 || f == 2 witness 1

  /** The first `n` characters weighted 2, 1, 2 ... or 1, 2, 1 ... from the right: `f` is the weight of the last. */
  function Weighted(s: string, n: nat, f: Factor): int {
    if n == 0 then 0 else Folded(f * CodeAt(s, n - 1)) + Weighted(s, n - 1, 3 - f)
  }

  /** The whole number, check character included, weighs a multiple of 36. */
  predicate Balanced(s: string) { Weighted(s, |s|, 1) % 36 == 0 }

  /** The code point that balances a payload of `n` characters. */
  function CheckCode(s: string, n: nat): (c: int)
    ensures 0 <= c < 36
  {
    (-Weighted(s, n, 2)) % 36
  }

  // ---- the loops -----------------------------------------------------------------------------------------------

  /** The inner loop: the alphabet has no repeated character, so the last match is the only one. */
  method FindCodePoint(s: string, i: nat) returns (code: int)
    ensures code == CodeAt(s, i)
  {
    code := -1;
    for j := 0 to 36
      invariant code == if 0 <= CodeAt(s, i) < j then CodeAt(s, i) else -1
    {
      Alphabet(j);
      if i < |s| && CP_CHARS[j] == s[i] {
        code := j;
      }
      if i < |s| {
        CodeCharIs(s[i], j);
      }
    }
  }

  /** The outer loop, from the last of `n` characters to the first, and the check code it ends with. */
  method FindCheckCode(s: string, n: nat) returns (code: int)
    ensures code == CheckCode(s, n)
  {
    hide Folded;
    var factor: Factor, sm, i := 2, 0, n;
    while i > 0
      invariant 0 <= i <= n
      invariant sm + Weighted(s, i, factor) == Weighted(s, n, 2)
    {
      i := i - 1;
      var codePoint := FindCodePoint(s, i);
      var digit := factor * codePoint;
      factor := if factor == 2 then 1 else 2;
      sm := sm + Folded(digit);
    }
    code := Rem(36 - Rem(sm, 36), 36);
    NegatedRemainder(sm);
  }

  lemma NegatedRemainder(sm: int)
    ensures Rem(36 - Rem(sm, 36), 36) == (-sm) % 36
  {
    if sm < 0 {
      var q, r := (-sm) / 36, (-sm) % 36;
      assert 36 - Rem(sm, 36) == 36 + r;
    }
  }

  function Upper(c: char): char { if 'a' <= c <= 'z' then c - 'a' + 'A' else c }

  const SMALL := "abcdefghijklmnopqrstuvwxyz"

  /** A small letter becomes the capital in its place of the alphabet, and nothing else changes. */
  lemma UpperIs(c: char)
    ensures forall i :: 0 <= i < 26 && SMALL[i] == c ==> Upper(c) == CP_CHARS[10 + i]
    ensures c !in SMALL ==> Upper(c) == c
  {
    forall i | 0 <= i < 26 && SMALL[i] == c ensures Upper(c) == CP_CHARS[10 + i] {
      SmallAt(i);
      Alphabet(10 + i);
    }
    if 'a' <= c <= 'z' {
      SmallAt(c as int - 'a' as int);
    }
  }

  lemma SmallAt(i: int)
    requires 0 <= i < 26
    ensures SMALL[i] == 'a' + i as char
  {
  }

  function Uppercase(s: string): (r: string)
    ensures |r| == |s| && forall i :: 0 <= i < |s| ==> r[i] == Upper(s[i])
  {
    seq(|s|, i requires 0 <= i < |s| => Upper(s[i]))
  }

  /** What the function decides; `pattern` stands for the format it asks for. */
  predicate Valid(text: Option<string>, pattern: string -> bool) {
    match text
    case None => true
    case Some(t) => t == EXCEPTION || (pattern(t) && |t| == 15 && Uppercase(t)[14] == CodeChar(CheckCode(Uppercase(t), 14)))
  }

  /** `check_gst_no`. */
  method CheckGstNo(text: Option<string>, pattern: string -> bool) returns (ok: bool)
    ensures ok <==> Valid(text, pattern)
  {
    if text == Some(EXCEPTION) {
      return true;
    }
    if text.Some? {
      if pattern(text.value) {
        var upper := Uppercase(text.value);
        var sub := if |upper| < 14 then upper else upper[..14];
        var code := FindCheckCode(sub, 14);
        if |upper| >= 14 {
          SamePayload(upper, sub, 14, 2);
        }
        Alphabet(code);
        ok := upper == sub + [CP_CHARS[code]];
        return;
      }
      return false;
    }
    ok := true;
  }

  lemma {:induction false} SamePayload(s: string, t: string, n: nat, f: Factor)
    requires n <= |s| && n <= |t| && forall i :: 0 <= i < n ==> s[i] == t[i]
    ensures Weighted(s, n, f) == Weighted(t, n, f)
  {
    if n > 0 {
      SamePayload(s, t, n - 1, 3 - f);
    }
  }

  // ---- what it detects -----------------------------------------------------------------------------------------

  lemma PayloadThenCheck(p: string, c: char)
    requires CodePoint(c) >= 0
    ensures Weighted(p + [c], |p| + 1, 1) == CodePoint(c) + Weighted(p, |p|, 2)
  {
    hide Folded;
    FoldedCode(CodePoint(c));
    SamePayload(p + [c], p, |p|, 2);
  }

  lemma Complement(x: int, w: int)
    requires 0 <= x < 36
    ensures (x + w) % 36 == 0 <==> x == (-w) % 36
  {
  }

  /** Exactly one final character balances a payload, and it is the one the loops compute. */
  lemma OneCheckCharacter(p: string, c: char)
    requires CodePoint(c) >= 0
    ensures Balanced(p + [c]) <==> c == CodeChar(CheckCode(p, |p|))
  {
    hide Folded, Weighted, CodeChar, CodePoint;
    PayloadThenCheck(p, c);
    CodeCharIs(c, CheckCode(p, |p|));
    Complement(CodePoint(c), Weighted(p, |p|, 2));
  }

  /** For numbers in the format, acceptance is being balanced. */
  lemma AcceptedIffBalanced(t: string, pattern: string -> bool)
    requires |t| == 15 && Alphanumeric(Uppercase(t)) && pattern(t) && t != EXCEPTION
    ensures Valid(Some(t), pattern) <==> Balanced(Uppercase(t))
  {
    hide Folded, Weighted, CodeChar, CodePoint;
    var u := Uppercase(t);
    assert u == u[..14] + [u[14]];
    OneCheckCharacter(u[..14], u[14]);
    SamePayload(u, u[..14], 14, 2);
  }

  lemma CodesDiffer(c: char, d: char)
    requires CodePoint(c) >= 0 && CodePoint(d) >= 0 && c != d
    ensures CodePoint(c) != CodePoint(d)
  {
  }

  /** Numbers that differ in one place weigh differently, by less than 36. */
  lemma {:induction false} OneOff(s: string, t: string, n: nat, f: Factor, k: nat)
    requires n <= |s| == |t| && Alphanumeric(s) && Alphanumeric(t)
    requires k < n && s[k] != t[k] && forall i :: 0 <= i < |s| && i != k ==> s[i] == t[i]
    ensures 0 < Weighted(s, n, f) - Weighted(t, n, f) < 36 || -36 < Weighted(s, n, f) - Weighted(t, n, f) < 0
  {
    hide Folded, CodePoint;
    if k == n - 1 {
      SamePayload(s, t, n - 1, 3 - f);
      CodesDiffer(s[k], t[k]);
      FoldedCode(CodePoint(s[k]));
      FoldedCode(CodePoint(t[k]));
    } else {
      OneOff(s, t, n - 1, 3 - f, k);
    }
  }

  lemma Apart(a: int, b: int)
    requires a % 36 == 0 && (0 < a - b < 36 || -36 < a - b < 0)
    ensures b % 36 != 0
  {
  }

  /** Every substitution of one character is detected, in numbers of any length. */
  lemma SubstitutionDetected(s: string, t: string, k: nat)
    requires |s| == |t| && Alphanumeric(s) && Alphanumeric(t) && k < |s|
    requires s[k] != t[k] && forall i :: 0 <= i < |s| && i != k ==> s[i] == t[i]
    requires Balanced(s)
    ensures !Balanced(t)
  {
    hide Weighted;
    OneOff(s, t, |s|, 1, k);
    Apart(Weighted(s, |s|, 1), Weighted(t, |t|, 1));
  }

  /** What a swap of neighbours with codes `x`, `y` changes. */
  lemma SwapShift(x: int, y: int)
    requires 0 <= x < 36 && 0 <= y < 36
    ensures (Folded(2 * x) + Folded(y) - Folded(2 * y) - Folded(x)) % 36 == 0
            <==> x == y || (x == 0 && y == 35) || (x == 35 && y == 0)
  {
    hide Folded;
    FoldedCode(x);
    FoldedCode(y);
    var dx, dy := if x < 18 then x else x - 35, if y < 18 then y else y - 35;
    assert Folded(2 * x) - x == dx && Folded(2 * y) - y == dy;
    assert Folded(2 * x) + Folded(y) - Folded(2 * y) - Folded(x) == dx - dy;
  }

  lemma {:induction false} SwappedAt(s: string, t: string, n: nat, f: Factor, k: nat)
    requires n <= |s| == |t| && Alphanumeric(s) && Alphanumeric(t)
    requires k + 1 < n && s[k] == t[k + 1] && s[k + 1] == t[k]
    requires forall i :: 0 <= i < |s| && i != k && i != k + 1 ==> s[i] == t[i]
    ensures var x, y := CodePoint(s[k]), CodePoint(s[k + 1]);
            var shift := Folded(2 * x) + Folded(y) - Folded(2 * y) - Folded(x);
            Weighted(s, n, f) - Weighted(t, n, f) == shift || Weighted(s, n, f) - Weighted(t, n, f) == -shift
  {
    hide Folded, CodePoint;
    if k + 2 == n {
      SamePayload(s, t, n - 2, f);
      var x, y := CodePoint(s[k]), CodePoint(s[k + 1]);
      assert Weighted(s, n, f) == Folded(f * y) + Weighted(s, n - 1, 3 - f);
      assert Weighted(s, n - 1, 3 - f) == Folded((3 - f) * x) + Weighted(s, n - 2, f);
      assert Weighted(t, n, f) == Folded(f * x) + Weighted(t, n - 1, 3 - f);
      assert Weighted(t, n - 1, 3 - f) == Folded((3 - f) * y) + Weighted(t, n - 2, f);
    } else {
      SwappedAt(s, t, n - 1, 3 - f, k);
    }
  }

  /** Swapping two different neighbours goes undetected exactly when they are 0 and Z. */
  lemma SwapDetected(s: string, t: string, k: nat)
    requires |s| == |t| && Alphanumeric(s) && Alphanumeric(t) && k + 1 < |s|
    requires s[k] == t[k + 1] && s[k + 1] == t[k] && s[k] != s[k + 1]
    requires forall i :: 0 <= i < |s| && i != k && i != k + 1 ==> s[i] == t[i]
    requires Balanced(s)
    ensures Balanced(t) <==> (s[k] == '0' && s[k + 1] == 'Z') || (s[k] == 'Z' && s[k + 1] == '0')
  {
    hide Folded, Weighted;
    var x, y := CodePoint(s[k]), CodePoint(s[k + 1]);
    SwappedAt(s, t, |s|, 1, k);
    SwapShift(x, y);
    assert x == 0 <==> s[k] == '0';
    assert y == 0 <==> s[k + 1] == '0';
    assert x == 35 <==> s[k] == 'Z';
    assert y == 35 <==> s[k + 1] == 'Z';
    var a, b, shift := Weighted(s, |s|, 1), Weighted(t, |t|, 1), Folded(2 * x) + Folded(y) - Folded(2 * y) - Folded(x);
    Congruent(a, b, shift);
  }

  lemma Congruent(a: int, b: int, d: int)
    requires a % 36 == 0 && (a - b == d || a - b == -d)
    ensures b % 36 == 0 <==> d % 36 == 0
  {
  }

  /** Lower-case letters count as their capitals. */
  lemma CaseDoesNotMatter(t: string, pattern: string -> bool)
    requires t != EXCEPTION && Uppercase(t) != EXCEPTION && (pattern(t) <==> pattern(Uppercase(t)))
    ensures Valid(Some(t), pattern) <==> Valid(Some(Uppercase(t)), pattern)
  {
    assert Uppercase(Uppercase(t)) == Uppercase(t);
  }
}
