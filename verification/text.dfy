/** The few JavaScript string operations the client and server rely on. */
module Text {

  /** `s.startsWith(p)`. */
  predicate StartsWith(s: string, p: string) {
    |p| <= |s| && s[..|p|] == p
  }

  /** `s.includes(sub)`: `sub` starts at offset 0 of `s` or somewhere in its tail. */
  predicate Contains(s: string, sub: string)
    decreases |s|
  {
    StartsWith(s, sub) || (s != [] && Contains(s[1..], sub))
  }

  /** The characters of `s` from offset `i` on spell `sub`. */
  predicate OccursAt(s: string, sub: string, i: int) {
    0 <= i <= |s| - |sub| && s[i..i + |sub|] == sub
  }

  /** The offset reading of `includes`: some window of `s` spells `sub`. */
  lemma {:induction false} ContainsIff(s: string, sub: string)
    ensures Contains(s, sub) <==> exists i :: OccursAt(s, sub, i)
    decreases |s|
  {
    if Contains(s, sub) {
      if StartsWith(s, sub) {
        assert OccursAt(s, sub, 0);
      } else {
        ContainsIff(s[1..], sub);
        var i :| OccursAt(s[1..], sub, i);
        assert s[i + 1..i + 1 + |sub|] == s[1..][i..i + |sub|];
        assert OccursAt(s, sub, i + 1);
      }
    }
    if exists i :: OccursAt(s, sub, i) {
      var i :| OccursAt(s, sub, i);
      if i == 0 {
        assert StartsWith(s, sub);
      } else {
        assert s[1..][i - 1..i - 1 + |sub|] == s[i..i + |sub|];
        assert OccursAt(s[1..], sub, i - 1);
        ContainsIff(s[1..], sub);
      }
    }
  }

  /** True when every character of `s` is an ASCII decimal digit. */
  predicate IsDigits(s: string) {
    forall i :: 0 <= i < |s| ==> '0' <= s[i] <= '9'
  }

  function DigitChar(d: nat): (c: char)
    requires d < 10
    ensures '0' <= c <= '9' && c as int - '0' as int == d
  {
    ('0' as int + d) as char
  }

  /** `String(n)` for a non-negative integer: its decimal digits, most significant first. */
  function Digits(n: nat): string
    decreases n
  {
    if n < 10 then [DigitChar(n)] else Digits(n / 10) + [DigitChar(n % 10)]
  }

  /** `String(n)` is a non-empty digit string without a leading zero; one digit below 10, at most two below 100. */
  lemma {:induction false} DigitsShape(n: nat)
    ensures IsDigits(Digits(n)) && |Digits(n)| >= 1
    ensures |Digits(n)| == 1 <==> n < 10
    ensures n < 100 ==> |Digits(n)| <= 2
    ensures |Digits(n)| > 1 ==> Digits(n)[0] != '0'
    decreases n
  {
    if n >= 10 {
      DigitsShape(n / 10);
      assert Digits(n)[0] == Digits(n / 10)[0];
    }
  }

  /** The number a string of decimal digits denotes (leading zeros allowed). */
  function Value(s: string): nat
    requires IsDigits(s)
  {
    if s == [] then 0 else Value(s[..|s| - 1]) * 10 + (s[|s| - 1] as int - '0' as int)
  }

  /** Reading back what `Digits` wrote gives the number again. */
  lemma {:induction false} ValueDigits(n: nat)
    ensures IsDigits(Digits(n)) && Value(Digits(n)) == n
    decreases n
  {
    DigitsShape(n);
    if n >= 10 {
      var s := Digits(n);
      assert s[..|s| - 1] == Digits(n / 10);
      ValueDigits(n / 10);
    }
  }

  /** `count` copies of `c`. */
  function Repeat(c: char, count: nat): string {
    if count == 0 then [] else [c] + Repeat(c, count - 1)
  }

  lemma {:induction false} RepeatShape(c: char, count: nat)
    ensures |Repeat(c, count)| == count && forall i :: 0 <= i < count ==> Repeat(c, count)[i] == c
  {
    if count > 0 {
      RepeatShape(c, count - 1);
    }
  }

  /** `s.padStart(width, fill)`. */
  function PadStart(s: string, width: nat, fill: char): string {
    if |s| >= width then s else Repeat(fill, width - |s|) + s
  }

  /** Padding fills on the left up to `width` characters and never truncates: `s` is kept whole at the end. */
  lemma PadStartShape(s: string, width: nat, fill: char)
    ensures var r := PadStart(s, width, fill);
      && |r| == (if |s| >= width then |s| else width)
      && r[|r| - |s|..] == s
      && forall i :: 0 <= i < |r| - |s| ==> r[i] == fill
  {
    if |s| < width {
      RepeatShape(fill, width - |s|);
    }
  }

  /** Leading zeros do not change the value of a digit string. */
  lemma {:induction false} ValueLeadingZeros(count: nat, s: string)
    requires IsDigits(s)
    ensures IsDigits(Repeat('0', count) + s) && Value(Repeat('0', count) + s) == Value(s)
    decreases |s|
  {
    var z := Repeat('0', count);
    RepeatShape('0', count);
    assert IsDigits(z + s);
    if s == [] {
      assert z + s == z;
      ZerosValue(count);
    } else {
      var t := z + s;
      assert t[..|t| - 1] == z + s[..|s| - 1];
      ValueLeadingZeros(count, s[..|s| - 1]);
    }
  }

  /** A string of zeros denotes zero. */
  lemma {:induction false} ZerosValue(count: nat)
    ensures IsDigits(Repeat('0', count)) && Value(Repeat('0', count)) == 0
  {
    RepeatShape('0', count);
    if count > 0 {
      var z := Repeat('0', count);
      RepeatShape('0', count - 1);
      assert z[..count - 1] == Repeat('0', count - 1);
      ZerosValue(count - 1);
    }
  }
}
