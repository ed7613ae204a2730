/** Character classes, decimal digits, joining and splitting. */
module Texts {
  import opened Wrappers

  predicate IsDigit(c: char) { '0' <= c <= '9' }
  predicate IsLower(c: char) { 'a' <= c <= 'z' }
  predicate IsUpper(c: char) { 'A' <= c <= 'Z' }
  predicate IsAlpha(c: char) { IsLower(c) || IsUpper(c) }
  predicate IsAlnum(c: char) { IsAlpha(c) || IsDigit(c) }
  predicate IsLowerHex(c: char) { IsDigit(c) || 'a' <= c <= 'f' }
  predicate IsHex(c: char) { IsDigit(c) || 'a' <= c <= 'f' || 'A' <= c <= 'F' }

  function HexValue(c: char): (n: nat)
    requires IsHex(c)
    ensures n < 16
  {
    if IsDigit(c) then c as int - '0' as int
    else if 'a' <= c <= 'f' then c as int - 'a' as int + 10
    else c as int - 'A' as int + 10
  }

  predicate AllDigits(s: string) {
    forall i :: 0 <= i < |s| ==> IsDigit(s[i])
  }

  function DigitValue(c: char): (n: nat)
    requires IsDigit(c)
    ensures n < 10
  {
    c as int - '0' as int
  }

  function DigitChar(n: nat): (c: char)
    requires n < 10
    ensures IsDigit(c) && DigitValue(c) == n
  {
    '0' + n as char
  }

  /** The decimal spelling Python's str() gives a non-negative integer. */
  function Digits(n: nat): (s: string)
    ensures |s| > 0 && AllDigits(s)
  {
    if n < 10 then [DigitChar(n)] else Digits(n / 10) + [DigitChar(n % 10)]
  }

  /** The number a run of digits denotes; leading zeros are allowed. */
  function Number(s: string): nat
    requires AllDigits(s)
  {
    if s == [] then 0 else 10 * Number(s[..|s| - 1]) + DigitValue(s[|s| - 1])
  }

  predicate NoLeadingZero(s: string) {
    |s| > 0 && (s[0] == '0' ==> |s| == 1)
  }

  function Pow10(n: nat): (p: nat)
    ensures p > 0
  {
    if n == 0 then 1 else 10 * Pow10(n - 1)
  }

  lemma {:induction false} NumberOfDigits(n: nat)
    ensures Number(Digits(n)) == n && NoLeadingZero(Digits(n))
    ensures n > 0 ==> Digits(n)[0] != '0'
  {
    if n >= 10 {
      NumberOfDigits(n / 10);
      assert Digits(n)[..|Digits(n)| - 1] == Digits(n / 10);
    }
  }

  lemma {:induction false} DigitsOfNumber(s: string)
    requires AllDigits(s) && NoLeadingZero(s)
    ensures Digits(Number(s)) == s
  {
    var t := s[..|s| - 1];
    if |s| == 1 {
      assert t == [];
      assert s == [DigitChar(DigitValue(s[0]))];
    } else {
      NumberPositive(t);
      DigitsOfNumber(t);
      assert s == t + [s[|s| - 1]];
      assert DigitChar(DigitValue(s[|s| - 1])) == s[|s| - 1];
    }
  }

  lemma {:induction false} NumberPositive(s: string)
    requires AllDigits(s) && |s| > 0 && s[0] != '0'
    ensures Number(s) > 0
  {
    if |s| > 1 {
      NumberPositive(s[..|s| - 1]);
    } else {
      assert s[..0] == [];
    }
  }

  lemma {:induction false} NumberBound(s: string)
    requires AllDigits(s)
    ensures Number(s) < Pow10(|s|)
  {
    if s != [] {
      NumberBound(s[..|s| - 1]);
    }
  }

  lemma {:induction false} NumberLowerBound(s: string)
    requires AllDigits(s) && |s| > 0 && s[0] != '0'
    ensures Pow10(|s| - 1) <= Number(s)
  {
    if |s| > 1 {
      NumberLowerBound(s[..|s| - 1]);
    } else {
      NumberPositive(s);
    }
  }

  lemma {:induction false} Pow10Monotone(m: nat, n: nat)
    requires m <= n
    ensures Pow10(m) <= Pow10(n)
  {
    if m < n {
      Pow10Monotone(m, n - 1);
    }
  }

  /** A spelling without leading zeros has at most k digits exactly when it denotes less than 10^k. */
  lemma DigitCount(s: string, k: nat)
    requires AllDigits(s) && NoLeadingZero(s) && k > 0
    ensures |s| <= k <==> Number(s) < Pow10(k)
  {
    NumberBound(s);
    if |s| <= k {
      Pow10Monotone(|s|, k);
    } else {
      NumberLowerBound(s);
      Pow10Monotone(k, |s| - 1);
    }
  }

  lemma {:induction false} NumberConcat(s: string, t: string)
    requires AllDigits(s) && AllDigits(t)
    ensures AllDigits(s + t)
    ensures Number(s + t) == Number(s) * Pow10(|t|) + Number(t)
  {
    if t == [] {
      assert s + t == s;
    } else {
      var u, last := t[..|t| - 1], t[|t| - 1];
      NumberConcat(s, u);
      assert (s + t)[..|s + t| - 1] == s + u && (s + t)[|s + t| - 1] == last;
      assert Number(s + t) == 10 * Number(s + u) + DigitValue(last);
      Distribute(Number(s), Pow10(|u|), Number(u));
    }
  }

  lemma Distribute(a: nat, p: nat, n: nat)
    ensures 10 * (a * p + n) == a * (10 * p) + 10 * n
  {
  }

  function Zeros(n: nat): (s: string)
    ensures |s| == n && AllDigits(s)
  {
    seq(n, _ => '0')
  }

  lemma {:induction false} NumberZeros(n: nat)
    ensures Number(Zeros(n)) == 0
  {
    if n > 0 {
      assert Zeros(n)[..n - 1] == Zeros(n - 1);
      NumberZeros(n - 1);
    }
  }

  /** Python's str.split on a one-character separator: always at least one part. */
  function Split(s: string, sep: char): (parts: seq<string>)
    ensures |parts| > 0
  {
    if s == [] then [[]]
    else if s[0] == sep then [[]] + Split(s[1..], sep)
    else
      var rest := Split(s[1..], sep);
      [[s[0]] + rest[0]] + rest[1..]
  }

  /** Python's sep.join(parts). */
  function Join(parts: seq<string>, sep: char): string {
    if parts == [] then []
    else if |parts| == 1 then parts[0]
    else parts[0] + [sep] + Join(parts[1..], sep)
  }

  predicate Free(s: string, c: char) {
    c !in s
  }

  /** Index of the first character listed in stops, or the length. */
  function Until(s: string, stops: string): (n: nat)
    ensures n <= |s| && (forall i :: 0 <= i < n ==> s[i] !in stops) && (n < |s| ==> s[n] in stops)
  {
    if s == [] || s[0] in stops then 0 else 1 + Until(s[1..], stops)
  }

  lemma {:induction false} UntilStops(s: string, stops: string, rest: string)
    requires forall i :: 0 <= i < |s| ==> s[i] !in stops
    requires rest == [] || rest[0] in stops
    ensures Until(s + rest, stops) == |s|
  {
    if s == [] {
      assert s + rest == rest;
    } else {
      assert (s + rest)[1..] == s[1..] + rest;
      UntilStops(s[1..], stops, rest);
    }
  }

  /** Splitting cuts at the first separator and goes on behind it. */
  lemma {:induction false} SplitAtFirst(s: string, sep: char)
    ensures var n := Until(s, [sep]); Split(s, sep) == if n == |s| then [s] else [s[..n]] + Split(s[n + 1..], sep)
  {
    if s != [] && s[0] != sep {
      SplitAtFirst(s[1..], sep);
      var n := Until(s[1..], [sep]);
      assert s == [s[0]] + s[1..];
      if n < |s[1..]| {
        assert s[..n + 1] == [s[0]] + s[1..][..n];
        assert s[1..][n + 1..] == s[n + 2..];
      }
    }
  }

  lemma {:induction false} JoinSplit(s: string, sep: char)
    ensures Join(Split(s, sep), sep) == s
    ensures forall p :: p in Split(s, sep) ==> Free(p, sep)
  {
    if s == [] {
      assert Split(s, sep) == [[]];
    } else {
      var rest := Split(s[1..], sep);
      JoinSplit(s[1..], sep);
      if s[0] == sep {
        assert ([[]] + rest)[1..] == rest;
        assert s == [sep] + s[1..];
      } else {
        var parts := [[s[0]] + rest[0]] + rest[1..];
        assert parts[1..] == rest[1..];
        assert rest[0] in rest;
        assert s == [s[0]] + s[1..];
      }
    }
  }

  lemma {:induction false} SplitJoin(parts: seq<string>, sep: char)
    requires |parts| > 0
    requires forall p :: p in parts ==> Free(p, sep)
    ensures Split(Join(parts, sep), sep) == parts
    decreases |parts|, |parts[0]|
  {
    var p := parts[0];
    assert p in parts;
    if p == [] {
      if |parts| > 1 {
        var t := Join(parts[1..], sep);
        assert Join(parts, sep) == [sep] + t;
        assert ([sep] + t)[1..] == t;
        SplitJoin(parts[1..], sep);
        assert parts == [[]] + parts[1..];
      }
    } else {
      var q := [p[1..]] + parts[1..];
      assert q[1..] == parts[1..];
      assert p == [p[0]] + p[1..];
      forall x | x in q ensures Free(x, sep) {
        if x == p[1..] { assert forall i :: 0 <= i < |x| ==> x[i] == p[i + 1]; }
      }
      SplitJoin(q, sep);
      assert Join(parts, sep) == [p[0]] + Join(q, sep);
      assert p[0] in p;
      assert parts == [[p[0]] + q[0]] + q[1..];
    }
  }
}
