/** Decimal numbers, keys joined on `|`, and splitting. */
module Rendering {
  function Digits(n: nat): (s: string)
    ensures |s| > 0 && forall i :: 0 <= i < |s| ==> '0' <= s[i] <= '9'
    decreases n
  {
    if n < 10 then [Digit(n)] else Digits(n / 10) + [Digit(n % 10)]
  }

  function Digit(d: nat): (c: char)
    requires d < 10
    ensures '0' <= c <= '9'
  {
    "0123456789"[d]
  }

  lemma {:induction false} DigitsInjective(a: nat, b: nat)
    requires Digits(a) == Digits(b)
    ensures a == b
    decreases a
  {
    var s, t := Digits(a), Digits(b);
    if a >= 10 && b >= 10 {
      assert s[..|s| - 1] == Digits(a / 10) && t[..|t| - 1] == Digits(b / 10);
      assert s[|s| - 1] == Digit(a % 10) && t[|t| - 1] == Digit(b % 10);
      DigitsInjective(a / 10, b / 10);
    } else if a < 10 && b < 10 {
      assert s[0] == Digit(a) && t[0] == Digit(b);
    }
  }

  predicate NoBar(s: string) {
    forall i :: 0 <= i < |s| ==> s[i] != '|'
  }

  /** What follows the last `|` can be told apart from what precedes it. */
  lemma JoinInjective(a: string, b: string, c: string, d: string)
    requires NoBar(b) && NoBar(d) && a + "|" + b == c + "|" + d
    ensures a == c && b == d
  {
    var s := a + "|" + b;
    assert s[|a|] == '|' && (c + "|" + d)[|c|] == '|';
    assert a == s[..|a|] && c == (c + "|" + d)[..|c|];
    assert b == s[|a| + 1..] && d == (c + "|" + d)[|c| + 1..];
  }

  /** `s.split(c)[0]`. */
  function UpTo(s: string, c: char): (r: string)
    ensures r <= s && c !in r && (|r| < |s| ==> s[|r|] == c)
  {
    if |s| == 0 || s[0] == c then "" else [s[0]] + UpTo(s[1..], c)
  }

  lemma {:induction false} UpToOf(a: string, b: string, c: char)
    requires c !in a && (|b| > 0 ==> b[0] == c)
    ensures UpTo(a + b, c) == a
  {
    if |a| > 0 {
      assert (a + b)[0] == a[0] && (a + b)[1..] == a[1..] + b;
      UpToOf(a[1..], b, c);
    } else {
      assert a + b == b;
    }
  }
}
