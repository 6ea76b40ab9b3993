/** Small value types and string helpers shared by every module. */
module Common {

  datatype Option<+T> = None | Some(value: T)

  /** True when `prefix` starts `s`. */
  predicate HasPrefix(s: string, prefix: string) {
    |prefix| <= |s| && s[..|prefix|] == prefix
  }

  lemma PrefixCancels(prefix: string, a: string, b: string)
    ensures prefix + a == prefix + b <==> a == b
  {
    if prefix + a == prefix + b {
      assert a == (prefix + a)[|prefix|..];
      assert b == (prefix + b)[|prefix|..];
    }
  }

  lemma SuffixCancels(a: string, b: string, suffix: string)
    ensures a + suffix == b + suffix <==> a == b
  {
    if a + suffix == b + suffix {
      assert |a| == |b|;
      assert a == (a + suffix)[..|a|] && b == (b + suffix)[..|b|];
    }
  }

  /** The pair (a, b) moves the joining dash into its first part: a is c with "-w" behind it,
      and e is b with "w-" in front. */
  predicate Extends(a: string, b: string, c: string, e: string) {
    |a| > |c| && a[..|c|] == c && a[|c|] == '-' && e == a[|c| + 1..] + "-" + b
  }

  /** Two pairs joined by a dash give one string exactly when they are equal or one extends
      the other. */
  lemma JoinCollisions(a: string, b: string, c: string, e: string)
    ensures a + "-" + b == c + "-" + e <==> (a == c && b == e) || Extends(a, b, c, e) || Extends(c, e, a, b)
    decreases |c|
  {
    var x, y := a + "-" + b, c + "-" + e;
    if |a| < |c| {
      JoinCollisions(c, e, a, b);
    } else {
      assert x[..|c|] == a[..|c|] && y[..|c|] == c;
      assert x[|a| + 1..] == b && y[|c| + 1..] == e && y[|c|] == '-';
      if |a| > |c| {
        assert x[|c|] == a[|c|];
        assert x[|c| + 1..] == a[|c| + 1..] + "-" + b;
        assert y == y[..|c|] + [y[|c|]] + y[|c| + 1..];
        assert x == x[..|c|] + [x[|c|]] + x[|c| + 1..];
      }
    }
  }

  const DIGITS := "0123456789"

  /** The base-ten rendering of a number, as `%d` prints it. */
  function Decimal(n: nat): (s: string)
    ensures |s| > 0
  {
    if n < 10 then [DIGITS[n]] else Decimal(n / 10) + [DIGITS[n % 10]]
  }

  lemma {:induction false} DecimalLength(n: nat)
    ensures n < 10 <==> |Decimal(n)| == 1
  {
    if n >= 10 {
      assert |Decimal(n / 10)| > 0;
    }
  }

  lemma DigitsDiffer(a: nat, b: nat)
    requires a < 10 && b < 10
    ensures DIGITS[a] == DIGITS[b] <==> a == b
  {
  }

  /** Two numbers print alike only when they are equal. */
  lemma {:induction false} DecimalInjective(a: nat, b: nat)
    ensures Decimal(a) == Decimal(b) <==> a == b
    decreases a
  {
    DecimalLength(a);
    DecimalLength(b);
    if a < 10 && b < 10 {
      DigitsDiffer(a, b);
    } else if a >= 10 && b >= 10 {
      DecimalInjective(a / 10, b / 10);
      DigitsDiffer(a % 10, b % 10);
      var x, y := Decimal(a), Decimal(b);
      assert x[..|x| - 1] == Decimal(a / 10) && x[|x| - 1] == DIGITS[a % 10];
      assert y[..|y| - 1] == Decimal(b / 10) && y[|y| - 1] == DIGITS[b % 10];
    }
  }
}
