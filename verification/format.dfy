/** Go's `fmt.Sprintf("%d", n)` for the non-negative ports the demo
    services print into their URLs, and the reading back that shows the
    printed form determines the number. */
module Format {
  predicate IsDigit(c: char)
  {
    '0' <= c <= '9'
  }

  predicate AllDigits(s: string)
  {
    forall i :: 0 <= i < |s| ==> IsDigit(s[i])
  }

  function DigitChar(d: nat): (c: char)
    requires d < 10
    ensures IsDigit(c) && c as int - '0' as int == d
  {
    ('0' as int + d) as char
  }

  /** The decimal form of `n`: digits only, with no leading zero except
      for 0 itself. */
  function Decimal(n: nat): (s: string)
    ensures 1 <= |s| && AllDigits(s)
    ensures s[0] == '0' ==> n == 0
  {
    if n < 10 then [DigitChar(n)] else Decimal(n / 10) + [DigitChar(n % 10)]
  }

  /** The number a digit string denotes. */
  function ParseDecimal(s: string): nat
    requires AllDigits(s)
  {
    if |s| == 0 then 0 else ParseDecimal(s[..|s| - 1]) * 10 + (s[|s| - 1] as int - '0' as int)
  }

  /** Reading the printed form gives the number back. */
  lemma {:induction false} DecimalRoundTrip(n: nat)
    ensures ParseDecimal(Decimal(n)) == n
  {
    if n >= 10 {
      var s := Decimal(n);
      assert s[..|s| - 1] == Decimal(n / 10);
      DecimalRoundTrip(n / 10);
    }
  }

  /** Different numbers print differently. */
  lemma DecimalInjective(m: nat, n: nat)
    ensures Decimal(m) == Decimal(n) <==> m == n
  {
    if Decimal(m) == Decimal(n) {
      DecimalRoundTrip(m);
      DecimalRoundTrip(n);
    }
  }

  /** A run of digits followed by text that does not start with a digit:
      the run can be read off the front. */
  lemma DigitsThenText(s: string, u: string, t: string, v: string)
    requires AllDigits(s) && AllDigits(t)
    requires |u| > 0 && !IsDigit(u[0])
    requires |v| > 0 && !IsDigit(v[0])
    requires s + u == t + v
    ensures s == t && u == v
  {
    assert s == (s + u)[..|s|];
    assert t == (t + v)[..|t|];
    assert u == (s + u)[|s|..];
    assert v == (t + v)[|t|..];
  }

  /** `fmt.Sprintf("http://localhost:%d<path>", port)`. */
  function Localhost(port: nat, path: string): string
  {
    "http://localhost:" + Decimal(port) + path
  }

  /** A local service URL names one port and one path. */
  lemma LocalhostInjective(p: nat, path: string, q: nat, path': string)
    requires |path| > 0 && path[0] == '/' && |path'| > 0 && path'[0] == '/'
    ensures Localhost(p, path) == Localhost(q, path') <==> p == q && path == path'
  {
    if Localhost(p, path) == Localhost(q, path') {
      var prefix := "http://localhost:";
      assert Localhost(p, path) == prefix + (Decimal(p) + path);
      assert Localhost(q, path') == prefix + (Decimal(q) + path');
      assert Decimal(p) + path == Localhost(p, path)[|prefix|..];
      assert Decimal(q) + path' == Localhost(q, path')[|prefix|..];
      DigitsThenText(Decimal(p), path, Decimal(q), path');
      DecimalInjective(p, q);
    }
  }
}
