/** Vocabulary shared by the models of the AegisEdge edge agent. */
module Common {

  /** Instants and durations are integers (nanoseconds in the agent). */
  type Time = int

  datatype Option<+T> = None | Some(value: T)

  datatype Result<+T, +E> = Ok(value: T) | Err(error: E)

  function Min(a: int, b: int): int {
    if a <= b then a else b
  }

  function Max(a: int, b: int): int {
    if a >= b then a else b
  }

  /** The Unicode White_Space property, which strings.TrimSpace strips. */
  predicate IsSpace(c: char) {
    var n := c as int;
    0x09 <= n <= 0x0D || n == 0x20 || n == 0x85 || n == 0xA0 || n == 0x1680 ||
    0x2000 <= n <= 0x200A || n == 0x2028 || n == 0x2029 || n == 0x202F || n == 0x205F || n == 0x3000
  }

  /** strings.TrimSpace(s) == "" */
  predicate Blank(s: string) {
    forall i :: 0 <= i < |s| ==> IsSpace(s[i])
  }

  /** strings.TrimSpace */
  function Trim(s: string): string {
    if s == "" then s
    else if IsSpace(s[0]) then Trim(s[1..])
    else if IsSpace(s[|s| - 1]) then Trim(s[..|s| - 1])
    else s
  }

  lemma {:induction false} TrimKeeps(s: string, c: char)
    requires c !in s
    ensures c !in Trim(s)
  {
    if s != "" {
      if IsSpace(s[0]) { TrimKeeps(s[1..], c); } else if IsSpace(s[|s| - 1]) { TrimKeeps(s[..|s| - 1], c); }
    }
  }

  // ---- Decimal numerals --------------------------------------------------------

  function Digit(n: nat): char
    requires n < 10
  {
    ['0', '1', '2', '3', '4', '5', '6', '7', '8', '9'][n]
  }

  function Decimal(n: nat): string {
    if n < 10 then [Digit(n)] else Decimal(n / 10) + [Digit(n % 10)]
  }

  lemma {:induction false} DecimalInjective(a: nat, b: nat)
    requires Decimal(a) == Decimal(b)
    ensures a == b
  {
    if a >= 10 && b >= 10 {
      assert Decimal(a)[..|Decimal(a)| - 1] == Decimal(a / 10);
      assert Decimal(b)[..|Decimal(b)| - 1] == Decimal(b / 10);
      DecimalInjective(a / 10, b / 10);
      assert Decimal(a)[|Decimal(a)| - 1] == Digit(a % 10) && Decimal(b)[|Decimal(b)| - 1] == Digit(b % 10);
    } else {
      DecimalNotEmpty(a / 10);
      DecimalNotEmpty(b / 10);
      assert |Decimal(a)| == 1 <==> a < 10;
      assert |Decimal(b)| == 1 <==> b < 10;
    }
  }

  lemma DecimalNotEmpty(n: nat)
    ensures |Decimal(n)| >= 1
  {
  }

  /** %d */
  function Signed(n: int): string {
    if n < 0 then "-" + Decimal(-n) else Decimal(n)
  }

  lemma {:induction false} DecimalDigits(n: nat, c: char)
    requires c < '0' || c > '9'
    ensures c !in Decimal(n)
  {
    if n >= 10 { DecimalDigits(n / 10, c); }
  }

  lemma MinusIffNegative(n: int)
    ensures |Signed(n)| > 0 && (Signed(n)[0] == '-' <==> n < 0)
  {
    if n >= 0 {
      DecimalNotEmpty(n);
      DecimalDigits(n, '-');
      assert Decimal(n)[0] in Decimal(n);
    }
  }

  lemma SignedInjective(a: int, b: int)
    requires Signed(a) == Signed(b)
    ensures a == b
  {
    MinusIffNegative(a);
    MinusIffNegative(b);
    if a < 0 {
      assert Signed(a)[1..] == Decimal(-a) && Signed(b)[1..] == Decimal(-b);
      DecimalInjective(-a, -b);
    } else {
      DecimalInjective(a, b);
    }
  }

  // ---- Joining fields with a bar ---------------------------------------------------

  function Bars(s: string): nat {
    if s == "" then 0 else Bars(s[..|s| - 1]) + if s[|s| - 1] == '|' then 1 else 0
  }

  lemma {:induction false} BarsConcat(a: string, b: string)
    ensures Bars(a + b) == Bars(a) + Bars(b)
  {
    if b == "" {
      assert a + b == a;
    } else {
      BarsConcat(a, b[..|b| - 1]);
      assert (a + b)[..|a + b| - 1] == a + b[..|b| - 1];
    }
  }

  lemma {:induction false} NoBarsIff(s: string)
    ensures Bars(s) == 0 <==> '|' !in s
  {
    if s != "" {
      NoBarsIff(s[..|s| - 1]);
      assert s == s[..|s| - 1] + [s[|s| - 1]];
    }
  }

  function Join2(a: string, b: string): string { a + "|" + b }

  lemma BarsOfJoin(a: string, b: string)
    ensures Bars(Join2(a, b)) == Bars(a) + 1 + Bars(b)
  {
    BarsConcat(a + "|", b);
    BarsConcat(a, "|");
    assert "|"[..0] == "";
  }

  lemma BarStandsAfter(b: string, y: string, k: nat)
    requires '|' !in b && k < |Join2(b, y)| && Join2(b, y)[k] == '|'
    ensures |b| <= k
  {
  }

  lemma FieldIsShorter(a: string, x: string, b: string, y: string)
    requires '|' !in b && Join2(a, x) == Join2(b, y)
    ensures |b| <= |a|
  {
    assert Join2(a, x)[|a|] == '|';
    BarStandsAfter(b, y, |a|);
  }

  /** A field without a bar ends where the first bar stands. */
  lemma FirstField(a: string, x: string, b: string, y: string)
    requires '|' !in a && '|' !in b && Join2(a, x) == Join2(b, y)
    ensures a == b && x == y
  {
    FieldIsShorter(a, x, b, y);
    FieldIsShorter(b, y, a, x);
    assert Join2(a, x)[..|a|] == a && Join2(b, y)[..|b|] == b;
    assert Join2(a, x)[|a| + 1..] == x && Join2(b, y)[|b| + 1..] == y;
  }

  // ---- Sums over maps --------------------------------------------------------

  ghost function Sum<K>(m: map<K, nat>): nat {
    if m == map[] then 0
    else
      var k :| k in m;
      m[k] + Sum(m - {k})
  }

  lemma {:induction false} SumSplit<K>(m: map<K, nat>, k: K)
    requires k in m
    ensures Sum(m) == m[k] + Sum(m - {k})
    decreases m
  {
    var j :| j in m && Sum(m) == m[j] + Sum(m - {j});
    if j != k {
      SumSplit(m - {j}, k);
      SumSplit(m - {k}, j);
      assert m - {j} - {k} == m - {k} - {j};
    }
  }

  lemma SumUpdate<K>(m: map<K, nat>, k: K, v: nat)
    ensures Sum(m[k := v]) == Sum(m) - (if k in m then m[k] else 0) + v
  {
    SumSplit(m[k := v], k);
    assert m[k := v] - {k} == m - {k};
    if k in m { SumSplit(m, k); } else { assert m - {k} == m; }
  }

  /** Pointwise at most, on the same keys. */
  lemma {:induction false} SumMonotone<K>(m: map<K, nat>, m': map<K, nat>)
    requires m'.Keys <= m.Keys && forall k :: k in m' ==> m'[k] <= m[k]
    ensures Sum(m') <= Sum(m)
    decreases m'
  {
    if m' != map[] {
      var k :| k in m';
      SumSplit(m, k);
      SumSplit(m', k);
      SumMonotone(m - {k}, m' - {k});
    }
  }
}
