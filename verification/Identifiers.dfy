/** Request identifiers, saga identifiers and Redis keys, all built with "%d" and "%s". */
module Identifiers {

  function Digit(d: nat): char
    requires d < 10
  {
    '0' + d as char
  }

  function Digits(n: nat): string {
    if n < 10 then [Digit(n)] else Digits(n / 10) + [Digit(n % 10)]
  }

  /** The "%d" verb. */
  function Decimal(n: int): string {
    if n < 0 then ['-'] + Digits(-n) else Digits(n)
  }

  predicate Numeral(s: string) {
    forall i | 0 <= i < |s| :: '0' <= s[i] <= '9'
  }

  function Value(s: string): int
    requires Numeral(s)
  {
    if s == [] then 0 else 10 * Value(s[..|s| - 1]) + (s[|s| - 1] as int - '0' as int)
  }

  lemma {:induction false} DigitsRoundTrip(n: nat)
    ensures |Digits(n)| > 0 && Numeral(Digits(n)) && Value(Digits(n)) == n
  {
    if n >= 10 {
      DigitsRoundTrip(n / 10);
      assert Digits(n)[..|Digits(n)| - 1] == Digits(n / 10);
    } else {
      assert Digits(n)[..0] == [];
    }
  }

  lemma DecimalInjective(m: int, n: int)
    requires Decimal(m) == Decimal(n)
    ensures m == n
  {
    DigitsRoundTrip(if m < 0 then -m else m);
    DigitsRoundTrip(if n < 0 then -n else n);
    assert m < 0 <==> Decimal(m)[0] == '-';
    assert n < 0 <==> Decimal(n)[0] == '-';
    if m < 0 {
      assert Decimal(m)[1..] == Digits(-m) && Decimal(n)[1..] == Digits(-n);
    }
  }

  lemma DecimalHasNoUnderscore(n: int)
    ensures '_' !in Decimal(n)
  {
    DigitsRoundTrip(if n < 0 then -n else n);
  }

  /** "seckill_%d_%d" over the buyer and the enqueue instant. */
  function RequestId(user: int, nanos: int): string {
    "seckill_" + Decimal(user) + "_" + Decimal(nanos)
  }

  /** "seckill_saga_%s" over the request ID. */
  function Gid(requestId: string): string {
    "seckill_saga_" + requestId
  }

  lemma SplitUnique(a: string, b: string, c: string, d: string)
    requires '_' !in a && '_' !in c
    requires a + "_" + b == c + "_" + d
    ensures a == c && b == d
  {
    var s := a + "_" + b;
    assert s[|a|] == '_' && s[|c|] == '_';
    assert forall i | 0 <= i < |a| :: s[i] == a[i];
    assert forall i | 0 <= i < |c| :: s[i] == c[i];
    assert |a| == |c|;
    assert a == s[..|a|] && c == s[..|c|];
    assert b == s[|a| + 1..] && d == s[|c| + 1..];
  }

  lemma RequestIdInjective(u: int, n: int, v: int, m: int)
    requires RequestId(u, n) == RequestId(v, m)
    ensures u == v && n == m
  {
    hide Decimal;
    DecimalHasNoUnderscore(u);
    DecimalHasNoUnderscore(v);
    assert RequestId(u, n)[8..] == Decimal(u) + "_" + Decimal(n);
    assert RequestId(v, m)[8..] == Decimal(v) + "_" + Decimal(m);
    SplitUnique(Decimal(u), Decimal(n), Decimal(v), Decimal(m));
    DecimalInjective(u, v);
    DecimalInjective(n, m);
  }

  lemma GidInjective(a: string, b: string)
    requires Gid(a) == Gid(b)
    ensures a == b
  {
    assert Gid(a)[13..] == a && Gid(b)[13..] == b;
  }

  /** Everything either service stores in the shared Redis database. */
  datatype Key =
    | ProductCache(id: int)
    | UserCache(id: int)
    | ProductLock(id: int)
    | UserLock(id: int)
    | RequestEntry(requestId: string)

  function Render(k: Key): string {
    match k
    case ProductCache(id) => "product:" + Decimal(id)
    case UserCache(id) => "user:" + Decimal(id)
    case ProductLock(id) => "lock:product:" + Decimal(id)
    case UserLock(id) => "lock:user:" + Decimal(id)
    case RequestEntry(requestId) => "seckill:request:" + requestId
  }

  /** The five families share one key space without a single collision. */
  lemma RenderInjective(a: Key, b: Key)
    requires Render(a) == Render(b)
    ensures a == b
  {
    var s := Render(a);
    assert s[0] == Render(b)[0];
    match a
    case ProductCache(id) =>
      assert b.ProductCache?;
      assert s[8..] == Decimal(id) && Render(b)[8..] == Decimal(b.id);
      DecimalInjective(id, b.id);
    case UserCache(id) =>
      assert b.UserCache?;
      assert s[5..] == Decimal(id) && Render(b)[5..] == Decimal(b.id);
      DecimalInjective(id, b.id);
    case ProductLock(id) =>
      assert s[5] == 'p' && Render(b)[5] == 'p';
      assert b.ProductLock?;
      assert s[13..] == Decimal(id) && Render(b)[13..] == Decimal(b.id);
      DecimalInjective(id, b.id);
    case UserLock(id) =>
      assert s[5] == 'u' && Render(b)[5] == 'u';
      assert b.UserLock?;
      assert s[10..] == Decimal(id) && Render(b)[10..] == Decimal(b.id);
      DecimalInjective(id, b.id);
    case RequestEntry(requestId) =>
      assert b.RequestEntry?;
      assert s[16..] == requestId && Render(b)[16..] == b.requestId;
  }

  /** The formats, on one buyer and one instant. */
  lemma Formats()
    ensures RequestId(7, 42) == "seckill_7_42" && Gid("seckill_7_42") == "seckill_saga_seckill_7_42"
    ensures Render(ProductCache(1)) == "product:1" && Render(UserCache(7)) == "user:7"
    ensures Render(ProductLock(1)) == "lock:product:1" && Render(UserLock(7)) == "lock:user:7"
    ensures Render(RequestEntry("a")) == "seckill:request:a"
  {
    Numerals();
    hide Decimal;
  }

  lemma Numerals()
    ensures Decimal(1) == "1" && Decimal(7) == "7" && Decimal(42) == "42"
    ensures Decimal(1042) == "1042" && Decimal(-7) == "-7"
  {
    assert Digits(42) == Digits(4) + "2";
    assert Digits(10) == "1" + "0";
    assert Digits(104) == Digits(10) + "4";
    assert Digits(1042) == Digits(104) + "2";
  }
}
