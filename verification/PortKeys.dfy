/**
 Port numbers as text: the decimal form strconv writes and reads, the port ranges and Redis keys of
 pkg/controller/ports.go, and the bound keys of pkg/controller/bindings.go.
 */
module PortKeys {
  import opened Frames

  const MAX_PORT := 65535

  predicate IsDigit(c: char) {
    '0' <= c <= '9'
  }

  function Digit(d: nat): char
    requires d < 10
  {
    '0' + d as char
  }

  /** `strconv.FormatUint(n, 10)`. */
  function Decimal(n: nat): (s: string)
    ensures s != [] && forall i | 0 <= i < |s| :: IsDigit(s[i])
  {
    if n < 10 then [Digit(n)] else Decimal(n / 10) + [Digit(n % 10)]
  }

  ghost predicate AllDigits(s: string) {
    forall i | 0 <= i < |s| :: IsDigit(s[i])
  }

  /** The number a string of digits denotes; None if some character is not a digit. */
  function Value(s: string): Option<nat> {
    if s == [] then Some(0)
    else
      var init, last := Value(s[..|s| - 1]), s[|s| - 1];
      if init.None? || !IsDigit(last) then None else Some(10 * init.value + (last - '0') as nat)
  }

  /** `strconv.ParseUint(s, 10, 16)`: digits only, at least one, within sixteen bits. */
  function ParsePort(s: string): Option<nat> {
    if s == [] || Value(s).None? || Value(s).value > MAX_PORT then None else Value(s)
  }

  lemma {:induction false} DecimalValue(n: nat)
    ensures Value(Decimal(n)) == Some(n)
  {
    if n >= 10 {
      DecimalValue(n / 10);
      assert Decimal(n)[..|Decimal(n)| - 1] == Decimal(n / 10);
    } else {
      assert Decimal(n)[..0] == [];
    }
  }

  lemma DecimalInjective(m: nat, n: nat)
    requires Decimal(m) == Decimal(n)
    ensures m == n
  {
    DecimalValue(m);
    DecimalValue(n);
  }

  // Port ranges.

  datatype PortRange = PortRange(lo: nat, hi: nat)

  /** `validatePortRange`. */
  predicate ValidRange(lo: nat, hi: nat) {
    lo != 0 && hi <= MAX_PORT && lo <= hi
  }

  /** `strings.Split(s, "-")`. */
  function Split(s: string): (parts: seq<string>)
    ensures |parts| >= 1
  {
    if s == [] then [[]]
    else
      var init, last := Split(s[..|s| - 1]), s[|s| - 1];
      if last == '-' then init + [[]] else init[..|init| - 1] + [init[|init| - 1] + [last]]
  }

  function ParseParts(lo: Option<nat>, hi: Option<nat>): Option<PortRange> {
    if lo.None? || hi.None? || !ValidRange(lo.value, hi.value) then None else Some(PortRange(lo.value, hi.value))
  }

  function ParseRange(s: string): Option<PortRange> {
    var parts := Split(s);
    if |parts| > 2 then None
    else ParseParts(ParsePort(parts[0]), ParsePort(if |parts| == 2 then parts[1] else parts[0]))
  }

  lemma {:induction false} SplitDigits(s: string)
    requires forall i | 0 <= i < |s| :: s[i] != '-'
    ensures Split(s) == [s]
  {
    if s != [] {
      SplitDigits(s[..|s| - 1]);
      assert s[..|s| - 1] + [s[|s| - 1]] == s;
    }
  }

  lemma {:induction false} SplitPair(a: string, b: string)
    requires forall i | 0 <= i < |a| :: a[i] != '-'
    requires forall i | 0 <= i < |b| :: b[i] != '-'
    ensures Split(a + "-" + b) == [a, b]
  {
    var s := a + "-" + b;
    if b == [] {
      assert s[..|s| - 1] == a && s[|s| - 1] == '-';
      SplitDigits(a);
    } else {
      assert s[..|s| - 1] == a + "-" + b[..|b| - 1] && s[|s| - 1] == b[|b| - 1];
      SplitPair(a, b[..|b| - 1]);
      assert b[..|b| - 1] + [b[|b| - 1]] == b;
    }
  }

  function Render(r: PortRange): string {
    Decimal(r.lo) + "-" + Decimal(r.hi)
  }

  lemma SplitDecimals(m: nat, n: nat)
    ensures Split(Decimal(m)) == [Decimal(m)]
    ensures Split(Decimal(m) + "-" + Decimal(n)) == [Decimal(m), Decimal(n)]
  {
    SplitDigits(Decimal(m));
    SplitPair(Decimal(m), Decimal(n));
  }

  lemma ParseDecimal(n: nat)
    ensures ParsePort(Decimal(n)) == if n <= MAX_PORT then Some(n) else None
  {
    DecimalValue(n);
  }

  /** A rendered range is read back exactly when it is valid, and one number is a range of one port. */
  lemma RangeRoundTrip(r: PortRange)
    ensures ParseRange(Render(r)) == if ValidRange(r.lo, r.hi) then Some(r) else None
    ensures ParseRange(Decimal(r.lo)) == if ValidRange(r.lo, r.lo) then Some(PortRange(r.lo, r.lo)) else None
  {
    SplitDecimals(r.lo, r.hi);
    ParseDecimal(r.lo);
    ParseDecimal(r.hi);
  }

  // Keys.

  const PORT_PREFIX := "hostlink:port:"

  function PortKey(port: nat): string {
    PORT_PREFIX + Decimal(port)
  }

  function PortFromKey(key: string): Option<nat> {
    if |key| < |PORT_PREFIX| || key[..|PORT_PREFIX|] != PORT_PREFIX then None
    else
      var port := ParsePort(key[|PORT_PREFIX|..]);
      if port == Some(0) then None else port
  }

  /** A port's key names it again, for every allocatable port and for no other number. */
  lemma PortKeyRoundTrip(port: nat)
    ensures PortFromKey(PortKey(port)) == if 1 <= port <= MAX_PORT then Some(port) else None
  {
    DecimalValue(port);
    var key := PortKey(port);
    assert key[..|PORT_PREFIX|] == PORT_PREFIX && key[|PORT_PREFIX|..] == Decimal(port);
  }

  lemma PortKeyInjective(p: nat, q: nat)
    requires PortKey(p) == PortKey(q)
    ensures p == q
  {
    assert PortKey(p)[|PORT_PREFIX|..] == Decimal(p);
    assert PortKey(q)[|PORT_PREFIX|..] == Decimal(q);
    DecimalInjective(p, q);
  }

  const BOUND_PREFIX := "hostlink:bound:"

  /** `boundKey`: prefix, port, colon, pod address. */
  function BoundKey(port: nat, pod: string): string {
    BOUND_PREFIX + Decimal(port) + ":" + pod
  }

  function DigitsBefore(s: string): nat {
    if s != [] && IsDigit(s[0]) then 1 + DigitsBefore(s[1..]) else 0
  }

  lemma {:induction false} DigitsThenColon(a: string, x: string)
    requires AllDigits(a)
    ensures DigitsBefore(a + ":" + x) == |a|
  {
    if a != [] {
      assert (a + ":" + x)[1..] == a[1..] + ":" + x;
      DigitsThenColon(a[1..], x);
    }
  }

  /** Two strings that are digits up to a colon agree on both sides of it. */
  lemma ColonSplits(a: string, x: string, b: string, y: string)
    requires AllDigits(a) && AllDigits(b) && a + ":" + x == b + ":" + y
    ensures a == b && x == y
  {
    DigitsThenColon(a, x);
    DigitsThenColon(b, y);
    var s := a + ":" + x;
    assert a == s[..|a|] && x == s[|a| + 1..];
    assert b == s[..|b|] && y == s[|b| + 1..];
  }

  /** Distinct ports or pods have distinct bound keys, whatever the pod address contains. */
  lemma BoundKeyInjective(port: nat, pod: string, port': nat, pod': string)
    requires BoundKey(port, pod) == BoundKey(port', pod')
    ensures port == port' && pod == pod'
  {
    var k, k' := BoundKey(port, pod), BoundKey(port', pod');
    assert k[|BOUND_PREFIX|..] == Decimal(port) + ":" + pod;
    assert k'[|BOUND_PREFIX|..] == Decimal(port') + ":" + pod';
    ColonSplits(Decimal(port), pod, Decimal(port'), pod');
    DecimalInjective(port, port');
  }
}
