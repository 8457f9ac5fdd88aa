/** Request identifiers: "py-" and "ts-" followed by a decimal counter. */
module RpcIds {
  datatype Side = Py | Ts

  function Digit(d: nat): (c: char)
    requires d < 10
  {
    ['0', '1', '2', '3', '4', '5', '6', '7', '8', '9'][d]
  }

  function Decimal(n: nat): (s: string)
    ensures |s| > 0
  {
    if n < 10 then [Digit(n)] else Decimal(n / 10) + [Digit(n % 10)]
  }

  function Id(side: Side, n: nat): (id: string)
    ensures |id| > 3
  {
    (if side.Py? then "py-" else "ts-") + Decimal(n)
  }

  lemma {:induction false} DecimalInjective(m: nat, n: nat)
    requires Decimal(m) == Decimal(n)
    ensures m == n
  {
    var s, t := Decimal(m), Decimal(n);
    if m < 10 && n < 10 {
      assert s[0] == Digit(m) && t[0] == Digit(n);
    } else if m >= 10 && n >= 10 {
      assert s[|s| - 1] == Digit(m % 10) && t[|t| - 1] == Digit(n % 10);
      assert s[..|s| - 1] == Decimal(m / 10) && t[..|t| - 1] == Decimal(n / 10);
      DecimalInjective(m / 10, n / 10);
    }
  }

  /** The number a text of digits stands for. */
  function Value(s: string): int {
    if s == [] then 0 else 10 * Value(s[..|s| - 1]) + (s[|s| - 1] as int - '0' as int)
  }

  /** The counter is written in decimal, as `str` and template strings write it: digits only, none of
      them a leading zero, and they stand for the number. */
  lemma {:induction false} DecimalReads(n: nat)
    ensures Value(Decimal(n)) == n
    ensures forall k :: 0 <= k < |Decimal(n)| ==> '0' <= Decimal(n)[k] <= '9'
    ensures n > 0 ==> Decimal(n)[0] != '0'
  {
    var s := Decimal(n);
    if n < 10 {
      assert s[..0] == [] && Value(s) == s[0] as int - '0' as int;
    } else {
      DecimalReads(n / 10);
      assert s[..|s| - 1] == Decimal(n / 10);
    }
  }

  /** No identifier is used twice, and the two counters never produce the same one. */
  lemma IdInjective(a: Side, m: nat, b: Side, n: nat)
    requires Id(a, m) == Id(b, n)
    ensures a == b && m == n
  {
    var s, t := Id(a, m), Id(b, n);
    assert s[0] == (if a.Py? then 'p' else 't') && t[0] == (if b.Py? then 'p' else 't');
    assert s[3..] == Decimal(m) && t[3..] == Decimal(n);
    DecimalInjective(m, n);
  }

  /** What `String(null)` and `str(None)` give for a reply without an identifier. */
  predicate NoId(text: string) {
    text == "null" || text == "None"
  }

  lemma NoIdIsNoRequest(text: string, side: Side, n: nat)
    requires NoId(text)
    ensures text != Id(side, n)
  {
    assert Id(side, n)[2] == '-';
    assert "null"[2] == 'l' && "None"[2] == 'n';
  }
}
