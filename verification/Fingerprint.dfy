/** The length-prefixed framing under an operation's fingerprint
    (api/v1alpha1/operation_fingerprint.go). Strings are sequences of bytes. */
module Fingerprint {
  import opened Decimals

  /** A string after its length. */
  function Block(s: string): string {
    Decimal(|s|) + ":" + s
  }

  function Framed(name: string, value: string): string {
    Block(name) + Block(value)
  }

  /** A number closed by a colon, then anything: the number and the rest can be read off. */
  lemma {:induction false} PrefixIsReadable(m: nat, rest: string, n: nat, other: string)
    requires Decimal(m) + ":" + rest == Decimal(n) + ":" + other
    ensures m == n && rest == other
  {
    var a, b := Decimal(m), Decimal(n);
    var whole := a + ":" + rest;
    if |a| < |b| {
      assert whole[|a|] == ':' && (b + ":" + other)[|a|] == b[|a|];
      DecimalIsDigits(n, |a|);
    } else if |b| < |a| {
      assert (b + ":" + other)[|b|] == ':' && whole[|b|] == a[|b|];
      DecimalIsDigits(m, |b|);
    } else {
      assert a == whole[..|a|] && b == (b + ":" + other)[..|b|];
      DecimalInjective(m, n);
      assert rest == whole[|a| + 1..] && other == (b + ":" + other)[|b| + 1..];
    }
  }

  lemma {:induction false} BlockIsReadable(a: string, rest: string, b: string, other: string)
    requires Block(a) + rest == Block(b) + other
    ensures a == b && rest == other
  {
    assert Block(a) + rest == Decimal(|a|) + ":" + (a + rest) && Block(b) + other == Decimal(|b|) + ":" + (b + other);
    PrefixIsReadable(|a|, a + rest, |b|, b + other);
    assert a == (a + rest)[..|a|] && b == (b + other)[..|b|];
    assert rest == (a + rest)[|a|..] && other == (b + other)[|b|..];
  }

  /** No (name, value) pair can be re-split into another. */
  lemma {:induction false} FramingIsInjective(name: string, value: string, name': string, value': string)
    requires Framed(name, value) == Framed(name', value')
    ensures name == name' && value == value'
  {
    BlockIsReadable(name, Block(value), name', Block(value'));
    assert Block(value) + "" == Block(value') + "";
    BlockIsReadable(value, "", value', "");
  }
}
