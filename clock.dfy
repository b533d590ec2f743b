/**
 * The hours / minutes / seconds split that both time formatters perform,
 * written as the source writes it (`Math.floor` of real quotients and
 * JavaScript's `%`), with its meaning on whole seconds proved.
 */
module Clock {
  import opened Text

  /** JavaScript's `x % m` for `x >= 0` and `m > 0`, where truncation and flooring agree. */
  function Rem(x: real, m: real): real
    requires x >= 0.0 && m > 0.0
  {
    x - m * ((x / m).Floor as real)
  }

  lemma FloorBy3600(x: real)
    requires x >= 0.0
    ensures (x / 3600.0).Floor == x.Floor / 3600
  {
    var n, q := x.Floor, x.Floor / 3600;
    assert q as real * 3600.0 <= x < (q + 1) as real * 3600.0;
  }

  lemma FloorBy60(x: real)
    requires x >= 0.0
    ensures (x / 60.0).Floor == x.Floor / 60
  {
    var n, q := x.Floor, x.Floor / 60;
    assert q as real * 60.0 <= x < (q + 1) as real * 60.0;
  }

  /** `Math.floor(t / 3600)`: the whole hours in `t` seconds. */
  function Hours(t: real): (h: nat)
    requires t >= 0.0
    ensures h == t.Floor / 3600
  {
    FloorBy3600(t);
    (t / 3600.0).Floor
  }

  /** `Math.floor((t % 3600) / 60)`: the whole minutes past the last full hour. */
  function Minutes(t: real): (m: nat)
    requires t >= 0.0
    ensures m == t.Floor % 3600 / 60
  {
    var rest := Rem(t, 3600.0);
    FloorBy3600(t);
    assert rest.Floor == t.Floor % 3600;
    FloorBy60(rest);
    (rest / 60.0).Floor
  }

  /** `Math.floor(t % 60)`: the whole seconds past the last full minute. */
  function Seconds(t: real): (s: nat)
    requires t >= 0.0
    ensures s == t.Floor % 60
  {
    FloorBy60(t);
    Rem(t, 60.0).Floor
  }

  /** The three printed fields are in range and recombine to the whole seconds of `t`. */
  lemma Recombine(t: real)
    requires t >= 0.0
    ensures Minutes(t) < 60 && Seconds(t) < 60
    ensures Hours(t) * 3600 + Minutes(t) * 60 + Seconds(t) == t.Floor
  {
    var n := t.Floor;
    assert n == n / 3600 * 3600 + n % 3600;
    assert n % 3600 == n % 3600 / 60 * 60 + n % 3600 % 60;
    assert n % 3600 % 60 == n % 60 by {
      assert n == (n / 3600 * 60 + n % 3600 / 60) * 60 + n % 3600 % 60;
    }
  }

  /**
   * Hours and minutes depend on the whole minutes of `t` only: they are its
   * quotient and remainder by 60, so together they recombine to it.
   */
  lemma HoursMinutes(t: real)
    requires t >= 0.0
    ensures Hours(t) == t.Floor / 60 / 60 && Minutes(t) == t.Floor / 60 % 60
    ensures Hours(t) * 60 + Minutes(t) == t.Floor / 60
  {
    var n := t.Floor;
    var h, m, s := n / 3600, n % 3600 / 60, n % 3600 % 60;
    assert n == (h * 60 + m) * 60 + s && 0 <= m < 60 && 0 <= s < 60;
    assert n / 60 == h * 60 + m;
    assert n / 60 / 60 == h && n / 60 % 60 == m;
  }

  /** A field printed with at least two digits, as `n.toString().padStart(2, '0')`. */
  function TwoDigits(n: nat): string {
    PadStart(NatToString(n), 2, '0')
  }

  /** Below 100, the padded field is exactly two digits whose value is `n`. */
  lemma TwoDigitsValue(n: nat)
    requires n < 100
    ensures |TwoDigits(n)| == 2 && AllDigits(TwoDigits(n))
    ensures DigitsValue(TwoDigits(n)) == n
  {
    var d := NatToString(n);
    NatToStringValue(n);
    if n < 10 {
      assert d == [DigitChar(n)];
      assert TwoDigits(n) == "0" + d;
      LeadingZeroValue(d);
    } else {
      assert n / 10 < 10;
      assert d == [DigitChar(n / 10)] + [DigitChar(n % 10)];
    }
  }
}
