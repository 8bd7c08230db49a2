/** The hours/minutes/seconds split that the timers and the duration picker all write out as
    `t / 3600`, `(t % 3600) / 60` and `t % 60` with Swift's truncating operators. The text
    that `String(format: "%02d:%02d:%02d", …)` makes of the three numbers is not modelled:
    the split itself is the result. */
module Clock {
  import opened SwiftNum

  datatype HMS = HMS(h: int, m: int, s: int)

  /** Total number of seconds the three components stand for. */
  function Seconds(c: HMS): int {
    c.h * 3600 + c.m * 60 + c.s
  }

  /** The split of `t` seconds as the source computes it. */
  function Split(t: int): (c: HMS)
    ensures Seconds(c) == t
    ensures 0 <= t ==> 0 <= c.h && 0 <= c.m < 60 && 0 <= c.s < 60
    ensures t < 0 ==> c.h <= 0 && -60 < c.m <= 0 && -60 < c.s <= 0
  {
    var r := Rem(t, 3600);
    var c := HMS(Quot(t, 3600), Quot(r, 60), Rem(t, 60));
    SplitRecombines(t);
    c
  }

  /** The three components always add back up to `t`, whatever its sign. */
  lemma {:induction false} SplitRecombines(t: int)
    ensures Quot(t, 3600) * 3600 + Quot(Rem(t, 3600), 60) * 60 + Rem(t, 60) == t
    ensures Rem(Rem(t, 3600), 60) == Rem(t, 60)
  {
    var r := Rem(t, 3600);
    var k := Quot(t, 3600);
    assert t == k * 3600 + r;
    assert t == (k * 60) * 60 + r;
    if t >= 0 {
      assert r >= 0;
      QuotRemNonNegative(t, 60);
      QuotRemNonNegative(r, 60);
      ModOfShift(r, k * 60);
    } else {
      assert r <= 0;
      ModOfShift(-r, -k * 60);
      assert -t == (-k * 60) * 60 + (-r);
    }
  }

  lemma ModOfShift(r: int, j: int)
    requires 0 <= r && 0 <= j * 60 + r
    ensures (j * 60 + r) % 60 == r % 60
  {
  }

  /** Splitting the seconds of components within their wheel ranges gives them back. */
  lemma {:induction false} SplitOfSeconds(c: HMS)
    requires 0 <= c.h && 0 <= c.m < 60 && 0 <= c.s < 60
    ensures Split(Seconds(c)) == c
  {
    var t := Seconds(c);
    var r := c.m * 60 + c.s;
    DivModUnique(t, 3600, c.h, r);
    DivModUnique(r, 60, c.m, c.s);
    assert t == (c.h * 60 + c.m) * 60 + c.s;
    DivModUnique(t, 60, c.h * 60 + c.m, c.s);
    QuotRemNonNegative(t, 3600);
    QuotRemNonNegative(r, 60);
    QuotRemNonNegative(t, 60);
  }

  /** A quotient and remainder within range are the ones Euclidean division gives. */
  lemma DivModUnique(t: int, d: int, q: int, r: int)
    requires 0 < d && 0 <= r < d && t == q * d + r
    ensures t / d == q && t % d == r
  {
    var q', r' := t / d, t % d;
    assert (q - q') * d == r' - r;
    if q > q' {
      MulAtLeast(q - q', d);
    } else if q < q' {
      MulAtLeast(q' - q, d);
    }
  }

  lemma MulAtLeast(a: int, d: int)
    requires 1 <= a && 0 < d
    ensures a * d >= d
  {
  }
}
