/** Facts about Euclidean remainder that the solver does not find unaided. */
module Arithmetic {
  /** A positive multiple of n is at least n. */
  lemma {:induction false} MulAtLeast(e: nat, n: int)
    requires e >= 1 && n > 0
    ensures e * n >= n
    decreases e
  {
    if e > 1 {
      MulAtLeast(e - 1, n);
      assert e * n == (e - 1) * n + n;
    }
  }

  /** A non-zero multiple of n is at least n away from zero. */
  lemma MulSign(e: int, n: int)
    requires n > 0
    ensures e >= 1 ==> e * n >= n
    ensures e <= -1 ==> e * n <= -n
  {
    if e >= 1 {
      MulAtLeast(e, n);
    } else if e <= -1 {
      MulAtLeast(-e, n);
      assert e * n == -((-e) * n);
    }
  }

  /** The remainder is the only s in [0, n) with x == d * n + s. */
  lemma ModUnique(x: int, d: int, s: int, n: int)
    requires n > 0 && x == d * n + s && 0 <= s < n
    ensures x % n == s
  {
    var q, r := x / n, x % n;
    assert q * n + r == x;
    MulSign(q - d, n);
    assert (q - d) * n == s - r;
  }

  /** Stepping with wrap-around and then k more steps is k + 1 steps with wrap-around. */
  lemma ModAddOne(a: nat, k: nat, n: int)
    requires n >= 1
    ensures ((a + 1) % n + k) % n == (a + k + 1) % n
  {
    var q, r := (a + 1) / n, (a + 1) % n;
    assert a + 1 == q * n + r;
    var p, s := (r + k) / n, (r + k) % n;
    assert r + k == p * n + s;
    assert a + k + 1 == (q + p) * n + s;
    ModUnique(a + k + 1, q + p, s, n);
  }
}
