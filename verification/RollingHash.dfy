/** Polynomial hashes of windows that slide over a sequence, as both scanning tools use them. */
module RollingHash {

  function Pow(base: nat, n: nat): nat { if n == 0 then 1 else base * Pow(base, n - 1) }

  /** The values as digits, most significant first. */
  function Poly(values: seq<nat>, base: nat): nat {
    if values == [] then 0 else Poly(values[..|values| - 1], base) * base + values[|values| - 1]
  }

  /** The hash that a direct computation over the window gives. */
  function Direct(values: seq<nat>, base: nat, modulus: nat): (r: nat)
    requires modulus > 0
    ensures r < modulus
  {
    Poly(values, base) % modulus
  }

  // ---- Arithmetic -------------------------------------------------------------------------

  lemma AtLeastOnce(d: int, m: nat)
    requires d >= 1
    ensures d * m >= m
  {
    assert d * m == (d - 1) * m + m;
  }

  lemma Distribute(a: int, b: int, m: int)
    ensures (a - b) * m == a * m - b * m
  {
  }

  lemma DivUnique(m: nat, q: int, r: nat, q': int, r': nat)
    requires r < m && r' < m && q * m + r == q' * m + r'
    ensures q == q' && r == r'
  {
    Distribute(q', q, m);
    Distribute(q, q', m);
    if q < q' { AtLeastOnce(q' - q, m); }
    if q > q' { AtLeastOnce(q - q', m); }
  }

  lemma ModAdd(x: int, k: int, m: nat)
    requires m > 0
    ensures (x + k * m) % m == x % m
  {
    var y := x + k * m;
    assert y == (x / m + k) * m + x % m;
    DivUnique(m, y / m, y % m, x / m + k, x % m);
  }

  /** Reducing before multiplying and adding changes nothing. */
  lemma ModStep(a: int, b: int, c: int, m: nat)
    requires m > 0
    ensures ((a % m) * b + c) % m == (a * b + c) % m
  {
    var q := a / m;
    assert a == q * m + a % m;
    assert a * b + c == ((a % m) * b + c) + (q * b) * m by {
      assert (q * m) * b == (q * b) * m;
      assert (q * m + a % m) * b == (q * m) * b + (a % m) * b;
    }
    ModAdd((a % m) * b + c, q * b, m);
  }

  lemma Times(x: int, a: int, b: int)
    ensures x * (a + b) == x * a + x * b
  {
  }

  lemma Assoc(x: int, q: int, m: int)
    ensures x * (q * m) == (x * q) * m
  {
  }

  lemma DropIdentity(v: int, x: int, h: int, p: int, q: int, vr: int, hr: int, m: int)
    requires v == p * m + vr && h == q * m + hr
    ensures v - x * h == (vr - x * hr) + (p - x * q) * m
  {
    Times(x, q * m, hr);
    Assoc(x, q, m);
    Distribute(p, x * q, m);
  }

  /** One step of the hash: shift and add. */
  function Shift(a: int, b: int, c: int, m: nat): int
    requires m > 0
  {
    (a * b + c) % m
  }

  /** Reducing a factor that is subtracted changes nothing either. */
  lemma ModDrop(v: int, x: int, h: int, b: int, c: int, m: nat)
    requires m > 0
    ensures Shift((v % m) - x * (h % m), b, c, m) == Shift(v - x * h, b, c, m)
  {
    hide Shift;
    SameResidue(v, x, h, m);
    Congruent((v % m) - x * (h % m), v - x * h, b, c, m);
  }

  lemma SameResidue(v: int, x: int, h: int, m: nat)
    requires m > 0
    ensures ((v % m) - x * (h % m)) % m == (v - x * h) % m
  {
    DivMod(v, m);
    DivMod(h, m);
    ResidueOf(v, x, h, v / m, h / m, v % m, h % m, m);
  }

  lemma ResidueOf(v: int, x: int, h: int, p: int, q: int, vr: int, hr: int, m: nat)
    requires m > 0 && v == p * m + vr && h == q * m + hr
    ensures (vr - x * hr) % m == (v - x * h) % m
  {
    DropIdentity(v, x, h, p, q, vr, hr, m);
    ModAdd(vr - x * hr, p - x * q, m);
  }

  lemma DivMod(v: int, m: nat)
    requires m > 0
    ensures v == (v / m) * m + v % m
  {
  }

  lemma Congruent(a: int, a': int, b: int, c: int, m: nat)
    requires m > 0 && a % m == a' % m
    ensures Shift(a, b, c, m) == Shift(a', b, c, m)
  {
    ModStep(a, b, c, m);
    ModStep(a', b, c, m);
  }

  // ---- Sliding ----------------------------------------------------------------------------

  lemma PolyAppend(values: seq<nat>, v: nat, base: nat)
    ensures Poly(values + [v], base) == Poly(values, base) * base + v
  {
    assert (values + [v])[..|values|] == values;
  }

  /** The first value counts base^(n-1). */
  lemma {:induction false} PolyHead(values: seq<nat>, base: nat)
    requires values != []
    ensures Poly(values, base) == values[0] * Pow(base, |values| - 1) + Poly(values[1..], base)
    decreases |values|
  {
    if |values| == 1 {
      assert values[..0] == [] && values[1..] == [];
      assert Poly(values, base) == Poly([], base) * base + values[0];
    } else {
      var front, last := values[..|values| - 1], values[|values| - 1];
      PolyHead(front, base);
      assert front[1..] + [last] == values[1..];
      PolyAppend(front[1..], last, base);
      Regroup(values[0], Pow(base, |front| - 1), Poly(front[1..], base), base, last);
    }
  }

  lemma Regroup(x: nat, h: nat, rest: nat, base: nat, last: nat)
    ensures (x * h + rest) * base + last == x * (base * h) + (rest * base + last)
  {
    assert (x * h) * base == x * (base * h);
    assert (x * h + rest) * base == (x * h) * base + rest * base;
  }

  /** One rolling update gives exactly what hashing the next window directly would. */
  lemma RollIsDirect(values: seq<nat>, next: nat, base: nat, modulus: nat)
    requires values != [] && modulus > 0
    ensures ((Direct(values, base, modulus) - values[0] * (Pow(base, |values| - 1) % modulus)) * base +
      next) % modulus ==
            Direct(values[1..] + [next], base, modulus)
  {
    PolyHead(values, base);
    PolyAppend(values[1..], next, base);
    hide Pow, Poly;
    ModDrop(Poly(values, base), values[0], Pow(base, |values| - 1), base, next, modulus);
  }

  /** The direct hash of the window at `at`. */
  function WindowHash(values: seq<nat>, at: nat, width: nat, base: nat, modulus: nat): nat
    requires at + width <= |values| && modulus > 0
  {
    Direct(values[at..at + width], base, modulus)
  }

  lemma SlideIsDirect(values: seq<nat>, at: nat, width: nat, base: nat, modulus: nat)
    requires width > 0 && at + width < |values| && modulus > 0
    ensures ((WindowHash(values, at, width, base, modulus) - values[at] * (Pow(base, width - 1) % modulus)) * base
             + values[at + width]) % modulus == WindowHash(values, at + 1, width, base, modulus)
  {
    var window := values[at..at + width];
    assert window[0] == values[at];
    assert window[1..] + [values[at + width]] == values[at + 1..at + 1 + width];
    hide Direct;
    RollIsDirect(window, values[at + width], base, modulus);
  }

  /** The hash of a whole window, value by value. */
  method Fold(values: seq<nat>, base: nat, modulus: nat) returns (r: nat)
    requires modulus > 0
    ensures r == Direct(values, base, modulus)
  {
    r := 0;
    for i := 0 to |values|
      invariant r == Direct(values[..i], base, modulus)
    {
      assert values[..i + 1] == values[..i] + [values[i]];
      PolyAppend(values[..i], values[i], base);
      ModStep(Poly(values[..i], base), base, values[i], modulus);
      r := (r * base + values[i]) % modulus;
    }
    assert values[..|values|] == values;
  }
}
