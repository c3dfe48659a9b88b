/**
 Machine words and the checked arithmetic of `checked_math.hpp`.

 Every shared field is an unsigned 64-bit word in the source.  Here words are naturals and
 every place where the source guards against overflow writes the guard out.
 */
module Words {

  const U64_MAX: nat := 0xFFFF_FFFF_FFFF_FFFF

  /** The largest even epoch an owner commit may store. */
  const MAX_EPOCH: nat := 0xFFFF_FFFF_FFFF_FFFE

  datatype Option<+T> = None | Some(value: T)

  predicate Even(n: nat) {
    n % 2 == 0
  }

  /** The epoch test shared by `begin_owner_commit` and `owner_epoch_capacity`. */
  function EpochTest<E>(epoch: nat, reserve: nat, exhausted: E, corrupt: E): Option<E> {
    if !Even(epoch) || epoch > MAX_EPOCH then Some(corrupt)
    else if reserve > MAX_EPOCH - epoch then Some(exhausted)
    else None
  }

  /** `checked_add_u64` */
  function CheckedAdd(a: nat, b: nat): (r: Option<nat>)
    requires a <= U64_MAX && b <= U64_MAX
    ensures r.Some? <==> a + b <= U64_MAX
    ensures r.Some? ==> r.value == a + b
  {
    if b > U64_MAX - a then None else Some(a + b)
  }

  lemma DivBound(a: nat, b: nat, m: nat)
    requires 0 < a
    ensures b > m / a <==> a * b > m
  {
    var q := m / a;
    assert m == a * q + m % a;
    if b > q {
      assert a * b >= a * (q + 1) == a * q + a;
    } else {
      assert a * b <= a * q;
    }
  }

  /** `checked_mul_u64` */
  function CheckedMul(a: nat, b: nat): (r: Option<nat>)
    requires a <= U64_MAX && b <= U64_MAX
    ensures r.Some? <==> a * b <= U64_MAX
    ensures r.Some? ==> r.value == a * b
  {
    if a != 0 then
      DivBound(a, b, U64_MAX);
      if b > U64_MAX / a then None else Some(a * b)
    else
      Some(0)
  }

  /** `round_up_to_multiple_u64`: fails exactly when no multiple of `align` fits above `v`. */
  function RoundUp(v: nat, align: nat): (r: Option<nat>)
    requires v <= U64_MAX && align <= U64_MAX
    ensures r.Some? ==> align > 0 && v <= r.value <= U64_MAX && r.value % align == 0 && r.value - v < align
    ensures r.None? ==> align == 0 || v + (align - v % align) > U64_MAX
  {
    if align == 0 then None
    else
      var rem := v % align;
      if rem == 0 then Some(v)
      else
        var delta := align - rem;
        if v > U64_MAX - delta then None
        else
          RoundUpIsMultiple(v, align);
          Some(v + delta)
  }

  lemma RoundUpIsMultiple(v: nat, align: nat)
    requires align > 0
    ensures (v + (align - v % align)) % align == 0
  {
    var q := v / align;
    assert v == align * q + v % align;
    assert v + (align - v % align) == align * (q + 1);
    MultipleMod(q + 1, align);
  }

  lemma {:induction false} MultipleMod(k: nat, m: nat)
    requires m > 0
    ensures (m * k) % m == 0
  {
    DivisionIsUnique(m * k, m, k, 0);
  }

  lemma DivisionIsUnique(x: nat, m: nat, q: nat, r: nat)
    requires m > 0 && r < m && x == m * q + r
    ensures x / m == q && x % m == r
  {
    assert x == m * (x / m) + x % m;
    MultipleIsFar(m, x / m - q);
    assert m * (x / m - q) == r - x % m;
  }

  lemma MultipleIsFar(m: int, d: int)
    requires m > 0
    ensures d == 0 || m * d >= m || m * d <= -m
  {
    if d > 0 {
      Product(m, d - 1);
      assert m * d == m * (d - 1) + m;
    } else if d < 0 {
      Product(m, -d - 1);
      assert m * d == -(m * (-d - 1)) - m;
    }
  }

  lemma Product(m: int, n: int)
    requires m >= 0 && n >= 0
    ensures m * n >= 0
  {
  }

  lemma AddModulus(x: nat, m: nat)
    requires m > 0
    ensures (x + m) % m == x % m
  {
    var q := x / m;
    assert x + m == m * (q + 1) + x % m;
    DivisionIsUnique(x + m, m, q + 1, x % m);
  }

  /** Two tickets less than one lap apart never share a ring index. */
  lemma DistinctModulus(x: nat, y: nat, m: nat)
    requires m > 0
    requires x != y && x < y + m && y < x + m
    ensures x % m != y % m
  {
    if x < y {
      LaterModulus(x, y - x, m);
    } else {
      LaterModulus(y, x - y, m);
    }
  }

  lemma LaterModulus(x: nat, k: nat, m: nat)
    requires 0 < k < m
    ensures (x + k) % m != x % m
  {
    var q, r := x / m, x % m;
    if r + k < m {
      DivisionIsUnique(x + k, m, q, r + k);
    } else {
      assert x + k == m * (q + 1) + (r + k - m);
      DivisionIsUnique(x + k, m, q + 1, r + k - m);
    }
  }
}
