/** Signed 32-bit arithmetic as the source's int32 does it: results wrap around. */
module Int32 {
  const MAX_INT32 := 0x7fff_ffff
  const TWO_32 := 0x1_0000_0000

  function Wrap(x: int): (r: int)
    ensures -MAX_INT32 - 1 <= r <= MAX_INT32
  {
    (x + MAX_INT32 + 1) % TWO_32 - MAX_INT32 - 1
  }

  /** A sum that wraps at every step is the exact sum, wrapped once. */
  lemma WrapAdd(x: int, y: int)
    ensures Wrap(Wrap(x) + y) == Wrap(x + y)
  {
    var a, b := Wrap(x) + y + MAX_INT32 + 1, x + y + MAX_INT32 + 1;
    var q := (x + MAX_INT32 + 1) / TWO_32;
    assert a + q * TWO_32 == b;
    ShiftMod(a, q);
  }

  lemma ShiftMod(a: int, q: int)
    ensures (a + q * TWO_32) % TWO_32 == a % TWO_32
  {
    var d := a / TWO_32;
    assert a == d * TWO_32 + a % TWO_32;
    assert a + q * TWO_32 == (d + q) * TWO_32 + a % TWO_32;
  }

  lemma WrapExact(x: int)
    ensures Wrap(x) == x <==> -MAX_INT32 - 1 <= x <= MAX_INT32
  {
  }
}
