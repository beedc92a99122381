/** Java's 32-bit `int` arithmetic over Dafny's unbounded integers. */
module JavaInts {

  /** Reduce to the signed 32-bit range, as every Java `int` operation does. */
  function Wrap32(x: int): (r: int)
    ensures -0x8000_0000 <= r < 0x8000_0000
    ensures (r - x) % 0x1_0000_0000 == 0
  {
    (x + 0x8000_0000) % 0x1_0000_0000 - 0x8000_0000
  }

  /** Values of the 32-bit range are their own reduction. */
  lemma WrapInRange(x: int)
    requires -0x8000_0000 <= x < 0x8000_0000
    ensures Wrap32(x) == x
  {
  }

  /** Reducing after every addition gives the reduction of the exact sum. */
  lemma WrapThenAdd(x: int, y: int)
    ensures Wrap32(Wrap32(x) + y) == Wrap32(x + y)
  {
    var q := (x + 0x8000_0000) / 0x1_0000_0000;
    assert Wrap32(x) == x - q * 0x1_0000_0000;
    assert Wrap32(x) + y + 0x8000_0000 == (x + y + 0x8000_0000) - q * 0x1_0000_0000;
  }
}
