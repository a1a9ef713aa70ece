/** 64-bit unsigned counters, which wrap. */
module Words {

  const U64 := 0x1_0000_0000_0000_0000

  lemma {:induction false} ModShift(a: nat, q: nat)
    ensures (a + q * U64) % U64 == a % U64
  {
    if q > 0 {
      ModShift(a, q - 1);
      assert a + q * U64 == (a + (q - 1) * U64) + U64;
      assert (a + (q - 1) * U64 + U64) % U64 == (a + (q - 1) * U64) % U64;
    }
  }

  /** Wrapping early or late makes no difference to a sum. */
  lemma ModAdd(a: nat, b: nat)
    ensures (a % U64 + b) % U64 == (a + b) % U64
  {
    var q := a / U64;
    assert a + b == (a % U64 + b) + q * U64;
    ModShift(a % U64 + b, q);
  }

  lemma SameRemainder(i: nat, j: nat)
    requires i < j
    ensures i % U64 == j % U64 <==> (j - i) % U64 == 0
  {
    var a, b := i / U64, j / U64;
    assert i == a * U64 + i % U64 && j == b * U64 + j % U64;
    if (j - i) % U64 == 0 {
      var c := (j - i) / U64;
      assert j - i == c * U64;
      assert j % U64 - i % U64 == (c - b + a) * U64;
    }
    if i % U64 == j % U64 {
      assert j - i == (b - a) * U64;
    }
  }
}
