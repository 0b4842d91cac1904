// Bit masks stored as numbers: the operations the bridge applies to its vote masks,
// and their meaning bit by bit.
module Bits {
  import opened Words

  function Pow2(n: nat): (p: nat)
    ensures p > 0
  {
    if n == 0 then 1 else 2 * Pow2(n - 1)
  }

  // The bitwise OR and AND of two numbers.
  function Or(a: nat, b: nat): nat
    decreases a + b
  {
    if a == 0 && b == 0 then 0
    else 2 * Or(a / 2, b / 2) + (if a % 2 == 1 || b % 2 == 1 then 1 else 0)
  }

  function And(a: nat, b: nat): nat {
    if a == 0 then 0
    else 2 * And(a / 2, b / 2) + (if a % 2 == 1 && b % 2 == 1 then 1 else 0)
  }

  // 1 << k in a 256-bit word: the bit is lost once k reaches the word width.
  function ShiftOne(k: nat): nat {
    if k < 256 then Pow2(k) else 0
  }

  predicate BitAt(n: nat, i: nat) {
    if i == 0 then n % 2 == 1 else BitAt(n / 2, i - 1)
  }

  // The number of set bits.
  function Popcount(n: nat): nat {
    if n == 0 then 0 else n % 2 + Popcount(n / 2)
  }

  lemma {:induction false} OrSetsOneBit(n: nat, i: nat, j: nat)
    ensures BitAt(Or(n, Pow2(i)), j) <==> (i == j || BitAt(n, j))
    decreases i + j
  {
    OrHalves(n, Pow2(i));
    if i == 0 {
      OrWithZero(n / 2);
    } else if j > 0 {
      OrSetsOneBit(n / 2, i - 1, j - 1);
    }
  }

  lemma {:induction false} OrHalves(a: nat, b: nat)
    ensures Or(a, b) / 2 == Or(a / 2, b / 2)
    ensures Or(a, b) % 2 == (if a % 2 == 1 || b % 2 == 1 then 1 else 0)
  {
    if a == 0 && b == 0 {
      assert Or(0, 0) == 0;
    }
  }

  lemma {:induction false} OrWithZero(n: nat)
    ensures Or(n, 0) == n
    decreases n
  {
    if n > 0 {
      OrWithZero(n / 2);
    }
  }

  lemma {:induction false} AndTestsOneBit(n: nat, i: nat)
    ensures And(n, Pow2(i)) > 0 <==> BitAt(n, i)
    decreases i
  {
    if n == 0 {
      ZeroHasNoBits(i);
    } else if i == 0 {
      AndWithZero(n / 2);
    } else {
      AndTestsOneBit(n / 2, i - 1);
    }
  }

  lemma {:induction false} AndWithZero(n: nat)
    ensures And(n, 0) == 0
    decreases n
  {
    if n > 0 {
      AndWithZero(n / 2);
    }
  }

  lemma {:induction false} ZeroHasNoBits(i: nat)
    ensures !BitAt(0, i)
  {
    if i > 0 {
      ZeroHasNoBits(i - 1);
    }
  }

  lemma {:induction false} PowSum(a: nat, b: nat)
    ensures Pow2(a + b) == Pow2(a) * Pow2(b)
  {
    if a > 0 {
      PowSum(a - 1, b);
    }
  }

  lemma PowTen()
    ensures Pow2(10) == 1024
  {}

  lemma Width160()
    ensures Pow2(40) == TWO_40 && Pow2(160) == TWO_160
  {
    hide Pow2;
    PowTen();
    PowSum(10, 10);
    PowSum(20, 20);
    PowSum(40, 40);
    PowSum(80, 80);
  }

  lemma Width200()
    ensures Pow2(200) == TWO_200
  {
    hide Pow2;
    Width160();
    PowSum(160, 40);
  }

  // Setting a clear bit adds exactly one to the number of set bits.
  lemma {:induction false} OrCountsOneBit(n: nat, i: nat)
    requires !BitAt(n, i)
    ensures Popcount(Or(n, Pow2(i))) == Popcount(n) + 1
    decreases i
  {
    OrHalves(n, Pow2(i));
    var m := Or(n, Pow2(i));
    if i == 0 {
      OrWithZero(n / 2);
      assert m > 0;
      assert Popcount(m) == m % 2 + Popcount(m / 2);
    } else {
      OrCountsOneBit(n / 2, i - 1);
      assert m == 2 * Or(n / 2, Pow2(i - 1)) + m % 2;
      assert m != 0;
    }
  }

  lemma {:induction false} OrKeepsWidth(n: nat, i: nat, width: nat)
    requires n < Pow2(width)
    ensures Or(n, Pow2(i)) < Pow2(width) <==> i < width
    decreases width
  {
    OrHalves(n, Pow2(i));
    if width == 0 {
      OrSetsOneBit(n, i, i);
      if Or(n, Pow2(i)) == 0 {
        ZeroHasNoBits(i);
      }
    } else if i == 0 {
      OrWithZero(n / 2);
    } else {
      OrKeepsWidth(n / 2, i - 1, width - 1);
    }
  }

  lemma {:induction false} PopcountWithinWidth(n: nat, width: nat)
    requires n < Pow2(width)
    ensures Popcount(n) <= width
    decreases width
  {
    if width > 0 {
      PopcountWithinWidth(n / 2, width - 1);
    }
  }

  lemma {:induction false} WidthGrows(n: nat, width: nat)
    requires n < Pow2(width)
    ensures n < Pow2(width + 1) && !BitAt(n, width)
  {
    if BitAt(n, width) {
      BitWithinWidth(n, width, width);
    }
  }

  lemma {:induction false} BitWithinWidth(n: nat, i: nat, width: nat)
    requires n < Pow2(width) && BitAt(n, i)
    ensures i < width
    decreases width
  {
    if width == 0 {
      ZeroHasNoBits(i);
    } else if i > 0 {
      BitWithinWidth(n / 2, i - 1, width - 1);
    }
  }

  lemma {:induction false} NoBitsCounted(n: nat)
    requires Popcount(n) == 0
    ensures n == 0
    decreases n
  {
    if n > 0 {
      NoBitsCounted(n / 2);
    }
  }
}
