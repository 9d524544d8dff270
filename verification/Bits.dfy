/** Machine words as the numbers they stand for, with the bitwise operations spelled out bit by bit. */
module Bits {
  function Pow2(k: nat): (r: nat)
    ensures r > 0
  {
    if k == 0 then 1 else 2 * Pow2(k - 1)
  }

  // Bit k of x, counted from the least significant.
  function Bit(x: nat, k: nat): bool {
    if k == 0 then x % 2 == 1 else Bit(x / 2, k - 1)
  }

  function Num(b: bool): nat {
    if b then 1 else 0
  }

  function Xor(a: nat, b: nat): nat
    decreases a + b
  {
    if a == 0 && b == 0 then 0 else Num(a % 2 != b % 2) + 2 * Xor(a / 2, b / 2)
  }

  function And(a: nat, b: nat): nat {
    if a == 0 then 0 else Num(a % 2 == 1 && b % 2 == 1) + 2 * And(a / 2, b / 2)
  }

  function Shr(x: nat, k: nat): nat {
    if k == 0 then x else Shr(x / 2, k - 1)
  }

  function CountOnes(x: nat): nat {
    if x == 0 then 0 else x % 2 + CountOnes(x / 2)
  }

  // The lowest bit and the rest of a word put together bitwise.
  lemma XorHalves(a: nat, b: nat)
    ensures Xor(a, b) % 2 == Num(a % 2 != b % 2) && Xor(a, b) / 2 == Xor(a / 2, b / 2)
  {
    HalfOfSum(Num(a % 2 != b % 2), Xor(a / 2, b / 2));
  }

  lemma AndHalves(a: nat, b: nat)
    ensures And(a, b) % 2 == Num(a % 2 == 1 && b % 2 == 1) && And(a, b) / 2 == And(a / 2, b / 2)
  {
    HalfOfSum(Num(a % 2 == 1 && b % 2 == 1), And(a / 2, b / 2));
  }

  lemma {:induction false} XorBit(a: nat, b: nat, k: nat)
    ensures Bit(Xor(a, b), k) <==> Bit(a, k) != Bit(b, k)
    decreases k
  {
    hide Xor;
    XorHalves(a, b);
    if k > 0 {
      XorBit(a / 2, b / 2, k - 1);
    }
  }

  lemma {:induction false} AndBit(a: nat, b: nat, k: nat)
    ensures Bit(And(a, b), k) <==> Bit(a, k) && Bit(b, k)
    decreases k
  {
    hide And;
    AndHalves(a, b);
    if k > 0 {
      AndBit(a / 2, b / 2, k - 1);
    }
  }

  lemma {:induction false} ShrBit(x: nat, s: nat, k: nat)
    ensures Bit(Shr(x, s), k) <==> Bit(x, s + k)
    decreases s
  {
    if s > 0 {
      ShrBit(x / 2, s - 1, k);
    }
  }

  lemma {:induction false} ZeroBit(k: nat)
    ensures !Bit(0, k)
  {
    if k > 0 {
      ZeroBit(k - 1);
    }
  }

  // A number below 2^w has no bit from w on.
  lemma {:induction false} HighBitsClear(x: nat, w: nat, k: nat)
    requires x < Pow2(w) && w <= k
    ensures !Bit(x, k)
    decreases k
  {
    if w == 0 {
      ZeroBit(k);
    } else {
      HighBitsClear(x / 2, w - 1, k - 1);
    }
  }

  // Only zero has no bits at all; the lowest set bit of any other number is at `k`.
  lemma {:induction false} SomeBit(x: nat) returns (k: nat)
    requires x > 0
    ensures Bit(x, k)
  {
    if x % 2 == 1 {
      k := 0;
    } else {
      k := SomeBit(x / 2);
      k := k + 1;
    }
  }

  // Numbers with the same bits are the same.
  lemma {:induction false} SameBitsSameNumber(a: nat, b: nat)
    requires forall k: nat :: Bit(a, k) <==> Bit(b, k)
    ensures a == b
    decreases a + b
  {
    if a > 0 || b > 0 {
      assert Bit(a, 0) <==> Bit(b, 0);
      forall k: nat ensures Bit(a / 2, k) <==> Bit(b / 2, k) {
        assert Bit(a, k + 1) <==> Bit(b, k + 1);
      }
      SameBitsSameNumber(a / 2, b / 2);
    }
  }

  lemma Pow2Times(k: nat, x: nat)
    ensures k == 0 ==> Pow2(k) * x == x
    ensures k > 0 ==> Pow2(k) * x == 2 * (Pow2(k - 1) * x) && Pow2(k) == 2 * Pow2(k - 1)
  {
  }

  lemma CountOnesHalves(x: nat)
    ensures CountOnes(x) == x % 2 + CountOnes(x / 2)
    ensures x == 0 ==> CountOnes(x) == 0
  {
  }

  lemma HalfOfSum(low: nat, half: nat)
    ensures (low + 2 * half) % 2 == low % 2 && (low + 2 * half) / 2 == low / 2 + half
  {
  }

  // Counting the ones of two words put one above the other.
  lemma {:induction false} CountOnesSplits(low: nat, high: nat, k: nat)
    requires low < Pow2(k)
    ensures CountOnes(low + Pow2(k) * high) == CountOnes(low) + CountOnes(high)
    decreases k
  {
    hide CountOnes;
    var x := low + Pow2(k) * high;
    Pow2Times(k, high);
    if k == 0 {
      CountOnesHalves(low);
    } else {
      hide Pow2;
      var half := Pow2(k - 1) * high;
      HalfOfSum(low, half);
      CountOnesSplits(low / 2, high, k - 1);
      CountOnesHalves(x);
      CountOnesHalves(low);
    }
  }

  // A bitwise "and" of two words put one above the other.
  lemma {:induction false} AndSplits(low: nat, high: nat, low': nat, high': nat, k: nat)
    requires low < Pow2(k) && low' < Pow2(k)
    ensures And(low + Pow2(k) * high, low' + Pow2(k) * high') == And(low, low') + Pow2(k) * And(high, high')
    ensures And(low, low') < Pow2(k)
    decreases k
  {
    hide And;
    Pow2Times(k, high);
    Pow2Times(k, high');
    Pow2Times(k, And(high, high'));
    AndHalves(low, low');
    if k > 0 {
      hide Pow2;
      HalfOfSum(low, Pow2(k - 1) * high);
      HalfOfSum(low', Pow2(k - 1) * high');
      AndSplits(low / 2, high, low' / 2, high', k - 1);
      AndHalves(low + Pow2(k) * high, low' + Pow2(k) * high');
    } else {
      AndNothing();
    }
  }

  lemma AndNothing()
    ensures And(0, 0) == 0
  {
  }

  // Shifting right is dividing by a power of two.
  lemma {:induction false} ShrIs(q: nat, r: nat, k: nat)
    requires r < Pow2(k)
    ensures Shr(r + Pow2(k) * q, k) == q
    decreases k
  {
    Pow2Times(k, q);
    if k > 0 {
      hide Pow2;
      HalfOfSum(r, Pow2(k - 1) * q);
      ShrIs(q, r / 2, k - 1);
    }
  }

  // A bit is what is left of a number, shifted down to it, over two.
  lemma BitIs(x: nat, k: nat)
    ensures Bit(x, k) <==> x / Pow2(k) % 2 == 1
  {
    hide Pow2, Shr;
    var (q, r) := (x / Pow2(k), x % Pow2(k));
    assert x == r + Pow2(k) * q;
    ShrIs(q, r, k);
    ShrBit(x, k, 0);
  }

  lemma {:induction false} Pow2Adds(a: nat, b: nat)
    ensures Pow2(a + b) == Pow2(a) * Pow2(b)
    decreases a
  {
    if a > 0 {
      Pow2Adds(a - 1, b);
      Pow2Times(a, Pow2(b));
    }
  }

  // ---- Byte order ----

  // A byte put below a number.
  function Join(low: nat, high: nat): nat {
    low + 256 * high
  }

  // Four bytes as a word, the lowest first.
  function Word(b0: nat, b1: nat, b2: nat, b3: nat): nat {
    Join(b0, Join(b1, Join(b2, b3)))
  }

  lemma ByteOff(low: nat, rest: nat)
    requires low < 256
    ensures Join(low, rest) % 256 == low && Join(low, rest) / 256 == rest
  {
  }

  lemma TakenApart(x: nat) returns (b0: nat, b1: nat, b2: nat, b3: nat)
    requires x < 0x1_0000_0000
    ensures b0 < 256 && b1 < 256 && b2 < 256 && b3 < 256 && x == Word(b0, b1, b2, b3)
  {
    var x1 := x / 256;
    var x2 := x1 / 256;
    b0, b1, b2, b3 := x % 256, x1 % 256, x2 % 256, x2 / 256;
    assert x2 == b2 + 256 * b3;
    assert x1 == b1 + 256 * x2;
    assert x == b0 + 256 * x1;
  }

  // A 32-bit word taken apart and put together the other way round.
  function SwapBytes(x: nat): nat {
    var x1 := x / 256;
    var x2 := x1 / 256;
    Word(x2 / 256, x2 % 256, x1 % 256, x % 256)
  }

  lemma SwapBytesMovesBytes(b0: nat, b1: nat, b2: nat, b3: nat)
    requires b0 < 256 && b1 < 256 && b2 < 256 && b3 < 256
    ensures SwapBytes(Word(b0, b1, b2, b3)) == Word(b3, b2, b1, b0) < 0x1_0000_0000
  {
    ByteOff(b0, Join(b1, Join(b2, b3)));
    ByteOff(b1, Join(b2, b3));
    ByteOff(b2, b3);
  }

  lemma SwapBytesTwice(x: nat)
    requires x < 0x1_0000_0000
    ensures SwapBytes(x) < 0x1_0000_0000 && SwapBytes(SwapBytes(x)) == x
  {
    hide SwapBytes, Word;
    var b0, b1, b2, b3 := TakenApart(x);
    SwapBytesMovesBytes(b0, b1, b2, b3);
    SwapBytesMovesBytes(b3, b2, b1, b0);
  }

  lemma SwapBytesOfAnd(x: nat, y: nat)
    requires x < 0x1_0000_0000 && y < 0x1_0000_0000
    ensures SwapBytes(And(x, y)) == And(SwapBytes(x), SwapBytes(y))
  {
    hide SwapBytes, And, Word;
    var b0, b1, b2, b3 := TakenApart(x);
    var c0, c1, c2, c3 := TakenApart(y);
    SwapBytesMovesBytes(b0, b1, b2, b3);
    SwapBytesMovesBytes(c0, c1, c2, c3);
    AndOfBytes(b0, b1, b2, b3, c0, c1, c2, c3);
    AndOfBytes(b3, b2, b1, b0, c3, c2, c1, c0);
    SwapBytesMovesBytes(And(b0, c0), And(b1, c1), And(b2, c2), And(b3, c3));
  }

  lemma AndOfBytes(b0: nat, b1: nat, b2: nat, b3: nat, c0: nat, c1: nat, c2: nat, c3: nat)
    requires b0 < 256 && b1 < 256 && b2 < 256 && b3 < 256 && c0 < 256 && c1 < 256 && c2 < 256 && c3 < 256
    ensures And(b0, c0) < 256 && And(b1, c1) < 256 && And(b2, c2) < 256 && And(b3, c3) < 256
    ensures And(Word(b0, b1, b2, b3), Word(c0, c1, c2, c3)) == Word(And(b0, c0), And(b1, c1), And(b2, c2), And(b3, c3))
  {
    hide And, Join;
    AndJoined(b0, Join(b1, Join(b2, b3)), c0, Join(c1, Join(c2, c3)));
    AndJoined(b1, Join(b2, b3), c1, Join(c2, c3));
    AndJoined(b2, b3, c2, c3);
    AndJoined(b3, 0, c3, 0);
  }

  lemma AndJoined(low: nat, high: nat, low': nat, high': nat)
    requires low < 256 && low' < 256
    ensures And(low, low') < 256
    ensures And(Join(low, high), Join(low', high')) == Join(And(low, low'), And(high, high'))
  {
    hide And, Pow2;
    Pow256();
    AndSplits(low, high, low', high', 8);
  }

  lemma SwapBytesKeepsOnes(x: nat)
    requires x < 0x1_0000_0000
    ensures CountOnes(SwapBytes(x)) == CountOnes(x)
    ensures SwapBytes(x) < 0x1_0000_0000
  {
    hide SwapBytes, CountOnes, Word;
    var b0, b1, b2, b3 := TakenApart(x);
    SwapBytesMovesBytes(b0, b1, b2, b3);
    FourBytes(b0, b1, b2, b3);
    FourBytes(b3, b2, b1, b0);
  }

  lemma FourBytes(b0: nat, b1: nat, b2: nat, b3: nat)
    requires b0 < 256 && b1 < 256 && b2 < 256 && b3 < 256
    ensures CountOnes(Word(b0, b1, b2, b3))
            == CountOnes(b0) + CountOnes(b1) + CountOnes(b2) + CountOnes(b3)
  {
    hide CountOnes, Join;
    CountOnesJoined(b0, Join(b1, Join(b2, b3)));
    CountOnesJoined(b1, Join(b2, b3));
    CountOnesJoined(b2, b3);
  }

  lemma CountOnesJoined(low: nat, high: nat)
    requires low < 256
    ensures CountOnes(Join(low, high)) == CountOnes(low) + CountOnes(high)
  {
    hide CountOnes, Pow2;
    Pow256();
    CountOnesSplits(low, high, 8);
  }

  lemma Pow256()
    ensures Pow2(8) == 256
  {
    assert Pow2(4) == 16;
    assert Pow2(6) == 64;
  }

  // ---- Masks ----

  // The netmask with the first `prefix` of `width` bits set.
  function Mask(width: nat, prefix: nat): nat
    requires prefix <= width
  {
    Ones(prefix) * Pow2(width - prefix)
  }

  function Ones(k: nat): nat {
    Pow2(k) - 1
  }

  lemma {:induction false} OnesBits(n: nat, k: nat)
    ensures Bit(Ones(n), k) <==> k < n
    decreases k
  {
    if n == 0 {
      ZeroBit(k);
    } else {
      assert Ones(n) == 2 * Ones(n - 1) + 1;
      if k > 0 {
        OnesBits(n - 1, k - 1);
      }
    }
  }

  lemma {:induction false} ShiftedBits(x: nat, s: nat, k: nat)
    ensures Bit(x * Pow2(s), k) <==> k >= s && Bit(x, k - s)
    decreases s
  {
    if s == 0 {
      assert x * Pow2(0) == x;
    } else {
      assert x * Pow2(s) == 2 * (x * Pow2(s - 1));
      if k > 0 {
        ShiftedBits(x, s - 1, k - 1);
      }
    }
  }

  lemma MaskBits(width: nat, prefix: nat, k: nat)
    requires prefix <= width
    ensures Bit(Mask(width, prefix), k) <==> width - prefix <= k < width
  {
    ShiftedBits(Ones(prefix), width - prefix, k);
    if k >= width - prefix {
      OnesBits(prefix, k - (width - prefix));
    }
  }

  lemma {:induction false} CountOnesOfOnes(k: nat)
    ensures CountOnes(Ones(k)) == k
  {
    hide CountOnes, Pow2;
    Pow2Times(k, 1);
    CountOnesHalves(Ones(k));
    if k > 0 {
      HalfOfSum(1, Ones(k - 1));
      CountOnesOfOnes(k - 1);
    }
  }

  lemma MaskOnes(width: nat, prefix: nat)
    requires prefix <= width
    ensures CountOnes(Mask(width, prefix)) == prefix
  {
    hide CountOnes, Pow2;
    CountOnesOfOnes(prefix);
    CountOnesSplits(0, Ones(prefix), width - prefix);
    CountOnesHalves(0);
    assert Pow2(width - prefix) * Ones(prefix) == Mask(width, prefix);
  }
}
