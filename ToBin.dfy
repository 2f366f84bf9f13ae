/** The recursive binary conversion of Lecture3/Solution/Task2.rb: `toBin(n)` writes the
    binary representation of a natural number as the decimal digits of an integer
    (toBin(10) == 1010). Ruby's `/` on integers floors and its `%` takes the sign of the
    divisor; for the divisor 2 both agree with Dafny's Euclidean `/` and `%`. */
module ToBin {

  /** toBin(n). The source recurses on `n / 2` until it reaches 0, which only happens for
      n >= 0 (see NegativeNeverReachesZero); a negative argument ends in SystemStackError,
      so the recursion's own demand is n >= 0. */
  function ToBin(n: int): (r: int)
    requires n >= 0
    decreases n
    ensures r >= 0
    ensures r == 0 <==> n == 0
    ensures r % 10 == n % 2
  {
    if n == 0 then 0 else n % 2 + 10 * ToBin(n / 2)
  }

  /** Every decimal digit of m is 0 or 1. */
  predicate IsBinaryNumeral(m: nat)
    decreases m
  {
    m == 0 || (m % 10 <= 1 && IsBinaryNumeral(m / 10))
  }

  /** The decoder: reads the decimal digits of m as base-2 digits. */
  function FromBin(m: nat): nat
    decreases m
  {
    if m == 0 then 0 else m % 10 + 2 * FromBin(m / 10)
  }

  /** Peeling the last decimal digit of toBin(n) gives toBin(n / 2). */
  lemma ToBinShift(n: nat)
    ensures ToBin(n) / 10 == ToBin(n / 2)
  {
    if n > 0 {
      var q := ToBin(n / 2);
      assert ToBin(n) == n % 2 + 10 * q;
      assert 0 <= n % 2 < 10;
    }
  }

  /** toBin(2k) = 10·toBin(k) and toBin(2k+1) = 10·toBin(k) + 1. */
  lemma ToBinDoubling(k: nat)
    ensures ToBin(2 * k) == 10 * ToBin(k)
    ensures ToBin(2 * k + 1) == 10 * ToBin(k) + 1
  {
    assert (2 * k + 1) / 2 == k && (2 * k + 1) % 2 == 1;
    if k > 0 {
      assert (2 * k) / 2 == k && (2 * k) % 2 == 0;
    }
  }

  /** For n >= 0 every decimal digit of toBin(n) is 0 or 1. */
  lemma {:induction false} ToBinIsBinary(n: nat)
    ensures IsBinaryNumeral(ToBin(n))
    decreases n
  {
    if n > 0 {
      ToBinIsBinary(n / 2);
      ToBinShift(n);
    }
  }

  /** Round trip: reading toBin(n) as base 2 gives n back. */
  lemma {:induction false} FromBinToBin(n: nat)
    ensures FromBin(ToBin(n)) == n
    decreases n
  {
    if n > 0 {
      FromBinToBin(n / 2);
      ToBinShift(n);
    }
  }

  /** The other direction: every numeral made of 0s and 1s is the toBin of its value. */
  lemma {:induction false} ToBinFromBin(m: nat)
    requires IsBinaryNumeral(m)
    ensures ToBin(FromBin(m)) == m
    decreases m
  {
    if m > 0 {
      ToBinFromBin(m / 10);
      var v := FromBin(m);
      assert v == m % 10 + 2 * FromBin(m / 10);
      if FromBin(m / 10) == 0 {
        assert m / 10 == 0;
        assert m % 10 == 1;
      } else {
        assert v / 2 == FromBin(m / 10) && v % 2 == m % 10;
      }
    }
  }

  /** The values the source's demo prints. */
  lemma DemoValues()
    ensures ToBin(7) == 111 && ToBin(10) == 1010 && ToBin(2) == 10
  {
  }

  /** `n` halved k times with Ruby's floor division. */
  function Halved(n: int, k: nat): int
    decreases k
  {
    if k == 0 then n else Halved(n, k - 1) / 2
  }

  /** For negative input the argument of every recursive call stays negative (Ruby's
      -1 / 2 == -1), so the base case `n == 0` is never reached and the Ruby call ends in
      SystemStackError once the stack is exhausted. */
  lemma {:induction false} NegativeNeverReachesZero(n: int, k: nat)
    requires n < 0
    ensures Halved(n, k) < 0
    decreases k
  {
    if k > 0 {
      NegativeNeverReachesZero(n, k - 1);
    }
  }
}
