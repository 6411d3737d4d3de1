/** The computer's move strategies: the NimStrategy interface as a tagged
    datatype, the win-oriented modular formula and the clamped random draw. */
module Strategies {

  datatype Option<T> = None | Some(value: T)

  /** The two implementations of NimStrategy. */
  datatype Strategy = WinOriented | Random

  function Min(a: int, b: int): int { if a <= b then a else b }

  function Max(a: int, b: int): int { if a >= b then a else b }

  function Abs(a: int): nat { if a >= 0 then a else -a }

  /** Kotlin's `%` on Int: the remainder truncates toward zero, so it takes
      the sign of the dividend (Dafny's `%` is Euclidean and never negative). */
  function Rem(a: int, b: int): (r: int)
    requires b != 0
    ensures a >= 0 && b > 0 ==> r == a % b
    ensures a >= 0 ==> 0 <= r < Abs(b)
    ensures a < 0 ==> -(Abs(b) as int) < r <= 0
  {
    if a >= 0 then a % Abs(b) else -((-a) % Abs(b))
  }

  lemma {:induction false} MulAtLeast(d: int, m: int)
    requires d >= 1 && m > 0
    ensures d * m >= m
    decreases d
  {
    if d > 1 {
      MulAtLeast(d - 1, m);
      assert d * m == (d - 1) * m + m;
    }
  }

  /** x % m is determined by any decomposition x == k * m + c with 0 <= c < m. */
  lemma ModUnique(x: int, m: int, k: int, c: int)
    requires m > 0 && 0 <= c < m && x == k * m + c
    ensures x % m == c
  {
    var q, r := x / m, x % m;
    assert x == q * m + r && 0 <= r < m;
    var d := q - k;
    assert d * m == c - r;
    if d >= 1 {
      MulAtLeast(d, m);
      assert false;
    } else if d <= -1 {
      MulAtLeast(-d, m);
      assert false;
    }
  }

  /** The win-oriented move: move = max(1, ((pile % (max + 1)) + max) % (max + 1)),
      then capped at the pile. Kotlin divides by zero when max + 1 == 0. */
  function WinOrientedMove(currentPileSize: int, maxNimCount: int): (move: int)
    requires maxNimCount + 1 != 0
    ensures currentPileSize >= 1 && maxNimCount >= 1 ==> 1 <= move <= currentPileSize && move <= maxNimCount
    ensures currentPileSize <= 0 ==> move == currentPileSize
  {
    var m := maxNimCount + 1;
    Min(currentPileSize, Max(1, Rem(Rem(currentPileSize, m) + maxNimCount, m)))
  }

  /** A non-positive multiple of a positive number is non-positive. */
  lemma MulNonPositive(q: int, m: int)
    requires m > 0
    ensures q <= 0 ==> q * m <= 0
  {
    if q < 0 {
      MulAtLeast(-q, m);
      assert q * m == -((-q) * m);
    }
  }

  lemma MulSucc(q: int, m: int)
    ensures (q + 1) * m == q * m + m
  {
  }

  /** The win-oriented target residue: the inner expression is one less than
      the pile, modulo max + 1. */
  lemma WinOrientedInner(currentPileSize: int, maxNimCount: int)
    requires currentPileSize >= 0 && maxNimCount >= 0
    ensures Rem(Rem(currentPileSize, maxNimCount + 1) + maxNimCount, maxNimCount + 1)
            == (currentPileSize + maxNimCount) % (maxNimCount + 1)
            == (currentPileSize - 1) % (maxNimCount + 1)
  {
    var m := maxNimCount + 1;
    var q, r := currentPileSize / m, currentPileSize % m;
    assert currentPileSize == q * m + r;
    assert Rem(currentPileSize, m) == r;
    assert Rem(r + maxNimCount, m) == (r + maxNimCount) % m;
    if r == 0 {
      ModUnique(r + maxNimCount, m, 0, maxNimCount);
      ModUnique(currentPileSize + maxNimCount, m, q, maxNimCount);
      MulSucc(q - 1, m);
      ModUnique(currentPileSize - 1, m, q - 1, maxNimCount);
    } else {
      ModUnique(r + maxNimCount, m, 1, r - 1);
      MulSucc(q, m);
      ModUnique(currentPileSize + maxNimCount, m, q + 1, r - 1);
      ModUnique(currentPileSize - 1, m, q, r - 1);
    }
  }

  /** From a pile that is not 1 modulo max + 1 the win-oriented move leaves a
      pile that is 1 modulo max + 1: a losing position for the other side. */
  lemma WinOrientedReachesLosingResidue(currentPileSize: int, maxNimCount: int)
    requires currentPileSize >= 1 && maxNimCount >= 1
    requires currentPileSize % (maxNimCount + 1) != 1
    ensures (currentPileSize - WinOrientedMove(currentPileSize, maxNimCount)) % (maxNimCount + 1) == 1
  {
    var m := maxNimCount + 1;
    var q, r := currentPileSize / m, currentPileSize % m;
    assert currentPileSize == q * m + r;
    WinOrientedInner(currentPileSize, maxNimCount);
    var inner := Rem(Rem(currentPileSize, m) + maxNimCount, m);
    assert WinOrientedMove(currentPileSize, maxNimCount) == Min(currentPileSize, Max(1, inner));
    if r == 0 {
      MulSucc(q - 1, m);
      ModUnique(currentPileSize - 1, m, q - 1, maxNimCount);
      MulNonPositive(q, m);
      MulAtLeast(q, m);
      assert WinOrientedMove(currentPileSize, maxNimCount) == maxNimCount;
      ModUnique(currentPileSize - maxNimCount, m, q - 1, 1);
    } else {
      ModUnique(currentPileSize - 1, m, q, r - 1);
      assert WinOrientedMove(currentPileSize, maxNimCount) == r - 1 by {
        assert q >= 0;
        if q > 0 { MulAtLeast(q, m); }
      }
      ModUnique(currentPileSize - (r - 1), m, q, 1);
    }
  }

  /** On a pile that is already 1 modulo max + 1 there is no winning move and
      the strategy takes a single token. */
  lemma WinOrientedTakesOneWhenLosing(currentPileSize: int, maxNimCount: int)
    requires currentPileSize >= 1 && maxNimCount >= 1
    requires currentPileSize % (maxNimCount + 1) == 1
    ensures WinOrientedMove(currentPileSize, maxNimCount) == 1
  {
    var m := maxNimCount + 1;
    WinOrientedInner(currentPileSize, maxNimCount);
    ModUnique(currentPileSize - 1, m, currentPileSize / m, 0);
  }

  /** Kotlin's Random.nextInt(1, max) throws unless 1 < max; when it does
      return, its draw lies in [1, max). */
  predicate ValidDraw(maxNimCount: int, draw: int)
  {
    maxNimCount <= 1 || 1 <= draw < maxNimCount
  }

  /** The random move: the draw from [1, max), capped at the pile. */
  function RandomMove(currentPileSize: int, maxNimCount: int, draw: int): (move: int)
    requires 1 <= draw < maxNimCount
    ensures move <= currentPileSize && move <= maxNimCount - 1
    ensures currentPileSize >= 1 ==> move >= 1
    ensures move <= draw && (move == draw || move == currentPileSize)
  {
    Min(currentPileSize, draw)
  }

  /** NimStrategy.calculateMove; None stands for the exception the strategy
      raises (division by zero, or an empty range for the draw). */
  function CalculateMove(strategy: Strategy, currentPileSize: int, maxNimCount: int, draw: int): (move: Option<int>)
    requires strategy.Random? ==> ValidDraw(maxNimCount, draw)
    ensures move.None? <==> (strategy.WinOriented? && maxNimCount == -1) || (strategy.Random? && maxNimCount <= 1)
    ensures move.Some? && currentPileSize >= 1 && maxNimCount >= 1 ==>
              1 <= move.value <= currentPileSize && move.value <= maxNimCount
    ensures strategy.Random? && move.Some? ==> move.value != maxNimCount
  {
    match strategy
    case WinOriented =>
      if maxNimCount + 1 == 0 then None else Some(WinOrientedMove(currentPileSize, maxNimCount))
    case Random =>
      if maxNimCount <= 1 then None else Some(RandomMove(currentPileSize, maxNimCount, draw))
  }

  /** The strategy contract the engine relies on: with a non-empty pile and a
      positive maximum the win-oriented strategy always proposes a legal move,
      and the random one does so whenever its draw range is non-empty. */
  lemma StrategyProposesLegalMove(strategy: Strategy, currentPileSize: int, maxNimCount: int, draw: int)
    requires currentPileSize >= 1 && maxNimCount >= 1
    requires strategy.Random? ==> 1 <= draw < maxNimCount
    ensures CalculateMove(strategy, currentPileSize, maxNimCount, draw).Some?
    ensures var n := CalculateMove(strategy, currentPileSize, maxNimCount, draw).value;
            1 <= n <= Min(currentPileSize, maxNimCount)
  {
  }

  /** Worked values: pile 10 with at most 3 gives 1; pile 1 gives 1; an empty
      pile gives 0, which no rule accepts. */
  lemma WinOrientedExamples()
    ensures WinOrientedMove(10, 3) == 1
    ensures WinOrientedMove(1, 3) == 1
    ensures WinOrientedMove(13, 3) == 1
    ensures WinOrientedMove(11, 3) == 2
    ensures WinOrientedMove(0, 3) == 0
  {
    assert Rem(10, 4) == 2 && Rem(2 + 3, 4) == 1;
    assert Rem(1, 4) == 1 && Rem(1 + 3, 4) == 0;
    assert Rem(13, 4) == 1;
    assert Rem(11, 4) == 3 && Rem(3 + 3, 4) == 2;
  }
}
