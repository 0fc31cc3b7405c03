/** How the cache cuts an address into tag, index and offset.  Sizes are powers
    of two, so the source's shifts and masks are divisions and remainders.  The
    invariants of the cache speak of quotients, remainders and products by
    repeated subtraction and addition, which spares them nonlinear arithmetic;
    `DivisionIs` and `TimesIs` say that these are the usual ones. */
module CacheGeometry {

  /** The quotient and remainder are determined by their defining equation. */
  lemma DivisionUnique(a: nat, d: nat, q: nat, r: nat)
    requires d > 0 && a == q * d + r && r < d
    ensures a / d == q && a % d == r
  {
    var k := a / d - q;
    assert a == (a / d) * d + a % d;
    assert (a / d) * d - q * d == k * d;
    assert (-k) * d == -(k * d);
    if k >= 1 {
      Scaled(k, d);
    } else if k <= -1 {
      Scaled(-k, d);
    }
  }

  lemma Scaled(k: nat, d: nat)
    requires k >= 1
    ensures k * d >= d
  {
    assert k * d == (k - 1) * d + d;
  }

  lemma Product(a: nat, b: nat)
    requires a > 0 && b > 0
    ensures a * b > 0
  {
  }

  function Quotient(a: nat, d: nat): nat
    requires d > 0
  {
    if a < d then 0 else Quotient(a - d, d) + 1
  }

  function Remainder(a: nat, d: nat): (r: nat)
    requires d > 0
    ensures r < d
  {
    if a < d then a else Remainder(a - d, d)
  }

  function Times(n: nat, d: nat): nat { if n == 0 then 0 else Times(n - 1, d) + d }

  lemma {:induction false} TimesIs(n: nat, d: nat)
    ensures Times(n, d) == n * d
  {
    if n > 0 {
      TimesIs(n - 1, d);
      assert n * d == (n - 1) * d + d;
    }
  }

  lemma {:induction false} QuotientTimes(a: nat, d: nat)
    requires d > 0
    ensures Times(Quotient(a, d), d) + Remainder(a, d) == a
  {
    if a >= d { QuotientTimes(a - d, d); }
  }

  lemma DivisionIs(a: nat, d: nat)
    requires d > 0
    ensures Quotient(a, d) == a / d && Remainder(a, d) == a % d
  {
    QuotientTimes(a, d);
    TimesIs(Quotient(a, d), d);
    DivisionUnique(a, d, Quotient(a, d), Remainder(a, d));
  }

  /** The number of the memory line that holds an address. */
  function LineOf(blockSize: nat, addr: nat): nat
    requires blockSize > 0
  {
    Quotient(addr, blockSize)
  }

  function TagOf(blockCount: nat, line: nat): nat
    requires blockCount > 0
  {
    Quotient(line, blockCount)
  }

  function IndexOf(blockCount: nat, line: nat): (x: nat)
    requires blockCount > 0
    ensures x < blockCount
  {
    Remainder(line, blockCount)
  }

  function LineAt(blockCount: nat, tag: nat, index: nat): nat { Times(tag, blockCount) + index }

  /** Tag and index recombine to the line, and determine each other. */
  lemma Recombine(blockCount: nat, line: nat)
    requires blockCount > 0
    ensures LineAt(blockCount, TagOf(blockCount, line), IndexOf(blockCount, line)) == line
  {
    QuotientTimes(line, blockCount);
  }

  lemma {:induction false} SplitLine(blockCount: nat, tag: nat, index: nat)
    requires index < blockCount
    ensures TagOf(blockCount, LineAt(blockCount, tag, index)) == tag
    ensures IndexOf(blockCount, LineAt(blockCount, tag, index)) == index
  {
    if tag > 0 { SplitLine(blockCount, tag - 1, index); }
  }

  lemma Fields(blockSize: nat, blockCount: nat, addr: nat)
    requires blockSize > 0 && blockCount > 0
    ensures blockSize * blockCount > 0
    ensures addr / (blockSize * blockCount) == (addr / blockSize) / blockCount
    ensures (addr % (blockSize * blockCount)) / blockSize == (addr / blockSize) % blockCount
  {
    var l := addr / blockSize;
    var off := addr % blockSize;
    var t, x := l / blockCount, l % blockCount;
    Product(blockSize, blockCount);
    assert addr == l * blockSize + off;
    assert l == t * blockCount + x;
    assert l * blockSize == t * (blockSize * blockCount) + x * blockSize by {
      assert (t * blockCount) * blockSize == t * (blockSize * blockCount);
    }
    Below(x, blockCount, blockSize, off);
    DivisionUnique(addr, blockSize * blockCount, t, x * blockSize + off);
    DivisionUnique(x * blockSize + off, blockSize, x, off);
  }

  /** The source's field extraction: division and remainder on the whole address. */
  lemma Separate(blockSize: nat, blockCount: nat, addr: nat)
    requires blockSize > 0 && blockCount > 0
    ensures blockSize * blockCount > 0
    ensures addr / (blockSize * blockCount) == TagOf(blockCount, LineOf(blockSize, addr))
    ensures (addr % (blockSize * blockCount)) / blockSize == IndexOf(blockCount, LineOf(blockSize, addr))
  {
    hide Quotient, Remainder;
    Fields(blockSize, blockCount, addr);
    DivisionIs(addr, blockSize);
    DivisionIs(addr / blockSize, blockCount);
  }

  lemma Below(x: nat, blockCount: nat, blockSize: nat, off: nat)
    requires x < blockCount && off < blockSize
    ensures x * blockSize + off < blockSize * blockCount
  {
    assert (blockCount - 1 - x) * blockSize >= 0;
    assert (blockCount - 1 - x) * blockSize == blockCount * blockSize - blockSize - x * blockSize;
  }

  /** An address inside a line: the k-th word of line l. */
  lemma WordAddress(words: nat, l: nat, k: nat)
    requires k < words
    ensures var a := l * (4 * words) + 4 * k;
            LineOf(4 * words, a) == l && (a % (4 * words)) / 4 == k
  {
    DivisionUnique(l * (4 * words) + 4 * k, 4 * words, l, 4 * k);
    DivisionIs(l * (4 * words) + 4 * k, 4 * words);
  }

  /** Two addresses share tag, index and offset only if they are equal. */
  lemma Injective(blockSize: nat, blockCount: nat, a: nat, b: nat)
    requires blockSize > 0 && blockCount > 0
    requires TagOf(blockCount, LineOf(blockSize, a)) == TagOf(blockCount, LineOf(blockSize, b))
    requires IndexOf(blockCount, LineOf(blockSize, a)) == IndexOf(blockCount, LineOf(blockSize, b))
    requires a % blockSize == b % blockSize
    ensures a == b
  {
    Recombine(blockCount, LineOf(blockSize, a));
    Recombine(blockCount, LineOf(blockSize, b));
    DivisionIs(a, blockSize);
    DivisionIs(b, blockSize);
    assert a == LineOf(blockSize, a) * blockSize + a % blockSize;
    assert b == LineOf(blockSize, b) * blockSize + b % blockSize;
  }
}
