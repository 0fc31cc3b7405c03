/** The flat memory that the cache is proved against, byte by byte: every access
    reads or changes exactly the bytes at its address. */
module CacheFacts {
  import opened Isa
  import opened CacheModel
  import opened UnalignedAccess
  import CacheGeometry

  predicate Inside(flat: Lines, words: nat, a: nat) {
    words > 0 && Shaped(flat, words) && CacheGeometry.LineOf(4 * words, a) < |flat|
  }

  /** What a byte access to address a finds. */
  function Seen(flat: Lines, words: nat, a: nat): Word { FlatResult(flat, words, ReadByte(a)) }

  /** Byte k of a word, the lowest first. */
  function Piece(v: Word, k: nat): Word
    requires k < 4
  {
    if k == 0 then v & 0xFF else if k == 1 then (v >> 8) & 0xFF else if k == 2 then (v >> 16) & 0xFF else v >> 24
  }

  lemma TopByte(v: Word)
    ensures (v >> 24) & 0xFF == v >> 24
  {
  }

  lemma FirstPiece(v: Word)
    ensures ByteOf(false, v, 0) == Piece(v, 0)
  {
  }

  lemma SecondPiece(v: Word)
    ensures ByteOf(false, v, 1) == Piece(v, 1)
  {
  }

  lemma ThirdPiece(v: Word)
    ensures ByteOf(false, v, 2) == Piece(v, 2)
  {
  }

  lemma LastPiece(v: Word)
    ensures ByteOf(false, v, 3) == Piece(v, 3)
  {
    TopByte(v);
  }

  lemma PieceIs(v: Word, k: nat)
    requires k < 4
    ensures ByteOf(false, v, k) == Piece(v, k)
  {
    hide ByteOf, Piece;
    FirstPiece(v);
    SecondPiece(v);
    ThirdPiece(v);
    LastPiece(v);
  }

  // ---- words ----

  lemma CutOnce(d: nat, a: nat)
    requires d > 0
    ensures a / 4 == d * (a / (4 * d)) + (a % (4 * d)) / 4 && (a % (4 * d)) / 4 < d
  {
    Cut(d, 4 * d, a);
  }

  lemma Cut(d: nat, size: nat, a: nat)
    requires d > 0 && size == 4 * d
    ensures a / 4 == d * Quotient(a, size) + Rest(a, size) / 4 && Rest(a, size) / 4 < d
  {
    hide Quotient, Rest;
    Divides(a, size);
    RestBelow(a, size);
    Fits(d, size, Quotient(a, size), Rest(a, size), a);
  }

  lemma RestBelow(a: nat, size: nat)
    requires size > 0
    ensures 0 <= Rest(a, size) < size && Quotient(a, size) >= 0
  {
  }

  lemma Fits(d: nat, size: nat, q: nat, r: nat, a: nat)
    requires size == 4 * d && a == size * q + r && r < size
    ensures a / 4 == d * q + r / 4 && r / 4 < d
  {
    var n := d * q;
    Reassociate(d, q);
    assert size * q == 4 * n;
    Quarter(n, r);
  }

  lemma Quarter(n: nat, r: nat)
    ensures (4 * n + r) / 4 == n + r / 4
  {
  }

  /** Two addresses fall on the same word of the same line exactly when they fall
      on the same word of memory. */
  lemma SameWordIff(words: nat, a: nat, b: nat)
    requires words > 0
    ensures a / 4 == b / 4 <==>
              CacheGeometry.LineOf(4 * words, a) == CacheGeometry.LineOf(4 * words, b)
              && (a % (4 * words)) / 4 == (b % (4 * words)) / 4
  {
    CutOnce(words, a);
    CutOnce(words, b);
    CacheGeometry.DivisionIs(a, 4 * words);
    CacheGeometry.DivisionIs(b, 4 * words);
    Same(words, a / 4, a / (4 * words), (a % (4 * words)) / 4, b / 4, b / (4 * words), (b % (4 * words)) / 4);
  }

  lemma Same(d: nat, x: nat, q: nat, r: nat, x': nat, q': nat, r': nat)
    requires d > 0 && x == d * q + r && r < d && x' == d * q' + r' && r' < d
    ensures x == x' <==> q == q' && r == r'
  {
    CacheGeometry.DivisionUnique(x, d, q, r);
    CacheGeometry.DivisionUnique(x', d, q', r');
  }

  lemma WordPlace(words: nat, a: nat)
    requires words > 0
    ensures (a % (4 * words)) / 4 < words
  {
    CutOnce(words, a);
  }

  /** A word that is put is there, and no other word changes. */
  lemma PutGet(flat: Lines, words: nat, a: nat, w: Word, b: nat)
    requires Inside(flat, words, a) && Inside(flat, words, b)
    ensures FlatGet(FlatPut(flat, words, a, w), words, b) == if a / 4 == b / 4 then w else FlatGet(flat, words, b)
  {
    hide CacheGeometry.LineOf;
    WordPlace(words, a);
    WordPlace(words, b);
    SameWordIff(words, a, b);
  }

  // ---- bytes ----

  lemma SeenIs(flat: Lines, words: nat, a: nat)
    ensures Seen(flat, words, a) == Piece(FlatGet(flat, words, a), a % 4)
  {
    hide ByteOf, Piece, FlatGet;
    PieceIs(FlatGet(flat, words, a), a % 4);
  }

  /** A byte is written ... */
  lemma ByteWritten(flat: Lines, words: nat, a: nat, v: Word, b: nat)
    requires Inside(flat, words, a) && Inside(flat, words, b)
    ensures Seen(FlatEffect(flat, words, WriteByte(a, v)), words, b) == if b == a then v & 0xFF else Seen(flat, words, b)
  {
    hide FlatGet, FlatPut, Insert, ByteOf, Shaped, CacheGeometry.LineOf;
    var w := FlatGet(flat, words, a);
    PutGet(flat, words, a, Insert(false, w, a % 4, v), b);
    if a / 4 == b / 4 {
      InsertedByte(false, w, a % 4, v, b % 4);
      PutGet(flat, words, a, w, b);
      GetSame(flat, words, a, b);
    }
  }

  lemma GetSame(flat: Lines, words: nat, a: nat, b: nat)
    requires words > 0 && a / 4 == b / 4
    ensures FlatGet(flat, words, a) == FlatGet(flat, words, b)
  {
    hide CacheGeometry.LineOf;
    SameWordIff(words, a, b);
  }

  /** ... or a halfword, lower byte first ... */
  lemma HalfWritten(flat: Lines, words: nat, a: nat, v: Word, b: nat)
    requires Inside(flat, words, a) && Inside(flat, words, b)
    ensures Seen(FlatEffect(flat, words, WriteHalf(a, v)), words, b) ==
              if a % 2 == 0 && b == a then v & 0xFF
              else if a % 2 == 0 && b == a + 1 then (v >> 8) & 0xFF
              else Seen(flat, words, b)
  {
    hide FlatGet, FlatPut, PutHalf, Piece, Shaped, CacheGeometry.LineOf;
    if a % 2 == 0 {
      var w := FlatGet(flat, words, a);
      PutGet(flat, words, a, PutHalf(w, (a / 2) % 2, v), b);
      SeenIs(FlatEffect(flat, words, WriteHalf(a, v)), words, b);
      SeenIs(flat, words, b);
      if a / 4 == b / 4 {
        GetSame(flat, words, a, b);
        HalfPieces(w, v);
        HalfPlace(a);
      }
    }
  }

  lemma HalfPieces(w: Word, v: Word)
    ensures Piece(PutHalf(w, 0, v), 0) == v & 0xFF && Piece(PutHalf(w, 0, v), 1) == (v >> 8) & 0xFF
    ensures Piece(PutHalf(w, 0, v), 2) == Piece(w, 2) && Piece(PutHalf(w, 0, v), 3) == Piece(w, 3)
    ensures Piece(PutHalf(w, 1, v), 0) == Piece(w, 0) && Piece(PutHalf(w, 1, v), 1) == Piece(w, 1)
    ensures Piece(PutHalf(w, 1, v), 2) == v & 0xFF && Piece(PutHalf(w, 1, v), 3) == (v >> 8) & 0xFF
  {
    hide WithLow, WithHigh, Piece;
    LowPieces(w, v);
    LowPiecesKept(w, v);
    HighPieces(w, v);
    HighPiecesKept(w, v);
  }

  lemma LowPieces(w: Word, v: Word)
    ensures Piece(WithLow(w, v), 0) == v & 0xFF && Piece(WithLow(w, v), 1) == (v >> 8) & 0xFF
  {
  }

  lemma LowPiecesKept(w: Word, v: Word)
    ensures Piece(WithLow(w, v), 2) == Piece(w, 2) && Piece(WithLow(w, v), 3) == Piece(w, 3)
  {
  }

  lemma HighPieces(w: Word, v: Word)
    ensures Piece(WithHigh(w, v), 2) == v & 0xFF && Piece(WithHigh(w, v), 3) == (v >> 8) & 0xFF
  {
  }

  lemma HighPiecesKept(w: Word, v: Word)
    ensures Piece(WithHigh(w, v), 0) == Piece(w, 0) && Piece(WithHigh(w, v), 1) == Piece(w, 1)
  {
  }

  /** ... or a word; a misaligned write does nothing. */
  lemma WordWritten(flat: Lines, words: nat, a: nat, v: Word, b: nat)
    requires Inside(flat, words, a) && Inside(flat, words, b)
    ensures Seen(FlatEffect(flat, words, Write(a, v)), words, b) ==
              if a % 4 == 0 && a <= b < a + 4 then Piece(v, b - a) else Seen(flat, words, b)
  {
    hide FlatGet, FlatPut, Piece, Shaped, CacheGeometry.LineOf;
    if a % 4 == 0 {
      PutGet(flat, words, a, v, b);
      SeenIs(FlatEffect(flat, words, Write(a, v)), words, b);
      SeenIs(flat, words, b);
    }
  }

  /** What is read is put together from bytes in the same way. */
  lemma WordRead(flat: Lines, words: nat, a: nat)
    requires words > 0 && a % 4 == 0
    ensures FlatResult(flat, words, Read(a)) ==
              Seen(flat, words, a) | (Seen(flat, words, a + 1) << 8) | (Seen(flat, words, a + 2) << 16) | (Seen(flat, words, a + 3) << 24)
  {
    hide FlatGet, Piece;
    SeenIs(flat, words, a);
    SeenIs(flat, words, a + 1);
    SeenIs(flat, words, a + 2);
    SeenIs(flat, words, a + 3);
    GetSame(flat, words, a, a + 1);
    GetSame(flat, words, a, a + 2);
    GetSame(flat, words, a, a + 3);
    Assembled(FlatGet(flat, words, a));
  }

  lemma Assembled(w: Word)
    ensures Piece(w, 0) | (Piece(w, 1) << 8) | (Piece(w, 2) << 16) | (Piece(w, 3) << 24) == w
    ensures GetHalf(w, 0) == Piece(w, 0) | (Piece(w, 1) << 8)
    ensures GetHalf(w, 1) == Piece(w, 2) | (Piece(w, 3) << 8)
  {
    HalfBytes(w);
    TopByte(w);
    Joined(w);
  }

  lemma Joined(w: Word)
    ensures (w & 0xFF) | (((w >> 8) & 0xFF) << 8) | (((w >> 16) & 0xFF) << 16) | ((w >> 24) << 24) == w
  {
  }

  lemma HalfRead(flat: Lines, words: nat, a: nat)
    requires words > 0 && a % 2 == 0
    ensures FlatResult(flat, words, ReadHalf(a)) == Together(Seen(flat, words, a), Seen(flat, words, a + 1))
  {
    hide FlatGet, Piece, GetHalf, Together;
    HalfPlace(a);
    SeenIs(flat, words, a);
    SeenIs(flat, words, a + 1);
    GetSame(flat, words, a, a + 1);
    HalvesAre(FlatGet(flat, words, a));
  }

  function Together(low: Word, high: Word): Word { low | (high << 8) }

  lemma HalvesAre(w: Word)
    ensures GetHalf(w, 0) == Together(Piece(w, 0), Piece(w, 1)) && GetHalf(w, 1) == Together(Piece(w, 2), Piece(w, 3))
  {
    Assembled(w);
  }

  lemma HalfPlace(a: nat)
    requires a % 2 == 0
    ensures a % 4 == 2 * ((a / 2) % 2) && (a + 1) % 4 == a % 4 + 1 && (a + 1) / 4 == a / 4
  {
  }
}
