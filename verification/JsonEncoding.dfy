/** The bytes that are written for a text as the content of a JSON string: QuoteJSONString (section
    25.5.2.3 of ECMA-262, 2023) in UTF-8 (section 3 of RFC 3629).  The cost that chunking counts is
    the number of these bytes, and they can be read back. */
module JsonEncoding {
  import opened JsonText

  type Byte = x: int | 0 <= x < 0x100

  type HexDigit = x: int | 0 <= x < 16

  /** 0 to 9 and a to f. */
  function HexByte(d: HexDigit): Byte {
    if d < 10 then 0x30 + d else 0x57 + d
  }

  function HexValue(b: Byte): HexDigit {
    if 0x30 <= b < 0x3A then b - 0x30 else if 0x61 <= b < 0x67 then b - 0x57 else 0
  }

  predicate HasShortEscape(u: Unit) {
    u == 0x08 || u == 0x09 || u == 0x0A || u == 0x0C || u == 0x0D || u == 0x22 || u == 0x5C
  }

  /** The letter of a short escape: b, t, n, f or r; a quote and a backslash stand for themselves. */
  function ShortEscape(u: Unit): Byte {
    if u == 0x08 then 0x62 else if u == 0x09 then 0x74 else if u == 0x0A then 0x6E
    else if u == 0x0C then 0x66 else if u == 0x0D then 0x72 else if u == 0x22 then 0x22 else 0x5C
  }

  function ShortEscaped(b: Byte): Unit {
    if b == 0x62 then 0x08 else if b == 0x74 then 0x09 else if b == 0x6E then 0x0A
    else if b == 0x66 then 0x0C else if b == 0x72 then 0x0D else b
  }

  /** Backslash, u and four digits. */
  function LongEscape(u: Unit): seq<Byte> {
    [0x5C, 0x75, HexByte(u / 0x1000), HexByte(u / 0x100 % 16), HexByte(u / 16 % 16), HexByte(u % 16)]
  }

  function Trail(x: nat): Byte {
    0x80 + x % 64
  }

  function Utf8(u: Unit): seq<Byte> {
    if u < 0x80 then [u]
    else if u < 0x800 then [0xC0 + u / 64, Trail(u)]
    else [0xE0 + u / 4096, Trail(u / 64), Trail(u)]
  }

  /** The code point of a surrogate pair. */
  function PairPoint(high: Unit, low: Unit): (r: nat)
    requires High(high) && Low(low)
    ensures 0x10000 <= r < 0x110000
  {
    0x10000 + (high - 0xD800) * 0x400 + (low - 0xDC00)
  }

  function Utf8Pair(point: nat): seq<Byte>
    requires 0x10000 <= point < 0x110000
  {
    [0xF0 + point / 0x40000, Trail(point / 4096), Trail(point / 64), Trail(point)]
  }

  function UnitWritten(u: Unit): seq<Byte> {
    if HasShortEscape(u) then [0x5C, ShortEscape(u)]
    else if u < 0x20 || High(u) || Low(u) then LongEscape(u)
    else Utf8(u)
  }

  function Written(t: Text): seq<Byte> {
    if t == [] then []
    else if |t| >= 2 && High(t[0]) && Low(t[1]) then Utf8Pair(PairPoint(t[0], t[1])) + Written(t[2..])
    else UnitWritten(t[0]) + Written(t[1..])
  }

  // ---------------------------------------------------------------------------------------------
  // Reading.

  /** How many bytes make up the character at the front. */
  function Width(bs: seq<Byte>): nat
    requires bs != []
  {
    if bs[0] == 0x5C then (if |bs| > 1 && bs[1] == 0x75 then 6 else 2)
    else if bs[0] < 0x80 then 1
    else if bs[0] < 0xE0 then 2
    else if bs[0] < 0xF0 then 3
    else 4
  }

  function Trailed(b: Byte): nat {
    if b < 0x80 then 0 else (b - 0x80) % 64
  }

  /** The character that a whole group of bytes stands for. */
  function ReadOne(bs: seq<Byte>): Text
    requires bs != [] && |bs| == Width(bs)
  {
    if bs[0] == 0x5C then
      if bs[1] == 0x75 then [HexValue(bs[2]) * 0x1000 + HexValue(bs[3]) * 0x100 + HexValue(bs[4]) * 16 + HexValue(bs[5])]
      else [ShortEscaped(bs[1])]
    else if bs[0] < 0x80 then [bs[0]]
    else if bs[0] < 0xE0 then [(bs[0] - 0x80) % 0x20 * 64 + Trailed(bs[1])]
    else if bs[0] < 0xF0 then [(bs[0] - 0xE0) * 4096 + Trailed(bs[1]) * 64 + Trailed(bs[2])]
    else PairOf((bs[0] - 0xF0) * 0x40000 + Trailed(bs[1]) * 4096 + Trailed(bs[2]) * 64 + Trailed(bs[3]))
  }

  function PairOf(point: nat): Text {
    if 0x10000 <= point < 0x110000 then [0xD800 + (point - 0x10000) / 0x400, 0xDC00 + (point - 0x10000) % 0x400] else []
  }

  function ReadBack(bs: seq<Byte>): Text {
    if bs == [] || Width(bs) > |bs| then []
    else ReadOne(bs[..Width(bs)]) + ReadBack(bs[Width(bs)..])
  }

  // ---------------------------------------------------------------------------------------------
  // The cost is what is written.

  lemma UnitBytesAreWritten(u: Unit)
    ensures UnitBytes(u) == |UnitWritten(u)|
  {
  }

  /** What chunking counts is the number of bytes that are written. */
  lemma {:induction false} BytesAreWritten(t: Text)
    ensures Bytes(t) == |Written(t)|
  {
    if t != [] {
      if |t| >= 2 && High(t[0]) && Low(t[1]) {
        BytesAreWritten(t[2..]);
      } else {
        UnitBytesAreWritten(t[0]);
        BytesAreWritten(t[1..]);
      }
    }
  }

  // ---------------------------------------------------------------------------------------------
  // And can be read back.

  lemma HexIsRead(d: HexDigit)
    ensures HexValue(HexByte(d)) == d
  {
  }

  lemma TrailIsRead(x: nat)
    ensures Trailed(Trail(x)) == x % 64
  {
  }

  /** Dividing twice is dividing by the product. */
  lemma DigitsOf(x: nat, base: nat)
    requires base > 0
    ensures x == x / base * base + x % base
  {
  }

  lemma HexDigitsAdd(u: Unit)
    ensures u == u / 0x1000 * 0x1000 + u / 0x100 % 16 * 0x100 + u / 16 % 16 * 16 + u % 16
  {
    assert u / 0x1000 == u / 0x100 / 16 && u / 0x100 == u / 16 / 16;
    DigitsOf(u / 0x100, 16);
    DigitsOf(u / 16, 16);
    DigitsOf(u, 16);
  }

  lemma TrailsAdd(u: Unit)
    ensures u == u / 4096 * 4096 + u / 64 % 64 * 64 + u % 64
  {
    assert u / 4096 == u / 64 / 64;
    DigitsOf(u / 64, 64);
    DigitsOf(u, 64);
  }

  lemma PointAdds(point: nat)
    requires point < 0x110000
    ensures point == point / 0x40000 * 0x40000 + point / 4096 % 64 * 4096 + point / 64 % 64 * 64 + point % 64
    ensures point / 0x40000 < 5
  {
    assert point / 0x40000 == point / 4096 / 64 && point / 4096 == point / 64 / 64;
    DigitsOf(point / 4096, 64);
    DigitsOf(point / 64, 64);
    DigitsOf(point, 64);
  }

  lemma EscapeIsRead(u: Unit)
    ensures Width(LongEscape(u)) == 6 && ReadOne(LongEscape(u)) == [u]
  {
    HexDigitsAdd(u);
    HexIsRead(u / 0x1000);
    HexIsRead(u / 0x100 % 16);
    HexIsRead(u / 16 % 16);
    HexIsRead(u % 16);
  }

  lemma Utf8IsRead(u: Unit)
    requires u != 0x5C
    ensures var w := Utf8(u); |w| > 0 && Width(w) == |w| && ReadOne(w) == [u]
  {
    TrailIsRead(u);
    if u < 0x80 {
    } else if u < 0x800 {
      DigitsOf(u, 64);
    } else {
      TrailsAdd(u);
      TrailIsRead(u / 64);
    }
  }

  lemma UnitIsRead(u: Unit)
    ensures var w := UnitWritten(u); |w| > 0 && Width(w) == |w| && ReadOne(w) == [u]
  {
    if HasShortEscape(u) {
    } else if u < 0x20 || High(u) || Low(u) {
      EscapeIsRead(u);
    } else {
      Utf8IsRead(u);
    }
  }

  lemma PairIsRead(high: Unit, low: Unit)
    requires High(high) && Low(low)
    ensures var w := Utf8Pair(PairPoint(high, low)); Width(w) == 4 && ReadOne(w) == [high] + [low]
  {
    var point := PairPoint(high, low);
    PointAdds(point);
    TrailIsRead(point);
    TrailIsRead(point / 64);
    TrailIsRead(point / 4096);
    assert ReadOne(Utf8Pair(point)) == PairOf(point);
  }

  /** The first character is read on its own, whatever follows. */
  lemma ReadInFront(w: seq<Byte>, rest: seq<Byte>)
    requires w != [] && Width(w) == |w|
    ensures ReadBack(w + rest) == ReadOne(w) + ReadBack(rest)
  {
    var all := w + rest;
    assert Width(all) == |w|;
    assert all[..|w|] == w && all[|w|..] == rest;
  }

  /** What is written for a text stands for that text. */
  lemma {:induction false} WrittenIsRead(t: Text)
    ensures ReadBack(Written(t)) == t
  {
    if t != [] {
      if |t| >= 2 && High(t[0]) && Low(t[1]) {
        PairIsRead(t[0], t[1]);
        ReadInFront(Utf8Pair(PairPoint(t[0], t[1])), Written(t[2..]));
        WrittenIsRead(t[2..]);
        assert t == [t[0]] + [t[1]] + t[2..];
      } else {
        UnitIsRead(t[0]);
        ReadInFront(UnitWritten(t[0]), Written(t[1..]));
        WrittenIsRead(t[1..]);
      }
    }
  }

  /** So different texts are written differently. */
  lemma WrittenIsInjective(a: Text, b: Text)
    requires Written(a) == Written(b)
    ensures a == b
  {
    WrittenIsRead(a);
    WrittenIsRead(b);
  }

  // ---------------------------------------------------------------------------------------------
  // What the chunks are written as.

  /** Texts that do not split a pair between them are written one after the other. */
  lemma {:induction false} WrittenConcat(a: Text, b: Text)
    requires !Splits(a + b, |a|)
    ensures Written(a + b) == Written(a) + Written(b)
  {
    if a == [] {
      assert a + b == b;
    } else if |a| >= 2 && High(a[0]) && Low(a[1]) {
      assert (a + b)[2..] == a[2..] + b;
      assert !Splits(a[2..] + b, |a| - 2);
      WrittenConcat(a[2..], b);
    } else {
      assert (a + b)[1..] == a[1..] + b;
      assert |a| > 1 ==> !Splits(a[1..] + b, |a| - 1);
      WrittenConcat(a[1..], b);
    }
  }

  function WrittenAll(chunks: seq<Text>): seq<Byte> {
    if chunks == [] then [] else Written(chunks[0]) + WrittenAll(chunks[1..])
  }

  lemma PieceIsWrittenFirst(t: Text, o: nat, e: nat)
    requires o <= e <= |t| && Boundary(t, e)
    ensures Written(t[o..]) == Written(t[o..e]) + Written(t[e..])
  {
    var a, b := t[o..e], t[e..];
    assert t[o..] == a + b;
    WrittenConcat(a, b);
  }

  /** The chunks are consecutive pieces of the text from `o` on. */
  ghost predicate Pieces(t: Text, o: nat, chunks: seq<Text>)
    decreases |chunks|
  {
    if chunks == [] then o == |t|
    else
      var e := o + |chunks[0]|;
      e <= |t| && Boundary(t, e) && chunks[0] == t[o..e] && Pieces(t, e, chunks[1..])
  }

  lemma {:induction false} TilesArePieces(t: Text, o: nat, chunks: seq<Text>, first: int, remaining: int)
    requires Tiles(t, o, chunks, first, remaining)
    ensures Pieces(t, o, chunks)
    decreases |chunks|
  {
    if chunks != [] {
      TilesArePieces(t, o + |chunks[0]|, chunks[1..], remaining, remaining);
    }
  }

  lemma PutInFront(chunks: seq<Text>, first: Text, rest: seq<Byte>, all: seq<Byte>)
    requires chunks != [] && chunks[0] == first && WrittenAll(chunks[1..]) == rest && all == Written(first) + rest
    ensures WrittenAll(chunks) == all
  {
  }

  lemma {:induction false} PiecesWriteTheText(t: Text, o: nat, chunks: seq<Text>)
    requires o <= |t| && Pieces(t, o, chunks)
    ensures WrittenAll(chunks) == Written(t[o..])
    decreases |chunks|
  {
    if chunks == [] {
      assert t[o..] == [];
    } else {
      var e := o + |chunks[0]|;
      PiecesWriteTheText(t, e, chunks[1..]);
      PieceIsWrittenFirst(t, o, e);
      PutInFront(chunks, t[o..e], Written(t[e..]), Written(t[o..]));
    }
  }

  /** Chunks written one after the other are the bytes of the whole text: cutting neither tears an escape or
      a pair apart nor costs anything. */
  lemma ChunksWriteTheText(t: Text, first: int, remaining: int)
    requires Chunks(t, first, remaining).Some?
    ensures WrittenAll(Chunks(t, first, remaining).value) == Written(t)
  {
    ChunksAreExact(t, first, remaining);
    var chunks := Chunks(t, first, remaining).value;
    TilesArePieces(t, 0, chunks, first, remaining);
    PiecesWriteTheText(t, 0, chunks);
    assert t[0..] == t;
  }
}
