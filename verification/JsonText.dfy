/** Splitting text so that each piece, written as the content of a JSON string, fits a byte budget.

    Text is a sequence of UTF-16 code units.  The cost of a piece is what QuoteJSONString (section
    25.5.2.3 of ECMA-262, 2023) writes for it, encoded in UTF-8 (section 3 of RFC 3629): a
    surrogate pair costs four bytes and a lone surrogate a six-byte escape. */
module JsonText {
  import opened Wrappers

  type Unit = x: int | 0 <= x < 0x1_0000

  type Text = seq<Unit>

  predicate High(u: Unit) {
    0xD800 <= u <= 0xDBFF
  }

  predicate Low(u: Unit) {
    0xDC00 <= u <= 0xDFFF
  }

  function UnitBytes(u: Unit): nat {
    if u in {0x08, 0x09, 0x0A, 0x0C, 0x0D, 0x22, 0x5C} then 2
    else if u < 0x20 then 6
    else if u < 0x80 then 1
    else if u < 0x800 then 2
    else if High(u) || Low(u) then 6
    else 3
  }

  function Bytes(t: Text): nat {
    if t == [] then 0
    else if |t| >= 2 && High(t[0]) && Low(t[1]) then 4 + Bytes(t[2..])
    else UnitBytes(t[0]) + Bytes(t[1..])
  }

  /** A cut at i separates the halves of a surrogate pair. */
  predicate Splits(t: Text, i: nat) {
    0 < i < |t| && High(t[i - 1]) && Low(t[i])
  }

  predicate Boundary(t: Text, i: nat) {
    i <= |t| && !Splits(t, i)
  }

  /** Cost is additive, except that joining the halves of a pair saves eight bytes. */
  lemma {:induction false} BytesConcat(a: Text, b: Text)
    ensures Bytes(a + b) + (if Splits(a + b, |a|) then 8 else 0) == Bytes(a) + Bytes(b)
  {
    if a == [] {
      assert a + b == b;
    } else if |a| >= 2 && High(a[0]) && Low(a[1]) {
      assert (a + b)[2..] == a[2..] + b;
      BytesConcat(a[2..], b);
      assert Splits(a + b, |a|) == Splits(a[2..] + b, |a| - 2);
    } else if |a| == 1 && Splits(a + b, 1) {
      assert (a + b)[2..] == b[1..];
      assert a[1..] == [];
    } else {
      assert (a + b)[1..] == a[1..] + b;
      BytesConcat(a[1..], b);
      assert |a| > 1 ==> Splits(a + b, |a|) == Splits(a[1..] + b, |a| - 1);
    }
  }

  lemma {:induction false} BytesAtLeastLength(t: Text)
    ensures Bytes(t) >= |t|
  {
    if t != [] {
      if |t| >= 2 && High(t[0]) && Low(t[1]) {
        BytesAtLeastLength(t[2..]);
      } else {
        BytesAtLeastLength(t[1..]);
      }
    }
  }

  /** Among pieces that start at `o` and end at a boundary, the longer one costs more. */
  lemma LongerCostsMore(t: Text, o: nat, c: nat, d: nat)
    requires o <= c < d <= |t| && Boundary(t, c)
    ensures Bytes(t[o..c]) < Bytes(t[o..d])
  {
    assert t[o..d] == t[o..c] + t[c..d];
    BytesConcat(t[o..c], t[c..d]);
    BytesAtLeastLength(t[c..d]);
    assert !Splits(t[o..d], c - o);
  }

  // ---------------------------------------------------------------------------------------------
  // The simple form: extend a chunk character by character.

  /** The end of the character that starts at the boundary i. */
  function CharEnd(t: Text, i: nat): (r: nat)
    requires i < |t|
    ensures i < r <= |t|
  {
    if i + 1 < |t| && High(t[i]) && Low(t[i + 1]) then i + 2 else i + 1
  }

  lemma CharEndIsNext(t: Text, i: nat)
    requires i < |t| && Boundary(t, i)
    ensures Boundary(t, CharEnd(t, i))
    ensures forall c: nat :: i < c < CharEnd(t, i) ==> !Boundary(t, c)
  {}

  function Extend(t: Text, o: nat, e: nat, budget: int): (r: nat)
    requires o <= e <= |t|
    ensures e <= r <= |t|
    decreases |t| - e
  {
    if e < |t| && Bytes(t[o..CharEnd(t, e)]) <= budget then Extend(t, o, CharEnd(t, e), budget) else e
  }

  /** The end of the longest chunk that starts at `o` and fits the budget. */
  function Cut(t: Text, o: nat, budget: int): (r: nat)
    requires o <= |t|
    ensures o <= r <= |t|
  {
    Extend(t, o, o, budget)
  }

  lemma {:induction false} ExtendFacts(t: Text, o: nat, e: nat, budget: int)
    requires o <= e <= |t| && Boundary(t, e)
    ensures var r := Extend(t, o, e, budget);
            && Boundary(t, r)
            && (r > e ==> Bytes(t[o..r]) <= budget)
            && (r < |t| ==> Bytes(t[o..CharEnd(t, r)]) > budget)
    decreases |t| - e
  {
    if e < |t| && Bytes(t[o..CharEnd(t, e)]) <= budget {
      CharEndIsNext(t, e);
      ExtendFacts(t, o, CharEnd(t, e), budget);
    }
  }

  /** A piece that ends at a boundary fits exactly when it ends no later than the cut. */
  lemma CutIsLongest(t: Text, o: nat, c: nat, budget: int)
    requires o < c <= |t| && Boundary(t, o) && Boundary(t, c)
    ensures Boundary(t, Cut(t, o, budget))
    ensures Bytes(t[o..c]) <= budget <==> c <= Cut(t, o, budget)
  {
    var r := Cut(t, o, budget);
    ExtendFacts(t, o, o, budget);
    if c < r {
      LongerCostsMore(t, o, c, r);
    } else if r < c {
      CharEndIsNext(t, r);
      if CharEnd(t, r) < c {
        LongerCostsMore(t, o, CharEnd(t, r), c);
      }
    }
  }

  function ChunksFrom(t: Text, o: nat, budget: int): Option<seq<Text>>
    requires o <= |t|
    decreases |t| - o
  {
    if o == |t| then Some([])
    else
      var e := Cut(t, o, budget);
      if e == o then None
      else
        var rest := ChunksFrom(t, e, budget);
        if rest.None? then None else Some([t[o..e]] + rest.value)
  }

  function Chunks(t: Text, first: int, remaining: int): Option<seq<Text>> {
    if t == [] || Bytes(t) <= first then Some([t])
    else
      var e := Cut(t, 0, first);
      var rest := ChunksFrom(t, e, remaining);
      if rest.None? then None else Some([t[..e]] + rest.value)
  }

  // ---------------------------------------------------------------------------------------------
  // The program: a binary search over code units for the end of each chunk.

  method FindEnd(t: Text, offset: nat, chunkBytes: int) returns (end: nat)
    requires offset < |t| && Boundary(t, offset)
    ensures end == Cut(t, offset, chunkBytes)
  {
    ghost var cut := Cut(t, offset, chunkBytes);
    ExtendFacts(t, offset, offset, chunkBytes);
    BytesAtLeastLength(t[offset..cut]);
    end := offset;
    var low := offset + 1;
    var high := if offset + chunkBytes < |t| then offset + chunkBytes else |t|;
    while low <= high
      invariant offset <= end < low && high <= |t|
      invariant Boundary(t, end) && end <= cut
      invariant cut <= high || cut == offset
      invariant forall c: nat :: c < low && Boundary(t, c) ==> c <= end
      decreases high - low + 1
    {
      var probe := (low + high) / 2;
      var candidate := if Splits(t, probe) then probe - 1 else probe;
      if candidate > offset {
        CutIsLongest(t, offset, candidate, chunkBytes);
      }
      if Bytes(t[offset..candidate]) <= chunkBytes {
        end := candidate;
        low := probe + 1;
      } else {
        high := probe - 1;
      }
    }
  }

  method ChunkJsonText(text: Text, firstChunkBytes: int, remainingChunkBytes: int)
    returns (r: Option<seq<Text>>)
    ensures r == Chunks(text, firstChunkBytes, remainingChunkBytes)
  {
    if |text| == 0 || Bytes(text) <= firstChunkBytes {
      return Some([text]);
    }
    var chunks: seq<Text> := [];
    var offset := 0;
    var chunkBytes := firstChunkBytes;
    while offset < |text|
      invariant offset <= |text| && Boundary(text, offset)
      invariant chunks == [] ==> offset == 0 && chunkBytes == firstChunkBytes
      invariant chunks != [] ==>
                  && chunkBytes == remainingChunkBytes
                  && var rest := ChunksFrom(text, offset, remainingChunkBytes);
                     Chunks(text, firstChunkBytes, remainingChunkBytes)
                     == if rest.None? then None else Some(chunks + rest.value)
      decreases |text| - offset, chunks == []
    {
      var end := FindEnd(text, offset, chunkBytes);
      ExtendFacts(text, offset, offset, chunkBytes);
      if end == offset {
        if |chunks| > 0 {
          return None;
        }
        chunks := [text[..0]];
        assert text[..0] == [];
      } else {
        ghost var later := ChunksFrom(text, end, remainingChunkBytes);
        assert chunks == [] ==> chunks + [text[offset..end]] == [text[..end]];
        assert later.Some? ==>
            chunks + ([text[offset..end]] + later.value) == (chunks + [text[offset..end]]) + later.value;
        chunks := chunks + [text[offset..end]];
        offset := end;
      }
      chunkBytes := remainingChunkBytes;
    }
    assert chunks + [] == chunks;
    r := Some(chunks);
  }

  // ---------------------------------------------------------------------------------------------
  // What the chunks are good for.

  function Joined(chunks: seq<Text>): Text {
    if chunks == [] then [] else chunks[0] + Joined(chunks[1..])
  }

  /** The chunks tile the text from `o` on: no pair is split, every chunk fits and, unless it is
      the last, could not take one more character. */
  ghost predicate Tiles(t: Text, o: nat, chunks: seq<Text>, first: int, remaining: int)
    decreases |chunks|
  {
    if chunks == [] then o == |t|
    else
      var e := o + |chunks[0]|;
      && e <= |t| && chunks[0] == t[o..e] && Boundary(t, e)
      && (chunks[0] == [] || Bytes(chunks[0]) <= first)
      && (|chunks| > 1 ==> e < |t| && Bytes(t[o..CharEnd(t, e)]) > first)
      && Tiles(t, e, chunks[1..], remaining, remaining)
  }

  /** One more chunk in front. */
  lemma TileInFront(t: Text, o: nat, e: nat, rest: seq<Text>, first: int, remaining: int)
    requires o <= e <= |t| && Boundary(t, e) && Tiles(t, e, rest, remaining, remaining)
    requires e == o || Bytes(t[o..e]) <= first
    requires rest != [] ==> e < |t| && Bytes(t[o..CharEnd(t, e)]) > first
    ensures Tiles(t, o, [t[o..e]] + rest, first, remaining)
  {
    assert ([t[o..e]] + rest)[1..] == rest;
  }

  lemma JoinedInFront(t: Text, o: nat, e: nat, rest: seq<Text>)
    requires o <= e <= |t| && Joined(rest) == t[e..]
    ensures Joined([t[o..e]] + rest) == t[o..]
  {
    assert ([t[o..e]] + rest)[1..] == rest;
    assert t[o..] == t[o..e] + t[e..];
  }

  lemma {:induction false} ChunksFromTile(t: Text, o: nat, budget: int)
    requires o <= |t| && Boundary(t, o) && ChunksFrom(t, o, budget).Some?
    ensures var cs := ChunksFrom(t, o, budget).value;
            && Tiles(t, o, cs, budget, budget) && Joined(cs) == t[o..]
            && [] !in cs && (cs == [] <==> o == |t|)
    decreases |t| - o
  {
    if o < |t| {
      var e := Cut(t, o, budget);
      var rest := ChunksFrom(t, e, budget).value;
      ExtendFacts(t, o, o, budget);
      ChunksFromTile(t, e, budget);
      TileInFront(t, o, e, rest, budget, budget);
      JoinedInFront(t, o, e, rest);
    }
  }

  /** The chunks concatenate to the text, respect their budgets and surrogate pairs, and are each
      maximal; only the first can be empty. */
  lemma ChunksAreExact(t: Text, first: int, remaining: int)
    requires Chunks(t, first, remaining).Some?
    ensures var cs := Chunks(t, first, remaining).value;
            && Joined(cs) == t && Tiles(t, 0, cs, first, remaining)
            && |cs| > 0 && [] !in cs[1..]
  {
    var cs := Chunks(t, first, remaining).value;
    if t == [] || Bytes(t) <= first {
      assert t[0..|t|] == t;
      assert cs[1..] == [];
      assert Joined(cs) == cs[0] + Joined(cs[1..]);
    } else {
      var e := Cut(t, 0, first);
      var rest := ChunksFrom(t, e, remaining).value;
      ExtendFacts(t, 0, 0, first);
      ChunksFromTile(t, e, remaining);
      assert t[0..e] == t[..e] && t[0..] == t && t[0..|t|] == t;
      TileInFront(t, 0, e, rest, first, remaining);
      JoinedInFront(t, 0, e, rest);
      assert cs == [t[0..e]] + rest;
    }
  }

  /** A character that does not fit even alone. */
  ghost predicate Oversized(t: Text, p: nat, budget: int) {
    p < |t| && Boundary(t, p) && Bytes(t[p..CharEnd(t, p)]) > budget
  }

  lemma {:induction false} ChunksFromFail(t: Text, o: nat, budget: int)
    requires o <= |t| && Boundary(t, o)
    ensures ChunksFrom(t, o, budget).None? <==> exists p :: o <= p && Oversized(t, p, budget)
    decreases |t| - o
  {
    if o < |t| {
      var e := Cut(t, o, budget);
      ExtendFacts(t, o, o, budget);
      if e == o {
        assert Oversized(t, o, budget);
      } else {
        ChunksFromFail(t, e, budget);
        forall p | o <= p < e && Boundary(t, p) ensures !Oversized(t, p, budget) {
          CharacterInsideFits(t, o, p, e, budget);
        }
      }
    }
  }

  lemma CharacterInsideFits(t: Text, o: nat, p: nat, e: nat, budget: int)
    requires o <= p < e <= |t| && Boundary(t, o) && Boundary(t, p) && Boundary(t, e)
    requires Bytes(t[o..e]) <= budget
    ensures Bytes(t[p..CharEnd(t, p)]) <= budget
  {
    var q := CharEnd(t, p);
    CharEndIsNext(t, p);
    assert t[o..e] == t[o..p] + t[p..e] && t[p..e] == t[p..q] + t[q..e];
    assert !Splits(t[o..e], p - o) && !Splits(t[p..e], q - p);
    BytesConcat(t[o..p], t[p..e]);
    BytesConcat(t[p..q], t[q..e]);
  }

  /** Chunking throws exactly when the text does not fit as it is and some character after the
      first chunk does not fit the remaining budget on its own. */
  lemma ChunksFailExactly(t: Text, first: int, remaining: int)
    ensures Chunks(t, first, remaining).None?
       <==> t != [] && Bytes(t) > first && exists p :: Cut(t, 0, first) <= p && Oversized(t, p, remaining)
  {
    if t != [] && Bytes(t) > first {
      ExtendFacts(t, 0, 0, first);
      ChunksFromFail(t, Cut(t, 0, first), remaining);
    }
  }
}
