/** Thought text: its incremental size, and its split into bounded update events. */
module ThoughtContent {
  import opened Wrappers
  import opened JsonText

  const MAX_THOUGHT_CONTENT_BYTES := 16 * 1024 * 1024
  const MAX_THOUGHT_UPDATE_BYTES := 512 * 1024
  const ENVELOPE_RESERVE := 1024

  /** The growth of a thought, computed from its last code unit alone. */
  function ThoughtContentDeltaBytes(previous: Text, delta: Text): int {
    var last := if previous == [] then [] else previous[|previous| - 1..];
    Bytes(last + delta) - Bytes(last)
  }

  /** The incremental count is the true growth, also when the halves of a surrogate pair arrive
      in different deltas. */
  lemma DeltaIsGrowth(previous: Text, delta: Text)
    ensures ThoughtContentDeltaBytes(previous, delta) == Bytes(previous + delta) - Bytes(previous)
  {
    if previous == [] {
      assert previous + delta == delta;
    } else {
      var n := |previous| - 1;
      var last := previous[n..];
      BytesConcat(previous, delta);
      BytesConcat(last, delta);
      assert Splits(previous + delta, n + 1) == Splits(last + delta, 1);
    }
  }

  function Total(deltas: seq<Text>): Text {
    if deltas == [] then [] else Total(deltas[..|deltas| - 1]) + deltas[|deltas| - 1]
  }

  function RunningBytes(deltas: seq<Text>): int {
    if deltas == [] then 0
    else RunningBytes(deltas[..|deltas| - 1]) + ThoughtContentDeltaBytes(Total(deltas[..|deltas| - 1]), deltas[|deltas| - 1])
  }

  /** So a counter fed delta by delta is always the exact size of the whole text. */
  lemma {:induction false} RunningBytesAreExact(deltas: seq<Text>)
    ensures RunningBytes(deltas) == Bytes(Total(deltas))
  {
    if deltas != [] {
      RunningBytesAreExact(deltas[..|deltas| - 1]);
      DeltaIsGrowth(Total(deltas[..|deltas| - 1]), deltas[|deltas| - 1]);
    }
  }

  // ---------------------------------------------------------------------------------------------
  // Events.

  function Decimal(n: nat): (r: Text)
    ensures |r| >= 1
  {
    if n < 10 then [0x30 + n] else Decimal(n / 10) + [0x30 + n % 10]
  }

  lemma {:induction false} DecimalIsPlain(n: nat)
    ensures Bytes(Decimal(n)) == |Decimal(n)|
    ensures forall u :: u in Decimal(n) ==> !High(u) && !Low(u)
  {
    if n < 10 {
      assert Decimal(n)[1..] == [];
    } else {
      DecimalIsPlain(n / 10);
      var last: Text := [0x30 + n % 10];
      assert last[1..] == [];
      BytesConcat(Decimal(n / 10), last);
    }
  }

  lemma {:induction false} DecimalGrows(m: nat, n: nat)
    requires m <= n
    ensures |Decimal(m)| <= |Decimal(n)|
  {
    if n >= 10 && m >= 10 {
      DecimalGrows(m / 10, n / 10);
    }
  }

  datatype ThoughtEvent = ThoughtEvent(thoughtId: Text, content: Text, offset: nat, sourceEventId: Option<Text>)

  /** Bytes of the event as JSON: 98 for the keys and punctuation of kind, delivery and payload,
      19 for the key of a source event ID, and the values. */
  function EventBytes(e: ThoughtEvent): nat {
    98 + Bytes(e.thoughtId) + Bytes(e.content) + |Decimal(e.offset)|
    + if e.sourceEventId.Some? then 19 + Bytes(e.sourceEventId.value) else 0
  }

  function MakeEvent(thoughtId: Text, prefix: Option<Text>, content: Text, offset: nat, index: nat): ThoughtEvent {
    ThoughtEvent(thoughtId, content, offset, SourceEventId(prefix, index))
  }

  function SourceEventId(prefix: Option<Text>, index: nat): Option<Text> {
    if prefix.None? then None else Some(prefix.value + [0x3A] + Decimal(index))
  }

  lemma SourceIdBytes(prefix: Text, index: nat)
    ensures Bytes(prefix + [0x3A] + Decimal(index)) == Bytes(prefix) + 1 + |Decimal(index)|
  {
    var colon: Text := [0x3A];
    assert colon[1..] == [];
    BytesConcat(prefix, colon);
    BytesConcat(prefix + colon, Decimal(index));
    DecimalIsPlain(index);
    assert Decimal(index)[0] in Decimal(index);
    assert !Splits(prefix + colon + Decimal(index), |prefix| + 1);
  }

  /** The budget left for content next to the largest offset and index the text can need. */
  function ContentBudget(thoughtId: Text, prefix: Option<Text>, length: nat): int {
    MAX_THOUGHT_UPDATE_BYTES - ENVELOPE_RESERVE - EventBytes(MakeEvent(thoughtId, prefix, [], length, length))
  }

  lemma EventFits(thoughtId: Text, prefix: Option<Text>, content: Text, offset: nat, index: nat, length: nat)
    requires offset <= length && index <= length
    requires Bytes(content) <= ContentBudget(thoughtId, prefix, length)
    ensures EventBytes(MakeEvent(thoughtId, prefix, content, offset, index)) <= MAX_THOUGHT_UPDATE_BYTES - ENVELOPE_RESERVE
  {
    DecimalGrows(offset, length);
    DecimalGrows(index, length);
    if prefix.Some? {
      SourceIdBytes(prefix.value, index);
      SourceIdBytes(prefix.value, length);
    }
    assert Bytes([]) == 0;
  }

  /** Every single character fits six bytes, so chunking cannot throw. */
  lemma SixBytesSuffice(t: Text, p: nat, budget: int)
    requires p < |t| && budget >= 6
    ensures !Oversized(t, p, budget)
  {
    var c := t[p..CharEnd(t, p)];
    assert c[0] == t[p];
    if |c| == 2 {
      assert c[1] == t[p + 1];
      assert c[2..] == [] && Bytes(c) == 4 + Bytes(c[2..]);
    } else {
      assert |c| == 1 && c[1..] == [];
      assert Bytes(c) == UnitBytes(c[0]) + Bytes(c[1..]);
    }
  }

  lemma {:induction false} ChunkCount(t: Text, o: nat, cs: seq<Text>, first: int, remaining: int)
    requires Tiles(t, o, cs, first, remaining) && [] !in cs
    ensures o + |cs| <= |t|
    decreases |cs|
  {
    if cs != [] {
      ChunkCount(t, o + |cs[0]|, cs[1..], remaining, remaining);
    }
  }

  /** What a reader of the events can rely on: event i says where its content belongs. */
  ghost predicate Rebuilds(text: Text, events: seq<ThoughtEvent>) {
    && (forall i :: 0 <= i < |events| ==>
          && events[i].offset + |events[i].content| <= |text|
          && events[i].content == text[events[i].offset..events[i].offset + |events[i].content|])
    && (forall i :: 0 <= i < |events| - 1 ==> events[i + 1].offset == events[i].offset + |events[i].content|)
    && |events| > 0 && events[0].offset == 0
    && events[|events| - 1].offset + |events[|events| - 1].content| == |text|
  }

  datatype ThoughtError = ContentTooLarge | IdentityTooLarge

  lemma ChunksForThought(text: Text, budget: int) returns (chunks: seq<Text>)
    requires budget >= 6
    ensures Chunks(text, budget, budget) == Some(chunks)
    ensures Tiles(text, 0, chunks, budget, budget) && chunks != []
    ensures text == [] ==> chunks == [[]]
    ensures text != [] ==> [] !in chunks && |chunks| <= |text|
  {
    ChunksFailExactly(text, budget, budget);
    forall p | Cut(text, 0, budget) <= p < |text| ensures !Oversized(text, p, budget) {
      SixBytesSuffice(text, p, budget);
    }
    ChunksAreExact(text, budget, budget);
    chunks := Chunks(text, budget, budget).value;
    if text != [] {
      if Bytes(text) > budget {
        ExtendFacts(text, 0, 0, budget);
        SixBytesSuffice(text, 0, budget);
        assert text[0..CharEnd(text, 0)] == text[..CharEnd(text, 0)];
        assert Cut(text, 0, budget) > 0;
      }
      assert chunks[0] != [];
      assert chunks == [chunks[0]] + chunks[1..];
      ChunkCount(text, 0, chunks, budget, budget);
    }
  }

  ghost predicate Numbered(thoughtId: Text, prefix: Option<Text>, events: seq<ThoughtEvent>) {
    forall i :: 0 <= i < |events| ==>
      events[i].thoughtId == thoughtId && events[i].sourceEventId == SourceEventId(prefix, i)
  }

  /** No event overflows the bound of the transport. */
  ghost predicate Bounded(events: seq<ThoughtEvent>) {
    forall i :: 0 <= i < |events| ==> EventBytes(events[i]) <= MAX_THOUGHT_UPDATE_BYTES - ENVELOPE_RESERVE
  }

  function Length(chunks: seq<Text>): nat {
    if chunks == [] then 0 else Length(chunks[..|chunks| - 1]) + |chunks[|chunks| - 1]|
  }

  /** The event of the k-th chunk. */
  function EventAt(thoughtId: Text, prefix: Option<Text>, chunks: seq<Text>, k: nat): ThoughtEvent
    requires k < |chunks|
  {
    MakeEvent(thoughtId, prefix, chunks[k], Length(chunks[..k]), k)
  }

  /** Maps the chunks to events while advancing the offset. */
  method LayOut(thoughtId: Text, prefix: Option<Text>, chunks: seq<Text>) returns (events: seq<ThoughtEvent>)
    ensures |events| == |chunks| && forall k :: 0 <= k < |events| ==> events[k] == EventAt(thoughtId, prefix, chunks, k)
  {
    events := [];
    var offset: nat := 0;
    for index := 0 to |chunks|
      invariant |events| == index && offset == Length(chunks[..index])
      invariant forall k :: 0 <= k < index ==> events[k] == EventAt(thoughtId, prefix, chunks, k)
    {
      assert chunks[..index + 1][..index] == chunks[..index];
      events := events + [MakeEvent(thoughtId, prefix, chunks[index], offset, index)];
      offset := offset + |chunks[index]|;
    }
  }

  lemma {:induction false} LengthInFront(chunk: Text, chunks: seq<Text>)
    ensures Length([chunk] + chunks) == |chunk| + Length(chunks)
  {
    var all := [chunk] + chunks;
    if chunks != [] {
      LengthInFront(chunk, chunks[..|chunks| - 1]);
      assert all[..|all| - 1] == [chunk] + chunks[..|chunks| - 1];
    } else {
      assert all[..|all| - 1] == [];
    }
  }

  ghost predicate Lies(t: Text, from: nat, chunk: Text, budget: int) {
    from + |chunk| <= |t| && chunk == t[from..from + |chunk|] && Bytes(chunk) <= budget
  }

  lemma FirstTile(t: Text, o: nat, chunks: seq<Text>, budget: int)
    requires Tiles(t, o, chunks, budget, budget) && chunks != [] && budget >= 0
    ensures Lies(t, o, chunks[0], budget) && Tiles(t, o + |chunks[0]|, chunks[1..], budget, budget)
  {}

  lemma OffsetInTail(chunks: seq<Text>, k: nat)
    requires 0 < k < |chunks|
    ensures Length(chunks[..k]) == |chunks[0]| + Length(chunks[1..][..k - 1]) && chunks[1..][k - 1] == chunks[k]
  {
    assert chunks[..k] == [chunks[0]] + chunks[1..][..k - 1];
    LengthInFront(chunks[0], chunks[1..][..k - 1]);
  }

  /** Where each tile lies in the text. */
  lemma {:induction false} TileAt(t: Text, o: nat, chunks: seq<Text>, budget: int, k: nat)
    requires Tiles(t, o, chunks, budget, budget) && k < |chunks| && budget >= 0
    ensures Lies(t, o + Length(chunks[..k]), chunks[k], budget)
    decreases k
  {
    FirstTile(t, o, chunks, budget);
    if k > 0 {
      TileAt(t, o + |chunks[0]|, chunks[1..], budget, k - 1);
      OffsetInTail(chunks, k);
    }
  }

  lemma {:induction false} TilesCover(t: Text, o: nat, chunks: seq<Text>, budget: int)
    requires Tiles(t, o, chunks, budget, budget)
    ensures o + Length(chunks) == |t|
    decreases |chunks|
  {
    if chunks != [] {
      TilesCover(t, o + |chunks[0]|, chunks[1..], budget);
      assert chunks == [chunks[0]] + chunks[1..];
      LengthInFront(chunks[0], chunks[1..]);
    }
  }

  lemma OffsetAfter(chunks: seq<Text>, k: nat)
    requires k < |chunks|
    ensures Length(chunks[..k + 1]) == Length(chunks[..k]) + |chunks[k]|
  {
    assert chunks[..k + 1][..k] == chunks[..k];
  }

  /** Laid out tiles rebuild the text. */
  lemma LaidOutRebuilds(thoughtId: Text, prefix: Option<Text>, text: Text, chunks: seq<Text>, events: seq<ThoughtEvent>,
                        budget: int)
    requires Tiles(text, 0, chunks, budget, budget) && chunks != [] && budget >= 0
    requires |events| == |chunks| && forall k :: 0 <= k < |events| ==> events[k] == EventAt(thoughtId, prefix, chunks, k)
    ensures Rebuilds(text, events)
  {
    forall i | 0 <= i < |events|
      ensures events[i].offset + |events[i].content| <= |text|
              && events[i].content == text[events[i].offset..events[i].offset + |events[i].content|]
    {
      TileAt(text, 0, chunks, budget, i);
    }
    forall i | 0 <= i < |events| - 1 ensures events[i + 1].offset == events[i].offset + |events[i].content| {
      OffsetAfter(chunks, i);
    }
    assert chunks[..0] == [] && chunks[..|chunks|] == chunks;
    OffsetAfter(chunks, |chunks| - 1);
    TilesCover(text, 0, chunks, budget);
  }

  lemma LaidOutIsBounded(thoughtId: Text, prefix: Option<Text>, text: Text, chunks: seq<Text>, events: seq<ThoughtEvent>,
                         budget: int)
    requires Tiles(text, 0, chunks, budget, budget) && budget == ContentBudget(thoughtId, prefix, |text|) && budget >= 0
    requires |chunks| <= |text| || |chunks| == 1
    requires |events| == |chunks| && forall k :: 0 <= k < |events| ==> events[k] == EventAt(thoughtId, prefix, chunks, k)
    ensures Bounded(events)
  {
    forall i | 0 <= i < |events| ensures EventBytes(events[i]) <= MAX_THOUGHT_UPDATE_BYTES - ENVELOPE_RESERVE {
      TileAt(text, 0, chunks, budget, i);
      EventFits(thoughtId, prefix, chunks[i], Length(chunks[..i]), i, |text|);
    }
  }

  /** Fails exactly when the text or its identity is too large; otherwise each event stays below
      the transport's bound and the events rebuild the text from their offsets. */
  method CreateThoughtContentEvents(thoughtId: Text, text: Text, prefix: Option<Text>)
    returns (r: Result<seq<ThoughtEvent>, ThoughtError>)
    ensures r == Failure(ContentTooLarge) <==> Bytes(text) > MAX_THOUGHT_CONTENT_BYTES
    ensures r == Failure(IdentityTooLarge)
       <==> Bytes(text) <= MAX_THOUGHT_CONTENT_BYTES && ContentBudget(thoughtId, prefix, |text|) < 6
    ensures r.Success? ==> Rebuilds(text, r.value) && Numbered(thoughtId, prefix, r.value) && Bounded(r.value)
  {
    if Bytes(text) > MAX_THOUGHT_CONTENT_BYTES {
      return Failure(ContentTooLarge);
    }
    var bytes := ContentBudget(thoughtId, prefix, |text|);
    if bytes < 6 {
      return Failure(IdentityTooLarge);
    }
    ghost var all := ChunksForThought(text, bytes);
    var chunks := ChunkJsonText(text, bytes, bytes);
    var events := LayOut(thoughtId, prefix, chunks.value);
    LaidOutRebuilds(thoughtId, prefix, text, chunks.value, events, bytes);
    LaidOutIsBounded(thoughtId, prefix, text, chunks.value, events, bytes);
    r := Success(events);
  }
}
