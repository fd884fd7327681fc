/** Driver IDs: a 48-bit time and a monotonic random part in Crockford base 32, as in the ULID
    specification (section "Monotonicity"). */
module DriverId {
  import opened Wrappers

  const ALPHABET := "0123456789ABCDEFGHJKMNPQRSTVWXYZ"
  const TIME_LENGTH := 10
  const RANDOM_LENGTH := 16
  const ID_LENGTH := 26
  const MAX_TIME_MS := 0xFFFF_FFFF_FFFF

  newtype byte = x: int | 0 <= x < 256

  /** The d-th character of the alphabet, which leaves out I, L, O and U. */
  function Digit(d: nat): char
    requires d < 32
  {
    if d < 10 then ('0' as int + d) as char
    else if d < 18 then ('A' as int + d - 10) as char
    else if d < 20 then ('J' as int + d - 18) as char
    else if d < 22 then ('M' as int + d - 20) as char
    else if d < 27 then ('P' as int + d - 22) as char
    else ('V' as int + d - 27) as char
  }

  /** The position of a character in the alphabet, -1 when it is not there. */
  function IndexOf(c: char): (r: int)
    ensures -1 <= r < 32
  {
    if '0' <= c <= '9' then c as int - '0' as int
    else if 'A' <= c <= 'H' then c as int - 'A' as int + 10
    else if 'J' <= c <= 'K' then c as int - 'J' as int + 18
    else if 'M' <= c <= 'N' then c as int - 'M' as int + 20
    else if 'P' <= c <= 'T' then c as int - 'P' as int + 22
    else if 'V' <= c <= 'Z' then c as int - 'V' as int + 27
    else -1
  }

  lemma AlphabetIsTabulated(d: nat)
    requires d < 32
    ensures |ALPHABET| == 32 && ALPHABET[d] == Digit(d)
  {}

  lemma DigitIndex(d: nat)
    requires d < 32
    ensures IndexOf(Digit(d)) == d
  {}

  /** The alphabet is the decimal digits and the capital letters but for I, L, O and U. */
  lemma AlphabetIsExact(c: char)
    ensures IndexOf(c) >= 0 <==> '0' <= c <= '9' || ('A' <= c <= 'Z' && c != 'I' && c != 'L' && c != 'O' && c != 'U')
    ensures IndexOf(c) >= 0 ==> ALPHABET[IndexOf(c)] == c
  {
    if IndexOf(c) >= 0 {
      AlphabetIsTabulated(IndexOf(c));
    }
  }

  /** The digits ascend in character order, so comparing IDs as strings compares numbers. */
  lemma DigitOrder(c: char, d: char)
    requires 0 <= IndexOf(c) && 0 <= IndexOf(d)
    ensures c < d <==> IndexOf(c) < IndexOf(d)
    ensures c == d <==> IndexOf(c) == IndexOf(d)
    ensures Digit(IndexOf(c)) == c
  {}

  predicate IsDigits(s: string) {
    forall i :: 0 <= i < |s| ==> 0 <= IndexOf(s[i])
  }

  function Pow32(n: nat): (r: nat)
    ensures r > 0
  {
    if n == 0 then 1 else 32 * Pow32(n - 1)
  }

  function Digits(v: nat, n: nat): (r: string)
    ensures |r| == n
  {
    if n == 0 then "" else Digits(v / 32, n - 1) + [Digit(v % 32)]
  }

  function ValueOf(s: string): nat
    requires IsDigits(s)
  {
    if s == "" then 0 else 32 * ValueOf(s[..|s| - 1]) + IndexOf(s[|s| - 1])
  }

  lemma {:induction false} DigitsAreDigits(v: nat, n: nat)
    ensures IsDigits(Digits(v, n))
  {
    if n > 0 {
      DigitsAreDigits(v / 32, n - 1);
      DigitIndex(v % 32);
    }
  }

  lemma {:induction false} DecodeEncode(v: nat, n: nat)
    requires v < Pow32(n)
    ensures IsDigits(Digits(v, n)) && ValueOf(Digits(v, n)) == v
  {
    DigitsAreDigits(v, n);
    if n > 0 {
      DecodeEncode(v / 32, n - 1);
      DigitIndex(v % 32);
      assert Digits(v, n)[..n - 1] == Digits(v / 32, n - 1);
    }
  }

  /** Appending a digit: how it is taken off again, and that the bound grows with it. */
  lemma AppendDigit(a: nat, d: nat, bound: nat)
    requires d < 32 && a < bound
    ensures (32 * a + d) / 32 == a && (32 * a + d) % 32 == d && 32 * a + d < 32 * bound
  {}

  lemma DigitOfIndex(c: char)
    requires 0 <= IndexOf(c)
    ensures Digit(IndexOf(c)) == c
  {}

  lemma {:induction false} EncodeDecode(s: string)
    requires IsDigits(s)
    ensures ValueOf(s) < Pow32(|s|) && Digits(ValueOf(s), |s|) == s
  {
    if s != "" {
      var n := |s| - 1;
      EncodeDecode(s[..n]);
      AppendDigit(ValueOf(s[..n]), IndexOf(s[n]), Pow32(n));
      DigitOfIndex(s[n]);
      assert s == s[..n] + [s[n]];
    }
  }

  /** String comparison of two strings of the same length: the first difference decides. */
  ghost predicate Before(s: string, t: string)
    requires |s| == |t|
  {
    exists i :: 0 <= i < |s| && s[..i] == t[..i] && s[i] < t[i]
  }

  lemma BeforeFromLast(s: string, t: string)
    requires |s| == |t| > 0
    ensures var n := |s| - 1;
            Before(s, t) <==> Before(s[..n], t[..n]) || (s[..n] == t[..n] && s[n] < t[n])
  {
    var n := |s| - 1;
    if Before(s, t) {
      var i :| 0 <= i < |s| && s[..i] == t[..i] && s[i] < t[i];
      if i < n {
        assert s[..n][..i] == t[..n][..i] && s[..n][i] < t[..n][i];
      }
    }
    if Before(s[..n], t[..n]) {
      var i :| 0 <= i < n && s[..n][..i] == t[..n][..i] && s[..n][i] < t[..n][i];
      assert s[..i] == s[..n][..i] && t[..i] == t[..n][..i];
    }
  }

  lemma LastDigitOrder(a: nat, d: nat, b: nat, e: nat)
    requires d < 32 && e < 32
    ensures 32 * a + d < 32 * b + e <==> a < b || (a == b && d < e)
    ensures 32 * a + d == 32 * b + e <==> a == b && d == e
  {}

  lemma SplitLast(s: string, t: string)
    requires |s| == |t| > 0
    ensures s == t <==> s[..|s| - 1] == t[..|t| - 1] && s[|s| - 1] == t[|t| - 1]
  {
    assert s == s[..|s| - 1] + [s[|s| - 1]] && t == t[..|t| - 1] + [t[|t| - 1]];
  }

  /** Strings of digits of one length compare as the numbers they write. */
  lemma {:induction false} OrderIsNumeric(s: string, t: string)
    requires |s| == |t| && IsDigits(s) && IsDigits(t)
    ensures Before(s, t) <==> ValueOf(s) < ValueOf(t)
    ensures s == t <==> ValueOf(s) == ValueOf(t)
  {
    if s != "" {
      var n := |s| - 1;
      OrderIsNumeric(s[..n], t[..n]);
      BeforeFromLast(s, t);
      SplitLast(s, t);
      DigitOrder(s[n], t[n]);
      LastDigitOrder(ValueOf(s[..n]), IndexOf(s[n]), ValueOf(t[..n]), IndexOf(t[n]));
    }
  }

  lemma ScaleAgain(a: nat, x: nat, p: nat, d: nat)
    ensures 32 * (a * p + x) + d == a * (32 * p) + (32 * x + d)
  {}

  lemma {:induction false} ValueOfConcat(s: string, t: string)
    requires IsDigits(s) && IsDigits(t)
    ensures IsDigits(s + t) && ValueOf(s + t) == ValueOf(s) * Pow32(|t|) + ValueOf(t)
  {
    if t == "" {
      assert s + t == s;
    } else {
      var n := |t| - 1;
      ValueOfConcat(s, t[..n]);
      assert (s + t)[..|s + t| - 1] == s + t[..n];
      assert forall i :: 0 <= i < |s + t| - 1 ==> (s + t)[i] == (s + t[..n])[i];
      ScaleAgain(ValueOf(s), ValueOf(t[..n]), Pow32(n), IndexOf(t[n]));
    }
  }

  lemma ShiftBound(v: nat, bound: nat, p: nat)
    requires v < bound * (32 * p)
    ensures v / 32 < bound * p
  {
    assert bound * (32 * p) == 32 * (bound * p);
  }

  /** The first digit is bounded by the magnitude of the number. */
  lemma {:induction false} FirstDigit(v: nat, n: nat, bound: nat)
    requires 0 < n && v < bound * Pow32(n - 1)
    ensures IsDigits(Digits(v, n)) && IndexOf(Digits(v, n)[0]) < bound
  {
    DigitsAreDigits(v, n);
    if n == 1 {
      DigitIndex(v % 32);
      assert Pow32(0) == 1;
    } else {
      ShiftBound(v, bound, Pow32(n - 2));
      FirstDigit(v / 32, n - 1, bound);
      assert Digits(v, n)[0] == Digits(v / 32, n - 1)[0];
    }
  }

  /** The canonical pattern of a driver ID. */
  ghost predicate IsDriverId(s: string) {
    |s| == ID_LENGTH && IsDigits(s) && IndexOf(s[0]) <= 7
  }

  // ---------------------------------------------------------------------------------------------
  // Time.

  method EncodeDriverIdTime(timeMs: nat) returns (encoded: string)
    requires timeMs <= MAX_TIME_MS
    ensures encoded == Digits(timeMs, TIME_LENGTH)
  {
    var value: nat := timeMs;
    encoded := "";
    for index := 0 to TIME_LENGTH
      invariant Digits(timeMs, TIME_LENGTH) == Digits(value, TIME_LENGTH - index) + encoded
    {
      AlphabetIsTabulated(value % 32);
      encoded := [ALPHABET[value % |ALPHABET|]] + encoded;
      value := value / 32;
    }
  }

  method DriverIdTimeMs(id: string) returns (timeMs: nat)
    requires IsDriverId(id)
    ensures timeMs == ValueOf(id[..TIME_LENGTH])
  {
    timeMs := 0;
    for i := 0 to TIME_LENGTH
      invariant IsDigits(id[..i]) && timeMs == ValueOf(id[..i])
    {
      assert id[..i + 1][..i] == id[..i];
      timeMs := timeMs * 32 + IndexOf(id[i]);
    }
  }

  lemma TimeFits(timeMs: nat)
    requires timeMs <= MAX_TIME_MS
    ensures timeMs < Pow32(TIME_LENGTH) && timeMs < 8 * Pow32(TIME_LENGTH - 1)
  {
    assert Pow32(3) == 32768;
    assert Pow32(6) == 0x4000_0000;
    assert Pow32(9) == 0x2000_0000_0000;
  }

  /** Encoding the time and reading it back are inverse, and IDs order by their time first. */
  lemma TimeRoundTrip(timeMs: nat, random: string)
    requires timeMs <= MAX_TIME_MS && |random| == RANDOM_LENGTH && IsDigits(random)
    ensures IsDriverId(Digits(timeMs, TIME_LENGTH) + random)
    ensures ValueOf((Digits(timeMs, TIME_LENGTH) + random)[..TIME_LENGTH]) == timeMs
  {
    TimeFits(timeMs);
    DecodeEncode(timeMs, TIME_LENGTH);
    FirstDigit(timeMs, TIME_LENGTH, 8);
    ValueOfConcat(Digits(timeMs, TIME_LENGTH), random);
    assert (Digits(timeMs, TIME_LENGTH) + random)[..TIME_LENGTH] == Digits(timeMs, TIME_LENGTH);
  }

  lemma IdOrder(t1: nat, r1: string, t2: nat, r2: string)
    requires t1 <= MAX_TIME_MS && |r1| == RANDOM_LENGTH && IsDigits(r1)
    requires t2 <= MAX_TIME_MS && |r2| == RANDOM_LENGTH && IsDigits(r2)
    ensures Before(Digits(t1, TIME_LENGTH) + r1, Digits(t2, TIME_LENGTH) + r2)
       <==> t1 < t2 || (t1 == t2 && ValueOf(r1) < ValueOf(r2))
  {
    var s1, s2 := Digits(t1, TIME_LENGTH), Digits(t2, TIME_LENGTH);
    TimeFits(t1);
    TimeFits(t2);
    DecodeEncode(t1, TIME_LENGTH);
    DecodeEncode(t2, TIME_LENGTH);
    EncodeDecode(r1);
    EncodeDecode(r2);
    ValueOfConcat(s1, r1);
    ValueOfConcat(s2, r2);
    OrderIsNumeric(s1 + r1, s2 + r2);
    ScaledOrder(t1, ValueOf(r1), t2, ValueOf(r2), Pow32(RANDOM_LENGTH));
  }

  lemma ScaledOrder(a: nat, x: nat, b: nat, y: nat, scale: nat)
    requires x < scale && y < scale
    ensures a * scale + x < b * scale + y <==> a < b || (a == b && x < y)
  {
    if a < b {
      assert (a + 1) * scale <= b * scale;
    } else if b < a {
      assert (b + 1) * scale <= a * scale;
    }
  }

  // ---------------------------------------------------------------------------------------------
  // IDs from bytes.

  function BytesValue(bytes: seq<byte>): nat {
    if bytes == [] then 0 else 256 * BytesValue(bytes[..|bytes| - 1]) + bytes[|bytes| - 1] as int
  }

  method CreateDriverIdFromBytes(bytes: seq<byte>) returns (r: Option<string>)
    ensures r == if |bytes| == 16 then Some(Digits(BytesValue(bytes), ID_LENGTH)) else None
  {
    if |bytes| != 16 {
      return None;
    }
    var value: nat := 0;
    for i := 0 to |bytes|
      invariant value == BytesValue(bytes[..i])
    {
      assert bytes[..i + 1][..i] == bytes[..i];
      value := value * 256 + bytes[i] as int;
    }
    assert bytes[..|bytes|] == bytes;
    var encoded := "";
    for index := 0 to ID_LENGTH
      invariant Digits(BytesValue(bytes), ID_LENGTH) == Digits(value, ID_LENGTH - index) + encoded
    {
      encoded := [Digit(value % 32)] + encoded;
      value := value / 32;
    }
    assert Digits(value, 0) + encoded == encoded;
    r := Some(encoded);
  }

  function Pow256(n: nat): nat {
    if n == 0 then 1 else 256 * Pow256(n - 1)
  }

  lemma {:induction false} BytesFit(bytes: seq<byte>)
    ensures BytesValue(bytes) < Pow256(|bytes|)
  {
    if bytes != [] {
      BytesFit(bytes[..|bytes| - 1]);
    }
  }

  lemma {:induction false} BytesInjective(a: seq<byte>, b: seq<byte>)
    requires |a| == |b| && BytesValue(a) == BytesValue(b)
    ensures a == b
  {
    if a != [] {
      var n := |a| - 1;
      BytesInjective(a[..n], b[..n]);
      assert a == a[..n] + [a[n]] && b == b[..n] + [b[n]];
    }
  }

  /** 256^16 == 8 * 32^25: five bytes are eight digits. */
  lemma SixteenBytes()
    ensures Pow256(16) == 8 * Pow32(25) && Pow256(16) < Pow32(26)
  {
    assert Pow256(5) == Pow32(8) == 0x100_0000_0000;
    assert Pow256(10) == Pow256(5) * 0x100_0000_0000;
    assert Pow32(16) == Pow32(8) * 0x100_0000_0000;
    assert Pow256(15) == Pow256(10) * 0x100_0000_0000;
    assert Pow32(24) == Pow32(16) * 0x100_0000_0000;
  }

  /** Every 16-byte source has its own canonical ID. */
  lemma FromBytesInjective(a: seq<byte>, b: seq<byte>)
    requires |a| == |b| == 16
    ensures IsDriverId(Digits(BytesValue(a), ID_LENGTH))
    ensures Digits(BytesValue(a), ID_LENGTH) == Digits(BytesValue(b), ID_LENGTH) ==> a == b
  {
    SixteenBytes();
    BytesFit(a);
    BytesFit(b);
    FirstDigit(BytesValue(a), ID_LENGTH, 8);
    DecodeEncode(BytesValue(a), ID_LENGTH);
    DecodeEncode(BytesValue(b), ID_LENGTH);
    if Digits(BytesValue(a), ID_LENGTH) == Digits(BytesValue(b), ID_LENGTH) {
      BytesInjective(a, b);
    }
  }

  // ---------------------------------------------------------------------------------------------
  // The monotonic random part.

  function Increment(s: string): (r: string)
    requires IsDigits(s)
    ensures |r| == |s|
  {
    if s == "" then ""
    else
      var n := |s| - 1;
      if IndexOf(s[n]) < 31 then s[..n] + [Digit(IndexOf(s[n]) + 1)] else Increment(s[..n]) + ['0']
  }

  /** The loop over the characters from the last to the first; None is a malformed state. */
  method IncrementCrockfordBase32(value: string) returns (r: Option<string>)
    ensures IsDigits(value) ==> r == Some(Increment(value))
  {
    var chars := value;
    var index := |chars|;
    assert value[..|value|] == value;
    while index > 0
      invariant 0 <= index <= |chars| == |value|
      invariant chars[..index] == value[..index]
      invariant IsDigits(value) ==> Increment(value) == Increment(value[..index]) + chars[index..]
    {
      index := index - 1;
      var alphabetIndex := IndexOf(chars[index]);
      assert chars[index] == value[..index + 1][index];
      if alphabetIndex < 0 {
        return None;
      }
      assert value[..index + 1][..index] == value[..index];
      if alphabetIndex < 31 {
        chars := chars[index := Digit(alphabetIndex + 1)];
        assert chars == value[..index] + [chars[index]] + chars[index + 1..];
        return Some(chars);
      }
      chars := chars[index := '0'];
    }
    assert Increment(value[..0]) == "" && "" + chars[0..] == chars;
    r := Some(chars);
  }

  /** Incrementing counts up modulo 32^16; it wraps exactly from the largest value. */
  lemma {:induction false} IncrementCounts(s: string)
    requires IsDigits(s)
    ensures IsDigits(Increment(s))
    ensures ValueOf(Increment(s)) == if ValueOf(s) + 1 < Pow32(|s|) then ValueOf(s) + 1 else 0
  {
    EncodeDecode(s);
    if s != "" {
      var n := |s| - 1;
      var d := IndexOf(s[n]);
      EncodeDecode(s[..n]);
      if d < 31 {
        DigitIndex(d + 1);
        assert Increment(s)[..n] == s[..n];
      } else {
        IncrementCounts(s[..n]);
        DigitIndex(0);
        assert Digit(0) == '0';
        assert Increment(s)[..n] == Increment(s[..n]);
      }
    }
  }

  function RandomDigits(bytes: seq<byte>): (r: string)
    ensures |r| == |bytes|
  {
    if bytes == [] then "" else RandomDigits(bytes[..|bytes| - 1]) + [Digit(bytes[|bytes| - 1] as int % 32)]
  }

  lemma {:induction false} RandomIsDigits(bytes: seq<byte>)
    ensures IsDigits(RandomDigits(bytes))
  {
    if bytes != [] {
      RandomIsDigits(bytes[..|bytes| - 1]);
      DigitIndex(bytes[|bytes| - 1] as int % 32);
    }
  }

  /** Each random digit is the low five bits of its byte, and nothing else. */
  lemma {:induction false} RandomIsExact(bytes: seq<byte>, i: nat)
    requires i < |bytes|
    ensures IndexOf(RandomDigits(bytes)[i]) == bytes[i] as int % 32
  {
    var n := |bytes| - 1;
    DigitIndex(bytes[n] as int % 32);
    if i < n {
      RandomIsExact(bytes[..n], i);
    }
  }

  method CreateDriverIdRandom(bytes: seq<byte>) returns (value: string)
    requires |bytes| == RANDOM_LENGTH
    ensures value == RandomDigits(bytes)
  {
    value := "";
    for i := 0 to RANDOM_LENGTH
      invariant value == RandomDigits(bytes[..i])
    {
      assert bytes[..i + 1][..i] == bytes[..i];
      value := value + [Digit(bytes[i] as int % 32)];
    }
    assert bytes[..RANDOM_LENGTH] == bytes;
  }

  ghost predicate Ascending(ids: seq<string>) {
    && (forall id :: id in ids ==> |id| == ID_LENGTH)
    && forall i, j :: 0 <= i < j < |ids| ==> Before(ids[i], ids[j])
  }

  lemma BeforeIsTransitive(a: string, b: string, c: string)
    requires |a| == |b| == |c| && Before(a, b) && Before(b, c)
    ensures Before(a, c)
  {
    var i :| 0 <= i < |a| && a[..i] == b[..i] && a[i] < b[i];
    var j :| 0 <= j < |b| && b[..j] == c[..j] && b[j] < c[j];
    var k := if i < j then i else j;
    assert a[..k] == a[..i][..k] && b[..k] == b[..i][..k] == b[..j][..k] && c[..k] == c[..j][..k];
    if i < j {
      assert b[i] == b[..j][i] == c[..j][i] == c[i];
    } else if j < i {
      assert a[j] == a[..i][j] == b[..i][j] == b[j];
    }
  }

  lemma AscendingExtends(ids: seq<string>, id: string)
    requires Ascending(ids) && |id| == ID_LENGTH
    requires ids != [] ==> Before(ids[|ids| - 1], id)
    ensures Ascending(ids + [id])
  {
    forall i, j | 0 <= i < j < |ids + [id]| ensures Before((ids + [id])[i], (ids + [id])[j]) {
      if j == |ids| && i < j - 1 {
        BeforeIsTransitive(ids[i], ids[j - 1], id);
      }
    }
  }

  /** The next ID on a clock that did not advance follows the previous one unless it wraps. */
  lemma IncrementOrder(timeMs: nat, random: string)
    requires timeMs <= MAX_TIME_MS && |random| == RANDOM_LENGTH && IsDigits(random)
    ensures IsDigits(Increment(random))
    ensures Before(Digits(timeMs, TIME_LENGTH) + random, Digits(timeMs, TIME_LENGTH) + Increment(random))
       <==> ValueOf(random) + 1 != Pow32(RANDOM_LENGTH)
  {
    EncodeDecode(random);
    IncrementCounts(random);
    IdOrder(timeMs, random, timeMs, Increment(random));
  }

  function IdOf(timeMs: int, random: string): (r: string)
    requires 0 <= timeMs && |random| == RANDOM_LENGTH
    ensures |r| == ID_LENGTH
  {
    Digits(timeMs, TIME_LENGTH) + random
  }

  /** The generator's module state; `issued` and `wrapped` record what it has done. */
  class Generator {
    var lastTimeMs: int
    var lastRandom: Option<string>
    ghost var issued: seq<string>
    ghost var wrapped: bool

    ghost predicate StateValid()
      reads this
    {
      if lastRandom.None? then lastTimeMs == -1
      else 0 <= lastTimeMs <= MAX_TIME_MS && |lastRandom.value| == RANDOM_LENGTH && IsDigits(lastRandom.value)
    }

    ghost predicate Valid()
      reads this
    {
      && StateValid()
      && (if lastRandom.None? then issued == [] && !wrapped
          else issued != [] && issued[|issued| - 1] == IdOf(lastTimeMs, lastRandom.value))
      && (!wrapped ==> Ascending(issued))
    }

    constructor ()
      ensures Valid() && issued == []
    {
      lastTimeMs, lastRandom, issued, wrapped := -1, None, [], false;
    }

    /** The clock stood still, or ran backwards, on the largest random value. */
    ghost predicate Stuck(now: int)
      requires StateValid()
      reads this
    {
      lastRandom.Some? && now <= lastTimeMs && ValueOf(lastRandom.value) + 1 == Pow32(RANDOM_LENGTH)
    }

    method Advance(now: int, bytes: seq<byte>)
      requires StateValid() && 0 <= now <= MAX_TIME_MS && |bytes| == RANDOM_LENGTH
      modifies this`lastTimeMs, this`lastRandom
      ensures StateValid() && lastRandom.Some?
      ensures lastTimeMs == if now < old(lastTimeMs) then old(lastTimeMs) else now
      ensures old(lastRandom.Some?) ==>
                (Before(old(IdOf(lastTimeMs, lastRandom.value)), IdOf(lastTimeMs, lastRandom.value)) <==> !old(Stuck(now)))
    {
      if now <= lastTimeMs && lastRandom.Some? {
        IncrementOrder(lastTimeMs, lastRandom.value);
        lastRandom := IncrementCrockfordBase32(lastRandom.value);
      } else {
        RandomIsDigits(bytes);
        if lastRandom.Some? {
          IdOrder(lastTimeMs, lastRandom.value, now, RandomDigits(bytes));
        }
        lastTimeMs := now;
        var drawn := CreateDriverIdRandom(bytes);
        lastRandom := Some(drawn);
      }
    }

    /** Fails, changing nothing, exactly when the clock is outside the 48-bit range.  Otherwise
        the ID is canonical, its time never runs backwards, and it follows the previous ID in
        string order unless the random part wrapped; without a wrap all IDs ascend. */
    method CreateDriverId(now: int, bytes: seq<byte>) returns (r: Option<string>)
      requires Valid() && |bytes| == RANDOM_LENGTH
      modifies this
      ensures Valid()
      ensures r.Some? <==> 0 <= now <= MAX_TIME_MS
      ensures r.None? ==> unchanged(this)
      ensures r.Some? ==> issued == old(issued) + [r.value] && IsDriverId(r.value)
      ensures r.Some? ==> ValueOf(r.value[..TIME_LENGTH]) == if now < old(lastTimeMs) then old(lastTimeMs) else now
      ensures r.Some? && old(issued) != [] ==>
                && |old(issued)[|old(issued)| - 1]| == |r.value|
                && (Before(old(issued)[|old(issued)| - 1], r.value) <==> !old(Stuck(now)))
      ensures r.Some? ==> wrapped == (old(wrapped) || old(Stuck(now)))
    {
      if now < 0 || now > MAX_TIME_MS {
        return None;
      }
      wrapped := wrapped || Stuck(now);
      Advance(now, bytes);
      var id := Compose();
      Issue(id);
      r := Some(id);
    }

    method Compose() returns (id: string)
      requires StateValid() && lastRandom.Some?
      ensures id == IdOf(lastTimeMs, lastRandom.value)
      ensures IsDriverId(id) && ValueOf(id[..TIME_LENGTH]) == lastTimeMs
    {
      var encoded := EncodeDriverIdTime(lastTimeMs);
      id := encoded + lastRandom.value;
      TimeRoundTrip(lastTimeMs, lastRandom.value);
    }

    ghost method Issue(id: string)
      requires StateValid() && lastRandom.Some? && id == IdOf(lastTimeMs, lastRandom.value)
      requires !wrapped ==> Ascending(issued)
      requires !wrapped && issued != [] ==> |issued[|issued| - 1]| == ID_LENGTH && Before(issued[|issued| - 1], id)
      modifies this`issued
      ensures Valid() && issued == old(issued) + [id]
    {
      if !wrapped {
        AscendingExtends(issued, id);
      }
      issued := issued + [id];
    }
  }
}
