/** Preview streams: the receiver's update rule and the coalescing of a batch.

    An update is addressed to one stream by its key.  The meaning of a batch is what a receiver
    holds after applying it update by update; coalescing rewrites a batch into a shorter one. */
module Preview {
  import opened Wrappers

  datatype Key = Key(itemId: string, streamId: string, channel: string, segment: nat)

  datatype Update =
    | Append(key: Key, from: nat, through: nat, text: string)
    | Replace(key: Key, through: nat, text: string)

  /** What the wire schema guarantees of an admitted update. */
  predicate WellFormed(u: Update) {
    && 0 < u.through
    && (u.Append? ==> 0 < u.from <= u.through && u.text != "")
  }

  /** A receiver's stream; its text is lost once a gap was seen. */
  datatype Stream = Stream(text: Option<string>, through: nat)

  datatype Status = Applied | Duplicate | Gap

  datatype ApplyResult = ApplyResult(status: Status, state: Stream)

  function Held(current: Option<Stream>): nat {
    if current.Some? then current.value.through else 0
  }

  function Max(a: nat, b: nat): nat {
    if a < b then b else a
  }

  function ApplyUpdate(current: Option<Stream>, u: Update): ApplyResult {
    match u
    case Replace(_, through, text) =>
      if current.Some? && through < current.value.through then ApplyResult(Duplicate, current.value)
      else ApplyResult(Applied, Stream(Some(text), through))
    case Append(_, from, through, text) =>
      if current.Some? && through <= current.value.through then ApplyResult(Duplicate, current.value)
      else if from != Held(current) + 1 || (current.Some? && current.value.text.None?) then
        ApplyResult(Gap, Stream(None, Max(Held(current), through)))
      else
        var prior := if current.Some? then current.value.text.value else "";
        ApplyResult(Applied, Stream(Some(prior + text), through))
  }

  /** A receiver that applies a batch; it keeps one stream per key. */
  function Receive(m: map<Key, Stream>, us: seq<Update>): map<Key, Stream> {
    if us == [] then m
    else
      var before := Receive(m, us[..|us| - 1]);
      var u := us[|us| - 1];
      before[u.key := ApplyUpdate(Lookup(before, u.key), u).state]
  }

  function Lookup(m: map<Key, Stream>, k: Key): Option<Stream> {
    if k in m then Some(m[k]) else None
  }

  function Merge(previous: Update, next: Update): Option<Update> {
    if previous.key != next.key then None
    else if next.Replace? then
      if next.through < previous.through then Some(previous) else Some(next)
    else if next.from != previous.through + 1 then None
    else Some(previous.(text := previous.text + next.text, through := next.through))
  }

  // ---------------------------------------------------------------------------------------------
  // Coalescing: the simple form searches the output, the program remembers the index in a map.

  function LastIndexOf(output: seq<Update>, k: Key): (r: Option<nat>)
    ensures r.Some? ==> r.value < |output| && output[r.value].key == k
  {
    if output == [] then None
    else if output[|output| - 1].key == k then Some(|output| - 1)
    else LastIndexOf(output[..|output| - 1], k)
  }

  function CoalesceStep(output: seq<Update>, u: Update): seq<Update> {
    var i := LastIndexOf(output, u.key);
    if i.None? || Merge(output[i.value], u).None? then output + [u]
    else output[i.value := Merge(output[i.value], u).value]
  }

  function Coalesced(us: seq<Update>): seq<Update> {
    if us == [] then [] else CoalesceStep(Coalesced(us[..|us| - 1]), us[|us| - 1])
  }

  ghost predicate Indexes(last: map<Key, nat>, output: seq<Update>) {
    forall k :: LastIndexOf(output, k) == if k in last then Some(last[k]) else None
  }

  lemma {:induction false} LastIndexAfterUpdate(output: seq<Update>, i: nat, u: Update, k: Key)
    requires i < |output| && output[i].key == u.key
    ensures LastIndexOf(output[i := u], k) == LastIndexOf(output, k)
  {
    var n := |output| - 1;
    if i < n {
      assert output[i := u][..n] == output[..n][i := u];
      LastIndexAfterUpdate(output[..n], i, u, k);
    } else {
      assert output[i := u][..n] == output[..n];
    }
  }

  lemma IndexesAfterPush(last: map<Key, nat>, output: seq<Update>, u: Update)
    requires Indexes(last, output)
    ensures Indexes(last[u.key := |output|], output + [u])
  {
    assert (output + [u])[..|output|] == output;
  }

  lemma IndexesAfterUpdate(last: map<Key, nat>, output: seq<Update>, i: nat, u: Update)
    requires Indexes(last, output) && i < |output| && output[i].key == u.key
    ensures Indexes(last, output[i := u])
  {
    forall k ensures LastIndexOf(output[i := u], k) == if k in last then Some(last[k]) else None {
      LastIndexAfterUpdate(output, i, u, k);
      assert LastIndexOf(output, k) == if k in last then Some(last[k]) else None;
    }
  }

  method CoalescePreviewUpdates(updates: seq<Update>) returns (output: seq<Update>)
    ensures output == Coalesced(updates)
  {
    output := [];
    var last: map<Key, nat> := map[];
    for n := 0 to |updates|
      invariant output == Coalesced(updates[..n])
      invariant Indexes(last, output)
    {
      var u := updates[n];
      assert updates[..n + 1][..n] == updates[..n];
      assert LastIndexOf(output, u.key) == if u.key in last then Some(last[u.key]) else None;
      var merged := if u.key in last then Merge(output[last[u.key]], u) else None;
      if merged.None? {
        IndexesAfterPush(last, output, u);
        last := last[u.key := |output|];
        output := output + [u];
      } else {
        IndexesAfterUpdate(last, output, last[u.key], merged.value);
        output := output[last[u.key] := merged.value];
      }
    }
    assert updates[..|updates|] == updates;
  }

  // ---------------------------------------------------------------------------------------------
  // One stream at a time.

  function Project(us: seq<Update>, k: Key): seq<Update> {
    if us == [] then []
    else
      var rest := Project(us[..|us| - 1], k);
      if us[|us| - 1].key == k then rest + [us[|us| - 1]] else rest
  }

  function Fold(s: Option<Stream>, us: seq<Update>): Option<Stream> {
    if us == [] then s else Some(ApplyUpdate(Fold(s, us[..|us| - 1]), us[|us| - 1]).state)
  }

  function KeyStep(output: seq<Update>, u: Update): seq<Update> {
    if output == [] || Merge(output[|output| - 1], u).None? then output + [u]
    else output[..|output| - 1] + [Merge(output[|output| - 1], u).value]
  }

  function KeyCoalesced(us: seq<Update>): seq<Update> {
    if us == [] then [] else KeyStep(KeyCoalesced(us[..|us| - 1]), us[|us| - 1])
  }

  /** A receiver treats every stream on its own. */
  lemma {:induction false} ReceivePerKey(m: map<Key, Stream>, us: seq<Update>, k: Key)
    ensures Lookup(Receive(m, us), k) == Fold(Lookup(m, k), Project(us, k))
  {
    if us != [] {
      var n := |us| - 1;
      ReceivePerKey(m, us[..n], k);
      if us[n].key == k {
        assert Project(us, k)[..|Project(us, k)| - 1] == Project(us[..n], k);
      }
    }
  }

  lemma {:induction false} ProjectAfterUpdate(output: seq<Update>, i: nat, u: Update, k: Key)
    requires LastIndexOf(output, u.key) == Some(i)
    ensures |Project(output, u.key)| > 0
    ensures Project(output, u.key)[|Project(output, u.key)| - 1] == output[i]
    ensures Project(output[i := u], k)
         == if k == u.key then Project(output, k)[..|Project(output, k)| - 1] + [u] else Project(output, k)
  {
    var n := |output| - 1;
    if i < n {
      assert output[i := u][..n] == output[..n][i := u];
      ProjectAfterUpdate(output[..n], i, u, k);
    } else {
      assert output[i := u][..n] == output[..n];
      if k == u.key {
        assert Project(output, k)[..|Project(output, k)| - 1] == Project(output[..n], k);
      }
    }
  }

  lemma {:induction false} NoIndexNoProjection(output: seq<Update>, k: Key)
    ensures LastIndexOf(output, k).None? <==> Project(output, k) == []
  {
    if output != [] {
      NoIndexNoProjection(output[..|output| - 1], k);
    }
  }

  lemma KeyCoalesceOneMore(us: seq<Update>, u: Update)
    ensures KeyCoalesced(us + [u]) == KeyStep(KeyCoalesced(us), u)
  {
    assert (us + [u])[..|us|] == us;
  }

  /** Coalescing an interleaved batch coalesces each stream's updates on their own. */
  lemma {:induction false} CoalescePerKey(us: seq<Update>, k: Key)
    ensures Project(Coalesced(us), k) == KeyCoalesced(Project(us, k))
  {
    if us != [] {
      var n := |us| - 1;
      var u := us[n];
      var before := Coalesced(us[..n]);
      CoalescePerKey(us[..n], k);
      NoIndexNoProjection(before, u.key);
      var i := LastIndexOf(before, u.key);
      if i.None? || Merge(before[i.value], u).None? {
        assert (before + [u])[..|before + [u]| - 1] == before;
        if i.Some? {
          ProjectAfterUpdate(before, i.value, u, k);
        }
      } else {
        ProjectAfterUpdate(before, i.value, Merge(before[i.value], u).value, k);
      }
      if u.key == k {
        assert Project(us, k) == Project(us[..n], k) + [u];
        KeyCoalesceOneMore(Project(us[..n], k), u);
      }
    }
  }

  /** The highest sequence a receiver holds or was sent. */
  function Reached(s: nat, us: seq<Update>): nat {
    if us == [] then s else Max(Reached(s, us[..|us| - 1]), us[|us| - 1].through)
  }

  lemma {:induction false} FoldReaches(s: Option<Stream>, us: seq<Update>)
    requires forall u :: u in us ==> WellFormed(u)
    ensures Held(Fold(s, us)) == Reached(Held(s), us)
    ensures us != [] ==> Fold(s, us).Some?
  {
    if us != [] {
      FoldReaches(s, us[..|us| - 1]);
      assert us[|us| - 1] in us;
    }
  }

  lemma KeyStepReaches(s: nat, c: seq<Update>, u: Update)
    requires WellFormed(u) && forall v :: v in c ==> WellFormed(v)
    ensures Reached(s, KeyStep(c, u)) == Max(Reached(s, c), u.through)
    ensures forall v :: v in KeyStep(c, u) ==> WellFormed(v)
  {
    if c == [] || Merge(c[|c| - 1], u).None? {
      assert (c + [u])[..|c + [u]| - 1] == c;
    } else {
      var p := c[|c| - 1];
      var c0 := c[..|c| - 1];
      var merged := Merge(p, u).value;
      assert p in c;
      assert WellFormed(merged) && merged.through == Max(p.through, u.through);
      assert (c0 + [merged])[..|c0 + [merged]| - 1] == c0;
    }
  }

  lemma {:induction false} KeyCoalesceReaches(s: nat, us: seq<Update>)
    requires forall u :: u in us ==> WellFormed(u)
    ensures Reached(s, KeyCoalesced(us)) == Reached(s, us)
    ensures forall u :: u in KeyCoalesced(us) ==> WellFormed(u)
    ensures (KeyCoalesced(us) == []) <==> (us == [])
  {
    if us != [] {
      assert us[|us| - 1] in us;
      KeyCoalesceReaches(s, us[..|us| - 1]);
      KeyStepReaches(s, KeyCoalesced(us[..|us| - 1]), us[|us| - 1]);
    }
  }

  lemma {:induction false} ProjectKeepsWellFormed(us: seq<Update>, k: Key)
    requires forall u :: u in us ==> WellFormed(u)
    ensures forall u :: u in Project(us, k) ==> WellFormed(u) && u in us
  {
    if us != [] {
      ProjectKeepsWellFormed(us[..|us| - 1], k);
      assert us[|us| - 1] in us;
    }
  }

  /** Whatever the receiver holds and however the streams interleave, replaying the coalesced
      batch brings every stream to the same sequence as replaying the original. */
  lemma CoalescingKeepsSequences(m: map<Key, Stream>, us: seq<Update>, k: Key)
    requires forall u :: u in us ==> WellFormed(u)
    ensures k in Receive(m, Coalesced(us)) <==> k in Receive(m, us)
    ensures k in Receive(m, us) ==> Receive(m, Coalesced(us))[k].through == Receive(m, us)[k].through
  {
    var ps := Project(us, k);
    ProjectKeepsWellFormed(us, k);
    ReceivePerKey(m, us, k);
    ReceivePerKey(m, Coalesced(us), k);
    CoalescePerKey(us, k);
    KeyCoalesceReaches(Held(Lookup(m, k)), ps);
    FoldReaches(Lookup(m, k), ps);
    FoldReaches(Lookup(m, k), KeyCoalesced(ps));
  }

  /** What a stream becomes when two updates are applied one by one. */
  function Twice(s: Option<Stream>, previous: Update, next: Update): Stream {
    ApplyUpdate(Some(ApplyUpdate(s, previous).state), next).state
  }

  /** When merging two updates changes what a receiver ends up with: two appends, the first of which
      ends where the receiver already is; or a replacement the receiver has passed that an append
      carries back over its position. */
  predicate MergeLoses(s: Option<Stream>, previous: Update, next: Update) {
    && next.Append? && s.Some?
    && if previous.Append? then s.value.text.Some? && s.value.through == previous.through
       else && previous.through < s.value.through <= next.through
            && (s.value.through == next.through ==> s.value.text != Some(previous.text + next.text))
  }

  lemma Reassociated(a: string, b: string, c: string)
    ensures (a + b) + c == a + (b + c)
  {
  }

  lemma ReplaceMergesExactly(s: Option<Stream>, previous: Update, next: Update)
    requires WellFormed(previous) && WellFormed(next) && next.Replace? && Merge(previous, next).Some?
    ensures Twice(s, previous, next) == ApplyUpdate(s, Merge(previous, next).value).state
  {
  }

  lemma AppendsMerge(s: Option<Stream>, previous: Update, next: Update)
    requires WellFormed(previous) && WellFormed(next) && previous.Append? && next.Append? && Merge(previous, next).Some?
    ensures Twice(s, previous, next) == ApplyUpdate(s, Merge(previous, next).value).state <==> !MergeLoses(s, previous, next)
  {
    Reassociated(if s.Some? && s.value.text.Some? then s.value.text.value else "", previous.text, next.text);
  }

  lemma AppendMergesIntoReplace(s: Option<Stream>, previous: Update, next: Update)
    requires WellFormed(previous) && WellFormed(next) && previous.Replace? && next.Append? && Merge(previous, next).Some?
    ensures Twice(s, previous, next) == ApplyUpdate(s, Merge(previous, next).value).state <==> !MergeLoses(s, previous, next)
  {
  }

  /** A merge is exact in every other case, and in no case of those. */
  lemma MergeExactIff(s: Option<Stream>, previous: Update, next: Update)
    requires WellFormed(previous) && WellFormed(next) && Merge(previous, next).Some?
    ensures Twice(s, previous, next) == ApplyUpdate(s, Merge(previous, next).value).state <==> !MergeLoses(s, previous, next)
  {
    if next.Replace? {
      ReplaceMergesExactly(s, previous, next);
    } else if previous.Append? {
      AppendsMerge(s, previous, next);
    } else {
      AppendMergesIntoReplace(s, previous, next);
    }
  }

  /** Each append starts after everything already held or sent for its stream. */
  ghost predicate FreshFor(s: nat, us: seq<Update>) {
    forall i :: 0 <= i < |us| && us[i].Append? ==> Reached(s, us[..i]) < us[i].from
  }

  ghost predicate LastIsFresh(s: nat, c: seq<Update>) {
    c != [] && c[|c| - 1].Append? ==> Reached(s, c[..|c| - 1]) < c[|c| - 1].from
  }

  lemma FoldOneMore(s: Option<Stream>, us: seq<Update>, u: Update)
    ensures Fold(s, us + [u]) == Some(ApplyUpdate(Fold(s, us), u).state)
    ensures Reached(Held(s), us + [u]) == Max(Reached(Held(s), us), u.through)
  {
    assert (us + [u])[..|us|] == us;
  }

  /** The merge of a fresh append loses nothing. */
  lemma FreshMergeIsExact(s: Option<Stream>, previous: Update, next: Update)
    requires WellFormed(previous) && WellFormed(next) && Merge(previous, next).Some?
    requires previous.Append? ==> Held(s) < previous.from
    requires next.Append? ==> Max(Held(s), previous.through) < next.from
    ensures Twice(s, previous, next) == ApplyUpdate(s, Merge(previous, next).value).state
  {
    MergeExactIff(s, previous, next);
  }

  lemma StepStaysFresh(s: nat, c: seq<Update>, u: Update)
    requires LastIsFresh(s, c) && (u.Append? ==> Reached(s, c) < u.from)
    ensures LastIsFresh(s, KeyStep(c, u))
  {
    if c == [] || Merge(c[|c| - 1], u).None? {
      assert (c + [u])[..|c|] == c;
    } else {
      var c0, merged := c[..|c| - 1], Merge(c[|c| - 1], u).value;
      assert (c0 + [merged])[..|c0|] == c0;
    }
  }

  /** Adding `u` to the coalesced batch `c` loses nothing. */
  ghost predicate StepKeepsAll(s: Option<Stream>, c: seq<Update>, u: Update) {
    c != [] && Merge(c[|c| - 1], u).Some? ==> !MergeLoses(Fold(s, c[..|c| - 1]), c[|c| - 1], u)
  }

  /** No merge on the coalescer's way through the batch of one stream loses anything. */
  ghost predicate Lossless(s: Option<Stream>, us: seq<Update>) {
    us == [] || (Lossless(s, us[..|us| - 1]) && StepKeepsAll(s, KeyCoalesced(us[..|us| - 1]), us[|us| - 1]))
  }

  /** One step of the coalescer means what the update means, exactly when it loses nothing. */
  lemma KeyStepExactIff(s: Option<Stream>, c: seq<Update>, u: Update)
    requires WellFormed(u) && forall v :: v in c ==> WellFormed(v)
    ensures Fold(s, KeyStep(c, u)) == Some(ApplyUpdate(Fold(s, c), u).state) <==> StepKeepsAll(s, c, u)
  {
    if c == [] || Merge(c[|c| - 1], u).None? {
      FoldOneMore(s, c, u);
    } else {
      var p, c0, merged := c[|c| - 1], c[..|c| - 1], Merge(c[|c| - 1], u).value;
      assert p in c && c == c0 + [p];
      MergeExactIff(Fold(s, c0), p, u);
      FoldOneMore(s, c0, merged);
      FoldOneMore(s, c0, p);
    }
  }

  lemma {:induction false} KeyCoalesceExact(s: Option<Stream>, us: seq<Update>)
    requires (forall u :: u in us ==> WellFormed(u)) && Lossless(s, us)
    ensures Fold(s, KeyCoalesced(us)) == Fold(s, us)
  {
    if us != [] {
      var n := |us| - 1;
      assert us[n] in us;
      KeyCoalesceExact(s, us[..n]);
      KeyCoalesceReaches(Held(s), us[..n]);
      KeyStepExactIff(s, KeyCoalesced(us[..n]), us[n]);
    }
  }

  ghost predicate MeansTheSame(s: Option<Stream>, us: seq<Update>) {
    Fold(s, KeyCoalesced(us)) == Fold(s, us)
  }

  ghost predicate PrefixesExact(s: Option<Stream>, us: seq<Update>) {
    forall i :: 0 <= i <= |us| ==> MeansTheSame(s, us[..i])
  }

  /** The coalescer means what the batch means at every moment exactly when none of its merges loses. */
  lemma {:induction false} LosslessIff(s: Option<Stream>, us: seq<Update>)
    requires forall u :: u in us ==> WellFormed(u)
    ensures Lossless(s, us) <==> PrefixesExact(s, us)
  {
    if us == [] {
      assert us[..0] == [];
    } else {
      var n := |us| - 1;
      var shorter := us[..n];
      LosslessIff(s, shorter);
      assert forall i :: 0 <= i <= n ==> shorter[..i] == us[..i];
      assert us[..n + 1] == us && us[n] in us;
      KeyCoalesceReaches(Held(s), shorter);
      if PrefixesExact(s, shorter) {
        assert MeansTheSame(s, shorter[..n]) && shorter[..n] == shorter;
        KeyStepExactIff(s, KeyCoalesced(shorter), us[n]);
      }
      PrefixesOneMore(s, us, shorter);
    }
  }

  lemma PrefixesOneMore(s: Option<Stream>, us: seq<Update>, shorter: seq<Update>)
    requires us != [] && shorter == us[..|us| - 1]
    ensures PrefixesExact(s, us) <==> PrefixesExact(s, shorter) && MeansTheSame(s, us)
  {
    assert us[..|us|] == us;
    forall i | 0 <= i < |us| ensures shorter[..i] == us[..i] {
    }
  }

  // What happens to a difference once a merge has lost something.

  /** The update makes of a stream at `r` what it does whatever the text was: a replacement that takes
      effect, or an append over a gap. */
  predicate Settles(r: nat, u: Update) {
    if u.Replace? then r <= u.through else r < u.through && u.from != r + 1
  }

  /** When the receiver of the coalesced batch `c`, which so far differs from the `meant` one, is made the
      same by the next update: by one that settles, or in two cases by another lossy merge, which leaves a
      gap where a gap was meant, or a text that happens to be the one meant. */
  predicate Recovers(s: Option<Stream>, c: seq<Update>, meant: Stream, u: Update) {
    if c == [] || Merge(c[|c| - 1], u).None? || u.Replace? then Settles(meant.through, u)
    else
      var p := c[|c| - 1];
      if p.Append? then Settles(meant.through, u) || (Held(Fold(s, c[..|c| - 1])) == p.through && meant.text.None?)
      else p.through < meant.through == u.through && meant.text == Some(p.text + u.text)
  }

  /** The final states are the same: no merge has lost anything since they last were. */
  ghost predicate FinallyExact(s: Option<Stream>, us: seq<Update>) {
    us == [] ||
    var shorter, u := us[..|us| - 1], us[|us| - 1];
    if FinallyExact(s, shorter) then StepKeepsAll(s, KeyCoalesced(shorter), u)
    else Fold(s, shorter).Some? && Recovers(s, KeyCoalesced(shorter), Fold(s, shorter).value, u)
  }

  /** Two streams at one sequence with different texts become the same exactly when the update settles. */
  lemma DifferenceStays(x: Stream, y: Stream, u: Update)
    requires WellFormed(u) && x.through == y.through && x != y
    ensures ApplyUpdate(Some(x), u).state == ApplyUpdate(Some(y), u).state <==> Settles(y.through, u)
  {
    if u.Append? && x.text.Some? && y.text.Some? {
      SuffixCancels(x.text.value, y.text.value, u.text);
    }
  }

  lemma SuffixCancels(a: string, b: string, c: string)
    ensures a + c == b + c ==> a == b
  {
    if a + c == b + c {
      assert |a| == |b|;
      assert a == (a + c)[..|a|] && b == (b + c)[..|b|];
    }
  }

  lemma MergedReplaceRecovers(f: Option<Stream>, p: Update, y: Stream, u: Update)
    requires WellFormed(p) && WellFormed(u) && u.Replace? && Merge(p, u).Some?
    requires var x := ApplyUpdate(f, p).state; x.through == y.through && x != y
    ensures ApplyUpdate(f, Merge(p, u).value).state == ApplyUpdate(Some(y), u).state <==> Settles(y.through, u)
  {
  }

  lemma MergedAppendsRecover(f: Option<Stream>, p: Update, y: Stream, u: Update)
    requires WellFormed(p) && WellFormed(u) && u.Append? && p.Append? && Merge(p, u).Some?
    requires var x := ApplyUpdate(f, p).state; x.through == y.through && x != y
    ensures ApplyUpdate(f, Merge(p, u).value).state == ApplyUpdate(Some(y), u).state
            <==> Settles(y.through, u) || (Held(f) == p.through && y.text.None?)
  {
    var x := ApplyUpdate(f, p).state;
    Reassociated(if f.Some? && f.value.text.Some? then f.value.text.value else "", p.text, u.text);
    if x.text.Some? && y.text.Some? {
      SuffixCancels(x.text.value, y.text.value, u.text);
    }
  }

  lemma MergedIntoReplaceRecovers(f: Option<Stream>, p: Update, y: Stream, u: Update)
    requires WellFormed(p) && WellFormed(u) && u.Append? && p.Replace? && Merge(p, u).Some?
    requires var x := ApplyUpdate(f, p).state; x.through == y.through && x != y
    ensures ApplyUpdate(f, Merge(p, u).value).state == ApplyUpdate(Some(y), u).state
            <==> p.through < y.through == u.through && y.text == Some(p.text + u.text)
  {
    var x := ApplyUpdate(f, p).state;
    if x.text.Some? && y.text.Some? {
      SuffixCancels(x.text.value, y.text.value, u.text);
    }
  }

  lemma RecoversIff(s: Option<Stream>, c: seq<Update>, y: Stream, u: Update)
    requires WellFormed(u) && forall v :: v in c ==> WellFormed(v)
    requires Fold(s, c).Some? && Fold(s, c).value.through == y.through && Fold(s, c).value != y
    ensures Fold(s, KeyStep(c, u)) == Some(ApplyUpdate(Some(y), u).state) <==> Recovers(s, c, y, u)
  {
    if c == [] || Merge(c[|c| - 1], u).None? {
      FoldOneMore(s, c, u);
      DifferenceStays(Fold(s, c).value, y, u);
    } else {
      var p, c0, merged := c[|c| - 1], c[..|c| - 1], Merge(c[|c| - 1], u).value;
      assert p in c && c == c0 + [p];
      FoldOneMore(s, c0, merged);
      FoldOneMore(s, c0, p);
      if u.Replace? {
        MergedReplaceRecovers(Fold(s, c0), p, y, u);
      } else if p.Append? {
        MergedAppendsRecover(Fold(s, c0), p, y, u);
      } else {
        MergedIntoReplaceRecovers(Fold(s, c0), p, y, u);
      }
    }
  }

  /** Exactly when the coalesced form leaves one stream as the original does, at the end of the batch. */
  lemma {:induction false} FinallyExactIff(s: Option<Stream>, us: seq<Update>)
    requires forall u :: u in us ==> WellFormed(u)
    ensures FinallyExact(s, us) <==> MeansTheSame(s, us)
  {
    if us != [] {
      var shorter, u := us[..|us| - 1], us[|us| - 1];
      var c := KeyCoalesced(shorter);
      assert u in us;
      FinallyExactIff(s, shorter);
      KeyCoalesceReaches(Held(s), shorter);
      if FinallyExact(s, shorter) {
        KeyStepExactIff(s, c, u);
      } else {
        DifferenceIsInText(s, shorter);
        RecoversIff(s, c, Fold(s, shorter).value, u);
      }
    }
  }

  lemma DifferenceIsInText(s: Option<Stream>, us: seq<Update>)
    requires (forall u :: u in us ==> WellFormed(u)) && !MeansTheSame(s, us)
    ensures Fold(s, us).Some? && Fold(s, KeyCoalesced(us)).Some?
    ensures Fold(s, KeyCoalesced(us)).value.through == Fold(s, us).value.through
  {
    KeyCoalesceReaches(Held(s), us);
    FoldReaches(s, us);
    FoldReaches(s, KeyCoalesced(us));
  }

  lemma FreshStepKeepsAll(s: Option<Stream>, c: seq<Update>, u: Update)
    requires WellFormed(u) && forall v :: v in c ==> WellFormed(v)
    requires LastIsFresh(Held(s), c) && (u.Append? ==> Reached(Held(s), c) < u.from)
    ensures StepKeepsAll(s, c, u) && LastIsFresh(Held(s), KeyStep(c, u))
  {
    StepStaysFresh(Held(s), c, u);
    if c != [] && Merge(c[|c| - 1], u).Some? {
      var p, c0 := c[|c| - 1], c[..|c| - 1];
      assert p in c && c == c0 + [p];
      FoldReaches(s, c0);
      FreshMergeIsExact(Fold(s, c0), p, u);
      MergeExactIff(Fold(s, c0), p, u);
    }
  }

  lemma FreshPrefix(s: nat, us: seq<Update>)
    requires us != [] && FreshFor(s, us)
    ensures FreshFor(s, us[..|us| - 1]) && (us[|us| - 1].Append? ==> Reached(s, us[..|us| - 1]) < us[|us| - 1].from)
  {
    var shorter := us[..|us| - 1];
    forall i | 0 <= i < |shorter| && shorter[i].Append? ensures Reached(s, shorter[..i]) < shorter[i].from {
      assert shorter[..i] == us[..i];
    }
  }

  /** Fresh appends are never lost. */
  lemma {:induction false} FreshIsLossless(s: Option<Stream>, us: seq<Update>)
    requires (forall u :: u in us ==> WellFormed(u)) && FreshFor(Held(s), us)
    ensures Lossless(s, us) && LastIsFresh(Held(s), KeyCoalesced(us))
  {
    if us != [] {
      var n := |us| - 1;
      assert us[n] in us;
      FreshPrefix(Held(s), us);
      FreshIsLossless(s, us[..n]);
      KeyCoalesceReaches(Held(s), us[..n]);
      FreshStepKeepsAll(s, KeyCoalesced(us[..n]), us[n]);
    }
  }

  /** The same condition on a batch in which the streams interleave. */
  ghost predicate Fresh(m: map<Key, Stream>, us: seq<Update>) {
    forall i :: 0 <= i < |us| && us[i].Append? ==>
      && Held(Lookup(m, us[i].key)) < us[i].from
      && forall j :: 0 <= j < i && us[j].key == us[i].key ==> us[j].through < us[i].from
  }

  lemma {:induction false} ReachedBelow(s: nat, us: seq<Update>, k: Key, bound: nat)
    requires s < bound
    requires forall j :: 0 <= j < |us| && us[j].key == k ==> us[j].through < bound
    ensures Reached(s, Project(us, k)) < bound
  {
    if us != [] {
      var n := |us| - 1;
      ReachedBelow(s, us[..n], k, bound);
      if us[n].key == k {
        assert Project(us, k)[..|Project(us, k)| - 1] == Project(us[..n], k);
      }
    }
  }

  lemma {:induction false} ProjectKeepsFresh(m: map<Key, Stream>, us: seq<Update>, k: Key)
    requires Fresh(m, us)
    ensures FreshFor(Held(Lookup(m, k)), Project(us, k))
  {
    if us != [] {
      var n := |us| - 1;
      ProjectKeepsFresh(m, us[..n], k);
      if us[n].key == k {
        var ps := Project(us, k);
        var s := Held(Lookup(m, k));
        assert ps[..|ps| - 1] == Project(us[..n], k);
        forall i | 0 <= i < |ps| && ps[i].Append? ensures Reached(s, ps[..i]) < ps[i].from {
          if i < |ps| - 1 {
            assert ps[..i] == ps[..|ps| - 1][..i];
          } else {
            ReachedBelow(s, us[..n], k, us[n].from);
          }
        }
      }
    }
  }

  /** No merge on the coalescer's way loses anything of any stream. */
  ghost predicate LosslessBatch(m: map<Key, Stream>, us: seq<Update>) {
    forall k :: Lossless(Lookup(m, k), Project(us, k))
  }

  /** When no merge loses, the coalesced batch means exactly what the original means: the same text, the
      same gap and the same sequence for every stream. */
  lemma CoalescingIsExact(m: map<Key, Stream>, us: seq<Update>)
    requires forall u :: u in us ==> WellFormed(u)
    requires LosslessBatch(m, us)
    ensures Receive(m, Coalesced(us)) == Receive(m, us)
  {
    forall k ensures Lookup(Receive(m, Coalesced(us)), k) == Lookup(Receive(m, us), k) {
      ProjectKeepsWellFormed(us, k);
      ReceivePerKey(m, us, k);
      ReceivePerKey(m, Coalesced(us), k);
      CoalescePerKey(us, k);
      KeyCoalesceExact(Lookup(m, k), Project(us, k));
    }
    SameLookups(Receive(m, Coalesced(us)), Receive(m, us));
  }

  /** Exactly when the coalesced batch leaves the receiver as the original does. */
  lemma CoalescingIsExactIff(m: map<Key, Stream>, us: seq<Update>)
    requires forall u :: u in us ==> WellFormed(u)
    ensures Receive(m, Coalesced(us)) == Receive(m, us) <==> forall k :: FinallyExact(Lookup(m, k), Project(us, k))
  {
    forall k ensures FinallyExact(Lookup(m, k), Project(us, k))
                     <==> Lookup(Receive(m, Coalesced(us)), k) == Lookup(Receive(m, us), k) {
      ProjectKeepsWellFormed(us, k);
      ReceivePerKey(m, us, k);
      ReceivePerKey(m, Coalesced(us), k);
      CoalescePerKey(us, k);
      FinallyExactIff(Lookup(m, k), Project(us, k));
    }
    SameLookups(Receive(m, Coalesced(us)), Receive(m, us));
  }

  lemma SameLookups(a: map<Key, Stream>, b: map<Key, Stream>)
    ensures a == b <==> forall k :: Lookup(a, k) == Lookup(b, k)
  {
    if forall k :: Lookup(a, k) == Lookup(b, k) {
      forall k ensures k in a <==> k in b {
        assert Lookup(a, k) == Lookup(b, k);
      }
      forall k | k in a ensures a[k] == b[k] {
        assert Lookup(a, k) == Lookup(b, k);
      }
    }
  }

  /** In particular when every append is fresh. */
  lemma FreshCoalescingIsExact(m: map<Key, Stream>, us: seq<Update>)
    requires forall u :: u in us ==> WellFormed(u)
    requires Fresh(m, us)
    ensures LosslessBatch(m, us) && Receive(m, Coalesced(us)) == Receive(m, us)
  {
    forall k ensures Lossless(Lookup(m, k), Project(us, k)) {
      ProjectKeepsWellFormed(us, k);
      ProjectKeepsFresh(m, us, k);
      FreshIsLossless(Lookup(m, k), Project(us, k));
    }
    CoalescingIsExact(m, us);
  }

  lemma CoalesceOneMore(us: seq<Update>, u: Update)
    ensures Coalesced(us + [u]) == CoalesceStep(Coalesced(us), u)
  {
    assert (us + [u])[..|us|] == us;
  }

  lemma ReceiveOneMore(m: map<Key, Stream>, us: seq<Update>, u: Update)
    ensures Receive(m, us + [u]) == Receive(m, us)[u.key := ApplyUpdate(Lookup(Receive(m, us), u.key), u).state]
  {
    assert (us + [u])[..|us|] == us;
  }

  lemma LastIndexOfNewest(output: seq<Update>, u: Update)
    ensures LastIndexOf(output + [u], u.key) == Some(|output|)
  {
  }

  /** A second update that follows on the only one so far is merged into it; any other is kept. */
  lemma CoalesceTwo(none: seq<Update>, a: Update, b: Update)
    requires none == [] && a.key == b.key
    ensures Coalesced(none + [a]) == none + [a]
    ensures Coalesced(none + [a] + [b])
            == if Merge(a, b).Some? then none + [Merge(a, b).value] else none + [a] + [b]
  {
    CoalesceOneMore(none, a);
    CoalesceOneMore(none + [a], b);
    LastIndexOfNewest(none, a);
  }

  /** A batch of two updates that are merged, as the receiver gets it and as it was meant. */
  ghost predicate Compare(m: map<Key, Stream>, a: Update, b: Update, meant: Stream, got: Stream) {
    var us := [a] + [b];
    Lookup(Receive(m, us), a.key) == Some(meant) && Lookup(Receive(m, Coalesced(us)), a.key) == Some(got)
  }

  lemma OneReceived(m: map<Key, Stream>, none: seq<Update>, u: Update)
    requires none == []
    ensures Receive(m, none + [u]) == m[u.key := ApplyUpdate(Lookup(m, u.key), u).state]
  {
    ReceiveOneMore(m, none, u);
  }

  lemma PairReceived(m: map<Key, Stream>, none: seq<Update>, a: Update, b: Update)
    requires none == [] && a.key == b.key
    ensures Lookup(Receive(m, none + [a] + [b]), a.key) == Some(Twice(Lookup(m, a.key), a, b))
  {
    OneReceived(m, none, a);
    ReceiveOneMore(m, none + [a], b);
  }

  lemma MergedBatch(m: map<Key, Stream>, a: Update, b: Update)
    requires a.key == b.key && Merge(a, b).Some?
    ensures Compare(m, a, b, Twice(Lookup(m, a.key), a, b), ApplyUpdate(Lookup(m, a.key), Merge(a, b).value).state)
  {
    var none: seq<Update> := [];
    assert none + [a] == [a];
    CoalesceTwo(none, a, b);
    PairReceived(m, none, a, b);
    OneReceived(m, none, Merge(a, b).value);
  }

  /** Without freshness text is lost, whenever the receiver already holds the first of two appends
      that are merged: replayed one by one they extend its text, merged they leave a gap. */
  lemma OverlapLosesText(m: map<Key, Stream>, a: Update, b: Update)
    requires WellFormed(a) && WellFormed(b) && a.Append? && b.Append? && a.key == b.key && b.from == a.through + 1
    requires a.key in m && m[a.key].text.Some? && m[a.key].through == a.through
    ensures Compare(m, a, b, Stream(Some(m[a.key].text.value + b.text), b.through), Stream(None, b.through))
  {
    MergedBatch(m, a, b);
  }

  // ---------------------------------------------------------------------------------------------
  // A second pass.

  /** Neighbours that a pass has kept apart: an append does not continue the update before it. */
  ghost predicate KeptApart(c: seq<Update>) {
    forall i :: 1 <= i < |c| && c[i].Append? ==> c[i].from != c[i - 1].through + 1
  }

  /** Nothing but appends after the first update. */
  ghost predicate AppendsFollow(c: seq<Update>) {
    forall i :: 1 <= i < |c| ==> c[i].Append?
  }

  ghost predicate OneKey(us: seq<Update>, k: Key) {
    forall u :: u in us ==> u.key == k
  }

  lemma KeyStepKeepsApart(c: seq<Update>, u: Update, k: Key)
    requires KeptApart(c) && OneKey(c, k) && u.key == k
    ensures KeptApart(KeyStep(c, u)) && OneKey(KeyStep(c, u), k) && |c| <= |KeyStep(c, u)| <= |c| + 1
    ensures u.Replace? && c != [] ==> |KeyStep(c, u)| == |c|
  {
    if c != [] {
      assert c[|c| - 1] in c;
    }
  }

  lemma {:induction false} PassKeepsApart(us: seq<Update>, k: Key)
    requires OneKey(us, k)
    ensures KeptApart(KeyCoalesced(us)) && OneKey(KeyCoalesced(us), k) && |KeyCoalesced(us)| <= |us|
  {
    if us != [] {
      assert us[|us| - 1] in us;
      PassKeepsApart(us[..|us| - 1], k);
      KeyStepKeepsApart(KeyCoalesced(us[..|us| - 1]), us[|us| - 1], k);
    }
  }

  lemma PrefixFollows(c: seq<Update>, u: Update)
    ensures AppendsFollow(c + [u]) <==> AppendsFollow(c) && (c == [] || u.Append?)
    ensures KeptApart(c + [u]) <==> KeptApart(c) && (c != [] && u.Append? ==> u.from != c[|c| - 1].through + 1)
  {
    var all := c + [u];
    assert all[|c|] == u && forall i :: 0 <= i < |c| ==> all[i] == c[i];
  }

  /** A pass leaves updates that are kept apart alone while appends follow, and shortens them otherwise. */
  lemma {:induction false} SecondPass(c: seq<Update>, k: Key)
    requires KeptApart(c) && OneKey(c, k)
    ensures if AppendsFollow(c) then KeyCoalesced(c) == c else |KeyCoalesced(c)| < |c|
  {
    if c != [] {
      var shorter, u := c[..|c| - 1], c[|c| - 1];
      assert u in c && c == shorter + [u];
      PrefixFollows(shorter, u);
      SecondPass(shorter, k);
      PassKeepsApart(shorter, k);
      KeyCoalesceNotEmpty(shorter);
      SecondPassStep(shorter, KeyCoalesced(shorter), u, k);
    }
  }

  lemma SecondPassStep(shorter: seq<Update>, done: seq<Update>, u: Update, k: Key)
    requires KeptApart(shorter + [u]) && OneKey(shorter, k) && u.key == k && KeptApart(done) && OneKey(done, k)
    requires (done == [] <==> shorter == []) && if AppendsFollow(shorter) then done == shorter else |done| < |shorter|
    ensures if AppendsFollow(shorter + [u]) then KeyStep(done, u) == shorter + [u] else |KeyStep(done, u)| < |shorter + [u]|
  {
    PrefixFollows(shorter, u);
    KeyStepKeepsApart(done, u, k);
    if shorter != [] {
      assert shorter[|shorter| - 1] in shorter;
    }
  }

  lemma {:induction false} KeyCoalesceNotEmpty(us: seq<Update>)
    ensures KeyCoalesced(us) == [] <==> us == []
  {
    if us != [] {
      KeyCoalesceNotEmpty(us[..|us| - 1]);
    }
  }

  /** Exactly when one pass over one stream is a fixed point: when it leaves no replacement behind another
      update. */
  lemma KeyPassIsFixedIff(us: seq<Update>, k: Key)
    requires OneKey(us, k)
    ensures KeyCoalesced(KeyCoalesced(us)) == KeyCoalesced(us) <==> AppendsFollow(KeyCoalesced(us))
  {
    PassKeepsApart(us, k);
    SecondPass(KeyCoalesced(us), k);
  }

  lemma {:induction false} ProjectIsOneKey(us: seq<Update>, k: Key)
    ensures OneKey(Project(us, k), k)
  {
    if us != [] {
      ProjectIsOneKey(us[..|us| - 1], k);
    }
  }

  lemma ProjectOneMore(us: seq<Update>, u: Update, k: Key)
    ensures Project(us + [u], k) == if u.key == k then Project(us, k) + [u] else Project(us, k)
  {
    assert (us + [u])[..|us|] == us;
  }

  /** The streams' updates, each stream on its own. */
  ghost predicate StreamsFixed(c: seq<Update>) {
    forall k :: KeptApart(Project(c, k)) && AppendsFollow(Project(c, k))
  }

  lemma PrefixIsFixed(c: seq<Update>, u: Update)
    requires StreamsFixed(c + [u])
    ensures StreamsFixed(c)
  {
    forall k ensures KeptApart(Project(c, k)) && AppendsFollow(Project(c, k)) {
      ProjectOneMore(c, u, k);
      var ps, longer := Project(c, k), Project(c + [u], k);
      assert KeptApart(longer) && AppendsFollow(longer);
      assert forall i :: 0 <= i < |ps| ==> ps[i] == longer[i];
    }
  }

  /** The next update of a stream that is kept apart is not merged. */
  lemma NextIsKept(c: seq<Update>, u: Update)
    requires StreamsFixed(c + [u])
    ensures CoalesceStep(c, u) == c + [u]
  {
    var i, ps := LastIndexOf(c, u.key), Project(c, u.key);
    if i.Some? {
      ProjectAfterUpdate(c, i.value, u, u.key);
      ProjectOneMore(c, u, u.key);
      assert KeptApart(ps + [u]) && AppendsFollow(ps + [u]);
      assert (ps + [u])[|ps|] == u && (ps + [u])[|ps| - 1] == c[i.value];
    }
  }

  lemma {:induction false} FixedIsLeftAlone(c: seq<Update>)
    requires StreamsFixed(c)
    ensures Coalesced(c) == c
  {
    if c != [] {
      var shorter, u := c[..|c| - 1], c[|c| - 1];
      assert c == shorter + [u];
      PrefixIsFixed(shorter, u);
      FixedIsLeftAlone(shorter);
      NextIsKept(shorter, u);
    }
  }

  ghost predicate OnlyAppendsFollow(c: seq<Update>) {
    forall k :: AppendsFollow(Project(c, k))
  }

  lemma PassKeepsStreamsApart(us: seq<Update>, k: Key)
    ensures KeptApart(Project(Coalesced(us), k))
  {
    CoalescePerKey(us, k);
    ProjectIsOneKey(us, k);
    PassKeepsApart(Project(us, k), k);
  }

  lemma FixedStream(us: seq<Update>, k: Key)
    requires Coalesced(Coalesced(us)) == Coalesced(us)
    ensures AppendsFollow(Project(Coalesced(us), k))
  {
    CoalescePerKey(us, k);
    CoalescePerKey(Coalesced(us), k);
    ProjectIsOneKey(us, k);
    KeyPassIsFixedIff(Project(us, k), k);
  }

  /** Exactly when one pass is a fixed point: when of every stream it leaves no replacement but as the
      first update. */
  lemma PassIsFixedIff(us: seq<Update>)
    ensures Coalesced(Coalesced(us)) == Coalesced(us) <==> OnlyAppendsFollow(Coalesced(us))
  {
    if Coalesced(Coalesced(us)) == Coalesced(us) {
      forall k ensures AppendsFollow(Project(Coalesced(us), k)) {
        FixedStream(us, k);
      }
    }
    if OnlyAppendsFollow(Coalesced(us)) {
      forall k ensures KeptApart(Project(Coalesced(us), k)) && AppendsFollow(Project(Coalesced(us), k)) {
        PassKeepsStreamsApart(us, k);
      }
      FixedIsLeftAlone(Coalesced(us));
    }
  }

  lemma {:induction false} AppendsStayAppends(us: seq<Update>)
    requires forall u :: u in us ==> u.Append?
    ensures forall u :: u in Coalesced(us) ==> u.Append?
  {
    if us != [] {
      var shorter, u := us[..|us| - 1], us[|us| - 1];
      assert u in us;
      AppendsStayAppends(shorter);
      var i := LastIndexOf(Coalesced(shorter), u.key);
      if i.Some? {
        assert Coalesced(shorter)[i.value] in Coalesced(shorter);
      }
    }
  }

  lemma {:induction false} ProjectHolds(us: seq<Update>, k: Key)
    ensures forall u :: u in Project(us, k) ==> u in us
  {
    if us != [] {
      ProjectHolds(us[..|us| - 1], k);
    }
  }

  /** A batch of appends only is coalesced once and for all. */
  lemma AppendsAreFixed(us: seq<Update>)
    requires forall u :: u in us ==> u.Append?
    ensures Coalesced(Coalesced(us)) == Coalesced(us)
  {
    AppendsStayAppends(us);
    forall k ensures AppendsFollow(Project(Coalesced(us), k)) {
      ProjectHolds(Coalesced(us), k);
    }
    PassIsFixedIff(us);
  }

  /** The failing family: a replacement that is merged into a later append can catch up with the append
      before it, from which that one was kept apart by a gap. */
  lemma CoalescingIsNotIdempotent(none: seq<Update>, a: Update, b: Update, c: Update)
    requires none == [] && a.key == b.key == c.key && a.Append? && b.Append? && c.Replace?
    requires b.from != a.through + 1 && a.through <= b.through <= c.through
    ensures var us := none + [a] + [b] + [c];
            && Coalesced(us) == none + [a] + [c]
            && Coalesced(Coalesced(us)) == none + [c]
  {
    CoalesceTwo(none, a, b);
    CoalesceOneMore(none + [a] + [b], c);
    LastIndexOfNewest(none + [a], b);
    CoalesceTwo(none, a, c);
  }
}
