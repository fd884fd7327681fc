/** What a receiver of preview updates holds after any batch, told from the updates alone, and where a
    coalesced batch puts each stream. */
module PreviewReceiver {
  import opened Wrappers
  import opened Preview

  /** The update takes a receiver that has reached `r` further, or replaces what it holds there. */
  predicate Counts(r: nat, u: Update) {
    if u.Replace? then r <= u.through else r < u.through
  }

  /** It counts, and leaves something out. */
  predicate Skips(r: nat, u: Update) {
    u.Append? && r < u.through && u.from != r + 1
  }

  predicate TextKnown(s: Option<Stream>) {
    s.Some? ==> s.value.text.Some?
  }

  function KnownText(s: Option<Stream>): string
    requires TextKnown(s)
  {
    if s.Some? then s.value.text.value else ""
  }

  /** How far the receiver is before the `i`-th update. */
  function ReachedBefore(s: Option<Stream>, us: seq<Update>, i: nat): nat
    requires i <= |us|
  {
    Reached(Held(s), us[..i])
  }

  /** The text is known at the start of the batch, or the update before the `i`-th one replaced it. */
  predicate KnownFrom(s: Option<Stream>, us: seq<Update>, i: nat)
    requires i <= |us|
  {
    if i == 0 then TextKnown(s) else us[i - 1].Replace? && Counts(ReachedBefore(s, us, i - 1), us[i - 1])
  }

  ghost predicate NothingSkipped(s: Option<Stream>, us: seq<Update>, i: nat) {
    forall j :: i <= j < |us| ==> !Skips(ReachedBefore(s, us, j), us[j])
  }

  /** There is a moment from which the text is known and nothing is left out after it. */
  ghost predicate EverKnown(s: Option<Stream>, us: seq<Update>) {
    exists i :: 0 <= i <= |us| && KnownFrom(s, us, i) && NothingSkipped(s, us, i)
  }

  lemma EverKnownOfPrefix(s: Option<Stream>, us: seq<Update>, shorter: seq<Update>)
    requires us != [] && shorter == us[..|us| - 1]
    ensures EverKnown(s, us)
            <==> KnownFrom(s, us, |us|) || (EverKnown(s, shorter) && !Skips(Reached(Held(s), shorter), us[|us| - 1]))
  {
    var n := |shorter|;
    assert forall i {:trigger shorter[..i]} :: 0 <= i <= n ==> shorter[..i] == us[..i];
    assert forall i :: 0 <= i <= n ==> ReachedBefore(s, shorter, i) == ReachedBefore(s, us, i);
    assert forall i :: 0 <= i <= n ==> (KnownFrom(s, shorter, i) <==> KnownFrom(s, us, i));
    assert us[..n] == shorter && ReachedBefore(s, us, n) == Reached(Held(s), shorter);
    forall i | 0 <= i <= n ensures NothingSkipped(s, us, i) <==> NothingSkipped(s, shorter, i) && !Skips(ReachedBefore(s, us, n), us[n]) {
      assert forall j :: i <= j < n ==> shorter[j] == us[j];
    }
    assert NothingSkipped(s, us, |us|);
  }

  /** A receiver knows the text of a stream exactly when it has known it at some moment, at the start or
      after a replacement that counted, and no update since then has left anything out. */
  lemma {:induction false} TextIsKnownIff(s: Option<Stream>, us: seq<Update>)
    requires forall u :: u in us ==> WellFormed(u)
    ensures TextKnown(Fold(s, us)) <==> EverKnown(s, us)
  {
    if us == [] {
      assert KnownFrom(s, us, 0) == TextKnown(s) && NothingSkipped(s, us, 0);
    } else {
      var shorter, u := us[..|us| - 1], us[|us| - 1];
      assert u in us;
      TextIsKnownIff(s, shorter);
      FoldReaches(s, shorter);
      EverKnownOfPrefix(s, us, shorter);
      assert ReachedBefore(s, us, |us| - 1) == Reached(Held(s), shorter);
      KnownAfter(Fold(s, shorter), u);
    }
  }

  lemma KnownAfter(s: Option<Stream>, u: Update)
    requires WellFormed(u)
    ensures TextKnown(Some(ApplyUpdate(s, u).state))
            <==> (u.Replace? && Counts(Held(s), u)) || (TextKnown(s) && !Skips(Held(s), u))
  {
  }

  /** The text that counts: the last replacement that counts, and every append that counts after it. */
  function Assembled(s: Option<Stream>, us: seq<Update>): string {
    if us == [] then (if TextKnown(s) then KnownText(s) else "")
    else
      var shorter, u := us[..|us| - 1], us[|us| - 1];
      if !Counts(Reached(Held(s), shorter), u) then Assembled(s, shorter)
      else if u.Replace? then u.text
      else Assembled(s, shorter) + u.text
  }

  /** What a receiver knows is the text that counts, whatever it was sent twice or out of order. */
  lemma {:induction false} KnownTextIsAssembled(s: Option<Stream>, us: seq<Update>)
    requires (forall u :: u in us ==> WellFormed(u)) && TextKnown(Fold(s, us))
    ensures KnownText(Fold(s, us)) == Assembled(s, us)
  {
    if us != [] {
      var shorter, u := us[..|us| - 1], us[|us| - 1];
      assert u in us;
      FoldReaches(s, shorter);
      KnownAfter(Fold(s, shorter), u);
      if TextKnown(Fold(s, shorter)) {
        KnownTextIsAssembled(s, shorter);
      }
    }
  }

  /** What a receiver answers to the next update: that it has it already, exactly when it does not count;
      that something is missing, exactly when an append counts and leaves something out or follows text
      that is lost; and that it is applied otherwise. */
  lemma AnswerIsExact(s: Option<Stream>, us: seq<Update>, u: Update)
    requires WellFormed(u) && forall v :: v in us ==> WellFormed(v)
    ensures var answer, r := ApplyUpdate(Fold(s, us), u).status, Reached(Held(s), us);
            && (answer.Duplicate? <==> !Counts(r, u))
            && (answer.Gap? <==> u.Append? && Counts(r, u) && (Skips(r, u) || !EverKnown(s, us)))
  {
    FoldReaches(s, us);
    TextIsKnownIff(s, us);
  }

  // ---------------------------------------------------------------------------------------------
  // Order.

  /** The streams of a batch in the order in which they first occur. */
  function Streams(us: seq<Update>): seq<Key> {
    if us == [] then []
    else
      var before := Streams(us[..|us| - 1]);
      if us[|us| - 1].key in before then before else before + [us[|us| - 1].key]
  }

  lemma StreamsOneMore(us: seq<Update>, u: Update)
    ensures Streams(us + [u]) == if u.key in Streams(us) then Streams(us) else Streams(us) + [u.key]
  {
    assert (us + [u])[..|us|] == us;
  }

  lemma {:induction false} StreamsAfterUpdate(us: seq<Update>, i: nat, u: Update)
    requires i < |us| && us[i].key == u.key
    ensures Streams(us[i := u]) == Streams(us)
  {
    var n := |us| - 1;
    if i < n {
      assert us[i := u][..n] == us[..n][i := u];
      StreamsAfterUpdate(us[..n], i, u);
    } else {
      assert us[i := u][..n] == us[..n];
    }
  }

  lemma {:induction false} StreamsAreIndexed(us: seq<Update>, k: Key)
    ensures k in Streams(us) <==> LastIndexOf(us, k).Some?
  {
    if us != [] {
      StreamsAreIndexed(us[..|us| - 1], k);
    }
  }

  /** Coalescing keeps the order in which the streams first occur. */
  lemma {:induction false} CoalescingKeepsOrder(us: seq<Update>)
    ensures Streams(Coalesced(us)) == Streams(us)
  {
    if us != [] {
      var before, u := Coalesced(us[..|us| - 1]), us[|us| - 1];
      CoalescingKeepsOrder(us[..|us| - 1]);
      var i := LastIndexOf(before, u.key);
      StreamsAreIndexed(before, u.key);
      StreamsOneMore(before, u);
      if i.Some? && Merge(before[i.value], u).Some? {
        StreamsAfterUpdate(before, i.value, Merge(before[i.value], u).value);
      }
    }
  }

  // ---------------------------------------------------------------------------------------------
  // A batch without gaps.

  /** Appends of one stream, each of which goes on where the one before it ended. */
  ghost predicate Contiguous(us: seq<Update>) {
    && (forall u :: u in us ==> u.Append? && u.key == us[0].key)
    && (forall i :: 0 < i < |us| ==> us[i].from == us[i - 1].through + 1)
  }

  function Texts(us: seq<Update>): string {
    if us == [] then "" else Texts(us[..|us| - 1]) + us[|us| - 1].text
  }

  /** Such a batch becomes one update, with all the text. */
  lemma {:induction false} ContiguousBecomesOne(us: seq<Update>)
    requires us != [] && Contiguous(us)
    ensures Coalesced(us) == [Append(us[0].key, us[0].from, us[|us| - 1].through, Texts(us))]
  {
    var n := |us| - 1;
    var shorter, u := us[..n], us[n];
    assert u in us && us[0] in us;
    if n == 0 {
      assert shorter == [];
      assert Coalesced(us) == [u] && Texts(us) == u.text;
    } else {
      assert forall v :: v in shorter ==> v in us;
      ContiguousBecomesOne(shorter);
      var one := Coalesced(shorter)[0];
      assert Coalesced(shorter) == [one] && LastIndexOf([one], u.key) == Some(0);
      assert [one][0 := Merge(one, u).value] == [Merge(one, u).value];
    }
  }
}
