/** Which recorded assertions are active and which are discarded, told from the fluent entries of the messages alone.
    A message may list a (context, URI) pair any number of times. */
module Reporting {
  import opened StatusMessages
  import opened History
  import opened HistoryLaws
  import opened ActiveSets

  /** The entry reports a timed assertion inside its window under the key. */
  ghost predicate Reports(ch: Chunk, key: Key) {
    ch.OfFluent?
    && exists t :: t in ch.fluent.trinaries && HasTime(t.stamp) && InWindow(ch.fluent, t.stamp)
                   && KeyOf(AssertionOf(ch.ctx, ch.fluent, t)) == key
  }

  predicate Lists(ch: Chunk, k: ActiveKey) {
    ch.OfFluent? && ch.Key() == k
  }

  /** The record of the key is in the active set of the pair. */
  ghost predicate Holds(c: Core, k: ActiveKey, key: Key) {
    key in c.seen && c.seen[key] in ActiveAt(c, k)
  }

  ghost predicate IsFlagged(c: Core, key: Key) {
    key in c.seen && DiscardKey(c.seen[key]) in c.seen
  }

  /** The latest entry that lists the pair reports the key; before any does, the store holds it there. */
  ghost predicate Standing(c: Core, chunks: seq<Chunk>, k: ActiveKey, key: Key) {
    if chunks == [] then Holds(c, k, key)
    else
      var last := chunks[|chunks| - 1];
      if Lists(last, k) then Reports(last, key) else Standing(c, chunks[..|chunks| - 1], k, key)
  }

  /** Entry `q` omits the key where it was standing. */
  ghost predicate Withdraws(c: Core, chunks: seq<Chunk>, q: int, key: Key) {
    0 <= q < |chunks| && chunks[q].OfFluent? && Standing(c, chunks[..q], chunks[q].Key(), key) && !Reports(chunks[q], key)
  }

  ghost predicate Withdrawn(c: Core, chunks: seq<Chunk>, key: Key) {
    exists q :: Withdraws(c, chunks, q, key)
  }

  ghost predicate Stands(c: Core, chunks: seq<Chunk>, key: Key) {
    exists k :: Standing(c, chunks, k, key)
  }

  // ---------- one entry ----------

  lemma OldIdOldKey(m: Core, c: Core, key: Key)
    requires Inv(m) && Inv(c) && Extends(m, c) && key in c.seen && c.seen[key].n <= |m.records|
    ensures key in m.seen
  {
    var i := c.seen[key].n - 1;
    assert KeysOf(c.records)[i] == key;
    assert KeysOf(m.records)[i] == KeysOf(c.records)[i];
  }

  /** What is new to the index is new to the records. */
  lemma NewKeyNewId(m: Core, c: Core, key: Key)
    requires Inv(m) && Inv(c) && Extends(m, c) && key in c.seen && key !in m.seen
    ensures c.seen[key].n > |m.records|
  {
    if c.seen[key].n <= |m.records| {
      OldIdOldKey(m, c, key);
    }
  }

  lemma NewKeyNotActive(m: Core, c: Core, k: ActiveKey, key: Key)
    requires Inv(m) && Inv(c) && Extends(m, c) && key in c.seen && key !in m.seen
    ensures c.seen[key] !in ActiveAt(m, k)
  {
    NewKeyNewId(m, c, key);
    assert forall id :: id in ActiveAt(m, k) ==> id.n <= |m.records|;
  }

  lemma NewKeyNotDiscarded(m: Core, c: Core, key: Key)
    requires Inv(m) && Inv(c) && Extends(m, c) && key in c.seen && key !in m.seen
    ensures DiscardKey(c.seen[key]) !in m.seen
  {
    NewKeyNewId(m, c, key);
    DiscardedWhenSeen(m, c.seen[key]);
    assert forall i :: 0 <= i < |m.records| && m.records[i].body.Discarded? ==> m.records[i].body.target.n <= i;
  }

  lemma SeenOnce(c: Core, key: Key, key': Key)
    requires Indexed(c) && key in c.seen && key' in c.seen && c.seen[key] == c.seen[key']
    ensures key == key'
  {
  }

  /** The ids of what an entry asserts are those of the keys it reports. */
  lemma ReportedIds(c: Core, ch: Chunk, key: Key)
    requires Inv(c) && Settled(c, ch) && ch.OfFluent?
    ensures Reports(ch, key) <==> key in c.seen && c.seen[key] in Ids(c, ch.Asserted())
  {
    var ctx, f := ch.ctx, ch.fluent;
    IdsAreWindowed(c, ctx, f);
    if Reports(ch, key) {
      var t :| t in f.trinaries && HasTime(t.stamp) && InWindow(f, t.stamp) && KeyOf(AssertionOf(ctx, f, t)) == key;
      AssertionBodiesAre(ctx, f, f.trinaries, AssertionOf(ctx, f, t));
      assert AssertionOf(ctx, f, t) in ch.Observed();
      assert StoredAs(c, AssertionOf(ctx, f, t), c.seen[key]);
    }
    if key in c.seen && c.seen[key] in Ids(c, ch.Asserted()) {
      var t :| t in f.trinaries && HasTime(t.stamp) && InWindow(f, t.stamp)
               && StoredAs(c, AssertionOf(ctx, f, t), c.seen[key]);
      SeenOnce(c, key, KeyOf(AssertionOf(ctx, f, t)));
    }
  }

  /** An entry decides for its own pair and leaves the others. */
  lemma StepHolds(m: Core, ch: Chunk, c: Core, k: ActiveKey, key: Key)
    requires Inv(m) && ch.WellFormed() && Step(m, ch, c)
    ensures Holds(c, k, key) <==> if Lists(ch, k) then Reports(ch, key) else Holds(m, k, key)
  {
    StepKeeps(m, ch, c);
    if Lists(ch, k) {
      StepSettles(m, ch, c);
      ReportedIds(c, ch, key);
    } else {
      StepFrame(m, ch, c, k);
      if key in c.seen && key !in m.seen {
        NewKeyNotActive(m, c, k, key);
      }
    }
  }

  /** An entry discards what was active at its pair and what it does not report. */
  lemma StepFlags(m: Core, ch: Chunk, c: Core, key: Key)
    requires Inv(m) && ch.WellFormed() && Step(m, ch, c)
    ensures IsFlagged(c, key) <==>
            IsFlagged(m, key) || (ch.OfFluent? && Holds(m, ch.Key(), key) && !Reports(ch, key))
  {
    StepKeeps(m, ch, c);
    if key in c.seen {
      StepDiscards(m, ch, c, c.seen[key]);
      if ch.OfFluent? {
        StepHolds(m, ch, c, ch.Key(), key);
      }
      if key !in m.seen {
        NewKeyNotDiscarded(m, c, key);
        if ch.OfFluent? {
          NewKeyNotActive(m, c, ch.Key(), key);
        }
      }
    }
  }

  // ---------- many entries ----------

  lemma {:induction false} RunHolds(c: Core, chunks: seq<Chunk>, c': Core, k: ActiveKey, key: Key)
    requires Inv(c) && WellFormed(chunks) && Runs(c, chunks, c')
    ensures Holds(c', k, key) <==> Standing(c, chunks, k, key)
    decreases |chunks|
  {
    if chunks != [] {
      var front, last := chunks[..|chunks| - 1], chunks[|chunks| - 1];
      var m := RunsLast(c, chunks, c');
      RunsKeep(c, front, m);
      RunHolds(c, front, m, k, key);
      StepHolds(m, last, c', k, key);
    }
  }

  lemma WithdrawsFront(c: Core, front: seq<Chunk>, last: Chunk, q: int, key: Key)
    requires 0 <= q < |front|
    ensures Withdraws(c, front + [last], q, key) <==> Withdraws(c, front, q, key)
  {
    assert (front + [last])[..q] == front[..q];
  }

  lemma WithdrawsLast(c: Core, front: seq<Chunk>, last: Chunk, key: Key)
    ensures Withdraws(c, front + [last], |front|, key) <==>
            last.OfFluent? && Standing(c, front, last.Key(), key) && !Reports(last, key)
  {
    assert (front + [last])[..|front|] == front;
  }

  lemma WithdrawnSnoc(c: Core, front: seq<Chunk>, last: Chunk, key: Key)
    ensures Withdrawn(c, front + [last], key) <==>
            Withdrawn(c, front, key) || (last.OfFluent? && Standing(c, front, last.Key(), key) && !Reports(last, key))
  {
    WithdrawsLast(c, front, last, key);
    forall q | 0 <= q < |front| ensures Withdraws(c, front + [last], q, key) == Withdraws(c, front, q, key) {
      WithdrawsFront(c, front, last, q, key);
    }
  }

  lemma RunFlagsSnoc(c: Core, chunks: seq<Chunk>, m: Core, c': Core, key: Key)
    requires Inv(c) && WellFormed(chunks) && chunks != []
    requires Runs(c, chunks[..|chunks| - 1], m) && Step(m, chunks[|chunks| - 1], c')
    requires IsFlagged(m, key) <==> IsFlagged(c, key) || Withdrawn(c, chunks[..|chunks| - 1], key)
    ensures IsFlagged(c', key) <==> IsFlagged(c, key) || Withdrawn(c, chunks, key)
  {
    var front, last := chunks[..|chunks| - 1], chunks[|chunks| - 1];
    assert front + [last] == chunks;
    RunsKeep(c, front, m);
    StepFlags(m, last, c', key);
    if last.OfFluent? {
      RunHolds(c, front, m, last.Key(), key);
    }
    WithdrawnSnoc(c, front, last, key);
  }

  lemma {:induction false} RunFlags(c: Core, chunks: seq<Chunk>, c': Core, key: Key)
    requires Inv(c) && WellFormed(chunks) && Runs(c, chunks, c')
    ensures IsFlagged(c', key) <==> IsFlagged(c, key) || Withdrawn(c, chunks, key)
    decreases |chunks|
  {
    if chunks != [] {
      var m := RunsLast(c, chunks, c');
      RunFlags(c, chunks[..|chunks| - 1], m, key);
      RunFlagsSnoc(c, chunks, m, c', key);
    }
  }

  // ---------- one message ----------

  lemma ActiveWhenHeld(c: Core, key: Key)
    requires key in c.seen
    ensures IsActive(c, c.seen[key]) <==> exists k :: Holds(c, k, key)
  {
    if IsActive(c, c.seen[key]) {
      var k :| k in c.active && c.seen[key] in c.active[k];
      assert Holds(c, k, key);
    }
    if k :| Holds(c, k, key) {
      assert k in c.active && c.seen[key] in c.active[k];
    }
  }

  lemma FlaggedMeans(c: Core, key: Key)
    requires Inv(c)
    ensures IsFlagged(c, key) <==> key in c.seen && IsDiscarded(c.records, c.seen[key])
  {
    if key in c.seen {
      DiscardedWhenSeen(c, c.seen[key]);
    }
  }

  lemma RunActive(c: Core, chunks: seq<Chunk>, c': Core, key: Key)
    requires Inv(c) && WellFormed(chunks) && Runs(c, chunks, c') && key in c'.seen
    ensures IsActive(c', c'.seen[key]) <==> Stands(c, chunks, key)
  {
    ActiveWhenHeld(c', key);
    forall k ensures Holds(c', k, key) == Standing(c, chunks, k, key) {
      RunHolds(c, chunks, c', k, key);
    }
  }

  lemma RunExactly(c: Core, chunks: seq<Chunk>, c': Core, key: Key)
    requires Inv(c) && WellFormed(chunks) && Runs(c, chunks, c') && key in c'.seen
    ensures IsActive(c', c'.seen[key]) <==> Stands(c, chunks, key)
    ensures IsDiscarded(c'.records, c'.seen[key]) <==>
              (key in c.seen && IsDiscarded(c.records, c.seen[key])) || Withdrawn(c, chunks, key)
  {
    RunsKeep(c, chunks, c');
    RunActive(c, chunks, c', key);
    RunFlags(c, chunks, c', key);
    FlaggedMeans(c, key);
    FlaggedMeans(c', key);
  }

  /** After any message: a record is active if and only if its key stands at some pair, and discarded if and only if it
      was before or some entry of the message omits it where it was standing. The right-hand sides speak of the store
      before the message, and of the message. */
  lemma ReportedExactly(c: Core, msg: StatusList, c': Core, key: Key)
    requires Inv(c) && Covered(c, {}) && Ingests(c, msg, c') && key in c'.seen
    ensures IsActive(c', c'.seen[key]) <==> Stands(c, Chunks(msg), key)
    ensures IsDiscarded(c'.records, c'.seen[key]) <==>
              (key in c.seen && IsDiscarded(c.records, c.seen[key])) || Withdrawn(c, Chunks(msg), key)
  {
    ChunksWellFormed(msg.stamp, msg.scenarios);
    RunExactly(c, Chunks(msg), c', key);
  }

  // ---------- all messages ----------

  function AllChunks(msgs: seq<StatusList>): seq<Chunk> {
    if msgs == [] then [] else AllChunks(msgs[..|msgs| - 1]) + Chunks(msgs[|msgs| - 1])
  }

  lemma ConcatStep(a: Core, xs: seq<Chunk>, ys: seq<Chunk>, m: Core, c: Core)
    requires ys != [] && Runs(a, xs + ys[..|ys| - 1], m) && Step(m, ys[|ys| - 1], c)
    ensures Runs(a, xs + ys, c)
  {
    assert (xs + ys)[..|xs + ys| - 1] == xs + ys[..|ys| - 1];
  }

  lemma {:induction false} RunsConcat(a: Core, xs: seq<Chunk>, b: Core, ys: seq<Chunk>, c: Core)
    requires Runs(a, xs, b) && Runs(b, ys, c)
    ensures Runs(a, xs + ys, c)
    decreases |ys|
  {
    if ys == [] {
      assert xs + ys == xs;
    } else {
      var m := RunsLast(b, ys, c);
      RunsConcat(a, xs, b, ys[..|ys| - 1], m);
      ConcatStep(a, xs, ys, m, c);
    }
  }

  lemma {:induction false} ReachesRuns(msgs: seq<StatusList>, c: Core)
    requires Reaches(msgs, c)
    ensures Runs(EMPTY, AllChunks(msgs), c) && WellFormed(AllChunks(msgs))
    decreases |msgs|
  {
    if msgs != [] {
      var front, last := msgs[..|msgs| - 1], msgs[|msgs| - 1];
      var m :| Reaches(front, m) && Ingests(m, last, c);
      ReachesRuns(front, m);
      RunsConcat(EMPTY, AllChunks(front), m, Chunks(last), c);
      ChunksWellFormed(last.stamp, last.scenarios);
    }
  }

  /** Entry `p` reports the key, and the later entry `q` of the same pair does not. */
  ghost predicate Retracted(chunks: seq<Chunk>, p: int, q: int, key: Key) {
    0 <= p < q < |chunks| && Reports(chunks[p], key) && Lists(chunks[q], chunks[p].Key()) && !Reports(chunks[q], key)
  }

  /** From the empty store, what stands has been reported. */
  lemma {:induction false} StandingReported(chunks: seq<Chunk>, k: ActiveKey, key: Key) returns (p: nat)
    requires Standing(EMPTY, chunks, k, key)
    ensures p < |chunks| && Lists(chunks[p], k) && Reports(chunks[p], key)
    decreases |chunks|
  {
    var n := |chunks| - 1;
    if Lists(chunks[n], k) {
      p := n;
    } else {
      p := StandingReported(chunks[..n], k, key);
    }
  }

  /** What was reported and does not stand has been retracted. */
  lemma {:induction false} NotStanding(c: Core, chunks: seq<Chunk>, p: nat, key: Key) returns (q: nat)
    requires p < |chunks| && Reports(chunks[p], key) && !Standing(c, chunks, chunks[p].Key(), key)
    ensures Retracted(chunks, p, q, key)
    decreases |chunks|
  {
    var n := |chunks| - 1;
    if Lists(chunks[n], chunks[p].Key()) {
      q := n;
    } else {
      q := NotStanding(c, chunks[..n], p, key);
    }
  }

  /** The first retraction withdraws what was standing. */
  lemma {:induction false} RetractedWithdraws(c: Core, chunks: seq<Chunk>, p: nat, q: nat, key: Key) returns (w: nat)
    requires Retracted(chunks, p, q, key)
    ensures Withdraws(c, chunks, w, key)
    decreases q
  {
    if Standing(c, chunks[..q], chunks[q].Key(), key) {
      w := q;
    } else {
      var q' := NotStanding(c, chunks[..q], p, key);
      w := RetractedWithdraws(c, chunks, p, q', key);
    }
  }

  ghost predicate RetractedEver(chunks: seq<Chunk>, key: Key) {
    exists p, q :: Retracted(chunks, p, q, key)
  }

  lemma WithdrawnRetracted(chunks: seq<Chunk>, key: Key)
    ensures Withdrawn(EMPTY, chunks, key) <==> RetractedEver(chunks, key)
  {
    if Withdrawn(EMPTY, chunks, key) {
      var w :| Withdraws(EMPTY, chunks, w, key);
      var p := StandingReported(chunks[..w], chunks[w].Key(), key);
      assert Retracted(chunks, p, w, key);
    }
    if RetractedEver(chunks, key) {
      var p, q :| Retracted(chunks, p, q, key);
      var w := RetractedWithdraws(EMPTY, chunks, p, q, key);
    }
  }

  /** For any sequence of messages: a record is active if and only if the latest entry of some pair reports its key,
      and discarded if and only if some entry of a pair reported the key and a later entry of that pair did not. */
  lemma HistoryExactly(msgs: seq<StatusList>, c: Core, key: Key)
    requires Reaches(msgs, c) && key in c.seen
    ensures IsActive(c, c.seen[key]) <==> Stands(EMPTY, AllChunks(msgs), key)
    ensures IsDiscarded(c.records, c.seen[key]) <==> RetractedEver(AllChunks(msgs), key)
  {
    ReachesRuns(msgs, c);
    RunExactly(EMPTY, AllChunks(msgs), c, key);
    WithdrawnRetracted(AllChunks(msgs), key);
  }

  // ---------- what reappears ----------

  /** Entry `r` is the latest of its pair and reports the key. */
  ghost predicate ReportedLast(chunks: seq<Chunk>, r: int, key: Key) {
    && 0 <= r < |chunks| && Reports(chunks[r], key)
    && forall s :: r < s < |chunks| ==> !Lists(chunks[s], chunks[r].Key())
  }

  lemma {:induction false} LastStands(c: Core, chunks: seq<Chunk>, r: int, key: Key)
    requires ReportedLast(chunks, r, key)
    ensures Standing(c, chunks, chunks[r].Key(), key)
    decreases |chunks|
  {
    if r < |chunks| - 1 {
      LastStands(c, chunks[..|chunks| - 1], r, key);
    }
  }

  /** From any state of the store and through any entries: once a pair has reported an assertion and then omitted it,
      the assertion stays discarded, also while it is active again, at that pair or another. */
  lemma ReappearingStaysDiscarded(c: Core, chunks: seq<Chunk>, c': Core, p: int, q: int, r: int, key: Key)
    requires Inv(c) && WellFormed(chunks) && Runs(c, chunks, c')
    requires Retracted(chunks, p, q, key) && ReportedLast(chunks, r, key)
    ensures key in c'.seen && IsActive(c', c'.seen[key]) && IsDiscarded(c'.records, c'.seen[key])
  {
    LastStands(c, chunks, r, key);
    RunHolds(c, chunks, c', chunks[r].Key(), key);
    assert Stands(c, chunks, key);
    var w := RetractedWithdraws(c, chunks, p, q, key);
    assert Withdrawn(c, chunks, key);
    RunExactly(c, chunks, c', key);
  }
}
