/** What every history produced by ingesting status messages satisfies. */
module HistoryLaws {
  import opened StatusMessages
  import opened History

  // ---------- runs over chunks ----------

  lemma RunsSnoc(c: Core, chunks: seq<Chunk>, m: Core, ch: Chunk, c': Core)
    requires Runs(c, chunks, m) && Step(m, ch, c')
    ensures Runs(c, chunks + [ch], c')
  {
    assert (chunks + [ch])[..|chunks + [ch]| - 1] == chunks;
  }

  /** The state before the last chunk of a run. */
  lemma RunsLast(c: Core, chunks: seq<Chunk>, c': Core) returns (m: Core)
    requires chunks != [] && Runs(c, chunks, c')
    ensures Runs(c, chunks[..|chunks| - 1], m) && Step(m, chunks[|chunks| - 1], c')
  {
    var front, last := chunks[..|chunks| - 1], chunks[|chunks| - 1];
    m :| Runs(c, front, m) && Step(m, last, c');
  }

  ghost predicate WellFormed(chunks: seq<Chunk>) {
    forall ch :: ch in chunks ==> ch.WellFormed()
  }

  lemma ScenarioWellFormed(stamp: Stamp, s: Scenario)
    ensures WellFormed(ScenarioChunks(stamp, s))
  {
  }

  lemma {:induction false} ChunksWellFormed(stamp: Stamp, ss: seq<Scenario>)
    ensures WellFormed(ScenariosChunks(stamp, ss))
  {
    if ss != [] {
      ChunksWellFormed(stamp, ss[..|ss| - 1]);
      ScenarioWellFormed(stamp, ss[|ss| - 1]);
    }
  }

  lemma {:induction false} RunsKeep(c: Core, chunks: seq<Chunk>, c': Core)
    requires Inv(c) && WellFormed(chunks) && Runs(c, chunks, c')
    ensures Inv(c') && Extends(c, c')
    ensures Covered(c, {}) ==> Covered(c', {})
    decreases |chunks|
  {
    if chunks != [] {
      var n := |chunks| - 1;
      var front, last := chunks[..n], chunks[n];
      var m := RunsLast(c, chunks, c');
      RunsKeep(c, front, m);
      StepKeeps(m, last, c');
      if Covered(c, {}) {
        StepCovers(m, last, c');
      }
    }
  }

  /** One message keeps the invariants, and the old history is a prefix of the new one. */
  lemma IngestKeeps(c: Core, msg: StatusList, c': Core)
    requires Inv(c) && Covered(c, {}) && Ingests(c, msg, c')
    ensures Inv(c') && Covered(c', {}) && Extends(c, c')
  {
    ChunksWellFormed(msg.stamp, msg.scenarios);
    RunsKeep(c, Chunks(msg), c');
  }

  lemma {:induction false} ReachableInv(msgs: seq<StatusList>, c: Core)
    requires Reaches(msgs, c)
    ensures Inv(c) && Covered(c, {})
    decreases |msgs|
  {
    if msgs != [] {
      var n := |msgs| - 1;
      var front, last := msgs[..n], msgs[n];
      var m :| Reaches(front, m) && Ingests(m, last, c);
      ReachableInv(front, m);
      IngestKeeps(m, last, c);
    }
  }

  // ---------- conservation of assertions ----------

  lemma DiscardedWhenSeen(c: Core, id: RecordId)
    requires Inv(c)
    ensures IsDiscarded(c.records, id) <==> DiscardKey(id) in c.seen
  {
    if DiscardKey(id) in c.seen {
      var i := c.seen[DiscardKey(id)].n - 1;
      assert KeysOf(c.records)[i] == DiscardKey(id);
      assert c.records[i].body.Discarded? && c.records[i].body.target == id;
    }
    if IsDiscarded(c.records, id) {
      var i :| 0 <= i < |c.records| && c.records[i].body.Discarded? && c.records[i].body.target == id;
      assert KeysOf(c.records)[i] == DiscardKey(id);
    }
  }

  lemma NothingLost(c: Core)
    requires Inv(c) && Covered(c, {})
    ensures forall i :: 0 <= i < |c.records| && IsAssertion(c.records[i].body) ==>
              IsActive(c, c.records[i].Id()) || IsDiscarded(c.records, c.records[i].Id())
  {
    forall i | 0 <= i < |c.records| && IsAssertion(c.records[i].body)
      ensures IsActive(c, c.records[i].Id()) || IsDiscarded(c.records, c.records[i].Id())
    {
      DiscardedWhenSeen(c, R(i + 1));
    }
  }

  lemma DistinctKeys(c: Core, i: nat, j: nat)
    requires Inv(c) && i < j < |c.records|
    ensures KeyOf(c.records[i].body) != KeyOf(c.records[j].body)
  {
    var keys := KeysOf(c.records);
    assert c.seen[keys[i]] == R(i + 1) && c.seen[keys[j]] == R(j + 1);
  }

  lemma DiscardsDistinct(c: Core)
    requires Inv(c)
    ensures forall i, j :: 0 <= i < j < |c.records| && c.records[i].body.Discarded? && c.records[j].body.Discarded? ==>
              c.records[i].body.target != c.records[j].body.target
  {
    forall i, j | 0 <= i < j < |c.records| && c.records[i].body.Discarded? && c.records[j].body.Discarded?
      ensures c.records[i].body.target != c.records[j].body.target
    {
      DistinctKeys(c, i, j);
    }
  }

  /** No assertion is lost, no discard is dangling, and no assertion is discarded twice. */
  lemma Conservation(msgs: seq<StatusList>, c: Core)
    requires Reaches(msgs, c)
    ensures forall i :: 0 <= i < |c.records| && IsAssertion(c.records[i].body) ==>
              IsActive(c, c.records[i].Id()) || IsDiscarded(c.records, c.records[i].Id())
    ensures forall i :: 0 <= i < |c.records| && c.records[i].body.Discarded? ==>
              var d := c.records[i].body;
              1 <= d.target.n <= i && c.records[d.target.n - 1].Id() == d.target
              && IsAssertion(c.records[d.target.n - 1].body) && c.records[d.target.n - 1].body.ctx == d.ctx
    ensures forall i, j :: 0 <= i < j < |c.records| && c.records[i].body.Discarded? && c.records[j].body.Discarded? ==>
              c.records[i].body.target != c.records[j].body.target
  {
    ReachableInv(msgs, c);
    NothingLost(c);
    DiscardsDistinct(c);
  }

  // ---------- deduplication ----------

  /** Everything in `bs` except what has the key `k`. */
  function Without(bs: seq<Body>, k: Key): seq<Body> {
    if bs == [] then []
    else if KeyOf(bs[0]) == k then Without(bs[1..], k)
    else [bs[0]] + Without(bs[1..], k)
  }

  /** The reference meaning of deduplication: keep each body that no earlier one shares its key with. */
  function FirstOccurrences(bs: seq<Body>): seq<Body>
    decreases |bs|
  {
    if bs == [] then []
    else [bs[0]] + Without(FirstOccurrences(bs[1..]), KeyOf(bs[0]))
  }

  function NonDiscards(rs: seq<Record>): seq<Body> {
    if rs == [] then []
    else
      NonDiscards(rs[..|rs| - 1])
      + if rs[|rs| - 1].body.Discarded? then [] else [rs[|rs| - 1].body]
  }

  lemma {:induction false} WithoutSnoc(bs: seq<Body>, b: Body, k: Key)
    ensures Without(bs + [b], k) == Without(bs, k) + if KeyOf(b) == k then [] else [b]
  {
    if bs != [] {
      assert (bs + [b])[1..] == bs[1..] + [b];
      WithoutSnoc(bs[1..], b, k);
    }
  }

  /** A body at the end is kept exactly when its key is new. */
  lemma {:induction false} FirstOccurrencesSnoc(bs: seq<Body>, b: Body)
    ensures FirstOccurrences(bs + [b]) ==
            FirstOccurrences(bs) + if KeyOf(b) in BodyKeys(bs) then [] else [b]
    decreases |bs|
  {
    if bs == [] {
      assert bs + [b] == [b];
      assert FirstOccurrences([]) == [];
    } else {
      var h, t := bs[0], bs[1..];
      assert (bs + [b])[1..] == t + [b];
      assert BodyKeys(bs) == [KeyOf(h)] + BodyKeys(t);
      FirstOccurrencesSnoc(t, b);
      if KeyOf(b) in BodyKeys(t) {
        assert FirstOccurrences(t + [b]) == FirstOccurrences(t);
      } else {
        WithoutSnoc(FirstOccurrences(t), b, KeyOf(h));
      }
    }
  }

  /** `c` stores the first occurrences of the observations `s`. */
  ghost predicate Dedups(c: Core, s: seq<Body>) {
    && NonDiscards(c.records) == FirstOccurrences(s)
    && forall k: Key :: !k.DiscardKey? ==> (k in c.seen <==> k in BodyKeys(s))
  }

  lemma DedupOne(c: Core, s: seq<Body>, b: Body)
    requires Dedups(c, s) && !b.Discarded?
    ensures Dedups(Add(c, b), s + [b])
  {
    FirstOccurrencesSnoc(s, b);
    assert BodyKeys(s + [b]) == BodyKeys(s) + [KeyOf(b)];
    var c' := Add(c, b);
    if KeyOf(b) !in c.seen {
      assert c'.records[..|c'.records| - 1] == c.records;
    }
  }

  lemma DedupSnoc(m: Core, s: seq<Body>, bs: seq<Body>)
    requires bs != [] && Dedups(m, s + bs[..|bs| - 1]) && !bs[|bs| - 1].Discarded?
    ensures Dedups(Add(m, bs[|bs| - 1]), s + bs)
  {
    var front, last := s + bs[..|bs| - 1], bs[|bs| - 1];
    DedupOne(m, front, last);
    assert front + [last] == s + bs;
  }

  lemma {:induction false} DedupMany(c: Core, s: seq<Body>, bs: seq<Body>)
    requires Dedups(c, s) && forall b :: b in bs ==> !b.Discarded?
    ensures Dedups(AddAll(c, bs), s + bs)
    decreases |bs|
  {
    if bs == [] {
      assert s + bs == s;
    } else {
      var n := |bs| - 1;
      DedupMany(c, s, bs[..n]);
      assert bs[n] in bs;
      DedupSnoc(AddAll(c, bs[..n]), s, bs);
    }
  }

  /** Discard records do not disturb the deduplicated observations. */
  lemma {:induction false} DedupDiscards(c: Core, s: seq<Body>, ds: seq<Body>)
    requires Dedups(c, s) && forall b :: b in ds ==> b.Discarded?
    ensures Dedups(AddAll(c, ds), s)
    decreases |ds|
  {
    if ds != [] {
      var n := |ds| - 1;
      DedupDiscards(c, s, ds[..n]);
      var m, d := AddAll(c, ds[..n]), ds[n];
      assert d in ds;
      if KeyOf(d) !in m.seen {
        assert Add(m, d).records[..|m.records|] == m.records;
      }
    }
  }

  lemma ObservedNoDiscard(ch: Chunk)
    requires ch.WellFormed()
    ensures forall b :: b in ch.Observed() ==> !b.Discarded?
  {
    if ch.OfFluent? {
      AssertionsAre(ch.ctx, ch.fluent, ch.fluent.trinaries);
    }
  }

  lemma DedupStep(c: Core, s: seq<Body>, ch: Chunk, c': Core)
    requires Dedups(c, s) && ch.WellFormed() && Step(c, ch, c')
    ensures Dedups(c', s + ch.Observed())
  {
    ObservedNoDiscard(ch);
    DedupMany(c, s, ch.Observed());
    if ch.OfFluent? {
      var order :| Enumerates(order, Stale(c, ch)) && c' == FluentPost(c, ch, order);
      DedupDiscards(AddAll(c, ch.Observed()), s + ch.Observed(), Discards(ch.ctx, ch.stamp, order));
    }
  }

  lemma {:induction false} DedupRuns(c: Core, s: seq<Body>, chunks: seq<Chunk>, c': Core)
    requires Dedups(c, s) && WellFormed(chunks) && Runs(c, chunks, c')
    ensures Dedups(c', s + Observed(chunks))
    decreases |chunks|
  {
    if chunks == [] {
      assert s + Observed(chunks) == s;
    } else {
      var n := |chunks| - 1;
      var front, last := chunks[..n], chunks[n];
      var m := RunsLast(c, chunks, c');
      var s1 := s + Observed(front);
      DedupRuns(c, s, front, m);
      DedupStep(m, s1, last, c');
      assert Observed(chunks) == Observed(front) + last.Observed();
      assert s + Observed(chunks) == s1 + last.Observed();
    }
  }

  /** The dictionary-based store refines "first occurrence in the concatenation of all messages". */
  lemma {:induction false} Deduplication(msgs: seq<StatusList>, c: Core)
    requires Reaches(msgs, c)
    ensures NonDiscards(c.records) == FirstOccurrences(Stream(msgs))
    ensures forall k: Key :: !k.DiscardKey? ==> (k in c.seen <==> k in BodyKeys(Stream(msgs)))
    decreases |msgs|
  {
    if msgs != [] {
      var n := |msgs| - 1;
      var front, last := msgs[..n], msgs[n];
      var m :| Reaches(front, m) && Ingests(m, last, c);
      Deduplication(front, m);
      ChunksWellFormed(last.stamp, last.scenarios);
      DedupRuns(m, Stream(front), Chunks(last), c);
      assert Dedups(c, Stream(msgs));
    }
  }

  lemma SeenPairs(c: Core)
    requires Numbered(c.records) && Indexed(c)
    ensures forall i :: 0 <= i < |c.records| ==>
              c.records[i].sequence == i + 1
              && KeyOf(c.records[i].body) in c.seen && c.seen[KeyOf(c.records[i].body)] == c.records[i].Id()
    ensures forall k :: k in c.seen ==>
              1 <= c.seen[k].n <= |c.records| && KeyOf(c.records[c.seen[k].n - 1].body) == k
  {
    var keys := KeysOf(c.records);
    forall i | 0 <= i < |c.records|
      ensures KeyOf(c.records[i].body) in c.seen && c.seen[KeyOf(c.records[i].body)] == c.records[i].Id()
    {
      assert keys[i] == KeyOf(c.records[i].body);
    }
    forall k | k in c.seen ensures KeyOf(c.records[c.seen[k].n - 1].body) == k {
      assert keys[c.seen[k].n - 1] == k;
    }
  }

  lemma RecordKey(c: Core, i: nat)
    requires Inv(c) && i < |c.records|
    ensures KeyOf(c.records[i].body) in c.seen && c.seen[KeyOf(c.records[i].body)] == c.records[i].Id() == R(i + 1)
  {
    assert KeysOf(c.records)[i] == KeyOf(c.records[i].body);
  }

  lemma KeyRecord(c: Core, key: Key)
    requires Inv(c) && key in c.seen
    ensures 1 <= c.seen[key].n <= |c.records| && KeyOf(c.records[c.seen[key].n - 1].body) == key
    ensures c.records[c.seen[key].n - 1].Id() == c.seen[key]
  {
    assert KeysOf(c.records)[c.seen[key].n - 1] == key;
  }

  lemma ReachableRecord(msgs: seq<StatusList>, c: Core, i: nat)
    requires Reaches(msgs, c) && i < |c.records|
    ensures KeyOf(c.records[i].body) in c.seen && c.seen[KeyOf(c.records[i].body)] == c.records[i].Id() == R(i + 1)
  {
    ReachableInv(msgs, c);
    RecordKey(c, i);
  }

  lemma ReachableKey(msgs: seq<StatusList>, c: Core, key: Key)
    requires Reaches(msgs, c) && key in c.seen
    ensures 1 <= c.seen[key].n <= |c.records| && KeyOf(c.records[c.seen[key].n - 1].body) == key
    ensures c.records[c.seen[key].n - 1].Id() == c.seen[key]
  {
    ReachableInv(msgs, c);
    KeyRecord(c, key);
  }

  /** A key that is not a discard's is known exactly when it was observed. */
  lemma ObservedKey(msgs: seq<StatusList>, c: Core, key: Key)
    requires Reaches(msgs, c) && !key.DiscardKey?
    ensures key in c.seen <==> key in BodyKeys(Stream(msgs))
  {
    Deduplication(msgs, c);
  }

  /** Records are numbered 1..n, and `seen` pairs their keys with their ids one to one. */
  lemma SeenIsABijection(msgs: seq<StatusList>, c: Core)
    requires Reaches(msgs, c)
    ensures forall i :: 0 <= i < |c.records| ==>
              c.records[i].sequence == i + 1
              && KeyOf(c.records[i].body) in c.seen && c.seen[KeyOf(c.records[i].body)] == c.records[i].Id()
    ensures forall k :: k in c.seen ==>
              1 <= c.seen[k].n <= |c.records| && KeyOf(c.records[c.seen[k].n - 1].body) == k
  {
    ReachableInv(msgs, c);
    SeenPairs(c);
  }
}
