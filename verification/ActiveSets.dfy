/** What one status message does to the active sets and to the discards, and why repeating it does nothing. */
module ActiveSets {
  import opened StatusMessages
  import opened History
  import opened HistoryLaws

  ghost predicate Distinct<T>(s: seq<T>) {
    forall i, j :: 0 <= i < j < |s| ==> s[i] != s[j]
  }

  /** The (context, fluent URI) pairs that a message lists, in order. */
  function FluentKeys(ctx: string, fs: seq<Fluent>): seq<ActiveKey> {
    seq(|fs|, i requires 0 <= i < |fs| => ActiveKey(ctx, fs[i].uri))
  }

  function ListedKeys(ss: seq<Scenario>): seq<ActiveKey> {
    if ss == [] then []
    else ListedKeys(ss[..|ss| - 1]) + FluentKeys(ss[|ss| - 1].contextId, ss[|ss| - 1].fluents)
  }

  function ChunkKeys(chunks: seq<Chunk>): seq<ActiveKey> {
    if chunks == [] then []
    else
      var last := chunks[|chunks| - 1];
      ChunkKeys(chunks[..|chunks| - 1]) + if last.OfFluent? then [last.Key()] else []
  }

  lemma {:induction false} ChunkKeysConcat(xs: seq<Chunk>, ys: seq<Chunk>)
    ensures ChunkKeys(xs + ys) == ChunkKeys(xs) + ChunkKeys(ys)
    decreases |ys|
  {
    if ys == [] {
      assert xs + ys == xs;
    } else {
      var n := |ys| - 1;
      assert (xs + ys)[..|xs + ys| - 1] == xs + ys[..n];
      ChunkKeysConcat(xs, ys[..n]);
    }
  }

  lemma {:induction false} FluentChunkKeys(ctx: string, stamp: Stamp, fs: seq<Fluent>)
    ensures ChunkKeys(FluentChunks(ctx, stamp, fs)) == FluentKeys(ctx, fs)
    decreases |fs|
  {
    if fs != [] {
      var n := |fs| - 1;
      assert FluentChunks(ctx, stamp, fs)[..n] == FluentChunks(ctx, stamp, fs[..n]);
      FluentChunkKeys(ctx, stamp, fs[..n]);
      assert FluentKeys(ctx, fs) == FluentKeys(ctx, fs[..n]) + [ActiveKey(ctx, fs[n].uri)];
    }
  }

  lemma ScenarioChunkKeys(stamp: Stamp, s: Scenario)
    ensures ChunkKeys(ScenarioChunks(stamp, s)) == FluentKeys(s.contextId, s.fluents)
  {
    var first := [Plain(StartBodies(s) + EventBodies(s.contextId, s.events) + BehaviourBodies(s))];
    var mid := FluentChunks(s.contextId, stamp, s.fluents);
    var last := [Plain(EndBodies(s))];
    ChunkKeysConcat(first + mid, last);
    ChunkKeysConcat(first, mid);
    FluentChunkKeys(s.contextId, stamp, s.fluents);
    assert ChunkKeys([]) == [];
    assert ChunkKeys(first) == [] && ChunkKeys(last) == [];
  }

  lemma {:induction false} MessageChunkKeys(stamp: Stamp, ss: seq<Scenario>)
    ensures ChunkKeys(ScenariosChunks(stamp, ss)) == ListedKeys(ss)
    decreases |ss|
  {
    if ss != [] {
      var n := |ss| - 1;
      MessageChunkKeys(stamp, ss[..n]);
      ScenarioChunkKeys(stamp, ss[n]);
      ChunkKeysConcat(ScenariosChunks(stamp, ss[..n]), ScenarioChunks(stamp, ss[n]));
    }
  }

  lemma {:induction false} ListedFluentHasChunk(stamp: Stamp, ss: seq<Scenario>, i: nat, j: nat)
    requires i < |ss| && j < |ss[i].fluents|
    ensures OfFluent(ss[i].contextId, stamp, ss[i].fluents[j]) in ScenariosChunks(stamp, ss)
    decreases |ss|
  {
    var n := |ss| - 1;
    if i < n {
      ListedFluentHasChunk(stamp, ss[..n], i, j);
    } else {
      assert FluentChunks(ss[n].contextId, stamp, ss[n].fluents)[j] in ScenarioChunks(stamp, ss[n]);
    }
  }

  lemma {:induction false} ChunkKeyListed(chunks: seq<Chunk>, ch: Chunk)
    requires ch in chunks && ch.OfFluent?
    ensures ch.Key() in ChunkKeys(chunks)
    decreases |chunks|
  {
    var n := |chunks| - 1;
    if chunks[n] != ch {
      ChunkKeyListed(chunks[..n], ch);
    }
  }

  // ---------- settled chunks ----------

  /** All of the chunk is recorded, and its active set is what it asserts. */
  ghost predicate Settled(c: Core, ch: Chunk) {
    && (forall b :: b in ch.Observed() ==> KeyOf(b) in c.seen)
    && (ch.OfFluent? ==> ch.Key() in c.active && c.active[ch.Key()] == Ids(c, ch.Asserted()))
  }

  lemma ObservedKnown(c: Core, bs: seq<Body>)
    requires Inv(c) && forall b :: b in bs ==> !b.Discarded?
    ensures forall b :: b in bs ==> KeyOf(b) in AddAll(c, bs).seen
  {
    AddAllKeeps(c, bs);
    forall b | b in bs ensures KeyOf(b) in AddAll(c, bs).seen {
      KnownAfter(c, bs, b);
    }
  }

  lemma StepSettles(c: Core, ch: Chunk, c': Core)
    requires Inv(c) && ch.WellFormed() && Step(c, ch, c')
    ensures Settled(c', ch)
  {
    ObservedNoDiscard(ch);
    ObservedKnown(c, ch.Observed());
    AddAllKeeps(c, ch.Observed());
    if ch.OfFluent? {
      var c1 := AddAll(c, ch.Observed());
      var order :| Enumerates(order, Stale(c, ch)) && c' == FluentPost(c, ch, order);
      DiscardsRecordable(c, ch, order);
      AddAllKeeps(c1, Discards(ch.ctx, ch.stamp, order));
      IdsStable(c1, c', ch.Asserted());
    }
  }

  /** A step changes no active set but its own. */
  lemma StepFrame(c: Core, ch: Chunk, c': Core, k: ActiveKey)
    requires Inv(c) && ch.WellFormed() && Step(c, ch, c')
    requires ch.OfFluent? ==> ch.Key() != k
    ensures (k in c'.active <==> k in c.active) && (k in c.active ==> c'.active[k] == c.active[k])
  {
    ObservedNoDiscard(ch);
    AddAllKeeps(c, ch.Observed());
    if ch.OfFluent? {
      var order :| Enumerates(order, Stale(c, ch)) && c' == FluentPost(c, ch, order);
      DiscardsRecordable(c, ch, order);
      AddAllKeeps(AddAll(c, ch.Observed()), Discards(ch.ctx, ch.stamp, order));
    }
  }

  lemma SettledStays(c: Core, ch: Chunk, c': Core, kept: Chunk)
    requires Inv(c) && ch.WellFormed() && Step(c, ch, c') && Settled(c, kept)
    requires kept.OfFluent? && ch.OfFluent? ==> ch.Key() != kept.Key()
    ensures Settled(c', kept)
  {
    StepKeeps(c, ch, c');
    if kept.OfFluent? {
      StepFrame(c, ch, c', kept.Key());
      IdsStable(c, c', kept.Asserted());
    }
  }

  /** Under distinct keys the last fluent's key is no other's. */
  lemma OtherKey(front: seq<Chunk>, last: Chunk, ch: Chunk)
    requires Distinct(ChunkKeys(front + [last])) && ch in front
    ensures ch.OfFluent? && last.OfFluent? ==> ch.Key() != last.Key()
  {
    assert (front + [last])[..|front + [last]| - 1] == front;
    if ch.OfFluent? && last.OfFluent? {
      ChunkKeyListed(front, ch);
      var keys := ChunkKeys(front + [last]);
      assert keys == ChunkKeys(front) + [last.Key()];
      var i :| 0 <= i < |ChunkKeys(front)| && ChunkKeys(front)[i] == ch.Key();
      assert keys[i] == ch.Key() && keys[|keys| - 1] == last.Key();
    }
  }

  lemma {:induction false} RunsSettle(c: Core, chunks: seq<Chunk>, c': Core)
    requires Inv(c) && WellFormed(chunks) && Runs(c, chunks, c') && Distinct(ChunkKeys(chunks))
    ensures forall ch :: ch in chunks ==> Settled(c', ch)
    decreases |chunks|
  {
    if chunks != [] {
      var n := |chunks| - 1;
      var front, last := chunks[..n], chunks[n];
      var m := RunsLast(c, chunks, c');
      assert ChunkKeys(front) <= ChunkKeys(chunks);
      RunsSettle(c, front, m);
      RunsKeep(c, front, m);
      StepSettles(m, last, c');
      assert chunks == front + [last];
      forall ch | ch in front ensures Settled(c', ch) {
        OtherKey(front, last, ch);
        SettledStays(m, last, c', ch);
      }
    }
  }

  lemma {:induction false} RunsFrame(c: Core, chunks: seq<Chunk>, c': Core, k: ActiveKey)
    requires Inv(c) && WellFormed(chunks) && Runs(c, chunks, c') && k !in ChunkKeys(chunks)
    ensures (k in c'.active <==> k in c.active) && (k in c.active ==> c'.active[k] == c.active[k])
    decreases |chunks|
  {
    if chunks != [] {
      var n := |chunks| - 1;
      var m := RunsLast(c, chunks, c');
      RunsFrame(c, chunks[..n], m, k);
      RunsKeep(c, chunks[..n], m);
      StepFrame(m, chunks[n], c', k);
    }
  }

  // ---------- the active sets after a message ----------

  ghost predicate StoredAs(c: Core, b: Body, id: RecordId) {
    KeyOf(b) in c.seen && c.seen[KeyOf(b)] == id
  }

  /** The body under which a fluent's trinary is recorded. */
  function AssertionOf(ctx: string, f: Fluent, t: Trinary): Body {
    TrinarySeen(ctx, t.stamp, Policy, f.uri, f.representation, Assertion, t.value, t.reason)
  }

  lemma IdsAreWindowed(c: Core, ctx: string, f: Fluent)
    ensures forall id :: id in Ids(c, AssertionBodies(ctx, f, f.trinaries)) <==>
              exists t :: t in f.trinaries && HasTime(t.stamp) && InWindow(f, t.stamp)
                          && StoredAs(c, AssertionOf(ctx, f, t), id)
  {
    var bs := AssertionBodies(ctx, f, f.trinaries);
    forall id | id in Ids(c, bs)
      ensures exists t :: t in f.trinaries && HasTime(t.stamp) && InWindow(f, t.stamp)
                          && StoredAs(c, AssertionOf(ctx, f, t), id)
    {
      var b :| b in bs && KeyOf(b) in c.seen && c.seen[KeyOf(b)] == id;
      AssertionBodiesAre(ctx, f, f.trinaries, b);
      var t :| t in f.trinaries && HasTime(t.stamp) && InWindow(f, t.stamp) && b == AssertionOf(ctx, f, t);
      assert StoredAs(c, AssertionOf(ctx, f, t), id);
    }
    forall t | t in f.trinaries && HasTime(t.stamp) && InWindow(f, t.stamp)
      ensures AssertionOf(ctx, f, t) in bs
    {
      AssertionBodiesAre(ctx, f, f.trinaries, AssertionOf(ctx, f, t));
    }
  }

  /** When a message names no (context, URI) pair twice, each listed active set becomes exactly the ids of the
      timed assertions inside the fluent's window. */
  lemma ListedActiveSets(c: Core, msg: StatusList, c': Core, i: nat, j: nat)
    requires Inv(c) && Ingests(c, msg, c') && Distinct(ListedKeys(msg.scenarios))
    requires i < |msg.scenarios| && j < |msg.scenarios[i].fluents|
    ensures var s := msg.scenarios[i]; var f := s.fluents[j]; var k := ActiveKey(s.contextId, f.uri);
            && k in c'.active
            && forall id :: id in c'.active[k] <==>
                 exists t :: t in f.trinaries && HasTime(t.stamp) && InWindow(f, t.stamp)
                             && StoredAs(c', AssertionOf(s.contextId, f, t), id)
  {
    var s := msg.scenarios[i];
    var f := s.fluents[j];
    var ch := OfFluent(s.contextId, msg.stamp, f);
    MessageChunkKeys(msg.stamp, msg.scenarios);
    ChunksWellFormed(msg.stamp, msg.scenarios);
    RunsSettle(c, Chunks(msg), c');
    ListedFluentHasChunk(msg.stamp, msg.scenarios, i, j);
    assert Settled(c', ch);
    IdsAreWindowed(c', s.contextId, f);
  }

  /** Pairs that the message does not list keep their active set. */
  lemma UnlistedActiveSets(c: Core, msg: StatusList, c': Core, k: ActiveKey)
    requires Inv(c) && Ingests(c, msg, c') && k !in ListedKeys(msg.scenarios)
    ensures (k in c'.active <==> k in c.active) && (k in c.active ==> c'.active[k] == c.active[k])
  {
    MessageChunkKeys(msg.stamp, msg.scenarios);
    ChunksWellFormed(msg.stamp, msg.scenarios);
    RunsFrame(c, Chunks(msg), c', k);
  }

  // ---------- repeating a message ----------

  lemma StepFixpoint(c: Core, ch: Chunk, c': Core)
    requires Settled(c, ch) && Step(c, ch, c')
    ensures c' == c
  {
    AddAllKnown(c, ch.Observed());
    if ch.OfFluent? {
      var order :| Enumerates(order, Stale(c, ch)) && c' == FluentPost(c, ch, order);
      assert Stale(c, ch) == {};
      assert forall i :: 0 <= i < |order| ==> order[i] in order;
      assert Discards(ch.ctx, ch.stamp, order) == [];
      assert c'.active == c.active;
    }
  }

  lemma {:induction false} RunsFixpoint(c: Core, chunks: seq<Chunk>, c': Core)
    requires Runs(c, chunks, c') && forall ch :: ch in chunks ==> Settled(c, ch)
    ensures c' == c
    decreases |chunks|
  {
    if chunks != [] {
      var n := |chunks| - 1;
      var m := RunsLast(c, chunks, c');
      assert forall ch :: ch in chunks[..n] ==> ch in chunks;
      RunsFixpoint(c, chunks[..n], m);
      assert chunks[n] in chunks;
      StepFixpoint(m, chunks[n], c');
    }
  }

  /** Ingesting the same message again adds no record and changes no active set. */
  lemma IngestTwice(c: Core, msg: StatusList, c': Core, c'': Core)
    requires Inv(c) && Distinct(ListedKeys(msg.scenarios))
    requires Ingests(c, msg, c') && Ingests(c', msg, c'')
    ensures c'' == c'
  {
    MessageChunkKeys(msg.stamp, msg.scenarios);
    ChunksWellFormed(msg.stamp, msg.scenarios);
    RunsSettle(c, Chunks(msg), c');
    RunsFixpoint(c', Chunks(msg), c'');
  }

  // ---------- which assertions a message discards ----------

  /** `id` was active at `k` before and no longer is. */
  ghost predicate Dropped(c: Core, c': Core, k: ActiveKey, id: RecordId) {
    id in ActiveAt(c, k) && id !in ActiveAt(c', k)
  }

  /** Recording what a chunk reports discards nothing. */
  lemma ObservedDiscardsNothing(c: Core, ch: Chunk, id: RecordId)
    requires ch.WellFormed()
    ensures DiscardKey(id) in AddAll(c, ch.Observed()).seen <==> DiscardKey(id) in c.seen
  {
    ObservedNoDiscard(ch);
    var bs := ch.Observed();
    AddAllKeys(c, bs);
    assert forall j :: 0 <= j < |bs| ==> bs[j] in bs && BodyKeys(bs)[j] == KeyOf(bs[j]);
  }

  lemma DiscardKeys(ctx: string, stamp: Stamp, order: seq<RecordId>, id: RecordId)
    ensures DiscardKey(id) in BodyKeys(Discards(ctx, stamp, order)) <==> id in order
  {
    var keys := BodyKeys(Discards(ctx, stamp, order));
    if id in order {
      var j :| 0 <= j < |order| && order[j] == id;
      assert keys[j] == DiscardKey(id);
    }
  }

  lemma StepDiscards(c: Core, ch: Chunk, c': Core, id: RecordId)
    requires ch.WellFormed() && Step(c, ch, c')
    ensures DiscardKey(id) in c'.seen <==>
            DiscardKey(id) in c.seen || (ch.OfFluent? && Dropped(c, c', ch.Key(), id))
  {
    ObservedDiscardsNothing(c, ch, id);
    if ch.OfFluent? {
      var order :| Enumerates(order, Stale(c, ch)) && c' == FluentPost(c, ch, order);
      AddAllKeys(AddAll(c, ch.Observed()), Discards(ch.ctx, ch.stamp, order));
      DiscardKeys(ch.ctx, ch.stamp, order, id);
    }
  }

  lemma {:induction false} RunsDiscards(c: Core, chunks: seq<Chunk>, c': Core, id: RecordId)
    requires Inv(c) && WellFormed(chunks) && Runs(c, chunks, c') && Distinct(ChunkKeys(chunks))
    ensures DiscardKey(id) in c'.seen <==>
            DiscardKey(id) in c.seen || exists k :: k in ChunkKeys(chunks) && Dropped(c, c', k, id)
    decreases |chunks|
  {
    if chunks != [] {
      var n := |chunks| - 1;
      var front, last := chunks[..n], chunks[n];
      var m := RunsLast(c, chunks, c');
      var keys, keys' := ChunkKeys(front), ChunkKeys(chunks);
      assert keys <= keys';
      RunsKeep(c, front, m);
      RunsDiscards(c, front, m, id);
      StepDiscards(m, last, c', id);
      forall k | k in keys ensures Dropped(c, m, k, id) == Dropped(c, c', k, id) {
        if last.OfFluent? {
          assert keys'[|keys'| - 1] == last.Key();
        }
        StepFrame(m, last, c', k);
      }
      if last.OfFluent? {
        assert keys' == keys + [last.Key()];
        assert last.Key() !in keys;
        RunsFrame(c, front, m, last.Key());
        assert Dropped(m, c', last.Key(), id) == Dropped(c, c', last.Key(), id);
      } else {
        assert keys' == keys;
      }
    }
  }

  /** A message that names no pair twice discards exactly the assertions that leave a listed active set. An
      assertion discarded before stays discarded, also when the message makes it active again. */
  lemma DiscardsAfter(c: Core, msg: StatusList, c': Core, id: RecordId)
    requires Inv(c) && Covered(c, {}) && Ingests(c, msg, c') && Distinct(ListedKeys(msg.scenarios))
    ensures IsDiscarded(c'.records, id) <==>
            IsDiscarded(c.records, id)
            || exists k :: k in ListedKeys(msg.scenarios) && Dropped(c, c', k, id)
  {
    MessageChunkKeys(msg.stamp, msg.scenarios);
    ChunksWellFormed(msg.stamp, msg.scenarios);
    IngestKeeps(c, msg, c');
    RunsDiscards(c, Chunks(msg), c', id);
    DiscardedWhenSeen(c, id);
    DiscardedWhenSeen(c', id);
  }
}
