/** In what order the records of a message are appended, and with what stamps its discards. */
module RecordOrder {
  import opened StatusMessages
  import opened History
  import opened HistoryLaws
  import Identity

  /** The record holds an observation of the chunk or is one of its discards, which carry the message's stamp. */
  ghost predicate FromChunk(b: Body, ch: Chunk) {
    b in ch.Observed() || (ch.OfFluent? && b.Discarded? && b.ctx == ch.ctx && b.stamp == ch.stamp)
  }

  ghost predicate NonDecreasing(at: seq<nat>) {
    forall i, j :: 0 <= i < j < |at| ==> at[i] <= at[j]
  }

  ghost predicate Rising(at: seq<nat>) {
    forall i, j :: 0 <= i < j < |at| ==> at[i] < at[j]
  }

  /** What was appended between the two histories are the bodies at these positions. */
  ghost predicate Appends(rs: seq<Record>, rs': seq<Record>, bs: seq<Body>, at: seq<nat>) {
    && rs <= rs' && |at| == |rs'| - |rs|
    && forall i :: 0 <= i < |at| ==> at[i] < |bs| && rs'[|rs| + i].body == bs[at[i]]
  }

  /** Observations are appended in their order. */
  lemma {:induction false} AddAllInOrder(c: Core, bs: seq<Body>) returns (at: seq<nat>)
    ensures Appends(c.records, AddAll(c, bs).records, bs, at) && Rising(at)
  {
    if bs == [] {
      at := [];
    } else {
      var n := |bs| - 1;
      at := AddAllInOrder(c, bs[..n]);
      if KeyOf(bs[n]) !in AddAll(c, bs[..n]).seen {
        at := at + [n];
      }
    }
  }

  /** Within a fluent's chunk its discards come after what it observes. */
  lemma FluentInOrder(c: Core, ch: Chunk, c': Core) returns (bs: seq<Body>, at: seq<nat>)
    requires ch.OfFluent? && Step(c, ch, c')
    ensures Appends(c.records, c'.records, bs, at) && Rising(at)
    ensures ch.Observed() <= bs && forall i :: |ch.Observed()| <= i < |bs| ==> bs[i].Discarded? && FromChunk(bs[i], ch)
  {
    var order :| Enumerates(order, Stale(c, ch)) && c' == FluentPost(c, ch, order);
    bs := ch.Observed() + Discards(ch.ctx, ch.stamp, order);
    AddAllConcat(c, ch.Observed(), Discards(ch.ctx, ch.stamp, order));
    at := AddAllInOrder(c, bs);
  }

  lemma StepAppends(c: Core, ch: Chunk, c': Core)
    requires Step(c, ch, c')
    ensures c.records <= c'.records
    ensures forall i :: |c.records| <= i < |c'.records| ==> FromChunk(c'.records[i].body, ch)
  {
    var bs, at;
    if ch.Plain? {
      bs := ch.bodies;
      at := AddAllInOrder(c, bs);
    } else {
      bs, at := FluentInOrder(c, ch, c');
    }
    forall i | |c.records| <= i < |c'.records| ensures FromChunk(c'.records[i].body, ch) {
      assert c'.records[|c.records| + (i - |c.records|)].body == bs[at[i - |c.records|]];
    }
  }

  /** What was appended between the two histories comes from these chunks, one chunk after another. */
  ghost predicate ByChunk(rs: seq<Record>, rs': seq<Record>, chunks: seq<Chunk>, at: seq<nat>) {
    && rs <= rs' && |at| == |rs'| - |rs| && NonDecreasing(at)
    && forall i :: 0 <= i < |at| ==> at[i] < |chunks| && FromChunk(rs'[|rs| + i].body, chunks[at[i]])
  }

  lemma ByChunkSnoc(rs: seq<Record>, m: seq<Record>, rs': seq<Record>, chunks: seq<Chunk>, at: seq<nat>, ch: Chunk)
    requires ByChunk(rs, m, chunks, at) && m <= rs'
    requires forall i :: |m| <= i < |rs'| ==> FromChunk(rs'[i].body, ch)
    ensures ByChunk(rs, rs', chunks + [ch], at + seq(|rs'| - |m|, _ => |chunks|))
  {
  }

  /** In every run, chunks append one after another. */
  lemma {:induction false} RunsInOrder(c: Core, chunks: seq<Chunk>, c': Core) returns (at: seq<nat>)
    requires Runs(c, chunks, c')
    ensures ByChunk(c.records, c'.records, chunks, at)
    decreases |chunks|
  {
    if chunks == [] {
      at := [];
    } else {
      var front, last := chunks[..|chunks| - 1], chunks[|chunks| - 1];
      var m := RunsLast(c, chunks, c');
      at := RunsInOrder(c, front, m);
      StepAppends(m, last, c');
      ByChunkSnoc(c.records, m.records, c'.records, front, at, last);
      at := at + seq(|c'.records| - |m.records|, _ => |front|);
      assert front + [last] == chunks;
    }
  }

  /** The place of a record among those of its scenario's status. */
  function Phase(b: Body): nat {
    match b
    case ScenarioStart(_, _, _) => 0
    case EventSeen(_, _, _) => 1
    case TrinarySeen(_, _, lane, _, _, _, _, _) => if lane.Behaviour? then 2 else 3
    case Discarded(_, _, _) => 3
    case ScenarioEnd(_, _, _, _, _) => 4
  }

  /** The start, the events as listed, and then the behaviour's result. */
  lemma HeadInOrder(s: Scenario, i: nat, j: nat)
    requires i < j < |StartBodies(s) + EventBodies(s.contextId, s.events) + BehaviourBodies(s)|
    ensures var bs := StartBodies(s) + EventBodies(s.contextId, s.events) + BehaviourBodies(s);
            Phase(bs[i]) <= Phase(bs[j]) <= 2
  {
  }

  lemma ChunkPhase(stamp: Stamp, s: Scenario, k: nat, b: Body)
    requires k < |ScenarioChunks(stamp, s)| && FromChunk(b, ScenarioChunks(stamp, s)[k])
    ensures k == 0 ==> Phase(b) <= 2
    ensures 0 < k <= |s.fluents| ==> Phase(b) == 3 && (b.Discarded? ==> b.ctx == s.contextId && b.stamp == stamp)
    ensures k == |s.fluents| + 1 ==> Phase(b) == 4
  {
    if 0 < k <= |s.fluents| {
      var f := s.fluents[k - 1];
      assert ScenarioChunks(stamp, s)[k] == OfFluent(s.contextId, stamp, f);
      AssertionsAre(s.contextId, f, f.trinaries);
    }
  }

  /** The first chunk of a scenario, from any state. */
  lemma FirstInOrder(c: Core, s: Scenario, m: Core)
    requires Step(c, Plain(StartBodies(s) + EventBodies(s.contextId, s.events) + BehaviourBodies(s)), m)
    ensures c.records <= m.records
    ensures forall i, j :: |c.records| <= i < j < |m.records| ==> Phase(m.records[i].body) <= Phase(m.records[j].body)
  {
    var bs := StartBodies(s) + EventBodies(s.contextId, s.events) + BehaviourBodies(s);
    var at := AddAllInOrder(c, bs);
    forall i, j | |c.records| <= i < j < |m.records| ensures Phase(m.records[i].body) <= Phase(m.records[j].body) {
      var p, q := i - |c.records|, j - |c.records|;
      assert m.records[|c.records| + p].body == bs[at[p]] && m.records[|c.records| + q].body == bs[at[q]];
      HeadInOrder(s, at[p], at[q]);
    }
  }

  /** Past the first chunk every record is of a fluent's chunk, and then of the end. */
  lemma LaterPhases(m: Core, stamp: Stamp, s: Scenario, n: nat, c': Core)
    requires 0 < n < |ScenarioChunks(stamp, s)| && Step(m, ScenarioChunks(stamp, s)[n], c')
    ensures m.records <= c'.records
    ensures forall i :: |m.records| <= i < |c'.records| ==>
              var b := c'.records[i].body;
              Phase(b) == (if n <= |s.fluents| then 3 else 4) && (b.Discarded? ==> b.ctx == s.contextId && b.stamp == stamp)
  {
    StepAppends(m, ScenarioChunks(stamp, s)[n], c');
    forall i | |m.records| <= i < |c'.records|
      ensures var b := c'.records[i].body;
              Phase(b) == (if n <= |s.fluents| then 3 else 4) && (b.Discarded? ==> b.ctx == s.contextId && b.stamp == stamp)
    {
      ChunkPhase(stamp, s, n, c'.records[i].body);
    }
  }

  /** The records from position `lo` on are in the order of their phases, and the discards among them carry the stamp. */
  ghost predicate InPhases(rs: seq<Record>, lo: nat, ctx: string, stamp: Stamp, last: nat) {
    && (forall i, j :: lo <= i < j < |rs| ==> Phase(rs[i].body) <= Phase(rs[j].body))
    && forall i :: lo <= i < |rs| ==>
         Phase(rs[i].body) <= last && (rs[i].body.Discarded? ==> rs[i].body.ctx == ctx && rs[i].body.stamp == stamp)
  }

  lemma {:induction false} ChunksInOrder(c: Core, stamp: Stamp, s: Scenario, n: nat, c': Core)
    requires n < |ScenarioChunks(stamp, s)| && Runs(c, ScenarioChunks(stamp, s)[..n + 1], c')
    ensures c.records <= c'.records
    ensures InPhases(c'.records, |c.records|, s.contextId, stamp, if n == 0 then 2 else if n <= |s.fluents| then 3 else 4)
  {
    var chunks := ScenarioChunks(stamp, s);
    var m := RunsLast(c, chunks[..n + 1], c');
    assert chunks[..n + 1][..n] == chunks[..n];
    if n == 0 {
      assert m == c;
      FirstInOrder(c, s, c');
      StepAppends(c, chunks[0], c');
      forall i | |c.records| <= i < |c'.records| ensures Phase(c'.records[i].body) <= 2 {
        ChunkPhase(stamp, s, 0, c'.records[i].body);
      }
    } else {
      ChunksInOrder(c, stamp, s, n - 1, m);
      LaterPhases(m, stamp, s, n, c');
    }
  }

  /** One scenario's status, from any state of the store: its start is appended before its events, these before the
      behaviour's result, this before all of its fluents and their discards, and its end after everything; the discards
      are stamped with the time of the message. */
  lemma ScenarioInOrder(c: Core, stamp: Stamp, s: Scenario, c': Core)
    requires Runs(c, ScenarioChunks(stamp, s), c')
    ensures c.records <= c'.records && InPhases(c'.records, |c.records|, s.contextId, stamp, 4)
  {
    var chunks := ScenarioChunks(stamp, s);
    assert chunks[..|s.fluents| + 2] == chunks;
    ChunksInOrder(c, stamp, s, |s.fluents| + 1, c');
  }

  // ---------- a whole message ----------

  lemma BeforeLast(c: Core, zs: seq<Chunk>, last: Chunk, c': Core) returns (m: Core)
    requires Runs(c, zs + [last], c')
    ensures Runs(c, zs, m) && Step(m, last, c')
  {
    m := RunsLast(c, zs + [last], c');
    assert (zs + [last])[..|zs + [last]| - 1] == zs;
  }

  lemma SplitLast(c: Core, xs: seq<Chunk>, ys: seq<Chunk>, front: seq<Chunk>, last: Chunk, c': Core) returns (m: Core)
    requires ys == front + [last] && Runs(c, xs + ys, c')
    ensures Runs(c, xs + front, m) && Step(m, last, c')
  {
    assert xs + ys == xs + front + [last];
    m := BeforeLast(c, xs + front, last, c');
  }

  lemma RunsThen(c: Core, ys: seq<Chunk>, front: seq<Chunk>, last: Chunk, m: Core, c': Core)
    requires ys == front + [last] && Runs(c, front, m) && Step(m, last, c')
    ensures Runs(c, ys, c')
  {
    RunsSnoc(c, front, m, last, c');
  }

  lemma {:induction false} RunsSplit(c: Core, xs: seq<Chunk>, ys: seq<Chunk>, c': Core) returns (m: Core)
    requires Runs(c, xs + ys, c')
    ensures Runs(c, xs, m) && Runs(m, ys, c')
    decreases |ys|
  {
    if ys == [] {
      assert xs + ys == xs;
      m := c';
    } else {
      var front, last := ys[..|ys| - 1], ys[|ys| - 1];
      var before := SplitLast(c, xs, ys, front, last, c');
      m := RunsSplit(c, xs, front, before);
      RunsThen(m, ys, front, last, before, c');
    }
  }

  /** The record holds what the scenario's status says, or is a discard of the scenario with the message's stamp. */
  ghost predicate FromScenario(b: Body, stamp: Stamp, s: Scenario) {
    Identity.Says(s, b) || (b.Discarded? && b.ctx == s.contextId && b.stamp == stamp)
  }

  lemma ScenarioAppends(c: Core, stamp: Stamp, s: Scenario, c': Core)
    requires Runs(c, ScenarioChunks(stamp, s), c')
    ensures c.records <= c'.records
    ensures forall i :: |c.records| <= i < |c'.records| ==> FromScenario(c'.records[i].body, stamp, s)
  {
    var chunks := ScenarioChunks(stamp, s);
    var at := RunsInOrder(c, chunks, c');
    ScenarioInOrder(c, stamp, s, c');
    forall i | |c.records| <= i < |c'.records| ensures FromScenario(c'.records[i].body, stamp, s) {
      var b, ch := c'.records[|c.records| + (i - |c.records|)].body, chunks[at[i - |c.records|]];
      assert FromChunk(b, ch) && ch in chunks;
      if b in ch.Observed() {
        assert Identity.ObservedBy(chunks, b);
        Identity.ScenarioSays(stamp, s, b);
      }
    }
  }

  /** `at` tells from which scenario each record from `lo` on comes: they are in the message's order, and those of one
      scenario in the order of their phases. */
  ghost predicate InOrder(rs: seq<Record>, lo: nat, stamp: Stamp, ss: seq<Scenario>, at: seq<nat>) {
    && lo <= |rs| && |at| == |rs| - lo && NonDecreasing(at)
    && (forall i :: 0 <= i < |at| ==> at[i] < |ss| && FromScenario(rs[lo + i].body, stamp, ss[at[i]]))
    && forall i, j :: 0 <= i < j < |at| && at[i] == at[j] ==> Phase(rs[lo + i].body) <= Phase(rs[lo + j].body)
  }

  lemma InOrderSnoc(rs: seq<Record>, rs': seq<Record>, lo: nat, stamp: Stamp, ss: seq<Scenario>, at: seq<nat>, s: Scenario)
    requires InOrder(rs, lo, stamp, ss, at) && rs <= rs' && InPhases(rs', |rs|, s.contextId, stamp, 4)
    requires forall i :: |rs| <= i < |rs'| ==> FromScenario(rs'[i].body, stamp, s)
    ensures InOrder(rs', lo, stamp, ss + [s], at + seq(|rs'| - |rs|, _ => |ss|))
  {
    var at' := at + seq(|rs'| - |rs|, _ => |ss|);
    forall i, j | 0 <= i < j < |at'| && at'[i] == at'[j] ensures Phase(rs'[lo + i].body) <= Phase(rs'[lo + j].body) {
      assert i < |at| <==> j < |at|;
    }
  }

  lemma MessageMore(c: Core, stamp: Stamp, front: seq<Scenario>, s: Scenario, m: Core, c': Core, at: seq<nat>)
    returns (at': seq<nat>)
    requires c.records <= m.records && InOrder(m.records, |c.records|, stamp, front, at)
    requires Runs(m, ScenarioChunks(stamp, s), c')
    ensures c.records <= c'.records
    ensures InOrder(c'.records, |c.records|, stamp, front + [s], at')
  {
    ScenarioAppends(m, stamp, s, c');
    ScenarioInOrder(m, stamp, s, c');
    InOrderSnoc(m.records, c'.records, |c.records|, stamp, front, at, s);
    at' := at + seq(|c'.records| - |m.records|, _ => |front|);
  }

  /** The records that a message appends, from any state of the store. */
  lemma {:induction false} MessageInOrder(c: Core, stamp: Stamp, ss: seq<Scenario>, c': Core) returns (at: seq<nat>)
    requires Runs(c, ScenariosChunks(stamp, ss), c')
    ensures c.records <= c'.records && InOrder(c'.records, |c.records|, stamp, ss, at)
    decreases |ss|
  {
    if ss == [] {
      assert c' == c;
      at := [];
    } else {
      var front, s := ss[..|ss| - 1], ss[|ss| - 1];
      assert ss == front + [s];
      Identity.ScenariosSnoc(stamp, front, s);
      var m := RunsSplit(c, ScenariosChunks(stamp, front), ScenarioChunks(stamp, s), c');
      at := MessageInOrder(c, stamp, front, m);
      at := MessageMore(c, stamp, front, s, m, c', at);
    }
  }
}
