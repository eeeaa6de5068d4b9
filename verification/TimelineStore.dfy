/** The timeline store as it runs: fields updated in place, loops over the message, queues shared with clients. */
module TimelineStoreModel {
  import opened StatusMessages
  import opened History
  import opened HistoryLaws
  import opened Fanout

  /** A queue of at most CAPACITY messages. `delivered` is what its client has consumed. */
  class ClientQueue {
    var items: seq<Message>
    ghost var delivered: seq<Message>

    ghost function State(): QueueState reads this { QueueState(delivered, items) }

    constructor ()
      ensures State() == QueueState([], [])
    {
      items := [];
      delivered := [];
    }

    /** False stands for the exception of a full queue. */
    method PutNowait(m: Message) returns (ok: bool)
      modifies `items
      ensures ok <==> |old(items)| < CAPACITY
      ensures items == if ok then old(items) + [m] else old(items)
    {
      ok := |items| < CAPACITY;
      if ok {
        items := items + [m];
      }
    }

    method GetNowait() returns (m: Message)
      requires items != []
      modifies `items
      ensures [m] + items == old(items)
    {
      m := items[0];
      items := items[1..];
    }
  }

  // ---------- lemmas about recording ----------

  lemma JoinKeeps(s: System<ClientQueue>, queue: ClientQueue, s': System<ClientQueue>)
    requires Good(s) && queue !in s.queues
    requires s' == s.(queues := s.queues[queue := Welcome(s.useSimTime, s.status, s.core.records)])
    ensures Next(s, Join(queue), s') && Good(s')
  {
    NextKeepsGood(s, Join(queue), s');
  }

  /** What one trinary of a fluent records. */
  function AssertedBy(ctx: string, f: Fluent, t: Trinary): seq<Body> {
    if InWindow(f, t.stamp) then TrinaryBodies(ctx, Policy, f.uri, f.representation, Assertion, t) else []
  }

  lemma AssertionBodiesSnoc(ctx: string, f: Fluent, items: seq<Trinary>, i: nat)
    requires i < |items|
    ensures AssertionBodies(ctx, f, items[..i + 1]) ==
            AssertionBodies(ctx, f, items[..i]) + AssertedBy(ctx, f, items[i])
  {
    assert items[..i + 1][..i] == items[..i];
  }

  /** Adding at most one body. */
  lemma SingleAdd(c: Core, bs: seq<Body>)
    requires |bs| <= 1
    ensures AddAll(c, bs) == if bs == [] then c else History.Add(c, bs[0])
  {
    if bs != [] {
      assert bs[..|bs| - 1] == [];
    }
  }

  lemma FluentChunksSnoc(done: seq<Chunk>, ctx: string, stamp: Stamp, fs: seq<Fluent>, i: nat)
    requires i < |fs|
    ensures done + FluentChunks(ctx, stamp, fs[..i + 1]) ==
            done + FluentChunks(ctx, stamp, fs[..i]) + [OfFluent(ctx, stamp, fs[i])]
  {
  }

  lemma ScenarioChunksParts(done: seq<Chunk>, stamp: Stamp, s: Scenario)
    ensures done + ScenarioChunks(stamp, s) ==
            done + [Plain(StartBodies(s) + EventBodies(s.contextId, s.events) + BehaviourBodies(s))]
            + FluentChunks(s.contextId, stamp, s.fluents) + [Plain(EndBodies(s))]
  {
  }

  lemma RunsPlain(c: Core, chunks: seq<Chunk>, m: Core, ch: Chunk, c': Core)
    requires ch.Plain? && Runs(c, chunks, m) && c' == AddAll(m, ch.bodies)
    ensures Runs(c, chunks + [ch], c')
  {
    RunsSnoc(c, chunks, m, ch, c');
  }

  ghost predicate Known(c: Core, bs: seq<Body>) {
    forall b :: b in bs ==> KeyOf(b) in c.seen
  }

  /** The bodies are recorded, under these ids. */
  ghost predicate RecordedAs(c0: Core, bs: seq<Body>, c: Core, ids: set<RecordId>) {
    c == AddAll(c0, bs) && Known(c, bs) && ids == Ids(c, bs)
  }

  /** Recording one more asserted body adds its id. */
  lemma IdsGrow(c0: Core, bs: seq<Body>, more: seq<Body>, c: Core, c': Core)
    requires c == AddAll(c0, bs) && c' == AddAll(c, more) && |more| <= 1 && Known(c, bs)
    ensures c' == AddAll(c0, bs + more) && Known(c', bs + more)
    ensures Ids(c', bs + more) == Ids(c, bs) + if more == [] then {} else {c'.seen[KeyOf(more[0])]}
  {
    AddAllConcat(c0, bs, more);
    AddAllGrows(c, more);
    SingleAdd(c, more);
  }

  lemma OneMoreRecorded(c0: Core, ctx: string, f: Fluent, i: nat, c: Core, ids: set<RecordId>, c': Core)
    requires i < |f.trinaries| && RecordedAs(c0, AssertionBodies(ctx, f, f.trinaries[..i]), c, ids)
    requires c' == AddAll(c, AssertedBy(ctx, f, f.trinaries[i])) && Known(c', AssertedBy(ctx, f, f.trinaries[i]))
    ensures var bs := AssertedBy(ctx, f, f.trinaries[i]);
            RecordedAs(c0, AssertionBodies(ctx, f, f.trinaries[..i + 1]), c',
                       ids + if bs == [] then {} else {c'.seen[KeyOf(bs[0])]})
  {
    AssertionBodiesSnoc(ctx, f, f.trinaries, i);
    IdsGrow(c0, AssertionBodies(ctx, f, f.trinaries[..i]), AssertedBy(ctx, f, f.trinaries[i]), c, c');
  }

  lemma FluentObserved(c0: Core, ch: Chunk, cA: Core, c1: Core)
    requires ch.OfFluent? && cA == AddAll(c0, ch.Asserted()) && Known(cA, ch.Asserted())
    requires c1 == AddAll(cA, ResultBodies(ch.ctx, ch.fluent))
    ensures c1 == AddAll(c0, ch.Observed()) && Ids(c1, ch.Asserted()) == Ids(cA, ch.Asserted())
    ensures c1.active == c0.active
  {
    AddAllConcat(c0, ch.Asserted(), ResultBodies(ch.ctx, ch.fluent));
    AddAllGrows(cA, ResultBodies(ch.ctx, ch.fluent));
    IdsStable(cA, c1, ch.Asserted());
    AddAllGrows(c0, ch.Observed());
  }

  // ---------- the store ----------

  class TimelineStore {
    var snapshot: StatusList
    var records: seq<Record>
    var useSimTime: bool
    var sequence: nat
    var seen: map<Key, RecordId>
    var active: map<ActiveKey, set<RecordId>>
    var clients: set<ClientQueue>

    ghost function Core(): Core reads this { History.Core.Core(records, seen, active) }

    ghost function Abs(): System<ClientQueue>
      reads this, clients
    {
      System(Core(), snapshot, useSimTime, map q | q in clients :: q.State())
    }

    ghost predicate Valid()
      reads this, clients
    {
      sequence == |records| && Good(Abs())
    }

    constructor (useSimTime: bool)
      ensures Valid() && Initial(Abs()) && this.useSimTime == useSimTime && clients == {}
      ensures records == [] && snapshot == StatusList(Stamp(0, 0), [])
    {
      snapshot := NO_STATUS;
      records := [];
      this.useSimTime := useSimTime;
      sequence := 0;
      seen := map[];
      active := map[];
      clients := {};
    }

    function SnapshotMessage(includeHistory: bool): Message
      reads this
    {
      Snapshot(snapshot, if includeHistory then Some(records) else None)
    }

    /** A client's queue with its welcome: the greeting, then the snapshot with the whole history. */
    method Greeted() returns (queue: ClientQueue)
      ensures fresh(queue) && queue.State() == Welcome(useSimTime, snapshot, records)
    {
      queue := new ClientQueue();
      var _ := queue.PutNowait(Hello(useSimTime));
      var _ := queue.PutNowait(SnapshotMessage(true));
      assert queue.items == [Hello(useSimTime), Snapshot(snapshot, Some(records))];
    }

    method AddClient() returns (queue: ClientQueue)
      requires Valid()
      modifies `clients
      ensures Valid() && fresh(queue) && clients == old(clients) + {queue}
      ensures queue.items == [Hello(useSimTime), Snapshot(snapshot, Some(records))] && queue.delivered == []
      ensures Next(old(Abs()), Join(queue), Abs())
    {
      ghost var before := Abs();
      queue := Greeted();
      clients := clients + {queue};
      ghost var after := before.queues[queue := queue.State()];
      assert Abs().queues.Keys == after.Keys;
      assert forall q :: q in after ==> Abs().queues[q] == after[q];
      JoinKeeps(before, queue, Abs());
    }

    method RemoveClient(queue: ClientQueue)
      requires Valid()
      modifies `clients
      ensures Valid() && clients == old(clients) - {queue}
      ensures Next(old(Abs()), Leave(queue), Abs())
    {
      ghost var before := Abs();
      clients := clients - {queue};
      assert Abs().queues == before.queues - {queue};
      NextKeepsGood(before, Leave(queue), Abs());
    }

    /** A client's sender takes its next message. */
    method Take(queue: ClientQueue) returns (m: Message)
      requires Valid() && queue in clients && queue.items != []
      modifies queue
      ensures Valid() && queue.delivered == old(queue.delivered) + [m]
      ensures Next(old(Abs()), Consume(queue), Abs())
    {
      ghost var before := Abs();
      m := queue.GetNowait();
      queue.delivered := queue.delivered + [m];
      assert Abs().queues == before.queues[queue := queue.State()];
      NextKeepsGood(before, Consume(queue), Abs());
    }

    // ---------- recording ----------

    /** The list that collects the records made since there were `n0`. */
    ghost predicate Collects(output: seq<Record>, n0: nat)
      reads this
    {
      sequence == |records| && n0 <= |records| && output == records[n0..]
    }

    method Add(key: Key, output: seq<Record>, b: Body, ghost n0: nat) returns (output': seq<Record>, added: bool)
      requires key == KeyOf(b) && Collects(output, n0)
      modifies `sequence, `seen, `records
      ensures Collects(output', n0) && Core() == History.Add(old(Core()), b)
      ensures added <==> key !in old(seen)
    {
      output' := output;
      added := key !in seen;
      if added {
        sequence := sequence + 1;
        var record := Record(sequence, b);
        seen := seen[key := record.Id()];
        records := records + [record];
        output' := output' + [record];
      }
    }

    method AddTrinary(output: seq<Record>, ctx: string, lane: LaneType, title: string, role: Role, t: Trinary,
                      uri: string, ghost n0: nat)
      returns (output': seq<Record>, id: Option<RecordId>)
      requires Collects(output, n0)
      modifies `sequence, `seen, `records
      ensures Collects(output', n0)
      ensures Core() == AddAll(old(Core()), TrinaryBodies(ctx, lane, uri, title, role, t))
      ensures var bs := TrinaryBodies(ctx, lane, uri, title, role, t);
              if bs == [] then id == None else KeyOf(bs[0]) in seen && id == Some(seen[KeyOf(bs[0])])
    {
      if !HasTime(t.stamp) {
        return output, None;
      }
      var key := TrinaryKey(ctx, lane, if uri == "" then title else uri, role, t.stamp, t.value, t.reason);
      var b := TrinarySeen(ctx, t.stamp, lane, uri, title, role, t.value, t.reason);
      var added;
      output', added := Add(key, output, b, n0);
      id := Some(seen[key]);
      SingleAdd(old(Core()), [b]);
    }

    // ---------- one message ----------

    /** One trinary of a fluent with the given bounds, and the current ids with its own. */
    method IngestAssertion(output: seq<Record>, ctx: string, f: Fluent, fluentStart: Option<Stamp>,
                           fluentEnd: Option<Stamp>, t: Trinary, current: set<RecordId>, ghost n0: nat)
      returns (output': seq<Record>, current': set<RecordId>)
      requires Collects(output, n0)
      requires fluentStart == (if HasTime(f.start) then Some(f.start) else None)
      requires fluentEnd == if HasTime(f.end) then Some(f.end) else None
      modifies `sequence, `seen, `records
      ensures Collects(output', n0)
      ensures var bs := AssertedBy(ctx, f, t);
              && Core() == AddAll(old(Core()), bs) && Known(Core(), bs)
              && current' == current + if bs == [] then {} else {seen[KeyOf(bs[0])]}
    {
      output', current' := output, current;
      if fluentStart.Some? && Earlier(t.stamp, fluentStart.value) {
        return;
      }
      if fluentEnd.Some? && Earlier(fluentEnd.value, t.stamp) {
        return;
      }
      var id;
      output', id := AddTrinary(output', ctx, Policy, f.representation, Assertion, t, f.uri, n0);
      if id.Some? {
        current' := current' + {id.value};
      }
    }

    /** The fluent's assertions inside its window, and the ids they are recorded under. */
    method IngestAssertions(output: seq<Record>, ctx: string, f: Fluent, ghost n0: nat)
      returns (output': seq<Record>, current: set<RecordId>)
      requires Collects(output, n0)
      modifies `sequence, `seen, `records
      ensures Collects(output', n0)
      ensures Core() == AddAll(old(Core()), AssertionBodies(ctx, f, f.trinaries))
      ensures Known(Core(), AssertionBodies(ctx, f, f.trinaries))
      ensures current == Ids(Core(), AssertionBodies(ctx, f, f.trinaries))
    {
      ghost var c0 := Core();
      var fluentStart := if HasTime(f.start) then Some(f.start) else None;
      var fluentEnd := if HasTime(f.end) then Some(f.end) else None;
      current := {};
      output' := output;
      var i := 0;
      while i < |f.trinaries|
        invariant 0 <= i <= |f.trinaries| && Collects(output', n0)
        invariant RecordedAs(c0, AssertionBodies(ctx, f, f.trinaries[..i]), Core(), current)
      {
        var t := f.trinaries[i];
        ghost var before, had := Core(), current;
        output', current := IngestAssertion(output', ctx, f, fluentStart, fluentEnd, t, current, n0);
        OneMoreRecorded(c0, ctx, f, i, before, had, Core());
        i := i + 1;
      }
      assert f.trinaries[..i] == f.trinaries;
    }

    /** Record a discard for each stale assertion, in whatever order the set yields them. */
    method Discard(output: seq<Record>, ctx: string, stamp: Stamp, stale: set<RecordId>, ghost n0: nat)
      returns (output': seq<Record>)
      requires Collects(output, n0)
      modifies `sequence, `seen, `records
      ensures Collects(output', n0)
      ensures exists order :: Enumerates(order, stale) && Core() == AddAll(old(Core()), Discards(ctx, stamp, order))
    {
      ghost var c1 := Core();
      ghost var order: seq<RecordId> := [];
      var todo := stale;
      output' := output;
      while todo != {}
        invariant todo <= stale && Enumerates(order, stale - todo) && Collects(output', n0)
        invariant Core() == AddAll(c1, Discards(ctx, stamp, order))
        decreases todo
      {
        var id :| id in todo;
        var added;
        output', added := Add(DiscardKey(id), output', Discarded(ctx, stamp, id), n0);
        todo := todo - {id};
        assert Discards(ctx, stamp, order + [id])[..|order|] == Discards(ctx, stamp, order);
        order := order + [id];
      }
      assert stale - todo == stale;
    }

    method IngestFluent(output: seq<Record>, ctx: string, stamp: Stamp, f: Fluent, ghost n0: nat)
      returns (output': seq<Record>)
      requires Collects(output, n0)
      modifies `sequence, `seen, `records, `active
      ensures Collects(output', n0) && Step(old(Core()), OfFluent(ctx, stamp, f), Core())
    {
      ghost var ch := OfFluent(ctx, stamp, f);
      ghost var c0 := Core();
      var activeKey := ActiveKey(ctx, f.uri);
      var current;
      output', current := IngestAssertions(output, ctx, f, n0);
      ghost var cA := Core();
      var ignored;
      output', ignored := AddTrinary(output', ctx, Policy, f.representation, Result, f.result, f.uri, n0);
      ghost var c1 := Core();
      FluentObserved(c0, ch, cA, c1);

      var stale := (if activeKey in active then active[activeKey] else {}) - current;
      output' := Discard(output', ctx, stamp, stale, n0);
      active := active[activeKey := current];
      ghost var order :| Enumerates(order, stale)
                         && records == AddAll(c1, Discards(ctx, stamp, order)).records
                         && seen == AddAll(c1, Discards(ctx, stamp, order)).seen;
      AddAllGrows(c1, Discards(ctx, stamp, order));
      assert Core() == FluentPost(c0, ch, order);
    }

    /** The same, as the next chunk of a run. */
    method RunFluent(output: seq<Record>, ctx: string, stamp: Stamp, f: Fluent, ghost n0: nat,
                     ghost start: Core, ghost done: seq<Chunk>)
      returns (output': seq<Record>)
      requires Collects(output, n0) && Runs(start, done, Core())
      modifies `sequence, `seen, `records, `active
      ensures Collects(output', n0) && Runs(start, done + [OfFluent(ctx, stamp, f)], Core())
    {
      output' := IngestFluent(output, ctx, stamp, f, n0);
      RunsSnoc(start, done, old(Core()), OfFluent(ctx, stamp, f), Core());
    }

    method IngestFluents(output: seq<Record>, stamp: Stamp, s: Scenario, ghost n0: nat,
                         ghost start: Core, ghost done: seq<Chunk>)
      returns (output': seq<Record>)
      requires Collects(output, n0) && Runs(start, done, Core())
      modifies `sequence, `seen, `records, `active
      ensures Collects(output', n0) && Runs(start, done + FluentChunks(s.contextId, stamp, s.fluents), Core())
    {
      output' := output;
      var i := 0;
      assert done + FluentChunks(s.contextId, stamp, []) == done;
      while i < |s.fluents|
        invariant 0 <= i <= |s.fluents| && Collects(output', n0)
        invariant Runs(start, done + FluentChunks(s.contextId, stamp, s.fluents[..i]), Core())
      {
        ghost var soFar := done + FluentChunks(s.contextId, stamp, s.fluents[..i]);
        ghost var ch := OfFluent(s.contextId, stamp, s.fluents[i]);
        output' := RunFluent(output', s.contextId, stamp, s.fluents[i], n0, start, soFar);
        FluentChunksSnoc(done, s.contextId, stamp, s.fluents, i);
        i := i + 1;
      }
      assert s.fluents[..i] == s.fluents;
    }

    method IngestEvents(output: seq<Record>, ctx: string, events: seq<Event>, ghost n0: nat)
      returns (output': seq<Record>)
      requires Collects(output, n0)
      modifies `sequence, `seen, `records
      ensures Collects(output', n0) && Core() == AddAll(old(Core()), EventBodies(ctx, events))
    {
      output' := output;
      var i := 0;
      while i < |events|
        invariant 0 <= i <= |events| && Collects(output', n0)
        invariant Core() == AddAll(old(Core()), EventBodies(ctx, events[..i]))
      {
        var added;
        var key := EventKey(ctx, events[i].uri, events[i].stamp);
        output', added := Add(key, output', EventSeen(ctx, events[i].stamp, events[i].uri), n0);
        assert EventBodies(ctx, events[..i + 1])[..i] == EventBodies(ctx, events[..i]);
        i := i + 1;
      }
      assert events[..i] == events;
    }

    /** The scenario's start, its events and the behaviour's result. */
    method IngestHead(output: seq<Record>, s: Scenario, ghost n0: nat) returns (output': seq<Record>)
      requires Collects(output, n0)
      modifies `sequence, `seen, `records
      ensures Collects(output', n0)
      ensures Core() == AddAll(old(Core()), StartBodies(s) + EventBodies(s.contextId, s.events) + BehaviourBodies(s))
    {
      ghost var c0 := Core();
      output' := output;
      if HasTime(s.start) {
        var added;
        var key := StartKey(s.contextId, s.start);
        output', added := Add(key, output', ScenarioStart(s.contextId, s.start, s.representation), n0);
      }
      SingleAdd(c0, StartBodies(s));
      output' := IngestEvents(output', s.contextId, s.events, n0);
      var ignored;
      output', ignored := AddTrinary(output', s.contextId, Behaviour, s.behaviour, Result, s.behaviourResult, "", n0);
      AddAllConcat(c0, StartBodies(s), EventBodies(s.contextId, s.events));
      AddAllConcat(c0, StartBodies(s) + EventBodies(s.contextId, s.events), BehaviourBodies(s));
    }

    method IngestEnd(output: seq<Record>, s: Scenario, ghost n0: nat) returns (output': seq<Record>)
      requires Collects(output, n0)
      modifies `sequence, `seen, `records
      ensures Collects(output', n0) && Core() == AddAll(old(Core()), EndBodies(s))
    {
      output' := output;
      SingleAdd(Core(), EndBodies(s));
      if HasTime(s.end) {
        var added;
        var b := ScenarioEnd(s.contextId, s.end, s.representation, s.result.value, s.result.reason);
        output', added := Add(EndKey(s.contextId, s.end), output', b, n0);
      }
    }

    method IngestScenario(output: seq<Record>, stamp: Stamp, s: Scenario, ghost n0: nat,
                          ghost start: Core, ghost done: seq<Chunk>)
      returns (output': seq<Record>)
      requires Collects(output, n0) && Runs(start, done, Core())
      modifies `sequence, `seen, `records, `active
      ensures Collects(output', n0) && Runs(start, done + ScenarioChunks(stamp, s), Core())
    {
      ghost var first := Plain(StartBodies(s) + EventBodies(s.contextId, s.events) + BehaviourBodies(s));
      ghost var last := Plain(EndBodies(s));
      ghost var soFar := done + [first] + FluentChunks(s.contextId, stamp, s.fluents);
      ScenarioChunksParts(done, stamp, s);

      output' := IngestHead(output, s, n0);
      RunsPlain(start, done, old(Core()), first, Core());
      output' := IngestFluents(output', stamp, s, n0, start, done + [first]);
      ghost var before := Core();
      output' := IngestEnd(output', s, n0);
      RunsPlain(start, soFar, before, last, Core());
    }

    /** The records of a whole message; the new ones are returned. */
    method IngestRecords(msg: StatusList) returns (newRecords: seq<Record>)
      requires sequence == |records|
      modifies `sequence, `seen, `records, `active
      ensures sequence == |records| && Ingests(old(Core()), msg, Core())
      ensures |old(records)| <= |records| && newRecords == records[|old(records)|..]
    {
      ghost var c0, n0 := Core(), |records|;
      newRecords := [];
      var i := 0;
      while i < |msg.scenarios|
        invariant 0 <= i <= |msg.scenarios| && Collects(newRecords, n0)
        invariant Runs(c0, ScenariosChunks(msg.stamp, msg.scenarios[..i]), Core())
      {
        ghost var done := ScenariosChunks(msg.stamp, msg.scenarios[..i]);
        newRecords := IngestScenario(newRecords, msg.stamp, msg.scenarios[i], n0, c0, done);
        assert msg.scenarios[..i + 1][..i] == msg.scenarios[..i];
        i := i + 1;
      }
      assert msg.scenarios[..i] == msg.scenarios;
    }

    // ---------- fan-out ----------

    method Publish(m: Message)
      modifies clients
      ensures forall q :: q in clients ==> q.State() == Put(old(q.State()), m, SnapshotMessage(true))
    {
      var todo := clients;
      while todo != {}
        invariant todo <= clients
        invariant forall q :: q in clients && q !in todo ==>
                    q.State() == Put(old(q.State()), m, SnapshotMessage(true))
        invariant forall q :: q in todo ==> q.State() == old(q.State())
        decreases todo
      {
        var queue :| queue in todo;
        var ok := queue.PutNowait(m);
        if !ok {
          while queue.items != []
            invariant queue.delivered == old(queue.delivered)
            invariant forall q :: q in clients && q !in todo ==>
                        q.State() == Put(old(q.State()), m, SnapshotMessage(true))
            invariant forall q :: q in todo && q != queue ==> q.State() == old(q.State())
            decreases |queue.items|
          {
            var _ := queue.GetNowait();
          }
          var _ := queue.PutNowait(SnapshotMessage(true));
        }
        todo := todo - {queue};
      }
    }

    method PublishAll(newRecords: seq<Record>)
      modifies clients
      ensures forall q :: q in clients ==>
                q.State() == PutAll(old(q.State()), Publication(snapshot, newRecords), SnapshotMessage(true))
    {
      ghost var full := SnapshotMessage(true);
      Publish(SnapshotMessage(false));
      assert Publication(snapshot, []) == [Snapshot(snapshot, None)];
      var k := 0;
      while k < |newRecords|
        invariant 0 <= k <= |newRecords|
        invariant forall q :: q in clients ==>
                    q.State() == PutAll(old(q.State()), Publication(snapshot, newRecords[..k]), full)
      {
        Publish(TimelineRecord(newRecords[k]));
        assert Publication(snapshot, newRecords[..k + 1]) ==
               Publication(snapshot, newRecords[..k]) + [TimelineRecord(newRecords[k])];
        k := k + 1;
      }
      assert newRecords[..k] == newRecords;
    }

    // ---------- the status callback ----------

    method IngestStatus(msg: StatusList)
      requires Valid()
      modifies `snapshot, `sequence, `seen, `records, `active, clients
      ensures Valid() && clients == old(clients)
      ensures Next(old(Abs()), Ingest(msg), Abs())
    {
      ghost var before := Abs();
      snapshot := msg;
      var newRecords := IngestRecords(msg);
      PublishAll(newRecords);
      NextKeepsGood(before, Ingest(msg), Abs());
    }
  }
}
