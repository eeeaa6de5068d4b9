/** Spawning entities in one batch or one at a time, and polling poses through an inverted index. */
module SimScene {
  import opened StatusMessages

  type Element = string

  type Entity = string

  // ---------- spawning ----------

  /** One entity's result: whether it spawned, and the name the simulator gave it. */
  datatype Reply = Reply(ok: bool, name: Entity)

  /** The batch reply carries an aggregate result besides the results of the entities. */
  datatype BatchReply = BatchReply(aggregateOk: bool, results: seq<Reply>)

  datatype SpawnError = Timeout | ServiceUnavailable | WrongCount | Disagreement | Unsupported

  datatype Spawned = Names(names: map<Element, Entity>) | Failed(error: SpawnError)

  /** What the simulator offers, and how it answers; `None` is a request that times out. */
  datatype Simulator = Simulator(
    batchFeature: bool, batchReady: bool, singleFeature: bool, singleReady: bool,
    batch: Option<BatchReply>, singles: seq<Option<Reply>>)

  /** The map built from the entries and the replies to them: later entries overwrite earlier ones. */
  function Collect(ids: seq<Element>, replies: seq<Reply>): map<Element, Entity>
    requires |ids| == |replies|
  {
    if ids == [] then map[]
    else
      var n := |ids| - 1;
      var m := Collect(ids[..n], replies[..n]);
      if replies[n].ok then m[ids[n] := replies[n].name] else m
  }

  predicate AllOk(replies: seq<Reply>) {
    forall i :: 0 <= i < |replies| ==> replies[i].ok
  }

  /** A batch reply is well formed when it answers every entry and its aggregate agrees with the entities. */
  predicate Consistent(b: BatchReply, n: nat) {
    |b.results| == n && (b.aggregateOk <==> AllOk(b.results))
  }

  predicate NoTimeout(singles: seq<Option<Reply>>) {
    forall i :: 0 <= i < |singles| ==> singles[i].Some?
  }

  function Values(singles: seq<Option<Reply>>): seq<Reply>
    requires NoTimeout(singles)
  {
    seq(|singles|, i requires 0 <= i < |singles| => singles[i].value)
  }

  function BatchOutcome(ids: seq<Element>, sim: Simulator): Spawned {
    if sim.batch == None then Failed(Timeout)
    else if |sim.batch.value.results| != |ids| then Failed(WrongCount)
    else if !Consistent(sim.batch.value, |ids|) then Failed(Disagreement)
    else Names(Collect(ids, sim.batch.value.results))
  }

  function SinglesOutcome(ids: seq<Element>, sim: Simulator): Spawned
    requires |sim.singles| == |ids|
  {
    if !sim.singleReady then Failed(ServiceUnavailable)
    else if !NoTimeout(sim.singles) then Failed(Timeout)
    else Names(Collect(ids, Values(sim.singles)))
  }

  /** The batch service is used when it is offered and ready, else single requests, when they are offered. */
  function SpawnOutcome(ids: seq<Element>, sim: Simulator): Spawned
    requires |sim.singles| == |ids|
  {
    if ids == [] then Names(map[])
    else if sim.batchFeature && sim.batchReady then BatchOutcome(ids, sim)
    else if sim.singleFeature then SinglesOutcome(ids, sim)
    else Failed(Unsupported)
  }

  /** When the entries fail, and with which error. */
  ghost predicate FailsExactly(ids: seq<Element>, sim: Simulator)
    requires |sim.singles| == |ids|
  {
    var outcome, byBatch := SpawnOutcome(ids, sim), sim.batchFeature && sim.batchReady;
    && (outcome == Failed(Timeout) <==>
          if byBatch then sim.batch == None
          else sim.singleFeature && sim.singleReady && exists i :: 0 <= i < |ids| && sim.singles[i] == None)
    && (outcome == Failed(WrongCount) <==> byBatch && sim.batch.Some? && |sim.batch.value.results| != |ids|)
    && (outcome == Failed(Disagreement) <==>
          byBatch && sim.batch.Some? && |sim.batch.value.results| == |ids|
          && (sim.batch.value.aggregateOk <==> exists i :: 0 <= i < |ids| && !sim.batch.value.results[i].ok))
    && (outcome == Failed(ServiceUnavailable) <==> !byBatch && sim.singleFeature && !sim.singleReady)
    && (outcome == Failed(Unsupported) <==> !byBatch && !sim.singleFeature)
  }

  /** Without entries there is nothing to do, whatever the simulator offers. Else each failure, and when it occurs. */
  lemma SpawnFailures(ids: seq<Element>, sim: Simulator)
    requires |sim.singles| == |ids|
    ensures ids == [] ==> SpawnOutcome(ids, sim) == Names(map[])
    ensures ids != [] ==> FailsExactly(ids, sim)
  {
  }

  method CheckAll(replies: seq<Reply>) returns (ok: bool)
    ensures ok == AllOk(replies)
  {
    var i := 0;
    while i < |replies|
      invariant 0 <= i <= |replies| && AllOk(replies[..i])
    {
      if !replies[i].ok {
        return false;
      }
      i := i + 1;
    }
    ok := true;
  }

  method SendSpawnEntries(ids: seq<Element>, sim: Simulator) returns (r: Spawned)
    requires |sim.singles| == |ids|
    ensures r == SpawnOutcome(ids, sim)
  {
    if ids == [] {
      return Names(map[]);
    }
    var responses: seq<Reply> := [];
    if sim.batchFeature && sim.batchReady {
      if sim.batch == None {
        return Failed(Timeout);
      }
      var response := sim.batch.value;
      if |response.results| != |ids| {
        return Failed(WrongCount);
      }
      responses := response.results;
      var resultsOk := CheckAll(responses);
      if response.aggregateOk != resultsOk {
        return Failed(Disagreement);
      }
    } else if sim.singleFeature {
      if !sim.singleReady {
        return Failed(ServiceUnavailable);
      }
      var i := 0;
      while i < |ids|
        invariant 0 <= i <= |ids| && NoTimeout(sim.singles[..i]) && responses == Values(sim.singles[..i])
      {
        if sim.singles[i] == None {
          assert !NoTimeout(sim.singles);
          return Failed(Timeout);
        }
        responses := responses + [sim.singles[i].value];
        i := i + 1;
      }
      assert sim.singles[..i] == sim.singles;
    } else {
      return Failed(Unsupported);
    }

    var spawned := map[];
    var i := 0;
    while i < |ids|
      invariant 0 <= i <= |ids| && spawned == Collect(ids[..i], responses[..i])
    {
      assert ids[..i + 1][..i] == ids[..i] && responses[..i + 1][..i] == responses[..i];
      if responses[i].ok {
        spawned := spawned[ids[i] := responses[i].name];
      }
      i := i + 1;
    }
    assert ids[..i] == ids && responses[..i] == responses;
    r := Names(spawned);
  }

  /** Entry `i` is the last successful one for its element. */
  ghost predicate LastSuccess(ids: seq<Element>, replies: seq<Reply>, i: nat)
    requires |ids| == |replies|
  {
    i < |ids| && replies[i].ok && forall j :: i < j < |ids| && ids[j] == ids[i] ==> !replies[j].ok
  }

  lemma {:induction false} LastOf(ids: seq<Element>, replies: seq<Reply>, k: nat) returns (m: nat)
    requires |ids| == |replies| && k < |ids| && replies[k].ok
    ensures LastSuccess(ids, replies, m) && ids[m] == ids[k]
    decreases |ids| - k
  {
    if j :| k < j < |ids| && ids[j] == ids[k] && replies[j].ok {
      m := LastOf(ids, replies, j);
    } else {
      m := k;
    }
  }

  /** The last successful reply for each element decides. */
  lemma {:induction false} CollectLastSuccess(ids: seq<Element>, replies: seq<Reply>, i: nat)
    requires |ids| == |replies| && LastSuccess(ids, replies, i)
    ensures ids[i] in Collect(ids, replies) && Collect(ids, replies)[ids[i]] == replies[i].name
  {
    var n := |ids| - 1;
    if i < n {
      CollectLastSuccess(ids[..n], replies[..n], i);
    }
  }

  lemma {:induction false} CollectOnlySuccesses(ids: seq<Element>, replies: seq<Reply>, id: Element)
    requires |ids| == |replies| && id in Collect(ids, replies)
    ensures exists i :: 0 <= i < |ids| && ids[i] == id && replies[i].ok
  {
    var n := |ids| - 1;
    if !(replies[n].ok && ids[n] == id) {
      CollectOnlySuccesses(ids[..n], replies[..n], id);
      var i :| 0 <= i < n && ids[..n][i] == id && replies[..n][i].ok;
      assert ids[i] == id && replies[i].ok;
    }
  }

  /** For distinct elements the map is exactly the successful entries with their reported names. */
  lemma CollectExact(ids: seq<Element>, replies: seq<Reply>)
    requires |ids| == |replies| && forall i, j :: 0 <= i < j < |ids| ==> ids[i] != ids[j]
    ensures forall i :: 0 <= i < |ids| ==>
              (ids[i] in Collect(ids, replies) <==> replies[i].ok)
              && (replies[i].ok ==> Collect(ids, replies)[ids[i]] == replies[i].name)
    ensures forall id :: id in Collect(ids, replies) ==> id in ids
  {
    forall i | 0 <= i < |ids|
      ensures (ids[i] in Collect(ids, replies) <==> replies[i].ok)
              && (replies[i].ok ==> Collect(ids, replies)[ids[i]] == replies[i].name)
    {
      if replies[i].ok {
        CollectLastSuccess(ids, replies, i);
      } else if ids[i] in Collect(ids, replies) {
        CollectOnlySuccesses(ids, replies, ids[i]);
      }
    }
    forall id | id in Collect(ids, replies) ensures id in ids {
      CollectOnlySuccesses(ids, replies, id);
    }
  }

  /** Otherwise an entry's element is mapped to the name of its last successful reply, by whichever service, and to nothing
      without one. */
  lemma SpawnSucceeds(ids: seq<Element>, sim: Simulator, i: nat)
    requires |sim.singles| == |ids| && i < |ids| && SpawnOutcome(ids, sim).Names?
    ensures var names := SpawnOutcome(ids, sim).names;
            var replies := if sim.batchFeature && sim.batchReady && sim.batch.Some? then sim.batch.value.results
                           else seq(|ids|, k requires 0 <= k < |ids| =>
                                    if sim.singles[k].Some? then sim.singles[k].value else Reply(false, ""));
            && |replies| == |ids|
            && (ids[i] in names <==> exists k :: 0 <= k < |ids| && ids[k] == ids[i] && replies[k].ok)
            && (LastSuccess(ids, replies, i) ==> ids[i] in names && names[ids[i]] == replies[i].name)
  {
    var replies := if sim.batchFeature && sim.batchReady then sim.batch.value.results else Values(sim.singles);
    assert (sim.batchFeature && sim.batchReady) || replies == seq(|ids|, k requires 0 <= k < |ids| =>
        if sim.singles[k].Some? then sim.singles[k].value else Reply(false, ""));
    if ids[i] in Collect(ids, replies) {
      CollectOnlySuccesses(ids, replies, ids[i]);
    }
    if k :| 0 <= k < |ids| && ids[k] == ids[i] && replies[k].ok {
      var m := LastOf(ids, replies, k);
      CollectLastSuccess(ids, replies, m);
    }
    if LastSuccess(ids, replies, i) {
      CollectLastSuccess(ids, replies, i);
    }
  }

  /** When both services give each entry the same outcome, the two branches return the same, exactly when the batch
      reply is well formed; otherwise the batch branch fails where the other succeeds. */
  lemma BatchRefinesSequential(ids: seq<Element>, replies: seq<Reply>, batch: BatchReply, viaBatch: Simulator,
                              viaSingles: Simulator)
    requires ids != [] && |replies| == |ids|
    requires viaBatch.batchFeature && viaBatch.batchReady && viaBatch.batch == Some(batch)
    requires |viaBatch.singles| == |ids|
    requires !(viaSingles.batchFeature && viaSingles.batchReady) && viaSingles.singleFeature && viaSingles.singleReady
    requires viaSingles.singles == seq(|ids|, i requires 0 <= i < |ids| => Some(replies[i]))
    requires |batch.results| == |ids| ==> batch.results == replies
    ensures SpawnOutcome(ids, viaSingles) == Names(Collect(ids, replies))
    ensures SpawnOutcome(ids, viaBatch) == SpawnOutcome(ids, viaSingles) <==> Consistent(batch, |ids|)
    ensures !Consistent(batch, |ids|) ==> SpawnOutcome(ids, viaBatch).Failed?
  {
    assert Values(viaSingles.singles) == replies;
  }

  // ---------- poses ----------

  datatype PoseError =
    NoModelGraph | StatesUnsupported | NoSpawnFormat | PoseTimeout | PoseService | PoseFailed | CountMismatch

  datatype Poses<S> = Poses(poses: map<Element, S>) | PosesFailed(error: PoseError)

  datatype StateReply<S> =
    | NoReply
    | NotFound
    | Refused
    | States(entities: seq<Entity>, states: seq<S>)

  /** `spawnFormat`: the simulator has a supported spawn format. `resolve` gives the simulator entity of an element,
      if it has one. */
  datatype PoseRequest = PoseRequest(
    modelGraph: bool, statesFeature: bool, spawnFormat: bool, serviceReady: bool, resolve: map<Element, Entity>)

  /** The requested elements grouped under their entity. */
  ghost predicate IndexOf(index: map<Entity, seq<Element>>, ids: seq<Element>, resolve: map<Element, Entity>) {
    && (forall e, id :: e in index && id in index[e] ==> id in ids && id in resolve && resolve[id] == e)
    && (forall id :: id in ids && id in resolve ==> resolve[id] in index && id in index[resolve[id]])
    && (forall e :: e in index ==> index[e] != [])
  }

  lemma IndexGrows(index: map<Entity, seq<Element>>, index': map<Entity, seq<Element>>, ids: seq<Element>, i: nat,
                   resolve: map<Element, Entity>)
    requires i < |ids| && IndexOf(index, ids[..i], resolve) && ids[i] in resolve
    requires var e := resolve[ids[i]]; index' == index[e := (if e in index then index[e] else []) + [ids[i]]]
    ensures IndexOf(index', ids[..i + 1], resolve)
  {
    assert ids[..i + 1] == ids[..i] + [ids[i]];
  }

  method BuildIndex(ids: seq<Element>, resolve: map<Element, Entity>) returns (index: map<Entity, seq<Element>>)
    ensures IndexOf(index, ids, resolve)
  {
    index := map[];
    var i := 0;
    while i < |ids|
      invariant 0 <= i <= |ids| && IndexOf(index, ids[..i], resolve)
    {
      var id := ids[i];
      if id in resolve {
        var entity := resolve[id];
        ghost var before := index;
        index := index[entity := (if entity in index then index[entity] else []) + [id]];
        IndexGrows(before, index, ids, i, resolve);
      }
      assert ids[..i + 1] == ids[..i] + [id];
      i := i + 1;
    }
    assert ids[..i] == ids;
  }

  /** `state` is the last one reported for `entity`. */
  ghost predicate LastReported<S>(entities: seq<Entity>, states: seq<S>, entity: Entity, state: S)
    requires |entities| == |states|
  {
    exists i :: 0 <= i < |entities| && entities[i] == entity && states[i] == state
                && forall j :: i < j < |entities| ==> entities[j] != entity
  }

  /** Direct lookup: each requested element that resolves to a reported entity has that entity's last state. */
  ghost predicate Looked<S>(poses: map<Element, S>, ids: seq<Element>, resolve: map<Element, Entity>,
                            entities: seq<Entity>, states: seq<S>)
    requires |entities| == |states|
  {
    && (forall id :: id in poses <==> id in ids && id in resolve && resolve[id] in entities)
    && (forall id :: id in poses ==> LastReported(entities, states, resolve[id], poses[id]))
  }

  /** The direct lookup determines the map. */
  lemma LookedUnique<S>(p: map<Element, S>, q: map<Element, S>, ids: seq<Element>, resolve: map<Element, Entity>,
                        entities: seq<Entity>, states: seq<S>)
    requires |entities| == |states|
    requires Looked(p, ids, resolve, entities, states) && Looked(q, ids, resolve, entities, states)
    ensures p == q
  {
    forall id | id in p ensures id in q && p[id] == q[id] {
      var i :| 0 <= i < |entities| && entities[i] == resolve[id] && states[i] == p[id]
               && forall j :: i < j < |entities| ==> entities[j] != resolve[id];
      var i' :| 0 <= i' < |entities| && entities[i'] == resolve[id] && states[i'] == q[id]
                && forall j :: i' < j < |entities| ==> entities[j] != resolve[id];
      assert i == i';
    }
    assert forall id :: id in q ==> id in p;
  }

  /** Give every element of the list the same state. */
  method Assign<S>(poses: map<Element, S>, list: seq<Element>, state: S) returns (poses': map<Element, S>)
    ensures forall id :: id in poses' <==> id in poses || id in list
    ensures forall id :: id in poses' ==> poses'[id] == if id in list then state else poses[id]
  {
    poses' := poses;
    var i := 0;
    while i < |list|
      invariant 0 <= i <= |list|
      invariant forall id :: id in poses' <==> id in poses || id in list[..i]
      invariant forall id :: id in poses' ==> poses'[id] == if id in list[..i] then state else poses[id]
    {
      assert list[..i + 1] == list[..i] + [list[i]];
      poses' := poses'[list[i] := state];
      i := i + 1;
    }
    assert list[..i] == list;
  }

  lemma EmptyIndex(index: map<Entity, seq<Element>>, ids: seq<Element>, resolve: map<Element, Entity>)
    requires IndexOf(index, ids, resolve)
    ensures index == map[] <==> forall id :: id in ids ==> id !in resolve
  {
    if index.Keys != {} {
      var e :| e in index.Keys;
      var id := index[e][0];
      assert id in index[e];
      assert id in ids && id in resolve;
    } else {
      assert forall id :: id in ids && id in resolve ==> resolve[id] in index;
    }
  }

  lemma OneMoreEntity<S>(poses: map<Element, S>, poses': map<Element, S>, index: map<Entity, seq<Element>>,
                         ids: seq<Element>, resolve: map<Element, Entity>, entities: seq<Entity>, states: seq<S>, i: nat)
    requires IndexOf(index, ids, resolve) && i < |entities| == |states|
    requires Looked(poses, ids, resolve, entities[..i], states[..i])
    requires var list := if entities[i] in index then index[entities[i]] else [];
             && (forall id :: id in poses' <==> id in poses || id in list)
             && (forall id :: id in poses' ==> poses'[id] == if id in list then states[i] else poses[id])
    ensures Looked(poses', ids, resolve, entities[..i + 1], states[..i + 1])
  {
    var es, ss := entities[..i + 1], states[..i + 1];
    assert es == entities[..i] + [entities[i]] && ss == states[..i] + [states[i]];
    var list := if entities[i] in index then index[entities[i]] else [];
    forall id ensures id in list <==> id in ids && id in resolve && resolve[id] == entities[i] {
    }
    forall id | id in poses' ensures LastReported(es, ss, resolve[id], poses'[id]) {
      if id in list {
        assert es[i] == resolve[id] && ss[i] == poses'[id];
      } else {
        var k :| 0 <= k < i && entities[..i][k] == resolve[id] && states[..i][k] == poses[id]
                 && forall j :: k < j < i ==> entities[..i][j] != resolve[id];
        assert es[k] == resolve[id] && ss[k] == poses'[id];
        assert forall j :: k < j < |es| ==> es[j] != resolve[id];
      }
    }
  }

  /** The nested loop over the reported entities and the elements filed under each. */
  method ReadStates<S>(index: map<Entity, seq<Element>>, ids: seq<Element>, ghost resolve: map<Element, Entity>,
                       entities: seq<Entity>, states: seq<S>)
    returns (poses: map<Element, S>)
    requires IndexOf(index, ids, resolve) && |entities| == |states|
    ensures Looked(poses, ids, resolve, entities, states)
  {
    poses := map[];
    var i := 0;
    while i < |entities|
      invariant 0 <= i <= |entities| && Looked(poses, ids, resolve, entities[..i], states[..i])
    {
      var list := if entities[i] in index then index[entities[i]] else [];
      var before := poses;
      poses := Assign(poses, list, states[i]);
      OneMoreEntity(before, poses, index, ids, resolve, entities, states, i);
      i := i + 1;
    }
    assert entities[..i] == entities && states[..i] == states;
  }

  method GetElementsPoses<S>(req: PoseRequest, ids: seq<Element>, reply: StateReply<S>) returns (r: Poses<S>)
    ensures !req.modelGraph ==> r == PosesFailed(NoModelGraph)
    ensures req.modelGraph && !req.statesFeature ==> r == PosesFailed(StatesUnsupported)
    ensures req.modelGraph && req.statesFeature && !req.spawnFormat ==> r == PosesFailed(NoSpawnFormat)
    ensures req.modelGraph && req.statesFeature && req.spawnFormat ==>
              if forall id :: id in ids ==> id !in req.resolve then r == Poses(map[])
              else if !req.serviceReady then r == PosesFailed(PoseService)
              else match reply
                   case NoReply => r == PosesFailed(PoseTimeout)
                   case NotFound => r == Poses(map[])
                   case Refused => r == PosesFailed(PoseFailed)
                   case States(entities, states) =>
                     if |entities| != |states| then r == PosesFailed(CountMismatch)
                     else r.Poses? && Looked(r.poses, ids, req.resolve, entities, states)
  {
    if !req.modelGraph {
      return PosesFailed(NoModelGraph);
    }
    if !req.statesFeature {
      return PosesFailed(StatesUnsupported);
    }
    if !req.spawnFormat {
      return PosesFailed(NoSpawnFormat);
    }
    var index := BuildIndex(ids, req.resolve);
    EmptyIndex(index, ids, req.resolve);
    if index == map[] {
      return Poses(map[]);
    }
    if !req.serviceReady {
      return PosesFailed(PoseService);
    }
    match reply
    case NoReply => return PosesFailed(PoseTimeout);
    case NotFound => return Poses(map[]);
    case Refused => return PosesFailed(PoseFailed);
    case States(entities, states) =>
      if |entities| != |states| {
        return PosesFailed(CountMismatch);
      }
      var poses := ReadStates(index, ids, req.resolve, entities, states);
      r := Poses(poses);
  }
}
