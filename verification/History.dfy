/** The append-only, deduplicated history of the timeline store, as a value: what one status
    message does to the records, to the key index and to the sets of active assertions. */
module History {
  import opened StatusMessages

  datatype RecordId = R(n: nat)

  datatype LaneType = Behaviour | Policy

  datatype Role = Assertion | Result

  datatype Body =
    | ScenarioStart(ctx: string, stamp: Stamp, title: string)
    | EventSeen(ctx: string, stamp: Stamp, uri: string)
    | TrinarySeen(ctx: string, stamp: Stamp, lane: LaneType, uri: string, title: string, role: Role,
                  value: TrinaryValue, reason: string)
    | Discarded(ctx: string, stamp: Stamp, target: RecordId)
    | ScenarioEnd(ctx: string, stamp: Stamp, title: string, value: TrinaryValue, reason: string)

  datatype Key =
    | StartKey(ctx: string, time: Stamp)
    | EventKey(ctx: string, uri: string, time: Stamp)
    | TrinaryKey(ctx: string, lane: LaneType, name: string, role: Role, time: Stamp,
                 value: TrinaryValue, reason: string)
    | DiscardKey(target: RecordId)
    | EndKey(ctx: string, time: Stamp)

  /** The identity under which an observation is recorded once. A trinary without a URI is named by its title (the
      label of the source). */
  function KeyOf(b: Body): Key {
    match b
    case ScenarioStart(ctx, t, _) => StartKey(ctx, t)
    case EventSeen(ctx, t, uri) => EventKey(ctx, uri, t)
    case TrinarySeen(ctx, t, lane, uri, title, role, value, reason) =>
      TrinaryKey(ctx, lane, if uri != "" then uri else title, role, t, value, reason)
    case Discarded(_, _, target) => DiscardKey(target)
    case ScenarioEnd(ctx, t, _, _, _) => EndKey(ctx, t)
  }

  function Bodies(rs: seq<Record>): seq<Body> {
    seq(|rs|, i requires 0 <= i < |rs| => rs[i].body)
  }

  function BodyKeys(bs: seq<Body>): (keys: seq<Key>) {
    seq(|bs|, i requires 0 <= i < |bs| => KeyOf(bs[i]))
  }

  datatype Record = Record(sequence: nat, body: Body) {
    function Id(): RecordId { R(sequence) }
  }

  datatype ActiveKey = ActiveKey(ctx: string, uri: string)

  datatype Core = Core(
    records: seq<Record>, seen: map<Key, RecordId>, active: map<ActiveKey, set<RecordId>>)

  const EMPTY := Core([], map[], map[])

  predicate IsAssertion(b: Body) {
    b.TrinarySeen? && b.lane.Policy? && b.role.Assertion?
  }

  // ---------- recording ----------

  /** Record an observation unless its key has been seen. */
  function Add(c: Core, b: Body): Core {
    if KeyOf(b) in c.seen then c
    else
      var r := Record(|c.records| + 1, b);
      c.(records := c.records + [r], seen := c.seen[KeyOf(b) := r.Id()])
  }

  function AddAll(c: Core, bs: seq<Body>): Core {
    if bs == [] then c else Add(AddAll(c, bs[..|bs| - 1]), bs[|bs| - 1])
  }

  /** The record ids under which the given observations are stored. */
  function Ids(c: Core, bs: seq<Body>): set<RecordId> {
    set b | b in bs && KeyOf(b) in c.seen :: c.seen[KeyOf(b)]
  }

  function ActiveAt(c: Core, k: ActiveKey): set<RecordId> {
    if k in c.active then c.active[k] else {}
  }

  // ---------- what a message contains ----------

  function TrinaryBodies(ctx: string, lane: LaneType, uri: string, title: string, role: Role, t: Trinary): seq<Body> {
    if HasTime(t.stamp) then [TrinarySeen(ctx, t.stamp, lane, uri, title, role, t.value, t.reason)] else []
  }

  /** The timed assertions of a fluent inside its observation window. */
  function AssertionBodies(ctx: string, f: Fluent, items: seq<Trinary>): seq<Body> {
    if items == [] then []
    else
      var t := items[|items| - 1];
      AssertionBodies(ctx, f, items[..|items| - 1])
      + if InWindow(f, t.stamp) then TrinaryBodies(ctx, Policy, f.uri, f.representation, Assertion, t) else []
  }

  function ResultBodies(ctx: string, f: Fluent): seq<Body> {
    TrinaryBodies(ctx, Policy, f.uri, f.representation, Result, f.result)
  }

  function StartBodies(s: Scenario): seq<Body> {
    if HasTime(s.start) then [ScenarioStart(s.contextId, s.start, s.representation)] else []
  }

  function EventBodies(ctx: string, events: seq<Event>): seq<Body> {
    seq(|events|, i requires 0 <= i < |events| => EventSeen(ctx, events[i].stamp, events[i].uri))
  }

  function BehaviourBodies(s: Scenario): seq<Body> {
    TrinaryBodies(s.contextId, Behaviour, "", s.behaviour, Result, s.behaviourResult)
  }

  function EndBodies(s: Scenario): seq<Body> {
    if HasTime(s.end)
    then [ScenarioEnd(s.contextId, s.end, s.representation, s.result.value, s.result.reason)]
    else []
  }

  /** A message is processed chunk by chunk: plain observations, or one fluent with its discards. */
  datatype Chunk =
    | Plain(bodies: seq<Body>)
    | OfFluent(ctx: string, stamp: Stamp, fluent: Fluent)
  {
    function Key(): ActiveKey requires OfFluent? { ActiveKey(ctx, fluent.uri) }

    function Asserted(): seq<Body> requires OfFluent? { AssertionBodies(ctx, fluent, fluent.trinaries) }

    function Observed(): seq<Body> {
      if Plain? then bodies else Asserted() + ResultBodies(ctx, fluent)
    }

    predicate WellFormed() {
      Plain? ==> forall b :: b in bodies ==> !IsAssertion(b) && !b.Discarded?
    }
  }

  function FluentChunks(ctx: string, stamp: Stamp, fs: seq<Fluent>): seq<Chunk> {
    seq(|fs|, i requires 0 <= i < |fs| => OfFluent(ctx, stamp, fs[i]))
  }

  function ScenarioChunks(stamp: Stamp, s: Scenario): seq<Chunk> {
    [Plain(StartBodies(s) + EventBodies(s.contextId, s.events) + BehaviourBodies(s))]
    + FluentChunks(s.contextId, stamp, s.fluents)
    + [Plain(EndBodies(s))]
  }

  function ScenariosChunks(stamp: Stamp, ss: seq<Scenario>): seq<Chunk> {
    if ss == [] then []
    else ScenariosChunks(stamp, ss[..|ss| - 1]) + ScenarioChunks(stamp, ss[|ss| - 1])
  }

  function Chunks(msg: StatusList): seq<Chunk> {
    ScenariosChunks(msg.stamp, msg.scenarios)
  }

  function Observed(chunks: seq<Chunk>): seq<Body> {
    if chunks == [] then []
    else Observed(chunks[..|chunks| - 1]) + chunks[|chunks| - 1].Observed()
  }

  function Stream(msgs: seq<StatusList>): seq<Body> {
    if msgs == [] then [] else Stream(msgs[..|msgs| - 1]) + Observed(Chunks(msgs[|msgs| - 1]))
  }

  // ---------- what a message does ----------

  /** `order` lists the members of `ids` once each, in the order a Python set happens to yield them. */
  ghost predicate Enumerates(order: seq<RecordId>, ids: set<RecordId>) {
    && (forall id :: id in order <==> id in ids)
    && (forall i, j :: 0 <= i < j < |order| ==> order[i] != order[j])
  }

  function Discards(ctx: string, stamp: Stamp, order: seq<RecordId>): seq<Body> {
    seq(|order|, i requires 0 <= i < |order| => Discarded(ctx, stamp, order[i]))
  }

  /** The assertions that were active for the fluent and are no longer reported. */
  function Stale(c: Core, ch: Chunk): set<RecordId>
    requires ch.OfFluent?
  {
    ActiveAt(c, ch.Key()) - Ids(AddAll(c, ch.Observed()), ch.Asserted())
  }

  function FluentPost(c: Core, ch: Chunk, order: seq<RecordId>): Core
    requires ch.OfFluent?
  {
    var c1 := AddAll(c, ch.Observed());
    var c2 := AddAll(c1, Discards(ch.ctx, ch.stamp, order));
    c2.(active := c2.active[ch.Key() := Ids(c1, ch.Asserted())])
  }

  ghost predicate Step(c: Core, ch: Chunk, c': Core) {
    match ch
    case Plain(bodies) => c' == AddAll(c, bodies)
    case OfFluent(_, _, _) => exists order :: Enumerates(order, Stale(c, ch)) && c' == FluentPost(c, ch, order)
  }

  ghost predicate Runs(c: Core, chunks: seq<Chunk>, c': Core) {
    if chunks == [] then c' == c
    else
      var front, last := chunks[..|chunks| - 1], chunks[|chunks| - 1];
      exists m :: Runs(c, front, m) && Step(m, last, c')
  }

  ghost predicate Ingests(c: Core, msg: StatusList, c': Core) {
    Runs(c, Chunks(msg), c')
  }

  /** `c` is a history that ingesting `msgs` in order can produce. */
  ghost predicate Reaches(msgs: seq<StatusList>, c: Core) {
    if msgs == [] then c == EMPTY
    else
      var front, last := msgs[..|msgs| - 1], msgs[|msgs| - 1];
      exists m :: Reaches(front, m) && Ingests(m, last, c)
  }

  // ---------- invariants ----------

  /** Sequence numbers are 1..n. */
  ghost predicate Numbered(rs: seq<Record>) {
    forall i :: 0 <= i < |rs| ==> rs[i].sequence == i + 1
  }

  function KeysOf(rs: seq<Record>): seq<Key> {
    BodyKeys(Bodies(rs))
  }

  /** `seen` is a bijection between the keys, in recording order, and the ids 1..n. */
  ghost predicate IndexedBy<K>(keys: seq<K>, seen: map<K, RecordId>) {
    && (forall i :: 0 <= i < |keys| ==> keys[i] in seen && seen[keys[i]] == R(i + 1))
    && (forall k :: k in seen ==> 1 <= seen[k].n <= |keys| && keys[seen[k].n - 1] == k)
  }

  ghost predicate Indexed(c: Core) {
    IndexedBy(KeysOf(c.records), c.seen)
  }

  /** `id` names one of the first `bound` records, an assertion of context `ctx`. */
  ghost predicate Names(rs: seq<Record>, bound: nat, id: RecordId, ctx: string) {
    1 <= id.n <= bound <= |rs| && IsAssertion(rs[id.n - 1].body) && rs[id.n - 1].body.ctx == ctx
  }

  ghost predicate ActiveOk(c: Core) {
    forall k, id :: k in c.active && id in c.active[k] ==> Names(c.records, |c.records|, id, k.ctx)
  }

  /** A discard refers to a strictly earlier assertion of its own context. */
  ghost predicate DiscardsOk(c: Core) {
    forall i :: 0 <= i < |c.records| && c.records[i].body.Discarded? ==>
      Names(c.records, i, c.records[i].body.target, c.records[i].body.ctx)
  }

  ghost predicate Inv(c: Core) {
    Numbered(c.records) && Indexed(c) && ActiveOk(c) && DiscardsOk(c)
  }

  ghost predicate IsActive(c: Core, id: RecordId) {
    exists k :: k in c.active && id in c.active[k]
  }

  ghost predicate IsDiscarded(rs: seq<Record>, id: RecordId) {
    exists i :: 0 <= i < |rs| && rs[i].body.Discarded? && rs[i].body.target == id
  }

  /** No assertion is lost: each is active, discarded, or in `open` (the fluent under way). */
  ghost predicate Covered(c: Core, open: set<RecordId>) {
    forall i :: 0 <= i < |c.records| && IsAssertion(c.records[i].body) ==>
      IsActive(c, R(i + 1)) || DiscardKey(R(i + 1)) in c.seen || R(i + 1) in open
  }

  ghost predicate Extends(c: Core, c': Core) {
    && c.records <= c'.records
    && forall k :: k in c.seen ==> k in c'.seen && c'.seen[k] == c.seen[k]
  }

  /** A body that may be recorded: a discard must name an earlier assertion of its context. */
  ghost predicate Recordable(c: Core, b: Body) {
    b.Discarded? ==> Names(c.records, |c.records|, b.target, b.ctx)
  }

  // ---------- one observation, many observations ----------

  /** Names survive when records are appended. */
  lemma NamesExtend(rs: seq<Record>, rs': seq<Record>, bound: nat, bound': nat, id: RecordId, ctx: string)
    requires rs <= rs' && bound <= bound' <= |rs'| && Names(rs, bound, id, ctx)
    ensures Names(rs', bound', id, ctx)
  {
  }

  lemma IndexAppend<K>(keys: seq<K>, seen: map<K, RecordId>, key: K)
    requires IndexedBy(keys, seen) && key !in seen
    ensures IndexedBy(keys + [key], seen[key := R(|keys| + 1)])
  {
  }

  lemma KeysAppend(rs: seq<Record>, r: Record)
    ensures KeysOf(rs + [r]) == KeysOf(rs) + [KeyOf(r.body)]
  {
    assert Bodies(rs + [r]) == Bodies(rs) + [r.body];
  }

  lemma AddIndexed(c: Core, b: Body)
    requires Numbered(c.records) && Indexed(c)
    ensures Numbered(Add(c, b).records) && Indexed(Add(c, b)) && Extends(c, Add(c, b))
    ensures Add(c, b).seen.Keys == c.seen.Keys + {KeyOf(b)}
  {
    if KeyOf(b) !in c.seen {
      IndexAppend(KeysOf(c.records), c.seen, KeyOf(b));
      KeysAppend(c.records, Record(|c.records| + 1, b));
    }
  }

  lemma AddKeeps(c: Core, b: Body)
    requires Inv(c) && Recordable(c, b)
    ensures Inv(Add(c, b)) && Extends(c, Add(c, b)) && Add(c, b).active == c.active
    ensures Add(c, b).seen.Keys == c.seen.Keys + {KeyOf(b)}
  {
    AddIndexed(c, b);
    var c' := Add(c, b);
    forall k, id | k in c'.active && id in c'.active[k] ensures Names(c'.records, |c'.records|, id, k.ctx) {
      NamesExtend(c.records, c'.records, |c.records|, |c'.records|, id, k.ctx);
    }
    forall i | 0 <= i < |c'.records| && c'.records[i].body.Discarded?
      ensures Names(c'.records, i, c'.records[i].body.target, c'.records[i].body.ctx)
    {
      var d := c'.records[i].body;
      if i < |c.records| {
        NamesExtend(c.records, c'.records, i, i, d.target, d.ctx);
      } else {
        NamesExtend(c.records, c'.records, |c.records|, i, d.target, d.ctx);
      }
    }
  }

  /** Recording only ever extends the history and the index. */
  lemma {:induction false} AddAllGrows(c: Core, bs: seq<Body>)
    ensures Extends(c, AddAll(c, bs)) && AddAll(c, bs).active == c.active
  {
    if bs != [] {
      AddAllGrows(c, bs[..|bs| - 1]);
    }
  }

  lemma {:induction false} AddAllKeys(c: Core, bs: seq<Body>)
    ensures forall k :: k in AddAll(c, bs).seen <==> k in c.seen || k in BodyKeys(bs)
  {
    if bs != [] {
      var n := |bs| - 1;
      AddAllKeys(c, bs[..n]);
      assert BodyKeys(bs) == BodyKeys(bs[..n]) + [KeyOf(bs[n])];
    }
  }

  lemma LaterRecordable(c: Core, m: Core, b: Body)
    requires Recordable(c, b) && Extends(c, m)
    ensures Recordable(m, b)
  {
    if b.Discarded? {
      NamesExtend(c.records, m.records, |c.records|, |m.records|, b.target, b.ctx);
    }
  }

  lemma {:induction false} AddAllInv(c: Core, bs: seq<Body>)
    requires Inv(c) && forall b :: b in bs ==> Recordable(c, b)
    ensures Inv(AddAll(c, bs))
  {
    if bs != [] {
      var n := |bs| - 1;
      AddAllInv(c, bs[..n]);
      AddAllGrows(c, bs[..n]);
      assert bs[n] in bs;
      LaterRecordable(c, AddAll(c, bs[..n]), bs[n]);
      AddKeeps(AddAll(c, bs[..n]), bs[n]);
    }
  }

  lemma AddAllKeeps(c: Core, bs: seq<Body>)
    requires Inv(c) && forall b :: b in bs ==> Recordable(c, b)
    ensures Inv(AddAll(c, bs)) && Extends(c, AddAll(c, bs)) && AddAll(c, bs).active == c.active
    ensures forall k :: k in AddAll(c, bs).seen <==> k in c.seen || k in BodyKeys(bs)
  {
    AddAllInv(c, bs);
    AddAllGrows(c, bs);
    AddAllKeys(c, bs);
  }

  lemma IdsStable(c: Core, c': Core, bs: seq<Body>)
    requires Extends(c, c') && forall b :: b in bs ==> KeyOf(b) in c.seen
    ensures Ids(c', bs) == Ids(c, bs)
  {
  }

  lemma KnownAfter(c: Core, bs: seq<Body>, b: Body)
    requires b in bs && forall k :: k in AddAll(c, bs).seen <==> k in c.seen || k in BodyKeys(bs)
    ensures KeyOf(b) in AddAll(c, bs).seen
  {
    var j :| 0 <= j < |bs| && bs[j] == b;
    assert BodyKeys(bs)[j] == KeyOf(b);
  }

  lemma {:induction false} AddAllConcat(c: Core, xs: seq<Body>, ys: seq<Body>)
    ensures AddAll(c, xs + ys) == AddAll(AddAll(c, xs), ys)
  {
    if ys == [] {
      assert xs + ys == xs;
    } else {
      var n := |ys| - 1;
      assert (xs + ys)[..|xs + ys| - 1] == xs + ys[..n];
      AddAllConcat(c, xs, ys[..n]);
    }
  }

  /** Observations whose keys are all known change nothing. */
  lemma {:induction false} AddAllKnown(c: Core, bs: seq<Body>)
    requires forall b :: b in bs ==> KeyOf(b) in c.seen
    ensures AddAll(c, bs) == c
  {
    if bs != [] {
      AddAllKnown(c, bs[..|bs| - 1]);
    }
  }

  lemma {:induction false} AssertionsAre(ctx: string, f: Fluent, items: seq<Trinary>)
    ensures forall b :: b in AssertionBodies(ctx, f, items) ==> IsAssertion(b) && b.ctx == ctx && b.uri == f.uri
  {
    if items != [] {
      AssertionsAre(ctx, f, items[..|items| - 1]);
    }
  }

  /** The asserted bodies of a fluent are exactly its timed trinaries inside the window. */
  lemma {:induction false} AssertionBodiesAre(ctx: string, f: Fluent, items: seq<Trinary>, b: Body)
    ensures b in AssertionBodies(ctx, f, items) <==>
            exists t :: t in items && HasTime(t.stamp) && InWindow(f, t.stamp)
                        && b == TrinarySeen(ctx, t.stamp, Policy, f.uri, f.representation, Assertion, t.value, t.reason)
  {
    if items != [] {
      var n := |items| - 1;
      AssertionBodiesAre(ctx, f, items[..n], b);
      assert items == items[..n] + [items[n]];
    }
  }

  // ---------- one chunk ----------

  lemma SameKeySameKind(c: Core, b: Body, id: RecordId)
    requires Indexed(c) && IsAssertion(b) && KeyOf(b) in c.seen && c.seen[KeyOf(b)] == id
    ensures Names(c.records, |c.records|, id, b.ctx)
  {
    assert KeysOf(c.records)[id.n - 1] == KeyOf(b);
  }

  /** Everything asserted by a recorded fluent is an assertion of its context. */
  lemma IdsAreAssertions(c: Core, ch: Chunk)
    requires Inv(c) && ch.OfFluent?
    ensures forall id :: id in Ids(c, ch.Asserted()) ==> Names(c.records, |c.records|, id, ch.ctx)
  {
    AssertionsAre(ch.ctx, ch.fluent, ch.fluent.trinaries);
    forall id | id in Ids(c, ch.Asserted()) ensures Names(c.records, |c.records|, id, ch.ctx) {
      var b :| b in ch.Asserted() && KeyOf(b) in c.seen && c.seen[KeyOf(b)] == id;
      SameKeySameKind(c, b, id);
    }
  }

  lemma DiscardsRecordable(c: Core, ch: Chunk, order: seq<RecordId>)
    requires Inv(c) && ch.OfFluent? && Enumerates(order, Stale(c, ch))
    ensures forall b :: b in Discards(ch.ctx, ch.stamp, order) ==> Recordable(AddAll(c, ch.Observed()), b)
  {
    AssertionsAre(ch.ctx, ch.fluent, ch.fluent.trinaries);
    AddAllKeeps(c, ch.Observed());
    forall b | b in Discards(ch.ctx, ch.stamp, order) ensures Recordable(AddAll(c, ch.Observed()), b) {
      assert b.target in order;
      assert b.target in ActiveAt(c, ch.Key());
    }
  }

  lemma FluentKeeps(c: Core, ch: Chunk, order: seq<RecordId>)
    requires Inv(c) && ch.OfFluent? && Enumerates(order, Stale(c, ch))
    ensures Inv(FluentPost(c, ch, order)) && Extends(c, FluentPost(c, ch, order))
  {
    AssertionsAre(ch.ctx, ch.fluent, ch.fluent.trinaries);
    AddAllKeeps(c, ch.Observed());
    DiscardsRecordable(c, ch, order);
    var c1 := AddAll(c, ch.Observed());
    var c2 := AddAll(c1, Discards(ch.ctx, ch.stamp, order));
    AddAllKeeps(c1, Discards(ch.ctx, ch.stamp, order));
    IdsAreAssertions(c1, ch);
    var c3 := FluentPost(c, ch, order);
    forall k, id | k in c3.active && id in c3.active[k] ensures Names(c3.records, |c3.records|, id, k.ctx) {
      if k == ch.Key() {
        NamesExtend(c1.records, c2.records, |c1.records|, |c2.records|, id, ch.ctx);
      }
    }
  }

  lemma StepKeeps(c: Core, ch: Chunk, c': Core)
    requires Inv(c) && ch.WellFormed() && Step(c, ch, c')
    ensures Inv(c') && Extends(c, c')
  {
    if ch.Plain? {
      AddAllKeeps(c, ch.bodies);
    } else {
      var order :| Enumerates(order, Stale(c, ch)) && c' == FluentPost(c, ch, order);
      FluentKeeps(c, ch, order);
    }
  }

  /** A record that `AddAll` appended comes from one of its bodies. */
  lemma NewlyObserved(c: Core, bs: seq<Body>, i: nat)
    requires Inv(c) && Inv(AddAll(c, bs)) && |c.records| <= i < |AddAll(c, bs).records|
    requires Extends(c, AddAll(c, bs))
    requires forall k :: k in AddAll(c, bs).seen <==> k in c.seen || k in BodyKeys(bs)
    ensures exists b :: b in bs && KeyOf(b) == KeyOf(AddAll(c, bs).records[i].body)
                        && KeyOf(b) in AddAll(c, bs).seen && AddAll(c, bs).seen[KeyOf(b)] == R(i + 1)
  {
    var c' := AddAll(c, bs);
    var k := KeysOf(c'.records)[i];
    assert c'.seen[k] == R(i + 1);
    assert k !in c.seen && k in c'.seen;
    var j :| 0 <= j < |bs| && BodyKeys(bs)[j] == k;
    assert bs[j] in bs;
  }

  lemma NewIsOpen(c: Core, bs: seq<Body>, open: set<RecordId>, i: nat)
    requires Inv(c) && Inv(AddAll(c, bs)) && |c.records| <= i < |AddAll(c, bs).records| && Extends(c, AddAll(c, bs))
    requires forall k :: k in AddAll(c, bs).seen <==> k in c.seen || k in BodyKeys(bs)
    requires IsAssertion(AddAll(c, bs).records[i].body)
    requires forall b :: b in bs && IsAssertion(b) ==>
               KeyOf(b) in AddAll(c, bs).seen && AddAll(c, bs).seen[KeyOf(b)] in open
    ensures R(i + 1) in open
  {
    NewlyObserved(c, bs, i);
    var b :| b in bs && KeyOf(b) == KeyOf(AddAll(c, bs).records[i].body)
             && KeyOf(b) in AddAll(c, bs).seen && AddAll(c, bs).seen[KeyOf(b)] == R(i + 1);
    assert IsAssertion(b);
  }

  lemma StillActive(c: Core, c': Core, id: RecordId)
    requires c'.active == c.active
    ensures IsActive(c, id) == IsActive(c', id)
  {
  }

  /** Recording keeps every assertion accounted for, when the new ones are in `open`. */
  lemma AddAllCovers(c: Core, bs: seq<Body>, open: set<RecordId>)
    requires Inv(c) && (forall b :: b in bs ==> Recordable(c, b)) && Covered(c, open)
    requires forall b :: b in bs && IsAssertion(b) ==>
               KeyOf(b) in AddAll(c, bs).seen && AddAll(c, bs).seen[KeyOf(b)] in open
    ensures Covered(AddAll(c, bs), open)
  {
    var c' := AddAll(c, bs);
    AddAllKeeps(c, bs);
    forall i | 0 <= i < |c'.records| && IsAssertion(c'.records[i].body)
      ensures IsActive(c', R(i + 1)) || DiscardKey(R(i + 1)) in c'.seen || R(i + 1) in open
    {
      if i < |c.records| {
        assert c'.records[i] == c.records[i];
        StillActive(c, c', R(i + 1));
      } else {
        NewIsOpen(c, bs, open, i);
      }
    }
  }

  /** After a fluent's discards, closing it accounts for what was open. */
  lemma CloseFluent(c2: Core, k: ActiveKey, current: set<RecordId>)
    requires Covered(c2, current)
    requires forall id :: id in ActiveAt(c2, k) && id !in current ==> DiscardKey(id) in c2.seen
    ensures Covered(c2.(active := c2.active[k := current]), {})
  {
    var c' := c2.(active := c2.active[k := current]);
    forall i | 0 <= i < |c'.records| && IsAssertion(c'.records[i].body)
      ensures IsActive(c', R(i + 1)) || DiscardKey(R(i + 1)) in c'.seen
    {
      var id := R(i + 1);
      if id in current {
        assert k in c'.active && id in c'.active[k];
      } else if IsActive(c2, id) {
        var ak :| ak in c2.active && id in c2.active[ak];
        if ak != k {
          assert ak in c'.active && id in c'.active[ak];
        }
      }
    }
  }

  /** Once a fluent's observations are recorded, the assertions it reports are all that may be open. */
  lemma ObservedCovers(c: Core, ch: Chunk)
    requires Inv(c) && ch.OfFluent? && Covered(c, {})
    ensures Covered(AddAll(c, ch.Observed()), Ids(AddAll(c, ch.Observed()), ch.Asserted()))
  {
    AssertionsAre(ch.ctx, ch.fluent, ch.fluent.trinaries);
    var c1 := AddAll(c, ch.Observed());
    var current := Ids(c1, ch.Asserted());
    AddAllKeeps(c, ch.Observed());
    assert Covered(c, current);
    forall b | b in ch.Observed() && IsAssertion(b) ensures KeyOf(b) in c1.seen && c1.seen[KeyOf(b)] in current {
      KnownAfter(c, ch.Observed(), b);
      assert b in ch.Asserted();
    }
    AddAllCovers(c, ch.Observed(), current);
  }

  /** Once its discards are recorded, each stale assertion has one. */
  lemma StaleDiscarded(c1: Core, ctx: string, stamp: Stamp, order: seq<RecordId>, id: RecordId)
    requires id in order
    ensures DiscardKey(id) in AddAll(c1, Discards(ctx, stamp, order)).seen
  {
    var ds := Discards(ctx, stamp, order);
    var j :| 0 <= j < |order| && order[j] == id;
    assert ds[j] in ds && KeyOf(ds[j]) == DiscardKey(id);
    AddAllKeys(c1, ds);
    KnownAfter(c1, ds, ds[j]);
  }

  lemma DiscardsCover(c: Core, ch: Chunk, order: seq<RecordId>)
    requires Inv(c) && ch.OfFluent? && Enumerates(order, Stale(c, ch))
    requires Covered(AddAll(c, ch.Observed()), Ids(AddAll(c, ch.Observed()), ch.Asserted()))
    ensures Covered(FluentPost(c, ch, order), {})
  {
    var c1 := AddAll(c, ch.Observed());
    var current := Ids(c1, ch.Asserted());
    var ds := Discards(ch.ctx, ch.stamp, order);
    var c2 := AddAll(c1, ds);
    AssertionsAre(ch.ctx, ch.fluent, ch.fluent.trinaries);
    AddAllKeeps(c, ch.Observed());
    DiscardsRecordable(c, ch, order);
    AddAllCovers(c1, ds, current);
    AddAllGrows(c1, ds);
    forall id | id in ActiveAt(c2, ch.Key()) && id !in current ensures DiscardKey(id) in c2.seen {
      assert id in Stale(c, ch);
      StaleDiscarded(c1, ch.ctx, ch.stamp, order, id);
    }
    CloseFluent(c2, ch.Key(), current);
  }

  /** A chunk loses no assertion: what stops being active is discarded. */
  lemma StepCovers(c: Core, ch: Chunk, c': Core)
    requires Inv(c) && ch.WellFormed() && Covered(c, {}) && Step(c, ch, c')
    ensures Covered(c', {})
  {
    if ch.Plain? {
      AddAllCovers(c, ch.bodies, {});
    } else {
      var order :| Enumerates(order, Stale(c, ch)) && c' == FluentPost(c, ch, order);
      ObservedCovers(c, ch);
      DiscardsCover(c, ch, order);
    }
  }
}
