/** What the messages say, and that each of it is recorded exactly once: told from the fields of the messages and of the
    records, without the store's keys. */
module Identity {
  import opened StatusMessages
  import opened History
  import opened HistoryLaws

  /** Not after, as (sec, nanosec) pairs are ordered. */
  predicate NotAfter(a: Stamp, b: Stamp) {
    a.sec < b.sec || (a.sec == b.sec && a.nanosec <= b.nanosec)
  }

  /** A trinary is reported for the fluent: as its result, or among its assertions and inside its bounds, which do not
      restrict when they are zero. */
  ghost predicate SaysOf(f: Fluent, role: Role, t: Trinary) {
    match role
    case Result => t == f.result
    case Assertion =>
      && t in f.trinaries
      && (f.start == Stamp(0, 0) || NotAfter(f.start, t.stamp))
      && (f.end == Stamp(0, 0) || NotAfter(t.stamp, f.end))
  }

  /** The status of a scenario reports the observation. */
  ghost predicate Says(s: Scenario, b: Body) {
    b.ctx == s.contextId
    && match b
       case ScenarioStart(_, t, title) => t == s.start != Stamp(0, 0) && title == s.representation
       case EventSeen(_, t, uri) => Event(t, uri) in s.events
       case TrinarySeen(_, t, Behaviour, uri, title, role, value, reason) =>
         t != Stamp(0, 0) && uri == "" && title == s.behaviour && role == Result
         && s.behaviourResult == Trinary(t, value, reason)
       case TrinarySeen(_, t, Policy, uri, title, role, value, reason) =>
         t != Stamp(0, 0)
         && exists f :: f in s.fluents && uri == f.uri && title == f.representation
                        && SaysOf(f, role, Trinary(t, value, reason))
       case ScenarioEnd(_, t, title, value, reason) =>
         t == s.end != Stamp(0, 0) && title == s.representation && value == s.result.value && reason == s.result.reason
       case Discarded(_, _, _) => false
  }

  ghost predicate SaidIn(m: StatusList, b: Body) {
    exists s :: s in m.scenarios && Says(s, b)
  }

  ghost predicate Said(msgs: seq<StatusList>, b: Body) {
    exists m :: m in msgs && SaidIn(m, b)
  }

  /** The two are one observation: the same start or end of a context, the same event at the same time, or the same
      trinary, whose title counts only when it has no URI. */
  predicate SameObservation(a: Body, b: Body) {
    match a
    case ScenarioStart(ctx, t, _) => b.ScenarioStart? && b.ctx == ctx && b.stamp == t
    case EventSeen(_, _, _) => a == b
    case TrinarySeen(ctx, t, lane, uri, title, role, value, reason) =>
      && b.TrinarySeen? && b.ctx == ctx && b.stamp == t && b.lane == lane && b.role == role
      && b.value == value && b.reason == reason
      && (if uri != "" then uri else title) == (if b.uri != "" then b.uri else b.title)
    case ScenarioEnd(ctx, t, _, _, _) => b.ScenarioEnd? && b.ctx == ctx && b.stamp == t
    case Discarded(_, _, target) => b.Discarded? && b.target == target
  }

  // ---------- what is observed is what the messages say ----------

  lemma SameKey(a: Body, b: Body)
    ensures KeyOf(a) == KeyOf(b) <==> SameObservation(a, b)
  {
  }

  ghost predicate ObservedBy(chunks: seq<Chunk>, b: Body) {
    exists ch :: ch in chunks && b in ch.Observed()
  }

  lemma {:induction false} ObservedIn(chunks: seq<Chunk>, b: Body)
    ensures b in Observed(chunks) <==> ObservedBy(chunks, b)
  {
    if chunks != [] {
      var n := |chunks| - 1;
      ObservedIn(chunks[..n], b);
      assert chunks == chunks[..n] + [chunks[n]];
    }
  }

  lemma ObservedConcat(xs: seq<Chunk>, ys: seq<Chunk>, b: Body)
    ensures ObservedBy(xs + ys, b) <==> ObservedBy(xs, b) || ObservedBy(ys, b)
  {
  }

  lemma FluentSays(ctx: string, f: Fluent, b: Body)
    ensures b in AssertionBodies(ctx, f, f.trinaries) + ResultBodies(ctx, f) <==>
            b.TrinarySeen? && b.ctx == ctx && b.lane == Policy && b.uri == f.uri && b.title == f.representation
            && b.stamp != Stamp(0, 0) && SaysOf(f, b.role, Trinary(b.stamp, b.value, b.reason))
  {
    AssertionBodiesAre(ctx, f, f.trinaries, b);
    if b.TrinarySeen? {
      var t := Trinary(b.stamp, b.value, b.reason);
      assert t in f.trinaries ==> t in f.trinaries && t.stamp == b.stamp;
    }
  }

  lemma PlainSays(s: Scenario, b: Body)
    ensures b in StartBodies(s) <==> b.ScenarioStart? && Says(s, b)
    ensures b in EventBodies(s.contextId, s.events) <==> b.EventSeen? && Says(s, b)
    ensures b in BehaviourBodies(s) <==> b.TrinarySeen? && b.lane.Behaviour? && Says(s, b)
    ensures b in EndBodies(s) <==> b.ScenarioEnd? && Says(s, b)
  {
    if b.EventSeen? && Says(s, b) {
      var i :| 0 <= i < |s.events| && s.events[i] == Event(b.stamp, b.uri);
      assert EventBodies(s.contextId, s.events)[i] == b;
    }
  }

  lemma FluentsSay(s: Scenario, stamp: Stamp, b: Body)
    ensures ObservedBy(FluentChunks(s.contextId, stamp, s.fluents), b) <==>
            b.TrinarySeen? && b.lane == Policy && Says(s, b)
  {
    var chunks := FluentChunks(s.contextId, stamp, s.fluents);
    if ObservedBy(chunks, b) {
      var ch :| ch in chunks && b in ch.Observed();
      FluentSays(s.contextId, ch.fluent, b);
    }
    if b.TrinarySeen? && b.lane == Policy && Says(s, b) {
      var f :| f in s.fluents && b.uri == f.uri && b.title == f.representation
               && SaysOf(f, b.role, Trinary(b.stamp, b.value, b.reason));
      FluentSays(s.contextId, f, b);
      var i :| 0 <= i < |s.fluents| && s.fluents[i] == f;
      assert chunks[i] in chunks && b in chunks[i].Observed();
    }
  }

  lemma ScenarioSays(stamp: Stamp, s: Scenario, b: Body)
    ensures ObservedBy(ScenarioChunks(stamp, s), b) <==> Says(s, b)
  {
    var head := StartBodies(s) + EventBodies(s.contextId, s.events) + BehaviourBodies(s);
    var fluents := FluentChunks(s.contextId, stamp, s.fluents);
    ObservedConcat([Plain(head)] + fluents, [Plain(EndBodies(s))], b);
    ObservedConcat([Plain(head)], fluents, b);
    assert Plain(head) in [Plain(head)] && Plain(EndBodies(s)) in [Plain(EndBodies(s))];
    PlainSays(s, b);
    FluentsSay(s, stamp, b);
  }

  lemma ScenariosSnoc(stamp: Stamp, ss: seq<Scenario>, s: Scenario)
    ensures ScenariosChunks(stamp, ss + [s]) == ScenariosChunks(stamp, ss) + ScenarioChunks(stamp, s)
  {
    assert (ss + [s])[..|ss|] == ss;
  }

  ghost predicate SaidAmong(ss: seq<Scenario>, b: Body) {
    exists s :: s in ss && Says(s, b)
  }

  lemma SaidSnoc(ss: seq<Scenario>, s: Scenario, b: Body)
    ensures SaidAmong(ss + [s], b) <==> SaidAmong(ss, b) || Says(s, b)
  {
    assert s in ss + [s];
  }

  lemma {:induction false} ScenariosSay(stamp: Stamp, ss: seq<Scenario>, b: Body)
    ensures ObservedBy(ScenariosChunks(stamp, ss), b) <==> SaidAmong(ss, b)
  {
    if ss != [] {
      var front, s := ss[..|ss| - 1], ss[|ss| - 1];
      assert ss == front + [s];
      ScenariosSay(stamp, front, b);
      ScenarioSays(stamp, s, b);
      ScenariosSnoc(stamp, front, s);
      ObservedConcat(ScenariosChunks(stamp, front), ScenarioChunks(stamp, s), b);
      SaidSnoc(front, s, b);
    }
  }

  lemma MessageSays(m: StatusList, b: Body)
    ensures b in Observed(Chunks(m)) <==> SaidIn(m, b)
  {
    ObservedIn(Chunks(m), b);
    ScenariosSay(m.stamp, m.scenarios, b);
  }

  lemma {:induction false} StreamSays(msgs: seq<StatusList>, b: Body)
    ensures b in Stream(msgs) <==> Said(msgs, b)
  {
    if msgs != [] {
      var n := |msgs| - 1;
      StreamSays(msgs[..n], b);
      MessageSays(msgs[n], b);
      assert msgs == msgs[..n] + [msgs[n]];
    }
  }

  // ---------- what is recorded is what was observed, once ----------

  lemma {:induction false} WithoutFrom(bs: seq<Body>, key: Key)
    ensures forall b :: b in Without(bs, key) ==> b in bs
  {
    if bs != [] {
      WithoutFrom(bs[1..], key);
    }
  }

  lemma {:induction false} FirstOccurrencesFrom(bs: seq<Body>)
    ensures forall b :: b in FirstOccurrences(bs) ==> b in bs
    decreases |bs|
  {
    if bs != [] {
      FirstOccurrencesFrom(bs[1..]);
      WithoutFrom(FirstOccurrences(bs[1..]), KeyOf(bs[0]));
    }
  }

  lemma {:induction false} NonDiscardsHold(rs: seq<Record>, i: nat)
    requires i < |rs| && !rs[i].body.Discarded?
    ensures rs[i].body in NonDiscards(rs)
  {
    if i < |rs| - 1 {
      NonDiscardsHold(rs[..|rs| - 1], i);
    }
  }

  /** Every record but a discard holds what some message says. */
  lemma RecordedWasSaid(msgs: seq<StatusList>, c: Core, i: nat)
    requires Reaches(msgs, c) && i < |c.records| && !c.records[i].body.Discarded?
    ensures Said(msgs, c.records[i].body)
  {
    Deduplication(msgs, c);
    NonDiscardsHold(c.records, i);
    FirstOccurrencesFrom(Stream(msgs));
    StreamSays(msgs, c.records[i].body);
  }

  ghost predicate RecordedAt(c: Core, i: int, b: Body) {
    0 <= i < |c.records| && SameObservation(c.records[i].body, b)
  }

  lemma SaidIsKnown(msgs: seq<StatusList>, c: Core, b: Body)
    requires Reaches(msgs, c) && Said(msgs, b)
    ensures KeyOf(b) in c.seen
  {
    var bs := Stream(msgs);
    StreamSays(msgs, b);
    var j :| 0 <= j < |bs| && bs[j] == b;
    assert BodyKeys(bs)[j] == KeyOf(b);
    ObservedKey(msgs, c, KeyOf(b));
  }

  /** What some message says is recorded. */
  lemma SaidIsRecorded(msgs: seq<StatusList>, c: Core, b: Body) returns (i: nat)
    requires Reaches(msgs, c) && Said(msgs, b)
    ensures RecordedAt(c, i, b)
  {
    SaidIsKnown(msgs, c, b);
    ReachableKey(msgs, c, KeyOf(b));
    i := c.seen[KeyOf(b)].n - 1;
    SameKey(c.records[i].body, b);
  }

  /** No two records are of one observation. */
  lemma RecordedOnce(msgs: seq<StatusList>, c: Core, i: int, j: int, b: Body)
    requires Reaches(msgs, c) && RecordedAt(c, i, b) && RecordedAt(c, j, b)
    ensures i == j
  {
    SameKey(c.records[i].body, b);
    SameKey(c.records[j].body, b);
    ReachableRecord(msgs, c, i);
    ReachableRecord(msgs, c, j);
  }

  /** After any sequence of messages, an observation is recorded if and only if some message says it or one that is the
      same, and then exactly once. */
  lemma RecordedExactly(msgs: seq<StatusList>, c: Core, b: Body)
    requires Reaches(msgs, c) && !b.Discarded?
    ensures (exists i :: RecordedAt(c, i, b)) <==> exists b' :: Said(msgs, b') && SameObservation(b', b)
    ensures forall i, j :: RecordedAt(c, i, b) && RecordedAt(c, j, b) ==> i == j
  {
    if i :| RecordedAt(c, i, b) {
      RecordedWasSaid(msgs, c, i);
    }
    if b' :| Said(msgs, b') && SameObservation(b', b) {
      var i := SaidIsRecorded(msgs, c, b');
      assert RecordedAt(c, i, b);
    }
    forall i, j | RecordedAt(c, i, b) && RecordedAt(c, j, b) ensures i == j {
      RecordedOnce(msgs, c, i, j, b);
    }
  }

  // ---------- kind by kind ----------

  /** Each occurrence of an event has a record of its own: two stamps of one URI are two records. */
  lemma EventRecorded(msgs: seq<StatusList>, c: Core, m: StatusList, s: Scenario, e: Event) returns (i: nat)
    requires Reaches(msgs, c) && m in msgs && s in m.scenarios && e in s.events
    ensures i < |c.records| && c.records[i].body == EventSeen(s.contextId, e.stamp, e.uri)
    ensures forall j :: 0 <= j < |c.records| && c.records[j].body == EventSeen(s.contextId, e.stamp, e.uri) ==> j == i
  {
    var b := EventSeen(s.contextId, e.stamp, e.uri);
    assert SaidIn(m, b);
    i := SaidIsRecorded(msgs, c, b);
    RecordedExactly(msgs, c, b);
    forall j | 0 <= j < |c.records| && c.records[j].body == b ensures j == i {
      assert RecordedAt(c, j, b);
    }
  }

  predicate IsStart(b: Body, ctx: string, t: Stamp) {
    b.ScenarioStart? && b.ctx == ctx && b.stamp == t
  }

  predicate IsEnd(b: Body, ctx: string, t: Stamp) {
    b.ScenarioEnd? && b.ctx == ctx && b.stamp == t
  }

  /** A context's start and end, when they are set, have one record for each stamp. */
  lemma BoundsRecorded(msgs: seq<StatusList>, c: Core, m: StatusList, s: Scenario)
    requires Reaches(msgs, c) && m in msgs && s in m.scenarios
    ensures s.start != Stamp(0, 0) ==>
              exists i :: 0 <= i < |c.records| && IsStart(c.records[i].body, s.contextId, s.start)
                          && forall j :: 0 <= j < |c.records| && IsStart(c.records[j].body, s.contextId, s.start) ==> j == i
    ensures s.end != Stamp(0, 0) ==>
              exists i :: 0 <= i < |c.records| && IsEnd(c.records[i].body, s.contextId, s.end)
                          && forall j :: 0 <= j < |c.records| && IsEnd(c.records[j].body, s.contextId, s.end) ==> j == i
  {
    var a := ScenarioStart(s.contextId, s.start, s.representation);
    var b := ScenarioEnd(s.contextId, s.end, s.representation, s.result.value, s.result.reason);
    if s.start != Stamp(0, 0) {
      assert SaidIn(m, a);
      var i := SaidIsRecorded(msgs, c, a);
      RecordedExactly(msgs, c, a);
      forall j | 0 <= j < |c.records| && IsStart(c.records[j].body, s.contextId, s.start) ensures j == i {
        assert RecordedAt(c, j, a);
      }
    }
    if s.end != Stamp(0, 0) {
      assert SaidIn(m, b);
      var i := SaidIsRecorded(msgs, c, b);
      RecordedExactly(msgs, c, b);
      forall j | 0 <= j < |c.records| && IsEnd(c.records[j].body, s.contextId, s.end) ensures j == i {
        assert RecordedAt(c, j, b);
      }
    }
  }

  /** The body is the trinary `t` of the clause with this name. */
  predicate IsTrinaryOf(b: Body, ctx: string, lane: LaneType, name: string, role: Role, t: Trinary) {
    b.TrinarySeen? && b.ctx == ctx && b.lane == lane && (if b.uri != "" then b.uri else b.title) == name && b.role == role
    && b.stamp == t.stamp && b.value == t.value && b.reason == t.reason
  }

  lemma TrinaryRecorded(msgs: seq<StatusList>, c: Core, b: Body) returns (i: nat)
    requires Reaches(msgs, c) && Said(msgs, b) && b.TrinarySeen?
    ensures var name, t := if b.uri != "" then b.uri else b.title, Trinary(b.stamp, b.value, b.reason);
            && i < |c.records| && IsTrinaryOf(c.records[i].body, b.ctx, b.lane, name, b.role, t)
            && forall j :: 0 <= j < |c.records| && IsTrinaryOf(c.records[j].body, b.ctx, b.lane, name, b.role, t) ==> j == i
  {
    var name, t := if b.uri != "" then b.uri else b.title, Trinary(b.stamp, b.value, b.reason);
    i := SaidIsRecorded(msgs, c, b);
    RecordedExactly(msgs, c, b);
    forall j | 0 <= j < |c.records| && IsTrinaryOf(c.records[j].body, b.ctx, b.lane, name, b.role, t) ensures j == i {
      assert RecordedAt(c, j, b);
    }
  }

  /** A fluent's result and its assertions inside its bounds, when they have a stamp, have one record each: for the
      clause that its URI names, or else its title. */
  lemma FluentRecorded(msgs: seq<StatusList>, c: Core, m: StatusList, s: Scenario, f: Fluent, role: Role, t: Trinary)
    returns (i: nat)
    requires Reaches(msgs, c) && m in msgs && s in m.scenarios && f in s.fluents
    requires t.stamp != Stamp(0, 0) && SaysOf(f, role, t)
    ensures var name := if f.uri != "" then f.uri else f.representation;
            && i < |c.records| && IsTrinaryOf(c.records[i].body, s.contextId, Policy, name, role, t)
            && forall j :: 0 <= j < |c.records| && IsTrinaryOf(c.records[j].body, s.contextId, Policy, name, role, t) ==> j == i
  {
    var b := TrinarySeen(s.contextId, t.stamp, Policy, f.uri, f.representation, role, t.value, t.reason);
    assert SaidIn(m, b);
    i := TrinaryRecorded(msgs, c, b);
  }

  lemma BehaviourRecorded(msgs: seq<StatusList>, c: Core, m: StatusList, s: Scenario) returns (i: nat)
    requires Reaches(msgs, c) && m in msgs && s in m.scenarios && s.behaviourResult.stamp != Stamp(0, 0)
    ensures i < |c.records| && IsTrinaryOf(c.records[i].body, s.contextId, Behaviour, s.behaviour, Result, s.behaviourResult)
    ensures forall j :: 0 <= j < |c.records| ==>
              IsTrinaryOf(c.records[j].body, s.contextId, Behaviour, s.behaviour, Result, s.behaviourResult) ==> j == i
  {
    var t := s.behaviourResult;
    var b := TrinarySeen(s.contextId, t.stamp, Behaviour, "", s.behaviour, Result, t.value, t.reason);
    assert SaidIn(m, b);
    i := TrinaryRecorded(msgs, c, b);
  }
}
