/** The browser's projection of the history: flagging discarded assertions and sorting records into lanes. */
module TimelineView {
  import opened StatusMessages
  import opened History

  /** A record as the browser holds it; `discarded` is set once it has been materialized. */
  datatype Shown = Shown(record: Record, discarded: bool)

  // ---------- materializing ----------

  function Targets(xs: seq<Shown>): set<RecordId> {
    set x | x in xs && x.record.body.Discarded? :: x.record.body.target
  }

  function Flag(x: Shown, targets: set<RecordId>): Shown {
    x.(discarded := x.discarded || x.record.Id() in targets)
  }

  function Flagged(xs: seq<Shown>, targets: set<RecordId>): seq<Shown> {
    if xs == [] then []
    else
      var n := |xs| - 1;
      Flagged(xs[..n], targets) + if xs[n].record.body.Discarded? then [] else [Flag(xs[n], targets)]
  }

  /** A stable insertion: behind everything with a sequence number that is not larger. */
  function Insert(xs: seq<Shown>, x: Shown): seq<Shown> {
    var n := |xs| - 1;
    if xs != [] && x.record.sequence < xs[n].record.sequence then Insert(xs[..n], x) + [xs[n]] else xs + [x]
  }

  function SortBySequence(xs: seq<Shown>): seq<Shown> {
    if xs == [] then [] else Insert(SortBySequence(xs[..|xs| - 1]), xs[|xs| - 1])
  }

  function Materialize(xs: seq<Shown>): seq<Shown> {
    SortBySequence(Flagged(xs, Targets(xs)))
  }

  ghost predicate Sorted(xs: seq<Shown>) {
    forall i, j :: 0 <= i < j < |xs| ==> xs[i].record.sequence <= xs[j].record.sequence
  }

  ghost predicate DistinctSequences(xs: seq<Shown>) {
    forall i, j :: 0 <= i < j < |xs| ==> xs[i].record.sequence != xs[j].record.sequence
  }

  lemma {:induction false} InsertElements(xs: seq<Shown>, x: Shown)
    ensures multiset(Insert(xs, x)) == multiset(xs) + multiset{x}
  {
    var n := |xs| - 1;
    if xs != [] && x.record.sequence < xs[n].record.sequence {
      InsertElements(xs[..n], x);
      assert xs == xs[..n] + [xs[n]];
    }
  }

  lemma InsertedIn(xs: seq<Shown>, x: Shown, y: Shown)
    ensures y in Insert(xs, x) <==> y in xs || y == x
  {
    InsertElements(xs, x);
    assert y in Insert(xs, x) <==> y in multiset(Insert(xs, x));
  }

  lemma {:induction false} InsertSorts(xs: seq<Shown>, x: Shown)
    requires Sorted(xs)
    ensures Sorted(Insert(xs, x)) && multiset(Insert(xs, x)) == multiset(xs) + multiset{x}
  {
    InsertElements(xs, x);
    var n := |xs| - 1;
    if xs != [] && x.record.sequence < xs[n].record.sequence {
      InsertSorts(xs[..n], x);
      var front := Insert(xs[..n], x);
      forall i | 0 <= i < |front| ensures front[i].record.sequence <= xs[n].record.sequence {
        InsertedIn(xs[..n], x, front[i]);
      }
    }
  }

  lemma {:induction false} SortSorts(xs: seq<Shown>)
    ensures Sorted(SortBySequence(xs)) && multiset(SortBySequence(xs)) == multiset(xs)
  {
    if xs != [] {
      var n := |xs| - 1;
      SortSorts(xs[..n]);
      InsertSorts(SortBySequence(xs[..n]), xs[n]);
      assert xs == xs[..n] + [xs[n]];
    }
  }

  lemma {:induction false} SortSorted(xs: seq<Shown>)
    requires Sorted(xs)
    ensures SortBySequence(xs) == xs
  {
    if xs != [] {
      SortSorted(xs[..|xs| - 1]);
    }
  }

  lemma {:induction false} FlaggedAre(xs: seq<Shown>, targets: set<RecordId>)
    ensures forall x :: x in Flagged(xs, targets) <==>
              exists y :: y in xs && !y.record.body.Discarded? && x == Flag(y, targets)
  {
    if xs != [] {
      var n := |xs| - 1;
      FlaggedAre(xs[..n], targets);
      assert xs == xs[..n] + [xs[n]];
    }
  }

  lemma {:induction false} FlaggedDistinct(xs: seq<Shown>, targets: set<RecordId>)
    requires DistinctSequences(xs)
    ensures DistinctSequences(Flagged(xs, targets))
  {
    if xs != [] {
      var n := |xs| - 1;
      FlaggedDistinct(xs[..n], targets);
      FlaggedAre(xs[..n], targets);
      var front := Flagged(xs[..n], targets);
      forall i | 0 <= i < |front| ensures front[i].record.sequence != xs[n].record.sequence {
        assert front[i] in front;
        var y :| y in xs[..n] && !y.record.body.Discarded? && front[i] == Flag(y, targets);
      }
    }
  }

  lemma TwiceInMultiset(ys: seq<Shown>, i: nat, j: nat)
    requires i < j < |ys|
    ensures ys[i] in multiset(ys) && ys[j] in multiset(ys)
    ensures ys[i] == ys[j] ==> multiset(ys)[ys[i]] >= 2
  {
    assert ys == ys[..i] + [ys[i]] + ys[i + 1..j] + [ys[j]] + ys[j + 1..];
  }

  lemma {:induction false} OnceWhenDistinct(xs: seq<Shown>, x: Shown)
    requires DistinctSequences(xs)
    ensures multiset(xs)[x] <= 1
  {
    if xs != [] {
      var n := |xs| - 1;
      OnceWhenDistinct(xs[..n], x);
      assert xs == xs[..n] + [xs[n]];
    }
  }

  lemma SameSequence(xs: seq<Shown>, x: Shown, y: Shown)
    requires DistinctSequences(xs) && x in xs && y in xs && x.record.sequence == y.record.sequence
    ensures x == y
  {
    var i :| 0 <= i < |xs| && xs[i] == x;
    var j :| 0 <= j < |xs| && xs[j] == y;
  }

  lemma DistinctMultiset(xs: seq<Shown>, ys: seq<Shown>)
    requires DistinctSequences(xs) && multiset(xs) == multiset(ys) && Sorted(ys)
    ensures forall i, j :: 0 <= i < j < |ys| ==> ys[i].record.sequence < ys[j].record.sequence
  {
    forall i, j | 0 <= i < j < |ys| ensures ys[i].record.sequence < ys[j].record.sequence {
      if ys[i].record.sequence == ys[j].record.sequence {
        TwiceInMultiset(ys, i, j);
        assert ys[i] in multiset(xs) && ys[j] in multiset(xs);
        SameSequence(xs, ys[i], ys[j]);
        OnceWhenDistinct(xs, ys[i]);
      }
    }
  }

  /** Materializing keeps every record that is not a discard, in sequence order, and flags exactly those that were
      flagged already or are the target of a discard. */
  lemma MaterializeExact(xs: seq<Shown>)
    requires DistinctSequences(xs)
    ensures var ys := Materialize(xs);
            && (forall i, j :: 0 <= i < j < |ys| ==> ys[i].record.sequence < ys[j].record.sequence)
            && (forall y :: y in ys ==> !y.record.body.Discarded? && exists x :: x in xs && x.record == y.record)
            && (forall x :: x in xs && !x.record.body.Discarded? ==>
                  forall flag :: Shown(x.record, flag) in ys <==>
                    flag == (x.discarded
                             || exists d :: d in xs && d.record.body.Discarded? && d.record.body.target == x.record.Id()))
  {
    var ts := Targets(xs);
    var fs := Flagged(xs, ts);
    FlaggedAre(xs, ts);
    FlaggedDistinct(xs, ts);
    SortSorts(fs);
    var ys := Materialize(xs);
    DistinctMultiset(fs, ys);
    forall y ensures y in ys <==> y in fs {
      assert y in ys <==> y in multiset(ys);
      assert y in fs <==> y in multiset(fs);
    }
    forall x, flag | x in xs && !x.record.body.Discarded?
      ensures Shown(x.record, flag) in ys <==>
              flag == (x.discarded
                       || exists d :: d in xs && d.record.body.Discarded? && d.record.body.target == x.record.Id())
    {
      assert x.record.Id() in ts <==>
             exists d :: d in xs && d.record.body.Discarded? && d.record.body.target == x.record.Id();
      if Shown(x.record, flag) in ys {
        var y :| y in xs && !y.record.body.Discarded? && Shown(x.record, flag) == Flag(y, ts);
        SameSequence(xs, x, y);
      } else {
        assert Flag(x, ts) in fs;
      }
    }
  }

  lemma {:induction false} FlaggedAgain(xs: seq<Shown>)
    requires forall x :: x in xs ==> !x.record.body.Discarded?
    ensures Flagged(xs, {}) == xs
  {
    if xs != [] {
      FlaggedAgain(xs[..|xs| - 1]);
    }
  }

  /** Materializing twice is materializing once. */
  lemma MaterializeIdempotent(xs: seq<Shown>)
    ensures Materialize(Materialize(xs)) == Materialize(xs)
  {
    var ys := Materialize(xs);
    FlaggedAre(xs, Targets(xs));
    SortSorts(Flagged(xs, Targets(xs)));
    forall y | y in ys ensures !y.record.body.Discarded? {
      assert y in multiset(ys);
      assert y in Flagged(xs, Targets(xs));
    }
    assert Targets(ys) == {};
    FlaggedAgain(ys);
    SortSorted(ys);
  }

  // ---------- lanes ----------

  /** The lane key of a clause: its kind, and its URI or else its title. */
  datatype LaneKey = LaneKey(lane: LaneType, name: string)

  datatype Slot = ScenarioSlot | EventSlot | ClauseSlot(key: LaneKey)

  datatype Lane = Lane(title: string, records: seq<Shown>, message: string)

  datatype Definition = Definition(lane: LaneType, title: string, uri: string)

  function ClauseKey(lane: LaneType, title: string, uri: string): LaneKey {
    LaneKey(lane, if uri != "" then uri else title)
  }

  /** The lane of the context's timeline in which a record is drawn. */
  function SlotOf(ctx: string, b: Body): Option<Slot> {
    if b.ctx != ctx then None
    else
      match b
      case ScenarioStart(_, _, _) => Some(ScenarioSlot)
      case ScenarioEnd(_, _, _, _, _) => Some(ScenarioSlot)
      case EventSeen(_, _, _) => Some(EventSlot)
      case TrinarySeen(_, _, lane, uri, title, _, _, _) => Some(ClauseSlot(ClauseKey(lane, title, uri)))
      case Discarded(_, _, _) => None
  }

  function InSlot(xs: seq<Shown>, ctx: string, slot: Slot): seq<Shown> {
    if xs == [] then []
    else
      var n := |xs| - 1;
      InSlot(xs[..n], ctx, slot) + if SlotOf(ctx, xs[n].record.body) == Some(slot) then [xs[n]] else []
  }

  function InContext(xs: seq<Shown>, ctx: string): seq<Shown> {
    if xs == [] then []
    else
      var n := |xs| - 1;
      InContext(xs[..n], ctx) + if SlotOf(ctx, xs[n].record.body).Some? then [xs[n]] else []
  }

  /** The clauses named by the definitions, then by the records, with their titles. */
  function DefinedClauses(defs: seq<Definition>): seq<(LaneKey, string)> {
    seq(|defs|, i requires 0 <= i < |defs| => (ClauseKey(defs[i].lane, defs[i].title, defs[i].uri), defs[i].title))
  }

  function RecordedClauses(xs: seq<Shown>, ctx: string): seq<(LaneKey, string)> {
    if xs == [] then []
    else
      var b := xs[|xs| - 1].record.body;
      RecordedClauses(xs[..|xs| - 1], ctx)
      + if b.TrinarySeen? && b.ctx == ctx then [(ClauseKey(b.lane, b.title, b.uri), b.title)] else []
  }

  /** Keys in the order of their first mention. */
  function LaneOrder(named: seq<(LaneKey, string)>): (order: seq<LaneKey>)
    ensures forall i, j :: 0 <= i < j < |order| ==> order[i] != order[j]
    ensures forall p :: p in named ==> p.0 in order
  {
    if named == [] then []
    else
      var n := |named| - 1;
      var order := LaneOrder(named[..n]);
      assert named == named[..n] + [named[n]];
      if named[n].0 in order then order else order + [named[n].0]
  }

  /** The title under which a key is first mentioned. */
  function FirstTitle(named: seq<(LaneKey, string)>, key: LaneKey): string {
    if named == [] then "" else if named[0].0 == key then named[0].1 else FirstTitle(named[1..], key)
  }

  /** The last non-empty label of the scenario's start and end records. */
  function ScenarioTitle(xs: seq<Shown>, ctx: string): string {
    if xs == [] then ctx
    else
      var b := xs[|xs| - 1].record.body;
      if SlotOf(ctx, b) == Some(ScenarioSlot) && b.title != "" then b.title else ScenarioTitle(xs[..|xs| - 1], ctx)
  }

  /** The reason of the clause's last assertion that gives one. */
  function LastReason(xs: seq<Shown>, ctx: string, key: LaneKey): string {
    if xs == [] then ""
    else
      var b := xs[|xs| - 1].record.body;
      if SlotOf(ctx, b) == Some(ClauseSlot(key)) && b.role.Assertion? && b.reason != "" then b.reason
      else LastReason(xs[..|xs| - 1], ctx, key)
  }

  function ScenarioLane(xs: seq<Shown>, ctx: string): Lane {
    Lane(ScenarioTitle(xs, ctx), InSlot(xs, ctx, ScenarioSlot), "")
  }

  lemma ScenarioLaneSnoc(xs: seq<Shown>, ctx: string, i: nat)
    requires i < |xs|
    ensures var b := xs[i].record.body;
            var lane := ScenarioLane(xs[..i], ctx);
            ScenarioLane(xs[..i + 1], ctx) ==
            if b.ctx == ctx && (b.ScenarioStart? || b.ScenarioEnd?)
            then Lane(if b.title != "" then b.title else lane.title, lane.records + [xs[i]], "")
            else lane
  {
    assert xs[..i + 1][..i] == xs[..i];
    assert SlotOf(ctx, xs[i].record.body) == Some(ScenarioSlot) <==>
           xs[i].record.body.ctx == ctx && (xs[i].record.body.ScenarioStart? || xs[i].record.body.ScenarioEnd?);
  }

  /** What the clause lanes must be after the records `xs`. */
  ghost predicate LanesOf(order: seq<LaneKey>, lanes: map<LaneKey, Lane>, named: seq<(LaneKey, string)>,
                          xs: seq<Shown>, ctx: string) {
    && order == LaneOrder(named)
    && (forall k :: k in lanes <==> k in order)
    && forall k :: k in lanes ==>
         lanes[k] == Lane(FirstTitle(named, k), InSlot(xs, ctx, ClauseSlot(k)), LastReason(xs, ctx, k))
  }

  lemma {:induction false} KeysMentioned(named: seq<(LaneKey, string)>, k: LaneKey)
    ensures k in LaneOrder(named) <==> exists i :: 0 <= i < |named| && named[i].0 == k
  {
    if named != [] {
      var n := |named| - 1;
      KeysMentioned(named[..n], k);
    }
  }

  lemma {:induction false} FirstTitleSnoc(named: seq<(LaneKey, string)>, key: LaneKey, title: string, k: LaneKey)
    ensures FirstTitle(named + [(key, title)], k) ==
            if k in LaneOrder(named) then FirstTitle(named, k) else if k == key then title else ""
  {
    KeysMentioned(named, k);
    if named != [] {
      assert (named + [(key, title)])[1..] == named[1..] + [(key, title)];
      FirstTitleSnoc(named[1..], key, title, k);
      KeysMentioned(named[1..], k);
    }
  }

  /** A key that no record mentions has an empty lane. */
  lemma {:induction false} NoRecords(xs: seq<Shown>, ctx: string, key: LaneKey)
    requires forall p :: p in RecordedClauses(xs, ctx) ==> p.0 != key
    ensures InSlot(xs, ctx, ClauseSlot(key)) == [] && LastReason(xs, ctx, key) == ""
  {
    if xs != [] {
      var n := |xs| - 1;
      var named, front := RecordedClauses(xs, ctx), RecordedClauses(xs[..n], ctx);
      assert front <= named;
      assert forall p :: p in front ==> p in named;
      NoRecords(xs[..n], ctx, key);
      if |front| < |named| {
        assert named[|front|] in named;
      }
    }
  }

  /** Make sure the lane of a clause exists. */
  method Clause(order: seq<LaneKey>, lanes: map<LaneKey, Lane>, lane: LaneType, title: string, uri: string,
                ghost named: seq<(LaneKey, string)>, ghost xs: seq<Shown>, ghost ctx: string)
    returns (order': seq<LaneKey>, lanes': map<LaneKey, Lane>, key: LaneKey)
    requires LanesOf(order, lanes, named, xs, ctx)
    requires forall p :: p in RecordedClauses(xs, ctx) ==> p in named
    ensures key == ClauseKey(lane, title, uri) && key in lanes'
    ensures LanesOf(order', lanes', named + [(key, title)], xs, ctx)
  {
    key := if uri == "" then LaneKey(lane, title) else LaneKey(lane, uri);
    order', lanes' := order, lanes;
    assert (named + [(key, title)])[..|named|] == named;
    forall k ensures FirstTitle(named + [(key, title)], k) ==
                     if k in order then FirstTitle(named, k) else if k == key then title else ""
    {
      FirstTitleSnoc(named, key, title, k);
    }
    if key !in lanes {
      NoRecords(xs, ctx, key);
      order' := order + [key];
      lanes' := lanes[key := Lane(title, [], "")];
    }
  }

  /** One empty lane per defined clause. */
  method DefineLanes(definitions: seq<Definition>, ghost ctx: string)
    returns (order: seq<LaneKey>, lanes: map<LaneKey, Lane>)
    ensures LanesOf(order, lanes, DefinedClauses(definitions), [], ctx)
  {
    order, lanes := [], map[];
    var d := 0;
    while d < |definitions|
      invariant 0 <= d <= |definitions|
      invariant LanesOf(order, lanes, DefinedClauses(definitions[..d]), [], ctx)
    {
      var def := definitions[d];
      ghost var named := DefinedClauses(definitions[..d]);
      assert DefinedClauses(definitions[..d + 1]) == named + [(ClauseKey(def.lane, def.title, def.uri), def.title)];
      var key;
      order, lanes, key := Clause(order, lanes, def.lane, def.title, def.uri, named, [], ctx);
      d := d + 1;
    }
    assert definitions[..d] == definitions;
  }

  lemma ClauseNamed(records: seq<Shown>, i: nat, ctx: string, defined: seq<(LaneKey, string)>)
    requires i < |records|
    requires records[i].record.body.TrinarySeen? && records[i].record.body.ctx == ctx
    ensures var b := records[i].record.body;
            defined + RecordedClauses(records[..i + 1], ctx)
            == defined + RecordedClauses(records[..i], ctx) + [(ClauseKey(b.lane, b.title, b.uri), b.title)]
  {
    assert records[..i + 1][..i] == records[..i];
  }

  lemma ClauseRecord(records: seq<Shown>, i: nat, ctx: string, k: LaneKey)
    requires i < |records|
    requires records[i].record.body.TrinarySeen? && records[i].record.body.ctx == ctx
    ensures var b := records[i].record.body;
            var key := ClauseKey(b.lane, b.title, b.uri);
            && InSlot(records[..i + 1], ctx, ClauseSlot(k)) ==
               InSlot(records[..i], ctx, ClauseSlot(k)) + (if k == key then [records[i]] else [])
            && LastReason(records[..i + 1], ctx, k) ==
               if k == key && b.role.Assertion? && b.reason != "" then b.reason else LastReason(records[..i], ctx, k)
  {
    assert records[..i + 1][..i] == records[..i];
    var b := records[i].record.body;
    assert SlotOf(ctx, b) == Some(ClauseSlot(ClauseKey(b.lane, b.title, b.uri)));
  }

  lemma LanesUpdate(order: seq<LaneKey>, lanes: map<LaneKey, Lane>, ctx: string, records: seq<Shown>, i: nat,
                    defined: seq<(LaneKey, string)>, child: Lane)
    requires i < |records| && records[i].record.body.TrinarySeen? && records[i].record.body.ctx == ctx
    requires var b := records[i].record.body;
             var key := ClauseKey(b.lane, b.title, b.uri);
             && LanesOf(order, lanes, defined + RecordedClauses(records[..i], ctx) + [(key, b.title)], records[..i], ctx)
             && key in lanes
             && child == Lane(lanes[key].title, lanes[key].records + [records[i]],
                              if b.role.Assertion? && b.reason != "" then b.reason else lanes[key].message)
    ensures var b := records[i].record.body;
            LanesOf(order, lanes[ClauseKey(b.lane, b.title, b.uri) := child],
                    defined + RecordedClauses(records[..i + 1], ctx), records[..i + 1], ctx)
  {
    var b := records[i].record.body;
    var key := ClauseKey(b.lane, b.title, b.uri);
    var named := defined + RecordedClauses(records[..i], ctx) + [(key, b.title)];
    ClauseNamed(records, i, ctx, defined);
    forall k | k in lanes
      ensures lanes[key := child][k] == Lane(FirstTitle(named, k), InSlot(records[..i + 1], ctx, ClauseSlot(k)),
                                             LastReason(records[..i + 1], ctx, k))
    {
      ClauseRecord(records, i, ctx, k);
    }
  }

  /** Draw a trinary in the lane of its clause. */
  method DrawClause(order: seq<LaneKey>, lanes: map<LaneKey, Lane>, ctx: string, records: seq<Shown>, i: nat,
                    ghost defined: seq<(LaneKey, string)>)
    returns (order': seq<LaneKey>, lanes': map<LaneKey, Lane>)
    requires i < |records| && records[i].record.body.TrinarySeen? && records[i].record.body.ctx == ctx
    requires LanesOf(order, lanes, defined + RecordedClauses(records[..i], ctx), records[..i], ctx)
    ensures LanesOf(order', lanes', defined + RecordedClauses(records[..i + 1], ctx), records[..i + 1], ctx)
  {
    var b := records[i].record.body;
    ghost var named := defined + RecordedClauses(records[..i], ctx);
    var key;
    order', lanes', key := Clause(order, lanes, b.lane, b.title, b.uri, named, records[..i], ctx);
    var child := lanes'[key];
    child := child.(records := child.records + [records[i]]);
    if b.role.Assertion? && b.reason != "" {
      child := child.(message := b.reason);
    }
    LanesUpdate(order', lanes', ctx, records, i, defined, child);
    lanes' := lanes'[key := child];
  }

  lemma OtherSlot(records: seq<Shown>, i: nat, ctx: string, k: LaneKey)
    requires i < |records| && !(records[i].record.body.TrinarySeen? && records[i].record.body.ctx == ctx)
    ensures InSlot(records[..i + 1], ctx, ClauseSlot(k)) == InSlot(records[..i], ctx, ClauseSlot(k))
    ensures LastReason(records[..i + 1], ctx, k) == LastReason(records[..i], ctx, k)
  {
    assert records[..i + 1][..i] == records[..i];
  }

  lemma OtherRecord(order: seq<LaneKey>, lanes: map<LaneKey, Lane>, ctx: string, records: seq<Shown>, i: nat,
                    defined: seq<(LaneKey, string)>)
    requires i < |records|
    requires LanesOf(order, lanes, defined + RecordedClauses(records[..i], ctx), records[..i], ctx)
    requires !(records[i].record.body.TrinarySeen? && records[i].record.body.ctx == ctx)
    ensures LanesOf(order, lanes, defined + RecordedClauses(records[..i + 1], ctx), records[..i + 1], ctx)
  {
    assert records[..i + 1][..i] == records[..i];
    assert RecordedClauses(records[..i + 1], ctx) == RecordedClauses(records[..i], ctx);
    forall k | k in lanes
      ensures InSlot(records[..i + 1], ctx, ClauseSlot(k)) == InSlot(records[..i], ctx, ClauseSlot(k))
              && LastReason(records[..i + 1], ctx, k) == LastReason(records[..i], ctx, k)
    {
      OtherSlot(records, i, ctx, k);
    }
  }

  method BuildLanes(input: seq<Shown>, contextId: string, definitions: seq<Definition>)
    returns (scenario: Lane, events: seq<Shown>, order: seq<LaneKey>, lanes: map<LaneKey, Lane>)
    ensures var xs := Materialize(input);
            && scenario == ScenarioLane(xs, contextId)
            && events == InSlot(xs, contextId, EventSlot)
            && LanesOf(order, lanes, DefinedClauses(definitions) + RecordedClauses(xs, contextId), xs, contextId)
  {
    var records := Materialize(input);
    events := InSlot(records, contextId, EventSlot);
    scenario := Lane(contextId, [], "");
    order, lanes := DefineLanes(definitions, contextId);
    ghost var defined := DefinedClauses(definitions);
    var i := 0;
    assert defined + [] == defined;
    while i < |records|
      invariant 0 <= i <= |records|
      invariant scenario == ScenarioLane(records[..i], contextId)
      invariant LanesOf(order, lanes, defined + RecordedClauses(records[..i], contextId), records[..i], contextId)
    {
      var record := records[i];
      var b := record.record.body;
      ScenarioLaneSnoc(records, contextId, i);
      if b.ctx == contextId && (b.ScenarioStart? || b.ScenarioEnd?) {
        scenario := scenario.(records := scenario.records + [record]);
        if b.title != "" {
          scenario := scenario.(title := b.title);
        }
        OtherRecord(order, lanes, contextId, records, i, defined);
      } else if b.ctx == contextId && b.TrinarySeen? {
        order, lanes := DrawClause(order, lanes, contextId, records, i, defined);
      } else {
        OtherRecord(order, lanes, contextId, records, i, defined);
      }
      i := i + 1;
    }
    assert records[..i] == records;
  }

  // ---------- every record in exactly one lane ----------

  function ClauseLanes(xs: seq<Shown>, ctx: string, order: seq<LaneKey>): seq<Shown> {
    if order == [] then []
    else ClauseLanes(xs, ctx, order[..|order| - 1]) + InSlot(xs, ctx, ClauseSlot(order[|order| - 1]))
  }

  lemma {:induction false} ClauseLanesSkip(xs: seq<Shown>, ctx: string, order: seq<LaneKey>)
    requires xs != []
    requires forall k :: k in order ==> SlotOf(ctx, xs[|xs| - 1].record.body) != Some(ClauseSlot(k))
    ensures ClauseLanes(xs, ctx, order) == ClauseLanes(xs[..|xs| - 1], ctx, order)
  {
    if order != [] {
      var m := |order| - 1;
      ClauseLanesSkip(xs, ctx, order[..m]);
      assert order[m] in order;
    }
  }

  lemma {:induction false} ClauseLanesAdd(xs: seq<Shown>, ctx: string, order: seq<LaneKey>, key: LaneKey)
    requires xs != [] && SlotOf(ctx, xs[|xs| - 1].record.body) == Some(ClauseSlot(key)) && key in order
    requires forall i, j :: 0 <= i < j < |order| ==> order[i] != order[j]
    ensures multiset(ClauseLanes(xs, ctx, order)) ==
            multiset(ClauseLanes(xs[..|xs| - 1], ctx, order)) + multiset{xs[|xs| - 1]}
  {
    var m := |order| - 1;
    if order[m] == key {
      ClauseLanesSkip(xs, ctx, order[..m]);
    } else {
      ClauseLanesAdd(xs, ctx, order[..m], key);
    }
  }

  lemma ClausesSnoc(xs: seq<Shown>, ctx: string, order: seq<LaneKey>)
    requires xs != [] && forall i, j :: 0 <= i < j < |order| ==> order[i] != order[j]
    requires forall p :: p in RecordedClauses(xs, ctx) ==> p.0 in order
    ensures var slot := SlotOf(ctx, xs[|xs| - 1].record.body);
            multiset(ClauseLanes(xs, ctx, order)) == multiset(ClauseLanes(xs[..|xs| - 1], ctx, order))
            + if slot.Some? && slot.value.ClauseSlot? then multiset{xs[|xs| - 1]} else multiset{}
  {
    var b := xs[|xs| - 1].record.body;
    var slot := SlotOf(ctx, b);
    if slot.Some? && slot.value.ClauseSlot? {
      assert (slot.value.key, b.title) in RecordedClauses(xs, ctx);
      ClauseLanesAdd(xs, ctx, order, slot.value.key);
    } else {
      ClauseLanesSkip(xs, ctx, order);
    }
  }

  lemma SlotSnoc(xs: seq<Shown>, ctx: string, slot: Slot)
    requires xs != []
    ensures multiset(InSlot(xs, ctx, slot)) == multiset(InSlot(xs[..|xs| - 1], ctx, slot))
            + if SlotOf(ctx, xs[|xs| - 1].record.body) == Some(slot) then multiset{xs[|xs| - 1]} else multiset{}
  {
  }

  lemma {:induction false} EmptyLanes(ctx: string, order: seq<LaneKey>)
    ensures ClauseLanes([], ctx, order) == []
  {
    if order != [] {
      EmptyLanes(ctx, order[..|order| - 1]);
    }
  }

  /** The scenario lane, the event lane and the clause lanes together hold every record of the context that is
      drawn, each in exactly one place. */
  lemma {:induction false} LanesPartition(xs: seq<Shown>, ctx: string, order: seq<LaneKey>)
    requires forall i, j :: 0 <= i < j < |order| ==> order[i] != order[j]
    requires forall p :: p in RecordedClauses(xs, ctx) ==> p.0 in order
    ensures multiset(InSlot(xs, ctx, ScenarioSlot)) + multiset(InSlot(xs, ctx, EventSlot))
            + multiset(ClauseLanes(xs, ctx, order)) == multiset(InContext(xs, ctx))
  {
    if xs == [] {
      EmptyLanes(ctx, order);
    } else {
      var n := |xs| - 1;
      assert RecordedClauses(xs[..n], ctx) <= RecordedClauses(xs, ctx);
      LanesPartition(xs[..n], ctx, order);
      SlotSnoc(xs, ctx, ScenarioSlot);
      SlotSnoc(xs, ctx, EventSlot);
      ClausesSnoc(xs, ctx, order);
    }
  }

  /** Every lane keeps the sequence order of the materialized records. */
  lemma {:induction false} LaneInOrder(xs: seq<Shown>, ctx: string, slot: Slot)
    requires forall i, j :: 0 <= i < j < |xs| ==> xs[i].record.sequence < xs[j].record.sequence
    ensures var ys := InSlot(xs, ctx, slot);
            && (forall i, j :: 0 <= i < j < |ys| ==> ys[i].record.sequence < ys[j].record.sequence)
            && (forall y :: y in ys <==> y in xs && SlotOf(ctx, y.record.body) == Some(slot))
  {
    if xs != [] {
      var n := |xs| - 1;
      LaneInOrder(xs[..n], ctx, slot);
      var front := InSlot(xs[..n], ctx, slot);
      assert forall i :: 0 <= i < |front| ==> front[i] in front;
      assert xs == xs[..n] + [xs[n]];
    }
  }

  /** The lanes built for a context hold each of its drawn records once. */
  lemma EachRecordOnce(input: seq<Shown>, ctx: string, definitions: seq<Definition>)
    ensures var xs := Materialize(input);
            var order := LaneOrder(DefinedClauses(definitions) + RecordedClauses(xs, ctx));
            multiset(ScenarioLane(xs, ctx).records) + multiset(InSlot(xs, ctx, EventSlot))
            + multiset(ClauseLanes(xs, ctx, order)) == multiset(InContext(xs, ctx))
  {
    var xs := Materialize(input);
    LanesPartition(xs, ctx, LaneOrder(DefinedClauses(definitions) + RecordedClauses(xs, ctx)));
  }
}
