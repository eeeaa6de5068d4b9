/** What the browser lists and draws, read off the records: the interval, title and verdict of a scenario, and the lanes,
    titles and messages of its clauses. */
module ViewLaws {
  import opened StatusMessages
  import opened History
  import opened TimelineView
  import opened ScenarioViews
  import opened Rendering

  function BodiesOf(xs: seq<Shown>): (bs: seq<Body>)
    ensures |bs| == |xs|
  {
    seq(|xs|, i requires 0 <= i < |xs| => xs[i].record.body)
  }

  /** The stamp in nanoseconds. */
  function TimeOf(b: Body): int {
    b.stamp.sec * 1_000_000_000 + b.stamp.nanosec
  }

  // ---------- the interval of a scenario ----------

  /** The first start, or the first of all when there is none, is at this time. */
  ghost predicate Opens(bs: seq<Body>, lo: int) {
    exists i :: 0 <= i < |bs| && lo == TimeOf(bs[i])
                && (bs[i].ScenarioStart? || (i == 0 && forall j :: 0 <= j < |bs| ==> !bs[j].ScenarioStart?))
                && forall j :: 0 <= j < i ==> !bs[j].ScenarioStart?
  }

  /** Position `i` is the last end. */
  ghost predicate EndsAt(bs: seq<Body>, i: int) {
    0 <= i < |bs| && bs[i].ScenarioEnd? && forall j :: i < j < |bs| ==> !bs[j].ScenarioEnd?
  }

  ghost predicate HasEnd(bs: seq<Body>) {
    exists i :: 0 <= i < |bs| && bs[i].ScenarioEnd?
  }

  /** The last end is at this time. Without an end this is the latest of the opening, the last record and, if there is a
      status, its stamp. */
  ghost predicate Closes(bs: seq<Body>, lo: int, current: Option<Stamp>, hi: int)
    requires bs != []
  {
    var last := TimeOf(bs[|bs| - 1]);
    if HasEnd(bs) then exists i :: EndsAt(bs, i) && hi == TimeOf(bs[i])
    else
      && hi >= lo && hi >= last && (hi == lo || hi == last || current.Some?)
      && (current.Some? ==>
            var now := current.value.sec * 1_000_000_000 + current.value.nanosec;
            hi >= now && (hi == lo || hi == last || hi == now))
  }

  lemma {:induction false} FirstStartIs(rs: seq<Shown>)
    ensures FirstStart(rs) == None ==> forall j :: 0 <= j < |rs| ==> !rs[j].record.body.ScenarioStart?
    ensures FirstStart(rs).Some? ==>
              exists i :: 0 <= i < |rs| && FirstStart(rs).value == rs[i] && rs[i].record.body.ScenarioStart?
                          && forall j :: 0 <= j < i ==> !rs[j].record.body.ScenarioStart?
  {
    if rs != [] && !rs[0].record.body.ScenarioStart? {
      FirstStartIs(rs[1..]);
      assert forall j :: 1 <= j < |rs| ==> rs[j] == rs[1..][j - 1];
      if FirstStart(rs).Some? {
        var i :| 0 <= i < |rs| - 1 && FirstStart(rs).value == rs[1..][i] && rs[1..][i].record.body.ScenarioStart?
                 && forall j :: 0 <= j < i ==> !rs[1..][j].record.body.ScenarioStart?;
        assert FirstStart(rs).value == rs[i + 1];
      }
    }
  }

  lemma {:induction false} LastEndIs(rs: seq<Shown>)
    ensures LastEnd(rs) == None ==> !HasEnd(BodiesOf(rs))
    ensures LastEnd(rs).Some? ==> exists i :: EndsAt(BodiesOf(rs), i) && LastEnd(rs).value == rs[i]
  {
    if rs != [] {
      var n := |rs| - 1;
      LastEndIs(rs[..n]);
      var bs, front := BodiesOf(rs), BodiesOf(rs[..n]);
      assert front == bs[..n];
      if rs[n].record.body.ScenarioEnd? {
        assert EndsAt(bs, n);
      } else if LastEnd(rs[..n]).Some? {
        var i :| EndsAt(front, i) && LastEnd(rs[..n]).value == rs[..n][i];
        assert EndsAt(bs, i) && LastEnd(rs).value == rs[i];
      }
    }
  }

  lemma OpensExactly(rs: seq<Shown>)
    requires rs != []
    ensures Opens(BodiesOf(rs), StartOf(rs))
  {
    var bs := BodiesOf(rs);
    FirstStartIs(rs);
    if FirstStart(rs).Some? {
      var i :| 0 <= i < |rs| && FirstStart(rs).value == rs[i] && rs[i].record.body.ScenarioStart?
               && forall j :: 0 <= j < i ==> !rs[j].record.body.ScenarioStart?;
      assert StartOf(rs) == TimeOf(bs[i]);
    } else {
      assert StartOf(rs) == TimeOf(bs[0]);
    }
  }

  /** The interval of a scenario, on its records. */
  lemma IntervalExactly(rs: seq<Shown>, current: Option<Stamp>)
    requires rs != []
    ensures Opens(BodiesOf(rs), StartOf(rs)) && Closes(BodiesOf(rs), StartOf(rs), current, EndOf(rs, current))
  {
    OpensExactly(rs);
    LastEndIs(rs);
  }

  /** The records determine it. */
  lemma IntervalOnce(bs: seq<Body>, current: Option<Stamp>, lo: int, hi: int, lo': int, hi': int)
    requires bs != [] && Opens(bs, lo) && Opens(bs, lo') && Closes(bs, lo, current, hi) && Closes(bs, lo', current, hi')
    ensures lo == lo' && hi == hi'
  {
  }

  /** The time of the observation lies in the interval that the records span. */
  ghost predicate InInterval(bs: seq<Body>, current: Option<Stamp>, b: Body)
    requires bs != []
  {
    exists lo, hi :: Opens(bs, lo) && Closes(bs, lo, current, hi) && lo <= TimeOf(b) <= hi
  }

  lemma InIntervalIs(rs: seq<Shown>, current: Option<Stamp>, b: Body)
    requires rs != []
    ensures InInterval(BodiesOf(rs), current, b) <==> StartOf(rs) <= TimeOf(b) <= EndOf(rs, current)
  {
    var bs := BodiesOf(rs);
    IntervalExactly(rs, current);
    if lo, hi :| Opens(bs, lo) && Closes(bs, lo, current, hi) && lo <= TimeOf(b) <= hi {
      IntervalOnce(bs, current, lo, hi, StartOf(rs), EndOf(rs, current));
    }
  }

  // ---------- titles ----------

  /** A start or an end of the context that carries a title. */
  predicate Names(b: Body, ctx: string) {
    b.ctx == ctx && (b.ScenarioStart? || b.ScenarioEnd?) && b.title != ""
  }

  /** The last title that a start or an end of the context carries, or else the context itself. */
  ghost predicate IsTitled(bs: seq<Body>, ctx: string, title: string) {
    if exists i :: 0 <= i < |bs| && Names(bs[i], ctx) then
      exists i :: 0 <= i < |bs| && Names(bs[i], ctx) && title == bs[i].title
                  && forall j :: i < j < |bs| ==> !Names(bs[j], ctx)
    else title == ctx
  }

  lemma TitledSnoc(bs: seq<Body>, b: Body, ctx: string, title: string)
    requires IsTitled(bs, ctx, title)
    ensures IsTitled(bs + [b], ctx, if Names(b, ctx) then b.title else title)
  {
    var all := bs + [b];
    if Names(b, ctx) {
      assert Names(all[|bs|], ctx);
    } else if i :| 0 <= i < |bs| && Names(bs[i], ctx) && title == bs[i].title && forall j :: i < j < |bs| ==> !Names(bs[j], ctx)
    {
      assert Names(all[i], ctx);
    }
  }

  lemma {:induction false} TitleExactly(xs: seq<Shown>, ctx: string)
    ensures IsTitled(BodiesOf(xs), ctx, ScenarioTitle(xs, ctx))
  {
    if xs != [] {
      var n := |xs| - 1;
      TitleExactly(xs[..n], ctx);
      assert BodiesOf(xs) == BodiesOf(xs[..n]) + [xs[n].record.body];
      TitledSnoc(BodiesOf(xs[..n]), xs[n].record.body, ctx, ScenarioTitle(xs[..n], ctx));
    }
  }

  // ---------- a listed scenario ----------

  lemma {:induction false} OfSorted(xs: seq<Shown>, ctx: string)
    requires Sorted(xs)
    ensures Sorted(Of(xs, ctx))
  {
    if xs != [] {
      var n := |xs| - 1;
      OfSorted(xs[..n], ctx);
      OfIn(xs[..n], ctx);
      var front := Of(xs[..n], ctx);
      assert forall i :: 0 <= i < |front| ==> front[i] in xs[..n];
    }
  }

  /** The verdict of the last end, if there is one. */
  ghost predicate IsVerdict(bs: seq<Body>, value: Option<TrinaryValue>) {
    if HasEnd(bs) then exists i :: EndsAt(bs, i) && value == Some(bs[i].value) else value == None
  }

  /** What the browser lists for the `i`-th scenario: its context's records in order, the interval they span, whether it has
      ended and how, and its title. */
  lemma SpanExactly(xs: seq<Shown>, current: Option<Stamp>, i: nat)
    requires Sorted(xs) && i < |Spans(xs, current)|
    ensures var span := Spans(xs, current)[i];
            var bs := BodiesOf(span.records);
            && span.contextId != "" && span.records != [] && Sorted(span.records)
            && (forall x :: x in span.records <==> x in xs && x.record.body.ctx == span.contextId)
            && Opens(bs, span.start) && Closes(bs, span.start, current, span.end)
            && (span.finished <==> HasEnd(bs)) && IsVerdict(bs, span.value)
            && IsTitled(BodiesOf(xs), span.contextId, span.title)
  {
    var ctx := Contexts(xs)[i];
    ContextsAre(xs, ctx);
    OfSorted(xs, ctx);
    OfIn(xs, ctx);
    IntervalExactly(Of(xs, ctx), current);
    LastEndIs(Of(xs, ctx));
    TitleExactly(xs, ctx);
  }

  /** Each context with records is listed once, in the order of the first records. */
  lemma SpansInOrder(xs: seq<Shown>, current: Option<Stamp>)
    requires Sorted(xs)
    ensures var spans := Spans(xs, current);
            && (forall i, j :: 0 <= i < j < |spans| ==> spans[i].contextId != spans[j].contextId)
            && (forall i, j :: 0 <= i < j < |spans| ==> spans[i].sequence <= spans[j].sequence)
            && (forall i :: 0 <= i < |spans| ==>
                  spans[i].records != [] && spans[i].sequence == spans[i].records[0].record.sequence)
            && forall x :: x in xs && x.record.body.ctx != "" ==>
                 exists i :: 0 <= i < |spans| && spans[i].contextId == x.record.body.ctx
  {
    var spans, cs := Spans(xs, current), Contexts(xs);
    forall i | 0 <= i < |cs| ensures Of(xs, cs[i]) != [] {
      ContextsAre(xs, cs[i]);
    }
    forall i, j | 0 <= i < j < |cs| ensures spans[i].sequence <= spans[j].sequence {
      GroupsInOrder(xs, i, j);
    }
    forall x | x in xs && x.record.body.ctx != ""
      ensures exists i :: 0 <= i < |spans| && spans[i].contextId == x.record.body.ctx
    {
      OfIn(xs, x.record.body.ctx);
      assert x in Of(xs, x.record.body.ctx);
      ContextsAre(xs, x.record.body.ctx);
      var i :| 0 <= i < |cs| && cs[i] == x.record.body.ctx;
      assert spans[i].contextId == x.record.body.ctx;
    }
  }

  // ---------- the lanes of clauses ----------

  /** Two trinaries of a context share a lane if and only if they are of one kind and of one URI, or of one title where
      there is no URI. */
  lemma SharesLane(ctx: string, a: Body, b: Body)
    requires a.TrinarySeen? && b.TrinarySeen? && a.ctx == b.ctx == ctx
    ensures SlotOf(ctx, a).Some? && SlotOf(ctx, a).value.ClauseSlot?
    ensures SlotOf(ctx, a) == SlotOf(ctx, b) <==>
            a.lane == b.lane && (if a.uri != "" then a.uri else a.title) == (if b.uri != "" then b.uri else b.title)
  {
  }

  /** The record is an assertion of the clause and gives a reason. */
  predicate Explains(b: Body, ctx: string, key: LaneKey) {
    b.TrinarySeen? && b.ctx == ctx && b.lane == key.lane && (if b.uri != "" then b.uri else b.title) == key.name
    && b.role == Assertion && b.reason != ""
  }

  /** A lane's message is the last reason that an assertion of its clause gives, and empty without one. */
  lemma {:induction false} MessageExactly(xs: seq<Shown>, ctx: string, key: LaneKey)
    ensures var bs, message := BodiesOf(xs), LastReason(xs, ctx, key);
            if exists i :: 0 <= i < |bs| && Explains(bs[i], ctx, key) then
              exists i :: 0 <= i < |bs| && Explains(bs[i], ctx, key) && message == bs[i].reason
                          && forall j :: i < j < |bs| ==> !Explains(bs[j], ctx, key)
            else message == ""
  {
    if xs != [] {
      var n := |xs| - 1;
      MessageExactly(xs[..n], ctx, key);
      var bs, front := BodiesOf(xs), BodiesOf(xs[..n]);
      assert front == bs[..n];
      if Explains(bs[n], ctx, key) {
        assert LastReason(xs, ctx, key) == bs[n].reason;
      } else {
        assert LastReason(xs, ctx, key) == LastReason(xs[..n], ctx, key);
        if i :| 0 <= i < |front| && Explains(front[i], ctx, key) && LastReason(xs, ctx, key) == front[i].reason
                && forall j :: i < j < |front| ==> !Explains(front[j], ctx, key)
        {
          assert Explains(bs[i], ctx, key);
        }
      }
    }
  }

  predicate IsTrinary(b: Body, ctx: string) {
    b.TrinarySeen? && b.ctx == ctx
  }

  /** `at` are the places of the context's trinaries, in order, and these mention their clauses and titles. */
  ghost predicate MentionedAt(named: seq<(LaneKey, string)>, xs: seq<Shown>, ctx: string, at: seq<nat>) {
    && |at| == |named| && (forall i, j :: 0 <= i < j < |at| ==> at[i] < at[j])
    && (forall j :: 0 <= j < |at| ==>
          at[j] < |xs| && IsTrinary(xs[at[j]].record.body, ctx)
          && var b := xs[at[j]].record.body;
             named[j] == (LaneKey(b.lane, if b.uri != "" then b.uri else b.title), b.title))
    && forall i :: 0 <= i < |xs| && IsTrinary(xs[i].record.body, ctx) ==> i in at
  }

  lemma MentionedSnoc(named: seq<(LaneKey, string)>, xs: seq<Shown>, ctx: string, at: seq<nat>, x: Shown)
    requires MentionedAt(named, xs, ctx, at)
    ensures var b := x.record.body;
            if IsTrinary(b, ctx) then
              MentionedAt(named + [(LaneKey(b.lane, if b.uri != "" then b.uri else b.title), b.title)], xs + [x], ctx,
                          at + [|xs|])
            else MentionedAt(named, xs + [x], ctx, at)
  {
  }

  lemma {:induction false} RecordedMention(xs: seq<Shown>, ctx: string) returns (at: seq<nat>)
    ensures MentionedAt(RecordedClauses(xs, ctx), xs, ctx, at)
  {
    if xs == [] {
      at := [];
    } else {
      var n := |xs| - 1;
      at := RecordedMention(xs[..n], ctx);
      assert xs == xs[..n] + [xs[n]];
      MentionedSnoc(RecordedClauses(xs[..n], ctx), xs[..n], ctx, at, xs[n]);
      if IsTrinary(xs[n].record.body, ctx) {
        at := at + [n];
      }
    }
  }

  /** The definitions, in order, and then the context's trinaries, in order, mention their clauses and titles. */
  lemma MentionsExactly(defs: seq<Definition>, xs: seq<Shown>, ctx: string) returns (at: seq<nat>)
    ensures |DefinedClauses(defs)| == |defs|
    ensures forall i :: 0 <= i < |defs| ==>
              DefinedClauses(defs)[i] == (LaneKey(defs[i].lane, if defs[i].uri != "" then defs[i].uri else defs[i].title),
                                          defs[i].title)
    ensures MentionedAt(RecordedClauses(xs, ctx), xs, ctx, at)
  {
    at := RecordedMention(xs, ctx);
  }

  /** The place is the first that mentions the clause. */
  ghost predicate FirstAt(named: seq<(LaneKey, string)>, key: LaneKey, p: int) {
    0 <= p < |named| && named[p].0 == key && forall q :: 0 <= q < p ==> named[q].0 != key
  }

  /** The first place past a beginning that does not mention the clause. */
  lemma FirstAtTail(named: seq<(LaneKey, string)>, key: LaneKey, q: int)
    requires named != [] && named[0].0 != key && FirstAt(named[1..], key, q)
    ensures FirstAt(named, key, q + 1) && named[q + 1] == named[1..][q]
  {
    assert forall i :: 1 <= i < |named| ==> named[1..][i - 1] == named[i];
  }

  lemma KeyInTail(named: seq<(LaneKey, string)>, key: LaneKey)
    requires named != [] && named[0].0 != key && key in LaneOrder(named)
    ensures key in LaneOrder(named[1..])
  {
    KeysMentioned(named, key);
    var i :| 0 <= i < |named| && named[i].0 == key;
    assert named[1..][i - 1].0 == key;
    KeysMentioned(named[1..], key);
  }

  lemma {:induction false} FirstPlace(named: seq<(LaneKey, string)>, key: LaneKey) returns (p: int)
    requires key in LaneOrder(named)
    ensures FirstAt(named, key, p) && FirstTitle(named, key) == named[p].1
    decreases |named|
  {
    if named[0].0 == key {
      p := 0;
    } else {
      KeyInTail(named, key);
      var q := FirstPlace(named[1..], key);
      FirstAtTail(named, key, q);
      p := q + 1;
    }
  }

  lemma FirstAtSnoc(named: seq<(LaneKey, string)>, key: LaneKey, p: int)
    requires named != [] && FirstAt(named[..|named| - 1], key, p)
    ensures FirstAt(named, key, p)
  {
  }

  /** A clause that the front does not mention is first mentioned at the end. */
  lemma NotBefore(named: seq<(LaneKey, string)>, key: LaneKey, q: int)
    requires named != [] && FirstAt(named, key, q) && key !in LaneOrder(named[..|named| - 1])
    ensures q == |named| - 1
  {
    KeysMentioned(named[..|named| - 1], key);
  }

  /** Lanes are in the order in which their clauses are first mentioned. */
  lemma {:induction false} OrderExactly(named: seq<(LaneKey, string)>, i: nat, j: nat) returns (p: int, q: int)
    requires i < j < |LaneOrder(named)|
    ensures FirstAt(named, LaneOrder(named)[i], p) && FirstAt(named, LaneOrder(named)[j], q) && p < q
    decreases |named|
  {
    var n := |named| - 1;
    var front := LaneOrder(named[..n]);
    if j < |front| {
      p, q := OrderExactly(named[..n], i, j);
      FirstAtSnoc(named, front[j], q);
    } else {
      p := FirstPlace(named[..n], front[i]);
      q := FirstPlace(named, LaneOrder(named)[j]);
      FirstAtSnoc(named, front[i], p);
      NotBefore(named, LaneOrder(named)[j], q);
    }
    FirstAtSnoc(named, front[i], p);
  }

  /** Each clause lane that is built carries the title of the first mention of its clause. */
  lemma LaneTitle(order: seq<LaneKey>, lanes: map<LaneKey, Lane>, named: seq<(LaneKey, string)>, xs: seq<Shown>,
                  ctx: string, key: LaneKey) returns (p: int)
    requires LanesOf(order, lanes, named, xs, ctx) && key in order
    ensures key in lanes && FirstAt(named, key, p) && lanes[key].title == named[p].1
  {
    p := FirstPlace(named, key);
  }

  // ---------- the clauses of the latest status ----------

  /** The first scenario of the status that is of the context. */
  ghost predicate FirstOf(ss: seq<StatusMessages.Scenario>, ctx: string, i: int) {
    0 <= i < |ss| && ss[i].contextId == ctx && forall j :: 0 <= j < i ==> ss[j].contextId != ctx
  }

  /** The definitions are of this scenario's behaviour and then of its fluents. */
  ghost predicate Define(defs: seq<Definition>, s: StatusMessages.Scenario) {
    && |defs| == |s.fluents| + 1 && defs[0] == Definition(Behaviour, s.behaviour, "")
    && forall k :: 0 <= k < |s.fluents| ==> defs[k + 1] == Definition(Policy, s.fluents[k].representation, s.fluents[k].uri)
  }

  lemma {:induction false} DefinitionsExactly(ss: seq<StatusMessages.Scenario>, ctx: string)
    ensures if exists i :: 0 <= i < |ss| && ss[i].contextId == ctx then
              exists i :: FirstOf(ss, ctx, i) && Define(DefinitionsOf(ss, ctx), ss[i])
            else DefinitionsOf(ss, ctx) == []
  {
    if ss != [] {
      if ss[0].contextId == ctx {
        assert FirstOf(ss, ctx, 0);
      } else {
        DefinitionsExactly(ss[1..], ctx);
        assert forall j :: 1 <= j < |ss| ==> ss[1..][j - 1] == ss[j];
        if i :| FirstOf(ss[1..], ctx, i) && Define(DefinitionsOf(ss[1..], ctx), ss[1..][i]) {
          assert FirstOf(ss, ctx, i + 1);
        }
      }
    }
  }

  lemma FirstDefines(ss: seq<StatusMessages.Scenario>, ctx: string, i: int)
    requires FirstOf(ss, ctx, i)
    ensures Define(DefinitionsOf(ss, ctx), ss[i])
  {
    DefinitionsExactly(ss, ctx);
    var j :| FirstOf(ss, ctx, j) && Define(DefinitionsOf(ss, ctx), ss[j]);
    assert j == i;
  }

  /** The behaviour and every fluent that the latest status lists for the context have a lane, also without a record. */
  lemma DefinedHaveLanes(lanes: Lanes, xs: seq<Shown>, ctx: string, latest: StatusList, i: int, k: nat)
    requires LanesFor(lanes, xs, ctx, Definitions(Some(latest), ctx))
    requires FirstOf(latest.scenarios, ctx, i) && k < |latest.scenarios[i].fluents|
    ensures LaneKey(Behaviour, latest.scenarios[i].behaviour) in lanes.order
    ensures var f := latest.scenarios[i].fluents[k];
            LaneKey(Policy, if f.uri != "" then f.uri else f.representation) in lanes.order
  {
    var defs := Definitions(Some(latest), ctx);
    FirstDefines(latest.scenarios, ctx, i);
    var named := DefinedClauses(defs) + RecordedClauses(xs, ctx);
    assert named[0] in named && named[k + 1] in named;
  }
}
