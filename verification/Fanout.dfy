/** The store's bounded client queues and the browser's fold over the messages, as values, and the proof that
    every client converges to the store whatever overflow throws away. */
module Fanout {
  import opened StatusMessages
  import opened History
  import opened HistoryLaws

  datatype Message =
    | Hello(useSimTime: bool)
    | Snapshot(status: StatusList, history: Option<seq<Record>>)
    | TimelineRecord(record: Record)

  const CAPACITY := 32

  // ---------- the browser ----------

  /** `records` is the insertion-ordered map from record ids; setting a present id keeps its place. */
  datatype View = View(records: seq<Record>, latest: Option<StatusList>)

  const BLANK := View([], None)

  function SetRecord(rs: seq<Record>, r: Record): seq<Record> {
    if rs == [] then [r]
    else if rs[0].Id() == r.Id() then [r] + rs[1..]
    else [rs[0]] + SetRecord(rs[1..], r)
  }

  function SetRecords(rs: seq<Record>, news: seq<Record>): seq<Record> {
    if news == [] then rs
    else SetRecord(SetRecords(rs, news[..|news| - 1]), news[|news| - 1])
  }

  function Receive(v: View, m: Message): View {
    match m
    case Hello(_) => v
    case Snapshot(status, history) =>
      View(if history.Some? then SetRecords([], history.value) else v.records, Some(status))
    case TimelineRecord(r) => v.(records := SetRecord(v.records, r))
  }

  function Replay(v: View, ms: seq<Message>): View {
    if ms == [] then v else Receive(Replay(v, ms[..|ms| - 1]), ms[|ms| - 1])
  }

  // ---------- the queues ----------

  /** What a client has taken off its queue, and what is still queued. */
  datatype QueueState = QueueState(delivered: seq<Message>, items: seq<Message>) {
    function All(): seq<Message> { delivered + items }
  }

  /** Enqueue, or on overflow throw the queued messages away and enqueue the full history instead. */
  function Put(q: QueueState, m: Message, full: Message): QueueState {
    if |q.items| < CAPACITY then q.(items := q.items + [m]) else q.(items := [full])
  }

  function PutAll(q: QueueState, ms: seq<Message>, full: Message): QueueState {
    if ms == [] then q else Put(PutAll(q, ms[..|ms| - 1], full), ms[|ms| - 1], full)
  }

  function RecordMessages(rs: seq<Record>): seq<Message> {
    seq(|rs|, i requires 0 <= i < |rs| => TimelineRecord(rs[i]))
  }

  /** What is published after a message: the bare snapshot, then each new record. */
  function Publication(status: StatusList, news: seq<Record>): seq<Message> {
    [Snapshot(status, None)] + RecordMessages(news)
  }

  function Welcome(useSimTime: bool, status: StatusList, records: seq<Record>): QueueState {
    QueueState([], [Hello(useSimTime), Snapshot(status, Some(records))])
  }

  // ---------- the whole system ----------

  datatype System<C> = System(core: Core, status: StatusList, useSimTime: bool, queues: map<C, QueueState>)

  datatype Action<C> =
    | Ingest(msg: StatusList)
    | Join(client: C)
    | Leave(client: C)
    | Consume(client: C)

  ghost predicate IngestNext<C>(s: System<C>, msg: StatusList, s': System<C>) {
    && Ingests(s.core, msg, s'.core)
    && |s.core.records| <= |s'.core.records|
    && s'.status == msg && s'.useSimTime == s.useSimTime
    && s'.queues.Keys == s.queues.Keys
    && forall c :: c in s.queues ==>
         s'.queues[c] == PutAll(s.queues[c], Publication(msg, s'.core.records[|s.core.records|..]),
                                Snapshot(msg, Some(s'.core.records)))
  }

  ghost predicate Next<C>(s: System<C>, e: Action<C>, s': System<C>) {
    match e
    case Ingest(msg) => IngestNext(s, msg, s')
    case Join(c) =>
      c !in s.queues
      && s' == s.(queues := s.queues[c := Welcome(s.useSimTime, s.status, s.core.records)])
    case Leave(c) => s' == s.(queues := s.queues - {c})
    case Consume(c) =>
      c in s.queues && s.queues[c].items != []
      && var q := s.queues[c];
         s' == s.(queues := s.queues[c := QueueState(q.delivered + [q.items[0]], q.items[1..])])
  }

  ghost predicate Initial<C>(s: System<C>) {
    s.core == EMPTY && s.status == NO_STATUS && s.queues == map[]
  }

  /** Consuming the rest of its queue shows the client exactly the store's records, in order, and its snapshot. */
  ghost predicate Converged(q: QueueState, records: seq<Record>, status: StatusList) {
    Replay(BLANK, q.All()) == View(records, Some(status))
  }

  ghost predicate Good<C>(s: System<C>) {
    && Inv(s.core) && Covered(s.core, {})
    && forall c :: c in s.queues ==>
         |s.queues[c].items| <= CAPACITY && Converged(s.queues[c], s.core.records, s.status)
  }

  // ---------- the browser's record map ----------

  lemma {:induction false} SetPresent(rs: seq<Record>, i: nat)
    requires i < |rs| && forall a, b :: 0 <= a < b < |rs| ==> rs[a].sequence != rs[b].sequence
    ensures SetRecord(rs, rs[i]) == rs
  {
    if i > 0 {
      SetPresent(rs[1..], i - 1);
    }
  }

  lemma {:induction false} SetAbsent(rs: seq<Record>, r: Record)
    requires forall a :: 0 <= a < |rs| ==> rs[a].sequence != r.sequence
    ensures SetRecord(rs, r) == rs + [r]
  {
    if rs != [] {
      SetAbsent(rs[1..], r);
    }
  }

  /** Against a prefix of the history, setting a record is idempotent or extends the prefix. */
  lemma SetOnPrefix(all: seq<Record>, rs: seq<Record>, i: nat)
    requires Numbered(all) && rs <= all && i < |all| && i <= |rs|
    ensures SetRecord(rs, all[i]) <= all && |SetRecord(rs, all[i])| == if i < |rs| then |rs| else |rs| + 1
  {
    if i < |rs| {
      assert all[i] == rs[i];
      SetPresent(rs, i);
    } else {
      SetAbsent(rs, all[i]);
    }
  }

  /** Loading a history gives that history. */
  lemma {:induction false} LoadHistory(all: seq<Record>, n: nat)
    requires Numbered(all) && n <= |all|
    ensures SetRecords([], all[..n]) == all[..n]
  {
    if n > 0 {
      LoadHistory(all, n - 1);
      assert all[..n][..n - 1] == all[..n - 1];
      SetOnPrefix(all, all[..n - 1], n - 1);
    }
  }

  lemma {:induction false} ReplaySnoc(v: View, ms: seq<Message>, m: Message)
    ensures Replay(v, ms + [m]) == Receive(Replay(v, ms), m)
  {
    assert (ms + [m])[..|ms + [m]| - 1] == ms;
  }

  // ---------- publishing ----------

  /** A client under way: it shows the new snapshot and at least the first `lo` of the records `all`. */
  ghost predicate Lagging(q: QueueState, all: seq<Record>, lo: nat, status: StatusList) {
    var v := Replay(BLANK, q.All());
    |q.items| <= CAPACITY && v.latest == Some(status) && v.records <= all && lo <= |v.records|
  }

  lemma OverflowCatchesUp(q: QueueState, all: seq<Record>, lo: nat, status: StatusList)
    requires Numbered(all) && lo <= |all|
    ensures Lagging(q.(items := [Snapshot(status, Some(all))]), all, lo, status)
  {
    ReplaySnoc(BLANK, q.delivered, Snapshot(status, Some(all)));
    LoadHistory(all, |all|);
    assert all[..|all|] == all;
  }

  lemma PutSnapshotKeeps(q: QueueState, all: seq<Record>, lo: nat, before: StatusList, status: StatusList)
    requires Numbered(all) && lo <= |all| && |q.items| <= CAPACITY
    requires Converged(q, all[..lo], before)
    ensures Lagging(Put(q, Snapshot(status, None), Snapshot(status, Some(all))), all, lo, status)
  {
    var m := Snapshot(status, None);
    if |q.items| < CAPACITY {
      assert q.delivered + (q.items + [m]) == q.All() + [m];
      ReplaySnoc(BLANK, q.All(), m);
    } else {
      OverflowCatchesUp(q, all, lo, status);
    }
  }

  lemma PutRecordKeeps(q: QueueState, all: seq<Record>, lo: nat, status: StatusList)
    requires Numbered(all) && lo < |all| && Lagging(q, all, lo, status)
    ensures Lagging(Put(q, TimelineRecord(all[lo]), Snapshot(status, Some(all))), all, lo + 1, status)
  {
    var m := TimelineRecord(all[lo]);
    if |q.items| < CAPACITY {
      assert q.delivered + (q.items + [m]) == q.All() + [m];
      ReplaySnoc(BLANK, q.All(), m);
      SetOnPrefix(all, Replay(BLANK, q.All()).records, lo);
    } else {
      OverflowCatchesUp(q, all, lo + 1, status);
    }
  }

  lemma PublicationSnoc(status: StatusList, news: seq<Record>, r: Record)
    ensures Publication(status, news + [r]) == Publication(status, news) + [TimelineRecord(r)]
  {
  }

  lemma PutAllSnoc(q: QueueState, ms: seq<Message>, m: Message, full: Message)
    ensures PutAll(q, ms + [m], full) == Put(PutAll(q, ms, full), m, full)
  {
    assert (ms + [m])[..|ms + [m]| - 1] == ms;
  }

  lemma {:induction false} PublishKeeps(
    q: QueueState, all: seq<Record>, lo: nat, k: nat, before: StatusList, status: StatusList)
    requires Numbered(all) && lo + k <= |all| && |q.items| <= CAPACITY && Converged(q, all[..lo], before)
    ensures Lagging(PutAll(q, Publication(status, all[lo..lo + k]), Snapshot(status, Some(all))), all, lo + k, status)
    decreases k
  {
    var full := Snapshot(status, Some(all));
    if k == 0 {
      PutAllSnoc(q, [], Snapshot(status, None), full);
      PutSnapshotKeeps(q, all, lo, before, status);
    } else {
      var news, r := all[lo..lo + k - 1], all[lo + k - 1];
      assert all[lo..lo + k] == news + [r];
      PublishKeeps(q, all, lo, k - 1, before, status);
      PublicationSnoc(status, news, r);
      PutAllSnoc(q, Publication(status, news), TimelineRecord(r), full);
      PutRecordKeeps(PutAll(q, Publication(status, news), full), all, lo + k - 1, status);
    }
  }

  /** A client that shows all of the records has converged. */
  lemma CaughtUp(q: QueueState, all: seq<Record>, status: StatusList)
    requires Lagging(q, all, |all|, status)
    ensures |q.items| <= CAPACITY && Converged(q, all, status)
  {
    var v := Replay(BLANK, q.All());
    assert v.records == all;
  }

  /** However full the queue was, after a publication the client converges to the new history. */
  lemma PublishConverges(q: QueueState, past: seq<Record>, before: StatusList, all: seq<Record>, status: StatusList)
    requires Numbered(all) && past <= all && |q.items| <= CAPACITY && Converged(q, past, before)
    ensures var q' := PutAll(q, Publication(status, all[|past|..]), Snapshot(status, Some(all)));
            |q'.items| <= CAPACITY && Converged(q', all, status)
  {
    assert all[..|past|] == past;
    assert all[|past|..|all|] == all[|past|..];
    PublishKeeps(q, all, |past|, |all| - |past|, before, status);
    CaughtUp(PutAll(q, Publication(status, all[|past|..]), Snapshot(status, Some(all))), all, status);
  }

  // ---------- every reachable state ----------

  lemma WelcomeConverges(useSimTime: bool, records: seq<Record>, status: StatusList)
    requires Numbered(records)
    ensures Converged(Welcome(useSimTime, status, records), records, status)
  {
    var ms := Welcome(useSimTime, status, records).All();
    assert ms == [Hello(useSimTime)] + [Snapshot(status, Some(records))];
    ReplaySnoc(BLANK, [Hello(useSimTime)], Snapshot(status, Some(records)));
    LoadHistory(records, |records|);
    assert records[..|records|] == records;
  }

  lemma NextKeepsGood<C>(s: System<C>, e: Action<C>, s': System<C>)
    requires Good(s) && Next(s, e, s')
    ensures Good(s')
  {
    match e
    case Ingest(msg) =>
      IngestKeeps(s.core, msg, s'.core);
      forall c | c in s'.queues
        ensures |s'.queues[c].items| <= CAPACITY && Converged(s'.queues[c], s'.core.records, s'.status)
      {
        PublishConverges(s.queues[c], s.core.records, s.status, s'.core.records, msg);
      }
    case Join(c) => WelcomeConverges(s.useSimTime, s.core.records, s.status);
    case Leave(_) =>
    case Consume(c) =>
      var q := s.queues[c];
      assert q.delivered + [q.items[0]] + q.items[1..] == q.All();
  }

  /** `states` is a run under `events`, from the empty store. */
  ghost predicate IsRun<C>(states: seq<System<C>>, events: seq<Action<C>>) {
    && |states| == |events| + 1 && Initial(states[0])
    && forall i :: 0 <= i < |events| ==> Next(states[i], events[i], states[i + 1])
  }

  /** The status messages among the events, in order. */
  function Messages<C>(events: seq<Action<C>>): seq<StatusList> {
    if events == [] then []
    else
      var last := events[|events| - 1];
      Messages(events[..|events| - 1]) + if last.Ingest? then [last.msg] else []
  }

  /** In every interleaving of ingests, joins, leaves and dequeues, every client converges. */
  lemma {:induction false} ClientsConverge<C>(states: seq<System<C>>, events: seq<Action<C>>, n: nat)
    requires IsRun(states, events) && n < |states|
    ensures Good(states[n])
  {
    if n > 0 {
      ClientsConverge(states, events, n - 1);
      NextKeepsGood(states[n - 1], events[n - 1], states[n]);
    }
  }

  /** The history at any point of a run is one that the messages ingested so far produce. */
  lemma {:induction false} RunReaches<C>(states: seq<System<C>>, events: seq<Action<C>>, n: nat)
    requires IsRun(states, events) && n < |states|
    ensures Reaches(Messages(events[..n]), states[n].core)
  {
    if n > 0 {
      RunReaches(states, events, n - 1);
      var e := events[n - 1];
      assert events[..n][..n - 1] == events[..n - 1];
      assert Next(states[n - 1], e, states[n]);
      if e.Ingest? {
        var ms := Messages(events[..n]);
        assert ms[..|ms| - 1] == Messages(events[..n - 1]) && ms[|ms| - 1] == e.msg;
      } else {
        assert Messages(events[..n]) == Messages(events[..n - 1]);
        assert states[n].core == states[n - 1].core;
      }
    }
  }
}
