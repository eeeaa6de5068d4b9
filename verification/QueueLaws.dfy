/** What exactly a client's queue holds after a publication and after joining, and how the browser's record map changes. */
module QueueLaws {
  import opened StatusMessages
  import opened History
  import opened Fanout

  // ---------- publications ----------

  lemma NextRemainder(a: nat)
    ensures (a + 1) % 32 == if a % 32 == 31 then 0 else a % 32 + 1
  {
  }

  /** Between the two states these messages are put into a queue of 32 places, which starts over with the full history
      whenever it would overflow. */
  ghost predicate HoldsAfter(q: QueueState, q': QueueState, ms: seq<Message>, full: Message) {
    var total := |q.items| + |ms|;
    && q'.delivered == q.delivered
    && if total <= 32 then q'.items == q.items + ms
       else (total - 1) % 32 <= |ms| && q'.items == [full] + ms[|ms| - (total - 1) % 32..]
  }

  lemma PutMore(q: QueueState, mid: QueueState, ms: seq<Message>, m: Message, full: Message)
    requires |q.items| <= 32 && HoldsAfter(q, mid, ms, full)
    ensures HoldsAfter(q, Put(mid, m, full), ms + [m], full)
  {
    var n := |ms|;
    if |q.items| + n >= 33 {
      var k := (|q.items| + n - 1) % 32;
      NextRemainder(|q.items| + n - 1);
      assert k != 31 ==> (ms + [m])[n - k..] == ms[n - k..] + [m];
    }
  }

  lemma {:induction false} PutAllExactly(q: QueueState, ms: seq<Message>, full: Message)
    requires |q.items| <= 32
    ensures HoldsAfter(q, PutAll(q, ms, full), ms, full)
    decreases |ms|
  {
    if ms != [] {
      var n := |ms| - 1;
      PutAllExactly(q, ms[..n], full);
      PutMore(q, PutAll(q, ms[..n], full), ms[..n], ms[n], full);
      assert ms == ms[..n] + [ms[n]];
    }
  }

  lemma PublicationIs(status: StatusList, news: seq<Record>)
    ensures Publication(status, news)
            == [Snapshot(status, None)] + seq(|news|, i requires 0 <= i < |news| => TimelineRecord(news[i]))
  {
  }

  /** After a message each client has, behind what it already had to read, the new snapshot without history and then one
      message for each new record, in order. When these would be more than 32, it has the snapshot with the whole history
      instead, followed by the last few of them: those since the queue was full for the last time. */
  lemma IngestPublishes<C>(s: System<C>, msg: StatusList, s': System<C>, client: C)
    requires Good(s) && Next(s, Ingest(msg), s') && client in s.queues
    ensures client in s'.queues && |s.core.records| <= |s'.core.records|
    ensures var news := s'.core.records[|s.core.records|..];
            HoldsAfter(s.queues[client], s'.queues[client],
                       [Snapshot(msg, None)] + seq(|news|, i requires 0 <= i < |news| => TimelineRecord(news[i])),
                       Snapshot(msg, Some(s'.core.records)))
  {
    var news := s'.core.records[|s.core.records|..];
    PutAllExactly(s.queues[client], Publication(msg, news), Snapshot(msg, Some(s'.core.records)));
    PublicationIs(msg, news);
  }

  // ---------- joining ----------

  /** A new client has the greeting to read and then the snapshot with the whole history; the others are not affected. */
  lemma JoinWelcomes<C>(s: System<C>, client: C, s': System<C>)
    requires Next(s, Join(client), s')
    ensures client in s'.queues && s'.queues[client].delivered == []
    ensures s'.queues[client].items == [Hello(s.useSimTime), Snapshot(s.status, Some(s.core.records))]
    ensures forall c :: c in s.queues ==> c in s'.queues && s'.queues[c] == s.queues[c]
    ensures s'.core == s.core && s'.status == s.status
  {
  }

  predicate HasHistory(m: Message) {
    m.Snapshot? && m.history.Some?
  }

  /** The first message is a snapshot with history, or else the greeting and then such a snapshot. */
  ghost predicate OpensWithHistory(ms: seq<Message>, useSimTime: bool) {
    && ms != []
    && (HasHistory(ms[0]) || (ms[0] == Hello(useSimTime) && |ms| >= 2 && HasHistory(ms[1])))
  }

  lemma PutOpens(q: QueueState, m: Message, full: Message, useSimTime: bool)
    requires OpensWithHistory(q.All(), useSimTime) && HasHistory(full)
    ensures OpensWithHistory(Put(q, m, full).All(), useSimTime)
  {
    if |q.items| < CAPACITY {
      assert Put(q, m, full).All() == q.All() + [m];
    } else if q.delivered != [] {
      assert q.delivered[0] == q.All()[0];
      assert |q.delivered| >= 2 ==> q.delivered[1] == q.All()[1];
    }
  }

  lemma {:induction false} PutAllOpens(q: QueueState, ms: seq<Message>, full: Message, useSimTime: bool)
    requires OpensWithHistory(q.All(), useSimTime) && HasHistory(full)
    ensures OpensWithHistory(PutAll(q, ms, full).All(), useSimTime)
  {
    if ms != [] {
      PutAllOpens(q, ms[..|ms| - 1], full, useSimTime);
      PutOpens(PutAll(q, ms[..|ms| - 1], full), ms[|ms| - 1], full, useSimTime);
    }
  }

  ghost predicate AllOpen<C>(s: System<C>) {
    forall c :: c in s.queues ==> OpensWithHistory(s.queues[c].All(), s.useSimTime)
  }

  lemma NextOpens<C>(s: System<C>, e: Action<C>, s': System<C>)
    requires AllOpen(s) && Next(s, e, s')
    ensures AllOpen(s') && s'.useSimTime == s.useSimTime
  {
    match e
    case Ingest(msg) =>
      forall c | c in s'.queues ensures OpensWithHistory(s'.queues[c].All(), s'.useSimTime) {
        PutAllOpens(s.queues[c], Publication(msg, s'.core.records[|s.core.records|..]), Snapshot(msg, Some(s'.core.records)),
                    s.useSimTime);
      }
    case Join(_) =>
    case Leave(_) =>
    case Consume(c) =>
      var q := s.queues[c];
      assert q.delivered + [q.items[0]] + q.items[1..] == q.All();
  }

  /** In every run no client gets a record, or a snapshot without history, before a snapshot with the whole history. What an
      overflow can throw away is the greeting. */
  lemma {:induction false} HistoryComesFirst<C>(states: seq<System<C>>, events: seq<Action<C>>, n: nat)
    requires IsRun(states, events) && n < |states|
    ensures AllOpen(states[n]) && states[n].useSimTime == states[0].useSimTime
  {
    if n > 0 {
      HistoryComesFirst(states, events, n - 1);
      NextOpens(states[n - 1], events[n - 1], states[n]);
    }
  }

  // ---------- the browser's record map ----------

  /** Setting a record replaces the one with its identifier, in its place, or else comes last; nothing else changes. */
  lemma {:induction false} SetRecordExactly(rs: seq<Record>, r: Record)
    requires forall i, j :: 0 <= i < j < |rs| ==> rs[i].sequence != rs[j].sequence
    ensures var rs', known := SetRecord(rs, r), exists i :: 0 <= i < |rs| && rs[i].sequence == r.sequence;
            && |rs'| == |rs| + (if known then 0 else 1)
            && (forall i :: 0 <= i < |rs| ==> rs'[i] == if rs[i].sequence == r.sequence then r else rs[i])
            && (!known ==> rs'[|rs|] == r)
  {
    if rs != [] && rs[0].sequence != r.sequence {
      SetRecordExactly(rs[1..], r);
      assert forall i :: 1 <= i < |rs| ==> rs[1..][i - 1] == rs[i];
    }
  }

  /** What the browser does with a message: the greeting changes no record; a snapshot with history replaces all records by
      those of the history, and one without leaves them; a record is set. */
  lemma ReceiveExactly(v: View, useSimTime: bool, status: StatusList, all: seq<Record>, r: Record)
    requires Numbered(all)
    ensures Receive(v, Hello(useSimTime)) == v
    ensures Receive(v, Snapshot(status, None)) == View(v.records, Some(status))
    ensures Receive(v, Snapshot(status, Some(all))) == View(all, Some(status))
    ensures Receive(v, TimelineRecord(r)) == View(SetRecord(v.records, r), v.latest)
  {
    LoadHistory(all, |all|);
    assert all[..|all|] == all;
  }
}
