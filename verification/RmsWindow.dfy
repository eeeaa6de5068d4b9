/** The sliding-window RMS evaluator over real arithmetic: an incremental deque against a filter over the history. */
module RmsWindow {
  import opened StatusMessages

  datatype Wrench = Wrench(stamp: real, x: real, y: real, z: real)

  datatype Observation =
    | OfWrench(wrench: Wrench)
    | Other(stamp: real)

  /** A sample holds the square of a force norm. */
  datatype Sample = Sample(stamp: real, square: real)

  datatype Outcome =
    | Verdict(within: Option<bool>)
    | WrongCount
    | WrongType

  // ---------- the deque ----------

  function Push(xs: seq<Wrench>, s: Wrench): seq<Wrench> {
    var n := |xs| - 1;
    if xs != [] && xs[n].stamp == s.stamp then xs[..n] + [s] else xs + [s]
  }

  function DropOld(xs: seq<Wrench>, cutoff: real): seq<Wrench> {
    if xs != [] && xs[0].stamp < cutoff then DropOld(xs[1..], cutoff) else xs
  }

  /** What the deque retains of the wrenches `h`. */
  function Window(h: seq<Wrench>, window: real): seq<Wrench> {
    if h == [] then []
    else
      var s := h[|h| - 1];
      DropOld(Push(Window(h[..|h| - 1], window), s), s.stamp - window)
  }

  // ---------- the reference ----------

  predicate HasStamp(xs: seq<Wrench>, t: real) {
    exists i :: 0 <= i < |xs| && xs[i].stamp == t
  }

  /** The last wrench of each stamp. */
  function KeepLast(h: seq<Wrench>): seq<Wrench> {
    if h == [] then []
    else if HasStamp(h[1..], h[0].stamp) then KeepLast(h[1..])
    else [h[0]] + KeepLast(h[1..])
  }

  function Recent(xs: seq<Wrench>, cutoff: real): seq<Wrench> {
    if xs == [] then []
    else if xs[0].stamp >= cutoff then [xs[0]] + Recent(xs[1..], cutoff)
    else Recent(xs[1..], cutoff)
  }

  ghost predicate NonDecreasing(h: seq<Wrench>) {
    forall i, j :: 0 <= i < j < |h| ==> h[i].stamp <= h[j].stamp
  }

  ghost predicate Increasing(xs: seq<Wrench>) {
    forall i, j :: 0 <= i < j < |xs| ==> xs[i].stamp < xs[j].stamp
  }

  function DropStamp(xs: seq<Wrench>, t: real): seq<Wrench> {
    if xs == [] then []
    else if xs[0].stamp != t then [xs[0]] + DropStamp(xs[1..], t)
    else DropStamp(xs[1..], t)
  }

  lemma HasStampSnoc(xs: seq<Wrench>, s: Wrench, t: real)
    ensures HasStamp(xs + [s], t) <==> HasStamp(xs, t) || s.stamp == t
  {
    assert (xs + [s])[|xs|] == s;
    if HasStamp(xs, t) {
      var i :| 0 <= i < |xs| && xs[i].stamp == t;
      assert (xs + [s])[i].stamp == t;
    }
  }

  /** A new sample replaces what was kept for its stamp. */
  lemma {:induction false} KeepLastSnoc(h: seq<Wrench>, s: Wrench)
    ensures KeepLast(h + [s]) == DropStamp(KeepLast(h), s.stamp) + [s]
    decreases |h|
  {
    if h == [] {
      assert h + [s] == [s] && [s][1..] == [];
    } else {
      assert (h + [s])[1..] == h[1..] + [s];
      KeepLastSnoc(h[1..], s);
      HasStampSnoc(h[1..], s, h[0].stamp);
    }
  }

  lemma {:induction false} KeepLastNewest(h: seq<Wrench>)
    requires h != []
    ensures KeepLast(h) != [] && KeepLast(h)[|KeepLast(h)| - 1] == h[|h| - 1]
  {
    if |h| > 1 {
      KeepLastNewest(h[1..]);
    } else {
      assert h[1..] == [];
    }
  }

  lemma {:induction false} KeepLastFrom(h: seq<Wrench>)
    ensures forall x :: x in KeepLast(h) ==> x in h
  {
    if h != [] {
      KeepLastFrom(h[1..]);
    }
  }

  lemma {:induction false} KeepLastIncreasing(h: seq<Wrench>)
    requires NonDecreasing(h)
    ensures Increasing(KeepLast(h))
  {
    if h != [] {
      var t := h[1..];
      var kt := KeepLast(t);
      KeepLastIncreasing(t);
      KeepLastFrom(t);
      if !HasStamp(t, h[0].stamp) {
        forall i | 0 <= i < |kt| ensures h[0].stamp < kt[i].stamp {
          assert kt[i] in kt && kt[i] in t;
          var j :| 0 <= j < |t| && t[j] == kt[i];
          assert h[0].stamp <= h[j + 1].stamp;
        }
      }
    }
  }

  /** On increasing stamps that do not exceed the new one, pushing is replacing. */
  lemma {:induction false} PushReplaces(xs: seq<Wrench>, s: Wrench)
    requires Increasing(xs) && forall i :: 0 <= i < |xs| ==> xs[i].stamp <= s.stamp
    ensures Push(xs, s) == DropStamp(xs, s.stamp) + [s]
  {
    if |xs| == 1 {
      assert xs[1..] == [];
    } else if |xs| > 1 {
      assert xs[0].stamp < xs[1].stamp <= s.stamp;
      var n := |xs| - 1;
      PushReplaces(xs[1..], s);
      assert xs[1..][..n - 1] == xs[1..n];
      assert Push(xs, s) == [xs[0]] + Push(xs[1..], s);
    }
  }

  lemma {:induction false} AllRecent(xs: seq<Wrench>, cutoff: real)
    requires forall i :: 0 <= i < |xs| ==> xs[i].stamp >= cutoff
    ensures Recent(xs, cutoff) == xs
  {
    if xs != [] {
      AllRecent(xs[1..], cutoff);
    }
  }

  lemma {:induction false} DropIsRecent(xs: seq<Wrench>, cutoff: real)
    requires Increasing(xs)
    ensures DropOld(xs, cutoff) == Recent(xs, cutoff)
  {
    if xs != [] {
      if xs[0].stamp < cutoff {
        DropIsRecent(xs[1..], cutoff);
      } else {
        AllRecent(xs, cutoff);
      }
    }
  }

  lemma {:induction false} RecentConcat(xs: seq<Wrench>, ys: seq<Wrench>, cutoff: real)
    ensures Recent(xs + ys, cutoff) == Recent(xs, cutoff) + Recent(ys, cutoff)
  {
    if xs == [] {
      assert xs + ys == ys;
    } else {
      assert (xs + ys)[1..] == xs[1..] + ys;
      RecentConcat(xs[1..], ys, cutoff);
    }
  }

  lemma {:induction false} RecentTwice(xs: seq<Wrench>, early: real, late: real)
    requires early <= late
    ensures Recent(Recent(xs, early), late) == Recent(xs, late)
  {
    if xs != [] {
      RecentTwice(xs[1..], early, late);
      if xs[0].stamp >= early {
        assert Recent(xs, early)[1..] == Recent(xs[1..], early);
      }
    }
  }

  lemma {:induction false} RecentDropStamp(xs: seq<Wrench>, t: real, cutoff: real)
    ensures Recent(DropStamp(xs, t), cutoff) == DropStamp(Recent(xs, cutoff), t)
  {
    if xs != [] {
      RecentDropStamp(xs[1..], t, cutoff);
      assert ([xs[0]] + DropStamp(xs[1..], t))[1..] == DropStamp(xs[1..], t);
      assert ([xs[0]] + Recent(xs[1..], cutoff))[1..] == Recent(xs[1..], cutoff);
    }
  }

  lemma {:induction false} RecentIncreasing(xs: seq<Wrench>, cutoff: real, bound: real)
    requires Increasing(xs) && forall i :: 0 <= i < |xs| ==> xs[i].stamp <= bound
    ensures Increasing(Recent(xs, cutoff))
    ensures forall i :: 0 <= i < |Recent(xs, cutoff)| ==> xs[0].stamp <= Recent(xs, cutoff)[i].stamp <= bound
  {
    if xs != [] {
      RecentIncreasing(xs[1..], cutoff, bound);
    }
  }

  lemma PushIncreasing(xs: seq<Wrench>, s: Wrench)
    requires Increasing(xs) && forall i :: 0 <= i < |xs| ==> xs[i].stamp <= s.stamp
    ensures Increasing(Push(xs, s))
  {
  }

  /** One sample more: forgetting early and then forgetting late is forgetting late. */
  lemma OneMore(ks: seq<Wrench>, s: Wrench, early: real, late: real)
    requires early <= late && Increasing(ks) && forall i :: 0 <= i < |ks| ==> ks[i].stamp <= s.stamp
    ensures DropOld(Push(Recent(ks, early), s), late) == Recent(DropStamp(ks, s.stamp) + [s], late)
  {
    var rs := Recent(ks, early);
    RecentIncreasing(ks, early, s.stamp);
    PushIncreasing(rs, s);
    DropIsRecent(Push(rs, s), late);
    PushReplaces(rs, s);
    RecentConcat(DropStamp(rs, s.stamp), [s], late);
    RecentConcat(DropStamp(ks, s.stamp), [s], late);
    RecentDropStamp(rs, s.stamp, late);
    RecentDropStamp(ks, s.stamp, late);
    RecentTwice(ks, early, late);
  }

  lemma KeptInOrder(h: seq<Wrench>)
    requires NonDecreasing(h) && h != []
    ensures var g, s := h[..|h| - 1], h[|h| - 1];
            var ks := KeepLast(g);
            && KeepLast(h) == DropStamp(ks, s.stamp) + [s]
            && Increasing(ks) && forall i :: 0 <= i < |ks| ==> ks[i].stamp <= s.stamp
  {
    var n := |h| - 1;
    var g, s := h[..n], h[n];
    assert h == g + [s];
    KeepLastSnoc(g, s);
    var ks := KeepLast(g);
    KeepLastIncreasing(g);
    KeepLastFrom(g);
    forall i | 0 <= i < |ks| ensures ks[i].stamp <= s.stamp {
      assert ks[i] in ks;
      var j :| 0 <= j < |g| && g[j] == ks[i];
      assert h[j].stamp <= h[n].stamp;
    }
  }

  /** One sample more, when what came before is filtered from `early` on. */
  lemma FilterSnoc(h: seq<Wrench>, window: real, early: real)
    requires NonDecreasing(h) && h != [] && early <= h[|h| - 1].stamp - window
    requires Window(h[..|h| - 1], window) == Recent(KeepLast(h[..|h| - 1]), early)
    ensures Window(h, window) == Recent(KeepLast(h), h[|h| - 1].stamp - window)
  {
    var n := |h| - 1;
    KeptInOrder(h);
    OneMore(KeepLast(h[..n]), h[n], early, h[n].stamp - window);
  }

  /** For samples in order, the deque is the full history with the last value kept per stamp, filtered to the window. */
  lemma {:induction false} DequeIsFilter(h: seq<Wrench>, window: real)
    requires window > 0.0 && NonDecreasing(h) && h != []
    ensures Window(h, window) == Recent(KeepLast(h), h[|h| - 1].stamp - window)
    decreases |h|
  {
    var n := |h| - 1;
    if n == 0 {
      assert h[..n] == [];
      FilterSnoc(h, window, h[n].stamp - window);
    } else {
      DequeIsFilter(h[..n], window);
      assert h[n - 1].stamp <= h[n].stamp;
      FilterSnoc(h, window, h[n - 1].stamp - window);
    }
  }

  lemma {:induction false} DropKeepsLast(xs: seq<Wrench>, cutoff: real)
    requires xs != [] && xs[|xs| - 1].stamp >= cutoff
    ensures DropOld(xs, cutoff) != [] && DropOld(xs, cutoff)[|DropOld(xs, cutoff)| - 1] == xs[|xs| - 1]
  {
    if xs[0].stamp < cutoff {
      DropKeepsLast(xs[1..], cutoff);
    }
  }

  /** Whatever the order of the stamps, the newest sample is retained: the mean never divides by zero. */
  lemma NewestRetained(h: seq<Wrench>, window: real)
    requires window > 0.0 && h != []
    ensures var xs := Window(h, window); xs != [] && xs[|xs| - 1] == h[|h| - 1]
  {
    var s := h[|h| - 1];
    DropKeepsLast(Push(Window(h[..|h| - 1], window), s), s.stamp - window);
  }

  // ---------- stamps in any order ----------

  /** The next wrench, if any, has another stamp. */
  predicate EndsRun(h: seq<Wrench>, i: nat)
    requires i < |h|
  {
    i + 1 == |h| || h[i + 1].stamp != h[i].stamp
  }

  /** `xs` are the wrenches of `h` at the positions `at`: from `first` on, the last of each run of equal stamps. */
  ghost predicate Retains(h: seq<Wrench>, xs: seq<Wrench>, at: seq<nat>, first: nat) {
    && |at| == |xs|
    && (forall j :: 0 <= j < |at| ==> at[j] < |h| && xs[j] == h[at[j]])
    && (forall j, k :: 0 <= j < k < |at| ==> at[j] < at[k])
    && forall i :: 0 <= i < |h| ==> (i in at <==> first <= i && EndsRun(h, i))
  }

  /** The wrench is too old for a later one. */
  ghost predicate TooOld(h: seq<Wrench>, i: nat, window: real)
    requires i < |h|
  {
    exists k :: i < k < |h| && h[i].stamp < h[k].stamp - window
  }

  /** So is each that was dropped before `first`. */
  ghost predicate DropsOld(h: seq<Wrench>, first: nat, window: real) {
    forall i :: 0 <= i < first && i < |h| && EndsRun(h, i) ==> TooOld(h, i, window)
  }

  lemma RetainsNewest(h: seq<Wrench>, xs: seq<Wrench>, at: seq<nat>, first: nat)
    requires h != [] && Retains(h, xs, at, first) && first < |h|
    ensures at != [] && at[|at| - 1] == |h| - 1
  {
    assert EndsRun(h, |h| - 1);
    assert |h| - 1 in at;
    var j :| 0 <= j < |at| && at[j] == |h| - 1;
    assert at[j] <= at[|at| - 1] < |h|;
  }

  lemma EndsRunSnoc(g: seq<Wrench>, w: Wrench, i: nat)
    requires i < |g|
    ensures EndsRun(g + [w], i) <==> EndsRun(g, i) && (i == |g| - 1 ==> g[i].stamp != w.stamp)
    ensures EndsRun(g + [w], |g|)
  {
  }

  /** The positions after a push: the newest one takes the place of the last when the stamps are equal. */
  function Pushed(g: seq<Wrench>, at: seq<nat>, w: Wrench): seq<nat> {
    (if g != [] && at != [] && g[|g| - 1].stamp == w.stamp then at[..|at| - 1] else at) + [|g|]
  }

  lemma PushedAre(g: seq<Wrench>, xs: seq<Wrench>, at: seq<nat>, first: nat, w: Wrench, i: nat)
    requires g != [] && Retains(g, xs, at, first) && first < |g| && i < |g|
    ensures i in Pushed(g, at, w) <==> first <= i && EndsRun(g + [w], i)
  {
    var m := |at| - 1;
    RetainsNewest(g, xs, at, first);
    EndsRunSnoc(g, w, i);
    assert at == at[..m] + [|g| - 1];
    assert forall j :: 0 <= j < m ==> at[j] < at[m];
    assert i in at <==> first <= i && EndsRun(g, i);
  }

  lemma PushRetains(g: seq<Wrench>, xs: seq<Wrench>, at: seq<nat>, first: nat, w: Wrench)
    requires Retains(g, xs, at, first) && (if g == [] then first == 0 else first < |g|)
    ensures Retains(g + [w], Push(xs, w), Pushed(g, at, w), first)
  {
    if g != [] {
      RetainsNewest(g, xs, at, first);
      forall i | 0 <= i < |g| ensures i in Pushed(g, at, w) <==> first <= i && EndsRun(g + [w], i) {
        PushedAre(g, xs, at, first, w, i);
      }
    }
  }

  lemma {:induction false} DropOldIs(xs: seq<Wrench>, cutoff: real) returns (d: nat)
    ensures d <= |xs| && DropOld(xs, cutoff) == xs[d..]
    ensures forall j :: 0 <= j < d ==> xs[j].stamp < cutoff
    ensures d < |xs| ==> xs[d].stamp >= cutoff
  {
    if xs != [] && xs[0].stamp < cutoff {
      d := DropOldIs(xs[1..], cutoff);
      forall j | 0 <= j < d + 1 ensures xs[j].stamp < cutoff {
        assert j > 0 ==> xs[1..][j - 1] == xs[j];
      }
      d := d + 1;
    } else {
      d := 0;
    }
  }

  lemma DropRetains(h: seq<Wrench>, xs: seq<Wrench>, at: seq<nat>, first: nat, d: nat)
    requires Retains(h, xs, at, first) && d <= |xs|
    ensures Retains(h, xs[d..], at[d..], if d == 0 then first else at[d - 1] + 1)
  {
    if d > 0 {
      var first' := at[d - 1] + 1;
      forall i | 0 <= i < |h| ensures i in at[d..] <==> first' <= i && EndsRun(h, i) {
        assert i in at <==> first <= i && EndsRun(h, i);
        if i in at[d..] {
          assert i in at;
        }
        if i in at && first' <= i {
          var j :| 0 <= j < |at| && at[j] == i;
          assert j >= d;
          assert at[d..][j - d] == i;
        }
        assert at[0] in at && first <= at[0];
      }
    }
  }

  lemma DropsMore(g: seq<Wrench>, w: Wrench, first: nat, xs: seq<Wrench>, at: seq<nat>, d: nat, window: real)
    requires DropsOld(g, first, window) && first <= |g| && window > 0.0
    requires Retains(g + [w], xs, at, first) && d <= |xs| && forall j :: 0 <= j < d ==> xs[j].stamp < w.stamp - window
    ensures DropsOld(g + [w], if d == 0 then first else at[d - 1] + 1, window)
  {
    var h, first' := g + [w], if d == 0 then first else at[d - 1] + 1;
    forall i | 0 <= i < first' && i < |h| && EndsRun(h, i)
      ensures TooOld(h, i, window)
    {
      if i < first {
        if i < |g| - 1 {
          assert EndsRun(g, i);
        }
        assert EndsRun(g, i);
        var k :| i < k < |g| && g[i].stamp < g[k].stamp - window;
        assert h[k] == g[k] && h[i] == g[i];
      } else {
        assert i in at;
        var j :| 0 <= j < |at| && at[j] == i;
        assert j < d;
        assert h[i] == xs[j] && h[|g|] == w;
        assert h[i].stamp < h[|g|].stamp - window;
      }
    }
  }

  lemma WindowSnoc(g: seq<Wrench>, w: Wrench, window: real)
    ensures Window(g + [w], window) == DropOld(Push(Window(g, window), w), w.stamp - window)
  {
    assert (g + [w])[..|g|] == g;
  }

  /** What a push retains, after dropping what is too old. */
  lemma DropMore(g: seq<Wrench>, w: Wrench, window: real, xs: seq<Wrench>, at: seq<nat>, first: nat)
    returns (at': seq<nat>, first': nat)
    requires window > 0.0 && Retains(g + [w], xs, at, first) && DropsOld(g, first, window) && first <= |g|
    ensures Retains(g + [w], DropOld(xs, w.stamp - window), at', first') && DropsOld(g + [w], first', window)
  {
    var d := DropOldIs(xs, w.stamp - window);
    DropsMore(g, w, first, xs, at, d, window);
    DropRetains(g + [w], xs, at, first, d);
    at', first' := at[d..], if d == 0 then first else at[d - 1] + 1;
  }

  /** One wrench more. */
  lemma WindowMore(g: seq<Wrench>, w: Wrench, window: real, at: seq<nat>, first: nat) returns (at': seq<nat>, first': nat)
    requires window > 0.0 && Retains(g, Window(g, window), at, first) && DropsOld(g, first, window)
    requires if g == [] then first == 0 else first < |g|
    ensures Retains(g + [w], Window(g + [w], window), at', first') && DropsOld(g + [w], first', window)
  {
    PushRetains(g, Window(g, window), at, first, w);
    WindowSnoc(g, w, window);
    at', first' := DropMore(g, w, window, Push(Window(g, window), w), Pushed(g, at, w), first);
  }

  lemma RetainedFrom(h: seq<Wrench>, xs: seq<Wrench>, at: seq<nat>, first: nat)
    requires Retains(h, xs, at, first) && xs != []
    ensures first < |h|
  {
    assert at[0] in at;
  }

  lemma OldestInside(h: seq<Wrench>, window: real)
    requires window > 0.0 && h != []
    ensures var xs := Window(h, window); xs != [] && xs[0].stamp >= h[|h| - 1].stamp - window
  {
    var w := h[|h| - 1];
    var d := DropOldIs(Push(Window(h[..|h| - 1], window), w), w.stamp - window);
    NewestRetained(h, window);
  }

  /** Whatever the order of the stamps: the deque holds the last of each run of equal stamps from some position on, its
      oldest is inside the window of the newest, and whatever was dropped was too old for some later wrench. */
  lemma {:induction false} WindowInAnyOrder(h: seq<Wrench>, window: real) returns (at: seq<nat>, first: nat)
    requires window > 0.0 && h != []
    ensures var xs := Window(h, window);
            && xs != [] && xs[0].stamp >= h[|h| - 1].stamp - window
            && first < |h| && Retains(h, xs, at, first) && DropsOld(h, first, window)
    decreases |h|
  {
    var n := |h| - 1;
    var g, w := h[..n], h[n];
    assert h == g + [w];
    at, first := [], 0;
    if g != [] {
      at, first := WindowInAnyOrder(g, window);
    }
    at, first := WindowMore(g, w, window, at, first);
    OldestInside(h, window);
    RetainedFrom(h, Window(h, window), at, first);
  }

  // ---------- the verdict ----------

  function Square(w: Wrench): real {
    w.x * w.x + w.y * w.y + w.z * w.z
  }

  function SumOfSquares(ws: seq<Wrench>): real {
    if ws == [] then 0.0 else SumOfSquares(ws[..|ws| - 1]) + Square(ws[|ws| - 1])
  }

  /** What the sum is: nothing for no wrench, the squared force norm for one, and additive. */
  lemma {:induction false} SumLaws(ws: seq<Wrench>, vs: seq<Wrench>, w: Wrench)
    ensures SumOfSquares([]) == 0.0
    ensures SumOfSquares([w]) == w.x * w.x + w.y * w.y + w.z * w.z
    ensures SumOfSquares(ws + vs) == SumOfSquares(ws) + SumOfSquares(vs)
    decreases |vs|
  {
    assert [w][..0] == [];
    if vs == [] {
      assert ws + vs == ws;
    } else {
      var n := |vs| - 1;
      assert (ws + vs)[..|ws + vs| - 1] == ws + vs[..n];
      SumLaws(ws, vs[..n], w);
    }
  }

  /** "The root of `square` is at most `limit`", without the root. */
  predicate RootWithin(square: real, limit: real) {
    limit >= 0.0 && square <= limit * limit
  }

  lemma RootWithinMeans(root: real, square: real, limit: real)
    requires root >= 0.0 && root * root == square
    ensures RootWithin(square, limit) <==> root <= limit
  {
    if limit >= 0.0 {
      if root <= limit {
        assert root * root <= limit * root <= limit * limit;
      } else {
        assert limit * limit <= limit * root;
        assert limit * root < root * root;
      }
    }
  }

  lemma MeanBounds(sum: real, n: real, bound: real)
    requires n > 0.0
    ensures sum / n <= bound <==> sum <= bound * n
  {
    var m := sum / n;
    assert m * n == sum;
    if m <= bound {
      assert m * n <= bound * n;
    } else {
      assert m * n > bound * n;
    }
  }

  /** The root of the mean of the squared norms is within the limit. */
  ghost predicate RmsWithin(ws: seq<Wrench>, limit: real) {
    limit >= 0.0 && SumOfSquares(ws) <= limit * limit * (|ws| as real)
  }

  /** So it is for every number that is the root of that mean. */
  lemma RmsWithinMeans(ws: seq<Wrench>, rms: real, limit: real)
    requires ws != [] && rms >= 0.0 && rms * rms * (|ws| as real) == SumOfSquares(ws)
    ensures RmsWithin(ws, limit) <==> rms <= limit
  {
    var n := |ws| as real;
    RootWithinMeans(rms, rms * rms, limit);
    MeanBounds(SumOfSquares(ws), n, limit * limit);
    assert SumOfSquares(ws) / n == rms * rms by {
      assert rms * rms * n / n == rms * rms;
    }
  }

  lemma {:induction false} SumBounds(ws: seq<Wrench>, bound: real)
    ensures (forall i :: 0 <= i < |ws| ==> Square(ws[i]) <= bound) ==> SumOfSquares(ws) <= bound * (|ws| as real)
    ensures (forall i :: 0 <= i < |ws| ==> Square(ws[i]) > bound) && ws != [] ==> SumOfSquares(ws) > bound * (|ws| as real)
  {
    if ws != [] {
      var n := |ws| - 1;
      SumBounds(ws[..n], bound);
      assert bound * (|ws| as real) == bound * (n as real) + bound;
    }
  }

  /** Norms all within the limit give a true verdict, norms all above it a false one, and a true verdict means that
      some retained norm is within the limit. */
  lemma VerdictBounds(ws: seq<Wrench>, limit: real)
    requires ws != [] && limit >= 0.0
    ensures (forall i :: 0 <= i < |ws| ==> RootWithin(Square(ws[i]), limit)) ==> RmsWithin(ws, limit)
    ensures (forall i :: 0 <= i < |ws| ==> !RootWithin(Square(ws[i]), limit)) ==> !RmsWithin(ws, limit)
    ensures RmsWithin(ws, limit) ==> exists i :: 0 <= i < |ws| && RootWithin(Square(ws[i]), limit)
  {
    SumBounds(ws, limit * limit);
  }

  // ---------- the evaluator ----------

  /** The deque holds the stamps and squared norms of the wrenches. */
  ghost predicate SquaresOf(xs: seq<Sample>, ws: seq<Wrench>) {
    |xs| == |ws| && forall i :: 0 <= i < |xs| ==> xs[i] == Sample(ws[i].stamp, Square(ws[i]))
  }

  class RmsEvaluator {
    const limit: real
    const window: real
    var firstStamp: Option<real>
    var samples: seq<Sample>
    ghost var history: seq<Wrench>

    /** The wrenches whose samples are retained. */
    ghost function Kept(): seq<Wrench> reads this { Window(history, window) }

    ghost predicate Valid() reads this {
      && window > 0.0
      && firstStamp == (if history == [] then None else Some(history[0].stamp))
      && SquaresOf(samples, Kept())
    }

    constructor (limit: real, window: real)
      requires window > 0.0
      ensures Valid() && history == [] && this.limit == limit && this.window == window
    {
      this.limit, this.window := limit, window;
      firstStamp, samples, history := None, [], [];
    }

    /** A window that is not positive is refused. */
    static method Create(limit: real, window: real) returns (evaluator: RmsEvaluator?)
      ensures evaluator == null <==> window <= 0.0
      ensures evaluator != null ==>
                fresh(evaluator) && evaluator.Valid() && evaluator.history == []
                && evaluator.limit == limit && evaluator.window == window
    {
      if window <= 0.0 {
        return null;
      }
      evaluator := new RmsEvaluator(limit, window);
    }

    /** Replace or append the newest sample, then drop what left the window. */
    method Retain(stamp: real, square: real, ghost w: Wrench)
      requires SquaresOf(samples, Kept()) && stamp == w.stamp && square == Square(w)
      modifies `samples, `history
      ensures history == old(history) + [w] && SquaresOf(samples, Kept())
    {
      ghost var kept := Push(Kept(), w);
      if samples != [] && samples[|samples| - 1].stamp == stamp {
        samples := samples[|samples| - 1 := Sample(stamp, square)];
      } else {
        samples := samples + [Sample(stamp, square)];
      }
      history := history + [w];
      assert history[..|history| - 1] == old(history);
      var cutoff := stamp - window;
      while samples != [] && samples[0].stamp < cutoff
        invariant history == old(history) + [w] && SquaresOf(samples, kept) && DropOld(kept, cutoff) == Kept()
        decreases |samples|
      {
        samples, kept := samples[1..], kept[1..];
      }
    }

    /** The mean of the retained squares, compared as in `MeanBounds`. */
    method MeanSquare() returns (mean: real)
      requires samples != [] && SquaresOf(samples, Kept())
      ensures mean == SumOfSquares(Kept()) / (|Kept()| as real)
    {
      ghost var kept := Kept();
      var sum := 0.0;
      var i := 0;
      while i < |samples|
        invariant 0 <= i <= |samples| && sum == SumOfSquares(kept[..i])
      {
        assert kept[..i + 1][..i] == kept[..i];
        sum := sum + samples[i].square;
        i := i + 1;
      }
      assert kept[..i] == kept;
      mean := sum / (|samples| as real);
    }

    method Record(w: Wrench)
      requires SquaresOf(samples, Kept())
      modifies `samples, `history
      ensures history == old(history) + [w] && SquaresOf(samples, Kept())
    {
      Retain(w.stamp, w.x * w.x + w.y * w.y + w.z * w.z, w);
    }

    method Judge() returns (within: bool)
      requires samples != [] && SquaresOf(samples, Kept())
      ensures within <==> RmsWithin(Kept(), limit)
    {
      var mean := MeanSquare();
      MeanBounds(SumOfSquares(Kept()), |Kept()| as real, limit * limit);
      within := RootWithin(mean, limit);
    }

    /** After warming up the verdict is about the retained wrenches, `Kept()`, of the history with the new one. */
    method Evaluate(observations: seq<Observation>) returns (outcome: Outcome)
      requires Valid()
      modifies this
      ensures Valid()
      ensures |observations| != 1 ==> outcome == WrongCount && history == old(history)
      ensures |observations| == 1 && observations[0].Other? ==> outcome == WrongType && history == old(history)
      ensures |observations| == 1 && observations[0].OfWrench? ==>
                && history == old(history) + [observations[0].wrench] && Kept() != []
                && if observations[0].wrench.stamp - history[0].stamp < window then outcome == Verdict(None)
                   else outcome == Verdict(Some(limit >= 0.0 && SumOfSquares(Kept()) <= limit * limit * (|Kept()| as real)))
    {
      if |observations| != 1 {
        return WrongCount;
      }
      if observations[0].Other? {
        return WrongType;
      }
      var w := observations[0].wrench;
      if firstStamp == None {
        firstStamp := Some(w.stamp);
      }
      Record(w);
      NewestRetained(history, window);
      if w.stamp - firstStamp.value < window {
        return Verdict(None);
      }
      var within := Judge();
      outcome := Verdict(Some(within));
    }
  }
}
