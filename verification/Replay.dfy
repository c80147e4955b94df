/** src/replay/replay.ts: one frame for each distinct observation time, built from the
    observations up to that time and no later ones. */
module Replay {
  import opened StableSort

  datatype Frame<S> = Frame(at: int, state: S)

  predicate NotLater<T>(at: T -> int, a: T, b: T) { at(a) <= at(b) }

  function ByTime<T>(at: T -> int): (T, T) -> bool { (a, b) => NotLater(at, a, b) }

  function UpTo<T>(at: T -> int, t: int): T -> bool { o => at(o) <= t }

  function TimeUpTo(cutoff: int): int -> bool { t => t <= cutoff }

  function FrameUpTo<S>(cutoff: int): Frame<S> -> bool { (f: Frame<S>) => f.at <= cutoff }

  function Chronological<T>(obs: seq<T>, at: T -> int): seq<T> { Sort(obs, ByTime(at)) }

  /** The times of a chronological sequence, each once. */
  function Times<T>(sorted: seq<T>, at: T -> int): seq<int> {
    if sorted == [] then []
    else
      var n := |sorted| - 1;
      Times(sorted[..n], at) + if n > 0 && at(sorted[n]) == at(sorted[n - 1]) then [] else [at(sorted[n])]
  }

  function FrameAt<T, S>(sorted: seq<T>, at: T -> int, stepper: (seq<T>, int) -> S, t: int): Frame<S> {
    Frame(t, stepper(Filter(sorted, UpTo(at, t)), t))
  }

  function FramesAt<T, S>(times: seq<int>, sorted: seq<T>, at: T -> int, stepper: (seq<T>, int) -> S)
      : (r: seq<Frame<S>>)
    ensures |r| == |times| && forall i :: 0 <= i < |times| ==> r[i] == FrameAt(sorted, at, stepper, times[i])
  {
    seq(|times|, i requires 0 <= i < |times| => FrameAt(sorted, at, stepper, times[i]))
  }

  function Frames<T, S>(obs: seq<T>, at: T -> int, stepper: (seq<T>, int) -> S): seq<Frame<S>> {
    var sorted := Chronological(obs, at);
    FramesAt(Times(sorted, at), sorted, at, stepper)
  }

  method Replay<T, S>(obs: seq<T>, at: T -> int, stepper: (seq<T>, int) -> S) returns (frames: seq<Frame<S>>)
    ensures frames == Frames(obs, at, stepper)
  {
    var sorted := Sort(obs, ByTime(at));
    var frameTimes: seq<int> := [];
    for n := 0 to |sorted|
      invariant frameTimes == Times(sorted[..n], at)
      invariant n > 0 ==> frameTimes != [] && frameTimes[|frameTimes| - 1] == at(sorted[n - 1])
      invariant n == 0 ==> frameTimes == []
    {
      assert sorted[..n + 1][..n] == sorted[..n];
      if frameTimes == [] || at(sorted[n]) != frameTimes[|frameTimes| - 1] {
        frameTimes := frameTimes + [at(sorted[n])];
      }
    }
    assert sorted[..|sorted|] == sorted;
    frames := [];
    for k := 0 to |frameTimes|
      invariant frames == FramesAt(frameTimes, sorted, at, stepper)[..k]
    {
      var t := frameTimes[k];
      var visible := Filter(sorted, UpTo(at, t));
      frames := frames + [Frame(t, stepper(visible, t))];
    }
  }

  // ------------------------------------------------------------------
  // Frame times
  // ------------------------------------------------------------------

  lemma ByTimeTotal<T(!new)>(at: T -> int)
    ensures TotalPreorder(ByTime(at))
  {
  }

  ghost predicate Observed<T>(obs: seq<T>, at: T -> int, t: int) { exists k :: 0 <= k < |obs| && at(obs[k]) == t }

  ghost predicate HasFrame<S>(frames: seq<Frame<S>>, t: int) { exists k :: 0 <= k < |frames| && frames[k].at == t }

  predicate Increasing(times: seq<int>) { forall i, j :: 0 <= i < j < |times| ==> times[i] < times[j] }

  lemma {:induction false} TimesIncrease<T(!new)>(sorted: seq<T>, at: T -> int)
    requires Sorted(sorted, ByTime(at))
    ensures Increasing(Times(sorted, at))
    ensures forall t :: t in Times(sorted, at) <==> Observed(sorted, at, t)
    ensures sorted != [] ==>
      Times(sorted, at) != [] && Times(sorted, at)[|Times(sorted, at)| - 1] == at(sorted[|sorted| - 1])
    decreases |sorted|
  {
    if sorted != [] {
      var n := |sorted| - 1;
      var before := sorted[..n];
      TimesIncrease(before, at);
      assert sorted == before + [sorted[n]];
      if n > 0 {
        assert ByTime(at)(sorted[n - 1], sorted[n]);
        assert before[n - 1] == sorted[n - 1];
      }
      forall t ensures Observed(sorted, at, t) <==> Observed(before, at, t) || t == at(sorted[n]) {
        if Observed(before, at, t) {
          var k :| 0 <= k < |before| && at(before[k]) == t;
          assert at(sorted[k]) == t;
        }
        if Observed(sorted, at, t) && t != at(sorted[n]) {
          var k :| 0 <= k < |sorted| && at(sorted[k]) == t;
          assert at(before[k]) == t;
        }
      }
    }
  }

  /** Frame times strictly increase, with exactly one frame for each distinct observation time. */
  lemma OneFrameForEachTime<T(!new), S>(obs: seq<T>, at: T -> int, stepper: (seq<T>, int) -> S)
    ensures forall i, j :: 0 <= i < j < |Frames(obs, at, stepper)| ==>
      Frames(obs, at, stepper)[i].at < Frames(obs, at, stepper)[j].at
    ensures forall t :: HasFrame(Frames(obs, at, stepper), t) <==> Observed(obs, at, t)
  {
    var sorted := Chronological(obs, at);
    var frames, times := Frames(obs, at, stepper), Times(sorted, at);
    ByTimeTotal(at);
    SortSorted(obs, ByTime(at));
    SortMembers(obs, ByTime(at));
    TimesIncrease(sorted, at);
    forall t ensures HasFrame(frames, t) <==> t in times {
      if t in times {
        var i :| 0 <= i < |times| && times[i] == t;
        assert frames[i].at == t;
      }
    }
    forall t ensures Observed(sorted, at, t) <==> Observed(obs, at, t) {
      SameObserved(sorted, obs, at, t);
      SameObserved(obs, sorted, at, t);
    }
  }

  lemma SameObserved<T>(a: seq<T>, b: seq<T>, at: T -> int, t: int)
    requires forall k :: 0 <= k < |a| ==> a[k] in b
    ensures Observed(a, at, t) ==> Observed(b, at, t)
  {
    if Observed(a, at, t) {
      var k :| 0 <= k < |a| && at(a[k]) == t;
      var j :| 0 <= j < |b| && b[j] == a[k];
    }
  }

  /** A frame is built from exactly the observations at or before it. */
  lemma FrameSeesItsPast<T(!new), S>(obs: seq<T>, at: T -> int, stepper: (seq<T>, int) -> S, i: nat)
    requires i < |Frames(obs, at, stepper)|
    ensures var frame := Frames(obs, at, stepper)[i];
      exists visible :: frame.state == stepper(visible, frame.at)
        && (forall o :: o in visible <==> o in obs && at(o) <= frame.at)
        && multiset(visible) <= multiset(obs)
  {
    var sorted := Chronological(obs, at);
    var frame := Frames(obs, at, stepper)[i];
    var visible := Filter(sorted, UpTo(at, frame.at));
    SortMembers(obs, ByTime(at));
    FilterFewer(sorted, UpTo(at, frame.at));
    assert frame.state == stepper(visible, frame.at);
  }

  lemma {:induction false} FilterFewer<T>(s: seq<T>, p: T -> bool)
    ensures multiset(Filter(s, p)) <= multiset(s)
  {
    if s != [] {
      FilterFewer(s[1..], p);
      assert s == [s[0]] + s[1..];
    }
  }

  // ------------------------------------------------------------------
  // No lookahead
  // ------------------------------------------------------------------

  lemma {:induction false} FilterTwice<T>(s: seq<T>, p: T -> bool, q: T -> bool)
    requires forall x | x in s :: q(x) ==> p(x)
    ensures Filter(Filter(s, p), q) == Filter(s, q)
  {
    if s != [] {
      FilterTwice(s[1..], p, q);
      assert s[0] in s;
    }
  }

  lemma {:induction false} FilterEverything<T>(s: seq<T>, p: T -> bool)
    requires forall x | x in s :: p(x)
    ensures Filter(s, p) == s
  {
    if s != [] {
      FilterEverything(s[1..], p);
      assert s == [s[0]] + s[1..];
    }
  }

  /** When the last observation is no later than the cutoff, none is cut off. */
  lemma NothingCut<T(!new)>(sorted: seq<T>, at: T -> int, cutoff: int)
    requires Sorted(sorted, ByTime(at)) && sorted != [] && at(sorted[|sorted| - 1]) <= cutoff
    ensures Filter(sorted, UpTo(at, cutoff)) == sorted
    ensures Filter(Times(sorted, at), TimeUpTo(cutoff)) == Times(sorted, at)
  {
    var n, p, q := |sorted| - 1, UpTo(at, cutoff), TimeUpTo(cutoff);
    forall k | 0 <= k <= n ensures p(sorted[k]) {
      assert k < n ==> ByTime(at)(sorted[k], sorted[n]);
    }
    forall x | x in sorted ensures p(x) {
      var k :| 0 <= k <= n && sorted[k] == x;
    }
    FilterEverything(sorted, p);
    TimesIncrease(sorted, at);
    forall t | t in Times(sorted, at) ensures q(t) {
      assert Observed(sorted, at, t);
      var k :| 0 <= k < |sorted| && at(sorted[k]) == t;
    }
    FilterEverything(Times(sorted, at), q);
  }

  lemma FilterDropLast<T>(s: seq<T>, p: T -> bool)
    requires s != [] && !p(s[|s| - 1])
    ensures Filter(s, p) == Filter(s[..|s| - 1], p)
  {
    var before, last := s[..|s| - 1], [s[|s| - 1]];
    FilterAppend(before, last, p);
    assert before + last == s;
    assert Filter(before, p) + [] == Filter(before, p);
  }

  lemma LastCut<T(!new)>(sorted: seq<T>, at: T -> int, cutoff: int)
    requires sorted != [] && at(sorted[|sorted| - 1]) > cutoff
    ensures Filter(sorted, UpTo(at, cutoff)) == Filter(sorted[..|sorted| - 1], UpTo(at, cutoff))
    ensures Filter(Times(sorted, at), TimeUpTo(cutoff)) == Filter(Times(sorted[..|sorted| - 1], at), TimeUpTo(cutoff))
  {
    var n := |sorted| - 1;
    var times, before := Times(sorted, at), Times(sorted[..n], at);
    FilterDropLast(sorted, UpTo(at, cutoff));
    if times != before {
      assert times == before + [at(sorted[n])];
      FilterDropLast(times, TimeUpTo(cutoff));
      assert times[..|times| - 1] == before;
    } else {
      assert before + [] == before;
    }
  }

  lemma {:induction false} TimesUpTo<T(!new)>(sorted: seq<T>, at: T -> int, cutoff: int)
    requires Sorted(sorted, ByTime(at))
    ensures Times(Filter(sorted, UpTo(at, cutoff)), at) == Filter(Times(sorted, at), TimeUpTo(cutoff))
    decreases |sorted|
  {
    if sorted != [] {
      var n := |sorted| - 1;
      if at(sorted[n]) <= cutoff {
        NothingCut(sorted, at, cutoff);
      } else {
        TimesUpTo(sorted[..n], at, cutoff);
        LastCut(sorted, at, cutoff);
      }
    }
  }

  lemma {:induction false} FramesUpTo<T(!new)
      , S>(times: seq<int>, sorted: seq<T>, at: T -> int, stepper: (seq<T>, int) -> S, cutoff: int)
    ensures Filter(FramesAt(times, sorted, at, stepper), FrameUpTo(cutoff))
      == FramesAt(Filter(times, TimeUpTo(cutoff)), Filter(sorted, UpTo(at, cutoff)), at, stepper)
    decreases |times|
  {
    var p, q := FrameUpTo<S>(cutoff), TimeUpTo(cutoff);
    var past := Filter(sorted, UpTo(at, cutoff));
    var frames := FramesAt(times, sorted, at, stepper);
    if times != [] {
      FramesUpTo(times[1..], sorted, at, stepper, cutoff);
      assert frames[1..] == FramesAt(times[1..], sorted, at, stepper);
      if times[0] <= cutoff {
        FilterTwice(sorted, UpTo(at, cutoff), UpTo(at, times[0]));
        assert FrameAt(past, at, stepper, times[0]) == frames[0];
        assert Filter(frames, p) == [frames[0]] + Filter(frames[1..], p);
        assert Filter(times, q) == [times[0]] + Filter(times[1..], q);
      }
    }
  }

  /** For every cutoff and every stepper, the frames up to the cutoff are the replay of
      the observations up to the cutoff: nothing later can change them. */
  lemma NoLookahead<T(!new), S>(obs: seq<T>, at: T -> int, stepper: (seq<T>, int) -> S, cutoff: int)
    ensures Filter(Frames(obs, at, stepper), FrameUpTo(cutoff))
      == Frames(Filter(obs, UpTo(at, cutoff)), at, stepper)
  {
    var sorted := Chronological(obs, at);
    ByTimeTotal(at);
    SortSorted(obs, ByTime(at));
    FilterSort(obs, UpTo(at, cutoff), ByTime(at));
    TimesUpTo(sorted, at, cutoff);
    FramesUpTo(Times(sorted, at), sorted, at, stepper, cutoff);
  }
}
