/** What a StoreRenderer shows after a whole stream of progress events:
    the item counter, LastPath and the bars, stated against definitions that
    do not mention the renderer's state. */
module RenderRuns {
  import opened GoInts
  import opened Renderers

  /** The fields after Render has been called on each event in turn, every
      delegated DefaultRenderer.Render succeeding. */
  function Run(s: State, ps: seq<Progress>): State
    decreases |ps|
  {
    if ps == [] then s else Run(RenderStep(s, ps[0], None).state, ps[1..])
  }

  /** The events that carry no error, in stream order. */
  function Clean(ps: seq<Progress>): seq<Progress>
  {
    if ps == [] then []
    else if ps[0].error.None? then [ps[0]] + Clean(ps[1..])
    else Clean(ps[1..])
  }

  /** The path of each event. */
  function Paths(ps: seq<Progress>): seq<string>
  {
    seq(|ps|, i requires 0 <= i < |ps| => ps[i].path)
  }

  /** The number of positions i >= 1 with ps[i] != ps[i-1] and
      ps[i-1] != "": the item changes the counter is meant to see. */
  function Changes(ps: seq<string>): (n: nat)
    ensures n <= if ps == [] then 0 else |ps| - 1
  {
    if |ps| < 2 then 0
    else (if ps[1] != ps[0] && ps[0] != "" then 1 else 0) + Changes(ps[1..])
  }

  /** The last element of `[first] + ps`. */
  function LastOr(first: string, ps: seq<string>): string
  {
    if ps == [] then first else ps[|ps| - 1]
  }

  /** Starting from any fields, the counter rises by the number of item
      changes along the clean events' paths, the old LastPath standing in
      front of them; LastPath ends as the last clean event's path. Events
      with an error change nothing. */
  lemma {:induction false} RunCountsItems(s: State, ps: seq<Progress>)
    requires s.items + |ps| <= MaxInt64
    decreases |ps|
    ensures Run(s, ps).items == s.items + Changes([s.lastPath] + Paths(Clean(ps)))
    ensures Run(s, ps).lastPath == LastOr(s.lastPath, Paths(Clean(ps)))
  {
    if ps != [] {
      var p := ps[0];
      StepCounts(s, p);
      RunCountsItems(RenderStep(s, p, None).state, ps[1..]);
      CleanPathsCons(ps);
      if p.error.None? {
        ChangesCons(s.lastPath, p.path, Paths(Clean(ps[1..])));
      }
    }
  }

  /** The clean paths of a stream are those of its first event, if clean,
      followed by those of the rest. */
  lemma CleanPathsCons(ps: seq<Progress>)
    requires ps != []
    ensures Paths(Clean(ps)) ==
      (if ps[0].error.None? then [ps[0].path] else []) + Paths(Clean(ps[1..]))
  {
    if ps[0].error.None? {
      assert Clean(ps) == [ps[0]] + Clean(ps[1..]);
    }
  }

  /** Prepending a path adds one change exactly when it differs from the
      next one and is not empty. */
  lemma ChangesCons(last: string, path: string, tail: seq<string>)
    ensures Changes([last] + ([path] + tail)) ==
      (if path != last && last != "" then 1 else 0) + Changes([path] + tail)
  {
    assert ([last] + ([path] + tail))[1..] == [path] + tail;
  }

  /** One Render with a succeeding delegate, seen through the counter and
      LastPath only. */
  lemma StepCounts(s: State, p: Progress)
    requires s.items < MaxInt64
    ensures var s' := RenderStep(s, p, None).state;
      if p.error.Some? then s' == s
      else
        && s'.lastPath == p.path
        && s'.items == s.items + (if p.path != s.lastPath && s.lastPath != "" then 1 else 0)
  {
  }

  /** A leading empty path never counts as an item change. */
  lemma {:induction false} ChangesFromEmpty(ps: seq<string>)
    ensures Changes([""] + ps) == Changes(ps)
  {
    if ps != [] {
      assert ([""] + ps)[1..] == ps;
    }
  }

  /** From a freshly initialised counter (Items == 1, LastPath == ""), the
      counter ends at one plus the item changes among the clean events'
      paths; in particular the first event never increments it. */
  lemma {:induction false} ItemsAfterFreshStart(s: State, ps: seq<Progress>)
    requires s.items == 1 && s.lastPath == ""
    requires |ps| < MaxInt64
    ensures Run(s, ps).items == 1 + Changes(Paths(Clean(ps)))
  {
    RunCountsItems(s, ps);
    ChangesFromEmpty(Paths(Clean(ps)));
  }

  /** The counter never decreases over a stream short enough not to wrap
      the int64 counter. */
  lemma {:induction false} ItemsNeverDecrease(s: State, ps: seq<Progress>)
    requires s.items + |ps| <= MaxInt64
    ensures s.items <= Run(s, ps).items <= s.items + |ps|
  {
    RunCountsItems(s, ps);
    CleanNoLonger(ps);
  }

  /** The bars' totals and currents after a stream are those of the last
      clean event, not sums over the stream; with no clean event nothing
      changes at all. */
  lemma {:induction false} RunBarsFromLastEvent(s: State, ps: seq<Progress>)
    decreases |ps|
    ensures Clean(ps) == [] ==> Run(s, ps) == s
    ensures Clean(ps) != [] ==>
      var e := Clean(ps)[|Clean(ps)| - 1];
      && Run(s, ps).fileBar.total == ToInt64(e.currentItemStats.size)
      && Run(s, ps).fileBar.current == ToInt64(e.currentItemStats.transferred)
      && Run(s, ps).overallBar.total == ToInt64(e.totalStatistics.size)
      && Run(s, ps).overallBar.current == ToInt64(e.totalStatistics.transferred)
  {
    if ps != [] {
      var p, rest := ps[0], ps[1..];
      RunBarsFromLastEvent(RenderStep(s, p, None).state, rest);
      if p.error.None? {
        assert Clean(ps) == [p] + Clean(rest);
      } else {
        assert Clean(ps) == Clean(rest);
      }
    }
  }

  /** The layout Init sets up survives any stream of events. */
  lemma {:induction false} RunKeepsDisplay(s: State, ps: seq<Progress>)
    requires Displayed(s)
    decreases |ps|
    ensures Displayed(Run(s, ps))
    ensures Run(s, ps).disposeMessage == s.disposeMessage
  {
    if ps != [] {
      RunKeepsDisplay(RenderStep(s, ps[0], None).state, ps[1..]);
    }
  }

  /** Dropping the events with an error never lengthens a stream. */
  lemma {:induction false} CleanNoLonger(ps: seq<Progress>)
    decreases |ps|
    ensures |Clean(ps)| <= |ps|
  {
    if ps != [] {
      CleanNoLonger(ps[1..]);
    }
  }

  /** A stream without errors is kept whole. */
  lemma {:induction false} CleanKeepsCleanStream(ps: seq<Progress>)
    requires forall i :: 0 <= i < |ps| ==> ps[i].error.None?
    decreases |ps|
    ensures Clean(ps) == ps
  {
    if ps != [] {
      CleanKeepsCleanStream(ps[1..]);
      assert [ps[0]] + ps[1..] == ps;
    }
  }

  /** Paths a, a, a, b, b, c, whatever the byte counts, end with the counter
      at 3: it moves at a -> b and at b -> c only. */
  lemma ThreeItems(s: State, ps: seq<Progress>)
    requires s.items == 1 && s.lastPath == ""
    requires forall i :: 0 <= i < |ps| ==> ps[i].error.None?
    requires Paths(ps) == ["a", "a", "a", "b", "b", "c"]
    ensures Run(s, ps).items == 3
  {
    ItemsAfterFreshStart(s, ps);
    CleanKeepsCleanStream(ps);
    ExampleChanges();
  }

  /** The example paths hold two item changes. */
  lemma ExampleChanges()
    ensures Changes(["a", "a", "a", "b", "b", "c"]) == 2
  {
    var ps: seq<string> := ["a", "a", "a", "b", "b", "c"];
    assert ps[1..] == ["a", "a", "b", "b", "c"];
    assert ps[2..] == ["a", "b", "b", "c"];
    assert ps[3..] == ["b", "b", "c"];
    assert ps[4..] == ["b", "c"];
    assert ps[5..] == ["c"];
  }
}
