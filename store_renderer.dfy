/** knoxite's StoreRenderer: the terminal progress display of a store
    operation. It keeps a counter of the items seen so far, the path of the
    last item, a bar for the item being stored and a bar for the whole
    operation, and redraws both after every progress event.

    The delegated DefaultRenderer calls are external: each method takes the
    error that call returned as a parameter. Formatted strings are symbolic
    `Text` values that record what was formatted. What the renderer writes to
    standard output is recorded as a sequence of `Output` tokens. */
module Renderers {
  import opened GoInts

  datatype Option<T> = None | Some(value: T)

  /** A Go error value; the renderer never looks inside it. */
  datatype Error = Error(message: string)

  /** The counters of knoxite.Stats that the renderer reads. */
  datatype Stats = Stats(files: uint64, dirs: uint64, symLinks: uint64, size: uint64, transferred: uint64)

  /** knoxite.Progress: one event of the store operation. `transferSpeed` is
      the value of `p.TransferSpeed()`, computed by the producer of the event. */
  datatype Progress = Progress(
    path: string,
    currentItemStats: Stats,
    totalStatistics: Stats,
    transferSpeed: uint64,
    error: Option<Error>)

  /** A string as the renderer produces it, kept symbolic: each formatted
      string records the values that went into it, not their rendering. */
  datatype Text =
    | Plain(s: string)
      /** `fmt.Sprintf("%d of %d total", done, total)` */
    | CountOfTotal(done: int, total: int)
      /** `SizeToString(size) + "  " + SizeToString(speed) + "/s"` */
    | SizeAndSpeed(size: uint64, speed: uint64)
      /** `"transferred / size (items of entries)"`, sizes as SizeToString,
          counts as humanize.Comma */
    | TotalSummary(transferred: uint64, size: uint64, items: int64, entries: int64)

  /** The bar's PrependTextFunc: unset, or the overall-rate closure that
      Init installs (its float arithmetic is not modelled). */
  datatype PrependFunc = NoPrependFunc | OverallRate

  /** goprogressbar.ProgressBar, the fields the renderer sets. */
  datatype ProgressBar = ProgressBar(
    total: int64,
    current: int64,
    text: Text,
    prependText: Text,
    width: int,
    prependFunc: PrependFunc)

  /** The zero value of goprogressbar.ProgressBar. */
  const ZeroBar: ProgressBar := ProgressBar(0, 0, Plain(""), Plain(""), 0, NoPrependFunc)

  const FileBarWidth := 40
  const OverallBarWidth := 60

  /** The bars registered with the MultiProgressBar, in registration order. */
  datatype BarSlot = FileBar | OverallBar

  /** What the renderer writes to standard output: `fmt.Println()`, a line
      of text, or a repaint of the bars by `LazyPrint`. */
  datatype Output = Newline | Line(s: string) | Repaint

  /** The fields of a StoreRenderer. */
  datatype State = State(
    fileBar: ProgressBar,
    overallBar: ProgressBar,
    multiBar: seq<BarSlot>,
    lastPath: string,
    items: int64,
    disposeMessage: string)

  /** What one call returns, the fields afterwards, and what it printed. */
  datatype Outcome = Outcome(err: Option<Error>, state: State, emitted: seq<Output>)

  /** The display layout Init sets up and Render keeps. */
  predicate Displayed(s: State)
  {
    && s.multiBar == [FileBar, OverallBar]
    && s.fileBar.width == FileBarWidth
    && s.fileBar.prependFunc == NoPrependFunc
    && s.overallBar.width == OverallBarWidth
    && s.overallBar.prependFunc == OverallRate
  }

  /** `int64(p.TotalStatistics.Files + p.TotalStatistics.Dirs + p.TotalStatistics.SymLinks)` */
  function Entries(st: Stats): (r: int64)
    ensures st.files + st.dirs + st.symLinks < TWO_63 ==> r == st.files + st.dirs + st.symLinks
  {
    ToInt64(AddU64(AddU64(st.files, st.dirs), st.symLinks))
  }

  /** Init: when the delegated Init fails, its error and nothing else;
      otherwise the two bars are rebuilt, registered and the counter starts
      at one, while LastPath and DisposeMessage are left as they were. */
  function InitStep(s: State, delegated: Option<Error>): (r: Outcome)
    ensures delegated.Some? ==> r == Outcome(delegated, s, [])
    ensures delegated.None? ==>
      && r.err == None
      && r.emitted == []
      && Displayed(r.state)
      && r.state.items == 1
      && r.state.fileBar == ZeroBar.(width := FileBarWidth)
      && r.state.overallBar.total == 0
      && r.state.overallBar.current == 0
      && r.state.overallBar.text == CountOfTotal(0, 0)
      && r.state.overallBar.prependText == Plain("")
      && r.state.lastPath == s.lastPath
      && r.state.disposeMessage == s.disposeMessage
  {
    if delegated.Some? then Outcome(delegated, s, [])
    else
      var fileBar := ZeroBar.(width := FileBarWidth);
      var overallBar := ZeroBar.(text := CountOfTotal(0, 0), width := OverallBarWidth, prependFunc := OverallRate);
      Outcome(None, s.(fileBar := fileBar, overallBar := overallBar, multiBar := [FileBar, OverallBar], items := 1), [])
  }

  /** True when Render gets past both error checks. */
  predicate Accepted(p: Progress, delegated: Option<Error>)
  {
    delegated.None? && p.error.None?
  }

  /** Render, as a transition on the fields, in the order the source takes
      its four steps: item-boundary test against the old LastPath, item bar,
      overall bar, then label and LastPath. */
  function RenderStep(s: State, p: Progress, delegated: Option<Error>): (r: Outcome)
    // the delegated Render failed: its error, nothing printed, nothing changed
    ensures delegated.Some? ==> r == Outcome(delegated, s, [])
    // the event carries an error: a newline, the event's error, nothing changed
    ensures delegated.None? && p.error.Some? ==> r == Outcome(p.error, s, [Newline])
    ensures Accepted(p, delegated) ==> r.err == None
    // the counter moves exactly on a change of path away from a non-empty one
    ensures Accepted(p, delegated) ==>
      (r.state.items != s.items <==> p.path != s.lastPath && s.lastPath != "")
    ensures r.state.items != s.items ==> r.state.items == Inc64(s.items)
    ensures s.items < MaxInt64 ==> r.state.items >= s.items
    // a newline exactly when the counter moved, then a repaint
    ensures Accepted(p, delegated) ==>
      r.emitted == (if r.state.items != s.items then [Newline] else []) + [Repaint]
    // totals and currents are taken from this event alone
    ensures Accepted(p, delegated) ==>
      && r.state.fileBar.total == ToInt64(p.currentItemStats.size)
      && r.state.fileBar.current == ToInt64(p.currentItemStats.transferred)
      && r.state.overallBar.total == ToInt64(p.totalStatistics.size)
      && r.state.overallBar.current == ToInt64(p.totalStatistics.transferred)
    // the texts report the event's byte counts unchanged and the updated counter
    ensures Accepted(p, delegated) ==>
      && r.state.fileBar.prependText == SizeAndSpeed(p.currentItemStats.transferred, p.transferSpeed)
      && r.state.overallBar.text ==
         TotalSummary(p.totalStatistics.transferred, p.totalStatistics.size, r.state.items, Entries(p.totalStatistics))
    // label and LastPath follow the event's path
    ensures Accepted(p, delegated) ==>
      && r.state.lastPath == p.path
      && r.state.fileBar.text == (if p.path != s.lastPath then Plain(p.path) else s.fileBar.text)
    // the layout and the dispose message are never touched
    ensures && r.state.multiBar == s.multiBar
            && r.state.disposeMessage == s.disposeMessage
            && r.state.fileBar.width == s.fileBar.width
            && r.state.fileBar.prependFunc == s.fileBar.prependFunc
            && r.state.overallBar.width == s.overallBar.width
            && r.state.overallBar.prependFunc == s.overallBar.prependFunc
            && r.state.overallBar.prependText == s.overallBar.prependText
    ensures Displayed(s) ==> Displayed(r.state)
  {
    if delegated.Some? then Outcome(delegated, s, [])
    else if p.error.Some? then Outcome(p.error, s, [Newline])
    else
      var boundary := p.path != s.lastPath && s.lastPath != "";
      var items := if boundary then Inc64(s.items) else s.items;
      var fileCurrent := ToInt64(p.currentItemStats.transferred);
      var fileBar := s.fileBar.(
        total := ToInt64(p.currentItemStats.size),
        current := fileCurrent,
        prependText := SizeAndSpeed(ToUint64(fileCurrent), p.transferSpeed));
      var overallTotal := ToInt64(p.totalStatistics.size);
      var overallCurrent := ToInt64(p.totalStatistics.transferred);
      var overallBar := s.overallBar.(
        total := overallTotal,
        current := overallCurrent,
        text := TotalSummary(ToUint64(overallCurrent), ToUint64(overallTotal), items, Entries(p.totalStatistics)));
      var changed := p.path != s.lastPath;
      var state := s.(
        items := items,
        fileBar := if changed then fileBar.(text := Plain(p.path)) else fileBar,
        overallBar := overallBar,
        lastPath := if changed then p.path else s.lastPath);
      Outcome(None, state, (if boundary then [Newline] else []) + [Repaint])
  }

  /** Close: the delegated Close's error with nothing printed, or the
      dispose message printed once; the fields never change. */
  function CloseStep(s: State, delegated: Option<Error>): (r: Outcome)
    ensures r.state == s
    ensures r.err == delegated
    ensures delegated.Some? ==> r.emitted == []
    ensures delegated.None? ==> r.emitted == [Line(s.disposeMessage)]
  {
    Outcome(delegated, s, if delegated.Some? then [] else [Line(s.disposeMessage)])
  }

  class StoreRenderer {
    var fileProgressBar: ProgressBar
    var overallProgressBar: ProgressBar
    var multiProgressBar: seq<BarSlot>
    var lastPath: string
    var items: int64
    var disposeMessage: string
    /** Everything written to standard output so far. */
    var stdout: seq<Output>

    /** The renderer's fields as a value. */
    function Snapshot(): State
      reads this
    {
      State(fileProgressBar, overallProgressBar, multiProgressBar, lastPath, items, disposeMessage)
    }

    /** `&StoreRenderer{DisposeMessage: disposeMessage}`: every other field
        holds Go's zero value. */
    constructor (disposeMessage: string)
      ensures Snapshot() == State(ZeroBar, ZeroBar, [], "", 0, disposeMessage)
      ensures stdout == []
    {
      fileProgressBar := ZeroBar;
      overallProgressBar := ZeroBar;
      multiProgressBar := [];
      lastPath := "";
      items := 0;
      this.disposeMessage := disposeMessage;
      stdout := [];
    }

    /** `delegated` is what DefaultRenderer.Init returned. */
    method Init(delegated: Option<Error>) returns (err: Option<Error>)
      modifies this
      ensures var o := InitStep(old(Snapshot()), delegated);
        err == o.err && Snapshot() == o.state && stdout == old(stdout) + o.emitted
    {
      if delegated.Some? {
        return delegated;
      }
      fileProgressBar := ZeroBar.(width := FileBarWidth);
      overallProgressBar := ZeroBar.(text := CountOfTotal(0, 0), width := OverallBarWidth, prependFunc := OverallRate);
      multiProgressBar := [];
      multiProgressBar := multiProgressBar + [FileBar];
      multiProgressBar := multiProgressBar + [OverallBar];
      items := 1;
      err := None;
    }

    /** `delegated` is what DefaultRenderer.Render returned for `p`. */
    method Render(p: Progress, delegated: Option<Error>) returns (err: Option<Error>)
      modifies this
      ensures var o := RenderStep(old(Snapshot()), p, delegated);
        err == o.err && Snapshot() == o.state && stdout == old(stdout) + o.emitted
    {
      if delegated.Some? {
        return delegated;
      }
      if p.error.Some? {
        stdout := stdout + [Newline];
        return p.error;
      }

      if p.path != lastPath && lastPath != "" {
        items := Inc64(items);
        stdout := stdout + [Newline];
      }

      fileProgressBar := fileProgressBar.(total := ToInt64(p.currentItemStats.size));
      fileProgressBar := fileProgressBar.(current := ToInt64(p.currentItemStats.transferred));
      fileProgressBar := fileProgressBar.(prependText := SizeAndSpeed(ToUint64(fileProgressBar.current), p.transferSpeed));

      overallProgressBar := overallProgressBar.(total := ToInt64(p.totalStatistics.size));
      overallProgressBar := overallProgressBar.(current := ToInt64(p.totalStatistics.transferred));
      overallProgressBar := overallProgressBar.(text := TotalSummary(
        ToUint64(overallProgressBar.current), ToUint64(overallProgressBar.total), items, Entries(p.totalStatistics)));

      if p.path != lastPath {
        lastPath := p.path;
        fileProgressBar := fileProgressBar.(text := Plain(p.path));
      }

      stdout := stdout + [Repaint];
      err := None;
    }

    /** `delegated` is what DefaultRenderer.Close returned. */
    method Close(delegated: Option<Error>) returns (err: Option<Error>)
      modifies this`stdout
      ensures var o := CloseStep(old(Snapshot()), delegated);
        err == o.err && Snapshot() == o.state && stdout == old(stdout) + o.emitted
    {
      if delegated.Some? {
        return delegated;
      }
      stdout := stdout + [Line(disposeMessage)];
      err := None;
    }
  }

  /** A store of two files, f1 (100 bytes, reported twice) then f2 (200
      bytes), closed with the message "done". */
  method StoreTwoFiles()
  {
    var r := new StoreRenderer("done");
    var err := r.Init(None);
    assert err == None && r.items == 1;

    var f1Half := Progress("f1", Stats(0, 0, 0, 100, 50), Stats(1, 0, 0, 300, 50), 0, None);
    var f1Full := Progress("f1", Stats(0, 0, 0, 100, 100), Stats(1, 0, 0, 300, 100), 0, None);
    var f2Start := Progress("f2", Stats(0, 0, 0, 200, 0), Stats(2, 0, 0, 300, 100), 0, None);

    err := r.Render(f1Half, None);
    assert r.items == 1 && r.lastPath == "f1";
    err := r.Render(f1Full, None);
    assert r.items == 1;
    err := r.Render(f2Start, None);
    assert err == None && r.items == 2;
    assert r.fileProgressBar.text == Plain("f2");
    assert r.fileProgressBar.current == 0 && r.fileProgressBar.total == 200;
    assert r.overallProgressBar.current == 100 && r.overallProgressBar.total == 300;

    var failed := Progress("f3", Stats(0, 0, 0, 7, 7), Stats(3, 0, 0, 307, 107), 0, Some(Error("unreadable")));
    err := r.Render(failed, None);
    assert err == Some(Error("unreadable")) && r.items == 2 && r.lastPath == "f2";
    assert r.overallProgressBar.current == 100;

    err := r.Close(None);
    assert err == None && r.stdout[|r.stdout| - 1] == Line("done");
  }
}
