# knoxite StoreRenderer, modelled in Dafny

knoxite's `StoreRenderer` draws the terminal progress display of a store
operation: a bar for the item being stored (width 40), a bar for the whole
operation (width 60), a counter of the items seen so far and the path of the
last item. `Init` builds the bars and starts the counter at one, `Render`
consumes one `knoxite.Progress` event and `Close` prints the dispose message.

The model has three modules:

- `GoInts` (`go_ints.dfy`): Go's `int64`/`uint64`, the conversions between
  them, `Items++` on an `int64` and `uint64` addition, each with its
  wrap-around written out.
- `Renderers` (`store_renderer.dfy`): the event and bar records, the
  `StoreRenderer` class whose `Init`, `Render` and `Close` change its fields
  step by step as the Go methods do, and the step functions `InitStep`,
  `RenderStep` and `CloseStep` that each method is proved to implement (error
  returned, new fields, output written). `StoreTwoFiles` is a client that
  drives one renderer through a short store and checks the result.
- `RenderRuns` (`render_runs.dfy`): `Run`, the fields after a whole stream of
  events, and lemmas about it: the item count, LastPath, the bars after the
  last event, and the layout kept throughout.

External collaborators are parameters or symbols:

- What `DefaultRenderer.Init`, `.Render` and `.Close` return is the
  `delegated` parameter of the corresponding method.
- The formatted strings (`PrependText`, the overall `Text`) are `Text` values
  that record the numbers they were formatted from.
- Standard output is the `stdout` field, a sequence of `Newline`,
  `Line(message)` and `Repaint` (one `LazyPrint`) tokens.

Behaviour of the code worth knowing:

- `Init` does not reset `LastPath` (store_renderer.go:29-52). A renderer
  that is initialised again keeps its old path, so its first event can count
  as an item change.
- `Render` and `Close` do not check that `Init` ran. On a fresh renderer they
  work on zero-valued fields, with the counter at 0.
- The overall-rate closure divides by the elapsed seconds without a guard for
  zero. The model makes no claim about the rate.

## Model

| member | source | states |
|---|---|---|
| `GoInts.ToInt64` | cmd/knoxite/renderers/store_renderer.go:69-76 | `int64(u)` is negative exactly when u >= 2^63, equals u below that, and converting back with `uint64` gives u again |
| `GoInts.ToUint64` | cmd/knoxite/renderers/store_renderer.go:71-79 | `uint64(i)` keeps non-negative values, maps negative ones to 2^63 and above, and is congruent to i modulo 2^64 |
| `GoInts.Inc64` | cmd/knoxite/renderers/store_renderer.go:65 | `Items++` always changes the value, adds one below the int64 maximum, and is congruent to x + 1 modulo 2^64 |
| `GoInts.AddU64` | cmd/knoxite/renderers/store_renderer.go:81 | uint64 addition is the exact sum when it fits, wraps below both operands when it does not, and is congruent to the sum modulo 2^64 |
| `Renderers.Entries` | cmd/knoxite/renderers/store_renderer.go:81 | the entry count shown is Files + Dirs + SymLinks whenever that sum fits in an int64 |
| `Renderers.InitStep` | cmd/knoxite/renderers/store_renderer.go:29-52 | a failed delegated Init returns its error and changes nothing; otherwise no error, the file bar is the zero bar of width 40, the overall bar has width 60, total 0, current 0, text "0 of 0 total" and an empty prepend text (the bar is rebuilt from a literal), both bars are registered, Items is 1, and LastPath and DisposeMessage are unchanged |
| `Renderers.RenderStep` | cmd/knoxite/renderers/store_renderer.go:54-91 | a failed delegated Render returns its error and changes nothing; an event error prints a newline, is returned and changes nothing; otherwise Items changes iff the path differs from the old non-empty LastPath, and then by one, a newline is printed iff Items changed, bar totals and currents are the event's sizes and transferred counts converted to int64, the texts carry the event's unconverted byte counts and the updated Items, LastPath becomes the event's path, the file label becomes the path iff it changed, and the layout is kept |
| `Renderers.CloseStep` | cmd/knoxite/renderers/store_renderer.go:93-98 | Close returns the delegated error and prints nothing if that call failed; otherwise it prints DisposeMessage once; it never changes a field |
| `Renderers.StoreRenderer.constructor` | cmd/knoxite/renderers/store_renderer.go:19-27 | a new renderer holds the given DisposeMessage and Go zero values in every other field, and has printed nothing |
| `Renderers.StoreRenderer.Init` | cmd/knoxite/renderers/store_renderer.go:29-52 | the returned error, the new fields and the output are those of `InitStep` on the old fields |
| `Renderers.StoreRenderer.Render` | cmd/knoxite/renderers/store_renderer.go:54-91 | the returned error, the new fields and the output are those of `RenderStep` on the old fields and the event |
| `Renderers.StoreRenderer.Close` | cmd/knoxite/renderers/store_renderer.go:93-98 | the returned error and the output are those of `CloseStep`; only the output changes |
| `RenderRuns.Changes` | cmd/knoxite/renderers/store_renderer.go:64-67 | the number of item changes in a sequence of paths is at most its length minus one |
| `RenderRuns.RunCountsItems` | cmd/knoxite/renderers/store_renderer.go:64-86 | over any stream whose delegated Render succeeds and that cannot wrap the counter, Items rises by the number of changes along the old LastPath followed by the paths of the error-free events, and LastPath ends as the last error-free event's path |
| `RenderRuns.ItemsAfterFreshStart` | cmd/knoxite/renderers/store_renderer.go:50-86 | from Items 1 and an empty LastPath, Items ends at 1 plus the number of positions i >= 1 with paths[i] != paths[i-1] and paths[i-1] non-empty, so the first event never counts |
| `RenderRuns.ItemsNeverDecrease` | cmd/knoxite/renderers/store_renderer.go:64-67 | over a stream that cannot wrap the counter, Items never decreases and rises by at most one per event |
| `RenderRuns.RunBarsFromLastEvent` | cmd/knoxite/renderers/store_renderer.go:69-76 | after a stream, both bars' totals and currents are those of the last error-free event, not sums; with no error-free event nothing changes |
| `RenderRuns.RunKeepsDisplay` | cmd/knoxite/renderers/store_renderer.go:36-48 | the widths, the registered bars, the rate closure and DisposeMessage that Init sets up survive any stream of events |
| `RenderRuns.ThreeItems` | cmd/knoxite/renderers/store_renderer.go:64-67 | any error-free events with paths a, a, a, b, b, c, from a fresh counter, end with Items at 3 |

## Left out

- The overall-rate closure (store_renderer.go:40-43) divides a float by the wall-clock seconds since Init. Floating point and the clock are not modelled; the bar only records that the closure is installed (`OverallRate`).
- String formatting (`fmt.Sprintf`, `knoxite.SizeToString`, `humanize.Comma`) and `p.TransferSpeed()` are foreign library calls. Their results are the symbolic `Text` values, and the speed is a field of the event.
- The goprogressbar internals are external UI code: `MultiProgressBar.AddProgressBar` and the diffing of `LazyPrint`. Registration is the sequence of bars, and a repaint is one `Repaint` token.
- `knoxite.DefaultRenderer` is not part of this model. What its methods return is a parameter.
- Real terminal I/O is the `stdout` token sequence.
- The `knoxite.Stats` fields the renderer does not read are not modelled.
- RenderRuns.RunCountsItems: holds for streams in which every delegated `DefaultRenderer.Render` succeeds and that cannot push the int64 counter past its maximum (`s.items + |ps| <= MaxInt64`); `RenderRuns.ItemsAfterFreshStart` likewise requires `|ps| < MaxInt64`. A failed delegated Render returns its error and changes nothing and prints nothing (`Renderers.RenderStep`), so leaving such calls out of `Run` loses no change of state.
- RenderRuns.ItemsNeverDecrease: requires that the stream cannot push the int64 counter past its maximum. At the maximum, `Items++` wraps to the minimum, as `GoInts.Inc64` and `Renderers.RenderStep` state.
