# Benchmark page session model

A Dafny model of the session state machine inside the benchmark page of
the `million` virtual-DOM library (`benchmarks/main.jsx`). The page
compares `million` with six other ways of rendering: `tiny-vdom`,
`simple-virtual-dom`, `virtual-dom`, `snabbdom`, direct DOM calls and
`innerHTML`. It keeps a few module-level variables:

- `cumulative`: the running total of rounded operations per second for
  each implementation;
- `logs`: the log groups of this session, newest run first;
- `history`: the groups read from `localStorage.logs` at load;
- `disabled`: `false`, or the label of the running suite.

Three handlers change these variables. A suite button's click starts a
run. `log` records one line and, for a benchmark result, adds to one
total. A suite's `'complete'` handler logs the fastest line, re-enables
the buttons and persists the groups. `vnode()` projects the state onto
buttons and panels, and `log` projects the totals onto a sorted bar
chart.

The model is a set of pure functions over one immutable `State` record:

- `wrappers.dfy` (`Wrappers`): the `Option` type.
- `text.dfy` (`Text`): JavaScript `split` and `join`, and the label and
  description taken from a suite name.
- `totals.dfy` (`Totals`): the cumulative table, the stable sort by
  descending total, and the chart snapshot.
- `session.dfy` (`Session`): the state record, `Init`, `Log`, `StartRun`,
  `Complete`, the event step `Step`, the session invariant `Valid`, and
  whole-run lemmas.
- `view.dfy` (`View`): buttons, log blocks, panels and chart data as
  plain values.

Boundary choices:

- Throughput arrives already rounded (`Math.round(hz)` as a `nat`).
- The start line's date text is a parameter `stamp`.
- The names of the benchmarks the suite judged fastest
  (`suite.filter('fastest').map('name')`, implementation names) are a
  parameter; the model builds the summary line from them by joining with
  commas, as template interpolation of an array does.
- The storage slot holds the group sequence itself, not its JSON text.

The model follows what the code does, including where that differs from
what a reader of the page might expect:

- A result whose name is not one of the seven keys is not ignored. Line
  111 would add `NaN` under a new key. The model therefore requires a
  recognised name (`Recognised`).
- Malformed JSON in storage is not handled by line 31. The model does
  not claim that the page degrades gracefully.
- `history` is never updated in memory. Each completion stores the
  session's groups in front of the history read at load, so a second
  run does not store the history twice (`Session.TwoRuns`).
- `createRows` is a suite, not a key of `cumulative`: only the seven
  implementation names carry totals. `Session.MillionScenario` sums two
  results under `million`.
- `split('(')` cuts at every `(`. The description is therefore the text
  between the first `(` and the next `(` (or the end). A label keeps any
  space before the `(`.
- `disabled` holds a string. The model reads `disabled={disabled}` and
  the click guard with JavaScript truthiness (`Session.Truthy`), so an
  empty label counts as "nothing running": the buttons stay enabled and
  undimmed. This is a modelling choice. Whether the page really behaves
  so depends on how the virtual-DOM layer applies a string `disabled`
  (see "## Left out").

## Model

| member | source | states |
|---|---|---|
| Text.Split | benchmarks/main.jsx:61 | `split` yields at least one piece, no piece contains the separator, and a string without the separator is its own single piece |
| Text.JoinSplit | benchmarks/main.jsx:61 | joining the pieces of a split with the separator gives back the original string |
| Text.SplitJoin | benchmarks/main.jsx:91 | splitting a join of separator-free pieces gives back the pieces, so joining log lines with newlines loses nothing |
| Text.Join | benchmarks/main.jsx:50 | `join` of no pieces is the empty string, and of one piece is that piece, with no separator |
| Text.JoinEnds | benchmarks/main.jsx:50 | a `join` of at least one piece starts with the first piece and ends with the last |
| Text.LabelAndDescription | benchmarks/main.jsx:61 | the label is the suite name's text before its first `(`; the description is the text after it, up to the next `(` or the end; the description is missing exactly when the name has no `(` |
| Totals.Initial | benchmarks/main.jsx:21-29 | the table has exactly the seven implementation keys, each at zero |
| Totals.Add | benchmarks/main.jsx:111 | adding throughput to one name raises that total by the amount, keeps every other total, and keeps the key set |
| Totals.Insert | benchmarks/main.jsx:115 | one insertion step adds exactly the inserted key to the multiset of keys |
| Totals.InsertDescending | benchmarks/main.jsx:115 | inserting into a list in descending order of total keeps it descending |
| Totals.SortByTotal | benchmarks/main.jsx:115 | the sorted keys are a permutation of the input keys, in non-increasing order of total |
| Totals.InsertStable | benchmarks/main.jsx:115 | among keys with any one total, insertion places the new key before the existing ones |
| Totals.SortStable | benchmarks/main.jsx:115 | the sort is stable: the keys with any given total appear in their input order |
| Totals.ChartFor | benchmarks/main.jsx:116-122 | values, background colours and border colours run parallel to the labels; a bar gets its own key's total, gets red exactly when its key is `million`, and every other bar gets the one shared purple pair |
| Totals.Snapshot | benchmarks/main.jsx:115-126 | the chart data shows each key once, by non-increasing total, with its own total, and with red colours on `million` alone and the shared purple pair on every other bar |
| Totals.SnapshotStable | benchmarks/main.jsx:115 | ties in the snapshot keep the insertion order of `cumulative` |
| Totals.EqualTotalsSnapshot | benchmarks/main.jsx:115-122 | while all totals are equal, the sorted snapshot equals the unsorted chart data |
| Totals.InitialSnapshot | benchmarks/main.jsx:133-146 | before any result, the sorted snapshot equals the chart the page is constructed with |
| Session.Rendered | benchmarks/main.jsx:112 | `String(message)` of a plain line is the line itself, and of a benchmark result is that result's text |
| Session.Truthy | benchmarks/main.jsx:71-72 | `disabled` is falsy when no suite runs and when the running label is empty, and truthy for any non-empty label |
| Session.RunningLine | benchmarks/main.jsx:67 | the start line is `Running: `, then the full suite name, then ` - `, then the date text, and nothing else |
| Session.FastestLine | benchmarks/main.jsx:50 | the completion line starts with `Fastest is `; with no fastest names nothing follows, and with one name exactly that name follows |
| Session.Init | benchmarks/main.jsx:21-32 | load starts with all totals zero, no groups and no running suite; an absent slot gives an empty history, otherwise the stored groups become the history |
| Session.Log | benchmarks/main.jsx:110-114 | a named result adds its throughput to its own total only; every message appends exactly one line to the newest group; the number of groups, the older groups, history, `disabled` and storage are unchanged |
| Session.StartRun | benchmarks/main.jsx:64-67 | a click sets `disabled` to the suite's label and adds one group in front, holding only the start line; the older groups, totals, history and storage are unchanged |
| Session.Complete | benchmarks/main.jsx:49-53 | completion appends the fastest line to the newest group, clears `disabled`, and stores the current groups followed by the history; the older groups and totals are unchanged |
| Session.Step | benchmarks/main.jsx:46-72 | a click while `disabled` is truthy changes nothing; a click otherwise starts a run; no event lowers a total or changes the key set or the history |
| Session.InitValid | benchmarks/main.jsx:21-32 | the state at load satisfies the session invariant |
| Session.StepValid | benchmarks/main.jsx:64-67 | every accepted event keeps the invariant: the seven keys, no empty group, and a group whenever a suite is marked running |
| Session.RunningAccepts | benchmarks/main.jsx:110-112 | while a suite is marked running, its cycle events for known implementations and its completion never hit a missing `logs[0]` |
| Session.LogAll | benchmarks/main.jsx:110-114 | logging a sequence of messages keeps the number of groups, the older groups, the keys, history, `disabled` and storage |
| Session.LogAllEffect | benchmarks/main.jsx:111-112 | after logging a sequence, each total equals its old value plus the throughput of the results named after it, and the newest group has gained the message texts in order |
| Session.RunEffect | benchmarks/main.jsx:46-70 | a whole run adds one front group holding the start line, the result lines and the fastest line; it adds each result to its own total, ends with no suite running, and stores the groups followed by the history |
| Session.ReloadAfterComplete | benchmarks/main.jsx:31 | reloading after a completion reads back exactly the stored groups as history |
| Session.TwoRuns | benchmarks/main.jsx:53 | after two runs in one session, storage holds both groups, newest first, then the history read at load, once |
| Session.MillionScenario | benchmarks/main.jsx:111 | two `million` results of 1000 and 1200 give a total of 2200, leave every other implementation's total at zero, and make a four-line group; the buttons are re-enabled |
| View.DropLast | benchmarks/main.jsx:73 | `slice(0, -1)` drops exactly the last character, and the empty string stays empty |
| View.RenderButton | benchmarks/main.jsx:61-74 | the button exists exactly when the name has a `(`; it is disabled exactly when `disabled` is truthy; it is dimmed to 0.25 exactly when a different label runs; it has the running marker exactly when its own label runs; its title is the description minus its last character |
| View.RenderButtons | benchmarks/main.jsx:60-76 | there is one button per suite, in order, exactly when every suite name has a description |
| View.OneRunningButton | benchmarks/main.jsx:71-74 | while a suite with a distinct non-empty label runs, every button is disabled, and only the running suite's button is undimmed and marked |
| View.Blocks | benchmarks/main.jsx:91 | there is one child per group; an empty group yields the skipped `0` child, and any other group yields its lines joined by newlines |
| View.BlocksShowGroups | benchmarks/main.jsx:91 | a block's text splits back into its group's lines when no line holds a newline |
| View.Render | benchmarks/main.jsx:57-106 | the graph and log panels are open exactly when a group exists; the log panel shows the groups' blocks in order; the history panel exists exactly when history is non-empty, at opacity 0.5 |
| View.ValidLogsAllShown | benchmarks/main.jsx:88-91 | in a valid session every group is shown as a preformatted block |
| View.ChartOf | benchmarks/main.jsx:115-126 | the chart data of a session with the seven keys shows each of the seven implementations once, by descending total, with the red colours on `million` alone and the shared purple pair on the others |

## Left out

- Chart.js: building the chart, `chart.update()` and the animation flag
  are calls into a foreign library. Only the data handed to it is
  modelled (`Totals.Snapshot`, `View.ChartOf`).
- canvas-confetti and `celebration`/`fire`: a cosmetic foreign call with
  floating-point parameters.
- The virtual-DOM layer: `createElement` and `patch` come from
  `../src/index`, which is not part of this model. The view is plain
  data. How the number `0` child of an empty group is displayed is up to
  that layer. So is how a string `disabled` prop reaches the element: set
  as a property, the empty label is falsy and the button stays enabled;
  set as an attribute, any string, even the empty one, disables it. The
  model takes the first reading (`Session.Truthy`). The same reading
  decides `View.RenderButton`'s `disabled` field and the click guard of
  `Session.Step`.
- Storage and serialisation: `localStorage` and `JSON.parse`/`stringify`
  are not modelled. The storage slot holds the group sequence itself. An
  empty-string slot and an absent slot are both `None`.
- The benchmark suites: `suite.run`, `filter('fastest')`, event timing
  and `Benchmark#toString` are outside the model. A result is an input
  of name, rounded throughput and text. The suite names are a parameter
  of the view.
- `Math.round` on a floating-point `hz`: the rounded value is the input.
- Totals.Add: totals are unbounded naturals, while `cumulative` holds
  IEEE doubles that are exact only up to 2^53; the `+=` of line 111 and
  the comparator difference of line 115 are modelled without that limit.
  Realistic totals stay far below it.
- View.DropLast: strings are sequences of Unicode scalar values, while
  JavaScript strings are UTF-16 code units. On a description ending in a
  character outside the Basic Multilingual Plane, `slice(0, -1)` keeps a
  lone high surrogate where the model drops the whole character. The
  suite descriptions end in `)`, where the two agree.
- Session.Log: requires a recognised name. The source would add `NaN`
  under a new key, and the model does not invent a rule for that.
- Session.Log: requires at least one group. On an empty `logs` the source
  throws at `logs[0].push` after it has already added to the total. The
  model does not represent that partial update. `Session.RunningAccepts`
  shows that a running suite never reaches that case.
- Session.Step: a click while a suite runs is a no-op because the browser
  does not dispatch clicks to a disabled button, not because of code in
  the handler.
- Environment bits: the mobile user-agent `alert`, the locale date text
  (the `stamp` parameter) and `console.log` are not modelled.
- Asynchrony: a run's events are assumed to arrive in order, start, then
  cycles, then completion, as the suite library promises. No timeout or
  cancellation exists in the source, and none is modelled.
