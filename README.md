# hiker navigation core, modelled in Dafny

hiker is a terminal directory browser with three panes (parent, current,
child). This project models its pure logic:

- **The navigation reducer** (`reducers.dfy`, module `Reducers`). A
  redux-loop reducer takes a state and an action and returns a new state and
  the effects to run. The state is a record of optional fields. The effects
  (`Cmd.run`, `Cmd.action`, `Cmd.list`) are returned as data in `Cmd`.
  `getContents` reads from a filesystem map (`Env.fs`), where a missing path is
  a failure. `fs.realpath` is a map of already resolved paths (`Env.realpath`).
  `Settle` gives the action that a `Cmd.run` dispatches when its task resolves
  or rejects. The lemmas use it to run INIT's effects in the order they are
  issued.
- **List windowing and the cursor step** (`list_view.dfy`, module
  `ListView`). `calculateListWindow` slides a window of at most `viewSize`
  rows along a list so that the selected row stays visible. The j/k (arrow)
  handler names the neighbouring item. `WindowStep` is one evaluation of the
  recursive body. It lets the model say exactly when the recursion never
  ends: a pane of fewer than two rows, a list longer than the pane, and a
  selection past the half-pane.
- **Display helpers** (`main_view.dfy`, module `MainView`). These are
  `mapModel`, `getSize`, `getLabel`, the zero case of `formatBytes`, and the
  index lookup in `onSelect`.
- **JavaScript built-ins** (`js_builtins.dfy`, module `JsBuiltins`). These
  are `split("/")`, `join("/")`, `slice` with negative bounds,
  `find`/`findIndex`, space padding and integer `toString`, written over Dafny
  sequences.

The model follows the code where the tests expect something else:

- `getContents` returns an empty name list for an empty directory and the raw
  text of a binary file. It fails on an unreadable path. It never produces the
  "(Empty)", "(Binary)" or "(Not Accessible)" texts that
  `test/reducer-util.js` expects (`Reducers.FixtureContents`).
- `getPath` keeps a trailing '/' on the current path. So `"/mock/dir1/"` gets
  the child path `"/mock/dir1//dir"` (`Reducers.FixtureGetPathWithTrailingSlash`).
- The parent of a top-level directory such as `/mock` is `""`, not `"/"`.
  GET_PATH_SUCCESS then asks to load `""`, which fails, so that parent pane
  stays empty (`Reducers.TopLevelParentIsEmpty`, `Reducers.FixtureTopLevelParent`).

The display helpers expect a listing `{content, type}` whose content holds
entry objects `{content, size, type}`. The reducer stores plain name arrays
instead. `MainView` therefore models the helpers on the shape they expect,
independently of `Reducers`.

## Model

| member | source | states |
|---|---|---|
| `JsBuiltins.Split` | src/reducers.js:32 | `split("/")` never returns an empty array, no piece contains '/', and there are two or more pieces exactly when the string has a '/' |
| `JsBuiltins.JoinSplit` | src/reducers.js:32 | joining the pieces of a split with '/' (`JsBuiltins.Join`, `join("/")`) gives back the original string |
| `JsBuiltins.SliceFrom` | src/components/List.js:16 | `slice(start)` returns a suffix of the array, and exactly `s[start..]` for an in-range start |
| `JsBuiltins.SliceTo` | src/components/List.js:13 | `slice(0, end)` returns a prefix of the array, and exactly `s[..end]` for an in-range end; a negative end drops that many items from the back |
| `JsBuiltins.FirstIndex` | src/components/Main.js:62-64 | the linear search behind find/findIndex (`JsBuiltins.Find` is `find` at src/components/List.js:34 and 40) returns -1 exactly when no element matches; otherwise it returns a matching index with no match before it |
| `JsBuiltins.FindIndex` | src/components/Main.js:62-64 | `findIndex` returns -1 exactly when nothing matches; otherwise it returns the first matching index |
| `JsBuiltins.Spaces` | src/components/Main.js:43 | `Array(n).fill(" ").join("")` is n spaces |
| `JsBuiltins.Digits` | src/components/Main.js:27 | the decimal digits of a natural number: non-empty, all digits, no leading zero |
| `JsBuiltins.ParseDigitsOfDigits` | src/components/Main.js:27 | reading the digit string back gives the number |
| `JsBuiltins.DecimalRoundTrip` | src/components/Main.js:27 | an integer's `toString()` text (`JsBuiltins.DecimalString`) reads back as the same integer, so distinct sizes show as distinct texts |
| `Reducers.GetContents` | src/reducers.js:23-28 | the result object has the single key it was asked for; a directory gives its names, a file its text; a missing path or an unreadable one fails |
| `Reducers.ParentPathDropsLastSegment` | src/reducers.js:31-32 | the parent path (`Reducers.ParentPathOf`, `split("/").slice(0, -1).join("/")`) is the resolved path cut just before its last '/': a prefix that is followed by '/' and then a '/'-free tail; it is "" when there is no '/' |
| `Reducers.ParentOfChild` | src/reducers.js:33 | the parent of `path/name` is `path` when the name has no '/', so a child path and a parent path are inverse steps |
| `Reducers.GetPath` | src/reducers.js:35-47 | it succeeds exactly when the content is defined and the path resolves; the current path is the input unchanged; the child path is `path/dir[selected]` (`Reducers.ChildPath`, with `Reducers.ElementText` rendering `dir[selected]`, "undefined" when out of range) and, when `dir[selected]` contains no '/', its parent is the current path; the parent path is the resolved path without its last segment |
| `Reducers.Settle` | src/reducers.js:57-61 | a completed `Cmd.run` dispatches GET_CONTENTS_SUCCESS or GET_CONTENTS_FAILURE (GET_PATH_SUCCESS or GET_PATH_FAILURE for getPath), the success action exactly when the task succeeds; the success action carries the resolved payload and the failure action the rejection error |
| `Reducers.Reduce` | src/reducers.js:5-14 | exactly INIT, INIT_SUCCESS, GET_PATH_SUCCESS and GET_CONTENTS_SUCCESS have handlers; a handled type returns its handler's result on the state, or on the initial state when the state is undefined; any other type returns the state (or the initial state) with no effect |
| `Reducers.TypeOf` | src/reducers.js:49-55 | an action's type string is one of the seven declared types exactly when the action is one the module declares |
| `Reducers.UndefinedStateIsInitial` | src/reducers.js:6 | for every action, an undefined state gives the same result as the initial state |
| `Reducers.InitialStateIsEmpty` | src/reducers.js:63 | the initial state has `currentSelected = 0` and no paths and no contents |
| `Reducers.OnInit` | src/reducers.js:65-71 | INIT sets `currentPath` and changes no other field; it emits a sequenced list: load the path into `currentContent` (`Reducers.RunGetContents`, the `Cmd.run(getContents)` of src/reducers.js:57-61), then INIT_SUCCESS |
| `Reducers.OnInitSuccess` | src/reducers.js:72-79 | INIT_SUCCESS keeps the state and emits one getPath effect on `(currentPath, currentContent, currentSelected)` |
| `Reducers.OnGetPathSuccess` | src/reducers.js:80-86 | GET_PATH_SUCCESS overwrites exactly the three paths from the payload and emits two unsequenced loads, parent into `parentContent`, then child into `childContent` |
| `Reducers.OnGetContentsSuccess` | src/reducers.js:87 | GET_CONTENTS_SUCCESS fills exactly the one content slot named by the payload key and emits nothing |
| `Reducers.FailedTaskChangesNothing` | src/reducers.js:49-61 | a failed load or path resolution is an action no handler takes, so the state is unchanged |
| `Reducers.LoadFillsOneSlot` | src/reducers.js:87 | a successful load changes exactly the slot it was keyed for, to the directory's names or the file's text |
| `Reducers.ResolvedPathsReachState` | src/reducers.js:72-86 | from any state whose position resolves, INIT_SUCCESS and its settled getPath keep the current path, set the child path to the selected entry beneath it and the parent path to the resolved path without its last segment, and change nothing else |
| `Reducers.InitOnDirectory` | src/reducers.js:64-88 | after INIT on a directory, with its effects run in issue order, the state has the path, its names, the selected child path beneath it, and the resolved parent; every other field is as before; the parent and child loads come next |
| `Reducers.InitOnMissingPath` | src/reducers.js:65-79 | INIT on a missing path fails the load; the following INIT_SUCCESS fails getPath on the undefined content; only `currentPath` has changed |
| `Reducers.FixtureContents` | test/reducer-util.js:17-79 | on the test fixture: a directory's five names, a file's text, a failure for a missing path; empty content for an empty directory or file; a failure for an unreadable directory |
| `Reducers.FixtureParent` | test/reducer-util.js:81-90 | "/mock/dir1" has the parent "/mock" |
| `Reducers.TopLevelParentIsEmpty` | src/reducers.js:31-32 | the parent of a top-level path `/name` is "", not "/" |
| `Reducers.FixtureTopLevelParent` | src/reducers.js:31-32 | "/mock" has the parent "", and loading "" fails, so the parent pane of a top-level directory stays empty |
| `Reducers.FixtureGetPathWithTrailingSlash` | test/reducer-util.js:81-90 | getPath on "/mock/dir1/" yields the current path "/mock/dir1/", the parent "/mock" and the child "/mock/dir1//dir" |
| `ListView.NextWindow` | src/components/List.js:10 | nextWindow is viewSize/2 rounded down for a non-negative viewSize and rounded toward zero for a negative one |
| `ListView.WindowStep` | src/components/List.js:5-18 | the body recurses exactly when the list is longer than the pane and the selection is past nextWindow; the recursion drops the first nextWindow items and lowers the selection by nextWindow; the `slice(-nextWindow)` alternative is never taken |
| `ListView.DivergenceIsPreserved` | src/components/List.js:10-17 | with viewSize below 2, a list longer than the pane and a selection past nextWindow, the recursive call again has those properties, so the recursion never ends |
| `ListView.SmallPaneRecursesOnItself` | src/components/List.js:10-17 | with viewSize 0 or 1, a list longer than the pane and a selection past 0, the body calls itself on the same arguments |
| `ListView.CalculateListWindow` | src/components/List.js:5-18 | terminates on every argument where the recursion is finite; a list that fits is returned as is; a selection within the first half-pane gives the first viewSize items; the window has at most viewSize rows and is non-empty for a non-empty list; a selection inside the list gives a highlight inside the window; the window is a contiguous run of the list starting at the amount the highlight was shifted by |
| `ListView.SelectedItemIsHighlighted` | src/components/List.js:45-56 | in a pane of at least one row, for a selection inside the list, the highlighted row drawn is the selected item |
| `ListView.ShortWindowNearTheEnd` | src/components/List.js:5-18 | five items, four rows, fourth item selected: the window is the last three items, with the second of them highlighted |
| `ListView.OnInput` | src/components/List.js:31-43 | down passes onSelect the item after the selection unless the selection is the last index; up passes the one before unless the selection is 0; when both hold, the down call comes first; other keys pass nothing |
| `ListView.CursorStaysInRange` | src/components/List.js:31-43 | from a selection inside the list, every item passed to onSelect exists and sits at the index one above or one below the selection |
| `MainView.MapModel` | src/components/Main.js:48-59 | a directory listing of entries maps to items of the same length and order, each labelled with its entry's name, valued `path/name`, with size and type copied; any other listing's content is returned unchanged |
| `MainView.ItemValueIsChildOfPath` | src/components/Main.js:56 | an item's value is a child of the pane's path: its parent path is that path |
| `MainView.FormatBytes` | src/components/Main.js:12-15 | `formatBytes(0)` is "0" |
| `MainView.GetSize` | src/components/Main.js:25-35 | a directory shows its size in decimal, and the text reads back as the size; a symlink shows "~> " and the formatted size; anything else shows the formatted size |
| `MainView.GetLabel` | src/components/Main.js:37-44 | the row starts and ends with a space, shows the label after the first space, shows the size text at the end only when focused, has only spaces in between, and has length `max(w - 1, |label| + |shown size| + 2)` |
| `MainView.OnSelectIndex` | src/components/Main.js:61-65 | the chosen index is that of the first entry whose name equals the item's label, or -1 when there is none |
| `MainView.SelectRoundTrip` | src/components/Main.js:48-65 | in a directory with distinct names, looking up the label of item i gives back i |
| `MainView.KeyPressSelectsNeighbourIndex` | src/components/List.js:31-43 | in the current pane of a listing with distinct names, from a selection inside the listing, a key press gives onSelect an index inside the listing, one above or one below the selection |

## Left out

- Filesystem calls and Promise plumbing (`fs.stat`, `readdir`, `readFile`,
  `realpath`, `toPromise`). They are replaced by the `Env` maps. A path is a
  directory, a file, or unreadable; symlinks, UTF-8 decoding and other I/O
  errors are not distinguished.
- The redux-loop runner and the order in which asynchronous results arrive.
  Effects are data. The lemmas run them in the order they are issued, which
  is one possible schedule out of several.
- Reducers.GetContents: only the three state keys are modelled as
  `getContents` keys. The tests also use other keys, which the reducer never
  issues.
- MainView.FormatBytes: a non-zero size takes its text from a parameter,
  because `formatBytes` computes it with `Math.log`, `**` and `toFixed`
  (floating point).
- JsBuiltins.Digits: `toString` is modelled for integers only. The exponent
  notation JavaScript uses from 1e21 up is not modelled.
- MainView.GetLabel: lengths count Dafny characters. JavaScript counts
  UTF-16 code units, which differ for characters outside the Basic
  Multilingual Plane.
- ListView.CalculateListWindow: it is not defined on the arguments where the
  source recurses without end until the stack overflows
  (`ListView.DivergenceIsPreserved` proves that such calls never return).
  `viewSize` and `selectedItem` are integers; fractional or undefined values
  are not modelled.
- MainView.OnSelectIndex: it takes an entry array and an item. The TypeError
  the source raises for an undefined item (the cursor moving off a list) or
  for a text content is not modelled.
- `selectItem`, `goBack` and `goForward` are imported by the main component
  but not defined in the reducer module. The dispatch in `onSelect` and the
  back/forward moves are therefore not part of this model. Only the index
  lookup is.
- React/Ink rendering: `Renderer`, `Main`, `Pane`, `Layout` and its h/l key
  mapping, colours, `measureElement` widths and `useStdoutDimensions`.
- Bootstrapping and store setup (`src/index.js`, `src/store.js`). The mock
  filesystem of `src/mocks.js` appears only as the fixture `Reducers.Fixture`.
- `test/index.js` imports a `getDir` that does not exist, so it is not
  modelled.
