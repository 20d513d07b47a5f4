# ktop core, modelled in Dafny

ktop is a `top`-like terminal monitor for Kubernetes. Its core is the
`Monitor` in `pkg/ktop/ktop.go`. The monitor owns one table and two graphs
(cpu and memory). A ring of view types (Summarized, All, Node) decides what
the table shows.

On every update the monitor does the following:
- It fetches the node list, then pod metrics, pods and node metrics.
- It filters them by three name queries (pod, container, node).
- It joins metrics to specs by name.
- It sorts the current view's rows by name and puts them in the table.
- It appends the selected row's usage to both graphs.

Scrolling moves the selection and clears the graphs. Rotating moves the ring,
clears the graphs and resets the table to the new view's empty layout.

The model has one module per source file:

| module | file | contents |
|---|---|---|
| `Util` | `pkg/util/util.go` | filters, lookups, resource-list readers, max and min |
| `Resource`, `Summarized`, `NodeResources` | `pkg/resource/resource.go`, `summarized.go`, `node.go` | the row values |
| `ResourceViewer`, `SummarizedViewer`, `NodeViewer` | `pkg/resource/*_viewer.go` | table shapes and sorting |
| `TableWidget`, `GraphWidget` | `pkg/ui/table.go`, `graph.go` | the two widgets, as classes |
| `Ktop` | `pkg/ktop/ktop.go` | the monitor, as a class |

Shared pieces live in their own modules:
- `Api` holds the Kubernetes objects.
- `Text` covers Go's `%v` for integers, `len` of a string in UTF-8 bytes, and string `<`.
- `Sorting` is the in-place sort that stands in for `sort.Slice`.
- `ViewerCommon` holds what the three viewers share.
- `Wrappers` holds `Option`.

How the Go code is represented:
- Quantities are integers: cpu in millis, memory in bytes.
- Memory is shown in whole mebibytes, using Go's truncating division (`TruncDiv`).
- A compiled regular expression becomes a predicate on names.
- A lookup that may return nil gives an `Option`.
- The widgets and the monitor are classes whose methods assign their fields.
- Each class has a `View()` function that returns its whole state as a datatype.
- Each monitor method is specified as `View() == F(old(View()))`, where
  `F` (`Updated`, `ScrolledView`, `RotatedView`, `TableReset`) is a pure function.
- The properties of the monitor are lemmas about those functions.

`Update` runs behind a deferred `recover` that sets `SelectedRow` to 0:
- A panic inside the switch is modelled as that recovery: the selection goes to 0 and the graphs stay unchanged.
- Two panics are recovered this way:
  - an out-of-range selected row;
  - a node lookup that finds nothing. In the Summarized view this happens when the pod's node is not in the node list. In the All view the node is looked up only when the container lacks a cpu or a memory limit (`Ktop.NeedsNode`).

The first visible row: when the selection passes `cursorBottom()`, `Draw` in
`pkg/ui/table.go` (lines 62-66) sets `topRow` to the old `cursorBottom()`,
one page on. A selection more than a page down therefore stays off the page
(`TableWidget.Followed`, `TableWidget.FollowJumpsAPage`).

## Model

| member | source | states |
|---|---|---|
| `Util.FilterNodeMetrics` | pkg/util/util.go:12-20 | the result is `Filtered` of the node metrics by name |
| `Util.FilterPodMetrics` | pkg/util/util.go:22-30 | the result is `Filtered` of the pod metrics by name |
| `Util.FilterContainerMetrics` | pkg/util/util.go:32-40 | the result is `Filtered` of the container metrics by name |
| `Util.FilteredMembers` | pkg/util/util.go:12-40 | an element is kept if and only if it is in the input and its name matches the query |
| `Util.FilteredKeepsOrder` | pkg/util/util.go:12-40 | the kept elements are a subsequence of the input, in input order |
| `Util.FilteredAllMatch` | pkg/util/util.go:12-40 | a query that matches every name keeps the list unchanged |
| `Util.FindNode` | pkg/util/util.go:42-49 | the loop returns the first node with that name, or None |
| `Util.FindPod` | pkg/util/util.go:51-58 | the loop returns the first pod with that name, or None |
| `Util.FindContainer` | pkg/util/util.go:60-67 | the loop returns the first container with that name, or None |
| `Util.FindFirst` | pkg/util/util.go:42-67 | None if and only if no element has the name; otherwise the answer is the element at the first index with that name |
| `Util.GetResourceValue` | pkg/util/util.go:69-78 | cpu gives the milli value; memory gives whole mebibytes, truncated; a missing key or another resource gives 0 |
| `Util.TruncMiBBounds` | pkg/util/util.go:75 | the mebibyte count never overstates the byte value and is within one mebibyte of it, for either sign |
| `Util.ResourceValueStringAgrees` | pkg/util/util.go:69-90 | the string is the number `GetResourceValue` returns, followed by "m" or "Mi", and reads back as that number; a missing key gives "-" and 0 |
| `Util.MemoryStringExample` | pkg/util/util.go:86 | 2147483648 bytes are shown as "2048Mi" |
| `Util.IntMax` | pkg/util/util.go:100-105 | the result is one of the two arguments and at least both |
| `Util.IntMin` | pkg/util/util.go:107-112 | the result is one of the two arguments and at most both |
| `Text.IntStringParses` | pkg/util/util.go:84 | the `%v` rendering of an integer parses back to it, so the rendering is injective |
| `Text.Utf8LenBounds` | pkg/resource/resource_viewer.go:88 | the UTF-8 length is at least the character count, and equal to it for ASCII |
| `Text.LexLessIrreflexive` | pkg/resource/resource_viewer.go:104 | no string is `<` itself |
| `Text.LexLessTransitive` | pkg/resource/resource_viewer.go:104 | string `<` is transitive |
| `Text.LexLessTotal` | pkg/resource/resource_viewer.go:104-110 | of two different strings, one is `<` the other |
| `Sorting.KeyLessLexicographic` | pkg/resource/resource_viewer.go:103-111 | the comparator is exactly the lexicographic order on (pod name, container name) |
| `Sorting.KeyLessTransitive` | pkg/resource/resource_viewer.go:103-111 | the comparator is transitive |
| `Sorting.KeyLessTotal` | pkg/resource/resource_viewer.go:103-111 | the comparator orders any two different keys |
| `Sorting.SortByKey` | pkg/resource/resource_viewer.go:102-112 | the array ends up sorted by the key and is a permutation of its old contents |
| `Resource.NewResourceSources` | pkg/resource/resource.go:19-28 | node and pod come from the pod, the name, limits and requests from the container spec, and the usage from the metrics |
| `Resource.Resource.GetCpuLimits` | pkg/resource/resource.go:38-42 | `ok` if and only if a cpu limit is set; then its millis and "<n>m"; otherwise 0 and "-" |
| `Resource.Resource.GetCpuUsage` | pkg/resource/resource.go:44-47 | the usage in millis and its "<n>m" text, or "-" |
| `Resource.Resource.GetMemoryLimits` | pkg/resource/resource.go:49-53 | `ok` if and only if a memory limit is set; then its whole mebibytes and "<n>Mi"; otherwise 0 and "-" |
| `Resource.Resource.GetMemoryUsage` | pkg/resource/resource.go:55-58 | the usage in whole mebibytes and its "<n>Mi" text, or "-" |
| `Resource.Resource.ToRow` | pkg/resource/resource.go:61-72 | eight cells: the names, then the usage, limit and request texts for cpu and for memory, matching the getters |
| `Summarized.NewSummarizedResourceSources` | pkg/resource/summarized.go:15-21 | the pod name and node come from the pod, and the usage is the one given |
| `Summarized.SummarizedResource.GetCpuUsage` | pkg/resource/summarized.go:31-34 | the summed cpu in millis and its text |
| `Summarized.SummarizedResource.GetMemoryUsage` | pkg/resource/summarized.go:36-39 | the summed memory in whole mebibytes and its text |
| `Summarized.SummarizedResource.ToRow` | pkg/resource/summarized.go:41-48 | three cells: the pod name and the two usage texts |
| `Summarized.SummedUsageIsShown` | pkg/ktop/ktop.go:314-318 | a usage built by the aggregation is never shown as "-" |
| `NodeResources.NodeResource.ToRow` | pkg/resource/node.go:41-51 | seven cells led by the node name; the percentage cells are the texts the graphs show |
| `NodeResources.NewNodeResourceSources` | pkg/resource/node.go:17-24 | the name and usage come from the metrics; allocatable comes from the node's status |
| `NodeResources.RowIgnoresCapacity` | pkg/resource/node.go:41-51 | capacity is stored but never shown |
| `NodeResources.PercentCellsDependOnlyOnTheirResource` | pkg/resource/node.go:46-49 | "%CPU" depends only on the cpu figures, and "%Memory" only on the memory figures |
| `ViewerCommon.NameWidth` | pkg/resource/resource_viewer.go:35-36 | at least the minimum; otherwise no wider than the longest name plus the indent, and no wider than what the other columns leave |
| `ViewerCommon.MaxLenIsMaximum` | pkg/resource/resource_viewer.go:86-90 | the running maximum bounds every cell of the column and is reached by one of them |
| `ViewerCommon.NameWidthFitsAll` | pkg/resource/resource_viewer.go:34-38 | every name in the column fits its width, unless the width hit the screen limit |
| `ResourceViewer.AllWidths` | pkg/resource/resource_viewer.go:34-38 | eight widths: pod at least 40, container at least 30, then six of 10 |
| `ResourceViewer.Ring.Move` | pkg/ktop/ktop.go:146-148 | the same slots, and the position moved by n modulo the ring size, backwards for negative n |
| `ResourceViewer.MoveFullCircle` | pkg/ktop/ktop.go:146-148 | moving by the ring size, forward or back, returns to the same ring |
| `ResourceViewer.MoveInverse` | pkg/ktop/ktop.go:134-148 | moving by -n undoes moving by n, in either order |
| `ResourceViewer.TableTypeCircle` | pkg/resource/resource_viewer.go:49-57 | the ring holds Summarized, All, Node in that order and is on Summarized |
| `ResourceViewer.RotationOrder` | pkg/resource/resource_viewer.go:49-57 | from Summarized, forward visits All, then Node, then comes back; one step back gives Node |
| `ResourceViewer.TypeRingSteps` | pkg/ktop/ktop.go:134-148 | from any slot of the type ring a step forward gives the next type, and three steps come back |
| `ResourceViewer.ResetShapeIsMinimal` | pkg/resource/resource_viewer.go:59-70 | for every screen width, an empty table gets each view's minimum widths; an unknown type falls back to Summarized |
| `ResourceViewer.ResetAgreesWithViewers` | pkg/resource/resource_viewer.go:59-70 | a reset table has the title and header its viewer shows once there are rows |
| `ResourceViewer.RowsFacts` | pkg/resource/resource_viewer.go:86-87 | every row has eight cells, led by the pod and container names |
| `ResourceViewer.ShapeFacts` | pkg/resource/resource_viewer.go:83-100 | the shape is well formed; with containers there is one row each, in order, and both name columns fit; with none there is the placeholder |
| `ResourceViewer.GetTableShape` | pkg/resource/resource_viewer.go:83-100 | the loop's rows and running maxima give `Shape` |
| `ResourceViewer.SortedMeansByPodThenContainer` | pkg/resource/resource_viewer.go:102-112 | sorted by the key if and only if pod names never go down, and container names never go down within a pod |
| `ResourceViewer.SortRows` | pkg/resource/resource_viewer.go:102-112 | the slice becomes a permutation of itself sorted by pod, then container |
| `SummarizedViewer.Widths` | pkg/resource/summarized_viewer.go:15-18 | three widths: the pod at least 50, then 10 and 10 |
| `SummarizedViewer.ShapeFacts` | pkg/resource/summarized_viewer.go:32-48 | well formed; one row per pod, in order, and the pod column fits; the placeholder when empty |
| `SummarizedViewer.GetTableShape` | pkg/resource/summarized_viewer.go:32-48 | the loop gives `Shape` |
| `SummarizedViewer.SortedMeansByPodName` | pkg/resource/summarized_viewer.go:50-54 | sorted by the key if and only if pod names never go down |
| `SummarizedViewer.SortRows` | pkg/resource/summarized_viewer.go:50-54 | sorted by pod name, and a permutation |
| `NodeViewer.Widths` | pkg/resource/node_viewer.go:17-20 | seven widths: the node at least 50, then six of 10 |
| `NodeViewer.ShapeFacts` | pkg/resource/node_viewer.go:34-50 | well formed; one row per node, in order, and the node column fits; the placeholder when empty |
| `NodeViewer.GetTableShape` | pkg/resource/node_viewer.go:34-50 | the loop gives `Shape` |
| `NodeViewer.GetRows` | pkg/resource/node_viewer.go:52-61 | the rows of `GetTableShape` for every width, placeholder included |
| `NodeViewer.SortedMeansByNodeName` | pkg/resource/node_viewer.go:63-67 | sorted by the key if and only if node names never go down |
| `NodeViewer.SortRows` | pkg/resource/node_viewer.go:63-67 | sorted by node name, and a permutation |
| `TableWidget.Table.constructor` | pkg/ui/table.go:23-30 | the cursor is on; first row and selection are 0; no rows |
| `TableWidget.ResetView` | pkg/ui/table.go:32-39 | no rows; first row and selection 0; only the title, header, widths, rows, first row and selection change |
| `TableWidget.Table.Reset` | pkg/ui/table.go:32-39 | the new state is `ResetView` of the old one |
| `TableWidget.Scrolled` | pkg/ui/table.go:106-114 | in range when there are rows; the exact move when it stays in range; 0 for a move below the first row; the last row for a move past it; -1 for a move down when there are no rows |
| `TableWidget.Table.Scroll` | pkg/ui/table.go:106-114 | only the selection changes, to `Scrolled` |
| `TableWidget.Table.ScrollUp` | pkg/ui/table.go:116-118 | the selection becomes `Scrolled` by -1, nothing else changes |
| `TableWidget.Table.ScrollDown` | pkg/ui/table.go:120-122 | the selection becomes `Scrolled` by 1, nothing else changes |
| `TableWidget.DrawnCount` | pkg/ui/table.go:69 | the rows drawn stay inside the table and inside the page, and the loop stops only at the end of either; none when the first row is negative |
| `TableWidget.ColumnPositions` | pkg/ui/table.go:46-51 | column i starts at the sum of the widths before it |
| `TableWidget.HeaderLabels` | pkg/ui/table.go:54-60 | header i is on line 0 at column position i |
| `TableWidget.DrawRows` | pkg/ui/table.go:69-94 | drawn row k is table row top+k on line 1+k, highlighted if and only if the cursor is on it, cut to the column count |
| `TableWidget.Table.Draw` | pkg/ui/table.go:41-96 | nothing with two lines or fewer; otherwise the column positions, the header, the first row following the selection, and the rows `DrawRows` gives |
| `TableWidget.ScrollStaysInRange` | pkg/ui/table.go:106-114 | a scroll of a table with rows selects one of them, and scrolling by 0 then changes nothing |
| `TableWidget.StepKeepsSelectionVisible` | pkg/ui/table.go:62-69 | a visible selection moved by one step is still drawn after the next Draw |
| `TableWidget.FollowedShowsSelection` | pkg/ui/table.go:62-66 | after a Draw the selection is on the page, unless it ran more than a page past it |
| `TableWidget.FollowJumpsAPage` | pkg/ui/table.go:62-66 | the first row jumps a whole page; a selection two pages down stays off the page |
| `TableWidget.EmptyScrollDownHidesRows` | pkg/ui/table.go:62-69 | after a reset a move down selects -1; Draw then sets the first row to -1 and draws no row |
| `TableWidget.ShapedRowsDrawable` | pkg/ui/table.go:86-87 | rows with one cell per column never index past a row in Draw |
| `GraphWidget.Graph.constructor` | pkg/ui/graph.go:27-32 | no samples, no limit, empty labels |
| `GraphWidget.ResetView` | pkg/ui/graph.go:34-40 | samples, limit and labels cleared; everything else kept, including the limit-line switch |
| `GraphWidget.Graph.Reset` | pkg/ui/graph.go:34-40 | the new state is `ResetView` of the old one |
| `GraphWidget.Window` | pkg/ui/graph.go:69-73 | as written: the window holds at most the width's worth of samples |
| `GraphWidget.WindowDropsNewest` | pkg/ui/graph.go:69-73 | as written: once samples overflow the width, the window plus the newest sample are the last width+1 samples |
| `GraphWidget.WindowExample` | pkg/ui/graph.go:72 | as written: three samples on a width of 2 show the first two |
| `GraphWidget.Segments` | pkg/ui/graph.go:74-90 | as written: stroke i runs from column i to i+1 and ends at the value of sample i |
| `GraphWidget.DrawSegments` | pkg/ui/graph.go:74-90 | the source's backward loop, as written, gives `Segments` |
| `GraphWidget.SegmentsMeetOnlyOnEqualNeighbours` | pkg/ui/graph.go:74-90 | as written: two neighbouring strokes meet at a column only when the samples on either side of it are equal |
| `GraphWidget.SegmentsGapExample` | pkg/ui/graph.go:74-90 | as written: for the samples 0, 10, 0 the strokes at column 2 do not meet |
| `GraphWidget.JoinedSegments` | pkg/ui/graph.go:74-90 | corrected: one stroke between each pair of neighbouring samples |
| `GraphWidget.JoinedSegmentsConnect` | pkg/ui/graph.go:74-90 | corrected: every stroke joins sample i to sample i+1, and neighbouring strokes meet |
| `GraphWidget.DrawJoinedSegments` | pkg/ui/graph.go:74-90 | the corrected backward loop gives `JoinedSegments` |
| `GraphWidget.LatestWindow` | pkg/ui/graph.go:69-73 | corrected: as many samples as fit |
| `GraphWidget.LatestWindowKeepsNewest` | pkg/ui/graph.go:69-73 | corrected: the window is a suffix of the samples and ends with the newest one |
| `GraphWidget.LabelsFacts` | pkg/ui/graph.go:94-120 | the non-empty labels in order (header, limit, data), one per line from line 1; none below three lines |
| `GraphWidget.Graph.Draw` | pkg/ui/graph.go:46-121 | the limit line if and only if there are samples and it is switched on; the corrected joined strokes; the labels of `Labels` |
| `GraphWidget.Plot` | pkg/ktop/ktop.go:353-365 | one more sample, the new name and data labels, the new limit with the line off, and the limit label replaced only when one is given |
| `GraphWidget.Graph.Push` | pkg/ktop/ktop.go:353-358 | the new state is `Plot` of the old one |
| `Ktop.Monitor.constructor` | pkg/ktop/ktop.go:55-102 | the Summarized view, the cursor on in yellow, two titled graphs in white and green, and the given queries |
| `Ktop.Monitor.ResetGraph` | pkg/ktop/ktop.go:104-107 | both graphs become `ResetView` of themselves; the table and ring are unchanged |
| `Ktop.Monitor.ResetTable` | pkg/ktop/ktop.go:109-114 | the table is reset to the ring's view for its width |
| `Ktop.Monitor.ScrollDown` | pkg/ktop/ktop.go:116-123 | the new state is `ScrolledView` by 1 |
| `Ktop.Monitor.ScrollUp` | pkg/ktop/ktop.go:125-132 | the new state is `ScrolledView` by -1 |
| `Ktop.Monitor.RotateBy` | pkg/ktop/ktop.go:146-148 | the ring moves by i and stays valid |
| `Ktop.Monitor.Rotate` | pkg/ktop/ktop.go:134-138 | the new state is `RotatedView` by 1 |
| `Ktop.Monitor.ReverseRotate` | pkg/ktop/ktop.go:140-144 | the new state is `RotatedView` by -1 |
| `Ktop.Monitor.UpdatePodTable` | pkg/ktop/ktop.go:338-340 | the table takes the viewer's title, header, widths and rows, and nothing else changes |
| `Ktop.Monitor.UpdateSummarizedGraph` | pkg/ktop/ktop.go:342-367 | it succeeds if and only if the pod's node is known, and then the graphs are `SummarizedPlots`; otherwise nothing changes |
| `Ktop.Monitor.UpdateAllGraph` | pkg/ktop/ktop.go:369-407 | it succeeds if and only if the container sets both limits or its node is known, and then the graphs are `AllPlots`; otherwise nothing changes |
| `Ktop.Monitor.UpdateNodeGraph` | pkg/ktop/ktop.go:409-425 | the graphs are `NodePlots` |
| `Ktop.CollectContainers` | pkg/ktop/ktop.go:304-313 | the inner loop's resources are `ContainerResources`, and its cpu and memory sums are `UsageSum` |
| `Ktop.Monitor.FetchPodResources` | pkg/ktop/ktop.go:278-322 | None if and only if a list is missing; otherwise `AllResources` and `SummarizedResources` of the filtered pod metrics |
| `Ktop.Monitor.FetchNodeResources` | pkg/ktop/ktop.go:324-336 | None if and only if the metrics are missing; otherwise `NodeResourcesOf` the filtered node metrics |
| `Ktop.Monitor.PlotSummarized` | pkg/ktop/ktop.go:246-251 | the new state is `PlotSelectedSummarized`: plot the selected pod, or recover to row 0 |
| `Ktop.Monitor.ShowSummarized` | pkg/ktop/ktop.go:242-251 | the shown resources are a sorted permutation of the input, and the new state is `UpdatedSummarized` with them |
| `Ktop.Monitor.PlotAll` | pkg/ktop/ktop.go:256-261 | the new state is `PlotSelectedAll` |
| `Ktop.Monitor.ShowAll` | pkg/ktop/ktop.go:252-261 | a sorted permutation, and the new state is `UpdatedAll` |
| `Ktop.Monitor.PlotNode` | pkg/ktop/ktop.go:266-271 | the new state is `PlotSelectedNode` |
| `Ktop.Monitor.ShowNodes` | pkg/ktop/ktop.go:262-271 | a sorted permutation, and the new state is `UpdatedNode` |
| `Ktop.Monitor.Update` | pkg/ktop/ktop.go:166-276 | no node list: no change and no error; another list missing: an error and no change; otherwise the view's rows are a sorted permutation of the fetched ones, and the new state is `Updated` |
| `Ktop.UsageSumIsResourceSum` | pkg/ktop/ktop.go:302-313 | a pod's summed usage is the sum over its container resources |
| `Ktop.SummariesAddUpToResources` | pkg/ktop/ktop.go:288-320 | over all pods, the Summarized view's cpu (and memory) equals the All view's |
| `Ktop.OneSummaryPerKnownPod` | pkg/ktop/ktop.go:292-320 | one summary per pod metric whose pod exists, in order, with that pod's name and node |
| `Ktop.ContainerResourcesFromSpec` | pkg/ktop/ktop.go:304-310 | every resource is a container in the spec and in the metrics, on the pod's node, with the metrics' usage |
| `Ktop.AllResourcesFromMatches` | pkg/ktop/ktop.go:292-313 | every All resource passed the container query and belongs to a filtered pod metric |
| `Ktop.NodeResourcesFollowMetrics` | pkg/ktop/ktop.go:331-334 | one node resource per metric, in order, with the metric's usage and its node's allocatable |
| `Ktop.AllLimitLabelNamesItsSource` | pkg/ktop/ktop.go:373-391 | the limit and its label come from the container's own limit when set, and from the node's allocatable otherwise |
| `Ktop.PlotsAddOneSample` | pkg/ktop/ktop.go:342-425 | each plot adds exactly one sample per graph and switches the limit line off; the Node plots use a limit of 100 and keep the limit label |
| `Ktop.UpdateKeepsLayout` | pkg/ktop/ktop.go:241-273 | an update keeps the ring, cursor, first row, titles and colors; the selection stays or becomes 0; each graph gains at most one sample |
| `Ktop.UpdateShowsCurrentView` | pkg/ktop/ktop.go:241-273 | the table shows the current view's `Shape` of the sorted rows |
| `Ktop.UpdateSelectsARow` | pkg/ktop/ktop.go:235-273 | with rows to show, an update leaves a shown row selected |
| `Ktop.SummarizedGraphFollowsSelection` | pkg/ktop/ktop.go:242-251 | the graphs gain a sample if and only if the selection is a shown pod whose node is known; it is that pod's usage, under its name |
| `Ktop.AllGraphFollowsSelection` | pkg/ktop/ktop.go:252-261 | a sample if and only if the selection is shown and, when it lacks a limit, its node is known; the container's usage, under its name |
| `Ktop.NodeGraphFollowsSelection` | pkg/ktop/ktop.go:262-271 | a sample if and only if the selection is shown; the node's percentages, labelled with the row's percentage cells, against 100 |
| `Ktop.ScrollRestartsGraph` | pkg/ktop/ktop.go:116-119 | after a scroll and an update, each graph holds one sample: the newly selected pod's usage |
| `Ktop.ScrollDownOnFreshTableSkipsPlot` | pkg/ktop/ktop.go:235-239 | a move down right after a rotation selects -1; the next update recovers to row 0 and plots nothing |
| `Ktop.RotationCyclesViews` | pkg/ktop/ktop.go:134-148 | rotation visits Summarized, All, Node in turn and comes back after three steps; one step back undoes one forward |
| `Ktop.RotationStartsAfresh` | pkg/ktop/ktop.go:134-138 | after a rotation the table is empty with the new view's minimum layout, the first row is selected, and both graphs are empty |

## Left out

- Terminal drawing: the termui block, borders, styles, `TrimString` and the `Paragraph` widget. The plans that `Table.Draw` and `Graph.Draw` return record what goes where, not pixels.
- Graph heights: `calcHeight` works in floating point, so strokes record sample values, not screen rows.
- Node percentages: `GetResourcePercentage` and `GetResourcePercentageString` compute in floating point. They are the abstract parameter `Percentages`.
- Quantities: arbitrary precision and `int64` overflow are not modelled; a quantity is an unbounded integer.
- Pod logs: `GetPodLogs`, the `logs` paragraph and `GetLogs` are left out. `summarized.go` has no logs field, though `ktop.go` passes one to `NewSummarizedResource`.
- Kubernetes clients and I/O: the clients, namespace flags and label selectors are out. Each fetched list is an `Option` parameter, where None is a failed call.
- `fmt.Print` of the log error is left out.
- Concurrency: the two goroutines, the channels and the error merging are out. Update only says whether an error occurred, not its text.
- The channel-closed errors ("Failed to get ...") are out; they cannot happen once both fetches succeed.
- `AsAllTableViewer`, `AsSummarizedTableViewer`, `AsNodeTableViewer` and `SortType` are left out: every sort type behaves as `ByName`.
- The getters `GetCPUGraph`, `GetMemGraph`, `GetPodTable` and `GetLogs` are left out: they only return fields.
- `cmd/ktop.go`, `pkg/kube/clients.go` and `pkg/ui/text_field.go` are not part of this model.
- `Ktop.Monitor.FetchNodeResources`: a node metric whose node is missing makes the source dereference nil in a goroutine, with no recover. `AllNodesKnown` is therefore a precondition here and on `Update`.
- `TableWidget.Table.Draw`: a header longer than the widths, or a drawn row with fewer cells than columns, makes the source index out of range. `Drawable` is therefore a precondition. `ShapedRowsDrawable` shows that every viewer shape meets it.
- `Sorting.SortByKey`: `sort.Slice` is not stable, and neither is this insertion sort. The contract is "some sorted permutation", not the exact order Go's algorithm produces.
- `GraphWidget.Graph.Draw`: uses the corrected window and strokes of the Findings below. The source's own loop is `GraphWidget.DrawSegments` over `GraphWidget.Window`. With a width of 0 and samples present, the source slices an empty window and then indexes it.
- `TableWidget.Table.Draw`: the highlighted row's line is filled with spaces before it is drawn. It also re-assigns `SelectedRow` to the index it already has. Neither is modelled beyond the `highlighted` flag.

## Findings

| source | as written | input that shows it | evidently intended | confidence | as-written member | corrected member |
|---|---|---|---|---|---|---|
| pkg/ui/graph.go:72 | the window `data[len-1-Dx : len-1]` stops before the last sample | samples 1, 2, 3 with an inner width of 2 draw 1, 2, so the newest sample 3 is never drawn | the latest Dx samples, `data[len-Dx:]`, as the comment "use latest data" says | not executed; high | `GraphWidget.WindowExample` (also `GraphWidget.WindowDropsNewest`) | `GraphWidget.LatestWindowKeepsNewest` (on `GraphWidget.LatestWindow`) |
| pkg/ui/graph.go:74-90 | stroke i goes from column i at sample i+1's height to column i+1 at sample i's height, so neighbouring strokes do not meet | samples 0, 10, 0: stroke 1 ends at column 2 at height 10, while stroke 2 starts there at height 0 | stroke i joins sample i at column i to sample i+1 at column i+1 | not executed; medium | `GraphWidget.SegmentsGapExample` (also `GraphWidget.SegmentsMeetOnlyOnEqualNeighbours`, `GraphWidget.DrawSegments`) | `GraphWidget.JoinedSegmentsConnect` (on `GraphWidget.JoinedSegments`, drawn by `GraphWidget.DrawJoinedSegments`) |
