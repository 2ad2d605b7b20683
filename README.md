# podium — a Dafny model of the client-side core

podium is a terminal UI for Kubernetes. It shows a live table of the pods or
deployments of a namespace, lets the user page through the table, kill the
selected pod or restart the selected deployment, and toggles a help screen and
a log pane. This project models the parts of the program that decide what is
shown and what a key press does, and proves properties of them:

- **Paging** (`paging.dfy`): the selection of a table and how Down/Up move it.
  The selection lives in a `TableState` class whose methods update it in place.
- **Sorting** (`sorting.dfy`): the name order of the tables and the sort
  behind it. The in-place sort is an insertion sort over an `array`, proved
  equal to a functional `SortBy`. The module also holds the "element at the
  selected row of the sorted list" that the kill and restart commands pick.
  The pod and deployment lists use the same sort and the same pick
  (`src/app/state/pods/mod.rs` lines 23 and 70-79,
  `src/app/state/deployments.rs` lines 27 and 79-88); the table rows cite
  the pod side.
- **Ages** (`age.dfy`): `ago`, which coarsens an age to days, hours, minutes
  and finally seconds before formatting it.
- **Pod status** (`pod_data.dfy`): the State, Ready and Restarts columns of
  the pod table, derived from the container statuses.
- **Pod and deployment lists** (`pods.dfy`, `deployments.dfy`): the table
  rows, their styles, and the commands the 'k' and 'r' keys queue.
- **List watcher** (`list_watcher.dfy`): the shared state of a list view
  (loading, a list, or an error), rendering it, routing keys into the
  command channel of capacity 10, the receiver that drains that channel, and
  the reconnect loop that keeps the state current.
- **Application** (`app_state.dfy`, `app.dfy`): which view is shown and the
  global key dispatch.
- **Overlays** (`overlay.dfy`): the stack of pop-ups, of which only the top
  one is drawn.

`common.dfy`, `input.dfy`, `objects.dfy` and `widgets.dfy` hold the value
types:
- an option type and decimal rendering of integers;
- the key events;
- the Kubernetes record fields the core reads;
- table rows and styles.

Modelling choices:
- Times are integers counting nanoseconds. The current time `now` is a
  parameter.
- The duration formatter is a function parameter `format` taking whole
  seconds.
- Creating a list watcher is represented by a watcher number. Watchers are
  numbered in the order they start, so a new number means a fresh watcher.
- The reconnect loop never ends in the program. Here it runs over a finite
  trace of attempts to build a reflector. Each attempt either fails with a
  cause, or yields a session: the store contents, the contents after each
  stream event, and how the stream ended, if it did.

Where the program's comments and its code disagree, or the code does
something unexpected, the model follows the code:
- An age of 90 seconds stays 90 seconds. Only ages over two minutes are cut
  to whole minutes (`K8s.AgeExamples`), so a container that restarted 90
  seconds ago reads "3 (<90 s formatted> ago)" (`PodData.RestartedContainer`).
- The pod state and restart count come from the container whose last change
  is the EARLIEST. The comments in the source say "latest", but the sort is
  ascending and the first element is taken.
- The list view calls the paging methods with one argument, the item count,
  but the paging trait takes a total and an increment. The model keeps the
  trait's signature and passes the increment in through `ListWatch.Context.OnKey`.
- With no selection, `next` selects `max(total, increment)`. That is never a
  valid row, and the model keeps it (`Paging.NextSelection`).
- The deployments table is titled "Pods".
- A pop-up overlay draws an empty block titled "Popup" and never shows its
  message (`OverlayStack.MessageNotShown`).

## Model

| member | source | states |
|---|---|---|
| Paging.NextSelection | src/app/ui/state.rs:10-31 | no selection without rows; from a selection the result is a valid row (< total); from none it is at least total and the increment |
| Paging.PrevSelection | src/app/ui/state.rs:33-53 | no selection without rows; from a valid row the result is a valid row; from none it is row 0; it never moves down |
| Paging.TableState.constructor | src/app/ui/state.rs:1 | a new table state has no selection |
| Paging.TableState.Next | src/app/ui/state.rs:10-31 | the selection becomes `NextSelection` of the old one |
| Paging.TableState.Prev | src/app/ui/state.rs:33-53 | the selection becomes `PrevSelection` of the old one |
| Paging.PrevAfterNext | src/app/ui/state.rs:15-52 | with increment 1, `prev` after `next` returns to any valid row |
| Paging.NextAfterPrev | src/app/ui/state.rs:15-52 | with increment 1, `next` after `prev` returns to any valid row |
| Paging.NextTimesInRange | src/app/ui/state.rs:15-31 | any number of `next` steps from a valid row stays on a valid row |
| Paging.PrevTimesUndoesNextTimes | src/app/ui/state.rs:15-52 | n `prev` steps undo n `next` steps (increment 1) |
| Sorting.SortByPermutation | src/app/state/pods/mod.rs:23 | the sorted list has the same elements, counted with multiplicity |
| Sorting.SortBySorted | src/app/state/pods/mod.rs:23 | for a total order the result is sorted |
| Sorting.SortedPermutationUnique | src/app/state/pods/mod.rs:23 | when no two elements compare equal there is only one sorted permutation, so the tie order of the library sort does not matter |
| Sorting.SortByFirstIsLeast | src/app/state/pods/data.rs:80-81 | the first element of the sorted list is an element of the input and a least one |
| Sorting.SortInPlace | src/app/state/pods/mod.rs:23 | the array is sorted in place into `SortBy` of its old contents |
| Sorting.SiftDown | src/app/state/pods/mod.rs:23 | one insertion step: the prefix becomes the old prefix with the element inserted, the rest is unchanged |
| Sorting.NameLeTotal | src/app/state/pods/mod.rs:23 | any two names are ordered one way or the other |
| Sorting.NameLeTransitive | src/app/state/pods/mod.rs:23 | the name order is transitive |
| Sorting.NameLeAntisymmetric | src/app/state/pods/mod.rs:23 | names ordered both ways are equal |
| Sorting.SelectedOf | src/app/state/pods/mod.rs:70-79 | a command target exists exactly when a row is selected and in range, and it is one of the listed items |
| Sorting.SortedCopyAt | src/app/state/pods/mod.rs:71-78 | sorting a copy in place and indexing it gives `SelectedOf`, and the caller's list is a value left as it was |
| Sorting.SelectedOfAnySorted | src/app/state/pods/mod.rs:23-72 | with distinct keys, the selected element is the one at the same row of any sorted permutation of the list |
| K8s.Coarsen | src/k8s/mod.rs:11-28 | the truncation ladder ends in whole seconds; an age of at most two minutes only loses its fraction of a second |
| K8s.TruncateToDays | src/k8s/mod.rs:13-16 | an age over two days becomes whole days, less than a day below the age |
| K8s.TruncateToHours | src/k8s/mod.rs:18-21 | an age over two hours and up to two days becomes whole hours, less than an hour below |
| K8s.TruncateToMinutes | src/k8s/mod.rs:23-25 | an age over two minutes and up to two hours becomes whole minutes, less than a minute below |
| K8s.TruncateToSeconds | src/k8s/mod.rs:27-28 | an age up to two minutes is cut to whole seconds toward zero |
| K8s.CoarsenBounds | src/k8s/mod.rs:11-28 | the result is whole seconds; for a non-negative age it is at most the age and less than one unit of the coarsest step below it |
| K8s.CoarseIsFixed | src/k8s/mod.rs:13-28 | values already in the coarse form are left unchanged |
| K8s.CoarsenIdempotent | src/k8s/mod.rs:13-28 | running the truncation steps on their own output changes nothing |
| K8s.AgeSeconds | src/k8s/mod.rs:10-33 | none exactly when the age cut to whole seconds is negative; otherwise whole seconds within one unit below the age |
| K8s.Ago | src/k8s/mod.rs:10-36 | none exactly when the age cut to whole seconds is negative; otherwise the formatter's text for the coarsened whole seconds |
| K8s.AgeExamples | src/k8s/mod.rs:11-28 | 90.5 s gives 90 s; three days and five hours gives three days |
| PodData.Display | src/app/state/pods/data.rs:57-71 | `Unknown` shows nothing, `Other` its own text, `Terminating` "Terminating", and every other state one of the known reason names |
| PodData.FromReason | src/app/state/pods/data.rs:22-34 | displaying the parsed state gives the reason back; only unknown reasons become `Other`; never `Unknown` or `Terminating` |
| PodData.DisplayRoundTrip | src/app/state/pods/data.rs:22-34 | a state with a name of its own parses back from that name |
| PodData.FromOptReason | src/app/state/pods/data.rs:42-49 | `Unknown` exactly for no reason; otherwise it displays as the reason |
| PodData.FromReasonInjective | src/app/state/pods/data.rs:22-71 | different reasons give different states |
| PodData.CountReady | src/app/state/pods/data.rs:103-104 | the count is the length of the sublist of ready containers; at most the total, and equal to it exactly when every container is ready |
| PodData.ReadyCounts | src/app/state/pods/data.rs:101-115 | init counts exactly when init statuses exist and not all are ready; otherwise the regular counts; in each case ready is the number of ready containers of that list and total its length; none only without regular statuses |
| PodData.MakeReady | src/app/state/pods/data.rs:101-116 | the text is "Init:r/t" or "r/t" of `ReadyCounts`, and none exactly when it is none |
| PodData.AllContainers | src/app/state/pods/data.rs:143-149 | init statuses, then regular statuses, each in order; a missing list contributes nothing |
| PodData.StateLastChange | src/app/state/pods/data.rs:162-176 | running start first, then waiting (now), then terminated finish; none exactly when no time is available |
| PodData.LastChange | src/app/state/pods/data.rs:184-191 | the current state's time if it has one, else the last state's |
| PodData.WithLastChanged | src/app/state/pods/data.rs:151-155 | exactly the containers with a last change, each paired with that time |
| PodData.ByTimeOrders | src/app/state/pods/data.rs:80 | ordering by time is total and transitive |
| PodData.Earliest | src/app/state/pods/data.rs:80-81 | an element of the candidates with the least time |
| PodData.FirstChanged | src/app/state/pods/data.rs:76-81 | sorting the candidates in place and taking the first gives `Earliest`, none when empty |
| PodData.ContainerReason | src/app/state/pods/data.rs:83-90 | the waiting state's reason when the container waits, else the terminated state's reason, else none |
| PodData.NotReadyCandidates | src/app/state/pods/data.rs:76-77 | exactly the not-ready containers (init ones included) that have a last change, each paired with it |
| PodData.MakeState | src/app/state/pods/data.rs:73-99 | never `Terminating`; with no not-ready container that has a time, the phase |
| PodData.ComputeState | src/app/state/pods/data.rs:73-99 | the in-place computation equals `MakeState` |
| PodData.MakeStateTieFree | src/app/state/pods/data.rs:80-93 | the state is the reason of an earliest not-ready container, whichever one the sort puts first |
| PodData.MakeStateAllReady | src/app/state/pods/data.rs:73-98 | when every container is ready the state is the phase |
| PodData.RestartCandidates | src/app/state/pods/data.rs:119-120 | exactly the containers with a restart that have a last change, each paired with it |
| PodData.RestartText | src/app/state/pods/data.rs:126-137 | the restart count, followed by " (<age> ago)" when the previous run's finish time gives an age |
| PodData.MakeRestarts | src/app/state/pods/data.rs:118-141 | none exactly when no restarted container has a last change |
| PodData.ComputeRestarts | src/app/state/pods/data.rs:118-141 | the in-place computation equals `MakeRestarts` |
| PodData.MakeRestartsTieFree | src/app/state/pods/data.rs:118-140 | the text is that of an earliest restarted container, whichever one the sort puts first |
| PodData.InitializingPod | src/app/state/pods/data.rs:73-116 | an unready init container waiting with "PodInitializing" gives Ready "Init:0/1" and state `PodInitializing` |
| PodData.RestartedContainer | src/app/state/pods/data.rs:118-140 | three restarts, last finished 90 s ago, give "3 (<90 s> ago)" |
| Pods.PodStateOf | src/app/state/pods/mod.rs:87-91 | `Terminating` exactly when a deletion timestamp is set; otherwise `make_state` of the status, and `Unknown` without one |
| Pods.RowStyle | src/app/state/pods/mod.rs:103-117 | only Pending, Error, CrashLoopBackOff and Terminating get a background; only Error is bold |
| Pods.ReadyCell | src/app/state/pods/mod.rs:85 | the `make_ready` text; empty without a status or a readiness |
| Pods.RestartsCell | src/app/state/pods/mod.rs:92-96 | the `make_restarts` text; "0" without a status or a restarted container |
| Pods.AgeCell | src/app/state/pods/mod.rs:97-101 | the formatted coarsened age of the creation time; empty without one or for a future one |
| Pods.MakeRow | src/app/state/pods/mod.rs:81-120 | the five cells in header order (name, ready, state, restarts, age) and the state's style; a deleting pod shows "Terminating" in yellow |
| Pods.Rows | src/app/state/pods/mod.rs:32 | one row per pod, in order |
| Pods.PodsTable | src/app/state/pods/mod.rs:19-46 | title "Pods", the five headers, and row i made from the i-th pod in name order |
| Pods.RenderTable | src/app/state/pods/mod.rs:19-46 | sorts the slice in place by name and returns `PodsTable` of the old contents |
| Pods.KillTarget | src/app/state/pods/mod.rs:70-79 | a kill command exactly when a row is selected and in range, naming one of the pods |
| Pods.TriggerKill | src/app/state/pods/mod.rs:70-79 | the sort-a-copy computation equals `KillTarget` |
| Pods.OnKey | src/app/state/pods/mod.rs:48-56 | 'k' gives `KillTarget`, every other key no command |
| Pods.HighlightedIsKilled | src/app/state/pods/mod.rs:19-79 | with distinct names, the pod in the selected row of the table is the pod that gets killed |
| Deployments.Counts | src/app/state/deployments.rs:94-108 | "ready/replicas", updated and available, missing counts read as 0; three empty strings without a status |
| Deployments.MakeRow | src/app/state/deployments.rs:90-117 | name, then the Ready, Updated and Available texts of `Counts`, then the age cell, in the plain style; Ready is empty exactly without a status |
| Deployments.Rows | src/app/state/deployments.rs:36-39 | one row per deployment, in order |
| Deployments.DeploymentsTable | src/app/state/deployments.rs:23-52 | the five headers and row i made from the i-th deployment in name order |
| Deployments.RenderTable | src/app/state/deployments.rs:23-52 | sorts the slice in place by name and returns `DeploymentsTable` of the old contents |
| Deployments.RestartTarget | src/app/state/deployments.rs:79-88 | a restart command exactly when a row is selected and in range, naming one of the deployments |
| Deployments.TriggerRestart | src/app/state/deployments.rs:79-88 | the sort-a-copy computation equals `RestartTarget` |
| Deployments.OnKey | src/app/state/deployments.rs:54-62 | 'r' gives `RestartTarget`, every other key no command |
| Deployments.HighlightedIsRestarted | src/app/state/deployments.rs:23-88 | with distinct names, the highlighted deployment is the one restarted |
| ListWatch.Offer | src/app/state/list.rs:194-195 | the queue keeps its contents and grows by the message exactly when there is one and fewer than 10 are queued |
| ListWatch.Context.constructor | src/app/state/list.rs:149-155 | a new watcher is loading with an empty channel |
| ListWatch.Context.Render | src/app/state/list.rs:37-74 | loading draws the empty table, an error its text; a list is drawn with its selection, which becomes row 0 when it was unset and the list is not empty |
| ListWatch.Context.TrySend | src/app/state/list.rs:195 | queues the message when fewer than 10 are waiting, else drops it |
| ListWatch.Context.OnKey | src/app/state/list.rs:186-202 | outside a list nothing changes; Down/Up page over the item count and queue nothing; other keys queue the kind's command, if any, and leave the selection |
| ListWatch.Context.Recv | src/app/state/list.rs:264 | takes the oldest queued command |
| ListWatch.Context.Drain | src/app/state/list.rs:264-266 | hands over every queued command in arrival order and empties the queue |
| ListWatch.Context.Watch | src/app/state/list.rs:234-254 | a built reflector shows its store with a fresh, unselected table state, then every store update |
| ListWatch.Context.Step | src/app/state/list.rs:217-257 | one pass of the loop: the states it writes followed by what is still pending equal what was pending before; the measure drops while the loop goes on |
| ListWatch.ViewsStart | src/app/state/list.rs:210-260 | the reference run: `Loading` first, then the first attempt's store or build error; only `Loading` when no attempt is made |
| ListWatch.Context.Run | src/app/state/list.rs:210-260 | the states written are `Views` of the attempts, the last one is the current state, and the channel is untouched |
| ListWatch.LoadingOnlyFirst | src/app/state/list.rs:217-238 | `Loading` is shown first and never again |
| ListWatch.ErrorsAreFailures | src/app/state/list.rs:217-257 | the errors shown are the failed builds, watch errors and "Stream closed", in order |
| ListWatch.ListsAreStores | src/app/state/list.rs:234-254 | the lists shown are the store contents of the built reflectors, in order |
| ListWatch.ClosedThenFailed | src/app/state/list.rs:224-257 | a closed stream shows "Stream closed", then a failed rebuild shows its cause, with no `Loading` between |
| AppStates.Default | src/app/state/mod.rs:41-45 | the default view shows no watcher |
| AppStates.RenderTarget | src/app/state/mod.rs:20-26 | `Initializing` draws nothing; the list views draw through their watcher |
| AppStates.OnKey | src/app/state/mod.rs:28-38 | keys are ignored while `Initializing`, otherwise handed on unchanged |
| AppStates.KeysReachShownWatcher | src/app/state/mod.rs:20-38 | keys reach exactly the watcher on screen, of the matching kind |
| App.Swap | src/app/mod.rs:76-90 | the other list kind with a new watcher; `Initializing` stays; flags unchanged; watchers stay numbered below the count |
| App.Action | src/app/mod.rs:41-66 | Exit exactly for Ctrl-c, 'q' and Esc without help, changing nothing; a forwarded key changes nothing here; watchers stay numbered below the count |
| App.App.constructor | src/app/mod.rs:30-38 | starts in the pod view with watcher 0, logs and help off |
| App.App.Prev | src/app/mod.rs:76-82 | the new state is `Swap` of the old, and the watcher shown stays numbered below the count |
| App.App.Next | src/app/mod.rs:84-90 | the new state is `Swap` of the old, and the watcher shown stays numbered below the count |
| App.App.DoAction | src/app/mod.rs:41-66 | the new state and return value are `Action`'s, and forwarded keys are recorded in order |
| App.UnhandledKeysForwarded | src/app/mod.rs:61-65 | every key the application does not handle goes to the view and the application continues |
| App.TogglesTwice | src/app/mod.rs:57-58 | 'l' flips logs, 'h' and '?' flip help, nothing else changes, and pressing twice restores everything |
| App.ChoosingStartsWatcher | src/app/mod.rs:53-56 | 'd' and 'p' show their kind with a new watcher, even when already shown |
| App.SwapTwice | src/app/mod.rs:76-90 | each press swaps the kind; two presses return to the first kind with a newer watcher |
| App.EscClosesHelp | src/app/mod.rs:46-52 | Esc closes help and continues, or exits without help |
| OverlayStack.CenteredRect | src/app/ui/overlay.rs:25-27 | the overlay covers the whole area |
| OverlayStack.RenderOverlay | src/app/ui/overlay.rs:10-23 | clears the area, then draws a "Popup" block over the same area |
| OverlayStack.RenderStack | src/app/ui/overlay.rs:37-44 | nothing for an empty stack, else the last overlay |
| OverlayStack.PushedIsDrawn | src/app/ui/overlay.rs:37-50 | after a push the pushed overlay is the one drawn |
| OverlayStack.MessageNotShown | src/app/ui/overlay.rs:14-21 | the drawing is the same whatever the message says |
| OverlayStack.Overlays.constructor | src/app/ui/overlay.rs:30-33 | the default stack is empty |
| OverlayStack.Overlays.Render | src/app/ui/overlay.rs:37-44 | draws only the top-most overlay, nothing when empty |
| OverlayStack.Overlays.Push | src/app/ui/overlay.rs:46-51 | appends the overlay and returns its index, the old length |

## Left out

- Sorting.SortInPlace: the library sort is unstable. The model fixes one order for equal elements. Results are claimed only where they cannot depend on that order: sortedness, permutation, uniqueness with distinct keys, and the least first element.
- Integer widths: `usize` and `i32` are unbounded here. No count in the core comes near the limits.
- Time: `Utc::now` is read separately by each call of `ago` and by `last_change` for waiting containers. The model uses one `now` per computation.
- The duration formatter is not part of this model; `format` stands for it.
- Async and concurrency:
  - the spawned runner task;
  - the race between the reconnect loop and the receiver;
  - the mutex around the state.
  The loops are modelled one at a time, and the store updates arrive through the trace.
- ListWatch.Context.Run: the source loops forever. The model stops when the trace of attempts runs out or a stream stays open.
- The reflector store's add/modify/delete fold, the watcher, the client and kubeconfig loading belong to the Kubernetes library. Store contents are given by the trace.
- Backend actions: the pod deletion, the deployment restart and the scale patch are network calls whose errors are only logged. Only the command that asks for them is modelled; processing a command is handing it over in `Drain`.
- Terminal input and the main loop: event polling, the tick timer and start-up.
- Rendering:
  - column widths, the highlight style and symbol, the header style, borders;
  - the drawing of the help screen and log pane.
  The deployments table gives four widths for five columns, which is not modelled either.
- Logging, including the debug-string slice in the reconnect loop, which would panic on short strings.
- Dropping an overlay handle is `todo!()` in the source and is not modelled.
- `Key` is reduced to the variants the core reacts to; the key decoding module is not part of this model.
