# Connectivity tracker of HABPanelViewer, modelled in Dafny

`NetworkTracker` listens for the platform's connectivity broadcasts, keeps a
connected/disconnected flag, and calls `connected()` or `disconnected()` on its
registered listeners whenever that flag changes. It refuses to evaluate
connectivity until a one-shot background SSL setup has finished (the
*gate*); when that setup ends, successfully or not, the gate opens and the
status is evaluated once.

The model is functional. A `Tracker` value holds the three parts of the
state: `connected`, `initialized` (the gate) and the ordered list of listener
identities. Each operation is a pure step returning the next state and the
callbacks delivered during the step, in delivery order:

- `listener_list.dfy` — module `ListenerList`: the list operations behind
  `ArrayList.add` (append) and `ArrayList.remove(Object)` (remove the first
  equal entry, or nothing).
- `network_tracker.dfy` — module `NetworkTracker`: the state, the events,
  `UpdateStatus`, `AddListener`, `RemoveListener`, `IsConnected`,
  `Terminate`, and `CompleteInit` (the `finally` block of the background
  task: open the gate, then evaluate the status).
- `tracker_runs.dfy` — module `TrackerRuns`: histories of operations
  (`Signal`, `SetupDone`, `Add`, `Remove`, `Stop`) folded by `Run`, and the
  lemmas stating the protocol over whole histories.

The platform's connectivity query is a parameter of each evaluation:
`NetworkInfo` is `NoActiveNetwork` (no connectivity service, or no active
network) or `ActiveNetwork(isConnected)`, and the network counts as active
only for `ActiveNetwork(true)`, exactly the condition of the source. The
outcome of the SSL setup is a parameter of `CompleteInit` and does not
influence the state. Each whole call is modelled as one atomic step, which
is stronger than the locking of the source (see "## Left out"). Listeners are natural-number identities compared by
equality, so a listener registered twice appears twice and is called twice.

## Model

| member | source | states |
|---|---|---|
| NetworkTracker.Init | app/src/main/java/de/vier_bier/habpanelviewer/NetworkTracker.java:24-26 | a new tracker is disconnected, has no listeners and its gate is closed |
| NetworkTracker.IsActive | app/src/main/java/de/vier_bier/habpanelviewer/NetworkTracker.java:81-83 | the network counts as active exactly when an active network is reported and it says it is connected; a missing connectivity service or a missing active network is inactive |
| NetworkTracker.IsConnected | app/src/main/java/de/vier_bier/habpanelviewer/NetworkTracker.java:68-70 | reports the tracker's flag; which value that is after each step is fixed by the contracts of UpdateStatus, CompleteInit and LastObservationWins |
| NetworkTracker.Notify | app/src/main/java/de/vier_bier/habpanelviewer/NetworkTracker.java:87-105 | for both the `connected()` loop (lines 90-92) and the `disconnected()` loop (lines 102-104): one callback per listener entry, duplicates included, the i-th callback going to the i-th entry |
| NetworkTracker.UpdateStatus | app/src/main/java/de/vier_bier/habpanelviewer/NetworkTracker.java:78-111 | with the gate closed nothing changes and nothing is delivered; with it open the flag equals the observed activity; callbacks only when the flag changes, then exactly one per listener entry in list order with the new state; listeners and gate untouched |
| NetworkTracker.AddListener | app/src/main/java/de/vier_bier/habpanelviewer/NetworkTracker.java:56-60 | the listener is appended after all existing entries, which stay as they were; flag and gate unchanged |
| NetworkTracker.RemoveListener | app/src/main/java/de/vier_bier/habpanelviewer/NetworkTracker.java:62-66 | only the first equal entry is deleted, the rest keep their order; an unknown listener leaves the tracker unchanged; flag and gate unchanged |
| NetworkTracker.CompleteInit | app/src/main/java/de/vier_bier/habpanelviewer/NetworkTracker.java:37-46 | whatever the setup outcome, the gate is open afterwards, the flag equals the observed activity, and the listeners are notified iff the flag changed |
| NetworkTracker.Terminate | app/src/main/java/de/vier_bier/habpanelviewer/NetworkTracker.java:113-124 | the listener list becomes empty while flag and gate stay; tear-down never fails |
| ListenerList.IndexOf | app/src/main/java/de/vier_bier/habpanelviewer/NetworkTracker.java:64 | the position found holds the listener and no earlier position does |
| ListenerList.Append | app/src/main/java/de/vier_bier/habpanelviewer/NetworkTracker.java:58 | the new entry goes after all existing ones, which keep their positions; the list gains exactly one copy of it |
| ListenerList.RemoveFirst | app/src/main/java/de/vier_bier/habpanelviewer/NetworkTracker.java:64 | removal of an absent entry is the identity; otherwise the list shrinks by one, the entries before the first occurrence (none of them equal) stay in place and those after it move up by one |
| ListenerList.RemoveFirstMultiset | app/src/main/java/de/vier_bier/habpanelviewer/NetworkTracker.java:64 | removal takes away exactly one copy of the listener, if present, and nothing else |
| ListenerList.RemoveAppended | app/src/main/java/de/vier_bier/habpanelviewer/NetworkTracker.java:56-66 | appending a new entry and removing it returns the original list |
| ListenerList.RemoveAfterDuplicateAppend | app/src/main/java/de/vier_bier/habpanelviewer/NetworkTracker.java:56-66 | appending a duplicate then removing it removes the older copy, leaving the new one at the end |
| TrackerRuns.Apply | app/src/main/java/de/vier_bier/habpanelviewer/NetworkTracker.java:43-124 | dispatches each of the five operations (setup completion, broadcast, add, remove, terminate) to its step; operations that do not query the network deliver nothing and keep the flag; only setup completion changes the gate, and only to open |
| TrackerRuns.Run | app/src/main/java/de/vier_bier/habpanelviewer/NetworkTracker.java:43-124 | over any history the gate never closes, it is open after any setup completion, signals before it opens change nothing and deliver nothing, and histories without observations never change the flag |
| TrackerRuns.RunAppend | app/src/main/java/de/vier_bier/habpanelviewer/NetworkTracker.java:43-124 | a property of the model's histories, not of one source line: a history split in two runs the same as the whole, callbacks concatenated |
| TrackerRuns.UpdateStatusIdempotent | app/src/main/java/de/vier_bier/habpanelviewer/NetworkTracker.java:83-107 | re-applying the same observation is a no-op with no callbacks |
| TrackerRuns.EqualSignalsNotifyOnce | app/src/main/java/de/vier_bier/habpanelviewer/NetworkTracker.java:86-98 | two equal consecutive signals deliver exactly what the first alone delivers |
| TrackerRuns.LastObservationWins | app/src/main/java/de/vier_bier/habpanelviewer/NetworkTracker.java:78-107 | once the gate is open, the flag at the end of a history equals the activity of its last observation; dropped signals are never replayed |
| TrackerRuns.SilentWithoutListeners | app/src/main/java/de/vier_bier/habpanelviewer/NetworkTracker.java:121-123 | an empty listener list stays empty and nothing is delivered until a listener is added |
| TrackerRuns.TerminateSilences | app/src/main/java/de/vier_bier/habpanelviewer/NetworkTracker.java:113-124 | after terminate, later signals deliver nothing unless a listener is added again; the flag survives tear-down |
| TrackerRuns.DroppedBeforeSetup | app/src/main/java/de/vier_bier/habpanelviewer/NetworkTracker.java:108-110 | a fresh tracker receiving only signals stays disconnected, silent and gated |
| TrackerRuns.SetupCompletionConnects | app/src/main/java/de/vier_bier/habpanelviewer/NetworkTracker.java:43-46 | when the setup ends with the network active, each listener registered by then hears `connected` exactly once, in registration order, for either outcome |
| TrackerRuns.RemovedListenerHearsNothing | app/src/main/java/de/vier_bier/habpanelviewer/NetworkTracker.java:62-66 | a listener registered once and then removed receives no callback from a later signal |
| TrackerRuns.AddThenRemove | app/src/main/java/de/vier_bier/habpanelviewer/NetworkTracker.java:56-66 | registering a new listener and unregistering it restores the tracker |
| TrackerRuns.DuplicateRegistration | app/src/main/java/de/vier_bier/habpanelviewer/NetworkTracker.java:56-66 | registering twice and unregistering once keeps one registration, at the end |
| TrackerRuns.FailedSetupThenSignal | app/src/main/java/de/vier_bier/habpanelviewer/NetworkTracker.java:40-46 | a failed setup still opens the gate; a later active signal connects and calls both listeners in order |
| TrackerRuns.DropAndReconnect | app/src/main/java/de/vier_bier/habpanelviewer/NetworkTracker.java:83-107 | inactive, inactive, active on a connected tracker: each listener hears `disconnected` once, then `connected` once |

## Left out

- Registering and unregistering the broadcast receiver, the intent filter and the `onReceive` dispatch: platform plumbing; a broadcast is the `Signal` operation.
- The `ConnectivityManager`/`NetworkInfo` lookup: replaced by the `NetworkInfo` input of each evaluation.
- The SSL context setup through `ConnectionUtil`: an external singleton that is not part of this model; only its outcome is an input, and it does not affect the tracker.
- The failure toast and all logging: no observable tracker state.
- TrackerRuns.FailedSetupThenSignal: assumes the failure toast at line 42 returns. It is shown from `doInBackground`, on the background thread, where the platform's `Toast` throws for lack of a message loop; the `finally` at lines 43-46 still opens the gate and evaluates the status (so `CompleteInit` holds), but the exception then escapes the task and the application may never reach the later signal of this scenario. Not executed; read from the platform's contract.
- The `IllegalArgumentException` swallowed when unregistering twice: modelled only as `Terminate` never failing.
- `AsyncTask` scheduling, `synchronized`, `AtomicBoolean` and the unsynchronized read in `isConnected`: every operation is an atomic sequential step, so races are not modelled.
- NetworkTracker.UpdateStatus: modelled as one atomic call, but the source tests `mConnected` at lines 86 and 98 outside `synchronized (mListeners)`, and `updateStatus` runs both from the setup task (line 45) and from `onReceive` (line 75) on different threads. When the gate opens, both can pass the `!mConnected` test and each deliver a full round of `connected()`, so "callbacks only on a change" (and TrackerRuns.EqualSignalsNotifyOnce) hold only for calls that do not overlap.
- NetworkTracker.Notify: assumes every callback returns; in the source a null listener or a callback that throws at line 91 or 103 ends the round after the flag has already flipped, and the later entries miss that transition for good.
- The bodies of the listeners' callbacks: listeners are identities and their calls are recorded as events; a callback that re-enters the tracker is not modelled.
