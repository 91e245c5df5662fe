# Takanami refinement dialog, modelled in Dafny

This project models two classes in `eqpickertool/gui/views/takanamidialog.py`.

- **`TakanamiTask`** runs the Takanami autoregressive onset estimator over one window of a seismic record. It clears its abort flag on entry. How the window is clamped and converted to seconds is modelled. So are the two abort checkpoints, and the `position_estimated`/`finished` signals, kept as an ordered log.
- **`TakanamiDialog`** is the refinement session. It keeps the analysis window `_start`/`_end`, the estimate `event_time`, the event being refined and the two spin-box limits that the bound edits move. It checks its constructor arguments, rebuilds the window around the estimate (`set_margin`) and reruns a fresh task on Apply. On Ok it commits the estimate to the document, kept as a list of the calls made on it.

Layout:

- `wrappers.dfy`: Option and Result.
- `numbers.dfy`: Python's `max`, `min` and `int()`, the last one truncating toward zero.
- `seismic.dfy`: the record (sample values and a positive rate), the picked event, the pick tags, and the estimator's type. The estimator is a function parameter: `None` stands for a run that raises.
- `tasks.dfy`: `TakanamiTask`, as a class with the `_abort` flag, a log of calls into the estimator and a log of emitted signals. Its invariant `Paired` says the signal log is a sequence of `position_estimated`, `finished` pairs.
- `documents.dfy`: the document, as a class recording `createEvent`/`editEvent` calls.
- `sessions.dfy`: the dialog's state as a value, and one pure transition per handler.
- `session_properties.dfy`: lemmas about those transitions.
- `dialogs.dfy`: `TakanamiDialog` as a class. Each handler's contract ties the new state to the matching transition.

Modelling choices:

- **Sample positions are reals.** `set_margin` computes its margin as `max(0.5 * fs, margin)`, which is a half-integer when `fs` is odd. It can therefore store a fractional `_start`/`_end`. The spin-box limits are kept in seconds.
- **Abort timing.** An abort that arrives while `run` is in progress is given as an `AbortTiming`: none, before the first checkpoint, or between the two checkpoints (while the estimator runs). An `abort()` made before `run` starts is the `Abort` method. `run` then clears the flag and forgets it, as `Tasks.AbortBeforeRunIsForgotten` shows.

The constructor's checks and the spin-box coupling suggest invariants that the code does not keep. The model follows the code:

- `_end` can become `len(signal)` through `set_margin`, a value the constructor rejects (`SessionProperties.SetMarginCanReachSignalEnd`). So `0 <= end < N` is not an invariant after construction.
- An estimate is never checked against the window (`SessionProperties.EstimateMayLeaveWindow`).
- The constructor applies the default margin before it builds its first task. The first run therefore covers the margin window, not the caller's window (`SessionProperties.FirstWindowIsTheMarginWindow`).
- The spin-box coupling does not restore the half-second minimum exactly. Both edits truncate to a sample, so with exact arithmetic the window can end up to one sample narrower than half a second (`SessionProperties.StartEditCoupling`, `SessionProperties.EndEditCoupling`, `SessionProperties.CouplingAllowsShortWindow`). In floating point the source can lose one more sample (see `## Left out`).

## Model

| member | source | states |
|---|---|---|
| `Numbers.Trunc` | eqpickertool/gui/views/takanamidialog.py:200-201 | `int()` truncates toward zero: the result is the integer within one of `x`, on the side of zero |
| `Tasks.TaskRequest` | eqpickertool/gui/views/takanamidialog.py:70-72 | the estimator's window in seconds, times `fs`, is the task's start clamped below at 0 and its end clamped above at the signal length |
| `Tasks.Delivered` | eqpickertool/gui/views/takanamidialog.py:73-82 | a run reports an estimate only if no abort lands at either checkpoint and the estimator returns; the estimate it reports is the estimator's answer |
| `Tasks.EmissionsPaired` | eqpickertool/gui/views/takanamidialog.py:81-82 | the signals of one run form a well-formed log |
| `Tasks.PairedAppend` | eqpickertool/gui/views/takanamidialog.py:81-82 | successive runs keep the log well-formed: well-formed logs are closed under concatenation |
| `Tasks.PairedShape` | eqpickertool/gui/views/takanamidialog.py:81-82 | in a well-formed log every `finished` is at an odd position, immediately after a `position_estimated`, and the two signals occur equally often, `len/2` times each |
| `Tasks.TakanamiTask.constructor` | eqpickertool/gui/views/takanamidialog.py:60-66 | a new task holds the record and bounds it is given, with the abort flag clear and nothing called or emitted |
| `Tasks.TakanamiTask.Abort` | eqpickertool/gui/views/takanamidialog.py:84-85 | sets the abort flag and nothing else; calling it twice is the same as calling it once |
| `Tasks.TakanamiTask.Run` | eqpickertool/gui/views/takanamidialog.py:68-82 | the flag is reset on entry; an abort before the first checkpoint stops the run before the estimator is called; otherwise the estimator is called exactly once, on the clamped window; if the run is not aborted and the estimator does not raise, `position_estimated(et, aic, n0)` is emitted and then `finished`, and otherwise nothing is emitted; an exception propagates exactly when the estimator raises; the log stays well-formed |
| `Tasks.AbortBeforeRunIsForgotten` | eqpickertool/gui/views/takanamidialog.py:69 | an abort made before `run` is lost: the run emits what an unaborted run emits |
| `Documents.Document.CreateEvent` | eqpickertool/gui/views/takanamidialog.py:246-249 | a `createEvent` call is appended to the document's call log |
| `Documents.Document.EditEvent` | eqpickertool/gui/views/takanamidialog.py:240-244 | an `editEvent` call is appended to the document's call log |
| `Sessions.InitialEventTime` | eqpickertool/gui/views/takanamidialog.py:115-119 | the initial estimate is the event's time if there is an event, and otherwise the window midpoint rounded down |
| `Sessions.Create` | eqpickertool/gui/views/takanamidialog.py:105-121 | construction fails in this order: start outside `[0, N)`, end outside `[0, N)`, width below `0.5 * fs`, estimate not strictly inside; it succeeds exactly when all checks pass; the new state holds the inputs, the initial estimate and the initial spin-box limits (lines 186-187), and its window covers at least half a second around the estimate |
| `Sessions.EffectiveMargin` | eqpickertool/gui/views/takanamidialog.py:255 | the effective margin is the larger of the requested margin and half a second of samples |
| `Sessions.SetMargin` | eqpickertool/gui/views/takanamidialog.py:251-258 | fails with the margin error exactly when the margin is not positive; otherwise only the window changes, and it becomes the window of half-width `max(0.5 * fs, m)` around the unchanged estimate, clamped to `[0, N]` |
| `Sessions.StartSample` | eqpickertool/gui/views/takanamidialog.py:199-201 | a start edit to `t` seconds selects a nonnegative sample index equal to the exact product `t * fs` rounded down, and 0 when `t * fs` is negative |
| `Sessions.EndSample` | eqpickertool/gui/views/takanamidialog.py:208-211 | an end edit selects a sample index of at most `N`: exactly `N` when `t * fs >= N`, and otherwise the exact product `t * fs` truncated toward zero |
| `Sessions.StartPointChanged` | eqpickertool/gui/views/takanamidialog.py:198-205 | if the selected index equals `_start`, nothing changes; otherwise `_start` becomes that index, the end spin box's minimum becomes `t + 0.5` s, and nothing else changes |
| `Sessions.EndPointChanged` | eqpickertool/gui/views/takanamidialog.py:207-215 | if the selected index equals `_end`, nothing changes; otherwise `_end` becomes that index, the start spin box's maximum becomes `t - 0.5` s, and nothing else changes |
| `Sessions.ReceiveEstimate` | eqpickertool/gui/views/takanamidialog.py:217-218 | a result replaces the estimate and leaves the window, the event and both limits untouched |
| `Sessions.SaveCall` | eqpickertool/gui/views/takanamidialog.py:236-249 | no document call exactly when an existing event keeps its time; otherwise exactly one call at the current estimate, tagged Takanami/automatic/reported: an `editEvent` of the existing event, or a `createEvent` when there is none |
| `Sessions.Initialize` | eqpickertool/gui/views/takanamidialog.py:105-124 | construction fails with the first failing check, and then with the margin error if the default margin is not positive; in the successful case the window is the margin window around the initial estimate, not the caller's window |
| `SessionProperties.SetMarginKeepsEstimateInside` | eqpickertool/gui/views/takanamidialog.py:251-258 | for an estimate strictly inside the signal, `set_margin` leaves it strictly inside the window |
| `SessionProperties.SetMarginUnclampedWidth` | eqpickertool/gui/views/takanamidialog.py:255-258 | away from the signal's ends, the margin window is symmetric about the estimate and at least one second wide |
| `SessionProperties.SetMarginIdempotent` | eqpickertool/gui/views/takanamidialog.py:251-258 | repeating `set_margin` with the same margin changes nothing |
| `SessionProperties.SetMarginCanReachSignalEnd` | eqpickertool/gui/views/takanamidialog.py:257 | `set_margin` can set `_end` to the signal's length, which the constructor (line 109) rejects |
| `SessionProperties.ScenarioMidpointAndMinimumMargin` | eqpickertool/gui/views/takanamidialog.py:105-121 | at 100 Hz with 10000 samples, window [400, 600] is accepted with estimate 500, and a 50-sample margin gives [450, 550] |
| `SessionProperties.ScenarioWindowTooShort` | eqpickertool/gui/views/takanamidialog.py:111-113 | a 0.2 s window at 100 Hz is refused as too short |
| `SessionProperties.FirstWindowIsTheMarginWindow` | eqpickertool/gui/views/takanamidialog.py:124 | with the 5 s default margin, the caller's window [400, 600] becomes [0, 1000] before the first run |
| `SessionProperties.EstimateMayLeaveWindow` | eqpickertool/gui/views/takanamidialog.py:218 | a result outside the window is accepted as the estimate |
| `SessionProperties.BoundEditsIdempotent` | eqpickertool/gui/views/takanamidialog.py:198-215 | repeating an identical start or end edit changes nothing |
| `SessionProperties.BoundEditsCommute` | eqpickertool/gui/views/takanamidialog.py:198-215 | a start edit and an end edit give the same state in either order |
| `SessionProperties.StartEditCoupling` | eqpickertool/gui/views/takanamidialog.py:198-211 | with exact arithmetic, after an effective start edit, every end still allowed within the signal lies more than half a second minus one sample past the new start |
| `SessionProperties.EndEditCoupling` | eqpickertool/gui/views/takanamidialog.py:198-215 | with exact arithmetic, after an effective end edit within the signal, every nonnegative start still allowed lies more than half a second minus one sample before the new end |
| `SessionProperties.CouplingAllowsShortWindow` | eqpickertool/gui/views/takanamidialog.py:198-215 | at 3 Hz, edits within the spin-box limits give a one-sample window, narrower than half a second |
| `SessionProperties.SaveWithoutEstimateIsNoOp` | eqpickertool/gui/views/takanamidialog.py:236-239 | refining an existing event and accepting before any estimate writes nothing |
| `SessionProperties.SaveAfterEstimate` | eqpickertool/gui/views/takanamidialog.py:236-249 | after an estimate, accepting edits the existing event exactly when its time differs from the estimate, and otherwise creates an event at the estimate |
| `SessionProperties.SaveIgnoresWindow` | eqpickertool/gui/views/takanamidialog.py:236-258 | bound edits and `set_margin` never change what accepting writes |
| `Dialogs.TakanamiDialog.Init` | eqpickertool/gui/views/takanamidialog.py:132 | the fields hold the state they are given, and the task is new, over the current window, with nothing called or emitted |
| `Dialogs.TakanamiDialog.Open` | eqpickertool/gui/views/takanamidialog.py:99-138 | the constructor fails exactly as `Initialize` does; otherwise the first task covers the margin window, and what it emits and the state after its result are those of one run |
| `Dialogs.TakanamiDialog.RunTask` | eqpickertool/gui/views/takanamidialog.py:133-138 | running the current task emits what `Run` emits, and its `position_estimated`, if any, updates the estimate and nothing else |
| `Dialogs.TakanamiDialog.OnPositionEstimated` | eqpickertool/gui/views/takanamidialog.py:217-218 | the new state is `ReceiveEstimate` of the old one |
| `Dialogs.TakanamiDialog.OnStartPointChanged` | eqpickertool/gui/views/takanamidialog.py:198-205 | the new state is `StartPointChanged` of the old one |
| `Dialogs.TakanamiDialog.OnEndPointChanged` | eqpickertool/gui/views/takanamidialog.py:207-215 | the new state is `EndPointChanged` of the old one |
| `Dialogs.TakanamiDialog.SetMargin` | eqpickertool/gui/views/takanamidialog.py:251-258 | a non-positive margin raises the error and leaves the state unchanged; otherwise the new state is `SetMargin` of the old one |
| `Dialogs.TakanamiDialog.SaveEvent` | eqpickertool/gui/views/takanamidialog.py:236-249 | the document's call log grows by exactly the call `SaveCall` names, or not at all |
| `Dialogs.TakanamiDialog.OnClick` | eqpickertool/gui/views/takanamidialog.py:190-196 | Ok makes the `save_event` call and changes no state; Apply runs a brand-new task over the current window and applies its result; Cancel changes nothing |

## Left out

- Widget construction, layout and display formats (`_init_ui`, lines 140-188) are left out, apart from the initial limits of the two spin boxes (lines 186-187).
- Spin-box times and limits are exact seconds. The `QTime` millisecond quantisation (lines 181-188, 199, 204-205, 208, 214-215) is not modelled.
- A Qt spin box's own clamping is not modelled. When a limit moves past the current value, Qt moves the value, and that can fire the other bound's handler.
- The spin-box times that `set_margin` sets (lines 259-264) are not modelled. `Dialogs.TakanamiDialog.SetMargin` models the call the constructor makes (line 124), before the handlers are connected (lines 129-130). A later call would fire `on_start_point_changed`/`on_end_point_changed` through those `setTime` calls, rounding `_start`/`_end` to a sample and moving the limits; that cascade is not modelled.
- Sessions.StartSample: `t * fs` is an exact real product, not the IEEE double product that the source truncates (lines 200-201), so the model can select one sample more when the exact product is an integer (4.100 s at 100 Hz: the double is 409.99999999999994, so the source selects 409 and the model 410).
- Sessions.EndSample: the same exact-real product stands for the double product at lines 209-211, with the same one-sample difference.
- SessionProperties.StartEditCoupling: the strict bound holds with exact arithmetic only; with the source's doubles the gap can be exactly half a second minus one sample (a start edit to 3.600 s and an end edit to 4.100 s at 100 Hz give 360 and 409).
- SessionProperties.EndEditCoupling: holds with exact arithmetic only, for the same reason.
- The arrival-time label (lines 219-221) and the AIC plot (lines 223-225) are display only and not modelled.
- `QSettings` reading in `load_settings` (lines 227-233) is not modelled. The default margin, in samples, is a parameter of `Open`.
- The Takanami estimator (line 75) is not part of this model. It is a function parameter whose `None` answer stands for an exception.
- `rc.Event` is reduced to its `time`. Its other attributes are not modelled.
- Pick tags other than Takanami/automatic/reported collapse into one `Other...` value each, since the record module is not part of this model.
- The constructor takes sample indices. The conversion `int(t * fs)` from seconds (lines 105-106) is not modelled.
- The worker thread, the progress dialog and Qt's signal delivery across threads (`processingdialog`, lines 135-138, 196) are not modelled. Delivery is modelled as handling the task's log in order after the run.
- What the progress dialog does when a run is aborted or its estimator raises is not modelled. The dialog's state is then left as it was.
- `accept`/`reject` closing the dialog (lines 126-127) is not modelled.
