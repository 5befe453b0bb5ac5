# Farm game and exercise capture: a Dafny model

This project models the interactive state of a gamified rehabilitation front end. It has four parts, one Dafny module each.

- **`Farm`** (`farm.dfy`, from `src/component/game.tsx`). The farm screen. It holds the coin wallet and the progress counter, which is capped at 100. It holds the ordered list of placed items. The shop buys an item: it checks the price, debits it, picks a random spawn spot in a band of the canvas and appends the new item. One drag session moves an item. Mouse-down records the grab offset. Mouse-move clamps each axis to the canvas. Mouse-up ends the session. A placed item's picture is looked up by its catalogue id, or by its own id when it has none. The lookup uses the part of that id before the first dash. `CanAfford` (the purchase guard and the enabled state of the buy button, `game.tsx:160,505`) and `AreaOrFallback` (the canvas rectangle or 800 by 600, `game.tsx:168`) are helpers that name one expression each. The screen is the class `Farm.Game`. The position arithmetic, id building and picture lookup are pure functions.
- **`Capture`** (`camera.dfy`, from `src/component/CameraComponent.tsx`). The camera panel. Its state is the held stream, the denied flag, the countdown and the captured still. It also tracks whether its one-second interval is registered and whether it is still mounted. Each interval firing is an explicit `Tick`. The setter's updater is the pure `CountdownStep`. Stopping the camera is a loop over the stream's tracks.
- **`ExerciseFlow`** (`exercises.dfy`, from `src/component/ExercisesComponents.tsx`). The exercises panel. Seven flags move the user from selecting an exercise, to the camera, to the confirmation popup, and then to logging or retaking. The panel holds the activity logger it writes to.
- **`ActivityLog`** (`activity_log.dfy`, from `src/component/ExerciseLogger.tsx`). The activity log. It is one storage slot holding a sequence of entries with millisecond timestamps. It supports append, read-all, read one day, and clear. A missing or unparsable slot reads as empty.

Inputs that come from the browser are method parameters:
- the canvas and item rectangles;
- the pointer sample (mouse, or the first touch point);
- the two `Math.random()` draws, as a real in `[0, 1)`;
- the `Date.now()` reading, the generated log id and the encoded camera frame;
- whether a 2-D canvas context is available;
- whether the storage write throws.

Some functions name a render-time condition and are used in contracts without rows of their own: `Capture.Camera.VideoShown` (the live video is rendered, `CameraComponent.tsx:120-136`), `Capture.Camera.CaptureButtonEnabled` (the take-picture button is shown and enabled, `CameraComponent.tsx:157,175`), `ExerciseFlow.ExercisePanel.ConfirmationShown` (the confirmation popup is shown, `ExercisesComponents.tsx:225`) and `ActivityLog.InDay` (the day-window test, `ExerciseLogger.tsx:143-144`).

Calls to the parent components are recorded in an `events` sequence in call order. Offered log downloads are recorded in `downloads`.

The code falls short of the intended design in a few places. There, the model follows the code:
- **Spawn may leave the canvas.** A bought item spawns with its top anywhere up to five sixths of the canvas height, so a tall item can stick out below the canvas (`Farm.SpawnMayCrossBottomEdge`). When the canvas is narrower than twice the item, the horizontal spawn formula no longer keeps the item inside either.
- **Dragging on a narrow canvas.** If the canvas is narrower than the item, the drag clamp pins the item at the left edge, so it overflows the right edge (`Farm.NarrowCanvasPinsItem`).
- **A second press is not rejected.** A press while a drag is running starts a new session over the old one.
- **Teardown does not release the camera.** The panel's unmount cleanup stops the stream it saw on its first render, which was none. It never clears a running countdown interval. Only the close button stops the tracks. The confirm button and the parent hiding the panel after a capture (`ExercisesComponents.tsx:97-101`) leave the stream live (`Capture.CaptureThenUnmount`, `Capture.UnmountDuringCountdown`).
- **Item ids can repeat.** An item id is the catalogue id plus the millisecond clock, so two purchases of the same item in the same millisecond get the same id. Purchases in different milliseconds, or of different items, always get different ids (`Farm.SpawnIdsDiffer`).

## Model

| member | source | states |
|---|---|---|
| `Farm.Decimal` | src/component/game.tsx:174 | the clock reading is printed as a non-empty run of decimal digits with no leading zero (only 0 prints as a text starting with `0`) |
| `Farm.DecimalRoundTrip` | src/component/game.tsx:174 | the printed digits denote the clock reading again: reading the text back gives the number |
| `Farm.DecimalInjective` | src/component/game.tsx:174 | different clock readings print as different texts |
| `Farm.SpawnId` | src/component/game.tsx:174 | a spawned id is the catalogue id, then a dash, then exactly the printed clock reading |
| `Farm.SpawnIdsDiffer` | src/component/game.tsx:171-174 | two items bought from dash-free catalogue ids share an id only when both catalogue id and millisecond are the same |
| `Farm.BaseId` | src/component/game.tsx:123 | the result is the longest dash-free prefix of the id: a prefix, with no dash, followed by a dash or the end |
| `Farm.BaseIdOfDashFreePrefix` | src/component/game.tsx:123 | a dash-free text followed by nothing or by a dash is the base id of the whole |
| `Farm.BaseIdOfSpawnId` | src/component/game.tsx:171-174 | the text before the first dash of a spawned id is its catalogue id |
| `Farm.ShopItems` | src/component/game.tsx:139-144 | the catalogue has four items with distinct non-empty dash-free ids and positive prices, each less than half the fallback canvas wide |
| `Farm.ItemPicture` | src/component/game.tsx:122-137 | each of the four pictures is chosen exactly when the id's part before its first dash is that item's name; every other id has no picture |
| `Farm.PlacedPicture` | src/component/game.tsx:324-325 | a placed item is drawn with the picture of its catalogue id, or of its own id when the catalogue id is empty |
| `Farm.BoughtItemShowsCataloguePicture` | src/component/game.tsx:324-325 | an item bought from the shop, on any canvas and at any clock reading, is drawn with its catalogue entry's picture, and that picture exists |
| `Farm.SpawnedItemKeepsPicture` | src/component/game.tsx:122-144 | every catalogue item has a picture, and an item bought from it keeps that picture |
| `Farm.Clamp` | src/component/game.tsx:236-237 | the clamped value is never negative and never above a non-negative bound; a value in range is unchanged, a value above a non-negative bound becomes the bound, and a negative value or a negative bound gives 0 |
| `Farm.GrabOffset` | src/component/game.tsx:203-206 | the grab offset added to the item's top-left corner gives back the pointer |
| `Farm.DragTo` | src/component/game.tsx:231-241 | only the position changes; it is never negative and stays inside the canvas on each axis where the item fits; per axis, a target already inside is kept exactly, a target past the far edge of a canvas the item fits puts the item flush against that edge, and a target before the origin puts it at 0 |
| `Farm.GrabAndHoldKeepsPosition` | src/component/game.tsx:203-241 | pressing an item lying inside the canvas and moving to the same pointer leaves it where it was |
| `Farm.NarrowCanvasPinsItem` | src/component/game.tsx:236 | on a canvas narrower than the item, a drag puts it at 0 and it overflows the right edge |
| `Farm.SpawnLeft` | src/component/game.tsx:175 | when the canvas is wider than twice the item, the left edge lies in [item width, canvas width - item width) |
| `Farm.SpawnTop` | src/component/game.tsx:176 | on a canvas of positive height, the top lies in [height/3, height/3 + height/2) |
| `Farm.Spawn` | src/component/game.tsx:166-177 | the new item copies name, price and size, records the catalogue id, gets exactly the spawned id of that catalogue id and clock reading, has the catalogue id before its first dash, and spawns inside the band (800 by 600 when no canvas is mounted) |
| `Farm.SpawnMayCrossBottomEdge` | src/component/game.tsx:168-176 | the wishing well on the fallback canvas with a vertical draw of 0.99 spawns partly below the canvas |
| `Farm.BumpProgress` | src/component/game.tsx:179 | progress rises by 5 and is capped at 100 |
| `Farm.BumpProgressStaysInRange` | src/component/game.tsx:253 | from a value in [0, 100] the bump stays in range, never decreases and increases below 100 |
| `Farm.Game.constructor` | src/component/game.tsx:34-42 | 100 coins, progress 30, no items, no drag, offset (0, 0) |
| `Farm.Game.BuyItem` | src/component/game.tsx:159-184 | unaffordable: coins, items, progress and the shop flag unchanged; affordable: coins drop by the price, exactly the spawned item is appended, progress is bumped, the shop closes; the drag is untouched and the wallet stays non-negative |
| `Farm.Game.MouseDown` | src/component/game.tsx:186-208 | the drag session refers to the pressed item and the offset is pointer minus the item's top-left corner; nothing else changes |
| `Farm.Game.MouseMove` | src/component/game.tsx:210-243 | with no drag or no canvas nothing changes; otherwise only the dragged item moves, to `DragTo`'s position, and all other items and fields stay |
| `Farm.Game.MouseUp` | src/component/game.tsx:245-247 | the drag ends, whether or not one was running; items and wallet unchanged |
| `Farm.Game.ReadyClick` | src/component/game.tsx:250-255 | exactly 10 coins are added, progress is bumped, the missions close and the exercises open |
| `Capture.CountdownStep` | src/component/CameraComponent.tsx:50-56 | the capture fires exactly when the value is 1, and the value is then cleared; values other than 0 and 1 count down by one; 0 and no value both give no value and no capture |
| `Capture.RunTicks` | src/component/CameraComponent.tsx:49-58 | from any countdown value, any number of ticks capture at most once, and exactly once when the value starts in [1, number of ticks]; ticks on a cleared countdown change nothing and capture nothing |
| `Capture.CountdownFrom` | src/component/CameraComponent.tsx:47-57 | from n, the first n - 1 ticks count down without capturing, and the n-th captures once and clears |
| `Capture.ThreeTicksCaptureOnce` | src/component/CameraComponent.tsx:46-58 | from 3, three ticks capture exactly once and clear the countdown; any number of further ticks adds no capture |
| `Capture.Camera.constructor` | src/component/CameraComponent.tsx:9-15 | mounting starts with no stream, no still, no countdown, not denied, and the camera request pending |
| `Capture.Camera.AccessGranted` | src/component/CameraComponent.tsx:18-30 | a mounted panel holds the granted stream and clears the denied flag; after unmount the update is dropped |
| `Capture.Camera.AccessDenied` | src/component/CameraComponent.tsx:31-34 | a failed request sets the denied flag, and the take-picture button is then disabled |
| `Capture.Camera.StopCamera` | src/component/CameraComponent.tsx:38-43 | every track of the held stream is stopped and the stream dropped; with none, nothing changes |
| `Capture.Camera.StartCountdown` | src/component/CameraComponent.tsx:46-49 | the countdown is set to 3 and its interval registered |
| `Capture.Camera.PressCaptureButton` | src/component/CameraComponent.tsx:173-175 | a countdown starts only when no still is shown, no countdown runs and a stream is held; otherwise nothing changes |
| `Capture.Camera.CaptureImage` | src/component/CameraComponent.tsx:62-86 | with the video shown and a 2-D context, the frame becomes the still and is handed to the parent once; otherwise nothing changes |
| `Capture.Camera.Tick` | src/component/CameraComponent.tsx:49-58 | a mounted panel with a registered interval moves the countdown by `CountdownStep`, clearing the interval and capturing on the firing step; otherwise nothing changes |
| `Capture.Camera.RetakePhoto` | src/component/CameraComponent.tsx:89-91 | only the still is cleared |
| `Capture.Camera.ConfirmPhoto` | src/component/CameraComponent.tsx:165-170 | the parent is asked to close and the stream is left as it is |
| `Capture.Camera.CloseButton` | src/component/CameraComponent.tsx:108-112 | all tracks are stopped and the stream dropped before the parent is asked to close |
| `Capture.Camera.Unmount` | src/component/CameraComponent.tsx:94-101 | the panel unmounts with its stream and interval as they were |
| `Capture.CountdownSession` | src/component/CameraComponent.tsx:46-58 | grant, press, press again mid-countdown, four firings: exactly one image reaches the parent, the countdown is cleared and the interval gone |
| `Capture.CloseBeforeCountdown` | src/component/CameraComponent.tsx:108-112 | grant, close button, unmount: no track is left live |
| `Capture.CaptureThenUnmount` | src/component/CameraComponent.tsx:94-101 | grant, full countdown, unmount: one image delivered and the stream's track still live |
| `Capture.UnmountDuringCountdown` | src/component/CameraComponent.tsx:49-58 | unmounting mid-countdown leaves the interval registered, and its later firings capture nothing |
| `ExerciseFlow.ImageOrAbsent` | src/component/ExercisesComponents.tsx:114 | the image is kept exactly when it is present and non-empty |
| `ExerciseFlow.CompletedActivity` | src/component/ExercisesComponents.tsx:109-117 | the activity copies the exercise and category ids and names, is completed, carries the notes, and carries the image when it is non-empty |
| `ExerciseFlow.ExercisePanel.constructor` | src/component/ExercisesComponents.tsx:24-31 | nothing selected, no camera, no still, no confirmation, not completed, empty notes |
| `ExerciseFlow.ExercisePanel.ExerciseClick` | src/component/ExercisesComponents.tsx:84-87 | the exercise and its category are selected together; nothing else changes |
| `ExerciseFlow.ExercisePanel.StartExercise` | src/component/ExercisesComponents.tsx:89-91 | the camera is shown; nothing else changes |
| `ExerciseFlow.ExercisePanel.CloseCamera` | src/component/ExercisesComponents.tsx:93-95 | the camera is hidden; nothing else changes |
| `ExerciseFlow.ExercisePanel.ImageCapture` | src/component/ExercisesComponents.tsx:97-101 | the still is kept, the camera is hidden and the confirmation is shown |
| `ExerciseFlow.ExercisePanel.NotesChange` | src/component/ExercisesComponents.tsx:141-143 | the notes become the edited text; nothing else changes |
| `ExerciseFlow.ExercisePanel.ConfirmImage` | src/component/ExercisesComponents.tsx:103-138 | nothing happens with no exercise or category selected; otherwise the exercise is marked completed and then: success logs exactly the built entry, hides the confirmation, deselects the exercise, offers the whole new log for download, calls completion then close; failure keeps the still, the notes, the confirmation and the log |
| `ExerciseFlow.ExercisePanel.Retake` | src/component/ExercisesComponents.tsx:266-269 | the confirmation is hidden and the camera shown; the still and the notes stay |
| `ExerciseFlow.ExercisePanel.CloseDetails` | src/component/ExercisesComponents.tsx:184-186 | the exercise is deselected; nothing else changes |
| `ExerciseFlow.ExercisePanel.CloseConfirmation` | src/component/ExercisesComponents.tsx:230-232 | the confirmation is hidden; nothing else changes |
| `ExerciseFlow.ExercisePanel.ClosePanel` | src/component/ExercisesComponents.tsx:150-152 | the parent is asked to close |
| `ExerciseFlow.RetryAfterLogFailure` | src/component/ExercisesComponents.tsx:103-136 | after a failed log write, the still, the notes and the confirmation are kept and the exercise is already marked completed; a retry that succeeds logs exactly one entry built from them, then calls completion and close |
| `ActivityLog.ReadLogs` | src/component/ExerciseLogger.tsx:70-86 | a missing or unparsable slot reads as no entries; a saved slot reads as its entries |
| `ActivityLog.StartOfDay` | src/component/ExerciseLogger.tsx:136-140 | the start of day is a midnight at or before the instant and less than one day before it |
| `ActivityLog.LogsInDay` | src/component/ExerciseLogger.tsx:142-145 | an entry is in the result exactly when it is in the log and its timestamp lies in [start, start + 1 day), and it appears as many times as in the log |
| `ActivityLog.LogsInDayIsSubsequence` | src/component/ExerciseLogger.tsx:142-145 | the filter keeps the log's order: its result is a subsequence of the log |
| `ActivityLog.ConsecutiveDays` | src/component/ExerciseLogger.tsx:134-146 | an entry at 23:59:59 is reported for its day and not the next; one at 00:00:00 of the next day is reported for that day only |
| `ActivityLog.ExerciseLogger.constructor` | src/component/ExerciseLogger.tsx:159-160 | the logger starts over the slot left by earlier sessions, with no downloads |
| `ActivityLog.ExerciseLogger.LogExerciseActivity` | src/component/ExerciseLogger.tsx:111-126 | success: the entry has every input field plus the given id and timestamp, the log grows by exactly that entry at the end, the whole log is saved and offered for download, and the entry is returned; a failing write changes nothing and rejects |
| `ActivityLog.ExerciseLogger.GetExerciseLogs` | src/component/ExerciseLogger.tsx:129-131 | returns the log, empty when the slot is missing or unparsable |
| `ActivityLog.ExerciseLogger.GetExerciseLogsByDate` | src/component/ExerciseLogger.tsx:134-146 | returns exactly the entries stamped in the day of the date, in log order, as a subsequence of the log, each as many times as it occurs in the log |
| `ActivityLog.ExerciseLogger.ClearLogs` | src/component/ExerciseLogger.tsx:149-151 | the slot is removed and the log reads as empty |
| `ActivityLog.LogThenRead` | src/component/ExerciseLogger.tsx:111-131 | after logging, reading the log gives the earlier entries followed by the returned entry, which carries the given activity, id and timestamp |

## Left out

- Rendering, styling, the welcome, entrance, jumping and encouragement animations, the visit-player screen, the mock player list and the notifications panel: view glue with no state logic.
- The cashier sound (`game.tsx:67-74`): a fire-and-forget effect whose failure is only logged.
- Event-listener registration for dragging (`game.tsx:258-272`) and `preventDefault`: each mouse, touch and release event is a method call instead.
- The buttons that open the shop, missions and exercises lists: only the flags that `BuyItem` and `ReadyClick` write are modelled.
- Floating-point rounding: coordinates are exact reals and only the `Math.floor` of a draw is modelled.
- `Date.now`, `Math.random`, `generateId`, `getBoundingClientRect`, `getUserMedia`, `toDataURL`: their results are parameters.
- Binding the stream to the video element (`srcObject`) and the canvas resizing before drawing: display effects with no state in the model.
- JSON serialization of the log: the slot holds the entries themselves, so the date re-hydration in `getLogs` is the identity on millisecond timestamps. A storage read that throws (storage disabled) is not modelled.
- The file name and encoding of the offered download and the `exportLogsToFile` helper (`ExerciseLogger.tsx:94-108,163-176`): only the offered log contents are recorded.
- Local-time calendar arithmetic: a day is a fixed 86 400 000 ms window starting at a multiple of that span, so time zones and daylight-saving days are not modelled.
- The alerts shown after logging: blocking dialogs with no effect on state.
- The await inside the confirm handler: the log call and its outcome are one step, so user actions that interleave with a pending log write are not modelled.
- The camera panel inside the exercises panel: `ExerciseFlow` models only the `showCamera` flag, and `Capture` models the panel on its own.
- A state update reaching an unmounted camera panel is dropped. React's eager evaluation of a queued updater, and StrictMode's double invocation of updaters, are not modelled.
- An empty captured frame: `toDataURL` always returns a `data:` URL, so the camera panel treats a held still as present (`Capture.Camera.VideoShown` and `Capture.Camera.CaptureButtonEnabled` test `capturedImage.None?`). The source tests truthiness, which would treat an empty frame as absent; that case cannot arise, so it is not modelled.
