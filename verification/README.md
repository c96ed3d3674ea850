# Responsive sheet: the drag-to-dismiss gesture

`ResponsiveSheet` is a React component that shows a bottom panel on narrow
screens and a centred dialog on wide ones. This project models its one piece
of logic: the touch gesture that lets the user drag the bottom panel down to
dismiss it.

The gesture is a small state machine over a few mutable cells:

- the touch-start position and the latest touch-move position;
- the dragging flag;
- the panel's translation: a pixel offset (`Px(d)`), or fully off-screen (`Full`);
- whether the page-level `touchmove` interceptor is attached to the document;
- how many deferred `onClose` calls have been scheduled;
- whether the sheet is open. While the sheet is closed the component renders
  nothing, so no panel exists.

There are three files:

- `gesture_spec.dfy` (module `GestureSpec`): the cells as a value
  (`SheetState`). It has one function per handler, `Step` for one event and
  `Run` for a sequence of events. It also defines the invariant `Inv` that every
  reachable state keeps: the interceptor is attached exactly while dragging, the
  panel never moves upwards, `Full` only comes with a scheduled close, and a
  closed sheet's panel is at rest.
- `gesture_properties.dfy` (module `GestureProperties`): lemmas over whole event
  sequences. They cover how a drag ends, at most one close per drag, when
  scrolling is suppressed, the stale-position tap, and what a closed sheet does.
- `responsive_sheet.dfy` (module `ResponsiveSheet`): class `GestureSheet`, whose
  fields are the cells and whose methods are the handlers updating them in
  place. Each method is proved to produce exactly the state given by the matching
  `GestureSpec` function, so every lemma about `Run` also holds for the object.

Modelling choices:

- Touch coordinates are integer pixels. The handlers only subtract them and
  compare with 0 and with the threshold 100.
- The deferred `setTimeout(onClose, 300)` is counted, not timed.
- `isOpen` stands for "the panel element exists", which is what the handlers'
  `sheetRef.current` tests check. The handlers keep those tests as branches.
- Closing the sheet (`SetOpen(false)`) leaves the panel at rest for the next
  opening. The reset effect (src/ResponsiveSheet.tsx:24-28) finds the panel
  reference already cleared on close. The next panel shown is at rest because
  reopening mounts a fresh panel element with no inline transform
  (src/ResponsiveSheet.tsx:77, :86-91). Closing does not end a drag or detach
  the interceptor. The component stays mounted while it renders nothing, so its
  refs and the document listener survive.

Two consequences of the code are worth knowing:

- A new touch-start resets only the start position (src/ResponsiveSheet.tsx:40-46),
  not the latest move position. So a tap with no move is measured against the
  last move of an earlier drag. A tap more than 100 px above that position
  dismisses the sheet (`TapUsesStalePosition`, `TapAfterCancelledDragDismisses`).
- Closing the sheet in the middle of a drag neither clears the dragging flag
  nor removes the document listener (src/ResponsiveSheet.tsx:45, :64, :77). The
  listener stays attached and keeps suppressing downward moves
  (`CloseMidDragKeepsInterceptor`).

## Model

| member | source | states |
|---|---|---|
| `GestureSpec.Initial` | src/ResponsiveSheet.tsx:19-22 | The first render starts idle with both positions at 0, at rest, with nothing scheduled, and satisfies the invariant |
| `GestureSpec.TouchStart` | src/ResponsiveSheet.tsx:40-46 | Touch-start records the start position, starts a drag and attaches the interceptor, even when a drag is already running. It keeps the latest move position and the offset |
| `GestureSpec.TouchMove` | src/ResponsiveSheet.tsx:48-57 | When not dragging nothing changes. While dragging the move position is always recorded. The offset becomes `Px(y - startY)` exactly when that distance is positive and the panel exists; otherwise the previous offset stays |
| `GestureSpec.TouchEnd` | src/ResponsiveSheet.tsx:59-75 | When not dragging nothing changes. Otherwise the drag ends and the interceptor is detached on both branches. A distance above 100 gives `Full` and exactly one more scheduled close. A distance of at most 100 (including 100) gives `Px(0)` and schedules nothing. Without a panel the offset and the count are untouched |
| `GestureSpec.SetOpen` | src/ResponsiveSheet.tsx:24-28 | Closing puts the panel at rest. Opening keeps the offset. Nothing else changes, including the drag and the interceptor |
| `GestureSpec.Step` | src/ResponsiveSheet.tsx:40-75 | Every event keeps the invariant. An event adds at most one scheduled close, and only a release during a drag, with a panel and a distance above 100, adds one. A release always leaves no drag. Only a touch-start begins a drag |
| `GestureSpec.Run` | src/ResponsiveSheet.tsx:40-75 | Any event sequence keeps the invariant and never lowers the close count |
| `GestureProperties.CloseBudget` | src/ResponsiveSheet.tsx:40-71 | Closes scheduled plus the pending drag never exceed their starting value plus the number of touch-starts |
| `GestureProperties.AtMostOneClosePerDrag` | src/ResponsiveSheet.tsx:59-71 | After a touch-start, any events without another touch-start (repeated releases included) schedule at most one close |
| `GestureProperties.SecondEndDoesNothing` | src/ResponsiveSheet.tsx:59-61 | A second release with no touch-start in between changes nothing |
| `GestureProperties.IdleWithoutStart` | src/ResponsiveSheet.tsx:40-64 | With no drag, no interceptor and no touch-start, events begin no drag, attach nothing and schedule no close |
| `GestureProperties.NoSuppressionAfterEnd` | src/ResponsiveSheet.tsx:30-64 | After a release, no page `touchmove` is suppressed until the next touch-start |
| `GestureProperties.MovesTrackFinger` | src/ResponsiveSheet.tsx:48-52 | During a drag, moves keep the drag, its start, the interceptor, the open flag and the close count. The latest position is the last move |
| `GestureProperties.UpwardMovesKeepOffset` | src/ResponsiveSheet.tsx:51-56 | Moves that never go below the start position leave the offset exactly as it was when the drag began. A panel at rest stays at rest |
| `GestureProperties.DragOutcome` | src/ResponsiveSheet.tsx:40-75 | Touch-start, at least one move, then release on an open sheet: the drag ends and the interceptor is detached. If the last move is more than 100 below the start, the result is `Full` and one close. Otherwise it is `Px(0)` and no close |
| `GestureProperties.UpwardDragNeverDismisses` | src/ResponsiveSheet.tsx:48-75 | A release after moves that all stayed at or above the start position gives `Px(0)` and schedules nothing |
| `GestureProperties.TapUsesStalePosition` | src/ResponsiveSheet.tsx:40-46 | A tap with no move schedules a close, and sends the panel off-screen, exactly when it lands more than 100 above the previous latest move position |
| `GestureProperties.TapAfterCancelledDragDismisses` | src/ResponsiveSheet.tsx:40-75 | A drag from 200 to 250 schedules nothing. A following tap at 120 schedules one close |
| `GestureProperties.SnapBackThenDismiss` | src/ResponsiveSheet.tsx:30-75 | Drag 200 to 250 gives `Px(50)` and suppresses scrolling at 250; its release gives `Px(0)` and no close. Drag 200 to 320 then release gives `Full` and one close |
| `GestureProperties.ClosedSheetStaysPut` | src/ResponsiveSheet.tsx:54-77 | While the sheet stays closed, touch events leave the panel at rest and schedule no close |
| `GestureProperties.ReopenAtRest` | src/ResponsiveSheet.tsx:77-91 | A sheet opened after being closed shows its panel at rest |
| `GestureProperties.CloseMidDragKeepsInterceptor` | src/ResponsiveSheet.tsx:45-77 | Closing mid-drag removes the panel but keeps the drag and the interceptor, which still suppresses downward moves |
| `ResponsiveSheet.GestureSheet.constructor` | src/ResponsiveSheet.tsx:19-22 | The object starts in `GestureSpec.Initial`, valid |
| `ResponsiveSheet.GestureSheet.TouchStart` | src/ResponsiveSheet.tsx:40-46 | In-place touch-start: new state is `GestureSpec.TouchStart` of the old one. It sets the start position, dragging and the interceptor, and keeps the move position and the offset |
| `ResponsiveSheet.GestureSheet.TouchMove` | src/ResponsiveSheet.tsx:48-57 | In-place touch-move: new state is `GestureSpec.TouchMove` of the old one. The object is unchanged when not dragging |
| `ResponsiveSheet.GestureSheet.TouchEnd` | src/ResponsiveSheet.tsx:59-75 | In-place release: new state is `GestureSpec.TouchEnd` of the old one. The object is unchanged when not dragging; otherwise there is no drag and no interceptor, and at most one more close |
| `ResponsiveSheet.GestureSheet.SetOpen` | src/ResponsiveSheet.tsx:24-28 | In-place change of the open flag: new state is `GestureSpec.SetOpen` of the old one. Closing puts the panel at rest |
| `ResponsiveSheet.GestureSheet.SuppressesDefault` | src/ResponsiveSheet.tsx:30-38 | A page `touchmove` at `y` is suppressed only with the interceptor attached, during a drag and below the start. In a valid object, exactly when dragging and `y - startY > 0` |
| `ResponsiveSheet.DismissByDrag` | src/ResponsiveSheet.tsx:40-75 | On the object: start 200, move 320 gives `Px(120)` with suppression; the release gives `Full` and one close |
| `ResponsiveSheet.TapAfterCancelledDrag` | src/ResponsiveSheet.tsx:40-75 | On the object: a cancelled drag 200 to 250 schedules nothing, and a following tap at 120 dismisses the sheet |

## Left out

- Rendering: the portal into the document body, the backdrop, the title bar and the content region (src/ResponsiveSheet.tsx:79-141). This is view markup with no logic.
- The narrow/wide layout choice. Style classes alone make it, with no code to model.
- The backdrop's and the close buttons' direct `onClose` calls. These are immediate calls, not scheduled closes, and are part of the markup.
- The 300 ms delay of the deferred close. Wall-clock time is not modelled; the model only counts scheduled callbacks, and such a callback is never cancelled.
- Listener identity. The interceptor function is recreated on every render. Within one render, a repeated touch-start passes the same function, and the document ignores a listener that is already registered. After a re-render (for example when the open flag changes mid-drag), a touch-start adds a second copy, and a removal names only the current function. The interceptor is modelled as one boolean.
- Timing of React's reference updates. `isOpen` stands for the panel element existing.
- Fractional `clientY`. Only the first touch point is read, and it is an integer here.
- Touch-cancel. The source registers no handler for it, so there is nothing to model. A cancelled touch leaves the drag running.
- Touch events while the sheet is closed. The model accepts them (the handlers find no panel). In the source, no panel exists to receive them.
- The host page (src/App.tsx): one boolean state toggled by a button and by `onClose`.
