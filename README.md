# Media transform and timed-playback controller

This project models the controller inside the `Home` component of a small
video-editor page. A user drops an image or a video clip into a viewport,
drags it around, resizes it from its corner handles, and plays a time
sub-range of it once: the clip plays from the range's start, and the first
tick that finds the cursor at or past the range's end stops it and hides it.
In the model's whole tenths of a second that is the tick after the cursor
reaches the end; with the program's floating-point sums it can be one tick
later (see "## Left out").

The model has four modules:

- `Geometry` holds the pure drag clamp and the resize `switch`. Pixels are integers.
- `Sidebar` holds the numeric fields' change handlers (`Number(val) || default`).
- `Playback` holds the playback clock as values. Time is integer tenths of a
  second, and one tick is 100 ms. It proves the play-once-then-hide
  behaviour and termination.
- `Editor` holds the class `Home`. Its fields are the component's state, the
  host's registry of live interval timers, and the range that the running
  interval's callback captured. Its methods are the event handlers. The
  playback, drag, resize and sidebar-field handlers are proved against the
  `Playback`, `Geometry` and `Sidebar` functions. The pointer-up,
  click-outside and resize start and end handlers state their new fields
  directly. The timer handlers keep the invariant `Valid()`: an interval
  timer is live exactly while playing, and at most one is live. The other
  handlers cannot change the fields it reads.

In the points below the code behaves in ways a reader may not expect; the
model follows the code in each.

- The tick compares the cursor with the range captured when playback started. Editing the range while playing has no effect on the running interval.
- The tick checks `time >= end` before it advances. With the range 1 s to 3 s, the cursor is at 3.0 s after 2.0 s of ticks and the clip still plays and is shown. The 21st tick hides the clip and moves the cursor back to 1 s, not to 3 s.
- Only the four corner resize handles have a case. The edge handles leave the size unchanged, and no upper bound (1920 × 1080) applies on this path.
- A cleared or non-numeric sidebar entry becomes a fixed default (400, 300, 0 s, 5 s). It does not keep the prior value.
- The End Time field writes the range's start, not its end. This is most likely a defect. The model reproduces it (`Sidebar.EndChanged`, `Sidebar.EndFieldMovesStart`).
- Loading and removing media rewind the cursor to 0, not to the range's start. Loading does not reset the selection or the dimensions.

## Model

| member | source | states |
|---|---|---|
| `Geometry.Clamp` | app/page.tsx:135-136 | the result is never negative; it is at most the bound when the bound is non-negative and exactly 0 when the bound is negative; an in-range value is unchanged, and a value past either end goes to that end |
| `Geometry.DragTo` | app/page.tsx:125-139 | each axis of the result is `Clamp` of that axis of the requested point (pointer − origin − offset) on its own: ≥ 0, ≤ container − media when the media fits on that axis, pinned to the nearer edge when the request is past it, and 0 when the media does not fit; a fitting media ends inside the container; a request already inside is taken as is |
| `Geometry.DragRoundTrip` | app/page.tsx:113-136 | pointer-down and a move to the same pointer point leave an in-bounds position unchanged, because the grab offset cancels |
| `Geometry.DragFollowsPointer` | app/page.tsx:113-136 | with the container fixed, the media moves by exactly the pointer's displacement while the target stays inside |
| `Geometry.Resize` | app/page.tsx:152-178 | for a corner, each side is ≥ 100 and equals max(100, start ± delta), with − for left/top and + for right/bottom; an edge handle leaves the size equal to the size at pointer-down |
| `Geometry.ResizeOutward` | app/page.tsx:160-175 | pulling any corner outward by k grows both sides to max(100, start + k): there is no ceiling |
| `Geometry.ResizeRoundTrip` | app/page.tsx:153-176 | a pointer back at its pointer-down point restores any size at or above the floor, for every handle |
| `Playback.Start` | app/page.tsx:60-83 | starting rewinds to the range's start, shows the media, captures the range and establishes the cursor invariant |
| `Playback.Toggle` | app/page.tsx:51-85 | it flips playing; a pause keeps the cursor, visibility and captured range; a play starts at the current range's start with the media shown; the invariant holds afterwards |
| `Playback.Tick` | app/page.tsx:67-81 | playback continues iff the cursor was below the captured end; if so the cursor advances by exactly one tenth and visibility is kept; otherwise the media is hidden and the cursor is back at the captured start; the invariant is preserved |
| `Playback.Run` | app/page.tsx:67-83 | n ticks keep the captured range and the invariant, and change nothing once stopped |
| `Playback.Reset` | app/page.tsx:87-98 | whatever the prior state, playback is stopped, the media shown and the cursor at the current range's start |
| `Playback.Discard` | app/page.tsx:100-111 | after a load or a removal, playback is stopped, the media shown and the cursor at 0 |
| `Playback.RunBelowEnd` | app/page.tsx:69-80 | while the cursor stays at or below the captured end, each tick advances it by one step and playback continues |
| `Playback.PlayingThroughRange` | app/page.tsx:61-80 | after k ≤ end − start ticks from a start, the clip is playing, shown and at start + k |
| `Playback.StopsOnTickAfterEnd` | app/page.tsx:67-79 | in whole tenths, tick number end − start + 1 stops playback, hides the media and rewinds to start |
| `Playback.StopsWithin` | app/page.tsx:67-81 | every playing clock stops within max(start, end) − time + 1 ticks, hidden and rewound to the captured start |
| `Playback.TwoSecondClip` | app/page.tsx:61-83 | the range 0 s to 2 s plays for 20 ticks up to 2.0 s, and the 21st tick stops it, hides it and rewinds to 0 |
| `Playback.OneToThreeSeconds` | app/page.tsx:61-83 | the range 1 s to 3 s is at 3.0 s and still playing after 20 ticks; the 21st tick hides it and rewinds it to 1 s |
| `Playback.ToggleTwice` | app/page.tsx:51-85 | play followed by pause leaves playback stopped and shown, with the cursor at the range's start |
| `Playback.ResetIdempotent` | app/page.tsx:87-98 | reset twice is reset once |
| `Sidebar.OrElse` | app/page.tsx:237-265 | `Number(val) \|\| d` is d exactly for 0 and NaN, and the number otherwise |
| `Sidebar.WidthChanged` | app/page.tsx:237 | the Width field keeps the height and sets the width to the entry, or to 400 if the entry is falsy |
| `Sidebar.HeightChanged` | app/page.tsx:245 | the Height field keeps the width and sets the height to the entry, or to 300 if the entry is falsy |
| `Sidebar.StartChanged` | app/page.tsx:258 | the Start Time field keeps the end and sets the start to the entry, or to 0 if the entry is falsy |
| `Sidebar.EndChanged` | app/page.tsx:265 | the End Time field never changes the end; it sets the start to the entry, or to 5 s if the entry is falsy |
| `Sidebar.FallbackIgnoresPrior` | app/page.tsx:237-265 | a falsy entry yields the fixed default whatever the prior dimensions or range |
| `Sidebar.EndFieldMovesStart` | app/page.tsx:262-268 | typing 3 s into End Time on the range 0 s to 5 s gives the range 3 s to 5 s |
| `Editor.StartsWith` | app/page.tsx:39 | `startsWith` holds iff the prefix fits and the string's leading part equals it |
| `Editor.Home.AtMostOneTimer` | app/page.tsx:43-107 | under the invariant at most one interval is live, and one is live iff playing |
| `Editor.Home.constructor` | app/page.tsx:9-24 | the initial state: no file, 400 × 300 at (0, 0), range 0 s to 5 s, stopped at 0 and shown, not dragging, not selected, no timer |
| `Editor.Home.ClearTimer` | app/page.tsx:104-106 | it cancels the interval `timerRef` names, if any, and keeps the handle |
| `Editor.Home.HandleDrop` | app/page.tsx:34-49 | the first file is loaded; isVideo iff its MIME type starts with `video/`; position (0, 0); playback is discarded and no timer is live; dimensions, range and selection are unchanged |
| `Editor.Home.TogglePlayback` | app/page.tsx:51-85 | the clock follows `Playback.Toggle` with the current range; a pause leaves no live timer; a play starts exactly one fresh interval; the invariant is kept |
| `Editor.Home.Tick` | app/page.tsx:67-82 | a firing of the live interval follows `Playback.Tick`; the interval cancels itself exactly when playback stops; the invariant is kept |
| `Editor.Home.ResetTimer` | app/page.tsx:87-98 | the clock follows `Playback.Reset` with the current range and no timer is live |
| `Editor.Home.RemoveMedia` | app/page.tsx:100-111 | no file and not a video; position (0, 0); playback is discarded and no timer is live; dimensions and range are unchanged |
| `Editor.Home.MediaMouseDown` | app/page.tsx:113-123 | it records the grab offset against the container origin, starts a drag and selects the media |
| `Editor.Home.MouseMove` | app/page.tsx:125-139 | while dragging, the position becomes the clamped `Geometry.DragTo` against the live container size and current dimensions; otherwise nothing moves |
| `Editor.Home.MouseUp` | app/page.tsx:141-143 | the drag ends and nothing else changes |
| `Editor.Home.BeginResize` | app/page.tsx:145-151 | a resize gesture captures the handle, the pointer and the current size, and no drag starts |
| `Editor.Home.ResizeMove` | app/page.tsx:152-179 | during a resize, the dimensions become `Geometry.Resize` of the captured size and the pointer delta; the position is not re-clamped |
| `Editor.Home.EndResize` | app/page.tsx:181-184 | pointer-up ends the resize gesture |
| `Editor.Home.ClickOutside` | app/page.tsx:202-207 | afterwards the media is selected iff it was selected and the click was inside the container |
| `Editor.Home.ChangeWidth` | app/page.tsx:237 | the dimensions follow `Sidebar.WidthChanged` |
| `Editor.Home.ChangeHeight` | app/page.tsx:245 | the dimensions follow `Sidebar.HeightChanged` |
| `Editor.Home.ChangeStart` | app/page.tsx:258 | the range follows `Sidebar.StartChanged` and the running clock is untouched |
| `Editor.Home.ChangeEnd` | app/page.tsx:265 | the range follows `Sidebar.EndChanged` and the running clock is untouched |
| `Editor.PlayThenPause` | app/page.tsx:51-85 | play followed at once by pause leaves playback stopped and shown at the range's start, with no residual live interval |
| `Editor.EditEndWhilePlaying` | app/page.tsx:67-79 | editing End Time while playing leaves the running clock, including its captured end, unchanged |

## Left out

- The `<video>` element's `play`, `pause` and `currentTime` writes (app/page.tsx:56-57, 63-66, 73-75, 94-97) are not modelled. They are calls into the browser's media element, and no state of this component depends on them.
- `URL.createObjectURL` and the `preview` URL (app/page.tsx:37-38, 102) are not modelled. A file is represented by its name and MIME type only.
- The container's `getBoundingClientRect` and `contains` are replaced by parameters: the container origin and size for drag moves, and an inside/outside flag for the document click.
- The registration and removal of document listeners (app/page.tsx:186-187, 190-213) are not modelled. A drag or resize move is an explicit method call. The resize listeners are one `resizing` gesture field.
- The unmount cleanup that cancels the interval (app/page.tsx:26-32) is not modelled. It belongs to the component's teardown, after which no handler runs.
- `setInterval`'s timing is not modelled. A tick is an explicit call on a live handle.
- Floating-point accumulation of 0.1 and the `toFixed(1)` display (app/page.tsx:80, 294) are not modelled. Time is counted in whole tenths.
- `Playback.StopsOnTickAfterEnd`: holds for whole tenths only. The program adds the double 0.1 on each tick, so the cursor can land just below the end, take one extra tick and pass the end by 0.1 s: from 0, fifty additions give 4.999999999999998, so the range 0 s to 5 s (the only end the page can reach, since the End Time field never writes the end) stops on tick 52 at 5.1 s, not on tick 51. The tick count end − start + 1 and `Playback.Inv`'s bound time ≤ max(start, end) are likewise exact only for whole tenths; `Playback.StopsWithin` and `Playback.PlayingThroughRange` carry the same caveat. The ranges 0 s to 2 s and 1 s to 3 s stop on tick 21 with doubles too.
- React's render batching is not modelled. Each handler sees the state left by the previous handler. Two events handled against the same stale render are outside the model.
- JSX rendering is not modelled (app/page.tsx:215-390). That includes which controls are shown when (the drop zone only without a file, the handles only while selected, the Remove button only with a file). Every handler may be called in any state.
- `Editor.Home.HandleDrop`: it requires at least one file, because the drop zone calls it only with accepted files. The code would fail on an empty list.
