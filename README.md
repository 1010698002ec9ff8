# mac-mouse-paste: the selection-capture engine in Dafny

mac-mouse-paste gives macOS an X11-style primary selection. When the user
selects text by dragging or double-clicking, the engine captures it. A press
of the middle (other) mouse button then pastes it under the pointer. The
engine uses the clipboard as scratch space and writes back the plain text it
read first, so, when `pbpaste` and `pbcopy` both work, a plain-text
clipboard looks unchanged afterwards. This
project models the engine of `src/engine.rs` and proves properties of that
model:

- the lifecycle: `start`, `stop`, `is_running` and the worker's
  `run_event_tap_loop` up to the point where its run loop starts;
- the click-state tracker: the press times, the drag flag and the strict
  500 ms double-click test;
- the two clipboard-swap protocols, `capture_primary_selection_locked` and
  `paste_primary`, over the one-shot selection buffer `PRIMARY_BUF`;
- the event-tap callback `mouse_callback`, which routes each event to the
  tracker and to the protocols.

The process-wide statics (`PRIMARY_BUF`, `LOCK_UNTIL_PASTE`, `IS_DRAGGING`,
`PREV_CLICK_MS`, `CUR_CLICK_MS`, `RUNLOOP_PTR`) and the engine's own state
(the running flag and the worker's handle) are fields of the class
`Engine.Engine`.

The engine's collaborators make up the class `Desktop.Desktop`:

- the clipboard, reached through `pbpaste` and `pbcopy`;
- the synthetic-input injector;
- the foreground application.

Each call to them is appended to one action log. Two flags, fixed for each
`Desktop`, say whether `pbpaste` and `pbcopy` succeed. A failed read yields
`None`, which the engine turns into `""` as `unwrap_or_default` does. A
failed write leaves the clipboard as it was. The foreground application's
reaction to the synthetic Cmd+C is an input, `answer`. `Some(t)` means the
application puts `t` on the clipboard. `None` means it changes nothing,
because nothing is selected or because it has not reacted yet within the
20 ms wait. The wall-clock time of a press is an input, `now`. The worker's
run-loop identity and the outcome of creating the tap are inputs of
`RunEventTapLoop`.

`Text` models Rust's `str::trim`. It strips, from both ends, the characters
with the Unicode White_Space property, which are the ones
`char::is_whitespace` accepts.

The statements proved include:

- a capture with a selection pending and the lock set touches nothing: not
  the buffer, not the clipboard, not the log;
- otherwise a capture issues exactly one copy command and writes back the
  clipboard it read first;
- a capture stores the copied text as it was copied (untrimmed), unless it
  is blank;
- a paste sends one focus click and one paste command at the event's
  location; the paste delivers the pending selection when `pbcopy` works
  (the old clipboard otherwise), provided the target reads the clipboard at
  the paste command (see `Desktop.Desktop.PasteCmdV` under "## Left out");
- a paste writes back the clipboard it read first and always empties the
  buffer;
- when both clipboard utilities work, neither protocol changes the
  clipboard's plain-text content (the only content the model has);
- the buffer never holds a blank string;
- the callback returns its event unchanged;
- the double-click test is strict (499 ms counts, 500 ms does not) and does
  not depend on where the presses were.

Behaviours of the code that the model makes visible:

- When the application does not answer the copy, the second read returns
  the clipboard as it was. If that text is not blank, it becomes the pending
  selection (`Scenarios.UnansweredCopyCapturesClipboard`). A plain drag over
  nothing selectable can therefore arm a paste of the current clipboard.
- When `pbpaste` fails but `pbcopy` works, both protocols save `""` as the
  clipboard to restore and write it back last, so they empty the clipboard.
  When `pbcopy` fails, a capture leaves the application's copy on the
  clipboard.
- `start` reads the running flag and then sets it, in two separate atomic
  operations, so two concurrent starts can both spawn a worker
  (src/engine.rs:47-50).
- The running flag is set before the worker tries to create the tap, so
  `is_running` is true from `start` until a tap failure, before any hook is
  installed (src/engine.rs:50, 347-350, 61).
- `RUNLOOP_PTR` is recorded before the tap is created and stays set when
  creation fails, so a later `stop` signals the run loop of a thread that
  has already exited (src/engine.rs:327, 347-350, 67-73).
- `PREV_CLICK_MS` and `CUR_CLICK_MS` both start at 0 (src/engine.rs:137-138),
  so on a fresh engine the first primary-button release counts as a double
  click (0 - 0 < 500) and runs a capture, with no press or drag before it
  (src/engine.rs:153-157, 306-309; `Scenarios.FirstReleaseCaptures`).
- After a tap failure, the worker's handle is not joined. A later `start`
  replaces it (`Engine.Engine.Start`).

## Model

| member | source | states |
|---|---|---|
| Text.TrimStart | src/engine.rs:226 | the result is a suffix of the input, everything dropped is white space, and a non-empty result does not begin with white space |
| Text.TrimEnd | src/engine.rs:226 | the result is a prefix of the input, everything dropped is white space, and a non-empty result does not end with white space |
| Text.Trim | src/engine.rs:226 | the trimmed form is empty exactly when the input is blank; a non-empty trimmed form begins and ends with a character that is not white space |
| Text.TrimNonEmpty | src/engine.rs:226 | one character that is not white space makes the trimmed form non-empty, so such a copy is kept |
| Text.TrimIdempotent | src/engine.rs:226 | trimming twice gives the same string as trimming once |
| Text.TrimKeepsInner | src/engine.rs:226 | a string with no white space at either end is its own trimmed form |
| Clicks.IsDoubleClick | src/engine.rs:153-157 | the last two presses form a double click exactly when cur - prev < 500; no location is involved |
| Clicks.DoubleClickThreshold | src/engine.rs:153-157 | the comparison against 500 ms is strict: a 499 ms gap is a double click, a 500 ms gap is not, and the test holds exactly when the gap is at most 499 ms |
| Desktop.Injected | src/engine.rs:163-211 | the injector's part of a log has only synthetic-input actions, is no longer than the log, and is empty exactly when the log has no synthetic-input action |
| Desktop.Desktop.Pbpaste | src/engine.rs:105-111 | a read returns the clipboard when the utility works and nothing otherwise, and logs one read |
| Desktop.Desktop.Pbcopy | src/engine.rs:113-129 | a write reports success exactly when the utility works, replaces the clipboard only then, and logs one write |
| Desktop.Desktop.CopyCmdC | src/engine.rs:177-180 | the synthetic copy leaves on the clipboard what the foreground application provides, or the old clipboard when it provides nothing |
| Desktop.Desktop.PasteCmdV | src/engine.rs:182-185 | the synthetic paste delivers whatever is on the clipboard at that moment |
| Desktop.Desktop.FocusClickAt | src/engine.rs:187-211 | one focus click at the given location is sent |
| Engine.Engine.constructor | src/engine.rs:32-39 | a new engine is not running, has no worker and no recorded run loop, an empty buffer with the lock set, no drag and zero press times |
| Engine.Engine.IsRunning | src/engine.rs:42-44 | reports the running flag |
| Engine.Engine.Start | src/engine.rs:46-63 | when already running nothing changes; otherwise the engine runs and holds a new worker that carries the paste-suppression flag |
| Engine.Engine.RunEventTapLoop | src/engine.rs:324-361 | the worker always records its run loop; when the tap cannot be created it clears the running flag and installs no callback, otherwise the callback context carries the worker's paste-suppression flag |
| Engine.Engine.Stop | src/engine.rs:65-84 | the recorded run loop is stopped exactly when one is recorded, the worker is joined exactly when there is one, and afterwards nothing runs, no worker is held and no run loop is recorded |
| Engine.Engine.RecordClickTime | src/engine.rs:147-151 | the current press time becomes the previous one and the new time becomes the current one |
| Engine.Engine.CapturePrimarySelectionLocked | src/engine.rs:213-231 | with the lock set and a selection pending nothing happens; otherwise read, copy, read, write back the first read; the buffer gets the copied text unless it is blank; the injector sends only the copy; the buffer stays non-blank; working utilities leave the clipboard unchanged |
| Engine.Engine.PastePrimary | src/engine.rs:233-247 | with nothing pending nothing happens; otherwise read, write the selection, focus click, paste, write back the first read; the application receives the selection (the old clipboard if the write fails); the buffer always ends empty; working utilities leave the clipboard unchanged |
| Engine.Engine.MouseCallback | src/engine.rs:285-318 | the event is returned unchanged; a null event changes nothing; a middle-button press pastes at its location unless suppressed; a press shifts the press times; a drag sets the drag flag; a release captures exactly on a double click or after a drag and always clears the drag flag |
| Engine.CaptureStepsInjected | src/engine.rs:218-224 | of the four steps of a capture, the copy command is the only synthetic input |
| Engine.PasteStepsInjected | src/engine.rs:236-244 | of the five steps of a paste, the focus click and the paste command, in that order, are the only synthetic inputs |
| Scenarios.DragCaptureThenPaste | src/engine.rs:298-312 | a press, a drag and a release capture "hello", and a middle-button press pastes it at the click's location; the clipboard "X" is back after each protocol and the whole log is the nine expected actions |
| Scenarios.DoubleClickCapture | src/engine.rs:304-310 | a release after two presses captures exactly when the presses are under 500 ms apart, wherever each press was |
| Scenarios.FirstReleaseCaptures | src/engine.rs:306-310 | on a fresh engine a release with no press or drag before it counts as a double click, since both press times start at 0, and captures the application's copy |
| Scenarios.LockKeepsPending | src/engine.rs:213-216 | a second drag while "foo" is pending keeps "foo" (not "bar") and makes no clipboard access and no synthetic input |
| Scenarios.BlankCaptureIsIgnored | src/engine.rs:226-228 | a copy of white space only leaves the empty buffer empty and the clipboard restored |
| Scenarios.UnansweredCopyCapturesClipboard | src/engine.rs:218-230 | when the application does not answer the copy, a non-blank clipboard becomes the pending selection and stays on the clipboard |
| Scenarios.SuppressedPasteKeepsSelection | src/engine.rs:299-303 | with pasting suppressed, a middle-button press after a capture keeps the selection and adds nothing to the log |
| Scenarios.TapFailureThenRestart | src/engine.rs:46-84 | after a tap failure the engine reports not running, a new start makes it run, and a stop signals the new run loop and leaves it stopped |

## Left out

- The menu-bar application in `src/main.rs` is not part of this model; it only calls `start`, `stop` and `is_running`.
- Threads, atomics and races are not modelled. Calls are sequential, and the worker's thread body is the one method `Engine.Engine.RunEventTapLoop`. The race between two starts, and a `stop` that runs while the worker has not yet recorded its run loop, are therefore not captured.
- The worker's blocking run loop (`CFRunLoopRun`) is not modelled. Events reach the model as direct calls of `Engine.Engine.MouseCallback`, and `Engine.Engine.Stop` clears the running flag that the exiting worker would clear.
- The creation of the event tap and its event mask are not modelled (FFI). Creation is a boolean input, and every event kind outside the mask is `OtherEvent`, which the callback ignores.
- The pointer to the callback context and `mem::forget` are not modelled (memory management); the context is a value.
- The `pbpaste` and `pbcopy` subprocesses are not modelled (process I/O). Each `Desktop` fixes whether reads and writes succeed, so a failure that happens on one call only is not modelled. The lossy UTF-8 decoding of `pbpaste` output is not modelled either: clipboard text is a string.
- The 20 ms `usleep` waits are not modelled (timing). The application's answer is settled before the second read, so an answer that arrives after the clipboard is restored is not modelled.
- Desktop.Desktop.PasteCmdV: assumes the target reads the clipboard at the instant of Cmd+V. In the code it has only the 20 ms before `pbcopy` writes the old clipboard back (src/engine.rs:241-244), and a target that reads later pastes the user's old clipboard. The claim that a paste delivers the selection, and the `Injected` trace of `Engine.Engine.PastePrimary`, rest on this assumption.
- The clipboard is modelled as its plain-text content only. The code saves the plain text `pbpaste` returns and writes exactly that back (src/engine.rs:218, 224, 236, 244). An image or rich text on the clipboard is therefore replaced by its plain text, or by `""`, on every capture and every paste, even when nothing is captured. The model cannot express this loss.
- `now_millis` is the input `now`, because a clock cannot be modelled. Press times are unbounded integers, so the 64-bit overflow of `cur - prev` is not modelled; no real timestamps reach it.
- How `CGEvent`s are built and posted is not modelled. The synthetic focus click is one logged action, and the tap seeing it again as a real press is not modelled.
- The `.expect` calls in `send_cmd_key` and `focus_click_at` are not modelled (src/engine.rs:164-170, 190-207). When an event source or event cannot be created, they panic inside the `extern "C"` callback, which aborts the process. The model's injector always succeeds.
- `CGPoint` is a pair of reals that the model only carries along, with no floating-point arithmetic.
- `LOCK_UNTIL_PASTE` is a constant set to true, because no code in `src/engine.rs` changes it.
- A poisoned `PRIMARY_BUF` mutex panics in the source (`unwrap`); that path is not modelled.
