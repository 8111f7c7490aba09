# Screen-automation bot: detector state machine and capture geometry

This project models the two parts of the bot that carry logic of their own.

- **The detector loop** (`Screendetect.run`, module `ScreenDetect` in `screendetect.dfy`). This is a closed
  five-state machine: Idle, Detect, Exit, Play, Load. In Detect it polls three pixels in a fixed priority
  order: play-again, then loading, then defeated. It switches to the state of the first test that matches.
  Each action state sends a fixed sequence of pointer actions and falls back to Idle. Idle waits and then
  returns to Detect. One loop iteration is the pure function `Step(detector, observation)`. It returns the
  next detector, the actions sent (`LeftClick(point)`, `RightButtonUp`) and the time the loop body explicitly sleeps, in
  milliseconds.
  `Run` (a function) and `RunLoop` (a loop) chain iterations, one per observation.
- **Window geometry** (`WindowCapture.__init__` and `get_screen_position`, module `WindowCapture` in
  `windowcapture.dfy`). Construction first resolves the window handle: no name means the desktop, and a
  name that does not resolve raises an exception. The model calls that error `WindowNotFound`. It then cuts a border of `scaling` pixels and a
  titlebar of `33*scaling` pixels off the outer rectangle. From that it fixes the cropped size, the crop
  origin, the screen offset and the region the capture copies from. `GetScreenPosition` translates points
  of the cropped image by the offset.

`wrappers.dfy` holds `Option`/`Result`. `points.dfy` holds integer `Point`s with `Add`/`Sub`.

Each pixel test is modelled as a `Probe`: `Match`, `NoMatch` or `Raised` (sampling threw). The source runs
the tests lazily in an `if/elif` chain inside one `try` with a bare `except: pass`. A raise therefore only
matters in a test that actually ran, and it leaves the state unchanged. The model reflects this: a raise
in the play test abandons the chain, and so does a raise in the load test after play did not match. A
raise in the defeated test is the same as no match.

Nothing in the source guards a window smaller than the border and titlebar allowances. The model follows
the code: `w` and `h` may be zero or negative, and `CroppedSizePositiveIff` states exactly when they are
positive.

## Model

| member | source | states |
|---|---|---|
| ScreenDetect.Init | project/screendetect.py:31-42 | a new detector starts in Detect and keeps the window size and the four sample points it was given |
| ScreenDetect.Step | project/screendetect.py:53-103 | one iteration: Idle goes to Detect with no action. From Detect, Play iff play matched, Load iff play did not match and load did, Exit iff neither matched and defeated did; no match, or a raise in a test that ran, stays in Detect; Detect never acts. Play clicks once at the play button, Load does nothing, Exit releases the right button then clicks the exit button, and all three go to Idle. Size and sample points are never changed, clicks only hit the two buttons, and no iteration's explicit sleeps add up to more than 5050 ms, which only Exit reaches |
| ScreenDetect.DetectIsPriorityScan | project/screendetect.py:59-80 | from Detect, the next state equals an independent priority scan over the tests play, load, defeated: the first raise abandons the scan, the first match wins, otherwise Detect |
| ScreenDetect.Run | project/screendetect.py:53-103 | over any number of iterations: construction values are unchanged, every click targets the play or exit button, every right-button release is immediately followed by an exit-button click, and the total explicit sleep is at most 5050 ms per iteration |
| ScreenDetect.RunLoop | project/screendetect.py:53-54 | the iterative loop computes exactly the trace of `Run` for the same observations |
| ScreenDetect.BackToDetectWithinTwoSteps | project/screendetect.py:55-103 | whatever the pixels show, the loop is back in Detect within two iterations |
| ScreenDetect.EveryStateReachable | project/screendetect.py:35-103 | each of the five states is reached from a new detector within two iterations for some observations |
| WindowCapture.ResolveWindow | modules/windowcapture.py:58-63 | no name gives the desktop handle; a name gives its window's handle, and fails exactly when no window has that title; the model calls the raised exception `WindowNotFound` |
| WindowCapture.Open | modules/windowcapture.py:56-98 | construction succeeds exactly when resolution does; the geometry is computed from the resolved window's own rectangle, the scaling and the focused-window setting |
| WindowCapture.GetDimension | modules/windowcapture.py:131-132 | the returned size plus twice the border equals the outer width, and plus titlebar and border equals the outer height |
| WindowCapture.AllowancesFollowScaling | modules/windowcapture.py:79-85 | the border is `scaling` pixels, the titlebar `33*scaling`, and the crop origin is (border, titlebar) |
| WindowCapture.CroppedSizePositiveIff | modules/windowcapture.py:65-83 | the cropped width is positive iff the outer width exceeds `2*scaling`, and the height iff the outer height exceeds `34*scaling` |
| WindowCapture.OffsetIsCropOriginOnScreen | modules/windowcapture.py:87-91 | the offset is the window's top-left corner plus the crop origin, and the image origin (0,0) maps to it |
| WindowCapture.ScreenPositionIsTranslation | modules/windowcapture.py:111-117 | the screen mapping preserves the vector between any two points |
| WindowCapture.ScreenPositionRoundTrip | modules/windowcapture.py:111-117 | the inverse translation undoes the screen mapping, in both directions |
| WindowCapture.CroppedImageIsClientArea | modules/windowcapture.py:79-90 | a point lies in the cropped image iff its screen position lies in the window's area without border and titlebar |
| WindowCapture.CaptureSourceIsOffset | modules/windowcapture.py:93-98 | focused mode copies from the window's own context at the crop origin, and otherwise from the screen at the offset; both place the same screen region |

## Left out

- ScreenDetect.Step: input actions (`pyautogui.click`, `pyautogui.mouseUp`) are assumed not to raise. They
  sit outside the `try`, so in the source a failing action, such as pyautogui's fail-safe, ends the loop
  thread and leaves the state at Play or Exit. The model's action states always reach Idle. The `print`
  logging in the Detect branch is not modelled either.
- ScreenDetect.Step: `delayMs` counts only the loop body's own `sleep` calls. Time spent inside the pointer
  and sampling calls is not counted, including pyautogui's pause after each call. So 5050 ms bounds the
  explicit sleep of one iteration, not its wall-clock length or how long a stop request goes unnoticed.
- Sleeps: they appear only as the `delayMs` of each step. Real time, the lock and the threads of
  `start`/`stop` are not modelled. The stop flag is the length of the observation sequence: the loop runs
  one iteration per observation.
- The `stopped` attribute: it is only created by `start`, so calling `run` directly would raise. This is
  not modelled.
- Colour matching (`pyautogui.pixelMatchesColor` with tolerance 15, and the three target colours): this
  is a library call. It is modelled only by its outcome, a `Probe`.
- Sample-point placement (`round(w*0.5929)` and the like) and `get_brawler_center`: these use float
  arithmetic with Python rounding. The points are opaque inputs of `Init`.
- DPI discovery through tkinter and `windll`: these are OS calls. `scaling` is an input.
- The screen resolution query: an OS call that the geometry does not use.
- The perspective matrix (`find_perspective`, `transform_coordinate`) and the tile scaling: floating-point
  projective math delegated to OpenCV.
- Screenshot capture (`get_screenshot`), the capture loop and its FPS averaging: these involve device
  contexts, bitmap bytes, wall-clock time and floats.
- `focus_window` and `list_window_names`: OS plumbing.
- WindowCapture.Open: requires that the window system reports a rectangle for every handle it hands out.
  `GetWindowRect` failing on a stale handle is not modelled.
