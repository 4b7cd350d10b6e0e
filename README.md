# Music player core, modelled in Dafny

The player is a browser music player written in React. This project models
four of its parts and proves what they promise:

- `App` (app.dfy). The player state of App.tsx: the track index over a fixed
  catalog of `n > 0` tracks, the playing flag, shuffle and repeat modes, the
  audio element's position, the lazily built audio graph, and the track last
  loaded into the element. It covers next (sequential or shuffled),
  previous-or-rewind, the repeat cycle off → all → one, the end-of-song
  decision, play/pause with one-time graph setup, the reload effect run on a
  track change, and the `m:ss` clock text of `formatTime`.
- `LyricsDisplay` (lyrics_display.dfy). The active lyric line: a
  `findIndex` search for the line whose interval `[time_k, time_k+1)` holds
  the playback time. Also the past / active / upcoming state of every line,
  and the marker of the line last scrolled to.
- `BubbleBackground` (bubble_background.dfy). The audio-reactive
  background. Each frame sums the analyser's byte snapshot, computes
  `scale = 1 + (average / 128) * 0.5`, and writes that scale into every
  mounted bubble slot. When the player is not playing or has no analyser,
  every bubble goes back to scale 1 and the frame loop stops. The bubble
  list is cut to 15 entries.
- `WaveformVisualizer` (waveform_visualizer.dfy). The bar chart. Each
  frame makes one full clear and then one `fillRect` per bin, left to right.
  Bars are `(width / bins) * 1.5` wide with a 2-pixel gutter, `value / 2.5`
  tall and stand on the bottom edge. When the gate is closed the canvas is
  cleared and nothing is scheduled.
- `Types` (types.dfy). `RepeatMode` and `LyricLine` as the application
  declares them, an `Option` for nullable references, and the `Byte` of a
  `Uint8Array` snapshot.

Modelling choices:

- Times (playback position, lyric times) are exact `real`s; floating-point
  rounding and NaN are not modelled. Arithmetic on bars and scales is exact
  `real` arithmetic too.
- `Math.random()` is an input: the shuffle loop reads a sequence of drawn
  values, each in `[0, 1)`. Its precondition asks that the draws end the
  loop; the probability of ending is not modelled.
- The animation-frame loop of each effect is a count `liveFrames` of pending
  `requestAnimationFrame` callbacks. `RunEffect` is the React effect. It
  includes the previous run's cleanup, which cancels that run's pending
  frame. `Frame` is a pending callback firing. Both classes keep
  `liveFrames <= 1`: two effect runs in a row never leave two frame chains.
- The canvas is the log `ops` of 2D-context calls. `Painted` gives the
  rectangles that stay visible after them.
- A bubble slot is `Option<real>`: `None` is a null slot, `Some(s)` a
  mounted bubble whose `style.scale` is `s`.
- Presence of the audio element, canvas and 2D context is a constant flag
  fixed at construction. Presence of the analyser is an input of each effect.
- `HTMLMediaElement.load()` rewinds the element, so a reload sets the
  position to 0.

Two facts about the code that a reader might not expect:

- The code does not keep bars on the canvas. With the 500-pixel canvas and
  128 bins, the last bar starts at about 998 pixels
  (`WaveformVisualizer.LastBarPastCanvas`).
- The bubbles also reset when the analyser is absent while playing, because
  the gate is `!analyser || !isPlaying`. The waveform's effect likewise
  clears the canvas whenever `isPlaying && analyser` is false.

## Model

| member | source | states |
|---|---|---|
| `App.NextIndex` | App.tsx:71-73 | The next index is below `n`: the track after `i`, or 0 after the last track. |
| `App.PrevIndex` | App.tsx:80 | The previous index is below `n`: the track before `i`, or `n - 1` before the first. |
| `App.PrevInvertsNext` | App.tsx:71-82 | Stepping back undoes stepping forward, and stepping forward undoes stepping back. |
| `App.DrawIndex` | App.tsx:68 | `floor(random * n)` of a value in `[0, 1)` is an index in `[0, n)`. |
| `App.ShuffleDraw` | App.tsx:65-70 | The do-while loop consumes at least one draw. The index it returns is in `[0, n)` and is the value of the last draw consumed. Every earlier draw gave the current track. With `n > 1` there are no repeats; with `n = 1` the index is 0 after one draw. |
| `App.ModeIndex` | App.tsx:100-101 | `indexOf` always finds the mode in `['off', 'all', 'one']`, at a position holding that mode. |
| `App.NextRepeatMode` | App.tsx:99-103 | One press moves off → all, all → one, one → off. |
| `App.RepeatCycleReturns` | App.tsx:99-103 | Three presses return every mode to itself; one or two presses never do. |
| `App.SongEndAction` | App.tsx:136-147 | The end of a song replays exactly when repeat is `one`. It stops exactly when repeat is `off` on the last track. Otherwise it advances. |
| `App.SongEndAdvances` | App.tsx:142-143 | With repeat `all`, or with repeat `off` on any track but the last, the end of a song advances. |
| `App.ParseNatInvertsNatToString` | App.tsx:181 | Reading back the decimal text of a number gives the number. |
| `App.Trunc` | App.tsx:180 | The quotient JavaScript's `%` uses: rounding toward zero, so `k <= x < k + 1` for `x >= 0` and `k - 1 < x <= k` for `x < 0`. |
| `App.JsRem` | App.tsx:180 | For a positive divisor, the remainder has the sign of the dividend and is smaller than the divisor in magnitude: in `[0, b)` for `a >= 0`, in `(-b, 0]` for `a < 0`. |
| `App.NatToString` | App.tsx:181 | The decimal text of a natural number is non-empty, all digits, and one character long exactly below 10. |
| `App.IntToString` | App.tsx:181 | The decimal text of an integer is non-empty and starts with `-` exactly when the integer is negative; the rest is digits. |
| `App.FormatTime` | App.tsx:178-182 | Minutes are JavaScript's floor of `t / 60`, seconds the floor of the truncating remainder `t % 60`. For `t >= 0` the text is the minutes, a colon and exactly two second digits; the seconds are in `[0, 59]` and `60 * minutes + seconds` is the whole seconds of `t`. For `t < 0` the floored minutes are negative, so the text starts with `-`. |
| `App.ClockTextRoundTrip` | App.tsx:181 | Reading back the text `m:ss` printed for minutes `m` and seconds `ss < 60` gives `60 * m + ss`. |
| `App.FormatTimeRoundTrip` | App.tsx:178-182 | For `t >= 0`, reading back the `m:ss` text gives the whole seconds of `t`. |
| `App.FormatWholeSecondsRoundTrip` | App.tsx:178-182 | A whole number of seconds reads back from its clock text unchanged. |
| `App.Player.constructor` | App.tsx:20-36 | The player starts at track 0: paused, no shuffle, repeat off, no audio graph, nothing loaded. |
| `App.Player.SetupAudioContext` | App.tsx:40-54 | The audio graph is built only when none exists and the element is present, and then exactly once. |
| `App.Player.PlayPause` | App.tsx:56-62 | Play/pause flips the playing flag. It builds the graph on first use only, so `graphsBuilt` never exceeds 1. |
| `App.Player.Next` | App.tsx:64-74 | Without shuffle the index becomes `(i + 1) mod n`. With shuffle it is the first draw that differs from the current track (the first draw when `n = 1`). |
| `App.Player.Prev` | App.tsx:76-82 | Past 3 s the element rewinds to 0 and the index stays. Otherwise the index becomes `(i - 1 + n) mod n` and the position stays. |
| `App.Player.ToggleRepeat` | App.tsx:99-103 | The repeat mode moves one step along the cycle. |
| `App.Player.ToggleShuffle` | App.tsx:84 | The shuffle flag flips. |
| `App.Player.SelectTrack` | App.tsx:131-134 | A track picked from the queue becomes current and starts playing. |
| `App.Player.Seek` | App.tsx:117-121 | The element's position becomes the sought time; without an element nothing changes. |
| `App.Player.Close` | App.tsx:87-97 | Closing stops playback and rewinds the element. |
| `App.Player.SongEnd` | App.tsx:136-147 | Repeat `one` rewinds and keeps the index. Advancing behaves like next. Repeat `off` on the last track stops playing and keeps index and position. |
| `App.Player.SyncTrack` | App.tsx:149-172 | The effect reloads (and rewinds) exactly when the index differs from the last loaded one; afterwards the two are equal. It then plays or pauses the element, and a rejected play clears the playing flag. |
| `LyricsDisplay.IsActiveAt` | components/LyricsDisplay.tsx:16-17 | The `findIndex` test for line `k`: its time is at most `t`, and it is the last line or the next line's time is above `t`. |
| `LyricsDisplay.FindFrom` | components/LyricsDisplay.tsx:15-18 | The search from position `from` returns the first active line at or after `from`, or -1 when none is active. |
| `LyricsDisplay.ActiveLyricIndex` | components/LyricsDisplay.tsx:15-18 | The result is -1 or a line index, and -1 for no lyrics. A found line has started and its successor has not. It is the smallest such line, and -1 exactly when no line qualifies. |
| `LyricsDisplay.SomeLineActive` | components/LyricsDisplay.tsx:15-18 | Once the first line has started, some line is active, whatever the order of the times. |
| `LyricsDisplay.NoLineBeforeFirst` | components/LyricsDisplay.tsx:15-18 | With non-decreasing times, no line is active before the first line's time. |
| `LyricsDisplay.ActiveIffStarted` | components/LyricsDisplay.tsx:15-18 | With non-decreasing times, some line is active exactly when the first line has started. |
| `LyricsDisplay.LastLineAfterItsTime` | components/LyricsDisplay.tsx:16-17 | With non-decreasing times, from the last line's time on the last line is active. |
| `LyricsDisplay.CatalogTrackOne` | constants.ts:4-15 | On the first track's ten lyric lines: -1 at 4.5 s, line 1 at 10 s, line 6 (from 27 s) at 30 s, the last line (from 39 s) at 45 s. |
| `LyricsDisplay.Classify` | components/LyricsDisplay.tsx:44-56 | A line is active exactly at the active index, past exactly before it and upcoming exactly after it. |
| `LyricsDisplay.LineStates` | components/LyricsDisplay.tsx:43-66 | The map gives one state per line, in line order. |
| `LyricsDisplay.NoActiveNoPast` | components/LyricsDisplay.tsx:44-45 | With no active line (-1) every line is upcoming and none is past. |
| `LyricsDisplay.ShownAsStartedIffStarted` | components/LyricsDisplay.tsx:43-57 | With non-decreasing times, a line is shown as past or active exactly when its time is at most the playback time. |
| `LyricsDisplay.ActiveLineMarker.constructor` | components/LyricsDisplay.tsx:13 | The marker starts empty (`null`). |
| `LyricsDisplay.ActiveLineMarker.OnActiveIndex` | components/LyricsDisplay.tsx:20-30 | The marker changes, and the view scrolls, exactly when the new index is not -1 and differs from the stored one. It then holds the new index. |
| `BubbleBackground.Sum` | components/BubbleBackground.tsx:33-36 | The bin sum lies between 0 and `255 * bins`. |
| `BubbleBackground.Average` | components/BubbleBackground.tsx:37 | The average of the bins lies between 0 and 255. |
| `BubbleBackground.SumOfConstant` | components/BubbleBackground.tsx:33-36 | Bins all equal to `c` sum to `c * bins`. |
| `BubbleBackground.SumMonotone` | components/BubbleBackground.tsx:33-36 | A snapshot that is louder bin by bin has a sum at least as large. |
| `BubbleBackground.Scale` | components/BubbleBackground.tsx:39-40 | The scale is at least 1, as the code's comment promises, and at most `1 + (255 / 128) * 0.5`. |
| `BubbleBackground.SilenceScale` | components/BubbleBackground.tsx:37-40 | An all-zero snapshot gives scale exactly 1. |
| `BubbleBackground.HalfLevelScale` | components/BubbleBackground.tsx:37-40 | All bins at 128 give average 128 and scale exactly 1.5. |
| `BubbleBackground.FullLevelScale` | components/BubbleBackground.tsx:37-40 | All bins at 255 give the largest scale. |
| `BubbleBackground.ScaleMonotone` | components/BubbleBackground.tsx:37-40 | For one snapshot length, the scale is non-decreasing in the bin sum. |
| `BubbleBackground.FrameScale` | components/BubbleBackground.tsx:29-40 | The summing loop and the formula give the scale of the snapshot, within `[1, 1 + (255 / 128) * 0.5]`. |
| `BubbleBackground.BubbleField.constructor` | components/BubbleBackground.tsx:11-12 | The slots are as mounted and no frame is pending. |
| `BubbleBackground.BubbleField.Truncate` | components/BubbleBackground.tsx:14-16 | The bubble list becomes a new list of its first slots, at most 15 of them. |
| `BubbleBackground.BubbleField.SetScale` | components/BubbleBackground.tsx:42-47 | Every mounted bubble takes the scale; null slots stay null. |
| `BubbleBackground.BubbleField.AnalyseAudio` | components/BubbleBackground.tsx:19-50 | With an analyser while playing, every mounted bubble gets the snapshot's scale and one frame is scheduled. Otherwise every mounted bubble goes back to 1 and no frame is pending. |
| `BubbleBackground.BubbleField.RunEffect` | components/BubbleBackground.tsx:18-57 | The previous frame is cancelled before the new run, so at most one frame is pending. The bubbles take the snapshot's scale when the gate is open and 1 otherwise. |
| `BubbleBackground.BubbleField.Frame` | components/BubbleBackground.tsx:49 | A firing frame rescales the bubbles and reschedules itself only while the gate is open. |
| `BubbleBackground.BubbleField.Unmount` | components/BubbleBackground.tsx:54-56 | The cleanup leaves no frame pending. |
| `WaveformVisualizer.BarWidth` | components/WaveformVisualizer.tsx:31 | The bar width is non-negative on a canvas of non-negative width, and the bins' bars together are 1.5 canvas widths wide. |
| `WaveformVisualizer.BarHeight` | components/WaveformVisualizer.tsx:35 | A bar is between 0 and 102 pixels tall, 2.5 byte levels per pixel. |
| `WaveformVisualizer.Bars` | components/WaveformVisualizer.tsx:34-41 | A frame has one bar per bin, in bin order. |
| `WaveformVisualizer.Bar` | components/WaveformVisualizer.tsx:31-40 | Bar `i` is a fill of width `(width / bins) * 1.5` and colour `barColor`, at `x = i * (barWidth + 2)`. Its height is in `[0, 102]` and its foot is on the bottom edge (`y + h == height`). |
| `WaveformVisualizer.BarsLeftToRight` | components/WaveformVisualizer.tsx:31-41 | On a canvas of non-negative width, each bar ends at least a 2-pixel gutter before any later bar begins, so x-offsets strictly increase. |
| `WaveformVisualizer.LastBarPastCanvas` | components/WaveformVisualizer.tsx:31-40 | With 128 bins on a 500-pixel canvas, the last bar starts past the right edge. |
| `WaveformVisualizer.LayoutBars` | components/WaveformVisualizer.tsx:31-41 | The loop with its running `x` emits exactly the closed-form bars: bar `i` at `x = i * (barWidth + 2)`. |
| `WaveformVisualizer.Painted` | components/WaveformVisualizer.tsx:29-38 | What stays visible is the run of fills at the end of the call log: a suffix with no clears, preceded by a clear unless it is the whole log. |
| `WaveformVisualizer.PaintedAfterClear` | components/WaveformVisualizer.tsx:29-38 | A full clear followed by fills leaves exactly those fills visible, whatever was drawn before. |
| `WaveformVisualizer.Waveform.constructor` | components/WaveformVisualizer.tsx:68 | The canvas has its fixed size, nothing drawn, no frame pending. |
| `WaveformVisualizer.Waveform.FullClear` | components/WaveformVisualizer.tsx:29 | The clear covers the whole canvas from `(0, 0)`, so nothing drawn before it stays visible. |
| `WaveformVisualizer.Waveform.Draw` | components/WaveformVisualizer.tsx:14-44 | With the gate open and a context, one frame adds exactly one full clear and then the bars, leaves exactly those bars visible, and schedules one frame. Otherwise it draws nothing; with the gate closed it also cancels. |
| `WaveformVisualizer.Waveform.RunEffect` | components/WaveformVisualizer.tsx:13-64 | After cancelling the previous frame, an open gate with a canvas and a context draws a frame and schedules the next; an open gate without them draws nothing and schedules nothing. A closed gate clears the canvas once when there is one, leaving nothing visible, and no frame is pending. |
| `WaveformVisualizer.Waveform.Frame` | components/WaveformVisualizer.tsx:43 | A firing frame draws and reschedules only while the gate is open and a context exists. |
| `WaveformVisualizer.Waveform.Unmount` | components/WaveformVisualizer.tsx:59-63 | The cleanup leaves no frame pending. |

## Left out

- App.Player.SongEnd: in shuffle mode it states only that the new index is in range and, with more than one track, differs from the old one. It does not say which draw chose it; `App.Player.Next` does.
- Volume, the time-update and loaded-metadata handlers (`duration`), the `--main-color` CSS variable, and the minimise, queue, moodboard and lyrics toggles. These are displayed UI values with no logic to state.
- `audioContextRef.current?.resume()`, the construction of the AudioContext, AnalyserNode and media source, and the `play()`/`pause()` calls are browser I/O. The effect reports which call it makes (`AudioCall`).
- The `play()` promise rejects asynchronously. The model turns the playing flag off in the same step, with the outcome passed in as `playRejected`.
- The ref callbacks that mount bubbles into slots and the random size, position and timing of each bubble are rendering only. The slots are given to the constructor.
- How `requestAnimationFrame` schedules callbacks, and React's effect timing. They appear only as the pending-frame count and the explicit effect, frame and unmount steps.
- `Math.random` is modelled as an oracle, not as a random source. Whether the shuffle loop terminates with probability 1 is not stated.
- `formatTime` of NaN or Infinity (a missing `duration`): reals have neither value.
- Canvas pixels: a clear is recorded as a call, and only full-canvas clears occur.
- The moodboard image generation, the AI service wrapper, the gallery and queue panels, and the static track catalog have no logic of their own to model. One catalog lyric list is used as concrete data in `LyricsDisplay.CatalogTrackOne`.
