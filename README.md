# Waveform region playback, quality display and transcript lookup, in Dafny

This project models the sequential state logic of an audio-review web application:

- **The waveform component** (`AudioWaveform`). It owns one wavesurfer engine per selected
  audio file and loop setting, and it has transport handlers (play/pause, rate, volume) and
  region handlers. It also has `handleSentenceClick(start, end)`, which the transcript view
  calls through the `onSentenceClick` registration. That handler removes every region, adds
  one fixed region, subscribes a playback monitor, seeks to `start / duration` and plays.
  Each monitor runs on every `audioprocess` event. Once the clock reaches the `end` it
  captured, it pauses, seeks back to its own `start`, unsubscribes itself, removes every
  region and clears `isPlaying`.
- **The conversation-quality panel** (`ConvAnalysis`). It covers the score thresholds, the
  category-to-class map, the clamped bar width, and the state left by the quality check.
- **Transcript lookup and summary splitting** (`transcribe.py`). It covers the first-match
  lookup `get_item_by_id` and `find_contributing_segments`. The second function splits the
  summary into sentences and pairs each sentence with the transcript items that an
  embedding search selects.

Files:

- `wrappers.dfy`: `Option`.
- `playback.dfy` (module `Playback`): bounded playback as values. A `State` holds the
  regions, the monitors in subscription order, the transport and `isPlaying`. On it are
  defined `Click` (one `handleSentenceClick`), `RunMonitor` (one monitor closure), `Tick`
  (one `audioprocess` event running every subscribed monitor in order) and the lemmas about
  them.
- `audio_waveform.dfy` (module `AudioWaveform`): the classes.
  - `Engine` is the wavesurfer instance as abstract state. Its fields are `live`,
    `regions`, `monitors`, `playing`, `currentTime`, `duration`, the last seek, rate and
    volume.
  - `Waveform` is the component. Its fields are the React state and the reference to the
    engine, which is null when there is no engine. Each handler is a method. The
    bounded-playback methods are proved to perform `Playback.Click` and `Playback.Tick`.
  - `SentenceClickSlot` is the parent's slot that `onSentenceClick` fills.
- `conv_analysis.dfy` (module `ConvAnalysis`): the quality functions and the panel state.
- `py_str.dfy` (module `PyStr`): Python's `str.split(sep)` and `sep.join`.
- `transcribe.dfy` (module `Transcribe`): `get_item_by_id`, the summary sentence rule and
  `find_contributing_segments`. The similarity search is an oracle parameter.

JavaScript numbers are modelled as `real`. The code compares times, divides a time by the
duration, and scales a score by 10 and 100. The model computes these exactly, not with
double-precision rounding (see "## Left out").

Region and monitor objects are compared by identity in the code. The model gives each one a
number (`id`) that stands for that identity. Each new engine numbers its objects from the
component's `idBase` on, so no number is ever reused, not even across engines.

## Where the code departs from its evident intent

The model follows the code in each case below.

- A new `handleSentenceClick` does not cancel earlier monitors, although a new call is
  evidently meant to cancel the watcher of the previous one. Every call adds one monitor
  (`ClicksNeverUnsubscribe`). A stale monitor keeps its own `end`. It can stop a later
  range and remove that range's region (`StaleMonitorStopsLaterRange`). Playback still
  stops by the latest `end` after any click history (`ClickThenEndStops`).
- A raw-waveform `interaction` only clears `activeRegion`. It neither cancels monitors nor
  removes regions (`Waveform.Interaction`).
- `handleSentenceClick` does not clamp `end` to the duration. It also does not ignore an
  empty range. Without an engine it throws, because it reads `plugins[0]` of null before
  the null check. The model returns `thrown`.
- When the duration is still 0, the seek fraction is not finite (`Seek.NonFinite`).
- The cleanup destroys the engine but never revokes the object URL.
- The `region-out` handler is meant to clear the active region when playback leaves it.
  It tests whether the region is the same object (`===`) as the `activeRegion` captured
  when the load effect last ran, because the handler is a closure over that value. The
  model keeps the captured value as `handlerActive`. The handlers are attached to a new
  engine before it has any region. So the captured value is null or a region of a
  destroyed engine, and it is never the region the event is about. `region-out` therefore
  never changes anything (`Waveform.RegionOut`). The captured `loop` always equals the
  current one, because `loop` is a dependency of the effect.
- Toggling "Loop regions" re-runs the load effect, so the engine is destroyed and a new one
  is created (`Waveform.SetLoop`). React state such as `isPlaying` survives an engine
  change.
- `region-click` plays the region but does not update `isPlaying`.

## Model

| member | source | states |
|---|---|---|
| `Playback.SeekTo` | src/components/AudioWaveform.js:115-126 | `seekTo` records its argument and changes nothing but the clock. A non-finite argument leaves the clock where it was. |
| `Playback.Click` | src/components/AudioWaveform.js:97-130 | A click leaves one fixed (not draggable) region, with the next fresh identity. The old monitors stay in place, followed by one new monitor with this call's `start` and `end`. The engine plays, `isPlaying` is true, and the duration is kept. |
| `Playback.Without` | src/components/AudioWaveform.js:116 | After `un`, the listener is gone, the list is no longer, and everything left was subscribed before. |
| `Playback.RunMonitor` | src/components/AudioWaveform.js:111-121 | A monitor run either changes nothing or leaves the engine paused, `isPlaying` false, no region, and that monitor unsubscribed. |
| `Playback.RunAll` | src/components/AudioWaveform.js:111-123 | Running listeners in order keeps the duration and hands out no new identity. |
| `Playback.Tick` | src/components/AudioWaveform.js:123 | An `audioprocess` event keeps the duration and hands out no new identity. |
| `Playback.ClickEffects` | src/components/AudioWaveform.js:97-130 | After a click there is exactly one region, `[start, end]`, with drag and resize off, so all earlier regions are gone. The monitors are the old ones plus one new monitor with this call's `start` and `end`. The last seek is `start / duration`. The engine plays and `isPlaying` is true. With a known duration the clock is at `start`. |
| `Playback.ClickKeepsWellFormed` | src/components/AudioWaveform.js:111-123 | A click keeps monitors in subscription order with distinct identities. |
| `Playback.ClicksNeverUnsubscribe` | src/components/AudioWaveform.js:111-123 | After any sequence of clicks, the earlier monitors are all still subscribed and in place. Each click adds exactly one monitor carrying that click's own range, so the count grows by one per call. The only region is that of the last click. |
| `Playback.SeekLandsOn` | src/components/AudioWaveform.js:126 | With a non-zero duration, seeking to `t / duration` records that fraction and puts the clock at `t`. |
| `Playback.WithoutRemoves` | src/components/AudioWaveform.js:116 | `un` removes exactly the given listener and keeps every other one. |
| `Playback.WithoutIncreasing` | src/components/AudioWaveform.js:116 | `un` keeps the listener list in subscription order. |
| `Playback.WithoutCount` | src/components/AudioWaveform.js:116 | `un` of a subscribed listener shortens the list by exactly one. |
| `Playback.IdleMonitorChangesNothing` | src/components/AudioWaveform.js:112-113 | A monitor run with `currentTime < end` changes nothing. |
| `Playback.DueMonitorStops` | src/components/AudioWaveform.js:113-120 | A monitor run with `currentTime >= end` pauses and seeks back to `start / duration`, landing at `start`. It unsubscribes itself and nothing else, so the count drops by one. It removes every region and clears `isPlaying`. |
| `Playback.RunMonitorKeepsWellFormed` | src/components/AudioWaveform.js:111-121 | A monitor run keeps the monitor list ordered, with identities below the next fresh one. |
| `Playback.RunAllIdle` | src/components/AudioWaveform.js:111-121 | If every listener's `end` is ahead of the clock, running the listeners in order changes nothing. |
| `Playback.TickBeforeEveryEnd` | src/components/AudioWaveform.js:111-123 | An `audioprocess` event before every subscribed `end` only moves the clock. |
| `Playback.RunAllOnlyRemoves` | src/components/AudioWaveform.js:111-121 | Running listeners never subscribes one. Every monitor left was there before, the count never grows, and the regions are either kept or all removed. |
| `Playback.TickOnlyUnsubscribes` | src/components/AudioWaveform.js:111-123 | An `audioprocess` event never adds a monitor, and it keeps the monitor list well formed. |
| `Playback.RunAllStopsIfFirstDue` | src/components/AudioWaveform.js:113-120 | Once a due monitor has stopped playback, the later monitors of the same event keep it stopped, with no region left. |
| `Playback.TickStopsIfEarliestDue` | src/components/AudioWaveform.js:111-123 | If the earliest subscribed monitor's `end` has been reached, the event leaves the engine paused, `isPlaying` false and no region. |
| `Playback.RunAllUnchangedOrStopped` | src/components/AudioWaveform.js:111-123 | Whatever listeners run, the event either changes nothing or leaves the engine paused, `isPlaying` false and no region. |
| `Playback.ClickThenEndStops` | src/components/AudioWaveform.js:97-130 | After any click history, click `(start, end)` and let the clock reach `end`. The event leaves the engine paused, `isPlaying` false and no region, whether the new monitor or an earlier stale one does the stopping. |
| `Playback.BoundedPlaybackStops` | src/components/AudioWaveform.js:97-130 | The exact end state when no earlier monitor exists: take a known duration, click `(start, end)` and let the clock reach `end`. The engine is paused back at `start`, the last seek is `start / duration`, and no region and no monitor remain. |
| `Playback.TranscriptSegmentScenario` | src/components/AudioWaveform.js:97-130 | For a 36.18 s file and the segment (12.1, 36.18), the click seeks to 12.1/36.18 and plays. At 36.18 playback stops, with no region and no monitor. |
| `Playback.StaleMonitorStopsLaterRange` | src/components/AudioWaveform.js:97-130 | After two clicks there is one region, the second one, but there are two monitors. A tick past the first `end` but before the second stops playback and removes the second range's region. The second monitor stays subscribed unless the seek back to the first `start` already passes the second `end`. |
| `AudioWaveform.Engine.constructor` | src/components/AudioWaveform.js:20-37 | A new engine is live, with no region, no listener, nothing played and duration 0. It numbers its objects from the identity it is given. |
| `AudioWaveform.Engine.Arm` | src/components/AudioWaveform.js:102-123 | Every region is removed and one fixed region `[start, end]` is added. One monitor with this `start` and `end` is appended to the listeners, each with the next identity. The transport is untouched. |
| `AudioWaveform.Engine.Decoded` | src/components/AudioWaveform.js:37 | Finishing the load sets the duration and nothing else. |
| `AudioWaveform.Engine.SeekTo` | src/components/AudioWaveform.js:115-126 | `seekTo(target)` records the target. A finite fraction moves the clock to fraction × duration, and a non-finite one leaves it. Regions, listeners, playing, duration, rate and volume are unchanged. |
| `AudioWaveform.Engine.Destroy` | src/components/AudioWaveform.js:67 | `destroy()` leaves the engine not live, without listeners or regions, and paused. |
| `AudioWaveform.SentenceClickSlot.Invoke` | src/components/AudioWaveform.js:132-136 | Invoking the registered callback performs the component's sentence click. It throws exactly when the component has no engine. |
| `AudioWaveform.Waveform.constructor` | src/components/AudioWaveform.js:9-37 | Mounting starts from the state defaults: not playing, rate 1, volume 1, loop off, no active region. With a file, it creates a fresh engine in its initial state. |
| `AudioWaveform.Waveform.LoadEffect` | src/components/AudioWaveform.js:18-64 | With a file, the effect creates a fresh engine. The handlers it attaches capture the current `activeRegion` and `loop`. Without a file there is no engine. |
| `AudioWaveform.Waveform.Cleanup` | src/components/AudioWaveform.js:66-69 | Cleanup destroys the engine and nulls the reference, leaving every engine ever created destroyed. Identities the destroyed engine handed out are never handed out again. |
| `AudioWaveform.Waveform.SelectFile` | src/components/AudioWaveform.js:18-71 | The same file changes nothing. A different file destroys the old engine before a fresh one exists, so two engines are never live at once. |
| `AudioWaveform.Waveform.SetLoop` | src/components/AudioWaveform.js:66-71 | Changing `loop` destroys the engine and creates a fresh one. An unchanged value changes nothing. |
| `AudioWaveform.Waveform.Unmount` | src/components/AudioWaveform.js:66-69 | Unmounting destroys the engine and leaves no reference. |
| `AudioWaveform.Waveform.PlayPause` | src/components/AudioWaveform.js:73-79 | With an engine, play/pause toggles it and copies its playing flag into `isPlaying`. Without an engine nothing changes. |
| `AudioWaveform.Waveform.PlaybackRateChange` | src/components/AudioWaveform.js:81-87 | The rate state is always updated. The engine's rate is updated only when there is an engine. |
| `AudioWaveform.Waveform.VolumeChange` | src/components/AudioWaveform.js:89-95 | The volume state is always updated. The engine's volume is updated only when there is an engine. |
| `AudioWaveform.Waveform.SentenceClick` | src/components/AudioWaveform.js:97-130 | Without an engine it throws and changes nothing. Otherwise the new state is exactly `Playback.Click` of the old one. |
| `AudioWaveform.Waveform.PlaybackMonitor` | src/components/AudioWaveform.js:111-121 | One monitor closure performs exactly `Playback.RunMonitor`. |
| `AudioWaveform.Waveform.AudioProcess` | src/components/AudioWaveform.js:111-123 | An `audioprocess` event runs every subscribed monitor in subscription order, and the new state is exactly `Playback.Tick` of the old one. |
| `AudioWaveform.Waveform.DragSelect` | src/components/AudioWaveform.js:41-43 | Drag selection appends one draggable, resizable region. |
| `AudioWaveform.Waveform.RegionIn` | src/components/AudioWaveform.js:45-47 | `region-in` for a region of the live engine makes that region active. |
| `AudioWaveform.Waveform.RegionOut` | src/components/AudioWaveform.js:49-53 | `region-out` for a region of the live engine changes nothing. The identity test against the captured `activeRegion` never holds, because that object is null or belongs to a destroyed engine. |
| `AudioWaveform.Waveform.RegionClick` | src/components/AudioWaveform.js:55-60 | `region-click` for a region of the live engine makes it active and plays from its start, leaving `isPlaying` as it was. |
| `AudioWaveform.Waveform.Interaction` | src/components/AudioWaveform.js:62-64 | `interaction` always clears the active region, while monitors and regions stay. |
| `AudioWaveform.Waveform.RegisterWith` | src/components/AudioWaveform.js:132-136 | Registration puts this component's click handler in the parent's single slot, replacing what was there. |
| `ConvAnalysis.QualityCategory` | src/components/ConvAnalysis.js:20-24 | A score of 7.5 or more is "Good", 6 ≤ score < 7.5 is "Moderate", and below 6 is "Bad", in both directions. Every score gets exactly one category. |
| `ConvAnalysis.CategoryMonotone` | src/components/ConvAnalysis.js:20-24 | A higher score never gets a worse category in the order Bad < Moderate < Good. |
| `ConvAnalysis.QualityClass` | src/components/ConvAnalysis.js:27-32 | Bad, Moderate and Good map to their classes, and the result is `""` exactly for every other string. |
| `ConvAnalysis.ClassesDistinct` | src/components/ConvAnalysis.js:27-32 | The three categories get three different classes. |
| `ConvAnalysis.EveryScoreStyled` | src/components/ConvAnalysis.js:20-32 | The class of any score's category is never `""`. |
| `ConvAnalysis.BarWidth` | src/components/ConvAnalysis.js:59-88 | The bar width never exceeds 100. It is `score × 10` up to a score of 10, and 100 from there. It is non-negative for a non-negative score. |
| `ConvAnalysis.ClampScore` | src/components/ConvAnalysis.js:47 | The clamped draw lies in [0, 10], and equals the draw when the draw is already in range. |
| `ConvAnalysis.QualityPanel.constructor` | src/components/ConvAnalysis.js:15-17 | The panel starts with no quality, score 0, hidden. |
| `ConvAnalysis.QualityPanel.StartQualityCheck` | src/components/ConvAnalysis.js:34-36 | Starting the check hides the score and keeps the rest. |
| `ConvAnalysis.QualityPanel.FinishQualityCheck` | src/components/ConvAnalysis.js:38-55 | Whatever the random draw, the panel shows score 7.88 as "Good", with class `score-good` and a bar 78.8 wide. |
| `PyStr.FirstOccurrence` | src/transcribe.py:129 | A found index is an occurrence of the separator. |
| `PyStr.FirstOccurrenceIsLeftmost` | src/transcribe.py:129 | The found occurrence is the leftmost one, and none is found exactly when the separator does not occur. |
| `PyStr.Split` | src/transcribe.py:129 | `split` always gives at least one piece. |
| `PyStr.Reassemble` | src/transcribe.py:129 | Cutting out one occurrence of the separator and putting it back gives the string. |
| `PyStr.SplitJoin` | src/transcribe.py:129 | Joining the pieces of `s.split(sep)` with `sep` gives back `s`. |
| `PyStr.SplitPiecesFree` | src/transcribe.py:129 | No piece of `s.split(sep)` contains `sep`. |
| `PyStr.SplitCount` | src/transcribe.py:128-131 | `s.split(sep)` has at least two pieces exactly when `sep` occurs in `s`, so `[1]` raises exactly when it does not. |
| `Transcribe.GetItemById` | src/transcribe.py:112-116 | A returned item is an element of the list whose id is `idx`. `None` is returned exactly when no item has that id. |
| `Transcribe.GetItemByIdFirstMatch` | src/transcribe.py:113-115 | When an item with the id exists, the result is the earliest one in list order that has it. |
| `Transcribe.SummarySentences` | src/transcribe.py:128-131 | There is always at least one sentence, and no sentence contains `". "`. |
| `Transcribe.SummarySentencesSource` | src/transcribe.py:128-131 | With `"\n\n"` in the summary, the sentences are the second paragraph split on `". "`. Without it, they are the whole summary split on `". "`. Either way there is at least one sentence, and joining the sentences with `". "` gives back the text that was split. |
| `Transcribe.SentenceData` | src/transcribe.py:140 | One entry per selected index `i`, in order, equal to the lookup of id `i + 1`. |
| `Transcribe.FindContributingSegments` | src/transcribe.py:118-146 | There is one record per summary sentence, in sentence order, and each carries its sentence. Each record's `sentence_data` has one entry per index the selector returned, in that order, and each entry is the lookup of id `index + 1`. |

## Left out

- Waveform decoding, drawing, styling and object-URL creation (src/components/AudioWaveform.js:20-37): these belong to the wavesurfer library and the browser. The engine is abstract state, and `Engine.Decoded` stands for the end of the asynchronous load.
- How wavesurfer itself moves the clock: the model assumes that `seekTo(f)` puts the clock at `f × duration`, with no clamping to [0, duration]. A non-finite fraction leaves the clock where it was. `region.play()` seeks to the region start and plays; any stop at the region end by the library is not modelled. The library's own `play`, `pause`, `finish` and `ready` events have no handler in the component and are not modelled.
- The library's event names: the model assumes that the regions plugin emits `region-in`, `region-out` and `region-click` under the names the handlers subscribe to (src/components/AudioWaveform.js:45-60). If the installed plugin version uses other names, such as `region-clicked`, those handlers never run. The plugin's source is not part of this model.
- Double-precision rounding: times, seek fractions and scores are computed exactly.
  - Playback.SeekLandsOn: in doubles, `(t / d) * d` need not equal `t`, so "the clock lands on `t`" holds exactly only in this model.
  - Playback.ClickEffects: the same applies to "the clock is at `start`".
  - ConvAnalysis.BarWidth: `7.88 / 10 * 100` is computed exactly.
- When the library emits `region-in`, `region-out`, `interaction` and `audioprocess`: these are methods the environment may call at any time while an engine exists.
- `randomColor` and the region colour change on click (src/components/AudioWaveform.js:5-7, 59): these are random and only affect colour.
- `gaussianRandom` (src/components/ConvAnalysis.js:39-45): it uses random floats and transcendental functions. Its result is a parameter (`draw`) that the code clamps and then discards.
- The `setTimeout` delay (src/components/ConvAnalysis.js:38, 55): the check is split into the state before the timer (`StartQualityCheck`) and the state after its callback (`FinishQualityCheck`).
- `parseFloat` of the rate and volume controls: the select and range inputs only produce numbers, so the handlers take a real.
- All JSX rendering, including `AudioTranscriber.js` and the `loading`-dependent button state: this is presentation only.
- `src/App.js` (HTTP upload with axios) and `src/run_model.py` (a Flask endpoint over an external model): these are network and model glue.
- In `src/transcribe.py`:
  - The Flask app and route, model loading, `sentence_model.encode`, `pytorch_cos_sim` and `topk` are replaced by the oracle `selectTop(sentence, segments, top_n)`. That includes the error `topk` raises when `top_n` exceeds the number of segments.
  - The unused `threshold` parameter, `print` and the `tqdm` progress bar are left out.
  - The commented-out code is left out.
