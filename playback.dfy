/**
 * Bounded playback of the waveform component, as values.
 *
 * `State` is what `handleSentenceClick` and its `handlePlaybackMonitor` closures read and
 * write: the engine's regions, its `audioprocess` listeners, its transport, and the
 * component's `isPlaying`. Every handler of the component is a transition on it; the
 * classes in module AudioWaveform are proved to perform exactly these transitions.
 */
module Playback {
  import opened Wrappers

  /** A region of the regions plugin; `id` stands for the region object's identity. The
      component hands every engine a fresh range of identities, so no two region objects,
      of one engine or of two, share one. */
  datatype Region = Region(id: nat, start: real, end: real, drag: bool, resize: bool)

  /** One `handlePlaybackMonitor` closure: the `start` and `end` its call captured, and its identity. */
  datatype Monitor = Monitor(id: nat, start: real, end: real)

  /** The number handed to `seekTo(t / getDuration())`: a finite fraction, or a non-finite
      JavaScript number (NaN or an infinity) when the duration is still 0. */
  datatype Seek = Fraction(f: real) | NonFinite

  datatype State = State(
    regions: seq<Region>,     // regions of the plugin, in creation order
    monitors: seq<Monitor>,   // "audioprocess" listeners, in subscription order
    playing: bool,            // the engine is playing
    currentTime: real,        // the engine clock, in seconds
    duration: real,           // the decoded duration, 0 until the audio is ready
    lastSeek: Option<Seek>,   // the last argument the component passed to seekTo
    isPlaying: bool,          // the component's `isPlaying` state
    nextId: nat)              // identity of the next region or monitor created

  /** Monitors are kept in subscription order with distinct identities below `nextId`. */
  predicate WellFormed(s: State) {
    && Increasing(s.monitors)
    && (forall i :: 0 <= i < |s.monitors| ==> s.monitors[i].id < s.nextId)
  }

  /** `t / wavesurfer.getDuration()`. */
  function SeekFraction(t: real, duration: real): Seek {
    if duration == 0.0 then NonFinite else Fraction(t / duration)
  }

  /** `wavesurfer.seekTo(target)`: the clock moves to that fraction of the duration. */
  function SeekTo(s: State, target: Seek): (r: State)
    ensures r.lastSeek == Some(target)
    ensures target.NonFinite? ==> r.currentTime == s.currentTime
    ensures r == s.(lastSeek := r.lastSeek, currentTime := r.currentTime)
  {
    match target
    case Fraction(f) => s.(lastSeek := Some(target), currentTime := f * s.duration)
    case NonFinite => s.(lastSeek := Some(target))
  }

  /** `handleSentenceClick(start, end)` on a live engine: remove every region, add one fixed
      region, subscribe a monitor that captured `start` and `end`, seek, play. */
  function Click(s: State, start: real, end: real): (r: State)
    ensures |r.regions| == 1 && r.regions[0].id == s.nextId && !r.regions[0].drag
    ensures |r.monitors| == |s.monitors| + 1 && r.monitors[..|s.monitors|] == s.monitors
    ensures r.monitors[|s.monitors|].start == start && r.monitors[|s.monitors|].end == end
    ensures r.playing && r.isPlaying && r.duration == s.duration && r.nextId == s.nextId + 1
  {
    var fixed := Region(s.nextId, start, end, false, false);
    var monitor := Monitor(s.nextId, start, end);
    var armed := s.(regions := [fixed], monitors := s.monitors + [monitor], nextId := s.nextId + 1);
    SeekTo(armed, SeekFraction(start, s.duration)).(playing := true, isPlaying := true)
  }

  /** `wavesurfer.un("audioprocess", m)`: the listener list without `m`. */
  function Without(ms: seq<Monitor>, m: Monitor): (rest: seq<Monitor>)
    ensures m !in rest && |rest| <= |ms|
    ensures forall i :: 0 <= i < |rest| ==> rest[i] in ms
  {
    if ms == [] then [] else (if ms[0] == m then [] else [ms[0]]) + Without(ms[1..], m)
  }

  /** One run of monitor `m`: once the clock has reached its `end`, pause, seek back to its
      `start`, unsubscribe it, remove every region and clear `isPlaying`. */
  function RunMonitor(s: State, m: Monitor): (r: State)
    ensures r == s || (!r.playing && !r.isPlaying && r.regions == [] && m !in r.monitors)
    ensures r.duration == s.duration && r.nextId == s.nextId
  {
    if s.currentTime >= m.end then
      var rewound := SeekTo(s.(playing := false), SeekFraction(m.start, s.duration));
      rewound.(monitors := Without(rewound.monitors, m), regions := [], isPlaying := false)
    else
      s
  }

  /** The listeners `ms` run one after another, each seeing the state the previous one left. */
  function RunAll(s: State, ms: seq<Monitor>): (r: State)
    ensures r.duration == s.duration && r.nextId == s.nextId
    decreases |ms|
  {
    if ms == [] then s else RunMonitor(RunAll(s, ms[..|ms| - 1]), ms[|ms| - 1])
  }

  /** An "audioprocess" event at engine time `now`: every listener subscribed when the event
      is emitted runs, in subscription order. */
  function Tick(s: State, now: real): (r: State)
    ensures r.duration == s.duration && r.nextId == s.nextId
  {
    RunAll(s.(currentTime := now), s.monitors)
  }

  /** A sequence of `handleSentenceClick` calls, one per range, in order. */
  function ClickAll(s: State, ranges: seq<(real, real)>): State
    decreases |ranges|
  {
    if ranges == [] then s
    else
      var last := ranges[|ranges| - 1];
      Click(ClickAll(s, ranges[..|ranges| - 1]), last.0, last.1)
  }

  // ---------------------------------------------------------------------------------------
  // Seeking

  /** With a known duration, seeking to `t / duration` puts the clock at `t`. */
  lemma SeekLandsOn(s: State, t: real)
    requires s.duration != 0.0
    ensures SeekTo(s, SeekFraction(t, s.duration)).currentTime == t
    ensures SeekTo(s, SeekFraction(t, s.duration)).lastSeek == Some(Fraction(t / s.duration))
  {
  }

  // ---------------------------------------------------------------------------------------
  // handleSentenceClick

  /** A click leaves exactly one region, the requested fixed range; it seeks to
      `start / duration`, plays, and adds one monitor after the existing ones. */
  lemma ClickEffects(s: State, start: real, end: real)
    ensures Click(s, start, end).regions == [Region(s.nextId, start, end, false, false)]
    ensures Click(s, start, end).monitors == s.monitors + [Monitor(s.nextId, start, end)]
    ensures Click(s, start, end).lastSeek == Some(SeekFraction(start, s.duration))
    ensures Click(s, start, end).playing && Click(s, start, end).isPlaying
    ensures s.duration != 0.0 ==> Click(s, start, end).currentTime == start
    ensures s.duration == 0.0 ==> Click(s, start, end).currentTime == s.currentTime
    ensures Click(s, start, end).duration == s.duration
  {
    if s.duration != 0.0 {
      var armed := s.(regions := [Region(s.nextId, start, end, false, false)],
                      monitors := s.monitors + [Monitor(s.nextId, start, end)],
                      nextId := s.nextId + 1);
      SeekLandsOn(armed, start);
    }
  }

  lemma ClickKeepsWellFormed(s: State, start: real, end: real)
    requires WellFormed(s)
    ensures WellFormed(Click(s, start, end))
  {
  }

  /** Clicks never unsubscribe: after any sequence of clicks the old monitors are still there,
      in place, followed by one new monitor per click carrying that click's own range; the
      only region is that of the last click. */
  lemma {:induction false} ClicksNeverUnsubscribe(s: State, ranges: seq<(real, real)>)
    ensures |ClickAll(s, ranges).monitors| == |s.monitors| + |ranges|
    ensures ClickAll(s, ranges).monitors[..|s.monitors|] == s.monitors
    ensures forall k :: 0 <= k < |ranges| ==>
      ClickAll(s, ranges).monitors[|s.monitors| + k] == Monitor(s.nextId + k, ranges[k].0, ranges[k].1)
    ensures ClickAll(s, ranges).nextId == s.nextId + |ranges|
    ensures ranges != [] ==> (ClickAll(s, ranges).regions ==
      [Region(s.nextId + |ranges| - 1, ranges[|ranges| - 1].0, ranges[|ranges| - 1].1, false, false)])
    decreases |ranges|
  {
    if ranges != [] {
      var init := ranges[..|ranges| - 1];
      ClicksNeverUnsubscribe(s, init);
      var before := ClickAll(s, init);
      var last := ranges[|ranges| - 1];
      ClickEffects(before, last.0, last.1);
      var after := ClickAll(s, ranges);
      assert after.monitors == before.monitors + [Monitor(before.nextId, last.0, last.1)];
      forall k | 0 <= k < |ranges|
        ensures after.monitors[|s.monitors| + k] == Monitor(s.nextId + k, ranges[k].0, ranges[k].1)
      {
        if k < |init| {
          assert ranges[k] == init[k];
        }
      }
    }
  }

  // ---------------------------------------------------------------------------------------
  // Unsubscribing

  /** `un` removes exactly the given listener and keeps the others in order. */
  lemma {:induction false} WithoutRemoves(ms: seq<Monitor>, m: Monitor)
    ensures forall x :: x in Without(ms, m) <==> x in ms && x != m
    ensures |Without(ms, m)| <= |ms|
    ensures m !in ms ==> Without(ms, m) == ms
  {
    if ms != [] {
      WithoutRemoves(ms[1..], m);
      assert ms == [ms[0]] + ms[1..];
    }
  }

  /** Identities strictly increase along the list. */
  predicate Increasing(ms: seq<Monitor>) {
    forall i, j :: 0 <= i < j < |ms| ==> ms[i].id < ms[j].id
  }

  lemma IncreasingTail(ms: seq<Monitor>)
    requires Increasing(ms) && ms != []
    ensures Increasing(ms[1..])
    ensures forall x :: x in ms[1..] ==> ms[0].id < x.id
  {
    var rest := ms[1..];
    forall i, j | 0 <= i < j < |rest| ensures rest[i].id < rest[j].id {
      assert rest[i] == ms[i + 1] && rest[j] == ms[j + 1];
    }
    forall x | x in rest ensures ms[0].id < x.id {
      var k :| 0 <= k < |rest| && rest[k] == x;
      assert ms[k + 1] == x;
    }
  }

  lemma IncreasingCons(a: Monitor, w: seq<Monitor>)
    requires Increasing(w) && forall x :: x in w ==> a.id < x.id
    ensures Increasing([a] + w)
  {
    var r := [a] + w;
    forall i, j | 0 <= i < j < |r| ensures r[i].id < r[j].id {
      assert r[j] == w[j - 1];
      if i > 0 {
        assert r[i] == w[i - 1];
      }
    }
  }

  /** In a list with increasing identities, `un` keeps the identities increasing. */
  lemma {:induction false} WithoutIncreasing(ms: seq<Monitor>, m: Monitor)
    requires Increasing(ms)
    ensures Increasing(Without(ms, m))
  {
    if ms != [] {
      IncreasingTail(ms);
      WithoutIncreasing(ms[1..], m);
      WithoutRemoves(ms[1..], m);
      if ms[0] != m {
        IncreasingCons(ms[0], Without(ms[1..], m));
      }
    }
  }

  /** In a list with increasing identities, `un` of a present listener removes exactly one. */
  lemma {:induction false} WithoutCount(ms: seq<Monitor>, m: Monitor)
    requires Increasing(ms) && m in ms
    ensures |Without(ms, m)| == |ms| - 1
  {
    IncreasingTail(ms);
    if ms[0] == m {
      assert m !in ms[1..];
      WithoutRemoves(ms[1..], m);
    } else {
      assert ms == [ms[0]] + ms[1..];
      WithoutCount(ms[1..], m);
    }
  }

  // ---------------------------------------------------------------------------------------
  // One monitor

  /** A monitor whose `end` is still ahead of the clock changes nothing. */
  lemma IdleMonitorChangesNothing(s: State, m: Monitor)
    requires s.currentTime < m.end
    ensures RunMonitor(s, m) == s
  {
  }

  /** A monitor whose `end` has been reached does five things: pause, seek back to its own
      `start`, unsubscribe itself (and nothing else), remove every region, clear `isPlaying`. */
  lemma DueMonitorStops(s: State, m: Monitor)
    requires s.currentTime >= m.end
    ensures !RunMonitor(s, m).playing
    ensures RunMonitor(s, m).lastSeek == Some(SeekFraction(m.start, s.duration))
    ensures s.duration != 0.0 ==> RunMonitor(s, m).currentTime == m.start
    ensures forall x :: x in RunMonitor(s, m).monitors <==> x in s.monitors && x != m
    ensures WellFormed(s) && m in s.monitors ==> |RunMonitor(s, m).monitors| == |s.monitors| - 1
    ensures RunMonitor(s, m).regions == []
    ensures !RunMonitor(s, m).isPlaying
    ensures RunMonitor(s, m).duration == s.duration && RunMonitor(s, m).nextId == s.nextId
  {
    WithoutRemoves(s.monitors, m);
    if WellFormed(s) && m in s.monitors {
      WithoutCount(s.monitors, m);
    }
    if s.duration != 0.0 {
      SeekLandsOn(s.(playing := false), m.start);
    }
  }

  lemma RunMonitorKeepsWellFormed(s: State, m: Monitor)
    requires WellFormed(s)
    ensures WellFormed(RunMonitor(s, m))
  {
    WithoutRemoves(s.monitors, m);
    WithoutIncreasing(s.monitors, m);
    var r := RunMonitor(s, m);
    forall i | 0 <= i < |r.monitors| ensures r.monitors[i].id < r.nextId {
      assert r.monitors[i] in s.monitors;
    }
  }

  // ---------------------------------------------------------------------------------------
  // A whole audioprocess event

  /** When every listener's `end` is still ahead of the clock, running them changes nothing. */
  lemma {:induction false} RunAllIdle(s: State, ms: seq<Monitor>)
    requires forall i :: 0 <= i < |ms| ==> s.currentTime < ms[i].end
    ensures RunAll(s, ms) == s
    decreases |ms|
  {
    if ms != [] {
      RunAllIdle(s, ms[..|ms| - 1]);
    }
  }

  /** A tick before every subscribed `end` only moves the clock. */
  lemma TickBeforeEveryEnd(s: State, now: real)
    requires forall i :: 0 <= i < |s.monitors| ==> now < s.monitors[i].end
    ensures Tick(s, now) == s.(currentTime := now)
  {
    RunAllIdle(s.(currentTime := now), s.monitors);
  }

  /** Running listeners only unsubscribes: no monitor appears, regions are kept or all gone,
      and the identities, the duration and the monitors' order invariant survive. */
  lemma {:induction false} RunAllOnlyRemoves(s: State, ms: seq<Monitor>)
    ensures forall x :: x in RunAll(s, ms).monitors ==> x in s.monitors
    ensures |RunAll(s, ms).monitors| <= |s.monitors|
    ensures RunAll(s, ms).regions == s.regions || RunAll(s, ms).regions == []
    ensures RunAll(s, ms).nextId == s.nextId && RunAll(s, ms).duration == s.duration
    ensures WellFormed(s) ==> WellFormed(RunAll(s, ms))
    decreases |ms|
  {
    if ms != [] {
      var before := RunAll(s, ms[..|ms| - 1]);
      RunAllOnlyRemoves(s, ms[..|ms| - 1]);
      WithoutRemoves(before.monitors, ms[|ms| - 1]);
      if WellFormed(s) {
        RunMonitorKeepsWellFormed(before, ms[|ms| - 1]);
      }
    }
  }

  /** An audioprocess event never subscribes anything, so the monitor count never grows. */
  lemma TickOnlyUnsubscribes(s: State, now: real)
    ensures forall x :: x in Tick(s, now).monitors ==> x in s.monitors
    ensures |Tick(s, now).monitors| <= |s.monitors|
    ensures Tick(s, now).regions == s.regions || Tick(s, now).regions == []
    ensures WellFormed(s) ==> WellFormed(Tick(s, now))
  {
    RunAllOnlyRemoves(s.(currentTime := now), s.monitors);
  }

  /** Once a monitor has stopped playback, later monitors of the same event keep it stopped. */
  predicate Stopped(s: State) {
    !s.playing && !s.isPlaying && s.regions == []
  }

  lemma {:induction false} RunAllStopsIfFirstDue(s: State, ms: seq<Monitor>)
    requires ms != [] && s.currentTime >= ms[0].end
    ensures Stopped(RunAll(s, ms))
    decreases |ms|
  {
    if |ms| == 1 {
      assert ms[..0] == [];
    } else {
      var init := ms[..|ms| - 1];
      assert init[0] == ms[0];
      RunAllStopsIfFirstDue(s, init);
    }
  }

  /** If the earliest subscribed monitor's `end` has been reached, the event stops playback
      and removes every region, whatever the later monitors do. */
  lemma TickStopsIfEarliestDue(s: State, now: real)
    requires s.monitors != [] && now >= s.monitors[0].end
    ensures Stopped(Tick(s, now))
  {
    RunAllStopsIfFirstDue(s.(currentTime := now), s.monitors);
  }

  /** Whatever listeners run, an event either changes nothing or leaves playback stopped. */
  lemma {:induction false} RunAllUnchangedOrStopped(s: State, ms: seq<Monitor>)
    ensures RunAll(s, ms) == s || Stopped(RunAll(s, ms))
    decreases |ms|
  {
    if ms != [] {
      RunAllUnchangedOrStopped(s, ms[..|ms| - 1]);
    }
  }

  /** Bounded playback stops after any click history: once the clock reaches the `end` of
      the latest click, the event leaves the engine paused, `isPlaying` false and no region,
      whether that click's own monitor or an earlier, stale one did the stopping. */
  lemma ClickThenEndStops(s: State, start: real, end: real, now: real)
    requires now >= end
    ensures Stopped(Tick(Click(s, start, end), now))
  {
    var c := Click(s, start, end);
    var ticked := c.(currentTime := now);
    var ms := c.monitors;
    var m := ms[|ms| - 1];
    var earlier := RunAll(ticked, ms[..|ms| - 1]);
    assert Tick(c, now) == RunMonitor(earlier, m);
    RunAllUnchangedOrStopped(ticked, ms[..|ms| - 1]);
    if earlier == ticked {
      assert earlier.currentTime >= m.end;
    }
  }

  // ---------------------------------------------------------------------------------------
  // Scenarios

  /** Bounded playback on an engine with no monitor yet: once the clock reaches `end`, the
      engine is paused back at `start`, no region and no monitor remain. */
  lemma BoundedPlaybackStops(s: State, start: real, end: real, now: real)
    requires s.monitors == [] && s.duration != 0.0 && now >= end
    ensures Stopped(Tick(Click(s, start, end), now))
    ensures Tick(Click(s, start, end), now).monitors == []
    ensures Tick(Click(s, start, end), now).currentTime == start
    ensures Tick(Click(s, start, end), now).lastSeek == Some(Fraction(start / s.duration))
  {
    var c := Click(s, start, end);
    ClickEffects(s, start, end);
    var m := Monitor(s.nextId, start, end);
    assert c.monitors == [m];
    var ticked := c.(currentTime := now);
    assert RunAll(ticked, [m][..0]) == ticked;
    assert Tick(c, now) == RunAll(ticked, [m]) == RunMonitor(ticked, m);
    DueMonitorStops(ticked, m);
  }

  /** A range taken from a transcript: a file of 36.18 s and the segment (12.1, 36.18). */
  lemma TranscriptSegmentScenario(s: State)
    requires s.monitors == [] && s.duration == 36.18
    ensures Click(s, 12.1, 36.18).lastSeek == Some(Fraction(12.1 / 36.18))
    ensures Click(s, 12.1, 36.18).playing
    ensures Tick(Click(s, 12.1, 36.18), 36.18).monitors == []
    ensures Stopped(Tick(Click(s, 12.1, 36.18), 36.18))
  {
    ClickEffects(s, 12.1, 36.18);
    BoundedPlaybackStops(s, 12.1, 36.18, 36.18);
  }

  /** Two clicks in a row: one region, the second range's, but two monitors. When the clock
      passes the first range's `end` only, the first click's stale monitor stops the second
      range and removes its region; the second monitor stays subscribed unless the seek back
      to the first `start` already lies at or past the second `end`. */
  lemma StaleMonitorStopsLaterRange(s: State, a1: real, e1: real, a2: real, e2: real, now: real)
    requires s.monitors == [] && s.duration != 0.0
    requires e1 <= now < e2
    ensures Click(Click(s, a1, e1), a2, e2).regions == [Region(s.nextId + 1, a2, e2, false, false)]
    ensures |Click(Click(s, a1, e1), a2, e2).monitors| == 2
    ensures Stopped(Tick(Click(Click(s, a1, e1), a2, e2), now))
    ensures a1 < e2 ==> Tick(Click(Click(s, a1, e1), a2, e2), now).monitors == [Monitor(s.nextId + 1, a2, e2)]
    ensures a1 < e2 ==> Tick(Click(Click(s, a1, e1), a2, e2), now).currentTime == a1
    ensures e2 <= a1 ==> Tick(Click(Click(s, a1, e1), a2, e2), now).monitors == []
    ensures e2 <= a1 ==> Tick(Click(Click(s, a1, e1), a2, e2), now).currentTime == a2
  {
    var c1 := Click(s, a1, e1);
    ClickEffects(s, a1, e1);
    var c2 := Click(c1, a2, e2);
    ClickEffects(c1, a2, e2);
    var m1 := Monitor(s.nextId, a1, e1);
    var m2 := Monitor(s.nextId + 1, a2, e2);
    assert c2.monitors == [m1, m2];
    var ticked := c2.(currentTime := now);
    assert RunAll(ticked, [m1, m2][..1][..0]) == ticked;
    var afterFirst := RunMonitor(ticked, m1);
    assert [m1, m2][..1] == [m1];
    assert RunAll(ticked, [m1, m2][..1]) == afterFirst;
    assert Tick(c2, now) == RunAll(ticked, [m1, m2]) == RunMonitor(afterFirst, m2);
    DueMonitorStops(ticked, m1);
    assert afterFirst.monitors == [m2] by {
      assert Without([m1, m2], m1) == [] + Without([m2], m1);
      assert Without([m2], m1) == [m2] + Without([], m1);
    }
    if a1 < e2 {
      IdleMonitorChangesNothing(afterFirst, m2);
    } else {
      DueMonitorStops(afterFirst, m2);
      assert Without([m2], m2) == [] + Without([], m2);
    }
  }
}
