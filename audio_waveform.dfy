/**
 * The waveform component: a wavesurfer engine created per (audio file, loop) selection,
 * its region and interaction handlers, the transport handlers, and the bounded playback
 * started by `handleSentenceClick`.
 *
 * `Engine` is the wavesurfer instance (with its regions plugin) as abstract state.
 * `Waveform` is the component: its React state and its `wavesurferRef`, which holds the live
 * engine or null. `SentenceClickSlot` is the parent's slot that `onSentenceClick` fills.
 * The bounded-playback handlers are proved to perform the transitions of module Playback.
 */
module AudioWaveform {
  import opened Wrappers
  import opened Playback

  /** A wavesurfer instance with its regions plugin. */
  class Engine {
    const firstId: nat              // identity of the first region or monitor it creates
    var live: bool                  // not yet destroyed
    var regions: seq<Region>
    var monitors: seq<Monitor>      // "audioprocess" listeners, in subscription order
    var playing: bool
    var currentTime: real
    var duration: real
    var lastSeek: Option<Seek>
    var rate: real
    var volume: real
    var nextId: nat

    /** The engine as seen by bounded playback, together with the component's `isPlaying`. */
    function Snapshot(isPlaying: bool): State
      reads this
    {
      State(regions, monitors, playing, currentTime, duration, lastSeek, isPlaying, nextId)
    }

    /** `WaveSurfer.create(...)` and `load(url)`: no region, no listener, nothing decoded yet.
        The objects it creates get identities from `firstId` on. */
    constructor (firstId: nat)
      ensures this.firstId == firstId && nextId == firstId
      ensures live && regions == [] && monitors == [] && !playing
      ensures currentTime == 0.0 && duration == 0.0 && lastSeek == None
      ensures rate == 1.0 && volume == 1.0
    {
      this.firstId := firstId;
      live, regions, monitors, playing := true, [], [], false;
      currentTime, duration, lastSeek := 0.0, 0.0, None;
      rate, volume, nextId := 1.0, 1.0, firstId;
    }

    /** The region object was created by this engine. */
    predicate Created(r: Region)
      reads this
    {
      firstId <= r.id < nextId
    }

    /** The asynchronous decode finishing: the duration becomes known. */
    method Decoded(d: real)
      requires live && d >= 0.0
      modifies this
      ensures duration == d
      ensures Snapshot(false) == old(Snapshot(false)).(duration := d)
      ensures live && rate == old(rate) && volume == old(volume)
    {
      duration := d;
    }

    /** `wavesurfer.seekTo(target)`: a finite fraction moves the clock to that fraction of the
        duration; a non-finite one leaves it where it is. */
    method SeekTo(target: Seek)
      modifies this
      ensures lastSeek == Some(target)
      ensures target.Fraction? ==> currentTime == target.f * duration
      ensures target.NonFinite? ==> currentTime == old(currentTime)
      ensures regions == old(regions) && monitors == old(monitors) && playing == old(playing)
      ensures duration == old(duration) && nextId == old(nextId)
      ensures live == old(live) && rate == old(rate) && volume == old(volume)
    {
      lastSeek := Some(target);
      if target.Fraction? {
        currentTime := target.f * duration;
      }
    }

    /** The plugin's regions all removed, one fixed region `[start, end]` added, and a
        monitor that captured `start` and `end` subscribed to "audioprocess". */
    method Arm(start: real, end: real)
      modifies this
      ensures regions == [Region(old(nextId), start, end, false, false)]
      ensures monitors == old(monitors) + [Monitor(old(nextId), start, end)]
      ensures nextId == old(nextId) + 1
      ensures playing == old(playing) && currentTime == old(currentTime) && duration == old(duration)
      ensures lastSeek == old(lastSeek) && live == old(live) && rate == old(rate) && volume == old(volume)
    {
      regions := [];
      regions := [Region(nextId, start, end, false, false)];
      monitors := monitors + [Monitor(nextId, start, end)];
      nextId := nextId + 1;
    }

    /** `wavesurfer.destroy()`: its listeners and regions go with it. */
    method Destroy()
      modifies this
      ensures !live && regions == [] && monitors == [] && !playing
    {
      live, regions, monitors, playing := false, [], [], false;
    }
  }

  /** What the component holds besides `isPlaying` and the engine reference. */
  datatype ControlState = ControlState(
    audioFile: Option<nat>,           // the `audioFile` prop, by identity
    loop: bool,
    mounted: bool,
    playbackRate: real,
    volume: real,
    activeRegion: Option<Region>,
    handlerActive: Option<Region>,    // `activeRegion` as the current region handlers captured it
    handlerLoop: bool)                // `loop` as the current region handlers captured it

  /** The parent's slot filled by `onSentenceClick(handleSentenceClick)`. */
  class SentenceClickSlot {
    var handler: Waveform?

    constructor ()
      ensures handler == null
    {
      handler := null;
    }

    /** The transcript side invoking the registered callback with a time range. */
    method Invoke(start: real, end: real) returns (thrown: bool)
      requires handler != null && handler.Valid()
      modifies handler, handler.engine
      ensures handler.Valid() && handler.engine == old(handler.engine)
      ensures thrown <==> handler.engine == null
      ensures !thrown ==> handler.View() == Click(old(handler.View()), start, end)
      ensures handler.Controls() == old(handler.Controls())
    {
      thrown := handler.SentenceClick(start, end);
    }
  }

  /** The AudioWaveform component. */
  class Waveform {
    var audioFile: Option<nat>
    var loop: bool
    var mounted: bool
    var engine: Engine?               // wavesurferRef.current
    var isPlaying: bool
    var playbackRate: real
    var volume: real
    var activeRegion: Option<Region>
    var handlerActive: Option<Region>
    var handlerLoop: bool
    var idBase: nat                   // region identities below it belong to destroyed engines
    ghost var retired: set<Engine>    // every engine this component has destroyed

    /** The reference holds an engine exactly while mounted with a file; that engine is live,
        and every engine created before it has been destroyed. Identities stand for object
        identity: the live engine numbers its objects from `idBase` on, every region it holds
        is its own, the active region is one created so far, and the region the handlers
        captured belongs to an engine created earlier. */
    ghost predicate Valid()
      reads this, engine, retired
    {
      && (engine != null <==> mounted && audioFile.Some?)
      && (engine != null ==> engine.live && engine !in retired && WellFormed(View()))
      && (forall e | e in retired :: !e.live)
      && (engine != null ==>
            && engine.firstId == idBase <= engine.nextId
            && (forall r | r in engine.regions :: engine.Created(r))
            && (handlerActive.Some? ==> handlerActive.value.id < idBase))
      && (activeRegion.Some? ==> activeRegion.value.id < if engine != null then engine.nextId else idBase)
    }

    function View(): State
      reads this, engine
      requires engine != null
    {
      engine.Snapshot(isPlaying)
    }

    function Controls(): ControlState
      reads this
    {
      ControlState(audioFile, loop, mounted, playbackRate, volume, activeRegion, handlerActive, handlerLoop)
    }

    /** Mounting with the given file: initial state, then the load effect. */
    constructor (file: Option<nat>)
      ensures Valid() && retired == {}
      ensures Controls() == ControlState(file, false, true, 1.0, 1.0, None, None, false)
      ensures !isPlaying
      ensures file.Some? ==> fresh(engine) && View() == State([], [], false, 0.0, 0.0, None, false, 0)
    {
      audioFile, loop, mounted := file, false, true;
      isPlaying, playbackRate, volume := false, 1.0, 1.0;
      activeRegion, handlerActive, handlerLoop := None, None, false;
      engine := null;
      idBase := 0;
      retired := {};
      new;
      LoadEffect();
    }

    /** The effect on `[audioFile, loop]`: with a file, create an engine, load the file and
        attach handlers that capture the current `activeRegion` and `loop`. */
    method LoadEffect()
      requires engine == null && mounted && forall e | e in retired :: !e.live
      requires activeRegion.Some? ==> activeRegion.value.id < idBase
      modifies this
      ensures Valid() && retired == old(retired) && isPlaying == old(isPlaying) && idBase == old(idBase)
      ensures Controls() == old(Controls()).(handlerActive := old(activeRegion), handlerLoop := old(loop))
      ensures audioFile.Some? ==> fresh(engine) && View() == State([], [], false, 0.0, 0.0, None, isPlaying, idBase)
      ensures audioFile.Some? ==> engine.rate == 1.0 && engine.volume == 1.0
    {
      handlerActive, handlerLoop := activeRegion, loop;
      if audioFile.Some? {
        var created := new Engine(idBase);
        engine := created;
      }
    }

    /** The effect's cleanup: destroy the engine and null the reference. */
    method Cleanup()
      requires Valid()
      modifies this, engine
      ensures engine == null && Controls() == old(Controls()) && isPlaying == old(isPlaying)
      ensures old(engine) != null ==> !old(engine).live && retired == old(retired) + {old(engine)}
      ensures old(engine) == null ==> retired == old(retired)
      ensures forall e | e in retired :: !e.live
      ensures idBase == if old(engine) != null then old(engine.nextId) else old(idBase)
      ensures activeRegion.Some? ==> activeRegion.value.id < idBase
    {
      if engine != null {
        idBase := engine.nextId;
        engine.Destroy();
        retired := retired + {engine};
        engine := null;
      }
    }

    /** A new `audioFile` prop: when it differs, the old engine is destroyed before the next
        one is created; React state such as `isPlaying` is kept. */
    method SelectFile(file: Option<nat>)
      requires Valid() && mounted
      modifies this, engine
      ensures Valid() && audioFile == file && mounted && isPlaying == old(isPlaying)
      ensures file == old(audioFile) ==> unchanged(this)
      ensures file != old(audioFile) && old(engine) != null ==> !old(engine).live
      ensures file != old(audioFile) ==> idBase == if old(engine) != null then old(engine.nextId) else old(idBase)
      ensures file != old(audioFile) && file.Some? ==>
        fresh(engine) && View() == State([], [], false, 0.0, 0.0, None, isPlaying, idBase)
      ensures file != old(audioFile) ==>
        Controls() == old(Controls()).(audioFile := file, handlerActive := old(activeRegion), handlerLoop := old(loop))
    {
      if file != audioFile {
        Cleanup();
        audioFile := file;
        LoadEffect();
      }
    }

    /** The "Loop regions" checkbox (`setLoop`): a change re-runs the load effect, so the
        engine is replaced by a fresh one. */
    method SetLoop(checked: bool)
      requires Valid() && mounted
      modifies this, engine
      ensures Valid() && loop == checked && mounted && isPlaying == old(isPlaying)
      ensures checked == old(loop) ==> unchanged(this)
      ensures checked != old(loop) && old(engine) != null ==> !old(engine).live
      ensures checked != old(loop) ==> idBase == if old(engine) != null then old(engine.nextId) else old(idBase)
      ensures checked != old(loop) && audioFile.Some? ==>
        fresh(engine) && View() == State([], [], false, 0.0, 0.0, None, isPlaying, idBase)
      ensures checked != old(loop) ==>
        Controls() == old(Controls()).(loop := checked, handlerActive := old(activeRegion), handlerLoop := checked)
    {
      if checked != loop {
        Cleanup();
        loop := checked;
        LoadEffect();
      }
    }

    /** Unmounting runs the cleanup of the last effect. */
    method Unmount()
      requires Valid() && mounted
      modifies this, engine
      ensures Valid() && engine == null && !mounted
      ensures old(engine) != null ==> !old(engine).live
    {
      Cleanup();
      mounted := false;
    }

    /** `handlePlayPause`: toggle the engine and copy its playing flag; no engine, no effect. */
    method PlayPause()
      requires Valid()
      modifies this, engine
      ensures Valid() && engine == old(engine) && retired == old(retired)
      ensures engine == null ==> unchanged(this)
      ensures engine != null ==> View() == old(View()).(playing := !old(engine.playing), isPlaying := !old(engine.playing))
      ensures engine != null ==> engine.rate == old(engine.rate) && engine.volume == old(engine.volume)
      ensures Controls() == old(Controls())
    {
      if engine != null {
        engine.playing := !engine.playing;
        isPlaying := engine.playing;
      }
    }

    /** `handlePlaybackRateChange`: the state always, the engine only when there is one. */
    method PlaybackRateChange(rate: real)
      requires Valid()
      modifies this, engine
      ensures Valid() && engine == old(engine) && retired == old(retired) && isPlaying == old(isPlaying)
      ensures Controls() == old(Controls()).(playbackRate := rate)
      ensures engine != null ==> engine.rate == rate && engine.volume == old(engine.volume) && View() == old(View())
    {
      playbackRate := rate;
      if engine != null {
        engine.rate := rate;
      }
    }

    /** `handleVolumeChange`: the state always, the engine only when there is one. */
    method VolumeChange(vol: real)
      requires Valid()
      modifies this, engine
      ensures Valid() && engine == old(engine) && retired == old(retired) && isPlaying == old(isPlaying)
      ensures Controls() == old(Controls()).(volume := vol)
      ensures engine != null ==> engine.volume == vol && engine.rate == old(engine.rate) && View() == old(View())
    {
      volume := vol;
      if engine != null {
        engine.volume := vol;
      }
    }

    /** `handleSentenceClick(start, end)`: throws when there is no engine (the plugin lookup
        precedes the null check) and otherwise performs `Click`. */
    method SentenceClick(start: real, end: real) returns (thrown: bool)
      requires Valid()
      modifies this, engine
      ensures Valid() && engine == old(engine) && retired == old(retired)
      ensures thrown <==> engine == null
      ensures thrown ==> unchanged(this)
      ensures !thrown ==> View() == Click(old(View()), start, end)
      ensures !thrown ==> engine.rate == old(engine.rate) && engine.volume == old(engine.volume)
      ensures Controls() == old(Controls())
    {
      if engine == null {
        return true;
      }
      ghost var before := View();
      engine.Arm(start, end);
      ghost var armed := View();
      assert armed == before.(regions := [Region(before.nextId, start, end, false, false)],
                              monitors := before.monitors + [Monitor(before.nextId, start, end)],
                              nextId := before.nextId + 1);
      engine.SeekTo(SeekFraction(start, engine.duration));
      assert View() == Playback.SeekTo(armed, SeekFraction(start, before.duration));
      engine.playing := true;
      isPlaying := true;
      ClickKeepsWellFormed(before, start, end);
      assert activeRegion == old(activeRegion) && idBase == old(idBase);
      return false;
    }

    /** An "audioprocess" event at engine time `now`: every monitor subscribed when the event
        is emitted runs in order against the engine's current time. */
    method AudioProcess(now: real)
      requires Valid() && engine != null
      modifies this, engine
      ensures Valid() && engine == old(engine) && retired == old(retired)
      ensures View() == Tick(old(View()), now)
      ensures engine.rate == old(engine.rate) && engine.volume == old(engine.volume)
      ensures Controls() == old(Controls())
    {
      engine.currentTime := now;
      ghost var start := old(View()).(currentTime := now);
      assert View() == start;
      var listeners := engine.monitors;
      var i := 0;
      while i < |listeners|
        invariant 0 <= i <= |listeners| && listeners == old(engine.monitors)
        invariant engine == old(engine) && retired == old(retired) && engine.live
        invariant View() == RunAll(start, listeners[..i])
        invariant engine.rate == old(engine.rate) && engine.volume == old(engine.volume)
        invariant Controls() == old(Controls()) && idBase == old(idBase)
      {
        var m := listeners[i];
        PlaybackMonitor(m);
        assert listeners[..i + 1][..i] == listeners[..i];
        assert RunAll(start, listeners[..i + 1]) == RunMonitor(RunAll(start, listeners[..i]), m);
        i := i + 1;
      }
      assert listeners[..i] == listeners;
      TickOnlyUnsubscribes(old(View()), now);
    }

    /** One `handlePlaybackMonitor` closure running: once the clock has reached its captured
        `end`, pause, seek back to its captured `start`, unsubscribe, remove every region and
        clear `isPlaying`. */
    method PlaybackMonitor(m: Monitor)
      requires engine != null
      modifies this, engine
      ensures engine == old(engine) && retired == old(retired) && engine.live == old(engine.live)
      ensures idBase == old(idBase)
      ensures View() == RunMonitor(old(View()), m)
      ensures engine.rate == old(engine.rate) && engine.volume == old(engine.volume)
      ensures Controls() == old(Controls())
    {
      if engine.currentTime >= m.end {
        engine.playing := false;
        engine.SeekTo(SeekFraction(m.start, engine.duration));
        engine.monitors := Without(engine.monitors, m);
        engine.regions := [];
        isPlaying := false;
      }
    }

    /** Drag selection on the waveform (enabled at load): a free, movable and resizable region. */
    method DragSelect(start: real, end: real)
      requires Valid() && engine != null
      modifies engine
      ensures Valid()
      ensures View() == old(View()).(regions := old(engine.regions) + [Region(old(engine.nextId), start, end, true, true)],
                                     nextId := old(engine.nextId) + 1)
      ensures engine.rate == old(engine.rate) && engine.volume == old(engine.volume)
    {
      engine.regions := engine.regions + [Region(engine.nextId, start, end, true, true)];
      engine.nextId := engine.nextId + 1;
    }

    /** "region-in", emitted for a region of the live engine: the region becomes active. */
    method RegionIn(region: Region)
      requires Valid() && engine != null && engine.Created(region)
      modifies this
      ensures Valid() && engine == old(engine) && Controls() == old(Controls()).(activeRegion := Some(region))
      ensures View() == old(View())
    {
      activeRegion := Some(region);
    }

    /** "region-out", emitted for a region of the live engine: the handler clears the active
        region only when the region is the very object it captured as `activeRegion` and the
        captured `loop` is off. The handlers were attached when the engine had no region yet,
        so the captured object is null or a region of a destroyed engine, and the test never
        holds: the event changes nothing. */
    method RegionOut(region: Region)
      requires Valid() && engine != null && engine.Created(region)
      modifies this
      ensures Valid() && engine == old(engine) && View() == old(View())
      ensures unchanged(this)
      ensures Controls() == old(Controls())
    {
      activeRegion := if handlerActive == Some(region) && !handlerLoop then None else activeRegion;
    }

    /** "region-click", emitted for a region of the live engine: the region becomes active
        and plays from its start; `isPlaying` is not updated. */
    method RegionClick(region: Region)
      requires Valid() && engine != null && engine.Created(region)
      modifies this, engine
      ensures Valid() && engine == old(engine) && Controls() == old(Controls()).(activeRegion := Some(region))
      ensures View() == old(View()).(currentTime := region.start, playing := true)
      ensures engine.rate == old(engine.rate) && engine.volume == old(engine.volume)
    {
      activeRegion := Some(region);
      engine.currentTime := region.start;
      engine.playing := true;
    }

    /** "interaction": the user clicked the waveform at time `at`; the active region is
        cleared, while subscribed monitors and regions stay. */
    method Interaction(at: real)
      requires Valid() && engine != null
      modifies this, engine
      ensures Valid() && Controls() == old(Controls()).(activeRegion := None)
      ensures View() == old(View()).(currentTime := at)
      ensures engine.rate == old(engine.rate) && engine.volume == old(engine.volume)
    {
      engine.currentTime := at;
      activeRegion := None;
    }

    /** The effect on `[onSentenceClick]`: hand `handleSentenceClick` to the parent's slot,
        replacing whatever it held. */
    method RegisterWith(slot: SentenceClickSlot?)
      modifies slot
      ensures slot != null ==> slot.handler == this
    {
      if slot != null {
        slot.handler := this;
      }
    }
  }
}
