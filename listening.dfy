/**
 * The listening loop of listen_audio as a specification: each read chunk
 * slides the window; a full window that is loud enough is matched, and the
 * trigger gate fires when the distance is below the threshold and more than
 * the cooldown has passed since the last fire.
 */
module Listening {
  import opened Options
  import opened Audio
  import opened Window
  import opened Matching

  /** One loop iteration's input: the chunk read and the clock (`time.time()`) at its gate. */
  datatype Tick = Tick(chunk: Chunk, now: real)

  /** A fire: the time it happened and the distance handed to trigger_action. */
  datatype TriggerEvent = TriggerEvent(time: real, distance: real)

  /** The settings and collaborators the loop reads. */
  datatype ListenConfig = ListenConfig(
    capacity: nat,
    threshold: real,
    cooldown: real,
    minVolume: real,
    model: Option<SoundModel>,
    extract: Extractor,
    align: Aligner)

  /** The state the loop changes: the window and the two trigger fields. */
  datatype ListenState = ListenState(window: seq<Chunk>, lastTriggerTime: real, triggerCount: nat)

  datatype StepResult = StepResult(state: ListenState, event: Option<TriggerEvent>)

  /** The final state and every fire, in order, of a run of the loop. */
  datatype Trace = Trace(state: ListenState, events: seq<TriggerEvent>)

  /** The trigger gate: `distance < threshold and now - last_trigger_time > cooldown`. */
  predicate Fires(d: Distance, now: real, lastTriggerTime: real, threshold: real, cooldown: real)
  {
    Below(d, threshold) && now - lastTriggerTime > cooldown
  }

  /** An `Inf` distance never fires, whatever the clock and the settings. */
  lemma InfNeverFires(now: real, lastTriggerTime: real, threshold: real, cooldown: real)
    ensures !Fires(Inf, now, lastTriggerTime, threshold, cooldown)
  {
  }

  /** One iteration of the `while self.is_listening` loop. */
  function Next(s: ListenState, t: Tick, cfg: ListenConfig): (r: StepResult)
    ensures r.state.window == Slide(s.window, t.chunk, cfg.capacity)
    ensures r.event.None? ==>
      r.state.lastTriggerTime == s.lastTriggerTime && r.state.triggerCount == s.triggerCount
    ensures r.event.Some? ==>
      var audio := Flatten(r.state.window);
      |r.state.window| == cfg.capacity &&
      HasSufficientVolume(audio, cfg.minVolume) &&
      CompareAudio(cfg.model, audio, cfg.minVolume, cfg.extract, cfg.align) == Finite(r.event.value.distance) &&
      r.event.value.distance < cfg.threshold &&
      t.now - s.lastTriggerTime > cfg.cooldown &&
      r.event.value.time == t.now &&
      r.state.lastTriggerTime == t.now &&
      r.state.triggerCount == s.triggerCount + 1
    ensures
      var audio := Flatten(r.state.window);
      |r.state.window| == cfg.capacity && HasSufficientVolume(audio, cfg.minVolume) &&
      Fires(CompareAudio(cfg.model, audio, cfg.minVolume, cfg.extract, cfg.align),
            t.now, s.lastTriggerTime, cfg.threshold, cfg.cooldown)
      ==> r.event.Some?
  {
    var window := Slide(s.window, t.chunk, cfg.capacity);
    var quiet := StepResult(s.(window := window), None);
    if |window| != cfg.capacity then quiet
    else
      var audio := Flatten(window);
      if !HasSufficientVolume(audio, cfg.minVolume) then quiet
      else
        var d := CompareAudio(cfg.model, audio, cfg.minVolume, cfg.extract, cfg.align);
        if Fires(d, t.now, s.lastTriggerTime, cfg.threshold, cfg.cooldown) then
          StepResult(ListenState(window, t.now, s.triggerCount + 1), Some(TriggerEvent(t.now, d.value)))
        else quiet
  }

  function Emitted(event: Option<TriggerEvent>): (events: seq<TriggerEvent>)
  {
    if event.Some? then [event.value] else []
  }

  /** The loop run over `ticks`, one iteration per tick, oldest first. */
  function Run(s0: ListenState, ticks: seq<Tick>, cfg: ListenConfig): (tr: Trace)
    ensures |tr.events| <= |ticks|
    decreases |ticks|
  {
    if ticks == [] then Trace(s0, [])
    else
      var before := Run(s0, ticks[..|ticks| - 1], cfg);
      var step := Next(before.state, ticks[|ticks| - 1], cfg);
      Trace(step.state, before.events + Emitted(step.event))
  }

  /** The chunks carried by `ticks`, in order. */
  function ChunksOf(ticks: seq<Tick>): (chunks: seq<Chunk>)
    ensures |chunks| == |ticks|
    ensures forall i | 0 <= i < |ticks| :: chunks[i] == ticks[i].chunk
  {
    if ticks == [] then [] else ChunksOf(ticks[..|ticks| - 1]) + [ticks[|ticks| - 1].chunk]
  }

  /**
   * Starting from the empty `buffer`, the window after any run holds exactly
   * the newest `capacity` chunks read, in arrival order, and never more than
   * `capacity` chunks.
   */
  lemma {:induction false} RunWindow(s0: ListenState, ticks: seq<Tick>, cfg: ListenConfig)
    requires s0.window == []
    ensures Run(s0, ticks, cfg).state.window == LastN(ChunksOf(ticks), cfg.capacity)
    ensures |Run(s0, ticks, cfg).state.window| <= cfg.capacity
  {
    if ticks != [] {
      var prefix, last := ticks[..|ticks| - 1], ticks[|ticks| - 1];
      RunWindow(s0, prefix, cfg);
      var before := Run(s0, prefix, cfg).state;
      assert Run(s0, ticks, cfg).state == Next(before, last, cfg).state;
      assert Next(before, last, cfg).state.window == Slide(before.window, last.chunk, cfg.capacity);
      SlideKeepsNewest(ChunksOf(prefix), last.chunk, cfg.capacity);
    }
  }

  /** Consecutive fires are more than `cooldown` apart. */
  ghost predicate Spaced(events: seq<TriggerEvent>, cooldown: real)
  {
    forall i | 0 < i < |events| :: events[i].time - events[i - 1].time > cooldown
  }

  /**
   * What the trigger gate guarantees over a whole run: every fire is below the
   * threshold; the first fire is more than `cooldown` after the initial
   * `last_trigger_time` and each later one more than `cooldown` after the one
   * before; `last_trigger_time` is the time of the latest fire (or unchanged);
   * `trigger_count` grew by exactly the number of fires.
   */
  lemma {:induction false} RunTriggers(s0: ListenState, ticks: seq<Tick>, cfg: ListenConfig)
    ensures var tr := Run(s0, ticks, cfg);
      tr.state.triggerCount == s0.triggerCount + |tr.events| &&
      (tr.events == [] ==> tr.state.lastTriggerTime == s0.lastTriggerTime) &&
      (tr.events != [] ==>
        tr.state.lastTriggerTime == tr.events[|tr.events| - 1].time &&
        tr.events[0].time - s0.lastTriggerTime > cfg.cooldown) &&
      Spaced(tr.events, cfg.cooldown) &&
      (forall i | 0 <= i < |tr.events| :: tr.events[i].distance < cfg.threshold)
  {
    if ticks != [] {
      var prefix := ticks[..|ticks| - 1];
      RunTriggers(s0, prefix, cfg);
      var before := Run(s0, prefix, cfg);
      var step := Next(before.state, ticks[|ticks| - 1], cfg);
      var events := before.events + Emitted(step.event);
      assert Run(s0, ticks, cfg) == Trace(step.state, events);
      if step.event.Some? {
        assert events[|events| - 1] == step.event.value;
        assert before.events != [] ==> events[0] == before.events[0];
      }
    }
  }

  /**
   * With a non-negative cooldown, any two fires (not only consecutive ones)
   * are more than `cooldown` apart. No assumption about the clock is needed.
   */
  lemma {:induction false} SpacedPairwise(events: seq<TriggerEvent>, cooldown: real)
    requires Spaced(events, cooldown) && cooldown >= 0.0
    ensures forall i, j | 0 <= i < j < |events| :: events[j].time - events[i].time > cooldown
  {
    if events != [] {
      var prefix := events[..|events| - 1];
      assert Spaced(prefix, cooldown);
      SpacedPairwise(prefix, cooldown);
      forall i, j | 0 <= i < j < |events|
        ensures events[j].time - events[i].time > cooldown
      {
        if j < |events| - 1 {
          assert events[j] == prefix[j] && events[i] == prefix[i];
        } else if i < j - 1 {
          assert events[j - 1].time - events[i].time > cooldown by {
            assert events[j - 1] == prefix[j - 1] && events[i] == prefix[i];
          }
        }
      }
    }
  }

  /**
   * Any two fires of a run are more than a non-negative `cooldown` apart, and
   * the first is more than `cooldown` after the initial `last_trigger_time`.
   */
  lemma RunFiresApart(s0: ListenState, ticks: seq<Tick>, cfg: ListenConfig)
    requires cfg.cooldown >= 0.0
    ensures var events := Run(s0, ticks, cfg).events;
      (events != [] ==> events[0].time - s0.lastTriggerTime > cfg.cooldown) &&
      forall i, j | 0 <= i < j < |events| :: events[j].time - events[i].time > cfg.cooldown
  {
    RunTriggers(s0, ticks, cfg);
    SpacedPairwise(Run(s0, ticks, cfg).events, cfg.cooldown);
  }

  /** Whether a run neither fired nor touched the trigger fields. */
  ghost predicate Quiet(s0: ListenState, tr: Trace)
  {
    tr.events == [] &&
    tr.state.lastTriggerTime == s0.lastTriggerTime &&
    tr.state.triggerCount == s0.triggerCount
  }

  /**
   * Partial windows are never evaluated: starting from the empty `buffer`,
   * the first `capacity - 1` chunks never lead to a fire.
   */
  lemma {:induction false} RunWarmup(s0: ListenState, ticks: seq<Tick>, cfg: ListenConfig)
    requires s0.window == [] && |ticks| < cfg.capacity
    ensures Quiet(s0, Run(s0, ticks, cfg))
  {
    if ticks != [] {
      var prefix := ticks[..|ticks| - 1];
      RunWarmup(s0, prefix, cfg);
      RunWindow(s0, ticks, cfg);
    }
  }

  /** Silence never fires when the minimum volume is non-negative. */
  lemma {:induction false} RunSilence(s0: ListenState, ticks: seq<Tick>, cfg: ListenConfig)
    requires cfg.minVolume >= 0.0
    requires s0.window == []
    requires forall i | 0 <= i < |ticks| :: IsSilent(ticks[i].chunk)
    ensures Quiet(s0, Run(s0, ticks, cfg))
  {
    if ticks != [] {
      var prefix := ticks[..|ticks| - 1];
      RunSilence(s0, prefix, cfg);
      RunWindow(s0, ticks, cfg);
      var before := Run(s0, prefix, cfg);
      var step := Next(before.state, ticks[|ticks| - 1], cfg);
      assert Run(s0, ticks, cfg) == Trace(step.state, before.events + Emitted(step.event));
      var window := step.state.window;
      forall i | 0 <= i < |window|
        ensures IsSilent(window[i])
      {
        assert window[i] == ChunksOf(ticks)[|ticks| - |window| + i];
      }
      FlattenSilence(window);
      SilenceHasNoVolume(Flatten(window), cfg.minVolume);
    }
  }

  /**
   * Without a model, or with a model of fewer than 8 frames, every distance is
   * `Inf` and the loop never fires.
   */
  lemma {:induction false} RunWithoutUsableModel(s0: ListenState, ticks: seq<Tick>, cfg: ListenConfig)
    requires cfg.model.None? || |cfg.model.value.mfcc| < MIN_FRAMES
    ensures Quiet(s0, Run(s0, ticks, cfg))
  {
    if ticks != [] {
      RunWithoutUsableModel(s0, ticks[..|ticks| - 1], cfg);
    }
  }
}
