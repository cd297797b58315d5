/**
 * SoundTriggerApp: the fields the trigger engine updates in place, training,
 * the listening toggle and the listening loop. The widgets, dialogs, audio
 * streams, threads and the process launch are not part of this model.
 */
module App {
  import opened Options
  import opened Audio
  import opened Window
  import opened Matching
  import opened Listening

  /** How train_model ends. */
  datatype TrainOutcome =
    | NoPath          // no target audio path: returns at once
    | LoadFailed      // librosa.load raised
    | TooShort        // fewer than `RATE * 0.3` samples
    | ExtractFailed   // extract_mfcc raised
    | Trained(model: SoundModel)

  /**
   * train_model's decision for the clip at `path`; `loaded` is what
   * librosa.load returned for it (`None` when it raised).
   */
  function Train(path: string, loaded: Option<seq<real>>, extract: Extractor): (r: TrainOutcome)
    ensures path == "" ==> r == NoPath
    ensures path != "" && loaded.None? ==> r == LoadFailed
    ensures path != "" && loaded.Some? && |loaded.value| < MIN_TRAIN_SAMPLES ==> r == TooShort
    ensures
      path != "" && loaded.Some? && |loaded.value| >= MIN_TRAIN_SAMPLES && extract(loaded.value).None?
      ==> r == ExtractFailed
    ensures r.Trained? <==>
      path != "" && loaded.Some? && |loaded.value| >= MIN_TRAIN_SAMPLES && extract(loaded.value).Some?
    ensures r.Trained? ==>
      r.model.path == path &&
      Some(r.model.mfcc) == extract(loaded.value) &&
      r.model.length * (RATE as real) == |loaded.value| as real &&
      r.model.length >= 0.3
  {
    if path == "" then NoPath
    else match loaded
      case None => LoadFailed
      case Some(y) =>
        if |y| < MIN_TRAIN_SAMPLES then TooShort
        else match extract(y)
          case None => ExtractFailed
          case Some(mfcc) => Trained(SoundModel(mfcc, path, |y| as real / RATE as real))
  }

  /** How toggle_listening ends: the first missing prerequisite, or the toggle. */
  datatype ToggleOutcome = NoTargetAudio | NoExe | NoModel | Toggled

  /** toggle_listening's checks, in the source's order. */
  function ToggleCheck(targetAudioPath: string, exePath: string, model: Option<SoundModel>): (r: ToggleOutcome)
    ensures r == Toggled <==> targetAudioPath != "" && exePath != "" && model.Some?
    ensures targetAudioPath == "" ==> r == NoTargetAudio
    ensures targetAudioPath != "" && exePath == "" ==> r == NoExe
    ensures targetAudioPath != "" && exePath != "" && model.None? ==> r == NoModel
  {
    if targetAudioPath == "" then NoTargetAudio
    else if exePath == "" then NoExe
    else if model.None? then NoModel
    else Toggled
  }

  class SoundTriggerApp {
    var targetAudioPath: string
    var exePath: string
    var isListening: bool
    var soundModel: Option<SoundModel>
    var threshold: real
    var minVolume: real
    var lastTriggerTime: real
    var cooldown: real
    var triggerCount: nat

    /** The initial values set in `__init__`. */
    constructor ()
      ensures targetAudioPath == "" && exePath == "" && !isListening && soundModel.None?
      ensures threshold == 2.5 && minVolume == 0.008 && cooldown == 1.2
      ensures lastTriggerTime == 0.0 && triggerCount == 0
    {
      targetAudioPath, exePath := "", "";
      isListening := false;
      soundModel := None;
      threshold, minVolume := 2.5, 0.008;
      lastTriggerTime, cooldown := 0.0, 1.2;
      triggerCount := 0;
    }

    /** train_model: replaces the model only when training succeeds. */
    method TrainModel(loaded: Option<seq<real>>, extract: Extractor) returns (outcome: TrainOutcome)
      modifies this`soundModel
      ensures outcome == Train(targetAudioPath, loaded, extract)
      ensures soundModel == if outcome.Trained? then Some(outcome.model) else old(soundModel)
    {
      if targetAudioPath == "" {
        return NoPath;
      }
      if loaded.None? {
        return LoadFailed;
      }
      var y := loaded.value;
      if |y| < MIN_TRAIN_SAMPLES {
        return TooShort;
      }
      var features := extract(y);
      if features.None? {
        return ExtractFailed;
      }
      var model := SoundModel(features.value, targetAudioPath, |y| as real / RATE as real);
      soundModel := Some(model);
      outcome := Trained(model);
    }

    /** toggle_listening: flips `is_listening` only when all three prerequisites are set. */
    method ToggleListening() returns (outcome: ToggleOutcome)
      modifies this`isListening
      ensures outcome == ToggleCheck(targetAudioPath, exePath, soundModel)
      ensures isListening == if outcome == Toggled then !old(isListening) else old(isListening)
    {
      if targetAudioPath == "" {
        return NoTargetAudio;
      }
      if exePath == "" {
        return NoExe;
      }
      if soundModel.None? {
        return NoModel;
      }
      isListening := !isListening;
      outcome := Toggled;
    }

    /** The settings and collaborators the listening loop reads from this object. */
    function Config(extract: Extractor, align: Aligner): (cfg: ListenConfig)
      reads this
    {
      ListenConfig(BUFFER_SIZE, threshold, cooldown, minVolume, soundModel, extract, align)
    }

    /** One iteration of listen_audio's loop on the chunk and clock of `tick`. */
    method ListenStep(window: SlidingWindow, tick: Tick, extract: Extractor, align: Aligner)
      returns (event: Option<TriggerEvent>)
      requires window.Valid() && window.capacity == BUFFER_SIZE
      modifies window, this`lastTriggerTime, this`triggerCount
      ensures window.Valid()
      ensures Next(ListenState(old(window.chunks), old(lastTriggerTime), old(triggerCount)), tick, Config(extract, align))
              == StepResult(ListenState(window.chunks, lastTriggerTime, triggerCount), event)
    {
      event := None;
      var full := window.Push(tick.chunk);
      if !full {
        return;
      }
      var audio := window.Snapshot();
      if !HasSufficientVolume(audio, minVolume) {
        return;
      }
      var distance := CompareAudio(soundModel, audio, minVolume, extract, align);
      var now := tick.now;
      if Fires(distance, now, lastTriggerTime, threshold, cooldown) {
        lastTriggerTime := now;
        triggerCount := triggerCount + 1;
        event := Some(TriggerEvent(now, distance.value));
      }
    }

    /**
     * listen_audio over the reads made while listening: starts from an empty
     * buffer of `buffer_size` chunks and returns every fire in order.
     */
    method ListenAudio(ticks: seq<Tick>, extract: Extractor, align: Aligner)
      returns (events: seq<TriggerEvent>)
      modifies this`lastTriggerTime, this`triggerCount
      ensures
        var tr := Run(ListenState([], old(lastTriggerTime), old(triggerCount)), ticks, Config(extract, align));
        lastTriggerTime == tr.state.lastTriggerTime &&
        triggerCount == tr.state.triggerCount &&
        events == tr.events
    {
      var s0 := ListenState([], lastTriggerTime, triggerCount);
      var window := new SlidingWindow(BUFFER_SIZE);
      events := [];
      var i := 0;
      while i < |ticks|
        invariant 0 <= i <= |ticks|
        invariant fresh(window) && window.Valid() && window.capacity == BUFFER_SIZE
        invariant Run(s0, ticks[..i], Config(extract, align))
                  == Trace(ListenState(window.chunks, lastTriggerTime, triggerCount), events)
      {
        var event := ListenStep(window, ticks[i], extract, align);
        events := events + Emitted(event);
        assert ticks[..i + 1][..i] == ticks[..i];
        i := i + 1;
      }
      assert ticks[..i] == ticks;
    }
  }
}
