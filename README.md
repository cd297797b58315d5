# Sound trigger engine — Dafny model

The Sound Trigger application (`main.py`) listens to a microphone. When a
previously recorded reference sound recurs, it launches a chosen program. This
project models the decision logic around that loop and proves its properties:

- the sliding capture window of `listen_audio`: append each chunk, then
  `pop(0)` once the window holds more than `buffer_size` chunks;
- the trigger gate with cooldown, over `last_trigger_time` and `trigger_count`;
- the guard chain of `compare_audio`, which returns the `float('inf')`
  sentinel in every failure case;
- the volume gate `has_sufficient_volume`;
- the preconditions of `train_model` and `toggle_listening`;
- the constants set in `setup_audio`.

Modules:

- `Options` (options.dfy) holds the optional value.
- `Audio` (audio.dfy) holds the constants, 16-bit samples, chunk
  concatenation and the volume gate.
- `Matching` (matching.dfy) holds the `Inf | Finite` distance and
  `CompareAudio`. Feature extraction and the DTW aligner are function
  parameters; a `None` result stands for an exception raised inside them.
- `Window` (window.dfy) holds the window as a class with a `seq` field and
  its specification functions.
- `Listening` (listening.dfy) holds one loop iteration (`Next`), a whole run
  (`Run`) and the lemmas about runs.
- `App` (app.dfy) holds the `SoundTriggerApp` class. Its methods change the
  fields in place and are proved equal to the specification functions.

Constants follow the code. `RATE * 0.3` and `RATE * 0.4` are exactly 4800.0
and 6400.0 in double precision, so the length checks are `< 4800` and
`< 6400` samples. `int(16000 / 1024 * 1.2)` is 18 chunks, written as
`RATE * 12 / (CHUNK * 10)`.

Note that in the code:

- a fire needs `now - last_trigger_time` strictly greater than the cooldown;
- the volume must be strictly above `min_volume`;
- training does not reject a reference of fewer than 8 frames (such a model
  simply never matches, see `Listening.RunWithoutUsableModel`);
- listening can be toggled only when the target-audio path, the program path
  and a model are all set;
- the window holds 18 chunks (1.152 s; `buffer_duration` 1.2 truncated by `int`);
- there is a single trained model at a time.

## Model

| member | source | states |
|---|---|---|
| Audio.Flatten | main.py:431 | definition of `b''.join(buffer)`; its properties are stated by `Audio.FullWindowIsLongEnough` (length) and `Audio.FlattenSilence` (silent chunks join to silence) |
| Audio.FlattenSilence | main.py:431 | joining silent chunks gives silent audio |
| Audio.MeanSquare | main.py:321 | `np.mean(audio_array**2)` of non-empty audio is non-negative |
| Audio.HasSufficientVolume | main.py:315-325 | definition of `has_sufficient_volume`; its properties are stated by `Audio.VolumeMatchesRms`, `Audio.EmptyAudioHasNoVolume`, `Audio.VolumeGateMonotone` and `Audio.SilenceHasNoVolume` |
| Audio.SumOfSquares | main.py:321 | the sum of squared samples is non-negative and is zero for silent audio |
| Audio.VolumeMatchesRms | main.py:315-325 | for non-empty audio and any non-negative `rms` with `rms*rms` equal to the mean square, the gate holds exactly when `rms / 32767 > min_volume` (strict) |
| Audio.EmptyAudioHasNoVolume | main.py:318-319 | empty audio never passes the gate, for any `min_volume` |
| Audio.VolumeGateMonotone | main.py:325 | raising `min_volume` never lets more audio through |
| Audio.SilenceHasNoVolume | main.py:318-325 | all-zero (or empty) audio never passes a non-negative `min_volume` |
| Audio.FullWindowIsLongEnough | main.py:388-389 | a full window of 18 chunks of 1024 samples always passes the `RATE * 0.4` length guard |
| Matching.Below | main.py:439 | definition of `distance < threshold` with `inf` above every finite bound; its property is stated by `Listening.InfNeverFires` |
| Matching.ToUnit | main.py:386 | scaling by 1/32768 keeps the length and maps every sample into [-1, 1) |
| Matching.CompareAudio | main.py:378-403 | `Inf` in each sentinel case: no model, quiet audio, fewer than 6400 samples, or a reference of fewer than 8 frames; a finite result means extraction succeeded with at least 8 frames, the DTW cost exists, and the result is that cost divided by the reference frame count |
| Matching.CompareAudioFinite | main.py:391-400 | conversely, when every guard passes, the result is `Finite(cost / reference frames)` |
| Window.Slide | main.py:426-428 | append then evict never takes the window above capacity; below capacity it only appends; the newest chunk is last |
| Window.SlideKeepsNewest | main.py:426-428 | sliding a window that holds the newest `capacity` chunks yields the newest `capacity` chunks of the longer history |
| Window.SlidingWindow.constructor | main.py:418-420 | a new window is empty and has the given capacity |
| Window.SlidingWindow.Snapshot | main.py:431 | definition of `b''.join(buffer)` over the window's chunks; its properties are those of `Audio.Flatten` |
| Window.SlidingWindow.Push | main.py:426-430 | the chunks become `Slide` of the old chunks; the result reports whether the length equals capacity; the bound is kept |
| Listening.Fires | main.py:439 | definition of the trigger gate `distance < threshold and now - last_trigger_time > cooldown`; its properties are stated by `Listening.InfNeverFires`, `Listening.Next` and `Listening.RunTriggers` |
| Listening.InfNeverFires | main.py:439 | an `Inf` distance never passes the trigger gate |
| Listening.Next | main.py:422-443 | the window is slid; a fire happens only on a full, loud window whose distance is below the threshold more than the cooldown after the last fire, and then sets `last_trigger_time` to now and adds exactly 1 to `trigger_count`; without a fire both fields are unchanged; a full, loud window that passes the gate always fires |
| Listening.Run | main.py:422-443 | the `while self.is_listening` loop over the reads, one iteration per read; it fires at most once per read; its other properties are stated by `Listening.RunWindow`, `Listening.RunTriggers`, `Listening.RunWarmup`, `Listening.RunSilence` and `Listening.RunWithoutUsableModel` |
| Listening.RunWindow | main.py:418-431 | from the empty buffer, the window after any run is exactly the newest `buffer_size` chunks read, in arrival order, and never longer |
| Listening.RunTriggers | main.py:438-441 | over a run: `trigger_count` grows by the number of fires; `last_trigger_time` is the latest fire's time (or unchanged); the first fire is more than the cooldown after the initial time and consecutive fires more than the cooldown apart; every fire's distance is below the threshold |
| Listening.SpacedPairwise | main.py:439-440 | with a non-negative cooldown, consecutive spacing implies any two fires are more than the cooldown apart |
| Listening.RunFiresApart | main.py:438-441 | any two fires of a run are more than a non-negative cooldown apart, whatever the clock does |
| Listening.RunWarmup | main.py:430 | from the empty buffer, the first `buffer_size - 1` chunks never fire: partial windows are never evaluated |
| Listening.RunSilence | main.py:433-434 | silent input never fires when `min_volume` is non-negative |
| Listening.RunWithoutUsableModel | main.py:378-395 | without a model, or with a reference of fewer than 8 frames, a run never fires |
| App.Train | main.py:348-368 | an empty path, a failed load, a clip under 4800 samples or a failed extraction never trains, and each reports its own outcome; training succeeds exactly when the path is set, the clip is loaded, has at least 4800 samples and extraction succeeds; a trained model keeps the path and the features, and its length in seconds (at least 0.3) times `RATE` is the sample count |
| App.ToggleCheck | main.py:509-522 | the toggle is allowed exactly when the audio path, the program path and the model are all set; the first missing one is reported in source order |
| App.SoundTriggerApp.constructor | main.py:25-33 | the initial field values: empty paths, not listening, no model, threshold 2.5, minimum volume 0.008, cooldown 1.2, last fire at 0, no fires |
| App.SoundTriggerApp.TrainModel | main.py:348-368 | the outcome is `Train`'s; `sound_model` is replaced only on success and is otherwise unchanged |
| App.SoundTriggerApp.ToggleListening | main.py:509-522 | the outcome is `ToggleCheck`'s; `is_listening` is negated when allowed and otherwise unchanged |
| App.SoundTriggerApp.ListenStep | main.py:422-443 | one loop iteration changes the window and the trigger fields exactly as `Next` says and returns its fire |
| App.SoundTriggerApp.ListenAudio | main.py:418-443 | starting from an empty buffer of `buffer_size` chunks, the trigger fields and the returned fires equal those of `Run` over the reads |

## Left out

- The Tk interface is not modelled: styles, widgets, labels, `visual_feedback` and `root.after` timers. It is presentation only.
- PyAudio streams, WAV writing and file dialogs are not modelled. Nor are `record_sound`, `test_current_sound` (with its `is_test` flag) and the process launch in `trigger_action`. These are device, file and process I/O. The reads made while listening enter as a sequence of `Tick`s, each with its chunk and clock reading.
- `CHANNELS` (1) and `RECORD_SECONDS` (2) from `setup_audio` are not modelled: the first only fixes one sample per frame, which `Chunk` assumes; the second is used only by `record_sound`.
- `record_sound` setting `is_listening` to false is not modelled, because it belongs to the recording flow.
- The internals of `extract_mfcc` (normalisation, MFCC, deltas) and `fastdtw` with `euclidean` are not modelled. They are floating-point code inside foreign libraries, so they are function parameters; self-similarity and determinism of features are therefore not stated.
- `librosa.load` is a parameter of `TrainModel` (its result, or `None` when it raised).
- Floating point is not modelled: distances, times and volumes are exact reals, and NaN is not modelled.
- Audio.HasSufficientVolume compares the mean square with `(min_volume * 32767)^2` instead of taking a square root. `Audio.VolumeMatchesRms` proves this exact over the reals; float rounding is not captured.
- The decoding of int16 bytes with `np.frombuffer` is not modelled: samples are given as integers in the 16-bit range. An odd byte count, which would raise, is therefore not modelled.
- Threading is not modelled: the daemon listener thread and the shared `is_listening` flag. The loop runs over the reads made while listening.
- The outer and inner exception handlers of the loop are not modelled; in the model no loop step raises.
- Changes made from the interface while listening are not modelled: the sliders can change `threshold` and `min_volume`, and `browse_audio` can retrain and so replace `sound_model`; the source's loop rereads all three on every iteration. `ListenAudio` reads them once, when the run starts, and nothing changes them during a run.
