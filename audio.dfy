/**
 * Audio configuration of the sound trigger (setup_audio) and the volume gate
 * (has_sufficient_volume). Samples are the decoded 16-bit PCM values; the byte
 * decoding itself is not part of this model.
 */
module Audio {
  /** Frames read from the input stream per call. */
  const CHUNK: nat := 1024
  /** Sample rate in Hz. */
  const RATE: nat := 16000

  /** Largest 16-bit magnitude; divides the RMS to normalise the volume. */
  const MAX_POSSIBLE: real := 32767.0
  /** Divisor that maps a 16-bit sample into [-1, 1). */
  const FULL_SCALE: real := 32768.0

  /** `RATE * 0.3` (exactly 4800.0 in double precision): shortest training clip. */
  const MIN_TRAIN_SAMPLES: nat := RATE * 3 / 10
  /** `RATE * 0.4` (exactly 6400.0 in double precision): shortest matched audio. */
  const MIN_MATCH_SAMPLES: nat := RATE * 4 / 10
  /** `int(RATE / CHUNK * 1.2)`: chunks held by the listening window (18). */
  const BUFFER_SIZE: nat := RATE * 12 / (CHUNK * 10)

  /** A signed 16-bit PCM sample. */
  type Sample = x: int | -32768 <= x <= 32767
  /** One block of samples as returned by a read of the mono stream (one sample per frame). */
  type Chunk = seq<Sample>

  /** `b''.join(chunks)`: the chunks' samples in order. */
  function Flatten(chunks: seq<Chunk>): (samples: seq<Sample>)
  {
    if chunks == [] then [] else chunks[0] + Flatten(chunks[1..])
  }

  lemma {:induction false} FlattenLength(chunks: seq<Chunk>, n: nat)
    requires forall i | 0 <= i < |chunks| :: |chunks[i]| == n
    ensures |Flatten(chunks)| == |chunks| * n
  {
    if chunks != [] {
      FlattenLength(chunks[1..], n);
    }
  }

  /** All-zero samples. */
  predicate IsSilent(s: seq<Sample>)
  {
    forall i | 0 <= i < |s| :: s[i] == 0
  }

  lemma {:induction false} FlattenSilence(chunks: seq<Chunk>)
    requires forall i | 0 <= i < |chunks| :: IsSilent(chunks[i])
    ensures IsSilent(Flatten(chunks))
  {
    if chunks != [] {
      FlattenSilence(chunks[1..]);
      assert IsSilent(chunks[0]);
    }
  }

  /**
   * A full listening window of whole chunks is always long enough for the
   * matcher: 18 * 1024 samples is well above `RATE * 0.4`, so that guard of
   * compare_audio never rejects a window coming from the listening loop.
   */
  lemma FullWindowIsLongEnough(chunks: seq<Chunk>)
    requires |chunks| == BUFFER_SIZE
    requires forall i | 0 <= i < |chunks| :: |chunks[i]| == CHUNK
    ensures |Flatten(chunks)| >= MIN_MATCH_SAMPLES
  {
    FlattenLength(chunks, CHUNK);
  }

  function SumOfSquares(s: seq<Sample>): (r: int)
    ensures r >= 0
    ensures IsSilent(s) ==> r == 0
  {
    if s == [] then 0 else s[0] * s[0] + SumOfSquares(s[1..])
  }

  /** `np.mean(audio_array**2)`. */
  function MeanSquare(s: seq<Sample>): (m: real)
    requires |s| > 0
    ensures m >= 0.0
  {
    SumOfSquares(s) as real / |s| as real
  }

  /**
   * `has_sufficient_volume`: false for empty audio, otherwise whether the
   * normalised RMS `sqrt(mean square) / 32767` is strictly above `minVolume`.
   * The square root is removed by squaring both sides of the comparison, which
   * is exact over the reals (see VolumeMatchesRms).
   */
  predicate HasSufficientVolume(s: seq<Sample>, minVolume: real)
  {
    |s| > 0 &&
    (minVolume < 0.0 || MeanSquare(s) > (minVolume * MAX_POSSIBLE) * (minVolume * MAX_POSSIBLE))
  }

  /** The squared comparison agrees with the source's `rms / 32767 > min_volume`. */
  lemma VolumeMatchesRms(s: seq<Sample>, minVolume: real, rms: real)
    requires |s| > 0 && rms >= 0.0 && rms * rms == MeanSquare(s)
    ensures HasSufficientVolume(s, minVolume) <==> rms / MAX_POSSIBLE > minVolume
  {
    var bound := minVolume * MAX_POSSIBLE;
    assert rms / MAX_POSSIBLE > minVolume <==> rms > bound;
    if minVolume >= 0.0 {
      if rms > bound {
        SquareStrictlyMonotone(bound, rms);
      } else {
        SquareMonotone(rms, bound);
      }
    } else {
      assert rms / MAX_POSSIBLE >= 0.0;
    }
  }

  lemma SquareStrictlyMonotone(a: real, b: real)
    requires 0.0 <= a < b
    ensures a * a < b * b
  {
    var middle := a * b;
    assert a * a <= middle;
    assert middle < b * b;
  }

  lemma SquareMonotone(a: real, b: real)
    requires 0.0 <= a <= b
    ensures a * a <= b * b
  {
  }

  /** Raising the minimum volume never lets more audio through. */
  lemma VolumeGateMonotone(s: seq<Sample>, lower: real, higher: real)
    requires lower <= higher && HasSufficientVolume(s, higher)
    ensures HasSufficientVolume(s, lower)
  {
  }

  /** Empty audio never passes the gate, whatever the minimum volume. */
  lemma EmptyAudioHasNoVolume(s: seq<Sample>, minVolume: real)
    requires |s| == 0
    ensures !HasSufficientVolume(s, minVolume)
  {
  }

  /** Silence (including empty audio) never passes a non-negative volume gate. */
  lemma SilenceHasNoVolume(s: seq<Sample>, minVolume: real)
    requires minVolume >= 0.0 && IsSilent(s)
    ensures !HasSufficientVolume(s, minVolume)
  {
  }
}
