/**
 * compare_audio: the guard chain around the match distance. Feature extraction
 * (librosa MFCC with deltas) and the approximate DTW (fastdtw) are external
 * numeric code; they enter as function parameters whose `None` result stands
 * for an exception raised inside them. A feature matrix is a sequence of
 * frames, so its frame count (`shape[0]`) is its length.
 */
module Matching {
  import opened Options
  import opened Audio

  type Frame = seq<real>
  type FeatureMatrix = seq<Frame>

  /** Fewest frames either matrix must have for a match to be attempted. */
  const MIN_FRAMES: nat := 8

  /** The trained model: reference features, clip path and clip length in seconds. */
  datatype SoundModel = SoundModel(mfcc: FeatureMatrix, path: string, length: real)

  /** extract_mfcc applied to samples in [-1, 1]; `None` when it raises. */
  type Extractor = seq<real> -> Option<FeatureMatrix>
  /** fastdtw's accumulated path cost of (live, reference); `None` when it raises. */
  type Aligner = (FeatureMatrix, FeatureMatrix) -> Option<real>

  /** A match distance: `Inf` is the `float('inf')` sentinel. */
  datatype Distance = Inf | Finite(value: real)

  /** `distance < bound` with the sentinel above every finite bound. */
  predicate Below(d: Distance, bound: real)
  {
    d.Finite? && d.value < bound
  }

  /** `np.frombuffer(...) / 32768.0`: samples scaled into [-1, 1). */
  function ToUnit(s: seq<Sample>): (r: seq<real>)
    ensures |r| == |s|
    ensures forall i | 0 <= i < |r| :: -1.0 <= r[i] < 1.0 && r[i] * FULL_SCALE == s[i] as real
  {
    seq(|s|, i requires 0 <= i < |s| => s[i] as real / FULL_SCALE)
  }

  /**
   * compare_audio: `Inf` without a model, for quiet audio, for audio shorter
   * than `RATE * 0.4` samples, when extraction or alignment raises, and when
   * either matrix has fewer than 8 frames; otherwise the DTW cost divided by
   * the reference frame count.
   */
  function CompareAudio(model: Option<SoundModel>, audio: seq<Sample>, minVolume: real,
                        extract: Extractor, align: Aligner): (d: Distance)
    ensures model.None? ==> d == Inf
    ensures !HasSufficientVolume(audio, minVolume) ==> d == Inf
    ensures |audio| < MIN_MATCH_SAMPLES ==> d == Inf
    ensures model.Some? && |model.value.mfcc| < MIN_FRAMES ==> d == Inf
    ensures d.Finite? ==>
      var live := extract(ToUnit(audio));
      live.Some? && |live.value| >= MIN_FRAMES &&
      var cost := align(live.value, model.value.mfcc);
      cost.Some? && d.value == cost.value / |model.value.mfcc| as real
  {
    if model.None? then Inf
    else if !HasSufficientVolume(audio, minVolume) then Inf
    else
      var y := ToUnit(audio);
      if |y| < MIN_MATCH_SAMPLES then Inf
      else match extract(y)
        case None => Inf
        case Some(live) =>
          var reference := model.value.mfcc;
          if |live| < MIN_FRAMES || |reference| < MIN_FRAMES then Inf
          else match align(live, reference)
            case None => Inf
            case Some(cost) => Finite(cost / |reference| as real)
  }

  /** When every guard passes, the result is the length-normalised DTW cost. */
  lemma CompareAudioFinite(model: Option<SoundModel>, audio: seq<Sample>, minVolume: real,
                           extract: Extractor, align: Aligner, live: FeatureMatrix, cost: real)
    requires model.Some? && HasSufficientVolume(audio, minVolume)
    requires |audio| >= MIN_MATCH_SAMPLES
    requires extract(ToUnit(audio)) == Some(live)
    requires |live| >= MIN_FRAMES && |model.value.mfcc| >= MIN_FRAMES
    requires align(live, model.value.mfcc) == Some(cost)
    ensures CompareAudio(model, audio, minVolume, extract, align)
            == Finite(cost / |model.value.mfcc| as real)
  {
  }
}
