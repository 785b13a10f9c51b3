/**
 * Client-side voice-activity gate (frontend/src/components/Transcription.jsx):
 * the energy reading computed from the analyser's frequency bins, and the
 * decision whether a recorded chunk is sent.
 *
 * The reading `sum / length` is a float in the source; here it is kept as the
 * exact pair (sum, number of bins), and "average above the threshold" is the
 * integer comparison `sum > threshold * bins`.
 */
module Vad {
  import opened Protocol

  /** `MIN_SPEECH_THRESHOLD`, on the 0-255 scale of the bins. */
  const MinSpeechThreshold := 20

  /** A reading `sum / bins`. */
  datatype Energy = Energy(sum: int, bins: nat)

  /** The value `speechEnergyRef` holds before the first sample and after a stop: 0. */
  const Silence := Energy(0, 1)

  /**
   * `average > MIN_SPEECH_THRESHOLD`. With no bins the average is `0 / 0`,
   * NaN in the source, and NaN is above nothing.
   */
  predicate AboveThreshold(e: Energy)
    ensures e.bins > 0 ==> (AboveThreshold(e) <==> (e.sum as real) / (e.bins as real) > MinSpeechThreshold as real)
  {
    e.bins > 0 && e.sum > MinSpeechThreshold * e.bins
  }

  /** The sum of the bins; with bytes it lies between 0 and 255 per bin. */
  function Sum(s: seq<Byte>): (r: int)
    ensures 0 <= r <= 255 * |s|
  {
    if s == [] then 0 else Sum(s[..|s| - 1]) + s[|s| - 1]
  }

  /** The reading of one analysis window. */
  function Reading(bins: seq<Byte>): (r: Energy)
    ensures r.bins == |bins| && 0 <= r.sum <= 255 * r.bins
  {
    Energy(Sum(bins), |bins|)
  }

  /** The averaging loop of `analyze` in `setupVAD`. */
  method MeasureEnergy(dataArray: array<Byte>) returns (reading: Energy)
    ensures reading == Reading(dataArray[..])
    ensures reading.bins == dataArray.Length
    ensures 0 <= reading.sum <= 255 * reading.bins
  {
    var sum: int := 0;
    var i := 0;
    while i < dataArray.Length
      invariant 0 <= i <= dataArray.Length
      invariant sum == Sum(dataArray[..i])
    {
      assert dataArray[..i + 1][..i] == dataArray[..i];
      sum := sum + dataArray[i];
      i := i + 1;
    }
    assert dataArray[..i] == dataArray[..];
    reading := Energy(sum, dataArray.Length);
  }

  /** A window whose bins are all at most `bound` sums to at most `bound` per bin. */
  lemma {:induction false} SumBoundedByMax(s: seq<Byte>, bound: int)
    requires forall i :: 0 <= i < |s| ==> s[i] <= bound
    ensures Sum(s) <= bound * |s|
    decreases |s|
  {
    if s != [] {
      SumBoundedByMax(s[..|s| - 1], bound);
    }
  }

  /** A window with no bin above the threshold never reads as speech. */
  lemma QuietWindowIsSilence(bins: seq<Byte>)
    requires forall i :: 0 <= i < |bins| ==> bins[i] <= MinSpeechThreshold
    ensures !AboveThreshold(Reading(bins))
  {
    SumBoundedByMax(bins, MinSpeechThreshold);
  }

  /** The condition in `mediaRecorder.ondataavailable`. */
  predicate ShouldSend(socketOpen: bool, chunk: seq<Byte>, energy: Energy) {
    socketOpen && |chunk| > 0 && AboveThreshold(energy)
  }

  /**
   * The chunk handed to `ws.send`, if any: the chunk itself, unchanged, when
   * the gate opens; nothing otherwise (a dropped chunk is not kept anywhere).
   */
  function Gate(socketOpen: bool, chunk: seq<Byte>, energy: Energy): (r: Option<seq<Byte>>)
    ensures r.Some? ==> r.value == chunk && |chunk| > 0 && socketOpen
    ensures !AboveThreshold(energy) ==> r.None?
  {
    if ShouldSend(socketOpen, chunk, energy) then Some(chunk) else None
  }

  /**
   * Silence never reaches the channel, and a non-empty chunk with the socket
   * open and the energy above the threshold is forwarded exactly as recorded.
   */
  lemma GateDecision(socketOpen: bool, chunk: seq<Byte>, energy: Energy)
    ensures !AboveThreshold(energy) ==> Gate(socketOpen, chunk, energy) == None
    ensures Gate(socketOpen, chunk, energy).Some? <==> socketOpen && |chunk| > 0 && AboveThreshold(energy)
    ensures Gate(socketOpen, chunk, energy).Some? ==> Gate(socketOpen, chunk, energy).value == chunk
    ensures Gate(socketOpen, chunk, Silence) == None
  {
  }
}
