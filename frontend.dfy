/**
 * The `Transcription` component of the browser client
 * (frontend/src/components/Transcription.jsx) as an object: the ref
 * `speechEnergyRef`, the React state `liveText` and `history`, and the log of
 * chunks passed to `ws.send`. The socket's `readyState` and the analyser's
 * frequency data are inputs.
 */
module Frontend {
  import opened Protocol
  import opened Vad
  import Captions

  datatype ClientState = ClientState(energy: Energy, captions: Captions.Captions, sent: seq<seq<Byte>>)

  /** A freshly mounted component: no reading yet (0), empty captions, nothing sent. */
  const Mounted := ClientState(Silence, Captions.Initial, [])

  datatype ClientEvent =
    | Sample(isRecording: bool, bins: seq<Byte>)   // one `analyze` animation frame
    | ChunkReady(socketOpen: bool, chunk: seq<Byte>)  // `ondataavailable`
    | MessageIn(parsed: Option<Message>)            // `ws.onmessage`
    | StopPressed                                   // `stopTranscription`

  /** `analyze`: while recording, the reading of the new window replaces the old one. */
  function SampleStep(s: ClientState, isRecording: bool, bins: seq<Byte>): (r: ClientState)
    ensures r.captions == s.captions && r.sent == s.sent
    ensures !isRecording ==> r == s
    ensures isRecording ==> r.energy.bins == |bins| && 0 <= r.energy.sum <= 255 * |bins|
  {
    if isRecording then s.(energy := Reading(bins)) else s
  }

  /** `ondataavailable`: the gated send. */
  function ChunkStep(s: ClientState, socketOpen: bool, chunk: seq<Byte>): (r: ClientState)
    ensures r.energy == s.energy && r.captions == s.captions
    ensures r.sent == s.sent || (r.sent == s.sent + [chunk] && socketOpen && |chunk| > 0 && AboveThreshold(s.energy))
  {
    var out := Gate(socketOpen, chunk, s.energy);
    if out.Some? then s.(sent := s.sent + [out.value]) else s
  }

  /** `stopTranscription`: the energy ref is reset to 0 and the live text finalized. */
  function StopStep(s: ClientState): (r: ClientState)
    ensures !AboveThreshold(r.energy) && r.sent == s.sent
    ensures Captions.IsBlank(s.captions.liveText) ==> r.captions == s.captions
    ensures |s.captions.history| <= |r.captions.history| <= |s.captions.history| + 1
  {
    s.(energy := Silence, captions := Captions.FinalizeOnStop(s.captions))
  }

  function Step(s: ClientState, e: ClientEvent): ClientState {
    match e
    case Sample(rec, bins) => SampleStep(s, rec, bins)
    case ChunkReady(open, chunk) => ChunkStep(s, open, chunk)
    case MessageIn(parsed) => s.(captions := Captions.OnMessage(s.captions, parsed))
    case StopPressed => StopStep(s)
  }

  function Run(s: ClientState, events: seq<ClientEvent>): ClientState
    decreases |events|
  {
    if events == [] then s else Run(Step(s, events[0]), events[1..])
  }

  /** An animation frame, taken while recording, whose reading is above the threshold. */
  predicate LoudSample(e: ClientEvent) {
    e.Sample? && e.isRecording && AboveThreshold(Reading(e.bins))
  }

  /** The chunk an event offers to the gate with the socket open, if any. */
  function Offer(e: ClientEvent): seq<seq<Byte>> {
    if e.ChunkReady? && e.socketOpen && |e.chunk| > 0 then [e.chunk] else []
  }

  /** The non-empty chunks offered while the socket was open, in order. */
  function OpenOffers(events: seq<ClientEvent>): seq<seq<Byte>>
    decreases |events|
  {
    if events == [] then [] else Offer(events[0]) + OpenOffers(events[1..])
  }

  /** One event sends nothing or exactly the chunk it offers. */
  lemma StepSends(s: ClientState, e: ClientEvent)
    ensures Step(s, e).sent == s.sent || Step(s, e).sent == s.sent + Offer(e)
    ensures forall c :: c in Offer(e) ==> |c| > 0
  {
  }

  /**
   * Whatever happens, the history only grows at the end: entries already
   * committed are never modified, removed or reordered.
   */
  lemma {:induction false} HistoryOnlyGrows(s: ClientState, events: seq<ClientEvent>)
    ensures |s.captions.history| <= |Run(s, events).captions.history|
    ensures Run(s, events).captions.history[..|s.captions.history|] == s.captions.history
    decreases |events|
  {
    if events != [] {
      var t := Step(s, events[0]);
      HistoryOnlyGrows(t, events[1..]);
      var h := Run(s, events).captions.history;
      assert |s.captions.history| <= |t.captions.history|;
      assert t.captions.history[..|s.captions.history|] == s.captions.history;
      assert h[..|t.captions.history|][..|s.captions.history|] == h[..|s.captions.history|];
    }
  }

  /**
   * Silence never reaches the channel: if the reading is not above the
   * threshold and no recording frame raises it above, no chunk is sent.
   */
  lemma {:induction false} GateClosedUntilSpeech(s: ClientState, events: seq<ClientEvent>)
    requires !AboveThreshold(s.energy)
    requires forall e :: e in events ==> !LoudSample(e)
    ensures Run(s, events).sent == s.sent
    ensures !AboveThreshold(Run(s, events).energy)
    decreases |events|
  {
    if events != [] {
      assert events[0] in events;
      var t := Step(s, events[0]);
      assert t.sent == s.sent && !AboveThreshold(t.energy);
      forall e | e in events[1..] ensures !LoudSample(e) {
        assert e in events;
      }
      GateClosedUntilSpeech(t, events[1..]);
    }
  }

  /**
   * Every chunk sent was offered, non-empty, while the socket was open, and is
   * sent unchanged; nothing is sent twice for one offer and nothing is buffered.
   */
  lemma {:induction false} SentChunksWereOffered(s: ClientState, events: seq<ClientEvent>)
    ensures |s.sent| <= |Run(s, events).sent| <= |s.sent| + |OpenOffers(events)|
    ensures Run(s, events).sent[..|s.sent|] == s.sent
    ensures forall k :: |s.sent| <= k < |Run(s, events).sent| ==>
              Run(s, events).sent[k] in OpenOffers(events) && |Run(s, events).sent[k]| > 0
    decreases |events|
  {
    if events != [] {
      var t := Step(s, events[0]);
      StepSends(s, events[0]);
      SentChunksWereOffered(t, events[1..]);
      var u := Run(t, events[1..]);
      assert u == Run(s, events);
      var n, m := |s.sent|, |t.sent|;
      var here, rest := Offer(events[0]), OpenOffers(events[1..]);
      assert OpenOffers(events) == here + rest;
      assert u.sent[..m][..n] == u.sent[..n];
      forall k | n <= k < |u.sent|
        ensures u.sent[k] in here + rest && |u.sent[k]| > 0
      {
        if k < m {
          assert t.sent == s.sent + here;
          assert u.sent[k] == t.sent[k] == here[k - n];
        } else {
          assert u.sent[k] in rest;
        }
      }
    }
  }

  /**
   * Stopping resets the gate: the reading is back to 0, so the next chunk is
   * dropped whatever its size or the socket's state.
   */
  lemma StopClosesGate(s: ClientState, socketOpen: bool, chunk: seq<Byte>)
    ensures StopStep(s).energy == Silence
    ensures ChunkStep(StopStep(s), socketOpen, chunk).sent == s.sent
  {
  }

  /** From mount, nothing is sent before a recording frame reads above the threshold. */
  lemma NothingSentBeforeSpeech(events: seq<ClientEvent>)
    requires forall e :: e in events ==> !LoudSample(e)
    ensures Run(Mounted, events).sent == []
  {
    GateClosedUntilSpeech(Mounted, events);
  }

  // ---------------------------------------------------------------------------
  // The component instance.

  class Transcription {
    /** `speechEnergyRef.current`. */
    var speechEnergy: Energy
    var liveText: string
    var history: seq<string>
    /** Every chunk passed to `ws.send`, in order. */
    var sent: seq<seq<Byte>>

    function State(): ClientState
      reads this
    {
      ClientState(speechEnergy, Captions.Captions(liveText, history), sent)
    }

    constructor ()
      ensures State() == Mounted
    {
      speechEnergy := Silence;
      liveText := "";
      history := [];
      sent := [];
    }

    /** One `analyze` frame; `dataArray` has just been filled by `getByteFrequencyData`. */
    method Analyze(isRecording: bool, dataArray: array<Byte>)
      modifies this
      ensures State() == SampleStep(old(State()), isRecording, dataArray[..])
    {
      if !isRecording {
        return;
      }
      speechEnergy := MeasureEnergy(dataArray);
    }

    /** `mediaRecorder.ondataavailable`. */
    method OnDataAvailable(socketOpen: bool, chunk: seq<Byte>)
      modifies this
      ensures State() == ChunkStep(old(State()), socketOpen, chunk)
    {
      if socketOpen && |chunk| > 0 && AboveThreshold(speechEnergy) {
        sent := sent + [chunk];
      }
    }

    /** `ws.onmessage` followed by `handleTranscriptData`. */
    method OnWsMessage(parsed: Option<Message>)
      modifies this
      ensures State() == old(State()).(captions := Captions.OnMessage(old(State()).captions, parsed))
    {
      if parsed.Some? && parsed.value.Transcription? && parsed.value.text != "" {
        HandleTranscriptData(Increment(parsed.value.text, parsed.value.isFinal));
      }
    }

    /** `handleTranscriptData`. */
    method HandleTranscriptData(data: Increment)
      modifies this
      ensures State() == old(State()).(captions := Captions.HandleTranscriptData(old(State()).captions, data))
    {
      if data.text == "" {
        return;
      }
      if data.isFinal {
        history := history + [liveText + data.text];
        liveText := "";
      } else {
        liveText := liveText + data.text;
      }
    }

    /** `stopTranscription`: the energy ref is reset, then the live text finalized. */
    method Stop()
      modifies this
      ensures State() == StopStep(old(State()))
    {
      ghost var before := State();
      speechEnergy := Silence;
      var trimmed := Captions.Trim(liveText);
      if trimmed != "" {
        history := history + [trimmed];
        liveText := "";
      }
      assert sent == before.sent && speechEnergy == Silence;
      assert Captions.Captions(liveText, history) == Captions.FinalizeOnStop(before.captions);
    }
  }
}
