/**
 * The mock streaming transcription engine (backend/gemini.js, `streamToGemini`).
 *
 * The closure state is `isActive` and `wordIndex`; every accepted buffer
 * schedules one timer callback 80 ms later. All callbacks share that delay and
 * read the state only when they fire, so the timers are a counter of pending
 * callbacks and firing one is an explicit step, taken in FIFO order.
 */
module Engine {
  import opened Protocol

  /** A script of words to emit; it is never empty. */
  type Script = s: seq<string> | |s| > 0 witness ["."]

  /**
   * `MOCK_SCRIPT`: the words the mock walks through, one per accepted chunk; it
   * loops. The first word stands apart so that non-emptiness is immediate.
   */
  const MockScript: Script := ["React"] + [
                " components", " render", " declaratively", ".",
    " The", " virtual", " DOM", " optimizes", " updates", ".",
    " Hooks", " manage", " state", " and", " side-effects", ".",
    " Streaming", " requires", " low", " latency", " handling", "."
  ]

  /** Buffers shorter than this are treated as headers or empty containers. */
  const MinChunkBytes := 100

  /** Every this many words an increment is final, whatever its punctuation. */
  const WordsPerUtterance := 5

  /** `String.prototype.endsWith('.')`. */
  predicate EndsWithPeriod(w: string) {
    |w| > 0 && w[|w| - 1] == '.'
  }

  /**
   * The increment a timer callback emits when it fires with the cursor at
   * `index`: the script word plus a space, final when the word ends a sentence
   * or when the advanced cursor `index + 1` is a multiple of five. Its text is
   * never empty, because of the appended space.
   */
  function IncrementAt(script: Script, index: nat): (r: Increment)
    ensures |r.text| > 0 && r.text[|r.text| - 1] == ' '
    ensures (index + 1) % WordsPerUtterance == 0 ==> r.isFinal
  {
    var word := script[index % |script|];
    Increment(word + " ", EndsWithPeriod(word) || (index + 1) % WordsPerUtterance == 0)
  }

  /** The increments for cursor positions `lo` up to (excluding) `hi`, in order. */
  function ScriptFrom(script: Script, lo: nat, hi: nat): (r: seq<Increment>)
    requires lo <= hi
    ensures |r| == hi - lo
    decreases hi - lo
  {
    if lo == hi then [] else [IncrementAt(script, lo)] + ScriptFrom(script, lo + 1, hi)
  }

  lemma ScriptFromCons(script: Script, lo: nat, hi: nat)
    requires lo < hi
    ensures ScriptFrom(script, lo, hi) == [IncrementAt(script, lo)] + ScriptFrom(script, lo + 1, hi)
  {
  }

  /** The `k`-th increment of `ScriptFrom(lo, hi)` is the one for cursor `lo + k`. */
  lemma {:induction false} ScriptFromAt(script: Script, lo: nat, hi: nat, k: nat)
    requires lo <= hi && k < hi - lo
    ensures ScriptFrom(script, lo, hi)[k] == IncrementAt(script, lo + k)
    decreases k
  {
    if k > 0 {
      ScriptFromAt(script, lo + 1, hi, k - 1);
    }
  }

  /**
   * The finality rule read off the emitted text: an increment is final exactly
   * when its text ends in ". " (the word ended a sentence) or when the advanced
   * cursor is a multiple of five.
   */
  lemma FinalityRule(script: Script, index: nat)
    ensures var inc := IncrementAt(script, index);
            inc.isFinal <==> (|inc.text| >= 2 && inc.text[|inc.text| - 2] == '.') || (index + 1) % WordsPerUtterance == 0
  {
    var word := script[index % |script|];
    var text := word + " ";
    assert |text| >= 2 ==> text[|text| - 2] == word[|word| - 1];
  }

  /** Among any five consecutive emissions (cursor positions) at least one is final. */
  lemma FinalWithinFive(script: Script, index: nat)
    ensures exists j :: index <= j < index + WordsPerUtterance && IncrementAt(script, j).isFinal
  {
    var j := index + (WordsPerUtterance - 1 - index % WordsPerUtterance);
    assert (j + 1) % WordsPerUtterance == 0;
    assert IncrementAt(script, j).isFinal;
  }

  // ---------------------------------------------------------------------------
  // The engine as a value: the closure variables plus the pending timers.

  datatype EngineState = EngineState(script: Script, active: bool, wordIndex: nat, pending: nat)

  /** `isActive = true`, `wordIndex = 0`, no timer scheduled. */
  const Started := EngineState(MockScript, true, 0, 0)

  /** `write` forwards a present buffer while active; `processChunk` keeps it if it is long enough. */
  predicate Accepts(s: EngineState, audioBuffer: Option<seq<Byte>>) {
    s.active && audioBuffer.Some? && |audioBuffer.value| >= MinChunkBytes
  }

  /** `write(audioBuffer)`: an accepted buffer schedules exactly one callback. */
  function WriteStep(s: EngineState, audioBuffer: Option<seq<Byte>>): (r: EngineState)
    ensures r.script == s.script && r.active == s.active && r.wordIndex == s.wordIndex
    ensures s.pending <= r.pending <= s.pending + 1
    ensures r.pending > s.pending <==> s.active && audioBuffer.Some? && |audioBuffer.value| >= MinChunkBytes
  {
    if Accepts(s, audioBuffer) then s.(pending := s.pending + 1) else s
  }

  /** One pending callback fires: while active it emits and advances the cursor. */
  function FireStep(s: EngineState): (r: (EngineState, Option<Increment>))
    requires s.pending > 0
    ensures r.0.script == s.script && r.0.active == s.active && r.0.pending == s.pending - 1
    ensures r.1.Some? <==> s.active
    ensures r.1.Some? ==> r.0.wordIndex == s.wordIndex + 1 && r.1.value.text != ""
    ensures r.1.None? ==> r.0.wordIndex == s.wordIndex
  {
    if s.active then
      (s.(wordIndex := s.wordIndex + 1, pending := s.pending - 1), Some(IncrementAt(s.script, s.wordIndex)))
    else
      (s.(pending := s.pending - 1), None)
  }

  /** `end()`. */
  function EndStep(s: EngineState): (r: EngineState)
    ensures !r.active
    ensures r.script == s.script && r.wordIndex == s.wordIndex && r.pending == s.pending
  {
    s.(active := false)
  }

  /** A write that is rejected (absent buffer, ended engine, short buffer) changes nothing. */
  lemma RejectedWriteChangesNothing(s: EngineState, audioBuffer: Option<seq<Byte>>)
    requires audioBuffer.None? || !s.active || |audioBuffer.value| < MinChunkBytes
    ensures WriteStep(s, audioBuffer) == s
  {
  }

  /** `end()` is idempotent. */
  lemma EndIdempotent(s: EngineState)
    ensures EndStep(EndStep(s)) == EndStep(s)
    ensures !EndStep(s).active
  {
  }

  // ---------------------------------------------------------------------------
  // Traces of engine inputs.

  datatype EngineInput =
    | WriteInput(audioBuffer: Option<seq<Byte>>)
    | FireInput
    | EndInput

  /** One input; firing when no callback is pending is not an event and is skipped. */
  function Step(s: EngineState, input: EngineInput): (EngineState, Option<Increment>) {
    match input
    case WriteInput(b) => (WriteStep(s, b), None)
    case FireInput => if s.pending > 0 then FireStep(s) else (s, None)
    case EndInput => (EndStep(s), None)
  }

  function Emitted(out: Option<Increment>): seq<Increment> {
    if out.Some? then [out.value] else []
  }

  /** The final state and everything handed to `onData`, in order. */
  function Run(s: EngineState, inputs: seq<EngineInput>): (EngineState, seq<Increment>)
    decreases |inputs|
  {
    if inputs == [] then (s, [])
    else
      var (t, out) := Step(s, inputs[0]);
      var (u, outs) := Run(t, inputs[1..]);
      (u, Emitted(out) + outs)
  }

  /** The writes the engine accepts along the way, each judged in the state it meets. */
  function AcceptedWrites(s: EngineState, inputs: seq<EngineInput>): nat
    decreases |inputs|
  {
    if inputs == [] then 0
    else
      var here := if inputs[0].WriteInput? && Accepts(s, inputs[0].audioBuffer) then 1 else 0;
      here + AcceptedWrites(Step(s, inputs[0]).0, inputs[1..])
  }

  /**
   * Whatever the inputs, the engine emits the script in order starting at its
   * cursor, and the cursor advances by exactly the number of emissions.
   */
  lemma {:induction false} RunEmitsScript(s: EngineState, inputs: seq<EngineInput>)
    ensures Run(s, inputs).0.wordIndex >= s.wordIndex
    ensures Run(s, inputs).0.script == s.script
    ensures Run(s, inputs).1 == ScriptFrom(s.script, s.wordIndex, Run(s, inputs).0.wordIndex)
    decreases |inputs|
  {
    if inputs != [] {
      var (t, out) := Step(s, inputs[0]);
      RunEmitsScript(t, inputs[1..]);
      var (u, outs) := Run(t, inputs[1..]);
      assert Run(s, inputs) == (u, Emitted(out) + outs);
      if out.Some? {
        assert t.wordIndex == s.wordIndex + 1 && out.value == IncrementAt(s.script, s.wordIndex);
        assert ScriptFrom(s.script, s.wordIndex, u.wordIndex) == [IncrementAt(s.script, s.wordIndex)] + outs;
      } else {
        assert t.wordIndex == s.wordIndex;
      }
    }
  }

  /**
   * Each accepted write schedules one callback and each callback emits at most
   * once: emissions plus callbacks still pending never exceed the callbacks
   * pending at the start plus the writes the engine accepted.
   */
  lemma {:induction false} EmissionsBoundedByWrites(s: EngineState, inputs: seq<EngineInput>)
    ensures |Run(s, inputs).1| + Run(s, inputs).0.pending <= s.pending + AcceptedWrites(s, inputs)
    decreases |inputs|
  {
    if inputs != [] {
      var (t, out) := Step(s, inputs[0]);
      EmissionsBoundedByWrites(t, inputs[1..]);
      assert |Emitted(out)| + t.pending <= s.pending + AcceptedWrites(s, inputs) - AcceptedWrites(t, inputs[1..]);
    }
  }

  /**
   * Once ended the engine stays ended: no later input emits anything, moves
   * the cursor or schedules a callback.
   */
  lemma {:induction false} NothingAfterEnd(s: EngineState, inputs: seq<EngineInput>)
    requires !s.active
    ensures !Run(s, inputs).0.active
    ensures Run(s, inputs).1 == []
    ensures Run(s, inputs).0.wordIndex == s.wordIndex
    ensures Run(s, inputs).0.pending <= s.pending
    decreases |inputs|
  {
    if inputs != [] {
      var (t, out) := Step(s, inputs[0]);
      NothingAfterEnd(t, inputs[1..]);
    }
  }

  // ---------------------------------------------------------------------------
  // The engine object returned by `streamToGemini`.

  class MockEngine {
    const script: Script
    var isActive: bool
    var wordIndex: nat
    /** Callbacks scheduled with `setTimeout` that have not fired yet. */
    var pending: nat

    function State(): EngineState
      reads this
    {
      EngineState(script, isActive, wordIndex, pending)
    }

    constructor ()
      ensures State() == Started
    {
      script := MockScript;
      isActive := true;
      wordIndex := 0;
      pending := 0;
    }

    /** `write(audioBuffer)`. */
    method Write(audioBuffer: Option<seq<Byte>>)
      modifies this
      ensures State() == WriteStep(old(State()), audioBuffer)
      ensures isActive == old(isActive) && wordIndex == old(wordIndex)
      ensures pending == old(pending) + (if Accepts(old(State()), audioBuffer) then 1 else 0)
    {
      if isActive && audioBuffer.Some? {
        ProcessChunk(audioBuffer.value);
      }
    }

    /** `processChunk(buffer)`: the server-side size floor, then one scheduled callback. */
    method ProcessChunk(buffer: seq<Byte>)
      modifies this
      ensures State() == WriteStep(old(State()), Some(buffer))
    {
      if !isActive {
        return;
      }
      if |buffer| < MinChunkBytes {
        return;
      }
      pending := pending + 1;
    }

    /** The oldest pending timer callback runs; `data` is what it hands to `onData`. */
    method Fire() returns (data: Option<Increment>)
      requires pending > 0
      modifies this
      ensures (State(), data) == FireStep(old(State()))
      ensures old(isActive) ==> data == Some(IncrementAt(script, old(wordIndex))) && wordIndex == old(wordIndex) + 1
      ensures !old(isActive) ==> data == None && wordIndex == old(wordIndex)
      ensures isActive == old(isActive) && pending == old(pending) - 1
    {
      pending := pending - 1;
      if !isActive {
        return None;
      }
      var text := script[wordIndex % |script|];
      wordIndex := wordIndex + 1;
      var isFinal := EndsWithPeriod(text) || wordIndex % WordsPerUtterance == 0;
      data := Some(Increment(text + " ", isFinal));
    }

    /** `end()`: deactivates for good; pending callbacks still fire but emit nothing. */
    method End()
      modifies this
      ensures State() == EndStep(old(State()))
      ensures !isActive && wordIndex == old(wordIndex) && pending == old(pending)
    {
      isActive := false;
    }
  }
}
