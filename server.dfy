/**
 * The per-connection server session (backend/ws.js, `handleConnection`).
 *
 * A session owns one mock engine and the flag `isSessionActive`, which starts
 * true and is cleared by a `{type: 'stop'}` frame, a close or an error. The
 * socket's `readyState` is an input of the outbound filter, and `ws.send` of
 * `{type: 'transcription', text, isFinal}` is modelled as an append of
 * `{text, isFinal}` to the log of messages sent.
 */
module Server {
  import opened Protocol
  import Engine

  datatype SessionState = SessionState(active: bool, engine: Engine.EngineState, sent: seq<Increment>)

  /** A freshly accepted connection: active, with a fresh engine, nothing sent. */
  const Accepted := SessionState(true, Engine.Started, [])

  /** The session flag is never cleared without ending the engine. */
  ghost predicate Inv(s: SessionState) {
    !s.active ==> !s.engine.active
  }

  /** Stop, close and error all clear the flag and call `end()` on the engine. */
  function Terminate(s: SessionState): (r: SessionState)
    ensures !r.active && !r.engine.active && r.sent == s.sent
    ensures r.engine.script == s.engine.script && r.engine.wordIndex == s.engine.wordIndex
    ensures r.engine.pending == s.engine.pending
  {
    s.(active := false, engine := Engine.EndStep(s.engine))
  }

  /** The `'message'` handler. */
  function MessageStep(s: SessionState, frame: Frame): (r: SessionState)
    ensures !s.active ==> r == s
    ensures r.sent == s.sent && (r.active ==> s.active)
    ensures r.engine.script == s.engine.script && r.engine.wordIndex == s.engine.wordIndex
    ensures !r.active && s.active ==> frame == Text(Some(Stop)) && !r.engine.active
  {
    if !s.active then s
    else
      match frame
      case Binary(data) => s.(engine := Engine.WriteStep(s.engine, Some(data)))
      case Text(parsed) => if parsed == Some(Stop) then Terminate(s) else s
  }

  /** The `onData` callback: send only on an open socket, an active session and a non-empty text. */
  function Deliver(s: SessionState, socketOpen: bool, data: Increment): (r: SessionState)
    ensures r.active == s.active && r.engine == s.engine
    ensures r.sent == s.sent || (r.sent == s.sent + [data] && socketOpen && s.active && data.text != "")
  {
    if socketOpen && s.active && data.text != "" then s.(sent := s.sent + [data]) else s
  }

  /**
   * The outbound filter: a message is sent exactly when the socket is open,
   * the session is active and the text is non-empty, and then it carries
   * `text` and `isFinal` unchanged; nothing else about the session changes.
   */
  lemma DeliverSpec(s: SessionState, socketOpen: bool, data: Increment)
    ensures Deliver(s, socketOpen, data).sent == s.sent + [data] <==> socketOpen && s.active && data.text != ""
    ensures Deliver(s, socketOpen, data).sent == s.sent || Deliver(s, socketOpen, data).sent == s.sent + [data]
    ensures Deliver(s, socketOpen, data).active == s.active && Deliver(s, socketOpen, data).engine == s.engine
  {
    if !(socketOpen && s.active && data.text != "") {
      assert |s.sent + [data]| != |s.sent|;
    }
  }

  /** A pending engine callback fires while the socket is (or is not) open. */
  function FireStep(s: SessionState, socketOpen: bool): (r: SessionState)
    requires s.engine.pending > 0
    ensures r.active == s.active && r.engine.active == s.engine.active
    ensures r.engine.script == s.engine.script && r.engine.pending == s.engine.pending - 1
    ensures r.engine.wordIndex == s.engine.wordIndex + (if s.engine.active then 1 else 0)
    ensures r.sent == s.sent + (if socketOpen && s.active && s.engine.active
                                then [Engine.IncrementAt(s.engine.script, s.engine.wordIndex)] else [])
  {
    var (e, out) := Engine.FireStep(s.engine);
    if out.Some? then Deliver(s.(engine := e), socketOpen, out.value) else s.(engine := e)
  }

  datatype SessionInput =
    | MessageIn(frame: Frame)
    | CloseIn
    | ErrorIn
    | FireIn(socketOpen: bool)

  /** One event; firing when no engine callback is pending is not an event and is skipped. */
  function Step(s: SessionState, input: SessionInput): SessionState {
    match input
    case MessageIn(frame) => MessageStep(s, frame)
    case CloseIn => Terminate(s)
    case ErrorIn => Terminate(s)
    case FireIn(open) => if s.engine.pending > 0 then FireStep(s, open) else s
  }

  function Run(s: SessionState, inputs: seq<SessionInput>): SessionState
    decreases |inputs|
  {
    if inputs == [] then s else Run(Step(s, inputs[0]), inputs[1..])
  }

  /** Binary frames that carry at least the engine's minimum chunk size. */
  function LongBinaryFrames(inputs: seq<SessionInput>): nat
    decreases |inputs|
  {
    if inputs == [] then 0
    else
      var here := if inputs[0].MessageIn? && inputs[0].frame.Binary?
                     && |inputs[0].frame.data| >= Engine.MinChunkBytes then 1 else 0;
      here + LongBinaryFrames(inputs[1..])
  }

  /** Every event keeps the session invariant. */
  lemma StepKeepsInv(s: SessionState, input: SessionInput)
    requires Inv(s)
    ensures Inv(Step(s, input))
  {
  }

  /**
   * A binary frame on an active session goes to the engine's `write` as it
   * is: the session stays active, nothing is sent, the engine's flag and
   * cursor stay, and exactly one callback is scheduled when the engine is
   * still active and the frame holds at least the minimum chunk size.
   */
  lemma BinaryForwarded(s: SessionState, data: seq<Byte>)
    requires s.active
    ensures MessageStep(s, Binary(data)).active && MessageStep(s, Binary(data)).sent == s.sent
    ensures MessageStep(s, Binary(data)).engine.active == s.engine.active
    ensures MessageStep(s, Binary(data)).engine.wordIndex == s.engine.wordIndex
    ensures MessageStep(s, Binary(data)).engine.script == s.engine.script
    ensures MessageStep(s, Binary(data)).engine.pending
            == s.engine.pending + (if s.engine.active && |data| >= Engine.MinChunkBytes then 1 else 0)
  {
  }

  /** A text frame that does not parse, or parses to another `type`, changes nothing. */
  lemma IgnoredTextFrame(s: SessionState, parsed: Option<Message>)
    requires parsed != Some(Stop)
    ensures MessageStep(s, Text(parsed)) == s
  {
  }

  /**
   * Stop (while active), close and error have the same effect, and repeating
   * any of them is harmless.
   */
  lemma StopCloseErrorAgree(s: SessionState)
    ensures s.active ==> Step(s, MessageIn(Text(Some(Stop)))) == Terminate(s)
    ensures Step(s, CloseIn) == Terminate(s) && Step(s, ErrorIn) == Terminate(s)
    ensures !Terminate(s).active && !Terminate(s).engine.active
    ensures Terminate(s).sent == s.sent
    ensures Step(Terminate(s), MessageIn(Text(Some(Stop)))) == Terminate(s)
    ensures Terminate(Terminate(s)) == Terminate(s)
  {
  }

  /**
   * Inactive is terminal: afterwards nothing is sent, the engine is never
   * re-activated, receives no write and never advances, even when callbacks
   * scheduled earlier still fire.
   */
  lemma {:induction false} InactiveIsTerminal(s: SessionState, inputs: seq<SessionInput>)
    requires Inv(s) && !s.active
    ensures !Run(s, inputs).active && !Run(s, inputs).engine.active
    ensures Run(s, inputs).sent == s.sent
    ensures Run(s, inputs).engine.wordIndex == s.engine.wordIndex
    ensures Run(s, inputs).engine.pending <= s.engine.pending
    decreases |inputs|
  {
    if inputs != [] {
      InactiveIsTerminal(Step(s, inputs[0]), inputs[1..]);
    }
  }

  /**
   * No late delivery: once a stop frame, a close or an error has been handled,
   * no further transcription message leaves the server.
   */
  lemma NoLateDelivery(s: SessionState, ender: SessionInput, inputs: seq<SessionInput>)
    requires Inv(s)
    requires ender == CloseIn || ender == ErrorIn || ender == MessageIn(Text(Some(Stop)))
    ensures Run(s, [ender] + inputs).sent == s.sent
  {
    var t := Step(s, ender);
    assert !t.active && Inv(t) && t.sent == s.sent;
    InactiveIsTerminal(t, inputs);
    assert ([ender] + inputs)[1..] == inputs;
  }

  /** The script cursor at which each message sent along the way was taken, in order. */
  function DeliveredAt(s: SessionState, inputs: seq<SessionInput>): seq<nat>
    decreases |inputs|
  {
    if inputs == [] then []
    else
      var t := Step(s, inputs[0]);
      (if |t.sent| > |s.sent| then [s.engine.wordIndex] else []) + DeliveredAt(t, inputs[1..])
  }

  /** The script increments at the given cursors, in order. */
  function IncrementsAt(script: Engine.Script, cursors: seq<nat>): (r: seq<Increment>)
    ensures |r| == |cursors|
    decreases |cursors|
  {
    if cursors == [] then [] else [Engine.IncrementAt(script, cursors[0])] + IncrementsAt(script, cursors[1..])
  }

  /** One event sends at most the increment at the engine's cursor, and only by advancing it. */
  lemma StepSends(s: SessionState, input: SessionInput)
    ensures Step(s, input).engine.script == s.engine.script
    ensures |Step(s, input).sent| > |s.sent| ==>
              Step(s, input).sent == s.sent + [Engine.IncrementAt(s.engine.script, s.engine.wordIndex)]
              && Step(s, input).engine.wordIndex == s.engine.wordIndex + 1
    ensures |Step(s, input).sent| <= |s.sent| ==>
              Step(s, input).sent == s.sent && s.engine.wordIndex <= Step(s, input).engine.wordIndex
  {
  }

  /**
   * The session never alters the engine's output: what it sends is the log
   * so far followed by the script increments at the cursors `DeliveredAt`.
   */
  lemma {:induction false} SentInScriptOrder(s: SessionState, inputs: seq<SessionInput>)
    ensures Run(s, inputs).engine.script == s.engine.script
    ensures Run(s, inputs).sent == s.sent + IncrementsAt(s.engine.script, DeliveredAt(s, inputs))
    decreases |inputs|
  {
    if inputs != [] {
      var t := Step(s, inputs[0]);
      StepSends(s, inputs[0]);
      SentInScriptOrder(t, inputs[1..]);
      var rest := DeliveredAt(t, inputs[1..]);
      var sc := s.engine.script;
      if |t.sent| > |s.sent| {
        var d := [s.engine.wordIndex] + rest;
        assert DeliveredAt(s, inputs) == d;
        assert d[1..] == rest;
        assert IncrementsAt(sc, d) == [Engine.IncrementAt(sc, s.engine.wordIndex)] + IncrementsAt(sc, rest);
      } else {
        assert DeliveredAt(s, inputs) == rest;
      }
    }
  }

  /** Strictly increasing cursors, all in `[lo, hi)`. */
  predicate Ascending(cursors: seq<nat>, lo: nat, hi: nat) {
    (forall k :: 0 <= k < |cursors| ==> lo <= cursors[k] < hi)
    && (forall i, j :: 0 <= i < j < |cursors| ==> cursors[i] < cursors[j])
  }

  lemma AscendingCons(c: nat, rest: seq<nat>, hi: nat)
    requires c < hi && Ascending(rest, c + 1, hi)
    ensures Ascending([c] + rest, c, hi)
  {
    var d := [c] + rest;
    forall i, j | 0 <= i < j < |d| ensures d[i] < d[j] {
      assert d[j] == rest[j - 1];
      if i > 0 {
        assert d[i] == rest[i - 1];
      }
    }
  }

  lemma AscendingWeaken(d: seq<nat>, lo: nat, lo': nat, hi: nat)
    requires lo <= lo' && Ascending(d, lo', hi)
    ensures Ascending(d, lo, hi)
  {
  }

  /**
   * The session never reorders or repeats the engine's output: the cursors of
   * the messages sent strictly increase and lie between the engine's start and
   * end cursor (some may be skipped, when the socket was closed or the session
   * inactive).
   */
  lemma {:induction false} DeliveredInOrder(s: SessionState, inputs: seq<SessionInput>)
    ensures s.engine.wordIndex <= Run(s, inputs).engine.wordIndex
    ensures Ascending(DeliveredAt(s, inputs), s.engine.wordIndex, Run(s, inputs).engine.wordIndex)
    decreases |inputs|
  {
    if inputs != [] {
      var t := Step(s, inputs[0]);
      var hi := Run(s, inputs).engine.wordIndex;
      StepSends(s, inputs[0]);
      DeliveredInOrder(t, inputs[1..]);
      assert Run(t, inputs[1..]).engine.wordIndex == hi;
      var rest := DeliveredAt(t, inputs[1..]);
      if |t.sent| > |s.sent| {
        assert DeliveredAt(s, inputs) == [s.engine.wordIndex] + rest;
        AscendingCons(s.engine.wordIndex, rest, hi);
      } else {
        assert DeliveredAt(s, inputs) == rest;
        AscendingWeaken(rest, s.engine.wordIndex, t.engine.wordIndex, hi);
      }
    }
  }

  /**
   * The session keeps its invariant; what it sends extends the log, and every
   * new message is a non-empty engine increment taken from the script between
   * the engine's start and end cursor, with `text` and `isFinal` unchanged.
   */
  lemma {:induction false} SentAreScriptIncrements(s: SessionState, inputs: seq<SessionInput>)
    requires Inv(s)
    ensures Inv(Run(s, inputs))
    ensures Run(s, inputs).engine.script == s.engine.script
    ensures s.engine.wordIndex <= Run(s, inputs).engine.wordIndex
    ensures |s.sent| <= |Run(s, inputs).sent| && Run(s, inputs).sent[..|s.sent|] == s.sent
    ensures forall k :: |s.sent| <= k < |Run(s, inputs).sent| ==>
              Run(s, inputs).sent[k].text != "" &&
              exists j :: s.engine.wordIndex <= j < Run(s, inputs).engine.wordIndex &&
                          Run(s, inputs).sent[k] == Engine.IncrementAt(s.engine.script, j)
    decreases |inputs|
  {
    if inputs != [] {
      var t := Step(s, inputs[0]);
      StepKeepsInv(s, inputs[0]);
      StepSends(s, inputs[0]);
      SentAreScriptIncrements(t, inputs[1..]);
      var u := Run(t, inputs[1..]);
      assert u == Run(s, inputs);
      if |t.sent| > |s.sent| {
        assert |t.sent| == |s.sent| + 1 && t.sent[..|s.sent|] == s.sent;
        assert t.sent[|s.sent|] == Engine.IncrementAt(s.engine.script, s.engine.wordIndex);
        assert u.sent[..|t.sent|] == t.sent;
        assert u.sent[|s.sent|] == t.sent[|s.sent|];
        assert u.sent[..|s.sent|] == t.sent[..|s.sent|];
      } else {
        assert t.sent == s.sent;
      }
    }
  }

  /**
   * Each long binary frame schedules at most one engine callback and each
   * callback sends at most once: messages sent plus callbacks still pending
   * never exceed the pending callbacks at the start plus the long binary frames.
   */
  lemma {:induction false} SentBoundedByFrames(s: SessionState, inputs: seq<SessionInput>)
    ensures |Run(s, inputs).sent| + Run(s, inputs).engine.pending
            <= |s.sent| + s.engine.pending + LongBinaryFrames(inputs)
    decreases |inputs|
  {
    if inputs != [] {
      var t := Step(s, inputs[0]);
      SentBoundedByFrames(t, inputs[1..]);
      assert |t.sent| + t.engine.pending
             <= |s.sent| + s.engine.pending + LongBinaryFrames(inputs) - LongBinaryFrames(inputs[1..]);
    }
  }

  // ---------------------------------------------------------------------------
  // The connection handler's closure state as an object.

  class Session {
    var isSessionActive: bool
    /** The engine created by `streamToGemini` for this connection. */
    const geminiSession: Engine.MockEngine
    /** Every transcription message passed to `ws.send`, in order. */
    var sent: seq<Increment>

    function State(): SessionState
      reads this, geminiSession
    {
      SessionState(isSessionActive, geminiSession.State(), sent)
    }

    /** `handleConnection(ws)`: the session starts active with a fresh engine. */
    constructor ()
      ensures State() == Accepted && fresh(geminiSession)
      ensures Inv(State())
    {
      isSessionActive := true;
      geminiSession := new Engine.MockEngine();
      sent := [];
    }

    /** `ws.on('message', (data, isBinary) => ...)`. */
    method OnMessage(frame: Frame)
      requires Inv(State())
      modifies this, geminiSession
      ensures State() == MessageStep(old(State()), frame)
      ensures Inv(State())
    {
      if !isSessionActive {
        return;
      }
      match frame
      case Binary(data) =>
        geminiSession.Write(Some(data));
      case Text(parsed) =>
        if parsed.Some? && parsed.value == Stop {
          isSessionActive := false;
          geminiSession.End();
        }
    }

    /** `ws.on('close', ...)`. */
    method OnClose()
      requires Inv(State())
      modifies this, geminiSession
      ensures State() == Terminate(old(State()))
      ensures Inv(State())
      ensures !isSessionActive && !geminiSession.isActive && sent == old(sent)
    {
      isSessionActive := false;
      geminiSession.End();
    }

    /** `ws.on('error', ...)`: the same as a close. */
    method OnError()
      requires Inv(State())
      modifies this, geminiSession
      ensures State() == Terminate(old(State()))
      ensures Inv(State())
      ensures !isSessionActive && !geminiSession.isActive && sent == old(sent)
    {
      isSessionActive := false;
      geminiSession.End();
    }

    /** The `onData` callback given to the engine: the outbound filter. */
    method OnData(socketOpen: bool, data: Increment)
      requires Inv(State())
      modifies this
      ensures State() == Deliver(old(State()), socketOpen, data)
      ensures Inv(State())
      ensures sent == old(sent) || (sent == old(sent) + [data] && data.text != "")
    {
      if socketOpen && isSessionActive && data.text != "" {
        sent := sent + [Increment(data.text, data.isFinal)];
      }
    }

    /** The oldest pending engine timer fires; its output goes through `onData`. */
    method FireTimer(socketOpen: bool)
      requires geminiSession.pending > 0 && Inv(State())
      modifies this, geminiSession
      ensures State() == FireStep(old(State()), socketOpen)
      ensures Inv(State())
    {
      var out := geminiSession.Fire();
      if out.Some? {
        OnData(socketOpen, out.value);
      }
    }
  }
}
