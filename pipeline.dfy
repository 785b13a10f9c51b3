/**
 * The whole pipeline on one scenario: a client with the gate open sends long
 * chunks, the server's mock engine answers each with one increment, and the
 * client assembles what it receives into its captions.
 */
module Pipeline {
  import opened Protocol
  import Engine
  import Server
  import Captions
  import Frontend
  import Vad

  function Repeat<T>(x: T, n: nat): (r: seq<T>)
    ensures |r| == n
    decreases n
  {
    if n == 0 then [] else [x] + Repeat(x, n - 1)
  }

  /** The client-side events for transcription messages received from the server, in order. */
  function Received(msgs: seq<Increment>): (events: seq<Frontend.ClientEvent>)
    ensures |events| == |msgs|
    decreases |msgs|
  {
    if msgs == [] then []
    else [Frontend.MessageIn(Some(Transcription(msgs[0].text, msgs[0].isFinal)))] + Received(msgs[1..])
  }

  lemma {:induction false} RunAppend(s: Server.SessionState, a: seq<Server.SessionInput>, b: seq<Server.SessionInput>)
    ensures Server.Run(s, a + b) == Server.Run(Server.Run(s, a), b)
    decreases |a|
  {
    if a == [] {
      assert a + b == b;
    } else {
      assert (a + b)[1..] == a[1..] + b;
      RunAppend(Server.Step(s, a[0]), a[1..], b);
    }
  }

  lemma RunCons(s: Server.SessionState, x: Server.SessionInput, rest: seq<Server.SessionInput>)
    ensures Server.Run(s, [x] + rest) == Server.Run(Server.Step(s, x), rest)
  {
    assert ([x] + rest)[1..] == rest;
  }

  /** On an active session, each long binary frame schedules one engine callback. */
  lemma {:induction false} LongFramesSchedule(s: Server.SessionState, chunk: seq<Byte>, n: nat)
    requires s.active && s.engine.active && |chunk| >= Engine.MinChunkBytes
    ensures Server.Run(s, Repeat(Server.MessageIn(Binary(chunk)), n))
            == s.(engine := s.engine.(pending := s.engine.pending + n))
    decreases n
  {
    if n > 0 {
      var t := Server.Step(s, Server.MessageIn(Binary(chunk)));
      assert t == s.(engine := s.engine.(pending := s.engine.pending + 1));
      LongFramesSchedule(t, chunk, n - 1);
    }
  }

  /** A callback firing on an active session with the socket open sends the next script increment. */
  lemma FireOpen(s: Server.SessionState)
    requires s.active && s.engine.active && s.engine.pending > 0
    ensures Server.Step(s, Server.FireIn(true))
            == s.(engine := s.engine.(wordIndex := s.engine.wordIndex + 1, pending := s.engine.pending - 1),
                  sent := s.sent + [Engine.IncrementAt(s.engine.script, s.engine.wordIndex)])
  {
  }

  /**
   * On an active session with the socket open, `n` pending callbacks send the
   * next `n` script increments, in order.
   */
  lemma {:induction false} CallbacksSendScript(s: Server.SessionState, n: nat)
    requires s.active && s.engine.active && s.engine.pending >= n
    ensures Server.Run(s, Repeat(Server.FireIn(true), n)).sent
            == s.sent + Engine.ScriptFrom(s.engine.script, s.engine.wordIndex, s.engine.wordIndex + n)
    decreases n
  {
    var wi := s.engine.wordIndex;
    if n == 0 {
      assert Engine.ScriptFrom(s.engine.script, wi, wi) == [];
    } else {
      var f := Server.FireIn(true);
      var t := Server.Step(s, f);
      FireOpen(s);
      RunCons(s, f, Repeat(f, n - 1));
      CallbacksSendScript(t, n - 1);
      Engine.ScriptFromCons(s.engine.script, wi, wi + n);
    }
  }

  /** A session as `handleConnection` creates it, for an engine with any script. */
  predicate Fresh(s: Server.SessionState) {
    s.active && s.engine.active && s.engine.wordIndex == 0 && s.engine.pending == 0 && s.sent == []
  }

  /**
   * A fresh session that receives `n` long binary frames and then lets the `n`
   * callbacks fire with the socket open sends the first `n` script increments.
   */
  lemma ServerAnswersEachChunk(s: Server.SessionState, chunk: seq<Byte>, n: nat)
    requires Fresh(s) && |chunk| >= Engine.MinChunkBytes
    ensures Server.Run(s, Repeat(Server.MessageIn(Binary(chunk)), n) + Repeat(Server.FireIn(true), n)).sent
            == Engine.ScriptFrom(s.engine.script, 0, n)
  {
    RunAppend(s, Repeat(Server.MessageIn(Binary(chunk)), n), Repeat(Server.FireIn(true), n));
    LongFramesSchedule(s, chunk, n);
    CallbacksSendScript(s.(engine := s.engine.(pending := n)), n);
  }

  /**
   * Receiving transcription messages is the same as handing their increments
   * to the caption assembler, in order.
   */
  lemma {:induction false} ReceivedAssembles(s: Frontend.ClientState, incs: seq<Increment>)
    ensures Frontend.Run(s, Received(incs)).captions == Captions.Assemble(s.captions, incs)
    decreases |incs|
  {
    if incs != [] {
      var t := Frontend.Step(s, Received(incs)[0]);
      assert t.captions == Captions.HandleTranscriptData(s.captions, incs[0]);
      assert Received(incs)[1..] == Received(incs[1..]);
      ReceivedAssembles(t, incs[1..]);
    }
  }

  /**
   * `n` long chunks answered by the first `n` script increments, of which
   * only the last is final: the client ends with exactly one history entry,
   * the `n` texts joined in order, and no live text.
   */
  lemma ChunksMakeOneEntry(s: Server.SessionState, chunk: seq<Byte>, n: nat)
    requires Fresh(s) && |chunk| >= Engine.MinChunkBytes
    requires 0 < n
    requires forall k :: 0 <= k < n - 1 ==> !Engine.IncrementAt(s.engine.script, k).isFinal
    requires Engine.IncrementAt(s.engine.script, n - 1).isFinal
    ensures var sent := Server.Run(s, Repeat(Server.MessageIn(Binary(chunk)), n) + Repeat(Server.FireIn(true), n)).sent;
            Frontend.Run(Frontend.Mounted, Received(sent)).captions
            == Captions.Captions("", [Captions.Texts(Engine.ScriptFrom(s.engine.script, 0, n))])
  {
    ServerAnswersEachChunk(s, chunk, n);
    var incs := Engine.ScriptFrom(s.engine.script, 0, n);
    forall k | 0 <= k < n
      ensures incs[k].text != "" && (k < n - 1 ==> !incs[k].isFinal) && (k == n - 1 ==> incs[k].isFinal)
    {
      Engine.ScriptFromAt(s.engine.script, 0, n, k);
    }
    ReceivedAssembles(Frontend.Mounted, incs);
    Captions.OneUtterance(Captions.Initial, incs);
    var text := Captions.Texts(incs);
    assert Captions.Initial.liveText + text == text;
    assert Captions.Initial.history + [text] == [text];
  }

  /** Of the mock script's first five increments only the fifth is final. */
  lemma OnlyFifthIsFinal(k: nat)
    requires k < 5
    ensures Engine.IncrementAt(Engine.MockScript, k).isFinal <==> k == 4
  {
    assert Engine.MockScript[..5] == ["React", " components", " render", " declaratively", "."];
  }

  /**
   * The scenario of five chunks on a new connection: five answers, the fifth
   * final, and one history entry holding the five texts joined in order.
   */
  lemma FiveChunksOneEntry(chunk: seq<Byte>)
    requires |chunk| >= Engine.MinChunkBytes
    ensures var sent := Server.Run(Server.Accepted,
                          Repeat(Server.MessageIn(Binary(chunk)), 5) + Repeat(Server.FireIn(true), 5)).sent;
            Frontend.Run(Frontend.Mounted, Received(sent)).captions
            == Captions.Captions("", [Captions.Texts(Engine.ScriptFrom(Engine.MockScript, 0, 5))])
  {
    forall k | 0 <= k < 4 ensures !Engine.IncrementAt(Engine.MockScript, k).isFinal {
      OnlyFifthIsFinal(k);
    }
    OnlyFifthIsFinal(4);
    ChunksMakeOneEntry(Server.Accepted, chunk, 5);
  }

  /** The client's chunks as they arrive at the server: one binary frame each, in order. */
  function Frames(chunks: seq<seq<Byte>>): (r: seq<Server.SessionInput>)
    ensures |r| == |chunks|
    decreases |chunks|
  {
    if chunks == [] then [] else [Server.MessageIn(Binary(chunks[0]))] + Frames(chunks[1..])
  }

  lemma {:induction false} FramesOfRepeat(chunk: seq<Byte>, n: nat)
    ensures Frames(Repeat(chunk, n)) == Repeat(Server.MessageIn(Binary(chunk)), n)
    decreases n
  {
    if n > 0 {
      assert Repeat(chunk, n)[1..] == Repeat(chunk, n - 1);
      FramesOfRepeat(chunk, n - 1);
    }
  }

  /** With the reading above the threshold and the socket open, every non-empty chunk is sent as recorded. */
  lemma {:induction false} LoudChunksSent(s: Frontend.ClientState, chunk: seq<Byte>, n: nat)
    requires Vad.AboveThreshold(s.energy) && |chunk| > 0
    ensures Frontend.Run(s, Repeat(Frontend.ChunkReady(true, chunk), n)) == s.(sent := s.sent + Repeat(chunk, n))
    decreases n
  {
    if n == 0 {
      assert s.sent + [] == s.sent;
    } else {
      var e := Frontend.ChunkReady(true, chunk);
      var t := Frontend.Step(s, e);
      Vad.GateDecision(true, chunk, s.energy);
      assert t == s.(sent := s.sent + [chunk]);
      assert Repeat(e, n)[1..] == Repeat(e, n - 1);
      LoudChunksSent(t, chunk, n - 1);
      assert s.sent + [chunk] + Repeat(chunk, n - 1) == s.sent + Repeat(chunk, n);
    }
  }

  /**
   * The whole scenario from the microphone: after one recording frame reads
   * above the threshold, five long chunks pass the client's gate unchanged;
   * delivered to a new connection and answered by the engine, they give the
   * client one history entry with the first five script texts in order.
   */
  lemma SpeechToCaptions(bins: seq<Byte>, chunk: seq<Byte>)
    requires Vad.AboveThreshold(Vad.Reading(bins)) && |chunk| >= Engine.MinChunkBytes
    ensures var client := Frontend.Run(Frontend.Mounted,
                            [Frontend.Sample(true, bins)] + Repeat(Frontend.ChunkReady(true, chunk), 5));
            var server := Server.Run(Server.Accepted, Frames(client.sent) + Repeat(Server.FireIn(true), 5));
            client.sent == Repeat(chunk, 5)
            && Frontend.Run(client, Received(server.sent)).captions
               == Captions.Captions("", [Captions.Texts(Engine.ScriptFrom(Engine.MockScript, 0, 5))])
  {
    var loud := Frontend.Mounted.(energy := Vad.Reading(bins));
    var chunks := Repeat(Frontend.ChunkReady(true, chunk), 5);
    assert ([Frontend.Sample(true, bins)] + chunks)[1..] == chunks;
    assert Frontend.Step(Frontend.Mounted, Frontend.Sample(true, bins)) == loud;
    LoudChunksSent(loud, chunk, 5);
    var client := loud.(sent := Repeat(chunk, 5));
    assert Frontend.Run(Frontend.Mounted, [Frontend.Sample(true, bins)] + chunks) == client;
    FramesOfRepeat(chunk, 5);
    var sent := Server.Run(Server.Accepted, Frames(client.sent) + Repeat(Server.FireIn(true), 5)).sent;
    FiveChunksOneEntry(chunk);
    ReceivedAssembles(client, sent);
    ReceivedAssembles(Frontend.Mounted, sent);
  }
}
