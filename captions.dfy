/**
 * The caption assembler of the browser client
 * (frontend/src/components/Transcription.jsx): the React state pair
 * `(liveText, history)` and the pure updates applied to it by incoming
 * transcription frames and by stopping.
 */
module Captions {
  import opened Protocol

  // ---------------------------------------------------------------------------
  // `String.prototype.trim`

  /** ECMAScript WhiteSpace and LineTerminator code points, which `trim` strips. */
  predicate IsWhitespace(c: char) {
    c == '\t' || c == '\n' || c == '\U{000B}' || c == '\U{000C}' || c == '\r' || c == ' '
    || c == '\U{00A0}' || c == '\U{1680}' || ('\U{2000}' <= c <= '\U{200A}')
    || c == '\U{2028}' || c == '\U{2029}' || c == '\U{202F}' || c == '\U{205F}'
    || c == '\U{3000}' || c == '\U{FEFF}'
  }

  predicate IsBlank(s: string) {
    forall i :: 0 <= i < |s| ==> IsWhitespace(s[i])
  }

  /** Drops leading whitespace: the result is a suffix and what was dropped is all whitespace. */
  function TrimStart(s: string): (r: string)
    ensures |r| <= |s| && r == s[|s| - |r|..]
    ensures forall i :: 0 <= i < |s| - |r| ==> IsWhitespace(s[i])
    ensures r == "" || !IsWhitespace(r[0])
    decreases |s|
  {
    if s != "" && IsWhitespace(s[0]) then TrimStart(s[1..]) else s
  }

  /** Drops trailing whitespace: the result is a prefix and what was dropped is all whitespace. */
  function TrimEnd(s: string): (r: string)
    ensures |r| <= |s| && r == s[..|r|]
    ensures forall i :: |r| <= i < |s| ==> IsWhitespace(s[i])
    ensures r == "" || !IsWhitespace(r[|r| - 1])
    decreases |s|
  {
    if s != "" && IsWhitespace(s[|s| - 1]) then TrimEnd(s[..|s| - 1]) else s
  }

  /**
   * `s.trim()`: falsy exactly when `s` is blank, and otherwise free of
   * whitespace at both ends.
   */
  function Trim(s: string): (r: string)
    ensures r == "" <==> IsBlank(s)
    ensures r == "" || (!IsWhitespace(r[0]) && !IsWhitespace(r[|r| - 1]))
  {
    TrimEnd(TrimStart(s))
  }

  // ---------------------------------------------------------------------------
  // Caption state and its updates

  datatype Captions = Captions(liveText: string, history: seq<string>)

  /** The initial React state: `useState('')` and `useState([])`. */
  const Initial := Captions("", [])

  /** `handleTranscriptData`: empty text is ignored; a final event commits one entry. */
  function HandleTranscriptData(c: Captions, data: Increment): (r: Captions)
    ensures data.text == "" ==> r == c
    ensures |c.history| <= |r.history| <= |c.history| + 1 && r.history[..|c.history|] == c.history
  {
    if data.text == "" then c
    else if data.isFinal then Captions("", c.history + [c.liveText + data.text])
    else c.(liveText := c.liveText + data.text)
  }

  /**
   * `ws.onmessage`: only a frame that parses, has `type === 'transcription'`
   * and a non-empty `text` reaches `handleTranscriptData`; a frame whose JSON
   * does not parse is caught and changes nothing.
   */
  function OnMessage(c: Captions, parsed: Option<Message>): (r: Captions)
    ensures r == c || (parsed.Some? && parsed.value.Transcription? && parsed.value.text != "")
  {
    if parsed.Some? && parsed.value.Transcription? && parsed.value.text != "" then
      HandleTranscriptData(c, Increment(parsed.value.text, parsed.value.isFinal))
    else c
  }

  /** The last step of `stopTranscription`: commit the trimmed live text if it is not blank. */
  function FinalizeOnStop(c: Captions): (r: Captions)
    ensures IsBlank(c.liveText) ==> r == c
    ensures |c.history| <= |r.history| <= |c.history| + 1 && r.history[..|c.history|] == c.history
  {
    if Trim(c.liveText) != "" then Captions("", c.history + [Trim(c.liveText)]) else c
  }

  /** Only well-formed transcription frames with text change the captions. */
  lemma OnMessageFilter(c: Captions, parsed: Option<Message>)
    ensures parsed.None? ==> OnMessage(c, parsed) == c
    ensures parsed.Some? && !parsed.value.Transcription? ==> OnMessage(c, parsed) == c
    ensures parsed.Some? && parsed.value.Transcription? && parsed.value.text == "" ==> OnMessage(c, parsed) == c
  {
  }

  /**
   * A non-final event appends to the live text and leaves the history alone;
   * a final event appends exactly one entry, live text plus event text, and
   * clears the live text.
   */
  lemma HandleTranscriptDataSpec(c: Captions, data: Increment)
    requires data.text != ""
    ensures !data.isFinal ==> HandleTranscriptData(c, data).history == c.history
    ensures !data.isFinal ==> HandleTranscriptData(c, data).liveText == c.liveText + data.text
    ensures data.isFinal ==> HandleTranscriptData(c, data).liveText == ""
    ensures data.isFinal ==> HandleTranscriptData(c, data).history == c.history + [c.liveText + data.text]
  {
  }

  /**
   * Stopping commits a non-blank live text as one entry with no surrounding
   * whitespace and clears it; a blank live text leaves both fields as they
   * are. Stopping twice is the same as stopping once.
   */
  lemma FinalizeOnStopSpec(c: Captions)
    ensures !IsBlank(c.liveText) ==>
              FinalizeOnStop(c).liveText == "" &&
              |FinalizeOnStop(c).history| == |c.history| + 1 &&
              FinalizeOnStop(c).history[..|c.history|] == c.history &&
              FinalizeOnStop(c).history[|c.history|] == Trim(c.liveText) &&
              Trim(c.liveText) != "" &&
              !IsWhitespace(Trim(c.liveText)[0]) &&
              !IsWhitespace(Trim(c.liveText)[|Trim(c.liveText)| - 1])
    ensures IsBlank(c.liveText) ==> FinalizeOnStop(c) == c
    ensures FinalizeOnStop(FinalizeOnStop(c)) == FinalizeOnStop(c)
  {
    var f := FinalizeOnStop(c);
    if !IsBlank(c.liveText) {
      assert f.history[..|c.history|] == c.history;
    }
  }

  // ---------------------------------------------------------------------------
  // Sequences of transcription events

  /** All history entries joined in order. */
  function Flatten(history: seq<string>): string
    decreases |history|
  {
    if history == [] then "" else Flatten(history[..|history| - 1]) + history[|history| - 1]
  }

  /** The texts of the events, joined in order. */
  function Texts(events: seq<Increment>): string
    decreases |events|
  {
    if events == [] then "" else events[0].text + Texts(events[1..])
  }

  /** The number of events that commit a history entry. */
  function Finals(events: seq<Increment>): nat
    decreases |events|
  {
    if events == [] then 0
    else (if events[0].isFinal && events[0].text != "" then 1 else 0) + Finals(events[1..])
  }

  /** The captions after handling the events in order. */
  function Assemble(c: Captions, events: seq<Increment>): Captions
    decreases |events|
  {
    if events == [] then c else Assemble(HandleTranscriptData(c, events[0]), events[1..])
  }

  lemma {:induction false} AssembleAppend(c: Captions, a: seq<Increment>, b: seq<Increment>)
    ensures Assemble(c, a + b) == Assemble(Assemble(c, a), b)
    decreases |a|
  {
    if a == [] {
      assert a + b == b;
    } else {
      assert (a + b)[0] == a[0] && (a + b)[1..] == a[1..] + b;
      AssembleAppend(HandleTranscriptData(c, a[0]), a[1..], b);
    }
  }

  /**
   * No text is lost, duplicated or reordered: the history joined with the
   * live text grows by exactly the received fragments, in arrival order.
   */
  lemma {:induction false} AssembleConservesText(c: Captions, events: seq<Increment>)
    ensures Flatten(Assemble(c, events).history) + Assemble(c, events).liveText
            == Flatten(c.history) + c.liveText + Texts(events)
    decreases |events|
  {
    if events != [] {
      var d := HandleTranscriptData(c, events[0]);
      AssembleConservesText(d, events[1..]);
      if events[0].text != "" && events[0].isFinal {
        assert d.history[..|d.history| - 1] == c.history;
        assert Flatten(d.history) + d.liveText == Flatten(c.history) + (c.liveText + events[0].text);
      }
      assert Flatten(d.history) + d.liveText == Flatten(c.history) + c.liveText + events[0].text;
    }
  }

  /**
   * The history only grows at the end, by one entry per final event; existing
   * entries are never modified or reordered.
   */
  lemma {:induction false} AssembleHistoryGrows(c: Captions, events: seq<Increment>)
    ensures |Assemble(c, events).history| == |c.history| + Finals(events)
    ensures Assemble(c, events).history[..|c.history|] == c.history
    decreases |events|
  {
    if events != [] {
      var d := HandleTranscriptData(c, events[0]);
      AssembleHistoryGrows(d, events[1..]);
      assert d.history[..|c.history|] == c.history;
      var h := Assemble(c, events).history;
      assert h[..|d.history|][..|c.history|] == h[..|c.history|];
    }
  }

  /** Without a final event the fragments accumulate in the live text. */
  lemma {:induction false} LiveTextAccumulates(c: Captions, events: seq<Increment>)
    requires Finals(events) == 0
    ensures Assemble(c, events) == c.(liveText := c.liveText + Texts(events))
    decreases |events|
  {
    if events != [] {
      var d := HandleTranscriptData(c, events[0]);
      LiveTextAccumulates(d, events[1..]);
      assert c.liveText + events[0].text + Texts(events[1..]) == c.liveText + Texts(events);
    }
  }

  /**
   * After a final event the live text holds exactly the fragments received
   * since it, and the last history entry is that event's utterance.
   */
  lemma LiveTextSinceLastFinal(c: Captions, before: seq<Increment>, last: Increment, after: seq<Increment>)
    requires last.isFinal && last.text != ""
    requires Finals(after) == 0
    ensures Assemble(c, before + [last] + after).liveText == Texts(after)
    ensures Assemble(c, before + [last] + after).history
            == Assemble(c, before).history + [Assemble(c, before).liveText + last.text]
  {
    AssembleAppend(c, before + [last], after);
    AssembleAppend(c, before, [last]);
    LiveTextAccumulates(Assemble(c, before + [last]), after);
  }

  /**
   * An utterance, non-final fragments closed by one final fragment, is
   * committed as a single history entry: the live text so far followed by
   * every fragment, in order.
   */
  lemma {:induction false} OneUtterance(c: Captions, events: seq<Increment>)
    requires |events| > 0
    requires forall k :: 0 <= k < |events| ==> events[k].text != ""
    requires forall k :: 0 <= k < |events| - 1 ==> !events[k].isFinal
    requires events[|events| - 1].isFinal
    ensures Assemble(c, events) == Captions("", c.history + [c.liveText + Texts(events)])
    decreases |events|
  {
    var d := HandleTranscriptData(c, events[0]);
    if |events| == 1 {
      assert events[1..] == [];
      assert Texts(events) == events[0].text;
    } else {
      assert d == c.(liveText := c.liveText + events[0].text);
      OneUtterance(d, events[1..]);
      assert c.liveText + events[0].text + Texts(events[1..]) == c.liveText + Texts(events);
    }
  }

  /** Events `t1`, `t2` (not final) then `t3` (final) give one entry "t1t2t3". */
  lemma ExampleThreeFragments()
    ensures Assemble(Initial, [Increment("t1", false), Increment("t2", false), Increment("t3", true)])
            == Captions("", ["t1t2t3"])
  {
    var events := [Increment("t1", false), Increment("t2", false), Increment("t3", true)];
    var c1 := HandleTranscriptData(Initial, events[0]);
    assert c1 == Captions("t1", []);
    var c2 := HandleTranscriptData(c1, events[1]);
    assert c2 == Captions("t1t2", []);
    var c3 := HandleTranscriptData(c2, events[2]);
    assert "t1t2" + "t3" == "t1t2t3";
    assert c3 == Captions("", ["t1t2t3"]);
    assert events[1..][1..][1..] == [];
  }

  /** `t1` (not final) followed by a manual stop gives one entry "t1". */
  lemma ExampleStopCommits()
    ensures FinalizeOnStop(Assemble(Initial, [Increment("t1", false)])) == Captions("", ["t1"])
  {
    var c := Assemble(Initial, [Increment("t1", false)]);
    assert c == Captions("t1", []) by {
      assert Assemble(Initial, [Increment("t1", false)]) == HandleTranscriptData(Initial, Increment("t1", false));
    }
    assert !IsWhitespace('t') && !IsWhitespace('1');
    assert TrimStart("t1") == "t1";
    assert TrimEnd("t1") == "t1";
  }
}
