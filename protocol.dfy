/**
 * Values exchanged on the transcription channel, shared by the server session
 * and the browser client. JSON syntax is not modelled: a text frame arrives
 * already parsed, as `Some(message)`, or as `None` when `JSON.parse` throws.
 */
module Protocol {

  /** One octet of an audio chunk or of a frequency-bin array (a `Uint8Array` element). */
  type Byte = b: int | 0 <= b < 256

  datatype Option<+T> = None | Some(value: T)

  /**
   * The `{text, isFinal}` record the transcription engine hands to its
   * callback; the server sends it as `{type: 'transcription', text, isFinal}`.
   */
  datatype Increment = Increment(text: string, isFinal: bool)

  /**
   * A parsed JSON text frame, reduced to what the handlers look at: its `type`
   * field, and for a `'transcription'` object its `text` (the empty string when
   * the field is missing or falsy) and its `isFinal` flag.
   */
  datatype Message =
    | Stop
    | Transcription(text: string, isFinal: bool)
    | OtherType

  /** A frame as the server's `'message'` handler receives it: binary audio or text. */
  datatype Frame =
    | Binary(data: seq<Byte>)
    | Text(parsed: Option<Message>)
}
