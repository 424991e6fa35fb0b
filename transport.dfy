/**
 * The events the live model endpoint delivers to a component, and the
 * abstract actions a component takes in reply. The network connection, the
 * microphone and the audio device themselves are not modelled: an event is a
 * method call, and the output clock is passed in as a parameter.
 */
module Transport {
  import opened Wrappers
  import opened Playback

  /** A transcription object; its `text` field may be missing. */
  datatype Transcription = Transcription(text: Option<string>)

  /** What JavaScript string concatenation appends for a missing text. */
  const Undefined: string := "undefined"

  /** The text `prev + transcription.text` appends to a transcript. */
  function Appended(t: Option<Transcription>): (appended: string)
  {
    match t
    case None => ""
    case Some(Transcription(text)) => text.GetOr(Undefined)
  }

  /**
   * One inbound message, reduced to the fields the components read:
   * the output and input transcription objects when present, the
   * turn-complete and interrupted signals, and the inline audio.
   */
  datatype ServerMessage = ServerMessage(
    outputTranscription: Option<Transcription>,
    inputTranscription: Option<Transcription>,
    turnComplete: bool,
    audio: InlineAudio,
    interrupted: bool)

  /**
   * How a start attempt ends: the connection was made; microphone access or
   * the connection threw with the given message after both audio contexts
   * were created; or the client or an audio context constructor threw
   * first, so the output context was not created.
   */
  datatype StartOutcome = Connected | Failed(message: string) | FailedEarly(message: string)
}
