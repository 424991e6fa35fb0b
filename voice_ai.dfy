/**
 * The voice page: a live session that streams microphone frames out, plays
 * model audio back through the shared scheduler, handles barge-in, and shows
 * the user's and the model's transcripts for the current turn.
 *
 * On this page stopping only closes the session and clears the recording
 * flag; the live sources keep playing and the cursor keeps its value.
 */
module VoiceAI {
  import opened Wrappers
  import opened Pcm
  import opened Playback
  import opened Transport

  /** The message shown when the connection reports an error. */
  const ErrorText: string := "Xatolik yuz berdi. Iltimos, qaytadan urunib ko'ring."

  class VoiceSession {
    /** The on/off flag shown by the record button. */
    var recording: bool
    /** What the user has said in the current turn. */
    var transcription: string
    /** What the model has said in the current turn. */
    var modelResponse: string
    var error: Option<string>
    /** A session object has been stored (it is never cleared again). */
    var hasSession: bool
    /** The output audio context exists (it is never cleared again). */
    var hasOutput: bool
    /** A capture pipeline has been wired to the microphone (it is never detached). */
    var capturing: bool
    /** The cursor and the live sources. */
    const player: Player

    ghost predicate Valid()
      reads this, player
    {
      && player.Valid()
      && (recording ==> capturing)
      && (!hasOutput ==> player.live == {} && player.history == [])
    }

    constructor ()
      ensures Valid() && fresh(player)
      ensures !recording && transcription == "" && modelResponse == "" && error == None
      ensures !hasSession && !hasOutput && !capturing
      ensures player.cursor == 0.0 && player.live == {}
    {
      recording := false;
      transcription := "";
      modelResponse := "";
      error := None;
      hasSession := false;
      hasOutput := false;
      capturing := false;
      player := new Player();
    }

    /** The record button: stops when recording, starts otherwise. */
    method Toggle(outcome: StartOutcome) returns (closed: bool)
      requires Valid()
      modifies this
      ensures Valid()
      ensures !recording
      ensures old(recording) ==> closed == hasSession && hasSession == old(hasSession)
                                 && hasOutput == old(hasOutput) && error == old(error)
      ensures !old(recording) ==> !closed && hasOutput == (old(hasOutput) || !outcome.FailedEarly?)
                                  && hasSession == (old(hasSession) || outcome.Connected?)
                                  && error == (if outcome.Connected? then old(error) else Some(outcome.message))
      ensures transcription == old(transcription) && modelResponse == old(modelResponse)
      ensures capturing == old(capturing)
    {
      if recording {
        closed := Stop();
      } else {
        Start(outcome);
        closed := false;
      }
    }

    /**
     * Closes the session if one was stored and clears the recording flag;
     * nothing else changes.
     */
    method Stop() returns (closed: bool)
      requires Valid()
      modifies this
      ensures Valid()
      ensures closed == hasSession
      ensures !recording
      ensures transcription == old(transcription) && modelResponse == old(modelResponse)
      ensures error == old(error) && hasSession == old(hasSession)
      ensures hasOutput == old(hasOutput) && capturing == old(capturing)
      ensures player.cursor == old(player.cursor) && player.live == old(player.live)
    {
      closed := hasSession;
      recording := false;
    }

    /**
     * Creates both audio contexts, then either stores the connected session or
     * records the thrown message; a throw before the output context exists
     * leaves it as it was. The flag is left to the open event, and neither
     * the cursor nor the live set is reset.
     */
    method Start(outcome: StartOutcome)
      requires Valid()
      modifies this
      ensures Valid()
      ensures hasOutput == (old(hasOutput) || !outcome.FailedEarly?)
      ensures hasSession == (old(hasSession) || outcome.Connected?)
      ensures error == (if outcome.Connected? then old(error) else Some(outcome.message))
      ensures recording == old(recording) && capturing == old(capturing)
      ensures transcription == old(transcription) && modelResponse == old(modelResponse)
      ensures player.cursor == old(player.cursor) && player.live == old(player.live)
    {
      match outcome
      case Connected =>
        hasOutput := true;
        hasSession := true;
      case Failed(message) =>
        hasOutput := true;
        error := Some(message);
      case FailedEarly(message) =>
        error := Some(message);
    }

    /** The connection is open: the flag is set and the capture pipeline wired. */
    method OnOpen()
      requires Valid()
      modifies this
      ensures Valid()
      ensures recording && capturing
      ensures transcription == old(transcription) && modelResponse == old(modelResponse)
      ensures error == old(error) && hasSession == old(hasSession) && hasOutput == old(hasOutput)
    {
      recording := true;
      capturing := true;
    }

    /**
     * One capture window: once a pipeline is wired, the window is converted
     * and handed to the session as one frame; before that nothing is sent.
     */
    method OnAudioProcess(window: seq<real>) returns (sent: Option<PcmBlob>)
      ensures sent.Some? <==> capturing
      ensures sent.Some? ==> sent.value.mimeType == MimeType
      ensures sent.Some? ==> |sent.value.samples| == |window|
      ensures sent.Some? ==> forall i :: 0 <= i < |window| ==> sent.value.samples[i] == Sample(window[i])
    {
      if capturing {
        var blob := Capture(window);
        sent := Some(blob);
      } else {
        sent := None;
      }
    }

    /**
     * One inbound message, handled in the source's order: transcript
     * appends, the turn-complete clear, audio scheduling, then barge-in.
     * A fragment the decoder rejects has already moved the cursor up to the
     * clock, and the rejection ends the handler there, barge-in included; a
     * model turn without parts throws before any audio is looked at, with
     * the same effect. Returns the fragment started, if any, the sources
     * stopped, and whether the handler threw.
     */
    method OnMessage(msg: ServerMessage, clock: Time) returns (playing: Option<Playing>, stopped: set<SourceId>, threw: bool)
      requires Valid()
      modifies this, player
      ensures Valid()
      ensures modelResponse == if msg.turnComplete then "" else old(modelResponse) + Appended(msg.outputTranscription)
      ensures transcription == if msg.turnComplete then "" else old(transcription) + Appended(msg.inputTranscription)
      ensures playing.Some? <==> msg.audio.Decoded? && hasOutput
      ensures playing.Some? ==> && playing.value.at == StartAt(old(player.cursor), clock)
                                && playing.value.duration == msg.audio.duration
                                && playing.value.source == old(player.issued)
                                && playing.value.source !in old(player.live)
      ensures player.issued == old(player.issued) + (if playing.Some? then 1 else 0)
      ensures threw <==> msg.audio.NoParts? || (hasOutput && msg.audio.Undecodable?)
      ensures threw ==> stopped == {} && player.live == old(player.live)
      ensures msg.audio.NoParts? ==> player.cursor == old(player.cursor) && player.history == old(player.history)
      ensures hasOutput && msg.audio.Undecodable? ==>
                && player.cursor == StartAt(old(player.cursor), clock)
                && player.history == old(player.history) + [Fragment(clock, 0.0)]
      ensures !threw && msg.interrupted ==>
                && stopped == old(player.live) + (if playing.Some? then {playing.value.source} else {})
                && player.live == {} && player.cursor == 0.0 && player.history == []
      ensures !threw && !msg.interrupted ==>
                && stopped == {}
                && player.live == old(player.live) + (if playing.Some? then {playing.value.source} else {})
                && player.cursor == (if playing.Some? then playing.value.at + playing.value.duration
                                     else old(player.cursor))
                && player.history == (if playing.Some? then old(player.history) + [Fragment(clock, msg.audio.duration)]
                                      else old(player.history))
      ensures recording == old(recording) && error == old(error) && capturing == old(capturing)
      ensures hasSession == old(hasSession) && hasOutput == old(hasOutput)
    {
      UpdateTranscripts(msg);
      playing, stopped, threw := None, {}, msg.audio.NoParts?;
      if hasOutput {
        playing, threw := player.Play(msg.audio, clock);
      }
      if msg.interrupted && !threw {
        stopped := player.Reset();
      }
    }

    /**
     * The transcript step of a message: output text is appended to the
     * model's transcript and input text to the user's, then turn-complete
     * clears both.
     */
    method UpdateTranscripts(msg: ServerMessage)
      requires Valid()
      modifies this
      ensures Valid()
      ensures modelResponse == if msg.turnComplete then "" else old(modelResponse) + Appended(msg.outputTranscription)
      ensures transcription == if msg.turnComplete then "" else old(transcription) + Appended(msg.inputTranscription)
      ensures recording == old(recording) && error == old(error) && capturing == old(capturing)
      ensures hasSession == old(hasSession) && hasOutput == old(hasOutput)
    {
      if msg.outputTranscription.Some? {
        modelResponse := modelResponse + Appended(msg.outputTranscription);
      }
      if msg.inputTranscription.Some? {
        transcription := transcription + Appended(msg.inputTranscription);
      }
      if msg.turnComplete {
        transcription := "";
        modelResponse := "";
      }
    }

    /** A source finished playing: only that source leaves the live set. */
    method OnEnded(id: SourceId)
      requires Valid()
      modifies player
      ensures Valid()
      ensures player.live == old(player.live) - {id}
      ensures player.cursor == old(player.cursor) && player.issued == old(player.issued)
      ensures player.history == old(player.history)
    {
      player.Ended(id);
    }

    /** The connection failed: an error message is shown and the flag cleared. */
    method OnError()
      requires Valid()
      modifies this
      ensures Valid()
      ensures error == Some(ErrorText) && !recording
      ensures transcription == old(transcription) && modelResponse == old(modelResponse)
      ensures hasSession == old(hasSession) && hasOutput == old(hasOutput) && capturing == old(capturing)
    {
      error := Some(ErrorText);
      recording := false;
    }

    /** The connection closed: the flag is cleared. */
    method OnClose()
      requires Valid()
      modifies this
      ensures Valid()
      ensures !recording
      ensures transcription == old(transcription) && modelResponse == old(modelResponse) && error == old(error)
      ensures hasSession == old(hasSession) && hasOutput == old(hasOutput) && capturing == old(capturing)
    {
      recording := false;
    }
  }
}
