/**
 * The live-document chat panel: a text chat over a loaded document, and a
 * live voice session that streams microphone frames out and plays model
 * audio back through the shared scheduler. This session has no transcript
 * or barge-in handling, and stopping it stops every live source and resets
 * the cursor.
 */
module SmartChat {
  import opened Wrappers
  import opened Pcm
  import opened Playback
  import opened Transport

  datatype Role = User | Model

  /** A chat bubble; the timestamp is not modelled. */
  datatype ChatMessage = ChatMessage(id: string, role: Role, text: string)

  /**
   * The characters `String.prototype.trim` removes: WhiteSpace and
   * LineTerminator of sections 12.2 and 12.3 of ECMA-262 (2023 edition),
   * with the space separators of Unicode category Zs.
   */
  predicate IsJsSpace(c: char)
  {
    || c == '\t' || c == '\U{000B}' || c == '\U{000C}' || c == '\U{FEFF}'
    || c == ' ' || c == '\U{00A0}' || c == '\U{1680}' || ('\U{2000}' <= c <= '\U{200A}')
    || c == '\U{202F}' || c == '\U{205F}' || c == '\U{3000}'
    || c == '\n' || c == '\r' || c == '\U{2028}' || c == '\U{2029}'
  }

  /** Every character of `s` is white space (the empty string included). */
  predicate Blank(s: string)
  {
    forall i :: 0 <= i < |s| ==> IsJsSpace(s[i])
  }

  /** `s` with its leading white space removed. */
  function TrimStart(s: string): (t: string)
    ensures |t| <= |s| && t == s[|s| - |t|..]
    ensures Blank(s[..|s| - |t|])
    ensures t == "" || !IsJsSpace(t[0])
  {
    if s != "" && IsJsSpace(s[0]) then TrimStart(s[1..]) else s
  }

  /** `s` with its trailing white space removed. */
  function TrimEnd(s: string): (t: string)
    ensures |t| <= |s| && t == s[..|t|]
    ensures Blank(s[|t|..])
    ensures t == "" || !IsJsSpace(t[|t| - 1])
  {
    if s != "" && IsJsSpace(s[|s| - 1]) then TrimEnd(s[..|s| - 1]) else s
  }

  /** `String.prototype.trim`: white space removed from both ends. */
  function Trim(s: string): (t: string)
    ensures exists a, b :: 0 <= a <= b <= |s| && t == s[a..b] && Blank(s[..a]) && Blank(s[b..])
    ensures t == "" || (!IsJsSpace(t[0]) && !IsJsSpace(t[|t| - 1]))
    ensures Blank(s) ==> t == ""
  {
    var u := TrimStart(s);
    var t := TrimEnd(u);
    TrimBothEnds(s, u, t);
    t
  }

  /**
   * What trimming the end of `s` with its start trimmed leaves: a slice of
   * `s` between two blank runs, with no white space at either end.
   */
  lemma TrimBothEnds(s: string, u: string, t: string)
    requires |u| <= |s| && u == s[|s| - |u|..] && Blank(s[..|s| - |u|])
    requires u == "" || !IsJsSpace(u[0])
    requires |t| <= |u| && t == u[..|t|] && Blank(u[|t|..])
    requires t == "" || !IsJsSpace(t[|t| - 1])
    ensures exists a, b :: 0 <= a <= b <= |s| && t == s[a..b] && Blank(s[..a]) && Blank(s[b..])
    ensures t == "" || (!IsJsSpace(t[0]) && !IsJsSpace(t[|t| - 1]))
    ensures Blank(s) ==> t == ""
  {
    var a := |s| - |u|;
    var b := a + |t|;
    assert s[a..b] == t;
    assert s[b..] == u[|t|..];
    if t != "" {
      assert t[0] == u[0];
    }
    if u != "" {
      assert s[a] == u[0] && !IsJsSpace(s[a]);
    }
  }

  /** Trimming leaves nothing exactly when the string is all white space. */
  lemma TrimEmptyIffBlank(s: string)
    ensures Trim(s) == "" <==> Blank(s)
  {
    var u := TrimStart(s);
    var k := |s| - |u|;
    if u == "" {
      assert s[..k] == s;
    } else {
      assert u[0] == s[k];
      assert !Blank(s);
      assert TrimEnd(u) != "";
    }
  }

  /** The guard `!text.trim()`: nothing is left once white space is trimmed. */
  method TrimsToEmpty(text: string) returns (empty: bool)
    ensures empty <==> Blank(text)
  {
    TrimEmptyIffBlank(text);
    empty := Trim(text) == "";
  }

  /** A preset counts only when it is given and non-empty (JavaScript truthiness). */
  predicate PresetGiven(preset: Option<string>)
  {
    preset.Some? && preset.value != ""
  }

  /** The text a send uses: the preset when given, the input box otherwise. */
  function Chosen(preset: Option<string>, input: string): string
  {
    if PresetGiven(preset) then preset.value else input
  }

  class ChatPanel {
    var messages: seq<ChatMessage>
    var input: string
    /** A document is loaded (the `file` state is not null). */
    var document: bool
    var loading: bool
    var streamingText: string
    /** The on/off flag of the live voice session. */
    var isLive: bool
    /** A session object has been stored (it is never cleared again). */
    var hasSession: bool
    /** The output audio context exists (it is never cleared again). */
    var hasOutput: bool
    /** A capture pipeline has been wired to the microphone (it is never detached). */
    var capturing: bool
    /** The cursor and the live sources. */
    const player: Player

    ghost predicate Valid()
      reads this, player
    {
      && player.Valid()
      && (isLive ==> capturing)
      && (!hasOutput ==> player.live == {} && player.history == [])
    }

    constructor ()
      ensures Valid() && fresh(player)
      ensures messages == [] && input == "" && !document && !loading && streamingText == ""
      ensures !isLive && !hasSession && !hasOutput && !capturing
      ensures player.cursor == 0.0 && player.live == {}
    {
      messages := [];
      input := "";
      document := false;
      loading := false;
      streamingText := "";
      isLive := false;
      hasSession := false;
      hasOutput := false;
      capturing := false;
      player := new Player();
    }

    /** A document finished loading: the chat restarts from the welcome message. */
    method LoadDocument(welcome: string)
      requires Valid()
      modifies this
      ensures Valid()
      ensures document && messages == [ChatMessage("welcome", Model, welcome)]
      ensures input == old(input) && loading == old(loading) && streamingText == old(streamingText)
      ensures isLive == old(isLive) && hasSession == old(hasSession)
      ensures hasOutput == old(hasOutput) && capturing == old(capturing)
    {
      document := true;
      messages := [ChatMessage("welcome", Model, welcome)];
    }

    /** The remove button: the document and the chat are dropped. */
    method RemoveDocument()
      requires Valid()
      modifies this
      ensures Valid()
      ensures !document && messages == []
      ensures input == old(input) && loading == old(loading) && streamingText == old(streamingText)
      ensures isLive == old(isLive) && hasSession == old(hasSession)
      ensures hasOutput == old(hasOutput) && capturing == old(capturing)
    {
      document := false;
      messages := [];
    }

    /** Typing in the input box. */
    method EditInput(text: string)
      requires Valid()
      modifies this
      ensures Valid()
      ensures input == text
      ensures messages == old(messages) && document == old(document)
      ensures loading == old(loading) && streamingText == old(streamingText)
      ensures isLive == old(isLive) && hasSession == old(hasSession)
      ensures hasOutput == old(hasOutput) && capturing == old(capturing)
    {
      input := text;
    }

    /**
     * Sends the preset, or the input box when no preset is given. Nothing
     * happens when that text is all white space or no document is loaded;
     * otherwise the user's message is appended, the input box is cleared
     * unless a preset was used, and the reply starts loading.
     */
    method SendText(preset: Option<string>, id: string) returns (sent: bool)
      requires Valid()
      modifies this
      ensures Valid()
      ensures sent <==> old(document) && !Blank(Chosen(preset, old(input)))
      ensures sent ==> && messages == old(messages) + [ChatMessage(id, User, Chosen(preset, old(input)))]
                       && input == (if PresetGiven(preset) then old(input) else "")
                       && loading && streamingText == ""
      ensures !sent ==> && messages == old(messages) && input == old(input)
                        && loading == old(loading) && streamingText == old(streamingText)
      ensures document == old(document) && isLive == old(isLive) && hasSession == old(hasSession)
      ensures hasOutput == old(hasOutput) && capturing == old(capturing)
    {
      var text := Chosen(preset, input);
      var empty := TrimsToEmpty(text);
      sent := document && !empty;
      if sent {
        messages := messages + [ChatMessage(id, User, text)];
        if !PresetGiven(preset) {
          input := "";
        }
        loading := true;
        streamingText := "";
      }
    }

    /** The microphone button: stops when live, starts otherwise. */
    method ToggleLive(outcome: StartOutcome) returns (closed: bool, stopped: set<SourceId>)
      requires Valid()
      modifies this, player
      ensures Valid()
      ensures !isLive && player.issued == old(player.issued)
      ensures old(isLive) ==> && closed == hasSession && hasSession == old(hasSession)
                              && stopped == old(player.live) && player.live == {} && player.cursor == 0.0
                              && player.history == [] && hasOutput == old(hasOutput)
      ensures !old(isLive) ==> && !closed && stopped == {}
                               && player.live == old(player.live) && player.cursor == old(player.cursor)
                               && player.history == old(player.history)
                               && hasOutput == (old(hasOutput) || (document && !outcome.FailedEarly?))
                               && hasSession == (old(hasSession) || (document && outcome.Connected?))
      ensures messages == old(messages) && input == old(input) && document == old(document)
      ensures loading == old(loading) && streamingText == old(streamingText) && capturing == old(capturing)
    {
      if isLive {
        closed, stopped := StopLive();
      } else {
        StartLive(outcome);
        closed, stopped := false, {};
      }
    }

    /**
     * Closes the session if one was stored, clears the flag, stops every live
     * source, empties the live set and resets the cursor to 0, whatever the
     * prior state. Stopping an already stopped session changes nothing.
     */
    method StopLive() returns (closed: bool, stopped: set<SourceId>)
      requires Valid()
      modifies this, player
      ensures Valid()
      ensures closed == hasSession
      ensures !isLive && player.live == {} && player.cursor == 0.0 && player.history == []
      ensures stopped == old(player.live) && player.issued == old(player.issued)
      ensures old(!isLive && player.live == {} && player.cursor == 0.0)
              ==> unchanged(this) && player.live == old(player.live) && player.cursor == old(player.cursor)
      ensures messages == old(messages) && input == old(input) && document == old(document)
      ensures loading == old(loading) && streamingText == old(streamingText)
      ensures hasSession == old(hasSession) && hasOutput == old(hasOutput) && capturing == old(capturing)
    {
      closed := hasSession;
      isLive := false;
      stopped := player.Reset();
    }

    /**
     * Without a document, does nothing. Otherwise creates both audio contexts,
     * then stores the connected session, or clears the flag when the start
     * threw; a throw before the output context exists leaves it as it was.
     */
    method StartLive(outcome: StartOutcome)
      requires Valid()
      modifies this
      ensures Valid()
      ensures !old(document) ==> unchanged(this)
      ensures old(document) ==> && hasOutput == (old(hasOutput) || !outcome.FailedEarly?)
                                && hasSession == (old(hasSession) || outcome.Connected?)
                                && isLive == (old(isLive) && outcome.Connected?)
      ensures messages == old(messages) && input == old(input) && document == old(document)
      ensures loading == old(loading) && streamingText == old(streamingText) && capturing == old(capturing)
    {
      if !document {
        return;
      }
      match outcome
      case Connected =>
        hasOutput := true;
        hasSession := true;
      case Failed(_) =>
        hasOutput := true;
        isLive := false;
      case FailedEarly(_) =>
        isLive := false;
    }

    /** The connection is open: the flag is set and the capture pipeline wired. */
    method OnOpen()
      requires Valid()
      modifies this
      ensures Valid()
      ensures isLive && capturing
      ensures messages == old(messages) && input == old(input) && document == old(document)
      ensures loading == old(loading) && streamingText == old(streamingText)
      ensures hasSession == old(hasSession) && hasOutput == old(hasOutput)
    {
      isLive := true;
      capturing := true;
    }

    /**
     * One capture window: once a pipeline is wired, the window is converted
     * and handed to the session as one frame; before that nothing is sent.
     */
    method OnAudioProcess(window: seq<real>) returns (sent: Option<PcmBlob>)
      ensures sent.Some? <==> capturing
      ensures sent.Some? ==> sent.value.mimeType == MimeType
      ensures sent.Some? ==> |sent.value.samples| == |window|
      ensures sent.Some? ==> forall i :: 0 <= i < |window| ==> sent.value.samples[i] == Sample(window[i])
    {
      if capturing {
        var blob := Capture(window);
        sent := Some(blob);
      } else {
        sent := None;
      }
    }

    /**
     * One inbound message: only its audio is used. A message without audio,
     * or one arriving before the output context exists, changes nothing; a
     * fragment the decoder rejects only moves the cursor up to the clock.
     * A model turn without parts throws and changes nothing. `threw` reports
     * whether the handler threw.
     */
    method OnMessage(msg: ServerMessage, clock: Time) returns (playing: Option<Playing>, threw: bool)
      requires Valid()
      modifies player
      ensures Valid()
      ensures threw <==> msg.audio.NoParts? || (hasOutput && msg.audio.Undecodable?)
      ensures playing.Some? <==> msg.audio.Decoded? && hasOutput
      ensures playing.Some? ==> && playing.value.at == StartAt(old(player.cursor), clock)
                                && playing.value.duration == msg.audio.duration
                                && playing.value.source == old(player.issued)
                                && playing.value.source !in old(player.live)
                                && player.live == old(player.live) + {playing.value.source}
                                && player.cursor == playing.value.at + playing.value.duration
                                && player.history == old(player.history) + [Fragment(clock, msg.audio.duration)]
      ensures player.issued == old(player.issued) + (if playing.Some? then 1 else 0)
      ensures hasOutput && msg.audio.Undecodable? ==>
                && player.live == old(player.live)
                && player.cursor == StartAt(old(player.cursor), clock)
                && player.history == old(player.history) + [Fragment(clock, 0.0)]
      ensures !hasOutput || msg.audio.NoAudio? || msg.audio.NoParts? ==>
                && player.live == old(player.live) && player.cursor == old(player.cursor)
                && player.history == old(player.history)
    {
      playing, threw := None, msg.audio.NoParts?;
      if hasOutput {
        playing, threw := player.Play(msg.audio, clock);
      }
    }

    /** A source finished playing: only that source leaves the live set. */
    method OnEnded(id: SourceId)
      requires Valid()
      modifies player
      ensures Valid()
      ensures player.live == old(player.live) - {id}
      ensures player.cursor == old(player.cursor) && player.issued == old(player.issued)
      ensures player.history == old(player.history)
    {
      player.Ended(id);
    }

    /** The connection failed: the flag is cleared. */
    method OnError()
      requires Valid()
      modifies this
      ensures Valid()
      ensures !isLive
      ensures messages == old(messages) && input == old(input) && document == old(document)
      ensures loading == old(loading) && streamingText == old(streamingText)
      ensures hasSession == old(hasSession) && hasOutput == old(hasOutput) && capturing == old(capturing)
    {
      isLive := false;
    }

    /** The connection closed: the flag is cleared. */
    method OnClose()
      requires Valid()
      modifies this
      ensures Valid()
      ensures !isLive
      ensures messages == old(messages) && input == old(input) && document == old(document)
      ensures loading == old(loading) && streamingText == old(streamingText)
      ensures hasSession == old(hasSession) && hasOutput == old(hasOutput) && capturing == old(capturing)
    {
      isLive := false;
    }
  }
}
