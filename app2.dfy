/** frontend/src/App2.jsx: the variant that detects a spoken question by a
    `conversation.item.input_audio_transcription.completed` event, refuses a
    second connection and a session without a client secret or with a blank
    SDP answer, sends a `response.create` only on an open channel, and
    connects on its own when a question is typed while disconnected. */
module App2 {
  import opened Text
  import opened Realtime

  const Voice: string := "ash"
  const MaxOutputTokens: nat := 400

  const ContextIntro: string := "Use the following PDF context:\n"
  const QueryIntro: string := "\nUser: "
  const Closing: string := " \nAnswer in layman terms as if to a highschooler"

  /** The `instructions` text of a request. */
  function Instructions(context: string, query: string): string {
    ContextIntro + context + QueryIntro + query + Closing
  }

  /** The instructions hold the retrieved context right after the opening
      line and then the user's words, both verbatim, before the closing line. */
  lemma InstructionsEmbed(context: string, query: string)
    ensures var s := Instructions(context, query); var at := |ContextIntro| + |context| + |QueryIntro|;
      |s| == at + |query| + |Closing|
      && s[..|ContextIntro|] == ContextIntro
      && s[|ContextIntro|..|ContextIntro| + |context|] == context
      && s[|ContextIntro| + |context|..at] == QueryIntro
      && s[at..at + |query|] == query
      && s[at + |query|..] == Closing
  {
  }

  /** What every `response.create` of this variant asks for: no temperature. */
  predicate Configured(p: Payload) {
    p.ResponseCreate? && p.response.modalities == AudioAndText && p.response.voice == Voice
    && p.response.outputAudioFormat == Pcm16 && p.response.temperature == None
    && p.response.maxOutputTokens == MaxOutputTokens
  }

  /** The request createResponseEvent builds for a question and its context. */
  function Request(query: string, context: string): (p: Payload)
    ensures Configured(p)
    ensures p.response.instructions == Instructions(context, query)
  {
    ResponseCreate(ResponseParams(AudioAndText, Instructions(context, query), Voice, Pcm16,
                                  None, MaxOutputTokens))
  }

  /** The `dc.onmessage` switch. A question is handed on exactly when a
      completed transcription is not blank; it is the trimmed transcript, and
      it is also the one chat line added. Status changes add no line; a
      finished assistant transcript adds one AI line; everything else,
      `conversation.item.created` included, is ignored. */
  function React(m: Inbound): (r: Reaction)
    ensures |r.said| <= 1
    ensures r.query.Some? <==>
      m.Parsed? && m.event.TranscriptionCompleted? && m.event.transcript.Some?
      && !IsBlank(m.event.transcript.value)
    ensures r.query.Some? ==>
      r.query.value == Trim(m.event.transcript.value) && Trim(r.query.value) == r.query.value
      && r.said == [Msg(You, r.query.value)]
    ensures r.status.Some? <==> m.Parsed? && (m.event.ResponseCreated? || m.event.AudioDone?)
    ensures r.status.Some? ==> r.said == []
    ensures m.Parsed? && m.event.ResponseCreated? ==> r.status == Some(Responding)
    ensures m.Parsed? && m.event.AudioDone? ==> r.status == Some(Connected)
    ensures m.Parsed? && m.event.TranscriptDone? ==> r.said == [Msg(AI, m.event.final)]
    ensures m.Parsed? && m.event.ConversationCreated? ==> r.conversation == Some(m.event.id)
    ensures m.Parsed? && m.event.TranscriptionCompleted? && r.query.None? ==> r == Ignored
    ensures r.said != [] && r.query.None? ==>
      m.Parsed? && m.event.TranscriptDone? && r.said == [Msg(AI, m.event.final)]
    ensures r.conversation.Some? <==> m.Parsed? && m.event.ConversationCreated?
    ensures (m.Unparseable? || m.event.ItemCreated? || m.event.TranscriptDelta?
             || m.event.SpeechStarted? || m.event.SpeechStopped? || m.event.Other?) ==> r == Ignored
  {
    match m
    case Unparseable => Ignored
    case Parsed(e, _, _) =>
      match e
      case ConversationCreated(id) => Reaction(None, [], None, Some(id))
      case TranscriptionCompleted(transcript) =>
        if transcript.Some? && Trim(transcript.value) != "" then
          var userTranscript := Trim(transcript.value);
          TrimBlankIff(transcript.value);
          TrimIdempotent(transcript.value);
          Reaction(None, [Msg(You, userTranscript)], Some(userTranscript), None)
        else
          TrimBlankIff(transcript.GetOr(""));
          Ignored
      case TranscriptDone(t) => Reaction(None, [Msg(AI, t)], None, None)
      case ResponseCreated => Reaction(Some(Responding), [], None, None)
      case AudioDone => Reaction(Some(Connected), [], None, None)
      case _ => Ignored
  }

  /** The component's state: its React state and its refs. */
  class Session {
    var connected: bool          // isConnected
    var status: Status           // statusMessage
    var messages: seq<Msg>       // messages
    var inputText: string        // inputText
    var hasPeer: bool            // pcRef.current is a peer connection
    var hasLocalStream: bool     // localStreamRef.current is a stream
    var channel: Channel         // dcRef.current
    var ephemeralKey: string     // ephemeralKeyRef.current
    var conversationId: string   // conversationIdRef.current
    var sent: seq<Payload>       // every payload passed to dc.send, oldest first

    /** A connected session has a peer connection and a data channel, a live
        data channel belongs to a live peer connection, and every payload ever
        sent is a request with this variant's settings. */
    ghost predicate Valid()
      reads this
    {
      (connected ==> hasPeer && !channel.NoChannel?)
      && (channel == DataChannel(Connecting) || IsOpen(channel) ==> hasPeer)
      && forall p :: p in sent ==> Configured(p)
    }

    /** What endSession leaves behind. */
    ghost predicate Ended()
      reads this
    {
      !connected && status == Disconnected && messages == [] && !hasPeer
    }

    constructor ()
      ensures Valid() && Ended()
      ensures inputText == "" && !hasLocalStream && channel == NoChannel
      ensures ephemeralKey == "" && conversationId == "" && sent == []
    {
      connected, status, messages, inputText := false, Disconnected, [], "";
      hasPeer, hasLocalStream, channel := false, false, NoChannel;
      ephemeralKey, conversationId, sent := "", "", [];
    }

    /** The text area's onChange. */
    method SetInput(text: string)
      modifies this`inputText
      ensures inputText == text
    {
      inputText := text;
    }

    /** initWebRTC, with the outcome of each awaited step given. Nothing
        happens while connected. A missing client secret, a failing step or a
        blank SDP answer sets the error status and leaves the session
        disconnected; the refs assigned before the failure stay assigned. */
    method Init(o: InitOutcome)
      requires Valid()
      modifies this
      ensures Valid()
      ensures old(connected) ==> unchanged(this)
      ensures !old(connected) ==>
        connected == Negotiated(o, true)
        && status == (if Negotiated(o, true) then Connected else InitFailed)
        && hasPeer == (old(hasPeer) || SecretObtained(o, true))
        && hasLocalStream == (old(hasLocalStream) || MicAcquired(o, true))
        && channel == (if MicAcquired(o, true) then DataChannel(Connecting) else old(channel))
        && ephemeralKey == (if SecretObtained(o, true) then SecretOf(o) else old(ephemeralKey))
        && conversationId == (if SecretObtained(o, true) then "" else old(conversationId))
      ensures messages == old(messages) && inputText == old(inputText) && sent == old(sent)
    {
      if connected {
        return;
      }
      if o.session.None? || o.session.value.clientSecret.None? || o.session.value.clientSecret.value == "" {
        status := InitFailed;
        return;
      }
      ephemeralKey := o.session.value.clientSecret.value;
      conversationId := "";
      hasPeer := true;
      if !o.micGranted {
        status := InitFailed;
        return;
      }
      hasLocalStream := true;
      channel := DataChannel(Connecting);
      if o.answer.None? {
        status := InitFailed;
        return;
      }
      TrimBlankIff(o.answer.value);
      if Trim(o.answer.value) == "" || !o.remoteAccepted {
        status := InitFailed;
        return;
      }
      connected := true;
      status := Connected;
    }

    /** The browser finishing the data channel's setup once the remote
        description is applied; the source has no handler for it, it only
        reads readyState. */
    method ChannelOpens()
      requires Valid() && connected
      modifies this`channel
      ensures Valid()
      ensures channel == if old(channel) == DataChannel(Connecting) then DataChannel(Open) else old(channel)
    {
      if channel == DataChannel(Connecting) {
        channel := DataChannel(Open);
      }
    }

    /** `dc.onmessage`, with the outcome of the chunk retrieval that the
        handed-on question awaits given. */
    method OnMessage(m: Inbound, retrieval: Retrieval)
      requires Valid()
      modifies this`status, this`messages, this`conversationId, this`sent
      ensures Valid()
      ensures var r := React(m);
        status == r.status.GetOr(old(status))
        && messages == old(messages) + r.said
        && conversationId == r.conversation.GetOr(old(conversationId))
        && sent == old(sent) + (if r.query.Some? && IsOpen(channel)
                                then [Request(r.query.value, ContextOf(retrieval))] else [])
    {
      if m.Unparseable? {
        return;
      }
      match m.event
      case ConversationCreated(id) =>
        conversationId := id;
      case TranscriptionCompleted(transcript) =>
        if transcript.Some? && Trim(transcript.value) != "" {
          var userTranscript := Trim(transcript.value);
          messages := messages + [Msg(You, userTranscript)];
          HandleUserInput(userTranscript, retrieval);
        }
      case TranscriptDone(t) =>
        messages := messages + [Msg(AI, t)];
      case ResponseCreated =>
        status := Responding;
      case AudioDone =>
        status := Connected;
      case _ =>
    }

    /** handleUserInput: retrieve the context for a question, then ask for a
        response to it. */
    method HandleUserInput(query: string, retrieval: Retrieval)
      requires Valid()
      modifies this`sent
      ensures Valid()
      ensures sent == old(sent) + if IsOpen(channel) then [Request(query, ContextOf(retrieval))] else []
    {
      var context := ContextOf(retrieval);
      CreateResponse(query, context);
    }

    /** createResponseEvent: one request when the data channel is open,
        nothing otherwise. */
    method CreateResponse(query: string, context: string)
      requires Valid()
      modifies this`sent
      ensures Valid()
      ensures sent == old(sent) + if IsOpen(channel) then [Request(query, context)] else []
    {
      if !IsOpen(channel) {
        return;
      }
      sent := sent + [Request(query, context)];
    }

    /** sendTextMessage: connects first when disconnected, then does nothing
        more if the trimmed input is empty; otherwise shows the trimmed
        question, clears the input and hands the question on, which sends one
        request only if the channel is open by then. */
    method SendText(o: InitOutcome, retrieval: Retrieval)
      requires Valid()
      modifies this
      ensures Valid()
      ensures connected == (old(connected) || Negotiated(o, true))
      ensures status == if old(connected) then old(status) else if Negotiated(o, true) then Connected else InitFailed
      ensures hasPeer == (old(hasPeer) || (!old(connected) && SecretObtained(o, true)))
      ensures hasLocalStream == (old(hasLocalStream) || (!old(connected) && MicAcquired(o, true)))
      ensures channel == if !old(connected) && MicAcquired(o, true) then DataChannel(Connecting) else old(channel)
      ensures ephemeralKey == if !old(connected) && SecretObtained(o, true) then SecretOf(o) else old(ephemeralKey)
      ensures conversationId == if !old(connected) && SecretObtained(o, true) then "" else old(conversationId)
      ensures var question := Trim(old(inputText));
        messages == old(messages) + (if question != "" then [Msg(You, question)] else [])
        && inputText == (if question != "" then "" else old(inputText))
        && sent == old(sent) + (if question != "" && IsOpen(channel)
                                then [Request(question, ContextOf(retrieval))] else [])
    {
      if !connected {
        Init(o);
      }
      var question := Trim(inputText);
      if question == "" {
        return;
      }
      messages := messages + [Msg(You, question)];
      inputText := "";
      HandleUserInput(question, retrieval);
    }

    /** endSession: closes the peer connection if there is one (which closes
        its data channel), forgets it, and resets the connection flag, the
        status and the chat. A second call changes nothing. */
    method EndSession()
      requires Valid()
      modifies this
      ensures Valid() && Ended()
      ensures !IsOpen(channel)
      ensures channel == if old(hasPeer) then PeerClosed(old(channel)) else old(channel)
      ensures inputText == old(inputText) && sent == old(sent) && hasLocalStream == old(hasLocalStream)
      ensures ephemeralKey == old(ephemeralKey) && conversationId == old(conversationId)
      ensures old(Ended()) ==> unchanged(this)
    {
      if hasPeer {
        channel := PeerClosed(channel);
      }
      hasPeer := false;
      connected := false;
      status := Disconnected;
      messages := [];
    }
  }
}
