/** frontend/src/Applatest.jsx: the variant that detects a spoken question by
    a `conversation.item.input_audio_transcription.completed` event, shows
    "Processing..." once the user stops speaking, sends a `response.create`
    only on an open channel, and connects on its own when a question is typed
    while disconnected. Unlike App2 it has no guard against a second
    connection and no check of the client secret or of the SDP answer. */
module AppLatest {
  import opened Text
  import opened Realtime

  const Voice: string := "ash"
  const MaxOutputTokens: nat := 800

  const ContextIntro: string := "Use the following PDF context:\n"
  const QueryIntro: string := "\nUser: "

  /** The `instructions` text of a request. */
  function Instructions(context: string, query: string): string {
    ContextIntro + context + QueryIntro + query
  }

  /** The instructions hold the retrieved context right after the opening
      line and then "User: " and the user's words, both verbatim, the words
      closing the text. */
  lemma InstructionsEmbed(context: string, query: string)
    ensures var s := Instructions(context, query);
      |s| == |ContextIntro| + |context| + |QueryIntro| + |query|
      && s[..|ContextIntro|] == ContextIntro
      && s[|ContextIntro|..|ContextIntro| + |context|] == context
      && s[|ContextIntro| + |context|..|s| - |query|] == QueryIntro
      && s[|s| - |query|..] == query
  {
  }

  /** What every `response.create` of this variant asks for: no temperature. */
  predicate Configured(p: Payload) {
    p.ResponseCreate? && p.response.modalities == AudioAndText && p.response.voice == Voice
    && p.response.outputAudioFormat == Pcm16 && p.response.temperature == None
    && p.response.maxOutputTokens == MaxOutputTokens
  }

  /** The request createResponseEvent builds for a question and its context. */
  function Request(query: string, context: string): (p: Payload)
    ensures Configured(p)
    ensures p.response.instructions == Instructions(context, query)
  {
    ResponseCreate(ResponseParams(AudioAndText, Instructions(context, query), Voice, Pcm16,
                                  None, MaxOutputTokens))
  }

  /** The `dc.onmessage` switch. A question is handed on exactly when a
      completed transcription is not blank; it is the trimmed transcript, and
      it is also the one chat line added. A finished assistant transcript adds
      one AI line and sets "Connected"; the end of speech and of the
      assistant's audio only set the status; everything else is ignored. */
  function React(m: Inbound): (r: Reaction)
    ensures |r.said| <= 1
    ensures r.query.Some? <==>
      m.Parsed? && m.event.TranscriptionCompleted? && m.event.transcript.Some?
      && !IsBlank(m.event.transcript.value)
    ensures r.query.Some? ==>
      r.query.value == Trim(m.event.transcript.value) && Trim(r.query.value) == r.query.value
      && r.said == [Msg(You, r.query.value)]
    ensures r.status.Some? <==>
      m.Parsed? && (m.event.TranscriptDone? || m.event.SpeechStopped? || m.event.AudioDone?)
    ensures m.Parsed? && m.event.TranscriptDone? ==>
      r.said == [Msg(AI, m.event.final)] && r.status == Some(Connected)
    ensures m.Parsed? && m.event.SpeechStopped? ==> r.said == [] && r.status == Some(Processing)
    ensures m.Parsed? && m.event.AudioDone? ==> r.said == [] && r.status == Some(Connected)
    ensures m.Parsed? && m.event.ConversationCreated? ==> r.conversation == Some(m.event.id)
    ensures m.Parsed? && m.event.TranscriptionCompleted? && r.query.None? ==> r == Ignored
    ensures r.said != [] && r.query.None? ==>
      m.Parsed? && m.event.TranscriptDone? && r.said == [Msg(AI, m.event.final)]
      && r.status == Some(Connected)
    ensures r.conversation.Some? <==> m.Parsed? && m.event.ConversationCreated?
    ensures (m.Unparseable? || m.event.ItemCreated? || m.event.TranscriptDelta?
             || m.event.SpeechStarted? || m.event.ResponseCreated? || m.event.Other?) ==> r == Ignored
  {
    match m
    case Unparseable => Ignored
    case Parsed(e, _, _) =>
      match e
      case ConversationCreated(id) => Reaction(None, [], None, Some(id))
      case TranscriptionCompleted(transcript) =>
        if transcript.Some? && Trim(transcript.value) != "" then
          var userTranscript := Trim(transcript.value);
          TrimBlankIff(transcript.value);
          TrimIdempotent(transcript.value);
          Reaction(None, [Msg(You, userTranscript)], Some(userTranscript), None)
        else
          TrimBlankIff(transcript.GetOr(""));
          Ignored
      case TranscriptDone(t) => Reaction(Some(Connected), [Msg(AI, t)], None, None)
      case SpeechStopped => Reaction(Some(Processing), [], None, None)
      case AudioDone => Reaction(Some(Connected), [], None, None)
      case _ => Ignored
  }

  /** The component's state: its React state and its refs. */
  class Session {
    var connected: bool          // isConnected
    var status: Status           // statusMessage
    var messages: seq<Msg>       // messages
    var inputText: string        // inputText
    var hasPeer: bool            // pcRef.current is a peer connection
    var hasLocalStream: bool     // localStreamRef.current is a stream
    var channel: Channel         // dcRef.current
    var ephemeralKey: string     // ephemeralKeyRef.current
    var conversationId: string   // conversationIdRef.current
    var sent: seq<Payload>       // every payload passed to dc.send, oldest first

    /** A connected session has a peer connection and a data channel, a live
        data channel belongs to a live peer connection, and every payload ever
        sent is a request with this variant's settings. */
    ghost predicate Valid()
      reads this
    {
      (connected ==> hasPeer && !channel.NoChannel?)
      && (channel == DataChannel(Connecting) || IsOpen(channel) ==> hasPeer)
      && forall p :: p in sent ==> Configured(p)
    }

    /** What endSession leaves behind. */
    ghost predicate Ended()
      reads this
    {
      !connected && status == Disconnected && messages == [] && !hasPeer
    }

    constructor ()
      ensures Valid() && Ended()
      ensures inputText == "" && !hasLocalStream && channel == NoChannel
      ensures ephemeralKey == "" && conversationId == "" && sent == []
    {
      connected, status, messages, inputText := false, Disconnected, [], "";
      hasPeer, hasLocalStream, channel := false, false, NoChannel;
      ephemeralKey, conversationId, sent := "", "", [];
    }

    /** The text area's onChange. */
    method SetInput(text: string)
      modifies this`inputText
      ensures inputText == text
    {
      inputText := text;
    }

    /** initWebRTC, with the outcome of each awaited step given. A failing
        step sets the error status and leaves `connected` as it was; the refs
        assigned before it stay assigned. There is no guard against a second
        connection. */
    method Init(o: InitOutcome)
      requires Valid()
      modifies this
      ensures Valid()
      ensures connected == (old(connected) || Negotiated(o, false))
      ensures status == if Negotiated(o, false) then Connected else InitFailed
      ensures hasPeer == (old(hasPeer) || SecretObtained(o, false))
      ensures hasLocalStream == (old(hasLocalStream) || MicAcquired(o, false))
      ensures channel == if MicAcquired(o, false) then DataChannel(Connecting) else old(channel)
      ensures ephemeralKey == if SecretObtained(o, false) then SecretOf(o) else old(ephemeralKey)
      ensures conversationId == if SecretObtained(o, false) then "" else old(conversationId)
      ensures messages == old(messages) && inputText == old(inputText) && sent == old(sent)
    {
      if o.session.None? || o.session.value.clientSecret.None? {
        status := InitFailed;
        return;
      }
      ephemeralKey := o.session.value.clientSecret.value;
      conversationId := "";
      hasPeer := true;
      if !o.micGranted {
        status := InitFailed;
        return;
      }
      hasLocalStream := true;
      channel := DataChannel(Connecting);
      if o.answer.None? || !o.remoteAccepted {
        status := InitFailed;
        return;
      }
      connected := true;
      status := Connected;
    }

    /** The browser finishing the data channel's setup once the remote
        description is applied; the source has no handler for it, it only
        reads readyState. */
    method ChannelOpens()
      requires Valid() && connected
      modifies this`channel
      ensures Valid()
      ensures channel == if old(channel) == DataChannel(Connecting) then DataChannel(Open) else old(channel)
    {
      if channel == DataChannel(Connecting) {
        channel := DataChannel(Open);
      }
    }

    /** `dc.onmessage`, with the outcome of the chunk retrieval that the
        handed-on question awaits given. */
    method OnMessage(m: Inbound, retrieval: Retrieval)
      requires Valid()
      modifies this`status, this`messages, this`conversationId, this`sent
      ensures Valid()
      ensures var r := React(m);
        status == r.status.GetOr(old(status))
        && messages == old(messages) + r.said
        && conversationId == r.conversation.GetOr(old(conversationId))
        && sent == old(sent) + (if r.query.Some? && IsOpen(channel)
                                then [Request(r.query.value, ContextOf(retrieval))] else [])
    {
      if m.Unparseable? {
        return;
      }
      match m.event
      case ConversationCreated(id) =>
        conversationId := id;
      case TranscriptionCompleted(transcript) =>
        if transcript.Some? && Trim(transcript.value) != "" {
          var userTranscript := Trim(transcript.value);
          messages := messages + [Msg(You, userTranscript)];
          HandleUserInput(userTranscript, retrieval);
        }
      case TranscriptDone(t) =>
        messages := messages + [Msg(AI, t)];
        status := Connected;
      case SpeechStopped =>
        status := Processing;
      case AudioDone =>
        status := Connected;
      case _ =>
    }

    /** handleUserInput: retrieve the context for a question, then ask for a
        response to it. */
    method HandleUserInput(query: string, retrieval: Retrieval)
      requires Valid()
      modifies this`sent
      ensures Valid()
      ensures sent == old(sent) + if IsOpen(channel) then [Request(query, ContextOf(retrieval))] else []
    {
      var context := ContextOf(retrieval);
      CreateResponse(query, context);
    }

    /** createResponseEvent: one request when the data channel is open,
        nothing otherwise. */
    method CreateResponse(query: string, context: string)
      requires Valid()
      modifies this`sent
      ensures Valid()
      ensures sent == old(sent) + if IsOpen(channel) then [Request(query, context)] else []
    {
      if !IsOpen(channel) {
        return;
      }
      sent := sent + [Request(query, context)];
    }

    /** sendTextMessage: connects first when disconnected, then does nothing
        more if the trimmed input is empty; otherwise shows the trimmed
        question, clears the input and hands the question on, which sends one
        request only if the channel is open by then. */
    method SendText(o: InitOutcome, retrieval: Retrieval)
      requires Valid()
      modifies this
      ensures Valid()
      ensures connected == (old(connected) || Negotiated(o, false))
      ensures status == if old(connected) then old(status) else if Negotiated(o, false) then Connected else InitFailed
      ensures hasPeer == (old(hasPeer) || (!old(connected) && SecretObtained(o, false)))
      ensures hasLocalStream == (old(hasLocalStream) || (!old(connected) && MicAcquired(o, false)))
      ensures channel == if !old(connected) && MicAcquired(o, false) then DataChannel(Connecting) else old(channel)
      ensures ephemeralKey == if !old(connected) && SecretObtained(o, false) then SecretOf(o) else old(ephemeralKey)
      ensures conversationId == if !old(connected) && SecretObtained(o, false) then "" else old(conversationId)
      ensures var question := Trim(old(inputText));
        messages == old(messages) + (if question != "" then [Msg(You, question)] else [])
        && inputText == (if question != "" then "" else old(inputText))
        && sent == old(sent) + (if question != "" && IsOpen(channel)
                                then [Request(question, ContextOf(retrieval))] else [])
    {
      if !connected {
        Init(o);
      }
      var question := Trim(inputText);
      if question == "" {
        return;
      }
      messages := messages + [Msg(You, question)];
      inputText := "";
      HandleUserInput(question, retrieval);
    }

    /** endSession: closes the peer connection if there is one (which closes
        its data channel), forgets it, and resets the connection flag, the
        status and the chat. A second call changes nothing. */
    method EndSession()
      requires Valid()
      modifies this
      ensures Valid() && Ended()
      ensures !IsOpen(channel)
      ensures channel == if old(hasPeer) then PeerClosed(old(channel)) else old(channel)
      ensures inputText == old(inputText) && sent == old(sent) && hasLocalStream == old(hasLocalStream)
      ensures ephemeralKey == old(ephemeralKey) && conversationId == old(conversationId)
      ensures old(Ended()) ==> unchanged(this)
    {
      if hasPeer {
        channel := PeerClosed(channel);
      }
      hasPeer := false;
      connected := false;
      status := Disconnected;
      messages := [];
    }
  }
}
