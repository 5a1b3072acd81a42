/** frontend/src/App.jsx: the first variant. Every parsed event becomes an AI
    chat line, typed text goes out as a plain `{type: "message"}` payload,
    and nothing is retrieved or asked of the model by this component. */
module App {
  import opened Text
  import opened Realtime

  /** The `dc.onmessage` handler: a parsed event adds exactly one AI line, its
      `text` field when that is truthy and its serialised form otherwise; data
      that fails to parse adds nothing. No event touches the status. */
  function React(m: Inbound): (r: Reaction)
    ensures r.status.None? && r.query.None? && r.conversation.None?
    ensures |r.said| == if m.Parsed? then 1 else 0
    ensures forall i :: 0 <= i < |r.said| ==> r.said[i].sender == AI
    ensures m.Parsed? && Truthy(m.text) ==> r.said[0].text == m.text.value
    ensures m.Parsed? && !Truthy(m.text) ==> r.said[0].text == m.serialized
  {
    match m
    case Unparseable => Ignored
    case Parsed(_, text, serialized) =>
      Reaction(None, [Msg(AI, if Truthy(text) then text.value else serialized)], None, None)
  }

  /** The component's state: its React state and its refs. */
  class Session {
    var connected: bool          // isConnected
    var status: Status           // statusMessage
    var messages: seq<Msg>       // messages
    var inputText: string        // inputText
    var hasPeer: bool            // pcRef.current is a peer connection
    var hasLocalStream: bool     // localStreamRef.current is a stream
    var channel: Channel         // dcRef.current
    var sent: seq<Payload>       // every payload passed to dc.send, oldest first

    /** A connected session has a peer connection and a data channel, a live
        data channel belongs to a live peer connection, and every payload ever
        sent is a typed message that is not blank. */
    ghost predicate Valid()
      reads this
    {
      (connected ==> hasPeer && !channel.NoChannel?)
      && (channel == DataChannel(Connecting) || IsOpen(channel) ==> hasPeer)
      && forall p :: p in sent ==> p.TextMessage? && !IsBlank(p.text)
    }

    constructor ()
      ensures Valid()
      ensures !connected && status == Disconnected && messages == [] && inputText == ""
      ensures !hasPeer && !hasLocalStream && channel == NoChannel && sent == []
    {
      connected, status, messages, inputText := false, Disconnected, [], "";
      hasPeer, hasLocalStream, channel, sent := false, false, NoChannel, [];
    }

    /** The input's onChange. */
    method SetInput(text: string)
      modifies this`inputText
      ensures inputText == text
    {
      inputText := text;
    }

    /** initWebRTC, with the outcome of each awaited step given. A failing
        step sets the error status and leaves `connected` as it was; the refs
        assigned before it stay assigned. */
    method Init(o: InitOutcome)
      requires Valid()
      modifies this
      ensures Valid()
      ensures connected == (old(connected) || Negotiated(o, false))
      ensures status == if Negotiated(o, false) then Connected else InitFailed
      ensures hasPeer == (old(hasPeer) || SecretObtained(o, false))
      ensures hasLocalStream == (old(hasLocalStream) || MicAcquired(o, false))
      ensures channel == if MicAcquired(o, false) then DataChannel(Connecting) else old(channel)
      ensures messages == old(messages) && inputText == old(inputText) && sent == old(sent)
    {
      if o.session.None? || o.session.value.clientSecret.None? {
        status := InitFailed;
        return;
      }
      hasPeer := true;
      if !o.micGranted {
        status := InitFailed;
        return;
      }
      hasLocalStream := true;
      channel := DataChannel(Connecting);
      if o.answer.None? || !o.remoteAccepted {
        status := InitFailed;
        return;
      }
      connected := true;
      status := Connected;
    }

    /** The browser finishing the data channel's setup once the remote
        description is applied; the source has no handler for it, it only
        reads readyState. */
    method ChannelOpens()
      requires Valid() && connected
      modifies this`channel
      ensures Valid()
      ensures channel == if old(channel) == DataChannel(Connecting) then DataChannel(Open) else old(channel)
    {
      if channel == DataChannel(Connecting) {
        channel := DataChannel(Open);
      }
    }

    /** `dc.onmessage`: the parse, then one AI line; a parse failure is caught
        and changes nothing. */
    method OnMessage(m: Inbound)
      requires Valid()
      modifies this`messages
      ensures Valid()
      ensures messages == old(messages) + React(m).said
    {
      if m.Unparseable? {
        return;
      }
      var line := if Truthy(m.text) then m.text.value else m.serialized;
      messages := messages + [Msg(AI, line)];
    }

    /** endSession: only when there is a peer connection, close it (which
        closes its data channel), forget it and the local stream, and reset the
        connection flag, the status and the chat. Without a peer connection
        nothing changes, so a second call is a no-op. */
    method EndSession()
      requires Valid()
      modifies this
      ensures Valid()
      ensures !IsOpen(channel)
      ensures !old(hasPeer) ==> unchanged(this)
      ensures old(hasPeer) ==>
        !connected && status == Disconnected && messages == [] && !hasPeer && !hasLocalStream
        && channel == PeerClosed(old(channel))
      ensures inputText == old(inputText) && sent == old(sent)
    {
      if hasPeer {
        channel := PeerClosed(channel);
        hasPeer := false;
        connected := false;
        status := Disconnected;
        messages := [];
        if hasLocalStream {
          hasLocalStream := false;
        }
      }
    }

    /** sendTextMessage: when the channel is open and the input is not blank,
        send the input as typed (untrimmed) in one `{type: "message"}`
        payload, show it as the user's line and clear the input; otherwise
        change nothing. */
    method SendText()
      requires Valid()
      modifies this`sent, this`messages, this`inputText
      ensures Valid()
      ensures var go := IsOpen(old(channel)) && !IsBlank(old(inputText));
        sent == old(sent) + (if go then [TextMessage(old(inputText))] else [])
        && messages == old(messages) + (if go then [Msg(You, old(inputText))] else [])
        && inputText == if go then "" else old(inputText)
    {
      TrimBlankIff(inputText);
      if IsOpen(channel) && Trim(inputText) != "" {
        sent := sent + [TextMessage(inputText)];
        messages := messages + [Msg(You, inputText)];
        inputText := "";
      }
    }
  }
}
