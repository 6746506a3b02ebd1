/**
  The identity-tag sub-protocol of the relay: colon-delimited text frames, the injection of a
  client id into frames bound for the backend, its detection and removal in frames coming back,
  the rule by which one backend frame is fanned out to the slots of a match, command routing,
  and the reply frames the relay builds. Everything here is a pure function of its inputs.
 */
module Protocol {
  import opened GoStrings

  /** One message on a connection (a Go `[]byte`). */
  type Frame = string

  /** `clientInfo`: the identity a session acquires through the token exchange. */
  datatype ClientInfo = ClientInfo(id: GoInt, token: string)

  /** `BROADCAST_CLIENT`: the identity that means "no target, everyone". */
  const BroadcastClient: ClientInfo := ClientInfo(0, "")

  /** `REVIEW_COMMAND`: what every slot other than the target receives. */
  const ReviewCommand: Frame := "review:now"

  /** The reply to a command the hub does not know. */
  const UnrecognizedReply: Frame := "unrecognized:"

  /** The values the relay serialises; their JSON form is left to an opaque encoder. */
  datatype Payload =
    | Nil
    | KillClient(id: GoInt)
    | ChatPacket(message: string)
    | Response(status: int, payload: Payload)
    | InitialGameInfo(uids: seq<GoInt>, debug: int)

  /** `json.Marshal`, opaque: the serialised text, or `None` when encoding fails. */
  type Encoder = Payload -> Option<string>

  /** `CommandMarshal`: the command, a colon and the encoded payload; `None` (Go's nil) on failure. */
  function CommandMarshal(cmd: string, payload: Payload, encode: Encoder): Option<Frame> {
    match encode(payload)
    case None => None
    case Some(body) => Some(cmd + ":" + body)
  }

  /** A nil byte slice, once sent or dispatched, is the empty frame. */
  function FrameOf(bytes: Option<Frame>): Frame {
    if bytes.Some? then bytes.value else []
  }

  /** A marshalled command splits back into its command and its body at the first colon. */
  lemma CommandMarshalSplits(cmd: string, payload: Payload, encode: Encoder)
    requires ':' !in cmd
    ensures CommandMarshal(cmd, payload, encode).None? <==> encode(payload).None?
    ensures encode(payload).Some? ==>
      SplitN(CommandMarshal(cmd, payload, encode).value, ':', 2) == [cmd, encode(payload).value]
  {
    if encode(payload).Some? {
      SplitNFirstField(cmd, encode(payload).value, ':', 2);
    }
  }

  /** The reply that `chatHandler` broadcasts: status 0 around the decoded chat packet. */
  function ChatReply(data: string, encode: Encoder, decodeChat: string -> string): Frame {
    FrameOf(CommandMarshal("chat", Response(0, ChatPacket(decodeChat(data))), encode))
  }

  /** The reply to a `clientInfo` request. */
  function ClientInfoReply(status: int, encode: Encoder): Frame {
    FrameOf(CommandMarshal("clientInfo", Response(status, Nil), encode))
  }

  /** The frame a session's inbound pump synthesises when its stream ends. */
  function KillClientFrame(id: GoInt, encode: Encoder): Frame {
    FrameOf(CommandMarshal("killClient", KillClient(id), encode))
  }

  /** The roster sent to the backend when a match commits. */
  function RosterFrame(uids: seq<GoInt>, encode: Encoder): Frame {
    FrameOf(CommandMarshal("new", InitialGameInfo(uids, 0), encode))
  }

  // ---------------------------------------------------------------------------------------
  // Identity injection and stripping

  /** `appendClientInfo`: `command:data` becomes `command:<decimal id>:data`. */
  function AppendClientInfo(command: string, data: string, info: ClientInfo): Frame {
    command + ":" + Itoa(info.id) + ":" + data
  }

  /** A backend frame names a target: it has a third piece and its second piece parses as an int. */
  predicate Tagged(message: Frame) {
    var parts := SplitN(message, ':', 3);
    |parts| == 3 && Atoi(parts[1]).Some?
  }

  /**
    `filterClientInfo`: the target a backend frame names and the frame without the id piece;
    an untagged frame is for everyone and passes through byte for byte. The target it
    reports never carries a token.
   */
  function FilterClientInfo(message: Frame): (r: (ClientInfo, Frame))
    ensures !Tagged(message) ==> r == (BroadcastClient, message)
    ensures r.0.token == ""
  {
    var parts := SplitN(message, ':', 3);
    if |parts| <= 2 then (BroadcastClient, message)
    else match Atoi(parts[1])
      case None => (BroadcastClient, message)
      case Some(clientId) => (ClientInfo(clientId, ""), parts[0] + ":" + parts[2])
  }

  /** A frame built by appendClientInfo splits into the command, the decimal id and the data. */
  lemma AppendClientInfoFields(command: string, data: string, info: ClientInfo)
    requires ':' !in command
    ensures SplitN(AppendClientInfo(command, data, info), ':', 3) == [command, Itoa(info.id), data]
  {
    var id := Itoa(info.id);
    ItoaChars(info.id);
    assert ':' !in id;
    assert AppendClientInfo(command, data, info) == command + [':'] + (id + [':'] + data);
    SplitNFirstField(command, id + [':'] + data, ':', 3);
    SplitNFirstField(id, data, ':', 2);
  }

  /**
    Round trip: stripping the id that appendClientInfo injected gives back the id, with no
    token, and exactly `command:data`, whatever colons `data` contains.
   */
  lemma FilterAppendRoundTrip(command: string, data: string, info: ClientInfo)
    requires ':' !in command
    ensures FilterClientInfo(AppendClientInfo(command, data, info)) == (ClientInfo(info.id, ""), command + ":" + data)
  {
    AppendClientInfoFields(command, data, info);
    AtoiItoa(info.id);
  }

  /** A backend frame is altered by filterClientInfo exactly when it carries an id piece. */
  lemma FilterAltersExactlyTagged(message: Frame)
    ensures FilterClientInfo(message).1 == message <==> !Tagged(message)
  {
    var parts := SplitN(message, ':', 3);
    if Tagged(message) {
      SplitNJoin(message, ':', 3);
      assert Join(parts, ':') == parts[0] + [':'] + (parts[1] + [':'] + parts[2]);
      assert |parts[1]| > 0;
      assert |FilterClientInfo(message).1| < |message|;
    }
  }

  /**
    What the backend sees for a client frame that the proxy forwards: splitting the frame at
    its first colon and injecting the id gives a frame from which filterClientInfo recovers the
    sender's id and the original frame unchanged.
   */
  lemma ForwardedFrameRecoversMessage(message: Frame, info: ClientInfo)
    requires ':' in message
    ensures |SplitN(message, ':', 2)| == 2
    ensures var parts := SplitN(message, ':', 2);
      FilterClientInfo(AppendClientInfo(parts[0], parts[1], info)) == (ClientInfo(info.id, ""), message)
  {
    var parts := SplitN(message, ':', 2);
    SplitNJoin(message, ':', 2);
    assert message == parts[0] + ":" + parts[1];
    FilterAppendRoundTrip(parts[0], parts[1], info);
  }

  // ---------------------------------------------------------------------------------------
  // Fan-out of a backend frame to the slots of a match

  /**
    The frame that a slot with identity `info` receives from `broadcast`: the filtered frame when
    the target is everyone or equals the slot's whole identity (id and token), else the review
    sentinel.
   */
  function SlotFrame(message: Frame, info: ClientInfo): Frame {
    var (client, filtered) := FilterClientInfo(message);
    if client == BroadcastClient || client == info then filtered else ReviewCommand
  }

  /** The frames `broadcast` sends, one per slot, in slot order. */
  function BroadcastFrames(message: Frame, infos: seq<ClientInfo>): (frames: seq<Frame>)
    ensures |frames| == |infos|
  {
    seq(|infos|, i requires 0 <= i < |infos| => SlotFrame(message, infos[i]))
  }

  /** An untagged backend frame reaches every slot byte for byte. */
  lemma UntaggedFrameReachesEverySlot(message: Frame, infos: seq<ClientInfo>)
    requires !Tagged(message)
    ensures forall i :: 0 <= i < |infos| ==> BroadcastFrames(message, infos)[i] == message
  {
  }

  /**
    A frame the backend tags with `target` (as appendClientInfo writes it): the slot whose identity
    is exactly `{target.id, ""}` receives `command:data`, and so does every slot when the id is 0;
    every other slot receives the review sentinel.
   */
  lemma TaggedFrameDelivery(command: string, data: string, target: ClientInfo, info: ClientInfo)
    requires ':' !in command
    ensures SlotFrame(AppendClientInfo(command, data, target), info) ==
      if target.id == 0 || info == ClientInfo(target.id, "") then command + ":" + data else ReviewCommand
  {
    FilterAppendRoundTrip(command, data, target);
  }

  /**
    Because the comparison covers the token and a reported target never has one, a slot whose
    session identified with a non-empty token never receives a frame tagged with a non-zero id.
   */
  lemma TokenHolderMissesTaggedFrames(message: Frame, info: ClientInfo)
    requires FilterClientInfo(message).0.id != 0 && info.token != ""
    ensures SlotFrame(message, info) == ReviewCommand
  {
  }

  /** `cmd:hello` has only two pieces. */
  lemma HelloIsUntagged()
    ensures !Tagged("cmd:hello")
  {
    assert "cmd:hello" == "cmd" + [':'] + "hello";
    SplitNFirstField("cmd", "hello", ':', 3);
    SplitNNoSeparator("hello", ':', 2);
  }

  /**
    Two slots with ids `a` and `b` and no tokens: a frame the backend tags with `a` gives the
    stripped frame to the first slot and the review sentinel to the second.
   */
  lemma TargetedBroadcastToTwoSlots(command: string, data: string, a: GoInt, b: GoInt)
    requires ':' !in command && a != 0 && a != b
    ensures BroadcastFrames(AppendClientInfo(command, data, ClientInfo(a, "")), [ClientInfo(a, ""), ClientInfo(b, "")])
      == [command + ":" + data, ReviewCommand]
  {
    var message := AppendClientInfo(command, data, ClientInfo(a, ""));
    TaggedFrameDelivery(command, data, ClientInfo(a, ""), ClientInfo(a, ""));
    TaggedFrameDelivery(command, data, ClientInfo(a, ""), ClientInfo(b, ""));
    var frames := BroadcastFrames(message, [ClientInfo(a, ""), ClientInfo(b, "")]);
    assert frames[0] == command + ":" + data && frames[1] == ReviewCommand;
  }

  /** Slots with ids 7 and 9: `cmd:hello` has no numeric second piece and reaches both unchanged. */
  lemma UntaggedBroadcastToTwoSlots()
    ensures BroadcastFrames("cmd:hello", [ClientInfo(7, ""), ClientInfo(9, "")]) == ["cmd:hello", "cmd:hello"]
  {
    HelloIsUntagged();
    var frames := BroadcastFrames("cmd:hello", [ClientInfo(7, ""), ClientInfo(9, "")]);
    assert frames[0] == "cmd:hello" && frames[1] == "cmd:hello";
  }

  // ---------------------------------------------------------------------------------------
  // Command routing: a split at the first colon, then a lookup in the handler table

  datatype Routing<H> =
    | NoDelimiter
    | Unregistered(command: string, data: string)
    | Registered(handler: H, data: string)

  /** Where a frame goes: the command before the first colon, looked up in the handler table. */
  function RouteFrame<H>(message: Frame, table: map<string, H>): Routing<H> {
    var cmds := SplitN(message, ':', 2);
    if |cmds| < 2 then NoDelimiter
    else if cmds[0] in table then Registered(table[cmds[0]], cmds[1])
    else Unregistered(cmds[0], cmds[1])
  }

  /** A frame has no route exactly when it has no colon. */
  lemma NoDelimiterIffNoColon<H>(message: Frame, table: map<string, H>)
    ensures RouteFrame(message, table).NoDelimiter? <==> ':' !in message
  {
    SplitNJoin(message, ':', 2);
  }

  /** `command:data` goes to the handler registered for `command`, with `data` untouched. */
  lemma RouteCommand<H>(command: string, data: string, table: map<string, H>)
    requires ':' !in command
    ensures RouteFrame(command + ":" + data, table) ==
      if command in table then Registered(table[command], data) else Unregistered(command, data)
  {
    SplitNFirstField(command, data, ':', 2);
  }

  /**
    The disconnect frame a session synthesises is routed to the `killClient` handler when it can
    be encoded, and has no route (it is empty) when it cannot.
   */
  lemma KillClientFrameRoute<H>(id: GoInt, encode: Encoder, table: map<string, H>)
    requires "killClient" in table
    ensures encode(KillClient(id)).Some? ==>
      RouteFrame(KillClientFrame(id, encode), table) == Registered(table["killClient"], encode(KillClient(id)).value)
    ensures encode(KillClient(id)).None? ==> RouteFrame(KillClientFrame(id, encode), table) == NoDelimiter
  {
    if encode(KillClient(id)).Some? {
      RouteCommand("killClient", encode(KillClient(id)).value, table);
    }
  }
}
