/**
  The client session and the per-match multiplexer of proxy.go. A session (`ClientConnection`)
  holds its current frame handler, the handoff queue through which the matchmaking worker
  retargets it, its outbound queue and its identity. A `Proxy` holds the slot list of one match
  (a Go slice: a backing array and a length), the connection to the backend, and the table of
  commands it handles itself.
 */
module Proxy {
  import opened GoStrings
  import opened Protocol

  /** The commands a proxy handles locally instead of forwarding them. */
  datatype ProxyCommand = Chat

  /** `websocketHandler`: the hub, or the proxy of a committed match. */
  datatype Handler = GameHubHandler | ProxyHandler(proxy: Proxy)

  /** One outcome of `conn.Read()` on a client connection. */
  datatype ReadResult = Received(frame: Frame) | EndOfStream | UnexpectedEndOfStream | ReadFailure

  /** What one step of the inbound pump hands to a handler's `handleWebsocket`, if anything. */
  datatype Dispatch = NoDispatch | DispatchTo(handler: Handler, frame: Frame)

  /**
    What session `c` receives, in order, when `items[i]` is sent to the session in slot `i` for
    every slot in turn. A session that sits in several slots receives one item per slot.
   */
  function Deliveries<T>(slots: seq<ClientConnection?>, c: ClientConnection, items: seq<T>): seq<T>
    requires |items| == |slots|
  {
    if slots == [] then []
    else
      Deliveries(slots[..|slots| - 1], c, items[..|items| - 1])
      + (if slots[|slots| - 1] == c then [items[|items| - 1]] else [])
  }

  /** Sending to one more slot adds that slot's item for its own session only, after whatever came before. */
  lemma DeliveriesStep<T>(prefix: seq<T>, slots: seq<ClientConnection?>, c: ClientConnection, items: seq<T>, i: nat)
    requires |items| == |slots| && i < |slots|
    ensures prefix + Deliveries(slots[..i + 1], c, items[..i + 1])
      == prefix + Deliveries(slots[..i], c, items[..i]) + (if slots[i] == c then [items[i]] else [])
  {
    assert slots[..i + 1][..i] == slots[..i];
    assert items[..i + 1][..i] == items[..i];
  }

  /** A session in no slot receives nothing. */
  lemma {:induction false} DeliveriesToAbsent<T>(slots: seq<ClientConnection?>, c: ClientConnection, items: seq<T>)
    requires |items| == |slots| && c !in slots
    ensures Deliveries(slots, c, items) == []
  {
    if slots != [] {
      DeliveriesToAbsent(slots[..|slots| - 1], c, items[..|items| - 1]);
    }
  }

  /** A session in exactly one slot `k` receives exactly that slot's item. */
  lemma {:induction false} DeliveriesToSoleSlot<T>(slots: seq<ClientConnection?>, c: ClientConnection, items: seq<T>, k: nat)
    requires |items| == |slots| && k < |slots| && slots[k] == c
    requires forall j :: 0 <= j < |slots| && j != k ==> slots[j] != c
    ensures Deliveries(slots, c, items) == [items[k]]
  {
    var n := |slots| - 1;
    if k == n {
      DeliveriesToAbsent(slots[..n], c, items[..n]);
    } else {
      DeliveriesToSoleSlot(slots[..n], c, items[..n], k);
    }
  }

  /**
    The cells of `a` after the shift of `removeClientConnection` (`b`: cells `pos + 1 .. len` moved
    down by one) and the clearing of the last cell of the slice (`c`): the slice without `pos`,
    an empty cell, and the cells past the slice as they were.
   */
  lemma RemovalShape(a: seq<ClientConnection?>, b: seq<ClientConnection?>, c: seq<ClientConnection?>, pos: nat, len: nat)
    requires pos < len <= |a| && |b| == |a| && |c| == |a|
    requires forall m :: pos <= m < len - 1 ==> b[m] == a[m + 1]
    requires forall m :: 0 <= m < |a| && !(pos <= m < len - 1) ==> b[m] == a[m]
    requires forall m :: 0 <= m < |a| && m != len - 1 ==> c[m] == b[m]
    requires c[len - 1] == null
    ensures c == a[..pos] + a[pos + 1..len] + [null] + a[len..]
    ensures c[..len - 1] == a[..len][..pos] + a[..len][pos + 1..]
  {
    var r := a[..pos] + a[pos + 1..len] + [null] + a[len..];
    assert |r| == |c|;
    forall m | 0 <= m < |c|
      ensures c[m] == r[m]
    {
      if m < pos {
        assert r[m] == a[m];
      } else if m < len - 1 {
        assert r[m] == a[m + 1];
      } else if m == len - 1 {
        assert r[m] == null;
      } else {
        assert r[m] == a[m];
      }
    }
    assert a[..len][..pos] + a[..len][pos + 1..] == a[..pos] + a[pos + 1..len];
  }

  /** The identities of the sessions in `slots`, in slot order. */
  ghost function InfosOf(slots: seq<ClientConnection?>): (infos: seq<ClientInfo>)
    requires forall i :: 0 <= i < |slots| ==> slots[i] != null
    reads (set i | 0 <= i < |slots| :: slots[i])`info
    ensures |infos| == |slots|
    ensures forall i :: 0 <= i < |slots| ==> infos[i] == slots[i].info
  {
    if slots == [] then [] else InfosOf(slots[..|slots| - 1]) + [slots[|slots| - 1].info]
  }

  /** The user ids of the sessions in `slots`, in slot order. */
  ghost function IdsOf(slots: seq<ClientConnection?>): (ids: seq<GoInt>)
    requires forall i :: 0 <= i < |slots| ==> slots[i] != null
    reads (set i | 0 <= i < |slots| :: slots[i])`info
    ensures |ids| == |slots|
    ensures forall i :: 0 <= i < |slots| ==> ids[i] == slots[i].info.id
  {
    var infos := InfosOf(slots);
    seq(|infos|, i requires 0 <= i < |infos| => infos[i].id)
  }

  /** `clientConnection`: one connected client. */
  class ClientConnection {
    var currentHandler: Handler
    /** The buffered `handlers` channel: handlers waiting to replace `currentHandler`. */
    var handlers: seq<Handler>
    /** The `toClient` channel: every frame queued for the client, in order. */
    var toClient: seq<Frame>
    var info: ClientInfo

    /** The session `handleConnections` creates: owned by the hub, nothing pending, no identity yet. */
    constructor ()
      ensures currentHandler == GameHubHandler && handlers == [] && toClient == []
      ensures info == ClientInfo(0, "")
    {
      currentHandler := GameHubHandler;
      handlers := [];
      toClient := [];
      info := ClientInfo(0, "");
    }

    /**
      One iteration of `wsReadPump`. A received frame first lets at most one pending handler take
      over, then goes to the current handler. At the end of the stream a `killClient` frame with
      the session's own id goes to the current handler as it is, without looking at the handoff,
      and the pump stops. Any other read error dispatches nothing and stops the pump.
     */
    method ReadPumpStep(result: ReadResult, encode: Encoder) returns (d: Dispatch, stop: bool)
      modifies this`currentHandler, this`handlers
      ensures result.Received? ==>
        && !stop
        && (old(handlers) == [] ==> currentHandler == old(currentHandler) && handlers == [])
        && (old(handlers) != [] ==> currentHandler == old(handlers[0]) && handlers == old(handlers[1..]))
        && d == DispatchTo(currentHandler, result.frame)
      ensures (result.EndOfStream? || result.UnexpectedEndOfStream?) ==>
        && stop
        && currentHandler == old(currentHandler) && handlers == old(handlers)
        && d == DispatchTo(currentHandler, KillClientFrame(info.id, encode))
      ensures result.ReadFailure? ==>
        stop && currentHandler == old(currentHandler) && handlers == old(handlers) && d == NoDispatch
    {
      match result
      case Received(msg) =>
        if handlers != [] {
          currentHandler := handlers[0];
          handlers := handlers[1..];
        }
        d, stop := DispatchTo(currentHandler, msg), false;
      case EndOfStream =>
        d, stop := DispatchTo(currentHandler, KillClientFrame(info.id, encode)), true;
      case UnexpectedEndOfStream =>
        d, stop := DispatchTo(currentHandler, KillClientFrame(info.id, encode)), true;
      case ReadFailure =>
        d, stop := NoDispatch, true;
    }
  }

  /** `proxy`: the multiplexer of one match. */
  class Proxy {
    /** The array under the `proxyConns` slice; `length` is the slice's current length. */
    const conns: array<ClientConnection?>
    var length: nat
    const localHandlers: map<string, ProxyCommand>
    /** Whether `server` has been set, and every frame written to the backend connection. */
    var connected: bool
    var toServer: seq<Frame>

    ghost predicate Valid()
      reads this`length
    {
      length <= conns.Length && localHandlers == map["chat" := Chat]
    }

    /** The slot list: the contents of the `proxyConns` slice. */
    ghost function Slots(): seq<ClientConnection?>
      requires Valid()
      reads this`length, conns
    {
      conns[..length]
    }

    /** Every slot holds a session, as in a committed match. */
    ghost predicate Filled()
      requires Valid()
      reads this`length, conns
    {
      forall i :: 0 <= i < length ==> conns[i] != null
    }

    ghost function SlotClients(): set<ClientConnection>
      requires Valid()
      reads this`length, conns
    {
      set i | 0 <= i < length && conns[i] != null :: conns[i]
    }

    /** The user ids of the slotted sessions, in slot order. */
    ghost function SlotIds(): (ids: seq<GoInt>)
      requires Valid() && Filled()
      reads this`length, conns, SlotClients()`info
      ensures |ids| == length
      ensures forall i :: 0 <= i < length ==> ids[i] == conns[i].info.id
    {
      IdsOf(Slots())
    }

    /** `newProxy(numPlayers)`: `numPlayers` empty slots and the `chat` command registered. */
    constructor (numPlayers: nat)
      ensures Valid() && fresh(conns)
      ensures conns.Length == numPlayers && length == numPlayers
      ensures forall i :: 0 <= i < numPlayers ==> conns[i] == null
      ensures !connected && toServer == []
    {
      conns := new ClientConnection?[numPlayers](_ => null);
      length := numPlayers;
      // the chat command is the only local handler
      localHandlers := map[][ "chat" := Chat];
      connected := false;
      toServer := [];
    }

    /** `slotClientConnection`: writes slot `slot`, which Go's bounds check requires to be inside the slice. */
    method SlotClientConnection(slot: int, cconn: ClientConnection)
      requires Valid() && 0 <= slot < length
      modifies conns
      ensures conns[..] == old(conns[..])[slot := cconn]
    {
      conns[slot] := cconn;
    }

    /**
      `removeClientConnection(pos)`: shifts the slots after `pos` down by one in the backing
      array, clears the cell that falls off the end, and shortens the slice by one.
     */
    method RemoveClientConnection(pos: int)
      requires Valid() && 0 <= pos < length
      modifies this`length, conns
      ensures Valid()
      ensures length == old(length) - 1
      ensures Slots() == old(Slots()[..pos] + Slots()[pos + 1..])
      ensures conns[..] == old(conns[..pos] + conns[pos + 1..length]) + [null] + old(conns[length..])
    {
      ghost var before := conns[..];
      var j := pos + 1;
      // shift the cells after pos down by one
      forall k | pos <= k < length - 1 {
        conns[k] := conns[k + 1];
      }
      ghost var shifted := conns[..];
      var k, n := length - j + pos, length;
      while k < n
        invariant n == length == old(length) && length - 1 <= k <= n
        invariant forall m :: 0 <= m < conns.Length && !(length - 1 <= m < k) ==> conns[m] == shifted[m]
        invariant forall m :: length - 1 <= m < k ==> conns[m] == null
      {
        conns[k] := null;
        k := k + 1;
      }
      RemovalShape(before, shifted, conns[..], pos, length);
      length := length - j + pos;
    }

    /**
      `broadcast`: one frame to every slot, in slot order; the filtered frame to a slot when the
      frame is for everyone or its target equals that slot's identity, the review sentinel otherwise.
     */
    method Broadcast(message: Frame)
      requires Valid() && Filled()
      modifies SlotClients()`toClient
      ensures forall c :: c in old(SlotClients()) ==>
        c.toClient == old(c.toClient) + Deliveries(Slots(), c, old(BroadcastFrames(message, InfosOf(Slots()))))
    {
      var (client, filteredMsg) := FilterClientInfo(message);
      ghost var slots := Slots();
      ghost var frames := BroadcastFrames(message, InfosOf(slots));
      ghost var clients := SlotClients();
      for i := 0 to length
        invariant forall c :: c in clients ==>
          c.toClient == old(c.toClient) + Deliveries(slots[..i], c, frames[..i])
      {
        var c := conns[i];
        var f := if client == BroadcastClient || client == c.info then filteredMsg else ReviewCommand;
        assert c in clients;
        assert f == frames[i];
        c.toClient := c.toClient + [f];
        forall d | d in clients
          ensures d.toClient == old(d.toClient) + Deliveries(slots[..i + 1], d, frames[..i + 1])
        {
          DeliveriesStep(old(d.toClient), slots, d, frames, i);
        }
      }
      assert slots[..length] == slots && frames[..length] == frames;
    }

    /** `chatHandler`: the decoded chat message, wrapped with status 0, goes to every slot; a decode error is ignored. */
    method ChatHandler(data: string, encode: Encoder, decodeChat: string -> string)
      requires Valid() && Filled()
      modifies SlotClients()`toClient
      ensures forall c :: c in old(SlotClients()) ==>
        c.toClient == old(c.toClient)
          + Deliveries(Slots(), c, old(BroadcastFrames(ChatReply(data, encode, decodeChat), InfosOf(Slots()))))
    {
      Broadcast(ChatReply(data, encode, decodeChat));
    }

    /**
      `proxy.handleWebsocket`: a frame from a slotted client. A command in the local table runs
      locally and nothing goes to the backend; any other frame is written to the backend once,
      with the sender's id injected. The frame must hold a colon (Go indexes the second piece).
     */
    method HandleWebsocket(message: Frame, cconn: ClientConnection, encode: Encoder, decodeChat: string -> string)
      requires Valid() && Filled() && connected && ':' in message
      modifies this`toServer, SlotClients()`toClient
      ensures RouteFrame(message, localHandlers).Registered? ==>
        && toServer == old(toServer)
        && forall c :: c in old(SlotClients()) ==>
          c.toClient == old(c.toClient)
            + Deliveries(Slots(), c,
                old(BroadcastFrames(ChatReply(RouteFrame(message, localHandlers).data, encode, decodeChat), InfosOf(Slots()))))
      ensures RouteFrame(message, localHandlers).Unregistered? ==>
        && toServer == old(toServer) + [AppendClientInfo(RouteFrame(message, localHandlers).command,
                                                         RouteFrame(message, localHandlers).data, old(cconn.info))]
        && forall c :: c in old(SlotClients()) ==> c.toClient == old(c.toClient)
    {
      NoDelimiterIffNoColon(message, localHandlers);
      var splitMsg := SplitN(message, ':', 2);
      var command := splitMsg[0];
      var data := splitMsg[1];
      if command in localHandlers {
        match localHandlers[command]
        case Chat => ChatHandler(data, encode, decodeChat);
      } else {
        toServer := toServer + [AppendClientInfo(command, data, cconn.info)];
      }
    }

    /** The uids of `sendInitialGameInfo`: one per slot, in slot order. */
    method InitialGameUids() returns (uids: seq<GoInt>)
      requires Valid() && Filled()
      ensures |uids| == length
      ensures forall i :: 0 <= i < length ==> uids[i] == conns[i].info.id
    {
      var a := new GoInt[length];
      for i := 0 to length
        invariant forall j :: 0 <= j < i ==> a[j] == conns[j].info.id
      {
        a[i] := conns[i].info.id;
      }
      uids := a[..];
    }

    /** `sendInitialGameInfo`: the one roster frame, `new` with the slot ids in slot order and debug 0. */
    method SendInitialGameInfo(encode: Encoder)
      requires Valid() && Filled() && connected
      modifies this`toServer
      ensures toServer == old(toServer) + [RosterFrame(SlotIds(), encode)]
    {
      var uids := InitialGameUids();
      assert uids == SlotIds();
      toServer := toServer + [RosterFrame(uids, encode)];
    }
  }
}
