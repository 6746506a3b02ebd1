/**
  The hub of gamehub.go: the command table every new session starts on, the identity exchange,
  the queue of match requests, and the matchmaking worker with its forming registry
  (`uncommittedGames`, one forming game per size) and the committed games.
 */
module GameHub {
  import opened GoStrings
  import opened Protocol
  import opened Proxy
  import opened Matchmaking

  /** The commands of the hub's table. */
  datatype HubCommand = ClientInfoCommand | NewGameCommand | KillClientCommand

  /** The table once `setupGamehub` and `hookupLobbyHandlers` have run. */
  const HubCommands: map<string, HubCommand> :=
    map["clientInfo" := ClientInfoCommand, "newGame" := NewGameCommand, "killClient" := KillClientCommand]

  /** `newGame`: a request for a match of `numPlayers` players from session `cconn`. */
  datatype NewGame = NewGame(numPlayers: GoInt, cconn: ClientConnection)

  /**
    What the hub calls but this model does not look into: JSON encoding, the JSON decoders of
    the `clientInfo` payload (its `Token`) and of the `newGame` payload (its `NumPlayers`), and
    `getClientIdFromToken`. `None` stands for an error.
   */
  datatype Externals = Externals(
    encode: Encoder,
    decodeToken: string -> Option<string>,
    decodeNumPlayers: string -> Option<GoInt>,
    lookup: string -> Option<GoInt>)

  /** The handler every slot session is handed when its match commits. */
  function Handoffs(p: Proxy, n: nat): (hs: seq<Handler>)
    ensures |hs| == n && forall i :: 0 <= i < n ==> hs[i] == ProxyHandler(p)
  {
    seq(n, _ => ProxyHandler(p))
  }

  /**
    What session `x` is handed by one step of the request worker: the committed game's proxy once
    per slot of that game it holds, and nothing when no game was committed.
   */
  function HandedOff(committed: Option<View>, x: ClientConnection): seq<Handler> {
    if committed.None? then []
    else Deliveries(committed.value.slots, x, Handoffs(committed.value.game.proxy, |committed.value.slots|))
  }

  /** Every session in `watched` has exactly `HandedOff(committed, x)` appended to its handoff queue. */
  twostate predicate HandedOffTo(watched: set<ClientConnection>, new committed: Option<View>)
    reads watched
  {
    forall x: ClientConnection :: x in watched ==> x.handlers == old(x.handlers) + HandedOff(committed, x)
  }

  /** A session in none of the taken slots of `v` and other than the newcomer `c` is handed nothing when `Joined` commits. */
  lemma HandOffOutside(v: View, c: ClientConnection, cid: GoInt, x: ClientConnection)
    requires FormingShape(v) && 0 <= v.game.currentPlayers < |v.slots| && x != c
    requires forall i :: 0 <= i < v.game.currentPlayers ==> v.slots[i] != x
    ensures HandedOff(Some(Joined(v, c, cid)), x) == []
  {
    var w := Joined(v, c, cid);
    assert x !in w.slots by {
      forall i | 0 <= i < |w.slots|
        ensures w.slots[i] != x
      {
        if i != v.game.currentPlayers {
          assert w.slots[i] == v.slots[i];
        }
      }
    }
    DeliveriesToAbsent(w.slots, x, Handoffs(w.game.proxy, |w.slots|));
  }

  /**
    A game in `uncommittedGames` under key `n`: its size is `n`, its proxy has `n` cells and is
    not yet connected, and the first `currentPlayers` slots are exactly the taken ones.
   */
  ghost predicate FormingGame(n: int, g: Game)
    reads g.proxy, g.proxy.conns
  {
    && g.numPlayers == n
    && g.proxy.Valid() && g.proxy.conns.Length == g.numPlayers
    && !g.proxy.connected && g.proxy.toServer == []
    && 0 <= g.currentPlayers <= g.proxy.length
    && g.currentPlayers < g.numPlayers
    && TakenFirst(g.proxy.Slots(), g.currentPlayers)
  }

  /** Exactly the first `cur` slots hold a session. */
  ghost predicate TakenFirst(slots: seq<ClientConnection?>, cur: int) {
    forall i :: 0 <= i < |slots| ==> (slots[i] != null <==> i < cur)
  }

  ghost function TakenClients(g: Game): set<ClientConnection>
    reads g.proxy.conns
  {
    set i | 0 <= i < g.currentPlayers && i < g.proxy.conns.Length && g.proxy.conns[i] != null :: g.proxy.conns[i] as ClientConnection
  }

  /** A forming game read off the heap. */
  ghost function ViewOf(g: Game): (v: View)
    requires FormingGame(g.numPlayers, g)
    reads g.proxy, g.proxy.conns, TakenClients(g)`info
    ensures v.game == g && FormingShape(v)
  {
    var slots := g.proxy.Slots();
    assert forall i :: 0 <= i < g.currentPlayers ==> slots[..g.currentPlayers][i] == g.proxy.conns[i];
    View(g, slots, IdsOf(slots[..g.currentPlayers]))
  }

  /**
    `channelInHandler` (declared in game.go): every slot session of the committed game is handed
    the game's proxy, in slot order.
   */
  method ChannelInHandler(game: Game)
    requires game.proxy.Valid() && game.proxy.Filled()
    modifies game.proxy.SlotClients()`handlers
    ensures forall c :: c in old(game.proxy.SlotClients()) ==>
      c.handlers == old(c.handlers) + Deliveries(game.proxy.Slots(), c, Handoffs(game.proxy, game.proxy.length))
  {
    var p := game.proxy;
    ghost var slots := p.Slots();
    ghost var hs := Handoffs(p, p.length);
    ghost var clients := p.SlotClients();
    for i := 0 to p.length
      invariant forall c :: c in clients ==>
        c.handlers == old(c.handlers) + Deliveries(slots[..i], c, hs[..i])
    {
      var c := p.conns[i];
      assert c in clients;
      c.handlers := c.handlers + [ProxyHandler(p)];
      forall d | d in clients
        ensures d.handlers == old(d.handlers) + Deliveries(slots[..i + 1], d, hs[..i + 1])
      {
        DeliveriesStep(old(d.handlers), slots, d, hs, i);
      }
    }
    assert slots[..p.length] == slots && hs[..p.length] == hs;
  }

  /**
    The part of `commitGame` after the backend connected: the proxy is marked connected, every
    slot session is handed the proxy, and the roster of the slot ids goes to the backend.
   */
  method ConnectGame(game: Game, encode: Encoder)
    requires game.proxy.Valid() && game.proxy.Filled() && !game.proxy.connected && game.proxy.toServer == []
    modifies game.proxy`connected, game.proxy`toServer, game.proxy.SlotClients()`handlers
    ensures game.proxy.connected && game.proxy.toServer == [RosterFrame(old(game.proxy.SlotIds()), encode)]
    ensures forall c :: c in old(game.proxy.SlotClients()) ==>
      c.handlers == old(c.handlers) + Deliveries(game.proxy.Slots(), c, Handoffs(game.proxy, game.proxy.length))
  {
    label before:
    game.proxy.connected := true;
    ChannelInHandler(game);
    game.proxy.SendInitialGameInfo(encode);
    SlotIdsSame@before(game.proxy);
  }

  /** A proxy whose length, slot array and slot sessions' identities are untouched has the same slot ids. */
  twostate lemma SlotIdsSame(p: Proxy)
    requires old(p.Valid() && p.Filled())
    requires unchanged(p`length, p.conns) && unchanged(old(p.SlotClients())`info)
    ensures p.Valid() && p.Filled() && p.SlotIds() == old(p.SlotIds())
  {
  }

  /**
    What `handleClientInfo` does with the payload `message` of session `cconn`: nothing when the
    payload does not decode; a `clientInfo` reply with status -1 when the lookup fails; otherwise
    the identity becomes the looked-up id with the decoded token and the reply has status 0.
   */
  twostate predicate ClientInfoHandled(message: string, cconn: ClientConnection, ext: Externals)
    reads cconn
  {
    match ext.decodeToken(message)
    case None => cconn.info == old(cconn.info) && cconn.toClient == old(cconn.toClient)
    case Some(token) =>
      match ext.lookup(token)
      case None =>
        cconn.info == old(cconn.info) && cconn.toClient == old(cconn.toClient) + [ClientInfoReply(-1, ext.encode)]
      case Some(userid) =>
        cconn.info == ClientInfo(userid, token) && cconn.toClient == old(cconn.toClient) + [ClientInfoReply(0, ext.encode)]
  }

  /** `i` is the first position of `id` in `ids`. */
  lemma FirstIndex(ids: seq<GoInt>, id: GoInt, i: nat)
    requires i < |ids| && ids[i] == id && id !in ids[..i]
    ensures IndexOf(ids, id) == Some(i)
  {
  }

  /** Removing a taken slot keeps the taken slots first. */
  lemma SlotsAfterRemoval(slots: seq<ClientConnection?>, rest: seq<ClientConnection?>, cur: nat, i: nat)
    requires i < cur <= |slots| && rest == slots[..i] + slots[i + 1..]
    requires TakenFirst(slots, cur)
    ensures TakenFirst(rest, cur - 1)
  {
    forall j | 0 <= j < |rest|
      ensures rest[j] != null <==> j < cur - 1
    {
      if j < i {
        assert rest[j] == slots[j];
      } else {
        assert rest[j] == slots[j + 1];
      }
    }
  }

  /**
    The player in slot `i` leaves a forming game (the body of the match in `handleDisconnection`):
    the proxy drops the slot and the count goes down by one.
   */
  method LeaveGame(game: Game, i: nat, ghost id: GoInt, ghost v: View) returns (left: Game)
    requires FormingGame(game.numPlayers, game) && v == ViewOf(game) && IndexOf(v.ids, id) == Some(i)
    modifies game.proxy`length, game.proxy.conns
    ensures left == game.(currentPlayers := game.currentPlayers - 1)
    ensures (left.currentPlayers > 0) == DisconnectView(v, id).Some?
    ensures left.currentPlayers > 0 ==> FormingGame(left.numPlayers, left) && ViewOf(left) == DisconnectView(v, id).value
  {
    assert DisconnectView(v, id) == if v.game.currentPlayers == 1 then None else Some(RemoveAt(v, i));
    var cur := game.currentPlayers;
    assert forall k :: 0 <= k < cur ==> v.ids[k] == v.slots[k].info.id;
    game.proxy.RemoveClientConnection(i);
    left := game.(currentPlayers := cur - 1);
    if left.currentPlayers > 0 {
      ViewAfterLeave(left, i, v);
    }
  }

  /**
    A proxy whose slot list is that of the forming game `v` without slot `i`, with the same
    sessions and ids, is the proxy of the forming game `RemoveAt(v, i)`.
   */
  lemma ViewAfterLeave(left: Game, i: nat, v: View)
    requires FormingShape(v) && left == v.game.(currentPlayers := v.game.currentPlayers - 1)
    requires i < v.game.currentPlayers && v.game.currentPlayers > 1
    requires left.proxy.Valid() && left.proxy.conns.Length == left.numPlayers
    requires !left.proxy.connected && left.proxy.toServer == []
    requires left.proxy.Slots() == v.slots[..i] + v.slots[i + 1..]
    requires forall k :: 0 <= k < v.game.currentPlayers ==> v.ids[k] == v.slots[k].info.id
    ensures FormingGame(left.numPlayers, left) && ViewOf(left) == RemoveAt(v, i)
  {
    var cur := v.game.currentPlayers;
    var rest := left.proxy.Slots();
    SlotsAfterRemoval(v.slots, rest, cur, i);
    var w := ViewOf(left);
    forall j | 0 <= j < cur - 1
      ensures w.ids[j] == v.ids[if j < i then j else j + 1]
    {
      AfterCut(v.slots, i, j);
    }
    CutOf(v.ids, w.ids, i);
  }

  /** Position `j` of `s` with position `i` cut out. */
  lemma AfterCut<T>(s: seq<T>, i: nat, j: nat)
    requires i < |s| && j < |s| - 1
    ensures (s[..i] + s[i + 1..])[j] == s[if j < i then j else j + 1]
  {
  }

  /** A sequence one shorter than `s` that holds, position by position, `s` without position `i`. */
  lemma CutOf<T>(s: seq<T>, t: seq<T>, i: nat)
    requires i < |s| && |t| == |s| - 1
    requires forall j :: 0 <= j < |t| ==> t[j] == s[if j < i then j else j + 1]
    ensures t == s[..i] + s[i + 1..]
  {
  }

  /**
    The request worker slots session `c` into the forming game `game` (the `slotClientConnection`
    at index `currentPlayers`, then the count up by one). The game stays forming unless the count
    reaches its size, in which case every slot of the proxy is taken.
   */
  method JoinGame(game: Game, c: ClientConnection, ghost v: View) returns (joined: Game)
    requires FormingGame(game.numPlayers, game) && v == ViewOf(game) && game.currentPlayers < game.proxy.length
    modifies game.proxy.conns
    ensures joined == Joined(v, c, c.info.id).game
    ensures game.proxy.Valid() && game.proxy.Slots() == Joined(v, c, c.info.id).slots
    ensures game.proxy.SlotClients() == old(TakenClients(game)) + {c}
    ensures forall x: ClientConnection :: x in old(TakenClients(game)) + {c} ==> x.handlers == old(x.handlers)
    ensures joined.currentPlayers < joined.numPlayers ==>
      FormingGame(joined.numPlayers, joined) && ViewOf(joined) == Joined(v, c, c.info.id)
    ensures joined.currentPlayers == joined.numPlayers ==>
      && game.proxy.Filled() && game.proxy.length == joined.numPlayers
      && game.proxy.SlotIds() == Joined(v, c, c.info.id).ids
  {
    var cur := game.currentPlayers;
    ghost var taken := TakenClients(game);
    ghost var before := game.proxy.conns[..];
    TakenBefore(game, v);
    game.proxy.SlotClientConnection(cur, c);
    joined := game.(currentPlayers := cur + 1);
    ViewAfterJoin(joined, v, c);
    SlotClientsAfterJoin(game.proxy, before, taken, cur, c);
  }

  /** The taken slots of a forming game, read off its slot array before a session joins. */
  lemma TakenBefore(game: Game, v: View)
    requires FormingGame(game.numPlayers, game) && v == ViewOf(game)
    ensures forall k :: 0 <= k < game.currentPlayers ==> v.ids[k] == v.slots[k].info.id
    ensures forall k :: 0 <= k < game.currentPlayers ==> game.proxy.conns[..][k] in TakenClients(game)
    ensures forall x :: x in TakenClients(game) ==>
      exists k :: 0 <= k < game.currentPlayers && game.proxy.conns[..][k] == x
    ensures TakenFirst(game.proxy.conns[..][..game.proxy.length], game.currentPlayers)
  {
    assert game.proxy.conns[..][..game.proxy.length] == game.proxy.Slots();
    forall x | x in TakenClients(game)
      ensures exists k :: 0 <= k < game.currentPlayers && game.proxy.conns[..][k] == x
    {
      var k :| 0 <= k < game.currentPlayers && k < game.proxy.conns.Length && game.proxy.conns[k] == x;
      assert game.proxy.conns[..][k] == x;
    }
  }

  /**
    Writing session `c` into the first free slot `cur` of a proxy whose first `cur` slots hold
    exactly the sessions `taken` leaves `taken` plus `c` as the slotted sessions.
   */
  lemma SlotClientsAfterJoin(p: Proxy, before: seq<ClientConnection?>, taken: set<ClientConnection>, cur: int, c: ClientConnection)
    requires p.Valid() && 0 <= cur < p.length && |before| == p.conns.Length
    requires p.conns[..] == before[cur := c]
    requires p.length <= |before| && TakenFirst(before[..p.length], cur)
    requires forall k :: 0 <= k < cur ==> before[k] in taken
    requires forall x :: x in taken ==> exists k :: 0 <= k < cur && before[k] == x
    ensures p.SlotClients() == taken + {c}
  {
    forall x | x in p.SlotClients()
      ensures x in taken || x == c
    {
      var k :| 0 <= k < p.length && p.conns[k] == x;
      assert p.conns[..][k] == x && before[..p.length][k] == before[k];
    }
    forall x | x in taken + {c}
      ensures x in p.SlotClients()
    {
      var k := if x == c then cur else var k' :| 0 <= k' < cur && before[k'] == x; k';
      assert p.conns[..][k] == x;
    }
  }

  /**
    A proxy whose slot list is that of the forming game `v` with session `c` in slot
    `currentPlayers` is the proxy of `Joined(v, c, ..)`: forming while the count is below the
    size, and filled once it reaches it.
   */
  lemma ViewAfterJoin(joined: Game, v: View, c: ClientConnection)
    requires FormingShape(v) && 0 <= v.game.currentPlayers < |v.slots|
    requires joined == Joined(v, c, c.info.id).game
    requires joined.proxy.Valid() && joined.proxy.conns.Length == joined.numPlayers && joined.proxy.length == |v.slots|
    requires !joined.proxy.connected && joined.proxy.toServer == []
    requires joined.proxy.Slots() == Joined(v, c, c.info.id).slots
    requires forall k :: 0 <= k < v.game.currentPlayers ==> v.ids[k] == v.slots[k].info.id
    ensures joined.currentPlayers < joined.numPlayers ==>
      FormingGame(joined.numPlayers, joined) && ViewOf(joined) == Joined(v, c, c.info.id)
    ensures joined.currentPlayers == joined.numPlayers ==>
      && joined.proxy.Filled() && joined.proxy.length == joined.numPlayers
      && joined.proxy.SlotIds() == Joined(v, c, c.info.id).ids
  {
    var cur := v.game.currentPlayers;
    var w := Joined(v, c, c.info.id);
    assert TakenFirst(w.slots, cur + 1) by {
      forall j | 0 <= j < |w.slots|
        ensures w.slots[j] != null <==> j < cur + 1
      {
        if j != cur {
          assert w.slots[j] == v.slots[j];
        }
      }
    }
    assert forall j :: 0 <= j < cur + 1 ==> w.slots[j].info.id == w.ids[j];
    if joined.currentPlayers < joined.numPlayers {
      var u := ViewOf(joined);
      assert u.ids == w.ids;
    } else {
      assert joined.proxy.SlotIds() == w.ids;
    }
  }

  /** A game over a fresh proxy with no taken slot is the forming game `makeGame` promises. */
  lemma FreshViewOf(g: Game)
    requires g.numPlayers > 0 && g.currentPlayers == 0
    requires g.proxy.Valid() && g.proxy.length == g.numPlayers && g.proxy.conns.Length == g.numPlayers
    requires g.proxy.conns[..] == EmptySlots(g.numPlayers)
    requires !g.proxy.connected && g.proxy.toServer == []
    ensures FormingGame(g.numPlayers, g) && ViewOf(g) == FreshView(g.numPlayers, g.proxy)
  {
    assert g.proxy.Slots() == g.proxy.conns[..];
  }

  /** The proxy and the slot array of the forming game under `np`: what one visit to that game may change. */
  ghost function GameFrame(hub: GameHub, np: int): set<object>
    reads hub`uncommittedGames
  {
    if np in hub.uncommittedGames then {hub.uncommittedGames[np].proxy, hub.uncommittedGames[np].proxy.conns} else {}
  }

  /** A set that is not empty has an element. */
  lemma NonEmpty(keys: set<int>)
    requires keys != {}
    ensures exists k :: k in keys
  {
    if forall k :: k !in keys {
      NoElement(keys);
      assert false;
    }
  }

  /** A set without elements is empty. */
  lemma NoElement(keys: set<int>)
    requires forall k :: k !in keys
    ensures keys == {}
  {
    var none: set<int> := {};
    assert forall k :: k in keys <==> k in none;
  }

  /** A forming game whose proxy, slot array and taken sessions are untouched has the same view. */
  twostate lemma ViewUnchanged(g: Game)
    requires old(FormingGame(g.numPlayers, g))
    requires unchanged(g.proxy, g.proxy.conns) && unchanged(old(TakenClients(g))`info)
    ensures FormingGame(g.numPlayers, g) && ViewOf(g) == old(ViewOf(g))
  {
  }

  /** `game_hub`. */
  class GameHub {
    /** The `gameRequests` channel: requests the worker has not taken yet, oldest first. */
    var gameRequests: seq<NewGame>
    var uncommittedGames: map<int, Game>
    /** The `committedGames` list, in commit order. */
    var committedGames: seq<Game>
    const localHandlers: map<string, HubCommand>

    /** The proxies of the forming games and their slot arrays. */
    ghost function FormingFrame(): set<object>
      reads this`uncommittedGames
    {
      (set n | n in uncommittedGames :: uncommittedGames[n].proxy as object)
      + (set n | n in uncommittedGames :: uncommittedGames[n].proxy.conns as object)
    }

    /** The sessions in the taken slots of the forming games. */
    ghost function FormingClients(): set<ClientConnection>
      reads this`uncommittedGames, FormingFrame()
    {
      set n, i | n in uncommittedGames && 0 <= i < uncommittedGames[n].currentPlayers
                 && i < uncommittedGames[n].proxy.conns.Length && uncommittedGames[n].proxy.conns[i] != null
        :: uncommittedGames[n].proxy.conns[i] as ClientConnection
    }

    /**
      The hub's invariant: the full command table, every forming game well formed under its own
      size, and no forming game sharing its proxy or its slot array with another forming game or
      with a committed one.
     */
    ghost predicate Valid()
      reads this`uncommittedGames, this`committedGames, FormingFrame()
    {
      && localHandlers == HubCommands
      && (forall n :: n in uncommittedGames ==> FormingGame(n, uncommittedGames[n]))
      && Separate()
    }

    /**
      No forming game shares its proxy or its slot array with another forming game or with a
      committed game. Committed games are not compared with each other: nothing the hub does
      after a commit reads them.
     */
    ghost predicate Separate()
      reads this`uncommittedGames, this`committedGames
    {
      && (forall n, m :: n in uncommittedGames && m in uncommittedGames && n != m ==>
            uncommittedGames[n].proxy != uncommittedGames[m].proxy
            && uncommittedGames[n].proxy.conns != uncommittedGames[m].proxy.conns)
      && (forall n, j :: n in uncommittedGames && 0 <= j < |committedGames| ==>
            uncommittedGames[n].proxy != committedGames[j].proxy
            && uncommittedGames[n].proxy.conns != committedGames[j].proxy.conns)
    }

    /**
      The hub's invariant with the forming game under `np` exempt: what holds while that game is
      being changed.
     */
    ghost predicate ValidExcept(np: int)
      reads this`uncommittedGames, this`committedGames, FormingFrame()
    {
      && localHandlers == HubCommands
      && (forall n :: n in uncommittedGames && n != np ==> FormingGame(n, uncommittedGames[n]))
      && Separate()
    }

    /** The forming registry as the pure matchmaking rules see it. */
    ghost function Forming(): (forming: map<int, View>)
      requires Valid()
      reads this`uncommittedGames, this`committedGames, FormingFrame(), FormingClients()`info
      ensures Registry(forming)
      ensures forming.Keys == uncommittedGames.Keys
      ensures forall n :: n in forming ==> forming[n].game == uncommittedGames[n]
    {
      map n | n in uncommittedGames :: ViewOf(uncommittedGames[n])
    }

    /** A hub none of whose forming state changed is still valid, with the same registry. */
    twostate lemma FormingSame()
      requires old(Valid()) && unchanged(this`uncommittedGames, this`committedGames) && unchanged(old(FormingFrame())) && unchanged(old(FormingClients())`info)
      ensures Valid() && Forming() == old(Forming())
    {
    }

    /** Changing only the proxy and the slot array of the game under `np` keeps the rest valid. */
    twostate lemma ExceptSurvives(np: int)
      requires old(Valid()) && np in old(uncommittedGames)
      requires unchanged(this`uncommittedGames, this`committedGames)
      requires unchanged(old(FormingFrame() - GameFrame(this, np)))
      ensures ValidExcept(np)
    {
      forall n | n in uncommittedGames && n != np
        ensures FormingGame(n, uncommittedGames[n])
      {
        assert old(FormingGame(n, uncommittedGames[n]));
        assert uncommittedGames[n].proxy in old(FormingFrame());
        assert uncommittedGames[n].proxy.conns in old(FormingFrame());
      }
    }

    /** Dropping the exempt game under `np` makes the hub valid again. */
    twostate lemma ValidAfterDrop(np: int)
      requires old(ValidExcept(np)) && np in old(uncommittedGames)
      requires committedGames == old(committedGames)
      requires uncommittedGames == old(uncommittedGames) - {np}
      requires unchanged(old(FormingFrame()))
      ensures Valid()
      ensures uncommittedGames.Keys <= old(uncommittedGames).Keys
      ensures forall k :: k in old(uncommittedGames) && k != np ==>
        k in uncommittedGames && uncommittedGames[k] == old(uncommittedGames[k])
    {
      forall n | n in uncommittedGames
        ensures FormingGame(n, uncommittedGames[n])
      {
        assert old(FormingGame(n, uncommittedGames[n]));
        assert uncommittedGames[n].proxy in old(FormingFrame());
        assert uncommittedGames[n].proxy.conns in old(FormingFrame());
      }
    }

    /**
      Replacing the exempt game under `np` by a well-formed game over the same proxy makes the
      hub valid again.
     */
    twostate lemma ValidAfterReplace(np: int)
      requires old(ValidExcept(np)) && np in old(uncommittedGames) && np in uncommittedGames
      requires committedGames == old(committedGames)
      requires uncommittedGames == old(uncommittedGames)[np := uncommittedGames[np]]
      requires uncommittedGames[np].proxy == old(uncommittedGames[np].proxy)
      requires FormingGame(np, uncommittedGames[np])
      requires unchanged(old(FormingFrame()))
      ensures Valid()
      ensures uncommittedGames.Keys <= old(uncommittedGames).Keys
      ensures forall k :: k in old(uncommittedGames) && k != np ==>
        k in uncommittedGames && uncommittedGames[k] == old(uncommittedGames[k])
    {
      forall n | n in uncommittedGames && n != np
        ensures FormingGame(n, uncommittedGames[n])
      {
        assert old(FormingGame(n, uncommittedGames[n]));
        assert uncommittedGames[n].proxy in old(FormingFrame());
        assert uncommittedGames[n].proxy.conns in old(FormingFrame());
      }
    }

    /**
      When only the forming game under `np` changed (and nothing its neighbours' views read), the
      registry read off the heap differs from the old one at most under `np`.
     */
    twostate lemma FormingAfterVisit(np: int)
      requires old(Valid()) && Valid()
      requires forall k :: k in old(uncommittedGames) && k != np ==>
        k in uncommittedGames && uncommittedGames[k] == old(uncommittedGames[k])
      requires unchanged(old(FormingFrame() - GameFrame(this, np))) && unchanged(old(FormingClients())`info)
      ensures forall k :: k in old(uncommittedGames) && k != np ==> Forming()[k] == old(Forming())[k]
    {
      forall k | k in old(uncommittedGames) && k != np
        ensures Forming()[k] == old(Forming())[k]
      {
        var g := old(uncommittedGames[k]);
        assert g.proxy in old(FormingFrame()) && g.proxy.conns in old(FormingFrame());
        assert old(TakenClients(g)) <= old(FormingClients());
        ViewUnchanged(g);
      }
    }

    /** Recording a game whose proxy and slot array no forming game shares keeps the hub valid. */
    twostate lemma ValidAfterCommit(g: Game)
      requires old(Valid())
      requires uncommittedGames == old(uncommittedGames) && committedGames == old(committedGames) + [g]
      requires forall k :: k in uncommittedGames ==>
        uncommittedGames[k].proxy != g.proxy && uncommittedGames[k].proxy.conns != g.proxy.conns
      requires forall k :: k in uncommittedGames ==> unchanged(uncommittedGames[k].proxy, uncommittedGames[k].proxy.conns)
      ensures Valid()
    {
      forall n | n in uncommittedGames
        ensures FormingGame(n, uncommittedGames[n])
      {
        assert old(FormingGame(n, uncommittedGames[n]));
      }
      assert forall j :: 0 <= j < |old(committedGames)| ==> committedGames[j] == old(committedGames[j]);
    }

    /** The `gamehub` value after `setupGamehub`: no requests, no games, the three hub commands. */
    constructor ()
      ensures Valid()
      ensures gameRequests == [] && uncommittedGames == map[] && committedGames == []
    {
      gameRequests := [];
      uncommittedGames := map[];
      committedGames := [];
      // setupGamehub registers clientInfo, hookupLobbyHandlers newGame and killClient
      localHandlers := map[]["clientInfo" := ClientInfoCommand]["newGame" := NewGameCommand]["killClient" := KillClientCommand];
    }

    /**
      `gamehub.handleWebsocket`: a frame from a session still on the hub. A frame without a colon
      is dropped; a command outside the table gets the `unrecognized:` reply; a command in the
      table runs its handler on the text after the first colon.
     */
    method HandleWebsocket(message: Frame, cconn: ClientConnection, ext: Externals)
      requires Valid()
      modifies this`gameRequests, this`uncommittedGames, FormingFrame(), cconn`info, cconn`toClient
      ensures Valid()
      ensures var route := RouteFrame(message, HubCommands);
        (route.NoDelimiter? || route.Unregistered?) ==>
          && gameRequests == old(gameRequests) && Forming() == old(Forming()) && cconn.info == old(cconn.info)
          && cconn.toClient == old(cconn.toClient) + (if route.Unregistered? then [UnrecognizedReply] else [])
      ensures var route := RouteFrame(message, HubCommands);
        route.Registered? && route.handler == ClientInfoCommand ==>
          && ClientInfoHandled(route.data, cconn, ext)
          && gameRequests == old(gameRequests) && uncommittedGames == old(uncommittedGames)
          && unchanged(old(FormingFrame()))
      ensures var route := RouteFrame(message, HubCommands);
        route.Registered? && route.handler == NewGameCommand ==>
          && gameRequests == old(gameRequests)
               + (match ext.decodeNumPlayers(route.data) case None => [] case Some(n) => [NewGame(n, cconn)])
          && Forming() == old(Forming()) && cconn.info == old(cconn.info) && cconn.toClient == old(cconn.toClient)
      ensures var route := RouteFrame(message, HubCommands);
        route.Registered? && route.handler == KillClientCommand ==>
          && Forming() == Disconnect(old(Forming()), old(cconn.info.id))
          && gameRequests == old(gameRequests) && cconn.info == old(cconn.info) && cconn.toClient == old(cconn.toClient)
    {
      NoDelimiterIffNoColon(message, localHandlers);
      if ':' !in message {
        // logged as a malformed command
        FormingSame();
        return;
      }
      var cmds := SplitN(message, ':', 2);
      if cmds[0] in localHandlers {
        RunHandler(localHandlers[cmds[0]], cmds[1], cconn, ext);
      } else {
        cconn.toClient := cconn.toClient + [UnrecognizedReply];
        FormingSame();
      }
    }

    /** The `localHandler` registered for `command`, run on `data` from session `cconn`. */
    method RunHandler(command: HubCommand, data: string, cconn: ClientConnection, ext: Externals)
      requires Valid()
      modifies this`gameRequests, this`uncommittedGames, FormingFrame(), cconn`info, cconn`toClient
      ensures Valid()
      ensures command == ClientInfoCommand ==>
        && ClientInfoHandled(data, cconn, ext)
        && gameRequests == old(gameRequests) && uncommittedGames == old(uncommittedGames)
        && unchanged(old(FormingFrame()))
      ensures command == NewGameCommand ==>
        && gameRequests == old(gameRequests)
             + (match ext.decodeNumPlayers(data) case None => [] case Some(n) => [NewGame(n, cconn)])
        && Forming() == old(Forming()) && cconn.info == old(cconn.info) && cconn.toClient == old(cconn.toClient)
      ensures command == KillClientCommand ==>
        && Forming() == Disconnect(old(Forming()), old(cconn.info.id))
        && gameRequests == old(gameRequests) && cconn.info == old(cconn.info) && cconn.toClient == old(cconn.toClient)
    {
      match command
      case ClientInfoCommand =>
        HandleClientInfo(data, cconn, ext);
      case NewGameCommand =>
        HandleNewGame(data, cconn, ext);
        FormingSame();
      case KillClientCommand =>
        assert cconn !in FormingFrame();
        HandleDisconnection(data, cconn);
    }

    /** `handleClientInfo`. */
    method HandleClientInfo(message: string, cconn: ClientConnection, ext: Externals)
      modifies cconn`info, cconn`toClient
      ensures ClientInfoHandled(message, cconn, ext)
    {
      var decoded := ext.decodeToken(message);
      if decoded.None? {
        return;
      }
      var token := decoded.value;
      var userid := ext.lookup(token);
      if userid.None? {
        cconn.toClient := cconn.toClient + [ClientInfoReply(-1, ext.encode)];
        return;
      }
      cconn.info := ClientInfo(userid.value, token);
      cconn.toClient := cconn.toClient + [ClientInfoReply(0, ext.encode)];
    }

    /** `handleNewGame`: a payload that decodes becomes one request at the back of the queue. */
    method HandleNewGame(message: string, cconn: ClientConnection, ext: Externals)
      modifies this`gameRequests
      ensures ext.decodeNumPlayers(message).None? ==> gameRequests == old(gameRequests)
      ensures ext.decodeNumPlayers(message).Some? ==>
        gameRequests == old(gameRequests) + [NewGame(ext.decodeNumPlayers(message).value, cconn)]
    {
      var decoded := ext.decodeNumPlayers(message);
      if decoded.Some? {
        gameRequests := gameRequests + [NewGame(decoded.value, cconn)];
      }
    }

    /** `findGame`: the forming game of the requested size, if there is one. */
    function FindGame(ng: NewGame): (game: Option<Game>)
      reads this`uncommittedGames
      ensures game.Some? <==> ng.numPlayers in uncommittedGames
      ensures game.Some? ==> game.value == uncommittedGames[ng.numPlayers]
    {
      if ng.numPlayers in uncommittedGames then Some(uncommittedGames[ng.numPlayers]) else None
    }

    /**
      `makeGame`: a game of size `numPlayers` with no taken slot over a fresh proxy, registered
      under its size. Go's `make` panics on a negative size, so callers must rule that out. A size
      too large for memory, which also makes `make` fail in Go, is allocated here like any other.
     */
    method MakeGame(numPlayers: GoInt, ghost watched: set<ClientConnection>) returns (game: Game)
      requires Valid() && numPlayers >= 0
      modifies this`uncommittedGames
      ensures forall x: ClientConnection :: x in watched ==> x.handlers == old(x.handlers) && x.info == old(x.info)
      ensures fresh(game.proxy) && fresh(game.proxy.conns)
      ensures game.numPlayers == numPlayers && game.currentPlayers == 0
      ensures game.proxy.Valid() && game.proxy.length == numPlayers && game.proxy.conns.Length == numPlayers
      ensures game.proxy.conns[..] == EmptySlots(numPlayers)
      ensures !game.proxy.connected && game.proxy.toServer == []
      ensures uncommittedGames == old(uncommittedGames)[numPlayers := game]
      ensures numPlayers > 0 ==> Valid() && ViewOf(game) == FreshView(numPlayers, game.proxy)
      ensures numPlayers > 0 ==> Forming() == Put(old(Forming()), numPlayers, Some(FreshView(numPlayers, game.proxy)))
    {
      var proxy := new Proxy(numPlayers);
      game := Game(numPlayers, 0, proxy);
      uncommittedGames := uncommittedGames[numPlayers := game];
      if numPlayers > 0 {
        FreshViewOf(game);
        FormingAfterVisit(numPlayers);
        PutCharacterized(old(Forming()), Forming(), numPlayers, Some(FreshView(numPlayers, game.proxy)));
      }
    }

    /** The scan of `handleDisconnection` over the taken slots of one game, in slot order. */
    method FindSlot(game: Game, id: GoInt) returns (r: Option<nat>)
      requires FormingGame(game.numPlayers, game)
      ensures r == IndexOf(ViewOf(game).ids, id)
    {
      ghost var ids := ViewOf(game).ids;
      var i := 0;
      while i < game.currentPlayers
        invariant 0 <= i <= game.currentPlayers
        invariant id !in ids[..i]
      {
        if game.proxy.conns[i].info.id == id {
          FirstIndex(ids, id, i);
          return Some(i);
        }
        assert ids[..i + 1] == ids[..i] + [ids[i]];
        i := i + 1;
      }
      assert ids[..i] == ids;
      r := None;
    }

    /**
      The removal step of `handleDisconnection` in the forming game under `np`, whose first taken
      slot holding `id` is slot `i`: that slot goes, the count drops by one, and the game is
      dropped when the count reaches 0.
     */
    method RemoveSlot(np: int, i: nat, ghost id: GoInt, ghost v: View)
      requires Valid() && np in uncommittedGames && v == ViewOf(uncommittedGames[np]) && IndexOf(v.ids, id) == Some(i)
      modifies this`uncommittedGames, uncommittedGames[np].proxy`length, uncommittedGames[np].proxy.conns
      ensures Valid()
      ensures uncommittedGames.Keys <= old(uncommittedGames).Keys
      ensures forall k :: k in old(uncommittedGames) && k != np ==>
        k in uncommittedGames && uncommittedGames[k] == old(uncommittedGames[k])
      ensures (np in uncommittedGames) == DisconnectView(v, id).Some?
      ensures np in uncommittedGames ==>
        && uncommittedGames[np].proxy == v.game.proxy
        && ViewOf(uncommittedGames[np]) == DisconnectView(v, id).value
    {
      var game := uncommittedGames[np];
      var left := LeaveGame(game, i, id, v);
      ExceptSurvives(np);
      if left.currentPlayers == 0 {
        DropForming(np);
      } else {
        ReplaceForming(np, left);
      }
    }

    /** Deleting the exempt game under `np` from the registry makes the hub valid again. */
    method DropForming(np: int)
      requires ValidExcept(np) && np in uncommittedGames
      modifies this`uncommittedGames
      ensures Valid() && uncommittedGames == old(uncommittedGames) - {np}
      ensures uncommittedGames.Keys <= old(uncommittedGames).Keys
      ensures forall k :: k in old(uncommittedGames) && k != np ==>
        k in uncommittedGames && uncommittedGames[k] == old(uncommittedGames[k])
    {
      uncommittedGames := uncommittedGames - {np};
      ValidAfterDrop(np);
    }

    /**
      The forming game under `np` becomes `g`, a well-formed game over the same proxy (in Go the
      registry holds a pointer, so this is the count written through it).
     */
    method ReplaceForming(np: int, g: Game)
      requires ValidExcept(np) && np in uncommittedGames && g.proxy == uncommittedGames[np].proxy && FormingGame(np, g)
      modifies this`uncommittedGames
      ensures Valid() && uncommittedGames == old(uncommittedGames)[np := g]
      ensures uncommittedGames.Keys <= old(uncommittedGames).Keys
      ensures forall k :: k in old(uncommittedGames) && k != np ==>
        k in uncommittedGames && uncommittedGames[k] == old(uncommittedGames[k])
      ensures ViewOf(g) == old(ViewOf(g))
    {
      uncommittedGames := uncommittedGames[np := g];
      ViewUnchanged(g);
      ValidAfterReplace(np);
    }

    /** `handleDisconnection` on the forming game under `np`. */
    method DisconnectGame(np: int, id: GoInt)
      requires Valid() && np in uncommittedGames
      modifies this`uncommittedGames, uncommittedGames[np].proxy`length, uncommittedGames[np].proxy.conns
      ensures Valid()
      ensures uncommittedGames.Keys <= old(uncommittedGames).Keys
      ensures forall k :: k in old(uncommittedGames) && k != np ==>
        k in uncommittedGames && uncommittedGames[k] == old(uncommittedGames[k])
      ensures np in uncommittedGames ==> uncommittedGames[np].proxy == old(uncommittedGames[np].proxy)
      ensures Forming() == DisconnectOne(old(Forming()), np, id)
    {
      ghost var v := ViewOf(uncommittedGames[np]);
      var r := FindSlot(uncommittedGames[np], id);
      FormingSame();
      if r.Some? {
        DisconnectFound(np, r.value, id, v);
      } else {
        assert DisconnectView(v, id) == Some(v);
        PutCharacterized(old(Forming()), Forming(), np, DisconnectView(old(Forming())[np], id));
      }
    }

    /** `DisconnectGame` once the slot holding `id` is known to be slot `i`. */
    method DisconnectFound(np: int, i: nat, ghost id: GoInt, ghost v: View)
      requires Valid() && np in uncommittedGames && v == ViewOf(uncommittedGames[np]) && IndexOf(v.ids, id) == Some(i)
      modifies this`uncommittedGames, uncommittedGames[np].proxy`length, uncommittedGames[np].proxy.conns
      ensures Valid()
      ensures uncommittedGames.Keys <= old(uncommittedGames).Keys
      ensures forall k :: k in old(uncommittedGames) && k != np ==>
        k in uncommittedGames && uncommittedGames[k] == old(uncommittedGames[k])
      ensures np in uncommittedGames ==> uncommittedGames[np].proxy == old(uncommittedGames[np].proxy)
      ensures Forming() == DisconnectOne(old(Forming()), np, id)
    {
      RemoveSlot(np, i, id, v);
      FormingAfterVisit(np);
      PutCharacterized(old(Forming()), Forming(), np, DisconnectView(old(Forming())[np], id));
    }

    /**
      `handleDisconnection`: in every forming game, in any order, the first taken slot whose
      session has the id of `cconn` is removed; committed games are not looked at. The payload
      is not used.
     */
    method HandleDisconnection(message: string, cconn: ClientConnection)
      requires Valid()
      modifies this`uncommittedGames, FormingFrame()
      ensures Valid()
      ensures Forming() == Disconnect(old(Forming()), old(cconn.info.id))
    {
      var id := cconn.info.id;
      ghost var before := Forming();
      ghost var expected := before;
      DisconnectExceptAll(before, id);
      var keys := uncommittedGames.Keys;
      while keys != {}
        invariant Valid()
        invariant forall k :: k in keys ==> k in uncommittedGames && uncommittedGames[k] == old(uncommittedGames[k])
        invariant expected == DisconnectExcept(before, id, keys)
        invariant Forming() == expected
        decreases keys
      {
        NonEmpty(keys);
        var np :| np in keys;
        DisconnectOneStep(before, id, keys, np);
        DisconnectGame(np, id);
        expected := DisconnectOne(expected, np, id);
        keys := keys - {np};
      }
      assert keys == {};
      DisconnectExceptNone(before, id);
    }

    /**
      `commitGame` on the full game `game` under its size: it leaves the registry first; when the
      backend connects (`connectOk`), every slot session is handed the proxy, the roster goes to
      the backend and the game is recorded as committed. A failed connection leaves the game
      out of both collections.
     */
    method CommitGame(game: Game, connectOk: bool, encode: Encoder) returns (ok: bool)
      requires ValidExcept(game.numPlayers) && game.numPlayers in uncommittedGames
      requires uncommittedGames[game.numPlayers].proxy == game.proxy
      requires game.proxy.Valid() && game.proxy.Filled() && !game.proxy.connected && game.proxy.toServer == []
      modifies this`uncommittedGames, this`committedGames, game.proxy`connected, game.proxy`toServer
      modifies game.proxy.SlotClients()`handlers
      ensures Valid() && uncommittedGames == old(uncommittedGames) - {game.numPlayers}
      ensures uncommittedGames.Keys <= old(uncommittedGames).Keys
      ensures forall k :: k in old(uncommittedGames) && k != game.numPlayers ==>
        k in uncommittedGames && uncommittedGames[k] == old(uncommittedGames[k])
      ensures ok == connectOk
      ensures !ok ==> committedGames == old(committedGames) && !game.proxy.connected && game.proxy.toServer == []
      ensures !ok ==> forall c :: c in old(game.proxy.SlotClients()) ==> c.handlers == old(c.handlers)
      ensures ok ==> committedGames == old(committedGames) + [game] && game.proxy.connected
      ensures ok ==> game.proxy.toServer == [RosterFrame(old(game.proxy.SlotIds()), encode)]
      ensures ok ==> forall c :: c in old(game.proxy.SlotClients()) ==>
        c.handlers == old(c.handlers) + Deliveries(game.proxy.Slots(), c, Handoffs(game.proxy, game.proxy.length))
    {
      var n := game.numPlayers;
      assert forall k :: k in uncommittedGames && k != n ==>
        uncommittedGames[k].proxy != game.proxy && uncommittedGames[k].proxy.conns != game.proxy.conns;
      uncommittedGames := uncommittedGames - {n};
      ValidAfterDrop(n);
      if !connectOk {
        // connectToServer failed: the game hangs, reachable from neither collection
        return false;
      }
      label dropped:
      SlotIdsSame(game.proxy);
      ConnectGame(game, encode);
      committedGames := committedGames + [game];
      ValidAfterCommit@dropped(game);
      ok := true;
    }

    /**
      The loop body of `processNewGameRequests` once the forming game under `n` is known and its
      slot `currentPlayers` exists: session `c` takes that slot, the count goes up, and the game
      is committed when the count reaches its size.
     */
    method SlotPlayer(n: int, c: ClientConnection, ghost v: View, connectOk: bool, encode: Encoder) returns (outcome: WorkerOutcome)
      requires Valid() && n in uncommittedGames && v == ViewOf(uncommittedGames[n])
      requires uncommittedGames[n].currentPlayers < uncommittedGames[n].proxy.length
      modifies this`uncommittedGames, this`committedGames
      modifies uncommittedGames[n].proxy`connected, uncommittedGames[n].proxy`toServer, uncommittedGames[n].proxy.conns
      modifies TakenClients(uncommittedGames[n])`handlers, c`handlers
      ensures Valid()
      ensures uncommittedGames.Keys <= old(uncommittedGames).Keys
      ensures forall k :: k in old(uncommittedGames) && k != n ==>
        k in uncommittedGames && uncommittedGames[k] == old(uncommittedGames[k])
      ensures var w := Joined(v, c, old(c.info.id));
        && (n in uncommittedGames <==> w.game.currentPlayers < n)
        && (n in uncommittedGames ==> uncommittedGames[n].proxy == v.game.proxy && ViewOf(uncommittedGames[n]) == w)
        && outcome == (if w.game.currentPlayers < n then Slotted else if connectOk then Committed else CommitFailed)
        && (outcome == Committed ==>
              && committedGames == old(committedGames) + [w.game]
              && w.game.proxy.connected && w.game.proxy.toServer == [RosterFrame(w.ids, encode)])
        && (outcome != Committed ==> committedGames == old(committedGames))
      ensures var w := Joined(v, c, old(c.info.id));
        HandedOffTo(old(TakenClients(uncommittedGames[n])) + {c}, if outcome == Committed then Some(w) else None)
    {
      var game := uncommittedGames[n];
      ghost var members := TakenClients(game) + {c};
      var joined := JoinGame(game, c, v);
      ExceptSurvives(n);
      outcome := SettleJoined(n, joined, Joined(v, c, old(c.info.id)), members, connectOk, encode);
    }

    /**
      The rest of the loop body once the session sits in slot `currentPlayers` of the game under
      `n` (`joined` carries the new count): commit the game when the count reached its size,
      otherwise write the count back.
     */
    method SettleJoined(n: int, joined: Game, ghost w: View, ghost members: set<ClientConnection>, connectOk: bool, encode: Encoder)
      returns (outcome: WorkerOutcome)
      requires ValidExcept(n) && n in uncommittedGames && uncommittedGames[n].proxy == joined.proxy
      requires joined.numPlayers == n && joined.currentPlayers <= n && w.game == joined && joined.proxy.Valid()
      requires joined.proxy.Slots() == w.slots && !joined.proxy.connected && joined.proxy.toServer == []
      requires joined.currentPlayers < n ==> FormingGame(n, joined) && ViewOf(joined) == w
      requires joined.currentPlayers == n ==>
        joined.proxy.Filled() && joined.proxy.length == n && joined.proxy.SlotIds() == w.ids
      requires members == joined.proxy.SlotClients()
      modifies this`uncommittedGames, this`committedGames, joined.proxy`connected, joined.proxy`toServer
      modifies joined.proxy.SlotClients()`handlers
      ensures Valid()
      ensures uncommittedGames.Keys <= old(uncommittedGames).Keys
      ensures forall k :: k in old(uncommittedGames) && k != n ==>
        k in uncommittedGames && uncommittedGames[k] == old(uncommittedGames[k])
      ensures n in uncommittedGames <==> w.game.currentPlayers < n
      ensures n in uncommittedGames ==> uncommittedGames[n].proxy == w.game.proxy && ViewOf(uncommittedGames[n]) == w
      ensures outcome == (if w.game.currentPlayers < n then Slotted else if connectOk then Committed else CommitFailed)
      ensures outcome == Committed ==>
        && committedGames == old(committedGames) + [w.game]
        && w.game.proxy.connected && w.game.proxy.toServer == [RosterFrame(w.ids, encode)]
      ensures outcome != Committed ==> committedGames == old(committedGames)
      ensures HandedOffTo(members, if outcome == Committed then Some(w) else None)
    {
      if joined.currentPlayers == n {
        var ok := CommitGame(joined, connectOk, encode);
        outcome := if ok then Committed else CommitFailed;
      } else {
        ReplaceForming(n, joined);
        outcome := Slotted;
      }
    }

    /**
      `SlotPlayer` as the matchmaking rules see it: the registry becomes the one `JoinForming` computes,
      and a commit records the game `JoinForming` reports.
     */
    method AdmitPlayer(n: int, c: ClientConnection, ghost v: View, connectOk: bool, encode: Encoder) returns (outcome: WorkerOutcome)
      requires Valid() && n in uncommittedGames && v == ViewOf(uncommittedGames[n])
      requires uncommittedGames[n].currentPlayers < uncommittedGames[n].proxy.length
      modifies this`uncommittedGames, this`committedGames
      modifies uncommittedGames[n].proxy`connected, uncommittedGames[n].proxy`toServer, uncommittedGames[n].proxy.conns
      modifies TakenClients(uncommittedGames[n])`handlers, c`handlers
      ensures Valid()
      ensures var r := JoinForming(old(Forming()), n, c, old(c.info.id), connectOk);
        && outcome == r.outcome && Forming() == r.forming
        && (r.committed.Some? ==>
              && committedGames == old(committedGames) + [r.committed.value.game]
              && r.committed.value.game.proxy.connected
              && r.committed.value.game.proxy.toServer == [RosterFrame(r.committed.value.ids, encode)])
        && (r.committed.None? ==> committedGames == old(committedGames))
      ensures var r := JoinForming(old(Forming()), n, c, old(c.info.id), connectOk);
        HandedOffTo(old(TakenClients(uncommittedGames[n])) + {c}, r.committed)
    {
      ghost var w := Joined(v, c, c.info.id);
      outcome := SlotPlayer(n, c, v, connectOk, encode);
      FormingAfterVisit(n);
      PutCharacterized(old(Forming()), Forming(), n, if w.game.currentPlayers < n then Some(w) else None);
    }

    /**
      The loop body of `processNewGameRequests` once the forming game under `n` is known: the
      `slotClientConnection` at index `currentPlayers` panics outside the slot list, and
      `AdmitPlayer` does the rest.
     */
    method ServeRequest(n: int, c: ClientConnection, ghost watched: set<ClientConnection>, connectOk: bool, encode: Encoder)
      returns (outcome: WorkerOutcome)
      requires Valid() && n in uncommittedGames
      modifies this`uncommittedGames, this`committedGames
      modifies uncommittedGames[n].proxy`connected, uncommittedGames[n].proxy`toServer, uncommittedGames[n].proxy.conns
      modifies TakenClients(uncommittedGames[n])`handlers, c`handlers
      ensures var r := JoinForming(old(Forming()), n, c, old(c.info.id), connectOk);
        && outcome == r.outcome
        && (outcome != IndexOutOfRangePanic ==> Valid() && Forming() == r.forming)
        && (r.committed.Some? ==>
              && committedGames == old(committedGames) + [r.committed.value.game]
              && r.committed.value.game.proxy.connected
              && r.committed.value.game.proxy.toServer == [RosterFrame(r.committed.value.ids, encode)])
        && (outcome != IndexOutOfRangePanic && r.committed.None? ==> committedGames == old(committedGames))
      ensures var r := JoinForming(old(Forming()), n, c, old(c.info.id), connectOk);
        HandedOffTo(watched, r.committed)
    {
      var game := uncommittedGames[n];
      ghost var v := ViewOf(game);
      if game.currentPlayers >= game.proxy.length {
        // slotClientConnection indexes past the end of proxyConns
        return IndexOutOfRangePanic;
      }
      ghost var taken := TakenClients(game);
      assert forall i :: 0 <= i < game.currentPlayers ==> v.slots[i] == game.proxy.conns[i] && v.slots[i] in taken;
      outcome := AdmitPlayer(n, c, v, connectOk, encode);
      ghost var r := JoinForming(old(Forming()), n, c, old(c.info.id), connectOk);
      assert r.committed.Some? ==> r.committed.value == Joined(v, c, old(c.info.id));
      forall x | x in watched
        ensures x.handlers == old(x.handlers) + HandedOff(r.committed, x)
      {
        if x !in taken + {c} {
          assert x.handlers == old(x.handlers);
          if r.committed.Some? {
            HandOffOutside(v, c, old(c.info.id), x);
          }
        }
      }
    }

    /**
      One iteration of `processNewGameRequests`: the oldest request is taken off the queue and
      served by the forming game of its size, or by a new one that `makeGame` registers. The
      connection attempt of a commit is `connectOk`. The returned proxy is the one the request
      went to; there is none when `make` panics on a negative size.
     */
    method ProcessNewGameRequest(connectOk: bool, encode: Encoder) returns (outcome: WorkerOutcome, proxy: Option<Proxy>)
      requires Valid() && |gameRequests| > 0
      modifies this`gameRequests, this`uncommittedGames, this`committedGames, FormingFrame()
      modifies FormingClients()`handlers, gameRequests[0].cconn`handlers
      ensures gameRequests == old(gameRequests[1..])
      ensures var ng := old(gameRequests[0]);
        && (outcome == MakeSlicePanic <==> ng.numPlayers !in old(uncommittedGames) && ng.numPlayers < 0)
        && (proxy.None? <==> outcome == MakeSlicePanic)
      ensures var ng := old(gameRequests[0]);
        proxy.Some? ==>
          && (ng.numPlayers in old(uncommittedGames) ==> proxy.value == old(uncommittedGames[ng.numPlayers].proxy))
          && (ng.numPlayers !in old(uncommittedGames) ==> fresh(proxy.value))
          && var r := Request(old(Forming()), ng.numPlayers, ng.cconn, old(ng.cconn.info.id), proxy.value, connectOk);
            && outcome == r.outcome
            && (outcome != IndexOutOfRangePanic ==> Valid() && Forming() == r.forming)
            && (r.committed.Some? ==>
                  && committedGames == old(committedGames) + [r.committed.value.game]
                  && r.committed.value.game.proxy.connected
                  && r.committed.value.game.proxy.toServer == [RosterFrame(r.committed.value.ids, encode)])
            && (outcome != IndexOutOfRangePanic && r.committed.None? ==> committedGames == old(committedGames))
      ensures var ng := old(gameRequests[0]);
        proxy.Some? ==>
        var r := Request(old(Forming()), ng.numPlayers, ng.cconn, old(ng.cconn.info.id), proxy.value, connectOk);
        HandedOffTo(old(FormingClients()) + {ng.cconn}, r.committed)
      ensures var ng := old(gameRequests[0]);
        proxy.None? ==>
        HandedOffTo(old(FormingClients()) + {ng.cconn}, None)
    {
      var ng := gameRequests[0];
      gameRequests := gameRequests[1..];
      FormingSame();
      assert FormingClients() == old(FormingClients()) && ng.cconn.info == old(ng.cconn.info);
      assert forall x: ClientConnection :: x in FormingClients() + {ng.cconn} ==> x.handlers == old(x.handlers);
      outcome, proxy := ServeNewGame(ng, connectOk, encode);
    }

    /** `ProcessNewGameRequest` once the request `ng` is off the queue. */
    method ServeNewGame(ng: NewGame, connectOk: bool, encode: Encoder) returns (outcome: WorkerOutcome, proxy: Option<Proxy>)
      requires Valid()
      modifies this`uncommittedGames, this`committedGames, FormingFrame()
      modifies FormingClients()`handlers, ng.cconn`handlers
      ensures (outcome == MakeSlicePanic <==> ng.numPlayers !in old(uncommittedGames) && ng.numPlayers < 0)
      ensures proxy.None? <==> outcome == MakeSlicePanic
      ensures proxy.Some? ==>
          && (ng.numPlayers in old(uncommittedGames) ==> proxy.value == old(uncommittedGames[ng.numPlayers].proxy))
          && (ng.numPlayers !in old(uncommittedGames) ==> fresh(proxy.value))
          && var r := Request(old(Forming()), ng.numPlayers, ng.cconn, old(ng.cconn.info.id), proxy.value, connectOk);
            && outcome == r.outcome
            && (outcome != IndexOutOfRangePanic ==> Valid() && Forming() == r.forming)
            && (r.committed.Some? ==>
                  && committedGames == old(committedGames) + [r.committed.value.game]
                  && r.committed.value.game.proxy.connected
                  && r.committed.value.game.proxy.toServer == [RosterFrame(r.committed.value.ids, encode)])
            && (outcome != IndexOutOfRangePanic && r.committed.None? ==> committedGames == old(committedGames))
      ensures proxy.Some? ==>
        var r := Request(old(Forming()), ng.numPlayers, ng.cconn, old(ng.cconn.info.id), proxy.value, connectOk);
        HandedOffTo(old(FormingClients()) + {ng.cconn}, r.committed)
      ensures proxy.None? ==>
        HandedOffTo(old(FormingClients()) + {ng.cconn}, None)
    {
      ghost var watched := FormingClients() + {ng.cconn};
      var found := FindGame(ng);
      if found.Some? {
        RequestFound(old(Forming()), ng.numPlayers, ng.cconn, ng.cconn.info.id, found.value.proxy, connectOk);
        assert TakenClients(found.value) <= FormingClients();
        proxy := Some(found.value.proxy);
        outcome := ServeRequest(ng.numPlayers, ng.cconn, watched, connectOk, encode);
      } else if ng.numPlayers < 0 {
        // newProxy's make panics on a negative length
        return MakeSlicePanic, None;
      } else {
        outcome, proxy := ServeFresh(ng, connectOk, encode);
      }
    }

    /** `ServeNewGame` when no game of the requested size is forming: `makeGame` first. */
    method ServeFresh(ng: NewGame, connectOk: bool, encode: Encoder) returns (outcome: WorkerOutcome, proxy: Option<Proxy>)
      requires Valid() && ng.numPlayers !in uncommittedGames && ng.numPlayers >= 0
      modifies this`uncommittedGames, this`committedGames, ng.cconn`handlers
      ensures proxy.Some? && fresh(proxy.value)
      ensures var r := Request(old(Forming()), ng.numPlayers, ng.cconn, old(ng.cconn.info.id), proxy.value, connectOk);
        && outcome == r.outcome
        && (outcome != IndexOutOfRangePanic ==> Valid() && Forming() == r.forming)
        && (r.committed.Some? ==>
              && committedGames == old(committedGames) + [r.committed.value.game]
              && r.committed.value.game.proxy.connected
              && r.committed.value.game.proxy.toServer == [RosterFrame(r.committed.value.ids, encode)])
        && (outcome != IndexOutOfRangePanic && r.committed.None? ==> committedGames == old(committedGames))
      ensures var r := Request(old(Forming()), ng.numPlayers, ng.cconn, old(ng.cconn.info.id), proxy.value, connectOk);
        HandedOffTo(old(FormingClients()) + {ng.cconn}, r.committed)
    {
      ghost var watched := FormingClients() + {ng.cconn};
      var game := MakeGame(ng.numPlayers, watched);
      proxy := Some(game.proxy);
      if ng.numPlayers == 0 {
        // a game of size 0 has no slot for slotClientConnection to write
        return IndexOutOfRangePanic, proxy;
      }
      assert TakenClients(game) == {};
      ghost var r := Request(old(Forming()), ng.numPlayers, ng.cconn, ng.cconn.info.id, game.proxy, connectOk);
      assert r == JoinForming(Forming(), ng.numPlayers, ng.cconn, ng.cconn.info.id, connectOk);
      outcome := ServeRequest(ng.numPlayers, ng.cconn, watched, connectOk, encode);
    }
  }
}
