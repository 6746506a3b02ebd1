/**
  The matchmaking rules of gamehub.go as pure functions over the forming registry: what one
  request of the worker does to it, and what a disconnection does to it. The hub's methods
  are proved to act on their heap state exactly as these functions say.
 */
module Matchmaking {
  import opened GoStrings
  import opened Protocol
  import opened Proxy

  /** `game` (declared in game.go): its size, how many slots are taken, and its proxy. */
  datatype Game = Game(numPlayers: GoInt, currentPlayers: int, proxy: Proxy)

  /** A forming game as the worker sees it: the game, its slot list, the ids of its taken slots. */
  datatype View = View(game: Game, slots: seq<ClientConnection?>, ids: seq<GoInt>)

  /** What one request of `processNewGameRequests` ends in. The two panics stop the process. */
  datatype WorkerOutcome = Slotted | Committed | CommitFailed | MakeSlicePanic | IndexOutOfRangePanic

  /** The forming registry after a request, and the game that was committed, if one was. */
  datatype Step = Step(outcome: WorkerOutcome, forming: map<int, View>, committed: Option<View>)

  /**
    The shape of a forming game: taken slots first, one id per taken slot, never full, and a
    slot list no longer than the game's size (it is shorter once a player has left).
   */
  predicate FormingShape(v: View) {
    && 0 <= v.game.currentPlayers < v.game.numPlayers
    && v.game.currentPlayers <= |v.slots| <= v.game.numPlayers
    && |v.ids| == v.game.currentPlayers
    && forall i :: 0 <= i < |v.slots| ==> (v.slots[i] != null <==> i < v.game.currentPlayers)
  }

  /** The registry invariant: each size maps to one well-shaped forming game of that size. */
  predicate Registry(forming: map<int, View>) {
    forall n :: n in forming ==> forming[n].game.numPlayers == n && FormingShape(forming[n])
  }

  /** The first position of `id` in `ids`. */
  function IndexOf(ids: seq<GoInt>, id: GoInt): (r: Option<nat>)
    ensures r.None? <==> id !in ids
    ensures r.Some? ==> r.value < |ids| && ids[r.value] == id && id !in ids[..r.value]
  {
    if ids == [] then None
    else if ids[0] == id then Some(0)
    else match IndexOf(ids[1..], id)
      case None => None
      case Some(i) =>
        assert ids[..i + 1] == [ids[0]] + ids[1..][..i];
        Some(i + 1)
  }

  function EmptySlots(n: nat): (s: seq<ClientConnection?>)
    ensures |s| == n && forall i :: 0 <= i < n ==> s[i] == null
  {
    seq(n, _ => null)
  }

  /** The game `makeGame(n)` registers, over the fresh proxy `p`. */
  function FreshView(n: GoInt, p: Proxy): View
    requires n >= 0
  {
    View(Game(n, 0, p), EmptySlots(n), [])
  }

  /** `findGame`, falling back to `makeGame` with the fresh proxy `p`. */
  function FindOrMake(forming: map<int, View>, n: GoInt, p: Proxy): View
    requires n in forming || n >= 0
  {
    if n in forming then forming[n] else FreshView(n, p)
  }

  /** Session `c` with id `cid` in slot `currentPlayers` of `v`, and the count one higher. */
  function Joined(v: View, c: ClientConnection, cid: GoInt): View
    requires 0 <= v.game.currentPlayers < |v.slots|
  {
    View(v.game.(currentPlayers := v.game.currentPlayers + 1), v.slots[v.game.currentPlayers := c], v.ids + [cid])
  }

  /**
    One request for size `n` from session `c` whose id is `cid`, once the game of that size is in
    the registry (found, or registered by `makeGame`): slot the session at index
    `currentPlayers` (which panics outside the slot list), count it, and commit when the count
    reaches the size. Commit removes the game from the registry whether or not the backend
    connects.
   */
  function JoinForming(forming: map<int, View>, n: int, c: ClientConnection, cid: GoInt, connectOk: bool): Step
    requires n in forming
  {
    var v := forming[n];
    var cur := v.game.currentPlayers;
    if cur < 0 || cur >= |v.slots| then Step(IndexOutOfRangePanic, forming, None)
    else
      var joined := Joined(v, c, cid);
      if cur + 1 == v.game.numPlayers then
        if connectOk then Step(Committed, forming - {n}, Some(joined))
        else Step(CommitFailed, forming - {n}, None)
      else Step(Slotted, forming[n := joined], None)
  }

  /**
    One request of `processNewGameRequests` once `makeGame` (if it was needed) has succeeded with
    the fresh proxy `p`.
   */
  function Request(forming: map<int, View>, n: GoInt, c: ClientConnection, cid: GoInt, p: Proxy, connectOk: bool): Step
    requires Registry(forming) && (n in forming || n >= 0)
  {
    JoinForming(forming[n := FindOrMake(forming, n, p)], n, c, cid, connectOk)
  }

  /** Slot `i` of a forming game removed: the slots after it move down by one and the count drops. */
  function RemoveAt(v: View, i: nat): View
    requires i < |v.ids| && i < |v.slots|
  {
    View(v.game.(currentPlayers := v.game.currentPlayers - 1), v.slots[..i] + v.slots[i + 1..], v.ids[..i] + v.ids[i + 1..])
  }

  /**
    `handleDisconnection` on one forming game: the first taken slot whose id is `id` is removed
    and the count drops by one; `None` when the count reaches 0 and the game is dropped.
   */
  function DisconnectView(v: View, id: GoInt): Option<View>
    requires |v.ids| == v.game.currentPlayers <= |v.slots|
  {
    match IndexOf(v.ids, id)
    case None => Some(v)
    case Some(i) => if v.game.currentPlayers == 1 then None else Some(RemoveAt(v, i))
  }

  /** `handleDisconnection` on the whole registry: every forming game independently. */
  function Disconnect(forming: map<int, View>, id: GoInt): map<int, View>
    requires Registry(forming)
  {
    map n | n in forming && DisconnectView(forming[n], id).Some? :: DisconnectView(forming[n], id).value
  }

  /** The registry with the game of size `n` replaced by `entry`, or dropped when `entry` is `None`. */
  function Put(forming: map<int, View>, n: int, entry: Option<View>): map<int, View> {
    match entry
    case None => forming - {n}
    case Some(w) => forming[n := w]
  }

  /** `handleDisconnection` on the forming game of size `n` alone. */
  function DisconnectOne(forming: map<int, View>, n: int, id: GoInt): map<int, View>
    requires Registry(forming) && n in forming
  {
    Put(forming, n, DisconnectView(forming[n], id))
  }

  /** The registry once every forming game except those of the sizes in `todo` has been visited. */
  function DisconnectExcept(forming: map<int, View>, id: GoInt, todo: set<int>): map<int, View>
    requires Registry(forming)
  {
    map n | n in forming && (n in todo || DisconnectView(forming[n], id).Some?) ::
      if n in todo then forming[n] else DisconnectView(forming[n], id).value
  }

  // ---------------------------------------------------------------------------------------
  // Properties of a request

  /** A request that does not panic keeps the registry invariant. */
  lemma RequestKeepsRegistry(forming: map<int, View>, n: GoInt, c: ClientConnection, cid: GoInt, p: Proxy, connectOk: bool)
    requires Registry(forming) && (n in forming || n >= 0)
    ensures Request(forming, n, c, cid, p, connectOk).outcome != IndexOutOfRangePanic ==>
      Registry(Request(forming, n, c, cid, p, connectOk).forming)
  {
    var v := FindOrMake(forming, n, p);
    var r := Request(forming, n, c, cid, p, connectOk);
    if r.outcome == Slotted {
      var joined := Joined(v, c, cid);
      assert r.forming == forming[n := joined];
      assert FormingShape(joined);
    }
  }

  /** A request touches only the registry entry of its own size. */
  lemma RequestTouchesOwnSize(forming: map<int, View>, n: GoInt, c: ClientConnection, cid: GoInt, p: Proxy, connectOk: bool, k: int)
    requires Registry(forming) && (n in forming || n >= 0) && k != n
    ensures (k in Request(forming, n, c, cid, p, connectOk).forming) == (k in forming)
    ensures k in forming ==> Request(forming, n, c, cid, p, connectOk).forming[k] == forming[k]
  {
  }

  /**
    A request overflows the slot list exactly when its game has lost a player (its slot list is
    shorter than its size) and every remaining slot is taken, or when it asks for size 0.
   */
  lemma RequestOverflowsIffShrunk(forming: map<int, View>, n: GoInt, c: ClientConnection, cid: GoInt, p: Proxy, connectOk: bool)
    requires Registry(forming) && (n in forming || n >= 0)
    ensures Request(forming, n, c, cid, p, connectOk).outcome == IndexOutOfRangePanic <==>
      if n in forming then |forming[n].slots| < n && forming[n].game.currentPlayers == |forming[n].slots|
      else n == 0
  {
  }

  /**
    A request joins the game of its size (or a fresh one), takes slot `currentPlayers`, and commits
    exactly when that fills the game; the committed game holds every slot, ids in arrival order.
   */
  lemma RequestCommitsIffFull(forming: map<int, View>, n: GoInt, c: ClientConnection, cid: GoInt, p: Proxy, connectOk: bool)
    requires Registry(forming) && (n in forming || n >= 0)
    requires Request(forming, n, c, cid, p, connectOk).outcome != IndexOutOfRangePanic
    ensures var v := FindOrMake(forming, n, p);
      var r := Request(forming, n, c, cid, p, connectOk);
      && ((r.outcome == Committed || r.outcome == CommitFailed) <==> v.game.currentPlayers + 1 == n)
      && (r.outcome == Committed <==> v.game.currentPlayers + 1 == n && connectOk)
      && (r.outcome == Slotted ==> n in r.forming && r.forming[n].game.currentPlayers == v.game.currentPlayers + 1)
      && (r.outcome != Slotted ==> n !in r.forming)
      && (r.committed.Some? ==>
          && r.committed.value.game == Game(n, n, v.game.proxy)
          && |r.committed.value.slots| == n
          && (forall i :: 0 <= i < n ==> r.committed.value.slots[i] != null)
          && r.committed.value.ids == v.ids + [cid])
  {
    var v := FindOrMake(forming, n, p);
    if n !in forming {
      assert v.game.numPlayers == n;
    }
  }

  /** A request for a registered size does not depend on the proxy `makeGame` would have made. */
  lemma RequestFound(forming: map<int, View>, n: GoInt, c: ClientConnection, cid: GoInt, p: Proxy, connectOk: bool)
    requires Registry(forming) && n in forming
    ensures Request(forming, n, c, cid, p, connectOk) == JoinForming(forming, n, c, cid, connectOk)
  {
    assert forming[n := forming[n]] == forming;
  }

  // ---------------------------------------------------------------------------------------
  // Properties of a disconnection

  /** A disconnection keeps the registry invariant and never adds a game. */
  lemma DisconnectKeepsRegistry(forming: map<int, View>, id: GoInt)
    requires Registry(forming)
    ensures Registry(Disconnect(forming, id))
    ensures Disconnect(forming, id).Keys <= forming.Keys
  {
    var after := Disconnect(forming, id);
    forall n | n in after
      ensures after[n].game.numPlayers == n && FormingShape(after[n])
    {
      var v := forming[n];
      match IndexOf(v.ids, id)
      case None =>
      case Some(i) =>
        var w := after[n];
        assert w.slots == v.slots[..i] + v.slots[i + 1..];
        forall j | 0 <= j < |w.slots|
          ensures w.slots[j] != null <==> j < w.game.currentPlayers
        {
          if j < i {
            assert w.slots[j] == v.slots[j];
          } else {
            assert w.slots[j] == v.slots[j + 1];
          }
        }
    }
  }

  /** A forming game without a slot holding `id` is left as it is. */
  lemma DisconnectSkipsOtherGames(forming: map<int, View>, id: GoInt, n: int)
    requires Registry(forming) && n in forming && id !in forming[n].ids
    ensures n in Disconnect(forming, id) && Disconnect(forming, id)[n] == forming[n]
  {
  }

  /**
    A forming game with a slot holding `id` loses exactly the first such slot, the rest keep
    their order, and it is dropped exactly when that was its last player. What remains has a
    slot list shorter than its size, so it can no longer be filled without an overflow.
   */
  lemma DisconnectRemovesFirstMatch(forming: map<int, View>, id: GoInt, n: int)
    requires Registry(forming) && n in forming && id in forming[n].ids
    ensures var v := forming[n];
      var i := IndexOf(v.ids, id).value;
      var after := Disconnect(forming, id);
      && (n in after <==> v.game.currentPlayers > 1)
      && (n in after ==>
          && after[n].game == v.game.(currentPlayers := v.game.currentPlayers - 1)
          && after[n].slots == v.slots[..i] + v.slots[i + 1..]
          && multiset(after[n].ids) == multiset(v.ids) - multiset{id}
          && |after[n].slots| < n)
  {
    var v := forming[n];
    var i := IndexOf(v.ids, id).value;
    assert v.ids == v.ids[..i] + [id] + v.ids[i + 1..];
  }

  /** A registry that differs from `before` only at size `n`, where it holds `entry`, is `Put(before, n, entry)`. */
  lemma PutCharacterized(before: map<int, View>, now: map<int, View>, n: int, entry: Option<View>)
    requires now.Keys <= before.Keys + {n}
    requires forall k :: k in before && k != n ==> k in now && now[k] == before[k]
    requires (n in now) == entry.Some?
    requires n in now ==> now[n] == entry.value
    ensures now == Put(before, n, entry)
  {
    var expected := Put(before, n, entry);
    forall k
      ensures k in now <==> k in expected
    {
    }
    assert now.Keys == expected.Keys;
    forall k | k in now
      ensures now[k] == expected[k]
    {
    }
  }

  /** Before any game is visited the registry is as it was. */
  lemma DisconnectExceptAll(forming: map<int, View>, id: GoInt)
    requires Registry(forming)
    ensures DisconnectExcept(forming, id, forming.Keys) == forming
  {
  }

  /** Once every game is visited the whole disconnection is done. */
  lemma DisconnectExceptNone(forming: map<int, View>, id: GoInt)
    requires Registry(forming)
    ensures DisconnectExcept(forming, id, {}) == Disconnect(forming, id)
  {
  }

  /**
    Visiting the games one at a time, in any order, adds up to the disconnection of the whole
    registry: visiting the game of size `n` next takes it out of `todo`.
   */
  lemma DisconnectOneStep(forming: map<int, View>, id: GoInt, todo: set<int>, n: int)
    requires Registry(forming) && n in todo && n in forming
    ensures Registry(DisconnectExcept(forming, id, todo))
    ensures DisconnectOne(DisconnectExcept(forming, id, todo), n, id) == DisconnectExcept(forming, id, todo - {n})
  {
    var mid := DisconnectExcept(forming, id, todo);
    forall k | k in mid
      ensures mid[k].game.numPlayers == k && FormingShape(mid[k])
    {
      if k !in todo {
        DisconnectKeepsRegistry(forming, id);
        assert mid[k] == Disconnect(forming, id)[k];
      }
    }
  }

  // ---------------------------------------------------------------------------------------
  // Scenarios

  /** Two requests for size 2 from sessions with ids `ida` and `idb`: the first forms, the second commits. */
  lemma TwoRequestsCommitInArrivalOrder(a: ClientConnection, b: ClientConnection, ida: GoInt, idb: GoInt, p: Proxy, q: Proxy)
    ensures Request(map[], 2, a, ida, p, true) == Step(Slotted, map[2 := View(Game(2, 1, p), [a, null], [ida])], None)
    ensures Registry(map[2 := View(Game(2, 1, p), [a, null], [ida])])
    ensures Request(map[2 := View(Game(2, 1, p), [a, null], [ida])], 2, b, idb, q, true)
      == Step(Committed, map[], Some(View(Game(2, 2, p), [a, b], [ida, idb])))
  {
    var v := FreshView(2, p);
    assert v.slots[0 := a] == [a, null];
    assert v.ids + [ida] == [ida];
    var m := map[2 := View(Game(2, 1, p), [a, null], [ida])];
    assert map[][2 := View(Game(2, 1, p), [a, null], [ida])] == m;
    assert m[2].slots[1 := b] == [a, b];
    assert m[2].ids + [idb] == [ida, idb];
    assert m - {2} == map[];
  }

  /**
    Size 3: sessions 1 and 2 join, session 1 leaves, session 3 joins; the game now has 2 taken
    slots in a slot list of length 2, and the request of session 4 indexes past its end.
   */
  lemma RejoinAfterDisconnectOverflows(a: ClientConnection, b: ClientConnection, c: ClientConnection, d: ClientConnection, p: Proxy)
    ensures Registry(map[3 := View(Game(3, 2, p), [a, b, null], [1, 2])])
    ensures Disconnect(map[3 := View(Game(3, 2, p), [a, b, null], [1, 2])], 1)
      == map[3 := View(Game(3, 1, p), [b, null], [2])]
    ensures Registry(map[3 := View(Game(3, 1, p), [b, null], [2])])
    ensures Request(map[3 := View(Game(3, 1, p), [b, null], [2])], 3, c, 3, p, true)
      == Step(Slotted, map[3 := View(Game(3, 2, p), [b, c], [2, 3])], None)
    ensures Registry(map[3 := View(Game(3, 2, p), [b, c], [2, 3])])
    ensures Request(map[3 := View(Game(3, 2, p), [b, c], [2, 3])], 3, d, 4, p, true).outcome == IndexOutOfRangePanic
  {
    var v := View(Game(3, 2, p), [a, b, null], [1, 2]);
    assert IndexOf(v.ids, 1) == Some(0);
    assert v.slots[..0] + v.slots[1..] == [b, null];
    assert v.ids[..0] + v.ids[1..] == [2];
    var m := map[3 := v];
    var after := Disconnect(m, 1);
    assert after.Keys == {3};
    var w := View(Game(3, 1, p), [b, null], [2]);
    assert w.slots[1 := c] == [b, c];
    assert w.ids + [3] == [2, 3];
  }
}
