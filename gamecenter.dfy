/**
 * The game center: the application-level handler behind the websocket hub.
 * It indexes connected clients, keeps the registry of games by id, routes each
 * decoded client message (login, then join; play) and keeps a per-game player
 * counter in Redis, raised on every join and lowered on every leave.
 *
 * A connection's application state lives in its tag store: "player" holds the
 * logged-in player, "game" the id of the game joined. The center's calls into
 * a game (AddPlayer, RemovePlayer, Play), its kicks and the messages it sends
 * are recorded, in order, as effects. The Redis counter is a map from game id
 * to count, written only when Redis is configured.
 *
 * The functions JoinView, LeaveView, LoginView, PlayView, MessageView and
 * DisconnectView state what one handler does to the view a single connection
 * has of the center (its tags, the counter, the effects); the methods of
 * Center carry it out on the center and the connection.
 */
module GameCenter {
  import opened Base
  import opened Decimal
  import Login
  import opened WssConnection

  const PlayerKey: string := "player"
  const GameKey: string := "game"

  const LoginAction: string := "login"
  const PlayAction: string := "play"
  const AuthSuccessAction: string := "auth_success"

  const InvalidFormat: string := "invalid message format"
  const TokenMissing: string := "auth failed: token is missing"
  const AuthFailed: string := "authentication failed"
  const NotLogin: string := "Not Login"
  const NotInGame: string := "Not in any game"
  const GameNotFound: string := "game not found"
  const JoinGameNotFound: string := "joinGame game not found"
  const KickAllReason: string := "api kick !"

  /** The data of a login message. */
  datatype LoginPayload = LoginPayload(sid: string, gameId: int)

  /**
   * A client message after JSON decoding: either the outer envelope does not
   * decode, or it has an action and its data, read both as a login payload
   * and as a play payload (None where that reading fails).
   */
  datatype Inbound =
    | Malformed
    | Decoded(action: string, asLogin: Option<LoginPayload>, asPlay: Option<int>)

  /** What the center does to the outside world. */
  datatype Effect =
    | Kick(client: ConnId, reason: string)
    | Send(client: ConnId, action: string, payload: string)
    | AddPlayer(gameId: int, player: Player)
    | RemovePlayer(gameId: int, player: Player)
    | Play(gameId: int, player: Player, betAmount: int)

  /** The auth_success payload, a JSON text built by formatting. */
  function AuthSuccessPayload(playerId: string): string
  {
    "{\"message\": \"authenticated successfully\", \"playerID\": \"" + playerId + "\"}"
  }

  // ----------------------------------------------------------------- the tags

  /** The player tag, if one is set. */
  function PlayerOf(tags: map<string, TagValue>): (p: Option<Player>)
    ensures p.Some? <==> PlayerKey in tags && tags[PlayerKey].PlayerTag?
    ensures p.Some? ==> p.value == tags[PlayerKey].player
  {
    if PlayerKey in tags && tags[PlayerKey].PlayerTag? then Some(tags[PlayerKey].player) else None
  }

  /** The game tag, if one is set. */
  function GameOf(tags: map<string, TagValue>): (g: Option<int>)
    ensures g.Some? <==> GameKey in tags && tags[GameKey].GameTag?
    ensures g.Some? ==> g.value == tags[GameKey].gameId
  {
    if GameKey in tags && tags[GameKey].GameTag? then Some(tags[GameKey].gameId) else None
  }

  /**
   * The tags as the center leaves them: "player" holds a player bound to this
   * connection and "game" a game id (a type assertion in the source panics
   * on anything else).
   */
  predicate WellTagged(tags: map<string, TagValue>, client: ConnId)
  {
    (PlayerKey in tags ==> tags[PlayerKey].PlayerTag? && tags[PlayerKey].player.client == client)
    && (GameKey in tags ==> tags[GameKey].GameTag?)
  }

  // -------------------------------------------------------------- the counter

  /** A missing Redis key reads as 0. */
  function CountOf(counter: map<int, int>, id: int): int
  {
    if id in counter then counter[id] else 0
  }

  /** INCR / DECR of one game's key. */
  function Bump(counter: map<int, int>, id: int, delta: int): (c: map<int, int>)
    ensures CountOf(c, id) == CountOf(counter, id) + delta
    ensures forall other | other != id :: CountOf(c, other) == CountOf(counter, other)
  {
    counter[id := CountOf(counter, id) + delta]
  }

  /** The Redis key of a game's player count: games:<id>:count. */
  function CounterKey(id: int): string
  {
    "games:" + IntToString(id) + ":count"
  }

  /** A game's entry in the games list. */
  datatype GameInfo = GameInfo(id: string, playerCount: int)

  /**
   * One scanned key and its value as GetGames reads them: the id is the
   * second ':' field of the key, the count the value through Atoi with its
   * error ignored. The scan pattern games:*:count guarantees the field.
   */
  function ParseCountEntry(key: string, value: string): (g: GameInfo)
    requires |Split(key, ':')| >= 2
    ensures g.id == Split(key, ':')[1]
    ensures ParseInteger(value).None? && !Overflows(value) ==> g.playerCount == 0
    ensures ParseInteger(value).None? && Overflows(value) ==> g.playerCount == (if Negative(value) then MinInt64 else MaxInt64)
    ensures Atoi(value).ok ==> g.playerCount == ParseInteger(value).value
  {
    GameInfo(Split(key, ':')[1], Atoi(value).value)
  }

  /** A counter key splits into "games", the decimal id and "count". */
  lemma CounterKeyFields(id: int)
    ensures Split(CounterKey(id), ':') == ["games", IntToString(id), "count"]
  {
    var digits := IntToString(id);
    assert ':' !in digits by {
      forall k | 0 <= k < |digits| ensures digits[k] != ':' {
      }
    }
    var games, count := "games", "count";
    assert ':' !in games && ':' !in count;
    SplitThreeFields(games, digits, count, ':');
    assert CounterKey(id) == games + [':'] + digits + [':'] + count;
  }

  /**
   * The key format and GetGames' parse agree: the entry written for a game
   * reads back as that game's decimal id and its count.
   */
  lemma CounterRoundTrip(id: int, count: int)
    requires MinInt64 <= count <= MaxInt64
    ensures |Split(CounterKey(id), ':')| >= 2
    ensures ParseCountEntry(CounterKey(id), IntToString(count)) == GameInfo(IntToString(id), count)
  {
    CounterKeyFields(id);
    AtoiItoa(count);
  }

  /**
   * The last loop of GetGames: one GameInfo per scanned key, in scan order,
   * from the values the pipeline read for those keys.
   */
  method ReadGames(keys: seq<string>, values: seq<string>) returns (games: seq<GameInfo>)
    requires |keys| == |values|
    requires forall i | 0 <= i < |keys| :: |Split(keys[i], ':')| >= 2
    ensures |games| == |keys|
    ensures forall i | 0 <= i < |keys| :: games[i] == ParseCountEntry(keys[i], values[i])
  {
    games := [];
    var i := 0;
    while i < |keys|
      invariant 0 <= i <= |keys| && |games| == i
      invariant forall j | 0 <= j < i :: games[j] == ParseCountEntry(keys[j], values[j])
    {
      var parts := Split(keys[i], ':');
      var playerCount := Atoi(values[i]).value;
      games := games + [GameInfo(parts[1], playerCount)];
      i := i + 1;
    }
  }

  // ---------------------------------------------------------------- the routes

  datatype Route =
    | KickMalformed
    | Ignore
    | LoginThenJoin(sid: string, gameId: int)
    | PlayBet(betAmount: int)

  /**
   * HandleMessage's switch: an outer envelope that does not decode is kicked;
   * an inner payload that does not decode, or an unknown action, is dropped.
   */
  function RouteOf(msg: Inbound): (r: Route)
    ensures r == KickMalformed <==> msg.Malformed?
    ensures r.LoginThenJoin? <==> msg.Decoded? && msg.action == LoginAction && msg.asLogin.Some?
    ensures r.PlayBet? <==> msg.Decoded? && msg.action == PlayAction && msg.asPlay.Some?
    ensures r.LoginThenJoin? ==> r.sid == msg.asLogin.value.sid && r.gameId == msg.asLogin.value.gameId
    ensures r.PlayBet? ==> r.betAmount == msg.asPlay.value
  {
    match msg
    case Malformed => KickMalformed
    case Decoded(action, asLogin, asPlay) =>
      if action == LoginAction then
        (if asLogin.Some? then LoginThenJoin(asLogin.value.sid, asLogin.value.gameId) else Ignore)
      else if action == PlayAction then
        (if asPlay.Some? then PlayBet(asPlay.value) else Ignore)
      else Ignore
  }

  /**
   * handlePlay's decision: exactly one effect, a kick for each missing piece
   * (player tag, game tag, registered game) or else one Play call.
   */
  function DecidePlay(player: Option<Player>, game: Option<int>, games: set<int>, client: ConnId, bet: int): (e: Effect)
    ensures e.Play? <==> player.Some? && game.Some? && game.value in games
    ensures e.Play? ==> e == Play(game.value, player.value, bet)
    ensures player.None? ==> e == Kick(client, NotLogin)
    ensures player.Some? && game.None? ==> e == Kick(client, NotInGame)
    ensures player.Some? && game.Some? && game.value !in games ==> e == Kick(player.value.client, GameNotFound)
  {
    if player.None? then Kick(client, NotLogin)
    else if game.None? then Kick(client, NotInGame)
    else if game.value !in games then Kick(player.value.client, GameNotFound)
    else Play(game.value, player.value, bet)
  }

  // ------------------------------------------------- one connection's view

  /** The part of the center one connection sees and changes. */
  datatype View = View(tags: map<string, TagValue>, counter: map<int, int>, effects: seq<Effect>)

  /**
   * joinGame: an unregistered id only kicks. Otherwise the game gets the
   * player, the game tag is set to the id and, with Redis, its count rises.
   */
  function JoinView(v: View, games: set<int>, redis: bool, gameId: int, player: Player): (w: View)
    ensures gameId !in games ==>
      w.tags == v.tags && w.counter == v.counter && w.effects == v.effects + [Kick(player.client, JoinGameNotFound)]
    ensures gameId in games ==> w.effects == v.effects + [AddPlayer(gameId, player)]
    ensures gameId in games ==>
      (GameOf(w.tags) == Some(gameId)
       && forall k | k != GameKey :: (k in w.tags <==> k in v.tags) && (k in v.tags ==> w.tags[k] == v.tags[k]))
    ensures gameId in games && redis ==> CountOf(w.counter, gameId) == CountOf(v.counter, gameId) + 1
    ensures forall id | !(gameId in games && redis && id == gameId) :: CountOf(w.counter, id) == CountOf(v.counter, id)
  {
    if gameId !in games then v.(effects := v.effects + [Kick(player.client, JoinGameNotFound)])
    else
      View(v.tags[GameKey := GameTag(gameId)],
           if redis then Bump(v.counter, gameId, 1) else v.counter,
           v.effects + [AddPlayer(gameId, player)])
  }

  /**
   * leaveGame: without a game tag nothing happens. With one, the game loses
   * the player if it is registered, and with Redis the count drops whether
   * or not it is. The tags are never touched.
   */
  function LeaveView(v: View, games: set<int>, redis: bool, player: Player): (w: View)
    ensures w.tags == v.tags
    ensures GameOf(v.tags).None? ==> w == v
    ensures GameOf(v.tags).Some? ==> var id := GameOf(v.tags).value;
      w.effects == v.effects + (if id in games then [RemovePlayer(id, player)] else [])
      && CountOf(w.counter, id) == CountOf(v.counter, id) - (if redis then 1 else 0)
      && forall other | other != id :: CountOf(w.counter, other) == CountOf(v.counter, other)
  {
    match GameOf(v.tags)
    case None => v
    case Some(id) =>
      v.(counter := if redis then Bump(v.counter, id, -1) else v.counter,
         effects := v.effects + (if id in games then [RemovePlayer(id, player)] else []))
  }

  /**
   * handleLogin: an empty token or a failed authentication kicks and sets
   * nothing; a success stores the player, bound to this connection, under
   * the player tag and sends it auth_success.
   */
  function LoginView(v: View, sid: string, reply: VerifyReply, client: ConnId): (w: View)
    ensures w.counter == v.counter
    ensures sid == "" ==> w == v.(effects := v.effects + [Kick(client, TokenMissing)])
    ensures sid != "" && reply.VerifyFailed? ==> w == v.(effects := v.effects + [Kick(client, AuthFailed)])
    ensures sid != "" && reply.Verified? ==>
      var p := Player(reply.data.id, reply.data.name, client);
      PlayerOf(w.tags) == Some(p)
      && w.tags == v.tags[PlayerKey := PlayerTag(p)]
      && w.effects == v.effects + [Send(client, AuthSuccessAction, AuthSuccessPayload(p.id))]
  {
    if sid == "" then v.(effects := v.effects + [Kick(client, TokenMissing)])
    else match Login.Authenticate(reply, client)
      case AuthFailed(_) => v.(effects := v.effects + [Kick(client, AuthFailed)])
      case Authenticated(p) =>
        v.(tags := v.tags[PlayerKey := PlayerTag(p)],
           effects := v.effects + [Send(p.client, AuthSuccessAction, AuthSuccessPayload(p.id))])
  }

  /** handlePlay: the one effect DecidePlay picks; tags and counter stay. */
  function PlayView(v: View, games: set<int>, client: ConnId, bet: int): (w: View)
    ensures w.tags == v.tags && w.counter == v.counter
    ensures w.effects == v.effects + [DecidePlay(PlayerOf(v.tags), GameOf(v.tags), games, client, bet)]
  {
    v.(effects := v.effects + [DecidePlay(PlayerOf(v.tags), GameOf(v.tags), games, client, bet)])
  }

  /**
   * HandleMessage. After a login message the join is attempted whenever the
   * connection carries a player tag, whether this login set it or an
   * earlier one did.
   */
  function MessageView(v: View, games: set<int>, redis: bool, client: ConnId, msg: Inbound, reply: VerifyReply): (w: View)
    ensures msg.Malformed? ==> w == v.(effects := v.effects + [Kick(client, InvalidFormat)])
    ensures RouteOf(msg) == Ignore ==> w == v
    ensures RouteOf(msg).PlayBet? ==> w == PlayView(v, games, client, RouteOf(msg).betAmount)
    ensures RouteOf(msg).LoginThenJoin? ==>
      var after := LoginView(v, RouteOf(msg).sid, reply, client);
      w == (if PlayerOf(after.tags).Some? then JoinView(after, games, redis, RouteOf(msg).gameId, PlayerOf(after.tags).value) else after)
  {
    match RouteOf(msg)
    case KickMalformed => v.(effects := v.effects + [Kick(client, InvalidFormat)])
    case Ignore => v
    case PlayBet(bet) => PlayView(v, games, client, bet)
    case LoginThenJoin(sid, gameId) =>
      var after := LoginView(v, sid, reply, client);
      match PlayerOf(after.tags)
      case None => after
      case Some(p) => JoinView(after, games, redis, gameId, p)
  }

  /** HandleDisconnect, for the connection's view: a logged-in player leaves its game. */
  function DisconnectView(v: View, games: set<int>, redis: bool): (w: View)
    ensures PlayerOf(v.tags).None? ==> w == v
    ensures PlayerOf(v.tags).Some? ==> w == LeaveView(v, games, redis, PlayerOf(v.tags).value)
  {
    match PlayerOf(v.tags)
    case None => v
    case Some(p) => LeaveView(v, games, redis, p)
  }

  // ------------------------------------------------------------- properties

  lemma LoginKeepsWellTagged(v: View, sid: string, reply: VerifyReply, client: ConnId)
    requires WellTagged(v.tags, client)
    ensures WellTagged(LoginView(v, sid, reply, client).tags, client)
  {
  }

  lemma JoinKeepsWellTagged(v: View, games: set<int>, redis: bool, gameId: int, player: Player, client: ConnId)
    requires WellTagged(v.tags, client)
    ensures WellTagged(JoinView(v, games, redis, gameId, player).tags, client)
  {
    if gameId in games {
      assert JoinView(v, games, redis, gameId, player).tags == v.tags[GameKey := GameTag(gameId)];
    }
  }

  /** The handlers keep the tags well-formed. */
  lemma MessageKeepsWellTagged(v: View, games: set<int>, redis: bool, client: ConnId, msg: Inbound, reply: VerifyReply)
    requires WellTagged(v.tags, client)
    ensures WellTagged(MessageView(v, games, redis, client, msg, reply).tags, client)
  {
    match RouteOf(msg)
    case LoginThenJoin(sid, gameId) =>
      var after := LoginView(v, sid, reply, client);
      LoginKeepsWellTagged(v, sid, reply, client);
      if PlayerOf(after.tags).Some? {
        JoinKeepsWellTagged(after, games, redis, gameId, PlayerOf(after.tags).value, client);
      }
    case _ =>
  }

  /** A login that fails leaves no player tag behind and never reaches the counter. */
  lemma FailedLoginSetsNothing(v: View, games: set<int>, redis: bool, client: ConnId, sid: string, gameId: int, reply: VerifyReply)
    requires sid == "" || reply.VerifyFailed?
    requires PlayerOf(v.tags).None?
    ensures var w := MessageView(v, games, redis, client, Decoded(LoginAction, Some(LoginPayload(sid, gameId)), None), reply);
      w.tags == v.tags && w.counter == v.counter && |w.effects| == |v.effects| + 1 && w.effects[|v.effects|].Kick?
  {
  }

  /**
   * A login that fails on a connection already logged in still joins the
   * requested game as the earlier player: the join follows the stale tag.
   */
  lemma FailedReloginStillJoins(v: View, games: set<int>, redis: bool, client: ConnId, gameId: int, reply: VerifyReply, p: Player)
    requires reply.VerifyFailed? && PlayerOf(v.tags) == Some(p) && gameId in games
    ensures var w := MessageView(v, games, redis, client, Decoded(LoginAction, Some(LoginPayload("t", gameId)), None), reply);
      GameOf(w.tags) == Some(gameId)
      && w.effects == v.effects + [Kick(client, AuthFailed), AddPlayer(gameId, p)]
  {
  }

  /** A join followed by a leave puts every count back where it was. */
  lemma JoinThenLeaveRestoresCount(v: View, games: set<int>, redis: bool, gameId: int, p: Player, id: int)
    ensures CountOf(LeaveView(JoinView(v, games, redis, gameId, p), games, redis, p).counter, id)
         == CountOf(v.counter, id)
            - (if gameId !in games && GameOf(v.tags).Some? && GameOf(v.tags).value == id && redis then 1 else 0)
  {
  }

  /**
   * Logging in twice on one connection counts the game twice but the
   * disconnect takes one off: the counter keeps one player too many, and the
   * first player is added to the game and never removed.
   */
  lemma ReloginLeavesCounterHigh(games: set<int>, gameId: int, client: ConnId, counter: map<int, int>, u1: UserData, u2: UserData)
    requires gameId in games
    ensures
      var login := Decoded(LoginAction, Some(LoginPayload("token", gameId)), None);
      var v1 := MessageView(View(map[], counter, []), games, true, client, login, Verified(u1));
      var v2 := MessageView(v1, games, true, client, login, Verified(u2));
      var v3 := DisconnectView(v2, games, true);
      var p1 := Player(u1.id, u1.name, client);
      var p2 := Player(u2.id, u2.name, client);
      CountOf(v3.counter, gameId) == CountOf(counter, gameId) + 1
      && v3.effects == [Send(client, AuthSuccessAction, AuthSuccessPayload(u1.id)), AddPlayer(gameId, p1),
                        Send(client, AuthSuccessAction, AuthSuccessPayload(u2.id)), AddPlayer(gameId, p2),
                        RemovePlayer(gameId, p2)]
  {
  }

  /** One Kick effect per listed client, in the listed order. */
  function Kicks(clients: seq<ConnId>, reason: string): (ks: seq<Effect>)
    ensures |ks| == |clients|
    ensures forall i | 0 <= i < |clients| :: ks[i] == Kick(clients[i], reason)
  {
    if clients == [] then [] else Kicks(clients[..|clients| - 1], reason) + [Kick(clients[|clients| - 1], reason)]
  }

  lemma KicksAppend(clients: seq<ConnId>, c: ConnId, reason: string)
    ensures Kicks(clients + [c], reason) == Kicks(clients, reason) + [Kick(c, reason)]
  {
    assert (clients + [c])[..|clients|] == clients;
  }

  lemma KickOneMore(kicked: seq<ConnId>, clients: set<ConnId>, rest: set<ConnId>, c: ConnId)
    requires c in rest && rest <= clients
    requires Distinct(kicked) && Elems(kicked) == clients - rest
    ensures Distinct(kicked + [c]) && Elems(kicked + [c]) == clients - (rest - {c})
    ensures Kicks(kicked + [c], KickAllReason) == Kicks(kicked, KickAllReason) + [Kick(c, KickAllReason)]
  {
    DistinctAppend(kicked, c);
    KicksAppend(kicked, c, KickAllReason);
  }

  // ---------------------------------------------------------------- the center

  class Center {
    /** games: the registry, keyed by the game's own ID(). */
    var games: map<int, GameKind>
    /** clientList: the connected clients, by connection id. */
    var clients: set<ConnId>
    /** The Redis player counters. */
    var counter: map<int, int>
    /** Whether a Redis client was configured. */
    const redisEnabled: bool
    var effects: seq<Effect>

    function ViewOf(conn: Connection): View
      reads this, conn
    {
      View(conn.tags, counter, effects)
    }

    /** NewService. */
    constructor (redisEnabled: bool)
      ensures this.redisEnabled == redisEnabled
      ensures games == map[] && clients == {} && counter == map[] && effects == []
    {
      this.redisEnabled := redisEnabled;
      games, clients, counter, effects := map[], {}, map[], [];
    }

    method HandleConnect(conn: Connection)
      modifies this`clients
      ensures clients == old(clients) + {conn.id}
    {
      clients := clients + {conn.id};
    }

    method HandleDisconnect(conn: Connection)
      requires WellTagged(conn.tags, conn.id)
      modifies this`clients, this`counter, this`effects
      ensures clients == old(clients) - {conn.id}
      ensures ViewOf(conn) == DisconnectView(old(ViewOf(conn)), games.Keys, redisEnabled)
    {
      clients := clients - {conn.id};
      var tag, found := conn.GetTag(PlayerKey);
      if tag.Some? {
        LeaveGame(tag.value.player, conn);
      }
    }

    method HandleMessage(conn: Connection, msg: Inbound, reply: VerifyReply)
      requires WellTagged(conn.tags, conn.id)
      modifies this`counter, this`effects, conn`tags
      ensures WellTagged(conn.tags, conn.id)
      ensures ViewOf(conn) == MessageView(old(ViewOf(conn)), games.Keys, redisEnabled, conn.id, msg, reply)
    {
      match msg
      case Malformed =>
        effects := effects + [Kick(conn.id, InvalidFormat)];
      case Decoded(action, asLogin, asPlay) =>
        if action == LoginAction {
          if asLogin.None? {
            return;
          }
          HandleLogin(conn, asLogin.value.sid, reply);
          var tag, found := conn.GetTag(PlayerKey);
          if tag.Some? {
            JoinGame(asLogin.value.gameId, tag.value.player, conn);
          }
        } else if action == PlayAction {
          if asPlay.None? {
            return;
          }
          HandlePlay(conn, asPlay.value);
        }
    }

    /** handleLogin; reply is what the identity service says about sid. */
    method HandleLogin(conn: Connection, sid: string, reply: VerifyReply)
      requires WellTagged(conn.tags, conn.id)
      modifies this`effects, conn`tags
      ensures WellTagged(conn.tags, conn.id)
      ensures ViewOf(conn) == LoginView(old(ViewOf(conn)), sid, reply, conn.id)
    {
      if sid == "" {
        effects := effects + [Kick(conn.id, TokenMissing)];
        return;
      }
      var result := Login.Authenticate(reply, conn.id);
      if result.AuthFailed? {
        effects := effects + [Kick(conn.id, AuthFailed)];
        return;
      }
      var player := result.player;
      conn.SetTag(PlayerKey, PlayerTag(player));
      effects := effects + [Send(player.client, AuthSuccessAction, AuthSuccessPayload(player.id))];
    }

    method HandlePlay(conn: Connection, bet: int)
      requires WellTagged(conn.tags, conn.id)
      modifies this`effects
      ensures ViewOf(conn) == PlayView(old(ViewOf(conn)), games.Keys, conn.id, bet)
    {
      var tag, found := conn.GetTag(PlayerKey);
      if tag.None? {
        effects := effects + [Kick(conn.id, NotLogin)];
        return;
      }
      var player := tag.value.player;
      var gameTag, inGame := conn.GetTag(GameKey);
      if !inGame {
        effects := effects + [Kick(conn.id, NotInGame)];
        return;
      }
      var gameId := gameTag.value.gameId;
      if gameId !in games {
        effects := effects + [Kick(player.client, GameNotFound)];
        return;
      }
      effects := effects + [Play(gameId, player, bet)];
    }

    /** RegisterGame: keyed by the game's ID(); a later game replaces an earlier one. */
    method RegisterGame(game: GameKind)
      modifies this`games
      ensures games == old(games)[GameIdOf(game) := game]
    {
      games := games[GameIdOf(game) := game];
    }

    /** joinGame; conn is the connection the player is bound to. */
    method JoinGame(gameId: int, player: Player, conn: Connection)
      requires conn.id == player.client && WellTagged(conn.tags, conn.id)
      modifies this`counter, this`effects, conn`tags
      ensures WellTagged(conn.tags, conn.id)
      ensures ViewOf(conn) == JoinView(old(ViewOf(conn)), games.Keys, redisEnabled, gameId, player)
    {
      if gameId !in games {
        effects := effects + [Kick(player.client, JoinGameNotFound)];
        return;
      }
      effects := effects + [AddPlayer(gameId, player)];
      conn.SetTag(GameKey, GameTag(gameId));
      if redisEnabled {
        counter := Bump(counter, gameId, 1);
      }
    }

    /** leaveGame; conn is the connection the player is bound to. */
    method LeaveGame(player: Player, conn: Connection)
      requires conn.id == player.client && WellTagged(conn.tags, conn.id)
      modifies this`counter, this`effects
      ensures ViewOf(conn) == LeaveView(old(ViewOf(conn)), games.Keys, redisEnabled, player)
    {
      var tag, found := conn.GetTag(GameKey);
      if !found {
        return;
      }
      var gameId := tag.value.gameId;
      if gameId in games {
        effects := effects + [RemovePlayer(gameId, player)];
      }
      if redisEnabled {
        counter := Bump(counter, gameId, -1);
      }
    }

    /** handleGlobalKickAll: every indexed client is kicked once, in map order. */
    method HandleGlobalKickAll() returns (kicked: seq<ConnId>)
      modifies this`effects
      ensures Distinct(kicked) && Elems(kicked) == clients
      ensures effects == old(effects) + Kicks(kicked, KickAllReason)
    {
      kicked := [];
      var rest := clients;
      while rest != {}
        invariant rest <= clients
        invariant Distinct(kicked) && Elems(kicked) == clients - rest
        invariant effects == old(effects) + Kicks(kicked, KickAllReason)
        decreases |rest|
      {
        var c :| c in rest;
        KickOneMore(kicked, clients, rest, c);
        effects := effects + [Kick(c, KickAllReason)];
        kicked := kicked + [c];
        rest := rest - {c};
      }
    }
  }
}
