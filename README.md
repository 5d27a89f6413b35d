# slot-factory game core, modelled in Dafny

This project models the game back end of slot-factory: a websocket game
server hosting two games behind one game center.

- **Transport.** Clients connect through a websocket hub. The hub is a
  single event loop over register, unregister, inbound and shutdown events.
  It fans each event out to the registered handlers in registration order.
- **Game center.** The hub's one application handler is the game center. It
  indexes connected clients and keeps a registry of games by id. It routes
  decoded client messages: login is followed by a join, and play is passed
  to the game. It also keeps a per-game player counter in Redis.
- **Game 1000, a dice game.** Each bet throws a die. A 1 pays six times the
  bet. Bet and win are settled with the wallet in one all-or-nothing
  DebitAndCredit call.
- **Game 1001, a timed wheel game.** A countdown alternates a 3-second
  Waiting phase and a 10-second Betting phase. During Betting, players add
  to their stakes. When betting closes, a number from 1 to 10 is drawn;
  every positive stake is paid ten times over on a 1, and then reset to
  zero.
- **Wallet and login.** The wallet façade normalises the errors of its
  Payment backend. The only backend here is the in-memory mock, which gives
  a newcomer 100000. The login façade turns the identity service's verdict
  into a player bound to a connection. The mock identity client issues
  numbered users from 1000001 upward.

How the model is built:

- Each Go struct that the source updates in place is a Dafny `class` whose
  methods carry `modifies` clauses. Pure decision logic is written as
  functions.
- The methods are proved against those functions, and the properties are
  proved as lemmas about the functions.
- Randomness (the die, the wheel) and the identity service's reply are
  parameters.
- Messages sent to players and connections are recorded:
  - Game outboxes are sequences of deliveries.
  - The game center records an effect list of kicks, sends, and calls into
    games.
  - The hub records a trace of handler calls.
- Broadcasts that Go performs in map order or from goroutines are specified
  without an order. They promise exactly one copy to each recipient.
- Amounts (`decimal.Decimal`) are exact integers.
- Go `int64` arithmetic is written out where it can overflow, in the
  PingPeriod default.

## Model

| member | source | states |
|---|---|---|
| Base.GameIdOf | backend/internal/gameImp/game1000/game.go:43-54 | the dice game's ID is 1000 and the wheel game's is 1001, and no other kind has either id |
| Decimal.Atoi | backend/internal/application/gamecenter/service.go:287 | strconv.Atoi: in-range values are exact; out-of-range values are clamped to MaxInt64 or MinInt64 and flagged; text whose leading digits (after the sign) exceed 2^64 - 1 is clamped by its sign even if a non-digit follows; any other non-numeric text reads as 0 |
| Decimal.OverflowBeforeNonDigit | backend/internal/application/gamecenter/service.go:287 | digits beyond uint64 followed by a non-digit make Atoi return MaxInt64, or MinInt64 after a '-', with the error set, not 0 |
| Decimal.IntToString | backend/internal/adapter/auth/mock/client.go:24 | strconv.Itoa and `%d`: a '-' exactly for negative numbers, then decimal digits; AtoiItoa and IntToStringInjective state what it computes |
| Decimal.AtoiItoa | backend/internal/adapter/auth/mock/client.go:24 | Atoi reads back exactly the int64 that Itoa printed |
| Decimal.IntToStringInjective | backend/internal/adapter/auth/mock/client.go:23-24 | different numbers print as different decimal texts |
| Decimal.SplitThreeFields | backend/internal/application/gamecenter/service.go:285 | strings.Split of three separator-free fields joined by ':' gives those three fields back |
| Decimal.Split | backend/internal/application/gamecenter/service.go:285 | strings.Split on one separator character: always at least one field; SplitThreeFields and SplitAtSeparator state what it computes |
| Decimal.SplitAtSeparator | backend/internal/application/gamecenter/service.go:285-286 | a text that contains the separator splits into at least two fields, so index 1 exists |
| WalletService.ZeroOnError | backend/internal/application/wallet/service.go:60-67 | GetBalance and Credit return the backend's result unchanged on success, and a zero balance with the same error on failure |
| WalletService.HistoryResult | backend/internal/application/wallet/service.go:96-103 | GetHistory returns the backend's records on success, and no records with the same error on failure |
| WalletService.Service.constructor | backend/internal/application/wallet/service.go:53-58 | the façade wraps the given backend |
| WalletService.Service.GetBalance | backend/internal/application/wallet/service.go:60-67 | exactly one backend GetBalance for this id, whose effect on the table is kept, and its reply normalised by ZeroOnError |
| WalletService.Service.Debit | backend/internal/application/wallet/service.go:69-76 | exactly one backend Debit, whose balance is forwarded even alongside an error |
| WalletService.Service.Credit | backend/internal/application/wallet/service.go:78-85 | exactly one backend Credit, whose reply is normalised by ZeroOnError |
| WalletService.Service.DebitAndCredit | backend/internal/application/wallet/service.go:87-94 | exactly one backend DebitAndCredit, whose balance is forwarded even alongside an error |
| MockWallet.Lookup | backend/internal/adapter/wallet/mock/payment.go:21 | a player's table entry is present exactly when the id is a key, and then it is the stored balance |
| MockWallet.Current | backend/internal/adapter/wallet/mock/payment.go:21-25 | the balance a player has: the stored one, or 100000 for an id not yet in the table; GetBalanceEntry states it |
| MockWallet.GetBalanceEntry | backend/internal/adapter/wallet/mock/payment.go:20-27 | GetBalance never fails; a known player's balance is returned unchanged, and a newcomer is stored and reported with 100000 |
| MockWallet.DebitEntry | backend/internal/adapter/wallet/mock/payment.go:29-39 | Debit fails with 400 "balance is not enough" and the current balance exactly when the balance is below the amount; otherwise it replies balance - amount; the stored balance is never reduced |
| MockWallet.CreditEntry | backend/internal/adapter/wallet/mock/payment.go:41-46 | Credit never fails and stores and returns balance + amount |
| MockWallet.DebitAndCreditEntry | backend/internal/adapter/wallet/mock/payment.go:48-59 | DebitAndCredit fails, leaving the balance, exactly when the balance is below the debit (so an equal balance is enough); otherwise it stores and returns balance - debit + credit |
| MockWallet.DebitIsNotPersisted | backend/internal/adapter/wallet/mock/payment.go:37-38 | after a successful Debit, GetBalance still reports the balance from before the debit |
| MockWallet.DebitAndCreditIsDebitThenCredit | backend/internal/adapter/wallet/mock/payment.go:48-59 | a successful DebitAndCredit stores what a persisted debit followed by Credit would store |
| MockWallet.MockPayment.constructor | backend/internal/adapter/wallet/mock/payment.go:14-18 | a new backend has an empty table |
| MockWallet.MockPayment.GetBalance | backend/internal/adapter/wallet/mock/payment.go:20-27 | writes only this player's entry, as GetBalanceEntry says |
| MockWallet.MockPayment.Debit | backend/internal/adapter/wallet/mock/payment.go:29-39 | writes only this player's entry, as DebitEntry says |
| MockWallet.MockPayment.Credit | backend/internal/adapter/wallet/mock/payment.go:41-46 | writes only this player's entry, as CreditEntry says |
| MockWallet.MockPayment.DebitAndCredit | backend/internal/adapter/wallet/mock/payment.go:48-59 | writes only this player's entry, as DebitAndCreditEntry says |
| MockAuth.MockUser | backend/internal/adapter/auth/mock/client.go:24-28 | the user issued at counter n has the decimal text of n as its id, and "MockPlayer" + id as its name |
| MockAuth.MockUsersDistinct | backend/internal/adapter/auth/mock/client.go:23-24 | users issued at different counter values have different ids |
| MockAuth.FirstIssuedId | backend/internal/adapter/auth/mock/client.go:16-24 | the first user a fresh client issues is "1000001" |
| MockAuth.AuthClient.constructor | backend/internal/adapter/auth/mock/client.go:16-18 | the counter starts at 1000000 |
| MockAuth.AuthClient.VerifyToken | backend/internal/adapter/auth/mock/client.go:21-30 | ignores the token, never fails, raises the counter by exactly one, and issues the user for the new counter |
| Login.Authenticate | backend/internal/application/login/service.go:54-61 | fails, with the identity service's error, exactly when verification fails; otherwise the player carries the verified id and name and is bound to the given client |
| Login.AuthenticateWithMock | backend/internal/application/login/service.go:54-61 | each authentication makes exactly one VerifyToken call (counter + 1) and yields that call's user |
| Login.TwoLoginsDiffer | backend/internal/application/login/service.go:54-61 | two logins through the mock client both succeed, with different player ids |
| WssConnection.Connection.constructor | backend/pkg/wss/connection.go:31-48 | a new connection has the given fixed id, no tags, and an empty, open send queue |
| WssConnection.Connection.ID | backend/pkg/wss/connection.go:46-48 | the id fixed at construction (no contract of its own) |
| WssConnection.Connection.SetTag | backend/pkg/wss/connection.go:79-83 | overwrites this key and leaves every other key unchanged |
| WssConnection.Connection.GetTag | backend/pkg/wss/connection.go:86-91 | found exactly when the key is set, and then with the stored value, so a get after a set returns that set's value |
| WssConnection.Connection.SendMessage | backend/pkg/wss/connection.go:51-54 | appends the message to the tail of the queue |
| WssConnection.Connection.CloseSend | backend/pkg/wss/hub.go:50-52 | closing the queue marks it closed |
| WssConnection.Connection.WriteRound | backend/pkg/wss/connection.go:121-150 | one write-pump round writes everything queued, in FIFO order, as one frame and empties the queue; on an empty queue it idles while open and sends the close frame once closed |
| WssHub.NotifyCallsEachHandler | backend/pkg/wss/hub.go:46-48 | the i-th call of an event goes to the i-th registered handler |
| WssHub.NotifyCounts | backend/pkg/wss/hub.go:46-62 | one event gives each handler exactly as many calls as it has registrations, and nothing else |
| WssHub.Step | backend/pkg/wss/hub.go:42-72 | one case of the select: register, unregister (only a member, closing its queue), inbound, or shutdown; StepBalanced, InboundKeepsClients and ShutdownIsFinal state its properties |
| WssHub.Run | backend/pkg/wss/hub.go:40-74 | the run loop: Step over the events in order until shutdown; RunBalanced and ClosedAtMostOncePerRegistration state its properties |
| WssHub.StepBalanced | backend/pkg/wss/hub.go:43-71 | each case of the select keeps OnDisconnect calls balanced by OnConnect calls, per handler and client |
| WssHub.RunBalanced | backend/pkg/wss/hub.go:40-74 | with the handler list fixed before the first event, the run loop keeps that balance over any sequence of events |
| WssHub.DisconnectsNeverExceedConnects | backend/pkg/wss/hub.go:43-57 | with the handler list fixed before the first event, whatever the events, no handler sees more OnDisconnect than OnConnect calls for a client |
| WssHub.ClosedAtMostOncePerRegistration | backend/pkg/wss/hub.go:49-70 | a send queue is closed at most once per registration of its connection |
| WssHub.InboundKeepsClients | backend/pkg/wss/hub.go:58-62 | inbound events, from members or not, change neither the client set nor any queue or kick |
| WssHub.ShutdownIsFinal | backend/pkg/wss/hub.go:63-71 | shutdown kicks and closes every live client, empties the set, ends the loop, and no later event is processed |
| WssHub.Hub.constructor | backend/pkg/wss/hub.go:20-30 | a new hub is running with no clients and no handlers |
| WssHub.Hub.RegisterHandler | backend/pkg/wss/hub.go:33-37 | a nil handler is ignored and any other is appended last |
| WssHub.Hub.NotifyAll | backend/pkg/wss/hub.go:46-48 | the loop over the handlers appends exactly one call per handler, in registration order |
| WssHub.Hub.Dispatch | backend/pkg/wss/hub.go:42-72 | one pass of the select performs exactly the step the event calls for |
| WssHub.Hub.ShutdownAll | backend/pkg/wss/hub.go:63-71 | the shutdown loop kicks and closes each live client once and stops the hub |
| WssHub.Hub.RunLoop | backend/pkg/wss/hub.go:40-74 | processes the events in order until shutdown |
| WssServer.Wrap64 | backend/pkg/wss/server.go:33 | int64 wrap-around: the result is in range, equal to the input when the input is in range, and congruent to it modulo 2^64 |
| WssServer.Quo | backend/pkg/wss/server.go:33 | Go's integer division truncates toward zero |
| WssServer.DefaultPingPeriod | backend/pkg/wss/server.go:32-34 | NewServer's PingPeriod: (PongWait * 9) / 10 in int64 arithmetic when unset and PongWait > 0, otherwise as set; the three lemmas below state its properties |
| WssServer.PingPeriodKeptUnlessDefaulted | backend/pkg/wss/server.go:32 | a nonzero PingPeriod, or a zero one with PongWait <= 0, is left unchanged |
| WssServer.DefaultedPingBeforePong | backend/pkg/wss/server.go:32-34 | a defaulted PingPeriod is PongWait*9/10, so 0 <= PingPeriod < PongWait (positive once PongWait >= 2), while PongWait*9 fits in an int64 |
| WssServer.DefaultedPingOverflows | backend/pkg/wss/server.go:33 | beyond that bound the product wraps and the defaulted PingPeriod is negative |
| WssServer.Config.constructor | backend/pkg/wss/server.go:13-20 | a Config holds the six given settings |
| WssServer.Server.constructor | backend/pkg/wss/server.go:30-44 | NewServer defaults PingPeriod in place, writes no other Config field, and starts a fresh running hub |
| Game1000.Dice | backend/internal/gameImp/game1000/game.go:91 | the die shows 1..6 |
| Game1000.Payout | backend/internal/gameImp/game1000/game.go:92-95 | the win is 6 × bet on a 1 and nothing otherwise |
| Game1000.BalanceMessage | backend/internal/gameImp/game1000/game.go:58-73 | get_balance reports success and the balance, or failure with the error message and no balance |
| Game1000.PlayMessage | backend/internal/gameImp/game1000/game.go:96-121 | play_result on success carries bet, win, die and the new balance; on a wallet error it carries only the message and the balance returned with the error |
| Game1000.PlaySettlesOnce | backend/internal/gameImp/game1000/game.go:87-121 | end to end with the mock wallet: a covered bet moves the stored balance by win - bet and reports it; an uncovered one fails with "balance is not enough" and leaves the balance |
| Game1000.NegativeBetRaisesBalance | backend/internal/gameImp/game1000/game.go:87-103 | the bet's sign is never checked: a losing negative bet succeeds and raises the balance by its magnitude |
| Game1000.Game.constructor | backend/internal/gameImp/game1000/game.go:43-49 | a new dice game has id 1000 and uses the given wallet |
| Game1000.Game.ID | backend/internal/gameImp/game1000/game.go:52-54 | ID is 1000 |
| Game1000.Game.AddPlayer | backend/internal/gameImp/game1000/game.go:57-78 | one wallet GetBalance, and one get_balance message to the player |
| Game1000.Game.RemovePlayer | backend/internal/gameImp/game1000/game.go:81-83 | nothing is sent |
| Game1000.Game.Play | backend/internal/gameImp/game1000/game.go:87-122 | exactly one DebitAndCredit(player, bet, win) and one play_result to the player |
| Game1001.TickClock | backend/internal/gameImp/game1001/game.go:191-212 | a tick counts down, and when the count is no longer positive flips Waiting to Betting for 10 or Betting to Waiting for 3; afterwards the countdown is between 1 and 10 |
| Game1001.TickKeepsReachable | backend/internal/gameImp/game1001/game.go:191-217 | ticks keep the clock on its cycle |
| Game1001.FirstTickOpensBetting | backend/internal/gameImp/game1001/game.go:39-46 | the first tick of a fresh game (Waiting, 0) opens betting for 10 at once |
| Game1001.CountsDown | backend/internal/gameImp/game1001/game.go:193-197 | while the countdown stays positive, ticks only count down |
| Game1001.RoundFromBettingStart | backend/internal/gameImp/game1001/game.go:200-210 | from the top of a betting round the clock is back after 13 ticks |
| Game1001.ClockIsPeriodic | backend/internal/gameImp/game1001/game.go:191-217 | every clock on the cycle returns after 13 ticks, so betting opens once every 13 seconds |
| Game1001.WheelNumber | backend/internal/gameImp/game1001/game.go:237 | the wheel shows 1..10 |
| Game1001.Win | backend/internal/gameImp/game1001/game.go:238-254 | the win is 10 × stake on a 1 and nothing otherwise |
| Game1001.Settle | backend/internal/gameImp/game1001/game.go:248-267 | the seats after the draw, each positive stake reset to 0; SettleClearsStakes and PayStakes state its properties |
| Game1001.SettleClearsStakes | backend/internal/gameImp/game1001/game.go:248-267 | with non-negative stakes, settlement zeroes every stake and keeps every seat |
| Game1001.Addressees | backend/internal/gameImp/game1001/game.go:276-280 | the recipients of a run of deliveries, in order |
| Game1001.BroadcastReachesEachOnce | backend/internal/gameImp/game1001/game.go:276-280 | a broadcast gives each addressed player exactly one copy and nobody else any |
| Game1001.Game.constructor | backend/internal/gameImp/game1001/game.go:38-49 | a new game has no players, state Waiting and countdown 0, and is valid |
| Game1001.Game.ID | backend/internal/gameImp/game1001/game.go:52-54 | ID is 1001 |
| Game1001.Game.AllPlayers | backend/internal/gameImp/game1001/game.go:283-289 | lists every seated player exactly once |
| Game1001.Game.Broadcast | backend/internal/gameImp/game1001/game.go:276-280 | one delivery of the message per listed player |
| Game1001.Game.AddPlayer | backend/internal/gameImp/game1001/game.go:57-103 | seats the player with stake 0, overwriting only its own seat; player_joined goes once to every other player and never the newcomer; the newcomer gets the list of exactly the others with their stakes, then the current state |
| Game1001.Game.Others | backend/internal/gameImp/game1001/game.go:71-78 | every seated player but the newcomer, once each, with what the others see of them |
| Game1001.Game.RemovePlayer | backend/internal/gameImp/game1001/game.go:106-119 | deletes only that seat and sends player_left once to each remaining player |
| Game1001.Game.Play | backend/internal/gameImp/game1001/game.go:122-170 | an unknown player is ignored; outside Betting, or with an amount <= 0, only the bettor gets a failure and no stake changes; otherwise the stake grows by the amount, and the bettor's bet_result and everybody's player_bet carry the new total |
| Game1001.Game.SetState | backend/internal/gameImp/game1001/game.go:215-232 | enters the phase for the duration and sends state_update once to each player |
| Game1001.Game.PayStakes | backend/internal/gameImp/game1001/game.go:248-267 | each positive stake gets exactly one win_result for that stake, and the seats come out settled |
| Game1001.Game.RollWheel | backend/internal/gameImp/game1001/game.go:235-273 | settles every stake, sends each positive stake its win_result, then sends the opening number once to each player |
| Game1001.Game.Tick | backend/internal/gameImp/game1001/game.go:191-212 | the clock advances as TickClock says; nothing else happens while the countdown stays positive; the end of Waiting opens betting; the end of Betting settles, announces the number, and returns to Waiting; the game stays valid, with no stake surviving into Waiting |
| GameCenter.PlayerOf | backend/internal/application/gamecenter/service.go:104-106 | the player tag is read exactly when it is set to a player |
| GameCenter.GameOf | backend/internal/application/gamecenter/service.go:180-185 | the game tag is read exactly when it is set to a game id |
| GameCenter.Bump | backend/internal/application/gamecenter/service.go:209-213 | INCR/DECR changes that one game's count by delta and no other |
| GameCenter.ParseCountEntry | backend/internal/application/gamecenter/service.go:285-291 | a scanned key yields its second ':' field as the id, and its value through Atoi: exact when it is an int64, 0 when not numeric, clamped by sign when its leading digits overflow |
| GameCenter.CounterKey | backend/internal/application/gamecenter/service.go:211 | the Redis key "games:<id>:count" of a game's player counter; CounterKeyFields and CounterRoundTrip state its properties |
| GameCenter.CounterKeyFields | backend/internal/application/gamecenter/service.go:19 | a counter key splits into "games", the decimal id and "count" |
| GameCenter.CounterRoundTrip | backend/internal/application/gamecenter/service.go:211 | the key written for a game and its count read back as that game's decimal id and that count |
| GameCenter.ReadGames | backend/internal/application/gamecenter/service.go:283-293 | one GameInfo per scanned key, in scan order |
| GameCenter.RouteOf | backend/internal/application/gamecenter/service.go:110-147 | a malformed outer envelope is kicked; login and play go on only with a decodable payload; everything else is dropped |
| GameCenter.DecidePlay | backend/internal/application/gamecenter/service.go:173-192 | no player tag kicks "Not Login"; no game tag kicks "Not in any game"; an unregistered game kicks "game not found"; otherwise exactly one Play call |
| GameCenter.JoinView | backend/internal/application/gamecenter/service.go:199-216 | an unregistered id only kicks "joinGame game not found"; otherwise AddPlayer, the game tag set to the id, and with Redis that game's count +1; no other count changes |
| GameCenter.LeaveView | backend/internal/application/gamecenter/service.go:218-237 | no game tag does nothing; otherwise RemovePlayer if the game is registered, and with Redis the count -1 even if it is not; tags are never cleared |
| GameCenter.LoginView | backend/internal/application/gamecenter/service.go:149-171 | an empty sid kicks "auth failed: token is missing"; a failed authentication kicks "authentication failed"; neither sets a tag; success sets the player tag and sends auth_success |
| GameCenter.PlayView | backend/internal/application/gamecenter/service.go:173-192 | handlePlay adds exactly the effect DecidePlay picks and changes neither tags nor counter |
| GameCenter.MessageView | backend/internal/application/gamecenter/service.go:110-147 | a malformed envelope kicks "invalid message format" and does nothing else; dropped messages change nothing; after a login, a join is attempted whenever the connection carries a player tag |
| GameCenter.DisconnectView | backend/internal/application/gamecenter/service.go:99-108 | a disconnect leaves the game exactly when a player tag is present |
| GameCenter.MessageKeepsWellTagged | backend/internal/application/gamecenter/service.go:110-147 | the handlers only ever store a player bound to this connection under "player", and a game id under "game" |
| GameCenter.FailedLoginSetsNothing | backend/internal/application/gamecenter/service.go:149-160 | a failed first login sets no tag, leaves the counter, and only kicks |
| GameCenter.FailedReloginStillJoins | backend/internal/application/gamecenter/service.go:131-136 | a failed login on a connection already logged in still joins the requested game as the earlier player |
| GameCenter.JoinThenLeaveRestoresCount | backend/internal/application/gamecenter/service.go:199-237 | a join followed by a leave restores every count, except when the join was refused and an older game tag takes the decrement |
| GameCenter.ReloginLeavesCounterHigh | backend/internal/application/gamecenter/service.go:131-136 | logging in twice and disconnecting leaves the game's count one too high, and the first player is never removed |
| GameCenter.Kicks | backend/internal/application/gamecenter/service.go:334-336 | one kick per listed client, in that order, with the reason |
| GameCenter.Center.constructor | backend/internal/application/gamecenter/service.go:76-91 | a new center has no games, no clients, an empty counter and no effects |
| GameCenter.Center.HandleConnect | backend/internal/application/gamecenter/service.go:93-97 | indexes the client by its id |
| GameCenter.Center.HandleDisconnect | backend/internal/application/gamecenter/service.go:99-108 | drops the client from the index and does what DisconnectView says |
| GameCenter.Center.HandleMessage | backend/internal/application/gamecenter/service.go:110-147 | does what MessageView says and keeps the tags well-formed |
| GameCenter.Center.HandleLogin | backend/internal/application/gamecenter/service.go:149-171 | does what LoginView says |
| GameCenter.Center.HandlePlay | backend/internal/application/gamecenter/service.go:173-192 | does what PlayView says |
| GameCenter.Center.RegisterGame | backend/internal/application/gamecenter/service.go:194-197 | keys the game by its own ID, and a later game replaces an earlier one |
| GameCenter.Center.JoinGame | backend/internal/application/gamecenter/service.go:199-216 | does what JoinView says |
| GameCenter.Center.LeaveGame | backend/internal/application/gamecenter/service.go:218-237 | does what LeaveView says |
| GameCenter.Center.HandleGlobalKickAll | backend/internal/application/gamecenter/service.go:332-337 | kicks exactly the indexed clients, each once, with "api kick !" |

## Left out

- Concurrency is not modelled: mutexes, goroutine sends, channel blocking, the read pump's I/O, the once-a-second ticker loop and Stop. `tick` is an atomic method. In the source, `tick` releases the lock between rollWheel and the switch to Waiting (backend/internal/gameImp/game1001/game.go:205-208). A Play landing in that window would carry a stake into Waiting. The invariant "Waiting ⇒ every stake is zero" in Game1001.Game.Valid therefore holds for the atomic model only.
- Game1001.Game.constructor models the game before its loop's first tick. NewGame starts that loop, and the loop ticks once at once (game.go:176). Game1001.FirstTickOpensBetting states what that tick does.
- Randomness: `rand.IntN` draws are parameters of Game1000.Game.Play and Game1001.Game.Tick.
- Redis I/O is not modelled beyond the counter: the SCAN and pipeline of GetGames (which panic on error), the KickAll publish and the listenControlCommands subscription. The counter is a map from game id to count. Only the key format and GetGames' parse loop are modelled.
- JSON encoding and decoding are not modelled. A client message arrives already decoded, as `GameCenter.Inbound`. The auth_success payload is the formatted text. Envelopes are datatypes.
- Websocket frames, upgrades, the UUID generator and all logging are not modelled. Kicks are recorded as effects.
- The write pump's error returns and pings are not modelled. WssConnection.Connection.WriteRound models one successful round.
- WssConnection.Connection.SendMessage: the source blocks when 256 messages are queued, and panics when the queue is already closed. The model has no capacity bound on the queue and requires it to be open.
- Calls from the game center into a game are recorded as `AddPlayer`, `RemovePlayer` and `Play` effects. They are not executed against the game objects. The game interface is a tagged variant (`Base.GameKind`), and the games are modelled on their own.
- Game 1001 addresses its deliveries by player id rather than by connection. Its win_result carries no balance, because the source never sets that field.
- Game1001.Game.RollWheel computes the settled seats (PayStakes) and then stores them. The source zeroes each stake in place during the loop. The resulting map is the same.
- Game 1001 never calls the wallet. The comment at backend/internal/gameImp/game1001/game.go:25 promises ten times the stake to players who bet on a 1, but rollWheel (game.go:235-273) only computes and reports that win; no balance changes. The model follows the code.
- WssHub.RunBalanced and WssHub.DisconnectsNeverExceedConnects hold for a fixed handler list. A handler registered while clients are live would receive OnDisconnect for connections it never saw connect, so the model does not let RegisterHandler interleave with events. The source registers its one handler (backend/cmd/wsserver/main.go:105) before the server starts accepting connections (main.go:119).
- MockAuth.AuthClient: the counter is an unbounded integer. Go's `counterID++` (backend/internal/adapter/auth/mock/client.go:23) wraps at MaxInt64, so MockAuth.MockUsersDistinct holds in the source only while the counter stays below that.
- The mock Payment backend has no GetHistory. WalletService.HistoryResult states the façade's normalisation for any backend reply. The façade's other methods are composed with the mock.
- The login action strings "login" and "play" are assumed; their Go constants are not part of this model.
- The wiring in the two main programs does not match the callee signatures. The model follows the callee definitions.
- `wss.Config` is declared in two files. The model has one Config.
- Configuration loading, the HTTP handlers, the proxy Payment adapter, the real identity client and the websocket adapter's delegation are not modelled. None of them is game logic.
- Player.Point is not modelled, because nothing in the core reads it.
- GameCenter.ParseCountEntry requires the key to have a second ':' field. The SCAN pattern `games:*:count` guarantees one. With any other key, the source's index panics.
- GameCenter.Center.HandleMessage and the other handlers require well-formed tags. Tags of any other type would panic at the source's type assertions. GameCenter.MessageKeepsWellTagged proves that the handlers themselves never break this.
