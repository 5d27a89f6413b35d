/**
 * Game 1001, the timed multiplayer wheel. A countdown driven by a once-a-second
 * tick alternates a Waiting phase and a Betting phase; players add to a stake
 * while betting, and when betting closes a number from 1 to 10 is drawn and
 * every positive stake is paid ten times over on a 1, then reset to zero.
 * This game computes wins but never talks to the wallet.
 *
 * Outgoing messages are appended to an outbox of deliveries addressed by
 * player id. Broadcasts visit the players in map order and send from
 * goroutines, so a broadcast is specified only as "one copy to each of these
 * players", never by its order.
 */
module Game1001 {
  import opened Base

  const GameId: int := WheelGameId
  const BettingDuration: int := 10
  const WaitingDuration: int := 3
  const WinMultiplier: int := 10
  /** The wheel shows the numbers 1..WheelSize. */
  const WheelSize: int := 10

  const NotBettingError: string := "not in betting state"
  const NonPositiveBetError: string := "bet amount must be positive"

  datatype Phase = Waiting | Betting

  /** What the other players see of a seated player. */
  datatype PlayerInfo = PlayerInfo(id: string, name: string, betAmount: int)

  /** The payloads of the game's messages, one variant per action. */
  datatype Message =
    | PlayerJoined(player: PlayerInfo)
    | PlayerList(players: seq<PlayerInfo>)
    | PlayerLeft(playerId: string)
    | StateUpdate(state: Phase, countdown: int)
    | PlayerBet(playerId: string, betAmount: int, totalBet: int)
    | BetResult(success: bool, error: string, totalBet: int)
    | Opening(number: int)
    | WinResult(betAmount: int, winAmount: int)

  /** A message handed to one player's connection. */
  datatype Delivery = Delivery(to: string, msg: Message)

  /** A seated player and the amount staked in the current round. */
  datatype Seat = Seat(player: Player, stake: int)

  function InfoOf(s: Seat): PlayerInfo
  {
    PlayerInfo(s.player.id, s.player.name, s.stake)
  }

  // ---------------------------------------------------------------- the clock

  datatype Clock = Clock(phase: Phase, countdown: int)

  /**
   * One tick: the countdown drops by one; when it is no longer positive the
   * phase flips, Waiting to Betting for 10 ticks, Betting to Waiting for 3.
   */
  function TickClock(c: Clock): (d: Clock)
    ensures d.phase != c.phase <==> c.countdown <= 1
    ensures d.phase == c.phase ==> d.countdown == c.countdown - 1
    ensures 1 <= d.countdown
    ensures c.countdown <= BettingDuration + 1 ==> d.countdown <= BettingDuration
  {
    if c.countdown - 1 > 0 then Clock(c.phase, c.countdown - 1)
    else if c.phase == Waiting then Clock(Betting, BettingDuration)
    else Clock(Waiting, WaitingDuration)
  }

  function TickN(c: Clock, n: nat): Clock
    decreases n
  {
    if n == 0 then c else TickN(TickClock(c), n - 1)
  }

  /** The clocks a game can show: a fresh game starts at (Waiting, 0). */
  predicate Reachable(c: Clock)
  {
    match c.phase
    case Betting => 1 <= c.countdown <= BettingDuration
    case Waiting => 0 <= c.countdown <= WaitingDuration
  }

  lemma TickKeepsReachable(c: Clock)
    requires Reachable(c)
    ensures Reachable(TickClock(c))
  {
  }

  /** The first tick of a fresh game opens betting at once. */
  lemma FirstTickOpensBetting()
    ensures TickClock(Clock(Waiting, 0)) == Clock(Betting, BettingDuration)
  {
  }

  lemma {:induction false} TickNAdd(c: Clock, a: nat, b: nat)
    ensures TickN(c, a + b) == TickN(TickN(c, a), b)
    decreases a
  {
    if a > 0 {
      TickNAdd(TickClock(c), a - 1, b);
    }
  }

  /** While the countdown stays positive, ticks only count down. */
  lemma {:induction false} CountsDown(c: Clock, k: nat)
    requires k < c.countdown
    ensures TickN(c, k) == Clock(c.phase, c.countdown - k)
    decreases k
  {
    if k > 0 {
      CountsDown(TickClock(c), k - 1);
    }
  }

  /** From the top of a betting round the clock comes back after 13 ticks. */
  lemma RoundFromBettingStart()
    ensures TickN(Clock(Betting, BettingDuration), BettingDuration + WaitingDuration) == Clock(Betting, BettingDuration)
  {
    var b := Clock(Betting, BettingDuration);
    CountsDown(b, 9);
    TickNAdd(b, 9, 1);
    var w := Clock(Waiting, WaitingDuration);
    assert TickN(b, 10) == w;
    CountsDown(w, 2);
    TickNAdd(w, 2, 1);
    assert TickN(w, 3) == b;
    TickNAdd(b, 10, 3);
  }

  /** Ticks from a clock on the cycle to the top of the next betting round. */
  function TicksToBetting(c: Clock): nat
    requires Reachable(c) && c.countdown >= 1
  {
    if c.phase == Betting then c.countdown + WaitingDuration else c.countdown
  }

  lemma {:induction false} ReachesBettingTop(c: Clock)
    requires Reachable(c) && c.countdown >= 1
    ensures TickN(c, TicksToBetting(c)) == Clock(Betting, BettingDuration)
  {
    CountsDown(c, c.countdown - 1);
    TickNAdd(c, c.countdown - 1, 1);
    if c.phase == Betting {
      var w := Clock(Waiting, WaitingDuration);
      assert TickN(c, c.countdown) == w;
      CountsDown(w, 2);
      TickNAdd(w, 2, 1);
      TickNAdd(c, c.countdown, WaitingDuration);
    }
  }

  lemma {:induction false} LeavesBettingTop(c: Clock)
    requires Reachable(c) && c.countdown >= 1
    ensures TickN(Clock(Betting, BettingDuration), BettingDuration + WaitingDuration - TicksToBetting(c)) == c
  {
    var b := Clock(Betting, BettingDuration);
    if c.phase == Betting {
      CountsDown(b, BettingDuration - c.countdown);
    } else {
      CountsDown(b, 9);
      TickNAdd(b, 9, 1);
      CountsDown(Clock(Waiting, WaitingDuration), WaitingDuration - c.countdown);
      TickNAdd(b, 10, WaitingDuration - c.countdown);
    }
  }

  /**
   * The game is periodic: every clock on the cycle returns after one betting
   * round plus one waiting round, so betting opens once every 13 ticks.
   */
  lemma ClockIsPeriodic(c: Clock)
    requires Reachable(c) && c.countdown >= 1
    ensures TickN(c, BettingDuration + WaitingDuration) == c
  {
    var k := TicksToBetting(c);
    ReachesBettingTop(c);
    LeavesBettingTop(c);
    TickNAdd(c, k, BettingDuration + WaitingDuration - k);
  }

  // ----------------------------------------------------------- the settlement

  /** The wheel number for a draw of rand.IntN(10). */
  function WheelNumber(draw: int): (n: int)
    requires 0 <= draw < WheelSize
    ensures 1 <= n <= WheelSize
  {
    draw + 1
  }

  /** The win on a stake: ten times the stake on a 1, nothing otherwise. */
  function Win(stake: int, number: int): (w: int)
    ensures number == 1 ==> w == WinMultiplier * stake
    ensures number != 1 ==> w == 0
  {
    if number == 1 then WinMultiplier * stake else 0
  }

  function SettleSeat(s: Seat): Seat
  {
    if s.stake > 0 then s.(stake := 0) else s
  }

  /** Stakes after the draw: every positive stake is reset, the seats stay. */
  function Settle(players: map<string, Seat>): (r: map<string, Seat>)
  {
    SettledAmong(players, players.Keys)
  }

  /** The seats once the draw has visited the keys in done. */
  function SettledAmong(players: map<string, Seat>, done: set<string>): map<string, Seat>
  {
    map k | k in players :: if k in done then SettleSeat(players[k]) else players[k]
  }

  lemma SettleOneMore(players: map<string, Seat>, done: set<string>, k: string)
    requires k in players
    ensures SettledAmong(players, done + {k}) == SettledAmong(players, done)[k := SettleSeat(players[k])]
  {
  }

  /** With non-negative stakes, settling empties every stake and keeps every seat. */
  lemma SettleClearsStakes(players: map<string, Seat>)
    requires forall k | k in players :: players[k].stake >= 0
    ensures Settle(players).Keys == players.Keys
    ensures forall k | k in players :: Settle(players)[k] == players[k].(stake := 0)
  {
  }

  // ------------------------------------------------------------ the deliveries

  function Addressees(sent: seq<Delivery>): (ids: seq<string>)
    ensures |ids| == |sent| && forall i | 0 <= i < |sent| :: ids[i] == sent[i].to
  {
    if sent == [] then [] else Addressees(sent[..|sent| - 1]) + [sent[|sent| - 1].to]
  }

  /** The ids list each of the keys exactly once, in some order. */
  ghost predicate Enumerates(ids: seq<string>, keys: set<string>)
  {
    Distinct(ids) && Elems(ids) == keys
  }

  /** One copy of msg to each player in to, and to nobody else. */
  ghost predicate IsBroadcast(sent: seq<Delivery>, to: set<string>, msg: Message)
  {
    Enumerates(Addressees(sent), to) && forall i | 0 <= i < |sent| :: sent[i].msg == msg
  }

  /** One win_result for each player with a positive stake, for that stake. */
  ghost predicate IsSettlement(sent: seq<Delivery>, before: map<string, Seat>, number: int)
  {
    Enumerates(Addressees(sent), Staked(before, before.Keys))
    && forall i | 0 <= i < |sent| :: IsWinFor(sent[i], before, number)
  }

  lemma EnumeratesAppend(ids: seq<string>, keys: set<string>, k: string)
    requires Enumerates(ids, keys) && k !in keys
    ensures Enumerates(ids + [k], keys + {k})
  {
    assert Elems(ids + [k]) == Elems(ids) + {k};
  }

  /** The ids of the seats with a positive stake among the given keys. */
  ghost function Staked(before: map<string, Seat>, done: set<string>): set<string>
  {
    set k | k in done && k in before && before[k].stake > 0
  }

  lemma StakedOneMore(before: map<string, Seat>, done: set<string>, k: string)
    requires k in before
    ensures Staked(before, done + {k}) == Staked(before, done) + (if before[k].stake > 0 then {k} else {})
  {
  }

  /**
   * The draw's progress after visiting the seats in done: those seats are
   * settled, and each positive stake among them has had its one win_result.
   */
  ghost predicate PaidSoFar(before: map<string, Seat>, done: set<string>, wins: seq<Delivery>,
                            settled: map<string, Seat>, number: int)
  {
    settled == SettledAmong(before, done)
    && Enumerates(Addressees(wins), Staked(before, done))
    && forall i | 0 <= i < |wins| :: IsWinFor(wins[i], before, number)
  }

  /** One more seat visited by the draw, when it holds a positive stake. */
  lemma PayOne(before: map<string, Seat>, done: set<string>, wins: seq<Delivery>,
               settled: map<string, Seat>, k: string, number: int)
    requires k in before && k !in done && before[k].stake > 0
    requires PaidSoFar(before, done, wins, settled, number)
    ensures PaidSoFar(before, done + {k},
      wins + [Delivery(k, WinResult(before[k].stake, Win(before[k].stake, number)))],
      settled[k := before[k].(stake := 0)], number)
  {
    var d := Delivery(k, WinResult(before[k].stake, Win(before[k].stake, number)));
    SettleOneMore(before, done, k);
    StakedOneMore(before, done, k);
    EnumeratesAppend(Addressees(wins), Staked(before, done), k);
    assert Addressees(wins + [d]) == Addressees(wins) + [k];
  }

  /** One more seat visited by the draw, when it holds no positive stake. */
  lemma SkipOne(before: map<string, Seat>, done: set<string>, wins: seq<Delivery>,
                settled: map<string, Seat>, k: string, number: int)
    requires k in before && k !in done && before[k].stake <= 0
    requires PaidSoFar(before, done, wins, settled, number)
    ensures PaidSoFar(before, done + {k}, wins, settled, number)
  {
    SettleOneMore(before, done, k);
    StakedOneMore(before, done, k);
  }

  /** The win_result owed to the player at d.to for the stake held before the draw. */
  ghost predicate IsWinFor(d: Delivery, before: map<string, Seat>, number: int)
  {
    d.to in before && d.msg == WinResult(before[d.to].stake, Win(before[d.to].stake, number))
  }

  /** A broadcast to everybody in a set, said as "who gets how many copies". */
  lemma BroadcastReachesEachOnce(sent: seq<Delivery>, to: set<string>, msg: Message, p: string)
    requires IsBroadcast(sent, to, msg)
    ensures p in to ==> exists i | 0 <= i < |sent| :: sent[i] == Delivery(p, msg)
    ensures forall i, j | 0 <= i < |sent| && 0 <= j < |sent| && sent[i].to == p && sent[j].to == p :: i == j
    ensures p !in to ==> forall i | 0 <= i < |sent| :: sent[i].to != p
  {
    var ids := Addressees(sent);
    if p in to {
      assert p in Elems(ids);
      var i :| 0 <= i < |ids| && ids[i] == p;
      assert sent[i] == Delivery(p, msg);
    }
    forall i, j | 0 <= i < |sent| && 0 <= j < |sent| && sent[i].to == p && sent[j].to == p
      ensures i == j
    {
      assert ids[i] == ids[j];
    }
    forall i | 0 <= i < |sent|
      ensures sent[i].to != p || p in to
    {
      assert ids[i] in Elems(ids);
    }
  }

  /** listed[i] is what the others see of the seat of notify[i]. */
  ghost predicate ListsSeats(seats: map<string, Seat>, notify: seq<string>, listed: seq<PlayerInfo>)
  {
    |listed| == |notify|
    && forall i | 0 <= i < |listed| :: notify[i] in seats && listed[i] == InfoOf(seats[notify[i]])
  }

  /** One more seat listed by AddPlayer's loop. */
  lemma ListOne(seats: map<string, Seat>, self: string, done: set<string>,
                notify: seq<string>, listed: seq<PlayerInfo>, k: string)
    requires k in seats && k !in done && k != self
    requires Enumerates(notify, done - {self}) && ListsSeats(seats, notify, listed)
    ensures Enumerates(notify + [k], (done + {k}) - {self})
    ensures ListsSeats(seats, notify + [k], listed + [InfoOf(seats[k])])
  {
    EnumeratesAppend(notify, done - {self}, k);
    assert (done + {k}) - {self} == (done - {self}) + {k};
  }

  // ---------------------------------------------------------------- the game

  class Game {
    const id: int := GameId
    /** The seated players, keyed by player id. */
    var players: map<string, Seat>
    var state: Phase
    var countdown: int
    var outbox: seq<Delivery>

    /**
     * Seats are keyed by their player's id, stakes are never negative, the
     * clock is on the cycle, and no stake survives into a Waiting phase.
     */
    ghost predicate Valid()
      reads this
    {
      Reachable(Clock(state, countdown))
      && (forall k | k in players :: players[k].player.id == k && players[k].stake >= 0)
      && (state == Waiting ==> forall k | k in players :: players[k].stake == 0)
    }

    /** NewGame, before its loop's first tick. */
    constructor ()
      ensures Valid()
      ensures players == map[] && state == Waiting && countdown == 0 && outbox == []
    {
      players := map[];
      state := Waiting;
      countdown := 0;
      outbox := [];
    }

    function ID(): (r: int)
      ensures r == WheelGameId
    {
      id
    }

    /** getAllPlayers_unsafe: the ids of all seated players, in map order. */
    method AllPlayers() returns (ids: seq<string>)
      ensures Enumerates(ids, players.Keys)
    {
      ids := [];
      var rest := players.Keys;
      while rest != {}
        invariant rest <= players.Keys
        invariant Enumerates(ids, players.Keys - rest)
        decreases |rest|
      {
        var k :| k in rest;
        EnumeratesAppend(ids, players.Keys - rest, k);
        assert players.Keys - (rest - {k}) == (players.Keys - rest) + {k};
        ids := ids + [k];
        rest := rest - {k};
      }
    }

    /** broadcast: one delivery per listed player. */
    method Broadcast(ids: seq<string>, msg: Message) returns (sent: seq<Delivery>)
      modifies this`outbox
      ensures Addressees(sent) == ids
      ensures forall i | 0 <= i < |sent| :: sent[i].msg == msg
      ensures outbox == old(outbox) + sent
    {
      sent := [];
      var i := 0;
      while i < |ids|
        invariant 0 <= i <= |ids|
        invariant Addressees(sent) == ids[..i]
        invariant forall j | 0 <= j < |sent| :: sent[j].msg == msg
      {
        sent := sent + [Delivery(ids[i], msg)];
        assert ids[..i + 1] == ids[..i] + [ids[i]];
        i := i + 1;
      }
      assert ids[..i] == ids;
      outbox := outbox + sent;
    }

    /**
     * AddPlayer: seats the player with no stake (replacing an earlier seat
     * under the same id), tells the others, and sends the newcomer the list of
     * the others with their stakes, then the current state and countdown.
     */
    method AddPlayer(player: Player) returns (joined: seq<Delivery>, listed: seq<PlayerInfo>)
      requires Valid()
      modifies this`players, this`outbox
      ensures Valid()
      ensures players == old(players)[player.id := Seat(player, 0)]
      ensures IsBroadcast(joined, players.Keys - {player.id}, PlayerJoined(PlayerInfo(player.id, player.name, 0)))
      ensures ListsSeats(players, Addressees(joined), listed)
      ensures outbox == old(outbox) + joined
        + [Delivery(player.id, PlayerList(listed)), Delivery(player.id, StateUpdate(state, countdown))]
    {
      players := players[player.id := Seat(player, 0)];
      var notify;
      notify, listed := Others(player.id);
      joined := Broadcast(notify, PlayerJoined(PlayerInfo(player.id, player.name, 0)));
      outbox := outbox + [Delivery(player.id, PlayerList(listed)), Delivery(player.id, StateUpdate(state, countdown))];
    }

    /** The loop of AddPlayer: every seated player but one, with what the others see of them. */
    method Others(self: string) returns (notify: seq<string>, listed: seq<PlayerInfo>)
      ensures Enumerates(notify, players.Keys - {self})
      ensures ListsSeats(players, notify, listed)
    {
      var seats := players;
      notify, listed := [], [];
      var rest := seats.Keys;
      ghost var done: set<string> := {};
      while rest != {}
        invariant done !! rest && done + rest == seats.Keys
        invariant Enumerates(notify, done - {self}) && ListsSeats(seats, notify, listed)
        decreases |rest|
      {
        var k :| k in rest;
        MoveOne(done, rest, k);
        if k != self {
          ListOne(seats, self, done, notify, listed, k);
          notify := notify + [k];
          listed := listed + [InfoOf(seats[k])];
        } else {
          assert (done + {k}) - {self} == done - {self};
        }
        rest := rest - {k};
        done := done + {k};
      }
    }

    /** RemovePlayer: drops the seat and tells everyone still seated. */
    method RemovePlayer(player: Player) returns (left: seq<Delivery>)
      requires Valid()
      modifies this`players, this`outbox
      ensures Valid()
      ensures players == old(players) - {player.id}
      ensures IsBroadcast(left, players.Keys, PlayerLeft(player.id))
      ensures outbox == old(outbox) + left
    {
      players := players - {player.id};
      var ids := AllPlayers();
      left := Broadcast(ids, PlayerLeft(player.id));
    }

    /**
     * Play: a bet by a seated player during Betting. An unseated player is
     * ignored; outside Betting or with a non-positive amount only the bettor
     * hears of the failure. A good bet grows the stake, the bettor gets the
     * new total and everybody, bettor included, sees the bet.
     */
    method Play(player: Player, amount: int) returns (reply: seq<Delivery>, announced: seq<Delivery>)
      requires Valid()
      modifies this`players, this`outbox
      ensures Valid()
      ensures outbox == old(outbox) + reply + announced
      ensures player.id !in old(players) ==> players == old(players) && reply == [] && announced == []
      ensures player.id in old(players) && state != Betting ==>
        players == old(players) && announced == []
        && reply == [Delivery(player.id, BetResult(false, NotBettingError, 0))]
      ensures player.id in old(players) && state == Betting && amount <= 0 ==>
        players == old(players) && announced == []
        && reply == [Delivery(player.id, BetResult(false, NonPositiveBetError, 0))]
      ensures player.id in old(players) && state == Betting && amount > 0 ==>
        var total := old(players)[player.id].stake + amount;
        players == old(players)[player.id := old(players)[player.id].(stake := total)]
        && reply == [Delivery(player.id, BetResult(true, "", total))]
        && IsBroadcast(announced, players.Keys, PlayerBet(player.id, amount, total))
    {
      reply, announced := [], [];
      if player.id !in players {
        return;
      }
      var seat := players[player.id];
      if state != Betting {
        reply := [Delivery(player.id, BetResult(false, NotBettingError, 0))];
        outbox := outbox + reply;
        return;
      }
      if amount <= 0 {
        reply := [Delivery(player.id, BetResult(false, NonPositiveBetError, 0))];
        outbox := outbox + reply;
        return;
      }
      var total := seat.stake + amount;
      players := players[player.id := seat.(stake := total)];
      var ids := AllPlayers();
      reply := [Delivery(player.id, BetResult(true, "", total))];
      outbox := outbox + reply;
      announced := Broadcast(ids, PlayerBet(player.id, amount, total));
    }

    /** setState_unsafe: enter a phase for a duration and tell everyone. */
    method SetState(next: Phase, duration: int) returns (update: seq<Delivery>)
      modifies this`state, this`countdown, this`outbox
      ensures state == next && countdown == duration
      ensures IsBroadcast(update, players.Keys, StateUpdate(next, duration))
      ensures outbox == old(outbox) + update
    {
      state := next;
      countdown := duration;
      var ids := AllPlayers();
      update := Broadcast(ids, StateUpdate(state, countdown));
    }

    /**
     * The loop of rollWheel over the seats: each positive stake gets its
     * win_result and is reset; every other seat is left alone. The new seats
     * are returned for RollWheel to store.
     */
    method PayStakes(number: int) returns (wins: seq<Delivery>, settled: map<string, Seat>)
      ensures settled == Settle(players)
      ensures IsSettlement(wins, players, number)
    {
      var before := players;
      wins := [];
      settled := before;
      var rest := before.Keys;
      ghost var done: set<string> := {};
      assert PaidSoFar(before, done, wins, settled, number);
      while rest != {}
        invariant done !! rest && done + rest == before.Keys
        invariant PaidSoFar(before, done, wins, settled, number)
        decreases |rest|
      {
        var k :| k in rest;
        MoveOne(done, rest, k);
        var seat := before[k];
        if seat.stake > 0 {
          PayOne(before, done, wins, settled, k, number);
          wins := wins + [Delivery(k, WinResult(seat.stake, Win(seat.stake, number)))];
          settled := settled[k := seat.(stake := 0)];
        } else {
          SkipOne(before, done, wins, settled, k, number);
        }
        rest := rest - {k};
        done := done + {k};
      }
    }

    /**
     * rollWheel: draw the number, send each positive stake its win_result and
     * reset that stake, then broadcast the number to everyone.
     */
    method RollWheel(draw: int) returns (wins: seq<Delivery>, opening: seq<Delivery>)
      requires 0 <= draw < WheelSize
      modifies this`players, this`outbox
      ensures players == Settle(old(players))
      ensures IsSettlement(wins, old(players), WheelNumber(draw))
      ensures IsBroadcast(opening, players.Keys, Opening(WheelNumber(draw)))
      ensures outbox == old(outbox) + wins + opening
    {
      var number := WheelNumber(draw);
      var settled;
      wins, settled := PayStakes(number);
      players := settled;
      outbox := outbox + wins;
      var ids := AllPlayers();
      opening := Broadcast(ids, Opening(number));
    }

    /**
     * tick: count down; when the countdown runs out, either open betting, or
     * settle the round and go back to waiting. The draw is the value
     * rand.IntN(10) would produce.
     */
    method Tick(draw: int) returns (wins: seq<Delivery>, opening: seq<Delivery>, update: seq<Delivery>)
      requires Valid() && 0 <= draw < WheelSize
      modifies this`players, this`state, this`countdown, this`outbox
      ensures Valid()
      ensures Clock(state, countdown) == TickClock(Clock(old(state), old(countdown)))
      ensures outbox == old(outbox) + wins + opening + update
      ensures old(countdown) > 1 ==> players == old(players) && wins == [] && opening == [] && update == []
      ensures old(countdown) <= 1 && old(state) == Waiting ==>
        players == old(players) && wins == [] && opening == []
        && IsBroadcast(update, players.Keys, StateUpdate(Betting, BettingDuration))
      ensures old(countdown) <= 1 && old(state) == Betting ==>
        players.Keys == old(players).Keys
        && (forall k | k in players :: players[k] == old(players)[k].(stake := 0))
        && IsSettlement(wins, old(players), WheelNumber(draw))
        && IsBroadcast(opening, players.Keys, Opening(WheelNumber(draw)))
        && IsBroadcast(update, players.Keys, StateUpdate(Waiting, WaitingDuration))
    {
      wins, opening, update := [], [], [];
      countdown := countdown - 1;
      if countdown > 0 {
        return;
      }
      match state
      case Waiting =>
        update := SetState(Betting, BettingDuration);
      case Betting =>
        SettleClearsStakes(players);
        wins, opening := RollWheel(draw);
        update := SetState(Waiting, WaitingDuration);
    }
  }
}
