/**
 * Game 1000, the single-player dice game: a die from 1 to 6 is thrown for
 * every bet, a 1 pays six times the bet, and the bet and the win are settled
 * with the wallet in one DebitAndCredit call. The game keeps no player state;
 * its only effects are the wallet call and the message sent to the player.
 */
module Game1000 {
  import opened Base
  import opened WalletContract
  import opened MockWallet
  import WalletService

  const GameId: int := DiceGameId
  const DiceFaces: int := 6
  const WinMultiplier: int := 6

  /** Payload of get_balance. */
  datatype BalanceResult = BalanceResult(success: bool, error: string, balance: int)

  /** Payload of play_result; fields the source leaves unset are zero. */
  datatype PlayResult = PlayResult(
    success: bool, error: string, betAmount: int, winAmount: int, dice: int, balance: int)

  datatype Message = GetBalanceMsg(balance: BalanceResult) | PlayResultMsg(result: PlayResult)

  /** A message handed to the player's connection. */
  datatype Delivery = Delivery(to: string, msg: Message)

  /** The die for a draw of rand.IntN(6). */
  function Dice(draw: int): (d: int)
    requires 0 <= draw < DiceFaces
    ensures 1 <= d <= DiceFaces
  {
    draw + 1
  }

  /** The win on a bet: six times the bet when the die shows 1, else nothing. */
  function Payout(bet: int, dice: int): (w: int)
    ensures dice == 1 ==> w == WinMultiplier * bet
    ensures dice != 1 ==> w == 0
  {
    if dice == 1 then WinMultiplier * bet else 0
  }

  /** The get_balance payload for the wallet service's reply. */
  function BalanceMessage(reply: BalanceReply): (r: BalanceResult)
    ensures r.success <==> reply.err.None?
    ensures reply.err.None? ==> r == BalanceResult(true, "", reply.balance)
    ensures reply.err.Some? ==> r == BalanceResult(false, reply.err.value.message, 0)
  {
    match reply.err
    case None => BalanceResult(true, "", reply.balance)
    case Some(e) => BalanceResult(false, e.message, 0)
  }

  /**
   * The play_result payload for a throw and the wallet's reply: on success
   * the bet, win, die and new balance; on error only the message and the
   * balance the wallet returned with it.
   */
  function PlayMessage(bet: int, dice: int, reply: BalanceReply): (r: PlayResult)
    ensures r.success <==> reply.err.None?
    ensures r.balance == reply.balance
    ensures reply.err.None? ==> r == PlayResult(true, "", bet, Payout(bet, dice), dice, reply.balance)
    ensures reply.err.Some? ==> r == PlayResult(false, reply.err.value.message, 0, 0, 0, reply.balance)
  {
    match reply.err
    case None => PlayResult(true, "", bet, Payout(bet, dice), dice, reply.balance)
    case Some(e) => PlayResult(false, e.message, 0, 0, 0, reply.balance)
  }

  /**
   * End to end against the mock wallet: a bet the balance covers moves the
   * stored balance by win - bet and reports the new balance; any other bet
   * fails with "balance is not enough", reports the balance and stores it
   * unchanged.
   */
  lemma PlaySettlesOnce(stored: Option<int>, bet: int, dice: int)
    ensures var e := DebitAndCreditEntry(stored, bet, Payout(bet, dice));
      var r := PlayMessage(bet, dice, e.reply);
      (Current(stored) >= bet ==>
         e.stored == Current(stored) - bet + Payout(bet, dice)
         && r == PlayResult(true, "", bet, Payout(bet, dice), dice, e.stored))
      && (Current(stored) < bet ==>
         e.stored == Current(stored)
         && r == PlayResult(false, NotEnough.message, 0, 0, 0, Current(stored)))
  {
  }

  /**
   * The bet's sign is never checked: against any non-negative balance, a
   * negative bet that does not win is accepted and raises the stored balance
   * by its magnitude.
   */
  lemma NegativeBetRaisesBalance(stored: Option<int>, bet: int, dice: int)
    requires bet < 0 && dice != 1 && Current(stored) >= 0
    ensures DebitAndCreditEntry(stored, bet, Payout(bet, dice)).reply.err.None?
    ensures DebitAndCreditEntry(stored, bet, Payout(bet, dice)).stored == Current(stored) + (-bet)
  {
  }

  class Game {
    const id: int := GameId
    const wallet: WalletService.Service
    var outbox: seq<Delivery>

    /** NewGame: the dice game over the given wallet service. */
    constructor (wallet: WalletService.Service)
      ensures id == GameId && this.wallet == wallet && outbox == []
    {
      this.wallet := wallet;
      outbox := [];
    }

    function ID(): (r: int)
      ensures r == DiceGameId
    {
      id
    }

    /** AddPlayer: looks the balance up and tells the player, or tells them the error. */
    method AddPlayer(player: Player)
      modifies this`outbox, wallet.payment
      ensures var e := GetBalanceEntry(Lookup(old(wallet.payment.balances), player.id));
        wallet.payment.balances == old(wallet.payment.balances)[player.id := e.stored]
        && outbox == old(outbox) + [Delivery(player.id, GetBalanceMsg(BalanceMessage(WalletService.ZeroOnError(e.reply))))]
    {
      var balance, err := wallet.GetBalance(player.id);
      outbox := outbox + [Delivery(player.id, GetBalanceMsg(BalanceMessage(BalanceReply(balance, err))))];
    }

    /** RemovePlayer: the dice game keeps no player state, so nothing changes. */
    method RemovePlayer(player: Player)
      ensures outbox == old(outbox)
    {
    }

    /**
     * Play: throws the die (draw is the value rand.IntN(6) would produce),
     * settles bet and win in exactly one DebitAndCredit and reports the result.
     */
    method Play(player: Player, bet: int, draw: int)
      requires 0 <= draw < DiceFaces
      modifies this`outbox, wallet.payment
      ensures var e := DebitAndCreditEntry(Lookup(old(wallet.payment.balances), player.id), bet, Payout(bet, Dice(draw)));
        wallet.payment.balances == old(wallet.payment.balances)[player.id := e.stored]
        && outbox == old(outbox) + [Delivery(player.id, PlayResultMsg(PlayMessage(bet, Dice(draw), e.reply)))]
    {
      var dice := Dice(draw);
      var win := Payout(bet, dice);
      var balance, err := wallet.DebitAndCredit(player.id, bet, win);
      outbox := outbox + [Delivery(player.id, PlayResultMsg(PlayMessage(bet, dice, BalanceReply(balance, err))))];
    }
  }
}
