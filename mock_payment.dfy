/**
 * The in-memory Payment backend used in mock mode: one balance per player id,
 * created with a default balance the first time the player is looked up.
 *
 * Each operation reads and writes only its own player's entry. The functions
 * below describe an operation on that one entry (its stored value, or None
 * when the player is not in the table yet); the methods of MockPayment apply
 * them to the table.
 */
module MockWallet {
  import opened Base
  import opened WalletContract

  const DefaultBalance: int := 100000
  const NotEnough: PaymentError := PaymentError(400, "balance is not enough")

  /** The table entry of one player, if any. */
  function Lookup(table: map<string, int>, id: string): (stored: Option<int>)
    ensures stored.Some? <==> id in table
    ensures stored.Some? ==> stored.value == table[id]
  {
    if id in table then Some(table[id]) else None
  }

  /** The balance GetBalance reports: the stored one, or the default for a newcomer. */
  function Current(stored: Option<int>): int
  {
    match stored
    case Some(b) => b
    case None => DefaultBalance
  }

  /** What an operation writes back into its player's entry, and what it replies. */
  datatype Entry = Entry(stored: int, reply: BalanceReply)

  /** GetBalance: a newcomer is stored with the default balance; nothing else is written. */
  function GetBalanceEntry(stored: Option<int>): (e: Entry)
    ensures e.reply == BalanceReply(e.stored, None)
    ensures stored.Some? ==> e.stored == stored.value
    ensures stored.None? ==> e.stored == DefaultBalance
  {
    var balance := Current(stored);
    Entry(balance, BalanceReply(balance, None))
  }

  /**
   * Debit: fails with code 400 when the balance is below the amount; otherwise
   * replies with the reduced balance but leaves the stored balance as it was.
   */
  function DebitEntry(stored: Option<int>, amount: int): (e: Entry)
    ensures e.stored == Current(stored)
    ensures e.reply.err.Some? <==> Current(stored) < amount
    ensures e.reply.err.Some? ==> e.reply == BalanceReply(Current(stored), Some(NotEnough))
    ensures e.reply.err.None? ==> e.reply.balance == Current(stored) - amount
  {
    var balance := GetBalanceEntry(stored).stored;
    if balance < amount then Entry(balance, BalanceReply(balance, Some(NotEnough)))
    else Entry(balance, BalanceReply(balance - amount, None))
  }

  /** Credit: stores and replies with the increased balance; never fails. */
  function CreditEntry(stored: Option<int>, amount: int): (e: Entry)
    ensures e.stored == Current(stored) + amount
    ensures e.reply == BalanceReply(e.stored, None)
  {
    var balance := GetBalanceEntry(stored).stored + amount;
    Entry(balance, BalanceReply(balance, None))
  }

  /**
   * DebitAndCredit, all or nothing: with too little balance it fails and the
   * balance stays; otherwise debit and credit land together in one write.
   * A balance equal to the debit is enough.
   */
  function DebitAndCreditEntry(stored: Option<int>, debit: int, credit: int): (e: Entry)
    ensures e.reply.err.Some? <==> Current(stored) < debit
    ensures e.reply.err.Some? ==> e == Entry(Current(stored), BalanceReply(Current(stored), Some(NotEnough)))
    ensures e.reply.err.None? ==> e.stored == Current(stored) - debit + credit
    ensures e.reply.err.None? ==> e.reply == BalanceReply(e.stored, None)
  {
    var balance := GetBalanceEntry(stored).stored;
    if balance < debit then Entry(balance, BalanceReply(balance, Some(NotEnough)))
    else
      var after := balance - debit + credit;
      Entry(after, BalanceReply(after, None))
  }

  /** A successful Debit is not visible to a later GetBalance. */
  lemma DebitIsNotPersisted(stored: Option<int>, amount: int)
    requires Current(stored) >= amount
    ensures DebitEntry(stored, amount).reply.err.None?
    ensures GetBalanceEntry(Some(DebitEntry(stored, amount).stored)).reply.balance
         == DebitEntry(stored, amount).reply.balance + amount
  {
  }

  /**
   * A successful DebitAndCredit has the same effect on the stored balance
   * as a persisted debit followed by Credit of the win.
   */
  lemma DebitAndCreditIsDebitThenCredit(stored: Option<int>, debit: int, credit: int)
    requires Current(stored) >= debit
    ensures DebitAndCreditEntry(stored, debit, credit).stored
         == CreditEntry(Some(DebitEntry(stored, debit).reply.balance), credit).stored
  {
  }

  class MockPayment {
    /** fakeUserBalanceList: player id to balance. */
    var balances: map<string, int>

    /** NewPayment: an empty table. */
    constructor ()
      ensures balances == map[]
    {
      balances := map[];
    }

    method GetBalance(id: string) returns (balance: int, err: Option<PaymentError>)
      modifies this
      ensures var e := GetBalanceEntry(Lookup(old(balances), id));
        balances == old(balances)[id := e.stored] && BalanceReply(balance, err) == e.reply
    {
      if id in balances {
        balance := balances[id];
      } else {
        balance := DefaultBalance;
        balances := balances[id := balance];
      }
      err := None;
    }

    method Debit(id: string, amount: int) returns (balance: int, err: Option<PaymentError>)
      modifies this
      ensures var e := DebitEntry(Lookup(old(balances), id), amount);
        balances == old(balances)[id := e.stored] && BalanceReply(balance, err) == e.reply
    {
      balance, err := GetBalance(id);
      if balance < amount {
        return balance, Some(NotEnough);
      }
      balance := balance - amount;
    }

    method Credit(id: string, amount: int) returns (balance: int, err: Option<PaymentError>)
      modifies this
      ensures var e := CreditEntry(Lookup(old(balances), id), amount);
        balances == old(balances)[id := e.stored] && BalanceReply(balance, err) == e.reply
    {
      balance, err := GetBalance(id);
      balance := balance + amount;
      balances := balances[id := balance];
      err := None;
    }

    method DebitAndCredit(id: string, debit: int, credit: int) returns (balance: int, err: Option<PaymentError>)
      modifies this
      ensures var e := DebitAndCreditEntry(Lookup(old(balances), id), debit, credit);
        balances == old(balances)[id := e.stored] && BalanceReply(balance, err) == e.reply
    {
      balance, err := GetBalance(id);
      if balance < debit {
        return balance, Some(NotEnough);
      }
      balance := balance - debit + credit;
      balances := balances[id := balance];
      err := None;
    }
  }
}
