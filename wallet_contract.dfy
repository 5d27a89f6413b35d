/**
 * The wallet's Payment contract: the typed error and the records that every
 * Payment implementation returns. Amounts are exact decimals, modelled as
 * integers in minor units.
 */
module WalletContract {
  import opened Base

  /** A payment failure: a numeric code and a message for the player. */
  datatype PaymentError = PaymentError(code: int, message: string)

  /** One wallet transaction as the history endpoint reports it; time is a number here. */
  datatype TransactionRecord = TransactionRecord(
    id: int,
    playerId: string,
    amount: int,
    transactionType: string,
    balanceAfter: int,
    createdAt: int)

  /** The (balance, *PaymentError) pair that the balance-changing methods return. */
  datatype BalanceReply = BalanceReply(balance: int, err: Option<PaymentError>)

  /** The (records, *PaymentError) pair that GetHistory returns; a nil slice is []. */
  datatype HistoryReply = HistoryReply(records: seq<TransactionRecord>, err: Option<PaymentError>)
}
