/**
 * The wallet service: a façade that forwards each call once to the Payment
 * backend and normalises what it returns on error. The functions state the
 * normalisation for any backend reply; the Service class applies it to the
 * mock backend, the only Payment implementation in this model.
 */
module WalletService {
  import opened Base
  import opened WalletContract
  import opened MockWallet

  /** GetBalance and Credit: an error is returned with a zero balance. */
  function ZeroOnError(backend: BalanceReply): (r: BalanceReply)
    ensures r.err == backend.err
    ensures r.err.None? ==> r.balance == backend.balance
    ensures r.err.Some? ==> r.balance == 0
  {
    match backend.err
    case None => backend
    case Some(e) => BalanceReply(0, Some(e))
  }

  /** GetHistory: an error is returned with no records. */
  function HistoryResult(backend: HistoryReply): (r: HistoryReply)
    ensures r.err == backend.err
    ensures r.err.None? ==> r.records == backend.records
    ensures r.err.Some? ==> r.records == []
  {
    match backend.err
    case None => backend
    case Some(e) => HistoryReply([], Some(e))
  }

  class Service {
    const payment: MockPayment

    /** NewService: wraps the given backend. */
    constructor (payment: MockPayment)
      ensures this.payment == payment
    {
      this.payment := payment;
    }

    method GetBalance(id: string) returns (balance: int, err: Option<PaymentError>)
      modifies payment
      ensures var e := GetBalanceEntry(Lookup(old(payment.balances), id));
        payment.balances == old(payment.balances)[id := e.stored]
        && BalanceReply(balance, err) == ZeroOnError(e.reply)
    {
      var b, e := payment.GetBalance(id);
      var r := ZeroOnError(BalanceReply(b, e));
      balance, err := r.balance, r.err;
    }

    /** Debit forwards the backend's balance even on error. */
    method Debit(id: string, amount: int) returns (balance: int, err: Option<PaymentError>)
      modifies payment
      ensures var e := DebitEntry(Lookup(old(payment.balances), id), amount);
        payment.balances == old(payment.balances)[id := e.stored]
        && BalanceReply(balance, err) == e.reply
    {
      balance, err := payment.Debit(id, amount);
    }

    method Credit(id: string, amount: int) returns (balance: int, err: Option<PaymentError>)
      modifies payment
      ensures var e := CreditEntry(Lookup(old(payment.balances), id), amount);
        payment.balances == old(payment.balances)[id := e.stored]
        && BalanceReply(balance, err) == ZeroOnError(e.reply)
    {
      var b, e := payment.Credit(id, amount);
      var r := ZeroOnError(BalanceReply(b, e));
      balance, err := r.balance, r.err;
    }

    /** DebitAndCredit forwards the backend's balance even on error. */
    method DebitAndCredit(id: string, debit: int, credit: int) returns (balance: int, err: Option<PaymentError>)
      modifies payment
      ensures var e := DebitAndCreditEntry(Lookup(old(payment.balances), id), debit, credit);
        payment.balances == old(payment.balances)[id := e.stored]
        && BalanceReply(balance, err) == e.reply
    {
      balance, err := payment.DebitAndCredit(id, debit, credit);
    }
  }
}
