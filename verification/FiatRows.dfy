/** Fiat deposits and withdrawals: the guarded statements on their rows. */
module FiatRows {
  import opened Common

  datatype Status = Pending | Processing | Completed | Failed

  datatype Deposit = Deposit(wallet: string, fiatAmount: int, fiatCurrency: string, credit: int, status: Status)

  datatype Withdrawal = Withdrawal(wallet: string, debit: int, status: Status)

  /** Amount and currency as the provider reports them, and what it says became of the payment. */
  datatype Event = Event(amount: int, currency: string, status: string)

  datatype Transfer = Transfer(from: string, to: string, amount: int)

  const PLATFORM: string := "platform"

  /** Case folding of currency codes. */
  type Folding = string -> string

  predicate Matches(fold: Folding, e: Event, d: Deposit) {
    e.amount == d.fiatAmount && fold(e.currency) == fold(d.fiatCurrency)
  }

  // ---- one row under each statement; None where no row is affected ----

  function DepositClaimed(d: Deposit): Option<Deposit> {
    if d.status == Pending then Some(d.(status := Processing)) else None
  }

  function DepositUpdated(d: Deposit, status: Status): Option<Deposit> {
    if d.status in {Completed, Failed} then None else Some(d.(status := status))
  }

  function WithdrawalUpdated(w: Withdrawal, status: Status): Option<Withdrawal> {
    if w.status == Pending then Some(w.(status := status)) else None
  }

  class FiatRepo {
    /** By provider reference. */
    var deposits: map<string, Deposit>
    var withdrawals: map<string, Withdrawal>

    constructor ()
      ensures deposits == map[] && withdrawals == map[]
    {
      deposits, withdrawals := map[], map[];
    }

    method ClaimDepositForProcessing(ref: string) returns (ok: bool)
      modifies this`deposits
      ensures ok <==> ref in old(deposits) && old(deposits)[ref].status == Pending
      ensures deposits == if ok then old(deposits)[ref := old(deposits)[ref].(status := Processing)] else old(deposits)
    {
      ok := ref in deposits && deposits[ref].status == Pending;
      if ok { deposits := deposits[ref := deposits[ref].(status := Processing)]; }
    }

    method UpdateDepositStatus(ref: string, status: Status) returns (ok: bool)
      modifies this`deposits
      ensures ok <==> ref in old(deposits) && old(deposits)[ref].status !in {Completed, Failed}
      ensures deposits == if ok then old(deposits)[ref := old(deposits)[ref].(status := status)] else old(deposits)
    {
      ok := ref in deposits && deposits[ref].status != Completed && deposits[ref].status != Failed;
      if ok { deposits := deposits[ref := deposits[ref].(status := status)]; }
    }

    method UpdateWithdrawalStatus(ref: string, status: Status) returns (ok: bool)
      modifies this`withdrawals
      ensures ok <==> ref in old(withdrawals) && old(withdrawals)[ref].status == Pending
      ensures withdrawals == if ok then old(withdrawals)[ref := old(withdrawals)[ref].(status := status)] else old(withdrawals)
    {
      ok := ref in withdrawals && withdrawals[ref].status == Pending;
      if ok { withdrawals := withdrawals[ref := withdrawals[ref].(status := status)]; }
    }
  }
}
