/**
 * The transactions the statement parsers build: a `Transaction(...)` call
 * with dates as day ordinals and amounts in cents, and what the dataclass
 * constructor makes of it.
 */
module Records {
  import opened Wrappers
  import opened Validation

  /** The `balance` argument of a call: left out, passed as None, or passed as an amount. */
  datatype BalanceArg = Omitted | PassedNone | PassedCents(cents: int)

  /** The arguments of one `Transaction(...)` call; a `None` transaction date is one left out. */
  datatype Txn = Txn(postingDate: int, transactionDate: Option<int>, amount: int, balance: BalanceArg, desc: string)

  /** The `Account(...)` a parser returns: its number, balances and transactions. */
  datatype AccountData = AccountData(accountNum: string, startBalance: int, endBalance: int, transactions: seq<Txn>)

  /** The `Statement(...)` a parser returns: the period and its accounts. */
  datatype StatementData = StatementData(startDate: int, endDate: int, accounts: seq<AccountData>)

  function BalanceValue(b: BalanceArg): Option<Dyn> {
    match b
    case Omitted => None
    case PassedNone => Some(NoneValue)
    case PassedCents(c) => Some(Float(c))
  }

  /** The call's keyword arguments as the constructor receives them. */
  function AsCall(t: Txn): Call {
    Call(Some(DateTime(t.postingDate)), Some(Float(t.amount)),
         BalanceValue(t.balance),
         Some(Str(t.desc)),
         if t.transactionDate.Some? then Some(DateTime(t.transactionDate.value)) else None)
  }

  /** With `balance` defaulting to None, every parsed call builds the transaction it describes. */
  lemma Builds(t: Txn)
    ensures NewTransaction(AsCall(t)).Ok?
    ensures var v := NewTransaction(AsCall(t)).value;
            && v.postingDate == DateTime(t.postingDate) && v.amount == Float(t.amount) && v.desc == Str(t.desc)
            && v.balance == (if t.balance.PassedCents? then Float(t.balance.cents) else NoneValue)
            && v.transactionDate == (if t.transactionDate.Some? then DateTime(t.transactionDate.value) else NoneValue)
  {
  }

  /** As declared, a call that leaves out `balance` raises TypeError, whatever its other arguments. */
  lemma WithoutBalanceRaises(t: Txn)
    requires t.balance.Omitted?
    ensures NewTransactionAsWritten(AsCall(t)) == Err(TypeError)
  {
  }
}
