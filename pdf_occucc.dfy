/**
 * The OCCU credit card plugin of src/plugins/pdf_occucc.py.  The
 * statement's header lines run their labels into the values
 * ("StatementClosingDate 03/31/21"); the period ends on the closing date
 * and spans the billing cycle's days.  The card's balances are negated,
 * its transaction lines are those of CardLines, and the interest charged,
 * shown only in the header, is added as the last transaction, on the
 * closing date.
 */
module PdfOccucc {
  import opened Wrappers
  import opened Text
  import opened Lines
  import opened Helpers
  import opened Ledger
  import opened Records
  import CardLines

  const HeaderDate: string := "%m/%d/%y"
  const ClosingDate: string := "StatementClosingDate"
  const CycleDays: string := "DaysinBillingCycle"
  const AccountPattern: string := "AccountNumber "
  const PreviousBalance: string := "PreviousBalance"
  const NewBalance: string := "NewBalance"
  const InterestCharged: string := "InterestCharged"
  const InterestDesc: string := "Interest Charged"

  /**
   * `get_statement_dates()`: the closing date and the number of days in
   * the billing cycle, each the first word after its label on the first
   * line that starts with it; the period starts `ndays - 1` days before
   * the closing date.  Any failure raises ValueError.
   */
  function StatementDates(lines: seq<string>, env: Env): (r: Result<(int, int)>)
    ensures r.Err? ==> r.error == ValueError
    ensures FindStartsWith(lines, ClosingDate, 0).Err? || FindStartsWith(lines, CycleDays, 0).Err? ==> r.Err?
    ensures r.Ok? ==> var close := WordAfter(lines[FindStartsWith(lines, ClosingDate, 0).value], ClosingDate);
                      var days := WordAfter(lines[FindStartsWith(lines, CycleDays, 0).value], CycleDays);
                      && close.Ok? && days.Ok? && ParseInt(days.value).Some?
                      && Strptime(env, close.value, HeaderDate) == Ok(r.value.1)
                      && r.value.0 == r.value.1 - (ParseInt(days.value).value - 1)
  {
    match FindStartsWith(lines, ClosingDate, 0)
    case Err(_) => Err(ValueError)
    case Ok(i) =>
      match FindStartsWith(lines, CycleDays, 0)
      case Err(_) => Err(ValueError)
      case Ok(j) =>
        match WordAfter(lines[i], ClosingDate)
        case Err(_) => Err(ValueError)
        case Ok(close) =>
          match WordAfter(lines[j], CycleDays)
          case Err(_) => Err(ValueError)
          case Ok(days) =>
            match ParseInt(days)
            case None => Err(ValueError)
            case Some(ndays) =>
              match Strptime(env, close, HeaderDate)
              case Err(_) => Err(ValueError)
              case Ok(end) => Ok((end - (ndays - 1), end))
  }

  /** `extract_account_number()`: the first word after "AccountNumber " on the first line starting with it. */
  function AccountNumber(lines: seq<string>): (r: Result<string>)
    ensures FindStartsWith(lines, AccountPattern, 0).Err? ==> r == Err(ValueError)
    ensures r.Ok? ==> r == WordAfter(lines[FindStartsWith(lines, AccountPattern, 0).value], AccountPattern)
  {
    match FindStartsWith(lines, AccountPattern, 0)
    case Err(e) => Err(e)
    case Ok(i) => WordAfter(lines[i], AccountPattern)
  }

  /** One balance: the first word after its label on the first line starting with it, negated. */
  function Balance(lines: seq<string>, pattern: string, env: Env): (r: Result<int>)
    requires pattern != []
    ensures FindStartsWith(lines, pattern, 0).Err? ==> r == Err(ValueError)
    ensures r.Ok? ==> var w := WordAfter(lines[FindStartsWith(lines, pattern, 0).value], pattern);
                      w.Ok? && env.amount(w.value) == Some(-r.value)
  {
    match FindStartsWith(lines, pattern, 0)
    case Err(e) => Err(e)
    case Ok(i) =>
      match WordAfter(lines[i], pattern)
      case Err(e) => Err(e)
      case Ok(w) => Negated(env, w)
  }

  /** `get_statement_balances()`: the previous and the new balance. */
  function Balances(lines: seq<string>, env: Env): Result<(int, int)> {
    CardLines.BothBalances(Balance(lines, PreviousBalance, env), Balance(lines, NewBalance, env))
  }

  /** The interest charge from the words of its line: the third word, negated, on the closing date. */
  function InterestFrom(ws: seq<string>, end: int, env: Env): (r: Result<Txn>)
    ensures |ws| < 3 ==> r == Err(IndexError)
    ensures r.Ok? ==> && |ws| >= 3 && env.amount(ws[2]) == Some(-r.value.amount)
                      && r.value.postingDate == end && r.value.transactionDate == Some(end)
                      && r.value.balance == Omitted
  {
    if |ws| < 3 then Err(IndexError)
    else
      match Negated(env, ws[2])
      case Err(e) => Err(e)
      case Ok(amount) => Ok(Txn(end, Some(end), amount, Omitted, InterestDesc))
  }

  /** `interest_transaction()`: the charge on the first line starting with "InterestCharged". */
  function Interest(lines: seq<string>, end: int, env: Env): (r: Result<Txn>)
    ensures FindStartsWith(lines, InterestCharged, 0).Err? ==> r == Err(ValueError)
    ensures r.Ok? ==> r == InterestFrom(Words(lines[FindStartsWith(lines, InterestCharged, 0).value]), end, env)
  {
    match FindStartsWith(lines, InterestCharged, 0)
    case Err(e) => Err(e)
    case Ok(i) => InterestFrom(Words(lines[i]), end, env)
  }

  /** Every interest charge is described as "Interest Charged". */
  lemma InterestDescribed(ws: seq<string>, end: int, env: Env)
    requires InterestFrom(ws, end, env).Ok?
    ensures InterestFrom(ws, end, env).value.desc == InterestDesc
  {
  }

  /** The lines' transactions: one per transaction line. */
  function Transactions(lines: seq<string>, start: int, end: int, env: Env): Result<seq<Txn>> {
    Traverse(Keep(lines, LeadingMmDd), CardLines.LineParser(start, end, env))
  }

  /** The account's number, balances, transactions and interest can all be read. */
  predicate AccountRead(lines: seq<string>, start: int, end: int, env: Env) {
    && AccountNumber(lines).Ok? && Balances(lines, env).Ok?
    && Transactions(lines, start, end, env).Ok? && Interest(lines, end, env).Ok?
  }

  /** The account read: its number, its balances, and its transactions with the interest charge last. */
  predicate AccountFits(a: AccountData, lines: seq<string>, start: int, end: int, env: Env)
    requires AccountRead(lines, start, end, env)
  {
    && a.accountNum == AccountNumber(lines).value
    && (a.startBalance, a.endBalance) == Balances(lines, env).value
    && a.transactions == Transactions(lines, start, end, env).value + [Interest(lines, end, env).value]
  }

  /** The interest charge is the account's last transaction, on the closing date. */
  lemma InterestLast(a: AccountData, lines: seq<string>, start: int, end: int, env: Env)
    requires AccountRead(lines, start, end, env) && AccountFits(a, lines, start, end, env)
    ensures a.transactions != []
    ensures var t := a.transactions[|a.transactions| - 1];
            t.desc == InterestDesc && t.postingDate == end && t.transactionDate == Some(end)
  {
    var i := FindStartsWith(lines, InterestCharged, 0).value;
    InterestDescribed(Words(lines[i]), end, env);
  }

  /** The parser's state: the statement's lines and the period it reads. */
  class Parser {
    var lines: seq<string>
    var startDate: int
    var endDate: int

    constructor()
      ensures lines == []
    {
      lines := [];
    }

    /** `get_statement_dates()`: sets the period, or raises ValueError and leaves it. */
    method GetStatementDates(env: Env) returns (err: Option<Error>)
      modifies this
      ensures var d := StatementDates(old(lines), env);
              && (d.Ok? ==> err.None? && startDate == d.value.0 && endDate == d.value.1)
              && (d.Err? ==> err == Some(ValueError) && startDate == old(startDate) && endDate == old(endDate))
      ensures lines == old(lines)
    {
      var d := StatementDates(lines, env);
      if d.Err? {
        return Some(ValueError);
      }
      startDate, endDate := d.value.0, d.value.1;
      err := None;
    }

    /** `extract_account()`: every step's failure is raised as ValueError. */
    method ExtractAccount(env: Env) returns (r: Result<AccountData>)
      ensures r.Err? ==> r.error == ValueError
      ensures r.Ok? <==> AccountRead(lines, startDate, endDate, env)
      ensures r.Ok? ==> AccountFits(r.value, lines, startDate, endDate, env)
    {
      var num := AccountNumber(lines);
      if num.Err? {
        return Err(ValueError);
      }
      var balances := Balances(lines, env);
      if balances.Err? {
        return Err(ValueError);
      }
      var xs := CardLines.GetTransactionLines(lines);
      var transactions := CardLines.ParseTransactionLines(xs, startDate, endDate, env);
      if transactions.Err? {
        return Err(ValueError);
      }
      var interest := Interest(lines, endDate, env);
      if interest.Err? {
        return Err(ValueError);
      }
      r := Ok(AccountData(num.value, balances.value.0, balances.value.1, transactions.value + [interest.value]));
    }

    /** `parse(reader)`: no lines raise ValueError; otherwise the period and the one account. */
    method Parse(lines: seq<string>, env: Env) returns (r: Result<StatementData>)
      modifies this
      ensures r.Err? ==> r.error == ValueError
      ensures r.Ok? <==> lines != [] && StatementDates(lines, env).Ok?
                         && AccountRead(lines, StatementDates(lines, env).value.0, StatementDates(lines, env).value.1, env)
      ensures r.Ok? ==> var (start, end) := StatementDates(lines, env).value;
                        && r.value.startDate == start && r.value.endDate == end && |r.value.accounts| == 1
                        && AccountFits(r.value.accounts[0], lines, start, end, env)
    {
      this.lines := lines;
      if lines == [] {
        return Err(ValueError);
      }
      var err := GetStatementDates(env);
      if err.Some? {
        return Err(ValueError);
      }
      var account := ExtractAccount(env);
      if account.Err? {
        return Err(ValueError);
      }
      r := Ok(StatementData(startDate, endDate, [account.value]));
    }
  }
}
