/**
 * The older Wells Fargo personal loan parser of src/parse/wfploan.py.  A
 * statement lists a month's payment as an interest line and a principal
 * line; the parser turns them into an interest fee and one monthly payment
 * of both parts, with the running balance after each.  A statement that
 * says it has no transactions gives none.
 */
module ParseWfploan {
  import opened Wrappers
  import opened Text
  import opened Lines
  import opened Helpers
  import opened Ledger

  const DateFormat: string := "%m/%d/%y"
  const StatementDatePattern: string := "Statement Date "
  const PriorPattern: string := "Prior Principal Balance "
  const EndingPattern: string := "Ending Principal Balance"
  const NoTransactions: string := "No transactions within this billing cycle"
  const InterestPayment: string := "INTEREST PAYMENT"
  const PrincipalPayment: string := "PRINCIPAL PAYMENT"

  /**
   * `get_statement_dates(lines)`: the closing date is the word after
   * "Statement Date " on the first line holding it; no start date is
   * given, so the period starts 30 days earlier.
   */
  function StatementDates(lines: seq<string>, env: Env): (r: Result<(int, int)>)
    ensures FindParam(lines, StatementDatePattern, 0).Err? ==> r == Err(ValueError)
    ensures r.Ok? ==> var i := FindParam(lines, StatementDatePattern, 0).value;
                      var w := WordAfter(lines[i], StatementDatePattern);
                      w.Ok? && Strptime(env, w.value, DateFormat) == Ok(r.value.1)
    ensures r.Ok? ==> r.value.0 == r.value.1 - 30
  {
    match FindParam(lines, StatementDatePattern, 0)
    case Err(e) => Err(e)
    case Ok(i) =>
      match WordAfter(lines[i], StatementDatePattern)
      case Err(e) => Err(e)
      case Ok(w) =>
        match Strptime(env, w, DateFormat)
        case Err(e) => Err(e)
        case Ok(end) => Ok((end - 30, end))
  }

  /**
   * `get_starting_balance(lines)`: the word after "Prior Principal
   * Balance " on the first line that starts with it, negated.
   */
  function StartingBalance(lines: seq<string>, env: Env): (r: Result<int>)
    ensures FindStartsWith(lines, PriorPattern, 0).Err? ==> r == Err(ValueError)
    ensures r.Ok? ==> var i := FindStartsWith(lines, PriorPattern, 0).value;
                      var w := WordAfter(lines[i], PriorPattern);
                      w.Ok? && env.amount(w.value) == Some(-r.value)
  {
    match FindStartsWith(lines, PriorPattern, 0)
    case Err(e) => Err(e)
    case Ok(i) =>
      match WordAfter(lines[i], PriorPattern)
      case Err(e) => Err(e)
      case Ok(w) => Negated(env, w)
  }

  // ---------------------------------------------------------------------
  // Transaction lines
  // ---------------------------------------------------------------------

  /** A transaction line: a leading `mm/dd/yy `, an amount, and not the ending balance. */
  predicate Wanted(line: string) {
    LeadingMmDdYy(line) && !Contains(line, EndingPattern) && '$' in line
  }

  /**
   * `get_transaction_lines(lines)`: None when a line says the cycle had no
   * transactions, otherwise the transaction lines in order.
   */
  function TransactionLines(lines: seq<string>): (r: Option<seq<string>>)
    ensures r.None? <==> exists j :: 0 <= j < |lines| && Contains(lines[j], NoTransactions)
    ensures r.Some? ==> forall k :: 0 <= k < |r.value| ==> Wanted(r.value[k]) && r.value[k] in lines
    ensures r.Some? ==> forall j :: 0 <= j < |lines| && Wanted(lines[j]) ==> lines[j] in r.value
  {
    if FindParam(lines, NoTransactions, 0).Ok? then None else Some(Keep(lines, Wanted))
  }

  /** The scan: give up at the no-transactions notice, keep the transaction lines. */
  method GetTransactionLines(lines: seq<string>) returns (r: Option<seq<string>>)
    ensures r == TransactionLines(lines)
  {
    var kept: seq<string> := [];
    var i := 0;
    while i < |lines|
      invariant 0 <= i <= |lines|
      invariant forall j :: 0 <= j < i ==> !Contains(lines[j], NoTransactions)
      invariant kept == Keep(lines[..i], Wanted)
    {
      if Contains(lines[i], NoTransactions) {
        return None;
      }
      KeepStep(lines, i, Wanted);
      if LeadingMmDdYy(lines[i]) && !Contains(lines[i], EndingPattern) && '$' in lines[i] {
        kept := kept + [lines[i]];
      }
      i := i + 1;
    }
    assert lines[..i] == lines;
    r := Some(kept);
  }

  // ---------------------------------------------------------------------
  // Transactions
  // ---------------------------------------------------------------------

  /** The amount at the end of the first line holding `pattern`. */
  function PaymentPart(xs: seq<string>, pattern: string, env: Env): (r: Result<int>)
    ensures FindParam(xs, pattern, 0).Err? ==> r == Err(ValueError)
    ensures r.Ok? ==> var i := FindParam(xs, pattern, 0).value;
                      LastWord(xs[i]).Ok? && env.amount(LastWord(xs[i]).value) == Some(r.value)
  {
    match FindParam(xs, pattern, 0)
    case Err(e) => Err(e)
    case Ok(i) =>
      match LastWord(xs[i])
      case Err(e) => Err(e)
      case Ok(w) => Amount(env, w)
  }

  /** The date at the head of the interest line. */
  function PaymentDate(xs: seq<string>, env: Env): (r: Result<int>)
    ensures FindParam(xs, InterestPayment, 0).Err? ==> r == Err(ValueError)
    ensures r.Ok? ==> var ws := Words(xs[FindParam(xs, InterestPayment, 0).value]);
                      ws != [] && Strptime(env, ws[0], DateFormat) == Ok(r.value)
  {
    match FindParam(xs, InterestPayment, 0)
    case Err(e) => Err(e)
    case Ok(i) =>
      var ws := Words(xs[i]);
      if ws == [] then Err(IndexError) else Strptime(env, ws[0], DateFormat)
  }

  /**
   * `parse_transactions(date_range, balance, transaction_lines)`: no rows
   * for a cycle without transactions; more than two lines, or a missing
   * interest or principal line, raise ValueError.  Otherwise the interest
   * is charged as a fee and then paid back with the principal as one
   * monthly payment, both on the interest line's date, with the balance
   * running on from `balance`.
   */
  method ParseTransactions(balance: int, transactionLines: Option<seq<string>>, env: Env) returns (r: Result<seq<Entry>>)
    ensures transactionLines.None? ==> r == Ok([])
    ensures transactionLines.Some? && |transactionLines.value| > 2 ==> r == Err(ValueError)
    ensures transactionLines.Some? ==>
              var xs := transactionLines.value;
              var interest := PaymentPart(xs, InterestPayment, env);
              var principal := PaymentPart(xs, PrincipalPayment, env);
              var date := PaymentDate(xs, env);
              && (r.Ok? <==> |xs| <= 2 && interest.Ok? && principal.Ok? && date.Ok?)
              && (r.Ok? ==>
                    && |r.value| == 2
                    && r.value[0] == Entry(date.value, -interest.value, r.value[0].balance, "INTEREST FEE")
                    && r.value[1] == Entry(date.value, principal.value + interest.value, r.value[1].balance, "MONTHLY PAYMENT")
                    && Running(balance, r.value)
                    && r.value[1].balance == balance + principal.value)
  {
    if transactionLines.None? {
      return Ok([]);
    }
    var xs := transactionLines.value;
    if |xs| > 2 {
      return Err(ValueError);
    }
    var interestLine := FindParam(xs, InterestPayment, 0);
    var principalLine := FindParam(xs, PrincipalPayment, 0);
    if interestLine.Err? || principalLine.Err? {
      return Err(ValueError);
    }
    var date := PaymentDate(xs, env);
    var interest := PaymentPart(xs, InterestPayment, env);
    var principal := PaymentPart(xs, PrincipalPayment, env);
    if date.Err? {
      return Err(date.error);
    }
    if interest.Err? {
      return Err(interest.error);
    }
    if principal.Err? {
      return Err(principal.error);
    }
    var payment := principal.value + interest.value;
    var fee := -interest.value;
    var running := balance + fee;
    var feeRow := Entry(date.value, fee, running, "INTEREST FEE");
    running := running + payment;
    var payRow := Entry(date.value, payment, running, "MONTHLY PAYMENT");
    r := Ok([feeRow, payRow]);
  }
}
