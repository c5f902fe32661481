/**
 * The Wells Fargo personal loan parser of src/core/parsepdf/wfploan.py.
 * The statement gives only its closing date, so the period is taken to
 * start 31 days earlier.  The transaction lines are the `mm/dd/yy` lines
 * before the "Ending Principal Balance" line; each holds a date, a
 * description and an amount, and an interest payment is preceded by a
 * matching interest fee so that the payment and the interest it pays
 * cancel on the account.  A statement without transaction lines gets one
 * zero "LOAN ORIGINATION" transaction on its closing date.
 */
module ParsepdfWfploan {
  import opened Wrappers
  import opened Text
  import opened Lines
  import opened Helpers
  import opened Ledger
  import opened Records

  const DateFormat: string := "%m/%d/%y"
  const EndingPattern: string := "Ending Principal Balance"
  const PriorPattern: string := "Prior Principal Balance"
  const InterestPayment: string := "INTEREST PAYMENT"
  const InterestFee: string := "INTEREST FEE"
  const StatementDatePattern: string := "Statement Date (\\d{2}/\\d{2}/\\d{2})"
  /** The literal text in front of the pattern's group. */
  const StatementDatePrefix: string := "Statement Date "
  const AccountPattern: string := "Account Number "

  // ---------------------------------------------------------------------
  // Statement dates and account number
  // ---------------------------------------------------------------------

  /** `group(1)` of a match of the statement-date pattern: the match after its literal prefix. */
  function DateGroup(m: string): string {
    Slice(m, |StatementDatePrefix|, |m|)
  }

  /**
   * `get_statement_dates()`: the closing date is the date after "Statement
   * Date" in the text, and the period starts 31 days before it.  A missing
   * or unreadable date raises ValueError.
   */
  function StatementDates(text: string, env: Env): (r: Result<(int, int)>)
    ensures r.Ok? <==> env.search(StatementDatePattern, text).Some?
                       && Strptime(env, DateGroup(env.search(StatementDatePattern, text).value), DateFormat).Ok?
    ensures r.Ok? ==> r.value.1 == Strptime(env, DateGroup(env.search(StatementDatePattern, text).value), DateFormat).value
    ensures r.Ok? ==> r.value.0 == r.value.1 - 31
    ensures r.Err? ==> r.error == ValueError
  {
    match env.search(StatementDatePattern, text)
    case None => Err(ValueError)
    case Some(m) =>
      match Strptime(env, DateGroup(m), DateFormat)
      case Err(_) => Err(ValueError)
      case Ok(end) => Ok((end - 31, end))
  }

  /**
   * `extract_account_number()`: the first word after the last "Account
   * Number " of the first line that holds it.
   */
  function AccountNumber(lines: seq<string>): (r: Result<string>)
    ensures FindParam(lines, AccountPattern, 0).Err? ==> r == Err(ValueError)
    ensures r.Ok? ==> IsWord(r.value)
    ensures r.Ok? ==> var line := lines[FindParam(lines, AccountPattern, 0).value];
                      Words(AfterLast(line, AccountPattern)) != [] && r.value == Words(AfterLast(line, AccountPattern))[0]
  {
    match FindParam(lines, AccountPattern, 0)
    case Err(e) => Err(e)
    case Ok(i) =>
      var ws := Words(AfterLast(lines[i], AccountPattern));
      WordsAreWords(AfterLast(lines[i], AccountPattern));
      if ws == [] then Err(IndexError) else Ok(ws[0])
  }

  // ---------------------------------------------------------------------
  // Balances
  // ---------------------------------------------------------------------

  /** `w.replace("*", "")`. */
  function Unstarred(w: string): string {
    Replace(w, "*", "")
  }

  /** The first word after the last `pattern` of a line, without its `*` marks; IndexError when there is none. */
  function BalanceWord(line: string, pattern: string): (r: Result<string>)
    requires pattern != []
    ensures r.Err? <==> Words(AfterLast(line, pattern)) == []
    ensures r.Err? ==> r.error == IndexError
    ensures r.Ok? ==> r.value == Unstarred(Words(AfterLast(line, pattern))[0])
  {
    var ws := Words(AfterLast(line, pattern));
    if ws == [] then Err(IndexError) else Ok(Unstarred(ws[0]))
  }

  /**
   * One balance of `get_statement_balances()`: the balance word of the
   * first line holding the pattern, read as an amount and negated.
   * ValueError when no line holds the pattern or the word is no amount;
   * IndexError when nothing follows the pattern.
   */
  function PatternBalance(lines: seq<string>, pattern: string, env: Env): (r: Result<int>)
    requires pattern != []
    ensures FindParam(lines, pattern, 0).Err? ==> r == Err(ValueError)
    ensures r.Ok? ==> FindParam(lines, pattern, 0).Ok?
                      && var w := BalanceWord(lines[FindParam(lines, pattern, 0).value], pattern);
                         w.Ok? && env.amount(w.value) == Some(-r.value)
    ensures r.Err? ==> r.error in {ValueError, IndexError}
  {
    match FindParam(lines, pattern, 0)
    case Err(e) => Err(e)
    case Ok(i) =>
      match BalanceWord(lines[i], pattern)
      case Err(e) => Err(e)
      case Ok(w) => Negated(env, w)
  }

  /**
   * `get_statement_balances()`: the prior and the ending principal
   * balance, both negated, in that order.  A balance that raises
   * ValueError is skipped and then reported as missing (ValueError); an
   * IndexError is not caught and is raised as it is.
   */
  function StatementBalances(lines: seq<string>, env: Env): (r: Result<(int, int)>)
    ensures r.Ok? <==> PatternBalance(lines, PriorPattern, env).Ok? && PatternBalance(lines, EndingPattern, env).Ok?
    ensures r.Ok? ==> r.value == (PatternBalance(lines, PriorPattern, env).value, PatternBalance(lines, EndingPattern, env).value)
    ensures r.Err? && r.error == ValueError ==>
              PatternBalance(lines, PriorPattern, env) == Err(ValueError) || PatternBalance(lines, EndingPattern, env) == Err(ValueError)
  {
    var prior := PatternBalance(lines, PriorPattern, env);
    var ending := PatternBalance(lines, EndingPattern, env);
    if prior == Err(IndexError) then Err(IndexError)
    else if ending == Err(IndexError) then Err(IndexError)
    else if prior.Err? || ending.Err? then Err(ValueError)
    else Ok((prior.value, ending.value))
  }

  // ---------------------------------------------------------------------
  // Transaction lines
  // ---------------------------------------------------------------------

  /** Where the scan for transaction lines stops: the first ending-balance line, or the end. */
  function Stop(lines: seq<string>): (n: nat)
    ensures n <= |lines|
    ensures forall j :: 0 <= j < n ==> !Contains(lines[j], EndingPattern)
    ensures n < |lines| ==> Contains(lines[n], EndingPattern)
  {
    match FindParam(lines, EndingPattern, 0)
    case Ok(i) => i
    case Err(_) => |lines|
  }

  /** `get_transaction_lines()`: the lines with a leading `mm/dd/yy ` before the first ending-balance line. */
  function TransactionLines(lines: seq<string>): seq<string> {
    Keep(lines[..Stop(lines)], LeadingMmDdYy)
  }

  /** Every kept line has a leading date and comes before the ending balance; no such line is missed. */
  lemma TransactionLinesMeaning(lines: seq<string>)
    ensures var r := TransactionLines(lines);
            && (forall k :: 0 <= k < |r| ==> LeadingMmDdYy(r[k]) && !Contains(r[k], EndingPattern))
            && (forall j :: 0 <= j < Stop(lines) && LeadingMmDdYy(lines[j]) ==> lines[j] in r)
  {
    var r := TransactionLines(lines);
    var head := lines[..Stop(lines)];
    forall k | 0 <= k < |r|
      ensures !Contains(r[k], EndingPattern)
    {
      var j :| 0 <= j < |head| && head[j] == r[k];
    }
    forall j | 0 <= j < Stop(lines) && LeadingMmDdYy(lines[j])
      ensures lines[j] in r
    {
      assert head[j] == lines[j];
    }
  }

  /** The scan itself: stop at the ending balance, keep the dated lines. */
  method GetTransactionLines(lines: seq<string>) returns (r: seq<string>)
    ensures r == TransactionLines(lines)
  {
    r := [];
    var i := 0;
    while i < |lines|
      invariant 0 <= i <= Stop(lines)
      invariant r == Keep(lines[..i], LeadingMmDdYy)
    {
      if Contains(lines[i], EndingPattern) {
        break;
      }
      KeepStep(lines, i, LeadingMmDdYy);
      if LeadingMmDdYy(lines[i]) {
        r := r + [lines[i]];
      }
      i := i + 1;
    }
  }

  // ---------------------------------------------------------------------
  // Transactions
  // ---------------------------------------------------------------------

  /** The hidden interest charge that matches an interest payment of `amount`. */
  function Fee(posting: int, amount: int): Txn {
    Txn(posting, Some(posting), -amount, Omitted, InterestFee)
  }

  /** Neither the fee's nor the origination's description is an interest payment. */
  lemma FeeIsNoPayment()
    ensures !Contains(InterestFee, InterestPayment)
    ensures !Contains(Origination(0).desc, InterestPayment)
  {
    assert Origination(0).desc[0] != InterestPayment[0];
  }

  /** The description of a line's words: all but the first and the last. */
  function Middle(ws: seq<string>): string
    requires |ws| >= 2
  {
    JoinSpace(ws[1..|ws| - 1])
  }

  /**
   * One pass of the loop of `parse_transaction_lines`: at least three
   * words; the first is the date, the last the amount, those between the
   * description, which may not be empty.  An interest payment comes with
   * its fee, placed before it.
   */
  function ParseWords(ws: seq<string>, env: Env): (r: Result<seq<Txn>>)
    ensures |ws| < 3 ==> r == Err(ValueError)
    ensures r.Err? ==> r.error == ValueError
    ensures (forall k :: 0 <= k < |ws| ==> IsWord(ws[k])) ==>
              (r.Ok? <==> |ws| >= 3 && Strptime(env, ws[0], DateFormat).Ok? && Amount(env, ws[|ws| - 1]).Ok?)
    ensures r.Ok? ==>
              |ws| >= 3 && |r.value| >= 1
              && var t := r.value[|r.value| - 1];
                 && Strptime(env, ws[0], DateFormat) == Ok(t.postingDate)
                 && t.transactionDate == Some(t.postingDate)
                 && Amount(env, ws[|ws| - 1]) == Ok(t.amount)
                 && t.desc == Middle(ws) && t.desc != []
                 && t.balance.Omitted?
                 && (Contains(t.desc, InterestPayment) ==> r.value == [Fee(t.postingDate, t.amount), t])
                 && (!Contains(t.desc, InterestPayment) ==> r.value == [t])
  {
    if |ws| < 3 then Err(ValueError)
    else
      MiddleNonEmpty(ws);
      match Strptime(env, ws[0], DateFormat)
      case Err(e) => Err(e)
      case Ok(posting) =>
        match Amount(env, ws[|ws| - 1])
        case Err(e) => Err(e)
        case Ok(amount) =>
          var desc := Middle(ws);
          if desc == [] then
            Err(ValueError)
          else
            var t := Txn(posting, Some(posting), amount, Omitted, desc);
            if Contains(desc, InterestPayment) then Ok([Fee(posting, amount), t]) else Ok([t])
  }

  /** Between a first and a last word there is at least one word, so the description is never empty. */
  lemma MiddleNonEmpty(ws: seq<string>)
    requires |ws| >= 3
    ensures (forall k :: 0 <= k < |ws| ==> IsWord(ws[k])) ==> Middle(ws) != []
  {
    var mid := ws[1..|ws| - 1];
    assert mid[0] == ws[1];
    if |mid| > 1 {
      assert Middle(ws) == mid[0] + " " + Join(mid[1..], " ");
    }
  }

  function LineParser(env: Env): string -> Result<seq<Txn>> {
    line => ParseWords(Words(line), env)
  }

  /** The transaction the loan is opened with, when the statement lists no transaction. */
  function Origination(end: int): Txn {
    Txn(end, Some(end), 0, Omitted, "LOAN ORIGINATION")
  }

  /** `parse_transaction_lines` after its loop: an empty list becomes the single origination transaction. */
  function WithOrigination(r: Result<seq<Txn>>, end: int): (out: Result<seq<Txn>>)
    ensures r.Err? ==> out == r
    ensures r.Ok? && r.value == [] ==> out == Ok([Origination(end)])
    ensures r.Ok? && r.value != [] ==> out == r
  {
    if r.Ok? && r.value == [] then Ok([Origination(end)]) else r
  }

  /** Every interest payment is immediately preceded by its fee: same date, negated amount. */
  predicate FeesPrecedePayments(ts: seq<Txn>) {
    forall k :: 0 <= k < |ts| && Contains(ts[k].desc, InterestPayment) ==>
      1 <= k && ts[k - 1] == Fee(ts[k].postingDate, ts[k].amount)
  }

  /** The origination transaction alone has no payment without its fee. */
  lemma OriginationAlone(end: int)
    ensures FeesPrecedePayments([Origination(end)])
  {
    FeeIsNoPayment();
    assert [Origination(end)][0].desc == Origination(0).desc;
  }

  /** What one line gives: an interest payment after its fee, or one other transaction. */
  predicate Block(ys: seq<Txn>) {
    || (|ys| == 2 && Contains(ys[1].desc, InterestPayment) && ys[0] == Fee(ys[1].postingDate, ys[1].amount))
    || (|ys| == 1 && !Contains(ys[0].desc, InterestPayment))
  }

  lemma LineBlock(line: string, env: Env)
    requires LineParser(env)(line).Ok?
    ensures Block(LineParser(env)(line).value)
  {
    var ws := Words(line);
    assert LineParser(env)(line) == ParseWords(ws, env);
  }

  /** A line's transactions keep the fees in front of their payments. */
  lemma AppendBlock(ts: seq<Txn>, ys: seq<Txn>)
    requires FeesPrecedePayments(ts) && Block(ys)
    ensures FeesPrecedePayments(ts + ys)
  {
    FeeIsNoPayment();
    var us := ts + ys;
    forall k | 0 <= k < |us| && Contains(us[k].desc, InterestPayment)
      ensures 1 <= k && us[k - 1] == Fee(us[k].postingDate, us[k].amount)
    {
      if k < |ts| {
        assert us[k] == ts[k] && us[k - 1] == ts[k - 1];
      } else {
        assert us[k] == ys[k - |ts|];
      }
    }
  }

  /**
   * Lines each of which gives a block, parsed one after the other: at least
   * one transaction per line, and each interest payment right after its fee.
   */
  lemma {:induction false} ConcatBlocks(xs: seq<string>, f: string -> Result<seq<Txn>>)
    requires forall x :: f(x).Ok? ==> Block(f(x).value)
    ensures var c := Concat(xs, f);
            c.Ok? ==> |c.value| >= |xs| && FeesPrecedePayments(c.value)
  {
    var c := Concat(xs, f);
    if xs != [] && c.Ok? {
      var init := xs[..|xs| - 1];
      var p := Concat(init, f);
      var ys := f(xs[|xs| - 1]);
      assert p.Ok? && ys.Ok? && c.value == p.value + ys.value;
      ConcatBlocks(init, f);
      AppendBlock(p.value, ys.value);
    }
  }

  /** Every line that parses gives a block. */
  lemma EveryLineBlock(env: Env)
    ensures forall x :: LineParser(env)(x).Ok? ==> Block(LineParser(env)(x).value)
  {
    forall x | LineParser(env)(x).Ok?
      ensures Block(LineParser(env)(x).value)
    {
      LineBlock(x, env);
    }
  }

  /** Each line gives at least one transaction, so the lines give at least as many as there are lines. */
  lemma AtLeastOnePerLine(xs: seq<string>, env: Env)
    ensures var c := Concat(xs, LineParser(env));
            c.Ok? ==> |c.value| >= |xs|
  {
    EveryLineBlock(env);
    ConcatBlocks(xs, LineParser(env));
  }

  /** In the parsed lines each interest payment comes right after its fee. */
  lemma ParsedLines(xs: seq<string>, env: Env)
    ensures var c := Concat(xs, LineParser(env));
            c.Ok? ==> FeesPrecedePayments(c.value)
  {
    EveryLineBlock(env);
    ConcatBlocks(xs, LineParser(env));
  }

  /** The origination transaction is added exactly when there are no lines. */
  lemma OriginationIffNoLines(xs: seq<string>, env: Env, end: int)
    requires Concat(xs, LineParser(env)).Ok?
    ensures xs == [] ==> WithOrigination(Concat(xs, LineParser(env)), end) == Ok([Origination(end)])
    ensures xs != [] ==> WithOrigination(Concat(xs, LineParser(env)), end) == Concat(xs, LineParser(env))
  {
    AtLeastOnePerLine(xs, env);
  }

  // ---------------------------------------------------------------------
  // The parser object
  // ---------------------------------------------------------------------

  /** The parser's state: the statement's lines and text, and what it has read so far. */
  class Parser {
    var lines: seq<string>
    var text: string
    var startDate: int
    var endDate: int
    var startBalance: int
    var endBalance: int

    constructor(lines: seq<string>, text: string)
      ensures this.lines == lines && this.text == text
    {
      this.lines := lines;
      this.text := text;
    }

    /** `get_statement_dates()`: sets both dates, or raises ValueError and leaves them. */
    method GetStatementDates(env: Env) returns (err: Option<Error>)
      modifies this
      ensures var d := StatementDates(old(text), env);
              && (d.Ok? ==> err.None? && startDate == d.value.0 && endDate == d.value.1)
              && (d.Err? ==> err == Some(ValueError) && startDate == old(startDate) && endDate == old(endDate))
      ensures lines == old(lines) && text == old(text)
      ensures startBalance == old(startBalance) && endBalance == old(endBalance)
    {
      var d := StatementDates(text, env);
      if d.Err? {
        return Some(ValueError);
      }
      endDate := d.value.1;
      startDate := endDate - 31;
      err := None;
    }

    /** `self.start_balance, self.end_balance = self.get_statement_balances()`: both set, or neither. */
    method GetStatementBalances(env: Env) returns (err: Option<Error>)
      modifies this
      ensures var b := StatementBalances(old(lines), env);
              && (b.Ok? ==> err.None? && startBalance == b.value.0 && endBalance == b.value.1)
              && (b.Err? ==> err == Some(b.error) && startBalance == old(startBalance) && endBalance == old(endBalance))
      ensures lines == old(lines) && text == old(text)
      ensures startDate == old(startDate) && endDate == old(endDate)
    {
      var b := StatementBalances(lines, env);
      if b.Err? {
        return Some(b.error);
      }
      startBalance, endBalance := b.value.0, b.value.1;
      err := None;
    }

    /**
     * `parse_transaction_lines(transaction_lines)`: each line's
     * transactions in order, then the origination transaction on the
     * closing date when there are none.
     */
    method ParseTransactionLines(transactionLines: seq<string>, env: Env) returns (r: Result<seq<Txn>>)
      ensures r == WithOrigination(Concat(transactionLines, LineParser(env)), endDate)
      ensures r.Ok? ==> FeesPrecedePayments(r.value)
    {
      var transactions := ConcatAll(transactionLines, LineParser(env));
      if transactions.Ok? && transactions.value == [] {
        OriginationAlone(endDate);
        r := Ok([Origination(endDate)]);
      } else {
        ParsedLines(transactionLines, env);
        r := transactions;
      }
    }
  }
}
