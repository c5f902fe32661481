/**
 * The HealthEquity health savings account plugin of
 * src/plugins/pdf_hehsa.py.  The statement names its period after
 * "Period:" as "<mm/dd/yy> through <mm/dd/yy>"; the transactions are the
 * dated lines from the beginning balance up to the interest rate schedule,
 * each ending with the amount and the balance after it.  The account's
 * ending balance is the last transaction's balance.
 */
module PdfHehsa {
  import opened Wrappers
  import opened Text
  import opened Lines
  import opened Helpers
  import opened Ledger
  import opened Records

  const HeaderDate: string := "%m/%d/%y"
  const TransactionDate: string := "%m/%d/%Y"
  const DatePattern: string := "Period:\\d{2}/\\d{2}/\\d{2}"
  const PeriodLabel: string := "Period:"
  const RangeWord: string := "through"
  const AccountPattern: string := "AccountNumber:"
  const BeginningPattern: string := "BeginningBalance"
  const StopPattern: string := "InterestRateScheduleEffective"
  const InterestDesc: string := "Interest"

  /**
   * `get_statement_dates()`: on the first line matching the period
   * pattern, the text after the last "Period:" split on "through" and
   * stripped; the first two pieces are the start and end dates.  Any
   * failure raises ValueError.
   */
  function StatementDates(lines: seq<string>, env: Env): (r: Result<(int, int)>)
    ensures r.Err? ==> r.error == ValueError
  {
    match FindSearch(env, lines, DatePattern, 0)
    case Err(_) => Err(ValueError)
    case Ok(i) =>
      var parts := StrippedSplit(AfterLast(lines[i], PeriodLabel), RangeWord);
      if |parts| < 2 then Err(ValueError)
      else
        match Strptime(env, parts[0], HeaderDate)
        case Err(_) => Err(ValueError)
        case Ok(start) =>
          match Strptime(env, parts[1], HeaderDate)
          case Err(_) => Err(ValueError)
          case Ok(end) => Ok((start, end))
  }

  /** The period read: no matching line fails, and a period read comes from the two pieces around "through". */
  lemma DatesMeaning(lines: seq<string>, env: Env)
    ensures FindSearch(env, lines, DatePattern, 0).Err? ==> StatementDates(lines, env).Err?
    ensures StatementDates(lines, env).Ok? ==>
              var line := lines[FindSearch(env, lines, DatePattern, 0).value];
              var parts := StrippedSplit(AfterLast(line, PeriodLabel), RangeWord);
              && |parts| >= 2
              && Strptime(env, parts[0], HeaderDate) == Ok(StatementDates(lines, env).value.0)
              && Strptime(env, parts[1], HeaderDate) == Ok(StatementDates(lines, env).value.1)
  {
  }

  /**
   * The start date `get_statement_dates()` leaves stored, `previous` being
   * the one stored before the call. The start is stored as soon as the
   * first piece reads, before the second piece is looked at.
   */
  function StoredStart(lines: seq<string>, env: Env, previous: int): int {
    match FindSearch(env, lines, DatePattern, 0)
    case Err(_) => previous
    case Ok(i) =>
      match Strptime(env, StrippedSplit(AfterLast(lines[i], PeriodLabel), RangeWord)[0], HeaderDate)
      case Err(_) => previous
      case Ok(start) => start
  }

  /** A period read leaves its own start stored. */
  lemma StoredStartOfPeriod(lines: seq<string>, env: Env, previous: int)
    ensures StatementDates(lines, env).Ok? ==> StoredStart(lines, env, previous) == StatementDates(lines, env).value.0
  {
  }

  /**
   * No matching line stores nothing, and a missing or unreadable end date
   * raises while the new start stays stored.
   */
  lemma StoredStartMeaning(lines: seq<string>, env: Env, previous: int)
    ensures FindSearch(env, lines, DatePattern, 0).Err? ==> StoredStart(lines, env, previous) == previous
    ensures FindSearch(env, lines, DatePattern, 0).Ok? ==>
              var parts := StrippedSplit(AfterLast(lines[FindSearch(env, lines, DatePattern, 0).value], PeriodLabel), RangeWord);
              Strptime(env, parts[0], HeaderDate).Ok? && (|parts| < 2 || Strptime(env, parts[1], HeaderDate).Err?) ==>
                && StatementDates(lines, env).Err?
                && StoredStart(lines, env, previous) == Strptime(env, parts[0], HeaderDate).value
  {
  }

  /** `extract_account_number()`: the first word after "AccountNumber:" on the first line holding it. */
  function AccountNumber(lines: seq<string>): (r: Result<string>)
    ensures FindParam(lines, AccountPattern, 0).Err? ==> r == Err(ValueError)
    ensures FindParam(lines, AccountPattern, 0).Ok? ==>
              r == WordAfter(lines[FindParam(lines, AccountPattern, 0).value], AccountPattern)
  {
    match FindParam(lines, AccountPattern, 0)
    case Err(e) => Err(e)
    case Ok(i) => WordAfter(lines[i], AccountPattern)
  }

  /**
   * `get_statement_balances()`: the last word of the first line starting
   * with "BeginningBalance", and that line's index.  The method logs a
   * missing line or an unreadable amount and then returns the names it
   * never bound, so either failure surfaces as UnboundLocalError.
   */
  function StartBalance(lines: seq<string>, env: Env): (r: Result<(int, nat)>)
    ensures r.Err? ==> r.error == UnboundLocalError
    ensures FindStartsWith(lines, BeginningPattern, 0).Err? ==> r.Err?
    ensures r.Ok? ==> var i := FindStartsWith(lines, BeginningPattern, 0).value;
                      && r.value.1 == i
                      && LastWord(lines[i]).Ok? && env.amount(LastWord(lines[i]).value) == Some(r.value.0)
  {
    match FindStartsWith(lines, BeginningPattern, 0)
    case Err(_) => Err(UnboundLocalError)
    case Ok(i) =>
      match LastWord(lines[i])
      case Err(e) => Err(e)
      case Ok(w) =>
        match Amount(env, w)
        case Err(_) => Err(UnboundLocalError)
        case Ok(b) => Ok((b, i))
  }

  // ---------------------------------------------------------------------
  // Transaction lines
  // ---------------------------------------------------------------------

  predicate IsStop(line: string) {
    StartsWith(line, StopPattern)
  }

  /** The lines before the first that starts the interest rate schedule. */
  function Section(xs: seq<string>): (r: seq<string>)
    ensures r <= xs
    ensures forall k :: 0 <= k < |r| ==> !IsStop(r[k])
    ensures |r| < |xs| ==> IsStop(xs[|r|])
  {
    match First(xs, IsStop)
    case None => xs
    case Some(k) => xs[..k]
  }

  /** The transaction lines: the section from `iStart` on, its lines that start with `mm/dd/yyyy` and a space. */
  function TransactionLines(lines: seq<string>, iStart: nat): seq<string> {
    Keep(Section(PySlice(lines, iStart, |lines|)), LeadingMmDdYyyySpace)
  }

  /** The section ends at the first schedule line, or runs to the end. */
  lemma SectionAt(xs: seq<string>, i: nat)
    requires i <= |xs| && forall j :: 0 <= j < i ==> !IsStop(xs[j])
    requires i == |xs| || IsStop(xs[i])
    ensures Section(xs) == xs[..i]
  {
  }

  /**
   * The transaction lines are dated lines of the section from `iStart`,
   * in which no line starts the schedule, and every dated line of that
   * section is among them.
   */
  lemma TransactionLinesMeaning(lines: seq<string>, iStart: nat)
    requires iStart <= |lines|
    ensures var xs := lines[iStart..];
            var s := Section(xs);
            var r := TransactionLines(lines, iStart);
            && (forall k :: 0 <= k < |r| ==> LeadingMmDdYyyySpace(r[k]) && r[k] in s)
            && (forall j :: 0 <= j < |s| && LeadingMmDdYyyySpace(xs[j]) ==> xs[j] in r)
            && (forall j :: 0 <= j < |s| ==> !IsStop(xs[j]))
  {
    var xs := lines[iStart..];
    assert PySlice(lines, iStart, |lines|) == xs;
    var s := Section(xs);
    assert forall j :: 0 <= j < |s| ==> xs[j] == s[j];
  }

  /** `get_transaction_lines(i_start)`: the loop that breaks at the schedule and keeps the dated lines. */
  method GetTransactionLines(lines: seq<string>, iStart: nat) returns (r: seq<string>)
    ensures r == TransactionLines(lines, iStart)
  {
    var xs := PySlice(lines, iStart, |lines|);
    var i;
    r, i := KeepUntil(xs, IsStop, LeadingMmDdYyyySpace);
    SectionAt(xs, i);
  }

  /**
   * The loop itself: it walks the lines until the first that `stop` holds
   * of, and keeps those before it that `keep` holds of, in order.
   */
  method KeepUntil(xs: seq<string>, stop: string -> bool, keep: string -> bool) returns (r: seq<string>, i: nat)
    ensures i <= |xs| && forall j :: 0 <= j < i ==> !stop(xs[j])
    ensures i == |xs| || stop(xs[i])
    ensures r == Keep(xs[..i], keep)
  {
    r, i := [], 0;
    while i < |xs|
      invariant 0 <= i <= |xs|
      invariant forall j :: 0 <= j < i ==> !stop(xs[j])
      invariant r == Keep(xs[..i], keep)
    {
      if stop(xs[i]) {
        return;
      }
      KeepStep(xs, i, keep);
      if keep(xs[i]) {
        r := r + [xs[i]];
      }
      i := i + 1;
    }
  }

  // ---------------------------------------------------------------------
  // Transactions
  // ---------------------------------------------------------------------

  /**
   * One transaction line, split into words: at least three; the first is
   * the date, the second to last the amount and the last the balance; the
   * words between date and amount are the description, "Interest" when
   * there are none.
   */
  function ParseWords(ws: seq<string>, env: Env): (r: Result<Txn>)
    ensures |ws| < 3 ==> r == Err(ValueError)
    ensures r.Ok? ==> && |ws| >= 3
                      && Strptime(env, ws[0], TransactionDate) == Ok(r.value.postingDate)
                      && r.value.transactionDate == Some(r.value.postingDate)
                      && env.amount(ws[|ws| - 2]) == Some(r.value.amount)
                      && r.value.balance.PassedCents?
                      && env.amount(ws[|ws| - 1]) == Some(r.value.balance.cents)
  {
    if |ws| < 3 then Err(ValueError)
    else
      match Strptime(env, ws[0], TransactionDate)
      case Err(e) => Err(e)
      case Ok(date) =>
        match Amount(env, ws[|ws| - 2])
        case Err(_) => Err(ValueError)
        case Ok(amount) =>
          match Amount(env, ws[|ws| - 1])
          case Err(_) => Err(ValueError)
          case Ok(balance) =>
            var desc := JoinSpace(ws[1..|ws| - 2]);
            var desc := if desc == [] then InterestDesc else desc;
            Ok(Txn(date, Some(date), amount, PassedCents(balance), desc))
  }

  /** Joining words gives nothing only when there are no words. */
  lemma JoinedWordsEmpty(ws: seq<string>)
    requires forall i :: 0 <= i < |ws| ==> IsWord(ws[i])
    ensures JoinSpace(ws) == [] <==> ws == []
  {
    WordsOfJoin(ws);
  }

  /** The description is the words between date and amount, and "Interest" exactly for a line of three words. */
  lemma DescriptionMeaning(ws: seq<string>, env: Env)
    requires forall i :: 0 <= i < |ws| ==> IsWord(ws[i])
    requires ParseWords(ws, env).Ok?
    ensures |ws| == 3 ==> ParseWords(ws, env).value.desc == InterestDesc
    ensures |ws| > 3 ==> ParseWords(ws, env).value.desc == JoinSpace(ws[1..|ws| - 2])
    ensures ParseWords(ws, env).value.desc != []
  {
    JoinedWordsEmpty(ws[1..|ws| - 2]);
  }

  /** `parse_transaction_lines` on one line. */
  function ParseLine(line: string, env: Env): Result<Txn> {
    ParseWords(Words(line), env)
  }

  function LineParser(env: Env): string -> Result<Txn> {
    line => ParseLine(line, env)
  }

  /** Every transaction parsed from a line carries the balance after it. */
  predicate Balanced(ts: seq<Txn>) {
    forall k :: 0 <= k < |ts| ==> ts[k].balance.PassedCents?
  }

  /** `parse_transaction_lines(transaction_lines)`: one transaction per line, in order, or the first line's error. */
  method ParseTransactionLines(xs: seq<string>, env: Env) returns (r: Result<seq<Txn>>)
    ensures r == Traverse(xs, LineParser(env))
    ensures r.Ok? ==> |r.value| == |xs| && Balanced(r.value)
    ensures r.Ok? ==> forall k :: 0 <= k < |xs| ==> ParseLine(xs[k], env) == Ok(r.value[k])
  {
    r := TraverseAll(xs, LineParser(env));
    if r.Ok? {
      TraverseOk(xs, LineParser(env));
      forall k | 0 <= k < |r.value|
        ensures r.value[k].balance.PassedCents?
      {
        assert LineParser(env)(xs[k]) == ParseLine(xs[k], env);
      }
    }
  }

  /** The ending balance: the last transaction's balance, or the starting balance when there are none. */
  function EndBalance(start: int, ts: seq<Txn>): (r: int)
    requires Balanced(ts)
    ensures ts == [] ==> r == start
    ensures ts != [] ==> ts[|ts| - 1].balance == PassedCents(r)
  {
    if ts == [] then start else ts[|ts| - 1].balance.cents
  }

  /** The ending balance is the balance printed at the end of the last transaction line. */
  lemma EndBalanceFromLastLine(start: int, xs: seq<string>, env: Env)
    requires xs != [] && Traverse(xs, LineParser(env)).Ok?
    requires Balanced(Traverse(xs, LineParser(env)).value)
    ensures var ws := Words(xs[|xs| - 1]);
            |ws| >= 3 && env.amount(ws[|ws| - 1]) == Some(EndBalance(start, Traverse(xs, LineParser(env)).value))
  {
    var ts := Traverse(xs, LineParser(env)).value;
    TraverseOk(xs, LineParser(env));
    var ws := Words(xs[|xs| - 1]);
    assert LineParser(env)(xs[|xs| - 1]) == ParseWords(ws, env);
    assert ParseWords(ws, env) == Ok(ts[|ts| - 1]);
  }

  /** The account's transactions: those of the dated lines from the beginning balance on. */
  function Transactions(lines: seq<string>, env: Env): Result<seq<Txn>>
    requires StartBalance(lines, env).Ok?
  {
    Traverse(TransactionLines(lines, StartBalance(lines, env).value.1), LineParser(env))
  }

  /** The account's number, starting balance and transactions can all be read. */
  predicate AccountRead(lines: seq<string>, env: Env) {
    && AccountNumber(lines).Ok? && StartBalance(lines, env).Ok?
    && Transactions(lines, env).Ok?
  }

  /** The account read: its number, its balances and its transactions. */
  predicate AccountFits(a: AccountData, lines: seq<string>, env: Env)
    requires AccountRead(lines, env)
  {
    && a.accountNum == AccountNumber(lines).value
    && a.startBalance == StartBalance(lines, env).value.0
    && a.transactions == Transactions(lines, env).value
    && Balanced(a.transactions)
    && a.endBalance == EndBalance(a.startBalance, a.transactions)
  }

  /** The parser's state: the statement's lines and the period it reads. */
  class Parser {
    var lines: seq<string>
    var startDate: int
    var endDate: int

    constructor()
      ensures lines == []
    {
      lines := [];
    }

    /**
     * `get_statement_dates()`: the matching line split at "through"; the start date is
     * stored once it reads, before the end date is read; any failure raises
     * ValueError.
     */
    method GetStatementDates(env: Env) returns (err: Option<Error>)
      modifies this`startDate, this`endDate
      ensures var d := StatementDates(lines, env);
              && (d.Ok? ==> err.None? && startDate == d.value.0 && endDate == d.value.1)
              && (d.Err? ==> err == Some(ValueError) && endDate == old(endDate))
      ensures startDate == StoredStart(lines, env, old(startDate))
    {
      var d := StatementDates(lines, env);
      var start := StoredStart(lines, env, startDate);
      StoredStartOfPeriod(lines, env, startDate);
      startDate := start;
      if d.Err? {
        return Some(ValueError);
      }
      endDate := d.value.1;
      err := None;
    }

    /** `extract_account()`: every step's failure is raised as ValueError. */
    method ExtractAccount(env: Env) returns (r: Result<AccountData>)
      ensures r.Err? ==> r.error == ValueError
      ensures r.Ok? <==> AccountRead(lines, env)
      ensures r.Ok? ==> AccountFits(r.value, lines, env)
    {
      var num := AccountNumber(lines);
      if num.Err? {
        return Err(ValueError);
      }
      var start := StartBalance(lines, env);
      if start.Err? {
        return Err(ValueError);
      }
      var xs := GetTransactionLines(lines, start.value.1);
      var transactions := ParseTransactionLines(xs, env);
      assert transactions == Transactions(lines, env);
      if transactions.Err? {
        return Err(ValueError);
      }
      var ts := transactions.value;
      r := Ok(AccountData(num.value, start.value.0, EndBalance(start.value.0, ts), ts));
    }

    /** `parse(reader)`: no lines raise ValueError; otherwise the period and the one account. */
    method Parse(lines: seq<string>, env: Env) returns (r: Result<StatementData>)
      modifies this
      ensures r.Err? ==> r.error == ValueError
      ensures r.Ok? <==> lines != [] && StatementDates(lines, env).Ok? && AccountRead(lines, env)
      ensures r.Ok? ==> && r.value.startDate == StatementDates(lines, env).value.0
                        && r.value.endDate == StatementDates(lines, env).value.1
                        && |r.value.accounts| == 1 && AccountFits(r.value.accounts[0], lines, env)
    {
      this.lines := lines;
      if lines == [] {
        return Err(ValueError);
      }
      var err := GetStatementDates(env);
      if err.Some? {
        return Err(ValueError);
      }
      var account := ExtractAccount(env);
      if account.Err? {
        return Err(ValueError);
      }
      r := Ok(StatementData(startDate, endDate, [account.value]));
    }
  }
}
