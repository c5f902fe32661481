/**
 * The Fidelity health savings account plugin of
 * src/plugins/pdf_fidelityhsa.py.  The statement names its period on a
 * line "<Month> <d>, <yyyy> - <Month> <d>, <yyyy>"; its transactions are
 * the lines between the beginning and the ending account value, each with
 * the amount second to last and "-" for nothing, all dated on the
 * period's last day.
 */
module PdfFidelityhsa {
  import opened Wrappers
  import opened Text
  import opened Lines
  import opened Helpers
  import opened Ledger
  import opened Records

  const HeaderDate: string := "%B %d, %Y"
  const DatePattern: string := "[ADFJMNOS]\\w*\\s\\d{1,2}\\,\\s\\d{4}\\s-\\s"
  const AccountPattern: string := "Account Number:"
  const Beginning: string := "Beginning Account Value"
  const Ending: string := "Ending Account Value"

  /** The statement's figures write nothing as "-", which is read as the text "0". */
  function Token(w: string): string {
    if w == "-" then "0" else w
  }

  /** The amount converter reads "0" as zero. */
  predicate ReadsZero(env: Env) {
    env.amount("0") == Some(0)
  }

  /**
   * `get_statement_dates()`: the first line matching the date-range pattern,
   * split on "-" and stripped; the first two pieces are the start and end
   * dates.  Any failure raises ValueError.
   */
  function StatementDates(lines: seq<string>, env: Env): (r: Result<(int, int)>)
    ensures r.Err? ==> r.error == ValueError
  {
    match FindSearch(env, lines, DatePattern, 0)
    case Err(_) => Err(ValueError)
    case Ok(i) =>
      var parts := StrippedSplit(lines[i], "-");
      if |parts| < 2 then Err(ValueError)
      else
        match Strptime(env, parts[0], HeaderDate)
        case Err(_) => Err(ValueError)
        case Ok(start) =>
          match Strptime(env, parts[1], HeaderDate)
          case Err(_) => Err(ValueError)
          case Ok(end) => Ok((start, end))
  }

  /** The period read: no matching line fails, and a period read comes from the first two pieces of the matching line. */
  lemma DatesMeaning(lines: seq<string>, env: Env)
    ensures FindSearch(env, lines, DatePattern, 0).Err? ==> StatementDates(lines, env).Err?
    ensures StatementDates(lines, env).Ok? ==>
              var parts := StrippedSplit(lines[FindSearch(env, lines, DatePattern, 0).value], "-");
              && |parts| >= 2
              && Strptime(env, parts[0], HeaderDate) == Ok(StatementDates(lines, env).value.0)
              && Strptime(env, parts[1], HeaderDate) == Ok(StatementDates(lines, env).value.1)
  {
  }

  /**
   * The start date `get_statement_dates()` leaves stored, `previous` being
   * the one stored before the call. The start is stored as soon as the
   * first piece reads, before the second piece is looked at.
   */
  function StoredStart(lines: seq<string>, env: Env, previous: int): int {
    match FindSearch(env, lines, DatePattern, 0)
    case Err(_) => previous
    case Ok(i) =>
      match Strptime(env, StrippedSplit(lines[i], "-")[0], HeaderDate)
      case Err(_) => previous
      case Ok(start) => start
  }

  /**
   * No matching line stores nothing, and a missing or unreadable end date
   * raises while the new start stays stored.
   */
  lemma StoredStartMeaning(lines: seq<string>, env: Env, previous: int)
    ensures FindSearch(env, lines, DatePattern, 0).Err? ==> StoredStart(lines, env, previous) == previous
    ensures FindSearch(env, lines, DatePattern, 0).Ok? ==>
              var parts := StrippedSplit(lines[FindSearch(env, lines, DatePattern, 0).value], "-");
              Strptime(env, parts[0], HeaderDate).Ok? && (|parts| < 2 || Strptime(env, parts[1], HeaderDate).Err?) ==>
                && StatementDates(lines, env).Err?
                && StoredStart(lines, env, previous) == Strptime(env, parts[0], HeaderDate).value
  {
  }

  /** A period read leaves its own start stored. */
  lemma StoredStartOfPeriod(lines: seq<string>, env: Env, previous: int)
    ensures StatementDates(lines, env).Ok? ==> StoredStart(lines, env, previous) == StatementDates(lines, env).value.0
  {
  }

  /** `extract_account_number()`: the first word after "Account Number:" on the first line holding it. */
  function AccountNumber(lines: seq<string>): (r: Result<string>)
    ensures FindParam(lines, AccountPattern, 0).Err? ==> r == Err(ValueError)
    ensures FindParam(lines, AccountPattern, 0).Ok? ==>
              r == WordAfter(lines[FindParam(lines, AccountPattern, 0).value], AccountPattern)
  {
    match FindParam(lines, AccountPattern, 0)
    case Err(e) => Err(e)
    case Ok(i) => WordAfter(lines[i], AccountPattern)
  }

  // ---------------------------------------------------------------------
  // Balances
  // ---------------------------------------------------------------------

  /**
   * One pattern's lookup: the line index of the first line starting with
   * it, and the amount second to last on that line.  A missing line or an
   * unreadable amount raises ValueError; a line of one word IndexError.
   */
  function BalanceAt(lines: seq<string>, pattern: string, env: Env): (r: Result<(int, nat)>)
    ensures FindStartsWith(lines, pattern, 0).Err? ==> r == Err(ValueError)
    ensures r.Err? ==> r.error in {ValueError, IndexError}
    ensures r.Ok? ==> var i := FindStartsWith(lines, pattern, 0).value;
                      var ws := Words(lines[i]);
                      && r.value.1 == i && |ws| >= 2
                      && env.amount(Token(ws[|ws| - 2])) == Some(r.value.0)
  {
    match FindStartsWith(lines, pattern, 0)
    case Err(e) => Err(e)
    case Ok(i) =>
      var ws := Words(lines[i]);
      if |ws| < 2 then Err(IndexError)
      else
        match Amount(env, Token(ws[|ws| - 2]))
        case Err(e) => Err(e)
        case Ok(b) => Ok((b, i))
  }

  function Lookup(lines: seq<string>, env: Env): string -> Result<(int, nat)> {
    pattern => BalanceAt(lines, pattern, env)
  }

  /**
   * The loop of `get_statement_balances()` over its patterns, with `f` the
   * lookup: a ValueError is logged and leaves the pattern out of both
   * dicts; an IndexError escapes at once.  (The source stores a line index
   * before converting its amount; an index without a balance is never
   * read, so the model stores the two together.)
   */
  method ReadBalances(patterns: seq<string>, f: string -> Result<(int, nat)>)
    returns (r: Result<(map<string, int>, map<string, nat>)>)
    requires Distinct(patterns)
    ensures r.Err? ==> r.error == IndexError
    ensures r.Err? <==> exists k :: 0 <= k < |patterns| && f(patterns[k]) == Err(IndexError)
    ensures r.Ok? ==> forall k :: 0 <= k < |patterns| ==>
              && (patterns[k] in r.value.0 <==> f(patterns[k]).Ok?)
              && (f(patterns[k]).Ok? ==> patterns[k] in r.value.1 && r.value.0[patterns[k]] == f(patterns[k]).value.0
                                         && r.value.1[patterns[k]] == f(patterns[k]).value.1)
  {
    var balances: map<string, int> := map[];
    var indices: map<string, nat> := map[];
    var i := 0;
    while i < |patterns|
      invariant 0 <= i <= |patterns|
      invariant forall k :: 0 <= k < i ==> f(patterns[k]) != Err(IndexError)
      invariant forall k :: i <= k < |patterns| ==> patterns[k] !in balances
      invariant forall k :: 0 <= k < i ==> (patterns[k] in balances <==> f(patterns[k]).Ok?)
      invariant forall k :: 0 <= k < i && f(patterns[k]).Ok? ==>
                  && patterns[k] in indices
                  && balances[patterns[k]] == f(patterns[k]).value.0
                  && indices[patterns[k]] == f(patterns[k]).value.1
    {
      var b := f(patterns[i]);
      if b == Err(IndexError) {
        return Err(IndexError);
      }
      if b.Ok? {
        indices := indices[patterns[i] := b.value.1];
        balances := balances[patterns[i] := b.value.0];
      }
      i := i + 1;
    }
    r := Ok((balances, indices));
  }

  /**
   * `get_statement_balances()`: the beginning and ending account values and
   * their line indices; an IndexError of either lookup escapes, and a
   * value that is missing raises ValueError.
   */
  function StatementBalances(lines: seq<string>, env: Env): (r: Result<(int, int, nat, nat)>)
    ensures var b0 := BalanceAt(lines, Beginning, env);
            var b1 := BalanceAt(lines, Ending, env);
            && (r.Ok? <==> b0.Ok? && b1.Ok?)
            && (r.Ok? ==> r.value == (b0.value.0, b1.value.0, b0.value.1, b1.value.1))
            && (r.Err? ==> (r.error == IndexError <==> b0 == Err(IndexError) || b1 == Err(IndexError)))
    ensures r.Err? ==> r.error in {ValueError, IndexError}
  {
    var b0 := BalanceAt(lines, Beginning, env);
    var b1 := BalanceAt(lines, Ending, env);
    if b0 == Err(IndexError) || b1 == Err(IndexError) then Err(IndexError)
    else if b0.Err? || b1.Err? then Err(ValueError)
    else Ok((b0.value.0, b1.value.0, b0.value.1, b1.value.1))
  }

  /** A statement without either account value line raises. */
  lemma MissingBalanceRaises(lines: seq<string>, env: Env)
    requires FindStartsWith(lines, Beginning, 0).Err? || FindStartsWith(lines, Ending, 0).Err?
    ensures StatementBalances(lines, env) == Err(ValueError) || StatementBalances(lines, env) == Err(IndexError)
  {
  }

  /** A value written "-" is read as zero. */
  lemma DashBalanceIsZero(lines: seq<string>, pattern: string, env: Env)
    requires ReadsZero(env) && FindStartsWith(lines, pattern, 0).Ok?
    requires var ws := Words(lines[FindStartsWith(lines, pattern, 0).value]);
             |ws| >= 2 && ws[|ws| - 2] == "-"
    ensures BalanceAt(lines, pattern, env).Ok? && BalanceAt(lines, pattern, env).value.0 == 0
  {
  }

  /** The two patterns are different keys (their lengths differ). */
  lemma PatternsDistinct()
    ensures Distinct([Beginning, Ending])
  {
    assert |Beginning| == 23 && |Ending| == 20;
  }

  /** The method form of `get_statement_balances()`: the loop, then the check that both values were found. */
  method GetStatementBalances(lines: seq<string>, env: Env) returns (r: Result<(int, int, nat, nat)>)
    ensures r == StatementBalances(lines, env)
  {
    PatternsDistinct();
    var patterns := [Beginning, Ending];
    var read := ReadBalances(patterns, Lookup(lines, env));
    assert Lookup(lines, env)(patterns[0]) == BalanceAt(lines, Beginning, env);
    assert Lookup(lines, env)(patterns[1]) == BalanceAt(lines, Ending, env);
    if read.Err? {
      return Err(read.error);
    }
    var balances, indices := read.value.0, read.value.1;
    if Beginning !in balances || Ending !in balances {
      return Err(ValueError);
    }
    r := Ok((balances[Beginning], balances[Ending], indices[Beginning], indices[Ending]));
  }

  // ---------------------------------------------------------------------
  // Transactions
  // ---------------------------------------------------------------------

  /** `get_transaction_lines(i_start, i_end)`: the lines strictly between the two balance lines. */
  function TransactionLines(lines: seq<string>, iStart: nat, iEnd: nat): (r: seq<string>)
    ensures iStart < iEnd <= |lines| ==> r == lines[iStart + 1..iEnd]
    ensures iEnd <= iStart + 1 ==> r == []
  {
    PySlice(lines, iStart + 1, iEnd)
  }

  /**
   * One transaction line, split into words: at least three; the amount is
   * second to last ("-" for nothing); the description is the words before
   * it with every "*" removed, and must not be empty.  The transaction is
   * posted and dated on the statement's end date.
   */
  function ParseWords(ws: seq<string>, end: int, env: Env): (r: Result<Txn>)
    ensures |ws| < 3 ==> r == Err(ValueError)
    ensures r.Err? ==> r.error == ValueError
    ensures r.Ok? ==> && |ws| >= 3
                      && env.amount(Token(ws[|ws| - 2])) == Some(r.value.amount)
                      && r.value.desc == Without(JoinSpace(ws[..|ws| - 2]), '*')
                      && r.value.desc != [] && '*' !in r.value.desc
                      && r.value.postingDate == end && r.value.transactionDate == Some(end)
                      && r.value.balance == Omitted
  {
    if |ws| < 3 then Err(ValueError)
    else
      match Amount(env, Token(ws[|ws| - 2]))
      case Err(_) => Err(ValueError)
      case Ok(amount) =>
        var desc := Without(JoinSpace(ws[..|ws| - 2]), '*');
        if desc == [] then Err(ValueError)
        else Ok(Txn(end, Some(end), amount, Omitted, desc))
  }

  /** A line is rejected exactly when it is short, its amount unreadable or its description empty; "-" reads as zero. */
  lemma ParseWordsMeaning(ws: seq<string>, end: int, env: Env)
    requires |ws| >= 3
    ensures var desc := Without(JoinSpace(ws[..|ws| - 2]), '*');
            ParseWords(ws, end, env).Ok? <==> env.amount(Token(ws[|ws| - 2])).Some? && desc != []
    ensures ReadsZero(env) && ws[|ws| - 2] == "-" && ParseWords(ws, end, env).Ok? ==> ParseWords(ws, end, env).value.amount == 0
  {
  }

  /** `parse_transaction_lines` on one line. */
  function ParseLine(line: string, end: int, env: Env): Result<Txn> {
    ParseWords(Words(line), end, env)
  }

  function LineParser(end: int, env: Env): string -> Result<Txn> {
    line => ParseLine(line, end, env)
  }

  /** `parse_transaction_lines(transaction_lines)`: one transaction per line, in order, or the first line's error. */
  method ParseTransactionLines(xs: seq<string>, end: int, env: Env) returns (r: Result<seq<Txn>>)
    ensures r == Traverse(xs, LineParser(end, env))
    ensures r.Ok? ==> |r.value| == |xs| && forall k :: 0 <= k < |xs| ==> ParseLine(xs[k], end, env) == Ok(r.value[k])
  {
    r := TraverseAll(xs, LineParser(end, env));
  }

  /** The account's transactions: those of the lines between the two balance lines. */
  function Transactions(lines: seq<string>, end: int, env: Env): Result<seq<Txn>>
    requires StatementBalances(lines, env).Ok?
  {
    var b := StatementBalances(lines, env).value;
    Traverse(TransactionLines(lines, b.2, b.3), LineParser(end, env))
  }

  /** The account's number, balances and transactions can all be read. */
  predicate AccountRead(lines: seq<string>, end: int, env: Env) {
    && AccountNumber(lines).Ok? && StatementBalances(lines, env).Ok?
    && Transactions(lines, end, env).Ok?
  }

  /** The account read: its number, its two balances and its transactions. */
  predicate AccountFits(a: AccountData, lines: seq<string>, end: int, env: Env)
    requires AccountRead(lines, end, env)
  {
    && a.accountNum == AccountNumber(lines).value
    && a.startBalance == StatementBalances(lines, env).value.0
    && a.endBalance == StatementBalances(lines, env).value.1
    && a.transactions == Transactions(lines, end, env).value
  }

  /** Every transaction of an account read is dated on the statement's end date. */
  lemma DatedAtEnd(a: AccountData, lines: seq<string>, end: int, env: Env)
    requires AccountRead(lines, end, env) && AccountFits(a, lines, end, env)
    ensures forall k :: 0 <= k < |a.transactions| ==>
              a.transactions[k].postingDate == end && a.transactions[k].transactionDate == Some(end)
  {
    var b := StatementBalances(lines, env).value;
    var xs := TransactionLines(lines, b.2, b.3);
    TraverseOk(xs, LineParser(end, env));
    forall k | 0 <= k < |a.transactions|
      ensures a.transactions[k].postingDate == end && a.transactions[k].transactionDate == Some(end)
    {
      assert LineParser(end, env)(xs[k]) == ParseLine(xs[k], end, env);
    }
  }

  /** The parser's state: the statement's lines and the period it reads. */
  class Parser {
    var lines: seq<string>
    var startDate: int
    var endDate: int

    constructor()
      ensures lines == []
    {
      lines := [];
    }

    /**
     * `get_statement_dates()`: the matching line split at "-"; the start date is
     * stored once it reads, before the end date is read; any failure raises
     * ValueError.
     */
    method GetStatementDates(env: Env) returns (err: Option<Error>)
      modifies this`startDate, this`endDate
      ensures var d := StatementDates(lines, env);
              && (d.Ok? ==> err.None? && startDate == d.value.0 && endDate == d.value.1)
              && (d.Err? ==> err == Some(ValueError) && endDate == old(endDate))
      ensures startDate == StoredStart(lines, env, old(startDate))
    {
      var d := StatementDates(lines, env);
      var start := StoredStart(lines, env, startDate);
      StoredStartOfPeriod(lines, env, startDate);
      startDate := start;
      if d.Err? {
        return Some(ValueError);
      }
      endDate := d.value.1;
      err := None;
    }

    /** `extract_account()`: every step's failure is raised as ValueError. */
    method ExtractAccount(env: Env) returns (r: Result<AccountData>)
      ensures r.Err? ==> r.error == ValueError
      ensures r.Ok? <==> AccountRead(lines, endDate, env)
      ensures r.Ok? ==> AccountFits(r.value, lines, endDate, env)
    {
      var num := AccountNumber(lines);
      if num.Err? {
        return Err(ValueError);
      }
      var balances := GetStatementBalances(lines, env);
      if balances.Err? {
        return Err(ValueError);
      }
      var xs := TransactionLines(lines, balances.value.2, balances.value.3);
      var transactions := ParseTransactionLines(xs, endDate, env);
      if transactions.Err? {
        return Err(ValueError);
      }
      r := Ok(AccountData(num.value, balances.value.0, balances.value.1, transactions.value));
    }

    /** `parse(reader)`: no lines raise ValueError; otherwise the period and the one account. */
    method Parse(lines: seq<string>, env: Env) returns (r: Result<StatementData>)
      modifies this
      ensures r.Err? ==> r.error == ValueError
      ensures r.Ok? <==> lines != [] && StatementDates(lines, env).Ok?
                         && AccountRead(lines, StatementDates(lines, env).value.1, env)
      ensures r.Ok? ==> var (start, end) := StatementDates(lines, env).value;
                        && r.value.startDate == start && r.value.endDate == end && |r.value.accounts| == 1
                        && AccountFits(r.value.accounts[0], lines, end, env)
    {
      this.lines := lines;
      if lines == [] {
        return Err(ValueError);
      }
      var err := GetStatementDates(env);
      if err.Some? {
        return Err(ValueError);
      }
      var account := ExtractAccount(env);
      if account.Err? {
        return Err(ValueError);
      }
      r := Ok(StatementData(startDate, endDate, [account.value]));
    }
  }
}
