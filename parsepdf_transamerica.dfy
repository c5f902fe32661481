/**
 * The Transamerica 401(k) parser of src/core/parsepdf/transamerica.py.  A
 * quarterly statement has no transaction list, only a summary row
 * ("Totals" followed by nine figures); the parser reads the opening
 * balance from it and turns each non-zero flow column into one
 * transaction on the statement's last day, carrying the running balance.
 */
module ParsepdfTransamerica {
  import opened Wrappers
  import opened Text
  import opened Lines
  import opened Helpers
  import opened Ledger

  const AccountPattern: string := " 401(k) Plan "
  /** The account pattern in lowercase, as the case-insensitive search compares it. */
  const AccountPatternLowered: string := " 401(k) plan "
  const DateFormat: string := "%B %d, %Y"
  const SummaryPattern: string := "Summary for [ADFJMNOS]\\w*\\s\\d{1,2}\\,\\s\\d{4}"
  const RangeSeparator: string := " - "
  const TotalsPattern: string := "Totals "
  const BeginningBalance: string := "Beginning Balance"

  /** The summary row's columns, in the order of its figures. */
  const AllColumns: seq<string> := ["Stocks", "Beginning Balance", "Contributions", "Withdrawals", "Transfers",
                                    "Credits and Fees", "Change in Market Value", "Ending Balance", "Allocation"]

  /** The columns that become transactions, in the order they are posted. */
  const Columns: seq<string> := ["Contributions", "Withdrawals", "Transfers", "Credits and Fees", "Change in Market Value"]

  /** `get_account_number(lines)`: the first word of the first line holding " 401(k) Plan ", in any case. */
  function AccountNumber(lines: seq<string>): (r: Result<string>)
    ensures FindParamCaseless(lines, AccountPatternLowered, 0).Err? ==> r == Err(ValueError)
    ensures FindParamCaseless(lines, AccountPatternLowered, 0).Ok? ==>
              var ws := Words(lines[FindParamCaseless(lines, AccountPatternLowered, 0).value]);
              && (ws == [] ==> r == Err(IndexError))
              && (ws != [] ==> r == Ok(ws[0]))
  {
    match FindParamCaseless(lines, AccountPatternLowered, 0)
    case Err(e) => Err(e)
    case Ok(i) =>
      var ws := Words(lines[i]);
      if ws == [] then Err(IndexError) else Ok(ws[0])
  }

  // ---------------------------------------------------------------------
  // Statement dates
  // ---------------------------------------------------------------------

  /** `" ".join(text.split()[-3:])`: the last three words of the text. */
  function LastThreeWords(text: string): string {
    var ws := Words(text);
    JoinSpace(PySlice(ws, -3, |ws|))
  }

  /** `" ".join(text.split()[:3])`: the first three words of the text. */
  function FirstThreeWords(text: string): string {
    JoinSpace(PySlice(Words(text), 0, 3))
  }

  /**
   * `get_statement_dates(lines)`: the first line matching "Summary for
   * <Month> <d>, <yyyy>" is split on " - "; the start date is the last three
   * words before it, the end date the first three words after it.
   */
  function StatementDates(lines: seq<string>, env: Env): (r: Result<(int, int)>)
    ensures FindSearch(env, lines, SummaryPattern, 0).Err? ==> r == Err(ValueError)
    ensures FindSearch(env, lines, SummaryPattern, 0).Ok? ==>
              var parts := SplitOn(lines[FindSearch(env, lines, SummaryPattern, 0).value], RangeSeparator);
              && (|parts| < 2 ==> r == Err(IndexError))
              && (r.Ok? ==> && |parts| >= 2
                            && Strptime(env, LastThreeWords(parts[0]), DateFormat) == Ok(r.value.0)
                            && Strptime(env, FirstThreeWords(parts[1]), DateFormat) == Ok(r.value.1))
    ensures r.Err? ==> r.error in {ValueError, IndexError}
  {
    match FindSearch(env, lines, SummaryPattern, 0)
    case Err(e) => Err(e)
    case Ok(i) =>
      var parts := SplitOn(lines[i], RangeSeparator);
      if |parts| < 2 then Err(IndexError)
      else
        match Strptime(env, LastThreeWords(parts[0]), DateFormat)
        case Err(e) => Err(e)
        case Ok(start) =>
          match Strptime(env, FirstThreeWords(parts[1]), DateFormat)
          case Err(e) => Err(e)
          case Ok(end) => Ok((start, end))
  }

  /** The date texts are at most three words: the last ones before " - " and the first ones after it. */
  lemma DateTexts(text: string)
    ensures var ws := Words(text);
            && (|ws| >= 3 ==> LastThreeWords(text) == JoinSpace(ws[|ws| - 3..]))
            && (|ws| < 3 ==> LastThreeWords(text) == JoinSpace(ws))
            && (|ws| >= 3 ==> FirstThreeWords(text) == JoinSpace(ws[..3]))
            && (|ws| < 3 ==> FirstThreeWords(text) == JoinSpace(ws))
  {
    LastThreeMeaning(Words(text));
    FirstThreeMeaning(Words(text));
  }

  lemma LastThreeMeaning(ws: seq<string>)
    ensures |ws| >= 3 ==> PySlice(ws, -3, |ws|) == ws[|ws| - 3..]
    ensures |ws| < 3 ==> PySlice(ws, -3, |ws|) == ws
  {
    assert ws[0..|ws|] == ws;
  }

  lemma FirstThreeMeaning(ws: seq<string>)
    ensures |ws| >= 3 ==> PySlice(ws, 0, 3) == ws[..3]
    ensures |ws| < 3 ==> PySlice(ws, 0, 3) == ws
  {
    assert ws[0..|ws|] == ws;
  }

  /** `get_transaction_lines(lines)`: just the first line starting with "Totals ". */
  function TransactionLines(lines: seq<string>): (r: Result<seq<string>>)
    ensures r.Err? <==> FindStartsWith(lines, TotalsPattern, 0).Err?
    ensures r.Ok? ==> |r.value| == 1 && StartsWith(r.value[0], TotalsPattern) && r.value[0] in lines
  {
    match FindStartsWith(lines, TotalsPattern, 0)
    case Err(e) => Err(e)
    case Ok(i) => Ok([lines[i]])
  }

  // ---------------------------------------------------------------------
  // The summary row
  // ---------------------------------------------------------------------

  /**
   * The layout of the summary row: nine columns with distinct names (their
   * lengths all differ), the Beginning Balance second, and the five flows
   * the third to the seventh.
   */
  lemma ColumnsLayout()
    ensures |AllColumns| == 9 && Distinct(AllColumns) && AllColumns[1] == BeginningBalance
    ensures |Columns| == 5 && forall k :: 0 <= k < |Columns| ==> Columns[k] == AllColumns[k + 2]
  {
    var lengths := [6, 17, 13, 11, 9, 16, 22, 14, 10];
    assert forall i :: 0 <= i < |AllColumns| ==> |AllColumns[i]| == lengths[i];
  }

  /** The summary of a row with a word for every column: each column's word. */
  function SummaryOf(cols: seq<string>, ws: seq<string>): (m: map<string, string>)
    requires Distinct(cols) && |ws| >= |cols|
    ensures forall i :: 0 <= i < |cols| ==> cols[i] in m && m[cols[i]] == ws[i]
    ensures forall c :: c in m ==> c in cols
  {
    map i | 0 <= i < |cols| :: cols[i] := ws[i]
  }

  /**
   * The loop filling `summary`: column `i` takes word `i`; a row with fewer
   * words than columns raises IndexError.
   */
  method FillSummary(cols: seq<string>, ws: seq<string>) returns (r: Result<map<string, string>>)
    requires Distinct(cols)
    ensures r.Ok? <==> |ws| >= |cols|
    ensures r.Err? ==> r.error == IndexError
    ensures r.Ok? ==> r.value == SummaryOf(cols, ws)
  {
    var summary: map<string, string> := map[];
    var i := 0;
    while i < |cols|
      invariant 0 <= i <= |cols|
      invariant i <= |ws|
      invariant summary.Keys == set k | 0 <= k < i :: cols[k]
      invariant forall k :: 0 <= k < i ==> summary[cols[k]] == ws[k]
    {
      if i >= |ws| {
        return Err(IndexError);
      }
      summary := summary[cols[i] := ws[i]];
      i := i + 1;
    }
    r := Ok(summary);
  }

  /** `convert_amount_to_float(summary[col])`, kept under the column's name; a missing column raises KeyError. */
  function ReadColumn(summary: map<string, string>, env: Env, col: string): Result<(string, int)> {
    if col !in summary then Err(KeyError)
    else match Amount(env, summary[col])
      case Ok(amount) => Ok((col, amount))
      case Err(e) => Err(e)
  }

  function ColumnReader(summary: map<string, string>, env: Env): string -> Result<(string, int)> {
    col => ReadColumn(summary, env, col)
  }

  /** The five flows read from a summary row: each column's amount, in column order. */
  function Flows(ws: seq<string>, env: Env): Result<seq<(string, int)>>
    requires |ws| >= |AllColumns|
  {
    ColumnsLayout();
    Traverse(Columns, ColumnReader(SummaryOf(AllColumns, ws), env))
  }

  /**
   * Reading columns present in the summary: they are read exactly when each
   * column's text is an amount, each under its name, and an unreadable one
   * raises ValueError.
   */
  lemma ReadColumns(m: map<string, string>, cols: seq<string>, env: Env)
    requires forall k :: 0 <= k < |cols| ==> cols[k] in m
    ensures var r := Traverse(cols, ColumnReader(m, env));
            && (r.Ok? <==> forall k :: 0 <= k < |cols| ==> env.amount(m[cols[k]]).Some?)
            && (r.Ok? ==> forall k :: 0 <= k < |cols| ==> r.value[k] == (cols[k], env.amount(m[cols[k]]).value))
            && (r.Err? ==> r.error == ValueError)
  {
    var f := ColumnReader(m, env);
    TraverseOk(cols, f);
    if Traverse(cols, f).Err? {
      TraverseErr(cols, f);
      var k :| 0 <= k < |cols| && f(cols[k]).Err? && Traverse(cols, f).error == f(cols[k]).error;
      assert ReadColumn(m, env, cols[k]).Err?;
    }
  }

  /**
   * Columns read from the summary of a row, when they are the row's
   * columns from the third on: column `k` is word `k + 2`.
   */
  lemma ReadFromThird(cols: seq<string>, flows: seq<string>, ws: seq<string>, env: Env)
    requires Distinct(cols) && |ws| >= |cols| && |flows| + 2 <= |cols|
    requires forall k :: 0 <= k < |flows| ==> flows[k] == cols[k + 2]
    ensures var r := Traverse(flows, ColumnReader(SummaryOf(cols, ws), env));
            && (r.Ok? <==> forall k :: 2 <= k < |flows| + 2 ==> env.amount(ws[k]).Some?)
            && (r.Ok? ==> forall k :: 0 <= k < |flows| ==> r.value[k] == (flows[k], env.amount(ws[k + 2]).value))
            && (r.Err? ==> r.error == ValueError)
  {
    var m := SummaryOf(cols, ws);
    assert forall k :: 0 <= k < |flows| ==> m[flows[k]] == ws[k + 2];
    ReadColumns(m, flows, env);
    assert forall k :: 2 <= k < |flows| + 2 ==> ws[k] == m[flows[k - 2]];
  }

  /** The flows are words 2 to 6 of the row, under their column names. */
  lemma FlowsAreWords(ws: seq<string>, env: Env)
    requires |ws| >= |AllColumns|
    ensures Flows(ws, env).Ok? <==> forall k :: 2 <= k < 7 ==> env.amount(ws[k]).Some?
    ensures Flows(ws, env).Ok? ==> forall k :: 0 <= k < 5 ==>
              Flows(ws, env).value[k] == (Columns[k], env.amount(ws[k + 2]).value)
    ensures Flows(ws, env).Err? ==> Flows(ws, env).error == ValueError
  {
    ColumnsLayout();
    ReadFromThird(AllColumns, Columns, ws, env);
  }

  /**
   * `parse_transactions(date_range, transaction_lines)`: the first line's
   * words fill the summary; the running balance starts at the Beginning
   * Balance, and each non-zero flow, in column order, is added to it and
   * recorded under its column's name on the end date.
   */
  method ParseTransactions(end: int, transactionLines: seq<string>, env: Env) returns (r: Result<seq<Entry>>)
    ensures transactionLines == [] ==> r == Err(IndexError)
    ensures transactionLines != [] && |Words(transactionLines[0])| < |AllColumns| ==> r == Err(IndexError)
    ensures transactionLines != [] && |Words(transactionLines[0])| >= |AllColumns| ==>
              var ws := Words(transactionLines[0]);
              var flows := Flows(ws, env);
              && (env.amount(ws[1]).None? ==> r == Err(ValueError))
              && (env.amount(ws[1]).Some? && flows.Err? ==> r == Err(flows.error))
              && (env.amount(ws[1]).Some? && flows.Ok? ==>
                    r.Ok? && PostedFrom(env.amount(ws[1]).value, NonzeroPostings(flows.value, end), r.value))
  {
    if transactionLines == [] {
      return Err(IndexError);
    }
    var ws := Words(transactionLines[0]);
    ColumnsLayout();
    var summary := FillSummary(AllColumns, ws);
    if summary.Err? {
      return Err(summary.error);
    }
    var balance := Amount(env, summary.value[BeginningBalance]);
    if balance.Err? {
      return Err(balance.error);
    }
    var flows := TraverseAll(Columns, ColumnReader(summary.value, env));
    if flows.Err? {
      return Err(flows.error);
    }
    var es := PostNonzero(balance.value, end, flows.value);
    r := Ok(es);
  }

  /**
   * `parse(lines)`: the account, the period and the summary row's
   * transactions, each step's error raised as it comes.
   */
  method Parse(lines: seq<string>, env: Env) returns (r: Result<Parsed>)
    ensures AccountNumber(lines).Err? ==> r == Err(AccountNumber(lines).error)
    ensures AccountNumber(lines).Ok? && StatementDates(lines, env).Err? ==> r == Err(StatementDates(lines, env).error)
    ensures AccountNumber(lines).Ok? && StatementDates(lines, env).Ok? && TransactionLines(lines).Err?
            ==> r == Err(TransactionLines(lines).error)
    ensures AccountNumber(lines).Ok? && StatementDates(lines, env).Ok? && TransactionLines(lines).Ok? ==>
              var ws := Words(TransactionLines(lines).value[0]);
              && (|ws| < |AllColumns| ==> r == Err(IndexError))
              && (|ws| >= |AllColumns| && env.amount(ws[1]).None? ==> r == Err(ValueError))
              && (|ws| >= |AllColumns| && env.amount(ws[1]).Some? && Flows(ws, env).Err? ==> r == Err(Flows(ws, env).error))
              && (|ws| >= |AllColumns| && env.amount(ws[1]).Some? && Flows(ws, env).Ok? ==> r.Ok?)
    ensures r.Ok? ==> && AccountNumber(lines) == Ok(r.value.account)
                      && StatementDates(lines, env) == Ok((r.value.startDate, r.value.endDate))
                      && TransactionLines(lines).Ok?
                      && var ws := Words(TransactionLines(lines).value[0]);
                         && |ws| >= |AllColumns| && env.amount(ws[1]).Some? && Flows(ws, env).Ok?
                         && PostedFrom(env.amount(ws[1]).value, NonzeroPostings(Flows(ws, env).value, r.value.endDate),
                                       r.value.transactions)
  {
    var account := AccountNumber(lines);
    if account.Err? {
      return Err(account.error);
    }
    var dates := StatementDates(lines, env);
    if dates.Err? {
      return Err(dates.error);
    }
    var xs := TransactionLines(lines);
    if xs.Err? {
      return Err(xs.error);
    }
    var transactions := ParseTransactions(dates.value.1, xs.value, env);
    if transactions.Err? {
      return Err(transactions.error);
    }
    r := Ok(Parsed(dates.value.0, dates.value.1, account.value, transactions.value));
  }

  /**
   * What the summary row gives: every transaction is one of the five flow
   * columns, non-zero and dated on the statement's last day, and the
   * closing balance is the Beginning Balance plus all of them.
   */
  lemma ParsedRows(ws: seq<string>, env: Env, p: Parsed, start: int)
    requires |ws| >= |AllColumns| && Flows(ws, env).Ok?
    requires PostedFrom(start, NonzeroPostings(Flows(ws, env).value, p.endDate), p.transactions)
    ensures forall k :: 0 <= k < |p.transactions| ==>
              var e := p.transactions[k];
              e.date == p.endDate && e.amount != 0 && e.desc in Columns
    ensures Closing(start, p.transactions) == start + Sum(Amounts(p.transactions))
  {
    var flows := Flows(ws, env).value;
    NonzeroRows(start, flows, p.endDate, p.transactions);
    FlowsAreWords(ws, env);
    forall k | 0 <= k < |p.transactions|
      ensures p.transactions[k].desc in Columns
    {
      var e := p.transactions[k];
      var j :| 0 <= j < |flows| && flows[j] == (e.desc, e.amount);
      assert e.desc == Columns[j];
    }
  }
}
