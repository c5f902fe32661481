/**
 * The Vanguard 401(k) parser of src/parse/vanguard.py.  Like the
 * Transamerica statement, a quarterly Vanguard statement gives only an
 * account summary; each figure sits on its own line after its label.  The
 * parser reads the five figures, starts the running balance at the
 * beginning balance, and turns each non-zero flow into one transaction on
 * the statement's last day.
 */
module ParseVanguard {
  import opened Wrappers
  import opened Text
  import opened Lines
  import opened Helpers
  import opened Ledger

  /** Two en dashes, which precede the account number. */
  const AccountPattern: string := "\U{2013}\U{2013}"
  const DateFormat: string := "%m/%d/%Y"
  const DatePattern: string := "ACCOUNT SUMMARY: "
  const SummaryStart: string := "Your Account Summary"
  const SummaryEnd: string := "Your Investments"

  /** The summary's labels, in the order they are read. */
  const Entries: seq<string> := ["Beginning balance", "Employer contributions", "Market gain/loss",
                                 "Other transactions", "Ending balance"]

  /** The labels that become transactions, in the order they are posted. */
  const FlowEntries: seq<string> := ["Employer contributions", "Market gain/loss", "Other transactions"]

  /** `get_account_number(lines)`: the last word of the first line holding two en dashes. */
  function AccountNumber(lines: seq<string>): (r: Result<string>)
    ensures FindParam(lines, AccountPattern, 0).Err? ==> r == Err(ValueError)
    ensures FindParam(lines, AccountPattern, 0).Ok? ==> r == LastWord(lines[FindParam(lines, AccountPattern, 0).value])
  {
    match FindParam(lines, AccountPattern, 0)
    case Err(e) => Err(e)
    case Ok(i) => LastWord(lines[i])
  }

  /**
   * The two halves of the date range: the text after the line's last ":"
   * split on "-", each piece stripped.
   */
  function DateParts(line: string): seq<string> {
    StrippedSplit(AfterLast(line, ":"), "-")
  }

  /**
   * `get_statement_dates(lines)`: the first line holding "ACCOUNT SUMMARY: "
   * gives the start and end dates, the first two of its date parts; a range
   * without a "-" raises IndexError.
   */
  function StatementDates(lines: seq<string>, env: Env): (r: Result<(int, int)>)
    ensures FindParam(lines, DatePattern, 0).Err? ==> r == Err(ValueError)
    ensures FindParam(lines, DatePattern, 0).Ok? ==>
              var parts := DateParts(lines[FindParam(lines, DatePattern, 0).value]);
              && (|parts| < 2 ==> r == Err(IndexError))
              && (r.Ok? ==> && |parts| >= 2
                            && Strptime(env, parts[0], DateFormat) == Ok(r.value.0)
                            && Strptime(env, parts[1], DateFormat) == Ok(r.value.1))
    ensures r.Err? ==> r.error in {ValueError, IndexError}
  {
    match FindParam(lines, DatePattern, 0)
    case Err(e) => Err(e)
    case Ok(i) =>
      var parts := DateParts(lines[i]);
      if |parts| < 2 then Err(IndexError)
      else
        match Strptime(env, parts[0], DateFormat)
        case Err(e) => Err(e)
        case Ok(start) =>
          match Strptime(env, parts[1], DateFormat)
          case Err(e) => Err(e)
          case Ok(end) => Ok((start, end))
  }

  /**
   * `get_transaction_lines(lines)`: the lines from the first one starting
   * with "Your Account Summary" up to, not including, the first one
   * starting with "Your Investments"; none when the second comes first.
   */
  function TransactionLines(lines: seq<string>): (r: Result<seq<string>>)
    ensures r.Err? <==> FindStartsWith(lines, SummaryStart, 0).Err? || FindStartsWith(lines, SummaryEnd, 0).Err?
    ensures r.Ok? ==> var i := FindStartsWith(lines, SummaryStart, 0).value;
                      var j := FindStartsWith(lines, SummaryEnd, 0).value;
                      && (i <= j ==> r.value == lines[i..j])
                      && (j < i ==> r.value == [])
  {
    match FindStartsWith(lines, SummaryStart, 0)
    case Err(e) => Err(e)
    case Ok(i) =>
      match FindStartsWith(lines, SummaryEnd, 0)
      case Err(e) => Err(e)
      case Ok(j) => Ok(PySlice(lines, i, j))
  }

  // ---------------------------------------------------------------------
  // The summary
  // ---------------------------------------------------------------------

  /** `line.replace(entry, "")`; Python leaves a line unchanged when the pattern is empty. */
  function Removed(line: string, entry: string): string {
    if entry == [] then line else Replace(line, entry, "")
  }

  /**
   * One summary figure: the first transaction line holding the label, with
   * the label removed; its first word is the amount.  A missing label or
   * amount raises ValueError, a line with nothing but the label IndexError.
   */
  function EntryAmount(xs: seq<string>, entry: string, env: Env): (r: Result<int>)
    ensures FindParam(xs, entry, 0).Err? ==> r == Err(ValueError)
    ensures FindParam(xs, entry, 0).Ok? ==>
              var ws := Words(Removed(xs[FindParam(xs, entry, 0).value], entry));
              && (ws == [] ==> r == Err(IndexError))
              && (ws != [] ==> r == Amount(env, ws[0]))
  {
    match FindParam(xs, entry, 0)
    case Err(e) => Err(e)
    case Ok(i) =>
      var ws := Words(Removed(xs[i], entry));
      if ws == [] then Err(IndexError) else Amount(env, ws[0])
  }

  function EntryReader(xs: seq<string>, env: Env): string -> Result<int> {
    entry => EntryAmount(xs, entry, env)
  }

  /**
   * The loop filling `summary`: each label's figure in turn, stored under
   * the label; the first label that cannot be read raises its error.
   */
  method ReadSummary(entries: seq<string>, read: string -> Result<int>) returns (r: Result<map<string, int>>)
    requires Distinct(entries)
    ensures var t := Traverse(entries, read);
            && (t.Err? ==> r == Err(t.error))
            && (t.Ok? ==> && r.Ok?
                          && r.value.Keys == (set k | 0 <= k < |entries| :: entries[k])
                          && forall k :: 0 <= k < |entries| ==> entries[k] in r.value && r.value[entries[k]] == t.value[k])
  {
    ghost var values: seq<int> := [];
    var summary: map<string, int> := map[];
    var i := 0;
    while i < |entries|
      invariant 0 <= i <= |entries| && |values| == i
      invariant Traverse(entries[..i], read) == Ok(values)
      invariant summary.Keys == set k | 0 <= k < i :: entries[k]
      invariant forall k :: 0 <= k < i ==> entries[k] in summary && summary[entries[k]] == values[k]
    {
      var amount := read(entries[i]);
      if amount.Err? {
        TraverseFails(entries, i, read, values);
        return Err(amount.error);
      }
      TraverseNext(entries, i, read, values);
      SummaryStep(entries, i, summary, values, amount.value);
      summary := summary[entries[i] := amount.value];
      values := values + [amount.value];
      i := i + 1;
    }
    assert entries[..i] == entries;
    r := Ok(summary);
  }

  /** Storing the next label's figure keeps every earlier label's figure, the labels being distinct. */
  lemma SummaryStep(entries: seq<string>, i: nat, summary: map<string, int>, values: seq<int>, v: int)
    requires Distinct(entries) && i < |entries| && |values| == i
    requires summary.Keys == set k | 0 <= k < i :: entries[k]
    requires forall k :: 0 <= k < i ==> entries[k] in summary && summary[entries[k]] == values[k]
    ensures var next := summary[entries[i] := v];
            && next.Keys == (set k | 0 <= k < i + 1 :: entries[k])
            && forall k :: 0 <= k < i + 1 ==> entries[k] in next && next[entries[k]] == (values + [v])[k]
  {
    var next := summary[entries[i] := v];
    forall k | 0 <= k < i
      ensures next[entries[k]] == summary[entries[k]]
    {
      assert entries[k] != entries[i];
    }
  }

  /** The summary's layout: distinct labels, the beginning balance first and the three flows next. */
  lemma EntriesLayout()
    ensures |Entries| == 5 && Distinct(Entries)
    ensures |FlowEntries| == 3 && forall k :: 0 <= k < |FlowEntries| ==> FlowEntries[k] == Entries[k + 1]
  {
    var lengths := [17, 22, 16, 18, 14];
    assert forall i :: 0 <= i < |Entries| ==> |Entries[i]| == lengths[i];
  }

  /** The flows' figures under their labels. */
  function FlowItems(values: seq<int>): (items: seq<(string, int)>)
    requires |values| == |Entries|
    ensures |items| == |FlowEntries|
    ensures forall k :: 0 <= k < |FlowEntries| ==> items[k] == (FlowEntries[k], values[k + 1])
  {
    seq(|FlowEntries|, k requires 0 <= k < |FlowEntries| => (FlowEntries[k], values[k + 1]))
  }

  /**
   * `parse_transactions(date_range, transaction_lines)`: the five figures,
   * then the running balance from the beginning balance, adding each
   * non-zero flow, in label order, under its label on the end date.
   */
  method ParseTransactions(end: int, xs: seq<string>, env: Env) returns (r: Result<seq<Entry>>)
    ensures var t := Traverse(Entries, EntryReader(xs, env));
            && (t.Err? ==> r == Err(t.error))
            && (t.Ok? ==> r.Ok? && PostedFrom(t.value[0], NonzeroPostings(FlowItems(t.value), end), r.value))
  {
    EntriesLayout();
    var summary := ReadSummary(Entries, EntryReader(xs, env));
    if summary.Err? {
      return Err(summary.error);
    }
    ghost var values := Traverse(Entries, EntryReader(xs, env)).value;
    var balance := summary.value[Entries[0]];
    var items := seq(|FlowEntries|, k requires 0 <= k < |FlowEntries| => (FlowEntries[k], summary.value[FlowEntries[k]]));
    assert items == FlowItems(values);
    var es := PostNonzero(balance, end, items);
    r := Ok(es);
  }

  /** The figures read are each label's own figure, in label order. */
  lemma FiguresMeaning(xs: seq<string>, env: Env)
    ensures var t := Traverse(Entries, EntryReader(xs, env));
            && (t.Ok? <==> forall k :: 0 <= k < |Entries| ==> EntryAmount(xs, Entries[k], env).Ok?)
            && (t.Ok? ==> forall k :: 0 <= k < |Entries| ==> t.value[k] == EntryAmount(xs, Entries[k], env).value)
  {
    TraverseOk(Entries, EntryReader(xs, env));
  }

  /**
   * What the summary gives: every transaction is one of the three flows,
   * non-zero and dated on the statement's last day, and the closing
   * balance is the beginning balance plus all of them.
   */
  lemma ParsedRows(values: seq<int>, end: int, es: seq<Entry>)
    requires |values| == |Entries| && PostedFrom(values[0], NonzeroPostings(FlowItems(values), end), es)
    ensures forall k :: 0 <= k < |es| ==> es[k].date == end && es[k].amount != 0 && es[k].desc in FlowEntries
    ensures Closing(values[0], es) == values[0] + Sum(Amounts(es))
  {
    var items := FlowItems(values);
    NonzeroRows(values[0], items, end, es);
    forall k | 0 <= k < |es|
      ensures es[k].desc in FlowEntries
    {
      var j :| 0 <= j < |items| && items[j] == (es[k].desc, es[k].amount);
      assert es[k].desc == FlowEntries[j];
    }
  }

  /**
   * `parse(lines)`: the account, the period and the summary's
   * transactions, each step's error raised as it comes.
   */
  method Parse(lines: seq<string>, env: Env) returns (r: Result<Parsed>)
    ensures AccountNumber(lines).Err? ==> r == Err(AccountNumber(lines).error)
    ensures AccountNumber(lines).Ok? && StatementDates(lines, env).Err? ==> r == Err(StatementDates(lines, env).error)
    ensures AccountNumber(lines).Ok? && StatementDates(lines, env).Ok? && TransactionLines(lines).Err?
            ==> r == Err(TransactionLines(lines).error)
    ensures AccountNumber(lines).Ok? && StatementDates(lines, env).Ok? && TransactionLines(lines).Ok? ==>
              var t := Traverse(Entries, EntryReader(TransactionLines(lines).value, env));
              && (t.Err? ==> r == Err(t.error))
              && (t.Ok? ==> r.Ok?)
    ensures r.Ok? ==> && AccountNumber(lines) == Ok(r.value.account)
                      && StatementDates(lines, env) == Ok((r.value.startDate, r.value.endDate))
                      && TransactionLines(lines).Ok?
                      && var t := Traverse(Entries, EntryReader(TransactionLines(lines).value, env));
                         && t.Ok?
                         && PostedFrom(t.value[0], NonzeroPostings(FlowItems(t.value), r.value.endDate), r.value.transactions)
  {
    var account := AccountNumber(lines);
    if account.Err? {
      return Err(account.error);
    }
    var dates := StatementDates(lines, env);
    if dates.Err? {
      return Err(dates.error);
    }
    var xs := TransactionLines(lines);
    if xs.Err? {
      return Err(xs.error);
    }
    var transactions := ParseTransactions(dates.value.1, xs.value, env);
    if transactions.Err? {
      return Err(transactions.error);
    }
    r := Ok(Parsed(dates.value.0, dates.value.1, account.value, transactions.value));
  }
}
