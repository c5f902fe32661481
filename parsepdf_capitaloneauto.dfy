/**
 * The Capital One auto loan parser of src/core/parsepdf/capitaloneauto.py.
 * The statement has a payment table whose header names the columns; the
 * rows are the `mm/dd/yyyy` lines right under it.  The amounts of the
 * columns to the right of "Principal" are read from the end of each row:
 * the Total becomes a transaction under the row's description and the
 * Interest an "Interest Fee", with the interest kept positive and every
 * other amount negated.  Only the ending balance is printed, so the start
 * balance is worked back from it through every amount parsed.
 */
module ParsepdfCapitaloneauto {
  import opened Wrappers
  import opened Text
  import opened Lines
  import opened Helpers
  import opened Ledger
  import opened Records

  const DateFormat: string := "%m/%d/%Y"
  const AccountPattern: string := "Account Number:"
  const BalancePattern: string := "Principal Balance:"
  const DatesPattern: string := "Transactions between (\\d{2}/\\d{2}/\\d{4}) - (\\d{2}/\\d{2}/\\d{4})"

  // ---------------------------------------------------------------------
  // Dates, account number and balance
  // ---------------------------------------------------------------------

  /**
   * `get_statement_dates()`: the two dates of "Transactions between
   * mm/dd/yyyy - mm/dd/yyyy", the third and fifth words of the match.  A
   * missing match or an unreadable date raises ValueError.
   */
  function StatementDates(text: string, env: Env): Result<(int, int)> {
    match env.search(DatesPattern, text)
    case None => Err(ValueError)
    case Some(m) =>
      var ws := Words(m);
      if |ws| < 5 then Err(ValueError)
      else
        var start := Strptime(env, ws[2], DateFormat);
        var end := Strptime(env, ws[4], DateFormat);
        if start.Err? || end.Err? then Err(ValueError) else Ok((start.value, end.value))
  }

  /**
   * The period's dates are the third and fifth words of the matched text;
   * no match, too few words or a bad date raises ValueError.
   */
  lemma StatementDatesMeaning(text: string, env: Env)
    ensures var r := StatementDates(text, env);
            && (r.Err? ==> r.error == ValueError)
            && (env.search(DatesPattern, text).None? ==> r.Err?)
            && (r.Ok? ==> var ws := Words(env.search(DatesPattern, text).value);
                          |ws| >= 5 && Strptime(env, ws[2], DateFormat) == Ok(r.value.0)
                          && Strptime(env, ws[4], DateFormat) == Ok(r.value.1))
  {
  }

  /**
   * The start date `get_statement_dates()` leaves stored, `previous` being
   * the one stored before the call. The start is stored as soon as it
   * reads, before the end date is read.
   */
  function StoredStart(text: string, env: Env, previous: int): int {
    match env.search(DatesPattern, text)
    case None => previous
    case Some(m) =>
      var ws := Words(m);
      if |ws| < 5 then previous
      else
        match Strptime(env, ws[2], DateFormat)
        case Err(_) => previous
        case Ok(start) => start
  }

  /** A period read leaves its own start stored. */
  lemma StoredStartOfPeriod(text: string, env: Env, previous: int)
    ensures StatementDates(text, env).Ok? ==> StoredStart(text, env, previous) == StatementDates(text, env).value.0
  {
  }

  /**
   * No match stores nothing, and an end date that does not read raises
   * while the new start stays stored.
   */
  lemma StoredStartMeaning(text: string, env: Env, previous: int)
    ensures env.search(DatesPattern, text).None? ==> StoredStart(text, env, previous) == previous
    ensures env.search(DatesPattern, text).Some? && |Words(env.search(DatesPattern, text).value)| >= 5 ==>
              var ws := Words(env.search(DatesPattern, text).value);
              Strptime(env, ws[2], DateFormat).Ok? && Strptime(env, ws[4], DateFormat).Err? ==>
                && StatementDates(text, env).Err?
                && StoredStart(text, env, previous) == Strptime(env, ws[2], DateFormat).value
  {
  }

  /** `get_account_number()`: the first word after "Account Number:" on the first line holding it. */
  function AccountNumber(lines: seq<string>): (r: Result<string>)
    ensures FindParam(lines, AccountPattern, 0).Err? ==> r == Err(ValueError)
    ensures r.Ok? ==> r == WordAfter(lines[FindParam(lines, AccountPattern, 0).value], AccountPattern)
  {
    match FindParam(lines, AccountPattern, 0)
    case Err(e) => Err(e)
    case Ok(i) => WordAfter(lines[i], AccountPattern)
  }

  /** `get_statement_balances()`: the ending principal balance, negated. */
  function EndBalance(lines: seq<string>, env: Env): (r: Result<int>)
    ensures FindParam(lines, BalancePattern, 0).Err? ==> r == Err(ValueError)
    ensures r.Ok? ==> var w := WordAfter(lines[FindParam(lines, BalancePattern, 0).value], BalancePattern);
                      w.Ok? && env.amount(w.value) == Some(-r.value)
  {
    match FindParam(lines, BalancePattern, 0)
    case Err(e) => Err(e)
    case Ok(i) =>
      match WordAfter(lines[i], BalancePattern)
      case Err(e) => Err(e)
      case Ok(w) => Negated(env, w)
  }

  // ---------------------------------------------------------------------
  // The table
  // ---------------------------------------------------------------------

  /** The header line names the Date, Description, Principal and Total columns. */
  predicate IsHeader(line: string) {
    Contains(line, "Date") && Contains(line, "Description") && Contains(line, "Principal") && Contains(line, "Total")
  }

  /** `column_names(lines)`: the first header line's index and its words; ValueError when there is none. */
  function ColumnNames(lines: seq<string>): (r: Result<(nat, seq<string>)>)
    ensures r.Err? <==> forall j :: 0 <= j < |lines| ==> !IsHeader(lines[j])
    ensures r.Err? ==> r.error == ValueError
    ensures r.Ok? ==> r.value.0 < |lines| && IsHeader(lines[r.value.0]) && r.value.1 == Words(lines[r.value.0])
                      && forall j :: 0 <= j < r.value.0 ==> !IsHeader(lines[j])
    ensures r.Ok? ==> r.value.1 != []
  {
    match First(lines, IsHeader)
    case None => Err(ValueError)
    case Some(i) => HeaderHasWords(lines[i]); Ok((i, Words(lines[i])))
  }

  /** A header line has at least one word. */
  lemma HeaderHasWords(line: string)
    requires IsHeader(line)
    ensures Words(line) != []
  {
    var i :| 0 <= i <= |line| && OccursAt(line, "Date", i);
    assert line[i] == 'D';
    BlankIffNoWords(line);
  }

  /** Where the run of dated lines after the header ends. */
  function TableEnd(lines: seq<string>, i: nat): (e: nat)
    requires i < |lines|
    ensures i + 1 <= e <= |lines|
    ensures forall j :: i + 1 <= j < e ==> LeadingMmDdYyyy(lines[j])
    ensures e < |lines| ==> !LeadingMmDdYyyy(lines[e])
  {
    match FirstFrom(lines, (l: string) => !LeadingMmDdYyyy(l), i + 1)
    case Some(e) => e
    case None => |lines|
  }

  /** The table's rows: the dated lines right under the header, up to the first other line. */
  function TableRows(lines: seq<string>, i: nat): seq<string>
    requires i < |lines|
  {
    lines[i + 1..TableEnd(lines, i)]
  }

  /** The loop that collects the rows and breaks at the end of the table. */
  method GetTableRows(lines: seq<string>, i: nat) returns (rows: seq<string>)
    requires i < |lines|
    ensures rows == TableRows(lines, i)
  {
    rows := [];
    var k := i + 1;
    while k < |lines|
      invariant i + 1 <= k <= TableEnd(lines, i)
      invariant rows == lines[i + 1..k]
    {
      if !LeadingMmDdYyyy(lines[k]) {
        break;
      }
      rows := rows + [lines[k]];
      k := k + 1;
    }
  }

  // ---------------------------------------------------------------------
  // One row
  // ---------------------------------------------------------------------

  /** A column's amount as a pair of the column name and its signed amount. */
  type Amounts = seq<(string, int)>

  /** `amounts[col] = v` on an insertion-ordered dict: a known key keeps its place, a new one goes last. */
  function Put(al: Amounts, col: string, v: int): (r: Amounts)
    ensures (exists k :: 0 <= k < |al| && al[k].0 == col) ==> |r| == |al|
    ensures (forall k :: 0 <= k < |al| ==> al[k].0 != col) ==> r == al + [(col, v)]
    ensures forall k :: 0 <= k < |al| ==> r[k] == (if al[k].0 == col then (col, v) else al[k])
  {
    if exists k :: 0 <= k < |al| && al[k].0 == col
    then seq(|al|, k requires 0 <= k < |al| => if al[k].0 == col then (col, v) else al[k])
    else al + [(col, v)]
  }

  /** A dict's keys: no column twice. */
  predicate DistinctKeys(al: Amounts) {
    forall a, b :: 0 <= a < b < |al| ==> al[a].0 != al[b].0
  }

  /** Storing into the dict keeps its keys distinct, and the stored key is then found with the new value. */
  lemma PutLookup(al: Amounts, col: string, v: int)
    requires DistinctKeys(al)
    ensures DistinctKeys(Put(al, col, v))
    ensures exists k :: 0 <= k < |Put(al, col, v)| && Put(al, col, v)[k] == (col, v)
    ensures forall k :: 0 <= k < |al| && al[k].0 != col ==> al[k] in Put(al, col, v)
  {
    var r := Put(al, col, v);
    if exists k :: 0 <= k < |al| && al[k].0 == col {
      var k :| 0 <= k < |al| && al[k].0 == col;
      assert r[k] == (col, v);
    } else {
      assert r[|al|] == (col, v);
    }
  }

  /** `amount if col == "Interest" else -amount`. */
  function Signed(col: string, amount: int): int {
    if col == "Interest" then amount else -amount
  }

  /**
   * The amount loop from position `i` of the reversed columns: stop at
   * "Principal", otherwise read the `i`-th word from the end.  Gives the
   * amounts and the position the loop ended at.
   */
  function AmountsFrom(ws: seq<string>, rcols: seq<string>, env: Env, i: nat, acc: Amounts): (r: Result<(Amounts, nat)>)
    requires i < |rcols|
    ensures r.Ok? ==> i <= r.value.1 < |rcols|
    ensures r.Ok? ==> rcols[r.value.1] == "Principal" || r.value.1 == |rcols| - 1
    ensures r.Ok? ==> forall j :: i <= j < r.value.1 ==> rcols[j] != "Principal"
    decreases |rcols| - i
  {
    if rcols[i] == "Principal" then Ok((acc, i))
    else if i + 1 > |ws| then Err(IndexError)
    else
      match Amount(env, ws[|ws| - 1 - i])
      case Err(e) => Err(e)
      case Ok(a) =>
        var acc' := Put(acc, rcols[i], Signed(rcols[i], a));
        if i + 1 == |rcols| then Ok((acc', i)) else AmountsFrom(ws, rcols, env, i + 1, acc')
  }

  function Reverse(xs: seq<string>): (r: seq<string>)
    ensures |r| == |xs| && forall k :: 0 <= k < |xs| ==> r[k] == xs[|xs| - 1 - k]
  {
    seq(|xs|, k requires 0 <= k < |xs| => xs[|xs| - 1 - k])
  }

  /** `words.pop(-2)` when the second-to-last word is "=". */
  function DropEquals(ws: seq<string>): (r: seq<string>)
    requires |ws| >= 2
    ensures ws[|ws| - 2] == "=" ==> r == ws[..|ws| - 2] + [ws[|ws| - 1]]
    ensures ws[|ws| - 2] != "=" ==> r == ws
  {
    if ws[|ws| - 2] == "=" then ws[..|ws| - 2] + [ws[|ws| - 1]] else ws
  }

  /** One entry of the melting loop: Total and Interest become transactions, any other column raises. */
  function MeltOne(posting: int, desc: string): ((string, int)) -> Result<Txn> {
    (ca: (string, int)) =>
      if ca.0 == "Total" then Ok(Txn(posting, Some(posting), ca.1, Omitted, desc))
      else if ca.0 == "Interest" then Ok(Txn(posting, Some(posting), ca.1, Omitted, "Interest Fee"))
      else Err(ValueError)
  }

  /**
   * One row of `parse_transaction_lines`: at least as many words as
   * columns, an "=" before the last word dropped, the date first, the
   * amounts read from the end, the words between the date and the amounts
   * as the description, and the amounts melted into transactions.
   */
  function ParseRow(line: string, columns: seq<string>, env: Env): (r: Result<seq<Txn>>)
    requires columns != []
    ensures |Words(line)| < |columns| ==> r == Err(ValueError)
    ensures r.Ok? ==> |Words(line)| >= 2
  {
    var ws0 := Words(line);
    if |ws0| < |columns| then Err(ValueError)
    else if |ws0| < 2 then Err(IndexError)
    else
      var ws := DropEquals(ws0);
      match Strptime(env, ws[0], DateFormat)
      case Err(e) => Err(e)
      case Ok(posting) =>
        match AmountsFrom(ws, Reverse(columns), env, 0, [])
        case Err(e) => Err(e)
        case Ok((amounts, i)) =>
          var desc := JoinSpace(PySlice(ws, 1, -(i as int) - 1));
          Traverse(amounts, MeltOne(posting, desc))
  }

  /** Every melted amount is a Total or an Interest, kept as the transaction's amount, in column order. */
  lemma MeltMeaning(amounts: Amounts, posting: int, desc: string)
    ensures var r := Traverse(amounts, MeltOne(posting, desc));
            && (r.Ok? <==> forall k :: 0 <= k < |amounts| ==> amounts[k].0 in {"Total", "Interest"})
            && (r.Ok? ==> forall k :: 0 <= k < |amounts| ==>
                            r.value[k].amount == amounts[k].1 && r.value[k].postingDate == posting
                            && r.value[k].desc == (if amounts[k].0 == "Total" then desc else "Interest Fee"))
  {
    TraverseOk(amounts, MeltOne(posting, desc));
  }

  /**
   * `ca` was read from the row: its column is one of the reversed columns
   * from `i` on, and its amount is the word that column reads from the end
   * of the row, kept for Interest and negated for any other column.
   */
  predicate ReadFrom(ws: seq<string>, rcols: seq<string>, env: Env, i: nat, ca: (string, int)) {
    exists j :: i <= j < |rcols| && j < |ws| && rcols[j] == ca.0
                && Amount(env, ws[|ws| - 1 - j]).Ok?
                && ca.1 == (if ca.0 == "Interest" then Amount(env, ws[|ws| - 1 - j]).value
                            else -Amount(env, ws[|ws| - 1 - j]).value)
  }

  /** Every amount the loop stores was already in the dict or was read, with its sign, from the row. */
  lemma {:induction false} AmountsFromRead(ws: seq<string>, rcols: seq<string>, env: Env, i: nat, acc: Amounts)
    requires i < |rcols|
    ensures var r := AmountsFrom(ws, rcols, env, i, acc);
            r.Ok? ==> forall k :: 0 <= k < |r.value.0| ==> r.value.0[k] in acc || ReadFrom(ws, rcols, env, i, r.value.0[k])
    decreases |rcols| - i
  {
    var r := AmountsFrom(ws, rcols, env, i, acc);
    if r.Ok? && rcols[i] != "Principal" {
      var a := Amount(env, ws[|ws| - 1 - i]).value;
      var ca := (rcols[i], Signed(rcols[i], a));
      var acc' := Put(acc, ca.0, ca.1);
      assert ReadFrom(ws, rcols, env, i, ca);
      PutKeeps(acc, ca.0, ca.1);
      if i + 1 < |rcols| {
        assert r == AmountsFrom(ws, rcols, env, i + 1, acc');
        AmountsFromRead(ws, rcols, env, i + 1, acc');
        ReadLater(ws, rcols, env, i, acc, ca, acc', r.value.0);
      }
    }
  }

  /** What `Put` stores is the old dict's entries and the new one. */
  lemma PutKeeps(al: Amounts, col: string, v: int)
    ensures forall k :: 0 <= k < |Put(al, col, v)| ==> Put(al, col, v)[k] in al || Put(al, col, v)[k] == (col, v)
  {
    var r := Put(al, col, v);
    forall k | 0 <= k < |r|
      ensures r[k] in al || r[k] == (col, v)
    {
      if k < |al| && al[k].0 != col {
        assert r[k] == al[k];
      }
    }
  }

  /** The step of AmountsFromRead: what was read from column `i + 1` on was read from column `i` on. */
  lemma ReadLater(ws: seq<string>, rcols: seq<string>, env: Env, i: nat, acc: Amounts, ca: (string, int), acc': Amounts, out: Amounts)
    requires ReadFrom(ws, rcols, env, i, ca)
    requires forall k :: 0 <= k < |acc'| ==> acc'[k] in acc || acc'[k] == ca
    requires forall k :: 0 <= k < |out| ==> out[k] in acc' || ReadFrom(ws, rcols, env, i + 1, out[k])
    ensures forall k :: 0 <= k < |out| ==> out[k] in acc || ReadFrom(ws, rcols, env, i, out[k])
  {
    forall k | 0 <= k < |out|
      ensures out[k] in acc || ReadFrom(ws, rcols, env, i, out[k])
    {
      var x := out[k];
      if x in acc' {
        var m :| 0 <= m < |acc'| && acc'[m] == x;
      } else {
        var j :| i + 1 <= j < |rcols| && j < |ws| && rcols[j] == x.0
                 && Amount(env, ws[|ws| - 1 - j]).Ok?
                 && x.1 == (if x.0 == "Interest" then Amount(env, ws[|ws| - 1 - j]).value
                            else -Amount(env, ws[|ws| - 1 - j]).value);
        assert i <= j;
      }
    }
  }

  /**
   * A transaction of the row comes from a Total or Interest column: its
   * amount is the word that column reads from the end of the row, kept for
   * Interest (then described as "Interest Fee") and negated for Total.
   */
  predicate FromColumn(t: Txn, ws: seq<string>, rcols: seq<string>, env: Env) {
    exists j :: 0 <= j < |rcols| && j < |ws| && rcols[j] in {"Total", "Interest"}
                && Amount(env, ws[|ws| - 1 - j]).Ok?
                && t.amount == (if rcols[j] == "Interest" then Amount(env, ws[|ws| - 1 - j]).value
                                else -Amount(env, ws[|ws| - 1 - j]).value)
                && (rcols[j] == "Interest" ==> t.desc == "Interest Fee")
  }

  /** Every transaction of a parsed row is a Total or an Interest amount read from the row, with its sign. */
  lemma ParseRowSigned(line: string, columns: seq<string>, env: Env)
    requires columns != []
    ensures var r := ParseRow(line, columns, env);
            r.Ok? ==> && |Words(line)| >= 2
                      && forall k :: 0 <= k < |r.value| ==> FromColumn(r.value[k], DropEquals(Words(line)), Reverse(columns), env)
  {
    var r := ParseRow(line, columns, env);
    if r.Ok? {
      var ws := DropEquals(Words(line));
      var rcols := Reverse(columns);
      var posting := Strptime(env, ws[0], DateFormat).value;
      var res := AmountsFrom(ws, rcols, env, 0, []).value;
      var desc := JoinSpace(PySlice(ws, 1, -(res.1 as int) - 1));
      assert r == Traverse(res.0, MeltOne(posting, desc));
      AmountsFromRead(ws, rcols, env, 0, []);
      MeltedFromColumns(res.0, posting, desc, ws, rcols, env);
    }
  }

  /** Melting amounts read from the row gives transactions that each come from a Total or Interest column. */
  lemma MeltedFromColumns(amounts: Amounts, posting: int, desc: string, ws: seq<string>, rcols: seq<string>, env: Env)
    requires forall k :: 0 <= k < |amounts| ==> ReadFrom(ws, rcols, env, 0, amounts[k])
    ensures var r := Traverse(amounts, MeltOne(posting, desc));
            r.Ok? ==> forall k :: 0 <= k < |r.value| ==> FromColumn(r.value[k], ws, rcols, env)
  {
    var r := Traverse(amounts, MeltOne(posting, desc));
    if r.Ok? {
      MeltMeaning(amounts, posting, desc);
      forall k | 0 <= k < |r.value|
        ensures FromColumn(r.value[k], ws, rcols, env)
      {
        var ca := amounts[k];
        assert ReadFrom(ws, rcols, env, 0, ca);
        var j :| 0 <= j < |rcols| && j < |ws| && rcols[j] == ca.0
                 && Amount(env, ws[|ws| - 1 - j]).Ok?
                 && ca.1 == (if ca.0 == "Interest" then Amount(env, ws[|ws| - 1 - j]).value
                             else -Amount(env, ws[|ws| - 1 - j]).value);
        assert rcols[j] in {"Total", "Interest"};
      }
    }
  }

  function RowParser(columns: seq<string>, env: Env): string -> Result<seq<Txn>>
    requires columns != []
  {
    line => ParseRow(line, columns, env)
  }

  /** The sum of the transactions' amounts. */
  function Total(ts: seq<Txn>): int {
    if ts == [] then 0 else Total(ts[..|ts| - 1]) + ts[|ts| - 1].amount
  }

  lemma TotalAppend(a: seq<Txn>, b: seq<Txn>)
    ensures Total(a + b) == Total(a) + Total(b)
    decreases |b|
  {
    if b != [] {
      assert (a + b)[..|a + b| - 1] == a + b[..|b| - 1];
      TotalAppend(a, b[..|b| - 1]);
    } else {
      assert a + b == a;
    }
  }

  // ---------------------------------------------------------------------
  // The parser object
  // ---------------------------------------------------------------------

  /** The parser's state: the statement's lines, and the balances it reads and works back. */
  class Parser {
    var lines: seq<string>
    var text: string
    var startDate: int
    var endDate: int
    var startBalance: int
    var endBalance: int

    constructor()
      ensures lines == [] && text == []
    {
      lines := [];
      text := [];
    }

    /**
     * `get_statement_dates()`: the start date is stored once it reads,
     * before the end date is read; any failure raises ValueError.
     */
    method GetStatementDates(env: Env) returns (err: Option<Error>)
      modifies this
      ensures var d := StatementDates(old(text), env);
              && (d.Ok? ==> err.None? && startDate == d.value.0 && endDate == d.value.1)
              && (d.Err? ==> err == Some(ValueError) && endDate == old(endDate))
      ensures startDate == StoredStart(old(text), env, old(startDate))
      ensures lines == old(lines) && text == old(text)
      ensures startBalance == old(startBalance) && endBalance == old(endBalance)
    {
      var d := StatementDates(text, env);
      var start := StoredStart(text, env, startDate);
      StoredStartOfPeriod(text, env, startDate);
      startDate := start;
      if d.Err? {
        return Some(ValueError);
      }
      endDate := d.value.1;
      err := None;
    }

    /** `get_statement_balances()`: sets the ending balance, or raises and leaves it. */
    method GetStatementBalances(env: Env) returns (err: Option<Error>)
      modifies this
      ensures var b := EndBalance(old(lines), env);
              && (b.Ok? ==> err.None? && endBalance == b.value)
              && (b.Err? ==> err == Some(b.error) && endBalance == old(endBalance))
      ensures lines == old(lines) && text == old(text) && startBalance == old(startBalance)
      ensures startDate == old(startDate) && endDate == old(endDate)
    {
      var b := EndBalance(lines, env);
      if b.Err? {
        return Some(b.error);
      }
      endBalance := b.value;
      err := None;
    }

    /**
     * `parse_transaction_lines()`: every row's transactions in order; the
     * start balance is the ending balance less every amount parsed.
     */
    method ParseTransactionLines(env: Env) returns (r: Result<seq<Txn>>)
      modifies this`startBalance
      ensures r == Transactions(lines, env)
      ensures r.Ok? ==> startBalance == endBalance - Total(r.value)
    {
      var cols := ColumnNames(lines);
      if cols.Err? {
        return Err(ValueError);
      }
      var (i, columns) := cols.value;
      var rows := GetTableRows(lines, i);
      var end := endBalance;
      startBalance := end;
      r := MeltRows(rows, RowParser(columns, env));
      assert endBalance == end;
    }

    /**
     * The melting loop over the table rows: each row's transactions
     * appended in turn, every amount subtracted from the start balance;
     * the first row that raises ends it.
     */
    method MeltRows(rows: seq<string>, parse: string -> Result<seq<Txn>>) returns (r: Result<seq<Txn>>)
      modifies this`startBalance
      ensures r == Concat(rows, parse)
      ensures r.Ok? ==> startBalance == old(startBalance) - Total(r.value)
    {
      var transactions: seq<Txn> := [];
      var k := 0;
      while k < |rows|
        invariant 0 <= k <= |rows|
        invariant Concat(rows[..k], parse) == Ok(transactions)
        invariant startBalance == old(startBalance) - Total(transactions)
      {
        ConcatStep(rows, k, parse);
        var parsed := parse(rows[k]);
        if parsed.Err? {
          ConcatStopped(rows, k + 1, parse);
          return Err(parsed.error);
        }
        TotalAppend(transactions, parsed.value);
        startBalance := startBalance - Total(parsed.value);
        transactions := transactions + parsed.value;
        k := k + 1;
      }
      assert rows[..k] == rows;
      r := Ok(transactions);
    }

    /**
     * `extract_account()`: the account number, the balances and the
     * transactions; any failure is raised as ValueError.
     */
    method ExtractAccount(env: Env) returns (r: Result<AccountData>)
      modifies this
      ensures r.Err? ==> r.error == ValueError
      ensures r.Ok? <==> AccountRead(old(lines), env)
      ensures r.Ok? ==> AccountFits(r.value, old(lines), env)
      ensures lines == old(lines) && text == old(text)
      ensures startDate == old(startDate) && endDate == old(endDate)
    {
      var num := AccountNumber(lines);
      if num.Err? {
        return Err(ValueError);
      }
      var err := GetStatementBalances(env);
      if err.Some? {
        return Err(ValueError);
      }
      var transactions := ParseTransactionLines(env);
      if transactions.Err? {
        return Err(ValueError);
      }
      r := Ok(AccountData(num.value, startBalance, endBalance, transactions.value));
    }

    /** `extract_statement()`: the statement dates and the one account. */
    method ExtractStatement(env: Env) returns (r: Result<StatementData>)
      modifies this
      ensures r.Err? ==> r.error == ValueError
      ensures r.Ok? <==> StatementDates(old(text), env).Ok? && AccountRead(old(lines), env)
      ensures r.Ok? ==> StatementFits(r.value, old(lines), old(text), env)
      ensures lines == old(lines) && text == old(text)
    {
      var err := GetStatementDates(env);
      if err.Some? {
        return Err(ValueError);
      }
      var account := ExtractAccount(env);
      if account.Err? {
        return Err(account.error);
      }
      r := Ok(StatementData(startDate, endDate, [account.value]));
    }

    /** `parse(reader)`: a statement without lines raises ValueError; otherwise the statement. */
    method Parse(lines: seq<string>, text: string, env: Env) returns (r: Result<StatementData>)
      modifies this
      ensures r.Err? ==> r.error == ValueError
      ensures r.Ok? <==> lines != [] && StatementDates(text, env).Ok? && AccountRead(lines, env)
      ensures r.Ok? ==> StatementFits(r.value, lines, text, env)
    {
      this.lines := lines;
      this.text := text;
      if lines == [] {
        return Err(ValueError);
      }
      r := ExtractStatement(env);
    }
  }

  /** The transactions of the statement's table, or why there are none. */
  function Transactions(lines: seq<string>, env: Env): Result<seq<Txn>> {
    match ColumnNames(lines)
    case Err(_) => Err(ValueError)
    case Ok((i, columns)) => Concat(TableRows(lines, i), RowParser(columns, env))
  }

  /** The account's number, ending balance and transactions can all be read. */
  predicate AccountRead(lines: seq<string>, env: Env) {
    AccountNumber(lines).Ok? && EndBalance(lines, env).Ok? && Transactions(lines, env).Ok?
  }

  /**
   * The account read from the statement: its number, the ending balance,
   * the transactions, and a start balance that the transactions carry to
   * the ending balance.
   */
  predicate AccountFits(a: AccountData, lines: seq<string>, env: Env)
    requires AccountRead(lines, env)
  {
    && a.accountNum == AccountNumber(lines).value
    && a.endBalance == EndBalance(lines, env).value
    && a.transactions == Transactions(lines, env).value
    && a.startBalance + Total(a.transactions) == a.endBalance
  }

  /** The statement read: the two dates of its period and its one account. */
  predicate StatementFits(st: StatementData, lines: seq<string>, text: string, env: Env)
    requires StatementDates(text, env).Ok? && AccountRead(lines, env)
  {
    && st.startDate == StatementDates(text, env).value.0
    && st.endDate == StatementDates(text, env).value.1
    && |st.accounts| == 1 && AccountFits(st.accounts[0], lines, env)
  }
}
