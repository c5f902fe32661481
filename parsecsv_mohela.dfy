/**
 * The MOHELA student loan parser of src/core/parsecsv/mohela.py.  The CSV
 * export has one row per posting, with a Date, a Description, a Total and
 * the Interest part of it.  Rows are read into named fields, sorted by
 * date, and each becomes a transaction of the negated total, followed by
 * an "INTEREST" transaction when its interest is not zero; the balance
 * runs from zero, since the export gives none.
 */
module ParsecsvMohela {
  import opened Wrappers
  import opened Text
  import opened Helpers
  import opened Ledger
  import opened Records
  import opened Lines

  const DateFormat: string := "%m/%d/%Y"
  const AccountNum: string := "MOHELA Student Loan"

  /** `array[0][0].split(">")[-1]`: the first header cell without the markup in front of it. */
  function FixHeader(table: seq<seq<string>>): (r: Result<seq<seq<string>>>)
    ensures table == [] || table[0] == [] ==> r == Err(IndexError)
    ensures r.Ok? ==> |r.value| == |table| && r.value[1..] == table[1..]
                      && |r.value[0]| == |table[0]| && r.value[0][1..] == table[0][1..]
                      && r.value[0][0] == AfterLast(table[0][0], ">")
  {
    if table == [] || table[0] == [] then Err(IndexError)
    else Ok([[AfterLast(table[0][0], ">")] + table[0][1..]] + table[1..])
  }

  /** The fixed first header cell holds no `>`. */
  lemma FixedCellClean(cell: string)
    ensures !Contains(AfterLast(cell, ">"), ">")
  {
    SplitPiecesFree(cell, ">");
  }

  // ---------------------------------------------------------------------
  // Rows as entries
  // ---------------------------------------------------------------------

  /** One row as a dict: the parsed Date column, and every other named column's text. */
  datatype Record = Record(date: Option<int>, cells: map<string, string>)

  /**
   * The inner loop over the first `n` header columns: an empty column name
   * is skipped, "Date" is read as a date, any other name keeps the row's
   * text, a later column of the same name replacing an earlier one.  A row
   * too short for a named column raises IndexError.
   */
  function EntryFrom(header: seq<string>, row: seq<string>, env: Env, n: nat): (r: Result<Record>)
    requires n <= |header|
  {
    if n == 0 then Ok(Record(None, map[]))
    else
      match EntryFrom(header, row, env, n - 1)
      case Err(e) => Err(e)
      case Ok(entry) =>
        var col := header[n - 1];
        if col == "" then Ok(entry)
        else if n - 1 >= |row| then Err(IndexError)
        else if col == "Date" then
          match Strptime(env, row[n - 1], DateFormat)
          case Err(e) => Err(e)
          case Ok(d) => Ok(entry.(date := Some(d)))
        else Ok(entry.(cells := entry.cells[col := row[n - 1]]))
  }

  /** A column can raise only when it has a name: empty columns are ignored. */
  predicate ColumnRaises(header: seq<string>, row: seq<string>, env: Env, j: nat)
    requires j < |header|
  {
    header[j] != "" && (j >= |row| || (header[j] == "Date" && Strptime(env, row[j], DateFormat).Err?))
  }

  /**
   * An entry has a date exactly when the header names a Date column, its
   * fields are the header's other names, each holding the text of a
   * column of that name; and reading the row fails only at a named column.
   */
  lemma {:induction false} EntryMeaning(header: seq<string>, row: seq<string>, env: Env, n: nat)
    requires n <= |header|
    ensures var r := EntryFrom(header, row, env, n);
            && (r.Ok? ==> (r.value.date.Some? <==> exists j :: 0 <= j < n && header[j] == "Date"))
            && (r.Ok? ==> forall col :: col in r.value.cells <==>
                            exists j :: 0 <= j < n && header[j] == col && col != "" && col != "Date")
            && (r.Ok? ==> forall col :: col in r.value.cells ==>
                            exists j :: 0 <= j < n && j < |row| && header[j] == col && row[j] == r.value.cells[col])
            && (r.Err? <==> exists j :: 0 <= j < n && ColumnRaises(header, row, env, j))
  {
    if n > 0 {
      EntryMeaning(header, row, env, n - 1);
      var p := EntryFrom(header, row, env, n - 1);
      if p.Ok? && EntryFrom(header, row, env, n).Err? {
        assert ColumnRaises(header, row, env, n - 1);
      }
    }
  }

  /** Once a column has raised, reading more columns raises the same. */
  lemma {:induction false} EntryStopped(header: seq<string>, row: seq<string>, env: Env, n: nat, m: nat)
    requires n <= m <= |header| && EntryFrom(header, row, env, n).Err?
    ensures EntryFrom(header, row, env, m) == EntryFrom(header, row, env, n)
    decreases m - n
  {
    if n < m {
      EntryStopped(header, row, env, n + 1, m);
    }
  }

  /** The inner loop: the row read column by column. */
  method BuildEntry(header: seq<string>, row: seq<string>, env: Env) returns (r: Result<Record>)
    ensures r == EntryFrom(header, row, env, |header|)
  {
    var entry := Record(None, map[]);
    var i := 0;
    while i < |header|
      invariant 0 <= i <= |header|
      invariant EntryFrom(header, row, env, i) == Ok(entry)
    {
      var col := header[i];
      if col != "" {
        if i >= |row| {
          EntryStopped(header, row, env, i + 1, |header|);
          return Err(IndexError);
        }
        if col == "Date" {
          var d := Strptime(env, row[i], DateFormat);
          if d.Err? {
            EntryStopped(header, row, env, i + 1, |header|);
            return Err(d.error);
          }
          entry := entry.(date := Some(d.value));
        } else {
          entry := entry.(cells := entry.cells[col := row[i]]);
        }
      }
      i := i + 1;
    }
    r := Ok(entry);
  }

  function EntryReader(header: seq<string>, env: Env): seq<string> -> Result<Record> {
    row => EntryFrom(header, row, env, |header|)
  }

  // ---------------------------------------------------------------------
  // Sorting by date
  // ---------------------------------------------------------------------

  /** The sort key `x["Date"]`; every entry has one when the header names a Date column. */
  function Key(e: Record): int {
    if e.date.Some? then e.date.value else 0
  }

  predicate SortedByDate(es: seq<Record>) {
    forall i, j :: 0 <= i < j < |es| ==> Key(es[i]) <= Key(es[j])
  }

  /** `x` placed after every entry of `ys` whose date is not later than its own. */
  function Insert(x: Record, ys: seq<Record>): (r: seq<Record>)
    requires SortedByDate(ys)
    ensures SortedByDate(r) && multiset(r) == multiset(ys) + multiset{x}
    ensures |r| == |ys| + 1
    ensures forall k :: 0 <= k < |r| ==> r[k] == x || r[k] in ys
  {
    if ys == [] || Key(ys[|ys| - 1]) <= Key(x) then
      ys + [x]
    else
      var q := Insert(x, ys[..|ys| - 1]);
      InsertBefore(x, ys, q);
      q + [ys[|ys| - 1]]
  }

  /**
   * The step of Insert when `x` is earlier than the last entry: `x` placed
   * among the others, followed by the last entry, is sorted and holds them all.
   */
  lemma InsertBefore(x: Record, ys: seq<Record>, q: seq<Record>)
    requires ys != [] && SortedByDate(ys) && Key(x) < Key(ys[|ys| - 1])
    requires var init := ys[..|ys| - 1];
             && SortedByDate(q) && multiset(q) == multiset(init) + multiset{x} && |q| == |init| + 1
             && forall k :: 0 <= k < |q| ==> q[k] == x || q[k] in init
    ensures var r := q + [ys[|ys| - 1]];
            && SortedByDate(r) && multiset(r) == multiset(ys) + multiset{x}
            && |r| == |ys| + 1
            && forall k :: 0 <= k < |r| ==> r[k] == x || r[k] in ys
  {
    var init := ys[..|ys| - 1];
    var last := ys[|ys| - 1];
    assert ys == init + [last];
    assert forall k :: 0 <= k < |init| ==> Key(init[k]) <= Key(ys[k]) <= Key(last);
    AllBelow(q, x, init, last);
    SortedLast(q, last);
    var r := q + [last];
    assert multiset(r) == multiset(q) + multiset{last};
    forall k | 0 <= k < |r|
      ensures r[k] == x || r[k] in ys
    {
      if k < |q| && q[k] != x {
        var j :| 0 <= j < |init| && init[j] == q[k];
        assert ys[j] == r[k];
      }
    }
  }

  /** Entries each of which is `x` or one of `init` are no later than what both are no later than. */
  lemma AllBelow(q: seq<Record>, x: Record, init: seq<Record>, last: Record)
    requires forall k :: 0 <= k < |q| ==> q[k] == x || q[k] in init
    requires forall k :: 0 <= k < |init| ==> Key(init[k]) <= Key(last)
    requires Key(x) <= Key(last)
    ensures forall k :: 0 <= k < |q| ==> Key(q[k]) <= Key(last)
  {
    forall k | 0 <= k < |q|
      ensures Key(q[k]) <= Key(last)
    {
      if q[k] != x {
        var j :| 0 <= j < |init| && init[j] == q[k];
      }
    }
  }

  /** A sorted sequence stays sorted when an entry no earlier than all of its own is appended. */
  lemma SortedLast(q: seq<Record>, last: Record)
    requires SortedByDate(q) && forall k :: 0 <= k < |q| ==> Key(q[k]) <= Key(last)
    ensures SortedByDate(q + [last])
  {
  }

  /** `sorted(data, key=lambda x: x["Date"])`, by insertion. */
  function SortByDate(es: seq<Record>): (r: seq<Record>)
    ensures SortedByDate(r) && multiset(r) == multiset(es) && |r| == |es|
  {
    if es == [] then []
    else
      var init := es[..|es| - 1];
      assert es == init + [es[|es| - 1]];
      Insert(es[|es| - 1], SortByDate(init))
  }

  /** The entries dated `d`. */
  function OnDay(d: int): Record -> bool {
    e => Key(e) == d
  }

  /** Insert places `x` after the entries of its own date, so among those it comes last. */
  lemma {:induction false} InsertStable(x: Record, ys: seq<Record>, d: int)
    requires SortedByDate(ys)
    ensures Keep(Insert(x, ys), OnDay(d)) == Keep(ys, OnDay(d)) + (if Key(x) == d then [x] else [])
    decreases |ys|
  {
    if ys == [] || Key(ys[|ys| - 1]) <= Key(x) {
      KeepSnoc(ys, x, OnDay(d));
    } else {
      var init := ys[..|ys| - 1];
      var last := ys[|ys| - 1];
      assert ys == init + [last];
      InsertStable(x, init, d);
      PassLater(x, init, last, Insert(x, init), d);
    }
  }

  /**
   * The step of InsertStable when `x` goes before the later entry `last`:
   * the two are of different dates, so appending `last` after `x` keeps
   * the same order on every date as appending it before.
   */
  lemma PassLater(x: Record, init: seq<Record>, last: Record, q: seq<Record>, d: int)
    requires Key(x) < Key(last)
    requires Keep(q, OnDay(d)) == Keep(init, OnDay(d)) + (if Key(x) == d then [x] else [])
    ensures Keep(q + [last], OnDay(d)) == Keep(init + [last], OnDay(d)) + (if Key(x) == d then [x] else [])
  {
    KeepSnoc(q, last, OnDay(d));
    KeepSnoc(init, last, OnDay(d));
  }

  /**
   * `sorted` is stable: the entries of any one date keep the order they
   * had in the rows.
   */
  lemma {:induction false} SortStable(es: seq<Record>, d: int)
    ensures Keep(SortByDate(es), OnDay(d)) == Keep(es, OnDay(d))
    decreases |es|
  {
    if es != [] {
      var init := es[..|es| - 1];
      SortStable(init, d);
      InsertStable(es[|es| - 1], SortByDate(init), d);
    }
  }

  // ---------------------------------------------------------------------
  // Melting entries into transactions
  // ---------------------------------------------------------------------

  /** `entry[col]`; KeyError when the header has no such column. */
  function Field(e: Record, col: string): (r: Result<string>)
    ensures r.Ok? <==> col in e.cells
    ensures r.Ok? ==> r.value == e.cells[col]
    ensures r.Err? ==> r.error == KeyError
  {
    if col in e.cells then Ok(e.cells[col]) else Err(KeyError)
  }

  /**
   * One entry's postings: its negated Total under its description, then
   * its Interest as "INTEREST" when that is not zero, both on its date.
   */
  function EntryPostings(e: Record, env: Env): (r: Result<seq<Posting>>)
    ensures r.Ok? ==> 1 <= |r.value| <= 2 && forall k :: 0 <= k < |r.value| ==> r.value[k].date == Key(e)
    ensures r.Ok? ==> "Total" in e.cells && "Interest" in e.cells && "Description" in e.cells
                      && Some(-r.value[0].amount) == env.amount(e.cells["Total"])
                      && r.value[0].desc == e.cells["Description"]
                      && env.amount(e.cells["Interest"]).Some?
                      && var interest := env.amount(e.cells["Interest"]).value;
                         (interest != 0 <==> |r.value| == 2)
                         && (interest != 0 ==> r.value[1] == Posting(Key(e), interest, "INTEREST"))
  {
    match Field(e, "Total")
    case Err(x) => Err(x)
    case Ok(totalText) =>
      match Negated(env, totalText)
      case Err(x) => Err(x)
      case Ok(total) =>
        match Field(e, "Interest")
        case Err(x) => Err(x)
        case Ok(interestText) =>
          match Amount(env, interestText)
          case Err(x) => Err(x)
          case Ok(interest) =>
            match Field(e, "Description")
            case Err(x) => Err(x)
            case Ok(desc) =>
              var main := Posting(Key(e), total, desc);
              if interest != 0 then Ok([main, Posting(Key(e), interest, "INTEREST")]) else Ok([main])
  }

  function Melter(env: Env): Record -> Result<seq<Posting>> {
    e => EntryPostings(e, env)
  }

  /** The dates of a list of postings never decrease. */
  predicate InDateOrder(ps: seq<Posting>) {
    forall i, j :: 0 <= i < j < |ps| ==> ps[i].date <= ps[j].date
  }

  /** Entries in date order melt into postings in date order. */
  lemma {:induction false} MeltedInDateOrder(es: seq<Record>, env: Env)
    requires SortedByDate(es)
    ensures var m := Concat(es, Melter(env));
            m.Ok? ==> InDateOrder(m.value) && (es != [] ==> m.value != [] && m.value[|m.value| - 1].date == Key(es[|es| - 1]))
  {
    var m := Concat(es, Melter(env));
    if es != [] && m.Ok? {
      var init := es[..|es| - 1];
      MeltedInDateOrder(init, env);
      var p := Concat(init, Melter(env)).value;
      var ys := EntryPostings(es[|es| - 1], env).value;
      assert m.value == p + ys;
      forall i, j | 0 <= i < j < |m.value|
        ensures m.value[i].date <= m.value[j].date
      {
        if j >= |p| && i < |p| {
          assert p[i].date <= p[|p| - 1].date;
          assert Key(init[|init| - 1]) <= Key(es[|es| - 1]);
        }
      }
    }
  }

  /** A transaction with its running balance passed in. */
  function AsTxn(e: Entry): Txn {
    Txn(e.date, Some(e.date), e.amount, PassedCents(e.balance), e.desc)
  }

  /** The transaction's row: its date, amount, passed balance and description. */
  function AsEntry(t: Txn): Entry {
    Entry(t.postingDate, t.amount, if t.balance.PassedCents? then t.balance.cents else 0, t.desc)
  }

  function AsEntries(ts: seq<Txn>): (es: seq<Entry>)
    ensures |es| == |ts| && forall k :: 0 <= k < |ts| ==> es[k] == AsEntry(ts[k])
  {
    seq(|ts|, k requires 0 <= k < |ts| => AsEntry(ts[k]))
  }

  function AsTxns(es: seq<Entry>): (ts: seq<Txn>)
    ensures |ts| == |es| && forall k :: 0 <= k < |es| ==> ts[k] == AsTxn(es[k])
  {
    seq(|es|, k requires 0 <= k < |es| => AsTxn(es[k]))
  }

  /** A row written as a transaction reads back as the same row. */
  lemma TxnsRoundTrip(es: seq<Entry>)
    ensures AsEntries(AsTxns(es)) == es
  {
    assert forall k :: 0 <= k < |es| ==> AsEntry(AsTxn(es[k])) == es[k];
  }

  /** One step of the melting loop: the posting appended with the balance after it. */
  method PostOne(ghost ps: seq<Posting>, es: seq<Entry>, balance: int, p: Posting)
    returns (es': seq<Entry>, balance': int)
    requires PostedFrom(0, ps, es) && balance == Closing(0, es)
    ensures PostedFrom(0, ps + [p], es') && balance' == Closing(0, es')
  {
    PostedNext(0, ps, es, p);
    balance' := balance + p.amount;
    es' := es + [Entry(p.date, p.amount, balance', p.desc)];
  }

  /**
   * The melting loop over the sorted entries: each entry's transactions
   * appended in turn, the balance running on from zero.
   */
  method Melt(sorted: seq<Record>, env: Env) returns (r: Result<seq<Entry>>)
    ensures var m := Concat(sorted, Melter(env));
            && (m.Err? ==> r == Err(m.error))
            && (m.Ok? ==> r.Ok? && PostedFrom(0, m.value, r.value))
  {
    ghost var ps: seq<Posting> := [];
    var es: seq<Entry> := [];
    var balance := 0;
    var i := 0;
    while i < |sorted|
      invariant 0 <= i <= |sorted|
      invariant Concat(sorted[..i], Melter(env)) == Ok(ps)
      invariant PostedFrom(0, ps, es) && balance == Closing(0, es)
    {
      ConcatStep(sorted, i, Melter(env));
      var entry := EntryPostings(sorted[i], env);
      if entry.Err? {
        ConcatStopped(sorted, i + 1, Melter(env));
        return Err(entry.error);
      }
      var ys := entry.value;
      es, balance := PostOne(ps, es, balance, ys[0]);
      if |ys| == 2 {
        es, balance := PostOne(ps + [ys[0]], es, balance, ys[1]);
        assert ys == [ys[0]] + [ys[1]];
      } else {
        assert ys == [ys[0]];
      }
      ps := ps + ys;
      i := i + 1;
    }
    assert sorted[..i] == sorted;
    r := Ok(es);
  }

  // ---------------------------------------------------------------------
  // What the parser returns
  // ---------------------------------------------------------------------

  /**
   * The transactions `parse_transactions()` returns for a table, header
   * first: the rows read into entries (the first bad row raises), sorted by
   * date (KeyError when there are rows but no Date column), then melted into
   * transactions whose balance runs from zero.
   */
  function ParsedTxns(table: seq<seq<string>>, env: Env): (r: Result<seq<Txn>>)
    requires table != []
    ensures var header := table[0];
            var data := Traverse(table[1..], EntryReader(header, env));
            && (data.Err? ==> r == Err(data.error))
            && (data.Ok? && data.value != [] && "Date" !in header ==> r == Err(KeyError))
            && (data.Ok? && (data.value == [] || "Date" in header) ==>
                  var m := Concat(SortByDate(data.value), Melter(env));
                  && (m.Err? ==> r == Err(m.error))
                  && (m.Ok? ==> r.Ok? && PostedFrom(0, m.value, AsEntries(r.value))
                                && forall k :: 0 <= k < |r.value| ==>
                                     r.value[k].balance.PassedCents? && r.value[k].transactionDate == Some(r.value[k].postingDate)))
  {
    var header := table[0];
    var data := Traverse(table[1..], EntryReader(header, env));
    if data.Err? then Err(data.error)
    else if data.value != [] && "Date" !in header then Err(KeyError)
    else
      match Concat(SortByDate(data.value), Melter(env))
      case Err(e) => Err(e)
      case Ok(ps) =>
        var es := Posted(0, ps);
        TxnsRoundTrip(es);
        Ok(AsTxns(es))
  }

  /**
   * The account `extract_account()` returns: exactly the parsed
   * transactions, a start balance of zero and the last transaction's
   * balance at the end; a failed parse is re-raised as ValueError, and no
   * transactions at all raise IndexError.
   */
  function AccountOf(table: seq<seq<string>>, env: Env): (r: Result<AccountData>)
    requires table != []
    ensures var p := ParsedTxns(table, env);
            && (p.Err? ==> r == Err(ValueError))
            && (p.Ok? && p.value == [] ==> r == Err(IndexError))
            && (p.Ok? && p.value != [] ==> r.Ok? && r.value.transactions == p.value)
    ensures r.Ok? ==> r.value.accountNum == AccountNum && r.value.startBalance == 0
                      && r.value.transactions != []
                      && var last := r.value.transactions[|r.value.transactions| - 1];
                         last.balance.PassedCents? && r.value.endBalance == last.balance.cents
    ensures r.Ok? ==> Running(0, AsEntries(r.value.transactions))
  {
    var p := ParsedTxns(table, env);
    if p.Err? then Err(ValueError)
    else if p.value == [] then Err(IndexError)
    else
      var last := p.value[|p.value| - 1];
      Ok(AccountData(AccountNum, 0, last.balance.cents, p.value))
  }

  /**
   * The statement `extract_statement()` returns: the one account, and the
   * period from its first transaction's date to its last one's; the
   * account's error otherwise.
   */
  function StatementOf(table: seq<seq<string>>, env: Env): (r: Result<StatementData>)
    requires table != []
    ensures var a := AccountOf(table, env);
            && (a.Err? ==> r == Err(a.error))
            && (a.Ok? ==> r.Ok? && r.value.accounts == [a.value])
    ensures r.Ok? ==> var ts := r.value.accounts[0].transactions;
                      && ts == ParsedTxns(table, env).value && ts != []
                      && r.value.startDate == ts[0].postingDate && r.value.endDate == ts[|ts| - 1].postingDate
    ensures r.Err? ==> r.error in {ValueError, IndexError}
  {
    var a := AccountOf(table, env);
    if a.Err? then Err(a.error)
    else
      var ts := a.value.transactions;
      Ok(StatementData(ts[0].postingDate, ts[|ts| - 1].postingDate, [a.value]))
  }

  /**
   * What `parse(array)` returns: IndexError when the header cannot be fixed,
   * otherwise the statement of the fixed table.
   */
  function ParsedStatement(table: seq<seq<string>>, env: Env): (r: Result<StatementData>)
    ensures FixHeader(table).Err? ==> r == Err(IndexError)
    ensures FixHeader(table).Ok? ==> |FixHeader(table).value| == |table| && r == StatementOf(FixHeader(table).value, env)
    ensures r.Ok? ==> |table| >= 1 && r.value.accounts[0].transactions == ParsedTxns(FixHeader(table).value, env).value
  {
    match FixHeader(table)
    case Err(_) => Err(IndexError)
    case Ok(fixed) => StatementOf(fixed, env)
  }

  // ---------------------------------------------------------------------
  // The parser
  // ---------------------------------------------------------------------

  /** The parser's state: the CSV rows, header first. */
  class Parser {
    var table: seq<seq<string>>

    constructor()
    {
      table := [];
    }

    /** `parse_transactions()`: the loops that compute `ParsedTxns` of the rows. */
    method ParseTransactions(env: Env) returns (r: Result<seq<Txn>>)
      requires table != []
      ensures r == ParsedTxns(table, env)
    {
      var header := table[0];
      var data := TraverseAll(table[1..], EntryReader(header, env));
      if data.Err? {
        return Err(data.error);
      }
      if data.value != [] && "Date" !in header {
        return Err(KeyError);
      }
      var sorted := SortByDate(data.value);
      var es := Melt(sorted, env);
      if es.Err? {
        return Err(es.error);
      }
      var ps := Concat(sorted, Melter(env)).value;
      PostedUnique(0, ps, es.value, Posted(0, ps));
      r := Ok(AsTxns(es.value));
    }

    /** `extract_account()`: the account of the parsed transactions. */
    method ExtractAccount(env: Env) returns (r: Result<AccountData>)
      requires table != []
      ensures r == AccountOf(table, env)
    {
      var transactions := ParseTransactions(env);
      if transactions.Err? {
        return Err(ValueError);
      }
      var ts := transactions.value;
      if ts == [] {
        return Err(IndexError);
      }
      var last := ts[|ts| - 1];
      r := Ok(AccountData(AccountNum, 0, last.balance.cents, ts));
    }

    /** `extract_statement()`: the period runs from the first transaction's date to the last one's. */
    method ExtractStatement(env: Env) returns (r: Result<StatementData>)
      requires table != []
      ensures r == StatementOf(table, env)
    {
      var account := ExtractAccount(env);
      if account.Err? {
        return Err(account.error);
      }
      var ts := account.value.transactions;
      r := Ok(StatementData(ts[0].postingDate, ts[|ts| - 1].postingDate, [account.value]));
    }

    /** `parse(array)`: the header fixed, the rows kept, the statement extracted. */
    method Parse(table: seq<seq<string>>, env: Env) returns (r: Result<StatementData>)
      modifies this
      ensures r == ParsedStatement(table, env)
      ensures var fixed := FixHeader(table);
              && (fixed.Err? ==> this.table == old(this.table))
              && (fixed.Ok? ==> this.table == fixed.value)
    {
      var fixed := FixHeader(table);
      if fixed.Err? {
        return Err(IndexError);
      }
      this.table := fixed.value;
      r := ExtractStatement(env);
    }
  }

  /** The statement's period is ordered: the transactions follow the sorted entries' dates. */
  lemma StatementOrdered(es: seq<Record>, env: Env, ps: seq<Posting>, out: seq<Entry>)
    requires SortedByDate(es) && Concat(es, Melter(env)) == Ok(ps) && PostedFrom(0, ps, out) && out != []
    ensures out[0].date <= out[|out| - 1].date
    ensures out[|out| - 1].balance == Sum(Amounts(out))
  {
    MeltedInDateOrder(es, env);
    RunningLast(0, out);
  }

  /**
   * A parsed MOHELA statement is well ordered: its period's start is not
   * after its end, and the account's end balance is the sum of every
   * transaction amount, since the balance runs from zero.
   */
  lemma ParsedStatementOrdered(table: seq<seq<string>>, env: Env)
    requires table != []
    ensures var r := StatementOf(table, env);
            r.Ok? ==> && r.value.startDate <= r.value.endDate
                      && r.value.accounts[0].endBalance == Sum(Amounts(AsEntries(r.value.accounts[0].transactions)))
  {
    var r := StatementOf(table, env);
    if r.Ok? {
      var data := Traverse(table[1..], EntryReader(table[0], env));
      var sorted := SortByDate(data.value);
      var ps := Concat(sorted, Melter(env)).value;
      var es := Posted(0, ps);
      TxnsRoundTrip(es);
      assert AsEntries(r.value.accounts[0].transactions) == es;
      StatementOrdered(sorted, env, ps, es);
    }
  }
}
