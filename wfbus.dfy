/**
 * The Wells Fargo business checking parser of the older text pipeline
 * (src/parsers/wfbus.py).  Transactions sit in fixed-width columns whose
 * positions change from page to page, so the lines are first grouped into
 * pages that each start with their column header; each header gives the
 * column slices for its page.  Balances are printed only at the end of
 * each day and are filled in backwards from the last one.
 */
module ParsersWfbus {
  import opened Wrappers
  import opened Text
  import opened Lines
  import opened Dates
  import opened Helpers
  import opened Ledger

  // ---------------------------------------------------------------------
  // Column positions
  // ---------------------------------------------------------------------

  /** The left and right string positions measured for a column name. */
  datatype Indices = Indices(left: nat, right: int)

  /**
   * `get_indices(header, column, buffer_left, buffer_right)`: the left edge
   * is the start of the name's first occurrence moved by the left buffer and
   * clamped at 0, the right edge its end moved by the right buffer.
   */
  function GetIndices(header: string, column: string, bufferLeft: int, bufferRight: int): (ix: Indices)
    ensures var at := Find(header, column);
            && (at + bufferLeft >= 0 ==> ix.left == at + bufferLeft)
            && (at + bufferLeft < 0 ==> ix.left == 0)
            && ix.right == at + |column| + bufferRight
  {
    var at := Find(header, column);
    Indices(if at + bufferLeft < 0 then 0 else at + bufferLeft, at + |column| + bufferRight)
  }

  /** With outward buffers the measured edges enclose the name, and an absent name measures from 0. */
  lemma IndicesEncloseName(header: string, column: string, bufferLeft: int, bufferRight: int)
    requires bufferLeft <= 0 <= bufferRight
    ensures var ix := GetIndices(header, column, bufferLeft, bufferRight);
            Contains(header, column) ==> ix.left <= Find(header, column)
                                         && OccursAt(header, column, Find(header, column))
                                         && Find(header, column) + |column| <= ix.right
    ensures !Contains(header, column) ==> GetIndices(header, column, bufferLeft, bufferRight).left == 0
  {
    FindIffContains(header, column);
    FindFromMeaning(header, column, 0);
  }

  /** The measuring settings of one column: its name and its two buffers. */
  datatype Prop = Prop(name: string, bufferLeft: int, bufferRight: int)

  /** All columns are left-justified; the check number column comes and goes. */
  const ColumnProps: seq<Prop> := [
    Prop("Date", -2, 2),
    Prop("Number", -1, 2),
    Prop("Description", 0, 0),
    Prop("Credits", -4, 1),
    Prop("Debits", -2, 2),
    Prop("balance", -2, 2)]

  /** The columns measured on a header: all of them, less "Number" when the header lacks it. */
  function Props(header: string): seq<Prop> {
    if Contains(header, "Number") then ColumnProps else [ColumnProps[0]] + ColumnProps[2..]
  }

  function LeftOf(header: string, p: Prop): nat {
    GetIndices(header, p.name, p.bufferLeft, p.bufferRight).left
  }

  /** The slice `line[lo:hi]` of one column. */
  datatype Column = Column(name: string, lo: nat, hi: int)

  /**
   * The slices of `column_slices(header)` in column order: each column runs
   * from its own left edge to the next column's, the last one to `-1`.
   */
  function Layout(header: string): seq<Column> {
    LayoutOf(header, Props(header))
  }

  function LayoutOf(header: string, ps: seq<Prop>): seq<Column> {
    seq(|ps|, i requires 0 <= i < |ps| =>
      Column(ps[i].name, LeftOf(header, ps[i]), if i == |ps| - 1 then -1 else LeftOf(header, ps[i + 1])))
  }

  /** The column names of a layout. */
  function Names(cols: seq<Column>): seq<string> {
    seq(|cols|, i requires 0 <= i < |cols| => cols[i].name)
  }

  function PropNames(ps: seq<Prop>): seq<string> {
    seq(|ps|, i requires 0 <= i < |ps| => ps[i].name)
  }

  /** "Number" is measured exactly when the header has it. */
  lemma NumberOnlyWhenPresent(header: string)
    ensures PropNames(Props(header)) == (if Contains(header, "Number")
                                         then ["Date", "Number", "Description", "Credits", "Debits", "balance"]
                                         else ["Date", "Description", "Credits", "Debits", "balance"])
  {
  }

  /** Adjacent slices meet, the last runs to `-1`, and the slices follow the measured columns. */
  lemma LayoutTiles(header: string)
    ensures var cols := Layout(header);
            && |cols| == (if Contains(header, "Number") then 6 else 5)
            && Names(cols) == PropNames(Props(header))
            && (forall i :: 0 <= i < |cols| - 1 ==> cols[i].hi == cols[i + 1].lo)
            && cols[|cols| - 1].hi == -1
  {
    var ps := Props(header);
    assert |ps| == (if Contains(header, "Number") then 6 else 5);
  }

  /** `column_slices(header)`: measure every column name, then pair each left edge with the next. */
  method ColumnSlices(header: string) returns (slices: seq<Column>)
    ensures slices == Layout(header)
    ensures forall i :: 0 <= i < |slices| - 1 ==> slices[i].hi == slices[i + 1].lo
    ensures |slices| >= 5 && slices[|slices| - 1].hi == -1
  {
    slices := MeasureColumns(header, Props(header));
    LayoutTiles(header);
  }

  /** The two loops of `column_slices` over the measured columns `props`. */
  method MeasureColumns(header: string, props: seq<Prop>) returns (slices: seq<Column>)
    ensures slices == LayoutOf(header, props)
  {
    var nameIndx: seq<Indices> := [];
    var i := 0;
    while i < |props|
      invariant 0 <= i <= |props| && |nameIndx| == i
      invariant forall j :: 0 <= j < i ==> nameIndx[j].left == LeftOf(header, props[j])
    {
      nameIndx := nameIndx + [GetIndices(header, props[i].name, props[i].bufferLeft, props[i].bufferRight)];
      i := i + 1;
    }
    slices := [];
    i := 0;
    while i < |props|
      invariant 0 <= i <= |props| && |slices| == i
      invariant forall j :: 0 <= j < i ==>
                  slices[j] == Column(props[j].name, LeftOf(header, props[j]),
                                      if j == |props| - 1 then -1 else LeftOf(header, props[j + 1]))
    {
      var left := nameIndx[i].left;
      var right := if i == |props| - 1 then -1 else nameIndx[i + 1].left;
      slices := slices + [Column(props[i].name, left, right)];
      i := i + 1;
    }
  }

  /** `line[slices[name]]`; KeyError for a column the layout lacks. */
  function Cell(line: string, cols: seq<Column>, name: string): (r: Result<string>)
    ensures r.Ok? <==> exists i :: 0 <= i < |cols| && cols[i].name == name
  {
    if cols == [] then Err(KeyError)
    else if cols[0].name == name then Ok(PySlice(line, cols[0].lo, cols[0].hi))
    else
      var r := Cell(line, cols[1..], name);
      assert forall i :: 1 <= i < |cols| ==> cols[i] == cols[1..][i - 1];
      r
  }

  // ---------------------------------------------------------------------
  // Pages of transactions
  // ---------------------------------------------------------------------

  const HeaderWords: seq<string> := ["Date", "Description", "Credits", "Debits", "balance"]

  /** A column header line: every header word is one of the line's words. */
  predicate IsHeader(line: string) {
    forall w :: w in HeaderWords ==> w in Words(line)
  }

  /** The number of digits, one or two, that `\d{1,2}` takes at `i`; 0 when none. */
  function Digits12(s: string, i: nat): nat {
    if i < |s| && IsDigit(s[i]) then (if i + 1 < |s| && IsDigit(s[i + 1]) then 2 else 1) else 0
  }

  /** `re.search(r"^\s\s+\d{1,2}/\d{1,2}\s\s+", line)`. */
  predicate IsTransactionLine(line: string) {
    var n := |line| - |SkipSpaces(line)|;
    var d1 := Digits12(line, n);
    var m := n + d1 + 1;
    var d2 := Digits12(line, m);
    n >= 2 && d1 > 0 && m - 1 < |line| && line[m - 1] == '/'
    && d2 > 0 && m + d2 + 1 < |line| && IsSpace(line[m + d2]) && IsSpace(line[m + d2 + 1])
  }

  /** The pages emitted so far and the page being collected. */
  datatype Scan = Scan(pages: seq<seq<string>>, current: seq<string>)

  /**
   * One iteration of the loop of `get_transaction_pages`.  A header line
   * closes the page being collected and opens a new one.  As written, a
   * transaction line is collected even before the first header; the
   * corrected loop only collects it into a page that a header opened.
   */
  function PageStep(s: Scan, line: string, asWritten: bool): Scan {
    if IsHeader(line) then Scan(if s.current != [] then s.pages + [s.current] else s.pages, [line])
    else if IsTransactionLine(line) && (asWritten || s.current != []) then Scan(s.pages, s.current + [line])
    else s
  }

  function ScanLines(lines: seq<string>, asWritten: bool): Scan {
    if lines == [] then Scan([], [])
    else PageStep(ScanLines(lines[..|lines| - 1], asWritten), lines[|lines| - 1], asWritten)
  }

  lemma ScanLinesStep(lines: seq<string>, i: nat, asWritten: bool)
    requires i < |lines|
    ensures ScanLines(lines[..i + 1], asWritten) == PageStep(ScanLines(lines[..i], asWritten), lines[i], asWritten)
  {
    assert lines[..i + 1][..i] == lines[..i];
  }

  function Close(s: Scan): seq<seq<string>> {
    if s.current != [] then s.pages + [s.current] else s.pages
  }

  /** `get_transaction_pages(lines)` as written. */
  function PagesAsWritten(lines: seq<string>): seq<seq<string>> {
    Close(ScanLines(lines, true))
  }

  /** `get_transaction_pages(lines)` with transaction lines before the first header ignored. */
  function Pages(lines: seq<string>): seq<seq<string>> {
    Close(ScanLines(lines, false))
  }

  /**
   * As written, a transaction line before the first header becomes the
   * first line of a page, where the page parser takes it for the header.
   */
  lemma HeaderlessFirstPage(t: string, h: string)
    requires IsTransactionLine(t) && !IsHeader(t) && IsHeader(h)
    ensures PagesAsWritten([t, h]) == [[t], [h]]
  {
    var lines := [t, h];
    assert lines[..1] == [t];
    assert ScanLines(lines[..1], true) == Scan([], [t]);
  }

  /** For instance `"  1/2  x"`: two spaces, a month/day, two spaces, and too short to hold the header words. */
  lemma ShortDateLine(t: string)
    requires |t| == 8 && t[0] == ' ' && t[1] == ' ' && t[2] == '1' && t[3] == '/' && t[4] == '2'
             && t[5] == ' ' && t[6] == ' ' && t[7] == 'x'
    ensures IsTransactionLine(t) && !IsHeader(t)
  {
    assert IsSpace(t[0]) && IsSpace(t[1]) && !IsSpace(t[2]);
    assert |SkipSpaces(t)| == 6;
    assert IsDigit(t[2]) && IsDigit(t[4]) && IsSpace(t[5]) && IsSpace(t[6]);
    WordsNoLonger(t);
    assert "Description" in HeaderWords;
  }

  /** The header words joined by spaces make a header line. */
  lemma JoinedHeader()
    ensures IsHeader(JoinSpace(HeaderWords))
  {
    WordsOfJoin(HeaderWords);
  }

  /** A page as the page parser expects it: the header line, then transaction lines. */
  predicate WellFormedPage(p: seq<string>) {
    p != [] && IsHeader(p[0]) && forall j :: 1 <= j < |p| ==> IsTransactionLine(p[j]) && !IsHeader(p[j])
  }

  function CountHeaders(lines: seq<string>): nat {
    if lines == [] then 0 else CountHeaders(lines[..|lines| - 1]) + (if IsHeader(lines[|lines| - 1]) then 1 else 0)
  }

  lemma {:induction false} ScanWellFormed(lines: seq<string>)
    ensures var s := ScanLines(lines, false);
            && (forall k :: 0 <= k < |s.pages| ==> WellFormedPage(s.pages[k]))
            && (s.current == [] || WellFormedPage(s.current))
            && |s.pages| + (if s.current == [] then 0 else 1) == CountHeaders(lines)
  {
    if lines != [] {
      ScanWellFormed(lines[..|lines| - 1]);
    }
  }

  /**
   * Every page starts with its header line followed only by transaction
   * lines, no page is empty, and there is one page per header line.
   */
  lemma PagesWellFormed(lines: seq<string>)
    ensures forall k :: 0 <= k < |Pages(lines)| ==> WellFormedPage(Pages(lines)[k])
    ensures |Pages(lines)| == CountHeaders(lines)
  {
    ScanWellFormed(lines);
  }

  /** `get_transaction_pages(lines)`, collecting transaction lines only once a header has opened a page. */
  method GetTransactionPages(lines: seq<string>) returns (pages: seq<seq<string>>)
    ensures pages == Pages(lines)
    ensures forall k :: 0 <= k < |pages| ==> WellFormedPage(pages[k])
  {
    pages := [];
    var current: seq<string> := [];
    var i := 0;
    while i < |lines|
      invariant 0 <= i <= |lines|
      invariant ScanLines(lines[..i], false) == Scan(pages, current)
    {
      ScanLinesStep(lines, i, false);
      ghost var before := Scan(pages, current);
      var line := lines[i];
      if IsHeader(line) {
        if |current| > 0 {
          pages := pages + [current];
        }
        current := [line];
      } else if IsTransactionLine(line) && current != [] {
        current := current + [line];
      }
      assert Scan(pages, current) == PageStep(before, line, false);
      i := i + 1;
    }
    assert lines[..i] == lines;
    ghost var last := Scan(pages, current);
    if |current| > 0 {
      pages := pages + [current];
    }
    assert pages == Close(last);
    PagesWellFormed(lines);
  }

  // ---------------------------------------------------------------------
  // Parsing a page
  // ---------------------------------------------------------------------

  /**
   * The length of a match of `prefix + r"\d{1,2}/\d{1,2} "` at the start
   * of `s`, or 0 when there is none.
   */
  function AuthorizedMatch(s: string, prefix: string): nat {
    if !StartsWith(s, prefix) then 0
    else
      var j := |prefix|;
      var d1 := Digits12(s, j);
      var m := j + d1 + 1;
      var d2 := Digits12(s, m);
      if d1 > 0 && m - 1 < |s| && s[m - 1] == '/' && d2 > 0 && m + d2 < |s| && s[m + d2] == ' '
      then m + d2 + 1
      else 0
  }

  /** `re.sub(prefix + r"\d{1,2}/\d{1,2} ", "", s)`: every match removed, scanning left to right. */
  function RemoveAuthorized(s: string, prefix: string): (r: string)
    requires prefix != []
    ensures |r| <= |s|
    ensures !Contains(s, prefix) ==> r == s
    decreases |s|
  {
    if s == [] then []
    else
      var n := AuthorizedMatch(s, prefix);
      if n > 0 then
        assert OccursAt(s, prefix, 0);
        RemoveAuthorized(s[n..], prefix)
      else
        ContainsTail(s, prefix);
        [s[0]] + RemoveAuthorized(s[1..], prefix)
  }

  /** A row of a page: `(date, amount, balance, description)`, with `None` for the "nan" balance. */
  datatype Row = Row(date: int, amount: int, balance: Option<int>, desc: string)

  /** A credit or debit cell: blank reads as 0. */
  function CellAmount(env: Env, cell: string): (r: Result<int>)
    ensures Strip(cell) == [] ==> r == Ok(0)
    ensures Strip(cell) != [] ==> r == Amount(env, Strip(cell))
  {
    var t := Strip(cell);
    if t == [] then Ok(0) else Amount(env, t)
  }

  /** The five cells of a transaction line, cut by the page's layout. */
  datatype Cells = Cells(date: string, description: string, credits: string, debits: string, balance: string)

  function CellsOf(line: string, cols: seq<Column>): Result<Cells> {
    var d := Cell(line, cols, "Date");
    var s := Cell(line, cols, "Description");
    var c := Cell(line, cols, "Credits");
    var b := Cell(line, cols, "Debits");
    var e := Cell(line, cols, "balance");
    if d.Err? || s.Err? || c.Err? || b.Err? || e.Err? then Err(KeyError)
    else Ok(Cells(d.value, s.value, c.value, b.value, e.value))
  }

  /** The description cell with whitespace collapsed and the "authorized on mm/dd " phrases removed. */
  function Description(cell: string): string {
    RemoveAuthorized(RemoveAuthorized(Collapse(cell), "Recurring Payment authorized on "), "Purchase authorized on ")
  }

  /** One transaction line of `parse_transaction_page`. */
  function ParseLine(line: string, cols: seq<Column>, env: Env, start: int, end: int): (r: Result<Row>)
    ensures r.Ok? ==> CellsOf(line, cols).Ok?
    ensures r.Ok? ==> var c := CellsOf(line, cols).value;
                      && CellAmount(env, c.credits).Ok? && CellAmount(env, c.debits).Ok?
                      && r.value.amount == CellAmount(env, c.credits).value - CellAmount(env, c.debits).value
                      && (r.value.balance.None? <==> Strip(c.balance) == [])
                      && Some(r.value.date) == env.absoluteDate(Strip(c.date), start, end)
                      && r.value.desc == Description(c.description)
  {
    match CellsOf(line, cols)
    case Err(e) => Err(e)
    case Ok(c) =>
      var date := AbsoluteDate(env, Strip(c.date), start, end);
      var addn := CellAmount(env, c.credits);
      var subt := CellAmount(env, c.debits);
      var balance := if Strip(c.balance) == [] then Ok(None)
                     else match Amount(env, Strip(c.balance)) case Ok(v) => Ok(Some(v)) case Err(e) => Err(e);
      if date.Err? then Err(date.error)
      else if addn.Err? then Err(addn.error)
      else if subt.Err? then Err(subt.error)
      else if balance.Err? then Err(balance.error)
      else Ok(Row(date.value, addn.value - subt.value, balance.value, Description(c.description)))
  }

  function LineParser(cols: seq<Column>, env: Env, start: int, end: int): string -> Result<Row> {
    line => ParseLine(line, cols, env, start, end)
  }

  /** What `parse_transaction_page(page, date_range)` gives: each line after the header parsed by the header's layout. */
  function PageRows(page: seq<string>, env: Env, start: int, end: int): Result<seq<Row>> {
    if page == [] then Err(IndexError)
    else Traverse(page[1..], LineParser(Layout(page[0]), env, start, end))
  }

  /** `parse_transaction_page(page, date_range)`. */
  method ParseTransactionPage(page: seq<string>, env: Env, start: int, end: int) returns (r: Result<seq<Row>>)
    ensures r == PageRows(page, env, start, end)
    ensures r.Ok? ==> |r.value| == |page| - 1
  {
    if page == [] {
      return Err(IndexError);
    }
    var header := page[0];
    var lines := page[1..];
    var slices := ColumnSlices(header);
    var f := LineParser(slices, env, start, end);
    var transactions: seq<Row> := [];
    var i := 0;
    while i < |lines|
      invariant 0 <= i <= |lines|
      invariant Traverse(lines[..i], f) == Ok(transactions)
    {
      TraverseStep(lines, i, f);
      var t := ParseLine(lines[i], slices, env, start, end);
      if t.Err? {
        assert lines[..|lines|] == lines;
        TraverseStopped(lines, i + 1, f);
        return Err(t.error);
      }
      transactions := transactions + [t.value];
      i := i + 1;
    }
    assert lines[..i] == lines;
    r := Ok(transactions);
  }

  // ---------------------------------------------------------------------
  // Balances
  // ---------------------------------------------------------------------

  /**
   * `out` is `rows` with every missing balance filled in: a filled balance
   * is the next row's balance less the next row's amount, and everything
   * else is unchanged.
   */
  predicate FilledFrom(rows: seq<Row>, out: seq<Row>) {
    && |out| == |rows|
    && (forall i :: 0 <= i < |out| ==> out[i].balance.Some?)
    && (forall i :: 0 <= i < |out| ==>
          out[i].date == rows[i].date && out[i].amount == rows[i].amount && out[i].desc == rows[i].desc)
    && (forall i :: 0 <= i < |out| && rows[i].balance.Some? ==> out[i].balance == rows[i].balance)
    && (forall i :: 0 <= i < |out| && rows[i].balance.None? ==>
          i + 1 < |out| && out[i].balance.value == out[i + 1].balance.value - out[i + 1].amount)
  }

  /**
   * `backwards_fill_balance(transactions)`: IndexError on no rows,
   * ValueError when the last row has no balance, else every gap filled
   * from the row after it, last to first.
   */
  method BackwardsFillBalance(rows: seq<Row>) returns (r: Result<seq<Row>>)
    ensures rows == [] ==> r == Err(IndexError)
    ensures rows != [] && rows[|rows| - 1].balance.None? ==> r == Err(ValueError)
    ensures rows != [] && rows[|rows| - 1].balance.Some? ==> r.Ok? && FilledFrom(rows, r.value)
  {
    if rows == [] {
      return Err(IndexError);
    }
    if rows[|rows| - 1].balance.None? {
      return Err(ValueError);
    }
    var out := rows;
    var row := |rows|;
    while row > 0
      invariant 0 <= row <= |rows|
      invariant FilledAbove(rows, out, row)
    {
      row := row - 1;
      if out[row].balance.None? {
        var next := out[row + 1];
        FillOne(rows, out, row);
        out := out[row := Row(out[row].date, out[row].amount, Some(next.balance.value - next.amount), out[row].desc)];
      } else {
        KeepOne(rows, out, row);
      }
    }
    FilledAll(rows, out);
    r := Ok(out);
  }

  /**
   * The loop of `backwards_fill_balance` below `row`: the rows before
   * `row` are untouched, and from `row` on the rows are filled as in
   * FilledFrom.
   */
  predicate FilledAbove(rows: seq<Row>, out: seq<Row>, row: nat) {
    && |out| == |rows| && row <= |rows|
    && (forall i :: 0 <= i < row ==> out[i] == rows[i])
    && (forall i :: row <= i < |out| ==> out[i].balance.Some?)
    && (forall i :: row <= i < |out| ==>
          out[i].date == rows[i].date && out[i].amount == rows[i].amount && out[i].desc == rows[i].desc)
    && (forall i :: row <= i < |out| && rows[i].balance.Some? ==> out[i].balance == rows[i].balance)
    && (forall i :: row <= i < |out| && rows[i].balance.None? ==>
          i + 1 < |out| && out[i].balance.value == out[i + 1].balance.value - out[i + 1].amount)
  }

  /** A row that has its balance is kept as it is. */
  lemma KeepOne(rows: seq<Row>, out: seq<Row>, row: nat)
    requires FilledAbove(rows, out, row + 1) && row < |rows| && out[row].balance.Some?
    ensures FilledAbove(rows, out, row)
  {
  }

  lemma FilledAll(rows: seq<Row>, out: seq<Row>)
    requires FilledAbove(rows, out, 0)
    ensures FilledFrom(rows, out)
  {
  }

  /** Filling the gap at `row` from the row after it extends the filled part down to `row`. */
  lemma FillOne(rows: seq<Row>, out: seq<Row>, row: nat)
    requires FilledAbove(rows, out, row + 1) && row + 1 < |rows| && out[row].balance.None?
    ensures var next := out[row + 1];
            FilledAbove(rows, out[row := Row(out[row].date, out[row].amount, Some(next.balance.value - next.amount), out[row].desc)], row)
  {
  }

  /**
   * `parse_transactions(date_range, transaction_pages)`: the rows of every
   * page in page order, then the balances filled backwards.
   */
  method ParseTransactions(pages: seq<seq<string>>, env: Env, start: int, end: int) returns (r: Result<seq<Row>>)
    ensures var rows := Concat(pages, PageParser(env, start, end));
            && (rows.Err? ==> r == Err(rows.error))
            && (rows.Ok? && rows.value == [] ==> r == Err(IndexError))
            && (rows.Ok? && rows.value != [] && rows.value[|rows.value| - 1].balance.None? ==> r == Err(ValueError))
            && (rows.Ok? && rows.value != [] && rows.value[|rows.value| - 1].balance.Some? ==>
                  r.Ok? && FilledFrom(rows.value, r.value))
  {
    var f := PageParser(env, start, end);
    var transactions: seq<Row> := [];
    var i := 0;
    while i < |pages|
      invariant 0 <= i <= |pages|
      invariant Concat(pages[..i], f) == Ok(transactions)
    {
      ConcatStep(pages, i, f);
      var t := ParseTransactionPage(pages[i], env, start, end);
      if t.Err? {
        ConcatStopped(pages, i + 1, f);
        return Err(t.error);
      }
      transactions := transactions + t.value;
      i := i + 1;
    }
    assert pages[..i] == pages;
    r := BackwardsFillBalance(transactions);
  }

  function PageParser(env: Env, start: int, end: int): seq<string> -> Result<seq<Row>> {
    page => PageRows(page, env, start, end)
  }

  // ---------------------------------------------------------------------
  // Statement dates
  // ---------------------------------------------------------------------

  /** The month and day of an `m/d` text of one or two digits each, as `%m/%d` reads it. */
  function ParseMd(w: string): Option<(int, int)> {
    var p := if |w| >= 2 && w[1] == '/' then 1 else if |w| >= 3 && w[2] == '/' then 2 else 0;
    if p > 0 && AllDigits(w[..p]) && 1 <= |w| - p - 1 <= 2 && AllDigits(w[p + 1..])
    then Some((DigitsValue(w[..p]), DigitsValue(w[p + 1..])))
    else None
  }

  /**
   * `datetime.strptime(md + "/" + str(year), "%m/%d/%Y")`: `%Y` reads four
   * digits, so the year must have four.
   */
  function MdInYear(md: string, year: int): (r: Result<int>)
    ensures r.Ok? ==> ParseMd(md).Some? && 1000 <= year <= 9999
                      && var (m, d) := ParseMd(md).value; r == FromMdy(m, d, year)
  {
    match ParseMd(md)
    case None => Err(ValueError)
    case Some((m, d)) => if 1000 <= year <= 9999 then FromMdy(m, d, year) else Err(ValueError)
  }

  const WordyDate: string := "[ADFJMNOS]\\w*\\s\\d{1,2}\\,\\s\\d{4}"
  const BeginningOn: string := "Beginning balance on \\d{1,2}/\\d{1,2}"
  const EndingOn: string := "Ending balance on \\d{1,2}/\\d{1,2}"

  /**
   * `get_statement_dates(lines)`: the year of the long-format date, the
   * `m/d` of the beginning and ending balances, both placed in that year;
   * a start after the end is moved to the year before.
   */
  function GetStatementDates(lines: seq<string>, env: Env): (r: Result<(int, int)>)
    ensures r.Ok? ==> r.value.0 <= r.value.1
  {
    var wordy := FindRegex(env, lines, WordyDate);
    if wordy.Err? then Err(wordy.error)
    else
      var date := StrptimeYmd(env, wordy.value, "%B %d, %Y");
      if date.Err? then Err(date.error)
      else
        var year := date.value.year;
        var startText := FindRegex(env, lines, BeginningOn);
        var endText := FindRegex(env, lines, EndingOn);
        if startText.Err? then Err(startText.error)
        else if endText.Err? then Err(endText.error)
        else
          var startMd := LastWord(startText.value);
          var endMd := LastWord(endText.value);
          if startMd.Err? then Err(startMd.error)
          else if endMd.Err? then Err(endMd.error)
          else
            var start := MdInYear(startMd.value, year);
            var end := MdInYear(endMd.value, year);
            if start.Err? then Err(start.error)
            else if end.Err? then Err(end.error)
            else if start.value > end.value then
              var earlier := MdInYear(startMd.value, year - 1);
              if earlier.Err? then Err(earlier.error)
              else
                RolloverEarlier(startMd.value, endMd.value, year);
                Ok((earlier.value, end.value))
            else Ok((start.value, end.value))
  }

  /** The start date placed in the year before comes before the end date placed in the year. */
  lemma RolloverEarlier(startMd: string, endMd: string, year: int)
    requires MdInYear(startMd, year - 1).Ok? && MdInYear(endMd, year).Ok?
    ensures MdInYear(startMd, year - 1).value < MdInYear(endMd, year).value
  {
    var (m1, d1) := ParseMd(startMd).value;
    var (m2, d2) := ParseMd(endMd).value;
    EarlierYearEarlierDay(Ymd(year - 1, m1, d1), Ymd(year, m2, d2));
  }
}
