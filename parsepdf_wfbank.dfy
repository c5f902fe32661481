/**
 * The Wells Fargo personal and business banking parser of
 * src/core/parsepdf/wfbank.py.  The header row of each page's transaction
 * table is located among the page's words, the table is read between
 * vertical separators derived from the header words' positions, cut at its
 * first empty or "Ending" row, and its rows become transactions, a row
 * without a date continuing the description of the row above.
 *
 * Word positions are integers in hundredths of a point.  Reading the table
 * between the separators is pdfplumber's work and is a parameter of the
 * page (`extract`).  An empty or absent cell is the empty string.
 */
module ParsepdfWfbank {
  import opened Wrappers
  import opened Text
  import opened Lines
  import opened Helpers
  import opened Ledger
  import opened Records

  type Row = seq<string>

  // ---------------------------------------------------------------------
  // Choosing the header
  // ---------------------------------------------------------------------

  const PersonalHeader: seq<string> := ["Date", "Description", "Additions", "Subtractions", "balance"]
  const BusinessHeader: seq<string> := ["Date", "Description", "Credits", "Debits", "balance"]

  /** The account types in the order the source lists them: the patterns that identify each, and its header. */
  const AccountTypes: seq<(seq<string>, seq<string>)> := [
    (["Wells Fargo Everyday Checking", "Wells Fargo Way2Save"], PersonalHeader),
    (["Initiate Business Checking", "Business Market Rate Savings"], BusinessHeader)
  ]

  /** `text[:200]`. */
  function Head(text: string): (h: string)
    ensures |h| <= 200 && |h| <= |text| && h == text[..|h|]
  {
    if |text| <= 200 then text else text[..200]
  }

  predicate AnyIn(patterns: seq<string>, s: string) {
    exists k :: 0 <= k < |patterns| && Contains(s, patterns[k])
  }

  /** The header of the last of the first `n` account types whose patterns occur in `s`, or none. */
  function Chosen(s: string, n: nat): (cols: seq<string>)
    requires n <= |AccountTypes|
    ensures cols == [] || cols == PersonalHeader || cols == BusinessHeader
  {
    if n == 0 then []
    else if AnyIn(AccountTypes[n - 1].0, s) then AccountTypes[n - 1].1
    else Chosen(s, n - 1)
  }

  /**
   * The header chosen for a statement: the business header when a business
   * pattern occurs in the first 200 characters, else the personal header
   * when a personal one does; ValueError when neither does.
   */
  function HeaderCols(text: string): (r: Result<seq<string>>)
    ensures r.Err? <==> !AnyIn(AccountTypes[0].0, Head(text)) && !AnyIn(AccountTypes[1].0, Head(text))
    ensures r.Err? ==> r.error == ValueError
    ensures r.Ok? && AnyIn(AccountTypes[1].0, Head(text)) ==> r.value == BusinessHeader
    ensures r.Ok? && !AnyIn(AccountTypes[1].0, Head(text)) ==> r.value == PersonalHeader
  {
    var cols := Chosen(Head(text), |AccountTypes|);
    ChosenOfTwo(Head(text));
    if cols == [] then Err(ValueError) else Ok(cols)
  }

  /** The later account type wins when both match. */
  lemma ChosenOfTwo(s: string)
    ensures Chosen(s, 2) == if AnyIn(AccountTypes[1].0, s) then BusinessHeader
                            else if AnyIn(AccountTypes[0].0, s) then PersonalHeader
                            else []
  {
    assert Chosen(s, 1) == if AnyIn(AccountTypes[0].0, s) then PersonalHeader else [];
  }

  /** The loop over the account types in `get_transaction_array`. */
  method DetermineHeader(text: string) returns (r: Result<seq<string>>)
    ensures r == HeaderCols(text)
  {
    var headerCols: seq<string> := [];
    var s := Head(text);
    var i := 0;
    while i < |AccountTypes|
      invariant 0 <= i <= |AccountTypes|
      invariant headerCols == Chosen(s, i)
    {
      var (patterns, cols) := AccountTypes[i];
      if AnyIn(patterns, s) {
        headerCols := cols;
      }
      i := i + 1;
    }
    if headerCols == [] {
      return Err(ValueError);
    }
    r := Ok(headerCols);
  }

  // ---------------------------------------------------------------------
  // Locating the header on a page
  // ---------------------------------------------------------------------

  datatype PageWord = PageWord(text: string, x0: int, x1: int, top: int, bottom: int)

  datatype Box = Box(x0: int, top: int, x1: int, bottom: int)

  /** A page: its words with their positions, its height, and the table reader for a crop box and separators. */
  datatype Page = Page(words: seq<PageWord>, height: int, extract: (Box, seq<int>) -> seq<Row>)

  function Texts(ws: seq<PageWord>): (ts: seq<string>)
    ensures |ts| == |ws| && forall k :: 0 <= k < |ws| ==> ts[k] == ws[k].text
  {
    seq(|ws|, k requires 0 <= k < |ws| => ws[k].text)
  }

  function Bottoms(ws: seq<PageWord>): (bs: seq<int>)
    ensures |bs| == |ws| && forall k :: 0 <= k < |ws| ==> bs[k] == ws[k].bottom
  {
    seq(|ws|, k requires 0 <= k < |ws| => ws[k].bottom)
  }

  /** Some header name is not the text of any word on the page. */
  predicate Missing(cols: seq<string>, texts: seq<string>) {
    exists c :: c in cols && c !in texts
  }

  function InHeader(cols: seq<string>): PageWord -> bool {
    (w: PageWord) => w.text in cols
  }

  /** How often `v` occurs in `xs`. */
  function Count(xs: seq<int>, v: int): nat {
    multiset(xs)[v]
  }

  /** The largest number of occurrences of any of the first `n` values. */
  function MaxCount(xs: seq<int>, n: nat): (m: nat)
    requires n <= |xs|
    ensures forall k :: 0 <= k < n ==> Count(xs, xs[k]) <= m
    ensures n > 0 ==> exists k :: 0 <= k < n && Count(xs, xs[k]) == m
  {
    if n == 0 then 0
    else
      var m := MaxCount(xs, n - 1);
      if Count(xs, xs[n - 1]) > m then Count(xs, xs[n - 1]) else m
  }

  function MostCommon(xs: seq<int>): int -> bool {
    v => Count(xs, v) == MaxCount(xs, |xs|)
  }

  /**
   * `statistics.mode(xs)`: a most common value, the first of them in the
   * order of `xs` when several are as common.
   */
  function Mode(xs: seq<int>): (m: int)
    requires xs != []
    ensures m in xs
    ensures forall k :: 0 <= k < |xs| ==> Count(xs, xs[k]) <= Count(xs, m)
    ensures forall k :: 0 <= k < |xs| && Count(xs, xs[k]) == Count(xs, m) ==> exists j :: 0 <= j <= k && xs[j] == m
  {
    ModeExists(xs);
    xs[First(xs, MostCommon(xs)).value]
  }

  lemma ModeExists(xs: seq<int>)
    requires xs != []
    ensures First(xs, MostCommon(xs)).Some?
  {
    var k :| 0 <= k < |xs| && Count(xs, xs[k]) == MaxCount(xs, |xs|);
    assert MostCommon(xs)(xs[k]);
  }

  /** A word whose bottom lies less than 2 points from the mode. */
  function NearLine(m: int): PageWord -> bool {
    (w: PageWord) => -200 < w.bottom - m < 200
  }

  /** The header dictionary: each word under its text, a later word replacing an earlier one. */
  function HeaderMap(ws: seq<PageWord>): (h: map<string, PageWord>)
    ensures forall k :: 0 <= k < |ws| ==> ws[k].text in h
    ensures forall t :: t in h ==> exists k :: 0 <= k < |ws| && ws[k].text == t && h[t] == ws[k]
  {
    if ws == [] then map[]
    else
      var h := HeaderMap(ws[..|ws| - 1]);
      assert forall k :: 0 <= k < |ws| - 1 ==> ws[..|ws| - 1][k] == ws[k];
      h[ws[|ws| - 1].text := ws[|ws| - 1]]
  }

  function Lookup(h: map<string, PageWord>, key: string): (r: Result<PageWord>)
    ensures r.Ok? <==> key in h
    ensures r.Ok? ==> r.value == h[key]
    ensures r.Err? ==> r.error == KeyError
  {
    if key in h then Ok(h[key]) else Err(KeyError)
  }

  /** The crop box: from 3 points left of the first column and just below it, to 2 points right of the last column and the page bottom. */
  function CropBox(h: map<string, PageWord>, cols: seq<string>, height: int): (r: Result<Box>)
    requires |cols| == 5
    ensures r.Ok? <==> cols[0] in h && cols[4] in h
  {
    var first := Lookup(h, cols[0]);
    var last := Lookup(h, cols[4]);
    if first.Err? then Err(first.error)
    else if last.Err? then Err(last.error)
    else Ok(Box(first.value.x0 - 300, first.value.bottom + 10, last.value.x1 + 200, height))
  }

  /**
   * `calculate_vertical_lines(header)`: the seven separators, left of the
   * date, right of the date (the cheque-number column), left of the
   * description, left and right of the additions, right of the
   * subtractions and right of the balance.
   */
  function VerticalLines(h: map<string, PageWord>, cols: seq<string>): (r: Result<seq<int>>)
    requires |cols| == 5
    ensures r.Ok? <==> forall k :: 0 <= k < 5 ==> cols[k] in h
    ensures r.Ok? ==> |r.value| == 7
  {
    if forall k :: 0 <= k < 5 ==> cols[k] in h then
      Ok([h[cols[0]].x0 - 300, h[cols[0]].x1 + 200, h[cols[1]].x0 - 200, h[cols[2]].x0 - 300,
          h[cols[2]].x1 + 200, h[cols[3]].x1 + 200, h[cols[4]].x1 + 200])
    else Err(KeyError)
  }

  // ---------------------------------------------------------------------
  // Cutting the table
  // ---------------------------------------------------------------------

  /** `not any(row)`: every cell is empty. */
  predicate BlankRow(row: Row) {
    forall k :: 0 <= k < |row| ==> row[k] == ""
  }

  /** The row ends the table: it is empty or its first cell starts with "Ending". */
  predicate EndsTable(row: Row)
    requires |row| > 0
  {
    BlankRow(row) || StartsWith(row[0], "Ending")
  }

  /** The table validation loop from row `i`: ValueError for a row of the wrong width, a cut at an ending row. */
  function CutFrom(table: seq<Row>, width: nat, i: nat): (r: Result<seq<Row>>)
    requires 0 < width && i <= |table|
    decreases |table| - i
  {
    if i == |table| then Ok(table)
    else if |table[i]| != width then Err(ValueError)
    else if EndsTable(table[i]) then Ok(table[..i])
    else CutFrom(table, width, i + 1)
  }

  /** Every row has the width of the table. */
  predicate Wide(table: seq<Row>, width: nat) {
    forall k :: 0 <= k < |table| ==> |table[k]| == width
  }

  /**
   * The cut keeps the rows before the first ending row, all of the
   * table's width and none ending it; it raises ValueError exactly when a
   * row before that one has another width.
   */
  lemma {:induction false} CutMeaning(table: seq<Row>, width: nat, i: nat)
    requires 0 < width && i <= |table|
    requires Wide(table[..i], width) && forall k :: 0 <= k < i ==> !EndsTable(table[k])
    ensures var r := CutFrom(table, width, i);
            && (r.Ok? ==> && |r.value| <= |table| && r.value == table[..|r.value|] && Wide(r.value, width)
                          && (forall k :: 0 <= k < |r.value| ==> !EndsTable(r.value[k]))
                          && (|r.value| < |table| ==> |table[|r.value|]| == width && EndsTable(table[|r.value|])))
            && (r.Err? ==> r.error == ValueError
                           && exists j :: i <= j < |table| && |table[j]| != width
                                          && forall k :: i <= k < j ==> |table[k]| == width && !EndsTable(table[k]))
    decreases |table| - i
  {
    if i == |table| {
      assert table[..i] == table;
    } else if |table[i]| != width {
    } else if EndsTable(table[i]) {
    } else {
      assert table[..i + 1] == table[..i] + [table[i]];
      CutMeaning(table, width, i + 1);
    }
  }

  /** The table validation loop of `get_transactions_from_page`. */
  method CutArray(table: seq<Row>, width: nat) returns (r: Result<seq<Row>>)
    requires 0 < width
    ensures r == CutFrom(table, width, 0)
  {
    var i := 0;
    while i < |table|
      invariant 0 <= i <= |table|
      invariant CutFrom(table, width, 0) == CutFrom(table, width, i)
    {
      var row := table[i];
      if |row| != width {
        return Err(ValueError);
      }
      if BlankRow(row) || StartsWith(row[0], "Ending") {
        return Ok(table[..i]);
      }
      i := i + 1;
    }
    r := Ok(table);
  }

  // ---------------------------------------------------------------------
  // A page
  // ---------------------------------------------------------------------

  /** The header words that lie on the header's line, and the header dictionary built from them. */
  function AlignedHeader(words: seq<PageWord>, cols: seq<string>): (aligned: seq<PageWord>)
    requires !Missing(cols, Texts(words)) && cols != []
    ensures forall k :: 0 <= k < |aligned| ==> aligned[k].text in cols && aligned[k] in words
  {
    var hw := Keep(words, InHeader(cols));
    assert hw != [] by {
      assert cols[0] in Texts(words);
      var k :| 0 <= k < |words| && Texts(words)[k] == cols[0];
      assert InHeader(cols)(words[k]);
    }
    Keep(hw, NearLine(Mode(Bottoms(hw))))
  }

  /** The table of a page once its header is found: cropped, split at the separators, then cut. */
  function TableOf(page: Page, h: map<string, PageWord>, cols: seq<string>): (r: Result<seq<Row>>)
    requires |cols| == 5
    ensures r.Ok? ==> Wide(r.value, 6)
  {
    var box := CropBox(h, cols, page.height);
    var lines := VerticalLines(h, cols);
    if box.Err? then Err(box.error)
    else if lines.Err? then Err(lines.error)
    else
      var table := page.extract(box.value, lines.value);
      CutMeaning(table, 6, 0);
      CutFrom(table, |lines.value| - 1, 0)
  }

  /**
   * `get_transactions_from_page(page, header_cols)`: no rows when a header
   * name is on no word of the page; ValueError when the words on the
   * header's line are not exactly one per header name.
   */
  function PageArray(page: Page, cols: seq<string>): (r: Result<seq<Row>>)
    requires |cols| == 5
    ensures Missing(cols, Texts(page.words)) ==> r == Ok([])
    ensures !Missing(cols, Texts(page.words)) && |AlignedHeader(page.words, cols)| != 5 ==> r == Err(ValueError)
    ensures r.Ok? ==> Wide(r.value, 6)
  {
    if Missing(cols, Texts(page.words)) then Ok([])
    else
      var aligned := AlignedHeader(page.words, cols);
      if |aligned| != |cols| then Err(ValueError)
      else TableOf(page, HeaderMap(aligned), cols)
  }

  /** The header dictionary loop. */
  method BuildHeader(ws: seq<PageWord>) returns (h: map<string, PageWord>)
    ensures h == HeaderMap(ws)
  {
    h := map[];
    var i := 0;
    while i < |ws|
      invariant 0 <= i <= |ws|
      invariant h == HeaderMap(ws[..i])
    {
      assert ws[..i + 1][..i] == ws[..i];
      h := h[ws[i].text := ws[i]];
      i := i + 1;
    }
    assert ws[..i] == ws;
  }

  /** `get_transactions_from_page(page, header_cols)`. */
  method GetTransactionsFromPage(page: Page, cols: seq<string>) returns (r: Result<seq<Row>>)
    requires |cols| == 5
    ensures r == PageArray(page, cols)
  {
    if Missing(cols, Texts(page.words)) {
      return Ok([]);
    }
    var aligned := AlignedHeader(page.words, cols);
    if |aligned| != |cols| {
      return Err(ValueError);
    }
    var header := BuildHeader(aligned);
    var box := CropBox(header, cols, page.height);
    var lines := VerticalLines(header, cols);
    if box.Err? {
      return Err(box.error);
    }
    if lines.Err? {
      return Err(lines.error);
    }
    var table := page.extract(box.value, lines.value);
    r := CutArray(table, |lines.value| - 1);
  }

  /** A page's failure is re-raised as ValueError. */
  function Reraise<T>(r: Result<T>): (r': Result<T>)
    ensures r'.Ok? <==> r.Ok?
    ensures r.Ok? ==> r' == r
    ensures r'.Err? ==> r'.error == ValueError
  {
    if r.Err? then Err(ValueError) else r
  }

  function PageReader(cols: seq<string>): Page -> Result<seq<Row>>
    requires |cols| == 5
  {
    page => Reraise(PageArray(page, cols))
  }

  /** `get_transaction_array()`: the header chosen from the text, then every page's rows, in page order. */
  function TransactionArray(text: string, pages: seq<Page>): (r: Result<seq<Row>>)
  {
    match HeaderCols(text)
    case Err(e) => Err(e)
    case Ok(cols) => Concat(pages, PageReader(cols))
  }

  /** `get_transaction_array()`. */
  method GetTransactionArray(text: string, pages: seq<Page>) returns (r: Result<seq<Row>>)
    ensures r == TransactionArray(text, pages)
  {
    var header := DetermineHeader(text);
    if header.Err? {
      return Err(header.error);
    }
    var cols := header.value;
    var transactionArray: seq<Row> := [];
    var i := 0;
    while i < |pages|
      invariant 0 <= i <= |pages|
      invariant Concat(pages[..i], PageReader(cols)) == Ok(transactionArray)
    {
      ConcatStep(pages, i, PageReader(cols));
      var rows := GetTransactionsFromPage(pages[i], cols);
      if rows.Err? {
        ConcatStopped(pages, i + 1, PageReader(cols));
        return Err(ValueError);
      }
      transactionArray := transactionArray + rows.value;
      i := i + 1;
    }
    assert pages[..i] == pages;
    r := Ok(transactionArray);
  }

  // ---------------------------------------------------------------------
  // parse_transaction_array
  // ---------------------------------------------------------------------

  /** A row that continues the description above: no date, a description. */
  predicate Continues(row: Row) {
    |row| > 2 && row[0] == "" && row[2] != ""
  }

  /** The end of the run of continuation rows from row `j`. */
  function RunEnd(table: seq<Row>, j: nat): (e: nat)
    requires j <= |table|
    ensures j <= e <= |table|
    ensures forall k :: j <= k < e ==> Continues(table[k])
    ensures e < |table| ==> !Continues(table[e])
    decreases |table| - j
  {
    if j < |table| && Continues(table[j]) then RunEnd(table, j + 1) else j
  }

  /** The description column. */
  function Descriptions(table: seq<Row>): (ds: seq<string>)
    requires Wide(table, 6)
    ensures |ds| == |table|
  {
    seq(|table|, k requires 0 <= k < |table| => table[k][2])
  }

  /** A cell read as an amount; an empty cell is 0. */
  function CellAmount(env: Env, cell: string): (r: Result<int>)
    ensures cell == "" ==> r == Ok(0)
    ensures cell != "" ==> r == Amount(env, cell)
  {
    if cell == "" then Ok(0) else Amount(env, cell)
  }

  /** The balance cell: None when empty. */
  function CellBalance(env: Env, cell: string): (r: Result<BalanceArg>)
    ensures cell == "" ==> r == Ok(PassedNone)
    ensures cell != "" ==> (r.Ok? <==> env.amount(cell).Some?)
    ensures r.Ok? && cell != "" ==> r.value == PassedCents(env.amount(cell).value)
  {
    if cell == "" then Ok(PassedNone)
    else match Amount(env, cell)
      case Ok(c) => Ok(PassedCents(c))
      case Err(e) => Err(e)
  }

  /** The transaction a dated row starts, its description joined over the continuation rows up to `end`. */
  function RowTransaction(table: seq<Row>, i: nat, end: nat, env: Env, start: int, stop: int): (r: Result<Txn>)
    requires Wide(table, 6) && i < end <= |table|
    ensures r.Ok? ==> && Some(r.value.postingDate) == env.absoluteDate(table[i][0], start, stop)
                      && r.value.transactionDate == Some(r.value.postingDate)
                      && CellAmount(env, table[i][3]).Ok? && CellAmount(env, table[i][4]).Ok?
                      && r.value.amount == CellAmount(env, table[i][3]).value - CellAmount(env, table[i][4]).value
                      && Ok(r.value.balance) == CellBalance(env, table[i][5])
                      && r.value.desc == Joined(Descriptions(table), i, end - i)
  {
    var row := table[i];
    var postingDate := AbsoluteDate(env, row[0], start, stop);
    var additions := CellAmount(env, row[3]);
    var subtractions := CellAmount(env, row[4]);
    var balance := CellBalance(env, row[5]);
    if postingDate.Err? then Err(postingDate.error)
    else if additions.Err? then Err(additions.error)
    else if subtractions.Err? then Err(subtractions.error)
    else if balance.Err? then Err(balance.error)
    else Ok(Txn(postingDate.value, Some(postingDate.value), additions.value - subtractions.value,
                balance.value, Joined(Descriptions(table), i, end - i)))
  }

  /**
   * The transactions from row `i` on: a row whose first cell has no
   * `d/d` date is skipped; a dated row makes one transaction and consumes
   * the continuation rows below it.
   */
  function ParseFrom(table: seq<Row>, i: nat, env: Env, start: int, stop: int): (r: Result<seq<Txn>>)
    requires Wide(table, 6) && i <= |table|
    decreases |table| - i
  {
    if i == |table| then Ok([])
    else if !HasLooseMmDd(table[i][0]) then ParseFrom(table, i + 1, env, start, stop)
    else
      var end := RunEnd(table, i + 1);
      var t := RowTransaction(table, i, end, env, start, stop);
      if t.Err? then Err(t.error)
      else
        var rest := ParseFrom(table, end, env, start, stop);
        if rest.Err? then rest else Ok([t.value] + rest.value)
  }

  /** The number of rows from row `i` on whose first cell holds a date. */
  function DatedCount(table: seq<Row>, i: nat): nat
    requires Wide(table, 6) && i <= |table|
    decreases |table| - i
  {
    if i == |table| then 0
    else (if HasLooseMmDd(table[i][0]) then 1 else 0) + DatedCount(table, i + 1)
  }

  /** Continuation rows hold no date. */
  lemma {:induction false} ContinuationsUndated(table: seq<Row>, j: nat, e: nat)
    requires Wide(table, 6) && j <= e <= |table|
    requires forall k :: j <= k < e ==> Continues(table[k])
    ensures DatedCount(table, j) == DatedCount(table, e)
    decreases e - j
  {
    if j < e {
      assert !HasLooseMmDd(table[j][0]);
      ContinuationsUndated(table, j + 1, e);
    }
  }

  /**
   * Parsing makes exactly one transaction per dated row: the undated rows
   * are skipped or consumed as continuations, and every transaction is
   * dated by its row.
   */
  lemma {:induction false} OnePerDatedRow(table: seq<Row>, i: nat, env: Env, start: int, stop: int)
    requires Wide(table, 6) && i <= |table|
    ensures var r := ParseFrom(table, i, env, start, stop);
            r.Ok? ==> |r.value| == DatedCount(table, i)
                      && forall k :: 0 <= k < |r.value| ==> r.value[k].transactionDate == Some(r.value[k].postingDate)
    decreases |table| - i
  {
    if i < |table| {
      if !HasLooseMmDd(table[i][0]) {
        OnePerDatedRow(table, i + 1, env, start, stop);
      } else {
        var end := RunEnd(table, i + 1);
        ContinuationsUndated(table, i + 1, end);
        OnePerDatedRow(table, end, env, start, stop);
      }
    }
  }

  /** `get_full_description(i_row)`: the description and the number of continuation rows consumed. */
  method FullDescription(table: seq<Row>, i: nat) returns (desc: string, multilines: nat)
    requires Wide(table, 6) && i < |table|
    ensures i + multilines + 1 == RunEnd(table, i + 1)
    ensures desc == Joined(Descriptions(table), i, multilines + 1)
  {
    desc := table[i][2];
    assert Descriptions(table)[i..i + 1] == [desc];
    var m := 1;
    while i + m < |table| && table[i + m][0] == "" && table[i + m][2] != ""
      invariant 1 <= m && i + m <= |table|
      invariant RunEnd(table, i + m) == RunEnd(table, i + 1)
      invariant desc == Joined(Descriptions(table), i, m)
      decreases |table| - m
    {
      JoinedNext(Descriptions(table), i, m);
      desc := desc + " " + table[i + m][2];
      m := m + 1;
    }
    multilines := m - 1;
  }

  /** `parse_transaction_array(array)` with the statement's dates. */
  method ParseTransactionArray(table: seq<Row>, env: Env, start: int, stop: int) returns (r: Result<seq<Txn>>)
    requires Wide(table, 6)
    ensures r == ParseFrom(table, 0, env, start, stop)
  {
    var transactions: seq<Txn> := [];
    var iRow := 0;
    PrependNothing(ParseFrom(table, 0, env, start, stop));
    while iRow < |table|
      invariant 0 <= iRow <= |table|
      invariant ParseFrom(table, 0, env, start, stop) == Prepend(transactions, ParseFrom(table, iRow, env, start, stop))
      decreases |table| - iRow
    {
      var row := table[iRow];
      if !HasLooseMmDd(row[0]) {
        assert ParseFrom(table, iRow, env, start, stop) == ParseFrom(table, iRow + 1, env, start, stop);
        iRow := iRow + 1;
        continue;
      }
      var desc, multilines := FullDescription(table, iRow);
      var next := iRow + multilines + 1;
      var t := RowTransaction(table, iRow, next, env, start, stop);
      if t.Err? {
        assert ParseFrom(table, iRow, env, start, stop) == Err(t.error);
        return Err(t.error);
      }
      assert ParseFrom(table, iRow, env, start, stop) == Prepend([t.value], ParseFrom(table, next, env, start, stop));
      PrependTwice(transactions, [t.value], ParseFrom(table, next, env, start, stop));
      transactions := transactions + [t.value];
      iRow := next;
    }
    assert ParseFrom(table, iRow, env, start, stop) == Ok([]);
    assert transactions + [] == transactions;
    r := Ok(transactions);
  }

  // ---------------------------------------------------------------------
  // get_statement_balances
  // ---------------------------------------------------------------------

  const TryPatterns: seq<string> := ["Beginning ba", "Ending ba", "Closing ba"]

  /** The signed dollar-amount pattern `-?\$\d{1,3}(?:,\d{3})*(?:\.\d{2})?`. */
  const AmountRegex: string := "-?\\$\\d{1,3}(?:,\\d{3})*(?:\\.\\d{2})?"

  /** The balance on the first line starting with `pattern`, if that line holds an amount that converts. */
  function BalanceFor(lines: seq<string>, pattern: string, env: Env): (b: Option<int>)
    ensures b.Some? ==> FindStartsWith(lines, pattern, 0).Ok?
  {
    match FindStartsWith(lines, pattern, 0)
    case Err(_) => None
    case Ok(i) =>
      match env.search(AmountRegex, lines[i])
      case None => None
      case Some(m) => env.amount(m)
  }

  /** Each pattern's balance, as a lookup. */
  function BalanceLookup(lines: seq<string>, env: Env): string -> Option<int> {
    p => BalanceFor(lines, p, env)
  }

  /** The patterns a lookup finds. */
  function Present(get: string -> Option<int>): string -> bool {
    p => get(p).Some?
  }

  function Found(lines: seq<string>, env: Env): string -> bool {
    Present(BalanceLookup(lines, env))
  }

  /**
   * `get_statement_balances()`: the patterns whose balance is found, in
   * pattern order; exactly two must be found, and their balances are
   * returned in that order; otherwise ValueError.
   */
  function StatementBalances(lines: seq<string>, env: Env): (r: Result<(int, int)>)
    ensures var found := Keep(TryPatterns, Found(lines, env));
            && (r.Ok? <==> |found| == 2)
            && (r.Err? ==> r.error == ValueError)
            && (r.Ok? ==> Some(r.value.0) == BalanceFor(lines, found[0], env)
                          && Some(r.value.1) == BalanceFor(lines, found[1], env))
  {
    var found := Keep(TryPatterns, Found(lines, env));
    if |found| != 2 then Err(ValueError)
    else Ok((BalanceFor(lines, found[0], env).value, BalanceFor(lines, found[1], env).value))
  }

  /** A list without repeats has as many distinct members as elements. */
  lemma {:induction false} DistinctCount(xs: seq<string>)
    requires Distinct(xs)
    ensures |set x | x in xs| == |xs|
  {
    if xs != [] {
      var init := xs[..|xs| - 1];
      DistinctCount(init);
      assert (set x | x in xs) == (set x | x in init) + {xs[|xs| - 1]};
      assert xs[|xs| - 1] !in (set x | x in init);
    }
  }

  /** `get_statement_balances()`: the loop over the patterns fills the balance dictionary. */
  method GetStatementBalances(lines: seq<string>, env: Env) returns (r: Result<(int, int)>)
    ensures r == StatementBalances(lines, env)
  {
    var patterns, balances := CollectBalances(TryPatterns, BalanceLookup(lines, env));
    OneBalancePerPattern(lines, env, patterns, balances);
    if |balances| != 2 {
      return Err(ValueError);
    }
    r := Ok((balances[patterns[0]], balances[patterns[1]]));
  }

  /**
   * The loop of `get_statement_balances()`: the patterns tried whose
   * balance is found, in order, and the dictionary from each to its balance.
   */
  method CollectBalances(tries: seq<string>, get: string -> Option<int>)
    returns (patterns: seq<string>, balances: map<string, int>)
    ensures patterns == Keep(tries, Present(get))
    ensures balances.Keys == set p | p in patterns
    ensures forall p :: p in balances ==> Some(balances[p]) == get(p)
  {
    patterns, balances := [], map[];
    var i := 0;
    while i < |tries|
      invariant 0 <= i <= |tries|
      invariant patterns == Keep(tries[..i], Present(get))
      invariant balances.Keys == set p | p in patterns
      invariant forall p :: p in balances ==> Some(balances[p]) == get(p)
    {
      KeepStep(tries, i, Present(get));
      var b := get(tries[i]);
      if b.Some? {
        balances := balances[tries[i] := b.value];
        patterns := patterns + [tries[i]];
      }
      i := i + 1;
    }
    assert tries[..i] == tries;
  }

  /** The dictionary holds one balance per pattern found. */
  lemma OneBalancePerPattern(lines: seq<string>, env: Env, patterns: seq<string>, balances: map<string, int>)
    requires patterns == Keep(TryPatterns, Found(lines, env))
    requires balances.Keys == set p | p in patterns
    ensures |balances| == |patterns|
  {
    KeepOrdered(lines, env);
    DistinctCount(patterns);
    assert |balances| == |balances.Keys|;
  }

  /** The patterns kept from the three are distinct. */
  lemma KeepOrdered(lines: seq<string>, env: Env)
    ensures var found := Keep(TryPatterns, Found(lines, env));
            forall a, b :: 0 <= a < b < |found| ==> found[a] != found[b]
  {
    assert TryPatterns[0] != TryPatterns[1] && TryPatterns[0] != TryPatterns[2] && TryPatterns[1] != TryPatterns[2];
    KeepDistinct(TryPatterns, Found(lines, env));
  }
}
