/**
 * The Citi card plugin of src/core/parsepdf/citi.py.  Each page is read
 * against its table header: words of a line that start right of the
 * "Amount" column are cut off, a record starting `mm/dd ` is continued on
 * up to five following lines until it holds an amount, and each record
 * becomes a transaction dated by its one or two leading dates.  The
 * parser object keeps the statement dates and balances it reads.
 */
module ParsepdfCiti {
  import opened Wrappers
  import opened Text
  import opened Lines
  import opened Helpers
  import opened Ledger
  import opened Records
  import Parse

  // ---------------------------------------------------------------------
  // truncate_words
  // ---------------------------------------------------------------------

  function Clamp(i: int): nat {
    if i < 0 then 0 else i
  }

  /** Where `line.find(word, start)` finds each word of `ws` in turn, each search starting past the last word. */
  function Positions(line: string, ws: seq<string>, start: int): (pos: seq<int>)
    ensures |pos| == |ws|
    decreases |ws|
  {
    if ws == [] then []
    else
      var at := FindFrom(line, ws[0], Clamp(start));
      [at] + Positions(line, ws[1..], at + |ws[0]|)
  }

  /** A word found at `at` is cut off: it starts past `maxIndex` and more than one space after the last kept word. */
  predicate CutAt(at: int, maxIndex: int, lastEnd: int) {
    at > maxIndex && (lastEnd == -1 || at - lastEnd > 1)
  }

  /** The end of the word before word `k`, or `lastEnd` for the first. */
  function PrevEnd(ws: seq<string>, pos: seq<int>, k: nat, lastEnd: int): int
    requires k < |ws| && |pos| == |ws|
  {
    if k == 0 then lastEnd else pos[k - 1] + |ws[k - 1]|
  }

  /** The words of `ws` that the loop of `truncate_words` keeps, from search position `start` and last end `lastEnd`. */
  function Kept(line: string, ws: seq<string>, maxIndex: int, start: int, lastEnd: int): (r: seq<string>)
    ensures |r| <= |ws| && r == ws[..|r|]
    decreases |ws|
  {
    if ws == [] then []
    else
      var at := FindFrom(line, ws[0], Clamp(start));
      if CutAt(at, maxIndex, lastEnd) then []
      else [ws[0]] + Kept(line, ws[1..], maxIndex, at + |ws[0]|, at + |ws[0]|)
  }

  /** One step of the loop of `truncate_words`: word `i` is found from `start`, then cut off or kept. */
  lemma KeptStep(line: string, ws: seq<string>, i: nat, maxIndex: int, start: int, lastEnd: int)
    requires i < |ws|
    ensures var at := FindFrom(line, ws[i], Clamp(start));
            Kept(line, ws[i..], maxIndex, start, lastEnd)
            == if CutAt(at, maxIndex, lastEnd) then []
               else [ws[i]] + Kept(line, ws[i + 1..], maxIndex, at + |ws[i]|, at + |ws[i]|)
  {
    var rest := ws[i..];
    assert rest[0] == ws[i] && rest[1..] == ws[i + 1..];
  }

  /** The loop's invariant carried over one step: the word is kept, or the loop stops with what it has. */
  lemma KeptLoopStep(line: string, ws: seq<string>, i: nat, maxIndex: int, start: int, lastEnd: int,
                     words: seq<string>, whole: seq<string>)
    requires i < |ws|
    requires whole == words + Kept(line, ws[i..], maxIndex, start, lastEnd)
    ensures var at := FindFrom(line, ws[i], Clamp(start));
            && (CutAt(at, maxIndex, lastEnd) ==> whole == words)
            && (!CutAt(at, maxIndex, lastEnd) ==>
                  whole == (words + [ws[i]]) + Kept(line, ws[i + 1..], maxIndex, at + |ws[i]|, at + |ws[i]|))
  {
    KeptStep(line, ws, i, maxIndex, start, lastEnd);
    var at := FindFrom(line, ws[i], Clamp(start));
    if !CutAt(at, maxIndex, lastEnd) {
      var rest := Kept(line, ws[i + 1..], maxIndex, at + |ws[i]|, at + |ws[i]|);
      assert words + ([ws[i]] + rest) == (words + [ws[i]]) + rest;
    } else {
      assert words + [] == words;
    }
  }

  /** `truncate_words(line, max_index)`: the kept words joined by single spaces. */
  function Truncated(line: string, maxIndex: int): string {
    JoinSpace(Kept(line, Words(line), maxIndex, 0, -1))
  }

  /** Every word the loop keeps was not cut off where it was found. */
  lemma {:induction false} KeptNotCut(line: string, ws: seq<string>, maxIndex: int, start: int, lastEnd: int, k: nat)
    requires k < |Kept(line, ws, maxIndex, start, lastEnd)|
    ensures var pos := Positions(line, ws, start);
            !CutAt(pos[k], maxIndex, PrevEnd(ws, pos, k, lastEnd))
    decreases k
  {
    var at := FindFrom(line, ws[0], Clamp(start));
    var pos := Positions(line, ws, start);
    var tail := ws[1..];
    var tpos := Positions(line, tail, at + |ws[0]|);
    assert pos == [at] + tpos;
    if k > 0 {
      KeptNotCut(line, tail, maxIndex, at + |ws[0]|, at + |ws[0]|, k - 1);
      assert pos[k] == tpos[k - 1];
      assert PrevEnd(ws, pos, k, lastEnd) == PrevEnd(tail, tpos, k - 1, at + |ws[0]|);
    }
  }

  /** The word after the kept ones, when there is one, is cut off. */
  lemma {:induction false} KeptEndsAtCut(line: string, ws: seq<string>, maxIndex: int, start: int, lastEnd: int)
    requires |Kept(line, ws, maxIndex, start, lastEnd)| < |ws|
    ensures var r := Kept(line, ws, maxIndex, start, lastEnd);
            var pos := Positions(line, ws, start);
            CutAt(pos[|r|], maxIndex, PrevEnd(ws, pos, |r|, lastEnd))
    decreases |ws|
  {
    var at := FindFrom(line, ws[0], Clamp(start));
    var pos := Positions(line, ws, start);
    var tail := ws[1..];
    var tpos := Positions(line, tail, at + |ws[0]|);
    assert pos == [at] + tpos;
    if !CutAt(at, maxIndex, lastEnd) {
      var r := Kept(line, ws, maxIndex, start, lastEnd);
      var tr := Kept(line, tail, maxIndex, at + |ws[0]|, at + |ws[0]|);
      assert r == [ws[0]] + tr;
      KeptEndsAtCut(line, tail, maxIndex, at + |ws[0]|, at + |ws[0]|);
      assert pos[|r|] == tpos[|tr|];
      assert PrevEnd(ws, pos, |r|, lastEnd) == PrevEnd(tail, tpos, |tr|, at + |ws[0]|);
    }
  }

  /** The loop keeps every word up to the first one that is cut off, and stops there. */
  lemma KeptStopsAtFirstCut(line: string, ws: seq<string>, maxIndex: int, start: int, lastEnd: int)
    ensures var r := Kept(line, ws, maxIndex, start, lastEnd);
            var pos := Positions(line, ws, start);
            && (forall k :: 0 <= k < |r| ==> !CutAt(pos[k], maxIndex, PrevEnd(ws, pos, k, lastEnd)))
            && (|r| < |ws| ==> CutAt(pos[|r|], maxIndex, PrevEnd(ws, pos, |r|, lastEnd)))
  {
    var r := Kept(line, ws, maxIndex, start, lastEnd);
    forall k | 0 <= k < |r|
      ensures !CutAt(Positions(line, ws, start)[k], maxIndex, PrevEnd(ws, Positions(line, ws, start), k, lastEnd))
    {
      KeptNotCut(line, ws, maxIndex, start, lastEnd, k);
    }
    if |r| < |ws| {
      KeptEndsAtCut(line, ws, maxIndex, start, lastEnd);
    }
  }

  /** `truncate_words(line, max_index)`. */
  method TruncateWords(line: string, maxIndex: int) returns (s: string)
    ensures s == Truncated(line, maxIndex)
  {
    var words := KeepWords(line, Words(line), maxIndex);
    s := JoinSpace(words);
  }

  /** The loop of `truncate_words` over the words `ws` of `line`. */
  method KeepWords(line: string, ws: seq<string>, maxIndex: int) returns (words: seq<string>)
    ensures words == Kept(line, ws, maxIndex, 0, -1)
  {
    words := [];
    var start := 0;
    var lastEnd := -1;
    var i := 0;
    while i < |ws|
      invariant 0 <= i <= |ws|
      invariant Kept(line, ws, maxIndex, 0, -1) == words + Kept(line, ws[i..], maxIndex, start, lastEnd)
    {
      var word := ws[i];
      var at := FindFrom(line, word, Clamp(start));
      KeptLoopStep(line, ws, i, maxIndex, start, lastEnd, words, Kept(line, ws, maxIndex, 0, -1));
      if CutAt(at, maxIndex, lastEnd) {
        break;
      }
      words := words + [word];
      lastEnd := at + |word|;
      start := at + |word|;
      i := i + 1;
    }
    assert i == |ws| ==> ws[i..] == [];
  }

  // ---------------------------------------------------------------------
  // get_transactions_from_page
  // ---------------------------------------------------------------------

  /** The table header: the lower-cased words of the line include date, description and amount. */
  predicate IsHeader(line: string) {
    var ws := Words(Lower(line));
    "date" in ws && "description" in ws && "amount" in ws
  }

  /** `header.index("amount") + len("amount")`: no word kept starts past it. */
  function AmountEnd(header: string): int {
    Find(header, "amount") + 6
  }

  /** A header line holds "amount", so `index` finds it and never raises. */
  lemma HeaderHasAmount(line: string)
    requires IsHeader(line)
    ensures AmountEnd(Lower(line)) >= 6
  {
    WordsOccur(Lower(line));
    FindIffContains(Lower(line), "amount");
  }

  /** `lines_clean`: each line with its whitespace collapsed. */
  function CleanLines(raw: seq<string>): (clean: seq<string>)
    ensures |clean| == |raw|
  {
    seq(|raw|, i requires 0 <= i < |raw| => Collapse(raw[i]))
  }

  /** Each line of the page truncated at the amount column. */
  function TruncatedLines(raw: seq<string>, maxIndex: int): (tr: seq<string>)
    ensures |tr| == |raw|
  {
    seq(|raw|, j requires 0 <= j < |raw| => Truncated(raw[j], maxIndex))
  }

  /**
   * The lookahead of the record at line `i` from step `k`, over the
   * truncated lines `tr`: join the next line until the record holds an
   * amount, five lines have been joined, the page ends or the next record
   * starts.
   */
  function Gather(tr: seq<string>, idx: seq<nat>, i: nat, line: string, k: nat): string
    decreases 6 - k
  {
    if k > 5 || HasAmount(line) || i + k >= |tr| || i + k in idx then line
    else Gather(tr, idx, i, line + " " + tr[i + k], k + 1)
  }

  /** The record that starts at line `i`. */
  function Record(tr: seq<string>, idx: seq<nat>, i: nat): string
    requires i < |tr|
  {
    Gather(tr, idx, i, tr[i], 1)
  }

  /** The lookahead stopped after `n` lines: an amount, five joined lines, the end of the page or the next record. */
  predicate StoppedAfter(tr: seq<string>, idx: seq<nat>, i: nat, n: nat, line: string) {
    n == 6 || HasAmount(line) || i + n == |tr| || i + n in idx
  }

  /**
   * A record is its first truncated line joined with at most five
   * following ones, none of which starts a record, and the joining stopped
   * for one of the reasons the loop checks.
   */
  lemma {:induction false} GatherShape(tr: seq<string>, idx: seq<nat>, i: nat, line: string, k: nat)
    requires 1 <= k <= 6 && i + k <= |tr|
    requires line == Joined(tr, i, k)
    requires forall t :: i < t < i + k ==> t !in idx
    ensures exists n :: k <= n <= 6 && i + n <= |tr|
                        && Gather(tr, idx, i, line, k) == Joined(tr, i, n)
                        && (forall t :: i < t < i + n ==> t !in idx)
                        && StoppedAfter(tr, idx, i, n, Joined(tr, i, n))
    decreases 6 - k
  {
    if k > 5 || HasAmount(line) || i + k >= |tr| || i + k in idx {
      assert StoppedAfter(tr, idx, i, k, Joined(tr, i, k));
    } else {
      JoinedNext(tr, i, k);
      GatherShape(tr, idx, i, line + " " + tr[i + k], k + 1);
    }
  }

  lemma RecordShape(tr: seq<string>, idx: seq<nat>, i: nat)
    requires i < |tr|
    ensures exists n :: 1 <= n <= 6 && i + n <= |tr|
                        && Record(tr, idx, i) == Joined(tr, i, n)
                        && (forall t :: i < t < i + n ==> t !in idx)
                        && StoppedAfter(tr, idx, i, n, Joined(tr, i, n))
  {
    assert tr[i..i + 1] == [tr[i]];
    GatherShape(tr, idx, i, tr[i], 1);
  }

  /** The records of a page, one per line that starts `mm/dd `. */
  function PageRecords(tr: seq<string>, idx: seq<nat>): (rs: seq<string>)
    requires forall j :: 0 <= j < |idx| ==> idx[j] < |tr|
    ensures |rs| == |idx|
  {
    seq(|idx|, j requires 0 <= j < |idx| => Record(tr, idx, idx[j]))
  }

  /** What `get_transactions_from_page(page)` gives for the lines of a page. */
  function PageTransactions(page: seq<string>): (r: seq<string>)
    ensures forall k :: 0 <= k < |r| ==> HasAmount(r[k])
    ensures First(Parse.NonBlankLines(page), IsHeader).None? ==> r == []
  {
    var raw := Parse.NonBlankLines(page);
    match First(raw, IsHeader)
    case None => []
    case Some(h) =>
      var idx := Where(CleanLines(raw), LeadingMmDd);
      Keep(PageRecords(TruncatedLines(raw, AmountEnd(Lower(raw[h]))), idx), HasAmount)
  }

  /** `get_transactions_from_page(page)`. */
  method GetTransactionsFromPage(page: seq<string>) returns (r: seq<string>)
    ensures r == PageTransactions(page)
  {
    var linesRaw := Parse.NonBlankLines(page);
    var linesClean := CleanLines(linesRaw);
    var h := 0;
    while h < |linesRaw|
      invariant 0 <= h <= |linesRaw|
      invariant FirstFrom(linesRaw, IsHeader, 0) == FirstFrom(linesRaw, IsHeader, h)
    {
      if IsHeader(linesRaw[h]) {
        break;
      }
      h := h + 1;
    }
    if h == |linesRaw| {
      return [];
    }
    var maxIndex := AmountEnd(Lower(linesRaw[h]));
    var idx := Where(linesClean, LeadingMmDd);
    r := CollectRecords(linesRaw, idx, maxIndex);
  }

  /** The loop of `get_transactions_from_page` over the record starts: the records that hold an amount, in page order. */
  method CollectRecords(raw: seq<string>, idx: seq<nat>, maxIndex: int) returns (r: seq<string>)
    requires forall j :: 0 <= j < |idx| ==> idx[j] < |raw|
    ensures r == Keep(PageRecords(TruncatedLines(raw, maxIndex), idx), HasAmount)
  {
    ghost var records := PageRecords(TruncatedLines(raw, maxIndex), idx);
    var transactionLines: seq<string> := [];
    var j := 0;
    while j < |idx|
      invariant 0 <= j <= |idx|
      invariant transactionLines == Keep(records[..j], HasAmount)
    {
      var line := AssembleRecord(raw, idx, maxIndex, idx[j]);
      KeepStep(records, j, HasAmount);
      if HasAmount(line) {
        transactionLines := transactionLines + [line];
      }
      j := j + 1;
    }
    assert records[..j] == records;
    r := transactionLines;
  }

  /** The lookahead loop of `get_transactions_from_page` for the record starting at line `i`. */
  method AssembleRecord(raw: seq<string>, idx: seq<nat>, maxIndex: int, i: nat) returns (line: string)
    requires i < |raw|
    ensures line == Record(TruncatedLines(raw, maxIndex), idx, i)
  {
    ghost var tr := TruncatedLines(raw, maxIndex);
    line := TruncateWords(raw[i], maxIndex);
    var k := 1;
    while k <= 5
      invariant 1 <= k <= 6
      invariant Gather(tr, idx, i, line, k) == Record(tr, idx, i)
    {
      if HasAmount(line) {
        break;
      }
      var nextIndex := i + k;
      if nextIndex >= |raw| || nextIndex in idx {
        break;
      }
      var nextLine := TruncateWords(raw[nextIndex], maxIndex);
      line := line + " " + nextLine;
      k := k + 1;
    }
  }

  /** The transaction lines of all pages, page after page. */
  function AllTransactionLines(pages: seq<seq<string>>): seq<string> {
    if pages == [] then [] else AllTransactionLines(pages[..|pages| - 1]) + PageTransactions(pages[|pages| - 1])
  }

  /** One more page adds that page's transaction lines at the end. */
  lemma AllLinesStep(pages: seq<seq<string>>, i: nat)
    requires i < |pages|
    ensures AllTransactionLines(pages[..i + 1]) == AllTransactionLines(pages[..i]) + PageTransactions(pages[i])
  {
    assert pages[..i + 1][..i] == pages[..i];
  }

  /** `get_transaction_lines()`. */
  method GetTransactionLines(pages: seq<seq<string>>) returns (r: seq<string>)
    ensures r == AllTransactionLines(pages)
  {
    r := [];
    var i := 0;
    while i < |pages|
      invariant 0 <= i <= |pages|
      invariant r == AllTransactionLines(pages[..i])
    {
      var lines := GetTransactionsFromPage(pages[i]);
      AllLinesStep(pages, i);
      r := r + lines;
      i := i + 1;
    }
    assert pages[..i] == pages;
  }

  // ---------------------------------------------------------------------
  // parse_transaction_lines
  // ---------------------------------------------------------------------

  /** The index of the first word holding an amount. */
  function FirstAmount(ws: seq<string>): Option<nat> {
    First(ws, HasAmount)
  }

  /**
   * One transaction from the words of its line: the first date is the
   * transaction date; a second date right after it is the posting date,
   * else the posting date is the transaction date; the amount is the first
   * amount word negated, the description the words before it.  The call
   * passes no balance.
   */
  function ParseWords(ws: seq<string>, env: Env, start: int, end: int): (r: Result<Txn>)
    ensures ws == [] ==> r == Err(IndexError)
    ensures r.Ok? ==> && ws != [] && r.value.transactionDate.Some? && r.value.balance.Omitted?
                      && Some(r.value.transactionDate.value) == env.absoluteDate(ws[0], start, end)
    ensures r.Ok? && |ws| >= 2 && HasMmDd(ws[1]) ==> Some(r.value.postingDate) == env.absoluteDate(ws[1], start, end)
    ensures r.Ok? && !(|ws| >= 2 && HasMmDd(ws[1])) ==> Some(r.value.postingDate) == r.value.transactionDate
    ensures r.Ok? ==> var rest := if |ws| >= 2 && HasMmDd(ws[1]) then ws[2..] else ws[1..];
                      && FirstAmount(rest).Some?
                      && Some(-r.value.amount) == env.amount(rest[FirstAmount(rest).value])
                      && r.value.desc == JoinSpace(rest[..FirstAmount(rest).value])
  {
    if ws == [] then Err(IndexError)
    else
      var transactionDate := AbsoluteDate(env, ws[0], start, end);
      if transactionDate.Err? then Err(transactionDate.error)
      else
        var second := |ws| >= 2 && HasMmDd(ws[1]);
        var postingDate := if second then AbsoluteDate(env, ws[1], start, end) else transactionDate;
        var rest := if second then ws[2..] else ws[1..];
        if postingDate.Err? then Err(postingDate.error)
        else match FirstAmount(rest)
          case None => Err(IndexError)
          case Some(i) =>
            var amount := Negated(env, rest[i]);
            if amount.Err? then Err(amount.error)
            else Ok(Txn(postingDate.value, Some(transactionDate.value), amount.value, Omitted, JoinSpace(rest[..i])))
  }

  function LineParser(env: Env, start: int, end: int): string -> Result<Txn> {
    line => ParseWords(Words(line), env, start, end)
  }

  // ---------------------------------------------------------------------
  // Statement dates and balances
  // ---------------------------------------------------------------------

  /**
   * A balance: the last word of the first line containing `pattern`,
   * negated; ValueError when no line contains it.
   */
  function Balance(lines: seq<string>, pattern: string, env: Env): (r: Result<int>)
    ensures (forall j :: 0 <= j < |lines| ==> !Contains(lines[j], pattern)) ==> r == Err(ValueError)
    ensures r.Ok? ==> FindParam(lines, pattern, 0).Ok?
                      && var line := lines[FindParam(lines, pattern, 0).value];
                         LastWord(line).Ok? && Some(-r.value) == env.amount(LastWord(line).value)
  {
    match FindParam(lines, pattern, 0)
    case Err(e) => Err(e)
    case Ok(i) =>
      match LastWord(lines[i])
      case Err(e) => Err(e)
      case Ok(w) => Negated(env, w)
  }

  /** `get_statement_balances()`: the previous and the new balance, both negated, in that order. */
  function StatementBalances(lines: seq<string>, env: Env): (r: Result<(int, int)>)
    ensures r.Ok? <==> Balance(lines, "Previous balance ", env).Ok? && Balance(lines, "New balance ", env).Ok?
    ensures r.Ok? ==> r.value == (Balance(lines, "Previous balance ", env).value, Balance(lines, "New balance ", env).value)
  {
    var previous := Balance(lines, "Previous balance ", env);
    var current := Balance(lines, "New balance ", env);
    if previous.Err? then Err(previous.error)
    else if current.Err? then Err(current.error)
    else Ok((previous.value, current.value))
  }

  /**
   * `get_statement_dates()`: the `mm/dd/yy-mm/dd/yy` text after the colon
   * of the "Billing Period:" line, each side read as a date; a range that
   * does not have exactly two sides raises ValueError.
   */
  function StatementDates(lines: seq<string>, env: Env): (r: Result<(int, int)>)
    ensures r.Ok? ==> FindStartsWith(lines, "Billing Period:", 0).Ok?
  {
    match FindStartsWith(lines, "Billing Period:", 0)
    case Err(e) => Err(e)
    case Ok(i) =>
      var parts := SplitOn(lines[i], ":");
      if |parts| < 2 then Err(IndexError)
      else
        var ws := Words(parts[1]);
        if ws == [] then Err(IndexError)
        else
          var dates := Traverse(SplitOn(ws[0], "-"), DateReader(env));
          if dates.Err? then Err(dates.error)
          else if |dates.value| != 2 then Err(ValueError)
          else Ok((dates.value[0], dates.value[1]))
  }

  function DateReader(env: Env): string -> Result<int> {
    s => Strptime(env, s, "%m/%d/%y")
  }

  // ---------------------------------------------------------------------
  // The parser object
  // ---------------------------------------------------------------------

  /** The parser with the text it reads and the statement fields it sets. */
  class Parser {
    var linesClean: seq<string>
    var pages: seq<seq<string>>
    var startDate: int
    var endDate: int
    var startBalance: int
    var endBalance: int

    constructor(linesClean: seq<string>, pages: seq<seq<string>>)
      ensures this.linesClean == linesClean && this.pages == pages
    {
      this.linesClean := linesClean;
      this.pages := pages;
    }

    /** `get_statement_dates()`: sets both dates, or raises and leaves them. */
    method GetStatementDates(env: Env) returns (err: Option<Error>)
      modifies this`startDate, this`endDate
      ensures var d := StatementDates(linesClean, env);
              && (d.Ok? ==> err.None? && startDate == d.value.0 && endDate == d.value.1)
              && (d.Err? ==> err == Some(d.error) && startDate == old(startDate) && endDate == old(endDate))
    {
      var d := StatementDates(linesClean, env);
      if d.Err? {
        return Some(d.error);
      }
      startDate, endDate := d.value.0, d.value.1;
      err := None;
    }

    /** `get_statement_balances()`: sets both balances, or raises and leaves them. */
    method GetStatementBalances(env: Env) returns (err: Option<Error>)
      modifies this
      ensures var b := StatementBalances(old(linesClean), env);
              && (b.Ok? ==> err.None? && startBalance == b.value.0 && endBalance == b.value.1)
              && (b.Err? ==> err == Some(b.error) && startBalance == old(startBalance) && endBalance == old(endBalance))
      ensures linesClean == old(linesClean) && pages == old(pages)
      ensures startDate == old(startDate) && endDate == old(endDate)
    {
      var b := StatementBalances(linesClean, env);
      if b.Err? {
        return Some(b.error);
      }
      startBalance, endBalance := b.value.0, b.value.1;
      err := None;
    }

    /** `parse_transaction_lines(transaction_lines)`, with the statement dates set. */
    method ParseTransactionLines(transactionLines: seq<string>, env: Env) returns (r: Result<seq<Txn>>)
      ensures r == Traverse(transactionLines, LineParser(env, startDate, endDate))
      ensures r.Ok? ==> |r.value| == |transactionLines| && forall k :: 0 <= k < |r.value| ==> r.value[k].balance.Omitted?
    {
      r := TraverseAll(transactionLines, LineParser(env, startDate, endDate));
    }
  }
}
