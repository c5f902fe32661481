/**
 * Statement classification and routing (src/core/parse.py): a document's
 * text is matched against the StatementTypes rule table to find its
 * statement type id and parser name, the file suffix picks the reader, and
 * the parser name picks the institution module.  Also the line clean-up of
 * extracted PDF text and the blank-row filter of spreadsheet sheets.
 */
module Parse {
  import opened Wrappers
  import opened Text
  import opened Lines

  /** A row of the StatementTypes table. */
  datatype Rule = Rule(stid: int, searchString: string, parser: string, extension: string)

  datatype Selection = Selection(stid: int, parser: string)

  /** The rows the query returns: with a non-empty extension only that extension's rows, in table order. */
  function Candidates(rules: seq<Rule>, extension: string): (c: seq<Rule>)
    ensures |c| <= |rules|
    ensures forall r :: r in c <==> r in rules && (extension == "" || r.extension == extension)
  {
    if rules == [] then []
    else
      var rest := Candidates(rules[1..], extension);
      if extension == "" || rules[0].extension == extension then [rules[0]] + rest else rest
  }

  /** Without an extension every rule is a candidate. */
  lemma {:induction false} NoExtensionKeepsAll(rules: seq<Rule>)
    ensures Candidates(rules, "") == rules
  {
    if rules != [] {
      NoExtensionKeepsAll(rules[1..]);
    }
  }

  /** The `&&`-separated, lowercased terms of a rule's search string. */
  function Terms(rule: Rule): seq<string> {
    SplitOn(Lower(rule.searchString), "&&")
  }

  /** `all([t in text for t in terms])`. */
  predicate AllIn(terms: seq<string>, text: string) {
    forall t :: t in terms ==> Contains(text, t)
  }

  /** A rule matches when each of its terms occurs in the lowercased text. */
  predicate Matches(rule: Rule, text: string) {
    AllIn(Terms(rule), Lower(text))
  }

  /** Matching ignores the case of the document text. */
  lemma MatchIgnoresCase(rule: Rule, text: string)
    ensures Matches(rule, text) <==> Matches(rule, Lower(text))
  {
    LowerIdempotent(text);
  }

  /** A search string without `&&` matches exactly the texts that contain it, ignoring case. */
  lemma SingleTermRule(rule: Rule, text: string)
    requires !Contains(Lower(rule.searchString), "&&")
    ensures Matches(rule, text) <==> Contains(Lower(text), Lower(rule.searchString))
  {
    FindIffContains(Lower(rule.searchString), "&&");
    assert Terms(rule) == [Lower(rule.searchString)];
  }

  /** The terms are the lowercased search string cut at each `&&`, and contain no `&&`. */
  lemma TermsRebuildSearchString(rule: Rule)
    ensures Join(Terms(rule), "&&") == Lower(rule.searchString)
    ensures forall k :: 0 <= k < |Terms(rule)| ==> !Contains(Terms(rule)[k], "&&")
  {
    JoinSplit(Lower(rule.searchString), "&&");
    SplitPiecesFree(Lower(rule.searchString), "&&");
  }

  /** The index of the first rule at or after `k` that matches the text. */
  function FirstMatch(table: seq<Rule>, text: string, k: nat): (r: Option<nat>)
    decreases |table| - k
    ensures r.Some? ==> k <= r.value < |table| && Matches(table[r.value], text)
    ensures r.Some? ==> forall j :: k <= j < r.value ==> !Matches(table[j], text)
    ensures r.None? <==> forall j :: k <= j < |table| ==> !Matches(table[j], text)
  {
    if k >= |table| then None
    else if Matches(table[k], text) then Some(k)
    else FirstMatch(table, text, k + 1)
  }

  /** The outcome `select_parser` promises: the first matching candidate, or ValueError. */
  function Selected(rules: seq<Rule>, text: string, extension: string): Result<Selection> {
    var table := Candidates(rules, extension);
    match FirstMatch(table, text, 0)
    case None => Err(ValueError)
    case Some(i) => Ok(Selection(table[i].stid, table[i].parser))
  }

  /** `select_parser(text, extension)`: scan the candidate rules in order and stop at the first match. */
  method SelectParser(rules: seq<Rule>, text: string, extension: string) returns (r: Result<Selection>)
    ensures r == Selected(rules, text, extension)
  {
    var table := Candidates(rules, extension);
    var textLower := Lower(text);
    var i := 0;
    while i < |table|
      invariant 0 <= i <= |table|
      invariant forall j :: 0 <= j < i ==> !Matches(table[j], text)
    {
      var terms := SplitOn(Lower(table[i].searchString), "&&");
      var matching := AllIn(terms, textLower);
      if matching {
        r := Ok(Selection(table[i].stid, table[i].parser));
        assert FirstMatch(table, text, 0) == Some(i);
        return;
      }
      i := i + 1;
    }
    r := Err(ValueError);
  }

  /** Selection succeeds exactly when some candidate rule matches; otherwise it raises ValueError. */
  lemma SelectedOkIffSomeMatch(rules: seq<Rule>, text: string, extension: string)
    ensures Selected(rules, text, extension).Ok?
            <==> exists k :: 0 <= k < |Candidates(rules, extension)| && Matches(Candidates(rules, extension)[k], text)
    ensures Selected(rules, text, extension).Err? ==> Selected(rules, text, extension).error == ValueError
  {
    var table := Candidates(rules, extension);
    var m := FirstMatch(table, text, 0);
    if m.Some? {
      var k := m.value;
      assert 0 <= k < |table| && Matches(table[k], text);
      assert exists j :: 0 <= j < |Candidates(rules, extension)| && Matches(Candidates(rules, extension)[j], text);
      assert Selected(rules, text, extension).Ok?;
    } else {
      assert forall k :: 0 <= k < |table| ==> !Matches(table[k], text);
      assert Selected(rules, text, extension) == Err(ValueError);
    }
  }

  /**
   * Whatever the extension, the first matching candidate decides the
   * statement type and the parser, however many later candidates also match.
   */
  lemma FirstRuleWins(rules: seq<Rule>, text: string, extension: string, i: nat)
    requires i < |Candidates(rules, extension)|
    requires Matches(Candidates(rules, extension)[i], text)
    requires forall k :: 0 <= k < i ==> !Matches(Candidates(rules, extension)[k], text)
    ensures var table := Candidates(rules, extension);
            Selected(rules, text, extension) == Ok(Selection(table[i].stid, table[i].parser))
  {
    var table := Candidates(rules, extension);
    assert FirstMatch(table, text, 0).Some?;
  }

  /** Without an extension the candidates are the whole table, so the first matching rule of the table wins. */
  lemma FirstRuleOfTableWins(rules: seq<Rule>, text: string, i: nat)
    requires i < |rules|
    requires Matches(rules[i], text)
    requires forall k :: 0 <= k < i ==> !Matches(rules[k], text)
    ensures Selected(rules, text, "") == Ok(Selection(rules[i].stid, rules[i].parser))
  {
    NoExtensionKeepsAll(rules);
    FirstRuleWins(rules, text, "", i);
  }

  // ---------------------------------------------------------------------
  // Routing
  // ---------------------------------------------------------------------

  datatype Reader = Pdf | Csv | Xlsx

  /** `parse(fpath)`: the reader chosen by the lowercased file suffix. */
  function Dispatch(suffix: string): (r: Result<Reader>)
    ensures r == Ok(Pdf) <==> Lower(suffix) == ".pdf"
    ensures r == Ok(Csv) <==> Lower(suffix) == ".csv"
    ensures r == Ok(Xlsx) <==> Lower(suffix) == ".xlsx"
    ensures r.Err? ==> r.error == ValueError
  {
    var s := Lower(suffix);
    if s == ".pdf" then Ok(Pdf)
    else if s == ".csv" then Ok(Csv)
    else if s == ".xlsx" then Ok(Xlsx)
    else Err(ValueError)
  }

  function ExtensionOf(reader: Reader): string {
    match reader
    case Pdf => ".pdf"
    case Csv => ".csv"
    case Xlsx => ".xlsx"
  }

  /** The parser modules each reader can hand its contents to. */
  function KnownParsers(reader: Reader): seq<string> {
    match reader
    case Pdf => ["occubank", "citi", "usbank", "occucc", "wfper", "wfbus", "wfploan",
                 "fidelity401k", "fidelityhsa", "hehsa", "transamerica", "vanguard"]
    case Csv => ["occuauto", "amazonper", "amazonbus"]
    case Xlsx => ["fedloan"]
  }

  /** The `match parser` in `parse_pdf`/`parse_csv`/`parse_xlsx`: a known name, or ValueError. */
  function Route(reader: Reader, parser: string): (r: Result<string>)
    ensures r.Ok? <==> parser in KnownParsers(reader)
    ensures r.Ok? ==> r.value == parser
    ensures r.Err? ==> r.error == ValueError
  {
    if parser in KnownParsers(reader) then Ok(parser) else Err(ValueError)
  }

  datatype Routed = Routed(stid: int, parser: string, reader: Reader)

  /** `parse(fpath)` up to the call into the institution module. */
  method Classify(suffix: string, text: string, rules: seq<Rule>) returns (r: Result<Routed>)
    ensures Dispatch(suffix).Err? ==> r == Err(ValueError)
    ensures r.Err? ==> r.error == ValueError
    ensures r.Ok? ==> Dispatch(suffix) == Ok(r.value.reader)
    ensures r.Ok? ==> Selected(rules, text, ExtensionOf(r.value.reader))
                      == Ok(Selection(r.value.stid, r.value.parser))
    ensures r.Ok? ==> r.value.parser in KnownParsers(r.value.reader)
    ensures Dispatch(suffix).Ok? && Selected(rules, text, ExtensionOf(Dispatch(suffix).value)).Ok? && r.Err?
      ==> Selected(rules, text, ExtensionOf(Dispatch(suffix).value)).value.parser !in KnownParsers(Dispatch(suffix).value)
  {
    var reader := Dispatch(suffix);
    if reader.Err? {
      return Err(reader.error);
    }
    var selection := SelectParser(rules, text, ExtensionOf(reader.value));
    if selection.Err? {
      return Err(selection.error);
    }
    var routed := Route(reader.value, selection.value.parser);
    if routed.Err? {
      return Err(routed.error);
    }
    r := Ok(Routed(selection.value.stid, routed.value, reader.value));
  }

  // ---------------------------------------------------------------------
  // read_pdf and read_xlsx clean-up
  // ---------------------------------------------------------------------

  /** `line.strip() != ""`. */
  predicate NonBlank(line: string) {
    !IsBlank(line)
  }

  /**
   * The lines of `text.splitlines()` that are not blank, in order: the
   * comprehension `[line for line in lines if line.strip() != ""]`.
   */
  function NonBlankLines(lines: seq<string>): (r: seq<string>)
    ensures r == Keep(lines, NonBlank)
    ensures forall k :: 0 <= k < |r| ==> !IsBlank(r[k])
    ensures forall line :: line in r <==> line in lines && !IsBlank(line)
  {
    if lines == [] then []
    else
      assert lines == [lines[0]] + lines[1..];
      KeepCons(lines[0], lines[1..], NonBlank);
      if IsBlank(lines[0]) then NonBlankLines(lines[1..])
      else [lines[0]] + NonBlankLines(lines[1..])
  }

  /**
   * The raw lines are the non-blank lines in their original order, each
   * occurrence kept: the `j`-th is the line at the `j`-th non-blank index,
   * and those indices increase and cover every non-blank line.
   */
  lemma NonBlankLinesInOrder(lines: seq<string>)
    ensures var r := NonBlankLines(lines);
            var idx := Where(lines, NonBlank);
            && |r| == |idx|
            && (forall j :: 0 <= j < |r| ==> r[j] == lines[idx[j]])
            && (forall j, k :: 0 <= j < k < |idx| ==> idx[j] < idx[k])
            && (forall i :: 0 <= i < |lines| && !IsBlank(lines[i]) ==> i in idx)
  {
    KeepAtWhere(lines, NonBlank);
    WhereMeaning(lines, NonBlank);
  }

  datatype PdfText = PdfText(text: string, linesRaw: seq<string>, lines: seq<string>)

  /** `read_pdf`: join the pages, keep the non-blank lines, and collapse the whitespace of each. */
  function ReadPdf(pages: seq<string>): (r: PdfText)
    ensures r.text == Join(pages, "\n")
    ensures forall k :: 0 <= k < |r.linesRaw| ==> !IsBlank(r.linesRaw[k])
    ensures r.linesRaw == NonBlankLines(SplitOn(r.text, "\n"))
    ensures forall line :: line in r.linesRaw <==> line in SplitOn(r.text, "\n") && !IsBlank(line)
    ensures |r.lines| == |r.linesRaw|
    ensures forall k :: 0 <= k < |r.lines| ==> r.lines[k] == Collapse(r.linesRaw[k])
    ensures forall k :: 0 <= k < |r.lines| ==> Words(r.lines[k]) == Words(r.linesRaw[k])
  {
    var text := Join(pages, "\n");
    var raw := NonBlankLines(SplitOn(text, "\n"));
    PdfText(text, raw, CollapseAll(raw))
  }

  /** `[" ".join(line.split()) for line in lines]`: the same words, one space between them. */
  function CollapseAll(raw: seq<string>): (lines: seq<string>)
    ensures |lines| == |raw|
    ensures forall k :: 0 <= k < |lines| ==> lines[k] == Collapse(raw[k])
    ensures forall k :: 0 <= k < |lines| ==> Words(lines[k]) == Words(raw[k])
  {
    var lines := seq(|raw|, k requires 0 <= k < |raw| => Collapse(raw[k]));
    assert forall k :: 0 <= k < |lines| ==> Words(lines[k]) == Words(raw[k]) by {
      forall k | 0 <= k < |lines| {
        CollapseKeepsWords(raw[k]);
      }
    }
    lines
  }

  /** A cleaned line is never blank and cleaning it again changes nothing. */
  lemma CleanLineSettled(line: string)
    requires !IsBlank(line)
    ensures !IsBlank(Collapse(line))
    ensures Collapse(Collapse(line)) == Collapse(line)
  {
    CollapseKeepsWords(line);
    BlankIffNoWords(line);
    BlankIffNoWords(Collapse(line));
  }

  /** A worksheet row: one optional value per column. */
  type Row = seq<Option<string>>

  predicate HasValue(row: Row) {
    exists k :: 0 <= k < |row| && row[k].Some?
  }

  /** `read_xlsx`'s row filter: drop rows whose cells are all None, keep the rest in order. */
  function CleanSheet(rows: seq<Row>): (r: seq<Row>)
    ensures r == Keep(rows, HasValue)
    ensures |r| <= |rows|
    ensures forall k :: 0 <= k < |r| ==> HasValue(r[k])
    ensures forall row :: row in r <==> row in rows && HasValue(row)
  {
    if rows == [] then []
    else
      assert rows == [rows[0]] + rows[1..];
      KeepCons(rows[0], rows[1..], HasValue);
      if HasValue(rows[0]) then [rows[0]] + CleanSheet(rows[1..])
      else CleanSheet(rows[1..])
  }

  /**
   * The clean sheet keeps its rows in order, every occurrence: the `j`-th
   * row kept is the row at the `j`-th index with a value.
   */
  lemma CleanSheetInOrder(rows: seq<Row>)
    ensures var r := CleanSheet(rows);
            var idx := Where(rows, HasValue);
            && |r| == |idx|
            && (forall j :: 0 <= j < |r| ==> r[j] == rows[idx[j]])
            && (forall j, k :: 0 <= j < k < |idx| ==> idx[j] < idx[k])
            && (forall i :: 0 <= i < |rows| && HasValue(rows[i]) ==> i in idx)
  {
    KeepAtWhere(rows, HasValue);
    WhereMeaning(rows, HasValue);
  }

  /** A first row with a value (the header) stays the first row of the clean sheet. */
  lemma CleanSheetKeepsHeader(rows: seq<Row>)
    requires rows != [] && HasValue(rows[0])
    ensures CleanSheet(rows) != [] && CleanSheet(rows)[0] == rows[0]
  {
    assert rows == [rows[0]] + rows[1..];
    KeepCons(rows[0], rows[1..], HasValue);
  }
}
