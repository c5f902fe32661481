/**
 * The Wells Fargo personal banking plugin of
 * src/plugins/pdf_wfbankpersonal.py.  It reads the same tables as the
 * bank parser, with its one header, but first repairs header names that
 * the PDF split: a name missing from the page is replaced by the longest
 * page word of at least three letters that ends it.  A page whose header
 * still is incomplete, or whose header line does not hold exactly five
 * header words, is skipped instead of raising.  Cutting the table, the
 * row parser and the balances are the bank parser's, whose code the
 * plugin repeats.
 */
module PdfWfbankpersonal {
  import opened Wrappers
  import opened Text
  import opened Lines
  import opened Ledger
  import opened ParsepdfWfbank

  const HeaderCols: seq<string> := PersonalHeader

  /** The last `j` characters of `col`. */
  function Suffix(col: string, j: nat): string
    requires j <= |col|
  {
    col[|col| - j..]
  }

  /**
   * The longest suffix of `col`, at most `k` long and at least 3, that is
   * a page word.
   */
  function FragmentFrom(col: string, texts: set<string>, k: nat): (r: Option<string>)
    requires k <= |col|
    ensures r.Some? ==> r.value in texts && EndsWith(col, r.value) && 3 <= |r.value| <= k
    ensures r.Some? ==> forall j :: |r.value| < j <= k ==> Suffix(col, j) !in texts
    ensures r.None? ==> forall j :: 3 <= j <= k ==> Suffix(col, j) !in texts
    decreases k
  {
    if k < 3 then None
    else if Suffix(col, k) in texts then Some(Suffix(col, k))
    else FragmentFrom(col, texts, k - 1)
  }

  /** A page word is a fragment of `col` when `col` ends with it and it has at least 3 characters. */
  predicate Fragment(col: string, w: string) {
    EndsWith(col, w) && |w| >= 3
  }

  /**
   * `col` itself when it is a page word; otherwise its longest fragment
   * among the page words, or `col` when there is none.  Fragments of the
   * same length are the same word, so the choice does not depend on the
   * order of the page's word set.
   */
  function Corrected(col: string, texts: set<string>): string {
    if col in texts then col
    else match FragmentFrom(col, texts, |col|)
      case Some(w) => w
      case None => col
  }

  /** The correction picks a page word that is a fragment and no fragment is longer; with none it keeps the name. */
  lemma CorrectedMeaning(col: string, texts: set<string>)
    ensures col in texts ==> Corrected(col, texts) == col
    ensures col !in texts && (exists w :: w in texts && Fragment(col, w)) ==>
              var c := Corrected(col, texts);
              c in texts && Fragment(col, c) && forall w :: w in texts && Fragment(col, w) ==> |w| <= |c|
    ensures col !in texts && (forall w :: w in texts ==> !Fragment(col, w)) ==> Corrected(col, texts) == col
  {
    if col !in texts {
      var r := FragmentFrom(col, texts, |col|);
      forall w | w in texts && Fragment(col, w)
        ensures r.Some? && |w| <= |r.value|
      {
        assert Suffix(col, |w|) == w;
      }
    }
  }

  /** The corrected header, one name per header column, in order. */
  function CorrectedHeader(texts: set<string>): (cols: seq<string>)
    ensures |cols| == |HeaderCols| && forall k :: 0 <= k < |cols| ==> cols[k] == Corrected(HeaderCols[k], texts)
  {
    seq(|HeaderCols|, k requires 0 <= k < |HeaderCols| => Corrected(HeaderCols[k], texts))
  }

  /** The header correction loop. */
  method CorrectHeader(texts: set<string>) returns (cols: seq<string>)
    ensures cols == CorrectedHeader(texts)
  {
    ghost var want := CorrectedHeader(texts);
    cols := [];
    var i := 0;
    while i < |HeaderCols|
      invariant 0 <= i <= |HeaderCols|
      invariant cols == want[..i]
    {
      var c := CorrectOne(HeaderCols[i], texts);
      assert want[..i + 1] == want[..i] + [c];
      cols := cols + [c];
      i := i + 1;
    }
  }

  /** One step of the correction loop: the name, its longest fragment, or the name again. */
  method CorrectOne(col: string, texts: set<string>) returns (c: string)
    ensures c == Corrected(col, texts)
  {
    if col in texts {
      c := col;
    } else {
      var best := FragmentFrom(col, texts, |col|);
      if best.Some? {
        c := best.value;
      } else {
        c := col;
      }
    }
  }

  function WordSet(words: seq<PageWord>): set<string> {
    set k | 0 <= k < |words| :: words[k].text
  }

  lemma WordSetTexts(words: seq<PageWord>)
    ensures forall t :: t in WordSet(words) <==> t in Texts(words)
  {
    forall t | t in Texts(words)
      ensures t in WordSet(words)
    {
      var k :| 0 <= k < |words| && Texts(words)[k] == t;
    }
  }

  /**
   * `get_transactions_from_page(page)`: no rows when a corrected header
   * name is on no word of the page, or when the header line does not hold
   * exactly five header words; otherwise the cut table.
   */
  function PageArray(page: Page): (r: Result<seq<Row>>)
    ensures var cols := CorrectedHeader(WordSet(page.words));
            Missing(cols, Texts(page.words)) ==> r == Ok([])
    ensures var cols := CorrectedHeader(WordSet(page.words));
            !Missing(cols, Texts(page.words)) && |AlignedHeader(page.words, cols)| != 5 ==> r == Ok([])
    ensures r.Ok? ==> Wide(r.value, 6)
  {
    var cols := CorrectedHeader(WordSet(page.words));
    if Missing(cols, Texts(page.words)) then Ok([])
    else
      var aligned := AlignedHeader(page.words, cols);
      if |aligned| != |HeaderCols| then Ok([])
      else TableOf(page, HeaderMap(aligned), cols)
  }

  /** `get_transactions_from_page(page)`. */
  method GetTransactionsFromPage(page: Page) returns (r: Result<seq<Row>>)
    ensures r == PageArray(page)
  {
    var wordSet := WordSet(page.words);
    var cols := CorrectHeader(wordSet);
    WordSetTexts(page.words);
    if exists c :: c in cols && c !in wordSet {
      return Ok([]);
    }
    var aligned := AlignedHeader(page.words, cols);
    if |aligned| != |HeaderCols| {
      return Ok([]);
    }
    var header := BuildHeader(aligned);
    var box := CropBox(header, cols, page.height);
    var lines := VerticalLines(header, cols);
    if box.Err? {
      return Err(box.error);
    }
    if lines.Err? {
      return Err(lines.error);
    }
    var table := page.extract(box.value, lines.value);
    r := CutArray(table, |lines.value| - 1);
  }

  function PageReader(): Page -> Result<seq<Row>> {
    page => Reraise(PageArray(page))
  }

  /** `get_transaction_array()`: every page's rows in page order; a page that raises is re-raised as ValueError. */
  method GetTransactionArray(pages: seq<Page>) returns (r: Result<seq<Row>>)
    ensures r == Concat(pages, PageReader())
    ensures r.Ok? ==> Wide(r.value, 6)
  {
    var transactionArray: seq<Row> := [];
    var i := 0;
    while i < |pages|
      invariant 0 <= i <= |pages|
      invariant Concat(pages[..i], PageReader()) == Ok(transactionArray)
      invariant Wide(transactionArray, 6)
    {
      ConcatStep(pages, i, PageReader());
      var rows := GetTransactionsFromPage(pages[i]);
      if rows.Err? {
        ConcatStopped(pages, i + 1, PageReader());
        return Err(ValueError);
      }
      transactionArray := transactionArray + rows.value;
      i := i + 1;
    }
    assert pages[..i] == pages;
    r := Ok(transactionArray);
  }
}
