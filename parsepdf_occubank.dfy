/**
 * The OCCU bank parser of src/core/parsepdf/occubank.py.  A statement
 * holds a savings section and a checking section, each headed by a line
 * that starts with the account number; the checking section ends at the
 * next account or at the personal credit line.  Each section gives its
 * previous and ending balances and its transaction lines, which carry a
 * leading `mm/dd`, a description, the amount and the balance after it.
 * The statement period is read from the text, or, on older statements,
 * from the first page's annotations.
 */
module ParsepdfOccubank {
  import opened Wrappers
  import opened Text
  import opened Lines
  import opened Helpers
  import opened Ledger
  import opened Records

  const HeaderDate: string := "%m/%d/%y"
  const FromPattern: string := "FROM \\d{2}/\\d{2}/\\d{2}"
  const ToPattern: string := "TO \\d{2}/\\d{2}/\\d{2}"
  const FromDate: string := "FROM_DATE"
  const ToDate: string := "TO_DATE"
  const Savings: string := "PRIMARY SAVINGS"
  const Checking: string := "REMARKABLE CHECKING"
  const OtherAccount: string := "XXXXX"
  const CreditLine: string := "PERSONAL CREDIT LINE"
  const PreviousBalance: string := "Previous Balance"
  const EndingBalance: string := "Ending Balance"

  // ---------------------------------------------------------------------
  // Statement dates
  // ---------------------------------------------------------------------

  /** A PDF annotation: an optional title and its value, already decoded. */
  datatype Annot = Annot(title: Option<string>, value: string)

  /** `dates_from_text()`: the second word of the first "FROM mm/dd/yy" line and of the first "TO mm/dd/yy" line. */
  function DatesFromText(lines: seq<string>, env: Env): (r: Result<(int, int)>)
    ensures FindSearch(env, lines, FromPattern, 0).Err? || FindSearch(env, lines, ToPattern, 0).Err? ==> r == Err(ValueError)
    ensures r.Ok? ==> var from := Words(lines[FindSearch(env, lines, FromPattern, 0).value]);
                      var to := Words(lines[FindSearch(env, lines, ToPattern, 0).value]);
                      |from| >= 2 && |to| >= 2
                      && Strptime(env, from[1], HeaderDate) == Ok(r.value.0)
                      && Strptime(env, to[1], HeaderDate) == Ok(r.value.1)
  {
    match FindSearch(env, lines, FromPattern, 0)
    case Err(e) => Err(e)
    case Ok(i) =>
      match FindSearch(env, lines, ToPattern, 0)
      case Err(e) => Err(e)
      case Ok(j) =>
        var from := Words(lines[i]);
        var to := Words(lines[j]);
        if |from| < 2 || |to| < 2 then Err(IndexError)
        else
          match Strptime(env, from[1], HeaderDate)
          case Err(e) => Err(e)
          case Ok(start) =>
            match Strptime(env, to[1], HeaderDate)
            case Err(e) => Err(e)
            case Ok(end) => Ok((start, end))
  }

  /** A title that is set, not empty, and starts with `pattern`. */
  predicate TitleMatches(a: Annot, pattern: string) {
    a.title.Some? && a.title.value != [] && StartsWith(a.title.value, pattern)
  }

  /**
   * `extract_from_annotations(page, pattern)`: the value of the first
   * annotation whose title starts with `pattern`; KeyError when none does.
   */
  function FromAnnotations(annots: seq<Annot>, pattern: string): (r: Result<string>)
    ensures r.Err? <==> forall k :: 0 <= k < |annots| ==> !TitleMatches(annots[k], pattern)
    ensures r.Err? ==> r.error == KeyError
    ensures r.Ok? ==> exists k :: 0 <= k < |annots| && TitleMatches(annots[k], pattern) && annots[k].value == r.value
                                  && forall j :: 0 <= j < k ==> !TitleMatches(annots[j], pattern)
  {
    match First(annots, (a: Annot) => TitleMatches(a, pattern))
    case None => Err(KeyError)
    case Some(k) => Ok(annots[k].value)
  }

  /** `dates_from_annotations()`: the FROM_DATE and TO_DATE annotations of the first page. */
  function DatesFromAnnotations(pages: seq<seq<Annot>>, env: Env): (r: Result<(int, int)>)
    ensures pages == [] ==> r == Err(IndexError)
    ensures r.Ok? ==> var from := FromAnnotations(pages[0], FromDate);
                      var to := FromAnnotations(pages[0], ToDate);
                      from.Ok? && to.Ok?
                      && Strptime(env, from.value, HeaderDate) == Ok(r.value.0)
                      && Strptime(env, to.value, HeaderDate) == Ok(r.value.1)
  {
    if pages == [] then Err(IndexError)
    else
      match FromAnnotations(pages[0], FromDate)
      case Err(e) => Err(e)
      case Ok(from) =>
        match FromAnnotations(pages[0], ToDate)
        case Err(e) => Err(e)
        case Ok(to) =>
          match Strptime(env, from, HeaderDate)
          case Err(e) => Err(e)
          case Ok(start) =>
            match Strptime(env, to, HeaderDate)
            case Err(e) => Err(e)
            case Ok(end) => Ok((start, end))
  }

  /**
   * `get_statement_dates()` as written: the text first, the annotations
   * when the text fails; when both fail, joining the two exception
   * objects into one message raises TypeError.
   */
  function StatementDatesAsWritten(lines: seq<string>, pages: seq<seq<Annot>>, env: Env): (r: Result<(int, int)>)
    ensures DatesFromText(lines, env).Ok? ==> r == DatesFromText(lines, env)
    ensures DatesFromText(lines, env).Err? ==> r == if DatesFromAnnotations(pages, env).Ok? then DatesFromAnnotations(pages, env) else Err(TypeError)
  {
    var text := DatesFromText(lines, env);
    if text.Ok? then text
    else
      var annotated := DatesFromAnnotations(pages, env);
      if annotated.Ok? then annotated else Err(TypeError)
  }

  /**
   * `get_statement_dates()` as intended: the text first, the annotations
   * when the text fails, and ValueError when both fail.
   */
  function StatementDates(lines: seq<string>, pages: seq<seq<Annot>>, env: Env): (r: Result<(int, int)>)
    ensures r.Err? <==> DatesFromText(lines, env).Err? && DatesFromAnnotations(pages, env).Err?
    ensures r.Err? ==> r.error == ValueError
    ensures DatesFromText(lines, env).Ok? ==> r == DatesFromText(lines, env)
    ensures DatesFromText(lines, env).Err? && DatesFromAnnotations(pages, env).Ok? ==> r == DatesFromAnnotations(pages, env)
  {
    var text := DatesFromText(lines, env);
    if text.Ok? then text
    else
      var annotated := DatesFromAnnotations(pages, env);
      if annotated.Ok? then annotated else Err(ValueError)
  }

  /**
   * The two agree whenever either source of dates works; with neither, the
   * code as written raises TypeError instead of the ValueError it builds,
   * as a statement with no lines and no pages shows.
   */
  lemma DatesFallbackDiffers(env: Env)
    ensures forall lines, pages :: DatesFromText(lines, env).Ok? || DatesFromAnnotations(pages, env).Ok? ==>
              StatementDatesAsWritten(lines, pages, env) == StatementDates(lines, pages, env)
    ensures StatementDatesAsWritten([], [], env) == Err(TypeError)
    ensures StatementDates([], [], env) == Err(ValueError)
  {
    assert FindSearch(env, [], FromPattern, 0).Err?;
  }

  // ---------------------------------------------------------------------
  // Account sections
  // ---------------------------------------------------------------------

  /** Python's truth value of an optional index: found and not zero. */
  predicate Truthy(o: Option<nat>) {
    o.Some? && o.value != 0
  }

  /** `min(i for i in [i_other, i_loan, len(lines)] if i)`. */
  function SectionEnd(other: Option<nat>, loan: Option<nat>, n: nat): (m: nat)
  {
    var a := if Truthy(other) && other.value < n then other.value else n;
    if Truthy(loan) && loan.value < a then loan.value else a
  }

  /** The end is the least of the boundaries that are found and not zero, and the line count. */
  lemma SectionEndMeaning(other: Option<nat>, loan: Option<nat>, n: nat)
    ensures var m := SectionEnd(other, loan, n);
            && m <= n && (n != 0 ==> m != 0)
            && (Truthy(other) ==> m <= other.value)
            && (Truthy(loan) ==> m <= loan.value)
            && (m == n || (Truthy(other) && m == other.value) || (Truthy(loan) && m == loan.value))
  {
  }

  /** The indices of a statement's sections: savings, checking, and the end of checking. */
  datatype Sections = Sections(savings: nat, checking: nat, end: nat)

  /**
   * The section boundaries of `extract_accounts()`: the first savings
   * line, the first checking line after it, and the end of checking at the
   * next "XXXXX" account line or the credit line, whichever comes first;
   * a credit line on the statement's very first line is no boundary.
   */
  function SectionsOf(lines: seq<string>): (r: Result<Sections>)
    ensures FindParam(lines, Savings, 0).Err? ==> r == Err(ValueError)
    ensures r.Err? ==> r.error == ValueError
    ensures r.Ok? ==> && FindParam(lines, Savings, 0) == Ok(r.value.savings)
                      && FindParam(lines, Checking, r.value.savings + 1) == Ok(r.value.checking)
                      && r.value.end == SectionEnd(Found(FindStartsWith(lines, OtherAccount, r.value.checking + 1)),
                                                   Found(FindParam(lines, CreditLine, 0)), |lines|)
  {
    match FindParam(lines, Savings, 0)
    case Err(e) => Err(e)
    case Ok(iSav) =>
      match FindParam(lines, Checking, iSav + 1)
      case Err(e) => Err(e)
      case Ok(iChk) =>
        var other := FindStartsWith(lines, OtherAccount, iChk + 1);
        var loan := FindParam(lines, CreditLine, 0);
        Ok(Sections(iSav, iChk, SectionEnd(Found(other), Found(loan), |lines|)))
  }

  /** `try: i, _ = find(...) except ValueError: i = None`. */
  function Found(r: Result<nat>): (o: Option<nat>)
    ensures o.Some? <==> r.Ok?
    ensures o.Some? ==> o.value == r.value
  {
    if r.Ok? then Some(r.value) else None
  }

  /** The sections are in order and within the statement. */
  lemma SectionsOrdered(lines: seq<string>)
    requires SectionsOf(lines).Ok?
    ensures var s := SectionsOf(lines).value;
            s.savings < s.checking < |lines| && 0 < s.end <= |lines|
  {
    var s := SectionsOf(lines).value;
    SectionEndMeaning(Found(FindStartsWith(lines, OtherAccount, s.checking + 1)), Found(FindParam(lines, CreditLine, 0)), |lines|);
  }

  // ---------------------------------------------------------------------
  // One account
  // ---------------------------------------------------------------------

  /** The last word of the first line holding `pattern`, as an amount. */
  function Balance(lines: seq<string>, pattern: string, env: Env): (r: Result<int>)
    ensures FindParam(lines, pattern, 0).Err? ==> r == Err(ValueError)
    ensures r.Ok? ==> var w := LastWord(lines[FindParam(lines, pattern, 0).value]);
                      w.Ok? && env.amount(w.value) == Some(r.value)
  {
    match FindParam(lines, pattern, 0)
    case Err(e) => Err(e)
    case Ok(i) =>
      match LastWord(lines[i])
      case Err(e) => Err(e)
      case Ok(w) => Amount(env, w)
  }

  /** `get_statement_balances(lines)`: the previous and the ending balance. */
  function Balances(lines: seq<string>, env: Env): (r: Result<(int, int)>)
    ensures r.Ok? <==> Balance(lines, PreviousBalance, env).Ok? && Balance(lines, EndingBalance, env).Ok?
    ensures r.Ok? ==> r.value == (Balance(lines, PreviousBalance, env).value, Balance(lines, EndingBalance, env).value)
  {
    match Balance(lines, PreviousBalance, env)
    case Err(e) => Err(e)
    case Ok(s) =>
      match Balance(lines, EndingBalance, env)
      case Err(e) => Err(e)
      case Ok(e) => Ok((s, e))
  }

  /** A dated line too short to hold an amount and a balance, on which the filter raises IndexError. */
  predicate Short(line: string) {
    LeadingMmDd(line) && |Words(line)| < 2
  }

  /** A transaction line: a leading `mm/dd ` and a "$" in each of its last two words. */
  predicate IsTransactionLine(line: string) {
    LeadingMmDd(line) && var ws := Words(line);
    |ws| >= 2 && '$' in ws[|ws| - 2] && '$' in ws[|ws| - 1]
  }

  /** One step of the filter: raise on a short dated line, otherwise say whether to keep it. */
  function Classify(line: string): (r: Result<bool>)
    ensures r.Err? <==> Short(line)
    ensures r.Err? ==> r.error == IndexError
    ensures r.Ok? ==> r.value == IsTransactionLine(line)
  {
    if !LeadingMmDd(line) then Ok(false)
    else
      var ws := Words(line);
      if |ws| < 2 then Err(IndexError)
      else Ok('$' in ws[|ws| - 2] && '$' in ws[|ws| - 1])
  }

  /** `get_transaction_lines(lines)`: the lines kept in order, or the error of the first line that raises. */
  function TransactionLines(lines: seq<string>): Result<seq<string>> {
    if lines == [] then Ok([])
    else
      var p := TransactionLines(lines[..|lines| - 1]);
      if p.Err? then p
      else match Classify(lines[|lines| - 1])
        case Err(e) => Err(e)
        case Ok(keep) => Ok(p.value + if keep then [lines[|lines| - 1]] else [])
  }

  /**
   * The filter raises IndexError exactly when a dated line is too short,
   * and otherwise keeps exactly the transaction lines, in order.
   */
  lemma {:induction false} TransactionLinesMeaning(lines: seq<string>)
    ensures TransactionLines(lines).Err? <==> exists j :: 0 <= j < |lines| && Short(lines[j])
    ensures TransactionLines(lines).Err? ==> TransactionLines(lines).error == IndexError
    ensures TransactionLines(lines).Ok? ==> TransactionLines(lines).value == Keep(lines, IsTransactionLine)
  {
    if lines != [] {
      var init := lines[..|lines| - 1];
      TransactionLinesMeaning(init);
      assert forall j :: 0 <= j < |init| ==> init[j] == lines[j];
      assert lines == init + [lines[|lines| - 1]];
    }
  }

  /** The filtering loop. */
  method GetTransactionLines(lines: seq<string>) returns (r: Result<seq<string>>)
    ensures r == TransactionLines(lines)
  {
    var kept: seq<string> := [];
    var i := 0;
    while i < |lines|
      invariant 0 <= i <= |lines|
      invariant TransactionLines(lines[..i]) == Ok(kept)
    {
      FilterStep(lines, i);
      var c := Classify(lines[i]);
      if c.Err? {
        FilterStopped(lines, i + 1);
        return Err(IndexError);
      }
      kept := kept + if c.value then [lines[i]] else [];
      i := i + 1;
    }
    assert lines[..i] == lines;
    r := Ok(kept);
  }

  /** The filter on one more line. */
  lemma FilterStep(lines: seq<string>, i: nat)
    requires i < |lines|
    ensures TransactionLines(lines[..i + 1])
            == (var p := TransactionLines(lines[..i]);
                if p.Err? then p
                else match Classify(lines[i])
                  case Err(e) => Err(e)
                  case Ok(keep) => Ok(p.value + if keep then [lines[i]] else []))
  {
    assert lines[..i + 1][..i] == lines[..i];
  }

  /** Once a prefix raises, so does the whole filter. */
  lemma {:induction false} FilterStopped(lines: seq<string>, i: nat)
    requires i <= |lines| && TransactionLines(lines[..i]).Err?
    ensures TransactionLines(lines) == TransactionLines(lines[..i])
    decreases |lines| - i
  {
    if i == |lines| {
      assert lines[..i] == lines;
    } else {
      assert lines[..i + 1][..i] == lines[..i];
      FilterStopped(lines, i + 1);
    }
  }

  /** `words.pop(1)` when the second word is "#". */
  function Unpound(ws: seq<string>): (r: seq<string>)
    requires |ws| >= 2
    ensures ws[1] == "#" ==> r == [ws[0]] + ws[2..]
    ensures ws[1] != "#" ==> r == ws
  {
    if ws[1] == "#" then [ws[0]] + ws[2..] else ws
  }

  /**
   * One transaction line, split into words: the date from the first word,
   * the amount and the balance from the last two, and the words between as
   * the description, without a "#" right after the date.
   */
  function ParseWords(ws: seq<string>, start: int, end: int, env: Env): (r: Result<Txn>)
    ensures ws == [] ==> r == Err(IndexError)
    ensures r.Ok? ==> && |ws| >= 2
                      && AbsoluteDate(env, ws[0], start, end) == Ok(r.value.postingDate)
                      && r.value.transactionDate == Some(r.value.postingDate)
                      && env.amount(ws[|ws| - 2]) == Some(r.value.amount)
                      && r.value.balance.PassedCents?
                      && env.amount(ws[|ws| - 1]) == Some(r.value.balance.cents)
  {
    if ws == [] then Err(IndexError)
    else
      match AbsoluteDate(env, ws[0], start, end)
      case Err(e) => Err(e)
      case Ok(date) =>
        if |ws| < 2 then Err(IndexError)
        else
          match Amount(env, ws[|ws| - 2])
          case Err(e) => Err(e)
          case Ok(amount) =>
            match Amount(env, ws[|ws| - 1])
            case Err(e) => Err(e)
            case Ok(balance) =>
              Ok(Txn(date, Some(date), amount, PassedCents(balance), JoinSpace(PySlice(Unpound(ws), 1, -2))))
  }

  /** `parse_transaction_lines` on one line. */
  function ParseLine(line: string, start: int, end: int, env: Env): Result<Txn> {
    ParseWords(Words(line), start, end, env)
  }

  /**
   * The description is the words between the date and the two amounts,
   * without a "#" right after the date; a line of fewer than four words has
   * none.
   */
  lemma DescriptionMeaning(ws: seq<string>, start: int, end: int, env: Env)
    requires ParseWords(ws, start, end, env).Ok?
    ensures var d := ParseWords(ws, start, end, env).value.desc;
            && (|ws| >= 4 && ws[1] == "#" ==> d == JoinSpace(ws[2..|ws| - 2]))
            && (|ws| >= 3 && ws[1] != "#" ==> d == JoinSpace(ws[1..|ws| - 2]))
            && (|ws| < 4 && (|ws| < 3 || ws[1] == "#") ==> d == JoinSpace([]))
  {
    var u := Unpound(ws);
    if |u| >= 3 {
      assert PySlice(u, 1, -2) == u[1..|u| - 2];
      if ws[1] == "#" {
        assert u[1..|u| - 2] == ws[2..|ws| - 2];
      }
    }
  }

  function LineParser(start: int, end: int, env: Env): string -> Result<Txn> {
    line => ParseLine(line, start, end, env)
  }

  /** `parse_transaction_lines(transaction_list)`: one transaction per line, in order, or the first line's error. */
  method ParseTransactionLines(xs: seq<string>, start: int, end: int, env: Env) returns (r: Result<seq<Txn>>)
    ensures r == Traverse(xs, LineParser(start, end, env))
    ensures r.Ok? ==> |r.value| == |xs| && forall k :: 0 <= k < |xs| ==> ParseLine(xs[k], start, end, env) == Ok(r.value[k])
  {
    r := TraverseAll(xs, LineParser(start, end, env));
  }

  /** The account a section describes: its balances and its transactions. */
  function AccountOf(num: string, section: seq<string>, start: int, end: int, env: Env): Result<AccountData> {
    match Balances(section, env)
    case Err(e) => Err(e)
    case Ok((sb, eb)) =>
      match TransactionLines(section)
      case Err(e) => Err(e)
      case Ok(xs) =>
        match Traverse(xs, LineParser(start, end, env))
        case Err(e) => Err(e)
        case Ok(ts) => Ok(AccountData(num, sb, eb, ts))
  }

  /** An account is read when its balances, its lines and every line's transaction are; each transaction comes from one line. */
  lemma AccountOfMeaning(num: string, section: seq<string>, start: int, end: int, env: Env)
    ensures var r := AccountOf(num, section, start, end, env);
            && (r.Ok? <==> Balances(section, env).Ok? && TransactionLines(section).Ok?
                           && forall k :: 0 <= k < |TransactionLines(section).value| ==>
                                ParseLine(TransactionLines(section).value[k], start, end, env).Ok?)
            && (r.Ok? ==> && r.value.accountNum == num
                          && (r.value.startBalance, r.value.endBalance) == Balances(section, env).value
                          && |r.value.transactions| == |TransactionLines(section).value|
                          && forall k :: 0 <= k < |r.value.transactions| ==>
                               Ok(r.value.transactions[k]) == ParseLine(TransactionLines(section).value[k], start, end, env))
  {
    if Balances(section, env).Ok? && TransactionLines(section).Ok? {
      TraverseOk(TransactionLines(section).value, LineParser(start, end, env));
    }
  }

  /** The account number: the first word of the section's first line. */
  function AccountNum(line: string): Result<string> {
    var ws := Words(line);
    if ws == [] then Err(IndexError) else Ok(ws[0])
  }

  /**
   * `{account_chk: lines_chk, account_sav: lines_sav}` read into accounts:
   * checking first, then savings.  When both numbers are equal the dict
   * has one key, the checking number with the savings lines.
   */
  function DictAccounts(chk: string, chkLines: seq<string>, sav: string, savLines: seq<string>,
                        start: int, end: int, env: Env): (r: Result<seq<AccountData>>)
    ensures chk != sav && r.Ok? ==> && |r.value| == 2
                                     && AccountOf(chk, chkLines, start, end, env) == Ok(r.value[0])
                                     && AccountOf(sav, savLines, start, end, env) == Ok(r.value[1])
    ensures chk == sav && r.Ok? ==> |r.value| == 1 && AccountOf(chk, savLines, start, end, env) == Ok(r.value[0])
    ensures r.Err? <==> if chk == sav then AccountOf(chk, savLines, start, end, env).Err?
                        else AccountOf(chk, chkLines, start, end, env).Err? || AccountOf(sav, savLines, start, end, env).Err?
  {
    if chk == sav then
      match AccountOf(chk, savLines, start, end, env)
      case Err(e) => Err(e)
      case Ok(a) => Ok([a])
    else
      match AccountOf(chk, chkLines, start, end, env)
      case Err(e) => Err(e)
      case Ok(a) =>
        match AccountOf(sav, savLines, start, end, env)
        case Err(e) => Err(e)
        case Ok(b) => Ok([a, b])
  }

  /** `extract_accounts()`: the sections, their account numbers, and their accounts. */
  function AccountsOf(lines: seq<string>, start: int, end: int, env: Env): (r: Result<seq<AccountData>>)
    ensures SectionsOf(lines).Err? ==> r == Err(ValueError)
  {
    match SectionsOf(lines)
    case Err(e) => Err(e)
    case Ok(s) =>
      SectionsOrdered(lines);
      match AccountNum(lines[s.savings])
      case Err(e) => Err(e)
      case Ok(sav) =>
        match AccountNum(lines[s.checking])
        case Err(e) => Err(e)
        case Ok(chk) => DictAccounts(chk, PySlice(lines, s.checking, s.end), sav, lines[s.savings..s.checking], start, end, env)
  }

  // ---------------------------------------------------------------------
  // The parser object
  // ---------------------------------------------------------------------

  /** The parser's state: the statement's lines, its pages' annotations, and the period it reads. */
  class Parser {
    var lines: seq<string>
    var pages: seq<seq<Annot>>
    var startDate: int
    var endDate: int

    constructor()
      ensures lines == [] && pages == []
    {
      lines := [];
      pages := [];
    }

    /** `get_statement_dates()`: sets the period from the text or the annotations. */
    method GetStatementDates(env: Env) returns (err: Option<Error>)
      modifies this`startDate, this`endDate
      ensures var d := StatementDates(lines, pages, env);
              && (d.Ok? ==> err.None? && startDate == d.value.0 && endDate == d.value.1)
              && (d.Err? ==> err == Some(ValueError))
    {
      var d := StatementDates(lines, pages, env);
      if d.Err? {
        return Some(ValueError);
      }
      startDate, endDate := d.value.0, d.value.1;
      err := None;
    }

    /** `extract_account(account_num, lines)`. */
    method ExtractAccount(num: string, section: seq<string>, env: Env) returns (r: Result<AccountData>)
      ensures r == AccountOf(num, section, startDate, endDate, env)
    {
      var balances := Balances(section, env);
      if balances.Err? {
        return Err(balances.error);
      }
      var xs := GetTransactionLines(section);
      if xs.Err? {
        return Err(xs.error);
      }
      var ts := ParseTransactionLines(xs.value, startDate, endDate, env);
      if ts.Err? {
        return Err(ts.error);
      }
      r := Ok(AccountData(num, balances.value.0, balances.value.1, ts.value));
    }

    /** `extract_accounts()`: the accounts of the statement's sections. */
    method ExtractAccounts(env: Env) returns (r: Result<seq<AccountData>>)
      ensures r == AccountsOf(lines, startDate, endDate, env)
    {
      var s := SectionsOf(lines);
      if s.Err? {
        return Err(s.error);
      }
      SectionsOrdered(lines);
      var sav := AccountNum(lines[s.value.savings]);
      if sav.Err? {
        return Err(sav.error);
      }
      var chk := AccountNum(lines[s.value.checking]);
      if chk.Err? {
        return Err(chk.error);
      }
      var savLines := lines[s.value.savings..s.value.checking];
      var chkLines := PySlice(lines, s.value.checking, s.value.end);
      if sav.value == chk.value {
        var a := ExtractAccount(chk.value, savLines, env);
        if a.Err? {
          return Err(a.error);
        }
        return Ok([a.value]);
      }
      var a := ExtractAccount(chk.value, chkLines, env);
      if a.Err? {
        return Err(a.error);
      }
      var b := ExtractAccount(sav.value, savLines, env);
      if b.Err? {
        return Err(b.error);
      }
      r := Ok([a.value, b.value]);
    }

    /** `parse(reader)`: the period, then the accounts. */
    method Parse(lines: seq<string>, pages: seq<seq<Annot>>, env: Env) returns (r: Result<StatementData>)
      modifies this
      ensures var d := StatementDates(lines, pages, env);
              && (d.Err? ==> r == Err(ValueError))
              && (d.Ok? ==> var accounts := AccountsOf(lines, d.value.0, d.value.1, env);
                            && (accounts.Err? ==> r == Err(accounts.error))
                            && (accounts.Ok? ==> r == Ok(StatementData(d.value.0, d.value.1, accounts.value))))
    {
      this.lines := lines;
      this.pages := pages;
      ghost var d := StatementDates(lines, pages, env);
      var err := GetStatementDates(env);
      if err.Some? {
        return Err(err.value);
      }
      assert d.Ok? && startDate == d.value.0 && endDate == d.value.1;
      var accounts := ExtractAccounts(env);
      assert accounts == AccountsOf(lines, d.value.0, d.value.1, env);
      if accounts.Err? {
        return Err(accounts.error);
      }
      r := Ok(StatementData(startDate, endDate, accounts.value));
    }
  }
}
