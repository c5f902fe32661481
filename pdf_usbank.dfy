/**
 * The US Bank credit card plugin of src/plugins/pdf/usbank.py.  The
 * statement is read twice: once with tight layout tolerances, whose
 * cleaned lines carry the header (one info line with the open date, the
 * closing date and the account) and the balances, and once by the
 * reader's simple extraction, whose lines carry the transactions.  The
 * card's balances are negated; its transaction lines are those of
 * CardLines.
 */
module PdfUsbank {
  import opened Wrappers
  import opened Text
  import opened Lines
  import opened Helpers
  import opened Ledger
  import opened Records
  import Reading = Parse
  import CardLines

  const HeaderDate: string := "%m/%d/%Y"
  const OpenPattern: string := "Open Date:"
  const ClosingPattern: string := "Closing Date:"
  const AccountPattern: string := "Account:"
  const PreviousBalance: string := "Previous Balance"
  const NewBalance: string := "New Balance"

  /** The header read from the info line: the period and the account number. */
  datatype Metadata = Metadata(startDate: int, endDate: int, accountNum: string)

  /**
   * The words after the last "Account:" on the info line, glued together:
   * the text after it without its whitespace (GluedWordsAreUnspaced).
   */
  function AccountAfter(info: string): string {
    Unspaced(AfterLast(info, AccountPattern))
  }

  /**
   * `get_statement_metadata()`: the info line is the first line holding
   * "Open Date:"; each date is the first word after its label there, read
   * as `%m/%d/%Y`, and the account number is every word after "Account:",
   * glued together.  Any failure raises ValueError.
   */
  function StatementMetadata(lines: seq<string>, env: Env): (r: Result<Metadata>)
    ensures r.Err? ==> r.error == ValueError
  {
    match FindParam(lines, OpenPattern, 0)
    case Err(_) => Err(ValueError)
    case Ok(i) =>
      match WordAfter(lines[i], OpenPattern)
      case Err(_) => Err(ValueError)
      case Ok(open) =>
        match WordAfter(lines[i], ClosingPattern)
        case Err(_) => Err(ValueError)
        case Ok(close) =>
          match Strptime(env, open, HeaderDate)
          case Err(_) => Err(ValueError)
          case Ok(start) =>
            match Strptime(env, close, HeaderDate)
            case Err(_) => Err(ValueError)
            case Ok(end) => Ok(Metadata(start, end, AccountAfter(lines[i])))
  }

  /**
   * The header is read exactly when the info line is found, both dates'
   * words follow their labels and both read as dates; the period and the
   * account number are then those words.
   */
  lemma MetadataMeaning(lines: seq<string>, env: Env)
    ensures FindParam(lines, OpenPattern, 0).Err? ==> StatementMetadata(lines, env).Err?
    ensures FindParam(lines, OpenPattern, 0).Ok? ==>
              var info := lines[FindParam(lines, OpenPattern, 0).value];
              var open := WordAfter(info, OpenPattern);
              var close := WordAfter(info, ClosingPattern);
              var r := StatementMetadata(lines, env);
              && (r.Ok? <==> && open.Ok? && close.Ok?
                             && Strptime(env, open.value, HeaderDate).Ok?
                             && Strptime(env, close.value, HeaderDate).Ok?)
              && (r.Ok? ==> && Strptime(env, open.value, HeaderDate) == Ok(r.value.startDate)
                            && Strptime(env, close.value, HeaderDate) == Ok(r.value.endDate)
                            && r.value.accountNum == AccountAfter(info))
  {
  }

  /**
   * The start date `get_statement_metadata()` leaves behind: the open
   * date once both dates' words are found and the open date reads, and
   * `previous` before that.
   */
  function StoredStart(lines: seq<string>, env: Env, previous: int): int {
    match FindParam(lines, OpenPattern, 0)
    case Err(_) => previous
    case Ok(i) =>
      var open := WordAfter(lines[i], OpenPattern);
      var close := WordAfter(lines[i], ClosingPattern);
      if open.Err? || close.Err? then previous
      else
        match Strptime(env, open.value, HeaderDate)
        case Err(_) => previous
        case Ok(start) => start
  }

  /** A failure after the open date reads stores that date; an earlier one stores nothing. */
  lemma StoredStartMeaning(lines: seq<string>, env: Env, previous: int)
    ensures StatementMetadata(lines, env).Ok? ==>
              StoredStart(lines, env, previous) == StatementMetadata(lines, env).value.startDate
    ensures FindParam(lines, OpenPattern, 0).Err? ==> StoredStart(lines, env, previous) == previous
  {
  }

  /** The account number read from the info line holds no whitespace. */
  lemma AccountHasNoSpace(lines: seq<string>, env: Env)
    requires StatementMetadata(lines, env).Ok?
    ensures var a := StatementMetadata(lines, env).value.accountNum;
            forall k :: 0 <= k < |a| ==> !IsSpace(a[k])
  {
    var info := lines[FindParam(lines, OpenPattern, 0).value];
    UnspacedHasNoSpace(AfterLast(info, AccountPattern));
  }

  /** One balance: the last word of the first line starting with its label, negated. */
  function Balance(lines: seq<string>, pattern: string, env: Env): (r: Result<int>)
    ensures FindStartsWith(lines, pattern, 0).Err? ==> r == Err(ValueError)
    ensures r.Ok? ==> var w := LastWord(lines[FindStartsWith(lines, pattern, 0).value]);
                      w.Ok? && env.amount(w.value) == Some(-r.value)
  {
    match FindStartsWith(lines, pattern, 0)
    case Err(e) => Err(e)
    case Ok(i) =>
      match LastWord(lines[i])
      case Err(e) => Err(e)
      case Ok(w) => Negated(env, w)
  }

  /** `get_statement_balances()`: the previous and the new balance. */
  function Balances(lines: seq<string>, env: Env): Result<(int, int)> {
    CardLines.BothBalances(Balance(lines, PreviousBalance, env), Balance(lines, NewBalance, env))
  }

  /** The transactions of the simple lines: one per transaction line. */
  function Transactions(linesSimple: seq<string>, start: int, end: int, env: Env): Result<seq<Txn>> {
    Traverse(Keep(linesSimple, LeadingMmDd), CardLines.LineParser(start, end, env))
  }

  /** The balances and the transactions can both be read. */
  predicate AccountRead(lines: seq<string>, linesSimple: seq<string>, start: int, end: int, env: Env) {
    Balances(lines, env).Ok? && Transactions(linesSimple, start, end, env).Ok?
  }

  /** The account read: the number from the header, its balances and its transactions. */
  predicate AccountFits(a: AccountData, accountNum: string, lines: seq<string>, linesSimple: seq<string>,
                        start: int, end: int, env: Env)
    requires AccountRead(lines, linesSimple, start, end, env)
  {
    && a.accountNum == accountNum
    && (a.startBalance, a.endBalance) == Balances(lines, env).value
    && a.transactions == Transactions(linesSimple, start, end, env).value
  }

  /** The parser's state: the two extractions of the statement and what the header gave. */
  class Parser {
    var lines: seq<string>
    var linesSimple: seq<string>
    var startDate: int
    var endDate: int
    var accountNum: string

    constructor()
      ensures lines == [] && linesSimple == [] && accountNum == []
    {
      lines, linesSimple, accountNum := [], [], [];
    }

    /**
     * `get_statement_metadata()`: sets the period and the account number,
     * or raises ValueError.  The start date is stored before the closing
     * date is read, so a closing date `strptime` rejects leaves the new
     * start date behind.
     */
    method GetStatementMetadata(env: Env) returns (err: Option<Error>)
      modifies this
      ensures var m := StatementMetadata(lines, env);
              && (m.Ok? ==> && err.None? && startDate == m.value.startDate && endDate == m.value.endDate
                            && accountNum == m.value.accountNum)
              && (m.Err? ==> && err == Some(ValueError) && endDate == old(endDate) && accountNum == old(accountNum)
                             && startDate == StoredStart(lines, env, old(startDate)))
      ensures lines == old(lines) && linesSimple == old(linesSimple)
    {
      var m := StatementMetadata(lines, env);
      var s, e, a := StoredStart(lines, env, startDate), endDate, accountNum;
      if m.Ok? {
        s, e, a := m.value.startDate, m.value.endDate, m.value.accountNum;
      }
      err := if m.Ok? then None else Some(ValueError);
      startDate, endDate, accountNum := s, e, a;
    }

    /** `extract_account()`: the header's account number; every step's failure is raised as ValueError. */
    method ExtractAccount(env: Env) returns (r: Result<AccountData>)
      ensures r.Err? ==> r.error == ValueError
      ensures r.Ok? <==> AccountRead(lines, linesSimple, startDate, endDate, env)
      ensures r.Ok? ==> AccountFits(r.value, accountNum, lines, linesSimple, startDate, endDate, env)
    {
      var balances := Balances(lines, env);
      if balances.Err? {
        return Err(ValueError);
      }
      var xs := CardLines.GetTransactionLines(linesSimple);
      var transactions := CardLines.ParseTransactionLines(xs, startDate, endDate, env);
      if transactions.Err? {
        return Err(ValueError);
      }
      r := Ok(AccountData(accountNum, balances.value.0, balances.value.1, transactions.value));
    }

    /**
     * `parse(reader)`: the pages' cleaned lines; none raise ValueError;
     * otherwise the header's period and the one account.
     */
    method Parse(pages: seq<string>, linesSimple: seq<string>, env: Env) returns (r: Result<StatementData>)
      modifies this
      ensures lines == Reading.ReadPdf(pages).lines && this.linesSimple == linesSimple
      ensures r.Err? ==> r.error == ValueError
      ensures r.Ok? <==> && lines != [] && StatementMetadata(lines, env).Ok?
                         && var m := StatementMetadata(lines, env).value;
                            AccountRead(lines, linesSimple, m.startDate, m.endDate, env)
      ensures r.Ok? ==> var m := StatementMetadata(lines, env).value;
                        && r.value.startDate == m.startDate && r.value.endDate == m.endDate
                        && |r.value.accounts| == 1
                        && AccountFits(r.value.accounts[0], m.accountNum, lines, linesSimple, m.startDate, m.endDate, env)
    {
      this.linesSimple := linesSimple;
      this.lines := Reading.ReadPdf(pages).lines;
      if this.lines == [] {
        return Err(ValueError);
      }
      var err := GetStatementMetadata(env);
      if err.Some? {
        return Err(ValueError);
      }
      var account := ExtractAccount(env);
      if account.Err? {
        return Err(ValueError);
      }
      r := Ok(StatementData(startDate, endDate, [account.value]));
    }
  }

  /** Every line the header and the balances are read from is non-blank and already collapsed. */
  lemma CleanedLines(pages: seq<string>)
    ensures var lines := Reading.ReadPdf(pages).lines;
            forall k :: 0 <= k < |lines| ==> !IsBlank(lines[k]) && Collapse(lines[k]) == lines[k]
  {
    var p := Reading.ReadPdf(pages);
    forall k | 0 <= k < |p.lines|
      ensures !IsBlank(p.lines[k]) && Collapse(p.lines[k]) == p.lines[k]
    {
      Reading.CleanLineSettled(p.linesRaw[k]);
    }
  }
}
