/**
 * The older US Bank credit card parser of src/parse/usbank.py.  The
 * statement's info line carries the open date, the closing date and the
 * account number; the starting balance is the last dollar figure on the
 * "Previous Balance" line, negated; each transaction line starts with a
 * posting date, may carry a transaction date and a four-digit reference
 * number, and ends with the amount, negated; the balance runs on from the
 * starting balance.
 */
module ParseUsbank {
  import opened Wrappers
  import opened Text
  import opened Lines
  import opened Helpers
  import opened Ledger

  const DateFormat: string := "%m/%d/%Y"
  const AccountPattern: string := "Account: "
  const OpenPattern: string := "Open Date: "
  const ClosePattern: string := "Closing Date: "
  const PreviousPattern: string := "Previous Balance "

  /**
   * `get_account_number(lines)`: the words after the last "Account: " on
   * the first line holding it, glued together.
   */
  function AccountNumber(lines: seq<string>): (r: Result<string>)
    ensures FindParam(lines, AccountPattern, 0).Err? ==> r == Err(ValueError)
    ensures r.Ok? ==> r.value == Unspaced(AfterLast(lines[FindParam(lines, AccountPattern, 0).value], AccountPattern))
  {
    match FindParam(lines, AccountPattern, 0)
    case Err(e) => Err(e)
    case Ok(i) => Ok(Unspaced(AfterLast(lines[i], AccountPattern)))
  }

  /** The account number is `"".join(rline.split())` and holds no whitespace. */
  lemma AccountNumberGlued(lines: seq<string>)
    requires AccountNumber(lines).Ok?
    ensures var rline := AfterLast(lines[FindParam(lines, AccountPattern, 0).value], AccountPattern);
            AccountNumber(lines).value == Join(Words(rline), "")
    ensures var a := AccountNumber(lines).value;
            forall k :: 0 <= k < |a| ==> !IsSpace(a[k])
  {
    var rline := AfterLast(lines[FindParam(lines, AccountPattern, 0).value], AccountPattern);
    GluedWordsAreUnspaced(rline);
    UnspacedHasNoSpace(rline);
  }

  /** `line.split(sep)[1].split()[0]`: IndexError when `sep` is missing or nothing follows it. */
  function FirstWordAfterFirst(line: string, sep: string): (r: Result<string>)
    requires sep != []
    ensures r.Err? ==> r.error == IndexError
    ensures r.Ok? <==> |SplitOn(line, sep)| >= 2 && Words(SplitOn(line, sep)[1]) != []
    ensures r.Ok? ==> r.value == Words(SplitOn(line, sep)[1])[0]
  {
    var parts := SplitOn(line, sep);
    if |parts| < 2 then Err(IndexError)
    else
      var ws := Words(parts[1]);
      if ws == [] then Err(IndexError) else Ok(ws[0])
  }

  /**
   * `get_statement_dates(lines)`: the first word after "Open Date: " and
   * the first word after "Closing Date: ", on the first line starting with
   * "Open Date: ", each read as `%m/%d/%Y`.
   */
  function StatementDates(lines: seq<string>, env: Env): (r: Result<(int, int)>)
    ensures FindStartsWith(lines, OpenPattern, 0).Err? ==> r == Err(ValueError)
    ensures r.Ok? ==> var line := lines[FindStartsWith(lines, OpenPattern, 0).value];
                      var open := FirstWordAfterFirst(line, OpenPattern);
                      var close := FirstWordAfterFirst(line, ClosePattern);
                      && open.Ok? && close.Ok?
                      && Strptime(env, open.value, DateFormat) == Ok(r.value.0)
                      && Strptime(env, close.value, DateFormat) == Ok(r.value.1)
  {
    match FindStartsWith(lines, OpenPattern, 0)
    case Err(e) => Err(e)
    case Ok(i) =>
      match FirstWordAfterFirst(lines[i], OpenPattern)
      case Err(e) => Err(e)
      case Ok(open) =>
        match FirstWordAfterFirst(lines[i], ClosePattern)
        case Err(e) => Err(e)
        case Ok(close) =>
          match Strptime(env, open, DateFormat)
          case Err(e) => Err(e)
          case Ok(start) =>
            match Strptime(env, close, DateFormat)
            case Err(e) => Err(e)
            case Ok(end) => Ok((start, end))
  }

  predicate HasDollar(w: string) {
    '$' in w
  }

  /** `-amount([w for w in ws if "$" in w][-1])`: the last dollar figure, negated. */
  function LastDollarAmount(ws: seq<string>, env: Env): (r: Result<int>)
    ensures (forall k :: 0 <= k < |ws| ==> !HasDollar(ws[k])) ==> r == Err(IndexError)
    ensures r.Ok? ==> exists i :: && 0 <= i < |ws| && HasDollar(ws[i]) && env.amount(ws[i]) == Some(-r.value)
                                  && forall k :: i < k < |ws| ==> !HasDollar(ws[k])
  {
    match LastWhere(ws, HasDollar)
    case None => Err(IndexError)
    case Some(i) => Negated(env, ws[i])
  }

  /** `get_starting_balance(lines)`: the last dollar figure on the first line holding "Previous Balance ", negated. */
  function StartingBalance(lines: seq<string>, env: Env): (r: Result<int>)
    ensures FindParam(lines, PreviousPattern, 0).Err? ==> r == Err(ValueError)
    ensures FindParam(lines, PreviousPattern, 0).Ok? ==>
              r == LastDollarAmount(Words(lines[FindParam(lines, PreviousPattern, 0).value]), env)
  {
    match FindParam(lines, PreviousPattern, 0)
    case Err(e) => Err(e)
    case Ok(i) => LastDollarAmount(Words(lines[i]), env)
  }

  /** A transaction line: a leading `mm/dd ` and a dollar sign. */
  predicate IsTransactionLine(line: string) {
    LeadingMmDd(line) && '$' in line
  }

  /** `get_transaction_lines(lines)`: the lines with a leading date and a dollar sign, in order. */
  method GetTransactionLines(lines: seq<string>) returns (r: seq<string>)
    ensures r == Keep(lines, IsTransactionLine)
  {
    r := [];
    var i := 0;
    while i < |lines|
      invariant 0 <= i <= |lines|
      invariant r == Keep(lines[..i], IsTransactionLine)
    {
      KeepStep(lines, i, IsTransactionLine);
      if LeadingMmDd(lines[i]) && '$' in lines[i] {
        r := r + [lines[i]];
      }
      i := i + 1;
    }
    assert lines[..i] == lines;
  }

  /** `word.isdigit() and len(word) == 4`: a reference number. */
  predicate IsReference(w: string) {
    |w| == 4 && AllDigits(w)
  }

  /** How many leading words the dates take: two when the second word is a date, else one. */
  function DateWords(ws: seq<string>): nat
    requires |ws| >= 2
  {
    if HasMmDd(ws[1]) then 2 else 1
  }

  /**
   * One transaction line, split into words: the second word, when it is a
   * date, dates the row and the first is dropped; otherwise the first word
   * does.  A four-digit reference number after the dates is dropped, the
   * last word is the amount, negated, and the words in between are the
   * description.
   */
  function ParseWords(ws: seq<string>, start: int, end: int, env: Env): (r: Result<Posting>)
    ensures |ws| < 2 ==> r == Err(IndexError)
    ensures r.Ok? ==> && |ws| >= 2
                      && AbsoluteDate(env, ws[DateWords(ws) - 1], start, end) == Ok(r.value.date)
                      && |ws| > DateWords(ws)
                      && env.amount(ws[|ws| - 1]) == Some(-r.value.amount)
  {
    if |ws| < 2 then Err(IndexError)
    else
      var k := DateWords(ws);
      match AbsoluteDate(env, ws[k - 1], start, end)
      case Err(e) => Err(e)
      case Ok(date) =>
        var rest := ws[k..];
        if rest == [] then Err(IndexError)
        else
          var body := if IsReference(rest[0]) then rest[1..] else rest;
          if body == [] then Err(IndexError)
          else
            match Negated(env, body[|body| - 1])
            case Err(e) => Err(e)
            case Ok(amount) => Ok(Posting(date, amount, JoinSpace(body[..|body| - 1])))
  }

  /**
   * The description is the words between the dates (and the reference
   * number, when there is one) and the amount; a line that is all dates
   * raises IndexError.
   */
  lemma DescriptionMeaning(ws: seq<string>, start: int, end: int, env: Env)
    requires |ws| >= 2
    ensures var k := DateWords(ws);
            var r := ParseWords(ws, start, end, env);
            && (r.Ok? && IsReference(ws[k]) ==> r.value.desc == JoinSpace(ws[k + 1..|ws| - 1]))
            && (r.Ok? && !IsReference(ws[k]) ==> r.value.desc == JoinSpace(ws[k..|ws| - 1]))
            && (|ws| == k && AbsoluteDate(env, ws[k - 1], start, end).Ok? ==> r == Err(IndexError))
  {
    var k := DateWords(ws);
    if |ws| > k {
      var rest := ws[k..];
      assert rest[0] == ws[k];
      if IsReference(rest[0]) {
        var body := rest[1..];
        if body != [] {
          assert body[..|body| - 1] == ws[k + 1..|ws| - 1];
          assert body[|body| - 1] == ws[|ws| - 1];
        }
      } else {
        assert rest[..|rest| - 1] == ws[k..|ws| - 1];
        assert rest[|rest| - 1] == ws[|ws| - 1];
      }
    }
  }

  function LineParser(start: int, end: int, env: Env): string -> Result<Posting> {
    line => ParseWords(Words(line), start, end, env)
  }

  /**
   * `parse_transactions(date_range, balance, transaction_list)`: one row
   * per line, in order, each balance the previous one plus the row's
   * amount, from the starting balance; the first line that raises stops it.
   */
  method ParseTransactions(start: int, end: int, balance: int, transactionList: seq<string>, env: Env)
    returns (r: Result<seq<Entry>>)
    ensures var ps := Traverse(transactionList, LineParser(start, end, env));
            && (ps.Err? ==> r == Err(ps.error))
            && (ps.Ok? ==> r.Ok? && PostedFrom(balance, ps.value, r.value))
  {
    r := PostAll(balance, transactionList, LineParser(start, end, env));
  }

  /**
   * `parse(lines)`: the account number, the period, the starting balance
   * and the rows, each step's error raised as it comes.
   */
  method Parse(lines: seq<string>, env: Env) returns (r: Result<Parsed>)
    ensures AccountNumber(lines).Err? ==> r == Err(AccountNumber(lines).error)
    ensures AccountNumber(lines).Ok? && StatementDates(lines, env).Err? ==> r == Err(StatementDates(lines, env).error)
    ensures AccountNumber(lines).Ok? && StatementDates(lines, env).Ok? && StartingBalance(lines, env).Err?
            ==> r == Err(StartingBalance(lines, env).error)
    ensures AccountNumber(lines).Ok? && StatementDates(lines, env).Ok? && StartingBalance(lines, env).Ok? ==>
              var ps := Traverse(Keep(lines, IsTransactionLine),
                                 LineParser(StatementDates(lines, env).value.0, StatementDates(lines, env).value.1, env));
              ps.Err? ==> r == Err(ps.error)
    ensures r.Ok? ==> && AccountNumber(lines) == Ok(r.value.account)
                      && StatementDates(lines, env) == Ok((r.value.startDate, r.value.endDate))
                      && StartingBalance(lines, env).Ok?
                      && var ps := Traverse(Keep(lines, IsTransactionLine), LineParser(r.value.startDate, r.value.endDate, env));
                         ps.Ok? && PostedFrom(StartingBalance(lines, env).value, ps.value, r.value.transactions)
    ensures AccountNumber(lines).Ok? && StatementDates(lines, env).Ok? && StartingBalance(lines, env).Ok?
            && Traverse(Keep(lines, IsTransactionLine),
                        LineParser(StatementDates(lines, env).value.0, StatementDates(lines, env).value.1, env)).Ok?
            ==> r.Ok?
  {
    var account := AccountNumber(lines);
    if account.Err? {
      return Err(account.error);
    }
    var dates := StatementDates(lines, env);
    if dates.Err? {
      return Err(dates.error);
    }
    var balance := StartingBalance(lines, env);
    if balance.Err? {
      return Err(balance.error);
    }
    var xs := GetTransactionLines(lines);
    var transactions := ParseTransactions(dates.value.0, dates.value.1, balance.value, xs, env);
    if transactions.Err? {
      return Err(transactions.error);
    }
    r := Ok(Parsed(dates.value.0, dates.value.1, account.value, transactions.value));
  }
}
