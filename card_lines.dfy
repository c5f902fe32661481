/**
 * The transaction lines of the two credit card plugins,
 * src/plugins/pdf_occucc.py and src/plugins/pdf/usbank.py, whose code for
 * them is the same: a transaction line starts with `mm/dd `, may carry a
 * second date, and ends with the amount, which is negated; the words in
 * between are the description, which must not be empty.
 */
module CardLines {
  import opened Wrappers
  import opened Text
  import opened Lines
  import opened Helpers
  import opened Ledger
  import opened Records

  /** `get_transaction_lines()`: the lines that start with `mm/dd ` followed by whitespace, in order. */
  method GetTransactionLines(lines: seq<string>) returns (r: seq<string>)
    ensures r == Keep(lines, LeadingMmDd)
  {
    r := [];
    var i := 0;
    while i < |lines|
      invariant 0 <= i <= |lines|
      invariant r == Keep(lines[..i], LeadingMmDd)
    {
      KeepStep(lines, i, LeadingMmDd);
      if LeadingMmDd(lines[i]) {
        r := r + [lines[i]];
      }
      i := i + 1;
    }
    assert lines[..i] == lines;
  }

  /**
   * One transaction line, split into words: at least three words; the
   * first is the posting date; a second `mm/dd` word is the transaction
   * date; the last word is the amount, negated; the words in between are
   * the description.
   */
  function ParseWords(ws: seq<string>, start: int, end: int, env: Env): (r: Result<Txn>)
    ensures |ws| < 3 ==> r == Err(ValueError)
    ensures r.Ok? ==> && |ws| >= 3
                      && AbsoluteDate(env, ws[0], start, end) == Ok(r.value.postingDate)
                      && r.value.transactionDate.Some?
                      && (HasMmDd(ws[1]) ==> AbsoluteDate(env, ws[1], start, end) == Ok(r.value.transactionDate.value))
                      && (!HasMmDd(ws[1]) ==> r.value.transactionDate.value == r.value.postingDate)
                      && env.amount(ws[|ws| - 1]) == Some(-r.value.amount)
                      && r.value.balance == Omitted
                      && r.value.desc != []
  {
    if |ws| < 3 then Err(ValueError)
    else
      match AbsoluteDate(env, ws[0], start, end)
      case Err(e) => Err(e)
      case Ok(posting) =>
        var second := if HasMmDd(ws[1]) then AbsoluteDate(env, ws[1], start, end) else Ok(posting);
        var rest := if HasMmDd(ws[1]) then ws[2..] else ws[1..];
        match second
        case Err(e) => Err(e)
        case Ok(transaction) =>
          match Negated(env, rest[|rest| - 1])
          case Err(_) => Err(ValueError)
          case Ok(amount) =>
            var desc := JoinSpace(rest[..|rest| - 1]);
            if desc == [] then Err(ValueError)
            else Ok(Txn(posting, Some(transaction), amount, Omitted, desc))
  }

  /**
   * The description is the words between the dates and the amount; a line
   * that has none, a date, a second date and an amount, raises ValueError.
   */
  lemma DescriptionMeaning(ws: seq<string>, start: int, end: int, env: Env)
    requires |ws| >= 3
    ensures var r := ParseWords(ws, start, end, env);
            var k := if HasMmDd(ws[1]) then 2 else 1;
            && (r.Ok? ==> r.value.desc == JoinSpace(ws[k..|ws| - 1]))
            && (HasMmDd(ws[1]) && |ws| == 3 ==> r.Err? && r.error == ValueError)
  {
    var k := if HasMmDd(ws[1]) then 2 else 1;
    var rest := ws[k..];
    assert rest[..|rest| - 1] == ws[k..|ws| - 1];
    assert rest[|rest| - 1] == ws[|ws| - 1];
  }

  /** `parse_transaction_lines` on one line. */
  function ParseLine(line: string, start: int, end: int, env: Env): Result<Txn> {
    ParseWords(Words(line), start, end, env)
  }

  function LineParser(start: int, end: int, env: Env): string -> Result<Txn> {
    line => ParseLine(line, start, end, env)
  }

  /** `parse_transaction_lines(transaction_lines)`: one transaction per line, in order, or the first line's error. */
  method ParseTransactionLines(xs: seq<string>, start: int, end: int, env: Env) returns (r: Result<seq<Txn>>)
    ensures r == Traverse(xs, LineParser(start, end, env))
    ensures r.Ok? ==> |r.value| == |xs| && forall k :: 0 <= k < |xs| ==> ParseLine(xs[k], start, end, env) == Ok(r.value[k])
  {
    r := TraverseAll(xs, LineParser(start, end, env));
  }

  /**
   * `get_statement_balances()`: the two balances, each read by its own
   * lookup; a lookup's IndexError escapes at once, and any other failure
   * leaves that balance missing, which raises ValueError after both.
   */
  function BothBalances(previous: Result<int>, current: Result<int>): (r: Result<(int, int)>)
    ensures r.Ok? <==> previous.Ok? && current.Ok?
    ensures r.Ok? ==> r.value == (previous.value, current.value)
    ensures previous == Err(IndexError) ==> r == Err(IndexError)
    ensures previous != Err(IndexError) && current != Err(IndexError) && r.Err? ==> r.error == ValueError
  {
    if previous == Err(IndexError) then Err(IndexError)
    else if current == Err(IndexError) then Err(IndexError)
    else if previous.Err? || current.Err? then Err(ValueError)
    else Ok((previous.value, current.value))
  }
}
