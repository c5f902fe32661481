/**
 * The Citi card parser of src/parsers/citi.py: records start on lines
 * beginning `mm/dd `, a record without an amount is continued on the lines
 * after it, and each record becomes a row whose balance runs on from the
 * previous balance.
 */
module ParsersCiti {
  import opened Wrappers
  import opened Text
  import opened Lines
  import opened Helpers
  import opened Ledger

  // ---------------------------------------------------------------------
  // Transaction lines
  // ---------------------------------------------------------------------

  /** The indices of the lines that start a record (`^\d{2}/\d{2}\s`), in increasing order. */
  function TransactionIndices(lines: seq<string>): (idx: seq<nat>)
    ensures forall j :: 0 <= j < |idx| ==> idx[j] < |lines|
  {
    Where(lines, LeadingMmDd)
  }

  /**
   * The lookahead loop from step `k`, where `line` holds the record read so
   * far from the lines `i` to `i + k - 1`: stop at the next record, when the
   * record has an amount and the next line has none, or at a foreign fee;
   * raise once five lines have been read.
   */
  function Lookahead(lines: seq<string>, idx: seq<nat>, i: nat, line: string, k: nat): Result<string>
    decreases 6 - k
  {
    if k > 5 then Err(ValueError)
    else if i + k in idx then Ok(line)
    else if i + k >= |lines| then Err(IndexError)
    else
      var next := lines[i + k];
      if '$' in line && '$' !in next then Ok(line)
      else if Contains(line, "Foreign Fee") then Ok(line)
      else Lookahead(lines, idx, i, line + " " + next, k + 1)
  }

  /** The text of the record starting at line `i`; the last record and a line with an amount stand alone. */
  function Assemble(lines: seq<string>, idx: seq<nat>, i: nat): Result<string> {
    if i >= |lines| || idx == [] then Err(IndexError)
    else if i == idx[|idx| - 1] || '$' in lines[i] then Ok(lines[i])
    else Lookahead(lines, idx, i, lines[i], 1)
  }

  function Assembler(lines: seq<string>, idx: seq<nat>): nat -> Result<string> {
    (i: nat) => Assemble(lines, idx, i)
  }

  /** What `get_transaction_lines(lines)` gives: one assembled record per record start, in order. */
  function TransactionLines(lines: seq<string>): Result<seq<string>> {
    var idx := TransactionIndices(lines);
    Traverse(idx, Assembler(lines, idx))
  }

  /**
   * A lookahead that began at a record with a later record at `next`
   * returns the lines `i` to `i + m - 1` joined by spaces, for some `m` of
   * at most five that stops at or before `next`; it raises only ValueError,
   * and only when `next` lies more than five lines ahead.
   */
  lemma {:induction false} LookaheadShape(lines: seq<string>, idx: seq<nat>, i: nat, line: string, k: nat, next: nat)
    requires 1 <= k <= 6 && i + k <= |lines|
    requires i < next < |lines| && next in idx
    requires line == Joined(lines, i, k)
    requires forall t :: i < t < i + k ==> t !in idx
    ensures var r := Lookahead(lines, idx, i, line, k);
            && (r.Ok? ==> exists m :: k <= m <= 5 && i + m <= next && r.value == Joined(lines, i, m))
            && (r.Err? ==> r.error == ValueError && next > i + 5)
    decreases 6 - k
  {
    if k <= 5 && i + k !in idx {
      assert i + k < next;
      var next' := lines[i + k];
      if !('$' in line && '$' !in next') && !Contains(line, "Foreign Fee") {
        JoinedNext(lines, i, k);
        LookaheadShape(lines, idx, i, line + " " + next', k + 1, next);
      }
    }
  }

  /**
   * Each record is its first line joined with at most four continuation
   * lines, none of which starts a record; the last record and a first line
   * holding `$` are kept unchanged; and assembling raises only ValueError,
   * when the next record starts more than five lines later.
   */
  lemma AssembleMeaning(lines: seq<string>, j: nat)
    requires j < |TransactionIndices(lines)|
    ensures var idx := TransactionIndices(lines);
            var i := idx[j];
            var r := Assemble(lines, idx, i);
            && (j == |idx| - 1 || '$' in lines[i] ==> r == Ok(lines[i]))
            && (r.Ok? ==> exists m :: 1 <= m <= 5 && i + m <= |lines| && r.value == Joined(lines, i, m)
                                      && (j + 1 < |idx| ==> i + m <= idx[j + 1]))
            && (r.Err? ==> r.error == ValueError && j + 1 < |idx| && idx[j + 1] > i + 5)
  {
    var idx := TransactionIndices(lines);
    WhereMeaning(lines, LeadingMmDd);
    var i := idx[j];
    assert Joined(lines, i, 1) == lines[i];
    if j < |idx| - 1 && '$' !in lines[i] {
      NoneBetween(idx, j);
      LookaheadShape(lines, idx, i, lines[i], 1, idx[j + 1]);
      assert i != idx[|idx| - 1];
    } else {
      assert Assemble(lines, idx, i) == Ok(Joined(lines, i, 1));
    }
  }

  /** `get_transaction_lines(lines)`. */
  method GetTransactionLines(lines: seq<string>) returns (r: Result<seq<string>>)
    ensures r == TransactionLines(lines)
    ensures r.Ok? ==> |r.value| == |TransactionIndices(lines)|
  {
    var idx := TransactionIndices(lines);
    ghost var f := Assembler(lines, idx);
    var transactionLines: seq<string> := [];
    var j := 0;
    while j < |idx|
      invariant 0 <= j <= |idx|
      invariant Traverse(idx[..j], f) == Ok(transactionLines)
    {
      assert idx[j] in idx;
      var line := AssembleRecord(lines, idx, idx[j]);
      if line.Err? {
        TraverseFails(idx, j, f, transactionLines);
        return Err(line.error);
      }
      TraverseNext(idx, j, f, transactionLines);
      transactionLines := transactionLines + [line.value];
      j := j + 1;
    }
    assert idx[..j] == idx;
    r := Ok(transactionLines);
  }

  /** The body of the loop of `get_transaction_lines` for the record starting at line `i`. */
  method AssembleRecord(lines: seq<string>, idx: seq<nat>, i: nat) returns (r: Result<string>)
    requires i < |lines| && i in idx
    ensures r == Assemble(lines, idx, i)
  {
    var line := lines[i];
    if i == idx[|idx| - 1] || '$' in line {
      return Ok(line);
    }
    var k := 1;
    while true
      invariant 1 <= k <= 6
      invariant Lookahead(lines, idx, i, line, k) == Assemble(lines, idx, i)
      decreases 6 - k
    {
      if k > 5 {
        return Err(ValueError);
      }
      if i + k in idx {
        break;
      }
      if i + k >= |lines| {
        return Err(IndexError);
      }
      var nextLine := lines[i + k];
      if '$' in line && '$' !in nextLine {
        break;
      }
      if Contains(line, "Foreign Fee") {
        break;
      }
      line := line + " " + nextLine;
      k := k + 1;
    }
    r := Ok(line);
  }

  // ---------------------------------------------------------------------
  // Transactions
  // ---------------------------------------------------------------------

  /** The words after the date: a second `mm/dd` token right after it is dropped. */
  function AfterDates(ws: seq<string>): seq<string>
    requires |ws| >= 2
  {
    if HasMmDd(ws[1]) then ws[2..] else ws[1..]
  }

  /** The index of the last word holding `$`. */
  function LastDollar(ws: seq<string>): (r: Option<nat>)
    ensures r.Some? ==> r.value < |ws|
  {
    if ws == [] then None
    else if '$' in ws[|ws| - 1] then Some(|ws| - 1)
    else LastDollar(ws[..|ws| - 1])
  }

  /**
   * One record of `parse_transactions`, from the words of its line: the
   * date placed in the statement period, the amount of the last `$` word
   * negated, and the words before that word (after the dates) as the
   * description.
   */
  function ParseWords(ws: seq<string>, env: Env, start: int, end: int): (r: Result<Posting>)
    ensures ws == [] ==> r == Err(IndexError)
    ensures r.Ok? ==> && |ws| >= 2 && Some(r.value.date) == env.absoluteDate(ws[0], start, end)
                      && var rest := AfterDates(ws);
                         LastDollar(rest).Some?
                         && Some(-r.value.amount) == env.amount(rest[LastDollar(rest).value])
                         && r.value.desc == JoinSpace(rest[..LastDollar(rest).value])
  {
    if ws == [] then Err(IndexError)
    else
      var date := AbsoluteDate(env, ws[0], start, end);
      if date.Err? then Err(date.error)
      else if |ws| < 2 then Err(IndexError)
      else
        var rest := AfterDates(ws);
        match LastDollar(rest)
        case None => Err(IndexError)
        case Some(i) =>
          var amount := Negated(env, rest[i]);
          if amount.Err? then Err(amount.error)
          else Ok(Posting(date.value, amount.value, JoinSpace(rest[..i])))
  }

  /** The loop body of `parse_transactions` for one line. */
  function LineParser(env: Env, start: int, end: int): string -> Result<Posting> {
    line => ParseWords(Words(line), env, start, end)
  }

  /**
   * `parse_transactions(date_range, balance, transaction_lines)`: one row
   * per line, in order, each balance the previous one plus the row's
   * amount, from the starting balance.
   */
  method ParseTransactions(start: int, end: int, balance: int, transactionLines: seq<string>, env: Env)
    returns (r: Result<seq<Entry>>)
    ensures var ps := Traverse(transactionLines, LineParser(env, start, end));
            && (ps.Err? ==> r == Err(ps.error))
            && (ps.Ok? ==> r.Ok? && PostedFrom(balance, ps.value, r.value))
  {
    r := PostAll(balance, transactionLines, LineParser(env, start, end));
  }
}
