/**
 * The shared parsing helpers the institution parsers call but whose code is
 * outside this model (`convert_amount_to_float`, `get_absolute_date`,
 * `datetime.strptime`, regular-expression search), taken as parameters.
 * A helper answering `None` is one that raises ValueError.
 */
module Helpers {
  import opened Wrappers
  import opened Text
  import opened Dates

  datatype Env = Env(
    /** `convert_amount_to_float(s)`, in cents. */
    amount: string -> Option<int>,
    /** `get_absolute_date(mmdd, start, end)`: the day in `start..end` that `mmdd` names, as an ordinal. */
    absoluteDate: (string, int, int) -> Option<int>,
    /** `datetime.strptime(s, fmt)`. */
    strptime: (string, string) -> Option<Ymd>,
    /** `re.search(pattern, line)`: the matched text. */
    search: (string, string) -> Option<string>)

  /** `convert_amount_to_float(s)`; ValueError when the text is no amount. */
  function Amount(env: Env, s: string): (r: Result<int>)
    ensures r.Ok? <==> env.amount(s).Some?
    ensures r.Err? ==> r.error == ValueError
  {
    match env.amount(s)
    case Some(c) => Ok(c)
    case None => Err(ValueError)
  }

  /** `-convert_amount_to_float(s)`: the sign convention of card and loan balances. */
  function Negated(env: Env, s: string): (r: Result<int>)
    ensures r.Ok? <==> env.amount(s).Some?
    ensures r.Ok? ==> r.value == -env.amount(s).value
    ensures r.Err? ==> r.error == ValueError
  {
    match env.amount(s)
    case Some(c) => Ok(-c)
    case None => Err(ValueError)
  }

  /** `get_absolute_date(mmdd, start, end)`; ValueError when it cannot place the day. */
  function AbsoluteDate(env: Env, mmdd: string, start: int, end: int): (r: Result<int>)
    ensures r.Ok? <==> env.absoluteDate(mmdd, start, end).Some?
    ensures r.Err? ==> r.error == ValueError
  {
    match env.absoluteDate(mmdd, start, end)
    case Some(d) => Ok(d)
    case None => Err(ValueError)
  }

  /** `datetime.strptime(s, fmt)` as a day ordinal; ValueError when the text is no valid date. */
  function Strptime(env: Env, s: string, fmt: string): (r: Result<int>)
    ensures r.Ok? <==> env.strptime(s, fmt).Some? && Valid(env.strptime(s, fmt).value)
    ensures r.Err? ==> r.error == ValueError
  {
    match env.strptime(s, fmt)
    case Some(d) => if Valid(d) then Ok(Ordinal(d)) else Err(ValueError)
    case None => Err(ValueError)
  }

  /** `datetime.strptime(s, fmt)` as a calendar date. */
  function StrptimeYmd(env: Env, s: string, fmt: string): (r: Result<Ymd>)
    ensures r.Ok? ==> Valid(r.value) && Some(r.value) == env.strptime(s, fmt)
    ensures r.Err? ==> r.error == ValueError
  {
    match env.strptime(s, fmt)
    case Some(d) => if Valid(d) then Ok(d) else Err(ValueError)
    case None => Err(ValueError)
  }

  /**
   * `find_regex_in_line(lines, pattern)`: the text matched in the first line
   * where the pattern occurs; ValueError when no line has it.
   */
  function FindRegex(env: Env, lines: seq<string>, pattern: string): (r: Result<string>)
    ensures r.Ok? <==> exists i :: 0 <= i < |lines| && env.search(pattern, lines[i]).Some?
    ensures r.Ok? ==> exists i :: 0 <= i < |lines| && env.search(pattern, lines[i]) == Some(r.value)
                                   && forall j :: 0 <= j < i ==> env.search(pattern, lines[j]).None?
    ensures r.Err? ==> r.error == ValueError
  {
    if lines == [] then Err(ValueError)
    else match env.search(pattern, lines[0])
      case Some(m) => Ok(m)
      case None =>
        var r := FindRegex(env, lines[1..], pattern);
        assert forall i :: 1 <= i < |lines| ==> lines[i] == lines[1..][i - 1];
        if r.Ok? then
          var k :| 0 <= k < |lines[1..]| && env.search(pattern, lines[1..][k]) == Some(r.value)
                   && forall j :: 0 <= j < k ==> env.search(pattern, lines[1..][j]).None?;
          assert env.search(pattern, lines[k + 1]) == Some(r.value);
          r
        else r
  }

  /**
   * `find_line_re_search(lines, pattern, start)`: the index of the first
   * line from `start` on where the pattern is found; ValueError when none is.
   */
  function FindSearch(env: Env, lines: seq<string>, pattern: string, start: nat): (r: Result<nat>)
    decreases |lines| - start
    ensures r.Ok? ==> start <= r.value < |lines| && env.search(pattern, lines[r.value]).Some?
    ensures r.Ok? ==> forall j :: start <= j < r.value ==> env.search(pattern, lines[j]).None?
    ensures r.Err? <==> forall j :: start <= j < |lines| ==> env.search(pattern, lines[j]).None?
    ensures r.Err? ==> r.error == ValueError
  {
    if start >= |lines| then Err(ValueError)
    else if env.search(pattern, lines[start]).Some? then Ok(start)
    else FindSearch(env, lines, pattern, start + 1)
  }
}
