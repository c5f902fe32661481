/**
 * What the parsers build: records of (date, amount, balance, description)
 * with amounts in cents, the running balance several parsers keep, and the
 * per-line loop that turns each input line into a record and stops at the
 * first line that raises.
 */
module Ledger {
  import opened Wrappers

  /** A parsed transaction row `(date, amount, balance, description)` of the older parsers. */
  datatype Entry = Entry(date: int, amount: int, balance: int, desc: string)

  function Sum(xs: seq<int>): int {
    if xs == [] then 0 else Sum(xs[..|xs| - 1]) + xs[|xs| - 1]
  }

  function Amounts(es: seq<Entry>): (xs: seq<int>)
    ensures |xs| == |es| && forall i :: 0 <= i < |es| ==> xs[i] == es[i].amount
  {
    seq(|es|, i requires 0 <= i < |es| => es[i].amount)
  }

  /** Each balance is the one before it (`start` for the first) plus its own amount. */
  predicate Running(start: int, es: seq<Entry>) {
    forall i {:trigger Before(start, es, i)} :: 0 <= i < |es| ==> es[i].balance == Before(start, es, i) + es[i].amount
  }

  /** The balance before row `i`. */
  function Before(start: int, es: seq<Entry>, i: int): int
    requires 0 <= i < |es|
  {
    if i == 0 then start else es[i - 1].balance
  }

  lemma RunningPrefix(start: int, es: seq<Entry>, n: nat)
    requires Running(start, es) && n <= |es|
    ensures Running(start, es[..n])
  {
    forall i | 0 <= i < n
      ensures es[..n][i].balance == Before(start, es[..n], i) + es[..n][i].amount
    {
      assert es[i].balance == Before(start, es, i) + es[i].amount;
    }
  }

  /** The last running balance is the start plus all the amounts. */
  lemma {:induction false} RunningLast(start: int, es: seq<Entry>)
    requires Running(start, es) && es != []
    ensures es[|es| - 1].balance == start + Sum(Amounts(es))
  {
    var p := es[..|es| - 1];
    var xs := Amounts(es);
    assert xs[..|xs| - 1] == Amounts(p);
    assert es[|es| - 1].balance == Before(start, es, |es| - 1) + es[|es| - 1].amount;
    if p != [] {
      RunningPrefix(start, es, |es| - 1);
      RunningLast(start, p);
    }
  }

  /** A running balance is the start plus the amounts up to and including its row. */
  lemma RunningIsSum(start: int, es: seq<Entry>)
    requires Running(start, es)
    ensures forall i :: 0 <= i < |es| ==> es[i].balance == start + Sum(Amounts(es[..i + 1]))
  {
    forall i | 0 <= i < |es|
      ensures es[i].balance == start + Sum(Amounts(es[..i + 1]))
    {
      RunningPrefix(start, es, i + 1);
      RunningLast(start, es[..i + 1]);
    }
  }

  /** A parsed row before its running balance is known. */
  datatype Posting = Posting(date: int, amount: int, desc: string)

  /** The balance after the rows `es`: the last row's balance, or `start` when there is none. */
  function Closing(start: int, es: seq<Entry>): int {
    if es == [] then start else es[|es| - 1].balance
  }

  /**
   * `es` is `ps` with a running balance from `start`: row for row the same
   * date, amount and description, each balance the one before plus the
   * row's amount.
   */
  predicate PostedFrom(start: int, ps: seq<Posting>, es: seq<Entry>) {
    && |es| == |ps| && Running(start, es)
    && forall i :: 0 <= i < |ps| ==>
         es[i].date == ps[i].date && es[i].amount == ps[i].amount && es[i].desc == ps[i].desc
  }

  /** The step of a running-balance loop: the new row carries the balance so far plus its amount. */
  lemma PostedNext(start: int, ps: seq<Posting>, es: seq<Entry>, p: Posting)
    requires PostedFrom(start, ps, es)
    ensures PostedFrom(start, ps + [p], es + [Entry(p.date, p.amount, Closing(start, es) + p.amount, p.desc)])
  {
    var es' := es + [Entry(p.date, p.amount, Closing(start, es) + p.amount, p.desc)];
    assert forall i :: 0 <= i < |es| ==> Before(start, es', i) == Before(start, es, i);
  }

  /** The postings `ps` with their running balance from `start`. */
  function Posted(start: int, ps: seq<Posting>): (es: seq<Entry>)
    ensures PostedFrom(start, ps, es)
  {
    if ps == [] then []
    else
      var init := ps[..|ps| - 1];
      var last := ps[|ps| - 1];
      var es := Posted(start, init);
      PostedNext(start, init, es, last);
      assert init + [last] == ps;
      es + [Entry(last.date, last.amount, Closing(start, es) + last.amount, last.desc)]
  }

  /**
   * The loop of a parser that keeps a running balance: each element becomes
   * a row, its amount is added to the balance and the row is recorded with
   * the new balance; the first element that raises stops the loop.
   */
  method PostAll<A>(start: int, xs: seq<A>, f: A -> Result<Posting>) returns (r: Result<seq<Entry>>)
    ensures var ps := Traverse(xs, f);
            && (ps.Err? ==> r == Err(ps.error))
            && (ps.Ok? ==> r.Ok? && PostedFrom(start, ps.value, r.value))
  {
    ghost var ps: seq<Posting> := [];
    var balance := start;
    var es: seq<Entry> := [];
    var i := 0;
    while i < |xs|
      invariant 0 <= i <= |xs|
      invariant Traverse(xs[..i], f) == Ok(ps)
      invariant PostedFrom(start, ps, es) && balance == Closing(start, es)
    {
      var p := f(xs[i]);
      if p.Err? {
        TraverseFails(xs, i, f, ps);
        return Err(p.error);
      }
      TraverseNext(xs, i, f, ps);
      PostedNext(start, ps, es, p.value);
      ps := ps + [p.value];
      balance := balance + p.value.amount;
      es := es + [Entry(p.value.date, p.value.amount, balance, p.value.desc)];
      i := i + 1;
    }
    assert xs[..i] == xs;
    r := Ok(es);
  }

  /** The closing balance of a running-balance loop is the start plus every amount. */
  lemma ClosingIsSum(start: int, ps: seq<Posting>, es: seq<Entry>)
    requires PostedFrom(start, ps, es)
    ensures Closing(start, es) == start + Sum(Amounts(es))
  {
    if es != [] {
      RunningLast(start, es);
    }
  }

  /** The postings fix the rows: the running balances are determined by the start. */
  lemma {:induction false} PostedUnique(start: int, ps: seq<Posting>, es: seq<Entry>, es': seq<Entry>)
    requires PostedFrom(start, ps, es) && PostedFrom(start, ps, es')
    ensures es == es'
  {
    forall i | 0 <= i < |es|
      ensures es[i] == es'[i]
    {
      RunningIsSum(start, es);
      RunningIsSum(start, es');
      assert Amounts(es[..i + 1]) == Amounts(es'[..i + 1]);
    }
  }

  /** What an older parser's `parse(lines)` returns: the period and one account's rows under its number. */
  datatype Parsed = Parsed(startDate: int, endDate: int, account: string, transactions: seq<Entry>)

  /** The rows of a statement summary: one per named figure that is not zero, in order, all dated `date`. */
  function NonzeroPostings(items: seq<(string, int)>, date: int): seq<Posting> {
    if items == [] then []
    else
      var ps := NonzeroPostings(items[..|items| - 1], date);
      var (desc, amount) := items[|items| - 1];
      if amount == 0 then ps else ps + [Posting(date, amount, desc)]
  }

  lemma NonzeroStep(items: seq<(string, int)>, i: nat, date: int)
    requires i < |items|
    ensures NonzeroPostings(items[..i + 1], date)
            == NonzeroPostings(items[..i], date)
               + (if items[i].1 == 0 then [] else [Posting(date, items[i].1, items[i].0)])
  {
    assert items[..i + 1][..i] == items[..i];
  }

  /**
   * Every row is dated `date`, carries a figure that is not zero under its
   * name, and every figure that is not zero has its row: the zero figures
   * are exactly the ones skipped.
   */
  lemma {:induction false} NonzeroMeaning(items: seq<(string, int)>, date: int)
    ensures forall p :: p in NonzeroPostings(items, date) ==>
              p.date == date && p.amount != 0 && (p.desc, p.amount) in items
    ensures forall k :: 0 <= k < |items| && items[k].1 != 0 ==>
              Posting(date, items[k].1, items[k].0) in NonzeroPostings(items, date)
  {
    if items != [] {
      var n := |items| - 1;
      var q := items[..n];
      NonzeroMeaning(q, date);
      var qs := NonzeroPostings(q, date);
      var tail: seq<Posting> := if items[n].1 == 0 then [] else [Posting(date, items[n].1, items[n].0)];
      assert NonzeroPostings(items, date) == qs + tail;
      forall k | 0 <= k < |items| && items[k].1 != 0
        ensures Posting(date, items[k].1, items[k].0) in qs + tail
      {
        if k < n {
          assert items[k] == q[k];
        }
      }
      forall p | p in qs + tail
        ensures p.date == date && p.amount != 0 && (p.desc, p.amount) in items
      {
        if p in qs {
          var j :| 0 <= j < |q| && q[j] == (p.desc, p.amount);
          assert items[j] == q[j];
        }
      }
    }
  }

  /** One row of the summary loop: a zero amount posts nothing, any other amount posts one entry. */
  lemma NonzeroNext(start: int, date: int, items: seq<(string, int)>, i: nat, ps: seq<Posting>, es: seq<Entry>)
    requires i < |items| && ps == NonzeroPostings(items[..i], date) && PostedFrom(start, ps, es)
    ensures items[i].1 == 0 ==> NonzeroPostings(items[..i + 1], date) == ps
    ensures items[i].1 != 0 ==>
              var p := Posting(date, items[i].1, items[i].0);
              && NonzeroPostings(items[..i + 1], date) == ps + [p]
              && PostedFrom(start, ps + [p], es + [Entry(date, items[i].1, Closing(start, es) + items[i].1, items[i].0)])
  {
    NonzeroStep(items, i, date);
    if items[i].1 == 0 {
      assert ps + [] == ps;
    } else {
      PostedNext(start, ps, es, Posting(date, items[i].1, items[i].0));
    }
  }

  /**
   * The rows posted from a summary: each is one of its non-zero figures,
   * under the figure's name and on `date`, and the last balance is the
   * start plus all the amounts.
   */
  lemma NonzeroRows(start: int, items: seq<(string, int)>, date: int, es: seq<Entry>)
    requires PostedFrom(start, NonzeroPostings(items, date), es)
    ensures forall k :: 0 <= k < |es| ==>
              es[k].date == date && es[k].amount != 0 && (es[k].desc, es[k].amount) in items
    ensures Closing(start, es) == start + Sum(Amounts(es))
  {
    var ps := NonzeroPostings(items, date);
    NonzeroMeaning(items, date);
    ClosingIsSum(start, ps, es);
    forall k | 0 <= k < |es|
      ensures es[k].date == date && es[k].amount != 0 && (es[k].desc, es[k].amount) in items
    {
      assert ps[k] in ps;
    }
  }

  /**
   * The loop over a summary's figures: a zero figure is skipped, any other
   * is added to the balance and recorded, under its name and on `date`,
   * with the new balance.
   */
  method PostNonzero(start: int, date: int, items: seq<(string, int)>) returns (es: seq<Entry>)
    ensures PostedFrom(start, NonzeroPostings(items, date), es)
  {
    ghost var ps: seq<Posting> := [];
    var balance := start;
    es := [];
    var i := 0;
    while i < |items|
      invariant 0 <= i <= |items|
      invariant ps == NonzeroPostings(items[..i], date)
      invariant PostedFrom(start, ps, es) && balance == Closing(start, es)
    {
      NonzeroNext(start, date, items, i, ps, es);
      if items[i].1 != 0 {
        ps := ps + [Posting(date, items[i].1, items[i].0)];
        balance := balance + items[i].1;
        es := es + [Entry(date, items[i].1, balance, items[i].0)];
      }
      i := i + 1;
    }
    assert items[..i] == items;
  }

  /**
   * `f` applied to each element in order, as a loop that appends each
   * result: the error of the first element that raises, else every result.
   */
  function Traverse<A, B>(xs: seq<A>, f: A -> Result<B>): (r: Result<seq<B>>)
    ensures r.Ok? ==> |r.value| == |xs|
  {
    if xs == [] then Ok([])
    else
      var p := Traverse(xs[..|xs| - 1], f);
      if p.Err? then p
      else match f(xs[|xs| - 1])
        case Ok(y) => Ok(p.value + [y])
        case Err(e) => Err(e)
  }

  /** One more iteration of the loop. */
  lemma TraverseStep<A, B>(xs: seq<A>, i: nat, f: A -> Result<B>)
    requires i < |xs|
    ensures Traverse(xs[..i + 1], f)
            == (var p := Traverse(xs[..i], f);
                if p.Err? then p
                else match f(xs[i])
                  case Ok(y) => Ok(p.value + [y])
                  case Err(e) => Err(e))
  {
    assert xs[..i + 1][..i] == xs[..i];
  }

  /** The loop itself: each element's result appended in order, stopping at the first that raises. */
  method TraverseAll<A, B>(xs: seq<A>, f: A -> Result<B>) returns (r: Result<seq<B>>)
    ensures r == Traverse(xs, f)
    ensures r.Ok? ==> |r.value| == |xs| && forall i :: 0 <= i < |xs| ==> f(xs[i]) == Ok(r.value[i])
  {
    var done: seq<B> := [];
    var i := 0;
    while i < |xs|
      invariant 0 <= i <= |xs|
      invariant Traverse(xs[..i], f) == Ok(done)
    {
      var y := f(xs[i]);
      if y.Err? {
        TraverseFails(xs, i, f, done);
        return Err(y.error);
      }
      TraverseNext(xs, i, f, done);
      done := done + [y.value];
      i := i + 1;
    }
    assert xs[..i] == xs;
    r := Ok(done);
    TraverseOk(xs, f);
  }

  /** The loop's step for an element that succeeds. */
  lemma TraverseNext<A, B>(xs: seq<A>, i: nat, f: A -> Result<B>, done: seq<B>)
    requires i < |xs| && Traverse(xs[..i], f) == Ok(done) && f(xs[i]).Ok?
    ensures Traverse(xs[..i + 1], f) == Ok(done + [f(xs[i]).value])
  {
    TraverseStep(xs, i, f);
  }

  /** The loop's step for an element that raises: the whole loop raises its error. */
  lemma TraverseFails<A, B>(xs: seq<A>, i: nat, f: A -> Result<B>, done: seq<B>)
    requires i < |xs| && Traverse(xs[..i], f) == Ok(done) && f(xs[i]).Err?
    ensures Traverse(xs, f) == Err(f(xs[i]).error)
  {
    TraverseStep(xs, i, f);
    TraverseStopped(xs, i + 1, f);
  }

  /** The loop succeeds iff every element does, and then its i-th result is that of the i-th element. */
  lemma {:induction false} TraverseOk<A, B>(xs: seq<A>, f: A -> Result<B>)
    ensures Traverse(xs, f).Ok? <==> forall i :: 0 <= i < |xs| ==> f(xs[i]).Ok?
    ensures Traverse(xs, f).Ok? ==> forall i :: 0 <= i < |xs| ==> Traverse(xs, f).value[i] == f(xs[i]).value
  {
    if xs != [] {
      var p := xs[..|xs| - 1];
      TraverseOk(p, f);
      assert forall i :: 0 <= i < |p| ==> p[i] == xs[i];
    }
  }

  /** A failing loop raises the error of its first failing element. */
  lemma {:induction false} TraverseErr<A, B>(xs: seq<A>, f: A -> Result<B>)
    requires Traverse(xs, f).Err?
    ensures exists k :: 0 <= k < |xs| && f(xs[k]).Err? && Traverse(xs, f).error == f(xs[k]).error
                        && forall j :: 0 <= j < k ==> f(xs[j]).Ok?
  {
    var p := xs[..|xs| - 1];
    assert forall i :: 0 <= i < |p| ==> p[i] == xs[i];
    if Traverse(p, f).Err? {
      TraverseErr(p, f);
      var k :| 0 <= k < |p| && f(p[k]).Err? && Traverse(p, f).error == f(p[k]).error
               && forall j :: 0 <= j < k ==> f(p[j]).Ok?;
      assert f(xs[k]).Err?;
    } else {
      TraverseOk(p, f);
      assert f(xs[|xs| - 1]).Err?;
    }
  }

  /** Loops over a concatenation: the loop over the first part, then over the second. */
  lemma {:induction false} TraverseAppend<A, B>(xs: seq<A>, ys: seq<A>, f: A -> Result<B>)
    requires Traverse(xs, f).Ok?
    ensures Traverse(xs + ys, f)
            == (var q := Traverse(ys, f); if q.Err? then Err(q.error) else Ok(Traverse(xs, f).value + q.value))
    decreases |ys|
  {
    if ys == [] {
      assert xs + ys == xs;
      assert Traverse(xs, f).value + [] == Traverse(xs, f).value;
    } else {
      var ys' := ys[..|ys| - 1];
      assert (xs + ys)[..|xs + ys| - 1] == xs + ys';
      assert (xs + ys)[|xs + ys| - 1] == ys[|ys| - 1];
      assert ys[..|ys| - 1] == ys';
      TraverseAppend(xs, ys', f);
      var q' := Traverse(ys', f);
      if q'.Ok? && f(ys[|ys| - 1]).Ok? {
        assert Traverse(xs, f).value + q'.value + [f(ys[|ys| - 1]).value]
               == Traverse(xs, f).value + (q'.value + [f(ys[|ys| - 1]).value]);
      }
    }
  }

  /**
   * `f` applied to each element in order, as a loop that extends one list
   * with each result: the error of the first element that raises, else the
   * results concatenated.
   */
  function Concat<A, B>(xs: seq<A>, f: A -> Result<seq<B>>): Result<seq<B>> {
    if xs == [] then Ok([])
    else
      var p := Concat(xs[..|xs| - 1], f);
      if p.Err? then p
      else match f(xs[|xs| - 1])
        case Ok(ys) => Ok(p.value + ys)
        case Err(e) => Err(e)
  }

  lemma ConcatStep<A, B>(xs: seq<A>, i: nat, f: A -> Result<seq<B>>)
    requires i < |xs|
    ensures Concat(xs[..i + 1], f)
            == (var p := Concat(xs[..i], f);
                if p.Err? then p
                else match f(xs[i])
                  case Ok(ys) => Ok(p.value + ys)
                  case Err(e) => Err(e))
  {
    assert xs[..i + 1][..i] == xs[..i];
  }

  /** Once the loop over a prefix has raised, the loop over the whole list raises the same. */
  lemma {:induction false} TraverseStopped<A, B>(xs: seq<A>, n: nat, f: A -> Result<B>)
    requires n <= |xs| && Traverse(xs[..n], f).Err?
    ensures Traverse(xs, f) == Traverse(xs[..n], f)
    decreases |xs| - n
  {
    if n < |xs| {
      TraverseStep(xs, n, f);
      TraverseStopped(xs, n + 1, f);
    } else {
      assert xs[..n] == xs;
    }
  }

  /** Once the loop over a prefix has raised, the loop over the whole list raises the same. */
  lemma {:induction false} ConcatStopped<A, B>(xs: seq<A>, n: nat, f: A -> Result<seq<B>>)
    requires n <= |xs| && Concat(xs[..n], f).Err?
    ensures Concat(xs, f) == Concat(xs[..n], f)
    decreases |xs| - n
  {
    if n < |xs| {
      ConcatStep(xs, n, f);
      ConcatStopped(xs, n + 1, f);
    } else {
      assert xs[..n] == xs;
    }
  }

  /** The loop that extends a list with each element's results and stops at the first error. */
  method ConcatAll<A, B>(xs: seq<A>, f: A -> Result<seq<B>>) returns (r: Result<seq<B>>)
    ensures r == Concat(xs, f)
  {
    var done: seq<B> := [];
    var i := 0;
    while i < |xs|
      invariant 0 <= i <= |xs|
      invariant Concat(xs[..i], f) == Ok(done)
    {
      ConcatStep(xs, i, f);
      var ys := f(xs[i]);
      if ys.Err? {
        ConcatStopped(xs, i + 1, f);
        return Err(ys.error);
      }
      done := done + ys.value;
      i := i + 1;
    }
    assert xs[..i] == xs;
    r := Ok(done);
  }

  /** The results found so far in front of what the rest of the loop gives. */
  function Prepend<T>(done: seq<T>, rest: Result<seq<T>>): Result<seq<T>> {
    if rest.Err? then rest else Ok(done + rest.value)
  }

  lemma PrependNothing<T>(rest: Result<seq<T>>)
    ensures Prepend([], rest) == rest
  {
    if rest.Ok? {
      assert [] + rest.value == rest.value;
    }
  }

  lemma PrependTwice<T>(a: seq<T>, b: seq<T>, rest: Result<seq<T>>)
    ensures Prepend(a, Prepend(b, rest)) == Prepend(a + b, rest)
  {
    if rest.Ok? {
      assert a + (b + rest.value) == (a + b) + rest.value;
    }
  }
}
