/**
 * The line-search helpers the parsers call (`find_param_in_line`,
 * `find_line_startswith` from the shared utilities): the first line, at or
 * after a start index, that contains or starts with a pattern, and
 * ValueError when there is none.  The line itself is `lines[index]`.
 */
module Lines {
  import opened Wrappers
  import opened Text

  /** `find_param_in_line(lines, pattern, start)`. */
  function FindParam(lines: seq<string>, pattern: string, start: nat): (r: Result<nat>)
    decreases |lines| - start
    ensures r.Ok? ==> start <= r.value < |lines| && Contains(lines[r.value], pattern)
    ensures r.Ok? ==> forall j :: start <= j < r.value ==> !Contains(lines[j], pattern)
    ensures r.Err? <==> forall j :: start <= j < |lines| ==> !Contains(lines[j], pattern)
    ensures r.Err? ==> r.error == ValueError
  {
    if start >= |lines| then Err(ValueError)
    else if Contains(lines[start], pattern) then Ok(start)
    else FindParam(lines, pattern, start + 1)
  }

  /**
   * `find_param_in_line(lines, pattern, start, case_sensitive=False)`: the
   * first line whose lowercase form holds `lowered`, the pattern's own
   * lowercase form.
   */
  function FindParamCaseless(lines: seq<string>, lowered: string, start: nat): (r: Result<nat>)
    decreases |lines| - start
    ensures r.Ok? ==> start <= r.value < |lines| && Contains(Lower(lines[r.value]), lowered)
    ensures r.Ok? ==> forall j :: start <= j < r.value ==> !Contains(Lower(lines[j]), lowered)
    ensures r.Err? <==> forall j :: start <= j < |lines| ==> !Contains(Lower(lines[j]), lowered)
    ensures r.Err? ==> r.error == ValueError
  {
    if start >= |lines| then Err(ValueError)
    else if Contains(Lower(lines[start]), lowered) then Ok(start)
    else FindParamCaseless(lines, lowered, start + 1)
  }

  /** `find_line_startswith(lines, pattern, start)`. */
  function FindStartsWith(lines: seq<string>, pattern: string, start: nat): (r: Result<nat>)
    decreases |lines| - start
    ensures r.Ok? ==> start <= r.value < |lines| && StartsWith(lines[r.value], pattern)
    ensures r.Ok? ==> forall j :: start <= j < r.value ==> !StartsWith(lines[j], pattern)
    ensures r.Err? <==> forall j :: start <= j < |lines| ==> !StartsWith(lines[j], pattern)
    ensures r.Err? ==> r.error == ValueError
  {
    if start >= |lines| then Err(ValueError)
    else if StartsWith(lines[start], pattern) then Ok(start)
    else FindStartsWith(lines, pattern, start + 1)
  }

  /** The last word of a line, `line.split()[-1]`; IndexError on a blank line. */
  function LastWord(line: string): (r: Result<string>)
    ensures r.Ok? <==> Words(line) != []
    ensures r.Ok? ==> r.value == Words(line)[|Words(line)| - 1] && IsWord(r.value)
  {
    var ws := Words(line);
    WordsAreWords(line);
    if ws == [] then Err(IndexError) else Ok(ws[|ws| - 1])
  }

  /** `line.split(pattern)[-1].split()[0]`: the first word after the last `pattern` of a line; IndexError when there is none. */
  function WordAfter(line: string, pattern: string): (r: Result<string>)
    requires pattern != []
    ensures r.Err? <==> Words(AfterLast(line, pattern)) == []
    ensures r.Err? ==> r.error == IndexError
    ensures r.Ok? ==> r.value == Words(AfterLast(line, pattern))[0]
  {
    var ws := Words(AfterLast(line, pattern));
    if ws == [] then Err(IndexError) else Ok(ws[0])
  }

  /** The python list slice `xs[lo:hi]` for non-negative bounds: clamped, empty when `hi <= lo`. */
  function Slice<T>(xs: seq<T>, lo: nat, hi: nat): (r: seq<T>)
    ensures lo <= hi <= |xs| ==> r == xs[lo..hi]
    ensures hi <= lo || |xs| <= lo ==> r == []
  {
    var h := if hi <= |xs| then hi else |xs|;
    if lo >= h then [] else xs[lo..h]
  }

  /** A Python slice bound `i` on a sequence of length `n`: negative counts from the end, then clamped. */
  function Bound(i: int, n: nat): (b: nat)
    ensures b <= n
  {
    if i < 0 then (if n + i < 0 then 0 else n + i) else if i > n then n else i
  }

  /** The Python slice `xs[lo:hi]` for any integer bounds. */
  function PySlice<T>(xs: seq<T>, lo: int, hi: int): (r: seq<T>)
    ensures 0 <= lo <= hi <= |xs| ==> r == xs[lo..hi]
    ensures hi == -1 && 0 <= lo < |xs| ==> r == xs[lo..|xs| - 1]
    ensures |r| <= |xs|
  {
    var a := Bound(lo, |xs|);
    var b := Bound(hi, |xs|);
    if a < b then xs[a..b] else []
  }

  /** The lines `i` to `i + m - 1` joined by single spaces. */
  function Joined(lines: seq<string>, i: nat, m: nat): string
    requires i + m <= |lines|
  {
    JoinSpace(lines[i..i + m])
  }

  /** Joining one more line onto a run of lines. */
  lemma JoinedNext(lines: seq<string>, i: nat, m: nat)
    requires 1 <= m && i + m < |lines|
    ensures Joined(lines, i, m + 1) == Joined(lines, i, m) + " " + lines[i + m]
  {
    assert lines[i..i + m + 1] == lines[i..i + m] + [lines[i + m]];
    JoinSnoc(lines[i..i + m], lines[i + m], " ");
  }

  /** The index of the first element at or after `k` that satisfies `p`: a loop that breaks at the first match. */
  function FirstFrom<T>(xs: seq<T>, p: T -> bool, k: nat): (r: Option<nat>)
    decreases |xs| - k
    ensures r.Some? ==> k <= r.value < |xs| && p(xs[r.value]) && forall j :: k <= j < r.value ==> !p(xs[j])
    ensures r.None? ==> forall j :: k <= j < |xs| ==> !p(xs[j])
  {
    if k >= |xs| then None
    else if p(xs[k]) then Some(k)
    else FirstFrom(xs, p, k + 1)
  }

  function First<T>(xs: seq<T>, p: T -> bool): Option<nat> {
    FirstFrom(xs, p, 0)
  }

  /** `[i for i, x in enumerate(xs) if p(x)]`: the indices of the elements that satisfy `p`, in increasing order. */
  function Where<T>(xs: seq<T>, p: T -> bool): (idx: seq<nat>)
    ensures forall j :: 0 <= j < |idx| ==> idx[j] < |xs|
  {
    if xs == [] then []
    else
      var idx := Where(xs[..|xs| - 1], p);
      if p(xs[|xs| - 1]) then idx + [|xs| - 1] else idx
  }

  /** The indices `Where` gives are exactly those of the elements satisfying `p`, increasing. */
  lemma {:induction false} WhereMeaning<T>(xs: seq<T>, p: T -> bool)
    ensures forall j :: 0 <= j < |Where(xs, p)| ==> p(xs[Where(xs, p)[j]])
    ensures forall i :: 0 <= i < |xs| && p(xs[i]) ==> i in Where(xs, p)
    ensures forall j, k :: 0 <= j < k < |Where(xs, p)| ==> Where(xs, p)[j] < Where(xs, p)[k]
  {
    if xs != [] {
      var q := xs[..|xs| - 1];
      WhereMeaning(q, p);
      var idx := Where(q, p);
      var all := Where(xs, p);
      assert all == if p(xs[|q|]) then idx + [|q|] else idx;
      forall j | 0 <= j < |all|
        ensures p(xs[all[j]])
      {
        if j < |idx| {
          assert all[j] == idx[j] && q[idx[j]] == xs[idx[j]];
          assert p(q[idx[j]]);
        } else {
          assert p(xs[|q|]) && all[j] == |q|;
        }
      }
      assert forall i :: 0 <= i < |q| ==> q[i] == xs[i];
    }
  }

  /** Between two neighbours of an increasing sequence lies no member of it. */
  lemma NoneBetween(idx: seq<nat>, j: nat)
    requires j + 1 < |idx| && forall a, b :: 0 <= a < b < |idx| ==> idx[a] < idx[b]
    ensures forall t :: idx[j] < t < idx[j + 1] ==> t !in idx
  {
    forall q | 0 <= q < |idx|
      ensures idx[q] <= idx[j] || idx[j + 1] <= idx[q]
    {
      if q < j {
        assert idx[q] < idx[j];
      } else if q > j + 1 {
        assert idx[j + 1] < idx[q];
      }
    }
  }

  /** `[x for x in xs if p(x)]`. */
  function Keep<T>(xs: seq<T>, p: T -> bool): (r: seq<T>)
    ensures |r| <= |xs|
    ensures forall k :: 0 <= k < |r| ==> p(r[k])
    ensures forall k :: 0 <= k < |r| ==> r[k] in xs
    ensures forall k :: 0 <= k < |xs| && p(xs[k]) ==> xs[k] in r
  {
    if xs == [] then []
    else
      var r := Keep(xs[..|xs| - 1], p);
      assert forall k :: 0 <= k < |xs| - 1 ==> xs[..|xs| - 1][k] == xs[k];
      if p(xs[|xs| - 1]) then r + [xs[|xs| - 1]] else r
  }

  lemma KeepStep<T>(xs: seq<T>, i: nat, p: T -> bool)
    requires i < |xs|
    ensures Keep(xs[..i + 1], p) == Keep(xs[..i], p) + (if p(xs[i]) then [xs[i]] else [])
  {
    assert xs[..i + 1][..i] == xs[..i];
  }

  /** Keeping from a list that ends with `x`: what the rest keeps, then `x` when it is kept. */
  lemma KeepSnoc<T>(xs: seq<T>, x: T, p: T -> bool)
    ensures Keep(xs + [x], p) == Keep(xs, p) + (if p(x) then [x] else [])
  {
    assert (xs + [x])[..|xs|] == xs;
  }

  /** Keeping from a list that starts with `x`: `x` first when it is kept, then what the rest keeps. */
  lemma {:induction false} KeepCons<T>(x: T, xs: seq<T>, p: T -> bool)
    ensures Keep([x] + xs, p) == (if p(x) then [x] else []) + Keep(xs, p)
    decreases |xs|
  {
    var ys := [x] + xs;
    if xs == [] {
      assert ys[..|ys| - 1] == [];
    } else {
      var init := xs[..|xs| - 1];
      var last := xs[|xs| - 1];
      assert ys[..|ys| - 1] == [x] + init;
      assert ys[|ys| - 1] == last;
      KeepCons(x, init, p);
      var head: seq<T> := if p(x) then [x] else [];
      if p(last) {
        assert Keep(ys, p) == (head + Keep(init, p)) + [last];
        assert Keep(xs, p) == Keep(init, p) + [last];
      } else {
        assert Keep(ys, p) == head + Keep(init, p);
        assert Keep(xs, p) == Keep(init, p);
      }
    }
  }

  /** The kept elements are exactly the elements at the indices `Where` gives, in the same order. */
  lemma {:induction false} KeepAtWhere<T>(xs: seq<T>, p: T -> bool)
    ensures |Keep(xs, p)| == |Where(xs, p)|
    ensures forall j :: 0 <= j < |Keep(xs, p)| ==> Keep(xs, p)[j] == xs[Where(xs, p)[j]]
  {
    if xs != [] {
      var q := xs[..|xs| - 1];
      KeepAtWhere(q, p);
      var kept, idx := Keep(q, p), Where(q, p);
      var allKept, all := Keep(xs, p), Where(xs, p);
      assert allKept == if p(xs[|q|]) then kept + [xs[|q|]] else kept;
      assert all == if p(xs[|q|]) then idx + [|q|] else idx;
      forall j | 0 <= j < |allKept|
        ensures allKept[j] == xs[all[j]]
      {
        if j < |kept| {
          assert allKept[j] == kept[j] && all[j] == idx[j] && q[idx[j]] == xs[idx[j]];
        }
      }
    }
  }

  /** No two elements are the same: the keys a loop stores a dict under. */
  predicate Distinct<T(==)>(xs: seq<T>) {
    forall i, j :: 0 <= i < j < |xs| ==> xs[i] != xs[j]
  }

  /** A prefix of distinct elements is distinct. */
  lemma DistinctPrefix<T>(xs: seq<T>, n: nat)
    requires Distinct(xs) && n <= |xs|
    ensures Distinct(xs[..n])
  {
    assert forall i :: 0 <= i < n ==> xs[..n][i] == xs[i];
  }

  /** Keeping some elements of a list without repeats leaves a list without repeats. */
  lemma {:induction false} KeepDistinct<T>(xs: seq<T>, p: T -> bool)
    requires Distinct(xs)
    ensures Distinct(Keep(xs, p))
  {
    if xs != [] {
      var init := xs[..|xs| - 1];
      var last := xs[|xs| - 1];
      KeepDistinct(init, p);
      assert last !in init by {
        forall k | 0 <= k < |init|
          ensures init[k] != last
        {
          assert init[k] == xs[k];
        }
      }
      var r0 := Keep(init, p);
      assert xs[..|xs| - 1] == init;
      if p(last) {
        var r := r0 + [last];
        assert Keep(xs, p) == r;
        forall a, b | 0 <= a < b < |r|
          ensures r[a] != r[b]
        {
          assert r[a] == r0[a];
          if b == |r0| {
            assert r[b] == last && r0[a] in init;
          } else {
            assert r[b] == r0[b];
          }
        }
      } else {
        assert Keep(xs, p) == r0;
      }
    }
  }

  /** The index of the last element satisfying `p`, if any. */
  function LastWhere<T>(xs: seq<T>, p: T -> bool): (r: Option<nat>)
    ensures r.Some? ==> r.value < |xs| && p(xs[r.value]) && forall k :: r.value < k < |xs| ==> !p(xs[k])
    ensures r.None? ==> forall k :: 0 <= k < |xs| ==> !p(xs[k])
  {
    if xs == [] then None
    else if p(xs[|xs| - 1]) then Some(|xs| - 1)
    else LastWhere(xs[..|xs| - 1], p)
  }
}
