/**
 * Statement import (src/core/statements.py): the standardized archive file
 * name, the lookup of a statement by the MD5 of its file, the per-statement
 * transaction hashing that keeps every row's MD5 distinct, and the import of
 * one file and of a whole import directory into the Statements,
 * Transactions and Shopping tables.
 *
 * The MD5 of `str(row)` is a function parameter assumed injective (no two
 * distinct rows share a digest); the MD5 of a file's bytes is a field of
 * the file.  File moves are recorded in a map from file name to the
 * directory the file went to.
 */
module Statements {
  import opened Wrappers
  import opened Text
  import opened Dates
  import opened Db

  // ---------------------------------------------------------------------
  // standardize_fname
  // ---------------------------------------------------------------------

  /** `standardize_fname`: `<name>_<start %Y%m%d>_<end %Y%m%d><suffix lowercased>`. */
  function StandardizeFname(name: string, start: int, end: int, suffix: string): (f: string)
    requires 1 <= start <= MaxOrdinal && 1 <= end <= MaxOrdinal
    ensures |f| == |name| + 18 + |suffix|
  {
    name + "_" + Yyyymmdd(FromOrdinal(start)) + "_" + Yyyymmdd(FromOrdinal(end)) + Lower(suffix)
  }

  /**
   * The name, both dates and the lowercased suffix can be read back from a
   * standardized file name.
   */
  lemma StandardizeFnameRoundTrip(name: string, start: int, end: int, suffix: string)
    requires 1 <= start <= MaxOrdinal && 1 <= end <= MaxOrdinal
    ensures var f := StandardizeFname(name, start, end, suffix);
            && f[..|name|] == name
            && f[|name|] == '_' && f[|name| + 9] == '_'
            && FromYyyymmdd(f[|name| + 1..|name| + 9]) == Some(start)
            && FromYyyymmdd(f[|name| + 10..|name| + 18]) == Some(end)
            && f[|name| + 18..] == Lower(suffix)
  {
    var f := StandardizeFname(name, start, end, suffix);
    assert f[|name| + 1..|name| + 9] == Yyyymmdd(FromOrdinal(start));
    assert f[|name| + 10..|name| + 18] == Yyyymmdd(FromOrdinal(end));
    OrdinalRoundTrip(start);
    OrdinalRoundTrip(end);
  }

  /**
   * The parts a standardized file name is built from.  The tables and the
   * archive keep these parts; `Text` renders them with `StandardizeFname`.
   */
  datatype ArchiveName = ArchiveName(name: string, start: int, end: int, suffix: string) {
    predicate Valid() {
      1 <= start <= MaxOrdinal && 1 <= end <= MaxOrdinal
    }

    function Text(): (f: string)
      requires Valid()
      ensures f == StandardizeFname(name, start, end, suffix)
    {
      StandardizeFname(name, start, end, suffix)
    }
  }

  /** Statements of one account covering different dates are archived under different names. */
  lemma DistinctDatesDistinctFnames(name: string, suffix: string, s1: int, e1: int, s2: int, e2: int)
    requires 1 <= s1 <= MaxOrdinal && 1 <= e1 <= MaxOrdinal
    requires 1 <= s2 <= MaxOrdinal && 1 <= e2 <= MaxOrdinal
    requires s1 != s2 || e1 != e2
    ensures StandardizeFname(name, s1, e1, suffix) != StandardizeFname(name, s2, e2, suffix)
  {
    StandardizeFnameRoundTrip(name, s1, e1, suffix);
    StandardizeFnameRoundTrip(name, s2, e2, suffix);
  }

  // ---------------------------------------------------------------------
  // get_statement_id
  // ---------------------------------------------------------------------

  /** A row of the Statements table (dates are day ordinals). */
  datatype StatementRow = StatementRow(
    statementId: nat, stid: int, mainAccountId: int,
    startDate: int, endDate: int, importDate: int,
    filename: ArchiveName, md5: string)

  /** `SELECT StatementID FROM Statements WHERE MD5 = md5`, in table order. */
  function IdsFor(table: seq<StatementRow>, md5: string): (ids: seq<nat>)
    ensures |ids| <= |table|
  {
    if table == [] then []
    else (if table[0].md5 == md5 then [table[0].statementId] else []) + IdsFor(table[1..], md5)
  }

  /** The ids selected are exactly the ids of the rows that carry the hash. */
  lemma {:induction false} IdsForMembers(table: seq<StatementRow>, md5: string)
    ensures forall id :: id in IdsFor(table, md5) <==> exists s :: s in table && s.md5 == md5 && s.statementId == id
  {
    if table != [] {
      IdsForMembers(table[1..], md5);
      assert forall s :: s in table <==> s == table[0] || s in table[1..];
    }
  }

  /** Two rows of the table carry the same file hash. */
  predicate Repeated(table: seq<StatementRow>, md5: string) {
    exists i, j :: 0 <= i < j < |table| && table[i].md5 == md5 && table[j].md5 == md5
  }

  /** `get_statement_id`: -1 when no statement has the hash, its id when one has, KeyError otherwise. */
  function GetStatementId(table: seq<StatementRow>, md5: string): (r: Result<int>)
    ensures r.Err? ==> r.error == KeyError
    ensures r.Ok? ==> r.value >= -1
  {
    var ids := IdsFor(table, md5);
    if |ids| == 0 then Ok(-1)
    else if |ids| == 1 then Ok(ids[0])
    else Err(KeyError)
  }

  /** -1 means no stored statement has the hash; any other id is the id of a statement that has it. */
  lemma GetStatementIdMeaning(table: seq<StatementRow>, md5: string)
    ensures GetStatementId(table, md5) == Ok(-1) <==> forall s :: s in table ==> s.md5 != md5
    ensures var r := GetStatementId(table, md5);
            r.Ok? && r.value != -1 ==> exists s :: s in table && s.md5 == md5 && s.statementId == r.value
  {
    var ids := IdsFor(table, md5);
    IdsForMembers(table, md5);
    if |ids| > 0 {
      assert ids[0] in ids;
    } else {
      forall s | s in table
        ensures s.md5 != md5
      {
        assert s.statementId !in ids;
      }
    }
  }

  lemma {:induction false} IdsForSome(table: seq<StatementRow>, md5: string)
    ensures |IdsFor(table, md5)| >= 1 <==> exists i :: 0 <= i < |table| && table[i].md5 == md5
  {
    IdsForMembers(table, md5);
    if exists i :: 0 <= i < |table| && table[i].md5 == md5 {
      var i :| 0 <= i < |table| && table[i].md5 == md5;
      assert table[i] in table;
      assert table[i].statementId in IdsFor(table, md5);
    }
    if |IdsFor(table, md5)| >= 1 {
      assert IdsFor(table, md5)[0] in IdsFor(table, md5);
    }
  }

  lemma {:induction false} IdsForCount(table: seq<StatementRow>, md5: string)
    ensures |IdsFor(table, md5)| >= 2 <==> Repeated(table, md5)
  {
    if table != [] {
      var rest := table[1..];
      IdsForCount(rest, md5);
      IdsForSome(rest, md5);
      assert Repeated(rest, md5) ==> Repeated(table, md5) by {
        if Repeated(rest, md5) {
          var i, j :| 0 <= i < j < |rest| && rest[i].md5 == md5 && rest[j].md5 == md5;
          assert table[i + 1].md5 == md5 && table[j + 1].md5 == md5;
        }
      }
      assert table[0].md5 == md5 && (exists i :: 0 <= i < |rest| && rest[i].md5 == md5) ==> Repeated(table, md5) by {
        if table[0].md5 == md5 && exists i :: 0 <= i < |rest| && rest[i].md5 == md5 {
          var i :| 0 <= i < |rest| && rest[i].md5 == md5;
          assert table[i + 1].md5 == md5;
        }
      }
      assert Repeated(table, md5) ==> Repeated(rest, md5) || (table[0].md5 == md5 && exists i :: 0 <= i < |rest| && rest[i].md5 == md5) by {
        if Repeated(table, md5) {
          var i, j :| 0 <= i < j < |table| && table[i].md5 == md5 && table[j].md5 == md5;
          if i > 0 {
            assert rest[i - 1].md5 == md5 && rest[j - 1].md5 == md5;
          } else {
            assert rest[j - 1].md5 == md5;
          }
        }
      }
    }
  }

  /** The lookup raises KeyError exactly when the hash is stored more than once. */
  lemma KeyErrorIffRepeated(table: seq<StatementRow>, md5: string)
    ensures GetStatementId(table, md5).Err? <==> Repeated(table, md5)
  {
    IdsForCount(table, md5);
  }

  lemma {:induction false} IdsForAppend(table: seq<StatementRow>, row: StatementRow, md5: string)
    ensures IdsFor(table + [row], md5) == IdsFor(table, md5) + IdsFor([row], md5)
  {
    if table != [] {
      assert (table + [row])[1..] == table[1..] + [row];
      IdsForAppend(table[1..], row, md5);
    }
  }

  /** After inserting a row for a hash that was not stored, the lookup finds that row's id. */
  lemma NewStatementFound(table: seq<StatementRow>, row: StatementRow)
    requires GetStatementId(table, row.md5) == Ok(-1)
    ensures GetStatementId(table + [row], row.md5) == Ok(row.statementId)
  {
    IdsForAppend(table, row, row.md5);
  }

  /** `statement_already_imported`: the hash is known (KeyError propagates). */
  function StatementAlreadyImported(table: seq<StatementRow>, md5: string): (r: Result<bool>)
    ensures r.Ok? ==> (r.value <==> exists s :: s in table && s.md5 == md5)
    ensures r.Err? <==> Repeated(table, md5)
  {
    KeyErrorIffRepeated(table, md5);
    GetStatementIdMeaning(table, md5);
    match GetStatementId(table, md5)
    case Err(e) => Err(e)
    case Ok(id) => Ok(id != -1)
  }

  /** The id the database assigns to the next Statements row: larger than every stored id. */
  function NextStatementId(table: seq<StatementRow>): (id: nat)
    ensures id >= 1
  {
    if table == [] then 1
    else
      var rest := NextStatementId(table[1..]);
      if table[0].statementId < rest then rest else table[0].statementId + 1
  }

  /** The next id is larger than every stored id, so it is not in use. */
  lemma {:induction false} NextStatementIdFresh(table: seq<StatementRow>)
    ensures forall s :: s in table ==> s.statementId < NextStatementId(table)
  {
    if table != [] {
      NextStatementIdFresh(table[1..]);
      assert forall s :: s in table <==> s == table[0] || s in table[1..];
    }
  }

  // ---------------------------------------------------------------------
  // hash_transactions
  // ---------------------------------------------------------------------

  /** A transaction row whose last field is its description. */
  predicate Described(row: Row) {
    |row| >= 1 && row[|row| - 1].Str?
  }

  /** Two rows get the same digest. */
  ghost predicate Collide(rowHash: Row -> string, a: Row, b: Row) {
    rowHash(a) == rowHash(b)
  }

  /** The hash of `str(row)` never maps two different rows to one digest. */
  ghost predicate Injective(rowHash: Row -> string) {
    forall a: Row, b: Row {:trigger Collide(rowHash, a, b)} :: Collide(rowHash, a, b) ==> a == b
  }

  lemma DistinctRowsDistinctDigests(rowHash: Row -> string, a: Row, b: Row)
    requires Injective(rowHash) && a != b
    ensures rowHash(a) != rowHash(b)
  {
    assert Collide(rowHash, a, b) ==> a == b;
  }

  /** `" D"` repeated `k` times. */
  function Ds(k: nat): (s: string)
    ensures |s| == 2 * k
  {
    if k == 0 then "" else Ds(k - 1) + " D"
  }

  /** The row with `" D"` appended `k` times to its description. */
  function Renamed(row: Row, k: nat): (r: Row)
    requires Described(row)
    ensures Described(r) && |r| == |row|
    ensures r[..|r| - 1] == row[..|row| - 1]
    ensures |r[|r| - 1].s| == |row[|row| - 1].s| + 2 * k
  {
    row[..|row| - 1] + [Str(row[|row| - 1].s + Ds(k))]
  }

  lemma RenamedZero(row: Row)
    requires Described(row)
    ensures Renamed(row, 0) == row
  {
    assert row[|row| - 1].s + Ds(0) == row[|row| - 1].s;
    assert row[|row| - 1] == Str(row[|row| - 1].s);
    assert row[..|row| - 1] + [row[|row| - 1]] == row;
  }

  /** One more `" D"` on the description of an already renamed row. */
  lemma RenamedStep(row: Row, k: nat)
    requires Described(row)
    ensures var r := Renamed(row, k);
            Renamed(row, k + 1) == r[..|r| - 1] + [Str(r[|r| - 1].s + " D")]
  {
    assert row[|row| - 1].s + Ds(k + 1) == (row[|row| - 1].s + Ds(k)) + " D";
  }

  /** The digests of the first `k` renamings of a row. */
  function RenamedHashes(row: Row, rowHash: Row -> string, k: nat): set<string>
    requires Described(row)
  {
    set j | 0 <= j < k :: rowHash(Renamed(row, j))
  }

  /** Distinct renamings have distinct digests, so there are `k` of them. */
  lemma {:induction false} RenamedHashesSize(row: Row, rowHash: Row -> string, k: nat)
    requires Injective(rowHash) && Described(row)
    ensures |RenamedHashes(row, rowHash, k)| == k
  {
    if k == 0 {
      assert RenamedHashes(row, rowHash, 0) == {};
    } else {
      var newest := rowHash(Renamed(row, k - 1));
      forall j | 0 <= j < k - 1
        ensures rowHash(Renamed(row, j)) != newest
      {
        assert |Renamed(row, j)[|row| - 1].s| != |Renamed(row, k - 1)[|row| - 1].s|;
        DistinctRowsDistinctDigests(rowHash, Renamed(row, j), Renamed(row, k - 1));
      }
      assert newest !in RenamedHashes(row, rowHash, k - 1);
      assert RenamedHashes(row, rowHash, k) == RenamedHashes(row, rowHash, k - 1) + {newest};
      RenamedHashesSize(row, rowHash, k - 1);
    }
  }

  lemma {:induction false} SubsetSize<T>(a: set<T>, b: set<T>)
    requires a <= b
    ensures |a| <= |b|
    decreases |b|
  {
    if a != {} {
      var x :| x in a;
      SubsetSize(a - {x}, b - {x});
    }
  }

  /** If the first `k + 1` renamings all have taken digests, at least `k + 1` digests are taken. */
  lemma SeenBound(row: Row, rowHash: Row -> string, seen: set<string>, k: nat)
    requires Injective(rowHash) && Described(row)
    requires forall j :: 0 <= j <= k ==> rowHash(Renamed(row, j)) in seen
    ensures k + 1 <= |seen|
  {
    RenamedHashesSize(row, rowHash, k + 1);
    SubsetSize(RenamedHashes(row, rowHash, k + 1), seen);
  }

  /** The number of `" D"` suffixes after which the row's digest is no longer taken. */
  function Suffixes(row: Row, rowHash: Row -> string, seen: set<string>, k: nat): (n: nat)
    requires Injective(rowHash) && Described(row)
    requires forall j :: 0 <= j < k ==> rowHash(Renamed(row, j)) in seen
    ensures k <= n && rowHash(Renamed(row, n)) !in seen
    ensures forall j :: k <= j < n ==> rowHash(Renamed(row, j)) in seen
    decreases |seen| - k
  {
    if rowHash(Renamed(row, k)) !in seen then k
    else
      SeenBound(row, rowHash, seen, k);
      Suffixes(row, rowHash, seen, k + 1)
  }

  /** Any count that frees the digest while every smaller one does not is the count `Suffixes` picks. */
  lemma SuffixesLeast(row: Row, rowHash: Row -> string, seen: set<string>, n: nat)
    requires Injective(rowHash) && Described(row)
    requires forall j :: 0 <= j < n ==> rowHash(Renamed(row, j)) in seen
    requires rowHash(Renamed(row, n)) !in seen
    ensures Suffixes(row, rowHash, seen, 0) == n
  {
  }

  /** The digest field appended to a hashed row. */
  function Digest(row: Row): Value {
    if row == [] then Null else row[|row| - 1]
  }

  /** `out` is `row`, renamed some number of times, followed by the renamed row's digest. */
  ghost predicate Tagged(out: Row, row: Row, rowHash: Row -> string)
    requires Described(row)
  {
    exists n: nat :: out == Renamed(row, n) + [Str(rowHash(Renamed(row, n)))]
  }

  /** What `hash_transactions` returns for `rows` when the digests in `seen` are already taken. */
  function Hashed(rows: seq<Row>, rowHash: Row -> string, seen: set<string>): (out: seq<Row>)
    requires Injective(rowHash)
    requires forall k :: 0 <= k < |rows| ==> Described(rows[k])
    ensures |out| == |rows|
  {
    if rows == [] then []
    else
      var row := Renamed(rows[0], Suffixes(rows[0], rowHash, seen, 0));
      [row + [Str(rowHash(row))]] + Hashed(rows[1..], rowHash, seen + {rowHash(row)})
  }

  /**
   * Each output row is its input row, with `" D"` appended to the description
   * some number of times, followed by the digest of that renamed row; no
   * digest is one that was already taken.
   */
  lemma {:induction false} HashedShape(rows: seq<Row>, rowHash: Row -> string, seen: set<string>)
    requires Injective(rowHash)
    requires forall k :: 0 <= k < |rows| ==> Described(rows[k])
    ensures var out := Hashed(rows, rowHash, seen);
            forall i :: 0 <= i < |out| ==>
              && Tagged(out[i], rows[i], rowHash)
              && |out[i]| == |rows[i]| + 1
              && Digest(out[i]).Str? && Digest(out[i]).s !in seen
  {
    if rows != [] {
      var out := Hashed(rows, rowHash, seen);
      var n := Suffixes(rows[0], rowHash, seen, 0);
      var row := Renamed(rows[0], n);
      var rest := Hashed(rows[1..], rowHash, seen + {rowHash(row)});
      assert out == [row + [Str(rowHash(row))]] + rest;
      HashedShape(rows[1..], rowHash, seen + {rowHash(row)});
      forall i | 0 <= i < |out|
        ensures Tagged(out[i], rows[i], rowHash) && |out[i]| == |rows[i]| + 1
        ensures Digest(out[i]).Str? && Digest(out[i]).s !in seen
      {
        if i == 0 {
          assert out[0] == Renamed(rows[0], n) + [Str(rowHash(Renamed(rows[0], n)))];
        } else {
          assert out[i] == rest[i - 1] && rows[i] == rows[1..][i - 1];
        }
      }
    }
  }

  /** No two rows of one statement end up with the same digest. */
  lemma {:induction false} HashedDigestsDistinct(rows: seq<Row>, rowHash: Row -> string, seen: set<string>)
    requires Injective(rowHash)
    requires forall k :: 0 <= k < |rows| ==> Described(rows[k])
    ensures var out := Hashed(rows, rowHash, seen);
            forall i, j :: 0 <= i < j < |out| ==> Digest(out[i]) != Digest(out[j])
  {
    if rows != [] {
      var out := Hashed(rows, rowHash, seen);
      var row := Renamed(rows[0], Suffixes(rows[0], rowHash, seen, 0));
      var rest := Hashed(rows[1..], rowHash, seen + {rowHash(row)});
      assert out == [row + [Str(rowHash(row))]] + rest;
      HashedDigestsDistinct(rows[1..], rowHash, seen + {rowHash(row)});
      HashedShape(rows[1..], rowHash, seen + {rowHash(row)});
      forall i, j | 0 <= i < j < |out|
        ensures Digest(out[i]) != Digest(out[j])
      {
        assert out[j] == rest[j - 1];
        if i > 0 {
          assert out[i] == rest[i - 1];
        }
      }
    }
  }

  /** A row whose digest is not yet taken is stored unchanged, followed by its digest. */
  lemma {:induction false} UnseenRowKept(rows: seq<Row>, rowHash: Row -> string, seen: set<string>, i: nat)
    requires Injective(rowHash)
    requires forall k :: 0 <= k < |rows| ==> Described(rows[k])
    requires i < |rows| && rowHash(rows[i]) !in seen
    requires forall j :: 0 <= j < i ==> Digest(Hashed(rows, rowHash, seen)[j]) != Str(rowHash(rows[i]))
    ensures Hashed(rows, rowHash, seen)[i] == rows[i] + [Str(rowHash(rows[i]))]
    decreases i, 1
  {
    if i == 0 {
      var row := Renamed(rows[0], Suffixes(rows[0], rowHash, seen, 0));
      assert Hashed(rows, rowHash, seen)[0] == row + [Str(rowHash(row))];
      RenamedZero(rows[0]);
      SuffixesLeast(rows[0], rowHash, seen, 0);
    } else {
      UnseenLaterRowKept(rows, rowHash, seen, i);
    }
  }

  /** UnseenRowKept past the first row: the first row takes its digest, and the rest are hashed after it. */
  lemma {:induction false} UnseenLaterRowKept(rows: seq<Row>, rowHash: Row -> string, seen: set<string>, i: nat)
    requires Injective(rowHash)
    requires forall k :: 0 <= k < |rows| ==> Described(rows[k])
    requires 0 < i < |rows| && rowHash(rows[i]) !in seen
    requires forall j :: 0 <= j < i ==> Digest(Hashed(rows, rowHash, seen)[j]) != Str(rowHash(rows[i]))
    ensures Hashed(rows, rowHash, seen)[i] == rows[i] + [Str(rowHash(rows[i]))]
    decreases i, 0
  {
    var out := Hashed(rows, rowHash, seen);
    var row := Renamed(rows[0], Suffixes(rows[0], rowHash, seen, 0));
    var tail := rows[1..];
    var seen' := seen + {rowHash(row)};
    var rest := Hashed(tail, rowHash, seen');
    assert out == [row + [Str(rowHash(row))]] + rest;
    assert tail[i - 1] == rows[i];
    assert Digest(out[0]) == Str(rowHash(row));
    assert rowHash(rows[i]) !in seen';
    forall j | 0 <= j < i - 1
      ensures Digest(rest[j]) != Str(rowHash(tail[i - 1]))
    {
      assert rest[j] == out[j + 1];
    }
    UnseenRowKept(tail, rowHash, seen', i - 1);
    assert out[i] == rest[i - 1];
  }

  /** Hashing from row `i`: row `i` renamed and hashed, then the rows after it with its digest taken. */
  lemma HashedStep(transactions: seq<Row>, i: nat, rowHash: Row -> string, seen: set<string>)
    requires Injective(rowHash)
    requires forall k :: 0 <= k < |transactions| ==> Described(transactions[k])
    requires i < |transactions|
    ensures var row := Renamed(transactions[i], Suffixes(transactions[i], rowHash, seen, 0));
            Hashed(transactions[i..], rowHash, seen)
            == [row + [Str(rowHash(row))]] + Hashed(transactions[i + 1..], rowHash, seen + {rowHash(row)})
  {
    var todo := transactions[i..];
    assert todo[0] == transactions[i] && todo[1..] == transactions[i + 1..];
  }

  /**
   * One pass of the loop of `hash_transactions`: when `whole` is the rows
   * hashed so far followed by the rest hashed, it still is after row `i` is
   * renamed, hashed and its digest recorded.
   */
  lemma HashedLoopStep(transactions: seq<Row>, i: nat, rowHash: Row -> string, md5List: seq<string>,
                       hashed: seq<Row>, whole: seq<Row>)
    requires Injective(rowHash)
    requires forall k :: 0 <= k < |transactions| ==> Described(transactions[k])
    requires i < |transactions|
    requires whole == hashed + Hashed(transactions[i..], rowHash, Elems(md5List))
    ensures var row := Renamed(transactions[i], Suffixes(transactions[i], rowHash, Elems(md5List), 0));
            var md5 := rowHash(row);
            whole == (hashed + [row + [Str(md5)]]) + Hashed(transactions[i + 1..], rowHash, Elems(md5List + [md5]))
  {
    var row := Renamed(transactions[i], Suffixes(transactions[i], rowHash, Elems(md5List), 0));
    var md5 := rowHash(row);
    HashedStep(transactions, i, rowHash, Elems(md5List));
    ElemsSnoc(md5List, md5);
    AppendAssoc(hashed, [row + [Str(md5)]], Hashed(transactions[i + 1..], rowHash, Elems(md5List + [md5])));
  }

  lemma AppendAssoc<T>(a: seq<T>, b: seq<T>, c: seq<T>)
    ensures a + (b + c) == (a + b) + c
  {
  }

  /** The digests taken so far. */
  function Elems(xs: seq<string>): set<string> {
    set x | x in xs
  }

  lemma ElemsSnoc(xs: seq<string>, x: string)
    ensures Elems(xs + [x]) == Elems(xs) + {x}
  {
    forall y ensures y in xs + [x] <==> y in xs || y == x {
    }
  }

  /**
   * The `while md5 in md5_list` loop of `hash_transactions`: append `" D"` to
   * the description until the row's digest is not yet taken.
   */
  method RenameUntilUnseen(original: Row, md5List: seq<string>, rowHash: Row -> string) returns (row: Row, md5: string)
    requires Injective(rowHash) && Described(original)
    ensures row == Renamed(original, Suffixes(original, rowHash, Elems(md5List), 0))
    ensures md5 == rowHash(row) && md5 !in md5List
  {
    row := original;
    md5 := rowHash(row);
    ghost var n: nat := 0;
    RenamedZero(original);
    while md5 in md5List
      invariant row == Renamed(original, n) && md5 == rowHash(row)
      invariant forall j :: 0 <= j < n ==> rowHash(Renamed(original, j)) in Elems(md5List)
      decreases |Elems(md5List)| - n
    {
      SeenBound(original, rowHash, Elems(md5List), n);
      RenamedStep(original, n);
      var description := row[|row| - 1].s + " D";
      row := row[..|row| - 1] + [Str(description)];
      md5 := rowHash(row);
      n := n + 1;
    }
    SuffixesLeast(original, rowHash, Elems(md5List), n);
  }

  /**
   * `hash_transactions`: append to each row the digest of the row, first
   * appending `" D"` to its description until the digest differs from every
   * digest given to an earlier row of the list.
   */
  method HashTransactions(transactions: seq<Row>, rowHash: Row -> string) returns (hashed: seq<Row>)
    requires Injective(rowHash)
    requires forall k :: 0 <= k < |transactions| ==> Described(transactions[k])
    ensures hashed == Hashed(transactions, rowHash, {})
  {
    var md5List: seq<string> := [];
    hashed := [];
    var i := 0;
    assert Elems(md5List) == {};
    while i < |transactions|
      invariant 0 <= i <= |transactions|
      invariant Hashed(transactions, rowHash, {}) == hashed + Hashed(transactions[i..], rowHash, Elems(md5List))
    {
      var row, md5 := RenameUntilUnseen(transactions[i], md5List, rowHash);
      HashedLoopStep(transactions, i, rowHash, md5List, hashed, Hashed(transactions, rowHash, {}));
      md5List := md5List + [md5];
      hashed := hashed + [row + [Str(md5)]];
      i := i + 1;
    }
  }

  // ---------------------------------------------------------------------
  // get_account_info
  // ---------------------------------------------------------------------

  /** The AccountNumbers table (account number to AccountID) and the Accounts table (AccountID to nickname). */
  datatype Lookup = Lookup(accountIds: map<string, int>, nickNames: map<int, string>)

  datatype AccountInfo = AccountInfo(ids: map<string, int>, nickName: string, mainAccountId: int)

  /** What `get_account_info` returns or raises for the account numbers of a statement. */
  function AccountInfoOf(nums: seq<string>, lookup: Lookup): (r: Result<AccountInfo>)
    ensures r.Err? ==> r.error == (if |nums| == 0 then IndexError else ValueError)
  {
    if exists k :: 0 <= k < |nums| && nums[k] !in lookup.accountIds then Err(ValueError)
    else if |nums| == 0 then Err(IndexError)
    else
      var ids := map n | n in nums :: lookup.accountIds[n];
      var main := ids[nums[0]];
      if main !in lookup.nickNames then Err(ValueError)
      else Ok(AccountInfo(ids, lookup.nickNames[main], main))
  }

  /**
   * The lookup succeeds exactly when every account number is known and the
   * first one has an Accounts row; it then maps every account number of the
   * statement to its AccountID and names the first account's nickname.
   */
  lemma AccountInfoOfMeaning(nums: seq<string>, lookup: Lookup)
    ensures var r := AccountInfoOf(nums, lookup);
            r.Ok? <==> && (forall k :: 0 <= k < |nums| ==> nums[k] in lookup.accountIds)
                       && |nums| > 0 && lookup.accountIds[nums[0]] in lookup.nickNames
    ensures var r := AccountInfoOf(nums, lookup);
            r.Ok? ==> && (forall n :: n in r.value.ids <==> n in nums)
                      && (forall n :: n in r.value.ids ==> r.value.ids[n] == lookup.accountIds[n])
                      && r.value.mainAccountId == lookup.accountIds[nums[0]]
                      && r.value.nickName == lookup.nickNames[r.value.mainAccountId]
  {
  }

  /**
   * `get_account_info`: look up every account number (ValueError for an
   * unknown one), then the nickname of the first account (IndexError when
   * there is none, ValueError when it has no Accounts row).
   */
  method GetAccountInfo(nums: seq<string>, lookup: Lookup) returns (r: Result<AccountInfo>)
    ensures r == AccountInfoOf(nums, lookup)
  {
    var ids: map<string, int> := map[];
    var k := 0;
    while k < |nums|
      invariant 0 <= k <= |nums|
      invariant forall j :: 0 <= j < k ==> nums[j] in lookup.accountIds
      invariant forall n :: n in ids <==> n in nums[..k]
      invariant forall n :: n in ids ==> ids[n] == lookup.accountIds[n]
    {
      if nums[k] !in lookup.accountIds {
        return Err(ValueError);
      }
      ids := ids[nums[k] := lookup.accountIds[nums[k]]];
      assert nums[..k + 1] == nums[..k] + [nums[k]];
      k := k + 1;
    }
    assert nums[..k] == nums;
    if |nums| == 0 {
      return Err(IndexError);
    }
    var main := ids[nums[0]];
    if main !in lookup.nickNames {
      return Err(ValueError);
    }
    assert ids == map n | n in nums :: lookup.accountIds[n];
    r := Ok(AccountInfo(ids, lookup.nickNames[main], main));
  }

  // ---------------------------------------------------------------------
  // Storing the transactions of one statement
  // ---------------------------------------------------------------------

  /** One account of a parsed statement: its number and its transaction rows. */
  datatype AccountData = AccountData(accountNumber: string, rows: seq<Row>)

  function AccountNumbers(data: seq<AccountData>): (nums: seq<string>)
    ensures |nums| == |data|
    ensures forall k :: 0 <= k < |data| ==> nums[k] == data[k].accountNumber
  {
    seq(|data|, k requires 0 <= k < |data| => data[k].accountNumber)
  }

  const TransactionColumns: seq<string> := ["StatementID", "AccountID", "Date", "Amount", "Balance", "Description", "MD5"]
  const ShoppingColumns: seq<string> := ["StatementID", "AccountID", "CardID", "OrderID", "Date", "Amount", "Description", "MD5"]

  /** Accounts whose rows go to the Shopping table rather than Transactions. */
  predicate IsShopping(accountNumber: string) {
    accountNumber == "amazonper" || accountNumber == "amazonbus"
  }

  /** Each row prefixed with one value. */
  function Prefixed(v: Value, rows: seq<Row>): (r: seq<Row>)
    ensures |r| == |rows|
    ensures forall k :: 0 <= k < |rows| ==> r[k] == [v] + rows[k]
  {
    seq(|rows|, k requires 0 <= k < |rows| => [v] + rows[k])
  }

  predicate AllDescribed(rows: seq<Row>) {
    forall k :: 0 <= k < |rows| ==> Described(rows[k])
  }

  /** The rows of one account as inserted: `(statement_id, account_id) + row + (md5,)`. */
  function Prepared(rows: seq<Row>, accountId: int, statementId: int, rowHash: Row -> string): seq<Row>
    requires Injective(rowHash) && AllDescribed(rows)
  {
    var withAccount := Prefixed(Int(accountId), rows);
    assert forall k :: 0 <= k < |withAccount| ==> Described(withAccount[k]) by {
      forall k | 0 <= k < |withAccount|
        ensures Described(withAccount[k])
      {
        assert withAccount[k][|withAccount[k]| - 1] == rows[k][|rows[k]| - 1];
      }
    }
    Prefixed(Int(statementId), Hashed(withAccount, rowHash, {}))
  }

  datatype Stored = Stored(transactions: seq<Record>, shopping: seq<Record>, error: Option<Error>)

  predicate ParsedRows(data: seq<AccountData>) {
    forall k :: 0 <= k < |data| ==> AllDescribed(data[k].rows)
  }

  /**
   * One pass of the loop of `import_single` over the accounts of a statement:
   * an account without rows is skipped; the rows of the others are prepared
   * and inserted, skipping duplicates, into Shopping for the Amazon accounts
   * and into Transactions otherwise.
   */
  function StoreOne(transactions: seq<Record>, shopping: seq<Record>, a: AccountData,
                    ids: map<string, int>, statementId: int, rowHash: Row -> string): Stored
    requires Injective(rowHash) && AllDescribed(a.rows) && a.accountNumber in ids
  {
    if a.rows == [] then Stored(transactions, shopping, None)
    else
      var rows := Prepared(a.rows, ids[a.accountNumber], statementId, rowHash);
      if IsShopping(a.accountNumber) then
        var out := InsertInto(shopping, ShoppingColumns, rows, "MD5", true);
        Stored(transactions, out.stored, if out.result.Err? then Some(out.result.error) else None)
      else
        var out := InsertInto(transactions, TransactionColumns, rows, "MD5", true);
        Stored(out.stored, shopping, if out.result.Err? then Some(out.result.error) else None)
  }

  /**
   * The loop of `import_single` over the accounts of a statement, in order.
   * An insert that fails ends the loop, and what was inserted before stays
   * stored.
   */
  function StoreAccounts(transactions: seq<Record>, shopping: seq<Record>, data: seq<AccountData>,
                         ids: map<string, int>, statementId: int, rowHash: Row -> string): Stored
    requires Injective(rowHash) && ParsedRows(data)
    requires forall k :: 0 <= k < |data| ==> data[k].accountNumber in ids
    decreases |data|
  {
    if data == [] then Stored(transactions, shopping, None)
    else
      var one := StoreOne(transactions, shopping, data[0], ids, statementId, rowHash);
      if one.error.Some? then one
      else StoreAccounts(one.transactions, one.shopping, data[1..], ids, statementId, rowHash)
  }

  /** The accounts that have at least one row, in order. */
  function NonEmpty(data: seq<AccountData>): (r: seq<AccountData>)
    ensures forall a :: a in r <==> a in data && a.rows != []
  {
    if data == [] then []
    else if data[0].rows == [] then NonEmpty(data[1..])
    else [data[0]] + NonEmpty(data[1..])
  }

  /** An account without rows adds nothing: storing only the non-empty accounts is the same. */
  lemma {:induction false} EmptyAccountsSkipped(transactions: seq<Record>, shopping: seq<Record>, data: seq<AccountData>,
                                                ids: map<string, int>, statementId: int, rowHash: Row -> string)
    requires Injective(rowHash) && ParsedRows(data)
    requires forall k :: 0 <= k < |data| ==> data[k].accountNumber in ids
    ensures ParsedRows(NonEmpty(data))
    ensures forall k :: 0 <= k < |NonEmpty(data)| ==> NonEmpty(data)[k].accountNumber in ids
    ensures StoreAccounts(transactions, shopping, data, ids, statementId, rowHash)
            == StoreAccounts(transactions, shopping, NonEmpty(data), ids, statementId, rowHash)
    decreases |data|
  {
    assert forall a :: a in data ==> a.accountNumber in ids && AllDescribed(a.rows);
    assert forall a :: a in NonEmpty(data) ==> a.accountNumber in ids && AllDescribed(a.rows);
    if data != [] {
      assert forall k :: 1 <= k < |data| ==> data[1..][k - 1] == data[k];
      var out := StoreAccounts(transactions, shopping, data, ids, statementId, rowHash);
      if data[0].rows == [] {
        EmptyAccountsSkipped(transactions, shopping, data[1..], ids, statementId, rowHash);
      } else {
        var rest := NonEmpty(data[1..]);
        assert NonEmpty(data) == [data[0]] + rest;
        assert NonEmpty(data)[1..] == rest;
        forall t: seq<Record>, h: seq<Record>
          ensures StoreAccounts(t, h, data[1..], ids, statementId, rowHash) == StoreAccounts(t, h, rest, ids, statementId, rowHash)
        {
          EmptyAccountsSkipped(t, h, data[1..], ids, statementId, rowHash);
        }
      }
    }
  }

  /** The number of values a prepared row has: the source row plus StatementID, AccountID and MD5. */
  lemma PreparedWidth(rows: seq<Row>, accountId: int, statementId: int, rowHash: Row -> string)
    requires Injective(rowHash) && AllDescribed(rows)
    ensures var out := Prepared(rows, accountId, statementId, rowHash);
            |out| == |rows| && forall k :: 0 <= k < |rows| ==> |out[k]| == |rows[k]| + 3
  {
    var withAccount := Prefixed(Int(accountId), rows);
    assert forall k :: 0 <= k < |withAccount| ==> Described(withAccount[k]) by {
      forall k | 0 <= k < |withAccount|
        ensures Described(withAccount[k])
      {
        assert withAccount[k][|withAccount[k]| - 1] == rows[k][|rows[k]| - 1];
      }
    }
    HashedShape(withAccount, rowHash, {});
  }

  /** The widths each parser must produce: four values per Transactions row, five per Shopping row. */
  predicate RightWidths(data: seq<AccountData>) {
    forall k, j :: 0 <= k < |data| && 0 <= j < |data[k].rows| ==>
      |data[k].rows[j]| == (if IsShopping(data[k].accountNumber) then 5 else 4)
  }

  /** The width every row of an account must have. */
  predicate RightWidth(a: AccountData) {
    forall j :: 0 <= j < |a.rows| ==> |a.rows[j]| == (if IsShopping(a.accountNumber) then 5 else 4)
  }

  /** One account fails only on the width assertion, and never with rows of the right width. */
  lemma StoreOneFailsOnlyOnWidth(transactions: seq<Record>, shopping: seq<Record>, a: AccountData,
                                 ids: map<string, int>, statementId: int, rowHash: Row -> string)
    requires Injective(rowHash) && AllDescribed(a.rows) && a.accountNumber in ids
    ensures var out := StoreOne(transactions, shopping, a, ids, statementId, rowHash);
            && (out.error.Some? ==> out.error == Some(AssertionError))
            && (RightWidth(a) ==> out.error.None?)
  {
    if a.rows != [] {
      var rows := Prepared(a.rows, ids[a.accountNumber], statementId, rowHash);
      PreparedWidth(a.rows, ids[a.accountNumber], statementId, rowHash);
      var columns := if IsShopping(a.accountNumber) then ShoppingColumns else TransactionColumns;
      var table := if IsShopping(a.accountNumber) then shopping else transactions;
      if Uniform(columns, rows) {
        SkipNeverRaises(table, seq(|rows|, k requires 0 <= k < |rows| => ToRecord(columns, rows[k])), "MD5");
      }
      if RightWidth(a) {
        assert Uniform(columns, rows);
      }
    }
  }

  /**
   * Storing never raises IntegrityError (duplicates are skipped): the only
   * failure is the width assertion, and rows of the right width never fail it.
   */
  lemma {:induction false} StoreFailsOnlyOnWidth(transactions: seq<Record>, shopping: seq<Record>, data: seq<AccountData>,
                                                 ids: map<string, int>, statementId: int, rowHash: Row -> string)
    requires Injective(rowHash) && ParsedRows(data)
    requires forall k :: 0 <= k < |data| ==> data[k].accountNumber in ids
    ensures var out := StoreAccounts(transactions, shopping, data, ids, statementId, rowHash);
            && (out.error.Some? ==> out.error == Some(AssertionError))
            && (RightWidths(data) ==> out.error.None?)
    decreases |data|
  {
    if data != [] {
      assert forall k :: 1 <= k < |data| ==> data[1..][k - 1] == data[k];
      StoreOneFailsOnlyOnWidth(transactions, shopping, data[0], ids, statementId, rowHash);
      var one := StoreOne(transactions, shopping, data[0], ids, statementId, rowHash);
      if RightWidths(data) {
        assert RightWidth(data[0]);
      }
      if one.error.None? {
        StoreFailsOnlyOnWidth(one.transactions, one.shopping, data[1..], ids, statementId, rowHash);
      }
    }
  }

  /** One account writes only to its own table, removes nothing, and keeps the MD5 values distinct. */
  lemma StoreOneRoutesAndKeeps(transactions: seq<Record>, shopping: seq<Record>, a: AccountData,
                               ids: map<string, int>, statementId: int, rowHash: Row -> string)
    requires Injective(rowHash) && AllDescribed(a.rows) && a.accountNumber in ids
    requires Unique(transactions, "MD5") && Unique(shopping, "MD5")
    ensures var out := StoreOne(transactions, shopping, a, ids, statementId, rowHash);
            && (!IsShopping(a.accountNumber) ==> out.shopping == shopping)
            && (IsShopping(a.accountNumber) ==> out.transactions == transactions)
            && |transactions| <= |out.transactions| && out.transactions[..|transactions|] == transactions
            && |shopping| <= |out.shopping| && out.shopping[..|shopping|] == shopping
            && Unique(out.transactions, "MD5") && Unique(out.shopping, "MD5")
  {
    if a.rows != [] {
      var rows := Prepared(a.rows, ids[a.accountNumber], statementId, rowHash);
      if IsShopping(a.accountNumber) {
        if Uniform(ShoppingColumns, rows) {
          InsertPreservesUnique(shopping, seq(|rows|, k requires 0 <= k < |rows| => ToRecord(ShoppingColumns, rows[k])), "MD5", true);
        }
      } else {
        if Uniform(TransactionColumns, rows) {
          InsertPreservesUnique(transactions, seq(|rows|, k requires 0 <= k < |rows| => ToRecord(TransactionColumns, rows[k])), "MD5", true);
        }
      }
    }
  }

  /**
   * Only the Amazon accounts write to Shopping and only the others to
   * Transactions; nothing stored is removed, and each table keeps its MD5
   * values distinct.
   */
  lemma {:induction false} StoreRoutesAndKeeps(transactions: seq<Record>, shopping: seq<Record>, data: seq<AccountData>,
                                               ids: map<string, int>, statementId: int, rowHash: Row -> string)
    requires Injective(rowHash) && ParsedRows(data)
    requires forall k :: 0 <= k < |data| ==> data[k].accountNumber in ids
    requires Unique(transactions, "MD5") && Unique(shopping, "MD5")
    ensures var out := StoreAccounts(transactions, shopping, data, ids, statementId, rowHash);
            && ((forall k :: 0 <= k < |data| ==> !IsShopping(data[k].accountNumber)) ==> out.shopping == shopping)
            && ((forall k :: 0 <= k < |data| ==> IsShopping(data[k].accountNumber)) ==> out.transactions == transactions)
            && |transactions| <= |out.transactions| && out.transactions[..|transactions|] == transactions
            && |shopping| <= |out.shopping| && out.shopping[..|shopping|] == shopping
            && Unique(out.transactions, "MD5") && Unique(out.shopping, "MD5")
    decreases |data|
  {
    if data != [] {
      var tail := data[1..];
      assert forall k :: 1 <= k < |data| ==> tail[k - 1] == data[k];
      var one := StoreOne(transactions, shopping, data[0], ids, statementId, rowHash);
      StoreOneRoutesAndKeeps(transactions, shopping, data[0], ids, statementId, rowHash);
      if one.error.None? {
        var last := StoreAccounts(one.transactions, one.shopping, tail, ids, statementId, rowHash);
        assert StoreAccounts(transactions, shopping, data, ids, statementId, rowHash) == last;
        StoreRoutesAndKeeps(one.transactions, one.shopping, tail, ids, statementId, rowHash);
        PrefixOfPrefix(transactions, one.transactions, last.transactions);
        PrefixOfPrefix(shopping, one.shopping, last.shopping);
      }
    }
  }

  /** A prefix of a prefix is a prefix. */
  lemma PrefixOfPrefix<T>(a: seq<T>, b: seq<T>, c: seq<T>)
    requires |a| <= |b| && b[..|a|] == a && |b| <= |c| && c[..|b|] == b
    ensures |a| <= |c| && c[..|a|] == a
  {
    assert c[..|a|] == c[..|b|][..|a|];
  }

  // ---------------------------------------------------------------------
  // import_single and import_all
  // ---------------------------------------------------------------------

  /** Where a statement file was moved: the duplicate directory, the fail directory, or the archive under a new name. */
  datatype Place = Duplicates | Failed | Archived(filename: ArchiveName)

  /** What `parse` returns: the statement type id, the date range and the rows of each account. */
  datatype Parsed = Parsed(stid: int, startDate: int, endDate: int, data: seq<AccountData>)

  /** A file of the import directory: its name, suffix, the MD5 of its bytes and what parsing it gives. */
  datatype StatementFile = StatementFile(name: string, suffix: string, md5: string, parsed: Result<Parsed>)

  /** Parsed dates are real dates and every row ends with its description. */
  predicate WellFormed(f: StatementFile) {
    f.parsed.Ok? ==>
      && 1 <= f.parsed.value.startDate <= MaxOrdinal
      && 1 <= f.parsed.value.endDate <= MaxOrdinal
      && ParsedRows(f.parsed.value.data)
  }

  /** The tables `import_single` writes and the files it has moved. */
  datatype Store = Store(statements: seq<StatementRow>, transactions: seq<Record>, shopping: seq<Record>,
                         moved: map<string, Place>)

  /** The state after an import and the exception it raised, if any. */
  datatype Outcome = Outcome(store: Store, error: Option<Error>)

  /** The Statements row `insert_statement_metadata` adds. */
  function MetadataRow(s: Store, f: StatementFile, info: AccountInfo, today: int): StatementRow
    requires WellFormed(f) && f.parsed.Ok?
  {
    var p := f.parsed.value;
    StatementRow(NextStatementId(s.statements), p.stid, info.mainAccountId, p.startDate, p.endDate, today,
                 ArchiveName(info.nickName, p.startDate, p.endDate, f.suffix), f.md5)
  }

  /**
   * `import_single`: a file whose hash is already stored is moved to the
   * duplicate directory before it is parsed.  Otherwise the file is parsed,
   * its accounts looked up, the statement row inserted, the transactions of
   * each account stored, and the file archived under its standardized name.
   * Nothing is rolled back when a later step raises.
   */
  function ImportSingleSpec(s: Store, f: StatementFile, lookup: Lookup, rowHash: Row -> string, today: int): Outcome
    requires Injective(rowHash) && WellFormed(f)
  {
    match GetStatementId(s.statements, f.md5)
    case Err(e) => Outcome(s, Some(e))
    case Ok(id) =>
      if id != -1 then Outcome(s.(moved := s.moved[f.name := Duplicates]), None)
      else
        match f.parsed
        case Err(e) => Outcome(s, Some(e))
        case Ok(p) =>
          match AccountInfoOf(AccountNumbers(p.data), lookup)
          case Err(e) => Outcome(s, Some(e))
          case Ok(info) =>
            AccountInfoOfMeaning(AccountNumbers(p.data), lookup);
            var row := MetadataRow(s, f, info, today);
            var stored := StoreAccounts(s.transactions, s.shopping, p.data, info.ids, row.statementId, rowHash);
            var next := Store(s.statements + [row], stored.transactions, stored.shopping, s.moved);
            if stored.error.Some? then Outcome(next, stored.error)
            else Outcome(next.(moved := s.moved[f.name := Archived(row.filename)]), None)
  }

  /**
   * `parse(fpath)` takes the file alone; a call with any other number of
   * arguments raises TypeError before anything is read.
   */
  function CallParse(args: nat, f: StatementFile): Result<Parsed> {
    if args == 1 then f.parsed else Err(TypeError)
  }

  /**
   * `import_single` as written: it calls `parse(db_path, fpath)`, with two
   * arguments, so the parse result it goes on with is that call's.
   */
  function ImportSingleAsWritten(s: Store, f: StatementFile, lookup: Lookup, rowHash: Row -> string, today: int): Outcome
    requires Injective(rowHash) && WellFormed(f)
  {
    ImportSingleSpec(s, f.(parsed := CallParse(2, f)), lookup, rowHash, today)
  }

  /**
   * As written, no new statement is ever imported: every file whose hash is
   * not stored yet raises TypeError and changes nothing, while with the
   * one-argument call a file that parses and whose accounts are known adds
   * its statement row.  Duplicates are handled the same either way.
   */
  lemma ParseCalledWithTwoArguments(s: Store, f: StatementFile, lookup: Lookup, rowHash: Row -> string, today: int)
    requires Injective(rowHash) && WellFormed(f)
    ensures GetStatementId(s.statements, f.md5) == Ok(-1) ==>
              ImportSingleAsWritten(s, f, lookup, rowHash, today) == Outcome(s, Some(TypeError))
    ensures GetStatementId(s.statements, f.md5) != Ok(-1) ==>
              ImportSingleAsWritten(s, f, lookup, rowHash, today) == ImportSingleSpec(s, f, lookup, rowHash, today)
    ensures GetStatementId(s.statements, f.md5) == Ok(-1) && f.parsed.Ok?
            && AccountInfoOf(AccountNumbers(f.parsed.value.data), lookup).Ok? ==>
              |ImportSingleSpec(s, f, lookup, rowHash, today).store.statements| == |s.statements| + 1
  {
    if GetStatementId(s.statements, f.md5) == Ok(-1) && f.parsed.Ok?
       && AccountInfoOf(AccountNumbers(f.parsed.value.data), lookup).Ok? {
      MetadataKept(s, f, lookup, rowHash, today);
    }
  }

  /** A file whose hash is already stored only moves to the duplicate directory, whatever its contents. */
  lemma DuplicateMovedAside(s: Store, f: StatementFile, lookup: Lookup, rowHash: Row -> string, today: int)
    requires Injective(rowHash) && WellFormed(f)
    requires StatementAlreadyImported(s.statements, f.md5) == Ok(true)
    ensures ImportSingleSpec(s, f, lookup, rowHash, today) == Outcome(s.(moved := s.moved[f.name := Duplicates]), None)
  {
  }

  /** A failure before the statement row is inserted changes no table and moves no file. */
  lemma EarlyFailureChangesNothing(s: Store, f: StatementFile, lookup: Lookup, rowHash: Row -> string, today: int)
    requires Injective(rowHash) && WellFormed(f)
    requires || GetStatementId(s.statements, f.md5).Err?
             || (GetStatementId(s.statements, f.md5) == Ok(-1)
                 && (f.parsed.Err? || AccountInfoOf(AccountNumbers(f.parsed.value.data), lookup).Err?))
    ensures ImportSingleSpec(s, f, lookup, rowHash, today).store == s
    ensures ImportSingleSpec(s, f, lookup, rowHash, today).error.Some?
  {
  }

  /**
   * Once the accounts are known the statement row stays inserted, with the
   * file's hash and its standardized name, whether or not storing the
   * transactions fails; the file is archived exactly when nothing failed, and
   * the only failure left is a row of the wrong width.
   */
  lemma MetadataKept(s: Store, f: StatementFile, lookup: Lookup, rowHash: Row -> string, today: int)
    requires Injective(rowHash) && WellFormed(f)
    requires GetStatementId(s.statements, f.md5) == Ok(-1) && f.parsed.Ok?
    requires AccountInfoOf(AccountNumbers(f.parsed.value.data), lookup).Ok?
    ensures var o := ImportSingleSpec(s, f, lookup, rowHash, today);
            var p := f.parsed.value;
            var info := AccountInfoOf(AccountNumbers(p.data), lookup).value;
            var fname := ArchiveName(info.nickName, p.startDate, p.endDate, f.suffix);
            && |o.store.statements| == |s.statements| + 1
            && o.store.statements[..|s.statements|] == s.statements
            && o.store.statements[|s.statements|].md5 == f.md5
            && o.store.statements[|s.statements|].filename == fname
            && (o.error.None? ==> o.store.moved == s.moved[f.name := Archived(fname)])
            && (o.error.Some? ==> o.store.moved == s.moved && o.error == Some(AssertionError))
            && (RightWidths(p.data) ==> o.error.None?)
  {
    var p := f.parsed.value;
    var info := AccountInfoOf(AccountNumbers(p.data), lookup).value;
    var row := MetadataRow(s, f, info, today);
    StoreFailsOnlyOnWidth(s.transactions, s.shopping, p.data, info.ids, row.statementId, rowHash);
    assert (s.statements + [row])[..|s.statements|] == s.statements;
  }

  /**
   * Importing the same file again, after a first attempt that got as far as
   * inserting the statement row, only moves it to the duplicate directory --
   * even when that first attempt failed while storing transactions.
   */
  lemma RetryIsDuplicate(s: Store, f: StatementFile, lookup: Lookup, rowHash: Row -> string, today: int, later: int)
    requires Injective(rowHash) && WellFormed(f)
    requires GetStatementId(s.statements, f.md5) == Ok(-1) && f.parsed.Ok?
    requires AccountInfoOf(AccountNumbers(f.parsed.value.data), lookup).Ok?
    ensures var first := ImportSingleSpec(s, f, lookup, rowHash, today).store;
            ImportSingleSpec(first, f, lookup, rowHash, later) == Outcome(first.(moved := first.moved[f.name := Duplicates]), None)
  {
    var p := f.parsed.value;
    var info := AccountInfoOf(AccountNumbers(p.data), lookup).value;
    NewStatementFound(s.statements, MetadataRow(s, f, info, today));
  }

  /** A single import only ever adds entries to the record of moved files, and a successful one moves the file. */
  lemma MovedGrows(s: Store, f: StatementFile, lookup: Lookup, rowHash: Row -> string, today: int)
    requires Injective(rowHash) && WellFormed(f)
    ensures var o := ImportSingleSpec(s, f, lookup, rowHash, today);
            && (forall n :: n in s.moved ==> n in o.store.moved)
            && (o.error.None? ==> f.name in o.store.moved)
  {
  }

  /** The state after `import_all`, and the index of the file whose failure stopped it under `hard_fail`. */
  datatype Run = Run(store: Store, stoppedAt: Option<nat>)

  /** The store after one file when the run goes on: a failed file is moved to the fail directory. */
  function Settled(o: Outcome, name: string): (s: Store)
    ensures s.statements == o.store.statements && s.transactions == o.store.transactions
    ensures s.shopping == o.store.shopping
    ensures s.moved == (if o.error.Some? then o.store.moved[name := Failed] else o.store.moved)
  {
    if o.error.Some? then o.store.(moved := o.store.moved[name := Failed]) else o.store
  }

  /**
   * The loop of `import_all` over the files in the order it visits them,
   * for any per-file import `step`: a failed import ends the run under
   * `hard_fail` and otherwise moves the file to the fail directory and goes on.
   */
  function RunFiles(s: Store, files: seq<StatementFile>, hardFail: bool, step: (Store, StatementFile) -> Outcome): Run
    decreases |files|
  {
    if files == [] then Run(s, None)
    else
      var n := |files| - 1;
      var r := RunFiles(s, files[..n], hardFail, step);
      if r.stoppedAt.Some? then r
      else
        var o := step(r.store, files[n]);
        if o.error.Some? && hardFail then Run(o.store, Some(n))
        else Run(Settled(o, files[n].name), None)
  }

  /** Once the run has stopped, the files after the stopping one change nothing. */
  lemma {:induction false} StoppedRunIsFinal(s: Store, files: seq<StatementFile>, n: nat, hardFail: bool,
                                             step: (Store, StatementFile) -> Outcome)
    requires n <= |files| && RunFiles(s, files[..n], hardFail, step).stoppedAt.Some?
    ensures RunFiles(s, files, hardFail, step) == RunFiles(s, files[..n], hardFail, step)
    decreases |files| - n
  {
    if n < |files| {
      assert files[..n + 1][..n] == files[..n];
      StoppedRunIsFinal(s, files, n + 1, hardFail, step);
    } else {
      assert files[..n] == files;
    }
  }

  /**
   * A run stops only under `hard_fail`, at a file whose import failed after
   * every earlier file was handled, and the files after it are left alone.
   */
  lemma {:induction false} RunStops(s: Store, files: seq<StatementFile>, hardFail: bool,
                                    step: (Store, StatementFile) -> Outcome)
    ensures var r := RunFiles(s, files, hardFail, step);
            r.stoppedAt.Some? ==>
              var v := r.stoppedAt.value;
              && hardFail && v < |files|
              && var before := RunFiles(s, files[..v], hardFail, step);
                 && before.stoppedAt.None?
                 && step(before.store, files[v]).error.Some?
                 && r == RunFiles(s, files[..v + 1], hardFail, step)
    decreases |files|
  {
    if files != [] {
      var n := |files| - 1;
      var p := files[..n];
      RunStops(s, p, hardFail, step);
      var r := RunFiles(s, p, hardFail, step);
      if r.stoppedAt.Some? {
        var v := r.stoppedAt.value;
        assert p[..v] == files[..v] && p[..v + 1] == files[..v + 1];
      } else {
        assert files[..n + 1] == files;
      }
    }
  }

  /** An import that takes back no move and moves the file it imports without error. */
  predicate KeepsMoves(before: Store, o: Outcome, name: string) {
    && (forall n :: n in before.moved ==> n in o.store.moved)
    && (o.error.None? ==> name in o.store.moved)
  }

  /**
   * When every import keeps earlier moves, so does the run, and a run that
   * does not stop has moved every file out of the import directory.
   */
  lemma {:induction false} RunMoves(s: Store, files: seq<StatementFile>, hardFail: bool,
                                    step: (Store, StatementFile) -> Outcome)
    requires forall st: Store, k :: 0 <= k < |files| ==> KeepsMoves(st, step(st, files[k]), files[k].name)
    ensures var r := RunFiles(s, files, hardFail, step);
            && (forall n :: n in s.moved ==> n in r.store.moved)
            && (r.stoppedAt.None? ==> forall k :: 0 <= k < |files| ==> files[k].name in r.store.moved)
    decreases |files|
  {
    if files != [] {
      var n := |files| - 1;
      var p := files[..n];
      assert forall k :: 0 <= k < n ==> p[k] == files[k];
      RunMoves(s, p, hardFail, step);
      var r := RunFiles(s, p, hardFail, step);
      if r.stoppedAt.None? {
        assert KeepsMoves(r.store, step(r.store, files[n]), files[n].name);
      }
    }
  }

  predicate AllWellFormed(files: seq<StatementFile>) {
    forall k :: 0 <= k < |files| ==> WellFormed(files[k])
  }

  /** `import_single` as the per-file step of `import_all`; the files it is given are well formed. */
  ghost function ImportStep(lookup: Lookup, rowHash: Row -> string, today: int): (Store, StatementFile) -> Outcome {
    (st: Store, f: StatementFile) =>
      if Injective(rowHash) && WellFormed(f) then ImportSingleSpec(st, f, lookup, rowHash, today) else Outcome(st, None)
  }

  /** `import_all` over the files in the order it visits them. */
  ghost function ImportAllSpec(s: Store, files: seq<StatementFile>, hardFail: bool,
                               lookup: Lookup, rowHash: Row -> string, today: int): Run
    requires Injective(rowHash) && AllWellFormed(files)
  {
    RunFiles(s, files, hardFail, ImportStep(lookup, rowHash, today))
  }

  /**
   * `import_all` stops only under `hard_fail`, at a file whose import failed
   * after every earlier file was handled, and leaves the files after it alone.
   */
  lemma ImportAllStops(s: Store, files: seq<StatementFile>, hardFail: bool,
                       lookup: Lookup, rowHash: Row -> string, today: int)
    requires Injective(rowHash) && AllWellFormed(files)
    ensures var r := ImportAllSpec(s, files, hardFail, lookup, rowHash, today);
            r.stoppedAt.Some? ==>
              var v := r.stoppedAt.value;
              && hardFail && v < |files|
              && var before := ImportAllSpec(s, files[..v], hardFail, lookup, rowHash, today);
                 && before.stoppedAt.None?
                 && ImportSingleSpec(before.store, files[v], lookup, rowHash, today).error.Some?
                 && r == ImportAllSpec(s, files[..v + 1], hardFail, lookup, rowHash, today)
  {
    var step := ImportStep(lookup, rowHash, today);
    RunStops(s, files, hardFail, step);
    var r := RunFiles(s, files, hardFail, step);
    if r.stoppedAt.Some? {
      var v := r.stoppedAt.value;
      var before := RunFiles(s, files[..v], hardFail, step);
      assert step(before.store, files[v]) == ImportSingleSpec(before.store, files[v], lookup, rowHash, today);
    }
  }

  /**
   * `import_all` takes back no move, and a run that does not stop has moved
   * every file out of the import directory.
   */
  lemma ImportAllMoves(s: Store, files: seq<StatementFile>, hardFail: bool,
                       lookup: Lookup, rowHash: Row -> string, today: int)
    requires Injective(rowHash) && AllWellFormed(files)
    ensures var r := ImportAllSpec(s, files, hardFail, lookup, rowHash, today);
            && (forall n :: n in s.moved ==> n in r.store.moved)
            && (r.stoppedAt.None? ==> forall k :: 0 <= k < |files| ==> files[k].name in r.store.moved)
  {
    var step := ImportStep(lookup, rowHash, today);
    forall st: Store, k | 0 <= k < |files|
      ensures KeepsMoves(st, step(st, files[k]), files[k].name)
    {
      MovedGrows(st, files[k], lookup, rowHash, today);
    }
    RunMoves(s, files, hardFail, step);
  }

  /**
   * The importer: the tables it writes (the connection commits after every
   * call, so what is inserted stays), the files it has moved, the account
   * lookup tables it reads and the row hash.
   */
  class Importer {
    var statements: seq<StatementRow>
    var transactions: seq<Record>
    var shopping: seq<Record>
    var moved: map<string, Place>
    const lookup: Lookup
    const rowHash: Row -> string

    constructor (statements: seq<StatementRow>, transactions: seq<Record>, shopping: seq<Record>,
                 lookup: Lookup, rowHash: Row -> string)
      ensures this.statements == statements && this.transactions == transactions && this.shopping == shopping
      ensures moved == map[] && this.lookup == lookup && this.rowHash == rowHash
    {
      this.statements := statements;
      this.transactions := transactions;
      this.shopping := shopping;
      moved := map[];
      this.lookup := lookup;
      this.rowHash := rowHash;
    }

    function Snapshot(): Store
      reads this
    {
      Store(statements, transactions, shopping, moved)
    }

    /** `import_single(config, fpath)`, returning the exception it raises, if any. */
    method ImportSingle(f: StatementFile, today: int) returns (error: Option<Error>)
      requires Injective(rowHash) && WellFormed(f)
      modifies this
      ensures Outcome(Snapshot(), error) == ImportSingleSpec(old(Snapshot()), f, lookup, rowHash, today)
    {
      var known := GetStatementId(statements, f.md5);
      if known.Err? {
        return Some(known.error);
      }
      if known.value != -1 {
        moved := moved[f.name := Duplicates];
        return None;
      }
      if f.parsed.Err? {
        return Some(f.parsed.error);
      }
      var p := f.parsed.value;
      var info := GetAccountInfo(AccountNumbers(p.data), lookup);
      if info.Err? {
        return Some(info.error);
      }
      var row := MetadataRow(Snapshot(), f, info.value, today);
      NewStatementFound(statements, row);
      statements := statements + [row];
      var found := GetStatementId(statements, f.md5);
      var statementId := found.value;
      ghost var goal := StoreAccounts(transactions, shopping, p.data, info.value.ids, statementId, rowHash);
      var i := 0;
      while i < |p.data|
        invariant 0 <= i <= |p.data|
        invariant statements == old(statements) + [row] && moved == old(moved)
        invariant goal == StoreAccounts(transactions, shopping, p.data[i..], info.value.ids, statementId, rowHash)
      {
        assert p.data[i..][0] == p.data[i] && p.data[i..][1..] == p.data[i + 1..];
        var failed := StoreAccount(p.data[i], info.value.ids, statementId);
        if failed.Some? {
          return failed;
        }
        i := i + 1;
      }
      moved := moved[f.name := Archived(row.filename)];
      error := None;
    }

    /** The body of the account loop of `import_single` for one account. */
    method StoreAccount(a: AccountData, ids: map<string, int>, statementId: int) returns (error: Option<Error>)
      requires Injective(rowHash) && AllDescribed(a.rows) && a.accountNumber in ids
      modifies this
      ensures Stored(transactions, shopping, error) == StoreOne(old(transactions), old(shopping), a, ids, statementId, rowHash)
      ensures statements == old(statements) && moved == old(moved)
    {
      error := None;
      if |a.rows| == 0 {
        return;
      }
      var accountId := ids[a.accountNumber];
      var withAccount := Prefixed(Int(accountId), a.rows);
      assert forall k :: 0 <= k < |withAccount| ==> Described(withAccount[k]) by {
        forall k | 0 <= k < |withAccount|
          ensures Described(withAccount[k])
        {
          assert withAccount[k][|withAccount[k]| - 1] == a.rows[k][|a.rows[k]| - 1];
        }
      }
      var hashedRows := HashTransactions(withAccount, rowHash);
      var rows := Prefixed(Int(statementId), hashedRows);
      assert rows == Prepared(a.rows, accountId, statementId, rowHash);
      if IsShopping(a.accountNumber) {
        var out := InsertInto(shopping, ShoppingColumns, rows, "MD5", true);
        shopping := out.stored;
        if out.result.Err? {
          error := Some(out.result.error);
        }
      } else {
        var out := InsertInto(transactions, TransactionColumns, rows, "MD5", true);
        transactions := out.stored;
        if out.result.Err? {
          error := Some(out.result.error);
        }
      }
    }

    /** The body of `import_all`'s loop: import one file, and either stop or settle a failure. */
    method ImportNext(f: StatementFile, hardFail: bool, today: int) returns (stop: bool)
      requires Injective(rowHash) && WellFormed(f)
      modifies this
      ensures var o := ImportStep(lookup, rowHash, today)(old(Snapshot()), f);
              && stop == (o.error.Some? && hardFail)
              && Snapshot() == (if stop then o.store else Settled(o, f.name))
    {
      var error := ImportSingle(f, today);
      stop := error.Some? && hardFail;
      if error.Some? && !hardFail {
        moved := moved[f.name := Failed];
      }
    }

    /**
     * `import_all` over the files of the import directory, in sorted order;
     * returns the index of the file whose failure stopped the run under
     * `hard_fail`, if any.
     */
    method ImportAll(files: seq<StatementFile>, hardFail: bool, today: int) returns (stoppedAt: Option<nat>)
      requires Injective(rowHash) && AllWellFormed(files)
      modifies this
      ensures Run(Snapshot(), stoppedAt) == ImportAllSpec(old(Snapshot()), files, hardFail, lookup, rowHash, today)
    {
      ghost var start := Snapshot();
      ghost var step := ImportStep(lookup, rowHash, today);
      var i := 0;
      assert files[..0] == [];
      while i < |files|
        invariant 0 <= i <= |files|
        invariant RunFiles(start, files[..i], hardFail, step) == Run(Snapshot(), None)
      {
        assert files[..i + 1][..i] == files[..i] && files[..i + 1][i] == files[i];
        var stop := ImportNext(files[i], hardFail, today);
        if stop {
          StoppedRunIsFinal(start, files, i + 1, hardFail, step);
          return Some(i);
        }
        i := i + 1;
      }
      assert files[..i] == files;
      stoppedAt := None;
    }
  }
}
