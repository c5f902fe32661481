/**
 * The SQLite helpers of src/core/db.py.  A table is the sequence of its
 * records (column name to value) and has one UNIQUE column: a record whose
 * value there repeats a stored one is refused with IntegrityError, while a
 * NULL or absent value never conflicts.  The connection commits in a
 * `finally` block, so rows inserted before a failure stay stored.
 */
module Db {
  import opened Wrappers
  import opened Text

  datatype Value = Int(i: int) | Str(s: string) | Null

  type Row = seq<Value>

  type Record = map<string, Value>

  /** The record a row becomes when inserted under the given column names. */
  function ToRecord(columns: seq<string>, row: Row): Record
    requires |row| == |columns|
  {
    if columns == [] then map[]
    else
      var n := |columns| - 1;
      ToRecord(columns[..n], row[..n])[columns[n] := row[n]]
  }

  /** The record's value in the UNIQUE column, when it has one. */
  function KeyOf(rec: Record, unique: string): Option<Value> {
    if unique in rec && rec[unique] != Null then Some(rec[unique]) else None
  }

  /** Inserting `rec` after `stored` violates the UNIQUE constraint. */
  predicate Conflicts(stored: seq<Record>, rec: Record, unique: string) {
    KeyOf(rec, unique).Some? && exists k :: 0 <= k < |stored| && KeyOf(stored[k], unique) == KeyOf(rec, unique)
  }

  /** The UNIQUE constraint: no two stored records share a key. */
  predicate Unique(stored: seq<Record>, unique: string) {
    forall i, j :: 0 <= i < j < |stored| && KeyOf(stored[i], unique).Some? ==> KeyOf(stored[i], unique) != KeyOf(stored[j], unique)
  }

  datatype InsertOutcome = InsertOutcome(stored: seq<Record>, result: Result<nat>)

  /**
   * The rows stored after executing one INSERT per record, and the number of
   * duplicates skipped (or IntegrityError at the first conflict when not skipping).
   */
  function InsertRows(stored: seq<Record>, batch: seq<Record>, unique: string, skip: bool): InsertOutcome
    decreases |batch|
  {
    if batch == [] then InsertOutcome(stored, Ok(0))
    else if Conflicts(stored, batch[0], unique) then
      if skip then
        var rest := InsertRows(stored, batch[1..], unique, skip);
        InsertOutcome(rest.stored, if rest.result.Ok? then Ok(rest.result.value + 1) else rest.result)
      else InsertOutcome(stored, Err(IntegrityError))
    else InsertRows(stored + [batch[0]], batch[1..], unique, skip)
  }

  /** Every row has exactly one value per column. */
  predicate Uniform(columns: seq<string>, rows: seq<Row>) {
    forall k :: 0 <= k < |rows| ==> |rows[k]| == |columns|
  }

  /**
   * `insert_into_db(db_path, table, columns, rows, skip_duplicates)` as a function
   * of the stored records: AssertionError before any insert when a row has the
   * wrong width, otherwise one INSERT per row.
   */
  function InsertInto(stored: seq<Record>, columns: seq<string>, rows: seq<Row>, unique: string, skip: bool): InsertOutcome {
    if !Uniform(columns, rows) then InsertOutcome(stored, Err(AssertionError))
    else InsertRows(stored, seq(|rows|, k requires 0 <= k < |rows| => ToRecord(columns, rows[k])), unique, skip)
  }

  /** Stored rows are never removed or changed, and the constraint keeps holding. */
  lemma {:induction false} InsertPreservesUnique(stored: seq<Record>, batch: seq<Record>, unique: string, skip: bool)
    requires Unique(stored, unique)
    ensures Unique(InsertRows(stored, batch, unique, skip).stored, unique)
    ensures |stored| <= |InsertRows(stored, batch, unique, skip).stored|
    ensures InsertRows(stored, batch, unique, skip).stored[..|stored|] == stored
    decreases |batch|
  {
    if batch != [] {
      if Conflicts(stored, batch[0], unique) {
        if skip {
          InsertPreservesUnique(stored, batch[1..], unique, skip);
        }
      } else {
        var next := stored + [batch[0]];
        assert Unique(next, unique) by {
          forall i, j | 0 <= i < j < |next| && KeyOf(next[i], unique).Some?
            ensures KeyOf(next[i], unique) != KeyOf(next[j], unique)
          {
            if j == |stored| {
              assert next[i] == stored[i];
            }
          }
        }
        InsertPreservesUnique(next, batch[1..], unique, skip);
        assert next[..|stored|] == stored;
      }
    }
  }

  /** With skip_duplicates nothing is raised, and every row is either stored or counted as a duplicate. */
  lemma {:induction false} SkipNeverRaises(stored: seq<Record>, batch: seq<Record>, unique: string)
    ensures InsertRows(stored, batch, unique, true).result.Ok?
    ensures |InsertRows(stored, batch, unique, true).stored|
            == |stored| + |batch| - InsertRows(stored, batch, unique, true).result.value
    decreases |batch|
  {
    if batch != [] {
      if Conflicts(stored, batch[0], unique) {
        SkipNeverRaises(stored, batch[1..], unique);
      } else {
        SkipNeverRaises(stored + [batch[0]], batch[1..], unique);
      }
    }
  }

  lemma {:induction false} KeyStaysPresent(stored: seq<Record>, batch: seq<Record>, unique: string, skip: bool, k: nat)
    requires k < |stored|
    ensures k < |InsertRows(stored, batch, unique, skip).stored|
    ensures InsertRows(stored, batch, unique, skip).stored[k] == stored[k]
    decreases |batch|
  {
    if batch != [] {
      if Conflicts(stored, batch[0], unique) {
        if skip {
          KeyStaysPresent(stored, batch[1..], unique, skip, k);
        }
      } else {
        KeyStaysPresent(stored + [batch[0]], batch[1..], unique, skip, k);
      }
    }
  }

  /** After a skipping insert, every keyed row of the batch has its key stored. */
  lemma {:induction false} BatchKeysStored(stored: seq<Record>, batch: seq<Record>, unique: string)
    ensures forall b :: b in batch && KeyOf(b, unique).Some? ==> Conflicts(InsertRows(stored, batch, unique, true).stored, b, unique)
    decreases |batch|
  {
    if batch != [] {
      var b0 := batch[0];
      var next := if Conflicts(stored, b0, unique) then stored else stored + [b0];
      assert InsertRows(stored, batch, unique, true).stored == InsertRows(next, batch[1..], unique, true).stored;
      BatchKeysStored(next, batch[1..], unique);
      var out := InsertRows(next, batch[1..], unique, true).stored;
      if KeyOf(b0, unique).Some? {
        var k :| 0 <= k < |next| && KeyOf(next[k], unique) == KeyOf(b0, unique);
        KeyStaysPresent(next, batch[1..], unique, true, k);
        assert out[k] == next[k];
      }
      forall b | b in batch && KeyOf(b, unique).Some?
        ensures Conflicts(out, b, unique)
      {
        if b != b0 {
          assert b in batch[1..];
        }
      }
    }
  }

  lemma {:induction false} AllConflictingSkipped(stored: seq<Record>, batch: seq<Record>, unique: string)
    requires forall b :: b in batch ==> Conflicts(stored, b, unique)
    ensures InsertRows(stored, batch, unique, true) == InsertOutcome(stored, Ok(|batch|))
    decreases |batch|
  {
    if batch != [] {
      assert batch[0] in batch;
      AllConflictingSkipped(stored, batch[1..], unique);
    }
  }

  /**
   * Re-inserting the same keyed rows with skip_duplicates changes nothing:
   * every row is counted as a duplicate.
   */
  lemma InsertTwiceIsIdempotent(stored: seq<Record>, batch: seq<Record>, unique: string)
    requires forall b :: b in batch ==> KeyOf(b, unique).Some?
    ensures var once := InsertRows(stored, batch, unique, true).stored;
            InsertRows(once, batch, unique, true) == InsertOutcome(once, Ok(|batch|))
  {
    BatchKeysStored(stored, batch, unique);
    AllConflictingSkipped(InsertRows(stored, batch, unique, true).stored, batch, unique);
  }

  /** Without skip_duplicates a conflict raises, and the rows before it stay stored. */
  lemma FirstConflictRaises(stored: seq<Record>, batch: seq<Record>, unique: string)
    requires batch != [] && Conflicts(stored, batch[0], unique)
    ensures InsertRows(stored, batch, unique, false) == InsertOutcome(stored, Err(IntegrityError))
    ensures InsertRows(stored, batch, unique, true).result.Ok?
  {
    SkipNeverRaises(stored, batch, unique);
  }

  // ---------------------------------------------------------------------
  // Query text
  // ---------------------------------------------------------------------

  function CountChar(s: string, c: char): nat {
    if s == [] then 0 else (if s[0] == c then 1 else 0) + CountChar(s[1..], c)
  }

  lemma {:induction false} CountCharAppend(a: string, b: string, c: char)
    ensures CountChar(a + b, c) == CountChar(a, c) + CountChar(b, c)
    decreases |a|
  {
    if a != [] {
      assert (a + b)[1..] == a[1..] + b;
      CountCharAppend(a[1..], b, c);
    } else {
      assert a + b == b;
    }
  }

  /** A string without '?' contributes no placeholder. */
  lemma {:induction false} NoQuestionMark(s: string)
    requires '?' !in s
    ensures CountChar(s, '?') == 0
    decreases |s|
  {
    if s != [] {
      assert s == [s[0]] + s[1..];
      NoQuestionMark(s[1..]);
    }
  }

  /** The count over a concatenation of three strings. */
  lemma Count3(a: string, b: string, c: string)
    ensures CountChar(a + b + c, '?') == CountChar(a, '?') + CountChar(b, '?') + CountChar(c, '?')
  {
    CountCharAppend(a + b, c, '?');
    CountCharAppend(a, b, '?');
  }

  predicate NoPlaceholder(names: seq<string>) {
    forall k :: 0 <= k < |names| ==> CountChar(names[k], '?') == 0
  }

  /** `sep.join(parts)` holds as many placeholders as its parts and separators together. */
  lemma {:induction false} CountInJoin(parts: seq<string>, sep: string)
    requires CountChar(sep, '?') == 0
    ensures CountChar(Join(parts, sep), '?') == SumCounts(parts)
    decreases |parts|
  {
    if |parts| > 1 {
      CountInJoin(parts[1..], sep);
      CountCharAppend(parts[0] + sep, Join(parts[1..], sep), '?');
      CountCharAppend(parts[0], sep, '?');
    }
  }

  function SumCounts(parts: seq<string>): nat {
    if parts == [] then 0 else CountChar(parts[0], '?') + SumCounts(parts[1..])
  }

  function Placeholders(n: nat): (r: seq<string>)
    ensures |r| == n && forall k :: 0 <= k < n ==> r[k] == "?"
  {
    seq(n, _ => "?")
  }

  lemma {:induction false} SumPlaceholders(n: nat)
    ensures SumCounts(Placeholders(n)) == n
  {
    if n > 0 {
      assert Placeholders(n)[1..] == Placeholders(n - 1);
      SumPlaceholders(n - 1);
    }
  }

  /** `"INSERT INTO %s %s VALUES %s" % (table, columns_str, values_str)`. */
  function InsertQuery(table: string, columns: seq<string>): string {
    "INSERT INTO " + table + " (" + Join(columns, ",") + ") VALUES (" + Join(Placeholders(|columns|), ",") + ")"
  }

  lemma {:induction false} NamesWithoutPlaceholders(names: seq<string>)
    requires NoPlaceholder(names)
    ensures SumCounts(names) == 0
    decreases |names|
  {
    if names != [] {
      NamesWithoutPlaceholders(names[1..]);
    }
  }

  /** The count over a concatenation of five strings. */
  lemma Count5(a: string, b: string, c: string, d: string, e: string)
    ensures CountChar(a + b + c + d + e, '?')
            == CountChar(a, '?') + CountChar(b, '?') + CountChar(c, '?') + CountChar(d, '?') + CountChar(e, '?')
  {
    Count3(a, b, c);
    CountCharAppend(a + b + c, d, '?');
    CountCharAppend(a + b + c + d, e, '?');
  }

  /** The fixed words around the table name hold no placeholder. */
  lemma InsertKeywordsPlain()
    ensures CountChar("INSERT INTO ", '?') == 0 && CountChar(" (", '?') == 0
  {
    NoQuestionMark("INSERT INTO ");
    OpenParenPlain();
  }

  lemma OpenParenPlain()
    ensures CountChar(" (", '?') == 0
  {
    assert " (" == [' '] + ['('];
    CountCharAppend([' '], ['('], '?');
  }

  /** The text before the column names holds no placeholder when the table name holds none. */
  lemma InsertHeadPlain(table: string)
    requires CountChar(table, '?') == 0
    ensures CountChar("INSERT INTO " + table + " (", '?') == 0
  {
    InsertKeywordsPlain();
    Count3("INSERT INTO ", table, " (");
  }

  /** The INSERT statement binds exactly one parameter per column. */
  lemma InsertQueryPlaceholders(table: string, columns: seq<string>)
    requires CountChar(table, '?') == 0 && NoPlaceholder(columns)
    ensures CountChar(InsertQuery(table, columns), '?') == |columns|
  {
    var head := "INSERT INTO " + table + " (";
    var cols := Join(columns, ",");
    var mid := ") VALUES (";
    var vals := Join(Placeholders(|columns|), ",");
    InsertHeadPlain(table);
    CountInJoin(columns, ",");
    NamesWithoutPlaceholders(columns);
    CountInJoin(Placeholders(|columns|), ",");
    SumPlaceholders(|columns|);
    NoQuestionMark(mid);
    NoQuestionMark(")");
    Count5(head, cols, mid, vals, ")");
    assert InsertQuery(table, columns) == head + cols + mid + vals + ")";
  }

  /** `f"{col} = ?"` for each column. */
  function Assignments(cols: seq<string>): (r: seq<string>)
    ensures |r| == |cols|
  {
    seq(|cols|, k requires 0 <= k < |cols| => cols[k] + " = ?")
  }

  lemma {:induction false} SumAssignments(cols: seq<string>)
    requires NoPlaceholder(cols)
    ensures SumCounts(Assignments(cols)) == |cols|
    decreases |cols|
  {
    if cols != [] {
      assert Assignments(cols)[1..] == Assignments(cols[1..]);
      CountCharAppend(cols[0], " = ?", '?');
      SumAssignments(cols[1..]);
    }
  }

  /** `construct_update_query(table, update_cols, where_cols)`. */
  function ConstructUpdateQuery(table: string, updateCols: seq<string>, whereCols: seq<string>): string {
    "UPDATE " + table + " SET " + Join(Assignments(updateCols), ", ") + " WHERE " + Join(Assignments(whereCols), " AND ")
  }

  /** The text before the assignments holds no placeholder when the table name holds none. */
  lemma UpdateHeadPlain(table: string)
    requires CountChar(table, '?') == 0
    ensures CountChar("UPDATE " + table + " SET ", '?') == 0
  {
    assert CountChar("UPDATE ", '?') == 0 by { NoQuestionMark("UPDATE "); }
    assert CountChar(" SET ", '?') == 0 by { NoQuestionMark(" SET "); }
    Count3("UPDATE ", table, " SET ");
  }

  /** The UPDATE statement binds one parameter per updated column and one per WHERE column. */
  lemma UpdateQueryPlaceholders(table: string, updateCols: seq<string>, whereCols: seq<string>)
    requires CountChar(table, '?') == 0 && NoPlaceholder(updateCols) && NoPlaceholder(whereCols)
    ensures CountChar(ConstructUpdateQuery(table, updateCols, whereCols), '?') == |updateCols| + |whereCols|
  {
    var u := Join(Assignments(updateCols), ", ");
    var w := Join(Assignments(whereCols), " AND ");
    NoQuestionMark(", ");
    NoQuestionMark(" AND ");
    CountInJoin(Assignments(updateCols), ", ");
    CountInJoin(Assignments(whereCols), " AND ");
    SumAssignments(updateCols);
    SumAssignments(whereCols);
    var head := "UPDATE " + table + " SET ";
    UpdateHeadPlain(table);
    NoQuestionMark(" WHERE ");
    Count3(head, u, " WHERE ");
    CountCharAppend(head + u + " WHERE ", w, '?');
    assert ConstructUpdateQuery(table, updateCols, whereCols) == head + u + " WHERE " + w;
  }

  /** One statement sent to SQLite with its bound parameters. */
  datatype Execution = Execution(query: string, params: Row)

  /**
   * `update_db_where`: after the length and width checks, one UPDATE per
   * (update values, where values) pair, binding the update values first.
   */
  method UpdateDbWhere(table: string, updateCols: seq<string>, updateList: seq<Row>,
                       whereCols: seq<string>, whereList: seq<Row>)
    returns (r: Result<seq<Execution>>)
    ensures r.Err? <==> |updateList| != |whereList|
                        || (exists k :: 0 <= k < |updateList| && |updateList[k]| != |updateCols|)
                        || (exists k :: 0 <= k < |whereList| && |whereList[k]| != |whereCols|)
    ensures r.Err? ==> r.error == ValueError
    ensures r.Ok? ==> |r.value| == |updateList| == |whereList|
    ensures r.Ok? ==> forall k :: 0 <= k < |r.value| ==>
              r.value[k] == Execution(ConstructUpdateQuery(table, updateCols, whereCols), updateList[k] + whereList[k])
    ensures r.Ok? ==> forall k :: 0 <= k < |r.value| ==>
              |r.value[k].params| == |updateCols| + |whereCols|
  {
    if |updateList| != |whereList| {
      return Err(ValueError);
    }
    if exists k :: 0 <= k < |updateList| && |updateList[k]| != |updateCols| {
      return Err(ValueError);
    }
    if exists k :: 0 <= k < |whereList| && |whereList[k]| != |whereCols| {
      return Err(ValueError);
    }
    var query := ConstructUpdateQuery(table, updateCols, whereCols);
    var executed: seq<Execution> := [];
    var i := 0;
    while i < |updateList|
      invariant 0 <= i <= |updateList|
      invariant |executed| == i
      invariant forall k :: 0 <= k < i ==> executed[k] == Execution(query, updateList[k] + whereList[k])
    {
      executed := executed + [Execution(query, updateList[i] + whereList[i])];
      i := i + 1;
    }
    r := Ok(executed);
  }

  /** `cursor.description`: the name of each result column. */
  datatype ColumnDescription = ColumnDescription(name: string)

  /** The column list `execute_sql_query` returns: empty when the cursor has no description. */
  function QueryColumns(description: Option<seq<ColumnDescription>>): (cols: seq<string>)
    ensures description.None? ==> cols == []
    ensures description.Some? ==> |cols| == |description.value|
    ensures description.Some? ==> forall k :: 0 <= k < |cols| ==> cols[k] == description.value[k].name
  {
    match description
    case None => []
    case Some(d) => seq(|d|, k requires 0 <= k < |d| => d[k].name)
  }

  /** A table: its stored records and the name of its UNIQUE column. */
  class Table {
    var records: seq<Record>
    const unique: string

    constructor (unique: string)
      ensures records == [] && this.unique == unique
    {
      records := [];
      this.unique := unique;
    }

    /**
     * `insert_into_db(db_path, table, columns, rows, skip_duplicates)`.  The
     * function returns None and only logs the number of duplicates it skipped;
     * here that number is the result, so that the contracts can speak of it.
     * A row of the wrong width fails the assertion before anything is inserted.
     */
    method InsertIntoDb(columns: seq<string>, rows: seq<Row>, skipDuplicates: bool) returns (r: Result<nat>)
      modifies this
      ensures InsertOutcome(records, r) == InsertInto(old(records), columns, rows, unique, skipDuplicates)
    {
      if !Uniform(columns, rows) {
        return Err(AssertionError);
      }
      ghost var batch := seq(|rows|, k requires 0 <= k < |rows| => ToRecord(columns, rows[k]));
      var duplicates := 0;
      var i := 0;
      while i < |rows|
        invariant 0 <= i <= |rows|
        invariant InsertRows(old(records), batch, unique, skipDuplicates)
                  == (var rest := InsertRows(records, batch[i..], unique, skipDuplicates);
                      InsertOutcome(rest.stored, if rest.result.Ok? then Ok(rest.result.value + duplicates) else rest.result))
      {
        var rec := ToRecord(columns, rows[i]);
        assert batch[i..][0] == rec && batch[i..][1..] == batch[i + 1..];
        if Conflicts(records, rec, unique) {
          if skipDuplicates {
            duplicates := duplicates + 1;
          } else {
            return Err(IntegrityError);
          }
        } else {
          records := records + [rec];
        }
        i := i + 1;
      }
      r := Ok(duplicates);
    }
  }
}
