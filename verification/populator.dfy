/**
 `populate_table`: the eligible columns, the parameterised INSERT statement
 and the loop of executes ending in one commit. The database cursor is
 abstracted as `ok`, which says whether the execute of a given row (counted
 from 0) succeeds; the trace records every call made on the connection.
 */
module Populator {
  import opened Text
  import opened Schema
  import opened Generator

  /** A call made on the database connection. */
  datatype Event = Execute(query: string, params: seq<GenKind>) | Commit

  /** What `populate_table` returns: `None`, `False` after the failing
      record (numbered from 1, as in its message) or `True`. */
  datatype Outcome = NothingToInsert | Failed(record: nat) | Succeeded

  /** The columns the populator fills: those without a default, in order. */
  function Eligible(cols: seq<Column>): (r: seq<Column>)
    ensures |r| <= |cols|
    ensures forall c :: c in r <==> c in cols && !c.hasDefault
  {
    if cols == [] then []
    else (if cols[0].hasDefault then [] else [cols[0]]) + Eligible(cols[1..])
  }

  /** The filter looks at each column on its own and keeps the order. */
  lemma {:induction false} EligibleAppend(a: seq<Column>, b: seq<Column>)
    ensures Eligible(a + b) == Eligible(a) + Eligible(b)
    decreases |a|
  {
    if a == [] {
      assert a + b == b;
    } else {
      assert (a + b)[1..] == a[1..] + b;
      EligibleAppend(a[1..], b);
    }
  }

  /** A single column is kept exactly when it has no default. */
  lemma EligibleOne(c: Column)
    ensures Eligible([c]) == if c.hasDefault then [] else [c]
  {
    assert [c][1..] == [];
  }

  function Names(cols: seq<Column>): (r: seq<string>)
    ensures |r| == |cols|
  {
    seq(|cols|, i requires 0 <= i < |cols| => cols[i].name)
  }

  /** `', '.join(['?' for _ in columns])`. */
  function Placeholders(k: nat): string {
    Join(seq(k, _ => "?"), ", ")
  }

  // The fixed text of the statement, with the whitespace of the source's
  // triple-quoted string.
  const INSERT_INTO: string := "\n        INSERT INTO "
  const OPEN_NAMES: string := " ("
  const OPEN_VALUES: string := ")\n        VALUES ("
  const CLOSE_VALUES: string := ")\n        "

  /** The INSERT statement. */
  function InsertQuery(table: string, cols: seq<Column>): string {
    INSERT_INTO + table + OPEN_NAMES + Join(Names(cols), ", ") + OPEN_VALUES + Placeholders(|cols|) + CLOSE_VALUES
  }

  /** The values of one row: one generator per column, in column order. */
  function RowParams(cols: seq<Column>): (r: seq<GenKind>)
    ensures |r| == |cols|
  {
    seq(|cols|, i requires 0 <= i < |cols| => Classify(cols[i]))
  }

  /** `range(record_count)` runs no iteration for a count of zero or less. */
  function Iterations(recordCount: int): nat {
    if recordCount <= 0 then 0 else recordCount
  }

  /**
   The loop of `populate_table` over `n` rows, every row sent as `query`
   with one value per generator of `values`. Row `i` is executed while every
   earlier row succeeded; the first failing row stops the loop and is named
   (from 1) without a commit; when every row succeeds one commit follows.
   */
  method SendRows(query: string, values: seq<GenKind>, n: nat, ok: nat -> bool) returns (out: Outcome, trace: seq<Event>)
    ensures !out.NothingToInsert?
    ensures out == Succeeded <==> forall i :: 0 <= i < n ==> ok(i)
    ensures out.Failed? ==>
      && 1 <= out.record <= n
      && !ok(out.record - 1)
      && (forall i :: 0 <= i < out.record - 1 ==> ok(i))
      && |trace| == out.record
    ensures out.Succeeded? ==> |trace| == n + 1 && trace[n] == Commit
    ensures out.Succeeded? ==> forall j :: 0 <= j < n ==> trace[j] == Execute(query, values)
    ensures forall j :: 0 <= j < |trace| && trace[j].Execute? ==> trace[j] == Execute(query, values)
    ensures Commit in trace <==> out == Succeeded
  {
    trace := [];
    var i := 0;
    while i < n
      invariant 0 <= i <= n
      invariant |trace| == i
      invariant forall j :: 0 <= j < i ==> ok(j)
      invariant forall j :: 0 <= j < i ==> trace[j] == Execute(query, values)
    {
      trace := trace + [Execute(query, values)];
      if !ok(i) {
        return Failed(i + 1), trace;
      }
      i := i + 1;
    }
    trace := trace + [Commit];
    return Succeeded, trace;
  }

  /**
   `populate_table`: nothing is sent when every column has a default;
   otherwise the rows are sent as `SendRows` describes.
   */
  method Populate(t: TableSchema, recordCount: int, ok: nat -> bool) returns (out: Outcome, trace: seq<Event>)
    ensures Eligible(t.columns) == [] <==> out == NothingToInsert
    ensures out == NothingToInsert ==> trace == []
    ensures out == Succeeded <==>
      Eligible(t.columns) != [] && forall i :: 0 <= i < Iterations(recordCount) ==> ok(i)
    ensures out.Failed? ==>
      && 1 <= out.record <= Iterations(recordCount)
      && !ok(out.record - 1)
      && (forall i :: 0 <= i < out.record - 1 ==> ok(i))
      && |trace| == out.record
    ensures out.Succeeded? ==> |trace| == Iterations(recordCount) + 1 && trace[|trace| - 1] == Commit
    ensures out.Succeeded? ==> forall j :: 0 <= j < Iterations(recordCount) ==> trace[j].Execute?
    ensures forall j :: 0 <= j < |trace| && trace[j].Execute? ==>
      trace[j] == Execute(InsertQuery(t.tableName, Eligible(t.columns)), RowParams(Eligible(t.columns)))
    ensures Commit in trace <==> out == Succeeded
  {
    var cols := Eligible(t.columns);
    if cols == [] {
      return NothingToInsert, [];
    }
    out, trace := SendRows(InsertQuery(t.tableName, cols), RowParams(cols), Iterations(recordCount), ok);
  }

  /** A row never asks for the database default: the eligible columns have none. */
  lemma EligibleNeverOmit(cols: seq<Column>)
    ensures forall p :: p in RowParams(Eligible(cols)) ==> !p.Omit?
  {
    var e := Eligible(cols);
    forall i | 0 <= i < |e|
      ensures !RowParams(e)[i].Omit?
    {
      assert e[i] in e;
    }
  }

  /** The placeholder list holds exactly `k` question marks. */
  lemma {:induction false} PlaceholderCount(k: nat)
    ensures Count(Placeholders(k), '?') == k
  {
    if k > 1 {
      var qs := seq(k - 1, _ => "?");
      assert seq(k, _ => "?") == qs + ["?"];
      JoinSnoc(qs, "?", ", ");
      PlaceholderCount(k - 1);
      CountAppend(Placeholders(k - 1), ", ", '?');
      CountAppend(Placeholders(k - 1) + ", ", "?", '?');
    } else if k == 1 {
      assert seq(k, _ => "?") == ["?"];
    }
  }

  /** The fixed text of the statement holds no placeholder. */
  lemma FixedTextHasNoPlaceholder()
    ensures Count(INSERT_INTO, '?') == 0 && Count(OPEN_NAMES, '?') == 0
    ensures Count(OPEN_VALUES, '?') == 0 && Count(CLOSE_VALUES, '?') == 0
  {
    CountAbsent(INSERT_INTO, '?');
    CountAbsent(OPEN_NAMES, '?');
    CountAbsent(OPEN_VALUES, '?');
    CountAbsent(CLOSE_VALUES, '?');
  }

  /** When neither the table name nor a column name holds a `?`, the statement
      has exactly one placeholder per value sent with it. */
  lemma QueryMatchesParams(table: string, cols: seq<Column>)
    requires '?' !in table
    requires forall i :: 0 <= i < |cols| ==> '?' !in cols[i].name
    ensures Count(InsertQuery(table, cols), '?') == |RowParams(cols)|
  {
    var names := Names(cols);
    var p := Placeholders(|cols|);
    var joined := Join(names, ", ");
    JoinAvoids(names, ", ", '?');
    CountAbsent(table, '?');
    CountAbsent(joined, '?');
    FixedTextHasNoPlaceholder();
    PlaceholderCount(|cols|);
    var a := INSERT_INTO + table;
    var b := a + OPEN_NAMES;
    var c := b + joined;
    var d := c + OPEN_VALUES;
    var e := d + p;
    CountAppend(INSERT_INTO, table, '?');
    CountAppend(a, OPEN_NAMES, '?');
    CountAppend(b, joined, '?');
    CountAppend(c, OPEN_VALUES, '?');
    CountAppend(d, p, '?');
    CountAppend(e, CLOSE_VALUES, '?');
  }
}
