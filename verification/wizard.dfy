/**
 The table-creation wizard: the decisions `add_column` takes on its
 answers, `remove_column`, and `generate_sql`. The console is replaced by
 the answers themselves; an answer the wizard would refuse (and ask
 again for) is reported as the reason it was refused.
 */
module Wizard {
  import opened Wrappers
  import opened Text

  /** A column as the wizard records it. `default` is already formatted. */
  datatype WizColumn = WizColumn(
    name: string,
    colType: string,
    nullable: bool,
    primary: bool,
    identity: bool,
    default: Option<string>)

  /** The answers given while one column is added, as typed. */
  datatype Answers = Answers(
    name: string,
    typeChoice: string,
    customType: string,
    nullable: string,
    primary: string,
    identity: string,
    default: string)

  /** What one pass through `add_column` does with a set of answers. */
  datatype AddResult =
    | Added(cols: seq<WizColumn>)
    | BadName        // the name does not match `^[a-zA-Z][a-zA-Z0-9_]*$`
    | DuplicateName  // a column of that name exists
    | BadType        // neither a menu number nor a nonempty custom type

  // ---------------------------------------------------------------------
  // Names

  /** `re.match(r'^[a-zA-Z][a-zA-Z0-9_]*$', s)` on an already stripped, nonempty answer. */
  predicate ValidName(s: string) {
    |s| > 0 && IsLetter(s[0]) && forall i :: 0 <= i < |s| ==> IsWordChar(s[i])
  }

  predicate NameTaken(cols: seq<WizColumn>, name: string) {
    exists i :: 0 <= i < |cols| && cols[i].name == name
  }

  predicate HasPrimary(cols: seq<WizColumn>) {
    exists i :: 0 <= i < |cols| && cols[i].primary
  }

  // ---------------------------------------------------------------------
  // Types

  /** The menu of `data_types`. */
  const DATA_TYPES: map<string, string> := map[
    "1" := "NVARCHAR(100)",
    "2" := "INT",
    "3" := "DECIMAL(10,2)",
    "4" := "DATETIME2",
    "5" := "BIT",
    "6" := "BIGINT",
    "7" := "NVARCHAR(50)",
    "8" := "NVARCHAR(255)",
    "9" := "DATE",
    "10" := "FLOAT"
  ]

  /** The menu entry that asks for a custom type. */
  const CUSTOM_CHOICE: string := "11"

  lemma MenuEntriesNonEmpty(k: string)
    requires k in DATA_TYPES
    ensures DATA_TYPES[k] != []
  {
  }

  /** The type chosen: a menu entry, a nonempty custom type, or refused. */
  function ResolveType(choice: string, custom: string): (r: Option<string>)
    ensures Strip(choice) in DATA_TYPES ==> r == Some(DATA_TYPES[Strip(choice)])
    ensures Strip(choice) !in DATA_TYPES ==>
      (r.Some? <==> Strip(choice) == CUSTOM_CHOICE && Strip(custom) != [])
    ensures r.Some? ==> r.value != []
  {
    var c := Strip(choice);
    if c in DATA_TYPES then MenuEntriesNonEmpty(c); Some(DATA_TYPES[c])
    else if c == CUSTOM_CHOICE then
      (var t := Strip(custom); if t == [] then None else Some(t))
    else None
  }

  predicate IntLike(t: string) {
    Contains(Upper(t), "INT") || Contains(Upper(t), "BIGINT")
  }

  predicate DateLike(t: string) {
    Contains(Upper(t), "DATETIME") || Contains(Upper(t), "DATE")
  }

  predicate CharLike(t: string) {
    Contains(Upper(t), "NVARCHAR") || Contains(Upper(t), "VARCHAR") || Contains(Upper(t), "CHAR")
  }

  // ---------------------------------------------------------------------
  // Yes/no answers, stripped and lower-cased

  /** An answer among `['y', 'yes']`. */
  predicate Yes(a: string) {
    var x := Lower(Strip(a));
    x == "y" || x == "yes"
  }

  /** An answer among `['', 'y', 'yes']`: yes unless something else was typed. */
  predicate YesByDefault(a: string) {
    var x := Lower(Strip(a));
    x == "" || x == "y" || x == "yes"
  }

  // ---------------------------------------------------------------------
  // Defaults

  function Quote(d: string): string {
    "'" + d + "'"
  }

  /** The words that ask a date column for the current time. */
  predicate NowWord(d: string) {
    var x := Lower(d);
    x == "now" || x == "current" || x == "sysdatetime"
  }

  /** The default written into the column definition for the answer `d`. */
  function FormatDefault(t: string, d: string): (r: string)
    ensures DateLike(t) && NowWord(d) ==> r == "SYSDATETIME()"
    ensures DateLike(t) && !NowWord(d) ==> r == Quote(d)
    ensures !DateLike(t) && CharLike(t) ==> r == Quote(d)
    ensures !DateLike(t) && !CharLike(t) ==> r == d
    ensures d != [] ==> r != []
  {
    if DateLike(t) then (if NowWord(d) then "SYSDATETIME()" else Quote(d))
    else if CharLike(t) then Quote(d)
    else d
  }

  // ---------------------------------------------------------------------
  // add_column

  /** The column built once the name and type are accepted. The primary-key
      question is asked only while no column is primary, the identity
      question only for an integer primary key, and the default question
      only when the column is not an identity. */
  function NewColumn(cols: seq<WizColumn>, name: string, t: string, a: Answers): (c: WizColumn)
    ensures c.name == name && c.colType == t
    ensures c.nullable <==> YesByDefault(a.nullable)
    ensures c.primary <==> !HasPrimary(cols) && Yes(a.primary)
    ensures c.identity <==> c.primary && IntLike(t) && YesByDefault(a.identity)
    ensures c.identity ==> c.default.None?
    ensures c.default.Some? <==> !c.identity && Strip(a.default) != []
    ensures c.default.Some? ==> c.default.value == FormatDefault(t, Strip(a.default)) && c.default.value != []
  {
    var primary := !HasPrimary(cols) && Yes(a.primary);
    var identity := primary && IntLike(t) && YesByDefault(a.identity);
    var d := Strip(a.default);
    var default := if identity || d == [] then None else Some(FormatDefault(t, d));
    WizColumn(name, t, YesByDefault(a.nullable), primary, identity, default)
  }

  /** The invariant the wizard keeps over its column list. */
  predicate WizardOk(cols: seq<WizColumn>) {
    && (forall i :: 0 <= i < |cols| ==> ValidName(cols[i].name) && cols[i].colType != [])
    && (forall i, j :: 0 <= i < j < |cols| ==> cols[i].name != cols[j].name)
    && (forall i, j :: 0 <= i < j < |cols| ==> !(cols[i].primary && cols[j].primary))
    && (forall i :: 0 <= i < |cols| && cols[i].identity ==>
          cols[i].primary && IntLike(cols[i].colType) && cols[i].default.None?)
    && (forall i :: 0 <= i < |cols| && cols[i].default.Some? ==> cols[i].default.value != [])
  }

  /** `add_column` with one set of answers: the name and type checks in
      order, then the new column appended at the end. */
  function AddColumn(cols: seq<WizColumn>, a: Answers): (r: AddResult)
    ensures r.BadName? <==> !ValidName(Strip(a.name))
    ensures r.DuplicateName? <==> ValidName(Strip(a.name)) && NameTaken(cols, Strip(a.name))
    ensures r.BadType? <==>
      ValidName(Strip(a.name)) && !NameTaken(cols, Strip(a.name)) && ResolveType(a.typeChoice, a.customType).None?
    ensures r.Added? ==>
      && |r.cols| == |cols| + 1 && r.cols[..|cols|] == cols
      && r.cols[|cols|].name == Strip(a.name)
      && Some(r.cols[|cols|].colType) == ResolveType(a.typeChoice, a.customType)
    ensures r.Added? ==>
      && ResolveType(a.typeChoice, a.customType).Some?
      && r.cols[|cols|] == NewColumn(cols, Strip(a.name), ResolveType(a.typeChoice, a.customType).value, a)
  {
    var name := Strip(a.name);
    if !ValidName(name) then BadName
    else if NameTaken(cols, name) then DuplicateName
    else match ResolveType(a.typeChoice, a.customType)
      case None => BadType
      case Some(t) => Added(cols + [NewColumn(cols, name, t, a)])
  }

  /** A column that the checks of `add_column` would let through keeps the
      invariant when appended. */
  lemma {:induction false} AppendKeepsInvariant(cols: seq<WizColumn>, c: WizColumn)
    requires WizardOk(cols)
    requires ValidName(c.name) && c.colType != [] && !NameTaken(cols, c.name)
    requires c.primary ==> !HasPrimary(cols)
    requires c.identity ==> c.primary && IntLike(c.colType) && c.default.None?
    requires c.default.Some? ==> c.default.value != []
    ensures WizardOk(cols + [c])
  {
    var r := cols + [c];
    forall i, j | 0 <= i < j < |r|
      ensures r[i].name != r[j].name && !(r[i].primary && r[j].primary)
    {
      if j == |cols| {
        assert r[i] == cols[i];
        if r[i].primary {
          assert HasPrimary(cols);
        }
      }
    }
  }

  /** Adding a column keeps the wizard's invariant. */
  lemma AddKeepsInvariant(cols: seq<WizColumn>, a: Answers)
    requires WizardOk(cols)
    requires AddColumn(cols, a).Added?
    ensures WizardOk(AddColumn(cols, a).cols)
  {
    var name := Strip(a.name);
    var t := ResolveType(a.typeChoice, a.customType).value;
    AppendKeepsInvariant(cols, NewColumn(cols, name, t, a));
  }

  // ---------------------------------------------------------------------
  // remove_column

  /** `remove_column` given the number typed (`None` when it is not a
      number): columns are numbered from 1, any other number changes nothing. */
  function RemoveColumn(cols: seq<WizColumn>, number: Option<int>): (r: seq<WizColumn>)
    ensures number.Some? && 1 <= number.value <= |cols| ==>
      r == cols[..number.value - 1] + cols[number.value..]
    ensures !(number.Some? && 1 <= number.value <= |cols|) ==> r == cols
    ensures WizardOk(cols) ==> WizardOk(r)
  {
    match number
    case Some(n) =>
      var index := n - 1;
      if 0 <= index < |cols| then
        var r := cols[..index] + cols[index + 1..];
        assert forall i :: 0 <= i < |r| ==> r[i] == cols[if i < index then i else i + 1];
        r
      else cols
    case None => cols
  }

  // ---------------------------------------------------------------------
  // generate_sql

  /** A default counts only when it is a nonempty string (`if col['default']`). */
  predicate Truthy(d: Option<string>) {
    d.Some? && d.value != []
  }

  const INDENT: string := "    "

  const IDENTITY_CLAUSE: string := " IDENTITY(1,1)"
  const NOT_NULL_CLAUSE: string := " NOT NULL"
  const DEFAULT_KEYWORD: string := " DEFAULT "

  function IdentityClause(c: WizColumn): string {
    if c.identity then IDENTITY_CLAUSE else ""
  }

  function NullClause(c: WizColumn): string {
    if !c.nullable then NOT_NULL_CLAUSE else ""
  }

  function DefaultClause(c: WizColumn): string {
    if Truthy(c.default) then DEFAULT_KEYWORD + c.default.value else ""
  }

  /** The name and the type, as the definition starts. */
  function Body(c: WizColumn): string {
    c.name + " " + c.colType
  }

  /** One column definition, before its comma. */
  function ColumnDef(c: WizColumn): string {
    INDENT + Body(c) + IdentityClause(c) + NullClause(c) + DefaultClause(c)
  }

  /** The names of the primary-key columns, in column order. */
  function PrimaryKeys(cols: seq<WizColumn>): (r: seq<string>)
    ensures |r| <= |cols|
    ensures r == [] <==> !HasPrimary(cols)
  {
    if cols == [] then []
    else
      var rest := PrimaryKeys(cols[1..]);
      assert HasPrimary(cols) <==> cols[0].primary || HasPrimary(cols[1..]) by {
        if HasPrimary(cols[1..]) {
          var i :| 0 <= i < |cols| - 1 && cols[1..][i].primary;
          assert cols[i + 1].primary;
        }
        if HasPrimary(cols) && !cols[0].primary {
          var i :| 0 <= i < |cols| && cols[i].primary;
          assert cols[1..][i - 1].primary;
        }
      }
      (if cols[0].primary then [cols[0].name] else []) + rest
  }

  /** The key list of two column lists written one after the other. */
  lemma {:induction false} PrimaryKeysAppend(a: seq<WizColumn>, b: seq<WizColumn>)
    ensures PrimaryKeys(a + b) == PrimaryKeys(a) + PrimaryKeys(b)
    decreases |a|
  {
    if a == [] {
      assert a + b == b;
    } else {
      var ab := a + b;
      assert ab[0] == a[0] && ab[1..] == a[1..] + b;
      PrimaryKeysAppend(a[1..], b);
      assert PrimaryKeys(ab) == (if a[0].primary then [a[0].name] else []) + PrimaryKeys(a[1..] + b);
    }
  }

  /** A single column contributes its name exactly when it is primary. */
  lemma PrimaryKeysOne(c: WizColumn)
    ensures PrimaryKeys([c]) == if c.primary then [c.name] else []
  {
    assert [c][1..] == [];
  }

  /** In a list the wizard built, the key list is the name of the one primary column. */
  lemma {:induction false} PrimaryKeysOfWizard(cols: seq<WizColumn>, i: nat)
    requires WizardOk(cols)
    requires i < |cols| && cols[i].primary
    ensures PrimaryKeys(cols) == [cols[i].name]
  {
    var before, after := cols[..i], cols[i + 1..];
    assert cols == before + [cols[i]] + after;
    assert !HasPrimary(before) by {
      forall j | 0 <= j < |before| ensures !before[j].primary {
        assert before[j] == cols[j];
      }
    }
    assert !HasPrimary(after) by {
      forall j | 0 <= j < |after| ensures !after[j].primary {
        assert after[j] == cols[i + 1 + j];
      }
    }
    PrimaryKeysAppend(before + [cols[i]], after);
    PrimaryKeysAppend(before, [cols[i]]);
    PrimaryKeysOne(cols[i]);
  }

  function Header(table: string): string {
    "CREATE TABLE " + table + " ("
  }

  function PrimaryKeyLine(table: string, keys: seq<string>): string {
    INDENT + "CONSTRAINT PK_" + table + " PRIMARY KEY (" + Join(keys, ", ") + ")"
  }

  const CLOSING: string := ");"

  /** Every column definition followed by a comma. */
  function DefLines(cols: seq<WizColumn>): (r: seq<string>)
    ensures |r| == |cols|
  {
    seq(|cols|, i requires 0 <= i < |cols| => ColumnDef(cols[i]) + ",")
  }

  /** The lines of the script: header, column lines, the primary-key
      constraint or, without one, the last column line with its trailing
      commas removed, and the closing line. */
  function SqlLines(table: string, cols: seq<WizColumn>): seq<string>
    requires cols != []
  {
    var defs := [Header(table)] + DefLines(cols);
    var keys := PrimaryKeys(cols);
    (if keys != [] then defs + [PrimaryKeyLine(table, keys)]
     else defs[..|defs| - 1] + [RStripChar(defs[|defs| - 1], ',')])
    + [CLOSING]
  }

  /** `generate_sql`: no script for a table without columns. */
  function GenerateSql(table: string, cols: seq<WizColumn>): (r: Option<string>)
    ensures r.None? <==> cols == []
  {
    if cols == [] then None else Some(Join(SqlLines(table, cols), "\n"))
  }
}
