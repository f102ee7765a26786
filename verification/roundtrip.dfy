/**
 The script the table wizard writes, read back by the table populator's
 schema parser. The wizard's `CREATE TABLE` text is taken apart in the
 parser's order: the header search finds the table name, the block search
 finds the text between ` (` and the closing `);`, and the block is cut into
 the wizard's own lines, each of which reads back as `ReadBack` says.
 */
module RoundTrip {
  import opened Wrappers
  import opened Text
  import opened Schema
  import opened SchemaFacts
  import opened Wizard
  import opened LineReading

  // ---------------------------------------------------------------------
  // The frame of the statement

  const CREATE_TABLE: string := "CREATE TABLE "

  /** `SkipSpaces` stops at the end of a run of whitespace. */
  lemma {:induction false} SkipSpacesRun(s: string, i: nat, j: nat)
    requires i <= j < |s| && !IsSpace(s[j])
    requires forall p :: i <= p < j ==> IsSpace(s[p])
    ensures SkipSpaces(s, i) == j
    decreases j - i
  {
    if i < j {
      SkipSpacesRun(s, i + 1, j);
    }
  }

  /** `SkipWord` stops at the end of a run of word characters. */
  lemma {:induction false} SkipWordRun(s: string, i: nat, j: nat)
    requires i <= j < |s| && !IsWordChar(s[j])
    requires forall p :: i <= p < j ==> IsWordChar(s[p])
    ensures SkipWord(s, i) == j
    decreases j - i
  {
    if i < j {
      SkipWordRun(s, i + 1, j);
    }
  }

  /** The two keywords of the header, already in upper case. */
  lemma HeaderKeywords(s: string)
    requires |s| >= 13 && s[..13] == CREATE_TABLE
    ensures KeywordAt(s, 0, "CREATE") && KeywordAt(s, 7, "TABLE")
    ensures IsSpace(s[6]) && !IsSpace(s[7]) && IsSpace(s[12])
  {
    assert s[0..6] == CREATE_TABLE[0..6] == "CREATE";
    assert s[7..12] == CREATE_TABLE[7..12] == "TABLE";
    UpperNoLower("CREATE");
    UpperNoLower("TABLE");
    assert s[6] == CREATE_TABLE[6] && s[7] == CREATE_TABLE[7] && s[12] == CREATE_TABLE[12];
  }

  /** The header pattern matches at the very start, capturing the table name. */
  lemma HeaderAtStart(s: string, table: string)
    requires ValidName(table) && |s| > 13 + |table|
    requires s[..13] == CREATE_TABLE && s[13..13 + |table|] == table && s[13 + |table|] == ' '
    ensures HeaderAt(s, 0) == Some((13, 13 + |table|))
  {
    var e := 13 + |table|;
    HeaderKeywords(s);
    SkipSpacesRun(s, 6, 7);
    assert s[13] == table[0];
    SkipSpacesRun(s, 12, 13);
    forall p | 13 <= p < e
      ensures IsWordChar(s[p])
    {
      assert s[p] == s[13..e][p - 13];
    }
    SkipWordRun(s, 13, e);
  }

  /** The last `)` of a statement is the one of the closing line. */
  lemma ClosingParen(t: string)
    ensures LastIndexOf(t + CLOSING, ')') == |t|
  {
    var s := t + CLOSING;
    assert s[|s| - 1] == ';' && s[|s| - 2] == ')';
    assert s[..|s| - 1][|s| - 2] == ')';
  }

  /** The statement regrouped around the captured name. */
  lemma StatementShape(table: string, body: string)
    ensures Header(table) + body + CLOSING == CREATE_TABLE + (table + (" (" + (body + CLOSING)))
  {
  }

  /**
   A statement made of the wizard's header, any body and the closing `);`
   is found by both searches: the header gives back the table name and
   the block is exactly the body.
   */
  lemma StatementFound(table: string, body: string)
    requires ValidName(table)
    ensures FindName(Header(table) + body + CLOSING, 0) == Some(table)
    ensures FindBlock(Header(table) + body + CLOSING, 0) == Some(body)
  {
    var s := Header(table) + body + CLOSING;
    var e := 13 + |table|;
    StatementShape(table, body);
    assert s[..13] == CREATE_TABLE;
    assert s[13..e] == table;
    assert s[e] == ' ' && s[e + 1] == '(';
    HeaderAtStart(s, table);
    SkipSpacesRun(s, e, e + 1);
    ClosingParen(Header(table) + body);
    assert s[e + 2..|s| - 2] == body;
  }

  /** The parser's verdict on such a statement: its name, and the columns of the body's lines. */
  lemma StatementParsed(table: string, body: string)
    requires ValidName(table)
    ensures ParseSchema(Header(table) + body + CLOSING) ==
      Some(TableSchema(table, ParseLines(SplitOn(body, '\n'))))
  {
    StatementFound(table, body);
  }

  // ---------------------------------------------------------------------
  // The lines of the block

  /** What the round trip needs of the wizard's table: a valid table name and at least one column, each of them safe. */
  predicate ScriptSafe(table: string, cols: seq<WizColumn>) {
    ValidName(table) && cols != [] && forall i :: 0 <= i < |cols| ==> ColumnSafe(cols[i])
  }

  /** Whether the line of column `i` ends in a comma: every line but the last, and the last too when the key constraint follows. */
  predicate HasComma(cols: seq<WizColumn>, pk: bool, i: int) {
    i < |cols| - 1 || pk
  }

  /** The column lines of the script, in column order. */
  function ColumnLines(cols: seq<WizColumn>, pk: bool): (r: seq<string>)
    ensures |r| == |cols|
  {
    seq(|cols|, i requires 0 <= i < |cols| => ColumnLine(cols[i], HasComma(cols, pk, i)))
  }

  /** Each column paired with whether its line ends in a comma. */
  function Tagged(cols: seq<WizColumn>, pk: bool): (r: seq<(WizColumn, bool)>)
    ensures |r| == |cols|
  {
    seq(|cols|, i requires 0 <= i < |cols| => (cols[i], HasComma(cols, pk, i)))
  }

  function ReadBackTagged(t: (WizColumn, bool)): Option<Column> {
    ReadBack(t.0, t.1)
  }

  /** The columns the parser is expected to recover, column by column. */
  function Expected(cols: seq<WizColumn>, pk: bool): seq<Column> {
    FilterMap(ReadBackTagged, Tagged(cols, pk))
  }

  /** The lines between the header and the closing line. */
  function Middle(table: string, cols: seq<WizColumn>): (r: seq<string>)
    ensures |r| >= |cols|
  {
    var keys := PrimaryKeys(cols);
    ColumnLines(cols, keys != []) + (if keys != [] then [PrimaryKeyLine(table, keys)] else [])
  }

  /** With a key constraint, every definition keeps its comma. */
  lemma DefLinesWithKey(cols: seq<WizColumn>)
    ensures DefLines(cols) == ColumnLines(cols, true)
  {
  }

  /** Without one, the last definition loses its comma and nothing else. */
  lemma DefLinesWithoutKey(cols: seq<WizColumn>)
    requires cols != [] && EndsWithoutComma(cols[|cols| - 1])
    ensures DefLines(cols)[..|cols| - 1] + [RStripChar(DefLines(cols)[|cols| - 1], ',')] == ColumnLines(cols, false)
  {
    var n := |cols|;
    var d := DefLines(cols);
    var lines := ColumnLines(cols, false);
    LastLineStrip(cols[n - 1]);
    assert lines[n - 1] == ColumnDef(cols[n - 1]);
    assert forall i :: 0 <= i < n - 1 ==> d[i] == lines[i];
    ReplaceLast(d, lines, RStripChar(d[n - 1], ','));
  }

  /** A sequence that agrees with `ys` up to its last element, with that element replaced by the last of `ys`. */
  lemma ReplaceLast<T>(xs: seq<T>, ys: seq<T>, y: T)
    requires |xs| == |ys| >= 1 && y == ys[|ys| - 1]
    requires forall i :: 0 <= i < |xs| - 1 ==> xs[i] == ys[i]
    ensures xs[..|xs| - 1] + [y] == ys
  {
  }

  /** Dropping the last element of a sequence behind a head. */
  lemma FrontOf<T>(h: T, d: seq<T>, z: T, x: T)
    requires |d| >= 1
    ensures ([h] + d)[..|d|] + [x] + [z] == [h] + (d[..|d| - 1] + [x]) + [z]
    ensures ([h] + d)[|d|] == d[|d| - 1]
  {
  }

  lemma SqlLinesWithKey(table: string, cols: seq<WizColumn>)
    requires PrimaryKeys(cols) != []
    ensures SqlLines(table, cols) == [Header(table)] + Middle(table, cols) + [CLOSING]
  {
    DefLinesWithKey(cols);
    Regroup4(Header(table), ColumnLines(cols, true), PrimaryKeyLine(table, PrimaryKeys(cols)), CLOSING);
  }

  lemma Regroup4<T>(h: T, a: seq<T>, p: T, z: T)
    ensures [h] + a + [p] + [z] == [h] + (a + [p]) + [z]
  {
  }

  lemma SqlLinesWithoutKey(table: string, cols: seq<WizColumn>)
    requires cols != [] && EndsWithoutComma(cols[|cols| - 1]) && PrimaryKeys(cols) == []
    ensures SqlLines(table, cols) == [Header(table)] + ColumnLines(cols, false) + [CLOSING]
  {
    var d := DefLines(cols);
    var x := RStripChar(d[|d| - 1], ',');
    FrontOf(Header(table), d, CLOSING, x);
    DefLinesWithoutKey(cols);
  }

  /** The wizard's lines: the header, the middle lines, the closing line. */
  lemma SqlLinesShape(table: string, cols: seq<WizColumn>)
    requires cols != [] && EndsWithoutComma(cols[|cols| - 1])
    ensures SqlLines(table, cols) == [Header(table)] + Middle(table, cols) + [CLOSING]
  {
    if PrimaryKeys(cols) != [] {
      SqlLinesWithKey(table, cols);
    } else {
      SqlLinesWithoutKey(table, cols);
      MiddleWithoutKey(table, cols);
    }
  }

  lemma MiddleWithoutKey(table: string, cols: seq<WizColumn>)
    requires PrimaryKeys(cols) == []
    ensures Middle(table, cols) == ColumnLines(cols, false)
  {
    assert ColumnLines(cols, false) + [] == ColumnLines(cols, false);
  }

  // ---------------------------------------------------------------------
  // The script as one text

  /** The text between the header and the closing line: one line break, the middle lines, one line break. */
  function BlockText(table: string, cols: seq<WizColumn>): string {
    "\n" + Join(Middle(table, cols), "\n") + "\n"
  }

  lemma Regroup5(h: string, j: string, z: string)
    ensures h + "\n" + j + "\n" + z == h + ("\n" + j + "\n") + z
  {
  }

  /** The script is the header, the body and the closing line. */
  lemma ScriptShape(table: string, cols: seq<WizColumn>)
    requires cols != [] && EndsWithoutComma(cols[|cols| - 1])
    ensures GenerateSql(table, cols) == Some(Header(table) + BlockText(table, cols) + CLOSING)
  {
    SqlLinesShape(table, cols);
    JoinFramed(Header(table), Middle(table, cols), CLOSING, "\n");
    Regroup5(Header(table), Join(Middle(table, cols), "\n"), CLOSING);
  }

  /** The primary-key names are column names. */
  lemma {:induction false} KeysNoBreak(cols: seq<WizColumn>)
    requires forall i :: 0 <= i < |cols| ==> '\n' !in cols[i].name
    ensures forall j :: 0 <= j < |PrimaryKeys(cols)| ==> '\n' !in PrimaryKeys(cols)[j]
  {
    if cols != [] {
      KeysNoBreak(cols[1..]);
    }
  }

  lemma KeyLineNoBreak(table: string, cols: seq<WizColumn>)
    requires ValidName(table) && forall i :: 0 <= i < |cols| ==> ValidName(cols[i].name)
    ensures '\n' !in PrimaryKeyLine(table, PrimaryKeys(cols))
  {
    forall i | 0 <= i < |cols|
      ensures '\n' !in cols[i].name
    {
      NameNoSpace(cols[i].name);
    }
    KeysNoBreak(cols);
    JoinAvoids(PrimaryKeys(cols), ", ", '\n');
    NameNoSpace(table);
    KeyLineParts(table, Join(PrimaryKeys(cols), ", "));
  }

  lemma KeyLineParts(table: string, joined: string)
    requires '\n' !in table && '\n' !in joined
    ensures '\n' !in INDENT + "CONSTRAINT PK_" + table + " PRIMARY KEY (" + joined + ")"
  {
    assert '\n' !in INDENT;
    assert '\n' !in "CONSTRAINT PK_";
    assert '\n' !in " PRIMARY KEY (";
  }

  lemma MiddleNoBreak(table: string, cols: seq<WizColumn>)
    requires ScriptSafe(table, cols)
    ensures forall i :: 0 <= i < |Middle(table, cols)| ==> '\n' !in Middle(table, cols)[i]
  {
    var pk := PrimaryKeys(cols) != [];
    forall i | 0 <= i < |cols|
      ensures '\n' !in ColumnLines(cols, pk)[i]
    {
      LineHasNoBreak(cols[i], HasComma(cols, pk, i));
    }
    if pk {
      KeyLineNoBreak(table, cols);
    }
  }

  lemma EmptyEnds(a: string, b: string, c: string)
    ensures "" + a + b + c + "" == a + b + c
  {
  }

  /** Lines without breaks, framed by two breaks, split into an empty line, the lines and an empty line. */
  lemma FramedSplit(m: seq<string>)
    requires |m| >= 1 && forall i :: 0 <= i < |m| ==> '\n' !in m[i]
    ensures SplitOn("\n" + Join(m, "\n") + "\n", '\n') == [""] + m + [""]
  {
    var framed := [""] + m + [""];
    JoinFramed("", m, "", "\n");
    EmptyEnds("\n", Join(m, "\n"), "\n");
    assert ['\n'] == "\n";
    forall i | 0 <= i < |framed|
      ensures '\n' !in framed[i]
    {
      if 0 < i < |framed| - 1 {
        assert framed[i] == m[i - 1];
      }
    }
    SplitOnJoin(framed, '\n');
  }

  /** The block splits into an empty line, the middle lines and another empty line. */
  lemma BlockLines(table: string, cols: seq<WizColumn>)
    requires ScriptSafe(table, cols)
    ensures SplitOn(BlockText(table, cols), '\n') == [""] + Middle(table, cols) + [""]
  {
    MiddleNoBreak(table, cols);
    FramedSplit(Middle(table, cols));
  }

  // ---------------------------------------------------------------------
  // Reading the lines back

  /** The key constraint names `CONSTRAINT` right after the indent. */
  lemma KeyLineSkipped(table: string, keys: seq<string>)
    ensures ParseLine(PrimaryKeyLine(table, keys)).None?
  {
    var head := INDENT + "CONSTRAINT PK_";
    var line := PrimaryKeyLine(table, keys);
    var rest := table + " PRIMARY KEY (" + Join(keys, ", ") + ")";
    assert line == head + rest;
    UpperAppend(head, rest);
    UpperNoLower(head);
    assert Upper(line)[4..14] == head[4..14] == "CONSTRAINT";
    assert OccursAt(Upper(line), "CONSTRAINT", 4);
    LineVerdict(line);
  }

  /** The empty lines around the block contribute nothing. */
  lemma FramedRead(m: seq<string>)
    ensures ParseLines([""] + m + [""]) == ParseLines(m)
  {
    ParseLinesAppend([""] + m, [""]);
    ParseLinesAppend([""], m);
    assert ParseLine("").None?;
    assert ParseLines([""]) == [];
  }

  /** Every column line reads back as its column, in order. */
  lemma ColumnLinesRead(cols: seq<WizColumn>, pk: bool)
    requires forall i :: 0 <= i < |cols| ==> ColumnSafe(cols[i])
    ensures ParseLines(ColumnLines(cols, pk)) == Expected(cols, pk)
  {
    var lines := ColumnLines(cols, pk);
    var tagged := Tagged(cols, pk);
    forall i | 0 <= i < |cols|
      ensures ParseLine(lines[i]) == ReadBackTagged(tagged[i])
    {
      LineReadsBack(cols[i], HasComma(cols, pk, i));
    }
    FilterMapPointwise(ParseLine, lines, ReadBackTagged, tagged);
  }

  /** The middle lines read back as the expected columns; the key constraint adds none. */
  lemma MiddleRead(table: string, cols: seq<WizColumn>)
    requires forall i :: 0 <= i < |cols| ==> ColumnSafe(cols[i])
    ensures ParseLines(Middle(table, cols)) == Expected(cols, HasPrimary(cols))
  {
    var keys := PrimaryKeys(cols);
    var pk := keys != [];
    ColumnLinesRead(cols, pk);
    if pk {
      ParseLinesAppend(ColumnLines(cols, pk), [PrimaryKeyLine(table, keys)]);
      KeyLineSkipped(table, keys);
      assert ParseLines([PrimaryKeyLine(table, keys)]) == [];
    } else {
      MiddleWithoutKey(table, cols);
    }
  }

  /**
   The round trip: the schema parser, run on the script the wizard writes
   for a safe table, finds the table's name and, in order, one column for
   every column that is not an identity column, with the column's name,
   its upper-cased type (keeping the line's comma when the column has no
   clause after the type), its nullability, and whether it has a default.
   */
  lemma ScriptReadsBack(table: string, cols: seq<WizColumn>)
    requires ScriptSafe(table, cols)
    ensures GenerateSql(table, cols).Some?
    ensures ParseSchema(GenerateSql(table, cols).value) ==
      Some(TableSchema(table, Expected(cols, HasPrimary(cols))))
  {
    ScriptShape(table, cols);
    StatementParsed(table, BlockText(table, cols));
    BlockLines(table, cols);
    FramedRead(Middle(table, cols));
    MiddleRead(table, cols);
  }

  /** Without identity columns no column is dropped, and each keeps its name, flags and upper-cased type. */
  lemma ExpectedWithoutIdentity(cols: seq<WizColumn>, pk: bool)
    requires forall i :: 0 <= i < |cols| ==> !cols[i].identity
    ensures |Expected(cols, pk)| == |cols|
    ensures forall i :: 0 <= i < |cols| ==>
      && Expected(cols, pk)[i].name == cols[i].name
      && StartsWith(Expected(cols, pk)[i].colType, Upper(cols[i].colType))
      && Expected(cols, pk)[i].nullable == cols[i].nullable
      && Expected(cols, pk)[i].hasDefault == Truthy(cols[i].default)
  {
    var tagged := Tagged(cols, pk);
    FilterMapAllSome(ReadBackTagged, tagged);
    forall i | 0 <= i < |cols|
      ensures StartsWith(ReadBackTagged(tagged[i]).value.colType, Upper(cols[i].colType))
    {
      var u := Upper(cols[i].colType);
      var t := ReadBackTagged(tagged[i]).value.colType;
      assert t[..|u|] == u;
    }
  }

  /**
   Without identity columns the parser finds as many columns as the wizard
   defined, column `i` with the wizard's name, nullability and default
   flag, and its type upper-cased.
   */
  lemma PlainColumnsReadBack(table: string, cols: seq<WizColumn>)
    requires ScriptSafe(table, cols)
    requires forall i :: 0 <= i < |cols| ==> !cols[i].identity
    ensures GenerateSql(table, cols).Some? && ParseSchema(GenerateSql(table, cols).value).Some?
    ensures var parsed := ParseSchema(GenerateSql(table, cols).value).value.columns;
      && |parsed| == |cols|
      && forall i :: 0 <= i < |cols| ==>
           && parsed[i].name == cols[i].name
           && StartsWith(parsed[i].colType, Upper(cols[i].colType))
           && parsed[i].nullable == cols[i].nullable
           && parsed[i].hasDefault == Truthy(cols[i].default)
  {
    ScriptReadsBack(table, cols);
    ExpectedWithoutIdentity(cols, HasPrimary(cols));
  }
}
