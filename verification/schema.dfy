/**
 The schema parser of the table populator: it reads the text of one
 `CREATE TABLE` statement and recovers the table name and the column
 records the value generator works from. The two regular-expression searches
 of the source are modelled as scans that try every start position in order,
 and the column block is cut into physical lines that are judged one at a time.
 */
module Schema {
  import opened Wrappers
  import opened Text

  /** One column record: `name`, `type`, `nullable`, `has_default`. */
  datatype Column = Column(name: string, colType: string, nullable: bool, hasDefault: bool)

  /** The parser's result without the file path, which is carried along only for messages. */
  datatype TableSchema = TableSchema(tableName: string, columns: seq<Column>)

  // ---------------------------------------------------------------------
  // The regular-expression scans

  /** The upper-case keyword `kw` matches at `i`, ignoring ASCII case. */
  predicate KeywordAt(s: string, i: nat, kw: string) {
    i + |kw| <= |s| && Upper(s[i..i + |kw|]) == kw
  }

  /** The end of the run of whitespace (`\s*`) that starts at `i`. */
  function SkipSpaces(s: string, i: nat): (j: nat)
    requires i <= |s|
    ensures i <= j <= |s|
    ensures forall p :: i <= p < j ==> IsSpace(s[p])
    ensures j < |s| ==> !IsSpace(s[j])
    decreases |s| - i
  {
    if i < |s| && IsSpace(s[i]) then SkipSpaces(s, i + 1) else i
  }

  /** The end of the run of word characters (`\w*`) that starts at `i`. */
  function SkipWord(s: string, i: nat): (j: nat)
    requires i <= |s|
    ensures i <= j <= |s|
    ensures forall p :: i <= p < j ==> IsWordChar(s[p])
    ensures j < |s| ==> !IsWordChar(s[j])
    decreases |s| - i
  {
    if i < |s| && IsWordChar(s[i]) then SkipWord(s, i + 1) else i
  }

  /**
   `CREATE\s+TABLE\s+(\w+)` tried at position `i`, ignoring case; on success
   the bounds of the captured name. Every repetition in the pattern is
   followed by a character its class excludes, so the greedy runs never
   give anything back and the longest run is the only match.
   */
  function HeaderAt(s: string, i: nat): (r: Option<(nat, nat)>)
    requires i <= |s|
    ensures r.Some? ==> i + 13 <= r.value.0 < r.value.1 <= |s|
    ensures r.Some? ==> forall p :: r.value.0 <= p < r.value.1 ==> IsWordChar(s[p])
    ensures r.Some? && r.value.1 < |s| ==> !IsWordChar(s[r.value.1])
  {
    if !KeywordAt(s, i, "CREATE") then None else
    var j := SkipSpaces(s, i + 6);
    if j == i + 6 || !KeywordAt(s, j, "TABLE") then None else
    var k := SkipSpaces(s, j + 5);
    if k == j + 5 then None else
    var e := SkipWord(s, k);
    if e == k then None else Some((k, e))
  }

  /**
   `CREATE\s+TABLE\s+\w+\s*\((.*)\)` tried at position `i`, ignoring case and
   letting `.` match newlines: the group runs from just after the opening
   parenthesis to the LAST `)` of the whole text.
   */
  function BlockAt(s: string, i: nat): (r: Option<string>)
    requires i <= |s|
    ensures r.Some? ==> HeaderAt(s, i).Some?
  {
    match HeaderAt(s, i)
    case None => None
    case Some((_, e)) =>
      var p := SkipSpaces(s, e);
      var q := LastIndexOf(s, ')');
      if p < |s| && s[p] == '(' && p < q then Some(s[p + 1..q]) else None
  }

  /** `re.search` for the header: the name captured at the first position that matches. */
  function FindName(s: string, i: nat): (r: Option<string>)
    requires i <= |s|
    ensures r.None? <==> forall p :: i <= p <= |s| ==> HeaderAt(s, p).None?
    ensures r.Some? ==> r.value != [] && forall c :: c in r.value ==> IsWordChar(c)
    decreases |s| - i
  {
    match HeaderAt(s, i)
    case Some((k, e)) => Some(s[k..e])
    case None => if i == |s| then None else FindName(s, i + 1)
  }

  /** `p` is the first position from `i` on where the header matches. */
  ghost predicate FirstHeader(s: string, i: nat, p: nat)
    requires p <= |s|
  {
    i <= p && HeaderAt(s, p).Some? && forall q :: i <= q < p ==> HeaderAt(s, q).None?
  }

  function NameAt(s: string, p: nat): string
    requires p <= |s| && HeaderAt(s, p).Some?
  {
    s[HeaderAt(s, p).value.0..HeaderAt(s, p).value.1]
  }

  /** `re.search` for the column block: the group of the first position that matches. */
  function FindBlock(s: string, i: nat): Option<string>
    requires i <= |s|
    decreases |s| - i
  {
    match BlockAt(s, i)
    case Some(b) => Some(b)
    case None => if i == |s| then None else FindBlock(s, i + 1)
  }

  /** The block search fails exactly when the block pattern matches at no position. */
  lemma {:induction false} FindBlockFails(s: string, i: nat)
    requires i <= |s|
    ensures FindBlock(s, i).None? <==> forall p :: i <= p <= |s| ==> BlockAt(s, p).None?
    decreases |s| - i
  {
    if BlockAt(s, i).None? && i < |s| {
      FindBlockFails(s, i + 1);
      assert (forall p :: i <= p <= |s| ==> BlockAt(s, p).None?) <==>
             (forall p :: i + 1 <= p <= |s| ==> BlockAt(s, p).None?) by {
        if forall p :: i + 1 <= p <= |s| ==> BlockAt(s, p).None? {
          forall p | i <= p <= |s|
            ensures BlockAt(s, p).None?
          {
            if p > i {
              assert i + 1 <= p;
            }
          }
        }
      }
    }
  }

  /** The name found is the one captured at the first matching position. */
  lemma {:induction false} FindNameIsFirst(s: string, i: nat)
    requires i <= |s|
    ensures FindName(s, i).Some? ==>
      exists p :: i <= p <= |s| && FirstHeader(s, i, p) && FindName(s, i).value == NameAt(s, p)
    decreases |s| - i
  {
    if HeaderAt(s, i).Some? {
      assert FirstHeader(s, i, i);
    } else if i < |s| {
      FindNameIsFirst(s, i + 1);
      if FindName(s, i + 1).Some? {
        var p :| i + 1 <= p <= |s| && FirstHeader(s, i + 1, p) && FindName(s, i + 1).value == NameAt(s, p);
        assert FirstHeader(s, i, p);
      }
    }
  }

  // ---------------------------------------------------------------------
  // Lines and columns

  /**
   What one physical line of the block contributes: nothing, or one column.
   The line is trimmed first; comment lines and lines naming `PRIMARY KEY` or
   `CONSTRAINT` are skipped, so are lines with fewer than two tokens and,
   last, lines naming `IDENTITY`.
   */
  function ParseLine(raw: string): Option<Column> {
    var line := Strip(raw);
    var up := Upper(line);
    if line == [] || StartsWith(line, "--") || Contains(up, "PRIMARY KEY") || Contains(up, "CONSTRAINT") then
      None
    else
      var parts := Split(line);
      if |parts| < 2 || Contains(up, "IDENTITY") then None
      else
        Some(Column(StripChar(parts[0], ','), Upper(parts[1]),
                    !Contains(up, "NOT NULL"), Contains(up, "DEFAULT")))
  }

  /** The columns the lines contribute, in line order. */
  function ParseLines(lines: seq<string>): seq<Column> {
    FilterMap(ParseLine, lines)
  }

  /**
   `parse_table_schema` on the content of a file: no header gives `None`;
   a header without a parenthesised block gives the name and no columns.
   */
  function ParseSchema(content: string): (r: Option<TableSchema>)
    ensures r.None? <==> forall p :: 0 <= p <= |content| ==> HeaderAt(content, p).None?
    ensures r.Some? ==> Some(r.value.tableName) == FindName(content, 0)
    ensures r.Some? && FindBlock(content, 0).None? ==> r.value.columns == []
    ensures r.Some? && FindBlock(content, 0).Some? ==>
      r.value.columns == ParseLines(SplitOn(FindBlock(content, 0).value, '\n'))
  {
    match FindName(content, 0)
    case None => None
    case Some(name) =>
      var columns :=
        match FindBlock(content, 0)
        case None => []
        case Some(block) => ParseLines(SplitOn(block, '\n'));
      Some(TableSchema(name, columns))
  }
}

module SchemaFacts {
  import opened Wrappers
  import opened Text
  import opened Schema

  /** The parser handles the lines independently and keeps their order. */
  lemma ParseLinesAppend(a: seq<string>, b: seq<string>)
    ensures ParseLines(a + b) == ParseLines(a) + ParseLines(b)
  {
    FilterMapAppend(ParseLine, a, b);
  }

  /** Whether a line is passed over, judged on the line as read from the file. */
  predicate Skipped(raw: string) {
    var up := Upper(raw);
    || StartsWith(Strip(raw), "--")
    || Contains(up, "PRIMARY KEY")
    || Contains(up, "CONSTRAINT")
    || Contains(up, "IDENTITY")
    || |Split(raw)| < 2
  }

  /**
   A line yields no column exactly when it is a comment, names a table
   constraint or an identity column, or has fewer than two tokens; any other
   line yields one column whose name is its first token without commas,
   whose type is its upper-cased second token, and whose flags say whether
   the line mentions `NOT NULL` and `DEFAULT` in any letter case.
   */
  lemma {:induction false} LineVerdict(raw: string)
    ensures ParseLine(raw).None? <==> Skipped(raw)
    ensures ParseLine(raw).Some? ==>
      var parts := Split(raw);
      ParseLine(raw).value == Column(StripChar(parts[0], ','), Upper(parts[1]),
                                     !Contains(Upper(raw), "NOT NULL"),
                                     Contains(Upper(raw), "DEFAULT"))
  {
    var line := Strip(raw);
    var up := Upper(line);
    SplitStripped(raw);
    StrippedKeywords(raw);
    if line == [] {
      assert Split(line) == [];
    }
  }

  /** The keyword tests give the same answers on the trimmed and on the raw line. */
  lemma StrippedKeywords(raw: string)
    ensures Contains(Upper(Strip(raw)), "PRIMARY KEY") == Contains(Upper(raw), "PRIMARY KEY")
    ensures Contains(Upper(Strip(raw)), "CONSTRAINT") == Contains(Upper(raw), "CONSTRAINT")
    ensures Contains(Upper(Strip(raw)), "IDENTITY") == Contains(Upper(raw), "IDENTITY")
    ensures Contains(Upper(Strip(raw)), "NOT NULL") == Contains(Upper(raw), "NOT NULL")
    ensures Contains(Upper(Strip(raw)), "DEFAULT") == Contains(Upper(raw), "DEFAULT")
  {
    StrippedKeyword(raw, "PRIMARY KEY");
    StrippedKeyword(raw, "CONSTRAINT");
    StrippedKeyword(raw, "IDENTITY");
    StrippedKeyword(raw, "NOT NULL");
    StrippedKeyword(raw, "DEFAULT");
  }

  /** The parser's keywords, all of which begin and end with a letter. */
  predicate IsKeyword(k: string) {
    k == "PRIMARY KEY" || k == "CONSTRAINT" || k == "IDENTITY" || k == "NOT NULL" || k == "DEFAULT"
  }

  lemma StrippedKeyword(raw: string, k: string)
    requires IsKeyword(k)
    ensures Contains(Upper(Strip(raw)), k) == Contains(Upper(raw), k)
  {
    assert |k| > 0 && IsLetter(k[0]) && IsLetter(k[|k| - 1]);
    ContainsStripped(raw, k);
  }

  /** One physical line is judged as a whole: a `CONSTRAINT` anywhere on it hides every column. */
  lemma {:induction false} OneLineWithConstraint(block: string)
    requires '\n' !in block
    requires Contains(Upper(block), "CONSTRAINT")
    ensures ParseLines(SplitOn(block, '\n')) == []
  {
    SplitOnPrefix(block, [], '\n');
    assert SplitOn([], '\n') == [""];
    assert block + [] == block + "" == block;
    assert SplitOn(block, '\n') == [block];
    LineVerdict(block);
    assert ParseLine(block).None?;
  }

  /**
   A statement whose column block sits on one line together with a
   `CONSTRAINT` clause parses to its table name and no columns at all.
   */
  lemma OneLineStatement(content: string, block: string)
    requires FindBlock(content, 0) == Some(block)
    requires '\n' !in block && Contains(Upper(block), "CONSTRAINT")
    ensures ParseSchema(content).Some?
    ensures ParseSchema(content).value.columns == []
  {
    FindBlockFails(content, 0);
    var p :| 0 <= p <= |content| && BlockAt(content, p).Some?;
    assert HeaderAt(content, p).Some?;
    OneLineWithConstraint(block);
  }
}
