/**
 One column definition line written by the wizard, read back by the schema
 parser. The parser looks at a line through three lenses: which keywords
 its upper-cased text contains, its first two whitespace tokens, and
 whether it starts with `--`. Each lens is worked out on the pieces the
 wizard glues together.
 */
module LineReading {
  import opened Wrappers
  import opened Text
  import opened Schema
  import opened SchemaFacts
  import opened Wizard

  /** None of the parser's keywords occurs in `s`. */
  predicate Clean(s: string) {
    && !Contains(s, "PRIMARY KEY") && !Contains(s, "CONSTRAINT") && !Contains(s, "IDENTITY")
    && !Contains(s, "NOT NULL") && !Contains(s, "DEFAULT")
  }

  /**
   What a column must look like for its line to read back: a valid name, a
   single-token type not ending in a comma, no keyword spelled by the name
   and type themselves, and a default on one line, free of keywords and not
   ending in a comma.
   */
  predicate ColumnSafe(c: WizColumn) {
    && ValidName(c.name)
    && c.colType != [] && NoSpace(c.colType)
    && EndsWithoutComma(c)
    && Clean(Upper(Body(c)))
    && (Truthy(c.default) ==> '\n' !in c.default.value && Clean(Upper(c.default.value)))
  }

  /** The definition of `c` does not itself end in a comma. */
  predicate EndsWithoutComma(c: WizColumn) {
    && c.colType != [] && c.colType[|c.colType| - 1] != ','
    && (Truthy(c.default) ==> c.default.value[|c.default.value| - 1] != ',')
  }

  /** The line `generate_sql` writes for a column, with or without its comma. */
  function ColumnLine(c: WizColumn, comma: bool): string {
    ColumnDef(c) + (if comma then "," else "")
  }

  /** Nothing follows the type on the definition. */
  predicate Bare(c: WizColumn) {
    !c.identity && c.nullable && !Truthy(c.default)
  }

  /** The keyword `k` is written into the definition of `c`. */
  predicate Mentions(c: WizColumn, k: string) {
    || (k == "IDENTITY" && c.identity)
    || (k == "NOT NULL" && !c.nullable)
    || (k == "DEFAULT" && Truthy(c.default))
  }

  /**
   The column the parser reads back from the line of `c`: none for an
   identity column; otherwise the same name, nullability and default flag,
   and the upper-cased type, which keeps the line's comma when nothing
   stands between the type and the comma.
   */
  function ReadBack(c: WizColumn, comma: bool): Option<Column> {
    if c.identity then None
    else Some(Column(c.name, Upper(c.colType) + (if comma && Bare(c) then "," else ""),
                     c.nullable, Truthy(c.default)))
  }

  // ---------------------------------------------------------------------
  // The keyword lens

  lemma IdentityClauseKeywords()
    ensures Upper(IDENTITY_CLAUSE) == IDENTITY_CLAUSE
    ensures Contains(IDENTITY_CLAUSE, "IDENTITY")
    ensures !Contains(IDENTITY_CLAUSE, "PRIMARY KEY") && !Contains(IDENTITY_CLAUSE, "CONSTRAINT")
    ensures !Contains(IDENTITY_CLAUSE, "NOT NULL") && !Contains(IDENTITY_CLAUSE, "DEFAULT")
  {
    UpperNoLower(IDENTITY_CLAUSE);
    assert OccursAt(IDENTITY_CLAUSE, "IDENTITY", 1);
    IdentityClauseLacks1();
    IdentityClauseLacks2();
  }

  lemma IdentityClauseLacks1()
    ensures !Contains(IDENTITY_CLAUSE, "PRIMARY KEY") && !Contains(IDENTITY_CLAUSE, "CONSTRAINT")
  {
    MissingChar(IDENTITY_CLAUSE, "PRIMARY KEY", 'K');
    MissingChar(IDENTITY_CLAUSE, "CONSTRAINT", 'C');
  }

  lemma IdentityClauseLacks2()
    ensures !Contains(IDENTITY_CLAUSE, "NOT NULL") && !Contains(IDENTITY_CLAUSE, "DEFAULT")
  {
    MissingChar(IDENTITY_CLAUSE, "NOT NULL", 'O');
    MissingChar(IDENTITY_CLAUSE, "DEFAULT", 'F');
  }

  lemma NullClauseKeywords()
    ensures Upper(NOT_NULL_CLAUSE) == NOT_NULL_CLAUSE
    ensures Contains(NOT_NULL_CLAUSE, "NOT NULL")
    ensures !Contains(NOT_NULL_CLAUSE, "PRIMARY KEY") && !Contains(NOT_NULL_CLAUSE, "CONSTRAINT")
    ensures !Contains(NOT_NULL_CLAUSE, "IDENTITY") && !Contains(NOT_NULL_CLAUSE, "DEFAULT")
  {
    UpperNoLower(NOT_NULL_CLAUSE);
    assert OccursAt(NOT_NULL_CLAUSE, "NOT NULL", 1);
    NullClauseLacks1();
    NullClauseLacks2();
  }

  lemma NullClauseLacks1()
    ensures !Contains(NOT_NULL_CLAUSE, "PRIMARY KEY") && !Contains(NOT_NULL_CLAUSE, "CONSTRAINT")
  {
    MissingChar(NOT_NULL_CLAUSE, "PRIMARY KEY", 'K');
    MissingChar(NOT_NULL_CLAUSE, "CONSTRAINT", 'C');
  }

  lemma NullClauseLacks2()
    ensures !Contains(NOT_NULL_CLAUSE, "IDENTITY") && !Contains(NOT_NULL_CLAUSE, "DEFAULT")
  {
    MissingChar(NOT_NULL_CLAUSE, "IDENTITY", 'I');
    MissingChar(NOT_NULL_CLAUSE, "DEFAULT", 'D');
  }

  lemma DefaultKeywordKeywords()
    ensures Upper(DEFAULT_KEYWORD) == DEFAULT_KEYWORD
    ensures Contains(DEFAULT_KEYWORD, "DEFAULT")
    ensures !Contains(DEFAULT_KEYWORD, "PRIMARY KEY") && !Contains(DEFAULT_KEYWORD, "CONSTRAINT")
    ensures !Contains(DEFAULT_KEYWORD, "IDENTITY") && !Contains(DEFAULT_KEYWORD, "NOT NULL")
  {
    UpperNoLower(DEFAULT_KEYWORD);
    assert OccursAt(DEFAULT_KEYWORD, "DEFAULT", 1);
    DefaultKeywordLacks1();
    DefaultKeywordLacks2();
  }

  lemma DefaultKeywordLacks1()
    ensures !Contains(DEFAULT_KEYWORD, "PRIMARY KEY") && !Contains(DEFAULT_KEYWORD, "CONSTRAINT")
  {
    MissingChar(DEFAULT_KEYWORD, "PRIMARY KEY", 'K');
    MissingChar(DEFAULT_KEYWORD, "CONSTRAINT", 'C');
  }

  lemma DefaultKeywordLacks2()
    ensures !Contains(DEFAULT_KEYWORD, "IDENTITY") && !Contains(DEFAULT_KEYWORD, "NOT NULL")
  {
    MissingChar(DEFAULT_KEYWORD, "IDENTITY", 'I');
    MissingChar(DEFAULT_KEYWORD, "NOT NULL", 'O');
  }

  /** A keyword cannot run from the text before a clause into the clause:
      every clause opens with a blank and a letter no keyword puts after a blank. */
  lemma ClauseSeam(a: string, b: string, k: string)
    requires IsKeyword(k)
    requires |b| >= 3 && b[0] == ' ' && (b[1] == 'I' || b[1] == 'D' || (b[1] == 'N' && b[2] == 'O'))
    ensures NoStraddle(a, b, k)
  {
    if k == "PRIMARY KEY" {
      SpaceHeadMismatch(a, b, k, 7, 1);
    } else if k == "NOT NULL" {
      if b[1] == 'N' {
        SpaceHeadMismatch(a, b, k, 3, 2);
      } else {
        SpaceHeadMismatch(a, b, k, 3, 1);
      }
    } else {
      NoStraddleAtHead(a, b, k);
    }
  }

  /** Nor can a keyword run from ` DEFAULT ` into the default value. */
  lemma DefaultValueSeam(v: string, k: string)
    requires IsKeyword(k)
    ensures NoStraddle(DEFAULT_KEYWORD, v, k)
  {
    if k == "PRIMARY KEY" {
      SpaceTailMismatch(DEFAULT_KEYWORD, v, k, 7, 0);
    } else if k == "NOT NULL" {
      SpaceTailMismatch(DEFAULT_KEYWORD, v, k, 3, 0);
    } else {
      NoStraddleAtTail(DEFAULT_KEYWORD, v, k);
    }
  }

  /** The default clause names `DEFAULT` and no other keyword. */
  lemma DefaultClauseKeyword(c: WizColumn, k: string)
    requires IsKeyword(k) && Truthy(c.default) && Clean(Upper(c.default.value))
    ensures Contains(Upper(DefaultClause(c)), k) <==> k == "DEFAULT"
  {
    var v := Upper(c.default.value);
    UpperAppend(DEFAULT_KEYWORD, c.default.value);
    DefaultKeywordKeywords();
    DefaultValueSeam(v, k);
    ContainsConcat(DEFAULT_KEYWORD, v, k);
  }

  /** The indented name and type name no keyword. */
  lemma BodyKeyword(c: WizColumn, k: string)
    requires IsKeyword(k) && Clean(Upper(Body(c)))
    ensures Upper(INDENT + Body(c)) == INDENT + Upper(Body(c))
    ensures !Contains(INDENT + Upper(Body(c)), k)
  {
    UpperAppend(INDENT, Body(c));
    UpperNoLower(INDENT);
    assert AllSpace(INDENT) && !AllSpace(k) by {
      assert !IsSpace(k[0]);
    }
    NoStraddleAfterSpace(INDENT, Upper(Body(c)), k);
    NoKeywordInSpace(INDENT, k);
    ContainsConcat(INDENT, Upper(Body(c)), k);
  }

  /** Appending an optional clause adds exactly the keywords of the clause. */
  lemma AppendClause(a: string, clause: string, k: string)
    requires IsKeyword(k)
    requires clause == [] ||
      (|clause| >= 3 && clause[0] == ' ' && (clause[1] == 'I' || clause[1] == 'D' || (clause[1] == 'N' && clause[2] == 'O')))
    ensures Contains(a + clause, k) <==> Contains(a, k) || Contains(clause, k)
  {
    if clause == [] {
      assert a + clause == a;
      assert !Contains(clause, k);
    } else {
      ClauseSeam(a, clause, k);
      ContainsConcat(a, clause, k);
    }
  }

  /** Which keywords each optional clause contributes. */
  lemma ClauseKeywords(c: WizColumn, k: string)
    requires IsKeyword(k)
    requires Truthy(c.default) ==> Clean(Upper(c.default.value))
    ensures Upper(IdentityClause(c)) == IdentityClause(c)
    ensures Upper(NullClause(c)) == NullClause(c)
    ensures Contains(IdentityClause(c), k) <==> k == "IDENTITY" && c.identity
    ensures Contains(NullClause(c), k) <==> k == "NOT NULL" && !c.nullable
    ensures Contains(Upper(DefaultClause(c)), k) <==> k == "DEFAULT" && Truthy(c.default)
  {
    IdentityClauseKeywords();
    NullClauseKeywords();
    if Truthy(c.default) {
      DefaultClauseKeyword(c, k);
    } else {
      assert Upper(DefaultClause(c)) == [];
    }
    if !c.identity {
      assert Upper(IdentityClause(c)) == [];
    }
    if c.nullable {
      assert Upper(NullClause(c)) == [];
    }
  }

  /** The upper-cased line, piece by piece. */
  lemma UpperLine(c: WizColumn, comma: bool)
    requires Truthy(c.default) ==> Clean(Upper(c.default.value))
    ensures Upper(ColumnLine(c, comma)) ==
      INDENT + Upper(Body(c)) + IdentityClause(c) + NullClause(c) + Upper(DefaultClause(c))
        + (if comma then "," else "")
  {
    var t := if comma then "," else "";
    var a0 := INDENT + Body(c);
    var a1 := a0 + IdentityClause(c);
    var a2 := a1 + NullClause(c);
    var a3 := a2 + DefaultClause(c);
    UpperAppend(a3, t);
    UpperAppend(a2, DefaultClause(c));
    UpperAppend(a1, NullClause(c));
    UpperAppend(a0, IdentityClause(c));
    UpperAppend(INDENT, Body(c));
    UpperNoLower(INDENT);
    UpperNoLower(t);
    ClausesAreUpper(c);
  }

  lemma ClausesAreUpper(c: WizColumn)
    ensures Upper(IdentityClause(c)) == IdentityClause(c)
    ensures Upper(NullClause(c)) == NullClause(c)
  {
    UpperNoLower(IdentityClause(c));
    UpperNoLower(NullClause(c));
  }

  /** Up to the default clause, the line names IDENTITY and NOT NULL as written. */
  lemma HeadKeyword(c: WizColumn, k: string)
    requires ColumnSafe(c) && IsKeyword(k)
    ensures Contains(INDENT + Upper(Body(c)) + IdentityClause(c) + NullClause(c), k) <==>
      (k == "IDENTITY" && c.identity) || (k == "NOT NULL" && !c.nullable)
  {
    var x0 := INDENT + Upper(Body(c));
    var x1 := x0 + IdentityClause(c);
    BodyKeyword(c, k);
    ClauseKeywords(c, k);
    AppendClause(x0, IdentityClause(c), k);
    AppendClause(x1, NullClause(c), k);
  }

  /** The default clause adds `DEFAULT` when a default is written, and nothing else. */
  lemma DefaultTail(x: string, c: WizColumn, k: string)
    requires IsKeyword(k)
    requires Truthy(c.default) ==> Clean(Upper(c.default.value))
    ensures Contains(x + Upper(DefaultClause(c)), k) <==> Contains(x, k) || (k == "DEFAULT" && Truthy(c.default))
  {
    ClauseKeywords(c, k);
    assert Truthy(c.default) ==> Upper(DefaultClause(c)) == DEFAULT_KEYWORD + Upper(c.default.value) by {
      if Truthy(c.default) {
        UpperAppend(DEFAULT_KEYWORD, c.default.value);
        DefaultKeywordKeywords();
      }
    }
    AppendClause(x, Upper(DefaultClause(c)), k);
  }

  /** A trailing comma adds no keyword. */
  lemma CommaTail(y: string, comma: bool, k: string)
    requires IsKeyword(k)
    ensures Contains(y + (if comma then "," else ""), k) <==> Contains(y, k)
  {
    var t := if comma then "," else "";
    if comma {
      NoStraddleAtHead(y, t, k);
      ContainsConcat(y, t, k);
      MissingChar(t, k, k[0]);
    } else {
      assert y + t == y;
    }
  }

  /** The line contains a keyword exactly when the wizard wrote it there. */
  lemma LineKeyword(c: WizColumn, comma: bool, k: string)
    requires ColumnSafe(c) && IsKeyword(k)
    ensures Contains(Upper(ColumnLine(c, comma)), k) <==> Mentions(c, k)
  {
    UpperLine(c, comma);
    HeadKeyword(c, k);
    var x := INDENT + Upper(Body(c)) + IdentityClause(c) + NullClause(c);
    DefaultTail(x, c, k);
    CommaTail(x + Upper(DefaultClause(c)), comma, k);
  }

  // ---------------------------------------------------------------------
  // The token lens

  /** What follows the type on the line. */
  function Tail(c: WizColumn, comma: bool): string {
    IdentityClause(c) + NullClause(c) + DefaultClause(c) + (if comma then "," else "")
  }

  /** Every clause opens with a blank, so only a bare column lets the comma touch the type. */
  lemma TailShape(c: WizColumn, comma: bool)
    ensures Bare(c) && comma ==> Tail(c, comma) == ","
    ensures !(Bare(c) && comma) ==> Tail(c, comma) == [] || Tail(c, comma)[0] == ' '
  {
    var t := if comma then "," else "";
    if Bare(c) {
      assert Tail(c, comma) == t;
    } else if c.identity {
      assert Tail(c, comma)[0] == IDENTITY_CLAUSE[0];
    } else if !c.nullable {
      assert Tail(c, comma)[0] == NOT_NULL_CLAUSE[0];
    } else {
      assert Tail(c, comma)[0] == DEFAULT_KEYWORD[0];
    }
  }

  lemma NameNoSpace(name: string)
    requires ValidName(name)
    ensures NoSpace(name) && name[0] != '-' && ',' !in name && '\n' !in name
  {
  }

  /** The line, regrouped around its first two tokens. */
  lemma LineShape(c: WizColumn, comma: bool)
    ensures ColumnLine(c, comma) == INDENT + (c.name + (" " + (c.colType + Tail(c, comma))))
  {
    Regroup(INDENT, c.name, c.colType, IdentityClause(c), NullClause(c), DefaultClause(c),
            if comma then "," else "");
  }

  lemma Regroup(a: string, n: string, y: string, x1: string, x2: string, x3: string, x4: string)
    ensures a + (n + " " + y) + x1 + x2 + x3 + x4 == a + (n + (" " + (y + (x1 + x2 + x3 + x4))))
  {
  }

  /** A word followed by a blank, a lone comma, or nothing starts the split; the comma sticks to it. */
  lemma WordThenTail(w: string, tail: string)
    requires w != [] && NoSpace(w)
    requires tail == [] || tail[0] == ' ' || tail == ","
    ensures |Split(w + tail)| >= 1
    ensures Split(w + tail)[0] == w + (if tail == "," then "," else "")
  {
    if tail == "," {
      var v := w + ",";
      assert w + tail == v + [];
      assert NoSpace(",") by {
        assert !IsSpace(',');
      }
      NoSpaceAppend(w, ",");
      SplitWord(v, []);
    } else {
      SplitWord(w, tail);
    }
  }

  /** After leading blanks, a word and a blank split off as the first token. */
  lemma TokenHead(ws: string, w: string, rest: string)
    requires AllSpace(ws) && w != [] && NoSpace(w)
    ensures Split(ws + (w + (" " + rest))) == [w] + Split(rest)
  {
    SplitAfterSpace(ws, w + (" " + rest));
    SplitWordBlank(w, rest);
  }

  /** The first token of the line is the name; the second is the type, with the comma of a bare column. */
  lemma LineSplit(c: WizColumn, comma: bool)
    requires ValidName(c.name) && c.colType != [] && NoSpace(c.colType)
    ensures |Split(ColumnLine(c, comma))| >= 2
    ensures Split(ColumnLine(c, comma))[0] == c.name
    ensures Split(ColumnLine(c, comma))[1] == c.colType + (if comma && Bare(c) then "," else "")
  {
    LineShape(c, comma);
    NameNoSpace(c.name);
    TailShape(c, comma);
    TokenHead(INDENT, c.name, c.colType + Tail(c, comma));
    WordThenTail(c.colType, Tail(c, comma));
  }

  /** Blanks, then a word: the trimmed text starts with the word. */
  lemma StripStartsWith(ws: string, rest: string)
    requires AllSpace(ws) && rest != [] && !IsSpace(rest[0])
    ensures Strip(ws + rest) != [] && Strip(ws + rest)[0] == rest[0]
  {
    TrimLeftSpaces(ws, rest);
  }

  /** The trimmed line starts with the name, so it is never a comment. */
  lemma LineNotComment(c: WizColumn, comma: bool)
    requires ValidName(c.name)
    ensures !StartsWith(Strip(ColumnLine(c, comma)), "--")
  {
    var rest := c.name + (" " + (c.colType + Tail(c, comma)));
    LineShape(c, comma);
    NameNoSpace(c.name);
    assert AllSpace(INDENT) && rest[0] == c.name[0];
    StripStartsWith(INDENT, rest);
    NotDashed(Strip(ColumnLine(c, comma)));
  }

  lemma NotDashed(s: string)
    requires s != [] && s[0] != '-'
    ensures !StartsWith(s, "--")
  {
  }

  lemma StripCharAbsent(s: string, ch: char)
    requires ch !in s
    ensures StripChar(s, ch) == s
  {
  }

  /** Upper-casing leaves the comma alone. */
  lemma UpperComma(t: string)
    ensures Upper(t + ",") == Upper(t) + ","
  {
    UpperAppend(t, ",");
    UpperNoLower(",");
  }

  /** The parser passes over the line of a column exactly when the column is an identity column. */
  lemma LineKept(c: WizColumn, comma: bool)
    requires ColumnSafe(c)
    ensures Skipped(ColumnLine(c, comma)) <==> c.identity
  {
    LineKeyword(c, comma, "PRIMARY KEY");
    LineKeyword(c, comma, "CONSTRAINT");
    LineKeyword(c, comma, "IDENTITY");
    LineSplit(c, comma);
    LineNotComment(c, comma);
  }

  /** The nullability and default tests on the line give back what the wizard recorded. */
  lemma LineFlags(c: WizColumn, comma: bool)
    requires ColumnSafe(c)
    ensures !Contains(Upper(ColumnLine(c, comma)), "NOT NULL") <==> c.nullable
    ensures Contains(Upper(ColumnLine(c, comma)), "DEFAULT") <==> Truthy(c.default)
  {
    LineKeyword(c, comma, "NOT NULL");
    LineKeyword(c, comma, "DEFAULT");
  }

  /**
   The schema parser reads back from the wizard's line exactly the column
   `ReadBack` describes: nothing for an identity column, otherwise the name,
   the upper-cased type, and the nullability and default flags the wizard
   recorded.
   */
  lemma LineReadsBack(c: WizColumn, comma: bool)
    requires ColumnSafe(c)
    ensures ParseLine(ColumnLine(c, comma)) == ReadBack(c, comma)
  {
    if c.identity {
      IdentityLineDropped(c, comma);
    } else {
      PlainLineReadsBack(c, comma);
    }
  }

  lemma IdentityLineDropped(c: WizColumn, comma: bool)
    requires ColumnSafe(c) && c.identity
    ensures ParseLine(ColumnLine(c, comma)).None?
  {
    LineKept(c, comma);
    LineVerdict(ColumnLine(c, comma));
  }

  lemma PlainLineReadsBack(c: WizColumn, comma: bool)
    requires ColumnSafe(c) && !c.identity
    ensures ParseLine(ColumnLine(c, comma)) == ReadBack(c, comma)
  {
    LineKept(c, comma);
    LineFlags(c, comma);
    LineSplit(c, comma);
    NameNoSpace(c.name);
    ParsedAs(ColumnLine(c, comma), c.name, c.colType, comma && Bare(c), c.nullable, Truthy(c.default));
  }

  /** Upper-casing leaves a trailing comma alone. */
  lemma TypeField(ty: string, withComma: bool)
    ensures Upper(ty + (if withComma then "," else "")) == Upper(ty) + (if withComma then "," else "")
  {
    if withComma {
      UpperComma(ty);
    } else {
      assert ty + "" == ty;
    }
  }

  /** A line the parser keeps, read field by field. */
  lemma ParsedAs(raw: string, name: string, ty: string, withComma: bool, nullable: bool, hasDefault: bool)
    requires !Skipped(raw)
    requires |Split(raw)| >= 2
    requires Split(raw)[0] == name && ',' !in name
    requires Split(raw)[1] == ty + (if withComma then "," else "")
    requires !Contains(Upper(raw), "NOT NULL") <==> nullable
    requires Contains(Upper(raw), "DEFAULT") <==> hasDefault
    ensures ParseLine(raw) == Some(Column(name, Upper(ty) + (if withComma then "," else ""), nullable, hasDefault))
  {
    LineVerdict(raw);
    StripCharAbsent(name, ',');
    TypeField(ty, withComma);
  }

  /** No line break inside a column line. */
  lemma LineHasNoBreak(c: WizColumn, comma: bool)
    requires ValidName(c.name) && NoSpace(c.colType)
    requires Truthy(c.default) ==> '\n' !in c.default.value
    ensures '\n' !in ColumnLine(c, comma)
  {
    LineShape(c, comma);
    NameNoSpace(c.name);
    assert IsSpace('\n');
    assert '\n' !in c.colType;
    assert '\n' !in INDENT;
    TailHasNoBreak(c, comma);
  }

  lemma TailHasNoBreak(c: WizColumn, comma: bool)
    requires Truthy(c.default) ==> '\n' !in c.default.value
    ensures '\n' !in Tail(c, comma)
  {
    assert '\n' !in IdentityClause(c);
    assert '\n' !in NullClause(c);
    assert '\n' !in DefaultClause(c);
  }

  /** The last definition loses exactly the comma it was given. */
  lemma LastLineStrip(c: WizColumn)
    requires EndsWithoutComma(c)
    ensures RStripChar(ColumnDef(c) + ",", ',') == ColumnDef(c)
  {
    var d := ColumnDef(c);
    if Truthy(c.default) {
      assert d[|d| - 1] == c.default.value[|c.default.value| - 1];
    } else if !c.nullable {
      assert d[|d| - 1] == 'L';
    } else if c.identity {
      assert d[|d| - 1] == ')';
    } else {
      assert d[|d| - 1] == c.colType[|c.colType| - 1];
    }
    RStripCharAdded(d, ',');
  }
}
