# populate_local_remote_SQL_Server in Dafny

This project models the two halves of the repository that meet in a
`CREATE TABLE` script:

- **The table-creation wizard** (`create_table_wizard.py`). Given the
  answers for one column, `add_column` either accepts or refuses the
  column and builds its record. `remove_column` drops the column a number
  names. `generate_sql` writes the `CREATE TABLE` script for the recorded
  columns.
- **The generic table populator** (`populate_tables_generic.py`).
  - `parse_table_schema` reads a table name and its columns back from a
    script.
  - `generate_fake_data` picks the kind of fake value for a column.
  - `populate_table` sends one parameterised `INSERT` per row and commits
    once at the end.

The model is written in terms of those operations:

| file | module | what it holds |
|---|---|---|
| `wrappers.dfy` | `Wrappers` | `Option` and `FilterMap`, a list comprehension with a filter |
| `text.dfy` | `Text` | the parts of Python's `str` the code uses: ASCII `upper`/`lower`; `in` on strings; `strip`, `strip(',')` and `rstrip(',')`; `split()`, `split('\n')` and `join` |
| `schema.dfy` | `Schema`, `SchemaFacts` | the two regular-expression searches of the parser, the line filter, and `parse_table_schema` |
| `generator.dfy` | `Generator`, `GeneratorTable` | `generate_fake_data` as a tag, and the same decision restated as ordered keyword tables with a proof that the two agree |
| `populator.dfy` | `Populator` | `populate_table` over an abstract cursor, recorded as a trace of `execute` and `commit` calls |
| `wizard.dfy` | `Wizard` | the answers, `add_column`, `remove_column` and `generate_sql` |
| `linereading.dfy` | `LineReading` | how the parser reads back one column line the wizard writes |
| `roundtrip.dfy` | `RoundTrip` | how the parser reads back a whole script the wizard writes |

The central theorem is `RoundTrip.ScriptReadsBack`. Take a script that
`generate_sql` writes for a table whose names and types are safe. Parsing
it gives back the table name and, in order, one column for every column
that is not an identity column. Each such column keeps its name, its
nullability and whether it has a default. Its type comes back upper-cased, with the line's comma still attached when
nothing stands between the type and that comma.

A column is "safe" when:

- its name matches the wizard's name rule;
- its type holds no blank and does not end in a comma;
- the name, the type and the default do not spell any keyword the parser
  looks for (`PRIMARY KEY`, `CONSTRAINT`, `IDENTITY`, `NOT NULL`,
  `DEFAULT`);
- the default holds no line break and does not end in a comma.

A Faker call becomes a tag: `GenKind` names the generator and the bounds
the source gives it. The database cursor becomes a function `ok` that
says whether the execute of row `i` succeeds.

Some behaviour of the code is easy to miss, and the model keeps it as
written:

- The parser reads the script line by line.
  - A line is dropped whole when it mentions `PRIMARY KEY` or
    `CONSTRAINT`, in any letter case.
  - So a statement whose whole column list sits on one physical line
    together with a `CONSTRAINT` clause yields no columns at all
    (`SchemaFacts.OneLineStatement`).
  - An identity line is dropped by the parser itself, so such a column
    never reaches the populator.
- The name token loses its leading and trailing commas. The type token does not: a column
  written with nothing between its type and the line's comma comes back
  with that comma (`LineReading.ReadBack`).
- The block regular expression is greedy, so the column block ends at the
  last `)` of the content, not at the statement's own closing parenthesis.
- `populate_table` does not check the row count itself.
  - For a count of zero or less it executes nothing, commits once and
    returns `True`.
  - Only the command-line entry point insists on a positive count.
- `'DEFAULT' in line.upper()` also fires for a column whose name or type
  merely contains those letters. The round trip therefore assumes safe
  names and types.

## Model

| member | source | states |
|---|---|---|
| Schema.HeaderAt | populate_tables_generic.py:138 | a header match captures a nonempty, maximal run of word characters that starts at least 13 characters after the match position |
| Schema.FindName | populate_tables_generic.py:138-142 | the search for the header fails exactly when no position of the content starts a header; a found name is a nonempty run of word characters |
| Schema.FindNameIsFirst | populate_tables_generic.py:138-142 | the name found is the one captured at the first position where a header starts, as `re.search` returns the leftmost match |
| Schema.FindBlockFails | populate_tables_generic.py:149-151 | the search for the parenthesised column block fails exactly when no position starts a header followed by `(` and a later `)` |
| Schema.ParseSchema | populate_tables_generic.py:137-177 | the parser returns nothing exactly when the content has no `CREATE TABLE name` header; otherwise the table name is the one the header search captures, a header without a block gives no columns, and a block gives the columns its lines give |
| SchemaFacts.ParseLinesAppend | populate_tables_generic.py:154-171 | the lines are handled independently and the columns come out in line order |
| SchemaFacts.LineVerdict | populate_tables_generic.py:155-171 | a line gives no column exactly when it is a comment, mentions PRIMARY KEY, CONSTRAINT or IDENTITY, or has fewer than two tokens; otherwise the column is the first token without commas, the upper-cased second token, and the NOT NULL and DEFAULT flags of the whole line |
| SchemaFacts.StrippedKeyword | populate_tables_generic.py:156-157 | trimming the line changes none of the keyword tests |
| SchemaFacts.OneLineWithConstraint | populate_tables_generic.py:154-157 | a block on one physical line that mentions CONSTRAINT gives no column |
| SchemaFacts.OneLineStatement | populate_tables_generic.py:149-157 | a statement whose column block is one line holding a CONSTRAINT clause parses to its table and no columns |
| Generator.SkipDigits | populate_tables_generic.py:219 | the digit scan stops at the first non-digit and covers only digits |
| Generator.FindParenNumber | populate_tables_generic.py:219 | the search for `(digits)` fails exactly when no position of the type starts one |
| Generator.NatToDigits | populate_tables_generic.py:220 | a number's decimal form is a nonempty string of digits |
| Generator.DigitsRoundTrip | populate_tables_generic.py:220 | reading the decimal form of a number back with `int` gives the number |
| Generator.MaxLengthDefault | populate_tables_generic.py:219-220 | a type with no parenthesis gives the fallback length 50 |
| Generator.MaxLengthDeclared | populate_tables_generic.py:219-220 | a type whose first parenthesis holds `(n)` gives the length n |
| Generator.TextValue | populate_tables_generic.py:221 | the value of a free-text tag is the first min(length, maximum) characters of the random text |
| Generator.TextKind | populate_tables_generic.py:193-221 | the text branch yields only text generators, and free text is cut to the length the type declares |
| Generator.IntKind | populate_tables_generic.py:224-230 | the integer branch yields an integer range with positive, ordered bounds |
| Generator.DecimalKind | populate_tables_generic.py:233-237 | the decimal branch yields a range of at least 1.00 with ordered bounds |
| Generator.DateKind | populate_tables_generic.py:240-244 | the date branch yields a birth date or a recent date-time |
| Generator.TypeKind | populate_tables_generic.py:192-252 | each value family is chosen exactly when its type keywords match and those of every earlier family do not; the word fallback is chosen exactly when none matches; the database default is never chosen here |
| Generator.Classify | populate_tables_generic.py:183-190 | a column is left to the database exactly when it has a default and its lower-cased name contains "created"; otherwise its upper-cased type and lower-cased name decide |
| GeneratorTable.Mentions4 | populate_tables_generic.py:193 | `any(t in s for t in keys)` holds exactly when one of the keys occurs in s |
| GeneratorTable.TextTableAgrees | populate_tables_generic.py:193-221 | the ordered table of name rules for text columns picks the same generator as the nested text branch |
| GeneratorTable.NumberTablesAgree | populate_tables_generic.py:224-244 | the integer, decimal and date name tables pick the same generators as the nested branches |
| GeneratorTable.TypeRowsAgree | populate_tables_generic.py:192-252 | the ordered table of type families picks the same generator as the nested type dispatch |
| GeneratorTable.TableAgrees | populate_tables_generic.py:183-252 | the table-driven decision and `generate_fake_data` agree on every column |
| Populator.Eligible | populate_tables_generic.py:257 | the columns filled are exactly the columns without a default, and no more than there were |
| Populator.EligibleAppend | populate_tables_generic.py:257 | the filter distributes over concatenation, so the kept columns stay in schema order and keep their multiplicity |
| Populator.EligibleOne | populate_tables_generic.py:257 | a single column is kept exactly when it has no default |
| Populator.EligibleNeverOmit | populate_tables_generic.py:257 | no value sent in a row is the database-default marker, because the eligible columns have no default |
| Populator.PlaceholderCount | populate_tables_generic.py:264 | the placeholder list holds exactly one `?` per column |
| Populator.FixedTextHasNoPlaceholder | populate_tables_generic.py:266-269 | the fixed text of the INSERT statement holds no `?` |
| Populator.QueryMatchesParams | populate_tables_generic.py:263-281 | when no name holds a `?`, the statement has as many placeholders as each row has values |
| Populator.SendRows | populate_tables_generic.py:274-291 | rows are executed in order until one fails; the first failure is reported by its 1-based number with no commit; when all succeed the trace is exactly n executes followed by one commit; every execute sends the same statement and row |
| Populator.Populate | populate_tables_generic.py:254-291 | nothing is sent exactly when every column has a default; otherwise a count of zero or less runs no row, the outcome is True exactly when every row succeeds, a success is exactly record_count executes of the INSERT followed by one commit, and a commit happens exactly on success |
| Wizard.MenuEntriesNonEmpty | create_table_wizard.py:27-38 | every entry of the type menu is a nonempty type |
| Wizard.ResolveType | create_table_wizard.py:83-96 | a menu number gives its menu type; otherwise a type is accepted only for choice 11 with a nonempty custom answer; an accepted type is never empty |
| Wizard.FormatDefault | create_table_wizard.py:115-128 | a date type turns now, current or sysdatetime into SYSDATETIME() and quotes anything else; a character type quotes the answer; any other type keeps it as typed; a nonempty answer never gives an empty default |
| Wizard.NewColumn | create_table_wizard.py:98-138 | NULL is allowed unless the answer says otherwise; primary only when no column is primary yet and the answer is yes; identity only for an integer primary key, yes by default; an identity column has no default; any other column has a default exactly when one was typed |
| Wizard.AddColumn | create_table_wizard.py:65-140 | an invalid name, a duplicate name and an unusable type are refused in that order and each exactly when it applies; an accepted column is appended at the end, and it is the column `NewColumn` builds from the stripped name, the resolved type and the answers |
| Wizard.AppendKeepsInvariant | create_table_wizard.py:72-138 | a column passing the wizard's checks keeps the list valid: valid unique names, nonempty types, at most one primary key, identity only on an integer primary key without default |
| Wizard.AddKeepsInvariant | create_table_wizard.py:65-140 | every accepted `add_column` keeps that invariant |
| Wizard.RemoveColumn | create_table_wizard.py:259-270 | a number from 1 to the column count removes exactly that column and keeps the others in order; any other number or a non-number changes nothing; the invariant is kept |
| Wizard.PrimaryKeys | create_table_wizard.py:187-189 | the primary-key list is empty exactly when no column is primary |
| Wizard.PrimaryKeysAppend | create_table_wizard.py:187-189 | the key list of two column lists is the first list's keys followed by the second's, so names keep column order |
| Wizard.PrimaryKeysOne | create_table_wizard.py:187-189 | a single column contributes its name exactly when it is primary |
| Wizard.PrimaryKeysOfWizard | create_table_wizard.py:187-189 | for a list the wizard built, the key list is exactly the name of its one primary column |
| Wizard.GenerateSql | create_table_wizard.py:159-162 | there is no script exactly when there are no columns |
| LineReading.LineSplit | create_table_wizard.py:171 | for a valid name and a blank-free type, the first token of a written column line is the name and the second is the type, with the line's comma when nothing follows the type |
| LineReading.LineKeyword | create_table_wizard.py:171-183 | for a safe column, the upper-cased column line mentions IDENTITY, NOT NULL or DEFAULT exactly when the column is an identity, not nullable, or has a nonempty default, and never mentions PRIMARY KEY or CONSTRAINT |
| LineReading.LineNotComment | populate_tables_generic.py:157 | a written column line is never taken for a comment |
| LineReading.LineKept | populate_tables_generic.py:157-165 | for a safe column, the parser skips a written column line exactly when the column is an identity column |
| LineReading.LineFlags | populate_tables_generic.py:169-170 | for a safe column, the nullability and default flags read from a written line are the column's own |
| LineReading.LineReadsBack | populate_tables_generic.py:155-171 | for a safe column, a written column line reads back as nothing for an identity column and otherwise as the same name, flags and upper-cased type, with the line's comma for a bare column |
| LineReading.LineHasNoBreak | create_table_wizard.py:171-183 | for a valid name, a blank-free type and a one-line default, a written column line holds no line break, so `split('\n')` keeps it whole |
| LineReading.LastLineStrip | create_table_wizard.py:198-200 | when the last column's type or default does not itself end in a comma, `rstrip(',')` on the last definition removes exactly the comma added to it |
| Text.SplitOnJoin | create_table_wizard.py:204 | splitting on the separator undoes the join of lines that do not contain it |
| RoundTrip.StatementFound | populate_tables_generic.py:138-151 | on a written script both searches succeed: the name is the table's and the block is everything between the header's `(` and the closing `);` |
| RoundTrip.StatementParsed | populate_tables_generic.py:131-177 | a written script parses to the table's name and the columns its block lines give |
| RoundTrip.SqlLinesShape | create_table_wizard.py:164-202 | when the last column's type or default does not itself end in a comma (which `rstrip(',')` would also remove), the script lines are the header, the column lines (all but the last with a comma, the last with one only when a key line follows), the key line if any, and the closing line |
| RoundTrip.ScriptShape | create_table_wizard.py:159-204 | for a nonempty column list whose last column's type or default does not end in a comma, the script is the header, the joined middle lines framed by line breaks, and the closing `);` |
| RoundTrip.BlockLines | populate_tables_generic.py:154 | for a safe table, splitting the written block on line breaks gives back the written middle lines between two empty lines |
| RoundTrip.KeyLineSkipped | create_table_wizard.py:195-197 | the parser never reads the primary-key constraint line as a column |
| RoundTrip.ScriptReadsBack | populate_tables_generic.py:131-177 | parsing the script the wizard writes for a safe table gives the table's name and, in order, the read-back of every non-identity column |
| RoundTrip.PlainColumnsReadBack | create_table_wizard.py:159-204 | without identity columns the parser finds exactly as many columns as were defined, each with its name, nullability and default flag, and a type that starts with its upper-cased type |

## Left out

- Reading the script file, the `try`/`except` around the parser, and the `file_path` entry of its result. These are file I/O and its error path; the model parses the file's content.
- `column_pattern` (populate_tables_generic.py:146). It is assigned but never used.
- The values Faker produces. Each generator call is a `GenKind` tag with the bounds the source gives it.
- Rounding of the decimal values. Floating point is not modelled, and decimal bounds are kept in hundredths.
- Unicode behaviour of `\w`, `\s` (beyond the whitespace set of `str.isspace`), `upper` and `lower`. Letters, digits and case folding are ASCII only.
- Every `print`, including the progress messages of `populate_table`. They are console output.
- The database itself. `connect`, the table discovery, `close` and the command-line `main` are left out, and so is the positive row-count check that lives only in `main`.
- `create_config.py` and `populate_table_local.py`. They are not part of this model.
- The wizard's prompts and re-prompt loops, `display_*`, `preview_sql`, `save_sql_file` and `run_wizard`. These are console and file I/O; the model takes one set of answers per call and reports a refusal instead of asking again.
- Generator.IntKind, Generator.DecimalKind, Generator.DateKind: their own contracts state only the family and the shape of the bounds; which name keyword selects which bounds is stated through `GeneratorTable.NumberTablesAgree`.
- Generator.TextKind: the free-text tag does not record that Faker's `text` refuses a maximum below 5 characters. For a free-text column declared shorter than 10 characters (a `CHAR(1)` column whose name matches none of the name keywords, such as `Code`), `fake.text(max_length // 2)` (populate_tables_generic.py:221) raises outside the `try`, because generation happens before the execute. The model treats that call as a plain value.
- Populator.Populate: for the same reason, it promises `Succeeded` for an always-succeeding cursor even when an eligible text column falls through to free text and declares fewer than 10 characters, where the source stops with an exception before its first execute. Faker's behaviour is library code the model does not include.
- Populator.Populate: the commit is assumed to succeed, and a failing execute is assumed to raise only `pyodbc.Error`. In the source, `self.connection.commit()` (populate_tables_generic.py:289) sits outside the `try`, and only `pyodbc.Error` is caught (populate_tables_generic.py:284). A failing commit or any other exception propagates out of `populate_table` instead of giving an outcome. The database driver is not part of this model.
- Wizard.RemoveColumn: takes the answer already read as a number or as "not a number". How `int(...)` reads the typed text (create_table_wizard.py:263), with its surrounding blanks, signs and underscores, is not modelled.
- RoundTrip.ScriptReadsBack: proved only for safe tables (see above). For other tables the parser can drop or misread columns, which the model does not characterise.
