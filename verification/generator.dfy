/**
 The value generator of the table populator. Each Faker call is replaced by
 a tag naming the generator and, where the source fixes them, its bounds;
 what is left is a fixed decision over the upper-cased declared type and
 the lower-cased column name, tried in a fixed order with the first match
 winning.
 */
module Generator {
  import opened Wrappers
  import opened Text
  import opened Schema

  /** What `generate_fake_data` returns for a column, as a generator tag. */
  datatype GenKind =
    | Omit                               // `None`: the database default applies
    | StreetAddress | City | StateAbbr | Postcode
    | Country(literal: string)           // the fixed string, not a generator
    | FirstName | LastName | FullName
    | Email | Phone | Company
    | FreeText(maxLen: nat)              // random text cut to `maxLen` characters
    | IntRange(lo: int, hi: int)         // inclusive bounds
    | DecRange(loCents: int, hiCents: int) // inclusive bounds, in hundredths
    | BirthDate | RecentDateTime
    | Bool
    | Word
  {
    /** The kinds the text branch can produce. */
    predicate IsTextual() {
      || StreetAddress? || City? || StateAbbr? || Postcode? || Country?
      || FirstName? || LastName? || FullName? || Email? || Phone? || Company? || FreeText?
    }
  }

  /** The country literal of the `en_AU` locale. */
  const COUNTRY: string := "Australia"

  /** The text length used when the type carries no `(n)`. */
  const DEFAULT_TEXT_LENGTH: nat := 50

  // ---------------------------------------------------------------------
  // Type classes, tested on the upper-cased declared type

  predicate IsTextType(t: string) {
    Contains(t, "NVARCHAR") || Contains(t, "VARCHAR") || Contains(t, "CHAR") || Contains(t, "TEXT")
  }

  predicate IsIntType(t: string) {
    Contains(t, "INT") || Contains(t, "BIGINT") || Contains(t, "SMALLINT")
  }

  predicate IsDecimalType(t: string) {
    Contains(t, "DECIMAL") || Contains(t, "FLOAT") || Contains(t, "MONEY")
  }

  predicate IsDateType(t: string) {
    Contains(t, "DATE") || Contains(t, "DATETIME") || Contains(t, "DATETIME2")
  }

  predicate IsBitType(t: string) {
    Contains(t, "BIT")
  }

  // ---------------------------------------------------------------------
  // The declared text length: the first `\((\d+)\)` of the type

  /** The value of a string of decimal digits, as `int(...)` reads it. */
  function DigitsValue(ds: string): nat
    requires forall i :: 0 <= i < |ds| ==> IsDigit(ds[i])
  {
    if ds == [] then 0
    else
      var last := ds[|ds| - 1];
      assert IsDigit(last);
      10 * DigitsValue(ds[..|ds| - 1]) + (last as int - '0' as int)
  }

  /** The end of the run of digits (`\d*`) that starts at `i`. */
  function SkipDigits(s: string, i: nat): (j: nat)
    requires i <= |s|
    ensures i <= j <= |s|
    ensures forall p :: i <= p < j ==> IsDigit(s[p])
    ensures j < |s| ==> !IsDigit(s[j])
    decreases |s| - i
  {
    if i < |s| && IsDigit(s[i]) then SkipDigits(s, i + 1) else i
  }

  /** `\((\d+)\)` tried at position `i`: the number inside the parentheses. */
  function ParenNumberAt(s: string, i: nat): Option<nat>
    requires i <= |s|
  {
    if i < |s| && s[i] == '(' then
      var e := SkipDigits(s, i + 1);
      if i + 1 < e < |s| && s[e] == ')' then Some(DigitsValue(s[i + 1..e])) else None
    else None
  }

  /** `re.search(r'\((\d+)\)', s)`: the number of the first position that matches. */
  function FindParenNumber(s: string, i: nat): (r: Option<nat>)
    requires i <= |s|
    ensures r.None? <==> forall p :: i <= p <= |s| ==> ParenNumberAt(s, p).None?
    decreases |s| - i
  {
    match ParenNumberAt(s, i)
    case Some(n) => Some(n)
    case None => if i == |s| then None else FindParenNumber(s, i + 1)
  }

  /** The length cap of the text fallback. */
  function MaxLength(t: string): nat {
    match FindParenNumber(t, 0)
    case Some(n) => n
    case None => DEFAULT_TEXT_LENGTH
  }

  /** The decimal spelling of `n`, as `str(n)` writes it. */
  function NatToDigits(n: nat): (ds: string)
    ensures |ds| > 0
    ensures forall i :: 0 <= i < |ds| ==> IsDigit(ds[i])
  {
    var d := ['0' + ((n % 10) as char)];
    if n < 10 then d else NatToDigits(n / 10) + d
  }

  /** Reading back a spelled number gives the number. */
  lemma {:induction false} DigitsRoundTrip(n: nat)
    ensures DigitsValue(NatToDigits(n)) == n
  {
    var ds := NatToDigits(n);
    if n >= 10 {
      assert ds[..|ds| - 1] == NatToDigits(n / 10);
      DigitsRoundTrip(n / 10);
    }
  }

  /** A type with no `(` carries no length: the cap is the default. */
  lemma {:induction false} MaxLengthDefault(t: string)
    requires '(' !in t
    ensures MaxLength(t) == DEFAULT_TEXT_LENGTH
  {
    forall p | 0 <= p <= |t|
      ensures ParenNumberAt(t, p).None?
    {
      if p < |t| {
        assert t[p] in t;
      }
    }
  }

  /** A type spelled `prefix(n)rest`, with no `(` in `prefix`, is capped at `n`. */
  lemma {:induction false} MaxLengthDeclared(prefix: string, n: nat, rest: string)
    requires '(' !in prefix
    ensures MaxLength(prefix + "(" + NatToDigits(n) + ")" + rest) == n
  {
    var ds := NatToDigits(n);
    var t := prefix + "(" + ds + ")" + rest;
    var a := |prefix|;
    var e := a + 1 + |ds|;
    assert t[a] == '(' && t[e] == ')';
    assert t[a + 1..e] == ds;
    assert forall p :: a + 1 <= p < e ==> t[p] == ds[p - a - 1];
    assert SkipDigits(t, a + 1) == e by {
      SkipDigitsRun(t, a + 1, e);
    }
    DigitsRoundTrip(n);
    assert ParenNumberAt(t, a) == Some(n);
    FindFrom(t, 0, a, n);
  }

  /** A run of digits from `i` to `e`, followed by a non-digit, is what `SkipDigits` skips. */
  lemma {:induction false} SkipDigitsRun(s: string, i: nat, e: nat)
    requires i <= e < |s|
    requires forall p :: i <= p < e ==> IsDigit(s[p])
    requires !IsDigit(s[e])
    ensures SkipDigits(s, i) == e
    decreases e - i
  {
    if i < e {
      SkipDigitsRun(s, i + 1, e);
    }
  }

  /** The search reaches position `a` when nothing before it is a `(`. */
  lemma {:induction false} FindFrom(t: string, i: nat, a: nat, n: nat)
    requires i <= a < |t|
    requires forall p :: i <= p < a ==> t[p] != '('
    requires ParenNumberAt(t, a) == Some(n)
    ensures FindParenNumber(t, i) == Some(n)
    decreases a - i
  {
    if i < a {
      FindFrom(t, i + 1, a, n);
    }
  }

  // ---------------------------------------------------------------------
  // The decision

  /** The text branch: name keywords tried in order, then free text. */
  function TextKind(n: string, t: string): (r: GenKind)
    ensures r.IsTextual()
    ensures r.FreeText? ==> r.maxLen == MaxLength(t)
  {
    if Contains(n, "address") || Contains(n, "street") then StreetAddress
    else if Contains(n, "city") then City
    else if Contains(n, "state") then StateAbbr
    else if Contains(n, "postal") || Contains(n, "zip") then Postcode
    else if Contains(n, "country") then Country(COUNTRY)
    else if Contains(n, "name") then
      (if Contains(n, "first") then FirstName
       else if Contains(n, "last") then LastName
       else FullName)
    else if Contains(n, "email") then Email
    else if Contains(n, "phone") then Phone
    else if Contains(n, "company") then Company
    else FreeText(MaxLength(t))
  }

  /** The integer branch. */
  function IntKind(n: string): (r: GenKind)
    ensures r.IntRange? && 1 <= r.lo < r.hi
  {
    if Contains(n, "age") then IntRange(18, 80)
    else if Contains(n, "year") then IntRange(1950, 2025)
    else IntRange(1, 1000)
  }

  /** The decimal branch, with the bounds in hundredths. */
  function DecimalKind(n: string): (r: GenKind)
    ensures r.DecRange? && 100 <= r.loCents < r.hiCents
  {
    if Contains(n, "price") || Contains(n, "cost") || Contains(n, "amount") then DecRange(1000, 100000)
    else DecRange(100, 10000)
  }

  /** The date branch. */
  function DateKind(n: string): (r: GenKind)
    ensures r.BirthDate? || r.RecentDateTime?
  {
    if Contains(n, "birth") then BirthDate else RecentDateTime
  }

  /** The type dispatch: the first type family whose keyword the
      upper-cased type `t` contains decides, the name `n` then picks inside it. */
  function TypeKind(t: string, n: string): (r: GenKind)
    ensures !r.Omit?
    ensures r.IsTextual() <==> IsTextType(t)
    ensures r.IntRange? <==> !IsTextType(t) && IsIntType(t)
    ensures r.DecRange? <==> !IsTextType(t) && !IsIntType(t) && IsDecimalType(t)
    ensures r.BirthDate? || r.RecentDateTime? <==>
      !IsTextType(t) && !IsIntType(t) && !IsDecimalType(t) && IsDateType(t)
    ensures r.Bool? <==>
      !IsTextType(t) && !IsIntType(t) && !IsDecimalType(t) && !IsDateType(t) && IsBitType(t)
    ensures r.Word? <==>
      !IsTextType(t) && !IsIntType(t) && !IsDecimalType(t) && !IsDateType(t) && !IsBitType(t)
  {
    if IsTextType(t) then TextKind(n, t)
    else if IsIntType(t) then IntKind(n)
    else if IsDecimalType(t) then DecimalKind(n)
    else if IsDateType(t) then DateKind(n)
    else if IsBitType(t) then Bool
    else Word
  }

  /** `generate_fake_data`: the generator chosen for one column. A column is
      left to the database exactly when it has a default and its name
      mentions "created"; otherwise its type decides. */
  function Classify(c: Column): (r: GenKind)
    ensures r.Omit? <==> c.hasDefault && Contains(Lower(c.name), "created")
    ensures !r.Omit? ==> r == TypeKind(Upper(c.colType), Lower(c.name))
  {
    var n := Lower(c.name);
    if c.hasDefault && Contains(n, "created") then Omit else TypeKind(Upper(c.colType), n)
  }

  /** The value a `FreeText(maxLen)` tag stands for: the random text cut to
      its first `maxLen` characters. */
  function TextValue(raw: string, maxLen: nat): (r: string)
    ensures |r| <= maxLen && |r| <= |raw|
    ensures |r| == if |raw| <= maxLen then |raw| else maxLen
    ensures r == raw[..|r|]
    ensures |raw| <= maxLen ==> r == raw
  {
    if |raw| <= maxLen then raw else raw[..maxLen]
  }
}

/**
 An independent statement of the same decision as ordered keyword tables,
 and the proof that the nested decision agrees with the tables on every
 column.
 */
module GeneratorTable {
  import opened Text
  import opened Schema
  import opened Generator

  /** A row of a name table: it fires when the subject contains one of
      `keys` and, when `also` is nonempty, one of `also` too. */
  datatype Rule = Rule(keys: seq<string>, also: seq<string>, kind: GenKind)

  /** A row of the type table: its keywords, the name table tried inside
      it and the kind used when no name rule fires. */
  datatype TypeRow = TypeRow(keys: seq<string>, rules: seq<Rule>, fallback: GenKind)

  predicate MentionsAny(s: string, ks: seq<string>, i: nat)
    decreases |ks| - i
  {
    i < |ks| && (Contains(s, ks[i]) || MentionsAny(s, ks, i + 1))
  }

  predicate Fires(r: Rule, s: string) {
    MentionsAny(s, r.keys, 0) && (r.also == [] || MentionsAny(s, r.also, 0))
  }

  /** The kind of the first rule from `i` on that fires, else `fallback`. */
  function FirstFiring(rules: seq<Rule>, s: string, i: nat, fallback: GenKind): GenKind
    decreases |rules| - i
  {
    if i >= |rules| then fallback
    else if Fires(rules[i], s) then rules[i].kind
    else FirstFiring(rules, s, i + 1, fallback)
  }

  /** The first type row from `i` on whose keywords `t` contains, resolved by its name table. */
  function FirstRow(rows: seq<TypeRow>, t: string, n: string, i: nat): GenKind
    decreases |rows| - i
  {
    if i >= |rows| then Word
    else if MentionsAny(t, rows[i].keys, 0) then FirstFiring(rows[i].rules, n, 0, rows[i].fallback)
    else FirstRow(rows, t, n, i + 1)
  }

  const TEXT_RULES: seq<Rule> := [
    Rule(["address", "street"], [], StreetAddress),
    Rule(["city"], [], City),
    Rule(["state"], [], StateAbbr),
    Rule(["postal", "zip"], [], Postcode),
    Rule(["country"], [], Country(COUNTRY)),
    Rule(["name"], ["first"], FirstName),
    Rule(["name"], ["last"], LastName),
    Rule(["name"], [], FullName),
    Rule(["email"], [], Email),
    Rule(["phone"], [], Phone),
    Rule(["company"], [], Company)
  ]

  const INT_RULES: seq<Rule> := [
    Rule(["age"], [], IntRange(18, 80)),
    Rule(["year"], [], IntRange(1950, 2025))
  ]

  const DECIMAL_RULES: seq<Rule> := [
    Rule(["price", "cost", "amount"], [], DecRange(1000, 100000))
  ]

  const DATE_RULES: seq<Rule> := [
    Rule(["birth"], [], BirthDate)
  ]

  /** The type table; only the text fallback depends on the type itself. */
  function TypeTable(t: string): seq<TypeRow> {
    [ TypeRow(["NVARCHAR", "VARCHAR", "CHAR", "TEXT"], TEXT_RULES, FreeText(MaxLength(t))),
      TypeRow(["INT", "BIGINT", "SMALLINT"], INT_RULES, IntRange(1, 1000)),
      TypeRow(["DECIMAL", "FLOAT", "MONEY"], DECIMAL_RULES, DecRange(100, 10000)),
      TypeRow(["DATE", "DATETIME", "DATETIME2"], DATE_RULES, RecentDateTime),
      TypeRow(["BIT"], [], Bool) ]
  }

  /** The decision read off the tables. */
  function TableClassify(c: Column): GenKind {
    var t := Upper(c.colType);
    var n := Lower(c.name);
    if c.hasDefault && Contains(n, "created") then Omit else FirstRow(TypeTable(t), t, n, 0)
  }

  lemma {:induction false} Mentions1(s: string, a: string)
    ensures MentionsAny(s, [a], 0) <==> Contains(s, a)
  {
    assert !MentionsAny(s, [a], 1);
  }

  lemma {:induction false} Mentions2(s: string, a: string, b: string)
    ensures MentionsAny(s, [a, b], 0) <==> Contains(s, a) || Contains(s, b)
  {
    assert !MentionsAny(s, [a, b], 2);
  }

  lemma {:induction false} Mentions3(s: string, a: string, b: string, c: string)
    ensures MentionsAny(s, [a, b, c], 0) <==> Contains(s, a) || Contains(s, b) || Contains(s, c)
  {
    var ks := [a, b, c];
    assert MentionsAny(s, ks, 2) <==> Contains(s, c) by { assert !MentionsAny(s, ks, 3); }
    assert MentionsAny(s, ks, 1) <==> Contains(s, b) || Contains(s, c);
  }

  lemma {:induction false} Mentions4(s: string, a: string, b: string, c: string, d: string)
    ensures MentionsAny(s, [a, b, c, d], 0) <==> Contains(s, a) || Contains(s, b) || Contains(s, c) || Contains(s, d)
  {
    var ks := [a, b, c, d];
    assert MentionsAny(s, ks, 3) <==> Contains(s, d) by { assert !MentionsAny(s, ks, 4); }
    assert MentionsAny(s, ks, 2) <==> Contains(s, c) || Contains(s, d);
    assert MentionsAny(s, ks, 1) <==> Contains(s, b) || Contains(s, c) || Contains(s, d);
  }

  /** One step down a table whose row `i` has a single keyword and no second condition. */
  lemma {:induction false} StepOne(rules: seq<Rule>, s: string, i: nat, fb: GenKind, k: string)
    requires i < |rules| && rules[i].keys == [k] && rules[i].also == []
    ensures FirstFiring(rules, s, i, fb) ==
      if Contains(s, k) then rules[i].kind else FirstFiring(rules, s, i + 1, fb)
  {
    Mentions1(s, k);
  }

  /** One step down a table whose row `i` has two keywords and no second condition. */
  lemma {:induction false} StepTwo(rules: seq<Rule>, s: string, i: nat, fb: GenKind, k1: string, k2: string)
    requires i < |rules| && rules[i].keys == [k1, k2] && rules[i].also == []
    ensures FirstFiring(rules, s, i, fb) ==
      if Contains(s, k1) || Contains(s, k2) then rules[i].kind else FirstFiring(rules, s, i + 1, fb)
  {
    Mentions2(s, k1, k2);
  }

  /** One step down a table whose row `i` needs keyword `k` and keyword `a`. */
  lemma {:induction false} StepBoth(rules: seq<Rule>, s: string, i: nat, fb: GenKind, k: string, a: string)
    requires i < |rules| && rules[i].keys == [k] && rules[i].also == [a]
    ensures FirstFiring(rules, s, i, fb) ==
      if Contains(s, k) && Contains(s, a) then rules[i].kind else FirstFiring(rules, s, i + 1, fb)
  {
    Mentions1(s, k);
    Mentions1(s, a);
  }

  lemma {:induction false} TextTableContact(n: string, fb: GenKind)
    ensures FirstFiring(TEXT_RULES, n, 8, fb) ==
      if Contains(n, "email") then Email
      else if Contains(n, "phone") then Phone
      else if Contains(n, "company") then Company
      else fb
  {
    var r := TEXT_RULES;
    assert FirstFiring(r, n, 11, fb) == fb;
    StepOne(r, n, 10, fb, "company");
    StepOne(r, n, 9, fb, "phone");
    StepOne(r, n, 8, fb, "email");
  }

  lemma {:induction false} TextTableTail(n: string, fb: GenKind)
    ensures FirstFiring(TEXT_RULES, n, 5, fb) ==
      if Contains(n, "name") then
        (if Contains(n, "first") then FirstName else if Contains(n, "last") then LastName else FullName)
      else if Contains(n, "email") then Email
      else if Contains(n, "phone") then Phone
      else if Contains(n, "company") then Company
      else fb
  {
    var r := TEXT_RULES;
    TextTableContact(n, fb);
    StepOne(r, n, 7, fb, "name");
    StepBoth(r, n, 6, fb, "name", "last");
    StepBoth(r, n, 5, fb, "name", "first");
  }

  lemma {:induction false} TextTableAgrees(n: string, t: string)
    ensures FirstFiring(TEXT_RULES, n, 0, FreeText(MaxLength(t))) == TextKind(n, t)
  {
    var fb := FreeText(MaxLength(t));
    var r := TEXT_RULES;
    TextTableTail(n, fb);
    StepOne(r, n, 4, fb, "country");
    StepTwo(r, n, 3, fb, "postal", "zip");
    StepOne(r, n, 2, fb, "state");
    StepOne(r, n, 1, fb, "city");
    StepTwo(r, n, 0, fb, "address", "street");
  }

  lemma {:induction false} NumberTablesAgree(n: string)
    ensures FirstFiring(INT_RULES, n, 0, IntRange(1, 1000)) == IntKind(n)
    ensures FirstFiring(DECIMAL_RULES, n, 0, DecRange(100, 10000)) == DecimalKind(n)
    ensures FirstFiring(DATE_RULES, n, 0, RecentDateTime) == DateKind(n)
  {
    StepOne(INT_RULES, n, 1, IntRange(1, 1000), "year");
    StepOne(INT_RULES, n, 0, IntRange(1, 1000), "age");
    Mentions3(n, "price", "cost", "amount");
    StepOne(DATE_RULES, n, 0, RecentDateTime, "birth");
  }

  lemma {:induction false} TypeRowsTail(t: string, n: string)
    ensures FirstRow(TypeTable(t), t, n, 2) ==
      if IsDecimalType(t) then DecimalKind(n)
      else if IsDateType(t) then DateKind(n)
      else if IsBitType(t) then Bool
      else Word
  {
    var rows := TypeTable(t);
    NumberTablesAgree(n);
    assert FirstRow(rows, t, n, 4) == if IsBitType(t) then Bool else Word by {
      Mentions1(t, "BIT");
    }
    assert FirstRow(rows, t, n, 3) == if IsDateType(t) then DateKind(n) else FirstRow(rows, t, n, 4) by {
      Mentions3(t, "DATE", "DATETIME", "DATETIME2");
    }
    assert FirstRow(rows, t, n, 2) == if IsDecimalType(t) then DecimalKind(n) else FirstRow(rows, t, n, 3) by {
      Mentions3(t, "DECIMAL", "FLOAT", "MONEY");
    }
  }

  lemma {:induction false} TypeRowsAgree(t: string, n: string)
    ensures FirstRow(TypeTable(t), t, n, 0) == TypeKind(t, n)
  {
    var rows := TypeTable(t);
    TextTableAgrees(n, t);
    NumberTablesAgree(n);
    TypeRowsTail(t, n);
    assert FirstRow(rows, t, n, 1) == if IsIntType(t) then IntKind(n) else FirstRow(rows, t, n, 2) by {
      Mentions3(t, "INT", "BIGINT", "SMALLINT");
    }
    assert FirstRow(rows, t, n, 0) == if IsTextType(t) then TextKind(n, t) else FirstRow(rows, t, n, 1) by {
      Mentions4(t, "NVARCHAR", "VARCHAR", "CHAR", "TEXT");
    }
  }

  /** The tables and the nested decision choose the same generator for every column. */
  lemma {:induction false} TableAgrees(c: Column)
    ensures TableClassify(c) == Classify(c)
  {
    TypeRowsAgree(Upper(c.colType), Lower(c.name));
  }
}
