/**
 Character classes and string operations with the meaning the modelled
 Python code gives them: `str.isspace`, `str.upper`/`str.lower` restricted to
 ASCII letters, the substring test `k in s`, `strip`, `split()` on
 whitespace runs, `split(sep)` on a single character, and `sep.join(...)`.
 */
module Text {

  /** The characters for which Python's `str.isspace()` holds. */
  predicate IsSpace(c: char) {
    || c == ' '
    || '\t' <= c <= '\r'
    || '\U{1c}' <= c <= '\U{1f}'
    || c == '\U{85}' || c == '\U{a0}' || c == '\U{1680}'
    || '\U{2000}' <= c <= '\U{200a}'
    || c == '\U{2028}' || c == '\U{2029}' || c == '\U{202f}'
    || c == '\U{205f}' || c == '\U{3000}'
  }

  predicate IsDigit(c: char) {
    '0' <= c <= '9'
  }

  predicate IsLetter(c: char) {
    'a' <= c <= 'z' || 'A' <= c <= 'Z'
  }

  /** The ASCII part of the regular-expression class `\w`. */
  predicate IsWordChar(c: char) {
    IsLetter(c) || IsDigit(c) || c == '_'
  }

  predicate AllSpace(s: string) {
    forall i :: 0 <= i < |s| ==> IsSpace(s[i])
  }

  predicate NoSpace(s: string) {
    forall i :: 0 <= i < |s| ==> !IsSpace(s[i])
  }

  lemma NoSpaceAppend(a: string, b: string)
    requires NoSpace(a) && NoSpace(b)
    ensures NoSpace(a + b)
  {
    forall i | 0 <= i < |a + b|
      ensures !IsSpace((a + b)[i])
    {
      if i < |a| {
        assert (a + b)[i] == a[i];
      } else {
        assert (a + b)[i] == b[i - |a|];
      }
    }
  }

  // ---------------------------------------------------------------------
  // Case mapping (ASCII)

  function UpperChar(c: char): char {
    if 'a' <= c <= 'z' then (c as int - 32) as char else c
  }

  function LowerChar(c: char): char {
    if 'A' <= c <= 'Z' then (c as int + 32) as char else c
  }

  function Upper(s: string): (r: string)
    ensures |r| == |s|
    ensures forall i :: 0 <= i < |s| ==> r[i] == UpperChar(s[i])
  {
    seq(|s|, i requires 0 <= i < |s| => UpperChar(s[i]))
  }

  function Lower(s: string): (r: string)
    ensures |r| == |s|
    ensures forall i :: 0 <= i < |s| ==> r[i] == LowerChar(s[i])
  {
    seq(|s|, i requires 0 <= i < |s| => LowerChar(s[i]))
  }

  lemma UpperAppend(a: string, b: string)
    ensures Upper(a + b) == Upper(a) + Upper(b)
  {
    assert forall i :: 0 <= i < |a + b| ==> Upper(a + b)[i] == (Upper(a) + Upper(b))[i];
  }

  /** Upper-casing leaves a string without lower-case letters unchanged. */
  lemma UpperNoLower(s: string)
    requires forall i :: 0 <= i < |s| ==> !('a' <= s[i] <= 'z')
    ensures Upper(s) == s
  {
  }

  // ---------------------------------------------------------------------
  // Substring tests

  predicate StartsWith(s: string, p: string) {
    |p| <= |s| && s[..|p|] == p
  }

  /** `k` occurs in `s` starting at index `i`. */
  predicate OccursAt(s: string, k: string, i: int) {
    0 <= i && i + |k| <= |s| && s[i..i + |k|] == k
  }

  /** Python's `k in s` for strings. */
  predicate Contains(s: string, k: string) {
    exists i | 0 <= i <= |s| - |k| :: OccursAt(s, k, i)
  }

  /** A character of `k` that `s` lacks rules `k` out as a substring of `s`. */
  lemma MissingChar(s: string, k: string, c: char)
    requires c in k && c !in s
    ensures !Contains(s, k)
  {
    var j :| 0 <= j < |k| && k[j] == c;
    forall i | 0 <= i && i + |k| <= |s|
      ensures !OccursAt(s, k, i)
    {
      assert s[i..i + |k|][j] == s[i + j];
    }
  }

  /**
   An occurrence of `k` in `a + b` that begins inside `a` and ends inside `b`,
   with its first `m` characters taken from `a`.
   */
  predicate StraddlesAt(a: string, b: string, k: string, m: int) {
    0 < m < |k| && m <= |a| && |k| - m <= |b| && a[|a| - m..] + b[..|k| - m] == k
  }

  ghost predicate NoStraddle(a: string, b: string, k: string) {
    forall m :: !StraddlesAt(a, b, k, m)
  }

  /** Away from the seam, occurrences in `a + b` are occurrences in `a` or in `b`. */
  lemma {:induction false} ContainsConcat(a: string, b: string, k: string)
    requires NoStraddle(a, b, k)
    ensures Contains(a + b, k) <==> Contains(a, k) || Contains(b, k)
  {
    var s := a + b;
    if Contains(a, k) {
      var i :| 0 <= i <= |a| - |k| && OccursAt(a, k, i);
      SliceLeft(a, b, i, i + |k|);
      assert OccursAt(s, k, i);
    }
    if Contains(b, k) {
      var i :| 0 <= i <= |b| - |k| && OccursAt(b, k, i);
      SliceRight(a, b, |a| + i, |a| + i + |k|);
      assert OccursAt(s, k, |a| + i);
    }
    if Contains(s, k) {
      var i :| 0 <= i <= |s| - |k| && OccursAt(s, k, i);
      if i + |k| <= |a| {
        SliceLeft(a, b, i, i + |k|);
        assert OccursAt(a, k, i);
      } else if |a| <= i {
        SliceRight(a, b, i, i + |k|);
        assert OccursAt(b, k, i - |a|);
      } else {
        SeamOccurrence(a, b, k, i);
        assert false;
      }
    }
  }

  lemma SliceLeft(a: string, b: string, i: int, j: int)
    requires 0 <= i <= j <= |a|
    ensures (a + b)[i..j] == a[i..j]
  {
  }

  lemma SliceRight(a: string, b: string, i: int, j: int)
    requires |a| <= i <= j <= |a| + |b|
    ensures (a + b)[i..j] == b[i - |a|..j - |a|]
  {
  }

  lemma SliceSuffix(a: string, b: string, n: int)
    requires 0 <= n <= |a|
    ensures (a + b)[n..] == a[n..] + b
  {
  }

  lemma SeamOccurrence(a: string, b: string, k: string, i: int)
    requires OccursAt(a + b, k, i) && i < |a| < i + |k|
    ensures StraddlesAt(a, b, k, |a| - i)
  {
    assert (a + b)[i..i + |k|] == a[i..] + b[..i + |k| - |a|];
  }

  /** A separator character absent from `k` cannot be part of an occurrence. */
  lemma NoStraddleAtHead(a: string, b: string, k: string)
    requires b != [] && b[0] !in k
    ensures NoStraddle(a, b, k)
  {
    forall m | 0 < m < |k| && m <= |a| && |k| - m <= |b|
      ensures !StraddlesAt(a, b, k, m)
    {
      assert (a[|a| - m..] + b[..|k| - m])[m] == b[0];
    }
  }

  lemma NoStraddleAtTail(a: string, b: string, k: string)
    requires a != [] && a[|a| - 1] !in k
    ensures NoStraddle(a, b, k)
  {
    forall m | 0 < m < |k| && m <= |a| && |k| - m <= |b|
      ensures !StraddlesAt(a, b, k, m)
    {
      assert (a[|a| - m..] + b[..|k| - m])[m - 1] == a[|a| - 1];
    }
  }

  /** Leading whitespace cannot start an occurrence of a word-initial `k`. */
  lemma NoStraddleAfterSpace(a: string, b: string, k: string)
    requires AllSpace(a) && |k| > 0 && !IsSpace(k[0])
    ensures NoStraddle(a, b, k)
  {
    forall m | 0 < m < |k| && m <= |a| && |k| - m <= |b|
      ensures !StraddlesAt(a, b, k, m)
    {
      assert (a[|a| - m..] + b[..|k| - m])[0] == a[|a| - m];
    }
  }

  lemma NoStraddleBeforeSpace(a: string, b: string, k: string)
    requires AllSpace(b) && |k| > 0 && !IsSpace(k[|k| - 1])
    ensures NoStraddle(a, b, k)
  {
    forall m | 0 < m < |k| && m <= |a| && |k| - m <= |b|
      ensures !StraddlesAt(a, b, k, m)
    {
      assert (a[|a| - m..] + b[..|k| - m])[|k| - 1] == b[|k| - m - 1];
    }
  }

  /**
   For a `k` whose only blank is at `p`: an occurrence straddling into a `b`
   that begins with a blank would have to put `k[p]` on it, so one character
   of `b` that differs from the matching character of `k` rules it out.
   */
  lemma SpaceHeadMismatch(a: string, b: string, k: string, p: int, j: int)
    requires 0 <= p < |k| && k[p] == ' '
    requires forall i :: 0 <= i < |k| && i != p ==> k[i] != ' '
    requires b != [] && b[0] == ' '
    requires 0 < j < |k| - p && j < |b| && b[j] != k[p + j]
    ensures NoStraddle(a, b, k)
  {
    forall m | 0 < m < |k| && m <= |a| && |k| - m <= |b|
      ensures !StraddlesAt(a, b, k, m)
    {
      var w := a[|a| - m..] + b[..|k| - m];
      assert w[m] == b[0];
      if m == p {
        assert w[p + j] == b[j];
      }
    }
  }

  /** The mirror image: `a` ends with a blank, and a character of `a` before it
      differs from the matching character of `k`. */
  lemma SpaceTailMismatch(a: string, b: string, k: string, p: int, j: int)
    requires 0 <= p < |k| && k[p] == ' '
    requires forall i :: 0 <= i < |k| && i != p ==> k[i] != ' '
    requires a != [] && a[|a| - 1] == ' '
    requires 0 <= j < p && (p + 1 <= |a| ==> a[|a| - p - 1 + j] != k[j])
    ensures NoStraddle(a, b, k)
  {
    forall m | 0 < m < |k| && m <= |a| && |k| - m <= |b|
      ensures !StraddlesAt(a, b, k, m)
    {
      var w := a[|a| - m..] + b[..|k| - m];
      assert w[m - 1] == a[|a| - 1];
      if m == p + 1 {
        assert w[j] == a[|a| - p - 1 + j];
      }
    }
  }

  /** Whitespace alone never contains a keyword with a non-space character. */
  lemma NoKeywordInSpace(ws: string, k: string)
    requires AllSpace(ws) && !AllSpace(k)
    ensures !Contains(ws, k)
  {
    var j :| 0 <= j < |k| && !IsSpace(k[j]);
    forall i | 0 <= i && i + |k| <= |ws|
      ensures !OccursAt(ws, k, i)
    {
      assert ws[i..i + |k|][j] == ws[i + j];
    }
  }

  // ---------------------------------------------------------------------
  // Trimming

  /** `s.lstrip()`: drops leading whitespace. */
  function TrimLeft(s: string): (r: string)
    ensures |r| <= |s| && r == s[|s| - |r|..]
    ensures AllSpace(s[..|s| - |r|])
    ensures r != [] ==> !IsSpace(r[0])
  {
    if s != [] && IsSpace(s[0]) then
      var r := TrimLeft(s[1..]);
      assert s[..|s| - |r|] == [s[0]] + s[1..][..|s| - 1 - |r|];
      r
    else
      s
  }

  /** `s.rstrip()`: drops trailing whitespace. */
  function TrimRight(s: string): (r: string)
    ensures |r| <= |s| && r == s[..|r|]
    ensures AllSpace(s[|r|..])
    ensures r != [] ==> !IsSpace(r[|r| - 1])
  {
    if s != [] && IsSpace(s[|s| - 1]) then
      var r := TrimRight(s[..|s| - 1]);
      assert s[|r|..] == s[..|s| - 1][|r|..] + [s[|s| - 1]];
      r
    else
      s
  }

  /** `s.strip()`. */
  function Strip(s: string): string {
    TrimRight(TrimLeft(s))
  }

  /** `s.rstrip(c)`: drops every trailing `c`. */
  function RStripChar(s: string, c: char): (r: string)
    ensures |r| <= |s| && r == s[..|r|]
    ensures forall i :: |r| <= i < |s| ==> s[i] == c
    ensures r != [] ==> r[|r| - 1] != c
  {
    if s != [] && s[|s| - 1] == c then RStripChar(s[..|s| - 1], c) else s
  }

  /** Stripping `c` from a string that gained one trailing `c` gives the string back. */
  lemma RStripCharAdded(s: string, c: char)
    requires s == [] || s[|s| - 1] != c
    ensures RStripChar(s + [c], c) == s
  {
    assert (s + [c])[..|s|] == s;
  }

  /** `s.lstrip(c)`. */
  function LStripChar(s: string, c: char): (r: string)
    ensures |r| <= |s| && r == s[|s| - |r|..]
    ensures forall i :: 0 <= i < |s| - |r| ==> s[i] == c
    ensures r != [] ==> r[0] != c
  {
    if s != [] && s[0] == c then LStripChar(s[1..], c) else s
  }

  /** `s.strip(c)`: drops `c` at both ends. */
  function StripChar(s: string, c: char): string {
    RStripChar(LStripChar(s, c), c)
  }

  lemma TrimLeftSpaces(ws: string, s: string)
    requires AllSpace(ws) && (s == [] || !IsSpace(s[0]))
    ensures TrimLeft(ws + s) == s
    decreases |ws|
  {
    if ws != [] {
      assert (ws + s)[1..] == ws[1..] + s;
      TrimLeftSpaces(ws[1..], s);
    }
  }

  lemma TrimRightClean(s: string)
    requires s == [] || !IsSpace(s[|s| - 1])
    ensures TrimRight(s) == s
  {
  }

  /** Stripping a string whose ends are whitespace-free changes nothing. */
  lemma StripClean(s: string)
    requires s == [] || (!IsSpace(s[0]) && !IsSpace(s[|s| - 1]))
    ensures Strip(s) == s
  {
  }

  lemma UpperSpaces(ws: string)
    requires AllSpace(ws)
    ensures AllSpace(Upper(ws))
  {
  }

  /** Dropping leading whitespace does not change which keywords occur. */
  lemma {:induction false} ContainsTrimLeft(s: string, k: string)
    requires |k| > 0 && !IsSpace(k[0])
    ensures Contains(Upper(TrimLeft(s)), k) <==> Contains(Upper(s), k)
  {
    var l := TrimLeft(s);
    var lead := s[..|s| - |l|];
    assert s == lead + l;
    UpperAppend(lead, l);
    UpperSpaces(lead);
    NoStraddleAfterSpace(Upper(lead), Upper(l), k);
    ContainsConcat(Upper(lead), Upper(l), k);
    NoKeywordInSpace(Upper(lead), k);
  }

  /** Dropping trailing whitespace does not change which keywords occur. */
  lemma {:induction false} ContainsTrimRight(s: string, k: string)
    requires |k| > 0 && !IsSpace(k[|k| - 1])
    ensures Contains(Upper(TrimRight(s)), k) <==> Contains(Upper(s), k)
  {
    var m := TrimRight(s);
    var trail := s[|m|..];
    assert s == m + trail;
    UpperAppend(m, trail);
    UpperSpaces(trail);
    NoStraddleBeforeSpace(Upper(m), Upper(trail), k);
    ContainsConcat(Upper(m), Upper(trail), k);
    NoKeywordInSpace(Upper(trail), k);
  }

  /** `s.strip()` leaves the keyword tests `k in s.upper()` unchanged. */
  lemma {:induction false} ContainsStripped(s: string, k: string)
    requires |k| > 0 && !IsSpace(k[0]) && !IsSpace(k[|k| - 1])
    ensures Contains(Upper(Strip(s)), k) <==> Contains(Upper(s), k)
  {
    ContainsTrimLeft(s, k);
    ContainsTrimRight(TrimLeft(s), k);
  }

  // ---------------------------------------------------------------------
  // Splitting and joining

  /** Length of the longest whitespace-free prefix of `s`. */
  function WordLen(s: string): (n: nat)
    ensures n <= |s| && NoSpace(s[..n])
    ensures n < |s| ==> IsSpace(s[n])
  {
    if s == [] || IsSpace(s[0]) then 0 else 1 + WordLen(s[1..])
  }

  /** `s.split()`: the maximal whitespace-free runs of `s`, in order. */
  function Split(s: string): seq<string>
    decreases |s|
  {
    var t := TrimLeft(s);
    if t == [] then [] else
    var n := WordLen(t);
    [t[..n]] + Split(t[n..])
  }

  lemma {:induction false} WordLenOf(w: string, rest: string)
    requires NoSpace(w) && (rest == [] || IsSpace(rest[0]))
    ensures WordLen(w + rest) == |w|
    decreases |w|
  {
    if w != [] {
      assert (w + rest)[1..] == w[1..] + rest;
      WordLenOf(w[1..], rest);
    }
  }

  /** A leading word followed by whitespace (or nothing) is the first token. */
  lemma {:induction false} SplitWord(w: string, rest: string)
    requires w != [] && NoSpace(w) && (rest == [] || IsSpace(rest[0]))
    ensures Split(w + rest) == [w] + Split(rest)
  {
    var s := w + rest;
    assert TrimLeft(s) == s;
    WordLenOf(w, rest);
    assert s[..|w|] == w && s[|w|..] == rest;
  }

  lemma {:induction false} TrimLeftAfterSpace(ws: string, s: string)
    requires AllSpace(ws)
    ensures TrimLeft(ws + s) == TrimLeft(s)
    decreases |ws|
  {
    if ws != [] {
      assert (ws + s)[1..] == ws[1..] + s;
      TrimLeftAfterSpace(ws[1..], s);
    } else {
      assert ws + s == s;
    }
  }

  /** Leading whitespace produces no token. */
  lemma {:induction false} SplitAfterSpace(ws: string, s: string)
    requires AllSpace(ws)
    ensures Split(ws + s) == Split(s)
  {
    TrimLeftAfterSpace(ws, s);
  }

  /** A word and a blank split off as the first token. */
  lemma SplitWordBlank(w: string, rest: string)
    requires w != [] && NoSpace(w)
    ensures Split(w + (" " + rest)) == [w] + Split(rest)
  {
    SplitWord(w, " " + rest);
    SplitBlank(rest);
  }

  lemma SplitBlank(rest: string)
    ensures Split(" " + rest) == Split(rest)
  {
    assert AllSpace(" ");
    SplitAfterSpace(" ", rest);
  }

  /** `sep.join(ls)`. */
  function Join(ls: seq<string>, sep: string): string
  {
    if |ls| == 0 then ""
    else if |ls| == 1 then ls[0]
    else ls[0] + sep + Join(ls[1..], sep)
  }

  /** `c` does not occur in a join when it occurs in no piece and not in the separator. */
  lemma {:induction false} JoinAvoids(ls: seq<string>, sep: string, c: char)
    requires c !in sep
    requires forall i :: 0 <= i < |ls| ==> c !in ls[i]
    ensures c !in Join(ls, sep)
    decreases |ls|
  {
    if |ls| > 1 {
      JoinAvoids(ls[1..], sep, c);
    }
  }

  /** A join framed by a first and a last piece. */
  lemma JoinFramed(h: string, m: seq<string>, z: string, sep: string)
    requires |m| >= 1
    ensures Join([h] + m + [z], sep) == h + sep + Join(m, sep) + sep + z
  {
    JoinSnoc([h] + m, z, sep);
    assert ([h] + m)[1..] == m;
  }

  /** `s.split(c)` for a one-character separator: keeps empty pieces. */
  function SplitOn(s: string, c: char): (r: seq<string>)
    ensures |r| >= 1
    ensures forall i :: 0 <= i < |r| ==> c !in r[i]
    ensures Join(r, [c]) == s
    decreases |s|
  {
    if s == [] then [""]
    else if s[0] == c then
      var t := SplitOn(s[1..], c);
      assert [c] + s[1..] == s;
      [""] + t
    else
      var t := SplitOn(s[1..], c);
      assert [s[0]] + s[1..] == s;
      [[s[0]] + t[0]] + t[1..]
  }

  lemma {:induction false} JoinSnoc(ls: seq<string>, x: string, sep: string)
    requires |ls| >= 1
    ensures Join(ls + [x], sep) == Join(ls, sep) + sep + x
    decreases |ls|
  {
    if |ls| > 1 {
      assert (ls + [x])[1..] == ls[1..] + [x];
      JoinSnoc(ls[1..], x, sep);
    }
  }

  lemma {:induction false} SplitOnPrefix(e: string, rest: string, c: char)
    requires c !in e
    ensures SplitOn(e + rest, c) == [e + SplitOn(rest, c)[0]] + SplitOn(rest, c)[1..]
    decreases |e|
  {
    if e != [] {
      assert (e + rest)[1..] == e[1..] + rest;
      SplitOnPrefix(e[1..], rest, c);
      assert [e[0]] + (e[1..] + SplitOn(rest, c)[0]) == e + SplitOn(rest, c)[0];
    } else {
      var t := SplitOn(rest, c);
      assert e + rest == rest && e + t[0] == t[0];
      assert [t[0]] + t[1..] == t;
    }
  }

  /** Splitting a join of separator-free pieces gives the pieces back. */
  lemma {:induction false} SplitOnJoin(ls: seq<string>, c: char)
    requires |ls| >= 1
    requires forall i :: 0 <= i < |ls| ==> c !in ls[i]
    ensures SplitOn(Join(ls, [c]), c) == ls
    decreases |ls|
  {
    if |ls| == 1 {
      SplitOnPrefix(ls[0], [], c);
      assert SplitOn([], c) == [""];
      assert ls[0] + [] == ls[0] + "" == ls[0];
    } else {
      var rest := Join(ls[1..], [c]);
      SplitOnJoin(ls[1..], c);
      assert ([c] + rest)[1..] == rest;
      assert SplitOn([c] + rest, c) == [""] + ls[1..];
      assert Join(ls, [c]) == ls[0] + ([c] + rest);
      SplitOnPrefix(ls[0], [c] + rest, c);
      assert ls[0] + "" == ls[0];
      assert [ls[0]] + ls[1..] == ls;
    }
  }

  /** The index of the last `c` in `s`, as `s.rfind(c)` would report it. */
  function LastIndexOf(s: string, c: char): (r: int)
    ensures -1 <= r < |s|
    ensures r >= 0 ==> s[r] == c
    ensures forall i :: r < i < |s| ==> s[i] != c
  {
    if s == [] then -1
    else if s[|s| - 1] == c then |s| - 1
    else LastIndexOf(s[..|s| - 1], c)
  }

  lemma {:induction false} TrimLeftBeforeSpace(s: string, ws: string)
    requires AllSpace(ws)
    ensures TrimLeft(s + ws) == (if TrimLeft(s) == [] then [] else TrimLeft(s) + ws)
    decreases |s|
  {
    if s == [] {
      assert s + ws == ws;
      TrimLeftAfterSpace(ws, []);
      assert ws + [] == ws;
    } else if IsSpace(s[0]) {
      assert (s + ws)[1..] == s[1..] + ws;
      TrimLeftBeforeSpace(s[1..], ws);
    }
  }

  lemma {:induction false} WordLenBeforeSpace(t: string, ws: string)
    requires AllSpace(ws)
    ensures WordLen(t + ws) == WordLen(t)
    decreases |t|
  {
    if t == [] {
      assert t + ws == ws;
    } else if !IsSpace(t[0]) {
      assert (t + ws)[1..] == t[1..] + ws;
      WordLenBeforeSpace(t[1..], ws);
    }
  }

  /** Trailing whitespace produces no token. */
  lemma {:induction false} SplitBeforeSpace(s: string, ws: string)
    requires AllSpace(ws)
    ensures Split(s + ws) == Split(s)
    decreases |s|
  {
    TrimLeftBeforeSpace(s, ws);
    var t := TrimLeft(s);
    var u := TrimLeft(s + ws);
    if t == [] {
      assert u == [];
    } else {
      var n := WordLen(t);
      assert u == t + ws;
      WordLenBeforeSpace(t, ws);
      assert WordLen(u) == n;
      SliceLeft(t, ws, 0, n);
      SliceSuffix(t, ws, n);
      assert u[..n] == t[..n];
      assert u[n..] == t[n..] + ws;
      SplitBeforeSpace(t[n..], ws);
      assert Split(s + ws) == [u[..n]] + Split(u[n..]);
      assert Split(s) == [t[..n]] + Split(t[n..]);
    }
  }

  lemma SplitAt(s: string, p: nat)
    requires p <= |s|
    ensures s[..p] + s[p..] == s
  {
  }

  /** `s.strip().split()` and `s.split()` give the same tokens. */
  lemma {:induction false} SplitStripped(s: string)
    ensures Split(Strip(s)) == Split(s)
  {
    var l := TrimLeft(s);
    var m := TrimRight(l);
    assert Strip(s) == m;
    var p := |s| - |l|;
    SplitAt(s, p);
    SplitAfterSpace(s[..p], s[p..]);
    SplitAt(l, |m|);
    SplitBeforeSpace(l[..|m|], l[|m|..]);
  }

  // ---------------------------------------------------------------------
  // Counting a character

  /** `s.count(c)` for a one-character `c`. */
  function Count(s: string, c: char): nat
    decreases |s|
  {
    if s == [] then 0 else Count(s[..|s| - 1], c) + (if s[|s| - 1] == c then 1 else 0)
  }

  lemma {:induction false} CountAbsent(s: string, c: char)
    requires c !in s
    ensures Count(s, c) == 0
    decreases |s|
  {
    if s != [] {
      assert forall x :: x in s[..|s| - 1] ==> x in s;
      CountAbsent(s[..|s| - 1], c);
    }
  }

  lemma {:induction false} CountAppend(a: string, b: string, c: char)
    ensures Count(a + b, c) == Count(a, c) + Count(b, c)
    decreases |b|
  {
    if b == [] {
      assert a + b == a;
    } else {
      assert (a + b)[..|a + b| - 1] == a + b[..|b| - 1];
      CountAppend(a, b[..|b| - 1], c);
    }
  }
}
