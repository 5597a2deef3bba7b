/**
 * String and byte helpers shared by both generator variants: the JavaScript
 * string operations the component relies on (toLowerCase, toUpperCase,
 * includes, trim, substring, split, join, number-to-text), each restricted to
 * what the generator needs and stated with its own contract.
 */
module Text {

  newtype byte = x: int | 0 <= x < 256

  datatype Option<T> = None | Some(value: T)

  // ---------------------------------------------------------------------
  // ASCII case mapping (toLowerCase / toUpperCase restricted to ASCII)
  // ---------------------------------------------------------------------

  predicate IsUpper(c: char) { 'A' <= c <= 'Z' }

  predicate IsLower(c: char) { 'a' <= c <= 'z' }

  function LowerChar(c: char): char {
    if IsUpper(c) then (c as int + 32) as char else c
  }

  function UpperChar(c: char): char {
    if IsLower(c) then (c as int - 32) as char else c
  }

  /** `s.toLowerCase()` on ASCII letters. */
  function Lower(s: string): (r: string)
    ensures |r| == |s|
    ensures forall i :: 0 <= i < |s| ==> r[i] == LowerChar(s[i])
  {
    seq(|s|, i requires 0 <= i < |s| => LowerChar(s[i]))
  }

  /** `s.toUpperCase()` on ASCII letters. */
  function Upper(s: string): (r: string)
    ensures |r| == |s|
    ensures forall i :: 0 <= i < |s| ==> r[i] == UpperChar(s[i])
  {
    if s == [] then [] else [UpperChar(s[0])] + Upper(s[1..])
  }

  /** Lower-casing leaves no upper-case letter behind and is idempotent. */
  lemma LowerIsNormal(s: string)
    ensures forall i :: 0 <= i < |s| ==> !IsUpper(Lower(s)[i])
    ensures Lower(Lower(s)) == Lower(s)
  {
    assert forall i :: 0 <= i < |s| ==> LowerChar(LowerChar(s[i])) == LowerChar(s[i]);
  }

  /** `s.charAt(0).toUpperCase() + s.slice(1)`. */
  function Capitalize(s: string): (r: string)
    ensures |r| == |s|
    ensures |s| > 0 ==> r[0] == UpperChar(s[0]) && r[1..] == s[1..]
  {
    if s == [] then [] else [UpperChar(s[0])] + s[1..]
  }

  /** `s.substring(0, n)` for a non-negative n. */
  function Prefix(s: string, n: nat): (r: string)
    ensures |r| == if n < |s| then n else |s|
    ensures r <= s
  {
    if n < |s| then s[..n] else s
  }

  // ---------------------------------------------------------------------
  // Substring search (`String.prototype.includes`)
  // ---------------------------------------------------------------------

  /** p occurs in s starting at position i. */
  predicate OccursAt(s: string, p: string, i: nat) {
    i + |p| <= |s| && s[i..i + |p|] == p
  }

  /** `s.includes(p)`: p occurs in s at some position. */
  predicate Contains(s: string, p: string) {
    exists i | 0 <= i <= |s| - |p| :: OccursAt(s, p, i)
  }

  /** A substring of a substring is a substring: overlapping keywords are found independently. */
  lemma ContainsTransitive(s: string, p: string, q: string)
    requires Contains(s, p) && Contains(p, q)
    ensures Contains(s, q)
  {
    var i :| 0 <= i <= |s| - |p| && OccursAt(s, p, i);
    var j :| 0 <= j <= |p| - |q| && OccursAt(p, q, j);
    forall k | 0 <= k < |q| ensures s[i + j + k] == q[k] {
      assert s[i + j + k] == s[i..i + |p|][j + k] == p[j + k] == p[j..j + |q|][k];
    }
    assert OccursAt(s, q, i + j);
  }

  /**
   * The first entry of an ordered key table whose key occurs in `s`
   * (a `for ... in` loop over object keys that breaks on the first hit).
   */
  function FirstContainedKey<T>(table: seq<(string, T)>, s: string): (r: Option<nat>)
    ensures r.Some? ==> r.value < |table| && Contains(s, table[r.value].0)
    ensures r.Some? ==> forall j :: 0 <= j < r.value ==> !Contains(s, table[j].0)
    ensures r.None? <==> forall j :: 0 <= j < |table| ==> !Contains(s, table[j].0)
  {
    if table == [] then None
    else if Contains(s, table[0].0) then Some(0)
    else match FirstContainedKey(table[1..], s)
      case None => None
      case Some(k) => Some(k + 1)
  }

  /** The `for ... in` loop itself: scans the keys in order and stops at the first one `s` contains. */
  method FindFirstKey<T>(table: seq<(string, T)>, s: string) returns (r: Option<nat>)
    ensures r == FirstContainedKey(table, s)
  {
    var k := 0;
    while k < |table|
      invariant 0 <= k <= |table|
      invariant forall j :: 0 <= j < k ==> !Contains(s, table[j].0)
    {
      if Contains(s, table[k].0) {
        FirstContainedKeyAt(table, s, k);
        return Some(k);
      }
      k := k + 1;
    }
    return None;
  }

  /** The search stops at the first hit: a hit at k with none before it is the result. */
  lemma FirstContainedKeyAt<T>(table: seq<(string, T)>, s: string, k: nat)
    requires k < |table| && Contains(s, table[k].0)
    requires forall j :: 0 <= j < k ==> !Contains(s, table[j].0)
    ensures FirstContainedKey(table, s) == Some(k)
  {
  }

  // ---------------------------------------------------------------------
  // String.prototype.trim
  // ---------------------------------------------------------------------

  /** The characters JavaScript's `trim` removes: WhiteSpace and LineTerminator. */
  predicate IsJsWhitespace(c: char) {
    || c == ' ' || c == '\t' || c == '\n' || c == '\r' || c == '\U{000B}' || c == '\U{000C}'
    || c == '\U{00A0}' || c == '\U{1680}' || ('\U{2000}' <= c <= '\U{200A}')
    || c == '\U{2028}' || c == '\U{2029}' || c == '\U{202F}' || c == '\U{205F}'
    || c == '\U{3000}' || c == '\U{FEFF}'
  }

  predicate IsBlank(s: string) {
    forall i :: 0 <= i < |s| ==> IsJsWhitespace(s[i])
  }

  /** The number of white-space characters at the start of s. */
  function LeadingBlanks(s: string): (k: nat)
    ensures k <= |s| && IsBlank(s[..k])
    ensures k < |s| ==> !IsJsWhitespace(s[k])
  {
    if |s| > 0 && IsJsWhitespace(s[0]) then
      var k := LeadingBlanks(s[1..]);
      assert s[..k + 1] == [s[0]] + s[1..][..k];
      k + 1
    else 0
  }

  /** The number of white-space characters at the end of s. */
  function TrailingBlanks(s: string): (k: nat)
    ensures k <= |s| && IsBlank(s[|s| - k..])
    ensures k < |s| ==> !IsJsWhitespace(s[|s| - k - 1])
  {
    if |s| > 0 && IsJsWhitespace(s[|s| - 1]) then
      var k := TrailingBlanks(s[..|s| - 1]);
      BlankExtend(s, k);
      k + 1
    else 0
  }

  /** A white-space run at the end of all but the last character grows by that character when it is white space too. */
  lemma BlankExtend(s: string, k: nat)
    requires k < |s| && IsJsWhitespace(s[|s| - 1]) && IsBlank(s[..|s| - 1][|s| - 1 - k..])
    ensures IsBlank(s[|s| - k - 1..])
  {
    var t := s[|s| - k - 1..];
    var u := s[..|s| - 1][|s| - 1 - k..];
    forall i | 0 <= i < |t| ensures IsJsWhitespace(t[i]) {
      if i < k {
        assert t[i] == u[i];
      }
    }
  }

  /**
   * `s.trim()`: s is a white-space prefix, then r, then a white-space suffix,
   * and r neither starts nor ends with white space.
   */
  function Trim(s: string): (r: string)
    ensures LeadingBlanks(s) + |r| <= |s|
    ensures r == s[LeadingBlanks(s)..LeadingBlanks(s) + |r|]
    ensures IsBlank(s[..LeadingBlanks(s)]) && IsBlank(s[LeadingBlanks(s) + |r|..])
    ensures r == [] || (!IsJsWhitespace(r[0]) && !IsJsWhitespace(r[|r| - 1]))
  {
    var k := LeadingBlanks(s);
    var t := s[k..];
    var m := TrailingBlanks(t);
    assert |t| == |s| - k;
    TrimmedSlice(s, k, m);
    s[k..|s| - m]
  }

  /**
   * Cutting a blank prefix of k and a blank suffix of m, each ending at a
   * non-white character, leaves a slice of s that neither starts nor ends
   * with white space.
   */
  lemma TrimmedSlice(s: string, k: nat, m: nat)
    requires k + m <= |s|
    requires k < |s| ==> !IsJsWhitespace(s[k])
    requires IsBlank(s[k..][|s| - k - m..])
    requires m < |s| - k ==> !IsJsWhitespace(s[k..][|s| - k - m - 1])
    ensures IsBlank(s[|s| - m..])
    ensures var r := s[k..|s| - m]; r == [] || (!IsJsWhitespace(r[0]) && !IsJsWhitespace(r[|r| - 1]))
  {
    assert s[k..][|s| - k - m..] == s[|s| - m..];
  }

  /** `!s.trim()` holds exactly when every character of s is white space. */
  lemma TrimEmptyIffBlank(s: string)
    ensures Trim(s) == [] <==> IsBlank(s)
  {
    var k := LeadingBlanks(s);
    var t := s[k..];
    var m := TrailingBlanks(t);
    if Trim(s) == [] {
      assert m == |t|;
      assert t == [];
      assert s == s[..k];
    } else {
      assert Trim(s)[0] == s[k];
    }
  }

  // ---------------------------------------------------------------------
  // split(' ')[0]
  // ---------------------------------------------------------------------

  /** `s.split(' ')[0]`: the text before the first space, or all of s. */
  function FirstWord(s: string): (w: string)
    ensures w <= s
    ensures forall i :: 0 <= i < |w| ==> w[i] != ' '
    ensures |w| < |s| ==> s[|w|] == ' '
  {
    if s == [] || s[0] == ' ' then [] else [s[0]] + FirstWord(s[1..])
  }

  // ---------------------------------------------------------------------
  // Decimal text of natural numbers (`${n}`) and its inverse
  // ---------------------------------------------------------------------

  predicate IsDigit(c: char) { '0' <= c <= '9' }

  predicate AllDigits(s: string) { forall i :: 0 <= i < |s| ==> IsDigit(s[i]) }

  function Digit(d: nat): (c: char)
    requires d < 10
    ensures IsDigit(c)
  {
    ('0' as int + d) as char
  }

  /** The decimal numeral JavaScript prints for a non-negative integer. */
  function DecimalText(n: nat): (s: string)
    ensures |s| >= 1 && AllDigits(s)
    ensures n < 10 <==> |s| == 1
    ensures s[0] != '0' || n == 0
    decreases n
  {
    if n < 10 then [Digit(n)] else DecimalText(n / 10) + [Digit(n % 10)]
  }

  /** The value of a string of decimal digits. */
  function DecimalValue(s: string): nat
    requires AllDigits(s)
  {
    if s == [] then 0 else DecimalValue(s[..|s| - 1]) * 10 + (s[|s| - 1] as int - '0' as int)
  }

  /** Printing a number and reading it back gives the number. */
  lemma {:induction false} DecimalRoundTrip(n: nat)
    ensures DecimalValue(DecimalText(n)) == n
    decreases n
  {
    var s := DecimalText(n);
    if n >= 10 {
      DecimalRoundTrip(n / 10);
      assert s[..|s| - 1] == DecimalText(n / 10);
    }
  }

  /** Four-digit numbers print as exactly four digits, the leading one non-zero. */
  lemma FourDigits(n: nat)
    requires 1000 <= n <= 9999
    ensures |DecimalText(n)| == 4 && DecimalText(n)[0] != '0'
  {
    assert DecimalText(n) == DecimalText(n / 10) + [Digit(n % 10)];
    assert DecimalText(n / 10) == DecimalText(n / 100) + [Digit(n / 10 % 10)];
    assert DecimalText(n / 100) == DecimalText(n / 1000) + [Digit(n / 100 % 10)];
    assert DecimalText(n / 1000) == [Digit(n / 1000)];
  }

  // ---------------------------------------------------------------------
  // Array.prototype.join and String.prototype.split on one character
  // ---------------------------------------------------------------------

  /** `parts.join(sep)`. */
  function Join(parts: seq<string>, sep: char): string {
    if |parts| == 0 then []
    else if |parts| == 1 then parts[0]
    else parts[0] + [sep] + Join(parts[1..], sep)
  }

  /** The index of the first occurrence of c in s. */
  function FirstIndex(s: string, c: char): (i: nat)
    requires c in s
    ensures i < |s| && s[i] == c && c !in s[..i]
  {
    if s[0] == c then 0 else FirstIndex(s[1..], c) + 1
  }

  /** `s.split(sep)`. */
  function Split(s: string, sep: char): (parts: seq<string>)
    ensures |parts| >= 1
    decreases |s|
  {
    if sep !in s then [s]
    else
      var i := FirstIndex(s, sep);
      [s[..i]] + Split(s[i + 1..], sep)
  }

  predicate FreeOf(parts: seq<string>, c: char) {
    forall k :: 0 <= k < |parts| ==> c !in parts[k]
  }

  /** Joining and splitting again gives the parts back when no part holds the separator. */
  lemma {:induction false} SplitJoin(parts: seq<string>, sep: char)
    requires |parts| >= 1 && FreeOf(parts, sep)
    ensures Split(Join(parts, sep), sep) == parts
    decreases |parts|
  {
    if |parts| > 1 {
      SplitJoinStep(parts, sep);
      SplitJoin(parts[1..], sep);
      assert parts == [parts[0]] + parts[1..];
    }
  }

  /** The first separator of a joined text ends its first part. */
  lemma SplitJoinStep(parts: seq<string>, sep: char)
    requires |parts| > 1 && sep !in parts[0]
    ensures Split(Join(parts, sep), sep) == [parts[0]] + Split(Join(parts[1..], sep), sep)
  {
    var p := parts[0];
    var rest := Join(parts[1..], sep);
    var s := Join(parts, sep);
    assert s == p + [sep] + rest;
    assert s[..|p|] == p && s[|p|] == sep && s[|p| + 1..] == rest;
    FirstIndexAt(s, sep, |p|);
  }

  /** The first occurrence is the position of an occurrence with none before it. */
  lemma FirstIndexAt(s: string, c: char, j: nat)
    requires j < |s| && s[j] == c && c !in s[..j]
    ensures c in s && FirstIndex(s, c) == j
  {
    assert s[j] == c;
  }

  lemma {:induction false} JoinAppend(parts: seq<string>, x: string, sep: char)
    requires |parts| >= 1
    ensures Join(parts + [x], sep) == Join(parts, sep) + [sep] + x
    decreases |parts|
  {
    var ys := parts + [x];
    assert ys[0] == parts[0] && |ys| > 1;
    assert Join(ys, sep) == parts[0] + [sep] + Join(ys[1..], sep);
    if |parts| == 1 {
      assert ys[1..] == [x];
    } else {
      assert ys[1..] == parts[1..] + [x];
      JoinAppend(parts[1..], x, sep);
      assert Join(parts, sep) == parts[0] + [sep] + Join(parts[1..], sep);
    }
  }

  /** Lines each followed by a newline, as a file built by `+= line + '\n'`. */
  function Terminated(lines: seq<string>): string {
    if lines == [] then [] else Terminated(lines[..|lines| - 1]) + lines[|lines| - 1] + "\n"
  }

  /** Ending one more line extends the text by that line and a newline. */
  lemma TerminatedPrefix(lines: seq<string>, i: nat)
    requires i < |lines|
    ensures Terminated(lines[..i + 1]) == Terminated(lines[..i]) + lines[i] + "\n"
  {
    assert lines[..i + 1][..i] == lines[..i];
  }

  lemma {:induction false} TerminatedIsJoined(lines: seq<string>)
    requires |lines| >= 1
    ensures Terminated(lines) == Join(lines, '\n') + "\n"
    decreases |lines|
  {
    if |lines| > 1 {
      var init := lines[..|lines| - 1];
      TerminatedIsJoined(init);
      JoinAppend(init, lines[|lines| - 1], '\n');
      assert init + [lines[|lines| - 1]] == lines;
    }
  }

  lemma {:induction false} TerminatedCons(line: string, rest: seq<string>)
    ensures Terminated([line] + rest) == line + "\n" + Terminated(rest)
    decreases |rest|
  {
    if rest != [] {
      var init := rest[..|rest| - 1];
      assert ([line] + rest)[..|rest|] == [line] + init;
      TerminatedCons(line, init);
    }
  }

  /** `items.map(line)` */
  function MapLines<T>(items: seq<T>, line: T -> string): (r: seq<string>)
    ensures |r| == |items| && forall k :: 0 <= k < |items| ==> r[k] == line(items[k])
  {
    seq(|items|, k requires 0 <= k < |items| => line(items[k]))
  }

  /** One `forEach` step per item, each appending that item's line and a newline to `text0`. */
  method AppendLines<T>(text0: string, items: seq<T>, line: T -> string) returns (text: string)
    ensures text == text0 + Terminated(MapLines(items, line))
  {
    ghost var lines := MapLines(items, line);
    text := text0;
    assert lines[..0] == [];
    for i := 0 to |items|
      invariant text == text0 + Terminated(lines[..i])
    {
      TerminatedPrefix(lines, i);
      text := text + line(items[i]) + "\n";
    }
    assert lines[..|items|] == lines;
  }

  /** Splitting a newline-terminated text into its lines (the final empty piece dropped). */
  function SplitLines(s: string): seq<string> {
    if s == [] then [] else if s[|s| - 1] == '\n' then Split(s[..|s| - 1], '\n') else Split(s, '\n')
  }

  /** Newline-terminated lines read back as the same lines when none of them holds a newline. */
  lemma SplitTerminated(lines: seq<string>)
    requires |lines| >= 1 && FreeOf(lines, '\n')
    ensures SplitLines(Terminated(lines)) == lines
  {
    TerminatedIsJoined(lines);
    var s := Terminated(lines);
    assert s[..|s| - 1] == Join(lines, '\n');
    SplitJoin(lines, '\n');
  }
}
