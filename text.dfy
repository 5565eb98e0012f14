/**
 * String operations of Python's `str` that the linter relies on, over
 * `seq<char>`: substring search (`in`), `split`, `join`, `replace`,
 * ASCII case folding, `repr` of a string, and the character classes `\s` and
 * `\w` of Python's `re` module.
 */
module Text {

  /** `sub` occurs in `s` starting at index `i`. */
  predicate OccursAt(s: string, sub: string, i: int) {
    0 <= i <= |s| - |sub| && s[i..i + |sub|] == sub
  }

  /** Python `sub in s`. */
  predicate Contains(s: string, sub: string) {
    exists i | 0 <= i <= |s| - |sub| :: OccursAt(s, sub, i)
  }

  /** Python `s.endswith(p)`. */
  predicate EndsWith(s: string, p: string) {
    |p| <= |s| && s[|s| - |p|..] == p
  }

  lemma ContainsAt(s: string, sub: string, i: int)
    requires OccursAt(s, sub, i)
    ensures Contains(s, sub)
  {
  }

  /** A prefix of `s` contains whatever `s` is said to contain there. */
  lemma ContainsConcat(a: string, b: string, sub: string)
    ensures Contains(a, sub) ==> Contains(a + b, sub)
    ensures Contains(b, sub) ==> Contains(a + b, sub)
  {
    if Contains(a, sub) {
      var i :| 0 <= i <= |a| - |sub| && OccursAt(a, sub, i);
      assert (a + b)[i..i + |sub|] == sub;
      assert OccursAt(a + b, sub, i);
    }
    if Contains(b, sub) {
      var i :| 0 <= i <= |b| - |sub| && OccursAt(b, sub, i);
      assert 0 <= i <= |b| - |sub| && b[i..i + |sub|] == sub;
      assert (a + b)[|a| + i..|a| + i + |sub|] == sub;
      assert OccursAt(a + b, sub, |a| + i);
    }
  }

  // ---------------------------------------------------------------------
  // Case folding (ASCII only)

  function LowerChar(c: char): (r: char)
    ensures 'A' <= c <= 'Z' ==> 'a' <= r <= 'z'
    ensures !('A' <= c <= 'Z') ==> r == c
  {
    if 'A' <= c <= 'Z' then (c as int + 32) as char else c
  }

  /** Python `s.lower()` restricted to ASCII letters. */
  function Lower(s: string): (r: string)
    ensures |r| == |s|
    ensures forall i :: 0 <= i < |s| ==> r[i] == LowerChar(s[i])
  {
    if s == [] then [] else [LowerChar(s[0])] + Lower(s[1..])
  }

  lemma LowerConcat(a: string, b: string)
    ensures Lower(a + b) == Lower(a) + Lower(b)
  {
  }

  /** `s` starts with `w`, ignoring case. */
  predicate StartsWithIgnoreCase(s: string, w: string)
    decreases |s|
  {
    |w| <= |s| && (|w| == 0 || (LowerChar(s[0]) == LowerChar(w[0]) && StartsWithIgnoreCase(s[1..], w[1..])))
  }

  /** Every string starts with itself followed by anything. */
  lemma {:induction false} StartsWithIgnoreCaseSelf(w: string, rest: string)
    ensures StartsWithIgnoreCase(w + rest, w)
    decreases |w|
  {
    if |w| > 0 {
      StartsWithIgnoreCaseSelf(w[1..], rest);
      assert (w + rest)[1..] == w[1..] + rest;
    }
  }

  /** A case-insensitive prefix agrees with `s` character by character, up to case. */
  lemma {:induction false} StartsWithIgnoreCaseChars(s: string, w: string)
    requires StartsWithIgnoreCase(s, w)
    ensures |w| <= |s| && forall j | 0 <= j < |w| :: LowerChar(s[j]) == LowerChar(w[j])
    decreases |w|
  {
    if |w| > 0 {
      StartsWithIgnoreCaseChars(s[1..], w[1..]);
      assert forall j | 1 <= j < |w| :: s[j] == s[1..][j - 1] && w[j] == w[1..][j - 1];
    }
  }

  /** `w` occurs in `s`, ignoring case. */
  predicate ContainsIgnoreCase(s: string, w: string) {
    exists i | 0 <= i <= |s| :: StartsWithIgnoreCase(s[i..], w)
  }

  /** Equality under `re.IGNORECASE` for ASCII text. */
  predicate EqualsIgnoreCase(a: string, b: string) {
    |a| == |b| && StartsWithIgnoreCase(a, b)
  }

  /** Equality ignoring case is equality after `lower()`. */
  lemma {:induction false} EqualsIgnoreCaseLower(a: string, b: string)
    ensures EqualsIgnoreCase(a, b) <==> Lower(a) == Lower(b)
    decreases |a|
  {
    if |a| == |b| && |a| > 0 {
      EqualsIgnoreCaseLower(a[1..], b[1..]);
      assert Lower(a) == [LowerChar(a[0])] + Lower(a[1..]);
      assert Lower(b) == [LowerChar(b[0])] + Lower(b[1..]);
    }
  }

  /** What `$` lets a pattern end against: the text without one final newline. */
  function DropFinalNewline(t: string): (u: string)
    ensures u == t || u + "\n" == t
  {
    if |t| > 0 && t[|t| - 1] == '\n' then t[..|t| - 1] else t
  }

  // ---------------------------------------------------------------------
  // Character classes of Python's `re` on `str` patterns

  /** `\s`: the characters for which Python's `str.isspace()` holds. */
  predicate IsSpace(c: char) {
    c == ' ' || ('\t' <= c <= '\r') || ('\U{1c}' <= c <= '\U{1f}')
    || c == '\U{85}' || c == '\U{a0}' || c == '\U{1680}'
    || ('\U{2000}' <= c <= '\U{200a}') || c == '\U{2028}' || c == '\U{2029}'
    || c == '\U{202f}' || c == '\U{205f}' || c == '\U{3000}'
  }

  /**
   * `\w` up to U+00FF: the underscore and the characters for which Python's
   * `str.isalnum()` holds, that is the ASCII letters and digits, the Latin-1
   * letters (ª, µ, º and À to ÿ except × and ÷) and the Latin-1 digits and
   * fractions (², ³, ¹, ¼, ½, ¾).
   */
  predicate IsWordChar(c: char) {
    ('a' <= c <= 'z') || ('A' <= c <= 'Z') || ('0' <= c <= '9') || c == '_'
    || c == '\U{aa}' || c == '\U{b2}' || c == '\U{b3}' || c == '\U{b5}' || c == '\U{b9}' || c == '\U{ba}'
    || ('\U{bc}' <= c <= '\U{be}') || ('\U{c0}' <= c <= '\U{d6}') || ('\U{d8}' <= c <= '\U{f6}') || ('\U{f8}' <= c <= '\U{ff}')
  }

  /** `re.search(r"\s{2,}", s)` succeeds: two consecutive whitespace characters. */
  predicate HasDoubleSpace(s: string) {
    exists i | 0 <= i < |s| - 1 :: IsSpace(s[i]) && IsSpace(s[i + 1])
  }

  /** Extra whitespace in a display name: a leading or trailing space, or `\s{2,}`. */
  predicate ExtraWhitespace(s: string) {
    (|s| > 0 && (s[0] == ' ' || s[|s| - 1] == ' ')) || HasDoubleSpace(s)
  }

  /** Python's `str()` of a non-negative integer: its decimal digits. */
  function NatToString(n: nat): (r: string)
    ensures |r| >= 1
    decreases n
  {
    if n < 10 then ["0123456789"[n]] else NatToString(n / 10) + ["0123456789"[n % 10]]
  }

  // ---------------------------------------------------------------------
  // split / join

  /** Index of the first `c` in `s`, `|s|` when there is none. */
  function IndexOf(s: string, c: char): (i: nat)
    ensures i <= |s|
    ensures i < |s| ==> s[i] == c
    ensures forall j :: 0 <= j < i ==> s[j] != c
    ensures i == |s| <==> c !in s
  {
    if s == [] then 0 else if s[0] == c then 0 else 1 + IndexOf(s[1..], c)
  }

  /** Python `s.split(sep)` for a one-character separator. */
  function Split(s: string, sep: char): (r: seq<string>)
    ensures |r| >= 1
    decreases |s|
  {
    var i := IndexOf(s, sep);
    if i == |s| then [s] else [s[..i]] + Split(s[i + 1..], sep)
  }

  /** Python `sep.join(parts)`. */
  function Join(parts: seq<string>, sep: string): string {
    if |parts| == 0 then ""
    else if |parts| == 1 then parts[0]
    else parts[0] + sep + Join(parts[1..], sep)
  }

  /** Splitting and re-joining gives back the original string. */
  lemma {:induction false} JoinSplit(s: string, sep: char)
    ensures Join(Split(s, sep), [sep]) == s
    decreases |s|
  {
    var i := IndexOf(s, sep);
    if i < |s| {
      JoinSplit(s[i + 1..], sep);
      var rest := Split(s[i + 1..], sep);
      assert Split(s, sep) == [s[..i]] + rest;
      assert s == s[..i] + [sep] + s[i + 1..];
    }
  }

  /** No piece of a split contains the separator. */
  lemma {:induction false} SplitPiecesFree(s: string, sep: char)
    ensures forall k :: 0 <= k < |Split(s, sep)| ==> sep !in Split(s, sep)[k]
    decreases |s|
  {
    var i := IndexOf(s, sep);
    if i < |s| {
      SplitPiecesFree(s[i + 1..], sep);
      assert sep !in s[..i];
    }
  }

  /** The first piece of a split is the text before the first separator. */
  lemma SplitFirst(s: string, sep: char)
    ensures Split(s, sep)[0] == s[..IndexOf(s, sep)]
  {
  }

  /** A string without the separator splits into itself alone. */
  lemma SplitNoSep(s: string, sep: char)
    requires sep !in s
    ensures Split(s, sep) == [s]
  {
  }

  /** Splitting `a + [sep] + b` when `a` has no separator. */
  lemma SplitCons(a: string, b: string, sep: char)
    requires sep !in a
    ensures Split(a + [sep] + b, sep) == [a] + Split(b, sep)
  {
    var s := a + [sep] + b;
    assert IndexOf(s, sep) == |a| by {
      assert s[|a|] == sep;
      assert forall j :: 0 <= j < |a| ==> s[j] == a[j];
    }
    assert s[..|a|] == a;
    assert s[|a| + 1..] == b;
  }

  // ---------------------------------------------------------------------
  // replace

  /**
   * Python `s.replace(key, val)`: every non-overlapping occurrence of `key`,
   * scanning left to right, is replaced by `val`.
   */
  function ReplaceAll(s: string, key: string, val: string): string
    requires |key| > 0
    decreases |s|
  {
    if |s| < |key| then s
    else if s[..|key|] == key then val + ReplaceAll(s[|key|..], key, val)
    else [s[0]] + ReplaceAll(s[1..], key, val)
  }

  /** A string that does not contain `key` is left unchanged. */
  lemma {:induction false} ReplaceAllAbsent(s: string, key: string, val: string)
    requires |key| > 0 && !Contains(s, key)
    ensures ReplaceAll(s, key, val) == s
    decreases |s|
  {
    if |s| >= |key| {
      assert !OccursAt(s, key, 0);
      ReplaceAllAbsentTail(s, key);
      ReplaceAllAbsent(s[1..], key, val);
    }
  }

  lemma ReplaceAllAbsentTail(s: string, key: string)
    requires |s| >= 1 && !Contains(s, key)
    ensures !Contains(s[1..], key)
  {
    if Contains(s[1..], key) {
      var i :| 0 <= i <= |s[1..]| - |key| && OccursAt(s[1..], key, i);
      assert 0 <= i <= |s| - 1 - |key| && s[1..][i..i + |key|] == key;
      assert s[i + 1..i + 1 + |key|] == key;
      assert OccursAt(s, key, i + 1);
    }
  }

  /** Replacing with a value no longer than the key never lengthens the string. */
  lemma {:induction false} ReplaceAllShorter(s: string, key: string, val: string)
    requires |key| > 0 && |val| <= |key|
    ensures |ReplaceAll(s, key, val)| <= |s|
    decreases |s|
  {
    if |s| >= |key| {
      if s[..|key|] == key {
        ReplaceAllShorter(s[|key|..], key, val);
      } else {
        ReplaceAllShorter(s[1..], key, val);
      }
    }
  }

  /** A character that starts no occurrence of `key` is copied through. */
  lemma ReplaceAllCons(c: char, rest: string, key: string, val: string)
    requires |key| > 0 && c != key[0]
    ensures ReplaceAll([c] + rest, key, val) == [c] + ReplaceAll(rest, key, val)
  {
    var s := [c] + rest;
    if |s| >= |key| {
      assert s[..|key|] != key by { assert s[0] == c; }
      assert s[1..] == rest;
    }
  }

  /** A string that begins with `key` has that occurrence replaced first. */
  lemma ReplaceAllHead(rest: string, key: string, val: string)
    requires |key| > 0
    ensures ReplaceAll(key + rest, key, val) == val + ReplaceAll(rest, key, val)
  {
    var s := key + rest;
    assert s[..|key|] == key;
    assert s[|key|..] == rest;
  }

  // ---------------------------------------------------------------------
  // repr

  /** The quote `repr` puts around `s`: a double quote when `s` holds a single quote and no double quote. */
  function ReprQuote(s: string): char {
    if '\'' in s && '"' !in s then '"' else '\''
  }

  /** A lower-case hexadecimal digit. */
  function HexDigit(n: int): char
    requires 0 <= n < 16
  {
    if n < 10 then ('0' as int + n) as char else ('a' as int + n - 10) as char
  }

  /**
   * The characters up to U+00FF that `repr` writes as `\xhh`: the C0
   * controls other than tab, newline and carriage return (those have their
   * own escapes), DEL, the C1 controls, the no-break space and the soft
   * hyphen, which Python does not count as printable.
   */
  predicate HexEscaped(c: char) {
    c as int < 32 || 127 <= c as int <= 160 || c as int == 173
  }

  /** How `repr` writes one character of a string quoted with `quote`. */
  function ReprChar(c: char, quote: char): (r: string)
    ensures |r| >= 1
  {
    if c == quote || c == '\\' then ['\\', c]
    else if c == '\t' then "\\t"
    else if c == '\n' then "\\n"
    else if c == '\r' then "\\r"
    else if HexEscaped(c) then ['\\', 'x', HexDigit(c as int / 16), HexDigit(c as int % 16)]
    else [c]
  }

  /** The characters of `s`, each as `repr` writes it. */
  function ReprBody(s: string, quote: char): (r: string)
    ensures |r| >= |s|
  {
    if |s| == 0 then "" else ReprBody(s[..|s| - 1], quote) + ReprChar(s[|s| - 1], quote)
  }

  /** Python's `repr` of a string, as `str()` of a list shows each element. */
  function Repr(s: string): (r: string)
    ensures |r| >= |s| + 2 && r[0] == ReprQuote(s) && r[|r| - 1] == ReprQuote(s)
  {
    [ReprQuote(s)] + ReprBody(s, ReprQuote(s)) + [ReprQuote(s)]
  }

  /** A character `repr` copies unchanged. */
  predicate ReprPlain(c: char) {
    c != '\'' && c != '"' && c != '\\' && !HexEscaped(c)
  }

  /** A string of plain characters is shown as itself between single quotes. */
  lemma {:induction false} ReprOfPlain(s: string)
    requires forall i | 0 <= i < |s| :: ReprPlain(s[i])
    ensures Repr(s) == "'" + s + "'"
  {
    assert forall i | 0 <= i < |s| :: s[i] != '\'' by {
      forall i | 0 <= i < |s| ensures s[i] != '\'' { assert ReprPlain(s[i]); }
    }
    ReprBodyCopies(s, '\'');
  }

  /** Characters other than the quote, the backslash and the escaped controls are copied through. */
  lemma {:induction false} ReprBodyCopies(s: string, quote: char)
    requires forall i | 0 <= i < |s| :: s[i] != quote && s[i] != '\\' && !HexEscaped(s[i])
    ensures ReprBody(s, quote) == s
    decreases |s|
  {
    if |s| > 0 {
      var front, c := s[..|s| - 1], s[|s| - 1];
      forall i | 0 <= i < |front| ensures front[i] != quote && front[i] != '\\' && !HexEscaped(front[i]) {
        assert front[i] == s[i];
      }
      ReprBodyCopies(front, quote);
      assert ReprChar(c, quote) == [c];
      assert front + [c] == s;
    }
  }

  /** Whatever `s` holds, its `repr` has no control character: the result is one printable line. */
  lemma {:induction false} ReprPrintable(s: string)
    ensures forall i | 0 <= i < |Repr(s)| :: !HexEscaped(Repr(s)[i])
  {
    ReprBodyPrintable(s, ReprQuote(s));
  }

  lemma {:induction false} ReprBodyPrintable(s: string, quote: char)
    requires quote == '\'' || quote == '"'
    ensures forall i | 0 <= i < |ReprBody(s, quote)| :: !HexEscaped(ReprBody(s, quote)[i])
    decreases |s|
  {
    if |s| > 0 {
      ReprBodyPrintable(s[..|s| - 1], quote);
      var c := s[|s| - 1];
      if HexEscaped(c) && c != '\t' && c != '\n' && c != '\r' {
        assert 0 <= c as int / 16 < 11;
      }
    }
  }

  /** A string with a single quote and no double quote is shown in double quotes, the single quote unescaped (`"don't"`). */
  lemma ReprInDoubleQuotes(s: string)
    requires '\'' in s
    requires forall i | 0 <= i < |s| :: s[i] != '"' && s[i] != '\\' && !HexEscaped(s[i])
    ensures Repr(s) == "\"" + s + "\""
  {
    assert ReprQuote(s) == '"';
    ReprBodyCopies(s, '"');
  }

  /** A final newline is shown as a backslash and an `n` (`'yes\\n'`). */
  lemma ReprFinalNewline(s: string)
    requires forall i | 0 <= i < |s| :: ReprPlain(s[i])
    ensures Repr(s + "\n") == "'" + s + "\\n" + "'"
  {
    var t := s + "\n";
    assert forall i | 0 <= i < |t| :: t[i] != '\'' by {
      forall i | 0 <= i < |t| ensures t[i] != '\'' { if i < |s| { assert t[i] == s[i] && ReprPlain(s[i]); } }
    }
    assert t[..|s|] == s && t[|s|] == '\n';
    ReprBodyCopies(s, '\'');
    assert ReprBody(t, '\'') == s + "\\n";
  }
}
