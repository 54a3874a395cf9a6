/** String helpers with the Python semantics the source relies on. */
module Strings {
  import opened Wrappers

  /** `str.lower()` restricted to ASCII letters; every other character is kept. */
  function LowerChar(c: char): char {
    if 'A' <= c <= 'Z' then (c as int + 32) as char else c
  }

  function Lower(s: string): (r: string)
    ensures |r| == |s|
    ensures forall i :: 0 <= i < |s| ==> r[i] == LowerChar(s[i])
  {
    if |s| == 0 then [] else [LowerChar(s[0])] + Lower(s[1..])
  }

  /** `sub in s` for strings: `sub` occurs at some position of `s`. */
  predicate Contains(s: string, sub: string) {
    exists i :: 0 <= i <= |s| - |sub| && OccursAt(s, sub, i)
  }

  predicate OccursAt(s: string, sub: string, i: int)
    requires 0 <= i <= |s| - |sub|
  {
    s[i..i + |sub|] == sub
  }

  /** `any(k in s for k in keys)`. */
  predicate ContainsAny(s: string, keys: seq<string>) {
    exists k :: k in keys && Contains(s, k)
  }

  /** Characters for which Python's `str.isspace()` holds. */
  predicate IsSpace(c: char) {
    || c == ' ' || '\t' <= c <= '\r'
    || '\U{1C}' <= c <= '\U{1F}' || c == '\U{85}' || c == '\U{A0}' || c == '\U{1680}'
    || '\U{2000}' <= c <= '\U{200A}' || c == '\U{2028}' || c == '\U{2029}'
    || c == '\U{202F}' || c == '\U{205F}' || c == '\U{3000}'
  }

  predicate AllSpace(s: string) {
    forall i :: 0 <= i < |s| ==> IsSpace(s[i])
  }

  /** Length of the longest prefix of `s` without whitespace. */
  function WordLength(s: string): (n: nat)
    ensures n <= |s|
    ensures forall i :: 0 <= i < n ==> !IsSpace(s[i])
    ensures n < |s| ==> IsSpace(s[n])
  {
    if |s| == 0 || IsSpace(s[0]) then 0 else 1 + WordLength(s[1..])
  }

  /** `tok` is a whole whitespace-separated word of `s` starting at `k`
      with only whitespace before it. */
  predicate FirstWordAt(s: string, tok: string, k: nat) {
    && k + |tok| <= |s|
    && AllSpace(s[..k])
    && s[k..k + |tok|] == tok
    && (k + |tok| == |s| || IsSpace(s[k + |tok|]))
  }

  /** `s.split()[0]`, or `None` when `s.split()` is the empty list. */
  function FirstToken(s: string): (r: Option<string>)
    ensures r.None? <==> AllSpace(s)
    ensures r.Some? ==> |r.value| > 0 && forall i :: 0 <= i < |r.value| ==> !IsSpace(r.value[i])
    ensures r.Some? ==> exists k: nat :: FirstWordAt(s, r.value, k)
    decreases |s|
  {
    if |s| == 0 then None
    else if IsSpace(s[0]) then
      var r := FirstToken(s[1..]);
      if r.Some? then
        var k: nat :| FirstWordAt(s[1..], r.value, k);
        FirstWordShift(s, r.value, k);
        r
      else r
    else
      assert FirstWordAt(s, s[..WordLength(s)], 0);
      Some(s[..WordLength(s)])
  }

  /** A leading whitespace character moves the first word one place right. */
  lemma FirstWordShift(s: string, tok: string, k: nat)
    requires |s| > 0 && IsSpace(s[0]) && FirstWordAt(s[1..], tok, k)
    ensures FirstWordAt(s, tok, k + 1)
  {
    var pre := s[..k + 1];
    assert pre == [s[0]] + s[1..][..k];
    assert s[1..][k..k + |tok|] == s[k + 1..k + 1 + |tok|];
  }

  /** Decimal text of a natural number, as `str(n)` / an f-string prints it. */
  function NatToString(n: nat): (r: string)
    ensures |r| > 0
    ensures forall i :: 0 <= i < |r| ==> '0' <= r[i] <= '9'
    decreases n
  {
    if n < 10 then [Digit(n)] else NatToString(n / 10) + [Digit(n % 10)]
  }

  function Digit(d: nat): (c: char)
    requires d < 10
    ensures '0' <= c <= '9'
  {
    "0123456789"[d]
  }

  function IntToString(i: int): (r: string)
    ensures |r| > 0
  {
    if i < 0 then "-" + NatToString(-i) else NatToString(i)
  }

  function HexDigit(d: nat): (c: char)
    requires d < 16
  {
    "0123456789abcdef"[d]
  }

  /** `repr(s)` for a string: single quotes unless `s` holds a single quote
      and no double quote; the quote in use, backslashes and ASCII control
      characters are escaped, every other character is kept. */
  function StrRepr(s: string): (r: string)
    ensures |r| >= 2 + |s|
  {
    var q := if '\'' in s && '"' !in s then '"' else '\'';
    [q] + Escape(s, q) + [q]
  }

  function Escape(s: string, q: char): (r: string)
    ensures |r| >= |s|
    decreases |s|
  {
    if |s| == 0 then [] else EscapeChar(s[0], q) + Escape(s[1..], q)
  }

  function EscapeChar(c: char, q: char): (r: string)
    ensures |r| >= 1
  {
    if c == q || c == '\\' then ['\\', c]
    else if c == '\t' then "\\t"
    else if c == '\n' then "\\n"
    else if c == '\r' then "\\r"
    else if c < ' ' || c == '\U{7F}' then "\\x" + [HexDigit(c as int / 16), HexDigit(c as int % 16)]
    else [c]
  }

  /** Printable ASCII other than the quote `q` and the backslash: `repr` keeps it. */
  predicate KeptChar(c: char, q: char) {
    ' ' <= c < '\U{7F}' && c != q && c != '\\'
  }

  predicate PlainChar(c: char) {
    KeptChar(c, '\'')
  }

  lemma {:induction false} EscapeKept(s: string, q: char)
    requires forall i :: 0 <= i < |s| ==> KeptChar(s[i], q)
    ensures Escape(s, q) == s
    decreases |s|
  {
    if |s| > 0 {
      EscapeKept(s[1..], q);
      assert s == [s[0]] + s[1..];
    }
  }

  /** Text made of plain characters is shown between single quotes, unchanged. */
  lemma PlainRepr(s: string)
    requires forall i :: 0 <= i < |s| ==> PlainChar(s[i])
    ensures StrRepr(s) == "'" + s + "'"
  {
    assert '\'' !in s by {
      forall i | 0 <= i < |s| ensures s[i] != '\'' {
        assert PlainChar(s[i]);
      }
    }
    EscapeKept(s, '\'');
  }

  /** The empty string is shown as two single quotes. */
  lemma EmptyRepr()
    ensures StrRepr("") == "''"
  {
    assert Escape("", '\'') == "";
  }

  /** A single quote switches to double quotes and is shown unescaped. */
  lemma QuoteRepr()
    ensures StrRepr("it's") == "\"it's\""
  {
    var s := "it's";
    assert s[2] == '\'';
    assert forall i :: 0 <= i < |s| ==> KeptChar(s[i], '"');
    assert '"' !in s;
    EscapeKept(s, '"');
  }

  /** A backslash is doubled. */
  lemma BackslashRepr()
    ensures StrRepr("a\\b") == "'a\\\\b'"
  {
    assert Escape("a\\b", '\'') == "a\\\\b" by {
      assert "a\\b"[1..] == "\\b" && "\\b"[1..] == "b" && "b"[1..] == "";
    }
  }
}
