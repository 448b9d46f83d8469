/** String helpers the application takes from JavaScript: `trim`, `toLowerCase`,
    `includes`, `startsWith`, the truthiness of a string, and the decimal
    rendering of a status code inside a template literal. */
module Text {

  import opened Wrappers

  /** JavaScript's WhiteSpace and LineTerminator code points, the characters
      `String.prototype.trim` removes: TAB, VT, FF, SP, NBSP, ZWNBSP, the
      Unicode space separators, LF, CR, LINE SEPARATOR, PARAGRAPH SEPARATOR. */
  predicate IsSpace(c: char) {
    || c == ' ' || c == '\t' || c == '\n' || c == '\r'
    || c == '\U{000B}' || c == '\U{000C}' || c == '\U{00A0}' || c == '\U{FEFF}'
    || c == '\U{1680}' || ('\U{2000}' <= c <= '\U{200A}') || c == '\U{202F}'
    || c == '\U{205F}' || c == '\U{3000}' || c == '\U{2028}' || c == '\U{2029}'
  }

  /** Every character of `s` is white space (the empty string included). */
  predicate AllSpace(s: string) {
    forall i :: 0 <= i < |s| ==> IsSpace(s[i])
  }

  /** `s` with its leading white space removed. */
  function TrimStart(s: string): (r: string)
    ensures |r| <= |s| && r == s[|s| - |r|..]
    ensures r == [] || !IsSpace(r[0])
    ensures forall i :: 0 <= i < |s| - |r| ==> IsSpace(s[i])
  {
    if |s| > 0 && IsSpace(s[0]) then
      TrimStart(s[1..])
    else s
  }

  /** `s` with its trailing white space removed. */
  function TrimEnd(s: string): (r: string)
    ensures |r| <= |s| && r == s[..|r|]
    ensures r == [] || !IsSpace(r[|r| - 1])
    ensures forall i :: |r| <= i < |s| ==> IsSpace(s[i])
  {
    if |s| > 0 && IsSpace(s[|s| - 1]) then
      TrimEnd(s[..|s| - 1])
    else s
  }

  /** `String.prototype.trim`. */
  function Trim(s: string): string {
    TrimEnd(TrimStart(s))
  }

  /** JavaScript truthiness of a string: only the empty string is falsy. */
  predicate Truthy(s: string) {
    s != ""
  }

  /** Truthiness of a value that may be absent (`undefined`/`null` are falsy). */
  predicate Present(o: Option<string>) {
    o.Some? && Truthy(o.value)
  }

  /** `s.trim()` is falsy exactly when `s` consists of white space only. */
  lemma TrimEmptyIffAllSpace(s: string)
    ensures Trim(s) == "" <==> AllSpace(s)
  {
  }

  /** ASCII lower-casing of one character. */
  function LowerChar(c: char): char {
    if 'A' <= c <= 'Z' then (c as int + 32) as char else c
  }

  /** ASCII upper-casing of one character. */
  function UpperChar(c: char): char {
    if 'a' <= c <= 'z' then (c as int - 32) as char else c
  }

  /** `String.prototype.toLowerCase`, restricted to the ASCII letters. */
  function Lower(s: string): (r: string)
    ensures |r| == |s|
  {
    seq(|s|, i requires 0 <= i < |s| => LowerChar(s[i]))
  }

  /** `String.prototype.toUpperCase`, restricted to the ASCII letters. */
  function Upper(s: string): (r: string)
    ensures |r| == |s|
  {
    seq(|s|, i requires 0 <= i < |s| => UpperChar(s[i]))
  }

  /** Upper-casing a string and then lower-casing it gives the same result as
      lower-casing it directly. */
  lemma LowerOfUpper(s: string)
    ensures Lower(Upper(s)) == Lower(s)
  {
  }

  /** Upper-casing neither makes nor unmakes white space. */
  lemma UpperKeepsSpace(c: char)
    ensures IsSpace(UpperChar(c)) <==> IsSpace(c)
  {
  }

  /** Leading white space is the same before and after upper-casing. */
  lemma {:induction false} TrimStartUpper(s: string)
    ensures TrimStart(Upper(s)) == Upper(TrimStart(s))
  {
    if |s| > 0 {
      var u := Upper(s);
      assert u[0] == UpperChar(s[0]);
      UpperKeepsSpace(s[0]);
      if IsSpace(s[0]) {
        assert u[1..] == Upper(s[1..]);
        TrimStartUpper(s[1..]);
      }
    }
  }

  /** Trailing white space is the same before and after upper-casing. */
  lemma {:induction false} TrimEndUpper(s: string)
    ensures TrimEnd(Upper(s)) == Upper(TrimEnd(s))
  {
    if |s| > 0 {
      var u := Upper(s);
      assert u[|s| - 1] == UpperChar(s[|s| - 1]);
      UpperKeepsSpace(s[|s| - 1]);
      if IsSpace(s[|s| - 1]) {
        assert u[..|s| - 1] == Upper(s[..|s| - 1]);
        TrimEndUpper(s[..|s| - 1]);
      }
    }
  }

  /** Trimming commutes with upper-casing. */
  lemma TrimUpper(s: string)
    ensures Trim(Upper(s)) == Upper(Trim(s))
  {
    TrimStartUpper(s);
    TrimEndUpper(TrimStart(s));
  }

  /** `k` occurs in `s` starting at position `i`. */
  predicate OccursAt(s: string, k: string, i: int) {
    0 <= i && i + |k| <= |s| && s[i..i + |k|] == k
  }

  /** `s.includes(k)`: substring containment. */
  predicate Contains(s: string, k: string) {
    exists i | 0 <= i <= |s| :: OccursAt(s, k, i)
  }

  /** `list.some(k => s.includes(k))`. */
  predicate ContainsAny(s: string, keywords: seq<string>) {
    exists j :: 0 <= j < |keywords| && Contains(s, keywords[j])
  }

  /** Only the empty keyword occurs in the empty string. */
  lemma NothingInEmpty(keywords: seq<string>)
    ensures ContainsAny("", keywords) <==> "" in keywords
  {
    if ContainsAny("", keywords) {
      var j :| 0 <= j < |keywords| && Contains("", keywords[j]);
      assert keywords[j] == "";
    }
    if "" in keywords {
      assert OccursAt("", "", 0);
    }
  }

  /** `s.startsWith(p)`. */
  predicate StartsWith(s: string, p: string) {
    |p| <= |s| && s[..|p|] == p
  }

  /** The decimal digit for `d`. */
  function DigitChar(d: nat): (c: char)
    requires d < 10
    ensures '0' <= c <= '9'
  {
    ('0' as int + d) as char
  }

  /** The value of a decimal digit character. */
  function DigitValue(c: char): (d: nat)
    requires '0' <= c <= '9'
    ensures d < 10
  {
    c as int - '0' as int
  }

  /** The decimal rendering of a non-negative integer, as `${n}` produces it. */
  function NatToString(n: nat): (r: string)
    ensures r != ""
    ensures forall i :: 0 <= i < |r| ==> '0' <= r[i] <= '9'
    ensures n > 0 ==> r[0] != '0'
  {
    if n < 10 then [DigitChar(n)] else NatToString(n / 10) + [DigitChar(n % 10)]
  }

  /** Reads a string of decimal digits back as a number. */
  function ParseDigits(s: string): nat
    requires forall i :: 0 <= i < |s| ==> '0' <= s[i] <= '9'
  {
    if s == [] then 0 else 10 * ParseDigits(s[..|s| - 1]) + DigitValue(s[|s| - 1])
  }

  /** The rendering of a status code can be read back: distinct codes give
      distinct texts. */
  lemma {:induction false} NatToStringRoundTrip(n: nat)
    ensures ParseDigits(NatToString(n)) == n
  {
    if n >= 10 {
      var r := NatToString(n);
      assert r[..|r| - 1] == NatToString(n / 10);
      NatToStringRoundTrip(n / 10);
    }
  }

  /** The element at index 1 of `s.split(',')`: the text after the first comma
      up to the next comma, or None (JavaScript's `undefined`) when `s` has no
      comma. */
  function SecondField(s: string): (r: Option<string>)
    ensures r.None? <==> ',' !in s
  {
    if s == [] then None
    else if s[0] == ',' then Some(UpToComma(s[1..]))
    else SecondField(s[1..])
  }

  /** The longest prefix of `s` that holds no comma. */
  function UpToComma(s: string): (r: string)
    ensures ',' !in r
    ensures StartsWith(s, r)
    ensures r == s || s[|r|] == ','
  {
    if s == [] || s[0] == ',' then [] else [s[0]] + UpToComma(s[1..])
  }
}
