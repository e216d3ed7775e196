/** The lexical side of the interpreter: character classes, the read-only scans that
    the matchers of golfscript.js run over the source text, decimal numerals, and
    the escaping done by the quote operator. Nothing here touches the stack. */
module Text {
  import opened Outcomes

  predicate IsDigit(c: char) {
    '0' <= c <= '9'
  }

  predicate IsIdentStart(c: char) {
    'A' <= c <= 'Z' || 'a' <= c <= 'z' || c == '_'
  }

  predicate IsIdentChar(c: char) {
    IsIdentStart(c) || IsDigit(c)
  }

  // ---------------------------------------------------------------------------
  // Identifiers

  /** End of the run of identifier characters that starts at j. */
  function IdentEnd(str: string, j: nat): (r: nat)
    requires j <= |str|
    ensures j <= r <= |str|
    ensures forall k :: j <= k < r ==> IsIdentChar(str[k])
    ensures r == |str| || !IsIdentChar(str[r])
    decreases |str| - j
  {
    if j < |str| && IsIdentChar(str[j]) then IdentEnd(str, j + 1) else j
  }

  /** What the pattern `[A-Za-z_][A-Za-z0-9_]*`, or else a single space, matches at i;
      empty when neither does. The space alternative is the source's own. */
  function NextIdentifier(str: string, i: nat): (name: string)
    requires i <= |str|
    ensures i + |name| <= |str| && name == str[i..i + |name|]
    ensures name == [] <==> i == |str| || (!IsIdentStart(str[i]) && str[i] != ' ')
    ensures i < |str| && str[i] == ' ' ==> name == " "
    ensures i < |str| && IsIdentStart(str[i]) ==>
              (forall k :: 0 <= k < |name| ==> IsIdentChar(name[k])) &&
              (i + |name| == |str| || !IsIdentChar(str[i + |name|]))
  {
    if i < |str| && IsIdentStart(str[i]) then str[i..IdentEnd(str, i + 1)]
    else if i < |str| && str[i] == ' ' then " "
    else ""
  }

  // ---------------------------------------------------------------------------
  // Keywords

  /** word occurs in str starting at position i. */
  predicate IsPrefixAt(str: string, i: nat, word: string) {
    i + |word| <= |str| && str[i..i + |word|] == word
  }

  /** lookahead: walks forward while the text agrees with word. */
  method Lookahead(str: string, i: nat, word: string) returns (found: bool)
    requires i <= |str|
    ensures found <==> IsPrefixAt(str, i, word)
  {
    var j := i;
    while j < |str| && j - i < |word| && word[j - i] == str[j]
      invariant i <= j <= |str| && j - i <= |word|
      invariant str[i..j] == word[..j - i]
    {
      j := j + 1;
    }
    found := j == i + |word|;
  }

  // ---------------------------------------------------------------------------
  // Integer literals and decimal numerals

  /** The scan of checkPushNumber: the end of the maximal run of digits from i. */
  method ScanDigits(str: string, i: nat) returns (j: nat)
    requires i <= |str|
    ensures i <= j <= |str|
    ensures forall k :: i <= k < j ==> IsDigit(str[k])
    ensures j == |str| || !IsDigit(str[j])
  {
    j := i;
    while j < |str| && IsDigit(str[j])
      invariant i <= j <= |str|
      invariant forall k :: i <= k < j ==> IsDigit(str[k])
    {
      j := j + 1;
    }
  }

  predicate AllDigits(s: string) {
    forall k :: 0 <= k < |s| ==> IsDigit(s[k])
  }

  function DigitValue(c: char): nat
    requires IsDigit(c)
  {
    c as int - '0' as int
  }

  function DigitChar(d: nat): (c: char)
    requires d < 10
    ensures IsDigit(c) && DigitValue(c) == d
  {
    ('0' as int + d) as char
  }

  /** The value parseInt gives a run of decimal digits. */
  function DigitsValue(s: string): nat
    requires AllDigits(s)
  {
    if s == [] then 0 else 10 * DigitsValue(s[..|s| - 1]) + DigitValue(s[|s| - 1])
  }

  /** parseInt ignores leading zeros: `007` is read as 7. */
  lemma {:induction false} LeadingZerosIgnored(s: string)
    requires AllDigits(s)
    ensures AllDigits("0" + s) && DigitsValue("0" + s) == DigitsValue(s)
  {
    var t := "0" + s;
    if s != [] {
      assert t[..|t| - 1] == "0" + s[..|s| - 1];
      LeadingZerosIgnored(s[..|s| - 1]);
    } else {
      assert t[..|t| - 1] == [];
    }
  }

  /** The decimal numeral of a natural number, without leading zeros. */
  function NaturalText(n: nat): (s: string)
    ensures s != [] && AllDigits(s)
    ensures n > 0 ==> s[0] != '0'
  {
    if n < 10 then [DigitChar(n)] else NaturalText(n / 10) + [DigitChar(n % 10)]
  }

  /** What Number.prototype.toString gives an integer. */
  function DecimalText(n: int): (s: string)
    ensures s != []
    ensures n >= 0 <==> AllDigits(s)
    ensures n < 0 <==> s[0] == '-'
    ensures n < 0 ==> AllDigits(s[1..]) && DigitsValue(s[1..]) == -n
    ensures s[0] == '0' ==> s == "0"
    ensures n < 0 ==> s[1] != '0'
  {
    if n < 0 then
      var s := "-" + NaturalText(-n);
      assert s[0] == '-' && s[1..] == NaturalText(-n);
      NaturalTextRoundTrip(-n);
      s
    else NaturalText(n)
  }

  /** Reading back the numeral of n with the integer-literal rule gives n. */
  lemma {:induction false} NaturalTextRoundTrip(n: nat)
    ensures DigitsValue(NaturalText(n)) == n
  {
    if n >= 10 {
      NaturalTextRoundTrip(n / 10);
      var s := NaturalText(n);
      assert s[..|s| - 1] == NaturalText(n / 10);
    }
  }

  /** The numeral of a number quoted by '`' is read back by checkPushNumber, whole,
      as that same number, when the number is not negative. */
  lemma QuotedNumberRereads(n: int)
    requires n >= 0
    ensures AllDigits(DecimalText(n)) && DigitsValue(DecimalText(n)) == n
  {
    NaturalTextRoundTrip(n);
  }

  // ---------------------------------------------------------------------------
  // Comments

  /** The first newline at or after j, or |str| when there is none. */
  function NewlineFrom(str: string, j: nat): (r: nat)
    requires j <= |str|
    ensures j <= r <= |str|
    ensures forall k :: j <= k < r ==> str[k] != '\n'
    ensures r < |str| ==> str[r] == '\n'
    decreases |str| - j
  {
    if j == |str| || str[j] == '\n' then j else NewlineFrom(str, j + 1)
  }

  /** checkComment: a '#' skips through the next newline, or to the end of the text. */
  function CheckComment(str: string, i: nat): (j: nat)
    requires i <= |str|
    ensures !(i < |str| && str[i] == '#') ==> j == i
    ensures i < |str| && str[i] == '#' ==>
              i < j <= |str| &&
              (forall k :: i <= k < j - 1 ==> str[k] != '\n') &&
              (j == |str| || str[j - 1] == '\n')
  {
    if i < |str| && str[i] == '#' then
      var nl := NewlineFrom(str, i);
      if nl == |str| then |str| else nl + 1
    else i
  }

  // ---------------------------------------------------------------------------
  // Bracketed literals: blocks and arrays

  function Delta(c: char, open: char, close: char): int {
    if c == open then 1 else if c == close then -1 else 0
  }

  /** Openers minus closers in s. */
  function Depth(s: string, open: char, close: char): int {
    if s == [] then 0 else Depth(s[..|s| - 1], open, close) + Delta(s[|s| - 1], open, close)
  }

  /** Every opener in s is closed in s, and no prefix closes more than it opened. */
  predicate Balanced(s: string, open: char, close: char) {
    Depth(s, open, close) == 0 &&
    forall k :: 0 <= k <= |s| ==> Depth(s[..k], open, close) >= 0
  }

  /** The closer at k balances an opener just before i. */
  predicate ClosesAt(str: string, i: nat, k: nat, open: char, close: char)
    requires i <= |str|
  {
    i <= k < |str| && str[k] == close && Balanced(str[i..k], open, close)
  }

  lemma DepthStep(str: string, i: nat, j: nat, open: char, close: char)
    requires i <= j < |str|
    ensures Depth(str[i..j + 1], open, close) == Depth(str[i..j], open, close) + Delta(str[j], open, close)
  {
    assert str[i..j + 1][..j - i] == str[i..j];
  }

  /** k is the first closer that balances an opener just before i. */
  predicate FirstClose(str: string, i: nat, k: nat, open: char, close: char)
    requires i <= |str|
  {
    ClosesAt(str, i, k, open, close) && forall m :: i <= m < k ==> !ClosesAt(str, i, m, open, close)
  }

  /** No closer after i balances an opener just before i. */
  predicate Unclosed(str: string, i: nat, open: char, close: char)
    requires i <= |str|
  {
    forall k :: i <= k < |str| ==> !ClosesAt(str, i, k, open, close)
  }

  /** The scan of checkPushBlock and checkPushArray: i is just past the opener; the
      result is the first closer that brings the nesting count back to zero. */
  method FindClose(str: string, i: nat, open: char, close: char) returns (r: Option<nat>)
    requires i <= |str| && open != close
    ensures r.Some? ==> FirstClose(str, i, r.value, open, close)
    ensures r.None? <==> Unclosed(str, i, open, close)
  {
    var j := i;
    var counter := 1;
    while j < |str|
      invariant i <= j <= |str|
      invariant counter == 1 + Depth(str[i..j], open, close)
      invariant forall k :: i <= k <= j ==> Depth(str[i..k], open, close) >= 0
      invariant forall k :: i <= k < j ==> !ClosesAt(str, i, k, open, close)
    {
      if str[j] == close {
        counter := counter - 1;
        if counter == 0 {
          forall k | 0 <= k <= j - i
            ensures Depth(str[i..j][..k], open, close) >= 0
          {
            assert str[i..j][..k] == str[i..i + k];
          }
          return Some(j);
        }
      }
      if str[j] == open {
        counter := counter + 1;
      }
      DepthStep(str, i, j, open, close);
      j := j + 1;
    }
    return None;
  }

  /** Quoting a block with balanced braces gives text that the block scan reads back:
      the first closer after the opening brace is the final one. */
  lemma QuotedBlockRereads(t: string)
    requires Balanced(t, '{', '}')
    ensures FirstClose("{" + t + "}", 1, |t| + 1, '{', '}')
  {
    var q := "{" + t + "}";
    assert q[1..|t| + 1] == t;
    forall k | 1 <= k < |t| + 1
      ensures !ClosesAt(q, 1, k, '{', '}')
    {
      assert q[1..k] == t[..k - 1];
      if q[k] == '}' {
        assert t[..k][..k - 1] == t[..k - 1];
        assert Depth(t[..k], '{', '}') == Depth(t[..k - 1], '{', '}') - 1;
      }
    }
  }

  // ---------------------------------------------------------------------------
  // String literals and quoting

  /** The quote at k ends a string literal whose text starts at i: the only escape is
      a backslash directly before a quote. */
  predicate ClosingQuote(str: string, i: nat, k: nat) {
    i <= k < |str| && str[k] == '"' && (k == i || str[k - 1] != '\\')
  }

  predicate FirstQuote(str: string, i: nat, k: nat) {
    ClosingQuote(str, i, k) && forall m :: i <= m < k ==> !ClosingQuote(str, i, m)
  }

  predicate Unquoted(str: string, i: nat) {
    forall m :: i <= m < |str| ==> !ClosingQuote(str, i, m)
  }

  /** The scan of checkPushString: i is just past the opening quote. */
  method FindQuote(str: string, i: nat) returns (r: Option<nat>)
    requires i <= |str|
    ensures r.Some? ==> FirstQuote(str, i, r.value)
    ensures r.None? <==> Unquoted(str, i)
  {
    var j := i;
    while j < |str|
      invariant i <= j <= |str|
      invariant forall m :: i <= m < j ==> !ClosingQuote(str, i, m)
      invariant i < j < |str| && str[j - 1] == '\\' ==> str[j] != '"'
    {
      if str[j] == '"' {
        assert ClosingQuote(str, i, j);
        return Some(j);
      }
      if str[j] == '\\' && j + 1 < |str| && str[j + 1] == '"' {
        j := j + 1;
      }
      j := j + 1;
    }
    return None;
  }

  /** The text of a string with a backslash put before every double quote. */
  function Escaped(s: string): (r: string)
    ensures r != [] ==> r[0] != '"'
    ensures forall k :: 0 <= k < |r| && r[k] == '"' ==> k > 0 && r[k - 1] == '\\'
    ensures (r != [] && r[|r| - 1] == '\\') <==> (s != [] && s[|s| - 1] == '\\')
  {
    if s == [] then []
    else (if s[0] == '"' then "\\\"" else [s[0]]) + Escaped(s[1..])
  }

  lemma {:induction false} EscapedAppend(a: string, b: string)
    ensures Escaped(a + b) == Escaped(a) + Escaped(b)
  {
    if a != [] {
      assert (a + b)[0] == a[0] && (a + b)[1..] == a[1..] + b;
      EscapedAppend(a[1..], b);
    } else {
      assert a + b == b;
    }
  }

  /** Drops the backslash of every backslash-quote pair, left to right. */
  function Unescape(t: string): string {
    if |t| >= 2 && t[0] == '\\' && t[1] == '"' then "\"" + Unescape(t[2..])
    else if t == [] then []
    else [t[0]] + Unescape(t[1..])
  }

  /** Escaping changes nothing but the inserted backslashes. */
  lemma {:induction false} UnescapeEscaped(s: string)
    ensures Unescape(Escaped(s)) == s
  {
    if s != [] {
      UnescapeEscaped(s[1..]);
      var rest := Escaped(s[1..]);
      if s[0] == '"' {
        assert Escaped(s) == "\\\"" + rest;
        assert Escaped(s)[2..] == rest;
      } else {
        assert Escaped(s) == [s[0]] + rest;
        assert Escaped(s)[1..] == rest;
      }
    }
  }

  /** Escaping one more character appends its escaped form. */
  lemma EscapedSnoc(s: string, k: nat)
    requires k < |s|
    ensures Escaped(s[..k + 1]) == Escaped(s[..k]) + (if s[k] == '"' then "\\\"" else [s[k]])
  {
    assert s[..k + 1] == s[..k] + [s[k]];
    EscapedAppend(s[..k], [s[k]]);
    assert Escaped([s[k]]) == (if s[k] == '"' then "\\\"" else [s[k]]) + Escaped([]);
  }

  /** The string-accumulating loop of quote: a string becomes a string literal. */
  method QuoteText(s: string) returns (data: string)
    ensures data == "\"" + Escaped(s) + "\""
  {
    data := "\"";
    var k := 0;
    while k < |s|
      invariant 0 <= k <= |s|
      invariant data == "\"" + Escaped(s[..k])
    {
      EscapedSnoc(s, k);
      if s[k] == '"' {
        data := data + "\\\"";
      } else {
        data := data + [s[k]];
      }
      k := k + 1;
    }
    assert s[..k] == s;
    data := data + "\"";
  }

  /** A quoted string is read back by checkPushString as exactly its escaped text,
      provided the string does not end in a backslash (which would escape the
      closing quote). */
  lemma QuotedStringRereads(s: string)
    requires s == [] || s[|s| - 1] != '\\'
    ensures var t := "\"" + Escaped(s) + "\""; FirstQuote(t, 1, |t| - 1)
  {
  }
}
