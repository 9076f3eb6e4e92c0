/** Go's `strconv.Quote`, which `url.Error` uses to print the text that failed, and a
    decoder for the escapes it writes. */
module Strconv {
  import opened Wrappers

  /** An ASCII control character (or DEL). */
  predicate IsControl(c: char) { c < ' ' || c == '\U{007F}' }

  /** A character `strconv.Quote` writes as a backslash and one letter. */
  predicate IsNamed(c: char) { c == '"' || c == '\\' || '\U{0007}' <= c <= '\r' }

  /** The letter after the backslash for a named character. */
  function NameOf(c: char): (l: char)
    requires IsNamed(c)
  {
    if c == '"' || c == '\\' then c else "abtnvfr"[c as int - 7]
  }

  /** The character a backslash and `l` stand for, if `l` is one of the named escapes. */
  function Named(l: char): (r: Option<char>)
    ensures r.Some? ==> IsNamed(r.value) && NameOf(r.value) == l
  {
    if l == '"' || l == '\\' then Some(l)
    else if l == 'a' then Some('\U{0007}')
    else if l == 'b' then Some('\U{0008}')
    else if l == 't' then Some('\t')
    else if l == 'n' then Some('\n')
    else if l == 'v' then Some('\U{000B}')
    else if l == 'f' then Some('\U{000C}')
    else if l == 'r' then Some('\r')
    else None
  }

  /** A lower-case hexadecimal digit. */
  function HexDigit(n: nat): (c: char)
    requires n < 16
  {
    if n < 10 then ('0' as int + n) as char else ('a' as int + n - 10) as char
  }

  /** The value of a lower-case hexadecimal digit, or -1. */
  function HexValue(c: char): (n: int)
    ensures -1 <= n < 16
    ensures n >= 0 ==> HexDigit(n) == c
  {
    if '0' <= c <= '9' then c as int - '0' as int
    else if 'a' <= c <= 'f' then c as int - 'a' as int + 10
    else -1
  }

  /** How `strconv.Quote` writes one character: named escapes, `\xHH` for the other
      control characters, everything else as it is. */
  function QuoteChar(c: char): string
  {
    if IsNamed(c) then ['\\', NameOf(c)]
    else if IsControl(c) then ['\\', 'x', HexDigit(c as int / 16), HexDigit(c as int % 16)]
    else [c]
  }

  function QuoteBody(s: string): string
  {
    if s == [] then [] else QuoteChar(s[0]) + QuoteBody(s[1..])
  }

  /** `strconv.Quote`: `s` between double quotes, with escapes. */
  function Quote(s: string): string
  {
    "\"" + QuoteBody(s) + "\""
  }

  /** Decode the inside of a quoted text: the escapes `Quote` writes, and any other
      character except an unescaped '"'. */
  function UnquoteBody(s: string): Option<string>
    decreases |s|
  {
    if s == [] then Some([])
    else if s[0] == '"' then None
    else if s[0] != '\\' then
      match UnquoteBody(s[1..])
      case None => None
      case Some(t) => Some([s[0]] + t)
    else if |s| >= 4 && s[1] == 'x' && HexValue(s[2]) >= 0 && HexValue(s[3]) >= 0 then
      match UnquoteBody(s[4..])
      case None => None
      case Some(t) => Some([(16 * HexValue(s[2]) + HexValue(s[3])) as char] + t)
    else if |s| >= 2 && Named(s[1]).Some? then
      match UnquoteBody(s[2..])
      case None => None
      case Some(t) => Some([Named(s[1]).value] + t)
    else None
  }

  /** Strip the double quotes, then decode. */
  function Unquote(q: string): Option<string>
  {
    if |q| >= 2 && q[0] == '"' && q[|q| - 1] == '"' then UnquoteBody(q[1..|q| - 1]) else None
  }

  /** The escape of one character decodes back to it, whatever follows. */
  lemma UnquoteChar(c: char, t: string)
    ensures UnquoteBody(QuoteChar(c) + t)
         == match UnquoteBody(t) case None => None case Some(u) => Some([c] + u)
  {
    var s := QuoteChar(c) + t;
    if IsNamed(c) {
      assert s[2..] == t;
      assert Named(NameOf(c)) == Some(c);
    } else if IsControl(c) {
      var hi, lo := c as int / 16, c as int % 16;
      assert HexValue(HexDigit(hi)) == hi && HexValue(HexDigit(lo)) == lo;
      assert s[4..] == t;
      assert (16 * hi + lo) as char == c;
    } else {
      assert s[1..] == t;
    }
  }

  /** Decoding inverts `Quote`. */
  lemma {:induction false} QuoteRoundTrip(s: string)
    ensures Unquote(Quote(s)) == Some(s)
  {
    QuoteBodyRoundTrip(s);
    var q := Quote(s);
    assert q[1..|q| - 1] == QuoteBody(s);
  }

  lemma {:induction false} QuoteBodyRoundTrip(s: string)
    ensures UnquoteBody(QuoteBody(s)) == Some(s)
  {
    if s != [] {
      QuoteBodyRoundTrip(s[1..]);
      UnquoteChar(s[0], QuoteBody(s[1..]));
      assert [s[0]] + s[1..] == s;
    }
  }

  /** A character that `Quote` writes as it is. */
  predicate IsPlain(c: char) { !IsControl(c) && c != '"' && c != '\\' }

  /** `Quote` only adds the double quotes to a text of plain characters. */
  lemma {:induction false} QuotePlain(s: string)
    requires forall c | c in s :: IsPlain(c)
    ensures Quote(s) == "\"" + s + "\""
  {
    QuoteBodyPlain(s);
  }

  lemma {:induction false} QuoteBodyPlain(s: string)
    requires forall c | c in s :: IsPlain(c)
    ensures QuoteBody(s) == s
  {
    if s != [] {
      assert s[0] in s;
      assert forall c | c in s[1..] :: c in s;
      QuoteBodyPlain(s[1..]);
      assert [s[0]] + s[1..] == s;
    }
  }

  /** Quoting works character by character. */
  lemma {:induction false} QuoteBodyAppend(a: string, b: string)
    ensures QuoteBody(a + b) == QuoteBody(a) + QuoteBody(b)
  {
    if a != [] {
      assert (a + b)[1..] == a[1..] + b;
      QuoteBodyAppend(a[1..], b);
    } else {
      assert a + b == b;
    }
  }

  /** Quoting a text between two plain texts quotes only the middle. */
  lemma QuoteAround(a: string, b: string, c: string)
    requires forall x | x in a :: IsPlain(x)
    requires forall x | x in c :: IsPlain(x)
    ensures QuoteBody(a + b + c) == a + QuoteBody(b) + c
  {
    QuoteBodyAppend(a + b, c);
    QuoteBodyAppend(a, b);
    QuoteBodyPlain(a);
    QuoteBodyPlain(c);
  }

  /** A backslash between plain texts is written twice. */
  lemma QuoteBackslash(a: string, c: string)
    requires forall x | x in a :: IsPlain(x)
    requires forall x | x in c :: IsPlain(x)
    ensures Quote(a + "\\" + c) == "\"" + a + "\\\\" + c + "\""
  {
    QuoteAround(a, "\\", c);
    BackslashBody();
    Regroup("\"", a, "\\\\", c, "\"");
  }

  /** Two backslashes between plain texts are written as four. */
  lemma QuoteBackslashes(a: string, c: string)
    requires forall x | x in a :: IsPlain(x)
    requires forall x | x in c :: IsPlain(x)
    ensures Quote(a + "\\\\" + c) == "\"" + a + "\\\\\\\\" + c + "\""
  {
    QuoteAround(a, "\\\\", c);
    assert QuoteBody("\\\\") == "\\\\\\\\" by {
      assert "\\\\" == "\\" + "\\";
      QuoteBodyAppend("\\", "\\");
      BackslashBody();
    }
    Regroup("\"", a, "\\\\\\\\", c, "\"");
  }

  lemma BackslashBody()
    ensures QuoteBody("\\") == "\\\\"
  {
    assert QuoteBody("\\") == QuoteChar('\\') + QuoteBody([]);
  }

  lemma Regroup(p: string, a: string, m: string, c: string, q: string)
    ensures p + (a + m + c) + q == p + a + m + c + q
  {
  }
}
