/**
 * The rewriting `searchTextInClient` applies to the search text before it
 * interpolates it between double quotes in the shell command:
 * `text.replace(/"/g, '""')` for `cmd` on Windows and
 * `text.replace(/"/g, '\"')` for `sh` elsewhere. In a JavaScript string
 * literal `'\"'` is the one-character string `"`, so the Unix rewriting
 * replaces every quote by itself.
 */
module Quoting {
  /** The number of occurrences of `c` in `s`. */
  function Count(s: string, c: char): nat {
    if s == [] then 0 else (if s[0] == c then 1 else 0) + Count(s[1..], c)
  }

  /** `s.replace(/"/g, rep)` for a replacement without `$` patterns: each `"` becomes `rep`. */
  function ReplaceQuotes(s: string, rep: string): (r: string)
    ensures |r| == |s| + Count(s, '"') * |rep| - Count(s, '"')
  {
    if s == [] then ""
    else (if s[0] == '"' then rep else [s[0]]) + ReplaceQuotes(s[1..], rep)
  }

  /** The Windows (`cmd`) rewriting: every `"` doubled. */
  function WindowsQuote(text: string): (r: string)
    ensures |r| == |text| + Count(text, '"')
  {
    ReplaceQuotes(text, "\"\"")
  }

  /** The Unix (`sh`) rewriting as written: every `"` replaced by `"`. */
  function UnixQuote(text: string): (r: string)
    ensures |r| == |text|
  {
    ReplaceQuotes(text, "\"")
  }

  /** The Unix rewriting is the identity, so a `"` in the text still ends the shell's quoted word. */
  lemma {:induction false} UnixQuoteIsIdentity(text: string)
    ensures UnixQuote(text) == text
  {
    if text != [] {
      UnixQuoteIsIdentity(text[1..]);
      assert text == [text[0]] + text[1..];
    }
  }

  /** Doubling leaves twice as many quotes in the output. */
  lemma {:induction false} WindowsQuoteCounts(text: string)
    ensures Count(WindowsQuote(text), '"') == 2 * Count(text, '"')
  {
    if text != [] {
      WindowsQuoteCounts(text[1..]);
      var head := if text[0] == '"' then "\"\"" else [text[0]];
      CountAppend(head, WindowsQuote(text[1..]), '"');
    }
  }

  lemma {:induction false} CountAppend(a: string, b: string, c: char)
    ensures Count(a + b, c) == Count(a, c) + Count(b, c)
  {
    if a != [] {
      assert (a + b)[1..] == a[1..] + b;
      CountAppend(a[1..], b, c);
    } else {
      assert a + b == b;
    }
  }

  /** How `cmd` reads a doubled-quote word back: each `""` stands for one `"`. */
  function UndoubleQuotes(s: string): string
    decreases |s|
  {
    if s == [] then ""
    else if |s| >= 2 && s[0] == '"' && s[1] == '"' then "\"" + UndoubleQuotes(s[2..])
    else [s[0]] + UndoubleQuotes(s[1..])
  }

  /** Doubling is undone by reading `""` as `"`: the Windows rewriting loses no information. */
  lemma {:induction false} WindowsQuoteRoundTrip(text: string)
    ensures UndoubleQuotes(WindowsQuote(text)) == text
  {
    if text != [] {
      WindowsQuoteRoundTrip(text[1..]);
      var rest := WindowsQuote(text[1..]);
      if text[0] == '"' {
        assert WindowsQuote(text) == "\"\"" + rest;
        assert ("\"\"" + rest)[2..] == rest;
      } else {
        assert WindowsQuote(text) == [text[0]] + rest;
        assert ([text[0]] + rest)[1..] == rest;
      }
      assert text == [text[0]] + text[1..];
    }
  }
}
