/**
 * `searchTextInClient`: the parser that turns `grep -rn` (Unix) or
 * `findstr /spin` (Windows) output into match records, and the executor's
 * error branch.
 *
 * Both platforms use a regular expression with no flags, so `.` excludes the
 * ECMAScript line terminators and `$` only matches at the end of the line.
 * `^(.*?):(\d+):(.*)$` therefore matches exactly the lines that contain no
 * line terminator and some `:<digits>:`; its lazy first group stops at the
 * FIRST such separator, and the greedy digit group takes the whole digit run
 * between the two colons.
 */
module Search {
  import opened Wrappers
  import opened Text
  import opened Exec

  /** One search hit; `line` is None where the Windows fallback found no line number (JavaScript null). */
  datatype Match = Match(filePath: string, line: Option<nat>, text: string)

  datatype SearchResult =
    | SearchFailed(error: string, stderr: string)
    | SearchMatches(matches: seq<Match>, stderr: string)

  /** `:<digits>:` starts at index `i` of `s`, its digit run having length `k`. */
  ghost predicate SeparatorAt(s: string, i: int, k: int) {
    0 <= i && 1 <= k && i + k + 1 < |s| && s[i] == ':'
    && AllDigits(s[i + 1..i + 1 + k]) && s[i + 1 + k] == ':'
  }

  ghost predicate HasSeparator(s: string) {
    exists i, k :: SeparatorAt(s, i, k)
  }

  /**
   * The decomposition the lazy regular expression selects: `filePath` is the
   * part of `s` before the first `:<digits>:`, `line` the value of those
   * digits and `text` everything after the second colon.
   */
  ghost predicate FirstSeparatorParse(s: string, m: Match) {
    var p := |m.filePath|;
    p < |s| && s[..p] == m.filePath
    && (forall i, k :: 0 <= i < p ==> !SeparatorAt(s, i, k))
    && exists k :: SeparatorAt(s, p, k)
                   && m.line == Some(DigitsValue(s[p + 1..p + 1 + k]))
                   && m.text == s[p + k + 2..]
  }

  /** The length of the maximal run of digits starting at `from`. */
  function DigitRun(s: string, from: nat): (n: nat)
    requires from <= |s|
    ensures from + n <= |s| && AllDigits(s[from..from + n])
    ensures from + n == |s| || !IsDigit(s[from + n])
    decreases |s| - from
  {
    if from < |s| && IsDigit(s[from]) then
      var n := DigitRun(s, from + 1);
      assert s[from..from + 1 + n] == [s[from]] + s[from + 1..from + 1 + n];
      1 + n
    else 0
  }

  /** A separator's digit run is the maximal one, so there is at most one separator per position. */
  lemma SeparatorRunIsMaximal(s: string, i: nat, k: int)
    requires SeparatorAt(s, i, k)
    ensures k == DigitRun(s, i + 1)
  {
  }

  /** The position of the first `:<digits>:` at or after `from`, with its digit-run length. */
  function FindSeparator(s: string, from: nat): (r: Option<(nat, nat)>)
    requires from <= |s|
    ensures r.Some? ==> from <= r.value.0 && SeparatorAt(s, r.value.0, r.value.1)
    ensures forall i, k :: from <= i && (r.None? || i < r.value.0) ==> !SeparatorAt(s, i, k)
    decreases |s| - from
  {
    if from == |s| then None
    else
      var k := if s[from] == ':' then DigitRun(s, from + 1) else 0;
      if k >= 1 && from + 1 + k < |s| && s[from + 1 + k] == ':' then
        Some((from, k))
      else
        assert forall k' :: !SeparatorAt(s, from, k') by {
          forall k' | SeparatorAt(s, from, k') ensures false {
            SeparatorRunIsMaximal(s, from, k');
          }
        }
        FindSeparator(s, from + 1)
  }

  /** `s.match(/^(.*?):(\d+):(.*)$/)`, turned into a record as the executor does. */
  function MatchNumbered(s: string): (r: Option<Match>)
    ensures r.Some? <==> NoLineTerminator(s) && HasSeparator(s)
    ensures r.Some? ==> r.value.line.Some? && FirstSeparatorParse(s, r.value)
  {
    if !NoLineTerminator(s) then None
    else
      match FindSeparator(s, 0)
      case None => None
      case Some((i, k)) =>
        var m := Match(s[..i], Some(DigitsValue(s[i + 1..i + 1 + k])), s[i + k + 2..]);
        assert SeparatorAt(s, |m.filePath|, k);
        Some(m)
  }

  /**
   * The part of a line left after `^\.?\/?`: the removed prefix is the
   * longest of "", ".", "/" and "./" that the line starts with.
   */
  function DotSlashRest(line: string): (rest: string)
    ensures |line| - 2 <= |rest| <= |line| && rest == line[|line| - |rest|..]
    ensures forall i :: 0 <= i < |line| - |rest| ==> line[i] == '.' || line[i] == '/'
    ensures var removed := line[..|line| - |rest|];
            && (removed == "" || removed == "." || removed == "/" || removed == "./")
            && (StartsWith(line, "./") ==> removed == "./")
            && (StartsWith(line, ".") || StartsWith(line, "/") ==> removed != "")
  {
    var a := if |line| > 0 && line[0] == '.' then line[1..] else line;
    if |a| > 0 && a[0] == '/' then a[1..] else a
  }

  /**
   * Stripping the optional `./` never changes whether the rest matches: the
   * stripped characters are neither colons nor line terminators. Hence the
   * greedy prefix the regular expression tries first is the one it keeps.
   */
  lemma DotSlashKeepsShape(line: string)
    ensures NoLineTerminator(DotSlashRest(line)) <==> NoLineTerminator(line)
    ensures HasSeparator(DotSlashRest(line)) <==> HasSeparator(line)
  {
    var rest := DotSlashRest(line);
    var d := |line| - |rest|;
    if NoLineTerminator(rest) {
      forall i | 0 <= i < |line| ensures !IsLineTerminator(line[i]) {
        if i >= d { assert line[i] == rest[i - d]; }
      }
    }
    if HasSeparator(rest) {
      var i, k :| SeparatorAt(rest, i, k);
      SeparatorShift(line, d, i, k);
    }
    if HasSeparator(line) {
      var j, k :| SeparatorAt(line, j, k);
      assert line[j] == ':';
      SeparatorShift(line, d, j - d, k);
    }
  }

  /** Separators of a suffix are the separators of the whole line, shifted. */
  lemma SeparatorShift(line: string, d: nat, i: nat, k: int)
    requires d <= |line|
    ensures SeparatorAt(line[d..], i, k) <==> SeparatorAt(line, i + d, k)
  {
    var rest := line[d..];
    if 1 <= k && i + k + 1 < |rest| {
      assert rest[i + 1..i + 1 + k] == line[i + d + 1..i + d + 1 + k];
    }
  }

  /**
   * A `grep -rn` line, `line.match(/^\.?\/?(.*?):(\d+):(.*)$/)`: it yields a
   * record exactly when it has no line terminator and contains `:<digits>:`,
   * and the record splits the line, after the optional `./`, at the first
   * such separator.
   */
  function ParseUnixLine(line: string): (r: Option<Match>)
    ensures r.Some? <==> NoLineTerminator(line) && HasSeparator(line)
    ensures r.Some? ==> r.value.line.Some? && FirstSeparatorParse(DotSlashRest(line), r.value)
  {
    DotSlashKeepsShape(line);
    MatchNumbered(DotSlashRest(line))
  }

  /**
   * A `findstr` line: the numbered form when `^(.*?):(\d+):(.*)$` matches,
   * otherwise the `path:text` fallback split at the first colon, provided that
   * colon is not the first character.
   */
  function ParseWindowsLine(line: string): (r: Option<Match>)
    ensures (r.Some? && r.value.line.Some?) <==> NoLineTerminator(line) && HasSeparator(line)
    ensures r.Some? && r.value.line.Some? ==> FirstSeparatorParse(line, r.value)
    ensures r.Some? && r.value.line.None? ==>
              line == r.value.filePath + [':'] + r.value.text
              && r.value.filePath != "" && ':' !in r.value.filePath
    ensures r.None? <==> !(NoLineTerminator(line) && HasSeparator(line))
                         && (':' !in line || line[0] == ':')
  {
    match MatchNumbered(line)
    case Some(m) => Some(m)
    case None =>
      match IndexOf(line, ':')
      case None => None
      case Some(idx) =>
        if idx > 0 then
          assert line == line[..idx] + [':'] + line[idx + 1..];
          Some(Match(line[..idx], None, line[idx + 1..]))
        else None
  }

  /**
   * A line that still carries a carriage return (CRLF output split on '\n')
   * never gets a line number on Windows: the numbered pattern fails and the
   * fallback keeps the digits in `text`.
   */
  lemma CarriageReturnLineIsUnnumbered(line: string)
    requires '\r' in line
    ensures ParseWindowsLine(line).None? || ParseWindowsLine(line).value.line.None?
  {
  }

  /** On Unix such a line is dropped altogether. */
  lemma CarriageReturnLineIsDroppedOnUnix(line: string)
    requires '\r' in line
    ensures ParseUnixLine(line) == None
  {
  }

  /** What one line of output contributes: nothing for a blank line, else the platform's parse. */
  function LineMatch(line: string, isWin: bool): (r: Option<Match>)
    ensures IsBlank(line) ==> r.None?
    ensures !isWin && r.Some? ==> r.value.line.Some?
  {
    if Trim(line) == "" then None
    else if isWin then ParseWindowsLine(line)
    else ParseUnixLine(line)
  }

  /** The records a loop that pushes `parse(line)` for each line collects, in line order. */
  function Collect(lines: seq<string>, parse: string -> Option<Match>): (r: seq<Match>)
    ensures |r| <= |lines|
  {
    if lines == [] then []
    else
      var init := Collect(lines[..|lines| - 1], parse);
      match parse(lines[|lines| - 1])
      case Some(m) => init + [m]
      case None => init
  }

  /** The records the executor's loop collects from the lines of its output. */
  function MatchesOf(lines: seq<string>, isWin: bool): (r: seq<Match>)
    ensures |r| <= |lines|
  {
    Collect(lines, line => LineMatch(line, isWin))
  }

  /** How many of `lines` yield a record. */
  function ParsedCount(lines: seq<string>, parse: string -> Option<Match>): nat {
    if lines == [] then 0
    else ParsedCount(lines[..|lines| - 1], parse) + (if parse(lines[|lines| - 1]).Some? then 1 else 0)
  }

  function NonBlankCount(lines: seq<string>): nat {
    if lines == [] then 0
    else NonBlankCount(lines[..|lines| - 1]) + (if IsBlank(lines[|lines| - 1]) then 0 else 1)
  }

  /** Collecting over concatenated lines concatenates the results: records keep input-line order. */
  lemma {:induction false} CollectAppend(a: seq<string>, b: seq<string>, parse: string -> Option<Match>)
    ensures Collect(a + b, parse) == Collect(a, parse) + Collect(b, parse)
    decreases |b|
  {
    if b != [] {
      var b' := b[..|b| - 1];
      assert (a + b)[..|a + b| - 1] == a + b';
      assert (a + b)[|a + b| - 1] == b[|b| - 1];
      CollectAppend(a, b', parse);
    } else {
      assert a + b == a;
    }
  }

  /** Exactly one record per line that yields one. */
  lemma {:induction false} CollectCount(lines: seq<string>, parse: string -> Option<Match>)
    ensures |Collect(lines, parse)| == ParsedCount(lines, parse)
  {
    if lines != [] {
      CollectCount(lines[..|lines| - 1], parse);
    }
  }

  /** A record is collected exactly when some line yields it. */
  lemma {:induction false} CollectMembers(lines: seq<string>, parse: string -> Option<Match>, m: Match)
    ensures m in Collect(lines, parse) <==> exists j :: 0 <= j < |lines| && parse(lines[j]) == Some(m)
  {
    if lines != [] {
      var init := lines[..|lines| - 1];
      CollectMembers(init, parse, m);
      if exists j :: 0 <= j < |init| && parse(init[j]) == Some(m) {
        var j :| 0 <= j < |init| && parse(init[j]) == Some(m);
        assert lines[j] == init[j];
      }
      if exists j :: 0 <= j < |lines| && parse(lines[j]) == Some(m) {
        var j :| 0 <= j < |lines| && parse(lines[j]) == Some(m);
        if j < |init| { assert init[j] == lines[j]; }
      }
    }
  }

  /** When only non-blank lines yield records, there are at most as many records as non-blank lines. */
  lemma {:induction false} ParsedCountBound(lines: seq<string>, parse: string -> Option<Match>)
    requires forall line :: parse(line).Some? ==> !IsBlank(line)
    ensures ParsedCount(lines, parse) <= NonBlankCount(lines)
  {
    if lines != [] {
      ParsedCountBound(lines[..|lines| - 1], parse);
    }
  }

  /** The search results keep the order of the output lines. */
  lemma {:induction false} MatchesOfAppend(a: seq<string>, b: seq<string>, isWin: bool)
    ensures MatchesOf(a + b, isWin) == MatchesOf(a, isWin) + MatchesOf(b, isWin)
  {
    CollectAppend(a, b, line => LineMatch(line, isWin));
  }

  /** Blank lines are skipped, so there are at most as many records as non-blank lines. */
  lemma {:induction false} MatchesOfBound(lines: seq<string>, isWin: bool)
    ensures |MatchesOf(lines, isWin)| <= NonBlankCount(lines)
  {
    var parse := line => LineMatch(line, isWin);
    CollectCount(lines, parse);
    ParsedCountBound(lines, parse);
  }

  /** Every record comes from a line, and every line that parses contributes its record. */
  lemma {:induction false} MatchesOfMembers(lines: seq<string>, isWin: bool, m: Match)
    ensures m in MatchesOf(lines, isWin) <==>
              exists j :: 0 <= j < |lines| && LineMatch(lines[j], isWin) == Some(m)
  {
    CollectMembers(lines, line => LineMatch(line, isWin), m);
  }

  /**
   * The loop of the executor: split stdout on '\n', skip lines that are
   * blank after trimming, and push the record each remaining line yields.
   */
  method ParseSearchOutput(stdout: string, isWin: bool) returns (results: seq<Match>)
    ensures results == MatchesOf(Split(stdout, '\n'), isWin)
  {
    results := [];
    var lines := Split(stdout, '\n');
    var i := 0;
    while i < |lines|
      invariant 0 <= i <= |lines|
      invariant results == MatchesOf(lines[..i], isWin)
    {
      var line := lines[i];
      CollectStep(lines, i, l => LineMatch(l, isWin));
      if Trim(line) == "" {
        i := i + 1;
        continue;
      }
      if isWin {
        var numbered := MatchNumbered(line);
        if numbered.Some? {
          results := results + [numbered.value];
        } else {
          var idx := IndexOf(line, ':');
          if idx.Some? && idx.value > 0 {
            results := results + [Match(line[..idx.value], None, line[idx.value + 1..])];
          }
        }
      } else {
        var numbered := ParseUnixLine(line);
        if numbered.Some? {
          results := results + [numbered.value];
        }
      }
      i := i + 1;
    }
    assert lines[..i] == lines;
  }

  lemma CollectStep(lines: seq<string>, i: nat, parse: string -> Option<Match>)
    requires i < |lines|
    ensures Collect(lines[..i + 1], parse) ==
              Collect(lines[..i], parse) + (match parse(lines[i]) case Some(m) => [m] case None => [])
  {
    assert lines[..i + 1][..i] == lines[..i];
  }

  /**
   * The executor after `exec` returns: an error with empty stdout is reported
   * as is; otherwise stdout is parsed, even when the command also failed.
   */
  method SearchTextInClient(run: ExecOutcome, isWin: bool) returns (r: SearchResult)
    ensures FailedWithoutOutput(run) ==> r == SearchFailed(run.error.value, run.stderr)
    ensures !FailedWithoutOutput(run) ==>
              r == SearchMatches(MatchesOf(Split(run.stdout, '\n'), isWin), run.stderr)
  {
    if FailedWithoutOutput(run) {
      return SearchFailed(run.error.value, run.stderr);
    }
    var results := ParseSearchOutput(run.stdout, isWin);
    r := SearchMatches(results, run.stderr);
  }
}
