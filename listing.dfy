/**
 * `getClientFolderStructure`: the recursive listing of the client folder,
 * made relative by removing `<client folder><path.sep>` from the start of
 * each output line, then trimmed.
 */
module Listing {
  import opened Wrappers
  import opened Text
  import opened Exec

  datatype ListingResult =
    | ListingFailed(error: string, stderr: string)
    | Structure(structure: string, stderr: string)

  /** `clientAbsolutePath + path.sep`. */
  function ListingPrefix(clientPath: string, isWin: bool): string {
    clientPath + [if isWin then '\\' else '/']
  }

  /** `line.startsWith(prefix) ? line.substring(prefix.length) : line`. */
  function StripPrefix(line: string, prefix: string): (r: string)
    ensures StartsWith(line, prefix) ==> line == prefix + r
    ensures !StartsWith(line, prefix) ==> r == line
  {
    if StartsWith(line, prefix) then line[|prefix|..] else line
  }

  function StripAll(lines: seq<string>, prefix: string): (out: seq<string>)
    ensures |out| == |lines|
    ensures forall k :: 0 <= k < |lines| ==> out[k] == StripPrefix(lines[k], prefix)
  {
    seq(|lines|, k requires 0 <= k < |lines| => StripPrefix(lines[k], prefix))
  }

  /** `stdout.split('\n').map(strip).join('\n')`. */
  function Relativise(stdout: string, prefix: string): string {
    Join(StripAll(Split(stdout, '\n'), prefix), '\n')
  }

  /** The executor after `exec` returns: any error wins; otherwise the trimmed relative listing. */
  function GetClientFolderStructure(run: ExecOutcome, clientPath: string, isWin: bool): (r: ListingResult)
    ensures run.error.Some? ==> r == ListingFailed(run.error.value, run.stderr)
    ensures run.error.None? ==>
              r.Structure? && r.stderr == run.stderr
              && r.structure == Trim(Relativise(run.stdout, ListingPrefix(clientPath, isWin)))
  {
    match run.error
    case Some(message) => ListingFailed(message, run.stderr)
    case None => Structure(Trim(Relativise(run.stdout, ListingPrefix(clientPath, isWin))), run.stderr)
  }

  /**
   * Relativising keeps the lines: the output has as many '\n'-separated lines
   * as the input, a line that started with the prefix has lost exactly that
   * one copy of it, and every other line is unchanged.
   */
  lemma RelativiseLines(stdout: string, prefix: string)
    ensures var input := Split(stdout, '\n');
            var output := Split(Relativise(stdout, prefix), '\n');
            |output| == |input|
            && forall k :: 0 <= k < |input| ==>
                 (StartsWith(input[k], prefix) ==> input[k] == prefix + output[k])
                 && (!StartsWith(input[k], prefix) ==> output[k] == input[k])
  {
    var input := Split(stdout, '\n');
    var stripped := StripAll(input, prefix);
    SplitJoin(stripped, '\n');
    forall k | 0 <= k < |input| && StartsWith(input[k], prefix)
      ensures input[k] == prefix + stripped[k]
    {
      assert input[k] == input[k][..|prefix|] + input[k][|prefix|..];
    }
  }

  /** Joining the listing back together gives the original output when no line starts with the prefix. */
  lemma RelativiseWithoutPrefix(stdout: string, prefix: string)
    requires forall k :: 0 <= k < |Split(stdout, '\n')| ==> !StartsWith(Split(stdout, '\n')[k], prefix)
    ensures Relativise(stdout, prefix) == stdout
  {
    var input := Split(stdout, '\n');
    assert StripAll(input, prefix) == input;
    JoinSplit(stdout, '\n');
  }
}
