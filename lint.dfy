/**
 * `findClientLintErrors`: ESLint's JSON report (one entry per file, each
 * with its array of messages) flattened into one list of messages, each
 * tagged with its file's path, plus the executor's two error branches.
 */
module Lint {
  import opened Json
  import opened Exec

  /** One ESLint message: its JSON properties (ruleId, severity, message, line, column, …). */
  type Message = map<string, Value>

  datatype LintFile = LintFile(filePath: string, messages: seq<Message>)

  /**
   * What `JSON.parse(stdout)` followed by the `flatMap` over `file.messages`
   * gives: a report, or the message of the exception either of them throws.
   */
  datatype ParsedReport = Report(files: seq<LintFile>) | Unparsable(message: string)

  datatype LintResult =
    | LintFailed(error: string, stderr: string)
    | LintErrors(errors: seq<Message>, stderr: string)
    | LintParseFailed(error: string, details: string, raw: string, stderr: string)

  const ParseFailureMessage := "Failed to parse ESLint output"

  /**
   * `{filePath: file.filePath, ...msg}`: the message's own properties are
   * spread after the tag, so a message that has a `filePath` keeps its own.
   */
  function Tag(filePath: string, msg: Message): (r: Message)
    ensures r.Keys == msg.Keys + {"filePath"}
    ensures forall key :: key in msg ==> r[key] == msg[key]
    ensures "filePath" !in msg ==> r["filePath"] == Str(filePath)
  {
    map["filePath" := Str(filePath)] + msg
  }

  /** `results.flatMap(file => file.messages.map(msg => Tag(file.filePath, msg)))`. */
  function Flatten(files: seq<LintFile>): (r: seq<Message>)
    ensures forall k :: 0 <= k < |r| ==> "filePath" in r[k]
  {
    if files == [] then []
    else TagAll(files[0].filePath, files[0].messages) + Flatten(files[1..])
  }

  function TagAll(filePath: string, msgs: seq<Message>): (r: seq<Message>)
    ensures |r| == |msgs|
    ensures forall j :: 0 <= j < |msgs| ==> r[j] == Tag(filePath, msgs[j])
  {
    seq(|msgs|, j requires 0 <= j < |msgs| => Tag(filePath, msgs[j]))
  }

  /** The number of messages in the first `n` files. */
  function MessagesBefore(files: seq<LintFile>, n: nat): nat
    requires n <= |files|
  {
    if n == 0 then 0 else MessagesBefore(files, n - 1) + |files[n - 1].messages|
  }

  function TotalMessages(files: seq<LintFile>): nat {
    MessagesBefore(files, |files|)
  }

  lemma {:induction false} MessagesBeforeTail(files: seq<LintFile>, n: nat)
    requires 1 <= n <= |files|
    ensures MessagesBefore(files, n) == |files[0].messages| + MessagesBefore(files[1..], n - 1)
  {
    if n > 1 {
      MessagesBeforeTail(files, n - 1);
      assert files[1..][n - 2] == files[n - 1];
    }
  }

  /** The flattened list has one entry per message of the report. */
  lemma {:induction false} FlattenLength(files: seq<LintFile>)
    ensures |Flatten(files)| == TotalMessages(files)
  {
    if files != [] {
      FlattenLength(files[1..]);
      MessagesBeforeTail(files, |files|);
    }
  }

  /** Message `j` of file `i` sits at position (messages of the files before `i`) + `j`, tagged with its file's path. */
  lemma {:induction false} FlattenAt(files: seq<LintFile>, i: nat, j: nat)
    requires i < |files| && j < |files[i].messages|
    ensures MessagesBefore(files, i) + j < |Flatten(files)|
    ensures Flatten(files)[MessagesBefore(files, i) + j] == Tag(files[i].filePath, files[i].messages[j])
  {
    var head := TagAll(files[0].filePath, files[0].messages);
    var tail := files[1..];
    assert Flatten(files) == head + Flatten(tail);
    if i > 0 {
      MessagesBeforeTail(files, i);
      assert tail[i - 1] == files[i];
      FlattenAt(tail, i - 1, j);
    }
  }

  /** Flattening two reports in sequence is flattening their concatenation. */
  lemma {:induction false} FlattenAppend(a: seq<LintFile>, b: seq<LintFile>)
    ensures Flatten(a + b) == Flatten(a) + Flatten(b)
  {
    if a != [] {
      assert (a + b)[1..] == a[1..] + b;
      FlattenAppend(a[1..], b);
    } else {
      assert a + b == b;
    }
  }

  /**
   * The executor after `exec` returns: an error with empty stdout is
   * reported as is; otherwise stdout is parsed (ESLint exits with an error
   * whenever it finds problems, so that is the usual path), and an
   * unparsable report is returned with its raw text.
   */
  function FindClientLintErrors(run: ExecOutcome, parse: string -> ParsedReport): (r: LintResult)
    ensures FailedWithoutOutput(run) <==> r.LintFailed?
    ensures r.LintFailed? ==> r == LintFailed(run.error.value, run.stderr)
    ensures r.LintErrors? <==> !FailedWithoutOutput(run) && parse(run.stdout).Report?
    ensures r.LintErrors? ==>
              r.stderr == run.stderr && r.errors == Flatten(parse(run.stdout).files)
              && |r.errors| == TotalMessages(parse(run.stdout).files)
    ensures r.LintParseFailed? ==>
              r == LintParseFailed(ParseFailureMessage, parse(run.stdout).message, run.stdout, run.stderr)
  {
    if FailedWithoutOutput(run) then LintFailed(run.error.value, run.stderr)
    else
      match parse(run.stdout)
      case Report(files) =>
        FlattenLength(files);
        LintErrors(Flatten(files), run.stderr)
      case Unparsable(message) => LintParseFailed(ParseFailureMessage, message, run.stdout, run.stderr)
  }
}
