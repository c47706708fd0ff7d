/**
 * `readFileContent`: choose the path argument, build the path to read under
 * the client folder, and report the read's outcome. The file system is a
 * function from the path handed to `fs.readFile` to what the read gives.
 */
module ReadFile {
  import opened Wrappers
  import opened Text

  /** The tool's two optional arguments, either of which names the file. */
  datatype ReadParams = ReadParams(filePath: Option<string>, path: Option<string>)

  datatype ReadOutcome = Content(text: string) | ReadFailed(message: string)

  datatype ReadResult =
    | MissingPath(error: string)
    | FileContent(filePath: string, content: string)
    | FileError(filePath: string, error: string)

  const NoPathMessage := "No filePath or path provided."
  const ClientDir := "../client/"

  /** A string argument is truthy when present and non-empty. */
  predicate Given(arg: Option<string>) {
    arg.Some? && arg.value != ""
  }

  /** `params.filePath || params.path`, as a string when it is truthy. */
  function SelectPath(params: ReadParams): (r: Option<string>)
    ensures r.Some? <==> Given(params.filePath) || Given(params.path)
    ensures Given(params.filePath) ==> r == params.filePath
    ensures !Given(params.filePath) && Given(params.path) ==> r == params.path
  {
    if Given(params.filePath) then params.filePath
    else if Given(params.path) then params.path
    else None
  }

  /** `` `../client/${filePath}` ``: plain concatenation, no normalisation. */
  function FullPath(p: string): string {
    ClientDir + p
  }

  /**
   * Without a usable argument the result is the fixed error and the file
   * system is never consulted; otherwise the result reports the read of
   * exactly `../client/<chosen path>`, success or failure, under that path.
   */
  function ReadFileContent(params: ReadParams, fs: string -> ReadOutcome): (r: ReadResult)
    ensures !Given(params.filePath) && !Given(params.path) <==> r == MissingPath(NoPathMessage)
    ensures r.FileContent? <==> SelectPath(params).Some? && fs(FullPath(SelectPath(params).value)).Content?
    ensures !r.MissingPath? ==>
              var p := if Given(params.filePath) then params.filePath.value else params.path.value;
              r.filePath == ClientDir + p
              && (r.FileContent? ==> fs(r.filePath) == Content(r.content))
              && (r.FileError? ==> fs(r.filePath) == ReadFailed(r.error))
  {
    match SelectPath(params)
    case None => MissingPath(NoPathMessage)
    case Some(p) =>
      var fullPath := FullPath(p);
      match fs(fullPath)
      case Content(text) => FileContent(fullPath, text)
      case ReadFailed(message) => FileError(fullPath, message)
  }

  /** Only the selected path is read: two file systems that agree on it give the same result. */
  lemma ReadFileContentReadsOnlyFullPath(params: ReadParams, fs1: string -> ReadOutcome, fs2: string -> ReadOutcome)
    requires SelectPath(params).Some? ==> fs1(FullPath(SelectPath(params).value)) == fs2(FullPath(SelectPath(params).value))
    ensures ReadFileContent(params, fs1) == ReadFileContent(params, fs2)
  {
  }

  /** The chosen argument can be read back from the reported path: nothing is rewritten or blocked. */
  lemma FullPathKeepsArgument(p: string)
    ensures FullPath(p)[..|ClientDir|] == ClientDir && FullPath(p)[|ClientDir|..] == p
  {
  }

  /**
   * In particular `..` segments pass through: whatever the file system holds,
   * an argument starting with `../` is read at `../client/../…`, outside the
   * client folder.
   */
  lemma TraversalIsNotBlocked(params: ReadParams, fs: string -> ReadOutcome)
    requires Given(params.filePath) && StartsWith(params.filePath.value, "../")
    ensures var r := ReadFileContent(params, fs);
            !r.MissingPath? && r.filePath == ClientDir + params.filePath.value
            && StartsWith(r.filePath, ClientDir + "../")
  {
    var p := params.filePath.value;
    assert p == "../" + p[3..];
    assert ClientDir + p == (ClientDir + "../") + p[3..];
  }
}
