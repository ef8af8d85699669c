/** The tool handler's own logic (src/server.rs): the response mapping
    `build_codex_output`, the PROMPT check, and the working-directory and
    image-path validation of `CodexServer::codex`. The file system is an
    oracle: what `current_dir`, `canonicalize`, `is_dir` and `is_file` say. */
module Server {
  import opened Wrappers
  import opened Json
  import opened CodexEvents

  /** The handler's errors that this model produces: all are invalid parameters. */
  datatype McpError = InvalidParams(message: string)

  /** `CodexArgs`: the tool's parameters. */
  datatype CodexArgs = CodexArgs(prompt: string, images: seq<string>, sessionId: Option<string>)

  /** `CodexOutput`: the tool's response; a None field is left out of the JSON. */
  datatype CodexOutput = CodexOutput(
    success: bool,
    sessionId: string,
    message: string,
    agentMessagesTruncated: Option<bool>,
    allMessages: Option<seq<JsonMap>>,
    allMessagesTruncated: Option<bool>,
    error: Option<string>,
    warnings: Option<string>)

  /** `build_codex_output`: the result's fields as they are, agent text as
      `message`; the optional flags are present only when true, the event log
      only when requested, and the warnings are the caller's. */
  function BuildCodexOutput(result: CodexResult, returnAllMessages: bool, warnings: Option<string>)
    : (out: CodexOutput)
    ensures out.success == result.success && out.sessionId == result.sessionId
    ensures out.message == result.agentMessages && out.error == result.error
    ensures out.warnings == warnings
    ensures out.agentMessagesTruncated != Some(false)
    ensures out.agentMessagesTruncated == Some(true) <==> result.agentMessagesTruncated
    ensures out.allMessages.Some? <==> returnAllMessages
    ensures out.allMessages.Some? ==> out.allMessages.value == result.allMessages
    ensures out.allMessagesTruncated != Some(false)
    ensures out.allMessagesTruncated == Some(true) <==> returnAllMessages && result.allMessagesTruncated
  {
    CodexOutput(
      result.success,
      result.sessionId,
      result.agentMessages,
      if result.agentMessagesTruncated then Some(true) else None,
      if returnAllMessages then Some(result.allMessages) else None,
      if returnAllMessages && result.allMessagesTruncated then Some(true) else None,
      result.error,
      warnings)
  }

  /** The response the handler builds from a run's result: the event log is
      never requested, and the warnings are the result's own. */
  function ToolResponse(result: CodexResult): (out: CodexOutput)
    ensures out.allMessages.None? && out.allMessagesTruncated.None?
    ensures out.warnings == result.warnings && out.error == result.error
    ensures out.success == result.success && out.sessionId == result.sessionId
  {
    BuildCodexOutput(result, false, result.warnings)
  }

  /** What the file system answers. */
  datatype FileSystem = FileSystem(
    currentDir: Result<string, string>,  // the process's directory, or why it is unknown
    canonical: map<string, string>,      // canonical form of every accessible path
    ioError: string -> string,           // why canonicalising any other path fails
    directories: set<string>,
    regularFiles: set<string>)

  /** `Path::is_absolute` on Unix: the path starts at the root. */
  predicate IsAbsolute(path: string) {
    |path| > 0 && path[0] == '/'
  }

  /** `Path::join` with a relative path: one separator between the parts,
      none after an empty base or one that already ends in a separator. */
  function JoinPath(base: string, rel: string): string {
    if base == [] || base[|base| - 1] == '/' then base + rel else base + "/" + rel
  }

  /** Where an image is looked for: as given when absolute, else under the
      working directory. */
  function ResolveImagePath(workingDir: string, image: string): string {
    if IsAbsolute(image) then image else JoinPath(workingDir, image)
  }

  /** Under an absolute working directory every image is looked for at an
      absolute path; a relative one is the working directory followed by the
      image path, so before canonicalisation it textually begins with the
      working directory (a `..` component can still lead outside it). */
  lemma ResolvedImagePathShape(workingDir: string, image: string)
    requires IsAbsolute(workingDir)
    ensures IsAbsolute(ResolveImagePath(workingDir, image))
    ensures IsAbsolute(image) ==> ResolveImagePath(workingDir, image) == image
    ensures !IsAbsolute(image) ==>
      var resolved := ResolveImagePath(workingDir, image);
      && resolved[..|workingDir|] == workingDir
      && resolved[|resolved| - |image|..] == image
  {
    if !IsAbsolute(image) {
      var sep := if workingDir[|workingDir| - 1] == '/' then "" else "/";
      var resolved := workingDir + sep + image;
      assert ResolveImagePath(workingDir, image) == resolved;
      assert resolved[..|workingDir|] == workingDir;
      assert resolved[|resolved| - |image|..] == image;
    }
  }

  /** The image exists, is accessible and its canonical path is a regular file. */
  predicate ImageAccepted(fs: FileSystem, workingDir: string, image: string) {
    var resolved := ResolveImagePath(workingDir, image);
    resolved in fs.canonical && fs.canonical[resolved] in fs.regularFiles
  }

  /** The error for a rejected image. */
  function ImageError(fs: FileSystem, workingDir: string, image: string): McpError {
    var resolved := ResolveImagePath(workingDir, image);
    if resolved !in fs.canonical then
      InvalidParams("image file does not exist or is not accessible: " + resolved + " (" + fs.ioError(resolved) + ")")
    else InvalidParams("image path is not a file: " + resolved)
  }

  /** Image k is the first one rejected. */
  predicate FirstRejected(fs: FileSystem, workingDir: string, images: seq<string>, k: int) {
    && 0 <= k < |images|
    && !ImageAccepted(fs, workingDir, images[k])
    && forall j :: 0 <= j < k ==> ImageAccepted(fs, workingDir, images[j])
  }

  /** The image loop of the handler: every image resolved and canonicalised,
      in order, one per input; the first bad one aborts with its error. */
  method ResolveImages(fs: FileSystem, workingDir: string, images: seq<string>)
    returns (r: Result<seq<string>, McpError>)
    ensures r.Success? <==> forall i :: 0 <= i < |images| ==> ImageAccepted(fs, workingDir, images[i])
    ensures r.Success? ==> |r.value| == |images|
    ensures r.Success? ==> forall i :: 0 <= i < |images| ==>
      && ImageAccepted(fs, workingDir, images[i])
      && r.value[i] == fs.canonical[ResolveImagePath(workingDir, images[i])]
      && r.value[i] in fs.regularFiles
    ensures r.Failure? ==> exists k :: FirstRejected(fs, workingDir, images, k) && r.error == ImageError(fs, workingDir, images[k])
  {
    var canonicalImagePaths: seq<string> := [];
    var i := 0;
    while i < |images|
      invariant 0 <= i <= |images|
      invariant |canonicalImagePaths| == i
      invariant forall j :: 0 <= j < i ==>
        && ImageAccepted(fs, workingDir, images[j])
        && canonicalImagePaths[j] == fs.canonical[ResolveImagePath(workingDir, images[j])]
        && canonicalImagePaths[j] in fs.regularFiles
    {
      var resolvedPath := ResolveImagePath(workingDir, images[i]);
      if resolvedPath !in fs.canonical || fs.canonical[resolvedPath] !in fs.regularFiles {
        assert FirstRejected(fs, workingDir, images, i);
        return Failure(ImageError(fs, workingDir, images[i]));
      }
      var canonical := fs.canonical[resolvedPath];
      canonicalImagePaths := canonicalImagePaths + [canonical];
      i := i + 1;
    }
    return Success(canonicalImagePaths);
  }

  /** What the handler hands on to the execution once its checks pass. */
  datatype ValidatedRequest = ValidatedRequest(
    prompt: string, workingDir: string, sessionId: Option<string>, imagePaths: seq<string>)

  const EmptyPromptMessage: string := "PROMPT is required and must be a non-empty string"

  /** The checks of `CodexServer::codex` before execution: a non-empty PROMPT
      (checked first, so nothing else is consulted when it is empty), a
      resolvable working directory that is a directory, and valid images. */
  method ValidateRequest(args: CodexArgs, fs: FileSystem) returns (r: Result<ValidatedRequest, McpError>)
    ensures args.prompt == "" ==> r == Failure(InvalidParams(EmptyPromptMessage))
    ensures args.prompt != "" && fs.currentDir.Failure? ==>
      r == Failure(InvalidParams("failed to resolve current working directory: " + fs.currentDir.error))
    ensures r.Success? ==>
      && args.prompt != ""
      && r.value.prompt == args.prompt && r.value.sessionId == args.sessionId
      && fs.currentDir.Success? && fs.currentDir.value in fs.canonical
      && r.value.workingDir == fs.canonical[fs.currentDir.value]
      && r.value.workingDir in fs.directories
      && |r.value.imagePaths| == |args.images|
      && forall i :: 0 <= i < |args.images| ==>
           && ImageAccepted(fs, r.value.workingDir, args.images[i])
           && r.value.imagePaths[i] == fs.canonical[ResolveImagePath(r.value.workingDir, args.images[i])]
    ensures (&& args.prompt != "" && fs.currentDir.Success?
             && fs.currentDir.value !in fs.canonical) ==>
      var wd := fs.currentDir.value;
      r == Failure(InvalidParams(
        "working directory does not exist or is not accessible: " + wd + " (" + fs.ioError(wd) + ")"))
    ensures (&& args.prompt != "" && fs.currentDir.Success?
             && fs.currentDir.value in fs.canonical
             && fs.canonical[fs.currentDir.value] !in fs.directories) ==>
      r == Failure(InvalidParams("working directory is not a directory: " + fs.currentDir.value))
    ensures (&& r.Failure? && args.prompt != "" && fs.currentDir.Success?
             && fs.currentDir.value in fs.canonical
             && fs.canonical[fs.currentDir.value] in fs.directories) ==>
      var cwd := fs.canonical[fs.currentDir.value];
      exists k :: FirstRejected(fs, cwd, args.images, k) && r.error == ImageError(fs, cwd, args.images[k])
  {
    if args.prompt == "" {
      return Failure(InvalidParams(EmptyPromptMessage));
    }
    if fs.currentDir.Failure? {
      return Failure(InvalidParams("failed to resolve current working directory: " + fs.currentDir.error));
    }
    var workingDir := fs.currentDir.value;
    if workingDir !in fs.canonical {
      return Failure(InvalidParams(
        "working directory does not exist or is not accessible: " + workingDir + " (" + fs.ioError(workingDir) + ")"));
    }
    var canonicalWorkingDir := fs.canonical[workingDir];
    if canonicalWorkingDir !in fs.directories {
      return Failure(InvalidParams("working directory is not a directory: " + workingDir));
    }
    var images := ResolveImages(fs, canonicalWorkingDir, args.images);
    match images {
      case Failure(e) =>
        return Failure(e);
      case Success(paths) =>
        return Success(ValidatedRequest(args.prompt, canonicalWorkingDir, args.sessionId, paths));
    }
  }
}
