/** Execution options of one codex run and the command line built from them
    (src/codex.rs: `SandboxPolicy`, `Options`, the argument construction at the
    start of `run_internal`, and `message_limit`). */
module CodexOptions {
  import opened Wrappers
  import opened Text

  /** Sandbox policy for commands the model runs; `ReadOnly` is the default. */
  datatype SandboxPolicy = ReadOnly | WorkspaceWrite | DangerFullAccess

  const DefaultSandboxPolicy: SandboxPolicy := ReadOnly

  /** Lower-case words joined by single hyphens, as `rename_all = "kebab-case"`
      spells a variant name. */
  predicate IsKebabCase(s: string) {
    && s != []
    && (forall i :: 0 <= i < |s| ==> 'a' <= s[i] <= 'z' || s[i] == '-')
    && s[0] != '-' && s[|s| - 1] != '-'
    && (forall i :: 0 <= i < |s| - 1 ==> !(s[i] == '-' && s[i + 1] == '-'))
  }

  /** The kebab-case spelling passed to `--sandbox`. */
  function AsStr(p: SandboxPolicy): (s: string)
    ensures IsKebabCase(s)
  {
    match p
    case ReadOnly => "read-only"
    case WorkspaceWrite => "workspace-write"
    case DangerFullAccess => "danger-full-access"
  }

  /** The derived kebab-case deserialisation of a policy name. */
  function ParseSandboxPolicy(s: string): (r: Option<SandboxPolicy>)
    ensures forall p :: r == Some(p) <==> AsStr(p) == s
  {
    if s == "read-only" then Some(ReadOnly)
    else if s == "workspace-write" then Some(WorkspaceWrite)
    else if s == "danger-full-access" then Some(DangerFullAccess)
    else None
  }

  /** `Options`. Paths are their text; `usize`/`u64` values are naturals. */
  datatype Options = Options(
    prompt: string,
    workingDir: string,
    sandbox: SandboxPolicy,
    sessionId: Option<string>,
    skipGitRepoCheck: bool,
    returnAllMessages: bool,
    returnAllMessagesLimit: Option<nat>,
    imagePaths: seq<string>,
    model: Option<string>,
    yolo: bool,
    profile: Option<string>,
    timeoutSecs: Option<nat>)

  const MaxMessageLimit: nat := 50000
  const DefaultMessageLimit: nat := 10000

  /** How many events `all_messages` may hold. */
  function MessageLimit(opts: Options): (limit: nat)
    ensures limit <= MaxMessageLimit
    ensures opts.returnAllMessagesLimit.None? ==> limit == DefaultMessageLimit
    ensures opts.returnAllMessagesLimit.Some? ==>
      limit <= opts.returnAllMessagesLimit.value
      && (limit == opts.returnAllMessagesLimit.value || limit == MaxMessageLimit)
  {
    match opts.returnAllMessagesLimit
    case Some(requested) => if requested < MaxMessageLimit then requested else MaxMessageLimit
    case None => DefaultMessageLimit
  }

  /** The fixed head: subcommand, sandbox, working directory, JSON output. */
  function BaseArgs(opts: Options): seq<string> {
    ["exec", "--sandbox", AsStr(opts.sandbox), "--cd", opts.workingDir, "--json"]
  }

  /** One `--image <path>` pair per image, in order. */
  function ImageArgs(paths: seq<string>): seq<string> {
    if paths == [] then []
    else ImageArgs(paths[..|paths| - 1]) + ["--image", paths[|paths| - 1]]
  }

  function OptionalPair(flag: string, value: Option<string>): seq<string> {
    match value
    case Some(v) => [flag, v]
    case None => []
  }

  function OptionalFlag(flag: string, on: bool): seq<string> {
    if on then [flag] else []
  }

  /** The event-log request and its optional limit. */
  function ReturnAllArgs(opts: Options): seq<string> {
    if !opts.returnAllMessages then []
    else match opts.returnAllMessagesLimit
      case Some(l) => ["--return-all-messages", "--return-all-messages-limit", NatToString(l)]
      case None => ["--return-all-messages"]
  }

  /** The argument vector the codex binary is launched with, built up in the
      order of `run_internal`; each stage extends the one before it. */
  function HeadArgs(opts: Options): seq<string> {
    BaseArgs(opts) + ImageArgs(opts.imagePaths)
  }

  function UpToModel(opts: Options): seq<string> {
    HeadArgs(opts) + OptionalPair("--model", opts.model)
  }

  function UpToProfile(opts: Options): seq<string> {
    UpToModel(opts) + OptionalPair("--profile", opts.profile)
  }

  function UpToYolo(opts: Options): seq<string> {
    UpToProfile(opts) + OptionalFlag("--yolo", opts.yolo)
  }

  function UpToSkipGitRepoCheck(opts: Options): seq<string> {
    UpToYolo(opts) + OptionalFlag("--skip-git-repo-check", opts.skipGitRepoCheck)
  }

  function UpToReturnAll(opts: Options): seq<string> {
    UpToSkipGitRepoCheck(opts) + ReturnAllArgs(opts)
  }

  function UpToResume(opts: Options): seq<string> {
    UpToReturnAll(opts) + OptionalPair("resume", opts.sessionId)
  }

  function CommandArgs(opts: Options): seq<string> {
    UpToResume(opts) + ["--", opts.prompt]
  }

  /** Index of each optional piece (or of the next piece, when it is absent). */
  function ModelPos(opts: Options): nat {
    6 + 2 * |opts.imagePaths|
  }

  function ProfilePos(opts: Options): nat {
    ModelPos(opts) + (if opts.model.Some? then 2 else 0)
  }

  function YoloPos(opts: Options): nat {
    ProfilePos(opts) + (if opts.profile.Some? then 2 else 0)
  }

  function SkipGitRepoCheckPos(opts: Options): nat {
    YoloPos(opts) + (if opts.yolo then 1 else 0)
  }

  function ReturnAllPos(opts: Options): nat {
    SkipGitRepoCheckPos(opts) + (if opts.skipGitRepoCheck then 1 else 0)
  }

  function ResumePos(opts: Options): nat {
    ReturnAllPos(opts)
    + (if !opts.returnAllMessages then 0 else if opts.returnAllMessagesLimit.Some? then 3 else 1)
  }

  function PromptSeparatorPos(opts: Options): nat {
    ResumePos(opts) + (if opts.sessionId.Some? then 2 else 0)
  }

  lemma {:induction false} ImageArgsAt(paths: seq<string>, i: nat)
    requires i < |paths|
    ensures |ImageArgs(paths)| == 2 * |paths|
    ensures ImageArgs(paths)[2 * i] == "--image" && ImageArgs(paths)[2 * i + 1] == paths[i]
    decreases |paths|
  {
    var init := paths[..|paths| - 1];
    if i < |init| {
      ImageArgsAt(init, i);
    } else if init != [] {
      ImageArgsAt(init, 0);
    }
  }

  /** Each stage of the command line has the length the positions count. */
  lemma StageLengths(opts: Options)
    ensures |HeadArgs(opts)| == ModelPos(opts)
    ensures |UpToModel(opts)| == ProfilePos(opts)
    ensures |UpToProfile(opts)| == YoloPos(opts)
    ensures |UpToYolo(opts)| == SkipGitRepoCheckPos(opts)
    ensures |UpToSkipGitRepoCheck(opts)| == ReturnAllPos(opts)
    ensures |UpToReturnAll(opts)| == ResumePos(opts)
    ensures |UpToResume(opts)| == PromptSeparatorPos(opts)
  {
    if opts.imagePaths != [] {
      ImageArgsAt(opts.imagePaths, 0);
    }
  }

  /** An argument inside an earlier stage keeps its index in the full vector. */
  lemma StageIsPrefix(opts: Options)
    ensures HeadArgs(opts) <= UpToModel(opts) <= UpToProfile(opts) <= UpToYolo(opts)
    ensures UpToYolo(opts) <= UpToSkipGitRepoCheck(opts) <= UpToReturnAll(opts)
    ensures UpToReturnAll(opts) <= UpToResume(opts) <= CommandArgs(opts)
  {
  }

  lemma PrefixIndex(a: seq<string>, b: seq<string>, i: nat)
    requires a <= b && i < |a|
    ensures b[i] == a[i]
  {
  }

  /** The fixed head and the image pairs. */
  lemma HeadLayout(opts: Options)
    ensures var args := CommandArgs(opts);
      && |args| >= 6 + 2 * |opts.imagePaths|
      && args[..6] == ["exec", "--sandbox", AsStr(opts.sandbox), "--cd", opts.workingDir, "--json"]
      && (forall i :: 0 <= i < |opts.imagePaths| ==>
            args[6 + 2 * i] == "--image" && args[7 + 2 * i] == opts.imagePaths[i])
  {
    var args := CommandArgs(opts);
    StageLengths(opts);
    StageIsPrefix(opts);
    var head := HeadArgs(opts);
    assert args[..6] == head[..6];
    forall i | 0 <= i < |opts.imagePaths|
      ensures args[6 + 2 * i] == "--image" && args[7 + 2 * i] == opts.imagePaths[i]
    {
      ImageArgsAt(opts.imagePaths, i);
      PrefixIndex(head, args, 6 + 2 * i);
      PrefixIndex(head, args, 7 + 2 * i);
    }
  }

  /** The optional pieces after the images, and the prompt last. */
  lemma FlagsLayout(opts: Options)
    ensures var args := CommandArgs(opts);
      && |args| == PromptSeparatorPos(opts) + 2
      && (opts.model.Some? ==>
            args[ModelPos(opts)] == "--model" && args[ModelPos(opts) + 1] == opts.model.value)
      && (opts.profile.Some? ==>
            args[ProfilePos(opts)] == "--profile" && args[ProfilePos(opts) + 1] == opts.profile.value)
      && (opts.yolo ==> args[YoloPos(opts)] == "--yolo")
      && (opts.skipGitRepoCheck ==> args[SkipGitRepoCheckPos(opts)] == "--skip-git-repo-check")
      && (opts.returnAllMessages ==> args[ReturnAllPos(opts)] == "--return-all-messages")
      && (opts.returnAllMessages && opts.returnAllMessagesLimit.Some? ==>
            && args[ReturnAllPos(opts) + 1] == "--return-all-messages-limit"
            && args[ReturnAllPos(opts) + 2] == NatToString(opts.returnAllMessagesLimit.value))
      && (opts.sessionId.Some? ==>
            args[ResumePos(opts)] == "resume" && args[ResumePos(opts) + 1] == opts.sessionId.value)
      && args[PromptSeparatorPos(opts)] == "--" && args[PromptSeparatorPos(opts) + 1] == opts.prompt
  {
    var args := CommandArgs(opts);
    StageLengths(opts);
    StageIsPrefix(opts);
    if opts.model.Some? {
      PrefixIndex(UpToModel(opts), args, ModelPos(opts));
      PrefixIndex(UpToModel(opts), args, ModelPos(opts) + 1);
    }
    if opts.profile.Some? {
      PrefixIndex(UpToProfile(opts), args, ProfilePos(opts));
      PrefixIndex(UpToProfile(opts), args, ProfilePos(opts) + 1);
    }
    if opts.yolo {
      PrefixIndex(UpToYolo(opts), args, YoloPos(opts));
    }
    if opts.skipGitRepoCheck {
      PrefixIndex(UpToSkipGitRepoCheck(opts), args, SkipGitRepoCheckPos(opts));
    }
    if opts.returnAllMessages {
      PrefixIndex(UpToReturnAll(opts), args, ReturnAllPos(opts));
      if opts.returnAllMessagesLimit.Some? {
        PrefixIndex(UpToReturnAll(opts), args, ReturnAllPos(opts) + 1);
        PrefixIndex(UpToReturnAll(opts), args, ReturnAllPos(opts) + 2);
      }
    }
    if opts.sessionId.Some? {
      PrefixIndex(UpToResume(opts), args, ResumePos(opts));
      PrefixIndex(UpToResume(opts), args, ResumePos(opts) + 1);
    }
  }

  /** Where each piece of the command line sits, in the order of
      `run_internal`: the fixed head, one pair per image, then `--model`,
      `--profile`, `--yolo`, `--skip-git-repo-check`, the event-log request
      with the limit as requested (not as capped), `resume <id>`, and last
      the prompt behind `--`. Each optional piece takes room only when
      present, so the length counts exactly the pieces that are there. */
  lemma CommandArgsLayout(opts: Options)
    ensures var args := CommandArgs(opts);
      && |args| == PromptSeparatorPos(opts) + 2
      && args[..6] == ["exec", "--sandbox", AsStr(opts.sandbox), "--cd", opts.workingDir, "--json"]
      && (forall i :: 0 <= i < |opts.imagePaths| ==>
            args[6 + 2 * i] == "--image" && args[7 + 2 * i] == opts.imagePaths[i])
      && (opts.model.Some? ==>
            args[ModelPos(opts)] == "--model" && args[ModelPos(opts) + 1] == opts.model.value)
      && (opts.profile.Some? ==>
            args[ProfilePos(opts)] == "--profile" && args[ProfilePos(opts) + 1] == opts.profile.value)
      && (opts.yolo ==> args[YoloPos(opts)] == "--yolo")
      && (opts.skipGitRepoCheck ==> args[SkipGitRepoCheckPos(opts)] == "--skip-git-repo-check")
      && (opts.returnAllMessages ==> args[ReturnAllPos(opts)] == "--return-all-messages")
      && (opts.returnAllMessages && opts.returnAllMessagesLimit.Some? ==>
            && args[ReturnAllPos(opts) + 1] == "--return-all-messages-limit"
            && args[ReturnAllPos(opts) + 2] == NatToString(opts.returnAllMessagesLimit.value))
      && (opts.sessionId.Some? ==>
            args[ResumePos(opts)] == "resume" && args[ResumePos(opts) + 1] == opts.sessionId.value)
      && args[PromptSeparatorPos(opts)] == "--" && args[PromptSeparatorPos(opts) + 1] == opts.prompt
  {
    HeadLayout(opts);
    FlagsLayout(opts);
  }

  /** The image loop of `run_internal`: one `--image <path>` pair per
      image, in order, after the arguments already there. */
  method AppendImageArgs(prefix: seq<string>, paths: seq<string>) returns (args: seq<string>)
    ensures args == prefix + ImageArgs(paths)
  {
    args := prefix;
    var i := 0;
    while i < |paths|
      invariant 0 <= i <= |paths|
      invariant args == prefix + ImageArgs(paths[..i])
    {
      assert paths[..i + 1][..i] == paths[..i];
      args := args + ["--image"];
      args := args + [paths[i]];
      i := i + 1;
    }
    assert paths[..i] == paths;
  }

  /** The argument construction of `run_internal`: the same vector, built
      one argument at a time with a loop over the images. */
  method BuildCommandArgs(opts: Options) returns (args: seq<string>)
    ensures args == CommandArgs(opts)
  {
    args := ["exec", "--sandbox", AsStr(opts.sandbox), "--cd"];
    args := args + [opts.workingDir];
    args := args + ["--json"];
    args := AppendImageArgs(args, opts.imagePaths);
    assert args == HeadArgs(opts);
    args := AppendModelAndProfile(args, opts);
    args := AppendSwitches(args, opts);
    if opts.sessionId.Some? {
      args := args + ["resume", opts.sessionId.value];
    }
    assert args == UpToResume(opts);
    args := args + ["--", opts.prompt];
  }

  /** `--model` and `--profile`, each only when set. */
  method AppendModelAndProfile(prefix: seq<string>, opts: Options) returns (args: seq<string>)
    requires prefix == HeadArgs(opts)
    ensures args == UpToProfile(opts)
  {
    args := prefix;
    if opts.model.Some? {
      args := args + ["--model", opts.model.value];
    }
    assert args == UpToModel(opts);
    if opts.profile.Some? {
      args := args + ["--profile", opts.profile.value];
    }
  }

  /** `--yolo`, `--skip-git-repo-check` and the event-log request, each only
      when asked for. */
  method AppendSwitches(prefix: seq<string>, opts: Options) returns (args: seq<string>)
    requires prefix == UpToProfile(opts)
    ensures args == UpToReturnAll(opts)
  {
    args := prefix;
    if opts.yolo {
      args := args + ["--yolo"];
    }
    assert args == UpToYolo(opts);
    if opts.skipGitRepoCheck {
      args := args + ["--skip-git-repo-check"];
    }
    assert args == UpToSkipGitRepoCheck(opts);
    if opts.returnAllMessages {
      args := args + ["--return-all-messages"];
      if opts.returnAllMessagesLimit.Some? {
        args := args + ["--return-all-messages-limit", NatToString(opts.returnAllMessagesLimit.value)];
      }
    }
  }

}
