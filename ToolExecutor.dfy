/**
 * `execute_tool`: parse the JSON arguments, then search the local tool modules in listing
 * order for one that imports, defines the requested function and returns from the call.
 * Import failures and exceptions raised by the tool itself are swallowed and the search
 * moves on; the function never raises.
 *
 * The directory listing, the import machinery and the tool call are oracle inputs: a
 * listing is an ordered list of module files, each either failing to import or exposing a
 * map from attribute names to the outcome of calling that attribute with the arguments.
 */
module ToolExecutor {
  import opened Wrappers
  import opened Json

  /** What calling `tool_func(**args_dict)` does; `str(result)` is already applied. */
  datatype Call = Returns(text: string) | Raises

  /** What `importlib.import_module` does with one file. */
  datatype Load = ImportFails | Imported(attrs: map<string, Call>)

  datatype ModuleFile = ModuleFile(filename: string, load: Load)

  /** `os.listdir` of the tool directory, in whatever order it returns. */
  datatype Listing = Listed(files: seq<ModuleFile>) | ListFailed(reason: string)

  /** `json.loads(arguments)`: a value, or a decoding error. */
  datatype Arguments = NotJson | Parsed(value: Json)

  const ArgumentsError := "错误：参数格式不正确"

  function NotFoundError(toolName: string): string
  {
    "错误：未找到工具函数 '" + toolName + "'"
  }

  function ExceptionError(reason: string): string
  {
    "错误：执行工具时发生异常: " + reason
  }

  predicate EndsWith(s: string, suffix: string)
  {
    |suffix| <= |s| && s[|s| - |suffix|..] == suffix
  }

  /** Only Python files other than the package initialiser are considered. */
  predicate IsCandidate(filename: string)
  {
    EndsWith(filename, ".py") && filename != "__init__.py"
  }

  /** The outcome of trying one file: the tool's text when this file answers the call, None
      when the search has to continue. Unpacking arguments that are not a JSON object raises
      inside the guarded block, so it too continues the search. */
  function TryModule(m: ModuleFile, toolName: string, args: Json): (r: Option<string>)
    ensures r.Some? <==> IsCandidate(m.filename) && m.load.Imported? && toolName in m.load.attrs
                         && args.JObj? && m.load.attrs[toolName].Returns?
    ensures r.Some? ==> r.value == m.load.attrs[toolName].text
  {
    if !IsCandidate(m.filename) then None
    else match m.load
      case ImportFails => None
      case Imported(attrs) =>
        if toolName !in attrs || !args.JObj? then None
        else match attrs[toolName]
          case Returns(text) => Some(text)
          case Raises => None
  }

  /** The loop over the listing with its early return. */
  function FirstMatch(files: seq<ModuleFile>, toolName: string, args: Json): (r: Option<string>)
    ensures r.None? <==> forall i :: 0 <= i < |files| ==> TryModule(files[i], toolName, args).None?
  {
    if files == [] then None
    else
      var here := TryModule(files[0], toolName, args);
      if here.Some? then here else FirstMatch(files[1..], toolName, args)
  }

  function ExecuteTool(toolName: string, arguments: Arguments, listing: Listing): string
  {
    match arguments
    case NotJson => ArgumentsError
    case Parsed(args) =>
      match listing
      case ListFailed(reason) => ExceptionError(reason)
      case Listed(files) =>
        match FirstMatch(files, toolName, args)
        case Some(text) => text
        case None => NotFoundError(toolName)
  }

  /** File `i` answers the call and no file before it does. */
  predicate FirstAt(files: seq<ModuleFile>, toolName: string, args: Json, i: int)
  {
    && 0 <= i < |files|
    && TryModule(files[i], toolName, args) == FirstMatch(files, toolName, args)
    && forall j :: 0 <= j < i ==> TryModule(files[j], toolName, args).None?
  }

  /** The answer comes from the first file, in listing order, whose call returns; every file
      before it either is not a candidate, fails to import, lacks the function or raised. */
  lemma {:induction false} FirstMatchIsFirst(files: seq<ModuleFile>, toolName: string, args: Json)
    requires FirstMatch(files, toolName, args).Some?
    ensures exists i :: FirstAt(files, toolName, args, i)
  {
    if TryModule(files[0], toolName, args).None? {
      FirstMatchIsFirst(files[1..], toolName, args);
      var i :| FirstAt(files[1..], toolName, args, i);
      assert files[i + 1] == files[1..][i];
      forall j | 0 <= j < i + 1
        ensures TryModule(files[j], toolName, args).None?
      {
        if j > 0 {
          assert files[j] == files[1..][j - 1];
        }
      }
      assert FirstAt(files, toolName, args, i + 1);
    } else {
      assert FirstAt(files, toolName, args, 0);
    }
  }

  /** Conversely, a file whose call returns and that is preceded only by files that do not
      answer determines the result. */
  lemma {:induction false} FirstAnswerWins(files: seq<ModuleFile>, toolName: string, args: Json, i: nat)
    requires i < |files| && TryModule(files[i], toolName, args).Some?
    requires forall j :: 0 <= j < i ==> TryModule(files[j], toolName, args).None?
    ensures FirstMatch(files, toolName, args) == TryModule(files[i], toolName, args)
  {
    if i > 0 {
      assert forall j :: 0 <= j < i - 1 ==> files[1..][j] == files[j + 1];
      FirstAnswerWins(files[1..], toolName, args, i - 1);
    }
  }

  /** The files that pass the name filter, in listing order. */
  function Candidates(files: seq<ModuleFile>): (cs: seq<ModuleFile>)
    ensures forall m :: m in cs <==> m in files && IsCandidate(m.filename)
  {
    if files == [] then []
    else if IsCandidate(files[0].filename) then [files[0]] + Candidates(files[1..])
    else Candidates(files[1..])
  }

  /** Searching the whole listing gives the same answer as searching only the candidate
      files: non-Python files and the package initialiser are never consulted. */
  lemma {:induction false} OnlyCandidatesConsulted(files: seq<ModuleFile>, toolName: string, args: Json)
    ensures FirstMatch(files, toolName, args) == FirstMatch(Candidates(files), toolName, args)
  {
    if files != [] {
      OnlyCandidatesConsulted(files[1..], toolName, args);
      if IsCandidate(files[0].filename) {
        assert Candidates(files)[1..] == Candidates(files[1..]);
      }
    }
  }

  /** Arguments that are not JSON give the format error whatever the tool directory holds,
      so no module is imported and no tool runs. */
  lemma BadArgumentsInvokeNothing(toolName: string, listing1: Listing, listing2: Listing)
    ensures ExecuteTool(toolName, NotJson, listing1) == ArgumentsError
    ensures ExecuteTool(toolName, NotJson, listing1) == ExecuteTool(toolName, NotJson, listing2)
  {
  }

  /** The not-found message is returned exactly when no file answers: in particular a tool
      that raises, with no other file defining it, reads as not found. */
  lemma NotFoundExactly(toolName: string, args: Json, files: seq<ModuleFile>)
    ensures (forall i :: 0 <= i < |files| ==> TryModule(files[i], toolName, args).None?)
        ==> ExecuteTool(toolName, Parsed(args), Listed(files)) == NotFoundError(toolName)
    ensures (exists i :: 0 <= i < |files| && TryModule(files[i], toolName, args).Some?)
        ==> ExecuteTool(toolName, Parsed(args), Listed(files)) == FirstMatch(files, toolName, args).value
  {
  }

  /** The outcome of every file in the listing. */
  function Tried(files: seq<ModuleFile>, toolName: string, args: Json): (rs: seq<Option<string>>)
    ensures |rs| == |files|
    ensures forall i :: 0 <= i < |files| ==> rs[i] == TryModule(files[i], toolName, args)
  {
    seq(|files|, i requires 0 <= i < |files| => TryModule(files[i], toolName, args))
  }

  /** The call never raises: every outcome is the format error, the listing failure, the
      not-found message, or the text returned by some tool. */
  lemma ExecuteOutcomes(toolName: string, arguments: Arguments, listing: Listing)
    ensures var r := ExecuteTool(toolName, arguments, listing);
      || (arguments.NotJson? && r == ArgumentsError)
      || (arguments.Parsed? && listing.ListFailed? && r == ExceptionError(listing.reason))
      || (arguments.Parsed? && listing.Listed? && r == NotFoundError(toolName))
      || (arguments.Parsed? && listing.Listed? && Some(r) in Tried(listing.files, toolName, arguments.value))
  {
    if arguments.Parsed? && listing.Listed? && FirstMatch(listing.files, toolName, arguments.value).Some? {
      FirstMatchIsFirst(listing.files, toolName, arguments.value);
      var i :| FirstAt(listing.files, toolName, arguments.value, i);
      assert Tried(listing.files, toolName, arguments.value)[i] == FirstMatch(listing.files, toolName, arguments.value);
    }
  }
}
