/**
 * polyglot/__main__.py: which action runs and, for `translate`, which manager the
 * source file's extension selects. The client calls it dispatches to are named, not
 * performed.
 */
module Cli {
  import opened Wrappers
  import opened Paths

  /** The actions `get_parser` accepts. */
  const MAIN_ACTIONS: seq<string> := ["translate", "print_supported_languages", "print_usage_info", "set_key"]

  /** What `parse_args` returns: each flag defaults to `None`. */
  datatype ParsedArgs = ParsedArgs(action: string, sourceFile: Option<string>, targetLang: Option<string>,
                                   outputDirectory: Option<string>, sourceLang: Option<string>)

  /** The manager classes a source file can be given to. */
  datatype ManagerKind = JsonManagerKind | PoManagerKind | TextManagerKind

  /** The single client operation each other action performs. */
  datatype ClientCall = PrintSupportedLanguages | PrintUsageInfo | SetKey

  /** What `translate_or_print_data` goes on to do. */
  datatype Dispatch =
    | RunManager(kind: ManagerKind, sourceFile: string, outputDirectory: Option<string>)
    | CallClient(call: ClientCall)

  /** The ways the entry point stops early. */
  datatype CliError = UsageError | NoActionSelected | ImportError(name: string)

  /** The manager chosen from the source file's extension. */
  function SelectManager(extension: string): (k: ManagerKind)
    ensures k == JsonManagerKind <==> extension == ".json"
    ensures k == PoManagerKind <==> extension == ".po"
    ensures k == TextManagerKind <==> extension != ".json" && extension != ".po"
  {
    if extension == ".json" then JsonManagerKind
    else if extension == ".po" then PoManagerKind
    else TextManagerKind
  }

  /** The client call behind each action other than `translate`. */
  function ClientCallOf(action: string): (c: ClientCall)
    requires action in MAIN_ACTIONS && action != "translate"
    ensures c == PrintSupportedLanguages <==> action == "print_supported_languages"
    ensures c == PrintUsageInfo <==> action == "print_usage_info"
    ensures c == SetKey <==> action == "set_key"
  {
    if action == "print_supported_languages" then PrintSupportedLanguages
    else if action == "print_usage_info" then PrintUsageInfo
    else SetKey
  }

  /**
   * `translate_or_print_data` after `parse_args`: an action outside the choices and a
   * `translate` without source file or target language are usage errors; `translate`
   * runs the manager its extension selects; every other action makes one client call.
   */
  function TranslateOrPrintData(args: ParsedArgs): (r: Result<Dispatch, CliError>)
    ensures r.Success? ==> args.action in MAIN_ACTIONS
    ensures r != Failure(NoActionSelected)
    ensures args.action !in MAIN_ACTIONS ==> r == Failure(UsageError)
    ensures args.action == "translate" && (args.sourceFile.None? || args.targetLang.None?) ==> r == Failure(UsageError)
    ensures args.action == "translate" && args.sourceFile.Some? && args.targetLang.Some? ==>
              r == Success(RunManager(SelectManager(Extension(args.sourceFile.value)),
                                      args.sourceFile.value, args.outputDirectory))
    ensures args.action == "print_supported_languages" ==> r == Success(CallClient(PrintSupportedLanguages))
    ensures args.action == "print_usage_info" ==> r == Success(CallClient(PrintUsageInfo))
    ensures args.action == "set_key" ==> r == Success(CallClient(SetKey))
  {
    if args.action !in MAIN_ACTIONS then Failure(UsageError)
    else if args.action == "" then Failure(NoActionSelected)
    else if args.action == "translate" then
      if args.sourceFile.None? || args.targetLang.None? then Failure(UsageError)
      else Success(RunManager(SelectManager(Extension(args.sourceFile.value)), args.sourceFile.value, args.outputDirectory))
    else Success(CallClient(ClientCallOf(args.action)))
  }

  /** The classes polyglot/managers.py defines. */
  const MANAGER_CLASSES: set<string> := {"Manager", "TextManager", "DictionaryManager", "JSONManager", "POManager", "DocumentManager"}

  /** The names __main__.py imports from polyglot/managers.py, as written. */
  const MAIN_IMPORTS_AS_WRITTEN: seq<string> := ["BaseManager", "JSONManager", "POManager"]

  /** The names it evidently means: its fallback manager is the text manager. */
  const MAIN_IMPORTS: seq<string> := ["TextManager", "JSONManager", "POManager"]

  /** `from polyglot.managers import names`: the first name the module lacks raises `ImportError`. */
  function ImportNames(names: seq<string>, defined: set<string>): (r: Option<CliError>)
    ensures r.None? <==> forall i :: 0 <= i < |names| ==> names[i] in defined
    ensures r.Some? ==> r.value.ImportError? && r.value.name in names && r.value.name !in defined
  {
    if names == [] then None
    else if names[0] !in defined then Some(ImportError(names[0]))
    else
      var rest := ImportNames(names[1..], defined);
      assert forall i :: 1 <= i < |names| ==> names[i] == names[1..][i - 1];
      rest
  }

  /**
   * The console script `polyglot.__main__:translate_or_print_data`: importing the module
   * runs its imports before `translate_or_print_data` can be called.
   */
  function EntryPoint(imports: seq<string>, args: ParsedArgs): (r: Result<Dispatch, CliError>)
    ensures ImportNames(imports, MANAGER_CLASSES).Some? ==> r == Failure(ImportNames(imports, MANAGER_CLASSES).value)
    ensures ImportNames(imports, MANAGER_CLASSES).None? ==> r == TranslateOrPrintData(args)
  {
    match ImportNames(imports, MANAGER_CLASSES)
    case Some(e) => Failure(e)
    case None => TranslateOrPrintData(args)
  }

  /** As written, every command line stops at the import of `BaseManager`. */
  lemma EntryPointAsWrittenFails(args: ParsedArgs)
    ensures EntryPoint(MAIN_IMPORTS_AS_WRITTEN, args) == Failure(ImportError("BaseManager"))
  {
    assert "BaseManager" !in MANAGER_CLASSES;
  }

  /** With the text manager imported, the entry point is `TranslateOrPrintData`. */
  lemma EntryPointImportsResolve(args: ParsedArgs)
    ensures EntryPoint(MAIN_IMPORTS, args) == TranslateOrPrintData(args)
  {
    assert forall i :: 0 <= i < |MAIN_IMPORTS| ==> MAIN_IMPORTS[i] in MANAGER_CLASSES;
  }

  /** A manager is built only for `translate`; every other accepted action makes exactly one client call. */
  lemma NonTranslateActionsCallClient(args: ParsedArgs)
    requires args.action in MAIN_ACTIONS && args.action != "translate"
    ensures TranslateOrPrintData(args).Success?
    ensures TranslateOrPrintData(args).value == CallClient(ClientCallOf(args.action))
  {
  }

  /** A `.json` file goes to the JSON manager, a `.po` file to the PO manager, anything else to the text manager. */
  lemma SourceExtensionSelectsManager(stem: string, ext: string)
    requires stem != "" && stem[|stem| - 1] != '/' && stem[|stem| - 1] != '.'
    requires ext != "" && IsExtension(ext)
    ensures SelectManager(Extension(stem + ext)) ==
            if ext == ".json" then JsonManagerKind else if ext == ".po" then PoManagerKind else TextManagerKind
  {
    ExtensionOfSuffix(stem, ext, stem + ext);
  }

  /** A file name without any extension goes to the text manager. */
  lemma NoExtensionSelectsText(p: string)
    requires forall k :: 0 <= k < |p| ==> p[k] != '.'
    ensures SelectManager(Extension(p)) == TextManagerKind
  {
    LastIndexOfAtMost(p, '.', -1);
  }

  /** Why building a manager stopped. */
  datatype ManagerError = PathIsNone

  /**
   * The output directory a manager built by `translate_or_print_data` ends up with, as
   * written: `-o` defaults to `None`, which `Manager.__init__` compares with '' (they
   * differ) and then hands to `os.path.isdir`, which raises a `TypeError` for `None`.
   */
  function ManagerOutputDirectoryAsWritten(outputDirectory: Option<string>, isDir: bool, cwd: string): (r: Result<string, ManagerError>)
    ensures r.Failure? <==> outputDirectory.None?
    ensures r.Success? ==> r.value == ResolveOutputDirectory(outputDirectory.value, isDir, cwd)
  {
    match outputDirectory
    case None => Failure(PathIsNone)
    case Some(d) => Success(ResolveOutputDirectory(d, isDir, cwd))
  }

  /** Leaving out `-o` makes every `translate` run stop while the manager is being built. */
  lemma OmittedOutputDirectoryFails(isDir: bool, cwd: string)
    ensures ManagerOutputDirectoryAsWritten(None, isDir, cwd) == Failure(PathIsNone)
  {
  }

  /**
   * The output directory as intended: an omitted `-o` is the empty string, which falls
   * back to the working directory; a given one is resolved as before.
   */
  function ManagerOutputDirectory(outputDirectory: Option<string>, isDir: bool, cwd: string): (r: string)
    ensures outputDirectory.None? ==> r == cwd
    ensures outputDirectory.Some? ==> ManagerOutputDirectoryAsWritten(outputDirectory, isDir, cwd) == Success(r)
  {
    ResolveOutputDirectory(outputDirectory.GetOr(""), isDir, cwd)
  }
}
