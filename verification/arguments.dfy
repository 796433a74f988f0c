/**
 * polyglot/arguments.py: the command-line collector. argparse is modelled by what it
 * yields: an action among the allowed choices, and each flag's value or its default.
 */
module Arguments {
  import opened Wrappers

  /** The actions the collector accepts. */
  const ACTIONS: seq<string> := ["translate", "set_license", "print_supported_languages", "print_usage_info"]

  /** The command line as typed: the action and each flag, `None` when it was not given. */
  datatype CommandLine = CommandLine(action: string, sourceFile: Option<string>, targetLang: Option<string>,
                                     outputDirectory: Option<string>, sourceLang: Option<string>)

  /** What `parse_args` returns: every flag has a value. */
  datatype Namespace = Namespace(action: string, sourceFile: string, targetLang: string,
                                 outputDirectory: string, sourceLang: string)

  /** The `Arguments` record. */
  datatype Arguments = Arguments(action: string, sourceFile: string, targetLang: string,
                                 outputDirectory: string, sourceLang: string)

  /** The two ways `parser.error` ends the process. */
  datatype UsageError = InvalidAction(action: string) | TranslateNeedsSourceAndTarget

  /** `parse_args` over the parser `__set_parser` builds: the action must be a choice, flags default to "". */
  function ParseArgs(cl: CommandLine): Result<Namespace, UsageError> {
    if cl.action !in ACTIONS then Failure(InvalidAction(cl.action))
    else Success(Namespace(cl.action, cl.sourceFile.GetOr(""), cl.targetLang.GetOr(""),
                           cl.outputDirectory.GetOr(""), cl.sourceLang.GetOr("")))
  }

  /** `_validate_arguments`: `translate` needs both a source file and a target language. */
  function ValidateArguments(ns: Namespace): Option<UsageError> {
    if ns.action == "translate" && (ns.sourceFile == "" || ns.targetLang == "") then Some(TranslateNeedsSourceAndTarget)
    else None
  }

  /** The record `_collect_arguments` builds from the namespace. */
  function ToArguments(ns: Namespace): Arguments {
    Arguments(ns.action, ns.sourceFile, ns.targetLang, ns.outputDirectory, ns.sourceLang)
  }

  /**
   * What constructing a `CLIArgumentsCollector` yields: the arguments, or the usage
   * error that ends the process.
   */
  function CollectArguments(cl: CommandLine): (r: Result<Arguments, UsageError>)
    ensures r.Success? ==> r.value.action in ACTIONS
    ensures cl.action !in ACTIONS ==> r == Failure(InvalidAction(cl.action))
    ensures cl.action == "translate" && cl.sourceFile.GetOr("") == "" ==> r == Failure(TranslateNeedsSourceAndTarget)
    ensures cl.action == "translate" && cl.targetLang.GetOr("") == "" ==> r == Failure(TranslateNeedsSourceAndTarget)
    ensures cl.action in ACTIONS && cl.action != "translate" ==> r.Success?
    ensures cl.action == "translate" && cl.sourceFile.GetOr("") != "" && cl.targetLang.GetOr("") != "" ==> r.Success?
    ensures r.Success? ==> r.value == Arguments(cl.action, cl.sourceFile.GetOr(""), cl.targetLang.GetOr(""),
                                                cl.outputDirectory.GetOr(""), cl.sourceLang.GetOr(""))
  {
    match ParseArgs(cl)
    case Failure(e) => Failure(e)
    case Success(ns) =>
      match ValidateArguments(ns)
      case Some(e) => Failure(e)
      case None => Success(ToArguments(ns))
  }

  /** The collector's state: the parsed namespace and the record copied from it. */
  class CLIArgumentsCollector {
    var namespace: Namespace
    var arguments: Arguments

    constructor ()
      ensures namespace == Namespace("", "", "", "", "") && arguments == ToArguments(namespace)
    {
      namespace := Namespace("", "", "", "", "");
      arguments := Arguments("", "", "", "", "");
    }

    /** `_collect_arguments`: parse, then copy the namespace into `arguments`. */
    method CollectArgs(cl: CommandLine) returns (error: Option<UsageError>)
      modifies this
      ensures error.Some? <==> ParseArgs(cl).Failure?
      ensures error.Some? ==> error.value == ParseArgs(cl).error && namespace == old(namespace) && arguments == old(arguments)
      ensures error.None? ==> namespace == ParseArgs(cl).value && arguments == ToArguments(namespace)
    {
      var parsed := ParseArgs(cl);
      if parsed.Failure? {
        return Some(parsed.error);
      }
      namespace := parsed.value;
      arguments := Arguments(namespace.action, namespace.sourceFile, namespace.targetLang,
                             namespace.outputDirectory, namespace.sourceLang);
      error := None;
    }

    /** `_validate_arguments` on the namespace parsed last. */
    method ValidateArgs() returns (error: Option<UsageError>)
      ensures error.Some? <==> namespace.action == "translate" && (namespace.sourceFile == "" || namespace.targetLang == "")
      ensures error.Some? ==> error.value == TranslateNeedsSourceAndTarget
    {
      error := ValidateArguments(namespace);
    }
  }

  /** `ArgumentsCollector.__init__`: collect, then validate; either step may end the process. */
  method Collect(cl: CommandLine) returns (r: Result<Arguments, UsageError>)
    ensures r == CollectArguments(cl)
  {
    var collector := new CLIArgumentsCollector();
    var error := collector.CollectArgs(cl);
    if error.Some? {
      return Failure(error.value);
    }
    error := collector.ValidateArgs();
    if error.Some? {
      return Failure(error.value);
    }
    r := Success(collector.arguments);
  }
}
