# polyglot, modelled in Dafny

polyglot is a command-line tool that translates a plain-text, JSON or gettext PO file
through the DeepL API. This project models the logic wrapped around the API calls and
proves what that logic promises. The translation call itself is a parameter
`translate: string -> Option<string>`, and a result counts as a translation only when
it is present and non-empty (Python truthiness).

- `Paths` models the base `Manager`:
  - `check_source_file` stops with `SourceFileMissing`.
  - The output directory falls back to the working directory.
  - `extension` is POSIX `os.path.splitext`.
  - `target_file` and the `.mo` path share a stem.
- `Dictionary` models `DictionaryManager`:
  - the fallback rule of `translate_and_handle`;
  - the two counters;
  - the values handed to the progress bar.
- `JsonTree` models `JSONManager`:
  - A document is a tree `Json = Leaf(text) | Obj(members)`, and objects keep their key order.
  - `get_number_of_translations` is `LeafCount`.
  - The recursive walk is `JSONManager.TranslateMembers`. It is a method with a loop, proved against the function `TranslateTree`.
- `PoCatalog` models `POManager`:
  - The catalog is loaded into an insertion-ordered dictionary `PoDict` keyed by msgid.
  - Each message string is translated once.
  - The dictionary is written back as entries.
  - The model proves that the written catalog loads back into the dictionary it came from.
- `Text` models `TextManager`. The whole file is one unit, and nothing is written when the translation is empty.
- `Arguments` models polyglot/arguments.py: parsing with defaults, the `Arguments` record, and validation.
- `Cli` models `translate_or_print_data` in polyglot/__main__.py: action and extension dispatch.

File-system queries (`os.path.exists`, `os.path.isdir`, `os.getcwd`) are boolean and
string parameters. File contents are parameters. Every `os._exit` or `parser.error` is
a `Failure` value.

Three details of the source shape the model:

- polyglot/__main__.py imports and constructs `BaseManager`, but polyglot/managers.py
  defines no such class, so as written the import at polyglot/__main__.py:8 fails for
  every command line (`Cli.EntryPointAsWrittenFails`). The evident intent is the text
  manager `TextManager`: `Cli.TranslateOrPrintData` models the entry point with that
  import corrected and sends every other extension to `TextManager` (see Findings).
- polyglot/arguments.py and polyglot/__main__.py each define their own parser.
  - arguments.py accepts `set_license` and defaults flags to `""`.
  - __main__.py accepts `set_key` and defaults flags to `None`.
  - Both parsers are modelled, each as written.
- `Manager.__init__` treats `''` as "no output directory", but __main__.py passes `None`. See Findings.

## Model

| member | source | states |
|---|---|---|
| Paths.ResolveOutputDirectory | polyglot/managers.py:18-19 | the output directory is the given one when it is non-empty and an existing directory, the working directory otherwise |
| Paths.Configure | polyglot/managers.py:14-33 | construction fails exactly when the source file does not exist (before anything else); otherwise it keeps source file and language and resolves the output directory |
| Paths.SplitExt | polyglot/managers.py:21-24 | root + extension is the path; the extension is empty or a dot followed by no dot and no slash; a non-empty extension starts after the last slash and after a non-dot character of the file name; and whenever the last component has a dot after a non-dot character, an extension is found |
| Paths.Extension | polyglot/managers.py:21-24 | the extension is a well-formed extension and a suffix of the source file's path |
| Paths.LastIndexOf | polyglot/managers.py:23 | the index of the last occurrence of a character, -1 when there is none (the search `splitext` does) |
| Paths.Lower | polyglot/managers.py:28 | lower-casing keeps the length, turns each upper-case ASCII letter into its lower-case letter, leaves none behind and changes nothing else |
| Paths.TargetFile | polyglot/managers.py:26-28 | the target file is `dir/lang` (language lower-cased) followed by the source file's extension |
| Paths.MoFile | polyglot/managers.py:177 | the compiled catalog is `dir/lang` (language lower-cased) followed by `.mo` |
| Paths.TargetFileSplits | polyglot/managers.py:26-28 | the target file lies directly in the output directory, and splitting it gives back `dir/lang` and the source file's own extension |
| Paths.CatalogPathsAreTwins | polyglot/managers.py:175-177 | for a `.po` source the catalog and compiled catalog paths are `dir/lang.po` and `dir/lang.mo`, with the same stem |
| Paths.ExtensionOfSuffix | polyglot/managers.py:22-24 | a name ending in a character other than dot or slash, followed by an extension, has exactly that extension |
| Paths.SplitExtOfName | polyglot/managers.py:26-28 | `dir/name + ext` splits into `dir/name` and `ext` when `name` is a plain language code |
| Dictionary.Fallback | polyglot/managers.py:98 | the translation when it is truthy, the entry otherwise; empty only if the entry was |
| Dictionary.DictionaryManager.TranslateAndHandle | polyglot/managers.py:94-98 | returns the fallback; `not_translated_count` rises by one exactly when the translation is falsy and is otherwise unchanged; nothing else changes |
| Dictionary.DictionaryManager.Complete | polyglot/managers.py:130-131 | completion count rises by one and the progress bar receives the new count |
| Dictionary.DictionaryManager.constructor | polyglot/managers.py:69-70 | both counters start at zero with no progress update |
| Dictionary.CountFailedZero | polyglot/managers.py:96-97 | no entry is counted as untranslated exactly when every entry gets a truthy translation |
| Dictionary.CountFailedBound | polyglot/managers.py:96-97 | at most one untranslated count per entry |
| Dictionary.CountFailedAppend | polyglot/managers.py:96-97 | untranslated counts add up over consecutive runs of entries |
| JsonTree.LeafCountIsLeaves | polyglot/managers.py:103-112 | the count taken before the walk equals the number of non-object values at every depth |
| JsonTree.JSONManager.GetNumberOfTranslations | polyglot/managers.py:103-112 | the count of the loaded document is the number of its leaves |
| JsonTree.JSONManager.TranslateMembers | polyglot/managers.py:118-131 | the walk leaves exactly `TranslateTree` behind, raises the completion count by the leaf count and the untranslated count by the number of leaves whose translation failed, one progress update per leaf |
| JsonTree.JSONManager.TranslateContent | polyglot/managers.py:118-121 | the call without an argument walks the whole document, with the same counts |
| JsonTree.JSONManager.TranslateSourceFile | polyglot/managers.py:74-79 | loads, sizes the progress bar by the leaf count, translates, writes to the target file; the completion count ends equal to the bar's maximum and the updates are 1..max |
| JsonTree.JSONManager.LoadSourceContent | polyglot/managers.py:114-116 | the content is the parsed document |
| JsonTree.JSONManager.constructor | polyglot/managers.py:101 | a manager starts with empty content and fresh counters at zero |
| JsonTree.TranslateKeepsShape | polyglot/managers.py:123-129 | translation keeps every key, the key order and the nesting |
| JsonTree.TranslatedLeaves | polyglot/managers.py:125-129 | the leaves after translation are, in order, each original leaf's translation if truthy and the leaf itself otherwise |
| JsonTree.UntranslatableTreeUnchanged | polyglot/managers.py:125-129 | when no leaf can be translated the document comes back unchanged |
| JsonTree.LeavesOfMember | polyglot/managers.py:123-126 | the leaves of one member sit between those of the members before and after it, the order the walk visits them |
| JsonTree.CountAsWritten | polyglot/managers.py:103-112 | the count as written, with fuel standing for Python's recursion limit: without fuel it yields nothing |
| JsonTree.CountAsWrittenRestarts | polyglot/managers.py:104-105 | as written, an empty dictionary argument is counted as the whole document |
| JsonTree.EmptyNestedObjectNeverCounted | polyglot/managers.py:103-110 | with an empty object below the top level, the count as written never finishes, whatever the recursion depth |
| JsonTree.CountAsWrittenDiverges | polyglot/managers.py:104-110 | from the top or from any object with an empty object inside, the count as written does not finish |
| JsonTree.CountAsWrittenAgrees | polyglot/managers.py:103-112 | without an empty nested object, and given room for the depth, the count as written finishes with `LeafCount` |
| PoCatalog.PoDict.Put | polyglot/managers.py:152 | storing under a new msgid appends it, under a known msgid replaces the value in place; the dictionary stays duplicate-free |
| PoCatalog.Normalise | polyglot/managers.py:152-155 | the stored message string is the msgid when the entry's msgstr is empty, the msgstr otherwise; occurrences are kept |
| PoCatalog.LoadInto | polyglot/managers.py:151-155 | storing entries keeps the dictionary duplicate-free, keeps the keys already there in their place, and leaves every entry's msgid a key |
| PoCatalog.Load | polyglot/managers.py:148-155 | loading yields a duplicate-free dictionary whose keys are exactly its entries |
| PoCatalog.LoadKeys | polyglot/managers.py:151-152 | a string is a key exactly when some entry has it as msgid |
| PoCatalog.LoadValueOfLastEntry | polyglot/managers.py:151-155 | each msgid maps to the normalised value of the last entry that carries it |
| PoCatalog.LoadKeysInOrder | polyglot/managers.py:151-152 | with distinct msgids, the keys are the msgids in catalog order |
| PoCatalog.LoadDefaultsMsgstrs | polyglot/managers.py:153 | after loading, only the empty msgid can hold an empty message string |
| PoCatalog.TranslateValue | polyglot/managers.py:159 | only the message string is replaced; occurrences are kept, and a non-empty message string stays non-empty |
| PoCatalog.TranslateDict | polyglot/managers.py:157-159 | translation keeps the keys and their order, and keeps message strings non-empty where they were defaulted |
| PoCatalog.Emit | polyglot/managers.py:167-173 | the new catalog has one entry per key, in key order, and no msgid twice |
| PoCatalog.EmitThenLoad | polyglot/managers.py:163-175 | the written catalog has one entry per key in key order with msgid, msgstr and occurrences carried over, and loads back into the same dictionary |
| PoCatalog.POManager.constructor | polyglot/managers.py:139 | a manager starts with its own empty dictionary and fresh counters at zero |
| PoCatalog.POManager.LoadSourceContent | polyglot/managers.py:148-155 | the loop stores every entry, in order, exactly as `Load` does |
| PoCatalog.POManager.GetNumberOfTranslations | polyglot/managers.py:145-146 | the count is the number of keys |
| PoCatalog.POManager.TranslateValues | polyglot/managers.py:158-161 | each key's message string is translated once, with its fallback; completion rises by the number of keys, untranslated by the failed ones |
| PoCatalog.POManager.TranslateContent | polyglot/managers.py:157-161 | the dictionary becomes `TranslateDict` of the old one, with the counts above |
| PoCatalog.POManager.MakeTranslatedFiles | polyglot/managers.py:163-178 | the new catalog is `Emit` of the dictionary; it is saved at the target file and compiled at `dir/lang.mo` |
| PoCatalog.POManager.TranslateSourceFile | polyglot/managers.py:74-79 | the completion count ends at the number of keys (the bar's maximum); the written catalog reloads into the translated dictionary |
| Text.TextManager.constructor | polyglot/managers.py:42 | the content starts empty |
| Text.TextManager.LoadSourceContent | polyglot/managers.py:50-56 | the content becomes the file text, or the read fails and nothing changes |
| Text.TextManager.TranslateContent | polyglot/managers.py:58-59 | the content becomes whatever the client returns |
| Text.TextManager.TranslateSourceFile | polyglot/managers.py:44-48 | an unreadable file stops the run; otherwise the target file is written with the translation exactly when the translation is non-empty |
| Arguments.CollectArguments | polyglot/arguments.py:46-62 | success implies an action from `ACTIONS`; an unknown action, or `translate` with an empty source file or target language, is a usage error; any other known action passes; the record copies the parsed values with `""` for absent flags |
| Arguments.CLIArgumentsCollector.constructor | polyglot/arguments.py:41-44 | a collector starts with an empty namespace and the record copied from it |
| Arguments.CLIArgumentsCollector.CollectArgs | polyglot/arguments.py:46-56 | a failed parse changes nothing; otherwise the namespace is the parse and the record copies action, source file, target language, output directory and source language |
| Arguments.CLIArgumentsCollector.ValidateArgs | polyglot/arguments.py:58-62 | the error is raised exactly for `translate` with an empty source file or target language |
| Arguments.Collect | polyglot/arguments.py:28-30 | collecting then validating yields `CollectArguments` |
| Cli.SelectManager | polyglot/__main__.py:31-39 | `.json` selects the JSON manager, `.po` the PO manager, anything else the text manager |
| Cli.TranslateOrPrintData | polyglot/__main__.py:13-52 | with the import of line 8 corrected: only the four actions of `get_parser` succeed; `translate` without source file or target language is a usage error before any manager is chosen; `translate` runs the manager its extension selects; each other action makes exactly one client call |
| Cli.ClientCallOf | polyglot/__main__.py:45-52 | each action other than `translate` has its own client call, and each call belongs to exactly one action |
| Cli.ImportNames | polyglot/__main__.py:8 | an import succeeds exactly when the module defines every name; otherwise it fails on a name the module lacks |
| Cli.EntryPoint | polyglot/__main__.py:8-13 | a failed import stops the script before `translate_or_print_data` runs; a successful one leaves exactly `TranslateOrPrintData` |
| Cli.EntryPointAsWrittenFails | polyglot/__main__.py:8 | as written, every command line stops with `ImportError` on `BaseManager` |
| Cli.EntryPointImportsResolve | polyglot/__main__.py:8 | with `TextManager` imported, the entry point is `TranslateOrPrintData` |
| Cli.NonTranslateActionsCallClient | polyglot/__main__.py:45-52 | every accepted action other than `translate` builds no manager and makes one client call |
| Cli.SourceExtensionSelectsManager | polyglot/__main__.py:29-39 | a file named `stem.json` goes to the JSON manager, `stem.po` to the PO manager, any other extension to the text manager |
| Cli.NoExtensionSelectsText | polyglot/__main__.py:37-39 | a file name without a dot goes to the text manager |
| Cli.ManagerOutputDirectoryAsWritten | polyglot/managers.py:18-19 | as written, the output directory fails exactly when `-o` is `None`; a given one resolves as `Manager.__init__` does |
| Cli.OmittedOutputDirectoryFails | polyglot/managers.py:18-19 | as written, a manager built without `-o` stops, because `None` reaches `os.path.isdir` |
| Cli.ManagerOutputDirectory | polyglot/__main__.py:66-67 | an omitted `-o` resolves to the working directory; a given one resolves as the code does |

## Findings

| source | as written | input that shows it | evidently intended | confidence | as-written member | corrected member |
|---|---|---|---|---|---|---|
| polyglot/managers.py:104 | `if not dictionary` stands for "called without an argument", but an empty nested object is falsy too, so the count (and the walk at line 120) goes back to the whole document and recurses until Python's recursion limit | the JSON document `{"a": {}}` | test `dictionary is None`; an empty object then holds no leaves | high, not executed | JsonTree.EmptyNestedObjectNeverCounted | JsonTree.LeafCountIsLeaves |
| polyglot/__main__.py:8 | `from polyglot.managers import BaseManager, ...` names a class polyglot/managers.py does not define, so importing the module raises `ImportError` before `translate_or_print_data` exists | any command line, e.g. `print_usage_info` | import and construct `TextManager`, the manager for plain files | high, not executed | Cli.EntryPointAsWrittenFails | Cli.EntryPointImportsResolve |
| polyglot/__main__.py:66-67 | `-o` defaults to `None`; `Manager.__init__` finds `None != ''` and calls `os.path.isdir(None)`, which raises `TypeError`. This is reachable only once the import of the row above is corrected | `translate -p a.json -t IT` with no `-o` | an omitted `-o` falls back to the working directory, as the option's help text says | medium, not executed | Cli.OmittedOutputDirectoryFails | Cli.ManagerOutputDirectory |

For the first row, `JsonTree.CountAsWrittenAgrees` shows that the corrected count agrees
with the code on every document without an empty nested object. The JSON walk
`JSONManager.TranslateMembers` uses the corrected test: an empty nested object is left
as it is and counts for nothing.

## Left out

- The DeepL client (HTTP requests, languages, usage, `set_key` and licence storage). `translate` is a parameter, and the other client calls are only named (`Cli.ClientCall`).
- `DocumentManager` (submit, poll, download). It is driven by the network, and its polling recursion has no bound.
- Serialisation and parsing through `json` and `polib`, reading catalog metadata and compiling `.mo` files. The model starts from the parsed entries and ends with the entries and paths to write. A parse error, which Python raises as an uncaught exception, is not modelled.
- JSON leaves are modelled as text. Numbers, booleans, `null` and arrays are leaves too (they are counted and passed to the client), but the model does not distinguish them. A top-level value that is not an object is not modelled.
- In-place mutation of nested dictionaries: the JSON walk returns the translated members and the caller stores them, which has the same effect on a tree with no sharing.
- The class-level `content = dict()` of `DictionaryManager` is shared by every instance in Python. Each manager here owns its own dictionary.
- Console output, colours and the progress bar widget. Only the values passed to `progress_bar.update` are kept.
- JSON objects may hold the same key twice in `Members`, which a dictionary from `json.load` never does; such documents are outside the modelled domain, although the lemmas hold for them too.
- `Paths.Lower`: does not model Unicode lower-casing (`str.lower`), only ASCII letters, because language codes are ASCII.
- `Paths.SplitExt`: models the POSIX path rules only (separator `/`, no alternative separator).
- `DeeplRequest(target_lang, source_lang)` construction and the source language: they are folded into the `translate` parameter.
- argparse's own behaviour beyond choices and defaults (help output, abbreviations, repeated flags).
