/**
 * The base `Manager` of polyglot/managers.py: where the output goes and what the output
 * file is called. The file-system queries (`os.path.exists`, `os.path.isdir`, `os.getcwd`)
 * are parameters; the process exit of `check_source_file` is a `Failure`.
 */
module Paths {
  import opened Wrappers

  /** What a manager fixes when it is constructed and never changes afterwards. */
  datatype ManagerConfig = ManagerConfig(sourceFile: string, outputDirectory: string, targetLang: string)

  /** `check_source_file` ends the process when the source file does not exist. */
  datatype ConfigError = SourceFileMissing(path: string)

  /**
   * The output directory: the one given, when it is non-empty and names an existing
   * directory (`isDir` answers `os.path.isdir(given)`), else the working directory `cwd`.
   */
  function ResolveOutputDirectory(given: string, isDir: bool, cwd: string): (r: string)
    ensures given != "" && isDir ==> r == given
    ensures given == "" || !isDir ==> r == cwd
  {
    if given != "" && isDir then given else cwd
  }

  /**
   * `Manager.__init__`: the source file must exist (`sourceExists` answers
   * `os.path.exists(sourceFile)`); then the output directory is resolved.
   */
  function Configure(sourceFile: string, outputDirectory: string, targetLang: string,
                     sourceExists: bool, outputIsDir: bool, cwd: string): (r: Result<ManagerConfig, ConfigError>)
    ensures r.Failure? <==> !sourceExists
    ensures r.Failure? ==> r.error == SourceFileMissing(sourceFile)
    ensures r.Success? ==> r.value.sourceFile == sourceFile && r.value.targetLang == targetLang
    ensures r.Success? ==> r.value.outputDirectory == (if outputDirectory != "" && outputIsDir then outputDirectory else cwd)
  {
    if !sourceExists then Failure(SourceFileMissing(sourceFile))
    else Success(ManagerConfig(sourceFile, ResolveOutputDirectory(outputDirectory, outputIsDir, cwd), targetLang))
  }

  /** The index of the last `c` in `s`, or -1 when `s` has none (Python's `str.rfind`). */
  function LastIndexOf(s: string, c: char): (r: int)
    ensures -1 <= r < |s|
    ensures r >= 0 ==> s[r] == c
    ensures forall k :: r < k < |s| ==> s[k] != c
  {
    if s == [] then -1
    else if s[|s| - 1] == c then |s| - 1
    else LastIndexOf(s[..|s| - 1], c)
  }

  /** A file extension as `os.path.splitext` returns it: empty, or a dot followed by no dot and no slash. */
  predicate IsExtension(ext: string) {
    ext == "" || (ext[0] == '.' && forall k :: 1 <= k < |ext| ==> ext[k] != '.' && ext[k] != '/')
  }

  /** Whether `s[lo..hi]` holds a character other than a dot. */
  predicate HasNonDot(s: string, lo: int, hi: int)
    requires 0 <= lo && hi <= |s|
  {
    exists k :: lo <= k < hi && s[k] != '.'
  }

  /**
   * POSIX `os.path.splitext`: the extension starts at the last dot of the last path
   * component, provided that component has a character other than a dot before it
   * (so `.bashrc` and `dir.d/file` have no extension).
   */
  function SplitExt(p: string): (r: (string, string))
    ensures r.0 + r.1 == p
    ensures IsExtension(r.1)
    ensures r.1 != "" ==> LastIndexOf(p, '/') < |r.0| && HasNonDot(p, LastIndexOf(p, '/') + 1, |r.0|)
    ensures forall k :: LastIndexOf(p, '/') < k < |p| && p[k] == '.' && HasNonDot(p, LastIndexOf(p, '/') + 1, k) ==> r.1 != ""
  {
    var sep := LastIndexOf(p, '/');
    var dot := LastIndexOf(p, '.');
    if dot > sep && HasNonDot(p, sep + 1, dot) then (p[..dot], p[dot..])
    else
      LastDotQualifies(p, sep, dot);
      (p, "")
  }

  /**
   * A dot after the last slash with a non-dot before it in the same component means the
   * last dot of the path qualifies too.
   */
  lemma LastDotQualifies(p: string, sep: int, dot: int)
    requires sep == LastIndexOf(p, '/') && dot == LastIndexOf(p, '.')
    ensures (exists k :: sep < k < |p| && p[k] == '.' && HasNonDot(p, sep + 1, k)) ==> dot > sep && HasNonDot(p, sep + 1, dot)
  {
    if k :| sep < k < |p| && p[k] == '.' && HasNonDot(p, sep + 1, k) {
      var j :| sep + 1 <= j < k && p[j] != '.';
      assert HasNonDot(p, sep + 1, dot);
    }
  }

  /** `Manager.extension`. */
  function Extension(path: string): (r: string)
    ensures IsExtension(r)
    ensures |r| <= |path| && path[|path| - |r|..] == r
  {
    SplitExt(path).1
  }

  /** ASCII lower case of one character. */
  function LowerChar(c: char): char {
    if 'A' <= c <= 'Z' then (c as int + 32) as char else c
  }

  /** `str.lower`, restricted to ASCII letters. */
  function Lower(s: string): (r: string)
    ensures |r| == |s|
    ensures forall i :: 0 <= i < |r| ==> !('A' <= r[i] <= 'Z')
    ensures forall i :: 0 <= i < |s| && !('A' <= s[i] <= 'Z') ==> r[i] == s[i]
    ensures forall i :: 0 <= i < |s| && 'A' <= s[i] <= 'Z' ==> r[i] as int == s[i] as int + 32
  {
    seq(|s|, i requires 0 <= i < |s| => LowerChar(s[i]))
  }

  /** What a target language code looks like: non-empty, with no dot and no slash. */
  predicate IsLangCode(lang: string) {
    lang != "" && forall i :: 0 <= i < |lang| ==> lang[i] != '.' && lang[i] != '/'
  }

  /** The part both output paths share: the output directory and the lower-cased language code. */
  function OutputStem(cfg: ManagerConfig): string {
    cfg.outputDirectory + "/" + Lower(cfg.targetLang)
  }

  /** `Manager.target_file`. */
  function TargetFile(cfg: ManagerConfig): (r: string)
    ensures |OutputStem(cfg)| <= |r| && r[..|OutputStem(cfg)|] == OutputStem(cfg)
    ensures r[|OutputStem(cfg)|..] == Extension(cfg.sourceFile)
  {
    cfg.outputDirectory + "/" + Lower(cfg.targetLang) + Extension(cfg.sourceFile)
  }

  /** The compiled catalog path of `POManager.make_translated_files`. */
  function MoFile(cfg: ManagerConfig): (r: string)
    ensures |OutputStem(cfg)| <= |r| && r[..|OutputStem(cfg)|] == OutputStem(cfg)
    ensures r[|OutputStem(cfg)|..] == ".mo"
  {
    cfg.outputDirectory + "/" + Lower(cfg.targetLang) + ".mo"
  }

  /** A position with `c` and no `c` after it is where `LastIndexOf` points. */
  lemma LastIndexOfAt(s: string, c: char, j: int)
    requires 0 <= j < |s| && s[j] == c
    requires forall k :: j < k < |s| ==> s[k] != c
    ensures LastIndexOf(s, c) == j
  {
  }

  /** With no `c` after position `j`, `LastIndexOf` is at most `j`. */
  lemma LastIndexOfAtMost(s: string, c: char, j: int)
    requires -1 <= j < |s|
    requires forall k :: j < k < |s| ==> s[k] != c
    ensures LastIndexOf(s, c) <= j
  {
  }

  /** In `dir/name + ext`, the last slash is the one just before `name`. */
  lemma LastSlashOfName(dir: string, name: string, ext: string, p: string)
    requires IsLangCode(name) && IsExtension(ext)
    requires p == dir + "/" + name + ext
    ensures LastIndexOf(p, '/') == |dir|
  {
    var at := |dir| + 1 + |name|;
    forall k | |dir| < k < |p|
      ensures p[k] != '/'
    {
      if k < at { assert p[k] == name[k - |dir| - 1]; } else { assert p[k] == ext[k - at]; }
    }
    LastIndexOfAt(p, '/', |dir|);
  }

  /** In `dir/name + ext`, no dot follows the slash before `name` unless `ext` begins with it. */
  lemma LastDotOfName(dir: string, name: string, ext: string, p: string)
    requires IsLangCode(name) && IsExtension(ext)
    requires p == dir + "/" + name + ext
    ensures ext == "" ==> LastIndexOf(p, '.') <= |dir|
    ensures ext != "" ==> LastIndexOf(p, '.') == |dir| + 1 + |name|
  {
    var at := |dir| + 1 + |name|;
    forall k | |dir| < k < |p| && k != at
      ensures p[k] != '.'
    {
      if k < at { assert p[k] == name[k - |dir| - 1]; } else { assert p[k] == ext[k - at]; }
    }
    if ext == "" {
      LastIndexOfAtMost(p, '.', |dir|);
    } else {
      assert p[at] == ext[0];
      LastIndexOfAt(p, '.', at);
    }
  }

  /** Splitting `dir/name + ext` gives back `dir/name` and `ext` when `name` is a plain code. */
  lemma SplitExtOfName(dir: string, name: string, ext: string, p: string)
    requires IsLangCode(name) && IsExtension(ext)
    requires p == dir + "/" + name + ext
    ensures SplitExt(p) == (dir + "/" + name, ext)
    ensures LastIndexOf(p, '/') == |dir|
  {
    var stem := dir + "/" + name;
    assert p == stem + ext;
    LastSlashOfName(dir, name, ext, p);
    LastDotOfName(dir, name, ext, p);
    if ext != "" {
      assert p[|dir| + 1] == name[0];
      assert HasNonDot(p, |dir| + 1, |stem|);
      assert p[..|stem|] == stem && p[|stem|..] == ext;
    } else {
      assert p == stem;
    }
  }

  lemma LowerKeepsLangCode(lang: string)
    requires IsLangCode(lang)
    ensures IsLangCode(Lower(lang))
  {
  }

  /**
   * The target file lies directly in the output directory and keeps the source
   * file's extension: splitting it gives back the shared stem and that extension.
   */
  lemma TargetFileSplits(cfg: ManagerConfig)
    requires IsLangCode(cfg.targetLang)
    ensures SplitExt(TargetFile(cfg)) == (OutputStem(cfg), Extension(cfg.sourceFile))
    ensures LastIndexOf(TargetFile(cfg), '/') == |cfg.outputDirectory|
  {
    LowerKeepsLangCode(cfg.targetLang);
    SplitExtOfName(cfg.outputDirectory, Lower(cfg.targetLang), Extension(cfg.sourceFile), TargetFile(cfg));
  }

  /**
   * For a `.po` source the two catalogs are written side by side: the same stem,
   * one with `.po` and one with `.mo`.
   */
  lemma CatalogPathsAreTwins(cfg: ManagerConfig)
    requires IsLangCode(cfg.targetLang) && Extension(cfg.sourceFile) == ".po"
    ensures TargetFile(cfg) == OutputStem(cfg) + ".po" && MoFile(cfg) == OutputStem(cfg) + ".mo"
    ensures SplitExt(MoFile(cfg)) == (OutputStem(cfg), ".mo")
    ensures SplitExt(TargetFile(cfg)) == (OutputStem(cfg), ".po")
  {
    LowerKeepsLangCode(cfg.targetLang);
    SplitExtOfName(cfg.outputDirectory, Lower(cfg.targetLang), ".mo", MoFile(cfg));
    TargetFileSplits(cfg);
  }

  /**
   * A file name ending in a character other than a dot or a slash, followed by an
   * extension, has exactly that extension (`messages.json`, `locale/fr.po`).
   */
  lemma ExtensionOfSuffix(stem: string, ext: string, p: string)
    requires stem != "" && stem[|stem| - 1] != '/' && stem[|stem| - 1] != '.'
    requires ext != "" && IsExtension(ext)
    requires p == stem + ext
    ensures Extension(p) == ext
  {
    var at := |stem|;
    assert forall k :: at <= k < |p| ==> p[k] == ext[k - at];
    LastIndexOfAt(p, '.', at);
    LastIndexOfAtMost(p, '/', at - 2);
    assert p[at - 1] == stem[at - 1];
    assert HasNonDot(p, LastIndexOf(p, '/') + 1, at);
    assert p[..at] == stem && p[at..] == ext;
  }
}
