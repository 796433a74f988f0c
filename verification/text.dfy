/**
 * `TextManager` of polyglot/managers.py: the whole file is one translation unit.
 * Reading the file is a parameter (`None` when it cannot be read, which ends the
 * process); writing it is the `Written` outcome.
 */
module Text {
  import opened Wrappers
  import opened Paths
  import opened Dictionary

  /** How `translate_source_file` ends. */
  datatype TextOutcome =
    | CannotRead(extension: string)       // "Cannot read <ext> files." and exit
    | NotWritten                          // the translation was empty or missing
    | Written(path: string, text: string)

  class TextManager {
    const config: ManagerConfig
    const translate: Translator
    /** The file content, then its translation; `None` when the client returned nothing. */
    var content: Option<string>

    constructor (config: ManagerConfig, translate: Translator)
      ensures this.config == config && this.translate == translate
      ensures content == Some("")
    {
      this.config := config;
      this.translate := translate;
      content := Some("");
    }

    /** `load_source_content`: `read` is the file's text, or `None` when it cannot be read. */
    method LoadSourceContent(read: Option<string>) returns (ok: bool)
      modifies this
      ensures ok <==> read.Some?
      ensures ok ==> content == read
      ensures !ok ==> content == old(content)
    {
      ok := read.Some?;
      if ok {
        content := read;
      }
    }

    /** `translate_content`: the whole text goes to the client, whatever it returns is kept. */
    method TranslateContent()
      requires content.Some?
      modifies this
      ensures content == translate(old(content).value)
    {
      content := translate(content.value);
    }

    /** `translate_source_file`: the target file is written only when the translation is non-empty. */
    method TranslateSourceFile(read: Option<string>) returns (out: TextOutcome)
      modifies this
      ensures read.None? <==> out.CannotRead?
      ensures read.None? ==> out.extension == Extension(config.sourceFile)
      ensures read.Some? ==> content == translate(read.value)
      ensures out.Written? <==> read.Some? && IsTranslation(translate(read.value))
      ensures out.Written? ==> out.path == TargetFile(config) && out.text == translate(read.value).value
    {
      var ok := LoadSourceContent(read);
      if !ok {
        return CannotRead(Extension(config.sourceFile));
      }
      TranslateContent();
      if IsTranslation(content) {
        out := Written(TargetFile(config), content.value);
      } else {
        out := NotWritten;
      }
    }
  }
}
