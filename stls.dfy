/**
 * How the STL regeneration tool names the directory of a model's files:
 * `sanitize_filename` applied to the model id.
 */
module Stls {
  import opened Optional
  import opened Text
  import opened ModelIds

  /**
   * A character the class `[\w\-_]` accepts. `isWord` stands for Python's Unicode-aware
   * `\w` (letters, digits, underscore and the other word characters of Unicode).
   */
  predicate Allowed(c: char, isWord: char -> bool) {
    isWord(c) || c == '-' || c == '_'
  }

  /** `re.sub(r"[^\w\-_]", "_", name)`: every character outside the class becomes `_`. */
  function SanitizeFilename(name: string, isWord: char -> bool): (safe: string)
    ensures |safe| == |name|
    ensures forall k :: 0 <= k < |name| ==> Allowed(safe[k], isWord)
    ensures forall k :: 0 <= k < |name| ==> safe[k] == (if Allowed(name[k], isWord) then name[k] else '_')
  {
    if name == [] then []
    else
      var last := name[|name| - 1];
      SanitizeFilename(name[..|name| - 1], isWord) + [if Allowed(last, isWord) then last else '_']
  }

  /** A name made only of allowed characters is left alone. */
  lemma SanitizeKeepsSafeNames(name: string, isWord: char -> bool)
    requires forall k :: 0 <= k < |name| ==> Allowed(name[k], isWord)
    ensures SanitizeFilename(name, isWord) == name
  {
  }

  /** Sanitising twice is sanitising once. */
  lemma SanitizeIdempotent(name: string, isWord: char -> bool)
    ensures SanitizeFilename(SanitizeFilename(name, isWord), isWord) == SanitizeFilename(name, isWord)
  {
    SanitizeKeepsSafeNames(SanitizeFilename(name, isWord), isWord);
  }

  /** What reading `header.json` gave: nothing usable, or a header with or without a model entry. */
  datatype Header = Unreadable | Header(model: Option<string>)

  /** The model entry of a readable header, `unknown` when it has none. */
  function HeaderModel(header: Header): string
    requires header.Header?
  {
    header.model.GetOr("unknown")
  }

  /**
   * The directory name of a log's STL files, as the tool writes it: `unknown` when the
   * header cannot be read, otherwise the model entry with every `openrouter/` removed
   * when it starts with one; then sanitised. It is never longer than the intended name.
   */
  function ModelDirectoryAsWritten(header: Header, isWord: char -> bool): (dir: string)
    ensures forall k :: 0 <= k < |dir| ==> Allowed(dir[k], isWord)
    ensures |dir| <= |ModelDirectory(header, isWord)|
  {
    var modelId := match header
      case Unreadable => "unknown"
      case Header(_) => ModelIdAsWritten(HeaderModel(header));
    SanitizeFilename(modelId, isWord)
  }

  /**
   * The directory name of a log's STL files as intended: `unknown` when the header cannot
   * be read or names no model, otherwise the model id without the leading provider prefix;
   * then sanitised.
   */
  function ModelDirectory(header: Header, isWord: char -> bool): (dir: string)
    ensures forall k :: 0 <= k < |dir| ==> Allowed(dir[k], isWord)
  {
    var modelId := match header
      case Unreadable => "unknown"
      case Header(_) => ModelId(HeaderModel(header));
    SanitizeFilename(modelId, isWord)
  }

  /**
   * As written, the logs of the provider's own router `openrouter/openrouter/auto` land in
   * the directory `auto` instead of `openrouter_auto`.
   */
  lemma AsWrittenRouterDirectory(isWord: char -> bool)
    ensures var header := Header(Some("openrouter/openrouter/auto"));
      && ModelDirectoryAsWritten(header, isWord) == SanitizeFilename("auto", isWord)
      && ModelDirectory(header, isWord) == SanitizeFilename("openrouter/auto", isWord)
      && ModelDirectoryAsWritten(header, isWord) != ModelDirectory(header, isWord)
  {
    AsWrittenDropsInnerPrefix();
  }

  /** A routed model's directory is named after the sanitised id without the prefix. */
  lemma RoutedModelDirectory(id: string, isWord: char -> bool)
    ensures ModelDirectory(Header(Some(ProviderPrefix + id)), isWord) == SanitizeFilename(id, isWord)
  {
    ModelIdOfPrefixed(id);
  }

  /** A header without a model entry gives the same directory as an unreadable one. */
  lemma MissingModelDirectory(isWord: char -> bool)
    ensures ModelDirectory(Header(None), isWord) == ModelDirectory(Unreadable, isWord)
  {
    assert !StartsWith("unknown", ProviderPrefix);
  }
}
