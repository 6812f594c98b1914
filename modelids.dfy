/**
 * The model id both tools derive from a log header: the `openrouter/` provider prefix
 * is dropped so that the id matches the provider's own model names.
 */
module ModelIds {
  import opened Text

  const ProviderPrefix: string := "openrouter/"

  /**
   * The rule as the tools write it: after checking that the id starts with the prefix,
   * `model.replace("openrouter/", "")` removes every occurrence, not only the leading one.
   */
  function ModelIdAsWritten(model: string): (id: string)
    ensures StartsWith(model, ProviderPrefix) ==> id == RemoveAll(ModelId(model), ProviderPrefix)
    ensures !StartsWith(model, ProviderPrefix) ==> id == model
    ensures |id| <= |model|
  {
    if StartsWith(model, ProviderPrefix) then RemoveAll(model, ProviderPrefix) else model
  }

  /** The rule as intended: the leading prefix is dropped when present, nothing else changes. */
  function ModelId(model: string): (id: string)
    ensures StartsWith(model, ProviderPrefix) ==> model == ProviderPrefix + id
    ensures !StartsWith(model, ProviderPrefix) ==> id == model
  {
    if StartsWith(model, ProviderPrefix) then model[|ProviderPrefix|..] else model
  }

  /** Prefixing an id and deriving the model id gives the id back. */
  lemma ModelIdOfPrefixed(id: string)
    ensures ModelId(ProviderPrefix + id) == id
  {
    assert StartsWith(ProviderPrefix + id, ProviderPrefix);
  }

  /**
   * A model routed by the provider's own router, `openrouter/openrouter/auto`, loses
   * both prefixes as written: its id becomes `auto` instead of `openrouter/auto`.
   */
  lemma AsWrittenDropsInnerPrefix()
    ensures ModelIdAsWritten("openrouter/openrouter/auto") == "auto"
    ensures ModelId("openrouter/openrouter/auto") == "openrouter/auto"
  {
    var s := "openrouter/openrouter/auto";
    assert StartsWith(s, ProviderPrefix);
    assert s[..|ProviderPrefix|] == ProviderPrefix;
    assert s[|ProviderPrefix|..] == "openrouter/auto";
    var t := "openrouter/auto";
    assert t[..|ProviderPrefix|] == ProviderPrefix;
    assert t[|ProviderPrefix|..] == "auto";
  }

  /** The two rules agree whenever the prefix does not occur again after the leading one. */
  lemma AsWrittenAgrees(model: string)
    requires StartsWith(model, ProviderPrefix) ==> !Contains(model[|ProviderPrefix|..], ProviderPrefix)
    ensures ModelIdAsWritten(model) == ModelId(model)
  {
    if StartsWith(model, ProviderPrefix) {
      RemoveAllAbsent(model[|ProviderPrefix|..], ProviderPrefix);
    }
  }
}
