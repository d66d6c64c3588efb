/**
 * The language-model provider factory: the provider named by `LLM_PROVIDER` (default `anthropic`)
 * is constructed lazily and kept as a singleton together with the name it was built for; asking
 * for another name builds a new provider, an unsupported name is an error that leaves the cache as
 * it was, and a reset forgets the singleton.
 */
module LlmFactory {
  import opened Base
  import opened Text

  datatype ProviderKind = Anthropic | OpenAI | Gemini

  function KindName(k: ProviderKind): string
  {
    match k
    case Anthropic => "anthropic"
    case OpenAI => "openai"
    case Gemini => "gemini"
  }

  /** The supported names, in the order the error message lists them. */
  const SupportedNames: seq<string> := ["anthropic", "openai", "gemini"]

  const DefaultProvider := "anthropic"

  /** The `switch` on the provider name. */
  function KindOf(name: string): (r: Option<ProviderKind>)
    ensures r.Some? <==> name in SupportedNames
    ensures r.Some? ==> KindName(r.value) == name
  {
    if name == "anthropic" then Some(Anthropic)
    else if name == "openai" then Some(OpenAI)
    else if name == "gemini" then Some(Gemini)
    else None
  }

  /** Every kind is selected by its own name. */
  lemma KindNameRoundTrip(k: ProviderKind)
    ensures KindOf(KindName(k)) == Some(k)
  {
  }

  /** `process.env.LLM_PROVIDER || 'anthropic'`: an unset or empty variable selects the default. */
  function RequestedName(env: Option<string>): (r: string)
    ensures r != []
    ensures env.Some? && env.value != [] ==> r == env.value
  {
    if env.Some? && env.value != "" then env.value else DefaultProvider
  }

  function UnsupportedMessage(name: string): string
  {
    "Unsupported LLM_PROVIDER: \"" + name + "\". " + "Supported values: " + Join(SupportedNames, ", ")
  }

  /** The error names the rejected value, quoted, and lists the supported ones. */
  lemma UnsupportedMessageNames(name: string)
    ensures StartsWith(UnsupportedMessage(name), "Unsupported LLM_PROVIDER: ")
    ensures Contains(UnsupportedMessage(name), "\"" + name + "\"")
    ensures Contains(UnsupportedMessage(name), name)
  {
    var m := UnsupportedMessage(name);
    var p := "Unsupported LLM_PROVIDER: ";
    var rest := ". " + "Supported values: " + Join(SupportedNames, ", ");
    assert m == p + ("\"" + name + "\"") + rest;
    ContainsInfix(p, "\"" + name + "\"", rest);
    assert m == (p + "\"") + name + ("\"" + rest);
    ContainsInfix(p + "\"", name, "\"" + rest);
  }

  /** A provider object; `serial` tells apart objects constructed at different times. */
  datatype Instance = Instance(kind: ProviderKind, serial: nat)

  /** The module-level singleton and the name it was built for. */
  class ProviderCache {
    var cachedProvider: Option<Instance>
    var cachedName: Option<string>
    /** How many provider objects have been constructed; the next one gets this serial. */
    var constructed: nat

    /** The provider and its name are set and cleared together, and agree. */
    predicate Valid()
      reads this
    {
      (cachedProvider.Some? <==> cachedName.Some?)
      && (cachedProvider.Some? ==>
            KindName(cachedProvider.value.kind) == cachedName.value && cachedProvider.value.serial < constructed)
    }

    constructor ()
      ensures Valid() && cachedProvider == None && cachedName == None && constructed == 0
    {
      cachedProvider := None;
      cachedName := None;
      constructed := 0;
    }

    /** The singleton is reused when it was built for the requested name. */
    predicate Hit(name: string)
      reads this
    {
      cachedProvider.Some? && cachedName == Some(name)
    }

    /** `getLLMProvider()` with `LLM_PROVIDER` set to `env`. */
    method GetLLMProvider(env: Option<string>) returns (r: Result<Instance>)
      requires Valid()
      modifies this
      ensures Valid()
      ensures var name := RequestedName(env);
        if old(Hit(name)) then
          r == Ok(old(cachedProvider).value) && unchanged(this)
        else if KindOf(name).Some? then
          r == Ok(Instance(KindOf(name).value, old(constructed)))
          && cachedProvider == Some(r.value) && cachedName == Some(name) && constructed == old(constructed) + 1
        else
          r == Err(UnsupportedMessage(name)) && unchanged(this)
      ensures r.Ok? ==> KindName(r.value.kind) == RequestedName(env) && Hit(RequestedName(env))
    {
      var name := RequestedName(env);
      if cachedProvider.Some? && cachedName == Some(name) {
        return Ok(cachedProvider.value);
      }
      var kind := KindOf(name);
      if kind.None? {
        return Err(UnsupportedMessage(name));
      }
      var made := Instance(kind.value, constructed);
      constructed := constructed + 1;
      cachedProvider := Some(made);
      cachedName := Some(name);
      r := Ok(made);
    }

    /** `resetProvider()`. */
    method ResetProvider()
      requires Valid()
      modifies this
      ensures Valid() && cachedProvider == None && cachedName == None && constructed == old(constructed)
    {
      cachedProvider := None;
      cachedName := None;
    }
  }

  // ---------------------------------------------------------------------------
  // Call sequences
  // ---------------------------------------------------------------------------

  /** Two calls with the same setting return the very same provider object. */
  method SameSettingSameInstance(c: ProviderCache, env: Option<string>) returns (first: Result<Instance>, second: Result<Instance>)
    requires c.Valid()
    modifies c
    ensures first.Ok? ==> second == first
    ensures first.Err? ==> second == first && unchanged(c)
  {
    first := c.GetLLMProvider(env);
    second := c.GetLLMProvider(env);
  }

  /** Switching to another supported name builds a new object of the new kind. */
  method SwitchBuildsNewInstance(c: ProviderCache, before: string, after: string)
    returns (first: Result<Instance>, second: Result<Instance>)
    requires c.Valid() && before in SupportedNames && after in SupportedNames && before != after
    modifies c
    ensures first.Ok? && second.Ok? && first.value != second.value
    ensures KindName(first.value.kind) == before && KindName(second.value.kind) == after
  {
    first := c.GetLLMProvider(Some(before));
    second := c.GetLLMProvider(Some(after));
  }

  /** After a reset a provider is built afresh, even for the name that was cached. */
  method ResetForgets(c: ProviderCache, env: Option<string>) returns (first: Result<Instance>, second: Result<Instance>)
    requires c.Valid() && RequestedName(env) in SupportedNames
    modifies c
    ensures first.Ok? && second.Ok? && first.value.kind == second.value.kind && first.value != second.value
  {
    first := c.GetLLMProvider(env);
    c.ResetProvider();
    second := c.GetLLMProvider(env);
  }
}
