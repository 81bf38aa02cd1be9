/** The user's settings, as the popup stores them and the content script reads them. */
module Config {
  import opened Wrappers

  /**
   * One settings record. `provider` is kept as the raw key the form holds,
   * so that keys other than the three known ones can be represented.
   */
  datatype Settings = Settings(
    provider: string,
    model: string,
    apiKey: string,
    ollamaUrl: string,
    autoSummarize: bool)

  /** The values used for any setting that storage does not hold yet. */
  const DEFAULT_SETTINGS: Settings :=
    Settings("openai", "gpt-3.5-turbo", "", "http://localhost:11434", false)

  /** The provider keys the rest of the extension knows about. */
  const KNOWN_PROVIDERS: set<string> := {"openai", "openrouter", "ollama"}

  /** The providers reached through a remote API that needs a key. */
  predicate IsRemoteProvider(provider: string) {
    provider == "openai" || provider == "openrouter"
  }

  /** What `chrome.storage.sync` holds: each key may be missing. */
  datatype StoredSettings = StoredSettings(
    provider: Option<string>,
    model: Option<string>,
    apiKey: Option<string>,
    ollamaUrl: Option<string>,
    autoSummarize: Option<bool>)

  /**
   * What `chrome.storage.sync.set(settings)` leaves in storage: every key,
   * so that reading storage back gives exactly the settings written.
   */
  function StoreAll(s: Settings): (r: StoredSettings)
    ensures r.provider.Some? && r.model.Some? && r.apiKey.Some? && r.ollamaUrl.Some? && r.autoSummarize.Some?
    ensures LoadSettings(r) == s
  {
    StoredSettings(Some(s.provider), Some(s.model), Some(s.apiKey), Some(s.ollamaUrl), Some(s.autoSummarize))
  }

  /**
   * `loadSettings`: `chrome.storage.sync.get(DEFAULT_SETTINGS)`, which takes
   * each key from storage when it is there and from the defaults otherwise.
   */
  function LoadSettings(stored: StoredSettings): (s: Settings)
    ensures s.provider == if stored.provider.Some? then stored.provider.value else DEFAULT_SETTINGS.provider
    ensures s.model == if stored.model.Some? then stored.model.value else DEFAULT_SETTINGS.model
    ensures s.apiKey == if stored.apiKey.Some? then stored.apiKey.value else DEFAULT_SETTINGS.apiKey
    ensures s.ollamaUrl == if stored.ollamaUrl.Some? then stored.ollamaUrl.value else DEFAULT_SETTINGS.ollamaUrl
    ensures s.autoSummarize == if stored.autoSummarize.Some? then stored.autoSummarize.value else DEFAULT_SETTINGS.autoSummarize
  {
    Settings(
      Or(stored.provider, DEFAULT_SETTINGS.provider),
      Or(stored.model, DEFAULT_SETTINGS.model),
      Or(stored.apiKey, DEFAULT_SETTINGS.apiKey),
      Or(stored.ollamaUrl, DEFAULT_SETTINGS.ollamaUrl),
      Or(stored.autoSummarize, DEFAULT_SETTINGS.autoSummarize))
  }

  function Or<T>(o: Option<T>, default: T): T {
    if o.Some? then o.value else default
  }

  /** Empty storage reads as the defaults. */
  lemma LoadEmptyStorage()
    ensures LoadSettings(StoredSettings(None, None, None, None, None)) == DEFAULT_SETTINGS
  {
  }
}
