/**
 * The settings popup: the validation chain of `saveSettings`, the field
 * layout `updateModelPlaceholder` applies per provider, and the check that
 * decides whether the active tab is told about new settings. The form itself
 * is the class `PopupForm`, whose fields stand for the DOM controls.
 */
module Popup {
  import opened Wrappers
  import opened Text
  import opened Config

  // ---------------------------------------------------------------------------
  // Validation

  /** The fields `saveSettings` may insist on. */
  datatype Check = ModelName | ApiKey | OllamaUrl

  /** The position of each check in the validation chain. */
  function Rank(c: Check): nat {
    match c
    case ModelName => 0
    case ApiKey => 1
    case OllamaUrl => 2
  }

  /** Whether a form for `provider` needs field `c` filled in. */
  predicate IsRequired(provider: string, c: Check) {
    match c
    case ModelName => true
    case ApiKey => IsRemoteProvider(provider)
    case OllamaUrl => provider == "ollama"
  }

  /** Whether the form's value for `c` is truthy, that is, not the empty string. */
  predicate IsFilled(form: Settings, c: Check) {
    match c
    case ModelName => form.model != ""
    case ApiKey => form.apiKey != ""
    case OllamaUrl => form.ollamaUrl != ""
  }

  /** The error status each failed check shows. */
  function CheckMessage(c: Check): string {
    match c
    case ModelName => "Please enter a model name"
    case ApiKey => "Please enter an API key"
    case OllamaUrl => "Please enter Ollama URL"
  }

  /**
   * The early returns of `saveSettings`, in their order: the check that
   * stops the save, or None when the form may be saved. A form passes iff
   * every field its provider requires is filled; otherwise the check
   * reported is the earliest required field that is empty.
   */
  function FirstFailedCheck(form: Settings): (r: Option<Check>)
    ensures r.None? <==> forall c :: IsRequired(form.provider, c) ==> IsFilled(form, c)
    ensures r.Some? ==> IsRequired(form.provider, r.value) && !IsFilled(form, r.value)
    ensures r.Some? ==> forall c :: Rank(c) < Rank(r.value) ==> !IsRequired(form.provider, c) || IsFilled(form, c)
  {
    if form.model == "" then
      assert IsRequired(form.provider, ModelName);
      Some(ModelName)
    else if (form.provider == "openai" || form.provider == "openrouter") && form.apiKey == "" then
      assert IsRequired(form.provider, ApiKey);
      Some(ApiKey)
    else if form.provider == "ollama" && form.ollamaUrl == "" then
      assert IsRequired(form.provider, OllamaUrl);
      Some(OllamaUrl)
    else None
  }

  /** With no model name, the model error is the one reported, whatever else is missing. */
  lemma MissingModelReportedFirst(form: Settings)
    requires form.model == ""
    ensures FirstFailedCheck(form) == Some(ModelName)
  {
  }

  /** Ollama forms never need an API key: the key does not affect validation. */
  lemma OllamaIgnoresApiKey(form: Settings, key: string)
    requires form.provider == "ollama"
    ensures FirstFailedCheck(form.(apiKey := key)) == FirstFailedCheck(form)
  {
  }

  /** OpenAI and OpenRouter forms never need an Ollama URL. */
  lemma RemoteIgnoresOllamaUrl(form: Settings, url: string)
    requires IsRemoteProvider(form.provider)
    ensures FirstFailedCheck(form.(ollamaUrl := url)) == FirstFailedCheck(form)
  {
  }

  /** The default settings do not pass validation: they have no API key. */
  lemma DefaultsNeedApiKey()
    ensures FirstFailedCheck(DEFAULT_SETTINGS) == Some(ApiKey)
  {
  }

  // ---------------------------------------------------------------------------
  // Field layout

  /** `style.display` of a form field: `'block'` or `'none'`. */
  datatype Display = Block | NoDisplay

  /** What `updateModelPlaceholder` sets: the model placeholder and the two fields' display. */
  datatype FieldLayout = FieldLayout(placeholder: string, apiKeyDisplay: Display, ollamaUrlDisplay: Display)

  /**
   * The layout `updateModelPlaceholder` applies for `provider`, or None for
   * a provider its switch does not list (the form is then left as it is).
   * The field it shows is exactly the field validation requires.
   */
  function LayoutFor(provider: string): (r: Option<FieldLayout>)
    ensures r.Some? <==> provider in KNOWN_PROVIDERS
    ensures r.Some? ==> (r.value.apiKeyDisplay == Block <==> IsRequired(provider, ApiKey))
    ensures r.Some? ==> (r.value.ollamaUrlDisplay == Block <==> IsRequired(provider, OllamaUrl))
    ensures provider == "openai" ==> r.Some? && r.value.placeholder == "e.g., gpt-3.5-turbo, gpt-4"
    ensures provider == "openrouter" ==> r.Some? && r.value.placeholder == "e.g., openai/gpt-3.5-turbo"
    ensures provider == "ollama" ==> r.Some? && r.value.placeholder == "e.g., llama2, mistral"
  {
    match provider
    case "openai" => Some(FieldLayout("e.g., gpt-3.5-turbo, gpt-4", Block, NoDisplay))
    case "openrouter" => Some(FieldLayout("e.g., openai/gpt-3.5-turbo", Block, NoDisplay))
    case "ollama" => Some(FieldLayout("e.g., llama2, mistral", NoDisplay, Block))
    case _ => None
  }

  // ---------------------------------------------------------------------------
  // Notifying the page

  /** A browser tab as `chrome.tabs.query` reports it; `url` is None when it is not reported. */
  datatype Tab = Tab(id: int, url: Option<string>)

  /**
   * The tab that receives the `SETTINGS_UPDATED` message: the first active
   * tab, provided its URL contains `linkedin.com`. A missing URL makes the
   * callback throw before anything is sent.
   */
  function NotifyTarget(tabs: seq<Tab>): (r: Option<int>)
    ensures r.Some? <==> |tabs| > 0 && tabs[0].url.Some? && Contains(tabs[0].url.value, "linkedin.com")
    ensures r.Some? ==> r.value == tabs[0].id
  {
    if |tabs| > 0 && tabs[0].url.Some? && Includes(tabs[0].url.value, "linkedin.com") then Some(tabs[0].id)
    else None
  }

  // ---------------------------------------------------------------------------
  // The form

  /** The status line: its text and its class attribute. */
  datatype Status = Status(text: string, className: string)

  const SAVED_MESSAGE: string := "Settings saved successfully!"

  /** A settings message sent to a tab. */
  datatype Notification = Notification(tabId: int, settings: Settings)

  class PopupForm {
    var provider: string
    var model: string
    var apiKey: string
    var ollamaUrl: string
    var autoSummarize: bool
    var layout: FieldLayout
    var status: Status
    /** `chrome.storage.sync`, as far as the popup reads and writes it. */
    var stored: StoredSettings

    /** The settings record `saveSettings` reads off the form. */
    function Form(): Settings
      reads this
    {
      Settings(provider, model, apiKey, ollamaUrl, autoSummarize)
    }

    /**
     * Opening the popup: the form is filled from storage (defaults for
     * missing keys) and laid out for the loaded provider. `markup` and
     * `initialStatus` are what the popup's page declares before any script runs.
     */
    constructor Open(stored: StoredSettings, markup: FieldLayout, initialStatus: Status)
      ensures this.stored == stored && status == initialStatus
      ensures Form() == LoadSettings(stored)
      ensures layout == Or(LayoutFor(LoadSettings(stored).provider), markup)
    {
      this.stored := stored;
      status := initialStatus;
      layout := markup;
      var s := LoadSettings(stored);
      provider, model, apiKey, ollamaUrl, autoSummarize := s.provider, s.model, s.apiKey, s.ollamaUrl, s.autoSummarize;
      new;
      UpdateModelPlaceholder();
    }

    /** `populateForm`: every control shows the given settings. */
    method PopulateForm(s: Settings)
      modifies this`provider, this`model, this`apiKey, this`ollamaUrl, this`autoSummarize
      ensures Form() == s
    {
      provider, model, apiKey, ollamaUrl, autoSummarize := s.provider, s.model, s.apiKey, s.ollamaUrl, s.autoSummarize;
    }

    /** `updateModelPlaceholder`: lay the form out for the selected provider. */
    method UpdateModelPlaceholder()
      modifies this`layout
      ensures layout == Or(LayoutFor(provider), old(layout))
    {
      match LayoutFor(provider)
      case Some(l) => layout := l;
      case None =>
    }

    /** `showStatus`; the timer that clears it three seconds later is not modelled. */
    method ShowStatus(message: string, kind: string)
      modifies this`status
      ensures status == Status(message, "status " + kind)
    {
      status := Status(message, "status " + kind);
    }

    /**
     * `saveSettings`: validate the form; on the first failed check show its
     * message and write nothing; otherwise write every key to storage, show
     * success, and notify the first active tab when it is a LinkedIn page.
     * `tabs` is the answer of `chrome.tabs.query`.
     */
    method SaveSettings(tabs: seq<Tab>) returns (sent: Option<Notification>)
      modifies this`stored, this`status
      ensures FirstFailedCheck(Form()).Some? ==>
                && status == Status(CheckMessage(FirstFailedCheck(Form()).value), "status error")
                && stored == old(stored) && sent == None
      ensures FirstFailedCheck(Form()).None? ==>
                && status == Status(SAVED_MESSAGE, "status success")
                && stored == StoreAll(Form())
                && sent == (if NotifyTarget(tabs).Some? then Some(Notification(NotifyTarget(tabs).value, Form())) else None)
    {
      var settings := Form();
      sent := None;
      if settings.model == "" {
        ShowStatus("Please enter a model name", "error");
        return;
      }
      if (settings.provider == "openai" || settings.provider == "openrouter") && settings.apiKey == "" {
        ShowStatus("Please enter an API key", "error");
        return;
      }
      if settings.provider == "ollama" && settings.ollamaUrl == "" {
        ShowStatus("Please enter Ollama URL", "error");
        return;
      }
      stored := StoreAll(settings);
      ShowStatus(SAVED_MESSAGE, "success");
      var target := NotifyTarget(tabs);
      if target.Some? {
        sent := Some(Notification(target.value, settings));
      }
    }
  }
}
