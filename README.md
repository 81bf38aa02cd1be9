# LinkedIn Post Summarizer: a verified model of its core

This is a Dafny model of the core of a browser extension that adds a button under LinkedIn posts. When clicked, the button swaps the post's text for an AI-written summary and can swap it back. The model covers three parts:

- **Providers** (`providers.dfy`, from `src/providers.js`). `createProvider` picks one of three back ends from the settings: OpenAI, OpenRouter or a local Ollama server. Each back end builds its own HTTP request: a chat `messages` body with a Bearer token for the two remote APIs, or a flat `prompt` with no authorization for Ollama. Each asks for 150 tokens at temperature 0.3. The HTTP exchange is modelled as a pure function. `Summarize` takes the server as a function from the request to the response. A failed status becomes `<API> API error: <statusText>`. Otherwise the completion text goes through `extractResponse`: the trimmed text between the first `<response>` and the first `</response>` after it, or the whole text trimmed when there is no such pair. The regular expression `/<response>(.*?)<\/response>/s` is written out as a first-occurrence string search (`MatchResponseTag`). The three copies of `extractResponse` are identical, so one function serves all three variants.
- **Popup** (`popup.dfy`, from `src/popup.js`). The validation chain of `saveSettings` runs its checks in order: model name, then API key (OpenAI and OpenRouter), then Ollama URL (Ollama). The settings are written to storage only when every check passes. The module also has the per-provider field layout of `updateModelPlaceholder` and the rule for which tab receives the settings-updated message. The form is a class whose fields stand for the DOM controls and for the synced storage.
- **Content script** (`content.dfy`, from `src/content.js`). `isPostPage` decides which pages the script acts on. `processedPosts` is the set of post ids that already have a button; it is cleared when the URL changes. Each post's text container is modelled as a sequence of child nodes:
  - the page's own markup (opaque);
  - the summary card;
  - error messages;
  - `lps-action-button` buttons, each with its text and disabled flag, and marked *live* when it carries the click listener.

  It also records the markup saved in `dataset.originalContent` and the `lps-summarized` mark. The pure functions `AddButton`, `Summarized`, `Reverted` and `Toggled` specify how a container changes. The methods of `PostContainer` and `ContentScript` change it in place, and their postconditions tie the result to those functions. As written, the saved markup includes a serialized copy of the button, and that copy can take over the container (see Findings). The model proves this, and the rest of the model saves the markup without the button.

Supporting modules: `text.dfy` (JavaScript's `trim`, and the substring search behind `includes` and the tag search), `config.dfy` (the settings record, the defaults and how storage is read) and `wrappers.dfy` (`Option`, `Result`).

The model follows the code. The tests also assert features the code does not have (a `systemPrompt` setting, range checks on `maxTokens` and `temperature`, an OpenRouter key-format warning). The source does not implement them, so the model does not either.

## Model

| member | source | states |
|---|---|---|
| `Text.Trim` | src/providers.js:47 | `trim` returns a slice of its input. Everything cut off on either side is whitespace (ECMAScript WhiteSpace and LineTerminator), and the result starts and ends with a non-whitespace character. |
| `Text.TrimIdempotent` | src/providers.js:47 | Trimming twice gives the same result as trimming once. |
| `Text.TrimEmptyIffBlank` | src/content.js:195 | A string trims to the empty string exactly when every character in it is whitespace. |
| `Text.Includes` | src/content.js:52 | `includes` holds exactly when the pattern occurs at some index. |
| `Text.IndexOf` | src/providers.js:46 | The substring search behind `includes` and the tag search of the regular expression. The index returned is the first occurrence at or after the start index, and None is returned only when there is none. |
| `Config.LoadSettings` | src/popup.js:22-28 | Each of the five settings is the stored value when storage holds that key, and the default otherwise. The content script's loader (src/content.js:36-48) behaves the same way. |
| `Config.StoreAll` | src/popup.js:88 | Saving writes every key, so reading storage back gives exactly the settings saved. |
| `Config.LoadEmptyStorage` | src/popup.js:2-8 | Empty storage reads as the defaults: provider `openai`, model `gpt-3.5-turbo`, empty API key, URL `http://localhost:11434`, auto-summarize off. The content script's loader uses the same defaults (src/content.js:38-44). |
| `Providers.CreateProvider` | src/providers.js:125-135 | Succeeds exactly for `openai`, `openrouter` and `ollama`. The provider it builds carries the given settings, and its key is the one requested. Any other key, the empty one included, throws `Unknown provider: <key>`. |
| `Providers.CreateProviderSelectsByKey` | src/providers.js:126-132 | Each variant's own key selects that variant. |
| `Providers.BuildRequest` | src/providers.js:14-108 | The request carries the fixed instruction and the post text, and both can be read back unchanged. It asks for the settings' model, 150 tokens and temperature 0.3. OpenAI and OpenRouter send `Authorization: Bearer <apiKey>`; Ollama sends no authorization. Only OpenRouter sends `X-Title: LinkedIn Post Summarizer` and the page as referer. The endpoints are the two fixed URLs and `<ollamaUrl>/api/generate`. Ollama's body is a non-streaming prompt. |
| `Providers.ChatPromptRoundTrip` | src/providers.js:69-70 | The post text is recovered unchanged from the `<post>…</post>` user message, whatever it contains. |
| `Providers.GeneratePromptRoundTrip` | src/providers.js:101 | The post text is recovered unchanged from Ollama's flat prompt: the instruction, a blank line, then the wrapped post. |
| `Providers.RawText` | src/providers.js:41-42 | The completion text is the first choice's `message.content` for OpenAI and OpenRouter, and `response` for Ollama. When it is missing, reading it throws a TypeError that names the field read. |
| `Providers.HandleResponse` | src/providers.js:37-42 | A status outside 200-299 throws `<OpenAI\|OpenRouter\|Ollama> API error: <statusText>`. Otherwise the result is `extractResponse` of the completion text, or the TypeError thrown when that text is missing. A successful result is trimmed and holds no tagged segment. |
| `Providers.FailedStatusIgnoresBody` | src/providers.js:37-39 | With a failed status the body is never read: the error is the same whatever the body holds. |
| `Providers.Summarize` | src/providers.js:13-43 | The server is asked with the request the provider builds. A failed status gives the API error. Otherwise the result is `extractResponse` of the completion text in the server's reply, or the TypeError for a missing field. A summary is trimmed and is a fixed point of `extractResponse`. |
| `Providers.SummarizeWith` | src/content.js:200-201 | An unknown provider key fails with `Unknown provider: <key>` and no request is made. For a known key the result is that provider's `summarize`. A summary that is returned is trimmed. |
| `Providers.MatchResponseTag` | src/providers.js:46 | The regular expression matches exactly when some `<response>` is followed later by a `</response>`. The match is at the first `<response>`, and its group ends at the first `</response>` after that. |
| `Providers.ExtractResponse` | src/providers.js:45-48 | The result has no whitespace at either end and no `<response>…</response>` pair left in it. Without such a pair in the input, the result is the whole input trimmed. |
| `Providers.GroupHasNoCloseTag` | src/providers.js:46 | The lazy group never contains `</response>`, and so holds no tagged segment either. |
| `Providers.ExtractFirstSegment` | src/providers.js:46-47 | With a first `<response>` at i and the first `</response>` after it at j, the result is the text between them, trimmed. Newlines count like any other character. |
| `Providers.ExtractIdempotent` | src/providers.js:45-48 | Applying `extractResponse` to its own result changes nothing. |
| `Providers.ExtractTaggedReply` | src/providers.js:45-48 | For `before + "<response>" + x + "</response>" + after`, where `before` holds no `<response>` and `x` holds no `</response>`, the result is `x` trimmed, whatever `after` holds. A preamble such as `<think>…</think>`, or a summary with `a < b` in it, is allowed. |
| `Providers.ExtractWholeTaggedReply` | src/providers.js:45-48 | A reply that is exactly `<response>x</response>`, with no closing tag inside `x`, extracts to `x` trimmed. |
| `Providers.ExtractBareTaggedSummary` | __tests__/providers.test.js:16-20 | `<response>summary</response>` gives `summary`. |
| `Providers.SummarizeTaggedReply` | __tests__/providers.test.js:13-20 | A chat provider whose server answers 200 with `<response>x</response>`, where `x` holds no closing tag, returns `x` trimmed. The test's reply `summary` is one case. |
| `Popup.FirstFailedCheck` | src/popup.js:73-86 | The form passes exactly when every field its provider requires is non-empty. The model name is always required, the API key for `openai` and `openrouter`, the URL for `ollama`. Otherwise the check reported is the earliest failed one in the chain's order. |
| `Popup.MissingModelReportedFirst` | src/popup.js:73-76 | With the model name empty, the model error is the one reported, whatever else is missing. |
| `Popup.OllamaIgnoresApiKey` | src/popup.js:78-86 | For Ollama the API key has no effect on validation. |
| `Popup.RemoteIgnoresOllamaUrl` | src/popup.js:78-86 | For OpenAI and OpenRouter the Ollama URL has no effect on validation. |
| `Popup.DefaultsNeedApiKey` | src/popup.js:2-8 | The default settings fail validation with the API-key error. |
| `Popup.LayoutFor` | src/popup.js:44-60 | Only the three known providers have a layout; for any other the form is left as it is. Each known provider gets its own model placeholder text. The API-key field is shown exactly when validation requires the key, and the URL field exactly when validation requires the URL. |
| `Popup.NotifyTarget` | src/popup.js:92-95 | A message is sent only to the first active tab, and only when that tab reports a URL containing `linkedin.com`. |
| `Popup.PopupForm.Open` | src/popup.js:11-20 | Opening the popup fills the form with the stored settings (defaults for missing keys) and lays it out for the loaded provider. |
| `Popup.PopupForm.PopulateForm` | src/popup.js:30-36 | Every control shows the given settings. |
| `Popup.PopupForm.UpdateModelPlaceholder` | src/popup.js:38-61 | The layout becomes the table's entry for the selected provider. For a provider outside the table it is unchanged. |
| `Popup.PopupForm.ShowStatus` | src/popup.js:100-104 | The status shows the message, with class `status <type>`. |
| `Popup.PopupForm.SaveSettings` | src/popup.js:63-98 | When a check fails, its message is shown as an error, storage is unchanged and no message is sent. Otherwise every key is written, `Settings saved successfully!` is shown, and the settings are sent to the notify target if there is one. |
| `Content.IsPostPage` | src/content.js:50-53 | Holds exactly when the URL contains `/posts/` or `/feed/update/`. |
| `Content.MarkedUrlIsPostPage` | src/content.js:52 | Every URL with a `/posts/` or a `/feed/update/` segment is a post page. |
| `Content.FirstButton` | src/content.js:116 | `querySelector` for the button class returns the first button among the container's children, and finds none only when there is none. |
| `Content.Serialized` | src/content.js:205 | Saving `innerHTML` keeps every child in order, buttons with their text and disabled flag, but no button in the copy is live. |
| `Content.AddButton` | src/content.js:108-146 | Afterwards the container has a button. A container that already holds one, even a copy without a listener, is unchanged. Otherwise one live, enabled `Summarize` button is appended and nothing else changes. The invariant `Consistent` is kept. |
| `Content.AddButtonOnce` | src/content.js:115-118 | A second `addActionButton` changes nothing. |
| `Content.Summarized` | src/content.js:180-236 | Without a button nothing happens. On success the container holds only the card and its button, now an enabled `Show Original`; `innerHTML = ''` removes every error message. The first markup saved stays saved. On failure the button reads `Error - Try Again`, enabled, and the error is appended; all other children and the marks are kept. The invariant `Consistent` is kept. This is the intended form: see Findings. |
| `Content.SummarizedAsWritten` | src/content.js:188-206 | As the code has it, the first save records the button as well, as a disabled `Summarizing...` copy without a listener. The children and the summarized mark always agree with `Summarized`: on a first success, the card followed by an enabled `Show Original` button, and the mark set. On a failure, or once markup is saved, the whole result agrees with `Summarized`. |
| `Content.ToggledAsWritten` | src/content.js:167-178 | `toggleSummary` as the code has it. Its children and summarized mark always agree with `Toggled`. On a summarized container, a failed attempt, or markup already saved, the whole result agrees with `Toggled`; only the markup saved on a first success differs. |
| `Content.Reverted` | src/content.js:238-250 | With saved markup and a button, the children become the saved markup followed by that button, now an enabled `Summarize`, and the summarized mark is dropped. The error messages shown before are gone. With nothing saved nothing changes. `Consistent` is kept. |
| `Content.Toggled` | src/content.js:167-178 | Under `Consistent`, clicking a summarized container always un-summarizes it. On any other container with a button, the click leaves it summarized exactly when the attempt succeeds. The button is never lost. |
| `Content.OriginalSavedOnce` | src/content.js:204-206 | Once markup is saved, no number of further summarize attempts changes it. |
| `Content.ClicksKeepLiveButton` | src/content.js:167-250 | Under `Consistent`, after any sequence of clicks and outcomes the container still holds exactly one button, and it is live. The post can always be summarized or reverted again. |
| `Content.ToggleTwiceRestores` | src/content.js:167-178 | Two clicks, the first succeeding, bring back the markup shown before, followed by one live, enabled `Summarize` button. This is the intended form: see Findings. |
| `Content.StaleCopyStrandsPost` | src/content.js:188-250 | As written, the same two clicks leave a disabled `Summarizing...` copy in front of the live button. A third, successful click clears the live button away and leaves the copy, with no listener, as the only button. |
| `Content.FailureKeepsView` | src/content.js:228-235 | A failed attempt keeps the summarized mark and the post's markup, and appends the error after it. |
| `Content.SummaryAttempt` | src/content.js:194-201 | Blank post text fails with `No post text found` before any provider is created. Otherwise the result is `createProvider(settings).summarize(postText)`: `Unknown provider: <key>` for an unknown key, and a summary that is returned is trimmed. |
| `Content.BlankPostFails` | src/content.js:194-231 | A blank post leaves the container un-summarized, with an enabled `Error - Try Again` button and `No post text found` shown last. |
| `Content.PostContainer.AddActionButton` | src/content.js:108-146 | The container's new state is `AddButton` of its old state. |
| `Content.PostContainer.RevertToOriginal` | src/content.js:238-250 | The container's new state is `Reverted` of its old state. |
| `Content.PostContainer.ShowAttempt` | src/content.js:188-235 | Updates the container around the provider call: the loading state, then the summary or the error. The new state is `Summarized` of the old state and the outcome. This is the intended form: see Findings. |
| `Content.ContentScript.constructor` | src/content.js:36-48 | The script starts with the settings `loadSettings` reads from storage, no processed posts, and the page URL. |
| `Content.ContentScript.SetupPostProcessor` | src/content.js:55-76 | With no post found, it retries later and changes nothing. A post id seen before changes nothing and adds no button. A new id is added to `processedPosts`, the post gets its button, and auto-summarize is scheduled when the settings enable it. |
| `Content.ContentScript.SummarizePost` | src/content.js:180-236 | Without a button nothing is asked. Otherwise the container's new state is `Summarized` of its old state and of how the attempt ended. This is the intended form: see Findings. |
| `Content.ContentScript.ToggleSummary` | src/content.js:167-178 | The container's new state is `Toggled` of its old state. A summarized container is reverted and any other is summarized. `Consistent` is kept. This is the intended form: see Findings. |
| `Content.ContentScript.OnPageMutation` | src/content.js:299-306 | A new URL is recorded and clears `processedPosts`, and a setup is scheduled if the new page is a post page. An unchanged URL leaves both fields unchanged and schedules nothing. |

## Findings

| source | as written | input that shows it | evidently intended | confidence | as-written member | corrected member |
|---|---|---|---|---|---|---|
| src/content.js:188-206, 238-243 | The original markup is saved after the button was set to `Summarizing...` and disabled, while the button is still inside the container. Revert restores that copy and appends the live button after it. The next click's `querySelector` finds the copy first, so a successful summary keeps the copy and drops the live button. | Summarize (succeeds), Show Original, Summarize (succeeds): the post is left with one `Show Original` button that has no listener, and can never be reverted. | The saved markup leaves the button out. Reverting then shows the post once, followed by the one live button. | not executed | `Content.StaleCopyStrandsPost` (with `Content.SummarizedAsWritten`, `Content.ToggledAsWritten`) | `Content.ClicksKeepLiveButton` (with `Content.Summarized`, `Content.ToggleTwiceRestores`) |

## Left out

- `fetch`, `response.json()` and `async`/`await`. The server is a total function from request to response, so a `fetch` that rejects on its own is not modelled: a network error, or no Ollama server listening on `localhost:11434`. The source reports such a rejection the same way as any other thrown error. A body that is not JSON, and so makes `response.json()` reject, is not modelled. Every request is a POST; the method is not stored in `Request`.
- Each `summarize` call runs to completion inside `ContentScript.SummarizePost`. Calls that overlap while awaiting are not modelled. The `Summarizing...` label is set, but the model does not capture that it stays visible while the request is in flight.
- `chrome.storage`, `chrome.tabs` and `chrome.runtime`. Storage is a field of the popup form, the tab list is an input and the message sent is an output. A failed storage write (`chrome.runtime.lastError`) is not modelled.
- Finding posts in the page and reading their text are inputs: the text container or null, the post id and the post text. These are `findPostElement` and its selector loop, `getPostId`, `findPostTextContainer` and `extractPostText`. The model does not tie the post text to the container's markup.
- The page's own markup is an opaque node. The summary is inserted as HTML, but the card is one opaque node holding the summary text, without its inline styles and heading. Inline styles and hover handlers on the button are left out. The five-second removal of an error message is left out; a message stays until the container is cleared or restored.
- The container model holds the button directly among its children. A post whose buttons sit deeper inside the markup is not modelled.
- Saved markup is an `Option`, not the `dataset` string. An empty saved string would be falsy in the source and be saved again; the model counts it as saved.
- Content.Summarized: the model saves the markup without the button, which is the corrected behaviour (see Findings). The code as written is `Content.SummarizedAsWritten`.
- Timers: the retries of `setupPostProcessor`, the delayed auto-summarize and the status clearing. Handlers return what they schedule (`Followup`) instead of running it.
- Script injection, `init`, the `SETTINGS_UPDATED` listener and the registration of the page observer. These are event wiring; only the observer's callback body is modelled.
- The `AIProvider` base class, whose `summarize` only throws. `createProvider` never returns it.
- Temperature is the number of tenths (3 for 0.3), not a real number.
- Strings are sequences of Unicode scalar values, not UTF-16 code units. Every tag, marker and whitespace character involved is in the Basic Multilingual Plane.
- JavaScript's TypeError messages. A missing response field is `TypeError(access)`, naming the field read, not the runtime's wording.
