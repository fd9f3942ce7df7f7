# Agno Multi-Agent: a Dafny model of the request core

Agno Multi-Agent is a chat assistant. It sends a free-text message to one of three handlers:
research, website generation or plain conversation. One call to an upstream generative model
decides which handler gets it. The repository has two server variants with their own core:

- `main.py` is the FastAPI/WebSocket server.
- `api/agents.py` holds the agents the serverless entry points use.

A browser client (`static/script.js`) keeps the results as "artifacts".

This project models the core of all three files in Dafny and proves properties of the model:

- **Credential resolver** (`APIConfig`), both variants. It resolves a primary, then a backup,
  credential for a tier ("base", "medio", "avancado"). Activating a credential is the class
  `ApiConfig`, whose ghost field `active` is the process-wide key `genai.configure` leaves active.
- **Resilient invoker** (`retry_with_backoff`), both variants. It retries with exponential
  back-off. The upstream model is the class `Upstream.Oracle`:
  - a fixed script of per-attempt outcomes, indexed by the process-wide attempt number;
  - ghost logs of every call it receives (credential, model, prompt);
  - a ghost log of every back-off delay slept.
- **Research and website handlers, and the supervisor**, both variants. Each handler is a
  method on its agent class, proved equal to a function (`ResearchSpec`, `WebsiteSpec`, `ProcessSpec`, …). That function gives the
  handler's whole effect: the record or envelope returned, the credential left active, the
  upstream calls made and the delays slept. The lemmas state the properties of those functions.
- **`main.py` website post-processing.** This covers:
  - the case-insensitive lazy regular-expression searches that cut the HTML document out of the reply;
  - the fallback test and the choice of fallback template;
  - the classification of a raised error as transient or not.
- **`main.py` routing decision.** This covers the greedy `{…}` search, the default decision and the
  reading of `needs_tool` / `tool_type` / `description`.
- **`api/agents.py` pieces.** These are the line scanner of `_extract_code_blocks` and the intent test on the
  analysis reply.
- **Browser client.** This covers:
  - the artifact list (`addArtifact`, `processArtifacts`, the reset in `startNewChat`);
  - the download file name built from an artifact's title;
  - the conversation title.

Modules: `Wrappers`, `Text` (Python/JavaScript string primitives), `Config` (settings and key
table), `Upstream`, then `Main*` (main.py), `Agents*` (api/agents.py) and `Client*`
(static/script.js).

Points where the code behaves in ways a reader may not expect:

- The `main.py` invoker makes at most `max_retries` attempts, not `max_retries + 1`. It stops at
  once on an error without a transient marker, re-raises the last error when the attempts run out,
  and raises "Máximo de tentativas excedido" only when it makes no attempt. The `api/agents.py`
  invoker makes `max_retries + 1` attempts and retries every error.
- A `main.py` reply holding `<!DOCTYPE html>…</html>` is cut to that span. The span
  then goes through the fallback test. A document with no `<html` tag is replaced by a fallback
  page (`MainSite.DoctypeWithoutHtmlTagDiscarded`).
- When the `main.py` research handler has no credential, it returns a record typed "research"
  with an error text, not an error-typed record. When the `main.py` website handler has no
  credential, it returns a record typed "website" with status "error".
- The `main.py` decision is not an intent kind. It is a JSON object with `needs_tool`, `tool_type`
  and `description`. Any truthy `needs_tool`, including the string "false", selects a tool.
- The AI-keyword test is a plain substring test for `ia`. The two longer keywords both contain `ia`,
  so a description such as "culinária" also selects the AI template.

## Model

| member | source | states |
|---|---|---|
| Config.GetApiKey | main.py:45-48 | The lookup fails exactly for a level outside base/medio/avancado, with the `KeyError` text `'level'` (Python's `repr` of the level, for levels without quotes, backslashes or unprintable characters); for each of the three levels it yields that level's backup slot when asked for it and its primary slot otherwise |
| Upstream.Schedule | main.py:88 | Exponential back-off: the first sleep is `base_delay` and each later sleep doubles the one before, so sleep `k` is `base_delay * 2^k` (jitter left out) |
| MainCredentials.ConfigureOutcome | main.py:50-60 | `configure_api` succeeds exactly when the level is known, the slot holds a key that is not blank after stripping, and `genai.configure` accepts it; it raises exactly for an unknown level |
| MainCredentials.Resolve | main.py:121-123 | The primary-then-backup pattern raises exactly for an unknown level |
| MainCredentials.ResolvePrimaryThenBackup | main.py:121-123 | The primary key is used whenever it can be activated; the backup only when the primary failed; no key is left active exactly when both slots fail |
| MainCredentials.BlankKeyRejected | main.py:53 | A key made only of whitespace is never activated |
| MainCredentials.ApiConfig.constructor | main.py:29-43 | The resolver holds the key table, and no credential is active yet |
| MainCredentials.ApiConfig.ConfigureApi | main.py:50-60 | Returns the outcome above; the active credential becomes the slot's key exactly when activation succeeds, and is unchanged otherwise |
| MainCredentials.ApiConfig.ConfigureWithBackup | main.py:121-123 | Returns the resolved key; it is the active credential afterwards, and a failure on both slots leaves the active credential unchanged |
| MainRetry.IsTransientMarkers | main.py:81-85 | An error is transient exactly when its lower-cased text contains "500", "internal error" or "retry" |
| MainRetry.IsTransientIgnoresCase | main.py:81 | The transient test gives the same answer for a message and its lower-cased form |
| MainRetry.RetryFromStops | main.py:74-98 | From any attempt on, the loop stops within `max_retries` attempts. It stops on the first success, the first non-transient error or the last allowed attempt, and every skipped-over attempt failed transiently |
| MainRetry.RetryFromDelays | main.py:86-90 | From any attempt on, the loop sleeps exactly the back-off delays of the attempts it retries, in order |
| MainRetry.RetryFromShape | main.py:74-98 | Both of the above together |
| MainRetry.RetryCharacterization | main.py:66-100 | No attempt, and "Máximo de tentativas excedido", when `max_retries <= 0`. Otherwise: 1 to `max_retries` attempts; every attempt but the last failed transiently; the outcome is the last attempt's; an error before the last allowed attempt is non-transient; sleeps are `base_delay * 2^k` between attempts |
| MainRetry.RetryExhaustion | main.py:85-94 | A call that always fails transiently makes exactly `max_retries` attempts, sleeps `max_retries - 1` times and re-raises the last error |
| MainRetry.RetryStopsOnFatal | main.py:95-98 | A non-transient error on the first attempt is raised after exactly one attempt and no sleep |
| MainRetry.RetrySucceedsAt | main.py:77-79 | A success on attempt `k`, after transient failures, is returned after `k + 1` attempts and `k` sleeps |
| MainRetry.RetryWithBackoff | main.py:66-100 | The loop returns the outcome `MainRetry.Retry` gives. It makes exactly that run's calls (all with the same credential, model and prompt) and exactly its sleeps |
| MainPrompts.PromptNamesArgument | main.py:132-143 | Every prompt contains its argument verbatim: research here, and website (201-215), decision (932-949), conversation (985-995) and fallback chat (1042). The one exception is the website prompt for an AI topic, which is the fixed AI prompt |
| MainSite.SearchIn | main.py:244 | A found span lies inside the text and is long enough for both delimiters |
| MainSite.SearchSpan | main.py:249 | As above, for the case-insensitive search |
| MainSite.SearchInIsLeftmostShortest | main.py:244 | The search in the lower-cased text returns the leftmost match and, at that start, the shortest one; `None` exactly when nothing matches |
| MainSite.SearchSpanIsLeftmostShortest | main.py:244 | `re.search(open.*?close, DOTALL | IGNORECASE)` as modelled: leftmost match, shortest at that start, `None` exactly when there is no match |
| MainSite.MatchedSpanShape | main.py:244-245 | A matched span, lower-cased, begins with the opening pattern and ends with `</html>` |
| MainSite.DoctypePrefixed | main.py:251 | The DOCTYPE line in front of a span ending in `</html>` gives text that begins with the DOCTYPE and ends with `</html>` |
| MainSite.ExtractHtmlShape | main.py:237-251 | The stripped reply is either kept as it is or cut to a document that begins with the DOCTYPE and ends with `</html>`, case aside |
| MainSite.DoctypeSpanKept | main.py:244-246 | A reply holding a DOCTYPE…`</html>` match is cut to exactly the leftmost-shortest such span |
| MainSite.DoctypeUpperTestNeverHolds | main.py:254 | The upper-cased content never contains the mixed-case `<!DOCTYPE html>`, so that half of the test always holds |
| MainSite.FallbackIffNoHtmlTag | main.py:254 | The fallback replaces the content exactly when its lower-cased text lacks `<html` |
| MainSite.AiTopicsAreIa | main.py:201 | The AI-prompt test (here) and the AI-template test (line 255) both hold exactly when the lower-cased description contains `ia` |
| MainSite.CookingCountsAsAi | main.py:255 | A description about "culinária japonesa" selects the AI template |
| MainSite.PageHasHtmlTag | main.py:257-258 | Every template and failure page begins with a head that holds an `<html` tag |
| MainSite.SiteContentHasHtmlTag | main.py:237-841 | The content of a generated site always holds an `<html` tag, whatever the reply |
| MainSite.SiteContentChoice | main.py:254-841 | The extracted document is kept when it has an `<html` tag. Otherwise the AI page is used if the description contains `ia`, and else the generic page, which embeds the description |
| MainSite.DoctypeReplyExtracted | main.py:244-246 | A reply `<!DOCTYPE html>` + tag-free body + `</html>` is its own document |
| MainSite.DoctypeReplyHasNoHtmlTag | main.py:254 | Such a reply holds no `<html` tag |
| MainSite.DoctypeWithoutHtmlTagDiscarded | main.py:244-256 | Such a reply is cut out whole and then replaced by the fallback page |
| MainSite.SiteFailureClassified | main.py:855-920 | A raised error gives a website-typed fallback record exactly when its text is transient: title "Site: d (Fallback)", description "Site de fallback para: d", the fallback page. Otherwise it gives an error-typed record whose description is the error text |
| MainSite.FailurePagesShowCause | main.py:866-910 | The fallback page contains the description and the error page contains the error text |
| MainAgents.ResearchOutcome | main.py:118-163 | The record is always typed "research" and holds the query as it was given, whatever its JSON type; the prompt interpolates its `str()` text. It carries the sources exactly when a key was activated and an attempt succeeded, and then its results are the reply. Otherwise the results are the no-key text or "Erro na pesquisa: " plus the error. There is no call without a key, and every call uses the activated key |
| MainAgents.ResearchFailureTexts | main.py:127 | Both failure texts begin with "Erro" (the one here and the one at line 161) |
| MainAgents.ResearchAgent.constructor | main.py:114-116 | The agent keeps its tier and the settings |
| MainAgents.ResearchAgent.Research | main.py:118-163 | The handler returns the record `ResearchSpec` gives and leaves that credential active. It performs exactly the calls and sleeps `ResearchSpec` lists |
| MainAgents.WebsiteOutcome | main.py:187-920 | The record is typed "error" exactly when the handler caught a non-transient error, and "website" otherwise. A generated site's content is the page chosen from the reply. Without a key the record is the no-key record and no call is made |
| MainAgents.GeneratedSiteHasHtmlTag | main.py:237-850 | A generated site always holds an `<html` tag |
| MainAgents.WebsiteTransientExhaustion | main.py:855-892 | Transient errors on every attempt give the fallback-tagged website record after exactly `CODER_MAX_RETRIES` calls |
| MainAgents.CoderAgent.constructor | main.py:166-168 | The agent keeps its tier and the settings |
| MainAgents.CoderAgent.CreateWebsite | main.py:187-920 | The handler returns the record `CreateWebsiteSpec` gives, leaves that credential active, and performs exactly the calls and sleeps it lists. For a string description this is `WebsiteSpec`. For any other JSON value it returns the record of the `AttributeError` raised at line 192, with no call |
| MainAgents.NoLowerErrorNotTransient | main.py:859-860 | The text `'<type>' object has no attribute 'lower'` holds none of the transient markers, for every JSON type (`NoneType`, `bool`, `int`, `float`, `list`, `dict`) |
| MainAgents.NonStringDescriptionRaises | main.py:187-192 | A description that is not a string yields the error-typed record "Erro ao criar site" whose description is the `AttributeError` text and whose page shows it. No credential is configured, no call is made and nothing is slept |
| MainRouting.BraceSpan | main.py:971 | A found `{…}` span lies inside the text and holds at least the two braces |
| MainRouting.BraceSpanIsLeftmostLongest | main.py:971 | `re.search(r'\{.*\}', DOTALL)` as modelled: leftmost match, longest at that start, `None` exactly when there is no match |
| MainRouting.DefaultRouteIsConversation | main.py:969-986 | A reply with no `{…}`, or one the parser rejects, routes to a conversation about the message |
| MainRouting.RouteDefaults | main.py:983-1013 | A missing `tool_type` means research, a missing `description` means the message, and a present `description` is handed on as parsed, whatever its JSON type. A falsy or missing `needs_tool` means conversation. The string "false" is a truthy `needs_tool` |
| MainSupervisor.DispatchEnvelopeShape | main.py:983-1050 | The handler's envelope is well shaped: it fails exactly when it is typed "error", and a research or website envelope holds one record. Its type follows the route, and only a conversation can fail |
| MainSupervisor.ProcessDispatches | main.py:961-1050 | After a successful decision the request's outcome is the decision calls followed by the chosen handler's outcome |
| MainSupervisor.ProcessEnvelopeShape | main.py:927-1061 | Every envelope the supervisor returns is well shaped |
| MainSupervisor.NoCredentialNoCall | main.py:952-959 | Without a usable "medio" key the supervisor returns the API-unavailable error envelope and makes no upstream call |
| MainSupervisor.ConverseFirstAttempt | main.py:997-1006 | A conversation whose first attempt succeeds makes one call and answers with the reply |
| MainSupervisor.ConversationScenario | main.py:927-1006 | A decision with a falsy `needs_tool` gives one decision call, one conversation call, and a conversation envelope with no records |
| MainSupervisor.WebsiteFallbackScenario | main.py:1027-1036 | A website decision whose generation always fails transiently gives a completed website envelope holding the fallback-tagged record, not an error record |
| MainSupervisor.SupervisorAgent.constructor | main.py:923-925 | The research agent is at tier "base" and the coder at "medio" |
| MainSupervisor.NonStringDescriptionScenario | main.py:1011-1038 | A website decision whose `description` is not a JSON string makes only the decision calls. It returns a completed website envelope holding the `AttributeError` record |
| MainSupervisor.SupervisorAgent.ProcessRequest | main.py:927-1061 | The request returns the envelope `ProcessSpec` gives and leaves that credential active. It performs exactly the calls and sleeps `ProcessSpec` lists |
| MainSupervisor.SupervisorAgent.Decide | main.py:961-1050 | The same, once the "medio" key is active |
| MainSupervisor.SupervisorAgent.Dispatch | main.py:983-1050 | The chosen handler's effect, as `DispatchSpec` states |
| AgentsCredentials.ConfigureOutcomeIff | api/agents.py:51-64 | `configure_api` succeeds exactly when the level is known, the slot holds a non-empty key and `genai.configure` accepts it; it never raises |
| AgentsCredentials.BlankKeyAccepted | api/agents.py:55-61 | A non-empty key made only of whitespace is activated by this variant |
| AgentsCredentials.ResolvePrimaryThenBackup | api/agents.py:113-115 | The primary key wins whenever it can be activated, the backup is tried only after it, and an unknown level leaves no key active instead of raising |
| AgentsCredentials.ApiConfig.constructor | api/agents.py:30-44 | The resolver holds the key table, and no credential is active yet |
| AgentsCredentials.ApiConfig.ConfigureApi | api/agents.py:51-64 | Returns the outcome above; the active credential becomes the slot's key exactly on success |
| AgentsCredentials.ApiConfig.ConfigureWithBackup | api/agents.py:113-115 | Returns the resolved key, which is then active; a failure on both slots leaves the active credential unchanged |
| AgentsRetry.RetryFromShape | api/agents.py:80-95 | From any attempt on: at most `max_retries + 1` attempts in all; every attempt but the last failed; the outcome is the last attempt's; an error only once the attempts are spent |
| AgentsRetry.RetryFromDelays | api/agents.py:86-92 | From any attempt on, the sleeps are the back-off delays of the failed attempts but the last, in order |
| AgentsRetry.RetryCharacterization | api/agents.py:69-97 | With a negative `max_retries`: no attempt, and the `TypeError` of `raise None`. Otherwise: 1 to `max_retries + 1` attempts, with the same stopping rule whatever the error says, and sleeps of `base_delay * 2^k` |
| AgentsRetry.RetryExhaustion | api/agents.py:80-97 | A call that always fails makes `max_retries + 1` attempts, sleeps `max_retries` times and re-raises the last error |
| AgentsRetry.RetrySucceedsAt | api/agents.py:80-88 | A success on attempt `k`, after failures, is returned after `k + 1` attempts and `k` sleeps |
| AgentsRetry.RetryWithBackoff | api/agents.py:69-97 | The loop returns the outcome `AgentsRetry.Retry` gives, including the re-raised `last_exception`. It performs exactly that run's calls and sleeps |
| AgentsCode.Inner | api/agents.py:184 | Python's `s[3:-3]`: the middle of the string between its first three and last three characters, and empty for strings shorter than six |
| AgentsCode.StepCoherent | api/agents.py:172-186 | One line keeps the scan state coherent: nothing collected outside a block, no fence or marker collected, no stored file with an empty name |
| AgentsCode.ScanCoherent | api/agents.py:171-186 | The state is coherent after any sequence of lines |
| AgentsCode.ScanFenceParity | api/agents.py:172-179 | The scan is inside a block exactly after an odd number of fences |
| AgentsCode.ClosingFenceStores | api/agents.py:173-177 | A closing fence stores the collected lines, joined by newlines, under a non-empty file name, then starts collecting afresh; the file name carries over |
| AgentsCode.NoFenceNoBlocks | api/agents.py:171-186 | Without a fence nothing is collected or stored |
| AgentsCode.CssMarkerName | api/agents.py:183-184 | `/* name */` names `name`; the bare `/* */` names the empty file, whose block is never stored |
| AgentsCode.ScanLines | api/agents.py:165-186 | The loop computes the line-by-line scan and ends in a coherent state |
| AgentsCode.ExtractCodeBlocks | api/agents.py:163-192 | Whatever the scan finds, the result is the whole content as HTML with empty CSS and JS |
| AgentsPrompts.AskNamesArgument | api/agents.py:123-124 | Every prompt contains its argument verbatim: research here, and coding (206-207), analysis (267-268) and chat (294-295) |
| AgentsHandlers.ModelChoices | api/agents.py:159-161 | The coder's model choice and the research agent's (line 107) agree exactly on the three known tiers. On any other tier the research agent falls to the advanced model and the coder to the base model |
| AgentsHandlers.ResearchOutcome | api/agents.py:109-156 | Without a key: the configuration-error dictionary and no call. With one: every call uses it, and the dictionary is typed "research" exactly when an attempt succeeded, carrying the reply. Otherwise it is "Erro na pesquisa: " plus the last error |
| AgentsHandlers.WebsiteOutcome | api/agents.py:194-245 | Without a key: the configuration error and no call. With one: the coder's retry policy applies. A generated website's content and HTML are the whole reply, with no CSS and no JS; otherwise it is "Erro na criação do website: " plus the error |
| AgentsHandlers.IntentOf | api/agents.py:286-291 | Research exactly when the stripped, upper-cased reply contains "RESEARCH"; code exactly when it contains "CODE" but not "RESEARCH"; chat otherwise |
| AgentsHandlers.IntentIgnoresCase | api/agents.py:286 | A reply and its upper-cased form route the same way |
| AgentsHandlers.NoCredentialNoCall | api/agents.py:258-264 | Without an "avancado" key: the main configuration error and no upstream call |
| AgentsHandlers.ProcessTyped | api/agents.py:286-320 | After a successful analysis, the dictionary's type is that of the handler the intent names, or "error" |
| AgentsHandlers.ActiveKeyAfterRequest | api/agents.py:286-312 | Research and website requests leave their own tier's key active; a chat leaves the supervisor's key active |
| AgentsHandlers.ResearchAgent.constructor | api/agents.py:105-107 | The agent keeps its tier and the settings |
| AgentsHandlers.ResearchAgent.Research | api/agents.py:109-156 | The handler returns the dictionary `ResearchSpec` gives and leaves that credential active. It performs exactly the calls and sleeps `ResearchSpec` lists |
| AgentsHandlers.CoderAgent.constructor | api/agents.py:159-161 | The agent keeps its tier and the settings |
| AgentsHandlers.CoderAgent.CreateWebsite | api/agents.py:194-245 | The same, for website generation |
| AgentsHandlers.SupervisorAgent.constructor | api/agents.py:248-252 | The research agent is at tier "base" and the coder at "medio" |
| AgentsHandlers.SupervisorAgent.ProcessRequest | api/agents.py:254-320 | The request returns the dictionary `ProcessSpec` gives and leaves that credential active. It performs exactly the calls and sleeps `ProcessSpec` lists |
| AgentsHandlers.SupervisorAgent.Handle | api/agents.py:286-312 | The branch on the analysis reply, as `AfterAnalysis` states |
| ClientArtifacts.AddedShape | static/script.js:216-247 | A duplicate leaves the list unchanged. Otherwise the new artifact comes first, followed by the old entries in order: all of them below the cap, the newest nineteen at or above it. Either way the artifact is then in the list |
| ClientArtifacts.AddedWithinCap | static/script.js:232-236 | A new artifact never takes the list past 20 entries |
| ClientArtifacts.AddedKeepsDistinct | static/script.js:220-229 | Adding keeps the list free of duplicates (same type, title and serialized data) |
| ClientArtifacts.OrElse | static/script.js:199 | JavaScript's `a || b` on an optional string: `a` when it is present and non-empty, `b` otherwise |
| ClientArtifacts.ProcessedInvariants | static/script.js:183-213 | Processing keeps the cap and the absence of duplicates, and only adds research or website artifacts |
| ClientArtifacts.ProcessedIgnoresOtherTypes | static/script.js:206-208 | Results of any other type leave the list untouched |
| ClientArtifacts.DefaultTitles | static/script.js:199-203 | A result without title, description or query is titled "Pesquisa: Resultado" or "Site: Website" |
| ClientArtifacts.ArtifactPanel.constructor | static/script.js:3 | The list starts empty |
| ClientArtifacts.ArtifactPanel.AddArtifact | static/script.js:216-247 | The list after the call is the one `Added` describes |
| ClientArtifacts.ArtifactPanel.ProcessArtifacts | static/script.js:183-213 | The list after the call is the old list with each research or website result added in order |
| ClientArtifacts.ArtifactPanel.StartNewChat | static/script.js:636 | The list is emptied |
| ClientText.Underscored | static/script.js:540 | Same length; lower-case letters and digits are kept and every other character becomes `_` |
| ClientText.Collapse | static/script.js:541 | The result has no two underscores in a row. It keeps the first and last characters and adds no character, and a string without doubled underscores is unchanged |
| ClientText.TrimUnderscores | static/script.js:542 | Dropping an underscore from each end never lengthens the text (what it leaves is stated by the next row) |
| ClientText.TrimUnderscoresClean | static/script.js:542 | Without doubled underscores, dropping one underscore from each end leaves none at either end |
| ClientText.SlugWellFormed | static/script.js:538-542 | The stem holds only lower-case letters, digits and single underscores, and neither begins nor ends with `_` |
| ClientText.SlugFixesWellFormed | static/script.js:538-542 | A well-formed stem is its own slug |
| ClientText.SlugIdempotent | static/script.js:538-542 | Slugging twice changes nothing |
| ClientText.FileNameShape | static/script.js:508-542 | The file name always ends in ".html": "website.html" for a missing or empty title, the slug plus ".html" otherwise |
| ClientText.StripTags | static/script.js:667 | Removing tags never lengthens the text and adds no character |
| ClientText.StripTagsLeavesNoTag | static/script.js:667 | No `<` of the result is followed by a `>` |
| ClientText.StripTagsKeepsPlainText | static/script.js:667 | A message without `<` is kept as it is |
| ClientText.ConversationTitle | static/script.js:664-669 | "Nova Conversa" without a user message. Otherwise the tag-free text, cut to 50 characters plus "..." when longer |
| ClientText.TitleBounds | static/script.js:668 | A title is at most 53 characters and begins with the first (up to) 50 characters of the tag-free text |
| Text.Lower | main.py:81 | Same length, each character lower-cased |
| Text.Upper | main.py:254 | Same length, each character upper-cased |
| Text.StripSpec | main.py:53 | `strip()` keeps a contiguous part of its input with no whitespace at either end, and drops only whitespace |
| Text.UpperStripCommute | api/agents.py:286 | Stripping and upper-casing commute |
| Text.Split | api/agents.py:166 | At least one piece, and no piece holds the separator |
| Text.SplitJoin | api/agents.py:166 | Joining the pieces with the separator gives back the text |

## Left out

- Jitter: the random `uniform(0, 1)` added to every back-off delay is left out. Only the integer part `base_delay * 2^k` is recorded.
- Asynchrony, threads and the transport are left out. The same goes for the FastAPI/WebSocket endpoints in `main.py` (after line 1061) and the serverless wrappers `api/index.py` and `api/chat.py`, which are only glue.
- Logging (`print`) and the `DEBUG_MODE`/`VERBOSE_LOGS` flags change nothing else and are left out.
- The process-wide `genai` configuration is a ghost field. Concurrent requests racing on it are not modelled.
- The upstream model is a script of outcomes. What the model writes, and why a call fails, are outside the model.
- Case mapping covers ASCII and the Latin-1 supplement only. Python's special case folds and other Unicode letters are not modelled. JavaScript string lengths are counted in characters, not UTF-16 units.
- Text.TitleCase: `str.title()` (used in the generic template at main.py:771) is stated only to keep the length.
- Prompts are modelled by the line that carries their argument. The fixed instructions around that line, and the large HTML templates at main.py:257-841, are reduced to their skeleton and to the lines that embed the description.
- `json.loads` is a parameter (`parse`). The decision object is reduced to the three keys the routing reads. A value that is not a JSON string is represented by its type, its truth value and its `str()` text; its structure is not modelled.
- `JSON.stringify` of a result is the `json` field of `ClientArtifacts.Payload`. Key order and the serializer are not modelled.
- Artifact ids, timestamps and conversation ids are not modelled. Neither are the DOM, the panel, the counters, or `localStorage` (`saveArtifacts`).
- A `null` entry in the results array, on which `processArtifacts` would throw, is not modelled.
- `downloadWebsite`: only the file name is modelled (static/script.js:508, 538-542). Choosing and wrapping the content is left out.
- The unused helpers are left out because nothing calls them: `main.py`'s `CoderAgent._extract_code_blocks` (main.py:170-185) and the `is_ai_theme` flag (main.py:192-196), which is only logged.
- MainRouting.BraceSpan: models `re.search(r'\{.*\}')` for this fixed pattern only, not a general regular-expression engine; the same holds for MainSite.SearchSpan and its two patterns.
