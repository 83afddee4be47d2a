# PACE: prompt templates and their application, in Dafny

PACE (Prompt-Augmented Coding Environment) is a browser code editor. The user selects a
snippet, picks a named prompt template, and the page sends the template body, with its
`{{selection}}` placeholder replaced by the snippet, to the server. The server forwards it
to a completion provider and returns the text, which the page puts on top of a results feed.

This project models the two parts of the system that hold its logic:

- **The server** (`server.js`), in `server.dfy`, module `Server`. The in-memory template
  list `promptTemplates` and the counter `nextTemplateId` are the fields of class
  `TemplateStore`. Its methods are the GET, POST and DELETE handlers of `/api/templates`.
  Each method is proved to follow a transition function on the value `Store` (`Create`,
  `Delete`, `Step`). The store invariant `Inv` says that ids are positive, strictly
  increasing in list order and below the counter. The `/api/complete` handler and the
  API-key check of `processAICompletion` are functions of the prompt, the key and the
  provider's answer.
- **The page controller** (class `PACEApp` in `public/app.js`), in `client.dfy`, module
  `Client`. The page elements that `PACEApp` reads and changes are plain state: the option
  list of the template select and its selected index, the `disabled` flags of the select
  and the apply button, the loading flag, the results feed (newest first) with its
  "placeholder shown" flag, the editor mode, and the notifications shown so far. Class
  `PaceApp` holds them in fields. Its methods follow transition functions on the value
  `Ui`, and those functions carry the contracts and the lemmas. `updateUI` keeps its
  `while` loop and its `forEach` loop, with invariants.
- **The JavaScript built-ins** the core depends on, in `js_strings.dfy`, module
  `JsStrings`, following ECMA-262 on strings of code points and on unbounded integers (see
  "Left out" for UTF-16 lengths and for number precision): `trim`, `indexOf`/`includes`, `replace` with a
  string pattern (first occurrence only, with the `$`-patterns of GetSubstitution, section
  22.1.3.18.1 of ECMA-262, 2022 edition), `parseInt` without a radix (section 19.2.5), and
  the decimal form of an integer.
- **The wire format** shared by both sides, in `api.dfy`, module `Api`: the template
  record, the JSON bodies, the responses, and the `findIndex`/`find`/`splice` lookups by id.
- **Client and server together**, in `session.dfy`, module `Session`. Each request of the
  page is answered by the server's handler as one atomic round trip. On top of that sit
  walk-throughs: ids after a delete, prompt rendering, a missing API key, two applies in
  a row, and the page's snapshot staying in step with the server's list.

`wrappers.dfy` holds `Option` and `Result`.

In these places the code behaves differently from what one might assume, and the model
follows the code:

- The server does not check that a new template's body contains `{{selection}}`. Only the
  page checks it before posting (`public/app.js:243`).
- The prompt is built with `String.prototype.replace` and a string pattern. So only the
  FIRST placeholder is replaced, and `$&`, `$$`, `` $` `` and `$'` in the selection are
  expanded (`Client.RenderPromptExpandsDollar`).
- Nothing blocks a second apply while a request is pending. `loading` is set but never
  read (`Client.NoInFlightGuard`).
- After the completion request fails, the page shows the response's `error` field
  ("Failed to process AI completion"), not the `details` that carry the thrown message.
- `handleSelection` enables apply when a template is chosen. It never disables apply for a
  non-empty selection with no template chosen; it leaves the button as it was.
- `updateUI` removes the selected option, so the select falls back to the placeholder.
  No change event fires, so an enabled apply button stays enabled
  (`Client.RebuildConsistentIff`). A click then only shows "Please select a template".

`public/index.html` is not part of this model. The initial page state (`Client.Initial`)
assumes these things:

- The template select holds one placeholder option with the empty value and the label
  "Select text first...". That option is not `disabled`, so it is the one the browser
  selects once `updateUI` has removed the selected option (`Client.RebuildOptions` sets
  the selected index to 0).
- The select and the apply button start disabled.
- The results container starts with its placeholder paragraph.

## Model

| member | source | states |
|---|---|---|
| Api.IsOk | public/app.js:184 | `response.ok`: the statuses the server sends on success (200, 201, 204) are ok, those it sends on failure (400, 404, 500) are not |
| Api.FindIndex | server.js:83 | `findIndex`: the first index whose template has the id; None exactly when no template has it |
| Api.FindById | public/app.js:293 | `find`: the template at the first index with the id (as `FindIndex` finds it), a member of the list; None exactly when none has it |
| Api.RemoveAt | server.js:89 | `splice(i, 1)`: the element at i removed, the elements before kept in place, those after shifted down by one |
| Api.RemoveAtIncreasing | server.js:89 | splicing out one element of a list with increasing ids keeps the ids increasing |
| Api.WithoutMembers | server.js:89 | the reference "all templates but those with the id" keeps exactly the templates whose id differs |
| Api.RemoveFoundIsWithout | server.js:83-89 | on a list with increasing ids, splicing out the found index is exactly the reference removal, order kept |
| Api.IncreasingTail | server.js:83-89 | the tail of a list with increasing ids has increasing ids |
| Api.RemoveAtCons | server.js:89 | splicing out a position after the head keeps the head in front of the spliced tail |
| Api.WithoutAbsent | server.js:85-87 | removing an id no template carries changes nothing |
| JsStrings.Trim | public/app.js:140 | `trim`: the result is the slice of the input that starts right after its leading white space |
| JsStrings.TrimShape | public/app.js:140 | the parts `trim` cuts off at both ends are white space, a non-empty result starts and ends with a non-space, and the result is empty iff the input is all white space |
| JsStrings.TrimIdempotent | public/app.js:140 | trimming an already trimmed selection changes nothing |
| JsStrings.IndexOf | public/app.js:243 | `indexOf`: the pattern occurs at the result and nowhere before it; None iff it occurs nowhere |
| JsStrings.IndexOfAt | public/app.js:300-303 | an occurrence with no earlier position starting with the pattern's first character is the one `indexOf` finds |
| JsStrings.Includes | public/app.js:243 | `includes`: the empty pattern is in every string, a string holds each of its prefixes, and nothing longer than the string is in it (the full characterisation is `IncludesIffOccurs`) |
| JsStrings.IncludesIffOccurs | public/app.js:243 | `includes` holds exactly when the pattern occurs at some position |
| JsStrings.GetSubstitution | public/app.js:300-303 | the `$`-patterns of `replace`: a replacement string without `$` is inserted unchanged (the expansion of `$&`, `$$`, `` $` `` and `$'` is stated by `Client.RenderPromptExpandsDollar`) |
| JsStrings.GetSubstitutionPair | public/app.js:300-303 | the two-character `$`-patterns: `$$` gives `$`, `$&` the matched text, `` $` `` the text before the match, `$'` the text after it, any other pair is copied |
| JsStrings.ReplaceFirst | public/app.js:300-303 | `replace` with a string pattern leaves a string without the pattern unchanged |
| JsStrings.ReplaceFirstLiteral | public/app.js:300-303 | with a `$`-free replacement, only the first occurrence is replaced; the text before and after it, later occurrences included, is kept verbatim |
| JsStrings.ParseInt | server.js:82 | `parseInt` of a string that is empty or all white space is NaN, and a negative result comes from a leading `-` after the white space |
| JsStrings.ParseMagnitudeOfDecimal | server.js:82 | a run of decimal digits without a `0x` prefix reads as the number they denote |
| JsStrings.ParseIntUnsigned | server.js:82 | `parseInt` of a string starting with a digit is its magnitude |
| JsStrings.ParseIntNegative | public/app.js:285 | `parseInt` of `-` followed by a digit string is the negated magnitude |
| JsStrings.ParseIntNaN | public/app.js:285-288 | `parseInt` gives NaN exactly when no digit follows the white space and sign (or a `0x` prefix has no hex digit) |
| JsStrings.IntToString | public/app.js:206 | `String(id)` as `option.value = template.id` writes it: a `-` exactly for a negative number, then decimal digits only |
| JsStrings.NatToStringValue | public/app.js:206 | the decimal digits written for a number read back as that number |
| JsStrings.ParseIntOfIntToString | public/app.js:285 | reading back an option's value, `String(id)`, with `parseInt` gives the id |
| JsStrings.IntToStringInjective | public/app.js:206 | distinct ids give distinct option values |
| Server.Falsy | server.js:65 | JavaScript falsiness of an optional string field (as in `!name`, `!template`, the empty-string default of `description`, `!prompt` and `!process.env.OPENAI_API_KEY`): a field is truthy exactly when it is present and non-empty |
| Server.InitialStore | server.js:21-52 | the store starts with the four built-in templates, ids 1 to 4, counter 5, and satisfies the invariant |
| Server.InitialTemplatesHaveMarker | server.js:21-50 | every built-in template body contains `{{selection}}` |
| Server.EndsWithMarker | server.js:27 | a body that ends with the placeholder includes it |
| Server.Create | server.js:62-78 | a missing or empty name or template gives 400 and leaves the list and the counter as they were; otherwise the record with id = counter, the description defaulting to "", is appended, the counter grows by one, and 201 returns the appended record |
| Server.CreatePreservesInv | server.js:69-76 | create keeps ids distinct, increasing and below the counter; the new id is above every stored one |
| Server.Delete | server.js:81-91 | 204 exactly when `parseInt` of the parameter is a stored id, and then one record fewer; otherwise 404 with nothing changed; the counter is never touched |
| Server.DeleteRemovesExactly | server.js:83-90 | a successful delete removes exactly the record with that id, keeps the order of the rest and keeps the invariant |
| Server.Step | server.js:57-59 | GET returns the current list exactly, in insertion order, and changes nothing; no handler lowers the counter |
| Server.StepPreservesInv | server.js:57-91 | every handler keeps the store invariant |
| Server.RunPreservesInv | server.js:57-91 | every sequence of requests keeps the store invariant |
| Server.CreatedIdsIncrease | server.js:70 | over any sequence of requests, the ids handed out are strictly increasing, at least the initial counter and below the final one |
| Server.NeverReused | server.js:70 | no later create reuses the id of a template present before, even one deleted in between |
| Server.ProcessAICompletion | server.js:114-138 | without an API key it throws "OpenAI API key not configured" before any provider call; otherwise it returns the provider's text or its error |
| Server.Complete | server.js:94-111 | an empty or missing prompt gives 400; a missing key gives 500 with the thrown message as `details`; 200 with the completion exactly when the key is set and the provider completes; a provider failure gives 500 with the provider's message as `details` |
| Server.CompleteRejectsBeforeProvider | server.js:97-99 | with no prompt or no key the response does not depend on the provider |
| Server.CompleteSendsPrompt | server.js:102 | the response depends on the provider only through its answer to this prompt |
| Server.TemplateStore.constructor | server.js:21-52 | the module-level list and counter start as the initial store |
| Server.TemplateStore.HandleGet | server.js:57-59 | GET returns the list field itself, whose ids are increasing |
| Server.TemplateStore.HandlePost | server.js:62-78 | the POST handler updates the list and the counter in place as `Create` says and keeps the invariant |
| Server.TemplateStore.HandleDelete | server.js:81-91 | the DELETE handler splices the list in place as `Delete` says and keeps the invariant |
| Client.Initial | public/app.js:3-8 | the page before init: no templates, empty selection, only the placeholder option, select and apply disabled, the results placeholder shown |
| Client.Notify | public/app.js:384-388 | a notification is added after the earlier ones and nothing else changes |
| Client.PlaceholderLabel | public/app.js:151-155 | the label is `Apply to "` + the selection, cut to its first 30 characters with `...` exactly when it is longer, + `"` |
| Client.PlaceholderLabelTruncates | public/app.js:153-154 | selections longer than 30 characters that share their first 30 get the same label |
| Client.RenderPrompt | public/app.js:300-303 | a body without the placeholder is sent unchanged |
| Client.RenderPromptFirstOnly | public/app.js:300-303 | with a `$`-free selection, the first placeholder is replaced by the selection verbatim and every later placeholder stays literally in the prompt |
| Client.RenderPromptExpandsDollar | public/app.js:300-303 | the `$`-patterns reach the prompt: selecting `$&` sends the body unchanged, `$$` inserts one `$`, `` $` `` repeats the text before the placeholder and `$'` the text after it |
| Client.RenderAtFirstMarker | public/app.js:300-303 | the prompt is the body with its first placeholder replaced by the substitution of the selection, the text on both sides kept |
| Client.ModeFor | public/app.js:165-178 | a listed language gives its mode from the table, any other gives "javascript" (names inherited from `Object.prototype` are never sent by the language select and are treated as unknown) |
| Client.SelectionChanged | public/app.js:138-162 | the selection is trimmed; an empty one disables the select and apply and shows "Select text first..."; a non-empty one enables the select, enables apply when a template is chosen (otherwise leaves it), and sets the truncated label; only the placeholder option's text changes among the options, and nothing else changes |
| Client.SelectionKeepsConsistent | public/app.js:145-149 | a selection change keeps "apply enabled only with a selection and a chosen template" |
| Client.TemplateChosen | public/app.js:65-68 | the option becomes the chosen one, and apply is enabled exactly when both the value and the selection are non-empty |
| Client.CompletionOf | public/app.js:316-326 | an ok response yields its completion; any other response yields its `error` field, or "AI completion failed" when that is empty; a network error yields its own message |
| Client.ApplyGuard | public/app.js:280-297 | apply goes ahead exactly when there is a selection, the chosen value parses to a non-zero id, and a snapshot template has that id; otherwise "Please select some text first", "Please select a template" or, for an id no template has, the error "Template not found" |
| Client.ResultDisplayed | public/app.js:333-361 | the placeholder goes and one entry (template name, completion) is put on top of the feed; older entries keep their order |
| Client.ResultsCleared | public/app.js:364-371 | the feed is empty and the placeholder is shown |
| Client.Settled | public/app.js:305-329 | on success exactly one entry goes on top of the feed and a success notice is shown; on failure the feed is unchanged and the error is shown; loading ends off; nothing else changes |
| Client.ApplyStep | public/app.js:279-330 | a failed guard sends no request and only adds its notice; otherwise the prompt of the found template is sent and the reply settles as above |
| Client.ApplyWithoutTarget | public/app.js:280-291 | with no selection or no parsable non-zero id, no request is sent and only a warning is added |
| Client.ChosenOptionApplies | public/app.js:285-293 | with the options built from the snapshot, choosing a template's option sends that template's prompt when ids are distinct |
| Client.ApplyChangesOnlyFeed | public/app.js:279-330 | apply changes only the feed, the notices and the loading flag, so it keeps the apply invariant |
| Client.KeyDownStep | public/app.js:119-127 | Ctrl/Cmd+Enter applies exactly when there is a selection and a chosen value; otherwise nothing happens |
| Client.NoInFlightGuard | public/app.js:119-127 | whether and what apply or the shortcut sends does not depend on `loading` |
| Client.Chosen | public/app.js:147 | `templateSelect.value`: the value of the selected option, empty while the placeholder is selected |
| Client.OptionFor | public/app.js:205-208 | the option of a template: its value is never empty, so choosing it counts as a choice (its read-back as the id is `JsStrings.ParseIntOfIntToString`); text the name, title the description |
| Client.OptionsFor | public/app.js:204-210 | one option per template, in order, with value `String(id)`, text the name, title the description |
| Client.OptionsForSnoc | public/app.js:204-210 | appending a template appends its option at the end |
| Client.OptionsForStep | public/app.js:204-210 | one pass of the `forEach` extends the options of the first i templates to those of the first i + 1 |
| Client.RebuildOptions | public/app.js:195-211 | the first option is kept, then one option per snapshot template in order; the placeholder becomes selected |
| Client.RebuildConsistentIff | public/app.js:199-201 | after the rebuild the apply invariant holds exactly when apply is disabled; "apply only with a selection" survives |
| Client.LoadStep | public/app.js:181-192 | an ok reply replaces the snapshot with the list; anything else keeps it and shows "Error loading templates" |
| Client.TemplateAdded | public/app.js:264-271 | the server's record is appended to the snapshot, the options become the kept placeholder option followed by one option per snapshot template, the new one last, and a success notice names it |
| Client.AddFeatureStep | public/app.js:234-276 | a body without `{{selection}}` is refused before any request, snapshot unchanged; otherwise the form is posted and an ok reply's record is appended, any other reply leaves the snapshot and shows an error |
| Client.ModeChanged | public/app.js:165-178 | only the editor mode changes, to the table's mode for the language |
| Client.Handle | public/app.js:56-135 | every user event keeps the page well formed (clicks and choices are taken even on disabled controls, a superset of the page's runs) |
| Client.HandleNeedsSelection | public/app.js:56-135 | every event handler keeps "apply enabled only with a selection" |
| Client.Run | public/app.js:56-135 | any run of events keeps the page well formed |
| Client.RunNeedsSelection | public/app.js:56-135 | "apply enabled only with a selection" survives any run of events |
| Client.AfterInit | public/app.js:10-15 | after init the snapshot is the loaded list (or empty when loading failed), the select holds the placeholder labelled "Select text first..." (empty value) and then one option per template, nothing is selected or chosen and apply is disabled |
| Client.PageNeedsSelection | public/app.js:10-15 | after init, whatever the user does, apply is enabled only while text is selected |
| Client.PaceApp.constructor | public/app.js:3-8 | the controller starts in the initial page state |
| Client.PaceApp.Init | public/app.js:10-15 | init loads the templates and rebuilds the options, as `LoadStep` then `RebuildOptions` |
| Client.PaceApp.ShowNotification | public/app.js:384-429 | appends one notification |
| Client.PaceApp.ShowLoading | public/app.js:374-381 | sets the loading flag only |
| Client.PaceApp.HandleSelection | public/app.js:138-162 | updates the fields in place as `SelectionChanged` |
| Client.PaceApp.OnTemplateSelectChange | public/app.js:63-68 | updates the fields in place as `TemplateChosen` |
| Client.PaceApp.OnKeyDown | public/app.js:112-134 | updates the fields and returns the request as `KeyDownStep` |
| Client.PaceApp.ApplyTemplate | public/app.js:279-330 | updates the fields and returns the request as `ApplyStep` |
| Client.PaceApp.AwaitCompletion | public/app.js:305-329 | the try/catch/finally around the request updates the fields as `Settled` |
| Client.PaceApp.DisplayResult | public/app.js:333-361 | updates the feed in place as `ResultDisplayed` |
| Client.PaceApp.ClearResults | public/app.js:364-371 | updates the feed in place as `ResultsCleared` |
| Client.PaceApp.LoadTemplates | public/app.js:181-192 | updates the snapshot as `LoadStep` |
| Client.PaceApp.UpdateUI | public/app.js:195-211 | the removal loop and the append loop leave the options as `RebuildOptions` says |
| Client.PaceApp.RemoveExtraOptions | public/app.js:199-201 | the removal loop leaves only the first option, and it is the selected one |
| Client.PaceApp.AppendTemplateOptions | public/app.js:204-210 | the `forEach` appends exactly the options of the snapshot templates, in order |
| Client.PaceApp.HandleAddFeature | public/app.js:234-276 | updates the fields and returns the posted form as `AddFeatureStep` |
| Client.PaceApp.ChangeEditorMode | public/app.js:165-178 | sets the editor mode as `ModeChanged` |
| Session.CompleteRepliesWellShaped | server.js:97-110 | every `/api/complete` response carries a completion when ok and an error body otherwise |
| Session.CreateRepliesWellShaped | server.js:65-77 | every POST `/api/templates` response carries the created record when ok |
| Session.ApplyOnServer | public/app.js:300-314 | apply against the server sends a request exactly when the guards pass, and then the rendered prompt; only the feed, the notices and the loading flag may change, so snapshot, selection, options and controls stay |
| Session.ApplyOnServerMissingKey | server.js:117-119 | without an API key the page keeps its feed, ends with loading off, and shows "Error: Failed to process AI completion" (or "Prompt is required" for an empty prompt) |
| Session.ApplyOnServerCompleted | public/app.js:321-322 | with a key and a completed non-empty prompt, exactly one entry (template name, provider text) goes on top of the feed |
| Session.MissingKeyNeverAddsResults | server.js:117-119 | without a key no apply ever changes the feed; every apply ends with one warning or error |
| Session.Loaded | server.js:57-59 | after init the snapshot is the server's list and the select has one option per stored template |
| Session.LoadedChosen | public/app.js:63-68 | after init, selecting text and choosing the k-th stored template's option keeps the server's list and enables apply |
| Session.LoadedChooseApply | public/app.js:285-303 | after init, selecting text and choosing the k-th stored template's option enables apply and sends exactly that template's prompt |
| Session.AddOnServer | public/app.js:243-265 | a body without the placeholder never reaches the server; a rejected form changes neither side; an accepted one appends the same record on both sides, with id = the counter |
| Session.AddKeepsSnapshotInSync | public/app.js:265 | a snapshot equal to the server's list stays equal after any form submission, and the server keeps its invariant |
| Session.CreateDeleteCreate | server.js:69-90 | create gives id n, deleting n restores the old list, the next create gives n + 1, not n |
| Session.WithoutAppend | server.js:89 | removing the id of a just-appended record whose id is new gives back the list before |
| Session.FirstIdsAfterStart | server.js:52 | from the built-in store the first created id is 5, and after deleting it the next is 6 |
| Session.RenderAfterPrefix | public/app.js:300-303 | the selection takes the first placeholder's place and the rest of the body follows verbatim |
| Session.RenderAfterPrefixAtEnd | public/app.js:300-303 | the same for a body ending with its placeholder |
| Session.RenderExplain | public/app.js:300-303 | selection `function foo(){}` with body `Explain: {{selection}}` gives `Explain: function foo(){}` |
| Session.RenderSelectionIsMarker | public/app.js:300-303 | a selection reading `{{selection}}` is inserted as text and not expanded again |
| Session.RenderTwoMarkers | public/app.js:300-303 | of two placeholders only the first is replaced |
| Session.ChooseAndApply | public/app.js:357 | choosing a snapshot template and applying with a completion puts one entry for that template on top of the feed and keeps snapshot, options and selection |
| Session.ApplyAgain | public/app.js:357 | a second successful apply puts its entry above the entry of the first |
| Session.TwoAppliesNewestFirst | public/app.js:357 | two successful applies with the same selection add two entries, the later one first |

## Left out

- The OpenAI client and its settings (`server.js:115-137`): model name, temperature
  (a float from `parseFloat`), `max_tokens` and the network call. The provider is a
  function parameter that answers a prompt with a text or an error message.
- Express plumbing: CORS, body parsing, static files, `/`, `listen`, and the catch-all
  error middleware (`server.js:1-18`, `server.js:140-150`).
- JSON typing: request fields are optional strings. A name or template sent as a number,
  an object or `true` is not modelled.
- `fetch` and asynchrony: each round trip is one atomic step with a chosen reply.
  Interleavings of two requests in flight are not modelled. The code has no guard
  against them.
- `response.json()` failing on a body that is not JSON is not modelled. Replies are
  assumed to have the shape the server sends (`CompleteReplyShape`, `AddReplyShape`,
  `LoadReplyShape`).
- CodeMirror setup and events, the editor's own content, and `getSelection`: the
  selection is an input string.
- Modal show and hide, form reset, focus and the `Ctrl+K`/`Escape` shortcuts: these only
  open or close the modal.
- Notification styling, colours and the `setTimeout` animation. A notification is a kind
  and a message.
- `scrollIntoView`, the `toLocaleTimeString` timestamp, and the `innerHTML` markup of a
  result item. A result entry is the pair (template name, completion).
- Client.PlaceholderLabel: strings are sequences of code points here, while JavaScript's
  `length` and `substring(0, 30)` count UTF-16 code units. For a selection with characters
  outside the Basic Multilingual Plane the length test, the cut and the `...` differ (20
  emoji are 40 units, so JavaScript shows 15 and `...`), and a cut in the middle of a
  surrogate pair cannot be represented.
- JsStrings.IntToString: it writes every integer in plain decimal. JavaScript switches to
  exponent notation from 10^21 and loses precision beyond 2^53. Ids stay far below
  either bound.
- JsStrings.ParseInt: it returns an unbounded integer, while JavaScript returns a Number.
  A DELETE parameter such as `9007199254740993` reads as 9007199254740992 in JavaScript
  and exactly here; ids stay far below 2^53, so the lookup is the same for every id the
  server hands out.
- `demo-examples.js`: sample text for the user to select. Nothing runs it.
