/**
 * The browser side of public/app.js: class `PACEApp`, with the page elements it reads and
 * changes written as plain state. The template select is its list of options and the index of
 * the selected one; the apply button and the select carry their `disabled` flags; the results
 * container is a list of entries, newest first, plus whether the placeholder paragraph is shown;
 * notifications are recorded in the order they are shown.
 *
 * Every handler is a transition function on the value `Ui`, which carries the contracts and the
 * lemmas; class `PaceApp` holds the same state in fields, and its methods update them in place
 * and are proved to follow those functions. A network round trip is one atomic step whose reply
 * is a parameter.
 */
module Client {
  import opened Wrappers
  import opened JsStrings
  import opened Api

  /** An `<option>` of the template select: its value, its text and its tooltip. */
  datatype SelectOption = SelectOption(value: string, text: string, title: string)

  /** One entry of the results feed. */
  datatype ResultEntry = ResultEntry(templateName: string, completion: string)

  datatype NoticeKind = Success | Error | Warning | Info

  /** A notification as passed to showNotification. */
  datatype Notice = Notice(kind: NoticeKind, message: string)

  /** What a `fetch` gives back: a response, or a rejection with the network error's message. */
  datatype Reply = Delivered(response: Response) | NetworkError(message: string)

  /** The fields of the add-feature form. */
  datatype TemplateForm = TemplateForm(name: string, description: string, template: string)

  /** The controller's state. */
  datatype Ui = Ui(
    templates: seq<Template>,       // this.templates, the local snapshot of the store
    selectedText: string,           // this.selectedText
    options: seq<SelectOption>,     // the children of #templateSelect
    selectedIndex: nat,             // which of them is selected
    selectDisabled: bool,           // #templateSelect.disabled
    applyDisabled: bool,            // #applyTemplateBtn.disabled
    loading: bool,                  // #loadingIndicator has class "active"
    results: seq<ResultEntry>,      // the result items of #resultsContainer, newest first
    placeholderShown: bool,         // #resultsContainer holds the placeholder paragraph
    editorMode: string,             // the editor's "mode" option
    notices: seq<Notice>)           // notifications shown so far

  /** The shape the page keeps: the first option is the placeholder with the empty value, the
      selected index is an option, and the placeholder paragraph never sits beside results. */
  predicate WellFormed(u: Ui) {
    |u.options| >= 1 && u.options[0].value == "" && u.selectedIndex < |u.options| &&
    (u.placeholderShown ==> u.results == [])
  }

  /** `templateSelect.value`: empty while the placeholder is selected. */
  function Chosen(u: Ui): (value: string)
    requires WellFormed(u)
    ensures u.selectedIndex == 0 ==> value == ""
  {
    u.options[u.selectedIndex].value
  }

  /** Apply is enabled only with a selection and a chosen template. */
  predicate ApplyConsistent(u: Ui)
    requires WellFormed(u)
  {
    !u.applyDisabled ==> u.selectedText != "" && Chosen(u) != ""
  }

  /** Apply is enabled only with a selection. */
  predicate ApplyNeedsSelection(u: Ui) {
    !u.applyDisabled ==> u.selectedText != ""
  }

  function Notify(u: Ui, kind: NoticeKind, message: string): (v: Ui)
    ensures v.notices == u.notices + [Notice(kind, message)]
    ensures v.(notices := u.notices) == u
  {
    u.(notices := u.notices + [Notice(kind, message)])
  }

  const NoSelectionLabel: string := "Select text first..."
  const ApplyPrefix: string := "Apply to \""
  const LabelLimit: nat := 30

  const SelectTextMessage: string := "Please select some text first"
  const SelectTemplateMessage: string := "Please select a template"
  const TemplateNotFoundMessage: string := "Template not found"
  const CompletionSuccessMessage: string := "AI completion successful!"
  const CompletionFailedDefault: string := "AI completion failed"
  const MissingMarkerMessage: string := "Template must include {{selection}} placeholder"
  const AddFailedMessage: string := "Error adding template"
  const LoadFailedMessage: string := "Error loading templates"

  /** The page as index.html declares it, before init runs: no templates, empty selection, only
      the placeholder option, select and apply disabled, the results placeholder shown. */
  function Initial(): (u: Ui)
    ensures WellFormed(u) && ApplyConsistent(u) && u.templates == [] && u.results == []
    ensures u.selectedText == "" && u.applyDisabled && u.selectDisabled && u.placeholderShown && !u.loading
    ensures u.options == [SelectOption("", NoSelectionLabel, "")] && u.selectedIndex == 0 && u.notices == []
  {
    Ui([], "", [SelectOption("", NoSelectionLabel, "")], 0, true, true, false, [], true, "javascript", [])
  }

  // ---------------------------------------------------------------------------------------------
  // Pure helpers: the placeholder label, prompt rendering, the language-mode table
  // ---------------------------------------------------------------------------------------------

  /** The placeholder option's label for a non-empty selection: `Apply to "` + the first 30
      characters + `...` exactly when there are more than 30 + `"`. */
  function PlaceholderLabel(selected: string): (caption: string)
    ensures |ApplyPrefix| + 1 <= |caption| <= |ApplyPrefix| + LabelLimit + 4
    ensures caption[..|ApplyPrefix|] == ApplyPrefix && caption[|caption| - 1] == '"'
    ensures |selected| <= LabelLimit ==> caption[|ApplyPrefix|..|caption| - 1] == selected
    ensures |selected| > LabelLimit ==> caption[|ApplyPrefix|..|caption| - 1] == selected[..LabelLimit] + "..."
  {
    var shown := if |selected| <= LabelLimit then selected else selected[..LabelLimit];
    var ellipsis := if |selected| > LabelLimit then "..." else "";
    var caption := ApplyPrefix + shown + ellipsis + "\"";
    assert caption[|ApplyPrefix|..|caption| - 1] == shown + ellipsis;
    caption
  }

  /** Two selections that agree on their first 30 characters and are both longer than 30 get the
      same label. */
  lemma PlaceholderLabelTruncates(a: string, b: string)
    requires |a| > LabelLimit && |b| > LabelLimit && a[..LabelLimit] == b[..LabelLimit]
    ensures PlaceholderLabel(a) == PlaceholderLabel(b)
  {
  }

  /** The prompt sent for a template body: `body.replace('{{selection}}', selected)`. */
  function RenderPrompt(body: string, selected: string): (prompt: string)
    ensures !Includes(body, Marker) ==> prompt == body
  {
    ReplaceFirst(body, Marker, selected)
  }

  /** With a `$`-free selection, only the first placeholder is replaced: the text before it is
      kept, the selection goes in verbatim (a placeholder inside it is not expanded), and every
      later placeholder stays literally in the prompt, shifted by the length difference. */
  lemma RenderPromptFirstOnly(body: string, selected: string, i: nat)
    requires '$' !in selected
    requires IndexOf(body, Marker) == Some(i)
    ensures RenderPrompt(body, selected) == body[..i] + selected + body[i + |Marker|..]
    ensures forall j :: i + |Marker| <= j <= |body| && OccursAt(body, Marker, j) ==>
              OccursAt(RenderPrompt(body, selected), Marker, j - |Marker| + |selected|)
  {
    ReplaceFirstLiteral(body, Marker, selected, i);
    var p := RenderPrompt(body, selected);
    var rest := body[i + |Marker|..];
    forall j | i + |Marker| <= j <= |body| && OccursAt(body, Marker, j)
      ensures OccursAt(p, Marker, j - |Marker| + |selected|)
    {
      var k := j - |Marker| + |selected|;
      assert p[i + |selected|..] == rest;
      assert p[k..k + |Marker|] == rest[j - i - |Marker|..j - i] == body[j..j + |Marker|];
    }
  }

  /** The `$`-patterns of replace reach the prompt: selecting the text `$&` puts the placeholder
      itself back, so the prompt is the template body unchanged; `$$` becomes a single `$`;
      `` $` `` repeats the text before the placeholder and `$'` the text after it. */
  lemma RenderPromptExpandsDollar(body: string, i: nat)
    requires IndexOf(body, Marker) == Some(i)
    ensures RenderPrompt(body, "$&") == body
    ensures RenderPrompt(body, "$$") == body[..i] + "$" + body[i + |Marker|..]
    ensures RenderPrompt(body, "$`") == body[..i] + body[..i] + body[i + |Marker|..]
    ensures RenderPrompt(body, "$'") == body[..i] + body[i + |Marker|..] + body[i + |Marker|..]
  {
    var before, after := body[..i], body[i + |Marker|..];
    assert RenderPrompt(body, "$&") == body by {
      assert body[i..i + |Marker|] == Marker;
      assert body == before + Marker + after;
      GetSubstitutionPair('&', Marker, before, after);
      assert "$&" == ['$', '&'];
      RenderAtFirstMarker(body, i, "$&");
    }
    assert RenderPrompt(body, "$$") == before + "$" + after by {
      GetSubstitutionPair('$', Marker, before, after);
      assert "$$" == ['$', '$'];
      RenderAtFirstMarker(body, i, "$$");
    }
    assert RenderPrompt(body, "$`") == before + before + after by {
      GetSubstitutionPair('`', Marker, before, after);
      assert "$`" == ['$', '`'];
      RenderAtFirstMarker(body, i, "$`");
    }
    assert RenderPrompt(body, "$'") == before + after + after by {
      GetSubstitutionPair('\'', Marker, before, after);
      assert "$'" == ['$', '\''];
      RenderAtFirstMarker(body, i, "$'");
    }
  }

  /** The prompt is the body with its first placeholder replaced by the substitution of the
      selection. */
  lemma RenderAtFirstMarker(body: string, i: nat, selected: string)
    requires IndexOf(body, Marker) == Some(i)
    ensures RenderPrompt(body, selected) ==
            body[..i] + GetSubstitution(selected, Marker, body[..i], body[i + |Marker|..]) + body[i + |Marker|..]
  {
  }

  /** The editor modes of changeEditorMode, keyed by the language select's values. */
  const ModeMap: map<string, string> := map[
    "javascript" := "javascript", "python" := "python", "java" := "text/x-java",
    "cpp" := "text/x-c++src", "html" := "xml", "css" := "css", "sql" := "sql"]

  /** `modeMap[language] || 'javascript'`: the table's mode, or JavaScript for any other value.
      The object lookup in the source would also find the names `Object.prototype` carries
      (`constructor`, `toString`, ...); the language select never sends those, so they are
      treated here like any other unknown value. */
  function ModeFor(language: string): (mode: string)
    ensures language in ModeMap ==> mode == ModeMap[language]
    ensures language !in ModeMap ==> mode == "javascript"
    ensures mode in ModeMap.Values
  {
    if language in ModeMap && ModeMap[language] != "" then ModeMap[language]
    else assert ModeMap["javascript"] == "javascript"; "javascript"
  }

  // ---------------------------------------------------------------------------------------------
  // Selection and template choice
  // ---------------------------------------------------------------------------------------------

  /** handleSelection: the selection is trimmed; an empty one disables the select and apply and
      shows "Select text first..."; a non-empty one enables the select, enables apply if a
      template is chosen (and otherwise leaves apply as it was) and labels the placeholder. */
  function SelectionChanged(u: Ui, selection: string): (v: Ui)
    requires WellFormed(u)
    ensures WellFormed(v) && Chosen(v) == Chosen(u)
    ensures v.selectedText == Trim(selection)
    ensures v.selectedText == "" ==> v.selectDisabled && v.applyDisabled && v.options[0].text == NoSelectionLabel
    ensures v.selectedText != "" ==>
      !v.selectDisabled && v.options[0].text == PlaceholderLabel(v.selectedText) &&
      v.applyDisabled == (u.applyDisabled && Chosen(u) == "")
    ensures |v.options| == |u.options| && v.options[1..] == u.options[1..]
    ensures v.options[0] == u.options[0].(text := v.options[0].text)
    ensures v.(selectedText := u.selectedText, selectDisabled := u.selectDisabled,
               applyDisabled := u.applyDisabled, options := u.options) == u
  {
    var text := Trim(selection);
    if text != "" then
      u.(selectedText := text, selectDisabled := false,
         applyDisabled := if Chosen(u) != "" then false else u.applyDisabled,
         options := u.options[0 := u.options[0].(text := PlaceholderLabel(text))])
    else
      u.(selectedText := text, selectDisabled := true, applyDisabled := true,
         options := u.options[0 := u.options[0].(text := NoSelectionLabel)])
  }

  /** A selection change keeps apply consistent with the selection and the choice. */
  lemma SelectionKeepsConsistent(u: Ui, selection: string)
    requires WellFormed(u) && ApplyConsistent(u)
    ensures ApplyConsistent(SelectionChanged(u, selection))
  {
  }

  /** The templateSelect change handler: the option is selected, and apply is disabled exactly
      when the new value or the selection is empty. */
  function TemplateChosen(u: Ui, index: nat): (v: Ui)
    requires WellFormed(u) && index < |u.options|
    ensures WellFormed(v) && Chosen(v) == u.options[index].value
    ensures !v.applyDisabled <==> v.selectedText != "" && Chosen(v) != ""
    ensures v.(selectedIndex := u.selectedIndex, applyDisabled := u.applyDisabled) == u
  {
    u.(selectedIndex := index, applyDisabled := u.options[index].value == "" || u.selectedText == "")
  }

  // ---------------------------------------------------------------------------------------------
  // Applying a template
  // ---------------------------------------------------------------------------------------------

  /** The replies the server sends to POST /api/complete: a completion when ok, an error body
      otherwise. */
  predicate CompleteReplyShape(reply: Reply) {
    reply.Delivered? ==>
      if IsOk(reply.response.status) then reply.response.body.CompletionText?
      else reply.response.body.ErrorBody?
  }

  /** How applyTemplate reads the reply: the completion, or the message it throws with (the
      error field, "AI completion failed" when that is empty, or the network error). */
  function CompletionOf(reply: Reply): (r: Result<string, string>)
    requires CompleteReplyShape(reply)
    ensures r.Ok? <==> reply.Delivered? && IsOk(reply.response.status)
    ensures r.Ok? ==> r.value == reply.response.body.completion
    ensures r.Err? && reply.Delivered? ==> r.error != ""
    ensures reply.NetworkError? ==> r == Err(reply.message)
    ensures reply.Delivered? && !IsOk(reply.response.status) && reply.response.body.error != "" ==>
              r == Err(reply.response.body.error)
    ensures reply.Delivered? && !IsOk(reply.response.status) && reply.response.body.error == "" ==>
              r == Err(CompletionFailedDefault)
  {
    match reply
    case NetworkError(message) => Err(message)
    case Delivered(response) =>
      if IsOk(response.status) then Ok(response.body.completion)
      else Err(if response.body.error == "" then CompletionFailedDefault else response.body.error)
  }

  /** The checks applyTemplate makes before any request, in order: a selection, a chosen value
      that parses to a non-zero id, a template of the snapshot with that id. Ok carries the
      first such template; Err the notice shown instead. */
  function ApplyGuard(u: Ui): (r: Result<Template, Notice>)
    requires WellFormed(u)
    ensures r.Ok? <==>
      u.selectedText != "" && ParseInt(Chosen(u)).Some? && ParseInt(Chosen(u)).value != 0 &&
      exists t :: t in u.templates && t.id == ParseInt(Chosen(u)).value
    ensures r.Ok? ==> r.value in u.templates && ParseInt(Chosen(u)) == Some(r.value.id)
    ensures r.Ok? ==> Some(r.value) == FindById(u.templates, r.value.id)
    ensures u.selectedText == "" ==> r == Err(Notice(Warning, SelectTextMessage))
    ensures u.selectedText != "" && (ParseInt(Chosen(u)).None? || ParseInt(Chosen(u)) == Some(0)) ==>
              r == Err(Notice(Warning, SelectTemplateMessage))
    ensures u.selectedText != "" && ParseInt(Chosen(u)).Some? && ParseInt(Chosen(u)).value != 0 &&
            FindById(u.templates, ParseInt(Chosen(u)).value).None? ==>
              r == Err(Notice(Error, TemplateNotFoundMessage))
    ensures r.Err? ==> r.error in {Notice(Warning, SelectTextMessage), Notice(Warning, SelectTemplateMessage),
                                   Notice(Error, TemplateNotFoundMessage)}
  {
    if u.selectedText == "" then Err(Notice(Warning, SelectTextMessage))
    else match ParseInt(Chosen(u))
      case None => Err(Notice(Warning, SelectTemplateMessage))
      case Some(id) =>
        if id == 0 then Err(Notice(Warning, SelectTemplateMessage))
        else match FindById(u.templates, id)
          case None => Err(Notice(Error, TemplateNotFoundMessage))
          case Some(t) => Ok(t)
  }

  /** State after an apply, and the prompt it posted to /api/complete (None: no request). */
  datatype ApplyOutcome = ApplyOutcome(ui: Ui, request: Option<string>)

  /** displayResult: the placeholder paragraph goes, and the entry is inserted at the top. */
  function ResultDisplayed(u: Ui, templateName: string, completion: string): (v: Ui)
    ensures v.results == [ResultEntry(templateName, completion)] + u.results && !v.placeholderShown
    ensures v.(results := u.results, placeholderShown := u.placeholderShown) == u
  {
    u.(results := [ResultEntry(templateName, completion)] + u.results, placeholderShown := false)
  }

  /** clearResults: the container holds only the placeholder paragraph. */
  function ResultsCleared(u: Ui): (v: Ui)
    ensures v.results == [] && v.placeholderShown
    ensures v.(results := u.results, placeholderShown := u.placeholderShown) == u
  {
    u.(results := [], placeholderShown := true)
  }

  /** The part of applyTemplate after the request is sent: loading is on while it runs; on
      success one entry (template name, completion) goes on top of the feed and a success notice
      is shown; on failure the feed is untouched and the error is shown; loading ends off. */
  function Settled(u: Ui, t: Template, reply: Reply): (v: Ui)
    requires CompleteReplyShape(reply)
    ensures !v.loading
    ensures v.(results := u.results, placeholderShown := u.placeholderShown, notices := u.notices, loading := u.loading) == u
    ensures CompletionOf(reply).Ok? ==>
      v.results == [ResultEntry(t.name, CompletionOf(reply).value)] + u.results && !v.placeholderShown &&
      v.notices == u.notices + [Notice(Success, CompletionSuccessMessage)]
    ensures CompletionOf(reply).Err? ==>
      v.results == u.results && v.placeholderShown == u.placeholderShown &&
      v.notices == u.notices + [Notice(Error, "Error: " + CompletionOf(reply).error)]
  {
    var pending := u.(loading := true);
    var settled := match CompletionOf(reply)
      case Ok(completion) => Notify(ResultDisplayed(pending, t.name, completion), Success, CompletionSuccessMessage)
      case Err(message) => Notify(pending, Error, "Error: " + message);
    settled.(loading := false)
  }

  /** applyTemplate run to completion. When a guard fails its notice is shown, no request is
      sent and nothing else changes; otherwise the prompt is the template body with its first
      placeholder replaced, and the reply settles as above. Nothing here looks at `loading`:
      there is no guard against a request in flight. */
  function ApplyStep(u: Ui, reply: Reply): (o: ApplyOutcome)
    requires WellFormed(u) && CompleteReplyShape(reply)
    ensures WellFormed(o.ui)
    ensures o.request.Some? <==> ApplyGuard(u).Ok?
    ensures ApplyGuard(u).Err? ==> o.ui == Notify(u, ApplyGuard(u).error.kind, ApplyGuard(u).error.message)
    ensures ApplyGuard(u).Ok? ==>
      o.request == Some(RenderPrompt(ApplyGuard(u).value.template, u.selectedText)) &&
      o.ui == Settled(u, ApplyGuard(u).value, reply)
  {
    match ApplyGuard(u)
    case Err(notice) => ApplyOutcome(Notify(u, notice.kind, notice.message), None)
    case Ok(t) => ApplyOutcome(Settled(u, t, reply), Some(RenderPrompt(t.template, u.selectedText)))
  }

  /** An apply without a selection, or whose chosen value does not parse to a template id, only
      shows a warning. */
  lemma ApplyWithoutTarget(u: Ui, reply: Reply)
    requires WellFormed(u) && CompleteReplyShape(reply)
    requires u.selectedText == "" || ParseInt(Chosen(u)).None? || ParseInt(Chosen(u)) == Some(0)
    ensures ApplyStep(u, reply).request.None?
    ensures ApplyStep(u, reply).ui.(notices := u.notices) == u
    ensures ApplyStep(u, reply).ui.notices[|u.notices|].kind == Warning
  {
  }

  /** With the snapshot's options on display, choosing the option of the k-th template and having
      a selection sends that template's prompt, or that of the first template sharing its id;
      with distinct ids, exactly that template's. */
  lemma ChosenOptionApplies(u: Ui, reply: Reply)
    requires WellFormed(u) && CompleteReplyShape(reply)
    requires Synced(u) && 0 < u.selectedIndex && u.selectedText != ""
    requires u.templates[u.selectedIndex - 1].id != 0
    ensures var t := u.templates[u.selectedIndex - 1];
            FindById(u.templates, t.id).Some? && ApplyGuard(u) == Ok(FindById(u.templates, t.id).value) &&
            ApplyStep(u, reply).request == Some(RenderPrompt(FindById(u.templates, t.id).value.template, u.selectedText))
    ensures StrictlyIncreasing(u.templates) ==> ApplyGuard(u) == Ok(u.templates[u.selectedIndex - 1])
    ensures StrictlyIncreasing(u.templates) ==>
              ApplyStep(u, reply).request == Some(RenderPrompt(u.templates[u.selectedIndex - 1].template, u.selectedText))
  {
    var k := u.selectedIndex - 1;
    var t := u.templates[k];
    assert u.options[1..][k] == OptionFor(t);
    assert Chosen(u) == IntToString(t.id);
    ParseIntOfIntToString(t.id);
    assert t in u.templates;
    if StrictlyIncreasing(u.templates) {
      var i := FindIndex(u.templates, t.id).value;
      assert i == k;
    }
  }

  /** An apply changes only the results feed, the notices and the loading flag; so it keeps
      apply consistent. */
  lemma ApplyChangesOnlyFeed(u: Ui, reply: Reply)
    requires WellFormed(u) && CompleteReplyShape(reply)
    ensures ApplyStep(u, reply).ui.(results := u.results, placeholderShown := u.placeholderShown,
                                    notices := u.notices, loading := u.loading) == u
    ensures ApplyConsistent(u) ==> ApplyConsistent(ApplyStep(u, reply).ui)
  {
    var o := ApplyStep(u, reply);
    if ApplyGuard(u).Ok? {
      assert o.ui == Settled(u, ApplyGuard(u).value, reply);
    }
  }

  /** The Ctrl+Enter (or Cmd+Enter) shortcut: applies when there is a selection and a chosen
      value, and does nothing otherwise. */
  function KeyDownStep(u: Ui, ctrlOrMeta: bool, key: string, reply: Reply): (o: ApplyOutcome)
    requires WellFormed(u) && CompleteReplyShape(reply)
    ensures o.request.Some? ==> ctrlOrMeta && key == "Enter" && u.selectedText != "" && Chosen(u) != ""
    ensures !(ctrlOrMeta && key == "Enter" && u.selectedText != "" && Chosen(u) != "") ==> o == ApplyOutcome(u, None)
    ensures ctrlOrMeta && key == "Enter" && u.selectedText != "" && Chosen(u) != "" ==> o == ApplyStep(u, reply)
  {
    if ctrlOrMeta && key == "Enter" && u.selectedText != "" && Chosen(u) != "" then ApplyStep(u, reply)
    else ApplyOutcome(u, None)
  }

  /** Neither the button nor the shortcut is blocked while a request is in flight: whether a
      request is sent, and which, does not depend on `loading`. */
  lemma NoInFlightGuard(u: Ui, loading: bool, ctrlOrMeta: bool, key: string, reply: Reply)
    requires WellFormed(u) && CompleteReplyShape(reply)
    ensures ApplyStep(u.(loading := loading), reply).request == ApplyStep(u, reply).request
    ensures KeyDownStep(u.(loading := loading), ctrlOrMeta, key, reply).request == KeyDownStep(u, ctrlOrMeta, key, reply).request
  {
    assert ApplyGuard(u.(loading := loading)) == ApplyGuard(u);
  }

  // ---------------------------------------------------------------------------------------------
  // The template list: updateUI, loadTemplates, handleAddFeature
  // ---------------------------------------------------------------------------------------------

  /** The option updateUI creates for a template. */
  function OptionFor(t: Template): (o: SelectOption)
    ensures o.value != ""
    ensures o.text == t.name && o.title == t.description
  {
    SelectOption(IntToString(t.id), t.name, t.description)
  }

  function OptionsFor(ts: seq<Template>): (r: seq<SelectOption>)
    ensures |r| == |ts| && forall i :: 0 <= i < |ts| ==> r[i] == OptionFor(ts[i])
  {
    if ts == [] then [] else [OptionFor(ts[0])] + OptionsFor(ts[1..])
  }

  /** One step of the loop that appends the options: appending the option of
      the i-th template extends the prefix by one. */
  lemma OptionsForStep(o: seq<SelectOption>, ts: seq<Template>, i: nat)
    requires i < |ts|
    ensures o + OptionsFor(ts[..i]) + [OptionFor(ts[i])] == o + OptionsFor(ts[..i + 1])
  {
    assert ts[..i + 1] == ts[..i] + [ts[i]];
    OptionsForSnoc(ts[..i], ts[i]);
  }

  /** Adding a template at the end adds its option at the end. */
  lemma OptionsForSnoc(ts: seq<Template>, t: Template)
    ensures OptionsFor(ts + [t]) == OptionsFor(ts) + [OptionFor(t)]
  {
  }

  /** Every option after the placeholder stands for the snapshot's template at that position. */
  predicate Synced(u: Ui) {
    |u.options| >= 1 && u.options[1..] == OptionsFor(u.templates)
  }

  /** updateUI: all options but the first are removed, then one option per template is appended
      in order. Removing the selected option selects the placeholder again (no change event). */
  function RebuildOptions(u: Ui): (v: Ui)
    requires WellFormed(u)
    ensures WellFormed(v) && Synced(v) && Chosen(v) == ""
    ensures v.options == [u.options[0]] + OptionsFor(u.templates) && v.selectedIndex == 0
    ensures v.(options := u.options, selectedIndex := u.selectedIndex) == u
  {
    var v := u.(options := [u.options[0]] + OptionsFor(u.templates), selectedIndex := 0);
    assert v.options[1..] == OptionsFor(u.templates);
    v
  }

  /** After updateUI apply is consistent exactly when it was disabled: rebuilding the list drops
      the choice without updating the button. */
  lemma RebuildConsistentIff(u: Ui)
    requires WellFormed(u)
    ensures ApplyConsistent(RebuildOptions(u)) <==> RebuildOptions(u).applyDisabled
    ensures ApplyNeedsSelection(u) ==> ApplyNeedsSelection(RebuildOptions(u))
  {
  }

  /** The replies the server sends to GET /api/templates: a list when ok. */
  predicate LoadReplyShape(reply: Reply) {
    reply.Delivered? && IsOk(reply.response.status) ==> reply.response.body.TemplateList?
  }

  /** loadTemplates: an ok reply replaces the snapshot; anything else shows an error. */
  function LoadStep(u: Ui, reply: Reply): (v: Ui)
    requires LoadReplyShape(reply)
    ensures reply.Delivered? && IsOk(reply.response.status) ==> v == u.(templates := reply.response.body.templates)
    ensures !(reply.Delivered? && IsOk(reply.response.status)) ==> v == Notify(u, Error, LoadFailedMessage)
  {
    if reply.Delivered? && IsOk(reply.response.status) then u.(templates := reply.response.body.templates)
    else Notify(u, Error, LoadFailedMessage)
  }

  /** The replies the server sends to POST /api/templates: the created record when ok. */
  predicate AddReplyShape(reply: Reply) {
    reply.Delivered? && IsOk(reply.response.status) ==> reply.response.body.TemplateRecord?
  }

  /** State after the form is submitted, and the body posted (None: no request). */
  datatype AddOutcome = AddOutcome(ui: Ui, request: Option<TemplateForm>)

  /** Whether the POST was answered with an ok status. */
  predicate Accepted(reply: Reply) {
    reply.Delivered? && IsOk(reply.response.status)
  }

  /** The success path of handleAddFeature: the created record is appended to the snapshot, the
      options are rebuilt so the new template's option comes last, and a success notice names it. */
  function TemplateAdded(u: Ui, t: Template): (v: Ui)
    requires WellFormed(u)
    ensures WellFormed(v) && Synced(v) && Chosen(v) == ""
    ensures v.templates == u.templates + [t]
    ensures |v.options| == |u.templates| + 2 && v.options[|u.templates| + 1] == OptionFor(t)
    ensures v.options == [u.options[0]] + OptionsFor(v.templates)
    ensures v.notices == u.notices + [Notice(Success, "Added \"" + t.name + "\" template successfully!")]
    ensures v.(templates := u.templates, options := u.options, selectedIndex := u.selectedIndex, notices := u.notices) == u
  {
    Notify(RebuildOptions(u.(templates := u.templates + [t])), Success, "Added \"" + t.name + "\" template successfully!")
  }

  /** handleAddFeature: a body without `{{selection}}` is refused before any request; otherwise
      the form is posted; an ok reply's record is added; any other reply leaves the snapshot and
      shows an error. */
  function AddFeatureStep(u: Ui, form: TemplateForm, reply: Reply): (o: AddOutcome)
    requires WellFormed(u) && AddReplyShape(reply)
    ensures WellFormed(o.ui)
    ensures o.request.Some? <==> Includes(form.template, Marker)
    ensures o.request.Some? ==> o.request.value == form
    ensures !Includes(form.template, Marker) ==> o.ui == Notify(u, Error, MissingMarkerMessage)
    ensures Includes(form.template, Marker) && Accepted(reply) ==> o.ui == TemplateAdded(u, reply.response.body.record)
    ensures Includes(form.template, Marker) && !Accepted(reply) ==> o.ui == Notify(u, Error, AddFailedMessage)
  {
    if !Includes(form.template, Marker) then AddOutcome(Notify(u, Error, MissingMarkerMessage), None)
    else if Accepted(reply) then AddOutcome(TemplateAdded(u, reply.response.body.record), Some(form))
    else AddOutcome(Notify(u, Error, AddFailedMessage), Some(form))
  }

  /** changeEditorMode. */
  function ModeChanged(u: Ui, language: string): (v: Ui)
    ensures v.editorMode == ModeFor(language) && v.(editorMode := u.editorMode) == u
  {
    u.(editorMode := ModeFor(language))
  }

  // ---------------------------------------------------------------------------------------------
  // Sequences of user events after init
  // ---------------------------------------------------------------------------------------------

  /** What the user can do once the page is up. */
  datatype Event =
    | SelectText(selection: string)                         // mouseup/keyup in the editor
    | ChooseOption(index: nat)                              // change on the template select
    | ClickApply(reply: Reply)                              // the apply button
    | PressKey(ctrlOrMeta: bool, key: string, reply: Reply) // keydown on the document
    | SubmitFeature(form: TemplateForm, reply: Reply)       // the add-feature form
    | PickLanguage(language: string)                        // change on the language select
    | ClickClear                                            // the clear button

  /** Replies as the server sends them. */
  predicate WellShaped(e: Event) {
    match e
    case ClickApply(reply) => CompleteReplyShape(reply)
    case PressKey(_, _, reply) => CompleteReplyShape(reply)
    case SubmitFeature(_, reply) => AddReplyShape(reply)
    case _ => true
  }

  predicate AllWellShaped(events: seq<Event>) {
    forall i :: 0 <= i < |events| ==> WellShaped(events[i])
  }

  /** The handler an event runs; the user can pick only an option that exists, so any other index
      leaves the page as it is. A click on apply and a choice of option are taken even while the
      button or the select is disabled, which the browser does not deliver: the runs considered
      here include every run the page can see, so the properties proved over them hold for the
      page too. */
  function Handle(u: Ui, e: Event): (v: Ui)
    requires WellFormed(u) && WellShaped(e)
    ensures WellFormed(v)
  {
    match e
    case SelectText(selection) => SelectionChanged(u, selection)
    case ChooseOption(index) => if index < |u.options| then TemplateChosen(u, index) else u
    case ClickApply(reply) => ApplyStep(u, reply).ui
    case PressKey(ctrlOrMeta, key, reply) => KeyDownStep(u, ctrlOrMeta, key, reply).ui
    case SubmitFeature(form, reply) => AddFeatureStep(u, form, reply).ui
    case PickLanguage(language) => ModeChanged(u, language)
    case ClickClear => ResultsCleared(u)
  }

  /** Every handler keeps "apply only with a selection". */
  lemma HandleNeedsSelection(u: Ui, e: Event)
    requires WellFormed(u) && WellShaped(e) && ApplyNeedsSelection(u)
    ensures ApplyNeedsSelection(Handle(u, e))
  {
    match e
    case ClickApply(reply) => ApplyChangesOnlyFeed(u, reply);
    case PressKey(ctrlOrMeta, key, reply) => ApplyChangesOnlyFeed(u, reply);
    case _ =>
  }

  function Run(u: Ui, events: seq<Event>): (v: Ui)
    requires WellFormed(u) && AllWellShaped(events)
    ensures WellFormed(v)
    decreases |events|
  {
    if events == [] then u else Run(Handle(u, events[0]), events[1..])
  }

  /** From any state where it holds, "apply only with a selection" survives any run of events. */
  lemma {:induction false} RunNeedsSelection(u: Ui, events: seq<Event>)
    requires WellFormed(u) && ApplyNeedsSelection(u)
    requires AllWellShaped(events)
    ensures ApplyNeedsSelection(Run(u, events))
    decreases |events|
  {
    if events != [] {
      HandleNeedsSelection(u, events[0]);
      assert AllWellShaped(events[1..]) by {
        forall i | 0 <= i < |events[1..]| ensures WellShaped(events[1..][i]) {
          assert events[1..][i] == events[i + 1];
        }
      }
      RunNeedsSelection(Handle(u, events[0]), events[1..]);
    }
  }

  /** The page once init has loaded the templates and built the options: the snapshot is the
      loaded list (or empty when loading failed), one option per template, nothing selected and
      apply disabled. */
  function AfterInit(load: Reply): (u: Ui)
    requires LoadReplyShape(load)
    ensures WellFormed(u) && Synced(u) && Chosen(u) == ""
    ensures u.options == [SelectOption("", NoSelectionLabel, "")] + OptionsFor(u.templates)
    ensures u.templates == (if load.Delivered? && IsOk(load.response.status) then load.response.body.templates else [])
    ensures u.selectedText == "" && u.applyDisabled && u.selectDisabled && u.results == [] && u.placeholderShown
  {
    RebuildOptions(LoadStep(Initial(), load))
  }

  /** After the page has loaded its templates, whatever the user does, the apply button is
      enabled only while there is selected text. */
  lemma PageNeedsSelection(load: Reply, events: seq<Event>)
    requires LoadReplyShape(load)
    requires AllWellShaped(events)
    ensures ApplyNeedsSelection(Run(AfterInit(load), events))
  {
    RunNeedsSelection(AfterInit(load), events);
  }

  // ---------------------------------------------------------------------------------------------
  // The controller object
  // ---------------------------------------------------------------------------------------------

  /** `PACEApp` with the page state it manipulates held in fields. */
  class PaceApp {
    var templates: seq<Template>
    var selectedText: string
    var options: seq<SelectOption>
    var selectedIndex: nat
    var selectDisabled: bool
    var applyDisabled: bool
    var loading: bool
    var results: seq<ResultEntry>
    var placeholderShown: bool
    var editorMode: string
    var notices: seq<Notice>

    function State(): Ui
      reads this
    {
      Ui(templates, selectedText, options, selectedIndex, selectDisabled, applyDisabled,
         loading, results, placeholderShown, editorMode, notices)
    }

    ghost predicate Valid()
      reads this
    {
      WellFormed(State())
    }

    /** `new PACEApp()` up to the point where init awaits the template list. */
    constructor ()
      ensures Valid() && State() == Initial()
    {
      templates, selectedText := [], "";
      options, selectedIndex := [SelectOption("", NoSelectionLabel, "")], 0;
      selectDisabled, applyDisabled, loading := true, true, false;
      results, placeholderShown := [], true;
      editorMode, notices := "javascript", [];
    }

    /** The rest of init: load the templates, then build the options. */
    method Init(reply: Reply)
      requires Valid() && LoadReplyShape(reply)
      modifies this
      ensures Valid() && Synced(State())
      ensures State() == RebuildOptions(LoadStep(old(State()), reply))
    {
      LoadTemplates(reply);
      UpdateUI();
    }

    method ShowNotification(kind: NoticeKind, message: string)
      modifies this`notices
      ensures State() == Notify(old(State()), kind, message)
    {
      notices := notices + [Notice(kind, message)];
    }

    method ShowLoading(show: bool)
      modifies this`loading
      ensures State() == old(State()).(loading := show)
    {
      loading := show;
    }

    method HandleSelection(selection: string)
      requires Valid()
      modifies this`selectedText, this`selectDisabled, this`applyDisabled, this`options
      ensures State() == SelectionChanged(old(State()), selection)
    {
      selectedText := Trim(selection);
      if selectedText != "" {
        selectDisabled := false;
        if options[selectedIndex].value != "" {
          applyDisabled := false;
        }
        options := options[0 := options[0].(text := PlaceholderLabel(selectedText))];
      } else {
        selectDisabled := true;
        applyDisabled := true;
        options := options[0 := options[0].(text := NoSelectionLabel)];
      }
      assert State() == old(State()).(selectedText := selectedText, selectDisabled := selectDisabled,
                                       applyDisabled := applyDisabled, options := options);
    }

    /** The change listener of the template select, after the user picked option `index`. */
    method OnTemplateSelectChange(index: nat)
      requires Valid() && index < |options|
      modifies this`selectedIndex, this`applyDisabled
      ensures State() == TemplateChosen(old(State()), index)
    {
      selectedIndex := index;
      applyDisabled := options[selectedIndex].value == "" || selectedText == "";
    }

    /** The keydown listener for Ctrl/Cmd+Enter; the other shortcuts only open or close the
        add-feature modal. */
    method OnKeyDown(ctrlOrMeta: bool, key: string, reply: Reply) returns (request: Option<string>)
      requires Valid() && CompleteReplyShape(reply)
      modifies this
      ensures Valid()
      ensures ApplyOutcome(State(), request) == KeyDownStep(old(State()), ctrlOrMeta, key, reply)
    {
      request := None;
      if ctrlOrMeta && key == "Enter" && selectedText != "" && options[selectedIndex].value != "" {
        request := ApplyTemplate(reply);
      }
    }

    method ApplyTemplate(reply: Reply) returns (request: Option<string>)
      requires Valid() && CompleteReplyShape(reply)
      modifies this`notices, this`loading, this`results, this`placeholderShown
      ensures ApplyOutcome(State(), request) == ApplyStep(old(State()), reply)
    {
      ghost var before := State();
      if selectedText == "" {
        ShowNotification(Warning, SelectTextMessage);
        return None;
      }
      var templateId := ParseInt(options[selectedIndex].value);
      if templateId.None? || templateId.value == 0 {
        ShowNotification(Warning, SelectTemplateMessage);
        return None;
      }
      var template := FindById(templates, templateId.value);
      if template.None? {
        ShowNotification(Error, TemplateNotFoundMessage);
        return None;
      }
      assert ApplyGuard(before) == Ok(template.value);
      var prompt := RenderPrompt(template.value.template, selectedText);
      request := Some(prompt);
      AwaitCompletion(template.value, reply);
    }

    /** The try/catch/finally of applyTemplate around the request for `template`. */
    method AwaitCompletion(template: Template, reply: Reply)
      requires CompleteReplyShape(reply)
      modifies this`notices, this`loading, this`results, this`placeholderShown
      ensures State() == Settled(old(State()), template, reply)
    {
      ShowLoading(true);
      ghost var pending := State();
      match CompletionOf(reply) {
        case Ok(completion) =>
          DisplayResult(template, selectedText, completion);
          ShowNotification(Success, CompletionSuccessMessage);
          assert State() == Notify(ResultDisplayed(pending, template.name, completion), Success, CompletionSuccessMessage);
        case Err(message) =>
          ShowNotification(Error, "Error: " + message);
      }
      ShowLoading(false);
    }

    /** displayResult(template, originalText, completion); the original text is not shown. */
    method DisplayResult(template: Template, originalText: string, completion: string)
      modifies this`results, this`placeholderShown
      ensures State() == ResultDisplayed(old(State()), template.name, completion)
    {
      if placeholderShown {
        placeholderShown := false;
      }
      results := [ResultEntry(template.name, completion)] + results;
    }

    method ClearResults()
      modifies this`results, this`placeholderShown
      ensures State() == ResultsCleared(old(State()))
    {
      results, placeholderShown := [], true;
    }

    method LoadTemplates(reply: Reply)
      requires LoadReplyShape(reply)
      modifies this`templates, this`notices
      ensures State() == LoadStep(old(State()), reply)
    {
      if reply.Delivered? && IsOk(reply.response.status) {
        templates := reply.response.body.templates;
      } else {
        ShowNotification(Error, LoadFailedMessage);
      }
    }

    /** updateUI: the two loops below, run one after the other. */
    method UpdateUI()
      requires Valid()
      modifies this`options, this`selectedIndex
      ensures State() == RebuildOptions(old(State()))
    {
      RemoveExtraOptions();
      AppendTemplateOptions();
      assert State() == old(State()).(options := [old(options)[0]] + OptionsFor(templates), selectedIndex := 0);
    }

    /** The `while` loop of updateUI: the last child is removed until only the first is left.
        Removing the selected option selects the first one. */
    method RemoveExtraOptions()
      requires Valid()
      modifies this`options, this`selectedIndex
      ensures options == [old(options)[0]] && selectedIndex == 0
    {
      while |options| > 1
        invariant 1 <= |options| && options[0] == old(options)[0]
        invariant selectedIndex < |options|
      {
        if selectedIndex == |options| - 1 {
          selectedIndex := 0;
        }
        options := options[..|options| - 1];
      }
      assert options == [old(options)[0]];
    }

    /** The `forEach` of updateUI: one option per template is appended, in order. */
    method AppendTemplateOptions()
      modifies this`options
      ensures options == old(options) + OptionsFor(templates)
    {
      var i := 0;
      while i < |templates|
        invariant 0 <= i <= |templates|
        invariant options == old(options) + OptionsFor(templates[..i])
      {
        var template := templates[i];
        options := options + [OptionFor(template)];
        OptionsForStep(old(options), templates, i);
        i := i + 1;
      }
      assert templates[..i] == templates;
    }

    /** The submit handler of the add-feature form. */
    method HandleAddFeature(form: TemplateForm, reply: Reply) returns (request: Option<TemplateForm>)
      requires Valid() && AddReplyShape(reply)
      modifies this
      ensures Valid()
      ensures AddOutcome(State(), request) == AddFeatureStep(old(State()), form, reply)
    {
      if !Includes(form.template, Marker) {
        ShowNotification(Error, MissingMarkerMessage);
        return None;
      }
      request := Some(form);
      if Accepted(reply) {
        var newTemplate := reply.response.body.record;
        templates := templates + [newTemplate];
        UpdateUI();
        ShowNotification(Success, "Added \"" + newTemplate.name + "\" template successfully!");
      } else {
        ShowNotification(Error, AddFailedMessage);
      }
    }

    method ChangeEditorMode(language: string)
      modifies this`editorMode
      ensures State() == ModeChanged(old(State()), language)
    {
      editorMode := ModeFor(language);
    }
  }
}
