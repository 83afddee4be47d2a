/**
 * The browser and the server together. Each request the page sends is answered by the server's
 * handler for it, as one atomic round trip: applyTemplate's POST /api/complete, init's
 * GET /api/templates and handleAddFeature's POST /api/templates. On top of these sit
 * walk-throughs: ids after a delete, prompt rendering, a missing API key, and two
 * applies in a row.
 */
module Session {
  import opened Wrappers
  import opened JsStrings
  import opened Api
  import Server
  import Client

  // ---------------------------------------------------------------------------------------------
  // The server's answers have the shapes the page reads
  // ---------------------------------------------------------------------------------------------

  /** Every answer of POST /api/complete carries a completion when its status is ok and an error
      body otherwise. */
  lemma CompleteRepliesWellShaped(prompt: Option<string>, apiKey: Option<string>,
                                  provider: string -> Server.ProviderReply)
    ensures Client.CompleteReplyShape(Client.Delivered(Server.Complete(prompt, apiKey, provider)))
  {
  }

  /** Every answer of POST /api/templates carries the created record when its status is ok. */
  lemma CreateRepliesWellShaped(s: Server.Store, name: Option<string>, description: Option<string>,
                                template: Option<string>)
    ensures Client.AddReplyShape(Client.Delivered(Server.Create(s, name, description, template).response))
  {
  }

  // ---------------------------------------------------------------------------------------------
  // applyTemplate against /api/complete
  // ---------------------------------------------------------------------------------------------

  /** applyTemplate whose request, if it sends one, is answered by the server's /api/complete
      handler with the given key and provider. The request does not depend on the answer: an
      apply that fails a guard sends nothing and only shows its notice; otherwise the prompt of
      the chosen template is sent. Either way the snapshot, the selection and the controls stay
      as they were. */
  function ApplyOnServer(u: Client.Ui, apiKey: Option<string>, provider: string -> Server.ProviderReply): (o: Client.ApplyOutcome)
    requires Client.WellFormed(u)
    ensures Client.WellFormed(o.ui)
    ensures o.request.Some? <==> Client.ApplyGuard(u).Ok?
    ensures Client.ApplyGuard(u).Err? ==> o.ui.(notices := u.notices) == u && |o.ui.notices| == |u.notices| + 1
    ensures Client.ApplyGuard(u).Ok? ==>
              o.request == Some(Client.RenderPrompt(Client.ApplyGuard(u).value.template, u.selectedText))
    ensures o.ui.(results := u.results, placeholderShown := u.placeholderShown,
                  notices := u.notices, loading := u.loading) == u
  {
    match Client.ApplyGuard(u)
    case Err(_) =>
      Client.ApplyChangesOnlyFeed(u, Client.NetworkError(""));
      Client.ApplyStep(u, Client.NetworkError(""))
    case Ok(t) =>
      var prompt := Client.RenderPrompt(t.template, u.selectedText);
      CompleteRepliesWellShaped(Some(prompt), apiKey, provider);
      Client.ApplyChangesOnlyFeed(u, Client.Delivered(Server.Complete(Some(prompt), apiKey, provider)));
      Client.ApplyStep(u, Client.Delivered(Server.Complete(Some(prompt), apiKey, provider)))
  }

  /** A server without an API key answers 500 and the page shows the response's `error` field
      (not its `details`); an empty prompt, which the `$`-patterns can produce, is answered 400
      before the key is looked at. Either way the feed is left alone and loading ends off. */
  lemma ApplyOnServerMissingKey(u: Client.Ui, apiKey: Option<string>, provider: string -> Server.ProviderReply)
    requires Client.WellFormed(u) && Client.ApplyGuard(u).Ok? && Server.Falsy(apiKey)
    ensures var o := ApplyOnServer(u, apiKey, provider);
            !o.ui.loading && o.ui.results == u.results && o.ui.placeholderShown == u.placeholderShown &&
            o.ui.notices == u.notices + [Client.Notice(Client.Error, "Error: " +
              if o.request.value == "" then Server.PromptRequiredMessage else Server.CompletionFailedMessage)]
  {
    var t := Client.ApplyGuard(u).value;
    var prompt := Client.RenderPrompt(t.template, u.selectedText);
    var response := Server.Complete(Some(prompt), apiKey, provider);
    var message := if prompt == "" then Server.PromptRequiredMessage else Server.CompletionFailedMessage;
    assert response.status != 200 && response.body.ErrorBody? && response.body.error == message;
    var reply := Client.Delivered(response);
    CompleteRepliesWellShaped(Some(prompt), apiKey, provider);
    assert ApplyOnServer(u, apiKey, provider) == Client.ApplyStep(u, reply);
    assert Client.CompletionOf(reply) == Err(message);
  }

  /** With a key and a non-empty prompt that the provider completes, exactly one entry, the
      template's name with the provider's text, goes on top of the feed, and loading ends off. */
  lemma ApplyOnServerCompleted(u: Client.Ui, apiKey: Option<string>, provider: string -> Server.ProviderReply)
    requires Client.WellFormed(u) && Client.ApplyGuard(u).Ok? && !Server.Falsy(apiKey)
    requires var prompt := Client.RenderPrompt(Client.ApplyGuard(u).value.template, u.selectedText);
             prompt != "" && provider(prompt).Completed?
    ensures var o := ApplyOnServer(u, apiKey, provider);
            !o.ui.loading && !o.ui.placeholderShown &&
            o.ui.results == [Client.ResultEntry(Client.ApplyGuard(u).value.name,
                                                provider(o.request.value).content)] + u.results
  {
    var t := Client.ApplyGuard(u).value;
    var prompt := Client.RenderPrompt(t.template, u.selectedText);
    var response := Server.Complete(Some(prompt), apiKey, provider);
    assert response == Response(200, CompletionText(provider(prompt).content));
    var reply := Client.Delivered(response);
    CompleteRepliesWellShaped(Some(prompt), apiKey, provider);
    assert ApplyOnServer(u, apiKey, provider) == Client.ApplyStep(u, reply);
    assert Client.CompletionOf(reply) == Ok(provider(prompt).content);
  }

  /** A server without an API key: whatever the page applies, the feed and everything but the
      notices and the loading flag stay as they were, and the apply ends with one warning or
      error notice. */
  lemma MissingKeyNeverAddsResults(u: Client.Ui, provider: string -> Server.ProviderReply)
    requires Client.WellFormed(u)
    ensures var o := ApplyOnServer(u, None, provider);
            o.ui.(notices := u.notices, loading := u.loading) == u &&
            |o.ui.notices| == |u.notices| + 1 &&
            o.ui.notices[|u.notices|].kind in {Client.Warning, Client.Error}
  {
    if Client.ApplyGuard(u).Ok? {
      ApplyOnServerMissingKey(u, None, provider);
    }
  }

  // ---------------------------------------------------------------------------------------------
  // init against GET /api/templates
  // ---------------------------------------------------------------------------------------------

  /** The page after init, with the list the server returns for GET /api/templates. */
  function Loaded(s: Server.Store): (u: Client.Ui)
    ensures Client.WellFormed(u) && Client.Synced(u)
    ensures u.templates == s.templates && |u.options| == |s.templates| + 1
    ensures u.selectedText == "" && u.applyDisabled && u.selectDisabled && u.results == [] && u.placeholderShown
  {
    Client.AfterInit(Client.Delivered(Server.Step(s, Server.GetTemplates).response))
  }

  /** After init, selecting text and choosing the option of the k-th stored template: the page
      still shows the store's list, that option is chosen and apply is enabled. */
  lemma LoadedChosen(s: Server.Store, selection: string, k: nat)
    requires k < |s.templates| && s.templates[k].id != 0 && Trim(selection) != ""
    ensures var u := Client.TemplateChosen(Client.SelectionChanged(Loaded(s), selection), k + 1);
            Client.WellFormed(u) && Client.Synced(u) && u.selectedIndex == k + 1 &&
            u.templates == s.templates && u.selectedText == Trim(selection) && !u.applyDisabled
  {
    var u0 := Loaded(s);
    var u1 := Client.SelectionChanged(u0, selection);
    var u := Client.TemplateChosen(u1, k + 1);
    assert u.options[1..] == u0.options[1..];
    assert u.options[k + 1] == Client.OptionFor(s.templates[k]);
    assert Client.Chosen(u) == IntToString(s.templates[k].id);
  }

  /** After init, selecting text and choosing the option of the k-th stored template enables
      apply, and applying sends exactly that template's body with its first placeholder replaced
      by the trimmed selection. */
  lemma LoadedChooseApply(s: Server.Store, selection: string, k: nat, reply: Client.Reply)
    requires Server.Inv(s) && k < |s.templates| && Trim(selection) != ""
    requires Client.CompleteReplyShape(reply)
    ensures var u := Client.TemplateChosen(Client.SelectionChanged(Loaded(s), selection), k + 1);
            !u.applyDisabled &&
            Client.ApplyStep(u, reply).request == Some(Client.RenderPrompt(s.templates[k].template, Trim(selection)))
  {
    assert s.templates[k].id != 0;
    LoadedChosen(s, selection, k);
    Client.ChosenOptionApplies(Client.TemplateChosen(Client.SelectionChanged(Loaded(s), selection), k + 1), reply);
  }

  // ---------------------------------------------------------------------------------------------
  // handleAddFeature against POST /api/templates
  // ---------------------------------------------------------------------------------------------

  /** The page and the server after the add-feature form is submitted: a body without the
      placeholder is refused on the page and the server is not asked; otherwise the form's three
      strings are posted and the page reads the server's answer. */
  datatype AddRoundTrip = AddRoundTrip(page: Client.AddOutcome, store: Server.Store)

  function AddOnServer(u: Client.Ui, s: Server.Store, form: Client.TemplateForm): (o: AddRoundTrip)
    requires Client.WellFormed(u)
    ensures !Includes(form.template, Marker) ==> o.store == s && o.page.request.None? && o.page.ui.templates == u.templates
    ensures Includes(form.template, Marker) && (form.name == "" || form.template == "") ==>
              o.store == s && o.page.ui.templates == u.templates
    ensures Includes(form.template, Marker) && form.name != "" ==>
              o.store.templates == s.templates + [Template(s.nextId, form.name, form.description, form.template)] &&
              o.store.nextId == s.nextId + 1 &&
              o.page.ui.templates == u.templates + [Template(s.nextId, form.name, form.description, form.template)]
  {
    if !Includes(form.template, Marker) then
      AddRoundTrip(Client.AddFeatureStep(u, form, Client.NetworkError("")), s)
    else
      var created := Server.Create(s, Some(form.name), Some(form.description), Some(form.template));
      CreateRepliesWellShaped(s, Some(form.name), Some(form.description), Some(form.template));
      AddRoundTrip(Client.AddFeatureStep(u, form, Client.Delivered(created.response)), created.store)
  }

  /** A page whose snapshot is the server's list still mirrors it after submitting the form,
      whatever the form holds, and the server keeps its invariant. */
  lemma AddKeepsSnapshotInSync(u: Client.Ui, s: Server.Store, form: Client.TemplateForm)
    requires Client.WellFormed(u) && Server.Inv(s) && u.templates == s.templates
    ensures AddOnServer(u, s, form).page.ui.templates == AddOnServer(u, s, form).store.templates
    ensures Server.Inv(AddOnServer(u, s, form).store)
  {
    if Includes(form.template, Marker) {
      Server.CreatePreservesInv(s, Some(form.name), Some(form.description), Some(form.template));
      assert form.template != "" by {
        assert IndexOf(form.template, Marker).Some?;
        assert OccursAt(form.template, Marker, IndexOf(form.template, Marker).value);
      }
    }
  }

  // ---------------------------------------------------------------------------------------------
  // Walk-throughs
  // ---------------------------------------------------------------------------------------------

  /** Create, delete what was created, create again: the second record gets the next id, not the
      deleted one, and the deleted id is gone from the list. */
  lemma CreateDeleteCreate(s: Server.Store, name: string, body: string)
    requires Server.Inv(s) && name != "" && body != ""
    ensures var first := Server.Create(s, Some(name), None, Some(body));
            var gone := Server.Delete(first.store, IntToString(s.nextId));
            var second := Server.Create(gone.store, Some(name), None, Some(body));
            first.response == Response(201, TemplateRecord(Template(s.nextId, name, "", body))) &&
            gone.response.status == 204 && gone.store.templates == s.templates &&
            second.response.status == 201 && second.response.body.record.id == s.nextId + 1 &&
            second.store.templates == s.templates + [Template(s.nextId + 1, name, "", body)]
  {
    var first := Server.Create(s, Some(name), None, Some(body));
    var t := Template(s.nextId, name, "", body);
    assert first.store.templates == s.templates + [t];
    Server.CreatePreservesInv(s, Some(name), None, Some(body));
    ParseIntOfIntToString(s.nextId);
    var ts := first.store.templates;
    assert ts[|ts| - 1].id == s.nextId;
    var gone := Server.Delete(first.store, IntToString(s.nextId));
    assert gone.response.status == 204;
    Server.DeleteRemovesExactly(first.store, IntToString(s.nextId));
    assert forall x :: x in s.templates ==> x.id != s.nextId by {
      forall x | x in s.templates ensures x.id != s.nextId {
        var j :| 0 <= j < |s.templates| && s.templates[j] == x;
      }
    }
    WithoutAbsent(s.templates, s.nextId);
    WithoutAppend(s.templates, t);
  }

  /** Removing the id of the last template, when no earlier one carries it, gives back the list
      before it was appended. */
  lemma {:induction false} WithoutAppend(ts: seq<Template>, t: Template)
    requires Without(ts, t.id) == ts
    ensures Without(ts + [t], t.id) == ts
  {
    if ts == [] {
      assert [t][1..] == [];
    } else {
      assert (ts + [t])[1..] == ts[1..] + [t];
      if ts[0].id == t.id {
        WithoutMembers(ts, t.id, ts[0]);
        assert false;
      } else {
        assert Without(ts, t.id) == [ts[0]] + Without(ts[1..], t.id);
        WithoutAppend(ts[1..], t);
      }
    }
  }

  /** With the four built-in templates: the first user template gets id 5; once it is deleted
      the next one gets 6. */
  lemma FirstIdsAfterStart()
    ensures var first := Server.Create(Server.InitialStore(), Some("Doc"), None, Some("Document: " + Marker));
            var second := Server.Create(Server.Delete(first.store, "5").store, Some("Doc"), None, Some("Document: " + Marker));
            first.response.body.record.id == 5 && second.response.body.record.id == 6
  {
    assert IntToString(5) == "5";
    CreateDeleteCreate(Server.InitialStore(), "Doc", "Document: " + Marker);
  }

  /** A template body whose first placeholder has no `{` before it: the selection takes the
      place of that placeholder, and the rest of the body follows verbatim. */
  lemma RenderAfterPrefix(prefix: string, suffix: string, selected: string)
    requires '{' !in prefix && '$' !in selected
    ensures Client.RenderPrompt(prefix + Marker + suffix, selected) == prefix + selected + suffix
  {
    var body := prefix + Marker + suffix;
    assert body[|prefix|..|prefix| + |Marker|] == Marker;
    forall j | 0 <= j < |prefix| ensures body[j] != Marker[0] {
      assert body[j] == prefix[j];
    }
    IndexOfAt(body, Marker, |prefix|);
    Client.RenderPromptFirstOnly(body, selected, |prefix|);
    assert body[..|prefix|] == prefix;
    assert body[|prefix| + |Marker|..] == suffix;
  }

  /** The same for a body that ends with its first placeholder. */
  lemma RenderAfterPrefixAtEnd(prefix: string, selected: string)
    requires '{' !in prefix && '$' !in selected
    ensures Client.RenderPrompt(prefix + Marker, selected) == prefix + selected
  {
    RenderAfterPrefix(prefix, "", selected);
    assert prefix + Marker + "" == prefix + Marker;
    assert prefix + selected + "" == prefix + selected;
  }

  /** The walk-through of rendering: the selected code takes the placeholder's place. */
  lemma RenderExplain()
    ensures Client.RenderPrompt("Explain: " + Marker, "function foo(){}") == "Explain: " + "function foo(){}"
  {
    RenderAfterPrefixAtEnd("Explain: ", "function foo(){}");
  }

  /** A selection that itself reads `{{selection}}` is inserted as text and not expanded again:
      the prompt reads exactly like the template body. */
  lemma RenderSelectionIsMarker()
    ensures Client.RenderPrompt("Explain: " + Marker, Marker) == "Explain: " + Marker
  {
    RenderAfterPrefixAtEnd("Explain: ", Marker);
  }

  /** Of two placeholders only the first is replaced. */
  lemma RenderTwoMarkers()
    ensures Client.RenderPrompt("A " + Marker + " B " + Marker, "x") == "A x B " + Marker
  {
    RenderAfterPrefix("A ", " B " + Marker, "x");
    assert "A " + Marker + (" B " + Marker) == "A " + Marker + " B " + Marker;
  }

  /** Choosing the i-th option and applying it, answered with the completion c. */
  function ApplyChosen(u: Client.Ui, i: nat, c: string): (a: Client.Ui)
    requires Client.WellFormed(u) && 0 < i < |u.options|
    ensures Client.WellFormed(a) && |a.options| == |u.options|
  {
    Client.ApplyStep(Client.TemplateChosen(u, i), Client.Delivered(Response(200, CompletionText(c)))).ui
  }

  /** Choosing the option of the (i-1)-th snapshot template and applying, answered with a
      completion, puts one entry for that template on top of the feed and leaves the snapshot,
      the options and the selection as they were. */
  lemma ChooseAndApply(u: Client.Ui, i: nat, c: string)
    requires Client.WellFormed(u) && Client.Synced(u) && StrictlyIncreasing(u.templates) && u.selectedText != ""
    requires 0 < i < |u.options| && u.templates[i - 1].id != 0
    ensures var a := ApplyChosen(u, i, c);
            Client.WellFormed(a) && Client.Synced(a) && a.templates == u.templates && a.options == u.options &&
            a.selectedText == u.selectedText &&
            a.results == [Client.ResultEntry(u.templates[i - 1].name, c)] + u.results
  {
    var reply := Client.Delivered(Response(200, CompletionText(c)));
    var u1 := Client.TemplateChosen(u, i);
    assert Client.Synced(u1);
    Client.ChosenOptionApplies(u1, reply);
    Client.ApplyChangesOnlyFeed(u1, reply);
    assert Client.CompletionOf(reply) == Ok(c);
    assert Client.ApplyStep(u1, reply).ui == Client.Settled(u1, u.templates[i - 1], reply);
  }

  /** A second apply on a state that agrees with u on everything but one entry e1 on top of the
      feed puts its own entry above e1. */
  lemma ApplyAgain(u: Client.Ui, a: Client.Ui, j: nat, c: string, e1: Client.ResultEntry)
    requires Client.WellFormed(a) && Client.Synced(a) && StrictlyIncreasing(a.templates) && a.selectedText != ""
    requires a.templates == u.templates && 0 < j < |a.options| && u.templates[j - 1].id != 0
    requires a.results == [e1] + u.results
    ensures ApplyChosen(a, j, c).results == [Client.ResultEntry(u.templates[j - 1].name, c), e1] + u.results
  {
    ChooseAndApply(a, j, c);
    assert [Client.ResultEntry(u.templates[j - 1].name, c)] + ([e1] + u.results)
        == [Client.ResultEntry(u.templates[j - 1].name, c), e1] + u.results;
  }

  /** Two applies in a row against the same selection, choosing the i-th and then the j-th
      option, both answered with a completion: two entries go on top of the feed, the later
      one first. */
  lemma TwoAppliesNewestFirst(u: Client.Ui, i: nat, j: nat, c1: string, c2: string)
    requires Client.WellFormed(u) && Client.Synced(u) && StrictlyIncreasing(u.templates) && u.selectedText != ""
    requires 0 < i < |u.options| && 0 < j < |u.options|
    requires u.templates[i - 1].id != 0 && u.templates[j - 1].id != 0
    ensures ApplyChosen(ApplyChosen(u, i, c1), j, c2).results ==
            [Client.ResultEntry(u.templates[j - 1].name, c2), Client.ResultEntry(u.templates[i - 1].name, c1)] + u.results
  {
    ChooseAndApply(u, i, c1);
    ApplyAgain(u, ApplyChosen(u, i, c1), j, c2, Client.ResultEntry(u.templates[i - 1].name, c1));
  }
}
