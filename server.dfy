/**
 * The server of server.js: the in-memory template store (`promptTemplates` and
 * `nextTemplateId`), its three `/api/templates` handlers, and the `/api/complete` handler with
 * the API-key check of `processAICompletion`.
 *
 * The store is a value `Store` with one transition function per handler, which carries the
 * contracts and the lemmas; class `TemplateStore` holds the two module-level variables and its
 * handler methods update them in place and are proved to follow those functions.
 */
module Server {
  import opened Wrappers
  import opened JsStrings
  import opened Api

  /** The server's mutable state: the template list and the id counter. */
  datatype Store = Store(templates: seq<Template>, nextId: int)

  /** New state and HTTP response of one handler. */
  datatype StoreOutcome = StoreOutcome(store: Store, response: Response)

  /** JavaScript falsiness of an optional string field: absent, or the empty string. */
  predicate Falsy(field: Option<string>): (b: bool)
    ensures !b <==> field.Some? && |field.value| > 0
  {
    field.None? || field.value == ""
  }

  /** The store invariant: ids are strictly increasing in list order (so distinct), positive, and
      all below the counter. */
  ghost predicate Inv(s: Store) {
    1 <= s.nextId && StrictlyIncreasing(s.templates) &&
    forall i :: 0 <= i < |s.templates| ==> 1 <= s.templates[i].id < s.nextId
  }

  const RequiredMessage: string := "Name and template are required"
  const NotFoundMessage: string := "Template not found"

  /** The built-in templates. */
  const ExplainCode: Template := Template(1, "Explain Code", "Explains what the selected code does",
    "Please explain what this code does in simple terms:\n\n" + Marker)
  const AddComments: Template := Template(2, "Add Comments", "Adds helpful comments to the code",
    "Add clear, helpful comments to this code. Return only the commented code:\n\n" + Marker)
  const OptimizeCode: Template := Template(3, "Optimize Code", "Suggests optimizations for the selected code",
    "Analyze this code and suggest optimizations or improvements:\n\n" + Marker)
  const FixBugs: Template := Template(4, "Fix Bugs", "Identifies and fixes potential bugs",
    "Review this code for potential bugs and provide a fixed version:\n\n" + Marker)

  /** The four built-in templates with ids 1 to 4, and the counter at 5. */
  function InitialStore(): (s: Store)
    ensures Inv(s)
    ensures s.nextId == 5 && |s.templates| == 4
    ensures forall i :: 0 <= i < 4 ==> s.templates[i].id == i + 1
  {
    Store([ExplainCode, AddComments, OptimizeCode, FixBugs], 5)
  }

  /** Every built-in template body carries the placeholder. */
  lemma InitialTemplatesHaveMarker()
    ensures forall t :: t in InitialStore().templates ==> Includes(t.template, Marker)
  {
    var ts := InitialStore().templates;
    forall i | 0 <= i < 4 ensures Includes(ts[i].template, Marker) {
      var b := ts[i].template;
      var prefix := b[..|b| - |Marker|];
      assert b == prefix + Marker;
      EndsWithMarker(prefix);
    }
  }

  lemma EndsWithMarker(prefix: string)
    ensures Includes(prefix + Marker, Marker)
  {
    var b := prefix + Marker;
    assert b[|prefix|..|prefix| + |Marker|] == Marker;
    assert OccursAt(b, Marker, |prefix|);
    IncludesIffOccurs(b, Marker);
  }

  /** POST /api/templates. A missing or empty name or template is rejected with 400 and changes
      nothing (the body is NOT checked for the placeholder); otherwise the record gets the
      counter's id, the description defaults to the empty string, it is appended, the counter
      moves on by one, and 201 returns the appended record. */
  function Create(s: Store, name: Option<string>, description: Option<string>, template: Option<string>): (o: StoreOutcome)
    ensures Falsy(name) || Falsy(template) ==>
      o == StoreOutcome(s, Response(400, ErrorBody(RequiredMessage, None)))
    ensures !Falsy(name) && !Falsy(template) ==>
      o.response.status == 201 && o.response.body.TemplateRecord? &&
      var t := o.response.body.record;
      o.store.templates == s.templates + [t] && o.store.nextId == s.nextId + 1 &&
      t.id == s.nextId && t.name == name.value && t.template == template.value &&
      t.description == (if Falsy(description) then "" else description.value)
  {
    if Falsy(name) || Falsy(template) then
      StoreOutcome(s, Response(400, ErrorBody(RequiredMessage, None)))
    else
      var t := Template(s.nextId, name.value, if Falsy(description) then "" else description.value, template.value);
      StoreOutcome(Store(s.templates + [t], s.nextId + 1), Response(201, TemplateRecord(t)))
  }

  /** A successful create gives an id above every stored one and keeps the invariant. */
  lemma CreatePreservesInv(s: Store, name: Option<string>, description: Option<string>, template: Option<string>)
    requires Inv(s)
    ensures Inv(Create(s, name, description, template).store)
    ensures var o := Create(s, name, description, template);
            o.response.status == 201 ==> forall t :: t in s.templates ==> t.id < o.response.body.record.id
  {
    var o := Create(s, name, description, template);
    if o.response.status == 201 {
      var ts := o.store.templates;
      var n := |s.templates|;
      assert forall i :: 0 <= i < n ==> ts[i] == s.templates[i];
      assert ts[n].id == s.nextId;
      forall a, b | 0 <= a < b < |ts| ensures ts[a].id < ts[b].id {
        if b == n { assert ts[a].id < s.nextId; }
      }
      forall t | t in s.templates ensures t.id < s.nextId {
        var k :| 0 <= k < n && s.templates[k] == t;
      }
    }
  }

  /** DELETE /api/templates/:id. The id parameter goes through parseInt; when no template has
      the resulting id (NaN matches none) the answer is 404 and nothing changes; otherwise the
      first template with that id is spliced out and the answer is 204. The counter is never
      touched. */
  function Delete(s: Store, idParam: string): (o: StoreOutcome)
    ensures o.store.nextId == s.nextId
    ensures o.response.status == 204 <==>
      ParseInt(idParam).Some? && exists i :: 0 <= i < |s.templates| && s.templates[i].id == ParseInt(idParam).value
    ensures o.response.status != 204 ==> o == StoreOutcome(s, Response(404, ErrorBody(NotFoundMessage, None)))
    ensures o.response.status == 204 ==> o.response.body == NoContent && |o.store.templates| == |s.templates| - 1
  {
    var index := match ParseInt(idParam)
      case None => None
      case Some(id) => FindIndex(s.templates, id);
    if index.None? then
      StoreOutcome(s, Response(404, ErrorBody(NotFoundMessage, None)))
    else
      StoreOutcome(s.(templates := RemoveAt(s.templates, index.value)), Response(204, NoContent))
  }

  /** A successful delete removes exactly the template with the id, keeps the order of the rest
      and keeps the invariant. */
  lemma DeleteRemovesExactly(s: Store, idParam: string)
    requires Inv(s)
    requires Delete(s, idParam).response.status == 204
    ensures var o := Delete(s, idParam);
            o.store.templates == Without(s.templates, ParseInt(idParam).value) && Inv(o.store)
    ensures forall t :: t in Delete(s, idParam).store.templates ==> t.id != ParseInt(idParam).value
  {
    var id := ParseInt(idParam).value;
    var i := FindIndex(s.templates, id).value;
    var ts := Delete(s, idParam).store.templates;
    assert ts == RemoveAt(s.templates, i);
    RemoveFoundIsWithout(s.templates, id);
    forall t ensures t in ts ==> t.id != id {
      WithoutMembers(s.templates, id, t);
    }
    RemoveAtIncreasing(s.templates, i);
  }

  // ---------------------------------------------------------------------------------------------
  // Sequences of requests
  // ---------------------------------------------------------------------------------------------

  /** The three template requests. */
  datatype Request =
    | GetTemplates
    | PostTemplate(name: Option<string>, description: Option<string>, template: Option<string>)
    | DeleteTemplate(id: string)

  /** One request handled: GET returns the current list exactly, in insertion order. */
  function Step(s: Store, req: Request): (o: StoreOutcome)
    ensures req.GetTemplates? ==> o.store == s && o.response == Response(200, TemplateList(s.templates))
    ensures o.store.nextId >= s.nextId
  {
    match req
    case GetTemplates => StoreOutcome(s, Response(200, TemplateList(s.templates)))
    case PostTemplate(name, description, template) => Create(s, name, description, template)
    case DeleteTemplate(id) => Delete(s, id)
  }

  /** The state after a sequence of requests, handled one at a time. */
  function RunStore(s: Store, reqs: seq<Request>): Store
    decreases |reqs|
  {
    if reqs == [] then s else RunStore(Step(s, reqs[0]).store, reqs[1..])
  }

  /** The ids handed out by the successful creates of a sequence of requests, in order. */
  function CreatedIds(s: Store, reqs: seq<Request>): seq<int>
    decreases |reqs|
  {
    if reqs == [] then []
    else
      var o := Step(s, reqs[0]);
      var rest := CreatedIds(o.store, reqs[1..]);
      if o.response.status == 201 then [o.response.body.record.id] + rest else rest
  }

  /** Every handler keeps the store invariant. */
  lemma StepPreservesInv(s: Store, req: Request)
    requires Inv(s)
    ensures Inv(Step(s, req).store)
  {
    match req
    case GetTemplates =>
    case PostTemplate(name, description, template) => CreatePreservesInv(s, name, description, template);
    case DeleteTemplate(id) =>
      if Delete(s, id).response.status == 204 { DeleteRemovesExactly(s, id); }
  }

  /** Every sequence of requests keeps the store invariant. */
  lemma {:induction false} RunPreservesInv(s: Store, reqs: seq<Request>)
    requires Inv(s)
    ensures Inv(RunStore(s, reqs))
    decreases |reqs|
  {
    if reqs != [] {
      StepPreservesInv(s, reqs[0]);
      RunPreservesInv(Step(s, reqs[0]).store, reqs[1..]);
    }
  }

  /** Ids are never reused: created ids are strictly increasing, at least the counter they started
      from and below the final counter, whatever deletes come in between. */
  lemma {:induction false} CreatedIdsIncrease(s: Store, reqs: seq<Request>)
    ensures forall i, j :: 0 <= i < j < |CreatedIds(s, reqs)| ==> CreatedIds(s, reqs)[i] < CreatedIds(s, reqs)[j]
    ensures forall i :: 0 <= i < |CreatedIds(s, reqs)| ==>
              s.nextId <= CreatedIds(s, reqs)[i] < RunStore(s, reqs).nextId
    ensures s.nextId <= RunStore(s, reqs).nextId
    decreases |reqs|
  {
    if reqs != [] {
      var o := Step(s, reqs[0]);
      CreatedIdsIncrease(o.store, reqs[1..]);
      assert RunStore(s, reqs) == RunStore(o.store, reqs[1..]);
      if o.response.status == 201 {
        assert reqs[0].PostTemplate?;
        assert o == Create(s, reqs[0].name, reqs[0].description, reqs[0].template);
        assert o.response.body.record.id == s.nextId && o.store.nextId == s.nextId + 1;
        var rest := CreatedIds(o.store, reqs[1..]);
        assert CreatedIds(s, reqs) == [s.nextId] + rest;
        forall j | 0 <= j < |rest| ensures s.nextId < rest[j] {
          assert o.store.nextId <= rest[j];
        }
      }
    }
  }

  /** No id handed out later equals the id of a template present earlier, deleted ones included. */
  lemma NeverReused(s: Store, reqs: seq<Request>, t: Template)
    requires Inv(s)
    requires t in s.templates
    ensures t.id !in CreatedIds(s, reqs)
  {
    CreatedIdsIncrease(s, reqs);
  }

  // ---------------------------------------------------------------------------------------------
  // /api/complete
  // ---------------------------------------------------------------------------------------------

  /** What the completion provider answers to a prompt: the first choice's message content, or
      an error carrying the provider's message. */
  datatype ProviderReply = Completed(content: string) | ProviderFailed(message: string)

  const MissingKeyMessage: string := "OpenAI API key not configured"
  const PromptRequiredMessage: string := "Prompt is required"
  const CompletionFailedMessage: string := "Failed to process AI completion"

  /** processAICompletion: throws when the API key is not set, before any provider call;
      otherwise sends the prompt and returns the provider's answer or rethrows its error. */
  function ProcessAICompletion(prompt: string, apiKey: Option<string>, provider: string -> ProviderReply): (r: Result<string, string>)
    ensures Falsy(apiKey) ==> r == Err(MissingKeyMessage)
    ensures !Falsy(apiKey) ==> (r.Ok? <==> provider(prompt).Completed?)
    ensures !Falsy(apiKey) && r.Ok? ==> r.value == provider(prompt).content
    ensures !Falsy(apiKey) && r.Err? ==> r.error == provider(prompt).message
  {
    if Falsy(apiKey) then Err(MissingKeyMessage)
    else match provider(prompt)
      case Completed(content) => Ok(content)
      case ProviderFailed(message) => Err(message)
  }

  /** POST /api/complete: 400 for a missing or empty prompt; 200 with the completion; 500 with
      the thrown message as `details` when processAICompletion fails. */
  function Complete(prompt: Option<string>, apiKey: Option<string>, provider: string -> ProviderReply): (r: Response)
    ensures Falsy(prompt) ==> r == Response(400, ErrorBody(PromptRequiredMessage, None))
    ensures !Falsy(prompt) && Falsy(apiKey) ==>
      r == Response(500, ErrorBody(CompletionFailedMessage, Some(MissingKeyMessage)))
    ensures r.status == 200 <==> !Falsy(prompt) && !Falsy(apiKey) && provider(prompt.value).Completed?
    ensures r.status == 200 ==> r.body == CompletionText(provider(prompt.value).content)
    ensures r.status != 200 ==> r.body.ErrorBody? && r.body.error != ""
    ensures !Falsy(prompt) && !Falsy(apiKey) && provider(prompt.value).ProviderFailed? ==>
      r == Response(500, ErrorBody(CompletionFailedMessage, Some(provider(prompt.value).message)))
  {
    if Falsy(prompt) then Response(400, ErrorBody(PromptRequiredMessage, None))
    else match ProcessAICompletion(prompt.value, apiKey, provider)
      case Ok(completion) => Response(200, CompletionText(completion))
      case Err(message) => Response(500, ErrorBody(CompletionFailedMessage, Some(message)))
  }

  /** A rejected prompt or a missing key never reaches the provider: the response is the same
      whatever the provider would have answered. */
  lemma CompleteRejectsBeforeProvider(prompt: Option<string>, apiKey: Option<string>,
                                      p1: string -> ProviderReply, p2: string -> ProviderReply)
    requires Falsy(prompt) || Falsy(apiKey)
    ensures Complete(prompt, apiKey, p1) == Complete(prompt, apiKey, p2)
  {
  }

  /** Only the prompt itself is sent: providers that answer it alike give the same response. */
  lemma CompleteSendsPrompt(prompt: Option<string>, apiKey: Option<string>,
                            p1: string -> ProviderReply, p2: string -> ProviderReply)
    requires prompt.Some? && p1(prompt.value) == p2(prompt.value)
    ensures Complete(prompt, apiKey, p1) == Complete(prompt, apiKey, p2)
  {
  }

  // ---------------------------------------------------------------------------------------------
  // The store as the handlers mutate it
  // ---------------------------------------------------------------------------------------------

  /** The module-level `promptTemplates` array and `nextTemplateId` counter with the handlers
      that read and update them. */
  class TemplateStore {
    var promptTemplates: seq<Template>
    var nextTemplateId: int

    function State(): Store
      reads this
    {
      Store(promptTemplates, nextTemplateId)
    }

    ghost predicate Valid()
      reads this
    {
      Inv(State())
    }

    /** The array as initialised at start-up. */
    constructor ()
      ensures Valid() && State() == InitialStore()
    {
      promptTemplates := InitialStore().templates;
      nextTemplateId := 5;
    }

    /** GET /api/templates: the current list, exactly and in insertion order, which is also
        increasing id order. */
    method HandleGet() returns (r: Response)
      requires Valid()
      ensures r == Response(200, TemplateList(promptTemplates))
      ensures StrictlyIncreasing(r.body.templates)
    {
      r := Response(200, TemplateList(promptTemplates));
    }

    /** POST /api/templates, with `push` and `nextTemplateId++`. */
    method HandlePost(name: Option<string>, description: Option<string>, template: Option<string>) returns (r: Response)
      requires Valid()
      modifies this
      ensures Valid()
      ensures StoreOutcome(State(), r) == Create(old(State()), name, description, template)
    {
      if Falsy(name) || Falsy(template) {
        return Response(400, ErrorBody(RequiredMessage, None));
      }
      var newTemplate := Template(nextTemplateId, name.value,
                                  if Falsy(description) then "" else description.value, template.value);
      nextTemplateId := nextTemplateId + 1;
      promptTemplates := promptTemplates + [newTemplate];
      r := Response(201, TemplateRecord(newTemplate));
      CreatePreservesInv(old(State()), name, description, template);
    }

    /** DELETE /api/templates/:id, with `findIndex` and `splice`. */
    method HandleDelete(id: string) returns (r: Response)
      requires Valid()
      modifies this
      ensures Valid()
      ensures StoreOutcome(State(), r) == Delete(old(State()), id)
    {
      var templateId := ParseInt(id);
      var index := if templateId.None? then None else FindIndex(promptTemplates, templateId.value);
      if index.None? {
        return Response(404, ErrorBody(NotFoundMessage, None));
      }
      promptTemplates := promptTemplates[..index.value] + promptTemplates[index.value + 1..];
      r := Response(204, NoContent);
      DeleteRemovesExactly(old(State()), id);
    }
  }
}
