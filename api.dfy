/**
 * What the server and the browser exchange over `/api/templates` and `/api/complete`: the
 * prompt-template record, the JSON bodies and the HTTP responses, and the lookups by id that
 * both sides perform on a list of templates (`findIndex`, `find`, `splice`).
 */
module Api {
  import opened Wrappers

  /** The placeholder that a template body marks the selection's place with. */
  const Marker: string := "{{selection}}"

  /** A prompt template as stored by the server and as the browser receives it in JSON. */
  datatype Template = Template(id: int, name: string, description: string, template: string)

  /** The JSON bodies the handlers send. `ErrorBody.details` is present only on the completion
      failure response. */
  datatype Body =
    | NoContent
    | TemplateList(templates: seq<Template>)
    | TemplateRecord(record: Template)
    | CompletionText(completion: string)
    | ErrorBody(error: string, details: Option<string>)

  datatype Response = Response(status: int, body: Body)

  /** `response.ok` in the Fetch API: a status in the range 200-299. The statuses the server
      sends on success (200, 201, 204) are ok; those it sends on failure (400, 404, 500) are not. */
  predicate IsOk(status: int): (ok: bool)
    ensures status == 200 || status == 201 || status == 204 ==> ok
    ensures status == 400 || status == 404 || status == 500 ==> !ok
  {
    200 <= status <= 299
  }

  /** `ts.findIndex(t => t.id === id)`: the first index whose template has the id. */
  function FindIndex(ts: seq<Template>, id: int): (r: Option<nat>)
    ensures r.Some? ==> r.value < |ts| && ts[r.value].id == id
    ensures r.Some? ==> forall j :: 0 <= j < r.value ==> ts[j].id != id
    ensures r.None? <==> forall j :: 0 <= j < |ts| ==> ts[j].id != id
  {
    if ts == [] then None
    else if ts[0].id == id then Some(0)
    else match FindIndex(ts[1..], id)
      case None => None
      case Some(k) => Some(k + 1)
  }

  /** `ts.find(t => t.id === id)`: the first template with the id. */
  function FindById(ts: seq<Template>, id: int): (r: Option<Template>)
    ensures r.Some? ==> r.value in ts && r.value.id == id
    ensures r.Some? ==> FindIndex(ts, id).Some? && r.value == ts[FindIndex(ts, id).value]
    ensures r.None? <==> forall t :: t in ts ==> t.id != id
  {
    match FindIndex(ts, id)
    case None => None
    case Some(i) => Some(ts[i])
  }

  /** `ts.splice(i, 1)` viewed on the list: the element at i removed, the others in order. */
  function RemoveAt(ts: seq<Template>, i: nat): (r: seq<Template>)
    requires i < |ts|
    ensures |r| == |ts| - 1
    ensures forall j :: 0 <= j < i ==> r[j] == ts[j]
    ensures forall j :: i <= j < |r| ==> r[j] == ts[j + 1]
  {
    ts[..i] + ts[i + 1..]
  }

  /** Splicing out one element keeps ids strictly increasing. */
  lemma RemoveAtIncreasing(ts: seq<Template>, i: nat)
    requires StrictlyIncreasing(ts) && i < |ts|
    ensures StrictlyIncreasing(RemoveAt(ts, i))
  {
    var r := RemoveAt(ts, i);
    forall a, b | 0 <= a < b < |r| ensures r[a].id < r[b].id {
      var a' := if a < i then a else a + 1;
      var b' := if b < i then b else b + 1;
      assert r[a] == ts[a'] && r[b] == ts[b'];
    }
  }

  /** Reference definition of "every template except those with the id", in order. */
  function Without(ts: seq<Template>, id: int): seq<Template> {
    if ts == [] then []
    else if ts[0].id == id then Without(ts[1..], id)
    else [ts[0]] + Without(ts[1..], id)
  }

  /** Without keeps exactly the templates whose id differs. */
  lemma {:induction false} WithoutMembers(ts: seq<Template>, id: int, t: Template)
    ensures t in Without(ts, id) <==> t in ts && t.id != id
  {
    if ts != [] {
      WithoutMembers(ts[1..], id, t);
      assert ts == [ts[0]] + ts[1..];
    }
  }

  /** Ids listed in strictly increasing order; in particular no id occurs twice. */
  predicate StrictlyIncreasing(ts: seq<Template>) {
    forall i, j :: 0 <= i < j < |ts| ==> ts[i].id < ts[j].id
  }

  /** On a list with distinct ids, splicing out the first match removes exactly the template with
      that id and keeps the order of the rest. */
  lemma {:induction false} RemoveFoundIsWithout(ts: seq<Template>, id: int)
    requires StrictlyIncreasing(ts)
    requires FindIndex(ts, id).Some?
    ensures RemoveAt(ts, FindIndex(ts, id).value) == Without(ts, id)
  {
    var i := FindIndex(ts, id).value;
    var rest := ts[1..];
    IncreasingTail(ts);
    if ts[0].id == id {
      forall t | t in rest ensures t.id != id {
        var k :| 0 <= k < |rest| && rest[k] == t;
        assert ts[k + 1] == t;
      }
      WithoutAbsent(rest, id);
      assert RemoveAt(ts, 0) == rest;
    } else {
      RemoveFoundIsWithout(rest, id);
      assert FindIndex(rest, id).value == i - 1;
      RemoveAtCons(ts, i);
    }
  }

  /** The tail of a strictly increasing list is strictly increasing. */
  lemma IncreasingTail(ts: seq<Template>)
    requires StrictlyIncreasing(ts) && ts != []
    ensures StrictlyIncreasing(ts[1..])
  {
    var rest := ts[1..];
    forall a, b | 0 <= a < b < |rest| ensures rest[a].id < rest[b].id {
      assert rest[a] == ts[a + 1] && rest[b] == ts[b + 1];
    }
  }

  /** Splicing out a position after the head keeps the head in front. */
  lemma RemoveAtCons(ts: seq<Template>, i: nat)
    requires 0 < i < |ts|
    ensures RemoveAt(ts, i) == [ts[0]] + RemoveAt(ts[1..], i - 1)
  {
    assert ts[..i] == [ts[0]] + ts[1..][..i - 1];
    assert ts[i + 1..] == ts[1..][i..];
  }

  /** Removing an id that no template carries changes nothing. */
  lemma {:induction false} WithoutAbsent(ts: seq<Template>, id: int)
    requires forall t :: t in ts ==> t.id != id
    ensures Without(ts, id) == ts
  {
    if ts != [] {
      assert ts[0] in ts;
      WithoutAbsent(ts[1..], id);
      assert ts == [ts[0]] + ts[1..];
    }
  }
}
