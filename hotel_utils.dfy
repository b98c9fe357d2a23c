// Helpers of the hotel search front end: the example queries, flattening a
// search response into one record per hit, and cleaning the parameters of a
// query before they are shown.

module HotelUtils {
  import opened Common

  /** A Python dict with string keys. */
  type Dict = map<string, Json>

  // ---------------------------------------------------------------------------
  // Kick-start queries

  /** `get_kick_start_options`: four fixed example queries, all different. */
  function KickStartOptions(): (r: seq<string>)
    ensures |r| == 4 && Distinct(r)
    ensures r[0] == "Cheap but highly rated hotels in London, no children"
    ensures r[1] == "No pets affordable hotel in London"
    ensures r[2] == "Cheapest hotels in London with free breakfast"
    ensures r[3] == "Best hotels in Berlin"
  {
    ["Cheap but highly rated hotels in London, no children",
     "No pets affordable hotel in London",
     "Cheapest hotels in London with free breakfast",
     "Best hotels in Berlin"]
  }

  // ---------------------------------------------------------------------------
  // Flattening a response

  /** `{"id": entry["id"], "score": entry["metadata"]["score"], **entry["fields"]}`,
      evaluated left to right. The fields come last, so a field named `id` or
      `score` replaces the value before it. */
  function FlattenEntry(entry: Json): (r: Result<Dict>)
    ensures r.Ok? ==> entry.JObj? && "id" in entry.fields && "metadata" in entry.fields && "fields" in entry.fields
    ensures r.Ok? ==> entry.fields["metadata"].JObj? && "score" in entry.fields["metadata"].fields
    ensures r.Ok? ==> entry.fields["fields"].JObj?
    ensures r.Ok? ==> r.value.Keys == {"id", "score"} + entry.fields["fields"].fields.Keys
    ensures r.Ok? ==> forall k :: k in entry.fields["fields"].fields ==> r.value[k] == entry.fields["fields"].fields[k]
    ensures r.Ok? && "id" !in entry.fields["fields"].fields ==> r.value["id"] == entry.fields["id"]
    ensures r.Ok? && "score" !in entry.fields["fields"].fields ==>
              r.value["score"] == entry.fields["metadata"].fields["score"]
    ensures entry.JObj? && "id" !in entry.fields ==> r == Err("'id'")
  {
    match Subscript(entry, "id")
    case Err(m) => Err(m)
    case Ok(id) =>
      match Subscript(entry, "metadata")
      case Err(m) => Err(m)
      case Ok(metadata) =>
        match Subscript(metadata, "score")
        case Err(m) => Err(m)
        case Ok(score) =>
          match Subscript(entry, "fields")
          case Err(m) => Err(m)
          case Ok(fields) =>
            if !fields.JObj? then Err("'" + TypeName(fields) + "' object is not a mapping")
            else Ok(map["id" := id, "score" := score] + fields.fields)
  }

  function FlattenStep(): Json -> Result<Dict> {
    entry => FlattenEntry(entry)
  }

  /** `response["entries"]` as the loop sees it. */
  function Entries(response: Json): (r: Result<seq<Json>>)
    ensures response.JObj? && "entries" in response.fields && response.fields["entries"].JArr? ==>
              r == Ok(response.fields["entries"].elems)
  {
    match Subscript(response, "entries")
    case Err(m) => Err(m)
    case Ok(entries) => Iterate(entries)
  }

  /** What `flatten_response` computes: one item per entry, in entry order,
      or the first exception. */
  function Flattened(response: Json): (r: Result<seq<Dict>>)
    ensures r.Ok? ==> Entries(response).Ok? && |r.value| == |Entries(response).value|
    ensures r.Ok? ==> forall i :: 0 <= i < |r.value| ==> FlattenEntry(Entries(response).value[i]) == Ok(r.value[i])
    ensures Entries(response).Ok? ==>
              (r.Err? <==> exists i :: 0 <= i < |Entries(response).value| && FlattenEntry(Entries(response).value[i]).Err?)
  {
    match Entries(response)
    case Err(m) => Err(m)
    case Ok(entries) => MapAll(entries, FlattenStep())
  }

  /** `flatten_response`: the loop appending one item per entry. */
  method FlattenResponse(response: Json) returns (r: Result<seq<Dict>>)
    ensures r == Flattened(response)
  {
    var entries := Entries(response);
    if entries.Err? {
      return Err(entries.msg);
    }
    var result: seq<Dict> := [];
    var k := 0;
    while k < |entries.value|
      invariant 0 <= k <= |entries.value| && |result| == k
      invariant forall i :: 0 <= i < k ==> FlattenEntry(entries.value[i]) == Ok(result[i])
    {
      var item := FlattenEntry(entries.value[k]);
      if item.Err? {
        MapAllFirstError(entries.value, FlattenStep(), k);
        return Err(item.msg);
      }
      result := result + [item.value];
      k := k + 1;
    }
    assert MapAll(entries.value, FlattenStep()).value == result;
    r := Ok(result);
  }

  /** Each item of a flattened response carries the entry's id and score
      unless the entry's fields override them. */
  lemma FlattenedItems(response: Json, i: int)
    requires Flattened(response).Ok? && 0 <= i < |Flattened(response).value|
    ensures var entry := Entries(response).value[i];
      var item := Flattened(response).value[i];
      entry.JObj? && entry.fields["fields"].JObj? &&
      item["id"] == (if "id" in entry.fields["fields"].fields then entry.fields["fields"].fields["id"] else entry.fields["id"]) &&
      item["score"] == (if "score" in entry.fields["fields"].fields then entry.fields["fields"].fields["score"]
                        else entry.fields["metadata"].fields["score"])
  {
    assert FlattenEntry(Entries(response).value[i]) == Ok(Flattened(response).value[i]);
  }

  // ---------------------------------------------------------------------------
  // Cleaning query parameters

  const RemovedKeys: seq<string> := [
    "similar_description_weight",
    "limit",
    "radius",
    "natural_query",
    "system_prompt_param__",
    "select_param__"
  ]

  /** The parameters `clean_knn_params` keeps: those with a value other than
      `None` whose key is not one of the removed six. */
  function Cleaned(params: Dict): (r: Dict)
    ensures forall k :: k in r ==> k in params && r[k] == params[k]
    ensures forall k :: k in r ==> r[k] != JNull && k !in RemovedKeys
    ensures forall k :: k in params && params[k] != JNull && k !in RemovedKeys ==> k in r
  {
    map k | k in params && params[k] != JNull && k !in RemovedKeys :: params[k]
  }

  /** `clean_knn_params`: a comprehension dropping `None` values, then a loop
      popping each removed key if present. The input is a value and is left
      as it was. */
  method CleanKnnParams(params: Dict) returns (r: Dict)
    ensures r == Cleaned(params)
  {
    r := map k | k in params && params[k] != JNull :: params[k];
    var i := 0;
    while i < |RemovedKeys|
      invariant 0 <= i <= |RemovedKeys|
      invariant r == map k | k in params && params[k] != JNull && k !in RemovedKeys[..i] :: params[k]
    {
      assert RemovedKeys[..i + 1] == RemovedKeys[..i] + [RemovedKeys[i]];
      r := r - {RemovedKeys[i]};
      i := i + 1;
    }
    assert RemovedKeys[..i] == RemovedKeys;
  }

  /** Cleaning a cleaned dict changes nothing. */
  lemma CleanedIdempotent(params: Dict)
    ensures Cleaned(Cleaned(params)) == Cleaned(params)
  {
    var once := Cleaned(params);
    assert forall k :: k in Cleaned(once) <==> k in once;
  }

  /** Cleaning only ever removes entries. */
  lemma CleanedShrinks(params: Dict)
    ensures Cleaned(params).Keys <= params.Keys
    ensures |Cleaned(params)| <= |params|
  {
    assert Cleaned(params).Keys <= params.Keys;
    SubsetCard(Cleaned(params).Keys, params.Keys);
  }

  lemma SubsetCard(a: set<string>, b: set<string>)
    requires a <= b
    ensures |a| <= |b|
  {
    assert b == a + (b - a);
  }
}
