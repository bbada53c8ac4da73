/**
  The laptop search request (core/services/search/laptop_search.py and
  core/services/search/models/laptop_model.py): the flat criteria of the tool
  call become a `LaptopModel`, the model becomes the nested payload of the
  search API, empty values are cleaned out of the payload recursively, and
  `page` and `size` go into the request URL. The HTTP call itself is not
  modelled.
 */
module Laptop {
  import opened Wrappers
  import opened PyStr
  import opened Json
  import Messages

  const DefaultBaseUrl := "http://localhost:3000/api/v1"
  const DefaultSearchEndpoint := "/search/os/get-matches"
  const DefaultPage := 1
  const DefaultSize := 5

  // ---------------------------------------------------------------- _clean_empty_values

  /** A value that survives cleaning as the value of a key: not None, not an empty list, not an empty dict. */
  predicate Kept(v: Json) {
    !v.JNull? && !(v.JList? && v.items == []) && !(v.JObject? && v.fields == [])
  }

  /** `_clean_empty_values`: dicts are cleaned key by key, anything else is returned as it is. */
  function Clean(j: Json): (r: Json)
    ensures !j.JObject? ==> r == j
    ensures j.JObject? ==> r.JObject? && |r.fields| <= |j.fields|
    decreases j, 1
  {
    if j.JObject? then JObject(CleanFields(j, 0)) else j
  }

  /** The cleaned fields of the dict `j` from position `i` on, in their original order. */
  function CleanFields(j: Json, i: nat): (r: seq<Field>)
    requires j.JObject? && i <= |j.fields|
    ensures |r| <= |j.fields| - i
    decreases j, 0, |j.fields| - i
  {
    if i == |j.fields| then []
    else
      var f := j.fields[i];
      var rest := CleanFields(j, i + 1);
      if f.value.JNull? then rest
      else if f.value.JObject? then
        var c := Clean(f.value);
        if c.fields != [] then [Field(f.key, c)] + rest else rest
      else if f.value.JList? then
        if f.value.items != [] then [f] + rest else rest
      else [f] + rest
  }

  /** Nothing left to clean anywhere: every key of every dict holds a kept value. */
  predicate IsClean(j: Json)
    decreases j
  {
    j.JObject? ==> forall k :: 0 <= k < |j.fields| ==> Kept(j.fields[k].value) && IsClean(j.fields[k].value)
  }

  lemma {:induction false} CleanIsClean(j: Json)
    ensures IsClean(Clean(j))
    decreases j, 1
  {
    if j.JObject? {
      CleanFieldsAreClean(j, 0);
    }
  }

  lemma {:induction false} CleanFieldsAreClean(j: Json, i: nat)
    requires j.JObject? && i <= |j.fields|
    ensures forall k :: 0 <= k < |CleanFields(j, i)| ==> Kept(CleanFields(j, i)[k].value) && IsClean(CleanFields(j, i)[k].value)
    decreases j, 0, |j.fields| - i
  {
    if i < |j.fields| {
      CleanFieldsAreClean(j, i + 1);
      var f := j.fields[i];
      if f.value.JObject? {
        CleanIsClean(f.value);
      }
    }
  }

  /** A clean value is left alone. */
  lemma {:induction false} CleanKeepsClean(j: Json)
    requires IsClean(j)
    ensures Clean(j) == j
    decreases j, 1
  {
    if j.JObject? {
      CleanFieldsKeepClean(j, 0);
      assert j.fields[0..] == j.fields;
    }
  }

  lemma {:induction false} CleanFieldsKeepClean(j: Json, i: nat)
    requires j.JObject? && i <= |j.fields| && IsClean(j)
    ensures CleanFields(j, i) == j.fields[i..]
    decreases j, 0, |j.fields| - i
  {
    if i < |j.fields| {
      CleanFieldsKeepClean(j, i + 1);
      var f := j.fields[i];
      if f.value.JObject? {
        CleanKeepsClean(f.value);
      }
      assert j.fields[i..] == [f] + j.fields[i + 1..];
    }
  }

  /** Cleaning twice is cleaning once. */
  lemma CleanIdempotent(j: Json)
    ensures Clean(Clean(j)) == Clean(j)
  {
    CleanIsClean(j);
    CleanKeepsClean(Clean(j));
  }

  /** One field of the dict: it is kept, with its cleaned value, exactly when that value is kept. */
  lemma CleanFieldsStep(j: Json, i: nat)
    requires j.JObject? && i < |j.fields|
    ensures var f := j.fields[i];
      CleanFields(j, i) == (if Kept(Clean(f.value)) then [Field(f.key, Clean(f.value))] else []) + CleanFields(j, i + 1)
  {
  }

  /**
    Dict semantics of cleaning: a key keeps its cleaned value when that value
    is kept, and is gone otherwise. So None values and empty lists disappear,
    non-empty lists are kept untouched, nested dicts are cleaned and disappear
    when nothing is left, and every other value ("", 0, False included) stays.
   */
  lemma {:induction false} CleanGet(j: Json, i: nat, k: string)
    requires j.JObject? && i <= |j.fields| && UniqueKeys(j.fields[i..])
    ensures Get(CleanFields(j, i), k) ==
      match Get(j.fields[i..], k)
      case None => None
      case Some(v) => if Kept(Clean(v)) then Some(Clean(v)) else None
    decreases |j.fields| - i
  {
    if i < |j.fields| {
      var fs := j.fields[i..];
      var f := j.fields[i];
      assert fs[0] == f && fs[1..] == j.fields[i + 1..];
      assert UniqueKeys(fs[1..]);
      CleanGet(j, i + 1, k);
      CleanFieldsStep(j, i);
    }
  }

  /** The cleaned dict's keys are some of the input's keys, in the same order. */
  lemma {:induction false} CleanKeepsKeyOrder(j: Json, i: nat)
    requires j.JObject? && i <= |j.fields|
    ensures Messages.IsSubseq(Keys(CleanFields(j, i)), Keys(j.fields[i..]))
    decreases |j.fields| - i
  {
    if i == |j.fields| {
      assert Keys(CleanFields(j, i)) == [];
      Messages.SubseqRefl(Keys(CleanFields(j, i)));
    } else {
      var fs := j.fields[i..];
      var rest := CleanFields(j, i + 1);
      CleanKeepsKeyOrder(j, i + 1);
      CleanFieldsStep(j, i);
      assert fs[1..] == j.fields[i + 1..];
      assert Keys(fs)[1..] == Keys(fs[1..]);
      Messages.SubseqCons(Keys(rest), Keys(fs));
      var f := j.fields[i];
      if Kept(Clean(f.value)) {
        assert Keys(CleanFields(j, i)) == [Keys(fs)[0]] + Keys(rest);
      }
    }
  }

  // ---------------------------------------------------------------- LaptopModel

  /** The properties of a `LaptopModel` (with the fields set by `BaseProductModel`). */
  datatype LaptopModel = LaptopModel(
    category: Json, subCategory: Json, primaryUse: Json, budget: Json, brand: Json, condition: Json,
    displaySizeRange: Option<Json>,
    processorBrands: Json, processorModels: Json, graphicsBrands: Json, graphicsModels: Json,
    ramRange: Option<Json>, storageTypes: Json, storageCapacityRange: Option<Json>,
    operatingSystem: Json)

  predicate EitherKey(config: seq<Field>, low: string, high: string) {
    HasKey(config, low) || HasKey(config, high)
  }

  /** `{"min": config.get(low), "max": config.get(high)}`. */
  function Range(config: seq<Field>, low: string, high: string): Json {
    JObject([Field("min", GetOr(config, low, JNull)), Field("max", GetOr(config, high, JNull))])
  }

  function RangeIfAny(config: seq<Field>, low: string, high: string): (r: Option<Json>)
    ensures r.Some? <==> EitherKey(config, low, high)
    ensures r.Some? ==> r.value == Range(config, low, high) && Truthy(r.value)
  {
    if EitherKey(config, low, high) then Some(Range(config, low, high)) else None
  }

  /**
    `LaptopModel(config)`: the flat criteria folded into ranges. A range is
    present exactly when one of its two keys is present, even with a None
    value; every list defaults to [].
   */
  function FromConfig(config: seq<Field>): (m: LaptopModel)
    ensures EitherKey(config, "budget_min", "budget_max") ==> m.budget == Range(config, "budget_min", "budget_max")
    ensures !EitherKey(config, "budget_min", "budget_max") ==> m.budget == GetOr(config, "budget", JObject([]))
    ensures m.displaySizeRange.Some? <==> EitherKey(config, "display_size_min", "display_size_max")
    ensures m.ramRange.Some? <==> EitherKey(config, "ram_min", "ram_max")
    ensures m.storageCapacityRange.Some? <==> EitherKey(config, "storage_capacity_min", "storage_capacity_max")
    ensures m.displaySizeRange.Some? ==> m.displaySizeRange.value == Range(config, "display_size_min", "display_size_max")
    ensures m.ramRange.Some? ==> m.ramRange.value == Range(config, "ram_min", "ram_max")
    ensures m.storageCapacityRange.Some? ==>
      m.storageCapacityRange.value == Range(config, "storage_capacity_min", "storage_capacity_max")
    ensures m.storageTypes == GetOr(config, "storage_types", JList([]))
    ensures m.brand == GetOr(config, "brand", JList([]))
    ensures m.processorBrands == GetOr(config, "processor_brands", JList([]))
    ensures m.processorModels == GetOr(config, "processor_models", JList([]))
    ensures m.graphicsBrands == GetOr(config, "graphics_brands", JList([]))
    ensures m.graphicsModels == GetOr(config, "graphics_models", JList([]))
    ensures m.operatingSystem == GetOr(config, "operating_system", JList([]))
  {
    LaptopModel(
      GetOr(config, "category", JNull), GetOr(config, "sub_category", JNull), GetOr(config, "primary_use", JNull),
      if EitherKey(config, "budget_min", "budget_max") then Range(config, "budget_min", "budget_max")
      else GetOr(config, "budget", JObject([])),
      GetOr(config, "brand", JList([])), GetOr(config, "condition", JNull),
      RangeIfAny(config, "display_size_min", "display_size_max"),
      GetOr(config, "processor_brands", JList([])), GetOr(config, "processor_models", JList([])),
      GetOr(config, "graphics_brands", JList([])), GetOr(config, "graphics_models", JList([])),
      RangeIfAny(config, "ram_min", "ram_max"),
      GetOr(config, "storage_types", JList([])),
      RangeIfAny(config, "storage_capacity_min", "storage_capacity_max"),
      GetOr(config, "operating_system", JList([])))
  }

  /** `{key: range} if range else {}`. */
  function Section(key: string, range: Option<Json>): Json {
    if range.Some? && Truthy(range.value) then JObject([Field(key, range.value)]) else JObject([])
  }

  /** The nested `config_payload` of `_execute_search`, before cleaning. */
  function Payload(m: LaptopModel): Json {
    JObject([Field("config", JObject([
      Field("category", m.category),
      Field("sub_category", m.subCategory),
      Field("primary_use", m.primaryUse),
      Field("budget", m.budget),
      Field("specifications", JObject([
        Field("display", Section("size_inches", m.displaySizeRange)),
        Field("processor", JObject([Field("brand", m.processorBrands), Field("model", m.processorModels)])),
        Field("graphics", JObject([Field("brand", m.graphicsBrands), Field("model", m.graphicsModels)])),
        Field("memory", Section("ram_gb", m.ramRange)),
        Field("storage",
          if m.storageCapacityRange.Some? && Truthy(m.storageCapacityRange.value)
          then JObject([Field("type", m.storageTypes), Field("capacity_gb", m.storageCapacityRange.value)])
          else JObject([Field("type", m.storageTypes)])),
        Field("operating_system", m.operatingSystem)])),
      Field("brand", m.brand),
      Field("condition", m.condition)]))])
  }

  // ---------------------------------------------------------------- search

  /** Python `str(v)` in an f-string, for the scalar values a page or size can be. */
  function Show(v: Json): string {
    if v.JList? || v.JObject? then Dumps(v) else ScalarStr(v)
  }

  /** The payload `_execute_search` posts: the model's nested config with every empty value cleaned out. */
  function CleanPayload(criteria: seq<Field>): (p: Json)
    ensures IsClean(p) && p.JObject?
  {
    CleanIsClean(Payload(FromConfig(criteria)));
    Clean(Payload(FromConfig(criteria)))
  }

  /** What `search` sends: the URL and the cleaned payload, and the criteria the model was built from. */
  datatype SearchRequest = SearchRequest(url: string, criteria: seq<Field>, payload: Json)

  /** `f"{base_url}{search_endpoint}?size={size}&page={page}"`. */
  function Url(baseUrl: string, endpoint: string, page: Json, size: Json): string {
    baseUrl + endpoint + "?size=" + Show(size) + "&page=" + Show(page)
  }

  lemma DefaultUrl(baseUrl: string, endpoint: string)
    ensures Url(baseUrl, endpoint, JInt(DefaultPage), JInt(DefaultSize)) == baseUrl + endpoint + "?size=5&page=1"
  {
    assert Show(JInt(1)) == "1";
    assert Show(JInt(5)) == "5";
  }

  /**
    `search` up to the HTTP call: `page` (default 1) and `size` (default 5)
    are taken out of the criteria before the model is built, and go into the
    URL as `?size=…&page=…`.
   */
  function Search(kwargs: seq<Field>, baseUrl: string, endpoint: string): (r: SearchRequest)
    ensures !HasKey(r.criteria, "page") && !HasKey(r.criteria, "size")
    ensures forall k :: k != "page" && k != "size" ==> Get(r.criteria, k) == Get(kwargs, k)
    ensures r.url == Url(baseUrl, endpoint, GetOr(kwargs, "page", JInt(DefaultPage)), GetOr(kwargs, "size", JInt(DefaultSize)))
    ensures r.payload == CleanPayload(r.criteria)
    ensures !HasKey(kwargs, "page") && !HasKey(kwargs, "size") ==> r.url == baseUrl + endpoint + "?size=5&page=1"
  {
    var (page, afterPage) := Pop(kwargs, "page", JInt(DefaultPage));
    var (size, criteria) := Pop(afterPage, "size", JInt(DefaultSize));
    assert Get(criteria, "page") == Get(afterPage, "page") == None;
    DefaultUrl(baseUrl, endpoint);
    SearchRequest(Url(baseUrl, endpoint, page, size), criteria, CleanPayload(criteria))
  }
}
