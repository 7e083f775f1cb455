/** brain.go: editing the configured models and, along with them, the references of the default agent. */
module BrainModels {
  import opened Text
  import opened ModelSelection

  datatype Model = Model(id: string, name: string)

  datatype Provider = Provider(baseUrl: string, api: string, apiKey: string, models: seq<Model>)

  datatype Refs = Refs(primary: string, fallbacks: seq<string>)

  /** `entry` is what the agent list holds for the default agent, if it lists it; `defaults` stands in for it. */
  datatype Config = Config(providers: map<string, Provider>, entry: Option<Refs>, defaults: Option<Refs>)

  datatype Request = Request(
    providerId: string, modelId: string, baseUrl: string, api: string, apiKey: string, name: string,
    existingProviderId: string, existingModelId: string)

  datatype Result<T> = Ok(value: T) | Err(message: string)

  // ---- Reading and writing the references ----

  /** A reference that names a provider is put in canonical form. */
  function NormalizeRef(value: string): string {
    var v := Trim(value);
    if Slash(v) < |v| then ModelKey(v[..Slash(v)], v[Slash(v) + 1..]) else v
  }

  function NormalizeRefs(values: seq<string>): seq<string> {
    if values == [] then []
    else
      var first := NormalizeRef(values[0]);
      if first == "" then NormalizeRefs(values[1..]) else [first] + NormalizeRefs(values[1..])
  }

  function Normalized(r: Refs): Refs {
    Refs(NormalizeRef(r.primary), NormalizeRefs(r.fallbacks))
  }

  const NO_REFS := Refs("", [])

  /** What the stand-in says. */
  function DefaultRefs(c: Config): Refs {
    if c.defaults.Some? then Normalized(c.defaults.value) else NO_REFS
  }

  function ResolveRefs(c: Config): Refs {
    if c.entry.Some? && Normalized(c.entry.value) != NO_REFS then Normalized(c.entry.value) else DefaultRefs(c)
  }

  function SetRefs(c: Config, r: Refs): Config {
    if c.entry.Some? then c.(entry := Some(r)) else c.(defaults := Some(r))
  }

  // ---- Edits of reference lists ----

  function Without(refs: seq<string>, ref: string): seq<string> {
    if refs == [] then []
    else if refs[0] == ref then Without(refs[1..], ref)
    else [refs[0]] + Without(refs[1..], ref)
  }

  /** The references that do not normalize to the same as `target`. */
  function RemoveRef(refs: seq<string>, target: string): seq<string> {
    if refs == [] || NormalizeRef(target) == "" then refs
    else if NormalizeRef(refs[0]) == NormalizeRef(target) then RemoveRef(refs[1..], target)
    else [refs[0]] + RemoveRef(refs[1..], target)
  }

  function Renamed(item: string, oldRef: string, newRef: string): string {
    if item == oldRef then newRef else item
  }

  /** Renamed, without blanks, repetitions or the primary. */
  function ReplaceIn(
    refs: seq<string>, oldRef: string, newRef: string, primary: string, seen: set<string>): seq<string>
  {
    if refs == [] then []
    else
      var item := Renamed(refs[0], oldRef, newRef);
      if item == "" || item == primary || item in seen then ReplaceIn(refs[1..], oldRef, newRef, primary, seen)
      else [item] + ReplaceIn(refs[1..], oldRef, newRef, primary, seen + {item})
  }

  function ReplaceRef(r: Refs, oldRef: string, newRef: string): Refs {
    var primary := Renamed(r.primary, oldRef, newRef);
    Refs(primary, ReplaceIn(r.fallbacks, oldRef, newRef, primary, {}))
  }

  method ReplaceModelRef(r: Refs, oldRef: string, newRef: string) returns (out: Refs)
    ensures out == ReplaceRef(r, oldRef, newRef)
  {
    var primary := if r.primary == oldRef then newRef else r.primary;
    var fallbacks: seq<string>, seen: set<string> := [], {};
    for i := 0 to |r.fallbacks|
      invariant fallbacks + ReplaceIn(r.fallbacks[i..], oldRef, newRef, primary, seen)
             == ReplaceIn(r.fallbacks, oldRef, newRef, primary, {})
    {
      assert r.fallbacks[i..][1..] == r.fallbacks[i + 1..];
      var item := r.fallbacks[i];
      if item == oldRef { item := newRef; }
      if item == "" || item == primary || item in seen { continue; }
      Regroup(fallbacks, item, ReplaceIn(r.fallbacks[i + 1..], oldRef, newRef, primary, seen + {item}));
      seen := seen + {item};
      fallbacks := fallbacks + [item];
    }
    out := Refs(primary, fallbacks);
  }

  lemma Regroup(a: seq<string>, x: string, b: seq<string>)
    ensures a + ([x] + b) == (a + [x]) + b
  {
  }

  method FilterRefs(refs: seq<string>, ref: string) returns (next: seq<string>)
    ensures next == Without(refs, ref)
  {
    next := [];
    for i := 0 to |refs|
      invariant next + Without(refs[i..], ref) == Without(refs, ref)
    {
      assert refs[i..][1..] == refs[i + 1..];
      if refs[i] != ref { next := next + [refs[i]]; }
    }
  }

  // ---- Edits of the providers ----

  predicate HasModel(providers: map<string, Provider>, providerId: string, modelId: string) {
    Trim(providerId) in providers && Listed(providers[Trim(providerId)].models, Trim(modelId))
  }

  /** The models other than this one. */
  function Others(models: seq<Model>, modelId: string): seq<Model> {
    if models == [] then []
    else if Trim(models[0].id) == modelId then Others(models[1..], modelId)
    else [models[0]] + Others(models[1..], modelId)
  }

  /** A provider goes with its last model. */
  function RemoveModel(providers: map<string, Provider>, providerId: string, modelId: string): map<string, Provider> {
    var key := Trim(providerId);
    if key !in providers then providers
    else
      var rest := Others(providers[key].models, Trim(modelId));
      if rest == [] then providers - {key} else providers[key := providers[key].(models := rest)]
  }

  /** Every model with the id of `m` becomes `m`. */
  function Updated(models: seq<Model>, m: Model): seq<Model> {
    if models == [] then []
    else [if Trim(models[0].id) == m.id then m else models[0]] + Updated(models[1..], m)
  }

  predicate Listed(models: seq<Model>, modelId: string) {
    models != [] && (Trim(models[0].id) == modelId || Listed(models[1..], modelId))
  }

  function PutModel(models: seq<Model>, m: Model): seq<Model> {
    Updated(models, m) + if Listed(models, m.id) then [] else [m]
  }

  function ProviderAt(providers: map<string, Provider>, key: string): Provider {
    if key in providers then providers[key] else Provider("", "", "", [])
  }

  function PutProvider(providers: map<string, Provider>, q: Request): map<string, Provider> {
    var before := ProviderAt(providers, q.providerId);
    providers[q.providerId := Provider(q.baseUrl, q.api, if q.apiKey != "" then q.apiKey else before.apiKey,
                                       PutModel(before.models, Model(q.modelId, q.name)))]
  }

  // ---- The four edits, on values ----

  function Cleaned(q: Request): Request {
    Request(Trim(q.providerId), Trim(q.modelId), Trim(q.baseUrl), Trim(q.api), Trim(q.apiKey), Trim(q.name),
            Trim(q.existingProviderId), Trim(q.existingModelId))
  }

  predicate Renames(q: Request) {
    && q.existingProviderId != "" && q.existingModelId != ""
    && (q.existingProviderId != q.providerId || q.existingModelId != q.modelId)
  }

  function UpsertedRefs(r: Refs, q: Request): Refs {
    var newRef := ModelKey(q.providerId, q.modelId);
    var s := if Renames(q) then ReplaceRef(r, ModelKey(q.existingProviderId, q.existingModelId), newRef) else r;
    if Trim(s.primary) == "" then Refs(newRef, RemoveRef(s.fallbacks, newRef)) else s
  }

  function UpsertedProviders(providers: map<string, Provider>, q: Request): map<string, Provider> {
    var put := PutProvider(providers, q);
    if Renames(q) then RemoveModel(put, q.existingProviderId, q.existingModelId) else put
  }

  function Upsert(c: Config, request: Request): Result<Config> {
    var q := Cleaned(request);
    if q.providerId == "" then Err("providerId is required")
    else if q.modelId == "" then Err("modelId is required")
    else if q.api == "" then Err("api is required")
    else if q.baseUrl == "" then Err("baseUrl is required")
    else Ok(SetRefs(c.(providers := UpsertedProviders(c.providers, q)), UpsertedRefs(ResolveRefs(c), q)))
  }

  function DeletedRefs(r: Refs, ref: string): Refs {
    var fallbacks := Without(r.fallbacks, ref);
    if r.primary != ref then Refs(r.primary, fallbacks)
    else if fallbacks == [] then NO_REFS
    else Refs(fallbacks[0], fallbacks[1..])
  }

  function Delete(c: Config, providerId: string, modelId: string): Result<Config> {
    if Trim(providerId) == "" || Trim(modelId) == "" then Err("providerId and modelId are required")
    else if !HasModel(c.providers, providerId, modelId) then Err("model is not configured")
    else
      var removed := c.(providers := RemoveModel(c.providers, providerId, modelId));
      Ok(SetRefs(removed, DeletedRefs(ResolveRefs(removed), ModelKey(providerId, modelId))))
  }

  function SetDefault(c: Config, providerId: string, modelId: string): Result<Config> {
    if !HasModel(c.providers, providerId, modelId) then Err("model is not configured")
    else
      var ref := ModelKey(providerId, modelId);
      Ok(SetRefs(c, Refs(ref, Without(ResolveRefs(c).fallbacks, ref))))
  }

  function FallbackRefs(fallbacks: seq<string>, ref: string, enabled: bool): seq<string> {
    if !enabled then Without(fallbacks, ref)
    else if ref in fallbacks then fallbacks
    else fallbacks + [ref]
  }

  function SetFallback(c: Config, providerId: string, modelId: string, enabled: bool): Result<Config> {
    if !HasModel(c.providers, providerId, modelId) then Err("model is not configured")
    else
      var r, ref := ResolveRefs(c), ModelKey(providerId, modelId);
      if r.primary == ref then Ok(c)
      else Ok(SetRefs(c, Refs(r.primary, FallbackRefs(r.fallbacks, ref, enabled))))
  }

  // ---- The configuration itself, edited in place ----

  method OtherModels(models: seq<Model>, id: string) returns (next: seq<Model>)
    ensures next == Others(models, id)
  {
    hide Trim;
    next := [];
    for i := 0 to |models|
      invariant next + Others(models[i..], id) == Others(models, id)
    {
      assert models[i..][1..] == models[i + 1..];
      if Trim(models[i].id) != id { next := next + [models[i]]; }
    }
  }

  method UpdateModels(before: seq<Model>, updated: Model) returns (models: seq<Model>)
    ensures models == PutModel(before, updated)
  {
    hide Trim;
    var replaced := false;
    models := [];
    for i := 0 to |before|
      invariant models + Updated(before[i..], updated) == Updated(before, updated)
      invariant Listed(before, updated.id) <==> replaced || Listed(before[i..], updated.id)
    {
      assert before[i..][1..] == before[i + 1..];
      if Trim(before[i].id) == updated.id {
        models := models + [updated];
        replaced := true;
      } else {
        models := models + [before[i]];
      }
    }
    if !replaced { models := models + [updated]; }
  }

  method RemoveModelRef(refs: seq<string>, target: string) returns (next: seq<string>)
    ensures next == RemoveRef(refs, target)
  {
    hide NormalizeRef;
    var t := NormalizeRef(target);
    if t == "" { return refs; }
    next := [];
    for i := 0 to |refs|
      invariant next + RemoveRef(refs[i..], target) == RemoveRef(refs, target)
    {
      assert refs[i..][1..] == refs[i + 1..];
      if NormalizeRef(refs[i]) != t { next := next + [refs[i]]; }
    }
  }

  method EditFallbacks(fallbacks: seq<string>, ref: string, enabled: bool) returns (next: seq<string>)
    ensures next == FallbackRefs(fallbacks, ref, enabled)
  {
    var seen := false;
    next := [];
    for i := 0 to |fallbacks|
      invariant seen <==> ref in fallbacks[..i]
      invariant enabled ==> next == fallbacks[..i]
      invariant !enabled ==> next + Without(fallbacks[i..], ref) == Without(fallbacks, ref)
    {
      var item := fallbacks[i];
      assert fallbacks[i..][1..] == fallbacks[i + 1..];
      assert fallbacks[..i + 1] == fallbacks[..i] + [item];
      if item == ref {
        seen := true;
        if enabled { next := next + [item]; }
      } else {
        next := next + [item];
      }
    }
    assert fallbacks[..|fallbacks|] == fallbacks;
    if enabled && !seen { next := next + [ref]; }
  }

  class AppConfig {
    var providers: map<string, Provider>
    var entry: Option<Refs>
    var defaults: Option<Refs>

    ghost function Value(): Config reads this {
      Config(providers, entry, defaults)
    }

    constructor (p: map<string, Provider>, e: Option<Refs>, d: Option<Refs>)
      ensures Value() == Config(p, e, d)
    {
      providers, entry, defaults := p, e, d;
    }

    method SetDefaultAgentModelRefs(r: Refs)
      modifies this
      ensures Value() == SetRefs(old(Value()), r)
    {
      if entry.Some? {
        entry := Some(r);
      } else {
        defaults := Some(r);
      }
    }

    method RemoveModelFromProvider(providerId: string, modelId: string)
      modifies this
      ensures Value() == old(Value()).(providers := RemoveModel(old(providers), providerId, modelId))
    {
      hide Trim;
      var key, id := Trim(providerId), Trim(modelId);
      if key !in providers { return; }
      var next := OtherModels(providers[key].models, id);
      if |next| == 0 {
        providers := providers - {key};
      } else {
        providers := providers[key := providers[key].(models := next)];
      }
    }

    /** The provider's settings, and its models with the requested one updated or added. */
    method PutModelInProvider(q: Request)
      modifies this
      ensures Value() == old(Value()).(providers := PutProvider(old(providers), q))
    {
      hide Trim;
      var provider := ProviderAt(providers, q.providerId);
      var models := UpdateModels(provider.models, Model(q.modelId, q.name));
      providers := providers[q.providerId :=
        Provider(q.baseUrl, q.api, if q.apiKey != "" then q.apiKey else provider.apiKey, models)];
    }

    method UpsertBrainModelRecord(request: Request) returns (error: Option<string>)
      modifies this
      ensures match Upsert(old(Value()), request)
              case Ok(c) => error.None? && Value() == c
              case Err(message) => error == Some(message) && Value() == old(Value())
    {
      hide Trim, ModelKey, PutProvider, RemoveModel, ResolveRefs, ReplaceRef;
      var q := Cleaned(request);
      if q.providerId == "" { return Some("providerId is required"); }
      if q.modelId == "" { return Some("modelId is required"); }
      if q.api == "" { return Some("api is required"); }
      if q.baseUrl == "" { return Some("baseUrl is required"); }
      var refs := ResolveRefs(Config(providers, entry, defaults));
      var newRef := ModelKey(q.providerId, q.modelId);
      PutModelInProvider(q);
      if Renames(q) {
        RemoveModelFromProvider(q.existingProviderId, q.existingModelId);
        refs := ReplaceModelRef(refs, ModelKey(q.existingProviderId, q.existingModelId), newRef);
      }
      if Trim(refs.primary) == "" {
        var fallbacks := RemoveModelRef(refs.fallbacks, newRef);
        SetDefaultAgentModelRefs(Refs(newRef, fallbacks));
      } else {
        SetDefaultAgentModelRefs(refs);
      }
      return None;
    }

    method DeleteBrainModelRecord(providerId: string, modelId: string) returns (error: Option<string>)
      modifies this
      ensures match Delete(old(Value()), providerId, modelId)
              case Ok(c) => error.None? && Value() == c
              case Err(message) => error == Some(message) && Value() == old(Value())
    {
      hide Trim, ModelKey, RemoveModel, ResolveRefs;
      if Trim(providerId) == "" || Trim(modelId) == "" { return Some("providerId and modelId are required"); }
      if !HasModel(providers, providerId, modelId) { return Some("model is not configured"); }
      RemoveModelFromProvider(providerId, modelId);
      var refs := ResolveRefs(Config(providers, entry, defaults));
      var ref := ModelKey(providerId, modelId);
      var primary := refs.primary;
      var fallbacks := FilterRefs(refs.fallbacks, ref);
      if primary == ref {
        primary := "";
        if |fallbacks| > 0 { primary, fallbacks := fallbacks[0], fallbacks[1..]; }
      }
      SetDefaultAgentModelRefs(Refs(primary, fallbacks));
      return None;
    }

    method SetBrainModelDefault(providerId: string, modelId: string) returns (error: Option<string>)
      modifies this
      ensures match SetDefault(old(Value()), providerId, modelId)
              case Ok(c) => error.None? && Value() == c
              case Err(message) => error == Some(message) && Value() == old(Value())
    {
      hide Trim, ModelKey, ResolveRefs;
      if !HasModel(providers, providerId, modelId) { return Some("model is not configured"); }
      var ref := ModelKey(providerId, modelId);
      var next := FilterRefs(ResolveRefs(Config(providers, entry, defaults)).fallbacks, ref);
      SetDefaultAgentModelRefs(Refs(ref, next));
      return None;
    }

    method SetBrainModelFallback(providerId: string, modelId: string, enabled: bool) returns (error: Option<string>)
      modifies this
      ensures match SetFallback(old(Value()), providerId, modelId, enabled)
              case Ok(c) => error.None? && Value() == c
              case Err(message) => error == Some(message) && Value() == old(Value())
    {
      hide Trim, ModelKey, ResolveRefs;
      if !HasModel(providers, providerId, modelId) { return Some("model is not configured"); }
      var ref := ModelKey(providerId, modelId);
      var refs := ResolveRefs(Config(providers, entry, defaults));
      if refs.primary == ref { return None; }
      var next := EditFallbacks(refs.fallbacks, ref, enabled);
      SetDefaultAgentModelRefs(Refs(refs.primary, next));
      return None;
    }
  }
}
