/** Referential integrity: whatever is edited, the default agent's references name configured models. */
module BrainModelsTheorems {
  import opened Text
  import opened ModelSelection
  import opened BrainModels

  type Providers = map<string, Provider>

  // ---- Consistency ----

  predicate ConfiguredAt(providers: Providers, ref: string, p: string, k: nat) {
    p in providers && k < |providers[p].models| && ModelKey(p, providers[p].models[k].id) == ref
  }

  ghost predicate Configured(providers: Providers, ref: string) {
    exists p: string, k: nat :: ConfiguredAt(providers, ref, p, k)
  }

  predicate NoRepeats(refs: seq<string>) {
    forall i, j :: 0 <= i < j < |refs| ==> refs[i] != refs[j]
  }

  /** The primary, if any, and the fallbacks are configured models, all different. */
  ghost predicate ConsistentRefs(providers: Providers, r: Refs) {
    && (r.primary != "" ==> Configured(providers, r.primary))
    && (forall f :: f in r.fallbacks ==> f != "" && f != r.primary && Configured(providers, f))
    && NoRepeats(r.fallbacks)
  }

  predicate NoSlashes(providers: Providers) {
    forall p :: p in providers ==> '/' !in p
  }

  ghost predicate Consistent(c: Config) {
    NoSlashes(c.providers) && ConsistentRefs(c.providers, ResolveRefs(c))
  }

  // ---- Keys ----

  lemma LowerOfTail(s: string)
    requires s != ""
    ensures Lower(s)[1..] == Lower(s[1..]) && Lower(s[..|s| - 1]) == Lower(s)[..|s| - 1]
  {
  }

  lemma {:induction false} TrimLeftLower(s: string)
    ensures TrimLeft(Lower(s)) == Lower(TrimLeft(s))
  {
    if s != "" && IsSpace(s[0]) {
      LowerOfTail(s);
      TrimLeftLower(s[1..]);
    }
  }

  lemma {:induction false} TrimRightLower(s: string)
    ensures TrimRight(Lower(s)) == Lower(TrimRight(s))
  {
    if s != "" && IsSpace(s[|s| - 1]) {
      LowerOfTail(s);
      TrimRightLower(s[..|s| - 1]);
    }
  }

  /** Surrounding white space does not matter to a key. */
  lemma KeyOfTrimmed(p: string, m: string, q: string, n: string)
    requires Trim(p) == Trim(q) && Trim(m) == Trim(n)
    ensures ModelKey(p, m) == ModelKey(q, n)
  {
    hide Lower, Canonical, TrimLeft, TrimRight;
    TrimLeftLower(p);
    TrimRightLower(TrimLeft(p));
    TrimLeftLower(q);
    TrimRightLower(TrimLeft(q));
  }

  /** A key of a provider without slashes is read back as it was written. */
  lemma KeyIsNormal(p: string, m: string)
    requires '/' !in p
    ensures NormalizeRef(ModelKey(p, m)) == ModelKey(p, m) != ""
  {
    hide Trim, NormalizeProviderID, Slash;
    var ref := NormalizeModelRef(p, m);
    var key := ModelKey(p, m);
    NormalizedSlash(p);
    NormalizedIsNormal(p, m);
    SlashKeyIsTrimmed(p, m);
    assert key[|ref.provider|] == '/';
    assert key[..|ref.provider|] == ref.provider && key[|ref.provider| + 1..] == ref.model;
    FirstSlash(key, |ref.provider|);
  }

  lemma SlashKeyIsTrimmed(p: string, m: string)
    ensures Trimmed(ModelKey(p, m))
  {
    hide Trim, NormalizeProviderID;
    NormalizeProviderIdempotent(p);
    TrimTwice(m);
    TrimmedEnds(NormalizeProviderID(p));
    TrimmedEnds(Trim(m));
    TrimmedEnds(ModelKey(p, m));
  }

  lemma ConfiguredIsNormal(providers: Providers, ref: string)
    requires NoSlashes(providers) && Configured(providers, ref)
    ensures NormalizeRef(ref) == ref && ref != ""
  {
    hide ModelKey, NormalizeRef;
    var p: string, k: nat :| ConfiguredAt(providers, ref, p, k);
    KeyIsNormal(p, providers[p].models[k].id);
  }

  lemma {:induction false} NormalRefsStay(refs: seq<string>)
    requires forall f :: f in refs ==> NormalizeRef(f) == f && f != ""
    ensures NormalizeRefs(refs) == refs
  {
    hide NormalizeRef;
    if refs != [] { NormalRefsStay(refs[1..]); }
  }

  /** Consistent references are read back as they were written, unless there are none and the stand-in shows. */
  lemma ReadBack(c: Config, r: Refs)
    requires NoSlashes(c.providers) && ConsistentRefs(c.providers, r)
    ensures ResolveRefs(SetRefs(c, r)) == if c.entry.Some? && r == NO_REFS then DefaultRefs(c) else r
  {
    hide NormalizeRef, NoSlashes, Configured;
    if r.primary == "" { BlankIsNormal(); } else { ConfiguredIsNormal(c.providers, r.primary); }
    forall f | f in r.fallbacks ensures NormalizeRef(f) == f && f != "" { ConfiguredIsNormal(c.providers, f); }
    NormalRefsStay(r.fallbacks);
  }

  lemma BlankIsNormal()
    ensures NormalizeRef("") == ""
  {
  }

  /** So writing consistent references makes a consistent configuration iff they show, or the stand-in is fine. */
  lemma WriteIsConsistentIff(c: Config, r: Refs)
    requires NoSlashes(c.providers) && ConsistentRefs(c.providers, r)
    ensures Consistent(SetRefs(c, r)) <==>
            c.entry.None? || r != NO_REFS || ConsistentRefs(c.providers, DefaultRefs(c))
  {
    hide NormalizeRef, NoSlashes, ConsistentRefs, ResolveRefs;
    ReadBack(c, r);
  }

  // ---- Editing the providers ----

  lemma {:induction false} UpdatedAt(models: seq<Model>, m: Model, k: nat)
    requires k < |models|
    ensures |Updated(models, m)| == |models|
    ensures Updated(models, m)[k] == if Trim(models[k].id) == m.id then m else models[k]
  {
    hide Trim;
    if k > 0 {
      UpdatedAt(models[1..], m, k - 1);
    } else if |models| > 1 {
      UpdatedAt(models[1..], m, 0);
    }
  }

  lemma {:induction false} ListedAt(models: seq<Model>, id: string) returns (k: nat)
    requires Listed(models, id)
    ensures k < |models| && Trim(models[k].id) == id
  {
    hide Trim;
    if Trim(models[0].id) == id { return 0; }
    k := ListedAt(models[1..], id);
    k := k + 1;
  }

  /** Updating or adding a model takes none away. */
  lemma PutKeeps(providers: Providers, q: Request, ref: string)
    requires Trimmed(q.modelId) && Configured(providers, ref)
    ensures Configured(PutProvider(providers, q), ref)
  {
    hide Trim, ModelKey;
    var p: string, k: nat :| ConfiguredAt(providers, ref, p, k);
    var models := providers[p].models;
    var m := Model(q.modelId, q.name);
    UpdatedAt(models, m, k);
    if p == q.providerId && Trim(models[k].id) == m.id { KeyOfTrimmed(p, models[k].id, p, m.id); }
    assert ConfiguredAt(PutProvider(providers, q), ref, p, k);
  }

  lemma PutConfigures(providers: Providers, q: Request)
    requires Trimmed(q.modelId)
    ensures Configured(PutProvider(providers, q), ModelKey(q.providerId, q.modelId))
  {
    hide Trim, ModelKey;
    var before := ProviderAt(providers, q.providerId).models;
    var m := Model(q.modelId, q.name);
    var key := ModelKey(q.providerId, q.modelId);
    if Listed(before, m.id) {
      var k := ListedAt(before, m.id);
      UpdatedAt(before, m, k);
      assert ConfiguredAt(PutProvider(providers, q), key, q.providerId, k);
    } else {
      assert PutModel(before, m)[|Updated(before, m)|] == m;
      assert ConfiguredAt(PutProvider(providers, q), key, q.providerId, |Updated(before, m)|);
    }
  }

  lemma {:induction false} OthersHas(models: seq<Model>, id: string, k: nat) returns (j: nat)
    requires k < |models| && Trim(models[k].id) != id
    ensures j < |Others(models, id)| && Others(models, id)[j] == models[k]
  {
    hide Trim;
    if k == 0 { return 0; }
    j := OthersHas(models[1..], id, k - 1);
    if Trim(models[0].id) != id { j := j + 1; }
  }

  /** Removing a model takes no other key away. */
  lemma RemoveKeeps(providers: Providers, providerId: string, modelId: string, ref: string)
    requires Configured(providers, ref) && ref != ModelKey(providerId, modelId)
    ensures Configured(RemoveModel(providers, providerId, modelId), ref)
  {
    hide Trim, ModelKey;
    var p: string, k: nat :| ConfiguredAt(providers, ref, p, k);
    var after := RemoveModel(providers, providerId, modelId);
    if p != Trim(providerId) {
      assert ConfiguredAt(after, ref, p, k);
    } else {
      var models := providers[p].models;
      if Trim(models[k].id) == Trim(modelId) {
        TrimTwice(providerId);
        KeyOfTrimmed(p, models[k].id, providerId, modelId);
        assert false;
      }
      var j := OthersHas(models, Trim(modelId), k);
      assert ConfiguredAt(after, ref, p, j);
    }
  }

  /** A model that is there has a configured key. */
  lemma HasModelIsConfigured(providers: Providers, providerId: string, modelId: string)
    requires HasModel(providers, providerId, modelId)
    ensures Configured(providers, ModelKey(providerId, modelId))
  {
    hide Trim, ModelKey;
    var p := Trim(providerId);
    var k := ListedAt(providers[p].models, Trim(modelId));
    TrimTwice(providerId);
    KeyOfTrimmed(p, providers[p].models[k].id, providerId, modelId);
    assert ConfiguredAt(providers, ModelKey(providerId, modelId), p, k);
  }

  // ---- Editing the references ----

  lemma {:induction false} WithoutKeeps(refs: seq<string>, ref: string)
    ensures forall f :: f in Without(refs, ref) <==> f in refs && f != ref
    ensures NoRepeats(refs) ==> NoRepeats(Without(refs, ref))
  {
    if refs != [] {
      WithoutKeeps(refs[1..], ref);
      var rest := Without(refs[1..], ref);
      assert refs == [refs[0]] + refs[1..];
      if NoRepeats(refs) {
        assert NoRepeats(refs[1..]);
        assert refs[0] !in refs[1..];
      }
    }
  }

  lemma {:induction false} RemoveRefIsWithout(refs: seq<string>, target: string)
    requires NormalizeRef(target) == target != ""
    requires forall f :: f in refs ==> NormalizeRef(f) == f
    ensures RemoveRef(refs, target) == Without(refs, target)
  {
    hide NormalizeRef;
    if refs != [] { RemoveRefIsWithout(refs[1..], target); }
  }

  lemma {:induction false} ReplaceInKeeps(
    refs: seq<string>, oldRef: string, newRef: string, primary: string, seen: set<string>)
    ensures var out := ReplaceIn(refs, oldRef, newRef, primary, seen);
            && NoRepeats(out)
            && forall f :: f in out ==>
                 f != "" && f != primary && f !in seen && (f == newRef || (f in refs && f != oldRef))
  {
    if refs != [] {
      var item := Renamed(refs[0], oldRef, newRef);
      ReplaceInKeeps(refs[1..], oldRef, newRef, primary, seen);
      ReplaceInKeeps(refs[1..], oldRef, newRef, primary, seen + {item});
    }
  }

  /** Renaming carries over to providers that have the new key and all old ones but the renamed. */
  lemma ReplaceKeepsConsistent(before: Providers, after: Providers, r: Refs, oldRef: string, newRef: string)
    requires ConsistentRefs(before, r) && Configured(after, newRef)
    requires forall f :: Configured(before, f) && f != oldRef ==> Configured(after, f)
    ensures ConsistentRefs(after, ReplaceRef(r, oldRef, newRef))
  {
    hide Configured;
    var primary := Renamed(r.primary, oldRef, newRef);
    ReplaceInKeeps(r.fallbacks, oldRef, newRef, primary, {});
  }

  lemma PrimaryAdded(providers: Providers, r: Refs, ref: string)
    requires ConsistentRefs(providers, r) && Configured(providers, ref) && ref != ""
    ensures ConsistentRefs(providers, Refs(ref, Without(r.fallbacks, ref)))
  {
    hide Configured;
    WithoutKeeps(r.fallbacks, ref);
  }

  // ---- The four edits ----

  lemma UpsertedProvidersKeep(providers: Providers, q: Request)
    requires Trimmed(q.modelId) && NoSlashes(providers) && '/' !in q.providerId
    ensures NoSlashes(UpsertedProviders(providers, q))
  {
    hide Trim, PutModel, Others;
  }

  lemma UpsertedConfigures(providers: Providers, q: Request, ref: string)
    requires q == Cleaned(q)
    requires Configured(providers, ref) || ref == ModelKey(q.providerId, q.modelId)
    requires Renames(q) && ref == ModelKey(q.existingProviderId, q.existingModelId) ==>
               ref == ModelKey(q.providerId, q.modelId)
    ensures Configured(UpsertedProviders(providers, q), ref)
  {
    hide Trim, ModelKey, Configured, PutProvider, RemoveModel;
    var put := PutProvider(providers, q);
    if ref == ModelKey(q.providerId, q.modelId) { PutConfigures(providers, q); } else { PutKeeps(providers, q, ref); }
    if Renames(q) {
      if ref != ModelKey(q.existingProviderId, q.existingModelId) {
        RemoveKeeps(put, q.existingProviderId, q.existingModelId, ref);
      } else {
        NewEntryStays(providers, q);
      }
    }
  }

  /** The requested entry is not the one a rename removes, even when both have the same key. */
  lemma NewEntryStays(providers: Providers, q: Request)
    requires q == Cleaned(q) && Renames(q)
    ensures Configured(UpsertedProviders(providers, q), ModelKey(q.providerId, q.modelId))
  {
    hide Trim, ModelKey;
    var put := PutProvider(providers, q);
    var models := put[q.providerId].models;
    var key := ModelKey(q.providerId, q.modelId);
    var k := NewEntryAt(ProviderAt(providers, q.providerId).models, Model(q.modelId, q.name));
    if q.existingProviderId == q.providerId {
      var j := OthersHas(models, q.existingModelId, k);
      assert ConfiguredAt(UpsertedProviders(providers, q), key, q.providerId, j);
    } else {
      assert ConfiguredAt(UpsertedProviders(providers, q), key, q.providerId, k);
    }
  }

  lemma NewEntryAt(before: seq<Model>, m: Model) returns (k: nat)
    ensures k < |PutModel(before, m)| && PutModel(before, m)[k] == m
  {
    hide Trim;
    if Listed(before, m.id) {
      k := ListedAt(before, m.id);
      UpdatedAt(before, m, k);
    } else {
      k := |Updated(before, m)|;
    }
  }

  lemma CleanedIsClean(request: Request)
    ensures Cleaned(Cleaned(request)) == Cleaned(request)
  {
    hide Trim;
    TrimTwice(request.providerId);
    TrimTwice(request.modelId);
    TrimTwice(request.baseUrl);
    TrimTwice(request.api);
    TrimTwice(request.apiKey);
    TrimTwice(request.name);
    TrimTwice(request.existingProviderId);
    TrimTwice(request.existingModelId);
  }

  lemma UpsertedRefsConsistent(c: Config, q: Request)
    requires Consistent(c) && q == Cleaned(q) && '/' !in q.providerId
    ensures ConsistentRefs(UpsertedProviders(c.providers, q), UpsertedRefs(ResolveRefs(c), q))
    ensures UpsertedRefs(ResolveRefs(c), q) != NO_REFS
  {
    hide Trim, ModelKey, Configured, UpsertedProviders, ResolveRefs, ReplaceRef, RemoveRef, NoSlashes, NormalizeRef;
    var after := UpsertedProviders(c.providers, q);
    var r := ResolveRefs(c);
    var oldRef, newRef := ModelKey(q.existingProviderId, q.existingModelId), ModelKey(q.providerId, q.modelId);
    UpsertedConfigures(c.providers, q, newRef);
    KeyIsNormal(q.providerId, q.modelId);
    var s := if Renames(q) then ReplaceRef(r, oldRef, newRef) else r;
    forall f | Configured(c.providers, f) && (Renames(q) ==> f != oldRef) ensures Configured(after, f) {
      UpsertedConfigures(c.providers, q, f);
    }
    if Renames(q) { ReplaceKeepsConsistent(c.providers, after, r, oldRef, newRef); }
    assert ConsistentRefs(after, s);
    UpsertedProvidersKeep(c.providers, q);
    if Trim(s.primary) == "" {
      forall f | f in s.fallbacks ensures NormalizeRef(f) == f { ConfiguredIsNormal(after, f); }
      RemoveRefIsWithout(s.fallbacks, newRef);
      PrimaryAdded(after, s, newRef);
    } else {
      NothingTrims();
    }
  }

  /** An upsert, with or without a rename, always leaves consistent references. */
  lemma UpsertKeepsConsistent(c: Config, request: Request)
    requires Consistent(c) && '/' !in Trim(request.providerId)
    ensures Upsert(c, request).Ok? ==> Consistent(Upsert(c, request).value)
  {
    hide Trim, UpsertedProviders, UpsertedRefs, Consistent, ConsistentRefs, ResolveRefs, NoSlashes;
    var q := Cleaned(request);
    CleanedIsClean(request);
    UpsertedRefsConsistent(c, q);
    assert NoSlashes(c.providers) by { ConsistentHasNoSlashes(c); }
    UpsertedProvidersKeep(c.providers, q);
    WriteIsConsistentIff(c.(providers := UpsertedProviders(c.providers, q)), UpsertedRefs(ResolveRefs(c), q));
  }

  lemma ConsistentHasNoSlashes(c: Config)
    requires Consistent(c)
    ensures NoSlashes(c.providers) && ConsistentRefs(c.providers, ResolveRefs(c))
  {
  }

  lemma DeletedRefsConsistent(providers: Providers, r: Refs, providerId: string, modelId: string)
    requires ConsistentRefs(providers, r)
    ensures ConsistentRefs(RemoveModel(providers, providerId, modelId), DeletedRefs(r, ModelKey(providerId, modelId)))
  {
    hide Trim, ModelKey, Configured, RemoveModel;
    var ref := ModelKey(providerId, modelId);
    WithoutKeeps(r.fallbacks, ref);
    forall f | Configured(providers, f) && f != ref ensures Configured(RemoveModel(providers, providerId, modelId), f) {
      RemoveKeeps(providers, providerId, modelId, f);
    }
    var rest := Without(r.fallbacks, ref);
    if rest != [] {
      forall f | f in rest[1..] ensures f in rest && f != rest[0] {
        var j :| 0 <= j < |rest[1..]| && rest[1..][j] == f;
        assert rest[j + 1] == f;
      }
    }
  }

  /**
   After a delete the references are consistent if and only if some are left to write, or nothing is listed for
   the default agent, or the stand-in, which shows again, is itself consistent.
   */
  lemma DeleteKeepsConsistentIff(c: Config, providerId: string, modelId: string)
    requires Consistent(c) && Delete(c, providerId, modelId).Ok?
    ensures var d := Delete(c, providerId, modelId).value;
            Consistent(d) <==>
            || c.entry.None?
            || DeletedRefs(ResolveRefs(c), ModelKey(providerId, modelId)) != NO_REFS
            || ConsistentRefs(d.providers, DefaultRefs(c))
  {
    hide Trim, ModelKey, RemoveModel, ConsistentRefs, NoSlashes, Consistent, NormalizeRef, DeletedRefs;
    ConsistentHasNoSlashes(c);
    var removed := c.(providers := RemoveModel(c.providers, providerId, modelId));
    DeletedRefsConsistent(c.providers, ResolveRefs(c), providerId, modelId);
    RemoveKeepsNoSlashes(c.providers, providerId, modelId);
    WriteIsConsistentIff(removed, DeletedRefs(ResolveRefs(c), ModelKey(providerId, modelId)));
  }

  lemma RemoveKeepsNoSlashes(providers: Providers, providerId: string, modelId: string)
    requires NoSlashes(providers)
    ensures NoSlashes(RemoveModel(providers, providerId, modelId))
  {
    hide Trim, Others;
  }

  lemma SetDefaultKeepsConsistent(c: Config, providerId: string, modelId: string)
    requires Consistent(c)
    ensures SetDefault(c, providerId, modelId).Ok? ==>
              var d := SetDefault(c, providerId, modelId).value;
              Consistent(d) && ResolveRefs(d).primary == ModelKey(providerId, modelId)
  {
    hide Trim, ModelKey, ConsistentRefs, NoSlashes, Configured, Consistent, NormalizeRef, ResolveRefs;
    if SetDefault(c, providerId, modelId).Ok? {
      ConsistentHasNoSlashes(c);
      var ref := ModelKey(providerId, modelId);
      HasModelIsConfigured(c.providers, providerId, modelId);
      ConfiguredIsNormal(c.providers, ref);
      PrimaryAdded(c.providers, ResolveRefs(c), ref);
      WriteIsConsistentIff(c, Refs(ref, Without(ResolveRefs(c).fallbacks, ref)));
      ReadBack(c, Refs(ref, Without(ResolveRefs(c).fallbacks, ref)));
    }
  }

  lemma FallbackRefsConsistent(providers: Providers, r: Refs, ref: string, enabled: bool)
    requires ConsistentRefs(providers, r) && Configured(providers, ref) && ref != "" && ref != r.primary
    ensures ConsistentRefs(providers, Refs(r.primary, FallbackRefs(r.fallbacks, ref, enabled)))
  {
    hide Configured;
    WithoutKeeps(r.fallbacks, ref);
  }

  /** Turning the last reference off brings the stand-in back, as deleting it does. */
  lemma SetFallbackKeepsConsistentIff(c: Config, providerId: string, modelId: string, enabled: bool)
    requires Consistent(c) && SetFallback(c, providerId, modelId, enabled).Ok?
    ensures var d := SetFallback(c, providerId, modelId, enabled).value;
            var r, ref := ResolveRefs(c), ModelKey(providerId, modelId);
            Consistent(d) <==>
            || r.primary == ref || c.entry.None?
            || Refs(r.primary, FallbackRefs(r.fallbacks, ref, enabled)) != NO_REFS
            || ConsistentRefs(c.providers, DefaultRefs(c))
  {
    hide Trim, ModelKey, ConsistentRefs, NoSlashes, Configured, Consistent, NormalizeRef, ResolveRefs, FallbackRefs;
    var r, ref := ResolveRefs(c), ModelKey(providerId, modelId);
    if r.primary != ref {
      ConsistentHasNoSlashes(c);
      HasModelIsConfigured(c.providers, providerId, modelId);
      ConfiguredIsNormal(c.providers, ref);
      FallbackRefsConsistent(c.providers, r, ref, enabled);
      WriteIsConsistentIff(c, Refs(r.primary, FallbackRefs(r.fallbacks, ref, enabled)));
    }
  }

  /** A configuration whose references go wrong when its only model is deleted: the stand-in names no model. */
  lemma DeletingTheLastModelCanDangle()
    ensures
      var providers := map["p" := Provider("u", "a", "", [Model("m", "")])];
      var c := Config(providers, Some(Refs("p/m", [])), Some(Refs("q/n", [])));
      && Consistent(c) && Delete(c, "p", "m").Ok?
      && !Consistent(Delete(c, "p", "m").value)
  {
    hide Trim, ModelKey, NormalizeRef, Slash;
    var providers := map["p" := Provider("u", "a", "", [Model("m", "")])];
    var c := Config(providers, Some(Refs("p/m", [])), Some(Refs("q/n", [])));
    PlainKey("p", "m");
    PlainKey("q", "n");
    assert "p" + "/" + "m" == "p/m" && "q" + "/" + "n" == "q/n";
    assert ConfiguredAt(providers, "p/m", "p", 0);
    assert ResolveRefs(c) == Refs("p/m", []);
    assert Without([], "p/m") == [];
    assert HasModel(providers, "p", "m");
    assert RemoveModel(providers, "p", "m") == map[];
    assert DefaultRefs(c) == Refs("q/n", []);
    DeleteKeepsConsistentIff(c, "p", "m");
    assert !Configured(map[], "q/n");
  }

  lemma PlainKey(p: string, m: string)
    requires |p| == |m| == 1 && 'm' <= p[0] <= 'q' && 'm' <= m[0] <= 'q'
    ensures Trim(p) == p && Trim(m) == m
    ensures ModelKey(p, m) == p + "/" + m && NormalizeRef(p + "/" + m) == p + "/" + m
  {
    hide Trim;
    TrimmedEnds(p);
    TrimmedEnds(m);
    LowerIsLower(p);
    KeyIsNormal(p, m);
  }

  // ---- Whole runs of edits ----

  datatype Edit =
    | UpsertModel(request: Request)
    | DeleteModel(providerId: string, modelId: string)
    | MakeDefault(providerId: string, modelId: string)
    | MakeFallback(providerId: string, modelId: string, enabled: bool)

  function Outcome(c: Config, e: Edit): Result<Config> {
    match e
    case UpsertModel(request) => Upsert(c, request)
    case DeleteModel(providerId, modelId) => Delete(c, providerId, modelId)
    case MakeDefault(providerId, modelId) => SetDefault(c, providerId, modelId)
    case MakeFallback(providerId, modelId, enabled) => SetFallback(c, providerId, modelId, enabled)
  }

  /** A rejected edit changes nothing. */
  function AfterEdit(c: Config, e: Edit): Config {
    if Outcome(c, e).Ok? then Outcome(c, e).value else c
  }

  function AfterEdits(c: Config, edits: seq<Edit>): Config
    decreases |edits|
  {
    if edits == [] then c else AfterEdits(AfterEdit(c, edits[0]), edits[1..])
  }

  /** Reads see what was written: no entry of its own for the default agent, or nothing in the stand-in. */
  predicate ReadsSeeWrites(c: Config) {
    c.entry.None? || DefaultRefs(c) == NO_REFS
  }

  predicate SlashFree(e: Edit) {
    e.UpsertModel? ==> '/' !in Trim(e.request.providerId)
  }

  lemma EditKeepsReadsSeeWrites(c: Config, e: Edit)
    requires ReadsSeeWrites(c)
    ensures ReadsSeeWrites(AfterEdit(c, e))
  {
    hide Trim, ModelKey, NormalizeRef, HasModel, Cleaned, ResolveRefs, RemoveModel;
  }

  lemma NoRefsConsistent(providers: Providers)
    ensures ConsistentRefs(providers, NO_REFS)
  {
  }

  lemma EditKeepsConsistent(c: Config, e: Edit)
    requires Consistent(c) && ReadsSeeWrites(c) && SlashFree(e)
    ensures Consistent(AfterEdit(c, e))
  {
    hide Consistent, ConsistentRefs, Upsert, Delete, SetDefault, SetFallback, ResolveRefs, Trim, ModelKey;
    if Outcome(c, e).Ok? {
      match e
      case UpsertModel(request) => UpsertKeepsConsistent(c, request);
      case DeleteModel(providerId, modelId) =>
        DeleteKeepsConsistentIff(c, providerId, modelId);
        NoRefsConsistent(Outcome(c, e).value.providers);
      case MakeDefault(providerId, modelId) => SetDefaultKeepsConsistent(c, providerId, modelId);
      case MakeFallback(providerId, modelId, enabled) =>
        SetFallbackKeepsConsistentIff(c, providerId, modelId, enabled);
        NoRefsConsistent(c.providers);
    }
  }

  /** Any sequence of edits keeps every reference of the default agent pointing at a configured model. */
  lemma {:induction false} EditsKeepConsistent(c: Config, edits: seq<Edit>)
    requires Consistent(c) && ReadsSeeWrites(c) && forall i :: 0 <= i < |edits| ==> SlashFree(edits[i])
    ensures Consistent(AfterEdits(c, edits))
    decreases |edits|
  {
    hide Consistent, AfterEdit, ReadsSeeWrites, SlashFree;
    if edits != [] {
      EditKeepsConsistent(c, edits[0]);
      EditKeepsReadsSeeWrites(c, edits[0]);
      EditsKeepConsistent(AfterEdit(c, edits[0]), edits[1..]);
    }
  }
}
