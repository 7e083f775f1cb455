/** What an edit of the configured models does, said by positions: what is there afterwards, and what is untouched. */
module BrainModelsEdits {
  import opened Text
  import opened ModelSelection
  import opened BrainModels
  import opened Sublists
  import opened BrainModelsTheorems

  // ---- Lists without an element ----

  function HasId(id: string): Model -> bool {
    (m: Model) => Trim(m.id) == id
  }

  function Is(ref: string): string -> bool {
    (r: string) => r == ref
  }

  function NormalizesTo(ref: string): string -> bool {
    (r: string) => NormalizeRef(r) == NormalizeRef(ref)
  }

  predicate Has(models: seq<Model>, id: string) {
    exists k :: 0 <= k < |models| && Trim(models[k].id) == id
  }

  predicate HasOther(models: seq<Model>, id: string) {
    exists k :: 0 <= k < |models| && Trim(models[k].id) != id
  }

  lemma {:induction false} ListedIsHas(models: seq<Model>, id: string)
    ensures Listed(models, id) <==> Has(models, id)
  {
    hide Trim;
    if models != [] {
      ListedIsHas(models[1..], id);
      forall k | 0 < k < |models| ensures models[k] == models[1..][k - 1] {}
      if Has(models[1..], id) {
        var k :| 0 <= k < |models[1..]| && Trim(models[1..][k].id) == id;
        assert models[k + 1] == models[1..][k];
      }
    }
  }

  lemma {:induction false} OthersIsWithout(models: seq<Model>, id: string)
    ensures IsWithout(models, Others(models, id), HasId(id))
    ensures Others(models, id) != [] <==> HasOther(models, id)
  {
    hide Trim, IsWithout;
    if models == [] {
      WithoutNothing(HasId(id));
    } else {
      OthersIsWithout(models[1..], id);
      if Trim(models[0].id) == id {
        WithoutFirst(models, Others(models[1..], id), HasId(id));
        HasOtherTail(models, id);
      } else {
        WithFirst(models, Others(models[1..], id), HasId(id));
      }
    }
  }

  lemma HasOtherTail(models: seq<Model>, id: string)
    requires models != [] && Trim(models[0].id) == id
    ensures HasOther(models, id) <==> HasOther(models[1..], id)
  {
    hide Trim;
    if HasOther(models, id) {
      var k :| 0 <= k < |models| && Trim(models[k].id) != id;
      assert models[1..][k - 1] == models[k];
    }
    if HasOther(models[1..], id) {
      var k :| 0 <= k < |models[1..]| && Trim(models[1..][k].id) != id;
      assert models[k + 1] == models[1..][k];
    }
  }

  lemma {:induction false} WithoutIsWithout(refs: seq<string>, ref: string)
    ensures IsWithout(refs, Without(refs, ref), Is(ref))
  {
    hide IsWithout;
    if refs == [] {
      WithoutNothing(Is(ref));
    } else {
      WithoutIsWithout(refs[1..], ref);
      if refs[0] == ref {
        WithoutFirst(refs, Without(refs[1..], ref), Is(ref));
      } else {
        WithFirst(refs, Without(refs[1..], ref), Is(ref));
      }
    }
  }

  lemma {:induction false} RemoveRefIs(refs: seq<string>, ref: string)
    requires NormalizeRef(ref) != ""
    ensures IsWithout(refs, RemoveRef(refs, ref), NormalizesTo(ref))
  {
    hide IsWithout, NormalizeRef;
    if refs == [] {
      WithoutNothing(NormalizesTo(ref));
    } else {
      RemoveRefIs(refs[1..], ref);
      if NormalizeRef(refs[0]) == NormalizeRef(ref) {
        WithoutFirst(refs, RemoveRef(refs[1..], ref), NormalizesTo(ref));
      } else {
        WithFirst(refs, RemoveRef(refs[1..], ref), NormalizesTo(ref));
      }
    }
  }

  // ---- The providers ----

  /** Every other provider is as before. */
  ghost predicate OthersUntouched(before: Providers, after: Providers, p: string) {
    forall q :: q != p ==> (q in after <==> q in before) && (q in before && q in after ==> after[q] == before[q])
  }

  /**
   Provider p lists no model with this id any more. It has its settings and its other models, in order; it is
   there if and only if there are any.
   */
  ghost predicate ModelGone(before: Providers, after: Providers, p: string, id: string) {
    && OthersUntouched(before, after, p)
    && (p in after <==> p in before && HasOther(before[p].models, id))
    && (p in after ==>
          && after[p].baseUrl == before[p].baseUrl && after[p].api == before[p].api
          && after[p].apiKey == before[p].apiKey
          && IsWithout(before[p].models, after[p].models, HasId(id)))
  }

  lemma RemoveModelGone(providers: Providers, providerId: string, modelId: string)
    ensures ModelGone(providers, RemoveModel(providers, providerId, modelId), Trim(providerId), Trim(modelId))
  {
    hide Trim, IsWithout, HasOther, Others;
    var key := Trim(providerId);
    if key in providers { OthersIsWithout(providers[key].models, Trim(modelId)); }
  }

  lemma GoneIsNotListed(before: Providers, after: Providers, p: string, id: string)
    requires ModelGone(before, after, p, id)
    ensures p in after ==> !Has(after[p].models, id)
  {
    hide Trim, IsWithout;
    if p in after {
      forall k | 0 <= k < |after[p].models| ensures Trim(after[p].models[k].id) != id {
        DroppedIsGone(before[p].models, after[p].models, HasId(id), k);
      }
    }
  }

  /** The models with the id of `m` are now `m`, the others are where they were; if there was none, `m` is added. */
  predicate ModelIn(before: seq<Model>, after: seq<Model>, m: Model) {
    && |after| == |before| + (if Has(before, m.id) then 0 else 1)
    && (forall k :: 0 <= k < |before| ==> after[k] == if Trim(before[k].id) == m.id then m else before[k])
    && (forall k :: |before| <= k < |after| ==> after[k] == m)
  }

  /** Provider p has these settings, its former API key where the given one is blank, and the model. */
  ghost predicate ModelPut(
    before: Providers, after: Providers, p: string, baseUrl: string, api: string, apiKey: string, m: Model)
  {
    && OthersUntouched(before, after, p)
    && p in after && after[p].baseUrl == baseUrl && after[p].api == api
    && after[p].apiKey == (if apiKey != "" then apiKey else if p in before then before[p].apiKey else "")
    && ModelIn(if p in before then before[p].models else [], after[p].models, m)
  }

  lemma PutProviderPuts(providers: Providers, q: Request)
    ensures ModelPut(providers, PutProvider(providers, q), q.providerId, q.baseUrl, q.api, q.apiKey,
                     Model(q.modelId, q.name))
  {
    hide Trim, ModelIn, PutModel;
    PutModelPuts(ProviderAt(providers, q.providerId).models, Model(q.modelId, q.name));
  }

  lemma PutModelPuts(before: seq<Model>, m: Model)
    ensures ModelIn(before, PutModel(before, m), m)
  {
    hide Trim, Has;
    ListedIsHas(before, m.id);
    UpdatedLength(before, m);
    forall k | 0 <= k < |before| ensures Updated(before, m)[k] == if Trim(before[k].id) == m.id then m else before[k] {
      UpdatedAt(before, m, k);
    }
  }

  lemma {:induction false} UpdatedLength(models: seq<Model>, m: Model)
    ensures |Updated(models, m)| == |models|
  {
    hide Trim;
    if models != [] { UpdatedLength(models[1..], m); }
  }

  // ---- The references ----

  /** `after` is `before` with these references of the default agent. */
  predicate Written(before: Config, after: Config, r: Refs) {
    if before.entry.Some? then after.entry == Some(r) && after.defaults == before.defaults
    else after.entry == None && after.defaults == Some(r)
  }

  /** The old reference is the new one everywhere. */
  function NowCalled(ref: string, oldRef: string, newRef: string): string {
    if ref == oldRef then newRef else ref
  }

  /** The list has each renamed reference once, where it first stood, and neither a blank nor the primary. */
  ghost predicate RenamedOnce(
    before: seq<string>, after: seq<string>, oldRef: string, newRef: string, primary: string, seen: set<string>)
  {
    exists at: seq<nat> :: RenamedAt(before, after, oldRef, newRef, primary, seen, at)
  }

  predicate IsFirst(before: seq<string>, oldRef: string, newRef: string, k: nat)
    requires k < |before|
  {
    forall j :: 0 <= j < k ==> NowCalled(before[j], oldRef, newRef) != NowCalled(before[k], oldRef, newRef)
  }

  predicate Wanted(
    before: seq<string>, oldRef: string, newRef: string, primary: string, seen: set<string>, k: nat)
    requires k < |before|
  {
    var ref := NowCalled(before[k], oldRef, newRef);
    ref != "" && ref != primary && ref !in seen && IsFirst(before, oldRef, newRef, k)
  }

  ghost predicate RenamedAt(
    before: seq<string>, after: seq<string>, oldRef: string, newRef: string, primary: string, seen: set<string>,
    at: seq<nat>)
  {
    && |at| == |after|
    && (forall k :: 0 <= k < |at| ==>
          && at[k] < |before| && Wanted(before, oldRef, newRef, primary, seen, at[k])
          && after[k] == NowCalled(before[at[k]], oldRef, newRef))
    && (forall i, j :: 0 <= i < j < |at| ==> at[i] < at[j])
    && (forall i :: 0 <= i < |before| && Wanted(before, oldRef, newRef, primary, seen, i) ==> i in at)
  }

  lemma WantedTail(
    before: seq<string>, oldRef: string, newRef: string, primary: string, seen: set<string>, k: nat)
    requires 0 < k < |before|
    ensures
      var first := NowCalled(before[0], oldRef, newRef);
      Wanted(before, oldRef, newRef, primary, seen, k) <==>
      Wanted(before[1..], oldRef, newRef, primary, seen, k - 1)
      && NowCalled(before[k], oldRef, newRef) != first
  {
    if IsFirst(before, oldRef, newRef, k) {
      forall j | 0 <= j < k - 1
        ensures NowCalled(before[1..][j], oldRef, newRef) != NowCalled(before[1..][k - 1], oldRef, newRef)
      {
        assert NowCalled(before[j + 1], oldRef, newRef) != NowCalled(before[k], oldRef, newRef);
      }
      assert NowCalled(before[0], oldRef, newRef) != NowCalled(before[k], oldRef, newRef);
    }
    if IsFirst(before[1..], oldRef, newRef, k - 1)
       && NowCalled(before[k], oldRef, newRef) != NowCalled(before[0], oldRef, newRef)
    {
      forall j | 0 <= j < k ensures NowCalled(before[j], oldRef, newRef) != NowCalled(before[k], oldRef, newRef) {
        if j > 0 { assert before[1..][j - 1] == before[j]; }
      }
    }
  }

  lemma {:induction false} ReplaceInIs(
    refs: seq<string>, oldRef: string, newRef: string, primary: string, seen: set<string>) returns (at: seq<nat>)
    ensures RenamedAt(refs, ReplaceIn(refs, oldRef, newRef, primary, seen), oldRef, newRef, primary, seen, at)
    decreases |refs|
  {
    hide Wanted, RenamedAt;
    if refs == [] {
      at := [];
      NothingRenamed(oldRef, newRef, primary, seen);
    } else {
      var first := NowCalled(refs[0], oldRef, newRef);
      FirstWanted(refs, oldRef, newRef, primary, seen);
      forall k | 0 < k < |refs| { RestWanted(refs, oldRef, newRef, primary, seen, k); }
      if first == "" || first == primary || first in seen {
        var rest := ReplaceInIs(refs[1..], oldRef, newRef, primary, seen);
        RenamedDropped(refs, ReplaceIn(refs[1..], oldRef, newRef, primary, seen), oldRef, newRef, primary, seen, rest);
        at := Shifted(rest);
      } else {
        var next := seen + {first};
        var rest := ReplaceInIs(refs[1..], oldRef, newRef, primary, next);
        RenamedKept(
          refs, ReplaceIn(refs[1..], oldRef, newRef, primary, next), oldRef, newRef, primary, seen, next, rest);
        at := [0] + Shifted(rest);
      }
    }
  }

  lemma NothingRenamed(oldRef: string, newRef: string, primary: string, seen: set<string>)
    ensures RenamedAt([], [], oldRef, newRef, primary, seen, [])
  {
  }

  lemma FirstWanted(refs: seq<string>, oldRef: string, newRef: string, primary: string, seen: set<string>)
    requires refs != []
    ensures
      var first := Renamed(refs[0], oldRef, newRef);
      Wanted(refs, oldRef, newRef, primary, seen, 0) <==> !(first == "" || first == primary || first in seen)
  {
  }

  lemma RestWanted(refs: seq<string>, oldRef: string, newRef: string, primary: string, seen: set<string>, k: nat)
    requires 0 < k < |refs|
    ensures
      var first := Renamed(refs[0], oldRef, newRef);
      var dropped := first == "" || first == primary || first in seen;
      Wanted(refs, oldRef, newRef, primary, seen, k) <==>
      Wanted(refs[1..], oldRef, newRef, primary, if dropped then seen else seen + {first}, k - 1)
  {
    hide IsFirst;
    WantedTail(refs, oldRef, newRef, primary, seen, k);
    IsFirstTail(refs, oldRef, newRef, k);
  }

  lemma IsFirstTail(refs: seq<string>, oldRef: string, newRef: string, k: nat)
    requires 0 < k < |refs|
    ensures refs[1..][k - 1] == refs[k]
  {
  }

  /** In the tail the wanted positions are those of the list, one lower. */
  predicate WantedAgree(
    refs: seq<string>, oldRef: string, newRef: string, primary: string, seen: set<string>, next: set<string>)
  {
    forall k :: 0 < k < |refs| ==>
      (Wanted(refs, oldRef, newRef, primary, seen, k) <==> Wanted(refs[1..], oldRef, newRef, primary, next, k - 1))
  }

  lemma ShiftedWanted(
    refs: seq<string>, after: seq<string>, oldRef: string, newRef: string, primary: string, seen: set<string>,
    next: set<string>, rest: seq<nat>)
    requires refs != [] && WantedAgree(refs, oldRef, newRef, primary, seen, next)
    requires RenamedAt(refs[1..], after, oldRef, newRef, primary, next, rest)
    ensures forall k :: 0 <= k < |rest| ==>
              && Shifted(rest)[k] < |refs| && Wanted(refs, oldRef, newRef, primary, seen, Shifted(rest)[k])
              && after[k] == NowCalled(refs[Shifted(rest)[k]], oldRef, newRef)
    ensures forall i :: 0 < i < |refs| && Wanted(refs, oldRef, newRef, primary, seen, i) ==> i in Shifted(rest)
  {
    hide Wanted, NowCalled;
    forall k | 0 <= k < |rest|
      ensures Shifted(rest)[k] < |refs| && Wanted(refs, oldRef, newRef, primary, seen, Shifted(rest)[k])
      ensures after[k] == NowCalled(refs[Shifted(rest)[k]], oldRef, newRef)
    {
      assert Wanted(refs[1..], oldRef, newRef, primary, next, rest[k]);
      assert refs[1..][rest[k]] == refs[rest[k] + 1];
    }
    forall i | 0 < i < |refs| && Wanted(refs, oldRef, newRef, primary, seen, i) ensures i in Shifted(rest) {
      assert Wanted(refs[1..], oldRef, newRef, primary, next, i - 1);
      var k :| 0 <= k < |rest| && rest[k] == i - 1;
      assert Shifted(rest)[k] == i;
    }
  }

  lemma RenamedDropped(
    refs: seq<string>, after: seq<string>, oldRef: string, newRef: string, primary: string, seen: set<string>,
    rest: seq<nat>)
    requires refs != [] && WantedAgree(refs, oldRef, newRef, primary, seen, seen)
    requires RenamedAt(refs[1..], after, oldRef, newRef, primary, seen, rest)
    requires !Wanted(refs, oldRef, newRef, primary, seen, 0)
    ensures RenamedAt(refs, after, oldRef, newRef, primary, seen, Shifted(rest))
  {
    hide Wanted, NowCalled, WantedAgree;
    ShiftedWanted(refs, after, oldRef, newRef, primary, seen, seen, rest);
  }

  lemma RenamedMeans(
    refs: seq<string>, after: seq<string>, oldRef: string, newRef: string, primary: string, seen: set<string>,
    at: seq<nat>)
    requires |at| == |after|
    requires forall k :: 0 <= k < |at| ==>
               && at[k] < |refs| && Wanted(refs, oldRef, newRef, primary, seen, at[k])
               && after[k] == NowCalled(refs[at[k]], oldRef, newRef)
    requires forall i, j :: 0 <= i < j < |at| ==> at[i] < at[j]
    requires forall i :: 0 <= i < |refs| && Wanted(refs, oldRef, newRef, primary, seen, i) ==> i in at
    ensures RenamedAt(refs, after, oldRef, newRef, primary, seen, at)
  {
    hide Wanted, NowCalled;
  }

  lemma RenamedIncreases(
    refs: seq<string>, after: seq<string>, oldRef: string, newRef: string, primary: string, seen: set<string>,
    rest: seq<nat>)
    requires RenamedAt(refs, after, oldRef, newRef, primary, seen, rest)
    ensures |rest| == |after| && var at := [0] + Shifted(rest); forall i, j :: 0 <= i < j < |at| ==> at[i] < at[j]
  {
    hide Wanted, NowCalled;
    ConsIncreasing(rest);
  }

  lemma RenamedKept(
    refs: seq<string>, after: seq<string>, oldRef: string, newRef: string, primary: string, seen: set<string>,
    next: set<string>, rest: seq<nat>)
    requires refs != [] && WantedAgree(refs, oldRef, newRef, primary, seen, next)
    requires RenamedAt(refs[1..], after, oldRef, newRef, primary, next, rest)
    requires Wanted(refs, oldRef, newRef, primary, seen, 0)
    ensures RenamedAt(refs, [NowCalled(refs[0], oldRef, newRef)] + after, oldRef, newRef, primary, seen,
                      [0] + Shifted(rest))
  {
    hide Wanted, NowCalled, WantedAgree, RenamedAt, Shifted;
    var at, longer := [0] + Shifted(rest), [NowCalled(refs[0], oldRef, newRef)] + after;
    ShiftedWanted(refs, after, oldRef, newRef, primary, seen, next, rest);
    RenamedIncreases(refs[1..], after, oldRef, newRef, primary, next, rest);
    forall i | 0 <= i < |refs| && Wanted(refs, oldRef, newRef, primary, seen, i) ensures i in at { ConsHas(rest, i); }
    forall k | 0 <= k < |at|
      ensures at[k] < |refs| && Wanted(refs, oldRef, newRef, primary, seen, at[k])
      ensures longer[k] == NowCalled(refs[at[k]], oldRef, newRef)
    {
      if k > 0 { assert at[k] == Shifted(rest)[k - 1] && longer[k] == after[k - 1]; }
    }
    RenamedMeans(refs, longer, oldRef, newRef, primary, seen, at);
  }

  // ---- The four edits ----

  /** The request names another model that this one replaces. */
  predicate AsksForRename(q: Request) {
    && Trim(q.existingProviderId) != "" && Trim(q.existingModelId) != ""
    && !(Trim(q.existingProviderId) == Trim(q.providerId) && Trim(q.existingModelId) == Trim(q.modelId))
  }

  /**
   A complete request is accepted. The provider gets the settings and the model; a rename takes the old model
   away, and nothing else changes among the providers.
   */
  lemma UpsertEdits(c: Config, q: Request)
    ensures Upsert(c, q).Ok? <==>
            Trim(q.providerId) != "" && Trim(q.modelId) != "" && Trim(q.api) != "" && Trim(q.baseUrl) != ""
    ensures Upsert(c, q).Ok? ==>
              exists mid: Providers ::
                && ModelPut(c.providers, mid, Trim(q.providerId), Trim(q.baseUrl), Trim(q.api), Trim(q.apiKey),
                            Model(Trim(q.modelId), Trim(q.name)))
                && (if AsksForRename(q) then
                      ModelGone(mid, Upsert(c, q).value.providers, Trim(q.existingProviderId), Trim(q.existingModelId))
                    else Upsert(c, q).value.providers == mid)
  {
    hide Trim, ModelPut, ModelGone, PutProvider, RemoveModel, ResolveRefs, UpsertedRefs;
    var clean := Cleaned(q);
    var mid := PutProvider(c.providers, clean);
    PutProviderPuts(c.providers, clean);
    RemoveModelGone(mid, clean.existingProviderId, clean.existingModelId);
    TrimTwice(q.existingProviderId);
    TrimTwice(q.existingModelId);
  }

  /** The requested model is there afterwards, and a replaced one is not. */
  lemma UpsertedIsThere(c: Config, q: Request) returns (k: nat)
    requires Upsert(c, q).Ok?
    ensures
      var after := Upsert(c, q).value.providers;
      && Trim(q.providerId) in after && k < |after[Trim(q.providerId)].models|
      && after[Trim(q.providerId)].models[k] == Model(Trim(q.modelId), Trim(q.name))
      && (AsksForRename(q) && Trim(q.existingProviderId) in after ==>
            !Has(after[Trim(q.existingProviderId)].models, Trim(q.existingModelId)))
  {
    hide Trim, Upsert;
    var p, m := Trim(q.providerId), Model(Trim(q.modelId), Trim(q.name));
    UpsertEdits(c, q);
    var after := Upsert(c, q).value.providers;
    var mid: Providers :|
      && ModelPut(c.providers, mid, p, Trim(q.baseUrl), Trim(q.api), Trim(q.apiKey), m)
      && (if AsksForRename(q) then
                     ModelGone(mid, after, Trim(q.existingProviderId), Trim(q.existingModelId))
                   else after == mid);
    k := PutIsThere(if p in c.providers then c.providers[p].models else [], mid[p].models, m);
    TrimTwice(q.modelId);
    if AsksForRename(q) {
      GoneIsNotListed(mid, after, Trim(q.existingProviderId), Trim(q.existingModelId));
      if Trim(q.existingProviderId) == p { k := OtherStays(mid, after, p, Trim(q.existingModelId), k); }
    }
  }

  lemma PutIsThere(before: seq<Model>, after: seq<Model>, m: Model) returns (k: nat)
    requires ModelIn(before, after, m)
    ensures k < |after| && after[k] == m
  {
    hide Trim;
    k := |before|;
    if Has(before, m.id) { k :| 0 <= k < |before| && Trim(before[k].id) == m.id; }
  }

  lemma OtherStays(before: Providers, after: Providers, p: string, id: string, k: nat) returns (j: nat)
    requires ModelGone(before, after, p, id)
    requires p in before && k < |before[p].models| && Trim(before[p].models[k].id) != id
    ensures p in after && j < |after[p].models| && after[p].models[j] == before[p].models[k]
  {
    hide Trim, IsWithout;
    j := KeptIsThere(before[p].models, after[p].models, HasId(id), k);
  }

  /** The references after a rename, before a blank primary is filled in. */
  ghost predicate RefsRenamed(r: Refs, s: Refs, q: Request) {
    if AsksForRename(q) then
      var oldRef := ModelKey(Trim(q.existingProviderId), Trim(q.existingModelId));
      var newRef := ModelKey(Trim(q.providerId), Trim(q.modelId));
      && s.primary == NowCalled(r.primary, oldRef, newRef)
      && RenamedOnce(r.fallbacks, s.fallbacks, oldRef, newRef, s.primary, {})
    else s == r
  }

  /** An upsert renames the references, and makes the model the primary if there was none. */
  lemma UpsertEditsRefs(c: Config, q: Request)
    requires Upsert(c, q).Ok?
    ensures
      var key := ModelKey(Trim(q.providerId), Trim(q.modelId));
      exists s, w ::
        && RefsRenamed(ResolveRefs(c), s, q) && Written(c, Upsert(c, q).value, w)
        && (if Trim(s.primary) != "" then w == s
            else w.primary == key && IsWithout(s.fallbacks, w.fallbacks, NormalizesTo(key)))
  {
    hide Trim, ModelKey, RenamedAt, ResolveRefs, UpsertedProviders, IsWithout, NormalizeRef, RemoveRef, ReplaceIn;
    var r, clean := ResolveRefs(c), Cleaned(q);
    var key := ModelKey(clean.providerId, clean.modelId);
    var oldRef := ModelKey(clean.existingProviderId, clean.existingModelId);
    var s := if Renames(clean) then ReplaceRef(r, oldRef, key) else r;
    if Renames(clean) { var at := ReplaceInIs(r.fallbacks, oldRef, key, s.primary, {}); }
    assert RefsRenamed(r, s, q);
    KeyIsNotBlank(clean.providerId, clean.modelId);
    RemoveRefIs(s.fallbacks, key);
    var w := UpsertedRefs(r, clean);
    assert Written(c, Upsert(c, q).value, w);
  }

  lemma KeyIsNotBlank(p: string, m: string)
    ensures NormalizeRef(ModelKey(p, m)) != ""
  {
    hide Trim, NormalizeProviderID;
    var key := ModelKey(p, m);
    SlashKeyIsTrimmed(p, m);
    assert key[|NormalizeModelRef(p, m).provider|] == '/';
    SlashIsThere(key, |NormalizeModelRef(p, m).provider|);
  }

  lemma {:induction false} SlashIsThere(s: string, k: nat)
    requires k < |s| && s[k] == '/'
    ensures Slash(s) < |s|
  {
    if s[0] != '/' { SlashIsThere(s[1..], k - 1); }
  }

  /**
   A configured model can be deleted, and no other. It is gone, every other one is as it was, and the references
   lose it; a deleted primary is replaced by the first fallback left.
   */
  lemma DeleteEdits(c: Config, providerId: string, modelId: string)
    ensures
      var p, id := Trim(providerId), Trim(modelId);
      Delete(c, providerId, modelId).Ok? <==> p != "" && id != "" && p in c.providers && Has(c.providers[p].models, id)
    ensures Delete(c, providerId, modelId).Ok? ==>
              var after, key, r := Delete(c, providerId, modelId).value, ModelKey(providerId, modelId), ResolveRefs(c);
              && ModelGone(c.providers, after.providers, Trim(providerId), Trim(modelId))
              && exists left, w ::
                   && IsWithout(r.fallbacks, left, Is(key)) && Written(c, after, w)
                   && w == if r.primary != key then Refs(r.primary, left)
                           else if left == [] then Refs("", []) else Refs(left[0], left[1..])
  {
    hide Trim, ModelKey, NormalizeRef, NormalizeRefs, IsWithout, ModelGone, RemoveModel, Has;
    var p, id, key := Trim(providerId), Trim(modelId), ModelKey(providerId, modelId);
    if p in c.providers { ListedIsHas(c.providers[p].models, id); }
    RemoveModelGone(c.providers, providerId, modelId);
    WithoutIsWithout(ResolveRefs(c).fallbacks, key);
    if Delete(c, providerId, modelId).Ok? {
      assert Written(c, Delete(c, providerId, modelId).value, DeletedRefs(ResolveRefs(c), key));
    }
  }

  /** A configured model can be made the primary; it is then no fallback, and the providers stay. */
  lemma SetDefaultEdits(c: Config, providerId: string, modelId: string)
    ensures SetDefault(c, providerId, modelId).Ok? <==>
            Trim(providerId) in c.providers && Has(c.providers[Trim(providerId)].models, Trim(modelId))
    ensures SetDefault(c, providerId, modelId).Ok? ==>
              var after, key := SetDefault(c, providerId, modelId).value, ModelKey(providerId, modelId);
              && after.providers == c.providers
              && exists left ::
                   IsWithout(ResolveRefs(c).fallbacks, left, Is(key)) && Written(c, after, Refs(key, left))
  {
    hide Trim, ModelKey, ResolveRefs, IsWithout, Has;
    var p := Trim(providerId);
    if p in c.providers { ListedIsHas(c.providers[p].models, Trim(modelId)); }
    WithoutIsWithout(ResolveRefs(c).fallbacks, ModelKey(providerId, modelId));
  }

  /** A configured model that is not the primary is a fallback afterwards if and only if that was asked for. */
  lemma SetFallbackEdits(c: Config, providerId: string, modelId: string, enabled: bool)
    ensures SetFallback(c, providerId, modelId, enabled).Ok? <==>
            Trim(providerId) in c.providers && Has(c.providers[Trim(providerId)].models, Trim(modelId))
    ensures SetFallback(c, providerId, modelId, enabled).Ok? ==>
              var after, key := SetFallback(c, providerId, modelId, enabled).value, ModelKey(providerId, modelId);
              var r := ResolveRefs(c);
              && (r.primary == key ==> after == c)
              && (r.primary != key ==>
                    && after.providers == c.providers
                    && exists next ::
                         && Written(c, after, Refs(r.primary, next)) && (key in next <==> enabled)
                         && (!enabled ==> IsWithout(r.fallbacks, next, Is(key)))
                         && (enabled ==> next == if key in r.fallbacks then r.fallbacks else r.fallbacks + [key]))
  {
    hide Trim, ModelKey, ResolveRefs, IsWithout, Has;
    var p, key, r := Trim(providerId), ModelKey(providerId, modelId), ResolveRefs(c);
    if p in c.providers { ListedIsHas(c.providers[p].models, Trim(modelId)); }
    WithoutIsWithout(r.fallbacks, key);
    WithoutKeeps(r.fallbacks, key);
    if SetFallback(c, providerId, modelId, enabled).Ok? && r.primary != key {
      var next := FallbackRefs(r.fallbacks, key, enabled);
      assert Written(c, SetFallback(c, providerId, modelId, enabled).value, Refs(r.primary, next));
    }
  }
}
