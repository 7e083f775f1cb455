/** Model references: canonical keys, parsing, and the list of candidates a run may use. */
module ModelSelection {
  import opened Text

  datatype ModelRef = ModelRef(provider: string, model: string)

  // ---- Canonical providers ----

  function Canonical(name: string): string {
    if name == "z.ai" || name == "z-ai" then "zai"
    else if name == "opencode-zen" then "opencode"
    else if name == "qwen" then "qwen-portal"
    else if name == "kimi-code" then "kimi-coding"
    else if name == "bedrock" || name == "aws-bedrock" then "amazon-bedrock"
    else if name == "bytedance" || name == "doubao" then "volcengine"
    else name
  }

  function NormalizeProviderID(provider: string): string {
    Canonical(Trim(Lower(provider)))
  }

  const ALIASES := {
    "z.ai", "z-ai", "opencode-zen", "qwen", "kimi-code", "bedrock", "aws-bedrock", "bytedance", "doubao"
  }

  /** The other names of a provider, in any case and with white space around them, and nothing else, are replaced. */
  lemma ProviderAliases(provider: string)
    ensures
      var name, id := Trim(Lower(provider)), NormalizeProviderID(provider);
      && (name in {"z.ai", "z-ai"} ==> id == "zai")
      && (name == "opencode-zen" ==> id == "opencode")
      && (name == "qwen" ==> id == "qwen-portal")
      && (name == "kimi-code" ==> id == "kimi-coding")
      && (name in {"bedrock", "aws-bedrock"} ==> id == "amazon-bedrock")
      && (name in {"bytedance", "doubao"} ==> id == "volcengine")
      && (name !in ALIASES ==> id == name)
  {
    hide Trim, Lower;
  }

  function NormalizeModelRef(provider: string, model: string): ModelRef {
    ModelRef(NormalizeProviderID(provider), Trim(model))
  }

  function ModelKey(provider: string, model: string): string {
    var ref := NormalizeModelRef(provider, model);
    ref.provider + "/" + ref.model
  }

  lemma LowerIsLower(s: string)
    requires forall i :: 0 <= i < |s| ==> !('A' <= s[i] <= 'Z')
    ensures Lower(s) == s
  {
  }

  lemma TrimLowerIsLower(s: string)
    ensures Lower(Trim(Lower(s))) == Trim(Lower(s))
  {
    hide Trim;
    TrimIsSlice(Lower(s));
    LowerIsLower(Trim(Lower(s)));
  }

  const NAMES := ["zai", "opencode", "qwen-portal", "kimi-coding", "amazon-bedrock", "volcengine"]

  lemma NameIsFixed(k: nat)
    requires k < |NAMES|
    ensures Canonical(NAMES[k]) == NAMES[k] && '/' !in NAMES[k] && NAMES[k] != ""
    ensures Lower(NAMES[k]) == NAMES[k] && Trimmed(NAMES[k])
  {
    hide Trim, Lower;
    LowerIsLower(NAMES[k]);
    TrimmedEnds(NAMES[k]);
  }

  lemma CanonicalIsFixed(name: string)
    requires Trimmed(name) && Lower(name) == name
    ensures Canonical(Canonical(name)) == Canonical(name)
    ensures Trimmed(Canonical(name)) && Lower(Canonical(name)) == Canonical(name)
    ensures '/' in Canonical(name) <==> '/' in name
    ensures Canonical(name) == "" <==> name == ""
  {
    hide Trim, Lower;
    if Canonical(name) != name {
      var c := Canonical(name);
      assert c == NAMES[0] || c == NAMES[1] || c == NAMES[2] || c == NAMES[3] || c == NAMES[4] || c == NAMES[5];
      var k :| 0 <= k < |NAMES| && Canonical(name) == NAMES[k];
      NameIsFixed(k);
    }
  }

  /** Normal provider ids stay as they are. */
  lemma NormalizeProviderIdempotent(provider: string)
    ensures var p := NormalizeProviderID(provider);
            && NormalizeProviderID(p) == p && Trimmed(p)
  {
    hide Canonical, Trim, Lower;
    var name := Trim(Lower(provider));
    TrimTwice(Lower(provider));
    TrimLowerIsLower(provider);
    CanonicalIsFixed(name);
  }

  // ---- Parsing ----

  function Slash(s: string): (i: nat)
    ensures i <= |s| && '/' !in s[..i] && (i < |s| ==> s[i] == '/')
  {
    if s == "" || s[0] == '/' then 0
    else
      var i := Slash(s[1..]);
      assert s[..1 + i] == [s[0]] + s[1..][..i];
      1 + i
  }

  function ParseModelRef(raw: string, defaultProvider: string): Option<ModelRef> {
    var trimmed := Trim(raw);
    var slash := Slash(trimmed);
    if trimmed == "" then None
    else if slash == |trimmed| then Some(NormalizeModelRef(defaultProvider, trimmed))
    else
      var provider, model := Trim(trimmed[..slash]), Trim(trimmed[slash + 1..]);
      if provider == "" || model == "" then None else Some(NormalizeModelRef(provider, model))
  }

  /** A blank text is no reference, and a text without a slash names a model of the default provider. */
  lemma ParseWithoutSlash(raw: string, defaultProvider: string)
    requires '/' !in raw
    ensures ParseModelRef(raw, defaultProvider) ==
            if Trim(raw) == "" then None
            else Some(ModelRef(NormalizeProviderID(defaultProvider), Trim(raw)))
  {
    hide Trim, NormalizeProviderID;
    TrimIsSlice(raw);
    TrimTwice(raw);
    if Slash(Trim(raw)) < |Trim(raw)| { assert Trim(raw)[Slash(Trim(raw))] in raw; }
  }

  lemma TrimFromInside(s: string, a: nat, b: nat)
    requires a <= b <= |s| && forall k :: 0 <= k < a || b <= k < |s| ==> IsSpace(s[k])
    ensures Trim(s[a..b]) == Trim(s)
  {
    hide Trim, IsSpace;
    assert s == s[..a] + s[a..b] + s[b..];
    forall k | 0 <= k < |s[b..]| ensures IsSpace(s[b..][k]) { assert s[b..][k] == s[b + k]; }
    TrimOfSpaced(s[..a], s[a..b], s[b..]);
  }

  lemma FrontTrims(raw: string, i: nat, a: nat, b: nat)
    requires a <= i < b <= |raw| && forall k :: 0 <= k < a || b <= k < |raw| ==> IsSpace(raw[k])
    ensures Trim(raw[a..b][..i - a]) == Trim(raw[..i])
  {
    hide Trim, IsSpace;
    assert raw[a..b][..i - a] == raw[..i][a..i];
    TrimFromInside(raw[..i], a, i);
  }

  lemma BackTrims(raw: string, i: nat, a: nat, b: nat)
    requires a <= i < b <= |raw| && forall k :: 0 <= k < a || b <= k < |raw| ==> IsSpace(raw[k])
    ensures Trim(raw[a..b][i - a + 1..]) == Trim(raw[i + 1..])
  {
    hide Trim, IsSpace;
    var back := raw[i + 1..];
    assert raw[a..b][i - a + 1..] == back[0..b - i - 1];
    forall k | b - i - 1 <= k < |back| ensures IsSpace(back[k]) { assert back[k] == raw[i + 1 + k]; }
    TrimFromInside(back, 0, b - i - 1);
  }

  /** Where the first slash is after trimming, and what stands on either side of it. */
  lemma TrimmedAroundSlash(raw: string, i: nat)
    requires i < |raw| && raw[i] == '/' && '/' !in raw[..i]
    ensures
      var trimmed := Trim(raw);
      var at := Slash(trimmed);
      at < |trimmed| && Trim(trimmed[..at]) == Trim(raw[..i]) && Trim(trimmed[at + 1..]) == Trim(raw[i + 1..])
  {
    hide Trim, IsSpace, Slash;
    TrimIsSlice(raw);
    var a, b :| && 0 <= a <= b <= |raw| && Trim(raw) == raw[a..b]
                && forall k :: 0 <= k < a || b <= k < |raw| ==> IsSpace(raw[k]);
    SlashIsNoSpace();
    FrontTrims(raw, i, a, b);
    BackTrims(raw, i, a, b);
    var trimmed := raw[a..b];
    assert trimmed[i - a] == '/' && trimmed[..i - a] == raw[..i][a..];
    FirstSlash(trimmed, i - a);
  }

  /** Otherwise the first slash divides provider and model, neither of which may be blank. */
  lemma ParseAtFirstSlash(raw: string, defaultProvider: string, i: nat)
    requires i < |raw| && raw[i] == '/' && '/' !in raw[..i]
    ensures ParseModelRef(raw, defaultProvider) ==
            if Trim(raw[..i]) == "" || Trim(raw[i + 1..]) == "" then None
            else Some(ModelRef(NormalizeProviderID(Trim(raw[..i])), Trim(raw[i + 1..])))
  {
    hide Trim, NormalizeProviderID, Slash;
    TrimmedAroundSlash(raw, i);
    TrimTwice(raw[i + 1..]);
  }

  lemma SlashIsNoSpace()
    ensures !IsSpace('/')
  {
  }

  /** Whatever is parsed is in normal form. */
  predicate Normal(r: ModelRef) {
    NormalizeModelRef(r.provider, r.model) == r
  }

  lemma NormalizedIsNormal(provider: string, model: string)
    ensures Normal(NormalizeModelRef(provider, model))
  {
    hide Trim, NormalizeProviderID;
    NormalizeProviderIdempotent(provider);
    TrimTwice(model);
  }

  /** A key is a reference again, the same one, unless a part is missing or the provider id has a slash in it. */
  lemma KeyRoundTrip(provider: string, model: string, defaultProvider: string)
    ensures
      var ref := NormalizeModelRef(provider, model);
      ParseModelRef(ModelKey(provider, model), defaultProvider) == Some(ref)
      <==> ref.provider != "" && '/' !in ref.provider && ref.model != ""
  {
    hide Trim, NormalizeProviderID, Slash;
    var ref := NormalizeModelRef(provider, model);
    var key := ModelKey(provider, model);
    NormalizedIsNormal(provider, model);
    NormalizeProviderIdempotent(provider);
    TrimTwice(model);
    if ref.provider != "" && ref.model != "" {
      KeyIsTrimmed(ref);
      if '/' in ref.provider {
        SlashInProvider(ref, key, defaultProvider);
      } else {
        FirstSlash(key, |ref.provider|);
        assert key[..|ref.provider|] == ref.provider && key[|ref.provider| + 1..] == ref.model;
      }
    } else {
      PartMissing(ref, key, defaultProvider);
    }
  }

  lemma KeyIsTrimmed(ref: ModelRef)
    requires Trimmed(ref.provider) && Trimmed(ref.model) && ref.provider != "" && ref.model != ""
    ensures Trimmed(ref.provider + "/" + ref.model)
  {
    hide Trim;
    TrimmedEnds(ref.provider);
    TrimmedEnds(ref.model);
    TrimmedEnds(ref.provider + "/" + ref.model);
  }

  lemma {:induction false} FirstSlash(s: string, i: nat)
    requires i < |s| && s[i] == '/' && '/' !in s[..i]
    ensures Slash(s) == i
  {
    if i > 0 {
      assert s[1..][..i - 1] == s[..i][1..] && s[0] == s[..i][0];
      FirstSlash(s[1..], i - 1);
    }
  }

  lemma NormalizedSlash(provider: string)
    ensures '/' in NormalizeProviderID(provider) ==> '/' in provider
  {
    hide Trim;
    TrimTwice(Lower(provider));
    TrimLowerIsLower(provider);
    CanonicalIsFixed(Trim(Lower(provider)));
    TrimIsSlice(Lower(provider));
    if '/' in NormalizeProviderID(provider) {
      var i :| 0 <= i < |Lower(provider)| && Lower(provider)[i] == '/';
      assert provider[i] == '/';
    }
  }

  /** Parsing splits at the first slash, so no parsed provider has one. */
  lemma ParsedProviderHasNoSlash(raw: string, defaultProvider: string)
    requires '/' !in NormalizeProviderID(defaultProvider)
    ensures ParseModelRef(raw, defaultProvider).Some? ==>
              var ref := ParseModelRef(raw, defaultProvider).value;
              '/' !in ref.provider && Normal(ref)
  {
    hide Trim, NormalizeProviderID;
    var trimmed := Trim(raw);
    var slash := Slash(trimmed);
    if slash == |trimmed| {
      NormalizedIsNormal(defaultProvider, trimmed);
    } else {
      TrimIsSlice(trimmed[..slash]);
      NormalizedSlash(Trim(trimmed[..slash]));
      NormalizedIsNormal(Trim(trimmed[..slash]), Trim(trimmed[slash + 1..]));
    }
  }

  lemma SlashInProvider(ref: ModelRef, key: string, defaultProvider: string)
    requires key == ref.provider + "/" + ref.model && Trimmed(key) && '/' in ref.provider
    ensures ParseModelRef(key, defaultProvider) != Some(ref)
  {
    hide Trim, NormalizeProviderID;
    assert key[|ref.provider|] == '/';
    TrimIsSlice(key[..Slash(key)]);
    NormalizedSlash(Trim(key[..Slash(key)]));
  }

  lemma ParsedModelIsThere(raw: string, defaultProvider: string)
    ensures ParseModelRef(raw, defaultProvider).Some? ==> ParseModelRef(raw, defaultProvider).value.model != ""
  {
    hide Trim, NormalizeProviderID;
    var trimmed := Trim(raw);
    TrimTwice(raw);
    TrimTwice(trimmed[if Slash(trimmed) < |trimmed| then Slash(trimmed) + 1 else 0..]);
  }

  lemma LeadingSlashIsRejected(key: string, defaultProvider: string)
    requires key != "" && key[0] == '/'
    ensures ParseModelRef(key, defaultProvider) == None
  {
    hide NormalizeProviderID, TrimRight;
    assert TrimLeft(key) == key;
    var trimmed := Trim(key);
    assert trimmed == key[..|trimmed|];
    TrimRightDropsSpace(key);
    if trimmed != "" {
      FirstSlash(trimmed, 0);
      assert trimmed[..0] == "";
      NothingTrims();
    }
  }

  lemma NothingTrims()
    ensures Trim("") == ""
  {
  }

  lemma PartMissing(ref: ModelRef, key: string, defaultProvider: string)
    requires key == ref.provider + "/" + ref.model && (ref.provider == "" || ref.model == "")
    ensures ParseModelRef(key, defaultProvider) != Some(ref)
  {
    hide ParseModelRef;
    if ref.model == "" {
      ParsedModelIsThere(key, defaultProvider);
    } else {
      LeadingSlashIsRejected(key, defaultProvider);
    }
  }

  // ---- The candidates of a run ----

  function KeyOf(r: ModelRef): string {
    ModelKey(r.provider, r.model)
  }

  /** No two references have the same key. */
  predicate KeysDistinct(refs: seq<ModelRef>) {
    forall i, j :: 0 <= i < j < |refs| ==> KeyOf(refs[i]) != KeyOf(refs[j])
  }

  predicate HasKey(refs: seq<ModelRef>, key: string) {
    exists i :: 0 <= i < |refs| && KeyOf(refs[i]) == key
  }

  /** The references that parse and whose key is new, in order. */
  function AddFallbacks(refs: seq<ModelRef>, fallbacks: seq<string>, provider: string): seq<ModelRef>
    decreases |fallbacks|
  {
    if fallbacks == [] then refs
    else
      var ref := ParseModelRef(fallbacks[0], provider);
      AddFallbacks(if ref.None? || HasKey(refs, KeyOf(ref.value)) then refs else refs + [ref.value],
                   fallbacks[1..], provider)
  }

  function Candidates(fallbacks: seq<string>, primary: ModelRef, hasSessionOverride: bool): seq<ModelRef> {
    if hasSessionOverride then [primary] else AddFallbacks([primary], fallbacks, primary.provider)
  }

  method ResolveFallbackCandidates(fallbacks: seq<string>, primary: ModelRef, hasSessionOverride: bool)
    returns (candidates: seq<ModelRef>)
    ensures candidates == Candidates(fallbacks, primary, hasSessionOverride)
  {
    hide ParseModelRef, ModelKey;
    var seen := {ModelKey(primary.provider, primary.model)};
    candidates := [primary];
    if hasSessionOverride { return; }
    SeenGrows({}, [], primary);
    assert [] + [primary] == [primary] && {} + seen == seen;
    for i := 0 to |fallbacks|
      invariant forall key :: key in seen <==> HasKey(candidates, key)
      invariant AddFallbacks(candidates, fallbacks[i..], primary.provider)
             == AddFallbacks([primary], fallbacks, primary.provider)
    {
      assert fallbacks[i..][1..] == fallbacks[i + 1..];
      var ref := ParseModelRef(fallbacks[i], primary.provider);
      if ref.None? { continue; }
      var key := ModelKey(ref.value.provider, ref.value.model);
      if key in seen { continue; }
      SeenGrows(seen, candidates, ref.value);
      seen := seen + {key};
      candidates := candidates + [ref.value];
    }
  }

  lemma SeenGrows(seen: set<string>, refs: seq<ModelRef>, ref: ModelRef)
    requires forall key :: key in seen <==> HasKey(refs, key)
    ensures forall key :: key in seen + {KeyOf(ref)} <==> HasKey(refs + [ref], key)
  {
    hide KeyOf;
    forall key ensures key in seen + {KeyOf(ref)} <==> HasKey(refs + [ref], key) {
      HasKeySnoc(refs, ref, key);
    }
  }

  lemma HasKeySnoc(refs: seq<ModelRef>, ref: ModelRef, key: string)
    ensures HasKey(refs + [ref], key) <==> HasKey(refs, key) || key == KeyOf(ref)
  {
    hide KeyOf;
    var more := refs + [ref];
    if key == KeyOf(ref) {
      assert KeyOf(more[|refs|]) == key;
    } else if HasKey(refs, key) {
      var i :| 0 <= i < |refs| && KeyOf(refs[i]) == key;
      assert KeyOf(more[i]) == key;
    }
  }

  /** Every candidate has a key of its own, the given ones stay in front, and every fallback that parses is covered. */
  lemma {:induction false} FallbacksAreAdded(refs: seq<ModelRef>, fallbacks: seq<string>, provider: string)
    requires KeysDistinct(refs)
    ensures var out := AddFallbacks(refs, fallbacks, provider);
            && KeysDistinct(out) && refs <= out
            && (forall i :: 0 <= i < |fallbacks| && ParseModelRef(fallbacks[i], provider).Some? ==>
                  HasKey(out, KeyOf(ParseModelRef(fallbacks[i], provider).value)))
    decreases |fallbacks|
  {
    hide ParseModelRef, KeyOf, HasKey;
    if fallbacks != [] {
      var ref := ParseModelRef(fallbacks[0], provider);
      var next := if ref.None? || HasKey(refs, KeyOf(ref.value)) then refs else refs + [ref.value];
      if ref.Some? {
        NewKeyKeepsDistinct(refs, ref.value);
        HasKeySnoc(refs, ref.value, KeyOf(ref.value));
      }
      FallbacksAreAdded(next, fallbacks[1..], provider);
      var out := AddFallbacks(refs, fallbacks, provider);
      forall i | 0 <= i < |fallbacks| && ParseModelRef(fallbacks[i], provider).Some?
        ensures HasKey(out, KeyOf(ParseModelRef(fallbacks[i], provider).value))
      {
        if i == 0 {
          PrefixKeepsKey(next, out, KeyOf(ref.value));
        } else {
          assert fallbacks[1..][i - 1] == fallbacks[i];
        }
      }
    }
  }

  lemma PrefixKeepsKey(a: seq<ModelRef>, b: seq<ModelRef>, key: string)
    requires a <= b && HasKey(a, key)
    ensures HasKey(b, key)
  {
    hide KeyOf;
    var i :| 0 <= i < |a| && KeyOf(a[i]) == key;
    assert b[i] == a[i];
  }

  lemma NewKeyKeepsDistinct(refs: seq<ModelRef>, ref: ModelRef)
    requires KeysDistinct(refs)
    ensures !HasKey(refs, KeyOf(ref)) ==> KeysDistinct(refs + [ref])
  {
    hide KeyOf;
  }

  /** What is added comes from the fallbacks, in their order. */
  lemma {:induction false} AddedComeFrom(refs: seq<ModelRef>, fallbacks: seq<string>, provider: string)
    returns (at: seq<nat>)
    ensures
      var all := AddFallbacks(refs, fallbacks, provider);
      && |all| == |refs| + |at| && all[..|refs|] == refs && (forall i, j :: 0 <= i < j < |at| ==> at[i] < at[j])
      && forall k :: 0 <= k < |at| ==>
           at[k] < |fallbacks| && ParseModelRef(fallbacks[at[k]], provider) == Some(all[|refs| + k])
    decreases |fallbacks|
  {
    hide ParseModelRef, KeyOf, HasKey;
    if fallbacks == [] {
      at := [];
    } else {
      var ref := ParseModelRef(fallbacks[0], provider);
      var added := ref.Some? && !HasKey(refs, KeyOf(ref.value));
      var next := if added then refs + [ref.value] else refs;
      var rest := AddedComeFrom(next, fallbacks[1..], provider);
      at := (if added then [0] else []) + seq(|rest|, k requires 0 <= k < |rest| => rest[k] + 1);
      var all := AddFallbacks(refs, fallbacks, provider);
      assert all[..|refs|] == all[..|next|][..|refs|];
      var d := |next| - |refs|;
      forall k | 0 <= k < |at|
        ensures at[k] < |fallbacks| && ParseModelRef(fallbacks[at[k]], provider) == Some(all[|refs| + k])
      {
        if k >= d {
          assert at[k] == rest[k - d] + 1 && fallbacks[1..][rest[k - d]] == fallbacks[at[k]];
        } else {
          assert all[|refs|] == all[..|next|][|refs|];
        }
      }
    }
  }

  /** Behind the primary come references read from the fallbacks, in order; none where the session overrides. */
  lemma CandidatesComeFrom(fallbacks: seq<string>, primary: ModelRef, hasSessionOverride: bool)
    returns (at: seq<nat>)
    ensures
      var cs := Candidates(fallbacks, primary, hasSessionOverride);
      && |cs| == 1 + |at| && (hasSessionOverride ==> at == []) && (forall i, j :: 0 <= i < j < |at| ==> at[i] < at[j])
      && forall k :: 0 <= k < |at| ==>
           at[k] < |fallbacks| && ParseModelRef(fallbacks[at[k]], primary.provider) == Some(cs[1 + k])
  {
    hide ParseModelRef, AddFallbacks;
    at := [];
    if !hasSessionOverride { at := AddedComeFrom([primary], fallbacks, primary.provider); }
  }

  /** The primary comes first, no model is tried twice, and no usable fallback is forgotten. */
  lemma CandidatesAreDistinct(fallbacks: seq<string>, primary: ModelRef, hasSessionOverride: bool)
    ensures var cs := Candidates(fallbacks, primary, hasSessionOverride);
            && cs != [] && cs[0] == primary && KeysDistinct(cs)
            && (!hasSessionOverride ==> forall i ::
                  0 <= i < |fallbacks| && ParseModelRef(fallbacks[i], primary.provider).Some? ==>
                    HasKey(cs, KeyOf(ParseModelRef(fallbacks[i], primary.provider).value)))
  {
    hide ParseModelRef, KeyOf, HasKey;
    FallbacksAreAdded([primary], fallbacks, primary.provider);
  }
}
