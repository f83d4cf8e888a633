/**
 * The proof-service registries of keybase's `externals` package: a map from
 * a service key ("twitter", "github", ...) to the service type that checks
 * proofs for it. `StaticProofServices` is filled once from the built-in list;
 * `ProofServices` is seeded the same way and, on every lookup or listing,
 * may merge in service configurations fetched from the parameterised-proof
 * store.
 */
module Externals {
  import opened Wrappers
  import opened Strings

  // ---------------------------------------------------------------------------
  // Data model
  // ---------------------------------------------------------------------------

  /**
   * A proof service (`libkb.ServiceType`) as far as the registries see it:
   * the keys it answers to (`AllStringKeys`) and whether it is meant for
   * development builds only (`IsDevelOnly`). `name` stands for the rest of
   * the descriptor and only tells services apart.
   */
  datatype ServiceType = ServiceType(name: string, keys: seq<string>, develOnly: bool)

  /** The `collection` field of both registries. */
  type Collection = map<string, ServiceType>

  /** A store entry (`keybase1.MerkleStoreEntry`): a hash and the JSON payload. */
  datatype MerkleStoreEntry = MerkleStoreEntry(hash: string, entry: string)

  /** One raw record of the payload's "services" list (`keybase1.ParamProofServiceConfig`). */
  datatype ParamProofServiceConfig = ParamProofServiceConfig(displayName: string, domain: string)

  /** A record that passed validation (`GenericSocialProofConfig`). */
  datatype GenericSocialProofConfig = GenericSocialProofConfig(config: ParamProofServiceConfig)

  /**
   * The code the registry calls but that lives elsewhere: `json.Unmarshal`
   * of the payload into its "services" list, `NewGenericSocialProofConfig`
   * (validation of one record) and `NewGenericSocialProofServiceType`.
   */
  datatype Factories = Factories(
    decode: string -> Result<seq<ParamProofServiceConfig>>,
    validate: ParamProofServiceConfig -> Result<GenericSocialProofConfig>,
    newServiceType: GenericSocialProofConfig -> ServiceType)

  /**
   * What the global context offers at the time of one call: the three
   * inputs of the refresh policy (admin feature flag, development run mode,
   * running in CI) and what `GetLatestEntry` on the store would answer.
   */
  datatype Environment = Environment(
    admin: bool,
    develRunMode: bool,
    runningInCI: bool,
    latestEntry: Result<MerkleStoreEntry>)

  /** Which way `loadParamProofServices` left. */
  datatype LoadOutcome =
    | PolicyOff
    | FetchFailed(fetchError: string)
    | ParseFailed(parseError: string)
    | Merged(services: seq<ServiceType>)

  // ---------------------------------------------------------------------------
  // register
  // ---------------------------------------------------------------------------

  /** `register` passes over `st` without writing anything. */
  predicate Skipped(st: ServiceType, useDevel: bool) {
    !useDevel && st.develOnly
  }

  /** `register` writes `k` when it reaches `st`. */
  predicate Listed(st: ServiceType, k: string, useDevel: bool) {
    !Skipped(st, useDevel) && k in st.keys
  }

  /** The effect of one turn of the outer loop of `register`. */
  function RegisterOne(m: Collection, st: ServiceType, useDevel: bool): Collection {
    if Skipped(st, useDevel) then m else m + map k | k in st.keys :: st
  }

  /** The collection after `register(services)` starting from `m`. */
  function Registered(m: Collection, services: seq<ServiceType>, useDevel: bool): Collection
    decreases |services|
  {
    if services == [] then m
    else RegisterOne(Registered(m, services[..|services| - 1], useDevel), services[|services| - 1], useDevel)
  }

  /** Every key some non-skipped service of `services` lists. */
  function ListedKeys(services: seq<ServiceType>, useDevel: bool): set<string> {
    set i, k | 0 <= i < |services| && k in services[i].keys && !Skipped(services[i], useDevel) :: k
  }

  /** `services[i]` is the last service in input order that `register` lets write `k`. */
  predicate IsLastWriter(services: seq<ServiceType>, k: string, useDevel: bool, i: int) {
    && 0 <= i < |services|
    && Listed(services[i], k, useDevel)
    && forall j :: i < j < |services| ==> !Listed(services[j], k, useDevel)
  }

  /** Each key is an alias of the service it maps to, and no skipped service is stored. */
  predicate WellFormed(m: Collection, useDevel: bool) {
    forall k :: k in m ==> Listed(m[k], k, useDevel)
  }

  /** The inner loop of `register`: every key of `st` is written to map to `st`. */
  method PutKeys(m0: Collection, st: ServiceType) returns (m: Collection)
    ensures m.Keys == m0.Keys + set k | k in st.keys
    ensures forall k :: k in m ==> m[k] == if k in st.keys then st else m0[k]
  {
    m := m0;
    for j := 0 to |st.keys|
      invariant m.Keys == m0.Keys + set k | k in st.keys[..j]
      invariant forall k :: k in m ==> m[k] == if k in st.keys[..j] then st else m0[k]
    {
      assert st.keys[..j + 1] == st.keys[..j] + [st.keys[j]];
      m := m[st.keys[j] := st];
    }
    assert st.keys[..|st.keys|] == st.keys;
  }

  /** The loops of `register`, writing `m[k] := st` for every key of every non-skipped service. */
  method RegisterAll(m0: Collection, services: seq<ServiceType>, useDevel: bool) returns (m: Collection)
    ensures m == Registered(m0, services, useDevel)
    ensures m.Keys == m0.Keys + ListedKeys(services, useDevel)
    ensures WellFormed(m0, useDevel) ==> WellFormed(m, useDevel)
  {
    m := m0;
    for i := 0 to |services|
      invariant m == Registered(m0, services[..i], useDevel)
    {
      var st := services[i];
      assert services[..i + 1][..i] == services[..i];
      if !useDevel && st.develOnly {
        continue;
      }
      m := PutKeys(m, st);
    }
    assert services[..|services|] == services;
    RegisterKeys(m0, services, useDevel);
    if WellFormed(m0, useDevel) {
      RegisterPreservesWellFormed(m0, services, useDevel);
    }
  }

  /** Last writer wins: `k` ends up mapped to the last non-skipped service listing it. */
  lemma {:induction false} RegisterLastWriterWins(m: Collection, services: seq<ServiceType>, useDevel: bool, k: string, i: int)
    requires IsLastWriter(services, k, useDevel, i)
    ensures k in Registered(m, services, useDevel) && Registered(m, services, useDevel)[k] == services[i]
    decreases |services|
  {
    var n := |services| - 1;
    var prefix := services[..n];
    if i < n {
      assert !Listed(services[n], k, useDevel);
      assert IsLastWriter(prefix, k, useDevel, i);
      RegisterLastWriterWins(m, prefix, useDevel, k, i);
    }
  }

  /** Nothing else changes: a key no non-skipped service lists keeps its old mapping, or stays absent. */
  lemma {:induction false} RegisterKeepsUnlisted(m: Collection, services: seq<ServiceType>, useDevel: bool, k: string)
    requires forall i :: 0 <= i < |services| ==> !Listed(services[i], k, useDevel)
    ensures k in Registered(m, services, useDevel) <==> k in m
    ensures k in m ==> Registered(m, services, useDevel)[k] == m[k]
    decreases |services|
  {
    if services != [] {
      var n := |services| - 1;
      var prefix := services[..n];
      assert !Listed(services[n], k, useDevel);
      assert forall i :: 0 <= i < |prefix| ==> prefix[i] == services[i];
      RegisterKeepsUnlisted(m, prefix, useDevel, k);
    }
  }

  /** A key that some non-skipped service lists has a last writer. */
  lemma {:induction false} LastWriterExists(services: seq<ServiceType>, k: string, useDevel: bool, i: int) returns (j: int)
    requires 0 <= i < |services| && Listed(services[i], k, useDevel)
    ensures i <= j && IsLastWriter(services, k, useDevel, j)
    decreases |services| - i
  {
    if exists j' :: i < j' < |services| && Listed(services[j'], k, useDevel) {
      var j' :| i < j' < |services| && Listed(services[j'], k, useDevel);
      j := LastWriterExists(services, k, useDevel, j');
    } else {
      j := i;
    }
  }

  /** `register` only adds keys: the new key set is the old one plus every key it wrote. */
  lemma RegisterKeys(m: Collection, services: seq<ServiceType>, useDevel: bool)
    ensures Registered(m, services, useDevel).Keys == m.Keys + ListedKeys(services, useDevel)
  {
    var r := Registered(m, services, useDevel);
    forall k ensures k in r <==> k in m || k in ListedKeys(services, useDevel) {
      if i :| 0 <= i < |services| && Listed(services[i], k, useDevel) {
        var j := LastWriterExists(services, k, useDevel, i);
        RegisterLastWriterWins(m, services, useDevel, k, j);
      } else {
        RegisterKeepsUnlisted(m, services, useDevel, k);
      }
    }
  }

  /** Every stored value is either the old one or a non-skipped service of the input listing that key. */
  lemma RegisterValues(m: Collection, services: seq<ServiceType>, useDevel: bool, k: string)
    requires k in Registered(m, services, useDevel)
    ensures || (k in m && Registered(m, services, useDevel)[k] == m[k])
            || exists i :: IsLastWriter(services, k, useDevel, i) && Registered(m, services, useDevel)[k] == services[i]
  {
    if i :| 0 <= i < |services| && Listed(services[i], k, useDevel) {
      var j := LastWriterExists(services, k, useDevel, i);
      RegisterLastWriterWins(m, services, useDevel, k, j);
    } else {
      RegisterKeepsUnlisted(m, services, useDevel, k);
    }
  }

  /** `register` keeps the collection well formed. */
  lemma RegisterPreservesWellFormed(m: Collection, services: seq<ServiceType>, useDevel: bool)
    requires WellFormed(m, useDevel)
    ensures WellFormed(Registered(m, services, useDevel), useDevel)
  {
    var r := Registered(m, services, useDevel);
    forall k | k in r ensures Listed(r[k], k, useDevel) {
      RegisterValues(m, services, useDevel, k);
    }
  }

  /** The services `register` does not skip, in input order. */
  function Active(services: seq<ServiceType>, useDevel: bool): seq<ServiceType>
    decreases |services|
  {
    if services == [] then []
    else
      var last := services[|services| - 1];
      Active(services[..|services| - 1], useDevel) + (if Skipped(last, useDevel) then [] else [last])
  }

  /** Without the development flag no service `register` keeps is development-only. */
  lemma {:induction false} ActiveHasNoDevelOnly(services: seq<ServiceType>)
    ensures forall i :: 0 <= i < |Active(services, false)| ==> !Active(services, false)[i].develOnly
    decreases |services|
  {
    if services != [] {
      ActiveHasNoDevelOnly(services[..|services| - 1]);
    }
  }

  /**
   * Development-only services are filtered out: without the development flag,
   * `register` has the effect of registering only the services that are not
   * development-only.
   */
  lemma {:induction false} RegisterFiltersDevelOnly(m: Collection, services: seq<ServiceType>)
    ensures Registered(m, services, false) == Registered(m, Active(services, false), false)
    decreases |services|
  {
    if services != [] {
      var prefix := services[..|services| - 1];
      var last := services[|services| - 1];
      var a := Active(prefix, false);
      RegisterFiltersDevelOnly(m, prefix);
      if Skipped(last, false) {
        assert Active(services, false) == a;
      } else {
        var a' := a + [last];
        assert a'[..|a'| - 1] == a;
        assert Active(services, false) == a';
      }
    }
  }

  // ---------------------------------------------------------------------------
  // Lookup and listing
  // ---------------------------------------------------------------------------

  /** `collection[strings.ToLower(s)]`, with the nil service as `None`. */
  function Lookup(m: Collection, s: string): (r: Option<ServiceType>)
    ensures r.Some? <==> ToLower(s) in m
    ensures r.Some? ==> r.value == m[ToLower(s)]
  {
    if ToLower(s) in m then Some(m[ToLower(s)]) else None
  }

  /** Lookup is case-insensitive: a name and its lower-cased form find the same service. */
  lemma LookupCaseInsensitive(m: Collection, s: string)
    ensures Lookup(m, s) == Lookup(m, ToLower(s))
  {
    ToLowerIdempotent(s);
  }

  /**
   * `register` stores keys as given, so a stored key that is not in lower
   * case is never the key a lookup reads.
   */
  lemma UnloweredKeyUnreachable(m: Collection, k: string, s: string)
    requires !IsLower(k)
    ensures ToLower(s) != k
    ensures Lookup(m, s) == Lookup(m - {k}, s)
  {
    ToLowerIsLower(s);
  }

  /** A lower-case key is found under itself and under every spelling that lower-cases to it. */
  lemma LookupFindsLowerKey(m: Collection, k: string, s: string)
    requires k in m && IsLower(k) && ToLower(s) == k
    ensures Lookup(m, s) == Some(m[k]) && Lookup(m, k) == Some(m[k])
  {
    ToLowerOfLower(k);
  }

  /** The loop of `ListProofCheckers`: every key of the collection, each once, in no fixed order. */
  method ListKeys(m: Collection) returns (ret: seq<string>)
    ensures forall k :: k in ret <==> k in m
    ensures forall i, j :: 0 <= i < j < |ret| ==> ret[i] != ret[j]
    ensures |ret| == |m|
  {
    ret := [];
    var remaining := m.Keys;
    while remaining != {}
      invariant remaining <= m.Keys
      invariant forall k :: k in ret <==> k in m.Keys - remaining
      invariant forall i, j :: 0 <= i < j < |ret| ==> ret[i] != ret[j]
      invariant |ret| + |remaining| == |m.Keys|
      decreases remaining
    {
      var k :| k in remaining;
      assert k !in ret;
      ret := ret + [k];
      remaining := remaining - {k};
    }
  }

  // ---------------------------------------------------------------------------
  // parseServiceConfigs and loadParamProofServices
  // ---------------------------------------------------------------------------

  /** The validated versions of the records that pass validation, in input order. */
  function ValidConfigs(configs: seq<ParamProofServiceConfig>, validate: ParamProofServiceConfig -> Result<GenericSocialProofConfig>): seq<GenericSocialProofConfig>
    decreases |configs|
  {
    if configs == [] then []
    else
      var v := validate(configs[|configs| - 1]);
      ValidConfigs(configs[..|configs| - 1], validate) + (if v.Ok? then [v.value] else [])
  }

  /** What `parseServiceConfigs` returns for `entry`. */
  function ParsedConfigs(entry: MerkleStoreEntry, f: Factories): (r: Result<seq<GenericSocialProofConfig>>)
    ensures r.Err? <==> f.decode(entry.entry).Err?
    ensures r.Err? ==> r.error == f.decode(entry.entry).error
    ensures r.Ok? ==> r.value == ValidConfigs(f.decode(entry.entry).value, f.validate)
  {
    match f.decode(entry.entry)
    case Err(e) => Err(e)
    case Ok(configs) => Ok(ValidConfigs(configs, f.validate))
  }

  /**
   * `parseServiceConfigs`: decode the payload, then keep the validated form
   * of each record that validates. A decode error is returned as is; a
   * record that fails validation is skipped.
   */
  method ParseServiceConfigs(entry: MerkleStoreEntry, f: Factories) returns (res: Result<seq<GenericSocialProofConfig>>)
    ensures res.Err? <==> f.decode(entry.entry).Err?
    ensures res.Err? ==> res == Err(f.decode(entry.entry).error)
    ensures res.Ok? ==> res.value == ValidConfigs(f.decode(entry.entry).value, f.validate)
  {
    var decoded := f.decode(entry.entry);
    if decoded.Err? {
      return Err(decoded.error);
    }
    var services := decoded.value;
    var out: seq<GenericSocialProofConfig> := [];
    for i := 0 to |services|
      invariant out == ValidConfigs(services[..i], f.validate)
    {
      var validConf := f.validate(services[i]);
      assert services[..i + 1][..i] == services[..i];
      if validConf.Err? {
        continue;
      }
      out := out + [validConf.value];
    }
    assert services[..|services|] == services;
    res := Ok(out);
  }

  /** The service types `loadParamProofServices` builds, one per config, in order. */
  function BuildServices(configs: seq<GenericSocialProofConfig>, f: Factories): (r: seq<ServiceType>)
    ensures |r| == |configs|
    ensures forall i :: 0 <= i < |configs| ==> r[i] == f.newServiceType(configs[i])
  {
    seq(|configs|, i requires 0 <= i < |configs| => f.newServiceType(configs[i]))
  }

  /** The refresh policy: admin feature flag, development run mode or CI. */
  predicate ShouldRun(env: Environment)
    ensures env.admin ==> ShouldRun(env)
    ensures env.develRunMode ==> ShouldRun(env)
    ensures env.runningInCI ==> ShouldRun(env)
    ensures ShouldRun(env) ==> env.admin || env.develRunMode || env.runningInCI
  {
    env.admin || env.develRunMode || env.runningInCI
  }

  /** Which way `loadParamProofServices` leaves, and the services it registers if it gets that far. */
  function LoadPlan(env: Environment, f: Factories): LoadOutcome {
    if !ShouldRun(env) then PolicyOff
    else match env.latestEntry
      case Err(e) => FetchFailed(e)
      case Ok(entry) =>
        match ParsedConfigs(entry, f)
        case Err(e) => ParseFailed(e)
        case Ok(configs) => Merged(BuildServices(configs, f))
  }

  /** The collection after `loadParamProofServices`. */
  function Refreshed(m: Collection, env: Environment, f: Factories, useDevel: bool): Collection {
    match LoadPlan(env, f)
    case Merged(services) => Registered(m, services, useDevel)
    case _ => m
  }

  /**
   * The refresh is all or nothing: with the policy off, a failed fetch or a
   * payload that does not decode, the collection is left exactly as it was.
   */
  lemma RefreshAbortLeavesCollection(m: Collection, env: Environment, f: Factories, useDevel: bool)
    requires !ShouldRun(env) || env.latestEntry.Err? || f.decode(env.latestEntry.value.entry).Err?
    ensures !LoadPlan(env, f).Merged?
    ensures Refreshed(m, env, f, useDevel) == m
  {
  }

  /** With the policy off the store's answer plays no part: it is never asked. */
  lemma PolicyOffIgnoresStore(m: Collection, env: Environment, env': Environment, f: Factories, useDevel: bool)
    requires !ShouldRun(env) && env'.admin == env.admin && env'.develRunMode == env.develRunMode && env'.runningInCI == env.runningInCI
    ensures LoadPlan(env, f) == LoadPlan(env', f) == PolicyOff
    ensures Refreshed(m, env, f, useDevel) == Refreshed(m, env', f, useDevel) == m
  {
  }

  /**
   * A successful refresh registers one service per record that validates, in
   * record order; the key set becomes the old one plus the keys of the
   * non-skipped new services, so no key is ever removed.
   */
  lemma RefreshMerges(m: Collection, env: Environment, f: Factories, useDevel: bool)
    requires ShouldRun(env) && env.latestEntry.Ok? && f.decode(env.latestEntry.value.entry).Ok?
    ensures var services := BuildServices(ValidConfigs(f.decode(env.latestEntry.value.entry).value, f.validate), f);
      && LoadPlan(env, f) == Merged(services)
      && Refreshed(m, env, f, useDevel).Keys == m.Keys + ListedKeys(services, useDevel)
  {
    var services := BuildServices(ValidConfigs(f.decode(env.latestEntry.value.entry).value, f.validate), f);
    RegisterKeys(m, services, useDevel);
  }

  /** No refresh ever removes a key. */
  lemma RefreshNeverRemoves(m: Collection, env: Environment, f: Factories, useDevel: bool)
    ensures m.Keys <= Refreshed(m, env, f, useDevel).Keys
  {
    if LoadPlan(env, f).Merged? {
      RegisterKeys(m, LoadPlan(env, f).services, useDevel);
    }
  }

  /**
   * Remote wins: a key that some merged service lists maps, after the
   * refresh, to the last such service, whatever it mapped to before.
   */
  lemma RefreshRemoteWins(m: Collection, env: Environment, f: Factories, useDevel: bool, k: string, i: int)
    requires LoadPlan(env, f).Merged?
    requires 0 <= i < |LoadPlan(env, f).services| && Listed(LoadPlan(env, f).services[i], k, useDevel)
    ensures var services := LoadPlan(env, f).services;
      && k in Refreshed(m, env, f, useDevel)
      && exists j :: i <= j && IsLastWriter(services, k, useDevel, j) && Refreshed(m, env, f, useDevel)[k] == services[j]
  {
    var services := LoadPlan(env, f).services;
    var j := LastWriterExists(services, k, useDevel, i);
    RegisterLastWriterWins(m, services, useDevel, k, j);
  }

  /**
   * A worked case: the built-in "x" service, and a store entry whose one
   * record validates into a service answering to "x" and "y". After the
   * refresh both keys are present and "X" finds the remote service.
   */
  lemma RefreshExample(remote: ServiceType, record: ParamProofServiceConfig)
    requires remote.keys == ["x", "y"] && !remote.develOnly
    ensures var builtin := ServiceType("x", ["x"], false);
      var f := Factories(
        payload => Ok([record]),
        c => Ok(GenericSocialProofConfig(c)),
        g => remote);
      var env := Environment(true, false, false, Ok(MerkleStoreEntry("h", "{}")));
      var after := Refreshed(Registered(map[], [builtin], false), env, f, false);
      && after.Keys == {"x", "y"}
      && Lookup(after, "X") == Some(remote)
  {
    var builtin := ServiceType("x", ["x"], false);
    var f := Factories(payload => Ok([record]), c => Ok(GenericSocialProofConfig(c)), g => remote);
    var env := Environment(true, false, false, Ok(MerkleStoreEntry("h", "{}")));
    var seeded := Registered(map[], [builtin], false);
    assert [record][..0] == [];
    assert ValidConfigs([record], f.validate) == [GenericSocialProofConfig(record)];
    assert LoadPlan(env, f) == Merged([remote]);
    assert [builtin][..0] == [];
    assert Registered(map[], [builtin], false) == RegisterOne(map[], builtin, false);
    assert forall k :: k in builtin.keys <==> k == "x";
    assert seeded == map["x" := builtin];
    assert [remote][..0] == [];
    assert Registered(seeded, [remote], false) == RegisterOne(seeded, remote, false);
    assert forall k :: k in remote.keys <==> k == "x" || k == "y";
    assert Registered(seeded, [remote], false) == map["x" := remote, "y" := remote];
    assert ToLower("X") == "x";
  }

  // ---------------------------------------------------------------------------
  // Properties of parseServiceConfigs' filter
  // ---------------------------------------------------------------------------

  /** The filter works record by record: it distributes over concatenation. */
  lemma {:induction false} ValidConfigsAppend(a: seq<ParamProofServiceConfig>, b: seq<ParamProofServiceConfig>, validate: ParamProofServiceConfig -> Result<GenericSocialProofConfig>)
    ensures ValidConfigs(a + b, validate) == ValidConfigs(a, validate) + ValidConfigs(b, validate)
    decreases |b|
  {
    if b != [] {
      var b' := b[..|b| - 1];
      assert (a + b)[..|a + b| - 1] == a + b';
      ValidConfigsAppend(a, b', validate);
    } else {
      assert a + b == a;
    }
  }

  /** One record that fails validation is dropped and never affects its neighbours. */
  lemma InvalidRecordIsolated(a: seq<ParamProofServiceConfig>, r: ParamProofServiceConfig, b: seq<ParamProofServiceConfig>, validate: ParamProofServiceConfig -> Result<GenericSocialProofConfig>)
    requires validate(r).Err?
    ensures ValidConfigs(a + [r] + b, validate) == ValidConfigs(a + b, validate)
  {
    ValidConfigsAppend(a + [r], b, validate);
    ValidConfigsAppend(a, [r], validate);
    ValidConfigsAppend(a, b, validate);
    assert [r][..0] == [];
  }

  /** `idx` picks, in increasing order, exactly the records that validate, and `out` holds their validated forms. */
  predicate SelectsValid(configs: seq<ParamProofServiceConfig>, validate: ParamProofServiceConfig -> Result<GenericSocialProofConfig>, out: seq<GenericSocialProofConfig>, idx: seq<int>) {
    && |idx| == |out|
    && (forall j :: 0 <= j < |idx| ==> 0 <= idx[j] < |configs| && validate(configs[idx[j]]) == Ok(out[j]))
    && (forall j, j' :: 0 <= j < j' < |idx| ==> idx[j] < idx[j'])
    && (forall i :: 0 <= i < |configs| && validate(configs[i]).Ok? ==> i in idx)
  }

  /**
   * `parseServiceConfigs` returns, in input order, exactly the validated
   * versions of the records that validate.
   */
  lemma {:induction false} ValidConfigsSelects(configs: seq<ParamProofServiceConfig>, validate: ParamProofServiceConfig -> Result<GenericSocialProofConfig>) returns (idx: seq<int>)
    ensures SelectsValid(configs, validate, ValidConfigs(configs, validate), idx)
    ensures forall j :: j in idx ==> 0 <= j < |configs|
    decreases |configs|
  {
    if configs == [] {
      idx := [];
    } else {
      var n := |configs| - 1;
      var prefix := configs[..n];
      var p := ValidConfigsSelects(prefix, validate);
      var out := ValidConfigs(configs, validate);
      var v := validate(configs[n]);
      assert forall i :: 0 <= i < n ==> prefix[i] == configs[i];
      if v.Ok? {
        idx := p + [n];
        assert out == ValidConfigs(prefix, validate) + [v.value];
        assert forall j :: 0 <= j < |p| ==> idx[j] == p[j] && out[j] == ValidConfigs(prefix, validate)[j];
      } else {
        idx := p;
      }
    }
  }

  // ---------------------------------------------------------------------------
  // The registries
  // ---------------------------------------------------------------------------

  /** `staticProofServices`: filled once from the built-in services. */
  class StaticProofServices {
    var collection: Collection
    const useDevel: bool

    ghost predicate Valid()
      reads this
    {
      WellFormed(collection, useDevel)
    }

    /** `newStaticProofServices`: an empty collection, then `register(builtins)`. */
    constructor (builtins: seq<ServiceType>, useDevel: bool)
      ensures this.useDevel == useDevel
      ensures collection == Registered(map[], builtins, useDevel)
      ensures collection.Keys == ListedKeys(builtins, useDevel)
      ensures Valid()
    {
      this.useDevel := useDevel;
      collection := map[];
      new;
      Register(builtins);
    }

    /** `register`: writes every key of every non-skipped service. */
    method Register(services: seq<ServiceType>)
      requires Valid()
      modifies this
      ensures Valid()
      ensures collection == Registered(old(collection), services, useDevel)
      ensures collection.Keys == old(collection).Keys + ListedKeys(services, useDevel)
    {
      collection := RegisterAll(collection, services, useDevel);
    }

    /** `GetServiceType`: the service stored under the lower-cased name, if any. */
    function GetServiceType(s: string): (r: Option<ServiceType>)
      reads this
      ensures r.Some? <==> ToLower(s) in collection
      ensures r.Some? ==> r.value == collection[ToLower(s)]
    {
      Lookup(collection, s)
    }

    /** `ListProofCheckers`: every key of the collection, each once. */
    method ListProofCheckers() returns (ret: seq<string>)
      ensures forall k :: k in ret <==> k in collection
      ensures forall i, j :: 0 <= i < j < |ret| ==> ret[i] != ret[j]
    {
      ret := ListKeys(collection);
    }
  }

  /**
   * `proofServices`: the built-in services plus those configured through the
   * parameterised-proof store, refreshed on every query.
   */
  class ProofServices {
    var collection: Collection
    const useDevel: bool
    const factories: Factories

    ghost predicate Valid()
      reads this
    {
      WellFormed(collection, useDevel)
    }

    /** `newProofServices`: an empty collection, then `register(builtins)`. */
    constructor (builtins: seq<ServiceType>, useDevel: bool, factories: Factories)
      ensures this.useDevel == useDevel && this.factories == factories
      ensures collection == Registered(map[], builtins, useDevel)
      ensures collection.Keys == ListedKeys(builtins, useDevel)
      ensures Valid()
    {
      this.useDevel := useDevel;
      this.factories := factories;
      collection := map[];
      new;
      Register(builtins);
    }

    /** `register`: writes every key of every non-skipped service. */
    method Register(services: seq<ServiceType>)
      requires Valid()
      modifies this
      ensures Valid()
      ensures collection == Registered(old(collection), services, useDevel)
      ensures collection.Keys == old(collection).Keys + ListedKeys(services, useDevel)
    {
      collection := RegisterAll(collection, services, useDevel);
    }

    /** `GetServiceType`: refresh, then the service stored under the lower-cased name, if any. */
    method GetServiceType(s: string, env: Environment) returns (r: Option<ServiceType>)
      requires Valid()
      modifies this
      ensures Valid()
      ensures collection == Refreshed(old(collection), env, factories, useDevel)
      ensures r.Some? <==> ToLower(s) in collection
      ensures r.Some? ==> r.value == collection[ToLower(s)]
    {
      var _ := LoadParamProofServices(env);
      r := Lookup(collection, s);
    }

    /** `ListProofCheckers`: refresh, then every key of the collection, each once. */
    method ListProofCheckers(env: Environment) returns (ret: seq<string>)
      requires Valid()
      modifies this
      ensures Valid()
      ensures collection == Refreshed(old(collection), env, factories, useDevel)
      ensures forall k :: k in ret <==> k in collection
      ensures forall i, j :: 0 <= i < j < |ret| ==> ret[i] != ret[j]
    {
      var _ := LoadParamProofServices(env);
      ret := ListKeys(collection);
    }

    /**
     * `loadParamProofServices`: when the policy allows, fetch the latest
     * store entry, parse and validate its records, build one service per
     * valid record and register them. Any failure before the merge returns
     * with the collection untouched.
     */
    method LoadParamProofServices(env: Environment) returns (outcome: LoadOutcome)
      requires Valid()
      modifies this
      ensures Valid()
      ensures outcome == LoadPlan(env, factories)
      ensures collection == Refreshed(old(collection), env, factories, useDevel)
      ensures !outcome.Merged? ==> collection == old(collection)
    {
      var shouldRun := env.admin || env.develRunMode || env.runningInCI;
      if !shouldRun {
        return PolicyOff;
      }
      var fetched := env.latestEntry;
      if fetched.Err? {
        return FetchFailed(fetched.error);
      }
      var serviceConfigs := ParseServiceConfigs(fetched.value, factories);
      if serviceConfigs.Err? {
        return ParseFailed(serviceConfigs.error);
      }
      var configs := serviceConfigs.value;
      var services: seq<ServiceType> := [];
      for i := 0 to |configs|
        invariant services == BuildServices(configs[..i], factories)
      {
        services := services + [factories.newServiceType(configs[i])];
      }
      assert configs[..|configs|] == configs;
      Register(services);
      outcome := Merged(services);
    }
  }
}
