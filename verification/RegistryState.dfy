/**
 * The value a model registry denotes, and what each public operation does to it.
 *
 * A registration is described per model id: every operation acts on the registration of one id
 * as a function of the multiplicity of that id in the client's old and new model lists.
 */
module RegistryState {
  import opened Wrappers

  /** Nanoseconds. */
  type Time = int

  const QUOTA_WINDOW: Time := 5 * 60 * 1_000_000_000

  datatype ModelInfo = ModelInfo(id: string, ownedBy: string, displayName: string)

  datatype Registration = Registration(
    info: ModelInfo,
    infoByProvider: map<string, ModelInfo>,
    count: int,
    lastUpdated: Time,
    quota: map<string, Time>,
    providers: map<string, int>,
    suspended: map<string, string>)

  type Models = map<string, Registration>

  datatype State = State(
    models: Models,
    clientModels: map<string, seq<string>>,
    clientInfos: map<string, map<string, ModelInfo>>,
    clientProviders: map<string, string>)

  const EMPTY := State(map[], map[], map[], map[])

  // ---------- maps of registrations, read and written one id at a time ----------

  function Get(models: Models, id: string): Option<Registration> {
    if id in models then Some(models[id]) else None
  }

  function Put(models: Models, id: string, entry: Option<Registration>): Models {
    if entry.Some? then models[id := entry.value] else models - {id}
  }

  /** Rebuilds `models` from `entry`, which is only asked for ids in `models` or `extra`. */
  ghost function Remap(models: Models, extra: set<string>, entry: string -> Option<Registration>): Models {
    map id | id in models.Keys + extra && entry(id).Some? :: entry(id).value
  }

  lemma SameModels(left: Models, right: Models)
    requires forall id :: Get(left, id) == Get(right, id)
    ensures left == right
  {
    forall id
      ensures id in left <==> id in right
      ensures id in left ==> left[id] == right[id]
    {
      assert Get(left, id) == Get(right, id);
    }
  }

  lemma RemapIs(models: Models, extra: set<string>, entry: string -> Option<Registration>, result: Models)
    requires forall id :: Get(result, id) == entry(id)
    requires forall id :: id !in models.Keys + extra ==> entry(id).None?
    ensures result == Remap(models, extra, entry)
  {
    forall id
      ensures Get(result, id) == Get(Remap(models, extra, entry), id)
    {
      assert Get(result, id) == entry(id);
    }
    SameModels(result, Remap(models, extra, entry));
  }

  // ---------- one registration ----------

  /** The provider's share of the registration shrinks by `k`; an exhausted share disappears. */
  function DropShare(r: Registration, provider: string, k: nat): Registration {
    if provider != "" && provider in r.providers then
      if r.providers[provider] <= k then
        r.(providers := r.providers - {provider}, infoByProvider := r.infoByProvider - {provider})
      else
        r.(providers := r.providers[provider := r.providers[provider] - k])
    else
      r
  }

  function Share(r: Registration, provider: string): int {
    if provider in r.providers then r.providers[provider] else 0
  }

  function Unmark(r: Registration, client: string): Registration {
    r.(quota := r.quota - {client}, suspended := r.suspended - {client})
  }

  /** `client` gives up `k` of its registrations. */
  function Released(entry: Option<Registration>, client: string, provider: string, k: nat,
                    now: Time): Option<Registration> {
    if k == 0 || entry.None? then entry
    else if entry.value.count <= k then None
    else Some(Unmark(DropShare(entry.value.(count := entry.value.count - k, lastUpdated := now), provider, k), client))
  }

  /** A client of `provider` adds `k` registrations described by `info`. */
  function Supplied(entry: Option<Registration>, provider: string, info: ModelInfo, k: nat,
                    now: Time): Option<Registration> {
    if k == 0 then entry
    else if entry.None? then
      Some(Registration(info, if provider != "" then map[provider := info] else map[], k, now, map[],
                        if provider != "" then map[provider := k] else map[], map[]))
    else
      var r := entry.value.(count := entry.value.count + k, lastUpdated := now, info := info);
      if provider == "" then Some(r)
      else Some(r.(providers := r.providers[provider := Share(r, provider) + k],
                   infoByProvider := r.infoByProvider[provider := info]))
  }

  function HandedOver(entry: Option<Registration>, provider: string, k: nat): Option<Registration> {
    if entry.None? then None else Some(DropShare(entry.value, provider, k))
  }

  /** Metadata of a model the client still lists; `credit` overlapping registrations move to `provider`. */
  function Refreshed(entry: Option<Registration>, client: string, provider: string, info: ModelInfo, credit: nat,
                     now: Time): Option<Registration> {
    if entry.None? then None
    else
      var r := Unmark(entry.value.(info := info, lastUpdated := now), client);
      if provider == "" then Some(r)
      else
        var t := r.(infoByProvider := r.infoByProvider[provider := info]);
        Some(if credit == 0 then t else t.(providers := t.providers[provider := Share(t, provider) + credit]))
  }

  /** Hand-over of the overlap between the old and the new list, when the provider changes. */
  function Stage1(entry: Option<Registration>, oldProvider: string, provider: string, a: nat,
                  b: nat): Option<Registration> {
    if oldProvider != provider && oldProvider != "" && a > 0 && b > 0
    then HandedOver(entry, oldProvider, Min(a, b)) else entry
  }

  /** Removal of models no longer listed. */
  function Stage2(entry: Option<Registration>, client: string, oldProvider: string, provider: string, a: nat, b: nat,
                  now: Time): Option<Registration> {
    var e := Stage1(entry, oldProvider, provider, a, b);
    if b == 0 then Released(e, client, oldProvider, a, now) else e
  }

  /** Removal of the overage of models listed fewer times than before. */
  function Stage3(entry: Option<Registration>, client: string, oldProvider: string, provider: string, a: nat, b: nat,
                  now: Time): Option<Registration> {
    var e := Stage2(entry, client, oldProvider, provider, a, b, now);
    if 0 < b < a then Released(e, client, oldProvider, a - b, now) else e
  }

  /** Additions. */
  function Stage4(entry: Option<Registration>, client: string, oldProvider: string, provider: string, a: nat, b: nat,
                  info: Option<ModelInfo>, now: Time): Option<Registration>
    requires b > 0 ==> info.Some?
  {
    var e := Stage3(entry, client, oldProvider, provider, a, b, now);
    if a < b then Supplied(e, provider, info.value, b - a, now) else e
  }

  /** What the multiset difference leaves for an id listed `a` times before and `b` times now. */
  function Reconciled(entry: Option<Registration>, client: string, oldProvider: string, provider: string, a: nat,
                      b: nat, info: Option<ModelInfo>, now: Time): Option<Registration>
    requires b > 0 ==> info.Some?
  {
    var e := Stage4(entry, client, oldProvider, provider, a, b, info, now);
    if b > 0
    then Refreshed(e, client, provider, info.value, if oldProvider != provider then Min(a, b) else 0, now)
    else e
  }

  // ---------- the model list of a registration call ----------

  /** Ids of the usable entries, with repetitions. */
  function RawIds(models: seq<Option<ModelInfo>>): seq<string> {
    if models == [] then []
    else
      var last := models[|models| - 1];
      RawIds(models[..|models| - 1]) + if last.None? || last.value.id == "" then [] else [last.value.id]
  }

  /** The first usable entry of each id. */
  function FirstInfos(models: seq<Option<ModelInfo>>): map<string, ModelInfo> {
    if models == [] then map[]
    else
      var last := models[|models| - 1];
      var before := FirstInfos(models[..|models| - 1]);
      if last.None? || last.value.id == "" || last.value.id in before then before
      else before[last.value.id := last.value]
  }

  lemma NextEntry(models: seq<Option<ModelInfo>>, i: nat)
    requires i < |models|
    ensures RawIds(models[..i + 1])
         == RawIds(models[..i]) + if models[i].None? || models[i].value.id == "" then [] else [models[i].value.id]
    ensures FirstInfos(models[..i + 1])
         == if models[i].None? || models[i].value.id == "" || models[i].value.id in FirstInfos(models[..i])
            then FirstInfos(models[..i]) else FirstInfos(models[..i])[models[i].value.id := models[i].value]
  {
    assert models[..i + 1][..i] == models[..i];
  }

  lemma {:induction false} InfosCoverIds(models: seq<Option<ModelInfo>>)
    ensures forall id :: id in FirstInfos(models) <==> multiset(RawIds(models))[id] > 0
    ensures "" !in FirstInfos(models)
  {
    if models != [] {
      InfosCoverIds(models[..|models| - 1]);
    }
  }

  function InfoOf(infos: map<string, ModelInfo>, id: string): Option<ModelInfo> {
    if id in infos then Some(infos[id]) else None
  }

  // ---------- public operations ----------

  function ProviderOf(s: State, client: string): string {
    if client in s.clientProviders then s.clientProviders[client] else ""
  }

  function Listed(s: State, client: string): seq<string> {
    if client in s.clientModels then s.clientModels[client] else []
  }

  ghost function Unregistered(s: State, client: string, now: Time): State {
    if client !in s.clientModels then s.(clientProviders := s.clientProviders - {client})
    else
      State(Remap(s.models, {}, id =>
              Released(Get(s.models, id), client, ProviderOf(s, client), multiset(s.clientModels[client])[id], now)),
            s.clientModels - {client}, s.clientInfos - {client}, s.clientProviders - {client})
  }

  ghost function RegisteredModels(s: State, client: string, provider: string, models: seq<Option<ModelInfo>>,
                                  now: Time): Models {
    InfosCoverIds(models);
    var ids := multiset(RawIds(models));
    var infos := FirstInfos(models);
    if client !in s.clientModels then
      Remap(s.models, infos.Keys, id =>
        if id in infos then Supplied(Get(s.models, id), provider, infos[id], ids[id], now) else Get(s.models, id))
    else
      Remap(s.models, infos.Keys, id =>
        Reconciled(Get(s.models, id), client, ProviderOf(s, client), provider,
                   multiset(s.clientModels[client])[id], ids[id], InfoOf(infos, id), now))
  }

  ghost function Registered(s: State, client: string, provider: string, models: seq<Option<ModelInfo>>,
                            now: Time): State {
    if RawIds(models) == [] then
      var u := Unregistered(s, client, now);
      u.(clientInfos := u.clientInfos - {client})
    else
      State(RegisteredModels(s, client, provider, models, now),
            s.clientModels[client := RawIds(models)],
            s.clientInfos[client := FirstInfos(models)],
            if provider != "" then s.clientProviders[client := provider] else s.clientProviders - {client})
  }

  function QuotaMarked(s: State, client: string, id: string, now: Time): State {
    if id !in s.models then s
    else s.(models := s.models[id := s.models[id].(quota := s.models[id].quota[client := now])])
  }

  function QuotaCleared(s: State, client: string, id: string): State {
    if id !in s.models then s
    else s.(models := s.models[id := s.models[id].(quota := s.models[id].quota - {client})])
  }

  function Suspended(s: State, client: string, id: string, reason: string, now: Time): State {
    if client == "" || id == "" || id !in s.models || client in s.models[id].suspended then s
    else s.(models := s.models[id := s.models[id].(suspended := s.models[id].suspended[client := reason],
      lastUpdated := now)])
  }

  function Resumed(s: State, client: string, id: string, now: Time): State {
    if client == "" || id == "" || id !in s.models || client !in s.models[id].suspended then s
    else s.(models := s.models[id := s.models[id].(suspended := s.models[id].suspended - {client}, lastUpdated := now)])
  }

  /** The quota marks still inside their window. */
  function Cooling(quota: map<string, Time>, now: Time): set<string> {
    set c | c in quota && now - quota[c] < QUOTA_WINDOW
  }

  function Fresh(r: Registration, now: Time): Registration {
    r.(quota := map c | c in r.quota && now - r.quota[c] < QUOTA_WINDOW :: r.quota[c])
  }

  function Cleaned(s: State, now: Time): State {
    s.(models := map id | id in s.models :: Fresh(s.models[id], now))
  }

  function Available(s: State, id: string, now: Time): int {
    if id !in s.models then 0
    else Max(0, s.models[id].count - |Cooling(s.models[id].quota, now)| - |s.models[id].suspended|)
  }
}
