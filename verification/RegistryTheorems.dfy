/**
 * What the registry's cached counters mean, in every reachable state: they are sums over the
 * clients' model lists, and the multiset difference of a re-registration is a rebuild.
 */
module RegistryTheorems {
  import opened Wrappers
  import opened RegistryState

  // ---------- the supply of models, counted from the clients' lists ----------

  /** All model ids the clients list, with repetitions. */
  ghost function Supply(lists: map<string, seq<string>>): multiset<string> {
    if lists == map[] then multiset{}
    else
      var c :| c in lists;
      multiset(lists[c]) + Supply(lists - {c})
  }

  lemma {:induction false} SupplySplit(lists: map<string, seq<string>>, client: string)
    requires client in lists
    ensures Supply(lists) == multiset(lists[client]) + Supply(lists - {client})
    decreases |lists|
  {
    var c :| c in lists && Supply(lists) == multiset(lists[c]) + Supply(lists - {c});
    if c != client {
      SupplySplit(lists - {c}, client);
      SupplySplit(lists - {client}, c);
      assert lists - {c} - {client} == lists - {client} - {c};
    }
  }

  ghost function OfProvider(s: State, provider: string): map<string, seq<string>> {
    map c | c in s.clientModels && c in s.clientProviders && s.clientProviders[c] == provider :: s.clientModels[c]
  }

  ghost function Total(s: State, id: string): nat {
    Supply(s.clientModels)[id]
  }

  ghost function Shares(s: State, id: string): string -> nat {
    provider => Supply(OfProvider(s, provider))[id]
  }

  // ---------- cached counters ----------

  /** The cached entry of one id agrees with the sums it caches. */
  ghost predicate Accounts(entry: Option<Registration>, total: nat, shares: string -> nat) {
    && (entry.None? <==> total == 0)
    && (entry.Some? ==>
          && entry.value.count == total
          && (forall q :: q in entry.value.providers <==> shares(q) > 0)
          && (forall q :: q in entry.value.providers ==> entry.value.providers[q] == shares(q))
          && entry.value.infoByProvider.Keys == entry.value.providers.Keys)
  }

  ghost predicate Balanced(s: State) {
    forall id :: Accounts(Get(s.models, id), Total(s, id), Shares(s, id))
  }

  /** The book-keeping every public operation keeps. */
  ghost predicate Consistent(s: State) {
    Balanced(s) && Tidy(s)
  }

  ghost predicate Tidy(s: State) {
    && s.clientProviders.Keys <= s.clientModels.Keys
    && s.clientInfos.Keys == s.clientModels.Keys
    && (forall c :: c in s.clientProviders ==> s.clientProviders[c] != "")
    && (forall c :: c in s.clientModels ==> s.clientModels[c] != [] && "" !in s.clientModels[c])
  }

  ghost function Less(shares: string -> nat, provider: string, k: nat): string -> nat {
    q => if q == provider && q != "" && k <= shares(q) then shares(q) - k else shares(q)
  }

  ghost function More(shares: string -> nat, provider: string, k: nat): string -> nat {
    q => if q == provider && q != "" then shares(q) + k else shares(q)
  }

  lemma ReleasedAccounts(entry: Option<Registration>, total: nat, shares: string -> nat, client: string,
                         provider: string, k: nat, now: Time)
    requires Accounts(entry, total, shares) && k <= total
    requires provider != "" ==> k <= shares(provider)
    ensures Accounts(Released(entry, client, provider, k, now), total - k, Less(shares, provider, k))
  {
  }

  lemma SuppliedAccounts(entry: Option<Registration>, total: nat, shares: string -> nat, provider: string,
                         info: ModelInfo, k: nat, now: Time)
    requires Accounts(entry, total, shares)
    requires total == 0 ==> forall q :: shares(q) == 0
    ensures Accounts(Supplied(entry, provider, info, k, now), total + k, More(shares, provider, k))
  {
  }

  // ---------- the multiset difference is a rebuild, one id at a time ----------

  ghost predicate SameButMarks(left: Option<Registration>, right: Option<Registration>) {
    && (left.Some? <==> right.Some?)
    && (left.Some? ==> left.value == right.value.(quota := left.value.quota, suspended := left.value.suspended))
  }

  /** The entry after the client is thrown away and registered afresh. */
  ghost function Rebuilt(entry: Option<Registration>, client: string, oldProvider: string, provider: string, a: nat,
                         b: nat, info: Option<ModelInfo>, now: Time): Option<Registration>
    requires b > 0 ==> info.Some?
  {
    var e := Released(entry, client, oldProvider, a, now);
    if b > 0 then Supplied(e, provider, info.value, b, now) else e
  }

  ghost predicate Rebuildable(entry: Option<Registration>, total: nat, shares: string -> nat, oldProvider: string,
                              a: nat) {
    && Accounts(entry, total, shares) && a <= total && shares("") == 0
    && (oldProvider != "" ==> a <= shares(oldProvider))
    && (forall q :: shares(q) <= if q == oldProvider then total else total - a)
  }

  /** A listed model's entry, marks aside, once `a` registrations of one provider became `b` of another. */
  function Moved(r: Registration, oldProvider: string, provider: string, a: nat, b: nat, info: ModelInfo,
                 now: Time): Registration {
    var rest := DropShare(r, oldProvider, a).(count := r.count - a + b, info := info, lastUpdated := now);
    if provider == "" then rest
    else rest.(providers := rest.providers[provider := Share(rest, provider) + b],
               infoByProvider := rest.infoByProvider[provider := info])
  }

  ghost predicate Overlap(r: Registration, oldProvider: string, a: nat, b: nat) {
    && a > 0 && b > 0 && a <= r.count
    && r.infoByProvider.Keys == r.providers.Keys
    && "" !in r.providers
    && (oldProvider != "" ==> oldProvider in r.providers && a <= r.providers[oldProvider])
  }

  lemma RebuiltIsMoved(r: Registration, client: string, oldProvider: string, provider: string, a: nat, b: nat,
                       info: ModelInfo, now: Time)
    requires Overlap(r, oldProvider, a, b)
    requires r.count == a ==> forall q :: q in r.providers ==> q == oldProvider && r.providers[q] <= a
    ensures SameButMarks(Rebuilt(Some(r), client, oldProvider, provider, a, b, Some(info), now),
                         Some(Moved(r, oldProvider, provider, a, b, info, now)))
  {
    var rest := DropShare(r, oldProvider, a);
    if r.count == a {
      assert rest.providers == map[] && rest.infoByProvider == map[];
    }
    RebuiltParts(r, client, oldProvider, provider, a, b, info, now);
    MovedIs(r, oldProvider, provider, a, b, info, now);
    hide Rebuilt, Moved, DropShare;
  }

  /** The rebuilt entry's counters, whether the registration went away in between or not. */
  lemma RebuiltParts(r: Registration, client: string, oldProvider: string, provider: string, a: nat, b: nat,
                     info: ModelInfo, now: Time)
    requires a > 0 && b > 0 && a <= r.count
    requires r.count == a ==>
      DropShare(r, oldProvider, a).providers == map[] && DropShare(r, oldProvider, a).infoByProvider == map[]
    ensures var e, rest := Rebuilt(Some(r), client, oldProvider, provider, a, b, Some(info), now),
      DropShare(r, oldProvider, a);
            && e.Some? && e.value.count == r.count - a + b && e.value.info == info && e.value.lastUpdated == now
            && e.value.providers ==
              (if provider == "" then rest.providers else rest.providers[provider := Share(rest, provider) + b])
            && e.value.infoByProvider ==
              if provider == "" then rest.infoByProvider else rest.infoByProvider[provider := info]
  {
  }

  lemma SharesAdd(r: Registration, provider: string, j: nat, k: nat)
    requires provider in r.infoByProvider <==> provider in r.providers
    ensures DropShare(DropShare(r, provider, j), provider, k) == DropShare(r, provider, j + k)
  {
  }

  lemma SameProviderIsMoved(r: Registration, client: string, provider: string, a: nat, b: nat, info: ModelInfo,
                            now: Time)
    requires Overlap(r, provider, a, b)
    ensures SameButMarks(Reconciled(Some(r), client, provider, provider, a, b, Some(info), now),
                         Some(Moved(r, provider, provider, a, b, info, now)))
  {
    SameProviderStage(r, client, provider, a, b, info, now);
    var e := Stage4(Some(r), client, provider, provider, a, b, Some(info), now);
    var right := Moved(r, provider, provider, a, b, info, now);
    if provider == "" {
      assert right.providers == r.providers && right.infoByProvider == r.infoByProvider;
    } else {
      assert right.providers == r.providers[provider := r.providers[provider] - a + b];
      assert right.infoByProvider == r.infoByProvider[provider := info];
    }
    hide Stage4, Moved;
  }

  /** With the provider unchanged the stages only correct its share. */
  lemma SameProviderStage(r: Registration, client: string, provider: string, a: nat, b: nat, info: ModelInfo, now: Time)
    requires Overlap(r, provider, a, b)
    ensures var e := Stage4(Some(r), client, provider, provider, a, b, Some(info), now);
            && e.Some? && e.value.count == r.count - a + b
            && (provider == "" ==> e.value.providers == r.providers && e.value.infoByProvider == r.infoByProvider)
            && (provider != "" ==>
                  && e.value.providers == r.providers[provider := r.providers[provider] - a + b]
                  && e.value.infoByProvider[provider := info] == r.infoByProvider[provider := info])
  {
  }

  /** The hand-over and the overage together take the old provider's whole part. */
  lemma OldPartGoes(r: Registration, client: string, oldProvider: string, provider: string, a: nat, b: nat, now: Time)
    requires Overlap(r, oldProvider, a, b) && oldProvider != provider
    ensures Stage3(Some(r), client, oldProvider, provider, a, b, now).Some?
    ensures var e := Stage3(Some(r), client, oldProvider, provider, a, b, now).value;
            && e.providers == DropShare(r, oldProvider, a).providers
            && e.infoByProvider == DropShare(r, oldProvider, a).infoByProvider
            && e.count == r.count - Max(0, a - b)
  {
    if b < a && oldProvider != "" {
      SharesAdd(r, oldProvider, b, a - b);
    }
  }

  lemma NewProviderIsMoved(r: Registration, client: string, oldProvider: string, provider: string, a: nat, b: nat,
                           info: ModelInfo, now: Time)
    requires Overlap(r, oldProvider, a, b) && oldProvider != provider
    ensures SameButMarks(Reconciled(Some(r), client, oldProvider, provider, a, b, Some(info), now),
                         Some(Moved(r, oldProvider, provider, a, b, info, now)))
  {
    OldPartGoes(r, client, oldProvider, provider, a, b, now);
    hide Stage3, Moved;
    var e := Stage4(Some(r), client, oldProvider, provider, a, b, Some(info), now);
    var rest := DropShare(r, oldProvider, a);
    assert e.value.count == r.count - a + b;
    MovedIs(r, oldProvider, provider, a, b, info, now);
    hide DropShare;
    if provider == "" {
      assert e.value.providers == rest.providers && e.value.infoByProvider == rest.infoByProvider;
    } else {
      assert Share(e.value, provider) == Share(rest, provider) + Max(0, b - a);
      assert e.value.providers[provider := Share(rest, provider) + b] ==
        rest.providers[provider := Share(rest, provider) + b];
      assert e.value.infoByProvider[provider := info] == rest.infoByProvider[provider := info];
    }
  }

  lemma MovedIs(r: Registration, oldProvider: string, provider: string, a: nat, b: nat, info: ModelInfo, now: Time)
    ensures var m, rest := Moved(r, oldProvider, provider, a, b, info, now), DropShare(r, oldProvider, a);
            && m.count == r.count - a + b && m.info == info && m.lastUpdated == now
            && m.providers ==
              (if provider == "" then rest.providers else rest.providers[provider := Share(rest, provider) + b])
            && m.infoByProvider == if provider == "" then rest.infoByProvider else rest.infoByProvider[provider := info]
  {
  }

  /** A registration that is still listed, or that others supply, survives every stage. */
  lemma StagesSurvive(entry: Option<Registration>, total: nat, shares: string -> nat, client: string,
                      oldProvider: string, provider: string, a: nat, b: nat, now: Time)
    requires Rebuildable(entry, total, shares, oldProvider, a) && total > 0
    ensures Stage1(entry, oldProvider, provider, a, b).Some?
    ensures b > 0 || total > a ==> Stage2(entry, client, oldProvider, provider, a, b, now).Some?
    ensures b > 0 || total > a ==> Stage3(entry, client, oldProvider, provider, a, b, now).Some?
  {
  }

  lemma ReconciledIsRebuilt(entry: Option<Registration>, total: nat, shares: string -> nat, client: string,
                            oldProvider: string, provider: string, a: nat, b: nat, info: Option<ModelInfo>, now: Time)
    requires Rebuildable(entry, total, shares, oldProvider, a)
    requires b > 0 ==> info.Some?
    ensures SameButMarks(Reconciled(entry, client, oldProvider, provider, a, b, info, now),
                         Rebuilt(entry, client, oldProvider, provider, a, b, info, now))
    ensures total > 0 ==> Stage1(entry, oldProvider, provider, a, b).Some?
    ensures total > 0 && (b > 0 || total > a) ==>
              Stage2(entry, client, oldProvider, provider, a, b, now).Some?
                && Stage3(entry, client, oldProvider, provider, a, b, now).Some?
  {
    if total > 0 {
      StagesSurvive(entry, total, shares, client, oldProvider, provider, a, b, now);
    }
    hide Stage1, Stage2, Stage3;
    ReconciledMarksAside(entry, total, shares, client, oldProvider, provider, a, b, info, now);
  }

  lemma ReconciledMarksAside(entry: Option<Registration>, total: nat, shares: string -> nat, client: string,
                             oldProvider: string, provider: string, a: nat, b: nat, info: Option<ModelInfo>, now: Time)
    requires Rebuildable(entry, total, shares, oldProvider, a)
    requires b > 0 ==> info.Some?
    ensures SameButMarks(Reconciled(entry, client, oldProvider, provider, a, b, info, now),
                         Rebuilt(entry, client, oldProvider, provider, a, b, info, now))
  {
    if a > 0 && b > 0 {
      hide Reconciled, Rebuilt, Moved;
      RebuiltIsMoved(entry.value, client, oldProvider, provider, a, b, info.value, now);
      if oldProvider == provider {
        SameProviderIsMoved(entry.value, client, provider, a, b, info.value, now);
      } else {
        NewProviderIsMoved(entry.value, client, oldProvider, provider, a, b, info.value, now);
      }
    } else if b > 0 && provider != "" {
      var left := Reconciled(entry, client, oldProvider, provider, a, b, info, now);
      var right := Rebuilt(entry, client, oldProvider, provider, a, b, info, now);
      assert left.value.infoByProvider == right.value.infoByProvider;
    }
  }

  // ---------- lifting to whole states ----------

  lemma {:induction false} SupplySub(small: map<string, seq<string>>, big: map<string, seq<string>>)
    requires small.Keys <= big.Keys && forall c :: c in small ==> small[c] == big[c]
    ensures Supply(small) <= Supply(big)
    decreases |small|
  {
    if small != map[] {
      var c :| c in small;
      SupplySplit(small, c);
      SupplySplit(big, c);
      SupplySub(small - {c}, big - {c});
    }
  }

  lemma NoAnonymousProvider(s: State)
    requires Tidy(s)
    ensures Supply(OfProvider(s, "")) == multiset{}
  {
    assert OfProvider(s, "") == map[];
  }

  lemma ProviderPart(s: State, client: string, q: string)
    requires Tidy(s) && client in s.clientModels
    ensures Supply(OfProvider(s, q))
         == (if q == ProviderOf(s, client) && q != "" then multiset(s.clientModels[client]) else multiset{}) +
           Supply(OfProvider(s, q) - {client})
  {
    assert client in OfProvider(s, q) <==> q == ProviderOf(s, client) && q != "";
    hide Supply, ProviderOf, Tidy;
    if client in OfProvider(s, q) {
      SupplySplit(OfProvider(s, q), client);
    } else {
      assert OfProvider(s, q) - {client} == OfProvider(s, q);
    }
  }

  lemma ClientPart(s: State, client: string, q: string)
    requires Consistent(s) && client in s.clientModels
    ensures var a := multiset(s.clientModels[client]);
            && Supply(s.clientModels) == a + Supply(s.clientModels - {client})
            && Supply(OfProvider(s, q)) ==
              (if q == ProviderOf(s, client) && q != "" then a else multiset{}) + Supply(OfProvider(s, q) - {client})
            && Supply(OfProvider(s, q) - {client}) <= Supply(s.clientModels - {client})
            && Supply(OfProvider(s, "")) == multiset{}
  {
    assert Tidy(s);
    SupplySub(OfProvider(s, q) - {client}, s.clientModels - {client});
    hide *;
    SupplySplit(s.clientModels, client);
    ProviderPart(s, client, q);
    NoAnonymousProvider(s);
  }

  lemma EntryRebuildable(s: State, client: string, id: string)
    requires Consistent(s) && client in s.clientModels
    ensures Rebuildable(Get(s.models, id), Total(s, id), Shares(s, id), ProviderOf(s, client),
      multiset(s.clientModels[client])[id])
  {
    var p := ProviderOf(s, client);
    assert Accounts(Get(s.models, id), Total(s, id), Shares(s, id));
    ClientPart(s, client, p);
    forall q
      ensures Shares(s, id)(q) <= if q == p then Total(s, id) else Total(s, id) - multiset(s.clientModels[client])[id]
    {
      ClientPart(s, client, q);
    }
  }

  lemma SameShares(entry: Option<Registration>, total: nat, left: string -> nat, right: string -> nat)
    requires Accounts(entry, total, left) && forall q :: left(q) == right(q)
    ensures Accounts(entry, total, right)
  {
  }

  lemma GetRemap(models: Models, extra: set<string>, entry: string -> Option<Registration>, id: string)
    requires id !in models.Keys + extra ==> entry(id).None?
    ensures Get(Remap(models, extra, entry), id) == entry(id)
  {
  }

  lemma UnregisteredEntry(s: State, client: string, now: Time, id: string)
    requires client in s.clientModels
    ensures Get(Unregistered(s, client, now).models, id)
         == Released(Get(s.models, id), client, ProviderOf(s, client), multiset(s.clientModels[client])[id], now)
  {
    GetRemap(s.models, {}, id =>
      Released(Get(s.models, id), client, ProviderOf(s, client), multiset(s.clientModels[client])[id], now), id);
  }

  lemma UnregisteredShare(s: State, t: State, client: string, id: string, q: string)
    requires Consistent(s) && client in s.clientModels
    requires t.clientModels == s.clientModels - {client} && t.clientProviders == s.clientProviders - {client}
    ensures Total(t, id) == Total(s, id) - multiset(s.clientModels[client])[id]
    ensures Shares(t, id)(q) == Less(Shares(s, id), ProviderOf(s, client), multiset(s.clientModels[client])[id])(q)
  {
    var p, k := ProviderOf(s, client), multiset(s.clientModels[client])[id];
    assert Tidy(s);
    hide *;
    SharesAt(s, id, q);
    SharesAt(t, id, q);
    LessAt(Shares(s, id), p, k, q);
    OfProviderWithout(s, t, client, q);
    SupplySplit(s.clientModels, client);
    SharePart(s, client, id, q);
  }

  lemma OfProviderWithout(s: State, t: State, client: string, q: string)
    requires t.clientModels == s.clientModels - {client} && t.clientProviders == s.clientProviders - {client}
    ensures OfProvider(t, q) == OfProvider(s, q) - {client}
  {
  }

  lemma SharePart(s: State, client: string, id: string, q: string)
    requires Tidy(s) && client in s.clientModels
    ensures Supply(OfProvider(s, q))[id]
         == (if q == ProviderOf(s, client) && q != "" then multiset(s.clientModels[client])[id] else 0) +
           Supply(OfProvider(s, q) - {client})[id]
  {
    hide *;
    ProviderPart(s, client, q);
  }

  lemma SharesAt(s: State, id: string, q: string)
    ensures Total(s, id) == Supply(s.clientModels)[id] && Shares(s, id)(q) == Supply(OfProvider(s, q))[id]
  {
  }

  lemma LessAt(shares: string -> nat, provider: string, k: nat, q: string)
    ensures Less(shares, provider, k)(q) ==
      if q == provider && q != "" && k <= shares(q) then shares(q) - k else shares(q)
  {
  }

  lemma UnregisteredShares(s: State, t: State, client: string, id: string)
    requires Consistent(s) && client in s.clientModels
    requires t.clientModels == s.clientModels - {client} && t.clientProviders == s.clientProviders - {client}
    ensures Total(t, id) == Total(s, id) - multiset(s.clientModels[client])[id]
    ensures var k := multiset(s.clientModels[client])[id];
            forall q :: Shares(t, id)(q) == Less(Shares(s, id), ProviderOf(s, client), k)(q)
  {
    hide *;
    forall q
      ensures Shares(t, id)(q) == Less(Shares(s, id), ProviderOf(s, client), multiset(s.clientModels[client])[id])(q)
    {
      UnregisteredShare(s, t, client, id, q);
    }
    UnregisteredShare(s, t, client, id, "");
  }

  lemma UnregisteredAccounts(s: State, t: State, client: string, now: Time, id: string)
    requires Consistent(s) && client in s.clientModels
    requires t.clientModels == s.clientModels - {client} && t.clientProviders == s.clientProviders - {client}
    requires Get(t.models, id) ==
      Released(Get(s.models, id), client, ProviderOf(s, client), multiset(s.clientModels[client])[id], now)
    ensures Accounts(Get(t.models, id), Total(t, id), Shares(t, id))
  {
    hide *;
    var p, a := ProviderOf(s, client), multiset(s.clientModels[client])[id];
    EntryRebuildable(s, client, id);
    RebuildableMeans(Get(s.models, id), Total(s, id), Shares(s, id), p, a);
    ReleasedAccounts(Get(s.models, id), Total(s, id), Shares(s, id), client, p, a, now);
    UnregisteredShares(s, t, client, id);
    SameShares(Get(t.models, id), Total(t, id), Less(Shares(s, id), p, a), Shares(t, id));
  }

  lemma RebuildableMeans(entry: Option<Registration>, total: nat, shares: string -> nat, provider: string, a: nat)
    requires Rebuildable(entry, total, shares, provider, a)
    ensures Accounts(entry, total, shares) && a <= total && (provider != "" ==> a <= shares(provider))
  {
    hide Accounts;
  }

  lemma UnregisteredTidy(s: State, client: string, now: Time)
    requires Tidy(s)
    ensures Tidy(Unregistered(s, client, now))
    ensures client !in s.clientModels ==> Unregistered(s, client, now) == s
  {
    hide Remap;
    if client !in s.clientModels {
      assert s.clientProviders - {client} == s.clientProviders;
    }
  }

  lemma UnregisteredConsistent(s: State, client: string, now: Time)
    requires Consistent(s)
    ensures Consistent(Unregistered(s, client, now))
  {
    UnregisteredTidy(s, client, now);
    if client in s.clientModels {
      var t := Unregistered(s, client, now);
      forall id
        ensures Accounts(Get(t.models, id), Total(t, id), Shares(t, id))
      {
        hide Accounts, Total, Shares, Remap, Tidy;
        UnregisteredEntry(s, client, now, id);
        UnregisteredAccounts(s, t, client, now, id);
      }
    }
  }

  // ---------- registering afresh ----------

  /** `t` lists what `s` lists and, in addition, `ids` for a client `s` does not know. */
  ghost predicate Adds(s: State, t: State, client: string, provider: string, ids: seq<string>) {
    && client !in s.clientModels && client !in s.clientProviders
    && t.clientModels == s.clientModels[client := ids]
    && t.clientProviders ==
      if provider != "" then s.clientProviders[client := provider] else s.clientProviders - {client}
  }

  lemma AddedSupply(s: State, t: State, client: string, provider: string, ids: seq<string>, q: string)
    requires Adds(s, t, client, provider, ids)
    ensures Supply(t.clientModels) == multiset(ids) + Supply(s.clientModels)
    ensures Supply(OfProvider(t, q)) ==
      (if q == provider && q != "" then multiset(ids) else multiset{}) + Supply(OfProvider(s, q))
  {
    hide Supply;
    SupplySplit(t.clientModels, client);
    assert t.clientModels - {client} == s.clientModels;
    if q == provider && q != "" {
      SupplySplit(OfProvider(t, q), client);
      assert OfProvider(t, q) - {client} == OfProvider(s, q);
    } else {
      assert OfProvider(t, q) == OfProvider(s, q);
    }
  }

  lemma AddedShare(s: State, t: State, client: string, provider: string, ids: seq<string>, id: string, q: string)
    requires Adds(s, t, client, provider, ids)
    ensures Total(t, id) == Total(s, id) + multiset(ids)[id]
    ensures Shares(t, id)(q) == More(Shares(s, id), provider, multiset(ids)[id])(q)
  {
    hide Supply, OfProvider, Adds;
    AddedSupply(s, t, client, provider, ids, q);
  }

  lemma AddedAccounts(s: State, t: State, client: string, provider: string, ids: seq<string>, id: string,
                      info: ModelInfo, now: Time)
    requires Accounts(Get(s.models, id), Total(s, id), Shares(s, id))
    requires Adds(s, t, client, provider, ids)
    requires Get(t.models, id) == Supplied(Get(s.models, id), provider, info, multiset(ids)[id], now)
    ensures Accounts(Get(t.models, id), Total(t, id), Shares(t, id))
  {
    var b := multiset(ids)[id];
    assert Accounts(Get(t.models, id), Total(s, id) + b, More(Shares(s, id), provider, b)) by {
      forall q
        ensures Shares(s, id)(q) <= Total(s, id)
      {
        SupplySub(OfProvider(s, q), s.clientModels);
      }
      hide Accounts, Supplied, Total, Shares;
      SuppliedAccounts(Get(s.models, id), Total(s, id), Shares(s, id), provider, info, b, now);
    }
    hide *;
    forall q
      ensures More(Shares(s, id), provider, b)(q) == Shares(t, id)(q)
    {
      AddedShare(s, t, client, provider, ids, id, q);
    }
    AddedShare(s, t, client, provider, ids, id, "");
    SameShares(Get(t.models, id), Total(t, id), More(Shares(s, id), provider, b), Shares(t, id));
  }

  lemma NewEntry(s: State, client: string, provider: string, list: seq<Option<ModelInfo>>, now: Time, id: string)
    requires client !in s.clientModels
    ensures Get(RegisteredModels(s, client, provider, list, now), id)
         == if id in FirstInfos(list)
            then Supplied(Get(s.models, id), provider, FirstInfos(list)[id], multiset(RawIds(list))[id], now)
              else Get(s.models, id)
  {
    InfosCoverIds(list);
    var infos := FirstInfos(list);
    hide Supplied, FirstInfos, RawIds;
    GetRemap(s.models, infos.Keys, id =>
      if id in infos
        then Supplied(Get(s.models, id), provider, infos[id], multiset(RawIds(list))[id], now)
        else Get(s.models, id), id);
  }

  lemma OldEntry(s: State, client: string, provider: string, list: seq<Option<ModelInfo>>, now: Time, id: string)
    requires client in s.clientModels
    ensures multiset(RawIds(list))[id] > 0 ==> id in FirstInfos(list)
    ensures Get(RegisteredModels(s, client, provider, list, now), id)
         == Reconciled(Get(s.models, id), client, ProviderOf(s, client), provider,
                       multiset(s.clientModels[client])[id], multiset(RawIds(list))[id], InfoOf(FirstInfos(list), id),
                         now)
  {
    InfosCoverIds(list);
    var infos, ids := FirstInfos(list), multiset(RawIds(list));
    if id !in s.models && id !in infos {
      assert Reconciled(None, client, ProviderOf(s, client), provider, multiset(s.clientModels[client])[id], 0, None,
        now) == None;
    }
    hide Reconciled, FirstInfos, RawIds;
    GetRemap(s.models, infos.Keys, id =>
      Reconciled(Get(s.models, id), client, ProviderOf(s, client), provider,
                 multiset(s.clientModels[client])[id], ids[id], InfoOf(infos, id), now), id);
  }

  lemma NewClientAccounts(s: State, t: State, client: string, provider: string, list: seq<Option<ModelInfo>>, now: Time,
                          id: string)
    requires Accounts(Get(s.models, id), Total(s, id), Shares(s, id))
    requires Adds(s, t, client, provider, RawIds(list)) && t.models == RegisteredModels(s, client, provider, list, now)
    ensures Accounts(Get(t.models, id), Total(t, id), Shares(t, id))
  {
    InfosCoverIds(list);
    var info := if id in FirstInfos(list) then FirstInfos(list)[id] else ModelInfo(id, "", "");
    assert client !in s.clientModels;
    NewEntry(s, client, provider, list, now, id);
    assert Get(t.models, id) == Supplied(Get(s.models, id), provider, info, multiset(RawIds(list))[id], now) by {
      hide RegisteredModels, RawIds, FirstInfos, Accounts, Total, Shares;
    }
    hide *;
    AddedAccounts(s, t, client, provider, RawIds(list), id, info, now);
  }

  lemma NewClientConsistent(s: State, client: string, provider: string, list: seq<Option<ModelInfo>>, now: Time)
    requires Consistent(s) && client !in s.clientModels && RawIds(list) != []
    ensures Consistent(Registered(s, client, provider, list, now))
  {
    var t := Registered(s, client, provider, list, now);
    hide RegisteredModels, RawIds, FirstInfos, Accounts, Total, Shares;
    assert Tidy(t) by {
      RegisteredTidy(s, client, provider, list, now);
    }
    assert Adds(s, t, client, provider, RawIds(list));
    forall id
      ensures Accounts(Get(t.models, id), Total(t, id), Shares(t, id))
    {
      hide Adds;
      NewClientAccounts(s, t, client, provider, list, now, id);
    }
  }

  lemma TidyUpdate(s: State, t: State, client: string, provider: string, ids: seq<string>,
                   infos: map<string, ModelInfo>)
    requires Tidy(s) && ids != [] && "" !in ids
    requires t.clientModels == s.clientModels[client := ids] && t.clientInfos == s.clientInfos[client := infos]
    requires t.clientProviders ==
      if provider != "" then s.clientProviders[client := provider] else s.clientProviders - {client}
    ensures Tidy(t)
  {
  }

  lemma RegisteredTidy(s: State, client: string, provider: string, list: seq<Option<ModelInfo>>, now: Time)
    requires Tidy(s) && RawIds(list) != []
    ensures Tidy(Registered(s, client, provider, list, now))
  {
    var t := Registered(s, client, provider, list, now);
    InfosCoverIds(list);
    assert multiset(RawIds(list))[""] == 0;
    hide RegisteredModels, RawIds, FirstInfos, Tidy;
    TidyUpdate(s, t, client, provider, RawIds(list), FirstInfos(list));
  }

  // ---------- re-registering is unregistering and registering afresh ----------

  /** The clients that list the model. */
  ghost function Suppliers(s: State, id: string): set<string> {
    set c | c in s.clientModels && id in s.clientModels[c]
  }

  ghost predicate Marked(entry: Option<Registration>, suppliers: set<string>) {
    entry.Some? ==> entry.value.quota.Keys + entry.value.suspended.Keys <= suppliers
  }

  /** Quota and suspension marks name current suppliers only. */
  ghost predicate MarksSupplied(s: State) {
    forall id :: Marked(Get(s.models, id), Suppliers(s, id))
  }

  ghost function Rebuild(s: State, client: string, provider: string, list: seq<Option<ModelInfo>>, now: Time): State {
    Registered(Unregistered(s, client, now), client, provider, list, now)
  }

  lemma RebuildEntry(s: State, client: string, provider: string, list: seq<Option<ModelInfo>>, now: Time, id: string)
    requires client in s.clientModels && RawIds(list) != []
    ensures multiset(RawIds(list))[id] > 0 ==> id in FirstInfos(list)
    ensures Get(Rebuild(s, client, provider, list, now).models, id)
         == Rebuilt(Get(s.models, id), client, ProviderOf(s, client), provider, multiset(s.clientModels[client])[id],
                    multiset(RawIds(list))[id], InfoOf(FirstInfos(list), id), now)
  {
    var u := Unregistered(s, client, now);
    InfosCoverIds(list);
    UnregisteredEntry(s, client, now, id);
    assert client !in u.clientModels;
    NewEntry(u, client, provider, list, now, id);
    hide RegisteredModels, Supplied, Released, RawIds, FirstInfos, Unregistered;
  }

  /** Counts, shares, metadata and client records agree whatever the marks are. */
  lemma ReregisteringRebuilds(s: State, client: string, provider: string, list: seq<Option<ModelInfo>>, now: Time)
    requires Consistent(s)
    ensures var r, f := Registered(s, client, provider, list, now), Rebuild(s, client, provider, list, now);
      && r.clientModels == f.clientModels && r.clientInfos == f.clientInfos && r.clientProviders == f.clientProviders
      && forall id :: SameButMarks(Get(r.models, id), Get(f.models, id))
  {
    UnregisteredTidy(s, client, now);
    if client in s.clientModels {
      var u := Unregistered(s, client, now);
      if RawIds(list) == [] {
        UnregisteredTidy(u, client, now);
      } else {
        var r, f := Registered(s, client, provider, list, now), Rebuild(s, client, provider, list, now);
        SameRecords(s, client, provider, list, now);
        forall id
          ensures SameButMarks(Get(r.models, id), Get(f.models, id))
        {
          ReregisteredEntry(s, client, provider, list, now, id);
        }
      }
    }
  }

  lemma SameRecords(s: State, client: string, provider: string, list: seq<Option<ModelInfo>>, now: Time)
    requires client in s.clientModels && RawIds(list) != []
    ensures var r, f := Registered(s, client, provider, list, now), Rebuild(s, client, provider, list, now);
      r.clientModels == f.clientModels && r.clientInfos == f.clientInfos && r.clientProviders == f.clientProviders
  {
    hide RegisteredModels, RawIds, FirstInfos, Remap;
    Overwritten(s.clientModels, client, RawIds(list));
    Overwritten(s.clientInfos, client, FirstInfos(list));
    Overwritten(s.clientProviders, client, provider);
  }

  lemma Overwritten<K, V>(m: map<K, V>, k: K, v: V)
    ensures (m - {k})[k := v] == m[k := v]
    ensures m - {k} - {k} == m - {k}
  {
  }

  lemma ReregisteredEntry(s: State, client: string, provider: string, list: seq<Option<ModelInfo>>, now: Time,
                          id: string)
    requires Consistent(s) && client in s.clientModels && RawIds(list) != []
    ensures SameButMarks(Get(Registered(s, client, provider, list, now).models, id),
      Get(Rebuild(s, client, provider, list, now).models, id))
  {
    assert Registered(s, client, provider, list, now).models == RegisteredModels(s, client, provider, list, now);
    OldEntry(s, client, provider, list, now, id);
    hide *;
    RebuildEntry(s, client, provider, list, now, id);
    EntryRebuildable(s, client, id);
    ReconciledIsRebuilt(Get(s.models, id), Total(s, id), Shares(s, id), client, ProviderOf(s, client), provider,
                        multiset(s.clientModels[client])[id], multiset(RawIds(list))[id], InfoOf(FirstInfos(list), id),
                          now);
  }

  lemma AccountsIgnoresMarks(left: Option<Registration>, right: Option<Registration>, total: nat, shares: string -> nat)
    requires SameButMarks(left, right) && Accounts(right, total, shares)
    ensures Accounts(left, total, shares)
  {
  }

  lemma RegisteredConsistent(s: State, client: string, provider: string, list: seq<Option<ModelInfo>>, now: Time)
    requires Consistent(s)
    ensures Consistent(Registered(s, client, provider, list, now))
  {
    if RawIds(list) == [] {
      UnregisteredConsistent(s, client, now);
      ForgottenInfos(s, client, now);
    } else if client !in s.clientModels {
      NewClientConsistent(s, client, provider, list, now);
    } else {
      OldClientConsistent(s, client, provider, list, now);
    }
  }

  lemma ForgottenInfos(s: State, client: string, now: Time)
    requires Tidy(s)
    ensures var u := Unregistered(s, client, now); u.(clientInfos := u.clientInfos - {client}) == u
  {
    UnregisteredTidy(s, client, now);
    var u := Unregistered(s, client, now);
    assert client !in u.clientInfos;
    assert u.clientInfos - {client} == u.clientInfos;
  }

  lemma AccountsAt(s: State, id: string)
    requires Consistent(s)
    ensures Accounts(Get(s.models, id), Total(s, id), Shares(s, id))
  {
  }

  lemma SameListsSameShares(r: State, f: State, id: string)
    requires r.clientModels == f.clientModels && r.clientProviders == f.clientProviders
    ensures Total(r, id) == Total(f, id)
    ensures forall q :: Shares(f, id)(q) == Shares(r, id)(q)
  {
    hide Supply;
    assert forall q :: OfProvider(r, q) == OfProvider(f, q);
  }

  lemma OldClientAccounts(s: State, r: State, f: State, client: string, provider: string, list: seq<Option<ModelInfo>>,
                          now: Time, id: string)
    requires Consistent(s) && Consistent(f) && client in s.clientModels && RawIds(list) != []
    requires r == Registered(s, client, provider, list, now) && f == Rebuild(s, client, provider, list, now)
    ensures Accounts(Get(r.models, id), Total(r, id), Shares(r, id))
  {
    hide *;
    SameRecords(s, client, provider, list, now);
    SameListsSameShares(r, f, id);
    AccountsAt(f, id);
    ReregisteredEntry(s, client, provider, list, now, id);
    AccountsIgnoresMarks(Get(r.models, id), Get(f.models, id), Total(f, id), Shares(f, id));
    SameShares(Get(r.models, id), Total(f, id), Shares(f, id), Shares(r, id));
  }

  lemma OldClientConsistent(s: State, client: string, provider: string, list: seq<Option<ModelInfo>>, now: Time)
    requires Consistent(s) && client in s.clientModels && RawIds(list) != []
    ensures Consistent(Registered(s, client, provider, list, now))
  {
    var u := Unregistered(s, client, now);
    assert client !in u.clientModels;
    var r, f := Registered(s, client, provider, list, now), Rebuild(s, client, provider, list, now);
    RegisteredTidy(s, client, provider, list, now);
    UnregisteredConsistent(s, client, now);
    NewClientConsistent(u, client, provider, list, now);
    hide Registered, Unregistered, Accounts, Total, Shares, Tidy, RawIds;
    forall id
      ensures Accounts(Get(r.models, id), Total(r, id), Shares(r, id))
    {
      hide Balanced;
      OldClientAccounts(s, r, f, client, provider, list, now, id);
    }
  }

  // ---------- marks ----------

  lemma MarksAt(s: State, id: string)
    requires MarksSupplied(s)
    ensures Marked(Get(s.models, id), Suppliers(s, id))
  {
  }

  lemma UnmarkOther(r: Registration, client: string, suppliers: set<string>)
    requires Marked(Some(r), suppliers) && client !in suppliers
    ensures Unmark(r, client) == r
  {
    assert r.quota - {client} == r.quota && r.suspended - {client} == r.suspended;
  }

  ghost function MarksOf(entry: Option<Registration>): (map<string, Time>, map<string, string>) {
    if entry.None? then (map[], map[]) else (entry.value.quota, entry.value.suspended)
  }

  ghost function MarksWithout(entry: Option<Registration>, client: string): (map<string, Time>, map<string, string>) {
    if entry.None? then (map[], map[]) else (entry.value.quota - {client}, entry.value.suspended - {client})
  }

  lemma DropShareMarks()
    ensures forall r: Registration, p: string, k: nat ::
      var d := DropShare(r, p, k); d.quota == r.quota && d.suspended == r.suspended && d.count == r.count
  {
  }

  lemma ReconciledMarks(entry: Option<Registration>, client: string, oldProvider: string, provider: string, a: nat,
                        b: nat, info: Option<ModelInfo>, now: Time)
    requires b > 0 && info.Some?
    requires a > 0 ==> entry.Some? && a <= entry.value.count
    ensures MarksOf(Reconciled(entry, client, oldProvider, provider, a, b, info, now)) == MarksWithout(entry, client)
  {
    hide DropShare;
    DropShareMarks();
    if entry.Some? {
      assert entry.value.quota - {client} - {client} == entry.value.quota - {client};
      assert entry.value.suspended - {client} - {client} == entry.value.suspended - {client};
    }
  }

  lemma RebuiltMarks(entry: Option<Registration>, client: string, oldProvider: string, provider: string, a: nat, b: nat,
                     info: ModelInfo, now: Time)
    requires b > 0
    ensures MarksOf(Rebuilt(entry, client, oldProvider, provider, a, b, Some(info), now)) ==
            if a == 0 then MarksOf(entry)
            else if entry.None? || entry.value.count <= a then (map[], map[]) else MarksWithout(entry, client)
  {
    hide DropShare;
    DropShareMarks();
  }

  /** No mark on the entry tells the multiset difference from a rebuild. */
  ghost predicate NoStrayMarks(entry: Option<Registration>, client: string, a: nat) {
    && (a == 0 ==> MarksWithout(entry, client) == MarksOf(entry))
    && (a > 0 && entry.Some? && entry.value.count <= a ==> MarksWithout(entry, client) == (map[], map[]))
  }

  lemma EntriesEqual(left: Option<Registration>, right: Option<Registration>)
    requires SameButMarks(left, right)
    ensures left == right <==> MarksOf(left) == MarksOf(right)
  {
  }

  lemma EntryRebuiltExactly(entry: Option<Registration>, total: nat, shares: string -> nat, client: string,
                            oldProvider: string, provider: string, a: nat, b: nat, info: Option<ModelInfo>, now: Time)
    requires Rebuildable(entry, total, shares, oldProvider, a) && (b > 0 ==> info.Some?)
    ensures var r := Reconciled(entry, client, oldProvider, provider, a, b, info, now);
            var f := Rebuilt(entry, client, oldProvider, provider, a, b, info, now);
            r == f <==> (b > 0 ==> NoStrayMarks(entry, client, a))
  {
    if b > 0 {
      assert a > 0 ==> entry.Some? && a <= entry.value.count;
      hide Reconciled, Rebuilt, Rebuildable;
      ReconciledIsRebuilt(entry, total, shares, client, oldProvider, provider, a, b, info, now);
      EntriesEqual(Reconciled(entry, client, oldProvider, provider, a, b, info, now),
        Rebuilt(entry, client, oldProvider, provider, a, b, info, now));
      ReconciledMarks(entry, client, oldProvider, provider, a, b, info, now);
      RebuiltMarks(entry, client, oldProvider, provider, a, b, info.value, now);
    }
  }

  ghost predicate NoStrayMarksOn(s: State, client: string, ids: seq<string>) {
    client in s.clientModels ==>
      forall id :: id in ids ==> NoStrayMarks(Get(s.models, id), client, multiset(s.clientModels[client])[id])
  }

  lemma ReregisteredEntryExactly(s: State, client: string, provider: string, list: seq<Option<ModelInfo>>, now: Time,
                                 id: string)
    requires Consistent(s) && client in s.clientModels && RawIds(list) != []
    ensures var r, f := Registered(s, client, provider, list, now), Rebuild(s, client, provider, list, now);
            Get(r.models, id) == Get(f.models, id) <==>
              (id in RawIds(list) ==> NoStrayMarks(Get(s.models, id), client, multiset(s.clientModels[client])[id]))
  {
    assert Registered(s, client, provider, list, now).models == RegisteredModels(s, client, provider, list, now);
    assert id in RawIds(list) <==> multiset(RawIds(list))[id] > 0;
    hide *;
    OldEntry(s, client, provider, list, now, id);
    EntryRebuildable(s, client, id);
    RebuildEntry(s, client, provider, list, now, id);
    EntryRebuiltExactly(Get(s.models, id), Total(s, id), Shares(s, id), client, ProviderOf(s, client), provider,
                        multiset(s.clientModels[client])[id], multiset(RawIds(list))[id], InfoOf(FirstInfos(list), id),
                          now);
  }

  /**
   * The multiset difference leaves exactly the rebuilt registry, marks included, if and only if no
   * listed model carries a stray mark: one of the client on a model new to it, or one of somebody
   * else on a model nobody else supplies.
   */
  lemma ReregisteringRebuildsExactly(s: State, client: string, provider: string, list: seq<Option<ModelInfo>>,
                                     now: Time)
    requires Consistent(s)
    ensures Registered(s, client, provider, list, now) == Rebuild(s, client, provider, list, now)
       <==> NoStrayMarksOn(s, client, RawIds(list))
  {
    if client !in s.clientModels {
      UnregisteredTidy(s, client, now);
    } else if RawIds(list) == [] {
      ForgottenAgain(s, client, provider, list, now);
      assert NoStrayMarksOn(s, client, RawIds(list));
    } else {
      hide *;
      ListedRebuildExactly(s, client, provider, list, now);
    }
  }

  lemma ListedRebuildExactly(s: State, client: string, provider: string, list: seq<Option<ModelInfo>>, now: Time)
    requires Consistent(s) && client in s.clientModels && RawIds(list) != []
    ensures Registered(s, client, provider, list, now) == Rebuild(s, client, provider, list, now)
       <==> NoStrayMarksOn(s, client, RawIds(list))
  {
    hide *;
    var r, f := Registered(s, client, provider, list, now), Rebuild(s, client, provider, list, now);
    SameRecords(s, client, provider, list, now);
    StatesEqual(r, f);
    NoStrayMarksAt(s, client, RawIds(list));
    forall id {
      ReregisteredEntryExactly(s, client, provider, list, now, id);
    }
  }

  lemma StatesEqual(r: State, f: State)
    requires r.clientModels == f.clientModels && r.clientInfos == f.clientInfos
    requires r.clientProviders == f.clientProviders
    ensures r == f <==> forall id :: Get(r.models, id) == Get(f.models, id)
  {
    SameEntries(r.models, f.models);
  }

  lemma NoStrayMarksAt(s: State, client: string, ids: seq<string>)
    requires client in s.clientModels
    ensures NoStrayMarksOn(s, client, ids)
       <==> forall id :: id in ids ==> NoStrayMarks(Get(s.models, id), client, multiset(s.clientModels[client])[id])
  {
    hide NoStrayMarks;
  }

  lemma ForgottenAgain(s: State, client: string, provider: string, list: seq<Option<ModelInfo>>, now: Time)
    requires Tidy(s) && client in s.clientModels && RawIds(list) == []
    ensures Registered(s, client, provider, list, now) == Rebuild(s, client, provider, list, now)
  {
    UnregisteredTidy(s, client, now);
    UnregisteredTidy(Unregistered(s, client, now), client, now);
    ForgottenInfos(s, client, now);
    assert client !in Unregistered(s, client, now).clientModels;
    hide Unregistered, Tidy, RawIds, RegisteredModels;
  }

  lemma SameEntries(left: Models, right: Models)
    ensures left == right <==> forall id :: Get(left, id) == Get(right, id)
  {
    if forall id :: Get(left, id) == Get(right, id) {
      SameModels(left, right);
    }
  }

  lemma MoreSuppliers(s: State, id: string, client: string, other: string)
    requires client in s.clientModels && other in Suppliers(s, id) && other != client
    ensures Total(s, id) > multiset(s.clientModels[client])[id]
  {
    SupplySplit(s.clientModels, client);
    SupplySplit(s.clientModels - {client}, other);
    assert id in multiset(s.clientModels[other]);
  }

  /** Marks on suppliers are never stray. */
  lemma SuppliedMarksAreNotStray(s: State, client: string, ids: seq<string>)
    requires Consistent(s) && MarksSupplied(s)
    ensures NoStrayMarksOn(s, client, ids)
  {
    if client in s.clientModels {
      forall id | id in ids
        ensures NoStrayMarks(Get(s.models, id), client, multiset(s.clientModels[client])[id])
      {
        EntryNotStray(s, client, id);
      }
    }
  }

  lemma EntryNotStray(s: State, client: string, id: string)
    requires Consistent(s) && MarksSupplied(s) && client in s.clientModels
    ensures NoStrayMarks(Get(s.models, id), client, multiset(s.clientModels[client])[id])
  {
    var a := multiset(s.clientModels[client])[id];
    assert client in Suppliers(s, id) <==> a > 0;
    assert Total(s, id) <= a ==> Suppliers(s, id) <= {client} by {
      forall other | other in Suppliers(s, id) && other != client
        ensures Total(s, id) > a
      {
        MoreSuppliers(s, id, client, other);
      }
    }
    AccountsAt(s, id);
    MarksAt(s, id);
    assert Get(s.models, id).Some? ==> Get(s.models, id).value.count == Total(s, id);
    hide Consistent, MarksSupplied, Suppliers, Total, Shares, Accounts;
    if Get(s.models, id).Some? && a == 0 {
      UnmarkOther(Get(s.models, id).value, client, Suppliers(s, id));
    }
  }
}
