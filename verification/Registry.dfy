/**
 * The reference-counted model registry (internal/registry/model_registry.go), with its maps and
 * registration objects updated in place, proved against the value-level operations of RegistryState.
 */
module Registry {
  import opened Wrappers
  import opened RegistryState
  import opened RegistryTheorems
  import opened RegistryRecount
  import opened RegistryListing
  import opened Text

  class ModelRegistration {
    var info: ModelInfo
    var infoByProvider: map<string, ModelInfo>
    var count: int
    var lastUpdated: Time
    var quotaExceededClients: map<string, Time>
    var providers: map<string, int>
    var suspendedClients: map<string, string>

    constructor (model: ModelInfo, provider: string, now: Time)
      ensures Some(Value()) == Supplied(None, provider, model, 1, now)
    {
      info, count, lastUpdated := model, 1, now;
      quotaExceededClients, suspendedClients := map[], map[];
      providers := if provider != "" then map[provider := 1] else map[];
      infoByProvider := if provider != "" then map[provider := model] else map[];
    }

    ghost function Value(): Registration
      reads this
    {
      Registration(info, infoByProvider, count, lastUpdated, quotaExceededClients, providers, suspendedClients)
    }

    /** One more client of `provider`. */
    method Gain(provider: string, model: ModelInfo, now: Time)
      modifies this
      ensures Some(Value()) == Supplied(Some(old(Value())), provider, model, 1, now)
    {
      count := count + 1;
      lastUpdated := now;
      info := model;
      if provider != "" {
        providers := providers[provider := (if provider in providers then providers[provider] else 0) + 1];
        infoByProvider := infoByProvider[provider := model];
      }
    }

    /** `k` of the provider's registrations leave its share. */
    method HandOver(provider: string, k: nat)
      requires provider != ""
      modifies this
      ensures Some(Value()) == HandedOver(Some(old(Value())), provider, k)
    {
      if provider in providers {
        if providers[provider] <= k {
          providers := providers - {provider};
          infoByProvider := infoByProvider - {provider};
        } else {
          providers := providers[provider := providers[provider] - k];
        }
      }
    }

    /** New metadata from a client that keeps listing the model. */
    method Refresh(clientID: string, provider: string, model: ModelInfo, credit: nat, now: Time)
      modifies this
      ensures Some(Value()) == Refreshed(Some(old(Value())), clientID, provider, model, credit, now)
    {
      info := model;
      if provider != "" {
        infoByProvider := infoByProvider[provider := model];
      }
      lastUpdated := now;
      quotaExceededClients := quotaExceededClients - {clientID};
      suspendedClients := suspendedClients - {clientID};
      if provider != "" && credit > 0 {
        providers := providers[provider := (if provider in providers then providers[provider] else 0) + credit];
      }
    }

    /** One client fewer; the registry drops the registration when none is left. */
    method Lose(clientID: string, provider: string, now: Time)
      modifies this
      ensures count <= 0 <==> old(count) <= 1
      ensures count > 0 ==> Some(Value()) == Released(Some(old(Value())), clientID, provider, 1, now)
    {
      count := count - 1;
      lastUpdated := now;
      quotaExceededClients := quotaExceededClients - {clientID};
      suspendedClients := suspendedClients - {clientID};
      if count < 0 {
        count := 0;
      }
      if provider != "" && provider in providers {
        var share := providers[provider];
        if share <= 1 {
          providers := providers - {provider};
          infoByProvider := infoByProvider - {provider};
        } else {
          providers := providers[provider := share - 1];
        }
      }
    }
  }

  /** How often each key of `counter` occurs in `ids`; only occurring ids are keys. */
  ghost predicate Counts(counter: map<string, nat>, ids: multiset<string>) {
    && (forall id :: id in counter <==> ids[id] > 0)
    && (forall id :: id in counter ==> counter[id] == ids[id])
  }

  lemma CountOneMore(counter: map<string, nat>, ids: multiset<string>, id: string)
    requires Counts(counter, ids)
    ensures Counts(Bumped(counter, id), ids + multiset{id})
  {
  }

  function Bumped(counter: map<string, nat>, id: string): map<string, nat> {
    counter[id := CountOf(counter, id) + 1]
  }

  ghost predicate CountsAll(counter: map<string, nat>, ids: seq<string>) {
    Counts(counter, multiset(ids))
  }

  lemma CountAppended(counter: map<string, nat>, ids: seq<string>, id: string)
    requires CountsAll(counter, ids)
    ensures CountsAll(Bumped(counter, id), ids + [id])
  {
    assert multiset(ids + [id]) == multiset(ids) + multiset{id};
    hide Counts, Bumped;
    CountOneMore(counter, multiset(ids), id);
  }

  /** The ids counted before, and the trimmed ids of the first `i` entries. */
  ghost predicate CountsTrimmed(counter: map<string, nat>, counted: multiset<string>, list: seq<string>, i: nat)
    requires i <= |list|
  {
    Counts(counter, counted + multiset(TrimmedIds(list[..i])))
  }

  ghost predicate CountsSupply(counter: map<string, nat>, lists: map<string, seq<string>>) {
    Counts(counter, Supply(lists))
  }

  lemma NothingCounted()
    ensures CountsSupply(map[], map[])
  {
  }

  lemma CountTrimmedEnds(counter: map<string, nat>, counted: multiset<string>, list: seq<string>)
    ensures Counts(counter, counted) ==> CountsTrimmed(counter, counted, list, 0)
    ensures CountsTrimmed(counter, counted, list, |list|) ==> Counts(counter, counted + multiset(TrimmedIds(list)))
  {
    assert list[..0] == [] && list[..|list|] == list;
    assert counted + multiset(TrimmedIds([])) == counted;
    hide Counts;
  }

  lemma CountedClient(counter: map<string, nat>, done: map<string, seq<string>>, client: string, list: seq<string>)
    requires client !in done && CountsTrimmed(counter, Supply(done), list, |list|)
    ensures CountsSupply(counter, done[client := TrimmedIds(list)])
  {
    CountTrimmedEnds(counter, Supply(done), list);
    hide Counts, TrimmedIds, Supply;
    var next := done[client := TrimmedIds(list)];
    SupplySplit(next, client);
    assert next - {client} == done;
    assert Supply(next) == Supply(done) + multiset(TrimmedIds(list));
  }

  lemma ClientUncounted(counter: map<string, nat>, done: map<string, seq<string>>, list: seq<string>)
    requires CountsSupply(counter, done)
    ensures CountsTrimmed(counter, Supply(done), list, 0) && TrimmedIds(list[..0]) == []
  {
    CountTrimmedEnds(counter, Supply(done), list);
    hide Counts, Supply;
  }

  lemma NextTrimmed(list: seq<string>, i: nat)
    requires i < |list|
    ensures TrimmedIds(list[..i + 1])
         == if TrimSpace(list[i]) == "" then TrimmedIds(list[..i]) else TrimmedIds(list[..i]) + [TrimSpace(list[i])]
  {
    hide TrimSpace;
    assert list[..i + 1][..i] == list[..i];
  }

  lemma CountTrimmedOne(counter: map<string, nat>, counted: multiset<string>, list: seq<string>, i: nat)
    requires i < |list| && CountsTrimmed(counter, counted, list, i)
    ensures var id := TrimSpace(list[i]);
            CountsTrimmed(if id == "" then counter else Bumped(counter, id), counted, list, i + 1)
  {
    hide Counts, TrimmedIds, TrimSpace, Bumped;
    var id := TrimSpace(list[i]);
    var before, after := multiset(TrimmedIds(list[..i])), multiset(TrimmedIds(list[..i + 1]));
    TrimmedStep(list, i);
    if id == "" {
      assert counted + after == counted + before;
    } else {
      assert counted + after == counted + before + multiset{id};
      CountOneMore(counter, counted + before, id);
    }
  }

  type Entries = string -> Option<Registration>

  function CountOf(counter: map<string, nat>, id: string): nat {
    if id in counter then counter[id] else 0
  }

  /** Every id in `done` has moved from `cur` to `next`; the others still wait at `cur`. */
  ghost predicate Moving(cur: Entries, next: Entries, done: set<string>, models: Models) {
    forall id :: Get(models, id) == if id in done then next(id) else cur(id)
  }

  /** `done` and `todo` share out `all`. */
  ghost predicate Split(all: set<string>, done: set<string>, todo: set<string>) {
    done !! todo && done + todo == all
  }

  lemma SplitNext(all: set<string>, done: set<string>, todo: set<string>, id: string)
    requires Split(all, done, todo) && id in todo
    ensures Split(all, done + {id}, todo - {id}) && id !in done && id in all
  {
  }

  lemma SplitDone(all: set<string>, done: set<string>)
    requires Split(all, done, {})
    ensures done == all
  {
  }

  ghost predicate Holds(entries: Entries, models: Models) {
    forall id :: Get(models, id) == entries(id)
  }

  lemma Advance(cur: Entries, next: Entries, done: set<string>, models: Models, id: string)
    requires Moving(cur, next, done, models) && id !in done
    ensures Get(models, id) == cur(id)
    ensures Moving(cur, next, done + {id}, Put(models, id, next(id)))
    ensures cur(id) == next(id) ==> Moving(cur, next, done + {id}, models)
  {
  }

  ghost function FreshEntry(entry: Option<Registration>, now: Time): Option<Registration> {
    if entry.None? then None else Some(Fresh(entry.value, now))
  }

  ghost predicate CleanStep(cur: Entries, next: Entries, now: Time) {
    forall id :: next(id) == FreshEntry(cur(id), now)
  }

  lemma CleanAt(cur: Entries, next: Entries, now: Time, id: string)
    requires CleanStep(cur, next, now)
    ensures next(id) == FreshEntry(cur(id), now)
  {
    hide FreshEntry;
  }

  lemma NothingToClean(cur: Entries, next: Entries, now: Time, models: Models)
    requires CleanStep(cur, next, now) && Holds(cur, models)
    ensures forall id :: id !in models ==> cur(id) == next(id)
  {
    forall id | id !in models
      ensures cur(id) == next(id)
    {
      assert Get(models, id) == cur(id);
    }
  }

  lemma AllFresh(start: Models, models: Models, next: Entries, now: Time)
    requires Holds(next, models) && forall id :: next(id) == FreshEntry(Get(start, id), now)
    ensures models == map id | id in start :: Fresh(start[id], now)
  {
    hide Fresh;
    forall id
      ensures Get(models, id) == FreshEntry(Get(start, id), now)
    {
    }
    assert forall id :: id in models <==> Get(models, id).Some?;
  }

  lemma Arrive(cur: Entries, next: Entries, done: set<string>, models: Models)
    requires Moving(cur, next, done, models)
    requires forall id :: id !in done ==> cur(id) == next(id)
    ensures Holds(next, models)
  {
  }

  lemma ReleasedStep(entry: Option<Registration>, client: string, provider: string, i: nat, now: Time)
    ensures Released(Released(entry, client, provider, i, now), client, provider, 1, now)
         == Released(entry, client, provider, i + 1, now)
  {
    if entry.Some? && i > 0 && entry.value.count > i + 1 {
      var one := Released(Released(entry, client, provider, i, now), client, provider, 1, now);
      var all := Released(entry, client, provider, i + 1, now);
      assert one.value.providers == all.value.providers;
      assert one.value.infoByProvider == all.value.infoByProvider;
      assert one.value.quota == all.value.quota;
      assert one.value.suspended == all.value.suspended;
    }
  }

  ghost predicate HandOverStep(oldProvider: string, oldCounts: map<string, nat>, newCounts: map<string, nat>,
                               cur: Entries, next: Entries)
  {
    forall id ::
      next(id) == (if id in oldCounts && id in newCounts && oldCounts[id] > 0
                   then HandedOver(cur(id), oldProvider, Min(oldCounts[id], newCounts[id])) else cur(id))
  }

  ghost predicate DropStep(removed: set<string>, oldCounts: map<string, nat>, clientID: string, oldProvider: string,
                           now: Time, cur: Entries, next: Entries)
    requires removed <= oldCounts.Keys
  {
    forall id ::
      next(id) == (if id in removed then Released(cur(id), clientID, oldProvider, oldCounts[id], now) else cur(id))
  }

  ghost predicate OverageStep(oldCounts: map<string, nat>, newCounts: map<string, nat>, clientID: string,
                              oldProvider: string, now: Time, cur: Entries, next: Entries)
  {
    forall id ::
      next(id) == (if 0 < CountOf(newCounts, id) < CountOf(oldCounts, id)
                   then Released(cur(id), clientID, oldProvider, CountOf(oldCounts, id) - CountOf(newCounts, id), now)
                     else cur(id))
  }

  ghost predicate AddStep(oldCounts: map<string, nat>, newCounts: map<string, nat>, newModels: map<string, ModelInfo>,
                          provider: string, now: Time, cur: Entries, next: Entries)
    requires newCounts.Keys == newModels.Keys
  {
    forall id ::
      next(id) == (if id in newCounts && CountOf(oldCounts, id) < newCounts[id]
                   then Supplied(cur(id), provider, newModels[id], newCounts[id] - CountOf(oldCounts, id), now)
                     else cur(id))
  }

  lemma OverageAt(oldCounts: map<string, nat>, newCounts: map<string, nat>, clientID: string, oldProvider: string,
                  now: Time, cur: Entries, next: Entries, id: string)
    requires OverageStep(oldCounts, newCounts, clientID, oldProvider, now, cur, next) && id in oldCounts
    ensures next(id) == if 0 < CountOf(newCounts, id) < oldCounts[id]
                        then Released(cur(id), clientID, oldProvider, oldCounts[id] - CountOf(newCounts, id), now)
                          else cur(id)
  {
    hide Released;
  }

  lemma AddAt(oldCounts: map<string, nat>, newCounts: map<string, nat>, newModels: map<string, ModelInfo>,
              provider: string, now: Time, cur: Entries, next: Entries, id: string)
    requires newCounts.Keys == newModels.Keys && AddStep(oldCounts, newCounts, newModels, provider, now, cur, next)
    requires id in newCounts
    ensures next(id) == if newCounts[id] > CountOf(oldCounts, id)
                        then Supplied(cur(id), provider, newModels[id], newCounts[id] - CountOf(oldCounts, id), now)
                          else cur(id)
  {
    hide Supplied, CountOf;
  }

  ghost predicate RefreshStep(oldCounts: map<string, nat>, newCounts: map<string, nat>,
                              newModels: map<string, ModelInfo>, clientID: string, providerChanged: bool,
                              provider: string, now: Time, cur: Entries, next: Entries)
    requires newCounts.Keys == newModels.Keys
  {
    forall id ::
      next(id) == (if id in newModels
                   then Refreshed(cur(id), clientID, provider, newModels[id], if providerChanged
                     then Min(CountOf(oldCounts, id), newCounts[id]) else 0, now)
                   else cur(id))
  }

  /** One re-registration: the models it started from and the two lists it compares. */
  datatype Diff = Diff(start: Models, client: string, oldProvider: string, provider: string,
                       before: multiset<string>, after: multiset<string>,
                       infos: map<string, ModelInfo>, now: Time)

  ghost predicate Covered(d: Diff) {
    forall id :: id in d.infos <==> d.after[id] > 0
  }

  ghost function At(d: Diff, stage: nat, id: string): Option<Registration>
    requires Covered(d)
  {
    var e, a, b := Get(d.start, id), d.before[id], d.after[id];
    if stage == 0 then e
    else if stage == 1 then Stage1(e, d.oldProvider, d.provider, a, b)
    else if stage == 2 then Stage2(e, d.client, d.oldProvider, d.provider, a, b, d.now)
    else if stage == 3 then Stage3(e, d.client, d.oldProvider, d.provider, a, b, d.now)
    else if stage == 4 then Stage4(e, d.client, d.oldProvider, d.provider, a, b, InfoOf(d.infos, id), d.now)
    else Reconciled(e, d.client, d.oldProvider, d.provider, a, b, InfoOf(d.infos, id), d.now)
  }

  ghost function Entry(d: Diff, stage: nat): Entries
    requires Covered(d)
  {
    id => At(d, stage, id)
  }

  lemma FirstStages(d: Diff, oldCounts: map<string, nat>, newCounts: map<string, nat>)
    requires Covered(d) && Counts(oldCounts, d.before) && Counts(newCounts, d.after)
    ensures Holds(Entry(d, 0), d.start)
    ensures if d.oldProvider != d.provider && d.oldProvider != ""
      then HandOverStep(d.oldProvider, oldCounts, newCounts, Entry(d, 0), Entry(d, 1))
            else Holds(Entry(d, 1), d.start)
  {
    hide HandedOver;
  }

  lemma DropStage(d: Diff, oldCounts: map<string, nat>, newCounts: map<string, nat>, removed: set<string>)
    requires Covered(d) && Counts(oldCounts, d.before) && Counts(newCounts, d.after)
    requires removed == set id | id in oldCounts && CountOf(newCounts, id) == 0
    ensures DropStep(removed, oldCounts, d.client, d.oldProvider, d.now, Entry(d, 1), Entry(d, 2))
  {
    hide Stage1, Released;
    forall id
      ensures At(d, 2, id) ==
        if id in removed then Released(At(d, 1, id), d.client, d.oldProvider, oldCounts[id], d.now) else At(d, 1, id)
    {
      NoneReleased(At(d, 1, id), d.client, d.oldProvider, d.now);
    }
  }

  lemma OverageStage(d: Diff, oldCounts: map<string, nat>, newCounts: map<string, nat>)
    requires Covered(d) && Counts(oldCounts, d.before) && Counts(newCounts, d.after)
    ensures OverageStep(oldCounts, newCounts, d.client, d.oldProvider, d.now, Entry(d, 2), Entry(d, 3))
  {
    hide Stage2, Released;
  }

  lemma AddStage(d: Diff, oldCounts: map<string, nat>, newCounts: map<string, nat>)
    requires Covered(d) && Counts(oldCounts, d.before) && Counts(newCounts, d.after)
    ensures newCounts.Keys == d.infos.Keys
    ensures AddStep(oldCounts, newCounts, d.infos, d.provider, d.now, Entry(d, 3), Entry(d, 4))
  {
    hide Stage3, Supplied;
  }

  lemma RefreshStage(d: Diff, oldCounts: map<string, nat>, newCounts: map<string, nat>)
    requires Covered(d) && Counts(oldCounts, d.before) && Counts(newCounts, d.after)
    ensures newCounts.Keys == d.infos.Keys
    ensures RefreshStep(oldCounts, newCounts, d.infos, d.client, d.oldProvider != d.provider, d.provider, d.now,
      Entry(d, 4), Entry(d, 5))
  {
    hide Stage4, Refreshed;
  }

  /** A model there at the start and at the end was there when the removals were done. */
  lemma SurvivorsStay(d: Diff, stage3: Models, final: Models)
    requires Covered(d) && Holds(Entry(d, 3), stage3) && Holds(Entry(d, 5), final)
    ensures forall id :: id in d.start && id in final ==> id in stage3
  {
    forall id | id in d.start && id in final
      ensures id in stage3
    {
      assert Get(stage3, id) == Entry(d, 3)(id) == At(d, 3, id);
      assert Get(final, id) == Entry(d, 5)(id) == At(d, 5, id);
      Survives(Get(d.start, id), d.client, d.oldProvider, d.provider, d.before[id], d.after[id], InfoOf(d.infos, id),
        d.now);
    }
  }

  lemma Survives(entry: Option<Registration>, client: string, oldProvider: string, provider: string, a: nat, b: nat,
                 info: Option<ModelInfo>, now: Time)
    requires b > 0 ==> info.Some?
    requires entry.Some? && Reconciled(entry, client, oldProvider, provider, a, b, info, now).Some?
    ensures Stage3(entry, client, oldProvider, provider, a, b, now).Some?
  {
  }

  lemma ReconciledMeansRegistered(s: State, client: string, provider: string, list: seq<Option<ModelInfo>>, now: Time,
                                  d: Diff, models: Models)
    requires client in s.clientModels
    requires d == Diff(s.models, client, ProviderOf(s, client), provider, multiset(s.clientModels[client]),
                       multiset(RawIds(list)), FirstInfos(list), now)
    requires Covered(d) && Holds(Entry(d, 5), models)
    ensures models == RegisteredModels(s, client, provider, list, now)
  {
    var ids, infos := multiset(RawIds(list)), FirstInfos(list);
    RegisteredIs(s, client, provider, list, now);
    hide *;
    var entry := ReconciledEntries(s, client, provider, ids, infos, now);
    LastEntries(s, client, provider, ids, infos, now, d, models);
    forall id | id !in s.models.Keys + infos.Keys
      ensures entry(id).None?
    {
      NothingReconciled(s, client, provider, ids, infos, now, id);
    }
    RemapIs(s.models, infos.Keys, entry, models);
  }

  lemma LastEntries(s: State, client: string, provider: string, ids: multiset<string>, infos: map<string, ModelInfo>,
                    now: Time, d: Diff, models: Models)
    requires client in s.clientModels && forall id :: ids[id] > 0 ==> id in infos
    requires d == Diff(s.models, client, ProviderOf(s, client), provider, multiset(s.clientModels[client]), ids, infos,
      now)
    requires Covered(d) && Holds(Entry(d, 5), models)
    ensures forall id :: Get(models, id) == ReconciledEntries(s, client, provider, ids, infos, now)(id)
  {
    forall id
      ensures Get(models, id) == ReconciledEntries(s, client, provider, ids, infos, now)(id)
    {
      hide Reconciled, Get, Covered, InfoOf, ProviderOf;
      assert Entry(d, 5)(id) == ReconciledEntries(s, client, provider, ids, infos, now)(id);
    }
  }

  ghost function ReconciledEntries(s: State, client: string, provider: string, ids: multiset<string>,
                                   infos: map<string, ModelInfo>, now: Time): string -> Option<Registration>
    requires client in s.clientModels && forall id :: ids[id] > 0 ==> id in infos
  {
    id => Reconciled(Get(s.models, id), client, ProviderOf(s, client), provider, multiset(s.clientModels[client])[id],
      ids[id], InfoOf(infos, id), now)
  }

  lemma RegisteredIs(s: State, client: string, provider: string, list: seq<Option<ModelInfo>>, now: Time)
    requires client in s.clientModels
    ensures forall id :: id in FirstInfos(list) <==> multiset(RawIds(list))[id] > 0
    ensures RegisteredModels(s, client, provider, list, now)
         == Remap(s.models, FirstInfos(list).Keys,
           ReconciledEntries(s, client, provider, multiset(RawIds(list)), FirstInfos(list), now))
  {
    InfosCoverIds(list);
    var left := id requires multiset(RawIds(list))[id] > 0 ==>
      id in FirstInfos(list) => Reconciled(Get(s.models, id), client, ProviderOf(s, client), provider,
                                 multiset(s.clientModels[client])[id], multiset(RawIds(list))[id],
                                   InfoOf(FirstInfos(list), id), now);
    hide Reconciled, RawIds, FirstInfos;
  }

  lemma NothingReconciled(s: State, client: string, provider: string, ids: multiset<string>,
                          infos: map<string, ModelInfo>, now: Time, id: string)
    requires client in s.clientModels && (forall j :: ids[j] > 0 <==> j in infos) && id !in s.models.Keys + infos.Keys
    ensures ReconciledEntries(s, client, provider, ids, infos, now)(id).None?
  {
    assert ids[id] == 0 && Get(s.models, id) == None && InfoOf(infos, id) == None;
    hide Reconciled;
    NothingFromNothing(client, ProviderOf(s, client), provider, multiset(s.clientModels[client])[id], now);
  }

  lemma NothingFromNothing(client: string, oldProvider: string, provider: string, a: nat, now: Time)
    ensures Reconciled(None, client, oldProvider, provider, a, 0, None, now) == None
  {
  }

  lemma SuppliedMeansRegistered(s: State, client: string, provider: string, list: seq<Option<ModelInfo>>, now: Time,
                                models: Models)
    requires client !in s.clientModels
    requires AllSupplied(s.models, models, FirstInfos(list), provider, multiset(RawIds(list)), now)
    ensures models == RegisteredModels(s, client, provider, list, now)
  {
    hide Supplied;
    InfosCoverIds(list);
    var ids, infos := multiset(RawIds(list)), FirstInfos(list);
    RemapIs(s.models, infos.Keys, id =>
      if id in infos
        then Supplied(Get(s.models, id), provider, infos[id], ids[id], now) else Get(s.models, id), models);
  }

  lemma NoneReleased(entry: Option<Registration>, client: string, provider: string, now: Time)
    ensures Released(entry, client, provider, 0, now) == entry
  {
  }

  lemma NoneSupplied(entry: Option<Registration>, provider: string, info: ModelInfo, now: Time)
    ensures Supplied(entry, provider, info, 0, now) == entry
  {
  }

  lemma SuppliedStep(entry: Option<Registration>, provider: string, info: ModelInfo, i: nat, now: Time)
    ensures Supplied(Supplied(entry, provider, info, i, now), provider, info, 1, now)
         == Supplied(entry, provider, info, i + 1, now)
  {
    if i > 0 && provider != "" {
      var one := Supplied(Supplied(entry, provider, info, i, now), provider, info, 1, now);
      var all := Supplied(entry, provider, info, i + 1, now);
      assert one.value.providers == all.value.providers;
      assert one.value.infoByProvider == all.value.infoByProvider;
    }
  }

  /** `models` is `start` with `k[id]` registrations of every id given up by `client`. */
  ghost predicate AllReleased(start: Models, models: Models, client: string, provider: string, k: multiset<string>,
                              now: Time) {
    forall id :: Get(models, id) == Released(Get(start, id), client, provider, k[id], now)
  }

  lemma ReleaseOneMore(start: Models, models: Models, client: string, provider: string, k: multiset<string>, now: Time,
                       id: string)
    requires AllReleased(start, models, client, provider, k, now)
    ensures AllReleased(start, Put(models, id, Released(Get(models, id), client, provider, 1, now)),
                        client, provider, k + multiset{id}, now)
  {
    var next := Put(models, id, Released(Get(models, id), client, provider, 1, now));
    forall other
      ensures Get(next, other) == Released(Get(start, other), client, provider, (k + multiset{id})[other], now)
    {
      assert Get(models, other) == Released(Get(start, other), client, provider, k[other], now);
      if other == id {
        ReleasedStep(Get(start, id), client, provider, k[id], now);
      }
    }
  }

  lemma ReleasedMeansUnregistered(s: State, models: Models, client: string, now: Time)
    requires client in s.clientModels
    requires AllReleased(s.models, models, client, ProviderOf(s, client), multiset(s.clientModels[client]), now)
    ensures Unregistered(s, client, now)
         == State(models, s.clientModels - {client}, s.clientInfos - {client}, s.clientProviders - {client})
  {
    RemapIs(s.models, {}, id =>
      Released(Get(s.models, id), client, ProviderOf(s, client), multiset(s.clientModels[client])[id], now), models);
  }

  /** `models` is `start` with `k[id]` registrations of every listed id added. */
  ghost predicate AllSupplied(start: Models, models: Models, infos: map<string, ModelInfo>, provider: string,
                              k: multiset<string>, now: Time) {
    forall id :: Get(models, id) ==
      if id in infos then Supplied(Get(start, id), provider, infos[id], k[id], now) else Get(start, id)
  }

  lemma NothingSupplied(start: Models, infos: map<string, ModelInfo>, provider: string, now: Time)
    ensures AllSupplied(start, start, infos, provider, multiset([]), now)
  {
    hide Supplied;
    forall id | id in infos {
      NoneSupplied(Get(start, id), provider, infos[id], now);
    }
  }

  lemma SupplyOneMore(start: Models, models: Models, infos: map<string, ModelInfo>, provider: string,
                      k: multiset<string>, now: Time, id: string)
    requires AllSupplied(start, models, infos, provider, k, now) && id in infos
    ensures AllSupplied(start, Put(models, id, Supplied(Get(models, id), provider, infos[id], 1, now)),
                        infos, provider, k + multiset{id}, now)
  {
    hide Supplied;
    SuppliedStep(Get(start, id), provider, infos[id], k[id], now);
  }

  lemma PutTwice(models: Models, id: string, first: Option<Registration>, second: Option<Registration>)
    ensures Get(Put(models, id, first), id) == first
    ensures Put(Put(models, id, first), id, second) == Put(models, id, second)
  {
  }

  lemma NothingReleased(models: Models, client: string, id: string, provider: string, now: Time)
    requires id !in models
    ensures Put(models, id, Released(Get(models, id), client, provider, 1, now)) == models
  {
  }

  lemma PutItself(models: Models, id: string)
    ensures Put(models, id, Get(models, id)) == models
  {
  }

  /** `whole` has what `part` has, under the same keys. */
  ghost predicate Within<V>(part: map<string, V>, whole: map<string, V>) {
    forall id :: id in part ==> id in whole && part[id] == whole[id]
  }

  lemma WithinItself<V>(m: map<string, V>)
    ensures Within(m, m)
  {
  }

  lemma WithoutOne<V>(m: map<string, V>, id: string)
    ensures Within(m - {id}, m)
  {
  }

  lemma WithinChains<V>(a: map<string, V>, b: map<string, V>, c: map<string, V>)
    requires Within(a, b) && Within(b, c)
    ensures Within(a, c)
  {
  }

  /** Every id known before and after is the same object. */
  ghost predicate Keeps<V>(before: map<string, V>, after: map<string, V>) {
    forall id :: id in before && id in after ==> after[id] == before[id]
  }

  lemma WithinKeeps<V>(before: map<string, V>, after: map<string, V>)
    requires Within(before, after) || Within(after, before)
    ensures Keeps(before, after)
  {
  }

  lemma DroppedThenAdded<V>(before: map<string, V>, mid: map<string, V>, after: map<string, V>)
    requires Within(mid, before) && Within(mid, after) && forall id :: id in before && id in after ==> id in mid
    ensures Keeps(before, after)
  {
  }

  class ModelRegistry {
    var models: map<string, ModelRegistration>
    var clientModels: map<string, seq<string>>
    var clientModelInfos: map<string, map<string, ModelInfo>>
    var clientProviders: map<string, string>

    constructor ()
      ensures Valid() && fresh(Regs())
      ensures View() == EMPTY
    {
      models, clientModels, clientModelInfos, clientProviders := map[], map[], map[], map[];
      new;
      assert Models() == map[];
    }

    ghost function Regs(): set<ModelRegistration>
      reads this`models
    {
      models.Values
    }

    /** No two ids share a registration object, and only named providers are recorded. */
    ghost predicate Valid()
      reads this
    {
      && (forall i, j :: i in models && j in models && models[i] == models[j] ==> i == j)
      && (forall c :: c in clientProviders ==> clientProviders[c] != "")
    }

    ghost function Models(): Models
      reads this`models, models.Values
    {
      map id | id in models :: models[id].Value()
    }

    ghost function View(): State
      reads this, models.Values
    {
      State(Models(), clientModels, clientModelInfos, clientProviders)
    }

    /** Models() after the object of one id changed and nothing else did. */
    twostate lemma Updated(id: string)
      requires old(Valid()) && models == old(models) && id in models
      requires forall r :: r in Regs() && r != models[id] ==> r.Value() == old(r.Value())
      ensures Models() == old(Models())[id := models[id].Value()]
    {
    }

    /** Models() after an id gained a registration of its own. */
    twostate lemma Inserted(id: string, new r: ModelRegistration)
      requires id !in old(models) && models == old(models)[id := r]
      requires forall q :: q in old(Regs()) ==> q.Value() == old(q.Value())
      ensures Models() == old(Models())[id := r.Value()]
    {
    }

    method AddModelRegistration(modelID: string, provider: string, model: ModelInfo, now: Time)
      requires Valid() && modelID != ""
      modifies this`models, Regs()
      ensures Valid() && fresh(Regs() - old(Regs()))
      ensures Within(old(models), models)
      ensures Models() == Put(old(Models()), modelID, Supplied(Get(old(Models()), modelID), provider, model, 1, now))
    {
      if modelID in models {
        models[modelID].Gain(provider, model, now);
        Updated(modelID);
        return;
      }
      var registration := new ModelRegistration(model, provider, now);
      models := models[modelID := registration];
      Inserted(modelID, registration);
    }

    method RemoveModelRegistration(clientID: string, modelID: string, provider: string, now: Time)
      requires Valid()
      modifies this`models, Regs()
      ensures Valid() && Regs() <= old(Regs())
      ensures Within(models, old(models))
      ensures Models() == Put(old(Models()), modelID, Released(Get(old(Models()), modelID), clientID, provider, 1, now))
    {
      WithinItself(models);
      GetModel(modelID);
      hide Within, Released, Get, Put;
      if modelID !in models {
        NothingReleased(Models(), clientID, modelID, provider, now);
        return;
      }
      var registration := models[modelID];
      LoseOne(registration, clientID, modelID, provider, now);
      PutItself(Models(), modelID);
      if registration.count <= 0 {
        ForgetModel(modelID);
      }
    }

    method ForgetModel(modelID: string)
      requires Valid()
      modifies this`models
      ensures Valid() && Regs() <= old(Regs()) && Within(models, old(models))
      ensures Models() == Put(old(Models()), modelID, None)
    {
      WithoutOne(models, modelID);
      models := models - {modelID};
    }

    lemma GetModel(id: string)
      ensures Get(Models(), id) == if id in models then Some(models[id].Value()) else None
    {
    }

    /** The registration counts one client fewer; what is left of it may be nothing. */
    method LoseOne(registration: ModelRegistration, clientID: string, modelID: string, provider: string, now: Time)
      requires Valid() && modelID in models && registration == models[modelID]
      modifies registration
      ensures Valid()
      ensures Put(Models(), modelID, if registration.count <= 0 then None else Some(registration.Value()))
           == Put(old(Models()), modelID, Released(Some(old(registration.Value())), clientID, provider, 1, now))
      ensures registration.count > 0 ==> Get(Models(), modelID) == Some(registration.Value())
    {
      hide DropShare;
      registration.Lose(clientID, provider, now);
      Updated(modelID);
    }

    lemma ModelKeys()
      ensures Models().Keys == models.Keys
    {
    }

    // ---------- unregistering ----------

    method ForgetClient(clientID: string)
      modifies this`clientModels, this`clientModelInfos, this`clientProviders
      ensures clientModels == old(clientModels) - {clientID}
      ensures clientModelInfos == old(clientModelInfos) - {clientID}
      ensures clientProviders == old(clientProviders) - {clientID}
      ensures Models() == old(Models())
    {
      clientModels := clientModels - {clientID};
      clientModelInfos := clientModelInfos - {clientID};
      clientProviders := clientProviders - {clientID};
    }

    /** The loop over the client's list, one registration given up per occurrence. */
    method ReleaseListed(clientID: string, list: seq<string>, provider: string, now: Time)
      requires Valid()
      modifies this`models, Regs()
      ensures Valid() && Regs() <= old(Regs()) && Within(models, old(models))
      ensures AllReleased(old(Models()), Models(), clientID, provider, multiset(list), now)
    {
      hide Within;
      WithinItself(models);
      for i := 0 to |list|
        invariant Valid() && Regs() <= old(Regs()) && Within(models, old(models))
        invariant AllReleased(old(Models()), Models(), clientID, provider, multiset(list[..i]), now)
      {
        ReleaseOneMore(old(Models()), Models(), clientID, provider, multiset(list[..i]), now, list[i]);
        ghost var before := models;
        RemoveModelRegistration(clientID, list[i], provider, now);
        WithinChains(models, before, old(models));
        assert list[..i + 1] == list[..i] + [list[i]];
      }
      assert list[..|list|] == list;
    }

    method ReleaseClient(clientID: string, provider: string, now: Time)
      requires Valid() && clientID in clientModels
      requires provider == ProviderOf(View(), clientID)
      modifies this`models, Regs()
      ensures Valid() && Regs() <= old(Regs()) && Within(models, old(models))
      ensures Unregistered(old(View()), clientID, now)
           == State(Models(), clientModels - {clientID}, clientModelInfos - {clientID}, clientProviders - {clientID})
    {
      ReleaseListed(clientID, clientModels[clientID], provider, now);
      ReleasedMeansUnregistered(old(View()), Models(), clientID, now);
    }

    method UnregisterClient(clientID: string, now: Time)
      requires Valid()
      modifies this, Regs()
      ensures Valid() && Regs() <= old(Regs()) && Within(models, old(models))
      ensures View() == Unregistered(old(View()), clientID, now)
    {
      hide Within;
      WithinItself(models);
      if clientID !in clientModels {
        clientProviders := clientProviders - {clientID};
        return;
      }
      ReleaseClient(clientID, if clientID in clientProviders then clientProviders[clientID] else "", now);
      ForgetClient(clientID);
    }

    // ---------- quota and suspension marks ----------

    method SetModelQuotaExceeded(clientID: string, modelID: string, now: Time)
      requires Valid()
      modifies Regs()
      ensures Valid() && View() == QuotaMarked(old(View()), clientID, modelID, now)
    {
      if modelID in models {
        var registration := models[modelID];
        registration.quotaExceededClients := registration.quotaExceededClients[clientID := now];
        Updated(modelID);
      }
    }

    method ClearModelQuotaExceeded(clientID: string, modelID: string)
      requires Valid()
      modifies Regs()
      ensures Valid() && View() == QuotaCleared(old(View()), clientID, modelID)
    {
      if modelID in models {
        var registration := models[modelID];
        registration.quotaExceededClients := registration.quotaExceededClients - {clientID};
        Updated(modelID);
      }
    }

    method SuspendClientModel(clientID: string, modelID: string, reason: string, now: Time)
      requires Valid()
      modifies Regs()
      ensures Valid() && View() == Suspended(old(View()), clientID, modelID, reason, now)
    {
      if clientID == "" || modelID == "" || modelID !in models || clientID in models[modelID].suspendedClients {
        return;
      }
      var registration := models[modelID];
      registration.suspendedClients := registration.suspendedClients[clientID := reason];
      registration.lastUpdated := now;
      Updated(modelID);
    }

    method ResumeClientModel(clientID: string, modelID: string, now: Time)
      requires Valid()
      modifies Regs()
      ensures Valid() && View() == Resumed(old(View()), clientID, modelID, now)
    {
      if clientID == "" || modelID == "" || modelID !in models || clientID !in models[modelID].suspendedClients {
        return;
      }
      var registration := models[modelID];
      registration.suspendedClients := registration.suspendedClients - {clientID};
      registration.lastUpdated := now;
      Updated(modelID);
    }

    /** One model's quota marks, without those past the window. */
    method DropExpired(modelID: string, now: Time)
      requires Valid() && modelID in models
      modifies models[modelID]
      ensures Valid() && Models() == Put(old(Models()), modelID, FreshEntry(Get(old(Models()), modelID), now))
    {
      var registration := models[modelID];
      var marks := registration.quotaExceededClients;
      registration.quotaExceededClients := map c | c in marks && now - marks[c] < QUOTA_WINDOW :: marks[c];
      Updated(modelID);
    }

    method DropAllExpired(now: Time, ghost cur: Entries, ghost next: Entries)
      requires Valid() && Holds(cur, Models()) && CleanStep(cur, next, now)
      modifies Regs()
      ensures Valid() && Holds(next, Models())
    {
      hide Valid, FreshEntry;
      ModelKeys();
      var todo := models.Keys;
      ghost var all, done: set<string> := todo, {};
      while todo != {}
        invariant Valid() && Split(all, done, todo) && models == old(models)
        invariant Moving(cur, next, done, Models())
      {
        var id :| id in todo;
        CleanAt(cur, next, now, id);
        hide *;
        SplitNext(all, done, todo, id);
        Advance(cur, next, done, Models(), id);
        DropExpired(id, now);
        todo, done := todo - {id}, done + {id};
      }
      NothingToClean(cur, next, now, old(Models()));
      SplitDone(all, done);
      Arrive(cur, next, all, Models());
    }

    method CleanupExpiredQuotas(now: Time)
      requires Valid()
      modifies Regs()
      ensures Valid() && View() == Cleaned(old(View()), now)
    {
      ghost var start := Models();
      ghost var cur: Entries, next: Entries := id => Get(start, id), id => FreshEntry(Get(start, id), now);
      DropAllExpired(now, cur, next);
      AllFresh(start, Models(), next, now);
    }

    method CountCooling(marks: map<string, Time>, now: Time) returns (n: nat)
      ensures n == |Cooling(marks, now)|
    {
      var todo := marks.Keys;
      n := 0;
      while todo != {}
        invariant todo <= marks.Keys
        invariant n == |Cooling(marks, now) - todo|
      {
        var c :| c in todo;
        ghost var counted := Cooling(marks, now) - todo;
        if now - marks[c] < QUOTA_WINDOW {
          n := n + 1;
          assert Cooling(marks, now) - (todo - {c}) == counted + {c};
        } else {
          assert Cooling(marks, now) - (todo - {c}) == counted;
        }
        todo := todo - {c};
      }
      assert Cooling(marks, now) - {} == Cooling(marks, now);
    }

    method GetModelCount(modelID: string, now: Time) returns (n: int)
      requires Valid()
      ensures n == Available(View(), modelID, now)
    {
      if modelID !in models {
        return 0;
      }
      var registration := models[modelID];
      var expiredClients := CountCooling(registration.quotaExceededClients, now);
      n := registration.count - expiredClients - |registration.suspendedClients|;
      if n < 0 {
        return 0;
      }
    }

    // ---------- registering ----------

    method RemoveTimes(clientID: string, modelID: string, provider: string, n: nat, now: Time)
      requires Valid()
      modifies this`models, Regs()
      ensures Valid() && Regs() <= old(Regs())
      ensures Within(models, old(models))
      ensures Models() == Put(old(Models()), modelID, Released(Get(old(Models()), modelID), clientID, provider, n, now))
    {
      hide Released, Within;
      assert Within(models, models) by {
        WithinItself(models);
      }
      ghost var start := Models();
      assert start == Put(start, modelID, Get(start, modelID));
      NoneReleased(Get(start, modelID), clientID, provider, now);
      for i := 0 to n
        invariant Valid() && Regs() <= old(Regs()) && Within(models, old(models))
        invariant Models() == Put(start, modelID, Released(Get(start, modelID), clientID, provider, i, now))
      {
        ReleasedStep(Get(start, modelID), clientID, provider, i, now);
        PutTwice(start, modelID, Released(Get(start, modelID), clientID, provider, i, now),
                 Released(Get(start, modelID), clientID, provider, i + 1, now));
        ghost var before := models;
        RemoveModelRegistration(clientID, modelID, provider, now);
        WithinChains(models, before, old(models));
      }
    }

    method AddTimes(modelID: string, provider: string, model: ModelInfo, n: nat, now: Time)
      requires Valid() && modelID != ""
      modifies this`models, Regs()
      ensures Valid() && fresh(Regs() - old(Regs()))
      ensures Within(old(models), models)
      ensures Models() == Put(old(Models()), modelID, Supplied(Get(old(Models()), modelID), provider, model, n, now))
    {
      hide Supplied, Within;
      assert Within(models, models) by {
        WithinItself(models);
      }
      ghost var start := Models();
      assert start == Put(start, modelID, Get(start, modelID));
      NoneSupplied(Get(start, modelID), provider, model, now);
      for i := 0 to n
        invariant Valid() && fresh(Regs() - old(Regs())) && Within(old(models), models)
        invariant Models() == Put(start, modelID, Supplied(Get(start, modelID), provider, model, i, now))
      {
        SuppliedStep(Get(start, modelID), provider, model, i, now);
        PutTwice(start, modelID, Supplied(Get(start, modelID), provider, model, i, now),
                 Supplied(Get(start, modelID), provider, model, i + 1, now));
        ghost var before := models;
        AddModelRegistration(modelID, provider, model, now);
        WithinChains(old(models), before, models);
      }
    }

    method HandOverTo(modelID: string, provider: string, k: nat)
      requires Valid() && provider != ""
      modifies Regs()
      ensures Valid()
      ensures Models() == Put(old(Models()), modelID, HandedOver(Get(old(Models()), modelID), provider, k))
    {
      if modelID in models {
        models[modelID].HandOver(provider, k);
        Updated(modelID);
      }
    }

    method RefreshOne(clientID: string, modelID: string, provider: string, model: ModelInfo, credit: nat, now: Time)
      requires Valid()
      modifies Regs()
      ensures Valid()
      ensures Models() ==
        Put(old(Models()), modelID, Refreshed(Get(old(Models()), modelID), clientID, provider, model, credit, now))
    {
      if modelID in models {
        models[modelID].Refresh(clientID, provider, model, credit, now);
        Updated(modelID);
      }
    }

    /** Provider hand-over for models in both lists, before anything else is touched. */
    method HandOverOverlap(oldProvider: string, oldCounts: map<string, nat>, newCounts: map<string, nat>,
                           ghost cur: Entries, ghost next: Entries)
      requires Valid() && oldProvider != ""
      requires HandOverStep(oldProvider, oldCounts, newCounts, cur, next)
      requires Holds(cur, Models())
      modifies Regs()
      ensures Valid() && Holds(next, Models())
    {
      hide HandedOver;
      var todo := newCounts.Keys;
      ghost var all, done: set<string> := todo, {};
      while todo != {}
        invariant Valid() && Split(all, done, todo)
        invariant Moving(cur, next, done, Models())
      {
        var id :| id in todo;
        SplitNext(all, done, todo, id);
        var oldCount := CountOf(oldCounts, id);
        Advance(cur, next, done, Models(), id);
        if oldCount > 0 {
          HandOverTo(id, oldProvider, Min(oldCount, newCounts[id]));
        }
        todo, done := todo - {id}, done + {id};
      }
      SplitDone(all, done);
      Arrive(cur, next, all, Models());
    }

    /** Models the client no longer lists. */
    method RemoveDropped(removed: set<string>, oldCounts: map<string, nat>, clientID: string, oldProvider: string,
                         now: Time, ghost cur: Entries, ghost next: Entries)
      requires Valid() && removed <= oldCounts.Keys
      requires DropStep(removed, oldCounts, clientID, oldProvider, now, cur, next)
      requires Holds(cur, Models())
      modifies this`models, Regs()
      ensures Valid() && Regs() <= old(Regs()) && Within(models, old(models)) && Holds(next, Models())
    {
      hide Released, Within;
      WithinItself(models);
      var todo := removed;
      ghost var all, done: set<string> := todo, {};
      while todo != {}
        invariant Valid() && Regs() <= old(Regs()) && Split(all, done, todo) && Within(models, old(models))
        invariant Moving(cur, next, done, Models())
      {
        var id :| id in todo;
        SplitNext(all, done, todo, id);
        Advance(cur, next, done, Models(), id);
        ghost var before := models;
        RemoveTimes(clientID, id, oldProvider, oldCounts[id], now);
        WithinChains(models, before, old(models));
        todo, done := todo - {id}, done + {id};
      }
      SplitDone(all, done);
      Arrive(cur, next, all, Models());
    }

    /** One model of the overage; `entry` is what is to be left of it. */
    method RemoveExcess(clientID: string, modelID: string, provider: string, oldCount: nat, newCount: nat, now: Time,
                        ghost entry: Option<Registration>)
      requires Valid()
      requires entry ==
        if 0 < newCount < oldCount then Released(Get(Models(), modelID), clientID, provider, oldCount - newCount, now)
                        else Get(Models(), modelID)
      modifies this`models, Regs()
      ensures Valid() && Regs() <= old(Regs()) && Within(models, old(models))
      ensures Models() == Put(old(Models()), modelID, entry)
    {
      hide *;
      WithinItself(models);
      PutItself(Models(), modelID);
      if newCount != 0 && newCount < oldCount {
        RemoveTimes(clientID, modelID, provider, oldCount - newCount, now);
      }
    }

    /** Models the client lists fewer times than before. */
    method RemoveOverage(oldCounts: map<string, nat>, newCounts: map<string, nat>, clientID: string,
                         oldProvider: string, now: Time, ghost cur: Entries, ghost next: Entries)
      requires Valid()
      requires OverageStep(oldCounts, newCounts, clientID, oldProvider, now, cur, next)
      requires Holds(cur, Models())
      modifies this`models, Regs()
      ensures Valid() && Regs() <= old(Regs()) && Within(models, old(models)) && Holds(next, Models())
    {
      hide Released, Within, Valid;
      WithinItself(models);
      var todo := oldCounts.Keys;
      ghost var all, done: set<string> := todo, {};
      while todo != {}
        invariant Valid() && Regs() <= old(Regs()) && Split(all, done, todo) && Within(models, old(models))
        invariant Moving(cur, next, done, Models())
      {
        var id :| id in todo;
        OverageAt(oldCounts, newCounts, clientID, oldProvider, now, cur, next, id);
        hide *;
        SplitNext(all, done, todo, id);
        Advance(cur, next, done, Models(), id);
        ghost var before := models;
        RemoveExcess(clientID, id, oldProvider, oldCounts[id], CountOf(newCounts, id), now, next(id));
        WithinChains(models, before, old(models));
        todo, done := todo - {id}, done + {id};
      }
      SplitDone(all, done);
      Arrive(cur, next, all, Models());
    }

    /** One model of the additions, on its way from `cur` to `next`. */
    method AddShortfall(modelID: string, provider: string, model: ModelInfo, oldCount: nat, newCount: nat, now: Time,
                        ghost cur: Entries, ghost next: Entries, ghost done: set<string>)
      requires Valid() && modelID != "" && Moving(cur, next, done, Models()) && modelID !in done
      requires next(modelID) ==
        if newCount > oldCount then Supplied(cur(modelID), provider, model, newCount - oldCount, now) else cur(modelID)
      modifies this`models, Regs()
      ensures Valid() && fresh(Regs() - old(Regs())) && Within(old(models), models)
      ensures Moving(cur, next, done + {modelID}, Models())
    {
      hide *;
      WithinItself(models);
      Advance(cur, next, done, Models(), modelID);
      if newCount > oldCount {
        AddTimes(modelID, provider, model, newCount - oldCount, now);
      }
    }

    /** Models the client lists more often than before. */
    method AddMissing(oldCounts: map<string, nat>, newCounts: map<string, nat>, newModels: map<string, ModelInfo>,
                      provider: string, now: Time, ghost cur: Entries, ghost next: Entries)
      requires Valid() && newCounts.Keys == newModels.Keys && "" !in newModels
      requires AddStep(oldCounts, newCounts, newModels, provider, now, cur, next)
      requires Holds(cur, Models())
      modifies this`models, Regs()
      ensures Valid() && fresh(Regs() - old(Regs())) && Within(old(models), models) && Holds(next, Models())
    {
      hide Supplied, Within, Valid;
      WithinItself(models);
      var todo := newCounts.Keys;
      ghost var all, done: set<string> := todo, {};
      while todo != {}
        invariant Valid() && fresh(Regs() - old(Regs())) && Split(all, done, todo) && Within(old(models), models)
        invariant Moving(cur, next, done, Models())
      {
        var id :| id in todo;
        hide *;
        SplitNext(all, done, todo, id);
        AddAt(oldCounts, newCounts, newModels, provider, now, cur, next, id);
        ghost var before := models;
        AddShortfall(id, provider, newModels[id], CountOf(oldCounts, id), newCounts[id], now, cur, next, done);
        WithinChains(old(models), before, models);
        todo, done := todo - {id}, done + {id};
      }
      SplitDone(all, done);
      Arrive(cur, next, all, Models());
    }

    /** Metadata of every listed model, and the overlap credited to a changed provider. */
    method RefreshListed(oldCounts: map<string, nat>, newCounts: map<string, nat>, newModels: map<string, ModelInfo>,
                         clientID: string, providerChanged: bool, provider: string, now: Time, ghost cur: Entries,
                           ghost next: Entries)
      requires Valid() && newCounts.Keys == newModels.Keys
      requires RefreshStep(oldCounts, newCounts, newModels, clientID, providerChanged, provider, now, cur, next)
      requires Holds(cur, Models())
      modifies Regs()
      ensures Valid() && Holds(next, Models())
    {
      hide Refreshed;
      var todo := newModels.Keys;
      ghost var all, done: set<string> := todo, {};
      while todo != {}
        invariant Valid() && Split(all, done, todo)
        invariant Moving(cur, next, done, Models())
      {
        var id :| id in todo;
        SplitNext(all, done, todo, id);
        Advance(cur, next, done, Models(), id);
        RefreshOne(clientID, id, provider, newModels[id],
                if providerChanged then Min(CountOf(oldCounts, id), newCounts[id]) else 0, now);
        todo, done := todo - {id}, done + {id};
      }
      SplitDone(all, done);
      Arrive(cur, next, all, Models());
    }

    /** The maps a registration call builds from its model list. */
    method Collect(list: seq<Option<ModelInfo>>)
      returns (rawModelIDs: seq<string>, newModels: map<string, ModelInfo>, newCounts: map<string, nat>)
      ensures rawModelIDs == RawIds(list) && newModels == FirstInfos(list)
      ensures Counts(newCounts, multiset(rawModelIDs))
    {
      rawModelIDs, newModels, newCounts := [], map[], map[];
      assert list[..0] == [] && list[..|list|] == list;
      for i := 0 to |list|
        invariant rawModelIDs == RawIds(list[..i]) && newModels == FirstInfos(list[..i])
        invariant CountsAll(newCounts, rawModelIDs)
      {
        hide *;
        NextEntry(list, i);
        if list[i].Some? && list[i].value.id != "" {
          var model := list[i].value;
          CountAppended(newCounts, rawModelIDs, model.id);
          rawModelIDs := rawModelIDs + [model.id];
          newCounts := Bumped(newCounts, model.id);
          if model.id !in newModels {
            newModels := newModels[model.id := model];
          }
        }
      }
      hide RawIds, FirstInfos, Counts;
    }

    method Tally(list: seq<string>) returns (counts: map<string, nat>)
      ensures Counts(counts, multiset(list))
    {
      counts := map[];
      assert list[..|list|] == list;
      for i := 0 to |list|
        invariant CountsAll(counts, list[..i])
      {
        hide *;
        assert list[..i + 1] == list[..i] + [list[i]];
        CountAppended(counts, list[..i], list[i]);
        counts := Bumped(counts, list[i]);
      }
      hide Counts;
    }

    /** The pure addition path of a client not seen before. */
    method AddAll(rawModelIDs: seq<string>, newModels: map<string, ModelInfo>, provider: string, now: Time)
      requires Valid() && "" !in newModels
      requires forall id :: id in rawModelIDs ==> id in newModels
      modifies this`models, Regs()
      ensures Valid() && fresh(Regs() - old(Regs())) && Within(old(models), models)
      ensures AllSupplied(old(Models()), Models(), newModels, provider, multiset(rawModelIDs), now)
    {
      hide Supplied, AllSupplied, Within, Get, Put, ModelRegistry.Models, ModelRegistry.Valid;
      WithinItself(models);
      NothingSupplied(Models(), newModels, provider, now);
      assert rawModelIDs[..0] == [];
      for i := 0 to |rawModelIDs|
        invariant Valid() && fresh(Regs() - old(Regs())) && Within(old(models), models)
        invariant AllSupplied(old(Models()), Models(), newModels, provider, multiset(rawModelIDs[..i]), now)
      {
        SupplyOneMore(old(Models()), Models(), newModels, provider, multiset(rawModelIDs[..i]), now, rawModelIDs[i]);
        ghost var before := models;
        AddModelRegistration(rawModelIDs[i], provider, newModels[rawModelIDs[i]], now);
        WithinChains(old(models), before, models);
        assert rawModelIDs[..i + 1] == rawModelIDs[..i] + [rawModelIDs[i]];
      }
      assert rawModelIDs[..|rawModelIDs|] == rawModelIDs;
    }

    /** Hand-over and removals. */
    method TakeAway(oldCounts: map<string, nat>, newCounts: map<string, nat>, clientID: string, oldProvider: string,
                    provider: string, now: Time, ghost d: Diff)
      requires Valid() && Covered(d) && Counts(oldCounts, d.before) && Counts(newCounts, d.after)
      requires d.start == Models() && d.client == clientID && d.oldProvider == oldProvider && d.provider == provider
      requires d.now == now
      modifies this`models, Regs()
      ensures Valid() && Regs() <= old(Regs()) && Within(models, old(models))
      ensures Holds(Entry(d, 3), Models())
    {
      hide At, Holds, Within, HandOverStep, DropStep, OverageStep;
      var removed := set id | id in oldCounts && CountOf(newCounts, id) == 0;
      FirstStages(d, oldCounts, newCounts);
      DropStage(d, oldCounts, newCounts, removed);
      OverageStage(d, oldCounts, newCounts);
      ghost var start := models;
      if oldProvider != provider && oldProvider != "" {
        HandOverOverlap(oldProvider, oldCounts, newCounts, Entry(d, 0), Entry(d, 1));
      }
      RemoveDropped(removed, oldCounts, clientID, oldProvider, now, Entry(d, 1), Entry(d, 2));
      ghost var kept := models;
      RemoveOverage(oldCounts, newCounts, clientID, oldProvider, now, Entry(d, 2), Entry(d, 3));
      WithinChains(models, kept, start);
    }

    /** The whole multiset difference, in the order the counters need; a model that stays keeps its object. */
    method Reconcile(oldCounts: map<string, nat>, newCounts: map<string, nat>, newModels: map<string, ModelInfo>,
                     clientID: string, oldProvider: string, provider: string, now: Time, ghost d: Diff)
      requires Valid() && Covered(d) && Counts(oldCounts, d.before) && Counts(newCounts, d.after) && "" !in newModels
      requires d.start == Models() && d.client == clientID && d.oldProvider == oldProvider && d.provider == provider
      requires d.infos == newModels && d.now == now
      modifies this`models, Regs()
      ensures Valid() && fresh(Regs() - old(Regs()))
      ensures Holds(Entry(d, 5), Models())
      ensures Keeps(old(models), models)
    {
      hide At, Holds, Within, Keeps, AddStep, RefreshStep;
      AddStage(d, oldCounts, newCounts);
      RefreshStage(d, oldCounts, newCounts);
      ModelKeys();
      TakeAway(oldCounts, newCounts, clientID, oldProvider, provider, now, d);
      ghost var mid, stage3 := models, Models();
      ModelKeys();
      AddMissing(oldCounts, newCounts, newModels, provider, now, Entry(d, 3), Entry(d, 4));
      RefreshListed(oldCounts, newCounts, newModels, clientID, oldProvider != provider, provider, now, Entry(d, 4),
        Entry(d, 5));
      ModelKeys();
      SurvivorsStay(d, stage3, Models());
      DroppedThenAdded(old(models), mid, models);
    }

    method RegisterNew(clientID: string, provider: string, rawModelIDs: seq<string>, newModels: map<string, ModelInfo>,
                       now: Time, ghost list: seq<Option<ModelInfo>>)
      requires Valid() && clientID !in clientModels
      requires rawModelIDs == RawIds(list) && newModels == FirstInfos(list)
      modifies this`models, Regs()
      ensures Valid() && fresh(Regs() - old(Regs())) && Within(old(models), models)
      ensures Models() == RegisteredModels(old(View()), clientID, provider, list, now)
    {
      InfosCoverIds(list);
      AddAll(rawModelIDs, newModels, provider, now);
      SuppliedMeansRegistered(old(View()), clientID, provider, list, now, Models());
    }

    method RegisterAgain(clientID: string, provider: string, rawModelIDs: seq<string>, newModels: map<string,
                         ModelInfo>,
                         newCounts: map<string, nat>, now: Time, ghost list: seq<Option<ModelInfo>>)
      requires Valid() && clientID in clientModels
      requires rawModelIDs == RawIds(list) && newModels == FirstInfos(list)
      requires Counts(newCounts, multiset(rawModelIDs))
      modifies this`models, Regs()
      ensures Valid() && fresh(Regs() - old(Regs())) && Keeps(old(models), models)
      ensures Models() == RegisteredModels(old(View()), clientID, provider, list, now)
    {
      hide RegisteredModels, Keeps, At, Holds, RawIds, FirstInfos;
      var oldProvider := if clientID in clientProviders then clientProviders[clientID] else "";
      var oldCounts := Tally(clientModels[clientID]);
      ghost var d := Diff(Models(), clientID, oldProvider, provider, multiset(clientModels[clientID]),
        multiset(rawModelIDs), newModels, now);
      InfosCoverIds(list);
      Reconcile(oldCounts, newCounts, newModels, clientID, oldProvider, provider, now, d);
      ReconciledMeansRegistered(old(View()), clientID, provider, list, now, d, Models());
    }

    method ForgetInfos(clientID: string)
      modifies this`clientModelInfos
      ensures clientModelInfos == old(clientModelInfos) - {clientID}
      ensures Models() == old(Models())
    {
      clientModelInfos := clientModelInfos - {clientID};
    }

    method BookClient(clientID: string, provider: string, rawModelIDs: seq<string>, newModels: map<string, ModelInfo>)
      modifies this`clientModels, this`clientModelInfos, this`clientProviders
      ensures clientModels == old(clientModels)[clientID := rawModelIDs]
      ensures clientModelInfos == old(clientModelInfos)[clientID := newModels]
      ensures clientProviders ==
        if provider != "" then old(clientProviders)[clientID := provider] else old(clientProviders) - {clientID}
      ensures Models() == old(Models())
    {
      clientModels := clientModels[clientID := rawModelIDs];
      clientModelInfos := clientModelInfos[clientID := newModels];
      if provider != "" {
        clientProviders := clientProviders[clientID := provider];
      } else {
        clientProviders := clientProviders - {clientID};
      }
    }

    method RegisterClient(clientID: string, clientProvider: string, list: seq<Option<ModelInfo>>, now: Time)
      requires Valid()
      modifies this, Regs()
      ensures Valid() && fresh(Regs() - old(Regs())) && Keeps(old(models), models)
      ensures View() == Registered(old(View()), clientID, ToLower(clientProvider), list, now)
    {
      hide Within, Keeps, Unregistered, RegisteredModels, RawIds, FirstInfos;
      var provider := ToLower(clientProvider);
      var rawModelIDs, newModels, newCounts := Collect(list);
      if rawModelIDs == [] {
        UnregisterClient(clientID, now);
        WithinKeeps(old(models), models);
        ForgetInfos(clientID);
        return;
      }
      if clientID !in clientModels {
        RegisterNew(clientID, provider, rawModelIDs, newModels, now, list);
        WithinKeeps(old(models), models);
      } else {
        RegisterAgain(clientID, provider, rawModelIDs, newModels, newCounts, now, list);
      }
      BookClient(clientID, provider, rawModelIDs, newModels);
    }

    // ---------- the models a provider offers ----------

    /** One client's list: every id counts once more, and is described by the first who can. */
    method CountTrimmed(clientID: string, list: seq<string>, start: map<string, nat>, said: map<string, ModelInfo>,
                        ghost done: map<string, seq<string>>)
      returns (counts: map<string, nat>, described: map<string, ModelInfo>)
      requires clientID !in done && CountsSupply(start, done)
      requires Describes(said, done, clientModelInfos, Known(View()))
      ensures CountsSupply(counts, done[clientID := TrimmedIds(list)])
      ensures Describes(described, done[clientID := TrimmedIds(list)], clientModelInfos, Known(View()))
    {
      hide *;
      counts, described := start, said;
      ghost var counted := Supply(done);
      ClientUncounted(counts, done, list);
      NothingDescribed(said, done, clientModelInfos, Known(View()), clientID);
      for i := 0 to |list|
        invariant CountsTrimmed(counts, counted, list, i)
        invariant Describes(described, done[clientID := TrimmedIds(list[..i])], clientModelInfos, Known(View()))
      {
        CountTrimmedOne(counts, counted, list, i);
        NextTrimmed(list, i);
        var modelID := TrimSpace(list[i]);
        if modelID != "" {
          DescribesMore(described, done, clientModelInfos, Known(View()), clientID, TrimmedIds(list[..i]), modelID);
          counts := Bumped(counts, modelID);
          described := Describe(described, clientID, modelID);
        }
      }
      assert list[..|list|] == list;
      CountedClient(counts, done, clientID, list);
    }

    /** The client's own description, or else the registration's; an earlier description stays. */
    method Describe(described: map<string, ModelInfo>, clientID: string, modelID: string)
      returns (r: map<string, ModelInfo>)
      ensures r == DescribedMore(described, modelID, InfoFor(clientModelInfos, Known(View()), clientID, modelID))
    {
      r := described;
      if modelID !in described {
        if clientID in clientModelInfos && modelID in clientModelInfos[clientID] {
          r := described[modelID := clientModelInfos[clientID][modelID]];
        } else if modelID in models {
          r := described[modelID := models[modelID].info];
        }
      }
    }

    /** The clients' walk, one client at a time in any order. */
    method CountClients(provider: string, ghost lists: map<string, seq<string>>)
      returns (counts: map<string, nat>, described: map<string, ModelInfo>)
      requires lists == OfProvider(View(), provider)
      ensures Counts(counts, Supply(TrimmedLists(lists)))
      ensures Describes(described, TrimmedLists(lists), clientModelInfos, Known(View()))
    {
      counts, described := map[], map[];
      ghost var done: map<string, seq<string>> := map[];
      NothingCounted();
      hide Counts, TrimmedIds, Supply;
      var todo := clientProviders.Keys;
      while todo != {}
        invariant todo <= clientProviders.Keys
        invariant done.Keys == lists.Keys - todo && forall c :: c in done ==> done[c] == TrimmedIds(lists[c])
        invariant CountsSupply(counts, done) && Describes(described, done, clientModelInfos, Known(View()))
      {
        hide CountsSupply, TrimmedLists, Describes, Known;
        var clientID :| clientID in todo;
        if clientProviders[clientID] == provider && clientID in clientModels {
          counts, described := CountTrimmed(clientID, clientModels[clientID], counts, described, done);
          done := done[clientID := TrimmedIds(clientModels[clientID])];
        }
        todo := todo - {clientID};
      }
      assert done == TrimmedLists(lists);
    }

    method CountModelsByProvider(provider: string) returns (counts: map<string, nat>, described: map<string, ModelInfo>)
      ensures Counts(counts, Recount(View(), provider))
      ensures Describes(described, TrimmedLists(OfProvider(View(), provider)), clientModelInfos, Known(View()))
    {
      RecountIs(View(), provider);
      hide *;
      counts, described := CountClients(provider, OfProvider(View(), provider));
    }

    method CountExpired(marks: map<string, Time>, provider: string, now: Time) returns (n: nat)
      ensures n == |Own(clientProviders, provider, Cooling(marks, now))|
    {
      n := 0;
      var todo := marks.Keys;
      ghost var counted: set<string> := {};
      while todo != {}
        invariant todo <= marks.Keys
        invariant counted == Own(clientProviders, provider, Cooling(marks, now)) - todo && n == |counted|
      {
        var c :| c in todo;
        todo := todo - {c};
        if c != "" && c in clientProviders && clientProviders[c] == provider && now - marks[c] < QUOTA_WINDOW {
          n, counted := n + 1, counted + {c};
        }
      }
    }

    method CountSuspended(suspended: map<string, string>, provider: string) returns (forQuota: nat, otherwise: nat)
      ensures forQuota == |Held(suspended, clientProviders, provider, true)|
      ensures otherwise == |Held(suspended, clientProviders, provider, false)|
    {
      forQuota, otherwise := 0, 0;
      var todo := suspended.Keys;
      NoneHeld(suspended, clientProviders, provider, true);
      NoneHeld(suspended, clientProviders, provider, false);
      hide *;
      while todo != {}
        invariant todo <= suspended.Keys
        invariant forQuota == |HeldBut(suspended, clientProviders, provider, true, todo)|
        invariant otherwise == |HeldBut(suspended, clientProviders, provider, false, todo)|
      {
        var c :| c in todo;
        HeldNext(suspended, clientProviders, provider, true, todo, c);
        HeldNext(suspended, clientProviders, provider, false, todo, c);
        todo := todo - {c};
        if c != "" && c in clientProviders && clientProviders[c] == provider {
          if QuotaReason(suspended[c]) {
            forQuota := forQuota + 1;
          } else {
            otherwise := otherwise + 1;
          }
        }
      }
    }

    /** Whether `count` listings of a model are worth showing, given the marks of the provider's clients. */
    method IsOffered(provider: string, modelID: string, count: nat, now: Time) returns (r: bool)
      requires count == Recount(View(), provider)[modelID]
      ensures r == Offered(View(), provider, modelID, now)
    {
      hide Recount, Held, Own, Cooling;
      var expiredClients, cooldownSuspended, otherSuspended: nat := 0, 0, 0;
      if modelID in models {
        var registration := models[modelID];
        expiredClients := CountExpired(registration.quotaExceededClients, provider, now);
        cooldownSuspended, otherSuspended := CountSuspended(registration.suspendedClients, provider);
      }
      var effectiveClients := count - expiredClients - otherSuspended;
      if effectiveClients < 0 {
        effectiveClients := 0;
      }
      r := effectiveClients > 0
        || (count > 0 && (expiredClients > 0 || cooldownSuspended > 0) && otherSuspended == 0);
    }

    /** The models the provider offers, each with a description; those nobody can describe are left out. */
    method GetAvailableModelsByProvider(rawProvider: string, now: Time) returns (result: map<string, ModelInfo>)
      ensures var provider := ToLower(TrimSpace(rawProvider));
              var lists := TrimmedLists(OfProvider(View(), provider));
              && (provider == "" ==> result == map[])
              && (forall id :: id in result ==> Offered(View(), provider, id, now))
              && (forall id :: id in result ==> SaidOf(lists, clientModelInfos, Known(View()), id, result[id]))
              && (provider != "" ==>
                    forall id, info ::
                      Offered(View(), provider, id, now) && SaidOf(lists, clientModelInfos, Known(View()), id, info) ==>
                        id in result)
    {
      var provider := ToLower(TrimSpace(rawProvider));
      hide ToLower, TrimSpace, Recount, Offered, TrimmedLists, OfProvider, Known, Describes;
      result := map[];
      if provider == "" {
        return;
      }
      var counts, described := CountModelsByProvider(provider);
      ghost var lists := TrimmedLists(OfProvider(View(), provider));
      var todo := counts.Keys;
      while todo != {}
        invariant todo <= counts.Keys
        invariant forall id :: id in result ==>
          id in described && result[id] == described[id] && Offered(View(), provider, id, now)
        invariant forall id :: id in counts && id !in todo && id in described && Offered(View(), provider, id, now) ==>
          id in result
      {
        var modelID :| modelID in todo;
        todo := todo - {modelID};
        var offered := IsOffered(provider, modelID, counts[modelID], now);
        if offered && modelID in described {
          result := result[modelID := described[modelID]];
        }
      }
      DescribedExactly(described, lists, clientModelInfos, Known(View()));
      OfferedIsCounted(View(), provider, now);
      hide SaidOf;
    }
  }
}
