/**
 * Which models a provider is said to offer: the recount of its clients' lists, held against the quota and suspension
 * marks of those clients.
 */
module RegistryListing {
  import opened Wrappers
  import opened RegistryState
  import opened RegistryTheorems
  import opened RegistryRecount
  import opened RegistryRuns
  import opened Text

  // ---------- marks of the provider's clients ----------

  ghost function Own(providers: map<string, string>, provider: string, clients: set<string>): set<string> {
    set c | c in clients && c != "" && c in providers && providers[c] == provider
  }

  predicate QuotaReason(reason: string) {
    EqualFold(reason, "quota")
  }

  /** Clients of the provider inside their quota window. */
  ghost function Expired(r: Registration, providers: map<string, string>, provider: string, now: Time): set<string> {
    Own(providers, provider, Cooling(r.quota, now))
  }

  /** Clients of the provider that are suspended for their quota, or for another reason. */
  ghost function Held(suspended: map<string, string>, providers: map<string, string>, provider: string,
                      forQuota: bool): set<string> {
    Own(providers, provider, set c | c in suspended && QuotaReason(suspended[c]) == forQuota)
  }

  /** The suspended clients a count has reached. */
  ghost function HeldBut(suspended: map<string, string>, providers: map<string, string>, provider: string,
                         forQuota: bool, todo: set<string>): set<string> {
    Held(suspended, providers, provider, forQuota) - todo
  }

  lemma NoneHeld(suspended: map<string, string>, providers: map<string, string>, provider: string, forQuota: bool)
    ensures HeldBut(suspended, providers, provider, forQuota, suspended.Keys) == {}
    ensures HeldBut(suspended, providers, provider, forQuota, {}) == Held(suspended, providers, provider, forQuota)
  {
    hide QuotaReason;
  }

  lemma HeldNext(suspended: map<string, string>, providers: map<string, string>, provider: string, forQuota: bool,
                 todo: set<string>, c: string)
    requires c in todo && c in suspended
    ensures |HeldBut(suspended, providers, provider, forQuota, todo - {c})| ==
      |HeldBut(suspended, providers, provider, forQuota, todo)| +
      if c != "" && c in providers && providers[c] == provider && QuotaReason(suspended[c]) == forQuota then 1 else 0
  {
    hide QuotaReason;
    var before := HeldBut(suspended, providers, provider, forQuota, todo);
    var after := HeldBut(suspended, providers, provider, forQuota, todo - {c});
    if c in Held(suspended, providers, provider, forQuota) {
      assert after == before + {c};
    } else {
      assert after == before;
    }
  }

  /** `n` listings are worth showing: something is left of them, or nothing but quotas stands in the way. */
  predicate WorthShowing(n: nat, expired: nat, forQuota: nat, otherwise: nat) {
    n > 0 && (n - expired - otherwise > 0 || ((expired > 0 || forQuota > 0) && otherwise == 0))
  }

  ghost predicate Offered(s: State, provider: string, id: string, now: Time) {
    var n := Recount(s, provider)[id];
    if id !in s.models then WorthShowing(n, 0, 0, 0)
    else
      WorthShowing(n, |Expired(s.models[id], s.clientProviders, provider, now)|,
                   |Held(s.models[id].suspended, s.clientProviders, provider, true)|,
                   |Held(s.models[id].suspended, s.clientProviders, provider, false)|)
  }

  lemma OfferedIsCounted(s: State, provider: string, now: Time)
    ensures forall id :: Offered(s, provider, id, now) ==> Recount(s, provider)[id] > 0
  {
    hide Recount, Expired, Held;
  }

  // ---------- descriptions ----------

  /** What a client says of a model it lists, or else what the registry knows of it. */
  function InfoFor(infos: map<string, map<string, ModelInfo>>, known: map<string, ModelInfo>, client: string,
                   id: string): Option<ModelInfo> {
    if client in infos && id in infos[client] then Some(infos[client][id])
    else if id in known then Some(known[id])
    else None
  }

  ghost function Known(s: State): map<string, ModelInfo> {
    map id | id in s.models :: s.models[id].info
  }

  ghost predicate SaidOf(lists: map<string, seq<string>>, infos: map<string, map<string, ModelInfo>>,
                         known: map<string, ModelInfo>, id: string, info: ModelInfo)
  {
    exists c :: c in lists && id in lists[c] && InfoFor(infos, known, c, id) == Some(info)
  }

  /** Every listed model is described as far as any of the listing clients, or the registry, can. */
  ghost predicate Describes(described: map<string, ModelInfo>, lists: map<string, seq<string>>,
                            infos: map<string, map<string, ModelInfo>>, known: map<string, ModelInfo>)
  {
    && (forall id :: id in described ==> SaidOf(lists, infos, known, id, described[id]))
    && (forall c, id :: c in lists && id in lists[c] && InfoFor(infos, known, c, id).Some? ==> id in described)
  }

  /** The description after one more listing; the first one stays. */
  function DescribedMore(described: map<string, ModelInfo>, id: string,
                         info: Option<ModelInfo>): map<string, ModelInfo>
  {
    if id in described || info.None? then described else described[id := info.value]
  }

  lemma DescribesMore(described: map<string, ModelInfo>, lists: map<string, seq<string>>,
                      infos: map<string, map<string, ModelInfo>>, known: map<string, ModelInfo>,
                      client: string, ids: seq<string>, id: string)
    requires Describes(described, lists[client := ids], infos, known)
    ensures Describes(DescribedMore(described, id, InfoFor(infos, known, client, id)), lists[client := ids + [id]],
                      infos, known)
  {
    hide InfoFor;
    var next := DescribedMore(described, id, InfoFor(infos, known, client, id));
    var before, after := lists[client := ids], lists[client := ids + [id]];
    forall m | m in next
      ensures SaidOf(after, infos, known, m, next[m])
    {
      if m in described {
        var c :| c in before && m in before[c] && InfoFor(infos, known, c, m) == Some(described[m]);
        assert c in after && m in after[c];
      } else {
        assert client in after && id in after[client];
      }
    }
  }

  lemma NothingDescribed(described: map<string, ModelInfo>, lists: map<string, seq<string>>,
                         infos: map<string, map<string, ModelInfo>>, known: map<string, ModelInfo>, client: string)
    requires Describes(described, lists, infos, known) && client !in lists
    ensures Describes(described, lists[client := []], infos, known)
  {
    hide InfoFor;
    var next := lists[client := []];
    forall id | id in described
      ensures SaidOf(next, infos, known, id, described[id])
    {
      var c :| c in lists && id in lists[c] && InfoFor(infos, known, c, id) == Some(described[id]);
      assert c in next && next[c] == lists[c];
    }
  }

  lemma DescribedExactly(described: map<string, ModelInfo>, lists: map<string, seq<string>>,
                         infos: map<string, map<string, ModelInfo>>, known: map<string, ModelInfo>)
    requires Describes(described, lists, infos, known)
    ensures forall id :: id in described ==> SaidOf(lists, infos, known, id, described[id])
    ensures forall id, info :: SaidOf(lists, infos, known, id, info) ==> id in described
  {
    hide InfoFor;
  }

  // ---------- what an offer means ----------

  /** Clients of the provider that list the model. */
  ghost function OwnSuppliers(s: State, provider: string, id: string): set<string> {
    Listing(OfProvider(s, provider), id)
  }

  lemma ShownExactly(own: set<string>, expired: set<string>, forQuota: set<string>, otherwise: set<string>)
    requires expired <= own && forQuota <= own && otherwise <= own
    ensures WorthShowing(|own|, |expired|, |forQuota|, |otherwise|) <==>
            own != {} && (otherwise == {} || |own - expired - otherwise| > |expired * otherwise|)
  {
    SizeWithout(own, expired, otherwise);
    hide *;
    NoneOrSome(own);
    NoneOrSome(otherwise);
    ShownByNumbers(|own|, |expired|, |forQuota|, |otherwise|);
  }

  lemma ShownByNumbers(n: nat, expired: nat, forQuota: nat, otherwise: nat)
    ensures WorthShowing(n, expired, forQuota, otherwise) <==> n > 0 && (otherwise == 0 || n - expired - otherwise > 0)
  {
  }

  lemma OwnAreSuppliers(s: State, provider: string, id: string, marks: set<string>)
    requires Tidy(s) && marks <= Suppliers(s, id)
    ensures Own(s.clientProviders, provider, marks) <= OwnSuppliers(s, provider, id)
  {
  }

  lemma OwnMarks(s: State, provider: string, id: string, now: Time)
    requires Tidy(s) && MarksSupplied(s) && id in s.models
    ensures Expired(s.models[id], s.clientProviders, provider, now) <= OwnSuppliers(s, provider, id)
    ensures forall forQuota: bool ::
      Held(s.models[id].suspended, s.clientProviders, provider, forQuota) <= OwnSuppliers(s, provider, id)
  {
    var r := s.models[id];
    MarksAt(s, id);
    hide Tidy, MarksSupplied, QuotaReason, Own, Suppliers, OwnSuppliers;
    OwnAreSuppliers(s, provider, id, Cooling(r.quota, now));
    OwnAreSuppliers(s, provider, id, set c | c in r.suspended && QuotaReason(r.suspended[c]) == true);
    OwnAreSuppliers(s, provider, id, set c | c in r.suspended && QuotaReason(r.suspended[c]) == false);
  }

  lemma OfferIs(s: State, provider: string, id: string, now: Time)
    requires id in s.models
    ensures Offered(s, provider, id, now) <==>
      WorthShowing(Recount(s, provider)[id], |Expired(s.models[id], s.clientProviders, provider, now)|,
                   |Held(s.models[id].suspended, s.clientProviders, provider, true)|,
                   |Held(s.models[id].suspended, s.clientProviders, provider, false)|)
  {
  }

  lemma RecountIsOwnSuppliers(s: State, provider: string, id: string)
    requires Tidy(s) && AllTrimmed(OfProvider(s, provider)) && ListsOnce(OfProvider(s, provider), id)
    ensures Recount(s, provider)[id] == |OwnSuppliers(s, provider, id)|
  {
    RecountOfTrimmed(s, provider);
    SupplyCountsClients(OfProvider(s, provider), id);
  }

  /** The clients of the provider that the marks leave: neither cooling down nor suspended for more than a quota. */
  ghost function Ready(s: State, provider: string, id: string, now: Time): set<string>
    requires id in s.models
  {
    OwnSuppliers(s, provider, id) - Expired(s.models[id], s.clientProviders, provider, now)
    - Held(s.models[id].suspended, s.clientProviders, provider, false)
  }

  /**
   * A model is offered if and only if the provider has clients for it and either none of them is suspended for more
   * than a quota, or more are ready than are both cooling down and so suspended, which are subtracted twice.
   */
  lemma OfferedExactly(s: State, provider: string, id: string, now: Time)
    requires Consistent(s) && MarksSupplied(s) && id in s.models
    requires AllTrimmed(OfProvider(s, provider)) && ListsOnce(OfProvider(s, provider), id)
    ensures var expired := Expired(s.models[id], s.clientProviders, provider, now);
            var otherwise := Held(s.models[id].suspended, s.clientProviders, provider, false);
            Offered(s, provider, id, now) <==>
              && OwnSuppliers(s, provider, id) != {}
              && (otherwise == {} || |Ready(s, provider, id, now)| > |expired * otherwise|)
  {
    var r := s.models[id];
    hide Offered, OwnSuppliers, Expired, Held, MarksSupplied, AllTrimmed, ListsOnce, Recount;
    RecountIsOwnSuppliers(s, provider, id);
    OwnMarks(s, provider, id, now);
    OfferIs(s, provider, id, now);
    ShownExactly(OwnSuppliers(s, provider, id), Expired(r, s.clientProviders, provider, now),
                 Held(r.suspended, s.clientProviders, provider, true),
                 Held(r.suspended, s.clientProviders, provider, false));
    hide Consistent, WorthShowing;
  }

  /** With trimmed ids, every model offered can be described. */
  lemma OfferedIsDescribed(s: State, provider: string, id: string, now: Time) returns (info: ModelInfo)
    requires Consistent(s) && AllTrimmed(OfProvider(s, provider)) && Offered(s, provider, id, now)
    ensures SaidOf(TrimmedLists(OfProvider(s, provider)), s.clientInfos, Known(s), id, info)
  {
    OfferedIsCounted(s, provider, now);
    CountedIsKnown(s, provider, id);
    hide Consistent, AllTrimmed, Offered, OfProvider, TrimmedLists;
    RecountIs(s, provider);
    var c := SupplyMember(TrimmedLists(OfProvider(s, provider)), id);
    info := InfoFor(s.clientInfos, Known(s), c, id).value;
  }

  lemma CountedIsKnown(s: State, provider: string, id: string)
    requires Consistent(s) && AllTrimmed(OfProvider(s, provider)) && Recount(s, provider)[id] > 0
    ensures id in s.models
  {
    RecountOfTrimmed(s, provider);
    CachedShareIsSupply(s, id, provider);
    hide Consistent, AllTrimmed, Recount, Supply, OfProvider;
  }

  lemma NoneOrSome(a: set<string>)
    ensures |a| == 0 <==> a == {}
  {
  }

  /** In a run that marks suppliers only, a model offered despite other suspensions has a client that is ready. */
  lemma ReachableOffer(events: seq<Event>, provider: string, id: string, now: Time)
    requires AdmissibleRun(events) && id in Run(events).models && Offered(Run(events), provider, id, now)
    requires AllTrimmed(OfProvider(Run(events), provider)) && ListsOnce(OfProvider(Run(events), provider), id)
    requires Held(Run(events).models[id].suspended, Run(events).clientProviders, provider, false) != {}
    ensures exists c :: c in Ready(Run(events), provider, id, now)
  {
    var s := Run(events);
    ReachableConsistent(events);
    ReachableMarksSupplied(events);
    OfferedExactly(s, provider, id, now);
    hide *;
    NoneOrSome(Ready(s, provider, id, now));
    var c :| c in Ready(s, provider, id, now);
  }
}
