/**
 * The per-provider recount behind the list of available models: it walks the clients' own lists
 * instead of reading the cached shares.
 */
module RegistryRecount {
  import opened RegistryState
  import opened RegistryTheorems
  import opened Text

  /** The ids of a list as the recount sees them. */
  function TrimmedIds(list: seq<string>): seq<string> {
    if list == [] then []
    else
      var id := TrimSpace(list[|list| - 1]);
      TrimmedIds(list[..|list| - 1]) + if id == "" then [] else [id]
  }

  ghost function TrimmedLists(lists: map<string, seq<string>>): map<string, seq<string>> {
    map c | c in lists :: TrimmedIds(lists[c])
  }

  ghost function Recount(s: State, provider: string): multiset<string> {
    Supply(TrimmedLists(OfProvider(s, provider)))
  }

  ghost predicate AllTrimmed(lists: map<string, seq<string>>) {
    forall c, id :: c in lists && id in lists[c] ==> TrimSpace(id) == id
  }

  lemma TrimmedStep(list: seq<string>, i: nat)
    requires i < |list|
    ensures multiset(TrimmedIds(list[..i + 1]))
         == multiset(TrimmedIds(list[..i])) + if TrimSpace(list[i]) == ""
           then multiset{} else multiset{TrimSpace(list[i])}
  {
    hide TrimSpace;
    assert list[..i + 1][..i] == list[..i];
  }

  lemma {:induction false} TrimmedIsSame(list: seq<string>)
    requires "" !in list && forall id :: id in list ==> TrimSpace(id) == id
    ensures TrimmedIds(list) == list
  {
    if list != [] {
      TrimmedIsSame(list[..|list| - 1]);
      assert list == list[..|list| - 1] + [list[|list| - 1]];
    }
  }

  lemma {:induction false} OnlyTrimmed(list: seq<string>, id: string)
    requires id in TrimmedIds(list)
    ensures TrimSpace(id) == id
  {
    if id in TrimmedIds(list[..|list| - 1]) {
      OnlyTrimmed(list[..|list| - 1], id);
    } else {
      TrimTwice(list[|list| - 1]);
    }
  }

  lemma {:induction false} SupplyMember(lists: map<string, seq<string>>, id: string) returns (client: string)
    requires Supply(lists)[id] > 0
    ensures client in lists && id in lists[client]
    decreases |lists|
  {
    client :| client in lists && Supply(lists) == multiset(lists[client]) + Supply(lists - {client});
    if id !in lists[client] {
      assert multiset(lists[client])[id] == 0;
      client := SupplyMember(lists - {client}, id);
    }
  }

  lemma RecountOfTrimmed(s: State, provider: string)
    requires Tidy(s) && AllTrimmed(OfProvider(s, provider))
    ensures Recount(s, provider) == Supply(OfProvider(s, provider))
  {
    var lists := OfProvider(s, provider);
    forall c | c in lists
      ensures TrimmedIds(lists[c]) == lists[c]
    {
      TrimmedIsSame(lists[c]);
    }
    assert TrimmedLists(lists) == lists;
  }

  lemma UntrimmedIsMissed(lists: map<string, seq<string>>, client: string, id: string)
    requires client in lists && id in lists[client] && TrimSpace(id) != id
    ensures Supply(TrimmedLists(lists))[id] == 0 && Supply(lists)[id] > 0
  {
    hide TrimSpace, Supply, TrimmedIds;
    SupplySplit(lists, client);
    assert multiset(lists[client])[id] > 0;
    if Supply(TrimmedLists(lists))[id] > 0 {
      var c := SupplyMember(TrimmedLists(lists), id);
      OnlyTrimmed(lists[c], id);
    }
  }

  lemma RecountIs(s: State, provider: string)
    ensures Recount(s, provider) == Supply(TrimmedLists(OfProvider(s, provider)))
  {
  }

  ghost function CachedShare(s: State, id: string, provider: string): int {
    if id in s.models then Share(s.models[id], provider) else 0
  }

  lemma CachedShareIsSupply(s: State, id: string, provider: string)
    requires Consistent(s)
    ensures CachedShare(s, id, provider) == Supply(OfProvider(s, provider))[id]
  {
    AccountsAt(s, id);
    SupplySub(OfProvider(s, provider), s.clientModels);
    assert Shares(s, id)(provider) == Supply(OfProvider(s, provider))[id];
    hide Supply, OfProvider, Consistent;
  }

  /**
   * The recount agrees with every cached share if and only if the provider's clients list
   * white-space-trimmed ids only.
   */
  lemma RecountMatchesCache(s: State, provider: string)
    requires Consistent(s)
    ensures (forall id :: Recount(s, provider)[id] == CachedShare(s, id, provider)) <==>
      AllTrimmed(OfProvider(s, provider))
  {
    assert forall id :: CachedShare(s, id, provider) == Supply(OfProvider(s, provider))[id] by {
      forall id {
        CachedShareIsSupply(s, id, provider);
      }
    }
    hide Consistent, Recount, Supply, CachedShare, OfProvider, TrimSpace;
    if AllTrimmed(OfProvider(s, provider)) {
      RecountOfTrimmed(s, provider);
    } else {
      var c, id :| c in OfProvider(s, provider) && id in OfProvider(s, provider)[c] && TrimSpace(id) != id;
      RecountIs(s, provider);
      UntrimmedIsMissed(OfProvider(s, provider), c, id);
    }
  }
}
