/**
 * Runs of the model registry: sequences of its public operations, each at a point in time.
 */
module RegistryRuns {
  import opened Wrappers
  import opened RegistryState
  import opened RegistryTheorems
  import opened Text

  datatype Op =
    | Register(client: string, provider: string, list: seq<Option<ModelInfo>>)
    | Unregister(client: string)
    | Exceed(client: string, id: string)
    | Clear(client: string, id: string)
    | Suspend(client: string, id: string, reason: string)
    | Resume(client: string, id: string)
    | Cleanup

  datatype Event = Event(op: Op, at: Time)

  ghost function Step(s: State, op: Op, now: Time): State {
    match op
    case Register(c, p, list) => Registered(s, c, ToLower(p), list, now)
    case Unregister(c) => Unregistered(s, c, now)
    case Exceed(c, id) => QuotaMarked(s, c, id, now)
    case Clear(c, id) => QuotaCleared(s, c, id)
    case Suspend(c, id, reason) => Suspended(s, c, id, reason, now)
    case Resume(c, id) => Resumed(s, c, id, now)
    case Cleanup => Cleaned(s, now)
  }

  ghost function Run(events: seq<Event>): State {
    if events == [] then EMPTY
    else
      var last := events[|events| - 1];
      Step(Run(events[..|events| - 1]), last.op, last.at)
  }

  // ---------- the counters are sums in every reachable state ----------

  /** `t` differs from `s` in marks and time stamps only. */
  ghost predicate SameBooks(s: State, t: State) {
    && t.clientModels == s.clientModels && t.clientInfos == s.clientInfos && t.clientProviders == s.clientProviders
    && t.models.Keys == s.models.Keys
    && forall id :: id in s.models ==>
         t.models[id] ==
           s.models[id].(quota := t.models[id].quota, suspended := t.models[id].suspended,
           lastUpdated := t.models[id].lastUpdated)
  }

  lemma SameBooksAccounts(entry: Option<Registration>, other: Option<Registration>, total: nat, shares: string -> nat)
    requires Accounts(entry, total, shares)
    requires other.Some? <==> entry.Some?
    requires entry.Some? ==>
      other.value ==
      entry.value.(quota := other.value.quota, suspended := other.value.suspended,
      lastUpdated := other.value.lastUpdated)
    ensures Accounts(other, total, shares)
  {
  }

  lemma SameBooksConsistent(s: State, t: State)
    requires Consistent(s) && SameBooks(s, t)
    ensures Consistent(t)
  {
    forall id
      ensures Accounts(Get(t.models, id), Total(t, id), Shares(t, id))
    {
      hide Accounts, Total, Shares, Balanced, Tidy;
      AccountsAt(s, id);
      SameListsSameShares(t, s, id);
      SameBooksAccounts(Get(s.models, id), Get(t.models, id), Total(s, id), Shares(s, id));
      SameShares(Get(t.models, id), Total(s, id), Shares(s, id), Shares(t, id));
    }
  }

  lemma StepConsistent(s: State, op: Op, now: Time)
    requires Consistent(s)
    ensures Consistent(Step(s, op, now))
  {
    match op
    case Register(c, p, list) => RegisteredConsistent(s, c, ToLower(p), list, now);
    case Unregister(c) => UnregisteredConsistent(s, c, now);
    case _ => {
      hide Consistent;
      SameBooksConsistent(s, Step(s, op, now));
    }
  }

  lemma {:induction false} ReachableConsistent(events: seq<Event>)
    ensures Consistent(Run(events))
  {
    if events == [] {
      assert forall q :: OfProvider(EMPTY, q) == map[];
    } else {
      ReachableConsistent(events[..|events| - 1]);
      StepConsistent(Run(events[..|events| - 1]), events[|events| - 1].op, events[|events| - 1].at);
    }
  }

  // ---------- marks on suppliers ----------

  /** Marks are only set for a client that lists the model. */
  ghost predicate Admissible(s: State, op: Op) {
    match op
    case Exceed(c, id) => c in Suppliers(s, id)
    case Suspend(c, id, _) => c in Suppliers(s, id)
    case _ => true
  }

  ghost predicate AdmissibleRun(events: seq<Event>) {
    events != [] ==>
      var before := events[..|events| - 1];
      AdmissibleRun(before) && Admissible(Run(before), events[|events| - 1].op)
  }

  lemma ReleasedMarks(entry: Option<Registration>, suppliers: set<string>, client: string, provider: string, k: nat,
                      now: Time)
    requires Marked(entry, suppliers) && (client in suppliers <==> k > 0)
    ensures Marked(Released(entry, client, provider, k, now), suppliers - {client})
  {
    hide DropShare;
    DropShareMarks();
  }

  lemma SuppliedMarks(entry: Option<Registration>, suppliers: set<string>, more: set<string>, provider: string,
                      info: ModelInfo, k: nat, now: Time)
    requires Marked(entry, suppliers) && suppliers <= more
    ensures Marked(Supplied(entry, provider, info, k, now), more)
  {
  }

  lemma UnregisteredEntryMarks(s: State, t: State, client: string, now: Time, id: string)
    requires MarksSupplied(s) && client in s.clientModels && t == Unregistered(s, client, now)
    ensures Marked(Get(t.models, id), Suppliers(t, id))
  {
    assert t.clientModels == s.clientModels - {client};
    hide Unregistered, MarksSupplied, Marked;
    assert Suppliers(t, id) == Suppliers(s, id) - {client};
    assert client in Suppliers(s, id) <==> multiset(s.clientModels[client])[id] > 0;
    hide *;
    MarksAt(s, id);
    UnregisteredEntry(s, client, now, id);
    ReleasedMarks(Get(s.models, id), Suppliers(s, id), client, ProviderOf(s, client),
      multiset(s.clientModels[client])[id], now);
  }

  lemma UnregisteredMarks(s: State, client: string, now: Time)
    requires MarksSupplied(s) && Consistent(s)
    ensures MarksSupplied(Unregistered(s, client, now))
  {
    var t := Unregistered(s, client, now);
    UnregisteredTidy(s, client, now);
    if client in s.clientModels {
      forall id
        ensures Marked(Get(t.models, id), Suppliers(t, id))
      {
        hide *;
        UnregisteredEntryMarks(s, t, client, now, id);
      }
    }
  }

  lemma NewClientMarks(s: State, client: string, provider: string, list: seq<Option<ModelInfo>>, now: Time)
    requires MarksSupplied(s) && client !in s.clientModels && RawIds(list) != []
    ensures MarksSupplied(Registered(s, client, provider, list, now))
  {
    var t := Registered(s, client, provider, list, now);
    assert t.models == RegisteredModels(s, client, provider, list, now);
    hide RegisteredModels;
    forall id
      ensures Marked(Get(t.models, id), Suppliers(t, id))
    {
      assert Suppliers(s, id) <= Suppliers(t, id);
      hide Registered, Marked, Suppliers, RawIds, FirstInfos, Supplied;
      MarksAt(s, id);
      NewEntry(s, client, provider, list, now, id);
      if id in FirstInfos(list) {
        SuppliedMarks(Get(s.models, id), Suppliers(s, id), Suppliers(t, id), provider, FirstInfos(list)[id],
          multiset(RawIds(list))[id], now);
      } else {
        MoreMarked(Get(s.models, id), Suppliers(s, id), Suppliers(t, id));
      }
    }
  }

  lemma MoreMarked(entry: Option<Registration>, suppliers: set<string>, more: set<string>)
    requires Marked(entry, suppliers) && suppliers <= more
    ensures Marked(entry, more)
  {
  }

  lemma RegisteredMarks(s: State, client: string, provider: string, list: seq<Option<ModelInfo>>, now: Time)
    requires MarksSupplied(s) && Consistent(s)
    ensures MarksSupplied(Registered(s, client, provider, list, now))
  {
    UnregisteredMarks(s, client, now);
    if RawIds(list) == [] {
      ForgottenInfos(s, client, now);
    } else {
      var u := Unregistered(s, client, now);
      assert client !in u.clientModels;
      hide Consistent, MarksSupplied, Unregistered, Registered;
      NewClientMarks(u, client, provider, list, now);
      SuppliedMarksAreNotStray(s, client, RawIds(list));
      ReregisteringRebuildsExactly(s, client, provider, list, now);
    }
  }

  /** The operations that touch marks only change those of one client of one model, or drop some. */
  lemma MarkingStep(s: State, op: Op, now: Time, id: string)
    requires !op.Register? && !op.Unregister?
    requires Marked(Get(s.models, id), Suppliers(s, id)) && Admissible(s, op)
    ensures Marked(Get(Step(s, op, now).models, id), Suppliers(s, id))
    ensures Step(s, op, now).clientModels == s.clientModels
  {
    hide Suppliers;
  }

  lemma StepMarks(s: State, op: Op, now: Time)
    requires Consistent(s) && MarksSupplied(s) && Admissible(s, op)
    ensures MarksSupplied(Step(s, op, now))
  {
    if op.Register? {
      RegisteredMarks(s, op.client, ToLower(op.provider), op.list, now);
    } else if op.Unregister? {
      UnregisteredMarks(s, op.client, now);
    } else {
      MarkingMarks(s, op, now);
    }
  }

  lemma MarkingMarks(s: State, op: Op, now: Time)
    requires MarksSupplied(s) && Admissible(s, op) && !op.Register? && !op.Unregister?
    ensures MarksSupplied(Step(s, op, now))
  {
    var t := Step(s, op, now);
    forall id
      ensures Marked(Get(t.models, id), Suppliers(t, id))
    {
      hide *;
      MarksAt(s, id);
      MarkingStep(s, op, now, id);
      SameSuppliers(s, t, id);
    }
    hide Step, Marked, Admissible;
  }

  lemma SameSuppliers(s: State, t: State, id: string)
    requires t.clientModels == s.clientModels
    ensures Suppliers(t, id) == Suppliers(s, id)
  {
  }

  /** Marks set for suppliers only keep naming suppliers, whatever happens in between. */
  lemma {:induction false} ReachableMarksSupplied(events: seq<Event>)
    requires AdmissibleRun(events)
    ensures MarksSupplied(Run(events))
  {
    if events != [] {
      var before := events[..|events| - 1];
      ReachableMarksSupplied(before);
      ReachableConsistent(before);
      StepMarks(Run(before), events[|events| - 1].op, events[|events| - 1].at);
    }
  }

  // ---------- what an availability count promises ----------

  ghost predicate ListsOnce(lists: map<string, seq<string>>, id: string) {
    forall c :: c in lists ==> multiset(lists[c])[id] <= 1
  }

  ghost function Listing(lists: map<string, seq<string>>, id: string): set<string> {
    set c | c in lists && id in lists[c]
  }

  lemma ListingSplit(lists: map<string, seq<string>>, c: string, id: string)
    requires c in lists
    ensures c !in Listing(lists - {c}, id)
    ensures Listing(lists, id) == if id in lists[c] then Listing(lists - {c}, id) + {c} else Listing(lists - {c}, id)
  {
  }

  lemma {:induction false} SupplyCountsClients(lists: map<string, seq<string>>, id: string)
    requires ListsOnce(lists, id)
    ensures Supply(lists)[id] == |Listing(lists, id)|
    decreases |lists|
  {
    if lists == map[] {
      assert Listing(lists, id) == {};
    } else {
      var c :| c in lists;
      SupplySplit(lists, c);
      SupplyCountsClients(lists - {c}, id);
      ListingSplit(lists, c, id);
      assert id in lists[c] <==> multiset(lists[c])[id] == 1;
      hide Supply, Listing;
    }
  }

  /** Suppliers that are neither suspended nor inside their quota window. */
  ghost function FreeSuppliers(s: State, id: string, now: Time): set<string>
    requires id in s.models
  {
    Suppliers(s, id) - Cooling(s.models[id].quota, now) - s.models[id].suspended.Keys
  }

  lemma SizeWithout(all: set<string>, first: set<string>, second: set<string>)
    requires first <= all && second <= all
    ensures |all - first - second| == |all| - |first| - |second| + |first * second|
  {
    assert all - first - second == all - (first + second);
    assert all == (all - (first + second)) + (first + second);
    assert |first + second| == |first| + |second| - |first * second|;
  }

  /**
   * A positive count means a free supplier exists. The count is exact if and only if no client is
   * both suspended and cooling down, or nobody is free: such a client is subtracted twice.
   */
  lemma AvailableMeansFree(s: State, id: string, now: Time)
    requires Consistent(s) && MarksSupplied(s) && id in s.models && ListsOnce(s.clientModels, id)
    ensures Available(s, id, now) > 0 ==> exists c :: c in FreeSuppliers(s, id, now)
    ensures Available(s, id, now) <= |FreeSuppliers(s, id, now)|
    ensures Available(s, id, now) == |FreeSuppliers(s, id, now)| <==>
            Cooling(s.models[id].quota, now) !! s.models[id].suspended.Keys || FreeSuppliers(s, id, now) == {}
  {
    var free := FreeSuppliers(s, id, now);
    var twice := Cooling(s.models[id].quota, now) * s.models[id].suspended.Keys;
    SupplierCount(s, id, now);
    hide *;
    assert |free| == 0 <==> free == {};
    assert |twice| == 0 <==> twice == {};
    if |free| > 0 {
      var c :| c in free;
    }
  }

  lemma CountIsSuppliers(s: State, id: string)
    requires Consistent(s) && id in s.models && ListsOnce(s.clientModels, id)
    ensures s.models[id].count == |Suppliers(s, id)|
  {
    SupplyCountsClients(s.clientModels, id);
    AccountsAt(s, id);
    assert Listing(s.clientModels, id) == Suppliers(s, id);
    hide Consistent, Supply, Suppliers, Shares, Listing;
  }

  lemma FreeSize(s: State, id: string, now: Time)
    requires MarksSupplied(s) && id in s.models
    ensures |FreeSuppliers(s, id, now)| ==
      |Suppliers(s, id)| - |Cooling(s.models[id].quota, now)| - |s.models[id].suspended.Keys|
                                           + |Cooling(s.models[id].quota, now) * s.models[id].suspended.Keys|
  {
    MarksAt(s, id);
    hide Suppliers;
    SizeWithout(Suppliers(s, id), Cooling(s.models[id].quota, now), s.models[id].suspended.Keys);
  }

  lemma AvailableSize(s: State, id: string, now: Time)
    requires id in s.models
    ensures Available(s, id, now) ==
      Max(0, s.models[id].count - |Cooling(s.models[id].quota, now)| - |s.models[id].suspended.Keys|)
  {
    hide Cooling;
  }

  lemma SupplierCount(s: State, id: string, now: Time)
    requires Consistent(s) && MarksSupplied(s) && id in s.models && ListsOnce(s.clientModels, id)
    ensures Available(s, id, now) ==
            Max(0, |FreeSuppliers(s, id, now)| - |Cooling(s.models[id].quota, now) * s.models[id].suspended.Keys|)
  {
    hide *;
    AvailableSize(s, id, now);
    FreeSize(s, id, now);
    CountIsSuppliers(s, id);
  }

  /** In a run where clients list a model once and marks name suppliers, a count is never optimistic. */
  lemma ReachableAvailable(events: seq<Event>, id: string, now: Time)
    requires AdmissibleRun(events) && ListsOnce(Run(events).clientModels, id) && Available(Run(events), id, now) > 0
    ensures exists c :: c in FreeSuppliers(Run(events), id, now)
  {
    ReachableConsistent(events);
    ReachableMarksSupplied(events);
    AvailableMeansFree(Run(events), id, now);
  }

  // ---------- sweeps of expired quota marks change no answer ----------

  /** `q` is `m` without some marks that have expired by `now`. */
  ghost predicate SweptMarks(m: map<string, Time>, q: map<string, Time>, now: Time) {
    && (forall c :: c in q ==> c in m && m[c] == q[c])
    && (forall c :: c in m && c !in q ==> now - m[c] >= QUOTA_WINDOW)
  }

  ghost predicate SweptEntry(e: Option<Registration>, f: Option<Registration>, now: Time) {
    && (e.Some? <==> f.Some?)
    && (e.Some? ==> f.value == e.value.(quota := f.value.quota) && SweptMarks(e.value.quota, f.value.quota, now))
  }

  /** `t` is `s` after some sweeps. */
  ghost predicate Swept(s: State, t: State, now: Time) {
    && t.clientModels == s.clientModels && t.clientInfos == s.clientInfos && t.clientProviders == s.clientProviders
    && forall id :: SweptEntry(Get(s.models, id), Get(t.models, id), now)
  }

  lemma SweptReleased(e: Option<Registration>, f: Option<Registration>, client: string, provider: string, k: nat,
                      now: Time)
    requires SweptEntry(e, f, now)
    ensures SweptEntry(Released(e, client, provider, k, now), Released(f, client, provider, k, now), now)
  {
    DropShareMarks();
  }

  lemma SweptSupplied(e: Option<Registration>, f: Option<Registration>, provider: string, info: ModelInfo, k: nat,
                      now: Time)
    requires SweptEntry(e, f, now)
    ensures SweptEntry(Supplied(e, provider, info, k, now), Supplied(f, provider, info, k, now), now)
  {
  }

  lemma SweptReconciled(e: Option<Registration>, f: Option<Registration>, client: string, oldProvider: string,
                        provider: string, a: nat, b: nat,
                        info: Option<ModelInfo>, now: Time)
    requires SweptEntry(e, f, now) && (b > 0 ==> info.Some?)
    ensures SweptEntry(Reconciled(e, client, oldProvider, provider, a, b, info, now),
      Reconciled(f, client, oldProvider, provider, a, b, info, now), now)
  {
    var e1, f1 := Stage1(e, oldProvider, provider, a, b), Stage1(f, oldProvider, provider, a, b);
    assert SweptEntry(e1, f1, now);
    var e2, f2 := Stage2(e, client, oldProvider, provider, a, b, now),
      Stage2(f, client, oldProvider, provider, a, b, now);
    var e3, f3 := Stage3(e, client, oldProvider, provider, a, b, now),
      Stage3(f, client, oldProvider, provider, a, b, now);
    var e4, f4 := Stage4(e, client, oldProvider, provider, a, b, info, now),
      Stage4(f, client, oldProvider, provider, a, b, info, now);
    hide Released, Supplied, DropShare, Stage1, SweptEntry, Refreshed;
    SweptReleased(e1, f1, client, oldProvider, a, now);
    if a >= b {
      SweptReleased(e2, f2, client, oldProvider, a - b, now);
    }
    assert SweptEntry(e3, f3, now);
    hide Stage3;
    if b > 0 {
      if a < b {
        SweptSupplied(e3, f3, provider, info.value, b - a, now);
      }
      SweptRefreshed(e4, f4, client, provider, info.value, if oldProvider != provider then Min(a, b) else 0, now);
    }
  }

  lemma SweptRefreshed(e: Option<Registration>, f: Option<Registration>, client: string, provider: string,
                       info: ModelInfo, credit: nat, now: Time)
    requires SweptEntry(e, f, now)
    ensures SweptEntry(Refreshed(e, client, provider, info, credit, now),
      Refreshed(f, client, provider, info, credit, now), now)
  {
  }

  lemma SweptLater(s: State, t: State, now: Time, later: Time)
    requires Swept(s, t, now) && now <= later
    ensures Swept(s, t, later)
  {
    forall id
      ensures SweptEntry(Get(s.models, id), Get(t.models, id), later)
    {
      assert SweptEntry(Get(s.models, id), Get(t.models, id), now);
    }
  }

  lemma SweptUnregistered(s: State, t: State, client: string, now: Time)
    requires Swept(s, t, now)
    ensures Swept(Unregistered(s, client, now), Unregistered(t, client, now), now)
  {
    if client in s.clientModels {
      var s', t' := Unregistered(s, client, now), Unregistered(t, client, now);
      forall id
        ensures SweptEntry(Get(s'.models, id), Get(t'.models, id), now)
      {
        assert SweptEntry(Get(s.models, id), Get(t.models, id), now);
        assert ProviderOf(s, client) == ProviderOf(t, client);
        assert s.clientModels == t.clientModels;
        hide *;
        UnregisteredEntry(s, client, now, id);
        UnregisteredEntry(t, client, now, id);
        SweptReleased(Get(s.models, id), Get(t.models, id), client, ProviderOf(s, client),
          multiset(s.clientModels[client])[id], now);
      }
    }
  }

  lemma SweptRegisteredEntry(s: State, t: State, client: string, provider: string, list: seq<Option<ModelInfo>>,
                             now: Time, id: string)
    requires Swept(s, t, now)
    ensures SweptEntry(Get(RegisteredModels(s, client, provider, list, now), id),
      Get(RegisteredModels(t, client, provider, list, now), id), now)
  {
    assert SweptEntry(Get(s.models, id), Get(t.models, id), now);
    assert ProviderOf(s, client) == ProviderOf(t, client);
    assert s.clientModels == t.clientModels;
    hide *;
    var infos := FirstInfos(list);
    if client in s.clientModels {
      OldEntry(s, client, provider, list, now, id);
      OldEntry(t, client, provider, list, now, id);
      assert id in infos ==> InfoOf(infos, id).Some? by {
        InfoOfListed(infos, id);
      }
      SweptReconciled(Get(s.models, id), Get(t.models, id), client, ProviderOf(s, client), provider,
                      multiset(s.clientModels[client])[id], multiset(RawIds(list))[id], InfoOf(infos, id), now);
    } else {
      NewEntry(s, client, provider, list, now, id);
      NewEntry(t, client, provider, list, now, id);
      if id in infos {
        SweptSupplied(Get(s.models, id), Get(t.models, id), provider, infos[id], multiset(RawIds(list))[id], now);
      }
    }
  }

  lemma InfoOfListed(infos: map<string, ModelInfo>, id: string)
    ensures id in infos <==> InfoOf(infos, id).Some?
  {
  }

  lemma SweptRegistered(s: State, t: State, client: string, provider: string, list: seq<Option<ModelInfo>>, now: Time)
    requires Swept(s, t, now)
    ensures Swept(Registered(s, client, provider, list, now), Registered(t, client, provider, list, now), now)
  {
    SweptUnregistered(s, t, client, now);
    hide Unregistered, RegisteredModels, RawIds, FirstInfos, SweptEntry;
    forall id {
      SweptRegisteredEntry(s, t, client, provider, list, now, id);
    }
  }

  lemma SweptMarksKept(m: map<string, Time>, q: map<string, Time>, client: string, now: Time)
    requires SweptMarks(m, q, now)
    ensures SweptMarks(m[client := now], q[client := now], now)
    ensures SweptMarks(m - {client}, q - {client}, now)
    ensures SweptMarks(map c | c in m && now - m[c] < QUOTA_WINDOW :: m[c], map c | c in q
      && now - q[c] < QUOTA_WINDOW :: q[c], now)
  {
  }

  /** What a marking operation does to the entry it names; a cleanup names every entry. */
  ghost function Remarked(e: Option<Registration>, op: Op, now: Time): Option<Registration> {
    if e.None? then None
    else
      var r := e.value;
      match op
      case Exceed(c, _) => Some(r.(quota := r.quota[c := now]))
      case Clear(c, _) => Some(r.(quota := r.quota - {c}))
      case Suspend(c, id, reason) =>
        if c == "" || id == "" || c in r.suspended
          then e else Some(r.(suspended := r.suspended[c := reason], lastUpdated := now))
      case Resume(c, id) =>
        if c == "" || id == "" || c !in r.suspended
          then e else Some(r.(suspended := r.suspended - {c}, lastUpdated := now))
      case _ => Some(Fresh(r, now))
  }

  lemma MarkingEntry(s: State, op: Op, now: Time, id: string)
    requires !op.Register? && !op.Unregister?
    ensures Get(Step(s, op, now).models, id)
         == if op.Cleanup? || op.id == id then Remarked(Get(s.models, id), op, now) else Get(s.models, id)
  {
  }

  lemma SweptRemarked(e: Option<Registration>, f: Option<Registration>, op: Op, now: Time)
    requires !op.Register? && !op.Unregister?
    requires SweptEntry(e, f, now)
    ensures SweptEntry(Remarked(e, op, now), Remarked(f, op, now), now)
  {
    if e.Some? {
      SweptMarksKept(e.value.quota, f.value.quota, if op.Cleanup? then "" else op.client, now);
      hide SweptMarks;
    }
  }

  lemma SweptMarking(s: State, t: State, op: Op, now: Time, id: string)
    requires !op.Register? && !op.Unregister?
    requires SweptEntry(Get(s.models, id), Get(t.models, id), now)
    ensures SweptEntry(Get(Step(s, op, now).models, id), Get(Step(t, op, now).models, id), now)
  {
    hide *;
    MarkingEntry(s, op, now, id);
    MarkingEntry(t, op, now, id);
    SweptRemarked(Get(s.models, id), Get(t.models, id), op, now);
  }

  lemma SweptStep(s: State, t: State, op: Op, now: Time)
    requires Swept(s, t, now)
    ensures Swept(Step(s, op, now), Step(t, op, now), now)
  {
    if op.Register? {
      SweptRegistered(s, t, op.client, ToLower(op.provider), op.list, now);
    } else if op.Unregister? {
      SweptUnregistered(s, t, op.client, now);
    } else {
      hide SweptEntry;
      forall id
        ensures SweptEntry(Get(Step(s, op, now).models, id), Get(Step(t, op, now).models, id), now)
      {
        hide Step;
        SweptMarking(s, t, op, now, id);
      }
    }
  }

  lemma SweptCleaned(s: State, t: State, now: Time)
    requires Swept(s, t, now)
    ensures Swept(s, Cleaned(t, now), now)
  {
    forall id
      ensures SweptEntry(Get(s.models, id), Get(Cleaned(t, now).models, id), now)
    {
      assert SweptEntry(Get(s.models, id), Get(t.models, id), now);
    }
  }

  lemma SweptAvailable(s: State, t: State, id: string, now: Time)
    requires Swept(s, t, now)
    ensures Available(s, id, now) == Available(t, id, now)
  {
    assert SweptEntry(Get(s.models, id), Get(t.models, id), now);
    if id in s.models {
      assert Cooling(s.models[id].quota, now) == Cooling(t.models[id].quota, now);
    }
  }

  ghost predicate Timed(events: seq<Event>, until: Time) {
    events != [] ==>
      var last := events[|events| - 1];
      last.at <= until && Timed(events[..|events| - 1], last.at)
  }

  /** The run without its sweeps. */
  ghost function Unswept(events: seq<Event>): seq<Event> {
    if events == [] then []
    else
      var last := events[|events| - 1];
      Unswept(events[..|events| - 1]) + if last.op.Cleanup? then [] else [last]
  }

  lemma {:induction false} RunSwept(events: seq<Event>, now: Time)
    requires Timed(events, now)
    ensures Swept(Run(Unswept(events)), Run(events), now)
  {
    if events != [] {
      var before, last := events[..|events| - 1], events[|events| - 1];
      RunSwept(before, last.at);
      if last.op.Cleanup? {
        SweptCleaned(Run(Unswept(before)), Run(before), last.at);
        assert Unswept(events) == Unswept(before);
      } else {
        SweptStep(Run(Unswept(before)), Run(before), last.op, last.at);
        assert Unswept(events) == Unswept(before) + [last];
        assert Run(Unswept(events)) == Step(Run(Unswept(before)), last.op, last.at) by {
          assert Unswept(events)[..|Unswept(events)| - 1] == Unswept(before);
        }
      }
      SweptLater(Run(Unswept(events)), Run(events), last.at, now);
    }
  }

  /** Sweeping expired quota marks, at any points of a run, never changes a later availability count. */
  lemma SweepsAreInvisible(events: seq<Event>, id: string, now: Time)
    requires Timed(events, now)
    ensures Available(Run(events), id, now) == Available(Run(Unswept(events)), id, now)
  {
    RunSwept(events, now);
    SweptAvailable(Run(Unswept(events)), Run(events), id, now);
  }

  /** In such a run every re-registration is, marks included, an unregistration and a fresh registration. */
  lemma ReachableReregistration(events: seq<Event>, client: string, provider: string, list: seq<Option<ModelInfo>>,
                                now: Time)
    requires AdmissibleRun(events)
    ensures var s := Run(events);
      Step(s, Register(client, provider, list), now) ==
        Step(Step(s, Unregister(client), now), Register(client, provider, list), now)
  {
    ReachableConsistent(events);
    ReachableMarksSupplied(events);
    SuppliedMarksAreNotStray(Run(events), client, RawIds(list));
    ReregisteringRebuildsExactly(Run(events), client, ToLower(provider), list, now);
  }
}
