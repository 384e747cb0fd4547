/** Runs of the registry that fall outside the conditions of its laws: none of the conditions is idle. */
module RegistryExamples {
  import opened Wrappers
  import opened RegistryState
  import opened RegistryTheorems
  import opened RegistryRecount
  import opened RegistryRuns
  import opened Text

  function Model(id: string): Option<ModelInfo> {
    Some(ModelInfo(id, "", ""))
  }

  lemma RunMore(events: seq<Event>, e: Event)
    ensures Run(events + [e]) == Step(Run(events), e.op, e.at)
  {
    assert (events + [e])[..|events|] == events;
  }

  lemma OneId(id: string)
    requires id != ""
    ensures RawIds([Model(id)]) == [id]
  {
    assert [Model(id)][..0] == [];
  }

  lemma TwoIds(first: string, second: string)
    requires first != "" && second != ""
    ensures RawIds([Model(first), Model(second)]) == [first, second]
  {
    assert [Model(first), Model(second)][..1] == [Model(first)];
    OneId(first);
  }

  /** A listed model is in the books. */
  lemma ListedIsKnown(events: seq<Event>, client: string, id: string)
    requires client in Run(events).clientModels && id in Run(events).clientModels[client]
    ensures id in Run(events).models
  {
    var s := Run(events);
    ReachableConsistent(events);
    AccountsAt(s, id);
    SupplySplit(s.clientModels, client);
    hide Consistent, Run, Shares, Supply;
  }

  ghost function Quota(s: State, id: string): map<string, Time> {
    if id in s.models then s.models[id].quota else map[]
  }

  ghost function Reasons(s: State, id: string): map<string, string> {
    if id in s.models then s.models[id].suspended else map[]
  }

  /** A new client lists one model and leaves its marks alone. */
  lemma Registers(events: seq<Event>, client: string, provider: string, id: string)
    requires id != "" && client !in Run(events).clientModels
    ensures var s, t := Run(events), Run(events + [Event(Register(client, provider, [Model(id)]), 0)]);
            && t.clientModels == s.clientModels[client := [id]]
            && (ToLower(provider) != "" ==> t.clientProviders == s.clientProviders[client := ToLower(provider)])
            && Quota(t, id) == Quota(s, id) && Reasons(t, id) == Reasons(s, id)
  {
    RunMore(events, Event(Register(client, provider, [Model(id)]), 0));
    hide Run, Registered, RawIds, Quota, Reasons, ToLower;
    RegistersNew(Run(events), client, ToLower(provider), id);
  }

  lemma RegistersNew(s: State, client: string, provider: string, id: string)
    requires id != "" && client !in s.clientModels
    ensures var t := Registered(s, client, provider, [Model(id)], 0);
            && t.clientModels == s.clientModels[client := [id]]
            && (provider != "" ==> t.clientProviders == s.clientProviders[client := provider])
            && Quota(t, id) == Quota(s, id) && Reasons(t, id) == Reasons(s, id)
  {
    OneId(id);
    NewEntry(s, client, provider, [Model(id)], 0, id);
    hide RegisteredModels, FirstInfos, RawIds;
  }

  lemma Exceeds(events: seq<Event>, client: string, id: string)
    requires id in Run(events).models
    ensures var s, t := Run(events), Run(events + [Event(Exceed(client, id), 0)]);
            && t.clientModels == s.clientModels && id in t.models
            && Quota(t, id) == Quota(s, id)[client := 0] && Reasons(t, id) == Reasons(s, id)
  {
    RunMore(events, Event(Exceed(client, id), 0));
    hide Run;
  }

  lemma Suspends(events: seq<Event>, client: string, id: string)
    requires id in Run(events).models && client != "" && id != "" && client !in Reasons(Run(events), id)
    ensures var s, t := Run(events), Run(events + [Event(Suspend(client, id, "quota"), 0)]);
            && t.clientModels == s.clientModels && id in t.models
            && Quota(t, id) == Quota(s, id) && Reasons(t, id) == Reasons(s, id)[client := "quota"]
  {
    RunMore(events, Event(Suspend(client, id, "quota"), 0));
    hide Run;
  }

  lemma NothingRun()
    ensures Run([]) == EMPTY && AdmissibleRun([])
  {
  }

  lemma AdmitsMore(events: seq<Event>, e: Event)
    requires AdmissibleRun(events) && Admissible(Run(events), e.op)
    ensures AdmissibleRun(events + [e])
  {
    assert (events + [e])[..|events|] == events;
    hide Run, Admissible;
  }

  // ---------- stray marks ----------

  const LISTED := [Event(Register("a", "p", [Model("m1")]), 0)]
  const BOTH := LISTED + [Event(Register("b", "p", [Model("m2")]), 0)]
  const STRAY := BOTH + [Event(Exceed("b", "m1"), 0)]

  /** A client marked on a model it does not list loses the mark when it adds the model, but not in a rebuild. */
  lemma StrayMarkTellsApart()
    ensures var s, list := Run(STRAY), [Model("m2"), Model("m1")];
            Registered(s, "b", "p", list, 1) != Rebuild(s, "b", "p", list, 1)
  {
    hide Run, Registered, Rebuild, RawIds, NoStrayMarksOn, Consistent, Model, Quota, Reasons, ToLower;
    NothingRun();
    assert LISTED == [] + LISTED;
    Registers([], "a", "p", "m1");
    Registers(LISTED, "b", "p", "m2");
    ListedIsKnown(BOTH, "a", "m1");
    Exceeds(BOTH, "b", "m1");
    ReachableConsistent(STRAY);
    TwoIds("m2", "m1");
    MarkIsStray(Run(STRAY));
    ReregisteringRebuildsExactly(Run(STRAY), "b", "p", [Model("m2"), Model("m1")], 1);
  }

  lemma MarkIsStray(s: State)
    requires "b" in s.clientModels && s.clientModels["b"] == ["m2"]
    requires "m1" in s.models && "b" in Quota(s, "m1")
    ensures !NoStrayMarksOn(s, "b", ["m2", "m1"])
  {
    assert multiset(["m2"])["m1"] == 0;
    assert "m1" in ["m2", "m1"];
    assert "b" !in MarksWithout(Some(s.models["m1"]), "b").0;
    assert !NoStrayMarks(Get(s.models, "m1"), "b", 0);
  }

  // ---------- ids that are not trimmed ----------

  const UNTRIMMED := [Event(Register("a", "p", [Model(" m")]), 0)]

  /** A listed id with a space in front is cached as it is, but recounted without the space. */
  lemma UntrimmedIsRecountedElsewhere()
    ensures exists id :: Recount(Run(UNTRIMMED), "p")[id] != CachedShare(Run(UNTRIMMED), id, "p")
  {
    hide Run, Recount, CachedShare, OfProvider, AllTrimmed, Consistent, Model, Quota, Reasons, ToLower;
    var s := Run(UNTRIMMED);
    NothingRun();
    assert UNTRIMMED == [] + UNTRIMMED;
    Registers([], "a", "p", " m");
    LowerP();
    ReachableConsistent(UNTRIMMED);
    NotTrimmed(s);
    RecountMatchesCache(s, "p");
  }

  lemma NotTrimmed(s: State)
    requires "a" in s.clientModels && s.clientModels["a"] == [" m"]
    requires "a" in s.clientProviders && s.clientProviders["a"] == "p"
    ensures !AllTrimmed(OfProvider(s, "p"))
  {
    assert TrimSpace(" m") != " m";
    assert "a" in OfProvider(s, "p") && " m" in OfProvider(s, "p")["a"];
    hide TrimSpace;
  }

  lemma LowerP()
    ensures ToLower("p") == "p"
  {
  }

  // ---------- clients subtracted twice ----------

  const FIRST := [Event(Register("a", "p", [Model("m")]), 0)]
  const SECOND := FIRST + [Event(Register("b", "p", [Model("m")]), 0)]
  const COOLING := SECOND + [Event(Exceed("a", "m"), 0)]
  const TWICE := COOLING + [Event(Suspend("a", "m", "quota"), 0)]

  lemma TwiceState()
    ensures var s := Run(TWICE);
            && AdmissibleRun(TWICE) && s.clientModels == map["a" := ["m"], "b" := ["m"]] && "m" in s.models
            && Quota(s, "m") == map["a" := 0] && Reasons(s, "m") == map["a" := "quota"]
  {
    hide Run, AdmissibleRun, Admissible, Model, Quota, Reasons, ToLower;
    NothingRun();
    assert FIRST == [] + FIRST;
    Registers([], "a", "p", "m");
    Unmarked();
    Registers(FIRST, "b", "p", "m");
    ListedIsKnown(SECOND, "a", "m");
    Exceeds(SECOND, "a", "m");
    Suspends(COOLING, "a", "m");
    Allowed(Run([]), FIRST[0].op);
    AdmitsMore([], FIRST[0]);
    Allowed(Run(FIRST), Register("b", "p", [Model("m")]));
    AdmitsMore(FIRST, Event(Register("b", "p", [Model("m")]), 0));
    Allowed(Run(SECOND), Exceed("a", "m"));
    AdmitsMore(SECOND, Event(Exceed("a", "m"), 0));
    Allowed(Run(COOLING), Suspend("a", "m", "quota"));
    AdmitsMore(COOLING, Event(Suspend("a", "m", "quota"), 0));
  }

  lemma Unmarked()
    ensures Quota(EMPTY, "m") == map[] && Reasons(EMPTY, "m") == map[]
  {
  }

  lemma Allowed(s: State, op: Op)
    requires op.Exceed? || op.Suspend? ==> op.client in s.clientModels && op.id in s.clientModels[op.client]
    ensures Admissible(s, op)
  {
  }

  /** With one of two clients both cooling down and suspended, the count misses that the other one is free. */
  lemma FreeClientIsMissed()
    ensures AdmissibleRun(TWICE) && "m" in Run(TWICE).models && FreeSuppliers(Run(TWICE), "m", 0) != {}
    ensures Available(Run(TWICE), "m", 0) < |FreeSuppliers(Run(TWICE), "m", 0)|
  {
    hide *;
    TwiceState();
    ReachableConsistent(TWICE);
    ReachableMarksSupplied(TWICE);
    OtherIsFree(Run(TWICE));
    AvailableMeansFree(Run(TWICE), "m", 0);
  }

  lemma OtherIsFree(s: State)
    requires s.clientModels == map["a" := ["m"], "b" := ["m"]] && "m" in s.models
    requires Quota(s, "m") == map["a" := 0] && Reasons(s, "m") == map["a" := "quota"]
    ensures ListsOnce(s.clientModels, "m") && FreeSuppliers(s, "m", 0) != {}
    ensures !(Cooling(s.models["m"].quota, 0) !! s.models["m"].suspended.Keys)
  {
    assert multiset(["m"])["m"] == 1;
    assert "b" in Suppliers(s, "m") && "b" in FreeSuppliers(s, "m", 0);
    assert "a" in Cooling(s.models["m"].quota, 0) && "a" in s.models["m"].suspended.Keys;
  }
}
