/**
 * The merge of persisted details on maps and detail arrays in the heap (internal/usage/detail_query.go), proved to
 * compute the merged snapshot, to write nothing of the base and to share nothing with it.
 */
module UsageMerge {
  import opened Sorting
  import opened Usage

  // ---------- slices ----------

  method CopySlice(a: array<Detail>) returns (r: array<Detail>)
    ensures fresh(r) && r[..] == a[..]
  {
    r := new Detail[a.Length](i requires 0 <= i < a.Length reads a => a[i]);
  }

  method AppendSlice(a: array<Detail>, d: Detail) returns (r: array<Detail>)
    ensures fresh(r) && r[..] == a[..] + [d]
  {
    r := new Detail[a.Length + 1](i requires 0 <= i <= a.Length reads a => if i < a.Length then a[i] else d);
  }

  method SortInPlace(a: array<Detail>)
    modifies a
    ensures Shuffled(old(a[..]), a[..])
  {
    var sorted := SortSlice(a[..], Earlier);
    SameElements(sorted, a[..]);
    forall i | 0 <= i < a.Length {
      a[i] := sorted[i];
    }
    assert a[..] == sorted;
  }

  // ---------- the models of an API ----------

  datatype Slot = Slot(requests: int, tokens: int, details: array<Detail>)
  {
    ghost function Value(): Model
      reads details
    {
      Model(requests, tokens, details[..])
    }
  }

  class ModelTable {
    var slots: map<string, Slot>

    ghost function Arrays(): set<array<Detail>>
      reads this
    {
      set m | m in slots :: slots[m].details
    }

    ghost function Value(): map<string, Model>
      reads this, Arrays()
    {
      map m | m in slots :: slots[m].Value()
    }

    /** No two models share their details. */
    ghost predicate Separate()
      reads this
    {
      forall m, n :: m in slots && n in slots && m != n ==> slots[m].details != slots[n].details
    }

    constructor ()
      ensures slots == map[]
    {
      slots := map[];
    }

    constructor CopyOf(from: ModelTable)
      ensures fresh(Arrays()) && Separate() && Value() == from.Value()
    {
      slots := map[];
      new;
      var todo := from.slots.Keys;
      while todo != {}
        invariant todo <= from.slots.Keys && slots.Keys == from.slots.Keys - todo
        invariant fresh(Arrays()) && Separate()
        invariant forall m :: m in slots ==> slots[m].Value() == from.slots[m].Value()
      {
        var m :| m in todo;
        ghost var before := Arrays();
        var details := CopySlice(from.slots[m].details);
        slots := slots[m := from.slots[m].(details := details)];
        todo := todo - {m};
        assert Arrays() <= before + {details};
      }
    }

    method SlotFor(model: string) returns (slot: Slot)
      ensures slot.Value() == if model in old(Value()) then old(Value())[model] else Model(0, 0, [])
    {
      if model in slots {
        slot := slots[model];
      } else {
        var none := new Detail[0];
        slot := Slot(0, 0, none);
      }
    }

    method Add(model: string, detail: Detail)
      requires Separate()
      modifies this
      ensures Separate() && fresh(Arrays() - old(Arrays()))
      ensures Value() == old(Value())[model := WithDetail(old(Value()), model, detail)]
    {
      var slot := SlotFor(model);
      var details := AppendSlice(slot.details, detail);
      slots := slots[model := slot.(details := details)];
    }

    method SortAll()
      requires Separate()
      modifies Arrays()
      ensures SortedModels(old(Value()), Value())
    {
      var todo := slots.Keys;
      while todo != {}
        invariant todo <= slots.Keys
        invariant forall m :: m in todo ==> slots[m].details[..] == old(slots[m].details[..])
        invariant forall m :: m in slots && m !in todo ==> Shuffled(old(slots[m].details[..]), slots[m].details[..])
      {
        var m :| m in todo;
        SortInPlace(slots[m].details);
        todo := todo - {m};
      }
    }
  }

  /** The model with one more detail. */
  ghost function WithDetail(models: map<string, Model>, model: string, detail: Detail): Model {
    var before := if model in models then models[model] else Model(0, 0, []);
    before.(details := before.details + [detail])
  }

  /** An API's entry; its map of models may be nil. */
  datatype ApiSlot = ApiSlot(requests: int, tokens: int, models: ModelTable?)
  {
    ghost function Arrays(): set<array<Detail>>
      reads models
    {
      if models == null then {} else models.Arrays()
    }

    ghost function Models(): map<string, Model>
      reads models, Arrays()
    {
      if models == null then map[] else models.Value()
    }

    ghost function Value(): Api
      reads models, Arrays()
    {
      Api(requests, tokens, Models())
    }

    ghost predicate Separate()
      reads models
    {
      models != null ==> models.Separate()
    }
  }

  // ---------- the APIs ----------

  ghost function Tables(apis: map<string, ApiSlot>): set<ModelTable> {
    set a | a in apis && apis[a].models != null :: apis[a].models
  }

  ghost function Arrays(tables: set<ModelTable>): set<array<Detail>>
    reads tables
  {
    set t, x | t in tables && x in t.Arrays() :: x
  }

  ghost function Apis(apis: map<string, ApiSlot>): (r: map<string, Api>)
    reads Tables(apis), Arrays(Tables(apis))
    ensures r.Keys == apis.Keys
  {
    map a | a in apis :: (assert apis[a].models != null ==> apis[a].models in Tables(apis); apis[a].Value())
  }

  /** No two APIs share their models, and no two models their details. */
  ghost predicate Separate(apis: map<string, ApiSlot>)
    reads Tables(apis)
  {
    && (forall t :: t in Tables(apis) ==> t.Separate())
    && (forall a, b :: a in apis && b in apis && a != b && apis[a].models != null ==> apis[a].models != apis[b].models)
    && (forall t, u :: t in Tables(apis) && u in Tables(apis) && t != u ==> t.Arrays() !! u.Arrays())
  }

  /** The models of one entry, as a set. */
  ghost function TableOf(slot: ApiSlot): set<ModelTable> {
    if slot.models == null then {} else {slot.models}
  }

  lemma TablesWith(apis: map<string, ApiSlot>, k: string, slot: ApiSlot)
    ensures Tables(apis[k := slot]) == Tables(apis - {k}) + TableOf(slot)
  {
    var now, rest := apis[k := slot], apis - {k};
    forall t | t in Tables(now)
      ensures t in Tables(rest) + TableOf(slot)
    {
      var a :| a in now && now[a].models == t;
      assert a != k ==> a in rest && rest[a].models == t;
    }
    forall t | t in Tables(rest)
      ensures t in Tables(now)
    {
      var a :| a in rest && rest[a].models == t;
      assert a in now && now[a].models == t;
    }
    assert slot.models != null ==> now[k].models == slot.models;
  }

  lemma ArraysWith(tables: set<ModelTable>, slot: ApiSlot)
    ensures Arrays(tables + TableOf(slot)) == Arrays(tables) + slot.Arrays()
  {
    var all := tables + TableOf(slot);
    assert forall t :: t in all <==> t in tables || t in TableOf(slot);
  }

  lemma SeparateWith(apis: map<string, ApiSlot>, k: string, slot: ApiSlot)
    requires Separate(apis - {k})
    requires slot.models != null ==>
      && slot.models.Separate() && slot.models !in Tables(apis - {k})
      && forall t :: t in Tables(apis - {k}) ==> t.Arrays() !! slot.models.Arrays()
    ensures Separate(apis[k := slot])
  {
    TablesWith(apis, k, slot);
    var now := apis[k := slot];
    assert now[k] == slot && forall a :: a in apis - {k} ==> now[a] == (apis - {k})[a];
    assert forall a :: a in apis - {k} && apis[a].models != null ==> (apis - {k})[a].models in Tables(apis - {k});
    hide Tables;
  }

  lemma SeparateWithout(apis: map<string, ApiSlot>, k: string)
    requires Separate(apis)
    ensures Tables(apis - {k}) <= Tables(apis) && Arrays(Tables(apis - {k})) <= Arrays(Tables(apis))
    ensures Separate(apis - {k})
    ensures k in apis && apis[k].models != null ==>
      && apis[k].models in Tables(apis) && apis[k].Separate() && apis[k].models !in Tables(apis - {k})
      && forall t :: t in Tables(apis - {k}) ==> t.Arrays() !! apis[k].models.Arrays()
    ensures k in apis ==> apis[k].Arrays() <= Arrays(Tables(apis))
  {
  }

  lemma ApisWith(apis: map<string, ApiSlot>, k: string, slot: ApiSlot)
    ensures Apis(apis[k := slot]) == Apis(apis - {k})[k := slot.Value()]
  {
  }

  /** What a new entry under `k` makes of the map. */
  lemma EntryPut(apis: map<string, ApiSlot>, k: string, slot: ApiSlot)
    requires Separate(apis - {k}) && slot.Separate() && TableOf(slot) !! Tables(apis - {k})
    requires forall t :: t in Tables(apis - {k}) ==> t.Arrays() !! slot.Arrays()
    ensures var now := apis[k := slot];
      && Separate(now) && Apis(now) == Apis(apis - {k})[k := slot.Value()]
      && Tables(now) == Tables(apis - {k}) + TableOf(slot)
      && Arrays(Tables(now)) == Arrays(Tables(apis - {k})) + slot.Arrays()
  {
    TablesWith(apis, k, slot);
    ArraysWith(Tables(apis - {k}), slot);
    ApisWith(apis, k, slot);
    hide Tables, Arrays, Apis, Separate;
    SeparateWith(apis, k, slot);
  }

  /** Entries whose objects are not written mean the same as before. */
  twostate lemma Framed(apis: map<string, ApiSlot>)
    requires unchanged(Tables(apis)) && unchanged(old(Arrays(Tables(apis))))
    ensures Apis(apis) == old(Apis(apis)) && Separate(apis) == old(Separate(apis))
    ensures Arrays(Tables(apis)) == old(Arrays(Tables(apis)))
    ensures forall t :: t in Tables(apis) ==> t.Arrays() == old(t.Arrays())
  {
  }

  lemma ApisWithout(apis: map<string, ApiSlot>, k: string)
    ensures Apis(apis - {k}) == Apis(apis) - {k}
    ensures k in apis ==> Apis(apis)[k] == apis[k].Value()
  {
  }

  method CopyApi(from: ApiSlot) returns (slot: ApiSlot)
    ensures slot.Value() == from.Value() && slot.Separate() && fresh(TableOf(slot)) && fresh(slot.Arrays())
  {
    slot := from;
    if slot.models != null {
      var copy := new ModelTable.CopyOf(slot.models);
      slot := slot.(models := copy);
    }
  }

  lemma NoEntries()
    ensures Tables(map[]) == {} && Arrays({}) == {} && Separate(map[])
  {
  }

  method CopyApis(from: map<string, ApiSlot>) returns (apis: map<string, ApiSlot>)
    ensures fresh(Tables(apis)) && fresh(Arrays(Tables(apis))) && Separate(apis) && Apis(apis) == old(Apis(from))
  {
    hide *;
    apis := map[];
    NoEntries();
    var todo := from.Keys;
    ghost var value := Apis(from);
    while todo != {}
      invariant todo <= from.Keys && apis.Keys == from.Keys - todo
      invariant fresh(Tables(apis)) && fresh(Arrays(Tables(apis))) && Separate(apis)
      invariant Apis(from) == value && Apis(apis) == value - todo
    {
      var a :| a in todo;
      todo := todo - {a};
      apis := CopyEntry(from, apis, a);
    }
  }

  method CopyEntry(from: map<string, ApiSlot>, apis: map<string, ApiSlot>, a: string)
    returns (now: map<string, ApiSlot>)
    requires a in from && a !in apis && Separate(apis)
    ensures Separate(now) && now.Keys == apis.Keys + {a}
    ensures fresh(Tables(now) - Tables(apis)) && fresh(Arrays(Tables(now)) - old(Arrays(Tables(apis))))
    ensures Apis(from) == old(Apis(from)) && Apis(now) == old(Apis(apis))[a := Apis(from)[a]]
  {
    assert apis - {a} == apis;
    ApisWithout(from, a);
    var slot := CopyApi(from[a]);
    Framed(apis);
    Framed(from);
    hide *;
    EntryPut(apis, a, slot);
    now := apis[a := slot];
  }

  /** The entry of an API, with a map of models to write to. */
  method SlotFor(apis: map<string, ApiSlot>, api: string) returns (slot: ApiSlot)
    requires Separate(apis)
    ensures slot.models != null && slot.Separate() && slot.Value() == EntryFor(old(Apis(apis)), api)
    ensures slot.models in Tables(apis) || fresh(slot.models)
    ensures slot.models !in Tables(apis - {api}) && slot.Arrays() <= old(Arrays(Tables(apis)))
    ensures forall t :: t in Tables(apis - {api}) ==> t.Arrays() !! slot.Arrays()
  {
    SeparateWithout(apis, api);
    ApisWithout(apis, api);
    slot := if api in apis then apis[api] else ApiSlot(0, 0, null);
    if slot.models == null {
      var models := new ModelTable();
      slot := slot.(models := models);
      assert slot.Arrays() == {};
    }
  }

  ghost function EntryFor(apis: map<string, Api>, api: string): Api {
    if api in apis then apis[api] else Api(0, 0, map[])
  }

  ghost function WithItem(api: Api, model: string, detail: Detail): Api {
    api.(models := api.models[model := WithDetail(api.models, model, detail)])
  }

  method AddToSlot(slot: ApiSlot, model: string, detail: Detail)
    requires slot.models != null && slot.Separate()
    modifies slot.models
    ensures slot.Separate() && fresh(slot.Arrays() - old(slot.Arrays()))
    ensures slot.Value() == WithItem(old(slot.Value()), model, detail)
  {
    hide ModelTable.Arrays, ModelTable.Value, ModelTable.Separate, WithDetail;
    slot.models.Add(model, detail);
  }

  /** Adds to the entry of the API, apart from all others. */
  method WriteSlot(apis: map<string, ApiSlot>, x: Item) returns (slot: ApiSlot)
    requires Separate(apis)
    modifies Tables(apis)
    ensures slot.Separate() && fresh(TableOf(slot) - Tables(apis)) && fresh(slot.Arrays() - old(Arrays(Tables(apis))))
    ensures slot.Value() == WithItem(EntryFor(old(Apis(apis)), x.api), x.model, x.detail)
    ensures TableOf(slot) !! Tables(apis - {x.api})
    ensures unchanged(Tables(apis - {x.api})) && unchanged(old(Arrays(Tables(apis - {x.api}))))
    ensures forall t :: t in Tables(apis - {x.api}) ==> t.Arrays() !! slot.Arrays()
  {
    SeparateWithout(apis, x.api);
    hide Separate, Apis, ModelTable.Value, ModelTable.Separate, ApiSlot.Separate, ApiSlot.Value, WithItem, EntryFor;
    slot := SlotFor(apis, x.api);
    AddToSlot(slot, x.model, x.detail);
  }

  method AddTo(apis: map<string, ApiSlot>, x: Item) returns (now: map<string, ApiSlot>)
    requires Separate(apis)
    modifies Tables(apis)
    ensures Separate(now) && fresh(Tables(now) - Tables(apis)) && fresh(Arrays(Tables(now)) - old(Arrays(Tables(apis))))
    ensures Apis(now) == old(Apis(apis))[x.api := WithItem(EntryFor(old(Apis(apis)), x.api), x.model, x.detail)]
  {
    hide *;
    SeparateWithout(apis, x.api);
    ApisWithout(apis, x.api);
    var slot := WriteSlot(apis, x);
    Framed(apis - {x.api});
    EntryPut(apis, x.api, slot);
    now := apis[x.api := slot];
  }

  method SortApi(slot: ApiSlot)
    requires slot.Separate()
    modifies slot.Arrays()
    ensures SortedApi(old(slot.Value()), slot.Value())
  {
    hide SortedModels, ModelTable.Value, ModelTable.Arrays, ModelTable.Separate;
    if slot.models != null {
      slot.models.SortAll();
    } else {
      NoModels();
    }
  }

  lemma NoModels()
    ensures SortedModels(map[], map[])
  {
  }

  method SortEntry(apis: map<string, ApiSlot>, a: string)
    requires Separate(apis) && a in apis
    modifies apis[a].Arrays()
    ensures Separate(apis) && Arrays(Tables(apis)) == old(Arrays(Tables(apis)))
    ensures SortedApi(old(Apis(apis))[a], Apis(apis)[a]) && Apis(apis) - {a} == old(Apis(apis)) - {a}
  {
    SeparateWithout(apis, a);
    ApisWithout(apis, a);
    hide Apis, SortedApi, ApiSlot.Value, ModelTable.Separate;
    SortApi(apis[a]);
    Framed(apis - {a});
    ApisWithout(apis, a);
  }

  lemma EntriesSorted(a: map<string, Api>, b: map<string, Api>)
    requires b.Keys == a.Keys && forall k :: k in a ==> SortedApi(a[k], b[k])
    ensures SortedApis(a, b)
  {
  }

  method SortApis(apis: map<string, ApiSlot>)
    requires Separate(apis)
    modifies Arrays(Tables(apis))
    ensures SortedApis(old(Apis(apis)), Apis(apis))
  {
    hide *;
    ghost var value := Apis(apis);
    var todo := apis.Keys;
    while todo != {}
      invariant todo <= apis.Keys && Separate(apis) && Arrays(Tables(apis)) == old(Arrays(Tables(apis)))
      invariant forall a :: a in apis ==>
        if a in todo then Apis(apis)[a] == value[a] else SortedApi(value[a], Apis(apis)[a])
    {
      var a :| a in todo;
      todo := todo - {a};
      ghost var before := Apis(apis);
      SeparateWithout(apis, a);
      SortEntry(apis, a);
      forall b | b in apis && b != a
        ensures Apis(apis)[b] == before[b]
      {
        assert b in before - {a} && b in Apis(apis) - {a};
      }
    }
    EntriesSorted(value, Apis(apis));
  }

  // ---------- the statistics ----------

  class Statistics {
    var totals: Totals
    var calendar: Calendar
    var apis: map<string, ApiSlot>

    ghost function Value(): Snapshot
      reads this, Tables(apis), Arrays(Tables(apis))
    {
      Snapshot(totals, Apis(apis), calendar)
    }

    constructor CopyOf(from: Statistics)
      ensures fresh(Tables(apis)) && fresh(Arrays(Tables(apis))) && Separate(apis) && Value() == old(from.Value())
    {
      var copies := CopyApis(from.apis);
      totals, calendar, apis := from.totals, from.calendar, copies;
    }

    method Add(x: Item)
      requires Separate(apis)
      modifies this, Tables(apis)
      ensures Separate(apis)
      ensures forall t :: t in Tables(apis) ==> t in old(Tables(apis)) || fresh(t)
      ensures forall y :: y in Arrays(Tables(apis)) ==> y in old(Arrays(Tables(apis))) || fresh(y)
      ensures Value() == Append(old(Value()), x)
    {
      hide Tables, Arrays, Apis, Separate;
      apis := AddTo(apis, x);
    }

    method SortAll()
      requires Separate(apis)
      modifies Arrays(Tables(apis))
      ensures apis == old(apis) && Arrays(Tables(apis)) == old(Arrays(Tables(apis)))
      ensures SortedVersion(old(Value()), Value())
    {
      hide Apis, Separate, SortedApis;
      SortApis(apis);
    }
  }

  // ---------- the merge ----------

  /** The keys of the details in a list. */
  method SeenDetails(key: Key, api: string, model: string, details: array<Detail>, seen: set<string>)
    returns (r: set<string>)
    ensures forall k :: k in r <==> k in seen || InDetails(key, api, model, details[..], k)
  {
    r := seen;
    for i := 0 to details.Length
      invariant forall k :: k in r <==> k in seen || exists j :: 0 <= j < i && key(api, model, details[j]) == k
    {
      r := r + {key(api, model, details[i])};
    }
  }

  method SeenModels(key: Key, api: string, table: ModelTable, seen: set<string>) returns (r: set<string>)
    ensures forall k :: k in r <==> k in seen || InModels(key, api, table.Value(), k)
  {
    r := seen;
    var todo := table.slots.Keys;
    while todo != {}
      invariant todo <= table.slots.Keys
      invariant forall k :: k in r <==>
        k in seen || exists m :: m in table.Value() && m !in todo && InDetails(key, api, m, table.Value()[m].details, k)
    {
      hide InDetails;
      var m :| m in todo;
      todo := todo - {m};
      r := SeenDetails(key, api, m, table.slots[m].details, r);
    }
  }

  /** The keys of every detail. */
  method SeenKeys(key: Key, s: Statistics) returns (r: set<string>)
    ensures forall k :: k in r <==> Known(key, s.Value(), k)
  {
    r := {};
    var todo := s.apis.Keys;
    while todo != {}
      invariant todo <= s.apis.Keys
      invariant forall k :: k in r <==>
        exists a :: a in s.Value().apis && a !in todo && InModels(key, a, s.Value().apis[a].models, k)
    {
      hide InModels;
      var a :| a in todo;
      todo := todo - {a};
      if s.apis[a].models != null {
        r := SeenModels(key, a, s.apis[a].models, r);
      }
    }
  }

  method SeenAtFirst(key: Key, merged: Statistics, ghost items: seq<Item>) returns (seen: set<string>)
    ensures merged.Value() == old(merged.Value()) && SeenSoFar(key, merged.Value(), items[..0], seen)
  {
    hide Known;
    seen := SeenKeys(key, merged);
    Framed(merged.apis);
    assert forall k :: !Among(key, items[..0], k);
  }

  method AddIfNew(key: Key, merged: Statistics, x: Item, seen: set<string>) returns (next: set<string>, isNew: bool)
    requires Separate(merged.apis)
    modifies merged, Tables(merged.apis)
    ensures isNew == (KeyOf(key, x) !in seen) && next == seen + {KeyOf(key, x)}
    ensures Separate(merged.apis)
    ensures forall t :: t in Tables(merged.apis) ==> t in old(Tables(merged.apis)) || fresh(t)
    ensures forall y :: y in Arrays(Tables(merged.apis)) ==> y in old(Arrays(Tables(merged.apis))) || fresh(y)
    ensures merged.Value() == if isNew then Append(old(merged.Value()), x) else old(merged.Value())
  {
    hide *;
    var k := KeyOf(key, x);
    next, isNew := seen + {k}, k !in seen;
    if isNew {
      merged.Add(x);
    }
  }

  /** Append the first record of each key that is new. */
  method AppendFirsts(key: Key, merged: Statistics, records: seq<Record>) returns (mergedCount: nat)
    requires Separate(merged.apis)
    modifies merged, Tables(merged.apis)
    ensures Separate(merged.apis)
    ensures forall t :: t in Tables(merged.apis) ==> t in old(Tables(merged.apis)) || fresh(t)
    ensures forall y :: y in Arrays(Tables(merged.apis)) ==> y in old(Arrays(Tables(merged.apis))) || fresh(y)
    ensures var added := Firsts(key, old(merged.Value()), PlacedAll(records));
            merged.Value() == AppendAll(old(merged.Value()), added) && mergedCount == |added|
  {
    hide *;
    ghost var base, items, added: seq<Item> := merged.Value(), PlacedAll(records), [];
    mergedCount := 0;
    var seen := SeenAtFirst(key, merged, items);
    NothingAdded(key, base, items[..0]);
    for i := 0 to |records|
      invariant Separate(merged.apis) && |items| == |records|
      invariant forall t :: t in Tables(merged.apis) ==> t in old(Tables(merged.apis)) || fresh(t)
      invariant forall y :: y in Arrays(Tables(merged.apis)) ==> y in old(Arrays(Tables(merged.apis))) || fresh(y)
      invariant SeenSoFar(key, base, items[..i], seen)
      invariant added == Firsts(key, base, items[..i]) && merged.Value() == AppendAll(base, added)
      invariant mergedCount == |added|
    {
      var x := Placed(records[i]);
      assert x == items[i];
      SeenStep(key, base, items, i, seen);
      var isNew;
      seen, isNew := AddIfNew(key, merged, x, seen);
      AppendMore(base, added, x);
      assert added + [] == added;
      mergedCount := if isNew then mergedCount + 1 else mergedCount;
      added := if isNew then added + [x] else added + [];
    }
    assert items[..|records|] == items;
  }

  lemma MergesSorted(key: Key, base: Snapshot, records: seq<Record>, merged: Snapshot, count: nat)
    requires records != [] && count == |Firsts(key, base, PlacedAll(records))|
    requires SortedVersion(AppendAll(base, Firsts(key, base, PlacedAll(records))), merged)
    ensures Merges(key, base, records, merged, count)
  {
  }

  method MergeCopy(key: Key, base: Statistics, records: seq<Record>) returns (merged: Statistics, mergedCount: nat)
    requires records != []
    ensures Merges(key, old(base.Value()), records, merged.Value(), mergedCount)
    ensures fresh(merged) && fresh(Tables(merged.apis)) && fresh(Arrays(Tables(merged.apis)))
  {
    hide *;
    merged := new Statistics.CopyOf(base);
    mergedCount := AppendFirsts(key, merged, records);
    merged.SortAll();
    MergesSorted(key, old(base.Value()), records, merged.Value(), mergedCount);
  }

  /** The merge works on a copy: the base, like everything else there was before, stays as it is. */
  method MergePersistedDetails(key: Key, base: Statistics, records: seq<Record>)
    returns (merged: Statistics, mergedCount: nat)
    ensures Merges(key, old(base.Value()), records, merged.Value(), mergedCount)
    ensures base.Value() == old(base.Value())
    ensures if records == [] then merged == base
            else fresh(merged) && fresh(Tables(merged.apis)) && fresh(Arrays(Tables(merged.apis)))
  {
    if |records| == 0 {
      return base, 0;
    }
    hide Merges;
    merged, mergedCount := MergeCopy(key, base, records);
    Framed(base.apis);
  }
}
