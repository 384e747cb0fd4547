/**
 * Merging persisted request details into a usage snapshot (internal/usage/detail_query.go). The deduplication key
 * is an uninterpreted function of the API name, the model name and the detail.
 */
module Usage {
  import opened Sorting
  import opened Text

  datatype Tokens = Tokens(input: int, output: int, reasoning: int, cached: int, total: int)

  datatype Detail = Detail(timestamp: int, source: string, authIndex: string, tokens: Tokens, failed: bool)

  datatype Model = Model(requests: int, tokens: int, details: seq<Detail>)

  datatype Api = Api(requests: int, tokens: int, models: map<string, Model>)

  datatype Totals = Totals(requests: int, success: int, failure: int, tokens: int)

  datatype Calendar = Calendar(requestsByDay: map<string, int>, requestsByHour: map<string, int>,
                               tokensByDay: map<string, int>, tokensByHour: map<string, int>)

  datatype Snapshot = Snapshot(totals: Totals, apis: map<string, Api>, calendar: Calendar)

  datatype Record = Record(apiKey: string, model: string, detail: Detail)

  /** A detail and where it belongs. */
  datatype Item = Item(api: string, model: string, detail: Detail)

  type Key = (string, string, Detail) -> string

  function Named(name: string): string {
    if TrimSpace(name) == "" then "unknown" else TrimSpace(name)
  }

  function Normalised(t: Tokens): Tokens {
    var u := if t.total == 0 then t.(total := t.input + t.output + t.reasoning) else t;
    if u.total == 0 then u.(total := u.input + u.output + u.reasoning + u.cached) else u
  }

  function Placed(r: Record): Item {
    Item(Named(r.apiKey), Named(r.model), r.detail.(tokens := Normalised(r.detail.tokens)))
  }

  function KeyOf(key: Key, x: Item): string {
    key(x.api, x.model, x.detail)
  }

  // ---------- what is in a snapshot ----------

  function ModelAt(s: Snapshot, api: string, model: string): Model {
    if api in s.apis && model in s.apis[api].models then s.apis[api].models[model] else Model(0, 0, [])
  }

  function Details(s: Snapshot, api: string, model: string): seq<Detail> {
    ModelAt(s, api, model).details
  }

  ghost predicate InDetails(key: Key, api: string, model: string, details: seq<Detail>, k: string) {
    exists i :: 0 <= i < |details| && key(api, model, details[i]) == k
  }

  ghost predicate InModels(key: Key, api: string, models: map<string, Model>, k: string) {
    exists m :: m in models && InDetails(key, api, m, models[m].details, k)
  }

  /** Some detail of the snapshot has the key. */
  ghost predicate Known(key: Key, s: Snapshot, k: string) {
    exists a :: a in s.apis && InModels(key, a, s.apis[a].models, k)
  }

  lemma KnownAt(key: Key, s: Snapshot, k: string)
    ensures Known(key, s, k) <==> exists a, m :: InDetails(key, a, m, Details(s, a, m), k)
  {
    if Known(key, s, k) {
      var a :| a in s.apis && InModels(key, a, s.apis[a].models, k);
      var m :| m in s.apis[a].models && InDetails(key, a, m, s.apis[a].models[m].details, k);
      assert InDetails(key, a, m, Details(s, a, m), k);
    }
    if exists a, m :: InDetails(key, a, m, Details(s, a, m), k) {
      var a, m :| InDetails(key, a, m, Details(s, a, m), k);
      assert InModels(key, a, s.apis[a].models, k);
    }
  }

  // ---------- which records are added ----------

  /** The record's key is not in the base, and no earlier record has it. */
  ghost predicate IsFirst(key: Key, base: Snapshot, items: seq<Item>, i: nat)
    requires i < |items|
  {
    !Known(key, base, KeyOf(key, items[i])) && forall j :: 0 <= j < i ==> KeyOf(key, items[j]) != KeyOf(key, items[i])
  }

  /** The first record of each key that the base does not have, in order. */
  ghost function Firsts(key: Key, base: Snapshot, items: seq<Item>): seq<Item> {
    if items == [] then []
    else
      var n := |items| - 1;
      Firsts(key, base, items[..n]) + if IsFirst(key, base, items, n) then [items[n]] else []
  }

  /** Every key of the records is in the base or among the records added. */
  lemma {:induction false} FirstsCover(key: Key, base: Snapshot, items: seq<Item>, i: nat)
    requires i < |items|
    ensures var k := KeyOf(key, items[i]);
            Known(key, base, k) || exists x :: x in Firsts(key, base, items) && KeyOf(key, x) == k
    decreases |items|
  {
    var n := |items| - 1;
    hide Known;
    if i < n {
      FirstsCover(key, base, items[..n], i);
    } else if !IsFirst(key, base, items, n) && !Known(key, base, KeyOf(key, items[n])) {
      var j :| 0 <= j < n && KeyOf(key, items[j]) == KeyOf(key, items[n]);
      FirstsCover(key, base, items[..n], j);
    }
  }

  // ---------- appending ----------

  function ApiFor(s: Snapshot, api: string): Api {
    if api in s.apis then s.apis[api] else Api(0, 0, map[])
  }

  function Append(s: Snapshot, x: Item): Snapshot {
    var model := ModelAt(s, x.api, x.model);
    var api := ApiFor(s, x.api);
    s.(apis := s.apis[x.api := api.(models := api.models[x.model := model.(details := model.details + [x.detail])])])
  }

  function AppendAll(s: Snapshot, items: seq<Item>): Snapshot {
    if items == [] then s else Append(AppendAll(s, items[..|items| - 1]), items[|items| - 1])
  }

  /** The details among the items that belong to a model of an API. */
  function For(items: seq<Item>, api: string, model: string): seq<Detail> {
    if items == [] then []
    else
      var x := items[|items| - 1];
      For(items[..|items| - 1], api, model) + if x.api == api && x.model == model then [x.detail] else []
  }

  lemma {:induction false} AppendedDetails(s: Snapshot, items: seq<Item>, api: string, model: string)
    ensures Details(AppendAll(s, items), api, model) == Details(s, api, model) + For(items, api, model)
  {
    if items != [] {
      AppendedDetails(s, items[..|items| - 1], api, model);
    }
  }

  /** Nothing but details differs, except that entries for new details start with zero counters. */
  ghost predicate SameCounters(s: Snapshot, t: Snapshot) {
    && t.totals == s.totals && t.calendar == s.calendar
    && (forall a :: a in s.apis ==> a in t.apis)
    && (forall a :: a in t.apis ==>
      t.apis[a].requests == ApiFor(s, a).requests && t.apis[a].tokens == ApiFor(s, a).tokens)
    && (forall a, m :: ModelAt(t, a, m).requests == ModelAt(s, a, m).requests)
    && (forall a, m :: ModelAt(t, a, m).tokens == ModelAt(s, a, m).tokens)
  }

  lemma {:induction false} AppendKeepsCounters(s: Snapshot, items: seq<Item>)
    ensures SameCounters(s, AppendAll(s, items))
  {
    if items != [] {
      AppendKeepsCounters(s, items[..|items| - 1]);
      AppendOneKeeps(AppendAll(s, items[..|items| - 1]), items[|items| - 1]);
      CountersChain(s, AppendAll(s, items[..|items| - 1]), AppendAll(s, items));
    }
  }

  lemma AppendOneKeeps(s: Snapshot, x: Item)
    ensures SameCounters(s, Append(s, x))
  {
  }

  lemma CountersChain(s: Snapshot, t: Snapshot, u: Snapshot)
    requires SameCounters(s, t) && SameCounters(t, u)
    ensures SameCounters(s, u)
  {
    forall a | a in u.apis
      ensures u.apis[a].requests == ApiFor(s, a).requests && u.apis[a].tokens == ApiFor(s, a).tokens
    {
      assert u.apis[a].requests == ApiFor(t, a).requests && u.apis[a].tokens == ApiFor(t, a).tokens;
    }
    hide ModelAt;
  }

  // ---------- sorting ----------

  predicate Earlier(a: Detail, b: Detail) {
    a.timestamp < b.timestamp
  }

  ghost predicate Shuffled(a: seq<Detail>, b: seq<Detail>) {
    multiset(a) == multiset(b) && Sorted(b, Earlier)
  }

  ghost predicate SortedModels(a: map<string, Model>, b: map<string, Model>) {
    b.Keys == a.Keys && forall m :: m in a ==>
      b[m] == a[m].(details := b[m].details) && Shuffled(a[m].details, b[m].details)
  }

  ghost predicate SortedApi(a: Api, b: Api) {
    b == a.(models := b.models) && SortedModels(a.models, b.models)
  }

  ghost predicate SortedApis(a: map<string, Api>, b: map<string, Api>) {
    b.Keys == a.Keys && forall k :: k in a ==> SortedApi(a[k], b[k])
  }

  /** The same snapshot with every detail list sorted by time. */
  ghost predicate SortedVersion(s: Snapshot, t: Snapshot) {
    t == s.(apis := t.apis) && SortedApis(s.apis, t.apis)
  }

  lemma SortedDetails(s: Snapshot, t: Snapshot, api: string, model: string)
    requires SortedVersion(s, t)
    ensures Shuffled(Details(s, api, model), Details(t, api, model))
  {
  }

  lemma SortingKeepsCounters(s: Snapshot, t: Snapshot)
    requires SortedVersion(s, t)
    ensures SameCounters(s, t)
  {
  }

  // ---------- sizes ----------

  ghost function SumOver<V>(m: map<string, V>, size: V -> nat): nat
    decreases m.Keys
  {
    if m == map[] then 0
    else
      var k :| k in m;
      size(m[k]) + SumOver(m - {k}, size)
  }

  lemma {:induction false} SumWithout<V>(m: map<string, V>, size: V -> nat, k: string)
    requires k in m
    ensures SumOver(m, size) == size(m[k]) + SumOver(m - {k}, size)
    decreases m.Keys
  {
    var j :| j in m && SumOver(m, size) == size(m[j]) + SumOver(m - {j}, size);
    if j != k {
      SumWithout(m - {j}, size, k);
      SumWithout(m - {k}, size, j);
      assert m - {j} - {k} == m - {k} - {j};
    }
  }

  lemma SumUpdated<V>(m: map<string, V>, size: V -> nat, k: string, v: V)
    ensures SumOver(m[k := v], size) == SumOver(m, size) + size(v) - if k in m then size(m[k]) else 0
  {
    SumWithout(m[k := v], size, k);
    assert m[k := v] - {k} == m - {k};
    if k in m {
      SumWithout(m, size, k);
    } else {
      assert m - {k} == m;
    }
  }

  lemma {:induction false} SumSame<V>(a: map<string, V>, b: map<string, V>, size: V -> nat)
    requires a.Keys == b.Keys && forall k :: k in a ==> size(a[k]) == size(b[k])
    ensures SumOver(a, size) == SumOver(b, size)
    decreases a.Keys
  {
    if a != map[] {
      var k :| k in a;
      SumWithout(a, size, k);
      assert k in b;
      SumWithout(b, size, k);
      SumSame(a - {k}, b - {k}, size);
    } else {
      assert b == map[];
    }
  }

  ghost function ModelSize(): Model -> nat {
    (m: Model) => |m.details|
  }

  ghost function ApiSize(): Api -> nat {
    (a: Api) => SumOver(a.models, ModelSize())
  }

  /** How many details a snapshot holds. */
  ghost function Size(s: Snapshot): nat {
    SumOver(s.apis, ApiSize())
  }

  lemma AppendGrows(s: Snapshot, x: Item)
    ensures Size(Append(s, x)) == Size(s) + 1
  {
    var model, api := ModelAt(s, x.api, x.model), ApiFor(s, x.api);
    var after := model.(details := model.details + [x.detail]);
    SumUpdated(api.models, ModelSize(), x.model, after);
    SumUpdated(s.apis, ApiSize(), x.api, api.(models := api.models[x.model := after]));
    assert SumOver<Model>(map[], ModelSize()) == 0;
    hide SumOver;
  }

  lemma {:induction false} AppendAllGrows(s: Snapshot, items: seq<Item>)
    ensures Size(AppendAll(s, items)) == Size(s) + |items|
  {
    if items != [] {
      AppendAllGrows(s, items[..|items| - 1]);
      AppendGrows(AppendAll(s, items[..|items| - 1]), items[|items| - 1]);
      hide Size, Append;
    }
  }

  lemma SortingKeepsSize(s: Snapshot, t: Snapshot)
    requires SortedVersion(s, t)
    ensures Size(t) == Size(s)
  {
    forall a | a in s.apis
      ensures ApiSize()(s.apis[a]) == ApiSize()(t.apis[a])
    {
      var before, after := s.apis[a].models, t.apis[a].models;
      forall m | m in before
        ensures ModelSize()(before[m]) == ModelSize()(after[m])
      {
        SameElements(before[m].details, after[m].details);
      }
      SumSame(before, after, ModelSize());
    }
    hide SumOver, ApiSize;
    SumSame(s.apis, t.apis, ApiSize());
  }

  // ---------- the merge ----------

  function PlacedAll(records: seq<Record>): (r: seq<Item>)
    ensures |r| == |records| && forall i :: 0 <= i < |r| ==> r[i] == Placed(records[i])
  {
    seq(|records|, i requires 0 <= i < |records| => Placed(records[i]))
  }

  /** What a merge leaves: the base with the first records of new keys appended, every list sorted. */
  ghost predicate Merges(key: Key, base: Snapshot, records: seq<Record>, merged: Snapshot, count: nat) {
    var added := Firsts(key, base, PlacedAll(records));
    if records == [] then merged == base && count == 0
    else count == |added| && SortedVersion(AppendAll(base, added), merged)
  }

  /**
   * A merge of at least one record adds exactly the first record of each key the base lacks: every list is a
   * time-sorted permutation of the base's details and the additions, the counters are as before, and the count
   * returned is the growth in details.
   */
  lemma MergeAddsFirsts(key: Key, base: Snapshot, records: seq<Record>, merged: Snapshot, count: nat, api: string,
                        model: string)
    requires Merges(key, base, records, merged, count) && records != []
    ensures var added := Firsts(key, base, PlacedAll(records));
            Shuffled(Details(base, api, model) + For(added, api, model), Details(merged, api, model))
    ensures SameCounters(base, merged)
    ensures Size(merged) == Size(base) + count
  {
    var added := Firsts(key, base, PlacedAll(records));
    var appended := AppendAll(base, added);
    hide AppendAll, SameCounters, Size, SortedVersion, Firsts, PlacedAll;
    AppendedDetails(base, added, api, model);
    SortedDetails(appended, merged, api, model);
    AppendKeepsCounters(base, added);
    SortingKeepsCounters(appended, merged);
    CountersChain(base, appended, merged);
    AppendAllGrows(base, added);
    SortingKeepsSize(appended, merged);
  }

  lemma {:induction false} ForHas(items: seq<Item>, x: Item)
    requires x in items
    ensures x.detail in For(items, x.api, x.model)
  {
    var n := |items| - 1;
    assert items == items[..n] + [items[n]];
    if x != items[n] {
      ForHas(items[..n], x);
    }
  }

  lemma StillKnown(key: Key, api: string, model: string, a: seq<Detail>, b: seq<Detail>, d: Detail)
    requires Shuffled(a, b) && d in a
    ensures InDetails(key, api, model, b, key(api, model, d))
  {
    SameElements(a, b);
    var i :| 0 <= i < |b| && b[i] == d;
  }

  /** After a merge, every key of the records is known. */
  lemma MergedKnows(key: Key, base: Snapshot, records: seq<Record>, merged: Snapshot, count: nat, i: nat)
    requires Merges(key, base, records, merged, count) && i < |records|
    ensures Known(key, merged, KeyOf(key, Placed(records[i])))
  {
    var items := PlacedAll(records);
    var added := Firsts(key, base, items);
    var k := KeyOf(key, items[i]);
    FirstsCover(key, base, items, i);
    KnownAt(key, base, k);
    KnownAt(key, merged, k);
    hide Known, Firsts, Merges, Shuffled, For;
    if Known(key, base, k) {
      var a, m :| InDetails(key, a, m, Details(base, a, m), k);
      var j :| 0 <= j < |Details(base, a, m)| && key(a, m, Details(base, a, m)[j]) == k;
      var d := Details(base, a, m)[j];
      MergeAddsFirsts(key, base, records, merged, count, a, m);
      assert d in Details(base, a, m) + For(added, a, m);
      StillKnown(key, a, m, Details(base, a, m) + For(added, a, m), Details(merged, a, m), d);
    } else {
      var x :| x in added && KeyOf(key, x) == k;
      MergeAddsFirsts(key, base, records, merged, count, x.api, x.model);
      ForHas(added, x);
      assert x.detail in Details(base, x.api, x.model) + For(added, x.api, x.model);
      StillKnown(key, x.api, x.model, Details(base, x.api, x.model) + For(added, x.api, x.model),
        Details(merged, x.api, x.model), x.detail);
    }
  }

  lemma {:induction false} NoFirsts(key: Key, base: Snapshot, items: seq<Item>)
    requires forall i :: 0 <= i < |items| ==> Known(key, base, KeyOf(key, items[i]))
    ensures Firsts(key, base, items) == []
  {
    if items != [] {
      NoFirsts(key, base, items[..|items| - 1]);
    }
  }

  /** Merging the same records again adds nothing. */
  lemma MergingAgainAddsNothing(key: Key, base: Snapshot, records: seq<Record>, merged: Snapshot, count: nat,
                                again: Snapshot, more: nat)
    requires Merges(key, base, records, merged, count) && Merges(key, merged, records, again, more)
    ensures more == 0
    ensures records == [] || SortedVersion(merged, again)
  {
    forall i | 0 <= i < |records|
      ensures Known(key, merged, KeyOf(key, PlacedAll(records)[i]))
    {
      MergedKnows(key, base, records, merged, count, i);
    }
    NoFirsts(key, merged, PlacedAll(records));
  }

  // ---------- keys seen ----------

  /** Some item has the key. */
  ghost predicate Among(key: Key, items: seq<Item>, k: string) {
    exists j :: 0 <= j < |items| && KeyOf(key, items[j]) == k
  }

  /** The keys seen are those of the base and of the records so far. */
  ghost predicate SeenSoFar(key: Key, base: Snapshot, items: seq<Item>, seen: set<string>) {
    forall k :: k in seen <==> Known(key, base, k) || Among(key, items, k)
  }

  lemma AmongMore(key: Key, items: seq<Item>, i: nat, k: string)
    requires i < |items|
    ensures Among(key, items[..i + 1], k) <==> Among(key, items[..i], k) || k == KeyOf(key, items[i])
  {
    var part := items[..i + 1];
    assert part[i] == items[i] && forall j :: 0 <= j < i ==> part[j] == items[..i][j];
    if Among(key, items[..i], k) {
      var j :| 0 <= j < i && KeyOf(key, items[..i][j]) == k;
      assert KeyOf(key, part[j]) == k;
    }
  }

  lemma FirstIsNew(key: Key, base: Snapshot, items: seq<Item>, i: nat)
    requires i < |items|
    ensures IsFirst(key, base, items, i) <==>
      !Known(key, base, KeyOf(key, items[i])) && !Among(key, items[..i], KeyOf(key, items[i]))
    ensures IsFirst(key, base, items[..i + 1], i) <==> IsFirst(key, base, items, i)
  {
    hide Known;
    assert forall j :: 0 <= j < i ==> items[..i][j] == items[j] && items[..i + 1][j] == items[j];
    if !IsFirst(key, base, items, i) && !Known(key, base, KeyOf(key, items[i])) {
      var j :| 0 <= j < i && KeyOf(key, items[j]) == KeyOf(key, items[i]);
      assert KeyOf(key, items[..i][j]) == KeyOf(key, items[i]);
    }
  }

  lemma SeenStep(key: Key, base: Snapshot, items: seq<Item>, i: nat, seen: set<string>)
    requires i < |items| && SeenSoFar(key, base, items[..i], seen)
    ensures KeyOf(key, items[i]) in seen <==> !IsFirst(key, base, items, i)
    ensures SeenSoFar(key, base, items[..i + 1], seen + {KeyOf(key, items[i])})
    ensures Firsts(key, base, items[..i + 1]) ==
      Firsts(key, base, items[..i]) + if IsFirst(key, base, items, i) then [items[i]] else []
  {
    assert items[..i + 1][..i] == items[..i];
    FirstIsNew(key, base, items, i);
    hide Known, IsFirst, Among, KeyOf;
    forall k
      ensures Among(key, items[..i + 1], k) <==> Among(key, items[..i], k) || k == KeyOf(key, items[i])
    {
      AmongMore(key, items, i, k);
    }
  }

  lemma AppendMore(base: Snapshot, added: seq<Item>, x: Item)
    ensures AppendAll(base, added + [x]) == Append(AppendAll(base, added), x)
  {
    assert (added + [x])[..|added|] == added;
  }

  lemma NothingAdded(key: Key, base: Snapshot, items: seq<Item>)
    requires items == []
    ensures AppendAll(base, []) == base && Firsts(key, base, items) == []
  {
  }
}
