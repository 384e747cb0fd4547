/**
 * The ranking of upstream candidates for a requested model (internal/api/cpams_resolver.go):
 * probe observations are aggregated per full model name, scored and sorted.
 */
module Ranking {
  import opened Wrappers
  import opened Sorting

  /** Nanoseconds; 0 is the zero time. */
  type Time = nat

  // ---------- the order of names ----------

  /** Lexicographic order on names. */
  predicate NameLess(a: string, b: string) {
    if b == "" then false
    else if a == "" then true
    else if a[0] != b[0] then a[0] < b[0]
    else NameLess(a[1..], b[1..])
  }

  lemma {:induction false} NameLessTransitive(a: string, b: string, c: string)
    requires NameLess(a, b) && NameLess(b, c)
    ensures NameLess(a, c)
    decreases |a|
  {
    if a != "" && a[0] == b[0] && b[0] == c[0] {
      NameLessTransitive(a[1..], b[1..], c[1..]);
    }
  }

  lemma {:induction false} NameLessTotal(a: string, b: string)
    ensures NameLess(a, b) || NameLess(b, a) || a == b
    ensures !(NameLess(a, b) && NameLess(b, a))
    decreases |a|
  {
    if a != "" && b != "" && a[0] == b[0] {
      NameLessTotal(a[1..], b[1..]);
      assert a == [a[0]] + a[1..] && b == [b[0]] + b[1..];
    }
  }

  // ---------- candidates and their order ----------

  const RED := 1
  const YELLOW := 2
  const GREEN := 3

  datatype Candidate = Candidate(
    fullModel: string,
    statusRank: int,
    score: int,
    prefixPriority: int,
    observations: nat,
    healthy: nat,
    greens: nat,
    yellows: nat,
    reds: nat,
    networkFailures: nat,
    latestTestedAt: Time)

  /** Higher score first, then higher status, then lower prefix priority, then the smaller name. */
  predicate Before(a: Candidate, b: Candidate) {
    if a.score != b.score then a.score > b.score
    else if a.statusRank != b.statusRank then a.statusRank > b.statusRank
    else if a.prefixPriority != b.prefixPriority then a.prefixPriority < b.prefixPriority
    else NameLess(a.fullModel, b.fullModel)
  }

  ghost predicate InOrder(cs: seq<Candidate>) {
    forall i, j :: 0 <= i < j < |cs| ==> Before(cs[i], cs[j])
  }

  lemma BeforeTransitive(a: Candidate, b: Candidate, c: Candidate)
    requires Before(a, b) && Before(b, c)
    ensures Before(a, c)
  {
    if NameLess(a.fullModel, b.fullModel) && NameLess(b.fullModel, c.fullModel) {
      NameLessTransitive(a.fullModel, b.fullModel, c.fullModel);
    }
  }

  lemma BeforeTotal(a: Candidate, b: Candidate)
    ensures a.fullModel != b.fullModel ==> Before(a, b) || Before(b, a)
    ensures !(Before(a, b) && Before(b, a))
  {
    NameLessTotal(a.fullModel, b.fullModel);
  }

  lemma HeadIsFirst(a: seq<Candidate>, b: seq<Candidate>)
    requires InOrder(a) && InOrder(b) && multiset(a) == multiset(b) && a != [] && b != []
    ensures a[0] == b[0]
  {
    assert a[0] in multiset(b) && b[0] in multiset(a);
    var i :| 0 <= i < |b| && b[i] == a[0];
    var j :| 0 <= j < |a| && a[j] == b[0];
    if i != 0 && j != 0 {
      BeforeTotal(a[0], b[0]);
    }
  }

  lemma InOrderTail(a: seq<Candidate>)
    requires InOrder(a) && a != []
    ensures InOrder(a[1..]) && a == [a[0]] + a[1..] && multiset(a[1..]) == multiset(a) - multiset{a[0]}
  {
    assert a == [a[0]] + a[1..];
  }

  /** An ordered list of candidates is determined by its elements. */
  lemma {:induction false} OrderIsUnique(a: seq<Candidate>, b: seq<Candidate>)
    requires InOrder(a) && InOrder(b) && multiset(a) == multiset(b)
    ensures a == b
    decreases |a|
  {
    hide Before;
    assert |a| == |multiset(a)| && |b| == |multiset(b)|;
    if a != [] {
      HeadIsFirst(a, b);
      InOrderTail(a);
      InOrderTail(b);
      hide InOrder;
      OrderIsUnique(a[1..], b[1..]);
    }
  }

  /** No two candidates share a name. */
  ghost predicate DistinctNames(cs: seq<Candidate>) {
    DistinctBy(cs, (c: Candidate) => c.fullModel)
  }

  lemma BeforeIsWeakOrder()
    ensures WeakOrder(Before)
  {
    forall a, b
      ensures Before(a, b) ==> !Before(b, a)
    {
      BeforeTotal(a, b);
    }
    forall a, b, c | !Before(b, a) && !Before(c, b)
      ensures !Before(c, a)
    {
      if Before(c, a) {
        NotBefore(a, b);
        NotBefore(b, c);
        NotBeforeChains(a, b, c);
      }
    }
  }

  /** Candidates the comparator cannot tell apart agree on all four keys. */
  ghost predicate SameKeys(a: Candidate, b: Candidate) {
    a.score == b.score && a.statusRank == b.statusRank && a.prefixPriority == b.prefixPriority
      && a.fullModel == b.fullModel
  }

  lemma NotBefore(a: Candidate, b: Candidate)
    requires !Before(b, a)
    ensures Before(a, b) || SameKeys(a, b)
  {
    NameLessTotal(a.fullModel, b.fullModel);
  }

  lemma NotBeforeChains(a: Candidate, b: Candidate, c: Candidate)
    requires Before(a, b) || SameKeys(a, b)
    requires Before(b, c) || SameKeys(b, c)
    ensures !Before(c, a)
  {
    if Before(a, b) && Before(b, c) {
      BeforeTransitive(a, b, c);
    }
    BeforeTotal(a, c);
    BeforeTotal(a, b);
    BeforeTotal(b, c);
    hide NameLess;
  }

  lemma SortedIsInOrder(cs: seq<Candidate>)
    requires Sorted(cs, Before) && DistinctNames(cs)
    ensures InOrder(cs)
  {
    forall i, j | 0 <= i < j < |cs|
      ensures Before(cs[i], cs[j])
    {
      BeforeTotal(cs[i], cs[j]);
    }
  }

  method Sort(cs: seq<Candidate>) returns (r: seq<Candidate>)
    requires DistinctNames(cs)
    ensures InOrder(r) && DistinctNames(r) && multiset(r) == multiset(cs)
  {
    BeforeIsWeakOrder();
    r := SortSlice(cs, Before);
    PermutedDistinct(cs, r, (c: Candidate) => c.fullModel);
    SortedIsInOrder(r);
  }

  // ---------- observations ----------

  /** The counts behind the stability of an entry. */
  datatype Summary = Summary(total: int, green: int, yellow: int, red: int)

  /**
   * One probed model of an entry. `rank` is its status as adjusted for the channel, `status` the raw
   * one; `reasonScore` and `networkFailure` are read off its reason.
   */
  datatype Probe = Probe(prefix: string, upstream: string, status: int, rank: int, reasonScore: int,
    networkFailure: bool, testedAt: Time, note: Note)

  /** What a probe says in words: the reason of its status, and how it continues responses. */
  datatype Note = Note(reason: string, continuation: string, continuationReason: string)

  datatype Entry = Entry(prefix: string, disabled: bool, summary: Summary, updatedAt: Time, probes: seq<Probe>)

  datatype Snapshot = Snapshot(updatedAt: Time, entries: seq<Entry>)

  /** What the channel decides about a prefix and an upstream name. */
  datatype Channel = Channel(serves: (string, string) -> bool, priority: string -> int)

  datatype Observation = Observation(fullModel: string, prefixPriority: int, rank: int, points: int,
    networkFailure: bool, testedAt: Time, note: Note)

  function CountStatus(probes: seq<Probe>, status: int): nat {
    if probes == [] then 0
    else CountStatus(probes[..|probes| - 1], status) + if probes[|probes| - 1].status == status then 1 else 0
  }

  function Stability(e: Entry): int {
    var s := if e.summary.total > 0 then e.summary
             else Summary(e.summary.total + |e.probes|, e.summary.green + CountStatus(e.probes, GREEN),
                          e.summary.yellow + CountStatus(e.probes, YELLOW), e.summary.red + CountStatus(e.probes, RED));
    StabilityOf(s)
  }

  function StabilityOf(s: Summary): int {
    if s.total <= 0 then 0
    else
      var score := Quotient(s.green * 180 + s.yellow * 60 - s.red * 140, s.total);
      if s.total < 3 then Quotient(score * 70, 100) else score
  }

  function StatusScore(rank: int): int {
    if rank == GREEN then 140 else if rank == YELLOW then 35 else if rank == RED then -65 else -20
  }

  function TestedAt(updatedAt: Time, e: Entry, p: Probe): Time {
    if p.testedAt != 0 then p.testedAt else if e.updatedAt != 0 then e.updatedAt else updatedAt
  }

  /** The observation a probe contributes to the ranking of the requested model, if any. */
  function Observe(ch: Channel, requested: string, updatedAt: Time, e: Entry, stability: int,
                   p: Probe): Option<Observation> {
    var prefix := if p.prefix != "" then p.prefix else e.prefix;
    if e.disabled || prefix == "" || p.upstream == "" || !ch.serves(prefix, p.upstream) || p.upstream != requested
      then None
    else Some(Observation(prefix + "/" + p.upstream, ch.priority(prefix), p.rank,
                          StatusScore(p.rank) + stability + p.reasonScore, p.networkFailure, TestedAt(updatedAt, e, p),
                          p.note))
  }

  function ProbeObservations(ch: Channel, requested: string, updatedAt: Time, e: Entry,
                             probes: seq<Probe>): seq<Observation> {
    if probes == [] then []
    else
      var o := Observe(ch, requested, updatedAt, e, Stability(e), probes[|probes| - 1]);
      ProbeObservations(ch, requested, updatedAt, e, probes[..|probes| - 1]) + if o.Some? then [o.value] else []
  }

  function EntryObservations(ch: Channel, requested: string, updatedAt: Time, entries: seq<Entry>): seq<Observation> {
    if entries == [] then []
    else
      var e := entries[|entries| - 1];
      EntryObservations(ch, requested, updatedAt, entries[..|entries| - 1]) +
        ProbeObservations(ch, requested, updatedAt, e, e.probes)
  }

  function Observations(ch: Channel, requested: string, snapshot: Snapshot): seq<Observation> {
    EntryObservations(ch, requested, snapshot.updatedAt, snapshot.entries)
  }

  // ---------- aggregation ----------

  type Aggregates = map<string, Candidate>

  /** One more observation of a candidate; the first one fixes its priority. */
  function Add(c: Option<Candidate>, o: Observation): Candidate {
    var base := if c.Some?
      then c.value else Candidate(o.fullModel, o.rank, 0, o.prefixPriority, 0, 0, 0, 0, 0, 0, o.testedAt);
    base.(statusRank := Max(base.statusRank, o.rank),
          score := base.score + o.points,
          observations := base.observations + 1,
          healthy := base.healthy + if o.rank >= YELLOW then 1 else 0,
          greens := base.greens + if o.rank == GREEN then 1 else 0,
          yellows := base.yellows + if o.rank == YELLOW then 1 else 0,
          reds := base.reds + if o.rank == RED then 1 else 0,
          networkFailures := base.networkFailures + if o.networkFailure then 1 else 0,
          latestTestedAt := if base.latestTestedAt >= o.testedAt then base.latestTestedAt else o.testedAt)
  }

  function AddTo(m: Aggregates, o: Observation): Aggregates {
    m[o.fullModel := Add(if o.fullModel in m then Some(m[o.fullModel]) else None, o)]
  }

  function Aggregate(observations: seq<Observation>): Aggregates {
    if observations == [] then map[]
    else AddTo(Aggregate(observations[..|observations| - 1]), observations[|observations| - 1])
  }

  // ---------- the words kept with a candidate ----------

  datatype Kept = Kept(rank: int, note: Note)

  function Or(first: string, second: string): string {
    if first == "" then second else first
  }

  /** One more observation: a better status brings its own reason, an equal or worse one only fills a gap. */
  function Keep(k: Option<Kept>, o: Observation): Kept {
    if k.None? then Kept(o.rank, o.note)
    else
      var n := k.value.note;
      var better := o.rank > k.value.rank;
      Kept(if better then o.rank else k.value.rank,
           Note(if better then o.note.reason else Or(n.reason, o.note.reason),
                Or(n.continuation, o.note.continuation),
                Or(n.continuationReason, o.note.continuationReason)))
  }

  type Notes = map<string, Kept>

  function KeepIn(m: Notes, o: Observation): Notes {
    m[o.fullModel := Keep(if o.fullModel in m then Some(m[o.fullModel]) else None, o)]
  }

  function NotesOf(observations: seq<Observation>): Notes {
    if observations == [] then map[]
    else KeepIn(NotesOf(observations[..|observations| - 1]), observations[|observations| - 1])
  }

  // ---------- scores ----------

  /** Observations of one name agree on its priority. */
  ghost predicate Coherent(observations: seq<Observation>) {
    forall o, p :: o in observations && p in observations && o.fullModel == p.fullModel ==>
      o.prefixPriority == p.prefixPriority
  }

  const MINUTE := 60_000_000_000

  function Freshness(now: Time, testedAt: Time): int {
    if now == 0 || testedAt == 0 then 0
    else
      var age := if now >= testedAt then now - testedAt else testedAt - now;
      if age <= 30 * MINUTE then 40
      else if age <= 120 * MINUTE then 20
      else if age <= 360 * MINUTE then 5
      else if age <= 1440 * MINUTE then -10
      else -30
  }

  /** The final score of an aggregated candidate. */
  function Finish(c: Candidate, now: Time): Candidate {
    var availability := if c.observations > 0 then c.healthy * 100 / c.observations else 0;
    c.(score := c.score + c.greens * 220 + c.yellows * 70 - c.reds * 90 + availability * 5 - c.networkFailures * 25
                + c.statusRank * 20 - c.prefixPriority * 6 + Freshness(now, c.latestTestedAt))
  }

  // ---------- the order of observations does not matter ----------

  lemma AddCommutes(c: Option<Candidate>, o: Observation, p: Observation)
    requires o.fullModel == p.fullModel && o.prefixPriority == p.prefixPriority
    ensures Add(Some(Add(c, o)), p) == Add(Some(Add(c, p)), o)
  {
  }

  lemma AddToCommutes(m: Aggregates, o: Observation, p: Observation)
    requires o.fullModel == p.fullModel ==> o.prefixPriority == p.prefixPriority
    ensures AddTo(AddTo(m, o), p) == AddTo(AddTo(m, p), o)
  {
    if o.fullModel == p.fullModel {
      AddCommutes(if o.fullModel in m then Some(m[o.fullModel]) else None, o, p);
    }
  }

  lemma AggregateMore(seen: seq<Observation>, o: Observation)
    ensures Aggregate(seen + [o]) == AddTo(Aggregate(seen), o)
  {
    assert (seen + [o])[..|seen|] == seen;
  }

  lemma {:induction false} PullOut(left: seq<Observation>, o: Observation, right: seq<Observation>)
    requires forall p :: p in right && o.fullModel == p.fullModel ==> o.prefixPriority == p.prefixPriority
    ensures Aggregate(left + [o] + right) == AddTo(Aggregate(left + right), o)
    decreases |right|
  {
    hide AddTo, Aggregate;
    if right == [] {
      AggregateMore(left, o);
      assert left + right == left && left + [o] + right == left + [o];
    } else {
      var r, p := right[..|right| - 1], right[|right| - 1];
      PullOut(left, o, r);
      AddToCommutes(Aggregate(left + r), o, p);
      AggregateMore(left + r, p);
      AggregateMore(left + [o] + r, p);
      assert left + r + [p] == left + right && left + [o] + r + [p] == left + [o] + right;
    }
  }

  lemma CoherentPart(a: seq<Observation>, part: seq<Observation>)
    requires Coherent(a) && forall o :: o in part ==> o in a
    ensures Coherent(part)
  {
  }

  lemma PullOutAt(obs: seq<Observation>, i: nat)
    requires i < |obs| && Coherent(obs)
    ensures Aggregate(obs) == AddTo(Aggregate(obs[..i] + obs[i + 1..]), obs[i])
  {
    hide *;
    assert obs == obs[..i] + [obs[i]] + obs[i + 1..];
    CoherentFrom(obs, i);
    PullOut(obs[..i], obs[i], obs[i + 1..]);
  }

  lemma CoherentFrom(obs: seq<Observation>, i: nat)
    requires i < |obs| && Coherent(obs)
    ensures forall p :: p in obs[i + 1..] && obs[i].fullModel == p.fullModel ==>
      obs[i].prefixPriority == p.prefixPriority
  {
    assert obs[i] in obs && forall p :: p in obs[i + 1..] ==> p in obs;
  }

  lemma CoherentUpTo(a: seq<Observation>, n: nat)
    requires n <= |a| && Coherent(a)
    ensures Coherent(a[..n])
  {
    assert forall o :: o in a[..n] ==> o in a;
  }

  lemma CoherentPermuted(a: seq<Observation>, b: seq<Observation>)
    requires multiset(a) == multiset(b) && Coherent(a)
    ensures Coherent(b) && |a| == |b|
  {
    SameElements(a, b);
    CoherentPart(a, b);
  }

  /** Aggregates depend on the observations only as a multiset. */
  lemma {:induction false} AggregatesCommute(a: seq<Observation>, b: seq<Observation>)
    requires multiset(a) == multiset(b) && Coherent(a)
    ensures Aggregate(a) == Aggregate(b)
    decreases |a|
  {
    hide *;
    CoherentPermuted(a, b);
    if a != [] {
      var n := |a| - 1;
      var i := MatchLast(a, b);
      PullOutAt(b, i);
      CoherentUpTo(a, n);
      AggregatesCommute(a[..n], b[..i] + b[i + 1..]);
      AggregateMore(a[..n], a[n]);
      assert a == a[..n] + [a[n]];
    }
  }

  // ---------- building the ranked list ----------

  lemma NotesMore(seen: seq<Observation>, o: Observation)
    ensures NotesOf(seen + [o]) == KeepIn(NotesOf(seen), o)
  {
    assert (seen + [o])[..|seen|] == seen;
  }

  lemma NextProbe(ch: Channel, requested: string, updatedAt: Time, e: Entry, j: nat)
    requires j < |e.probes|
    ensures ProbeObservations(ch, requested, updatedAt, e, e.probes[..j + 1])
         == ProbeObservations(ch, requested, updatedAt, e, e.probes[..j])
            + var o := Observe(ch, requested, updatedAt, e, Stability(e), e.probes[j]); if o.Some?
              then [o.value] else []
  {
    hide Observe, Stability;
    assert e.probes[..j + 1][..j] == e.probes[..j];
  }

  /** The inner loop, over the probes of one entry. */
  method AggregateEntry(ch: Channel, requested: string, updatedAt: Time, e: Entry, start: Aggregates, kept: Notes,
                        ghost seen: seq<Observation>)
    returns (aggregates: Aggregates, notes: Notes)
    requires start == Aggregate(seen) && kept == NotesOf(seen)
    ensures aggregates == Aggregate(seen + ProbeObservations(ch, requested, updatedAt, e, e.probes))
    ensures notes == NotesOf(seen + ProbeObservations(ch, requested, updatedAt, e, e.probes))
  {
    var stability := Stability(e);
    aggregates, notes := start, kept;
    ghost var all, part: seq<Observation> := seen, [];
    assert e.probes[..0] == [];
    hide Stability, Observe, AddTo, Aggregate, KeepIn, NotesOf;
    for j := 0 to |e.probes|
      invariant part == ProbeObservations(ch, requested, updatedAt, e, e.probes[..j])
      invariant all == seen + part && aggregates == Aggregate(all) && notes == NotesOf(all)
    {
      hide ProbeObservations;
      NextProbe(ch, requested, updatedAt, e, j);
      var o := Observe(ch, requested, updatedAt, e, stability, e.probes[j]);
      if o.Some? {
        AggregateMore(all, o.value);
        NotesMore(all, o.value);
        aggregates, notes := AddTo(aggregates, o.value), KeepIn(notes, o.value);
        all, part := all + [o.value], part + [o.value];
      }
    }
    assert e.probes[..|e.probes|] == e.probes;
  }

  lemma NextEntry(ch: Channel, requested: string, updatedAt: Time, entries: seq<Entry>, i: nat)
    requires i < |entries|
    ensures EntryObservations(ch, requested, updatedAt, entries[..i + 1])
         == EntryObservations(ch, requested, updatedAt, entries[..i])
            + ProbeObservations(ch, requested, updatedAt, entries[i], entries[i].probes)
  {
    hide ProbeObservations;
    assert entries[..i + 1][..i] == entries[..i];
  }

  /** The loop over the snapshot, entry by entry. */
  method AggregateSnapshot(ch: Channel, requested: string, snapshot: Snapshot)
    returns (aggregates: Aggregates, notes: Notes)
    ensures aggregates == Aggregate(Observations(ch, requested, snapshot))
    ensures notes == NotesOf(Observations(ch, requested, snapshot))
  {
    aggregates, notes := map[], map[];
    var entries := snapshot.entries;
    assert entries[..0] == [];
    for i := 0 to |entries|
      invariant aggregates == Aggregate(EntryObservations(ch, requested, snapshot.updatedAt, entries[..i]))
      invariant notes == NotesOf(EntryObservations(ch, requested, snapshot.updatedAt, entries[..i]))
    {
      hide *;
      NextEntry(ch, requested, snapshot.updatedAt, entries, i);
      aggregates, notes := AggregateEntry(ch, requested, snapshot.updatedAt, entries[i], aggregates, notes,
                                          EntryObservations(ch, requested, snapshot.updatedAt, entries[..i]));
    }
    assert entries[..|entries|] == entries;
  }

  ghost predicate Named(aggregates: Aggregates) {
    forall f :: f in aggregates ==> aggregates[f].fullModel == f
  }

  lemma {:induction false} AggregateNamed(obs: seq<Observation>)
    ensures Named(Aggregate(obs))
  {
    if obs != [] {
      AggregateNamed(obs[..|obs| - 1]);
    }
  }

  ghost function Finished(aggregates: Aggregates, now: Time): set<Candidate> {
    set f | f in aggregates :: Finish(aggregates[f], now)
  }

  /** The candidates are collected in any order; sorting settles it. */
  method Rank(aggregates: Aggregates, now: Time) returns (ranked: seq<Candidate>)
    requires Named(aggregates)
    ensures InOrder(ranked) && DistinctNames(ranked) && (set c | c in ranked) == Finished(aggregates, now)
  {
    var candidates: seq<Candidate> := [];
    var todo := aggregates.Keys;
    while todo != {}
      invariant todo <= aggregates.Keys && DistinctNames(candidates)
      invariant forall c :: c in candidates <==>
        exists f :: f in aggregates && f !in todo && c == Finish(aggregates[f], now)
    {
      var f :| f in todo;
      assert forall c :: c in candidates ==> c.fullModel !in todo;
      candidates := candidates + [Finish(aggregates[f], now)];
      todo := todo - {f};
    }
    ranked := Sort(candidates);
    SameElements(ranked, candidates);
  }

  /** The ranked candidates of a requested model, and the words kept with each. */
  method BuildRequestedCandidates(ch: Channel, requested: string, snapshot: Snapshot, now: Time)
    returns (ranked: seq<Candidate>, notes: Notes)
    ensures IsRanking(ranked, Observations(ch, requested, snapshot), now)
    ensures notes == NotesOf(Observations(ch, requested, snapshot))
  {
    var aggregates;
    aggregates, notes := AggregateSnapshot(ch, requested, snapshot);
    AggregateNamed(Observations(ch, requested, snapshot));
    ranked := Rank(aggregates, now);
  }

  /** `ranked` lists the finished candidates of the observations, best first. */
  ghost predicate IsRanking(ranked: seq<Candidate>, observations: seq<Observation>, now: Time) {
    InOrder(ranked) && DistinctNames(ranked) && (set c | c in ranked) == Finished(Aggregate(observations), now)
  }

  lemma {:induction false} AsMultiset(cs: seq<Candidate>)
    requires DistinctNames(cs)
    ensures multiset(cs) == multiset(set c | c in cs)
  {
    if cs != [] {
      var n := |cs| - 1;
      AsMultiset(cs[..n]);
      assert cs == cs[..n] + [cs[n]];
      assert (set c | c in cs) == (set c | c in cs[..n]) + {cs[n]};
      assert cs[n] !in cs[..n];
    }
  }

  /** The ranking is a function of the multiset of observations. */
  lemma RankingIsOrderIndependent(left: seq<Candidate>, right: seq<Candidate>, a: seq<Observation>, b: seq<Observation>,
                                  now: Time)
    requires IsRanking(left, a, now) && IsRanking(right, b, now)
    requires multiset(a) == multiset(b) && Coherent(a)
    ensures left == right
  {
    hide InOrder;
    AggregatesCommute(a, b);
    AsMultiset(left);
    AsMultiset(right);
    OrderIsUnique(left, right);
  }

  // ---------- permuted snapshots ----------

  lemma {:induction false} CountAsBag(probes: seq<Probe>, status: int, part: Probe -> multiset<int>)
    requires forall p :: part(p) == multiset{p.status}
    ensures CountStatus(probes, status) == Bag(probes, part)[status]
  {
    if probes != [] {
      CountAsBag(probes[..|probes| - 1], status, part);
    }
  }

  lemma SameCounts(a: seq<Probe>, b: seq<Probe>)
    requires multiset(a) == multiset(b)
    ensures forall status :: CountStatus(a, status) == CountStatus(b, status)
  {
    hide CountStatus, Bag;
    forall status
      ensures CountStatus(a, status) == CountStatus(b, status)
    {
      var part := (p: Probe) => multiset{p.status};
      CountAsBag(a, status, part);
      CountAsBag(b, status, part);
      BagPermuted(a, b, part);
    }
  }

  ghost function Contribution(ch: Channel, requested: string, updatedAt: Time,
                              e: Entry): Probe -> multiset<Observation> {
    (p: Probe) => var o := Observe(ch, requested, updatedAt, e, Stability(e), p); if o.Some?
      then multiset{o.value} else multiset{}
  }

  lemma {:induction false} ProbesAreBag(ch: Channel, requested: string, updatedAt: Time, e: Entry, probes: seq<Probe>)
    ensures multiset(ProbeObservations(ch, requested, updatedAt, e, probes)) ==
      Bag(probes, Contribution(ch, requested, updatedAt, e))
  {
    if probes != [] {
      hide Observe, Stability;
      ProbesAreBag(ch, requested, updatedAt, e, probes[..|probes| - 1]);
    }
  }

  ghost function EntryBag(ch: Channel, requested: string, updatedAt: Time): Entry -> multiset<Observation> {
    (e: Entry) => multiset(ProbeObservations(ch, requested, updatedAt, e, e.probes))
  }

  lemma {:induction false} EntriesAreBag(ch: Channel, requested: string, updatedAt: Time, entries: seq<Entry>)
    ensures multiset(EntryObservations(ch, requested, updatedAt, entries)) ==
      Bag(entries, EntryBag(ch, requested, updatedAt))
  {
    if entries != [] {
      hide ProbeObservations;
      EntriesAreBag(ch, requested, updatedAt, entries[..|entries| - 1]);
    }
  }

  /** The same entry with its probes in another order. */
  ghost predicate ProbesShuffled(a: Entry, b: Entry) {
    b == a.(probes := b.probes) && multiset(a.probes) == multiset(b.probes)
  }

  /** The same snapshot with probes shuffled within entries, and entries shuffled. */
  ghost predicate Shuffled(a: Snapshot, b: Snapshot, middle: seq<Entry>) {
    && a.updatedAt == b.updatedAt
    && |middle| == |a.entries| && (forall i :: 0 <= i < |middle| ==> ProbesShuffled(a.entries[i], middle[i]))
    && multiset(middle) == multiset(b.entries)
  }

  lemma ShuffledEntry(ch: Channel, requested: string, updatedAt: Time, a: Entry, b: Entry)
    requires ProbesShuffled(a, b)
    ensures EntryBag(ch, requested, updatedAt)(a) == EntryBag(ch, requested, updatedAt)(b)
  {
    assert Stability(a) == Stability(b) by {
      SameCounts(a.probes, b.probes);
      assert |a.probes| == |multiset(a.probes)| == |multiset(b.probes)| == |b.probes|;
      hide StabilityOf, Bag, CountStatus;
    }
    var left, right := Contribution(ch, requested, updatedAt, a), Contribution(ch, requested, updatedAt, b);
    assert forall p :: left(p) == right(p);
    hide Stability, Observe, Contribution;
    ProbesAreBag(ch, requested, updatedAt, a, a.probes);
    ProbesAreBag(ch, requested, updatedAt, b, b.probes);
    BagPermuted(a.probes, b.probes, left);
    BagSame(b.probes, left, right);
  }

  lemma ShuffledObservations(ch: Channel, requested: string, a: Snapshot, b: Snapshot, middle: seq<Entry>)
    requires Shuffled(a, b, middle)
    ensures multiset(Observations(ch, requested, a)) == multiset(Observations(ch, requested, b))
  {
    var part := EntryBag(ch, requested, a.updatedAt);
    forall i | 0 <= i < |middle|
      ensures part(a.entries[i]) == part(middle[i])
    {
      ShuffledEntry(ch, requested, a.updatedAt, a.entries[i], middle[i]);
    }
    hide EntryObservations, EntryBag;
    EntriesAreBag(ch, requested, a.updatedAt, a.entries);
    EntriesAreBag(ch, requested, b.updatedAt, b.entries);
    BagPointwise(a.entries, middle, part);
    BagPermuted(middle, b.entries, part);
  }

  // ---------- a full name fixes the provider prefix of a requested model ----------

  /** Provider prefixes hold no '/'. */
  ghost predicate PlainPrefixes(entries: seq<Entry>) {
    forall e :: e in entries ==> PlainEntry(e, e.probes)
  }

  ghost predicate PlainEntry(e: Entry, probes: seq<Probe>) {
    '/' !in e.prefix && forall p :: p in probes ==> '/' !in p.prefix
  }

  /** The observation is of a provider prefix in front of the requested name; a plain prefix if `plain`. */
  ghost predicate FromPrefix(ch: Channel, requested: string, plain: bool, o: Observation) {
    exists prefix :: IsFrom(ch, requested, plain, o, prefix)
  }

  ghost predicate IsFrom(ch: Channel, requested: string, plain: bool, o: Observation, prefix: string) {
    o.fullModel == prefix + "/" + requested && o.prefixPriority == ch.priority(prefix) && (plain ==> '/' !in prefix)
  }

  lemma {:induction false} ProbesFromPrefix(ch: Channel, requested: string, updatedAt: Time, plain: bool, e: Entry,
                                            probes: seq<Probe>)
    requires plain ==> PlainEntry(e, probes)
    ensures forall o :: o in ProbeObservations(ch, requested, updatedAt, e, probes) ==>
      FromPrefix(ch, requested, plain, o)
  {
    if probes != [] {
      ProbesFromPrefix(ch, requested, updatedAt, plain, e, probes[..|probes| - 1]);
      var p := probes[|probes| - 1];
      var o := Observe(ch, requested, updatedAt, e, Stability(e), p);
      hide Stability, StatusScore, TestedAt;
      if o.Some? {
        var prefix := if p.prefix != "" then p.prefix else e.prefix;
        assert IsFrom(ch, requested, plain, o.value, prefix);
        assert FromPrefix(ch, requested, plain, o.value);
      }
      hide Observe, FromPrefix;
    }
  }

  lemma {:induction false} EntriesFromPrefix(ch: Channel, requested: string, updatedAt: Time, plain: bool,
                                             entries: seq<Entry>)
    requires plain ==> PlainPrefixes(entries)
    ensures forall o :: o in EntryObservations(ch, requested, updatedAt, entries) ==>
      FromPrefix(ch, requested, plain, o)
  {
    if entries != [] {
      hide ProbeObservations, FromPrefix, PlainEntry;
      EntriesFromPrefix(ch, requested, updatedAt, plain, entries[..|entries| - 1]);
      var e := entries[|entries| - 1];
      ProbesFromPrefix(ch, requested, updatedAt, plain, e, e.probes);
    }
  }

  lemma SamePrefix(p: string, q: string, rest: string)
    requires p + rest == q + rest
    ensures p == q
  {
    assert |p| == |q|;
    assert (p + rest)[..|p|] == p && (q + rest)[..|q|] == q;
  }

  lemma ObservationsCoherent(ch: Channel, requested: string, snapshot: Snapshot)
    ensures Coherent(Observations(ch, requested, snapshot))
  {
    EntriesFromPrefix(ch, requested, snapshot.updatedAt, false, snapshot.entries);
    var obs := Observations(ch, requested, snapshot);
    forall o, p | o in obs && p in obs && o.fullModel == p.fullModel
      ensures o.prefixPriority == p.prefixPriority
    {
      var left :| IsFrom(ch, requested, false, o, left);
      var right :| IsFrom(ch, requested, false, p, right);
      assert left + "/" + requested == left + ("/" + requested) && right + "/" + requested == right + ("/" + requested);
      SamePrefix(left, right, "/" + requested);
    }
  }

  /** Shuffling entries, probes within entries, or the iteration over the aggregates leaves the ranking as it is. */
  lemma RankingIgnoresSnapshotOrder(ch: Channel, requested: string, a: Snapshot, b: Snapshot, middle: seq<Entry>,
                                    now: Time, left: seq<Candidate>, right: seq<Candidate>)
    requires Shuffled(a, b, middle)
    requires IsRanking(left, Observations(ch, requested, a), now)
    requires IsRanking(right, Observations(ch, requested, b), now)
    ensures left == right
  {
    ShuffledObservations(ch, requested, a, b, middle);
    ObservationsCoherent(ch, requested, a);
    RankingIsOrderIndependent(left, right, Observations(ch, requested, a), Observations(ch, requested, b), now);
  }

  /** Every ranked name is a provider prefix in front of the requested name. */
  lemma RankedNames(ch: Channel, requested: string, snapshot: Snapshot, now: Time, ranked: seq<Candidate>, i: nat)
    requires IsRanking(ranked, Observations(ch, requested, snapshot), now) && i < |ranked|
    requires PlainPrefixes(snapshot.entries)
    ensures exists prefix :: '/' !in prefix && ranked[i].fullModel == prefix + "/" + requested
  {
    var obs := Observations(ch, requested, snapshot);
    assert ranked[i] in Finished(Aggregate(obs), now);
    var f :| f in Aggregate(obs) && ranked[i] == Finish(Aggregate(obs)[f], now);
    AggregateNamed(obs);
    var o := AggregatedFrom(obs, f);
    EntriesFromPrefix(ch, requested, snapshot.updatedAt, true, snapshot.entries);
    assert FromPrefix(ch, requested, true, o);
    var prefix :| IsFrom(ch, requested, true, o, prefix);
  }

  lemma {:induction false} AggregatedFrom(obs: seq<Observation>, f: string) returns (o: Observation)
    requires f in Aggregate(obs)
    ensures o in obs && o.fullModel == f
  {
    o := obs[|obs| - 1];
    if o.fullModel != f {
      o := AggregatedFrom(obs[..|obs| - 1], f);
    }
  }
}
