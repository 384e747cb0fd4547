/** A blocked upstream holds no token and is not returned until its block is lifted. */
module ResolverSafety {
  import opened Wrappers
  import opened Filtering
  import opened Sorting
  import opened ResolverState
  import Ranking

  // ---------- the invariant ----------

  /** Every binding is to an upstream that serves the model it was requested for. */
  ghost predicate Honest(s: State) {
    forall k :: k in s.sticky ==> Upstream(s.sticky[k].model) == k.requested && s.sticky[k].requested == k.requested
  }

  /** The failed model has no token, no binding and is not selected. */
  ghost predicate Clear(s: State, f: FailureKey) {
    && TokenKey(f.channel, f.model) !in s.tokens
    && (forall k :: k in s.sticky && k.channel == f.channel ==> s.sticky[k].model != f.model)
    && (f.channel in s.selected ==> s.selected[f.channel].model != f.model)
  }

  /** A failure recorded under the model the upstream serves. */
  ghost predicate Proper(f: FailureKey) {
    Upstream(f.model) == f.requested
  }

  ghost predicate Safe(s: State) {
    Honest(s) && forall f :: f in s.failed && Proper(f) ==> Clear(s, f)
  }

  /** The upstream may be handed out for the query. */
  ghost predicate MayServe(failed: map<FailureKey, Block>, q: Query, model: string) {
    Upstream(model) == q.requested && q.Failure(model) !in failed
  }

  /** Candidates are loaded for the requested model only. */
  ghost predicate ForQuery(q: Query, w: World) {
    q.requested != ""
      && (w.load.Loaded? ==> forall c :: c in w.load.candidates ==> Upstream(c.fullModel) == q.requested)
  }

  /** A ranking of a snapshot whose provider prefixes are plain is for the query alone. */
  lemma RankedForQuery(ch: Ranking.Channel, snapshot: Ranking.Snapshot, ranked: seq<Candidate>, q: Query, w: World)
    requires q.requested != "" && w.load == Loaded(snapshot.updatedAt, ranked)
    requires Ranking.PlainPrefixes(snapshot.entries)
    requires Ranking.IsRanking(ranked, Ranking.Observations(ch, q.requested, snapshot), w.now)
    ensures ForQuery(q, w)
  {
    forall i | 0 <= i < |ranked|
      ensures Upstream(ranked[i].fullModel) == q.requested
    {
      Ranking.RankedNames(ch, q.requested, snapshot, w.now, ranked, i);
      var prefix :| '/' !in prefix && ranked[i].fullModel == prefix + "/" + q.requested;
      UpstreamOfFull(prefix, q.requested);
    }
  }

  // ---------- candidate lists ----------

  lemma {:induction false} FilterWithin<T>(s: seq<T>, keep: T -> bool)
    ensures forall x :: x in Filter(s, keep) ==> x in s
  {
    forall x | x in Filter(s, keep)
      ensures x in s
    {
      FilterHas(s, keep, x);
    }
  }

  lemma ForProtocolWithin(q: Query, traits: string -> Traits, cs: seq<Rated>)
    ensures forall c :: c in ForProtocol(q, traits, cs) ==> c in cs
  {
    var bridges := Filter(cs, (c: Rated) => traits(c.Name()).bridge);
    var pool := if bridges != [] then bridges else cs;
    FilterWithin(cs, (c: Rated) => traits(c.Name()).bridge);
    FilterWithin(pool, (c: Rated) => traits(c.Name()).externalNative);
    FilterWithin(cs, (c: Rated) => traits(c.Name()).statefulResponses);
  }

  lemma HealthyWithin(q: Query, w: World, cs: seq<Rated>)
    ensures forall c :: c in Healthy(q, w, cs) ==> c in cs
  {
    var base := Filter(cs, Usable);
    FilterWithin(cs, Usable);
    FilterWithin(base, Green);
    FilterWithin(base, Yellow);
    FilterWithin(Filter(base, Yellow), (c: Rated) => Fresh(c, w));
  }

  lemma RatedFrom(rated: seq<Rated>, s: State, q: Query, w: World, cs: seq<Candidate>, c: Rated) returns (i: nat)
    requires IsRated(rated, s, q, w, cs) && c in rated
    ensures i < |cs| && c.Name() == cs[i].fullModel && c.candidate.latestTestedAt == cs[i].latestTestedAt
  {
    var all := RatedAll(s, q, w, cs);
    SameElements(rated, all);
    i :| 0 <= i < |all| && all[i] == c;
  }

  /** Sifting only removes blocks, and lets a candidate through only when nothing blocks it any more. */
  lemma {:induction false} SiftOpen(failed: map<FailureKey, Block>, q: Query, updatedAt: Time, now: Time,
                                    cs: seq<Rated>)
    ensures var r := Sift(failed, q, updatedAt, now, cs);
            && (forall f :: f in r.failed ==> f in failed && r.failed[f] == failed[f])
            && (forall c :: c in r.open ==> c in cs && q.Failure(c.Name()) !in r.failed)
  {
    if cs != [] {
      SiftOpen(failed, q, updatedAt, now, cs[..|cs| - 1]);
    }
  }

  /** Some candidate of the list lifts the block. */
  ghost predicate LiftedIn(f: FailureKey, b: Block, q: Query, updatedAt: Time, now: Time, cs: seq<Rated>) {
    exists c :: c in cs && q.Failure(c.Name()) == f && Lifts(b, SeenAt(c.candidate, updatedAt), now)
  }

  /** A block goes away exactly when a candidate of the list lifts it. */
  lemma {:induction false} SiftLifts(failed: map<FailureKey, Block>, q: Query, updatedAt: Time, now: Time,
                                     cs: seq<Rated>, f: FailureKey)
    requires f in failed
    ensures f in Sift(failed, q, updatedAt, now, cs).failed <==> !LiftedIn(f, failed[f], q, updatedAt, now, cs)
  {
    if cs != [] {
      var n := |cs| - 1;
      SiftLifts(failed, q, updatedAt, now, cs[..n], f);
      SiftOpen(failed, q, updatedAt, now, cs[..n]);
      assert cs == cs[..n] + [cs[n]];
      hide Lifts, SeenAt;
      if LiftedIn(f, failed[f], q, updatedAt, now, cs) {
        var c :| c in cs && q.Failure(c.Name()) == f && Lifts(failed[f], SeenAt(c.candidate, updatedAt), now);
        assert c in cs[..n] ==> LiftedIn(f, failed[f], q, updatedAt, now, cs[..n]);
      }
      if LiftedIn(f, failed[f], q, updatedAt, now, cs[..n]) {
        var c :| c in cs[..n] && q.Failure(c.Name()) == f && Lifts(failed[f], SeenAt(c.candidate, updatedAt), now);
        assert c in cs;
      }
    }
  }

  // ---------- settling keeps the invariant ----------

  /** What every outcome of a call meets, given the blocks `failed` left by the sifting. */
  ghost predicate Sound(failed: map<FailureKey, Block>, q: Query, result: Result<Resolution, Error>, s': State) {
    && Safe(s') && s'.failed == failed
    && (result.Ok? ==> MayServe(failed, q, result.value.model) && TokenKey(q.channel, result.value.model) in s'.tokens)
  }

  lemma SettledSound(s: State, q: Query, w: World, model: string, expiresAt: Time, decision: Decision, count: nat,
                     result: Result<Resolution, Error>, s': State)
    requires Safe(s) && MayServe(s.failed, q, model)
    requires Settled(s, q, w, model, expiresAt, decision, count, result, s')
    ensures Sound(s.failed, q, result, s')
  {
    forall f | f in s'.failed && Proper(f)
      ensures Clear(s', f)
    {
      assert Clear(s, f);
      assert f.channel == q.channel && f.model == model ==> f == q.Failure(model);
    }
  }

  lemma RefusedSound(s: State, q: Query, error: Error, result: Result<Resolution, Error>, s': State)
    requires Safe(s) && Refused(s, error, result, s')
    ensures Sound(s.failed, q, result, s')
  {
  }

  lemma KeepsSound(s: State, q: Query, w: World, tokens: map<string, Time>, decision: Decision, count: nat,
                   result: Result<Resolution, Error>, s': State)
    requires Safe(s) && forall m :: m in tokens ==> MayServe(s.failed, q, m)
    requires KeepsToken(s, q, w, tokens, decision, count, result, s')
    ensures Sound(s.failed, q, result, s')
  {
    hide Safe, MayServe, Settled;
    var m :| Latest(tokens, m) && Settled(s, q, w, m, tokens[m], decision, count, result, s');
    SettledSound(s, q, w, m, tokens[m], decision, count, result, s');
  }

  /** Everything in the view may serve the query. */
  ghost predicate Servable(v: View, q: Query) {
    && Safe(v.state)
    && (forall c :: c in v.open ==> MayServe(v.state.failed, q, c.Name()))
    && (forall c :: c in v.healthy ==> c in v.open)
    && (forall m :: m in v.valid && Upstream(m) == q.requested ==> MayServe(v.state.failed, q, m))
  }

  lemma NothingHealthySound(ttl: nat, v: View, q: Query, w: World, result: Result<Resolution, Error>, s': State)
    requires Servable(v, q) && NothingHealthy(ttl, v, q, w, result, s')
    ensures Sound(v.state.failed, q, result, s')
  {
    hide Safe, MayServe, Settled, KeepsToken, Refused, Sound;
    var listed, all := ForRequested(Among(v.valid, v.open), q.requested), ForRequested(v.valid, q.requested);
    var bridges := Filter(v.open, (c: Rated) => w.traits(c.Name()).bridge);
    FilterWithin(v.open, (c: Rated) => w.traits(c.Name()).bridge);
    if !NoToken(listed) {
      KeepsSound(v.state, q, w, listed, AllUnhealthyExistingToken, |v.open|, result, s');
    } else if v.open == [] && !NoToken(all) {
      KeepsSound(v.state, q, w, all, AllUnhealthyExistingToken, 0, result, s');
    } else if |v.open| == 1 {
      SettledSound(v.state, q, w, v.open[0].Name(), w.now + ttl, SingleCandidate, 1, result, s');
    } else if bridges != [] {
      SettledSound(v.state, q, w, bridges[0].Name(), w.now + ttl, BridgeCandidate, |v.open|, result, s');
    } else {
      RefusedSound(v.state, q, NoHealthyCandidate, result, s');
    }
  }

  lemma AdvancedSafe(s: State, q: Query)
    requires Safe(s)
    ensures Safe(Advanced(s, q)) && Advanced(s, q).failed == s.failed
  {
    forall f | f in s.failed && Proper(f)
      ensures Clear(Advanced(s, q), f)
    {
      assert Clear(s, f);
    }
  }

  lemma PicksSound(ttl: nat, v: View, q: Query, w: World, result: Result<Resolution, Error>, s': State)
    requires Servable(v, q) && v.healthy != [] && Picks(ttl, v, q, w, result, s')
    ensures Sound(v.state.failed, q, result, s')
  {
    hide Safe, MayServe, Settled, Sound, Advanced, Cursor;
    match q.strategy
    case FillFirst =>
      SettledSound(v.state, q, w, v.healthy[0].Name(), w.now + ttl, NewFillFirst, |v.open|, result, s');
    case HealthAware =>
      SettledSound(v.state, q, w, v.healthy[0].Name(), w.now + ttl, NewHealthAware, |v.open|, result, s');
    case RoundRobin =>
      var load := m => LoadOf(v.state, q.channel, q.requested, m);
      var least := LeastLoaded(v.healthy, load);
      FilterWithin(v.healthy, (c: Rated) => forall d :: d in v.healthy ==> load(c.Name()) <= load(d.Name()));
      AdvancedSafe(v.state, q);
      var c := least[Cursor(v.state, q) % |least|];
      assert c in v.healthy;
      SettledSound(Advanced(v.state, q), q, w, c.Name(), w.now + ttl, NewBalanced, |v.open|, result, s');
  }

  lemma UnboundSound(ttl: nat, v: View, q: Query, w: World, latest: Option<string>, result: Result<Resolution, Error>,
                     s': State)
    requires Servable(v, q) && Unbound(ttl, v, q, w, latest, result, s')
    ensures Sound(v.state.failed, q, result, s')
  {
    hide Safe, MayServe, Settled, NothingHealthy, Picks, ShouldReuse, Sound;
    var reusable := Reusable(v, q);
    if latest.Some? && ShouldReuse(q.strategy, v.healthy, latest.value) {
      assert latest.value in v.valid && Upstream(latest.value) == q.requested;
      SettledSound(v.state, q, w, latest.value, Max(reusable[latest.value], w.now + ttl), TokenReuse, |v.open|, result,
        s');
    } else if v.healthy == [] {
      NothingHealthySound(ttl, v, q, w, result, s');
    } else {
      PicksSound(ttl, v, q, w, result, s');
    }
  }

  lemma UnstuckServable(v: View, q: Query)
    requires Servable(v, q)
    ensures Servable(Unstuck(v, q), q) && Unstuck(v, q).state.failed == v.state.failed
  {
    var t := Unbind(v.state, q);
    forall f | f in t.failed && Proper(f)
      ensures Clear(t, f)
    {
      assert Clear(v.state, f);
    }
  }

  lemma DecidedSound(ttl: nat, v: View, q: Query, w: World, latest: Option<string>, result: Result<Resolution, Error>,
                     s': State)
    requires Servable(v, q) && Decided(ttl, v, q, w, latest, result, s')
    ensures Sound(v.state.failed, q, result, s')
  {
    hide Safe, MayServe, Settled, Refused, Unbound, Unstuck, Sound;
    if q.stateful && v.open == [] {
      RefusedSound(v.state, q, NoStatefulCandidate, result, s');
    } else if v.bound.Some? && Lists(v.healthy, v.bound.value.model) {
      var i :| 0 <= i < |v.healthy| && v.healthy[i].Name() == v.bound.value.model;
      assert v.healthy[i] in v.open;
      SettledSound(v.state, q, w, v.bound.value.model, v.bound.value.expiresAt, StickyReuse, |v.open|, result, s');
    } else {
      UnstuckServable(v, q);
      UnboundSound(ttl, Unstuck(v, q), q, w, latest, result, s');
    }
  }

  // ---------- one call ----------

  /** Dropping tokens, bindings and blocks keeps the invariant. */
  lemma FewerSafe(s: State, t: State)
    requires Safe(s) && t.selected == s.selected
    requires forall k :: k in t.tokens ==> k in s.tokens
    requires forall k :: k in t.sticky ==> k in s.sticky && t.sticky[k] == s.sticky[k]
    requires forall f :: f in t.failed ==> f in s.failed
    ensures Safe(t)
  {
    forall f | f in t.failed && Proper(f)
      ensures Clear(t, f)
    {
      assert Clear(s, f);
    }
  }

  lemma StartedSafe(s: State, q: Query, now: Time)
    requires Safe(s)
    ensures Safe(Started(s, q, now)) && Started(s, q, now).failed == s.failed
  {
    StartedFewer(s, q, now);
    hide *;
    FewerSafe(s, Started(s, q, now));
  }

  /** A valid token of an upstream that serves the request is not blocked. */
  lemma ValidMayServe(s: State, q: Query, now: Time, m: string)
    requires Safe(s) && m in ValidTokens(s.tokens, q.channel, now) && Upstream(m) == q.requested
    ensures MayServe(s.failed, q, m)
  {
    assert Proper(q.Failure(m));
    assert TokenKey(q.channel, m) in s.tokens;
  }

  lemma SweptFewer(s: State, q: Query, w: World)
    ensures var t := Swept(s, q, w);
            && t.selected == s.selected && t.failed == s.failed
            && (forall k :: k in t.tokens ==> k in s.tokens)
            && (forall k :: k in t.sticky ==> k in s.sticky && t.sticky[k] == s.sticky[k])
  {
    var t := Started(s, q, w.now);
    StartedFewer(s, q, w.now);
    hide Started;
    assert forall k :: k in PurgedSticky(t.sticky, w.now) ==>
      k in t.sticky && PurgedSticky(t.sticky, w.now)[k] == t.sticky[k];
    hide PurgedSticky;
  }

  lemma StartedFewer(s: State, q: Query, now: Time)
    ensures var t := Started(s, q, now);
            && t.selected == s.selected && t.failed == s.failed
            && (forall k :: k in t.tokens ==> k in s.tokens)
            && (forall k :: k in t.sticky ==> k in s.sticky && t.sticky[k] == s.sticky[k])
  {
    hide Bound, Live;
  }

  lemma ViewedServable(s: State, q: Query, w: World, rated: seq<Rated>)
    requires Safe(s) && ForQuery(q, w) && w.load.Loaded? && IsRated(rated, Swept(s, q, w), q, w, w.load.candidates)
    ensures Servable(Viewed(s, q, w, rated), q)
  {
    var v := Viewed(s, q, w, rated);
    var eligible := ForProtocol(q, w.traits, rated);
    SweptFewer(s, q, w);
    SiftOpen(s.failed, q, w.load.updatedAt, w.now, eligible);
    HealthyWithin(q, w, v.open);
    ForProtocolWithin(q, w.traits, rated);
    FewerSafe(s, v.state);
    forall c | c in v.open
      ensures MayServe(v.state.failed, q, c.Name())
    {
      var i := RatedFrom(rated, Swept(s, q, w), q, w, w.load.candidates, c);
      assert w.load.candidates[i] in w.load.candidates;
    }
    forall m | m in v.valid && Upstream(m) == q.requested
      ensures MayServe(v.state.failed, q, m)
    {
      ValidMayServe(s, q, w.now, m);
    }
  }

  /** Every branch of a call keeps the invariant and returns only an unblocked upstream of the requested model. */
  lemma ResolvesSound(ttl: nat, s: State, q: Query, w: World, rated: seq<Rated>, latest: Option<string>,
                      result: Result<Resolution, Error>, s': State)
    requires Safe(s) && ForQuery(q, w)
    requires Resolves(ttl, s, q, w, rated, latest, result, s')
    ensures Sound(s'.failed, q, result, s')
    ensures w.load.Failed? ==> s'.failed == s.failed
    ensures w.load.Loaded? ==> s'.failed == Viewed(s, q, w, rated).state.failed
  {
    match w.load
    case Failed(_) =>
      var tokens := ForRequested(ValidTokens(s.tokens, q.channel, w.now), q.requested);
      var t := Started(s, q, w.now);
      StartedSafe(s, q, w.now);
      forall m | m in tokens
        ensures MayServe(t.failed, q, m)
      {
        ValidMayServe(s, q, w.now, m);
      }
      hide Safe, MayServe, KeepsToken, Refused, Started, ForRequested, ValidTokens;
      if NoToken(tokens) {
        RefusedSound(t, q, SnapshotUnavailable, result, s');
      } else {
        KeepsSound(t, q, w, tokens, SnapshotErrorExistingToken, 0, result, s');
      }
    case Loaded(_, candidates) =>
      hide Viewed, Decided, Servable, Safe, MayServe;
      ViewedServable(s, q, w, rated);
      DecidedSound(ttl, Viewed(s, q, w, rated), q, w, latest, result, s');
  }

  // ---------- what the protocol leaves ----------

  ghost predicate HasBridge(traits: string -> Traits, names: set<string>) {
    exists n :: n in names && traits(n).bridge
  }

  /** A bridge, wherever there is one. */
  ghost predicate Bridged(traits: string -> Traits, names: set<string>, m: string) {
    HasBridge(traits, names) ==> traits(m).bridge
  }

  /** Something that remains after the choice of bridges is native to the external client. */
  ghost predicate HasNative(traits: string -> Traits, names: set<string>) {
    exists n :: n in names && Bridged(traits, names, n) && traits(n).externalNative
  }

  /**
   * The protocol leaves the upstream among `names`: for an external native client of Claude the bridges if there are
   * any, of those the native ones if there are any; for stateful Codex responses the ones that support them; else all.
   */
  ghost predicate Passes(q: Query, traits: string -> Traits, names: set<string>, m: string) {
    && (q.channel.Claude? && q.externalNative ==>
          Bridged(traits, names, m) && (HasNative(traits, names) ==> traits(m).externalNative))
    && (q.channel.Codex? && q.responses && q.stateful ==> traits(m).statefulResponses)
  }

  ghost function RatedNames(cs: seq<Rated>): set<string> {
    set c | c in cs :: c.Name()
  }

  ghost function CandidateNames(cs: seq<Candidate>): set<string> {
    set c | c in cs :: c.fullModel
  }

  lemma FilterNone<T>(s: seq<T>, keep: T -> bool)
    ensures Filter(s, keep) == [] <==> forall x :: x in s ==> !keep(x)
  {
    forall x | x in s
      ensures x in Filter(s, keep) <==> keep(x)
    {
      FilterHas(s, keep, x);
    }
    if Filter(s, keep) != [] {
      FilterHas(s, keep, Filter(s, keep)[0]);
    }
  }

  /** The list keeps exactly the candidates the protocol leaves, and for Claude never none. */
  lemma ForProtocolExactly(q: Query, traits: string -> Traits, cs: seq<Rated>, c: Rated)
    ensures c in ForProtocol(q, traits, cs) <==> c in cs && Passes(q, traits, RatedNames(cs), c.Name())
    ensures q.channel.Claude? && cs != [] ==> ForProtocol(q, traits, cs) != []
  {
    var names := RatedNames(cs);
    var isBridge, isNative := (d: Rated) => traits(d.Name()).bridge, (d: Rated) => traits(d.Name()).externalNative;
    var bridges := Filter(cs, isBridge);
    var pool := if bridges != [] then bridges else cs;
    FilterNone(cs, isBridge);
    assert bridges != [] <==> HasBridge(traits, names);
    forall d
      ensures d in pool <==> d in cs && Bridged(traits, names, d.Name())
    {
      FilterHas(cs, isBridge, d);
    }
    FilterNone(pool, isNative);
    assert Filter(pool, isNative) != [] <==> HasNative(traits, names);
    FilterHas(pool, isNative, c);
    FilterHas(cs, (d: Rated) => traits(d.Name()).statefulResponses, c);
    hide Bridged, HasBridge, HasNative, RatedNames;
  }

  lemma RatedTo(rated: seq<Rated>, s: State, q: Query, w: World, cs: seq<Candidate>, d: Candidate) returns (c: Rated)
    requires IsRated(rated, s, q, w, cs) && d in cs
    ensures c in rated && c.Name() == d.fullModel && c.candidate.latestTestedAt == d.latestTestedAt
  {
    var all := RatedAll(s, q, w, cs);
    SameElements(rated, all);
    var i :| 0 <= i < |cs| && cs[i] == d;
    c := all[i];
  }

  lemma RatedSameNames(rated: seq<Rated>, s: State, q: Query, w: World, cs: seq<Candidate>)
    requires IsRated(rated, s, q, w, cs)
    ensures RatedNames(rated) == CandidateNames(cs)
  {
    hide IsRated;
    forall c | c in rated
      ensures c.Name() in CandidateNames(cs)
    {
      var i := RatedFrom(rated, s, q, w, cs, c);
      assert cs[i] in cs;
    }
    forall d | d in cs
      ensures d.fullModel in RatedNames(rated)
    {
      var c := RatedTo(rated, s, q, w, cs, d);
    }
  }

  // ---------- what lifts a block ----------

  /** The candidate lifts the block: the protocol leaves it, and the time is up or it was probed after the failure. */
  ghost predicate LiftsFor(f: FailureKey, b: Block, q: Query, w: World, c: Candidate)
    requires w.load.Loaded?
  {
    && c.fullModel == f.model && Passes(q, w.traits, CandidateNames(w.load.candidates), f.model)
    && Lifts(b, SeenAt(c, w.load.updatedAt), w.now)
  }

  /** The call sees a candidate that lifts the block. */
  ghost predicate LiftedBy(f: FailureKey, b: Block, q: Query, w: World) {
    && f.channel == q.channel && f.requested == q.requested && w.load.Loaded?
    && exists c :: c in w.load.candidates && LiftsFor(f, b, q, w, c)
  }

  /** A call never changes a block, and removes exactly the blocks it sees lifted. */
  lemma ResolvesLifts(ttl: nat, s: State, q: Query, w: World, rated: seq<Rated>, latest: Option<string>,
                      result: Result<Resolution, Error>, s': State, f: FailureKey)
    requires Safe(s) && ForQuery(q, w) && Resolves(ttl, s, q, w, rated, latest, result, s')
    requires f in s.failed
    ensures f in s'.failed ==> s'.failed[f] == s.failed[f]
    ensures f !in s'.failed <==> LiftedBy(f, s.failed[f], q, w)
  {
    ResolvesSound(ttl, s, q, w, rated, latest, result, s');
    if w.load.Loaded? {
      var eligible := ForProtocol(q, w.traits, rated);
      assert IsRated(rated, Swept(s, q, w), q, w, w.load.candidates);
      ViewedFailed(s, q, w, rated);
      hide *;
      SiftOpen(s.failed, q, w.load.updatedAt, w.now, eligible);
      SiftLifts(s.failed, q, w.load.updatedAt, w.now, eligible, f);
      EligibleLifts(s, q, w, rated, f, s.failed[f]);
    }
  }

  lemma ViewedFailed(s: State, q: Query, w: World, rated: seq<Rated>)
    ensures Viewed(s, q, w, rated).state.failed ==
      Sift(s.failed, q, w.load.updatedAt, w.now, ForProtocol(q, w.traits, rated)).failed
  {
    SweptFewer(s, q, w);
    hide Swept, Sift, ForProtocol, Healthy, ValidTokens, Bound;
  }

  lemma EligibleLifts(s: State, q: Query, w: World, rated: seq<Rated>, f: FailureKey, b: Block)
    requires w.load.Loaded? && IsRated(rated, Swept(s, q, w), q, w, w.load.candidates)
    ensures LiftedIn(f, b, q, w.load.updatedAt, w.now, ForProtocol(q, w.traits, rated)) <==> LiftedBy(f, b, q, w)
  {
    hide ForProtocol, IsRated, Swept, Lifts, Passes, RatedNames, CandidateNames, SeenAt;
    var cs, eligible := w.load.candidates, ForProtocol(q, w.traits, rated);
    RatedSameNames(rated, Swept(s, q, w), q, w, cs);
    if LiftedIn(f, b, q, w.load.updatedAt, w.now, eligible) {
      var c :| c in eligible && q.Failure(c.Name()) == f && Lifts(b, SeenAt(c.candidate, w.load.updatedAt), w.now);
      ForProtocolExactly(q, w.traits, rated, c);
      var i := RatedFrom(rated, Swept(s, q, w), q, w, cs, c);
      SeenSame(c.candidate, cs[i], w.load.updatedAt);
      assert cs[i] in cs && LiftsFor(f, b, q, w, cs[i]);
    }
    if LiftedBy(f, b, q, w) {
      var d :| d in cs && LiftsFor(f, b, q, w, d);
      var c := RatedTo(rated, Swept(s, q, w), q, w, cs, d);
      ForProtocolExactly(q, w.traits, rated, c);
      SeenSame(c.candidate, d, w.load.updatedAt);
      assert q.Failure(c.Name()) == f && c in eligible;
    }
  }

  lemma SeenSame(c: Candidate, d: Candidate, updatedAt: Time)
    requires c.latestTestedAt == d.latestTestedAt
    ensures SeenAt(c, updatedAt) == SeenAt(d, updatedAt)
  {
  }

  // ---------- health ----------

  /** Some candidate is usable and green. */
  ghost predicate HasGreen(cs: seq<Rated>) {
    exists c :: c in cs && Usable(c) && Green(c)
  }

  /** The healthy candidates: the usable green ones, or else, where yellow is good enough, the usable fresh yellow. */
  lemma HealthyExactly(q: Query, w: World, cs: seq<Rated>, c: Rated)
    ensures var yellow := (!q.stateful || w.allowYellow) && Yellow(c) && Fresh(c, w);
            c in Healthy(q, w, cs) <==> c in cs && Usable(c) && (if HasGreen(cs) then Green(c) else yellow)
  {
    var base := Filter(cs, Usable);
    var greens := Filter(base, Green);
    forall d
      ensures d in greens <==> d in cs && Usable(d) && Green(d)
    {
      FilterHas(cs, Usable, d);
      FilterHas(base, Green, d);
    }
    assert greens != [] <==> HasGreen(cs) by {
      if greens != [] {
        assert greens[0] in greens;
      }
    }
    FilterHas(cs, Usable, c);
    FilterHas(base, Yellow, c);
    FilterHas(Filter(base, Yellow), (d: Rated) => Fresh(d, w), c);
    hide Usable, Green, Yellow, Fresh;
  }

  /** Decisions that settle for less than a healthy candidate. */
  predicate FallsBack(d: Decision) {
    d == AllUnhealthyExistingToken || d == SingleCandidate || d == BridgeCandidate
  }

  /**
   * With a snapshot at hand, every strategy and every reuse answers with a healthy candidate, and a call falls
   * back, or gives up, only when no candidate is healthy.
   */
  lemma AnswersAreHealthy(ttl: nat, s: State, q: Query, w: World, rated: seq<Rated>, latest: Option<string>,
                          result: Result<Resolution, Error>, s': State)
    requires Resolves(ttl, s, q, w, rated, latest, result, s') && w.load.Loaded?
    ensures var healthy := Viewed(s, q, w, rated).healthy;
            && (result.Ok? && !FallsBack(result.value.decision) ==> Lists(healthy, result.value.model))
            && (result.Err? || FallsBack(result.value.decision) ==> healthy == [])
  {
    hide Viewed, IsRated;
    var v := Viewed(s, q, w, rated);
    assert v.healthy != [] ==> v.open != [] by {
      ViewedHealthy(s, q, w, rated);
      assert v.healthy != [] ==> v.healthy[0] in v.open;
    }
    DecidedHealthy(ttl, v, q, w, latest, result, s');
    hide *;
  }

  lemma ViewedHealthy(s: State, q: Query, w: World, rated: seq<Rated>)
    ensures forall c :: c in Viewed(s, q, w, rated).healthy ==> c in Viewed(s, q, w, rated).open
  {
    hide Swept, Sift, Healthy, ForProtocol, ValidTokens, Bound;
    HealthyWithin(q, w, Viewed(s, q, w, rated).open);
  }

  lemma DecidedHealthy(ttl: nat, v: View, q: Query, w: World, latest: Option<string>, result: Result<Resolution, Error>,
                       s': State)
    requires Decided(ttl, v, q, w, latest, result, s') && (v.healthy != [] ==> v.open != [])
    ensures result.Ok? && !FallsBack(result.value.decision) ==> Lists(v.healthy, result.value.model)
    ensures result.Err? || FallsBack(result.value.decision) ==> v.healthy == []
  {
    hide Issued, Unbound, Lists;
    if !(q.stateful && v.open == []) && !(v.bound.Some? && Lists(v.healthy, v.bound.value.model)) {
      UnboundHealthy(ttl, Unstuck(v, q), q, w, latest, result, s');
    }
  }

  lemma UnboundHealthy(ttl: nat, v: View, q: Query, w: World, latest: Option<string>, result: Result<Resolution, Error>,
                       s': State)
    requires Unbound(ttl, v, q, w, latest, result, s')
    ensures result.Ok? && !FallsBack(result.value.decision) ==> Lists(v.healthy, result.value.model)
    ensures result.Err? || FallsBack(result.value.decision) ==> v.healthy == []
  {
    hide Issued, Latest, NoToken, ShouldReuse, NothingHealthy, Picks, Lists;
    if latest.Some? && ShouldReuse(q.strategy, v.healthy, latest.value) {
      ReusedIsListed(q.strategy, v.healthy, latest.value);
    } else if v.healthy == [] {
      NothingHealthyFallsBack(ttl, v, q, w, result, s');
    } else {
      PicksListed(ttl, v, q, w, result, s');
    }
  }

  lemma ReusedIsListed(strategy: Strategy, healthy: seq<Rated>, model: string)
    requires ShouldReuse(strategy, healthy, model)
    ensures Lists(healthy, model)
  {
  }

  lemma NothingHealthyFallsBack(ttl: nat, v: View, q: Query, w: World, result: Result<Resolution, Error>, s': State)
    requires NothingHealthy(ttl, v, q, w, result, s')
    ensures result.Ok? ==> FallsBack(result.value.decision)
  {
    hide Issued, Latest, NoToken;
  }

  lemma PicksListed(ttl: nat, v: View, q: Query, w: World, result: Result<Resolution, Error>, s': State)
    requires v.healthy != [] && Picks(ttl, v, q, w, result, s')
    ensures result.Ok? && !FallsBack(result.value.decision) && Lists(v.healthy, result.value.model)
  {
    hide Issued, Advanced, Cursor, LoadOf;
    if q.strategy.RoundRobin? {
      var load := m => LoadOf(v.state, q.channel, q.requested, m);
      var least := LeastLoaded(v.healthy, load);
      FilterWithin(v.healthy, (c: Rated) => forall d :: d in v.healthy ==> load(c.Name()) <= load(d.Name()));
      assert least[Cursor(v.state, q) % |least|] in v.healthy;
    }
  }

  // ---------- invalidation ----------

  lemma InvalidatedSafe(s: State, channel: Channel, requested: string, model: string, conversation: string,
                        block: Option<Block>, now: Time)
    requires Safe(s)
    ensures Safe(Invalidated(s, channel, requested, model, conversation, block, now))
  {
    var t := Invalidated(s, channel, requested, model, conversation, block, now);
    forall f | f in t.failed && Proper(f)
      ensures Clear(t, f)
    {
      if f in s.failed {
        assert Clear(s, f);
      } else {
        assert f == FailureKey(channel, requested, model);
        assert forall k :: k in t.sticky ==> t.sticky[k] == s.sticky[k];
      }
    }
  }

  // ---------- runs ----------

  datatype Event =
    | Resolve(q: Query, w: World)
    | Invalidate(channel: Channel, requested: string, model: string, conversation: string, snapshotUpdated: Time,
      now: Time)
    | Evict(channel: Channel, requested: string, model: string, conversation: string, now: Time)
    | Cooldown(channel: Channel, requested: string, model: string, conversation: string, snapshotUpdated: Time,
      now: Time, period: int)

  /** The block an invalidation leaves; a cooldown that is not positive is an eviction. */
  function BlockOf(e: Event): Option<Block>
    requires !e.Resolve?
  {
    match e
    case Invalidate(_, _, _, _, updated, now) => Some(Block(updated, now, 0))
    case Evict(_, _, _, _, _) => None
    case Cooldown(_, _, _, _, updated, now, period) => if period > 0
      then Some(Block(updated, now, now + period)) else None
  }

  /** One event; `out` is the upstream a resolution returns. An unnamed model is ignored. */
  ghost predicate Step(ttl: nat, s: State, e: Event, out: Option<string>, s': State) {
    if e.Resolve? then
      && ForQuery(e.q, e.w)
      && exists rated, latest, result ::
           Resolves(ttl, s, e.q, e.w, rated, latest, result, s')
             && out == (if result.Ok? then Some(result.value.model) else None)
    else
      out == None
        && s' == if e.model == ""
        then s else Invalidated(s, e.channel, e.requested, e.model, e.conversation, BlockOf(e), e.now)
  }

  datatype Moment = Moment(event: Event, out: Option<string>, after: State)

  ghost predicate Run(ttl: nat, s: State, trace: seq<Moment>)
    decreases |trace|
  {
    trace == [] || (Step(ttl, s, trace[0].event, trace[0].out, trace[0].after) && Run(ttl, trace[0].after, trace[1..]))
  }

  function End(s: State, trace: seq<Moment>): State {
    if trace == [] then s else trace[|trace| - 1].after
  }

  lemma StepSafe(ttl: nat, s: State, e: Event, out: Option<string>, s': State)
    requires Safe(s) && Step(ttl, s, e, out, s')
    ensures Safe(s')
  {
    hide Safe, Resolves, ForQuery, Invalidated;
    if e.Resolve? {
      var rated, latest, result :| Resolves(ttl, s, e.q, e.w, rated, latest, result, s');
      ResolvesSound(ttl, s, e.q, e.w, rated, latest, result, s');
    } else if e.model != "" {
      InvalidatedSafe(s, e.channel, e.requested, e.model, e.conversation, BlockOf(e), e.now);
    }
  }

  lemma {:induction false} RunSafe(ttl: nat, s: State, trace: seq<Moment>)
    requires Safe(s) && Run(ttl, s, trace)
    ensures Safe(End(s, trace))
    decreases |trace|
  {
    hide Safe, Step;
    if trace != [] {
      StepSafe(ttl, s, trace[0].event, trace[0].out, trace[0].after);
      RunSafe(ttl, trace[0].after, trace[1..]);
    }
  }

  /** The event is a resolution that lifts the block the state holds for `f`. */
  ghost predicate Lifting(s: State, e: Event, f: FailureKey) {
    e.Resolve? && f in s.failed && LiftedBy(f, s.failed[f], e.q, e.w)
  }

  ghost predicate LiftFree(s: State, trace: seq<Moment>, f: FailureKey)
    decreases |trace|
  {
    trace == [] || (!Lifting(s, trace[0].event, f) && LiftFree(trace[0].after, trace[1..], f))
  }

  /** A block goes exactly when it is lifted; until then the upstream is not what an event returns on that channel. */
  lemma StepBlocked(ttl: nat, s: State, e: Event, out: Option<string>, s': State, f: FailureKey)
    requires Safe(s) && Step(ttl, s, e, out, s') && f in s.failed
    ensures f in s'.failed <==> !Lifting(s, e, f)
    ensures f in s'.failed && Proper(f) && e.Resolve? && e.q.channel == f.channel ==> out != Some(f.model)
  {
    hide Safe, Resolves, ForQuery, LiftedBy;
    if e.Resolve? {
      var rated, latest, result :|
        Resolves(ttl, s, e.q, e.w, rated, latest, result, s')
          && out == (if result.Ok? then Some(result.value.model) else None);
      ResolvesSound(ttl, s, e.q, e.w, rated, latest, result, s');
      ResolvesLifts(ttl, s, e.q, e.w, rated, latest, result, s', f);
      assert e.q.requested == f.requested && e.q.channel == f.channel ==> e.q.Failure(f.model) == f;
    }
  }

  /** Blocked at a moment: still recorded, without token, binding or selection, and not returned. */
  ghost predicate BlockedAt(m: Moment, f: FailureKey) {
    && f in m.after.failed && Clear(m.after, f)
    && (m.event.Resolve? && m.event.q.channel == f.channel ==> m.out != Some(f.model))
  }

  lemma {:induction false} StaysBlocked(ttl: nat, s: State, trace: seq<Moment>, f: FailureKey)
    requires Safe(s) && Run(ttl, s, trace) && f in s.failed && Proper(f) && LiftFree(s, trace, f)
    ensures forall i :: 0 <= i < |trace| ==> BlockedAt(trace[i], f)
    decreases |trace|
  {
    if trace != [] {
      var m := trace[0];
      hide Step, Lifting, Clear, Honest;
      StepSafe(ttl, s, m.event, m.out, m.after);
      StepBlocked(ttl, s, m.event, m.out, m.after, f);
      StaysBlocked(ttl, m.after, trace[1..], f);
      assert BlockedAt(m, f);
      forall i | 0 <= i < |trace|
        ensures BlockedAt(trace[i], f)
      {
        assert i > 0 ==> trace[1..][i - 1] == trace[i];
      }
    }
  }

  /**
   * In every run from an empty resolver: once a model is blocked under the name it serves, it holds no token,
   * no binding and no selection, and no resolution returns it, up to the first call that finds its block
   * expired or sees a probe strictly newer than the failure.
   */
  lemma BlockedUntilLifted(ttl: nat, past: seq<Moment>, future: seq<Moment>, f: FailureKey)
    requires Run(ttl, EMPTY, past) && Run(ttl, End(EMPTY, past), future)
    requires f in End(EMPTY, past).failed && Proper(f) && LiftFree(End(EMPTY, past), future, f)
    ensures Clear(End(EMPTY, past), f)
    ensures forall i :: 0 <= i < |future| ==> BlockedAt(future[i], f)
  {
    RunSafe(ttl, EMPTY, past);
    StaysBlocked(ttl, End(EMPTY, past), future, f);
  }

  /** Invalidating a named model blocks it from the moment of failure on, and a cooldown for its period. */
  lemma InvalidationBlocks(ttl: nat, s: State, e: Event, out: Option<string>, s': State)
    requires !e.Resolve? && Step(ttl, s, e, out, s') && e.model != "" && e.requested != ""
    ensures var f := FailureKey(e.channel, e.requested, e.model);
            if e.Invalidate? then f in s'.failed
              && forall seenAt: Time, now: Time :: Lifts(s'.failed[f], seenAt, now) ==> seenAt > e.now
            else if e.Cooldown? && e.period > 0 then
              f in s'.failed && forall seenAt: Time, now: Time :: Lifts(s'.failed[f], seenAt, now) ==>
                seenAt > e.now || now >= e.now + e.period
            else s'.failed == s.failed
  {
  }
}
