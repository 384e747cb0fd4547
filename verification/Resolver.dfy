/** The routing resolver (internal/api/cpams_resolver.go), each public method one atomic step. */
module Resolver {
  import opened Wrappers
  import opened Filtering
  import opened Sorting
  import opened ResolverState
  import opened ResolverSafety
  import opened ResolverBalance
  import Ranking

  // ---------- the order of rated candidates ----------

  /** Candidates the comparator cannot tell apart agree on all five keys. */
  ghost predicate SameKeys(a: Rated, b: Rated) {
    && a.candidate.score == b.candidate.score && a.unified == b.unified
      && a.candidate.statusRank == b.candidate.statusRank
    && a.candidate.prefixPriority == b.candidate.prefixPriority && a.Name() == b.Name()
  }

  lemma RatedTotal(a: Rated, b: Rated)
    ensures RatedBefore(a, b) || RatedBefore(b, a) || SameKeys(a, b)
    ensures !(RatedBefore(a, b) && RatedBefore(b, a))
  {
    Ranking.NameLessTotal(a.Name(), b.Name());
  }

  lemma RatedTransitive(a: Rated, b: Rated, c: Rated)
    requires RatedBefore(a, b) && RatedBefore(b, c)
    ensures RatedBefore(a, c)
  {
    if Ranking.NameLess(a.Name(), b.Name()) && Ranking.NameLess(b.Name(), c.Name()) {
      Ranking.NameLessTransitive(a.Name(), b.Name(), c.Name());
    }
  }

  lemma RatedSame(a: Rated, b: Rated, c: Rated)
    requires SameKeys(a, b)
    ensures RatedBefore(a, c) <==> RatedBefore(b, c)
    ensures RatedBefore(c, a) <==> RatedBefore(c, b)
  {
  }

  lemma RatedIsWeakOrder()
    ensures WeakOrder(RatedBefore)
  {
    forall a, b
      ensures RatedBefore(a, b) ==> !RatedBefore(b, a)
    {
      RatedTotal(a, b);
    }
    forall a, b, c | !RatedBefore(b, a) && !RatedBefore(c, b)
      ensures !RatedBefore(c, a)
    {
      RatedChains(a, b, c);
    }
  }

  lemma RatedChains(a: Rated, b: Rated, c: Rated)
    requires !RatedBefore(b, a) && !RatedBefore(c, b)
    ensures !RatedBefore(c, a)
  {
    RatedTotal(a, b);
    RatedTotal(b, c);
    RatedTotal(a, c);
    hide RatedBefore;
    if SameKeys(a, b) {
      RatedSame(a, b, c);
    } else if SameKeys(b, c) {
      RatedSame(b, c, a);
    } else {
      hide SameKeys;
      RatedTransitive(a, b, c);
    }
  }

  // ---------- picking a token ----------

  /** The token that expires last; map iteration settles ties either way. */
  method PickLatestToken(tokens: map<string, Time>) returns (model: Option<string>)
    ensures model.None? ==> NoToken(tokens)
    ensures model.Some? ==> Latest(tokens, model.value)
  {
    model := None;
    var todo := tokens.Keys;
    while todo != {}
      invariant todo <= tokens.Keys
      invariant model.None? ==> forall m :: m in tokens && m !in todo ==> m == ""
      invariant model.Some? ==> model.value != "" && model.value in tokens
      invariant model.Some? ==> forall m :: m in tokens && m !in todo && m != "" ==> tokens[m] <= tokens[model.value]
    {
      var m :| m in todo;
      todo := todo - {m};
      if m != "" && (model.None? || tokens[m] > tokens[model.value]) {
        model := Some(m);
      }
    }
  }

  // ---------- the least-loaded scan ----------

  function Get(loads: map<string, nat>, model: string): nat {
    if model in loads then loads[model] else 0
  }

  /** Nobody in the list has a lower load. */
  ghost predicate IsLeast(cs: seq<Rated>, load: string -> nat, least: nat) {
    (forall c :: c in cs ==> least <= load(c.Name())) && exists c :: c in cs && load(c.Name()) == least
  }

  lemma LeastStep(cs: seq<Rated>, c: Rated, load: string -> nat, least: nat)
    requires cs == [] || IsLeast(cs, load, least)
    ensures cs == [] || load(c.Name()) < least ==> IsLeast(cs + [c], load, load(c.Name()))
    ensures cs != [] && load(c.Name()) >= least ==> IsLeast(cs + [c], load, least)
  {
    assert (cs + [c])[|cs|] == c;
    if cs != [] && load(c.Name()) >= least {
      var d :| d in cs && load(d.Name()) == least;
      assert d in cs + [c];
    }
  }

  ghost function AtLoad(cs: seq<Rated>, load: string -> nat, least: nat): seq<Rated> {
    Filter(cs, (c: Rated) => load(c.Name()) == least)
  }

  lemma {:induction false} AtLoadNone(cs: seq<Rated>, load: string -> nat, least: nat)
    requires forall c :: c in cs ==> load(c.Name()) != least
    ensures AtLoad(cs, load, least) == []
  {
    if cs != [] {
      assert cs[|cs| - 1] in cs;
      AtLoadNone(cs[..|cs| - 1], load, least);
    }
  }

  lemma LeastIsFilter(cs: seq<Rated>, load: string -> nat, least: nat)
    requires IsLeast(cs, load, least)
    ensures AtLoad(cs, load, least) == LeastLoaded(cs, load)
  {
    var low := (c: Rated) => forall d :: d in cs ==> load(c.Name()) <= load(d.Name());
    var at := (c: Rated) => load(c.Name()) == least;
    FilterSame(cs, at, low);
  }

  /** One pass that starts over whenever it meets a lower load. */
  method LeastLoadedCandidates(candidates: seq<Rated>, loads: map<string, nat>, ghost load: string -> nat)
    returns (filtered: seq<Rated>)
    requires forall m :: Get(loads, m) == load(m)
    ensures filtered == LeastLoaded(candidates, load)
  {
    filtered := [];
    var minLoad: int := -1;
    for i := 0 to |candidates|
      invariant i == 0 ==> minLoad == -1 && filtered == []
      invariant i > 0 ==>
        minLoad >= 0 && IsLeast(candidates[..i], load, minLoad) && filtered == AtLoad(candidates[..i], load, minLoad)
    {
      var c := candidates[i];
      var l := Get(loads, c.Name());
      assert candidates[..i + 1] == candidates[..i] + [c];
      LeastStep(candidates[..i], c, load, if minLoad < 0 then 0 else minLoad);
      AtLoadStep(candidates[..i], c, load, l);
      if minLoad >= 0 {
        AtLoadStep(candidates[..i], c, load, minLoad);
      }
      if minLoad == -1 || l < minLoad {
        AtLoadNone(candidates[..i], load, l);
        minLoad := l;
        filtered := [c];
      } else if l == minLoad {
        filtered := filtered + [c];
      }
    }
    assert candidates[..|candidates|] == candidates;
    if candidates != [] {
      LeastIsFilter(candidates, load, minLoad);
    }
  }

  lemma AtLoadStep(cs: seq<Rated>, c: Rated, load: string -> nat, least: nat)
    ensures AtLoad(cs + [c], load, least) == AtLoad(cs, load, least) + if load(c.Name()) == least then [c] else []
  {
    assert (cs + [c])[..|cs|] == cs;
  }

  // ---------- candidate lists ----------

  method FilterForProtocol(q: Query, traits: string -> Traits, candidates: seq<Rated>) returns (r: seq<Rated>)
    ensures r == ForProtocol(q, traits, candidates)
  {
    r := candidates;
    if q.channel.Claude? && q.externalNative {
      var bridges := Select(r, (c: Rated) => traits(c.Name()).bridge);
      if |bridges| > 0 {
        r := bridges;
      }
      var native := Select(r, (c: Rated) => traits(c.Name()).externalNative);
      if |native| > 0 {
        r := native;
      }
    }
    if !q.channel.Codex? || !q.responses || !q.stateful {
      return;
    }
    r := Select(r, (c: Rated) => traits(c.Name()).statefulResponses);
  }

  method HealthyCandidates(q: Query, w: World, candidates: seq<Rated>) returns (r: seq<Rated>)
    ensures r == Healthy(q, w, candidates)
  {
    var base := Select(candidates, Usable);
    if |base| == 0 {
      return [];
    }
    var greens := Select(base, Green);
    var yellows := Select(base, Yellow);
    if |greens| == 0 {
      if q.stateful && !w.allowYellow {
        return [];
      }
      r := Select(yellows, (c: Rated) => Fresh(c, w));
    } else {
      r := greens;
    }
  }

  // ---------- loads ----------

  /** The live bindings of a model among those already visited. */
  ghost function Counted(sticky: map<StickyKey, Selection>, done: set<StickyKey>, channel: Channel, requested: string,
                         model: string, now: Time): set<StickyKey> {
    set k | k in sticky && k in done && Live(sticky[k].expiresAt, now) && k.channel == channel
      && k.requested == requested && sticky[k].model == model
  }

  ghost predicate CountsVisited(loads: map<string, nat>, sticky: map<StickyKey, Selection>, done: set<StickyKey>,
                                channel: Channel, requested: string, now: Time) {
    Get(loads, "") == 0 && forall m :: m != "" ==> Get(loads, m) == |Counted(sticky, done, channel, requested, m, now)|
  }

  /** Whether visiting a binding adds to the load of its model. */
  predicate Adds(k: StickyKey, sel: Selection, channel: Channel, requested: string, now: Time) {
    Live(sel.expiresAt, now) && k.channel == channel && k.requested == requested && sel.model != ""
  }

  lemma CountOne(loads: map<string, nat>, sticky: map<StickyKey, Selection>, done: set<StickyKey>, k: StickyKey,
                 channel: Channel, requested: string, now: Time)
    requires CountsVisited(loads, sticky, done, channel, requested, now) && k in sticky && k !in done
    ensures CountsVisited(if Adds(k, sticky[k], channel, requested, now)
      then loads[sticky[k].model := Get(loads, sticky[k].model) + 1] else loads,
                          sticky, done + {k}, channel, requested, now)
  {
    forall m | m != ""
      ensures |Counted(sticky, done + {k}, channel, requested, m, now)|
           == |Counted(sticky, done, channel, requested, m, now)| +
             if Adds(k, sticky[k], channel, requested, now) && sticky[k].model == m then 1 else 0
    {
      CountedOne(sticky, done, k, channel, requested, m, now);
    }
    hide Counted, Adds;
  }

  lemma CountedOne(sticky: map<StickyKey, Selection>, done: set<StickyKey>, k: StickyKey, channel: Channel,
                   requested: string, m: string, now: Time)
    requires k in sticky && k !in done && m != ""
    ensures |Counted(sticky, done + {k}, channel, requested, m, now)|
         == |Counted(sticky, done, channel, requested, m, now)| +
           if Adds(k, sticky[k], channel, requested, now) && sticky[k].model == m then 1 else 0
  {
    var before, after := Counted(sticky, done, channel, requested, m, now),
      Counted(sticky, done + {k}, channel, requested, m, now);
    if Adds(k, sticky[k], channel, requested, now) && sticky[k].model == m {
      assert after == before + {k};
    } else {
      assert after == before;
    }
  }

  /** The bindings while a sweep is under way: dead ones are gone once visited. */
  ghost function Sweeping(sticky: map<StickyKey, Selection>, todo: set<StickyKey>,
                          now: Time): map<StickyKey, Selection> {
    map k | k in sticky && (k in todo || Live(sticky[k].expiresAt, now)) :: sticky[k]
  }

  /** The tokens while a sweep of a channel is under way. */
  ghost function SweepingTokens(tokens: map<TokenKey, Time>, channel: Channel, todo: set<string>,
                                now: Time): map<TokenKey, Time> {
    map k | k in tokens && (k.channel != channel || k.model in todo || Live(tokens[k], now)) :: tokens[k]
  }

  /** The load once the tokens outside `todo` have been looked at. */
  ghost function LoadVisited(loads: map<string, nat>, tokens: map<TokenKey, Time>, channel: Channel, todo: set<string>,
                             now: Time, m: string): nat {
    if m !in todo && Get(loads, m) == 0 && TokenKey(channel, m) in tokens && Live(tokens[TokenKey(channel, m)], now)
      then 1 else Get(loads, m)
  }

  lemma VisitToken(bound: map<string, nat>, loads: map<string, nat>, tokens: map<TokenKey, Time>, channel: Channel,
                   todo: set<string>, now: Time, m: string)
    requires m in todo && TokenKey(channel, m) in tokens
    requires forall n :: Get(loads, n) == LoadVisited(bound, tokens, channel, todo, now, n)
    ensures var after := if Live(tokens[TokenKey(channel, m)], now) && Get(loads, m) == 0 then loads[m := 1] else loads;
            forall n :: Get(after, n) == LoadVisited(bound, tokens, channel, todo - {m}, now, n)
  {
    forall n
      ensures n != m ==>
        LoadVisited(bound, tokens, channel, todo - {m}, now, n) == LoadVisited(bound, tokens, channel, todo, now, n)
    {
    }
  }

  lemma SweepToken(tokens: map<TokenKey, Time>, channel: Channel, todo: set<string>, now: Time, m: string)
    requires m in todo && TokenKey(channel, m) in tokens
    ensures var before := SweepingTokens(tokens, channel, todo, now);
            && TokenKey(channel, m) in before && before[TokenKey(channel, m)] == tokens[TokenKey(channel, m)]
            && SweepingTokens(tokens, channel, todo - {m}, now)
               == if Live(tokens[TokenKey(channel, m)], now) then before else before - {TokenKey(channel, m)}
  {
  }

  lemma SweepEnds(tokens: map<TokenKey, Time>, channel: Channel, now: Time)
    ensures SweepingTokens(tokens, channel, Models(tokens, channel), now) == tokens
    ensures SweepingTokens(tokens, channel, {}, now) == PurgedTokens(tokens, channel, now)
  {
    forall k | k in tokens && k.channel == channel
      ensures k.model in Models(tokens, channel)
    {
      assert k == TokenKey(channel, k.model);
    }
  }

  lemma PurgedMembers(tokens: map<TokenKey, Time>, channel: Channel, now: Time)
    ensures forall m :: TokenKey(channel, m) in PurgedTokens(tokens, channel, now) <==>
                          TokenKey(channel, m) in tokens && Live(tokens[TokenKey(channel, m)], now)
  {
  }

  /** The valid tokens found so far. */
  ghost function ValidVisited(tokens: map<TokenKey, Time>, channel: Channel, todo: set<string>,
                              now: Time): map<string, Time> {
    map m | m in Models(tokens, channel) && m !in todo
      && Live(tokens[TokenKey(channel, m)], now) :: tokens[TokenKey(channel, m)]
  }

  lemma VisitValid(tokens: map<TokenKey, Time>, channel: Channel, todo: set<string>, now: Time, m: string)
    requires m in todo && TokenKey(channel, m) in tokens
    ensures ValidVisited(tokens, channel, todo - {m}, now)
         == if Live(tokens[TokenKey(channel, m)], now)
           then ValidVisited(tokens, channel, todo, now)[m := tokens[TokenKey(channel, m)]]
            else ValidVisited(tokens, channel, todo, now)
  {
  }

  /** Nothing of the channel is left to sweep. */
  ghost predicate Clean(s: State, channel: Channel, now: Time) {
    s.sticky == PurgedSticky(s.sticky, now) && s.tokens == PurgedTokens(s.tokens, channel, now)
  }

  lemma SweptIsClean(s: State, q: Query, w: World)
    requires w.load.Loaded? && w.load.candidates != []
    ensures Clean(Swept(s, q, w), q.channel, w.now)
    ensures var t := Started(s, q, w.now);
            Swept(s, q, w) ==
              t.(sticky := PurgedSticky(t.sticky, w.now), tokens := PurgedTokens(t.tokens, q.channel, w.now))
  {
    hide Bound;
    var t := Started(s, q, w.now);
    assert PurgedTokens(t.tokens, q.channel, w.now) == t.tokens;
    hide Started;
  }

  lemma SameClean(s: State, t: State, channel: Channel, now: Time)
    requires Clean(s, channel, now) && t.sticky == s.sticky && t.tokens == s.tokens
    ensures Clean(t, channel, now)
  {
  }

  lemma HealthyNeedsCandidates(s: State, q: Query, w: World, rated: seq<Rated>)
    requires w.load.Loaded? && IsRated(rated, Swept(s, q, w), q, w, w.load.candidates)
    requires Viewed(s, q, w, rated).healthy != []
    ensures w.load.candidates != []
  {
    hide Swept, Sift, Healthy, ForProtocol, ValidTokens, Bound;
    var eligible := ForProtocol(q, w.traits, rated);
    var open := Viewed(s, q, w, rated).open;
    HealthyWithin(q, w, open);
    SiftOpen(Swept(s, q, w).failed, q, w.load.updatedAt, w.now, eligible);
    ForProtocolWithin(q, w.traits, rated);
    SameElements(rated, RatedAll(Swept(s, q, w), q, w, w.load.candidates));
    assert Healthy(q, w, open)[0] in rated;
  }

  // ---------- the resolver ----------

  class Resolver {
    const tokenTTL: nat
    var tokens: map<TokenKey, Time>
    var sticky: map<StickyKey, Selection>
    var selected: map<Channel, Selection>
    var failed: map<FailureKey, Block>
    var cursors: map<CursorKey, nat>

    ghost function State(): State
      reads this
    {
      ResolverState.State(tokens, sticky, selected, failed, cursors)
    }

    constructor (ttl: nat)
      ensures State() == EMPTY && tokenTTL == ttl
    {
      tokenTTL := ttl;
      tokens, sticky, selected, failed, cursors := map[], map[], map[], map[], map[];
    }

    method CollectValidTokens(channel: Channel, now: Time) returns (valid: map<string, Time>)
      modifies this`tokens
      ensures tokens == PurgedTokens(old(tokens), channel, now)
      ensures valid == ValidTokens(old(tokens), channel, now)
    {
      hide SweepingTokens, PurgedTokens;
      valid := map[];
      ghost var start := tokens;
      var todo := Models(tokens, channel);
      SweepEnds(start, channel, now);
      while todo != {}
        invariant todo <= Models(start, channel)
        invariant tokens == SweepingTokens(start, channel, todo, now)
        invariant valid == ValidVisited(start, channel, todo, now)
      {
        hide SweepingTokens, ValidVisited, Live;
        var m :| m in todo;
        SweepToken(start, channel, todo, now, m);
        VisitValid(start, channel, todo, now, m);
        todo := todo - {m};
        if !Live(tokens[TokenKey(channel, m)], now) {
          tokens := tokens - {TokenKey(channel, m)};
        } else {
          valid := valid[m := tokens[TokenKey(channel, m)]];
        }
      }
    }

    /** Drops every dead binding, counting the live ones of the requested model. */
    method SweepBindings(channel: Channel, requested: string, now: Time) returns (loads: map<string, nat>)
      modifies this`sticky
      ensures sticky == PurgedSticky(old(sticky), now)
      ensures CountsVisited(loads, old(sticky), old(sticky).Keys, channel, requested, now)
    {
      loads := map[];
      ghost var start := sticky;
      ghost var done: set<StickyKey> := {};
      var todo := sticky.Keys;
      while todo != {}
        invariant done !! todo && done + todo == start.Keys
        invariant sticky == Sweeping(start, todo, now)
        invariant CountsVisited(loads, start, done, channel, requested, now)
      {
        hide CountsVisited;
        var k :| k in todo;
        CountOne(loads, start, done, k, channel, requested, now);
        var sel := sticky[k];
        if !Live(sel.expiresAt, now) {
          sticky := sticky - {k};
        } else if k.channel == channel && k.requested == requested && sel.model != "" {
          loads := loads[sel.model := Get(loads, sel.model) + 1];
        }
        todo := todo - {k};
        done := done + {k};
      }
      assert done == start.Keys;
    }

    /** Drops the dead tokens of the channel; a live one counts as a load of 1 where nothing is bound. */
    method SweepTokens(channel: Channel, now: Time, bound: map<string, nat>) returns (loads: map<string, nat>)
      modifies this`tokens
      ensures tokens == PurgedTokens(old(tokens), channel, now)
      ensures forall m ::
        Get(loads, m) == if Get(bound, m) == 0 && TokenKey(channel, m) in tokens then 1 else Get(bound, m)
    {
      hide SweepingTokens, PurgedTokens;
      loads := bound;
      ghost var start := tokens;
      var todo := Models(tokens, channel);
      SweepEnds(start, channel, now);
      while todo != {}
        invariant todo <= Models(start, channel)
        invariant tokens == SweepingTokens(start, channel, todo, now)
        invariant forall m :: Get(loads, m) == LoadVisited(bound, start, channel, todo, now, m)
      {
        hide SweepingTokens, LoadVisited, Live, Get;
        var m :| m in todo;
        SweepToken(start, channel, todo, now, m);
        VisitToken(bound, loads, start, channel, todo, now, m);
        todo := todo - {m};
        if !Live(tokens[TokenKey(channel, m)], now) {
          tokens := tokens - {TokenKey(channel, m)};
        } else if Get(loads, m) == 0 {
          loads := loads[m := 1];
        }
      }
      assert forall m :: TokenKey(channel, m) in PurgedTokens(start, channel, now) <==>
                           TokenKey(channel, m) in start && Live(start[TokenKey(channel, m)], now) by {
        PurgedMembers(start, channel, now);
      }
    }

    /** The load of every model: bindings that are still live, or 1 for a bare token. */
    method ActiveLoadsByModel(channel: Channel, requested: string, now: Time) returns (loads: map<string, nat>)
      modifies this`sticky, this`tokens
      ensures State() ==
        old(State()).(sticky := PurgedSticky(old(sticky), now), tokens := PurgedTokens(old(tokens), channel, now))
      ensures forall m :: Get(loads, m) == LoadOf(State(), channel, requested, m)
    {
      ghost var start := sticky;
      var bound := SweepBindings(channel, requested, now);
      loads := SweepTokens(channel, now, bound);
      forall m
        ensures Get(loads, m) == LoadOf(State(), channel, requested, m)
      {
        assert Counted(start, start.Keys, channel, requested, m, now) == Bindings(State(), channel, requested, m);
      }
    }

    method EnsureToken(channel: Channel, model: string, expiresAt: Time)
      modifies this`tokens
      ensures tokens == old(tokens)[TokenKey(channel, model) := expiresAt]
    {
      tokens := tokens[TokenKey(channel, model) := expiresAt];
    }

    method SetSelection(channel: Channel, sel: Selection)
      modifies this`selected
      ensures selected == old(selected)[channel := sel]
    {
      selected := selected[channel := sel];
    }

    /** Issue the token, select the model and bind the conversation. */
    method Settle(q: Query, w: World, model: string, expiresAt: Time, decision: Decision, count: nat)
      returns (result: Result<Resolution, Error>)
      modifies this
      ensures Settled(old(State()), q, w, model, expiresAt, decision, count, result, State())
    {
      var sel := Selection(model, q.requested, expiresAt, w.load.updatedAt, decision, count, w.now);
      EnsureToken(q.channel, model, expiresAt);
      SetSelection(q.channel, sel);
      if q.conversation != "" {
        sticky := sticky[q.Sticky() := sel];
      }
      result := Ok(Answer(sel));
    }

    method KeepToken(q: Query, w: World, valid: map<string, Time>, model: string, decision: Decision, count: nat)
      returns (result: Result<Resolution, Error>)
      requires Latest(valid, model)
      modifies this
      ensures KeepsToken(old(State()), q, w, valid, decision, count, result, State())
    {
      result := Settle(q, w, model, valid[model], decision, count);
    }

    method LookUpBinding(q: Query, now: Time) returns (bound: Option<Selection>)
      modifies this`sticky
      ensures bound == Bound(old(State()), q, now)
      ensures State() == if q.conversation != "" && bound.None? then Unbind(old(State()), q) else old(State())
    {
      bound := None;
      if q.conversation != "" && q.Sticky() in sticky {
        var sel := sticky[q.Sticky()];
        if sel.model != "" && Live(sel.expiresAt, now) {
          bound := Some(sel);
        } else {
          sticky := sticky - {q.Sticky()};
        }
      }
      assert q.conversation != "" && q.Sticky() !in sticky ==> sticky == old(sticky) - {q.Sticky()};
    }

    method Start(q: Query, now: Time) returns (bound: Option<Selection>, valid: map<string, Time>)
      modifies this
      ensures State() == Started(old(State()), q, now)
      ensures bound == Bound(old(State()), q, now) && valid == ValidTokens(old(tokens), q.channel, now)
    {
      bound := LookUpBinding(q, now);
      valid := CollectValidTokens(q.channel, now);
    }

    /** Rate the candidates under the current loads and sort them again. */
    method ApplyUnifiedHealth(q: Query, w: World, candidates: seq<Candidate>) returns (rated: seq<Rated>)
      modifies this`sticky, this`tokens
      ensures candidates == [] ==> State() == old(State())
      ensures candidates != [] ==>
                State() == old(State()).(sticky := PurgedSticky(old(sticky), w.now),
                  tokens := PurgedTokens(old(tokens), q.channel, w.now))
      ensures IsRated(rated, State(), q, w, candidates)
    {
      rated := [];
      if |candidates| == 0 {
        assert RatedAll(State(), q, w, candidates) == [];
        return;
      }
      var loads := ActiveLoadsByModel(q.channel, q.requested, w.now);
      for i := 0 to |candidates|
        invariant |rated| == i && forall j :: 0 <= j < i ==> rated[j] == RateIn(State(), q, w, candidates[j])
      {
        var c := candidates[i];
        rated := rated + [Rate(c, w.rate(c, Get(loads, c.fullModel)))];
      }
      assert rated == RatedAll(State(), q, w, candidates);
      RatedIsWeakOrder();
      rated := SortSlice(rated, RatedBefore);
    }

    /** Keep the candidates that are not blocked, dropping blocks that are over. */
    method FilterBlockedCandidates(q: Query, w: World, candidates: seq<Rated>) returns (open: seq<Rated>)
      modifies this`failed
      ensures Sifted(failed, open) == Sift(old(failed), q, w.load.updatedAt, w.now, candidates)
    {
      open := [];
      for i := 0 to |candidates|
        invariant Sifted(failed, open) == Sift(old(failed), q, w.load.updatedAt, w.now, candidates[..i])
      {
        assert candidates[..i + 1][..i] == candidates[..i];
        var c := candidates[i];
        var key := q.Failure(c.Name());
        if key !in failed {
          open := open + [c];
        } else {
          var block := failed[key];
          if block.expiresAt != 0 && !(w.now < block.expiresAt) {
            failed := failed - {key};
            open := open + [c];
          } else {
            var releaseAt := if block.failedAt > block.snapshotUpdated then block.failedAt else block.snapshotUpdated;
            if SeenAt(c.candidate, w.load.updatedAt) > releaseAt {
              failed := failed - {key};
              open := open + [c];
            }
          }
        }
      }
      assert candidates[..|candidates|] == candidates;
    }

    /** Round-robin: the next of the least loaded candidates, by the cursor. */
    method PickBalanced(q: Query, w: World, healthy: seq<Rated>) returns (c: Rated)
      requires healthy != []
      requires Clean(State(), q.channel, w.now)
      modifies this
      ensures var least := LeastLoaded(healthy, m => LoadOf(old(State()), q.channel, q.requested, m));
              least != [] && c == least[Cursor(old(State()), q) % |least|]
      ensures State() == Advanced(old(State()), q)
    {
      var loads := ActiveLoadsByModel(q.channel, q.requested, w.now);
      ghost var load := m => LoadOf(old(State()), q.channel, q.requested, m);
      var least := LeastLoadedCandidates(healthy, loads, load);
      LeastLoadedExactly(healthy, load);
      var key := CursorKey(q.channel, q.requested);
      var index := if key in cursors then cursors[key] else 0;
      if index >= CURSOR_LIMIT {
        index := 0;
      }
      cursors := cursors[key := index + 1];
      c := least[index % |least|];
    }

    /** Pick by strategy and settle on the pick. */
    method PickAndSettle(q: Query, w: World, ghost v: View, open: seq<Rated>, healthy: seq<Rated>)
      returns (result: Result<Resolution, Error>)
      requires v.state == State() && v.open == open && v.healthy == healthy && healthy != []
      requires Clean(State(), q.channel, w.now)
      modifies this
      ensures Picks(tokenTTL, v, q, w, result, State())
    {
      match q.strategy
      case FillFirst =>
        result := Settle(q, w, healthy[0].Name(), w.now + tokenTTL, NewFillFirst, |open|);
      case HealthAware =>
        result := Settle(q, w, healthy[0].Name(), w.now + tokenTTL, NewHealthAware, |open|);
      case RoundRobin =>
        var c := PickBalanced(q, w, healthy);
        result := Settle(q, w, c.Name(), w.now + tokenTTL, NewBalanced, |open|);
    }

    /** No healthy candidate: an existing token, the only candidate, a bridge, or nothing. */
    method FallBack(q: Query, w: World, ghost v: View, valid: map<string, Time>, open: seq<Rated>)
      returns (result: Result<Resolution, Error>)
      requires v.state == State() && v.open == open && v.valid == valid
      modifies this
      ensures NothingHealthy(tokenTTL, v, q, w, result, State())
    {
      var latest := PickLatestToken(ForRequested(Among(valid, open), q.requested));
      if latest.Some? {
        result := KeepToken(q, w, ForRequested(Among(valid, open), q.requested), latest.value,
          AllUnhealthyExistingToken, |open|);
        return;
      }
      if |open| == 0 {
        latest := PickLatestToken(ForRequested(valid, q.requested));
        if latest.Some? {
          result := KeepToken(q, w, ForRequested(valid, q.requested), latest.value, AllUnhealthyExistingToken, 0);
          return;
        }
      }
      if |open| == 1 {
        result := Settle(q, w, open[0].Name(), w.now + tokenTTL, SingleCandidate, 1);
        return;
      }
      var bridges := Select(open, (c: Rated) => w.traits(c.Name()).bridge);
      if |bridges| > 0 {
        result := Settle(q, w, bridges[0].Name(), w.now + tokenTTL, BridgeCandidate, |open|);
        return;
      }
      result := Err(NoHealthyCandidate);
    }

    /** Reuse a good enough token, or pick a healthy candidate, or fall back. */
    method Issue(q: Query, w: World, ghost v: View, valid: map<string, Time>, open: seq<Rated>, healthy: seq<Rated>)
      returns (result: Result<Resolution, Error>, ghost latest: Option<string>)
      requires v.state == State() && v.open == open && v.healthy == healthy && v.valid == valid
      requires healthy != [] ==> Clean(State(), q.channel, w.now)
      modifies this
      ensures Unbound(tokenTTL, v, q, w, latest, result, State())
    {
      var token: Option<string> := None;
      var reusable: map<string, Time> := map[];
      if q.conversation == "" {
        reusable := ForRequested(Among(valid, healthy), q.requested);
        token := PickLatestToken(reusable);
      }
      latest := token;
      if token.Some? && ShouldReuse(q.strategy, healthy, token.value) {
        result := Settle(q, w, token.value, Max(reusable[token.value], w.now + tokenTTL), TokenReuse, |open|);
      } else if |healthy| == 0 {
        result := FallBack(q, w, v, valid, open);
      } else {
        result := PickAndSettle(q, w, v, open, healthy);
      }
    }

    method Decide(q: Query, w: World, ghost v: View, valid: map<string, Time>, bound: Option<Selection>,
                  open: seq<Rated>, healthy: seq<Rated>)
      returns (result: Result<Resolution, Error>, ghost latest: Option<string>)
      requires v == View(State(), valid, bound, open, healthy)
      requires healthy != [] ==> Clean(State(), q.channel, w.now)
      modifies this
      ensures Decided(tokenTTL, v, q, w, latest, result, State())
    {
      hide Settled, Unbound;
      latest := None;
      if q.stateful && |open| == 0 {
        result := Err(NoStatefulCandidate);
        return;
      }
      if bound.Some? && |healthy| > 0 {
        if Lists(healthy, bound.value.model) {
          result := Settle(q, w, bound.value.model, bound.value.expiresAt, StickyReuse, |open|);
          return;
        }
        sticky := sticky - {q.Sticky()};
      }
      result, latest := Issue(q, w, Unstuck(v, q), valid, open, healthy);
    }

    /** With the candidates at hand: rate, filter, sift, and decide. */
    method ResolveLoaded(q: Query, w: World, ghost before: State, valid: map<string, Time>, bound: Option<Selection>)
      returns (result: Result<Resolution, Error>, ghost rated: seq<Rated>, ghost latest: Option<string>)
      requires w.load.Loaded? && State() == Started(before, q, w.now)
      requires valid == ValidTokens(before.tokens, q.channel, w.now) && bound == Bound(before, q, w.now)
      modifies this
      ensures Resolves(tokenTTL, before, q, w, rated, latest, result, State())
    {
      hide Decided, IsRated, Started, Bound, Sift, ForProtocol, Healthy, PurgedTokens, PurgedSticky, ValidTokens, Clean;
      var list := ApplyUnifiedHealth(q, w, w.load.candidates);
      rated := list;
      if |w.load.candidates| > 0 {
        SweptIsClean(before, q, w);
      }
      assert State() == Swept(before, q, w);
      var eligible := FilterForProtocol(q, w.traits, list);
      var open := FilterBlockedCandidates(q, w, eligible);
      var healthy := HealthyCandidates(q, w, open);
      ghost var v := Viewed(before, q, w, rated);
      assert healthy != [] ==> Clean(State(), q.channel, w.now) by {
        if healthy != [] {
          HealthyNeedsCandidates(before, q, w, rated);
          SameClean(Swept(before, q, w), State(), q.channel, w.now);
        }
      }
      hide Swept;
      result, latest := Decide(q, w, v, valid, bound, open, healthy);
    }

    /** Route a request for a model: see `Resolves` for the branches. */
    method ResolveRequested(q: Query, w: World)
      returns (result: Result<Resolution, Error>, ghost rated: seq<Rated>, ghost latest: Option<string>)
      requires q.requested != ""
      modifies this
      ensures Resolves(tokenTTL, old(State()), q, w, rated, latest, result, State())
    {
      hide Decided, KeepsToken, IsRated, Started, Bound, ForRequested, ValidTokens;
      var bound, valid := Start(q, w.now);
      if w.load.Loaded? {
        hide Resolves;
        result, rated, latest := ResolveLoaded(q, w, old(State()), valid, bound);
        return;
      }
      rated, latest := [], None;
      var tokens := ForRequested(valid, q.requested);
      var token := PickLatestToken(tokens);
      if token.None? {
        result := Err(SnapshotUnavailable);
      } else {
        result := KeepToken(q, w, tokens, token.value, SnapshotErrorExistingToken, 0);
      }
    }

    // ---------- invalidation ----------

    /** Drop the bindings of a failed model. */
    method DropBindings(channel: Channel, requested: string, model: string, conversation: string, now: Time)
      modifies this`sticky
      ensures sticky == map k | k in old(sticky)
        && KeepsBinding(k, old(sticky)[k], channel, requested, model, conversation, now) :: old(sticky)[k]
    {
      ghost var start := sticky;
      var todo := sticky.Keys;
      while todo != {}
        invariant todo <= start.Keys
        invariant sticky == map k | k in start
          && (k in todo || KeepsBinding(k, start[k], channel, requested, model, conversation, now)) :: start[k]
      {
        var k :| k in todo;
        var sel := sticky[k];
        todo := todo - {k};
        if !Live(sel.expiresAt, now) {
          sticky := sticky - {k};
        } else if conversation != "" && requested != "" && k == StickyKey(channel, requested, conversation) {
          sticky := sticky - {k};
        } else if sel.model == model && (requested == "" || sel.requested == requested) {
          sticky := sticky - {k};
        }
      }
    }

    method DropModel(channel: Channel, requested: string, model: string, conversation: string, block: Option<Block>,
                     now: Time)
      modifies this
      ensures State() ==
        if model == ""
        then old(State()) else Invalidated(old(State()), channel, requested, model, conversation, block, now)
    {
      if model == "" {
        return;
      }
      tokens := tokens - {TokenKey(channel, model)};
      if channel in selected && selected[channel].model == model {
        selected := selected - {channel};
      }
      DropBindings(channel, requested, model, conversation, now);
      if block.Some? && requested != "" {
        failed := failed[FailureKey(channel, requested, model) := block.value];
      }
    }

    method InvalidateModel(channel: Channel, requested: string, model: string, conversation: string,
                           snapshotUpdated: Time, now: Time)
      modifies this
      ensures Step(tokenTTL, old(State()),
        Event.Invalidate(channel, requested, model, conversation, snapshotUpdated, now), None, State())
    {
      DropModel(channel, requested, model, conversation, Some(Block(snapshotUpdated, now, 0)), now);
    }

    method EvictModel(channel: Channel, requested: string, model: string, conversation: string, now: Time)
      modifies this
      ensures Step(tokenTTL, old(State()), Event.Evict(channel, requested, model, conversation, now), None, State())
    {
      DropModel(channel, requested, model, conversation, None, now);
    }

    method CooldownModel(channel: Channel, requested: string, model: string, conversation: string,
                         snapshotUpdated: Time, now: Time, period: int)
      modifies this
      ensures Step(tokenTTL, old(State()),
        Event.Cooldown(channel, requested, model, conversation, snapshotUpdated, now, period), None, State())
    {
      if period <= 0 {
        EvictModel(channel, requested, model, conversation, now);
        return;
      }
      DropModel(channel, requested, model, conversation, Some(Block(snapshotUpdated, now, now + period)), now);
    }
  }
}
