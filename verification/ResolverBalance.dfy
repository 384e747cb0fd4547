/** Round-robin spreads new conversations evenly over a fixed set of healthy candidates. */
module ResolverBalance {
  import opened Wrappers
  import opened Filtering
  import opened ResolverState
  import opened ResolverSafety

  // ---------- the least-loaded scan ----------

  /** Somebody has the least load. */
  lemma {:induction false} Lightest(cs: seq<Rated>, load: string -> nat) returns (c: Rated)
    requires cs != []
    ensures c in cs && forall d :: d in cs ==> load(c.Name()) <= load(d.Name())
  {
    var n := |cs| - 1;
    c := cs[n];
    assert cs == cs[..n] + [cs[n]];
    if n > 0 {
      var b := Lightest(cs[..n], load);
      if load(b.Name()) <= load(c.Name()) {
        c := b;
      }
    }
  }

  /** The scan's result: exactly the candidates that nobody undercuts, and never none of them. */
  lemma LeastLoadedExactly(cs: seq<Rated>, load: string -> nat)
    ensures forall c :: c in LeastLoaded(cs, load) <==> c in cs && forall d :: d in cs ==>
      load(c.Name()) <= load(d.Name())
    ensures cs != [] ==> LeastLoaded(cs, load) != []
  {
    var keep := (c: Rated) => forall d :: d in cs ==> load(c.Name()) <= load(d.Name());
    forall c
      ensures c in LeastLoaded(cs, load) <==> c in cs && keep(c)
    {
      FilterHas(cs, keep, c);
    }
    if cs != [] {
      var c := Lightest(cs, load);
      assert c in LeastLoaded(cs, load);
    }
  }

  // ---------- sums and spreads ----------

  ghost function Total(names: seq<string>, f: string -> nat): nat {
    if names == [] then 0 else f(names[0]) + Total(names[1..], f)
  }

  lemma {:induction false} TotalSame(names: seq<string>, f: string -> nat, g: string -> nat)
    requires forall m :: m in names ==> f(m) == g(m)
    ensures Total(names, f) == Total(names, g)
  {
    if names != [] {
      TotalSame(names[1..], f, g);
    }
  }

  ghost predicate Distinct(names: seq<string>) {
    forall i, j :: 0 <= i < j < |names| ==> names[i] != names[j]
  }

  lemma {:induction false} TotalBumped(names: seq<string>, f: string -> nat, g: string -> nat, pick: string)
    requires Distinct(names) && pick in names
    requires forall m :: m in names ==> g(m) == f(m) + if m == pick then 1 else 0
    ensures Total(names, g) == Total(names, f) + 1
  {
    if names[0] == pick {
      assert pick !in names[1..];
      TotalSame(names[1..], f, g);
    } else {
      TotalBumped(names[1..], f, g, pick);
    }
  }

  /** `n` times `x`, by repeated addition. */
  ghost function Times(n: nat, x: int): int {
    if n == 0 then 0 else x + Times(n - 1, x)
  }

  lemma Distribute(n: int, x: int)
    ensures n * x == x + (n - 1) * x
  {
  }

  lemma {:induction false} TimesIsProduct(n: nat, x: int)
    ensures Times(n, x) == n * x
  {
    if n > 0 {
      TimesIsProduct(n - 1, x);
      Distribute(n, x);
    }
  }

  lemma {:induction false} TotalBounds(names: seq<string>, f: string -> nat, low: int, high: int)
    requires forall m :: m in names ==> low <= f(m) <= high
    ensures Times(|names|, low) <= Total(names, f) <= Times(|names|, high)
  {
    if names != [] {
      TotalBounds(names[1..], f, low, high);
    }
  }

  lemma {:induction false} TotalStrict(names: seq<string>, f: string -> nat, m: string, low: int, high: int)
    requires m in names && forall n :: n in names ==> low <= f(n) <= high
    ensures f(m) < high ==> Total(names, f) < Times(|names|, high)
    ensures low < f(m) ==> Times(|names|, low) < Total(names, f)
  {
    TotalBounds(names[1..], f, low, high);
    if names[0] != m {
      TotalStrict(names[1..], f, m, low, high);
    }
  }

  /** No two loads differ by more than one. */
  ghost predicate Even(names: seq<string>, f: string -> nat) {
    forall m, n :: m in names && n in names ==> f(m) <= f(n) + 1
  }

  lemma EvenStrict(names: seq<string>, f: string -> nat, m: string)
    requires Even(names, f) && m in names
    ensures Times(|names|, f(m) - 1) < Total(names, f) < Times(|names|, f(m) + 1)
  {
    assert forall n :: n in names ==> f(m) - 1 <= f(n) <= f(m) + 1;
    hide *;
    TotalStrict(names, f, m, f(m) - 1, f(m) + 1);
  }

  /** `k` shared among `n`, rounded down and up. */
  function Floor(k: nat, n: nat): nat
    requires n > 0
  {
    k / n
  }

  function Ceiling(k: nat, n: nat): nat
    requires n > 0
  {
    (k + n - 1) / n
  }

  /** An even spread of a total gives everyone its floor or its ceiling. */
  lemma EvenShares(names: seq<string>, f: string -> nat, m: string, k: nat)
    requires Even(names, f) && m in names && Total(names, f) == k
    ensures Floor(k, |names|) <= f(m) <= Ceiling(k, |names|)
  {
    hide *;
    EvenStrict(names, f, m);
    TimesIsProduct(|names|, f(m) - 1);
    TimesIsProduct(|names|, f(m) + 1);
    Shares(|names|, k, f(m));
  }

  lemma QuotientBelow(k: int, n: int, b: int)
    requires n > 0 && k < n * b
    ensures k / n < b
  {
    var q := k / n;
    assert k == n * q + k % n;
    assert n * q < n * b;
  }

  lemma Shares(n: nat, k: nat, b: int)
    requires n > 0 && n * (b - 1) < k < n * (b + 1)
    ensures Floor(k, n) <= b <= Ceiling(k, n)
  {
    QuotientBelow(k, n, b + 1);
    assert n * (b - 1) == n * b - n;
    QuotientAtLeast(k + n - 1, n, b);
  }

  lemma Cancel(n: int, x: int, y: int)
    requires n > 0 && n * x < n * y
    ensures x < y
  {
  }

  lemma QuotientAtLeast(k: int, n: int, b: int)
    requires n > 0 && n * b <= k
    ensures b <= k / n
  {
    var q := k / n;
    assert k < n * (q + 1) by {
      assert k == n * q + k % n;
      Distribute(q + 1, n);
    }
    Cancel(n, b, q + 1);
  }

  // ---------- what a call touches ----------

  /** The call answers with a candidate that is not blocked, or with a valid token for the requested model. */
  ghost predicate From(v: View, q: Query, model: string) {
    Lists(v.open, model) || model in ForRequested(v.valid, q.requested)
  }

  /** The call issues no token but its answer's, and changes no binding but its own. */
  ghost predicate Touches(t: State, q: Query, result: Result<Resolution, Error>, s': State) {
    && (forall k :: k in s'.tokens ==> k in t.tokens || (result.Ok? && k == TokenKey(q.channel, result.value.model)))
    && (forall k: StickyKey :: k != q.Sticky() ==> (k in s'.sticky <==> k in t.sticky))
    && (forall k :: k != q.Sticky() && k in s'.sticky ==> s'.sticky[k] == t.sticky[k])
  }

  ghost predicate Ends(v: View, q: Query, result: Result<Resolution, Error>, s': State) {
    Touches(v.state, q, result, s') && (result.Ok? ==> From(v, q, result.value.model))
  }

  lemma SettledTouches(s: State, q: Query, w: World, model: string, expiresAt: Time, decision: Decision, count: nat,
                       result: Result<Resolution, Error>, s': State)
    requires Settled(s, q, w, model, expiresAt, decision, count, result, s')
    ensures Touches(s, q, result, s') && result.Ok? && result.value.model == model
  {
  }

  lemma KeepsTouches(s: State, q: Query, w: World, tokens: map<string, Time>, decision: Decision, count: nat,
                     result: Result<Resolution, Error>, s': State)
    requires KeepsToken(s, q, w, tokens, decision, count, result, s')
    ensures Touches(s, q, result, s') && result.Ok? && result.value.model in tokens
  {
    hide Settled, Touches;
    var m :| Latest(tokens, m) && Settled(s, q, w, m, tokens[m], decision, count, result, s');
    SettledTouches(s, q, w, m, tokens[m], decision, count, result, s');
  }

  lemma InList(cs: seq<Rated>, c: Rated)
    requires c in cs
    ensures Lists(cs, c.Name())
  {
  }

  lemma NothingHealthyEnds(ttl: nat, v: View, q: Query, w: World, result: Result<Resolution, Error>, s': State)
    requires NothingHealthy(ttl, v, q, w, result, s')
    ensures Ends(v, q, result, s')
  {
    hide Settled, KeepsToken, Lists;
    var listed, all := ForRequested(Among(v.valid, v.open), q.requested), ForRequested(v.valid, q.requested);
    var bridges := Filter(v.open, (c: Rated) => w.traits(c.Name()).bridge);
    FilterWithin(v.open, (c: Rated) => w.traits(c.Name()).bridge);
    if !NoToken(listed) {
      KeepsTouches(v.state, q, w, listed, AllUnhealthyExistingToken, |v.open|, result, s');
    } else if v.open == [] && !NoToken(all) {
      KeepsTouches(v.state, q, w, all, AllUnhealthyExistingToken, 0, result, s');
    } else if |v.open| == 1 {
      InList(v.open, v.open[0]);
      SettledTouches(v.state, q, w, v.open[0].Name(), w.now + ttl, SingleCandidate, 1, result, s');
    } else if bridges != [] {
      InList(v.open, bridges[0]);
      SettledTouches(v.state, q, w, bridges[0].Name(), w.now + ttl, BridgeCandidate, |v.open|, result, s');
    }
  }

  lemma PicksEnds(ttl: nat, v: View, q: Query, w: World, result: Result<Resolution, Error>, s': State)
    requires v.healthy != [] && Picks(ttl, v, q, w, result, s') && forall c :: c in v.healthy ==> c in v.open
    ensures Ends(v, q, result, s')
  {
    hide Settled, Lists, Cursor;
    InList(v.open, v.healthy[0]);
    match q.strategy
    case FillFirst =>
      SettledTouches(v.state, q, w, v.healthy[0].Name(), w.now + ttl, NewFillFirst, |v.open|, result, s');
    case HealthAware =>
      SettledTouches(v.state, q, w, v.healthy[0].Name(), w.now + ttl, NewHealthAware, |v.open|, result, s');
    case RoundRobin =>
      var load := m => LoadOf(v.state, q.channel, q.requested, m);
      var least := LeastLoaded(v.healthy, load);
      FilterWithin(v.healthy, (c: Rated) => forall d :: d in v.healthy ==> load(c.Name()) <= load(d.Name()));
      var c := least[Cursor(v.state, q) % |least|];
      assert c in v.healthy;
      InList(v.open, c);
      SettledTouches(Advanced(v.state, q), q, w, c.Name(), w.now + ttl, NewBalanced, |v.open|, result, s');
  }

  lemma UnboundEnds(ttl: nat, v: View, q: Query, w: World, latest: Option<string>, result: Result<Resolution, Error>,
                    s': State)
    requires Unbound(ttl, v, q, w, latest, result, s') && forall c :: c in v.healthy ==> c in v.open
    ensures Ends(v, q, result, s')
  {
    hide Settled, NothingHealthy, Picks, ShouldReuse, Touches, Lists;
    var reusable := Reusable(v, q);
    if latest.Some? && ShouldReuse(q.strategy, v.healthy, latest.value) {
      SettledTouches(v.state, q, w, latest.value, Max(reusable[latest.value], w.now + ttl), TokenReuse, |v.open|,
        result, s');
    } else if v.healthy == [] {
      NothingHealthyEnds(ttl, v, q, w, result, s');
    } else {
      PicksEnds(ttl, v, q, w, result, s');
    }
  }

  lemma DecidedEnds(ttl: nat, v: View, q: Query, w: World, latest: Option<string>, result: Result<Resolution, Error>,
                    s': State)
    requires Decided(ttl, v, q, w, latest, result, s') && forall c :: c in v.healthy ==> c in v.open
    ensures Ends(v, q, result, s')
  {
    hide Settled, Unbound, Lists;
    if q.stateful && v.open == [] {
    } else if v.bound.Some? && Lists(v.healthy, v.bound.value.model) {
      ListsWithin(v.healthy, v.open, v.bound.value.model);
      SettledTouches(v.state, q, w, v.bound.value.model, v.bound.value.expiresAt, StickyReuse, |v.open|, result, s');
    } else {
      UnboundEnds(ttl, Unstuck(v, q), q, w, latest, result, s');
    }
  }

  lemma ListsWithin(few: seq<Rated>, many: seq<Rated>, m: string)
    requires Lists(few, m) && forall c :: c in few ==> c in many
    ensures Lists(many, m)
  {
    var i :| 0 <= i < |few| && few[i].Name() == m;
    assert few[i] in many;
  }

  /** A call keeps the live bindings of other conversations, binds no other, and issues at most its answer's token. */
  ghost predicate TouchesOwn(s: State, q: Query, now: Time, result: Result<Resolution, Error>, s': State) {
    && (forall k :: k in s'.tokens ==> k in s.tokens || (result.Ok? && k == TokenKey(q.channel, result.value.model)))
    && (forall k :: k in s'.sticky && k != q.Sticky() ==> k in s.sticky && s'.sticky[k] == s.sticky[k])
    && (forall k :: k in s.sticky && k != q.Sticky() && Live(s.sticky[k].expiresAt, now) ==> k in s'.sticky)
  }

  lemma CallTouchesOwn(ttl: nat, s: State, q: Query, w: World, rated: seq<Rated>, latest: Option<string>,
                       result: Result<Resolution, Error>, s': State)
    requires Resolves(ttl, s, q, w, rated, latest, result, s')
    ensures TouchesOwn(s, q, w.now, result, s')
  {
    hide Viewed, Decided, KeepsToken, Swept, Lists, IsRated, Started, ForRequested, ValidTokens, NoToken;
    match w.load
    case Failed(_) =>
      var t := Started(s, q, w.now);
      StartedFewer(s, q, w.now);
      StartedKeeps(s, q, w.now);
      var tokens := ForRequested(ValidTokens(s.tokens, q.channel, w.now), q.requested);
      if !NoToken(tokens) {
        KeepsTouches(t, q, w, tokens, SnapshotErrorExistingToken, 0, result, s');
      }
    case Loaded(_, _) =>
      var v := Viewed(s, q, w, rated);
      ViewedHealthy(s, q, w, rated);
      DecidedEnds(ttl, v, q, w, latest, result, s');
      ViewedState(s, q, w, rated);
      SweptFewer(s, q, w);
      forall k | k in s.sticky && k != q.Sticky() && Live(s.sticky[k].expiresAt, w.now)
        ensures k in s'.sticky
      {
        SweptKeeps(s, q, w, k);
      }
  }

  lemma StartedKeeps(s: State, q: Query, now: Time)
    ensures forall k :: k in s.sticky && k != q.Sticky() ==> k in Started(s, q, now).sticky
  {
    hide Bound, PurgedTokens;
  }

  /** A call answers with an upstream that serves the requested model. */
  lemma CallServesRequested(ttl: nat, s: State, q: Query, w: World, rated: seq<Rated>, latest: Option<string>,
                            result: Result<Resolution, Error>, s': State)
    requires ForQuery(q, w) && Resolves(ttl, s, q, w, rated, latest, result, s') && result.Ok?
    ensures Upstream(result.value.model) == q.requested
  {
    hide Viewed, Decided, KeepsToken, Swept, IsRated, Started, ValidTokens, NoToken, Touches;
    match w.load
    case Failed(_) =>
      var tokens := ForRequested(ValidTokens(s.tokens, q.channel, w.now), q.requested);
      if !NoToken(tokens) {
        KeepsTouches(Started(s, q, w.now), q, w, tokens, SnapshotErrorExistingToken, 0, result, s');
      }
    case Loaded(_, candidates) =>
      var v := Viewed(s, q, w, rated);
      ViewedHealthy(s, q, w, rated);
      DecidedEnds(ttl, v, q, w, latest, result, s');
      if Lists(v.open, result.value.model) {
        var i :| 0 <= i < |v.open| && v.open[i].Name() == result.value.model;
        OpenIsRated(s, q, w, rated, v.open[i]);
        var j := RatedFrom(rated, Swept(s, q, w), q, w, candidates, v.open[i]);
        assert candidates[j] in candidates;
      }
  }

  lemma OpenIsRated(s: State, q: Query, w: World, rated: seq<Rated>, c: Rated)
    requires c in Viewed(s, q, w, rated).open
    ensures c in rated
  {
    var eligible := ForProtocol(q, w.traits, rated);
    SiftOpen(Swept(s, q, w).failed, q, w.load.updatedAt, w.now, eligible);
    ForProtocolWithin(q, w.traits, rated);
    hide Swept, Sift, ForProtocol, Healthy, ValidTokens, Bound;
  }

  // ---------- conversations ----------

  datatype Turn = Turn(q: Query, w: World, rated: seq<Rated>, latest: Option<string>, result: Result<Resolution, Error>,
    after: State)
  {
    predicate For(channel: Channel, requested: string) {
      q.channel == channel && q.requested == requested
    }
  }

  /**
   * A call while nothing expires. If it is for the model, it belongs to a conversation and finds the healthy
   * candidates to be `names`, and picks by round-robin if the conversation has no binding yet.
   */
  ghost predicate Conversation(ttl: nat, channel: Channel, requested: string, names: seq<string>, start: Time, s: State,
                               t: Turn) {
    && Resolves(ttl, s, t.q, t.w, t.rated, t.latest, t.result, t.after) && start <= t.w.now < start + ttl
    && (!t.For(channel, requested) ==> ForQuery(t.q, t.w))
    && (t.For(channel, requested) ==>
          && t.q.conversation != "" && t.w.load.Loaded? && t.w.load.candidates != []
          && (t.q.Sticky() !in s.sticky ==> t.q.strategy.RoundRobin?)
          && (forall m :: m in names <==> Lists(Viewed(s, t.q, t.w, t.rated).healthy, m)))
  }

  ghost predicate Conversations(ttl: nat, channel: Channel, requested: string, names: seq<string>, start: Time,
                                s: State, turns: seq<Turn>)
    decreases |turns|
  {
    turns == []
    || (Conversation(ttl, channel, requested, names, start, s, turns[0])
        && Conversations(ttl, channel, requested, names, start, turns[0].after, turns[1..]))
  }

  /** The turn starts a conversation about the model. */
  ghost predicate Starts(channel: Channel, requested: string, s: State, t: Turn) {
    t.For(channel, requested) && t.q.Sticky() !in s.sticky
  }

  /** How many turns start a conversation about the model. */
  ghost function NewOnes(channel: Channel, requested: string, s: State, turns: seq<Turn>): nat
    decreases |turns|
  {
    if turns == [] then 0
    else
      var first := if Starts(channel, requested, s, turns[0]) then 1 else 0;
      first + NewOnes(channel, requested, turns[0].after, turns[1..])
  }

  ghost function Count(s: State, channel: Channel, requested: string): string -> nat {
    m => |Bindings(s, channel, requested, m)|
  }

  /** Bindings of the model are to candidates and outlive `horizon`; candidates have a token only with a binding. */
  ghost predicate Steady(s: State, channel: Channel, requested: string, names: seq<string>, horizon: Time) {
    && (forall k :: k in s.sticky && k.channel == channel && k.requested == requested ==>
          s.sticky[k].expiresAt >= horizon && s.sticky[k].model in names)
    && (forall m :: m in names && TokenKey(channel, m) in s.tokens ==> Bindings(s, channel, requested, m) != {})
  }

  lemma SweptKeeps(s: State, q: Query, w: World, k: StickyKey)
    requires k in s.sticky && k != q.Sticky() && w.now < s.sticky[k].expiresAt
    ensures k in Swept(s, q, w).sticky
  {
    hide Bound, PurgedTokens;
  }

  lemma ViewedState(s: State, q: Query, w: World, rated: seq<Rated>)
    ensures Viewed(s, q, w, rated).state.tokens == Swept(s, q, w).tokens
    ensures Viewed(s, q, w, rated).state.sticky == Swept(s, q, w).sticky
    ensures Viewed(s, q, w, rated).bound == Bound(s, q, w.now)
  {
    hide Swept, Sift, Healthy, ForProtocol, ValidTokens, Bound;
  }

  lemma SteadyView(channel: Channel, requested: string, names: seq<string>, horizon: Time, s: State, q: Query, w: World,
                   rated: seq<Rated>, m: string)
    requires Steady(s, channel, requested, names, horizon) && w.now < horizon && m in names && m != ""
    requires q.channel == channel && q.requested == requested && q.Sticky() !in s.sticky
    ensures var v := Viewed(s, q, w, rated);
            && Bindings(v.state, channel, requested, m) == Bindings(s, channel, requested, m)
            && LoadOf(v.state, channel, requested, m) == |Bindings(s, channel, requested, m)|
  {
    hide Viewed, Swept;
    var v := Viewed(s, q, w, rated);
    SweptFewer(s, q, w);
    ViewedState(s, q, w, rated);
    forall k | k in Bindings(s, channel, requested, m)
      ensures k in v.state.sticky
    {
      SweptKeeps(s, q, w, k);
    }
    assert Bindings(v.state, channel, requested, m) == Bindings(s, channel, requested, m);
  }

  /** Picking by round-robin settles on a lightest healthy candidate. */
  lemma PicksLightest(ttl: nat, v: View, q: Query, w: World, result: Result<Resolution, Error>, s': State)
    returns (pick: string, sel: Selection)
    requires v.healthy != [] && q.strategy.RoundRobin? && Picks(ttl, v, q, w, result, s')
    ensures Lists(v.healthy, pick) && sel.model == pick && sel.expiresAt == w.now + ttl
    ensures forall m :: Lists(v.healthy, m) ==>
      LoadOf(v.state, q.channel, q.requested, pick) <= LoadOf(v.state, q.channel, q.requested, m)
    ensures s' == Issued(Advanced(v.state, q), q, sel)
  {
    hide LoadOf, Issued, Advanced, Cursor, LeastLoaded;
    var load := m => LoadOf(v.state, q.channel, q.requested, m);
    LeastLoadedExactly(v.healthy, load);
    var least := LeastLoaded(v.healthy, load);
    var c := least[Cursor(v.state, q) % |least|];
    assert c in least;
    pick := c.Name();
    sel := Selection(pick, q.requested, w.now + ttl, w.load.updatedAt, NewBalanced, |v.open|, w.now);
    forall m | Lists(v.healthy, m)
      ensures load(pick) <= load(m)
    {
      var j :| 0 <= j < |v.healthy| && v.healthy[j].Name() == m;
      assert v.healthy[j] in v.healthy;
    }
  }

  /** A new conversation with a healthy candidate reaches the choice by strategy. */
  lemma NewConversationPicks(ttl: nat, s: State, q: Query, w: World, rated: seq<Rated>, latest: Option<string>,
                             result: Result<Resolution, Error>, s': State)
    requires Resolves(ttl, s, q, w, rated, latest, result, s') && w.load.Loaded?
    requires q.conversation != "" && q.Sticky() !in s.sticky && Viewed(s, q, w, rated).healthy != []
    ensures Picks(ttl, Viewed(s, q, w, rated), q, w, result, s')
  {
    hide Viewed, Picks, Settled, Refused, NothingHealthy, IsRated, ShouldReuse, Healthy;
    var v := Viewed(s, q, w, rated);
    ViewedState(s, q, w, rated);
    assert v.open != [] by {
      ViewedHealthy(s, q, w, rated);
      assert v.healthy[0] in v.open;
    }
  }

  lemma IssuedBindings(s: State, q: Query, sel: Selection, m: string)
    requires q.conversation != "" && q.Sticky() !in s.sticky
    ensures var t := Issued(Advanced(s, q), q, sel);
            && (m != sel.model ==> Bindings(t, q.channel, q.requested, m) == Bindings(s, q.channel, q.requested, m))
            && (m == sel.model ==>
              Bindings(t, q.channel, q.requested, m) == Bindings(s, q.channel, q.requested, m) + {q.Sticky()})
  {
  }

  lemma IssuedSteady(s: State, q: Query, sel: Selection, names: seq<string>, horizon: Time)
    requires Steady(s, q.channel, q.requested, names, horizon)
    requires q.conversation != "" && q.Sticky() !in s.sticky && sel.expiresAt >= horizon && sel.model in names
    ensures Steady(Issued(Advanced(s, q), q, sel), q.channel, q.requested, names, horizon)
  {
    hide Bindings;
    var t := Issued(Advanced(s, q), q, sel);
    forall m | m in names && TokenKey(q.channel, m) in t.tokens
      ensures Bindings(t, q.channel, q.requested, m) != {}
    {
      IssuedBindings(s, q, sel, m);
    }
  }

  lemma ViewSteady(channel: Channel, requested: string, names: seq<string>, horizon: Time, s: State, q: Query, w: World,
                   rated: seq<Rated>)
    requires Steady(s, channel, requested, names, horizon) && w.now < horizon && "" !in names
    requires q.channel == channel && q.requested == requested && q.Sticky() !in s.sticky
    ensures Steady(Viewed(s, q, w, rated).state, channel, requested, names, horizon)
    ensures q.Sticky() !in Viewed(s, q, w, rated).state.sticky
  {
    hide Viewed, Swept, Bindings, LoadOf;
    var v := Viewed(s, q, w, rated);
    SweptFewer(s, q, w);
    ViewedState(s, q, w, rated);
    forall m | m in names && TokenKey(channel, m) in v.state.tokens
      ensures Bindings(v.state, channel, requested, m) != {}
    {
      SteadyView(channel, requested, names, horizon, s, q, w, rated, m);
    }
  }

  /** The candidate picked gains one binding; it was a lightest one. */
  ghost predicate Gains(names: seq<string>, f: string -> nat, g: string -> nat, pick: string) {
    && pick in names
    && (forall m :: m in names ==> f(pick) <= f(m))
    && (forall m :: m in names ==> g(m) == f(m) + if m == pick then 1 else 0)
  }

  lemma GainsEven(names: seq<string>, f: string -> nat, g: string -> nat, pick: string)
    requires Even(names, f) && Gains(names, f, g, pick)
    ensures Even(names, g)
  {
  }

  /** A new conversation goes to a lightest candidate. */
  lemma StartGains(ttl: nat, channel: Channel, requested: string, names: seq<string>, start: Time, s: State, t: Turn)
    returns (pick: string)
    requires Conversation(ttl, channel, requested, names, start, s, t) && Starts(channel, requested, s, t)
    requires Steady(s, channel, requested, names, start + ttl) && names != [] && "" !in names
    ensures Gains(names, Count(s, channel, requested), Count(t.after, channel, requested), pick)
    ensures Steady(t.after, channel, requested, names, start + ttl)
  {
    hide Viewed, Resolves, Steady, LoadOf, Issued, Advanced, Bindings, Picks, Lists, ForQuery;
    var v := Viewed(s, t.q, t.w, t.rated);
    assert v.healthy != [] by {
      assert Lists(v.healthy, names[0]);
      ListsSome(v.healthy, names[0]);
    }
    NewConversationPicks(ttl, s, t.q, t.w, t.rated, t.latest, t.result, t.after);
    var sel;
    pick, sel := PicksLightest(ttl, v, t.q, t.w, t.result, t.after);
    ViewSteady(channel, requested, names, start + ttl, s, t.q, t.w, t.rated);
    IssuedSteady(v.state, t.q, sel, names, start + ttl);
    var f, g := Count(s, channel, requested), Count(t.after, channel, requested);
    forall m | m in names
      ensures f(pick) <= f(m) && g(m) == f(m) + if m == pick then 1 else 0
    {
      SteadyView(channel, requested, names, start + ttl, s, t.q, t.w, t.rated, m);
      SteadyView(channel, requested, names, start + ttl, s, t.q, t.w, t.rated, pick);
      IssuedBindings(v.state, t.q, sel, m);
      BindingsBound(v.state, channel, requested, m);
    }
  }

  /** The bindings of the model stay, each to its candidate. */
  ghost predicate SameBindings(s: State, t: State, channel: Channel, requested: string) {
    forall k: StickyKey :: k.channel == channel && k.requested == requested ==>
      && (k in t.sticky <==> k in s.sticky)
      && (k in t.sticky ==> t.sticky[k].model == s.sticky[k].model && t.sticky[k].expiresAt == s.sticky[k].expiresAt)
  }

  lemma SameCounts(s: State, t: State, channel: Channel, requested: string, m: string)
    requires SameBindings(s, t, channel, requested)
    ensures Bindings(t, channel, requested, m) == Bindings(s, channel, requested, m)
  {
  }

  lemma SameSteady(s: State, t: State, channel: Channel, requested: string, names: seq<string>, horizon: Time)
    requires Steady(s, channel, requested, names, horizon) && SameBindings(s, t, channel, requested)
    requires forall m :: m in names && TokenKey(channel, m) in t.tokens ==>
      TokenKey(channel, m) in s.tokens || Bindings(s, channel, requested, m) != {}
    ensures Steady(t, channel, requested, names, horizon)
  {
    hide Bindings;
    forall m | m in names
      ensures Bindings(t, channel, requested, m) == Bindings(s, channel, requested, m)
    {
      SameCounts(s, t, channel, requested, m);
    }
  }

  lemma OthersSame(s: State, q: Query, now: Time, result: Result<Resolution, Error>, s': State,
                   channel: Channel, requested: string, names: seq<string>, horizon: Time)
    requires TouchesOwn(s, q, now, result, s') && now < horizon && Steady(s, channel, requested, names, horizon)
    requires q.channel != channel || q.requested != requested
    ensures SameBindings(s, s', channel, requested)
  {
    hide Bindings;
  }

  lemma OtherTokens(s: State, q: Query, now: Time, result: Result<Resolution, Error>, s': State,
                    channel: Channel, requested: string, names: seq<string>)
    requires TouchesOwn(s, q, now, result, s') && forall m :: m in names ==> Upstream(m) == requested
    requires q.channel != channel || (result.Ok? ==> Upstream(result.value.model) != requested)
    ensures forall m :: m in names && TokenKey(channel, m) in s'.tokens ==> TokenKey(channel, m) in s.tokens
  {
    hide Upstream;
  }

  /** A call about another model, or on the other channel, changes nothing here. */
  lemma OtherKeeps(ttl: nat, channel: Channel, requested: string, names: seq<string>, start: Time, s: State, t: Turn)
    requires Conversation(ttl, channel, requested, names, start, s, t) && !t.For(channel, requested)
    requires Steady(s, channel, requested, names, start + ttl) && forall m :: m in names ==> Upstream(m) == requested
    ensures SameBindings(s, t.after, channel, requested) && Steady(t.after, channel, requested, names, start + ttl)
  {
    hide Resolves, ForQuery, Upstream, Viewed, Lists, TouchesOwn, SameBindings, Steady;
    CallTouchesOwn(ttl, s, t.q, t.w, t.rated, t.latest, t.result, t.after);
    if t.result.Ok? {
      CallServesRequested(ttl, s, t.q, t.w, t.rated, t.latest, t.result, t.after);
    }
    OthersSame(s, t.q, t.w.now, t.result, t.after, channel, requested, names, start + ttl);
    OtherTokens(s, t.q, t.w.now, t.result, t.after, channel, requested, names);
    SameSteady(s, t.after, channel, requested, names, start + ttl);
  }

  /** A bound conversation comes back to its candidate. */
  lemma RepeatSettles(ttl: nat, s: State, q: Query, w: World, rated: seq<Rated>, latest: Option<string>,
                      result: Result<Resolution, Error>, s': State)
    requires Resolves(ttl, s, q, w, rated, latest, result, s') && w.load.Loaded?
    requires q.conversation != "" && q.Sticky() in s.sticky && Live(s.sticky[q.Sticky()].expiresAt, w.now)
    requires s.sticky[q.Sticky()].model != "" && Lists(Viewed(s, q, w, rated).healthy, s.sticky[q.Sticky()].model)
    ensures result.Ok? && result.value.model == s.sticky[q.Sticky()].model && q.Sticky() in s'.sticky
    ensures s'.sticky[q.Sticky()].model == s.sticky[q.Sticky()].model
    ensures s'.sticky[q.Sticky()].expiresAt == s.sticky[q.Sticky()].expiresAt
  {
    hide Viewed, Lists, IsRated, Unbound;
    var v := Viewed(s, q, w, rated);
    ViewedState(s, q, w, rated);
    ViewedHealthy(s, q, w, rated);
    ListsSome(v.healthy, s.sticky[q.Sticky()].model);
    assert v.healthy[0] in v.open;
  }

  lemma RepeatKeeps(ttl: nat, channel: Channel, requested: string, names: seq<string>, start: Time, s: State, t: Turn)
    requires Conversation(ttl, channel, requested, names, start, s, t)
    requires t.For(channel, requested) && !Starts(channel, requested, s, t)
    requires Steady(s, channel, requested, names, start + ttl) && "" !in names
    ensures SameBindings(s, t.after, channel, requested) && Steady(t.after, channel, requested, names, start + ttl)
  {
    hide Resolves, Viewed, ForQuery, Bindings, Lists, Upstream;
    var sel := s.sticky[t.q.Sticky()];
    assert sel.model in names && sel.model != "" && sel.expiresAt >= start + ttl;
    assert Lists(Viewed(s, t.q, t.w, t.rated).healthy, sel.model);
    CallTouchesOwn(ttl, s, t.q, t.w, t.rated, t.latest, t.result, t.after);
    RepeatSettles(ttl, s, t.q, t.w, t.rated, t.latest, t.result, t.after);
    BindingIsCounted(s, t.q);
    assert SameBindings(s, t.after, channel, requested) by {
      hide Conversation;
    }
    assert forall m :: m in names && TokenKey(channel, m) in t.after.tokens ==>
      TokenKey(channel, m) in s.tokens || m == sel.model;
    hide *;
    SameSteady(s, t.after, channel, requested, names, start + ttl);
  }

  lemma BindingIsCounted(s: State, q: Query)
    requires q.Sticky() in s.sticky
    ensures Bindings(s, q.channel, q.requested, s.sticky[q.Sticky()].model) != {}
  {
    assert q.Sticky() in Bindings(s, q.channel, q.requested, s.sticky[q.Sticky()].model);
  }

  /** One turn: a new conversation goes to a lightest candidate, any other call leaves the counts alone. */
  lemma TurnEven(ttl: nat, channel: Channel, requested: string, names: seq<string>, start: Time, s: State, t: Turn)
    requires Conversation(ttl, channel, requested, names, start, s, t)
    requires names != [] && "" !in names && Distinct(names) && forall m :: m in names ==> Upstream(m) == requested
    requires Steady(s, channel, requested, names, start + ttl) && Even(names, Count(s, channel, requested))
    ensures Steady(t.after, channel, requested, names, start + ttl) && Even(names, Count(t.after, channel, requested))
    ensures Total(names, Count(t.after, channel, requested)) ==
      Total(names, Count(s, channel, requested)) + if Starts(channel, requested, s, t) then 1 else 0
  {
    hide *;
    var f, g := Count(s, channel, requested), Count(t.after, channel, requested);
    if Starts(channel, requested, s, t) {
      var pick := StartGains(ttl, channel, requested, names, start, s, t);
      GainsEven(names, f, g, pick);
      TotalGains(names, f, g, pick);
    } else {
      if t.For(channel, requested) {
        RepeatKeeps(ttl, channel, requested, names, start, s, t);
      } else {
        OtherKeeps(ttl, channel, requested, names, start, s, t);
      }
      forall m
        ensures f(m) == g(m)
      {
        SameCounts(s, t.after, channel, requested, m);
        CountIs(s, channel, requested, m);
        CountIs(t.after, channel, requested, m);
      }
      TotalSame(names, f, g);
      EvenSame(names, f, g);
    }
  }

  lemma EvenSame(names: seq<string>, f: string -> nat, g: string -> nat)
    requires Even(names, f) && forall m :: f(m) == g(m)
    ensures Even(names, g)
  {
  }

  lemma ListsSome(cs: seq<Rated>, m: string)
    requires Lists(cs, m)
    ensures cs != []
  {
  }

  lemma BindingsBound(s: State, channel: Channel, requested: string, m: string)
    ensures forall k :: k in Bindings(s, channel, requested, m) ==> k in s.sticky
  {
  }

  lemma {:induction false} TurnsEven(ttl: nat, channel: Channel, requested: string, names: seq<string>, start: Time,
                                     s: State, turns: seq<Turn>)
    requires Conversations(ttl, channel, requested, names, start, s, turns)
    requires names != [] && "" !in names && Distinct(names) && forall m :: m in names ==> Upstream(m) == requested
    requires Steady(s, channel, requested, names, start + ttl) && Even(names, Count(s, channel, requested))
    ensures var f := Count(AfterTurns(s, turns), channel, requested);
            && Even(names, f)
            && Total(names, f) == Total(names, Count(s, channel, requested)) + NewOnes(channel, requested, s, turns)
    decreases |turns|
  {
    if turns != [] {
      hide *;
      FirstTurn(ttl, channel, requested, names, start, s, turns);
      TurnEven(ttl, channel, requested, names, start, s, turns[0]);
      TurnsEven(ttl, channel, requested, names, start, turns[0].after, turns[1..]);
    }
  }

  lemma FirstTurn(ttl: nat, channel: Channel, requested: string, names: seq<string>, start: Time, s: State,
                  turns: seq<Turn>)
    requires Conversations(ttl, channel, requested, names, start, s, turns) && turns != []
    ensures Conversation(ttl, channel, requested, names, start, s, turns[0])
    ensures Conversations(ttl, channel, requested, names, start, turns[0].after, turns[1..])
    ensures AfterTurns(s, turns) == AfterTurns(turns[0].after, turns[1..])
    ensures NewOnes(channel, requested, s, turns) ==
      (if Starts(channel, requested, s, turns[0]) then 1 else 0) +
        NewOnes(channel, requested, turns[0].after, turns[1..])
  {
    hide Conversation, Starts;
  }

  lemma TotalGains(names: seq<string>, f: string -> nat, g: string -> nat, pick: string)
    requires Distinct(names) && Gains(names, f, g, pick)
    ensures Total(names, g) == Total(names, f) + 1
  {
    TotalBumped(names, f, g, pick);
  }

  function AfterTurns(s: State, turns: seq<Turn>): State {
    if turns == [] then s else turns[|turns| - 1].after
  }

  lemma {:induction false} TotalNone(names: seq<string>, f: string -> nat)
    requires forall m :: m in names ==> f(m) == 0
    ensures Total(names, f) == 0
  {
    if names != [] {
      TotalNone(names[1..], f);
    }
  }

  /**
   * Starting without tokens or bindings for the model, and while nothing expires and its healthy candidates stay the
   * same n, k new conversations leave each candidate with the floor or the ceiling of k/n bindings, whatever bound
   * conversations and calls about other models come in between.
   */
  lemma NewConversationsBalance(ttl: nat, channel: Channel, requested: string, names: seq<string>, start: Time,
                                s: State, turns: seq<Turn>, m: string)
    requires Conversations(ttl, channel, requested, names, start, s, turns)
    requires "" !in names && Distinct(names) && m in names && forall n :: n in names ==> Upstream(n) == requested
    requires forall k :: k in s.sticky ==> k.channel != channel || k.requested != requested
    requires forall n :: n in names ==> TokenKey(channel, n) !in s.tokens
    ensures var k := NewOnes(channel, requested, s, turns);
            Floor(k, |names|) <= |Bindings(AfterTurns(s, turns), channel, requested, m)| <= Ceiling(k, |names|)
  {
    NothingBound(ttl, channel, requested, names, start, s);
    hide *;
    TurnsEven(ttl, channel, requested, names, start, s, turns);
    var after := AfterTurns(s, turns);
    CountIs(after, channel, requested, m);
    EvenShares(names, Count(after, channel, requested), m, NewOnes(channel, requested, s, turns));
  }

  lemma CountIs(s: State, channel: Channel, requested: string, m: string)
    ensures Count(s, channel, requested)(m) == |Bindings(s, channel, requested, m)|
  {
  }

  lemma NothingBound(ttl: nat, channel: Channel, requested: string, names: seq<string>, start: Time, s: State)
    requires forall k :: k in s.sticky ==> k.channel != channel || k.requested != requested
    requires forall n :: n in names ==> TokenKey(channel, n) !in s.tokens
    ensures Steady(s, channel, requested, names, start + ttl)
    ensures Even(names, Count(s, channel, requested)) && Total(names, Count(s, channel, requested)) == 0
  {
    var f := Count(s, channel, requested);
    assert forall n :: Bindings(s, channel, requested, n) == {};
    assert forall n :: n in names ==> f(n) == 0;
    TotalNone(names, f);
  }
}
