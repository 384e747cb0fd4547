/**
 * The state of the routing resolver and what one call does to it (internal/api/cpams_resolver.go).
 * Names are normalised: lower-case, trimmed, without a suffix, and without '|'.
 */
module ResolverState {
  import opened Wrappers
  import opened Filtering
  import opened Sorting
  import Ranking

  type Time = Ranking.Time
  type Candidate = Ranking.Candidate

  // ---------- names ----------

  /** Where the first '/' is, or the length of the name. */
  function FirstSlash(name: string): (k: nat)
    ensures k <= |name| && (k < |name| ==> name[k] == '/') && '/' !in name[..k]
  {
    if name == "" || name[0] == '/' then 0 else 1 + FirstSlash(name[1..])
  }

  /** What follows the provider prefix of a full name. */
  function Upstream(name: string): string {
    var k := FirstSlash(name);
    if k < |name| then name[k + 1..] else name
  }

  lemma UpstreamOfFull(prefix: string, upstream: string)
    requires '/' !in prefix
    ensures Upstream(prefix + "/" + upstream) == upstream
  {
    var full := prefix + "/" + upstream;
    assert full[|prefix|] == '/' && full[..|prefix|] == prefix;
    assert FirstSlash(full) == |prefix|;
  }

  // ---------- state ----------

  datatype Channel = Codex | Claude

  datatype Strategy = FillFirst | HealthAware | RoundRobin

  datatype Decision =
    | SnapshotErrorExistingToken
    | StickyReuse
    | TokenReuse
    | AllUnhealthyExistingToken
    | SingleCandidate
    | BridgeCandidate
    | NewFillFirst
    | NewHealthAware
    | NewBalanced

  datatype TokenKey = TokenKey(channel: Channel, model: string)

  datatype StickyKey = StickyKey(channel: Channel, requested: string, conversation: string)

  datatype FailureKey = FailureKey(channel: Channel, requested: string, model: string)

  datatype CursorKey = CursorKey(channel: Channel, requested: string)

  datatype Selection = Selection(model: string, requested: string, expiresAt: Time, snapshotUpdated: Time,
                                 decision: Decision, candidateCount: nat, chosenAt: Time)

  /** `expiresAt` 0 stands for a block that only a newer probe lifts. */
  datatype Block = Block(snapshotUpdated: Time, failedAt: Time, expiresAt: Time)

  datatype State = State(
    tokens: map<TokenKey, Time>,
    sticky: map<StickyKey, Selection>,
    selected: map<Channel, Selection>,
    failed: map<FailureKey, Block>,
    cursors: map<CursorKey, nat>)

  const EMPTY := State(map[], map[], map[], map[], map[])

  // ---------- a call and its surroundings ----------

  /**
   * `conversation` is empty when the caller has none. `responses` and `externalNative` are read off
   * the protocol hint.
   */
  datatype Query = Query(channel: Channel, requested: string, conversation: string, strategy: Strategy,
                         responses: bool, externalNative: bool, stateful: bool)
  {
    function Sticky(): StickyKey {
      StickyKey(channel, requested, conversation)
    }

    function Failure(model: string): FailureKey {
      FailureKey(channel, requested, model)
    }
  }

  datatype Load = Failed(updatedAt: Time) | Loaded(updatedAt: Time, candidates: seq<Candidate>)

  datatype Traits = Traits(bridge: bool, externalNative: bool, statefulResponses: bool)

  datatype Verdict = Available | Degraded | Unavailable

  /** The unified health of a candidate: the points it adds to the score, the score itself and its status. */
  datatype Rating = Rating(points: int, unified: real, verdict: Verdict)

  /** Everything a call reads besides the state. A `window` that is not positive sets no limit. */
  datatype World = World(
    now: Time,
    load: Load,
    traits: string -> Traits,
    rate: (Candidate, nat) -> Rating,
    allowYellow: bool,
    window: int)

  datatype Rated = Rated(candidate: Candidate, unified: real, verdict: Verdict)
  {
    function Name(): string {
      candidate.fullModel
    }
  }

  datatype Error = SnapshotUnavailable | NoStatefulCandidate | NoHealthyCandidate

  datatype Resolution = Resolution(model: string, decision: Decision, candidateCount: nat, snapshotUpdated: Time)

  // ---------- tokens and bindings ----------

  predicate Live(expiresAt: Time, now: Time) {
    now < expiresAt
  }

  /** The tokens of other channels, and the live ones of this channel. */
  function PurgedTokens(tokens: map<TokenKey, Time>, channel: Channel, now: Time): map<TokenKey, Time> {
    map k | k in tokens && (k.channel == channel ==> Live(tokens[k], now)) :: tokens[k]
  }

  function PurgedSticky(sticky: map<StickyKey, Selection>, now: Time): map<StickyKey, Selection> {
    map k | k in sticky && Live(sticky[k].expiresAt, now) :: sticky[k]
  }

  /** The live tokens of a channel by model. */
  ghost function ValidTokens(tokens: map<TokenKey, Time>, channel: Channel, now: Time): map<string, Time> {
    map m | m in Models(tokens, channel) && Live(tokens[TokenKey(channel, m)], now) :: tokens[TokenKey(channel, m)]
  }

  function Models(tokens: map<TokenKey, Time>, channel: Channel): (r: set<string>)
    ensures forall m :: m in r <==> TokenKey(channel, m) in tokens
  {
    var r := set k | k in tokens && k.channel == channel :: k.model;
    assert forall m :: TokenKey(channel, m) in tokens ==> TokenKey(channel, m).model in r;
    r
  }

  /** The binding of the conversation, if it has one that is still usable. */
  function Bound(s: State, q: Query, now: Time): Option<Selection> {
    if q.conversation != "" && q.Sticky() in s.sticky && s.sticky[q.Sticky()].model != ""
       && Live(s.sticky[q.Sticky()].expiresAt, now)
    then Some(s.sticky[q.Sticky()])
    else None
  }

  function Unbind(s: State, q: Query): State {
    s.(sticky := s.sticky - {q.Sticky()})
  }

  /** What a call first does: drop an unusable binding and the expired tokens of the channel. */
  function Started(s: State, q: Query, now: Time): State {
    var t := s.(tokens := PurgedTokens(s.tokens, q.channel, now));
    if q.conversation != "" && Bound(s, q, now).None? then Unbind(t, q) else t
  }

  ghost function Bindings(s: State, channel: Channel, requested: string, model: string): set<StickyKey> {
    set k | k in s.sticky && k.channel == channel && k.requested == requested && s.sticky[k].model == model
  }

  /** A candidate's load: its bindings, or 1 for a bare token. */
  ghost function LoadOf(s: State, channel: Channel, requested: string, model: string): nat {
    var bound := if model == "" then 0 else |Bindings(s, channel, requested, model)|;
    if bound == 0 && TokenKey(channel, model) in s.tokens then 1 else bound
  }

  /** Issue a token, select and bind. */
  function Issued(s: State, q: Query, sel: Selection): State {
    s.(tokens := s.tokens[TokenKey(q.channel, sel.model) := sel.expiresAt],
       selected := s.selected[q.channel := sel],
       sticky := if q.conversation == "" then s.sticky else s.sticky[q.Sticky() := sel])
  }

  /** `model` is a named token, and none expires later. */
  ghost predicate Latest(tokens: map<string, Time>, model: string) {
    model != "" && model in tokens && forall m :: m in tokens && m != "" ==> tokens[m] <= tokens[model]
  }

  ghost predicate NoToken(tokens: map<string, Time>) {
    forall m :: m in tokens ==> m == ""
  }

  function ForRequested(tokens: map<string, Time>, requested: string): map<string, Time> {
    map m | m in tokens && Upstream(m) == requested :: tokens[m]
  }

  predicate Lists(cs: seq<Rated>, model: string) {
    exists i :: 0 <= i < |cs| && cs[i].Name() == model
  }

  function Among(tokens: map<string, Time>, cs: seq<Rated>): map<string, Time> {
    map m | m in tokens && Lists(cs, m) :: tokens[m]
  }

  // ---------- candidates ----------

  function Rate(c: Candidate, r: Rating): Rated {
    var rank := if r.verdict.Unavailable? then Ranking.RED
                else if r.verdict.Degraded? && c.statusRank > Ranking.YELLOW then Ranking.YELLOW
                else c.statusRank;
    Rated(c.(statusRank := rank, score := c.score + r.points), r.unified, r.verdict)
  }

  /** Higher score, then higher unified score, then higher status, then lower prefix priority, then the smaller name. */
  predicate RatedBefore(a: Rated, b: Rated) {
    if a.candidate.score != b.candidate.score then a.candidate.score > b.candidate.score
    else if a.unified != b.unified then a.unified > b.unified
    else if a.candidate.statusRank != b.candidate.statusRank then a.candidate.statusRank > b.candidate.statusRank
    else if a.candidate.prefixPriority != b.candidate.prefixPriority
      then a.candidate.prefixPriority < b.candidate.prefixPriority
    else Ranking.NameLess(a.Name(), b.Name())
  }

  ghost function RateIn(s: State, q: Query, w: World, c: Candidate): (r: Rated)
    ensures r.Name() == c.fullModel && r.candidate.latestTestedAt == c.latestTestedAt
  {
    Rate(c, w.rate(c, LoadOf(s, q.channel, q.requested, c.fullModel)))
  }

  ghost function RatedAll(s: State, q: Query, w: World, cs: seq<Candidate>): seq<Rated> {
    seq(|cs|, i requires 0 <= i < |cs| => RateIn(s, q, w, cs[i]))
  }

  /** The candidates rated under the current loads, in order. */
  ghost predicate IsRated(rated: seq<Rated>, s: State, q: Query, w: World, cs: seq<Candidate>) {
    Sorted(rated, RatedBefore) && multiset(rated) == multiset(RatedAll(s, q, w, cs))
  }

  function ForProtocol(q: Query, traits: string -> Traits, cs: seq<Rated>): seq<Rated> {
    if q.channel.Claude? && q.externalNative then
      var bridges := Filter(cs, (c: Rated) => traits(c.Name()).bridge);
      var pool := if bridges != [] then bridges else cs;
      var native := Filter(pool, (c: Rated) => traits(c.Name()).externalNative);
      if native != [] then native else pool
    else if q.channel.Codex? && q.responses && q.stateful then
      Filter(cs, (c: Rated) => traits(c.Name()).statefulResponses)
    else cs
  }

  /** When a candidate was last seen: its own probe, or else the snapshot. */
  function SeenAt(c: Candidate, updatedAt: Time): Time {
    if c.latestTestedAt == 0 then updatedAt else c.latestTestedAt
  }

  /** A block ends when its time is up or when the candidate was seen strictly after the failure. */
  predicate Lifts(b: Block, seenAt: Time, now: Time) {
    || (b.expiresAt != 0 && b.expiresAt <= now)
    || (seenAt > b.snapshotUpdated && seenAt > b.failedAt)
  }

  datatype Sifted = Sifted(failed: map<FailureKey, Block>, open: seq<Rated>)

  /** Candidates that are not blocked; a lifted block goes away as its candidate comes back. */
  function Sift(failed: map<FailureKey, Block>, q: Query, updatedAt: Time, now: Time, cs: seq<Rated>): Sifted {
    if cs == [] then Sifted(failed, [])
    else SiftOne(Sift(failed, q, updatedAt, now, cs[..|cs| - 1]), q, updatedAt, now, cs[|cs| - 1])
  }

  function SiftOne(r: Sifted, q: Query, updatedAt: Time, now: Time, c: Rated): Sifted {
    var key := q.Failure(c.Name());
    if key !in r.failed then r.(open := r.open + [c])
    else if Lifts(r.failed[key], SeenAt(c.candidate, updatedAt), now) then Sifted(r.failed - {key}, r.open + [c])
    else r
  }

  const SECOND := 1_000_000_000

  predicate Fresh(c: Rated, w: World) {
    || w.traits(c.Name()).bridge
    || w.window <= 0
    || (c.candidate.latestTestedAt != 0
        && (var age := if w.now >= c.candidate.latestTestedAt then w.now - c.candidate.latestTestedAt else 0;
            age / SECOND * SECOND <= w.window))
  }

  predicate Usable(c: Rated) {
    !c.verdict.Unavailable? && c.candidate.statusRank >= Ranking.YELLOW
  }

  predicate Green(c: Rated) {
    c.candidate.statusRank == Ranking.GREEN
  }

  predicate Yellow(c: Rated) {
    c.candidate.statusRank == Ranking.YELLOW
  }

  /** The green candidates; without one, the fresh yellow ones unless the request is stateful. */
  function Healthy(q: Query, w: World, cs: seq<Rated>): seq<Rated> {
    var base := Filter(cs, Usable);
    var greens := Filter(base, Green);
    if greens != [] then greens
    else if q.stateful && !w.allowYellow then []
    else Filter(Filter(base, Yellow), (c: Rated) => Fresh(c, w))
  }

  function Find(cs: seq<Rated>, model: string): (r: Option<Rated>)
    ensures r.Some? <==> Lists(cs, model)
    ensures r.Some? ==> r.value in cs && r.value.Name() == model
  {
    if cs == [] then None
    else if cs[0].Name() == model then Some(cs[0])
    else
      var r := Find(cs[1..], model);
      assert forall i :: 0 <= i < |cs| && cs[i].Name() == model ==> i > 0 && cs[1..][i - 1] == cs[i];
      r
  }

  const REUSE_SLACK := 40

  /** Whether an existing token for a healthy candidate is still good enough. */
  predicate ShouldReuse(strategy: Strategy, healthy: seq<Rated>, model: string) {
    var found := Find(healthy, model);
    if found.None? then false
    else if !strategy.HealthAware? then true
    else
      var best, current := healthy[0].candidate, found.value.candidate;
      if best.fullModel == current.fullModel then true
      else if current.statusRank < best.statusRank then false
      else if best.statusRank < Ranking.GREEN then false
      else current.score + REUSE_SLACK >= best.score
  }

  /** The candidates with the least load, in order. */
  ghost function LeastLoaded(cs: seq<Rated>, load: string -> nat): seq<Rated> {
    Filter(cs, (c: Rated) => forall d :: d in cs ==> load(c.Name()) <= load(d.Name()))
  }

  const CURSOR_LIMIT := 2_147_483_640

  function Cursor(s: State, q: Query): nat {
    var key := CursorKey(q.channel, q.requested);
    if key in s.cursors && s.cursors[key] < CURSOR_LIMIT then s.cursors[key] else 0
  }

  function Advanced(s: State, q: Query): State {
    s.(cursors := s.cursors[CursorKey(q.channel, q.requested) := Cursor(s, q) + 1])
  }

  // ---------- one resolution ----------

  function Answer(sel: Selection): Resolution {
    Resolution(sel.model, sel.decision, sel.candidateCount, sel.snapshotUpdated)
  }

  /** The call settles on `model` in state `s`. */
  ghost predicate Settled(s: State, q: Query, w: World, model: string, expiresAt: Time, decision: Decision, count: nat,
                          result: Result<Resolution, Error>, s': State)
  {
    var sel := Selection(model, q.requested, expiresAt, w.load.updatedAt, decision, count, w.now);
    result == Ok(Answer(sel)) && s' == Issued(s, q, sel)
  }

  ghost predicate Refused(s: State, error: Error, result: Result<Resolution, Error>, s': State) {
    result == Err(error) && s' == s
  }

  /** The call settles on a token that expires last, keeping its expiry. */
  ghost predicate KeepsToken(s: State, q: Query, w: World, tokens: map<string, Time>, decision: Decision, count: nat,
                             result: Result<Resolution, Error>, s': State)
  {
    exists m :: Latest(tokens, m) && Settled(s, q, w, m, tokens[m], decision, count, result, s')
  }

  /** What the call sees once the candidates are rated and sifted. */
  datatype View = View(state: State, valid: map<string, Time>, bound: Option<Selection>, open: seq<Rated>,
    healthy: seq<Rated>)

  ghost function Swept(s: State, q: Query, w: World): State {
    var t := Started(s, q, w.now);
    if w.load.Loaded? && w.load.candidates != [] then t.(sticky := PurgedSticky(t.sticky, w.now)) else t
  }

  ghost function Viewed(s: State, q: Query, w: World, rated: seq<Rated>): View {
    var t := Swept(s, q, w);
    var sifted := Sift(t.failed, q, w.load.updatedAt, w.now, ForProtocol(q, w.traits, rated));
    View(t.(failed := sifted.failed), ValidTokens(s.tokens, q.channel, w.now), Bound(s, q, w.now), sifted.open,
      Healthy(q, w, sifted.open))
  }

  /** The latest token of a healthy candidate, for callers without a conversation. */
  ghost function Reusable(v: View, q: Query): map<string, Time> {
    if q.conversation == "" then ForRequested(Among(v.valid, v.healthy), q.requested) else map[]
  }

  /** The view of a call whose binding is not among the healthy candidates any more. */
  function Unstuck(v: View, q: Query): View {
    if v.bound.Some? && v.healthy != [] then v.(state := Unbind(v.state, q)) else v
  }

  ghost predicate NothingHealthy(ttl: nat, v: View, q: Query, w: World, result: Result<Resolution, Error>, s': State) {
    var listed, all := ForRequested(Among(v.valid, v.open), q.requested), ForRequested(v.valid, q.requested);
    if !NoToken(listed) then KeepsToken(v.state, q, w, listed, AllUnhealthyExistingToken, |v.open|, result, s')
    else if v.open == [] && !NoToken(all) then KeepsToken(v.state, q, w, all, AllUnhealthyExistingToken, 0, result, s')
    else if |v.open| == 1 then Settled(v.state, q, w, v.open[0].Name(), w.now + ttl, SingleCandidate, 1, result, s')
    else
      var bridges := Filter(v.open, (c: Rated) => w.traits(c.Name()).bridge);
      if bridges != []
        then Settled(v.state, q, w, bridges[0].Name(), w.now + ttl, BridgeCandidate, |v.open|, result, s')
      else Refused(v.state, NoHealthyCandidate, result, s')
  }

  /** Pick among the healthy candidates by strategy. */
  ghost predicate Picks(ttl: nat, v: View, q: Query, w: World, result: Result<Resolution, Error>, s': State)
    requires v.healthy != []
  {
    match q.strategy
    case FillFirst => Settled(v.state, q, w, v.healthy[0].Name(), w.now + ttl, NewFillFirst, |v.open|, result, s')
    case HealthAware => Settled(v.state, q, w, v.healthy[0].Name(), w.now + ttl, NewHealthAware, |v.open|, result, s')
    case RoundRobin =>
      var least := LeastLoaded(v.healthy, m => LoadOf(v.state, q.channel, q.requested, m));
      least != []
        && Settled(Advanced(v.state, q), q, w, least[Cursor(v.state, q) % |least|].Name(), w.now + ttl, NewBalanced,
        |v.open|, result, s')
  }

  /** A call without a usable binding. `latest` is the token looked at for reuse, if there is one. */
  ghost predicate Unbound(ttl: nat, v: View, q: Query, w: World, latest: Option<string>,
                          result: Result<Resolution, Error>, s': State) {
    var reusable := Reusable(v, q);
    && (latest.None? ==> NoToken(reusable))
    && (latest.Some? ==> Latest(reusable, latest.value))
    && if latest.Some? && ShouldReuse(q.strategy, v.healthy, latest.value) then
         Settled(v.state, q, w, latest.value, Max(reusable[latest.value], w.now + ttl), TokenReuse, |v.open|, result,
           s')
       else if v.healthy == [] then NothingHealthy(ttl, v, q, w, result, s')
       else Picks(ttl, v, q, w, result, s')
  }

  ghost predicate Decided(ttl: nat, v: View, q: Query, w: World, latest: Option<string>,
                          result: Result<Resolution, Error>, s': State) {
    if q.stateful && v.open == [] then Refused(v.state, NoStatefulCandidate, result, s')
    else if v.bound.Some? && Lists(v.healthy, v.bound.value.model) then
      Settled(v.state, q, w, v.bound.value.model, v.bound.value.expiresAt, StickyReuse, |v.open|, result, s')
    else Unbound(ttl, Unstuck(v, q), q, w, latest, result, s')
  }

  /** One resolution of a requested model, from state `s` to `s'`. */
  ghost predicate Resolves(ttl: nat, s: State, q: Query, w: World, rated: seq<Rated>, latest: Option<string>,
                           result: Result<Resolution, Error>, s': State)
  {
    match w.load
    case Failed(_) =>
      var tokens := ForRequested(ValidTokens(s.tokens, q.channel, w.now), q.requested);
      if NoToken(tokens) then Refused(Started(s, q, w.now), SnapshotUnavailable, result, s')
      else KeepsToken(Started(s, q, w.now), q, w, tokens, SnapshotErrorExistingToken, 0, result, s')
    case Loaded(_, candidates) =>
      && IsRated(rated, Swept(s, q, w), q, w, candidates)
      && Decided(ttl, Viewed(s, q, w, rated), q, w, latest, result, s')
  }

  // ---------- invalidation ----------

  /** The bindings an invalidation keeps. */
  predicate KeepsBinding(k: StickyKey, sel: Selection, channel: Channel, requested: string, model: string,
                         conversation: string, now: Time) {
    && Live(sel.expiresAt, now)
    && !(conversation != "" && requested != "" && k == StickyKey(channel, requested, conversation))
    && !(sel.model == model && (requested == "" || sel.requested == requested))
  }

  /** A failed model loses its token, its selection and its bindings, and may be blocked. */
  function Invalidated(s: State, channel: Channel, requested: string, model: string, conversation: string,
                       block: Option<Block>, now: Time): State
  {
    s.(tokens := s.tokens - {TokenKey(channel, model)},
       selected := if channel in s.selected && s.selected[channel].model == model
         then s.selected - {channel} else s.selected,
       sticky := map k | k in s.sticky
         && KeepsBinding(k, s.sticky[k], channel, requested, model, conversation, now) :: s.sticky[k],
       failed := if block.Some? && requested != ""
         then s.failed[FailureKey(channel, requested, model) := block.value] else s.failed)
  }
}
