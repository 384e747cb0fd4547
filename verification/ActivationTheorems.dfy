/** What card activation promises: durations, one record per card, and bindings that last. */
module ActivationTheorems {
  import opened Wrappers
  import opened Text
  import opened Activation

  // ---------- when seeding shortens a card ----------

  /** Every card has a positive duration. */
  ghost predicate Dated(cards: map<string, Card>) {
    forall c :: c in cards ==> cards[c].days > 0
  }

  ghost predicate NoShorter(before: map<string, Card>, after: map<string, Card>) {
    forall c :: c in before ==> c in after && Days(after[c]) >= Days(before[c])
  }

  /** The seed is for the card. */
  predicate Names(seed: Seed, code: string) {
    TrimSpace(seed.code) == code != ""
  }

  ghost predicate Named(seeds: seq<Seed>, code: string) {
    exists i :: 0 <= i < |seeds| && Names(seeds[i], code)
  }

  /** The first seed for the card. */
  function FirstNamed(seeds: seq<Seed>, code: string): (seed: Seed)
    requires Named(seeds, code)
    ensures Names(seed, code)
  {
    if Names(seeds[0], code) then seeds[0]
    else
      assert forall i :: 0 < i < |seeds| ==> seeds[1..][i - 1] == seeds[i];
      FirstNamed(seeds[1..], code)
  }

  /** Some seed for the card gives at least `d` days. */
  ghost predicate Offers(seeds: seq<Seed>, code: string, d: int) {
    exists i :: 0 <= i < |seeds| && Names(seeds[i], code) && seeds[i].days >= d
  }

  /** The days the type gives, when neither the card nor its first seed has any. */
  predicate TypeGives(card: Card, first: Seed, d: int) {
    card.days <= 0 && first.days <= 0 && DefaultDays(Seeded(card, first).cardType) >= d
  }

  /** The card has at least `d` days after the seeds, of which one at least is for it. */
  ghost predicate Reaches(card: Card, seeds: seq<Seed>, code: string, d: int)
    requires Named(seeds, code)
  {
    card.days >= d || Offers(seeds, code, d) || TypeGives(card, FirstNamed(seeds, code), d)
  }

  lemma SeededDays(current: Card, seed: Seed, d: int)
    requires d > 0
    ensures Seeded(current, seed).days > 0
    ensures Seeded(current, seed).days >= d <==> current.days >= d || seed.days >= d || TypeGives(current, seed, d)
  {
    DefaultPositive(Seeded(current, seed).cardType);
    hide NormalType, DefaultDays, TrimSpace;
  }

  lemma DefaultPositive(t: string)
    ensures DefaultDays(t) > 0
  {
  }

  lemma NamedMore(front: seq<Seed>, last: Seed, code: string)
    ensures Named(front + [last], code) <==> Named(front, code) || Names(last, code)
    ensures forall d :: Offers(front + [last], code, d) <==>
      Offers(front, code, d) || (Names(last, code) && last.days >= d)
  {
    hide Names;
    var seeds := front + [last];
    assert seeds[|front|] == last && forall i :: 0 <= i < |front| ==> seeds[i] == front[i];
    if Named(front, code) {
      var i :| 0 <= i < |front| && Names(front[i], code);
      assert Names(seeds[i], code);
    }
    forall d
      ensures Offers(seeds, code, d) <==> Offers(front, code, d) || (Names(last, code) && last.days >= d)
    {
      if Offers(front, code, d) {
        var i :| 0 <= i < |front| && Names(front[i], code) && front[i].days >= d;
        assert Names(seeds[i], code) && seeds[i].days >= d;
      }
    }
  }

  lemma {:induction false} FirstOfMore(front: seq<Seed>, last: Seed, code: string)
    requires Named(front + [last], code)
    ensures FirstNamed(front + [last], code) == if Named(front, code) then FirstNamed(front, code) else last
    decreases |front|
  {
    NamedMore(front, last, code);
    hide Names;
    if front != [] && !Names(front[0], code) {
      assert (front + [last])[1..] == front[1..] + [last];
      assert front == [front[0]] + front[1..];
      assert Named(front[1..] + [last], code) by {
        var i :| 0 <= i < |front + [last]| && Names((front + [last])[i], code);
        assert (front[1..] + [last])[i - 1] == (front + [last])[i];
      }
      assert Named(front, code) <==> Named(front[1..], code) by {
        if Named(front, code) {
          var i :| 0 <= i < |front| && Names(front[i], code);
          assert front[1..][i - 1] == front[i];
        }
        if Named(front[1..], code) {
          var i :| 0 <= i < |front[1..]| && Names(front[1..][i], code);
          assert front[i + 1] == front[1..][i];
        }
      }
      FirstOfMore(front[1..], last, code);
    }
  }

  /** What the seeds make of one stored card. */
  lemma {:induction false} SeedsReach(cards: map<string, Card>, seeds: seq<Seed>, code: string, d: int)
    requires code in cards && d > 0
    ensures code in SyncAll(cards, seeds)
    ensures !Named(seeds, code) ==> SyncAll(cards, seeds)[code] == cards[code]
    ensures Named(seeds, code) ==>
              SyncAll(cards, seeds)[code].days > 0
                && (SyncAll(cards, seeds)[code].days >= d <==> Reaches(cards[code], seeds, code, d))
  {
    if seeds != [] {
      var n := |seeds| - 1;
      var front, last := seeds[..n], seeds[n];
      var before := SyncAll(cards, front);
      SeedsReach(cards, front, code, d);
      assert seeds == front + [last];
      NamedMore(front, last, code);
      if Named(seeds, code) {
        FirstOfMore(front, last, code);
      }
      if Names(last, code) {
        SeededDays(before[code], last, d);
      }
      assert SyncAll(cards, seeds) == Sync(before, last);
      SyncAt(before, last, code);
      hide SyncAll, Sync, Seeded, Names, Named, Offers, FirstNamed, TypeGives;
    }
  }

  lemma SyncAt(cards: map<string, Card>, seed: Seed, code: string)
    requires code in cards
    ensures code in Sync(cards, seed)
    ensures Sync(cards, seed)[code] == if Names(seed, code) then Seeded(cards[code], seed) else cards[code]
  {
    hide Seeded, TrimSpace;
  }

  /** The seeds leave the card at least the time it had. */
  ghost predicate KeepsTime(card: Card, seeds: seq<Seed>, code: string) {
    card.days > 0 || !Named(seeds, code) || Reaches(card, seeds, code, DefaultDays(card.cardType))
  }

  lemma CardKeepsTime(cards: map<string, Card>, seeds: seq<Seed>, code: string)
    requires code in cards
    ensures code in SyncAll(cards, seeds)
    ensures Days(SyncAll(cards, seeds)[code]) >= Days(cards[code]) <==> KeepsTime(cards[code], seeds, code)
  {
    DefaultPositive(cards[code].cardType);
    SeedsReach(cards, seeds, code, Days(cards[code]));
    hide SyncAll, DefaultDays, Offers, Named, FirstNamed;
  }

  /**
   * Seeding shortens no card if and only if every card stored without a duration and seeded gets at least the
   * default of its type: from some seed, or from the type its first seed gives it.
   */
  lemma SeedingShortensExactly(cards: map<string, Card>, seeds: seq<Seed>)
    ensures NoShorter(cards, SyncAll(cards, seeds)) <==> forall c :: c in cards ==> KeepsTime(cards[c], seeds, c)
  {
    forall c | c in cards
      ensures c in SyncAll(cards, seeds)
      ensures (Days(SyncAll(cards, seeds)[c]) >= Days(cards[c]) <==> KeepsTime(cards[c], seeds, c))
    {
      CardKeepsTime(cards, seeds, c);
    }
    hide SyncAll, KeepsTime, Days;
  }

  lemma {:induction false} SeedingDates(cards: map<string, Card>, seeds: seq<Seed>)
    requires Dated(cards)
    ensures Dated(SyncAll(cards, seeds))
  {
    if seeds != [] {
      var n := |seeds| - 1;
      SeedingDates(cards, seeds[..n]);
      var before, code := SyncAll(cards, seeds[..n]), TrimSpace(seeds[n].code);
      SeededDays(if code in before then before[code] else Card(code, "", 0, false, ""), seeds[n], 1);
      hide Seeded, TrimSpace, DefaultDays;
    }
  }

  /** Seeding leaves every card with a positive duration, and shortens none that had one. */
  lemma SeedingNeverShortens(cards: map<string, Card>, seeds: seq<Seed>)
    requires Dated(cards)
    ensures Dated(SyncAll(cards, seeds)) && NoShorter(cards, SyncAll(cards, seeds))
  {
    SeedingDates(cards, seeds);
    SeedingShortensExactly(cards, seeds);
    hide SyncAll, NoShorter;
  }

  /** A card read from the file without a duration can lose time, as the condition has it. */
  lemma UndatedCardsMayShrink()
    ensures var cards := map["c" := Card("c", "lifetime", 0, false, "")];
            !NoShorter(cards, SyncAll(cards, [Seed("c", "lifetime", 30, false, "")]))
  {
    var card, seed := Card("c", "lifetime", 0, false, ""), Seed("c", "lifetime", 30, false, "");
    var cards := map["c" := card];
    TrimC();
    assert [seed][..0] == [];
    assert SyncAll(cards, []) == cards;
    assert SyncAll(cards, [seed]) == Sync(cards, seed);
    LifetimeDays();
    assert Days(card) == 36500;
    assert Seeded(card, seed).days == 30;
    assert Days(Sync(cards, seed)["c"]) == 30;
    assert "c" in cards;
  }

  lemma TrimC()
    ensures TrimSpace("c") == "c"
  {
  }

  lemma LifetimeDays()
    ensures DefaultDays("lifetime") == 36500
  {
    assert TrimSpace("lifetime") == "lifetime";
    assert ToLower("lifetime") == "lifetime";
    assert "lifetime"[0] == 'l' && "year"[0] == 'y';
  }

  // ---------- runs ----------

  /**
   * `written` says whether the write of the state file succeeded, `readable` whether it could be read, and `token`
   * is the token drawn.
   */
  datatype Event =
    | Activate(card: string, device: string, token: string, now: Time, written: bool)
    | Authenticate(token: string, now: Time, written: bool)
    | SetConfig(enabled: bool, seeds: seq<Seed>, now: Time, readable: bool, written: bool)

  /** The token is in use neither in memory nor in the file. */
  ghost predicate Unused(s: Service, token: string) {
    token !in s.state.activations && (s.disk.Some? ==> token !in s.disk.value.activations)
  }

  ghost predicate Step(s: Service, e: Event, reply: Reply, s': Service) {
    match e
    case Activate(card, device, token, now, written) =>
      && TrimSpace(token) == token != "" && Unused(s, token)
      && exists found :: Activates(s, card, device, token, now, written, found, reply, s')
    case Authenticate(token, now, written) => s' == Authenticated(s, token, now, written).1
    case SetConfig(enabled, seeds, now, readable, written) => s' == Reloaded(s, enabled, seeds, readable, written)
  }

  datatype Moment = Moment(event: Event, reply: Reply, after: Service)

  ghost predicate Run(s: Service, trace: seq<Moment>)
    decreases |trace|
  {
    trace == [] || (Step(s, trace[0].event, trace[0].reply, trace[0].after) && Run(trace[0].after, trace[1..]))
  }

  /** Every write of the run succeeds. */
  ghost predicate AllWritten(trace: seq<Moment>) {
    forall i :: 0 <= i < |trace| ==> trace[i].event.written
  }

  function End(s: Service, trace: seq<Moment>): Service {
    if trace == [] then s else trace[|trace| - 1].after
  }

  // ---------- one record per card, whatever the writes ----------

  /** Records are kept under their token, one per card. */
  ghost predicate OnePerCard(activations: map<string, Record>) {
    && (forall t :: t in activations ==> activations[t].token == t)
    && (forall t, u :: t in activations && u in activations && activations[t].card == activations[u].card ==> t == u)
  }

  /** That holds in memory and in the file, and the two agree on the tokens they share. */
  ghost predicate Orderly(s: Service) {
    && OnePerCard(s.state.activations)
    && (s.disk.Some? ==>
          && OnePerCard(s.disk.value.activations)
          && forall t :: t in s.state.activations && t in s.disk.value.activations ==>
            s.disk.value.activations[t] == s.state.activations[t])
  }

  lemma BindsOrderly(s: Service, card: string, device: string, token: string, now: Time, written: bool,
                     activations: map<string, Record>, reply: Reply, s': Service)
    requires Orderly(s) && Unused(s, token) && card in s.state.cards
    requires OnePerCard(activations)
    requires forall t :: t in activations ==> t in s.state.activations && activations[t] == s.state.activations[t]
    requires forall t :: t in activations ==> activations[t].card != card
    requires Binds(s, card, device, token, now, written, activations, reply, s')
    ensures Orderly(s')
  {
    hide Days;
  }

  lemma ActivatesOrderly(s: Service, rawCard: string, rawDevice: string, token: string, now: Time, written: bool,
                         found: Option<Record>, reply: Reply, s': Service)
    requires Orderly(s) && Unused(s, token) && Activates(s, rawCard, rawDevice, token, now, written, found, reply, s')
    ensures Orderly(s')
  {
    var card, device := TrimSpace(rawCard), TrimSpace(rawDevice);
    hide TrimSpace, Days, Binds, Unused;
    if s' != s {
      var rest := if found.None? then s.state.activations else s.state.activations - {found.value.token};
      BindsOrderly(s, card, device, token, now, written, rest, reply, s');
    }
  }

  lemma StepOrderly(s: Service, e: Event, reply: Reply, s': Service)
    requires Orderly(s) && Step(s, e, reply, s')
    ensures Orderly(s')
  {
    match e
    case Activate(card, device, token, now, written) =>
      hide TrimSpace, Days, Orderly, Activates, Unused;
      var found :| Activates(s, card, device, token, now, written, found, reply, s');
      ActivatesOrderly(s, card, device, token, now, written, found, reply, s');
    case Authenticate(token, now, _) =>
      hide TrimSpace, Days, NormalType;
    case SetConfig(enabled, seeds, now, _, _) =>
      hide SyncAll;
  }

  lemma {:induction false} RunOrderly(s: Service, trace: seq<Moment>)
    requires Orderly(s) && Run(s, trace)
    ensures Orderly(End(s, trace))
    decreases |trace|
  {
    if trace != [] {
      hide Orderly, Step;
      StepOrderly(s, trace[0].event, trace[0].reply, trace[0].after);
      RunOrderly(trace[0].after, trace[1..]);
    }
  }

  /** In every run from an empty store with fresh tokens, whatever the writes, a card has at most one activation. */
  lemma OneActivationPerCard(trace: seq<Moment>, t: string, u: string)
    requires Run(START, trace)
    ensures var s := End(START, trace);
            t in s.state.activations && u in s.state.activations ==>
              (s.state.activations[t].card == s.state.activations[u].card ==> t == u)
  {
    RunOrderly(START, trace);
    hide Run;
  }

  // ---------- file and memory, when writes succeed ----------

  /** The file holds what memory holds, and every card has a positive duration. */
  ghost predicate InStep(s: Service) {
    && Dated(s.state.cards)
    && (s.disk == Some(s.state) || (s.disk == None && s.state == EMPTY))
  }

  lemma StepInStep(s: Service, e: Event, reply: Reply, s': Service)
    requires InStep(s) && Step(s, e, reply, s') && e.written
    ensures InStep(s')
    ensures NoShorter(s.state.cards, s'.state.cards)
  {
    match e
    case Activate(card, device, token, now, _) =>
      hide TrimSpace, Days, Found, Dated;
      var found :| Activates(s, card, device, token, now, true, found, reply, s');
    case Authenticate(token, now, _) =>
      hide TrimSpace, Days, Dated, NormalType;
    case SetConfig(enabled, seeds, now, _, _) =>
      SeedingNeverShortens(s.state.cards, seeds);
      hide SyncAll, NoShorter, Dated;
  }

  lemma {:induction false} RunInStep(s: Service, trace: seq<Moment>)
    requires InStep(s) && Run(s, trace) && AllWritten(trace)
    ensures InStep(End(s, trace))
    ensures NoShorter(s.state.cards, End(s, trace).state.cards)
    decreases |trace|
  {
    if trace != [] {
      hide InStep, Step, Days;
      StepInStep(s, trace[0].event, trace[0].reply, trace[0].after);
      RunInStep(trace[0].after, trace[1..]);
    }
  }

  /** While writes succeed, the file holds what memory holds and no card's duration ever shrinks. */
  lemma FileIsMemory(trace: seq<Moment>, more: seq<Moment>)
    requires Run(START, trace) && Run(End(START, trace), more) && AllWritten(trace) && AllWritten(more)
    ensures var s := End(START, trace);
            && (s.disk == Some(s.state) || (s.disk == None && s.state == EMPTY))
            && NoShorter(s.state.cards, End(s, more).state.cards)
  {
    RunInStep(START, trace);
    RunInStep(End(START, trace), more);
    hide Run, NoShorter;
  }

  // ---------- bindings ----------

  /** The record is the card's binding. */
  ghost predicate BoundTo(s: Service, r: Record) {
    r.token in s.state.activations && s.state.activations[r.token] == r
  }

  /** A reload would find the binding: it is in the file, or there is no file. */
  ghost predicate Saved(s: Service, r: Record) {
    s.disk.Some? ==> r.token in s.disk.value.activations && s.disk.value.activations[r.token] == r
  }

  /** The binding device asks for its card while the service and the card are enabled. */
  ghost predicate Welcome(s: Service, e: Event, r: Record)
    requires e.Activate?
  {
    && TrimSpace(e.card) == r.card != "" && TrimSpace(e.device) == r.device != ""
    && s.enabled && r.card in s.state.cards && !s.state.cards[r.card].disabled
  }

  /** The event reads the file. */
  predicate Reads(e: Event) {
    e.SetConfig? && e.readable
  }

  /** What one event does to a binding that has not lapsed: only reading the file can undo it. */
  lemma StepBound(s: Service, e: Event, reply: Reply, s': Service, r: Record)
    requires Orderly(s) && Step(s, e, reply, s') && BoundTo(s, r) && !Lapsed(r, e.now)
    ensures BoundTo(s', r) <==> (Reads(e) ==> Saved(s, r))
    ensures e.Activate? && TrimSpace(e.card) == r.card && reply.Granted? ==>
      TrimSpace(e.device) == r.device && reply == Grant(r)
    ensures e.Activate? && Welcome(s, e, r) ==> reply == Grant(r)
  {
    match e
    case Activate(card, device, token, now, written) =>
      hide TrimSpace, Days;
      var found :| Activates(s, card, device, token, now, written, found, reply, s');
    case Authenticate(token, now, _) =>
      hide TrimSpace, Days, NormalType;
    case SetConfig(enabled, seeds, now, _, _) =>
      hide SyncAll, Days;
  }

  /** All events happen before the record lapses. */
  ghost predicate WithinTerm(trace: seq<Moment>, r: Record) {
    forall i :: 0 <= i < |trace| ==> !Lapsed(r, trace[i].event.now)
  }

  /** The service before event `i` of a run from `s`. */
  function Before(s: Service, trace: seq<Moment>, i: nat): Service
    requires i < |trace|
  {
    if i == 0 then s else trace[i - 1].after
  }

  lemma BeforeTail(s: Service, trace: seq<Moment>, i: nat)
    requires 0 < i < |trace|
    ensures trace[1..][i - 1] == trace[i] && Before(trace[0].after, trace[1..], i - 1) == Before(s, trace, i)
  {
  }

  /** Only the binding device gets a response for the card, it does get one, and always the same one. */
  ghost predicate Serves(before: Service, m: Moment, r: Record) {
    && BoundTo(m.after, r)
    && (m.event.Activate? && TrimSpace(m.event.card) == r.card && m.reply.Granted? ==>
          TrimSpace(m.event.device) == r.device && m.reply == Grant(r))
    && (m.event.Activate? && Welcome(before, m.event, r) ==> m.reply == Grant(r))
  }

  /** Whenever the run reads the file, the binding is in it. */
  ghost predicate SavedWhenRead(s: Service, trace: seq<Moment>, r: Record) {
    forall i :: 0 <= i < |trace| && Reads(trace[i].event) ==> Saved(Before(s, trace, i), r)
  }

  lemma SavedWhenReadTail(s: Service, trace: seq<Moment>, r: Record)
    requires trace != []
    ensures SavedWhenRead(s, trace, r) <==>
      (Reads(trace[0].event) ==> Saved(s, r)) && SavedWhenRead(trace[0].after, trace[1..], r)
  {
    hide Saved, Reads;
    if SavedWhenRead(s, trace, r) {
      forall i | 0 <= i < |trace[1..]| && Reads(trace[1..][i].event)
        ensures Saved(Before(trace[0].after, trace[1..], i), r)
      {
        BeforeTail(s, trace, i + 1);
      }
    }
    if (Reads(trace[0].event) ==> Saved(s, r)) && SavedWhenRead(trace[0].after, trace[1..], r) {
      forall i | 0 <= i < |trace| && Reads(trace[i].event)
        ensures Saved(Before(s, trace, i), r)
      {
        if i > 0 {
          BeforeTail(s, trace, i);
        }
      }
    }
  }

  lemma {:induction false} BindingLasts(s: Service, trace: seq<Moment>, r: Record)
    requires Orderly(s) && Run(s, trace) && BoundTo(s, r) && WithinTerm(trace, r) && SavedWhenRead(s, trace, r)
    ensures forall i :: 0 <= i < |trace| ==> Serves(Before(s, trace, i), trace[i], r)
    decreases |trace|
  {
    if trace != [] {
      var m := trace[0];
      hide Orderly, Step, BoundTo, Saved, Lapsed, TrimSpace, Reads, SavedWhenRead;
      SavedWhenReadTail(s, trace, r);
      StepOrderly(s, m.event, m.reply, m.after);
      StepBound(s, m.event, m.reply, m.after, r);
      BindingLasts(m.after, trace[1..], r);
      assert Serves(s, m, r);
      hide Serves;
      forall i | 0 <= i < |trace|
        ensures Serves(Before(s, trace, i), trace[i], r)
      {
        if i > 0 {
          BeforeTail(s, trace, i);
        }
      }
    }
  }

  // ---------- which reloads a binding survives ----------

  /** The record is neither in memory nor in the file. */
  ghost predicate Gone(s: Service, r: Record) {
    Unused(s, r.token)
  }

  /** No event draws the token again. */
  ghost predicate NoRedraw(trace: seq<Moment>, token: string) {
    forall i :: 0 <= i < |trace| && trace[i].event.Activate? ==> trace[i].event.token != token
  }

  lemma StepGone(s: Service, e: Event, reply: Reply, s': Service, r: Record)
    requires Step(s, e, reply, s') && Gone(s, r) && (e.Activate? ==> e.token != r.token)
    ensures Gone(s', r)
  {
    match e
    case Activate(card, device, token, now, written) =>
      hide TrimSpace, Days, Found;
      var found :| Activates(s, card, device, token, now, written, found, reply, s');
    case Authenticate(token, now, _) =>
      hide TrimSpace, NormalType;
    case SetConfig(enabled, seeds, now, _, _) =>
      hide SyncAll;
  }

  lemma {:induction false} RunGone(s: Service, trace: seq<Moment>, r: Record)
    requires Run(s, trace) && Gone(s, r) && NoRedraw(trace, r.token)
    ensures Gone(End(s, trace), r)
    decreases |trace|
  {
    if trace != [] {
      hide Step, Gone;
      StepGone(s, trace[0].event, trace[0].reply, trace[0].after, r);
      RunGone(trace[0].after, trace[1..], r);
    }
  }

  /** Reading a file without the binding loses it for good. */
  lemma StepLost(s: Service, e: Event, reply: Reply, s': Service, r: Record)
    requires Orderly(s) && Step(s, e, reply, s') && BoundTo(s, r) && Reads(e) && !Saved(s, r)
    ensures Gone(s', r)
  {
    hide SyncAll;
  }

  lemma {:induction false} Survival(s: Service, trace: seq<Moment>, r: Record)
    requires Orderly(s) && Run(s, trace) && BoundTo(s, r) && WithinTerm(trace, r) && NoRedraw(trace, r.token)
    ensures BoundTo(End(s, trace), r) <==> SavedWhenRead(s, trace, r)
    decreases |trace|
  {
    if trace != [] {
      var m := trace[0];
      SavedWhenReadTail(s, trace, r);
      EndTail(s, trace);
      hide Orderly, Step, Saved, Lapsed, Reads, SavedWhenRead, End;
      StepOrderly(s, m.event, m.reply, m.after);
      StepBound(s, m.event, m.reply, m.after, r);
      if Reads(m.event) && !Saved(s, r) {
        StepLost(s, m.event, m.reply, m.after, r);
        RunGone(m.after, trace[1..], r);
      } else {
        hide BoundTo;
        Survival(m.after, trace[1..], r);
      }
    }
  }

  lemma EndTail(s: Service, trace: seq<Moment>)
    requires trace != []
    ensures End(s, trace) == End(trace[0].after, trace[1..])
  {
  }

  /**
   * In every run from an empty store, whatever the writes: a binding that does not lapse is there at the end if and
   * only if every reading of the file in between found it written.
   */
  lemma BindingSurvivesExactly(past: seq<Moment>, future: seq<Moment>, r: Record)
    requires Run(START, past) && Run(End(START, past), future)
    requires BoundTo(End(START, past), r) && WithinTerm(future, r) && NoRedraw(future, r.token)
    ensures BoundTo(End(End(START, past), future), r) <==> SavedWhenRead(End(START, past), future, r)
  {
    RunOrderly(START, past);
    Survival(End(START, past), future, r);
  }

  /**
   * Once a card is bound, and until the binding expires, the binding device and no other gets a response for the
   * card, always with the same token and dates, through every activation, authentication and reload that finds the
   * binding written.
   */
  lemma BindingLastsWhileSaved(past: seq<Moment>, future: seq<Moment>, r: Record)
    requires Run(START, past) && Run(End(START, past), future)
    requires BoundTo(End(START, past), r) && WithinTerm(future, r) && SavedWhenRead(End(START, past), future, r)
    ensures forall i :: 0 <= i < |future| ==> Serves(Before(End(START, past), future, i), future[i], r)
  {
    RunOrderly(START, past);
    BindingLasts(End(START, past), future, r);
  }

  lemma {:induction false} WrittenIsSaved(s: Service, trace: seq<Moment>, r: Record)
    requires Orderly(s) && InStep(s) && Run(s, trace) && AllWritten(trace) && BoundTo(s, r) && WithinTerm(trace, r)
    ensures SavedWhenRead(s, trace, r)
    decreases |trace|
  {
    if trace != [] {
      var m := trace[0];
      assert Saved(s, r);
      SavedWhenReadTail(s, trace, r);
      hide Orderly, InStep, Step, BoundTo, Saved, Lapsed, Reads, SavedWhenRead;
      StepOrderly(s, m.event, m.reply, m.after);
      StepInStep(s, m.event, m.reply, m.after);
      StepBound(s, m.event, m.reply, m.after, r);
      WrittenIsSaved(m.after, trace[1..], r);
    }
  }

  /** While writes succeed, that holds through every reload. */
  lemma BindingLastsUntilExpiry(past: seq<Moment>, future: seq<Moment>, r: Record)
    requires Run(START, past) && Run(End(START, past), future) && AllWritten(past) && AllWritten(future)
    requires BoundTo(End(START, past), r) && WithinTerm(future, r)
    ensures forall i :: 0 <= i < |future| ==> Serves(Before(End(START, past), future, i), future[i], r)
  {
    RunOrderly(START, past);
    RunInStep(START, past);
    WrittenIsSaved(End(START, past), future, r);
    hide InStep;
    BindingLastsWhileSaved(past, future, r);
  }

  /** The event reaches the write of the state file, and the write succeeds. */
  ghost predicate Wrote(before: Service, m: Moment) {
    m.event.written &&
    match m.event
    case Activate(_, _, token, _, _) => token in m.after.state.activations
    case Authenticate(token, now, _) =>
      var t := TrimSpace(token);
      t != "" && before.enabled && t in before.state.activations && Lapsed(before.state.activations[t], now)
    case SetConfig(_, _, _, _, _) => true
  }

  lemma WroteIsDisk(s: Service, m: Moment)
    requires Step(s, m.event, m.reply, m.after)
    ensures m.after.disk == if Wrote(s, m) then Some(m.after.state) else s.disk
  {
    match m.event
    case Activate(card, device, token, now, written) =>
      hide TrimSpace, Days, Found;
      var found :| Activates(s, card, device, token, now, written, found, m.reply, m.after);
    case Authenticate(token, now, _) =>
      hide TrimSpace, NormalType;
    case SetConfig(enabled, seeds, now, _, _) =>
      hide SyncAll;
  }

  ghost predicate SomeWrite(s: Service, trace: seq<Moment>) {
    exists i :: 0 <= i < |trace| && Wrote(Before(s, trace, i), trace[i])
  }

  lemma SomeWriteTail(s: Service, trace: seq<Moment>)
    requires trace != []
    ensures SomeWrite(s, trace) <==> Wrote(s, trace[0]) || SomeWrite(trace[0].after, trace[1..])
  {
    hide Wrote;
    if SomeWrite(s, trace) && !Wrote(s, trace[0]) {
      var i :| 0 <= i < |trace| && Wrote(Before(s, trace, i), trace[i]);
      BeforeTail(s, trace, i);
      assert Wrote(Before(trace[0].after, trace[1..], i - 1), trace[1..][i - 1]);
    }
    if Wrote(s, trace[0]) {
      assert Wrote(Before(s, trace, 0), trace[0]);
    }
    if SomeWrite(trace[0].after, trace[1..]) {
      var i :| 0 <= i < |trace[1..]| && Wrote(Before(trace[0].after, trace[1..], i), trace[1..][i]);
      BeforeTail(s, trace, i + 1);
      assert Wrote(Before(s, trace, i + 1), trace[i + 1]);
    }
  }

  /** While a binding lasts, the file has it if and only if it had it, or some write has succeeded since. */
  lemma {:induction false} SavedExactly(s: Service, trace: seq<Moment>, r: Record)
    requires Orderly(s) && Run(s, trace) && BoundTo(s, r) && WithinTerm(trace, r) && SavedWhenRead(s, trace, r)
    ensures Saved(End(s, trace), r) <==> Saved(s, r) || SomeWrite(s, trace)
    decreases |trace|
  {
    if trace != [] {
      var m := trace[0];
      SavedWhenReadTail(s, trace, r);
      EndTail(s, trace);
      SomeWriteTail(s, trace);
      hide Orderly, Step, Lapsed, Reads, SavedWhenRead, End, SomeWrite, Wrote;
      StepOrderly(s, m.event, m.reply, m.after);
      StepBound(s, m.event, m.reply, m.after, r);
      WroteIsDisk(s, m);
      SavedExactly(m.after, trace[1..], r);
    }
  }

  /** A new binding survives a reload that comes at once if and only if it was written or there was no file. */
  lemma NewBindingSurvivesReload(s: Service, card: string, device: string, token: string, now: Time, written: bool,
                                 reply: Reply, s': Service,
                                 enabled: bool, seeds: seq<Seed>, again: bool)
    requires Unused(s, token) && card in s.state.cards
    requires Binds(s, card, device, token, now, written, s.state.activations, reply, s')
    ensures var r := Record(token, card, device, now, now + Days(s.state.cards[card]) * DAY);
            BoundTo(s', r) && (BoundTo(Reloaded(s', enabled, seeds, true, again), r) <==> written || s.disk.None?)
  {
    hide Days, SyncAll;
  }
}
