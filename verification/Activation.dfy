/**
 * Card activation (internal/covsactivation/service.go). The configuration is always present, tokens are inputs, and
 * the state file is the last state written. The product of every card is the same and is left out.
 */
module Activation {
  import opened Wrappers
  import opened Text

  /** Nanoseconds; 0 is the zero time. */
  type Time = nat

  const DAY := 24 * 60 * 60 * 1_000_000_000

  datatype Card = Card(code: string, cardType: string, days: int, disabled: bool, remark: string)

  datatype Record = Record(token: string, card: string, device: string, activatedAt: Time, expiresAt: Time)

  datatype State = State(cards: map<string, Card>, activations: map<string, Record>)

  datatype Seed = Seed(code: string, cardType: string, days: int, disabled: bool, remark: string)

  datatype Refusal = ServiceDisabled | CardMissing | DeviceMissing | CardInvalid | BoundElsewhere | WriteFailed

  datatype Reply = Granted(token: string, card: string, activatedAt: Time, expiresAt: Time) | Refused(why: Refusal)

  /** The service with its state file; nothing was written yet when `disk` is None. */
  datatype Service = Service(enabled: bool, state: State, disk: Option<State>)

  const EMPTY := State(map[], map[])

  /** A service that starts with nothing in memory and no state file. */
  const START := Service(false, EMPTY, None)

  // ---------- cards ----------

  function NormalType(v: string): string {
    var t := ToLower(TrimSpace(v));
    if t == "year" || t == "lifetime" then t else "month"
  }

  function DefaultDays(cardType: string): nat {
    var t := NormalType(cardType);
    if t == "year" then 365 else if t == "lifetime" then 36500 else 30
  }

  /** How long an activation of the card lasts. */
  function Days(card: Card): (d: nat)
    ensures d > 0
  {
    if card.days > 0 then card.days else
      assert DefaultDays(card.cardType) > 0;
      DefaultDays(card.cardType)
  }

  function Seeded(current: Card, seed: Seed): Card {
    var t := if TrimSpace(seed.cardType) != "" then TrimSpace(seed.cardType) else TrimSpace(current.cardType);
    var days := Max(seed.days, current.days);
    Card(current.code, NormalType(t), if days <= 0 then DefaultDays(NormalType(t)) else days, seed.disabled,
         if TrimSpace(seed.remark) != "" then TrimSpace(seed.remark) else current.remark)
  }

  function Sync(cards: map<string, Card>, seed: Seed): map<string, Card> {
    var code := TrimSpace(seed.code);
    if code == "" then cards
    else cards[code := Seeded(if code in cards then cards[code] else Card(code, "", 0, false, ""), seed)]
  }

  function SyncAll(cards: map<string, Card>, seeds: seq<Seed>): map<string, Card> {
    if seeds == [] then cards else Sync(SyncAll(cards, seeds[..|seeds| - 1]), seeds[|seeds| - 1])
  }

  // ---------- activations ----------

  predicate Lapsed(r: Record, now: Time) {
    r.expiresAt != 0 && now > r.expiresAt
  }

  /** A record of the card, in whatever order the map yields them. */
  ghost predicate Found(s: State, card: string, found: Option<Record>) {
    match found
    case None => forall t :: t in s.activations ==> s.activations[t].card != card
    case Some(r) => r.card == card && exists t :: t in s.activations && s.activations[t] == r
  }

  function Grant(r: Record): Reply {
    Granted(r.token, r.card, r.activatedAt, r.expiresAt)
  }

  /** The state is written to the file unless the write fails. */
  function Persisted(s: Service, state: State, written: bool): Service {
    s.(state := state, disk := if written then Some(state) else s.disk)
  }

  /** A card is bound to a device under a new token. */
  ghost predicate Binds(s: Service, card: string, device: string, token: string, now: Time, written: bool,
                        activations: map<string, Record>, reply: Reply, s': Service)
    requires card in s.state.cards
  {
    var r := Record(token, card, device, now, now + Days(s.state.cards[card]) * DAY);
    && s' == Persisted(s, s.state.(activations := activations[token := r]), written)
    && reply == if written then Grant(r) else Refused(WriteFailed)
  }

  ghost predicate Activates(s: Service, rawCard: string, rawDevice: string, token: string, now: Time, written: bool,
                            found: Option<Record>, reply: Reply, s': Service)
  {
    var card, device := TrimSpace(rawCard), TrimSpace(rawDevice);
    if !s.enabled then reply == Refused(ServiceDisabled) && s' == s
    else if card == "" then reply == Refused(CardMissing) && s' == s
    else if device == "" then reply == Refused(DeviceMissing) && s' == s
    else if card !in s.state.cards || s.state.cards[card].disabled then reply == Refused(CardInvalid) && s' == s
    else
      && Found(s.state, card, found)
      && if found.None? then Binds(s, card, device, token, now, written, s.state.activations, reply, s')
         else if Lapsed(found.value, now) then
           Binds(s, card, device, token, now, written, s.state.activations - {found.value.token}, reply, s')
         else if found.value.device != device then reply == Refused(BoundElsewhere) && s' == s
         else reply == Grant(found.value) && s' == s
  }

  /** What the owner of a good token is told. */
  datatype Access = Access(token: string, cardType: string, activatedAt: Time, expiresAt: Time)

  /** The access a token gives, and the service after asking: a lapsed record goes away. */
  function Authenticated(s: Service, rawToken: string, now: Time, written: bool): (Option<Access>, Service) {
    var token := TrimSpace(rawToken);
    if token == "" || !s.enabled || token !in s.state.activations then (None, s)
    else
      var r := s.state.activations[token];
      if Lapsed(r, now) then (None, Persisted(s, s.state.(activations := s.state.activations - {token}), written))
      else if r.card !in s.state.cards then (None, s)
      else (Some(Access(token, NormalType(s.state.cards[r.card].cardType), r.activatedAt, r.expiresAt)), s)
  }

  /** A new configuration: read the file again if it can be read, bring the cards up to date, write. */
  function Reloaded(s: Service, enabled: bool, seeds: seq<Seed>, readable: bool, written: bool): Service {
    var state := if s.disk.Some? && readable then s.disk.value else s.state;
    Persisted(s.(enabled := enabled), state.(cards := SyncAll(state.cards, seeds)), written)
  }

  // ---------- the service ----------

  class ActivationService {
    var enabled: bool
    var cards: map<string, Card>
    var activations: map<string, Record>
    var disk: Option<State>

    ghost function Contents(): Service
      reads this
    {
      Service(enabled, State(cards, activations), disk)
    }

    constructor ()
      ensures Contents() == START
    {
      enabled, cards, activations, disk := false, map[], map[], None;
    }

    method Persist(written: bool)
      modifies this`disk
      ensures Contents() == Persisted(old(Contents()), State(cards, activations), written)
    {
      if written {
        disk := Some(State(cards, activations));
      }
    }

    method FindActivationByCardCode(card: string) returns (found: Option<Record>)
      ensures Found(State(cards, activations), card, found)
    {
      found := None;
      var todo := activations.Keys;
      while todo != {}
        invariant todo <= activations.Keys
        invariant forall t :: t in activations && t !in todo ==> activations[t].card != card
      {
        var t :| t in todo;
        todo := todo - {t};
        if activations[t].card == card {
          return Some(activations[t]);
        }
      }
    }

    method Bind(card: string, device: string, token: string, now: Time, written: bool) returns (reply: Reply)
      requires card in cards
      modifies this
      ensures Binds(old(Contents()), card, device, token, now, written, old(activations), reply, Contents())
    {
      hide Days;
      var record := Record(token, card, device, now, now + Days(cards[card]) * DAY);
      activations := activations[token := record];
      Persist(written);
      if !written {
        return Refused(WriteFailed);
      }
      return Grant(record);
    }

    method Activate(rawCard: string, rawDevice: string, token: string, now: Time, written: bool)
      returns (reply: Reply, ghost found: Option<Record>)
      modifies this
      ensures Activates(old(Contents()), rawCard, rawDevice, token, now, written, found, reply, Contents())
    {
      found := None;
      if !enabled {
        return Refused(ServiceDisabled), None;
      }
      var card, device := TrimSpace(rawCard), TrimSpace(rawDevice);
      hide TrimSpace, Days;
      if card == "" {
        return Refused(CardMissing), None;
      }
      if device == "" {
        return Refused(DeviceMissing), None;
      }
      if card !in cards || cards[card].disabled {
        return Refused(CardInvalid), None;
      }
      var existing := FindActivationByCardCode(card);
      found := existing;
      if existing.Some? {
        var r := existing.value;
        if r.expiresAt != 0 && now > r.expiresAt {
          activations := activations - {r.token};
        } else if r.device != device {
          reply := Refused(BoundElsewhere);
          return;
        } else {
          reply := Grant(r);
          return;
        }
      }
      reply := Bind(card, device, token, now, written);
    }

    method AuthenticateToken(rawToken: string, now: Time, written: bool) returns (access: Option<Access>)
      modifies this
      ensures (access, Contents()) == Authenticated(old(Contents()), rawToken, now, written)
    {
      var token := TrimSpace(rawToken);
      hide TrimSpace, NormalType;
      if token == "" {
        return None;
      }
      if !enabled {
        return None;
      }
      if token !in activations {
        return None;
      }
      var record := activations[token];
      if record.expiresAt != 0 && now > record.expiresAt {
        activations := activations - {token};
        Persist(written);
        return None;
      }
      if record.card !in cards {
        return None;
      }
      return Some(Access(token, NormalType(cards[record.card].cardType), record.activatedAt, record.expiresAt));
    }

    method SyncSeedCards(seeds: seq<Seed>)
      modifies this`cards
      ensures cards == SyncAll(old(cards), seeds)
    {
      hide Seeded, TrimSpace;
      assert seeds[..0] == [];
      for i := 0 to |seeds|
        invariant cards == SyncAll(old(cards), seeds[..i])
      {
        assert seeds[..i + 1][..i] == seeds[..i];
        var seed := seeds[i];
        var code := TrimSpace(seed.code);
        if code != "" {
          var current := if code in cards then cards[code] else Card(code, "", 0, false, "");
          cards := cards[code := Seeded(current, seed)];
        }
      }
      assert seeds[..|seeds|] == seeds;
    }

    method SetConfig(enable: bool, seeds: seq<Seed>, readable: bool, written: bool)
      modifies this
      ensures Contents() == Reloaded(old(Contents()), enable, seeds, readable, written)
    {
      enabled := enable;
      if disk.Some? && readable {
        cards, activations := disk.value.cards, disk.value.activations;
      }
      SyncSeedCards(seeds);
      Persist(written);
    }
  }
}
