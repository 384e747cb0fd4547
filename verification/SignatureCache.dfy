/**
 * The cache of thinking signatures with sliding expiry (internal/cache/signature_cache.go). The text hash is an
 * uninterpreted function; model groups are given by name.
 */
module SignatureCache {
  import opened Wrappers

  /** Nanoseconds. */
  type Time = nat

  const TTL := 3 * 60 * 60 * 1_000_000_000
  const MIN_LENGTH := 50

  const GEMINI := "gemini"
  const SKIP := "skip_thought_signature_validator"

  datatype Key = Key(group: string, hash: string)

  datatype Entry = Entry(signature: string, timestamp: Time)

  type Entries = map<Key, Entry>

  // ---------- single operations ----------

  predicate Expired(e: Entry, now: Time) {
    now - e.timestamp > TTL
  }

  predicate Cacheable(text: string, signature: string) {
    text != "" && signature != "" && |signature| >= MIN_LENGTH
  }

  /** What a lookup answers without a signature. */
  function Missing(group: string): string {
    if group == GEMINI then SKIP else ""
  }

  /** The live entry of a key. */
  function Live(entries: Entries, k: Key, now: Time): Option<Entry> {
    if k in entries && !Expired(entries[k], now) then Some(entries[k]) else None
  }

  function Stored(entries: Entries, k: Key, signature: string, now: Time): Entries {
    entries[k := Entry(signature, now)]
  }

  /** A lookup refreshes a live entry and drops an expired one. */
  function Touched(entries: Entries, k: Key, now: Time): Entries {
    if Live(entries, k, now).Some? then entries[k := Entry(entries[k].signature, now)] else entries - {k}
  }

  function Purged(entries: Entries, now: Time): Entries {
    map k | k in entries && !Expired(entries[k], now) :: entries[k]
  }

  /** All groups go when `group` is empty. */
  function Cleared(entries: Entries, group: string): Entries {
    map k | k in entries && group != "" && k.group != group :: entries[k]
  }

  // ---------- runs ----------

  datatype Op =
    | Cache(group: string, text: string, signature: string, now: Time)
    | Lookup(group: string, text: string, now: Time)
    | Purge(now: Time)
    | Clear(group: string, now: Time)

  function Next(hash: string -> string, entries: Entries, op: Op): Entries {
    match op
    case Cache(group, text, signature, now) =>
      if Cacheable(text, signature) then Stored(entries, Key(group, hash(text)), signature, now) else entries
    case Lookup(group, text, now) => if text == "" then entries else Touched(entries, Key(group, hash(text)), now)
    case Purge(now) => Purged(entries, now)
    case Clear(group, _) => Cleared(entries, group)
  }

  function Answer(hash: string -> string, entries: Entries, group: string, text: string, now: Time): string {
    var live := Live(entries, Key(group, hash(text)), now);
    if text != "" && live.Some? then live.value.signature else Missing(group)
  }

  /** The answers of the lookups of a run, in order. */
  function Answers(hash: string -> string, entries: Entries, ops: seq<Op>): seq<string>
    decreases |ops|
  {
    if ops == [] then []
    else
      var op := ops[0];
      (if op.Lookup? then [Answer(hash, entries, op.group, op.text, op.now)] else [])
      + Answers(hash, Next(hash, entries, op), ops[1..])
  }

  /** The run without its purge sweeps. */
  function WithoutPurges(ops: seq<Op>): seq<Op> {
    if ops == [] then [] else (if ops[0].Purge? then [] else [ops[0]]) + WithoutPurges(ops[1..])
  }

  /** Time does not run backwards. */
  ghost predicate Ordered(ops: seq<Op>, since: Time)
    decreases |ops|
  {
    ops == [] || (ops[0].now >= since && Ordered(ops[1..], ops[0].now))
  }

  // ---------- purges are invisible ----------

  /** The same live entries, now and from now on. */
  ghost predicate Agree(a: Entries, b: Entries, now: Time) {
    forall k :: Live(a, k, now) == Live(b, k, now)
  }

  lemma AgreeLater(a: Entries, b: Entries, now: Time, later: Time)
    requires Agree(a, b, now) && now <= later
    ensures Agree(a, b, later)
  {
    forall k
      ensures Live(a, k, later) == Live(b, k, later)
    {
      assert Live(a, k, now) == Live(b, k, now);
    }
  }

  lemma NextAgrees(hash: string -> string, a: Entries, b: Entries, op: Op)
    requires Agree(a, b, op.now)
    ensures Agree(Next(hash, a, op), Next(hash, b, op), op.now)
  {
    forall k
      ensures Live(Next(hash, a, op), k, op.now) == Live(Next(hash, b, op), k, op.now)
    {
      assert Live(a, k, op.now) == Live(b, k, op.now);
      if op.Lookup? {
        assert Live(a, Key(op.group, hash(op.text)), op.now) == Live(b, Key(op.group, hash(op.text)), op.now);
      }
    }
  }

  lemma PurgeAgrees(a: Entries, b: Entries, now: Time)
    requires Agree(a, b, now)
    ensures Agree(Purged(a, now), b, now)
  {
    forall k
      ensures Live(Purged(a, now), k, now) == Live(b, k, now)
    {
      assert Live(a, k, now) == Live(b, k, now);
    }
  }

  lemma {:induction false} PurgesChangeNothing(hash: string -> string, a: Entries, b: Entries, ops: seq<Op>,
          since: Time)
    requires Agree(a, b, since) && Ordered(ops, since)
    ensures Answers(hash, a, ops) == Answers(hash, b, WithoutPurges(ops))
    decreases |ops|
  {
    if ops != [] {
      var op := ops[0];
      AgreeLater(a, b, since, op.now);
      if op.Purge? {
        PurgeAgrees(a, b, op.now);
        PurgesChangeNothing(hash, Purged(a, op.now), b, ops[1..], op.now);
        assert WithoutPurges(ops) == WithoutPurges(ops[1..]);
      } else {
        NextAgrees(hash, a, b, op);
        assert op.Lookup? ==>
          Answer(hash, a, op.group, op.text, op.now) == Answer(hash, b, op.group, op.text, op.now) by {
          if op.Lookup? {
            assert Live(a, Key(op.group, hash(op.text)), op.now) == Live(b, Key(op.group, hash(op.text)), op.now);
          }
        }
        PurgesChangeNothing(hash, Next(hash, a, op), Next(hash, b, op), ops[1..], op.now);
        var rest := WithoutPurges(ops[1..]);
        assert WithoutPurges(ops) == [op] + rest;
        assert ([op] + rest)[1..] == rest;
        hide Answer, Next, Agree, WithoutPurges;
      }
    }
  }

  /** Sweeping anywhere in a run changes no lookup: the answers are those of the run with the sweeps taken out. */
  lemma PurgesAreInvisible(hash: string -> string, entries: Entries, ops: seq<Op>, since: Time)
    requires Ordered(ops, since)
    ensures Answers(hash, entries, ops) == Answers(hash, entries, WithoutPurges(ops))
  {
    PurgesChangeNothing(hash, entries, entries, ops, since);
  }

  // ---------- what a hit returns ----------

  predicate Writes(hash: string -> string, op: Op, k: Key) {
    op.Cache? && Cacheable(op.text, op.signature) && Key(op.group, hash(op.text)) == k
  }

  predicate Reads(hash: string -> string, op: Op, k: Key) {
    op.Lookup? && op.text != "" && Key(op.group, hash(op.text)) == k
  }

  predicate Clears(op: Op, k: Key) {
    op.Clear? && (op.group == "" || op.group == k.group)
  }

  /**
   * When the signature written by operation `j` was last touched, if it still counts after all of `ops`: no write
   * or clearing of the key since, and every gap between touches at most the TTL.
   */
  ghost function LastTouch(hash: string -> string, ops: seq<Op>, j: nat, k: Key): Option<Time>
    requires j < |ops|
    decreases |ops|
  {
    var n := |ops| - 1;
    if j == n then (if Writes(hash, ops[n], k) then Some(ops[n].now) else None)
    else
      var before := LastTouch(hash, ops[..n], j, k);
      if before.None? || Writes(hash, ops[n], k) || Clears(ops[n], k) then None
      else if Reads(hash, ops[n], k) then (if ops[n].now - before.value <= TTL then Some(ops[n].now) else None)
      else before
  }

  function State(hash: string -> string, ops: seq<Op>): Entries {
    if ops == [] then map[] else Next(hash, State(hash, ops[..|ops| - 1]), ops[|ops| - 1])
  }

  ghost predicate TimeOrdered(ops: seq<Op>) {
    forall i, j :: 0 <= i <= j < |ops| ==> ops[i].now <= ops[j].now
  }

  /** Operation `j` wrote the entry, and its touches never lapsed. */
  ghost predicate Holds(hash: string -> string, ops: seq<Op>, k: Key, j: nat, e: Entry) {
    j < |ops| && Writes(hash, ops[j], k) && LastTouch(hash, ops, j, k) == Some(e.timestamp)
      && ops[j].signature == e.signature
  }

  /** Every entry of the cache is held by a write; a written entry that is still fresh is in the cache. */
  ghost predicate Faithful(hash: string -> string, ops: seq<Op>, k: Key, now: Time) {
    && (k in State(hash, ops) ==> exists j :: Holds(hash, ops, k, j, State(hash, ops)[k]))
    && (forall j, e :: Holds(hash, ops, k, j, e) && !Expired(e, now) ==>
      k in State(hash, ops) && State(hash, ops)[k] == e)
  }

  lemma HoldsBefore(hash: string -> string, ops: seq<Op>, k: Key, j: nat, e: Entry)
    requires Holds(hash, ops, k, j, e) && j < |ops| - 1
    ensures var n := |ops| - 1;
            !Writes(hash, ops[n], k) && !Clears(ops[n], k)
            && exists t :: Holds(hash, ops[..n], k, j, Entry(e.signature, t))
                           && (if Reads(hash, ops[n], k) then ops[n].now - t <= TTL
                             && e.timestamp == ops[n].now else t == e.timestamp)
  {
    var n := |ops| - 1;
    var before := LastTouch(hash, ops[..n], j, k);
    assert Holds(hash, ops[..n], k, j, Entry(e.signature, before.value));
  }

  lemma HoldsAfter(hash: string -> string, ops: seq<Op>, k: Key, j: nat, e: Entry)
    requires ops != [] && Holds(hash, ops[..|ops| - 1], k, j, e)
    requires var op := ops[|ops| - 1]; !Writes(hash, op, k) && !Clears(op, k)
    ensures var op := ops[|ops| - 1];
            !Reads(hash, op, k) ==> Holds(hash, ops, k, j, e)
    ensures var op := ops[|ops| - 1];
            Reads(hash, op, k) && op.now - e.timestamp <= TTL ==> Holds(hash, ops, k, j, Entry(e.signature, op.now))
  {
  }

  /** What one operation does to one key. */
  lemma NextAt(hash: string -> string, s: Entries, op: Op, k: Key)
    ensures var t := Next(hash, s, op);
            if Writes(hash, op, k) then k in t && t[k] == Entry(op.signature, op.now)
            else if Clears(op, k) then k !in t
            else if Reads(hash, op, k) then
              if k in s && !Expired(s[k], op.now) then k in t && t[k] == Entry(s[k].signature, op.now) else k !in t
            else if k in s && !(op.Purge? && Expired(s[k], op.now)) then k in t && t[k] == s[k]
            else k !in t
  {
  }

  lemma {:induction false} StateFaithful(hash: string -> string, ops: seq<Op>, k: Key, now: Time)
    requires TimeOrdered(ops) && forall i :: 0 <= i < |ops| ==> ops[i].now <= now
    ensures Faithful(hash, ops, k, now)
    decreases |ops|
  {
    if ops != [] {
      var n := |ops| - 1;
      var op := ops[n];
      StateFaithful(hash, ops[..n], k, op.now);
      NextAt(hash, State(hash, ops[..n]), op, k);
      StateHeld(hash, ops, k);
      HeldInState(hash, ops, k, now);
    }
  }

  lemma StateHeld(hash: string -> string, ops: seq<Op>, k: Key)
    requires ops != [] && Faithful(hash, ops[..|ops| - 1], k, ops[|ops| - 1].now)
    ensures k in State(hash, ops) ==> exists j :: Holds(hash, ops, k, j, State(hash, ops)[k])
  {
    var n := |ops| - 1;
    var op, before := ops[n], State(hash, ops[..n]);
    NextAt(hash, before, op, k);
    if k in State(hash, ops) {
      if Writes(hash, op, k) {
        assert Holds(hash, ops, k, n, Entry(op.signature, op.now));
      } else {
        var j :| Holds(hash, ops[..n], k, j, before[k]);
        hide Next, LastTouch, Holds;
        HoldsAfter(hash, ops, k, j, before[k]);
      }
    }
  }

  lemma HeldInState(hash: string -> string, ops: seq<Op>, k: Key, now: Time)
    requires ops != [] && Faithful(hash, ops[..|ops| - 1], k, ops[|ops| - 1].now) && ops[|ops| - 1].now <= now
    ensures forall j, e :: Holds(hash, ops, k, j, e) && !Expired(e, now) ==>
      k in State(hash, ops) && State(hash, ops)[k] == e
  {
    var n := |ops| - 1;
    var op, before := ops[n], State(hash, ops[..n]);
    forall j, e | Holds(hash, ops, k, j, e) && !Expired(e, now)
      ensures k in State(hash, ops) && State(hash, ops)[k] == e
    {
      NextAt(hash, before, op, k);
      if j == n {
        assert e == Entry(op.signature, op.now);
      } else {
        HoldsBefore(hash, ops, k, j, e);
        var t :| Holds(hash, ops[..n], k, j, Entry(e.signature, t))
                 && (if Reads(hash, op, k) then op.now - t <= TTL && e.timestamp == op.now else t == e.timestamp);
        hide Next, LastTouch, Holds;
        assert !Expired(Entry(e.signature, t), op.now);
      }
    }
  }

  /**
   * A lookup after the run `ops` returns a signature if and only if it is the one last written for that group and
   * hash, not cleared since, with every gap between touches, up to the lookup, at most the TTL.
   */
  lemma HitIsLastWrite(hash: string -> string, ops: seq<Op>, group: string, text: string, now: Time, signature: string)
    requires TimeOrdered(ops) && (forall i :: 0 <= i < |ops| ==> ops[i].now <= now)
    requires text != "" && signature != Missing(group)
    ensures Answer(hash, State(hash, ops), group, text, now) == signature
       <==> exists j, t :: Holds(hash, ops, Key(group, hash(text)), j, Entry(signature, t)) && now - t <= TTL
  {
    var k := Key(group, hash(text));
    StateFaithful(hash, ops, k, now);
    hide State, Holds, Missing, TimeOrdered;
    if Answer(hash, State(hash, ops), group, text, now) == signature {
      var j := HitIsHeld(hash, ops, k, now, signature);
    }
    if exists j, t :: Holds(hash, ops, k, j, Entry(signature, t)) && now - t <= TTL {
      var j, t :| Holds(hash, ops, k, j, Entry(signature, t)) && now - t <= TTL;
      HeldIsHit(hash, ops, k, now, j, Entry(signature, t));
    }
  }

  lemma HitIsHeld(hash: string -> string, ops: seq<Op>, k: Key, now: Time, signature: string) returns (j: nat)
    requires Faithful(hash, ops, k, now)
    requires Live(State(hash, ops), k, now).Some? && State(hash, ops)[k].signature == signature
    ensures Holds(hash, ops, k, j, Entry(signature, State(hash, ops)[k].timestamp))
    ensures now - State(hash, ops)[k].timestamp <= TTL
  {
    hide Holds, State;
    j :| Holds(hash, ops, k, j, State(hash, ops)[k]);
  }

  lemma HeldIsHit(hash: string -> string, ops: seq<Op>, k: Key, now: Time, j: nat, e: Entry)
    requires Faithful(hash, ops, k, now) && Holds(hash, ops, k, j, e) && now - e.timestamp <= TTL
    ensures Live(State(hash, ops), k, now) == Some(e)
  {
    hide Holds, State;
  }

  /** The write that holds an entry is the last one of its key. */
  lemma {:induction false} HolderIsLast(hash: string -> string, ops: seq<Op>, k: Key, j: nat, e: Entry, i: nat)
    requires Holds(hash, ops, k, j, e) && j < i < |ops|
    ensures !Writes(hash, ops[i], k) && !Clears(ops[i], k)
    decreases |ops|
  {
    var n := |ops| - 1;
    HoldsBefore(hash, ops, k, j, e);
    if i < n {
      var t :| Holds(hash, ops[..n], k, j, Entry(e.signature, t));
      HolderIsLast(hash, ops[..n], k, j, Entry(e.signature, t), i);
    }
  }

  // ---------- the cache ----------

  class Cache {
    var entries: Entries

    constructor ()
      ensures entries == map[]
    {
      entries := map[];
    }

    method CacheSignature(hash: string -> string, group: string, text: string, signature: string, now: Time)
      modifies this
      ensures entries == Next(hash, old(entries), Op.Cache(group, text, signature, now))
    {
      if text == "" || signature == "" {
        return;
      }
      if |signature| < MIN_LENGTH {
        return;
      }
      entries := entries[Key(group, hash(text)) := Entry(signature, now)];
    }

    method GetCachedSignature(hash: string -> string, group: string, text: string, now: Time)
      returns (signature: string)
      modifies this
      ensures signature == Answer(hash, old(entries), group, text, now)
      ensures entries == Next(hash, old(entries), Op.Lookup(group, text, now))
    {
      if text == "" {
        return Missing(group);
      }
      var k := Key(group, hash(text));
      if k !in entries {
        assert entries - {k} == entries;
        return Missing(group);
      }
      var entry := entries[k];
      if now - entry.timestamp > TTL {
        entries := entries - {k};
        return Missing(group);
      }
      entries := entries[k := entry.(timestamp := now)];
      return entry.signature;
    }

    method PurgeExpiredCaches(now: Time)
      modifies this
      ensures entries == Purged(old(entries), now)
    {
      ghost var start := entries;
      var todo := entries.Keys;
      while todo != {}
        invariant todo <= start.Keys
        invariant entries == map k | k in start && (k in todo || !Expired(start[k], now)) :: start[k]
      {
        var k :| k in todo;
        todo := todo - {k};
        if now - entries[k].timestamp > TTL {
          entries := entries - {k};
        }
      }
    }

    method ClearSignatureCache(group: string)
      modifies this
      ensures entries == Cleared(old(entries), group)
    {
      ghost var start := entries;
      var todo := entries.Keys;
      while todo != {}
        invariant todo <= start.Keys
        invariant entries == map k | k in start && (k in todo || (group != "" && k.group != group)) :: start[k]
      {
        var k :| k in todo;
        todo := todo - {k};
        if group == "" || k.group == group {
          entries := entries - {k};
        }
      }
    }
  }
}
