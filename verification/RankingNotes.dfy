/**
 * The words kept with a ranked candidate (internal/api/cpams_resolver.go): the reason of the best status, and the
 * first word on continuing responses. The order of probes settles them, the ranking does not depend on them.
 */
module RankingNotes {
  import opened Wrappers
  import opened Filtering
  import opened Sorting
  import opened Ranking

  // ---------- what is kept ----------

  /** What is kept for one name, read off the whole list. */
  function KeptFor(observations: seq<Observation>, name: string): Option<Kept> {
    if observations == [] then None
    else
      var before, o := KeptFor(observations[..|observations| - 1], name), observations[|observations| - 1];
      if o.fullModel == name then Some(Keep(before, o)) else before
  }

  lemma {:induction false} NotesAt(observations: seq<Observation>, name: string)
    ensures KeptFor(observations, name) ==
            if name in NotesOf(observations) then Some(NotesOf(observations)[name]) else None
  {
    hide Keep;
    if observations != [] {
      NotesAt(observations[..|observations| - 1], name);
    }
  }

  lemma KeptMore(seen: seq<Observation>, o: Observation, name: string)
    ensures KeptFor(seen + [o], name) ==
            if o.fullModel == name then Some(Keep(KeptFor(seen, name), o)) else KeptFor(seen, name)
  {
    assert (seen + [o])[..|seen|] == seen;
  }

  /** Every candidate has its words, under the status it is ranked with. */
  lemma {:induction false} NotesOfRanked(observations: seq<Observation>)
    ensures NotesOf(observations).Keys == Aggregate(observations).Keys
    ensures forall f :: f in Aggregate(observations) ==>
      NotesOf(observations)[f].rank == Aggregate(observations)[f].statusRank
  {
    if observations != [] {
      NotesOfRanked(observations[..|observations| - 1]);
    }
  }

  ghost predicate Observed(observations: seq<Observation>, name: string) {
    exists o :: o in observations && o.fullModel == name
  }

  // ---------- the best status ----------

  /** An observation of the name that none of the name's observations outranks. */
  ghost predicate Top(observations: seq<Observation>, name: string, o: Observation) {
    o in observations && o.fullModel == name
    && forall p :: p in observations && p.fullModel == name ==> p.rank <= o.rank
  }

  lemma {:induction false} KeptRank(observations: seq<Observation>, name: string)
    ensures KeptFor(observations, name).Some? <==> Observed(observations, name)
    ensures KeptFor(observations, name).Some? ==>
      exists o :: Top(observations, name, o) && o.rank == KeptFor(observations, name).value.rank
  {
    if observations != [] {
      var n := |observations| - 1;
      var before, last := observations[..n], observations[n];
      KeptRank(before, name);
      assert observations == before + [last];
      if KeptFor(before, name).Some? {
        var o :| Top(before, name, o) && o.rank == KeptFor(before, name).value.rank;
        assert o in observations;
        if last.fullModel == name && last.rank > o.rank {
          assert Top(observations, name, last);
        } else {
          assert Top(observations, name, o);
        }
      } else if last.fullModel == name {
        assert Top(observations, name, last);
      }
    }
  }

  // ---------- which reasons can be kept ----------

  /** Some observation with the best status gives no reason. */
  ghost predicate SilentTop(observations: seq<Observation>, name: string) {
    exists o :: Top(observations, name, o) && o.note.reason == ""
  }

  /**
   * A reason that some order of the observations leaves: one given with the best status; any that is given, if the
   * best status also comes without; and none, if it only comes without.
   */
  ghost predicate CanSay(observations: seq<Observation>, name: string, reason: string) {
    if reason == "" then
      Observed(observations, name) && forall o :: Top(observations, name, o) ==> o.note.reason == ""
    else
      exists o :: o in observations && o.fullModel == name && o.note.reason == reason
                  && (Top(observations, name, o) || SilentTop(observations, name))
  }

  lemma OtherNames(observations: seq<Observation>, o: Observation, name: string, reason: string)
    requires o.fullModel != name && CanSay(observations, name, reason)
    ensures CanSay(observations + [o], name, reason)
  {
    assert forall p :: Top(observations, name, p) <==> Top(observations + [o], name, p);
    if reason != "" {
      var p :| p in observations && p.fullModel == name && p.note.reason == reason
               && (Top(observations, name, p) || SilentTop(observations, name));
      assert p in observations + [o];
      if SilentTop(observations, name) {
        var t :| Top(observations, name, t) && t.note.reason == "";
        assert Top(observations + [o], name, t);
      }
    } else {
      var p :| p in observations && p.fullModel == name;
      assert p in observations + [o];
    }
  }

  lemma BetterSays(before: seq<Observation>, o: Observation, name: string)
    requires o.fullModel == name && forall p :: p in before && p.fullModel == name ==> p.rank < o.rank
    ensures CanSay(before + [o], name, o.note.reason)
  {
    assert o in before + [o] && Top(before + [o], name, o);
    assert forall p :: Top(before + [o], name, p) ==> p == o;
  }

  /** An observation that is not better leaves a reason, or fills the gap. */
  lemma NotBetterSays(before: seq<Observation>, o: Observation, name: string, reason: string, top: Observation)
    requires o.fullModel == name && Top(before, name, top) && o.rank <= top.rank && CanSay(before, name, reason)
    ensures CanSay(before + [o], name, Or(reason, o.note.reason))
  {
    var after := before + [o];
    assert forall p :: Top(before, name, p) ==> Top(after, name, p);
    assert o in after && top in after;
    if reason != "" {
      var p :| p in before && p.fullModel == name && p.note.reason == reason
               && (Top(before, name, p) || SilentTop(before, name));
      assert p in after;
      if SilentTop(before, name) {
        var t :| Top(before, name, t) && t.note.reason == "";
        assert Top(after, name, t);
      }
    } else if o.note.reason != "" {
      assert Top(after, name, top) && top.note.reason == "";
    } else {
      forall p | Top(after, name, p)
        ensures p.note.reason == ""
      {
        if p in before {
          assert Top(before, name, p);
        }
      }
    }
  }

  /** What is kept is one of the reasons that can be. */
  lemma {:induction false} KeptCanBeSaid(observations: seq<Observation>, name: string)
    requires KeptFor(observations, name).Some?
    ensures CanSay(observations, name, KeptFor(observations, name).value.note.reason)
  {
    var n := |observations| - 1;
    var before, o := observations[..n], observations[n];
    assert observations == before + [o];
    KeptRank(before, name);
    KeptMore(before, o, name);
    hide CanSay, KeptFor, Top;
    var k := KeptFor(before, name);
    if k.Some? {
      KeptCanBeSaid(before, name);
      var top :| Top(before, name, top) && top.rank == k.value.rank;
      if o.fullModel != name {
        OtherNames(before, o, name, k.value.note.reason);
      } else if o.rank > top.rank {
        TopIsBest(before, name, top);
        BetterSays(before, o, name);
      } else {
        NotBetterSays(before, o, name, k.value.note.reason, top);
      }
    } else {
      BetterSays(before, o, name);
    }
  }

  lemma TopIsBest(observations: seq<Observation>, name: string, top: Observation)
    requires Top(observations, name, top)
    ensures forall p :: p in observations && p.fullModel == name ==> p.rank <= top.rank
  {
  }

  // ---------- every such reason is left by some order ----------

  /** Once something is said with the best status, nothing that follows takes it back. */
  lemma {:induction false} SaidStays(front: seq<Observation>, rest: seq<Observation>, name: string)
    requires KeptFor(front, name).Some? && KeptFor(front, name).value.note.reason != ""
    requires forall p :: p in rest && p.fullModel == name ==> p.rank <= KeptFor(front, name).value.rank
    ensures var k := KeptFor(front + rest, name);
            k.Some? && k.value.rank == KeptFor(front, name).value.rank
            && k.value.note.reason == KeptFor(front, name).value.note.reason
  {
    if rest == [] {
      assert front + rest == front;
    } else {
      var n := |rest| - 1;
      SaidStays(front, rest[..n], name);
      assert front + rest == (front + rest[..n]) + [rest[n]];
      KeptMore(front + rest[..n], rest[n], name);
      hide KeptFor;
    }
  }

  /** Better observations without a reason silence what came before. */
  lemma {:induction false} SilenceStays(front: seq<Observation>, rest: seq<Observation>, name: string, rank: int)
    requires rest != [] && KeptFor(front, name).Some? ==> KeptFor(front, name).value.rank < rank
    requires forall p :: p in rest ==> p.fullModel == name && p.rank == rank && p.note.reason == ""
    ensures rest != [] ==>
      var k := KeptFor(front + rest, name); k.Some? && k.value.rank == rank && k.value.note.reason == ""
  {
    if rest != [] {
      var n := |rest| - 1;
      SilenceStays(front, rest[..n], name, rank);
      assert front + rest == (front + rest[..n]) + [rest[n]];
      assert n == 0 ==> front + rest[..n] == front;
      KeptMore(front + rest[..n], rest[n], name);
      hide KeptFor;
    }
  }

  lemma MovedFirst(a: seq<Observation>, o: Observation) returns (rest: seq<Observation>)
    requires o in a
    ensures multiset([o] + rest) == multiset(a) && (forall p :: p in rest ==> p in a)
    ensures forall p :: p in a && p != o ==> p in rest
  {
    var i :| 0 <= i < |a| && a[i] == o;
    rest := a[..i] + a[i + 1..];
    assert a == a[..i] + [a[i]] + a[i + 1..];
  }

  /** With the best status first, its reason is kept. */
  lemma TopFirst(a: seq<Observation>, name: string, o: Observation) returns (b: seq<Observation>)
    requires Top(a, name, o) && o.note.reason != ""
    ensures multiset(b) == multiset(a) && KeptFor(b, name).Some? && KeptFor(b, name).value.note.reason == o.note.reason
  {
    var rest := MovedFirst(a, o);
    b := [o] + rest;
    KeptMore([], o, name);
    assert [] + [o] == [o];
    SaidStays([o], rest, name);
  }

  /** With a silent best status first and another observation second, the reason of the other is kept. */
  lemma SilentFirst(a: seq<Observation>, name: string, t: Observation, o: Observation) returns (b: seq<Observation>)
    requires Top(a, name, t) && t.note.reason == "" && o in a && o.fullModel == name && o.note.reason != ""
    ensures multiset(b) == multiset(a) && KeptFor(b, name).Some? && KeptFor(b, name).value.note.reason == o.note.reason
  {
    var others := MovedFirst(a, t);
    var rest := MovedFirst(others, o);
    b := [t, o] + rest;
    assert b == [t] + ([o] + rest);
    KeptMore([], t, name);
    KeptMore([t], o, name);
    assert [] + [t] == [t] && [t] + [o] == [t, o];
    SaidStays([t, o], rest, name);
  }

  lemma FilterLast(s: seq<Observation>, x: Observation, keep: Observation -> bool)
    ensures keep(x) ==> multiset(Filter(s + [x], keep)) == multiset(Filter(s, keep)) + multiset{x}
    ensures !keep(x) ==> Filter(s + [x], keep) == Filter(s, keep)
  {
    assert (s + [x])[..|s|] == s;
  }

  lemma AddedToOne(l: multiset<Observation>, r: multiset<Observation>, x: Observation, left: bool,
                   l': multiset<Observation>, r': multiset<Observation>)
    requires l' == (if left then l + multiset{x} else l) && r' == (if left then r else r + multiset{x})
    ensures l' + r' == (l + r) + multiset{x}
  {
  }

  lemma {:induction false} FilterSplits(s: seq<Observation>, left: Observation -> bool, right: Observation -> bool)
    requires forall x :: x in s ==> (left(x) <==> !right(x))
    ensures multiset(Filter(s, left)) + multiset(Filter(s, right)) == multiset(s)
  {
    if s != [] {
      hide *;
      var front, x := s[..|s| - 1], s[|s| - 1];
      assert s == front + [x] && x in s;
      FilterSplits(front, left, right);
      FilterLast(front, x, left);
      FilterLast(front, x, right);
      AddedToOne(multiset(Filter(front, left)), multiset(Filter(front, right)), x, left(x),
                 multiset(Filter(s, left)), multiset(Filter(s, right)));
    }
  }

  /** The name's observations with the given status. */
  ghost function AtRank(name: string, rank: int): Observation -> bool {
    (o: Observation) => o.fullModel == name && o.rank == rank
  }

  ghost function Below(name: string, rank: int): Observation -> bool {
    (o: Observation) => !AtRank(name, rank)(o)
  }

  lemma PartsOf(a: seq<Observation>, name: string, top: Observation)
    requires Top(a, name, top) && forall o :: Top(a, name, o) ==> o.note.reason == ""
    ensures forall o :: o in Filter(a, Below(name, top.rank)) && o.fullModel == name ==> o.rank < top.rank
    ensures forall o :: o in Filter(a, AtRank(name, top.rank)) ==>
      o.fullModel == name && o.rank == top.rank && o.note.reason == ""
    ensures top in Filter(a, AtRank(name, top.rank))
  {
    forall o | o in Filter(a, Below(name, top.rank)) && o.fullModel == name
      ensures o.rank < top.rank
    {
      FilterHas(a, Below(name, top.rank), o);
      assert Below(name, top.rank)(o) && !AtRank(name, top.rank)(o);
    }
    forall o | o in Filter(a, AtRank(name, top.rank))
      ensures o.fullModel == name && o.rank == top.rank && o.note.reason == ""
    {
      FilterHas(a, AtRank(name, top.rank), o);
      assert Top(a, name, o);
    }
    FilterHas(a, AtRank(name, top.rank), top);
  }

  /** With the silent best status last, no reason is kept. */
  lemma SilentLast(a: seq<Observation>, name: string, top: Observation) returns (b: seq<Observation>)
    requires Top(a, name, top) && forall o :: Top(a, name, o) ==> o.note.reason == ""
    ensures multiset(b) == multiset(a) && KeptFor(b, name).Some? && KeptFor(b, name).value.note.reason == ""
  {
    var low, tops := Filter(a, Below(name, top.rank)), Filter(a, AtRank(name, top.rank));
    PartsOf(a, name, top);
    FilterSplits(a, Below(name, top.rank), AtRank(name, top.rank));
    KeptRank(low, name);
    hide Filter, KeptFor, AtRank, Below;
    SilenceStays(low, tops, name, top.rank);
    b := low + tops;
  }

  lemma SameTops(a: seq<Observation>, b: seq<Observation>, name: string, reason: string)
    requires multiset(a) == multiset(b) && CanSay(b, name, reason)
    ensures CanSay(a, name, reason)
  {
    SameElements(a, b);
    assert forall o :: Top(a, name, o) <==> Top(b, name, o);
    if reason != "" && SilentTop(b, name) {
      var t :| Top(b, name, t) && t.note.reason == "";
      assert Top(a, name, t);
    }
  }

  /** Some order of the observations keeps the reason. */
  ghost predicate SomeOrderKeeps(a: seq<Observation>, name: string, reason: string) {
    exists b :: multiset(b) == multiset(a) && KeptFor(b, name).Some? && KeptFor(b, name).value.note.reason == reason
  }

  /** The reasons that some order of the observations leaves are exactly those that can be said. */
  lemma ReasonsExactly(a: seq<Observation>, name: string, reason: string)
    ensures SomeOrderKeeps(a, name, reason) <==> CanSay(a, name, reason)
  {
    hide KeptFor;
    if SomeOrderKeeps(a, name, reason) {
      var b :| multiset(b) == multiset(a) && KeptFor(b, name).Some? && KeptFor(b, name).value.note.reason == reason;
      hide CanSay;
      KeptCanBeSaid(b, name);
      SameTops(a, b, name, reason);
    }
    if CanSay(a, name, reason) {
      KeptRank(a, name);
      var b: seq<Observation>;
      if reason == "" {
        var top :| Top(a, name, top);
        b := SilentLast(a, name, top);
      } else {
        var o :| o in a && o.fullModel == name && o.note.reason == reason && (Top(a, name, o) || SilentTop(a, name));
        if Top(a, name, o) {
          b := TopFirst(a, name, o);
        } else {
          var t :| Top(a, name, t) && t.note.reason == "";
          b := SilentFirst(a, name, t, o);
        }
      }
      assert SomeOrderKeeps(a, name, reason);
    }
  }

  // ---------- when the order does not matter ----------

  /** Every order of the observations gives the trait the same value. */
  ghost predicate TraitFixed(a: seq<Observation>, name: string, holds: string -> bool) {
    forall b, c :: multiset(b) == multiset(a) && multiset(c) == multiset(a) ==> SameTrait(b, c, name, holds)
  }

  ghost predicate SameTrait(b: seq<Observation>, c: seq<Observation>, name: string, holds: string -> bool) {
    KeptFor(b, name).Some? && KeptFor(c, name).Some? ==>
      holds(KeptFor(b, name).value.note.reason) == holds(KeptFor(c, name).value.note.reason)
  }

  /**
   * A trait read off the reason depends on the observations only as a multiset if and only if all reasons that can be
   * said agree on it.
   */
  lemma TraitFixedExactly(a: seq<Observation>, name: string, holds: string -> bool)
    ensures TraitFixed(a, name, holds) <==>
      forall r, s :: CanSay(a, name, r) && CanSay(a, name, s) ==> holds(r) == holds(s)
  {
    hide CanSay, KeptFor;
    forall r {
      ReasonsExactly(a, name, r);
    }
    if TraitFixed(a, name, holds) {
      forall r, s | CanSay(a, name, r) && CanSay(a, name, s)
        ensures holds(r) == holds(s)
      {
        var b :| multiset(b) == multiset(a) && KeptFor(b, name).Some? && KeptFor(b, name).value.note.reason == r;
        var c :| multiset(c) == multiset(a) && KeptFor(c, name).Some? && KeptFor(c, name).value.note.reason == s;
        assert SameTrait(b, c, name, holds);
      }
    }
    if forall r, s :: CanSay(a, name, r) && CanSay(a, name, s) ==> holds(r) == holds(s) {
      forall b, c | multiset(b) == multiset(a) && multiset(c) == multiset(a)
        ensures SameTrait(b, c, name, holds)
      {
        if KeptFor(b, name).Some? && KeptFor(c, name).Some? {
          assert SomeOrderKeeps(a, name, KeptFor(b, name).value.note.reason);
          assert SomeOrderKeeps(a, name, KeptFor(c, name).value.note.reason);
        }
      }
    }
  }

  /** So a trait that is fixed is the same for a snapshot and for any shuffling of it. */
  lemma ShuffledTrait(ch: Channel, requested: string, a: Snapshot, b: Snapshot, middle: seq<Entry>, name: string,
                      holds: string -> bool)
    requires Shuffled(a, b, middle) && TraitFixed(Observations(ch, requested, a), name, holds)
    ensures SameTrait(Observations(ch, requested, a), Observations(ch, requested, b), name, holds)
  {
    ShuffledObservations(ch, requested, a, b, middle);
    hide Observations, SameTrait;
  }

  /** Where everything with the best status gives the same reason, that reason is kept in every order. */
  lemma AgreeingTops(a: seq<Observation>, name: string, reason: string)
    requires reason != "" && KeptFor(a, name).Some? && forall o :: Top(a, name, o) ==> o.note.reason == reason
    ensures KeptFor(a, name).value.note.reason == reason
  {
    KeptCanBeSaid(a, name);
    KeptRank(a, name);
    hide KeptFor;
  }

  // ---------- the words on continuing responses ----------

  /** The first word given on a field, in the order of the observations. */
  function FirstWord(observations: seq<Observation>, name: string, field: Note -> string): string {
    if observations == [] then ""
    else
      var before, o := FirstWord(observations[..|observations| - 1], name, field), observations[|observations| - 1];
      if o.fullModel == name then Or(before, field(o.note)) else before
  }

  lemma {:induction false} ContinuationsAreFirst(observations: seq<Observation>, name: string)
    ensures var k := KeptFor(observations, name);
            && FirstWord(observations, name, (n: Note) => n.continuation) ==
               (if k.Some? then k.value.note.continuation else "")
            && FirstWord(observations, name, (n: Note) => n.continuationReason) ==
               (if k.Some? then k.value.note.continuationReason else "")
  {
    if observations != [] {
      ContinuationsAreFirst(observations[..|observations| - 1], name);
    }
  }

  /** A word that some order leaves: any that is given, or none where none is. */
  ghost predicate CanBeFirst(observations: seq<Observation>, name: string, field: Note -> string, word: string) {
    if word == "" then forall o :: o in observations && o.fullModel == name ==> field(o.note) == ""
    else exists o :: o in observations && o.fullModel == name && field(o.note) == word
  }

  lemma {:induction false} FirstIsGiven(observations: seq<Observation>, name: string, field: Note -> string)
    ensures CanBeFirst(observations, name, field, FirstWord(observations, name, field))
  {
    if observations != [] {
      var n := |observations| - 1;
      FirstIsGiven(observations[..n], name, field);
      assert observations == observations[..n] + [observations[n]];
      var word := FirstWord(observations[..n], name, field);
      if word != "" {
        var o :| o in observations[..n] && o.fullModel == name && field(o.note) == word;
        assert o in observations;
      }
    }
  }

  lemma {:induction false} FirstStays(front: seq<Observation>, rest: seq<Observation>, name: string,
                                      field: Note -> string)
    requires FirstWord(front, name, field) != ""
    ensures FirstWord(front + rest, name, field) == FirstWord(front, name, field)
  {
    if rest == [] {
      assert front + rest == front;
    } else {
      var n := |rest| - 1;
      FirstStays(front, rest[..n], name, field);
      assert (front + rest)[..|front| + n] == front + rest[..n];
    }
  }

  ghost predicate SomeOrderWords(a: seq<Observation>, name: string, field: Note -> string, word: string) {
    exists b :: multiset(b) == multiset(a) && FirstWord(b, name, field) == word
  }

  /** The words that some order of the observations leaves. */
  lemma WordsExactly(a: seq<Observation>, name: string, field: Note -> string, word: string)
    ensures SomeOrderWords(a, name, field, word) <==> CanBeFirst(a, name, field, word)
  {
    if SomeOrderWords(a, name, field, word) {
      var b :| multiset(b) == multiset(a) && FirstWord(b, name, field) == word;
      FirstIsGiven(b, name, field);
      SameElements(a, b);
    }
    if CanBeFirst(a, name, field, word) {
      FirstIsGiven(a, name, field);
      if word != "" {
        var o :| o in a && o.fullModel == name && field(o.note) == word;
        var rest := MovedFirst(a, o);
        assert FirstWord([o], name, field) == word by {
          assert [o][..0] == [];
        }
        FirstStays([o], rest, name, field);
      }
      assert SomeOrderWords(a, name, field, word);
    }
  }

  // ---------- the order of probes can matter ----------

  const ANY := Channel((p, u) => true, p => 0)

  function Said(reason: string): Probe {
    Probe("", "m", GREEN, GREEN, 0, false, 1, Note(reason, "", ""))
  }

  function Snap(first: string, second: string): Snapshot {
    Snapshot(1, [Entry("p", false, Summary(2, 2, 0, 0), 1, [Said(first), Said(second)])])
  }

  lemma SnapObservations(first: string, second: string) returns (o: Observation)
    ensures o.fullModel == "p/m"
    ensures Observations(ANY, "m", Snap(first, second)) ==
      [o.(note := Note(first, "", "")), o.(note := Note(second, "", ""))]
  {
    var s := Snap(first, second);
    var e := s.entries[0];
    o := Observe(ANY, "m", 1, e, Stability(e), Said(first)).value;
    assert "p" + "/" + "m" == "p/m";
    var p := Observe(ANY, "m", 1, e, Stability(e), Said(second)).value;
    assert o.(note := Note(first, "", "")) == o && o.(note := Note(second, "", "")) == p;
    hide Stability, StatusScore;
    assert e.probes[..1] == [Said(first)] && [Said(first)][..0] == [];
    assert ProbeObservations(ANY, "m", 1, e, [Said(first)]) == [o];
    assert ProbeObservations(ANY, "m", 1, e, e.probes) == [o, p];
    assert s.entries[..0] == [] && s.entries[0] == e;
    assert EntryObservations(ANY, "m", 1, []) == [];
    assert EntryObservations(ANY, "m", 1, s.entries) == [] + [o, p];
  }

  /** Two green probes of a model in the other order: the ranking is the same, the reason kept is not. */
  lemma OrderCanMatter()
    ensures var a, b := Snap("external_native_claude_ok", "ok"), Snap("ok", "external_native_claude_ok");
            && Shuffled(a, b, b.entries)
            && KeptFor(Observations(ANY, "m", a), "p/m") != KeptFor(Observations(ANY, "m", b), "p/m")
  {
    var x, y := "external_native_claude_ok", "ok";
    var o := SnapObservations(x, y);
    var p := SnapObservations(y, x);
    assert [Said(x)] + [Said(y)] == [Said(x), Said(y)] && [Said(y)] + [Said(x)] == [Said(y), Said(x)];
    TwoKept(o, x, y);
    TwoKept(p, y, x);
    assert |x| != |y|;
    hide Observations, KeptFor, Said;
  }

  lemma TwoKept(o: Observation, first: string, second: string)
    requires first != ""
    ensures KeptFor([o.(note := Note(first, "", "")), o.(note := Note(second, "", ""))], o.fullModel) ==
      Some(Kept(o.rank, Note(first, "", "")))
  {
    var a, b := o.(note := Note(first, "", "")), o.(note := Note(second, "", ""));
    assert [] + [a] == [a] && [a] + [b] == [a, b];
    KeptMore([], a, o.fullModel);
    KeptMore([a], b, o.fullModel);
  }
}
