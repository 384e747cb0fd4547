/**
 * What the merge leaves to be read, exactly: a value is lost only under a blank key of a sequence element that takes
 * over an old one.
 */
module YamlReads {
  import opened Wrappers
  import opened Text
  import opened YamlTree
  import opened YamlTheorems

  // ---------- one pair ----------

  lemma {:induction false} MergePairsEven(content: seq<Tree>, src: Tree, path: Path, n: nat)
    requires 2 * n <= |src.content| && |content| % 2 == 0
    ensures |MergePairs(content, src, path, n)| % 2 == 0
  {
    if n > 0 {
      MergePairsEven(content, src, path, n - 1);
    }
  }

  lemma StepLookup(before: seq<Tree>, k: Tree, merged: Tree, candidate: Option<Tree>, key: string)
    requires |before| % 2 == 0
    ensures var pair := FindPair(before, k.value, 0);
      var after := if pair >= 0 then before[2 * pair + 1 := merged] else if candidate.None?
        then before else before + [k, candidate.value];
      Lookup(after, key) ==
        if key != k.value then Lookup(before, key) else if Lookup(before, key).Some? then Some(merged) else candidate
  {
    var pair := FindPair(before, k.value, 0);
    if pair >= 0 {
      LookupUpdated(before, pair, merged, key);
    } else if candidate.Some? {
      LookupAppended(before, k, candidate.value, key);
    }
  }

  /** What the `n`-th pair of the source becomes when the old mapping lacks its key. */
  ghost function NewValue(child: Path, v: Tree): Option<Tree> {
    if IsKnownDefault(child, Prune(child, v)) then None else Some(Prune(child, v))
  }

  /** How one pair of the source changes what the merged mapping finds. */
  lemma MergePairLookup(before: seq<Tree>, src: Tree, path: Path, p: nat, key: string)
    requires 2 * p + 1 < |src.content| && |before| % 2 == 0
    ensures var k, v := KeyAt(src.content, p), src.content[2 * p + 1];
      Lookup(MergePair(before, src, path, p), key) ==
        if key != k then Lookup(before, key)
        else if Lookup(before, key).Some? then Some(MergeNode(Lookup(before, key).value, v, path + [k]))
        else NewValue(path + [k], v)
  {
    var k, v := src.content[2 * p], src.content[2 * p + 1];
    var found := Lookup(before, k.value);
    assert found.Some? <==> FindPair(before, k.value, 0) >= 0;
    assert found.Some? ==> found.value == before[2 * FindPair(before, k.value, 0) + 1];
    hide IsKnownDefault, Prune, MergeNode, Lookup, FindPair;
    StepLookup(before, k, if found.Some?
      then MergeNode(found.value, v, path + [k.value]) else v, NewValue(path + [k.value], v), key);
  }

  lemma FoundIsPaired(content: seq<Tree>, key: string)
    requires forall i :: 0 <= i < |content| ==> Paired(content[i])
    ensures Lookup(content, key).Some? ==> Paired(Lookup(content, key).value)
  {
  }

  /** What the merged pair reads, given what the old mapping had under its key. */
  lemma MergedPair(after: seq<Tree>, prior: Option<Tree>, src: Tree, path: Path, p: nat)
    requires 2 * p + 1 < |src.content|
    requires Reads(Prune(path + [KeyAt(src.content, p)], src.content[2 * p + 1]), src.content[2 * p + 1],
      path + [KeyAt(src.content, p)])
    requires Lookup(after, KeyAt(src.content, p)) ==
      if prior.Some? then Some(MergeNode(prior.value, src.content[2 * p + 1], path + [KeyAt(src.content, p)]))
      else NewValue(path + [KeyAt(src.content, p)], src.content[2 * p + 1])
    ensures ReadsPair(after, src, path, p) <==>
      (prior.Some? ==> Reads(MergeNode(prior.value, src.content[2 * p + 1], path + [KeyAt(src.content, p)]),
                             src.content[2 * p + 1], path + [KeyAt(src.content, p)]))
  {
    hide Lookup, Reads, MergeNode, Prune, IsKnownDefault;
  }

  // ---------- what is lost ----------

  /** No value worth writing is lost when `src` is merged into `dst`. */
  ghost predicate NothingLost(dst: Tree, src: Tree, path: Path)
    decreases src, 3
  {
    match src.kind
    case Scalar => true
    case Sequence => AllItemsSafe(if dst.kind == Sequence then dst.content else [], src, path)
    case Mapping => AllPairsSafe(if dst.kind == Mapping then dst.content else src.content, src, path)
  }

  ghost predicate AllPairsSafe(prior: seq<Tree>, src: Tree, path: Path)
    decreases src, 2
  {
    forall p :: 0 <= p < |src.content| / 2 ==> PairSafe(prior, src, path, p)
  }

  ghost predicate AllItemsSafe(prior: seq<Tree>, src: Tree, path: Path)
    decreases src, 2
  {
    forall i :: 0 <= i < |src.content| ==> ItemSafe(prior, src, path, i)
  }

  /** The same for one pair of a mapping. */
  ghost predicate PairSafe(prior: seq<Tree>, src: Tree, path: Path, p: nat)
    requires 2 * p + 1 < |src.content|
    decreases src, 1
  {
    var k := KeyAt(src.content, p);
    Lookup(prior, k).Some? ==> NothingLost(Lookup(prior, k).value, src.content[2 * p + 1], path + [k])
  }

  /** The same for one element of a sequence, if it takes over an old one. */
  ghost predicate ItemSafe(prior: seq<Tree>, src: Tree, path: Path, i: nat)
    requires i < |src.content|
    decreases src, 1
  {
    prior != [] && Matches(prior, src.content)[i] >= 0 ==>
      ElementSafe(prior[Matches(prior, src.content)[i]], src.content[i], path)
  }

  /** In an element that takes over an old one, blank keys hold only values that need not be written. */
  ghost predicate ElementSafe(prior: Tree, item: Tree, path: Path)
    decreases item, 4
  {
    if item.kind != Mapping then NothingLost(prior, item, path)
    else forall p :: 0 <= p < |item.content| / 2 ==> KeySafe(prior, item, path, p)
  }

  ghost predicate KeySafe(prior: Tree, item: Tree, path: Path, p: nat)
    requires 2 * p + 1 < |item.content|
    decreases item, 2
  {
    var k := KeyAt(item.content, p);
    if TrimSpace(k) == "" then Omittable(path + [k], item.content[2 * p + 1])
    else PairSafe(if prior.kind == Mapping then prior.content else item.content, item, path, p)
  }

  // ---------- the exact theorem ----------

  /** Every path of the source reads the same in the merged tree if and only if no value worth writing is lost. */
  lemma {:induction false} MergeReadsExactly(dst: Tree, src: Tree, path: Path)
    requires Paired(dst) && Keyed(src)
    ensures Reads(MergeNode(dst, src, path), src, path) <==> NothingLost(dst, src, path)
    decreases src, 2, 0
  {
    match src.kind
    case Scalar =>
    case Sequence =>
      if !(ExplicitNull(dst) && src.content == []) {
        var prior := if dst.kind == Sequence then dst.content else [];
        MergeItemsExactly(prior, src, path);
        SequenceReads(dst, src, path, prior);
      }
    case Mapping =>
      KeyedIsPaired(src);
      var prior := if dst.kind == Mapping then dst.content else src.content;
      MergePairsExactly(prior, src, path, |src.content| / 2);
      MappingReads(dst, src, path, prior);
  }

  lemma MergedSequence(dst: Tree, src: Tree, path: Path)
    requires src.kind == Sequence && !(ExplicitNull(dst) && src.content == [])
    ensures var r := MergeNode(dst, src, path);
      r.kind == Sequence && r.content == MergeItems(if dst.kind == Sequence then dst.content else [], src, path)
  {
    hide MergeItems;
  }

  lemma MergedMapping(dst: Tree, src: Tree, path: Path)
    requires src.kind == Mapping
    ensures var r := MergeNode(dst, src, path);
      && r.kind == Mapping
      && r.content == MergePairs(if dst.kind == Mapping then dst.content else src.content, src, path, |src.content| / 2)
  {
    assert MergeNode(dst, src, path) == MergeMapping(if dst.kind == Mapping then dst else src, src, path);
    hide MergePairs, MergeNode;
  }

  lemma SequenceReads(dst: Tree, src: Tree, path: Path, prior: seq<Tree>)
    requires src.kind == Sequence && !(ExplicitNull(dst) && src.content == [])
    requires prior == if dst.kind == Sequence then dst.content else []
    requires |MergeItems(prior, src, path)| == |src.content|
    requires forall i :: 0 <= i < |src.content| ==>
      (Reads(MergeItems(prior, src, path)[i], src.content[i], path) <==> ItemSafe(prior, src, path, i))
    ensures Reads(MergeNode(dst, src, path), src, path) <==> NothingLost(dst, src, path)
  {
    MergedSequence(dst, src, path);
    SequenceMeans(MergeNode(dst, src, path), src, path);
    AllItemsMean(prior, src, path);
    NothingLostInSequence(dst, src, path, prior);
    hide *;
  }

  lemma NothingLostInSequence(dst: Tree, src: Tree, path: Path, prior: seq<Tree>)
    requires src.kind == Sequence && prior == if dst.kind == Sequence then dst.content else []
    ensures NothingLost(dst, src, path) <==> AllItemsSafe(prior, src, path)
  {
    hide AllItemsSafe;
  }

  lemma AllItemsMean(prior: seq<Tree>, src: Tree, path: Path)
    ensures AllItemsSafe(prior, src, path) <==> forall i :: 0 <= i < |src.content| ==> ItemSafe(prior, src, path, i)
  {
    hide Matches;
    if i :| 0 <= i < |src.content| && !ItemSafe(prior, src, path, i) {
      assert !ItemSafe(prior, src, path, i);
    } else {
      assert AllItemsSafe(prior, src, path);
    }
  }

  lemma SequenceMeans(r: Tree, src: Tree, path: Path)
    requires src.kind == Sequence && r.kind == Sequence && |r.content| == |src.content|
    ensures Reads(r, src, path) <==> forall i :: 0 <= i < |src.content| ==> Reads(r.content[i], src.content[i], path)
  {
  }

  lemma MappingReads(dst: Tree, src: Tree, path: Path, prior: seq<Tree>)
    requires src.kind == Mapping && prior == if dst.kind == Mapping then dst.content else src.content
    requires forall p :: 0 <= p < |src.content| / 2 ==>
      (ReadsPair(MergePairs(prior, src, path, |src.content| / 2), src, path, p) <==> PairSafe(prior, src, path, p))
    ensures Reads(MergeNode(dst, src, path), src, path) <==> NothingLost(dst, src, path)
  {
    MergedMapping(dst, src, path);
    MappingMeans(MergeNode(dst, src, path), src, path);
    AllPairsMean(prior, src, path);
    NothingLostInMapping(dst, src, path, prior);
    hide *;
  }

  lemma NothingLostInMapping(dst: Tree, src: Tree, path: Path, prior: seq<Tree>)
    requires src.kind == Mapping && prior == if dst.kind == Mapping then dst.content else src.content
    ensures NothingLost(dst, src, path) <==> AllPairsSafe(prior, src, path)
  {
    hide AllPairsSafe;
  }

  lemma AllPairsMean(prior: seq<Tree>, src: Tree, path: Path)
    ensures AllPairsSafe(prior, src, path) <==> forall p :: 0 <= p < |src.content| / 2 ==> PairSafe(prior, src, path, p)
  {
    hide Lookup;
    if p :| 0 <= p < |src.content| / 2 && !PairSafe(prior, src, path, p) {
      assert !PairSafe(prior, src, path, p);
    } else {
      assert AllPairsSafe(prior, src, path);
    }
  }

  lemma MappingMeans(r: Tree, src: Tree, path: Path)
    requires src.kind == Mapping && r.kind == Mapping
    ensures Reads(r, src, path) <==> forall p :: 0 <= p < |src.content| / 2 ==> ReadsPair(r.content, src, path, p)
  {
    hide Lookup, Omittable;
    if p :| 0 <= p < |src.content| / 2 && !ReadsPair(r.content, src, path, p) {
      assert !ReadsPair(r.content, src, path, p);
    } else {
      assert Reads(r, src, path);
    }
  }

  lemma {:induction false} MergeItemsExactly(prior: seq<Tree>, src: Tree, path: Path)
    requires src.kind == Sequence && Keyed(src) && forall i :: 0 <= i < |prior| ==> Paired(prior[i])
    ensures |MergeItems(prior, src, path)| == |src.content|
    ensures forall i :: 0 <= i < |src.content| ==>
      (Reads(MergeItems(prior, src, path)[i], src.content[i], path) <==> ItemSafe(prior, src, path, i))
    decreases src, 1, 0
  {
    forall i | 0 <= i < |src.content|
      ensures Reads(MergeItems(prior, src, path)[i], src.content[i], path) <==> ItemSafe(prior, src, path, i)
    {
      if prior == [] || Matches(prior, src.content)[i] < 0 {
        ReadsItself(src.content[i], path);
      } else {
        MergeItemExactly(prior[Matches(prior, src.content)[i]], src.content[i], path);
      }
    }
  }

  /** An element that takes over an old one reads the same if and only if nothing in it is lost. */
  lemma {:induction false} MergeItemExactly(prior: Tree, item: Tree, path: Path)
    requires Paired(prior) && Keyed(item)
    ensures Reads(MergeItem(prior, item, path), item, path) <==> ElementSafe(prior, item, path)
    decreases item, 3, 0
  {
    if item.kind != Mapping {
      MergeReadsExactly(prior, item, path);
    } else {
      KeyedIsPaired(item);
      var content := if prior.kind == Mapping then prior.content else item.content;
      MergePairsExactly(content, item, path, |item.content| / 2);
      MergePairsEven(content, item, path, |item.content| / 2);
      var merged := MergePairs(content, item, path, |item.content| / 2);
      MergedItem(prior, item, path, content);
      forall p | 0 <= p < |item.content| / 2
        ensures ReadsPair(KeepKeys(merged, ListedKeys(item.content)), item, path, p) <==> KeySafe(prior, item, path, p)
      {
        KeptPair(merged, prior, item, path, p, content);
      }
      hide MergePairs, MergeItem, KeepKeys, KeySafe, ReadsPair;
    }
  }

  lemma MergedItem(prior: Tree, item: Tree, path: Path, content: seq<Tree>)
    requires item.kind == Mapping && content == if prior.kind == Mapping then prior.content else item.content
    ensures var r := MergeItem(prior, item, path);
      r.kind == Mapping
        && r.content == KeepKeys(MergePairs(content, item, path, |item.content| / 2), ListedKeys(item.content))
  {
    MergedMapping(prior, item, path);
    hide KeepKeys, ListedKeys, MergePairs, MergeNode;
  }

  /** Cutting to the listed keys keeps what a pair with a key reads, and takes what a blank key held. */
  lemma KeptPair(merged: seq<Tree>, prior: Tree, item: Tree, path: Path, p: nat, content: seq<Tree>)
    requires 2 * p + 1 < |item.content| && |merged| % 2 == 0
    requires content == if prior.kind == Mapping then prior.content else item.content
    requires ReadsPair(merged, item, path, p) <==> PairSafe(content, item, path, p)
    ensures ReadsPair(KeepKeys(merged, ListedKeys(item.content)), item, path, p) <==> KeySafe(prior, item, path, p)
  {
    var k, keep := KeyAt(item.content, p), ListedKeys(item.content);
    assert p < |item.content| / 2;
    if TrimSpace(k) == "" {
      NoBlankKeyKept(merged, keep, k);
    } else {
      assert TrimSpace(k) in keep;
      KeptKeysLookup(merged, keep, k);
    }
    hide Lookup, Omittable, PairSafe, TrimSpace, ListedKeys, KeepKeys, Reads;
  }

  lemma {:induction false} MergePairsExactly(content: seq<Tree>, src: Tree, path: Path, n: nat)
    requires src.kind == Mapping && Keyed(src) && 2 * n <= |src.content|
    requires |content| % 2 == 0 && forall i :: 0 <= i < |content| ==> Paired(content[i])
    ensures forall p :: 0 <= p < n ==>
      (ReadsPair(MergePairs(content, src, path, n), src, path, p) <==> PairSafe(content, src, path, p))
    ensures forall p :: n <= p < |src.content| / 2 ==>
      Lookup(MergePairs(content, src, path, n), KeyAt(src.content, p)) == Lookup(content, KeyAt(src.content, p))
    decreases src, 0, n
  {
    hide *;
    if n == 0 {
      MergePairsNone(content, src, path);
    } else {
      MergePairsExactly(content, src, path, n - 1);
      MergePairsEven(content, src, path, n - 1);
      MergePairsStep(content, src, path, n);
      KeyedPair(src, n - 1);
      var before := MergePairs(content, src, path, n - 1);
      var k, v := KeyAt(src.content, n - 1), src.content[2 * n - 1];
      FoundIsPaired(content, k);
      PairSafeMeans(content, src, path, n - 1);
      if Lookup(content, k).Some? {
        MergeReadsExactly(Lookup(content, k).value, v, path + [k]);
      }
      PruneReads(path + [k], v);
      MergePairExactly(before, src, path, n - 1);
    }
  }

  lemma PairSafeMeans(prior: seq<Tree>, src: Tree, path: Path, p: nat)
    requires 2 * p + 1 < |src.content|
    ensures var k := KeyAt(src.content, p);
      PairSafe(prior, src, path, p) <==>
        (Lookup(prior, k).Some? ==> NothingLost(Lookup(prior, k).value, src.content[2 * p + 1], path + [k]))
  {
    hide NothingLost, Lookup;
  }

  /** One more pair leaves the reading of the others alone. */
  lemma MergePairExactly(before: seq<Tree>, src: Tree, path: Path, p: nat)
    requires 2 * p + 1 < |src.content| && |before| % 2 == 0 && DistinctKeys(src.content)
    requires Reads(Prune(path + [KeyAt(src.content, p)], src.content[2 * p + 1]), src.content[2 * p + 1],
      path + [KeyAt(src.content, p)])
    ensures var k, v := KeyAt(src.content, p), src.content[2 * p + 1];
      ReadsPair(MergePair(before, src, path, p), src, path, p) <==>
        (Lookup(before, k).Some? ==> Reads(MergeNode(Lookup(before, k).value, v, path + [k]), v, path + [k]))
    ensures forall q :: 0 <= q < p ==>
      (ReadsPair(MergePair(before, src, path, p), src, path, q) <==> ReadsPair(before, src, path, q))
    ensures forall q :: 0 <= q < |src.content| / 2 && q != p ==>
      Lookup(MergePair(before, src, path, p), KeyAt(src.content, q)) == Lookup(before, KeyAt(src.content, q))
  {
    hide *;
    var k := KeyAt(src.content, p);
    var after := MergePair(before, src, path, p);
    MergePairLookup(before, src, path, p, k);
    MergedPair(after, Lookup(before, k), src, path, p);
    forall q | 0 <= q < |src.content| / 2 && q != p
      ensures Lookup(after, KeyAt(src.content, q)) == Lookup(before, KeyAt(src.content, q))
      ensures ReadsPair(after, src, path, q) <==> ReadsPair(before, src, path, q)
    {
      KeysDiffer(src.content, q, p);
      MergePairLookup(before, src, path, p, KeyAt(src.content, q));
      if ReadsPair(before, src, path, q) {
        SamePair(before, after, src, path, q);
      }
      if ReadsPair(after, src, path, q) {
        SamePair(after, before, src, path, q);
      }
    }
  }

  lemma MergePairsNone(content: seq<Tree>, src: Tree, path: Path)
    ensures MergePairs(content, src, path, 0) == content
  {
  }

  lemma MergePairsStep(content: seq<Tree>, src: Tree, path: Path, n: nat)
    requires 0 < n && 2 * n <= |src.content|
    ensures MergePairs(content, src, path, n) == MergePair(MergePairs(content, src, path, n - 1), src, path, n - 1)
  {
  }

  // ---------- trees without blank keys lose nothing ----------

  lemma {:induction false} ProperLosesNothing(dst: Tree, src: Tree, path: Path)
    requires Proper(src)
    ensures NothingLost(dst, src, path)
    decreases src, 3
  {
    hide *;
    match src.kind
    case Scalar => NothingLostInScalar(dst, src, path);
    case Sequence =>
      var prior := if dst.kind == Sequence then dst.content else [];
      ProperItemsSafe(prior, src, path);
      NothingLostInSequence(dst, src, path, prior);
    case Mapping =>
      var prior := if dst.kind == Mapping then dst.content else src.content;
      ProperPairsSafe(prior, src, path);
      NothingLostInMapping(dst, src, path, prior);
  }

  lemma NothingLostInScalar(dst: Tree, src: Tree, path: Path)
    requires src.kind == Scalar
    ensures NothingLost(dst, src, path)
  {
  }

  lemma {:induction false} ProperItemsSafe(prior: seq<Tree>, src: Tree, path: Path)
    requires Proper(src) && src.kind == Sequence
    ensures AllItemsSafe(prior, src, path)
    decreases src, 2
  {
    forall i | 0 <= i < |src.content|
      ensures ItemSafe(prior, src, path, i)
    {
      if prior != [] && Matches(prior, src.content)[i] >= 0 {
        ProperElementSafe(prior[Matches(prior, src.content)[i]], src.content[i], path);
      }
    }
    AllItemsMean(prior, src, path);
  }

  lemma {:induction false} ProperPairsSafe(prior: seq<Tree>, src: Tree, path: Path)
    requires Proper(src) && src.kind == Mapping
    ensures AllPairsSafe(prior, src, path)
    decreases src, 2
  {
    forall p | 0 <= p < |src.content| / 2
      ensures PairSafe(prior, src, path, p)
    {
      ProperPairSafe(prior, src, path, p);
    }
    AllPairsMean(prior, src, path);
    hide *;
  }

  lemma {:induction false} ProperPairSafe(prior: seq<Tree>, src: Tree, path: Path, p: nat)
    requires Proper(src) && src.kind == Mapping && 2 * p + 1 < |src.content|
    ensures PairSafe(prior, src, path, p)
    decreases src, 1
  {
    var k := KeyAt(src.content, p);
    if Lookup(prior, k).Some? {
      ProperLosesNothing(Lookup(prior, k).value, src.content[2 * p + 1], path + [k]);
    }
    hide NothingLost;
  }

  lemma {:induction false} ProperElementSafe(prior: Tree, item: Tree, path: Path)
    requires Proper(item)
    ensures ElementSafe(prior, item, path)
    decreases item, 4
  {
    if item.kind != Mapping {
      ProperLosesNothing(prior, item, path);
    } else {
      var content := if prior.kind == Mapping then prior.content else item.content;
      forall p | 0 <= p < |item.content| / 2
        ensures KeySafe(prior, item, path, p)
      {
        ProperPairSafe(content, item, path, p);
        hide PairSafe;
      }
      hide KeySafe, Proper;
    }
  }

  /** Merging a generated tree without blank keys loses nothing. */
  lemma MergeReads(dst: Tree, src: Tree, path: Path)
    requires Paired(dst) && Proper(src)
    ensures Reads(MergeNode(dst, src, path), src, path)
  {
    ProperIsKeyed(src);
    ProperLosesNothing(dst, src, path);
    hide Reads, MergeNode, NothingLost;
    MergeReadsExactly(dst, src, path);
  }

  lemma MergeItemReads(prior: Tree, item: Tree, path: Path)
    requires Paired(prior) && Proper(item)
    ensures Reads(MergeItem(prior, item, path), item, path)
  {
    ProperIsKeyed(item);
    ProperElementSafe(prior, item, path);
    hide Reads, MergeItem, ElementSafe;
    MergeItemExactly(prior, item, path);
  }
}
