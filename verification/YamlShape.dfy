/**
 * What the merge keeps of the existing file: keys and their order, values nobody generated, the
 * identity of sequence elements, collection tags.
 */
module YamlShape {
  import opened Wrappers
  import opened Text
  import opened YamlTree
  import opened YamlReads
  import opened YamlTheorems

  function Keys(content: seq<Tree>): (r: seq<string>)
    ensures |r| == |content| / 2
    ensures forall p :: 0 <= p < |r| ==> r[p] == KeyAt(content, p)
  {
    seq(|content| / 2, p requires 0 <= p < |content| / 2 => KeyAt(content, p))
  }

  /** The generated keys, in their order, that the old mapping lacks and that are worth writing. */
  ghost function AddedKeys(content: seq<Tree>, src: Tree, path: Path, n: nat): seq<string>
    requires 2 * n <= |src.content|
  {
    if n == 0 then []
    else
      var k := KeyAt(src.content, n - 1);
      AddedKeys(content, src, path, n - 1) +
      if Lookup(content, k).None? && NewValue(path + [k], src.content[2 * n - 1]).Some? then [k] else []
  }

  lemma KeysOfStep(before: seq<Tree>, src: Tree, path: Path, p: nat)
    requires 2 * p + 1 < |src.content| && |before| % 2 == 0
    ensures var k := KeyAt(src.content, p);
      Keys(MergePair(before, src, path, p)) ==
      Keys(before) + if Lookup(before, k).None? && NewValue(path + [k], src.content[2 * p + 1]).Some? then [k] else []
  {
    hide IsKnownDefault, Prune, MergeNode;
    var k, v := src.content[2 * p], src.content[2 * p + 1];
    var after := MergePair(before, src, path, p);
    var pair := FindPair(before, k.value, 0);
    if pair >= 0 {
      assert forall q :: 0 <= q < |before| / 2 ==> KeyAt(after, q) == KeyAt(before, q);
    } else if NewValue(path + [k.value], v).Some? {
      assert after == before + [k, Prune(path + [k.value], v)];
      assert forall q :: 0 <= q < |before| / 2 ==> KeyAt(after, q) == KeyAt(before, q);
      assert KeyAt(after, |before| / 2) == k.value;
    }
  }

  /** Pairs of the source merged so far leave the lookups of its other keys alone. */
  lemma {:induction false} LaterKeysUntouched(content: seq<Tree>, src: Tree, path: Path, n: nat, p: nat)
    requires |content| % 2 == 0 && 2 * n <= |src.content| && DistinctKeys(src.content) && n <= p < |src.content| / 2
    ensures Lookup(MergePairs(content, src, path, n), KeyAt(src.content, p)) == Lookup(content, KeyAt(src.content, p))
  {
    if n > 0 {
      LaterKeysUntouched(content, src, path, n - 1, p);
      MergePairsEven(content, src, path, n - 1);
      var before := MergePairs(content, src, path, n - 1);
      assert MergePairs(content, src, path, n) == MergePair(before, src, path, n - 1);
      hide *;
      KeysDiffer(src.content, p, n - 1);
      MergePairLookup(before, src, path, n - 1, KeyAt(src.content, p));
    }
  }

  /** Old keys stay as an in-order prefix; new keys follow in the order of the source. */
  lemma {:induction false} MergeKeepsKeyOrder(content: seq<Tree>, src: Tree, path: Path, n: nat)
    requires |content| % 2 == 0 && 2 * n <= |src.content| && DistinctKeys(src.content)
    ensures Keys(MergePairs(content, src, path, n)) == Keys(content) + AddedKeys(content, src, path, n)
  {
    hide Keys, MergePair, MergePairs, Lookup, NewValue, FindPair, DistinctKeys;
    if n == 0 {
      MergePairsNone(content, src, path);
    } else {
      MergeKeepsKeyOrder(content, src, path, n - 1);
      MergePairsEven(content, src, path, n - 1);
      LaterKeysUntouched(content, src, path, n - 1, n - 1);
      MergePairsStep(content, src, path, n);
      KeysOfStep(MergePairs(content, src, path, n - 1), src, path, n - 1);
    }
  }

  /** What a merged mapping finds under any key, whether generated, written before, or both. */
  lemma {:induction false} MergeFinds(content: seq<Tree>, src: Tree, path: Path, n: nat, key: string)
    requires |content| % 2 == 0 && |src.content| % 2 == 0 && 2 * n <= |src.content| && DistinctKeys(src.content)
    ensures (forall p :: 0 <= p < n ==> KeyAt(src.content, p) != key) ==>
      Lookup(MergePairs(content, src, path, n), key) == Lookup(content, key)
    ensures forall p :: 0 <= p < n && KeyAt(src.content, p) == key ==>
      Lookup(MergePairs(content, src, path, n), key) ==
        if Lookup(content, key).Some?
          then Some(MergeNode(Lookup(content, key).value, src.content[2 * p + 1], path + [key]))
        else NewValue(path + [key], src.content[2 * p + 1])
  {
    hide *;
    if n == 0 {
      MergePairsNone(content, src, path);
    } else {
      MergeFinds(content, src, path, n - 1, key);
      MergePairsEven(content, src, path, n - 1);
      MergePairsStep(content, src, path, n);
      MergePairLookup(MergePairs(content, src, path, n - 1), src, path, n - 1, key);
      forall p | 0 <= p < n - 1
        ensures KeyAt(src.content, p) != KeyAt(src.content, n - 1)
      {
        KeysDiffer(src.content, p, n - 1);
      }
    }
  }

  // ---------- sequence elements ----------

  ghost predicate Once(matches: seq<int>) {
    forall i, j :: 0 <= i < j < |matches| && matches[i] >= 0 ==> matches[i] != matches[j]
  }

  lemma OnceExtended(before: seq<int>, last: int)
    requires Once(before) && (last >= 0 ==> last !in before)
    ensures Once(before + [last])
  {
    assert forall i :: 0 <= i < |before| ==> before[i] in before;
  }

  /** No old element is taken over twice. */
  lemma {:induction false} MatchesOnce(original: seq<Tree>, targets: seq<Tree>)
    ensures Once(Matches(original, targets))
  {
    hide Once, Match;
    if targets == [] {
      assert Once([]) by {
        NoMatchesOnce();
      }
    } else {
      MatchesOnce(original, targets[..|targets| - 1]);
      var before := Matches(original, targets[..|targets| - 1]);
      OnceExtended(before, Match(original, Taken(before), targets[|targets| - 1]));
    }
  }

  lemma NoMatchesOnce()
    ensures Once([])
  {
  }

  /** Each matched element has the target's identity, or is structurally equal to it. */
  lemma {:induction false} MatchesFit(original: seq<Tree>, targets: seq<Tree>)
    ensures var r := Matches(original, targets);
      forall i :: 0 <= i < |r| && r[i] >= 0 ==>
        SameIdentity(original[r[i]], targets[i]) || StructurallyEqual(original[r[i]], targets[i])
  {
    if targets != [] {
      hide SameIdentity, StructurallyEqual;
      MatchesFit(original, targets[..|targets| - 1]);
    }
  }

  // ---------- tags of collections ----------

  /** Collections carry the tag of their kind. */
  ghost predicate StandardTags(t: Tree)
    decreases t
  {
    t.kind != Scalar ==>
      && t.tag == (if t.kind == Mapping then "!!map" else "!!seq")
      && forall i :: 0 <= i < |t.content| ==> StandardTags(t.content[i])
  }

  lemma {:induction false} PruneTags(path: Path, t: Tree)
    requires StandardTags(t)
    ensures StandardTags(Prune(path, t))
    decreases t, 1, 0
  {
    match t.kind
    case Scalar =>
    case Sequence =>
      forall i | 0 <= i < |t.content|
        ensures StandardTags(Prune(path, t.content[i]))
      {
        PruneTags(path, t.content[i]);
      }
    case Mapping => PrunePairsTags(path, t, |t.content| / 2);
  }

  lemma {:induction false} PrunePairsTags(path: Path, t: Tree, n: nat)
    requires StandardTags(t) && t.kind == Mapping && 2 * n <= |t.content|
    ensures forall x :: x in PrunePairs(path, t, n) ==> StandardTags(x)
    decreases t, 0, n
  {
    if n > 0 {
      PrunePairsTags(path, t, n - 1);
      PruneTags(path + [t.content[2 * n - 2].value], t.content[2 * n - 1]);
    }
  }

  lemma {:induction false} KeptTags(content: seq<Tree>, keep: set<string>)
    requires forall x :: x in content ==> StandardTags(x)
    ensures forall x :: x in KeepKeys(content, keep) ==> StandardTags(x)
  {
    if |content| >= 2 {
      hide StandardTags;
      KeptTags(content[2..], keep);
    }
  }

  /** Merging standardly tagged trees yields one. */
  lemma {:induction false} MergeTags(dst: Tree, src: Tree, path: Path)
    requires StandardTags(dst) && StandardTags(src)
    ensures StandardTags(MergeNode(dst, src, path))
    decreases src, 2, 0
  {
    match src.kind
    case Scalar =>
    case Sequence => MergeItemsTags(if dst.kind == Sequence then dst.content else [], src, path);
    case Mapping => MergePairsTags(if dst.kind == Mapping
      then dst.content else src.content, src, path, |src.content| / 2);
  }

  lemma {:induction false} MergeItemsTags(prior: seq<Tree>, src: Tree, path: Path)
    requires src.kind == Sequence && StandardTags(src) && forall i :: 0 <= i < |prior| ==> StandardTags(prior[i])
    ensures forall x :: x in MergeItems(prior, src, path) ==> StandardTags(x)
    decreases src, 1, 0
  {
    var matches := Matches(prior, src.content);
    forall i | 0 <= i < |src.content| && prior != [] && matches[i] >= 0
      ensures StandardTags(MergeItem(prior[matches[i]], src.content[i], path))
    {
      MergeTags(prior[matches[i]], src.content[i], path);
      var merged := MergeNode(prior[matches[i]], src.content[i], path);
      if merged.kind == Mapping {
        KeptTags(merged.content, ListedKeys(src.content[i].content));
      }
    }
  }

  lemma {:induction false} MergePairsTags(content: seq<Tree>, src: Tree, path: Path, n: nat)
    requires src.kind == Mapping && StandardTags(src) && 2 * n <= |src.content|
    requires forall x :: x in content ==> StandardTags(x)
    ensures forall x :: x in MergePairs(content, src, path, n) ==> StandardTags(x)
    decreases src, 0, n
  {
    if n > 0 {
      MergePairsTags(content, src, path, n - 1);
      var before := MergePairs(content, src, path, n - 1);
      var k, v := src.content[2 * n - 2], src.content[2 * n - 1];
      var child := path + [k.value];
      var pair := FindPair(before, k.value, 0);
      if pair >= 0 {
        assert before[2 * pair + 1] in before;
        MergeTags(before[2 * pair + 1], v, child);
      } else {
        PruneTags(child, v);
      }
    }
  }

  /** Every path of `src` found in `dst` carries the same tag there, an explicit null standing for an empty sequence. */
  ghost predicate SameTags(dst: Tree, src: Tree)
    decreases src, 1
  {
    match src.kind
    case Scalar => dst.tag == src.tag
    case Sequence =>
      || (src.content == [] && ExplicitNull(dst))
      || (dst.kind == Sequence && dst.tag == src.tag && |dst.content| == |src.content|
          && forall i :: 0 <= i < |src.content| ==> SameTags(dst.content[i], src.content[i]))
    case Mapping =>
      && dst.kind == Mapping && dst.tag == src.tag
      && forall p :: 0 <= p < |src.content| / 2 ==> PairTags(dst.content, src, p)
  }

  ghost predicate PairTags(content: seq<Tree>, src: Tree, p: nat)
    requires 2 * p + 1 < |src.content|
    decreases src, 0
  {
    var found := Lookup(content, KeyAt(src.content, p));
    found.Some? ==> SameTags(found.value, src.content[2 * p + 1])
  }

  /** Standardly tagged nodes that read the same carry the same tags. */
  lemma {:induction false} ReadsSameTags(dst: Tree, src: Tree, path: Path)
    requires Reads(dst, src, path) && StandardTags(dst) && StandardTags(src)
    ensures SameTags(dst, src)
    decreases src
  {
    match src.kind
    case Scalar =>
    case Sequence =>
      if !(src.content == [] && ExplicitNull(dst)) {
        forall i | 0 <= i < |src.content|
          ensures SameTags(dst.content[i], src.content[i])
        {
          ReadsSameTags(dst.content[i], src.content[i], path);
        }
      }
    case Mapping =>
      forall p | 0 <= p < |src.content| / 2
        ensures PairTags(dst.content, src, p)
      {
        var found := Lookup(dst.content, KeyAt(src.content, p));
        assert ReadsPair(dst.content, src, path, p);
        if found.Some? {
          ReadsSameTags(found.value, src.content[2 * p + 1], path + [KeyAt(src.content, p)]);
        }
      }
  }

  /** Nothing generated is lost, kinds, values and tags included, unless a taken-over element has a blank key. */
  lemma MergeReadsWithTags(dst: Tree, src: Tree, path: Path)
    requires Paired(dst) && Keyed(src) && StandardTags(dst) && StandardTags(src)
    ensures var r := MergeNode(dst, src, path);
      (Reads(r, src, path) && SameTags(r, src)) <==> NothingLost(dst, src, path)
  {
    hide *;
    MergeReadsExactly(dst, src, path);
    MergeTags(dst, src, path);
    if Reads(MergeNode(dst, src, path), src, path) {
      ReadsSameTags(MergeNode(dst, src, path), src, path);
    }
  }

  // ---------- why keys of the generated tree must not be blank ----------

  /** A generated value under a blank key, in an element that takes over an old one, is always lost. */
  lemma BlankKeyIsLost(prior: Tree, item: Tree, path: Path, p: nat)
    requires Paired(prior) && item.kind == Mapping && |item.content| % 2 == 0 && p < |item.content| / 2
    requires TrimSpace(KeyAt(item.content, p)) == ""
    requires !Omittable(path + [KeyAt(item.content, p)], item.content[2 * p + 1])
    ensures !Reads(MergeItem(prior, item, path), item, path)
  {
    var merged := MergeNode(prior, item, path);
    var prior0 := if prior.kind == Mapping then prior.content else item.content;
    assert merged == MergeMapping(if prior.kind == Mapping then prior else item, item, path);
    assert merged.content == MergePairs(prior0, item, path, |item.content| / 2);
    MergePairsEven(prior0, item, path, |item.content| / 2);
    var result := MergeItem(prior, item, path);
    assert result.content == KeepKeys(merged.content, ListedKeys(item.content));
    NoBlankKeyKept(merged.content, ListedKeys(item.content), KeyAt(item.content, p));
    hide Lookup, Omittable, KeepKeys, ListedKeys, MergeMapping, MergeItem, MergeNode;
    assert !ReadsPair(result.content, item, path, p);
  }

  lemma {:induction false} EqualToItself(t: Tree)
    ensures StructurallyEqual(t, t)
    decreases t
  {
    if t.kind != Scalar {
      forall i | 0 <= i < |t.content|
        ensures StructurallyEqual(t.content[i], t.content[i])
      {
        EqualToItself(t.content[i]);
      }
    }
  }

  /** Not even merging a list into itself keeps such a value. */
  lemma BlankKeyIsLostFromItself()
    ensures var item := Tree(Mapping, "!!map", "", [Tree(Scalar, "!!str", "", []), Tree(Scalar, "!!str", "x", [])]);
            var list := Tree(Sequence, "!!seq", "", [item]);
            Paired(list) && DistinctKeys(item.content) && !Reads(MergeNode(list, list, []), list, [])
  {
    var item := Tree(Mapping, "!!map", "", [Tree(Scalar, "!!str", "", []), Tree(Scalar, "!!str", "x", [])]);
    var list := Tree(Sequence, "!!seq", "", [item]);
    assert Paired(item) && KeyAt(item.content, 0) == "" && Dotted([""]) == "";
    assert !Omittable([""], item.content[1]);
    assert Paired(list);
    MergedIntoItself(list, item);
    assert TrimSpace("") == "";
    assert [] + [""] == [""];
    hide *;
    BlankKeyIsLost(item, item, [], 0);
    if Reads(MergeNode(list, list, []), list, []) {
      ReadsFirstItem(MergeNode(list, list, []), list, []);
    }
  }

  lemma MergedIntoItself(list: Tree, item: Tree)
    requires list == Tree(Sequence, "!!seq", "", [item])
    ensures var r := MergeNode(list, list, []); r.kind == Sequence && r.content == [MergeItem(item, item, [])]
  {
    EqualToItself(item);
    assert Matches([item], [item]) == [0] by {
      assert [item][..0] == [];
      hide SameIdentity, StructurallyEqual;
    }
    hide MergeItem, Matches;
  }

  lemma ReadsFirstItem(dst: Tree, src: Tree, path: Path)
    requires src.kind == Sequence && |src.content| == 1 && dst.kind == Sequence && |dst.content| == 1
    requires Reads(dst, src, path)
    ensures Reads(dst.content[0], src.content[0], path)
  {
  }
}
