/**
 * The comment-preserving merge on nodes updated in place (internal/config/config.go), proved to
 * compute the merged tree, to write no source node and to share none with it.
 */
module YamlMerge {
  import opened Text
  import opened YamlReads
  import opened YamlTree
  import opened YamlNode
  import opened YamlShape

  // ---------- pruning a new node ----------

  method PruneKnownDefaultsInNewNode(path: Path, node: Node)
    requires node.Valid()
    modifies node.repr
    ensures node.Valid() && node.repr == old(node.repr)
    ensures node.tree == Prune(path, old(node.tree))
    decreases node.repr, 5
  {
    match node.kind
    case Mapping => PruneMapping(path, node);
    case Sequence => PruneSequence(path, node);
    case Scalar =>
  }

  method PruneChild(path: Path, node: Node, j: nat)
    requires node.Valid() && j < |node.content|
    modifies node.content[j].repr, node`tree
    ensures node.Valid()
    ensures node.tree == old(node.tree.(content := node.tree.content[j := Prune(path, node.tree.content[j])]))
    decreases node.repr, 0
  {
    var child := node.content[j];
    PruneKnownDefaultsInNewNode(path, child);
    node.tree := node.tree.(content := node.tree.content[j := child.tree]);
  }

  method PruneSequence(path: Path, node: Node)
    requires node.Valid() && node.kind == Sequence
    modifies node.repr
    ensures node.Valid() && node.repr == old(node.repr)
    ensures node.tree == Prune(path, old(node.tree))
    decreases node.repr, 3
  {
    ghost var start := node.tree;
    for i := 0 to |node.content|
      invariant node.Valid() && node.repr == old(node.repr) && node.content == old(node.content)
      invariant node.tree == start.(content := node.tree.content) && |node.tree.content| == |start.content|
      invariant forall j :: 0 <= j < |start.content| ==>
        node.tree.content[j] == if j < i then Prune(path, start.content[j]) else start.content[j]
    {
      PruneChild(path, node, i);
    }
  }

  /** `part` consists of the elements of `whole` at the increasing positions `at`, all below `limit`. */
  ghost predicate Picks(part: seq<Node>, whole: seq<Node>, at: seq<int>, limit: int) {
    && |part| == |at|
    && (forall j :: 0 <= j < |at| ==> 0 <= at[j] < limit && at[j] < |whole| && part[j] == whole[at[j]])
    && (forall i, j :: 0 <= i < j < |at| ==> at[i] < at[j])
  }

  lemma PicksMore(part: seq<Node>, whole: seq<Node>, at: seq<int>, p: nat)
    requires Picks(part, whole, at, p) && p + 1 < |whole|
    ensures Picks(part, whole, at, p + 2)
    ensures Picks(part + [whole[p], whole[p + 1]], whole, at + [p, p + 1], p + 2)
  {
  }

  lemma PrunePairsNext(path: Path, start: Tree, n: nat)
    requires 2 * n + 1 < |start.content|
    ensures var child, v := path + [start.content[2 * n].value], start.content[2 * n + 1];
      PrunePairs(path, start, n + 1) == PrunePairs(path, start, n) +
        if IsKnownDefault(child, v) || IsEmptyCollection(Prune(child, v))
          then [] else [start.content[2 * n], Prune(child, v)]
  {
    hide Prune, IsKnownDefault;
  }

  lemma IsEmptied(node: Node)
    requires node.Valid()
    ensures node.View() == node.tree && (IsEmptyCollection(node.tree) <==> node.kind != Scalar && node.content == [])
  {
  }

  /** Pruning child `j` leaves the elements picked before it alone. */
  method PruneBehind(path: Path, node: Node, j: nat, ghost filtered: seq<Node>, ghost at: seq<int>)
    requires node.Valid() && j < |node.content| && Picks(filtered, node.content, at, j)
    modifies node.content[j].repr, node`tree
    ensures node.Valid()
    ensures node.tree == old(node.tree.(content := node.tree.content[j := Prune(path, node.tree.content[j])]))
    ensures Trees(filtered) == old(Trees(filtered))
    decreases node.repr, 1
  {
    hide Prune;
    ghost var child := node.content[j];
    assert forall k :: 0 <= k < |filtered| ==> filtered[k] in node.content[at[k]].repr && filtered[k] !in child.repr;
    PruneChild(path, node, j);
  }

  /** One pair of the mapping is pruned, and kept unless it is a default or became an empty collection. */
  method PrunePair(path: Path, node: Node, n: nat, filtered: seq<Node>, ghost at: seq<int>, ghost start: Tree)
    returns (next: seq<Node>, ghost nextAt: seq<int>)
    requires node.Valid() && node.kind == Mapping && 2 * n + 1 < |node.content|
    requires |start.content| == |node.content| && start.content[2 * n] == node.tree.content[2 * n]
    requires start.content[2 * n + 1] == node.tree.content[2 * n + 1]
    requires Picks(filtered, node.content, at, 2 * n) && Trees(filtered) == PrunePairs(path, start, n)
    modifies node.content[2 * n + 1].repr, node`tree
    ensures node.Valid()
    ensures |node.tree.content| == |old(node.tree.content)|
    ensures node.tree == old(node.tree).(content := node.tree.content)
    ensures forall j :: 0 <= j < |node.tree.content| && j != 2 * n + 1 ==>
      node.tree.content[j] == old(node.tree.content[j])
    ensures Picks(next, node.content, nextAt, 2 * n + 2) && Trees(next) == PrunePairs(path, start, n + 1)
    decreases node.repr, 2
  {
    var key, val := node.content[2 * n], node.content[2 * n + 1];
    var child := path + [key.value];
    PicksMore(filtered, node.content, at, 2 * n);
    PrunePairsNext(path, start, n);
    IsEmptied(val);
    hide *;
    next, nextAt := filtered, at;
    if !IsKnownDefault(child, val.View()) {
      PruneBehind(child, node, 2 * n + 1, filtered, at);
      IsEmptied(val);
      if !(val.kind != Scalar && val.content == []) {
        next, nextAt := filtered + [key, val], at + [2 * n, 2 * n + 1];
      }
    }
  }

  method FilterPairs(path: Path, node: Node) returns (filtered: seq<Node>, ghost at: seq<int>)
    requires node.Valid() && node.kind == Mapping
    modifies node.repr
    ensures node.Valid() && node.repr == old(node.repr) && node.tree == old(node.tree).(content := node.tree.content)
    ensures Picks(filtered, node.content, at, |node.content|)
    ensures Trees(filtered) == PrunePairs(path, old(node.tree), |old(node.tree.content)| / 2)
    decreases node.repr, 3
  {
    hide PrunePairs, Prune;
    ghost var start := node.tree;
    filtered, at := [], [];
    NoPairs(path, start);
    for n := 0 to |node.content| / 2
      invariant node.Valid() && node.repr == old(node.repr) && node.content == old(node.content) && node.kind == Mapping
      invariant node.tree == start.(content := node.tree.content) && |node.tree.content| == |start.content|
      invariant forall j :: 2 * n <= j < |start.content| ==> node.tree.content[j] == start.content[j]
      invariant Picks(filtered, node.content, at, 2 * n) && Trees(filtered) == PrunePairs(path, start, n)
    {
      hide Picks;
      filtered, at := PrunePair(path, node, n, filtered, at, start);
    }
  }

  lemma NoPairs(path: Path, node: Tree)
    ensures PrunePairs(path, node, 0) == []
  {
  }

  method PruneMapping(path: Path, node: Node)
    requires node.Valid() && node.kind == Mapping
    modifies node.repr
    ensures node.Valid() && node.repr == old(node.repr)
    ensures node.tree == Prune(path, old(node.tree))
    decreases node.repr, 4
  {
    ghost var start := node.tree;
    assert Prune(path, start) == start.(content := PrunePairs(path, start, |start.content| / 2));
    hide Prune, PrunePairs, Picks;
    var filtered, at := FilterPairs(path, node);
    Shrink(node, filtered, at);
  }

  /** The node keeps some of its children, in order. */
  method Shrink(node: Node, part: seq<Node>, ghost at: seq<int>)
    requires node.Valid() && Picks(part, node.content, at, |node.content|)
    modifies node`content, node`tree
    ensures node.Valid() && node.tree == old(node.tree).(content := Trees(part)) && node.content == part
  {
    node.content := part;
    node.tree := node.tree.(content := Trees(part));
  }

  // ---------- finding keys, dropping keys ----------

  method FindMapKeyPair(node: Node, key: string) returns (pair: int)
    requires node.Valid()
    ensures pair == FindPair(node.tree.content, key, 0)
  {
    var p := 0;
    while 2 * p + 1 < |node.content|
      invariant 2 * p <= |node.content|
      invariant FindPair(node.tree.content, key, 0) == FindPair(node.tree.content, key, p)
    {
      if node.content[2 * p].value == key {
        return p;
      }
      p := p + 1;
    }
    return -1;
  }

  method ListedKeysOf(node: Node) returns (keep: set<string>)
    requires node.Valid()
    ensures keep == ListedKeys(node.tree.content)
  {
    hide TrimSpace;
    keep := {};
    var p := 0;
    while 2 * p + 1 < |node.content|
      invariant 2 * p <= |node.content|
      invariant keep == set i | 0 <= i < p
        && TrimSpace(node.tree.content[2 * i].value) != "" :: TrimSpace(node.tree.content[2 * i].value)
    {
      var key := TrimSpace(node.content[2 * p].value);
      if key != "" {
        keep := keep + {key};
      }
      p := p + 1;
    }
    assert p == |node.tree.content| / 2;
  }

  /** A scan that has settled the first `i` entries and drops unlisted pairs from the rest. */
  ghost function Scanned(content: seq<Tree>, i: nat, keep: set<string>): seq<Tree>
    requires i <= |content|
  {
    content[..i] + KeepKeys(content[i..], keep)
  }

  lemma ScanDrops(content: seq<Tree>, i: nat, keep: set<string>)
    requires i + 1 < |content| && TrimSpace(content[i].value) !in keep
    ensures Scanned(content[..i] + content[i + 2..], i, keep) == Scanned(content, i, keep)
  {
    hide TrimSpace;
    var rest := content[i..];
    assert rest[2..] == content[i + 2..];
    var next := content[..i] + content[i + 2..];
    assert next[..i] == content[..i] && next[i..] == content[i + 2..];
  }

  lemma ScanKeeps(content: seq<Tree>, i: nat, keep: set<string>)
    requires i + 1 < |content| && TrimSpace(content[i].value) in keep
    ensures Scanned(content, i + 2, keep) == Scanned(content, i, keep)
  {
    var kept := KeepKeys(content[i + 2..], keep);
    PairKept(content[i..], keep);
    hide KeepKeys, TrimSpace;
    assert content[i..][2..] == content[i + 2..] && content[i..][..2] == content[i..i + 2];
    assert content[..i + 2] == content[..i] + content[i..i + 2];
    assert (content[..i] + content[i..i + 2]) + kept == content[..i] + (content[i..i + 2] + kept);
  }

  lemma PairKept(content: seq<Tree>, keep: set<string>)
    requires |content| >= 2 && TrimSpace(content[0].value) in keep
    ensures KeepKeys(content, keep) == content[..2] + KeepKeys(content[2..], keep)
  {
  }

  lemma ScanEnds(content: seq<Tree>, i: nat, keep: set<string>)
    requires i <= |content|
    ensures i == 0 ==> Scanned(content, i, keep) == KeepKeys(content, keep)
    ensures i + 1 >= |content| ==> Scanned(content, i, keep) == content
  {
    assert content[..i] + content[i..] == content;
    assert content[0..] == content && content[..0] == [];
  }

  lemma NodeAt(node: Node, i: nat)
    requires node.Valid() && i < |node.content|
    ensures |node.tree.content| == |node.content| && node.tree.content[i].value == node.content[i].value
  {
  }

  method PruneMissingMapKeys(dstMap: Node, srcMap: Node)
    requires dstMap.Valid() && srcMap.Valid() && dstMap.repr !! srcMap.repr
    modifies dstMap`content, dstMap`tree
    ensures dstMap.Valid()
    ensures dstMap.tree ==
      old(dstMap.tree).(content := KeepKeys(old(dstMap.tree.content), ListedKeys(srcMap.tree.content)))
  {
    var keep := ListedKeysOf(srcMap);
    hide *;
    var i := 0;
    ghost var start := dstMap.tree;
    ScanEnds(start.content, 0, keep);
    while i + 1 < |dstMap.content|
      invariant dstMap.Valid() && 0 <= i <= |dstMap.content| == |dstMap.tree.content|
      invariant dstMap.tree == start.(content := dstMap.tree.content)
      invariant Scanned(dstMap.tree.content, i, keep) == Scanned(start.content, 0, keep)
      decreases |dstMap.content| - i
    {
      i := PruneKey(dstMap, i, keep);
    }
    ScanEnds(dstMap.tree.content, i, keep);
  }

  /** Looks at the pair at `i`: removes it, or moves on. */
  method PruneKey(dstMap: Node, i: nat, keep: set<string>) returns (next: nat)
    requires dstMap.Valid() && i + 1 < |dstMap.content|
    modifies dstMap`content, dstMap`tree
    ensures dstMap.Valid() && next <= |dstMap.content| == |dstMap.tree.content|
    ensures |dstMap.content| - next < old(|dstMap.content|) - i
    ensures dstMap.tree == old(dstMap.tree).(content := dstMap.tree.content)
    ensures Scanned(dstMap.tree.content, next, keep) == Scanned(old(dstMap.tree.content), i, keep)
  {
    NodeAt(dstMap, i);
    hide *;
    if TrimSpace(dstMap.content[i].value) !in keep {
      ScanDrops(dstMap.tree.content, i, keep);
      RemovePair(dstMap, i);
      next := i;
    } else {
      ScanKeeps(dstMap.tree.content, i, keep);
      next := i + 2;
    }
  }

  method RemovePair(node: Node, i: nat)
    requires node.Valid() && i + 1 < |node.content|
    modifies node`content, node`tree
    ensures node.Valid() && |node.content| == |old(node.content)| - 2 == |node.tree.content|
    ensures node.tree == old(node.tree.(content := node.tree.content[..i] + node.tree.content[i + 2..]))
  {
    node.content := node.content[..i] + node.content[i + 2..];
    node.tree := node.tree.(content := node.tree.content[..i] + node.tree.content[i + 2..]);
  }

  // ---------- matching sequence elements ----------

  ghost function Marked(used: seq<bool>): set<int> {
    set i | 0 <= i < |used| && used[i]
  }

  /** The first unused element whose tree fits; one of the two loops of the element search. */
  method FirstFreeNode(original: seq<Node>, used: seq<bool>, fits: Tree -> bool) returns (idx: int)
    requires |used| == |original| && forall i :: 0 <= i < |original| ==> original[i].Valid()
    ensures idx == FirstFree(Trees(original), Marked(used), fits, 0)
  {
    for i := 0 to |original|
      invariant FirstFree(Trees(original), Marked(used), fits, 0) == FirstFree(Trees(original), Marked(used), fits, i)
    {
      if !used[i] && fits(original[i].View()) {
        return i;
      }
    }
    return -1;
  }

  method MatchSequenceElement(original: seq<Node>, used: seq<bool>, target: Node) returns (idx: int)
    requires |used| == |original| && forall i :: 0 <= i < |original| ==> original[i].Valid()
    requires target.Valid()
    ensures idx == Match(Trees(original), Marked(used), target.tree)
  {
    var wanted := target.View();
    idx := FirstFreeNode(original, used, t => SameIdentity(t, wanted));
    if idx < 0 {
      idx := FirstFreeNode(original, used, t => StructurallyEqual(t, wanted));
    }
  }

  /** The old element each source element takes over, or -1 where a new node is needed. */
  method ReorderSequenceForMerge(original: seq<Node>, targets: seq<Node>) returns (ordered: seq<int>)
    requires forall i :: 0 <= i < |original| ==> original[i].Valid()
    requires forall i :: 0 <= i < |targets| ==> targets[i].Valid()
    ensures ordered == Matches(Trees(original), Trees(targets))
  {
    ghost var wanted := Trees(targets);
    ordered := [];
    var used := seq(|original|, _ => false);
    assert wanted[..0] == [];
    for i := 0 to |targets|
      invariant |used| == |original|
      invariant ordered == Matches(Trees(original), wanted[..i])
      invariant Marked(used) == Taken(ordered)
    {
      MatchesNext(Trees(original), wanted, i);
      hide Matches, Match, FirstFree;
      var idx := MatchSequenceElement(original, used, targets[i]);
      MarkedNext(used, ordered, idx);
      if idx >= 0 {
        used := used[idx := true];
      }
      ordered := ordered + [idx];
    }
    assert wanted[..|targets|] == wanted;
  }

  lemma MatchesNext(original: seq<Tree>, targets: seq<Tree>, i: nat)
    requires i < |targets|
    ensures Matches(original, targets[..i + 1])
         == Matches(original, targets[..i]) + [Match(original, Taken(Matches(original, targets[..i])), targets[i])]
  {
    assert targets[..i + 1][..i] == targets[..i];
    hide Match;
  }

  lemma MarkedNext(used: seq<bool>, ordered: seq<int>, idx: int)
    requires Marked(used) == Taken(ordered) && -1 <= idx < |used|
    ensures Marked(if idx >= 0 then used[idx := true] else used) == Taken(ordered + [idx])
  {
    var next := if idx >= 0 then used[idx := true] else used;
    forall m
      ensures m in Marked(next) <==> m in Taken(ordered + [idx])
    {
      assert m in Marked(used) <==> m in Taken(ordered);
    }
  }

  // ---------- the merge ----------

  /** copyNodeShallow: the node keeps its place and takes over a copy of everything below `src`. */
  method CopyNodeShallow(dst: Node, src: Node)
    requires dst.Valid() && src.Valid() && dst.repr !! src.repr
    modifies dst
    ensures dst.Valid() && fresh(dst.repr - old(dst.repr)) && dst.tree == src.tree
  {
    var kids, owned := DeepCopies(src, src.content);
    dst.kind, dst.tag, dst.value, dst.content := src.kind, src.tag, src.value, kids;
    dst.repr, dst.tree := dst.repr + owned, src.tree;
  }

  method MergeNodePreserve(dst: Node, src: Node, path: Path)
    requires dst.Valid() && src.Valid() && dst.repr !! src.repr
    modifies dst.repr
    ensures dst.Valid() && fresh(dst.repr - old(dst.repr))
    ensures dst.tree == MergeNode(old(dst.tree), src.tree, path)
    ensures src.Valid() && src.tree == old(src.tree) && dst.repr !! src.repr
    decreases src.tree, 4
  {
    hide MergeMapping, MergeItems;
    match src.kind
    case Mapping =>
      if dst.kind != Mapping {
        CopyNodeShallow(dst, src);
      }
      MergeMappingPreserve(dst, src, path);
    case Sequence =>
      if dst.kind == Scalar && dst.tag == "!!null" && src.content == [] {
        return;
      }
      if dst.kind != Sequence {
        dst.kind, dst.tag, dst.content := Sequence, "!!seq", [];
        dst.tree := dst.tree.(kind := Sequence, tag := "!!seq", content := []);
      }
      MergeSequence(dst, src, path);
    case Scalar =>
      dst.kind, dst.tag, dst.value := src.kind, src.tag, src.value;
      dst.tree := dst.tree.(kind := Scalar, tag := src.tag, value := src.value);
  }

  /** Merges into child `j` and takes ownership of the nodes the child gained. */
  method MergeChild(dst: Node, j: nat, src: Node, path: Path)
    requires dst.Valid() && src.Valid() && dst.repr !! src.repr && j < |dst.content|
    modifies dst.content[j].repr, dst`repr, dst`tree
    ensures dst.Valid() && fresh(dst.repr - old(dst.repr))
    ensures dst.tree ==
      old(dst.tree).(content := old(dst.tree.content)[j := MergeNode(old(dst.tree.content)[j], src.tree, path)])
    decreases src.tree, 5
  {
    hide MergeNode;
    var child := dst.content[j];
    MergeNodePreserve(child, src, path);
    dst.repr := dst.repr + child.repr;
    dst.tree := dst.tree.(content := dst.tree.content[j := child.tree]);
  }

  method AppendPair(dst: Node, k: Node, v: Node)
    requires dst.Valid() && k.Valid() && v.Valid() && k.repr !! v.repr && dst.repr !! k.repr && dst.repr !! v.repr
    modifies dst`content, dst`repr, dst`tree
    ensures dst.Valid() && dst.repr == old(dst.repr) + k.repr + v.repr
    ensures dst.tree == old(dst.tree).(content := old(dst.tree.content) + [k.tree, v.tree])
  {
    dst.content := dst.content + [k, v];
    dst.repr := dst.repr + k.repr + v.repr;
    dst.tree := dst.tree.(content := dst.tree.content + [k.tree, v.tree]);
  }

  /** A new key comes with a pruned copy of its value, unless that is a default. */
  method AppendMissing(dst: Node, sk: Node, sv: Node, childPath: Path)
    requires dst.Valid() && sk.Valid() && sv.Valid() && dst.repr !! sk.repr && dst.repr !! sv.repr
    requires dst.kind == Mapping
    modifies dst
    ensures dst.Valid() && fresh(dst.repr - old(dst.repr)) && dst.kind == Mapping
    ensures var candidate := Prune(childPath, sv.tree);
            dst.tree == if IsKnownDefault(childPath, candidate) then old(dst.tree) else
                          old(dst.tree).(content := old(dst.tree.content) + [sk.tree, candidate])
  {
    hide Prune, IsKnownDefault;
    var candidate := DeepCopyNode(sv);
    PruneKnownDefaultsInNewNode(childPath, candidate);
    if !IsKnownDefault(childPath, candidate.View()) {
      var key := DeepCopyNode(sk);
      AppendPair(dst, key, candidate);
    }
  }

  method MergePairPreserve(dst: Node, src: Node, p: nat, path: Path)
    requires dst.Valid() && src.Valid() && dst.repr !! src.repr && dst.kind == Mapping && 2 * p + 1 < |src.content|
    modifies dst.repr
    ensures dst.Valid() && fresh(dst.repr - old(dst.repr)) && dst.kind == Mapping
    ensures dst.tree == old(dst.tree).(content := MergePair(old(dst.tree.content), src.tree, path, p))
    decreases src.tree, 1
  {
    hide MergeNode, Prune, IsKnownDefault, FindPair;
    var sk, sv := src.content[2 * p], src.content[2 * p + 1];
    var childPath := path + [sk.value];
    var pair := FindMapKeyPair(dst, sk.value);
    assert sk.value == src.tree.content[2 * p].value;
    if pair >= 0 {
      MergeChild(dst, 2 * pair + 1, sv, childPath);
    } else {
      AppendMissing(dst, sk, sv, childPath);
    }
  }

  /** Merges a mapping into a mapping; of any other kinds the destination becomes a copy of the source. */
  method MergeMappingPreserve(dst: Node, src: Node, path: Path)
    requires dst.Valid() && src.Valid() && dst.repr !! src.repr
    modifies dst.repr
    ensures dst.Valid() && fresh(dst.repr - old(dst.repr))
    ensures dst.tree ==
      if old(dst.kind) == Mapping && src.kind == Mapping then MergeMapping(old(dst.tree), src.tree, path) else src.tree
    ensures src.Valid() && src.tree == old(src.tree) && dst.repr !! src.repr
    decreases src.tree, 2
  {
    if dst.kind != Mapping || src.kind != Mapping {
      CopyNodeShallow(dst, src);
      return;
    }
    ghost var start := dst.tree;
    for n := 0 to |src.content| / 2
      invariant dst.Valid() && dst.kind == Mapping && src.Valid() && dst.repr !! src.repr
      invariant fresh(dst.repr - old(dst.repr))
      invariant src.tree == old(src.tree) && src.content == old(src.content)
      invariant dst.tree == start.(content := MergePairs(start.content, src.tree, path, n))
    {
      hide MergePair, MergePairs;
      MergePairsStep(start.content, src.tree, path, n + 1);
      MergePairPreserve(dst, src, n, path);
    }
  }

  /** Merges into an old element, and drops the keys a generated mapping element no longer has. */
  method MergeElement(dst: Node, m: nat, item: Node, path: Path)
    requires dst.Valid() && item.Valid() && dst.repr !! item.repr && m < |dst.content|
    modifies dst.content[m].repr, dst`repr, dst`tree
    ensures dst.Valid() && fresh(dst.repr - old(dst.repr))
    ensures dst.tree ==
      old(dst.tree).(content := old(dst.tree.content)[m := MergeItem(old(dst.tree.content)[m], item.tree, path)])
    decreases item.tree, 5
  {
    hide MergeNode, KeepKeys, ListedKeys;
    var element := dst.content[m];
    MergeNodePreserve(element, item, path);
    if element.kind == Mapping && item.kind == Mapping {
      PruneMissingMapKeys(element, item);
    }
    dst.repr := dst.repr + element.repr;
    dst.tree := dst.tree.(content := dst.tree.content[m := element.tree]);
  }

  /** The elements placed so far: taken over from the old sequence, or copies within `owned`. */
  ghost predicate Placed(items: seq<Node>, matches: seq<int>, prior: seq<Node>, owned: set<Node>)
    reads owned
  {
    && |items| <= |matches|
    && (forall j :: 0 <= j < |matches| ==> matches[j] < |prior|)
    && (forall j :: 0 <= j < |items| ==> matches[j] >= 0 ==> items[j] == prior[matches[j]])
    && (forall j :: 0 <= j < |items| && matches[j] < 0 ==>
      items[j] in owned && items[j].repr <= owned && items[j].Valid())
    && (forall i, j :: 0 <= i < j < |items| && matches[i] < 0 && matches[j] < 0 ==> items[i].repr !! items[j].repr)
  }

  lemma PlacedMore(items: seq<Node>, matches: seq<int>, prior: seq<Node>, owned: set<Node>, copy: Node)
    requires Placed(items, matches, prior, owned) && |items| < |matches| && matches[|items|] < 0
    requires copy.Valid() && copy.repr !! owned
    ensures Placed(items + [copy], matches, prior, owned + copy.repr)
  {
  }

  lemma PlacedOld(items: seq<Node>, matches: seq<int>, prior: seq<Node>, owned: set<Node>)
    requires Placed(items, matches, prior, owned) && |items| < |matches| && matches[|items|] >= 0
    ensures Placed(items + [prior[matches[|items|]]], matches, prior, owned)
  {
  }

  lemma ElementsAreMerged(trees: seq<Tree>, prior: seq<Tree>, src: Tree, path: Path)
    requires |trees| == |src.content|
    requires forall j :: 0 <= j < |trees| ==> trees[j] == ElementTree(prior, Matches(prior, src.content), src, path, j)
    ensures trees == MergeItems(prior, src, path)
  {
    hide Matches, MergeItem;
    if prior == [] {
      assert trees == src.content;
    }
  }

  /** The node exchanges its children for the placed elements. */
  method Replace(dst: Node, items: seq<Node>, ghost matches: seq<int>, ghost owned: set<Node>)
    requires dst.Valid() && Placed(items, matches, dst.content, owned) && |items| == |matches| && Once(matches)
    requires dst.repr !! owned
    modifies dst`content, dst`repr, dst`tree
    ensures dst.Valid() && dst.repr == old(dst.repr) + owned
    ensures dst.tree == old(dst.tree).(content := Trees(items))
  {
    dst.content := items;
    dst.repr := dst.repr + owned;
    dst.tree := dst.tree.(content := Trees(items));
  }

  /** The tree of one element once it is placed. */
  ghost function ElementTree(prior: seq<Tree>, matches: seq<int>, src: Tree, path: Path, i: nat): Tree
    requires i < |src.content| && |matches| == |src.content| && matches[i] < |prior|
  {
    if matches[i] < 0 then src.content[i] else MergeItem(prior[matches[i]], src.content[i], path)
  }

  /** The old elements while the first `i` source elements have been merged into theirs. */
  ghost predicate SoFar(prior: seq<Tree>, now: seq<Tree>, matches: seq<int>, src: Tree, path: Path, i: nat) {
    && |now| == |prior| && |matches| == |src.content|
    && (forall j :: 0 <= j < |matches| ==> matches[j] < |prior|)
    && (forall j :: 0 <= j < |matches| && matches[j] >= 0 ==>
          now[matches[j]] == if j < i then ElementTree(prior, matches, src, path, j) else prior[matches[j]])
  }

  lemma SoFarNext(prior: seq<Tree>, now: seq<Tree>, matches: seq<int>, src: Tree, path: Path, i: nat)
    requires SoFar(prior, now, matches, src, path, i) && Once(matches) && i < |matches|
    ensures if matches[i] < 0 then SoFar(prior, now, matches, src, path, i + 1)
            else SoFar(prior, now[matches[i] := MergeItem(now[matches[i]], src.content[i], path)], matches, src, path,
              i + 1)
  {
    hide MergeItem;
  }

  /** Placed elements, with the trees of the copies. */
  ghost predicate Laid(items: seq<Node>, matches: seq<int>, prior: seq<Node>, owned: set<Node>, src: Tree, i: nat)
    reads owned, items
  {
    && |items| == i <= |matches| == |src.content| && Placed(items, matches, prior, owned)
    && forall j :: 0 <= j < i && matches[j] < 0 ==> items[j].tree == src.content[j]
  }

  method PlaceElement(dst: Node, src: Node, path: Path, i: nat, items: seq<Node>, matches: seq<int>,
                      ghost owned: set<Node>, ghost start: seq<Tree>)
    returns (next: seq<Node>, ghost nextOwned: set<Node>)
    requires dst.Valid() && src.Valid() && dst.repr !! src.repr && dst.repr !! owned
    requires Once(matches) && i < |src.content| && Laid(items, matches, dst.content, owned, src.tree, i)
    requires SoFar(start, dst.tree.content, matches, src.tree, path, i)
    modifies dst.repr
    ensures dst.Valid() && dst.content == old(dst.content) && dst.tree == old(dst.tree).(content := dst.tree.content)
    ensures fresh(dst.repr - old(dst.repr)) && fresh(nextOwned - owned) && dst.repr !! nextOwned
    ensures Laid(next, matches, dst.content, nextOwned, src.tree, i + 1)
    ensures SoFar(start, dst.tree.content, matches, src.tree, path, i + 1)
    decreases src.tree, 1
  {
    hide SoFar, MergeItem;
    SoFarNext(start, dst.tree.content, matches, src.tree, path, i);
    if matches[i] >= 0 {
      var old0 := dst.content[matches[i]];
      MergeElement(dst, matches[i], src.content[i], path);
      PlacedOld(items, matches, dst.content, owned);
      next, nextOwned := items + [old0], owned;
    } else {
      var copy := DeepCopyNode(src.content[i]);
      PlacedMore(items, matches, dst.content, owned, copy);
      next, nextOwned := items + [copy], owned + copy.repr;
    }
  }

  method PlaceElements(dst: Node, src: Node, path: Path, matches: seq<int>)
    returns (items: seq<Node>, ghost owned: set<Node>)
    requires dst.Valid() && src.Valid() && dst.repr !! src.repr && Once(matches)
    requires matches == Matches(dst.tree.content, src.tree.content)
    modifies dst.repr
    ensures dst.Valid() && dst.content == old(dst.content) && dst.tree == old(dst.tree).(content := dst.tree.content)
    ensures fresh(dst.repr - old(dst.repr)) && fresh(owned) && dst.repr !! owned
    ensures Laid(items, matches, dst.content, owned, src.tree, |src.content|)
    ensures SoFar(old(dst.tree.content), dst.tree.content, matches, src.tree, path, |src.content|)
    decreases src.tree, 2
  {
    hide Matches, MergeItem, Once;
    ghost var start := dst.tree.content;
    items, owned := [], {};
    for i := 0 to |src.content|
      invariant dst.Valid() && src.Valid() && dst.repr !! src.repr && fresh(dst.repr - old(dst.repr))
      invariant dst.content == old(dst.content) && dst.tree == old(dst.tree).(content := dst.tree.content)
      invariant src.tree == old(src.tree) && src.content == old(src.content)
      invariant fresh(owned) && owned !! dst.repr
      invariant Laid(items, matches, dst.content, owned, src.tree, i)
      invariant SoFar(start, dst.tree.content, matches, src.tree, path, i)
    {
      hide Laid, SoFar;
      items, owned := PlaceElement(dst, src, path, i, items, matches, owned, start);
    }
  }

  lemma LaidIsMerged(items: seq<Node>, matches: seq<int>, prior: seq<Node>, owned: set<Node>, start: seq<Tree>,
                     src: Tree, path: Path)
    requires matches == Matches(start, src.content)
    requires Laid(items, matches, prior, owned, src, |src.content|)
    requires SoFar(start, Trees(prior), matches, src, path, |src.content|)
    ensures Trees(items) == MergeItems(start, src, path)
  {
    forall j | 0 <= j < |items|
      ensures Trees(items)[j] == ElementTree(start, matches, src, path, j)
    {
      hide Matches, MergeItem;
      if matches[j] >= 0 {
        assert items[j] == prior[matches[j]];
        assert Trees(prior)[matches[j]] == ElementTree(start, matches, src, path, j);
      }
    }
    hide *;
    ElementsAreMerged(Trees(items), start, src, path);
  }

  method MergeSequence(dst: Node, src: Node, path: Path)
    requires dst.Valid() && src.Valid() && dst.repr !! src.repr && dst.kind == Sequence && src.kind == Sequence
    modifies dst.repr
    ensures dst.Valid() && fresh(dst.repr - old(dst.repr))
    ensures dst.tree == old(dst.tree).(content := MergeItems(old(dst.tree.content), src.tree, path))
    decreases src.tree, 3
  {
    hide Matches, SoFar, Once, MergeItems;
    var matches := ReorderSequenceForMerge(dst.content, src.content);
    assert Trees(dst.content) == dst.tree.content && Trees(src.content) == src.tree.content;
    MatchesOnce(dst.tree.content, src.tree.content);
    var items, owned := PlaceElements(dst, src, path, matches);
    assert Trees(dst.content) == dst.tree.content;
    LaidIsMerged(items, matches, dst.content, owned, old(dst.tree.content), src.tree, path);
    assert |items| == |matches|;
    assert Placed(items, matches, dst.content, owned);
    hide Laid, Placed;
    Replace(dst, items, matches, owned);
  }
}
