/**
 * What a merged configuration means: every path of the generated tree reads the same in the merged
 * tree, or is absent because it is, or prunes to, a known default.
 */
module YamlTheorems {
  import opened Wrappers
  import opened Text
  import opened YamlTree

  // ---------- well-formed trees ----------

  /** Mappings alternate keys and values all the way down. */
  ghost predicate Paired(t: Tree)
    decreases t
  {
    t.kind != Scalar ==>
      && (t.kind == Mapping ==> |t.content| % 2 == 0)
      && forall i :: 0 <= i < |t.content| ==> Paired(t.content[i])
  }

  ghost predicate DistinctKeys(content: seq<Tree>) {
    forall p, q :: 0 <= p < q < |content| / 2 ==> KeyAt(content, p) != KeyAt(content, q)
  }

  ghost predicate NonBlankKeys(content: seq<Tree>) {
    forall p :: 0 <= p < |content| / 2 ==> TrimSpace(KeyAt(content, p)) != ""
  }

  /** Paired, with distinct keys: what a decoder accepts. */
  ghost predicate Keyed(t: Tree)
    decreases t
  {
    t.kind != Scalar ==>
      && (t.kind == Mapping ==> |t.content| % 2 == 0 && DistinctKeys(t.content))
      && forall i :: 0 <= i < |t.content| ==> Keyed(t.content[i])
  }

  /** Paired, with distinct keys that are not blank: what marshalling a configuration yields. */
  ghost predicate Proper(t: Tree)
    decreases t
  {
    t.kind != Scalar ==>
      && (t.kind == Mapping ==> |t.content| % 2 == 0 && DistinctKeys(t.content) && NonBlankKeys(t.content))
      && forall i :: 0 <= i < |t.content| ==> Proper(t.content[i])
  }

  // ---------- reading ----------

  ghost function Lookup(content: seq<Tree>, key: string): Option<Tree> {
    var p := FindPair(content, key, 0);
    if p < 0 then None else Some(content[2 * p + 1])
  }

  /** A value that need not be written: it is a known default, or nothing but defaults. */
  ghost predicate Omittable(path: Path, value: Tree) {
    IsKnownDefault(path, value) || IsKnownDefault(path, Prune(path, value))
  }

  ghost predicate ExplicitNull(t: Tree) {
    t.kind == Scalar && t.tag == "!!null"
  }

  /** Every path of `src` reads the same in `dst`, or is omitted from it for being a default. */
  ghost predicate Reads(dst: Tree, src: Tree, path: Path)
    decreases src, 1
  {
    match src.kind
    case Scalar => dst.kind == Scalar && dst.tag == src.tag && dst.value == src.value
    case Sequence =>
      || (src.content == [] && ExplicitNull(dst))
      || (dst.kind == Sequence && |dst.content| == |src.content|
          && forall i :: 0 <= i < |src.content| ==> Reads(dst.content[i], src.content[i], path))
    case Mapping =>
      && dst.kind == Mapping
      && forall p :: 0 <= p < |src.content| / 2 ==> ReadsPair(dst.content, src, path, p)
  }

  /** The part of Reads that concerns one pair of a source mapping. */
  ghost predicate ReadsPair(content: seq<Tree>, src: Tree, path: Path, p: nat)
    requires 2 * p + 1 < |src.content|
    decreases src, 0
  {
    var child := path + [KeyAt(src.content, p)];
    var found := Lookup(content, KeyAt(src.content, p));
    if found.Some? then Reads(found.value, src.content[2 * p + 1], child) else Omittable(child, src.content[2 * p + 1])
  }

  // ---------- lookups ----------

  lemma FoundAt(content: seq<Tree>, key: string, r: nat)
    requires 2 * r + 1 < |content| && KeyAt(content, r) == key
    requires forall q :: 0 <= q < r ==> KeyAt(content, q) != key
    ensures FindPair(content, key, 0) == r
  {
    assert r < |content| / 2;
  }

  lemma NotFound(content: seq<Tree>, key: string)
    requires forall q :: 0 <= q < |content| / 2 ==> KeyAt(content, q) != key
    ensures FindPair(content, key, 0) == -1
  {
    var p := FindPair(content, key, 0);
    assert 2 * p + 1 < |content| ==> p < |content| / 2;
  }

  lemma LookupUpdated(content: seq<Tree>, p: nat, value: Tree, key: string)
    requires 2 * p + 1 < |content| && FindPair(content, KeyAt(content, p), 0) == p
    ensures Lookup(content[2 * p + 1 := value], key) ==
      if key == KeyAt(content, p) then Some(value) else Lookup(content, key)
  {
    var next := content[2 * p + 1 := value];
    assert forall q :: 0 <= q < |content| / 2 ==> KeyAt(next, q) == KeyAt(content, q);
    var r := FindPair(content, key, 0);
    if r >= 0 {
      FoundAt(next, key, r);
    } else {
      NotFound(next, key);
    }
  }

  lemma LookupAppended(content: seq<Tree>, k: Tree, value: Tree, key: string)
    requires |content| % 2 == 0
    ensures Lookup(content + [k, value], key) ==
            if Lookup(content, key).Some? then Lookup(content, key) else if k.value == key then Some(value) else None
  {
    var next := content + [k, value];
    assert forall q :: 0 <= q < |content| / 2 ==> KeyAt(next, q) == KeyAt(content, q);
    assert KeyAt(next, |content| / 2) == k.value;
    var r := FindPair(content, key, 0);
    if r >= 0 {
      FoundAt(next, key, r);
    } else if k.value == key {
      FoundAt(next, key, |content| / 2);
    } else {
      NotFound(next, key);
    }
  }

  // ---------- copies and pruned copies ----------

  lemma {:induction false} ReadsItself(t: Tree, path: Path)
    requires Keyed(t)
    ensures Reads(t, t, path)
    decreases t
  {
    match t.kind
    case Scalar =>
    case Sequence =>
      forall i | 0 <= i < |t.content|
        ensures Reads(t.content[i], t.content[i], path)
      {
        ReadsItself(t.content[i], path);
      }
    case Mapping =>
      forall p | 0 <= p < |t.content| / 2
        ensures ReadsPair(t.content, t, path, p)
      {
        FoundAt(t.content, KeyAt(t.content, p), p);
        ReadsItself(t.content[2 * p + 1], path + [KeyAt(t.content, p)]);
      }
  }

  lemma {:induction false} PruneReads(path: Path, t: Tree)
    requires Keyed(t)
    ensures Reads(Prune(path, t), t, path)
    decreases t, 1, 0
  {
    match t.kind
    case Scalar =>
    case Sequence =>
      forall i | 0 <= i < |t.content|
        ensures Reads(Prune(path, t.content[i]), t.content[i], path)
      {
        PruneReads(path, t.content[i]);
      }
    case Mapping =>
      PrunePairsRead(path, t, |t.content| / 2);
  }

  /** What pruning finds under the `n`-th key, and under every other. */
  lemma PruneStepLookup(path: Path, t: Tree, n: nat, key: string)
    requires 0 < n && 2 * n <= |t.content| && |PrunePairs(path, t, n - 1)| % 2 == 0
    ensures var k, v := KeyAt(t.content, n - 1), t.content[2 * n - 1];
      var before, after := PrunePairs(path, t, n - 1), PrunePairs(path, t, n);
      && |after| % 2 == 0
      && (key != k ==> Lookup(after, key) == Lookup(before, key))
      && (key == k && Lookup(before, k).None? ==>
            if Lookup(after, k).Some? then Lookup(after, k).value == Prune(path + [k], v) else Omittable(path + [k], v))
  {
    var k, v := t.content[2 * n - 2], t.content[2 * n - 1];
    var pruned := Prune(path + [k.value], v);
    EmptyIsDefault(path + [k.value], pruned);
    hide IsKnownDefault, Prune, Lookup, IsEmptyCollection;
    LookupAppended(PrunePairs(path, t, n - 1), k, pruned, key);
  }

  lemma EmptyIsDefault(path: Path, t: Tree)
    ensures IsEmptyCollection(t) ==> IsKnownDefault(path, t)
  {
  }

  lemma PrunedPair(after: seq<Tree>, t: Tree, path: Path, p: nat)
    requires 2 * p + 1 < |t.content|
    requires var k, v := KeyAt(t.content, p), t.content[2 * p + 1];
      && Reads(Prune(path + [k], v), v, path + [k])
      && if Lookup(after, k).Some? then Lookup(after, k).value == Prune(path + [k], v) else Omittable(path + [k], v)
    ensures ReadsPair(after, t, path, p)
  {
    hide Lookup, Omittable, Reads, Prune;
  }

  lemma NothingPruned(path: Path, t: Tree)
    ensures PrunePairs(path, t, 0) == [] && forall key :: Lookup([], key) == None
  {
  }

  lemma {:induction false} PrunePairsRead(path: Path, t: Tree, n: nat)
    requires Keyed(t) && t.kind == Mapping && 2 * n <= |t.content|
    ensures |PrunePairs(path, t, n)| % 2 == 0
    ensures forall p :: 0 <= p < n ==> ReadsPair(PrunePairs(path, t, n), t, path, p)
    ensures forall p :: n <= p < |t.content| / 2 ==> Lookup(PrunePairs(path, t, n), KeyAt(t.content, p)) == None
    decreases t, 0, n
  {
    hide *;
    if n == 0 {
      NothingPruned(path, t);
    } else {
      PrunePairsRead(path, t, n - 1);
      var before, after := PrunePairs(path, t, n - 1), PrunePairs(path, t, n);
      var k, v := KeyAt(t.content, n - 1), t.content[2 * n - 1];
      KeyedPair(t, n - 1);
      PruneReads(path + [k], v);
      PruneStepLookup(path, t, n, k);
      PrunedPair(after, t, path, n - 1);
      forall p | 0 <= p < |t.content| / 2 && p != n - 1
        ensures Lookup(after, KeyAt(t.content, p)) == Lookup(before, KeyAt(t.content, p))
        ensures p < n ==> ReadsPair(after, t, path, p)
      {
        KeysDiffer(t.content, p, n - 1);
        PruneStepLookup(path, t, n, KeyAt(t.content, p));
        if p < n {
          SamePair(before, after, t, path, p);
        }
      }
    }
  }

  // ---------- keeping the listed keys of a sequence element ----------

  lemma {:induction false} LookupSkips(content: seq<Tree>, key: string)
    requires |content| >= 2
    ensures Lookup(content, key) == if content[0].value == key then Some(content[1]) else Lookup(content[2..], key)
  {
    var rest := content[2..];
    assert forall q :: 0 <= q < |rest| / 2 ==> KeyAt(rest, q) == KeyAt(content, q + 1);
    if content[0].value == key {
      FoundAt(content, key, 0);
    } else {
      var r := FindPair(rest, key, 0);
      if r >= 0 {
        assert KeyAt(content, r + 1) == key;
        forall q | 0 <= q < r + 1
          ensures KeyAt(content, q) != key
        {
          if q > 0 {
            assert KeyAt(rest, q - 1) != key;
          }
        }
        FoundAt(content, key, r + 1);
      } else {
        forall q | 0 <= q < |content| / 2
          ensures KeyAt(content, q) != key
        {
          if q > 0 {
            assert KeyAt(rest, q - 1) != key;
          }
        }
        NotFound(content, key);
      }
    }
  }

  lemma {:induction false} KeptKeysLookup(content: seq<Tree>, keep: set<string>, key: string)
    requires TrimSpace(key) in keep && |content| % 2 == 0
    ensures Lookup(KeepKeys(content, keep), key) == Lookup(content, key)
  {
    if |content| >= 2 {
      hide TrimSpace;
      KeptKeysLookup(content[2..], keep, key);
      LookupSkips(content, key);
      var kept := KeepKeys(content, keep);
      if TrimSpace(content[0].value) in keep {
        assert kept[2..] == KeepKeys(content[2..], keep);
        LookupSkips(kept, key);
      } else {
        assert kept == KeepKeys(content[2..], keep);
      }
    }
  }

  /** Pruning an element to its generated keys does not change what it reads. */
  lemma KeptKeysRead(dst: Tree, src: Tree, path: Path)
    requires dst.kind == Mapping && |dst.content| % 2 == 0 && src.kind == Mapping && Proper(src)
    requires Reads(dst, src, path)
    ensures Reads(dst.(content := KeepKeys(dst.content, ListedKeys(src.content))), src, path)
  {
    var kept := KeepKeys(dst.content, ListedKeys(src.content));
    forall p | 0 <= p < |src.content| / 2
      ensures ReadsPair(kept, src, path, p)
    {
      var key := KeyAt(src.content, p);
      assert key == src.content[2 * p].value;
      assert TrimSpace(key) in ListedKeys(src.content);
      hide TrimSpace;
      KeptKeysLookup(dst.content, ListedKeys(src.content), key);
      assert ReadsPair(dst.content, src, path, p);
    }
  }

  lemma {:induction false} NoBlankKeyKept(content: seq<Tree>, keep: set<string>, key: string)
    requires "" !in keep && TrimSpace(key) == "" && |content| % 2 == 0
    ensures Lookup(KeepKeys(content, keep), key) == None
  {
    if |content| >= 2 {
      hide TrimSpace;
      NoBlankKeyKept(content[2..], keep, key);
      var kept := KeepKeys(content, keep);
      if TrimSpace(content[0].value) in keep {
        assert kept[2..] == KeepKeys(content[2..], keep);
        LookupSkips(kept, key);
      } else {
        assert kept == KeepKeys(content[2..], keep);
      }
    }
  }

  lemma SamePair(before: seq<Tree>, after: seq<Tree>, src: Tree, path: Path, p: nat)
    requires 2 * p + 1 < |src.content| && ReadsPair(before, src, path, p)
    requires Lookup(after, KeyAt(src.content, p)) == Lookup(before, KeyAt(src.content, p))
    ensures ReadsPair(after, src, path, p)
  {
    hide Lookup, Omittable, Reads;
  }

  lemma KeysDiffer(content: seq<Tree>, p: nat, q: nat)
    requires DistinctKeys(content) && p < |content| / 2 && q < |content| / 2 && p != q
    ensures KeyAt(content, p) != KeyAt(content, q)
  {
  }

  lemma KeyedPair(t: Tree, p: nat)
    requires Keyed(t) && t.kind == Mapping && 2 * p + 1 < |t.content|
    ensures DistinctKeys(t.content) && Keyed(t.content[2 * p + 1])
  {
  }

  lemma {:induction false} KeyedIsPaired(t: Tree)
    requires Keyed(t)
    ensures Paired(t)
    decreases t
  {
    if t.kind != Scalar {
      forall i | 0 <= i < |t.content|
        ensures Paired(t.content[i])
      {
        KeyedIsPaired(t.content[i]);
      }
    }
  }

  lemma {:induction false} ProperIsKeyed(t: Tree)
    requires Proper(t)
    ensures Keyed(t)
    decreases t
  {
    if t.kind != Scalar {
      forall i | 0 <= i < |t.content|
        ensures Keyed(t.content[i])
      {
        ProperIsKeyed(t.content[i]);
      }
    }
  }
}
