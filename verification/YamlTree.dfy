/**
 * YAML trees as values: the read-only helpers of the comment-preserving merge, and the tree that
 * merging a generated configuration into an existing one denotes (internal/config/config.go).
 */
module YamlTree {
  import opened Text

  datatype Kind = Mapping | Sequence | Scalar

  /** `content` of a mapping alternates keys and values. A scalar may carry stale content nobody reads. */
  datatype Tree = Tree(kind: Kind, tag: string, value: string, content: seq<Tree>)

  type Path = seq<string>

  const DEFAULT_PPROF_ADDR := "127.0.0.1:8316"
  const DEFAULT_PANEL_REPOSITORY := "https://github.com/router-for-me/Cli-Proxy-API-Management-Center"

  // ---------- defaults ----------

  predicate IsZeroValue(node: Tree) {
    match node.kind
    case Scalar =>
      if node.tag == "!!bool" then node.value == "false"
      else if node.tag == "!!int" || node.tag == "!!float" then node.value == "0" || node.value == "0.0"
      else if node.tag == "!!str" then node.value == ""
      else node.tag == "!!null"
    case Sequence => forall i :: 0 <= i < |node.content| ==> IsZeroValue(node.content[i])
    case Mapping => forall i :: 0 <= i < |node.content| && i % 2 == 1 ==> IsZeroValue(node.content[i])
  }

  function Dotted(path: Path): string {
    if path == [] then ""
    else if |path| == 1 then path[0]
    else Dotted(path[..|path| - 1]) + "." + path[|path| - 1]
  }

  predicate IsKnownDefault(path: Path, node: Tree) {
    || IsZeroValue(node)
    || (path != [] && node.kind == Scalar && node.tag == "!!str" && (
          var full := Dotted(path);
          || (full == "pprof.addr" && node.value == DEFAULT_PPROF_ADDR)
          || (full == "remote-management.panel-github-repository" && node.value == DEFAULT_PANEL_REPOSITORY)
          || (full == "routing.engine" && node.value == "v1")
          || (full == "routing.strategy" && node.value == "round-robin")
          || (full == "request-log-stream-max-bytes" && node.value == "262144")))
    || (path != [] && node.kind == Scalar && node.tag == "!!int" && (
          var full := Dotted(path);
          || (full == "error-logs-max-files" && node.value == "10")
          || (full == "request-log-max-body-bytes" && node.value == "65536")
          || (full == "usage-details-memory-window-minutes" && node.value == "60")
          || (full == "usage-details-retention-days" && node.value == "7")))
  }

  predicate IsEmptyCollection(node: Tree) {
    (node.kind == Mapping || node.kind == Sequence) && node.content == []
  }

  /** A new node without its default-valued descendants. */
  function Prune(path: Path, node: Tree): Tree
    decreases node, 1, 0
  {
    match node.kind
    case Mapping => node.(content := PrunePairs(path, node, |node.content| / 2))
    case Sequence => node.(content := seq(|node.content|,
      i requires 0 <= i < |node.content| => Prune(path, node.content[i])))
    case Scalar => node
  }

  /** The first `n` pairs of a mapping that survive pruning. */
  function PrunePairs(path: Path, node: Tree, n: nat): seq<Tree>
    requires 2 * n <= |node.content|
    decreases node, 0, n
  {
    if n == 0 then []
    else
      var before := PrunePairs(path, node, n - 1);
      var k, v := node.content[2 * n - 2], node.content[2 * n - 1];
      var child := path + [k.value];
      if IsKnownDefault(child, v) then before
      else
        var pruned := Prune(child, v);
        if IsEmptyCollection(pruned) then before else before + [k, pruned]
  }

  // ---------- sequence elements ----------

  predicate StructurallyEqual(a: Tree, b: Tree)
    decreases a
  {
    && a.kind == b.kind
    && match a.kind
       case Mapping =>
         && |a.content| == |b.content|
         && forall i :: 0 <= i < |a.content| / 2 * 2 ==> StructurallyEqual(a.content[i], b.content[i])
       case Sequence =>
         && |a.content| == |b.content|
         && forall i :: 0 <= i < |a.content| ==> StructurallyEqual(a.content[i], b.content[i])
       case Scalar => TrimSpace(a.value) == TrimSpace(b.value)
  }

  /** The trimmed value of the first scalar under a key, compared without case; "" when there is none. */
  function ScalarUnder(content: seq<Tree>, key: string): string {
    if |content| < 2 then ""
    else if content[1].kind == Scalar && ToLower(TrimSpace(content[0].value)) == ToLower(key)
      then TrimSpace(content[1].value)
    else ScalarUnder(content[2..], key)
  }

  const IDENTITY_KEYS := ["id", "name", "alias", "api-key", "api_key", "apikey", "key", "provider", "model"]

  function KeyedIdentity(node: Tree, keys: seq<string>): string {
    if keys == [] then ""
    else
      var v := ScalarUnder(node.content, keys[0]);
      if v != "" then keys[0] + "=" + v else KeyedIdentity(node, keys[1..])
  }

  function FirstScalarIdentity(content: seq<Tree>): string {
    if |content| < 2 then ""
    else if content[1].kind == Scalar && TrimSpace(content[1].value) != "" then
      ToLower(TrimSpace(content[0].value)) + "=" + TrimSpace(content[1].value)
    else FirstScalarIdentity(content[2..])
  }

  function Identity(node: Tree): string {
    if node.kind != Mapping then ""
    else
      var keyed := KeyedIdentity(node, IDENTITY_KEYS);
      if keyed != "" then keyed else FirstScalarIdentity(node.content)
  }

  /** `candidate` carries the identity of `target`, or its text when both are scalars. */
  predicate SameIdentity(candidate: Tree, target: Tree) {
    match target.kind
    case Mapping => Identity(target) != "" && candidate.kind == Mapping && Identity(candidate) == Identity(target)
    case Scalar => TrimSpace(target.value) != "" && candidate.kind == Scalar
      && TrimSpace(candidate.value) == TrimSpace(target.value)
    case Sequence => false
  }

  /** The first element at or after `i` that is not used and satisfies `fits`; -1 when there is none. */
  function FirstFree(original: seq<Tree>, used: set<int>, fits: Tree -> bool, i: nat): (r: int)
    requires i <= |original|
    ensures r == -1 || (i <= r < |original| && r !in used && fits(original[r]))
    ensures r == -1 ==> forall j :: i <= j < |original| && j !in used ==> !fits(original[j])
    ensures forall j :: i <= j < r && j !in used ==> !fits(original[j])
    decreases |original| - i
  {
    if i == |original| then -1
    else if i !in used && fits(original[i]) then i
    else FirstFree(original, used, fits, i + 1)
  }

  function Match(original: seq<Tree>, used: set<int>, target: Tree): (r: int)
    ensures r == -1
      || (0 <= r < |original| && r !in used
      && (SameIdentity(original[r], target) || StructurallyEqual(original[r], target)))
    ensures r == -1 ==> forall j :: 0 <= j < |original| && j !in used ==>
      !SameIdentity(original[j], target) && !StructurallyEqual(original[j], target)
  {
    var byIdentity := FirstFree(original, used, t => SameIdentity(t, target), 0);
    if byIdentity >= 0 then byIdentity
    else FirstFree(original, used, t => StructurallyEqual(t, target), 0)
  }

  function Taken(matches: seq<int>): set<int> {
    set m | m in matches && m >= 0
  }

  /** For each target the index of the old element it takes over, or -1. */
  function Matches(original: seq<Tree>, targets: seq<Tree>): (r: seq<int>)
    ensures |r| == |targets|
    ensures forall i :: 0 <= i < |r| ==> -1 <= r[i] < |original|
  {
    if targets == [] then []
    else
      var before := Matches(original, targets[..|targets| - 1]);
      before + [Match(original, Taken(before), targets[|targets| - 1])]
  }

  // ---------- the merge ----------

  function KeyAt(content: seq<Tree>, p: nat): string
    requires 2 * p < |content|
  {
    content[2 * p].value
  }

  /** The first pair, at or after pair `p`, whose key is `key`; -1 when there is none. */
  function FindPair(content: seq<Tree>, key: string, p: nat): (r: int)
    ensures r == -1 || (p <= r && 2 * r + 1 < |content| && KeyAt(content, r) == key)
    ensures r == -1 ==> forall q :: p <= q < |content| / 2 ==> KeyAt(content, q) != key
    ensures forall q :: p <= q < r ==> KeyAt(content, q) != key
    decreases |content| - 2 * p
  {
    if 2 * p + 1 >= |content| then -1
    else if KeyAt(content, p) == key then p
    else FindPair(content, key, p + 1)
  }

  function MergeNode(dst: Tree, src: Tree, path: Path): Tree
    decreases src, 2, 0
  {
    match src.kind
    case Mapping =>
      MergeMapping(if dst.kind == Mapping then dst else src, src, path)
    case Sequence =>
      if dst.kind == Scalar && dst.tag == "!!null" && src.content == [] then dst
      else
        var d := if dst.kind == Sequence then dst else dst.(kind := Sequence, tag := "!!seq", content := []);
        d.(content := MergeItems(d.content, src, path))
    case Scalar =>
      dst.(kind := Scalar, tag := src.tag, value := src.value)
  }

  /** The items of a merged sequence. */
  function MergeItems(prior: seq<Tree>, src: Tree, path: Path): seq<Tree>
    decreases src, 1, 0
  {
    if prior == [] then src.content
    else
      var matches := Matches(prior, src.content);
      seq(|src.content|, i requires 0 <= i < |src.content| =>
        if matches[i] < 0 then src.content[i] else MergeItem(prior[matches[i]], src.content[i], path))
  }

  function MergeItem(prior: Tree, item: Tree, path: Path): Tree
    decreases item, 3, 0
  {
    var merged := MergeNode(prior, item, path);
    if merged.kind == Mapping && item.kind == Mapping
    then merged.(content := KeepKeys(merged.content, ListedKeys(item.content)))
    else merged
  }

  /** The non-blank keys of a mapping, trimmed. */
  function ListedKeys(content: seq<Tree>): set<string> {
    set i | 0 <= i < |content| / 2 && TrimSpace(content[2 * i].value) != "" :: TrimSpace(content[2 * i].value)
  }

  function KeepKeys(content: seq<Tree>, keep: set<string>): seq<Tree> {
    if |content| < 2 then content
    else
      (if TrimSpace(content[0].value) in keep then content[..2] else []) + KeepKeys(content[2..], keep)
  }

  function MergeMapping(dst: Tree, src: Tree, path: Path): Tree
    decreases src, 1, 0
  {
    dst.(content := MergePairs(dst.content, src, path, |src.content| / 2))
  }

  /** The mapping after the first `n` pairs of the source. */
  function MergePairs(content: seq<Tree>, src: Tree, path: Path, n: nat): seq<Tree>
    requires 2 * n <= |src.content|
    decreases src, 0, n, 1
  {
    if n == 0 then content else MergePair(MergePairs(content, src, path, n - 1), src, path, n - 1)
  }

  /** The mapping `before`, with pair `p` of the source merged in. */
  function MergePair(before: seq<Tree>, src: Tree, path: Path, p: nat): seq<Tree>
    requires 2 * p + 1 < |src.content|
    decreases src, 0, p, 2
  {
    var k, v := src.content[2 * p], src.content[2 * p + 1];
    var child := path + [k.value];
    var pair := FindPair(before, k.value, 0);
    if pair >= 0 then before[2 * pair + 1 := MergeNode(before[2 * pair + 1], v, child)]
    else
      var candidate := Prune(child, v);
      if IsKnownDefault(child, candidate) then before else before + [k, candidate]
  }
}
