/**
 * YAML nodes in the heap: which nodes a node owns, and the tree it denotes.
 */
module YamlNode {
  import opened YamlTree

  class Node {
    var kind: Kind
    var tag: string
    var value: string
    var content: seq<Node>
    /** The nodes this node owns, itself included. */
    ghost var repr: set<Node>
    /** The tree this node denotes. */
    ghost var tree: Tree

    ghost predicate Valid()
      reads this, repr
      decreases repr
    {
      && this in repr
      && tree.kind == kind && tree.tag == tag && tree.value == value && |tree.content| == |content|
      && (forall i :: 0 <= i < |content| ==>
            && content[i] in repr && content[i].repr <= repr && this !in content[i].repr
            && content[i].Valid() && tree.content[i] == content[i].tree)
      && (forall i, j :: 0 <= i < j < |content| ==> content[i].repr !! content[j].repr)
    }

    /** Reads the tree off the nodes. */
    function View(): (t: Tree)
      requires Valid()
      reads this, repr
      ensures t == tree
      decreases repr
    {
      Tree(kind, tag, value,
        seq(|content|, i requires Valid() && 0 <= i < |content| reads this, repr => content[i].View()))
    }

    constructor (kind: Kind, tag: string, value: string, content: seq<Node>, ghost owned: set<Node>)
      requires Forest(content, owned)
      ensures Valid() && repr == {this} + owned
      ensures this.content == content && tree == Tree(kind, tag, value, Trees(content))
    {
      this.kind, this.tag, this.value, this.content := kind, tag, value, content;
      this.repr, this.tree := {this} + owned, Tree(kind, tag, value, Trees(content));
    }
  }

  /** Valid trees within `owned` that share no node. */
  ghost predicate Forest(nodes: seq<Node>, owned: set<Node>)
    reads owned
  {
    && (forall i :: 0 <= i < |nodes| ==> nodes[i] in owned && nodes[i].repr <= owned && nodes[i].Valid())
    && (forall i, j :: 0 <= i < j < |nodes| ==> nodes[i].repr !! nodes[j].repr)
  }

  ghost function Trees(nodes: seq<Node>): (r: seq<Tree>)
    reads nodes
    ensures |r| == |nodes| && forall i :: 0 <= i < |nodes| ==> r[i] == nodes[i].tree
  {
    seq(|nodes|, i requires 0 <= i < |nodes| reads nodes => nodes[i].tree)
  }

  lemma ForestMore(nodes: seq<Node>, owned: set<Node>, n: Node)
    requires Forest(nodes, owned) && n.Valid() && n.repr !! owned
    ensures Forest(nodes + [n], owned + n.repr)
    ensures Trees(nodes + [n]) == Trees(nodes) + [n.tree]
  {
  }

  /** A new node for a new place in a tree: deepCopyNode. */
  method DeepCopyNode(n: Node) returns (c: Node)
    requires n.Valid()
    ensures c.Valid() && fresh(c.repr) && c.tree == n.tree
    decreases n.repr
  {
    var kids, owned := DeepCopies(n, n.content);
    c := new Node(n.kind, n.tag, n.value, kids, owned);
  }

  method DeepCopies(ghost n: Node, nodes: seq<Node>) returns (kids: seq<Node>, ghost owned: set<Node>)
    requires n.Valid() && nodes == n.content
    ensures Forest(kids, owned) && fresh(owned) && Trees(kids) == n.tree.content
    decreases n.repr, 0
  {
    kids, owned := [], {};
    for i := 0 to |nodes|
      invariant Forest(kids, owned) && fresh(owned)
      invariant Trees(kids) == n.tree.content[..i]
    {
      var kid := DeepCopyNode(nodes[i]);
      ForestMore(kids, owned, kid);
      kids, owned := kids + [kid], owned + kid.repr;
    }
  }
}
