/**
 * The projection node and the shape of the node tree. The node is the
 * engine-side counterpart of one rendered element: it carries a stable id,
 * its current corner radii and the box it was last projected to. The tree is
 * given as a value (a node with its ordered children) and walked in pre-order,
 * root first, as `traverse(callback, { includeSelf: true })` does.
 */
module Projection {
  import opened Geometry

  type NodeId = string

  class ProjectionNode {
    const id: NodeId
    var borderRadiuses: BorderRadiusConfig
    /** The box the node was last asked to project itself onto. */
    var projectedBox: BoundingBox

    constructor(id: NodeId, borderRadiuses: BorderRadiusConfig, box: BoundingBox)
      ensures this.id == id && this.borderRadiuses == borderRadiuses && projectedBox == box
    {
      this.id := id;
      this.borderRadiuses := borderRadiuses;
      projectedBox := box;
    }

    /** `node.project(box)`: only the projected box changes. */
    method Project(box: BoundingBox)
      modifies this`projectedBox
      ensures projectedBox == box
    {
      projectedBox := box;
    }
  }

  datatype Tree = Tree(node: ProjectionNode, children: seq<Tree>)

  /** Pre-order walk including the root. */
  function Traverse(t: Tree): (nodes: seq<ProjectionNode>)
    decreases t
    ensures |nodes| >= 1 && nodes[0] == t.node
  {
    [t.node] + TraverseForest(t.children)
  }

  function TraverseForest(ts: seq<Tree>): seq<ProjectionNode>
    decreases ts
  {
    if ts == [] then [] else Traverse(ts[0]) + TraverseForest(ts[1..])
  }

  /** Reference definition of tree membership, independent of any visiting order. */
  ghost predicate InTree(n: ProjectionNode, t: Tree)
    decreases t
  {
    n == t.node || exists i :: 0 <= i < |t.children| && InTree(n, t.children[i])
  }

  ghost predicate InForest(n: ProjectionNode, ts: seq<Tree>)
  {
    exists i :: 0 <= i < |ts| && InTree(n, ts[i])
  }

  /** The traversal visits exactly the nodes of the tree. */
  lemma {:induction false} TraverseVisitsTree(t: Tree, n: ProjectionNode)
    decreases t, 1
    ensures n in Traverse(t) <==> InTree(n, t)
  {
    TraverseVisitsForest(t.children, n);
    assert InForest(n, t.children) <==> exists i :: 0 <= i < |t.children| && InTree(n, t.children[i]);
  }

  lemma {:induction false} TraverseVisitsForest(ts: seq<Tree>, n: ProjectionNode)
    decreases ts, 0
    ensures n in TraverseForest(ts) <==> InForest(n, ts)
  {
    if ts != [] {
      TraverseVisitsTree(ts[0], n);
      TraverseVisitsForest(ts[1..], n);
      if InForest(n, ts[1..]) {
        var i :| 0 <= i < |ts[1..]| && InTree(n, ts[1..][i]);
        assert InTree(n, ts[i + 1]);
      }
      if InForest(n, ts) && !InTree(n, ts[0]) {
        var i :| 0 <= i < |ts| && InTree(n, ts[i]);
        assert i != 0 && InTree(n, ts[1..][i - 1]);
      }
    }
  }
}
