/**
 * Where parts end, stated as a short recursion over a tree whose sizes are all known: sibling
 * runs of one directory, cut against the budget, and the rows of directories too large for one
 * part carried into the first part of their contents.
 */
module Rule {
  import opened Tree

  /** The parts of some children, and the directory rows that have not left in a part yet. */
  datatype Cut = Cut(parts: seq<seq<Row>>, carry: seq<Row>)

  /** Closes the sibling run `group`, if it holds anything. */
  function Flush(carry: seq<Row>, group: seq<Row>): Cut {
    if group == [] then Cut([], carry) else Cut([carry + group], [])
  }

  /** The end of a directory that is cut: its own row leaves now if nothing below it took it. */
  function Leave(own: Row, inner: Cut): Cut {
    if inner.carry != [] && inner.carry[|inner.carry| - 1] == own
    then Cut(inner.parts + [inner.carry], [])
    else inner
  }

  predicate Oversize(node: Node, budget: nat) {
    node.entry.Directory? && Size(node) > budget
  }

  function Split(dir: Path, nodes: seq<Node>, budget: nat, carry: seq<Row>, group: seq<Row>, bytes: nat): Cut
    decreases nodes
  {
    if nodes == [] then Flush(carry, group)
    else if Oversize(nodes[0], budget) then
      var before := Flush(carry, group);
      var child := Descend(dir, nodes[0], budget, before.carry);
      var after := Split(dir, nodes[1..], budget, child.carry, [], 0);
      Cut(before.parts + child.parts + after.parts, after.carry)
    else if group != [] && bytes + Size(nodes[0]) > budget then
      var after := Split(dir, nodes[1..], budget, [], Pre(dir, [nodes[0]]), Size(nodes[0]));
      Cut([carry + group] + after.parts, after.carry)
    else
      Split(dir, nodes[1..], budget, carry, group + Pre(dir, [nodes[0]]), bytes + Size(nodes[0]))
  }

  /** A directory that does not fit one part, cut by the same rules. */
  function Descend(dir: Path, node: Node, budget: nat, carry: seq<Row>): Cut
    decreases node
  {
    var own := Row(dir, node.entry);
    Leave(own, Split(dir + [node.entry.name], node.children, budget, carry + [own], [], 0))
  }

  /** The parts of a tree, given the entries of its root. */
  function Parts(nodes: seq<Node>, budget: nat): seq<seq<Row>> {
    Split([], nodes, budget, [], [], 0).parts
  }
}
