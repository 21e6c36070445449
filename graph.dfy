/**
 * The name-to-node table that configuration loading fills in
 * (src/config/graph.rs). Binding links one named node to another as its
 * downstream target.
 */
module ConfigGraph {
  import opened Wrappers

  /** A routing node as the graph sees it: its name, its type and its downstream link. */
  class Node {
    const name: string
    const kind: string
    var next: Node?

    constructor (name: string, kind: string)
      ensures this.name == name && this.kind == kind && next == null
    {
      this.name := name;
      this.kind := kind;
      next := null;
    }
  }

  /** Text of the error `bind` returns. */
  function LocateError(to: string): string
  {
    "couldn't locate node: " + to
  }

  class Graph {
    var nodes: map<string, Node>

    /** `Graph::new`: an empty table. */
    constructor ()
      ensures nodes == map[]
    {
      nodes := map[];
    }

    /** `Graph::insert`: `name` now maps to `node`; every other name keeps its node. */
    method Insert(name: string, node: Node)
      modifies this
      ensures nodes == old(nodes)[name := node]
      ensures forall n :: n in old(nodes) && n != name ==> n in nodes && nodes[n] == old(nodes)[n]
    {
      nodes := nodes[name := node];
    }

    /**
     * `Graph::bind`: when both names are in the table, `from`'s node now sends
     * to `to`'s node; otherwise an error naming `to` (even when only `from` is
     * missing). The table itself never changes.
     */
    method Bind(from: string, to: string) returns (r: Result<(), string>)
      modifies nodes.Values
      ensures nodes == old(nodes)
      ensures r.Ok? <==> from in nodes && to in nodes
      ensures r.Err? ==> r.error == LocateError(to) && forall n :: n in nodes.Values ==> n.next == old(n.next)
      ensures r.Ok? ==> nodes[from].next == nodes[to] &&
                        forall n :: n in nodes.Values && n != nodes[from] ==> n.next == old(n.next)
    {
      if from in nodes && to in nodes {
        nodes[from].next := nodes[to];
        return Ok(());
      }
      return Err(LocateError(to));
    }
  }
}
