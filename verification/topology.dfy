/**
 * The EIGRP topology collaborator: a directed graph whose nodes are EIGRP-enabled
 * interfaces and whose edges are adjacencies. An edge (node1, node2) is an in-edge of
 * node2, the interface that receives what node1 advertises.
 */
module Topology {
  import opened EigrpTypes

  datatype Topology = Topology(nodes: set<NeighborId>, edges: set<Edge>)

  /** The topology a process starts with, before the first update. */
  const EmptyTopology := Topology({}, {})

  /** The adjacencies over which `n` receives advertisements. */
  function InEdges(t: Topology, n: NeighborId): set<Edge> {
    set e | e in t.edges && e.node2 == n
  }
}
