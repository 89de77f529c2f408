/**
 * The data the EIGRP routing process works on: addresses, metrics, neighbour
 * identities, adjacency edges, routes and route advertisements.
 */
module EigrpTypes {
  import opened Wrappers

  /** An autonomous system number (a non-negative Java long). */
  type Asn = nat

  /** An IPv4 address. */
  type Ip = bv32

  type PrefixLength = n: nat | n <= 32

  /** A network: its first address and its length. */
  datatype Prefix = Prefix(start: Ip, length: PrefixLength)

  /** An address configured on an interface, with the length of its subnet. */
  datatype InterfaceAddress = InterfaceAddress(ip: Ip, length: PrefixLength)

  /** The network mask of a prefix of the given length. */
  function Mask(length: PrefixLength): Ip {
    if length == 0 then 0 else 0xFFFF_FFFF << (32 - length)
  }

  /** The subnet an interface address belongs to. */
  function PrefixOf(a: InterfaceAddress): Prefix {
    Prefix(a.ip & Mask(a.length), a.length)
  }

  /**
   * The composite EIGRP metric. Its internals are not modelled: the only operation the
   * process uses, accumulation over a hop, is an uninterpreted parameter.
   */
  datatype Metric = Metric(bandwidth: nat, delay: nat)

  /** Per-interface EIGRP settings. */
  datatype EigrpInterfaceSettings = EigrpInterfaceSettings(asn: Asn, enabled: bool, metric: Metric)

  /** The parts of an interface the process reads. */
  datatype Interface = Interface(
    name: string,
    vrf: string,
    active: bool,
    address: Option<InterfaceAddress>,
    allAddresses: set<InterfaceAddress>,
    eigrp: Option<EigrpInterfaceSettings>)

  /** One EIGRP-enabled interface of one router: a node of the EIGRP topology. */
  datatype NeighborId = NeighborId(asn: Asn, hostname: string, vrf: string, iface: string)

  /** A directed adjacency from `node1` (the advertiser) to `node2` (the receiver). */
  datatype Edge = Edge(node1: NeighborId, node2: NeighborId) {
    function Reverse(): Edge {
      Edge(node2, node1)
    }
  }

  /**
   * An EIGRP route. Internal routes are learned inside the process's AS, external
   * ones are redistributed into it and carry the AS they came from.
   */
  datatype EigrpRoute =
    | Internal(network: Prefix, metric: Metric, admin: nat, processAsn: Asn, nextHop: Option<Ip>)
    | External(network: Prefix, metric: Metric, admin: nat, processAsn: Asn, nextHop: Option<Ip>,
               destinationAsn: Asn, nonRouting: bool)

  type InternalRoute = r: EigrpRoute | r.Internal?
    witness Internal(Prefix(0, 0), Metric(0, 0), 0, 0, None)

  type ExternalRoute = r: EigrpRoute | r.External?
    witness External(Prefix(0, 0), Metric(0, 0), 0, 0, None, 0, false)

  /** A route together with whether it is announced or withdrawn. */
  datatype Advert = Advert(route: EigrpRoute, withdrawn: bool)

  type InternalAdvert = a: Advert | a.route.Internal?
    witness Advert(Internal(Prefix(0, 0), Metric(0, 0), 0, 0, None), false)

  type ExternalAdvert = a: Advert | a.route.External?
    witness Advert(External(Prefix(0, 0), Metric(0, 0), 0, 0, None, 0, false), false)

  /** The ordered list of changes one or more RIB operations made. */
  type Delta = seq<Advert>

  /** Why a round or a redistribution aborts. */
  datatype Error =
    | MissingInterface(id: NeighborId)
    | MissingEigrpSettings(id: NeighborId)
    | MissingAddress(id: NeighborId)
    | MissingNeighborProcess(id: NeighborId)
    | MissingInbox(edge: Edge)
    | MissingMetric(network: Prefix)
}
