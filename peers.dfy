/**
 * The peer-identity types of the comms layer, as far as the console wallet's UI
 * controller uses them. Their parsing, formatting and cryptography live in the
 * comms and crypto crates, which are not part of this model: the values are
 * opaque carriers, and every operation on them is a field of `PeerLibrary`.
 */
module Peers {
  import opened Wrappers

  /** A Ristretto public key; its bytes are never inspected here. */
  datatype PublicKey = PublicKey(bytes: seq<bv8>)

  /** A multi-protocol network address (`Multiaddr`), kept as its binary form. */
  datatype Multiaddr = Multiaddr(bytes: seq<bv8>)

  /** The stable node identifier derived from a public key. */
  datatype NodeId = NodeId(bytes: seq<bv8>)

  /** The peer-manager's flag and feature bit sets, kept as their raw bits. */
  datatype PeerFlags = PeerFlags(bits: nat)
  datatype PeerFeatures = PeerFeatures(bits: nat)

  /** A protocol a peer announces support for. */
  datatype ProtocolId = ProtocolId(name: seq<bv8>)

  /** The error any of the foreign conversions may report. */
  datatype LibraryError = LibraryError(message: string)

  /**
   * A peer record, with the arguments `Peer::new` receives in the order it
   * receives them. Per-address connection statistics are not modelled.
   */
  datatype Peer = Peer(
    publicKey: PublicKey,
    nodeId: NodeId,
    addresses: seq<Multiaddr>,
    flags: PeerFlags,
    features: PeerFeatures,
    supportedProtocols: seq<ProtocolId>,
    userAgent: string)

  /**
   * The foreign functions and constants the controller calls, as given inputs:
   * `PublicKey::from_hex`, `str::parse::<Multiaddr>`, `NodeId::from_key`,
   * `PublicKey::to_hex`, the `Display` of an address, `PeerFlags::default()`
   * and `PeerFeatures::COMMUNICATION_NODE`.
   */
  datatype PeerLibrary = PeerLibrary(
    publicKeyFromHex: string -> Result<PublicKey, LibraryError>,
    multiaddrFromStr: string -> Result<Multiaddr, LibraryError>,
    nodeIdFromKey: PublicKey -> Result<NodeId, LibraryError>,
    publicKeyToHex: PublicKey -> string,
    multiaddrToString: Multiaddr -> string,
    defaultFlags: PeerFlags,
    communicationNode: PeerFeatures)
}
