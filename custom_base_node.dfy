/**
 * Start-up resolution of the base node the wallet talks to: an operator
 * override persisted in the wallet database under two fixed keys is used only
 * when both entries read, are present, parse, and yield a node id; otherwise
 * the configured peer is used. The chosen peer seeds the Network tab.
 */
module CustomBaseNode {
  import opened Wrappers
  import opened Peers

  const CUSTOM_BASE_NODE_PUBLIC_KEY_KEY: string := "console_wallet_custom_base_node_public_key"
  const CUSTOM_BASE_NODE_ADDRESS_KEY: string := "console_wallet_custom_base_node_address"

  datatype StoreError = StoreError(message: string)

  /**
   * The wallet database's client key-value lookup, as seen during start-up:
   * each key reads as an error, an absent value or a stored string.
   */
  type Store = string -> Result<Option<string>, StoreError>

  /**
   * The log record the resolver leaves behind. The two read warnings print the
   * same text with the store error only; `key` is the model's tag for which of
   * the two reads failed, not part of the logged message.
   */
  datatype Diagnostic =
    | NoDiagnostic                                     // nothing logged: override used, or not stored
    | ReadWarning(key: string, storeError: StoreError) // warn: problem reading from the wallet database
    | ConversionDebug                                  // debug: key or address did not convert
    | NodeIdDebug(nodeIdError: LibraryError)           // debug: no node id for the stored key

  /**
   * What one resolution produces: the peer (the Rust function's return value),
   * the log record, and the keys read from the store, in order.
   */
  datatype Resolution = Resolution(peer: Option<Peer>, diagnostic: Diagnostic, keysRead: seq<string>)

  predicate ReadOk(store: Store, key: string) {
    store(key).Success?
  }

  predicate Stored(store: Store, key: string) {
    store(key).Success? && store(key).value.Some?
  }

  function StoredValue(store: Store, key: string): string
    requires Stored(store, key)
  {
    store(key).value.value
  }

  /** Both override entries are stored. */
  predicate BothStored(store: Store) {
    Stored(store, CUSTOM_BASE_NODE_PUBLIC_KEY_KEY) && Stored(store, CUSTOM_BASE_NODE_ADDRESS_KEY)
  }

  /** Both override entries are stored and both convert. */
  predicate BothParse(store: Store, lib: PeerLibrary) {
    && BothStored(store)
    && lib.publicKeyFromHex(StoredValue(store, CUSTOM_BASE_NODE_PUBLIC_KEY_KEY)).Success?
    && lib.multiaddrFromStr(StoredValue(store, CUSTOM_BASE_NODE_ADDRESS_KEY)).Success?
  }

  function StoredKey(store: Store, lib: PeerLibrary): PublicKey
    requires BothParse(store, lib)
  {
    lib.publicKeyFromHex(StoredValue(store, CUSTOM_BASE_NODE_PUBLIC_KEY_KEY)).value
  }

  function StoredAddress(store: Store, lib: PeerLibrary): Multiaddr
    requires BothParse(store, lib)
  {
    lib.multiaddrFromStr(StoredValue(store, CUSTOM_BASE_NODE_ADDRESS_KEY)).value
  }

  /**
   * Every step of the override succeeds: both reads, both values present,
   * both conversions, and the node id derivation.
   */
  predicate OverrideUsable(store: Store, lib: PeerLibrary) {
    BothParse(store, lib) && lib.nodeIdFromKey(StoredKey(store, lib)).Success?
  }

  /** `p` is the peer built from the stored override. */
  predicate IsStoredPeer(p: Peer, store: Store, lib: PeerLibrary)
    requires OverrideUsable(store, lib)
  {
    && p.publicKey == StoredKey(store, lib)
    && p.nodeId == lib.nodeIdFromKey(p.publicKey).value
    && p.addresses == [StoredAddress(store, lib)]
    && p.flags == lib.defaultFlags
    && p.features == lib.communicationNode
    && p.supportedProtocols == []
    && p.userAgent == ""
  }

  /**
   * Reads the stored public key and address and, if both are usable, builds
   * the peer from them. Any failure ends the chain with no peer.
   */
  function GetCustomBaseNodePeerFromDb(store: Store, lib: PeerLibrary): (r: Resolution)
    // all steps succeed, or no override at all
    ensures r.peer.Some? <==> OverrideUsable(store, lib)
    ensures r.peer.Some? ==> OverrideUsable(store, lib) && IsStoredPeer(r.peer.value, store, lib)
    // a failed first read stops the chain before the second read
    ensures r.keysRead ==
              if ReadOk(store, CUSTOM_BASE_NODE_PUBLIC_KEY_KEY)
              then [CUSTOM_BASE_NODE_PUBLIC_KEY_KEY, CUSTOM_BASE_NODE_ADDRESS_KEY]
              else [CUSTOM_BASE_NODE_PUBLIC_KEY_KEY]
    // the log record tells the failure paths apart
    ensures r.diagnostic.ReadWarning? <==>
              !ReadOk(store, CUSTOM_BASE_NODE_PUBLIC_KEY_KEY) || !ReadOk(store, CUSTOM_BASE_NODE_ADDRESS_KEY)
    ensures r.diagnostic.ReadWarning? ==>
              r.diagnostic.key == r.keysRead[|r.keysRead| - 1] && store(r.diagnostic.key) == Failure(r.diagnostic.storeError)
    ensures r.diagnostic.ConversionDebug? <==> BothStored(store) && !BothParse(store, lib)
    ensures r.diagnostic.NodeIdDebug? <==> BothParse(store, lib) && !OverrideUsable(store, lib)
    ensures r.diagnostic.NodeIdDebug? ==>
              BothParse(store, lib) && lib.nodeIdFromKey(StoredKey(store, lib)) == Failure(r.diagnostic.nodeIdError)
    ensures r.diagnostic.NoDiagnostic? <==>
              r.peer.Some? ||
              (ReadOk(store, CUSTOM_BASE_NODE_PUBLIC_KEY_KEY) && ReadOk(store, CUSTOM_BASE_NODE_ADDRESS_KEY) && !BothStored(store))
  {
    var pubKeyRead := store(CUSTOM_BASE_NODE_PUBLIC_KEY_KEY);
    if pubKeyRead.Failure? then
      Resolution(None, ReadWarning(CUSTOM_BASE_NODE_PUBLIC_KEY_KEY, pubKeyRead.error), [CUSTOM_BASE_NODE_PUBLIC_KEY_KEY])
    else
      var keysRead := [CUSTOM_BASE_NODE_PUBLIC_KEY_KEY, CUSTOM_BASE_NODE_ADDRESS_KEY];
      var addressRead := store(CUSTOM_BASE_NODE_ADDRESS_KEY);
      if addressRead.Failure? then
        Resolution(None, ReadWarning(CUSTOM_BASE_NODE_ADDRESS_KEY, addressRead.error), keysRead)
      else
        match (pubKeyRead.value, addressRead.value)
        case (Some(publicKey), Some(address)) =>
          var pubKey := lib.publicKeyFromHex(publicKey);
          var addr := lib.multiaddrFromStr(address);
          if pubKey.Failure? || addr.Failure? then
            Resolution(None, ConversionDebug, keysRead)
          else
            var nodeId := lib.nodeIdFromKey(pubKey.value);
            if nodeId.Failure? then
              Resolution(None, NodeIdDebug(nodeId.error), keysRead)
            else
              var peer := Peer(pubKey.value, nodeId.value, [addr.value], lib.defaultFlags, lib.communicationNode, [], "");
              Resolution(Some(peer), NoDiagnostic, keysRead)
        case _ =>
          Resolution(None, NoDiagnostic, keysRead)
  }

  /** Which peer `App::new` reports using in its start-up log line. */
  datatype PeerSource = StoredCustom | Configuration

  /** The start-up choice: its source, and the pair the Network tab is created with. */
  datatype Selection = Selection(source: PeerSource, publicKeyHex: string, address: string)

  /**
   * The custom peer when there is one, else the configured peer, shown as its
   * public key in hex and its first address (the empty string when it has none).
   */
  function NetworkTabSeed(lib: PeerLibrary, customPeer: Option<Peer>, baseNodeConfig: Peer): (s: Selection)
    ensures s.source == StoredCustom <==> customPeer.Some?
    ensures var shown := if customPeer.Some? then customPeer.value else baseNodeConfig;
            && s.publicKeyHex == lib.publicKeyToHex(shown.publicKey)
            && (shown.addresses == [] ==> s.address == "")
            && (shown.addresses != [] ==> s.address == lib.multiaddrToString(shown.addresses[0]))
  {
    match customPeer
    case Some(peer) => Selection(StoredCustom, lib.publicKeyToHex(peer.publicKey), FirstAddress(lib, peer))
    case None => Selection(Configuration, lib.publicKeyToHex(baseNodeConfig.publicKey), FirstAddress(lib, baseNodeConfig))
  }

  /** The display of the peer's first address, or "" when it has none. */
  function FirstAddress(lib: PeerLibrary, peer: Peer): string {
    if |peer.addresses| == 0 then "" else lib.multiaddrToString(peer.addresses[0])
  }

  // ---------------------------------------------------------------------------
  // Properties relating several resolutions or the resolution and the Network tab

  /** A storage error on the public-key read makes the address entry irrelevant. */
  lemma KeyReadErrorIgnoresAddress(store1: Store, store2: Store, lib: PeerLibrary)
    requires store1(CUSTOM_BASE_NODE_PUBLIC_KEY_KEY).Failure?
    requires store2(CUSTOM_BASE_NODE_PUBLIC_KEY_KEY) == store1(CUSTOM_BASE_NODE_PUBLIC_KEY_KEY)
    ensures GetCustomBaseNodePeerFromDb(store1, lib) == GetCustomBaseNodePeerFromDb(store2, lib)
    ensures GetCustomBaseNodePeerFromDb(store1, lib).keysRead == [CUSTOM_BASE_NODE_PUBLIC_KEY_KEY]
  {
  }

  /** An absent entry means no override, whatever the other entry holds. */
  lemma AbsentEntryMeansNoOverride(store: Store, lib: PeerLibrary)
    requires store(CUSTOM_BASE_NODE_PUBLIC_KEY_KEY) == Success(None) || store(CUSTOM_BASE_NODE_ADDRESS_KEY) == Success(None)
    ensures GetCustomBaseNodePeerFromDb(store, lib).peer == None
  {
  }

  /** An override of which only one half converts is never applied. */
  lemma PartialOverrideNeverApplied(store: Store, lib: PeerLibrary)
    requires BothStored(store)
    requires lib.publicKeyFromHex(StoredValue(store, CUSTOM_BASE_NODE_PUBLIC_KEY_KEY)).Failure? ||
             lib.multiaddrFromStr(StoredValue(store, CUSTOM_BASE_NODE_ADDRESS_KEY)).Failure?
    ensures GetCustomBaseNodePeerFromDb(store, lib).peer == None
    ensures GetCustomBaseNodePeerFromDb(store, lib).diagnostic == ConversionDebug
  {
  }

  /** Without a usable override the Network tab shows the configured peer. */
  lemma FallbackShowsConfiguredPeer(store: Store, lib: PeerLibrary, baseNodeConfig: Peer)
    requires !OverrideUsable(store, lib)
    ensures NetworkTabSeed(lib, GetCustomBaseNodePeerFromDb(store, lib).peer, baseNodeConfig)
            == Selection(Configuration, lib.publicKeyToHex(baseNodeConfig.publicKey), FirstAddress(lib, baseNodeConfig))
  {
  }

  /**
   * A usable override is what the Network tab shows: when hex encoding and
   * address display give back the stored strings, the tab shows those strings.
   */
  lemma StoredOverrideIsShown(store: Store, lib: PeerLibrary, baseNodeConfig: Peer)
    requires OverrideUsable(store, lib)
    requires lib.publicKeyToHex(StoredKey(store, lib)) == StoredValue(store, CUSTOM_BASE_NODE_PUBLIC_KEY_KEY)
    requires lib.multiaddrToString(StoredAddress(store, lib)) == StoredValue(store, CUSTOM_BASE_NODE_ADDRESS_KEY)
    ensures NetworkTabSeed(lib, GetCustomBaseNodePeerFromDb(store, lib).peer, baseNodeConfig)
            == Selection(StoredCustom, StoredValue(store, CUSTOM_BASE_NODE_PUBLIC_KEY_KEY),
                         StoredValue(store, CUSTOM_BASE_NODE_ADDRESS_KEY))
  {
  }
}
