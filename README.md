# Console wallet UI controller — a Dafny model

This project models the controller behind the Tari console wallet's terminal dashboard
(`applications/tari_console_wallet/src/ui/app.rs`). It covers two parts.

- **Custom base node resolution.** At start-up the wallet may use a base node override stored
  in the wallet database under `console_wallet_custom_base_node_public_key` and
  `console_wallet_custom_base_node_address`. `CustomBaseNode.GetCustomBaseNodePeerFromDb`
  models the fallible chain: read the key, read the address, check both are present, parse both,
  derive the `NodeId`, build the `Peer`. Any failure yields no peer. The result also records the
  log line each failure path leaves and which keys were read. `CustomBaseNode.NetworkTabSeed`
  models the choice `App::new` makes between the custom peer and the configured peer, and the
  `(public key hex, first address or "")` pair the Network tab is created with.
- **Event dispatch.** `Controller.App` is a class holding `shouldQuit` and `calls`. `calls` is the
  ordered trace of calls the handlers make on the tabs container and on the application state.
  Each handler is tied to the pure specification `Controller.Step`. `Controller.Run` folds `Step`
  over a sequence of events. The lemmas about `Run` cover the quit flag, the trace and the ordering
  of ticks across any number of events.

The store, `PublicKey::from_hex`, `Multiaddr` parsing, `NodeId::from_key`, hex and address
formatting, `PeerFlags::default()` and `PeerFeatures::COMMUNICATION_NODE` are all given inputs.
The store is a function from key to `Result<Option<string>, StoreError>`. The rest are the fields
of `Peers.PeerLibrary`.

A failed public-key read returns before the address is read (app.rs:198-201); the model states
this through `keysRead`.

## Model

| member | source | states |
|---|---|---|
| `CustomBaseNode.GetCustomBaseNodePeerFromDb` | applications/tari_console_wallet/src/ui/app.rs:191-251 | Returns a peer exactly when both reads succeed, both values are present, both parse and the node id derives. That peer has the parsed key, the node id derived from it, exactly the one parsed address, default flags, the communication-node features, no protocols and an empty user agent. The address is read only if the key read succeeded. The log record is a warning carrying the store error (tagged with the key whose read failed), a conversion debug when both values are stored but one does not parse, a node-id debug carrying the derivation error, or nothing (success or a value not stored). |
| `CustomBaseNode.KeyReadErrorIgnoresAddress` | applications/tari_console_wallet/src/ui/app.rs:192-202 | A storage error on the public-key read gives the same result whatever the address entry holds, and only the key is read. |
| `CustomBaseNode.AbsentEntryMeansNoOverride` | applications/tari_console_wallet/src/ui/app.rs:215-216 | If either entry reads as absent there is no custom peer, regardless of the other entry. |
| `CustomBaseNode.PartialOverrideNeverApplied` | applications/tari_console_wallet/src/ui/app.rs:217-228 | If both entries are stored but the key or the address does not parse, there is no custom peer and the conversion debug record is left. |
| `CustomBaseNode.NetworkTabSeed` | applications/tari_console_wallet/src/ui/app.rs:81-101 | Shows the custom peer exactly when there is one, otherwise the configured peer. The pair is that peer's key as hex and its first address's display, or "" when it has no address. |
| `CustomBaseNode.FallbackShowsConfiguredPeer` | applications/tari_console_wallet/src/ui/app.rs:91-101 | Without a usable override, the Network tab shows the configured peer's key and first address, and the peer is reported as taken from configuration. |
| `CustomBaseNode.StoredOverrideIsShown` | applications/tari_console_wallet/src/ui/app.rs:81-90 | With a usable override, and hex encoding and address display giving back the stored strings, the Network tab shows exactly the two stored strings and the peer is reported as the stored custom node. |
| `Controller.InitialTabs` | applications/tari_console_wallet/src/ui/app.rs:103-109 | The container gets the application title and three tabs, the third being the Network tab created with the selected key and address. |
| `Controller.Step` | applications/tari_console_wallet/src/ui/app.rs:122-167 | Handling an event only appends to the trace. The quit flag ends up set exactly when it already was or the event is a quit control key. |
| `Controller.Run` | applications/tari_console_wallet/src/ui/app.rs:122-167 | Over any sequence of events the trace only grows and a set quit flag stays set. |
| `Controller.DispatchRules` | applications/tari_console_wallet/src/ui/app.rs:131-162 | `next` comes exactly from the tab key and the right arrow, and `previous` exactly from the left arrow. A key `c` is forwarded exactly when the event is `Key(c)` with `c` not the tab key. Right and left make only the navigation call. Only control keys make no call at all. |
| `Controller.ControlKeyOnlyTouchesQuit` | applications/tari_console_wallet/src/ui/app.rs:122-129 | A control key makes no call, and a control key other than `q` or `c` leaves the controller unchanged. |
| `Controller.TickRefreshesFirst` | applications/tari_console_wallet/src/ui/app.rs:164-167 | A tick appends the cache update and then the tab-side tick, in that order. |
| `Controller.RunThenStep` | applications/tari_console_wallet/src/ui/app.rs:122-167 | Handling one more event after a run is one more `Step`, so a series of handler calls on an `App` ends in the state `Run` gives for those events. |
| `Controller.RunRecordsAllEffects` | applications/tari_console_wallet/src/ui/app.rs:131-167 | Running events appends exactly the concatenation of each event's calls, in delivery order, to the earlier trace. |
| `Controller.RunQuitsIffQuitKey` | applications/tari_console_wallet/src/ui/app.rs:115-129 | After any sequence of events the quit flag is set if and only if it was set before or some event was the control key `q` or `c`. No handler lowers it. |
| `Controller.RunKeepsTickOrder` | applications/tari_console_wallet/src/ui/app.rs:164-167 | Starting from an ordered trace, every tab-side tick remains immediately preceded by a cache update, and every cache update immediately followed by a tab-side tick. |
| `Controller.App.constructor` | applications/tari_console_wallet/src/ui/app.rs:66-120 | Resolves the custom peer from the store. Seeds the application state with the configured and custom peers. Creates the tabs container with the title and the selected Network tab pair. Starts with the quit flag clear and an empty trace. |
| `Controller.App.OnControlKey` | applications/tari_console_wallet/src/ui/app.rs:122-129 | Sets the quit flag for `q` and `c` and changes nothing else. Only the flag is in its frame. |
| `Controller.App.OnKey` | applications/tari_console_wallet/src/ui/app.rs:131-138 | The tab key appends `next`. Any other key is forwarded with the application state. Only the trace changes. |
| `Controller.App.OnUp` | applications/tari_console_wallet/src/ui/app.rs:140-142 | Forwards "up" to the tabs. Only the trace changes. |
| `Controller.App.OnDown` | applications/tari_console_wallet/src/ui/app.rs:144-146 | Forwards "down" to the tabs. Only the trace changes. |
| `Controller.App.OnRight` | applications/tari_console_wallet/src/ui/app.rs:148-150 | Only `next`. |
| `Controller.App.OnLeft` | applications/tari_console_wallet/src/ui/app.rs:152-154 | Only `previous`. |
| `Controller.App.OnEsc` | applications/tari_console_wallet/src/ui/app.rs:156-158 | Forwards escape to the tabs. Only the trace changes. |
| `Controller.App.OnBackspace` | applications/tari_console_wallet/src/ui/app.rs:160-162 | Forwards backspace to the tabs. Only the trace changes. |
| `Controller.App.OnTick` | applications/tari_console_wallet/src/ui/app.rs:164-167 | Appends the cache update, then the tab-side tick. Only the trace changes. |

## Left out

- `App::draw`: terminal layout through the `tui` library, with no behaviour beyond library calls.
- The base-node status widget (`BaseNode`): it is only created and drawn.
- The tokio `block_on` bridge in `on_tick`: the cache refresh is one recorded call that completes before the next one. Concurrency is not modelled.
- The parsing, encoding and cryptography inside `PublicKey::from_hex`, `Multiaddr` parsing, `NodeId::from_key`, `to_hex` and address display. These are foreign calls, given as the functions of `PeerLibrary`.
- The SQLite wallet store: each read is a given `Result<Option<string>, StoreError>` for the key. The async suspension of the reads is not modelled.
- The values of `PeerFlags::default()` and `PeerFeatures::COMMUNICATION_NODE`: their definitions live in the comms peer manager, which is not part of this model. The model takes them as given constants.
- Per-address connection statistics of a peer's address list (`address.into()`): an address list is a sequence of addresses.
- Log message texts: the resolver's outcome is a `Diagnostic` tag, and the start-up info line is the `PeerSource` of `Selection`.
- CustomBaseNode.GetCustomBaseNodePeerFromDb: the two read warnings print identical text carrying only the store error; the `key` of `ReadWarning` is the model's tag for which warning site fired, not logged content.
- `AppState::new`, `update_cache` and the tabs container with its tab components: their behaviour beyond "was called" is not visible. The model records the calls and the values they are created with (node identity, network and wallet handle are not modelled).
- Controller.DispatchRules: the active tab index, tab cycling and wrap-around are not stated. `next` and `previous` are recorded calls, because the tabs container's index arithmetic is not part of this model.
- The driving event loop that delivers events and watches the quit flag lives outside this file. `Controller.Run` stands for handling a sequence of events one at a time.
