/**
 * The console wallet's UI controller (`App`): it owns the quit flag, the cached
 * application state and the tabs container, and turns each input or timer
 * event into calls on them. The tabs container and the application state are
 * not part of this model; the controller's calls on them are recorded, in
 * order, as a trace of `Call`s.
 */
module Controller {
  import opened Wrappers
  import opened Peers
  import opened CustomBaseNode

  /** The events the driving loop delivers to the controller. */
  datatype Event =
    | ControlKey(c: char)
    | Key(c: char)
    | Up
    | Down
    | Right
    | Left
    | Esc
    | Backspace
    | Tick

  /** A call the controller makes on the tabs container or on the application state. */
  datatype Call =
    | TabsNext
    | TabsPrevious
    | TabsOnKey(key: char)
    | TabsOnUp
    | TabsOnDown
    | TabsOnEsc
    | TabsOnBackspace
    | TabsOnTick
    | UpdateCache

  /** The part of the controller its event handlers change. */
  datatype Session = Session(shouldQuit: bool, calls: seq<Call>)

  const TAB: char := '\t'

  predicate IsQuitKey(c: char) {
    c == 'q' || c == 'c'
  }

  /** The event asks the controller to quit. */
  predicate QuitRequested(e: Event) {
    e.ControlKey? && IsQuitKey(e.c)
  }

  /** The calls one event makes, in the order it makes them. */
  function Effects(e: Event): seq<Call> {
    match e
    case ControlKey(_) => []
    case Key(c) => if c == TAB then [TabsNext] else [TabsOnKey(c)]
    case Up => [TabsOnUp]
    case Down => [TabsOnDown]
    case Right => [TabsNext]
    case Left => [TabsPrevious]
    case Esc => [TabsOnEsc]
    case Backspace => [TabsOnBackspace]
    case Tick => [UpdateCache, TabsOnTick]
  }

  /** The controller after handling one event. */
  function Step(s: Session, e: Event): (r: Session)
    // the trace only grows: earlier calls are never undone
    ensures s.calls <= r.calls
    // the flag is raised exactly by a quit key and never lowered
    ensures r.shouldQuit <==> s.shouldQuit || QuitRequested(e)
  {
    match e
    case ControlKey(c) => if IsQuitKey(c) then Session(true, s.calls) else s
    case _ => Session(s.shouldQuit, s.calls + Effects(e))
  }

  /** The controller after handling a sequence of events, one at a time, in order. */
  function Run(s: Session, events: seq<Event>): (r: Session)
    ensures s.calls <= r.calls
    ensures s.shouldQuit ==> r.shouldQuit
    decreases |events|
  {
    if events == [] then s else Run(Step(s, events[0]), events[1..])
  }

  /** The calls a sequence of events makes, one event after another. */
  function AllEffects(events: seq<Event>): seq<Call>
    decreases |events|
  {
    if events == [] then [] else Effects(events[0]) + AllEffects(events[1..])
  }

  /**
   * Each tab-side tick is immediately preceded by a cache update, and each
   * cache update is immediately followed by a tab-side tick.
   */
  predicate TickOrdered(calls: seq<Call>) {
    && (forall i :: 0 <= i < |calls| && calls[i] == TabsOnTick ==> 0 < i && calls[i - 1] == UpdateCache)
    && (forall i :: 0 <= i < |calls| && calls[i] == UpdateCache ==> i + 1 < |calls| && calls[i + 1] == TabsOnTick)
  }

  // ---------------------------------------------------------------------------
  // Single-event dispatch rules

  /**
   * Tab navigation comes only from the tab key and the right and left arrows;
   * every other key is forwarded, and the tab key is not.
   */
  lemma DispatchRules(e: Event)
    ensures TabsNext in Effects(e) <==> e == Right || e == Key(TAB)
    ensures TabsPrevious in Effects(e) <==> e == Left
    ensures forall c :: TabsOnKey(c) in Effects(e) <==> e == Key(c) && c != TAB
    ensures e == Right ==> Effects(e) == [TabsNext]
    ensures e == Left ==> Effects(e) == [TabsPrevious]
    ensures Effects(e) == [] <==> e.ControlKey?
  {
  }

  /** A control key changes nothing but, for a quit key, the flag. */
  lemma ControlKeyOnlyTouchesQuit(s: Session, c: char)
    ensures Step(s, ControlKey(c)).calls == s.calls
    ensures !IsQuitKey(c) ==> Step(s, ControlKey(c)) == s
  {
  }

  /** A tick refreshes the cache strictly before the tabs see it. */
  lemma TickRefreshesFirst(s: Session)
    ensures Step(s, Tick).calls == s.calls + [UpdateCache, TabsOnTick]
  {
  }

  // ---------------------------------------------------------------------------
  // Properties of whole event sequences

  /**
   * Handling one more event after a run is one more `Step`: successive handler
   * calls on an `App`, each tied to `Step`, leave it in the state `Run` gives.
   */
  lemma {:induction false} RunThenStep(s: Session, events: seq<Event>, e: Event)
    ensures Run(s, events + [e]) == Step(Run(s, events), e)
    decreases |events|
  {
    if events != [] {
      assert (events + [e])[1..] == events[1..] + [e];
      RunThenStep(Step(s, events[0]), events[1..], e);
    } else {
      assert [e][1..] == [];
    }
  }

  /** Running events records exactly their effects, after what was there. */
  lemma {:induction false} RunRecordsAllEffects(s: Session, events: seq<Event>)
    ensures Run(s, events).calls == s.calls + AllEffects(events)
    decreases |events|
  {
    if events != [] {
      var e := events[0];
      RunRecordsAllEffects(Step(s, e), events[1..]);
      assert Step(s, e).calls == s.calls + Effects(e);
      assert s.calls + Effects(e) + AllEffects(events[1..]) == s.calls + (Effects(e) + AllEffects(events[1..]));
    }
  }

  /** The flag is set after a run exactly when it was set before or a quit key was among the events. */
  lemma {:induction false} RunQuitsIffQuitKey(s: Session, events: seq<Event>)
    ensures Run(s, events).shouldQuit <==>
              s.shouldQuit || exists i :: 0 <= i < |events| && QuitRequested(events[i])
    decreases |events|
  {
    if events != [] {
      var rest := events[1..];
      RunQuitsIffQuitKey(Step(s, events[0]), rest);
      if exists i :: 0 <= i < |rest| && QuitRequested(rest[i]) {
        var i :| 0 <= i < |rest| && QuitRequested(rest[i]);
        assert events[i + 1] == rest[i];
      }
      if exists i :: 0 <= i < |events| && QuitRequested(events[i]) {
        var i :| 0 <= i < |events| && QuitRequested(events[i]);
        if i > 0 {
          assert rest[i - 1] == events[i];
        }
      }
    }
  }

  /** Appending an ordered trace that does not open with a tab-side tick keeps the order. */
  lemma TickOrderedAppend(a: seq<Call>, b: seq<Call>)
    requires TickOrdered(a) && TickOrdered(b)
    requires b != [] ==> b[0] != TabsOnTick
    ensures TickOrdered(a + b)
  {
  }

  /** However events arrive, the tabs never see a tick before its cache refresh. */
  lemma {:induction false} RunKeepsTickOrder(s: Session, events: seq<Event>)
    requires TickOrdered(s.calls)
    ensures TickOrdered(Run(s, events).calls)
    decreases |events|
  {
    if events != [] {
      var e := events[0];
      var effects := Effects(e);
      assert TickOrdered(effects) by {
        if e == Tick {
          assert effects == [UpdateCache, TabsOnTick];
        }
      }
      TickOrderedAppend(s.calls, effects);
      assert TickOrdered(Step(s, e).calls);
      RunKeepsTickOrder(Step(s, e), events[1..]);
    }
  }

  // ---------------------------------------------------------------------------
  // The controller object

  /** The views the tabs container holds. */
  datatype TabView = TransactionsTab | SendReceiveTab | NetworkTab(publicKeyHex: string, address: string)

  datatype Tab = Tab(title: string, view: TabView)

  /** The tabs container as it is built at start-up: its title and its tabs, in cycling order. */
  datatype TabsContainer = TabsContainer(title: string, tabs: seq<Tab>)

  /** The container made at start-up; the Network tab shows the selected base node. */
  function InitialTabs(title: string, seed: Selection): (c: TabsContainer)
    ensures c.title == title
    ensures |c.tabs| == 3
    ensures c.tabs[2].view == NetworkTab(seed.publicKeyHex, seed.address)
  {
    TabsContainer(title,
      [ Tab("Transactions", TransactionsTab),
        Tab("Send/Receive", SendReceiveTab),
        Tab("Network", NetworkTab(seed.publicKeyHex, seed.address)) ])
  }

  /** What the application state is created with. */
  datatype AppStateSeed = AppStateSeed(baseNodeConfig: Peer, customPeer: Option<Peer>)

  /**
   * The controller. `shouldQuit` and `calls` are what the handlers change;
   * `appStateSeed` and `initialTabs` are what the application state and the
   * tabs container are created with. The ghost constants `resolution` and
   * `selection` are start-up records (the resolver's outcome and the peer
   * choice), not fields of the Rust struct.
   */
  class App {
    const title: string
    const appStateSeed: AppStateSeed
    const initialTabs: TabsContainer
    ghost const resolution: Resolution
    ghost const selection: Selection
    var shouldQuit: bool
    var calls: seq<Call>

    function Snapshot(): Session
      reads this
    {
      Session(shouldQuit, calls)
    }

    /**
     * Resolves the custom base node from the store, creates the application
     * state with it and the configured peer, and the tabs with the Network tab
     * showing whichever of the two was selected.
     */
    constructor (title: string, store: Store, lib: PeerLibrary, baseNodeConfig: Peer)
      ensures this.title == title
      ensures resolution == GetCustomBaseNodePeerFromDb(store, lib)
      ensures appStateSeed == AppStateSeed(baseNodeConfig, resolution.peer)
      ensures selection == NetworkTabSeed(lib, resolution.peer, baseNodeConfig)
      ensures initialTabs == InitialTabs(title, selection)
      ensures !shouldQuit && calls == []
    {
      this.title := title;
      var customPeer := GetCustomBaseNodePeerFromDb(store, lib);
      resolution := customPeer;
      appStateSeed := AppStateSeed(baseNodeConfig, customPeer.peer);
      var seed := NetworkTabSeed(lib, customPeer.peer, baseNodeConfig);
      selection := seed;
      initialTabs := InitialTabs(title, seed);
      shouldQuit := false;
      calls := [];
    }

    method OnControlKey(c: char)
      modifies this`shouldQuit
      ensures shouldQuit == (old(shouldQuit) || IsQuitKey(c))
      ensures Snapshot() == Step(old(Snapshot()), ControlKey(c))
    {
      if IsQuitKey(c) {
        shouldQuit := true;
      }
    }

    method OnKey(c: char)
      modifies this`calls
      ensures calls == old(calls) + (if c == TAB then [TabsNext] else [TabsOnKey(c)])
      ensures Snapshot() == Step(old(Snapshot()), Key(c))
    {
      if c == TAB {
        calls := calls + [TabsNext];
      } else {
        calls := calls + [TabsOnKey(c)];
      }
    }

    method OnUp()
      modifies this`calls
      ensures calls == old(calls) + [TabsOnUp]
      ensures Snapshot() == Step(old(Snapshot()), Up)
    {
      calls := calls + [TabsOnUp];
    }

    method OnDown()
      modifies this`calls
      ensures calls == old(calls) + [TabsOnDown]
      ensures Snapshot() == Step(old(Snapshot()), Down)
    {
      calls := calls + [TabsOnDown];
    }

    method OnRight()
      modifies this`calls
      ensures calls == old(calls) + [TabsNext]
      ensures Snapshot() == Step(old(Snapshot()), Right)
    {
      calls := calls + [TabsNext];
    }

    method OnLeft()
      modifies this`calls
      ensures calls == old(calls) + [TabsPrevious]
      ensures Snapshot() == Step(old(Snapshot()), Left)
    {
      calls := calls + [TabsPrevious];
    }

    method OnEsc()
      modifies this`calls
      ensures calls == old(calls) + [TabsOnEsc]
      ensures Snapshot() == Step(old(Snapshot()), Esc)
    {
      calls := calls + [TabsOnEsc];
    }

    method OnBackspace()
      modifies this`calls
      ensures calls == old(calls) + [TabsOnBackspace]
      ensures Snapshot() == Step(old(Snapshot()), Backspace)
    {
      calls := calls + [TabsOnBackspace];
    }

    /** Blocks on the cache refresh, then forwards the tick to the tabs. */
    method OnTick()
      modifies this`calls
      ensures calls == old(calls) + [UpdateCache, TabsOnTick]
      ensures Snapshot() == Step(old(Snapshot()), Tick)
    {
      calls := calls + [UpdateCache];
      calls := calls + [TabsOnTick];
    }
  }
}
