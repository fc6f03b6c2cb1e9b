/**
 * The Django models of the local cache, as classes whose methods update
 * their fields in place: a ship's nav record, the agent, the ship with its
 * cargo items, a market, and the shared tables (`Store`) they write to.
 *
 * A remote action is given as the server's answer; every action returns the
 * requests it sent, so "no request was made" is part of its contract. What
 * the Python method returns is an `Outcome`: `Skipped` for the early `None`,
 * `Failed` for `False` after an error payload, `Done` for the success
 * message, `Raised` when it ends in an exception.
 */
module GalaxyModels {
  import opened Wrappers
  import opened Payloads
  import opened GalaxyCache

  datatype Outcome = Skipped | Failed(message: string) | Done | Raised(reason: string)

  // ---------------------------------------------------------------------
  // Payloads read only by the cache.

  /** An entry of a ship's `modules`; the optional keys may be absent. */
  datatype ModuleData = ModuleData(
    symbol: string, name: string, description: string,
    capacity: Option<nat>, range: Option<nat>, requirements: Option<Json>)

  datatype ModuleRow = ModuleRow(name: string, description: string, capacity: nat, range: nat, requirements: Json)

  /** An entry of a ship's `mounts`. */
  datatype MountData = MountData(
    symbol: string, name: string, description: string,
    strength: Option<nat>, deposits: Option<seq<string>>, requirements: Option<Json>)

  datatype MountRow = MountRow(name: string, description: string, strength: nat, deposits: Option<seq<string>>, requirements: Json)

  /** The ship fields `Ship.update` reads. */
  datatype ShipData = ShipData(
    crew: Json, frame: Json, reactor: Json, engine: Json, cooldown: Json,
    fuel: Fuel, nav: NavData, modules: seq<ModuleData>, mounts: seq<MountData>)

  /** An `imports`/`exports`/`exchange` listing of a market. */
  datatype TradeGoodData = TradeGoodData(symbol: string, name: string, description: string)

  /** A market payload; `transactions` and `tradeGoods` are present only to a ship at the market. */
  datatype MarketData = MarketData(
    imports: seq<TradeGoodData>,
    exports: seq<TradeGoodData>,
    exchange: seq<TradeGoodData>,
    transactions: Option<seq<TransactionData>>,
    tradeGoods: Option<seq<MarketGoodData>>)

  /** A new `ShipModule` row: absent keys keep the column defaults. */
  function ModuleRowOf(m: ModuleData): ModuleRow
  {
    ModuleRow(m.name, m.description, m.capacity.GetOr(0), m.range.GetOr(0), m.requirements.GetOr("{}"))
  }

  function MountRowOf(m: MountData): MountRow
  {
    MountRow(m.name, m.description, m.strength.GetOr(0), m.deposits, m.requirements.GetOr("{}"))
  }

  function ModuleEntries(modules: seq<ModuleData>): (r: seq<(string, ModuleRow)>)
    ensures |r| == |modules|
    ensures forall k | 0 <= k < |r| :: r[k] == (modules[k].symbol, ModuleRowOf(modules[k]))
  {
    seq(|modules|, k requires 0 <= k < |modules| => (modules[k].symbol, ModuleRowOf(modules[k])))
  }

  function MountEntries(mounts: seq<MountData>): (r: seq<(string, MountRow)>)
    ensures |r| == |mounts|
    ensures forall k | 0 <= k < |r| :: r[k] == (mounts[k].symbol, MountRowOf(mounts[k]))
  {
    seq(|mounts|, k requires 0 <= k < |mounts| => (mounts[k].symbol, MountRowOf(mounts[k])))
  }

  function ListingEntries(listings: seq<TradeGoodData>): (r: seq<(string, CatalogRow)>)
    ensures |r| == |listings|
    ensures forall k | 0 <= k < |r| :: r[k] == (listings[k].symbol, CatalogRow(listings[k].name, listings[k].description))
  {
    seq(|listings|, k requires 0 <= k < |listings| =>
      (listings[k].symbol, CatalogRow(listings[k].name, listings[k].description)))
  }

  // ---------------------------------------------------------------------
  // Waypoints.

  datatype WaypointRow = WaypointRow(symbol: string, kind: string, system: string, traits: set<string>, underConstruction: bool)

  /**
   * `Waypoint.has_trait`: the trait must exist in the `WaypointTrait` table
   * and be one of the waypoint's traits.
   */
  function HasTrait(traitTable: set<string>, wp: WaypointRow, traitSymbol: string): (r: bool)
    ensures r ==> traitSymbol in wp.traits
    ensures traitSymbol !in traitTable ==> !r
  {
    traitSymbol in traitTable && traitSymbol in wp.traits
  }

  /** A waypoint's traits are rows of the trait table, so the table lookup never decides. */
  lemma HasTraitOfLinkedTraits(traitTable: set<string>, wp: WaypointRow, traitSymbol: string)
    requires wp.traits <= traitTable
    ensures HasTrait(traitTable, wp, traitSymbol) <==> traitSymbol in wp.traits
  {
  }

  function Upper(c: char): char
  {
    if 'a' <= c <= 'z' then (c as int - 32) as char else c
  }

  function Lower(c: char): char
  {
    if 'A' <= c <= 'Z' then (c as int + 32) as char else c
  }

  /**
   * `type.replace("_", " ").capitalize()` on ASCII text: underscores become
   * spaces, the first character is upper-cased and the rest lower-cased.
   */
  function TypeDisplay(kind: string): (r: string)
    ensures |r| == |kind|
    ensures '_' !in r
    ensures forall i | 0 <= i < |r| :: Lower(r[i]) == Lower(if kind[i] == '_' then ' ' else kind[i])
    ensures |r| > 0 ==> !('a' <= r[0] <= 'z')
    ensures forall i | 1 <= i < |r| :: !('A' <= r[i] <= 'Z')
  {
    seq(|kind|, i requires 0 <= i < |kind| =>
      var c := if kind[i] == '_' then ' ' else kind[i];
      if i == 0 then Upper(c) else Lower(c))
  }

  /** A displayed type displays as itself. */
  lemma TypeDisplayIdempotent(kind: string)
    ensures TypeDisplay(TypeDisplay(kind)) == TypeDisplay(kind)
  {
    var once := TypeDisplay(kind);
    var twice := TypeDisplay(once);
    forall i | 0 <= i < |once| ensures twice[i] == once[i] {
      assert once[i] != '_';
    }
  }

  lemma TypeDisplayOfGasGiant()
    ensures TypeDisplay("GAS_GIANT") == "Gas giant"
  {
  }

  // ---------------------------------------------------------------------
  // The tables every model writes to.

  class Store {
    /** `System` symbols. */
    var systems: set<string>
    /** `Waypoint` rows by symbol. */
    var waypoints: map<string, WaypointRow>
    /** `WaypointTrait` symbols. */
    var waypointTraits: set<string>
    /** Waypoint symbols that have a `Market` row. */
    var markets: set<string>
    var tradeGoods: map<string, CatalogRow>
    var cargoTypes: map<string, CatalogRow>
    var shipModules: map<string, ModuleRow>
    var shipMounts: map<string, MountRow>
    var transactions: seq<Transaction>
    /** `MarketTradeGood` rows, one per (market, trade good, type). */
    var marketGoods: map<MarketGoodKey, MarketGoodRow>

    /** Whether `ShipNav.update(data)` finds the system and waypoint it links to. */
    predicate Resolves(data: NavData)
      reads this`systems, this`waypoints
    {
      data.systemSymbol in systems && data.waypointSymbol in waypoints
    }

    /**
     * One listing loop of `Market.update`: `get_or_create` of each listed
     * trade good. Every listing in `all` agrees with the table, so the get
     * fails only for a new symbol.
     */
    method GetOrCreateTradeGoods(listings: seq<TradeGoodData>, ghost all: seq<TradeGoodData>) returns (symbols: set<string>)
      requires Consistent(all) && Matches(tradeGoods, all)
      requires forall g | g in listings :: g in all
      modifies this`tradeGoods
      ensures Matches(tradeGoods, all)
      ensures symbols == Listed(listings)
      ensures tradeGoods == Register(old(tradeGoods), ListingEntries(listings))
    {
      ghost var catalog := tradeGoods;
      symbols := {};
      for i := 0 to |listings|
        invariant symbols == Listed(listings[..i])
        invariant tradeGoods == Register(catalog, ListingEntries(listings[..i]))
        invariant Matches(tradeGoods, all)
      {
        var g := listings[i];
        var row := CatalogRow(g.name, g.description);
        ListingStep(catalog, listings, i);
        if !(g.symbol in tradeGoods && tradeGoods[g.symbol] == row) {
          assert g in all && g.symbol !in tradeGoods;
          tradeGoods := tradeGoods[g.symbol := row];
        }
        symbols := symbols + {g.symbol};
      }
      assert listings[..|listings|] == listings;
    }

    /**
     * `Transaction.objects.create` from a remote trade: the market and the
     * trade good are looked up first, and a missing one raises.
     */
    method CreateTransaction(t: TransactionData) returns (created: bool)
      modifies this`transactions
      ensures created <==> t.waypointSymbol in markets && t.tradeSymbol in tradeGoods
      ensures transactions == if created then old(transactions) + [TransactionRow(t.waypointSymbol, t)]
                              else old(transactions)
    {
      created := t.waypointSymbol in markets && t.tradeSymbol in tradeGoods;
      if created {
        transactions := transactions + [TransactionRow(t.waypointSymbol, t)];
      }
    }
  }

  class Agent {
    var credits: int
    var shipCount: int

    function View(): AgentData
      reads this
    {
      AgentData(credits, shipCount)
    }

    /** `Agent.update`: credits and ship count from the payload. */
    method Update(data: AgentData)
      modifies this
      ensures View() == data
    {
      credits := data.credits;
      shipCount := data.shipCount;
    }
  }

  /**
   * The nav `ShipNav.update(data)` leaves behind: the payload when both
   * rows exist; the old nav with only the system assigned when the waypoint
   * row is missing; the old nav when the system row is missing.
   */
  function UpdatedNav(store: Store, before: NavData, data: NavData): (r: NavData)
    reads store`systems, store`waypoints
    ensures store.Resolves(data) ==> r == data
    ensures data.systemSymbol !in store.systems ==> r == before
  {
    if data.systemSymbol !in store.systems then before
    else if data.waypointSymbol !in store.waypoints then before.(systemSymbol := data.systemSymbol)
    else data
  }

  class ShipNav {
    var system: string
    var waypoint: string
    var route: Route
    var status: NavStatus
    var flightMode: string

    function View(): NavData
      reads this
    {
      NavData(system, waypoint, route, status, flightMode)
    }

    /**
     * `ShipNav.update`: the system is looked up, then the waypoint; either
     * lookup raises when the row is missing, the waypoint's after the system
     * has been assigned.
     */
    method Update(store: Store, data: NavData) returns (ok: bool)
      modifies this
      ensures ok <==> store.Resolves(data)
      ensures View() == UpdatedNav(store, old(View()), data)
    {
      if data.systemSymbol !in store.systems {
        return false;
      }
      system := data.systemSymbol;
      if data.waypointSymbol !in store.waypoints {
        return false;
      }
      waypoint := data.waypointSymbol;
      route := data.route;
      status := data.status;
      flightMode := data.flightMode;
      ok := true;
    }
  }

  class Ship {
    const symbol: string
    const nav: ShipNav
    const agent: Agent
    var fuel: Fuel
    var crew: Json
    var frame: Json
    var reactor: Json
    var engine: Json
    var cooldown: Json
    /** Symbols of the linked `ShipModule` and `ShipMount` rows. */
    var modules: set<string>
    var mounts: set<string>
    var cargoCapacity: nat
    var cargoUnits: nat
    /** The ship's `ShipCargoItem` rows: units by cargo type symbol. */
    var cargo: map<string, nat>

    /**
     * A ship row with its nav record and owner; the JSON columns start as
     * `{}`, and so does `fuel`, which `Fuel(0, 0)` stands for.
     */
    constructor(symbol: string, nav: ShipNav, agent: Agent)
      ensures this.symbol == symbol && this.nav == nav && this.agent == agent
      ensures fuel == Fuel(0, 0) && modules == {} && mounts == {}
      ensures cargoCapacity == 0 && cargoUnits == 0 && cargo == map[]
    {
      this.symbol := symbol;
      this.nav := nav;
      this.agent := agent;
      fuel := Fuel(0, 0);
      crew, frame, reactor, engine, cooldown := "{}", "{}", "{}", "{}", "{}";
      modules, mounts := {}, {};
      cargoCapacity, cargoUnits := 0, 0;
      cargo := map[];
    }

    predicate IsDocked()
      reads nav
    {
      nav.status == Docked
    }

    predicate IsInOrbit()
      reads nav
    {
      nav.status == InOrbit
    }

    /** `orbit`: only a docked ship asks the server; the answer's `nav` is stored. */
    method Orbit(store: Store, response: Response<NavData>) returns (outcome: Outcome, calls: seq<Request>)
      modifies nav
      ensures old(nav.status) != Docked ==> outcome == Skipped && calls == [] && nav.View() == old(nav.View())
      ensures old(nav.status) == Docked ==> calls == [OrbitShip(symbol)] && outcome != Skipped
      ensures outcome == Done <==> old(nav.status) == Docked && response.Ok? && store.Resolves(response.payload)
      ensures outcome == Done ==> nav.View() == response.payload
      ensures old(nav.status) == Docked && response.Ok? ==> nav.View() == UpdatedNav(store, old(nav.View()), response.payload)
      ensures outcome != Done && outcome != Skipped ==> outcome.Raised?
      ensures response.Err? ==> nav.View() == old(nav.View())
    {
      if !IsDocked() {
        return Skipped, [];
      }
      calls := [OrbitShip(symbol)];
      match response
      case Err(_) =>
        outcome := Raised("HTTPError");
      case Ok(data) =>
        var ok := nav.Update(store, data);
        outcome := if ok then Done else Raised("DoesNotExist");
    }

    /** `dock`: only a ship in orbit asks the server; the answer's `nav` is stored. */
    method Dock(store: Store, response: Response<NavData>) returns (outcome: Outcome, calls: seq<Request>)
      modifies nav
      ensures old(nav.status) != InOrbit ==> outcome == Skipped && calls == [] && nav.View() == old(nav.View())
      ensures old(nav.status) == InOrbit ==> calls == [DockShip(symbol)] && outcome != Skipped
      ensures outcome == Done <==> old(nav.status) == InOrbit && response.Ok? && store.Resolves(response.payload)
      ensures outcome == Done ==> nav.View() == response.payload
      ensures old(nav.status) == InOrbit && response.Ok? ==> nav.View() == UpdatedNav(store, old(nav.View()), response.payload)
      ensures outcome != Done && outcome != Skipped ==> outcome.Raised?
      ensures response.Err? ==> nav.View() == old(nav.View())
    {
      if !IsInOrbit() {
        return Skipped, [];
      }
      calls := [DockShip(symbol)];
      match response
      case Err(_) =>
        outcome := Raised("HTTPError");
      case Ok(data) =>
        var ok := nav.Update(store, data);
        outcome := if ok then Done else Raised("DoesNotExist");
    }

    /** `flight_mode`: an unknown mode is refused before any request. */
    method FlightMode(store: Store, mode: string, response: Response<NavData>) returns (outcome: Outcome, calls: seq<Request>)
      modifies nav
      ensures mode !in FlightModes ==> outcome == Skipped && calls == [] && nav.View() == old(nav.View())
      ensures mode in FlightModes ==> calls == [SetFlightMode(symbol, mode)] && outcome != Skipped
      ensures outcome == Done <==> mode in FlightModes && response.Ok? && store.Resolves(response.payload)
      ensures outcome == Done ==> nav.View() == response.payload
      ensures outcome != Done && outcome != Skipped ==> outcome.Raised?
      ensures mode in FlightModes && response.Ok? ==> nav.View() == UpdatedNav(store, old(nav.View()), response.payload)
      ensures response.Err? ==> nav.View() == old(nav.View())
    {
      if mode !in FlightModes {
        return Skipped, [];
      }
      calls := [SetFlightMode(symbol, mode)];
      match response
      case Err(_) =>
        outcome := Raised("HTTPError");
      case Ok(data) =>
        var ok := nav.Update(store, data);
        outcome := if ok then Done else Raised("DoesNotExist");
    }

    /**
     * `navigate`: a ship not in orbit is first sent to orbit (which asks the
     * server only when docked); an error payload leaves fuel and nav as they
     * were after that step.
     */
    method Navigate(store: Store, waypoint: string, orbitResponse: Response<NavData>, response: Response<NavigateResult>)
      returns (outcome: Outcome, calls: seq<Request>)
      modifies this`fuel, nav
      ensures var orbits := old(nav.status) == Docked;
              var proceeds := !orbits || (orbitResponse.Ok? && store.Resolves(orbitResponse.payload));
              var navBefore := if orbits && orbitResponse.Ok? then UpdatedNav(store, old(nav.View()), orbitResponse.payload)
                               else old(nav.View());
              var prior := if orbits then [OrbitShip(symbol)] else [];
              && (!proceeds ==> outcome.Raised? && calls == prior && fuel == old(fuel) && nav.View() == navBefore)
              && (proceeds ==> calls == prior + [NavigateShip(symbol, waypoint)])
              && (proceeds && response.Err? ==>
                    outcome == Failed(response.message) && fuel == old(fuel) && nav.View() == navBefore)
              && (proceeds && response.Ok? ==>
                    && fuel == response.payload.fuel
                    && (outcome == Done <==> store.Resolves(response.payload.nav))
                    && nav.View() == UpdatedNav(store, navBefore, response.payload.nav))
    {
      calls := [];
      if !IsInOrbit() {
        var step;
        step, calls := Orbit(store, orbitResponse);
        if step.Raised? {
          return step, calls;
        }
      }
      calls := calls + [NavigateShip(symbol, waypoint)];
      match response
      case Err(message) =>
        outcome := Failed(message);
      case Ok(data) =>
        fuel := data.fuel;
        var ok := nav.Update(store, data.nav);
        outcome := if ok then Done else Raised("DoesNotExist");
    }

    /**
     * `refuel`: a ship not docked is first docked (which asks the server
     * only when in orbit). A truthy `units` raises while the request body is
     * built, before the request (`TypeError` on Python before 3.12, `KeyError`
     * from 3.12 on); an error payload changes nothing further;
     * otherwise fuel and agent are stored and one transaction is created.
     */
    method Refuel(store: Store, units: Option<int>, fromCargo: bool,
                  dockResponse: Response<NavData>, response: Response<RefuelResult>)
      returns (outcome: Outcome, calls: seq<Request>)
      modifies this`fuel, nav, agent, store`transactions
      ensures var docks := old(nav.status) == InOrbit;
              var proceeds := (!docks || (dockResponse.Ok? && store.Resolves(dockResponse.payload))) && !Truthy(units);
              var prior := if docks then [DockShip(symbol)] else [];
              && nav.View() == (if docks && dockResponse.Ok? then UpdatedNav(store, old(nav.View()), dockResponse.payload)
                                else old(nav.View()))
              && (!proceeds ==> outcome.Raised? && calls == prior)
              && (proceeds ==> calls == prior + [RefuelShip(symbol, fromCargo)])
              && (!proceeds || response.Err? ==>
                    fuel == old(fuel) && agent.View() == old(agent.View()) && store.transactions == old(store.transactions))
              && (proceeds && response.Err? ==> outcome == Failed(response.message))
              && (proceeds && response.Ok? ==>
                    var t := response.payload.transaction;
                    && fuel == response.payload.fuel
                    && agent.View() == response.payload.agent
                    && (outcome == Done <==> t.waypointSymbol in store.markets && t.tradeSymbol in store.tradeGoods)
                    && (outcome != Done ==> outcome.Raised?)
                    && store.transactions == if outcome == Done then old(store.transactions) + [TransactionRow(t.waypointSymbol, t)]
                                             else old(store.transactions))
    {
      calls := [];
      if !IsDocked() {
        var step;
        step, calls := Dock(store, dockResponse);
        if step.Raised? {
          return step, calls;
        }
      }
      if Truthy(units) {
        return Raised("TypeError"), calls;
      }
      calls := calls + [RefuelShip(symbol, fromCargo)];
      match response
      case Err(message) =>
        outcome := Failed(message);
      case Ok(data) =>
        fuel := data.fuel;
        agent.Update(data.agent);
        var created := store.CreateTransaction(data.transaction);
        outcome := if created then Done else Raised("DoesNotExist");
    }

    /**
     * `update`: the JSON columns and fuel are stored, then nav; the modules
     * and mounts are then relinked to exactly those listed, each catalog row
     * created on first sight.
     */
    method Update(store: Store, data: ShipData) returns (outcome: Outcome)
      modifies this`crew, this`frame, this`reactor, this`engine, this`cooldown, this`fuel
      modifies this`modules, this`mounts, nav, store`shipModules, store`shipMounts
      ensures crew == data.crew && frame == data.frame && reactor == data.reactor
      ensures engine == data.engine && cooldown == data.cooldown && fuel == data.fuel
      ensures outcome == Done <==> store.Resolves(data.nav)
      ensures outcome != Done ==>
        && outcome.Raised?
        && modules == old(modules) && mounts == old(mounts)
        && store.shipModules == old(store.shipModules) && store.shipMounts == old(store.shipMounts)
      ensures nav.View() == UpdatedNav(store, old(nav.View()), data.nav)
      ensures outcome == Done ==>
        && nav.View() == data.nav
        && modules == ModuleSymbols(data.modules)
        && mounts == MountSymbols(data.mounts)
        && store.shipModules == Register(old(store.shipModules), ModuleEntries(data.modules))
        && store.shipMounts == Register(old(store.shipMounts), MountEntries(data.mounts))
    {
      var ok := SaveColumns(store, data);
      if !ok {
        return Raised("DoesNotExist");
      }

      RelinkModules(store, data.modules);
      RelinkMounts(store, data.mounts);
      outcome := Done;
    }

    /** The first part of `update`: the JSON columns and fuel, then nav. */
    method SaveColumns(store: Store, data: ShipData) returns (ok: bool)
      modifies this`crew, this`frame, this`reactor, this`engine, this`cooldown, this`fuel, nav
      ensures crew == data.crew && frame == data.frame && reactor == data.reactor
      ensures engine == data.engine && cooldown == data.cooldown && fuel == data.fuel
      ensures ok <==> store.Resolves(data.nav)
      ensures nav.View() == UpdatedNav(store, old(nav.View()), data.nav)
    {
      crew, frame, reactor, engine, cooldown := data.crew, data.frame, data.reactor, data.engine, data.cooldown;
      fuel := data.fuel;
      ok := nav.Update(store, data.nav);
    }

    /** The `modules.clear()` and re-adding loop of `update`. */
    method RelinkModules(store: Store, list: seq<ModuleData>)
      modifies this`modules, store`shipModules
      ensures modules == ModuleSymbols(list)
      ensures store.shipModules == Register(old(store.shipModules), ModuleEntries(list))
    {
      ghost var catalog := store.shipModules;
      modules := {};
      var i := 0;
      while i < |list|
        invariant 0 <= i <= |list|
        invariant modules == ModuleSymbols(list[..i])
        invariant store.shipModules == Register(catalog, ModuleEntries(list[..i]))
      {
        var m := list[i];
        ModuleStep(catalog, list, i);
        if m.symbol !in store.shipModules {
          store.shipModules := store.shipModules[m.symbol := ModuleRowOf(m)];
        }
        modules := modules + {m.symbol};
        i := i + 1;
      }
      assert list[..i] == list;
    }

    /** The `mounts.clear()` and re-adding loop of `update`. */
    method RelinkMounts(store: Store, list: seq<MountData>)
      modifies this`mounts, store`shipMounts
      ensures mounts == MountSymbols(list)
      ensures store.shipMounts == Register(old(store.shipMounts), MountEntries(list))
    {
      ghost var catalog := store.shipMounts;
      mounts := {};
      var i := 0;
      while i < |list|
        invariant 0 <= i <= |list|
        invariant mounts == MountSymbols(list[..i])
        invariant store.shipMounts == Register(catalog, MountEntries(list[..i]))
      {
        var m := list[i];
        MountStep(catalog, list, i);
        if m.symbol !in store.shipMounts {
          store.shipMounts := store.shipMounts[m.symbol := MountRowOf(m)];
        }
        mounts := mounts + {m.symbol};
        i := i + 1;
      }
      assert list[..i] == list;
    }

    /**
     * `update_cargo`: capacity and units are stored; then each inventory
     * entry gets its cargo type (created on first sight) and its item,
     * created or set to the entry's units, and after each entry the items
     * whose type the snapshot does not list are deleted. An empty inventory
     * deletes every item. The ship ends with exactly the snapshot's items.
     */
    method UpdateCargo(store: Store, data: CargoData)
      modifies this`cargoCapacity, this`cargoUnits, this`cargo, store`cargoTypes
      ensures cargoCapacity == data.capacity && cargoUnits == data.units
      ensures cargo == InventoryMap(data.inventory)
      ensures store.cargoTypes == Register(old(store.cargoTypes), CargoTypeEntries(data.inventory))
    {
      cargoCapacity := data.capacity;
      cargoUnits := data.units;
      var inventory := data.inventory;
      if inventory == [] {
        cargo := map[];
        return;
      }
      var current := Symbols(inventory);
      var i := 0;
      while i < |inventory|
        invariant 0 <= i <= |inventory|
        invariant cargoCapacity == data.capacity && cargoUnits == data.units
        invariant store.cargoTypes == Register(old(store.cargoTypes), CargoTypeEntries(inventory[..i]))
        invariant cargo == if i == 0 then old(cargo) else Restrict(old(cargo), current) + InventoryMap(inventory[..i])
      {
        var good := inventory[i];
        CargoTypeStep(old(store.cargoTypes), inventory, i);
        if good.symbol !in store.cargoTypes {
          store.cargoTypes := store.cargoTypes[good.symbol := CatalogRow(good.name, good.description)];
        }
        ReconcileStep(old(cargo), current, inventory, i);
        cargo := Restrict(cargo[good.symbol := good.units], current);
        i := i + 1;
      }
      assert inventory[..i] == inventory;
      KeysOfInventory(old(cargo), inventory);
    }

    /**
     * What a purchase or a sale answers with: the cargo snapshot, the agent,
     * and one new transaction (which raises when the market or trade good
     * is missing).
     */
    method ApplyTrade(store: Store, result: TradeResult) returns (outcome: Outcome)
      modifies this`cargoCapacity, this`cargoUnits, this`cargo, agent, store`cargoTypes, store`transactions
      ensures cargoCapacity == result.cargo.capacity && cargoUnits == result.cargo.units
      ensures cargo == InventoryMap(result.cargo.inventory)
      ensures store.cargoTypes == Register(old(store.cargoTypes), CargoTypeEntries(result.cargo.inventory))
      ensures agent.View() == result.agent
      ensures var t := result.transaction;
        && (outcome == Done <==> t.waypointSymbol in store.markets && t.tradeSymbol in store.tradeGoods)
        && (outcome != Done ==> outcome.Raised?)
        && store.transactions == if outcome == Done then old(store.transactions) + [TransactionRow(t.waypointSymbol, t)]
                                 else old(store.transactions)
    {
      UpdateCargo(store, result.cargo);
      agent.Update(result.agent);
      var created := store.CreateTransaction(result.transaction);
      outcome := if created then Done else Raised("DoesNotExist");
    }

    /**
     * `purchase_cargo`: a ship not docked is first docked; an error payload
     * changes nothing further.
     */
    method PurchaseCargo(store: Store, good: string, units: int,
                         dockResponse: Response<NavData>, response: Response<TradeResult>)
      returns (outcome: Outcome, calls: seq<Request>)
      modifies nav, this`cargoCapacity, this`cargoUnits, this`cargo, agent, store`cargoTypes, store`transactions
      ensures var docks := old(nav.status) == InOrbit;
              var proceeds := !docks || (dockResponse.Ok? && store.Resolves(dockResponse.payload));
              var prior := if docks then [DockShip(symbol)] else [];
              && nav.View() == (if docks && dockResponse.Ok? then UpdatedNav(store, old(nav.View()), dockResponse.payload)
                                else old(nav.View()))
              && (!proceeds ==> outcome.Raised? && calls == prior)
              && (proceeds ==> calls == prior + [Request.PurchaseCargo(symbol, good, units)])
              && (!proceeds || response.Err? ==> unchanged(this, agent, store))
              && (proceeds && response.Err? ==> outcome == Failed(response.message))
              && (proceeds && response.Ok? ==>
                    var r := response.payload;
                    var t := r.transaction;
                    && cargoCapacity == r.cargo.capacity && cargoUnits == r.cargo.units
                    && cargo == InventoryMap(r.cargo.inventory)
                    && store.cargoTypes == Register(old(store.cargoTypes), CargoTypeEntries(r.cargo.inventory))
                    && agent.View() == r.agent
                    && (outcome == Done <==> t.waypointSymbol in store.markets && t.tradeSymbol in store.tradeGoods)
                    && (outcome != Done ==> outcome.Raised?)
                    && store.transactions == if outcome == Done then old(store.transactions) + [TransactionRow(t.waypointSymbol, t)]
                                             else old(store.transactions))
    {
      calls := [];
      if !IsDocked() {
        var step;
        step, calls := Dock(store, dockResponse);
        if step.Raised? {
          return step, calls;
        }
      }
      calls := calls + [Request.PurchaseCargo(symbol, good, units)];
      match response
      case Err(message) =>
        outcome := Failed(message);
      case Ok(data) =>
        outcome := ApplyTrade(store, data);
    }

    /**
     * `ShipCargoItem.sell` for this ship's item of `cargoType`. It does
     * nothing unless the ship's waypoint is a marketplace, the ship is docked
     * and the item holds units; a falsy `units` sells the whole holding.
     * A ship with no waypoint row raises on the marketplace check.
     */
    method SellItem(store: Store, cargoType: string, units: Option<int>, response: Response<TradeResult>)
      returns (outcome: Outcome, calls: seq<Request>)
      requires cargoType in cargo
      modifies this`cargoCapacity, this`cargoUnits, this`cargo, agent, store`cargoTypes, store`transactions
      ensures nav.waypoint !in store.waypoints ==> outcome.Raised? && calls == [] && unchanged(this, agent, store)
      ensures var atMarket := nav.waypoint in store.waypoints
                && HasTrait(store.waypointTraits, store.waypoints[nav.waypoint], "MARKETPLACE");
              var sells := atMarket && nav.status == Docked && old(cargo[cargoType]) != 0;
              var amount := if Truthy(units) then units.value else old(cargo[cargoType]);
              && (nav.waypoint in store.waypoints && !sells ==> outcome == Skipped && calls == [] && unchanged(this, agent, store))
              && (sells ==> calls == [SellCargo(symbol, cargoType, amount)])
              && (sells && response.Err? ==> outcome == Failed(response.message) && unchanged(this, agent, store))
              && (sells && response.Ok? ==>
                    var r := response.payload;
                    var t := r.transaction;
                    && cargoCapacity == r.cargo.capacity && cargoUnits == r.cargo.units
                    && cargo == InventoryMap(r.cargo.inventory)
                    && store.cargoTypes == Register(old(store.cargoTypes), CargoTypeEntries(r.cargo.inventory))
                    && agent.View() == r.agent
                    && (outcome == Done <==> t.waypointSymbol in store.markets && t.tradeSymbol in store.tradeGoods)
                    && (outcome != Done ==> outcome.Raised?)
                    && store.transactions == if outcome == Done then old(store.transactions) + [TransactionRow(t.waypointSymbol, t)]
                                             else old(store.transactions))
    {
      if nav.waypoint !in store.waypoints {
        return Raised("AttributeError"), [];
      }
      var isMarket := HasTrait(store.waypointTraits, store.waypoints[nav.waypoint], "MARKETPLACE");
      if !isMarket || !IsDocked() || cargo[cargoType] == 0 {
        return Skipped, [];
      }
      var amount := if Truthy(units) then units.value else cargo[cargoType];
      calls := [SellCargo(symbol, cargoType, amount)];
      match response
      case Err(message) =>
        outcome := Failed(message);
      case Ok(data) =>
        outcome := ApplyTrade(store, data);
    }
  }

  /** The items of `m` whose type is in `keys`. */
  function Restrict(m: map<string, nat>, keys: set<string>): (r: map<string, nat>)
    ensures r.Keys == m.Keys * keys
    ensures forall k | k in r :: r[k] == m[k]
  {
    map k | k in m && k in keys :: m[k]
  }

  /** One turn of the reconciliation loop in `update_cargo`. */
  lemma ReconcileStep(before: map<string, nat>, current: set<string>, inventory: seq<InventoryEntry>, i: nat)
    requires i < |inventory| && current == Symbols(inventory)
    ensures var cargo := if i == 0 then before else Restrict(before, current) + InventoryMap(inventory[..i]);
            Restrict(cargo[inventory[i].symbol := inventory[i].units], current)
              == Restrict(before, current) + InventoryMap(inventory[..i + 1])
  {
    var good := inventory[i];
    assert inventory[..i + 1][..i] == inventory[..i];
    assert InventoryMap(inventory[..i + 1]) == InventoryMap(inventory[..i])[good.symbol := good.units];
    assert good in inventory;
    assert InventoryMap(inventory[..i]).Keys <= current by {
      forall e | e in inventory[..i] ensures e.symbol in current {
        assert e in inventory;
      }
    }
    if i == 0 {
      RestrictSet(before, current, good.symbol, good.units);
    } else {
      RestrictMerged(before, InventoryMap(inventory[..i]), current, good.symbol, good.units);
    }
  }

  /** Setting a kept key and then restricting is restricting and then setting it. */
  lemma RestrictSet(b: map<string, nat>, keys: set<string>, k: string, v: nat)
    requires k in keys
    ensures Restrict(b[k := v], keys) == Restrict(b, keys) + map[k := v]
  {
    var l := Restrict(b[k := v], keys);
    var r := Restrict(b, keys) + map[k := v];
    assert l.Keys == r.Keys;
    forall x | x in l ensures l[x] == r[x] {
    }
  }

  /** Restricting a merge whose added part lies inside the kept keys changes nothing. */
  lemma RestrictMerged(b: map<string, nat>, m: map<string, nat>, keys: set<string>, k: string, v: nat)
    requires m.Keys <= keys && k in keys
    ensures Restrict((Restrict(b, keys) + m)[k := v], keys) == Restrict(b, keys) + m[k := v]
  {
    var l := Restrict((Restrict(b, keys) + m)[k := v], keys);
    var r := Restrict(b, keys) + m[k := v];
    assert l.Keys == r.Keys;
    forall x | x in l ensures l[x] == r[x] {
    }
  }

  /** The symbols a ship's modules list names. */
  function ModuleSymbols(list: seq<ModuleData>): set<string>
  {
    set m | m in list :: m.symbol
  }

  function MountSymbols(list: seq<MountData>): set<string>
  {
    set m | m in list :: m.symbol
  }

  /** One turn of the module loop in `update`. */
  lemma ModuleStep(catalog: map<string, ModuleRow>, list: seq<ModuleData>, i: nat)
    requires i < |list|
    ensures ModuleSymbols(list[..i + 1]) == ModuleSymbols(list[..i]) + {list[i].symbol}
    ensures var m := list[i];
            var before := Register(catalog, ModuleEntries(list[..i]));
            Register(catalog, ModuleEntries(list[..i + 1]))
              == if m.symbol in before then before else before[m.symbol := ModuleRowOf(m)]
  {
    ModuleSymbolsSnoc(list, i);
    ModuleEntriesSnoc(list, i);
    RegisterSnoc(catalog, ModuleEntries(list[..i]), (list[i].symbol, ModuleRowOf(list[i])));
  }

  lemma ModuleSymbolsSnoc(list: seq<ModuleData>, i: nat)
    requires i < |list|
    ensures ModuleSymbols(list[..i + 1]) == ModuleSymbols(list[..i]) + {list[i].symbol}
  {
    assert list[..i + 1] == list[..i] + [list[i]];
  }

  lemma ModuleEntriesSnoc(list: seq<ModuleData>, i: nat)
    requires i < |list|
    ensures ModuleEntries(list[..i + 1]) == ModuleEntries(list[..i]) + [(list[i].symbol, ModuleRowOf(list[i]))]
  {
    var a := ModuleEntries(list[..i + 1]);
    var b := ModuleEntries(list[..i]) + [(list[i].symbol, ModuleRowOf(list[i]))];
    forall k | 0 <= k < |a| ensures a[k] == b[k] {
      assert list[..i + 1][k] == list[k];
    }
  }

  /** One turn of the mount loop in `update`. */
  lemma MountStep(catalog: map<string, MountRow>, list: seq<MountData>, i: nat)
    requires i < |list|
    ensures MountSymbols(list[..i + 1]) == MountSymbols(list[..i]) + {list[i].symbol}
    ensures var m := list[i];
            var before := Register(catalog, MountEntries(list[..i]));
            Register(catalog, MountEntries(list[..i + 1]))
              == if m.symbol in before then before else before[m.symbol := MountRowOf(m)]
  {
    MountSymbolsSnoc(list, i);
    MountEntriesSnoc(list, i);
    RegisterSnoc(catalog, MountEntries(list[..i]), (list[i].symbol, MountRowOf(list[i])));
  }

  lemma MountSymbolsSnoc(list: seq<MountData>, i: nat)
    requires i < |list|
    ensures MountSymbols(list[..i + 1]) == MountSymbols(list[..i]) + {list[i].symbol}
  {
    assert list[..i + 1] == list[..i] + [list[i]];
  }

  lemma MountEntriesSnoc(list: seq<MountData>, i: nat)
    requires i < |list|
    ensures MountEntries(list[..i + 1]) == MountEntries(list[..i]) + [(list[i].symbol, MountRowOf(list[i]))]
  {
    var a := MountEntries(list[..i + 1]);
    var b := MountEntries(list[..i]) + [(list[i].symbol, MountRowOf(list[i]))];
    forall k | 0 <= k < |a| ensures a[k] == b[k] {
      assert list[..i + 1][k] == list[k];
    }
  }

  /** One turn of the cargo type registration in `update_cargo`. */
  lemma CargoTypeStep(catalog: map<string, CatalogRow>, inventory: seq<InventoryEntry>, i: nat)
    requires i < |inventory|
    ensures var good := inventory[i];
            var before := Register(catalog, CargoTypeEntries(inventory[..i]));
            Register(catalog, CargoTypeEntries(inventory[..i + 1]))
              == if good.symbol in before then before else before[good.symbol := CatalogRow(good.name, good.description)]
  {
    var good := inventory[i];
    var e := (good.symbol, CatalogRow(good.name, good.description));
    assert inventory[..i + 1] == inventory[..i] + [good];
    assert CargoTypeEntries(inventory[..i + 1]) == CargoTypeEntries(inventory[..i]) + [e];
    RegisterSnoc(catalog, CargoTypeEntries(inventory[..i]), e);
  }

  /** Once every entry is applied, the stale items are gone. */
  lemma KeysOfInventory(before: map<string, nat>, inventory: seq<InventoryEntry>)
    requires |inventory| > 0
    ensures Restrict(before, Symbols(inventory)) + InventoryMap(inventory) == InventoryMap(inventory)
  {
  }

  // ---------------------------------------------------------------------
  // Markets.

  /** The symbols a list of listings names. */
  function Listed(listings: seq<TradeGoodData>): set<string>
  {
    set g | g in listings :: g.symbol
  }

  /**
   * `get_or_create(symbol, name, description)` finds the row for every
   * listing only when each listed symbol either is new or already has that
   * name and description, and all listings of one symbol agree; otherwise
   * creating the row breaks the unique symbol.
   */
  predicate Agrees(catalog: map<string, CatalogRow>, listings: seq<TradeGoodData>)
  {
    Consistent(listings) && Matches(catalog, listings)
  }

  /** All listings of one symbol carry the same name and description. */
  predicate Consistent(listings: seq<TradeGoodData>)
  {
    forall g, h | g in listings && h in listings && g.symbol == h.symbol :: g == h
  }

  /** Every listed symbol already in the catalog has the listed name and description. */
  predicate Matches(catalog: map<string, CatalogRow>, listings: seq<TradeGoodData>)
  {
    forall g | g in listings && g.symbol in catalog :: catalog[g.symbol] == CatalogRow(g.name, g.description)
  }

  /** The `imports`, `exports` and `exchange` listings, in the order the loops visit them. */
  function AllListings(data: MarketData): seq<TradeGoodData>
  {
    data.imports + data.exports + data.exchange
  }

  /** The trade goods the transaction and trade good loops look up are all in `known`. */
  predicate TradedGoodsKnown(known: set<string>, data: MarketData)
  {
    && (data.transactions.Some? ==> forall t | t in data.transactions.value :: t.tradeSymbol in known)
    && (data.tradeGoods.Some? ==> forall g | g in data.tradeGoods.value :: g.symbol in known)
  }

  /** The ledger rows a market payload's `transactions` describe, all at `market`. */
  function TransactionRows(market: string, ts: seq<TransactionData>): (r: seq<Transaction>)
    ensures |r| == |ts|
    ensures forall k | 0 <= k < |r| :: r[k] == TransactionRow(market, ts[k])
  {
    seq(|ts|, k requires 0 <= k < |ts| => TransactionRow(market, ts[k]))
  }

  class Market {
    /** The market's waypoint symbol, which identifies it. */
    const waypoint: string
    var imports: set<string>
    var exports: set<string>
    var exchange: set<string>

    constructor(waypoint: string)
      ensures this.waypoint == waypoint && imports == {} && exports == {} && exchange == {}
    {
      this.waypoint := waypoint;
      imports, exports, exchange := {}, {}, {};
    }

    /**
     * `Market.update`: the listed goods are added to the three relations
     * (nothing is removed), the visible transactions are recorded once
     * each, and every trade good row is upserted. The transaction and trade
     * good loops look the trade good up by symbol and expect it to exist.
     * A transaction row the ledger already holds twice makes
     * `get_or_create` raise `MultipleObjectsReturned`: the rows before it
     * stay recorded and the trade goods are not upserted.
     */
    method Update(store: Store, data: MarketData) returns (outcome: Outcome)
      requires Agrees(store.tradeGoods, AllListings(data))
      requires TradedGoodsKnown(store.tradeGoods.Keys + Listed(AllListings(data)), data)
      modifies this, store`tradeGoods, store`transactions, store`marketGoods
      ensures imports == old(imports) + Listed(data.imports)
      ensures exports == old(exports) + Listed(data.exports)
      ensures exchange == old(exchange) + Listed(data.exchange)
      ensures store.tradeGoods == Register(old(store.tradeGoods), ListingEntries(AllListings(data)))
      ensures data.transactions.None? ==> store.transactions == old(store.transactions) && outcome == Done
      ensures data.transactions.Some? ==>
        var rows := TransactionRows(waypoint, data.transactions.value);
        var stop := FirstRepeated(old(store.transactions), rows);
        store.transactions == RecordAll(old(store.transactions), rows[..stop])
        && outcome == if stop < |rows| then Raised("MultipleObjectsReturned") else Done
      ensures store.marketGoods == if data.tradeGoods.Some? && outcome == Done
        then UpsertGoods(old(store.marketGoods), waypoint, data.tradeGoods.value)
        else old(store.marketGoods)
    {
      ghost var catalog := store.tradeGoods;
      AddListings(store, data);
      KnownAfterListings(catalog, data);
      outcome := AddTrades(store, data);
    }

    /**
     * The `transactions` and `tradeGoods` parts of `Market.update`, each
     * run when present; the second is not reached when the first raises.
     */
    method AddTrades(store: Store, data: MarketData) returns (outcome: Outcome)
      requires TradedGoodsKnown(store.tradeGoods.Keys, data)
      modifies store`transactions, store`marketGoods
      ensures data.transactions.None? ==> store.transactions == old(store.transactions) && outcome == Done
      ensures data.transactions.Some? ==>
        var rows := TransactionRows(waypoint, data.transactions.value);
        var stop := FirstRepeated(old(store.transactions), rows);
        store.transactions == RecordAll(old(store.transactions), rows[..stop])
        && outcome == if stop < |rows| then Raised("MultipleObjectsReturned") else Done
      ensures store.marketGoods == if data.tradeGoods.Some? && outcome == Done
        then UpsertGoods(old(store.marketGoods), waypoint, data.tradeGoods.value)
        else old(store.marketGoods)
    {
      outcome := Done;
      if data.transactions.Some? {
        outcome := RecordTransactions(store, data.transactions.value);
      }
      if data.tradeGoods.Some? && outcome == Done {
        UpsertTradeGoods(store, data.tradeGoods.value);
      }
    }

    /** The `imports`, `exports` and `exchange` loops of `Market.update`. */
    method AddListings(store: Store, data: MarketData)
      requires Agrees(store.tradeGoods, AllListings(data))
      modifies this, store`tradeGoods
      ensures imports == old(imports) + Listed(data.imports)
      ensures exports == old(exports) + Listed(data.exports)
      ensures exchange == old(exchange) + Listed(data.exchange)
      ensures store.tradeGoods == Register(old(store.tradeGoods), ListingEntries(AllListings(data)))
    {
      ghost var all := AllListings(data);
      ghost var catalog := store.tradeGoods;
      ListingsInAll(data);
      var imported := store.GetOrCreateTradeGoods(data.imports, all);
      var exported := store.GetOrCreateTradeGoods(data.exports, all);
      var exchanged := store.GetOrCreateTradeGoods(data.exchange, all);
      ListingsRegistered(catalog, data.imports, data.exports, data.exchange);
      imports := imports + imported;
      exports := exports + exported;
      exchange := exchange + exchanged;
    }

    /**
     * The `transactions` loop of `Market.update`: `get_or_create` of each
     * row, which creates a missing row, gets a row held once and raises
     * `MultipleObjectsReturned` on a row held twice or more.
     */
    method RecordTransactions(store: Store, ts: seq<TransactionData>) returns (outcome: Outcome)
      requires forall t | t in ts :: t.tradeSymbol in store.tradeGoods
      modifies store`transactions
      ensures var rows := TransactionRows(waypoint, ts);
              var stop := FirstRepeated(old(store.transactions), rows);
              store.transactions == RecordAll(old(store.transactions), rows[..stop])
              && outcome == if stop < |rows| then Raised("MultipleObjectsReturned") else Done
    {
      ghost var ledger := store.transactions;
      ghost var rows := TransactionRows(waypoint, ts);
      for i := 0 to |ts|
        invariant store.transactions == RecordAll(ledger, rows[..i])
        invariant forall j | 0 <= j < i :: !Repeated(ledger, rows[j])
      {
        var t := ts[i];
        assert t.tradeSymbol in store.tradeGoods;
        var row := TransactionRow(waypoint, t);
        RecordKeepsRepeats(ledger, rows[..i], row);
        if Repeated(store.transactions, row) {
          FirstRepeatedAt(ledger, rows, i);
          return Raised("MultipleObjectsReturned");
        }
        RecordStep(ledger, rows, i);
        if row !in store.transactions {
          store.transactions := store.transactions + [row];
        }
      }
      FirstRepeatedAt(ledger, rows, |ts|);
      assert rows[..|ts|] == rows;
      return Done;
    }

    /**
     * The `tradeGoods` loop of `Market.update`: the row for (market, trade
     * good, type) is fetched or started with the column defaults, volume,
     * supply and prices are overwritten, and activity only when present.
     */
    method UpsertTradeGoods(store: Store, goods: seq<MarketGoodData>)
      requires forall g | g in goods :: g.symbol in store.tradeGoods
      modifies store`marketGoods
      ensures store.marketGoods == UpsertGoods(old(store.marketGoods), waypoint, goods)
    {
      ghost var rows := store.marketGoods;
      for i := 0 to |goods|
        invariant store.marketGoods == UpsertGoods(rows, waypoint, goods[..i])
      {
        var g := goods[i];
        assert g.symbol in store.tradeGoods;
        var key := MarketGoodKey(waypoint, g.symbol, g.kind);
        var row := if key in store.marketGoods then store.marketGoods[key] else MarketGoodRow(0, "", None, 0, 0);
        row := row.(tradeVolume := g.tradeVolume, supply := g.supply,
                    purchasePrice := g.purchasePrice, sellPrice := g.sellPrice);
        if g.activity.Some? {
          row := row.(activity := g.activity);
        }
        UpsertStep(rows, waypoint, goods, i);
        assert row == Apply(Lookup(store.marketGoods, key), g);
        store.marketGoods := store.marketGoods[key := row];
      }
      assert goods[..|goods|] == goods;
    }
  }

  /** One turn of the transactions loop. */
  lemma RecordStep(ledger: seq<Transaction>, rows: seq<Transaction>, i: nat)
    requires i < |rows|
    ensures var before := RecordAll(ledger, rows[..i]);
            RecordAll(ledger, rows[..i + 1]) == if rows[i] in before then before else before + [rows[i]]
  {
    assert rows[..i + 1][..i] == rows[..i];
  }

  /** One turn of the trade goods loop. */
  lemma UpsertStep(rows: map<MarketGoodKey, MarketGoodRow>, market: string, goods: seq<MarketGoodData>, i: nat)
    requires i < |goods|
    ensures var key := KeyOf(market, goods[i]);
            var before := UpsertGoods(rows, market, goods[..i]);
            UpsertGoods(rows, market, goods[..i + 1]) == before[key := Apply(Lookup(before, key), goods[i])]
  {
    assert goods[..i + 1][..i] == goods[..i];
  }

  /** One turn of a listings loop. */
  lemma ListingStep(catalog: map<string, CatalogRow>, listings: seq<TradeGoodData>, i: nat)
    requires i < |listings|
    ensures Listed(listings[..i + 1]) == Listed(listings[..i]) + {listings[i].symbol}
    ensures var g := listings[i];
            var before := Register(catalog, ListingEntries(listings[..i]));
            Register(catalog, ListingEntries(listings[..i + 1]))
              == if g.symbol in before then before else before[g.symbol := CatalogRow(g.name, g.description)]
  {
    ListedSnoc(listings, i);
    ListingEntriesSnoc(listings, i);
    RegisterSnoc(catalog, ListingEntries(listings[..i]), (listings[i].symbol, CatalogRow(listings[i].name, listings[i].description)));
  }

  lemma ListedSnoc(listings: seq<TradeGoodData>, i: nat)
    requires i < |listings|
    ensures Listed(listings[..i + 1]) == Listed(listings[..i]) + {listings[i].symbol}
  {
    assert listings[..i + 1] == listings[..i] + [listings[i]];
  }

  lemma ListingEntriesSnoc(listings: seq<TradeGoodData>, i: nat)
    requires i < |listings|
    ensures ListingEntries(listings[..i + 1])
         == ListingEntries(listings[..i]) + [(listings[i].symbol, CatalogRow(listings[i].name, listings[i].description))]
  {
    var a := ListingEntries(listings[..i + 1]);
    var b := ListingEntries(listings[..i]) + [(listings[i].symbol, CatalogRow(listings[i].name, listings[i].description))];
    forall k | 0 <= k < |a| ensures a[k] == b[k] {
      assert listings[..i + 1][k] == listings[k];
    }
  }

  lemma ListingEntriesAppend(a: seq<TradeGoodData>, b: seq<TradeGoodData>)
    ensures ListingEntries(a + b) == ListingEntries(a) + ListingEntries(b)
  {
    var l := ListingEntries(a + b);
    var r := ListingEntries(a) + ListingEntries(b);
    forall k | 0 <= k < |l| ensures l[k] == r[k] {
      if k < |a| {
        assert (a + b)[k] == a[k];
      } else {
        assert (a + b)[k] == b[k - |a|];
      }
    }
  }

  /** Every listed symbol has a trade good row once the listings are registered. */
  lemma ListedRegistered(catalog: map<string, CatalogRow>, listings: seq<TradeGoodData>)
    ensures forall x | x in Listed(listings) :: x in Register(catalog, ListingEntries(listings))
  {
    var entries := ListingEntries(listings);
    forall x | x in Listed(listings) ensures x in Register(catalog, entries) {
      var g :| g in listings && g.symbol == x;
      var k :| 0 <= k < |listings| && listings[k] == g;
      assert entries[k] in entries;
    }
  }

  lemma KnownAfterListings(catalog: map<string, CatalogRow>, data: MarketData)
    requires TradedGoodsKnown(catalog.Keys + Listed(AllListings(data)), data)
    ensures TradedGoodsKnown(Register(catalog, ListingEntries(AllListings(data))).Keys, data)
  {
    ListedRegistered(catalog, AllListings(data));
  }

  lemma ListingsInAll(data: MarketData)
    ensures forall g | g in data.imports :: g in AllListings(data)
    ensures forall g | g in data.exports :: g in AllListings(data)
    ensures forall g | g in data.exchange :: g in AllListings(data)
  {
  }

  /** The three listing loops register the listings in one sequence. */
  lemma ListingsRegistered(catalog: map<string, CatalogRow>, a: seq<TradeGoodData>, b: seq<TradeGoodData>, c: seq<TradeGoodData>)
    ensures Register(Register(Register(catalog, ListingEntries(a)), ListingEntries(b)), ListingEntries(c))
         == Register(catalog, ListingEntries(a + b + c))
  {
    ListingEntriesAppend(a, b);
    ListingEntriesAppend(a + b, c);
    RegisterAppend(catalog, ListingEntries(a), ListingEntries(b));
    RegisterAppend(catalog, ListingEntries(a) + ListingEntries(b), ListingEntries(c));
  }
}
