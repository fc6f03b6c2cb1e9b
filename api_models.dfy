/**
 * The in-memory wrapper objects of the API client: a `Ship` whose actions
 * keep its `nav`, `fuel`, `cargo` and `cooldown` in step with the server's
 * answers, and a `Waypoint` whose lookups are guarded by its traits and
 * type. Every action takes the server's answer as a parameter and returns
 * the requests it sent, so "no request" is observable.
 */
module ApiModels {
  import opened Wrappers
  import opened Payloads
  import opened Strings
  import opened Timing

  /** What an action hands back to its caller. */
  datatype Reply<+T> =
    | Nothing                     // `None`, returned before any request
    | Data(value: T)              // (part of) the `data` of a successful answer
    | ErrorBody(message: string)  // the error payload the action's `except` returns
    | Envelope(body: T)           // a successful answer's whole body, returned by the `except` after a later step raised
    | Raised(reason: string)      // an exception escapes the action

  /** The `data` of a successful extraction. */
  datatype ExtractResult = ExtractResult(yieldSymbol: string, yieldUnits: nat, cooldown: Cooldown, cargo: CargoData)

  /** Whether `extract_until_full` queues another extraction, and after how many seconds. */
  datatype Decision = Again(seconds: nat) | Full | Fails(reason: string)

  /**
   * The units `jettison_cargo` falls back on: those of the first inventory
   * entry for `good`, if any.
   */
  function FirstUnits(inventory: seq<InventoryEntry>, good: string): (r: Option<nat>)
    ensures r.None? <==> forall e | e in inventory :: e.symbol != good
    ensures forall i | 0 <= i < |inventory| && inventory[i].symbol == good ::
              (forall j | 0 <= j < i :: inventory[j].symbol != good) ==> r == Some(inventory[i].units)
  {
    if inventory == [] then None
    else if inventory[0].symbol == good then Some(inventory[0].units)
    else
      assert inventory == [inventory[0]] + inventory[1..];
      assert forall i | 1 <= i < |inventory| :: inventory[i] == inventory[1..][i - 1];
      FirstUnits(inventory[1..], good)
  }

  /** An optional integer, widened for Python's truthiness test. */
  function AsInt(units: Option<nat>): Option<int>
  {
    if units.Some? then Some(units.value) else None
  }

  class Ship {
    const symbol: string
    var nav: NavData
    var fuel: Fuel
    var cargo: CargoData
    var cooldown: Option<Cooldown>

    constructor (symbol: string, nav: NavData, fuel: Fuel, cargo: CargoData)
      ensures this.symbol == symbol && this.nav == nav && this.fuel == fuel && this.cargo == cargo
      ensures cooldown.None?
    {
      this.symbol := symbol;
      this.nav := nav;
      this.fuel := fuel;
      this.cargo := cargo;
      cooldown := None;
    }

    /** `flight_mode`: an unknown mode returns `None` before any request. */
    method FlightMode(mode: string, response: Response<NavData>) returns (reply: Reply<NavData>, calls: seq<Request>)
      modifies this`nav
      ensures mode !in FlightModes ==> reply == Nothing && calls == [] && nav == old(nav)
      ensures mode in FlightModes ==> calls == [SetFlightMode(symbol, mode)]
      ensures mode in FlightModes && response.Err? ==> reply == Raised("HTTPError") && nav == old(nav)
      ensures mode in FlightModes && response.Ok? ==> reply == Data(response.payload) && nav == response.payload
    {
      if mode !in FlightModes {
        return Nothing, [];
      }
      calls := [SetFlightMode(symbol, mode)];
      match response
      case Err(_) =>
        reply := Raised("HTTPError");
      case Ok(data) =>
        nav := data;
        reply := Data(nav);
    }

    /**
     * `orbit`: always asks the server; the answer's `nav` replaces the ship's.
     * The source returns the answer's `data` object `{"nav": ...}`; the reply
     * stands for it by its only field.
     */
    method Orbit(response: Response<NavData>) returns (reply: Reply<NavData>, calls: seq<Request>)
      modifies this`nav
      ensures calls == [OrbitShip(symbol)]
      ensures response.Err? ==> reply == Raised("HTTPError") && nav == old(nav)
      ensures response.Ok? ==> reply == Data(response.payload) && nav == response.payload
    {
      calls := [OrbitShip(symbol)];
      match response
      case Err(_) =>
        reply := Raised("HTTPError");
      case Ok(data) =>
        nav := data;
        reply := Data(data);
    }

    /**
     * `dock`: always asks the server; the answer's `nav` replaces the ship's.
     * The source returns the answer's `data` object `{"nav": ...}`; the reply
     * stands for it by its only field.
     */
    method Dock(response: Response<NavData>) returns (reply: Reply<NavData>, calls: seq<Request>)
      modifies this`nav
      ensures calls == [DockShip(symbol)]
      ensures response.Err? ==> reply == Raised("HTTPError") && nav == old(nav)
      ensures response.Ok? ==> reply == Data(response.payload) && nav == response.payload
    {
      calls := [DockShip(symbol)];
      match response
      case Err(_) =>
        reply := Raised("HTTPError");
      case Ok(data) =>
        nav := data;
        reply := Data(data);
    }

    /**
     * `navigate`: a ship not in orbit orbits first, and a failed orbit
     * escapes; an error payload leaves fuel and nav as the orbit left them.
     */
    method Navigate(waypoint: string, orbitResponse: Response<NavData>, response: Response<NavigateResult>)
      returns (reply: Reply<NavData>, calls: seq<Request>)
      modifies this`nav, this`fuel
      ensures var orbits := old(nav.status) != InOrbit;
              var prior := if orbits then [OrbitShip(symbol)] else [];
              var navBefore := if orbits && orbitResponse.Ok? then orbitResponse.payload else old(nav);
              && (orbits && orbitResponse.Err? ==>
                    reply == Raised("HTTPError") && calls == prior && nav == old(nav) && fuel == old(fuel))
              && (!(orbits && orbitResponse.Err?) ==> calls == prior + [NavigateShip(symbol, waypoint)])
              && (!(orbits && orbitResponse.Err?) && response.Err? ==>
                    reply == ErrorBody(response.message) && fuel == old(fuel) && nav == navBefore)
              && (!(orbits && orbitResponse.Err?) && response.Ok? ==>
                    reply == Data(response.payload.nav) && fuel == response.payload.fuel && nav == response.payload.nav)
    {
      calls := [];
      if nav.status != InOrbit {
        var step;
        step, calls := Orbit(orbitResponse);
        if step.Raised? {
          return step, calls;
        }
      }
      calls := calls + [NavigateShip(symbol, waypoint)];
      match response
      case Err(message) =>
        reply := ErrorBody(message);
      case Ok(data) =>
        fuel := data.fuel;
        nav := data.nav;
        reply := Data(nav);
    }

    /** `sell_cargo`: a ship not docked docks first; the answer's cargo replaces the ship's. */
    method SellCargo(good: string, units: int, dockResponse: Response<NavData>, response: Response<TradeResult>)
      returns (reply: Reply<TransactionData>, calls: seq<Request>)
      modifies this`nav, this`cargo
      ensures var docks := old(nav.status) != Docked;
              var prior := if docks then [DockShip(symbol)] else [];
              var navAfter := if docks && dockResponse.Ok? then dockResponse.payload else old(nav);
              && nav == navAfter
              && (docks && dockResponse.Err? ==> reply == Raised("HTTPError") && calls == prior && cargo == old(cargo))
              && (!(docks && dockResponse.Err?) ==> calls == prior + [Request.SellCargo(symbol, good, units)])
              && (!(docks && dockResponse.Err?) && response.Err? ==>
                    reply == ErrorBody(response.message) && cargo == old(cargo))
              && (!(docks && dockResponse.Err?) && response.Ok? ==>
                    reply == Data(response.payload.transaction) && cargo == response.payload.cargo)
    {
      calls := [];
      if nav.status != Docked {
        var step;
        step, calls := Dock(dockResponse);
        if step.Raised? {
          return Raised(step.reason), calls;
        }
      }
      calls := calls + [Request.SellCargo(symbol, good, units)];
      match response
      case Err(message) =>
        reply := ErrorBody(message);
      case Ok(data) =>
        cargo := data.cargo;
        reply := Data(data.transaction);
    }

    /** `purchase_cargo`: a ship not docked docks first; the answer's cargo replaces the ship's. */
    method PurchaseCargo(good: string, units: int, dockResponse: Response<NavData>, response: Response<TradeResult>)
      returns (reply: Reply<TransactionData>, calls: seq<Request>)
      modifies this`nav, this`cargo
      ensures var docks := old(nav.status) != Docked;
              var prior := if docks then [DockShip(symbol)] else [];
              var navAfter := if docks && dockResponse.Ok? then dockResponse.payload else old(nav);
              && nav == navAfter
              && (docks && dockResponse.Err? ==> reply == Raised("HTTPError") && calls == prior && cargo == old(cargo))
              && (!(docks && dockResponse.Err?) ==> calls == prior + [Request.PurchaseCargo(symbol, good, units)])
              && (!(docks && dockResponse.Err?) && response.Err? ==>
                    reply == ErrorBody(response.message) && cargo == old(cargo))
              && (!(docks && dockResponse.Err?) && response.Ok? ==>
                    reply == Data(response.payload.transaction) && cargo == response.payload.cargo)
    {
      calls := [];
      if nav.status != Docked {
        var step;
        step, calls := Dock(dockResponse);
        if step.Raised? {
          return Raised(step.reason), calls;
        }
      }
      calls := calls + [Request.PurchaseCargo(symbol, good, units)];
      match response
      case Err(message) =>
        reply := ErrorBody(message);
      case Ok(data) =>
        cargo := data.cargo;
        reply := Data(data.transaction);
    }

    /**
     * `refuel`: a ship not docked docks first. Asking for a number of units
     * indexes the request body with a slice, which raises before any refuel
     * request (`TypeError` on Python before 3.12, where a slice is not
     * hashable; `KeyError` from 3.12 on); so only a full refuel reaches the
     * server.
     */
    method Refuel(units: Option<int>, fromCargo: bool, dockResponse: Response<NavData>, response: Response<RefuelResult>)
      returns (reply: Reply<TransactionData>, calls: seq<Request>)
      modifies this`nav, this`fuel
      ensures var docks := old(nav.status) != Docked;
              var prior := if docks then [DockShip(symbol)] else [];
              var navAfter := if docks && dockResponse.Ok? then dockResponse.payload else old(nav);
              var reaches := !(docks && dockResponse.Err?) && !Truthy(units);
              && nav == navAfter
              && (docks && dockResponse.Err? ==> reply == Raised("HTTPError"))
              && (!(docks && dockResponse.Err?) && Truthy(units) ==> reply == Raised("TypeError"))
              && (!reaches ==> calls == prior && fuel == old(fuel))
              && (reaches ==> calls == prior + [RefuelShip(symbol, fromCargo)])
              && (reaches && response.Err? ==> reply == ErrorBody(response.message) && fuel == old(fuel))
              && (reaches && response.Ok? ==> reply == Data(response.payload.transaction) && fuel == response.payload.fuel)
    {
      calls := [];
      if nav.status != Docked {
        var step;
        step, calls := Dock(dockResponse);
        if step.Raised? {
          return Raised(step.reason), calls;
        }
      }
      if Truthy(units) {
        return Raised("TypeError"), calls;
      }
      calls := calls + [RefuelShip(symbol, fromCargo)];
      match response
      case Err(message) =>
        reply := ErrorBody(message);
      case Ok(data) =>
        fuel := data.fuel;
        reply := Data(data.transaction);
    }

    /**
     * `extract`: a ship not in orbit orbits first; a successful answer
     * replaces the cargo and the cooldown. Parsing a cooldown without an
     * expiration then raises inside the `try`, so the whole answer comes
     * back instead of its `data`.
     */
    method Extract(survey: Option<Json>, orbitResponse: Response<NavData>, response: Response<ExtractResult>)
      returns (reply: Reply<ExtractResult>, calls: seq<Request>)
      modifies this`nav, this`cargo, this`cooldown
      ensures var orbits := old(nav.status) != InOrbit;
              var prior := if orbits then [OrbitShip(symbol)] else [];
              var navAfter := if orbits && orbitResponse.Ok? then orbitResponse.payload else old(nav);
              && nav == navAfter
              && (orbits && orbitResponse.Err? ==>
                    reply == Raised("HTTPError") && calls == prior && cargo == old(cargo) && cooldown == old(cooldown))
              && (!(orbits && orbitResponse.Err?) ==> calls == prior + [ExtractResources(symbol, survey)])
              && (!(orbits && orbitResponse.Err?) && response.Err? ==>
                    reply == ErrorBody(response.message) && cargo == old(cargo) && cooldown == old(cooldown))
              && (!(orbits && orbitResponse.Err?) && response.Ok? ==>
                    && reply == (if response.payload.cooldown.expiration.Some? then Data(response.payload)
                                 else Envelope(response.payload))
                    && cargo == response.payload.cargo
                    && cooldown == Some(response.payload.cooldown))
    {
      calls := [];
      if nav.status != InOrbit {
        var step;
        step, calls := Orbit(orbitResponse);
        if step.Raised? {
          return Raised(step.reason), calls;
        }
      }
      calls := calls + [ExtractResources(symbol, survey)];
      match response
      case Err(message) =>
        reply := ErrorBody(message);
      case Ok(data) =>
        cargo := data.cargo;
        cooldown := Some(data.cooldown);
        reply := if data.cooldown.expiration.Some? then Data(data) else Envelope(data);
    }

    /**
     * The decision `extract_until_full` takes after one extraction, at the
     * instant `now`: another extraction is queued exactly when the cargo
     * hold still has room, after the seconds component of the time left
     * on the cooldown. Reading the cooldown of anything but the `data` of
     * the answer (an error payload, or the whole answer `extract` hands
     * back when the cooldown has no expiration) raises `KeyError`.
     * The timer that runs the next extraction is not modelled.
     */
    method ExtractUntilFull(survey: Option<Json>, orbitResponse: Response<NavData>, response: Response<ExtractResult>, now: int)
      returns (decision: Decision, calls: seq<Request>)
      modifies this`nav, this`cargo, this`cooldown
      ensures var orbits := old(nav.status) != InOrbit;
              var extracted := !(orbits && orbitResponse.Err?);
              var room := cargo.capacity > cargo.units;
              && (!extracted ==> decision == Fails("HTTPError") && cargo == old(cargo))
              && (extracted ==> cargo == if response.Ok? then response.payload.cargo else old(cargo))
              && nav == (if orbits && orbitResponse.Ok? then orbitResponse.payload else old(nav))
              && cooldown == (if extracted && response.Ok? then Some(response.payload.cooldown) else old(cooldown))
              && (extracted && !room ==> decision == Full)
              && (extracted && room && response.Ok? && response.payload.cooldown.expiration.Some? ==>
                    decision == Again(TimedeltaSeconds(response.payload.cooldown.expiration.value - now)))
              && (extracted && room && !(response.Ok? && response.payload.cooldown.expiration.Some?) ==>
                    decision == Fails("KeyError"))
      ensures decision.Again? ==> cargo.capacity > cargo.units && decision.seconds < SecondsPerDay
    {
      var reply;
      reply, calls := Extract(survey, orbitResponse, response);
      if reply.Raised? {
        return Fails(reply.reason), calls;
      }
      if cargo.capacity - cargo.units > 0 {
        if reply.Data? && reply.value.cooldown.expiration.Some? {
          decision := Again(TimedeltaSeconds(reply.value.cooldown.expiration.value - now));
        } else {
          decision := Fails("KeyError");
        }
      } else {
        decision := Full;
      }
    }

    /**
     * `jettison_cargo`: without a (non-zero) number of units, the units of
     * the first inventory entry for the good; when that gives none or zero,
     * nothing is sent. The source returns the answer's `data` object
     * `{"cargo": ...}`; the reply stands for it by its only field.
     */
    method JettisonCargo(good: string, units: Option<int>, response: Response<CargoData>)
      returns (reply: Reply<CargoData>, calls: seq<Request>)
      modifies this`cargo
      ensures var amount := if Truthy(units) then units else AsInt(FirstUnits(old(cargo.inventory), good));
              && (!Truthy(amount) ==> reply == Nothing && calls == [] && cargo == old(cargo))
              && (Truthy(amount) ==> calls == [Request.JettisonCargo(symbol, good, amount.value)])
              && (Truthy(amount) && response.Err? ==> reply == ErrorBody(response.message) && cargo == old(cargo))
              && (Truthy(amount) && response.Ok? ==> reply == Data(response.payload) && cargo == response.payload)
    {
      var amount := units;
      if !Truthy(amount) {
        var inventory := cargo.inventory;
        var i := 0;
        while i < |inventory|
          invariant 0 <= i <= |inventory|
          invariant amount == units
          invariant FirstUnits(inventory, good) == FirstUnits(inventory[i..], good)
        {
          if inventory[i].symbol == good {
            amount := Some(inventory[i].units);
            break;
          }
          assert inventory[i..][1..] == inventory[i + 1..];
          i := i + 1;
        }
        if i == |inventory| {
          assert inventory[i..] == [];
        } else {
          assert amount == AsInt(FirstUnits(inventory, good));
        }
      }
      if !Truthy(amount) {
        return Nothing, [];
      }
      calls := [Request.JettisonCargo(symbol, good, amount.value)];
      match response
      case Err(message) =>
        reply := ErrorBody(message);
      case Ok(data) =>
        cargo := data;
        reply := Data(data);
    }
  }

  datatype WaypointTrait = WaypointTrait(symbol: string, name: string, description: string)

  /** A market listing: one good, with the symbol the views show. */
  datatype Good = Good(symbol: string, name: string, description: string)

  /** The cached `market` of a waypoint. */
  datatype MarketView = MarketView(imports: seq<Good>, exports: seq<Good>, exchange: seq<Good>)

  /**
   * A waypoint as the server describes it; `systemSymbol` is the
   * description's own `systemSymbol` key, `None` when it has none.
   */
  datatype WaypointData = WaypointData(
    symbol: string,
    kind: string,
    systemSymbol: Option<string>,
    x: int,
    y: int,
    traits: seq<WaypointTrait>,
    isUnderConstruction: bool)

  /** Some trait in `traits` has the symbol. */
  predicate Carries(traits: seq<WaypointTrait>, traitSymbol: string)
  {
    exists t | t in traits :: t.symbol == traitSymbol
  }

  /** The symbols of the goods, in order. */
  function GoodSymbols(goods: seq<Good>): (r: seq<string>)
    ensures |r| == |goods|
    ensures forall k | 0 <= k < |goods| :: r[k] == goods[k].symbol
  {
    seq(|goods|, k requires 0 <= k < |goods| => goods[k].symbol)
  }

  /**
   * `", ".join` of the listed symbols. The view gives the symbols back:
   * split at the commas, the first piece is the first symbol and every
   * later piece is a space and the next one; no goods show as "".
   */
  function ListingView(goods: seq<Good>): (r: string)
    ensures goods == [] ==> r == ""
    ensures |goods| >= 1 && (forall g | g in goods :: ',' !in g.symbol) ==>
              var pieces := Split(r, ',');
              && |pieces| == |goods|
              && pieces[0] == goods[0].symbol
              && forall k | 1 <= k < |goods| :: pieces[k] == " " + goods[k].symbol
  {
    var symbols := GoodSymbols(goods);
    if |goods| >= 1 && forall g | g in goods :: ',' !in g.symbol then
      assert forall k | 0 <= k < |symbols| :: ',' !in symbols[k] by {
        forall k | 0 <= k < |symbols| ensures ',' !in symbols[k] {
          assert goods[k] in goods;
        }
      }
      assert [','] + " " == ", ";
      SplitJoin(symbols, ',', " ");
      Join(symbols, ", ")
    else
      Join(symbols, ", ")
  }

  /** How an f-string shows an optional symbol: `None` when it is missing. */
  function Shown(symbol: Option<string>): string
  {
    if symbol.Some? then symbol.value else "None"
  }

  class Waypoint {
    const symbol: string
    const kind: string
    /**
     * The aliased `system_symbol` field. It takes the description's
     * `systemSymbol`; the `system_symbol` key the client adds to a
     * description is not that alias, so it is ignored.
     */
    const systemSymbol: Option<string>
    const x: int
    const y: int
    const traits: seq<WaypointTrait>
    const isUnderConstruction: bool
    var market: Option<MarketView>
    var jumpGateConnections: seq<string>
    var constructionSite: Option<Json>

    /** A waypoint built from the server's description. */
    constructor (data: WaypointData)
      ensures View() == data
      ensures market.None? && jumpGateConnections == [] && constructionSite.None?
    {
      symbol := data.symbol;
      kind := data.kind;
      systemSymbol := data.systemSymbol;
      x := data.x;
      y := data.y;
      traits := data.traits;
      isUnderConstruction := data.isUnderConstruction;
      market := None;
      jumpGateConnections := [];
      constructionSite := None;
    }

    /** The server's description this waypoint was built from. */
    function View(): WaypointData
    {
      WaypointData(symbol, kind, systemSymbol, x, y, traits, isUnderConstruction)
    }

    /** `coords`. */
    function Coords(): (int, int)
    {
      (x, y)
    }

    /** `has_trait`: a search of the traits for the symbol. */
    method HasTrait(traitSymbol: string) returns (found: bool)
      ensures found <==> Carries(traits, traitSymbol)
    {
      for i := 0 to |traits|
        invariant forall j | 0 <= j < i :: traits[j].symbol != traitSymbol
      {
        if traits[i].symbol == traitSymbol {
          return true;
        }
      }
      return false;
    }

    /** `get_market`: only a marketplace asks; the answer is cached on the waypoint. */
    method GetMarket(response: Response<MarketView>) returns (reply: Reply<MarketView>, calls: seq<Request>)
      modifies this`market
      ensures !Carries(traits, "MARKETPLACE") ==> reply == Nothing && calls == [] && market == old(market)
      ensures Carries(traits, "MARKETPLACE") ==> calls == [Request.GetMarket(Shown(systemSymbol), symbol)]
      ensures Carries(traits, "MARKETPLACE") && response.Err? ==> reply == Raised("HTTPError") && market == old(market)
      ensures Carries(traits, "MARKETPLACE") && response.Ok? ==>
        reply == Data(response.payload) && market == Some(response.payload)
    {
      var marketplace := HasTrait("MARKETPLACE");
      if !marketplace {
        return Nothing, [];
      }
      calls := [Request.GetMarket(Shown(systemSymbol), symbol)];
      match response
      case Err(_) =>
        reply := Raised("HTTPError");
      case Ok(data) =>
        market := Some(data);
        reply := Data(data);
    }

    /** `get_shipyard`: only a waypoint with a shipyard asks; nothing is cached. */
    method GetShipyard(response: Response<Json>) returns (reply: Reply<Json>, calls: seq<Request>)
      ensures !Carries(traits, "SHIPYARD") ==> reply == Nothing && calls == []
      ensures Carries(traits, "SHIPYARD") ==> calls == [Request.GetShipyard(Shown(systemSymbol), symbol)]
      ensures Carries(traits, "SHIPYARD") ==> reply == if response.Ok? then Data(response.payload) else Raised("HTTPError")
    {
      var shipyard := HasTrait("SHIPYARD");
      if !shipyard {
        return Nothing, [];
      }
      calls := [Request.GetShipyard(Shown(systemSymbol), symbol)];
      reply := if response.Ok? then Data(response.payload) else Raised("HTTPError");
    }

    /** `get_jump_gate`: only a jump gate asks; its connections are cached. */
    method GetJumpGate(response: Response<seq<string>>) returns (reply: Reply<seq<string>>, calls: seq<Request>)
      modifies this`jumpGateConnections
      ensures kind != "JUMP_GATE" ==> reply == Nothing && calls == [] && jumpGateConnections == old(jumpGateConnections)
      ensures kind == "JUMP_GATE" ==> calls == [Request.GetJumpGate(Shown(systemSymbol), symbol)]
      ensures kind == "JUMP_GATE" && response.Err? ==>
        reply == Raised("HTTPError") && jumpGateConnections == old(jumpGateConnections)
      ensures kind == "JUMP_GATE" && response.Ok? ==>
        reply == Data(response.payload) && jumpGateConnections == response.payload
    {
      if kind != "JUMP_GATE" {
        return Nothing, [];
      }
      calls := [Request.GetJumpGate(Shown(systemSymbol), symbol)];
      match response
      case Err(_) =>
        reply := Raised("HTTPError");
      case Ok(data) =>
        jumpGateConnections := data;
        reply := Data(data);
    }

    /** `get_construction_site`: only a waypoint under construction asks; the site is cached. */
    method GetConstructionSite(response: Response<Json>) returns (reply: Reply<Json>, calls: seq<Request>)
      modifies this`constructionSite
      ensures !isUnderConstruction ==> reply == Nothing && calls == [] && constructionSite == old(constructionSite)
      ensures isUnderConstruction ==> calls == [Request.GetConstructionSite(Shown(systemSymbol), symbol)]
      ensures isUnderConstruction && response.Err? ==>
        reply == Raised("HTTPError") && constructionSite == old(constructionSite)
      ensures isUnderConstruction && response.Ok? ==>
        reply == Data(response.payload) && constructionSite == Some(response.payload)
    {
      if !isUnderConstruction {
        return Nothing, [];
      }
      calls := [Request.GetConstructionSite(Shown(systemSymbol), symbol)];
      match response
      case Err(_) =>
        reply := Raised("HTTPError");
      case Ok(data) =>
        constructionSite := Some(data);
        reply := Data(data);
    }

    /** `imports`: `None` until a market is cached, then the imported symbols in order. */
    function Imports(): (r: Option<string>)
      reads this`market
      ensures r.None? <==> market.None?
      ensures r.Some? ==> r.value == ListingView(market.value.imports)
    {
      if market.None? then None else Some(ListingView(market.value.imports))
    }

    /** `exports`: `None` until a market is cached, then the exported symbols in order. */
    function Exports(): (r: Option<string>)
      reads this`market
      ensures r.None? <==> market.None?
      ensures r.Some? ==> r.value == ListingView(market.value.exports)
    {
      if market.None? then None else Some(ListingView(market.value.exports))
    }

    /** `exchange`: `None` until a market is cached, then the exchanged symbols in order. */
    function Exchange(): (r: Option<string>)
      reads this`market
      ensures r.None? <==> market.None?
      ensures r.Some? ==> r.value == ListingView(market.value.exchange)
    {
      if market.None? then None else Some(ListingView(market.value.exchange))
    }
  }
}
