/**
 * The shapes of the game server's JSON payloads that the core reads, the
 * requests it sends, and the response of a remote action, which is either
 * the data or the structured error the server returned.
 */
module Payloads {
  import opened Wrappers

  /** A JSON document that the core stores or forwards without inspecting it. */
  type Json = string

  datatype NavStatus = Docked | InOrbit | InTransit

  datatype Route = Route(origin: string, destination: string, departureTime: int, arrival: int)

  /** `nav`: where a ship is and what it is doing. */
  datatype NavData = NavData(
    systemSymbol: string,
    waypointSymbol: string,
    route: Route,
    status: NavStatus,
    flightMode: string)

  datatype Fuel = Fuel(current: nat, capacity: nat)

  datatype AgentData = AgentData(credits: int, shipCount: int)

  datatype TransactionData = TransactionData(
    waypointSymbol: string,
    shipSymbol: string,
    tradeSymbol: string,
    kind: string,
    units: nat,
    pricePerUnit: nat,
    totalPrice: nat,
    timestamp: int)

  datatype InventoryEntry = InventoryEntry(symbol: string, name: string, description: string, units: nat)

  /** `cargo`: capacity, units held and the itemised inventory. */
  datatype CargoData = CargoData(capacity: nat, units: nat, inventory: seq<InventoryEntry>)

  /** `cooldown`; `expiration` is absent when no cooldown is running. */
  datatype Cooldown = Cooldown(shipSymbol: string, totalSeconds: nat, remainingSeconds: nat, expiration: Option<int>)

  datatype NavigateResult = NavigateResult(fuel: Fuel, nav: NavData)

  datatype RefuelResult = RefuelResult(agent: AgentData, fuel: Fuel, transaction: TransactionData)

  /** The answer to a purchase or a sale. */
  datatype TradeResult = TradeResult(agent: AgentData, cargo: CargoData, transaction: TransactionData)

  /** A remote action's answer: the `data` payload, or a body holding an `error`. */
  datatype Response<+T> = Ok(payload: T) | Err(message: string)

  /** The flight modes the server accepts. */
  const FlightModes: seq<string> := ["DRIFT", "STEALTH", "CRUISE", "BURN"]

  /** The requests the core sends to the game server. */
  datatype Request =
    | OrbitShip(ship: string)
    | DockShip(ship: string)
    | SetFlightMode(ship: string, mode: string)
    | NavigateShip(ship: string, waypoint: string)
    | RefuelShip(ship: string, fromCargo: bool)
    | PurchaseCargo(ship: string, good: string, units: int)
    | SellCargo(ship: string, good: string, units: int)
    | ExtractResources(ship: string, survey: Option<Json>)
    | JettisonCargo(ship: string, good: string, units: int)
    | GetMarket(system: string, waypoint: string)
    | GetShipyard(system: string, waypoint: string)
    | GetJumpGate(system: string, waypoint: string)
    | GetConstructionSite(system: string, waypoint: string)
    | ListSystems
    | GetSystem(system: string)
    | ListWaypoints(system: string)
    | GetWaypoint(system: string, waypoint: string)

  /** Python truthiness of an optional integer argument: absent or zero is false. */
  predicate Truthy(units: Option<int>)
  {
    units.Some? && units.value != 0
  }
}
