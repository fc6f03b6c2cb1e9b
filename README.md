# SpaceTraders client and cache — a Dafny model

This project models the core of a SpaceTraders client. SpaceTraders is a
game played through an HTTP API: an agent owns ships that fly between
waypoints of star systems, trade goods at markets and extract resources.
The repository holds two clients of that API:

- a Django application (`galaxy`) that mirrors the server's answers in a
  local database: ships with their nav record, modules, mounts and cargo
  items; markets with their listings, transactions and per-market trade
  goods; agents;
- a lighter wrapper (`spacetraders_api`) that keeps ships and waypoints as
  in-memory objects and caches systems and waypoints in its `Client`;

and a few shared utilities (`spacetraders/utils.py`, `galaxy/utils.py`).

The model has these modules:

| module | file | models |
|---|---|---|
| `Wrappers` | wrappers.dfy | `Option` |
| `Payloads` | payloads.dfy | the server's JSON payloads as datatypes; `Response` (`Ok(payload)` or `Err(message)`), the answer a request gets; `Request`, the requests a method sends |
| `Strings` | strings.dfy | `split` and `join` on strings, with their round trips |
| `Symbols` | symbols.dfy | the two derivations of a system symbol from a waypoint symbol |
| `Timing` | timing.dfy | `sleep_until` |
| `TradeGraph` | trade_graph.dfy | `get_graph` and `depth_first_search` |
| `GalaxyCache` | galaxy_cache.dfy | the database tables as maps and sequences keyed by their unique columns, and the pure functions that say what each cache update leaves in them |
| `GalaxyModels` | galaxy_models.dfy | the Django models `Agent`, `ShipNav`, `Ship`, `Market` as classes, with the tables in a `Store` object |
| `ApiModels` | api_models.dfy | the in-memory `Ship` and `Waypoint` of the API wrapper |
| `ApiClient` | api_client.dfy | `System`, `filter_waypoints`, and the caching `Client` |

The remote server is never called. Every method that talks to it takes the
server's answer as a parameter (a `Response`) and returns the list of
`Request`s it sent, so "no request is made" is a checkable statement. What
a Python method does on an error is modelled explicitly:

- `raise_for_status()` on an error answer, or a lookup of a missing row,
  ends the method with a `Raised(reason)` outcome;
- an `except` clause that hands back the error payload gives
  `ErrorBody(message)` (API wrapper) or `Failed(message)` (Django models,
  where the source prints the message and returns `False`);
- a guard that returns `None` before any request gives `Nothing` /
  `Skipped`.

Timestamps are integers counting microseconds since the epoch (UTC), the
resolution of Python's `datetime`, so that `timedelta.seconds` (which drops
whole days and fractions of a second) is modelled exactly.

Four defects of the source: the first three are kept as written, and the
fourth is excluded by a precondition (see "## Left out").

- `refuel` in both clients builds its request body with
  `data["units":units]`, which indexes a dict with a slice. Whenever
  `units` is truthy this raises before any refuel request is sent, so only
  a full refuel reaches the server. The models assume Python before 3.12,
  where a slice is not hashable and the error is `TypeError`, and return
  `Raised("TypeError")` in that case; from Python 3.12 on the same line
  raises `KeyError`.
- `Market.update` records each visible transaction with `get_or_create`,
  but `Transaction` has no unique constraint and trades are also created
  unconditionally, so the ledger can hold a row twice; `get_or_create` then
  raises `MultipleObjectsReturned`. The model stops at that row with
  `Raised("MultipleObjectsReturned")`, keeps the rows recorded before it
  and skips the trade goods loop.
- `list_systems`, `get_system`, `list_waypoints` and `get_waypoint` set a
  `system_symbol` key on each waypoint description before building the
  `Waypoint`. The field is declared under the alias `systemSymbol`, and
  nothing lets it be filled by its own name, so pydantic ignores that key:
  a waypoint keeps its description's own `systemSymbol`, or `None` when the
  description has none, and its market, shipyard, jump gate and
  construction requests then put `None` in the path. The model keeps this:
  `WaypointData` carries the optional `systemSymbol`, and requests show a
  missing one as `None`.
- `Market.update` looks up the `TradeGood` of every transaction and trade
  good by symbol and does not handle a missing one. The model requires that
  every such symbol is known, either already or through the listings of the
  same payload.

The models follow the source's form. Pure computations are functions, with
lemmas about them. Methods that assign fields or loop over data are methods
on classes, and their `ensures` state the new state in terms of a pure
function of the old state and the input. The lemmas about those functions
state the promised properties: idempotence, what an update leaves unchanged,
and which row wins.

## Model

| member | source | states |
|---|---|---|
| Strings.Split | spacetraders/utils.py:19 | `str.split` on one character: always at least one piece, no piece contains the separator, and there are two or more pieces exactly when the separator occurs |
| Strings.JoinSplit | spacetraders/utils.py:19 | joining the pieces of a split with the separator gives back the original string |
| Strings.SplitJoin | spacetraders_api/models.py:464-470 | splitting a join of separator-free parts gives back the first part and then every later part with the padding in front |
| Symbols.InferSystemSymbol | spacetraders/utils.py:16-19 | `infer_system_symbol` drops the last `-` segment: empty without a hyphen; otherwise result + "-" + last segment is the input, and the result's segments are the input's without the last |
| Symbols.SystemSymbolOf | spacetraders_api/client.py:282 | the `get_waypoint` derivation keeps the first two `-` segments; the result is a prefix of the input, followed there by a `-` when there were more than two segments |
| Symbols.DerivationsAgree | spacetraders_api/client.py:282 | the two derivations give the same system symbol exactly when the waypoint symbol has three segments (or is empty) |
| Timing.TimedeltaSeconds | spacetraders/utils.py:12 | `timedelta.seconds` of a span: below 86400, and the span is whole days plus that many seconds plus the sub-second remainder |
| Timing.SleepUntil | spacetraders/utils.py:5-13 | `None` exactly when the arrival is not after now; otherwise at least `buffer` and below 86400 + `buffer` |
| Timing.SleepUntilWithinDay | galaxy/utils.py:8-12 | for an arrival less than a day ahead, the pause is the whole seconds left plus `buffer` |
| Timing.SleepUntilMonotone | galaxy/utils.py:8-12 | for arrivals less than a day ahead, a later arrival never gives a shorter pause |
| Timing.SleepUntilDropsDays | spacetraders/utils.py:12 | an arrival one day later gives the same pause, because the days of the span are dropped |
| TradeGraph.GetGraph | spacetraders/utils.py:22-27 | the keys are exactly the pairs' start nodes, and `f` is in `graph[s]` exactly when `(s, f)` is one of the pairs |
| TradeGraph.DepthFirstSearch | spacetraders/utils.py:30-45 | the result holds exactly the simple paths of length at least 2 that start at `v` and follow edges of the graph, each once |
| TradeGraph.Explore | spacetraders/utils.py:36-45 | the recursive call for a simple path returns exactly its proper simple extensions along edges, each once (`seen` is always the path itself) |
| TradeGraph.ExtendByOne | spacetraders/utils.py:40-41 | appending an unseen successor to a simple path gives a simple path |
| TradeGraph.FewerUnvisited | spacetraders/utils.py:40-43 | the recursion terminates: each call leaves strictly fewer graph nodes off the path |
| TradeGraph.NoReturnToPath | spacetraders/utils.py:40 | a simple extension never continues with a node already on the path |
| TradeGraph.PrefixClosed | spacetraders/utils.py:39-45 | every prefix of length at least 2 of a returned path is itself returned |
| GalaxyCache.Register | galaxy/models.py:349-365 | get-or-create by symbol: existing rows are kept, every entry's symbol gets a row, and no other symbol does |
| GalaxyCache.RegisterAppend | galaxy/models.py:591-613 | registering two lists one after the other equals registering their concatenation |
| GalaxyCache.RegisterKnown | galaxy/models.py:364 | when every symbol already has a row, nothing changes |
| GalaxyCache.RegisterIdempotent | galaxy/models.py:349-365 | registering the same entries twice gives the same catalog as once |
| GalaxyCache.RegisterFirstWins | galaxy/models.py:350-362 | a new symbol's row comes from its first entry in the list |
| GalaxyCache.CargoTypeEntries | galaxy/models.py:399-406 | one cargo type entry per inventory entry, in order, with that entry's symbol |
| GalaxyCache.InventoryMap | galaxy/models.py:409-425 | the ship's cargo items are keyed by exactly the snapshot's symbols |
| GalaxyCache.InventoryMapUnits | galaxy/models.py:409-420 | an item holds the units of the last snapshot entry for its type |
| GalaxyCache.RecordAll | galaxy/models.py:615-629 | recording transactions with get-or-create when no row raises keeps the ledger as a prefix, adds every row, and adds nothing else |
| GalaxyCache.RecordKnown | galaxy/models.py:619-629 | transactions already recorded are not recorded again |
| GalaxyCache.RecordIdempotent | galaxy/models.py:615-629 | recording the same payload twice gives the same ledger as once |
| GalaxyCache.RecordKeepsDistinct | galaxy/models.py:619-629 | a ledger without repeated rows keeps none after recording |
| GalaxyCache.FirstRepeated | galaxy/models.py:619-629 | the first payload row the ledger holds at least twice, where `get_or_create` raises, or the payload's length when there is none; no earlier row is held twice |
| GalaxyCache.RecordKeepsRepeats | galaxy/models.py:619-629 | recording adds no second copy of a row, so a row is held twice after recording exactly when it was before; the rows before the first repeated one therefore never raise |
| GalaxyCache.NoRepeatsNeverRaises | galaxy/models.py:619-629 | a ledger without repeated rows never makes `get_or_create` raise |
| GalaxyCache.Apply | galaxy/models.py:633-649 | an upserted trade good row takes volume, supply and both prices from the payload, and activity only when the payload has one (otherwise the previous row's, none for a new row) |
| GalaxyCache.UpsertGoods | galaxy/models.py:631-649 | the rows after the upsert are keyed by the old keys plus one (market, trade good, type) key per payload good: one row per key, as the unique constraint at galaxy/models.py:680-681 demands |
| GalaxyCache.LastFor | galaxy/models.py:631-649 | the payload good a key's row ends with is one of the payload's goods, with that key |
| GalaxyCache.UpsertGoodsElsewhere | galaxy/models.py:631-649 | rows whose key the payload does not name are unchanged |
| GalaxyCache.UpsertGoodsAt | galaxy/models.py:633-649 | a named key's row holds the last payload good's volume, supply and prices, and the last activity the payload gives (else the prior one) |
| GalaxyCache.NoNameNoActivity | galaxy/models.py:646-647 | when the payload does not name a key, the activity stays the fallback |
| GalaxyCache.LastActivityIdempotent | galaxy/models.py:646-647 | applying the payload's activities twice gives the same activity as once |
| GalaxyCache.UpsertGoodsIdempotent | galaxy/models.py:631-649 | upserting the same trade goods twice gives the same rows as once |
| GalaxyModels.ModuleEntries | galaxy/models.py:349-362 | one module catalog entry per listed module, in order, with its columns and defaults |
| GalaxyModels.MountEntries | galaxy/models.py:369-382 | one mount catalog entry per listed mount, in order, with its columns and defaults |
| GalaxyModels.ListingEntries | galaxy/models.py:591-613 | one trade good entry per listing, in order, with its symbol, name and description |
| GalaxyModels.HasTrait | galaxy/models.py:138-142 | `has_trait` holds only for a trait of the waypoint, and never for a trait missing from the trait table |
| GalaxyModels.HasTraitOfLinkedTraits | galaxy/models.py:138-142 | when the waypoint's traits are rows of the trait table, `has_trait` holds exactly for the waypoint's traits |
| GalaxyModels.TypeDisplay | galaxy/models.py:130-132 | `type.replace("_", " ").capitalize()`: same length, no underscore, the same letters up to case, the first letter not lower case and the rest not upper case |
| GalaxyModels.TypeDisplayIdempotent | galaxy/models.py:130-132 | a displayed type displays as itself |
| GalaxyModels.TypeDisplayOfGasGiant | galaxy/models.py:130-132 | `GAS_GIANT` is displayed as `Gas giant` |
| GalaxyModels.Store.GetOrCreateTradeGoods | galaxy/models.py:591-597 | one listing loop registers every listed trade good and returns the listed symbols |
| GalaxyModels.Store.CreateTransaction | galaxy/models.py:317-328 | a transaction row is appended exactly when its market and trade good exist; otherwise nothing is written |
| GalaxyModels.Agent.Update | galaxy/models.py:53-57 | the agent's credits and ship count become the payload's |
| GalaxyModels.ShipNav.Update | galaxy/models.py:181-188 | succeeds exactly when the system and the waypoint exist; nav becomes `UpdatedNav` of the old nav and the payload |
| GalaxyModels.UpdatedNav | galaxy/models.py:181-188 | the nav `ShipNav.update` leaves: the payload when both rows exist, the old nav when the system is missing, the old nav with only the system assigned when the waypoint is missing |
| GalaxyModels.Ship.constructor | galaxy/models.py:224-243 | a ship with its nav record and agent, empty fuel, no modules, mounts or cargo |
| GalaxyModels.Ship.Orbit | galaxy/models.py:256-261 | only a docked ship sends the orbit request; any other ship is skipped with nav unchanged; an error answer raises with nav unchanged; a success answer updates nav as `ShipNav.update` does, which equals the answer when its rows exist |
| GalaxyModels.Ship.Dock | galaxy/models.py:267-272 | only a ship in orbit sends the dock request; any other ship is skipped with nav unchanged; an error answer raises with nav unchanged; a success answer updates nav as `ShipNav.update` does, which equals the answer when its rows exist |
| GalaxyModels.Ship.FlightMode | galaxy/models.py:274-283 | a mode outside DRIFT, STEALTH, CRUISE, BURN is skipped with no request and nav unchanged; otherwise one request; an error answer raises with nav unchanged; a success answer updates nav as `ShipNav.update` does |
| GalaxyModels.Ship.Navigate | galaxy/models.py:285-300 | a ship not in orbit orbits first, and a raise there stops with fuel unchanged and nav as the orbit left it; an error answer fails with fuel and nav as the orbit left them; a success stores fuel and updates nav from the answer as `ShipNav.update` does |
| GalaxyModels.Ship.Refuel | galaxy/models.py:302-330 | a ship not docked docks first, and nav is whatever that dock left; a truthy `units` raises before the request; an error answer changes neither fuel, agent nor transactions; a success stores fuel and agent and appends exactly one transaction copied from the answer |
| GalaxyModels.Ship.Update | galaxy/models.py:332-385 | the JSON columns and fuel are stored; nav is updated as `ShipNav.update` does; when nav's lookups succeed nav equals the payload's and the modules and mounts are exactly those listed, each catalog row created on first sight, otherwise they are unchanged |
| GalaxyModels.Ship.SaveColumns | galaxy/models.py:336-345 | the JSON columns and fuel are stored, then nav is updated as `ShipNav.update` does |
| GalaxyModels.Ship.RelinkModules | galaxy/models.py:347-365 | the ship's modules are exactly the listed symbols, and the module catalog gains the new ones |
| GalaxyModels.Ship.RelinkMounts | galaxy/models.py:367-385 | the ship's mounts are exactly the listed symbols, and the mount catalog gains the new ones |
| GalaxyModels.Ship.UpdateCargo | galaxy/models.py:387-425 | capacity and units are the snapshot's; the cargo items are exactly the snapshot's inventory with its units (none for an empty inventory); cargo types gain the new symbols |
| GalaxyModels.Ship.ApplyTrade | galaxy/models.py:436-451 | a trade answer stores the cargo snapshot and the agent and appends exactly one transaction copied from the answer |
| GalaxyModels.Ship.PurchaseCargo | galaxy/models.py:427-453 | a ship not docked docks first, and nav is whatever that dock left; an error answer changes nothing else; a success stores cargo and agent and appends exactly one transaction |
| GalaxyModels.Ship.SellItem | galaxy/models.py:486-518 | no request unless the waypoint is a marketplace, the ship is docked and the item holds units; a falsy `units` sells the whole holding; an error answer changes nothing; a success stores cargo and agent and appends one transaction |
| GalaxyModels.Restrict | galaxy/models.py:422-425 | deleting the items whose type the snapshot does not list keeps exactly the listed keys, with their units |
| GalaxyModels.ReconcileStep | galaxy/models.py:398-425 | one turn of the cargo loop: the items equal those of the entries seen so far, over the old items restricted to the snapshot's types |
| GalaxyModels.KeysOfInventory | galaxy/models.py:422-425 | once every entry is applied, the stale items are gone and the items are exactly the snapshot's |
| GalaxyModels.TransactionRows | galaxy/models.py:615-629 | one ledger row per payload transaction, in order, all at this market |
| GalaxyModels.Market.constructor | galaxy/models.py:565-569 | a market of its waypoint with no imports, exports or exchange |
| GalaxyModels.Market.Update | galaxy/models.py:589-649 | the three relations only grow, by exactly the listed symbols; the trade goods gain the listed ones; the transactions are recorded once each up to the first row held twice, where `MultipleObjectsReturned` is raised; the trade good rows are upserted only when present and nothing was raised |
| GalaxyModels.Market.AddListings | galaxy/models.py:591-613 | the imports, exports and exchange loops add exactly the listed symbols and register the listed trade goods |
| GalaxyModels.Market.AddTrades | galaxy/models.py:615-649 | the transactions and trade goods parts, each run only when the payload has it; a raise in the first skips the second |
| GalaxyModels.Market.RecordTransactions | galaxy/models.py:615-629 | the ledger becomes the old ledger with the payload transactions recorded once each, up to the first one held twice; the outcome raises `MultipleObjectsReturned` exactly when there is such a row |
| GalaxyModels.Market.UpsertTradeGoods | galaxy/models.py:631-649 | the trade good rows become the upsert of the payload's goods at this market |
| GalaxyModels.ListedRegistered | galaxy/models.py:591-613 | every listed symbol has a trade good row once the listings are registered |
| GalaxyModels.KnownAfterListings | galaxy/models.py:617-633 | trade goods known before or listed in the payload are in the table when the transactions and trade goods are looked up |
| GalaxyModels.ListingsRegistered | galaxy/models.py:591-613 | the three listing loops register the listings as one sequence |
| ApiModels.FirstUnits | spacetraders_api/models.py:261-265 | the units of the earliest inventory entry for the good; none exactly when no entry is for the good |
| ApiModels.Ship.constructor | spacetraders_api/models.py:15-29 | a ship with the given nav, fuel and cargo and no cooldown |
| ApiModels.Ship.FlightMode | spacetraders_api/models.py:47-62 | a mode outside DRIFT, STEALTH, CRUISE, BURN gives `None` with no request and nav unchanged; otherwise one request; an error raises; a success replaces nav |
| ApiModels.Ship.Orbit | spacetraders_api/models.py:98-105 | always one orbit request; an error raises with nav unchanged; a success replaces nav |
| ApiModels.Ship.Dock | spacetraders_api/models.py:107-114 | always one dock request; an error raises with nav unchanged; a success replaces nav |
| ApiModels.Ship.Navigate | spacetraders_api/models.py:64-96 | a ship not in orbit orbits first; an error payload is returned with fuel and nav as the orbit left them; a success replaces fuel and nav from the answer |
| ApiModels.Ship.SellCargo | spacetraders_api/models.py:116-146 | a ship not docked docks first; an error payload is returned with cargo unchanged; a success replaces cargo and returns the transaction |
| ApiModels.Ship.PurchaseCargo | spacetraders_api/models.py:344-374 | a ship not docked docks first; an error payload is returned with cargo unchanged; a success replaces cargo and returns the transaction |
| ApiModels.Ship.Refuel | spacetraders_api/models.py:148-172 | a ship not docked docks first; a truthy `units` raises `TypeError` before the request; otherwise one request, and a success replaces fuel |
| ApiModels.Ship.Extract | spacetraders_api/models.py:198-237 | a ship not in orbit orbits first; one extract request; a success replaces cargo and cooldown, and hands back the whole answer instead of its `data` when the cooldown has no expiration; an error payload leaves them |
| ApiModels.Ship.ExtractUntilFull | spacetraders_api/models.py:239-255 | a full hold stops; with room left, another extraction is queued after the seconds component of the cooldown left (below a day) when the extract answered with an expiration, and reading the cooldown of anything else raises `KeyError`; nav is as the orbit step left it, and cargo and cooldown are the answer's when the extract succeeded, else unchanged |
| ApiModels.Ship.JettisonCargo | spacetraders_api/models.py:257-286 | without truthy `units`, the units of the first inventory entry for the good; when that is none or zero, no request and cargo unchanged; otherwise one request, and a success replaces cargo |
| ApiModels.GoodSymbols | spacetraders_api/models.py:464-486 | the symbols of the listed goods, in order |
| ApiModels.ListingView | spacetraders_api/models.py:464-486 | the `", "`-joined view gives the symbols back: split at the commas, the first piece is the first symbol and every later piece is a space and the next symbol; no goods show as the empty string |
| ApiModels.Waypoint.constructor | spacetraders_api/models.py:396-414 | a waypoint with exactly the server's description, its system symbol included (none when the description has none), with nothing cached |
| ApiModels.Waypoint.HasTrait | spacetraders_api/models.py:425-431 | true exactly when some trait of the waypoint has the symbol |
| ApiModels.Waypoint.GetMarket | spacetraders_api/models.py:437-449 | without the MARKETPLACE trait, `None` and no request; otherwise one request, whose path holds the waypoint's own system symbol (`None` when it has none), and a success caches the market |
| ApiModels.Waypoint.GetShipyard | spacetraders_api/models.py:451-462 | without the SHIPYARD trait, `None` and no request; otherwise one request, whose path holds the waypoint's own system symbol (`None` when it has none), and its answer is returned |
| ApiModels.Waypoint.GetJumpGate | spacetraders_api/models.py:488-502 | a waypoint not of type JUMP_GATE gives `None` and no request; otherwise one request, whose path holds the waypoint's own system symbol (`None` when it has none), and a success caches the connections |
| ApiModels.Waypoint.GetConstructionSite | spacetraders_api/models.py:504-518 | a waypoint not under construction gives `None` and no request; otherwise one request, whose path holds the waypoint's own system symbol (`None` when it has none), and a success caches the site |
| ApiModels.Waypoint.Imports | spacetraders_api/models.py:464-470 | `None` exactly when no market is cached; otherwise the imported symbols joined by ", " |
| ApiModels.Waypoint.Exports | spacetraders_api/models.py:472-478 | `None` exactly when no market is cached; otherwise the exported symbols joined by ", " |
| ApiModels.Waypoint.Exchange | spacetraders_api/models.py:480-486 | `None` exactly when no market is cached; otherwise the exchanged symbols joined by ", " |
| ApiClient.System.constructor | spacetraders_api/models.py:521-528 | a system with its waypoints and the waypoint cache not yet filled |
| ApiClient.Views | spacetraders_api/client.py:251-258 | the descriptions the waypoints were built from, in order |
| ApiClient.OfTypeKeeps | spacetraders_api/client.py:271-272 | the type filter keeps, in order, a subsequence holding exactly the waypoints of that type |
| ApiClient.OfType | spacetraders_api/client.py:271-272 | each waypoint of the type occurs in the result as often as in the input, and no other waypoint occurs |
| ApiClient.WithTraitKeeps | spacetraders_api/client.py:273-274 | the trait filter keeps, in order, exactly the waypoints with that trait |
| ApiClient.WithTrait | spacetraders_api/client.py:273-274 | each waypoint with the trait occurs in the result as often as in the input, and no other waypoint occurs |
| ApiClient.SubsequenceTransitive | spacetraders_api/client.py:268-275 | a filter of a filter is still a subsequence of the input |
| ApiClient.FilterWaypointsSpec | spacetraders_api/client.py:268-275 | `filter_waypoints` returns a subsequence of its input holding exactly the waypoints that pass every given filter, and the input itself when no filter is given |
| ApiClient.FilterWaypoints | spacetraders_api/client.py:268-275 | each waypoint that passes every given filter occurs in the result as often as in the input, and no other waypoint occurs |
| ApiClient.SymbolLeqTotal | spacetraders_api/client.py:261 | any two symbols are ordered one way or the other |
| ApiClient.SymbolLeqTransitive | spacetraders_api/client.py:261 | the symbol order is transitive |
| ApiClient.Insert | spacetraders_api/client.py:261 | inserting into a sorted list keeps it sorted and adds exactly the one waypoint |
| ApiClient.SortBySymbol | spacetraders_api/client.py:261 | the waypoints sorted by symbol: sorted, and a permutation of the input |
| ApiClient.FirstSystem | spacetraders_api/client.py:199-201 | the first cached system with the symbol, if any; `None` exactly when no cached system has it |
| ApiClient.FirstWaypoint | spacetraders_api/client.py:286-289 | the first cached waypoint with the symbol, if any; `None` exactly when no cached waypoint has it |
| ApiClient.BuildWaypoints | spacetraders_api/client.py:251-258 | one new waypoint per description, in order, each keeping its description's own system symbol |
| ApiClient.BuildSystem | spacetraders_api/client.py:178-190 | a new system with one new waypoint per description, each keeping its description's own system symbol |
| ApiClient.SortedWaypoints | spacetraders_api/client.py:251-261 | the built waypoints are sorted by symbol and describe exactly the fetched waypoints |
| ApiClient.Client.constructor | spacetraders_api/client.py:44 | the system cache starts empty |
| ApiClient.Client.ListSystems | spacetraders_api/client.py:160-193 | a non-empty cache is returned with no request; otherwise one request, and a success caches and returns the systems built from the answer |
| ApiClient.Client.GetSystem | spacetraders_api/client.py:195-214 | a cached system is returned with no request; otherwise one request, and a success returns a new system built from the answer |
| ApiClient.Client.GetWaypoint | spacetraders_api/client.py:277-301 | the system symbol is the first two segments; a cached waypoint of a cached system with its waypoints filled is returned with no request; otherwise one request, and a success returns a new waypoint |
| ApiClient.Client.ListWaypoints | spacetraders_api/client.py:218-266 | filled cached waypoints are filtered with no waypoint request; otherwise the system is fetched and cached if needed, the fetched waypoints are sorted by symbol, stored on the system, marked cached and then filtered; no other system changes, and an error answer leaves the cached system as it was and a fetched one as built |

## Left out

- HTTP transport: requests, JSON bodies, authentication and the retry and rate-limit decorators are not modelled. Every answer is a parameter of the method that receives it.
- Paging: the `while data:` loops that fetch systems and waypoints page by page are folded into one answer holding all of them.
- The `threading.Timer` that runs the next extraction in `extract_until_full` is not modelled, only the decision to queue it and its delay. The current time is a parameter.
- `Waypoint.distance` uses floating-point `math.dist`, and it is not modelled.
- ApiModels.Waypoint.Coords: `coords` (spacetraders_api/models.py:420-423) is the pair `(x, y)`; it is modelled without a contract, since there is nothing to state beyond the pair itself.
- GalaxyModels.Ship.IsDocked / IsInOrbit: `is_docked` and `is_in_orbit` (galaxy/models.py:252-254, 263-265) are one-line status tests modelled without a contract of their own. The `ensures` of `Ship.Orbit`, `Ship.Dock`, `Ship.Navigate`, `Ship.Refuel` and `Ship.PurchaseCargo` state each test through `old(nav.status) == Docked` or `InOrbit`.
- Display helpers are not modelled: `__str__`/`__repr__`, `arrival_display`/`arrival`, `traits_display`, `*_display` on markets, and the returned message strings. Those methods return `Done` instead of the message.
- `survey`, `refine`, `get_cooldown`, `find_market_imports`, `find_trait`, `Ship.refresh` and the remaining client endpoints (`get_market`, agents, contracts, ships) are not modelled.
- GalaxyModels.TypeDisplay: `str.capitalize` is modelled on ASCII letters only. Python's Unicode case mapping is not modelled.
- GalaxyModels.Market.Update: a `get_or_create` whose symbol exists with a different name or description raises `IntegrityError` in the source; the model requires that the listings agree with the table and with each other.
- GalaxyModels.Market.Update: a missing `TradeGood` raises `DoesNotExist` in the source's transactions and trade goods loops; the model requires every such symbol to be known.
- ApiClient.Client.ListWaypoints / GetWaypoint: `System` (spacetraders_api/models.py:521-528) is a pydantic `BaseModel` that does not declare `waypoints_cached`. In the source, assigning it at spacetraders_api/client.py:264 raises `ValueError` after the request and the append, and reading it at spacetraders_api/client.py:230 and 288 raises `AttributeError`. The model keeps the evident intent instead: a plain field that starts false.
- A falsy `survey` argument to `extract` is modelled as `None`; an empty JSON object is not distinguished from a missing one.
- ApiClient.SortBySymbol: the sort is not stated to be stable; waypoint symbols are unique, so stability never shows.
- ApiClient.Client.ListWaypoints: the fetched descriptions are sorted before the waypoint objects are built, which gives the same list as building and then sorting by symbol.
- Python compares strings by code point; the symbol order is the lexicographic order on `char`, which is the same for the game's ASCII symbols.
- Python iterates a `set` in an order it chooses. `TradeGraph.Explore` picks each next successor nondeterministically, so the order of the returned paths is not modelled.
- Cargo units, credits and prices are unbounded integers; the database column widths are not modelled.
- TradeGraph.DepthFirstSearch: `graph[v]` on the `defaultdict` at spacetraders/utils.py:39 inserts `v` with an empty set when it is missing. The graph is a value in the model, so that insertion is not modelled; the search's answer is the same either way.
