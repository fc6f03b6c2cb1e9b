/**
 * The API client's system and waypoint cache: `list_systems`, `get_system`,
 * `list_waypoints` and `get_waypoint` answer from the cached systems when
 * they can and otherwise fetch, and `filter_waypoints` narrows a list of
 * waypoints by type and trait. Paging is folded into one fetch per list.
 */
module ApiClient {
  import opened Wrappers
  import opened Payloads
  import opened Symbols
  import opened ApiModels

  /** A system as the server describes it. */
  datatype SystemData = SystemData(symbol: string, waypoints: seq<WaypointData>)

  class System {
    const symbol: string
    var waypoints: seq<Waypoint>
    /** Whether `list_waypoints` has stored the system's full waypoint list. */
    var waypointsCached: bool

    constructor (symbol: string, waypoints: seq<Waypoint>)
      ensures this.symbol == symbol && this.waypoints == waypoints && !waypointsCached
    {
      this.symbol := symbol;
      this.waypoints := waypoints;
      waypointsCached := false;
    }
  }

  /** Python truthiness of an optional filter argument: absent or empty is false. */
  predicate Given(filter: Option<string>)
  {
    filter.Some? && filter.value != ""
  }

  /** The descriptions of the waypoints, in order. */
  function Views(waypoints: seq<Waypoint>): (r: seq<WaypointData>)
    ensures |r| == |waypoints|
    ensures forall k | 0 <= k < |waypoints| :: r[k] == waypoints[k].View()
  {
    seq(|waypoints|, k requires 0 <= k < |waypoints| => waypoints[k].View())
  }

  /** `waypoints` were built from `data`, in order. */
  predicate Describes(waypoints: seq<Waypoint>, data: seq<WaypointData>)
  {
    Views(waypoints) == data
  }

  /** `system` is the fresh `System(**data)` of `list_systems` and `get_system`. */
  predicate Built(system: System, data: SystemData)
    reads system
  {
    && system.symbol == data.symbol
    && Describes(system.waypoints, data.waypoints)
    && !system.waypointsCached
  }

  // Filtering

  /** `[wp for wp in waypoints if wp.type == kind]`. */
  function OfType(waypoints: seq<Waypoint>, kind: string): (r: seq<Waypoint>)
    ensures forall w | w in r :: w in waypoints
    ensures forall w | w in waypoints :: multiset(r)[w] == if w.kind == kind then multiset(waypoints)[w] else 0
  {
    if waypoints == [] then []
    else
      assert waypoints == [waypoints[0]] + waypoints[1..];
      (if waypoints[0].kind == kind then [waypoints[0]] else []) + OfType(waypoints[1..], kind)
  }

  /** `[wp for wp in waypoints if wp.has_trait(traitSymbol)]`. */
  function WithTrait(waypoints: seq<Waypoint>, traitSymbol: string): (r: seq<Waypoint>)
    ensures forall w | w in r :: w in waypoints
    ensures forall w | w in waypoints :: multiset(r)[w] == if Carries(w.traits, traitSymbol) then multiset(waypoints)[w] else 0
  {
    if waypoints == [] then []
    else
      assert waypoints == [waypoints[0]] + waypoints[1..];
      (if Carries(waypoints[0].traits, traitSymbol) then [waypoints[0]] else []) + WithTrait(waypoints[1..], traitSymbol)
  }

  /**
   * `filter_waypoints`: each filter is applied only when given. Every
   * waypoint that passes the given filters is kept as often as it occurs,
   * and no other; the order is stated by `FilterWaypointsSpec`.
   */
  function FilterWaypoints(waypoints: seq<Waypoint>, kind: Option<string>, traitSymbol: Option<string>): (r: seq<Waypoint>)
    ensures forall w | w in r :: w in waypoints
    ensures forall w | w in waypoints :: multiset(r)[w] == if Passes(w, kind, traitSymbol) then multiset(waypoints)[w] else 0
  {
    var byType := if Given(kind) then OfType(waypoints, kind.value) else waypoints;
    if Given(traitSymbol) then WithTrait(byType, traitSymbol.value) else byType
  }

  /** `a` is `b` with some elements left out, the rest in their order. */
  predicate Subsequence<T(==)>(a: seq<T>, b: seq<T>)
    decreases |b|
  {
    if a == [] then true
    else if b == [] then false
    else (a[0] == b[0] && Subsequence(a[1..], b[1..])) || Subsequence(a, b[1..])
  }

  /** The waypoints that pass both given filters. */
  predicate Passes(w: Waypoint, kind: Option<string>, traitSymbol: Option<string>)
  {
    && (Given(kind) ==> w.kind == kind.value)
    && (Given(traitSymbol) ==> Carries(w.traits, traitSymbol.value))
  }

  lemma {:induction false} SubsequenceReflexive<T>(a: seq<T>)
    ensures Subsequence(a, a)
    decreases |a|
  {
    if a != [] {
      SubsequenceReflexive(a[1..]);
    }
  }

  lemma {:induction false} SubsequenceTransitive<T>(a: seq<T>, b: seq<T>, c: seq<T>)
    requires Subsequence(a, b) && Subsequence(b, c)
    ensures Subsequence(a, c)
    decreases |c|
  {
    if a != [] {
      assert b != [] && c != [];
      if b[0] == c[0] && Subsequence(b[1..], c[1..]) {
        if a[0] == b[0] && Subsequence(a[1..], b[1..]) {
          SubsequenceTransitive(a[1..], b[1..], c[1..]);
        } else {
          SubsequenceTransitive(a, b[1..], c[1..]);
        }
      } else {
        SubsequenceTransitive(a, b, c[1..]);
      }
    }
  }

  /** `OfType` keeps, in order, exactly the waypoints of the type. */
  lemma {:induction false} OfTypeKeeps(waypoints: seq<Waypoint>, kind: string)
    ensures Subsequence(OfType(waypoints, kind), waypoints)
    ensures forall w :: w in OfType(waypoints, kind) <==> w in waypoints && w.kind == kind
    decreases |waypoints|
  {
    if waypoints != [] {
      OfTypeKeeps(waypoints[1..], kind);
      var rest := OfType(waypoints[1..], kind);
      if waypoints[0].kind == kind {
        assert OfType(waypoints, kind) == [waypoints[0]] + rest;
        assert ([waypoints[0]] + rest)[1..] == rest;
      } else {
        assert OfType(waypoints, kind) == rest;
        SubsequenceDropFront(rest, waypoints);
      }
      assert waypoints == [waypoints[0]] + waypoints[1..];
    }
  }

  /** `WithTrait` keeps, in order, exactly the waypoints with the trait. */
  lemma {:induction false} WithTraitKeeps(waypoints: seq<Waypoint>, traitSymbol: string)
    ensures Subsequence(WithTrait(waypoints, traitSymbol), waypoints)
    ensures forall w :: w in WithTrait(waypoints, traitSymbol) <==> w in waypoints && Carries(w.traits, traitSymbol)
    decreases |waypoints|
  {
    if waypoints != [] {
      WithTraitKeeps(waypoints[1..], traitSymbol);
      var rest := WithTrait(waypoints[1..], traitSymbol);
      if Carries(waypoints[0].traits, traitSymbol) {
        assert WithTrait(waypoints, traitSymbol) == [waypoints[0]] + rest;
        assert ([waypoints[0]] + rest)[1..] == rest;
      } else {
        assert WithTrait(waypoints, traitSymbol) == rest;
        SubsequenceDropFront(rest, waypoints);
      }
      assert waypoints == [waypoints[0]] + waypoints[1..];
    }
  }

  lemma SubsequenceDropFront<T>(a: seq<T>, b: seq<T>)
    requires b != [] && Subsequence(a, b[1..])
    ensures Subsequence(a, b)
  {
  }

  /**
   * `filter_waypoints` returns, in their order, the input waypoints that
   * pass both given filters, and nothing else; with no filter given it
   * returns its input.
   */
  lemma FilterWaypointsSpec(waypoints: seq<Waypoint>, kind: Option<string>, traitSymbol: Option<string>)
    ensures Subsequence(FilterWaypoints(waypoints, kind, traitSymbol), waypoints)
    ensures forall w :: w in FilterWaypoints(waypoints, kind, traitSymbol) <==> w in waypoints && Passes(w, kind, traitSymbol)
    ensures !Given(kind) && !Given(traitSymbol) ==> FilterWaypoints(waypoints, kind, traitSymbol) == waypoints
  {
    var byType := if Given(kind) then OfType(waypoints, kind.value) else waypoints;
    if Given(kind) {
      OfTypeKeeps(waypoints, kind.value);
    } else {
      SubsequenceReflexive(waypoints);
    }
    if Given(traitSymbol) {
      WithTraitKeeps(byType, traitSymbol.value);
      SubsequenceTransitive(WithTrait(byType, traitSymbol.value), byType, waypoints);
    }
  }

  // Ordering by symbol

  /** Python's `<=` on strings: lexicographic by code point. */
  predicate SymbolLeq(a: string, b: string)
  {
    |a| == 0 || (|b| > 0 && (a[0] < b[0] || (a[0] == b[0] && SymbolLeq(a[1..], b[1..]))))
  }

  lemma {:induction false} SymbolLeqTotal(a: string, b: string)
    ensures SymbolLeq(a, b) || SymbolLeq(b, a)
    decreases |a|
  {
    if |a| > 0 && |b| > 0 && a[0] == b[0] {
      SymbolLeqTotal(a[1..], b[1..]);
    }
  }

  lemma {:induction false} SymbolLeqTransitive(a: string, b: string, c: string)
    requires SymbolLeq(a, b) && SymbolLeq(b, c)
    ensures SymbolLeq(a, c)
    decreases |a|
  {
    if |a| > 0 && a[0] == b[0] && b[0] == c[0] {
      SymbolLeqTransitive(a[1..], b[1..], c[1..]);
    }
  }

  predicate SortedBySymbol(waypoints: seq<WaypointData>)
  {
    forall i, j | 0 <= i < j < |waypoints| :: SymbolLeq(waypoints[i].symbol, waypoints[j].symbol)
  }

  /** Places `w` after every waypoint whose symbol is not above its own. */
  function Insert(sorted: seq<WaypointData>, w: WaypointData): (r: seq<WaypointData>)
    requires SortedBySymbol(sorted)
    ensures SortedBySymbol(r)
    ensures multiset(r) == multiset(sorted) + multiset{w}
  {
    if sorted == [] then [w]
    else if !SymbolLeq(sorted[0].symbol, w.symbol) then
      SymbolLeqTotal(sorted[0].symbol, w.symbol);
      InsertFront(sorted, w);
      [w] + sorted
    else
      var rest := Insert(sorted[1..], w);
      InsertAfter(sorted, w, rest);
      assert sorted == [sorted[0]] + sorted[1..];
      [sorted[0]] + rest
  }

  lemma InsertFront(sorted: seq<WaypointData>, w: WaypointData)
    requires SortedBySymbol(sorted) && sorted != [] && SymbolLeq(w.symbol, sorted[0].symbol)
    ensures SortedBySymbol([w] + sorted)
  {
    var r := [w] + sorted;
    forall i, j | 0 <= i < j < |r| ensures SymbolLeq(r[i].symbol, r[j].symbol) {
      if i == 0 && j > 1 {
        SymbolLeqTransitive(w.symbol, sorted[0].symbol, sorted[j - 1].symbol);
      }
    }
  }

  lemma InsertAfter(sorted: seq<WaypointData>, w: WaypointData, rest: seq<WaypointData>)
    requires SortedBySymbol(sorted) && sorted != [] && SymbolLeq(sorted[0].symbol, w.symbol)
    requires SortedBySymbol(rest) && multiset(rest) == multiset(sorted[1..]) + multiset{w}
    ensures SortedBySymbol([sorted[0]] + rest)
  {
    var r := [sorted[0]] + rest;
    forall i, j | 0 <= i < j < |r| ensures SymbolLeq(r[i].symbol, r[j].symbol) {
      if i == 0 {
        var x := rest[j - 1];
        assert x in multiset(rest);
        if x != w {
          assert x in multiset(sorted[1..]);
          var k :| 0 <= k < |sorted[1..]| && sorted[1..][k] == x;
          assert sorted[k + 1] == x;
        }
      }
    }
  }

  /** `sorted(waypoints, key=lambda x: x.symbol)`. */
  function SortBySymbol(waypoints: seq<WaypointData>): (r: seq<WaypointData>)
    ensures SortedBySymbol(r)
    ensures multiset(r) == multiset(waypoints)
  {
    if waypoints == [] then []
    else
      var init := waypoints[..|waypoints| - 1];
      assert waypoints == init + [waypoints[|waypoints| - 1]];
      Insert(SortBySymbol(init), waypoints[|waypoints| - 1])
  }

  // Lookups in the cache

  /** The first system with the symbol, as `[s for s in systems if s.symbol == symbol][0]`. */
  function FirstSystem(systems: seq<System>, symbol: string): (r: Option<System>)
    ensures r.Some? ==> r.value in systems && r.value.symbol == symbol
    ensures r.None? <==> forall s | s in systems :: s.symbol != symbol
    ensures forall i | 0 <= i < |systems| && systems[i].symbol == symbol ::
              (forall j | 0 <= j < i :: systems[j].symbol != symbol) ==> r == Some(systems[i])
  {
    if systems == [] then None
    else if systems[0].symbol == symbol then Some(systems[0])
    else
      assert systems == [systems[0]] + systems[1..];
      assert forall i | 1 <= i < |systems| :: systems[i] == systems[1..][i - 1];
      FirstSystem(systems[1..], symbol)
  }

  /** The first waypoint with the symbol. */
  function FirstWaypoint(waypoints: seq<Waypoint>, symbol: string): (r: Option<Waypoint>)
    ensures r.Some? ==> r.value in waypoints && r.value.symbol == symbol
    ensures r.None? <==> forall w | w in waypoints :: w.symbol != symbol
    ensures forall i | 0 <= i < |waypoints| && waypoints[i].symbol == symbol ::
              (forall j | 0 <= j < i :: waypoints[j].symbol != symbol) ==> r == Some(waypoints[i])
  {
    if waypoints == [] then None
    else if waypoints[0].symbol == symbol then Some(waypoints[0])
    else
      assert waypoints == [waypoints[0]] + waypoints[1..];
      assert forall i | 1 <= i < |waypoints| :: waypoints[i] == waypoints[1..][i - 1];
      FirstWaypoint(waypoints[1..], symbol)
  }

  /**
   * Builds the waypoints of a system from their descriptions. Each keeps
   * its description's own system symbol: the `system_symbol` key the
   * client sets first is not the field's alias and is ignored.
   */
  method BuildWaypoints(data: seq<WaypointData>) returns (waypoints: seq<Waypoint>)
    ensures Describes(waypoints, data)
    ensures forall w | w in waypoints :: fresh(w)
  {
    waypoints := [];
    for i := 0 to |data|
      invariant Describes(waypoints, data[..i])
      invariant forall w | w in waypoints :: fresh(w)
    {
      var w := new Waypoint(data[i]);
      assert Views(waypoints + [w]) == Views(waypoints) + [w.View()];
      assert data[..i + 1] == data[..i] + [data[i]];
      waypoints := waypoints + [w];
    }
    assert data[..|data|] == data;
  }

  /** `System(**data)` with its waypoints built and placed in the system. */
  method BuildSystem(data: SystemData) returns (system: System)
    ensures Built(system, data)
    ensures fresh(system)
  {
    var waypoints := BuildWaypoints(data.waypoints);
    system := new System(data.symbol, waypoints);
  }

  /**
   * The waypoints `list_waypoints` builds from a fetched list, sorted by
   * symbol. Sorting the descriptions before building gives the same list
   * as building before sorting, as each waypoint's symbol is that of its
   * description.
   */
  method SortedWaypoints(data: seq<WaypointData>) returns (sorted: seq<Waypoint>)
    ensures SortedBySymbol(Views(sorted))
    ensures multiset(Views(sorted)) == multiset(data)
  {
    sorted := BuildWaypoints(SortBySymbol(data));
  }

  class Client {
    /** The cached systems, in the order they were fetched. */
    var systems: seq<System>

    constructor ()
      ensures systems == []
    {
      systems := [];
    }

    /**
     * `list_systems`: a non-empty cache is returned as it is, without a
     * request; otherwise all systems are fetched, built and cached.
     */
    method ListSystems(response: Response<seq<SystemData>>) returns (reply: Reply<seq<System>>, calls: seq<Request>)
      modifies this
      ensures old(systems) != [] ==> reply == Data(old(systems)) && calls == [] && systems == old(systems)
      ensures old(systems) == [] ==> calls == [Request.ListSystems]
      ensures old(systems) == [] && response.Err? ==> reply == Raised("HTTPError") && systems == []
      ensures old(systems) == [] && response.Ok? ==>
        && reply == Data(systems)
        && |systems| == |response.payload|
        && forall k | 0 <= k < |systems| :: Built(systems[k], response.payload[k]) && fresh(systems[k])
    {
      if systems != [] {
        return Data(systems), [];
      }
      calls := [Request.ListSystems];
      if response.Err? {
        return Raised("HTTPError"), calls;
      }
      var data := response.payload;
      var built: seq<System> := [];
      for i := 0 to |data|
        invariant |built| == i
        invariant forall k | 0 <= k < i :: Built(built[k], data[k]) && fresh(built[k])
      {
        var system := BuildSystem(data[i]);
        built := built + [system];
      }
      systems := built;
      reply := Data(systems);
    }

    /**
     * `get_system`: the first cached system with the symbol, without a
     * request; otherwise the system is fetched and built, but not cached.
     */
    method GetSystem(symbol: string, response: Response<SystemData>) returns (reply: Reply<System>, calls: seq<Request>)
      ensures FirstSystem(systems, symbol).Some? ==> reply == Data(FirstSystem(systems, symbol).value) && calls == []
      ensures FirstSystem(systems, symbol).None? ==> calls == [Request.GetSystem(symbol)]
      ensures FirstSystem(systems, symbol).None? && response.Err? ==> reply == Raised("HTTPError")
      ensures FirstSystem(systems, symbol).None? && response.Ok? ==>
        reply.Data? && Built(reply.value, response.payload) && fresh(reply.value)
    {
      var cached := FirstSystem(systems, symbol);
      if cached.Some? {
        return Data(cached.value), [];
      }
      calls := [Request.GetSystem(symbol)];
      if response.Err? {
        return Raised("HTTPError"), calls;
      }
      var system := BuildSystem(response.payload);
      reply := Data(system);
    }

    /**
     * `get_waypoint`: the system symbol is the first two segments of the
     * waypoint symbol; a cached system whose waypoint list is stored and
     * holds the symbol answers without a request.
     */
    method GetWaypoint(waypointSymbol: string, response: Response<WaypointData>) returns (reply: Reply<Waypoint>, calls: seq<Request>)
      ensures var systemSymbol := SystemSymbolOf(waypointSymbol);
              var cached := FirstSystem(systems, systemSymbol);
              var hit := cached.Some? && cached.value.waypointsCached
                         && FirstWaypoint(cached.value.waypoints, waypointSymbol).Some?;
              && (hit ==> reply == Data(FirstWaypoint(cached.value.waypoints, waypointSymbol).value) && calls == [])
              && (!hit ==> calls == [Request.GetWaypoint(systemSymbol, waypointSymbol)])
              && (!hit && response.Err? ==> reply == Raised("HTTPError"))
              && (!hit && response.Ok? ==>
                    reply.Data? && reply.value.View() == response.payload
                    && fresh(reply.value))
    {
      var systemSymbol := SystemSymbolOf(waypointSymbol);
      var cached := FirstSystem(systems, systemSymbol);
      if cached.Some? && cached.value.waypointsCached {
        var found := FirstWaypoint(cached.value.waypoints, waypointSymbol);
        if found.Some? {
          return Data(found.value), [];
        }
      }
      calls := [Request.GetWaypoint(systemSymbol, waypointSymbol)];
      if response.Err? {
        return Raised("HTTPError"), calls;
      }
      var w := new Waypoint(response.payload);
      reply := Data(w);
    }

    /**
     * `list_waypoints`: a cached system whose non-empty waypoint list is
     * stored answers without a request. Otherwise the system is taken from
     * the cache or fetched and appended to it; then its waypoints are
     * fetched, sorted by symbol and stored on it. Either way the answer is
     * filtered by type and trait.
     */
    method ListWaypoints(system: string, kind: Option<string>, traitSymbol: Option<string>,
                         systemResponse: Response<SystemData>, response: Response<seq<WaypointData>>)
      returns (reply: Reply<seq<Waypoint>>, calls: seq<Request>)
      modifies this, systems
      ensures var cached := FirstSystem(old(systems), system);
              var hit := cached.Some? && old(cached.value.waypointsCached) && old(cached.value.waypoints) != [];
              var prior := if cached.None? then [Request.GetSystem(system)] else [];
              && (hit ==> reply == Data(FilterWaypoints(old(cached.value.waypoints), kind, traitSymbol))
                          && calls == [] && systems == old(systems))
              && (cached.None? && systemResponse.Err? ==>
                    reply == Raised("HTTPError") && calls == prior && systems == old(systems))
              && (!hit && !(cached.None? && systemResponse.Err?) ==>
                    && calls == prior + [Request.ListWaypoints(system)]
                    && |systems| == |old(systems)| + |prior|
                    && systems[..|old(systems)|] == old(systems)
                    && (cached.None? ==> systems[|old(systems)|].symbol == systemResponse.payload.symbol))
              && (!hit && !(cached.None? && systemResponse.Err?) && response.Err? ==> reply == Raised("HTTPError"))
              && (!hit && !(cached.None? && systemResponse.Err?) && response.Ok? ==>
                    var target := if cached.Some? then cached.value else systems[|old(systems)|];
                    && target.waypointsCached
                    && SortedBySymbol(Views(target.waypoints))
                    && multiset(Views(target.waypoints)) == multiset(response.payload)
                    && reply == Data(FilterWaypoints(target.waypoints, kind, traitSymbol)))
      ensures var cached := FirstSystem(old(systems), system);
              forall s | s in old(systems) && (cached.None? || s != cached.value) ::
                s.waypoints == old(s.waypoints) && s.waypointsCached == old(s.waypointsCached)
      ensures var cached := FirstSystem(old(systems), system);
              var hit := cached.Some? && old(cached.value.waypointsCached) && old(cached.value.waypoints) != [];
              cached.Some? && (hit || response.Err?) ==>
                cached.value.waypoints == old(cached.value.waypoints)
                && cached.value.waypointsCached == old(cached.value.waypointsCached)
      ensures var cached := FirstSystem(old(systems), system);
              cached.None? && systemResponse.Ok? && response.Err? ==>
                Built(systems[|old(systems)|], systemResponse.payload) && fresh(systems[|old(systems)|])
    {
      var cached := FirstSystem(systems, system);
      var target: System;
      calls := [];
      if cached.Some? {
        target := cached.value;
        if target.waypointsCached && target.waypoints != [] {
          return Data(FilterWaypoints(target.waypoints, kind, traitSymbol)), [];
        }
      } else {
        var fetched;
        fetched, calls := GetSystem(system, systemResponse);
        if fetched.Raised? {
          return Raised(fetched.reason), calls;
        }
        target := fetched.value;
        systems := systems + [target];
      }
      calls := calls + [Request.ListWaypoints(system)];
      if response.Err? {
        return Raised("HTTPError"), calls;
      }
      var sorted := SortedWaypoints(response.payload);
      target.waypoints := sorted;
      target.waypointsCached := true;
      reply := Data(FilterWaypoints(sorted, kind, traitSymbol));
    }
  }
}
