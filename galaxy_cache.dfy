/**
 * The local cache's tables as values, and what one synchronisation pass
 * does to them. Every table is a map keyed by its natural key, so the
 * schema's uniqueness constraints hold by construction: cargo items by
 * (ship, cargo type), market trade goods by (market, trade good, type),
 * catalog entries by symbol.
 */
module GalaxyCache {
  import opened Wrappers
  import opened Payloads

  // ---------------------------------------------------------------------
  // Catalogs filled by get-or-create on symbol (CargoType, ShipModule,
  // ShipMount, TradeGood).

  /**
   * Get-or-create of each `(symbol, row)` in turn: a symbol already present
   * keeps its row, a new symbol gets the row of its first occurrence.
   */
  function Register<R>(catalog: map<string, R>, entries: seq<(string, R)>): (r: map<string, R>)
    ensures forall s | s in catalog :: s in r && r[s] == catalog[s]
    ensures forall e | e in entries :: e.0 in r
    ensures forall s | s in r :: s in catalog || exists e | e in entries :: e.0 == s
    decreases |entries|
  {
    if entries == [] then catalog
    else
      var init := entries[..|entries| - 1];
      var last := entries[|entries| - 1];
      var before := Register(catalog, init);
      assert entries == init + [last];
      if last.0 in before then before else before[last.0 := last.1]
  }

  /** Registering one more entry: get-or-create of that entry on the catalog so far. */
  lemma RegisterSnoc<R>(catalog: map<string, R>, entries: seq<(string, R)>, e: (string, R))
    ensures Register(catalog, entries + [e])
         == var before := Register(catalog, entries); if e.0 in before then before else before[e.0 := e.1]
  {
    assert (entries + [e])[..|entries|] == entries;
  }

  /** Registering two lists in turn is registering their concatenation. */
  lemma {:induction false} RegisterAppend<R>(catalog: map<string, R>, a: seq<(string, R)>, b: seq<(string, R)>)
    ensures Register(catalog, a + b) == Register(Register(catalog, a), b)
    decreases |b|
  {
    if b == [] {
      assert a + b == a;
    } else {
      var init := b[..|b| - 1];
      var last := b[|b| - 1];
      assert b == init + [last];
      assert a + b == (a + init) + [last];
      RegisterAppend(catalog, a, init);
      RegisterSnoc(catalog, a + init, last);
      RegisterSnoc(Register(catalog, a), init, last);
    }
  }

  /** Entries whose symbols are all registered already change nothing. */
  lemma {:induction false} RegisterKnown<R>(catalog: map<string, R>, entries: seq<(string, R)>)
    requires forall e | e in entries :: e.0 in catalog
    ensures Register(catalog, entries) == catalog
    decreases |entries|
  {
    if entries != [] {
      RegisterKnown(catalog, entries[..|entries| - 1]);
    }
  }

  /** Get-or-create is idempotent: registering the same entries again changes nothing. */
  lemma RegisterIdempotent<R>(catalog: map<string, R>, entries: seq<(string, R)>)
    ensures Register(Register(catalog, entries), entries) == Register(catalog, entries)
  {
    RegisterKnown(Register(catalog, entries), entries);
  }

  /** A new symbol takes the row of its first occurrence. */
  lemma {:induction false} RegisterFirstWins<R>(catalog: map<string, R>, entries: seq<(string, R)>, i: nat)
    requires i < |entries| && entries[i].0 !in catalog
    requires forall j | 0 <= j < i :: entries[j].0 != entries[i].0
    ensures Register(catalog, entries)[entries[i].0] == entries[i].1
    decreases |entries|
  {
    var init := entries[..|entries| - 1];
    if i < |entries| - 1 {
      RegisterFirstWins(catalog, init, i);
    } else {
      assert entries[i].0 !in Register(catalog, init).Keys;
    }
  }

  datatype CatalogRow = CatalogRow(name: string, description: string)

  /** The `CargoType` rows an inventory would create. */
  function CargoTypeEntries(inventory: seq<InventoryEntry>): (r: seq<(string, CatalogRow)>)
    ensures |r| == |inventory|
    ensures forall k | 0 <= k < |r| :: r[k].0 == inventory[k].symbol
  {
    seq(|inventory|, k requires 0 <= k < |inventory| =>
      (inventory[k].symbol, CatalogRow(inventory[k].name, inventory[k].description)))
  }

  // ---------------------------------------------------------------------
  // A ship's cargo items, keyed by cargo type symbol.

  function Symbols(inventory: seq<InventoryEntry>): set<string>
  {
    set e | e in inventory :: e.symbol
  }

  /**
   * The cargo items an inventory snapshot describes: one per symbol, with
   * the units of the last entry for that symbol.
   */
  function InventoryMap(inventory: seq<InventoryEntry>): (r: map<string, nat>)
    ensures r.Keys == Symbols(inventory)
    decreases |inventory|
  {
    if inventory == [] then map[]
    else
      var init := inventory[..|inventory| - 1];
      var last := inventory[|inventory| - 1];
      assert inventory == init + [last];
      InventoryMap(init)[last.symbol := last.units]
  }

  /** An entry not followed by another of its symbol gives that symbol's units. */
  lemma {:induction false} InventoryMapUnits(inventory: seq<InventoryEntry>, i: nat)
    requires i < |inventory|
    requires forall j | i < j < |inventory| :: inventory[j].symbol != inventory[i].symbol
    ensures InventoryMap(inventory)[inventory[i].symbol] == inventory[i].units
    decreases |inventory|
  {
    if i < |inventory| - 1 {
      InventoryMapUnits(inventory[..|inventory| - 1], i);
    }
  }

  // ---------------------------------------------------------------------
  // Transactions: an append-only ledger.

  datatype Transaction = Transaction(
    market: string,
    shipSymbol: string,
    tradeGood: string,
    kind: string,
    units: nat,
    pricePerUnit: nat,
    totalPrice: nat,
    timestamp: int)

  /** The ledger row a remote trade's `transaction` creates, at the market of `waypointSymbol`. */
  function TransactionRow(market: string, t: TransactionData): Transaction
  {
    Transaction(market, t.shipSymbol, t.tradeSymbol, t.kind, t.units, t.pricePerUnit, t.totalPrice, t.timestamp)
  }

  /** `Transaction.objects.get_or_create` for each row in turn. */
  function RecordAll(ledger: seq<Transaction>, rows: seq<Transaction>): (r: seq<Transaction>)
    ensures ledger <= r
    ensures forall t | t in rows :: t in r
    ensures forall t | t in r :: t in ledger || t in rows
    decreases |rows|
  {
    if rows == [] then ledger
    else
      var init := rows[..|rows| - 1];
      var last := rows[|rows| - 1];
      var before := RecordAll(ledger, init);
      assert rows == init + [last];
      if last in before then before else before + [last]
  }

  lemma {:induction false} RecordKnown(ledger: seq<Transaction>, rows: seq<Transaction>)
    requires forall t | t in rows :: t in ledger
    ensures RecordAll(ledger, rows) == ledger
    decreases |rows|
  {
    if rows != [] {
      RecordKnown(ledger, rows[..|rows| - 1]);
    }
  }

  /** Re-reading the same transaction history adds nothing. */
  lemma RecordIdempotent(ledger: seq<Transaction>, rows: seq<Transaction>)
    ensures RecordAll(RecordAll(ledger, rows), rows) == RecordAll(ledger, rows)
  {
    RecordKnown(RecordAll(ledger, rows), rows);
  }

  predicate NoRepeats(ledger: seq<Transaction>)
  {
    forall i, j | 0 <= i < j < |ledger| :: ledger[i] != ledger[j]
  }

  /** Recording never introduces a duplicate row into a ledger that has none. */
  lemma {:induction false} RecordKeepsDistinct(ledger: seq<Transaction>, rows: seq<Transaction>)
    requires NoRepeats(ledger)
    ensures NoRepeats(RecordAll(ledger, rows))
    decreases |rows|
  {
    if rows != [] {
      var init := rows[..|rows| - 1];
      var last := rows[|rows| - 1];
      var before := RecordAll(ledger, init);
      RecordKeepsDistinct(ledger, init);
      if last !in before {
        var r := before + [last];
        assert RecordAll(ledger, rows) == r;
        forall i, j | 0 <= i < j < |r| ensures r[i] != r[j] {
          assert r[i] == before[i];
          if j == |before| {
            assert before[i] in before;
          } else {
            assert r[j] == before[j];
          }
        }
      }
    }
  }

  /**
   * The ledger holds `t` more than once. `Transaction` has no unique
   * constraint, so this can happen (a trade is created unconditionally),
   * and then `get_or_create` on `t` raises `MultipleObjectsReturned`.
   */
  predicate Repeated(ledger: seq<Transaction>, t: Transaction)
  {
    multiset(ledger)[t] >= 2
  }

  /**
   * Where recording `rows` stops: the index of the first row the ledger
   * holds more than once, or `|rows|` when there is none.
   */
  function FirstRepeated(ledger: seq<Transaction>, rows: seq<Transaction>): (i: nat)
    ensures i <= |rows|
    ensures i < |rows| ==> Repeated(ledger, rows[i])
    ensures forall j | 0 <= j < i :: !Repeated(ledger, rows[j])
    decreases |rows|
  {
    if rows == [] then 0
    else if Repeated(ledger, rows[0]) then 0
    else
      var rest := FirstRepeated(ledger, rows[1..]);
      assert forall j | 1 <= j < rest + 1 :: rows[j] == rows[1..][j - 1];
      1 + rest
  }

  /** The first repeated row is the one no earlier row precedes. */
  lemma FirstRepeatedAt(ledger: seq<Transaction>, rows: seq<Transaction>, i: nat)
    requires i <= |rows|
    requires i < |rows| ==> Repeated(ledger, rows[i])
    requires forall j | 0 <= j < i :: !Repeated(ledger, rows[j])
    ensures FirstRepeated(ledger, rows) == i
  {
  }

  /**
   * Recording adds only rows the ledger lacks, once each, so it makes no
   * row repeated and leaves every repeated row repeated.
   */
  lemma {:induction false} RecordKeepsRepeats(ledger: seq<Transaction>, rows: seq<Transaction>, t: Transaction)
    ensures Repeated(RecordAll(ledger, rows), t) <==> Repeated(ledger, t)
    decreases |rows|
  {
    if rows != [] {
      var init := rows[..|rows| - 1];
      var last := rows[|rows| - 1];
      var before := RecordAll(ledger, init);
      RecordKeepsRepeats(ledger, init, t);
      if last !in before {
        assert RecordAll(ledger, rows) == before + [last];
        assert multiset(before + [last]) == multiset(before) + multiset{last};
        if t == last {
          assert multiset(before)[t] == 0;
        }
      }
    }
  }

  /** A ledger without repeated rows has no row twice. */
  lemma {:induction false} NoRepeatsOnce(ledger: seq<Transaction>, t: Transaction)
    requires NoRepeats(ledger)
    ensures !Repeated(ledger, t)
    decreases |ledger|
  {
    if ledger != [] {
      var init := ledger[..|ledger| - 1];
      var last := ledger[|ledger| - 1];
      assert ledger == init + [last];
      assert NoRepeats(init) by {
        forall i, j | 0 <= i < j < |init| ensures init[i] != init[j] {
          assert init[i] == ledger[i] && init[j] == ledger[j];
        }
      }
      NoRepeatsOnce(init, t);
      assert multiset(ledger) == multiset(init) + multiset{last};
      if t == last {
        assert t !in init by {
          forall i | 0 <= i < |init| ensures init[i] != t {
            assert init[i] == ledger[i];
          }
        }
      }
    }
  }

  /** Recording into a ledger without repeated rows never raises. */
  lemma NoRepeatsNeverRaises(ledger: seq<Transaction>, rows: seq<Transaction>)
    requires NoRepeats(ledger)
    ensures FirstRepeated(ledger, rows) == |rows|
  {
    forall j | 0 <= j < |rows| ensures !Repeated(ledger, rows[j]) {
      NoRepeatsOnce(ledger, rows[j]);
    }
    FirstRepeatedAt(ledger, rows, |rows|);
  }

  // ---------------------------------------------------------------------
  // MarketTradeGood rows, unique per (market, trade good, type).

  datatype MarketGoodKey = MarketGoodKey(market: string, tradeGood: string, kind: string)

  datatype MarketGoodRow = MarketGoodRow(
    tradeVolume: nat,
    supply: string,
    activity: Option<string>,
    purchasePrice: nat,
    sellPrice: nat)

  /** An entry of a market payload's `tradeGoods`; exchange goods carry no activity. */
  datatype MarketGoodData = MarketGoodData(
    symbol: string,
    kind: string,
    tradeVolume: nat,
    supply: string,
    activity: Option<string>,
    purchasePrice: nat,
    sellPrice: nat)

  function KeyOf(market: string, g: MarketGoodData): MarketGoodKey
  {
    MarketGoodKey(market, g.symbol, g.kind)
  }

  /**
   * One entry applied to the row it names (or to a new row): volume, supply
   * and prices are overwritten, activity only when the entry has one.
   */
  function Apply(prev: Option<MarketGoodRow>, g: MarketGoodData): (row: MarketGoodRow)
    ensures row.tradeVolume == g.tradeVolume && row.supply == g.supply
    ensures row.purchasePrice == g.purchasePrice && row.sellPrice == g.sellPrice
    ensures g.activity.Some? ==> row.activity == g.activity
    ensures g.activity.None? ==> row.activity == (if prev.Some? then prev.value.activity else None)
  {
    var activity := if g.activity.Some? then g.activity
                    else if prev.Some? then prev.value.activity else None;
    MarketGoodRow(g.tradeVolume, g.supply, activity, g.purchasePrice, g.sellPrice)
  }

  function Lookup<K, V>(m: map<K, V>, k: K): Option<V>
  {
    if k in m then Some(m[k]) else None
  }

  /** The upsert loop over a market payload's `tradeGoods`. */
  function UpsertGoods(rows: map<MarketGoodKey, MarketGoodRow>, market: string, goods: seq<MarketGoodData>)
    : (r: map<MarketGoodKey, MarketGoodRow>)
    ensures r.Keys == rows.Keys + set g | g in goods :: KeyOf(market, g)
    decreases |goods|
  {
    if goods == [] then rows
    else
      var init := goods[..|goods| - 1];
      var last := goods[|goods| - 1];
      var before := UpsertGoods(rows, market, init);
      var key := KeyOf(market, last);
      assert goods == init + [last];
      before[key := Apply(Lookup(before, key), last)]
  }

  /** Whether some entry names `key`. */
  predicate Names(market: string, goods: seq<MarketGoodData>, key: MarketGoodKey)
  {
    exists g | g in goods :: KeyOf(market, g) == key
  }

  /** The activity `key` ends with: the last one supplied for it, else `fallback`. */
  function LastActivity(market: string, goods: seq<MarketGoodData>, key: MarketGoodKey, fallback: Option<string>)
    : Option<string>
    decreases |goods|
  {
    if goods == [] then fallback
    else
      var last := goods[|goods| - 1];
      if KeyOf(market, last) == key && last.activity.Some? then last.activity
      else LastActivity(market, goods[..|goods| - 1], key, fallback)
  }

  /** The last entry that names `key`. */
  function LastFor(market: string, goods: seq<MarketGoodData>, key: MarketGoodKey): (g: MarketGoodData)
    requires Names(market, goods, key)
    ensures g in goods && KeyOf(market, g) == key
    decreases |goods|
  {
    var init := goods[..|goods| - 1];
    var last := goods[|goods| - 1];
    assert goods == init + [last];
    if KeyOf(market, last) == key then last else LastFor(market, init, key)
  }

  /** Keys the payload does not name keep their row (or stay absent). */
  lemma {:induction false} UpsertGoodsElsewhere(rows: map<MarketGoodKey, MarketGoodRow>, market: string, goods: seq<MarketGoodData>, key: MarketGoodKey)
    requires !Names(market, goods, key)
    ensures Lookup(UpsertGoods(rows, market, goods), key) == Lookup(rows, key)
    decreases |goods|
  {
    if goods != [] {
      var init := goods[..|goods| - 1];
      var last := goods[|goods| - 1];
      assert last in goods;
      assert !Names(market, init, key) by {
        forall g | g in init ensures KeyOf(market, g) != key {
          assert g in goods;
        }
      }
      UpsertGoodsElsewhere(rows, market, init, key);
    }
  }

  /** The activity a key has before the loop: its row's, none for a new row. */
  function PriorActivity(rows: map<MarketGoodKey, MarketGoodRow>, key: MarketGoodKey): Option<string>
  {
    if key in rows then rows[key].activity else None
  }

  /**
   * The row a key the payload names ends with after the upsert loop: the
   * fields of the last entry naming it, and the last activity supplied for
   * it (or its previous activity, none for a new row).
   */
  lemma {:induction false} UpsertGoodsAt(rows: map<MarketGoodKey, MarketGoodRow>, market: string, goods: seq<MarketGoodData>, key: MarketGoodKey)
    requires Names(market, goods, key)
    ensures var r := UpsertGoods(rows, market, goods);
            var g := LastFor(market, goods, key);
      && key in r
      && r[key] == MarketGoodRow(g.tradeVolume, g.supply, LastActivity(market, goods, key, PriorActivity(rows, key)),
                                 g.purchasePrice, g.sellPrice)
    decreases |goods|
  {
    var init := goods[..|goods| - 1];
    var last := goods[|goods| - 1];
    assert goods == init + [last];
    var before := UpsertGoods(rows, market, init);
    if KeyOf(market, last) == key {
      if Names(market, init, key) {
        UpsertGoodsAt(rows, market, init, key);
      } else {
        UpsertGoodsElsewhere(rows, market, init, key);
        NoNameNoActivity(market, init, key, PriorActivity(rows, key));
      }
    } else {
      var g :| g in goods && KeyOf(market, g) == key;
      assert g in init;
      UpsertGoodsAt(rows, market, init, key);
    }
  }

  lemma {:induction false} NoNameNoActivity(market: string, goods: seq<MarketGoodData>, key: MarketGoodKey, fallback: Option<string>)
    requires !Names(market, goods, key)
    ensures LastActivity(market, goods, key, fallback) == fallback
    decreases |goods|
  {
    if goods != [] {
      var init := goods[..|goods| - 1];
      assert goods[|goods| - 1] in goods;
      assert !Names(market, init, key) by {
        forall g | g in init ensures KeyOf(market, g) != key {
          assert g in goods;
        }
      }
      NoNameNoActivity(market, init, key, fallback);
    }
  }

  lemma {:induction false} LastActivityIdempotent(market: string, goods: seq<MarketGoodData>, key: MarketGoodKey, fallback: Option<string>)
    ensures LastActivity(market, goods, key, LastActivity(market, goods, key, fallback))
         == LastActivity(market, goods, key, fallback)
    decreases |goods|
  {
    if goods != [] {
      var init := goods[..|goods| - 1];
      var last := goods[|goods| - 1];
      if !(KeyOf(market, last) == key && last.activity.Some?) {
        LastActivityIdempotent(market, init, key, fallback);
        assert LastActivity(market, goods, key, fallback) == LastActivity(market, init, key, fallback);
      }
    }
  }

  /** Applying the same `tradeGoods` payload twice gives the same rows as once. */
  lemma UpsertGoodsIdempotent(rows: map<MarketGoodKey, MarketGoodRow>, market: string, goods: seq<MarketGoodData>)
    ensures UpsertGoods(UpsertGoods(rows, market, goods), market, goods) == UpsertGoods(rows, market, goods)
  {
    var once := UpsertGoods(rows, market, goods);
    var twice := UpsertGoods(once, market, goods);
    forall key | key in once
      ensures key in twice && twice[key] == once[key]
    {
      if Names(market, goods, key) {
        UpsertGoodsAt(rows, market, goods, key);
        UpsertGoodsAt(once, market, goods, key);
        LastActivityIdempotent(market, goods, key, PriorActivity(rows, key));
      } else {
        UpsertGoodsElsewhere(once, market, goods, key);
      }
    }
    assert twice.Keys == once.Keys;
  }
}
