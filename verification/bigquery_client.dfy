/** The warehouse side: the schema text, the product names, and the two memo
    slots that keep them between requests. The warehouse itself is a parameter:
    what it would answer to the schema request and to the product query at the
    moment of the call, or the exception it would raise. */
module BigQueryClient {
  import opened Wrappers
  import opened Text
  import opened Settings

  /** One field of `table.schema`: its name and its type. */
  datatype Field = Field(name: string, fieldType: string)

  /** One row of the product query; only its `name` column is read. */
  datatype ProductRow = ProductRow(name: string)

  /** What `client.get_table` and the product query would return at this moment. */
  datatype Warehouse = Warehouse(fields: Result<seq<Field>>, productRows: Result<seq<ProductRow>>)

  // ---- get_table_schema ----

  /** `f"{f.name} ({f.field_type})"`. */
  function ColumnEntry(f: Field): string
  {
    f.name + " (" + f.fieldType + ")"
  }

  function ColumnEntries(fields: seq<Field>): (entries: seq<string>)
    ensures |entries| == |fields|
    ensures forall i :: 0 <= i < |fields| ==> entries[i] == ColumnEntry(fields[i])
  {
    seq(|fields|, i requires 0 <= i < |fields| => ColumnEntry(fields[i]))
  }

  /** The schema description for `table` with these fields, in schema order. */
  function SchemaText(table: string, fields: seq<Field>): string
  {
    "Table: " + table + "\nColumns: " + Join(ColumnEntries(fields), ", ")
  }

  /** Columns are listed in schema order: one more field adds `, name (type)` at the end. */
  lemma SchemaTextInOrder(table: string, fields: seq<Field>, f: Field)
    requires fields != []
    ensures SchemaText(table, fields + [f]) == SchemaText(table, fields) + ", " + ColumnEntry(f)
  {
    assert ColumnEntries(fields + [f]) == ColumnEntries(fields) + [ColumnEntry(f)];
    JoinSnoc(ColumnEntries(fields), ColumnEntry(f), ", ");
  }

  /** The text names the table first and then every column with its type. */
  lemma SchemaTextNamesEachColumn(table: string, fields: seq<Field>, i: int)
    requires 0 <= i < |fields|
    ensures StartsWith(SchemaText(table, fields), "Table: " + table + "\nColumns: ")
    ensures Contains(SchemaText(table, fields), ColumnEntry(fields[i]))
  {
    var head := "Table: " + table + "\nColumns: ";
    var columns := Join(ColumnEntries(fields), ", ");
    JoinContainsPart(ColumnEntries(fields), ", ", i);
    ContainsWithin(head, columns, "", ColumnEntry(fields[i]));
    assert head + columns + "" == SchemaText(table, fields);
  }

  /** `get_table_schema()`: raises when the table lookup raises. */
  function GetTableSchema(cfg: Config, wh: Warehouse): (r: Result<string>)
    ensures r.Ok? <==> wh.fields.Ok?
    ensures r.Ok? ==> r.value == SchemaText(cfg.table, wh.fields.value)
    ensures r.Err? ==> r.msg == wh.fields.msg
  {
    match wh.fields
    case Ok(fields) => Ok(SchemaText(cfg.table, fields))
    case Err(e) => Err(e)
  }

  // ---- get_known_products ----

  /** `[row["name"] for row in rows]`. */
  function ProductNames(rows: seq<ProductRow>): (names: seq<string>)
    ensures |names| == |rows|
    ensures forall i :: 0 <= i < |rows| ==> names[i] == rows[i].name
  {
    seq(|rows|, i requires 0 <= i < |rows| => rows[i].name)
  }

  /** `get_known_products()`: any failure of the query is swallowed and gives `[]`. */
  function GetKnownProducts(wh: Warehouse): (products: seq<string>)
    ensures wh.productRows.Err? ==> products == []
    ensures wh.productRows.Ok? ==> products == ProductNames(wh.productRows.value)
  {
    match wh.productRows
    case Ok(rows) => ProductNames(rows)
    case Err(_) => []
  }

  // ---- The memo slots, as values ----

  /** `_schema_cache` and `_products_cache`; `None` is "unset". */
  datatype CacheState = CacheState(schema: Option<string>, products: Option<seq<string>>)

  const EmptyCache: CacheState := CacheState(None, None)

  /** The new slots, what the caller gets, and whether the warehouse was asked. */
  datatype Lookup<T> = Lookup(state: CacheState, result: T, fetched: bool)

  /** `get_cached_schema()` from slots `st`. */
  function SchemaLookup(cfg: Config, st: CacheState, wh: Warehouse): (l: Lookup<Result<string>>)
    ensures l.state.products == st.products
    ensures st.schema.Some? ==> !l.fetched && l.state == st && l.result == Ok(st.schema.value)
    ensures st.schema.None? ==> l.fetched && l.result == GetTableSchema(cfg, wh)
    ensures st.schema.None? && l.result.Ok? ==> l.state.schema == Some(l.result.value)
    ensures l.result.Err? ==> l.state == st
  {
    if st.schema.Some? then Lookup(st, Ok(st.schema.value), false)
    else match GetTableSchema(cfg, wh)
      case Ok(s) => Lookup(st.(schema := Some(s)), Ok(s), true)
      case Err(e) => Lookup(st, Err(e), true)
  }

  /** `get_cached_products()` from slots `st`. */
  function ProductsLookup(st: CacheState, wh: Warehouse): (l: Lookup<seq<string>>)
    ensures l.state.schema == st.schema && l.state.products == Some(l.result)
    ensures st.products.Some? ==> !l.fetched && l.state == st && l.result == st.products.value
    ensures st.products.None? ==> l.fetched && l.result == GetKnownProducts(wh)
  {
    if st.products.Some? then Lookup(st, st.products.value, false)
    else
      var products := GetKnownProducts(wh);
      Lookup(st.(products := Some(products)), products, true)
  }

  /** `refresh_caches()` from slots `st`: both slots are cleared, then only the
      schema is fetched again. */
  function RefreshLookup(cfg: Config, st: CacheState, wh: Warehouse): (l: Lookup<Result<string>>)
    ensures l.fetched && l.result == GetTableSchema(cfg, wh)
    ensures l.state.products == None
    ensures l.state.schema == if l.result.Ok? then Some(l.result.value) else None
  {
    SchemaLookup(cfg, EmptyCache, wh)
  }

  /** Two schema reads in a row: once the first has succeeded, the second returns
      the same text without asking the warehouse, whatever it would now answer. */
  lemma SchemaReadTwice(cfg: Config, st: CacheState, wh1: Warehouse, wh2: Warehouse)
    requires SchemaLookup(cfg, st, wh1).result.Ok?
    ensures var l1 := SchemaLookup(cfg, st, wh1);
      var l2 := SchemaLookup(cfg, l1.state, wh2);
      !l2.fetched && l2.result == l1.result && l2.state == l1.state
  {
  }

  /** A failed product fetch is remembered as "no products": a later read returns
      `[]` without asking the warehouse, even if the query would now succeed. */
  lemma FailedProductFetchIsMemoized(st: CacheState, wh1: Warehouse, wh2: Warehouse)
    requires st.products.None? && wh1.productRows.Err?
    ensures var l1 := ProductsLookup(st, wh1);
      var l2 := ProductsLookup(l1.state, wh2);
      l1.result == [] && !l2.fetched && l2.result == []
  {
  }

  // ---- Sequences of cache operations ----

  /** One call on the cache, with what the warehouse would answer at that moment. */
  datatype CacheOp = GetSchema(wh: Warehouse) | GetProducts(wh: Warehouse) | Refresh(wh: Warehouse)

  /** The slots after a sequence of calls, and how often each fetch reached the warehouse. */
  datatype Tally = Tally(state: CacheState, schemaFetches: nat, productFetches: nat)

  function Apply(cfg: Config, t: Tally, op: CacheOp): Tally
  {
    match op
    case GetSchema(wh) =>
      var l := SchemaLookup(cfg, t.state, wh);
      Tally(l.state, t.schemaFetches + (if l.fetched then 1 else 0), t.productFetches)
    case GetProducts(wh) =>
      var l := ProductsLookup(t.state, wh);
      Tally(l.state, t.schemaFetches, t.productFetches + (if l.fetched then 1 else 0))
    case Refresh(wh) =>
      var l := RefreshLookup(cfg, t.state, wh);
      Tally(l.state, t.schemaFetches + 1, t.productFetches)
  }

  /** The calls `ops`, in order, starting from slots `st`. */
  function Run(cfg: Config, st: CacheState, ops: seq<CacheOp>): Tally
  {
    if ops == [] then Tally(st, 0, 0)
    else Apply(cfg, Run(cfg, st, ops[..|ops| - 1]), ops[|ops| - 1])
  }

  predicate NoRefresh(ops: seq<CacheOp>)
  {
    forall i :: 0 <= i < |ops| ==> !ops[i].Refresh?
  }

  /** Between refreshes the product query runs at most once, whether it succeeds or
      fails, and not at all once the slot is set. */
  lemma {:induction false} ProductsFetchedAtMostOnce(cfg: Config, st: CacheState, ops: seq<CacheOp>)
    requires NoRefresh(ops)
    ensures var t := Run(cfg, st, ops);
      t.productFetches <= 1
      && (st.products.Some? ==> t.productFetches == 0 && t.state.products == st.products)
      && (t.productFetches == 1 ==> t.state.products.Some?)
      && (t.productFetches == 0 ==> t.state.products == st.products)
  {
    if ops != [] {
      var init := ops[..|ops| - 1];
      assert NoRefresh(init) by {
        forall i | 0 <= i < |init| ensures !init[i].Refresh? {
          assert init[i] == ops[i];
        }
      }
      ProductsFetchedAtMostOnce(cfg, st, init);
    }
  }

  /** Between refreshes a set schema slot is never fetched again and never changes. */
  lemma {:induction false} SchemaKeptUntilRefresh(cfg: Config, st: CacheState, ops: seq<CacheOp>)
    requires NoRefresh(ops) && st.schema.Some?
    ensures Run(cfg, st, ops).schemaFetches == 0
    ensures Run(cfg, st, ops).state.schema == st.schema
  {
    if ops != [] {
      var init := ops[..|ops| - 1];
      assert NoRefresh(init) by {
        forall i | 0 <= i < |init| ensures !init[i].Refresh? {
          assert init[i] == ops[i];
        }
      }
      SchemaKeptUntilRefresh(cfg, st, init);
    }
  }

  /** The number of schema reads among `ops`. */
  function SchemaReads(ops: seq<CacheOp>): nat
  {
    if ops == [] then 0
    else SchemaReads(ops[..|ops| - 1]) + (if ops[|ops| - 1].GetSchema? then 1 else 0)
  }

  /** While the schema fetch keeps failing, the slot stays unset and every schema
      read asks the warehouse again: a failure is not memoized, unlike products. */
  lemma {:induction false} FailingSchemaIsRetried(cfg: Config, st: CacheState, ops: seq<CacheOp>)
    requires NoRefresh(ops) && st.schema.None?
    requires forall i :: 0 <= i < |ops| ==> ops[i].wh.fields.Err?
    ensures Run(cfg, st, ops).state.schema.None?
    ensures Run(cfg, st, ops).schemaFetches == SchemaReads(ops)
  {
    if ops != [] {
      var init := ops[..|ops| - 1];
      assert NoRefresh(init) by {
        forall i | 0 <= i < |init| ensures !init[i].Refresh? {
          assert init[i] == ops[i];
        }
      }
      forall i | 0 <= i < |init| ensures init[i].wh.fields.Err? {
        assert init[i] == ops[i];
      }
      FailingSchemaIsRetried(cfg, st, init);
    }
  }

  // ---- The memo slots, in place ----

  /** The module-global `_schema_cache` / `_products_cache` pair. `log` records every
      call made on it, so that the fetch counts of `Run` speak about this object. */
  class MetadataCache {
    const cfg: Config
    var schemaCache: Option<string>
    var productsCache: Option<seq<string>>
    ghost var log: seq<CacheOp>

    function State(): CacheState
      reads this
    {
      CacheState(schemaCache, productsCache)
    }

    /** The slots are what the logged calls leave behind, starting from unset. */
    ghost predicate Valid()
      reads this
    {
      Run(cfg, EmptyCache, log).state == State()
    }

    /** Both slots start unset (module load). */
    constructor (cfg: Config)
      ensures Valid() && this.cfg == cfg
      ensures State() == EmptyCache && log == []
    {
      this.cfg := cfg;
      schemaCache := None;
      productsCache := None;
      log := [];
    }

    /** `get_cached_schema()`. The slot is assigned only after a successful fetch, so
        a raised exception leaves it unset. */
    method GetCachedSchema(wh: Warehouse) returns (r: Result<string>)
      requires Valid()
      modifies this
      ensures Valid() && log == old(log) + [GetSchema(wh)]
      ensures var l := SchemaLookup(cfg, old(State()), wh);
        State() == l.state && r == l.result
    {
      log := log + [GetSchema(wh)];
      assert log[..|log| - 1] == old(log);
      if schemaCache.None? {
        var fetched := GetTableSchema(cfg, wh);
        if fetched.Err? {
          return fetched;
        }
        schemaCache := Some(fetched.value);
      }
      r := Ok(schemaCache.value);
    }

    /** `get_cached_products()`. Whatever the fetch gives, `[]` included, is kept. */
    method GetCachedProducts(wh: Warehouse) returns (products: seq<string>)
      requires Valid()
      modifies this
      ensures Valid() && log == old(log) + [GetProducts(wh)]
      ensures var l := ProductsLookup(old(State()), wh);
        State() == l.state && products == l.result
    {
      log := log + [GetProducts(wh)];
      assert log[..|log| - 1] == old(log);
      if productsCache.None? {
        productsCache := Some(GetKnownProducts(wh));
      }
      products := productsCache.value;
    }

    /** `refresh_caches()`: clear both slots, then read the schema again. */
    method RefreshCaches(wh: Warehouse) returns (r: Result<string>)
      requires Valid()
      modifies this
      ensures Valid() && log == old(log) + [Refresh(wh)]
      ensures var l := RefreshLookup(cfg, old(State()), wh);
        State() == l.state && r == l.result
    {
      schemaCache := None;
      productsCache := None;
      log := log + [Refresh(wh)];
      assert log[..|log| - 1] == old(log);
      var fetched := GetTableSchema(cfg, wh);
      if fetched.Err? {
        return fetched;
      }
      schemaCache := Some(fetched.value);
      r := Ok(schemaCache.value);
    }
  }
}
