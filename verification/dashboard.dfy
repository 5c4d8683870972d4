/** The three sections of the dashboard page, each of which reads the same
    CSV contents afresh: DTU consumption (main.py:54-85), vCore consumption
    (main.py:87-102) and the SKU histogram (main.py:106-113). A section that
    raises stops the whole page. */
module Dashboard {
  import opened Wrappers
  import opened Frame
  import opened Query
  import Series
  import Pricing

  /** What the DTU section shows: the selected rows, the mean used
      percentage (`None` for NaN), the number of database names and the
      total monthly price. */
  datatype DtuOverview = DtuOverview(
    shown: Table, averageUsedPercentage: Option<real>, databases: nat, totalPrice: real)

  /** What the vCore section shows: the selected rows, the mean CPU
      percentage (`None` for NaN) and the number of database names. */
  datatype VcoreOverview = VcoreOverview(shown: Table, averageCpu: Option<real>, databases: nat)

  /** The figures of the whole page: the DTU catalog as displayed, the two
      consumption sections and the bar chart's (SKU, count) pairs. */
  datatype Page = Page(
    dtuCatalog: map<string, real>, dtu: DtuOverview, vcore: VcoreOverview, skuCounts: seq<(string, nat)>)

  /** The columns the DTU section reads. */
  const DTU_COLUMNS: set<Column> :=
    {DtuUsedAverage, DtuLimit, ServiceObjective, MemoryPercent, PercentageCpu, SkuName, DatabaseName}

  predicate HasColumns(t: Table, cs: set<Column>)
  {
    forall c :: c in cs ==> c.Header() in t.columns
  }

  predicate SkusPresent(t: Table)
  {
    forall i :: 0 <= i < |t.rows| ==> t.rows[i].skuName.Some?
  }

  /** A row after main.py:60 and 63: its percentage and its price filled in. */
  function Enriched(r: Row, catalog: map<string, real>): Row
  {
    r.(dtuUsedPercentage := UsedPercentage(r), price := TierPrice(r, catalog))
  }

  // ---------------------------------------------------------------------
  // DTU section

  /** main.py:60-69 as one value-level step. */
  function DtuEnrichment(data: Table, catalog: map<string, real>): Result<Table, Fault>
  {
    var withPercentage :- WithUsedPercentage(data);
    var withPrice :- WithPrice(withPercentage, catalog);
    var noMemory :- DropColumn(withPrice, MemoryPercent.Header());
    DropColumn(noMemory, PercentageCpu.Header())
  }

  /** main.py:73-85 on the enriched frame. */
  function DtuSummary(enriched: Table): Result<DtuOverview, Fault>
  {
    var shown :- Where(enriched, STANDARD);
    var percentages :- Numbers(shown, DtuUsedPercentage);
    var names :- Texts(shown, DatabaseName);
    var prices :- Numbers(shown, Price);
    Ok(DtuOverview(shown, Series.Mean(percentages), Series.Count(names), Series.Total(prices)))
  }

  function DtuOverviewOf(data: Table, catalog: map<string, real>): Result<DtuOverview, Fault>
  {
    var enriched :- DtuEnrichment(data, catalog);
    DtuSummary(enriched)
  }

  /** The DTU section: `df` is read, changed in place step by step, then
      filtered and summarised. */
  method DtuConsumption(data: Table, catalog: map<string, real>) returns (r: Result<DtuOverview, Fault>)
    ensures r == DtuOverviewOf(data, catalog)
  {
    var df := new Frame(data);
    var outcome := df.AddUsedPercentage();
    if outcome.Fail? {
      return Err(outcome.error);
    }
    outcome := df.AddPrice(catalog);
    if outcome.Fail? {
      return Err(outcome.error);
    }
    outcome := df.Drop(MemoryPercent.Header());
    if outcome.Fail? {
      return Err(outcome.error);
    }
    outcome := df.Drop(PercentageCpu.Header());
    if outcome.Fail? {
      return Err(outcome.error);
    }
    r := DtuSummary(df.Snapshot());
  }

  /** The headers the enrichment adds and drops differ from one another and
      from the headers read around them. */
  lemma HeadersDiffer()
    ensures DtuUsedPercentage.Header() != Price.Header()
    ensures MemoryPercent.Header() != PercentageCpu.Header()
    ensures DtuUsedPercentage.Header() != MemoryPercent.Header() && DtuUsedPercentage.Header() != PercentageCpu.Header()
    ensures Price.Header() != MemoryPercent.Header() && Price.Header() != PercentageCpu.Header()
    ensures ServiceObjective.Header() != DtuUsedPercentage.Header()
    ensures SkuName.Header() != DtuUsedPercentage.Header() && SkuName.Header() != Price.Header()
    ensures SkuName.Header() != MemoryPercent.Header() && SkuName.Header() != PercentageCpu.Header()
    ensures DatabaseName.Header() != DtuUsedPercentage.Header() && DatabaseName.Header() != Price.Header()
    ensures DatabaseName.Header() != MemoryPercent.Header() && DatabaseName.Header() != PercentageCpu.Header()
  {
  }

  /** The columns main.py:60-69 reads. */
  const ENRICHMENT_COLUMNS: set<Column> :=
    {DtuUsedAverage, DtuLimit, ServiceObjective, MemoryPercent, PercentageCpu}

  function EnrichAll(rows: seq<Row>, catalog: map<string, real>): (r: seq<Row>)
    ensures |r| == |rows| && forall i :: 0 <= i < |rows| ==> r[i] == Enriched(rows[i], catalog)
  {
    MapRows(rows, (row: Row) => Enriched(row, catalog))
  }

  /** main.py:60-69 succeeds exactly when the frame has the five columns it
      reads; otherwise it raises KeyError for one of those that is missing. */
  lemma EnrichmentSucceeds(data: Table, catalog: map<string, real>)
    ensures var e := DtuEnrichment(data, catalog);
      && (e.Ok? <==> HasColumns(data, ENRICHMENT_COLUMNS))
      && (e.Err? ==> (e.error.KeyError? && e.error.column !in data.columns
                      && exists c :: c in ENRICHMENT_COLUMNS && c.Header() == e.error.column))
  {
    HeadersDiffer();
    var a := WithUsedPercentage(data);
    if a.Err? {
      assert !HasColumns(data, ENRICHMENT_COLUMNS) by {
        if DtuUsedAverage.Header() !in data.columns { assert DtuUsedAverage in ENRICHMENT_COLUMNS; }
        else { assert DtuLimit in ENRICHMENT_COLUMNS; }
      }
      return;
    }
    var b := WithPrice(a.value, catalog);
    if b.Err? {
      assert ServiceObjective in ENRICHMENT_COLUMNS;
      return;
    }
    var c := DropColumn(b.value, MemoryPercent.Header());
    if c.Err? {
      assert MemoryPercent in ENRICHMENT_COLUMNS;
      return;
    }
    var d := DropColumn(c.value, PercentageCpu.Header());
    if d.Err? {
      assert PercentageCpu in ENRICHMENT_COLUMNS;
      return;
    }
    assert MemoryPercent.Header() in data.columns;
    assert PercentageCpu.Header() in data.columns;
    HasEnrichmentColumns(data);
  }

  lemma HasEnrichmentColumns(t: Table)
    requires DtuUsedAverage.Header() in t.columns && DtuLimit.Header() in t.columns
    requires ServiceObjective.Header() in t.columns && MemoryPercent.Header() in t.columns
    requires PercentageCpu.Header() in t.columns
    ensures HasColumns(t, ENRICHMENT_COLUMNS)
  {
  }

  /** On success, main.py:60-69 keeps the rows in number and order, fills
      each one in from that row alone, adds the two new columns and removes
      the two dropped ones. */
  lemma EnrichmentResult(data: Table, catalog: map<string, real>)
    requires DtuEnrichment(data, catalog).Ok?
    ensures var t := DtuEnrichment(data, catalog).value;
      && t.rows == EnrichAll(data.rows, catalog)
      && forall h :: h in t.columns <==>
           (h in data.columns || h == DtuUsedPercentage.Header() || h == Price.Header())
           && h != MemoryPercent.Header() && h != PercentageCpu.Header()
  {
    var a := WithUsedPercentage(data).value;
    var b := WithPrice(a, catalog).value;
    var c := DropColumn(b, MemoryPercent.Header()).value;
    var d := DropColumn(c, PercentageCpu.Header()).value;
    EnrichedHeader(data.columns, a.columns, b.columns, c.columns, d.columns);
    EnrichedRows(data.rows, a.rows, b.rows, catalog);
  }

  /** The header after two column assignments and two drops. */
  lemma EnrichedHeader(data: seq<string>, a: seq<string>, b: seq<string>, c: seq<string>, d: seq<string>)
    requires forall h :: h in a <==> h in data || h == DtuUsedPercentage.Header()
    requires forall h :: h in b <==> h in a || h == Price.Header()
    requires MemoryPercent.Header() !in c && forall h :: h != MemoryPercent.Header() ==> (h in c <==> h in b)
    requires PercentageCpu.Header() !in d && forall h :: h != PercentageCpu.Header() ==> (h in d <==> h in c)
    ensures forall h :: h in d <==>
      (h in data || h == DtuUsedPercentage.Header() || h == Price.Header())
      && h != MemoryPercent.Header() && h != PercentageCpu.Header()
  {
  }

  /** Rows given their percentage and then their price are the enriched rows. */
  lemma EnrichedRows(data: seq<Row>, a: seq<Row>, b: seq<Row>, catalog: map<string, real>)
    requires |a| == |data| && forall i :: 0 <= i < |data| ==>
      a[i] == data[i].(dtuUsedPercentage := UsedPercentage(data[i]))
    requires |b| == |a| && forall i :: 0 <= i < |a| ==> b[i] == a[i].(price := TierPrice(a[i], catalog))
    ensures b == EnrichAll(data, catalog)
  {
    var e := EnrichAll(data, catalog);
    forall i | 0 <= i < |b| ensures b[i] == e[i] {
      assert TierPrice(a[i], catalog) == TierPrice(data[i], catalog);
    }
  }

  /** main.py:73-85 on an enriched frame succeeds exactly when the SKU and
      name columns are there and no SKU is missing. */
  lemma SummarySucceeds(t: Table)
    requires DtuUsedPercentage.Header() in t.columns && Price.Header() in t.columns
    ensures var s := DtuSummary(t);
      && (s.Ok? <==> SkuName.Header() in t.columns && SkusPresent(t) && DatabaseName.Header() in t.columns)
      && (s.Err? ==> (s.error == KeyError(SkuName.Header()) && SkuName.Header() !in t.columns)
                     || (s.error == MissingSku && !SkusPresent(t))
                     || (s.error == KeyError(DatabaseName.Header()) && DatabaseName.Header() !in t.columns))
  {
  }

  /** What main.py:73-85 shows: the rows whose SKU starts with "Standard",
      in order, the number of their names (at most the number of rows), the
      sum of their known prices, and a mean percentage that is undefined
      exactly when none of them has one. */
  lemma SummaryShows(t: Table)
    requires DtuSummary(t).Ok?
    ensures var o := DtuSummary(t).value;
      && o.shown.rows == KeepPrefix(t.rows, STANDARD)
      && o.databases == Series.Count(TextColumn(o.shown.rows, DatabaseName)) <= |o.shown.rows|
      && o.totalPrice == Series.Sum(Series.Present(NumberColumn(o.shown.rows, Price)))
      && o.averageUsedPercentage == Series.Mean(NumberColumn(o.shown.rows, DtuUsedPercentage))
      && (o.averageUsedPercentage.None? <==>
            forall i :: 0 <= i < |o.shown.rows| ==> o.shown.rows[i].dtuUsedPercentage.None?)
  {
    ShownColumns(DtuSummary(t).value.shown.rows);
  }

  /** The reductions of main.py:79-85 on the shown rows. */
  lemma ShownColumns(rows: seq<Row>)
    ensures Series.Count(TextColumn(rows, DatabaseName)) <= |rows|
    ensures Series.Total(NumberColumn(rows, Price)) == Series.Sum(Series.Present(NumberColumn(rows, Price)))
    ensures Series.Mean(NumberColumn(rows, DtuUsedPercentage)).None? <==>
      forall i :: 0 <= i < |rows| ==> rows[i].dtuUsedPercentage.None?
  {
    var percentages := NumberColumn(rows, DtuUsedPercentage);
    Series.CountBounds(TextColumn(rows, DatabaseName));
    Series.CountBounds(percentages);
    Series.SkipMissing(NumberColumn(rows, Price));
    assert forall i :: 0 <= i < |rows| ==> percentages[i] == rows[i].dtuUsedPercentage;
  }

  lemma HasDtuColumns(t: Table)
    requires HasColumns(t, ENRICHMENT_COLUMNS)
    requires SkuName.Header() in t.columns && DatabaseName.Header() in t.columns
    ensures HasColumns(t, DTU_COLUMNS)
  {
    assert DtuUsedAverage in ENRICHMENT_COLUMNS && DtuLimit in ENRICHMENT_COLUMNS;
    assert ServiceObjective in ENRICHMENT_COLUMNS && MemoryPercent in ENRICHMENT_COLUMNS;
    assert PercentageCpu in ENRICHMENT_COLUMNS;
  }

  /** The DTU section succeeds exactly when the frame has every column it
      reads and no SKU is missing; a failure is a KeyError naming one of
      those columns that is missing, or the missing-SKU mask. */
  lemma DtuOverviewSucceeds(data: Table, catalog: map<string, real>)
    ensures DtuOverviewOf(data, catalog).Ok? <==> HasColumns(data, DTU_COLUMNS) && SkusPresent(data)
    ensures DtuOverviewOf(data, catalog).Err? ==>
      match DtuOverviewOf(data, catalog).error
      case KeyError(h) => h !in data.columns && exists c :: c in DTU_COLUMNS && c.Header() == h
      case MissingSku => !SkusPresent(data)
  {
    EnrichmentSucceeds(data, catalog);
    var e := DtuEnrichment(data, catalog);
    if e.Err? {
      var c :| c in ENRICHMENT_COLUMNS && c.Header() == e.error.column;
      assert c in DTU_COLUMNS;
    } else {
      EnrichmentResult(data, catalog);
      var t := e.value;
      assert forall i :: 0 <= i < |t.rows| ==> t.rows[i].skuName == data.rows[i].skuName;
      SummaryDecides(data, t);
    }
  }

  /** Once the enrichment has succeeded, giving `t`, the summary's outcome
      depends on the SKU and name columns of the data as read and on its
      SKUs. */
  lemma SummaryDecides(data: Table, t: Table)
    requires HasColumns(data, ENRICHMENT_COLUMNS)
    requires |t.rows| == |data.rows| && forall i :: 0 <= i < |t.rows| ==> t.rows[i].skuName == data.rows[i].skuName
    requires forall h :: h in t.columns <==>
      (h in data.columns || h == DtuUsedPercentage.Header() || h == Price.Header())
      && h != MemoryPercent.Header() && h != PercentageCpu.Header()
    ensures DtuSummary(t).Ok? <==> HasColumns(data, DTU_COLUMNS) && SkusPresent(data)
    ensures DtuSummary(t).Err? ==>
      match DtuSummary(t).error
      case KeyError(h) => h !in data.columns && exists c :: c in DTU_COLUMNS && c.Header() == h
      case MissingSku => !SkusPresent(data)
  {
    HeadersDiffer();
    SummarySucceeds(t);
    assert SkusPresent(t) <==> SkusPresent(data);
    assert SkuName.Header() in t.columns <==> SkuName.Header() in data.columns;
    assert DatabaseName.Header() in t.columns <==> DatabaseName.Header() in data.columns;
    if SkuName.Header() in data.columns && DatabaseName.Header() in data.columns {
      HasDtuColumns(data);
    } else {
      assert SkuName in DTU_COLUMNS && DatabaseName in DTU_COLUMNS;
    }
  }

  /** On success, the DTU section shows the enriched rows whose SKU starts
      with "Standard", in order; it counts their names, adds up their known
      prices and averages their defined percentages. */
  lemma DtuOverviewShows(data: Table, catalog: map<string, real>)
    requires DtuOverviewOf(data, catalog).Ok?
    ensures var o := DtuOverviewOf(data, catalog).value;
      && o.shown.rows == KeepPrefix(EnrichAll(data.rows, catalog), STANDARD)
      && o.databases == Series.Count(TextColumn(o.shown.rows, DatabaseName)) <= |o.shown.rows|
      && o.totalPrice == Series.Sum(Series.Present(NumberColumn(o.shown.rows, Price)))
      && o.averageUsedPercentage == Series.Mean(NumberColumn(o.shown.rows, DtuUsedPercentage))
      && (o.averageUsedPercentage.None? <==>
            forall i :: 0 <= i < |o.shown.rows| ==> o.shown.rows[i].dtuUsedPercentage.None?)
  {
    EnrichmentResult(data, catalog);
    SummaryShows(DtuEnrichment(data, catalog).value);
  }

  /** A percentage computed from an average within its limit is between 0
      and 100. */
  lemma PercentageWithinLimit(r: Row)
    requires r.dtuUsedAverage.Some? && r.dtuLimit.Some?
    requires 0.0 <= r.dtuUsedAverage.value <= r.dtuLimit.value
    ensures UsedPercentage(r).Some? ==> 0.0 <= UsedPercentage(r).value <= 100.0
  {
    if UsedPercentage(r).Some? {
      var p, a, l := UsedPercentage(r).value, r.dtuUsedAverage.value, r.dtuLimit.value;
      assert l > 0.0 && p * l == a * 100.0;
      assert p * l <= 100.0 * l;
    }
  }

  /** The defined percentages of "Standard" rows whose averages stay within
      their limits average to a value between 0 and 100. */
  lemma MeanWithinLimits(rows: seq<Row>, catalog: map<string, real>, shown: seq<Row>)
    requires shown == KeepPrefix(EnrichAll(rows, catalog), STANDARD)
    requires forall i :: 0 <= i < |rows| ==>
      rows[i].dtuUsedAverage.Some? && rows[i].dtuLimit.Some? &&
      0.0 <= rows[i].dtuUsedAverage.value <= rows[i].dtuLimit.value
    ensures var m := Series.Mean(NumberColumn(shown, DtuUsedPercentage));
      m.Some? ==> 0.0 <= m.value <= 100.0
  {
    var enriched := EnrichAll(rows, catalog);
    var percentages := NumberColumn(shown, DtuUsedPercentage);
    forall i | 0 <= i < |percentages| && percentages[i].Some?
      ensures 0.0 <= percentages[i].value <= 100.0
    {
      assert shown[i] in enriched;
      var j :| 0 <= j < |enriched| && enriched[j] == shown[i];
      PercentageWithinLimit(rows[j]);
    }
    if Series.Count(percentages) > 0 {
      Series.MeanBounds(percentages, 0.0, 100.0);
    }
  }

  /** When every database's average stays within its limit, the average
      used percentage the DTU section reports lies between 0 and 100. */
  lemma DtuAverageWithinLimits(data: Table, catalog: map<string, real>)
    requires DtuOverviewOf(data, catalog).Ok?
    requires forall i :: 0 <= i < |data.rows| ==>
      data.rows[i].dtuUsedAverage.Some? && data.rows[i].dtuLimit.Some? &&
      0.0 <= data.rows[i].dtuUsedAverage.value <= data.rows[i].dtuLimit.value
    ensures var m := DtuOverviewOf(data, catalog).value.averageUsedPercentage;
      m.Some? ==> 0.0 <= m.value <= 100.0
  {
    DtuOverviewShows(data, catalog);
    MeanWithinLimits(data.rows, catalog, DtuOverviewOf(data, catalog).value.shown.rows);
  }

  /** The price column joins against the monthly DTU catalog: a known tier
      gets its hourly price times 24 * 31, anything else a missing price. */
  lemma DtuTierPrice(r: Row)
    ensures forall i :: 0 <= i < |Pricing.DTU_TIERS| && r.serviceObjective == Some(Pricing.DTU_TIERS[i]) ==>
      TierPrice(r, Pricing.DtuCatalog()) == Some(Pricing.DTU_HOURLY[i] * Pricing.HOURS_PER_MONTH)
    ensures r.serviceObjective.None? || r.serviceObjective.value !in Pricing.DTU_TIERS ==>
      TierPrice(r, Pricing.DtuCatalog()).None?
  {
    Pricing.DtuCatalogPrices();
  }

  // ---------------------------------------------------------------------
  // vCore section

  /** main.py:90-102: the rows whose SKU starts with "GP", their mean CPU
      percentage and the number of their names. */
  function VcoreOverviewOf(data: Table): Result<VcoreOverview, Fault>
  {
    var shown :- Where(data, GENERAL_PURPOSE);
    var cpu :- Numbers(shown, PercentageCpu);
    var names :- Texts(shown, DatabaseName);
    Ok(VcoreOverview(shown, Series.Mean(cpu), Series.Count(names)))
  }

  /** The vCore section succeeds exactly when the SKU, CPU and name columns
      are there and no SKU is missing; then it shows the "GP" rows of the
      data as read, in order, averages their CPU percentages (undefined iff
      none is present) and counts their present names, at most one per row. */
  lemma VcoreOverviewFacts(data: Table)
    ensures var v := VcoreOverviewOf(data);
      && (v.Ok? <==> SkuName.Header() in data.columns && SkusPresent(data)
                     && PercentageCpu.Header() in data.columns && DatabaseName.Header() in data.columns)
      && (v.Ok? ==> v.value.shown == Table(data.columns, KeepPrefix(data.rows, GENERAL_PURPOSE))
                    && v.value.averageCpu == Series.Mean(NumberColumn(v.value.shown.rows, PercentageCpu))
                    && v.value.databases == Series.Count(TextColumn(v.value.shown.rows, DatabaseName))
                    && v.value.databases <= |v.value.shown.rows|
                    && (v.value.averageCpu.None? <==>
                          forall i :: 0 <= i < |v.value.shown.rows| ==> v.value.shown.rows[i].percentageCpu.None?))
  {
    var v := VcoreOverviewOf(data);
    if v.Ok? {
      var rows := v.value.shown.rows;
      var cpu := NumberColumn(rows, PercentageCpu);
      Series.CountBounds(TextColumn(rows, DatabaseName));
      Series.CountBounds(cpu);
      assert forall i :: 0 <= i < |rows| ==> cpu[i] == rows[i].percentageCpu;
    }
  }

  // ---------------------------------------------------------------------
  // SKU section

  /** main.py:109-113: `databaseSkuName.value_counts()`. */
  function SkuCounts(data: Table): Result<seq<(string, nat)>, Fault>
  {
    var skus :- Texts(data, SkuName);
    Ok(Series.ValueCounts(skus))
  }

  /** The bar chart has one bar per distinct present SKU, each as tall as
      the number of rows with that SKU (so at least 1), and the bars add up
      to the number of rows that have a SKU. */
  lemma SkuCountsFacts(data: Table)
    ensures SkuCounts(data).Ok? <==> SkuName.Header() in data.columns
    ensures SkuCounts(data).Ok? ==>
      var skus := TextColumn(data.rows, SkuName);
      var bars := SkuCounts(data).value;
      && Series.DistinctKeys(bars)
      && Series.Keys(bars) == (set x | x in Series.Present(skus))
      && (forall g :: g in bars ==> g.1 >= 1)
      && (forall k :: Series.CountOf(bars, k) == Series.Occurrences(skus, k))
      && Series.CountsTotal(bars) == Series.Count(skus)
  {
    Series.ValueCountsFacts(TextColumn(data.rows, SkuName));
  }

  // ---------------------------------------------------------------------
  // The whole page

  /** The page runs the three sections in order on the same CSV contents;
      the first section that raises stops it. */
  function PageOf(data: Table): Result<Page, Fault>
  {
    var dtu :- DtuOverviewOf(data, Pricing.DtuCatalog());
    var vcore :- VcoreOverviewOf(data);
    var skus :- SkuCounts(data);
    Ok(Page(Pricing.DtuCatalog(), dtu, vcore, skus))
  }

  /** main.py:39-113 after the credential and script preamble, with
      `data` the contents of data.csv. */
  method Render(data: Table) returns (page: Result<Page, Fault>)
    ensures page == PageOf(data)
  {
    var catalog := Pricing.LoadDtuCatalog();
    var dtu := DtuConsumption(data, catalog);
    if dtu.Err? {
      return Err(dtu.error);
    }
    var vcore := VcoreOverviewOf(data);
    if vcore.Err? {
      return Err(vcore.error);
    }
    var skus := SkuCounts(data);
    if skus.Err? {
      return Err(skus.error);
    }
    page := Ok(Page(catalog, dtu.value, vcore.value, skus.value));
  }

  /** The DTU section reads every column the later sections read, so the
      page renders exactly when the DTU section does, and otherwise fails
      with the DTU section's error. */
  lemma PageSucceeds(data: Table)
    ensures PageOf(data).Ok? <==> DtuOverviewOf(data, Pricing.DtuCatalog()).Ok?
    ensures PageOf(data).Err? ==> PageOf(data).error == DtuOverviewOf(data, Pricing.DtuCatalog()).error
  {
    DtuOverviewSucceeds(data, Pricing.DtuCatalog());
    VcoreOverviewFacts(data);
    SkuCountsFacts(data);
    if DtuOverviewOf(data, Pricing.DtuCatalog()).Ok? {
      assert SkuName in DTU_COLUMNS && PercentageCpu in DTU_COLUMNS && DatabaseName in DTU_COLUMNS;
    }
  }
  // ---------------------------------------------------------------------
  // A worked example

  const EXAMPLE_HEADER: seq<string> := [
    DatabaseName.Header(), SkuName.Header(), ServiceObjective.Header(), DtuUsedAverage.Header(),
    DtuLimit.Header(), PercentageCpu.Header(), MemoryPercent.Header()]

  function Database(name: string, sku: string, objective: string, average: real, limit: real, cpu: real): Row
  {
    Row(Some(name), Some(sku), Some(objective), Some(average), Some(limit), Some(cpu), Some(0.0), None, None)
  }

  const EXAMPLE_ROWS: seq<Row> := [
    Database("db1", "Standard_S1", "S1", 50.0, 100.0, 30.0),
    Database("db2", "GP_Gen5_2", "GP_Gen5_2", 20.0, 40.0, 60.0),
    Database("db3", "Standard_S0", "S0", 10.0, 50.0, 10.0)]

  lemma ExamplePrefixes()
    ensures HasPrefix(EXAMPLE_ROWS[0], STANDARD) && !HasPrefix(EXAMPLE_ROWS[1], STANDARD)
    ensures HasPrefix(EXAMPLE_ROWS[2], STANDARD)
  {
    assert EXAMPLE_ROWS[1].skuName.value[0] == 'G' != STANDARD[0];
  }

  lemma ExampleEnriched(catalog: map<string, real>)
    requires "S0" in catalog && "S1" in catalog
    ensures var e := EnrichAll(EXAMPLE_ROWS, catalog);
      && e[0].dtuUsedPercentage == Some(50.0) && e[2].dtuUsedPercentage == Some(20.0)
      && e[0].price == Some(catalog["S1"]) && e[2].price == Some(catalog["S0"])
      && e[0].databaseName == Some("db1") && e[2].databaseName == Some("db3")
  {
  }

  lemma ExampleSucceeds(catalog: map<string, real>)
    ensures DtuOverviewOf(Table(EXAMPLE_HEADER, EXAMPLE_ROWS), catalog).Ok?
  {
    ExampleColumns();
    ExampleSkus();
    CompleteDataSucceeds(Table(EXAMPLE_HEADER, EXAMPLE_ROWS), catalog);
  }

  lemma ExampleColumns()
    ensures HasColumns(Table(EXAMPLE_HEADER, EXAMPLE_ROWS), DTU_COLUMNS)
  {
    var data := Table(EXAMPLE_HEADER, EXAMPLE_ROWS);
    HasEnrichmentColumns(data);
    HasDtuColumns(data);
  }

  lemma ExampleSkus()
    ensures SkusPresent(Table(EXAMPLE_HEADER, EXAMPLE_ROWS))
  {
    assert EXAMPLE_ROWS[0].skuName.Some? && EXAMPLE_ROWS[1].skuName.Some? && EXAMPLE_ROWS[2].skuName.Some?;
  }

  lemma CompleteDataSucceeds(data: Table, catalog: map<string, real>)
    requires HasColumns(data, DTU_COLUMNS) && SkusPresent(data)
    ensures DtuOverviewOf(data, catalog).Ok?
  {
    DtuOverviewSucceeds(data, catalog);
  }

  lemma KeepFirstAndLast(e: seq<Row>)
    requires |e| == 3 && HasPrefix(e[0], STANDARD) && !HasPrefix(e[1], STANDARD) && HasPrefix(e[2], STANDARD)
    ensures KeepPrefix(e, STANDARD) == [e[0], e[2]]
  {
    assert e[..2] == [e[0], e[1]] && e[..2][..1] == [e[0]] && e[..2][..1][..0] == [];
  }

  lemma TwoShown(shown: seq<Row>, p0: real, p1: real)
    requires |shown| == 2
    requires shown[0].dtuUsedPercentage == Some(50.0) && shown[1].dtuUsedPercentage == Some(20.0)
    requires shown[0].databaseName.Some? && shown[1].databaseName.Some?
    requires shown[0].price == Some(p0) && shown[1].price == Some(p1)
    ensures Series.Mean(NumberColumn(shown, DtuUsedPercentage)) == Some(35.0)
    ensures Series.Count(TextColumn(shown, DatabaseName)) == 2
    ensures Series.Sum(Series.Present(NumberColumn(shown, Price))) == p0 + p1
  {
    var percentages := NumberColumn(shown, DtuUsedPercentage);
    assert percentages[1..][1..] == [];
    assert percentages[1..][0] == Some(20.0);
    assert Series.Count(percentages[1..]) == 1 && Series.Total(percentages[1..]) == 20.0;
    var names := TextColumn(shown, DatabaseName);
    assert names[1..][1..] == [];
    assert Series.Count(names[1..]) == 1;
    var prices := NumberColumn(shown, Price);
    assert prices[1..][1..] == [];
    assert Series.Present(prices[1..]) == [p1];
    assert Series.Sum([p0, p1][1..]) == p1;
  }

  /** Two "Standard" databases, on S1 at 50 of 100 DTUs and on S0 at 10 of
      50, and one "GP" database: the DTU section shows the two Standard
      rows, averages their 50% and 20% to 35%, counts 2 and totals the S1
      and S0 monthly prices. */
  lemma ThreeDatabases(catalog: map<string, real>)
    requires "S0" in catalog && "S1" in catalog
    ensures var r := DtuOverviewOf(Table(EXAMPLE_HEADER, EXAMPLE_ROWS), catalog);
      && r.Ok?
      && |r.value.shown.rows| == 2
      && r.value.averageUsedPercentage == Some(35.0)
      && r.value.databases == 2
      && r.value.totalPrice == catalog["S1"] + catalog["S0"]
  {
    var data := Table(EXAMPLE_HEADER, EXAMPLE_ROWS);
    ExampleSucceeds(catalog);
    DtuOverviewShows(data, catalog);
    ExamplePrefixes();
    ExampleEnriched(catalog);
    var e := EnrichAll(EXAMPLE_ROWS, catalog);
    assert forall i :: 0 <= i < 3 ==> e[i].skuName == EXAMPLE_ROWS[i].skuName;
    KeepFirstAndLast(e);
    TwoShown([e[0], e[2]], catalog["S1"], catalog["S0"]);
  }

  /** Against the monthly DTU catalog, the example's total is the S1 price
      0.0404 * 744 plus the S0 price 0.0202 * 744. */
  lemma ThreeDatabasesPriced()
    ensures var r := DtuOverviewOf(Table(EXAMPLE_HEADER, EXAMPLE_ROWS), Pricing.DtuCatalog());
      r.Ok? && r.value.totalPrice == 45.0864
  {
    Pricing.DtuCatalogExamples();
    ThreeDatabases(Pricing.DtuCatalog());
  }
}
