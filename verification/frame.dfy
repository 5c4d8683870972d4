/** The metrics data frame read from the CSV file and the enrichment the
    DTU section applies to it in place (main.py:57-69): a computed
    `DTU Used Percentage` column, a `Price` column looked up in the DTU
    catalog, and two dropped columns. */
module Frame {
  import opened Wrappers

  /** The columns the dashboard reads or writes. */
  datatype Column =
    | DatabaseName | SkuName | ServiceObjective
    | DtuUsedAverage | DtuLimit | PercentageCpu | MemoryPercent
    | DtuUsedPercentage | Price
  {
    /** The column's header in the CSV file and in the frame. */
    function Header(): string
    {
      match this
      case DatabaseName => "DatabaseName"
      case SkuName => "databaseSkuName"
      case ServiceObjective => "CurrentServiceObjectiveName"
      case DtuUsedAverage => "DTU Used Average"
      case DtuLimit => "DTU Limit"
      case PercentageCpu => "Percentage CPU"
      case MemoryPercent => "sql_instance_memory_percent"
      case DtuUsedPercentage => "DTU Used Percentage"
      case Price => "Price"
    }

    predicate IsText() { DatabaseName? || SkuName? || ServiceObjective? }
  }

  /** What pandas raises on the paths the dashboard takes. */
  datatype Fault =
    | KeyError(column: string)  // a column the frame does not have
    | MissingSku                // a missing SKU leaves a NaN in the prefix mask

  /** One row of the frame: a cell per column the dashboard touches; `None`
      is a missing (NaN) cell. */
  datatype Row = Row(
    databaseName: Option<string>,
    skuName: Option<string>,
    serviceObjective: Option<string>,
    dtuUsedAverage: Option<real>,
    dtuLimit: Option<real>,
    percentageCpu: Option<real>,
    memoryPercent: Option<real>,
    dtuUsedPercentage: Option<real>,
    price: Option<real>)

  /** A data frame: its header, in order, and its rows. A cell of a column
      that is not in `columns` is not part of the frame. */
  datatype Table = Table(columns: seq<string>, rows: seq<Row>)

  function NumberAt(r: Row, c: Column): Option<real>
    requires !c.IsText()
  {
    match c
    case DtuUsedAverage => r.dtuUsedAverage
    case DtuLimit => r.dtuLimit
    case PercentageCpu => r.percentageCpu
    case MemoryPercent => r.memoryPercent
    case DtuUsedPercentage => r.dtuUsedPercentage
    case Price => r.price
  }

  function TextAt(r: Row, c: Column): Option<string>
    requires c.IsText()
  {
    match c
    case DatabaseName => r.databaseName
    case SkuName => r.skuName
    case ServiceObjective => r.serviceObjective
  }

  /** The cells of a numeric column, row by row. */
  function NumberColumn(rows: seq<Row>, c: Column): (xs: seq<Option<real>>)
    requires !c.IsText()
    ensures |xs| == |rows| && forall i :: 0 <= i < |rows| ==> xs[i] == NumberAt(rows[i], c)
  {
    seq(|rows|, i requires 0 <= i < |rows| => NumberAt(rows[i], c))
  }

  /** The cells of a text column, row by row. */
  function TextColumn(rows: seq<Row>, c: Column): (xs: seq<Option<string>>)
    requires c.IsText()
    ensures |xs| == |rows| && forall i :: 0 <= i < |rows| ==> xs[i] == TextAt(rows[i], c)
  {
    seq(|rows|, i requires 0 <= i < |rows| => TextAt(rows[i], c))
  }

  /** `df[c]` for a numeric column, or the KeyError pandas raises. */
  function Numbers(t: Table, c: Column): Result<seq<Option<real>>, Fault>
    requires !c.IsText()
  {
    if c.Header() !in t.columns then Err(KeyError(c.Header())) else Ok(NumberColumn(t.rows, c))
  }

  /** `df[c]` for a text column, or the KeyError pandas raises. */
  function Texts(t: Table, c: Column): Result<seq<Option<string>>, Fault>
    requires c.IsText()
  {
    if c.Header() !in t.columns then Err(KeyError(c.Header())) else Ok(TextColumn(t.rows, c))
  }

  // ---------------------------------------------------------------------
  // Row-level enrichment

  /** `DTU Used Average / DTU Limit * 100` for one row (main.py:60); `None`
      when either cell is missing or the limit is zero. */
  function UsedPercentage(r: Row): (p: Option<real>)
    ensures p.Some? <==> r.dtuUsedAverage.Some? && r.dtuLimit.Some? && r.dtuLimit.value != 0.0
    ensures p.Some? ==> p.value * r.dtuLimit.value == r.dtuUsedAverage.value * 100.0
  {
    match (r.dtuUsedAverage, r.dtuLimit)
    case (Some(average), Some(limit)) => if limit == 0.0 then None else Some(average / limit * 100.0)
    case _ => None
  }

  /** `CurrentServiceObjectiveName` mapped through the catalog (main.py:63):
      the tier's price, or `None` for a missing or unknown name. */
  function TierPrice(r: Row, catalog: map<string, real>): (p: Option<real>)
    ensures p.Some? <==> r.serviceObjective.Some? && r.serviceObjective.value in catalog
    ensures p.Some? ==> p.value == catalog[r.serviceObjective.value]
  {
    match r.serviceObjective
    case Some(name) => if name in catalog then Some(catalog[name]) else None
    case None => None
  }

  /** A column assignment applies `f` to every row, keeping their number
      and order; row i of the result depends on row i alone. */
  function MapRows(rows: seq<Row>, f: Row -> Row): (r: seq<Row>)
    ensures |r| == |rows|
    ensures forall i :: 0 <= i < |rows| ==> r[i] == f(rows[i])
  {
    if rows == [] then [] else [f(rows[0])] + MapRows(rows[1..], f)
  }

  /** The header after `df[name] = ...`: an existing column keeps its place,
      a new one goes last. */
  function WithColumn(columns: seq<string>, name: string): (r: seq<string>)
    ensures name in r
    ensures forall h :: h in r <==> h in columns || h == name
  {
    if name in columns then columns else columns + [name]
  }

  /** The header after dropping `name`. */
  function Without(columns: seq<string>, name: string): (r: seq<string>)
    ensures forall h :: h in r <==> h in columns && h != name
  {
    if columns == [] then []
    else (if columns[0] == name then [] else [columns[0]]) + Without(columns[1..], name)
  }

  // ---------------------------------------------------------------------
  // Frame-level steps, as values

  /** main.py:60. The left operand is read first, so a missing
      `DTU Used Average` is the one reported when both are missing. */
  function WithUsedPercentage(t: Table): (r: Result<Table, Fault>)
    ensures r.Ok? <==> DtuUsedAverage.Header() in t.columns && DtuLimit.Header() in t.columns
    ensures r.Err? ==> r.error == KeyError(if DtuUsedAverage.Header() !in t.columns then DtuUsedAverage.Header() else DtuLimit.Header())
    ensures r.Ok? ==> r.value.columns == WithColumn(t.columns, DtuUsedPercentage.Header())
    ensures r.Ok? ==> |r.value.rows| == |t.rows|
    ensures r.Ok? ==> forall i :: 0 <= i < |t.rows| ==>
      r.value.rows[i] == t.rows[i].(dtuUsedPercentage := UsedPercentage(t.rows[i]))
  {
    if DtuUsedAverage.Header() !in t.columns then Err(KeyError(DtuUsedAverage.Header()))
    else if DtuLimit.Header() !in t.columns then Err(KeyError(DtuLimit.Header()))
    else Ok(Table(WithColumn(t.columns, DtuUsedPercentage.Header()),
                  MapRows(t.rows, (row: Row) => row.(dtuUsedPercentage := UsedPercentage(row)))))
  }

  /** main.py:63. An unknown service objective gives a missing price; the
      row stays. */
  function WithPrice(t: Table, catalog: map<string, real>): (r: Result<Table, Fault>)
    ensures r.Ok? <==> ServiceObjective.Header() in t.columns
    ensures r.Err? ==> r.error == KeyError(ServiceObjective.Header())
    ensures r.Ok? ==> r.value.columns == WithColumn(t.columns, Price.Header())
    ensures r.Ok? ==> |r.value.rows| == |t.rows|
    ensures r.Ok? ==> forall i :: 0 <= i < |t.rows| ==>
      r.value.rows[i] == t.rows[i].(price := TierPrice(t.rows[i], catalog))
  {
    if ServiceObjective.Header() !in t.columns then Err(KeyError(ServiceObjective.Header()))
    else Ok(Table(WithColumn(t.columns, Price.Header()),
                  MapRows(t.rows, (row: Row) => row.(price := TierPrice(row, catalog)))))
  }

  /** `drop(columns=[name])` (main.py:66, 69): a KeyError when the column is
      not there; otherwise the rows stay as they are. */
  function DropColumn(t: Table, name: string): (r: Result<Table, Fault>)
    ensures r.Ok? <==> name in t.columns
    ensures r.Err? ==> r.error == KeyError(name)
    ensures r.Ok? ==> r.value.rows == t.rows && name !in r.value.columns
    ensures r.Ok? ==> forall h :: h != name ==> (h in r.value.columns <==> h in t.columns)
  {
    if name !in t.columns then Err(KeyError(name)) else Ok(Table(Without(t.columns, name), t.rows))
  }

  /** The data frame `df` of the DTU section, which main.py:60-69 changes in
      place. Every step either raises and leaves the frame as it was, or
      updates it to what the corresponding value-level step computes. */
  class Frame {
    var columns: seq<string>
    var rows: seq<Row>

    /** `df = pd.read_csv(...)`, with the file's contents given. */
    constructor (data: Table)
      ensures Snapshot() == data
    {
      columns := data.columns;
      rows := data.rows;
    }

    function Snapshot(): Table
      reads this
    {
      Table(columns, rows)
    }

    /** `df['DTU Used Percentage'] = (df['DTU Used Average'] / df['DTU Limit']) * 100` */
    method AddUsedPercentage() returns (outcome: Outcome<Fault>)
      modifies this
      ensures WithUsedPercentage(old(Snapshot())).Ok? ==> outcome.Pass? && Snapshot() == WithUsedPercentage(old(Snapshot())).value
      ensures WithUsedPercentage(old(Snapshot())).Err? ==>
        outcome == Fail(WithUsedPercentage(old(Snapshot())).error) && Snapshot() == old(Snapshot())
    {
      if DtuUsedAverage.Header() !in columns {
        return Fail(KeyError(DtuUsedAverage.Header()));
      }
      if DtuLimit.Header() !in columns {
        return Fail(KeyError(DtuLimit.Header()));
      }
      rows := MapRows(rows, (row: Row) => row.(dtuUsedPercentage := UsedPercentage(row)));
      columns := WithColumn(columns, DtuUsedPercentage.Header());
      outcome := Pass;
    }

    /** `df['Price'] = df['CurrentServiceObjectiveName'].map(catalog)` */
    method AddPrice(catalog: map<string, real>) returns (outcome: Outcome<Fault>)
      modifies this
      ensures WithPrice(old(Snapshot()), catalog).Ok? ==> outcome.Pass? && Snapshot() == WithPrice(old(Snapshot()), catalog).value
      ensures WithPrice(old(Snapshot()), catalog).Err? ==>
        outcome == Fail(WithPrice(old(Snapshot()), catalog).error) && Snapshot() == old(Snapshot())
    {
      if ServiceObjective.Header() !in columns {
        return Fail(KeyError(ServiceObjective.Header()));
      }
      rows := MapRows(rows, (row: Row) => row.(price := TierPrice(row, catalog)));
      columns := WithColumn(columns, Price.Header());
      outcome := Pass;
    }

    /** `df.drop(columns=[name], inplace=True)` */
    method Drop(name: string) returns (outcome: Outcome<Fault>)
      modifies this
      ensures DropColumn(old(Snapshot()), name).Ok? ==> outcome.Pass? && Snapshot() == DropColumn(old(Snapshot()), name).value
      ensures DropColumn(old(Snapshot()), name).Err? ==>
        outcome == Fail(KeyError(name)) && Snapshot() == old(Snapshot())
    {
      if name !in columns {
        return Fail(KeyError(name));
      }
      columns := Without(columns, name);
      outcome := Pass;
    }
  }
}
