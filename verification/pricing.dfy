/** The two static price tables of the dashboard (main.py:31-47) and the
    in-place conversion of the DTU table's hourly prices to monthly ones. */
module Pricing {
  import opened Wrappers
  import Decimal

  /** Hours in the fixed 31-day month used for every monthly price
      (main.py:47); an approximation, not a calendar month. */
  const HOURS_PER_MONTH: real := 24.0 * 31.0

  /** The `DTUs` column of the DTU table: tier names, in table order. */
  const DTU_TIERS: seq<string> := ["S0", "S1", "S2", "S3", "S4", "S6", "S7", "S9", "S12"]

  /** The price column as written in the table: hourly prices, as text. */
  const DTU_HOURLY_TEXT: seq<string> :=
    ["0.0202", "0.0404", "0.1009", "0.2017", "0.4033", "0.8066", "1.6130", "3.2260", "6.0488"]

  /** The hourly prices those texts denote. */
  const DTU_HOURLY: seq<real> :=
    [0.0202, 0.0404, 0.1009, 0.2017, 0.4033, 0.8066, 1.6130, 3.2260, 6.0488]

  /** One row of the provisioned-compute (vCore) table, main.py:31-37. It is
      only displayed; nothing joins against it. */
  datatype VcoreTier = VcoreTier(name: string, vCores: nat, memory: nat, dtus: nat, price: real)

  const VCORE_TIERS: seq<VcoreTier> := [
    VcoreTier("GP_Gen5_2", 2, 5, 5, 0.011), VcoreTier("GP_Gen5_4", 4, 10, 10, 0.022),
    VcoreTier("GP_Gen5_8", 8, 20, 20, 0.044), VcoreTier("GP_Gen5_16", 16, 40, 40, 0.088),
    VcoreTier("GP_Gen5_32", 32, 80, 80, 0.176), VcoreTier("GP_Gen5_48", 48, 120, 120, 0.264),
    VcoreTier("GP_Gen5_80", 80, 200, 200, 0.44),
    VcoreTier("BC_Gen5_2", 2, 5, 5, 0.011), VcoreTier("BC_Gen5_4", 4, 10, 10, 0.022),
    VcoreTier("BC_Gen5_8", 8, 20, 20, 0.044), VcoreTier("BC_Gen5_16", 16, 40, 40, 0.088),
    VcoreTier("BC_Gen5_32", 32, 80, 80, 0.176), VcoreTier("BC_Gen5_48", 48, 120, 120, 0.264),
    VcoreTier("BC_Gen5_80", 80, 200, 200, 0.44)
  ]

  /** A cell of the DTU price column: text before the conversion, a number after it. */
  datatype Cell = Text(text: string) | Number(value: real)

  /** `float(cell)`; `None` where Python raises ValueError. */
  function AsFloat(c: Cell): Option<real>
  {
    match c
    case Text(t) => Decimal.Parse(t)
    case Number(x) => Some(x)
  }

  function TextCells(texts: seq<string>): (r: seq<Cell>)
    ensures |r| == |texts| && forall i :: 0 <= i < |texts| ==> r[i] == Text(texts[i])
  {
    seq(|texts|, i requires 0 <= i < |texts| => Text(texts[i]))
  }

  function NumberCells(xs: seq<real>): (r: seq<Cell>)
    ensures |r| == |xs| && forall i :: 0 <= i < |xs| ==> r[i] == Number(xs[i])
  {
    seq(|xs|, i requires 0 <= i < |xs| => Number(xs[i]))
  }

  /** `column.astype(float) * 24 * 31`: every cell converted and scaled to a
      month, or `None` when some cell does not convert (the ValueError that
      would stop the script). */
  function Monthly(column: seq<Cell>): (r: Option<seq<real>>)
    ensures r.Some? <==> forall i :: 0 <= i < |column| ==> AsFloat(column[i]).Some?
    ensures r.Some? ==> |r.value| == |column|
    ensures r.Some? ==> forall i :: 0 <= i < |column| ==> r.value[i] == AsFloat(column[i]).value * HOURS_PER_MONTH
  {
    if column == [] then Some([])
    else
      match (AsFloat(column[0]), Monthly(column[1..]))
      case (Some(x), Some(rest)) => Some([x * HOURS_PER_MONTH] + rest)
      case _ => None
  }

  /** The numbers of a column that holds only numbers. */
  function Values(column: seq<Cell>): (r: seq<real>)
    requires forall i :: 0 <= i < |column| ==> column[i].Number?
    ensures |r| == |column| && forall i :: 0 <= i < |column| ==> r[i] == column[i].value
  {
    seq(|column|, i requires 0 <= i < |column| => column[i].value)
  }

  predicate Distinct(keys: seq<string>)
  {
    forall i, j :: 0 <= i < j < |keys| ==> keys[i] != keys[j]
  }

  /** `set_index(keys)[values]` used as a lookup table by `Series.map`. */
  function Index(keys: seq<string>, values: seq<real>): (m: map<string, real>)
    requires |keys| == |values|
    ensures m.Keys == set k | k in keys
  {
    if keys == [] then map[] else Index(keys[1..], values[1..])[keys[0] := values[0]]
  }

  /** With distinct keys, every key looks up its own value. */
  lemma {:induction false} IndexAt(keys: seq<string>, values: seq<real>, i: nat)
    requires |keys| == |values| && Distinct(keys) && i < |keys|
    ensures Index(keys, values)[keys[i]] == values[i]
  {
    if i > 0 {
      assert Distinct(keys[1..]) by {
        forall a, b | 0 <= a < b < |keys[1..]| ensures keys[1..][a] != keys[1..][b] {
          assert keys[1..][a] == keys[a + 1] && keys[1..][b] == keys[b + 1];
        }
      }
      IndexAt(keys[1..], values[1..], i - 1);
      assert keys[i] != keys[0];
    }
  }

  /** The DTU table, whose price column `astype(float) * 24 * 31` overwrites
      in place (main.py:39-47). */
  class DtuPriceTable {
    var tiers: seq<string>
    var price: seq<Cell>

    constructor ()
      ensures tiers == DTU_TIERS && price == TextCells(DTU_HOURLY_TEXT)
    {
      tiers := DTU_TIERS;
      price := TextCells(DTU_HOURLY_TEXT);
    }

    /** main.py:47. On a cell that does not convert, Python raises before
        the assignment, so nothing changes and `ok` is false. */
    method ConvertToMonthly() returns (ok: bool)
      modifies this
      ensures tiers == old(tiers)
      ensures ok == Monthly(old(price)).Some?
      ensures price == if ok then NumberCells(Monthly(old(price)).value) else old(price)
    {
      var m := Monthly(price);
      ok := m.Some?;
      if ok {
        price := NumberCells(m.value);
      }
    }

    predicate Converted()
      reads this
    {
      |tiers| == |price| && forall i :: 0 <= i < |price| ==> price[i].Number?
    }

    /** `set_index('DTUs')[price column]`, once the column holds numbers. */
    function PriceSeries(): (m: map<string, real>)
      reads this
      requires Converted()
      ensures m.Keys == set k | k in tiers
    {
      Index(tiers, Values(price))
    }
  }

  /** The monthly DTU catalog the dashboard joins against: each tier maps to
      its hourly price times 24 * 31. */
  function DtuCatalog(): map<string, real>
  {
    Index(DTU_TIERS, DtuMonthly())
  }

  function DtuMonthly(): (r: seq<real>)
    ensures |r| == |DTU_HOURLY| && forall i :: 0 <= i < |DTU_HOURLY| ==> r[i] == DTU_HOURLY[i] * HOURS_PER_MONTH
  {
    seq(|DTU_HOURLY|, i requires 0 <= i < |DTU_HOURLY| => DTU_HOURLY[i] * HOURS_PER_MONTH)
  }

  /** Every hourly text of the table converts to the decimal it shows. */
  lemma HourlyTextParses()
    ensures forall i :: 0 <= i < |DTU_HOURLY_TEXT| ==> Decimal.Parse(DTU_HOURLY_TEXT[i]) == Some(DTU_HOURLY[i])
  {
    forall i | 0 <= i < |DTU_HOURLY_TEXT|
      ensures Decimal.Parse(DTU_HOURLY_TEXT[i]) == Some(DTU_HOURLY[i])
    {
      Decimal.ParseFourPlaces(DTU_HOURLY_TEXT[i], DTU_HOURLY[i]);
    }
  }

  /** A column whose every cell converts is scaled cell by cell. */
  lemma {:induction false} MonthlyOfConvertible(column: seq<Cell>, hourly: seq<real>)
    requires |column| == |hourly|
    requires forall i :: 0 <= i < |column| ==> AsFloat(column[i]) == Some(hourly[i])
    ensures Monthly(column).Some?
    ensures Monthly(column).value == seq(|hourly|, i requires 0 <= i < |hourly| => hourly[i] * HOURS_PER_MONTH)
  {
  }

  /** The conversion of main.py:47 succeeds on the column as written and
      gives each tier its hourly price times 24 * 31. */
  lemma HourlyColumnConverts(column: seq<Cell>)
    requires column == TextCells(DTU_HOURLY_TEXT)
    ensures Monthly(column) == Some(DtuMonthly())
  {
    HourlyTextParses();
    MonthlyOfConvertible(column, DTU_HOURLY);
  }

  /** Building the table and converting it (main.py:39-47) never raises and
      yields `DtuCatalog()`. */
  method LoadDtuCatalog() returns (catalog: map<string, real>)
    ensures catalog == DtuCatalog()
  {
    var table := new DtuPriceTable();
    HourlyColumnConverts(table.price);
    var ok := table.ConvertToMonthly();
    ConvertedCatalog(table.tiers, table.price);
    catalog := table.PriceSeries();
  }

  /** After the conversion the table holds one number per tier, and its
      price series is the monthly catalog. */
  lemma ConvertedCatalog(tiers: seq<string>, price: seq<Cell>)
    requires tiers == DTU_TIERS && price == NumberCells(DtuMonthly())
    ensures |tiers| == |price| && forall i :: 0 <= i < |price| ==> price[i].Number?
    ensures Index(tiers, Values(price)) == DtuCatalog()
  {
    assert Values(price) == DtuMonthly();
  }

  lemma DtuTiersDistinct()
    ensures Distinct(DTU_TIERS)
  {
  }

  /** The catalog keeps exactly the nine tier keys, and each tier's monthly
      price is its hourly price times 24 * 31. */
  lemma DtuCatalogPrices()
    ensures DtuCatalog().Keys == set k | k in DTU_TIERS
    ensures forall i :: 0 <= i < |DTU_TIERS| ==> DtuCatalog()[DTU_TIERS[i]] == DTU_HOURLY[i] * HOURS_PER_MONTH
  {
    DtuTiersDistinct();
    forall i | 0 <= i < |DTU_TIERS|
      ensures DtuCatalog()[DTU_TIERS[i]] == DTU_HOURLY[i] * HOURS_PER_MONTH
    {
      IndexAt(DTU_TIERS, DtuMonthly(), i);
    }
  }

  /** Monthly prices of the two smallest tiers and of the largest one. */
  lemma DtuCatalogExamples()
    ensures "S0" in DtuCatalog() && "S1" in DtuCatalog() && "S12" in DtuCatalog()
    ensures DtuCatalog()["S0"] == 15.0288 && DtuCatalog()["S1"] == 30.0576
    ensures DtuCatalog()["S12"] == 4500.3072
  {
    DtuTiersDistinct();
    IndexAt(DTU_TIERS, DtuMonthly(), 0);
    IndexAt(DTU_TIERS, DtuMonthly(), 1);
    IndexAt(DTU_TIERS, DtuMonthly(), 8);
  }
}
