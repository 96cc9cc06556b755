/** `process_ventas`: sales lines become per-agent, per-day sales totals, split by
    product into shared-van and exclusive-van sales. */
module Ventas {

  import opened Wrappers
  import opened Text
  import opened Calendar
  import opened Cells
  import opened DateParse
  import opened Tables
  import opened Frames

  const VentasColumns: seq<Column> := [VentasTotales, VentasCompartidas, VentasExclusivas]

  const Compartida: string := "van_compartida"
  const Exclusiva: string := "van_exclusive"

  /** The clean-up of a price held as text: thousands commas and dollar signs
      removed, surrounding whitespace stripped. */
  function CleanPriceText(c: Cell, env: Env): (s: string)
    ensures ',' !in s && '$' !in s
    ensures s == [] || (!IsSpace(s[0]) && !IsSpace(s[|s| - 1]))
  {
    Strip(Replace(Replace(CellText(c, env), ',', ""), '$', ""))
  }

  /** pandas stores a column with any text in it as objects (`dtype == "O"`). */
  predicate IsObjectColumn(col: seq<Cell>) {
    exists i :: 0 <= i < |col| && col[i].Str?
  }

  /** One price: cleaned as text when the column holds text, then read as a number,
      and 0 when it does not read as one. */
  function Price(c: Cell, objectColumn: bool, env: Env): (p: Cell)
    ensures p.Num?
    ensures !objectColumn ==> p == (if c.Num? then c else if c.Str? && ParseDecimal(c.s).Some? then Num(ParseDecimal(c.s).value) else Num(0.0))
    ensures objectColumn ==> p == (if ParseDecimal(CleanPriceText(c, env)).Some? then Num(ParseDecimal(CleanPriceText(c, env)).value) else Num(0.0))
  {
    FillZero(ToNumeric(if objectColumn then Str(CleanPriceText(c, env)) else c))
  }

  /** The price column after `astype(str)`/`replace`/`strip` (for text columns),
      `to_numeric` and `fillna(0)`. */
  function Prices(col: seq<Cell>, env: Env): (r: seq<Cell>)
    ensures |r| == |col|
    ensures forall i :: 0 <= i < |col| ==> r[i] == Price(col[i], IsObjectColumn(col), env)
  {
    var obj := IsObjectColumn(col);
    seq(|col|, i requires 0 <= i < |col| => Price(col[i], obj, env))
  }

  /** The product name as compared: `str(x).strip().lower()`. */
  function ProductKey(product: Cell, env: Env): (k: string)
    ensures forall i :: 0 <= i < |k| ==> !('A' <= k[i] <= 'Z')
    ensures |k| == |Strip(CellText(product, env))|
  {
    Lower(Strip(CellText(product, env)))
  }

  /** The row's price when its product is `kind`, else 0. */
  function Amount(price: Cell, product: Cell, kind: string, env: Env): Cell {
    if ProductKey(product, env) == kind then price else Num(0.0)
  }

  /** `df.apply(lambda x: price if product == kind else 0, axis=1)`. */
  function Amounts(prices: seq<Cell>, products: seq<Cell>, kind: string, env: Env): (r: seq<Cell>)
    requires |prices| == |products|
    ensures |r| == |prices| && forall i :: 0 <= i < |prices| ==> r[i] == Amount(prices[i], products[i], kind, env)
  {
    seq(|prices|, i requires 0 <= i < |prices| => Amount(prices[i], products[i], kind, env))
  }

  /** The first error `process_ventas` raises on a report with cleaned labels, if any:
      the columns are read in the order the code reads them. The product column is
      read only row by row, so an empty report does not need it. */
  function SalesFailure(df: Table, env: Env): (e: Option<Error>)
    requires WellFormed(df)
    ensures e.Some? ==> e.value.KeyError? || e.value == IndexError
    ensures e.Some? && e.value.KeyError? ==> e.value.column !in df.headers
    ensures e == Some(IndexError) ==> "date" in df.headers && ToDates(Lookup(df, "date").value, env).Err?
    ensures e.None? ==> (forall c :: c in ["date", "ds_agent_email", "qt_price_local"] ==> c in df.headers) && ToDates(Lookup(df, "date").value, env).Ok?
    ensures e.None? ==> |df.rows| > 0 ==> "ds_product_name" in df.headers
  {
    if "date" !in df.headers then Some(KeyError("date"))
    else if ToDates(Lookup(df, "date").value, env).Err? then Some(IndexError)
    else if "ds_agent_email" !in df.headers then Some(KeyError("ds_agent_email"))
    else if "qt_price_local" !in df.headers then Some(KeyError("qt_price_local"))
    else if |df.rows| > 0 && "ds_product_name" !in df.headers then Some(KeyError("ds_product_name"))
    else None
  }

  /** One sales line with its derived columns. */
  function SaleRow(agente: Cell, fecha: Option<Date>, price: Cell, product: Cell, env: Env): Derived {
    Derived(agente, fecha, map[
      VentasTotales := price,
      VentasCompartidas := Amount(price, product, Compartida, env),
      VentasExclusivas := Amount(price, product, Exclusiva, env)])
  }

  /** The derived rows, line by line, of a report `process_ventas` accepts. */
  function SaleRows(df: Table, env: Env): (rows: seq<Derived>)
    requires WellFormed(df) && SalesFailure(df, env).None?
    ensures |rows| == |df.rows|
  {
    var dates := ToDates(Lookup(df, "date").value, env).value;
    var prices := Prices(Lookup(df, "qt_price_local").value, env);
    seq(|df.rows|, i requires 0 <= i < |df.rows| =>
      SaleRow(At(df, "ds_agent_email", i), dates[i], prices[i], At(df, "ds_product_name", i), env))
  }

  /** The price of each line whose product is neither van kind, and 0 for the others. */
  function OtherPrices(df: Table, env: Env): (xs: seq<real>)
    requires WellFormed(df) && SalesFailure(df, env).None?
    ensures |xs| == |df.rows|
  {
    var prices := Prices(Lookup(df, "qt_price_local").value, env);
    seq(|df.rows|, i requires 0 <= i < |df.rows| =>
      var key := ProductKey(At(df, "ds_product_name", i), env);
      if key != Compartida && key != Exclusiva then prices[i].x else 0.0)
  }

  /** `process_ventas(df)`. A missing report gives an empty table. Otherwise the
      labels are cleaned, the derived columns are assigned one after the other to a
      private copy, and the copy is grouped by (agente, fecha) with `sum`. */
  method ProcessVentas(t: Option<Table>, env: Env) returns (r: Result<Source, Error>)
    requires t.Some? ==> WellFormed(t.value)
    ensures t.None? ==> r == Ok(Source([], []))
    ensures t.Some? ==> var df := NormalizeHeaders(t.value);
              && (SalesFailure(df, env).Some? ==> r == Err(SalesFailure(df, env).value))
              && (SalesFailure(df, env).None? ==> r == Ok(GroupBy(SaleRows(df, env), VentasColumns)))
    ensures r.Ok? ==> WellFormedSource(r.value)
    ensures r.Ok? ==> r.value.columns == [] || r.value.columns == VentasColumns
  {
    if t.None? {
      return Ok(Source([], []));
    }
    var df := NormalizeHeaders(t.value);
    var dateCol :- Lookup(df, "date");
    var fecha :- ToDates(dateCol, env);
    var frame := SetFecha(Blank(|df.rows|), fecha);
    var agentes :- Lookup(df, "ds_agent_email");
    frame := SetAgente(frame, agentes);
    var priceCol :- Lookup(df, "qt_price_local");
    var prices := Prices(priceCol, env);
    frame := SetColumn(frame, VentasTotales, prices);
    if |df.rows| > 0 {
      var products :- Lookup(df, "ds_product_name");
      frame := SetColumn(frame, VentasCompartidas, Amounts(prices, products, Compartida, env));
      frame := SetColumn(frame, VentasExclusivas, Amounts(prices, products, Exclusiva, env));
      SaleFrame(df, env, fecha, agentes, prices, products);
    } else {
      assert SaleRows(df, env) == [];
    }
    ColumnsDistinct();
    r := Ok(GroupBy(frame, VentasColumns));
  }

  /** The frame built column by column holds, row by row, the derived sales lines. */
  lemma SaleFrame(df: Table, env: Env, fecha: seq<Option<Date>>, agentes: seq<Cell>, prices: seq<Cell>, products: seq<Cell>)
    requires WellFormed(df) && SalesFailure(df, env).None? && |df.rows| > 0
    requires fecha == ToDates(Lookup(df, "date").value, env).value
    requires agentes == Lookup(df, "ds_agent_email").value
    requires prices == Prices(Lookup(df, "qt_price_local").value, env)
    requires products == Lookup(df, "ds_product_name").value
    ensures var n := |df.rows|;
            SetColumn(SetColumn(SetColumn(SetAgente(SetFecha(Blank(n), fecha), agentes), VentasTotales, prices),
                                VentasCompartidas, Amounts(prices, products, Compartida, env)),
                      VentasExclusivas, Amounts(prices, products, Exclusiva, env))
            == SaleRows(df, env)
  {
  }

  lemma ColumnsDistinct()
    ensures Distinct(VentasColumns)
  {
  }

  /** Line by line: the shared-van amount is the price exactly for `van_compartida`
      lines and 0 otherwise, the exclusive one likewise for `van_exclusive`; the two
      are never both non-zero, and together with the other products' prices they
      make up the total. */
  lemma SaleRowParts(agente: Cell, fecha: Option<Date>, price: Cell, product: Cell, env: Env)
    requires price.Num?
    ensures var d := SaleRow(agente, fecha, price, product, env);
            var key := ProductKey(product, env);
            && d.vals[VentasCompartidas] == (if key == Compartida then price else Num(0.0))
            && d.vals[VentasExclusivas] == (if key == Exclusiva then price else Num(0.0))
            && (NumOr0(d.vals[VentasCompartidas]) == 0.0 || NumOr0(d.vals[VentasExclusivas]) == 0.0)
            && NumOr0(d.vals[VentasTotales])
               == NumOr0(d.vals[VentasCompartidas]) + NumOr0(d.vals[VentasExclusivas])
                  + (if key != Compartida && key != Exclusiva then price.x else 0.0)
  {
  }

  /** Per (agente, fecha): total sales are shared-van sales plus exclusive-van
      sales plus the prices of that group's lines of other products. */
  lemma SalesAddUp(df: Table, env: Env, rows: seq<Derived>, o: Row)
    requires WellFormed(df) && SalesFailure(df, env).None?
    requires rows == SaleRows(df, env)
    requires o in GroupBy(rows, VentasColumns).rows
    ensures ValueOf(o, VentasTotales)
            == ValueOf(o, VentasCompartidas) + ValueOf(o, VentasExclusivas) + KeyedSum(rows, OtherPrices(df, env), RowKey(o))
  {
    SaleRowsSplit(df, env);
    GroupedSplit(rows, OtherPrices(df, env), VentasColumns, o, VentasTotales, VentasCompartidas, VentasExclusivas);
  }

  /** Line by line, the total is the shared-van amount plus the exclusive-van amount
      plus the price of any other product. */
  lemma SaleRowsSplit(df: Table, env: Env)
    requires WellFormed(df) && SalesFailure(df, env).None?
    ensures var rows := SaleRows(df, env);
            var xs := OtherPrices(df, env);
            forall i :: 0 <= i < |rows| ==>
              VentasTotales in rows[i].vals && VentasCompartidas in rows[i].vals && VentasExclusivas in rows[i].vals
              && NumOr0(rows[i].vals[VentasTotales])
                 == NumOr0(rows[i].vals[VentasCompartidas]) + NumOr0(rows[i].vals[VentasExclusivas]) + xs[i]
  {
    var rows := SaleRows(df, env);
    var xs := OtherPrices(df, env);
    var prices := Prices(Lookup(df, "qt_price_local").value, env);
    var dates := ToDates(Lookup(df, "date").value, env).value;
    forall i | 0 <= i < |rows|
      ensures VentasTotales in rows[i].vals && VentasCompartidas in rows[i].vals && VentasExclusivas in rows[i].vals
      ensures NumOr0(rows[i].vals[VentasTotales])
              == NumOr0(rows[i].vals[VentasCompartidas]) + NumOr0(rows[i].vals[VentasExclusivas]) + xs[i]
    {
      SaleRowParts(At(df, "ds_agent_email", i), dates[i], prices[i], At(df, "ds_product_name", i), env);
    }
  }

  /** A dollar sign and a thousands comma are dropped from a text price: "$1,200"
      reads as 1200. */
  lemma DollarPrice(a: string, b: string, env: Env)
    requires a != [] && AllDigits(a) && AllDigits(b)
    ensures Price(Str("$" + a + "," + b), true, env) == Num(DigitsValue(a + b) as real)
  {
    DigitsAppend(a, b);
    DropComma(a, b);
    DropDollar(a + b);
    StripDigits(a + b);
    assert CleanPriceText(Str("$" + a + "," + b), env) == a + b;
    ParseDigits(a + b);
  }

  lemma DropComma(a: string, b: string)
    requires AllDigits(a) && AllDigits(b)
    ensures Replace("$" + a + "," + b, ',', "") == "$" + (a + b)
  {
    DigitsLackChar(a, ',');
    NoOccurrenceReplace("$" + a, ',', "");
    DropLeadingComma(b);
    assert "$" + a + "," + b == ("$" + a) + ("," + b);
    ReplaceAppend("$" + a, "," + b, ',', "");
    assert ("$" + a) + b == "$" + (a + b);
  }

  lemma DropLeadingComma(b: string)
    requires AllDigits(b)
    ensures Replace("," + b, ',', "") == b
  {
    DigitsLackChar(b, ',');
    NoOccurrenceReplace(b, ',', "");
    assert ("," + b)[1..] == b;
  }

  lemma DropDollar(ab: string)
    requires AllDigits(ab)
    ensures Replace("$" + ab, '$', "") == ab
  {
    DigitsLackChar(ab, '$');
    ReplaceAppend("$", ab, '$', "");
    NoOccurrenceReplace(ab, '$', "");
  }

  lemma DigitsAppend(a: string, b: string)
    requires a != [] && AllDigits(a) && AllDigits(b)
    ensures a + b != [] && AllDigits(a + b)
  {
    var ab := a + b;
    forall i | 0 <= i < |ab|
      ensures IsDigit(ab[i])
    {
      if i < |a| {
        assert ab[i] == a[i];
      } else {
        assert ab[i] == b[i - |a|];
      }
    }
  }

  lemma StripDigits(s: string)
    requires s != [] && AllDigits(s)
    ensures Strip(s) == s
  {
    assert IsDigit(s[0]) && IsDigit(s[|s| - 1]);
  }

  lemma DigitsLackChar(a: string, c: char)
    requires AllDigits(a) && !IsDigit(c)
    ensures c !in a
  {
  }

  /** A price that does not read as a number counts as 0. */
  lemma UnreadablePrice(c: Cell, objectColumn: bool, env: Env)
    requires objectColumn ==> ParseDecimal(CleanPriceText(c, env)).None?
    requires !objectColumn ==> c.Null? || (c.Str? && ParseDecimal(c.s).None?)
    ensures Price(c, objectColumn, env) == Num(0.0)
  {
  }
}
