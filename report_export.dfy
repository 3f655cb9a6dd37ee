/**
 * The CSV export of a business day (`GET /api/reports/daily/:date/export` in
 * backend/src/routes/reports.js): one line per sales row under a ten-field
 * header, then a summary with the number of orders and the day's sales.
 * The sales figure the export writes adds each row's order total, so an
 * order of several lines counts several times; `CorrectedDocument` carries
 * the per-order figure instead.
 */
module ReportExport {
  import opened Common
  import opened Text
  import opened Dates
  import opened Pricing
  import opened Orders
  import opened Catalogue
  import opened Reports

  // ---------------------------------------------------------------------
  // Lines
  // ---------------------------------------------------------------------

  const Header: seq<string> := ["Fecha", "Pedido", "Producto", "Masa", "Cantidad",
                                "Precio Unit.", "Subtotal", "Entrega", "Costo Envío", "Total Pedido"]

  function HeaderLine(): string
  {
    Join(Header, ',')
  }

  /** `Array.prototype.join` writes a NULL masa as the empty string. */
  function MasaText(m: Option<string>): string
  {
    match m
    case None => ""
    case Some(s) => s
  }

  /** The name between double quotes, as written: quotes inside it are left as they are. */
  function Quoted(s: string): string
  {
    "\"" + s + "\""
  }

  /** The ten fields of one line, in header order. */
  function Fields(r: SaleRow): (f: seq<string>)
    ensures |f| == |Header|
  {
    [r.businessDay, IntToString(r.orderId), Quoted(r.name), MasaText(r.masa), NatToString(r.quantity),
     Cents(r.unitPrice), Cents(r.lineTotal), if r.isDelivery then "Sí" else "No",
     Cents(r.deliveryCost), Cents(r.orderTotal)]
  }

  function Line(r: SaleRow): string
  {
    Join(Fields(r), ',')
  }

  /** Each row's line, in row order. */
  function LineSeq(rows: seq<SaleRow>): (r: seq<string>)
    ensures |r| == |rows|
    ensures forall k :: 0 <= k < |rows| ==> r[k] == Line(rows[k])
  {
    if rows == [] then [] else [Line(rows[0])] + LineSeq(rows[1..])
  }

  /** Lines of text, each followed by a newline. */
  function Terminated(lines: seq<string>): string
  {
    if lines == [] then "" else lines[0] + "\n" + Terminated(lines[1..])
  }

  lemma {:induction false} TerminatedSnoc(lines: seq<string>, l: string)
    ensures Terminated(lines + [l]) == Terminated(lines) + l + "\n"
  {
    if lines != [] {
      assert (lines + [l])[1..] == lines[1..] + [l];
      TerminatedSnoc(lines[1..], l);
    } else {
      assert [l][1..] == [];
    }
  }

  lemma AppendLine(prefix: string, lines: seq<string>, i: int)
    requires 0 <= i < |lines|
    ensures prefix + Terminated(lines[..i]) + lines[i] + "\n" == prefix + Terminated(lines[..i + 1])
  {
    TerminatedSnoc(lines[..i], lines[i]);
    assert lines[..i + 1] == lines[..i] + [lines[i]];
  }

  /** Newline-terminated lines followed by joined ones are all the lines joined. */
  lemma {:induction false} TerminatedJoin(lines: seq<string>, tail: seq<string>)
    requires |tail| >= 1
    ensures Terminated(lines) + Join(tail, '\n') == Join(lines + tail, '\n')
  {
    if lines == [] {
      assert lines + tail == tail;
    } else {
      TerminatedJoin(lines[1..], tail);
      var all := lines + tail;
      assert all[0] == lines[0] && all[1..] == lines[1..] + tail;
    }
  }

  // ---------------------------------------------------------------------
  // Summary figures
  // ---------------------------------------------------------------------

  function OrderIds(rows: seq<SaleRow>): set<int>
  {
    set r | r in rows :: r.orderId
  }

  /** `uniqueOrders`: the number of distinct order ids among the rows. */
  function UniqueOrders(rows: seq<SaleRow>): nat
  {
    |OrderIds(rows)|
  }

  /** `totalSales` as the reduce computes it: a fresh, empty `Set` on every row never holds the id. */
  function TotalSalesAsWritten(rows: seq<SaleRow>): int
  {
    if rows == [] then 0
    else TotalSalesAsWritten(rows[..|rows| - 1]) + rows[|rows| - 1].orderTotal
  }

  /** `totalSales` as the comment states it: each order's total counted at its first row only. */
  function TotalSalesPerOrder(rows: seq<SaleRow>): int
  {
    if rows == [] then 0
    else
      var init := rows[..|rows| - 1];
      TotalSalesPerOrder(init) + (if rows[|rows| - 1].orderId in OrderIds(init) then 0 else rows[|rows| - 1].orderTotal)
  }

  /** The summary's title and the labels of its two figures. */
  const SummaryTitle: string := "RESUMEN DEL DÍA"
  const OrdersLabel: string := "Total de pedidos:,"
  const SalesLabel: string := "Total de ventas:,$"

  /** The summary's lines, given the rendered order count and sales figure. */
  function SummaryOf(count: string, sales: string): seq<string>
  {
    ["", SummaryTitle, OrdersLabel + count, SalesLabel + sales, ""]
  }

  /** The summary's lines for these rows, reporting `sales` as the day's sales. */
  function SummaryLines(rows: seq<SaleRow>, sales: int): seq<string>
  {
    SummaryOf(NatToString(UniqueOrders(rows)), Cents(sales))
  }

  /**
   * The text the export sends (without the byte-order mark): its sales line
   * carries the figure as the reduce computes it, once per row.
   */
  function Document(rows: seq<SaleRow>): string
  {
    DocumentWith(HeaderLine(), rows, TotalSalesAsWritten(rows))
  }

  /** The document as its comment intends it: each order's total counted once. */
  function CorrectedDocument(rows: seq<SaleRow>): string
  {
    DocumentWith(HeaderLine(), rows, TotalSalesPerOrder(rows))
  }

  /** The document under a given header line: the rows, then the summary reporting `sales`. */
  function DocumentWith(header: string, rows: seq<SaleRow>, sales: int): string
  {
    header + "\n" + Terminated(LineSeq(rows))
      + "\n"
      + SummaryTitle + "\n"
      + OrdersLabel + NatToString(UniqueOrders(rows)) + "\n"
      + SalesLabel + Cents(sales) + "\n"
  }

  /** 400 on a malformed date, 404 when the day has no sales rows, else the document. */
  function Export(orders: seq<OrderRow>, items: seq<ItemRow>, products: seq<ProductRow>, date: string): (r: Result<string, ReportError>)
    ensures r == Failure(BadDate) <==> !IsDateShape(date)
    ensures r == Failure(NoSales) <==> IsDateShape(date) && DaySales(orders, items, products, date) == []
    ensures r.Success? ==> r.value == Document(DaySales(orders, items, products, date))
  {
    if !IsDateShape(date) then Failure(BadDate)
    else
      var rows := DaySales(orders, items, products, date);
      if rows == [] then Failure(NoSales) else Success(Document(rows))
  }

  /** The handler: checks the date, runs the query, refuses an empty day and builds the text. */
  method ExportCsv(orders: seq<OrderRow>, items: seq<ItemRow>, products: seq<ProductRow>, date: string)
    returns (r: Result<string, ReportError>)
    ensures r == Export(orders, items, products, date)
  {
    if !IsDateShape(date) {
      return Failure(BadDate);
    }
    var rows := DaySales(orders, items, products, date);
    if |rows| == 0 {
      return Failure(NoSales);
    }
    var csv := BuildCsv(rows);
    return Success(csv);
  }

  /** Appends the header, then one line per row, then the summary. */
  method BuildCsv(rows: seq<SaleRow>) returns (csv: string)
    ensures csv == Document(rows)
  {
    csv := WriteLines(HeaderLine(), rows);
    csv := csv + "\n";
    csv := csv + SummaryTitle + "\n";
    csv := csv + OrdersLabel + NatToString(UniqueOrders(rows)) + "\n";
    csv := csv + SalesLabel + Cents(TotalSalesAsWritten(rows)) + "\n";
  }

  /** The header line, then the loop appending one newline-terminated line per row. */
  method WriteLines(header: string, rows: seq<SaleRow>) returns (csv: string)
    ensures csv == header + "\n" + Terminated(LineSeq(rows))
  {
    ghost var lines := LineSeq(rows);
    csv := header + "\n";
    var i := 0;
    while i < |rows|
      invariant 0 <= i <= |rows|
      invariant csv == header + "\n" + Terminated(lines[..i])
    {
      AppendLine(header + "\n", lines, i);
      csv := csv + Line(rows[i]) + "\n";
      i := i + 1;
    }
    assert lines[..i] == lines;
  }

  // ---------------------------------------------------------------------
  // Reading the document back
  // ---------------------------------------------------------------------

  lemma {:induction false} JoinFree(fields: seq<string>, sep: char, c: char)
    requires c != sep
    requires forall k :: 0 <= k < |fields| ==> c !in fields[k]
    ensures c !in Join(fields, sep)
  {
    if |fields| > 1 {
      JoinFree(fields[1..], sep, c);
    }
  }

  lemma NumbersFree(c: char, n: nat, amount: int)
    requires !IsDigit(c) && c != '-' && c != '.'
    ensures c !in NatToString(n) && c !in IntToString(amount) && c !in Cents(amount)
  {
    forall m: nat ensures c !in NatToString(m) {
      var s := NatToString(m);
      assert forall k :: 0 <= k < |s| ==> IsDigit(s[k]);
    }
    var a := if amount < 0 then -amount else amount;
    var t := TwoDigits(a % 100);
    assert forall k :: 0 <= k < |t| ==> IsDigit(t[k]);
  }

  /** No column name holds a comma or a newline. */
  lemma NamesFree(c: char)
    requires c == ',' || c == '\n'
    ensures forall k :: 0 <= k < |Header| ==> c !in Header[k]
  {
  }

  lemma HeaderFree()
    ensures '\n' !in HeaderLine()
  {
    NamesFree('\n');
    JoinFree(Header, ',', '\n');
  }

  /** No header field holds a comma, so the header line splits back into the ten names. */
  lemma HeaderFields()
    ensures |Header| == 10
    ensures Split(HeaderLine(), ',') == Header
  {
    NamesFree(',');
    SplitJoin(Header, ',');
  }

  /**
   * A line splits back into its ten fields when the date, name and masa hold
   * no comma, and the fields read back as the row's values.
   */
  lemma LineFields(r: SaleRow)
    requires ',' !in r.businessDay && ',' !in r.name && ',' !in MasaText(r.masa)
    ensures var f := Split(Line(r), ',');
      && f == Fields(r)
      && |f| == 10
      && f[0] == r.businessDay
      && f[2] == Quoted(r.name)
      && f[3] == MasaText(r.masa)
      && DigitsValue(f[4]) == r.quantity
      && ReadCents(f[5]) == Some(r.unitPrice)
      && ReadCents(f[6]) == Some(r.lineTotal)
      && (f[7] == "Sí" <==> r.isDelivery)
      && ReadCents(f[8]) == Some(r.deliveryCost)
      && ReadCents(f[9]) == Some(r.orderTotal)
  {
    var f := Fields(r);
    NumbersFree(',', r.quantity, r.orderId);
    NumbersFree(',', 0, r.unitPrice);
    NumbersFree(',', 0, r.lineTotal);
    NumbersFree(',', 0, r.deliveryCost);
    NumbersFree(',', 0, r.orderTotal);
    assert ',' !in Quoted(r.name);
    SplitJoin(f, ',');
    NatToStringRoundTrip(r.quantity);
    CentsRoundTrip(r.unitPrice);
    CentsRoundTrip(r.lineTotal);
    CentsRoundTrip(r.deliveryCost);
    CentsRoundTrip(r.orderTotal);
  }

  /** The document's shape, for any header, lines, title, labels and figures, is its lines joined by newlines. */
  lemma Assembled(header: string, lines: seq<string>, title: string, a: string, n: string, b: string, v: string)
    ensures header + "\n" + Terminated(lines) + "\n" + title + "\n" + a + n + "\n" + b + v + "\n"
      == Join([header] + lines + ["", title, a + n, b + v, ""], '\n')
  {
    var p := header + "\n";
    var l1 := lines + [""];
    var l2 := l1 + [title];
    var l3 := l2 + [a + n];
    var l4 := l3 + [b + v];
    calc {
      p + Terminated(lines) + "\n" + title + "\n" + a + n + "\n" + b + v + "\n";
      == { TerminateEmpty(p, lines); }
      p + Terminated(l1) + title + "\n" + a + n + "\n" + b + v + "\n";
      == { AppendTerminated(p, l1, title); }
      p + Terminated(l2) + a + n + "\n" + b + v + "\n";
      == { AppendJoined(p, l2, a, n); }
      p + Terminated(l3) + b + v + "\n";
      == { AppendJoined(p, l3, b, v); }
      p + Terminated(l4);
      == { JoinTerminated(header, l4); }
      Join([header] + (l4 + [""]), '\n');
      == { assert [header] + lines + ["", title, a + n, b + v, ""] == [header] + (l4 + [""]); }
      Join([header] + lines + ["", title, a + n, b + v, ""], '\n');
    }
  }

  /** Appending one line and its newline to a prefix and terminated lines terminates one more line. */
  lemma AppendTerminated(prefix: string, lines: seq<string>, l: string)
    ensures prefix + Terminated(lines) + l + "\n" == prefix + Terminated(lines + [l])
  {
    TerminatedSnoc(lines, l);
  }

  lemma TerminateEmpty(prefix: string, lines: seq<string>)
    ensures prefix + Terminated(lines) + "\n" == prefix + Terminated(lines + [""])
  {
    AppendTerminated(prefix, lines, "");
    assert prefix + Terminated(lines) + "" == prefix + Terminated(lines);
  }

  lemma AppendJoined(prefix: string, lines: seq<string>, x: string, y: string)
    ensures prefix + Terminated(lines) + x + y + "\n" == prefix + Terminated(lines + [x + y])
  {
    AppendTerminated(prefix, lines, x + y);
    var s := prefix + Terminated(lines);
    assert s + x + y == s + (x + y);
  }

  /** A header, then terminated lines, then one empty line: the header and the lines joined. */
  lemma JoinTerminated(header: string, lines: seq<string>)
    ensures header + "\n" + Terminated(lines) == Join([header] + (lines + [""]), '\n')
  {
    TerminatedJoin(lines, [""]);
    assert ([header] + (lines + [""]))[1..] == lines + [""];
    assert Terminated(lines) + "" == Terminated(lines);
  }

  /** The document is its lines joined by newlines. */
  lemma DocumentJoin(header: string, rows: seq<SaleRow>, sales: int)
    ensures DocumentWith(header, rows, sales) == Join([header] + LineSeq(rows) + SummaryLines(rows, sales), '\n')
  {
    Assembled(header, LineSeq(rows), SummaryTitle, OrdersLabel, NatToString(UniqueOrders(rows)),
              SalesLabel, Cents(sales));
  }

  lemma LineFree(r: SaleRow)
    requires '\n' !in r.businessDay && '\n' !in r.name && '\n' !in MasaText(r.masa)
    ensures '\n' !in Line(r)
  {
    NumbersFree('\n', r.quantity, r.orderId);
    NumbersFree('\n', 0, r.unitPrice);
    NumbersFree('\n', 0, r.lineTotal);
    NumbersFree('\n', 0, r.deliveryCost);
    NumbersFree('\n', 0, r.orderTotal);
    assert '\n' !in Quoted(r.name);
    JoinFree(Fields(r), ',', '\n');
  }

  lemma SummaryOfFree(n: string, v: string)
    requires '\n' !in n && '\n' !in v
    ensures |SummaryOf(n, v)| == 5
    ensures forall k :: 0 <= k < 5 ==> '\n' !in SummaryOf(n, v)[k]
  {
    LabelsFree();
  }

  lemma LabelsFree()
    ensures '\n' !in SummaryTitle && '\n' !in OrdersLabel && '\n' !in SalesLabel
  {
    assert forall k :: 0 <= k < |SummaryTitle| ==> SummaryTitle[k] != '\n';
    assert forall k :: 0 <= k < |OrdersLabel| ==> OrdersLabel[k] != '\n';
    assert forall k :: 0 <= k < |SalesLabel| ==> SalesLabel[k] != '\n';
  }

  /** No line holds the character `c`. */
  ghost predicate NoneHolds(lines: seq<string>, c: char)
  {
    forall k :: 0 <= k < |lines| ==> c !in lines[k]
  }

  /** No row's date, name or masa holds a newline. */
  ghost predicate SingleLineRows(rows: seq<SaleRow>)
  {
    forall k :: 0 <= k < |rows| ==>
      '\n' !in rows[k].businessDay && '\n' !in rows[k].name && '\n' !in MasaText(rows[k].masa)
  }

  /** Lines free of newlines, joined by newlines, split back into themselves. */
  lemma SplitAssembled(header: string, lines: seq<string>, summary: seq<string>)
    requires '\n' !in header
    requires NoneHolds(lines, '\n') && NoneHolds(summary, '\n')
    ensures Split(Join([header] + lines + summary, '\n'), '\n') == [header] + lines + summary
  {
    ConcatFree([header], lines, '\n');
    ConcatFree([header] + lines, summary, '\n');
    SplitJoin([header] + lines + summary, '\n');
  }

  lemma ConcatFree(a: seq<string>, b: seq<string>, c: char)
    requires forall k :: 0 <= k < |a| ==> c !in a[k]
    requires forall k :: 0 <= k < |b| ==> c !in b[k]
    ensures forall k :: 0 <= k < |a + b| ==> c !in (a + b)[k]
  {
    forall k | 0 <= k < |a + b| ensures c !in (a + b)[k] {
      if k >= |a| {
        assert (a + b)[k] == b[k - |a|];
      }
    }
  }

  /**
   * When no date, name or masa holds a newline, the document is read back,
   * line by line, as the header, one line per row and the summary lines: as
   * sent, with the per-row sales figure, and as corrected, with the per-order one.
   */
  lemma DocumentLines(rows: seq<SaleRow>)
    requires SingleLineRows(rows)
    ensures Split(Document(rows), '\n') == [HeaderLine()] + LineSeq(rows) + SummaryLines(rows, TotalSalesAsWritten(rows))
    ensures Split(CorrectedDocument(rows), '\n')
            == [HeaderLine()] + LineSeq(rows) + SummaryLines(rows, TotalSalesPerOrder(rows))
  {
    HeaderFree();
    LinesUnder(HeaderLine(), rows, TotalSalesAsWritten(rows));
    LinesUnder(HeaderLine(), rows, TotalSalesPerOrder(rows));
  }

  /** The same, for any header line free of newlines and any sales figure. */
  lemma LinesUnder(header: string, rows: seq<SaleRow>, sales: int)
    requires '\n' !in header
    requires SingleLineRows(rows)
    ensures Split(DocumentWith(header, rows, sales), '\n') == [header] + LineSeq(rows) + SummaryLines(rows, sales)
  {
    var all := [header] + LineSeq(rows) + SummaryLines(rows, sales);
    calc {
      Split(DocumentWith(header, rows, sales), '\n');
      == { DocumentJoin(header, rows, sales); }
      Split(Join(all, '\n'), '\n');
      == { RowLinesFree(rows); SummaryFree(rows, sales); SplitAssembled(header, LineSeq(rows), SummaryLines(rows, sales)); }
      all;
    }
  }

  lemma RowLinesFree(rows: seq<SaleRow>)
    requires SingleLineRows(rows)
    ensures NoneHolds(LineSeq(rows), '\n')
  {
    forall k | 0 <= k < |rows| ensures '\n' !in LineSeq(rows)[k] {
      LineFree(rows[k]);
    }
  }

  lemma SummaryFree(rows: seq<SaleRow>, sales: int)
    ensures NoneHolds(SummaryLines(rows, sales), '\n')
  {
    NumbersFree('\n', UniqueOrders(rows), sales);
    SummaryOfFree(NatToString(UniqueOrders(rows)), Cents(sales));
  }

  // ---------------------------------------------------------------------
  // Quoting
  // ---------------------------------------------------------------------

  /** Each double quote written twice. */
  function EscapeQuotes(s: string): (r: string)
    ensures |r| >= |s|
    ensures '"' !in s ==> r == s
    ensures '"' in s ==> |r| > |s|
  {
    if s == [] then []
    else (if s[0] == '"' then "\"\"" else [s[0]]) + EscapeQuotes(s[1..])
  }

  /** A field quoted by the rule of section 2 of RFC 4180. */
  function Rfc4180Quoted(s: string): string
  {
    "\"" + EscapeQuotes(s) + "\""
  }

  /** The name field follows RFC 4180 exactly when the name holds no double quote. */
  lemma NameQuotingIsRfc4180(r: SaleRow)
    ensures Fields(r)[2] == Rfc4180Quoted(r.name) <==> '"' !in r.name
  {
    if '"' in r.name {
      assert |Rfc4180Quoted(r.name)| > |Quoted(r.name)|;
    }
  }

  // ---------------------------------------------------------------------
  // What the summary counts
  // ---------------------------------------------------------------------

  /** How many of the day's orders have at least one sales row. */
  function OrdersWithSales(day: seq<OrderRow>, items: seq<ItemRow>, products: seq<ProductRow>, date: string): nat
  {
    if day == [] then 0
    else
      var last := day[|day| - 1];
      OrdersWithSales(day[..|day| - 1], items, products, date)
        + (if OrderSales(last, LinesOf(items, last.id), products, date) == [] then 0 else 1)
  }

  /** The totals of the day's orders that have at least one sales row. */
  function SalesWithRows(day: seq<OrderRow>, items: seq<ItemRow>, products: seq<ProductRow>, date: string): int
  {
    if day == [] then 0
    else
      var last := day[|day| - 1];
      SalesWithRows(day[..|day| - 1], items, products, date)
        + (if OrderSales(last, LinesOf(items, last.id), products, date) == [] then 0 else last.total)
  }

  /** The total of every sales row's order, once per row. */
  function SalesPerRow(day: seq<OrderRow>, items: seq<ItemRow>, products: seq<ProductRow>, date: string): int
  {
    if day == [] then 0
    else
      var last := day[|day| - 1];
      SalesPerRow(day[..|day| - 1], items, products, date)
        + |OrderSales(last, LinesOf(items, last.id), products, date)| * last.total
  }

  lemma OrderIdsAppend(a: seq<SaleRow>, b: seq<SaleRow>)
    ensures OrderIds(a + b) == OrderIds(a) + OrderIds(b)
  {
    forall x | x in OrderIds(a + b) ensures x in OrderIds(a) + OrderIds(b) {
      var r :| r in a + b && r.orderId == x;
    }
    forall x | x in OrderIds(a) + OrderIds(b) ensures x in OrderIds(a + b) {
      if x in OrderIds(a) {
        var r :| r in a && r.orderId == x;
        assert r in a + b;
      } else {
        var r :| r in b && r.orderId == x;
        assert r in a + b;
      }
    }
  }

  lemma {:induction false} AsWrittenAppend(a: seq<SaleRow>, b: seq<SaleRow>)
    ensures TotalSalesAsWritten(a + b) == TotalSalesAsWritten(a) + TotalSalesAsWritten(b)
  {
    if b != [] {
      AsWrittenAppend(a, b[..|b| - 1]);
      assert a + b == (a + b[..|b| - 1]) + [b[|b| - 1]];
    } else {
      assert a + b == a;
    }
  }

  lemma {:induction false} AsWrittenOneOrder(b: seq<SaleRow>, total: int)
    requires forall s :: s in b ==> s.orderTotal == total
    ensures TotalSalesAsWritten(b) == |b| * total
  {
    if b != [] {
      assert forall s :: s in b[..|b| - 1] ==> s in b;
      AsWrittenOneOrder(b[..|b| - 1], total);
      assert b[|b| - 1] in b;
    }
  }

  lemma OneOrderIds(b: seq<SaleRow>, id: int)
    requires forall s :: s in b ==> s.orderId == id
    ensures OrderIds(b) == if b == [] then {} else {id}
  {
    if b != [] {
      assert b[0] in b;
    }
  }

  /** Appending one order's rows after rows of other orders. */
  lemma {:induction false} PerOrderAppend(a: seq<SaleRow>, b: seq<SaleRow>, id: int, total: int)
    requires forall s :: s in b ==> s.orderId == id && s.orderTotal == total
    requires id !in OrderIds(a)
    ensures TotalSalesPerOrder(a + b) == TotalSalesPerOrder(a) + (if b == [] then 0 else total)
  {
    if b == [] {
      assert a + b == a;
    } else {
      var init := b[..|b| - 1];
      var last := b[|b| - 1];
      assert forall s :: s in init ==> s in b;
      PerOrderAppend(a, init, id, total);
      assert a + b == (a + init) + [last];
      assert (a + b)[..|a + b| - 1] == a + init;
      assert last in b;
      OrderIdsAppend(a, init);
      OneOrderIds(init, id);
    }
  }

  /** No row of the earlier orders carries the id of the day's last order. */
  lemma EarlierIdsDiffer(day: seq<OrderRow>, items: seq<ItemRow>, products: seq<ProductRow>, date: string)
    requires OrderIdsAscending(day) && day != []
    ensures day[|day| - 1].id !in OrderIds(SaleRows(day[..|day| - 1], items, products, date))
  {
    var init := day[..|day| - 1];
    forall s | s in SaleRows(init, items, products, date) ensures s.orderId != day[|day| - 1].id {
      var k :| 0 <= k < |init| && init[k].id == s.orderId && init[k].total == s.orderTotal;
      assert init[k] == day[k];
    }
  }

  /** Over a day's rows, the corrected figure adds the total of each order that has rows once. */
  lemma {:induction false} PerOrderCounts(day: seq<OrderRow>, items: seq<ItemRow>, products: seq<ProductRow>, date: string)
    requires OrderIdsAscending(day)
    ensures TotalSalesPerOrder(SaleRows(day, items, products, date)) == SalesWithRows(day, items, products, date)
  {
    if day != [] {
      var init := day[..|day| - 1];
      var last := day[|day| - 1];
      PerOrderCounts(init, items, products, date);
      EarlierIdsDiffer(day, items, products, date);
      PerOrderAppend(SaleRows(init, items, products, date), OrderSales(last, LinesOf(items, last.id), products, date), last.id, last.total);
    }
  }

  /** Over a day's rows, the number of distinct order ids is the number of orders that have rows. */
  lemma {:induction false} UniqueCounts(day: seq<OrderRow>, items: seq<ItemRow>, products: seq<ProductRow>, date: string)
    requires OrderIdsAscending(day)
    ensures UniqueOrders(SaleRows(day, items, products, date)) == OrdersWithSales(day, items, products, date)
  {
    if day == [] {
      assert OrderIds([]) == {};
    } else {
      var init := day[..|day| - 1];
      var last := day[|day| - 1];
      var a := SaleRows(init, items, products, date);
      var b := OrderSales(last, LinesOf(items, last.id), products, date);
      UniqueCounts(init, items, products, date);
      EarlierIdsDiffer(day, items, products, date);
      OrderIdsAppend(a, b);
      OneOrderIds(b, last.id);
    }
  }

  /** Over a day's rows, the figure as written adds each order's total once per row. */
  lemma {:induction false} AsWrittenCounts(day: seq<OrderRow>, items: seq<ItemRow>, products: seq<ProductRow>, date: string)
    ensures TotalSalesAsWritten(SaleRows(day, items, products, date)) == SalesPerRow(day, items, products, date)
  {
    if day != [] {
      var init := day[..|day| - 1];
      var last := day[|day| - 1];
      var b := OrderSales(last, LinesOf(items, last.id), products, date);
      AsWrittenCounts(init, items, products, date);
      AsWrittenAppend(SaleRows(init, items, products, date), b);
      AsWrittenOneOrder(b, last.total);
    }
  }

  /**
   * When every order of the day has a sales row, the corrected summary
   * reports the daily totals' order count and sales.
   */
  lemma SummaryMatchesTotals(orders: seq<OrderRow>, items: seq<ItemRow>, products: seq<ProductRow>, date: string)
    requires OrderIdsAscending(orders)
    requires forall o :: o in DayOrders(orders, date) ==> OrderSales(o, LinesOf(items, o.id), products, date) != []
    ensures TotalSalesPerOrder(DaySales(orders, items, products, date)) == Totals(DayOrders(orders, date)).sales
    ensures UniqueOrders(DaySales(orders, items, products, date)) == Totals(DayOrders(orders, date)).orders
  {
    var day := DayOrders(orders, date);
    DayOrdersAscending(orders, date);
    PerOrderCounts(day, items, products, date);
    UniqueCounts(day, items, products, date);
    AllHaveSales(day, items, products, date);
  }

  lemma {:induction false} AllHaveSales(day: seq<OrderRow>, items: seq<ItemRow>, products: seq<ProductRow>, date: string)
    requires forall o :: o in day ==> OrderSales(o, LinesOf(items, o.id), products, date) != []
    ensures SalesWithRows(day, items, products, date) == SalesOf(day)
    ensures OrdersWithSales(day, items, products, date) == |day|
  {
    if day != [] {
      var init := day[..|day| - 1];
      assert forall o :: o in init ==> o in day;
      AllHaveSales(init, items, products, date);
      assert day[|day| - 1] in day;
    }
  }

  // ---------------------------------------------------------------------
  // The summary's sales figure as written
  // ---------------------------------------------------------------------

  lemma ExampleLines()
    ensures LinesOf([ItemRow(1, 1, PricedLine(7, Some(Maiz), 1, 250, 250)),
                     ItemRow(2, 1, PricedLine(7, Some(Arroz), 1, 250, 250))], 1)
         == [PricedLine(7, Some(Maiz), 1, 250, 250), PricedLine(7, Some(Arroz), 1, 250, 250)]
  {
    var l1 := PricedLine(7, Some(Maiz), 1, 250, 250);
    var l2 := PricedLine(7, Some(Arroz), 1, 250, 250);
    var items := [ItemRow(1, 1, l1), ItemRow(2, 1, l2)];
    assert items[..1][..0] == [];
    assert LinesOf(items[..1], 1) == [l1];
    assert items[..1] == items[..|items| - 1];
  }

  lemma ExampleOrderSales()
    ensures OrderSales(OrderRow(1, Some("2024-05-01"), false, 0, 500),
                       [PricedLine(7, Some(Maiz), 1, 250, 250), PricedLine(7, Some(Arroz), 1, 250, 250)],
                       [ProductRow(7, "Revuelta", Maiz, 250, false)], "2024-05-01")
         == [SaleRow(1, "2024-05-01", "Revuelta", Some(Maiz), false, 1, 250, 250, false, 0, 500),
             SaleRow(1, "2024-05-01", "Revuelta", Some(Arroz), false, 1, 250, 250, false, 0, 500)]
  {
    var o := OrderRow(1, Some("2024-05-01"), false, 0, 500);
    var l1 := PricedLine(7, Some(Maiz), 1, 250, 250);
    var l2 := PricedLine(7, Some(Arroz), 1, 250, 250);
    var p := ProductRow(7, "Revuelta", Maiz, 250, false);
    var r1 := SaleRow(1, "2024-05-01", "Revuelta", Some(Maiz), false, 1, 250, 250, false, 0, 500);
    var r2 := SaleRow(1, "2024-05-01", "Revuelta", Some(Arroz), false, 1, 250, 250, false, 0, 500);
    assert FindRow([p], 7) == Some(p);
    assert [l1][..0] == [];
    assert OrderSales(o, [l1], [p], "2024-05-01") == [r1];
    assert [l1, l2][..1] == [l1];
    assert OrderSales(o, [l1, l2], [p], "2024-05-01") == [r1] + [r2];
  }

  /** The sales rows of the example day below: one order, two lines of the same product. */
  lemma ExampleRows()
    ensures DaySales([OrderRow(1, Some("2024-05-01"), false, 0, 500)],
                     [ItemRow(1, 1, PricedLine(7, Some(Maiz), 1, 250, 250)),
                      ItemRow(2, 1, PricedLine(7, Some(Arroz), 1, 250, 250))],
                     [ProductRow(7, "Revuelta", Maiz, 250, false)], "2024-05-01")
         == [SaleRow(1, "2024-05-01", "Revuelta", Some(Maiz), false, 1, 250, 250, false, 0, 500),
             SaleRow(1, "2024-05-01", "Revuelta", Some(Arroz), false, 1, 250, 250, false, 0, 500)]
  {
    var o := OrderRow(1, Some("2024-05-01"), false, 0, 500);
    assert DayOrders([o], "2024-05-01") == [o] by {
      assert [o][..0] == [];
    }
    var items := [ItemRow(1, 1, PricedLine(7, Some(Maiz), 1, 250, 250)),
                  ItemRow(2, 1, PricedLine(7, Some(Arroz), 1, 250, 250))];
    var products := [ProductRow(7, "Revuelta", Maiz, 250, false)];
    ExampleLines();
    ExampleOrderSales();
    assert [o][..0] == [];
    assert SaleRows([o], items, products, "2024-05-01")
        == SaleRows([], items, products, "2024-05-01") + OrderSales(o, LinesOf(items, 1), products, "2024-05-01");
  }

  lemma ExampleFigures()
    ensures var rows := [SaleRow(1, "2024-05-01", "Revuelta", Some(Maiz), false, 1, 250, 250, false, 0, 500),
                         SaleRow(1, "2024-05-01", "Revuelta", Some(Arroz), false, 1, 250, 250, false, 0, 500)];
      TotalSalesAsWritten(rows) == 1000 && TotalSalesPerOrder(rows) == 500
  {
    var r1 := SaleRow(1, "2024-05-01", "Revuelta", Some(Maiz), false, 1, 250, 250, false, 0, 500);
    var r2 := SaleRow(1, "2024-05-01", "Revuelta", Some(Arroz), false, 1, 250, 250, false, 0, 500);
    var rows := [r1, r2];
    assert rows[..1] == [r1] && [r1][..0] == [];
    assert TotalSalesAsWritten([r1]) == 500;
    assert OrderIds([r1]) == {1} by {
      assert r1 in [r1];
    }
    assert TotalSalesPerOrder([r1]) == 500 by {
      assert OrderIds([]) == {};
    }
  }

  lemma ExampleTotals()
    ensures var orders := [OrderRow(1, Some("2024-05-01"), false, 0, 500)];
      var items := [ItemRow(1, 1, PricedLine(7, Some(Maiz), 1, 250, 250)),
                    ItemRow(2, 1, PricedLine(7, Some(Arroz), 1, 250, 250))];
      TotalsConsistent(orders, items) && Totals(DayOrders(orders, "2024-05-01")).sales == 500
  {
    ExampleConsistent();
    ExampleDaySales();
  }

  lemma ExampleConsistent()
    ensures TotalsConsistent([OrderRow(1, Some("2024-05-01"), false, 0, 500)],
                             [ItemRow(1, 1, PricedLine(7, Some(Maiz), 1, 250, 250)),
                              ItemRow(2, 1, PricedLine(7, Some(Arroz), 1, 250, 250))])
  {
    var l1 := PricedLine(7, Some(Maiz), 1, 250, 250);
    var l2 := PricedLine(7, Some(Arroz), 1, 250, 250);
    ExampleLines();
    assert LineTotals([l1, l2]) == [250, 250];
    assert [250, 250][..1] == [250] && [250][..0] == [];
    assert Sum([250, 250]) == 500;
  }

  lemma ExampleDaySales()
    ensures Totals(DayOrders([OrderRow(1, Some("2024-05-01"), false, 0, 500)], "2024-05-01")).sales == 500
  {
    var o := OrderRow(1, Some("2024-05-01"), false, 0, 500);
    assert DayOrders([o], "2024-05-01") == [o] by {
      assert [o][..0] == [];
    }
    assert [o][..0] == [];
  }

  /**
   * One pickup order of 5.00 with two lines of 2.50: the figure as written
   * reports 10.00, while the order's total and the daily report say 5.00.
   */
  lemma TotalSalesAsWrittenCountsEachLine()
    ensures var orders := [OrderRow(1, Some("2024-05-01"), false, 0, 500)];
      var items := [ItemRow(1, 1, PricedLine(7, Some(Maiz), 1, 250, 250)),
                    ItemRow(2, 1, PricedLine(7, Some(Arroz), 1, 250, 250))];
      var products := [ProductRow(7, "Revuelta", Maiz, 250, false)];
      var rows := DaySales(orders, items, products, "2024-05-01");
      && TotalsConsistent(orders, items)
      && |rows| == 2
      && TotalSalesAsWritten(rows) == 1000
      && TotalSalesPerOrder(rows) == 500
      && Totals(DayOrders(orders, "2024-05-01")).sales == 500
  {
    ExampleRows();
    ExampleFigures();
    ExampleTotals();
  }

  /** The two figures agree when no order has more than one row. */
  lemma {:induction false} FiguresAgreeWhenOneRowEach(rows: seq<SaleRow>)
    requires forall i, j :: 0 <= i < j < |rows| ==> rows[i].orderId != rows[j].orderId
    ensures TotalSalesAsWritten(rows) == TotalSalesPerOrder(rows)
  {
    if rows != [] {
      var init := rows[..|rows| - 1];
      var last := rows[|rows| - 1];
      forall i, j | 0 <= i < j < |init| ensures init[i].orderId != init[j].orderId {
        assert init[i] == rows[i] && init[j] == rows[j];
      }
      FiguresAgreeWhenOneRowEach(init);
    }
  }

  /** So the document as sent is the corrected one when no order has more than one row. */
  lemma DocumentsAgreeWhenOneRowEach(rows: seq<SaleRow>)
    requires forall i, j :: 0 <= i < j < |rows| ==> rows[i].orderId != rows[j].orderId
    ensures Document(rows) == CorrectedDocument(rows)
  {
    FiguresAgreeWhenOneRowEach(rows);
  }

  /**
   * Line `|rows| + 4` of a document (after the header, the rows, the blank
   * line, the title and the order count) is the sales line.
   */
  lemma SalesLine(rows: seq<SaleRow>)
    requires SingleLineRows(rows)
    ensures |Split(Document(rows), '\n')| == |rows| + 6
    ensures Split(Document(rows), '\n')[|rows| + 4] == SalesLabel + Cents(TotalSalesAsWritten(rows))
    ensures |Split(CorrectedDocument(rows), '\n')| == |rows| + 6
    ensures Split(CorrectedDocument(rows), '\n')[|rows| + 4] == SalesLabel + Cents(TotalSalesPerOrder(rows))
  {
    DocumentLines(rows);
  }

  lemma CentsExamples()
    ensures Cents(1000) == "10.00" && Cents(500) == "5.00"
  {
    assert NatToString(1) == "1";
    assert NatToString(10) == NatToString(1) + [DigitChar(0)];
    assert NatToString(5) == "5";
    assert TwoDigits(0) == "00";
  }

  /**
   * The example day (one 5.00 order of two lines) as the export sends it: the
   * sales line says 10.00, where the corrected document says 5.00.
   */
  lemma ExportedSalesLineAsWritten(rows: seq<SaleRow>)
    requires rows == [SaleRow(1, "2024-05-01", "Revuelta", Some(Maiz), false, 1, 250, 250, false, 0, 500),
                      SaleRow(1, "2024-05-01", "Revuelta", Some(Arroz), false, 1, 250, 250, false, 0, 500)]
    ensures var sent := Split(Document(rows), '\n'); |sent| == 8 && sent[6] == SalesLabel + "10.00"
    ensures var corrected := Split(CorrectedDocument(rows), '\n'); |corrected| == 8 && corrected[6] == SalesLabel + "5.00"
  {
    ExampleFigures();
    CentsExamples();
    assert SingleLineRows(rows) by {
      assert '\n' !in "2024-05-01" && '\n' !in "Revuelta" && '\n' !in Maiz && '\n' !in Arroz;
    }
    SalesLine(rows);
  }

  /** Those are the rows the export of the example day writes. */
  lemma ExampleExport(orders: seq<OrderRow>, items: seq<ItemRow>, products: seq<ProductRow>, rows: seq<SaleRow>)
    requires orders == [OrderRow(1, Some("2024-05-01"), false, 0, 500)]
    requires items == [ItemRow(1, 1, PricedLine(7, Some(Maiz), 1, 250, 250)),
                       ItemRow(2, 1, PricedLine(7, Some(Arroz), 1, 250, 250))]
    requires products == [ProductRow(7, "Revuelta", Maiz, 250, false)]
    requires rows == [SaleRow(1, "2024-05-01", "Revuelta", Some(Maiz), false, 1, 250, 250, false, 0, 500),
                      SaleRow(1, "2024-05-01", "Revuelta", Some(Arroz), false, 1, 250, 250, false, 0, 500)]
    ensures Export(orders, items, products, "2024-05-01") == Success(Document(rows))
  {
    ExampleExportRows(orders, items, products, rows);
    ExampleDateShape("2024-05-01");
    ExportOfRows(orders, items, products, "2024-05-01", rows);
  }

  lemma ExampleExportRows(orders: seq<OrderRow>, items: seq<ItemRow>, products: seq<ProductRow>, rows: seq<SaleRow>)
    requires orders == [OrderRow(1, Some("2024-05-01"), false, 0, 500)]
    requires items == [ItemRow(1, 1, PricedLine(7, Some(Maiz), 1, 250, 250)),
                       ItemRow(2, 1, PricedLine(7, Some(Arroz), 1, 250, 250))]
    requires products == [ProductRow(7, "Revuelta", Maiz, 250, false)]
    requires rows == [SaleRow(1, "2024-05-01", "Revuelta", Some(Maiz), false, 1, 250, 250, false, 0, 500),
                      SaleRow(1, "2024-05-01", "Revuelta", Some(Arroz), false, 1, 250, 250, false, 0, 500)]
    ensures DaySales(orders, items, products, "2024-05-01") == rows && rows != []
  {
    ExampleRows();
  }

  lemma ExampleDateShape(date: string)
    requires date == "2024-05-01"
    ensures IsDateShape(date)
  {
  }

  /** A well-shaped day with rows is exported as the document of those rows. */
  lemma ExportOfRows(orders: seq<OrderRow>, items: seq<ItemRow>, products: seq<ProductRow>, date: string, rows: seq<SaleRow>)
    requires IsDateShape(date) && DaySales(orders, items, products, date) == rows && rows != []
    ensures Export(orders, items, products, date) == Success(Document(rows))
  {
  }
}
