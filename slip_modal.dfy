/**
 * The consignment slip (invoice) modal: tax rates with their fallbacks, the
 * tax amounts and the total, the currency and date formatting, and the
 * document the modal renders, abstracted as labelled rows. The document holds
 * two identical copies of one invoice separated by a divider.
 */
module SlipModal {
  import opened Options

  /** A numeric field of the booking as JavaScript sees it: absent, NaN, or a number. */
  datatype JsNumber = Undefined | NaN | Num(value: real)

  /** `undefined`, `NaN` and `0` are falsy; every other number is truthy. */
  predicate Falsy(x: JsNumber) {
    x.Undefined? || x.NaN? || x.value == 0.0
  }

  /** JavaScript's `x || d` on a numeric field. */
  function OrElse(x: JsNumber, d: real): real {
    if Falsy(x) then d else x.value
  }

  /** JavaScript's `x * rate / 100`: anything but a number yields NaN. */
  function Percent(x: JsNumber, rate: real): JsNumber {
    if x.Num? then Num(x.value * rate / 100.0) else NaN
  }

  /** JavaScript's `+` on numbers: NaN as soon as one side is not a number. */
  function Plus(x: JsNumber, y: JsNumber): JsNumber {
    if x.Num? && y.Num? then Num(x.value + y.value) else NaN
  }

  const DefaultCgstRate: real := 9.0
  const DefaultSgstRate: real := 9.0
  const DefaultIgstRate: real := 0.0

  /** The rates in force and the amounts derived from them (never stored). */
  datatype TaxBreakdown = TaxBreakdown(
    cgstRate: real, sgstRate: real, igstRate: real,
    cgstAmount: JsNumber, sgstAmount: JsNumber, igstAmount: JsNumber,
    totalWithTax: JsNumber)

  /**
   * The rates fall back to 9, 9 and 0 when the field is falsy; each amount is
   * the subtotal times its rate over 100, and the total adds the three to the
   * subtotal.
   */
  function ComputeTax(grandTotal: JsNumber, cgst: JsNumber, sgst: JsNumber, igst: JsNumber): (t: TaxBreakdown)
    ensures t.cgstRate == if Falsy(cgst) then DefaultCgstRate else cgst.value
    ensures t.sgstRate == if Falsy(sgst) then DefaultSgstRate else sgst.value
    ensures t.igstRate == if Falsy(igst) then DefaultIgstRate else igst.value
    ensures grandTotal.Num? ==>
      && t.cgstAmount == Num(grandTotal.value * t.cgstRate / 100.0)
      && t.sgstAmount == Num(grandTotal.value * t.sgstRate / 100.0)
      && t.igstAmount == Num(grandTotal.value * t.igstRate / 100.0)
    ensures grandTotal.Num? <==> t.totalWithTax.Num?
    ensures grandTotal.Num? ==>
      t.totalWithTax.value == grandTotal.value * (100.0 + t.cgstRate + t.sgstRate + t.igstRate) / 100.0
    ensures !grandTotal.Num? ==> t.cgstAmount == t.sgstAmount == t.igstAmount == t.totalWithTax == NaN
  {
    var cgstRate := OrElse(cgst, DefaultCgstRate);
    var sgstRate := OrElse(sgst, DefaultSgstRate);
    var igstRate := OrElse(igst, DefaultIgstRate);
    var cgstAmount := Percent(grandTotal, cgstRate);
    var sgstAmount := Percent(grandTotal, sgstRate);
    var igstAmount := Percent(grandTotal, igstRate);
    TaxBreakdown(cgstRate, sgstRate, igstRate, cgstAmount, sgstAmount, igstAmount,
                 Plus(Plus(Plus(grandTotal, cgstAmount), sgstAmount), igstAmount))
  }

  /** The total is exactly the subtotal plus the three tax amounts. */
  lemma TotalIsSumOfParts(grandTotal: JsNumber, cgst: JsNumber, sgst: JsNumber, igst: JsNumber)
    requires grandTotal.Num?
    ensures var t := ComputeTax(grandTotal, cgst, sgst, igst);
      t.totalWithTax.value == grandTotal.value + t.cgstAmount.value + t.sgstAmount.value + t.igstAmount.value
  {
  }

  /**
   * An explicit rate of 0 cannot be told from an absent one: CGST and SGST of
   * 0 are replaced by 9, while IGST of 0 stays 0.
   */
  lemma ExplicitZeroRateBecomesDefault(grandTotal: JsNumber, igst: JsNumber)
    ensures var t := ComputeTax(grandTotal, Num(0.0), Num(0.0), igst);
      t.cgstRate == 9.0 && t.sgstRate == 9.0
    ensures ComputeTax(grandTotal, Num(0.0), Num(0.0), Num(0.0)).igstRate == 0.0
  {
  }

  /** Any supplied non-zero rate is kept as it is, negative ones included. */
  lemma SuppliedRateKept(grandTotal: JsNumber, cgst: real, sgst: real, igst: real)
    requires cgst != 0.0 && sgst != 0.0 && igst != 0.0
    ensures var t := ComputeTax(grandTotal, Num(cgst), Num(sgst), Num(igst));
      t.cgstRate == cgst && t.sgstRate == sgst && t.igstRate == igst
  {
  }

  /** With a non-negative subtotal and no negative rate supplied, tax never lowers the total. */
  lemma TotalAtLeastSubtotal(grandTotal: real, cgst: JsNumber, sgst: JsNumber, igst: JsNumber)
    requires grandTotal >= 0.0
    requires cgst.Num? ==> cgst.value >= 0.0
    requires sgst.Num? ==> sgst.value >= 0.0
    requires igst.Num? ==> igst.value >= 0.0
    ensures ComputeTax(Num(grandTotal), cgst, sgst, igst).totalWithTax.value >= grandTotal
  {
    var t := ComputeTax(Num(grandTotal), cgst, sgst, igst);
    TaxNonNegative(grandTotal, t.cgstRate);
    TaxNonNegative(grandTotal, t.sgstRate);
    TaxNonNegative(grandTotal, t.igstRate);
    assert t.cgstAmount.value >= 0.0 && t.sgstAmount.value >= 0.0 && t.igstAmount.value >= 0.0;
    TotalIsSumOfParts(Num(grandTotal), cgst, sgst, igst);
  }

  /** A non-negative rate of a non-negative subtotal is a non-negative amount. */
  lemma TaxNonNegative(grandTotal: real, rate: real)
    requires grandTotal >= 0.0 && rate >= 0.0
    ensures Percent(Num(grandTotal), rate).value >= 0.0
  {
    assert grandTotal * rate >= 0.0;
  }

  /** Subtotal 1000 with CGST 0, SGST 0 and IGST 18 gives 90, 90, 180 and 1360. */
  lemma ZeroRatesExample()
    ensures ComputeTax(Num(1000.0), Num(0.0), Num(0.0), Num(18.0))
      == TaxBreakdown(9.0, 9.0, 18.0, Num(90.0), Num(90.0), Num(180.0), Num(1360.0))
  {
  }

  // ---------------------------------------------------------------------
  // Formatting

  /** The Rupee prefix of every amount, kept as the opaque text the page writes. */
  const CurrencyPrefix: string := "â‚¹"

  /**
   * A formatted amount: the text `CurrencyPrefix` followed by `amount` written
   * with two decimals. The host's two-decimal rounding is not modelled.
   */
  datatype Money = Money(amount: real)

  /** A missing or falsy amount is shown as 0; any other number as itself. */
  function FormatCurrency(x: JsNumber): (m: Money)
    ensures Falsy(x) ==> m.amount == 0.0
    ensures !Falsy(x) ==> m.amount == x.value
  {
    Money(OrElse(x, 0.0))
  }

  /** A formatted date: "N/A", or the host's locale rendering of the parsed text. */
  datatype DateText = NotAvailable | LocaleDate(source: string)

  /** An absent or empty date string is shown as "N/A". */
  function FormatDate(d: Option<string>): (r: DateText)
    ensures r.NotAvailable? <==> d.None? || d.value == ""
    ensures r.LocaleDate? ==> r.source == d.value
  {
    if d.Some? && d.value != "" then LocaleDate(d.value) else NotAvailable
  }

  // ---------------------------------------------------------------------
  // Booking data

  datatype Station = Station(stationName: Option<string>, gst: Option<string>)

  datatype LineItem = LineItem(
    refNo: Option<string>,
    insurance: JsNumber, vppAmount: JsNumber, toPay: Option<string>,
    weight: JsNumber, amount: JsNumber)

  datatype BookingData = BookingData(
    grandTotal: JsNumber, cgst: JsNumber, sgst: JsNumber, igst: JsNumber,
    startStation: Option<Station>,
    fromCity: Option<string>, toCity: Option<string>,
    senderName: Option<string>, senderGgt: Option<string>,
    receiverName: Option<string>, receiverGgt: Option<string>,
    bookingDate: Option<string>,
    items: Option<seq<LineItem>>)
  {
    function Tax(): TaxBreakdown {
      ComputeTax(grandTotal, cgst, sgst, igst)
    }
  }

  // ---------------------------------------------------------------------
  // The invoice as rows

  datatype Address = Address(city: string, address: string, phone: string)

  /** The two offices every slip lists, whatever the booking. */
  const Addresses: seq<Address> := [
    Address("H.O. DELHI", "332, Kucha Ghasi Ram, Chandni Chowk, Fatehpuri, Delhi -110006",
            "011-45138699, 7779993453"),
    Address("MUMBAI", "1, Malharrao Wadi, Gr. Flr., R. No. 4, D.A Lane Kalbadevi Rd., Mumbai-400002",
            "022-49711975, 7779993454")
  ]

  const CompanyName: string := "BHARAT PARCEL SERVICES PVT.LTD."
  const Pan: string := "AAECB6506F"

  const ItemColumns: seq<string> :=
    ["No. of", "Insurance", "VPP Amount", "To Pay/Paid", "Weight (Kgs)", "Amount"]

  /** One cell of the item table. */
  datatype Cell =
    | Serial(n: nat)            // the 1-based row number
    | Amount(money: Money)      // a formatted amount
    | Text(text: Option<string>)// a raw text field, empty when absent
    | Number(number: JsNumber)  // a raw numeric field

  datatype ItemRow = ItemRow(cells: seq<Cell>)

  /** The row of the item with 1-based number `n`, cells in column order. */
  function MakeItemRow(n: nat, item: LineItem): ItemRow {
    ItemRow([Serial(n), Amount(FormatCurrency(item.insurance)), Amount(FormatCurrency(item.vppAmount)),
             Text(item.toPay), Number(item.weight), Amount(FormatCurrency(item.amount))])
  }

  /** One row per item, in input order, the row at index `i` numbered `i + 1`. */
  function ItemRows(items: seq<LineItem>): (rows: seq<ItemRow>)
    ensures |rows| == |items|
    ensures forall i :: 0 <= i < |rows| ==>
      && |rows[i].cells| == |ItemColumns|
      && rows[i].cells[0] == Serial(i + 1)
      && rows[i].cells[1] == Amount(FormatCurrency(items[i].insurance))
      && rows[i].cells[2] == Amount(FormatCurrency(items[i].vppAmount))
      && rows[i].cells[3] == Text(items[i].toPay)
      && rows[i].cells[4] == Number(items[i].weight)
      && rows[i].cells[5] == Amount(FormatCurrency(items[i].amount))
  {
    if items == [] then []
    else ItemRows(items[..|items| - 1]) + [MakeItemRow(|items|, items[|items| - 1])]
  }

  /** The label of a totals row; each carries the rate it shows. */
  datatype TotalsLabel = SubTotal | Cgst(rate: real) | Sgst(rate: real) | Igst(rate: real) | TotalInclTax
  {
    /** The fixed position of each kind of row in the totals section. */
    function Rank(): nat {
      match this
      case SubTotal => 0
      case Cgst(_) => 1
      case Sgst(_) => 2
      case Igst(_) => 3
      case TotalInclTax => 4
    }
  }

  datatype TotalsRow = TotalsRow(kind: TotalsLabel, shown: Money)

  /** The tax row for one rate, present only when the rate is positive. */
  function TaxRow(kind: TotalsLabel, rate: real, amount: JsNumber): seq<TotalsRow> {
    if rate > 0.0 then [TotalsRow(kind, FormatCurrency(amount))] else []
  }

  function Count(b: bool): nat {
    if b then 1 else 0
  }

  /**
   * Sub Total, then the CGST, SGST and IGST rows whose rate is positive, then
   * the total including tax.
   */
  function TotalsRows(grandTotal: JsNumber, t: TaxBreakdown): (rows: seq<TotalsRow>)
    ensures |rows| == 2 + Count(t.cgstRate > 0.0) + Count(t.sgstRate > 0.0) + Count(t.igstRate > 0.0)
    ensures rows[0] == TotalsRow(SubTotal, FormatCurrency(grandTotal))
    ensures rows[|rows| - 1] == TotalsRow(TotalInclTax, FormatCurrency(t.totalWithTax))
    ensures forall i, j :: 0 <= i < j < |rows| ==> rows[i].kind.Rank() < rows[j].kind.Rank()
    ensures (exists i :: 0 <= i < |rows| && rows[i].kind.Cgst?) <==> t.cgstRate > 0.0
    ensures (exists i :: 0 <= i < |rows| && rows[i].kind.Sgst?) <==> t.sgstRate > 0.0
    ensures (exists i :: 0 <= i < |rows| && rows[i].kind.Igst?) <==> t.igstRate > 0.0
    ensures forall i :: 0 <= i < |rows| ==>
      && (rows[i].kind.Cgst? ==> rows[i] == TotalsRow(Cgst(t.cgstRate), FormatCurrency(t.cgstAmount)))
      && (rows[i].kind.Sgst? ==> rows[i] == TotalsRow(Sgst(t.sgstRate), FormatCurrency(t.sgstAmount)))
      && (rows[i].kind.Igst? ==> rows[i] == TotalsRow(Igst(t.igstRate), FormatCurrency(t.igstAmount)))
  {
    var c := TaxRow(Cgst(t.cgstRate), t.cgstRate, t.cgstAmount);
    var s := TaxRow(Sgst(t.sgstRate), t.sgstRate, t.sgstAmount);
    var g := TaxRow(Igst(t.igstRate), t.igstRate, t.igstAmount);
    var rows := [TotalsRow(SubTotal, FormatCurrency(grandTotal))] + c + s + g
      + [TotalsRow(TotalInclTax, FormatCurrency(t.totalWithTax))];
    assert t.cgstRate > 0.0 ==> rows[1].kind.Cgst?;
    assert t.sgstRate > 0.0 ==> rows[1 + |c|].kind.Sgst?;
    assert t.igstRate > 0.0 ==> rows[1 + |c| + |s|].kind.Igst?;
    rows
  }

  /** Positive CGST and SGST rates put their rows right after Sub Total. */
  lemma StateRowsFollowSubtotal(grandTotal: JsNumber, t: TaxBreakdown)
    requires t.cgstRate > 0.0 && t.sgstRate > 0.0
    ensures var rows := TotalsRows(grandTotal, t);
      rows[1].kind == Cgst(t.cgstRate) && rows[2].kind == Sgst(t.sgstRate)
  {
  }

  /** A booking without CGST and SGST fields always shows both of those rows, at 9%. */
  lemma AbsentStateRatesShowBothRows(grandTotal: JsNumber, igst: JsNumber)
    ensures var rows := TotalsRows(grandTotal, ComputeTax(grandTotal, Undefined, Undefined, igst));
      rows[1].kind == Cgst(9.0) && rows[2].kind == Sgst(9.0)
  {
    StateRowsFollowSubtotal(grandTotal, ComputeTax(grandTotal, Undefined, Undefined, igst));
  }

  /** A missing subtotal turns every amount into NaN, which shows exactly as a subtotal of 0. */
  lemma AbsentSubtotalShowsAsZero(cgst: JsNumber, sgst: JsNumber, igst: JsNumber)
    ensures TotalsRows(Undefined, ComputeTax(Undefined, cgst, sgst, igst))
         == TotalsRows(Num(0.0), ComputeTax(Num(0.0), cgst, sgst, igst))
  {
  }

  /** One copy of the invoice. */
  datatype Invoice = Invoice(
    company: string, jurisdiction: Option<string>, gstin: Option<string>, pan: string,
    addresses: seq<Address>,
    refNo: Option<string>, date: DateText,
    fromCity: Option<string>, toCity: Option<string>,
    sender: Option<string>, senderGstin: Option<string>,
    receiver: Option<string>, receiverGstin: Option<string>,
    columns: seq<string>, itemRows: seq<ItemRow>, totals: seq<TotalsRow>)

  /** The invoice for a booking whose `items` field is present. */
  function BuildInvoice(b: BookingData, items: seq<LineItem>): (inv: Invoice)
    requires b.items == Some(items)
    ensures inv.company == CompanyName && inv.pan == Pan
    ensures inv.addresses == Addresses && |inv.addresses| == 2
    ensures inv.jurisdiction == if b.startStation.Some? then b.startStation.value.stationName else None
    ensures inv.gstin == if b.startStation.Some? then b.startStation.value.gst else None
    ensures inv.refNo == if items == [] then None else items[0].refNo
    ensures inv.date == FormatDate(b.bookingDate)
    ensures inv.date.NotAvailable? <==> b.bookingDate.None? || b.bookingDate.value == ""
    ensures inv.fromCity == b.fromCity && inv.toCity == b.toCity
    ensures inv.sender == b.senderName && inv.senderGstin == b.senderGgt
    ensures inv.receiver == b.receiverName && inv.receiverGstin == b.receiverGgt
    ensures inv.columns == ItemColumns && |inv.columns| == 6
    ensures inv.itemRows == ItemRows(items) && |inv.itemRows| == |items|
    ensures inv.totals == TotalsRows(b.grandTotal, b.Tax()) && |inv.totals| >= 2
    ensures inv.totals[0] == TotalsRow(SubTotal, FormatCurrency(b.grandTotal))
    ensures inv.totals[|inv.totals| - 1] == TotalsRow(TotalInclTax, FormatCurrency(b.Tax().totalWithTax))
  {
    var station := b.startStation.GetOr(Station(None, None));
    Invoice(
      CompanyName, station.stationName, station.gst, Pan,
      Addresses,
      if items == [] then None else items[0].refNo, FormatDate(b.bookingDate),
      b.fromCity, b.toCity,
      b.senderName, b.senderGgt,
      b.receiverName, b.receiverGgt,
      ItemColumns, ItemRows(items), TotalsRows(b.grandTotal, b.Tax()))
  }

  /** With no items the table has no item rows, yet the totals section is all there. */
  lemma EmptyItemsKeepTotals(b: BookingData)
    requires b.items == Some([])
    ensures var inv := BuildInvoice(b, []);
      && inv.itemRows == []
      && inv.refNo == None
      && inv.totals == TotalsRows(b.grandTotal, b.Tax())
  {
  }

  /** What the page holds: one block after the other. */
  datatype Block = Copy(invoice: Invoice) | Divider

  datatype Rendered =
    | Nothing                    // the modal renders nothing
    | Crashed                    // rendering throws (reading `map` of an absent `items`)
    | Page(blocks: seq<Block>)

  /**
   * The content of the open modal (a closed modal mounts no invoice at all):
   * no booking renders nothing; a booking without `items` makes rendering
   * throw; any other booking renders two identical invoice copies around a
   * divider.
   */
  function Render(b: Option<BookingData>): (r: Rendered)
    ensures r.Nothing? <==> b.None?
    ensures r.Crashed? <==> b.Some? && b.value.items.None?
    ensures r.Page? ==>
      && |r.blocks| == 3
      && r.blocks[0] == r.blocks[2] == Copy(BuildInvoice(b.value, b.value.items.value))
      && r.blocks[1] == Divider
  {
    match b
    case None => Nothing
    case Some(booking) =>
      match booking.items
      case None => Crashed
      case Some(items) =>
        var copy := Copy(BuildInvoice(booking, items));
        Page([copy, Divider, copy])
  }
}
