/** The Invoice schema (models/Invoice.js): the sales invoice and its line items, the
    required paths, the numeric bounds, the defaults and the unique `invoiceNumber`, and how
    `create` and a validated `findByIdAndUpdate` turn a body into a stored invoice. */
module InvoiceModel {
  import opened Wrappers
  import opened Schema
  import opened Calendar

  /** One line item (`InvoiceItemSchema`). `ret` is the `return` path. */
  datatype Line = Line(
    itemCode: string,
    description: string,
    unit: string,
    batchNo: Option<string>,
    qty: real,
    bonus: Option<real>,
    ret: Option<real>,
    unitPrice: real,
    sTax: Option<real>,
    disc1: Option<real>,
    disc2: Option<real>,
    total: real)

  /** A stored sales invoice. Instants (`invoiceDate`) are in milliseconds; `createdAt` is the
      local day the invoice was stored, which the daily counter reads. */
  datatype Invoice = Invoice(
    id: nat,
    invoiceNumber: string,
    invoiceDate: int,
    customerId: nat,
    customerCode: string,
    customerName: string,
    customerAddress: Option<string>,
    customerContact: Option<string>,
    customerRegion: Option<string>,
    items: seq<Line>,
    van: Option<string>,
    bookingBy: Option<string>,
    remarks: Option<string>,
    otherCharges: Option<real>,
    amountReceived: Option<real>,
    discount: Option<real>,
    previousBalance: Option<real>,
    grossTotal: real,
    netBalance: real,
    createdAt: Date,
    updatedAt: Date)

  /** A line's validators: three required non-empty strings, quantities, prices and totals
      not negative, tax and discounts percentages. */
  predicate LineConforms(l: Line) {
    l.itemCode != "" && l.description != "" && l.unit != "" &&
    l.qty >= 0.0 && AtLeast(l.bonus, 0.0) && AtLeast(l.ret, 0.0) && l.unitPrice >= 0.0 &&
    Percent(l.sTax) && Percent(l.disc1) && Percent(l.disc2) && l.total >= 0.0
  }

  /** The invoice's validators: the required strings are non-empty, the charges, the amount
      received, the discount and the gross total are not negative (`previousBalance` and
      `netBalance` may be), and every line conforms. */
  predicate Conforms(inv: Invoice) {
    inv.invoiceNumber != "" && inv.customerCode != "" && inv.customerName != "" &&
    AtLeast(inv.otherCharges, 0.0) && AtLeast(inv.amountReceived, 0.0) && AtLeast(inv.discount, 0.0) &&
    inv.grossTotal >= 0.0 &&
    forall i :: 0 <= i < |inv.items| ==> LineConforms(inv.items[i])
  }

  /** The unique index on `invoiceNumber`. */
  predicate UniqueNumbers(s: seq<Invoice>) {
    forall i, j :: 0 <= i < j < |s| ==> s[i].invoiceNumber != s[j].invoiceNumber
  }

  predicate NumberTaken(s: seq<Invoice>, number: string) {
    exists i :: 0 <= i < |s| && s[i].invoiceNumber == number
  }

  /** Casts one line subdocument, filling its defaults. */
  function LineFrom(f: Body): (r: Option<Line>)
    ensures r.Some? && "bonus" !in f ==> r.value.bonus == Some(0.0)
    ensures r.Some? && "return" !in f ==> r.value.ret == Some(0.0)
    ensures r.Some? && "sTax" !in f ==> r.value.sTax == Some(0.0)
    ensures r.Some? && "disc1" !in f ==> r.value.disc1 == Some(0.0)
    ensures r.Some? && "disc2" !in f ==> r.value.disc2 == Some(0.0)
  {
    var itemCode :- Required(StringAt(f, "itemCode"));
    var description :- Required(StringAt(f, "description"));
    var unit :- Required(StringAt(f, "unit"));
    var batchNo :- Optional(StringAt(f, "batchNo"));
    var qty :- Required(NumberAt(f, "qty"));
    var bonus :- Defaulted(NumberAt(f, "bonus"), 0.0);
    var ret :- Defaulted(NumberAt(f, "return"), 0.0);
    var unitPrice :- Required(NumberAt(f, "unitPrice"));
    var sTax :- Defaulted(NumberAt(f, "sTax"), 0.0);
    var disc1 :- Defaulted(NumberAt(f, "disc1"), 0.0);
    var disc2 :- Defaulted(NumberAt(f, "disc2"), 0.0);
    var total :- Required(NumberAt(f, "total"));
    Some(Line(itemCode, description, unit, batchNo, qty, bonus, ret, unitPrice, sTax, disc1, disc2, total))
  }

  function CastLine(j: Json): Option<Line> {
    match j
    case JObj(f) => LineFrom(f)
    case _ => None
  }

  /** The `items` array: missing or null is the empty array. */
  function LinesOrEmpty(f: Field<seq<Line>>): Option<seq<Line>> {
    match f
    case Given(ls) => Some(ls)
    case Mismatch => None
    case _ => Some([])
  }

  /** `Invoice.create(doc)`: cast every schema path, fill the defaults, stamp `createdAt` and
      `updatedAt` with today, then validate. The unique index is checked by the caller. */
  function Create(doc: Body, id: nat, now: Date): (r: Option<Invoice>)
    ensures r.Some? ==> Conforms(r.value)
    ensures r.Some? ==> r.value.id == id && r.value.createdAt == now && r.value.updatedAt == now
    ensures r.Some? ==> StringAt(doc, "invoiceNumber") == Given(r.value.invoiceNumber)
    ensures r.Some? ==> IdAt(doc, "customerId") == Given(r.value.customerId)
    ensures r.Some? && "otherCharges" !in doc ==> r.value.otherCharges == Some(0.0)
    ensures r.Some? && "previousBalance" !in doc ==> r.value.previousBalance == Some(0.0)
  {
    var invoiceNumber :- Required(StringAt(doc, "invoiceNumber"));
    var invoiceDate :- Required(DateAt(doc, "invoiceDate"));
    var customerId :- Required(IdAt(doc, "customerId"));
    var customerCode :- Required(StringAt(doc, "customerCode"));
    var customerName :- Required(StringAt(doc, "customerName"));
    var customerAddress :- Optional(StringAt(doc, "customerAddress"));
    var customerContact :- Optional(StringAt(doc, "customerContact"));
    var customerRegion :- Optional(StringAt(doc, "customerRegion"));
    var items :- LinesOrEmpty(ArrayAt(doc, "items", CastLine));
    var van :- Optional(StringAt(doc, "van"));
    var bookingBy :- Optional(StringAt(doc, "bookingBy"));
    var remarks :- Optional(StringAt(doc, "remarks"));
    var otherCharges :- Defaulted(NumberAt(doc, "otherCharges"), 0.0);
    var amountReceived :- Defaulted(NumberAt(doc, "amountReceived"), 0.0);
    var discount :- Defaulted(NumberAt(doc, "discount"), 0.0);
    var previousBalance :- Defaulted(NumberAt(doc, "previousBalance"), 0.0);
    var grossTotal :- Required(NumberAt(doc, "grossTotal"));
    var netBalance :- Required(NumberAt(doc, "netBalance"));
    var inv := Invoice(id, invoiceNumber, invoiceDate, customerId, customerCode, customerName,
                       customerAddress, customerContact, customerRegion, items, van, bookingBy,
                       remarks, otherCharges, amountReceived, discount, previousBalance,
                       grossTotal, netBalance, now, now);
    if Conforms(inv) then Some(inv) else None
  }

  /** A line as a subdocument, every path written out. */
  function LineDoc(l: Line): Json {
    JObj(map[
      "itemCode" := JStr(l.itemCode),
      "description" := JStr(l.description),
      "unit" := JStr(l.unit),
      "batchNo" := OptText(l.batchNo),
      "qty" := JNum(l.qty),
      "bonus" := OptNum(l.bonus),
      "return" := OptNum(l.ret),
      "unitPrice" := JNum(l.unitPrice),
      "sTax" := OptNum(l.sTax),
      "disc1" := OptNum(l.disc1),
      "disc2" := OptNum(l.disc2),
      "total" := JNum(l.total)])
  }

  function LineDocs(ls: seq<Line>): seq<Json> {
    seq(|ls|, i requires 0 <= i < |ls| => LineDoc(ls[i]))
  }

  /** The request body an invoice was created from: every path with its value. */
  function ToDoc(inv: Invoice): Body {
    map[
      "invoiceNumber" := JStr(inv.invoiceNumber),
      "invoiceDate" := JDate(inv.invoiceDate),
      "customerId" := JId(inv.customerId),
      "customerCode" := JStr(inv.customerCode),
      "customerName" := JStr(inv.customerName),
      "customerAddress" := OptText(inv.customerAddress),
      "customerContact" := OptText(inv.customerContact),
      "customerRegion" := OptText(inv.customerRegion),
      "items" := JArr(LineDocs(inv.items)),
      "van" := OptText(inv.van),
      "bookingBy" := OptText(inv.bookingBy),
      "remarks" := OptText(inv.remarks),
      "otherCharges" := OptNum(inv.otherCharges),
      "amountReceived" := OptNum(inv.amountReceived),
      "discount" := OptNum(inv.discount),
      "previousBalance" := OptNum(inv.previousBalance),
      "grossTotal" := JNum(inv.grossTotal),
      "netBalance" := JNum(inv.netBalance)]
  }

  /** Each path of a rendered line casts back to the line's field. */
  lemma LineDocText(l: Line)
    ensures var f := LineDoc(l).fields;
      StringAt(f, "itemCode") == Given(l.itemCode) &&
      StringAt(f, "description") == Given(l.description) &&
      StringAt(f, "unit") == Given(l.unit) &&
      StringAt(f, "batchNo") == OptField(l.batchNo)
  {
  }

  lemma LineDocQuantities(l: Line)
    ensures var f := LineDoc(l).fields;
      NumberAt(f, "qty") == Given(l.qty) &&
      NumberAt(f, "bonus") == OptField(l.bonus) &&
      NumberAt(f, "return") == OptField(l.ret) &&
      NumberAt(f, "unitPrice") == Given(l.unitPrice)
  {
  }

  lemma LineDocPrices(l: Line)
    ensures var f := LineDoc(l).fields;
      NumberAt(f, "sTax") == OptField(l.sTax) &&
      NumberAt(f, "disc1") == OptField(l.disc1) &&
      NumberAt(f, "disc2") == OptField(l.disc2) &&
      NumberAt(f, "total") == Given(l.total)
  {
  }

  /** Round trip of one line: casting the subdocument a line renders to gives the line back. */
  lemma LineRoundTrip(l: Line)
    ensures CastLine(LineDoc(l)) == Some(l)
  {
    LineDocText(l);
    LineDocQuantities(l);
    LineDocPrices(l);
  }

  /** Round trip of the lines: casting the rendered array gives the lines back. */
  lemma LinesRoundTrip(ls: seq<Line>)
    ensures Each(LineDocs(ls), CastLine) == Some(ls)
  {
    forall i | 0 <= i < |ls|
      ensures CastLine(LineDocs(ls)[i]) == Some(ls[i])
    {
      LineRoundTrip(ls[i]);
    }
    EachCasts(LineDocs(ls), CastLine, ls);
  }

  /** Each path of a rendered document casts back to the field it was written from. */
  lemma ToDocNumber(inv: Invoice)
    ensures var d := ToDoc(inv);
      StringAt(d, "invoiceNumber") == Given(inv.invoiceNumber) &&
      DateAt(d, "invoiceDate") == Given(inv.invoiceDate) &&
      IdAt(d, "customerId") == Given(inv.customerId)
  {
  }

  lemma ToDocCustomer(inv: Invoice)
    ensures var d := ToDoc(inv);
      StringAt(d, "customerCode") == Given(inv.customerCode) &&
      StringAt(d, "customerName") == Given(inv.customerName) &&
      StringAt(d, "customerAddress") == OptField(inv.customerAddress)
  {
  }

  lemma ToDocContact(inv: Invoice)
    ensures var d := ToDoc(inv);
      StringAt(d, "customerContact") == OptField(inv.customerContact) &&
      StringAt(d, "customerRegion") == OptField(inv.customerRegion) &&
      StringAt(d, "van") == OptField(inv.van)
  {
  }

  lemma ToDocBooking(inv: Invoice)
    ensures var d := ToDoc(inv);
      StringAt(d, "bookingBy") == OptField(inv.bookingBy) &&
      StringAt(d, "remarks") == OptField(inv.remarks)
  {
  }

  lemma ToDocItems(inv: Invoice)
    ensures ArrayAt(ToDoc(inv), "items", CastLine) == Given(inv.items)
  {
    assert ToDoc(inv)["items"] == JArr(LineDocs(inv.items));
    LinesRoundTrip(inv.items);
  }

  lemma ToDocCharges(inv: Invoice)
    ensures var d := ToDoc(inv);
      NumberAt(d, "otherCharges") == OptField(inv.otherCharges) &&
      NumberAt(d, "amountReceived") == OptField(inv.amountReceived) &&
      NumberAt(d, "discount") == OptField(inv.discount)
  {
  }

  lemma ToDocTotals(inv: Invoice)
    ensures var d := ToDoc(inv);
      NumberAt(d, "previousBalance") == OptField(inv.previousBalance) &&
      NumberAt(d, "grossTotal") == Given(inv.grossTotal) &&
      NumberAt(d, "netBalance") == Given(inv.netBalance)
  {
  }

  /** Round trip: `create` stores every valid invoice created on one day exactly as its own
      body describes it, lines included. */
  lemma CreateRoundTrip(inv: Invoice)
    requires Conforms(inv) && inv.updatedAt == inv.createdAt
    ensures Create(ToDoc(inv), inv.id, inv.createdAt) == Some(inv)
  {
    ToDocNumber(inv);
    ToDocCustomer(inv);
    ToDocContact(inv);
    ToDocBooking(inv);
    ToDocItems(inv);
    ToDocCharges(inv);
    ToDocTotals(inv);
  }

  /** The `items` array in an update: missing keeps the stored lines, null empties them. */
  function PatchLines(cur: seq<Line>, f: Field<seq<Line>>): Option<seq<Line>> {
    match f
    case Absent => Some(cur)
    case Null => Some([])
    case Given(ls) => Some(ls)
    case Mismatch => None
  }

  /** The value a path holds after an update's cast: the given value, or the stored one. */
  function Patched<T>(cur: T, f: Field<T>): T {
    if f.Given? then f.v else cur
  }

  /** The identifying and customer paths of an update, cast onto the stored invoice. */
  function PatchHeader(inv: Invoice, update: Body): (r: Option<Invoice>)
    ensures r.Some? <==>
      KeepsValue(StringAt(update, "invoiceNumber")) && KeepsValue(DateAt(update, "invoiceDate")) &&
      KeepsValue(IdAt(update, "customerId")) && KeepsValue(StringAt(update, "customerCode")) &&
      KeepsValue(StringAt(update, "customerName")) && !StringAt(update, "customerAddress").Mismatch? &&
      !StringAt(update, "customerContact").Mismatch? && !StringAt(update, "customerRegion").Mismatch?
    ensures r.Some? ==>
      r.value.invoiceNumber == Patched(inv.invoiceNumber, StringAt(update, "invoiceNumber")) &&
      r.value.customerCode == Patched(inv.customerCode, StringAt(update, "customerCode")) &&
      r.value.customerName == Patched(inv.customerName, StringAt(update, "customerName")) &&
      r.value.items == inv.items && r.value.otherCharges == inv.otherCharges &&
      r.value.amountReceived == inv.amountReceived && r.value.discount == inv.discount &&
      r.value.grossTotal == inv.grossTotal &&
      r.value.id == inv.id && r.value.createdAt == inv.createdAt && r.value.updatedAt == inv.updatedAt
    ensures update == map[] ==> r == Some(inv)
  {
    var invoiceNumber :- PatchValue(inv.invoiceNumber, StringAt(update, "invoiceNumber"));
    var invoiceDate :- PatchValue(inv.invoiceDate, DateAt(update, "invoiceDate"));
    var customerId :- PatchValue(inv.customerId, IdAt(update, "customerId"));
    var customerCode :- PatchValue(inv.customerCode, StringAt(update, "customerCode"));
    var customerName :- PatchValue(inv.customerName, StringAt(update, "customerName"));
    var customerAddress :- PatchOptional(inv.customerAddress, StringAt(update, "customerAddress"));
    var customerContact :- PatchOptional(inv.customerContact, StringAt(update, "customerContact"));
    var customerRegion :- PatchOptional(inv.customerRegion, StringAt(update, "customerRegion"));
    Some(inv.(invoiceNumber := invoiceNumber, invoiceDate := invoiceDate, customerId := customerId,
              customerCode := customerCode, customerName := customerName,
              customerAddress := customerAddress, customerContact := customerContact,
              customerRegion := customerRegion))
  }

  /** The lines and the booking paths of an update, cast onto the stored invoice. */
  function PatchBooking(inv: Invoice, update: Body): (r: Option<Invoice>)
    ensures r.Some? <==>
      !ArrayAt(update, "items", CastLine).Mismatch? && !StringAt(update, "van").Mismatch? &&
      !StringAt(update, "bookingBy").Mismatch? && !StringAt(update, "remarks").Mismatch?
    ensures r.Some? ==>
      r.value.items == PatchLines(inv.items, ArrayAt(update, "items", CastLine)).value &&
      r.value.invoiceNumber == inv.invoiceNumber && r.value.customerCode == inv.customerCode &&
      r.value.customerName == inv.customerName && r.value.otherCharges == inv.otherCharges &&
      r.value.amountReceived == inv.amountReceived && r.value.discount == inv.discount &&
      r.value.grossTotal == inv.grossTotal &&
      r.value.id == inv.id && r.value.createdAt == inv.createdAt && r.value.updatedAt == inv.updatedAt
    ensures update == map[] ==> r == Some(inv)
  {
    var items :- PatchLines(inv.items, ArrayAt(update, "items", CastLine));
    var van :- PatchOptional(inv.van, StringAt(update, "van"));
    var bookingBy :- PatchOptional(inv.bookingBy, StringAt(update, "bookingBy"));
    var remarks :- PatchOptional(inv.remarks, StringAt(update, "remarks"));
    Some(inv.(items := items, van := van, bookingBy := bookingBy, remarks := remarks))
  }

  /** The amounts of an update, cast onto the stored invoice. */
  function PatchAmounts(inv: Invoice, update: Body): (r: Option<Invoice>)
    ensures r.Some? <==>
      !NumberAt(update, "otherCharges").Mismatch? && !NumberAt(update, "amountReceived").Mismatch? &&
      !NumberAt(update, "discount").Mismatch? && !NumberAt(update, "previousBalance").Mismatch? &&
      KeepsValue(NumberAt(update, "grossTotal")) && KeepsValue(NumberAt(update, "netBalance"))
    ensures r.Some? ==>
      r.value.otherCharges == PatchOptional(inv.otherCharges, NumberAt(update, "otherCharges")).value &&
      r.value.amountReceived == PatchOptional(inv.amountReceived, NumberAt(update, "amountReceived")).value &&
      r.value.discount == PatchOptional(inv.discount, NumberAt(update, "discount")).value &&
      r.value.grossTotal == Patched(inv.grossTotal, NumberAt(update, "grossTotal")) &&
      r.value.invoiceNumber == inv.invoiceNumber && r.value.customerCode == inv.customerCode &&
      r.value.customerName == inv.customerName && r.value.items == inv.items &&
      r.value.id == inv.id && r.value.createdAt == inv.createdAt && r.value.updatedAt == inv.updatedAt
    ensures update == map[] ==> r == Some(inv)
  {
    var otherCharges :- PatchOptional(inv.otherCharges, NumberAt(update, "otherCharges"));
    var amountReceived :- PatchOptional(inv.amountReceived, NumberAt(update, "amountReceived"));
    var discount :- PatchOptional(inv.discount, NumberAt(update, "discount"));
    var previousBalance :- PatchOptional(inv.previousBalance, NumberAt(update, "previousBalance"));
    var grossTotal :- PatchValue(inv.grossTotal, NumberAt(update, "grossTotal"));
    var netBalance :- PatchValue(inv.netBalance, NumberAt(update, "netBalance"));
    Some(inv.(otherCharges := otherCharges, amountReceived := amountReceived, discount := discount,
              previousBalance := previousBalance, grossTotal := grossTotal, netBalance := netBalance))
  }

  /** `findByIdAndUpdate(id, update, { runValidators: true })`: each schema path in `update`
      is cast and replaces the stored value, then the validators run. Nothing sets
      `updatedAt`: the schema has no timestamps option. */
  function Patch(inv: Invoice, update: Body): (r: Option<Invoice>)
    ensures r.Some? ==> Conforms(r.value)
    ensures r.Some? ==> r.value.id == inv.id && r.value.createdAt == inv.createdAt && r.value.updatedAt == inv.updatedAt
    ensures update == map[] && Conforms(inv) ==> r == Some(inv)
  {
    var header :- PatchHeader(inv, update);
    var booked :- PatchBooking(header, update);
    var r :- PatchAmounts(booked, update);
    if Conforms(r) then Some(r) else None
  }

  /** Each stage of an update writes the paths it casts and leaves every other field. */
  lemma HeaderWrites(inv: Invoice, update: Body)
    ensures var r := PatchHeader(inv, update);
      r.Some? ==>
        Written(inv.invoiceNumber, StringAt(update, "invoiceNumber"), r.value.invoiceNumber) &&
        Written(inv.invoiceDate, DateAt(update, "invoiceDate"), r.value.invoiceDate) &&
        Written(inv.customerId, IdAt(update, "customerId"), r.value.customerId) &&
        Written(inv.customerCode, StringAt(update, "customerCode"), r.value.customerCode) &&
        Written(inv.customerName, StringAt(update, "customerName"), r.value.customerName) &&
        WrittenOptional(inv.customerAddress, StringAt(update, "customerAddress"), r.value.customerAddress) &&
        WrittenOptional(inv.customerContact, StringAt(update, "customerContact"), r.value.customerContact) &&
        WrittenOptional(inv.customerRegion, StringAt(update, "customerRegion"), r.value.customerRegion) &&
        r.value == inv.(invoiceNumber := r.value.invoiceNumber, invoiceDate := r.value.invoiceDate,
                        customerId := r.value.customerId, customerCode := r.value.customerCode,
                        customerName := r.value.customerName, customerAddress := r.value.customerAddress,
                        customerContact := r.value.customerContact, customerRegion := r.value.customerRegion)
  {
  }

  lemma BookingWrites(inv: Invoice, update: Body)
    ensures var r := PatchBooking(inv, update);
      r.Some? ==>
        Written(inv.items, ArrayAt(update, "items", CastLine), r.value.items) &&
        (ArrayAt(update, "items", CastLine).Null? ==> r.value.items == []) &&
        WrittenOptional(inv.van, StringAt(update, "van"), r.value.van) &&
        WrittenOptional(inv.bookingBy, StringAt(update, "bookingBy"), r.value.bookingBy) &&
        WrittenOptional(inv.remarks, StringAt(update, "remarks"), r.value.remarks) &&
        r.value == inv.(items := r.value.items, van := r.value.van, bookingBy := r.value.bookingBy,
                        remarks := r.value.remarks)
  {
  }

  lemma AmountsWrites(inv: Invoice, update: Body)
    ensures var r := PatchAmounts(inv, update);
      r.Some? ==>
        WrittenOptional(inv.otherCharges, NumberAt(update, "otherCharges"), r.value.otherCharges) &&
        WrittenOptional(inv.amountReceived, NumberAt(update, "amountReceived"), r.value.amountReceived) &&
        WrittenOptional(inv.discount, NumberAt(update, "discount"), r.value.discount) &&
        WrittenOptional(inv.previousBalance, NumberAt(update, "previousBalance"), r.value.previousBalance) &&
        Written(inv.grossTotal, NumberAt(update, "grossTotal"), r.value.grossTotal) &&
        Written(inv.netBalance, NumberAt(update, "netBalance"), r.value.netBalance) &&
        r.value == inv.(otherCharges := r.value.otherCharges, amountReceived := r.value.amountReceived,
                        discount := r.value.discount, previousBalance := r.value.previousBalance,
                        grossTotal := r.value.grossTotal, netBalance := r.value.netBalance)
  {
  }

  /** A successful update is the three stages applied in turn. */
  lemma PatchStages(inv: Invoice, update: Body)
    ensures var r := Patch(inv, update);
      r.Some? ==>
        var h := PatchHeader(inv, update);
        h.Some? && PatchBooking(h.value, update).Some? &&
        PatchAmounts(PatchBooking(h.value, update).value, update) == r
  {
  }

  /** A validated update writes every header path it gives: the given value replaces the
      stored one, `null` clears a nullable path, and a path the update lacks keeps its value. */
  lemma PatchWritesHeader(inv: Invoice, update: Body)
    ensures var r := Patch(inv, update);
      r.Some? ==>
        Written(inv.invoiceNumber, StringAt(update, "invoiceNumber"), r.value.invoiceNumber) &&
        Written(inv.invoiceDate, DateAt(update, "invoiceDate"), r.value.invoiceDate) &&
        Written(inv.customerId, IdAt(update, "customerId"), r.value.customerId) &&
        Written(inv.customerCode, StringAt(update, "customerCode"), r.value.customerCode) &&
        Written(inv.customerName, StringAt(update, "customerName"), r.value.customerName) &&
        WrittenOptional(inv.customerAddress, StringAt(update, "customerAddress"), r.value.customerAddress) &&
        WrittenOptional(inv.customerContact, StringAt(update, "customerContact"), r.value.customerContact) &&
        WrittenOptional(inv.customerRegion, StringAt(update, "customerRegion"), r.value.customerRegion)
  {
    PatchStages(inv, update);
    var h := PatchHeader(inv, update);
    HeaderWrites(inv, update);
    if h.Some? && PatchBooking(h.value, update).Some? {
      BookingWrites(h.value, update);
      AmountsWrites(PatchBooking(h.value, update).value, update);
    }
  }

  /** The same for the lines and the booking paths; `items: null` stores no lines. */
  lemma PatchWritesBooking(inv: Invoice, update: Body)
    ensures var r := Patch(inv, update);
      r.Some? ==>
        Written(inv.items, ArrayAt(update, "items", CastLine), r.value.items) &&
        (ArrayAt(update, "items", CastLine).Null? ==> r.value.items == []) &&
        WrittenOptional(inv.van, StringAt(update, "van"), r.value.van) &&
        WrittenOptional(inv.bookingBy, StringAt(update, "bookingBy"), r.value.bookingBy) &&
        WrittenOptional(inv.remarks, StringAt(update, "remarks"), r.value.remarks)
  {
    PatchStages(inv, update);
    var h := PatchHeader(inv, update);
    HeaderWrites(inv, update);
    if h.Some? && PatchBooking(h.value, update).Some? {
      BookingWrites(h.value, update);
      AmountsWrites(PatchBooking(h.value, update).value, update);
    }
  }

  /** The same for the amounts. */
  lemma PatchWritesAmounts(inv: Invoice, update: Body)
    ensures var r := Patch(inv, update);
      r.Some? ==>
        WrittenOptional(inv.otherCharges, NumberAt(update, "otherCharges"), r.value.otherCharges) &&
        WrittenOptional(inv.amountReceived, NumberAt(update, "amountReceived"), r.value.amountReceived) &&
        WrittenOptional(inv.discount, NumberAt(update, "discount"), r.value.discount) &&
        WrittenOptional(inv.previousBalance, NumberAt(update, "previousBalance"), r.value.previousBalance) &&
        Written(inv.grossTotal, NumberAt(update, "grossTotal"), r.value.grossTotal) &&
        Written(inv.netBalance, NumberAt(update, "netBalance"), r.value.netBalance)
  {
    PatchStages(inv, update);
    var h := PatchHeader(inv, update);
    HeaderWrites(inv, update);
    if h.Some? && PatchBooking(h.value, update).Some? {
      BookingWrites(h.value, update);
      AmountsWrites(PatchBooking(h.value, update).value, update);
    }
  }

  /** Updating with the whole body of a valid invoice `b` stores `b` under the stored
      invoice's id and timestamps. */
  lemma PatchRoundTrip(inv: Invoice, b: Invoice)
    requires Conforms(b)
    ensures Patch(inv, ToDoc(b)) == Some(b.(id := inv.id, createdAt := inv.createdAt, updatedAt := inv.updatedAt))
  {
    var d := ToDoc(b);
    var h := inv.(invoiceNumber := b.invoiceNumber, invoiceDate := b.invoiceDate,
                  customerId := b.customerId, customerCode := b.customerCode,
                  customerName := b.customerName, customerAddress := b.customerAddress,
                  customerContact := b.customerContact, customerRegion := b.customerRegion);
    PatchHeaderFromDoc(inv, b);
    var k := h.(items := b.items, van := b.van, bookingBy := b.bookingBy, remarks := b.remarks);
    PatchBookingFromDoc(h, b);
    PatchAmountsFromDoc(k, b);
    var r := k.(otherCharges := b.otherCharges, amountReceived := b.amountReceived,
                discount := b.discount, previousBalance := b.previousBalance,
                grossTotal := b.grossTotal, netBalance := b.netBalance);
    assert r == b.(id := inv.id, createdAt := inv.createdAt, updatedAt := inv.updatedAt);
    assert r.items == b.items;
    assert Conforms(r);
  }

  /** Each stage of an update with a whole rendered body writes that body's fields. */
  lemma PatchHeaderFromDoc(inv: Invoice, b: Invoice)
    ensures PatchHeader(inv, ToDoc(b)) ==
      Some(inv.(invoiceNumber := b.invoiceNumber, invoiceDate := b.invoiceDate,
                customerId := b.customerId, customerCode := b.customerCode,
                customerName := b.customerName, customerAddress := b.customerAddress,
                customerContact := b.customerContact, customerRegion := b.customerRegion))
  {
    ToDocNumber(b);
    ToDocCustomer(b);
    ToDocContact(b);
    HeaderWrites(inv, ToDoc(b));
  }

  lemma PatchBookingFromDoc(inv: Invoice, b: Invoice)
    ensures PatchBooking(inv, ToDoc(b)) ==
      Some(inv.(items := b.items, van := b.van, bookingBy := b.bookingBy, remarks := b.remarks))
  {
    ToDocItems(b);
    ToDocContact(b);
    ToDocBooking(b);
  }

  lemma PatchAmountsFromDoc(inv: Invoice, b: Invoice)
    ensures PatchAmounts(inv, ToDoc(b)) ==
      Some(inv.(otherCharges := b.otherCharges, amountReceived := b.amountReceived,
                discount := b.discount, previousBalance := b.previousBalance,
                grossTotal := b.grossTotal, netBalance := b.netBalance))
  {
    ToDocCharges(b);
    ToDocTotals(b);
  }

  /** A required string path in an update: left out, or set to a non-empty string. */
  predicate KeepsText(f: Field<string>) {
    f.Absent? || (f.Given? && f.v != "")
  }

  /** A required path in an update: left out, or set to a value of its type. */
  predicate KeepsValue<T>(f: Field<T>) {
    f.Absent? || f.Given?
  }

  /** A required number with `min: 0` in an update: left out, or set to a number not below 0. */
  predicate KeepsNonNegative(f: Field<real>) {
    f.Absent? || (f.Given? && f.v >= 0.0)
  }

  /** An optional number with `min: 0` in an update: anything but a value of the wrong type or
      a negative number. */
  predicate OptionalNonNegative(f: Field<real>) {
    !f.Mismatch? && (f.Given? ==> f.v >= 0.0)
  }

  /** The `items` array in an update: anything but a value that does not cast, and every line
      given passes the line validators. */
  predicate LinesValidate(f: Field<seq<Line>>) {
    !f.Mismatch? && (f.Given? ==> forall i :: 0 <= i < |f.v| ==> LineConforms(f.v[i]))
  }

  /** The validators of the identifying and customer paths pass on the update. */
  predicate HeaderValidates(update: Body) {
    KeepsText(StringAt(update, "invoiceNumber")) && KeepsValue(DateAt(update, "invoiceDate")) &&
    KeepsValue(IdAt(update, "customerId")) && KeepsText(StringAt(update, "customerCode")) &&
    KeepsText(StringAt(update, "customerName")) && !StringAt(update, "customerAddress").Mismatch? &&
    !StringAt(update, "customerContact").Mismatch? && !StringAt(update, "customerRegion").Mismatch?
  }

  /** The validators of the lines and the booking paths pass on the update. */
  predicate BookingValidates(update: Body) {
    LinesValidate(ArrayAt(update, "items", CastLine)) && !StringAt(update, "van").Mismatch? &&
    !StringAt(update, "bookingBy").Mismatch? && !StringAt(update, "remarks").Mismatch?
  }

  /** The validators of the amounts pass on the update. */
  predicate AmountsValidate(update: Body) {
    OptionalNonNegative(NumberAt(update, "otherCharges")) &&
    OptionalNonNegative(NumberAt(update, "amountReceived")) &&
    OptionalNonNegative(NumberAt(update, "discount")) && !NumberAt(update, "previousBalance").Mismatch? &&
    KeepsNonNegative(NumberAt(update, "grossTotal")) && KeepsValue(NumberAt(update, "netBalance"))
  }

  /** The update validators pass (`runValidators: true`): every path casts, no required path is
      cleared, and every value given keeps its path's bound. They look at the update alone. */
  predicate UpdateValidates(update: Body) {
    HeaderValidates(update) && BookingValidates(update) && AmountsValidate(update)
  }

  /** On a conforming invoice, the header validators pass exactly when the header casts and
      keeps its required strings non-empty. */
  lemma HeaderValidatesIff(inv: Invoice, update: Body)
    requires Conforms(inv)
    ensures var h := PatchHeader(inv, update);
      HeaderValidates(update) <==>
        h.Some? && h.value.invoiceNumber != "" && h.value.customerCode != "" && h.value.customerName != ""
  {
  }

  /** On conforming lines, the booking validators pass exactly when the lines cast and every
      line conforms. */
  lemma BookingValidatesIff(inv: Invoice, update: Body)
    requires forall i :: 0 <= i < |inv.items| ==> LineConforms(inv.items[i])
    ensures var b := PatchBooking(inv, update);
      BookingValidates(update) <==>
        b.Some? && forall i :: 0 <= i < |b.value.items| ==> LineConforms(b.value.items[i])
  {
  }

  /** On amounts within their bounds, the amount validators pass exactly when the amounts cast
      and stay within their bounds. */
  lemma AmountsValidateIff(inv: Invoice, update: Body)
    requires AtLeast(inv.otherCharges, 0.0) && AtLeast(inv.amountReceived, 0.0)
    requires AtLeast(inv.discount, 0.0) && inv.grossTotal >= 0.0
    ensures var a := PatchAmounts(inv, update);
      AmountsValidate(update) <==>
        a.Some? && AtLeast(a.value.otherCharges, 0.0) && AtLeast(a.value.amountReceived, 0.0) &&
        AtLeast(a.value.discount, 0.0) && a.value.grossTotal >= 0.0
  {
  }

  /** On any stored (conforming) invoice the update succeeds exactly when it validates. */
  lemma PatchSucceedsIffValidates(inv: Invoice, update: Body)
    requires Conforms(inv)
    ensures Patch(inv, update).Some? <==> UpdateValidates(update)
  {
    HeaderValidatesIff(inv, update);
    var h := PatchHeader(inv, update);
    if h.Some? {
      BookingValidatesIff(h.value, update);
      var b := PatchBooking(h.value, update);
      if b.Some? {
        AmountsValidateIff(b.value, update);
      }
    }
  }
}
