/** The PurchaseInvoice schema (models/PurchaseInvoice.js): the purchase invoice and its line
    items, the required paths, the numeric bounds, the `cashAccount` enum, the defaults and the
    unique `invoiceNumber`, and how `create` turns a document into a stored purchase invoice. */
module PurchaseInvoiceModel {
  import opened Wrappers
  import opened Schema
  import opened Calendar

  /** One line item (`PurchaseItemSchema`). */
  datatype PurchaseLine = PurchaseLine(
    itemCode: string,
    description: string,
    unit: string,
    batchNo: Option<string>,
    qty: real,
    unitPrice: real,
    disc1: Option<real>,
    disc2: Option<real>,
    stax: Option<real>,
    total: real)

  /** A stored purchase invoice. `invoiceDate` and `bookingDate` are instants in milliseconds;
      `createdAt` is the local day the invoice was stored, which the daily counter reads. */
  datatype PurchaseInvoice = PurchaseInvoice(
    id: nat,
    invoiceNumber: string,
    invoiceDate: int,
    bookingDate: int,
    supplierId: nat,
    supplierCode: string,
    supplierName: string,
    supplierAddress: Option<string>,
    supplierContact: Option<string>,
    supplierRegion: Option<string>,
    items: seq<PurchaseLine>,
    bookingBy: Option<string>,
    remarks: Option<string>,
    otherCharges: Option<real>,
    amountReceived: Option<real>,
    discount: Option<real>,
    previousBalance: Option<real>,
    currentBill: Option<real>,
    cashAccount: Option<string>,
    region: string,
    grossTotal: real,
    netBalance: real,
    createdAt: Date,
    updatedAt: Date)

  /** The two ways a purchase is paid. */
  const CashAccounts: set<string> := {"by hand", "in account"}

  /** A line's validators: three required non-empty strings, quantity, price and total not
      negative, both discounts and the sales tax percentages. */
  predicate LineConforms(l: PurchaseLine) {
    l.itemCode != "" && l.description != "" && l.unit != "" &&
    l.qty >= 0.0 && l.unitPrice >= 0.0 &&
    Percent(l.disc1) && Percent(l.disc2) && Percent(l.stax) && l.total >= 0.0
  }

  /** The invoice's validators: the required strings are non-empty, `cashAccount` is one of the
      enum's values (the enum validator lets null through), the charges, the amount received,
      the discount and the gross total are not negative, and every line conforms. */
  predicate Conforms(p: PurchaseInvoice) {
    p.invoiceNumber != "" && p.supplierCode != "" && p.supplierName != "" && p.region != "" &&
    (p.cashAccount.None? || p.cashAccount.value in CashAccounts) &&
    AtLeast(p.otherCharges, 0.0) && AtLeast(p.amountReceived, 0.0) && AtLeast(p.discount, 0.0) &&
    p.grossTotal >= 0.0 &&
    forall i :: 0 <= i < |p.items| ==> LineConforms(p.items[i])
  }

  /** The unique index on `invoiceNumber`. */
  predicate UniqueNumbers(s: seq<PurchaseInvoice>) {
    forall i, j :: 0 <= i < j < |s| ==> s[i].invoiceNumber != s[j].invoiceNumber
  }

  predicate NumberTaken(s: seq<PurchaseInvoice>, number: string) {
    exists i :: 0 <= i < |s| && s[i].invoiceNumber == number
  }

  /** Casts one line subdocument, filling its defaults: no discounts, 17% sales tax. */
  function LineFrom(f: Body): (r: Option<PurchaseLine>)
    ensures r.Some? ==> NumberAt(f, "total") == Given(r.value.total)
    ensures r.Some? && "disc1" !in f ==> r.value.disc1 == Some(0.0)
    ensures r.Some? && "disc2" !in f ==> r.value.disc2 == Some(0.0)
    ensures r.Some? && "stax" !in f ==> r.value.stax == Some(17.0)
  {
    var itemCode :- Required(StringAt(f, "itemCode"));
    var description :- Required(StringAt(f, "description"));
    var unit :- Required(StringAt(f, "unit"));
    var batchNo :- Optional(StringAt(f, "batchNo"));
    var qty :- Required(NumberAt(f, "qty"));
    var unitPrice :- Required(NumberAt(f, "unitPrice"));
    var disc1 :- Defaulted(NumberAt(f, "disc1"), 0.0);
    var disc2 :- Defaulted(NumberAt(f, "disc2"), 0.0);
    var stax :- Defaulted(NumberAt(f, "stax"), 17.0);
    var total :- Required(NumberAt(f, "total"));
    Some(PurchaseLine(itemCode, description, unit, batchNo, qty, unitPrice, disc1, disc2, stax, total))
  }

  function CastLine(j: Json): Option<PurchaseLine> {
    match j
    case JObj(f) => LineFrom(f)
    case _ => None
  }

  /** The `items` array: missing or null is the empty array. */
  function LinesOrEmpty(f: Field<seq<PurchaseLine>>): Option<seq<PurchaseLine>> {
    match f
    case Given(ls) => Some(ls)
    case Mismatch => None
    case _ => Some([])
  }

  /** The identifying and supplier paths of a document, cast. */
  datatype SupplierPart = SupplierPart(
    invoiceNumber: string,
    invoiceDate: int,
    bookingDate: int,
    supplierId: nat,
    supplierCode: string,
    supplierName: string,
    supplierAddress: Option<string>,
    supplierContact: Option<string>,
    supplierRegion: Option<string>)

  /** The lines, the booking paths, the payment and the region of a document, cast. */
  datatype BookingPart = BookingPart(
    items: seq<PurchaseLine>,
    bookingBy: Option<string>,
    remarks: Option<string>,
    cashAccount: Option<string>,
    region: string)

  /** The amounts of a document, cast. */
  datatype AmountsPart = AmountsPart(
    otherCharges: Option<real>,
    amountReceived: Option<real>,
    discount: Option<real>,
    previousBalance: Option<real>,
    currentBill: Option<real>,
    grossTotal: real,
    netBalance: real)

  function CastSupplier(doc: Body): (r: Option<SupplierPart>)
  {
    var invoiceNumber :- Required(StringAt(doc, "invoiceNumber"));
    var invoiceDate :- Required(DateAt(doc, "invoiceDate"));
    var bookingDate :- Required(DateAt(doc, "bookingDate"));
    var supplierId :- Required(IdAt(doc, "supplierId"));
    var supplierCode :- Required(StringAt(doc, "supplierCode"));
    var supplierName :- Required(StringAt(doc, "supplierName"));
    var supplierAddress :- Optional(StringAt(doc, "supplierAddress"));
    var supplierContact :- Optional(StringAt(doc, "supplierContact"));
    var supplierRegion :- Optional(StringAt(doc, "supplierRegion"));
    Some(SupplierPart(invoiceNumber, invoiceDate, bookingDate, supplierId, supplierCode, supplierName,
                      supplierAddress, supplierContact, supplierRegion))
  }

  function CastBooking(doc: Body): (r: Option<BookingPart>)
  {
    var items :- LinesOrEmpty(ArrayAt(doc, "items", CastLine));
    var bookingBy :- Optional(StringAt(doc, "bookingBy"));
    var remarks :- Optional(StringAt(doc, "remarks"));
    var cashAccount :- Defaulted(StringAt(doc, "cashAccount"), "by hand");
    var region :- Required(StringAt(doc, "region"));
    Some(BookingPart(items, bookingBy, remarks, cashAccount, region))
  }

  function CastAmounts(doc: Body): (r: Option<AmountsPart>)
  {
    var otherCharges :- Defaulted(NumberAt(doc, "otherCharges"), 0.0);
    var amountReceived :- Defaulted(NumberAt(doc, "amountReceived"), 0.0);
    var discount :- Defaulted(NumberAt(doc, "discount"), 0.0);
    var previousBalance :- Defaulted(NumberAt(doc, "previousBalance"), 0.0);
    var currentBill :- Defaulted(NumberAt(doc, "currentBill"), 0.0);
    var grossTotal :- Required(NumberAt(doc, "grossTotal"));
    var netBalance :- Required(NumberAt(doc, "netBalance"));
    Some(AmountsPart(otherCharges, amountReceived, discount, previousBalance, currentBill, grossTotal,
                     netBalance))
  }

  /** The cast number, supplier id and supplier fields are the document's paths. */
  lemma CastSupplierKeeps(doc: Body)
    ensures var r := CastSupplier(doc);
      r.Some? ==>
      StringAt(doc, "invoiceNumber") == Given(r.value.invoiceNumber) &&
      IdAt(doc, "supplierId") == Given(r.value.supplierId) &&
      StringAt(doc, "supplierCode") == Given(r.value.supplierCode) &&
      StringAt(doc, "supplierName") == Given(r.value.supplierName) &&
      Optional(StringAt(doc, "supplierAddress")) == Some(r.value.supplierAddress) &&
      Optional(StringAt(doc, "supplierContact")) == Some(r.value.supplierContact) &&
      Optional(StringAt(doc, "supplierRegion")) == Some(r.value.supplierRegion)
  {
  }

  /** The cast lines and payment are the document's paths, `by hand` when no payment is given. */
  lemma CastBookingKeeps(doc: Body)
    ensures var r := CastBooking(doc);
      r.Some? ==>
      LinesOrEmpty(ArrayAt(doc, "items", CastLine)) == Some(r.value.items) &&
      Defaulted(StringAt(doc, "cashAccount"), "by hand") == Some(r.value.cashAccount)
  {
  }

  /** The cast amounts are the document's paths, zero when missing. */
  lemma CastAmountsKeeps(doc: Body)
    ensures var r := CastAmounts(doc);
      r.Some? ==>
      Defaulted(NumberAt(doc, "otherCharges"), 0.0) == Some(r.value.otherCharges) &&
      Defaulted(NumberAt(doc, "amountReceived"), 0.0) == Some(r.value.amountReceived) &&
      Defaulted(NumberAt(doc, "discount"), 0.0) == Some(r.value.discount) &&
      Defaulted(NumberAt(doc, "previousBalance"), 0.0) == Some(r.value.previousBalance) &&
      Defaulted(NumberAt(doc, "currentBill"), 0.0) == Some(r.value.currentBill) &&
      NumberAt(doc, "grossTotal") == Given(r.value.grossTotal) &&
      NumberAt(doc, "netBalance") == Given(r.value.netBalance)
  {
  }

  /** `PurchaseInvoice.create(doc)`: cast every schema path, fill the defaults, stamp
      `createdAt` and `updatedAt` with today, then validate. The unique index is checked by the
      caller. */
  function Create(doc: Body, id: nat, now: Date): (r: Option<PurchaseInvoice>)
    ensures r.Some? ==> Conforms(r.value)
    ensures r.Some? ==> r.value.id == id && r.value.createdAt == now && r.value.updatedAt == now
    ensures r.Some? ==> StringAt(doc, "invoiceNumber") == Given(r.value.invoiceNumber)
    ensures r.Some? ==> IdAt(doc, "supplierId") == Given(r.value.supplierId)
    ensures r.Some? && "cashAccount" !in doc ==> r.value.cashAccount == Some("by hand")
  {
    CastSupplierKeeps(doc);
    CastBookingKeeps(doc);
    var s :- CastSupplier(doc);
    var b :- CastBooking(doc);
    var a :- CastAmounts(doc);
    var p := PurchaseInvoice(id, s.invoiceNumber, s.invoiceDate, s.bookingDate, s.supplierId,
                             s.supplierCode, s.supplierName, s.supplierAddress, s.supplierContact,
                             s.supplierRegion, b.items, b.bookingBy, b.remarks, a.otherCharges,
                             a.amountReceived, a.discount, a.previousBalance, a.currentBill,
                             b.cashAccount, b.region, a.grossTotal, a.netBalance, now, now);
    if Conforms(p) then Some(p) else None
  }

  /** Each supplier path of a created purchase invoice is the cast of the document's path. */
  lemma CreateKeepsSupplierPaths(doc: Body, id: nat, now: Date, p: PurchaseInvoice)
    requires Create(doc, id, now) == Some(p)
    ensures StringAt(doc, "supplierCode") == Given(p.supplierCode)
    ensures StringAt(doc, "supplierName") == Given(p.supplierName)
    ensures Optional(StringAt(doc, "supplierAddress")) == Some(p.supplierAddress)
    ensures Optional(StringAt(doc, "supplierContact")) == Some(p.supplierContact)
    ensures Optional(StringAt(doc, "supplierRegion")) == Some(p.supplierRegion)
  {
    CastSupplierKeeps(doc);
  }

  /** The lines of a created purchase invoice are the cast of the document's `items`. */
  lemma CreateKeepsLines(doc: Body, id: nat, now: Date, p: PurchaseInvoice)
    requires Create(doc, id, now) == Some(p)
    ensures LinesOrEmpty(ArrayAt(doc, "items", CastLine)) == Some(p.items)
  {
    CastBookingKeeps(doc);
  }

  /** Both totals of a created purchase invoice are the casts of the document's paths. */
  lemma CreateKeepsTotals(doc: Body, id: nat, now: Date, p: PurchaseInvoice)
    requires Create(doc, id, now) == Some(p)
    ensures NumberAt(doc, "grossTotal") == Given(p.grossTotal)
    ensures NumberAt(doc, "netBalance") == Given(p.netBalance)
  {
    CastAmountsKeeps(doc);
  }

  /** Each amount of a created purchase invoice is the cast of the document's path, zero when
      the path is missing. */
  lemma CreateKeepsAmounts(doc: Body, id: nat, now: Date, p: PurchaseInvoice)
    requires Create(doc, id, now) == Some(p)
    ensures Defaulted(NumberAt(doc, "otherCharges"), 0.0) == Some(p.otherCharges)
    ensures Defaulted(NumberAt(doc, "amountReceived"), 0.0) == Some(p.amountReceived)
    ensures Defaulted(NumberAt(doc, "discount"), 0.0) == Some(p.discount)
    ensures Defaulted(NumberAt(doc, "previousBalance"), 0.0) == Some(p.previousBalance)
    ensures Defaulted(NumberAt(doc, "currentBill"), 0.0) == Some(p.currentBill)
  {
    CastAmountsKeeps(doc);
  }

  /** An `in account` or `by hand` payment, or anything else: the enum refuses every other string. */
  lemma CashAccountEnum(doc: Body, id: nat, now: Date)
    requires StringAt(doc, "cashAccount").Given? && StringAt(doc, "cashAccount").v !in CashAccounts
    ensures Create(doc, id, now).None?
  {
  }

  /** A line as a subdocument, every path written out. */
  function LineDoc(l: PurchaseLine): Json {
    JObj(map[
      "itemCode" := JStr(l.itemCode),
      "description" := JStr(l.description),
      "unit" := JStr(l.unit),
      "batchNo" := OptText(l.batchNo),
      "qty" := JNum(l.qty),
      "unitPrice" := JNum(l.unitPrice),
      "disc1" := OptNum(l.disc1),
      "disc2" := OptNum(l.disc2),
      "stax" := OptNum(l.stax),
      "total" := JNum(l.total)])
  }

  function LineDocs(ls: seq<PurchaseLine>): seq<Json> {
    seq(|ls|, i requires 0 <= i < |ls| => LineDoc(ls[i]))
  }

  /** The document a purchase invoice was created from: every path with its value. */
  function ToDoc(p: PurchaseInvoice): Body {
    map[
      "invoiceNumber" := JStr(p.invoiceNumber),
      "invoiceDate" := JDate(p.invoiceDate),
      "bookingDate" := JDate(p.bookingDate),
      "supplierId" := JId(p.supplierId),
      "supplierCode" := JStr(p.supplierCode),
      "supplierName" := JStr(p.supplierName),
      "supplierAddress" := OptText(p.supplierAddress),
      "supplierContact" := OptText(p.supplierContact),
      "supplierRegion" := OptText(p.supplierRegion),
      "items" := JArr(LineDocs(p.items)),
      "bookingBy" := OptText(p.bookingBy),
      "remarks" := OptText(p.remarks),
      "otherCharges" := OptNum(p.otherCharges),
      "amountReceived" := OptNum(p.amountReceived),
      "discount" := OptNum(p.discount),
      "previousBalance" := OptNum(p.previousBalance),
      "currentBill" := OptNum(p.currentBill),
      "cashAccount" := OptText(p.cashAccount),
      "region" := JStr(p.region),
      "grossTotal" := JNum(p.grossTotal),
      "netBalance" := JNum(p.netBalance)]
  }

  /** Each path of a rendered line casts back to the line's field. */
  lemma LineDocText(l: PurchaseLine)
    ensures var f := LineDoc(l).fields;
      StringAt(f, "itemCode") == Given(l.itemCode) &&
      StringAt(f, "description") == Given(l.description) &&
      StringAt(f, "unit") == Given(l.unit) &&
      StringAt(f, "batchNo") == OptField(l.batchNo)
  {
  }

  lemma LineDocQuantities(l: PurchaseLine)
    ensures var f := LineDoc(l).fields;
      NumberAt(f, "qty") == Given(l.qty) &&
      NumberAt(f, "unitPrice") == Given(l.unitPrice) &&
      NumberAt(f, "disc1") == OptField(l.disc1)
  {
  }

  lemma LineDocPrices(l: PurchaseLine)
    ensures var f := LineDoc(l).fields;
      NumberAt(f, "disc2") == OptField(l.disc2) &&
      NumberAt(f, "stax") == OptField(l.stax) &&
      NumberAt(f, "total") == Given(l.total)
  {
  }

  /** Round trip of one line: casting the subdocument a line renders to gives the line back. */
  lemma LineRoundTrip(l: PurchaseLine)
    ensures CastLine(LineDoc(l)) == Some(l)
  {
    LineDocText(l);
    LineDocQuantities(l);
    LineDocPrices(l);
  }

  /** Round trip of the lines: casting the rendered array gives the lines back. */
  lemma LinesRoundTrip(ls: seq<PurchaseLine>)
    ensures Each(LineDocs(ls), CastLine) == Some(ls)
  {
    forall i | 0 <= i < |ls|
      ensures CastLine(LineDocs(ls)[i]) == Some(ls[i])
    {
      LineRoundTrip(ls[i]);
    }
    EachCasts(LineDocs(ls), CastLine, ls);
  }

  /** Each path of a rendered document casts back to the field it was written from. */
  lemma ToDocNumber(p: PurchaseInvoice)
    ensures var d := ToDoc(p);
      StringAt(d, "invoiceNumber") == Given(p.invoiceNumber) &&
      DateAt(d, "invoiceDate") == Given(p.invoiceDate) &&
      DateAt(d, "bookingDate") == Given(p.bookingDate)
  {
  }

  lemma ToDocSupplier(p: PurchaseInvoice)
    ensures IdAt(ToDoc(p), "supplierId") == Given(p.supplierId)
    ensures StringAt(ToDoc(p), "supplierCode") == Given(p.supplierCode)
  {
    assert "supplierCode"[8] != "supplierName"[8];
  }

  lemma ToDocSupplierName(p: PurchaseInvoice)
    ensures StringAt(ToDoc(p), "supplierName") == Given(p.supplierName)
  {
  }

  lemma ToDocSupplierDetails(p: PurchaseInvoice)
    ensures var d := ToDoc(p);
      StringAt(d, "supplierAddress") == OptField(p.supplierAddress) &&
      StringAt(d, "supplierContact") == OptField(p.supplierContact) &&
      StringAt(d, "supplierRegion") == OptField(p.supplierRegion)
  {
  }

  lemma ToDocBooking(p: PurchaseInvoice)
    ensures var d := ToDoc(p);
      StringAt(d, "bookingBy") == OptField(p.bookingBy) &&
      StringAt(d, "remarks") == OptField(p.remarks)
  {
  }

  lemma ToDocAccount(p: PurchaseInvoice)
    ensures var d := ToDoc(p);
      StringAt(d, "cashAccount") == OptField(p.cashAccount) &&
      StringAt(d, "region") == Given(p.region)
  {
  }

  lemma ToDocItems(p: PurchaseInvoice)
    ensures ArrayAt(ToDoc(p), "items", CastLine) == Given(p.items)
  {
    assert ToDoc(p)["items"] == JArr(LineDocs(p.items));
    LinesRoundTrip(p.items);
  }

  lemma ToDocCharges(p: PurchaseInvoice)
    ensures var d := ToDoc(p);
      NumberAt(d, "otherCharges") == OptField(p.otherCharges) &&
      NumberAt(d, "amountReceived") == OptField(p.amountReceived) &&
      NumberAt(d, "discount") == OptField(p.discount)
  {
  }

  lemma ToDocBalances(p: PurchaseInvoice)
    ensures var d := ToDoc(p);
      NumberAt(d, "previousBalance") == OptField(p.previousBalance) &&
      NumberAt(d, "currentBill") == OptField(p.currentBill)
  {
  }

  lemma ToDocTotals(p: PurchaseInvoice)
    ensures var d := ToDoc(p);
      NumberAt(d, "grossTotal") == Given(p.grossTotal) &&
      NumberAt(d, "netBalance") == Given(p.netBalance)
  {
  }

  /** Round trip: `create` stores every valid purchase invoice created on one day exactly as
      its own document describes it, lines included. */
  lemma CreateRoundTrip(p: PurchaseInvoice)
    requires Conforms(p) && p.updatedAt == p.createdAt
    ensures Create(ToDoc(p), p.id, p.createdAt) == Some(p)
  {
    CastSupplierOfDoc(p);
    CastBookingOfDoc(p);
    CastAmountsOfDoc(p);
  }

  /** Each cast stage reads a rendered document back into the invoice's own fields. */
  lemma CastSupplierOfDoc(p: PurchaseInvoice)
    ensures CastSupplier(ToDoc(p)) ==
      Some(SupplierPart(p.invoiceNumber, p.invoiceDate, p.bookingDate, p.supplierId, p.supplierCode,
                        p.supplierName, p.supplierAddress, p.supplierContact, p.supplierRegion))
  {
    ToDocNumber(p);
    ToDocSupplier(p);
    ToDocSupplierName(p);
    ToDocSupplierDetails(p);
  }

  lemma CastBookingOfDoc(p: PurchaseInvoice)
    ensures CastBooking(ToDoc(p)) == Some(BookingPart(p.items, p.bookingBy, p.remarks, p.cashAccount, p.region))
  {
    ToDocBooking(p);
    ToDocAccount(p);
    ToDocItems(p);
  }

  lemma CastAmountsOfDoc(p: PurchaseInvoice)
    ensures CastAmounts(ToDoc(p)) ==
      Some(AmountsPart(p.otherCharges, p.amountReceived, p.discount, p.previousBalance, p.currentBill,
                       p.grossTotal, p.netBalance))
  {
    ToDocCharges(p);
    ToDocBalances(p);
    ToDocTotals(p);
  }
}
