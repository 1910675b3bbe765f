/** The purchase invoice handlers (controllers/purchaseInvoicesController.js) over an in-memory
    purchase invoices collection: creation after the supplier and number checks, with the
    supplier's fields copied in and the totals computed by the server, lookup by number, and
    the preview of the next `PINV-YYYYMMDD-NNN` number. */
module PurchaseInvoiceController {
  import opened Wrappers
  import opened Schema
  import opened Calendar
  import opened Numbering
  import opened Seqs
  import opened PurchaseInvoiceModel
  import AccountModel
  import AccountController
  import InvoiceModel
  import InvoiceController

  function CreatedOn(d: Date): PurchaseInvoice -> bool {
    (p: PurchaseInvoice) => p.createdAt == d
  }

  /** `countDocuments({ createdAt: { $gte: startOfDay, $lte: endOfDay } })` on the purchase
      invoices: the ones stored on day `d`. */
  function CreatedToday(s: seq<PurchaseInvoice>, d: Date): (r: seq<PurchaseInvoice>)
    ensures forall p :: p in r <==> p in s && p.createdAt == d
  {
    Filter(s, CreatedOn(d))
  }

  /** `generatePurchaseInvoiceNumber`: `PINV-`, the day as YYYYMMDD, `-`, and one more than
      the number of purchase invoices stored that day, padded to three digits. */
  function NextPurchaseNumber(s: seq<PurchaseInvoice>, today: Date): string {
    DatedCode("PINV", today, |CreatedToday(s, today)| + 1)
  }

  /** Grammar of the preview: it reads back as today and the day's count plus one, and has the
      `PINV-` eight digits `-` three digits shape while fewer than 999 were stored today. */
  lemma PurchaseNumberGrammar(s: seq<PurchaseInvoice>, today: Date)
    requires Plausible(today)
    ensures DecodeDated("PINV", NextPurchaseNumber(s, today)) == Some((today, |CreatedToday(s, today)| + 1))
    ensures |CreatedToday(s, today)| < 999 ==> DatedGrammar("PINV", NextPurchaseNumber(s, today))
  {
    DatedRoundTrip("PINV", today, |CreatedToday(s, today)| + 1);
    if |CreatedToday(s, today)| < 999 {
      DatedCodeGrammar("PINV", today, |CreatedToday(s, today)| + 1);
    }
  }

  /** Only today's purchase invoices count: one stored on another day, anywhere in the
      collection, never changes the preview. */
  lemma OtherDaysDoNotCount(s1: seq<PurchaseInvoice>, p: PurchaseInvoice, s2: seq<PurchaseInvoice>, today: Date)
    requires p.createdAt != today
    ensures NextPurchaseNumber(s1 + [p] + s2, today) == NextPurchaseNumber(s1 + s2, today)
  {
    FilterSkips(s1, p, s2, CreatedOn(today));
  }

  /** Previews of different days differ, whatever the two collections hold. */
  lemma NumbersOfDifferentDaysDiffer(s1: seq<PurchaseInvoice>, d1: Date, s2: seq<PurchaseInvoice>, d2: Date)
    requires Plausible(d1) && Plausible(d2) && d1 != d2
    ensures NextPurchaseNumber(s1, d1) != NextPurchaseNumber(s2, d2)
  {
    DatedCodesOfDifferentDaysDiffer("PINV", d1, |CreatedToday(s1, d1)| + 1, d2, |CreatedToday(s2, d2)| + 1);
  }

  /** Purchase and sales numbers are counted apart and never meet: whatever either collection
      holds and whichever days are asked, a purchase preview is never a sales preview. */
  lemma NeverASalesNumber(s: seq<PurchaseInvoice>, d1: Date, sales: seq<InvoiceModel.Invoice>, d2: Date)
    ensures NextPurchaseNumber(s, d1) != InvoiceController.NextInvoiceNumber(sales, d2)
  {
    assert NextPurchaseNumber(s, d1)[0] == 'P';
    assert InvoiceController.NextInvoiceNumber(sales, d2)[0] == 'I';
  }

  /** `item.total || 0`: a line's total when it is a number, otherwise nothing is added. */
  function LineTotal(e: Json): real {
    match e
    case JObj(f) => if "total" in f && f["total"].JNum? then f["total"].n else 0.0
    case _ => 0.0
  }

  /** `items.reduce((sum, item) => sum + (item.total || 0), 0)`. */
  function GrossOf(es: seq<Json>): real {
    if es == [] then 0.0 else LineTotal(es[0]) + GrossOf(es[1..])
  }

  /** `req.body.items || []`. */
  function ItemsOf(body: Body): seq<Json> {
    if "items" in body && body["items"].JArr? then body["items"].elems else []
  }

  /** `parseFloat(req.body[key] || 0)` on an amount that is a number, missing or null. */
  function AmountOf(body: Body, key: string): real {
    if key in body && body[key].JNum? then body[key].n else 0.0
  }

  /** The gross total the handler computes from the body's lines. */
  function GrossTotal(body: Body): real {
    GrossOf(ItemsOf(body))
  }

  /** The net balance the handler computes: current bill plus gross total plus other charges,
      less the discount, plus the previous balance, less the amount received. */
  function NetBalance(body: Body): real {
    AmountOf(body, "currentBill") + GrossTotal(body) + AmountOf(body, "otherCharges") -
    AmountOf(body, "discount") + AmountOf(body, "previousBalance") - AmountOf(body, "amountReceived")
  }

  /** The sum of the stored lines' totals. */
  function SumTotals(ls: seq<PurchaseLine>): real {
    if ls == [] then 0.0 else ls[0].total + SumTotals(ls[1..])
  }

  /** A stored amount as the handler counted it: a missing (null) amount is zero. */
  function Amount(x: Option<real>): real {
    if x.Some? then x.value else 0.0
  }

  /** The handler's reduce over the body's lines adds up exactly the totals of the lines the
      schema casts them to. */
  lemma {:induction false} GrossOfCastLines(es: seq<Json>, ls: seq<PurchaseLine>)
    requires Each(es, CastLine) == Some(ls)
    ensures GrossOf(es) == SumTotals(ls)
  {
    if es != [] {
      assert LineTotal(es[0]) == ls[0].total by {
        assert LineFrom(es[0].fields) == Some(ls[0]);
      }
      assert Each(es[1..], CastLine) == Some(ls[1..]);
      GrossOfCastLines(es[1..], ls[1..]);
    }
  }

  /** `supplier.contactNo || supplier.cellNumber`. `cellNumber` is not an Account path, so
      the fallback is always missing: an account without a non-empty `contactNo` gives none. */
  function Contact(a: AccountModel.Account): Json {
    if a.contactNo.Some? && a.contactNo.value != "" then JStr(a.contactNo.value) else JNull
  }

  /** The pairs the handler writes over the body: the supplier's fields, then the totals it
      computed. */
  function SupplierPairs(body: Body, a: AccountModel.Account): seq<(string, Json)> {
    [("supplierCode", JStr(a.accountCode)),
     ("supplierName", JStr(a.description)),
     ("supplierAddress", OptText(a.address)),
     ("supplierContact", Contact(a)),
     ("supplierRegion", OptText(a.region)),
     ("grossTotal", JNum(GrossTotal(body))),
     ("netBalance", JNum(NetBalance(body)))]
  }

  /** The document `createPurchaseInvoice` hands to `PurchaseInvoice.create` (lines 41-50):
      the body, then the supplier's fields and the computed totals written over it. */
  function NewDoc(body: Body, a: AccountModel.Account): Body {
    Overlay(body, SupplierPairs(body, a))
  }

  /** The keys the handler writes over the body. */
  const Overridden: set<string> :=
    {"supplierCode", "supplierName", "supplierAddress", "supplierContact", "supplierRegion", "grossTotal", "netBalance"}

  lemma OverriddenWritten(body: Body, a: AccountModel.Account)
    ensures KeysOf(SupplierPairs(body, a)) == Overridden
  {
    var ps := SupplierPairs(body, a);
    assert ps[0].0 == "supplierCode" && ps[1].0 == "supplierName" && ps[2].0 == "supplierAddress";
    assert ps[3].0 == "supplierContact" && ps[4].0 == "supplierRegion";
    assert ps[5].0 == "grossTotal" && ps[6].0 == "netBalance";
  }

  /** `d` holds exactly what `body` holds under `key`. */
  predicate PassesThrough(body: Body, d: Body, key: string) {
    (key in d <==> key in body) && (key in body ==> d[key] == body[key])
  }

  /** The handler writes only over the overridden keys. */
  lemma NewDocPassesThrough(body: Body, a: AccountModel.Account, key: string)
    requires key !in Overridden
    ensures PassesThrough(body, NewDoc(body, a), key)
  {
    OverriddenWritten(body, a);
    OverlayPassesThrough(body, SupplierPairs(body, a), key);
  }

  /** The supplier's code and name reach `create` from the account. */
  lemma NewDocWritesSupplier(body: Body, a: AccountModel.Account)
    ensures StringAt(NewDoc(body, a), "supplierCode") == Given(a.accountCode)
    ensures StringAt(NewDoc(body, a), "supplierName") == Given(a.description)
  {
    var ps := SupplierPairs(body, a);
    OverlayWrites(body, ps, 0);
    OverlayWrites(body, ps, 1);
  }

  /** The supplier's address, contact number and region reach `create` from the account. */
  lemma NewDocWritesSupplierDetails(body: Body, a: AccountModel.Account)
    ensures Optional(StringAt(NewDoc(body, a), "supplierAddress")) == Some(a.address)
    ensures Optional(StringAt(NewDoc(body, a), "supplierContact")) ==
      Some(if a.contactNo.Some? && a.contactNo.value != "" then a.contactNo else None)
    ensures Optional(StringAt(NewDoc(body, a), "supplierRegion")) == Some(a.region)
  {
    var ps := SupplierPairs(body, a);
    OverlayWrites(body, ps, 2);
    OverlayWrites(body, ps, 3);
    OverlayWrites(body, ps, 4);
  }

  /** The amounts reach `create` as the body gave them. */
  lemma NewDocPassesAmounts(body: Body, a: AccountModel.Account)
    ensures var d := NewDoc(body, a);
      PassesThrough(body, d, "otherCharges") && PassesThrough(body, d, "amountReceived") &&
      PassesThrough(body, d, "discount") && PassesThrough(body, d, "previousBalance") &&
      PassesThrough(body, d, "currentBill")
  {
    NewDocPassesThrough(body, a, "otherCharges");
    NewDocPassesThrough(body, a, "amountReceived");
    NewDocPassesThrough(body, a, "discount");
    NewDocPassesThrough(body, a, "previousBalance");
    NewDocPassesThrough(body, a, "currentBill");
  }

  /** The totals the handler computed reach `create`. */
  lemma NewDocWritesTotals(body: Body, a: AccountModel.Account)
    ensures NumberAt(NewDoc(body, a), "grossTotal") == Given(GrossTotal(body))
    ensures NumberAt(NewDoc(body, a), "netBalance") == Given(NetBalance(body))
  {
    var ps := SupplierPairs(body, a);
    OverlayWrites(body, ps, 5);
    OverlayWrites(body, ps, 6);
  }

  /** The client cannot choose the supplier's fields or the totals: whatever the body holds
      under those keys, the document handed to `create` is the same. */
  lemma BodyCannotSetOverridden(body: Body, a: AccountModel.Account, k: string, v: Json)
    requires k in Overridden
    ensures NewDoc(body[k := v], a) == NewDoc(body, a)
  {
    var b := body[k := v];
    assert ItemsOf(b) == ItemsOf(body);
    forall key | key in {"currentBill", "otherCharges", "discount", "previousBalance", "amountReceived"}
      ensures AmountOf(b, key) == AmountOf(body, key)
    {
      assert key != k;
    }
    assert SupplierPairs(b, a) == SupplierPairs(body, a);
    OverriddenWritten(body, a);
    OverlayHides(body, SupplierPairs(body, a), k, v);
  }

  /** The supplier id and the number reach `create` as the body gave them. */
  lemma NewDocKeepsKeys(body: Body, a: AccountModel.Account)
    ensures IdAt(NewDoc(body, a), "supplierId") == IdAt(body, "supplierId")
    ensures StringAt(NewDoc(body, a), "invoiceNumber") == StringAt(body, "invoiceNumber")
  {
    NewDocPassesThrough(body, a, "supplierId");
    NewDocPassesThrough(body, a, "invoiceNumber");
  }

  /** `PurchaseInvoice.create` on the document the handler builds for `body` and supplier `a`:
      the stored invoice carries the body's number and supplier id. */
  function CreateFor(body: Body, a: AccountModel.Account, id: nat, now: Date): (r: Option<PurchaseInvoice>)
    ensures r.Some? ==> Conforms(r.value) && r.value.id == id && r.value.createdAt == now
    ensures r.Some? ==> StringAt(body, "invoiceNumber") == Given(r.value.invoiceNumber)
    ensures r.Some? ==> IdAt(body, "supplierId") == Given(r.value.supplierId)
  {
    NewDocKeepsKeys(body, a);
    Create(NewDoc(body, a), id, now)
  }

  /** The account's `cellNo` never reaches the stored contact. */
  lemma ContactIgnoresCellNo(body: Body, a: AccountModel.Account, c: Option<string>)
    ensures NewDoc(body, a.(cellNo := c)) == NewDoc(body, a)
  {
    assert SupplierPairs(body, a.(cellNo := c)) == SupplierPairs(body, a);
  }

  /** A created purchase invoice carries the supplier's code, name, address and region, and
      its contact number when that is non-empty. */
  lemma CreatedFromSupplier(body: Body, a: AccountModel.Account, id: nat, today: Date)
    ensures var r := CreateFor(body, a, id, today);
      r.Some? ==>
        r.value.supplierCode == a.accountCode && r.value.supplierName == a.description &&
        r.value.supplierAddress == a.address && r.value.supplierRegion == a.region &&
        r.value.supplierContact == (if a.contactNo.Some? && a.contactNo.value != "" then a.contactNo else None)
  {
    var d := NewDoc(body, a);
    var r := Create(d, id, today);
    if r.Some? {
      CreateKeepsSupplierPaths(d, id, today, r.value);
    }
    NewDocWritesSupplier(body, a);
    NewDocWritesSupplierDetails(body, a);
  }

  /** A created purchase invoice is consistent whatever totals the client sent: its gross
      total is the sum of its stored lines' totals, and its net balance is the stored current
      bill plus gross total plus other charges, less discount, plus previous balance, less the
      amount received. */
  lemma CreatedTotalsConsistent(body: Body, a: AccountModel.Account, id: nat, today: Date)
    ensures var r := CreateFor(body, a, id, today);
      r.Some? ==>
        r.value.grossTotal == SumTotals(r.value.items) &&
        r.value.netBalance ==
          Amount(r.value.currentBill) + r.value.grossTotal + Amount(r.value.otherCharges) -
          Amount(r.value.discount) + Amount(r.value.previousBalance) - Amount(r.value.amountReceived)
  {
    var r := CreateFor(body, a, id, today);
    if r.Some? {
      CreatedGrossIsSum(body, a, id, today, r.value);
      CreatedNetAsComputed(body, a, id, today, r.value);
      CreatedAmountsAsSent(body, a, id, today, r.value);
    }
  }

  /** The stored gross total is the handler's sum over the body's lines, which is the sum of
      the stored lines' totals. */
  lemma CreatedGrossIsSum(body: Body, a: AccountModel.Account, id: nat, today: Date, p: PurchaseInvoice)
    requires CreateFor(body, a, id, today) == Some(p)
    ensures p.grossTotal == GrossTotal(body) == SumTotals(p.items)
  {
    var d := NewDoc(body, a);
    CreateKeepsLines(d, id, today, p);
    CreateKeepsTotals(d, id, today, p);
    NewDocWritesTotals(body, a);
    NewDocPassesThrough(body, a, "items");
    ItemsSummed(body, d, p.items);
  }

  /** The stored net balance is the one the handler computed from the body. */
  lemma CreatedNetAsComputed(body: Body, a: AccountModel.Account, id: nat, today: Date, p: PurchaseInvoice)
    requires CreateFor(body, a, id, today) == Some(p)
    ensures p.netBalance == NetBalance(body)
  {
    var d := NewDoc(body, a);
    CreateKeepsTotals(d, id, today, p);
    NewDocWritesTotals(body, a);
  }

  /** Every amount stored is the amount the handler counted. */
  lemma CreatedAmountsAsSent(body: Body, a: AccountModel.Account, id: nat, today: Date, p: PurchaseInvoice)
    requires CreateFor(body, a, id, today) == Some(p)
    ensures Amount(p.otherCharges) == AmountOf(body, "otherCharges")
    ensures Amount(p.amountReceived) == AmountOf(body, "amountReceived")
    ensures Amount(p.discount) == AmountOf(body, "discount")
    ensures Amount(p.previousBalance) == AmountOf(body, "previousBalance")
    ensures Amount(p.currentBill) == AmountOf(body, "currentBill")
  {
    NewDocPassesAmounts(body, a);
    AmountsStored(body, NewDoc(body, a), id, today, p);
  }

  /** The amounts created from a document that passes the body's amounts through. */
  lemma AmountsStored(body: Body, d: Body, id: nat, now: Date, p: PurchaseInvoice)
    requires Create(d, id, now) == Some(p)
    requires PassesThrough(body, d, "otherCharges") && PassesThrough(body, d, "amountReceived")
    requires PassesThrough(body, d, "discount") && PassesThrough(body, d, "previousBalance")
    requires PassesThrough(body, d, "currentBill")
    ensures Amount(p.otherCharges) == AmountOf(body, "otherCharges")
    ensures Amount(p.amountReceived) == AmountOf(body, "amountReceived")
    ensures Amount(p.discount) == AmountOf(body, "discount")
    ensures Amount(p.previousBalance) == AmountOf(body, "previousBalance")
    ensures Amount(p.currentBill) == AmountOf(body, "currentBill")
  {
    CreateKeepsAmounts(d, id, now, p);
    AmountStored(body, d, "otherCharges", p.otherCharges);
    AmountStored(body, d, "amountReceived", p.amountReceived);
    AmountStored(body, d, "discount", p.discount);
    AmountStored(body, d, "previousBalance", p.previousBalance);
    AmountStored(body, d, "currentBill", p.currentBill);
  }

  lemma ItemsSummed(body: Body, d: Body, ls: seq<PurchaseLine>)
    requires PassesThrough(body, d, "items")
    requires LinesOrEmpty(ArrayAt(d, "items", CastLine)) == Some(ls)
    ensures GrossTotal(body) == SumTotals(ls)
  {
    if "items" in body && body["items"].JArr? {
      GrossOfCastLines(body["items"].elems, ls);
    }
  }

  lemma AmountStored(body: Body, d: Body, key: string, x: Option<real>)
    requires PassesThrough(body, d, key)
    requires Defaulted(NumberAt(d, key), 0.0) == Some(x)
    ensures AmountOf(body, key) == Amount(x)
  {
  }

  /** `Account.findById(req.body.supplierId)`: the account with that id, of any type. */
  function SupplierOf(body: Body, accounts: seq<AccountModel.Account>): (r: Option<AccountModel.Account>)
    ensures r.Some? ==> r.value in accounts && IdAt(body, "supplierId") == Given(r.value.id)
    ensures r.None? && IdAt(body, "supplierId").Given? ==>
      forall i :: 0 <= i < |accounts| ==> accounts[i].id != IdAt(body, "supplierId").v
  {
    match IdAt(body, "supplierId")
    case Given(sid) =>
      (match AccountController.IndexOfId(accounts, sid)
       case Some(i) => Some(accounts[i])
       case None => None)
    case _ => None
  }

  /** `findOne({ invoiceNumber: body.invoiceNumber })` finds a document: the body's number is
      a string already stored, or the body has no `invoiceNumber`, in which case Mongoose drops
      the undefined key from the filter and the empty filter matches any stored document. A
      `null` number matches nothing, as every stored document has one. */
  predicate DuplicateNumber(body: Body, s: seq<PurchaseInvoice>) {
    match StringAt(body, "invoiceNumber")
    case Given(n) => NumberTaken(s, n)
    case Absent => s != []
    case _ => false
  }

  /** `findOne({ invoiceNumber })`: the position of the first purchase invoice with that number. */
  function IndexOfNumber(s: seq<PurchaseInvoice>, number: string): (r: Option<nat>)
    ensures r.Some? ==> r.value < |s| && s[r.value].invoiceNumber == number
    ensures r.None? <==> !NumberTaken(s, number)
  {
    IndexWhere(s, (p: PurchaseInvoice) => p.invoiceNumber == number)
  }

  /** Appending a valid purchase invoice with the next id and a fresh number keeps the unique
      index, the order of ids and the bound on them. */
  lemma AppendKeepsOrder(s: seq<PurchaseInvoice>, x: PurchaseInvoice, n: nat)
    requires UniqueNumbers(s) && !NumberTaken(s, x.invoiceNumber) && x.id == n
    requires forall a, b :: 0 <= a < b < |s| ==> s[a].id < s[b].id
    requires forall a :: 0 <= a < |s| ==> s[a].id < n
    ensures var r := s + [x];
      UniqueNumbers(r) && (forall a, b :: 0 <= a < b < |r| ==> r[a].id < r[b].id) &&
      forall a :: 0 <= a < |r| ==> r[a].id < n + 1
  {
  }

  /** The purchase invoices collection. */
  class PurchaseStore {
    var purchases: seq<PurchaseInvoice>
    var nextId: nat

    /** Ids increase in insertion order and stay below `nextId`; every purchase invoice
        passes the schema's validators and numbers obey the unique index. */
    ghost predicate Valid()
      reads this
    {
      UniqueNumbers(purchases) &&
      (forall i :: 0 <= i < |purchases| ==> Conforms(purchases[i])) &&
      (forall i, j :: 0 <= i < j < |purchases| ==> purchases[i].id < purchases[j].id) &&
      (forall i :: 0 <= i < |purchases| ==> purchases[i].id < nextId)
    }

    constructor ()
      ensures Valid() && purchases == []
    {
      purchases := [];
      nextId := 0;
    }

    /** `createPurchaseInvoice`: a missing or null `supplierId`, or one no account has, finds
        no supplier, 400; a value that is not an id fails to cast, 500. An `invoiceNumber`
        already stored is 400, and so is a missing one while anything is stored, as the filter
        then matches every document; a null one matches nothing and one that does not cast is
        500.
        Then the body, with the supplier's fields and the computed totals written over it, is
        created, 201, or fails validation, 500. Every failure stores nothing. */
    method CreatePurchaseInvoice(body: Body, accounts: seq<AccountModel.Account>, today: Date)
      returns (r: Outcome<PurchaseInvoice>)
      requires Valid()
      modifies this
      ensures Valid()
      ensures r.Err? ==> purchases == old(purchases)
      ensures r.Ok? ==> r.status == 201 && purchases == old(purchases) + [r.value]
      ensures match IdAt(body, "supplierId")
        case Given(_) => SupplierOf(body, accounts).None? ==> r == Err(400)
        case Mismatch => r == Err(500)
        case _ => r == Err(400)
      ensures SupplierOf(body, accounts).Some? && DuplicateNumber(body, old(purchases)) ==> r == Err(400)
      ensures r.Ok? <==>
        SupplierOf(body, accounts).Some? && StringAt(body, "invoiceNumber").Given? &&
        !DuplicateNumber(body, old(purchases)) &&
        CreateFor(body, SupplierOf(body, accounts).value, old(nextId), today).Some?
      ensures r.Ok? ==>
        r.value == CreateFor(body, SupplierOf(body, accounts).value, old(nextId), today).value &&
        r.value.supplierId == SupplierOf(body, accounts).value.id
      ensures SupplierOf(body, accounts).Some? && !DuplicateNumber(body, old(purchases)) && r.Err? ==> r == Err(500)
    {
      var supplierId := IdAt(body, "supplierId");
      if supplierId.Mismatch? {
        return Err(500);
      }
      var supplier := SupplierOf(body, accounts);
      if supplier.None? {
        return Err(400);
      }
      var number := StringAt(body, "invoiceNumber");
      if number.Mismatch? {
        return Err(500);
      }
      if (number.Given? && IndexOfNumber(purchases, number.v).Some?) || (number.Absent? && purchases != []) {
        return Err(400);
      }
      var created := CreateFor(body, supplier.value, nextId, today);
      if created.None? {
        return Err(500);
      }
      assert !NumberTaken(purchases, created.value.invoiceNumber);
      AppendKeepsOrder(purchases, created.value, nextId);
      purchases := purchases + [created.value];
      nextId := nextId + 1;
      return Ok(201, created.value);
    }

    /** `getPurchaseInvoiceByNumber`: the purchase invoice with exactly that number, or 404. */
    method GetPurchaseInvoiceByNumber(number: string) returns (r: Outcome<PurchaseInvoice>)
      requires Valid()
      ensures r.Ok? <==> NumberTaken(purchases, number)
      ensures r.Ok? ==> r.status == 200 && r.value in purchases && r.value.invoiceNumber == number
      ensures r.Err? ==> r.status == 404
    {
      var k := IndexOfNumber(purchases, number);
      if k.None? {
        return Err(404);
      }
      return Ok(200, purchases[k.value]);
    }

    /** `generatePurchaseInvoiceNumber`: the preview for today. It stores nothing, so asking
        twice on the same day gives the same number. */
    method PreviewPurchaseNumber(today: Date) returns (r: string)
      ensures r == NextPurchaseNumber(purchases, today)
      ensures Plausible(today) ==> DecodeDated("PINV", r) == Some((today, |CreatedToday(purchases, today)| + 1))
    {
      r := NextPurchaseNumber(purchases, today);
      if Plausible(today) {
        PurchaseNumberGrammar(purchases, today);
      }
    }
  }
}
