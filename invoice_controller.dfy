/** The sales invoice handlers (controllers/invoiceController.js) over an in-memory invoices
    collection: creation after the customer and number checks, lookup by number, the filtered
    and sorted listing, update, delete, and the preview of the next `INV-YYYYMMDD-NNN` number. */
module InvoiceController {
  import opened Wrappers
  import opened Schema
  import opened Calendar
  import opened Numbering
  import opened Seqs
  import opened InvoiceModel
  import AccountModel
  import AccountController

  function CreatedOn(d: Date): Invoice -> bool {
    (inv: Invoice) => inv.createdAt == d
  }

  /** `countDocuments({ createdAt: { $gte: startOfDay, $lte: endOfDay } })`: the invoices
      stored on day `d`. */
  function CreatedToday(s: seq<Invoice>, d: Date): (r: seq<Invoice>)
    ensures forall inv :: inv in r <==> inv in s && inv.createdAt == d
  {
    Filter(s, CreatedOn(d))
  }

  /** `generateInvoiceNumber`: `INV-`, the day as YYYYMMDD, `-`, and one more than the number
      of invoices stored that day, padded to three digits. */
  function NextInvoiceNumber(s: seq<Invoice>, today: Date): string {
    DatedCode("INV", today, |CreatedToday(s, today)| + 1)
  }

  /** Grammar of the preview: it reads back as today and the day's count plus one, and has the
      `INV-` eight digits `-` three digits shape while fewer than 999 invoices were stored today. */
  lemma InvoiceNumberGrammar(s: seq<Invoice>, today: Date)
    requires Plausible(today)
    ensures DecodeDated("INV", NextInvoiceNumber(s, today)) == Some((today, |CreatedToday(s, today)| + 1))
    ensures |CreatedToday(s, today)| < 999 ==> DatedGrammar("INV", NextInvoiceNumber(s, today))
  {
    DatedRoundTrip("INV", today, |CreatedToday(s, today)| + 1);
    if |CreatedToday(s, today)| < 999 {
      DatedCodeGrammar("INV", today, |CreatedToday(s, today)| + 1);
    }
  }

  /** Only today's invoices count: an invoice stored on another day, anywhere in the
      collection, never changes the preview. */
  lemma OtherDaysDoNotCount(s1: seq<Invoice>, inv: Invoice, s2: seq<Invoice>, today: Date)
    requires inv.createdAt != today
    ensures NextInvoiceNumber(s1 + [inv] + s2, today) == NextInvoiceNumber(s1 + s2, today)
  {
    FilterSkips(s1, inv, s2, CreatedOn(today));
  }

  /** Previews of different days differ, whatever the two collections hold. */
  lemma NumbersOfDifferentDaysDiffer(s1: seq<Invoice>, d1: Date, s2: seq<Invoice>, d2: Date)
    requires Plausible(d1) && Plausible(d2) && d1 != d2
    ensures NextInvoiceNumber(s1, d1) != NextInvoiceNumber(s2, d2)
  {
    DatedCodesOfDifferentDaysDiffer("INV", d1, |CreatedToday(s1, d1)| + 1, d2, |CreatedToday(s2, d2)| + 1);
  }

  /** Deleting one of today's invoices lowers the day's count, so when another stored invoice
      holds the number of the day's last count, the preview repeats it and a create with the
      previewed number is refused as a duplicate. */
  lemma SameDayDeleteRepeats(s: seq<Invoice>, i: nat, j: nat, today: Date)
    requires i < |s| && j < |s| && i != j && s[i].createdAt == today
    requires s[j].invoiceNumber == DatedCode("INV", today, |CreatedToday(s, today)|)
    ensures NumberTaken(RemoveAt(s, i), NextInvoiceNumber(RemoveAt(s, i), today))
  {
    var rest := RemoveAt(s, i);
    FilterRemove(s, i, CreatedOn(today));
    if j < i {
      assert rest[j] == s[j];
    } else {
      assert rest[j - 1] == s[j];
    }
  }

  /** The `getAllInvoices` query: by customer only when `customerId` is given, by
      `invoiceDate` in [start, end] only when both bounds are given. */
  function Matches(customerId: Option<nat>, start: Option<int>, end: Option<int>): Invoice -> bool {
    (inv: Invoice) =>
      (customerId.None? || inv.customerId == customerId.value) &&
      (start.None? || end.None? || (start.value <= inv.invoiceDate && inv.invoiceDate <= end.value))
  }

  /** The sort key of `getAllInvoices`: latest `invoiceDate` first. */
  function ByDateDescending(): (Invoice, Invoice) -> bool {
    (a: Invoice, b: Invoice) => a.invoiceDate >= b.invoiceDate
  }

  lemma ByDateDescendingIsTotalPreorder()
    ensures TotalPreorder(ByDateDescending())
  {
  }

  /** `findById(id)`: the position of the invoice with that id. */
  function IndexOfId(s: seq<Invoice>, id: nat): (r: Option<nat>)
    ensures r.Some? ==> r.value < |s| && s[r.value].id == id
    ensures r.None? ==> forall i :: 0 <= i < |s| ==> s[i].id != id
  {
    IndexWhere(s, (inv: Invoice) => inv.id == id)
  }

  /** `findOne({ invoiceNumber })`: the position of the first invoice with that number. */
  function IndexOfNumber(s: seq<Invoice>, number: string): (r: Option<nat>)
    ensures r.Some? ==> r.value < |s| && s[r.value].invoiceNumber == number
    ensures r.None? <==> !NumberTaken(s, number)
  {
    IndexWhere(s, (inv: Invoice) => inv.invoiceNumber == number)
  }

  predicate NumberTakenByOther(s: seq<Invoice>, i: nat, number: string) {
    exists j :: 0 <= j < |s| && j != i && s[j].invoiceNumber == number
  }

  /** The account `Account.findById(customerId)` finds: any account with that id, of any type. */
  predicate AccountExists(accounts: seq<AccountModel.Account>, id: nat) {
    AccountController.IndexOfId(accounts, id).Some?
  }

  /** The body names an account that exists. */
  predicate CustomerFound(body: Body, accounts: seq<AccountModel.Account>) {
    IdAt(body, "customerId").Given? && AccountExists(accounts, IdAt(body, "customerId").v)
  }

  /** `findOne({ invoiceNumber: body.invoiceNumber })` finds a document: the body's number is
      a string already stored, or the body has no `invoiceNumber`, in which case Mongoose drops
      the undefined key from the filter and the empty filter matches any stored document. A
      `null` number matches nothing, as every stored document has one. */
  predicate DuplicateNumber(body: Body, s: seq<Invoice>) {
    match StringAt(body, "invoiceNumber")
    case Given(n) => NumberTaken(s, n)
    case Absent => s != []
    case _ => false
  }

  /** Deleting an invoice lowers the count of the day it was stored on by one. */
  lemma DeleteLowersDayCount(s: seq<Invoice>, i: nat)
    requires i < |s|
    ensures |CreatedToday(RemoveAt(s, i), s[i].createdAt)| == |CreatedToday(s, s[i].createdAt)| - 1
  {
    FilterRemove(s, i, CreatedOn(s[i].createdAt));
  }

  /** Removing one document keeps the remaining ones in id order, below `n` and valid, and
      keeps their numbers distinct. */
  lemma RemoveKeepsOrder(s: seq<Invoice>, i: nat, n: nat)
    requires i < |s|
    requires UniqueNumbers(s)
    requires forall a, b :: 0 <= a < b < |s| ==> s[a].id < s[b].id
    requires forall a :: 0 <= a < |s| ==> Conforms(s[a]) && s[a].id < n
    ensures var r := RemoveAt(s, i);
      UniqueNumbers(r) && (forall a, b :: 0 <= a < b < |r| ==> r[a].id < r[b].id) &&
      forall a :: 0 <= a < |r| ==> Conforms(r[a]) && r[a].id < n
  {
    var r := RemoveAt(s, i);
    forall a, b | 0 <= a < b < |r|
      ensures r[a].invoiceNumber != r[b].invoiceNumber && r[a].id < r[b].id
    {
      var a2 := if a < i then a else a + 1;
      var b2 := if b < i then b else b + 1;
      assert r[a] == s[a2] && r[b] == s[b2];
    }
    forall a | 0 <= a < |r|
      ensures Conforms(r[a]) && r[a].id < n
    {
      assert r[a] == s[if a < i then a else a + 1];
    }
  }

  /** Replacing an invoice by one with the same id and a number no other invoice holds keeps
      the unique index and the order of ids. */
  lemma ReplaceKeepsOrder(s: seq<Invoice>, i: nat, x: Invoice)
    requires i < |s| && x.id == s[i].id && !NumberTakenByOther(s, i, x.invoiceNumber)
    requires UniqueNumbers(s)
    requires forall a, b :: 0 <= a < b < |s| ==> s[a].id < s[b].id
    ensures var r := s[i := x];
      UniqueNumbers(r) && forall a, b :: 0 <= a < b < |r| ==> r[a].id < r[b].id
  {
    var r := s[i := x];
    forall a, b | 0 <= a < b < |r|
      ensures r[a].invoiceNumber != r[b].invoiceNumber && r[a].id < r[b].id
    {
      if a == i {
        assert s[b].invoiceNumber != x.invoiceNumber;
      } else if b == i {
        assert s[a].invoiceNumber != x.invoiceNumber;
      }
    }
  }

  /** The invoices collection. */
  class InvoiceStore {
    var invoices: seq<Invoice>
    var nextId: nat

    /** Ids increase in insertion order and stay below `nextId`; every invoice passes the
        schema's validators and numbers obey the unique index. */
    ghost predicate Valid()
      reads this
    {
      UniqueNumbers(invoices) &&
      (forall i :: 0 <= i < |invoices| ==> Conforms(invoices[i])) &&
      (forall i, j :: 0 <= i < j < |invoices| ==> invoices[i].id < invoices[j].id) &&
      (forall i :: 0 <= i < |invoices| ==> invoices[i].id < nextId)
    }

    constructor ()
      ensures Valid() && invoices == []
    {
      invoices := [];
      nextId := 0;
    }

    /** `createInvoice`: a missing or null `customerId` finds no customer, 400, and so does an
        id no account has; a value that is not an id fails to cast, 500. An `invoiceNumber`
        already stored is 400, and so is a missing one while anything is stored, as the filter
        then matches every document; a null one matches nothing and one that does not cast is
        500.
        Then `Invoice.create(body)` stores the body as cast and defaulted, 201, or fails
        validation, 500. Every failure stores nothing. */
    method CreateInvoice(body: Body, accounts: seq<AccountModel.Account>, today: Date) returns (r: Outcome<Invoice>)
      requires Valid()
      modifies this
      ensures Valid()
      ensures r.Err? ==> invoices == old(invoices)
      ensures r.Ok? ==> r.status == 201 && invoices == old(invoices) + [r.value]
      ensures match IdAt(body, "customerId")
        case Given(cid) => !AccountExists(accounts, cid) ==> r == Err(400)
        case Mismatch => r == Err(500)
        case _ => r == Err(400)
      ensures CustomerFound(body, accounts) && DuplicateNumber(body, old(invoices)) ==> r == Err(400)
      ensures r.Ok? <==>
        CustomerFound(body, accounts) && StringAt(body, "invoiceNumber").Given? &&
        !DuplicateNumber(body, old(invoices)) && Create(body, old(nextId), today).Some?
      ensures r.Ok? ==> r.value == Create(body, old(nextId), today).value
      ensures CustomerFound(body, accounts) && !DuplicateNumber(body, old(invoices)) && r.Err? ==> r == Err(500)
    {
      var customerId := IdAt(body, "customerId");
      if customerId.Mismatch? {
        return Err(500);
      }
      if !customerId.Given? || !AccountExists(accounts, customerId.v) {
        return Err(400);
      }
      var number := StringAt(body, "invoiceNumber");
      if number.Mismatch? {
        return Err(500);
      }
      if (number.Given? && IndexOfNumber(invoices, number.v).Some?) || (number.Absent? && invoices != []) {
        return Err(400);
      }
      var created := Create(body, nextId, today);
      if created.None? {
        return Err(500);
      }
      invoices := invoices + [created.value];
      nextId := nextId + 1;
      return Ok(201, created.value);
    }

    /** `getInvoiceByNumber`: the invoice with exactly that number, or 404. */
    method GetInvoiceByNumber(number: string) returns (r: Outcome<Invoice>)
      requires Valid()
      ensures r.Ok? <==> NumberTaken(invoices, number)
      ensures r.Ok? ==> r.status == 200 && r.value in invoices && r.value.invoiceNumber == number
      ensures r.Err? ==> r.status == 404
    {
      var k := IndexOfNumber(invoices, number);
      if k.None? {
        return Err(404);
      }
      return Ok(200, invoices[k.value]);
    }

    /** `getAllInvoices`: exactly the stored invoices the query matches, latest invoice date
        first. Invoices with equal dates may come in any order. */
    method GetAllInvoices(customerId: Option<nat>, start: Option<int>, end: Option<int>) returns (r: seq<Invoice>)
      ensures forall inv :: inv in r <==> inv in invoices && Matches(customerId, start, end)(inv)
      ensures SortedBy(r, ByDateDescending())
      ensures multiset(r) == multiset(Filter(invoices, Matches(customerId, start, end)))
    {
      var matching := Filter(invoices, Matches(customerId, start, end));
      ByDateDescendingIsTotalPreorder();
      r := SortBy(matching, ByDateDescending());
      forall inv ensures inv in r <==> inv in matching {
        assert inv in r <==> inv in multiset(r);
        assert inv in matching <==> inv in multiset(matching);
      }
    }

    /** `updateInvoice`: the update is cast and validated first, so an invalid update is 500
        even for an unknown id; an unknown id is 404; a number another invoice holds is
        refused by the unique index, 500; otherwise the invoice is replaced in place. Nothing
        changes on any failure. */
    method UpdateInvoice(id: nat, update: Body) returns (r: Outcome<Invoice>)
      requires Valid()
      modifies this
      ensures Valid() && nextId == old(nextId)
      ensures !UpdateValidates(update) ==> r == Err(500) && invoices == old(invoices)
      ensures UpdateValidates(update) ==>
        match IndexOfId(old(invoices), id)
        case None => r == Err(404) && invoices == old(invoices)
        case Some(i) =>
          var inv := Patch(old(invoices)[i], update);
          inv.Some? &&
          if NumberTakenByOther(old(invoices), i, inv.value.invoiceNumber) then r == Err(500) && invoices == old(invoices)
          else r == Ok(200, inv.value) && invoices == old(invoices)[i := inv.value]
    {
      if !UpdateValidates(update) {
        return Err(500);
      }
      var k := IndexOfId(invoices, id);
      if k.None? {
        return Err(404);
      }
      var i := k.value;
      PatchSucceedsIffValidates(invoices[i], update);
      var inv := Patch(invoices[i], update);
      if NumberTakenByOther(invoices, i, inv.value.invoiceNumber) {
        return Err(500);
      }
      ReplaceKeepsOrder(invoices, i, inv.value);
      invoices := invoices[i := inv.value];
      return Ok(200, inv.value);
    }

    /** `deleteInvoice`: an unknown id is 404 and changes nothing; otherwise exactly that
        invoice is removed, and the count of its creation day drops by one. */
    method DeleteInvoice(id: nat) returns (r: Outcome<()>)
      requires Valid()
      modifies this
      ensures Valid() && nextId == old(nextId)
      ensures match IndexOfId(old(invoices), id)
        case None => r == Err(404) && invoices == old(invoices)
        case Some(i) =>
          r == Ok(200, ()) && invoices == RemoveAt(old(invoices), i) &&
          |CreatedToday(invoices, old(invoices)[i].createdAt)| == |CreatedToday(old(invoices), old(invoices)[i].createdAt)| - 1
    {
      var k := IndexOfId(invoices, id);
      if k.None? {
        return Err(404);
      }
      var i := k.value;
      DeleteLowersDayCount(invoices, i);
      RemoveKeepsOrder(invoices, i, nextId);
      invoices := RemoveAt(invoices, i);
      return Ok(200, ());
    }

    /** `generateInvoiceNumber`: the preview for today. It stores nothing, so asking twice on
        the same day gives the same number. */
    method PreviewInvoiceNumber(today: Date) returns (r: string)
      ensures r == NextInvoiceNumber(invoices, today)
      ensures Plausible(today) ==> DecodeDated("INV", r) == Some((today, |CreatedToday(invoices, today)| + 1))
    {
      r := NextInvoiceNumber(invoices, today);
      if Plausible(today) {
        InvoiceNumberGrammar(invoices, today);
      }
    }
  }
}
