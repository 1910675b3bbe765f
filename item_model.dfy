/** The Item schema (models/Item.js): the record, its validation, the unique `code` index,
    the defaults and the automatic timestamps, and how `create` and a validated
    `findByIdAndUpdate` turn a document or an update into a stored item. */
module ItemModel {
  import opened Wrappers
  import opened Schema
  import opened Calendar

  /** A stored item. The defaulted paths are nullable: a default fills a missing value only,
      and an explicit null is stored as it is. `expDate` is an instant in milliseconds. */
  datatype Item = Item(
    id: nat,
    code: string,
    description: string,
    unit: Option<string>,
    batchNo: Option<string>,
    expDate: Option<int>,
    unitPrice: Option<real>,
    subCompany: Option<string>,
    inactive: Option<bool>,
    createdAt: Date,
    updatedAt: Date)

  /** The schema's validators: `code` and `description` are required strings, so neither may
      be empty. */
  predicate Conforms(it: Item) {
    it.code != "" && it.description != ""
  }

  /** The unique index on `code`. */
  predicate UniqueCodes(s: seq<Item>) {
    forall i, j :: 0 <= i < j < |s| ==> s[i].code != s[j].code
  }

  predicate CodeTaken(s: seq<Item>, code: string) {
    exists i :: 0 <= i < |s| && s[i].code == code
  }

  /** `Item.create(doc)`: cast every schema path of `doc`, fill the defaults (unit, batch and
      sub-company '', price 0, active), stamp both timestamps with today, then validate. The
      unique index is checked by the caller. */
  function Create(doc: Body, id: nat, now: Date): (r: Option<Item>)
    ensures r.Some? ==> Conforms(r.value)
    ensures r.Some? ==> r.value.id == id && r.value.createdAt == now && r.value.updatedAt == now
    ensures r.Some? ==> StringAt(doc, "code") == Given(r.value.code)
    ensures r.Some? ==> StringAt(doc, "description") == Given(r.value.description)
    ensures r.Some? && "unit" !in doc ==> r.value.unit == Some("")
    ensures r.Some? && "batchNo" !in doc ==> r.value.batchNo == Some("")
    ensures r.Some? && "unitPrice" !in doc ==> r.value.unitPrice == Some(0.0)
    ensures r.Some? && "subCompany" !in doc ==> r.value.subCompany == Some("")
    ensures r.Some? && "inactive" !in doc ==> r.value.inactive == Some(false)
    ensures r.Some? && "expDate" !in doc ==> r.value.expDate == None
  {
    var code :- Required(StringAt(doc, "code"));
    var description :- Required(StringAt(doc, "description"));
    var unit :- Defaulted(StringAt(doc, "unit"), "");
    var batchNo :- Defaulted(StringAt(doc, "batchNo"), "");
    var expDate :- Optional(DateAt(doc, "expDate"));
    var unitPrice :- Defaulted(NumberAt(doc, "unitPrice"), 0.0);
    var subCompany :- Defaulted(StringAt(doc, "subCompany"), "");
    var inactive :- Defaulted(BooleanAt(doc, "inactive"), false);
    var it := Item(id, code, description, unit, batchNo, expDate, unitPrice, subCompany, inactive, now, now);
    if Conforms(it) then Some(it) else None
  }

  /** What `create` stores for each optional path the document gives: the given value, which
      also overrides the default. */
  lemma CreateKeepsGiven(doc: Body, id: nat, now: Date)
    ensures var r := Create(doc, id, now);
      r.Some? ==>
        (StringAt(doc, "unit").Given? ==> r.value.unit == Some(StringAt(doc, "unit").v)) &&
        (StringAt(doc, "batchNo").Given? ==> r.value.batchNo == Some(StringAt(doc, "batchNo").v)) &&
        (DateAt(doc, "expDate").Given? ==> r.value.expDate == Some(DateAt(doc, "expDate").v)) &&
        (NumberAt(doc, "unitPrice").Given? ==> r.value.unitPrice == Some(NumberAt(doc, "unitPrice").v)) &&
        (StringAt(doc, "subCompany").Given? ==> r.value.subCompany == Some(StringAt(doc, "subCompany").v)) &&
        (BooleanAt(doc, "inactive").Given? ==> r.value.inactive == Some(BooleanAt(doc, "inactive").v))
  {
  }

  /** What `create` stores for each defaulted path the document sets to `null`: nothing, as
      a default fills a missing value only. */
  lemma CreateKeepsNull(doc: Body, id: nat, now: Date)
    ensures var r := Create(doc, id, now);
      r.Some? ==>
        (StringAt(doc, "unit").Null? ==> r.value.unit == None) &&
        (StringAt(doc, "batchNo").Null? ==> r.value.batchNo == None) &&
        (NumberAt(doc, "unitPrice").Null? ==> r.value.unitPrice == None) &&
        (StringAt(doc, "subCompany").Null? ==> r.value.subCompany == None) &&
        (BooleanAt(doc, "inactive").Null? ==> r.value.inactive == None)
  {
  }

  /** The document a stored item was created from; a path stored as nothing is sent as `null`. */
  function ToDoc(it: Item): Body {
    map[
      "code" := JStr(it.code),
      "description" := JStr(it.description),
      "unit" := OptText(it.unit),
      "batchNo" := OptText(it.batchNo),
      "expDate" := OptDate(it.expDate),
      "unitPrice" := OptNum(it.unitPrice),
      "subCompany" := OptText(it.subCompany),
      "inactive" := OptBool(it.inactive)]
  }

  /** Each path of a rendered document reads back as the field it was written from. */
  lemma ToDocText(it: Item)
    ensures var d := ToDoc(it);
      StringAt(d, "code") == Given(it.code) &&
      StringAt(d, "description") == Given(it.description) &&
      StringAt(d, "unit") == OptField(it.unit) &&
      StringAt(d, "batchNo") == OptField(it.batchNo)
  {
    assert "code"[0] != "unit"[0];
    assert "batchNo"[0] != "expDate"[0];
  }

  lemma ToDocValues(it: Item)
    ensures var d := ToDoc(it);
      DateAt(d, "expDate") == OptField(it.expDate) &&
      NumberAt(d, "unitPrice") == OptField(it.unitPrice) &&
      StringAt(d, "subCompany") == OptField(it.subCompany) &&
      BooleanAt(d, "inactive") == OptField(it.inactive)
  {
    assert "batchNo"[0] != "expDate"[0];
  }

  /** Round trip: `create` stores every valid item created on one day exactly as its own
      document describes it. */
  lemma CreateRoundTrip(it: Item)
    requires Conforms(it) && it.updatedAt == it.createdAt
    ensures Create(ToDoc(it), it.id, it.createdAt) == Some(it)
  {
    ToDocText(it);
    ToDocValues(it);
  }

  /** `findByIdAndUpdate(id, update, { runValidators: true })`: each schema path in `update`
      is cast and replaces the stored value, `null` on a required path or an empty required
      string fails validation, and the timestamps set `updatedAt` to today. */
  function Patch(it: Item, update: Body, now: Date): (r: Option<Item>)
    ensures r.Some? ==> Conforms(r.value)
    ensures r.Some? ==> r.value.id == it.id && r.value.createdAt == it.createdAt && r.value.updatedAt == now
    ensures update == map[] && Conforms(it) ==> r == Some(it.(updatedAt := now))
  {
    var code :- PatchValue(it.code, StringAt(update, "code"));
    var description :- PatchValue(it.description, StringAt(update, "description"));
    var unit :- PatchOptional(it.unit, StringAt(update, "unit"));
    var batchNo :- PatchOptional(it.batchNo, StringAt(update, "batchNo"));
    var expDate :- PatchOptional(it.expDate, DateAt(update, "expDate"));
    var unitPrice :- PatchOptional(it.unitPrice, NumberAt(update, "unitPrice"));
    var subCompany :- PatchOptional(it.subCompany, StringAt(update, "subCompany"));
    var inactive :- PatchOptional(it.inactive, BooleanAt(update, "inactive"));
    var r := it.(code := code, description := description, unit := unit, batchNo := batchNo,
                 expDate := expDate, unitPrice := unitPrice, subCompany := subCompany,
                 inactive := inactive, updatedAt := now);
    if Conforms(r) then Some(r) else None
  }

  /** A validated update writes every schema path it gives: the given value replaces the
      stored one, `null` clears a nullable path, and a path the update lacks keeps its value. */
  lemma PatchWrites(it: Item, update: Body, now: Date)
    ensures var r := Patch(it, update, now);
      r.Some? ==>
        Written(it.code, StringAt(update, "code"), r.value.code) &&
        Written(it.description, StringAt(update, "description"), r.value.description) &&
        WrittenOptional(it.unit, StringAt(update, "unit"), r.value.unit) &&
        WrittenOptional(it.batchNo, StringAt(update, "batchNo"), r.value.batchNo) &&
        WrittenOptional(it.expDate, DateAt(update, "expDate"), r.value.expDate) &&
        WrittenOptional(it.unitPrice, NumberAt(update, "unitPrice"), r.value.unitPrice) &&
        WrittenOptional(it.subCompany, StringAt(update, "subCompany"), r.value.subCompany) &&
        WrittenOptional(it.inactive, BooleanAt(update, "inactive"), r.value.inactive)
  {
  }

  /** Updating with the whole document of a valid item `b` stores `b` under the stored item's
      id and creation time, stamped today. */
  lemma PatchRoundTrip(it: Item, b: Item, now: Date)
    requires Conforms(b)
    ensures Patch(it, ToDoc(b), now) == Some(b.(id := it.id, createdAt := it.createdAt, updatedAt := now))
  {
    ToDocText(b);
    ToDocValues(b);
  }

  /** The schema paths an update may set; any other key is dropped (strict mode). */
  const Paths: set<string> :=
    {"code", "description", "unit", "batchNo", "expDate", "unitPrice", "subCompany", "inactive"}

  /** Keys that are not schema paths have no effect on an update. */
  lemma PatchIgnoresOtherKeys(it: Item, update: Body, now: Date, k: string, v: Json)
    requires k !in Paths
    ensures Patch(it, update[k := v], now) == Patch(it, update, now)
  {
    var u := update[k := v];
    forall p | p in Paths
      ensures StringAt(u, p) == StringAt(update, p) && NumberAt(u, p) == NumberAt(update, p) &&
              DateAt(u, p) == DateAt(update, p) && BooleanAt(u, p) == BooleanAt(update, p)
    {
      assert p != k;
    }
  }

  /** A required path cannot be cleared: an update that sets `code` or `description` to null
      or to the empty string is refused. */
  lemma PatchKeepsRequired(it: Item, update: Body, now: Date)
    requires StringAt(update, "code") in {Null, Given("")} || StringAt(update, "description") in {Null, Given("")}
    ensures Patch(it, update, now).None?
  {
  }

  /** A conforming item, standing for "any stored item" when an update is validated before
      the item is looked up. */
  const Sample: Item := Item(0, "-", "-", None, None, None, None, None, None, Date(0, 0, 0), Date(0, 0, 0))

  /** The update casts and passes the update validators. */
  predicate UpdateValidates(update: Body) {
    Patch(Sample, update, Date(0, 0, 0)).Some?
  }

  /** Update validators look at the update alone: on any stored (conforming) item the update
      succeeds exactly when it validates. */
  lemma PatchSucceedsIffValidates(it: Item, update: Body, now: Date)
    requires Conforms(it)
    ensures Patch(it, update, now).Some? <==> UpdateValidates(update)
  {
  }
}
