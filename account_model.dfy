/** The Account schema (models/Account.js): the record, its validation, the unique
    `accountCode` index, the pre-save hook, and how `create` and `findByIdAndUpdate` turn a
    document or an update into a stored account. */
module AccountModel {
  import opened Wrappers
  import opened Schema
  import opened Calendar

  datatype Account = Account(
    id: nat,
    accountType: string,
    accountCode: string,
    description: string,
    address: Option<string>,
    contactNo: Option<string>,
    cellNo: Option<string>,
    region: Option<string>,
    customerType: Option<string>,
    createdAt: Date,
    updatedAt: Date)

  /** The schema's validators: `accountType`, `accountCode` and `description` are required
      strings, so none may be empty. */
  predicate Conforms(a: Account) {
    a.accountType != "" && a.accountCode != "" && a.description != ""
  }

  /** The unique index on `accountCode`, across all account types. */
  predicate UniqueCodes(s: seq<Account>) {
    forall i, j :: 0 <= i < j < |s| ==> s[i].accountCode != s[j].accountCode
  }

  predicate CodeTaken(s: seq<Account>, code: string) {
    exists i :: 0 <= i < |s| && s[i].accountCode == code
  }

  /** The pre-save hook: every save sets `updatedAt` to the current day. */
  function PreSave(a: Account, now: Date): Account {
    a.(updatedAt := now)
  }

  /** `Account.create(doc)`: cast every schema path of `doc`, default both timestamps to
      today, run the pre-save hook, then validate. The unique index is checked by the caller. */
  function Create(doc: Body, id: nat, now: Date): (r: Option<Account>)
    ensures r.Some? ==> Conforms(r.value)
    ensures r.Some? ==> r.value.id == id && r.value.createdAt == now && r.value.updatedAt == now
    ensures r.Some? ==> StringAt(doc, "accountCode") == Given(r.value.accountCode)
    ensures r.Some? ==> StringAt(doc, "accountType") == Given(r.value.accountType)
    ensures r.Some? ==> StringAt(doc, "description") == Given(r.value.description)
    ensures r.Some? ==> r.value.contactNo == Present(StringAt(doc, "contactNo"))
    ensures r.Some? ==> r.value.cellNo == Present(StringAt(doc, "cellNo"))
  {
    var accountType :- Required(StringAt(doc, "accountType"));
    var accountCode :- Required(StringAt(doc, "accountCode"));
    var description :- Required(StringAt(doc, "description"));
    var address :- Optional(StringAt(doc, "address"));
    var contactNo :- Optional(StringAt(doc, "contactNo"));
    var cellNo :- Optional(StringAt(doc, "cellNo"));
    var region :- Optional(StringAt(doc, "region"));
    var customerType :- Optional(StringAt(doc, "customerType"));
    var a := PreSave(Account(id, accountType, accountCode, description, address, contactNo,
                             cellNo, region, customerType, now, now), now);
    if Conforms(a) then Some(a) else None
  }

  /** The document a stored account was created from: every path with its value. */
  function ToDoc(a: Account): Body {
    map[
      "accountType" := JStr(a.accountType),
      "accountCode" := JStr(a.accountCode),
      "description" := JStr(a.description),
      "address" := OptText(a.address),
      "contactNo" := OptText(a.contactNo),
      "cellNo" := OptText(a.cellNo),
      "region" := OptText(a.region),
      "customerType" := OptText(a.customerType)]
  }

  /** Round trip: every valid account created on one day is what `create` stores for its own
      document, so `create` keeps every field as given. */
  lemma CreateRoundTrip(a: Account)
    requires Conforms(a) && a.updatedAt == a.createdAt
    ensures Create(ToDoc(a), a.id, a.createdAt) == Some(a)
  {
    ToDocRequired(a);
    ToDocContact(a);
    ToDocPlace(a);
  }

  /** Each path of a rendered document casts back to the field it was written from. */
  lemma ToDocRequired(a: Account)
    ensures var d := ToDoc(a);
      StringAt(d, "accountType") == Given(a.accountType) &&
      StringAt(d, "accountCode") == Given(a.accountCode) &&
      StringAt(d, "description") == Given(a.description)
  {
  }

  lemma ToDocContact(a: Account)
    ensures var d := ToDoc(a);
      StringAt(d, "address") == OptField(a.address) &&
      StringAt(d, "contactNo") == OptField(a.contactNo) &&
      StringAt(d, "cellNo") == OptField(a.cellNo)
  {
  }

  lemma ToDocPlace(a: Account)
    ensures var d := ToDoc(a);
      StringAt(d, "region") == OptField(a.region) &&
      StringAt(d, "customerType") == OptField(a.customerType)
  {
  }

  /** The schema paths an update may set; any other key is dropped (strict mode). */
  const Paths: set<string> :=
    {"accountType", "accountCode", "description", "address", "contactNo", "cellNo", "region", "customerType"}

  /** `findByIdAndUpdate(id, update)` without `runValidators`: each schema path in `update`
      is cast and replaces the stored value; validators and the pre-save hook do not run, so
      `updatedAt` is left as it was. */
  function Patch(a: Account, update: Body): (r: Option<Account>)
    ensures r.Some? ==> r.value.id == a.id && r.value.createdAt == a.createdAt && r.value.updatedAt == a.updatedAt
    ensures update == map[] ==> r == Some(a)
  {
    var accountType :- PatchValue(a.accountType, StringAt(update, "accountType"));
    var accountCode :- PatchValue(a.accountCode, StringAt(update, "accountCode"));
    var description :- PatchValue(a.description, StringAt(update, "description"));
    var address :- PatchOptional(a.address, StringAt(update, "address"));
    var contactNo :- PatchOptional(a.contactNo, StringAt(update, "contactNo"));
    var cellNo :- PatchOptional(a.cellNo, StringAt(update, "cellNo"));
    var region :- PatchOptional(a.region, StringAt(update, "region"));
    var customerType :- PatchOptional(a.customerType, StringAt(update, "customerType"));
    Some(a.(accountType := accountType, accountCode := accountCode, description := description,
            address := address, contactNo := contactNo, cellNo := cellNo, region := region,
            customerType := customerType))
  }

  /** An update writes every schema path it gives: the given value replaces the stored one,
      `null` clears a nullable path, and a path the update lacks keeps its value. */
  lemma PatchWrites(a: Account, update: Body)
    ensures var r := Patch(a, update);
      r.Some? ==>
        Written(a.accountType, StringAt(update, "accountType"), r.value.accountType) &&
        Written(a.accountCode, StringAt(update, "accountCode"), r.value.accountCode) &&
        Written(a.description, StringAt(update, "description"), r.value.description) &&
        WrittenOptional(a.address, StringAt(update, "address"), r.value.address) &&
        WrittenOptional(a.contactNo, StringAt(update, "contactNo"), r.value.contactNo) &&
        WrittenOptional(a.cellNo, StringAt(update, "cellNo"), r.value.cellNo) &&
        WrittenOptional(a.region, StringAt(update, "region"), r.value.region) &&
        WrittenOptional(a.customerType, StringAt(update, "customerType"), r.value.customerType)
  {
  }

  /** Updating with the whole document of an account `b` stores `b` under the stored
      account's id and timestamps. */
  lemma PatchRoundTrip(a: Account, b: Account)
    ensures Patch(a, ToDoc(b)) == Some(b.(id := a.id, createdAt := a.createdAt, updatedAt := a.updatedAt))
  {
    ToDocRequired(b);
    ToDocContact(b);
    ToDocPlace(b);
  }

  /** Keys that are not schema paths have no effect on an update. */
  lemma PatchIgnoresOtherKeys(a: Account, update: Body, k: string, v: Json)
    requires k !in Paths
    ensures Patch(a, update[k := v]) == Patch(a, update)
  {
    var u := update[k := v];
    forall p | p in Paths ensures StringAt(u, p) == StringAt(update, p) {
      assert p != k;
    }
  }
}
