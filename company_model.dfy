/** The Company schema (models/Company.js): the record, its validation, the unique
    `companyId` index and the automatic timestamps. */
module CompanyModel {
  import opened Wrappers
  import opened Schema
  import opened Calendar

  /** A stored company. `companyId` is not required, so a document may lack it; `isActive`
      is a nullable boolean with a default. */
  datatype Company = Company(
    id: nat,
    companyId: Option<string>,
    name: string,
    address: Option<string>,
    contactNo: Option<string>,
    email: Option<string>,
    isActive: Option<bool>,
    createdAt: Date,
    updatedAt: Date)

  /** The schema's validators: `name` is a required string, so it may not be empty. */
  predicate Conforms(c: Company) {
    c.name != ""
  }

  /** The unique index on `companyId`. The index is not sparse: a company without an id is
      indexed as null, so two of them collide too. */
  predicate UniqueCompanyIds(s: seq<Company>) {
    forall i, j :: 0 <= i < j < |s| ==> s[i].companyId != s[j].companyId
  }

  predicate CompanyIdTaken(s: seq<Company>, companyId: Option<string>) {
    exists i :: 0 <= i < |s| && s[i].companyId == companyId
  }

  /** `Company.create(doc)`: cast every schema path of `doc`, default `isActive` to true when
      it is missing, stamp `createdAt` and `updatedAt` with today, then validate. The unique
      index is checked by the caller. */
  function Create(doc: Body, id: nat, now: Date): (r: Option<Company>)
    ensures r.Some? ==> Conforms(r.value)
    ensures r.Some? ==> r.value.id == id && r.value.createdAt == now && r.value.updatedAt == now
    ensures r.Some? ==> StringAt(doc, "name") == Given(r.value.name)
    ensures r.Some? ==> r.value.companyId == Present(StringAt(doc, "companyId"))
    ensures r.Some? && !("isActive" in doc) ==> r.value.isActive == Some(true)
    ensures r.Some? && BooleanAt(doc, "isActive").Given? ==> r.value.isActive == Some(BooleanAt(doc, "isActive").v)
  {
    var companyId :- Optional(StringAt(doc, "companyId"));
    var name :- Required(StringAt(doc, "name"));
    var address :- Optional(StringAt(doc, "address"));
    var contactNo :- Optional(StringAt(doc, "contactNo"));
    var email :- Optional(StringAt(doc, "email"));
    var isActive :- Defaulted(BooleanAt(doc, "isActive"), true);
    var c := Company(id, companyId, name, address, contactNo, email, isActive, now, now);
    if Conforms(c) then Some(c) else None
  }

  /** The document a stored company was created from. */
  function ToDoc(c: Company): Body {
    map[
      "companyId" := OptText(c.companyId),
      "name" := JStr(c.name),
      "address" := OptText(c.address),
      "contactNo" := OptText(c.contactNo),
      "email" := OptText(c.email),
      "isActive" := OptBool(c.isActive)]
  }

  /** Round trip: `create` stores every valid company created on one day exactly as its own
      document describes it. */
  lemma CreateRoundTrip(c: Company)
    requires Conforms(c) && c.updatedAt == c.createdAt
    ensures Create(ToDoc(c), c.id, c.createdAt) == Some(c)
  {
  }
}
