/** The company handlers (controllers/companyController.js) over an in-memory companies
    collection: id generation, creation and the listing. */
module CompanyController {
  import opened Wrappers
  import opened Schema
  import opened Calendar
  import opened Decimal
  import opened Numbering
  import opened CompanyModel

  /** `generateCompanyId()`: `COMP-` and one more than the number of stored companies,
      padded to three digits. */
  function GenerateCompanyId(s: seq<Company>): string {
    Code("COMP", |s| + 1)
  }

  /** Grammar of a company id: it reads back as `COMP` and the count plus one; below 999
      stored companies the number part is exactly three digits. */
  lemma CompanyIdGrammar(s: seq<Company>)
    ensures DecodeCode(GenerateCompanyId(s)) == Some(("COMP", |s| + 1))
    ensures |s| < 999 <==> ThreeDigitCode("COMP", GenerateCompanyId(s))
  {
    CodeRoundTrip("COMP", |s| + 1);
    CodeGrammar("COMP", |s| + 1);
  }

  /** The store as successive creates leave it with no deletions: the company at position
      `i` holds `COMP-` and `i + 1`. */
  ghost predicate Sequential(s: seq<Company>) {
    forall i :: 0 <= i < |s| ==> s[i].companyId == Some(Code("COMP", i + 1))
  }

  /** In a sequential store the ids are pairwise distinct: the unique index holds. */
  lemma SequentialIdsDistinct(s: seq<Company>)
    requires Sequential(s)
    ensures UniqueCompanyIds(s)
  {
    forall i, j | 0 <= i < j < |s| ensures s[i].companyId != s[j].companyId {
      if s[i].companyId == s[j].companyId {
        CodeInjective("COMP", i + 1, "COMP", j + 1);
      }
    }
  }

  /** In a sequential store of at most 999 companies every id is `COMP-` and three digits. */
  lemma SequentialIdsThreeDigits(s: seq<Company>)
    requires Sequential(s) && |s| <= 999
    ensures forall i :: 0 <= i < |s| ==> ThreeDigitCode("COMP", s[i].companyId.value)
  {
    forall i | 0 <= i < |s| ensures ThreeDigitCode("COMP", s[i].companyId.value) {
      CodeGrammar("COMP", i + 1);
    }
  }

  /** In a sequential store the next id is not stored yet, so the unique index never rejects it. */
  lemma {:induction false} SequentialIdFresh(s: seq<Company>)
    requires Sequential(s)
    ensures !CompanyIdTaken(s, Some(GenerateCompanyId(s)))
  {
    forall i | 0 <= i < |s| ensures s[i].companyId != Some(GenerateCompanyId(s)) {
      CodeRoundTrip("COMP", i + 1);
      CodeRoundTrip("COMP", |s| + 1);
    }
  }

  /** `req.body.isActive ?? true`: the body's value unless it is missing or null. */
  function ActiveOrTrue(body: Body): Json {
    if "isActive" in body && body["isActive"] != JNull then body["isActive"] else JBool(true)
  }

  /** The document `createCompany` hands to `Company.create` (lines 14-21): the generated id,
      the four listed body keys, and `isActive` with its fallback. */
  function NewDoc(body: Body, companyId: string): Body {
    var doc := map["companyId" := JStr(companyId), "isActive" := ActiveOrTrue(body)];
    var doc := CopyKey(body, "name", "name", doc);
    var doc := CopyKey(body, "address", "address", doc);
    var doc := CopyKey(body, "contactNo", "contactNo", doc);
    CopyKey(body, "email", "email", doc)
  }

  const BodyKeys: set<string> := {"name", "address", "contactNo", "email", "isActive"}

  /** Only the listed body keys are read: a client `companyId`, or any other key, is dropped. */
  lemma NewDocReadsOnlyListedKeys(body: Body, companyId: string, k: string, v: Json)
    requires k !in BodyKeys
    ensures NewDoc(body[k := v], companyId) == NewDoc(body, companyId)
  {
  }

  /** What a created company holds: the generated id whatever the body says, the body's
      name, and `isActive` true when the body has none or null, the body's boolean otherwise
      (an explicit false is kept). */
  lemma CreatedCompanyFields(body: Body, companyId: string, id: nat, today: Date)
    ensures var r := Create(NewDoc(body, companyId), id, today);
      r.Some? ==>
        r.value.companyId == Some(companyId) &&
        StringAt(body, "name") == Given(r.value.name) &&
        (BooleanAt(body, "isActive").Absent? || BooleanAt(body, "isActive").Null? ==> r.value.isActive == Some(true)) &&
        (BooleanAt(body, "isActive").Given? ==> r.value.isActive == Some(BooleanAt(body, "isActive").v))
  {
  }

  /** A stored company created through the handler is never inactive by omission: its
      `isActive` is always set. */
  lemma CreatedCompanyHasActivity(body: Body, companyId: string, id: nat, today: Date)
    ensures var r := Create(NewDoc(body, companyId), id, today);
      r.Some? ==> r.value.isActive.Some?
  {
  }

  /** The companies collection. */
  class CompanyStore {
    var companies: seq<Company>
    var nextId: nat

    /** Ids stay below `nextId`; `companyId` obeys the unique index. */
    ghost predicate Valid()
      reads this
    {
      UniqueCompanyIds(companies) &&
      (forall i :: 0 <= i < |companies| ==> companies[i].id < nextId)
    }

    constructor ()
      ensures Valid() && companies == [] && Sequential(companies)
    {
      companies := [];
      nextId := 0;
    }

    /** `createCompany`: the generated id and the listed body fields go to `Company.create`;
        a failed validation or an id already stored is 500 and stores nothing. Otherwise the
        company is appended and returned with 201; a sequential store stays sequential. */
    method CreateCompany(body: Body, today: Date) returns (r: Outcome<Company>)
      requires Valid()
      modifies this
      ensures Valid()
      ensures var companyId := GenerateCompanyId(old(companies));
        match Create(NewDoc(body, companyId), old(nextId), today)
        case None => r == Err(500) && companies == old(companies)
        case Some(c) =>
          if CompanyIdTaken(old(companies), Some(companyId)) then r == Err(500) && companies == old(companies)
          else r == Ok(201, c) && companies == old(companies) + [c]
      ensures Sequential(old(companies)) ==> Sequential(companies)
      ensures Sequential(old(companies)) && r.Err? ==> Create(NewDoc(body, GenerateCompanyId(old(companies))), old(nextId), today).None?
    {
      var companyId := GenerateCompanyId(companies);
      var created := Create(NewDoc(body, companyId), nextId, today);
      if created.None? {
        return Err(500);
      }
      if Sequential(companies) {
        SequentialIdFresh(companies);
      }
      if CompanyIdTaken(companies, Some(companyId)) {
        return Err(500);
      }
      ghost var before := companies;
      companies := companies + [created.value];
      nextId := nextId + 1;
      if Sequential(before) {
        assert companies[|before|].companyId == Some(companyId);
      }
      return Ok(201, created.value);
    }

    /** `getCompanies`: every stored company, unchanged. */
    method GetCompanies() returns (r: seq<Company>)
      ensures r == companies
    {
      r := companies;
    }
  }
}
