/** The account handlers (controllers/accountController.js) over an in-memory accounts
    collection: code generation, creation, the listings by type, lookup of a customer by code,
    update and delete. */
module AccountController {
  import opened Wrappers
  import opened Schema
  import opened Calendar
  import opened Text
  import opened Decimal
  import opened Numbering
  import opened Seqs
  import opened AccountModel

  /** `accountType.slice(0, 3).toUpperCase()`, for ASCII account types (see `ToUpper` and
      `Take`). */
  function Prefix(accountType: string): (p: string)
    ensures |p| == Min(3, |accountType|)
    ensures forall i :: 0 <= i < |p| ==> p[i] == UpperChar(accountType[i])
  {
    ToUpper(Take(accountType, 3))
  }

  function TypeIs(t: string): Account -> bool {
    (a: Account) => a.accountType == t
  }

  /** `Account.find({ accountType: t })`: the accounts of exactly that type, in stored order. */
  function OfType(s: seq<Account>, t: string): (r: seq<Account>)
    ensures forall a :: a in r <==> a in s && a.accountType == t
  {
    Filter(s, TypeIs(t))
  }

  lemma OfTypeAppend(s1: seq<Account>, s2: seq<Account>, t: string)
    ensures OfType(s1 + s2, t) == OfType(s1, t) + OfType(s2, t)
  {
    FilterAppend(s1, s2, TypeIs(t));
  }

  /** `generateAccountCode(accountType)`: the type's prefix, `-`, and one more than the number
      of stored accounts of that type, padded to three digits. */
  function GenerateAccountCode(s: seq<Account>, accountType: string): string {
    Code(Prefix(accountType), |OfType(s, accountType)| + 1)
  }

  /** Grammar of an account code: it reads back as the upper-cased first three letters of the
      type and the same-type count plus one; below 999 stored accounts of the type the number
      part is exactly three digits. */
  lemma AccountCodeGrammar(s: seq<Account>, t: string)
    ensures DecodeCode(GenerateAccountCode(s, t)) == Some((Prefix(t), |OfType(s, t)| + 1))
    ensures |OfType(s, t)| < 999 <==> ThreeDigitCode(Prefix(t), GenerateAccountCode(s, t))
  {
    CodeRoundTrip(Prefix(t), |OfType(s, t)| + 1);
    CodeGrammar(Prefix(t), |OfType(s, t)| + 1);
  }

  /** Only accounts of the same type count: adding or removing an account of another type,
      anywhere, never changes the generated code. */
  lemma OtherTypesDoNotCount(s1: seq<Account>, a: Account, s2: seq<Account>, t: string)
    requires a.accountType != t
    ensures GenerateAccountCode(s1 + [a] + s2, t) == GenerateAccountCode(s1 + s2, t)
  {
    FilterSkips(s1, a, s2, TypeIs(t));
  }

  /** Every stored account holds the code the generator gave it when it was appended, with
      nothing deleted since: each type's codes run PREFIX-001, PREFIX-002, ... in creation order. */
  ghost predicate Numbered(s: seq<Account>) {
    forall i {:trigger s[..i]} :: 0 <= i < |s| ==> s[i].accountCode == GenerateAccountCode(s[..i], s[i].accountType)
  }

  /** No stored account of another type shares the prefix of `t`. */
  ghost predicate PrefixOwned(s: seq<Account>, t: string) {
    forall i :: 0 <= i < |s| && s[i].accountType != t ==> Prefix(s[i].accountType) != Prefix(t)
  }

  /** An account of type `t` at position `i` has fewer same-type accounts before it than the whole store. */
  lemma RankBelowCount(s: seq<Account>, i: nat)
    requires i < |s|
    ensures |OfType(s[..i], s[i].accountType)| < |OfType(s, s[i].accountType)|
  {
    var t := s[i].accountType;
    assert s == s[..i] + [s[i]] + s[i + 1..];
    OfTypeAppend(s[..i] + [s[i]], s[i + 1..], t);
    OfTypeAppend(s[..i], [s[i]], t);
    assert OfType([s[i]], t) == [s[i]] by { assert [s[i]][1..] == []; }
  }

  /** Freshness: while codes are numbered and no other type shares the prefix, the next code
      for `t` is not stored yet, so the unique index cannot reject it. */
  lemma {:induction false} FreshAccountCode(s: seq<Account>, t: string)
    requires Numbered(s) && PrefixOwned(s, t)
    ensures !CodeTaken(s, GenerateAccountCode(s, t))
  {
    var n := |OfType(s, t)|;
    CodeRoundTrip(Prefix(t), n + 1);
    forall i | 0 <= i < |s| ensures s[i].accountCode != GenerateAccountCode(s, t) {
      var u := s[i].accountType;
      var k := |OfType(s[..i], u)| + 1;
      CodeRoundTrip(Prefix(u), k);
      if u == t {
        RankBelowCount(s, i);
        assert k != n + 1;
      }
    }
  }

  /** Appending the account the generator numbered keeps the store numbered. */
  lemma CreateKeepsNumbered(s: seq<Account>, a: Account)
    requires Numbered(s)
    requires a.accountCode == GenerateAccountCode(s, a.accountType)
    ensures Numbered(s + [a])
  {
    var s' := s + [a];
    forall i | 0 <= i < |s'|
      ensures s'[i].accountCode == GenerateAccountCode(s'[..i], s'[i].accountType)
    {
      if i < |s| { assert s'[..i] == s[..i]; } else { assert s'[..i] == s; }
    }
  }

  /** The latest account of type `t` has exactly one fewer same-type account before it than
      the whole store. */
  lemma CountAtLatest(s: seq<Account>, j: nat, t: string)
    requires j < |s| && s[j].accountType == t
    requires forall k :: j < k < |s| ==> s[k].accountType != t
    ensures |OfType(s[..j], t)| + 1 == |OfType(s, t)|
  {
    assert s == s[..j] + [s[j]] + s[j + 1..];
    OfTypeAppend(s[..j] + [s[j]], s[j + 1..], t);
    OfTypeAppend(s[..j], [s[j]], t);
    assert OfType([s[j]], t) == [s[j]] by { assert [s[j]][1..] == []; }
    assert OfType(s[j + 1..], t) == [];
  }

  /** In a numbered store, the latest account of type `t` holds the code numbered with the
      type's count. */
  lemma LatestHoldsCount(s: seq<Account>, j: nat, t: string)
    requires Numbered(s)
    requires j < |s| && s[j].accountType == t
    requires forall k :: j < k < |s| ==> s[k].accountType != t
    ensures s[j].accountCode == Code(Prefix(t), |OfType(s, t)|)
  {
    assert s[j].accountCode == GenerateAccountCode(s[..j], t);
    CountAtLatest(s, j, t);
  }

  /** Deleting an account of type `t` that is not the latest of its type lowers the count, so
      the next code for `t` is the latest account's own code: the create that follows is
      refused by the unique index. */
  lemma DeleteThenCreateCollides(s: seq<Account>, i: nat, j: nat, t: string)
    requires Numbered(s)
    requires i < j < |s| && s[i].accountType == t && s[j].accountType == t
    requires forall k :: j < k < |s| ==> s[k].accountType != t
    ensures CodeTaken(RemoveAt(s, i), GenerateAccountCode(RemoveAt(s, i), t))
  {
    var rest := RemoveAt(s, i);
    LatestHoldsCount(s, j, t);
    FilterRemove(s, i, TypeIs(t));
    assert rest[j - 1] == s[j];
  }

  /** Two types with one prefix ("Supplier" and "supplier") share the codes: the first
      account of the second type gets the code of the first account of the first type. */
  lemma SharedPrefixCollides(s: seq<Account>, u: string, t: string)
    requires Numbered(s) && Prefix(u) == Prefix(t)
    requires exists i :: 0 <= i < |s| && s[i].accountType == u
    requires forall i :: 0 <= i < |s| ==> s[i].accountType != t
    ensures CodeTaken(s, GenerateAccountCode(s, t))
  {
    var k := IndexWhere(s, TypeIs(u)).value;
    assert OfType(s[..k], u) == [];
    assert OfType(s, t) == [];
    assert s[k].accountCode == GenerateAccountCode(s, t);
  }

  /** The document `createAccount` hands to `Account.create` (lines 16-25): the generated
      code, and the listed body keys, `contactNumber` renamed to `contactNo` and `cellNumber`
      to `cellNo`. A key that is missing from the body stays missing. */
  function NewDoc(body: Body, code: string): Body {
    var doc := map["accountCode" := JStr(code)];
    var doc := CopyKey(body, "accountType", "accountType", doc);
    var doc := CopyKey(body, "description", "description", doc);
    var doc := CopyKey(body, "address", "address", doc);
    var doc := CopyKey(body, "contactNumber", "contactNo", doc);
    var doc := CopyKey(body, "cellNumber", "cellNo", doc);
    var doc := CopyKey(body, "region", "region", doc);
    CopyKey(body, "customerType", "customerType", doc)
  }

  const BodyKeys: set<string> :=
    {"accountType", "description", "address", "contactNumber", "cellNumber", "region", "customerType"}

  /** Only the listed body keys are read: anything else (`inactive`, a client `accountCode`,
      `contactNo`) is dropped. */
  lemma NewDocReadsOnlyListedKeys(body: Body, code: string, k: string, v: Json)
    requires k !in BodyKeys
    ensures NewDoc(body[k := v], code) == NewDoc(body, code)
  {
  }

  /** The document holds the generated code: no body key is copied over it. */
  lemma NewDocHoldsCode(body: Body, code: string)
    ensures StringAt(NewDoc(body, code), "accountCode") == Given(code)
  {
    var d0 := map["accountCode" := JStr(code)];
    assert "accountType"[7] != "accountCode"[7];
    var d1 := CopyKey(body, "accountType", "accountType", d0);
    assert "accountCode" in d1 && d1["accountCode"] == JStr(code);
    assert "description"[0] != "accountCode"[0];
    var d2 := CopyKey(body, "description", "description", d1);
    assert "accountCode" in d2 && d2["accountCode"] == JStr(code);
    var d5 := CopyKey(body, "cellNumber", "cellNo",
      CopyKey(body, "contactNumber", "contactNo", CopyKey(body, "address", "address", d2)));
    assert "accountCode" in d5 && d5["accountCode"] == JStr(code);
    var d7 := CopyKey(body, "customerType", "customerType", CopyKey(body, "region", "region", d5));
    assert d7 == NewDoc(body, code);
  }

  /** The document holds the body's contact numbers under the schema's names. */
  lemma NewDocRenames(body: Body, code: string)
    ensures StringAt(NewDoc(body, code), "contactNo") == StringAt(body, "contactNumber")
    ensures StringAt(NewDoc(body, code), "cellNo") == StringAt(body, "cellNumber")
  {
    assert "region"[0] != "cellNo"[0];
  }

  /** The document holds the body's type under its own name. */
  lemma NewDocCopiesType(body: Body, code: string)
    ensures StringAt(NewDoc(body, code), "accountType") == StringAt(body, "accountType")
  {
    assert "description"[0] != "accountType"[0];
  }

  /** The document holds the body's description under its own name. */
  lemma NewDocCopiesDescription(body: Body, code: string)
    ensures StringAt(NewDoc(body, code), "description") == StringAt(body, "description")
  {
  }

  /** What a created account holds: the generated code, the body's `contactNumber` as
      `contactNo`, its `cellNumber` as `cellNo`, and the body's other listed strings. */
  lemma CreatedAccountFields(body: Body, code: string, id: nat, today: Date)
    ensures var r := Create(NewDoc(body, code), id, today);
      r.Some? ==>
        r.value.accountCode == code &&
        r.value.contactNo == Present(StringAt(body, "contactNumber")) &&
        r.value.cellNo == Present(StringAt(body, "cellNumber")) &&
        StringAt(body, "accountType") == Given(r.value.accountType) &&
        StringAt(body, "description") == Given(r.value.description)
  {
    NewDocHoldsCode(body, code);
    NewDocRenames(body, code);
    NewDocCopiesType(body, code);
    NewDocCopiesDescription(body, code);
  }

  /** An account as `getCustomerByCode` answers it: `contactNo` and `cellNo` renamed to
      `contactNumber` and `cellNumber`, every other field as stored. */
  datatype CustomerView = CustomerView(
    id: nat,
    accountType: string,
    accountCode: string,
    description: string,
    address: Option<string>,
    contactNumber: Option<string>,
    cellNumber: Option<string>,
    region: Option<string>,
    customerType: Option<string>,
    createdAt: Date,
    updatedAt: Date)

  function Remap(a: Account): CustomerView {
    CustomerView(a.id, a.accountType, a.accountCode, a.description, a.address, a.contactNo,
                 a.cellNo, a.region, a.customerType, a.createdAt, a.updatedAt)
  }

  /** `findById(id)`: the position of the account with that id. */
  function IndexOfId(s: seq<Account>, id: nat): (r: Option<nat>)
    ensures r.Some? ==> r.value < |s| && s[r.value].id == id
    ensures r.None? ==> forall i :: 0 <= i < |s| ==> s[i].id != id
  {
    IndexWhere(s, (a: Account) => a.id == id)
  }

  predicate CodeTakenByOther(s: seq<Account>, i: nat, code: string) {
    exists j :: 0 <= j < |s| && j != i && s[j].accountCode == code
  }

  /** The update casts: every schema path it sets has a string, and required paths are not null. */
  predicate UpdateCasts(update: Body) {
    Patch(Account(0, "", "", "", None, None, None, None, None, Date(0, 0, 0), Date(0, 0, 0)), update).Some?
  }

  /** Deleting an account lowers the count of its type by one. */
  lemma DeleteLowersTypeCount(s: seq<Account>, i: nat)
    requires i < |s|
    ensures |OfType(RemoveAt(s, i), s[i].accountType)| == |OfType(s, s[i].accountType)| - 1
  {
    FilterRemove(s, i, TypeIs(s[i].accountType));
  }

  /** Removing one document keeps the remaining ones in id order and below `n`, and keeps their
      codes distinct. */
  lemma RemoveKeepsOrder(s: seq<Account>, i: nat, n: nat)
    requires i < |s|
    requires UniqueCodes(s)
    requires forall a, b :: 0 <= a < b < |s| ==> s[a].id < s[b].id
    requires forall a :: 0 <= a < |s| ==> s[a].id < n
    ensures var r := RemoveAt(s, i);
      UniqueCodes(r) && (forall a, b :: 0 <= a < b < |r| ==> r[a].id < r[b].id) &&
      forall a :: 0 <= a < |r| ==> r[a].id < n
  {
    var r := RemoveAt(s, i);
    forall a, b | 0 <= a < b < |r|
      ensures r[a].accountCode != r[b].accountCode && r[a].id < r[b].id
    {
      var a2 := if a < i then a else a + 1;
      var b2 := if b < i then b else b + 1;
      assert r[a] == s[a2] && r[b] == s[b2];
    }
    forall a | 0 <= a < |r|
      ensures r[a].id < n
    {
      assert r[a] == s[if a < i then a else a + 1];
    }
  }

  /** Appending an account with the next id and a fresh code keeps the unique index, the
      order of ids and the bound on them. */
  lemma AppendKeepsOrder(s: seq<Account>, x: Account, n: nat)
    requires UniqueCodes(s) && !CodeTaken(s, x.accountCode) && x.id == n
    requires forall a, b :: 0 <= a < b < |s| ==> s[a].id < s[b].id
    requires forall a :: 0 <= a < |s| ==> s[a].id < n
    ensures var r := s + [x];
      UniqueCodes(r) && (forall a, b :: 0 <= a < b < |r| ==> r[a].id < r[b].id) &&
      forall a :: 0 <= a < |r| ==> r[a].id < n + 1
  {
  }

  /** The accounts collection. */
  class AccountStore {
    var accounts: seq<Account>
    var nextId: nat

    /** Ids increase in insertion order and stay below `nextId`; codes obey the unique index. */
    ghost predicate Valid()
      reads this
    {
      UniqueCodes(accounts) &&
      (forall i, j :: 0 <= i < j < |accounts| ==> accounts[i].id < accounts[j].id) &&
      (forall i :: 0 <= i < |accounts| ==> accounts[i].id < nextId)
    }

    constructor ()
      ensures Valid() && accounts == []
    {
      accounts := [];
      nextId := 0;
    }

    /** `createAccount`: a body without a string `accountType` makes the code generator throw;
        otherwise the generated code and the listed body fields go to `Account.create`, which
        fails on a missing required field or a code already stored. Every failure is 400 and
        stores nothing. */
    method CreateAccount(body: Body, today: Date) returns (r: Outcome<Account>)
      requires Valid()
      modifies this
      ensures Valid()
      ensures !StringAt(body, "accountType").Given? ==> r == Err(400) && accounts == old(accounts)
      ensures StringAt(body, "accountType").Given? ==>
        var code := GenerateAccountCode(old(accounts), StringAt(body, "accountType").v);
        match Create(NewDoc(body, code), old(nextId), today)
        case None => r == Err(400) && accounts == old(accounts)
        case Some(a) =>
          if CodeTaken(old(accounts), code) then r == Err(400) && accounts == old(accounts)
          else r == Ok(201, a) && accounts == old(accounts) + [a]
    {
      var accountType := StringAt(body, "accountType");
      if !accountType.Given? {
        return Err(400);
      }
      var code := GenerateAccountCode(accounts, accountType.v);
      var created := Create(NewDoc(body, code), nextId, today);
      if created.None? || CodeTaken(accounts, code) {
        return Err(400);
      }
      CreatedAccountFields(body, code, nextId, today);
      AppendKeepsOrder(accounts, created.value, nextId);
      accounts := accounts + [created.value];
      nextId := nextId + 1;
      return Ok(201, created.value);
    }

    /** `getAllAccounts`: every stored account. */
    method GetAllAccounts() returns (r: seq<Account>)
      ensures r == accounts
    {
      r := accounts;
    }

    /** `getSuppliers`: the accounts of type "Supplier". */
    method GetSuppliers() returns (r: seq<Account>)
      ensures forall a :: a in r <==> a in accounts && a.accountType == "Supplier"
      ensures r == OfType(accounts, "Supplier")
    {
      r := OfType(accounts, "Supplier");
    }

    /** `getCustomers`: the accounts of type "Customer". This handler and `getPurchasers`
        differ from `getSuppliers` only in the type they filter on. */
    method GetCustomers() returns (r: seq<Account>)
      ensures forall a :: a in r <==> a in accounts && a.accountType == "Customer"
      ensures r == OfType(accounts, "Customer")
    {
      r := OfType(accounts, "Customer");
    }

    /** `getPurchasers`: the accounts of type "Purchaser". */
    method GetPurchasers() returns (r: seq<Account>)
      ensures forall a :: a in r <==> a in accounts && a.accountType == "Purchaser"
      ensures r == OfType(accounts, "Purchaser")
    {
      r := OfType(accounts, "Purchaser");
    }

    /** `getCustomerByCode`: the customer with exactly that code, remapped, or 404. Accounts of
        other types with that code are not found. */
    method GetCustomerByCode(code: string) returns (r: Outcome<CustomerView>)
      ensures r.Ok? <==>
        exists i :: 0 <= i < |accounts| && accounts[i].accountType == "Customer" && accounts[i].accountCode == code
      ensures r.Ok? ==> r.status == 200
      ensures r.Ok? ==>
        exists i :: 0 <= i < |accounts| && accounts[i].accountType == "Customer" &&
          accounts[i].accountCode == code && r.value == Remap(accounts[i])
      ensures r.Err? ==> r.status == 404
    {
      var k := IndexWhere(accounts, (a: Account) => a.accountType == "Customer" && a.accountCode == code);
      if k.None? {
        return Err(404);
      }
      return Ok(200, Remap(accounts[k.value]));
    }

    /** `updateAccount`: an update that does not cast is 400; an unknown id is 404; an update
        whose code another account holds is 400; otherwise the account is replaced in place
        and returned. Nothing changes on any failure. */
    method UpdateAccount(id: nat, update: Body) returns (r: Outcome<Account>)
      requires Valid()
      modifies this
      ensures Valid() && nextId == old(nextId)
      ensures !UpdateCasts(update) ==> r == Err(400) && accounts == old(accounts)
      ensures UpdateCasts(update) ==>
        match IndexOfId(old(accounts), id)
        case None => r == Err(404) && accounts == old(accounts)
        case Some(i) =>
          var a := Patch(old(accounts)[i], update);
          a.Some? &&
          if CodeTakenByOther(old(accounts), i, a.value.accountCode) then r == Err(400) && accounts == old(accounts)
          else r == Ok(200, a.value) && accounts == old(accounts)[i := a.value]
    {
      if !UpdateCasts(update) {
        return Err(400);
      }
      var k := IndexOfId(accounts, id);
      if k.None? {
        return Err(404);
      }
      var i := k.value;
      var a := Patch(accounts[i], update);
      assert a.Some?;
      if CodeTakenByOther(accounts, i, a.value.accountCode) {
        return Err(400);
      }
      accounts := accounts[i := a.value];
      return Ok(200, a.value);
    }

    /** `deleteAccount`: an unknown id is 404 and changes nothing; otherwise exactly that
        account is removed, and its type's count drops by one. */
    method DeleteAccount(id: nat) returns (r: Outcome<()>)
      requires Valid()
      modifies this
      ensures Valid() && nextId == old(nextId)
      ensures match IndexOfId(old(accounts), id)
        case None => r == Err(404) && accounts == old(accounts)
        case Some(i) =>
          r == Ok(200, ()) && accounts == RemoveAt(old(accounts), i) &&
          |OfType(accounts, old(accounts)[i].accountType)| == |OfType(old(accounts), old(accounts)[i].accountType)| - 1
    {
      var k := IndexOfId(accounts, id);
      if k.None? {
        return Err(404);
      }
      var i := k.value;
      DeleteLowersTypeCount(accounts, i);
      RemoveKeepsOrder(accounts, i, nextId);
      accounts := RemoveAt(accounts, i);
      return Ok(200, ());
    }
  }
}
