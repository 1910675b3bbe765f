# Distributor back end: a verified model of the record handlers

This project models the core of a distributor's back-office back end: accounts (suppliers,
customers, purchasers), companies, items, sales invoices and purchase invoices. Each kind of
record has two parts:

- A schema module (`AccountModel`, `CompanyModel`, `ItemModel`, `InvoiceModel`,
  `PurchaseInvoiceModel`). It holds the record type, the schema's validators, its unique
  index, its defaults and timestamps. It also holds what `create` and a validated
  `findByIdAndUpdate` do to a request body.
- A handler module (`AccountController`, `CompanyController`, `ItemController`,
  `InvoiceController`, `PurchaseInvoiceController`). Here the collection is a class over an
  in-memory sequence, and each request handler is a method that returns an HTTP status with
  the record.

The handlers also hold the code generators:

- `SUP-001`-style account codes, counted per account type;
- `COMP-001` company ids, counted over all companies;
- `ITEM-001` item codes, derived from the greatest stored code;
- `INV-YYYYMMDD-001` and `PINV-YYYYMMDD-001` invoice numbers, counted per day.

Shared modules:

- `Schema`: request bodies as JSON values; reading, casting, required paths, defaults and
  update paths.
- `Numbering`: the padded `PREFIX-NNN` and dated codes, with their decoders.
- `Decimal` and `Text`: digits, padding, `parseInt`, string order, `split`, upper case.
- `Seqs`: filtering, search, removal, and a stable sort specified as sorted and a
  permutation.

Inputs that come from the environment are parameters: the current day, the generated record
ids (a per-collection counter), and the accounts collection the invoice handlers consult.

Every handler states all of its outcomes: each error status, the record it stores or
returns, and that nothing changes on failure. Each generator has a decoder and a round-trip
lemma. The lemmas state what the generators promise, and where a promise breaks: after a
deletion, between types sharing a prefix, and past `ITEM-999`.

## Model

| member | source | states |
|---|---|---|
| AccountController.GenerateAccountCode | distributor-backend/controllers/accountController.js:4-9 | the type's prefix, `-`, and the count of stored accounts of that type plus one, padded to three digits; what it promises is stated by `AccountCodeGrammar`, `OtherTypesDoNotCount` and `FreshAccountCode` |
| AccountController.Prefix | distributor-backend/controllers/accountController.js:5 | the prefix is the type's first three characters (or fewer), upper-cased |
| AccountController.OfType | distributor-backend/controllers/accountController.js:6 | an account is counted iff it is stored and has exactly that type |
| AccountController.AccountCodeGrammar | distributor-backend/controllers/accountController.js:4-9 | a generated code decodes to the prefix and the same-type count plus one; it has three digits iff fewer than 999 accounts of the type exist |
| AccountController.OtherTypesDoNotCount | distributor-backend/controllers/accountController.js:6 | an account of another type, anywhere in the store, never changes the generated code |
| AccountController.FreshAccountCode | distributor-backend/controllers/accountController.js:4-9 | with no deletions and no type sharing the prefix, the next code is not stored yet |
| AccountController.CreateKeepsNumbered | distributor-backend/controllers/accountController.js:14-25 | appending the account the generator numbered keeps every stored code equal to its generated code |
| AccountController.LatestHoldsCount | distributor-backend/controllers/accountController.js:4-9 | in a numbered store, the latest account of a type holds the code numbered with that type's count |
| AccountController.DeleteThenCreateCollides | distributor-backend/controllers/accountController.js:4-9 | after deleting an account that is not the latest of its type, the next generated code is already stored |
| AccountController.SharedPrefixCollides | distributor-backend/controllers/accountController.js:5-6 | two types with one prefix share codes: the first account of the new type gets a stored code |
| AccountController.NewDoc | distributor-backend/controllers/accountController.js:16-25 | the document handed to `create`: the seven listed body keys, `contactNumber` and `cellNumber` renamed, and the generated code; stated by `NewDocReadsOnlyListedKeys`, `NewDocHoldsCode` and `NewDocRenames` |
| AccountController.NewDocReadsOnlyListedKeys | distributor-backend/controllers/accountController.js:16-25 | body keys other than the seven listed never reach `create` |
| AccountController.NewDocHoldsCode | distributor-backend/controllers/accountController.js:14-18 | the document handed to `create` holds the generated code, whatever the body holds |
| AccountController.NewDocRenames | distributor-backend/controllers/accountController.js:21-22 | the document holds the body's `contactNumber` as `contactNo` and its `cellNumber` as `cellNo` |
| AccountController.CreatedAccountFields | distributor-backend/controllers/accountController.js:16-25 | a created account has the generated code, `contactNumber` as `contactNo`, `cellNumber` as `cellNo`, and the body's type and description |
| AccountController.IndexOfId | distributor-backend/controllers/accountController.js:110-113 | the position found holds that id; none means no account has it |
| AccountController.AccountStore.CreateAccount | distributor-backend/controllers/accountController.js:12-31 | no string type, a failed validation or a taken code gives 400 and stores nothing; otherwise the created account is appended with 201 |
| AccountController.AccountStore.GetAllAccounts | distributor-backend/controllers/accountController.js:34-41 | every stored account in stored order |
| AccountController.AccountStore.GetSuppliers | distributor-backend/controllers/accountController.js:44-51 | exactly the accounts of type "Supplier" |
| AccountController.AccountStore.GetCustomers | distributor-backend/controllers/accountController.js:54-61 | exactly the accounts of type "Customer" |
| AccountController.AccountStore.GetPurchasers | distributor-backend/controllers/accountController.js:98-105 | exactly the accounts of type "Purchaser" |
| AccountController.AccountStore.GetCustomerByCode | distributor-backend/controllers/accountController.js:70-89 | 200 iff a customer has that code, answered with `contactNo`/`cellNo` renamed; 404 otherwise |
| AccountController.AccountStore.UpdateAccount | distributor-backend/controllers/accountController.js:108-118 | an update that does not cast is 400, an unknown id 404, a code held by another account 400; otherwise the account is replaced in place by `AccountModel.Patch`, which writes every path the update gives (`AccountModel.PatchWrites`) |
| AccountController.AccountStore.DeleteAccount | distributor-backend/controllers/accountController.js:121-129 | an unknown id is 404 with nothing changed; otherwise exactly that account is removed and its type's count drops by one |
| AccountModel.Conforms | distributor-backend/models/Account.js:4-6 | the validators: type, code and description are required strings, so none is empty |
| AccountModel.PreSave | distributor-backend/models/Account.js:16-19 | the pre-save hook sets `updatedAt` to the current day and changes nothing else |
| AccountModel.Create | distributor-backend/models/Account.js:3-19 | a created account passes the validators, has today's timestamps, and takes its code and contact numbers from the document |
| AccountModel.CreateRoundTrip | distributor-backend/models/Account.js:3-14 | `create` stores every valid account exactly as its own document describes it |
| AccountModel.PatchWrites | distributor-backend/controllers/accountController.js:110-112 | an update writes each schema path it gives: a value replaces the stored one, `null` clears a nullable path, a path left out keeps its value |
| AccountModel.PatchRoundTrip | distributor-backend/controllers/accountController.js:110-112 | updating with the whole document of an account stores that account under the stored id and timestamps |
| AccountModel.Patch | distributor-backend/controllers/accountController.js:110-112 | an update keeps the id and both timestamps; the empty update changes nothing |
| AccountModel.PatchIgnoresOtherKeys | distributor-backend/models/Account.js:3-14 | keys that are not schema paths have no effect on an update |
| CompanyController.GenerateCompanyId | distributor-backend/controllers/companyController.js:4-8 | `COMP-` and the count of stored companies plus one, padded to three digits; stated by `CompanyIdGrammar`, `SequentialIdsDistinct` and `SequentialIdFresh` |
| CompanyController.CompanyIdGrammar | distributor-backend/controllers/companyController.js:3-8 | a company id decodes to `COMP` and the count plus one; it has three digits iff fewer than 999 companies exist |
| CompanyController.SequentialIdsDistinct | distributor-backend/controllers/companyController.js:3-8 | ids given by successive creates are pairwise distinct, so the unique index holds |
| CompanyController.SequentialIdsThreeDigits | distributor-backend/controllers/companyController.js:5-7 | up to 999 companies every id is `COMP-` and three digits |
| CompanyController.SequentialIdFresh | distributor-backend/controllers/companyController.js:3-8 | with no deletions the next id is not stored yet |
| CompanyController.NewDoc | distributor-backend/controllers/companyController.js:14-21 | the document handed to `create`: the generated id, the four listed body keys, and `isActive ?? true`; stated by `NewDocReadsOnlyListedKeys` and `CreatedCompanyFields` |
| CompanyController.NewDocReadsOnlyListedKeys | distributor-backend/controllers/companyController.js:14-21 | a client `companyId`, or any key but the five listed, never reaches `create` |
| CompanyController.CreatedCompanyFields | distributor-backend/controllers/companyController.js:14-21 | a created company has the generated id and the body's name; `isActive` is true when missing or null and the body's boolean otherwise |
| CompanyController.CreatedCompanyHasActivity | distributor-backend/controllers/companyController.js:20 | a company created by the handler always has `isActive` set |
| CompanyController.CompanyStore.CreateCompany | distributor-backend/controllers/companyController.js:10-28 | a failed validation or a taken id is 500 and stores nothing; otherwise the company is appended with 201; sequential ids stay sequential, so a sequential store fails only on validation |
| CompanyController.CompanyStore.GetCompanies | distributor-backend/controllers/companyController.js:30-37 | every stored company |
| CompanyModel.Conforms | distributor-backend/models/Company.js:3-12 | the validators: the name is a required string, so it is not empty |
| CompanyModel.Create | distributor-backend/models/Company.js:3-12 | a created company has a name, today's timestamps, the document's id, and `isActive` true unless given |
| CompanyModel.CreateRoundTrip | distributor-backend/models/Company.js:3-12 | `create` stores every valid company exactly as its own document describes it |
| ItemController.NextItemCode | distributor-backend/controllers/itemController.js:7-13 | `ITEM-001` for an empty store, otherwise the number parsed from the greatest code (in string order) plus one, padded to three digits; stated by `NextFollowsGreatest`, `ThreeDigitRegime`, `MaxBasedNotCountBased` and `ItemThousandCollides` |
| ItemController.ItemSuffixRoundTrip | distributor-backend/controllers/itemController.js:11 | splitting `ITEM-nnn` at `-` and parsing the second piece gives back the number |
| ItemController.NextFollowsGreatest | distributor-backend/controllers/itemController.js:7-12 | when the greatest code in string order is `ITEM-` and n, the next code is `ITEM-` and n + 1 |
| ItemController.ItemCodesOrderNumerically | distributor-backend/controllers/itemController.js:7 | below 1000, the string order of item codes is the numeric order of their numbers |
| ItemController.GreatestCodeHoldsGreatestNumber | distributor-backend/controllers/itemController.js:7 | when string order mirrors numeric order, the greatest code carries the greatest number |
| ItemController.AboveAllIsFresh | distributor-backend/controllers/itemController.js:12 | a number above every stored one gives a code that is not stored |
| ItemController.ThreeDigitRegime | distributor-backend/controllers/itemController.js:7-12 | below 1000 the next code is the greatest number plus one, and it is not stored |
| ItemController.MaxBasedNotCountBased | distributor-backend/controllers/itemController.js:7-12 | with ITEM-001, ITEM-002 and ITEM-007 stored, the next code is ITEM-008 |
| ItemController.BelowItem999 | distributor-backend/controllers/itemController.js:7 | up to 1000, every item code but ITEM-999 sorts below ITEM-999, ITEM-1000 included |
| ItemController.ItemThousandCollides | distributor-backend/controllers/itemController.js:7-19 | once ITEM-999 and ITEM-1000 are stored, the next code is ITEM-1000 again, which is stored |
| ItemController.CodeOrderIsTotalPreorder | distributor-backend/controllers/itemController.js:33 | ascending code order is total and transitive |
| ItemController.IndexOfId | distributor-backend/controllers/itemController.js:46-53 | the position found holds that id; none means no item has it |
| ItemController.NewDoc | distributor-backend/controllers/itemController.js:16-19 | the derived code replaces any body code and every other body key passes through unchanged |
| ItemController.ItemStore.CreateItem | distributor-backend/controllers/itemController.js:4-28 | the derived code replaces the body's; a failed validation or a taken code is 400 and stores nothing; otherwise the item is appended with 201 |
| ItemController.ItemStore.GetItems | distributor-backend/controllers/itemController.js:31-41 | every stored item exactly once, in ascending code order |
| ItemController.ItemStore.UpdateItem | distributor-backend/controllers/itemController.js:44-63 | an update that fails its validators is 400 (before any lookup), an unknown id 404, a code held by another item 400; otherwise the item is replaced by `ItemModel.Patch`, which writes every path the update gives (`ItemModel.PatchWrites`) and stamps today |
| ItemController.ItemStore.DeleteItem | distributor-backend/controllers/itemController.js:66-84 | an unknown id is 404 with nothing changed; otherwise exactly that item is removed |
| ItemModel.Conforms | distributor-backend/models/Item.js:4-5 | the validators: code and description are required strings, so neither is empty |
| ItemModel.Create | distributor-backend/models/Item.js:3-14 | a created item passes the validators, has today's timestamps, the document's code and description, and the defaults for each missing path |
| ItemModel.CreateKeepsGiven | distributor-backend/models/Item.js:6-11 | each optional path the document gives is stored with that value, overriding its default |
| ItemModel.CreateKeepsNull | distributor-backend/models/Item.js:6-11 | a defaulted path set to null is stored as null: the default fills a missing value only |
| ItemModel.CreateRoundTrip | distributor-backend/models/Item.js:3-14 | every valid item is stored exactly as its own document describes it |
| ItemModel.PatchWrites | distributor-backend/controllers/itemController.js:46-50 | a validated update writes each schema path it gives: a value replaces the stored one, `null` clears a nullable path, a path left out keeps its value |
| ItemModel.PatchRoundTrip | distributor-backend/controllers/itemController.js:46-50 | updating with the whole document of a valid item stores that item under the stored id and creation time, stamped today |
| ItemModel.Patch | distributor-backend/controllers/itemController.js:46-50 | a validated update keeps the id and `createdAt`, sets `updatedAt` to today, and the empty update changes only `updatedAt` |
| ItemModel.PatchIgnoresOtherKeys | distributor-backend/models/Item.js:3-11 | keys that are not schema paths have no effect on an update |
| ItemModel.PatchKeepsRequired | distributor-backend/models/Item.js:4-5 | an update that sets `code` or `description` to null or to the empty string fails |
| ItemModel.PatchSucceedsIffValidates | distributor-backend/controllers/itemController.js:49 | on any stored item an update succeeds iff it passes the update validators, which look at the update alone |
| InvoiceController.NextInvoiceNumber | distributor-backend/controllers/invoiceController.js:159-177 | `INV-`, today as eight digits, `-`, and the count of invoices created today plus one, padded to three digits; stated by `InvoiceNumberGrammar`, `OtherDaysDoNotCount` and `NumbersOfDifferentDaysDiffer` |
| InvoiceController.CreatedToday | distributor-backend/controllers/invoiceController.js:167-175 | an invoice is counted iff it is stored and was created that day |
| InvoiceController.InvoiceNumberGrammar | distributor-backend/controllers/invoiceController.js:159-177 | the preview decodes to today and the day's count plus one; it has the `INV-` 8-digit `-` 3-digit shape below 999 a day |
| InvoiceController.OtherDaysDoNotCount | distributor-backend/controllers/invoiceController.js:167-175 | an invoice created on another day never changes the preview |
| InvoiceController.NumbersOfDifferentDaysDiffer | distributor-backend/controllers/invoiceController.js:177 | previews of different days differ whatever the stores hold |
| InvoiceController.SameDayDeleteRepeats | distributor-backend/controllers/invoiceController.js:167-177 | after deleting one of today's invoices, the preview repeats a stored number |
| InvoiceController.ByDateDescendingIsTotalPreorder | distributor-backend/controllers/invoiceController.js:88 | latest-date-first order is total and transitive |
| InvoiceController.IndexOfId | distributor-backend/controllers/invoiceController.js:107-113 | the position found holds that id; none means no invoice has it |
| InvoiceController.IndexOfNumber | distributor-backend/controllers/invoiceController.js:17-20 | the position found holds that number; none iff the number is not stored |
| InvoiceController.InvoiceStore.CreateInvoice | distributor-backend/controllers/invoiceController.js:5-41 | an id that does not cast is 500; a missing or unknown customer 400; a stored number 400, and so is a missing number while any invoice is stored (the undefined key drops out of the `findOne` filter); a failed validation 500; otherwise the created invoice is appended with 201 |
| InvoiceController.InvoiceStore.GetInvoiceByNumber | distributor-backend/controllers/invoiceController.js:44-68 | 200 with a stored invoice of that number iff one exists; 404 otherwise |
| InvoiceController.Matches | distributor-backend/controllers/invoiceController.js:73-85 | the query: the customer must match when a customer id is given, and the invoice date must lie in [start, end] when both bounds are given |
| InvoiceController.InvoiceStore.GetAllInvoices | distributor-backend/controllers/invoiceController.js:71-102 | exactly the stored invoices matching the customer and date-range filters, each as often as stored, latest invoice date first |
| InvoiceController.InvoiceStore.UpdateInvoice | distributor-backend/controllers/invoiceController.js:105-131 | an update failing its validators is 500 (before any lookup), an unknown id 404, a number held by another invoice 500; otherwise the invoice is replaced by `InvoiceModel.Patch`, which writes every path the update gives (`InvoiceModel.PatchWritesHeader`, `PatchWritesBooking`, `PatchWritesAmounts`) |
| InvoiceController.InvoiceStore.DeleteInvoice | distributor-backend/controllers/invoiceController.js:134-156 | an unknown id is 404 with nothing changed; otherwise exactly that invoice is removed and its day's count drops by one |
| InvoiceController.InvoiceStore.PreviewInvoiceNumber | distributor-backend/controllers/invoiceController.js:159-190 | the preview is today's number, decodes to today and the count plus one, and stores nothing |
| InvoiceModel.LineConforms | distributor-backend/models/Invoice.js:3-60 | a line's validators: required non-empty strings, quantities, prices and total not negative, tax and discounts between 0 and 100 |
| InvoiceModel.Conforms | distributor-backend/models/Invoice.js:62-128 | the invoice's validators: required non-empty strings, charges, amount received, discount and gross total not negative, and every line conforming |
| InvoiceModel.LineFrom | distributor-backend/models/Invoice.js:3-60 | a cast line has bonus, return, tax and discounts 0 when missing |
| InvoiceModel.Create | distributor-backend/models/Invoice.js:62-128 | a created invoice passes the validators, has today's timestamps, the document's number and customer id, and zero charges and previous balance when missing |
| InvoiceModel.LineRoundTrip | distributor-backend/models/Invoice.js:3-60 | casting a line's own subdocument gives the line back |
| InvoiceModel.LinesRoundTrip | distributor-backend/models/Invoice.js:88 | casting the rendered array of lines gives the lines back |
| InvoiceModel.CreateRoundTrip | distributor-backend/models/Invoice.js:62-128 | `create` stores every valid invoice exactly as its own body describes it |
| InvoiceModel.PatchWritesHeader | distributor-backend/controllers/invoiceController.js:107-111 | a validated update writes the number, date, customer id, code, name, address, contact and region it gives; `null` clears a nullable one; one left out is kept |
| InvoiceModel.PatchWritesBooking | distributor-backend/controllers/invoiceController.js:107-111 | a validated update writes the lines (`null` empties them), van, booking and remarks it gives, and keeps those left out |
| InvoiceModel.PatchWritesAmounts | distributor-backend/controllers/invoiceController.js:107-111 | a validated update writes the charges, amount received, discount, previous balance, gross total and net balance it gives, and keeps those left out |
| InvoiceModel.HeaderWrites | distributor-backend/controllers/invoiceController.js:107-111 | the header stage of an update writes the header paths it gives and changes no other field |
| InvoiceModel.BookingWrites | distributor-backend/controllers/invoiceController.js:107-111 | the booking stage writes the lines and booking paths it gives and changes no other field |
| InvoiceModel.AmountsWrites | distributor-backend/controllers/invoiceController.js:107-111 | the amounts stage writes the amounts it gives and changes no other field |
| InvoiceModel.PatchRoundTrip | distributor-backend/controllers/invoiceController.js:107-111 | updating with the whole body of a valid invoice stores that invoice under the stored id and timestamps |
| InvoiceModel.Patch | distributor-backend/controllers/invoiceController.js:107-111 | a validated update passes the validators and keeps the id and both timestamps; the empty update changes nothing |
| InvoiceModel.PatchSucceedsIffValidates | distributor-backend/controllers/invoiceController.js:110 | on any stored invoice an update succeeds iff it passes the update validators, which look at the update alone |
| PurchaseInvoiceController.NextPurchaseNumber | distributor-backend/controllers/purchaseInvoicesController.js:241-259 | `PINV-`, today as eight digits, `-`, and the count of purchase invoices created today plus one, padded to three digits; stated by `PurchaseNumberGrammar`, `OtherDaysDoNotCount` and `NeverASalesNumber` |
| PurchaseInvoiceController.CreatedToday | distributor-backend/controllers/purchaseInvoicesController.js:249-257 | a purchase invoice is counted iff it is stored and was created that day |
| PurchaseInvoiceController.PurchaseNumberGrammar | distributor-backend/controllers/purchaseInvoicesController.js:241-259 | the preview decodes to today and the day's count plus one; it has the `PINV-` 8-digit `-` 3-digit shape below 999 a day |
| PurchaseInvoiceController.OtherDaysDoNotCount | distributor-backend/controllers/purchaseInvoicesController.js:249-257 | a purchase invoice created on another day never changes the preview |
| PurchaseInvoiceController.NumbersOfDifferentDaysDiffer | distributor-backend/controllers/purchaseInvoicesController.js:259 | previews of different days differ whatever the stores hold |
| PurchaseInvoiceController.NeverASalesNumber | distributor-backend/controllers/purchaseInvoicesController.js:252-259 | a purchase preview is never a sales preview, whatever either collection holds |
| PurchaseInvoiceController.GrossOf | distributor-backend/controllers/purchaseInvoicesController.js:27-29 | the handler's `reduce`: the sum of each line's `total`, a missing or null total counting 0; related to the stored lines by `GrossOfCastLines` |
| PurchaseInvoiceController.AmountOf | distributor-backend/controllers/purchaseInvoicesController.js:31-38 | `parseFloat(body[key] \|\| 0)` on a number, missing or null amount: the number, or 0 |
| PurchaseInvoiceController.NetBalance | distributor-backend/controllers/purchaseInvoicesController.js:31-38 | current bill plus gross total plus other charges, less discount, plus previous balance, less amount received; tied to the stored invoice by `CreatedNetAsComputed` |
| PurchaseInvoiceController.GrossOfCastLines | distributor-backend/controllers/purchaseInvoicesController.js:28-29 | the handler's sum over the body's lines equals the sum of the totals of the lines the schema stores |
| PurchaseInvoiceController.BodyCannotSetOverridden | distributor-backend/controllers/purchaseInvoicesController.js:41-50 | whatever the body holds under the supplier keys or the totals, the document handed to `create` is the same |
| PurchaseInvoiceController.ContactIgnoresCellNo | distributor-backend/controllers/purchaseInvoicesController.js:46 | the supplier's `cellNo` never reaches the stored contact |
| PurchaseInvoiceController.CreatedFromSupplier | distributor-backend/controllers/purchaseInvoicesController.js:41-47 | a created purchase invoice has the supplier's code, name, address and region, and its contact number when non-empty |
| PurchaseInvoiceController.NewDoc | distributor-backend/controllers/purchaseInvoicesController.js:40-50 | the body with the supplier's fields and both computed totals written over it; stated by `NewDocPassesThrough`, `NewDocWritesSupplier`, `NewDocWritesSupplierDetails`, `NewDocWritesTotals` and `BodyCannotSetOverridden` |
| PurchaseInvoiceController.NewDocPassesThrough | distributor-backend/controllers/purchaseInvoicesController.js:41-42 | every key the handler does not write over reaches `create` exactly as the body gave it, or stays missing |
| PurchaseInvoiceController.NewDocWritesSupplier | distributor-backend/controllers/purchaseInvoicesController.js:43-44 | the document handed to `create` holds the supplier's code and name, whatever the body held |
| PurchaseInvoiceController.NewDocWritesSupplierDetails | distributor-backend/controllers/purchaseInvoicesController.js:45-47 | the document holds the supplier's address and region, and its `contactNo` only when that is non-empty |
| PurchaseInvoiceController.NewDocWritesTotals | distributor-backend/controllers/purchaseInvoicesController.js:48-49 | the document holds the gross total and net balance the handler computed |
| PurchaseInvoiceController.CreatedGrossIsSum | distributor-backend/controllers/purchaseInvoicesController.js:27-29 | the stored gross total is the handler's sum over the body's lines, which is the sum of the stored lines' totals |
| PurchaseInvoiceController.CreatedNetAsComputed | distributor-backend/controllers/purchaseInvoicesController.js:31-38 | the stored net balance is the handler's formula over the body's amounts |
| PurchaseInvoiceController.CreatedAmountsAsSent | distributor-backend/controllers/purchaseInvoicesController.js:31-38 | each stored amount is the amount the handler counted: the body's number, zero when missing or null |
| PurchaseInvoiceController.CreatedTotalsConsistent | distributor-backend/controllers/purchaseInvoicesController.js:27-50 | a created purchase invoice's gross total is the sum of its line totals; its net balance is current bill + gross + other charges − discount + previous balance − amount received |
| PurchaseInvoiceController.SupplierOf | distributor-backend/controllers/purchaseInvoicesController.js:8 | the supplier found is a stored account with the body's id; none means no account has it |
| PurchaseInvoiceController.IndexOfNumber | distributor-backend/controllers/purchaseInvoicesController.js:17-20 | the position found holds that number; none iff the number is not stored |
| PurchaseInvoiceController.PurchaseStore.CreatePurchaseInvoice | distributor-backend/controllers/purchaseInvoicesController.js:5-63 | an id that does not cast is 500; a missing or unknown supplier 400; a stored number 400, and so is a missing number while any purchase invoice is stored (the undefined key drops out of the `findOne` filter); a failed validation 500; otherwise the created invoice, carrying the supplier's id, is appended with 201 |
| PurchaseInvoiceController.PurchaseStore.GetPurchaseInvoiceByNumber | distributor-backend/controllers/purchaseInvoicesController.js:66-90 | 200 with a stored purchase invoice of that number iff one exists; 404 otherwise |
| PurchaseInvoiceController.PurchaseStore.PreviewPurchaseNumber | distributor-backend/controllers/purchaseInvoicesController.js:241-272 | the preview is today's number, decodes to today and the count plus one, and stores nothing |
| PurchaseInvoiceModel.LineConforms | distributor-backend/models/PurchaseInvoice.js:3-50 | a line's validators: required non-empty strings, quantities, prices and total not negative, tax and discounts between 0 and 100 |
| PurchaseInvoiceModel.Conforms | distributor-backend/models/PurchaseInvoice.js:52-134 | the invoice's validators: required non-empty strings, the `cashAccount` enum, amounts not negative where the schema says so, and every line conforming |
| PurchaseInvoiceModel.LineFrom | distributor-backend/models/PurchaseInvoice.js:3-50 | a cast line keeps the document's total and has discounts 0 and sales tax 17 when missing |
| PurchaseInvoiceModel.Create | distributor-backend/models/PurchaseInvoice.js:52-134 | a created purchase invoice passes the validators, has today's timestamps, the document's number and supplier id, and `cashAccount` "by hand" when missing |
| PurchaseInvoiceModel.CreateKeepsSupplierPaths | distributor-backend/models/PurchaseInvoice.js:71-81 | each supplier field stored is the cast of the document's path |
| PurchaseInvoiceModel.CreateKeepsLines | distributor-backend/models/PurchaseInvoice.js:82 | the stored lines are the cast of the document's `items` |
| PurchaseInvoiceModel.CreateKeepsTotals | distributor-backend/models/PurchaseInvoice.js:117-125 | the stored `grossTotal` and `netBalance` are the casts of the document's paths |
| PurchaseInvoiceModel.CreateKeepsAmounts | distributor-backend/models/PurchaseInvoice.js:85-107 | each stored amount is the cast of the document's path, zero when missing |
| PurchaseInvoiceModel.CashAccountEnum | distributor-backend/models/PurchaseInvoice.js:108-112 | a `cashAccount` other than "by hand" or "in account" fails creation |
| PurchaseInvoiceModel.LineRoundTrip | distributor-backend/models/PurchaseInvoice.js:3-50 | casting a line's own subdocument gives the line back |
| PurchaseInvoiceModel.LinesRoundTrip | distributor-backend/models/PurchaseInvoice.js:82 | casting the rendered array of lines gives the lines back |
| PurchaseInvoiceModel.CreateRoundTrip | distributor-backend/models/PurchaseInvoice.js:52-134 | `create` stores every valid purchase invoice exactly as its own document describes it |
| Numbering.CodeRoundTrip | distributor-backend/controllers/accountController.js:7-8 | `PREFIX-` and a padded number decode back to the prefix and the number |
| Numbering.CodeGrammar | distributor-backend/controllers/companyController.js:6-7 | a padded code has exactly three digits iff the number is below 1000 |
| Numbering.DatedRoundTrip | distributor-backend/controllers/invoiceController.js:162-177 | a dated number decodes back to its day and its number |
| Numbering.DatedCodeGrammar | distributor-backend/controllers/purchaseInvoicesController.js:244-259 | a dated number of a plausible day below 1000 is the prefix, `-`, eight digits, `-`, three digits |
| Numbering.DatedCodesOfDifferentDaysDiffer | distributor-backend/controllers/invoiceController.js:177 | dated numbers of different days never collide |

## Left out

- HTTP, routing, authentication, logging and the MongoDB driver are not modelled. Each collection is an in-memory sequence, each handler a method returning a status and a value. Requests are served one at a time, so races between concurrent requests are out of scope (a count read by one request while another inserts, for example).
- Record ids are a per-collection counter, not ObjectIds. Timestamps are calendar days: the current day is a parameter, and the local time zone and the time of day are not modelled.
- Casting is strict: a value of the wrong JSON type fails the cast. Mongoose is looser, for example turning a number into a string or a single object into a one-element array. Strings the schema casts to ObjectIds or dates appear already cast, as `JId` and `JDate`.
- A client-supplied `createdAt` or `updatedAt` is ignored: the model always stamps today. Mongoose would keep a client value in five handlers. `createItem` spreads the body, and the item schema's timestamps fill `createdAt` only when it is missing and copy it into `updatedAt`. `createInvoice` and `createPurchaseInvoice` spread the body over schema paths whose `Date.now` default fills only a missing value. `updateAccount` and `updateInvoice` pass the body to `findByIdAndUpdate`, which runs neither defaults nor the pre-save hook. `createAccount` and `createCompany` copy only listed keys, so no client timestamp reaches them.
- Malformed ids and dates in URL parameters and query filters are not modelled. Mongoose rejects them with a cast error, and for `getAllInvoices` an unparseable `startDate` or `endDate` gives 500. In the model ids arrive as numbers and the date bounds arrive already cast.
- AccountController.Prefix: upper-casing maps the ASCII letters only, and slicing counts code points. JavaScript's `toUpperCase` maps all of Unicode and can lengthen the prefix (ß becomes SS). Its `slice` counts UTF-16 code units, so it differs on characters outside the Basic Multilingual Plane. For such account types the model's prefix differs from the source's. The frontend offers ASCII account types only.
- AccountModel.Patch: an account update that sets a required path to null is refused. Mongoose would store the null, because the account update runs no validators.
- ItemController.NextItemCode: `parseInt` reads leading decimal digits only, into an unbounded integer. The create handler never produces a code where this matters, but an item update can store one, and then the next code differs from the source's. `ItemController.ItemSuffixRoundTrip` and `ItemController.NextFollowsGreatest` hold for every number only because integers here are unbounded. Three JavaScript behaviours are not modelled:
  - leading whitespace and a `+` sign;
  - a `0x` prefix, which JavaScript reads as hexadecimal (`ITEM-0x1F` gives `ITEM-032` there and `ITEM-001` here);
  - rounding to an IEEE double, so suffixes above 2^53 lose precision there (`ITEM-9007199254740993` gives `ITEM-9007199254740992`), but not here.
- InvoiceModel.LinesOrEmpty: an `items` value of null is stored as no lines.
- PurchaseInvoiceController.GrossOf: totals are exact real numbers, not IEEE doubles. NaN and JavaScript's coercions of non-number totals (string concatenation, `true` counting as 1) are not modelled. Under strict casting these bodies fail validation anyway, with the same 500.
- PurchaseInvoiceController.AmountOf: `parseFloat` on a string amount is taken as 0. Under strict casting such a body fails validation, with the same 500.
- The printable HTML invoice, the frontend, vans, regions, claims and damage handling are not part of this model.
- The purchase invoice handler's `items.reduce` throws on an `items` value that is not an array, and on a null element. The model does not raise that error separately: the same bodies fail the schema cast, with the same 500 and nothing stored.
