# AutoManager — a Dafny model of the dealership core

AutoManager is a small dealership system. It has five server tables:
- people, either owners or clients;
- vehicles;
- vehicle expenses;
- store expenses;
- vehicle images.

It also has a users table for staff accounts with four roles. There is an Express API over these tables, and React pages that read and write them.

This project models that system and proves properties of the model:
- the storage layer (`server/storage.ts`);
- the HTTP handlers (`server/routes.ts`, and the login, registration and user-administration handlers);
- the request schemas;
- the dashboard statistics;
- the logic inside the client pages: masks, filters, totals, form guards and the FIPE selection cascade;
- the ignore filter of the deploy script.

Map of the modules:
- **Tables.** `Storage.DatabaseStorage` is a class. It holds one `map<int, Row>` per table and the next serial id of each. Its methods are the storage operations. Each method states its whole new state and keeps the invariant `Valid()`: ids are keyed and below the serial counter, plates are unique, and every reference names a row.
- **Users.** `AuthStore.AuthStorage` does the same for users. It keeps usernames and CPFs unique.
- **Handlers.** These are methods over those classes. They return `Reply<T>`, which is one of:
  - `Success(status, body)`;
  - `Failure(status, error)`;
  - `Unhandled`, an exception the handler throws instead of replying.
- **Schemas.** Zod schemas are `Zod.Rule` values. `Zod.Check` reports the first issue in the schema's key order, with zod's messages, and `Zod.Conforms` is the matching acceptance predicate.
- **Client pages.** Page logic is pure functions on values, and classes where the page keeps form state: `SellDialog.SellForm`, `StoreExpensesView.StoreExpenseForm`, `CpfLookup.Lookup` and `Fipe.FipeSelection`.
- **Time.** Timestamps are `Time.Instant` values, and months are windows `[start, end)` as `getMonthRange` builds them.
- **Parameters.** The clock (`now`), password hashing (`hash`, `verify`) and date parsing (`parseDate`) are parameters.

Behaviour of the code worth noting:
- A vehicle that still has expenses cannot be deleted. The expenses' foreign key has no `onDelete` (shared/schema.ts:53); only the images cascade (shared/schema.ts:75).
- The sell route checks neither that the price is positive nor the vehicle's current status (server/routes.ts:201-224). Only the dialog that sends it refuses a price of zero or less.
- A sale writes only the price, the buyer, the date and the status (server/storage.ts:185-197).
- A general vehicle update that asks for the status "Vendido" is refused with 400 (server/routes.ts:149-151).
- The "available" count of the dashboard is always 0; see Findings.

## Model

| member | source | states |
|---|---|---|
| Storage.StripDocument | server/storage.ts:77-83 | the characters of the stripped document are exactly the document's other than '.', '-' and '/' |
| Storage.StripDocumentConcat | server/storage.ts:77-83 | stripping goes character by character: a concatenation strips part by part, and one character is dropped exactly when it is '.', '-' or '/', so every other character stays, in order |
| Storage.DatabaseStorage.constructor | server/storage.ts:64-65 | the store starts with five empty tables and satisfies the invariant |
| Storage.DatabaseStorage.OwnerOf | server/storage.ts:103-129 | the left-joined owner is present exactly when the owner id names a person, and is that person |
| Storage.DatabaseStorage.GetPeople | server/storage.ts:65-70 | exactly the stored people of the requested type; every person when the type is absent or empty |
| Storage.DatabaseStorage.GetPerson | server/storage.ts:72-75 | the row with that id, or none exactly when the id is unknown |
| Storage.DatabaseStorage.GetPersonByDocument | server/storage.ts:77-83 | the lowest-id person whose document, stripped of punctuation, equals the query's digits; none exactly when nobody matches |
| Storage.DatabaseStorage.CreatePerson | server/storage.ts:85-88 | adds a person with the next serial id and the creation time; no other table changes |
| Storage.DatabaseStorage.UpdatePerson | server/storage.ts:90-97 | an empty patch is an error; an unknown id writes nothing; otherwise the row becomes the patched row, with its id and creation time kept |
| Storage.DatabaseStorage.DeletePerson | server/storage.ts:99-101 | refused while a vehicle names the person as owner or buyer, the error naming owner_id when an owner reference exists and buyer_id otherwise; without references exactly that row is removed |
| Storage.DatabaseStorage.Matching | server/storage.ts:103-129 | the vehicles, each with its owner, that meet every filter that is set |
| Storage.DatabaseStorage.GetVehicles | server/storage.ts:103-129 | a permutation of the matching vehicles, newest entry first |
| Storage.DatabaseStorage.GetVehicle | server/storage.ts:131-160 | the vehicle with its owner, its buyer when the buyer id is truthy and names a person, and its expenses newest first; none for an unknown id |
| Storage.DatabaseStorage.GetVehicleByPlate | server/storage.ts:162-165 | a stored vehicle with that plate, or none exactly when no vehicle has it |
| Storage.DatabaseStorage.CreateVehicle | server/storage.ts:167-170 | inserts the new vehicle, with a default status, exactly when the plate is free and both references name people; the serial id is consumed either way |
| Storage.DatabaseStorage.UpdateVehicle | server/storage.ts:172-179 | an empty patch is an error; an unknown id writes nothing; otherwise the patched row is written exactly when its plate stays unique and its references hold |
| Storage.DatabaseStorage.DeleteVehicle | server/storage.ts:181-183 | refused while expenses reference the vehicle; otherwise removes it and every one of its images, and nothing else |
| Storage.DatabaseStorage.MarkVehicleAsSold | server/storage.ts:185-197 | an unknown id writes nothing; a buyer who does not exist is refused; otherwise the row becomes the sold version with that price, buyer and date (now when no date is given) |
| Storage.DatabaseStorage.GetExpensesByVehicle | server/storage.ts:199-201 | exactly the stored expenses of that vehicle |
| Storage.DatabaseStorage.CreateExpense | server/storage.ts:203-206 | inserts the expense with the next id and now exactly when the vehicle exists |
| Storage.DatabaseStorage.DeleteExpense | server/storage.ts:208-210 | removes that id, and only it |
| Storage.DatabaseStorage.GetStoreExpenses | server/storage.ts:212-214 | a permutation of all store expenses, newest first |
| Storage.DatabaseStorage.CreateStoreExpense | server/storage.ts:216-219 | inserts the store expense with the next id and now |
| Storage.DatabaseStorage.DeleteStoreExpense | server/storage.ts:221-223 | removes that id, and only it |
| Storage.DatabaseStorage.GetVehicleImages | server/storage.ts:225-229 | exactly the images of that vehicle, newest first |
| Storage.DatabaseStorage.CreateVehicleImage | server/storage.ts:231-234 | inserts the image row exactly when the vehicle exists |
| Storage.DatabaseStorage.DeleteVehicleImage | server/storage.ts:236-239 | removes that id and returns the removed row, if one existed |
| Storage.DatabaseStorage.DeleteAllVehicleImages | server/storage.ts:241-243 | removes exactly that vehicle's images and returns them |
| Storage.DatabaseStorage.GetDashboardStats | server/storage.ts:245-341 | the statistics of the stored vehicle, expense and store-expense rows, so every figure of Stats.ComputeStats holds of them: the total is the vehicle count, sold counts the "Vendido" rows, the expense total is vehicle plus store expenses, the available count is 0 |
| Storage.AllHoldAppend | server/storage.ts:103-129 | a conjunction of two condition lists holds exactly when both lists hold |
| Storage.AllHoldSingle | server/storage.ts:103-129 | one condition holds as a list exactly when it holds; the empty list always holds |
| Storage.ConditionsMatchFilters | server/storage.ts:103-129 | the condition list the listing builds holds exactly when the vehicle meets the filters |
| Storage.ListingConditions | server/storage.ts:104-124 | the conditions pushed hold of a vehicle exactly when it meets every filter that is set |
| Stats.CountSold | server/storage.ts:249 | the sold count is at most the vehicle count |
| Stats.CountSoldIsFilter | server/storage.ts:249 | the sold count is the number of vehicles whose status is "Vendido" |
| Stats.CountAvailableAsWritten | server/storage.ts:248 | the count against the literal as written is at most the vehicle count |
| Stats.AvailableAsWrittenIsZero | server/storage.ts:248 | the literal as written matches no status, so the count is always 0 |
| Stats.AvailableAsWrittenMissesAvailableVehicle | server/storage.ts:248 | one available vehicle counts 1 correctly and 0 as written |
| Stats.CountAvailable | server/storage.ts:248 | the corrected count is at most the vehicle count |
| Stats.CountAvailableIsFilter | server/storage.ts:248 | the corrected count is the number of vehicles whose status is "Disponível" |
| Stats.CountAvailableZeroIff | server/storage.ts:248 | the corrected count is 0 exactly when no vehicle is available |
| Stats.SalesIn | server/storage.ts:263-284 | exactly the sold vehicles whose sale date lies in the window |
| Stats.InWindow | server/storage.ts:285-320 | exactly the rows, vehicle expenses or store expenses alike, dated in the window |
| Stats.ComputeStats | server/storage.ts:245-341 | the figures as the query computes them: total is the row count; sold is the number of "Vendido" rows; available is 0; total expenses are vehicle plus store expenses; each month's sales are the count of the vehicles sold in that month's window, its revenue their sale prices summed, a NULL price counting 0, and its expenses the vehicle and store expenses dated in the window, for the current month and the previous one |
| Stats.ComputeStatsCorrected | server/storage.ts:245-341 | the available count is the number of "Disponível" rows, zero exactly when no vehicle is available; every other figure is the query's |
| Stats.MonthSaleIff | server/storage.ts:263-284 | a vehicle is among a month's sales exactly when it is sold and its sale date falls in that calendar month |
| Stats.CountSoldBound | server/storage.ts:249 | sales in two disjoint windows never exceed the sold count |
| Stats.TwoMonthSalesBound | server/storage.ts:263-325 | current plus previous month's sales are at most the sold count |
| Stats.InWindowSumBound | server/storage.ts:285-320 | with non-negative amounts, a window's expenses lie between 0 and the table's total |
| Stats.MonthExpensesBound | server/storage.ts:285-325 | a month's expenses lie between 0 and all vehicle plus store expenses |
| Stats.SalesInAppend | server/storage.ts:263-284 | the sales of a listing split in two are the two parts' sales, in order |
| Stats.SumSalePricesAppend | server/storage.ts:263-284 | the revenue of a listing split in two is the sum of the parts' revenues |
| Stats.SaleAddsToCurrentMonth | server/storage.ts:185-197 | a vehicle sold now adds one sale and its price to the current month |
| Time.FirstOfMonth | server/storage.ts:57-62 | the first instant of a month, with JavaScript's month normalisation |
| Time.BeforeIrreflexive | server/storage.ts:57-62 | no instant precedes itself |
| Time.BeforeTransitive | server/storage.ts:57-62 | the order of instants is transitive |
| Time.BeforeTotal | server/storage.ts:57-62 | any two instants are equal or ordered |
| Time.BeforeFirstOfMonth | server/storage.ts:57-62 | an instant is before a month's start exactly when its month index is smaller |
| Time.InMonthRange | server/storage.ts:57-62 | an instant lies in `getMonthRange(offset)` exactly when it is in the calendar month `offset` months from now |
| Time.ConsecutiveWindows | server/storage.ts:57-62 | each window ends where the next one starts |
| Time.WindowsDisjoint | server/storage.ts:57-62 | windows for different offsets share no instant |
| Time.WindowHoldsStart | server/storage.ts:57-62 | a window contains its own start |
| Time.NowInCurrentMonth | server/storage.ts:57-62 | now lies in the window of offset 0 |
| Tables.Rows | server/storage.ts:65-70 | the rows of a table in id order, exactly the stored values with ids in range |
| Tables.RowsValues | server/storage.ts:65-70 | listing every id below the counter yields exactly the stored rows |
| Tables.RowsRemove | server/storage.ts:99-101 | removing one row removes exactly one copy of it from the listing |
| Tables.RowsUnchanged | server/storage.ts:65-70 | tables equal on the range list the same rows |
| Tables.RowsAppend | server/storage.ts:85-88 | inserting at the counter appends the row to the listing |
| Tables.RowsLength | server/storage.ts:65-70 | the listing has one entry per stored row |
| Tables.InsertNewestFirst | server/storage.ts:212-214 | inserting into a newest-first list keeps it newest first and adds exactly that element |
| Tables.SortNewestFirst | server/storage.ts:212-214 | `orderBy(desc(date))`: a permutation of the rows that is newest first |
| Tables.Filter | client/src/pages/StoreExpenses.tsx:67-71 | `Array.filter`: at most as long, and holds exactly the elements that pass |
| Tables.FilterAppend | client/src/pages/StoreExpenses.tsx:67-71 | filtering distributes over concatenation |
| Tables.FilterIsSubsequence | client/src/pages/StoreExpenses.tsx:67-71 | the filtered list keeps the original order |
| Tables.FilterKeepsAll | client/src/pages/StoreExpenses.tsx:67-71 | a test every element passes keeps the whole list |
| Tables.FilterDropsAll | client/src/pages/StoreExpenses.tsx:67-71 | a test no element passes leaves nothing |
| Tables.SumAppend | client/src/pages/StoreExpenses.tsx:73-74 | `reduce` sums distribute over concatenation |
| Tables.SumFilterBound | client/src/pages/StoreExpenses.tsx:73-74 | with non-negative values a filtered sum lies between 0 and the full sum |
| Text.Digits | server/routes.ts:57 | `replace(/\D/g, "")`: only digits, never longer than the input |
| Text.DigitsAppend | server/routes.ts:57 | digit extraction distributes over concatenation |
| Text.DigitsOfDigitString | server/routes.ts:57 | a digit string is its own digits |
| Text.DigitsIdempotent | server/routes.ts:57 | extracting digits twice changes nothing |
| Text.Take | client/src/components/forms/CpfPersonLookup.tsx:11 | `slice(0, n)`: a prefix of length at most n |
| Text.Drop | client/src/components/forms/CpfPersonLookup.tsx:13 | `slice(n)`: what remains after that prefix |
| Text.IndexOf | shared/routes.ts:273-275 | the first position where the pattern occurs, or -1 exactly when it never occurs |
| Text.ContainsAt | shared/routes.ts:273 | an occurrence at a position means the text includes the pattern |
| Text.ContainsEmpty | client/src/pages/Settings.tsx:57-67 | every text includes the empty text |
| Text.ContainsSelf | client/src/pages/Settings.tsx:57-67 | every text includes itself |
| Text.ContainsInSuffix | client/src/pages/Settings.tsx:57-67 | an occurrence in a suffix is an occurrence in the text |
| Text.LowerChar | client/src/pages/Settings.tsx:59 | lower-casing keeps digits digits and other characters non-digits |
| Text.UpperChar | client/src/components/layout/Sidebar.tsx:29 | a character upper-cases to one character, except 'ß' to two; digits stay digits and other characters non-digits |
| Text.Lower | client/src/pages/Settings.tsx:59 | `toLowerCase`, character by character, of the same length |
| Text.Upper | client/src/components/layout/Sidebar.tsx:29 | `toUpperCase` is at least as long as the text and at most twice as long, and of the same length when there is no 'ß' |
| Text.UpperConcat | client/src/components/layout/Sidebar.tsx:29 | upper-casing a concatenation upper-cases each part |
| Text.LowerCharIdempotent | client/src/pages/Settings.tsx:59 | lower-casing a character twice is lower-casing it once |
| Text.LowerIdempotent | client/src/pages/Settings.tsx:59 | lower-casing a text twice is lower-casing it once |
| Text.TrimStart | client/src/components/forms/CpfPersonLookup.tsx:202 | drops exactly the leading whitespace |
| Text.TrimEnd | client/src/components/forms/CpfPersonLookup.tsx:202 | drops exactly the trailing whitespace |
| Text.Trim | client/src/components/forms/CpfPersonLookup.tsx:202 | the result neither starts nor ends with whitespace |
| Text.TrimStartOfWhitespace | client/src/components/forms/CpfPersonLookup.tsx:202 | a text of whitespace trims to nothing from the start |
| Text.TrimEmptyIff | client/src/components/forms/CpfPersonLookup.tsx:202 | a text trims to empty exactly when it is all whitespace |
| Text.RemoveChar | server/storage.ts:79-81 | `REPLACE(x, c, '')`: never longer; its characters are exactly the text's other than c |
| Text.RemoveCharConcat | server/storage.ts:79-81 | removal keeps the other characters in order: a concatenation loses c part by part, and one character is dropped exactly when it is c |
| Text.RemoveCharKeepsOnlyDigits | server/storage.ts:79-81 | on a text of digits and c, removing c leaves its digits |
| Text.RemoveCharAbsent | server/storage.ts:79-81 | removing an absent character changes nothing |
| Text.DigitChar | shared/routes.ts:275 | a decimal digit's character is a digit |
| Text.DigitValue | client/src/components/forms/SellVehicleDialog.tsx:38 | a digit's value, which maps back to the same character |
| Text.NatToString | shared/routes.ts:275 | `String(n)` of a natural number: a non-empty digit string |
| Text.IntToString | shared/routes.ts:275 | `String(n)`: never empty |
| Text.DecimalRoundTrip | client/src/components/forms/SellVehicleDialog.tsx:38 | `Number(String(n)) == n` for natural numbers |
| Text.Utf16Length | shared/models/auth.ts:42-45 | a string's length in UTF-16 code units lies between its code-point count and twice that |
| Text.Join | server/routes.ts:216-219 | `path.join('.')`: empty for no parts, the part itself for one |
| Zod.Lookup | shared/models/auth.ts:42-65 | the value under a key, present exactly when the key is |
| Zod.CheckIff | shared/models/auth.ts:42-65 | the validator reports no issue exactly when the value conforms to the schema |
| Zod.CheckFieldsIff | shared/models/auth.ts:42-65 | an object's keys from a position on report no issue exactly when each of them conforms |
| Zod.FirstIssue | shared/models/auth.ts:42-65 | the reported issue belongs to the first key, in schema order, that fails |
| Zod.UnknownKeyIgnored | shared/models/auth.ts:42-65 | a key the schema does not declare never changes the result |
| Zod.FlatIssuePath | shared/models/auth.ts:42-65 | a schema of plain values reports issues with an empty path |
| Zod.FirstFailingKey | shared/models/auth.ts:42-65 | an object's issue is its first failing key's issue, with that key in front of the path |
| Zod.StringField | shared/models/auth.ts:42-65 | a conforming string key is present and at least its minimum length |
| Schema.ParseStatus | shared/schema.ts:12-18 | a read status always has the given label |
| Schema.StatusEnumeration | shared/schema.ts:12-18 | five statuses, each with a label of its own |
| Schema.ParseStatusRoundTrip | shared/schema.ts:12-18 | reading a status's label gives that status, and a text with no status reads as none |
| Schema.CategoryEnumeration | shared/schema.ts:59-71 | eleven store-expense categories, each with a label of its own |
| Schema.NewVehicle | shared/schema.ts:34-49 | a new vehicle has the given id, enters now, is unsold, holds the inserted plate, brand, model, colour, year, prices, buyer, owner and notes, and has "Aguardando Preparação" when no status is given |
| Schema.NewPerson | server/storage.ts:85-88 | a new person has the given id, is created now, and holds the inserted name, e-mail, phone, document and type |
| Schema.ApplyVehiclePatch | server/storage.ts:172-179 | each supplied column takes the supplied value and each other column keeps its value; id, entry date and sale date never change; an empty patch changes nothing |
| Schema.ApplyPersonPatch | server/storage.ts:90-97 | each supplied column takes the supplied value and each other column keeps its value; id and creation time never change; an empty patch changes nothing |
| Api.ValidationError | server/routes.ts:216-219 | a zod error answers with the first issue's message and its path as the field |
| Api.Message | server/routes.ts:204 | a plain error body carries only the message |
| Api.ExpandLiteral | shared/routes.ts:274 | a replacement without '$' is inserted literally |
| Api.NumberTextLiteral | shared/routes.ts:275 | a number's text never holds '$' |
| Api.BuildUrl | shared/routes.ts:269-279 | without params the path itself; otherwise the params substituted in entry order |
| Api.NoParamsUnchanged | shared/routes.ts:269-279 | an empty params object leaves the path unchanged |
| Api.AbsentKeyUnchanged | shared/routes.ts:273 | a key whose placeholder is absent leaves the url unchanged |
| Api.ReplaceFirstLiteral | shared/routes.ts:274 | with no '$' the first occurrence of the pattern is replaced by the text |
| Api.FirstOccurrenceSplits | shared/routes.ts:274 | the url is the text before the first occurrence, the pattern, and the rest |
| Api.FirstOccurrenceReplaced | shared/routes.ts:273-275 | a present placeholder has its first occurrence, and only that one, replaced by the value |
| Api.EntryOrder | shared/routes.ts:272-277 | substituting a + b is substituting a and then b |
| Api.ParseSellInput | shared/routes.ts:163-191 | a sell body is accepted exactly when it conforms; a refusal carries the first issue; an accepted body's price, buyer and sale date are the body's, the date none unless a string is given |
| Api.SellPriceSuffices | shared/routes.ts:167-170 | a body holding only a numeric price is accepted, with no buyer and no date |
| Api.SellPriceRequired | shared/routes.ts:168 | a body without a numeric price is refused on the field salePrice |
| NodePath.StripTrailingSlashes | server/routes.ts:254 | a prefix of the path that ends in no slash; only slashes are dropped |
| NodePath.AfterLastSlash | server/routes.ts:254 | the longest tail without a slash |
| NodePath.LastIndexOf | server/routes.ts:31 | the last position of the character, or -1 when it is absent |
| NodePath.Basename | server/routes.ts:254 | `path.basename`: never holds a slash |
| NodePath.Extname | server/routes.ts:31 | `path.extname`: empty, or a dot followed by no dot, and no slash |
| NodePath.BasenameOfPlainName | server/routes.ts:254 | a plain file name is its own basename |
| NodePath.BasenameIsTail | server/routes.ts:254 | the basename is a tail of the path without its trailing slashes |
| NodePath.ExtnameOfStem | server/routes.ts:31 | a name ending in ".ext" after a non-empty stem has extension ".ext" |
| NodePath.DotfileHasNoExtension | server/routes.ts:31 | a dotfile without another dot has no extension |
| Routes.AllowedImageName | server/routes.ts:30-37 | a plain name ending in an image extension, in any case, passes the upload filter |
| Routes.DotfileRefused | server/routes.ts:30-37 | a dotfile such as ".png" is refused |
| Routes.EmptyExtensionRefused | server/routes.ts:30-37 | a name without an extension is refused |
| Routes.ServedName | server/routes.ts:253-258 | the served name has no slash and is a tail of the requested name |
| Routes.SearchByDocument | server/routes.ts:55-62 | null below three digits; otherwise the person whose stripped document equals those digits, or null exactly when nobody matches |
| Routes.CreateVehicleRoute | server/routes.ts:124-144 | a taken plate is 400 on field "plate" and writes nothing; otherwise 201 with the new vehicle exactly when the references hold, and a failed insert escapes the handler as `Unhandled` |
| Routes.UpdateVehicleRoute | server/routes.ts:146-166 | status "Vendido" is 400 on field "status"; an unknown id is 200 with no body; for an existing vehicle the reply is 200 with the patched row exactly when its plate stays unique and its owner and buyer exist; every other outcome, an empty update included, is 404 "Vehicle not found" |
| Routes.SellRoute | server/routes.ts:201-224 | a bad body is 400 and an unknown vehicle 404, neither writing; a readable date and an existing buyer give a 200 with the sold row; for a valid body and an existing vehicle anything else escapes the handler as `Unhandled` |
| Routes.UploadImages | server/routes.ts:265-289 | a refused file falls through unhandled; an unknown vehicle is 404; no files is 400; otherwise 201 with one row per file, in order |
| Routes.ImageRows | server/routes.ts:277-284 | one row per file, with consecutive ids and path "/uploads/" + stored name |
| Routes.ImageRowsEach | server/routes.ts:277-284 | the j-th file gets the j-th consecutive id and the path "/uploads/" + its stored name |
| Routes.CreateImage | server/routes.ts:278-283 | one `createVehicleImage` adds the file's row under the next id and changes no other table |
| Routes.CreateImages | server/routes.ts:276-285 | the loop inserts exactly those rows and advances the counter by the file count |
| Routes.SeedDatabase | server/routes.ts:325-390 | a non-empty people table is left as it is; an empty one gets three people and, when the seed plates are free, two vehicles and two expenses |
| Routes.SeedPeople | server/routes.ts:327-351 | three people created now, with two owner ids among them |
| Routes.SeedInventory | server/routes.ts:352-390 | with the seed plates free, two vehicles and two expenses are added |
| Routes.SeedVehicles | server/routes.ts:352-376 | with the seed plates free, two vehicles are added and the first one's id is returned |
| Routes.SeedExpenses | server/routes.ts:378-388 | two expenses, both of the first seed vehicle, are added |
| AuthSchema.ParseRole | shared/models/auth.ts:7 | a text reads as a role exactly when it is one of the four labels, and reads as that label's role |
| AuthSchema.ParseGender | shared/models/auth.ts:8 | a text reads as a gender exactly when it is one of the three labels |
| AuthSchema.EnumerationsAreLabels | shared/models/auth.ts:7-8 | every role and gender round-trips through its label; the label lists have no repeats |
| AuthSchema.WithoutPasswordHidesOnlyPassword | server/replit_integrations/auth/routes.ts:43 | two users look the same in a response exactly when they differ at most in their password |
| AuthSchema.NewUser | shared/models/auth.ts:35-40 | a new user has the given id, no image, both timestamps now, and the inserted credentials, names, phone, CPF, gender and role |
| AuthSchema.ApplyUserPatch | server/replit_integrations/auth/storage.ts:40-43 | each of the eight columns an update may set takes the supplied value when supplied and keeps its value otherwise; id, username and creation time are kept; updatedAt is now |
| AuthSchema.EmptyPatchStampsOnly | server/replit_integrations/auth/storage.ts:40-43 | an empty update only stamps updatedAt |
| AuthSchema.OptionalStringAt | shared/models/auth.ts:57-65 | a key's string value, present exactly when the key holds a string |
| AuthSchema.ParseLogin | shared/models/auth.ts:42-45 | accepted exactly when the body conforms, and then username and password are the body's strings |
| AuthSchema.LoginAcceptsIff | shared/models/auth.ts:42-45 | a login body is accepted exactly when its username has at least 3 and its password at least 6 characters |
| AuthSchema.ParseRegister | shared/models/auth.ts:47-54 | accepted exactly when the body conforms; a refusal carries the first issue; accepted values are read from the body |
| AuthSchema.ReadRegisterRead | shared/models/auth.ts:47-54 | the values read from a conforming body are the body's own |
| AuthSchema.RegisterMinimums | shared/models/auth.ts:47-54 | an accepted registration meets the minimum lengths 3, 6, 2, 10 and 11 |
| AuthSchema.RegisterAccepts | shared/models/auth.ts:47-54 | a body meeting every minimum, with valid gender and role, is accepted with exactly those values |
| AuthSchema.RegisterReportsFirstFailure | shared/models/auth.ts:47-54 | a refusal names the first failing key in schema order |
| AuthSchema.MissingGenderMessage | shared/models/auth.ts:53 | a missing gender is reported as "Sexo é obrigatório" |
| AuthSchema.UnknownRoleRefused | shared/models/auth.ts:54 | a role outside the four labels is refused with zod's enum message |
| AuthSchema.RegisterIgnoresUndeclaredKey | shared/models/auth.ts:47-54 | an undeclared key changes nothing |
| AuthSchema.ParseUpdateUser | shared/models/auth.ts:57-65 | accepted exactly when the body conforms; the values read are those the body supplies |
| AuthSchema.ReadUpdateRead | shared/models/auth.ts:57-65 | the values read from a conforming update body are the body's own |
| AuthSchema.UpdateKeysConform | shared/models/auth.ts:57-65 | each present key of a conforming update body is a string of its minimum length, or one of its enum options |
| AuthSchema.EmptyUpdateAccepted | shared/models/auth.ts:57-65 | the empty body is accepted and supplies nothing |
| AuthSchema.UpdateMinimums | shared/models/auth.ts:57-65 | every supplied field meets its minimum length |
| AuthSchema.UpdateShortPasswordRefused | shared/models/auth.ts:64 | a password shorter than 6 is refused with "Senha deve ter no mínimo 6 caracteres" |
| AuthStore.AuthStorage.constructor | server/replit_integrations/auth/storage.ts:15 | no users, and the invariant holds |
| AuthStore.AuthStorage.GetUser | server/replit_integrations/auth/storage.ts:16-19 | the user with that id, or none exactly when the id is unknown |
| AuthStore.AuthStorage.GetUserByUsername | server/replit_integrations/auth/storage.ts:21-24 | the unique user with that username, or none exactly when it is free |
| AuthStore.AuthStorage.GetUserByCpf | server/replit_integrations/auth/storage.ts:26-29 | the unique user with that cpf, or none exactly when it is free |
| AuthStore.AuthStorage.CreateUser | server/replit_integrations/auth/storage.ts:31-34 | inserted exactly when username and cpf are free, with both checked against the unique columns |
| AuthStore.AuthStorage.GetAllUsers | server/replit_integrations/auth/storage.ts:36-38 | every user once, newest first |
| AuthStore.AuthStorage.UpdateUser | server/replit_integrations/auth/storage.ts:40-43 | an unknown id writes nothing; a cpf already taken is a unique violation; otherwise the patched row, stamped now |
| AuthStore.AuthStorage.DeleteUser | server/replit_integrations/auth/storage.ts:45-47 | removes that id, and only it |
| AuthRoutes.Session.constructor | server/replit_integrations/auth/replitAuth.ts:15-36 | a new session has no user |
| AuthRoutes.IsAuthenticated | server/replit_integrations/auth/replitAuth.ts:119-124 | passes exactly when the session holds a truthy user id; otherwise 401 "Unauthorized" |
| AuthRoutes.IsAdmin | server/replit_integrations/auth/replitAuth.ts:126-135 | passes exactly when the session's user exists and is an administrator; 401 without a session, 403 otherwise |
| AuthRoutes.AdminIsAuthenticated | server/replit_integrations/auth/replitAuth.ts:119-135 | whoever passes the admin gate passes the authentication gate |
| AuthRoutes.Public | server/replit_integrations/auth/routes.ts:122-131 | each user, in order, without the password |
| AuthRoutes.SelfRegistration | server/replit_integrations/auth/replitAuth.ts:56-62 | self-registration always creates a "Vendedor", with the hashed password |
| AuthRoutes.AdminCreation | server/replit_integrations/auth/routes.ts:137-145 | an administrator creates the requested role, with the hashed password |
| AuthRoutes.RoleForcedOnRegistration | server/replit_integrations/auth/replitAuth.ts:56-62 | whatever role a registration asks for, it creates what an administrator creating a "Vendedor" would |
| AuthRoutes.DefaultRoleIsForcedRole | client/src/pages/RegisterPage.tsx:59 | the registration form's default role is the role the server forces |
| AuthRoutes.CreateChecked | server/replit_integrations/auth/replitAuth.ts:42-65 | validation, then username, then cpf, each refusal 400 on its field without a write; otherwise 201 with the new user |
| AuthRoutes.Register | server/replit_integrations/auth/replitAuth.ts:42-77 | succeeds exactly when the body is valid and username and cpf are free; then the session holds the new "Vendedor" and the reply hides the password |
| AuthRoutes.Login | server/replit_integrations/auth/replitAuth.ts:79-106 | succeeds exactly when a user with that username has a matching password; then the session holds that user; every other refusal is 401 |
| AuthRoutes.Logout | server/replit_integrations/auth/replitAuth.ts:108-117 | the session loses its user and the reply confirms it |
| AuthRoutes.CurrentUser | server/replit_integrations/auth/routes.ts:36-49 | the signed-in user without the password; 401 without a session or when the user is gone |
| AuthRoutes.ProfilePatch | server/replit_integrations/auth/routes.ts:59-77 | a truthy first name, every sent last name (the empty one as null), the image path when a file came, and nothing else |
| AuthRoutes.UpdateProfile | server/replit_integrations/auth/routes.ts:51-95 | 401 without a session; a refused file is unhandled; 404 for a missing user; otherwise the profile fields written and the updated user returned |
| AuthRoutes.DeleteProfileImage | server/replit_integrations/auth/routes.ts:97-120 | the signed-in user's image is cleared and updatedAt stamped; 401 or 404 write nothing |
| AuthRoutes.ListUsers | server/replit_integrations/auth/routes.ts:122-131 | the admin gate's refusal, or every user once without the password |
| AuthRoutes.AdminCreateUser | server/replit_integrations/auth/routes.ts:133-158 | succeeds exactly for an administrator with a valid body and free username and cpf, creating the requested role |
| AuthRoutes.AdminPatch | server/replit_integrations/auth/routes.ts:165-182 | the password is hashed and sent only when truthy; cpf and role only when supplied; the image is never touched |
| AuthRoutes.UnsentPasswordKept | server/replit_integrations/auth/routes.ts:175-177 | an update without a password keeps the stored one |
| AuthRoutes.AdminUpdateUser | server/replit_integrations/auth/routes.ts:160-194 | validation 400, unknown id 404, a new cpf already taken 400 on "cpf"; otherwise the patch is written |
| AuthRoutes.AdminDeleteUser | server/replit_integrations/auth/routes.ts:196-214 | an administrator deletes any other existing user (204); deleting oneself is 400 and an unknown id 404 |
| Masks.KeptDigits | client/src/components/forms/CpfPersonLookup.tsx:11 | at most eleven digits, a prefix of the input's digits |
| Masks.DigitsOfSeparator | client/src/components/forms/CpfPersonLookup.tsx:13-15 | separators contribute no digits |
| Masks.Joined | client/src/components/forms/CpfPersonLookup.tsx:13-15 | joining digit groups with a separator keeps the digits in order |
| Masks.DigitSlices | client/src/components/forms/CpfPersonLookup.tsx:13-15 | every slice of a digit string is digits |
| Masks.FormatCpfKeepsDigits | client/src/components/forms/CpfPersonLookup.tsx:10-16 | the mask's digits are exactly the first eleven digits typed |
| Masks.CpfSeparators | client/src/components/forms/CpfPersonLookup.tsx:10-16 | dots after the 3rd and 6th digit, a dash after the 9th, only once those digits are there; at most 14 characters |
| Masks.FormatCpfIdempotent | client/src/components/forms/CpfPersonLookup.tsx:10-16 | masking a masked CPF changes nothing |
| Masks.FormatPhoneKeepsDigits | client/src/components/forms/CpfPersonLookup.tsx:193-198 | the phone mask's digits are exactly the first eleven digits typed |
| Masks.PhoneSeparators | client/src/components/forms/CpfPersonLookup.tsx:193-198 | an opening parenthesis, ") " after the area code, a dash after the 7th digit; at most 15 characters |
| Masks.FormatPhoneIdempotent | client/src/components/forms/CpfPersonLookup.tsx:193-198 | masking a masked phone changes nothing |
| CpfLookup.SearchQuery | client/src/components/forms/CpfPersonLookup.tsx:34 | the query sent is digits only |
| CpfLookup.ClientGuardMatchesServer | client/src/components/forms/CpfPersonLookup.tsx:35 | the lookup's three-digit guard is the server's guard on the same query |
| CpfLookup.Lookup.constructor | client/src/components/forms/CpfPersonLookup.tsx:26-30 | empty text, no search, the parent's selection |
| CpfLookup.Lookup.Search | client/src/components/forms/CpfPersonLookup.tsx:33-56 | under three digits nothing changes; a found person is selected; no person clears the selection and reports "not found"; a failed request reports "not found" and keeps the selection |
| CpfLookup.Lookup.ChangeCpf | client/src/components/forms/CpfPersonLookup.tsx:58-64 | the text becomes the masked input; search state and selection are cleared |
| CpfLookup.Lookup.Clear | client/src/components/forms/CpfPersonLookup.tsx:80-85 | empty text, no selection, no search state |
| CpfLookup.Lookup.Created | client/src/components/forms/CpfPersonLookup.tsx:157-163 | the new person is selected and its document becomes the text |
| CpfLookup.TypeThenAutoSearch | client/src/components/forms/CpfPersonLookup.tsx:72-78 | the automatic search is due exactly when at least eleven digits were typed, and it then passes the guard |
| CpfLookup.OrNull | client/src/components/forms/CpfPersonLookup.tsx:207-208 | the trimmed text, or null exactly when nothing is left |
| CpfLookup.CreatePersonRequest | client/src/components/forms/CpfPersonLookup.tsx:200-216 | nothing is sent exactly when name or phone is blank; otherwise trimmed values, empty email or document as null, and the lookup's type |
| CpfLookup.BlankRefused | client/src/components/forms/CpfPersonLookup.tsx:202 | an all-whitespace name sends nothing; a sent name neither starts nor ends with whitespace |
| SellDialog.BuyerRef | client/src/components/forms/SellVehicleDialog.tsx:38 | no choice and "none" send no buyer |
| SellDialog.BuyerRoundTrip | client/src/components/forms/SellVehicleDialog.tsx:38 | a chosen buyer's id, as the selector's text, is sent back as that id |
| SellDialog.SellForm.constructor | client/src/components/forms/SellVehicleDialog.tsx:24-26 | the price field shows the asking price when there is one; no buyer; today's date |
| SellDialog.SellForm.Submit | client/src/components/forms/SellVehicleDialog.tsx:30-40 | nothing is sent exactly when the amount in cents is not positive; otherwise the id, the amount, the buyer and the date |
| SellDialog.SellForm.Succeeded | client/src/components/forms/SellVehicleDialog.tsx:41-46 | the fields reset to an empty price, no buyer and today |
| SellDialog.SubmitAfterSuccess | client/src/components/forms/SellVehicleDialog.tsx:41-46 | after a success a new sale sends no buyer and today's date |
| VehicleViews.SaleValue | client/src/pages/VehicleDetails.tsx:73 | the sale price when truthy, else the asking price when truthy, and 0 exactly when neither is |
| VehicleViews.ExpenseLowersProfit | client/src/pages/VehicleDetails.tsx:72-74 | each added expense lowers the net profit by its amount |
| VehicleViews.ProfitBoundedBySaleValue | client/src/pages/VehicleDetails.tsx:72-74 | with non-negative expenses the profit is at most the sale value, and equals it without expenses |
| VehicleViews.SumNonNegative | client/src/pages/VehicleDetails.tsx:72 | the total of non-negative expenses is non-negative |
| VehicleViews.UnpricedVehicleLoses | client/src/pages/VehicleDetails.tsx:72-74 | a vehicle with no price and a positive expense shows a loss |
| VehicleViews.StatusOptions | client/src/pages/VehicleDetails.tsx:103 | the selector offers every status except "Vendido", in declaration order |
| VehicleViews.StatusOptionsExact | client/src/pages/Vehicles.tsx:149 | the options are Disponível, Em Manutenção, Aguardando Preparação and Reservado |
| VehicleViews.SelectorShowsCurrentStatus | client/src/pages/VehicleDetails.tsx:88-103 | an unsold vehicle's status is always among the options |
| VehicleViews.SellAction | client/src/pages/Vehicles.tsx:160-172 | the sell button appears exactly for unsold vehicles, naming brand and model and passing the price or 0 |
| VehicleViews.ListingFilters | client/src/pages/Vehicles.tsx:22-25 | "all" sends no status filter; any other value sends that status |
| VehicleViews.AllStatusesListed | client/src/pages/Vehicles.tsx:22-25 | with "all", vehicles are filtered by the search term alone |
| VehicleViews.StatusLabelInjective | shared/schema.ts:12-18 | two statuses have the same label only if they are the same |
| VehicleViews.StatusListing | client/src/pages/Vehicles.tsx:22-25 | a status filter lists exactly the vehicles with that status |
| VehicleViews.PageListings | client/src/pages/Dashboard.tsx:26 | the dashboard lists exactly the available vehicles, and the financial page (Financial.tsx:19) exactly the sold ones |
| Reports.ComparisonShownIff | client/src/pages/Financial.tsx:145 | the comparison card shows exactly when sales or revenue differ between the months |
| Reports.NotSoldInWindow | server/storage.ts:263-284 | a vehicle sold outside both months is in neither month's sales |
| Reports.OlderSaleNotInRevenue | client/src/pages/Financial.tsx:50 | the two-month revenue ignores a sale outside the two months |
| Reports.SumExpensesAppend | server/storage.ts:252-254 | the expense total grows by each added amount |
| Reports.EveryExpenseLowersNetProfit | client/src/pages/Financial.tsx:76 | any new expense lowers the estimated net profit by its amount |
| Reports.SaleRaisesMonthProfit | client/src/pages/Financial.tsx:109 | a sale now raises the current month's profit by its price |
| Reports.SalesNoteOf | client/src/pages/Financial.tsx:156-160 | an increase exactly for a positive change, a reduction by the absolute value for a negative one, "same" for none |
| Reports.RevenueNoteOf | client/src/pages/Financial.tsx:161-162 | no note exactly when revenue is unchanged; otherwise the absolute difference and "a mais" exactly when it grew |
| Reports.NotesRecoverChanges | client/src/pages/Financial.tsx:156-162 | the notes determine the signed sales and revenue changes |
| Reports.TrendOf | client/src/pages/Dashboard.tsx:75-81 | up, down or flat exactly as the current month's sales exceed, trail or equal the previous month's |
| Reports.TrendAgreesWithReport | client/src/pages/Dashboard.tsx:75-81 | the dashboard's arrow and the financial note always agree |
| Reports.SummaryShownIff | client/src/pages/Dashboard.tsx:167 | the monthly summary shows exactly when some vehicle was sold in the current or previous month |
| StoreExpensesView.Filtered | client/src/pages/StoreExpenses.tsx:67-71 | in order, exactly the loaded expenses matching both the search and the category; empty while loading |
| StoreExpensesView.NoFilterKeepsAll | client/src/pages/StoreExpenses.tsx:67-74 | no search and "all" list everything, and both totals agree |
| StoreExpensesView.FilteredTotalBound | client/src/pages/StoreExpenses.tsx:73-74 | with non-negative amounts the filtered total lies between 0 and the overall total |
| StoreExpensesView.CategoryIndex | shared/schema.ts:59-71 | each category sits at its own position in the enumeration |
| StoreExpensesView.CategoryLabelInjective | shared/schema.ts:59-71 | two categories share a label only if they are the same |
| StoreExpensesView.CategoryFilterExact | client/src/pages/StoreExpenses.tsx:69 | choosing a category lists exactly the expenses of that category |
| StoreExpensesView.StoreExpenseForm.constructor | client/src/pages/StoreExpenses.tsx:40-42 | the form starts with every field empty |
| StoreExpensesView.StoreExpenseForm.Submit | client/src/pages/StoreExpenses.tsx:48-57 | nothing is sent exactly when the amount is not positive or no category is chosen; otherwise the fields as they are |
| StoreExpensesView.StoreExpenseForm.Succeeded | client/src/pages/StoreExpenses.tsx:58-64 | the three fields are emptied |
| StoreExpensesView.SubmitAfterSuccess | client/src/pages/StoreExpenses.tsx:51-64 | right after a success nothing is sent until a category is chosen again |
| UsersView.FilteredUsers | client/src/pages/Settings.tsx:57-67 | in order, exactly the users matching the search; undefined while loading |
| UsersView.EmptySearchListsAll | client/src/pages/Settings.tsx:58 | an empty search lists every user |
| UsersView.LowerOfDigits | client/src/pages/Settings.tsx:59 | lower-casing leaves a digit string unchanged |
| UsersView.DigitSearchFindsDocument | client/src/pages/Settings.tsx:64-65 | a digit term found in a user's cpf or phone always lists that user |
| UsersView.NoSelfDelete | client/src/pages/Settings.tsx:163 | every row but the signed-in user's own offers deletion |
| UsersView.EditDefaults | client/src/pages/Settings.tsx:415-424 | the dialog opens on the user's values, an absent last name as "" and an empty password |
| UsersView.StripPassword | client/src/pages/Settings.tsx:426-429 | the password key is removed exactly when it is empty; nothing else changes |
| UsersView.SubmitPassword | client/src/pages/Settings.tsx:410 | a password the edit form accepts is always accepted by the server's update schema |
| Sidebar.VisibleItems | client/src/components/layout/Sidebar.tsx:42-47 | in order, exactly the items the user's role may see |
| Sidebar.ItemsLayout | client/src/components/layout/Sidebar.tsx:10-20 | six unrestricted items, the permissions item for administrators and managers, then two for administrators |
| Sidebar.VisibleSplit | client/src/components/layout/Sidebar.tsx:42-47 | the unrestricted items always show; only the last three depend on the role |
| Sidebar.RestrictedItems | client/src/components/layout/Sidebar.tsx:17-19 | the permissions item shows exactly to administrators and managers, the last two items exactly to administrators |
| Sidebar.VisibleToStaff | client/src/components/layout/Sidebar.tsx:44-45 | a user who is neither administrator nor manager sees exactly the six unrestricted items |
| Sidebar.VisibleWithoutUser | client/src/components/layout/Sidebar.tsx:45 | without a user only the six unrestricted items show |
| Sidebar.VisibleToManager | client/src/components/layout/Sidebar.tsx:44-45 | a manager also sees the permissions item, and nothing for administrators only |
| Sidebar.VisibleToAdministrator | client/src/components/layout/Sidebar.tsx:44-45 | an administrator sees all nine items |
| Sidebar.NoUserNoRestrictedItem | client/src/components/layout/Sidebar.tsx:44-45 | without a user no restricted item shows |
| Sidebar.ActiveRules | client/src/components/layout/Sidebar.tsx:49 | "/" is active only on itself; any other item is active on its own pages and the pages below them |
| Sidebar.FirstChar | client/src/components/layout/Sidebar.tsx:27-28 | at most one character, present exactly when the name is non-empty |
| Sidebar.GetInitials | client/src/components/layout/Sidebar.tsx:26-30 | the upper-cased first letters of first and last name, in that order, or "U" when there are none: one to four characters, at most two unless an initial is 'ß' |
| Fipe.FipeSelection.constructor | client/src/pages/Fipe.tsx:46-49 | cars, with nothing chosen |
| Fipe.FipeSelection.ChangeVehicleType | client/src/pages/Fipe.tsx:74-79 | the type changes and brand, model and year are cleared |
| Fipe.FipeSelection.ChangeBrand | client/src/pages/Fipe.tsx:81-85 | the brand changes, model and year are cleared, and the models query is enabled exactly for a chosen brand |
| Fipe.FipeSelection.ChangeModel | client/src/pages/Fipe.tsx:87-90 | the model changes and the year is cleared; the cascade is kept when a brand is chosen |
| Fipe.FipeSelection.ChangeYear | client/src/pages/Fipe.tsx:49 | only the year changes; the cascade is kept when a model is chosen |
| Fipe.FipeSelection.Clear | client/src/pages/Fipe.tsx:92-96 | the three choices are cleared, the type is kept, and the clear button disappears |
| Fipe.QueriesNest | client/src/pages/Fipe.tsx:56-72 | each query runs only with the earlier ones; with the cascade, the price query runs exactly when a year is chosen |
| Deploy.ShouldIgnore | scripts/push-to-github.ts:46-63 | true exactly when some pattern matches: a "*." pattern by suffix, any other by substring |
| Deploy.ToolingIgnored | scripts/push-to-github.ts:47-52 | every path containing node_modules, .git, dist or scripts/ anywhere is ignored |
| Deploy.ArchivesIgnored | scripts/push-to-github.ts:51-57 | every path ending in ".tar.gz" is ignored |
| Deploy.SubstringReachesFurther | scripts/push-to-github.ts:58-60 | substring matching also ignores ".github/…" and ".gitignore" |

## Left out

- File-system and network work is not modelled:
  - files written by multer;
  - `fs.existsSync`, `sendFile` and `unlink`;
  - the GitHub API calls of the deploy script.
  
  The upload handlers take the files' names and sizes as values.
- Express sessions and cookies: a session is a `Session` object holding a user id.
- bcrypt hashing and comparison are the parameters `hash` and `verify`, because they are foreign code.
- The clock is a parameter: `now` on the server and `today` on the client. `todayStr` and `new Date(text)` are modelled by the parameters `today` and `parseDate`.
- Currency parsing (`Math.round(Number(text) * 100)`) is floating point. The form methods take the amount in cents as a parameter.
- The vehicle and person insert schemas derive from the table definitions by drizzle-zod. Their validation is not modelled: the routes take already-parsed values. The varchar length limits of the users table are not modelled either.
- The people routes only forward to storage, so their models are the storage methods.
- SQL `ilike` is case-insensitive containment. Lower-casing covers ASCII and Latin-1 letters, and `%` and `_` typed in a search are not treated as wildcards.
- Text.UpperChar: covers ASCII and Latin-1 characters, including 'ß' to "SS", 'ÿ' to U+0178 and 'µ' to U+039C; characters beyond Latin-1 are left as they are, where JavaScript maps them too. Text.Upper inherits this.
- Text.LowerChar: covers ASCII and Latin-1 characters; characters beyond Latin-1 are left as they are, where JavaScript maps them too. Text.Lower inherits this.
- Sidebar.GetInitials: `charAt(0)` takes a UTF-16 code unit; the model takes the first character, which differs for a name starting outside the Basic Multilingual Plane.
- Zod.Json: numbers in request bodies, and ids in route paths, are integers. A fractional or out-of-range JSON number, which `z.number()` accepts and the integer columns then refuse by throwing, and a non-numeric id, which `Number` turns into NaN, are not modelled.
- Storage.DatabaseStorage.GetPersonByDocument: returns the lowest-id match. The query has no ORDER BY (server/storage.ts:79-82) and documents are not unique, so the source promises only some matching person, and none exactly when nobody matches.
- A handler that throws is written as `Unhandled`. What the client then sees depends on how Express handles the thrown error (a 500 from the default handler, or no reply for a rejected promise under Express 4), and no Express version is fixed here. The models do not include the handlers' logging or their messages.
- `Object.entries` order is the order of the parameter list given to `Api.BuildUrl`.
- shared/routes.ts imports an intermediary schema that shared/schema.ts does not define. Intermediaries and trade-ins are not part of this model.
- React rendering, the toasts, the `searching` flag of the CPF lookup, and the query cache and fetches are not modelled. This includes the FIPE catalogue requests.
- CpfLookup.TypeThenAutoSearch: the effect's 500 ms timer is not modelled. The model states only when the search becomes due.
- Fipe.FipeSelection.ChangeModel: keeps the cascade only when a brand is chosen. The page ensures this by disabling the selector, and the model states the condition instead.
- Fipe.FipeSelection.ChangeYear: keeps the cascade only when a model is chosen, for the same reason.
- Storage.DatabaseStorage.GetVehicles: states that the result is a permutation and is ordered by entry date. It does not state the tie order among equal dates, which Postgres leaves open.
- Profile form fields arrive as multipart text, so a non-string value is not modelled.
- The remaining pages listed as context (profile, people, permissions, activity log, changelog) are not part of this model.

## Findings

| source | as written | input that shows it | evidently intended | confidence | as-written member | corrected member |
|---|---|---|---|---|---|---|
| server/storage.ts:248 | `totalAvailable` counts rows whose status equals a mis-encoded literal ("Dispon" + U+221A U+2260 + "vel", that is "Dispon√≠vel"), which no status ever equals | one vehicle with status "Disponível": the dashboard reports 0 available | count the vehicles whose status is "Disponível" | not executed | Stats.AvailableAsWrittenMissesAvailableVehicle | Stats.CountAvailableZeroIff |
